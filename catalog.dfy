/** The sound catalogue of the React player (src/App.tsx): the training presets,
    the sound list, the preset lookup, the selection toggle, the active sounds, the
    sound the test button plays and the base gain of one play. */
module Catalog {
  import opened Wrappers
  import opened Lists

  /** `SoundMeta`; `defaultVolume` is optional. */
  datatype SoundMeta = SoundMeta(id: string, name: string, file: string, defaultVolume: Option<real>)

  /** `Preset`: base gain, fades in milliseconds and the random gap between plays in seconds. */
  datatype Preset = Preset(
    id: string, name: string, volume: real,
    fadeInMs: real, fadeOutMs: real, delayMinSec: real, delayMaxSec: real)

  /** `PRESETS`, from the gentlest to the most demanding. */
  const Presets: seq<Preset> := [
    Preset("beginner", "Beginner (very gentle)", 0.25, 800.0, 600.0, 30.0, 60.0),
    Preset("gentle", "Gentle", 0.35, 600.0, 500.0, 20.0, 40.0),
    Preset("moderate", "Moderate", 0.5, 400.0, 400.0, 12.0, 24.0),
    Preset("steady", "Steady", 0.65, 350.0, 300.0, 8.0, 16.0),
    Preset("advanced", "Advanced", 0.8, 250.0, 250.0, 5.0, 10.0)
  ]

  /** `SOUNDS`. */
  const Sounds: seq<SoundMeta> := [
    SoundMeta("doorbell-1", "Doorbell (ding-dong)", "/sounds/doorbell_ding_dong.mp3", Some(0.9)),
    SoundMeta("doorbell-2", "Doorbell (single chime)", "/sounds/doorbell_single.mp3", Some(0.85)),
    SoundMeta("knock-1", "Knock (light)", "/sounds/knock_light.mp3", Some(0.8)),
    SoundMeta("knock-2", "Knock (firm)", "/sounds/knock_firm.mp3", Some(0.8)),
    SoundMeta("fireworks-1", "Fireworks (pop)", "/sounds/firework_pop.mp3", Some(0.6)),
    SoundMeta("fireworks-2", "Fireworks (crackle)", "/sounds/firework_crackle.mp3", Some(0.6))
  ]

  /** What the player relies on in a preset: a non-empty delay window, a gain in (0, 1]
      and positive fades. */
  predicate WellFormed(p: Preset)
  {
    p.delayMinSec < p.delayMaxSec && 0.0 < p.volume <= 1.0 && p.fadeInMs > 0.0 && p.fadeOutMs > 0.0
  }

  /** A sound whose default volume, when it has one, is a gain in (0, 1]. */
  predicate AudibleGain(s: SoundMeta)
  {
    s.defaultVolume.Some? ==> 0.0 < s.defaultVolume.value <= 1.0
  }

  predicate DistinctPresetIds(ps: seq<Preset>)
  {
    forall i, j :: 0 <= i < j < |ps| ==> ps[i].id != ps[j].id
  }

  /** Every preset is well formed and no two share an id. */
  lemma PresetsWellFormed()
    ensures forall p :: p in Presets ==> WellFormed(p)
    ensures DistinctPresetIds(Presets)
    ensures forall s :: s in Sounds ==> AudibleGain(s)
  {
  }

  /** `PRESETS.find(p => p.id === id)`: the first preset with that id, `None` for
      `undefined`. */
  function FindPreset(ps: seq<Preset>, id: string): (r: Option<Preset>)
    ensures r.None? <==> forall p :: p in ps ==> p.id != id
    ensures r.Some? ==> r.value in ps && r.value.id == id
  {
    if ps == [] then None
    else if ps[0].id == id then Some(ps[0])
    else FindPreset(ps[1..], id)
  }

  /** The lookup returns the first preset carrying the id. */
  lemma {:induction false} FindPresetFirst(ps: seq<Preset>, i: nat)
    requires i < |ps|
    requires forall j :: 0 <= j < i ==> ps[j].id != ps[i].id
    ensures FindPreset(ps, ps[i].id) == Some(ps[i])
  {
    if i > 0 {
      FindPresetFirst(ps[1..], i - 1);
    }
  }

  /** Every preset the picker lists is found by its id, so the `!` on the lookup in
      `App` never meets `undefined`. */
  lemma EveryPresetFound(i: nat)
    requires i < |Presets|
    ensures FindPreset(Presets, Presets[i].id) == Some(Presets[i])
  {
    PresetsWellFormed();
    FindPresetFirst(Presets, i);
  }

  /** The `toggleSelected` update: `prev.includes(id) ? prev.filter(x => x !== id) : [...prev, id]`. */
  function ToggleSelected(prev: seq<string>, id: string): (r: seq<string>)
    ensures forall x :: x in r <==> (x in prev) != (x == id)
    ensures id !in prev ==> r == prev + [id]
    ensures id in prev ==> IsSubsequence(r, prev) && multiset(r) == multiset(prev)[id := 0]
  {
    if id in prev then Without(prev, id) else prev + [id]
  }

  /** Removing the element just appended restores the list when it was absent. */
  lemma {:induction false} WithoutAppended(s: seq<string>, x: string)
    requires x !in s
    ensures Without(s + [x], x) == s
  {
    if s != [] {
      assert (s + [x])[1..] == s[1..] + [x];
      WithoutAppended(s[1..], x);
    }
  }

  /** Toggling the same id twice restores every id's membership; when the id was not
      selected it restores the list itself. */
  lemma ToggleTwice(s: seq<string>, id: string)
    ensures forall x :: x in ToggleSelected(ToggleSelected(s, id), id) <==> x in s
    ensures id !in s ==> ToggleSelected(ToggleSelected(s, id), id) == s
  {
    if id !in s {
      WithoutAppended(s, id);
    }
  }

  /** `sounds.filter(s => selected.includes(s.id))`. */
  function ActiveSounds(sounds: seq<SoundMeta>, selected: seq<string>): (r: seq<SoundMeta>)
    ensures forall s :: s in r <==> s in sounds && s.id in selected
    ensures IsSubsequence(r, sounds)
  {
    if sounds == [] then []
    else if sounds[0].id in selected then [sounds[0]] + ActiveSounds(sounds[1..], selected)
    else ActiveSounds(sounds[1..], selected)
  }

  /** The filter keeps every selected sound as many times as it occurs. */
  lemma {:induction false} ActiveSoundsCounts(sounds: seq<SoundMeta>, selected: seq<string>)
    ensures forall s ::
      multiset(ActiveSounds(sounds, selected))[s] == (if s.id in selected then multiset(sounds)[s] else 0)
  {
    if sounds != [] {
      assert sounds == [sounds[0]] + sounds[1..];
      ActiveSoundsCounts(sounds[1..], selected);
    }
  }

  /** `sounds.map(s => s.id)`. */
  function Ids(sounds: seq<SoundMeta>): (ids: seq<string>)
    ensures |ids| == |sounds| && forall i :: 0 <= i < |sounds| ==> ids[i] == sounds[i].id
  {
    if sounds == [] then [] else [sounds[0].id] + Ids(sounds[1..])
  }

  /** With every id selected (the initial `SOUNDS.map(s => s.id)`) every sound is active,
      in catalogue order. */
  lemma {:induction false} AllSelectedActive(sounds: seq<SoundMeta>, selected: seq<string>)
    requires forall s :: s in sounds ==> s.id in selected
    ensures ActiveSounds(sounds, selected) == sounds
  {
    if sounds != [] {
      AllSelectedActive(sounds[1..], selected);
    }
  }

  /** The page starts with `SOUNDS.map(s => s.id)` selected, so the scheduler starts
      with the whole catalogue, in its order. */
  lemma InitialSelectionAllActive(sounds: seq<SoundMeta>)
    ensures ActiveSounds(sounds, Ids(sounds)) == sounds
  {
    var ids := Ids(sounds);
    forall s | s in sounds
      ensures s.id in ids
    {
      var i :| 0 <= i < |sounds| && sounds[i] == s;
      assert ids[i] == s.id;
    }
    AllSelectedActive(sounds, ids);
  }

  /** The first active sound is the first selected sound in catalogue order. */
  lemma {:induction false} FirstActive(sounds: seq<SoundMeta>, selected: seq<string>, i: nat)
    requires i < |sounds| && sounds[i].id in selected
    requires forall j :: 0 <= j < i ==> sounds[j].id !in selected
    ensures |ActiveSounds(sounds, selected)| > 0 && ActiveSounds(sounds, selected)[0] == sounds[i]
  {
    if i > 0 {
      FirstActive(sounds[1..], selected, i - 1);
    }
  }

  /** The sound `testPlay` plays: `activeSounds[0] ?? SOUNDS[0]`. */
  function TestPlaySound(selected: seq<string>): (s: SoundMeta)
    ensures s in Sounds
    ensures (exists x :: x in Sounds && x.id in selected) ==> s.id in selected
    ensures (forall x :: x in Sounds ==> x.id !in selected) ==> s == Sounds[0]
  {
    var active := ActiveSounds(Sounds, selected);
    if |active| > 0 then
      assert active[0] in active;
      active[0]
    else Sounds[0]
  }

  /** The test button plays the first selected sound in catalogue order. */
  lemma TestPlaysFirstSelected(selected: seq<string>, i: nat)
    requires i < |Sounds| && Sounds[i].id in selected
    requires forall j :: 0 <= j < i ==> Sounds[j].id !in selected
    ensures TestPlaySound(selected) == Sounds[i]
  {
    FirstActive(Sounds, selected, i);
  }

  /** `(sound.defaultVolume ?? 1) * preset.volume * masterMultiplier`. */
  function BaseGain(s: SoundMeta, p: Preset, masterMultiplier: real): (g: real)
    ensures AudibleGain(s) && 0.0 <= p.volume <= 1.0 && 0.0 <= masterMultiplier ==>
      0.0 <= g <= p.volume * masterMultiplier
    ensures s.defaultVolume.None? ==> g == p.volume * masterMultiplier
  {
    var dv := s.defaultVolume.GetOr(1.0);
    assert AudibleGain(s) && 0.0 <= p.volume <= 1.0 && 0.0 <= masterMultiplier ==>
      0.0 <= dv * (p.volume * masterMultiplier) <= p.volume * masterMultiplier
    by {
      if AudibleGain(s) && 0.0 <= p.volume <= 1.0 && 0.0 <= masterMultiplier {
        assert 0.0 <= p.volume * masterMultiplier;
        assert 0.0 <= dv <= 1.0;
      }
    }
    dv * p.volume * masterMultiplier
  }
}
