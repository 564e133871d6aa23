/** The random-play loop of the React player's `useScheduler` effect (src/App.tsx).

    One `Run` is one execution of the effect for fixed `enabled`, `preset`, `sounds`
    and `masterMultiplier`; its cleanup sets `cancelled`. The loop's awaits become
    separate steps: the pick (`Loop`), the end of the random delay (`DelayElapsed`)
    and the settling of the `playOnce` promise (`PlayDone`). `Math.random()` values
    are parameters in [0, 1). */
module Scheduler {
  import opened Wrappers
  import opened Helpers
  import opened Catalog
  import opened Engine

  /** What one iteration settles on before it waits: the sound, its base gain and the
      delay in seconds. */
  datatype Choice = Choice(sound: SoundMeta, base: real, delaySec: real)

  /** One iteration's pick from `sounds`; `None` when `sounds` is empty, where
      `sounds[0]` is `undefined` and reading its `defaultVolume` throws. */
  function NextChoice(sounds: seq<SoundMeta>, preset: Preset, masterMultiplier: real, rPick: real, rDelay: real)
    : (c: Option<Choice>)
    requires 0.0 <= rPick < 1.0 && 0.0 <= rDelay < 1.0
    ensures c.None? <==> |sounds| == 0
    ensures c.Some? ==> c.value.sound in sounds
    ensures c.Some? ==> c.value.base == BaseGain(c.value.sound, preset, masterMultiplier)
    ensures c.Some? && preset.delayMinSec < preset.delayMaxSec ==>
      preset.delayMinSec <= c.value.delaySec < preset.delayMaxSec
  {
    if |sounds| == 0 then None
    else
      var sound := sounds[PickIndex(|sounds|, rPick)];
      Some(Choice(sound, BaseGain(sound, preset, masterMultiplier),
        RandFloat(preset.delayMinSec, preset.delayMaxSec, rDelay)))
  }

  /** Every sound can come next, after any delay of the preset's window. */
  lemma EverySoundCanPlay(sounds: seq<SoundMeta>, preset: Preset, masterMultiplier: real, i: nat, d: real)
    returns (rPick: real, rDelay: real)
    requires i < |sounds| && preset.delayMinSec <= d < preset.delayMaxSec
    ensures 0.0 <= rPick < 1.0 && 0.0 <= rDelay < 1.0
    ensures NextChoice(sounds, preset, masterMultiplier, rPick, rDelay) ==
      Some(Choice(sounds[i], BaseGain(sounds[i], preset, masterMultiplier), d))
  {
    PickIndexReaches(|sounds|, i);
    rPick := i as real / |sounds| as real;
    rDelay := RandFloatReaches(preset.delayMinSec, preset.delayMaxSec, d);
  }

  /** With sounds whose default volumes are gains, a well-formed preset and a multiplier
      in [0, 1], every base gain is within the preset's volume scaled by the multiplier,
      and every delay is in the preset's window. */
  lemma ChoicesInRange(sounds: seq<SoundMeta>, p: Preset, masterMultiplier: real, rPick: real, rDelay: real)
    requires forall s :: s in sounds ==> AudibleGain(s)
    requires WellFormed(p) && 0.0 <= masterMultiplier <= 1.0 && |sounds| > 0
    requires 0.0 <= rPick < 1.0 && 0.0 <= rDelay < 1.0
    ensures var c := NextChoice(sounds, p, masterMultiplier, rPick, rDelay);
      c.Some? && 0.0 <= c.value.base <= p.volume * masterMultiplier &&
      p.delayMinSec <= c.value.delaySec < p.delayMaxSec
  {
    var c := NextChoice(sounds, p, masterMultiplier, rPick, rDelay);
    assert AudibleGain(c.value.sound);
  }

  /** The same for the catalogue: any non-empty selection of `SOUNDS` under any of the
      `PRESETS`. */
  lemma CatalogueChoicesInRange(selected: seq<string>, p: Preset, masterMultiplier: real, rPick: real, rDelay: real)
    requires p in Presets && 0.0 <= masterMultiplier <= 1.0
    requires 0.0 <= rPick < 1.0 && 0.0 <= rDelay < 1.0
    requires |ActiveSounds(Sounds, selected)| > 0
    ensures var c := NextChoice(ActiveSounds(Sounds, selected), p, masterMultiplier, rPick, rDelay);
      c.Some? && 0.0 <= c.value.base <= p.volume * masterMultiplier &&
      p.delayMinSec <= c.value.delaySec < p.delayMaxSec
  {
    PresetsWellFormed();
    var active := ActiveSounds(Sounds, selected);
    assert forall s :: s in active ==> AudibleGain(s);
    ChoicesInRange(active, p, masterMultiplier, rPick, rDelay);
  }

  /** Where the loop is: not started, waiting out the delay before `sound`, waiting for
      the `playOnce` of `sound` to settle, returned, or stopped by the exception an
      empty `sounds` raises. */
  datatype Phase = Idle | Waiting(choice: Choice) | Playing(sound: SoundMeta) | Ended | Crashed

  class Run {
    const enabled: bool
    const preset: Preset
    const sounds: seq<SoundMeta>
    const masterMultiplier: real

    var cancelled: bool
    var phase: Phase
    /** The sounds whose `playOnce` has been started, in order. */
    var played: seq<SoundMeta>

    /** Only the given sounds play; a waiting iteration holds a valid choice; a run that
        is not enabled never plays. */
    ghost predicate Valid()
      reads this
    {
      (forall i :: 0 <= i < |played| ==> played[i] in sounds) &&
      (phase.Waiting? ==>
        phase.choice.sound in sounds &&
        phase.choice.base == BaseGain(phase.choice.sound, preset, masterMultiplier) &&
        (preset.delayMinSec < preset.delayMaxSec ==>
          preset.delayMinSec <= phase.choice.delaySec < preset.delayMaxSec)) &&
      (phase.Playing? ==> phase.sound in sounds) &&
      (!enabled ==> played == [] && (phase.Idle? || phase.Ended?))
    }

    /** The effect starts with `cancelled = false`. */
    constructor (enabled: bool, preset: Preset, sounds: seq<SoundMeta>, masterMultiplier: real)
      ensures Valid()
      ensures this.enabled == enabled && this.preset == preset && this.sounds == sounds
      ensures this.masterMultiplier == masterMultiplier
      ensures !cancelled && phase == Idle && played == []
    {
      this.enabled := enabled;
      this.preset := preset;
      this.sounds := sounds;
      this.masterMultiplier := masterMultiplier;
      cancelled := false;
      phase := Idle;
      played := [];
    }

    /** The effect body: `if (enabled) loop()`. */
    method Start(rPick: real, rDelay: real)
      requires Valid() && phase == Idle
      requires 0.0 <= rPick < 1.0 && 0.0 <= rDelay < 1.0
      modifies this`phase
      ensures Valid()
      ensures !enabled ==> phase == Ended
      ensures enabled && !cancelled ==> phase == Next(rPick, rDelay)
      ensures cancelled ==> phase == Ended
    {
      if enabled {
        Loop(rPick, rDelay);
      } else {
        phase := Ended;
      }
    }

    /** Where one call of `loop` leaves the run when not cancelled. */
    function Next(rPick: real, rDelay: real): (p: Phase)
      requires 0.0 <= rPick < 1.0 && 0.0 <= rDelay < 1.0
      ensures p.Crashed? <==> |sounds| == 0
      ensures p.Waiting? <==> |sounds| > 0
    {
      match NextChoice(sounds, preset, masterMultiplier, rPick, rDelay)
      case None => Crashed
      case Some(c) => Waiting(c)
    }

    /** The head of `loop` up to its delay: returns when cancelled, else picks the sound,
        computes its gain and delay, and waits. */
    method Loop(rPick: real, rDelay: real)
      requires Valid() && enabled
      requires 0.0 <= rPick < 1.0 && 0.0 <= rDelay < 1.0
      modifies this`phase
      ensures Valid()
      ensures cancelled ==> phase == Ended
      ensures !cancelled ==> phase == Next(rPick, rDelay)
    {
      if cancelled {
        phase := Ended;
        return;
      }
      phase := Next(rPick, rDelay);
    }

    /** The delay has run out: returns when cancelled, else starts the `playOnce`. */
    method DelayElapsed()
      requires Valid() && phase.Waiting?
      modifies this`phase, this`played
      ensures Valid()
      ensures old(cancelled) ==> phase == Ended && played == old(played)
      ensures !old(cancelled) ==>
        phase == Playing(old(phase).choice.sound) && played == old(played) + [old(phase).choice.sound]
    {
      if cancelled {
        phase := Ended;
        return;
      }
      var sound := phase.choice.sound;
      played := played + [sound];
      phase := Playing(sound);
    }

    /** The `playOnce` promise has settled, resolved or caught: the loop recurses only
        while not cancelled and enabled. */
    method PlayDone(rPick: real, rDelay: real)
      requires Valid() && phase.Playing?
      requires 0.0 <= rPick < 1.0 && 0.0 <= rDelay < 1.0
      modifies this`phase
      ensures Valid()
      ensures cancelled || !enabled ==> phase == Ended
      ensures !cancelled && enabled ==> phase == Next(rPick, rDelay)
    {
      if !cancelled && enabled {
        Loop(rPick, rDelay);
      } else {
        phase := Ended;
      }
    }

    /** The effect cleanup: `cancelled = true`. */
    method Cancel()
      requires Valid()
      modifies this`cancelled
      ensures Valid() && cancelled
    {
      cancelled := true;
    }
  }

  /** Once cancelled, whatever step runs next starts no `playOnce` and leaves the loop
      ended: the sounds played stay exactly those played before. */
  method CancelledRunStops(run: Run, rPick: real, rDelay: real) returns (playedAfter: seq<SoundMeta>)
    requires run.Valid() && run.cancelled && !run.phase.Ended? && !run.phase.Crashed?
    requires 0.0 <= rPick < 1.0 && 0.0 <= rDelay < 1.0
    modifies run
    ensures run.phase == Ended && playedAfter == old(run.played)
  {
    match run.phase {
      case Idle => run.Start(rPick, rDelay);
      case Waiting(_) => run.DelayElapsed();
      case Playing(_) => run.PlayDone(rPick, rDelay);
    }
    playedAfter := run.played;
  }
}
