/** The Web Audio engine of the React player (src/App.tsx): `randFloat`, the gain
    envelope `playOnce` schedules, and `SoundEngine`'s master volume, mute flag and
    lazily created context.

    The audio graph is reduced to the numbers handed to it: the master node is the gain
    it is heading for, and a play is the envelope its gain node is given. The context's
    `currentTime` and the decoded buffer's duration are parameters. */
module Engine {
  import opened Wrappers
  import opened Numbers

  /** `Math.max(0, Math.min(1, v))`. */
  function ClampUnit(v: real): (c: real)
    ensures 0.0 <= c <= 1.0
    ensures 0.0 <= v <= 1.0 ==> c == v
    ensures v < 0.0 ==> c == 0.0
    ensures v > 1.0 ==> c == 1.0
  {
    MaxReal(0.0, MinReal(1.0, v))
  }

  /** Scaling by a positive factor keeps a strict order. */
  lemma ScaleStrict(a: real, b: real, d: real)
    requires a < b && 0.0 < d
    ensures a * d < b * d
  {
    assert b * d - a * d == (b - a) * d;
  }

  /** `lo + r * d`: a draw `r` in [0, 1) lands in `[lo, lo + d)` for a positive width
      `d`, and at `lo` for width 0. */
  function Lerp(lo: real, d: real, r: real): (x: real)
    requires 0.0 <= r < 1.0 && 0.0 <= d
    ensures lo <= x <= lo + d
    ensures 0.0 < d ==> x < lo + d
    ensures d == 0.0 ==> x == lo
  {
    if 0.0 < d then
      ScaleStrict(r, 1.0, d);
      lo + r * d
    else
      lo + r * d
  }

  /** `randFloat(min, max) = min + Math.random() * (max - min)` with `r = Math.random()`. */
  function RandFloat(min: real, max: real, r: real): (x: real)
    requires 0.0 <= r < 1.0
    ensures min <= max ==> min <= x <= max
    ensures min < max ==> x < max
    ensures min == max ==> x == min
  {
    if min <= max then Lerp(min, max - min, r) else min + r * (max - min)
  }

  /** Every point of `[lo, lo + d)` is reached by some draw. */
  lemma LerpReaches(lo: real, d: real, x: real) returns (r: real)
    requires lo <= x < lo + d
    ensures 0.0 <= r < 1.0 && Lerp(lo, d, r) == x
  {
    r := (x - lo) / d;
    assert r * d == x - lo;
    UnscaleStrict(r, 1.0, d);
  }

  /** Every value of the window `[min, max)` is drawn by some `r`. */
  lemma RandFloatReaches(min: real, max: real, x: real) returns (r: real)
    requires min <= x < max
    ensures 0.0 <= r < 1.0 && RandFloat(min, max, r) == x
  {
    r := LerpReaches(min, max - min, x);
  }

  /** Dividing out a positive factor keeps a strict order. */
  lemma UnscaleStrict(a: real, b: real, d: real)
    requires a * d < b * d && 0.0 < d
    ensures a < b
  {
    assert (b - a) * d == b * d - a * d;
  }

  /** The automation `playOnce` gives a play's gain node: the value `startGain` at
      `start`, an exponential ramp to `attackTarget` ending at `attackEnd`, the value
      `holdGain` set at `releaseStart`, and an exponential ramp to `releaseTarget`
      ending at `releaseEnd`. */
  datatype Envelope = Envelope(
    start: real, startGain: real,
    attackEnd: real, attackTarget: real,
    releaseStart: real, holdGain: real,
    releaseEnd: real, releaseTarget: real)

  /** The near-silence the envelope starts from and returns to. */
  const Floor: real := 0.0001

  /** The envelope for a buffer of `duration` seconds started at `now`. */
  function OnceEnvelope(now: real, duration: real, fadeInMs: real, fadeOutMs: real, baseGain: real): (e: Envelope)
    ensures e.start == now && e.startGain == Floor && e.releaseTarget == Floor
    ensures 0.0 <= e.holdGain <= 1.0
    ensures e.holdGain == ClampUnit(baseGain)
    ensures 0.0 <= baseGain <= 1.0 ==> e.holdGain == baseGain
    ensures e.attackEnd >= now + 0.01 > now
    ensures fadeInMs >= 10.0 ==> e.attackEnd == now + fadeInMs / 1000.0
    ensures fadeInMs < 10.0 ==> e.attackEnd == now + 0.01
    ensures e.attackTarget >= Floor && e.attackTarget >= e.holdGain
    ensures e.holdGain >= Floor ==> e.attackTarget == e.holdGain
    ensures e.holdGain < Floor ==> e.attackTarget == Floor
    ensures duration >= 0.0 ==> now <= e.releaseStart <= now + duration
    ensures e.releaseEnd == now + duration
    ensures fadeOutMs >= 0.0 && duration >= fadeOutMs / 1000.0 ==> e.releaseEnd - e.releaseStart == fadeOutMs / 1000.0
    ensures duration <= MaxReal(0.0, fadeOutMs) / 1000.0 ==> e.releaseStart == now
  {
    var maxGain := ClampUnit(baseGain);
    var fadeIn := MaxReal(0.0, fadeInMs) / 1000.0;
    var fadeOut := MaxReal(0.0, fadeOutMs) / 1000.0;
    var fadeOutStart := MaxReal(0.0, duration - fadeOut);
    Envelope(now, Floor,
      now + MaxReal(0.01, fadeIn), MaxReal(Floor, maxGain),
      now + fadeOutStart, maxGain,
      now + duration, Floor)
  }

  /** The attack and the release of every preset last exactly its fades (the release
      once the sound is at least as long as the fade-out). */
  lemma EnvelopeKeepsFades(now: real, duration: real, fadeInMs: real, fadeOutMs: real, baseGain: real)
    requires 10.0 <= fadeInMs && 0.0 <= fadeOutMs <= duration * 1000.0
    ensures var e := OnceEnvelope(now, duration, fadeInMs, fadeOutMs, baseGain);
      e.attackEnd - e.start == fadeInMs / 1000.0 &&
      e.releaseEnd - e.releaseStart == fadeOutMs / 1000.0 &&
      e.start < e.attackEnd && e.releaseStart <= e.releaseEnd
  {
  }

  /** `SoundEngine`. `ctx` is the context once `ensureContext` has made it, `master`
      the gain the master node is heading for; `contexts` counts the `AudioContext`s
      constructed. */
  class SoundEngine {
    var ctx: Option<nat>
    var master: Option<real>
    var isMuted: bool
    var volume: real
    var contexts: nat

    /** The gain the master node should carry: silence when muted, else the volume. */
    function TargetGain(): (g: real)
      reads this`isMuted, this`volume
    {
      if isMuted then 0.0 else volume
    }

    /** The volume is a gain in [0, 1]; at most one context is ever made, and the master
        node exists with it and always heads for the target gain. */
    ghost predicate Valid()
      reads this
    {
      0.0 <= volume <= 1.0 &&
      (ctx.None? <==> master.None?) &&
      (ctx.None? ==> contexts == 0) &&
      (ctx.Some? ==> contexts == 1 && ctx.value == 0) &&
      (master.Some? ==> master.value == TargetGain())
    }

    /** The master gain is a gain in [0, 1]. */
    lemma TargetGainInRange()
      requires Valid()
      ensures 0.0 <= TargetGain() <= 1.0
      ensures isMuted ==> TargetGain() == 0.0
      ensures !isMuted ==> TargetGain() == volume
    {
    }

    constructor ()
      ensures Valid()
      ensures ctx == None && master == None && !isMuted && volume == 0.5 && contexts == 0
    {
      ctx, master, isMuted, volume, contexts := None, None, false, 0.5, 0;
    }

    /** `ensureContext`: the first call makes the context and a master node at the
        target gain; later calls return that context and make nothing. */
    method EnsureContext() returns (c: nat)
      requires Valid()
      modifies this`ctx, this`master, this`contexts
      ensures Valid()
      ensures ctx == Some(c) && master == Some(TargetGain()) && contexts == 1
      ensures old(ctx).Some? ==> c == old(ctx).value && master == old(master) && contexts == old(contexts)
    {
      if ctx.Some? {
        return ctx.value;
      }
      c := contexts;
      contexts := contexts + 1;
      master := Some(if isMuted then 0.0 else volume);
      ctx := Some(c);
    }

    /** `setMasterVolume(v)`: stores the clamped volume and ramps an existing master node
        to the new target. */
    method SetMasterVolume(v: real)
      requires Valid()
      modifies this`volume, this`master
      ensures Valid()
      ensures volume == ClampUnit(v)
      ensures 0.0 <= v <= 1.0 ==> volume == v
      ensures master.Some? <==> old(master).Some?
    {
      volume := MaxReal(0.0, MinReal(1.0, v));
      if master.Some? {
        master := Some(if isMuted then 0.0 else volume);
      }
    }

    /** `getMasterVolume()`. */
    method GetMasterVolume() returns (v: real)
      requires Valid()
      ensures v == volume && 0.0 <= v <= 1.0
    {
      v := volume;
    }

    /** `setMuted(m)`: flips the flag and ramps an existing master node; the stored
        volume is kept. */
    method SetMuted(m: bool)
      requires Valid()
      modifies this`isMuted, this`master
      ensures Valid()
      ensures isMuted == m
      ensures master.Some? <==> old(master).Some?
      ensures master.Some? ==> master.value == (if m then 0.0 else volume)
    {
      isMuted := m;
      if master.Some? {
        master := Some(if m then 0.0 else volume);
      }
    }

    /** `playOnce`: makes sure the context exists, then, when the file fetches and
        decodes (`decoded` is its duration), gives the new gain node its envelope. A
        failed fetch or decode rejects the promise: `None`. */
    method PlayOnce(now: real, fadeInMs: real, fadeOutMs: real, baseGain: real, decoded: Option<real>)
      returns (e: Option<Envelope>)
      requires Valid()
      modifies this`ctx, this`master, this`contexts
      ensures Valid() && ctx.Some? && contexts == 1
      ensures old(ctx).Some? ==> ctx == old(ctx) && master == old(master)
      ensures decoded.None? ==> e.None?
      ensures decoded.Some? ==> e == Some(OnceEnvelope(now, decoded.value, fadeInMs, fadeOutMs, baseGain))
    {
      var _ := EnsureContext();
      if decoded.None? {
        return None;
      }
      e := Some(OnceEnvelope(now, decoded.value, fadeInMs, fadeOutMs, baseGain));
    }
  }

  /** Setting a volume in range and reading it back gives it again, whether or not the
      engine is muted, and muting never changes what is read back. */
  method VolumeReadsBack(eng: SoundEngine, v: real, m: bool) returns (read: real)
    requires eng.Valid() && 0.0 <= v <= 1.0
    modifies eng
    ensures read == v
  {
    eng.SetMasterVolume(v);
    eng.SetMuted(m);
    read := eng.GetMasterVolume();
  }
}
