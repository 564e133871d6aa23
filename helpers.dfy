/** The pure helpers of the browser player in app.js: `clamp`, `pick`,
    the thunder-EQ slider step map, the manifest lookups and the rain
    candidate filter of `startRain`, the random delay windows, the gain
    ramps of the one-shot thunder voices, and the session timer text. */
module Helpers {
  import opened Wrappers
  import opened Lists
  import opened Strings
  import opened Numbers

  // ---------------------------------------------------------------- clamp, pick

  /** `clamp(n, lo, hi) = Math.max(lo, Math.min(hi, n))`. */
  function Clamp(n: int, lo: int, hi: int): (r: int)
    ensures lo <= hi ==> lo <= r <= hi
    ensures lo <= n <= hi ==> r == n
    ensures n < lo ==> r == lo
    ensures lo <= hi < n ==> r == hi
    ensures hi < lo ==> r == lo
  {
    Max(lo, Min(hi, n))
  }

  /** The index `pick` reads: `Math.floor(r * n)` for `r = Math.random()`. */
  function PickIndex(n: nat, r: real): (i: nat)
    requires 0 < n && 0.0 <= r < 1.0
    ensures i < n
    ensures i as real <= r * n as real < i as real + 1.0
  {
    assert r * n as real < n as real;
    (r * n as real).Floor
  }

  /** Every index can be picked: `r = i / n` picks `i`. */
  lemma PickIndexReaches(n: nat, i: nat)
    requires i < n
    ensures 0.0 <= i as real / n as real < 1.0
    ensures PickIndex(n, i as real / n as real) == i
  {
    var r := i as real / n as real;
    assert r * n as real == i as real;
  }

  // ---------------------------------------------------------------- thunder EQ sliders

  /** A thunder-EQ slider as `applyThunderEQFromSliders` reads it: `parseInt` of its
      `max` and of its `value`, `None` where `parseInt` gives `NaN`. */
  datatype Slider = Slider(max: Option<int>, value: Option<int>)

  /** Reduction percents for the four positions of a 0..3 slider. */
  const StepMap: seq<int> := [75, 50, 25, 0]

  /** The reduction percent read from one slider (`lowPct`/`highPct`); `None` is the
      `undefined` that `STEP_MAP[NaN]` yields for a stepped slider with an unparsable value. */
  function SliderPercent(el: Option<Slider>): (p: Option<int>)
    ensures el.None? ==> p == Some(0)
    ensures p.Some? ==> 0 <= p.value <= 100
    ensures el.Some? && el.value.max == Some(3) ==>
      (p.Some? <==> el.value.value.Some?) &&
      (p.Some? ==> p.value == 75 - 25 * Clamp(el.value.value.value, 0, 3))
    ensures el.Some? && el.value.max != Some(3) ==>
      p.Some? &&
      (el.value.value.Some? && 0 <= el.value.value.value <= 100 ==> p.value == el.value.value.value) &&
      (el.value.value.Some? && el.value.value.value < 0 ==> p.value == 0) &&
      (el.value.value.Some? && el.value.value.value > 100 ==> p.value == 100) &&
      (el.value.value.None? ==> p.value == 0)
  {
    match el
    case None => Some(0)
    case Some(s) =>
      if s.max == Some(3) then
        match s.value
        case None => None
        case Some(v) => Some(StepMap[Clamp(v, 0, 3)])
      else Some(Clamp(s.value.GetOr(0), 0, 100))
  }

  /** Moving a stepped slider up always lowers the reduction. */
  lemma StepMapDecreasing(i: int, j: int)
    requires 0 <= i < j < |StepMap|
    ensures StepMap[j] < StepMap[i]
  {
  }

  // ---------------------------------------------------------------- manifest

  /** `sounds/manifest.json`: rain tiers by intensity level, background thunder
      pools and manual thunder groups by kind; absent members are `None`. */
  datatype Manifest = Manifest(
    rain: Option<map<int, seq<string>>>,
    bgThunder: Option<seq<string>>,
    soundIdeasThunder: Option<seq<string>>,
    manualThunder: Option<map<string, seq<string>>>)

  /** `manifest.rain?.[level] || manifest.rain?.['2'] || []`. An empty array is truthy
      in JavaScript, so an empty tier is used as it is and does not fall back. */
  function RainTier(m: Manifest, level: int): (list: seq<string>)
    ensures m.rain.Some? && level in m.rain.value ==> list == m.rain.value[level]
    ensures m.rain.Some? && level !in m.rain.value && 2 in m.rain.value ==> list == m.rain.value[2]
    ensures m.rain.None? || (level !in m.rain.value && 2 !in m.rain.value) ==> list == []
  {
    match m.rain
    case None => []
    case Some(tiers) =>
      if level in tiers then tiers[level] else if 2 in tiers then tiers[2] else []
  }

  /** `manifest.manualThunder?.[which] || []`. */
  function ManualGroup(m: Manifest, which: string): (group: seq<string>)
    ensures m.manualThunder.Some? && which in m.manualThunder.value ==> group == m.manualThunder.value[which]
    ensures m.manualThunder.None? || which !in m.manualThunder.value ==> group == []
  {
    match m.manualThunder
    case None => []
    case Some(groups) => if which in groups then groups[which] else []
  }

  /** `[].concat(manifest.bgThunder || [], manifest.soundIdeasThunder || [])`. */
  function BgPool(m: Manifest): (pool: seq<string>)
    ensures forall n :: n in pool <==>
      (m.bgThunder.Some? && n in m.bgThunder.value) ||
      (m.soundIdeasThunder.Some? && n in m.soundIdeasThunder.value)
  {
    m.bgThunder.GetOr([]) + m.soundIdeasThunder.GetOr([])
  }

  // ---------------------------------------------------------------- rain candidates

  /** The words of `/thunder|lightning|boom|strike|rumble|close|distant/i`. */
  const Disallowed: seq<string> := ["thunder", "lightning", "boom", "strike", "rumble", "close", "distant"]

  /** The disallow pattern matches the name. The pattern's letters are all ASCII, and
      the case-insensitive match of a non-Unicode regular expression never equates a
      non-ASCII character with an ASCII one, so ASCII lower-casing decides it exactly. */
  predicate IsThunderName(n: string)
  {
    exists w :: w in Disallowed && ContainsIgnoringCase(n, w)
  }

  /** `list.filter(n => !disallow.test(n))`. */
  function CleanNames(list: seq<string>): (r: seq<string>)
    ensures forall n :: n in r <==> n in list && !IsThunderName(n)
    ensures IsSubsequence(r, list)
  {
    if list == [] then []
    else if IsThunderName(list[0]) then CleanNames(list[1..])
    else [list[0]] + CleanNames(list[1..])
  }

  /** The filter keeps every clean name as many times as it occurs. */
  lemma {:induction false} CleanNamesCounts(list: seq<string>)
    ensures forall n :: multiset(CleanNames(list))[n] == (if IsThunderName(n) then 0 else multiset(list)[n])
  {
    if list != [] {
      assert list == [list[0]] + list[1..];
      CleanNamesCounts(list[1..]);
    }
  }

  /** The candidates `startRain` picks from: the clean names, or the whole tier when
      no name is clean. */
  function Candidates(list: seq<string>): (c: seq<string>)
    ensures |c| > 0 <==> |list| > 0
    ensures forall n :: n in c ==> n in list
    ensures (exists n :: n in list && !IsThunderName(n)) ==>
      forall n :: n in c <==> n in list && !IsThunderName(n)
    ensures (forall n :: n in list ==> IsThunderName(n)) ==> c == list
  {
    var clean := CleanNames(list);
    if |clean| > 0 then
      assert clean[0] in list && !IsThunderName(clean[0]);
      clean
    else
      assert forall n :: n in list ==> IsThunderName(n);
      list
  }

  /** The text `pick(undefined)` turns into inside the asset URL when the tier is empty. */
  const Undefined: string := "undefined"

  /** The base name `startRain` tries first. */
  function RainPick(list: seq<string>, r: real): (base: string)
    requires 0.0 <= r < 1.0
    ensures |list| > 0 ==> base in Candidates(list) && base in list
    ensures |list| == 0 ==> base == Undefined
  {
    var c := Candidates(list);
    if |c| == 0 then Undefined else c[PickIndex(|c|, r)]
  }

  /** The first name of `names` whose asset loads, as the alternates loop of
      `startRain` finds it. */
  function FirstIn(names: seq<string>, playable: set<string>): (r: Option<string>)
    ensures r.None? <==> forall n :: n in names ==> n !in playable
    ensures r.Some? ==> r.value in playable
    ensures r.Some? ==>
      exists i :: 0 <= i < |names| && names[i] == r.value && forall j :: 0 <= j < i ==> names[j] !in playable
  {
    if names == [] then None
    else if names[0] in playable then Some(names[0])
    else
      var r := FirstIn(names[1..], playable);
      if r.Some? then
        var i :| 0 <= i < |names| - 1 && names[1..][i] == r.value &&
                 forall j :: 0 <= j < i ==> names[1..][j] !in playable;
        assert names[i + 1] == r.value && forall j :: 0 <= j < i + 1 ==> names[j] !in playable;
        r
      else r
  }

  /** The alternates loop of `startRain`: tries each name in order and stops at the
      first one that loads. */
  method FirstPlayable(names: seq<string>, playable: set<string>) returns (r: Option<string>)
    ensures r == FirstIn(names, playable)
  {
    var i := 0;
    while i < |names|
      invariant 0 <= i <= |names|
      invariant FirstIn(names[i..], playable) == FirstIn(names, playable)
    {
      if names[i] in playable {
        return Some(names[i]);
      }
      assert names[i..][1..] == names[i + 1..];
      i := i + 1;
    }
    return None;
  }

  /** The rain asset `startRain` ends up playing, if any: the pick when it loads, else the
      first loading name of the whole tier other than the pick. */
  function RainOutcome(list: seq<string>, r: real, playable: set<string>): Option<string>
    requires 0.0 <= r < 1.0
  {
    var base := RainPick(list, r);
    if base in playable then Some(base) else FirstIn(Without(list, base), playable)
  }

  /** The name choice of `startRain`: the pick if it loads, else the first alternate
      that does. */
  method ChooseRain(list: seq<string>, r: real, playable: set<string>) returns (name: Option<string>)
    requires 0.0 <= r < 1.0
    ensures name == RainOutcome(list, r, playable)
  {
    var base := RainPick(list, r);
    if base in playable {
      return Some(base);
    }
    name := FirstPlayable(Without(list, base), playable);
  }

  /** What the rain pick and its retries guarantee. */
  lemma RainOutcomeSpec(list: seq<string>, r: real, playable: set<string>)
    requires 0.0 <= r < 1.0
    ensures var o := RainOutcome(list, r, playable);
      (o.Some? ==> o.value in playable) &&
      (o.Some? && |list| > 0 ==> o.value in list) &&
      (|list| > 0 ==> (o.None? <==> forall n :: n in list ==> n !in playable)) &&
      (|list| == 0 ==> (o.None? <==> Undefined !in playable)) &&
      (RainPick(list, r) in playable ==> o == Some(RainPick(list, r))) &&
      ((exists n :: n in list && !IsThunderName(n)) && RainPick(list, r) in playable ==>
         !IsThunderName(o.value))
  {
    var base := RainPick(list, r);
    var o := RainOutcome(list, r, playable);
    if base !in playable {
      assert o == FirstIn(Without(list, base), playable);
      if |list| == 0 {
        assert Without(list, base) == [];
      }
    }
  }

  // ---------------------------------------------------------------- random windows

  /** `240000 + Math.random() * 180000`: the rain rotation delay in milliseconds. */
  function RotationDelayMs(r: real): (d: real)
    requires 0.0 <= r < 1.0
    ensures 240000.0 <= d < 420000.0
  {
    240000.0 + r * 180000.0
  }

  /** Every delay of the 4 to 7 minute window can occur. */
  lemma RotationDelayCoversWindow(d: real)
    requires 240000.0 <= d < 420000.0
    ensures exists r :: 0.0 <= r < 1.0 && RotationDelayMs(r) == d
  {
    var r := (d - 240000.0) / 180000.0;
    assert RotationDelayMs(r) == d;
  }

  /** The background thunder delay in seconds: `3 + r*5` before the first roll,
      `20 + r*40` before every later one. */
  function BgDelaySec(initial: bool, r: real): (d: real)
    requires 0.0 <= r < 1.0
    ensures initial ==> 3.0 <= d < 8.0
    ensures !initial ==> 20.0 <= d < 60.0
  {
    if initial then 3.0 + r * 5.0 else 20.0 + r * 40.0
  }

  /** Every delay of either window can occur. */
  lemma BgDelayCoversWindow(initial: bool, d: real)
    requires initial ==> 3.0 <= d < 8.0
    requires !initial ==> 20.0 <= d < 60.0
    ensures exists r :: 0.0 <= r < 1.0 && BgDelaySec(initial, r) == d
  {
    var r := if initial then (d - 3.0) / 5.0 else (d - 20.0) / 40.0;
    assert BgDelaySec(initial, r) == d;
  }

  /** `0.6 + Math.random() * 0.2`: a background roll's peak gain. */
  function BgTargetGain(r: real): (g: real)
    requires 0.0 <= r < 1.0
    ensures 0.6 <= g < 0.8
  {
    0.6 + r * 0.2
  }

  // ---------------------------------------------------------------- one-shot ramps

  /** The gain automation of a thunder voice, in seconds after its start: from 0.0001
      a linear ramp to `peak` ending at `attackEnd`, the peak held from `holdFrom`,
      then a linear ramp back to 0.0001 ending at `releaseEnd`. */
  datatype Ramp = Ramp(attackEnd: real, peak: real, holdFrom: real, releaseEnd: real)

  /** The ramp of a manual clap (`playThunder`) on a buffer of `dur` seconds. */
  function ManualRamp(dur: real): (e: Ramp)
    ensures e.peak == 1.0 && e.attackEnd == 0.02
    ensures dur >= 0.0 ==> 0.0 <= e.holdFrom <= e.releaseEnd <= dur
    ensures dur >= 0.08 ==> e.releaseEnd - e.holdFrom == 0.06 && dur - e.releaseEnd == 0.02
  {
    Ramp(0.02, 1.0, MaxReal(0.0, dur - 0.08), MaxReal(0.0, dur - 0.02))
  }

  /** The ramp of a background roll on a buffer of `dur` seconds at peak `target`. */
  function BgRamp(dur: real, target: real): (e: Ramp)
    ensures e.peak == target && e.attackEnd == 0.25
    ensures dur >= 0.0 ==> 0.0 <= e.holdFrom <= e.releaseEnd <= dur
    ensures dur >= 0.4 ==> e.releaseEnd - e.holdFrom == 0.35 && dur - e.releaseEnd == 0.05
  {
    Ramp(0.25, target, MaxReal(0.0, dur - 0.4), MaxReal(0.0, dur - 0.05))
  }

  // ---------------------------------------------------------------- session timer text

  /** The `MM:SS / T:00` text of a tick: minutes and seconds of `elapsed`, each padded
      to two digits, and the session length in minutes, unpadded. */
  function TimerText(elapsed: nat, sessionLength: int): string
    requires sessionLength % 60 == 0
  {
    ClockFace(PadStart2(Decimal(elapsed / 60)), PadStart2(Decimal(elapsed % 60)), IntDecimal(sessionLength / 60))
  }

  /** `${mm}:${ss} / ${total}:00`. */
  function ClockFace(mm: string, ss: string, total: string): string
  {
    mm + ":" + ss + " / " + total + ":00"
  }

  /** Splitting a clock face back into its fields. */
  lemma ClockSplit(mm: string, ss: string, total: string)
    requires |ss| == 2
    ensures var t := ClockFace(mm, ss, total);
      |t| == |mm| + 6 + |total| + 3 &&
      t[..|mm|] == mm && t[|mm|] == ':' && t[|mm| + 1..|mm| + 3] == ss &&
      t[|mm| + 3..|mm| + 6] == " / " && t[|mm| + 6..] == total + ":00"
  {
    var t := ClockFace(mm, ss, total);
    var k := |mm|;
    assert t == mm + (":" + ss + " / " + total + ":00");
    var u := ":" + ss + " / " + total + ":00";
    assert t[k..] == u;
    assert u[1..3] == ss;
    assert u[3..6] == " / ";
    assert u[6..] == total + ":00";
  }

  /** A zero-padded field reads back as the number it shows. */
  lemma PaddedDecimal(n: nat)
    ensures AllDigits(PadStart2(Decimal(n))) && ValueOf(PadStart2(Decimal(n))) == n
    ensures |PadStart2(Decimal(n))| >= 2
    ensures n < 100 ==> |PadStart2(Decimal(n))| == 2
  {
    DecimalValue(n);
    PaddedValue(Decimal(n));
    DecimalLength(n);
  }

  /** The timer text reads back as `elapsed`: it is the clock face of a minutes field
      `mm` of at least two digits (exactly two below 100 minutes) and a two-digit seconds
      field `ss` whose values give `elapsed`, over the session minutes. `ClockSplit`
      recovers the fields from the text. */
  lemma TimerTextReadsBack(elapsed: nat, sessionLength: int) returns (mm: string, ss: string)
    requires sessionLength % 60 == 0
    ensures TimerText(elapsed, sessionLength) == ClockFace(mm, ss, IntDecimal(sessionLength / 60))
    ensures AllDigits(mm) && 2 <= |mm| && (elapsed < 6000 ==> |mm| == 2)
    ensures AllDigits(ss) && |ss| == 2
    ensures ValueOf(mm) == elapsed / 60 && ValueOf(ss) == elapsed % 60 < 60
    ensures ValueOf(mm) * 60 + ValueOf(ss) == elapsed
  {
    var m, s := elapsed / 60, elapsed % 60;
    assert m * 60 + s == elapsed;
    assert elapsed < 6000 ==> m < 100;
    mm := PadStart2(Decimal(m));
    ss := PadStart2(Decimal(s));
    PaddedDecimal(m);
    PaddedDecimal(s);
  }
}
