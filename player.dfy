/** The session, rain and thunder controller of app.js.

    The module-level `let`s of the page become the fields of one `Controller`.
    The browser's side of the timers and sources becomes three more fields:
    `timeouts` (the `setTimeout` callbacks still pending, by timer id), `intervals`
    (the pending `setInterval`s) and `live` (the buffer sources started and not
    yet stopped or ended). `nextId` hands out fresh ids for both.
    `Math.random()` values are parameters in [0, 1); whether a fetch-and-decode
    succeeds is the oracle `playable`, the set of base names that load. */
module Player {
  import opened Wrappers
  import opened Lists
  import opened Helpers

  type Id = nat

  /** A pending `setTimeout` callback: a rain rotation for `level`, or the next
      background roll. */
  datatype Timeout = RainSwap(level: int, delayMs: real) | BgRoll(delaySec: real)

  /** A tracked one-shot thunder voice (`{src, g}` in `activeManual`/`activeBg`). */
  datatype Voice = Voice(id: Id, name: string, ramp: Ramp)

  /** The looping rain source. */
  datatype RainLoop = RainLoop(id: Id, name: string)

  /** A shelf filter: corner frequency in Hz and gain in dB. */
  datatype Shelf = Shelf(freqHz: int, gainDb: int)

  /** The low-rumble softener on the rain bus. */
  const RumbleShelf: Shelf := Shelf(80, -8)

  /** The ids of the voices in a tracking list. */
  function VoiceIds(vs: seq<Voice>): set<Id>
  {
    if vs == [] then {} else {vs[0].id} + VoiceIds(vs[1..])
  }

  /** Pushing a voice adds its id. */
  lemma {:induction false} VoiceIdsPush(vs: seq<Voice>, v: Voice)
    ensures VoiceIds(vs + [v]) == VoiceIds(vs) + {v.id}
  {
    if vs != [] {
      assert (vs + [v])[1..] == vs[1..] + [v];
      VoiceIdsPush(vs[1..], v);
    }
  }

  /** `list.filter(r => r !== rec)` for the voice with id `id`: only that voice goes. */
  function WithoutVoice(vs: seq<Voice>, id: Id): (r: seq<Voice>)
    ensures forall v :: v in r <==> v in vs && v.id != id
    ensures VoiceIds(r) == VoiceIds(vs) - {id}
    ensures IsSubsequence(r, vs)
  {
    if vs == [] then []
    else if vs[0].id == id then WithoutVoice(vs[1..], id)
    else [vs[0]] + WithoutVoice(vs[1..], id)
  }

  /** The filter keeps every other record as many times as it occurs. */
  lemma {:induction false} WithoutVoiceCounts(vs: seq<Voice>, id: Id)
    ensures forall v :: multiset(WithoutVoice(vs, id))[v] == (if v.id == id then 0 else multiset(vs)[v])
  {
    if vs != [] {
      assert vs == [vs[0]] + vs[1..];
      WithoutVoiceCounts(vs[1..], id);
    }
  }

  function TimerSet(t: Option<Id>): set<Id>
  {
    if t.Some? then {t.value} else {}
  }

  /** The rain loop `startRain` leaves playing, created with id `src`. */
  function RainAfter(m: Manifest, level: int, rPick: real, playable: set<string>, src: Id): Option<RainLoop>
    requires 0.0 <= rPick < 1.0
  {
    match RainOutcome(RainTier(m, level), rPick, playable)
    case None => None
    case Some(name) => Some(RainLoop(src, name))
  }

  class Controller {
    const manifest: Manifest

    /** `ctx` and the mix graph exist (`initAudio` has run). */
    var ctxReady: bool
    /** The output context is suspended (`ctx.suspend()`). */
    var suspended: bool
    /** `rainEQ`: when present the rain bus feeds this shelf, which feeds the master;
        otherwise the rain bus feeds the master directly. */
    var rainEQ: Option<Shelf>
    /** The reduction percents last read from the thunder-EQ sliders. */
    var lowPct: Option<int>
    var highPct: Option<int>

    var rainSrc: Option<RainLoop>
    var activeManual: seq<Voice>
    var activeBg: seq<Voice>
    var bgTimer: Option<Id>
    var rainSwapTimer: Option<Id>
    var sessionRunning: bool
    var paused: bool
    var timerInterval: Option<Id>
    var elapsed: nat
    var sessionLength: int
    var manualCount: int

    var timeouts: map<Id, Timeout>
    var intervals: set<Id>
    var live: set<Id>
    var nextId: Id

    function RainIds(): set<Id>
      reads this`rainSrc
    {
      if rainSrc.Some? then {rainSrc.value.id} else {}
    }

    /** Every source the controller can still reach to stop. */
    function Tracked(): set<Id>
      reads this`rainSrc, this`activeManual, this`activeBg
    {
      RainIds() + VoiceIds(activeManual) + VoiceIds(activeBg)
    }

    /** The controller's invariant: at most one pending timer of each kind, each held
        in its slot, and a slot's id, while pending, is a timer of that slot's kind (the
        browser never reuses a timer id); every live source is tracked and every tracked
        source is live. */
    ghost predicate Valid()
      reads this`timeouts, this`intervals, this`live, this`nextId, this`rainSrc, this`activeManual,
        this`activeBg, this`rainSwapTimer, this`bgTimer, this`timerInterval, this`rainEQ, this`ctxReady,
        this`sessionLength
    {
      (forall t :: t in timeouts ==> t < nextId) &&
      (forall t :: t in intervals ==> t < nextId) &&
      (forall id :: id in Tracked() ==> id < nextId) &&
      (forall t :: t in timeouts && timeouts[t].RainSwap? ==> rainSwapTimer == Some(t)) &&
      (forall t :: t in timeouts && timeouts[t].BgRoll? ==> bgTimer == Some(t)) &&
      (forall t :: t in intervals ==> timerInterval == Some(t)) &&
      (rainSwapTimer.Some? ==> rainSwapTimer.value < nextId) &&
      (bgTimer.Some? ==> bgTimer.value < nextId) &&
      (rainSwapTimer.Some? && rainSwapTimer.value in timeouts ==> timeouts[rainSwapTimer.value].RainSwap?) &&
      (bgTimer.Some? && bgTimer.value in timeouts ==> timeouts[bgTimer.value].BgRoll?) &&
      RainIds() !! VoiceIds(activeManual) &&
      RainIds() !! VoiceIds(activeBg) &&
      VoiceIds(activeManual) !! VoiceIds(activeBg) &&
      live == Tracked() &&
      (rainEQ.Some? ==> ctxReady && rainEQ == Some(RumbleShelf)) &&
      sessionLength % 60 == 0
    }

    /** No source plays and no timer is pending. */
    predicate Silent()
      reads this
    {
      timerInterval == None && intervals == {} &&
      rainSwapTimer == None && bgTimer == None && timeouts == map[] &&
      rainSrc == None && activeBg == [] && activeManual == [] && live == {}
    }

    /** What a tick leaves alone unless it ends the session: the session flags, every
        timer and every source. */
    function Activity(): (bool, bool, Option<Id>, set<Id>, Option<Id>, map<Id, Timeout>, Option<Id>,
                          seq<Voice>, set<Id>, Option<RainLoop>, seq<Voice>)
      reads this`sessionRunning, this`paused, this`timerInterval, this`intervals, this`rainSwapTimer,
        this`timeouts, this`bgTimer, this`activeBg, this`live, this`rainSrc, this`activeManual
    {
      (sessionRunning, paused, timerInterval, intervals, rainSwapTimer, timeouts, bgTimer,
       activeBg, live, rainSrc, activeManual)
    }

    /** The state `stopSession` leaves. */
    predicate Stopped()
      reads this
    {
      !sessionRunning && !paused && Silent()
    }

    /** The page state when app.js has loaded the manifest, before `initAudio`. */
    constructor (m: Manifest)
      ensures Valid() && Stopped()
      ensures manifest == m && !ctxReady && !suspended && rainEQ == None
      ensures lowPct == Some(0) && highPct == Some(0)
      ensures elapsed == 0 && sessionLength == 600 && manualCount == 0
    {
      manifest := m;
      ctxReady, suspended, rainEQ := false, false, None;
      lowPct, highPct := Some(0), Some(0);
      rainSrc, activeManual, activeBg := None, [], [];
      bgTimer, rainSwapTimer, timerInterval := None, None, None;
      sessionRunning, paused := false, false;
      elapsed, sessionLength, manualCount := 0, 600, 0;
      timeouts, intervals, live, nextId := map[], {}, {}, 0;
    }

    /** `initAudio`: the context and graph now exist, and the EQ sliders are read. */
    method InitAudio(low: Option<Slider>, high: Option<Slider>)
      requires Valid()
      modifies this`ctxReady, this`lowPct, this`highPct
      ensures Valid() && ctxReady
      ensures lowPct == SliderPercent(low) && highPct == SliderPercent(high)
    {
      ctxReady := true;
      ApplyThunderEQ(low, high);
    }

    /** `applyLowFreqSoft`: inserts the rumble shelf when enabled, removes it when
        disabled; does nothing before the context exists. */
    method ApplyLowFreqSoft(enabled: bool)
      requires Valid()
      modifies this`rainEQ
      ensures Valid()
      ensures !ctxReady ==> rainEQ == old(rainEQ)
      ensures ctxReady ==> rainEQ == if enabled then Some(RumbleShelf) else None
    {
      if !ctxReady {
        return;
      }
      if enabled {
        if rainEQ.None? {
          rainEQ := Some(RumbleShelf);
        } else {
          rainEQ := Some(Shelf(rainEQ.value.freqHz, -8));
        }
      } else if rainEQ.Some? {
        rainEQ := None;
      }
    }

    /** `applyThunderEQFromSliders`: the percents it reads (their dB values are not modelled). */
    method ApplyThunderEQ(low: Option<Slider>, high: Option<Slider>)
      modifies this`lowPct, this`highPct
      ensures ctxReady ==> lowPct == SliderPercent(low) && highPct == SliderPercent(high)
      ensures !ctxReady ==> lowPct == old(lowPct) && highPct == old(highPct)
    {
      if !ctxReady {
        return;
      }
      lowPct := SliderPercent(low);
      highPct := SliderPercent(high);
    }

    /** `startRain(level)`: cancels the pending rotation, stops the old loop, starts the
        pick (or the first alternate that loads) and, if one started, arms the next rotation. */
    method StartRain(level: int, rPick: real, rDelay: real, playable: set<string>)
      requires Valid() && ctxReady
      requires 0.0 <= rPick < 1.0 && 0.0 <= rDelay < 1.0
      modifies this`rainSwapTimer, this`rainSrc, this`timeouts, this`live, this`nextId
      ensures Valid()
      ensures rainSrc == RainAfter(manifest, level, rPick, playable, old(nextId))
      ensures rainSrc.None? ==>
        rainSwapTimer == None && nextId == old(nextId) &&
        timeouts == old(timeouts) - TimerSet(old(rainSwapTimer))
      ensures rainSrc.Some? ==>
        rainSwapTimer == Some(old(nextId) + 1) && nextId == old(nextId) + 2 &&
        timeouts == (old(timeouts) - TimerSet(old(rainSwapTimer)))[old(nextId) + 1 := RainSwap(level, RotationDelayMs(rDelay))]
      ensures live == old(live) - old(RainIds()) + RainIds()
      ensures bgTimer.Some? && bgTimer.value in old(timeouts) ==>
        bgTimer.value in timeouts && timeouts[bgTimer.value] == old(timeouts)[bgTimer.value]
    {
      ClearRain();
      var name := ChooseRain(RainTier(manifest, level), rPick, playable);
      if name.Some? {
        BeginRain(name.value, level, rDelay);
      }
    }

    /** The first two steps of `startRain`: clear the pending rotation timer, then stop
        and drop the rain loop. */
    method ClearRain()
      requires Valid()
      modifies this`rainSwapTimer, this`timeouts, this`rainSrc, this`live
      ensures Valid()
      ensures rainSwapTimer == None && timeouts == old(timeouts) - TimerSet(old(rainSwapTimer))
      ensures forall t :: t in timeouts ==> !timeouts[t].RainSwap?
      ensures rainSrc == None && live == old(live) - old(RainIds())
      ensures bgTimer.Some? && bgTimer.value in old(timeouts) ==>
        bgTimer.value in timeouts && timeouts[bgTimer.value] == old(timeouts)[bgTimer.value]
    {
      CancelRainSwap();
      StopRainLoop();
    }

    /** The first two steps of `startRain` and of `hardStopAllAudio`: clear the
        pending rotation timer. */
    method CancelRainSwap()
      requires Valid()
      modifies this`rainSwapTimer, this`timeouts
      ensures Valid()
      ensures rainSwapTimer == None && timeouts == old(timeouts) - TimerSet(old(rainSwapTimer))
      ensures forall t :: t in timeouts ==> !timeouts[t].RainSwap?
      ensures bgTimer.Some? && bgTimer.value in old(timeouts) ==>
        bgTimer.value in timeouts && timeouts[bgTimer.value] == old(timeouts)[bgTimer.value]
    {
      if rainSwapTimer.Some? {
        timeouts := timeouts - {rainSwapTimer.value};
        rainSwapTimer := None;
      }
    }

    /** `rainSrc.stop(); rainSrc = null`. */
    method StopRainLoop()
      requires Valid()
      modifies this`rainSrc, this`live
      ensures Valid()
      ensures rainSrc == None && live == old(live) - old(RainIds())
    {
      live := live - RainIds();
      rainSrc := None;
    }

    /** The end of `startRain`: the new loop starts and the next rotation is armed. */
    method BeginRain(name: string, level: int, rDelay: real)
      requires Valid()
      requires rainSrc == None && rainSwapTimer == None
      requires forall t :: t in timeouts ==> !timeouts[t].RainSwap?
      requires 0.0 <= rDelay < 1.0
      modifies this`rainSwapTimer, this`rainSrc, this`timeouts, this`live, this`nextId
      ensures Valid()
      ensures rainSrc == Some(RainLoop(old(nextId), name))
      ensures rainSwapTimer == Some(old(nextId) + 1) && nextId == old(nextId) + 2
      ensures timeouts == old(timeouts)[old(nextId) + 1 := RainSwap(level, RotationDelayMs(rDelay))]
      ensures live == old(live) + {old(nextId)}
      ensures bgTimer.Some? && bgTimer.value in old(timeouts) ==>
        bgTimer.value in timeouts && timeouts[bgTimer.value] == old(timeouts)[bgTimer.value]
    {
      StartRainLoop(name);
      ArmRainSwap(level, rDelay);
    }

    /** `rainSrc = makeLoop(...)`: the new loop gets the next id and plays. */
    method StartRainLoop(name: string)
      requires Valid()
      requires rainSrc == None
      modifies this`rainSrc, this`live, this`nextId
      ensures Valid()
      ensures rainSrc == Some(RainLoop(old(nextId), name)) && nextId == old(nextId) + 1
      ensures live == old(live) + {old(nextId)}
    {
      rainSrc := Some(RainLoop(nextId, name));
      live := live + {nextId};
      nextId := nextId + 1;
    }

    /** `rainSwapTimer = setTimeout(...)`: arms the next rotation at the same level. */
    method ArmRainSwap(level: int, rDelay: real)
      requires Valid()
      requires rainSwapTimer == None
      requires forall t :: t in timeouts ==> !timeouts[t].RainSwap?
      requires 0.0 <= rDelay < 1.0
      modifies this`rainSwapTimer, this`timeouts, this`nextId
      ensures Valid()
      ensures rainSwapTimer == Some(old(nextId)) && nextId == old(nextId) + 1
      ensures timeouts == old(timeouts)[old(nextId) := RainSwap(level, RotationDelayMs(rDelay))]
    {
      timeouts := timeouts[nextId := RainSwap(level, RotationDelayMs(rDelay))];
      rainSwapTimer := Some(nextId);
      nextId := nextId + 1;
    }

    /** The rotation timer `t` fires: it restarts the rain at its level only while the
        session runs unpaused; otherwise the current loop keeps playing. */
    method FireRainSwap(t: Id, rPick: real, rDelay: real, playable: set<string>)
      requires Valid() && ctxReady
      requires t in timeouts && timeouts[t].RainSwap?
      requires 0.0 <= rPick < 1.0 && 0.0 <= rDelay < 1.0
      modifies this`rainSwapTimer, this`rainSrc, this`timeouts, this`live, this`nextId
      ensures Valid()
      ensures t !in timeouts
      ensures old(sessionRunning && !paused) ==>
        rainSrc == RainAfter(manifest, old(timeouts[t].level), rPick, playable, old(nextId)) &&
        (rainSrc.Some? <==> rainSwapTimer.Some?) &&
        (rainSrc.Some? ==>
          rainSwapTimer.value in timeouts &&
          timeouts[rainSwapTimer.value] == RainSwap(old(timeouts[t].level), RotationDelayMs(rDelay)))
      ensures !old(sessionRunning && !paused) ==>
        rainSrc == old(rainSrc) && rainSwapTimer == old(rainSwapTimer) &&
        live == old(live) && nextId == old(nextId) && timeouts == old(timeouts) - {t}
    {
      var level := timeouts[t].level;
      TimeoutFired(t);
      assert rainSwapTimer == Some(t);
      assert timeouts - TimerSet(rainSwapTimer) == timeouts;
      RainWhilePlaying(level, rPick, rDelay, playable);
    }

    /** The guarded `startRain(level)` of the rotation callback and of the intensity
        slider: it runs only while the session runs unpaused. */
    method RainWhilePlaying(level: int, rPick: real, rDelay: real, playable: set<string>)
      requires Valid() && ctxReady
      requires 0.0 <= rPick < 1.0 && 0.0 <= rDelay < 1.0
      modifies this`rainSwapTimer, this`rainSrc, this`timeouts, this`live, this`nextId
      ensures Valid()
      ensures old(sessionRunning && !paused) ==>
        rainSrc == RainAfter(manifest, level, rPick, playable, old(nextId)) &&
        (rainSrc.None? ==> rainSwapTimer == None && timeouts == old(timeouts) - TimerSet(old(rainSwapTimer))) &&
        (rainSrc.Some? ==>
          rainSwapTimer == Some(old(nextId) + 1) &&
          timeouts == (old(timeouts) - TimerSet(old(rainSwapTimer)))[old(nextId) + 1 := RainSwap(level, RotationDelayMs(rDelay))])
      ensures !old(sessionRunning && !paused) ==>
        rainSrc == old(rainSrc) && rainSwapTimer == old(rainSwapTimer) && timeouts == old(timeouts) &&
        live == old(live) && nextId == old(nextId)
      ensures bgTimer.Some? && bgTimer.value in old(timeouts) ==>
        bgTimer.value in timeouts && timeouts[bgTimer.value] == old(timeouts)[bgTimer.value]
    {
      if sessionRunning && !paused {
        StartRain(level, rPick, rDelay, playable);
      }
    }

    /** `playThunder(which)`: plays one clap of the group and counts it; an empty group
        or a clap that does not load changes nothing. */
    method PlayThunder(which: string, rPick: real, playable: set<string>, dur: real)
      requires Valid() && ctxReady
      requires 0.0 <= rPick < 1.0
      modifies this`activeManual, this`manualCount, this`live, this`nextId
      ensures Valid()
      ensures var group := ManualGroup(manifest, which);
        var ok := |group| > 0 && group[PickIndex(|group|, rPick)] in playable;
        (ok ==>
          manualCount == old(manualCount) + 1 && nextId == old(nextId) + 1 &&
          activeManual == old(activeManual) + [Voice(old(nextId), group[PickIndex(|group|, rPick)], ManualRamp(dur))] &&
          live == old(live) + {old(nextId)}) &&
        (!ok ==>
          manualCount == old(manualCount) && activeManual == old(activeManual) &&
          live == old(live) && nextId == old(nextId))
    {
      var group := ManualGroup(manifest, which);
      if |group| == 0 {
        return;
      }
      var name := group[PickIndex(|group|, rPick)];
      if name !in playable {
        return;
      }
      var rec := Voice(nextId, name, ManualRamp(dur));
      VoiceIdsPush(activeManual, rec);
      activeManual := activeManual + [rec];
      live := live + {rec.id};
      nextId := nextId + 1;
      manualCount := manualCount + 1;
    }

    /** The `onended` of the manual voice `id`: removes that record only. After a hard
        stop the record is already gone and nothing changes. */
    method ManualEnded(id: Id)
      requires Valid()
      requires id in VoiceIds(activeManual) || id !in live
      modifies this`activeManual, this`live
      ensures Valid()
      ensures activeManual == WithoutVoice(old(activeManual), id)
      ensures live == old(live) - {id}
    {
      activeManual := WithoutVoice(activeManual, id);
      live := live - {id};
    }

    /** The `schedule` closure of `startBgThunder`: arms the next roll. */
    method Schedule(initial: bool, r: real)
      requires Valid()
      requires 0.0 <= r < 1.0
      requires forall t :: t in timeouts ==> !timeouts[t].BgRoll?
      modifies this`bgTimer, this`timeouts, this`nextId
      ensures Valid()
      ensures bgTimer == Some(old(nextId)) && nextId == old(nextId) + 1
      ensures timeouts == old(timeouts)[old(nextId) := BgRoll(BgDelaySec(initial, r))]
    {
      var t := nextId;
      timeouts := timeouts[t := BgRoll(BgDelaySec(initial, r))];
      bgTimer := Some(t);
      nextId := nextId + 1;
    }

    /** `stopBgThunder`: cancels the pending roll and stops every background voice. */
    method StopBgThunder()
      requires Valid()
      modifies this`bgTimer, this`timeouts, this`activeBg, this`live
      ensures Valid()
      ensures bgTimer == None && activeBg == []
      ensures timeouts == old(timeouts) - TimerSet(old(bgTimer))
      ensures forall t :: t in timeouts ==> !timeouts[t].BgRoll?
      ensures live == old(live) - VoiceIds(old(activeBg))
    {
      if bgTimer.Some? {
        timeouts := timeouts - {bgTimer.value};
        bgTimer := None;
      }
      live := live - VoiceIds(activeBg);
      activeBg := [];
    }

    /** `startBgThunder`: stops the old schedule, then arms the first roll in [3, 8) s. */
    method StartBgThunder(r: real)
      requires Valid()
      requires 0.0 <= r < 1.0
      modifies this`bgTimer, this`timeouts, this`activeBg, this`live, this`nextId
      ensures Valid()
      ensures bgTimer == Some(old(nextId)) && nextId == old(nextId) + 1 && activeBg == []
      ensures timeouts == (old(timeouts) - TimerSet(old(bgTimer)))[old(nextId) := BgRoll(BgDelaySec(true, r))]
      ensures live == old(live) - VoiceIds(old(activeBg))
    {
      StopBgThunder();
      Schedule(true, r);
    }

    /** The background timer `t` fires: plays one roll from the pool if the pool is not
        empty and the pick loads, and in every case arms exactly one next roll in [20, 60) s. */
    method FireBgRoll(t: Id, rPick: real, rGain: real, rDelay: real, playable: set<string>, dur: real)
      requires Valid() && ctxReady
      requires t in timeouts && timeouts[t].BgRoll?
      requires 0.0 <= rPick < 1.0 && 0.0 <= rGain < 1.0 && 0.0 <= rDelay < 1.0
      modifies this`bgTimer, this`timeouts, this`activeBg, this`live, this`nextId
      ensures Valid()
      ensures var pool := BgPool(manifest);
        var ok := |pool| > 0 && pool[PickIndex(|pool|, rPick)] in playable;
        var n := old(nextId);
        (ok ==>
          activeBg == old(activeBg) + [Voice(n, pool[PickIndex(|pool|, rPick)], BgRamp(dur, BgTargetGain(rGain)))] &&
          live == old(live) + {n} && bgTimer == Some(n + 1) && nextId == n + 2 &&
          timeouts == (old(timeouts) - {t})[n + 1 := BgRoll(BgDelaySec(false, rDelay))]) &&
        (!ok ==>
          activeBg == old(activeBg) && live == old(live) && bgTimer == Some(n) && nextId == n + 1 &&
          timeouts == (old(timeouts) - {t})[n := BgRoll(BgDelaySec(false, rDelay))])
    {
      TimeoutFired(t);
      var pool := BgPool(manifest);
      if |pool| == 0 {
        Schedule(false, rDelay);
        return;
      }
      var name := pool[PickIndex(|pool|, rPick)];
      if name !in playable {
        Schedule(false, rDelay);
        return;
      }
      AddBgVoice(name, BgRamp(dur, BgTargetGain(rGain)));
      Schedule(false, rDelay);
    }

    /** The browser drops a `setTimeout` callback once it runs. */
    method TimeoutFired(t: Id)
      requires Valid()
      modifies this`timeouts
      ensures Valid() && timeouts == old(timeouts) - {t}
    {
      timeouts := timeouts - {t};
    }

    /** `activeBg.push(rec)` for a roll that has started. */
    method AddBgVoice(name: string, ramp: Ramp)
      requires Valid()
      modifies this`activeBg, this`live, this`nextId
      ensures Valid()
      ensures activeBg == old(activeBg) + [Voice(old(nextId), name, ramp)]
      ensures live == old(live) + {old(nextId)} && nextId == old(nextId) + 1
    {
      var rec := Voice(nextId, name, ramp);
      VoiceIdsPush(activeBg, rec);
      activeBg := activeBg + [rec];
      live := live + {rec.id};
      nextId := nextId + 1;
    }

    /** The `onended` of the background voice `id`: removes that record only. */
    method BgEnded(id: Id)
      requires Valid()
      requires id in VoiceIds(activeBg) || id !in live
      modifies this`activeBg, this`live
      ensures Valid()
      ensures activeBg == WithoutVoice(old(activeBg), id)
      ensures live == old(live) - {id}
    {
      activeBg := WithoutVoice(activeBg, id);
      live := live - {id};
    }

    /** `startTimer`: clears the tick, resets `elapsed` to 0 and starts a new tick. */
    method StartTimer()
      requires Valid()
      modifies this`intervals, this`elapsed, this`timerInterval, this`nextId
      ensures Valid()
      ensures elapsed == 0 && timerInterval == Some(old(nextId)) && nextId == old(nextId) + 1
      ensures intervals == {old(nextId)}
    {
      intervals := intervals - TimerSet(timerInterval);
      elapsed := 0;
      timerInterval := Some(nextId);
      intervals := intervals + {nextId};
      nextId := nextId + 1;
    }

    /** `hardStopAllAudio`: cancels every timer and stops every source. */
    method HardStopAllAudio()
      requires Valid()
      modifies this`timerInterval, this`intervals, this`rainSwapTimer, this`timeouts, this`bgTimer,
        this`activeBg, this`live, this`rainSrc, this`activeManual
      ensures Valid() && Silent()
    {
      ClearTick();
      ClearRain();
      StopVoices();
    }

    /** The rest of `hardStopAllAudio` once the rain is cleared: the background schedule
        and voices, then the manual voices. */
    method StopVoices()
      requires Valid() && rainSwapTimer == None && rainSrc == None
      modifies this`bgTimer, this`timeouts, this`activeBg, this`live, this`activeManual
      ensures Valid()
      ensures bgTimer == None && timeouts == map[] && live == {}
      ensures activeBg == [] && activeManual == []
    {
      StopBgThunder();
      StopManualVoices();
    }

    /** `clearInterval(timerInterval); timerInterval = null`. */
    method ClearTick()
      requires Valid()
      modifies this`intervals, this`timerInterval
      ensures Valid()
      ensures timerInterval == None && intervals == {}
    {
      intervals := intervals - TimerSet(timerInterval);
      timerInterval := None;
    }

    /** Stops every manual voice and empties `activeManual`. */
    method StopManualVoices()
      requires Valid()
      modifies this`activeManual, this`live
      ensures Valid()
      ensures activeManual == [] && live == old(live) - VoiceIds(old(activeManual))
    {
      live := live - VoiceIds(activeManual);
      activeManual := [];
    }

    /** `stopSession`: ends the session and converges to the stopped state; a second
        call changes nothing. */
    method StopSession()
      requires Valid()
      modifies this`sessionRunning, this`paused, this`timerInterval, this`intervals, this`rainSwapTimer,
        this`timeouts, this`bgTimer, this`activeBg, this`live, this`rainSrc, this`activeManual
      ensures Valid() && Stopped()
      ensures old(Stopped()) ==> unchanged(this)
    {
      sessionRunning, paused := false, false;
      HardStopAllAudio();
    }

    /** One tick of the `startTimer` interval: counts a second, returns the timer text,
        and stops the session once `elapsed` reaches the session length. */
    method Tick() returns (text: string)
      requires Valid()
      requires timerInterval.Some? && timerInterval.value in intervals
      modifies this`elapsed, this`sessionRunning, this`paused, this`timerInterval, this`intervals,
        this`rainSwapTimer, this`timeouts, this`bgTimer, this`activeBg, this`live, this`rainSrc, this`activeManual
      ensures Valid()
      ensures elapsed == old(elapsed) + 1
      ensures text == TimerText(elapsed, sessionLength)
      ensures elapsed >= sessionLength ==> Stopped()
      ensures elapsed < sessionLength ==> Activity() == old(Activity())
    {
      CountSecond();
      text := TimerText(elapsed, sessionLength);
      StopIfDone();
    }

    /** `elapsed++`: the first step of a tick. */
    method CountSecond()
      requires Valid()
      modifies this`elapsed
      ensures Valid() && elapsed == old(elapsed) + 1
    {
      elapsed := elapsed + 1;
    }

    /** The end of a tick: `if (elapsed >= sessionLength) stopSession()`. */
    method StopIfDone()
      requires Valid()
      modifies this`sessionRunning, this`paused, this`timerInterval, this`intervals, this`rainSwapTimer,
        this`timeouts, this`bgTimer, this`activeBg, this`live, this`rainSrc, this`activeManual
      ensures Valid()
      ensures elapsed >= sessionLength ==> Stopped()
      ensures elapsed < sessionLength ==> unchanged(this)
    {
      if elapsed >= sessionLength {
        StopSession();
      }
    }

    /** The Start button: resumes output, sets the length, starts the rain, starts or
        stops the background thunder by mode, resets the counter and the tick, and marks
        the session running. */
    method OnStart(mins: int, level: int, random: bool, rPick: real, rDelay: real, rBg: real,
                   playable: set<string>)
      requires Valid() && ctxReady
      requires 0.0 <= rPick < 1.0 && 0.0 <= rDelay < 1.0 && 0.0 <= rBg < 1.0
      modifies this`suspended, this`sessionLength, this`rainSwapTimer, this`rainSrc, this`timeouts,
        this`live, this`nextId, this`bgTimer, this`activeBg, this`manualCount, this`intervals,
        this`elapsed, this`timerInterval, this`sessionRunning, this`paused
      ensures Valid()
      ensures sessionRunning && !paused && !suspended
      ensures sessionLength == mins * 60 && manualCount == 0 && elapsed == 0
      ensures timerInterval.Some? && intervals == {timerInterval.value}
      ensures rainSrc == RainAfter(manifest, level, rPick, playable, old(nextId))
      ensures rainSrc.Some? <==> rainSwapTimer.Some?
      ensures rainSrc.Some? ==>
        rainSwapTimer.value in timeouts && timeouts[rainSwapTimer.value] == RainSwap(level, RotationDelayMs(rDelay))
      ensures random ==>
        bgTimer.Some? && bgTimer.value in timeouts &&
        timeouts[bgTimer.value] == BgRoll(BgDelaySec(true, rBg)) && activeBg == []
      ensures !random ==> bgTimer == None && activeBg == []
      ensures activeManual == old(activeManual)
    {
      ResumeWithLength(mins);
      StartSoundAndClock(level, random, rPick, rDelay, rBg, playable);
    }

    /** The Start button after the resume: the rain, the mode step, the counter and the tick. */
    method StartSoundAndClock(level: int, random: bool, rPick: real, rDelay: real, rBg: real, playable: set<string>)
      requires Valid() && ctxReady
      requires 0.0 <= rPick < 1.0 && 0.0 <= rDelay < 1.0 && 0.0 <= rBg < 1.0
      modifies this`rainSwapTimer, this`rainSrc, this`timeouts, this`live, this`nextId, this`bgTimer,
        this`activeBg, this`manualCount, this`intervals, this`elapsed, this`timerInterval,
        this`sessionRunning, this`paused
      ensures Valid()
      ensures sessionRunning && !paused && manualCount == 0 && elapsed == 0
      ensures timerInterval.Some? && intervals == {timerInterval.value}
      ensures rainSrc == RainAfter(manifest, level, rPick, playable, old(nextId))
      ensures rainSrc.Some? <==> rainSwapTimer.Some?
      ensures rainSrc.Some? ==>
        rainSwapTimer.value in timeouts && timeouts[rainSwapTimer.value] == RainSwap(level, RotationDelayMs(rDelay))
      ensures random ==>
        bgTimer.Some? && bgTimer.value in timeouts &&
        timeouts[bgTimer.value] == BgRoll(BgDelaySec(true, rBg)) && activeBg == []
      ensures !random ==> bgTimer == None && activeBg == []
      ensures activeManual == old(activeManual)
    {
      StartSound(level, random, rPick, rDelay, rBg, playable);
      RestartClock();
    }

    /** The first steps of the Start button: `ctx.resume()` and the new session length. */
    method ResumeWithLength(mins: int)
      requires Valid()
      modifies this`suspended, this`sessionLength
      ensures Valid() && !suspended && sessionLength == mins * 60
    {
      suspended := false;
      sessionLength := mins * 60;
    }

    /** The last steps of the Start button: `manualCount = 0`, `startTimer()`, and the
        session marked running and unpaused. */
    method RestartClock()
      requires Valid()
      modifies this`manualCount, this`intervals, this`elapsed, this`timerInterval, this`nextId,
        this`sessionRunning, this`paused
      ensures Valid()
      ensures manualCount == 0 && elapsed == 0 && timerInterval == Some(old(nextId)) && intervals == {old(nextId)}
      ensures sessionRunning && !paused
    {
      manualCount := 0;
      sessionRunning, paused := true, false;
      StartTimer();
    }

    /** The audio steps of the Start button: `startRain(level)`, then the mode step. */
    method StartSound(level: int, random: bool, rPick: real, rDelay: real, rBg: real, playable: set<string>)
      requires Valid() && ctxReady
      requires 0.0 <= rPick < 1.0 && 0.0 <= rDelay < 1.0 && 0.0 <= rBg < 1.0
      modifies this`rainSwapTimer, this`rainSrc, this`timeouts, this`live, this`nextId, this`bgTimer,
        this`activeBg
      ensures Valid()
      ensures rainSrc == RainAfter(manifest, level, rPick, playable, old(nextId))
      ensures rainSrc.Some? <==> rainSwapTimer.Some?
      ensures rainSrc.Some? ==>
        rainSwapTimer.value in timeouts && timeouts[rainSwapTimer.value] == RainSwap(level, RotationDelayMs(rDelay))
      ensures random ==>
        bgTimer.Some? && bgTimer.value in timeouts &&
        timeouts[bgTimer.value] == BgRoll(BgDelaySec(true, rBg))
      ensures !random ==> bgTimer == None
      ensures activeBg == []
    {
      StartRain(level, rPick, rDelay, playable);
      ApplyMode(random, rBg);
    }

    /** The mode step of the Start button: `startBgThunder()` in random mode, else
        `stopBgThunder()`. */
    method ApplyMode(random: bool, r: real)
      requires Valid()
      requires 0.0 <= r < 1.0
      modifies this`bgTimer, this`timeouts, this`activeBg, this`live, this`nextId
      ensures Valid()
      ensures activeBg == [] && live == old(live) - VoiceIds(old(activeBg))
      ensures random ==>
        bgTimer == Some(old(nextId)) && nextId == old(nextId) + 1 &&
        timeouts == (old(timeouts) - TimerSet(old(bgTimer)))[old(nextId) := BgRoll(BgDelaySec(true, r))]
      ensures !random ==>
        bgTimer == None && nextId == old(nextId) && timeouts == old(timeouts) - TimerSet(old(bgTimer))
      ensures rainSwapTimer.Some? && rainSwapTimer.value in old(timeouts) ==>
        rainSwapTimer.value in timeouts && timeouts[rainSwapTimer.value] == old(timeouts)[rainSwapTimer.value]
    {
      if random {
        StartBgThunder(r);
      } else {
        StopBgThunder();
      }
    }

    /** The Pause/Resume button: nothing when no session runs; pausing suspends output
        and halts the tick; resuming restarts the tick, which resets `elapsed` to 0. */
    method OnPauseClick()
      requires Valid() && ctxReady
      modifies this`suspended, this`intervals, this`paused, this`elapsed, this`timerInterval, this`nextId
      ensures Valid()
      ensures !old(sessionRunning) ==>
        suspended == old(suspended) && intervals == old(intervals) && paused == old(paused) &&
        elapsed == old(elapsed) && timerInterval == old(timerInterval) && nextId == old(nextId)
      ensures old(sessionRunning) && !old(paused) ==>
        paused && suspended && intervals == {} && elapsed == old(elapsed) &&
        timerInterval == old(timerInterval) && nextId == old(nextId)
      ensures old(sessionRunning) && old(paused) ==>
        !paused && !suspended && elapsed == 0 &&
        timerInterval == Some(old(nextId)) && intervals == {old(nextId)}
    {
      if !sessionRunning {
        return;
      }
      if !paused {
        Pause();
      } else {
        Resume();
      }
    }

    /** Pausing: `ctx.suspend()`, the tick cleared (its slot keeps the stale id), and
        the session marked paused. */
    method Pause()
      requires Valid()
      modifies this`suspended, this`intervals, this`paused
      ensures Valid()
      ensures paused && suspended && intervals == {}
    {
      suspended := true;
      intervals := intervals - TimerSet(timerInterval);
      paused := true;
    }

    /** Resuming: `ctx.resume()`, the session marked unpaused, and `startTimer()`. */
    method Resume()
      requires Valid()
      modifies this`suspended, this`intervals, this`paused, this`elapsed, this`timerInterval, this`nextId
      ensures Valid()
      ensures !paused && !suspended && elapsed == 0 && nextId == old(nextId) + 1
      ensures timerInterval == Some(old(nextId)) && intervals == {old(nextId)}
    {
      suspended := false;
      paused := false;
      StartTimer();
    }

    /** Switching to random mode restarts the background thunder only while the
        session runs unpaused. */
    method OnModeRandom(r: real)
      requires Valid() && ctxReady
      requires 0.0 <= r < 1.0
      modifies this`bgTimer, this`timeouts, this`activeBg, this`live, this`nextId
      ensures Valid()
      ensures old(sessionRunning && !paused) ==>
        bgTimer == Some(old(nextId)) && activeBg == [] &&
        timeouts == (old(timeouts) - TimerSet(old(bgTimer)))[old(nextId) := BgRoll(BgDelaySec(true, r))]
      ensures !old(sessionRunning && !paused) ==>
        bgTimer == old(bgTimer) && timeouts == old(timeouts) && activeBg == old(activeBg) &&
        live == old(live) && nextId == old(nextId)
      ensures rainSwapTimer.Some? && rainSwapTimer.value in old(timeouts) ==>
        rainSwapTimer.value in timeouts && timeouts[rainSwapTimer.value] == old(timeouts)[rainSwapTimer.value]
    {
      if sessionRunning && !paused {
        StartBgThunder(r);
      }
    }

    /** Switching to manual mode stops the background thunder while a session runs
        (paused or not); the rain loop is untouched. */
    method OnModeManual()
      requires Valid() && ctxReady
      modifies this`bgTimer, this`timeouts, this`activeBg, this`live
      ensures Valid()
      ensures old(sessionRunning) ==>
        bgTimer == None && activeBg == [] && (forall t :: t in timeouts ==> !timeouts[t].BgRoll?) &&
        timeouts == old(timeouts) - TimerSet(old(bgTimer)) &&
        live == old(live) - VoiceIds(old(activeBg))
      ensures rainSwapTimer.Some? && rainSwapTimer.value in old(timeouts) ==>
        rainSwapTimer.value in timeouts && timeouts[rainSwapTimer.value] == old(timeouts)[rainSwapTimer.value]
      ensures !old(sessionRunning) ==>
        bgTimer == old(bgTimer) && timeouts == old(timeouts) && activeBg == old(activeBg) && live == old(live)
    {
      if sessionRunning {
        StopBgThunder();
      }
    }

    /** Moving the intensity slider swaps the rain to the new level only while the
        session runs unpaused. */
    method OnIntensity(level: int, rPick: real, rDelay: real, playable: set<string>)
      requires Valid() && ctxReady
      requires 0.0 <= rPick < 1.0 && 0.0 <= rDelay < 1.0
      modifies this`rainSwapTimer, this`rainSrc, this`timeouts, this`live, this`nextId
      ensures Valid()
      ensures old(sessionRunning && !paused) ==>
        rainSrc == RainAfter(manifest, level, rPick, playable, old(nextId)) &&
        (rainSrc.Some? <==> rainSwapTimer.Some?) &&
        (rainSrc.Some? ==>
          rainSwapTimer.value in timeouts && timeouts[rainSwapTimer.value] == RainSwap(level, RotationDelayMs(rDelay)))
      ensures !old(sessionRunning && !paused) ==>
        rainSrc == old(rainSrc) && rainSwapTimer == old(rainSwapTimer) && timeouts == old(timeouts) &&
        live == old(live) && nextId == old(nextId)
      ensures bgTimer.Some? && bgTimer.value in old(timeouts) ==>
        bgTimer.value in timeouts && timeouts[bgTimer.value] == old(timeouts)[bgTimer.value]
    {
      RainWhilePlaying(level, rPick, rDelay, playable);
    }
  }

  /** The rotation timers, background timers and ticks pending at once. */
  function PendingRainSwaps(c: Controller): set<Id>
    reads c
  {
    set t | t in c.timeouts && c.timeouts[t].RainSwap?
  }

  function PendingBgRolls(c: Controller): set<Id>
    reads c
  {
    set t | t in c.timeouts && c.timeouts[t].BgRoll?
  }

  /** At most one rotation timer, one background timer and one tick are ever pending,
      and each is the one its slot holds. */
  lemma AtMostOneTimerOfEachKind(c: Controller)
    requires c.Valid()
    ensures |PendingRainSwaps(c)| <= 1 && PendingRainSwaps(c) <= TimerSet(c.rainSwapTimer)
    ensures |PendingBgRolls(c)| <= 1 && PendingBgRolls(c) <= TimerSet(c.bgTimer)
    ensures |c.intervals| <= 1 && c.intervals <= TimerSet(c.timerInterval)
  {
    SubsetOfSingleton(PendingRainSwaps(c), c.rainSwapTimer);
    SubsetOfSingleton(PendingBgRolls(c), c.bgTimer);
    SubsetOfSingleton(c.intervals, c.timerInterval);
  }

  lemma SubsetOfSingleton(s: set<Id>, t: Option<Id>)
    requires forall x :: x in s ==> t == Some(x)
    ensures s <= TimerSet(t) && |s| <= 1
  {
    if t.Some? {
      assert s <= {t.value};
      if s != {} {
        assert s == {t.value};
      }
    } else {
      assert s == {};
    }
  }
}
