# Dog sound desensitisation player — a Dafny model

The repository is a small web player for desensitising dogs to noises. This project models its core in Dafny and proves properties of the model. The core has three parts:

- **app.js**: the thunderstorm page's session controller. It covers the rain loop with its tier fallback, the thunder-name filter, retries over alternates and the 4–7 minute rotation. It also covers the manual and background thunder, the session tick and its `MM:SS / T:00` text, the stop that silences everything, the start, pause, mode and intensity handlers, the rain rumble softener and the thunder-EQ slider step map.
- **src/App.tsx**: the React player. It covers the `PRESETS` and `SOUNDS` tables, the preset lookup, `toggleSelected`, `activeSounds`, the sound `testPlay` picks, `randFloat`, the `SoundEngine` class (master volume, mute, a context made once) and the gain envelope of `playOnce`. It also covers the random-play loop of `useScheduler` and its cancellation flag.
- **script.js**: the two-band thunder filter page's `reductionToGain` table.

Modules:

| file | module | models |
|---|---|---|
| wrappers.dfy | `Wrappers` | `Option`, JavaScript's `undefined`/`null`, and `??` |
| numbers.dfy | `Numbers` | `Math.min` and `Math.max` |
| lists.dfy | `Lists` | `filter(y => y !== x)` and order-keeping sublists |
| strings.dfy | `Strings` | `String(n)`, `padStart(2, '0')` and the case-insensitive infix test of a `/…/i` pattern |
| helpers.dfy | `Helpers` | the pure helpers of app.js |
| player.dfy | `Player` | the app.js controller as the class `Controller` |
| catalog.dfy | `Catalog` | presets, sounds, selection and base gain of src/App.tsx |
| engine.dfy | `Engine` | `randFloat`, the `playOnce` envelope and the class `SoundEngine` |
| scheduler.dfy | `Scheduler` | the `useScheduler` loop as the class `Run` |
| thunder_eq.dfy | `ThunderEq` | `reductionToGain` of script.js |

How the browser is represented:

- The module-level `let`s of app.js become the fields of `Player.Controller`.
- The browser's own state becomes more fields of the controller:
  - `timeouts`: the pending `setTimeout` callbacks, by id, each tagged as a rain rotation or a background roll.
  - `intervals`: the pending ticks.
  - `live`: the buffer sources started and not yet stopped or ended.
  - `nextId`: the source of fresh ids.
- The controller's invariant `Valid` states four things:
  - Every pending timer is the one its slot (`rainSwapTimer`, `bgTimer`, `timerInterval`) holds.
  - A slot's id was issued before, and while it is pending it is a timer of that slot's kind. Timer ids are never reused, so a stale slot never names another kind's pending timer.
  - The sources that are live are exactly the rain loop plus the tracked manual and background voices.
  - The three tracking sets are disjoint.
- Each `Math.random()` is a parameter `r` in [0, 1).
- Whether a fetch and decode succeeds is an oracle: `playable`, the set of asset names that load, plus the buffer's duration where it matters.
- Each awaited step is one atomic method. A timer firing is a method called with the timer's id.

Behaviour the model follows as written, where a reader might expect otherwise:

- In app.js the total in the timer text is the unpadded `sessionLength/60` (`1:00`, not `01:00`).
- In app.js resuming after a pause calls `startTimer`, which resets `elapsed` to 0.
- In app.js manual thunder plays whether or not a session runs.
- In app.js `startRain`'s alternates come from the whole tier, thunder-like names included.
- In app.js an empty rain tier is a truthy array, so it does not fall back to tier 2.
- In app.js a rotation timer that fires while paused only expires: it is not re-armed.
- In app.js a background roll re-arms whatever the pause state.

## Model

| member | source | states |
|---|---|---|
| Helpers.Clamp | app.js:9 | the result is `n` inside `[lo, hi]`, `lo` below it and `hi` above it; with `hi < lo` it is `lo` |
| Helpers.PickIndex | app.js:8 | `pick` reads an index below the length, namely the floor of `r * n` |
| Helpers.PickIndexReaches | app.js:8 | every index of a non-empty array is picked by some `r` in [0, 1) |
| Helpers.SliderPercent | app.js:80-84 | a missing slider gives 0; a 0..3 slider gives `75 - 25 * clamp(v, 0, 3)`, or `undefined` when its value does not parse; any other slider gives its value when in [0, 100], 0 below, 100 above and 0 for an unparsable value |
| Helpers.StepMapDecreasing | app.js:80 | a higher slider position gives a strictly smaller reduction |
| Helpers.RainTier | app.js:98 | the list is `rain[level]`, else `rain['2']`, else empty; an empty tier is kept as it is |
| Helpers.ManualGroup | app.js:122 | the manual group is `manualThunder[which]`, else empty |
| Helpers.BgPool | app.js:141 | the background pool holds exactly the names of `bgThunder` and `soundIdeasThunder` |
| Helpers.IsThunderName | app.js:99 | definition of `disallow.test(n)`: some word of the pattern occurs in the name, ignoring case; its meaning is stated by `Strings.ContainsIgnoringCaseSpec` |
| Helpers.CleanNames | app.js:99-100 | keeps exactly the names the disallow pattern does not match, in order |
| Helpers.CleanNamesCounts | app.js:99-100 | every clean name is kept as many times as it occurs in the tier, and no thunder-like name is kept |
| Helpers.Candidates | app.js:99-101 | candidates are non-empty iff the list is; they are the clean names when one exists, else the whole list |
| Helpers.RainPick | app.js:103 | the first name tried is a candidate of the tier; on an empty tier it is the text `undefined` |
| Helpers.FirstIn | app.js:107-108 | the alternate chosen is the first name in list order that loads; none iff no name loads |
| Helpers.FirstPlayable | app.js:107-109 | the alternates loop returns the first name that loads, or none |
| Helpers.RainOutcome | app.js:103-109 | definition of what `startRain` ends up playing: the pick if it loads, else the first loading alternate; its meaning is stated by `Helpers.RainOutcomeSpec`, and `Helpers.ChooseRain` is proved equal to it |
| Helpers.ChooseRain | app.js:103-109 | the name `startRain` plays is the pick if it loads, else the first loading alternate from the whole tier without the pick |
| Helpers.RainOutcomeSpec | app.js:98-109 | the rain played always loads and comes from the tier; nothing plays iff no name of the tier loads; a pick that loads is kept, and it is clean when the tier has a clean name |
| Helpers.RotationDelayMs | app.js:116 | the rotation delay is in [240000, 420000) ms |
| Helpers.RotationDelayCoversWindow | app.js:116 | every delay of that window occurs for some `r` |
| Helpers.BgDelaySec | app.js:138 | the first background delay is in [3, 8) s and every later one in [20, 60) s |
| Helpers.BgDelayCoversWindow | app.js:138 | every delay of either window occurs for some `r` |
| Helpers.BgTargetGain | app.js:145 | a roll's peak gain is in [0.6, 0.8) |
| Helpers.ManualRamp | app.js:127-130 | a clap peaks at 1.0 after 0.02 s; its hold and release lie inside the buffer, and on a buffer of at least 0.08 s the release takes 0.06 s and ends 0.02 s before the end |
| Helpers.BgRamp | app.js:148-151 | a roll peaks at its target after 0.25 s; its hold and release lie inside the buffer, and on a buffer of at least 0.4 s the release takes 0.35 s and ends 0.05 s before the end |
| Helpers.TimerText | app.js:169-171 | definition of the tick's `MM:SS / T:00` text; its meaning is stated by `Helpers.TimerTextReadsBack` and `Helpers.ClockSplit` |
| Helpers.ClockSplit | app.js:171 | the `MM:SS / T:00` text splits back into its minute, second and total fields at fixed offsets |
| Helpers.PaddedDecimal | app.js:169-170 | a zero-padded field is all digits, at least two long (exactly two below 100) and reads back as its number |
| Helpers.TimerTextReadsBack | app.js:169-171 | the tick text is `MM:SS / T:00` where MM reads back as `elapsed / 60` and has at least two digits (exactly two below 100 minutes), SS is two digits reading back as `elapsed % 60`, MM*60 + SS is `elapsed`, and T is the session minutes unpadded |
| Strings.Decimal | app.js:169-171 | `String(n)` is a non-empty digit string with no leading zero |
| Strings.IntDecimal | app.js:171 | `String(i)`: the decimal text of a non-negative `i`, and `-` before the decimal text of `-i` for a negative one |
| Strings.DecimalValue | app.js:169-171 | `String(n)` reads back as `n` |
| Strings.DecimalLength | app.js:169-170 | numbers below 10 take one digit, below 100 at most two |
| Strings.PadStart2 | app.js:169-170 | `padStart(2, '0')` keeps the text as its suffix and prefixes zeros up to length 2 |
| Strings.PaddedValue | app.js:169-170 | padding a digit string keeps its value |
| Strings.ContainsIgnoringCaseSpec | app.js:99 | the case-insensitive search succeeds iff the word occurs at some position |
| Lists.Without | app.js:107 | `filter(b => b !== base)` keeps exactly the other elements, in order, each as many times as it occurs, and is the identity when the element is absent |
| Player.WithoutVoice | app.js:132 | the `onended` filter removes exactly the ended record and keeps the rest in order |
| Player.WithoutVoiceCounts | app.js:132 | the `onended` filter keeps every other record as many times as it occurs |
| Player.VoiceIdsPush | app.js:131 | pushing a record adds exactly its id to the tracked ids |
| Player.Controller.constructor | app.js:12-23 | the page starts stopped and silent, with a 600 s session, no rain filter and no context |
| Player.Controller.InitAudio | app.js:37-54 | the context exists afterwards and the thunder-EQ percents are read from the sliders |
| Player.Controller.ApplyLowFreqSoft | app.js:57-67 | before the context nothing changes; after it the rain bus has the 80 Hz, -8 dB shelf iff enabled |
| Player.Controller.ApplyThunderEQ | app.js:76-91 | before the graph exists nothing changes; after it the low and high percents are those of the two sliders |
| Player.Controller.StartRain | app.js:94-118 | the old rotation is cancelled and the old loop stopped; the new loop is the chosen name or none; a rotation for the same level is armed iff a loop started; the live sources change by exactly the swap; a pending background roll is kept |
| Player.Controller.ClearRain | app.js:95-96 | no rotation timer is pending and no rain loop plays afterwards; only that timer and that source go, and a pending background roll stays |
| Player.Controller.CancelRainSwap | app.js:95 | the pending rotation, and only it, is cleared; a pending background roll stays |
| Player.Controller.StopRainLoop | app.js:96 | the rain loop stops and only its source leaves the live set |
| Player.Controller.BeginRain | app.js:112-117 | a fresh looping source plays the name and one rotation for the level is armed with a delay of 4 to 7 minutes; a pending background roll stays |
| Player.Controller.StartRainLoop | app.js:112-113 | the new loop gets a fresh id, plays the name and becomes live |
| Player.Controller.ArmRainSwap | app.js:116-117 | exactly one rotation for the level is armed under a fresh id, with the delay of its window |
| Player.Controller.FireRainSwap | app.js:117 | the fired timer is gone; while the session runs unpaused the rain restarts at the timer's level and re-arms iff a loop started; otherwise the loop keeps playing and nothing else changes |
| Player.Controller.RainWhilePlaying | app.js:117 | the guarded `startRain`: its full effect while the session runs unpaused, no change otherwise; a pending background roll stays either way |
| Player.Controller.PlayThunder | app.js:121-134 | on success the counter rises by exactly 1 and exactly one record with the clap's ramp is appended; an empty group or a clap that fails to load changes nothing |
| Player.Controller.ManualEnded | app.js:132 | `onended` removes only that record and its source |
| Player.Controller.Schedule | app.js:137-139 | arms exactly one background roll with the delay of its window |
| Player.Controller.StopBgThunder | app.js:159-162 | no roll is pending, the background list is empty, and exactly its sources stop |
| Player.Controller.StartBgThunder | app.js:135-158 | the old schedule is stopped first, then exactly one first roll in [3, 8) s is armed |
| Player.Controller.FireBgRoll | app.js:139-155 | the fired roll plays one sound when the pool is non-empty and the pick loads; on an empty pool, a failed load or after playing, exactly one next roll in [20, 60) s is armed |
| Player.Controller.TimeoutFired | app.js:117 | a callback that runs leaves the pending timers |
| Player.Controller.AddBgVoice | app.js:152 | the roll's record is appended and its source is live |
| Player.Controller.BgEnded | app.js:152 | `onended` removes only that record and its source |
| Player.Controller.StartTimer | app.js:165-167 | the old tick is cleared, `elapsed` is 0 and exactly one new tick is pending |
| Player.Controller.HardStopAllAudio | app.js:176-181 | afterwards no timer is pending and no source plays |
| Player.Controller.StopVoices | app.js:179-180 | the background schedule and both voice lists are cleared, leaving nothing live |
| Player.Controller.ClearTick | app.js:177 | no tick is pending |
| Player.Controller.StopManualVoices | app.js:180 | the manual list is empty and exactly its sources stop |
| Player.Controller.StopSession | app.js:182-187 | the session is stopped, unpaused and silent; calling it again changes nothing |
| Player.Controller.Tick | app.js:167-174 | `elapsed` rises by exactly 1, the text is the timer text of the new `elapsed`, and the session stops once `elapsed` reaches its length; otherwise nothing else changes |
| Player.Controller.CountSecond | app.js:168 | a tick adds exactly one second to `elapsed` |
| Player.Controller.StopIfDone | app.js:173 | the session is stopped once `elapsed` reaches its length; otherwise nothing changes |
| Player.Controller.OnStart | app.js:248-260 | the session length is `mins * 60`; the counter and `elapsed` are 0; the session runs unpaused with one tick; the rain is the chosen loop with a rotation iff it started; the pending rotation is for the chosen level with its 4 to 7 minute delay; random mode arms one first roll, manual mode none |
| Player.Controller.StartSoundAndClock | app.js:253-257 | the rain with a rotation for its level iff a loop started, the mode step, the counter reset and the new tick of the Start button |
| Player.Controller.ResumeWithLength | app.js:249-251 | output resumes and the session length is `mins * 60` |
| Player.Controller.RestartClock | app.js:255-257 | the counter and `elapsed` are 0, one tick is pending, and the session runs unpaused |
| Player.Controller.StartSound | app.js:253-254 | the rain is (re)started with a rotation for its level iff a loop started, and that rotation survives the mode step; background thunder is armed in random mode, stopped otherwise |
| Player.Controller.ApplyMode | app.js:254 | random mode arms exactly one first roll; manual mode cancels any; a pending rotation stays |
| Player.Controller.OnPauseClick | app.js:262-266 | no change when no session runs; pausing suspends and halts the tick; resuming restarts the tick and resets `elapsed` to 0 |
| Player.Controller.Pause | app.js:265 | output is suspended, no tick is pending and the session is paused |
| Player.Controller.Resume | app.js:266 | output resumes, the session is unpaused and exactly one new tick is pending with `elapsed` 0 |
| Player.Controller.OnModeRandom | app.js:209-213 | the background thunder restarts only while the session runs unpaused; a pending rotation stays |
| Player.Controller.OnModeManual | app.js:214-218 | the background thunder stops while a session runs, paused or not, and only its timer and its sources go; a pending rotation stays; no change when no session runs |
| Player.Controller.OnIntensity | app.js:229-233 | the rain swaps to the new level, with a rotation for that level iff a loop started, only while the session runs unpaused; a pending background roll stays |
| Player.AtMostOneTimerOfEachKind | app.js:19-22 | at most one rotation, one background roll and one tick are pending, each held in its slot |
| Catalog.PresetsWellFormed | src/App.tsx:25-41 | every preset has a non-empty delay window, a gain in (0, 1] and positive fades; preset ids are distinct; every default volume is in (0, 1] |
| Catalog.FindPreset | src/App.tsx:181 | the lookup gives none iff no preset has the id, else a listed preset with that id |
| Catalog.FindPresetFirst | src/App.tsx:181 | the lookup returns the first preset with the id |
| Catalog.EveryPresetFound | src/App.tsx:25-31 | every listed preset is found by its own id |
| Catalog.ToggleSelected | src/App.tsx:194-196 | the toggled list holds an id iff exactly one of "it was held" and "it is the toggled id" is true; an absent id is appended; a present id is removed everywhere, the rest kept in order, each as many times as it occurs |
| Catalog.ToggleTwice | src/App.tsx:194-196 | toggling twice restores every id's membership, and the list itself when the id was absent |
| Catalog.ActiveSounds | src/App.tsx:191 | exactly the sounds whose id is selected, in catalogue order |
| Catalog.ActiveSoundsCounts | src/App.tsx:191 | the filter keeps every selected sound as many times as it occurs in the catalogue, and no other |
| Catalog.Ids | src/App.tsx:183 | `SOUNDS.map(s => s.id)` has one id per sound, the id of the sound at the same position |
| Catalog.AllSelectedActive | src/App.tsx:183 | with every id selected, as at start, every sound is active |
| Catalog.InitialSelectionAllActive | src/App.tsx:183-191 | the initial selection `SOUNDS.map(s => s.id)` makes every sound active, in catalogue order |
| Catalog.FirstActive | src/App.tsx:191 | the first active sound is the first selected sound in catalogue order |
| Catalog.TestPlaySound | src/App.tsx:199 | the test sound is a catalogue sound; it is a selected one when any is selected, else `SOUNDS[0]` |
| Catalog.TestPlaysFirstSelected | src/App.tsx:199 | the test sound is the first selected sound in catalogue order |
| Catalog.BaseGain | src/App.tsx:146 | the base gain is within `[0, preset.volume * masterMultiplier]`, and is that product when the sound has no default volume |
| Engine.ClampUnit | src/App.tsx:69 | the clamped value is in [0, 1], the value itself when already there |
| Engine.Lerp | src/App.tsx:46 | `lo + r * d` for a draw in [0, 1) lies in `[lo, lo + d)` for a positive width and is `lo` for width 0 |
| Engine.LerpReaches | src/App.tsx:46 | every point of `[lo, lo + d)` is reached by some draw |
| Engine.RandFloat | src/App.tsx:46 | `randFloat(min, max)` is in [min, max), exactly `min` when the bounds meet |
| Engine.RandFloatReaches | src/App.tsx:46 | every value of [min, max) is drawn by some `r` |
| Engine.OnceEnvelope | src/App.tsx:95-110 | the play starts and ends at 0.0001; the hold gain is the base gain clamped to [0, 1]; the attack ends at `now + max(0.01, fadeIn) > now` at the hold gain, or at 0.0001 when the hold gain is below that; the release starts inside [now, now + duration] and ends at `now + duration` |
| Engine.EnvelopeKeepsFades | src/App.tsx:95-110 | with a fade-in of at least 10 ms and a fade-out no longer than the sound, the attack and the release last exactly the fades |
| Engine.SoundEngine.TargetGain | src/App.tsx:61 | definition of the master's target, `isMuted ? 0 : volume`; its meaning is stated by `Engine.SoundEngine.TargetGainInRange` |
| Engine.SoundEngine.TargetGainInRange | src/App.tsx:61 | the master's target is in [0, 1]: 0 when muted, else the volume |
| Engine.SoundEngine.constructor | src/App.tsx:51-55 | the engine starts without context, unmuted, at volume 0.5 |
| Engine.SoundEngine.EnsureContext | src/App.tsx:57-66 | the first call makes the one context and a master node at the target gain; later calls return it and make nothing |
| Engine.SoundEngine.SetMasterVolume | src/App.tsx:68-71 | the volume is `v` clamped to [0, 1]; an existing master heads for the new target |
| Engine.SoundEngine.GetMasterVolume | src/App.tsx:73 | returns the stored volume, which is in [0, 1] |
| Engine.SoundEngine.SetMuted | src/App.tsx:75-78 | the flag is set and the volume kept; an existing master heads for 0 when muted, else the volume |
| Engine.SoundEngine.PlayOnce | src/App.tsx:80-110 | the context exists afterwards and is unchanged if it existed; a failed load gives no play; a decoded buffer gets the envelope of its duration |
| Engine.VolumeReadsBack | src/App.tsx:68-78 | setting an in-range volume and then muting or unmuting reads back that volume |
| Scheduler.NextChoice | src/App.tsx:145-147 | an iteration throws iff no sound is active; else it picks an active sound, its base gain, and a delay in the preset's window |
| Scheduler.EverySoundCanPlay | src/App.tsx:145-147 | every active sound can come next after any delay of the window |
| Scheduler.ChoicesInRange | src/App.tsx:145-147 | with valid volumes, every base gain is in `[0, preset.volume * masterMultiplier]` and every delay in the preset's window |
| Scheduler.CatalogueChoicesInRange | src/App.tsx:25-41 | the same for any non-empty selection of the catalogue under any preset |
| Scheduler.Run.constructor | src/App.tsx:139-140 | a run starts uncancelled and idle, having played nothing |
| Scheduler.Run.Start | src/App.tsx:172 | a disabled run ends at once; an enabled one runs the loop head |
| Scheduler.Run.Next | src/App.tsx:145-153 | an iteration throws iff no sound is active, else it waits on a choice |
| Scheduler.Run.Loop | src/App.tsx:142-153 | the loop returns when cancelled, else picks and waits |
| Scheduler.Run.DelayElapsed | src/App.tsx:153-161 | after the delay a cancelled run ends without playing; otherwise exactly the chosen sound is started |
| Scheduler.Run.PlayDone | src/App.tsx:156-169 | after a play the loop recurses only while not cancelled and enabled, else it ends |
| Scheduler.Run.Cancel | src/App.tsx:173 | the cleanup sets the flag |
| Scheduler.CancelledRunStops | src/App.tsx:142-173 | once cancelled, enabled or not, whatever step runs next ends the loop and starts no play |
| ThunderEq.ReductionToGain | script.js:30-37 | a gain comes out iff the string is one of "0", "25", "50", "75", and it lies in [0.25, 1] |
| ThunderEq.GainIsComplement | script.js:31-36 | each accepted string is the decimal text of a percent `p`, and its gain is `1 - p/100` |
| ThunderEq.GainDecreasing | script.js:31-36 | a larger reduction gives a strictly smaller gain |
| ThunderEq.StepMapAccepted | script.js:31-36 | across the two pages (app.js does not call this table): every reduction of the player's 0..3 sliders is accepted, with gain `1 - p/100` |

## Left out

- DOM and UI: element lookups, text and button updates, the progress bar, the JSX rendering and the onboarding modal with its `localStorage` flag. The model keeps only the values these would display, such as the tick text.
- The Web Audio graph: node creation, connections and parameter automation. Only the numbers handed to them are modelled: shelf settings, gain targets and ramp times.
- `reductionToDb` (app.js:70-74): a floating-point `log10` with no exact model over reals. The thunder shelves' dB values are therefore not modelled, only the percents.
- Fetching and decoding, with the opus/mp3 fallback and the codec probe: an oracle, the set of names that load and the buffer duration.
- Real time: `setTimeout`, `setInterval` and the context clock. Timers are pending entries fired by method calls, and `currentTime` is a parameter.
- Async interleavings: each awaited step is atomic in the model. Two overlapping `startRain` calls can each install a source, and a roll still fetching after `stopBgThunder` can re-arm. The model does not capture these races and claims nothing about them.
- React hooks and the effect lifecycle. Only the cancellation flag of `useScheduler` and the values of `useMemo` and `useCallback` are kept. `lastEvent` messages are left out.
- The master volume slider handler of app.js (223-227) and the fixed bus gains of `initAudio`: plain assignments of the slider value with no logic.
- Floating point: reals are exact, so rounding in `Math.random() * n`, the gain products and the ramp times is not modelled.
- Player.Controller.FireRainSwap: when the rain restarts, states the re-armed timer and its payload but not the whole new timeout map; the full map is stated by `StartRain`.
- Player.Controller.OnIntensity: when the rain swaps, states the new loop, the rotation it arms and that a pending background roll stays, not the whole timeout map; the full effect is stated by `RainWhilePlaying`.
- Player.Controller.OnStart: takes the session length and the intensity level as integers. A non-numeric `sessionMins` value makes `parseInt` give `NaN` (app.js:251), so the session never stops by itself and the text reads `NaN:00`; this is not modelled.
- Engine.SoundEngine.PlayOnce: the fetch and decode are an oracle, and the promise's resolution on `ended` is not modelled.
