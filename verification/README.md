# Satellite track animation of the world-map component

A Dafny model of the logic inside the `WorldMap` React component of the
starlink satellite tracker. When the user selects satellites, the component
fetches each satellite's ground track for the observer's time window. It then
plays the tracks back on an overlay canvas above a world map. A one-second
interval timer draws each satellite at the same sample index, advances the
index by sixty samples (one simulated minute) and prints a clock that runs
sixty times faster than the wall clock. When the index passes the end of the
first track, the timer stops.

The model has four parts:

- **The session gate** (`componentDidUpdate`). A new selection raises
  `isLoading` and issues one request per satellite for `duration * 60`
  seconds. When every request succeeds, the gate lowers `isLoading`, raises
  `isDrawing`, and either starts the animator or shows the wait hint. A
  rejection is only logged.
- **The track animator** (`track`). It is a class whose `Tick(now)` method is
  one firing of the timer. The overlay canvas is a log of paints: a clear, a
  clock label, and one marker per drawn satellite that records the frame
  index, the satellite's position in the batch, its coordinates, its label and
  its colour slot.
- **The per-satellite draw** (`drawSat`). The skip rule treats null, undefined
  and 0 coordinates as falsy. The label key is the concatenation of the name's
  digit runs. The colour comes from the one ordinal scale the constructor
  builds.
- **The simulated clock.**

Each imperative method is proved against a pure specification
(`Frame.DrawSatSpec`, `Frame.DrawFrame`, `Animation.Run`, `Colour.Observe`,
`Clock.DisplayedTime`). The properties the component promises are lemmas about
those functions.

Files:

- `types.dfy`: service data, paints and faults.
- `label_key.dfy`: the label key.
- `colour.dfy`: the ordinal scale.
- `clock.dfy`: the simulated clock.
- `animation.dfy`: the frame-index machine.
- `frame.dfy`: one drawing tick.
- `world_map.dfy`: the two classes.
- `scenarios.dfy`: concrete sessions, including those behind the findings.

The model follows the code where it falls short of what the component is
evidently meant to do:

- **A failed request** leaves `isLoading` raised; the spinner is evidently
  meant to go away whichever way the requests settle.
- **Track lengths.** Only the first track is checked for `positions`, and the
  run length comes from it alone. Tracks of unequal length are not rejected
  when the animation starts. A track too short for one of the drawn indices
  makes that tick throw (`Frame.ShortTrackThrows`).
- **Tracks without samples.** A first track without a `positions` field
  makes `track` throw; the exception is caught and logged only after
  `isDrawing` was raised. A later track without it is not checked: the
  animation starts and every drawing tick throws at that satellite
  (`Frame.ShortTrackThrows`). A first track with an empty `positions` is
  accepted, and the animation stops on its first tick (`Animation.EmptyTracks`).
- **Two overlapping selections** can both start an animator, although a
  second session is evidently meant to be refused with the wait hint.

## Model

| member | source | states |
|---|---|---|
| Types.Falsy | src/components/WorldMap.js:155 | no contract of its own: JavaScript truthiness of a coordinate, where null, undefined and 0 are falsy; its effect on a draw is stated by `Frame.DrawSatCases` and `Frame.SkipLeavesFrameAlone` |
| Types.SampleAt | src/components/WorldMap.js:144-145 | `positions[i]` is defined exactly when the track has samples and i is below their number, and it is then the i-th sample |
| LabelKey.LeadingDigits | src/components/WorldMap.js:158 | the length of the digit run that opens a string is within the string and positive when the string starts with a digit |
| LabelKey.LeadingRunIsMaximal | src/components/WorldMap.js:158 | the leading run is all digits and maximal: the character after it, if any, is no digit |
| LabelKey.DigitRuns | src/components/WorldMap.js:158 | no contract of its own: the runs `match(/\d+/g)` collects, left to right; `LabelKey.DigitRunsAreDigits` and `LabelKey.RunsJoinToDigits` describe them |
| LabelKey.Concat | src/components/WorldMap.js:158 | no contract of its own: `.join("")` of the runs; `LabelKey.RunsJoinToDigits` states what it gives for the runs of a name |
| LabelKey.Key | src/components/WorldMap.js:158 | no contract of its own: the whole `satname.match(/\d+/g).join("")`, None where `match` yields null and `.join` throws; `LabelKey.KeyIsDigitsOfName`, `LabelKey.KeyFailsIffNoDigit` and `LabelKey.KeyIsCanonical` describe it |
| LabelKey.DigitRunsAreDigits | src/components/WorldMap.js:158 | every run the global `\d+` match collects is a nonempty string of digits |
| LabelKey.DigitsOfDigitRun | src/components/WorldMap.js:158 | keeping only the digits of an all-digit string gives it back |
| LabelKey.RunsJoinToDigits | src/components/WorldMap.js:158 | joining the maximal digit runs with `""` gives exactly the name's digit characters, in order |
| LabelKey.DigitsAreDigits | src/components/WorldMap.js:158 | the digits of a name are digits, are no longer than the name, and are empty exactly when no character is a digit |
| LabelKey.KeyIsDigitsOfName | src/components/WorldMap.js:158 | the label key is the name's digit characters in order, and the extraction fails exactly when there are none |
| LabelKey.KeyFailsIffNoDigit | src/components/WorldMap.js:158 | `match` yields null, and the key cannot be formed, if and only if no character of the name is a digit |
| LabelKey.KeyIsCanonical | src/components/WorldMap.js:158 | a key is all digits, nonempty and no longer than the name, and extracting the key of the key gives it back unchanged |
| Colour.IndexOf | src/components/WorldMap.js:163 | the position the scale assigns a key holds that key |
| Colour.IndexOfIsFirst | src/components/WorldMap.js:163 | that position is the key's first occurrence: no earlier entry of the domain is the key |
| Colour.Observe | src/components/WorldMap.js:163 | one call of the scale only appends to its domain; a known key leaves the domain unchanged; an unseen key is appended and gets slot `size % 10`; in both cases the slot is the key's first-seen position modulo 10, one of the ten palette slots |
| Colour.FirstColourKept | src/components/WorldMap.js:163 | the slot answered by the call that first sees a key is the slot every later call answers for it, whatever keys are added in between |
| Colour.IndexStable | src/components/WorldMap.js:163 | adding keys to the domain never moves a key already in it |
| Colour.ColourStable | src/components/WorldMap.js:163 | once the scale has seen a key, every later call with that key, whatever other keys came in between, answers the same slot and leaves the domain as it is |
| Colour.ColorScale.constructor | src/components/WorldMap.js:32 | the scale starts with an empty domain and a lookup table consistent with it |
| Colour.ColorScale.Apply | src/components/WorldMap.js:163 | a call through the lookup table leaves the domain and answers the slot that `Colour.Observe` specifies, and keeps the table consistent with the domain |
| Clock.DisplayedTime | src/components/WorldMap.js:122-125 | no contract of its own: the time the clock prints, with the elapsed time counted as zero while the index is 0; the three `Clock` lemmas below describe it |
| Clock.FirstFrameShowsStart | src/components/WorldMap.js:112-125 | while frame 0 is pending the clock shows the start time, whenever the tick fires |
| Clock.ClockRunsSixtyTimesFaster | src/components/WorldMap.js:119-125 | after the first frame the shown time advances sixty times as fast as the wall clock |
| Clock.ClockReadsBack | src/components/WorldMap.js:119-125 | the shown time is never before the start, and the real elapsed time can be read back from it |
| Animation.Step | src/components/WorldMap.js:135-148 | no contract of its own: one firing of the timer, which stops the run at or past len and otherwise advances the index by 60; `Animation.FinishIsTerminal` and `WorldMapComponent.TrackAnimator.Tick` state its promises |
| Animation.Run | src/components/WorldMap.js:135-148 | no contract of its own: the phase after n firings of a fresh timer; `Animation.RunShape` gives its closed form |
| Animation.DrawingTicksBounds | src/components/WorldMap.js:135-148 | the number of drawing ticks is len/60 rounded up |
| Animation.RunShape | src/components/WorldMap.js:114-148 | after n ticks the index is 60·n while n is at most ceil(len/60); after that the timer is stopped at 60·ceil(len/60) |
| Animation.DrawnShape | src/components/WorldMap.js:114-148 | the frames drawn so far are 0, 60, 120, …, one per drawing tick, and there are min(n, ceil(len/60)) of them |
| Animation.DrawnFramesInRange | src/components/WorldMap.js:107-148 | every drawn frame is a multiple of 60 below len, and once the run stops every such multiple has been drawn |
| Animation.FinishIsTerminal | src/components/WorldMap.js:135-141 | the first tick at or past len stops the run and draws nothing, and no later tick changes the phase or draws a frame |
| Animation.HundredTwentySamples | src/components/WorldMap.js:107-148 | with 120 samples the run draws frames 0 and 60 and stops on the third tick |
| Animation.EmptyTracks | src/components/WorldMap.js:135-141 | with empty tracks the first tick stops the run and nothing is drawn |
| Frame.DrawSatSpec | src/components/WorldMap.js:152-171 | a satellite is marked only when its sample is truthy in both coordinates and its name has a digit; the marker is at the tick's index for this satellite, at the sample's longitude and latitude, labelled with the name's key, in the slot of the key's first-seen position modulo 10, and the scale's domain becomes the one the call leaves; otherwise the satellite is skipped or the draw throws |
| Frame.DrawSatCases | src/components/WorldMap.js:153-158 | a satellite is drawn exactly when its sample exists, both coordinates are truthy and its name has a digit; the draw throws exactly when the sample is missing or a non-skipped name has no digit; both are independent of the scale |
| Frame.DrawPrefix | src/components/WorldMap.js:143-146 | no contract of its own: the `forEach` over the first n satellites, stopping at the first throw; the `Frame` lemmas below describe it |
| Frame.DrawFrame | src/components/WorldMap.js:143-146 | no contract of its own: the `forEach` over the whole batch; `Frame.MarkerIff`, `Frame.NoFaultIff`, `Frame.MarkersShowOwnSatellite` and `Frame.ColourOfSatellite` describe it |
| Frame.PrefixInBatchOrder | src/components/WorldMap.js:143-146 | a tick paints only markers, all at its own index, at most one per satellite, in the order of the batch |
| Frame.PrefixDomainGrows | src/components/WorldMap.js:143-146 | a tick's draws only append keys to the scale's domain |
| Frame.FaultStep | src/components/WorldMap.js:143-146 | a batch prefix that has thrown is not extended by the next satellite |
| Frame.FaultSticks | src/components/WorldMap.js:143-146 | once a satellite's draw has thrown, the rest of the batch is not drawn |
| Frame.SkipLeavesFrameAlone | src/components/WorldMap.js:153-155 | a sample with a falsy coordinate adds no paint and leaves the scale as it was |
| Frame.OwnDrawMarks | src/components/WorldMap.js:143-158 | a satellite's own draw adds its marker exactly when no earlier draw threw and it is plottable |
| Frame.LaterDrawKeepsMarks | src/components/WorldMap.js:143-146 | drawing a later satellite neither adds nor removes an earlier satellite's marker |
| Frame.MarkerIff | src/components/WorldMap.js:143-155 | a tick paints a marker for satellite k if and only if no earlier satellite threw and k's own sample is plottable; a skipped neighbour does not matter |
| Frame.NoFaultIff | src/components/WorldMap.js:143-158 | a tick throws nowhere if and only if every satellite is drawable at the index |
| Frame.ShortTrackThrows | src/components/WorldMap.js:143-153 | a track with no sample at the index makes the tick throw "sample missing", unless an earlier satellite already threw |
| Frame.DigitlessNameThrows | src/components/WorldMap.js:143-158 | a plotted satellite whose name has no digit makes the tick throw the missing-key fault, unless an earlier satellite already threw |
| Frame.MarkerColours | src/components/WorldMap.js:143-163 | after a tick, every marker carries the slot the scale now gives its key, so a key drawn twice gets one colour |
| Frame.MarkersShowOwnSatellite | src/components/WorldMap.js:143-170 | every marker of a tick belongs to a plottable satellite, is labelled with the digits of that satellite's name and placed at its sample for the tick's index |
| Frame.ColourOfSatellite | src/components/WorldMap.js:158-163 | after a tick, each marker's label is its satellite's digit key and its slot is the one the scale now gives that key |
| WorldMapComponent.Requests | src/components/WorldMap.js:59-72 | one request per selected satellite, in selection order, each for the observer's place and `duration * 60` seconds |
| WorldMapComponent.StartLength | src/components/WorldMap.js:103-110 | the animator can start if and only if there is a first track, it carries `positions` and the base map exists; the run length is the first track's length; no tracks, no positions and no base map fail as such, checked in that order |
| WorldMapComponent.OnlyFirstTrackChecked | src/components/WorldMap.js:103-107 | whether and for how long the animator starts depends on the first track alone |
| WorldMapComponent.WorldMap.constructor | src/components/WorldMap.js:24-36 | neither loading nor drawing, an empty hint and overlay, no base map, one fresh colour scale with an empty domain |
| WorldMapComponent.WorldMap.GenerateMap | src/components/WorldMap.js:222-227 | after `generateMap`, `this.map` is set |
| WorldMapComponent.WorldMap.DidUpdate | src/components/WorldMap.js:48-72 | the same `satData` reference does nothing; a new one raises `isLoading` and issues `Requests` with the current `isDrawing` as the captured `prevState.isDrawing` |
| WorldMapComponent.WorldMap.Track | src/components/WorldMap.js:102-117 | `track` throws the first failed check of `StartLength` without starting a timer; otherwise it starts a running animator at frame 0 over the batch, with the first track's length and the current time |
| WorldMapComponent.WorldMap.PositionsLoaded | src/components/WorldMap.js:74-93 | a rejection only logs, and `isLoading` stays raised; success lowers `isLoading` and raises `isDrawing`, then starts the animator iff the captured `isDrawing` was false (a throw from `track` is logged) and otherwise shows the wait hint and drops the data |
| WorldMapComponent.WorldMap.PositionsLoadedGuarded | src/components/WorldMap.js:74-93 | corrected gate: `isLoading` is always lowered, the decision uses the current `isDrawing`, `isDrawing` is raised only when an animator starts, and at most one animator runs |
| WorldMapComponent.WorldMap.DrawSat | src/components/WorldMap.js:152-171 | paints and scale calls exactly as `Frame.DrawSatSpec` says, and throws its fault |
| WorldMapComponent.TrackAnimator.constructor | src/components/WorldMap.js:107-117 | a running timer at frame 0 whose length is the first track's length |
| WorldMapComponent.TrackAnimator.Tick | src/components/WorldMap.js:117-149 | a cleared timer changes nothing; a running one clears the overlay and prints the clock, then finishes (timer cleared, `isDrawing` lowered, hint emptied) or paints `Frame.DrawFrame` at the index and advances it by 60, unless a draw threw; non-throwing ticks follow `Animation.Step`, and a single running animation stays single |
| WorldMapComponent.TrackAnimator.DrawSatellites | src/components/WorldMap.js:143-146 | the `forEach` paints and scale calls are exactly `Frame.DrawFrame` at the current index, and it throws that frame's fault |
| Scenarios.TwoTracksDraw | src/components/WorldMap.js:143-146 | a tick over two drawable satellites does not throw |
| Scenarios.EndToEndSession | src/components/WorldMap.js:48-150 | satellites 25544 and 20580 over ten minutes give two 600-second requests; 120-sample tracks draw frames 0 and 60, finish on the third tick, then stay idle, leaving the component neither loading nor drawing with an empty hint |
| Scenarios.PlayToEnd | src/components/WorldMap.js:117-149 | four ticks of a fresh 120-sample animator are: frame 0, frame 60, finish, idle |
| Scenarios.DrawOneFrame | src/components/WorldMap.js:117-148 | a tick below the end over two drawable satellites draws the frame at the index and advances it by 60 |
| Scenarios.DigitlessFrameThrows | src/components/WorldMap.js:153-158 | a frame whose satellite is plotted but has no digit in its name throws the missing-key fault |
| Scenarios.DigitlessNameStalls | src/components/WorldMap.js:143-158 | a name without digits makes every tick throw at frame 0; the timer keeps running and `isDrawing` stays raised |
| Scenarios.RetryTwice | src/components/WorldMap.js:117-158 | two ticks over a digitless name both throw, and the index, the timer and `isDrawing` stay as they were |
| Scenarios.OverlappingSelections | src/components/WorldMap.js:49-84 | two selections in flight together both start an animator on the same component |
| Scenarios.OverlappingSelectionsGuarded | src/components/WorldMap.js:78-89 | through the corrected gate the second answer is refused with the wait hint |
| Scenarios.MissingPositionsBlocksLaterSelections | src/components/WorldMap.js:78-104 | after an answer without `positions`, `isDrawing` stays raised and a later selection is refused although nothing is animated |
| Scenarios.MissingPositionsGuarded | src/components/WorldMap.js:78-104 | through the corrected gate the later selection is animated |
| Scenarios.RejectedFetchKeepsSpinner | src/components/WorldMap.js:61-93 | after a rejected request `isLoading` stays raised |
| Scenarios.RejectedFetchGuarded | src/components/WorldMap.js:61-93 | through the corrected gate a rejection lowers `isLoading` |

## Left out

- The projection and the base map (`geoKavrayskiy7`, graticule and `geoPath`
  in `generateMap`) are floating-point library code. `generateMap` is
  modelled only as setting `this.map`, and markers keep geographic
  coordinates instead of pixels. The circle radius, label offset, fonts and
  fill styles are canvas calls only.
- The world-map download in `componentDidMount`, the axios requests, URL
  building and the API key are network I/O. The joined position requests
  appear as a `Fetch` that is settled by an explicit `FetchOutcome`.
  `Promise.all` settling with the first rejection is taken as given.
- `setInterval` and `new Date()` are replaced by explicit `Tick(now)` calls
  with integer milliseconds. `d3TimeFormat` is left out; the clock label holds
  the time value.
- React is not modelled: lifecycle scheduling, `render` and the `Spin`
  spinner (shown while `isLoading`) are left out, and `setState` takes effect
  at once. The `prevState.isDrawing` a request captures is the `isDrawing`
  field when `componentDidUpdate` runs.
- The hint element found with `document.getElementsByClassName` is a string
  field.
- The actual palette colours are left out; only the slot is modelled. The
  slot is the scale's first-seen index modulo ten.
- The observer's `altitude`, and the `duration` read again inside `track`,
  are never used by the code; they appear only as fields.
- NaN coordinates cannot come from a JSON payload and are not modelled.
  Coordinates are absent or numbers.
- An exception thrown inside a tick is neither caught nor logged by the
  component; the tick's outcome records it. By then the tick has cleared the
  overlay, printed the clock, painted the markers of the satellites before
  the failing one and may have grown the scale's domain; only the index, the
  timer, `isDrawing` and the hint stay as they were.
- WorldMapComponent.TrackAnimator.Tick: the pure phase machine
  (`Animation.Step`) is tied only to ticks that do not throw. A throwing tick
  leaves the index unchanged, and its `ensures` says so.

## Findings

| source | as written | input that shows it | evidently intended | confidence | as-written member | corrected member |
|---|---|---|---|---|---|---|
| src/components/WorldMap.js:83-84 | the gate reads `prevState.isDrawing`, copied when the requests were issued | two selections whose requests are both in flight while nothing is drawing: both answers see `false` and both start a timer on the one overlay | at most one animation at a time; the second answer gets the wait hint | medium, not executed | Scenarios.OverlappingSelections | WorldMapComponent.WorldMap.PositionsLoadedGuarded |
| src/components/WorldMap.js:78-104 | `isDrawing` is raised before `track` runs, and a throw from `track` is only logged | an answer whose first track has no `positions` (or an empty selection, or an unfinished base map): `isDrawing` stays true forever, so every later selection gets the wait hint | `isDrawing` is raised only when an animation really starts | medium, not executed | Scenarios.MissingPositionsBlocksLaterSelections | WorldMapComponent.WorldMap.PositionsLoadedGuarded |
| src/components/WorldMap.js:61-93 | the `.catch` only logs | any rejected position request: `isLoading` stays true and the spinner never goes away | the spinner is removed whichever way the requests settle | medium, not executed | Scenarios.RejectedFetchKeepsSpinner | WorldMapComponent.WorldMap.PositionsLoadedGuarded |
