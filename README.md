# Tap-Sense session model in Dafny

Tap-Sense is a browser usability-testing tool. A webcam feeds a face-landmark
model, and the tool turns the model's blendshape scores into emotion events
while a participant clicks and scrolls through an uploaded screenshot. At the
end it shows a report. Almost all of `src/App.jsx` is React and browser glue.
This project models the one piece of original logic in it, the session:

- `EventLog` (event_log.dfy): the event log. It is append-only. `logEvent`
  drops a candidate only when the entry logged just before it has the same
  type and is less than 1500 ms old. `Logged` is one call, `LogAll` is a
  sequence of calls at one time, and `Repeat` is a series of ticks that
  offer the same candidates.
- `Emotion` (emotion.dfy): the per-tick classifier.
  - `getScore` is a first-match lookup that defaults to 0.
  - It computes four pairwise means.
  - Strict thresholds (0.2, 0.2, 0.3, 0.3) give candidate events in the fixed
    order DELIGHT, FRUSTRATION, SURPRISE, CONFUSION.
  - Scores are exact `real`s.
- `Recorder` (recorder.dfy): click points and the `"Click #n"` detail. It
  also holds the scroll-depth formula, rounded half up, with the non-finite
  result of a zero scroll height.
- `Decimal` (decimal.dfy): the decimal rendering of `n` in `"Click #n"`,
  with its read-back and injectivity.
- `Aggregates` (aggregates.dfy): the report's `filter(...).length` counts.
- `Session` (session.dfy): class `App`. Its fields are the component's state
  and refs: `step`, the image flag, `faceDetected`, the live metrics,
  `scrollDepth`, `eventsRef`, `pointsRef`, `isTestingRef` and `startTimeRef`.
  Its methods are the handlers: upload, START, STOP, click, scroll, one
  detection tick and the report counts. `Valid()` is the session invariant:
  - the testing gate is on exactly on the testing screen;
  - click ids are 1..N;
  - nothing is recorded before START;
  - there are no more logged INTERACTIONs than points.

Time is an integer parameter `now` (milliseconds) in place of `Date.now()`.
One detection tick is a method call. The model's output for a tick is a
parameter: a list of faces, each a list of named scores. A flag `ready`
stands for "video playing and model loaded".

Clicks go through the same debounce as emotion events. The comparison uses
only type and time (src/App.jsx:131). So a click less than 1500 ms after a
logged INTERACTION, with no entry between, records its point but logs no
event (`Recorder.QuickClickDropped`, `Session.ClickScenario`), although
every click's `"Click #n"` detail is distinct (`Recorder.ClickDetailsDistinct`).
Successive clicks each log an INTERACTION when they are at least 1500 ms
apart or another entry falls between them.

Dafny reserves the word `type`, so the event field the source calls `type`
is named `kind` here.

## Model

| member | source | states |
|---|---|---|
| `EventLog.Debounced` | src/App.jsx:131 | the drop test: never true on an empty log; when true, the last entry has the candidate's type and is less than 1500 ms older than `now` |
| `EventLog.Stamp` | src/App.jsx:129-132 | the entry a candidate becomes: it keeps the candidate's type and detail, its timestamp is `now`, and its elapsed time is measured from the start time |
| `EventLog.Logged` | src/App.jsx:127-133 | the log is unchanged exactly when the last entry has the candidate's type and is under 1500 ms old; otherwise exactly that candidate is appended, stamped `now` with elapsed `now - start` |
| `EventLog.LogAll` | src/App.jsx:108-113 | several logEvent calls at one time only append: the old log is a prefix, at most as many entries as there are candidates are added, and every added entry is stamped `now` and is one of the candidates |
| `EventLog.Repeat` | src/App.jsx:108-116 | over any number of ticks offering the same candidates the log only grows: the old log stays a prefix |
| `EventLog.EmptyLogAppends` | src/App.jsx:130-132 | the first candidate offered to an empty log is always appended |
| `EventLog.OtherTypeAppends` | src/App.jsx:131 | a candidate whose type differs from the last entry's is appended, however recent that entry is |
| `EventLog.PairTick` | src/App.jsx:109-110 | when two types fire in one tick, the second is always appended; the first is appended too unless the log already ended with its type |
| `EventLog.AlternationDefeatsDebounce` | src/App.jsx:109-131 | when DELIGHT and FRUSTRATION fire on every tick, n ticks append at least 2n-1 entries, the last is FRUSTRATION, and all 2n are appended when the log did not end in DELIGHT, so the debounce never suppresses them |
| `EventLog.SameTypeSpacing` | src/App.jsx:131-132 | when one type is offered at any series of times, then from the old log's last entry on, each entry of that type and the next entry are at least 1500 ms apart |
| `Emotion.GetScore` | src/App.jsx:99 | the result is the score of the first category with that name, or 0 when no category has it |
| `Emotion.GetScoreInUnitRange` | src/App.jsx:99 | with every reported score in [0,1], a looked-up score is in [0,1] |
| `Emotion.Classify` | src/App.jsx:101-104 | the four metrics are the pairwise means (`Mean`) of the looked-up left and right scores; each lies between its two scores (further properties in `MissingCategoryCountsAsZero`, `ClassifyInUnitRange`) |
| `Emotion.Candidates` | src/App.jsx:109-112 | the candidates a testing tick offers, in check order: at most four, none of them an INTERACTION (which and in what order in `CandidatesFire`, `CandidatesOrdered`) |
| `Emotion.ClassifyInUnitRange` | src/App.jsx:101-104 | with every reported score in [0,1], the four means are in [0,1] |
| `Emotion.MissingCategoryCountsAsZero` | src/App.jsx:99-104 | a missing blendshape contributes 0 to its mean: with one of a pair absent the mean is half the other's score, with both absent it is 0 |
| `Emotion.CandidatesFire` | src/App.jsx:109-112 | DELIGHT, FRUSTRATION, SURPRISE and CONFUSION are each offered exactly when happy > 0.2, angry > 0.2, surprised > 0.3 and confused > 0.3, independently |
| `Emotion.CandidatesOrdered` | src/App.jsx:109-112 | a tick offers only those four candidates, each at most once, in that fixed order |
| `Aggregates.Filter` | src/App.jsx:192-196 | the filtered entries all have the requested type and are no more than the log |
| `Aggregates.FilterCountsOccurrences` | src/App.jsx:192-196 | a report count equals the number of log entries of that type (its multiplicity among the entries' types) |
| `Aggregates.LoggedCount` | src/App.jsx:131-132 | one logEvent call raises the count of its own type by at most one and leaves every other count unchanged |
| `Aggregates.LogAllKeepsOtherCounts` | src/App.jsx:108-113 | logging candidates that are none of a type leaves that type's count unchanged |
| `Decimal.NatToString` | src/App.jsx:141 | the rendered number is a non-empty string of digits, a single digit below 10 and with no leading zero above 0, so with `ValueOfNatToString` it is exactly the numeral `${n}` prints |
| `Decimal.ValueOfNatToString` | src/App.jsx:141 | reading the rendered number back gives the number |
| `Decimal.NatToStringInjective` | src/App.jsx:141 | different numbers render differently |
| `Recorder.ClickDetail` | src/App.jsx:141 | the detail is `"Click #"` followed by a digit string that reads back as the click number |
| `Recorder.ClickDetailsDistinct` | src/App.jsx:141 | different clicks get different `"Click #n"` details |
| `Recorder.QuickClickDropped` | src/App.jsx:131-141 | a click under 1500 ms after a logged INTERACTION is not logged, although its detail differs from the last entry's |
| `Recorder.ScrollDepth` | src/App.jsx:177 | the depth is `100*(scrollTop+clientHeight)/scrollHeight` rounded half up (it lies in [value-1/2, value+1/2)); it is non-finite exactly when scrollHeight is 0, and in [0,100] when the viewport bottom is within the content |
| `Recorder.RoundHalfUp` | src/App.jsx:177 | `(2a+h)/(2h)` is `a/h` rounded half up, and is at most 100 when `a <= 100h` |
| `Session.App.constructor` | src/App.jsx:8-23 | a new session is on the setup screen, with no image, no face, zero metrics, depth 0, empty log and points, and the gate closed |
| `Session.App.UploadImage` | src/App.jsx:168 | on the setup screen an upload sets the image; the invariant is kept |
| `Session.App.LogEvent` | src/App.jsx:127-133 | the new log is `Logged` of the old one with the start time as reference |
| `Session.App.Start` | src/App.jsx:170 | only from setup with an image and a face: moves to testing, opens the gate and sets the start time to `now`; otherwise nothing changes |
| `Session.App.Stop` | src/App.jsx:180 | from testing: closes the gate and moves to the report; from any other screen, including the report, nothing changes |
| `Session.App.Click` | src/App.jsx:135-143 | with the gate closed nothing changes; with it open the point (x, y, old length + 1) is appended, and `"Click #" + new length` is offered to the debounced log; ids stay 1..N |
| `Session.App.Scroll` | src/App.jsx:174-177 | on the testing screen the depth is overwritten with the value for the current scroll values alone |
| `Session.App.Tick` | src/App.jsx:91-114 | no face: faceDetected becomes false; with a face: metrics are republished from the first face; the log changes only while testing, and then becomes `LogAll` of the old log and the tick's candidates: each is offered to the debounced log, in order; the session invariant is kept |
| `Session.App.LogEmotions` | src/App.jsx:108-113 | the four guarded logEvent calls give `LogAll` of the tick's candidates |
| `Session.App.ReportCounts` | src/App.jsx:190-198 | the DELIGHT and FRUSTRATION figures equal the number of log entries of those types |
| `Session.TickKeepsInteractions` | src/App.jsx:108-113 | a detection tick never changes the number of INTERACTION entries |
| `Session.DebounceExample` | src/App.jsx:109-131 | happy = 0.25 at 2000 ms and again at 2900 ms logs one DELIGHT; at 2000 ms and 4000 ms it logs two |
| `Session.StartedSession` | src/App.jsx:168-170 | upload, a tick that sees a face, and START at 1000 ms give a valid testing session with empty log and points |
| `Session.ClickScenario` | src/App.jsx:135-143 | clicks at 2000, 2500 and 5000 ms give points with ids 1, 2, 3 at their coordinates, but only two INTERACTION entries, `Click #1` and `Click #3` |

## Left out

- Loading the face-landmark model from the network and its inference
  (src/App.jsx:56-75, 92) are foreign calls. The inference result is a tick
  parameter, and the load status string is not modelled.
- Camera acquisition, the `loadeddata` listener and the camera-denied
  status (src/App.jsx:77-87) are browser I/O.
- The 100 ms `setInterval` timer and any overlap between ticks
  (src/App.jsx:90, 116) are timing and concurrency. One tick is one method
  call.
- Session.App.Tick: all four logEvent calls of a tick share one `now`. The
  source reads the clock separately in each call, so two calls in one tick
  may see slightly different times.
- Canvas mirroring (`drawToCanvas`, src/App.jsx:119-125) and all layout,
  styles, icons and colours are UI. Event entries therefore carry no icon,
  background or colour.
- Float details are not modelled:
  - the click percentages from `getBoundingClientRect` (src/App.jsx:137-139),
    where x and y are given values;
  - the `toFixed(1)` elapsed-seconds label (src/App.jsx:129), kept as an
    elapsed-milliseconds integer;
  - the `val` bar-width helper (src/App.jsx:145);
  - rounding error in the floating-point scroll ratio, which the model
    computes exactly.
- Recorder.ScrollDepth: the inputs are natural numbers, and a zero scroll
  height gives one non-finite value. The source yields NaN for 0/0 and
  Infinity otherwise, and the model does not tell them apart.
- The object URL of the uploaded file (src/App.jsx:168) is reduced to a flag
  that says an image is set. `window.print` (src/App.jsx:188) is left out.
- The no-op `setScrollDepth(prev => prev)` re-render in the click handler
  (src/App.jsx:142) changes no state and is left out.
