# fitness-app: a verified model of the live-coaching pipeline

This project models, in Dafny, the logic of a fitness coaching application. A
browser samples body keypoints from the camera, streams them over a WebSocket
to a backend, and shows the feedback that comes back. The backend counts
push-up and squat repetitions with a small state machine.

Modules, one per source file (plus two shared helpers):

- `RepCounting` (`rep_counter.dfy`): the backend repetition counter. A
  hysteresis state machine over `idle`/`down`/`up` with a dwell time. It counts
  a rep on each `down` to `up` change and gives coaching tips from averaged
  joint angles. The `RepCounter` class updates its state in place. Pure step
  functions specify it, and lemmas about runs of frames establish the counting
  properties.
- `PoseSampling` (`pose_client.dfy`): the browser pose sampler. It clamps the
  frame rate, throttles paint-cycle ticks, maps detector landmark names to the
  twelve canonical joints, normalises pixel coordinates, and emits a frame only
  when some joint was found and a subscriber is registered.
- `Transport` (`ws.dfy`): the WebSocket client. It builds the session URL and
  infers the endpoint from the page location. Its send gate drops frames when
  the socket is not open or its buffer is over the ceiling. Inbound messages
  that do not parse are ignored.
- `CameraSource` (`user_media.dfy`): the camera manager. It maps the resolution
  tier to capture constraints, keeps track of held tracks in `stop`/`start`,
  classifies errors into user messages, and filters the device list.
- `Hud` (`hud.dfy`): the overlay text. It covers the phase colour, the
  `Reps: n` label and the tip line.
- `Schemas` (`schemas.dfy`): the backend's wire and plan types, with their
  validity constraints and defaults.
- `Cors` (`cors.dfy`): the allowed CORS origins parsed from a comma-separated
  setting.
- `Onboarding` (`onboarding.dfy`): the onboarding form's initial state and its
  "add equipment" action.
- `Text` (`text.dfy`): whitespace trimming and joining. Python's `str.strip()`
  and JavaScript's `trim()` disagree on what counts as whitespace, so each has
  its own character set. `Wrappers` (`wrappers.dfy`) holds `Option`.

Floating-point values are modelled as `real` and integers as unbounded `int`.
Clocks, animation-frame handles, detector results, camera and enumeration
outcomes, parsed JSON and the JSON encoder are parameters of the operations
that use them.

Behaviour of the code worth noting:

- Landmarks are not filtered by confidence before emission. The code keeps every
  recognised joint whatever its score (`frontend/src/lib/pose/client.ts:49-57`).
- Frame timestamps are wall-clock `Date.now()`, while throttling uses
  `performance.now()` (client.ts:39-44, 60).
- `stop` cancels the scheduled callback only when a handle was ever issued
  (client.ts:76).
- The unsupported-browser case is not a separate category. It shows the thrown
  error's own message (useUserMedia.ts:58-60, 69).
- The send gate drops only when the buffered amount is non-zero and above the
  ceiling. For a ceiling that is not negative this is the same as "occupancy
  exceeds ceiling" (ws.ts:44).

## Model

| member | source | states |
|---|---|---|
| Text.Strip | backend/app/main.py:16 | the result starts and ends with a non-whitespace character, is no longer than the input, and is empty exactly when the input is all whitespace |
| Text.StripInfix | backend/app/main.py:16 | the stripped string is a contiguous part of the input, with only whitespace removed on each side |
| Text.StripUntouched | backend/app/main.py:16 | a string that neither starts nor ends with whitespace is left unchanged |
| Text.StripIdempotent | frontend/src/pages/Onboarding.tsx:38-39 | trimming twice is the same as trimming once |
| Text.JoinWithAppend | frontend/src/components/RepCounterHUD.tsx:62 | joining two non-empty lists one after the other puts exactly one separator between their two joins |
| Text.JoinWith | frontend/src/components/RepCounterHUD.tsx:62 | no pieces join to the empty string, and the joined string starts with the first piece |
| Schemas.LevelName | backend/app/models/schemas.py:13 | each level's spelling is accepted back as that level |
| Schemas.ParseLevel | backend/app/models/schemas.py:13 | a string is accepted as a level exactly when it is `beginner`, `intermediate` or `advanced` |
| Schemas.GoalName | backend/app/models/schemas.py:14 | each goal's spelling is accepted back as that goal |
| Schemas.ParseGoal | backend/app/models/schemas.py:14 | exactly the four goal spellings are accepted |
| Schemas.PhaseName | backend/app/models/schemas.py:61 | each phase's spelling is accepted back as that phase |
| Schemas.ParsePhase | backend/app/models/schemas.py:61 | a tick phase is accepted exactly when it is `idle`, `down` or `up` |
| Schemas.ExerciseName | backend/app/services/rep_counter.py:29 | each exercise's spelling is accepted back as that exercise |
| Schemas.ParseExercise | backend/app/services/rep_counter.py:29 | exactly `push_up` and `squat` are accepted |
| Schemas.NewUserGoal | backend/app/models/schemas.py:17-22 | a goal built from goal and level alone has 3 days per week, no equipment, no constraints, and is valid (days in 1..7) |
| Schemas.NewPlanExercise | backend/app/models/schemas.py:25-31 | the defaults are 3 sets, reps `10-12`, 60 s rest and no image or explanation, and they satisfy sets >= 1 and rest >= 0 |
| Schemas.NewPlanDay | backend/app/models/schemas.py:34-37 | a plan day with no exercises is valid exactly when its day is in 1..7 |
| Schemas.DefaultTick | backend/app/models/schemas.py:59-62 | the default tick has rep count 0, phase `idle` and no feedback |
| Schemas.NewReferenceTemplate | backend/app/models/schemas.py:65-72 | the template defaults to 30 fps with no phase labels and no joint angles |
| RepCounting.InitialState | backend/app/services/rep_counter.py:15-20 | a new state is `idle`, last change at 0, with no down or up time recorded |
| RepCounting.Present | backend/app/services/rep_counter.py:98-99 | the present values of a left/right pair, left first: two entries exactly when both are present |
| RepCounting.MeanOfSides | backend/app/services/rep_counter.py:102-103 | the mean of a pair is the average of both sides when both are present, otherwise the one present side |
| RepCounting.Transition | backend/app/services/rep_counter.py:72-86 | a step is legal: the phase changes only up/idle to down or down to up, only after the dwell time, and stamps the change time. Reps grow by one exactly on a down to up change with a recorded down time. The phase moves whenever its condition holds and the dwell time has passed |
| RepCounting.PushUpFeedback | backend/app/services/rep_counter.py:88-93 | `brace core` appears exactly when the torso incline exceeds 15 degrees; `lock elbows` appears exactly when the elbow is below 160 degrees and the phase before the frame was `up`; each appears at most once and nothing else does, in that order |
| RepCounting.SquatFeedback | backend/app/services/rep_counter.py:122-126 | at most one tip. Depth praise exactly below 80 degrees; `go deeper` exactly when the knee is at least 80 and above 120 degrees while in `down`; otherwise no tip at all |
| RepCounting.PushUpStep | backend/app/services/rep_counter.py:58-94 | with no elbow angle nothing changes and no tip is given. Entering `down` implies a mean elbow below 70 and entering `up` a mean above 160. Conversely, from `up` or `idle` a mean below 70 after the dwell time does enter `down`, and from `down` a mean above 160 after the dwell time does enter `up`. Tips are judged against the phase before the frame |
| RepCounting.SquatStep | backend/app/services/rep_counter.py:96-127 | with no knee angle nothing changes. Entering `down` implies a mean knee below 90 with the hips below 100 or unknown; entering `up` implies a mean knee above 160. Conversely, each of those conditions, once the dwell time has passed from the right phase, does move the phase |
| RepCounting.Step | backend/app/services/rep_counter.py:129-136 | push-up frames are handled exactly by `PushUpStep` and squat frames exactly by `SquatStep`, and the update is a legal step |
| RepCounting.InitialInv | backend/app/services/rep_counter.py:15-20 | a new counter satisfies the bookkeeping invariant |
| RepCounting.RunKeepsInv | backend/app/services/rep_counter.py:73-86 | every run of frames keeps the invariant: `idle` has no recorded times, other phases have a down time, and `up` has an up time |
| RepCounting.RunRepsBounded | backend/app/services/rep_counter.py:84-86 | over any run, reps never decrease and grow by at most one per frame |
| RepCounting.RunCountsDownUpChanges | backend/app/services/rep_counter.py:79-86 | from an invariant state, reps grow by exactly the number of down to up changes in the run |
| RepCounting.FreshCounterCountsDownUpChanges | backend/app/services/rep_counter.py:29-34 | a fresh counter's reps equal the number of down to up changes it has seen |
| RepCounting.RunNeverReturnsToIdle | backend/app/services/rep_counter.py:73-83 | once out of `idle`, the counter never goes back to it |
| RepCounting.OnePushUp | backend/app/services/rep_counter.py:58-94 | bent elbows (60 degrees) at 200 ms then straight (170) at 400 ms counts one rep and ends `up` |
| RepCounting.PushUpRepCounted | backend/app/services/rep_counter.py:79-86 | from `down` after the dwell time, straight elbows (mean above 160) count one rep and enter `up` |
| RepCounting.SquatRepCounted | backend/app/services/rep_counter.py:114-120 | from `down` after the dwell time, straight knees (mean above 160) count one rep and enter `up` |
| RepCounting.RepCounter.constructor | backend/app/services/rep_counter.py:29-34 | a new counter is in the initial state with 0 reps and a 150 ms dwell by default |
| RepCounting.RepCounter.MovePhase | backend/app/services/rep_counter.py:72-86 | the in-place transition leaves the state the specification transition gives |
| RepCounting.RepCounter.UpdatePhasePushUp | backend/app/services/rep_counter.py:58-94 | the in-place push-up update matches `PushUpStep`, in state and in tips |
| RepCounting.RepCounter.UpdatePhaseSquat | backend/app/services/rep_counter.py:96-127 | the in-place squat update matches `SquatStep`, in state and in tips |
| RepCounting.RepCounter.OnFrame | backend/app/services/rep_counter.py:129-137 | the tick reports the new reps, phase and the step's tips. Reps grow by at most one, and the invariant is kept |
| PoseSampling.ClampFps | frontend/src/lib/pose/client.ts:27 | the rate lies in [5, 60]: 30 when absent, the target when in range, otherwise the nearer bound |
| PoseSampling.MapKeypointName | frontend/src/lib/pose/client.ts:104-140 | any result is one of the twelve joints. Missing or empty names give nothing. The snake_case table is matched against the lower-cased name and wins; names in neither table give nothing (both tables are finite maps; see Left out) |
| PoseSampling.LowerUnchanged | frontend/src/lib/pose/client.ts:107 | text with no ASCII capital and no KELVIN SIGN is unchanged by lower-casing |
| PoseSampling.LowerChar | frontend/src/lib/pose/client.ts:107 | the result is never an ASCII capital; an ASCII capital moves down by 32, and only capitals and the KELVIN SIGN change |
| PoseSampling.Lower | frontend/src/lib/pose/client.ts:107 | the same length, each character lower-cased on its own |
| PoseSampling.JointNamesRecognised | frontend/src/lib/pose/client.ts:108-122 | every canonical joint name maps to itself |
| PoseSampling.CamelNamesRecognised | frontend/src/lib/pose/client.ts:124-139 | every camelCase part name maps to its joint |
| PoseSampling.UpperCaseSnakeRecognised | frontend/src/lib/pose/client.ts:107-122 | `LEFT_KNEE` is found through the lower-cased lookup |
| PoseSampling.KelvinSignRecognised | frontend/src/lib/pose/client.ts:107 | a name written with the KELVIN SIGN lowers to an ASCII `k` and is found |
| PoseSampling.LowerCaseCamelUnknown | frontend/src/lib/pose/client.ts:124-139 | the camelCase table is case-sensitive: `leftknee` is unknown |
| PoseSampling.CanonicalName | frontend/src/lib/pose/client.ts:51 | the name (or the part when the name is empty) maps into the joint set or to nothing |
| PoseSampling.Label | frontend/src/lib/pose/client.ts:51 | the name when it is present and non-empty, otherwise the part |
| PoseSampling.FirstPoseKeypoints | frontend/src/lib/pose/client.ts:47 | the first pose's keypoints, or none when no pose was found |
| PoseSampling.Divisor | frontend/src/lib/pose/client.ts:54-55 | a zero frame size divides by 1, any other by itself |
| PoseSampling.Normalized | frontend/src/lib/pose/client.ts:54-56 | the stored coordinates times the divisor give back the pixel coordinates, and the score is kept |
| PoseSampling.MapKeypoints | frontend/src/lib/pose/client.ts:47-57 | the frame's keys are canonical joints |
| PoseSampling.MappedJoints | frontend/src/lib/pose/client.ts:49-57 | a joint is present exactly when some keypoint maps to it |
| PoseSampling.MappedPoints | frontend/src/lib/pose/client.ts:49-57 | a present joint's point is the normalised last keypoint that maps to it |
| PoseSampling.BuildKeypoints | frontend/src/lib/pose/client.ts:48-57 | the loop builds exactly the specified keypoint map |
| PoseSampling.Emission | frontend/src/lib/pose/client.ts:45-64 | at most one delivery, to the registered subscriber, stamped with the wall clock. The delivered map is exactly `MapKeypoints` of the first pose's keypoints and is non-empty. A detector error, an empty map or no subscriber delivers nothing, and otherwise one is delivered |
| PoseSampling.EmittedJoints | frontend/src/lib/pose/client.ts:47-61 | a joint is in the delivered frame exactly when some keypoint of the first pose maps to it |
| PoseSampling.AcceptedTicksSpaced | frontend/src/lib/pose/client.ts:35-44 | accepted samples are at least one frame interval after the previous sample and after each other |
| PoseSampling.Accepts | frontend/src/lib/pose/client.ts:35-44 | a tick samples exactly when the loop is running, the video has current data and a full frame interval has passed since the last sample |
| PoseSampling.AcceptedTimes | frontend/src/lib/pose/client.ts:35-44 | the sampled times of a run of ticks, at most one per tick |
| PoseSampling.StoppedAcceptsNothing | frontend/src/lib/pose/client.ts:35-38 | a sampler that is not running samples nothing |
| PoseSampling.PoseClient.constructor | frontend/src/lib/pose/client.ts:27-32 | the clamped rate; not running, handle and last time 0, no subscriber |
| PoseSampling.PoseClient.Tick | frontend/src/lib/pose/client.ts:34-66 | runs only as the scheduled callback. The loop always re-arms. An accepted tick records the time, calls the detector once and appends the emission; any other tick changes nothing else |
| PoseSampling.PoseClient.Start | frontend/src/lib/pose/client.ts:69-73 | starting twice schedules only once |
| PoseSampling.PoseClient.Stop | frontend/src/lib/pose/client.ts:74-77 | not running. The pending callback is cancelled when a handle was ever issued |
| PoseSampling.PoseClient.OnFrame | frontend/src/lib/pose/client.ts:78-80 | the last registration wins |
| PoseSampling.PoseClient.IsRunning | frontend/src/lib/pose/client.ts:81-83 | reports the running flag, and a running loop has a callback scheduled |
| Transport.BackendPortFor | frontend/src/lib/ws.ts:59 | the dev-server port 5173 becomes the backend port 8000, and any other port is kept |
| Transport.InferWSURL | frontend/src/lib/ws.ts:55-61 | `wss://` exactly when the page is `https:` (otherwise `ws://`), then the page's host name, and the URL ends in the backend port and `/ws/session`. Its length is exactly the sum of those parts and the colon, so nothing else is in it |
| Transport.ExerciseNamesUnreserved | frontend/src/lib/ws.ts:21 | both exercise names consist of characters URI-component encoding leaves alone |
| Transport.SessionUrl | frontend/src/lib/ws.ts:19-21 | the URL is the base followed by `?exercise=` and the exercise name |
| Transport.OverCeiling | frontend/src/lib/ws.ts:44 | a frame is dropped only with a non-empty buffer above the ceiling. For a ceiling that is not negative, it is dropped exactly when occupancy exceeds the ceiling |
| Transport.Utf8Length | frontend/src/lib/ws.ts:44 | the byte count `bufferedAmount` grows by: between one and four bytes per character, exactly one per character for ASCII text and more as soon as one character is not ASCII |
| Transport.SendThrough | frontend/src/lib/ws.ts:41-47 | when the socket is not open or is over the ceiling, nothing is written. Otherwise exactly the data is appended, and the buffer grows by its UTF-8 length |
| Transport.BufferStaysBounded | frontend/src/lib/ws.ts:40-48 | over any burst with nothing drained, occupancy stays within the ceiling plus the UTF-8 length of the longest frame |
| Transport.SendAllAppends | frontend/src/lib/ws.ts:40-48 | sending only appends, at most one write per frame, and earlier writes are kept in order |
| Transport.OverCeilingDropsAll | frontend/src/lib/ws.ts:44-46 | once over the ceiling with nothing drained, every later frame is dropped (no queueing, no retry) |
| Transport.WSClient.constructor | frontend/src/lib/ws.ts:18-24 | the base URL is the given one unless it is missing or empty (then the inferred one). The exercise defaults to `push_up`. The ceiling is 512 KiB only when absent, so an explicit 0 is kept |
| Transport.WSClient.Connect | frontend/src/lib/ws.ts:26-29 | a fresh connecting socket to the session URL |
| Transport.WSClient.Send | frontend/src/lib/ws.ts:40-48 | without a socket nothing happens. Otherwise the socket changes exactly as `SendThrough` says for the encoded frame |
| Transport.WSClient.HandleMessage | frontend/src/lib/ws.ts:30-37 | an unparsable message is ignored. A parsed value of any shape goes to the tick subscriber if one is set. Only the notification record changes: the socket and all three subscribers are kept |
| Transport.WSClient.HandleOpen | frontend/src/lib/ws.ts:28 | the open subscriber, if any, is notified once, and nothing but the notification record changes |
| Transport.WSClient.HandleClose | frontend/src/lib/ws.ts:29 | the close subscriber, if any, is notified once, and nothing but the notification record changes |
| Transport.WSClient.Close | frontend/src/lib/ws.ts:50-52 | safe without a socket. Otherwise the socket is closed once and starts closing if it was connecting or open; a closing or closed socket keeps its state, and the buffer is unchanged |
| CameraSource.IdealSize | frontend/src/lib/useUserMedia.ts:5-9 | each tier's size is landscape |
| CameraSource.GetConstraints | frontend/src/lib/useUserMedia.ts:27-37 | the tier's ideal size (720p when absent) and the facing mode (`user` when absent). An exact device id is present exactly when a non-empty one is given. Audio is never requested |
| CameraSource.SizeIdentifiesTier | frontend/src/lib/useUserMedia.ts:28-32 | two requests get the same ideal width (or height) exactly when they ask for the same tier, 720p when absent |
| CameraSource.NoOptionsConstraints | frontend/src/lib/useUserMedia.ts:28-36 | no options ask for 1280x720, user-facing, any device, no audio |
| CameraSource.EmptyDeviceIdIgnored | frontend/src/lib/useUserMedia.ts:34 | an empty device id is the same as none |
| CameraSource.ErrorMessage | frontend/src/lib/useUserMedia.ts:69-74 | `NotAllowedError` gives the permission message, and `NotFoundError`/`OverconstrainedError` give the not-found message. Anything else gives its own message, or its string form when that is empty |
| CameraSource.UnsupportedShowsItsMessage | frontend/src/lib/useUserMedia.ts:58-60 | a browser without the media API shows "Camera is not supported in this browser." |
| CameraSource.UnsupportedError | frontend/src/lib/useUserMedia.ts:59 | the error carries "Camera is not supported in this browser." and is none of the three named browser errors |
| CameraSource.MessageNonEmpty | frontend/src/lib/useUserMedia.ts:69 | an error with a message or a string form always yields a non-empty message |
| CameraSource.VideoInputs | frontend/src/lib/useUserMedia.ts:84 | only `videoinput` entries, drawn from the list, and every camera of the list is kept |
| CameraSource.VideoInputsAppend | frontend/src/lib/useUserMedia.ts:84 | the filter keeps the original order (it distributes over concatenation) |
| CameraSource.VideoInputsKeepsCameras | frontend/src/lib/useUserMedia.ts:84 | a list of cameras only is kept whole |
| CameraSource.UserMedia.constructor | frontend/src/lib/useUserMedia.ts:39-44 | no stream, no error, inactive, no devices, no tracks held |
| CameraSource.UserMedia.Stop | frontend/src/lib/useUserMedia.ts:46-51 | every held track is stopped, then none is held, there is no stream, and it is inactive. Safe when nothing is held |
| CameraSource.UserMedia.RefreshDevices | frontend/src/lib/useUserMedia.ts:80-88 | a successful enumeration replaces the list with its cameras. Otherwise the list is unchanged |
| CameraSource.UserMedia.Start | frontend/src/lib/useUserMedia.ts:53-78 | previously held tracks are stopped, and the request uses the given or initial options. On success exactly the new tracks are held, it is active and the devices are refreshed. On failure it is inactive with no tracks and the classified message |
| Hud.PhaseColor | frontend/src/components/RepCounterHUD.tsx:10 | `up` is green `#2ecc71`, `down` is orange `#e67e22`, and anything else is grey `#95a5a6` |
| Hud.PhaseColorsDistinguishPhases | frontend/src/components/RepCounterHUD.tsx:10 | two tick phases get the same colour exactly when they are the same phase |
| Hud.NatDigits | frontend/src/components/RepCounterHUD.tsx:34 | at least one decimal digit, with no leading zero |
| Hud.DigitsRoundTrip | frontend/src/components/RepCounterHUD.tsx:34 | reading the printed digits back gives the number |
| Hud.RepsLabel | frontend/src/components/RepCounterHUD.tsx:34 | `Reps: ` followed by a decimal that reads back as the reps value |
| Hud.DecimalString | frontend/src/components/RepCounterHUD.tsx:34 | a minus sign exactly for a negative number, followed by decimal digits only, and the text reads back as the number |
| Hud.TipLine | frontend/src/components/RepCounterHUD.tsx:62 | no tips give `Getting ready...`, and a single tip is shown unchanged with no separator |
| Hud.TipTextAsWritten | frontend/src/components/RepCounterHUD.tsx:62 | with the separator as written: no tips give `Getting ready...` and a single tip is shown unchanged |
| Hud.TipText | frontend/src/components/RepCounterHUD.tsx:62 | with the intended bullet separator: no tips give `Getting ready...` and a single tip is shown unchanged |
| Hud.TipAtOffset | frontend/src/components/RepCounterHUD.tsx:62 | every tip appears unchanged, in order, at its offset, followed by the separator unless it is last |
| Hud.TipLineAppend | frontend/src/components/RepCounterHUD.tsx:62 | the line for two lists in a row is their two lines with one separator between them |
| Hud.TwoTips | frontend/src/components/RepCounterHUD.tsx:62 | two tips are shown as the first, the separator, then the second |
| Hud.AsWrittenShowsNoBullet | frontend/src/components/RepCounterHUD.tsx:62 | with the separator as written, two tips show the stray characters `â€¢` between them and no bullet |
| Hud.BulletBetweenTips | frontend/src/components/RepCounterHUD.tsx:62 | with the intended separator, two tips have a bullet between them |
| Cors.Split | backend/app/main.py:16 | at least one piece, no piece contains the separator, and joining the pieces gives back the input |
| Cors.SplitJoin | backend/app/main.py:16 | splitting undoes joining pieces that are free of the separator |
| Cors.SplitAppend | backend/app/main.py:16 | splitting `a,b` gives the pieces of `a` then those of `b` |
| Cors.StrippedNonBlank | backend/app/main.py:16 | at most one entry per piece; every entry is non-empty with no surrounding whitespace |
| Cors.NothingKeptIffAllBlank | backend/app/main.py:16 | nothing is kept exactly when every piece is blank |
| Cors.StrippedNonBlankAppend | backend/app/main.py:16 | the comprehension distributes over concatenation, so order is kept |
| Cors.CorsOrigins | backend/app/main.py:16 | every origin is non-empty with no surrounding whitespace |
| Cors.GetCorsOrigins | backend/app/main.py:14-16 | an unset variable uses the two development origins as the setting; a set one, even empty, is parsed as it is |
| Cors.EmptySettingAllowsNothing | backend/app/main.py:15-16 | a variable set to the empty string allows no origin (the default is not used) |
| Cors.OriginsOfJoinedConfig | backend/app/main.py:16 | the origins of `a,b` are those of `a` followed by those of `b` |
| Cors.OriginsOfSegment | backend/app/main.py:16 | a comma-free segment gives its stripped form, or nothing when blank |
| Cors.NoOriginsIffBlank | backend/app/main.py:16 | no origin at all exactly when the setting holds only whitespace and commas |
| Cors.JoinAllIn | backend/app/main.py:16 | a joined string is all whitespace and separators exactly when every piece is all whitespace |
| Cors.OriginsOfCleanSegment | backend/app/main.py:16 | a clean comma-free segment is kept as it is |
| Cors.DefaultOriginsSegments | backend/app/main.py:15 | the default setting is the two development origins joined by a comma |
| Cors.DefaultSegmentsKept | backend/app/main.py:15-16 | each default origin is kept as it is |
| Cors.DefaultCorsOrigins | backend/app/main.py:14-16 | with the variable unset, exactly `http://localhost:5173` and `http://127.0.0.1:5173`, in that order |
| Onboarding.InitialForm | frontend/src/pages/Onboarding.tsx:11-17 | goal `general_fitness`, level `beginner`, constraints empty, no equipment, 3 days, and valid |
| Onboarding.WithEquipment | frontend/src/pages/Onboarding.tsx:39 | the item becomes the last entry; earlier entries and every other field are unchanged |
| Onboarding.AppendKeepsTrimmed | frontend/src/pages/Onboarding.tsx:38-39 | appending the trimmed form of non-blank input keeps every entry non-empty and trimmed |
| Onboarding.OnboardingForm.constructor | frontend/src/pages/Onboarding.tsx:11-18 | the initial form and an empty input box |
| Onboarding.OnboardingForm.SetEquipmentInput | frontend/src/pages/Onboarding.tsx:88 | the box holds the typed value and the form is unchanged |
| Onboarding.OnboardingForm.AddEquipment | frontend/src/pages/Onboarding.tsx:37-41 | blank or whitespace-only input changes nothing. Otherwise the trimmed input is appended as the last entry and the box is emptied. Every entry stays trimmed |
| Onboarding.AddTwiceListsTwice | frontend/src/pages/Onboarding.tsx:39 | entries are not deduplicated |
| Onboarding.AddedEntryIsTrimmed | frontend/src/pages/Onboarding.tsx:39 | the added entry is non-empty and trimmed, and trimming it again changes nothing |

## Left out

- Joint-angle geometry (`backend/app/services/angles.py`) and One-Euro smoothing (`backend/app/services/filters.py`) are floating-point numerics. The counter takes the filtered angle map as input (`RepCounter.OnFrame`'s `filtered` parameter), and `_angles` is not modelled.
- The squat ankle history (`_ankle_hist`, rep_counter.py:36) is never read and is not modelled.
- Floating point is modelled as exact `real`. NaN and infinities are not represented, so an elbow angle of NaN (which fails every comparison in the source) has no counterpart.
- RepCounting.RepCounter.OnFrame: the frame's timestamp and filtered angles are parameters, not a `PoseFrame`, because the angle computation and filter are outside the model.
- The TF.js detector, its lazy loading (`ensureDetector`) and the `flipHorizontal` option are not modelled. Each tick's detector result is a parameter (`Detection`).
- `requestAnimationFrame`, `cancelAnimationFrame`, `performance.now()` and `Date.now()` are parameters of `PoseClient.Tick`/`Start`. `PoseClient.pending` stands for "a callback is scheduled".
- PoseSampling.PoseClient.Tick: each tick is atomic, so a `stop()` issued while the detector call is awaited is not modelled. In the source such a tick still delivers its frame and re-arms the loop, which then keeps polling while stopped.
- The `!video` check in the pose loop is not modelled; the video element is always present.
- PoseSampling.MapKeypointName: both name tables are finite maps. In the source they are plain object literals, so inherited property names (`constructor`, `__proto__`, `toString`, `valueOf`, ...) also find a truthy value, and such a name would be written into the frame under a non-joint key; that case is not modelled.
- Hud.DecimalString: integers are unbounded. JavaScript's `String` switches to exponent form from 1e21 on, and a JSON number above 2^53 loses precision; neither is modelled.
- PoseSampling.LowerChar: JavaScript lower-casing is modelled only for what an all-ASCII table lookup can observe (ASCII capitals and the KELVIN SIGN). Other characters are left as they are.
- Keypoint coordinates and scores are not checked for range, and frames are not typed against the backend schema's validation.
- The browser WebSocket is a recording fake (`FakeSocket`). How `bufferedAmount` drains, when the socket opens, and network errors are not modelled.
- Transport.Utf8Length: text is a sequence of Unicode scalar values, so a JavaScript string holding a lone surrogate (which the browser sends as the three-byte U+FFFD) has no counterpart.
- `JSON.stringify` is the `encode` parameter of `WSClient.Send`, and `JSON.parse` is the `parsed` parameter of `WSClient.HandleMessage`. A subscriber callback that throws is not modelled.
- `encodeURIComponent` is not modelled in general. `ExerciseNamesUnreserved` shows it is the identity on both exercise names.
- Transport.WSClient.Connect: an earlier socket is replaced without being closed, as in the source, and its pending events are not modelled.
- Callbacks (`onTick`, `onOpen`, `onClose`, the pose subscriber) are tokens (`nat`), and invoking one is recorded as a notification.
- React state batching, effects (the mount-time device refresh and unmount `stop`), `useCallback` identity and asynchronous interleaving of `start` calls are not modelled.
- `navigator.mediaDevices`: API presence, the `getUserMedia` outcome and the `enumerateDevices` outcome are parameters of `UserMedia.Start`/`RefreshDevices`. A thrown value's `name`, `message` and `String(e)` are given as a `ThrownError`.
- The UI render trees (layout, styles, form inputs other than the equipment box), `onSubmit` with its network call and `localStorage`, `CameraView.tsx`, `Live.tsx`, `Plan.tsx` and `main.tsx` are wiring with no logic to model.
- The backend routers, websocket session loop, database tables (`PlanRow`, `ReferenceTemplateRow`), `WorkoutPlan` with its uuid and clock defaults, and the LLM plan generator are not part of this model.
- Pydantic coercion and `HttpUrl` validation are not modelled. `image_url` is an optional string.
- No session controller connects the pose sampler to `WSClient` in the source, and there is no skeleton renderer, so neither is modelled.
- The onboarding form does not enforce days per week in 1..7 (only the HTML input bounds it), and neither does the model.

## Findings

| source | as written | input that shows it | evidently intended | confidence | as-written member | corrected member |
|---|---|---|---|---|---|---|
| frontend/src/components/RepCounterHUD.tsx:62 | the tips are joined with `' â€¢ '`, the UTF-8 bytes of a bullet decoded as Windows-1252 (U+00E2 U+20AC U+00A2) | tips `["brace core (hips high)", "lock elbows at top"]` are shown as `brace core (hips high) â€¢ lock elbows at top` | a bullet `' • '` (U+2022) between tips | high; not executed | Hud.AsWrittenShowsNoBullet | Hud.BulletBetweenTips |
