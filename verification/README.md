# Verified model of the pet context service

The service watches a pet through one camera. A detector finds boxes in each frame; a tracker gives
the boxes identities; presence machines, a movement heuristic and a state engine turn tracks into a
published context; an appearance vote puts a name on a lone cat; an event store merges the published
contexts into a table of intervals and answers day timelines from it. A replay feeds the same tracker
and engine from a file of boxes, and an acceptance monitor checks what is published.

This project models those parts in Dafny and proves what they promise over whole runs. Every part
comes in up to three layers:

- the function: one step of the part as a function of its state and input, branch by branch as in the
  source (`IntervalTable`, `Timeline`, `Matching`, `Tracking`, `Presence`, `Activity`, `Engine`,
  `Appearance`, `Service`, `Replay`, `ReplayLaws`);
- the class: the part as the source has it, an object that updates its fields in loops and branches,
  proved to do exactly what the function says (`EventStore`, `BoxTracker`, `PresenceState`,
  `PetActivity`, `ContextEngine`, `PetAppearance`, `Monitor`, `ContextService`, `TrackingReplay`);
- the laws: what holds in every run, stated in terms of the inputs received so far and not in terms of
  the steps (`IntervalTable`, `TimelineLaws`, `ReferenceLaws`, `Acceptance`, `Matching`, `ScoreLaws`,
  `TrackerLaws`, `TrackerRuns`, `SightingLaws`, `Presence`, `ActivityTrace`, `ActivityLaws`, `MotionLaws`,
  `EngineLaws`, `StoryLaws`, `MonitorLaws`, `LiveLaws`, `Service`, `Chronicle`, `LabelLaws`, `Reading`,
  `RowLaws`, `ReplayLaws`, `ReplayChronicle`).

## How the main results are stated

**Interval table and timeline.** The reference rule is `StateAt`: keep the samples that are strictly
newer than all before them; a second has the state of the latest sample at or before it, if that is
less than five seconds old, and is unknown otherwise. `Stores` says that the rows of a source form a
chain and agree with that rule second by second; every call of the writer keeps it, whatever other
sources write in between. `Renders` says that a list of intervals tiles a window, shows the reference
state throughout and is cut only where the reference is cut. A window has one rendering
(`OneRendering`), so equal meanings give equal answers: that is how past answers are shown not to
change. `SweepNeedsTheChain` gives a table, not one the writer can leave, on which the sweep counts
seconds twice; the writer's invariant is what rules it out.

**Tracker.** The greedy association over the sorted candidates is the only stable one (`Stable`: every
rejected candidate shares its track or its detection with a chosen one that precedes it), it is maximal,
and no one-to-one association within the gates has more than twice as many pairs. After every
successful update the detections and the observed tracks are in bijection. Over whole runs with
restarts every box is a measured one, ids are never reused and never change class, and consecutive
sightings of an id are close in time.

**Activity.** `Trail` is the unbroken series of confirmed sightings of one track that ends a log, and
`BeliefsExplained` says that the heuristic's deque and timers are functions of that series.
Every label is then traced to what was seen: active to sustained motion less than eight seconds ago,
resting to at least ten sightings over twenty seconds that are close together, held to the last confirmed sighting,
out of view to its absence.

**Engine.** `Recall` reads off the inputs which observations are taken and which ticks find the camera
lost, and `RunIsStory` says that presence machines, movement heuristic and events are shown and tell just
that. `MovesExact` and `StillExact` say what the two geometric tests measure on true boxes.

**Composition.** `ServiceIsChronicle` says that the service is its parts fed in step, in terms of the
turns alone, and `ReplayIsRecord` the same of a replay. In every run of the live loop every published
context counts the observed cat tracks, is offline exactly when the camera is, never shows several cats
active or resting, and passes the monitor; the events in the store are exactly the changes of state; and
every active, resting and out of view that is served is traced to what the frames showed. A replay
commits exactly the maximal equal-time groups of its rows, in order; a malformed row commits nothing; no
frame is ever late for the tracker or rejected or ignored by the engine; and which group ends a replay,
and why, is told exactly from the group and the tracks.

## Where the source and its documentation or its own promises differ

- docs/development/pet-poc.md:32 says that a missed detection is held for two seconds;
  src/domain/pet_activity.cc:95 holds for three. The model follows the code.
- The appearance vote promises sightings at most three seconds apart
  (src/perception/pet_appearance.cc:127-131). The code uses the epoch of the clock as "never seen", so
  the gap before the next sighting is not checked after a sighting at the epoch itself. `Adjoins` states the
  condition under which neighbours are close, `LateVoteCounts` that a late vote counts exactly in that case, and
  `EpochSkipsTheGap` gives an input.
- Running out of room in the tracker is noticed after tracks have been changed
  (src/perception/box_tracker.cc:141-143); the model keeps the half-changed state and ends the run there.

## Conventions

Time is an integer number of nanoseconds, wall-clock stamps are whole UTC seconds, coordinates and
confidences are reals. Exceptions are results of type `Result` or `Option`. `hypot` and `log` are
parameters. The laws about true distances assume that `hypot` is the length of a vector (`IsHypot`), and
those about unchanged areas that `log` of 1 is 0; nothing else is assumed of them. The laws write every
limit of the source out as a number (nanoseconds for times on the clock), so that they do not depend on
the names the model has for them. The other laws of the movement heuristic see the two geometric tests
as arbitrary predicates (`Senses`), and the loops see the tracker as a function value (`TrackerStep`):
the laws that need more say so. `Door` (in `Common`) stands in front of two class invariants whose
bodies are long: a proof that only hands such an invariant on need not look at it, and one that uses it
asserts `Door(0)`.

## Model

The main results are marked; the other rows are the steps that lead to them and the methods proved against
the functions they are about.

| member | source | states |
|---|---|---|
| IntervalTable.SourcesAreIndependent | src/storage/event_store.cc:123-174 | writing one sample acts on the rows of its own source as on a table of its own, and leaves the rows of every other source untouched |
| IntervalTable.WriteState | src/storage/event_store.cc:159-173 | after a newer sample the rows show its state from its second on for five seconds, and before it exactly what they showed, with the old tail cut there |
| IntervalTable.WriteCut | src/storage/event_store.cc:159-173 | where rows begin and end after a newer sample: a new cut at the sample only if it does not prolong the open row |
| IntervalTable.WriteChain | src/storage/event_store.cc:159-173 | the writer keeps its chain: rows contiguous, only the last open, closed rows of positive length ending at most five seconds past the last sample behind them |
| IntervalTable.WriteStores | src/storage/event_store.cc:157-174 | one newer sample keeps the agreement between rows and accepted samples |
| IntervalTable.TableMeaning | src/storage/event_store.cc:106-182 | **Main result.** for every log of calls over any interleaving of sources (duplicates, regressions, gaps, held samples), the rows of a source form a chain and agree with the reference rule on its accepted samples at every second |
| IntervalTable.RowsAreOpened | src/storage/event_store.cc:142-172 | every row is unknown filler with confidence 0 or begins with a recorded context: with its state and confidence, or unknown with confidence 0 if that context was held |
| Timeline.AnswerRenders | src/storage/event_store.cc:195-243 | the clipping sweep over a chain yields the rendering of the reference rule on the window, and its totals are the per-state sums |
| Timeline.OrderedAlready | src/storage/event_store.cc:197-199 | the rows of a chain are already in the order the query asks for |
| TimelineLaws.TimelineMeaning | src/storage/event_store.cc:188-253 | **Main result.** every answer, for every log and window, tiles the window with no gap, overlap or empty interval, shows the reference rule, and totals it |
| TimelineLaws.EverySecond | src/storage/event_store.cc:214-243 | every second of a window lies in exactly one interval, which shows the state of the reference rule at that second |
| TimelineLaws.OneRendering | src/storage/event_store.cc:214-243 | **Main result.** two samplings that agree on a window have the same interval list there: an answer is determined by its meaning |
| TimelineLaws.PastUnchanged | src/storage/event_store.cc:157-174 | **Main result.** recording a sample at a time leaves intervals and totals of every query that looks no further than that time identical |
| TimelineLaws.LaterExtends | src/storage/event_store.cc:195 | **Main result.** asking later only extends an answer: cut short at the earlier moment it is the earlier answer |
| TimelineLaws.SecondsMeaning | src/storage/event_store.cc:225 | the seconds summed for a state are the seconds of the window that have that state by the reference rule |
| TimelineLaws.TotalsMeaning | src/storage/event_store.cc:203-253 | the totals list the five states, count their reference seconds and add up to the length of the window up to now |
| TimelineLaws.AdjacentWindows | src/storage/event_store.cc:183-187 | **Main result.** windows that meet neither lose nor double count a second of any state |
| TimelineLaws.ReportedSecondsBounded | src/storage/event_store.cc:116-117 | **Main result.** no window reports more known seconds than five per accepted sample whose recorded state is known |
| TimelineLaws.SweepNeedsTheChain | src/storage/event_store.cc:233-238 | a table outside the writer's invariant on which the sweep emits overlapping intervals and counts 12 of 10 seconds |
| ReferenceLaws.AnswerMeans | src/storage/event_store.cc:115-243 | **Main result.** told from the recorded contexts alone: each second of a window lies in one interval, which shows a known state exactly if the latest context that counts there (strictly newer than all of its source before it) is less than five seconds old, shows that state and is not held |
| ReferenceLaws.HeldIsUnknown | src/storage/event_store.cc:115-117 | a held context newer than everything of its source leaves its second unknown in every answer |
| ReferenceLaws.NeighboursDiffer | src/storage/event_store.cc:160-173 | intervals of an answer are never empty, meet without a gap, and an interval of a known state is followed by another state |
| EventStore.ValidMeans | src/storage/event_store.cc:107-114 | a context is recorded exactly with a time from 1970 on, a source, and one of the five states |
| EventStore.EventStore.Append | src/storage/event_store.cc:61-74 | an event is added at the end and nothing else changes |
| EventStore.EventStore.RecordContext | src/storage/event_store.cc:106-182 | a call is rejected exactly for a time before 1970, an empty source or an unknown state, and then changes nothing; otherwise the table becomes the table of the longer log |
| EventStore.EventStore.WindowTimeline | src/storage/event_store.cc:188-255 | refuses exactly the windows outside the allowed range, and otherwise answers with the one rendering of the reference rule on the samples recorded so far |
| EventStore.EventStore.DayTimeline | src/storage/event_store.cc:183-187 | a UTC day is never refused, and its answer is the rendering of that day up to now |
| Acceptance.ValidateTimeline | scripts/verify_runtime.py:45-63 | accepts exactly the answers whose intervals chain from midnight within the day with true durations and whose totals are the measured ones |
| Acceptance.AcceptedAnswers | scripts/verify_runtime.py:45-63 | **Main result.** the monitor accepts an answer of the store exactly when it is empty or starts at midnight UTC and stays within that day |
| Acceptance.UtcDaysAccepted | scripts/verify_runtime.py:45-63 | the monitor accepts every UTC-day answer of the store, whenever it is asked for |
| Geometry.Iou | src/perception/box_tracker.cc:20-25 | the overlap ratio of two boxes of positive size lies between 0 and 1 |
| Geometry.OverlapBounds | src/perception/box_tracker.cc:21-23 | the intersection is no larger than either box |
| Geometry.IouLaws | src/perception/box_tracker.cc:20-25 | the overlap ratio is symmetric, and 1 for a box and itself |
| Geometry.ValidOrUnusable | src/perception/box_tracker.cc:26-35 | a detection is accepted exactly if no field of it is out of the stated bounds |
| ScoreLaws.SpanExact | src/perception/box_tracker.cc:21-22 | the span of two segments is where both are: a point lies on both exactly if it lies between the later start and that start plus the span |
| ScoreLaws.IouExact | src/perception/box_tracker.cc:20-25 | the overlap ratio times the joint area is the common area |
| ScoreLaws.VelocityNearest | src/perception/box_tracker.cc:115-120 | **Main result.** among all speeds of at most half a frame per second the one kept comes nearest to the movement between the two sightings |
| ScoreLaws.PredictedNearest | src/perception/box_tracker.cc:74-79 | **Main result.** the predicted corner is the place inside the frame nearest to where the last speed leads, and the size stays |
| ScoreLaws.ScoreExact | src/perception/box_tracker.cc:80-95 | **Main result.** a pair is a candidate exactly if the classes agree, the measured area is between two fifths and five halves of the predicted one, and the boxes overlap enough or the centres are near enough; a tenth of the true distance is taken off the overlap ratio |
| Tracking.PredictionInside | src/perception/box_tracker.cc:75-79 | the predicted box keeps its size and stays inside the frame |
| Tracking.SteadyMotionPredicted | src/perception/box_tracker.cc:115-120 | a target that keeps moving as between its last two sightings is predicted where it will be after the same time again |
| Tracking.ScoreMeans | src/perception/box_tracker.cc:80-95 | a gated pair agrees in class, is alike in area and overlaps or is near; no score exceeds 1, and a target at rest found where it was scores 1 |
| Matching.ByScoreSorts | src/perception/box_tracker.cc:98-106 | sorting lists the same candidates in the strict order of score, track and detection |
| Matching.OneOrder | src/perception/box_tracker.cc:98-106 | the order is strict, so any way of sorting gives the same list |
| Matching.StableIsGreedy | src/perception/box_tracker.cc:107-130 | **Main result.** the greedy choice is the only one-to-one choice in which every rejected candidate clashes with a chosen one before it |
| Matching.HalfOfAnyMatching | src/perception/box_tracker.cc:107-130 | **Main result.** a stable choice is maximal and at least half as large as any one-to-one choice |
| Matching.MovedStable | src/perception/box_tracker.cc:95-106 | with distinct scores a stable choice moves with the detections when these are listed in another order |
| Tracking.CandidatesExact | src/perception/box_tracker.cc:71-97 | the candidates are exactly the pairs that pass the gates of class, area ratio and place, with their scores, each listed once |
| Tracking.ChosenIsTheStableOne | src/perception/box_tracker.cc:71-130 | **Main result.** the association of an update is the one stable association of the gated pairs |
| Tracking.SpawnRoom | src/perception/box_tracker.cc:137-154 | new tracks fit exactly when places and ids suffice for all unmatched detections |
| Tracking.SpawnPlace | src/perception/box_tracker.cc:144-153 | every unmatched detection gets the next place and the next id, in order |
| Tracking.SpawnShape | src/perception/box_tracker.cc:107-154 | after an update the survivors stand in their places as their own pair says, and behind them one new track per unmatched detection |
| TrackerLaws.AssociationQuality | src/perception/box_tracker.cc:80-130 | no gated pair can be added to the association, and no one-to-one association within the gates has more than twice as many pairs |
| TrackerLaws.OrderOfDetectionsIrrelevant | src/perception/box_tracker.cc:95-130 | with distinct scores the order of the detections does not change what a surviving track becomes |
| TrackerLaws.ShuffledFramesAgree | src/perception/box_tracker.cc:50-136 | **Main result.** if no two candidates score the same, the same detections in another order are accepted too, and leave identical surviving tracks |
| TrackerLaws.UpdateShape | src/perception/box_tracker.cc:50-162 | a successful update in one statement: expiry, survivors, new tracks, ids and clock |
| TrackerLaws.DetectionsAreObservedTracks | src/perception/box_tracker.cc:107-161 | **Main result.** after every successful update detections and observed tracks are in bijection, with equal class, box and confidence |
| TrackerLaws.CapacityExact | src/perception/box_tracker.cc:141-143 | **Main result.** an update not refused beforehand fails exactly when the unmatched detections do not fit beside the survivors or the ids run out |
| TrackerLaws.RefusalsExact | src/perception/box_tracker.cc:50-60 | **Main result.** exactly when an update is refused for too many detections (more than 256), for an unusable one, or for its time |
| TrackerLaws.RoomExact | src/perception/box_tracker.cc:137-154 | an update that is not refused succeeds exactly if survivors and unmatched detections are at most 256 and the ids stay below the largest 64-bit number |
| TrackerLaws.RejectedLoses | src/perception/box_tracker.cc:98-112 | a gated pair that is not chosen loses its track or its detection to a chosen pair of a higher score, or of the same score and an earlier place |
| TrackerLaws.SurvivalExact | src/perception/box_tracker.cc:61-65 | a track is still carried after an update exactly if it was last seen less than the expiry limit ago |
| TrackerLaws.TrackOrigin | src/perception/box_tracker.cc:61-65 | every track after an update continues one live track (same id, same class; seen again within the limit and counted once more, or unchanged) or is new with the next fresh id, one hit and no speed |
| TrackerLaws.UpdateKeepsSound | src/perception/box_tracker.cc:50-162 | every update keeps boxes valid, ids strictly increasing from 1 below the next id, sightings no later than the last update, and confirmation and status in line with the number of hits |
| TrackerLaws.UpdateRefusals | src/perception/box_tracker.cc:52-60 | the only refusals are those found before anything changes, and running out of room |
| TrackerRuns.BoxesAreMeasured | src/perception/box_tracker.cc:116-124 | **Main result.** in every run the box of every track is, unchanged, a detection of its class in the frame received at its last sighting |
| TrackerRuns.TimesIncrease | src/perception/box_tracker.cc:58-60 | frames accepted between two restarts come at strictly increasing times |
| TrackerRuns.IdsNeverReturn | include/coco/perception/box_tracker.h:23-24 | **Main result.** an id that has been dropped is never carried by any track again, restarts included |
| TrackerRuns.IdsKeepTheirClass | src/perception/box_tracker.cc:82-84 | **Main result.** an id never changes its class over a whole run |
| TrackerRuns.SightingsAreClose | src/perception/box_tracker.cc:61-65 | one update: a track that survives was last seen more than nothing and less than the expiry limit ago |
| TrackerRuns.ConsecutiveSightingsAreClose | src/perception/box_tracker.cc:58-65 | **Main result.** over a whole run, restarts and refused frames included: two sightings of an id with none in between are more than nothing and less than the expiry limit apart |
| SightingLaws.HitsAreSightings | src/perception/box_tracker.cc:113-153 | **Main result.** in every run, restarts and refused frames included, the hits of a track are the number of accepted frames in which its id was seen |
| SightingLaws.ConfirmedExact | src/perception/box_tracker.cc:125-152 | **Main result.** a track is confirmed exactly from the configured number of sightings of its id on, and shown as confirmed, tentative or lost accordingly |
| SightingLaws.LateExact | src/perception/box_tracker.cc:46-60 | **Main result.** a frame is refused as late exactly if it is no later than some frame accepted since the last restart |
| BoxTracker.BoxTracker.Create | src/perception/box_tracker.cc:38-45 | a tracker exists exactly for a valid configuration, and starts empty with next id 1 |
| BoxTracker.BoxTracker.Reset | src/perception/box_tracker.cc:46-49 | clears the tracks and keeps the next id |
| BoxTracker.BoxTracker.Update | src/perception/box_tracker.cc:50-162 | the in-place update leaves the state and returns the snapshots or the refusal that the update function says; refused arguments change nothing |
| BoxTracker.BoxTracker.Check | src/perception/box_tracker.cc:52-60 | finds the first reason to refuse a frame |
| BoxTracker.BoxTracker.Collect | src/perception/box_tracker.cc:71-106 | the sorted candidates lead to the one stable association |
| BoxTracker.BoxTracker.Associate | src/perception/box_tracker.cc:107-130 | the walk marks and applies exactly the greedy choice |
| BoxTracker.BoxTracker.MarkLost | src/perception/box_tracker.cc:131-136 | exactly the unmatched tracks become lost and unobserved |
| BoxTracker.BoxTracker.AddNew | src/perception/box_tracker.cc:137-154 | adds the new tracks, or stops at the first unmatched detection that finds no room, with those before it already added |
| Presence.PendingMeans | src/domain/presence_state.cc:9-17 | what is pending is the last look, since its unbroken stretch began |
| Presence.StretchAgrees | src/domain/presence_state.cc:9-17 | the stretch is exactly the last looks that report the same as the last one |
| Presence.TransitionExact | src/domain/presence_state.cc:9-24 | **Main result.** presence changes exactly when an unbroken stretch of agreeing looks spans one second (visible), five (out of view) or none (offline) |
| Presence.StateHasStretch | src/domain/presence_state.cc:9-24 | a presence shown was entered by an unbroken stretch: at least one second of online looks at the target, five of online looks without it, or an offline look; and it has stood since |
| Presence.PresenceState.Update | src/domain/presence_state.cc:6-25 | the machine takes the step of the function, and an event tells exactly the changes |
| ActivityTrace.TrailShape | src/domain/pet_activity.cc:38-43 | the trail holds sightings of one track, neighbours at most three seconds apart, ending at the last confirmed sighting |
| ActivityTrace.BeliefsExplained | src/domain/pet_activity.cc:34-118 | **Main result.** deque, motion timer, track and last confirmation are functions of the trail, whatever came before it |
| ActivityLaws.ReadExact | src/domain/pet_activity.cc:14-37 | **Main result.** exactly how a context is read: offline, several cats detected or tracked, the one tracked cat if it is the only one detected and confirmed, or a miss |
| ActivityLaws.ChangedExact | src/domain/pet_activity.cc:120-124 | the time kept beside the state is that of its last change |
| MotionLaws.MovesExact | src/domain/pet_activity.cc:45-56 | **Main result.** a sighting moves exactly if it is later than the one before and its true centre has travelled more than 0.03 of the frame per second, or the logarithm of its area has changed by more than 0.12 per second |
| MotionLaws.SameSizeMoves | src/domain/pet_activity.cc:49-54 | a box of unchanged area moves exactly by travelling |
| MotionLaws.SustainedIsReal | src/domain/pet_activity.cc:57-63 | two seconds of sustained motion are exactly two seconds over which one track has really moved at every sighting |
| MotionLaws.StillCatNeverActive | src/domain/pet_activity.cc:45-90 | **Main result.** a cat whose box never changes is never shown as active, in any run |
| MotionLaws.StillExact | src/domain/pet_activity.cc:71-83 | **Main result.** boxes inside the frame are still exactly if the spread of their centres has a diagonal of at most 0.03 and no area is more than a quarter above another |
| ActivityLaws.WindowExact | src/domain/pet_activity.cc:64-69 | **Main result.** the deque is exactly the suffix of the trail that keeps one sighting at or before the twenty-second boundary |
| ActivityLaws.TimerExact | src/domain/pet_activity.cc:57-63 | the motion timer has run two seconds exactly when the track has moved at every sighting for at least two seconds |
| ActivityLaws.SightingVerdict | src/domain/pet_activity.cc:84-90 | what state and confidence a confirmed sighting leads to, in terms of past sightings only |
| ActivityLaws.EvidenceExact | src/domain/pet_activity.cc:9-119 | evidence and age shown are determined by the last reading and the time since the last confirmed sighting; state and confidence are kept exactly on held evidence, and otherwise say offline, out of view or unknown without confidence |
| ActivityLaws.ActiveTraced | src/domain/pet_activity.cc:84-99 | active was entered at sustained motion, and the last confirmed sighting is at most three seconds old and less than five after sustained motion |
| ActivityLaws.ActiveHasWitness | src/domain/pet_activity.cc:84-99 | **Main result.** active is shown strictly less than eight seconds after a sighting that completed two seconds of motion |
| ActivityLaws.RestingHasWindow | src/domain/pet_activity.cc:64-83 | a resting decision has at least ten sightings of one track, neighbours at most three seconds apart, the oldest at least 20 and under 23 seconds old, all still |
| ActivityLaws.StillMeans | src/domain/pet_activity.cc:71-83 | although extremes are folded from 1 and 0, still means true centres within 0.03 and areas within 1.25 of each other |
| ActivityLaws.RestingIsClose | src/domain/pet_activity.cc:64-88 | **Main result.** a resting decision means that all sightings of its window are of one track, with true centres within 0.03 and areas within 1.25 of each other |
| ActivityLaws.HeldHasSighting | src/domain/pet_activity.cc:94-99 | **Main result.** held evidence has a confirmed sighting at most three seconds earlier, with only misses since, and shows that sighting's state and confidence |
| ActivityLaws.RestingTraced | src/domain/pet_activity.cc:84-99 | resting, whenever shown, was decided at the last confirmed sighting, at most three seconds ago |
| ActivityLaws.OutOfViewMeans | src/domain/pet_activity.cc:100-118 | **Main result.** out of view is shown exactly on absent evidence, with cat presence debounced absent and no confirmed sighting in eight seconds since the past was last blanked |
| PetActivity.PetActivity.Update | src/domain/pet_activity.cc:7-126 | the in-place update equals the function of the state and the context, and an event tells exactly the changes |
| PetActivity.PetActivity.Continue | src/domain/pet_activity.cc:35-64 | a sighting continues or restarts the window and runs the timer |
| PetActivity.PetActivity.Trim | src/domain/pet_activity.cc:65-69 | the pops keep exactly what the boundary rule selects |
| PetActivity.PetActivity.MeasureStill | src/domain/pet_activity.cc:71-83 | folding the window answers the stillness test |
| PetActivity.PetActivity.MovedSince | src/domain/pet_activity.cc:45-56 | answers the motion test between two sightings |
| PetActivity.PetActivity.Sight | src/domain/pet_activity.cc:34-93 | a confirmed sighting leaves the judged state |
| PetActivity.PetActivity.Pass | src/domain/pet_activity.cc:94-118 | a miss holds, searches, decides absence or gives up as judged |
| Contexts.FindCat | src/domain/pet_activity.cc:14-21 | counts the observed cats and finds the last of them |
| Contexts.CountCatsExact | src/domain/pet_activity.cc:14-21 | the count is the number of places at which an observed track of class 15 is listed |
| Engine.TakenSound | src/domain/context_engine.cc:37-77 | an observation keeps the engine sound: context mirrors the machines, glances in order, events tell exactly the changes |
| Engine.TickedSound | src/domain/context_engine.cc:79-99 | so does a clock tick, timed out or not |
| EngineLaws.RunSound | src/domain/context_engine.cc:31-99 | **Main result.** in every run no event repeats the state told before it in its category, the last told state is the current one, and the context mirrors the machines |
| EngineLaws.PublishedStates | src/domain/context_engine.cc:58-75 | **Main result.** the pet is offline exactly when the camera is, and several detected or observed cats are never active or resting |
| EngineLaws.ConfidenceValid | src/domain/pet_activity.cc:91-99 | pet confidence stays between 0 and 1 |
| EngineLaws.ReportsLastTaken | src/domain/context_engine.cc:58-97 | in every run the context reports the last observation taken; while offline it shows no tracks or counts but keeps the time of that observation |
| EngineLaws.TakenInOrder | src/domain/context_engine.cc:46-50 | observations are taken at strictly increasing sequence numbers and never back in time |
| EngineLaws.OfflineMeansNoFrames | src/domain/context_engine.cc:79-98 | **Main result.** offline is entered only at a clock tick at least five seconds after every frame that arrived or was accepted |
| StoryLaws.AcceptsExact | src/domain/context_engine.cc:38-50 | an observation is taken exactly if it is from this source, stamped, plausible, numbered, not from the future, younger than two seconds, and numbered above and received no earlier than the last one taken |
| StoryLaws.RunIsStory | src/domain/context_engine.cc:31-99 | **Main result.** told from the inputs alone: the looks, glances and events of every run are exactly those of the observations taken and of the ticks that found the camera lost, in their order, each event with its stamp and confidence |
| StoryLaws.LooksExact | src/domain/context_engine.cc:53-57 | **Main result.** look by look: each belongs to an observation taken or to a lost camera, and reports whether persons (cats) were counted in it, at the time it was received |
| StoryLaws.OfflineExact | src/domain/context_engine.cc:79-86 | **Main result.** a tick takes camera and pet offline exactly if it comes five seconds or more after the start and every timely frame, and otherwise changes nothing |
| ContextEngine.ContextEngine.Create | src/domain/context_engine.cc:23-29 | an engine exists exactly for a source with a name, and starts as the new engine |
| ContextEngine.ContextEngine.FrameReceived | src/domain/context_engine.cc:31-35 | a timely newer frame moves the time of the last frame, and nothing else |
| ContextEngine.ContextEngine.Observe | src/domain/context_engine.cc:37-77 | a foreign or invalid observation is rejected unchanged, a stale or repeated one ignored, any other one taken |
| ContextEngine.ContextEngine.Tick | src/domain/context_engine.cc:79-99 | nothing before five seconds without a frame; then everything goes offline and the tracks are dropped |
| Appearance.WinnerExact | src/perception/pet_appearance.cc:179-200 | **Main result.** the accepted winner is the one profile that scores at least 0.75 and leads every other by at least 0.08 |
| Appearance.OrderOfProfilesIrrelevant | src/perception/pet_appearance.cc:181-193 | permuting the profiles does not change the accepted winner |
| Appearance.VotesAreReal | src/perception/pet_appearance.cc:201-206 | the vote count is the number of real, consecutive, winning sightings of one track, and a name is shown exactly from five on |
| Appearance.ShownNameHasFiveVotes | src/perception/pet_appearance.cc:127-210 | **Main result.** a shown name was won at the last five sightings of one track, each confirmed, large and sharp, and neighbours adjoin |
| Appearance.VotesAreCounted | src/perception/pet_appearance.cc:201-210 | no vote is lost: adjoining votes are all counted, and from the fifth on the name is shown |
| Appearance.NameExact | src/perception/pet_appearance.cc:104-211 | **Main result.** a name is shown exactly if the last five sightings, all of one track and close in time, are votes for it |
| Appearance.PortraitExact | src/perception/pet_appearance.cc:113-211 | what the portrait shows after each call: held or blank without a cat, ambiguous with several, and otherwise track, frame, thumbnail, best score and the status of the first check that fails |
| Appearance.ExposedExact | src/perception/pet_appearance.cc:105-126 | a call is shown nobody, several or one cat exactly as none, several or one observed track of class 15 is listed, and then id and confirmation of that track |
| Appearance.LateVoteCounts | src/perception/pet_appearance.cc:127-131 | a vote more than three seconds after the last sighting adds to the count exactly if that sighting came at the epoch of the clock; otherwise the count restarts |
| Appearance.EpochSkipsTheGap | src/perception/pet_appearance.cc:127-131 | an input on which two neighbouring votes are 100 seconds apart: the first came at the epoch of the clock |
| Appearance.PetAppearance.Clear | src/perception/pet_appearance.cc:97-103 | forgets everything |
| Appearance.PetAppearance.Observe | src/perception/pet_appearance.cc:104-211 | the in-place vote equals the function of the ballot, the tracks and the picture |
| Appearance.PetAppearance.Rank | src/perception/pet_appearance.cc:179-193 | one pass finds the two highest scores and the first name at the top |
| Appearance.GalleryUsable | src/perception/pet_appearance.cc:29-58 | a gallery is usable exactly if its names have 1 to 128 characters and no two are alike |
| Appearance.PetAppearance.Load | src/perception/pet_appearance.cc:21-59 | checks the profiles one by one and refuses a gallery with the fault of its first bad profile |
| Monitor.RecoveryExact | scripts/verify_runtime.py:103-111 | **Main result.** the staged check finds a recovery exactly when a recent online poll is followed by an offline one and later by a recent online one |
| MonitorLaws.ObjectionsExact | scripts/verify_runtime.py:20-38 | a context is objected to exactly for a sixth pet state, a measure out of range, an offline camera with another pet state, or several cats with an activity |
| MonitorLaws.ResetsExact | scripts/verify_runtime.py:94-95 | resets count exactly the polls with a lower sequence number than the poll before |
| MonitorLaws.StaleExact | scripts/verify_runtime.py:103-105 | stale online polls are counted exactly once each |
| MonitorLaws.StatesExact | scripts/verify_runtime.py:91 | every state is counted once for every poll that shows it |
| MonitorLaws.InferencesExact | scripts/verify_runtime.py:98-101 | **Main result.** the inference times kept are, in order, those of the recent online polls that show another numbered inference than the poll before |
| MonitorLaws.DroppedAdds | scripts/verify_runtime.py:96-97 | the rise of the dropped counter adds up along the polls |
| MonitorLaws.DroppedExact | scripts/verify_runtime.py:96-97 | between two polls it is their difference if the counter rises, and nothing otherwise |
| Monitor.RepeatedPollsMeasureOnce | scripts/verify_runtime.py:98-101 | polling the same snapshot again measures one inference at most, and none if the poll before showed it |
| Monitor.Monitor.Observe | scripts/verify_runtime.py:87-111 | a poll is counted unless it breaks the contract; samples, modes, states, latencies, inference times, resets, dropped frames, stale online polls and the recovery stage are those of the polls so far |
| Monitor.Monitor.RecoveryObserved | scripts/verify_runtime.py:113-121 | recovery is reported exactly when it happened |
| LiveLaws.CatsCounted | src/application/context_service.cc:115-132 | as many observed cat tracks as cat detections |
| LiveLaws.CountsExact | src/application/context_service.cc:103-119 | a class is counted once for each place at which it is detected, and its confidence is the highest one among them |
| LiveLaws.UpdateTrackable | src/application/context_service.cc:131-134 | an accepted frame hands the engine tracks that match the counted cats, with valid boxes and confidences |
| LiveLaws.HealthyPublishes | scripts/verify_runtime.py:20-38 | every context of a running engine meets the published contract and the monitor objects to none |
| Service.PassGood | src/application/context_service.cc:87-143 | every pass of the loop keeps tracker, engine and served context as promised |
| Service.PassFailsExact | src/application/context_service.cc:90-142 | **Main result.** exactly when a pass of a running service fails: an idle one only by a clock before 1970; a frame only when it is inferred, if the tracker refuses it, it has no number, inference took negative time, its stamp lies before 1970, or a detection is more than certain |
| Service.EveryPublishedContext | src/application/context_service.cc:67-143 | **Main result.** in every run of the live loop every published context counts the observed cat tracks, is offline exactly with the camera, shows no activity of several cats, has a valid confidence and passes the monitor |
| Service.ServedIsRecorded | src/application/context_service.cc:67-85 | **Main result.** in every run the snapshot served to clients is the context recorded last in the store, every recorded context is valid, and the stored events are exactly those the engine told, in order |
| Service.StoredEventsTell | src/application/context_service.cc:71-75 | **Main result.** in every run the stored events never repeat a state within a category, and the last of each category is the state served |
| Chronicle.ObservedExact | src/application/context_service.cc:120-134 | the observation of a frame, field by field |
| Chronicle.ServiceIsChronicle | src/application/context_service.cc:60-143 | **Main result.** in every run the service is its parts fed in step, told from the turns alone: which heartbeats, observations and ticks the engine gets, which frames and restarts the tracker, which shots the vote since it was cleared, what is recorded with which stamp, when the next inference is due, and what clients are served |
| LabelLaws.SightingsAreMeasured | src/application/context_service.cc:102-135 | **Main result.** in every run every confirmed sighting the engine has taken is a cat detection of a timely frame, with its box and confidence unchanged |
| LabelLaws.SamplesAreFrames | src/application/context_service.cc:120-135 | every observation the engine is given is that of a timely frame of a turn |
| LabelLaws.ServedActive | src/application/context_service.cc:87-143 | **Main result.** a served active rests on real motion: less than eight seconds before the last glance a cat had been detected in timely frames for two seconds on one track, and from each detection to the next its true centre had travelled more than 0.03 of the frame per second or its area had changed |
| LabelLaws.ServedResting | src/application/context_service.cc:87-143 | **Main result.** a served resting rests on a cat detection at most three seconds before the last glance and at least nine more over twenty seconds before it, all in timely frames, of one track and close together |
| LabelLaws.ServedOutOfView | src/application/context_service.cc:87-143 | **Main result.** a served out of view rests on timely frames without any cat detection: every observation taken over an unbroken stretch of at least five seconds is of such a frame, the cat has been out of view ever since, and no confirmed sighting lies in the last eight seconds |
| LiveLoop.ContextService.constructor | src/application/context_service.cc:60-66 | the service starts with everything empty, an inference due, and parts of its own |
| LiveLoop.ContextService.Step | src/application/context_service.cc:90-142 | one pass drives tracker, vote, engine and store in the order of the loop, as the pass function says, stored events included |
| LiveLoop.ContextService.Arrive | src/application/context_service.cc:92-101 | a timely frame is heard even when no inference is due |
| LiveLoop.ContextService.Rest | src/application/context_service.cc:136-142 | without a timely frame the clock ticks, the result with its events is published, and only then an offline camera restarts the tracker |
| LiveLoop.ContextService.Track | src/application/context_service.cc:131-134 | inference that took two seconds or more leaves tracker and vote alone and hands on no tracks |
| LiveLoop.ContextService.Count | src/application/context_service.cc:102-119 | counts and best confidences by class |
| LiveLoop.ContextService.Publish | src/application/context_service.cc:67-85 | an offline camera clears the vote; events are stored in order, the context is recorded, and the snapshot is engine context plus portrait |
| Replay.GroupsIncrease | src/application/tracking_replay.cc:108-111 | the groups of a well-formed list come at strictly increasing times |
| Replay.GroupsExact | src/application/tracking_replay.cc:115-148 | **Main result.** for every time: there is a group exactly if there is a row, with the kind and stamp of those rows and exactly their measurements in order |
| RowLaws.WellFormedExact | src/application/tracking_replay.cc:97-138 | **Main result.** a list of rows is read to the end exactly if every row is good by itself and none goes back in time or mixes with the frame before it |
| RowLaws.FirstFault | src/application/tracking_replay.cc:102-138 | reading stops at the first row for which this fails, with an error that names its defect |
| RowLaws.GroupsSayTheRows | src/application/tracking_replay.cc:121-148 | **Main result.** field by field and place by place: the detections of a group are what the detection rows of its time say, class text 0 a person and 15 a cat, then confidence, corner and size |
| RowLaws.RowsAreGrouped | src/application/tracking_replay.cc:139-148 | every row belongs to the group of its time |
| RowLaws.ReplayResult | src/application/tracking_replay.cc:97-155 | **Main result.** what a replay returns: for well-formed rows their number, with every group flushed in order, or that there were none; otherwise an input error, with every group flushed but the one pending at the first bad row; a failed flush ends it with that failure |
| Reading.NextRow | src/application/tracking_replay.cc:139-149 | one row further, the groups committed are exactly those whose flush the row has triggered |
| Reading.CompleteGrows | src/application/tracking_replay.cc:139-142 | what has been committed stays a prefix of what will be |
| Reading.Stopped | src/application/tracking_replay.cc:97-142 | **Main result.** a refused row ends the replay with its error and only the complete groups committed, never the pending one; a failed flush ends it with that failure |
| ReplayLaws.GroupTaken | src/application/tracking_replay.cc:74-91 | the engine neither rejects nor ignores a frame that the tracker has taken |
| ReplayLaws.FlushedUpTo | src/application/tracking_replay.cc:65-96 | the flush of the next group in time fails exactly if it has too many or invalid boxes, no room for the unmatched ones, or a stamp before 1970, in that order; otherwise it counts and records the group |
| ReplayLaws.TrackFaultExact | src/application/tracking_replay.cc:79 | a frame in time is refused exactly for too many boxes, an invalid box, or lack of room or ids |
| ReplayLaws.WellFormedReplay | src/application/tracking_replay.cc:97-155 | **Main result.** a well-formed list of rows is replayed to the end, every frame counted and every group recorded with its stamp, exactly if no group fails when its turn comes; the failure of the replay is that of the group |
| ReplayLaws.ReplayedEventsTell | src/application/tracking_replay.cc:92-94 | the stored events of a replay are those the engine told, never repeat a state within a category, and end in the states of the engine |
| ReplayChronicle.ReplayIsRecord | src/application/tracking_replay.cc:57-96 | **Main result.** a replay is its parts fed in step, told from the groups alone: a clock that starts at one second and goes on in milliseconds, an observation numbered in order for every frame, a restart for every tick that finds the camera offline, and one recorded context per group with its stamp |
| TrackingReplay.TrackingReplay.Check | src/application/tracking_replay.cc:102-138 | finds the first fault of a row before the pending sample is committed |
| TrackingReplay.TrackingReplay.CheckMarker | src/application/tracking_replay.cc:133-137 | the measurements of a marker row are checked in order |
| TrackingReplay.TrackingReplay.constructor | src/application/tracking_replay.cc:56-64 | a replay starts with nothing pending, nothing stored, and parts of its own |
| TrackingReplay.TrackingReplay.Flush | src/application/tracking_replay.cc:65-96 | commits the sample as the flush function says, events stored in order and then the context |
| TrackingReplay.TrackingReplay.Count | src/application/tracking_replay.cc:80-89 | counts and best confidences by class |
| TrackingReplay.TrackingReplay.Read | src/application/tracking_replay.cc:97-149 | a refused row changes nothing; a good one joins the sample, or commits it and begins the next |
| TrackingReplay.TrackingReplay.Run | src/application/tracking_replay.cc:97-155 | the whole replay returns the number of rows, or the first failure, and leaves exactly the committed groups flushed |

## Left out

- Camera, detector, image embedding, JPEG encoding and sharpness: detections, the quality flags of a crop and the score of each profile are inputs. A failing thumbnail encoder (src/perception/pet_appearance.cc:156-158) is not modelled.
- Pixel boxes are not modelled; detections arrive already normalized (src/application/context_service.cc:106-110).
- HTTP, JSON, dashboard, command line, configuration files, camera threads and locks: plumbing around the modelled calls.
- Parsing and formatting of UTC stamps: a stamp is its second. Malformed stamps in contexts or in a replay, and two spellings of one second, are not modelled; a missing stamp is.
- SQLite: the table is a sequence of rows, a row id is a position, a recorded context is atomic, and database errors do not occur. A replay or service starts with an empty store.
- The query of the last hundred events (src/storage/event_store.cc:75-105) is a listing and is left out.
- Floating point: coordinates, scores and confidences are exact reals, so neither rounding nor checks for numbers that are not finite are modelled, and nothing is claimed about results to the last bit. Where the movement heuristic would divide by an area of zero, the model decides the comparison as the floating-point result would, counting every zero as positive.
- Integer widths: times and stamps are unbounded integers. Track ids do stop at the largest 64-bit value; the hit counter of a track does not.
- std::sort is modelled by insertion; OneOrder shows that any sort gives the same list.
- ContextService and TrackingReplay are built from arguments that their parts accept; the parts refuse others (`Create`, `Load`).
- BoxTracker.BoxTracker.Update: after it runs out of room the half-changed state is stated but no further call is allowed; every run ends there.
- Monitor.Monitor.Observe: the percentiles of the report and the checks of validate_context that typed fields cannot fail are left out.
- LiveLoop.ContextService.Step: the wall clock, the moment inference ends and the detections are part of the input of a pass; pacing, the time limit of a run and the age of the portrait are left out.
- TrackingReplay.TrackingReplay.Run: the header line, real-time pacing and the printed lines are left out.
