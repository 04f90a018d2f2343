# Superthing daily-mission tracker: day progression and streak

This project models the core of a personal daily-mission tracker. A fixed
blueprint of sections and tasks is repeated over a fixed horizon of days
(180 in the application). The tracker keeps three pieces of state:

- `daysState`: for each day id, the booleans of every section's tasks and a `completed` flag;
- `currentDayId`: the day being worked on;
- `streak`: the running count of completed days.

Two operations change the state. `toggleTask` flips one task, recomputes the
day's completion and applies the streak and advance rules.
`markMissedAndAdvance` abandons the current day and moves the pointer on.

Modules:

- `Blueprint` (blueprint.dfy): sections as key and task count, and the shipped blueprint.
- `Calendar` (calendar.dfy): the day-id generator, a loop that appends ids `1..numDays`.
- `DayStore` (day_store.dfy): day records, the completion predicate, and the initialiser loops.
- `Progression` (progression.dfy): the whole state as a value (`Progress`), its invariant
  `Consistent`, the two operations as transitions (`Toggled`, `Skipped`), and the lemmas
  about them, including arbitrary call sequences (`Run`).
- `TrackerApp` (tracker.dfy): class `Tracker`, whose fields are the three pieces of state and
  whose methods update them in place. Each method's postcondition ties the new state to the
  transition function. The module also has three client methods that replay concrete scenarios.

The invariant `Consistent` holds in every state reachable from the first-run state, or
from a consistent stored record. It says:

- the pointer lies in `1..horizon` and the streak is not negative;
- the day ids are exactly `1..horizon`;
- every day has exactly the blueprint's sections, each with one boolean per task;
- a day flagged complete has all its tasks checked;
- a day ahead of the pointer is flagged complete exactly when all its tasks are checked
  (for a blueprint with at least one task).

On the current and past days the converse can fail: `markMissedAndAdvance` clears the flag
and keeps the booleans. So for those days the model proves "flag implies all done", and
equality for the day a toggle just recomputed.

The two streak branches of `toggleTask` are asymmetric in the code (src/App.tsx:157-163).
Increment-and-advance happens only when the toggled day is the current day.
The decrement (floored at 0) happens for any day that goes from complete to incomplete.
So `UncheckPastDay` shows the streak dropping to 0 after a task of day 1, now a past day,
is unchecked, while the pointer stays on day 2.

## Model

| member | source | states |
|---|---|---|
| Blueprint.MissionBlueprintWellFormed | src/App.tsx:25-84 | the shipped blueprint has six sections with pairwise distinct keys, and at least one task |
| Calendar.GenerateDays | src/App.tsx:86-94 | the result holds exactly the ids 1..numDays in order (none for a non-positive count); they are contiguous and strictly increasing |
| DayStore.AllTrue | src/App.tsx:150 | `every(Boolean)`: true exactly when every boolean of the list is true |
| DayStore.AllDone | src/App.tsx:149-151 | true exactly when every blueprint section's list is all true; a missing list counts as empty, so as done |
| DayStore.AllFalse | src/App.tsx:110 | a list of the section's task count, every entry false |
| DayStore.FreshSectionsShaped | src/App.tsx:108-112 | fresh sections have the blueprint's shape and, if any section has a task, are not all done |
| DayStore.FreshSections | src/App.tsx:108-111 | the built map has exactly the blueprint's keys, each mapped to an all-false list of its task count |
| DayStore.InitialDaysState | src/App.tsx:106-114 | one record per given day id and no other; each has fresh sections and is not completed |
| Progression.FreshIsConsistent | src/App.tsx:106-130 | the first-run state (fresh records, pointer 1, streak 0) satisfies the invariant |
| Progression.FlipTask | src/App.tsx:144-147 | exactly the addressed boolean is negated; every other section list and every other boolean is unchanged, lengths too |
| Progression.Toggled | src/App.tsx:140-167 | only the toggled day's record changes, by one flipped boolean; its flag becomes the completion predicate; incomplete-to-complete on the current day adds 1 to the streak and moves the pointer to min(pointer+1, horizon); complete-to-incomplete on any day sets the streak to max(0, streak-1) and keeps the pointer; otherwise streak and pointer are unchanged |
| Progression.Skipped | src/App.tsx:169-176 | the current day's flag becomes false and its booleans stay; other days and the streak are unchanged; the pointer moves one day on below the horizon and stays at the horizon |
| Progression.ToggledConsistent | src/App.tsx:140-167 | a toggle keeps the invariant and does not move the pointer back |
| Progression.SkippedConsistent | src/App.tsx:169-176 | in a consistent state mark-missed is defined, keeps the invariant and does not move the pointer back |
| Progression.SkipAtHorizonIdempotent | src/App.tsx:175 | with the pointer on the last day, mark-missed keeps the pointer there and a second call changes nothing |
| Progression.FlipTaskTwice | src/App.tsx:145-147 | negating the same boolean twice gives back the original sections |
| Progression.ToggleTwice | src/App.tsx:141-155 | toggling a task twice restores the day's booleans, sets its flag to the completion predicate and leaves every other day untouched |
| Progression.ToggleTwiceUnchanged | src/App.tsx:141-163 | if the day's flag matched its booleans and neither toggle changes the day's completion, the pair leaves the whole state, streak and pointer included, unchanged |
| Progression.CallsDefined | src/App.tsx:200-218 | in a consistent state, a toggle of any blueprint task on any generated day is defined, and so is mark-missed |
| Progression.RunConsistent | src/App.tsx:140-176 | every sequence of calls from a consistent state ends in a consistent state, with the pointer not behind where it started |
| Progression.RunFromFresh | src/App.tsx:117-176 | from the first-run state, after any sequence of calls, the streak is at least 0, the pointer is within 1..horizon, no day is flagged complete with an unchecked task, and (given some task) every day ahead of the pointer is flagged complete exactly when all its tasks are checked |
| TrackerApp.Tracker.constructor | src/App.tsx:100-131 | with no usable stored record the tracker is in the first-run state and valid; otherwise it holds the stored record, and it is valid if that record is consistent |
| TrackerApp.Tracker.ToggleTask | src/App.tsx:140-167 | the new state is the toggle transition of the old one; validity is kept and the pointer does not move back |
| TrackerApp.Tracker.MarkMissedAndAdvance | src/App.tsx:169-176 | the new state is the mark-missed transition of the old one; validity is kept and the pointer does not move back |
| TrackerApp.StartApp | src/App.tsx:99-131 | the application's tracker uses the shipped blueprint and 180 days, and starts fresh when nothing usable is stored |
| TrackerApp.CompleteFirstDay | src/App.tsx:157-160 | three days, one section of two tasks: checking both tasks of day 1 completes it, the streak becomes 1 and the pointer day 2 |
| TrackerApp.UncheckPastDay | src/App.tsx:161-163 | continuing that run, unchecking a task of day 1 clears its flag, the streak drops to 0 and the pointer stays on day 2 |
| TrackerApp.SkipAtHorizon | src/App.tsx:169-176 | three days: mark-missed on the last day keeps the pointer on day 3 and clears the day's flag while its task stays checked |

## Left out

- Rendering, the header, the buttons and the past-days log (src/App.tsx:178-267) are presentation only.
- Local storage and JSON (src/App.tsx:101-105, 117-121, 125-129, 133-138) are not modelled.
  Start-up receives the parsed record as an optional value: None stands for absent, empty or
  malformed data. The record is taken as it is, with no shape check, as in the code.
  A record that parses but lacks fields is not modelled. A missing `daysState` or
  `currentDayId` leaves `undefined` in that piece of state. A missing or falsy `streak`
  becomes 0 through `|| 0` (src/App.tsx:128).
- TrackerApp.Tracker.constructor: a restored record is valid only if it is consistent. The code never checks this.
- Calendar dates (`new Date`, `setDate`, `toDateString`) are clock and library calls. Only the integer ids are kept.
- Task labels, times of day and section titles are display text; a section keeps only its key and its task count.
- The model does not capture React state batching, the updater closures, or the capture of
  `currentDayId` at render time. Each operation is one atomic transition.
- In `markMissedAndAdvance`, the record assignment mutates the previous state's day object in
  place (src/App.tsx:172). Only the resulting state is modelled, not the aliasing.
- Progression.Toggled: arguments must name an existing day, one of its section lists and an index inside it.
  Otherwise the code throws, or writes outside the list for an out-of-range index. The model
  requires valid arguments; in call sequences (`Run`) such a call ends the run.
- Progression.Skipped: the current day must have a record; otherwise the assignment at
  src/App.tsx:172 throws. The model requires the record; in call sequences (`Run`) such a
  call ends the run. In a consistent state the record always exists (`CallsDefined`).
- public/service-workers.ts (asset caching), src/reportWebVitals.ts and src/custom.d.ts are not part of this model.
