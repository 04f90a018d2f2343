/** The application's tracker: its three pieces of state as fields of one
    object, updated in place by the two operations the interface offers. */
module TrackerApp {
  import opened Blueprint
  import opened Calendar
  import opened DayStore
  import opened Progression

  class Tracker {
    const blueprint: seq<Section>
    /** The number of generated days; the pointer never passes it. */
    const horizon: int
    var daysState: map<int, DayState>
    var currentDayId: int
    var streak: int

    /** The state as the application persists it. */
    function State(): (p: Progress)
      reads this
    {
      Progress(daysState, currentDayId, streak)
    }

    ghost predicate Valid()
      reads this
    {
      Consistent(blueprint, horizon, State())
    }

    /** Start-up: the persisted record when there is one that parses,
        otherwise the fresh state for the generated days. `stored` is None
        for an absent, empty or malformed record. */
    constructor (bp: seq<Section>, numDays: int, stored: Option<Progress>)
      requires DistinctIds(bp) && numDays >= 1
      ensures blueprint == bp && horizon == numDays
      ensures stored.None? ==> IsFresh(bp, numDays, State()) && Valid()
      ensures stored.Some? ==> State() == stored.value
      ensures stored.Some? && Consistent(bp, numDays, stored.value) ==> Valid()
    {
      blueprint := bp;
      var days := GenerateDays(numDays);
      horizon := |days|;
      match stored {
        case Some(saved) =>
          daysState := saved.daysState;
          currentDayId := saved.currentDayId;
          streak := saved.streak;
        case None =>
          var init := InitialDaysState(bp, days);
          daysState := init;
          currentDayId := 1;
          streak := 0;
      }
      new;
      if stored.None? {
        FreshIsConsistent(blueprint, horizon, State());
      }
    }

    /** Flips one task of one day, recomputes that day's completion, then
        applies the streak rules. The increment-and-advance branch requires
        the toggled day to be the current one; the decrement branch does not,
        so un-completing any day lowers the streak (never below 0). */
    method ToggleTask(dayId: int, sectionId: string, taskIndex: int)
      requires CanToggle(State(), dayId, sectionId, taskIndex)
      modifies this
      ensures State() == Toggled(blueprint, horizon, old(State()), dayId, sectionId, taskIndex)
      ensures old(Valid()) ==> Valid() && currentDayId >= old(currentDayId)
    {
      ghost var before := State();
      var day := daysState[dayId];
      var sections := day.sections;
      var arr := sections[sectionId];
      arr := arr[taskIndex := !arr[taskIndex]];
      sections := sections[sectionId := arr];
      var allDone := AllDone(blueprint, sections);
      var wasCompleted := day.completed;
      day := DayState(sections, allDone);
      daysState := daysState[dayId := day];
      if !wasCompleted && allDone && dayId == currentDayId {
        streak := streak + 1;
        currentDayId := Min(currentDayId + 1, horizon);
      }
      if wasCompleted && !allDone {
        streak := Max(0, streak - 1);
      }
      if Consistent(blueprint, horizon, before) {
        ToggledConsistent(blueprint, horizon, before, dayId, sectionId, taskIndex);
      }
    }

    /** Clears the current day's completion flag (its tasks are kept) and
        moves the pointer one day on, but not past the last day. */
    method MarkMissedAndAdvance()
      requires currentDayId in daysState
      modifies this
      ensures State() == Skipped(horizon, old(State()))
      ensures old(Valid()) ==> Valid() && currentDayId >= old(currentDayId)
    {
      ghost var before := State();
      daysState := daysState[currentDayId := daysState[currentDayId].(completed := false)];
      currentDayId := Min(currentDayId + 1, horizon);
      if Consistent(blueprint, horizon, before) {
        SkippedConsistent(blueprint, horizon, before);
      }
    }
  }

  /** The tracker as the application builds it: the shipped blueprint over
      180 generated days. */
  method StartApp(stored: Option<Progress>) returns (t: Tracker)
    ensures fresh(t) && t.blueprint == MissionBlueprint && t.horizon == HorizonDays
    ensures stored.None? ==> IsFresh(MissionBlueprint, HorizonDays, t.State()) && t.Valid()
    ensures stored.Some? ==> t.State() == stored.value
  {
    MissionBlueprintWellFormed();
    t := new Tracker(MissionBlueprint, HorizonDays, stored);
  }

  /** Three days, one section of two tasks: checking both tasks of day 1
      completes it, raises the streak to 1 and moves the pointer to day 2. */
  method CompleteFirstDay() returns (completed: bool, streak: int, current: int)
    ensures completed && streak == 1 && current == 2
  {
    var bp := [Section("s", 2)];
    var t := new Tracker(bp, 3, None);
    CallsDefined(bp, 3, t.State(), 1, 0, 0);
    t.ToggleTask(1, "s", 0);
    CallsDefined(bp, 3, t.State(), 1, 0, 1);
    t.ToggleTask(1, "s", 1);
    completed, streak, current := t.daysState[1].completed, t.streak, t.currentDayId;
  }

  /** Continuing the run above: unchecking a task of day 1, now a past day,
      clears its flag and, because the decrement is not limited to the
      current day, brings the streak back to 0; the pointer stays on day 2. */
  method UncheckPastDay() returns (completed: bool, streak: int, current: int)
    ensures !completed && streak == 0 && current == 2
  {
    var bp := [Section("s", 2)];
    var t := new Tracker(bp, 3, None);
    CallsDefined(bp, 3, t.State(), 1, 0, 0);
    t.ToggleTask(1, "s", 0);
    CallsDefined(bp, 3, t.State(), 1, 0, 1);
    t.ToggleTask(1, "s", 1);
    CallsDefined(bp, 3, t.State(), 1, 0, 0);
    t.ToggleTask(1, "s", 0);
    completed, streak, current := t.daysState[1].completed, t.streak, t.currentDayId;
  }

  /** Three days: after completing the last day with the pointer already
      on it, marking it missed keeps the pointer on day 3 and clears the
      day's flag while its tasks stay checked. */
  method SkipAtHorizon() returns (completed: bool, tasks: seq<bool>, current: int)
    ensures !completed && tasks == [true] && current == 3
  {
    var bp := [Section("s", 1)];
    var t := new Tracker(bp, 3, None);
    CallsDefined(bp, 3, t.State(), 1, 0, 0);
    t.MarkMissedAndAdvance();
    CallsDefined(bp, 3, t.State(), 1, 0, 0);
    t.MarkMissedAndAdvance();
    CallsDefined(bp, 3, t.State(), 3, 0, 0);
    t.ToggleTask(3, "s", 0);
    t.MarkMissedAndAdvance();
    completed, tasks, current := t.daysState[3].completed, t.daysState[3].sections["s"], t.currentDayId;
  }
}
