/** The static checklist repeated every day: an ordered list of sections,
    each with a stable string key and a number of tasks. Task labels and
    times of day are presentation only and are not kept. */
module Blueprint {

  datatype Section = Section(id: string, taskCount: nat)

  /** The section keys of a blueprint. */
  function Ids(bp: seq<Section>): (ids: set<string>)
  {
    set i | 0 <= i < |bp| :: bp[i].id
  }

  /** Section keys are unique within a blueprint. */
  predicate DistinctIds(bp: seq<Section>)
  {
    forall i, j :: 0 <= i < j < |bp| ==> bp[i].id != bp[j].id
  }

  /** Some section has at least one task. */
  predicate HasTask(bp: seq<Section>)
  {
    exists i :: 0 <= i < |bp| && bp[i].taskCount > 0
  }

  /** The blueprint the application ships with. */
  const MissionBlueprint: seq<Section> := [
    Section("morning_workout", 6),
    Section("morning_productivity", 4),
    Section("afternoon_work", 3),
    Section("evening_workout", 4),
    Section("night_creative", 3),
    Section("night_wind_down", 2)
  ]

  /** The number of days the application generates. */
  const HorizonDays: int := 180

  lemma MissionBlueprintWellFormed()
    ensures DistinctIds(MissionBlueprint)
    ensures HasTask(MissionBlueprint)
    ensures |Ids(MissionBlueprint)| == 6
  {
    var bp := MissionBlueprint;
    assert bp[0].taskCount > 0;
    assert Ids(bp) == {bp[0].id, bp[1].id, bp[2].id, bp[3].id, bp[4].id, bp[5].id};
  }
}
