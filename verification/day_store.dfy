/** Per-day completion records: for each section key the task booleans,
    plus the day's `completed` flag. */
module DayStore {
  import opened Blueprint

  datatype DayState = DayState(sections: map<string, seq<bool>>, completed: bool)

  /** `every(Boolean)` over one section's booleans. */
  function AllTrue(s: seq<bool>): (r: bool)
    ensures r <==> forall j :: 0 <= j < |s| ==> s[j]
  {
    if s == [] then true else s[0] && AllTrue(s[1..])
  }

  /** The booleans stored under a section key; a missing key reads as the
      empty list, so it counts as all done. */
  function TasksOf(sections: map<string, seq<bool>>, id: string): (tasks: seq<bool>)
  {
    if id in sections then sections[id] else []
  }

  /** The completion predicate: every blueprint section has all of its tasks
      checked. Keys that are not blueprint sections are ignored. */
  function AllDone(bp: seq<Section>, sections: map<string, seq<bool>>): (r: bool)
    ensures r <==> forall i :: 0 <= i < |bp| ==> AllTrue(TasksOf(sections, bp[i].id))
  {
    if bp == [] then true else AllTrue(TasksOf(sections, bp[0].id)) && AllDone(bp[1..], sections)
  }

  /** `Array(n).fill(false)`. */
  function AllFalse(n: nat): (r: seq<bool>)
    ensures |r| == n && forall j :: 0 <= j < n ==> !r[j]
  {
    seq(n, _ => false)
  }

  /** A day's sections hold exactly the blueprint's keys, each with one
      boolean per task. */
  ghost predicate Shaped(bp: seq<Section>, sections: map<string, seq<bool>>)
  {
    && sections.Keys == Ids(bp)
    && forall i :: 0 <= i < |bp| ==> bp[i].id in sections && |sections[bp[i].id]| == bp[i].taskCount
  }

  /** A day's sections as first created: the blueprint's keys, all unchecked. */
  ghost predicate FreshSectionsOf(bp: seq<Section>, sections: map<string, seq<bool>>)
  {
    && sections.Keys == Ids(bp)
    && forall i :: 0 <= i < |bp| ==> bp[i].id in sections && sections[bp[i].id] == AllFalse(bp[i].taskCount)
  }

  /** Fresh sections are shaped and (with at least one task) not all done. */
  lemma FreshSectionsShaped(bp: seq<Section>, sections: map<string, seq<bool>>)
    requires FreshSectionsOf(bp, sections)
    ensures Shaped(bp, sections)
    ensures HasTask(bp) ==> !AllDone(bp, sections)
  {
    if HasTask(bp) {
      var i :| 0 <= i < |bp| && bp[i].taskCount > 0;
      assert !TasksOf(sections, bp[i].id)[0];
    }
  }

  /** The inner initialiser loop: one all-false list per blueprint section. */
  method FreshSections(bp: seq<Section>) returns (sections: map<string, seq<bool>>)
    requires DistinctIds(bp)
    ensures FreshSectionsOf(bp, sections)
  {
    sections := map[];
    var k := 0;
    while k < |bp|
      invariant 0 <= k <= |bp|
      invariant sections.Keys == Ids(bp[..k])
      invariant forall i :: 0 <= i < k ==> bp[i].id in sections && sections[bp[i].id] == AllFalse(bp[i].taskCount)
    {
      assert Ids(bp[..k + 1]) == Ids(bp[..k]) + {bp[k].id} by {
        assert forall i :: 0 <= i < k ==> bp[..k + 1][i] == bp[..k][i];
      }
      sections := sections[bp[k].id := AllFalse(bp[k].taskCount)];
      k := k + 1;
    }
    assert bp[..k] == bp;
  }

  /** The outer initialiser loop: one fresh, incomplete record per day id. */
  method InitialDaysState(bp: seq<Section>, days: seq<int>) returns (init: map<int, DayState>)
    requires DistinctIds(bp)
    ensures forall d :: d in init <==> d in days
    ensures forall d :: d in init ==> FreshSectionsOf(bp, init[d].sections) && !init[d].completed
  {
    init := map[];
    var k := 0;
    while k < |days|
      invariant 0 <= k <= |days|
      invariant forall d :: d in init <==> d in days[..k]
      invariant forall d :: d in init ==> FreshSectionsOf(bp, init[d].sections) && !init[d].completed
    {
      var sections := FreshSections(bp);
      init := init[days[k] := DayState(sections, false)];
      k := k + 1;
      assert days[..k] == days[..k - 1] + [days[k - 1]];
    }
    assert days[..k] == days;
  }
}
