/** The day calendar: a fixed-length run of day identifiers. Calendar dates
    are derived from the clock in the application and are not modelled. */
module Calendar {

  /** Builds the day identifiers 1..numDays by appending one per iteration;
      a non-positive count gives no days. */
  method GenerateDays(numDays: int) returns (ids: seq<int>)
    ensures |ids| == if numDays < 0 then 0 else numDays
    ensures forall k :: 0 <= k < |ids| ==> ids[k] == k + 1
    ensures forall d :: d in ids <==> 1 <= d <= numDays
    ensures forall j, k :: 0 <= j < k < |ids| ==> ids[j] < ids[k]
  {
    ids := [];
    var i := 1;
    while i <= numDays
      invariant 1 <= i <= if numDays < 0 then 1 else numDays + 1
      invariant |ids| == i - 1
      invariant forall k :: 0 <= k < |ids| ==> ids[k] == k + 1
    {
      ids := ids + [i];
      i := i + 1;
    }
    forall d ensures d in ids <==> 1 <= d <= numDays {
      if 1 <= d <= numDays {
        assert ids[d - 1] == d;
      }
      if d in ids {
        var k :| 0 <= k < |ids| && ids[k] == d;
      }
    }
  }
}
