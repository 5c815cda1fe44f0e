/** Properties of all prefixes of a run. */
module Prefixes {
  ghost predicate Throughout<T>(run: seq<T>, holds: seq<T> -> bool) {
    forall n :: 0 <= n <= |run| ==> holds(run[..n])
  }

  ghost predicate NeverBreaks<T>(run: seq<T>, breaks: (seq<T>, T) -> bool) {
    forall n :: 0 <= n < |run| ==> !breaks(run[..n], run[n])
  }

  lemma FrontAndEnd<T>(run: seq<T>, holds: seq<T> -> bool, breaks: (seq<T>, T) -> bool)
    requires run != []
    ensures var n := |run| - 1; Throughout(run, holds) <==> Throughout(run[..n], holds) && holds(run)
    ensures var n := |run| - 1; NeverBreaks(run, breaks) <==> NeverBreaks(run[..n], breaks) && !breaks(run[..n], run[n])
  {
    var n := |run| - 1;
    assert run[..n + 1] == run;
    forall m | 0 <= m <= n
      ensures run[..n][..m] == run[..m]
    {
    }
    if Throughout(run, holds) {
      assert forall m :: 0 <= m <= n ==> holds(run[..m]);
    }
    if NeverBreaks(run, breaks) {
      assert forall m :: 0 <= m < n ==> !breaks(run[..m], run[m]);
    }
  }

  /** What one step breaks or keeps, a run keeps throughout if and only if no step of it breaks it. */
  lemma {:induction false} ThroughoutUnlessBroken<T(!new)>(run: seq<T>, holds: seq<T> -> bool,
                                                           breaks: (seq<T>, T) -> bool)
    requires holds([])
    requires forall front, step :: holds(front) ==> (holds(front + [step]) <==> !breaks(front, step))
    ensures Throughout(run, holds) <==> NeverBreaks(run, breaks)
  {
    if run != [] {
      var n := |run| - 1;
      ThroughoutUnlessBroken(run[..n], holds, breaks);
      FrontAndEnd(run, holds, breaks);
      assert run[..n] + [run[n]] == run;
      if Throughout(run[..n], holds) {
        assert holds(run[..n][..n]) && run[..n][..n] == run[..n];
      }
    }
  }
}
