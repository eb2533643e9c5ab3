/** The bounded window of relay roots kept by the verifier. */
module RelayRoots {
  import opened Numbers

  /** A storage root (256 bits). */
  type Root = nat

  datatype RelayRoot = RelayRoot(number: u32, root: Root)

  predicate HasNumber(roots: seq<RelayRoot>, number: u32) {
    exists i :: 0 <= i < |roots| && roots[i].number == number
  }

  /** Record a reported relay parent: known numbers are ignored, the oldest entry makes room. */
  function Record(roots: seq<RelayRoot>, max: nat, report: Option<RelayRoot>): seq<RelayRoot> {
    match report
    case None => roots
    case Some(r) =>
      if HasNumber(roots, r.number) then roots
      else (if max <= |roots| && roots != [] then roots[1..] else roots) + [r]
  }

  class Pallet {
    const maxRelayRoots: nat
    var roots: seq<RelayRoot>

    constructor (max: nat)
      requires 1 <= max
      ensures roots == [] && maxRelayRoots == max
    {
      maxRelayRoots := max;
      roots := [];
    }

    /** Append the current relay parent, dropping the oldest entry when full. */
    method RecordRelayRoot(current: Option<RelayRoot>)
      requires 1 <= maxRelayRoots && |roots| <= maxRelayRoots
      modifies this`roots
      ensures roots == Record(old(roots), maxRelayRoots, current) && |roots| <= maxRelayRoots
    {
      if current.None? {
        return;
      }
      var known := false;
      for i := 0 to |roots|
        invariant known <==> exists j :: 0 <= j < i && roots[j].number == current.value.number
        invariant roots == old(roots)
      {
        if roots[i].number == current.value.number {
          known := true;
        }
      }
      if known {
        return;
      }
      if |roots| == maxRelayRoots {
        roots := roots[1..];
      }
      roots := roots + [current.value];
    }
  }

  /** The window after a sequence of reports. */
  function Window(reports: seq<Option<RelayRoot>>, max: nat): seq<RelayRoot> {
    if reports == [] then []
    else Record(Window(reports[..|reports| - 1], max), max, reports[|reports| - 1])
  }

  /** All relay parents reported so far, each once, in the order of their first report. */
  function Distinct(reports: seq<Option<RelayRoot>>): seq<RelayRoot> {
    if reports == [] then []
    else
      var before, last := Distinct(reports[..|reports| - 1]), reports[|reports| - 1];
      if last.None? || HasNumber(before, last.value.number) then before else before + [last.value]
  }

  function Last(roots: seq<RelayRoot>, n: nat): seq<RelayRoot> {
    if |roots| <= n then roots else roots[|roots| - n..]
  }

  ghost predicate Nondecreasing(reports: seq<Option<RelayRoot>>) {
    forall i, j :: 0 <= i < j < |reports| && reports[i].Some? && reports[j].Some? ==>
      reports[i].value.number <= reports[j].value.number
  }

  ghost predicate Increasing(roots: seq<RelayRoot>) {
    forall i, j :: 0 <= i < j < |roots| ==> roots[i].number < roots[j].number
  }

  ghost predicate Reported(reports: seq<Option<RelayRoot>>, r: RelayRoot) { Some(r) in reports }

  ghost predicate AllReported(reports: seq<Option<RelayRoot>>, roots: seq<RelayRoot>) {
    forall i :: 0 <= i < |roots| ==> Reported(reports, roots[i])
  }

  /** None of the roots has a number above the given one. */
  ghost predicate AtMost(roots: seq<RelayRoot>, number: u32) {
    forall i :: 0 <= i < |roots| ==> roots[i].number <= number
  }

  /** What was reported earlier in nondecreasing reports does not exceed the last report. */
  lemma {:induction false} EarlierIsAtMost(reports: seq<Option<RelayRoot>>, roots: seq<RelayRoot>)
    requires reports != [] && Nondecreasing(reports) && reports[|reports| - 1].Some?
    requires AllReported(reports[..|reports| - 1], roots)
    ensures AtMost(roots, reports[|reports| - 1].value.number)
  {
    var n := |reports| - 1;
    forall i | 0 <= i < |roots|
      ensures roots[i].number <= reports[n].value.number
    {
      assert Reported(reports[..n], roots[i]);
      var j :| 0 <= j < n && reports[..n][j] == Some(roots[i]);
      assert reports[j] == Some(roots[i]);
    }
  }

  /** In nondecreasing reports the distinct numbers increase. */
  lemma {:induction false} DistinctIncreases(reports: seq<Option<RelayRoot>>)
    requires Nondecreasing(reports)
    ensures Increasing(Distinct(reports)) && AllReported(reports, Distinct(reports))
  {
    if reports == [] {
    } else {
      var n := |reports| - 1;
      DistinctIncreases(reports[..n]);
      if reports[n].Some? {
        EarlierIsAtMost(reports, Distinct(reports[..n]));
        assert Reported(reports, reports[n].value);
      }
      assert forall r :: Reported(reports[..n], r) ==> Reported(reports, r);
    }
  }

  lemma {:induction false} LastSnoc(roots: seq<RelayRoot>, r: RelayRoot, max: nat)
    requires 1 <= max
    ensures var w := Last(roots, max);
            Last(roots + [r], max) == (if max <= |w| && w != [] then w[1..] else w) + [r]
  {
  }

  /**
    For nondecreasing reports, with gaps and repeats, the stored window is the last MaxRelayRoots
    entries of the deduplicated history.
  */
  lemma {:induction false} WindowIsRecentHistory(reports: seq<Option<RelayRoot>>, max: nat)
    requires 1 <= max && Nondecreasing(reports)
    ensures Window(reports, max) == Last(Distinct(reports), max)
  {
    if reports == [] {
    } else {
      var n := |reports| - 1;
      WindowIsRecentHistory(reports[..n], max);
      var all, last := Distinct(reports[..n]), reports[n];
      if last.Some? {
        DistinctIncreases(reports[..n]);
        EarlierIsAtMost(reports, all);
        NumberKnownToWindow(all, last.value.number, max);
        LastSnoc(all, last.value, max);
      }
    }
  }

  /** A repeated number is the latest one, so the window still has it. */
  lemma {:induction false} NumberKnownToWindow(all: seq<RelayRoot>, number: u32, max: nat)
    requires 1 <= max && Increasing(all) && AtMost(all, number)
    ensures HasNumber(Last(all, max), number) <==> HasNumber(all, number)
  {
    var w := Last(all, max);
    if HasNumber(w, number) {
      var i :| 0 <= i < |w| && w[i].number == number;
      assert all[|all| - |w| + i].number == number;
    }
    if HasNumber(all, number) {
      var i :| 0 <= i < |all| && all[i].number == number;
      assert w[|w| - 1] == all[|all| - 1];
      assert i == |all| - 1;
    }
  }

  /** No two roots have the same number. */
  ghost predicate NumbersDistinct(roots: seq<RelayRoot>) {
    forall i, j :: 0 <= i < j < |roots| ==> roots[i].number != roots[j].number
  }

  lemma {:induction false} EmptyIsSound(reports: seq<Option<RelayRoot>>)
    ensures NumbersDistinct([]) && AllReported(reports, [])
  {
  }

  lemma {:induction false} RecordKeepsDistinct(roots: seq<RelayRoot>, max: nat, report: Option<RelayRoot>)
    requires 1 <= max && |roots| <= max && NumbersDistinct(roots)
    ensures |Record(roots, max, report)| <= max && NumbersDistinct(Record(roots, max, report))
  {
  }

  lemma {:induction false} RecordAddsReport(reports: seq<Option<RelayRoot>>, roots: seq<RelayRoot>, max: nat, report: Option<RelayRoot>)
    requires AllReported(reports, roots)
    ensures AllReported(reports + [report], Record(roots, max, report))
  {
    hide HasNumber;
    assert forall r :: Reported(reports, r) ==> Reported(reports + [report], r);
    assert (reports + [report])[|reports|] == report;
  }

  /** For any reports the window is bounded, holds each number once, and only what was reported. */
  lemma {:induction false} WindowIsSound(reports: seq<Option<RelayRoot>>, max: nat)
    requires 1 <= max
    ensures var w := Window(reports, max);
            && |w| <= max
            && NumbersDistinct(w)
            && AllReported(reports, w)
  {
    hide Record;
    hide NumbersDistinct;
    hide AllReported;
    if reports == [] {
      EmptyIsSound(reports);
    } else {
      var n := |reports| - 1;
      var before := Window(reports[..n], max);
      WindowIsSound(reports[..n], max);
      RecordKeepsDistinct(before, max, reports[n]);
      RecordAddsReport(reports[..n], before, max, reports[n]);
      assert reports[..n] + [reports[n]] == reports;
    }
  }
}
