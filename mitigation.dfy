/**
 * The mitigation dispatch: each threat report with level "high" asks for its
 * process to be terminated, each with level "medium" for it to be throttled,
 * and any other level is ignored.  The two actions have no effect on any
 * state, so each call is recorded as one entry of an action log.
 */
module Mitigation {

  /** A report to act on: the process id and its threat level. */
  datatype ThreatReport = ThreatReport(id: int, threatLevel: string)

  /** A call to one of the two actions, with the id it was called on. */
  datatype Action = Terminate(pid: int) | Throttle(pid: int)

  const High: string := "high"
  const Medium: string := "medium"

  /** The calls one report causes: none, or one call on its own id. */
  function ActionsFor(r: ThreatReport): (a: seq<Action>)
    ensures |a| <= 1
    ensures forall x :: x in a ==> x.pid == r.id
    ensures Terminate(r.id) in a <==> r.threatLevel == High
    ensures Throttle(r.id) in a <==> r.threatLevel == Medium
  {
    if r.threatLevel == High then [Terminate(r.id)]
    else if r.threatLevel == Medium then [Throttle(r.id)]
    else []
  }

  /** The calls `mitigate_threats` makes, in order: each report's, in report order. */
  function Planned(reports: seq<ThreatReport>): (log: seq<Action>)
    ensures |log| <= |reports|
    ensures forall x :: x in log ==> exists r :: r in reports && x in ActionsFor(r)
  {
    if reports == [] then [] else ActionsFor(reports[0]) + Planned(reports[1..])
  }

  /** Dispatching a concatenation dispatches each part, one after the other. */
  lemma {:induction false} PlannedAppend(a: seq<ThreatReport>, b: seq<ThreatReport>)
    ensures Planned(a + b) == Planned(a) + Planned(b)
  {
    if a == [] {
      assert a + b == b;
    } else {
      assert (a + b)[0] == a[0];
      assert (a + b)[1..] == a[1..] + b;
      PlannedAppend(a[1..], b);
    }
  }

  /** Dispatching one more report appends that report's calls. */
  lemma PlannedSnoc(reports: seq<ThreatReport>, i: int)
    requires 0 <= i < |reports|
    ensures Planned(reports[..i + 1]) == Planned(reports[..i]) + ActionsFor(reports[i])
  {
    PlannedAppend(reports[..i], [reports[i]]);
    assert reports[..i + 1] == reports[..i] + [reports[i]];
    assert [reports[i]][1..] == [];
  }

  /**
   * Each report contributes its own calls at its own place in the log: the
   * log for `before + [r] + after` is the log for `before`, then `r`'s calls,
   * then the log for `after`.
   */
  lemma PlannedAt(before: seq<ThreatReport>, r: ThreatReport, after: seq<ThreatReport>)
    ensures Planned(before + [r] + after) == Planned(before) + ActionsFor(r) + Planned(after)
  {
    PlannedAppend(before + [r], after);
    PlannedAppend(before, [r]);
    assert [r][1..] == [];
  }

  /**
   * How often a terminate call on `id` is made: once for every "high" report on
   * `id`.  Likewise a throttle call once for every "medium" report.
   */
  function HighCount(reports: seq<ThreatReport>, id: int): nat {
    if reports == [] then 0
    else (if reports[0] == ThreatReport(id, High) then 1 else 0) + HighCount(reports[1..], id)
  }

  function MediumCount(reports: seq<ThreatReport>, id: int): nat {
    if reports == [] then 0
    else (if reports[0] == ThreatReport(id, Medium) then 1 else 0) + MediumCount(reports[1..], id)
  }

  lemma {:induction false} PlannedCounts(reports: seq<ThreatReport>, id: int)
    ensures multiset(Planned(reports))[Terminate(id)] == HighCount(reports, id)
    ensures multiset(Planned(reports))[Throttle(id)] == MediumCount(reports, id)
  {
    if reports != [] {
      PlannedCounts(reports[1..], id);
      var r := reports[0];
      assert multiset(Planned(reports)) == multiset(ActionsFor(r)) + multiset(Planned(reports[1..]));
      if r.threatLevel == High {
        assert ActionsFor(r) == [Terminate(r.id)];
      } else if r.threatLevel == Medium {
        assert ActionsFor(r) == [Throttle(r.id)];
      } else {
        assert ActionsFor(r) == [];
      }
    }
  }

  /** Reports whose level is neither "high" nor "medium" leave no trace in the log. */
  lemma {:induction false} IgnoredReportsAddNothing(reports: seq<ThreatReport>)
    requires forall r :: r in reports ==> r.threatLevel != High && r.threatLevel != Medium
    ensures Planned(reports) == []
  {
    if reports != [] {
      assert reports[0] in reports;
      IgnoredReportsAddNothing(reports[1..]);
    }
  }

  /** `mitigate_threats`: one pass over the reports, recording each action call made. */
  method MitigateThreats(suspicious: seq<ThreatReport>) returns (log: seq<Action>)
    ensures log == Planned(suspicious)
  {
    log := [];
    var i := 0;
    while i < |suspicious|
      invariant 0 <= i <= |suspicious|
      invariant log == Planned(suspicious[..i])
    {
      var process := suspicious[i];
      PlannedSnoc(suspicious, i);
      if process.threatLevel == High {
        log := log + [Terminate(process.id)];
      } else if process.threatLevel == Medium {
        log := log + [Throttle(process.id)];
      }
      i := i + 1;
    }
    assert suspicious[..i] == suspicious;
  }
}
