/**
 * The intrusion filter: keeps every process record whose CPU usage, memory
 * usage, process-creation rate or waiting time is above a fixed limit.  The
 * four tests form an `elif` chain, so a record is kept once however many of
 * them fire; the first one that fires is its reason.
 */
module Detection {

  datatype Option<T> = None | Some(value: T)

  /** The fields of a process record the filter reads; `id` travels with it. */
  datatype ProcessSample = ProcessSample(
    id: int,
    cpuUsage: real,
    memoryUsage: real,
    creationRate: real,
    waitingTime: real)

  /** The branch of the `elif` chain that keeps a record. */
  datatype Reason = CpuExcess | MemoryExcess | CreationRateExcess | LongWait

  const CpuLimit: real := 80.0
  const MemoryLimit: real := 80.0
  const CreationRateLimit: real := 5.0
  const WaitingTimeLimit: real := 30.0

  /** The first test of the chain that fires, if any.  Each comparison is strict. */
  function FirstReason(p: ProcessSample): (r: Option<Reason>)
    ensures r == Some(CpuExcess) <==> p.cpuUsage > CpuLimit
    ensures r == Some(MemoryExcess) <==> p.cpuUsage <= CpuLimit && p.memoryUsage > MemoryLimit
    ensures r == Some(CreationRateExcess) <==>
              p.cpuUsage <= CpuLimit && p.memoryUsage <= MemoryLimit && p.creationRate > CreationRateLimit
    ensures r == Some(LongWait) <==>
              p.cpuUsage <= CpuLimit && p.memoryUsage <= MemoryLimit && p.creationRate <= CreationRateLimit &&
              p.waitingTime > WaitingTimeLimit
  {
    if p.cpuUsage > CpuLimit then Some(CpuExcess)
    else if p.memoryUsage > MemoryLimit then Some(MemoryExcess)
    else if p.creationRate > CreationRateLimit then Some(CreationRateExcess)
    else if p.waitingTime > WaitingTimeLimit then Some(LongWait)
    else None
  }

  /**
   * Some branch of the chain keeps `p`: exactly when one of the four
   * measurements is over its limit.
   */
  predicate Flagged(p: ProcessSample): (r: bool)
    ensures r <==>
              p.cpuUsage > CpuLimit || p.memoryUsage > MemoryLimit ||
              p.creationRate > CreationRateLimit || p.waitingTime > WaitingTimeLimit
  {
    FirstReason(p).Some?
  }

  /** A record sitting exactly at every limit, or below all of them, is not kept. */
  lemma AtLimitsNotFlagged(p: ProcessSample)
    requires p.cpuUsage <= CpuLimit && p.memoryUsage <= MemoryLimit
    requires p.creationRate <= CreationRateLimit && p.waitingTime <= WaitingTimeLimit
    ensures !Flagged(p)
  {
  }

  /** The records `detect_intrusion` returns: the flagged ones, in input order. */
  function Suspicious(s: seq<ProcessSample>): (r: seq<ProcessSample>)
    ensures |r| <= |s|
    ensures forall x :: x in r <==> x in s && Flagged(x)
  {
    if s == [] then []
    else (if Flagged(s[0]) then [s[0]] else []) + Suspicious(s[1..])
  }

  /** Filtering a concatenation filters each part. */
  lemma {:induction false} SuspiciousAppend(a: seq<ProcessSample>, b: seq<ProcessSample>)
    ensures Suspicious(a + b) == Suspicious(a) + Suspicious(b)
  {
    if a == [] {
      assert a + b == b;
    } else {
      assert (a + b)[0] == a[0];
      assert (a + b)[1..] == a[1..] + b;
      SuspiciousAppend(a[1..], b);
    }
  }

  /** Scanning one more record appends it exactly when it is flagged. */
  lemma SuspiciousSnoc(s: seq<ProcessSample>, i: int)
    requires 0 <= i < |s|
    ensures Suspicious(s[..i + 1]) == Suspicious(s[..i]) + (if Flagged(s[i]) then [s[i]] else [])
  {
    SuspiciousAppend(s[..i], [s[i]]);
    assert s[..i + 1] == s[..i] + [s[i]];
    assert [s[i]][1..] == [];
  }

  /** `a` is `b` with some entries deleted, order kept. */
  predicate IsSubsequence<T(==)>(a: seq<T>, b: seq<T>)
    decreases |b|
  {
    if a == [] then true
    else if b == [] then false
    else if a[0] == b[0] then IsSubsequence(a[1..], b[1..])
    else IsSubsequence(a, b[1..])
  }

  /** The result comes from the input in its original order. */
  lemma {:induction false} SuspiciousIsSubsequence(s: seq<ProcessSample>)
    ensures IsSubsequence(Suspicious(s), s)
  {
    if s != [] {
      SuspiciousIsSubsequence(s[1..]);
      assert s == [s[0]] + s[1..];
      if Flagged(s[0]) {
        assert Suspicious(s) == [s[0]] + Suspicious(s[1..]);
        assert Suspicious(s)[0] == s[0] && Suspicious(s)[1..] == Suspicious(s[1..]);
      } else {
        // A kept record is flagged, so it cannot be the unflagged head.
        assert Suspicious(s) == Suspicious(s[1..]);
        assert Suspicious(s) != [] ==> Suspicious(s)[0] != s[0];
      }
    }
  }

  /**
   * Each flagged input entry appears once in the result, however many tests it
   * passes, and an unflagged one not at all.
   */
  lemma {:induction false} SuspiciousCounts(s: seq<ProcessSample>, x: ProcessSample)
    ensures multiset(Suspicious(s))[x] == if Flagged(x) then multiset(s)[x] else 0
  {
    if s != [] {
      SuspiciousCounts(s[1..], x);
      assert s == [s[0]] + s[1..];
      assert multiset(s)[x] == multiset([s[0]])[x] + multiset(s[1..])[x];
      assert multiset(Suspicious(s))[x] ==
             multiset(if Flagged(s[0]) then [s[0]] else [])[x] + multiset(Suspicious(s[1..]))[x];
    }
  }

  /** `detect_intrusion`: one pass over the records, appending each flagged one. */
  method DetectIntrusion(processes: seq<ProcessSample>) returns (suspicious: seq<ProcessSample>)
    ensures suspicious == Suspicious(processes)
    ensures forall x :: x in suspicious <==> x in processes && Flagged(x)
  {
    suspicious := [];
    var i := 0;
    while i < |processes|
      invariant 0 <= i <= |processes|
      invariant suspicious == Suspicious(processes[..i])
    {
      var process := processes[i];
      SuspiciousSnoc(processes, i);
      if process.cpuUsage > CpuLimit {
        suspicious := suspicious + [process];
      } else if process.memoryUsage > MemoryLimit {
        suspicious := suspicious + [process];
      } else if process.creationRate > CreationRateLimit {
        suspicious := suspicious + [process];
      } else if process.waitingTime > WaitingTimeLimit {
        suspicious := suspicious + [process];
      }
      i := i + 1;
    }
    assert processes[..i] == processes;
  }
}
