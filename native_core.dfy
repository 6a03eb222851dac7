/**
 * The interpreted fallbacks of the four numeric routines of the native
 * acceleration layer: priority pick, round-robin index pick, aging and
 * usage-threshold flagging.  Each works on parallel integer lists; they are
 * modelled as loops over `seq<int>` proved against declarative
 * specifications.
 */
module NativeCore {

  /** Initial "best priority" of the priority pick loop (Python's 10**9). */
  const PrioritySentinel: int := 1_000_000_000

  /** Default `aging_factor` of `apply_aging`. */
  const DefaultAgingFactor: int := 1

  /** Default `cpu_threshold` and `mem_threshold` of `detect_intrusion_by_usage`. */
  const DefaultCpuThreshold: int := 80
  const DefaultMemThreshold: int := 80

  // ---------------------------------------------------------------------
  // Priority pick
  // ---------------------------------------------------------------------

  /** Entry `i` is eligible: it has work left and beats the sentinel. */
  ghost predicate Selectable(priorities: seq<int>, remaining: seq<int>, i: int)
    requires 0 <= i < |priorities| && i < |remaining|
  {
    remaining[i] > 0 && priorities[i] < PrioritySentinel
  }

  /**
   * Index `i` is the one the priority pick selects among the first `n`
   * entries: eligible, of least priority among the entries with work left,
   * and strictly better than every earlier entry with work left (so the
   * lowest index wins ties).
   */
  ghost predicate IsPriorityChoice(priorities: seq<int>, remaining: seq<int>, n: int, i: int)
    requires n <= |priorities| && n <= |remaining|
  {
    && 0 <= i < n
    && Selectable(priorities, remaining, i)
    && (forall j :: 0 <= j < n && remaining[j] > 0 ==> priorities[i] <= priorities[j])
    && (forall j :: 0 <= j < i && remaining[j] > 0 ==> priorities[i] < priorities[j])
  }

  /** No entry among the first `n` can be selected. */
  ghost predicate NoPriorityCandidate(priorities: seq<int>, remaining: seq<int>, n: int)
    requires n <= |priorities| && n <= |remaining|
  {
    forall i :: 0 <= i < n ==> !Selectable(priorities, remaining, i)
  }

  /** The priority choice, when there is one, is unique: the pick is deterministic. */
  lemma PriorityChoiceUnique(priorities: seq<int>, remaining: seq<int>, n: int, i: int, j: int)
    requires n <= |priorities| && n <= |remaining|
    requires IsPriorityChoice(priorities, remaining, n, i)
    requires IsPriorityChoice(priorities, remaining, n, j)
    ensures i == j
  {
  }

  /** Fallback of `schedule_next_priority`: the pid of the least-priority entry with work left, or -1. */
  method ScheduleNextPriority(pids: seq<int>, priorities: seq<int>, remaining: seq<int>) returns (pid: int)
    requires |pids| <= |priorities| && |pids| <= |remaining|
    ensures NoPriorityCandidate(priorities, remaining, |pids|) ==> pid == -1
    ensures !NoPriorityCandidate(priorities, remaining, |pids|) ==>
              exists i :: IsPriorityChoice(priorities, remaining, |pids|, i) && pid == pids[i]
  {
    if |pids| == 0 {
      return -1;
    }
    var n := |pids|;
    var bestIdx := -1;
    var bestPrio := PrioritySentinel;
    var i := 0;
    while i < n
      invariant 0 <= i <= n
      invariant -1 <= bestIdx < i
      invariant bestIdx == -1 ==> bestPrio == PrioritySentinel
      invariant bestIdx >= 0 ==> Selectable(priorities, remaining, bestIdx) && bestPrio == priorities[bestIdx]
      invariant forall j :: 0 <= j < i && remaining[j] > 0 ==> bestPrio <= priorities[j]
      invariant bestIdx >= 0 ==> forall j :: 0 <= j < bestIdx && remaining[j] > 0 ==> bestPrio < priorities[j]
    {
      if remaining[i] > 0 && priorities[i] < bestPrio {
        bestPrio := priorities[i];
        bestIdx := i;
      }
      i := i + 1;
    }
    if bestIdx >= 0 {
      assert IsPriorityChoice(priorities, remaining, n, bestIdx);
      pid := pids[bestIdx];
    } else {
      pid := -1;
    }
  }

  // ---------------------------------------------------------------------
  // Round-robin index pick
  // ---------------------------------------------------------------------

  /** Where the cyclic scan begins: `(last_index + 1) mod n`, or 0 for an empty list. */
  function RrStart(lastIndex: int, n: nat): (s: nat)
    ensures n > 0 ==> s < n
    ensures n > 0 && -1 <= lastIndex < n - 1 ==> s == lastIndex + 1
    ensures n > 0 && lastIndex == n - 1 ==> s == 0
  {
    if n > 0 then (lastIndex + 1) % n else 0
  }

  /**
   * The index visited at step `k` of a cyclic scan from `start` over `n`
   * entries: always a valid index, `start + k` itself while that is one, and
   * wrapped round to the front once it runs past the end.
   */
  function Cyclic(start: int, k: int, n: nat): (r: int)
    requires n > 0
    ensures 0 <= r < n
    ensures 0 <= start + k < n ==> r == start + k
    ensures n <= start + k < 2 * n ==> r == start + k - n
  {
    (start + k) % n
  }

  /** The first `n` steps of a cyclic scan from a valid index visit `n` different indices. */
  lemma CyclicDistinct(start: int, n: nat, j: int, k: int)
    requires 0 <= start < n && 0 <= j < k < n
    ensures Cyclic(start, j, n) != Cyclic(start, k, n)
  {
  }

  /** Every index of `[0, n)` is visited within the first `n` steps of a cyclic scan. */
  lemma CyclicCovers(start: int, n: nat, m: int) returns (k: int)
    requires 0 <= start < n && 0 <= m < n
    ensures 0 <= k < n && Cyclic(start, k, n) == m
  {
    if start <= m {
      k := m - start;
    } else {
      k := m - start + n;
      assert start + k == m + n;
      assert (m + n) % n == m;
    }
  }

  /** Fallback of `schedule_next_rr_index`: first index with work left in cyclic order, or -1. */
  method ScheduleNextRrIndex(pids: seq<int>, remaining: seq<int>, lastIndex: int) returns (idx: int)
    requires |pids| <= |remaining|
    ensures idx == -1 <==> forall i :: 0 <= i < |pids| ==> remaining[i] <= 0
    ensures idx != -1 ==> 0 <= idx < |pids| && remaining[idx] > 0
    ensures idx != -1 ==>
              exists k :: 0 <= k < |pids| && idx == Cyclic(RrStart(lastIndex, |pids|), k, |pids|) &&
                          forall j :: 0 <= j < k ==> remaining[Cyclic(RrStart(lastIndex, |pids|), j, |pids|)] <= 0
  {
    if |pids| == 0 {
      return -1;
    }
    var n := |pids|;
    var start := RrStart(lastIndex, n);
    var i := 0;
    while i < n
      invariant 0 <= i <= n
      invariant forall j :: 0 <= j < i ==> remaining[Cyclic(start, j, n)] <= 0
    {
      var cur := Cyclic(start, i, n);
      if remaining[cur] > 0 {
        return cur;
      }
      i := i + 1;
    }
    forall m | 0 <= m < n
      ensures remaining[m] <= 0
    {
      var k := CyclicCovers(start, n, m);
    }
    idx := -1;
  }

  // ---------------------------------------------------------------------
  // Aging
  // ---------------------------------------------------------------------

  /** The divisor aging uses: the factor when positive, else 1. */
  function EffectiveFactor(agingFactor: int): (f: int)
    ensures f >= 1
    ensures agingFactor > 0 ==> f == agingFactor
  {
    if agingFactor > 0 then agingFactor else 1
  }

  /** `max(0, priority - waiting // f)`; Python's floor division equals Dafny's `/` for `f >= 1`. */
  function Aged(priority: int, waiting: int, agingFactor: int): (r: int)
    ensures r >= 0
  {
    var aged := priority - waiting / EffectiveFactor(agingFactor);
    if aged > 0 then aged else 0
  }

  /** Floor division by a positive divisor is monotone in the dividend. */
  lemma DivMonotone(a: int, b: int, f: int)
    requires f >= 1 && a <= b
    ensures a / f <= b / f
  {
    assert a == f * (a / f) + a % f;
    DivLowerBound(b, a / f, f);
  }

  /** Multiplying by a positive factor preserves `<=`. */
  lemma MulMonotone(f: int, x: int, y: int)
    requires f >= 1 && x <= y
    ensures f * x <= f * y
  {
    assert f * y - f * x == f * (y - x);
  }

  /** A dividend of at least `p * f` has a quotient of at least `p`. */
  lemma DivLowerBound(w: int, p: int, f: int)
    requires f >= 1 && w >= p * f
    ensures w / f >= p
  {
    var q, r := w / f, w % f;
    assert w == f * q + r && 0 <= r < f;
    if q < p {
      MulMonotone(f, q + 1, p);
      assert false;
    }
  }

  /** Aging is monotone: waiting longer never yields a larger aged priority. */
  lemma AgingMonotone(priority: int, w1: int, w2: int, agingFactor: int)
    requires w1 <= w2
    ensures Aged(priority, w2, agingFactor) <= Aged(priority, w1, agingFactor)
  {
    DivMonotone(w1, w2, EffectiveFactor(agingFactor));
  }

  /** With a non-negative waiting time, aging never makes a priority worse than it was (nor negative). */
  lemma AgingNeverRaises(priority: int, waiting: int, agingFactor: int)
    requires waiting >= 0
    ensures Aged(priority, waiting, agingFactor) <= if priority > 0 then priority else 0
  {
    DivMonotone(0, waiting, EffectiveFactor(agingFactor));
  }

  /** Waiting `priority * f` or longer ages any priority down to 0. */
  lemma AgingReachesZero(priority: int, waiting: int, agingFactor: int)
    requires waiting >= priority * EffectiveFactor(agingFactor)
    ensures Aged(priority, waiting, agingFactor) == 0
  {
    DivLowerBound(waiting, priority, EffectiveFactor(agingFactor));
  }

  /** A factor of 0 or below is treated exactly as the default factor 1. */
  lemma NonPositiveFactorIsDefault(priority: int, waiting: int, agingFactor: int)
    requires agingFactor <= 0
    ensures Aged(priority, waiting, agingFactor) == Aged(priority, waiting, DefaultAgingFactor)
    ensures Aged(priority, waiting, agingFactor) == if priority - waiting > 0 then priority - waiting else 0
  {
  }

  /** Fallback of `apply_aging`: every priority aged by its own waiting time. */
  method ApplyAging(priorities: seq<int>, waitingTime: seq<int>, agingFactor: int) returns (out: seq<int>)
    requires |priorities| <= |waitingTime|
    ensures |out| == |priorities|
    ensures forall i :: 0 <= i < |out| ==> out[i] == Aged(priorities[i], waitingTime[i], agingFactor)
    ensures forall i :: 0 <= i < |out| ==> out[i] >= 0
  {
    if |priorities| == 0 {
      return [];
    }
    var n := |priorities|;
    var f := EffectiveFactor(agingFactor);
    out := [];
    var i := 0;
    while i < n
      invariant 0 <= i <= n
      invariant |out| == i
      invariant forall j :: 0 <= j < i ==> out[j] == Aged(priorities[j], waitingTime[j], agingFactor)
    {
      var aged := priorities[i] - waitingTime[i] / f;
      out := out + [if aged > 0 then aged else 0];
      i := i + 1;
    }
  }

  /**
   * `apply_aging(priorities, waiting_time)` with the default factor 1: each
   * priority lowered by its whole waiting time, never below 0.
   */
  method ApplyAgingDefault(priorities: seq<int>, waitingTime: seq<int>) returns (out: seq<int>)
    requires |priorities| <= |waitingTime|
    ensures |out| == |priorities|
    ensures forall i :: 0 <= i < |out| ==>
              out[i] == if priorities[i] - waitingTime[i] > 0 then priorities[i] - waitingTime[i] else 0
  {
    out := ApplyAging(priorities, waitingTime, DefaultAgingFactor);
  }

  // ---------------------------------------------------------------------
  // Usage-threshold flagging
  // ---------------------------------------------------------------------

  /** Number of `true` entries. */
  function CountTrue(flags: seq<bool>): (c: nat)
    ensures c <= |flags|
  {
    if flags == [] then 0
    else CountTrue(flags[..|flags| - 1]) + (if flags[|flags| - 1] then 1 else 0)
  }

  /** The count is zero exactly when no flag is set. */
  lemma {:induction false} CountTrueZero(flags: seq<bool>)
    ensures CountTrue(flags) == 0 <==> forall i :: 0 <= i < |flags| ==> !flags[i]
  {
    if flags != [] {
      CountTrueZero(flags[..|flags| - 1]);
      assert forall i :: 0 <= i < |flags| - 1 ==> flags[..|flags| - 1][i] == flags[i];
    }
  }

  /** The count is the length exactly when every flag is set. */
  lemma {:induction false} CountTrueAll(flags: seq<bool>)
    ensures CountTrue(flags) == |flags| <==> forall i :: 0 <= i < |flags| ==> flags[i]
  {
    if flags != [] {
      CountTrueAll(flags[..|flags| - 1]);
      assert forall i :: 0 <= i < |flags| - 1 ==> flags[..|flags| - 1][i] == flags[i];
    }
  }

  /** Fallback of `detect_intrusion_by_usage`: a strict-threshold flag per entry and their count. */
  method DetectIntrusionByUsage(pids: seq<int>, cpu: seq<int>, mem: seq<int>, cpuThreshold: int, memThreshold: int)
    returns (flags: seq<bool>, count: int)
    requires |pids| <= |cpu| && |pids| <= |mem|
    ensures |flags| == |pids|
    ensures forall i :: 0 <= i < |pids| ==> (flags[i] <==> cpu[i] > cpuThreshold || mem[i] > memThreshold)
    ensures count == CountTrue(flags)
    ensures 0 <= count <= |pids|
  {
    if |pids| == 0 {
      return [], 0;
    }
    var n := |pids|;
    flags := [];
    count := 0;
    var i := 0;
    while i < n
      invariant 0 <= i <= n
      invariant |flags| == i
      invariant forall j :: 0 <= j < i ==> (flags[j] <==> cpu[j] > cpuThreshold || mem[j] > memThreshold)
      invariant count == CountTrue(flags)
    {
      var flag := cpu[i] > cpuThreshold || mem[i] > memThreshold;
      assert (flags + [flag])[..i] == flags;
      flags := flags + [flag];
      count := count + (if flag then 1 else 0);
      i := i + 1;
    }
  }

  /**
   * `detect_intrusion_by_usage(pids, cpu, mem)` with both thresholds at their
   * default 80: an entry is flagged exactly when its CPU or memory figure is above 80.
   */
  method DetectIntrusionByUsageDefault(pids: seq<int>, cpu: seq<int>, mem: seq<int>)
    returns (flags: seq<bool>, count: int)
    requires |pids| <= |cpu| && |pids| <= |mem|
    ensures |flags| == |pids|
    ensures forall i :: 0 <= i < |pids| ==> (flags[i] <==> cpu[i] > 80 || mem[i] > 80)
    ensures count == CountTrue(flags)
    ensures 0 <= count <= |pids|
  {
    flags, count := DetectIntrusionByUsage(pids, cpu, mem, DefaultCpuThreshold, DefaultMemThreshold);
  }
}
