/**
 * The process simulator: mutable process records held by a scheduler that
 * runs them either round-robin with a time quantum or once each in order of
 * (priority, arrival time).
 *
 * The list may hold the same process object more than once (nothing in
 * `add_process` prevents it); every contract below is stated per object, in
 * terms of how many times that object occurs in the list.
 */
module Scheduling {

  /**
   * A simulated process.  Its identity, priority, arrival time and burst are
   * fixed at construction (nothing in the simulator assigns them again), so
   * they are `const`; the remaining time, the CPU charged to it and its memory
   * consumption are updated in place.
   */
  class Process {
    const pid: int
    const priority: int
    const arrivalTime: int
    const burstTime: int
    var remainingTime: int
    var cpuUsage: int
    var memoryConsumption: int

    constructor (pid: int, priority: int, arrivalTime: int, burstTime: int)
      ensures this.pid == pid && this.priority == priority
      ensures this.arrivalTime == arrivalTime && this.burstTime == burstTime
      ensures remainingTime == burstTime
      ensures cpuUsage == 0 && memoryConsumption == 0
    {
      this.pid := pid;
      this.priority := priority;
      this.arrivalTime := arrivalTime;
      this.burstTime := burstTime;
      remainingTime := burstTime;
      cpuUsage := 0;
      memoryConsumption := 0;
    }
  }

  // ---------------------------------------------------------------------
  // Ordering by (priority, arrival time)
  // ---------------------------------------------------------------------

  /**
   * `a` sorts no later than `b`: the tuple (priority, arrival time) compared
   * lexicographically, so the priority decides and the arrival time breaks a tie.
   */
  predicate KeyLe(a: Process, b: Process): (r: bool)
    ensures a.priority < b.priority ==> r
    ensures a.priority > b.priority ==> !r
    ensures a.priority == b.priority ==> (r <==> a.arrivalTime <= b.arrivalTime)
  {
    a.priority < b.priority || (a.priority == b.priority && a.arrivalTime <= b.arrivalTime)
  }

  /** The key order is total and transitive, and two entries each no later than the other share a key. */
  lemma KeyLePreorder(a: Process, b: Process, c: Process)
    ensures KeyLe(a, b) || KeyLe(b, a)
    ensures KeyLe(a, b) && KeyLe(b, c) ==> KeyLe(a, c)
    ensures KeyLe(a, b) && KeyLe(b, a) ==> a.priority == b.priority && a.arrivalTime == b.arrivalTime
  {
  }

  /** Ascending by key. */
  predicate SortedByKey(s: seq<Process>) {
    forall i, j {:trigger KeyLe(s[i], s[j])} :: 0 <= i < j < |s| ==> KeyLe(s[i], s[j])
  }

  /** The entries of `s` whose key is exactly `(priority, arrivalTime)`, in their order in `s`. */
  function WithKey(s: seq<Process>, priority: int, arrivalTime: int): (r: seq<Process>)
    ensures |r| <= |s|
  {
    if s == [] then []
    else
      (if s[0].priority == priority && s[0].arrivalTime == arrivalTime then [s[0]] else [])
      + WithKey(s[1..], priority, arrivalTime)
  }

  /** Inserts `x` in front of the first entry it sorts no later than: after every strictly smaller key. */
  function Insert(x: Process, t: seq<Process>): (r: seq<Process>)
    ensures |r| == |t| + 1
    ensures multiset(r) == multiset(t) + multiset{x}
  {
    if t == [] then [x]
    else if KeyLe(x, t[0]) then [x] + t
    else
      assert t == [t[0]] + t[1..];
      [t[0]] + Insert(x, t[1..])
  }

  /** Putting in front of a sorted list an entry no later than any of its entries keeps it sorted. */
  lemma SortedCons(y: Process, t: seq<Process>)
    requires SortedByKey(t)
    requires forall k :: 0 <= k < |t| ==> KeyLe(y, t[k])
    ensures SortedByKey([y] + t)
  {
    var r := [y] + t;
    forall i, j | 0 <= i < j < |r|
      ensures KeyLe(r[i], r[j])
    {
      assert r[j] == t[j - 1];
      if i > 0 {
        assert r[i] == t[i - 1];
      }
    }
  }

  /** Inserting into a sorted list keeps it sorted. */
  lemma {:induction false} InsertSorted(x: Process, t: seq<Process>)
    requires SortedByKey(t)
    ensures SortedByKey(Insert(x, t))
  {
    if t == [] {
      assert Insert(x, t) == [x];
    } else if KeyLe(x, t[0]) {
      assert Insert(x, t) == [x] + t;
      forall k | 0 <= k < |t|
        ensures KeyLe(x, t[k])
      {
        if k > 0 {
          assert KeyLe(t[0], t[k]);
        }
      }
      SortedCons(x, t);
    } else {
      var rest := Insert(x, t[1..]);
      assert Insert(x, t) == [t[0]] + rest;
      assert SortedByKey(t[1..]) by {
        forall i, j | 0 <= i < j < |t[1..]|
          ensures KeyLe(t[1..][i], t[1..][j])
        {
          assert KeyLe(t[i + 1], t[j + 1]);
        }
      }
      InsertSorted(x, t[1..]);
      forall k | 0 <= k < |rest|
        ensures KeyLe(t[0], rest[k])
      {
        assert rest[k] in multiset(rest);
        if rest[k] != x {
          assert rest[k] in multiset(t[1..]);
          var m :| 0 <= m < |t[1..]| && t[1..][m] == rest[k];
          assert t[m + 1] == rest[k];
          assert KeyLe(t[0], t[m + 1]);
        }
      }
      SortedCons(t[0], rest);
    }
  }

  /** Stable sort by key: the model of Python's `list.sort(key=lambda x: (x.priority, x.arrival_time))`. */
  function SortByKey(s: seq<Process>): (r: seq<Process>)
    ensures |r| == |s|
    ensures multiset(r) == multiset(s)
    ensures SortedByKey(r)
  {
    if s == [] then []
    else
      assert s == [s[0]] + s[1..];
      InsertSorted(s[0], SortByKey(s[1..]));
      Insert(s[0], SortByKey(s[1..]))
  }

  /** The entries of `y` followed by `s` that have the key: `y` if it has it, then those of `s`. */
  lemma WithKeyCons(y: Process, s: seq<Process>, priority: int, arrivalTime: int)
    ensures WithKey([y] + s, priority, arrivalTime) == KeyPart(y, priority, arrivalTime) + WithKey(s, priority, arrivalTime)
  {
    assert ([y] + s)[0] == y;
    assert ([y] + s)[1..] == s;
  }

  /** The entries of `[x]` that have the key. */
  function KeyPart(x: Process, priority: int, arrivalTime: int): seq<Process> {
    if x.priority == priority && x.arrivalTime == arrivalTime then [x] else []
  }

  /** Inserting `x` puts it first among the entries with its own key and leaves the other keys' order alone. */
  lemma {:induction false} InsertWithKey(x: Process, t: seq<Process>, priority: int, arrivalTime: int)
    ensures WithKey(Insert(x, t), priority, arrivalTime) == KeyPart(x, priority, arrivalTime) + WithKey(t, priority, arrivalTime)
    decreases |t|, 1
  {
    if t == [] {
      assert Insert(x, t) == [x] + [];
      WithKeyCons(x, [], priority, arrivalTime);
    } else if KeyLe(x, t[0]) {
      assert Insert(x, t) == [x] + t;
      WithKeyCons(x, t, priority, arrivalTime);
    } else {
      InsertWithKeyBehind(x, t, priority, arrivalTime);
    }
  }

  /** The step of `InsertWithKey` where `x` goes behind the head `t[0]`, whose key is strictly smaller. */
  lemma {:induction false} InsertWithKeyBehind(x: Process, t: seq<Process>, priority: int, arrivalTime: int)
    requires t != [] && !KeyLe(x, t[0])
    ensures WithKey(Insert(x, t), priority, arrivalTime) == KeyPart(x, priority, arrivalTime) + WithKey(t, priority, arrivalTime)
    decreases |t|, 0
  {
    var hx, h0 := KeyPart(x, priority, arrivalTime), KeyPart(t[0], priority, arrivalTime);
    var w := WithKey(t[1..], priority, arrivalTime);
    assert WithKey(Insert(x, t), priority, arrivalTime) == h0 + (hx + w) by {
      var rest := Insert(x, t[1..]);
      assert Insert(x, t) == [t[0]] + rest;
      InsertWithKey(x, t[1..], priority, arrivalTime);
      WithKeyCons(t[0], rest, priority, arrivalTime);
    }
    assert WithKey(t, priority, arrivalTime) == h0 + w by {
      assert t == [t[0]] + t[1..];
      WithKeyCons(t[0], t[1..], priority, arrivalTime);
    }
    // `t[0]` sorts strictly before `x`, so at most one of them has the key.
    assert h0 + (hx + w) == hx + (h0 + w) by {
      if hx != [] {
        assert h0 == [];
      }
    }
  }

  /** The sort is stable: entries with equal keys keep their relative order. */
  lemma {:induction false} SortByKeyStable(s: seq<Process>, priority: int, arrivalTime: int)
    ensures WithKey(SortByKey(s), priority, arrivalTime) == WithKey(s, priority, arrivalTime)
  {
    if s != [] {
      SortByKeyStable(s[1..], priority, arrivalTime);
      InsertWithKey(s[0], SortByKey(s[1..]), priority, arrivalTime);
    }
  }

  /** An already sorted list is left exactly as it is. */
  lemma {:induction false} SortByKeySorted(s: seq<Process>)
    requires SortedByKey(s)
    ensures SortByKey(s) == s
  {
    if s != [] {
      SortByKeySorted(s[1..]);
      assert SortByKey(s[1..]) == s[1..];
      if |s| > 1 {
        assert KeyLe(s[0], s[1]);
      }
    }
  }

  // ---------------------------------------------------------------------
  // CPU charged per occurrence
  // ---------------------------------------------------------------------

  /** The burst of `p` summed over every occurrence of `p` in `s`: what one charge per occurrence adds up to. */
  function Charged(s: seq<Process>, p: Process): int {
    if s == [] then 0 else (if s[0] == p then p.burstTime else 0) + Charged(s[1..], p)
  }

  lemma {:induction false} ChargedAppend(a: seq<Process>, b: seq<Process>, p: Process)
    ensures Charged(a + b, p) == Charged(a, p) + Charged(b, p)
  {
    if a != [] {
      assert (a + b)[0] == a[0];
      assert (a + b)[1..] == a[1..] + b;
      ChargedAppend(a[1..], b, p);
    } else {
      assert a + b == b;
    }
  }

  /** A single entry is charged its burst exactly when it is `p`. */
  lemma ChargedSingle(x: Process, p: Process)
    ensures Charged([x], p) == if x == p then p.burstTime else 0
  {
    assert [x][1..] == [];
  }

  lemma MulSucc(b: int, c: int)
    ensures b * (c + 1) == b * c + b
  {
  }

  /** One charge per occurrence is the burst times the number of occurrences; once for an entry listed once. */
  lemma {:induction false} ChargedCount(s: seq<Process>, p: Process)
    ensures Charged(s, p) == p.burstTime * multiset(s)[p]
  {
    if s != [] {
      ChargedCount(s[1..], p);
      var c := multiset(s[1..])[p];
      assert s == [s[0]] + s[1..];
      if s[0] == p {
        assert multiset(s)[p] == c + 1;
        MulSucc(p.burstTime, c);
      } else {
        assert multiset(s)[p] == c;
      }
    }
  }

  /** `ChargedCount` for every process at once. */
  lemma ChargedCounts(s: seq<Process>)
    ensures forall p :: Charged(s, p) == p.burstTime * multiset(s)[p]
  {
    forall p
      ensures Charged(s, p) == p.burstTime * multiset(s)[p]
    {
      ChargedCount(s, p);
    }
  }

  /** Sorting moves entries but charges everyone exactly what the unsorted list would. */
  lemma ChargedSorted(s: seq<Process>)
    ensures forall p :: Charged(SortByKey(s), p) == p.burstTime * multiset(s)[p]
  {
    forall p
      ensures Charged(SortByKey(s), p) == p.burstTime * multiset(s)[p]
    {
      ChargedCount(SortByKey(s), p);
    }
  }

  // ---------------------------------------------------------------------
  // The simulated clock of a run in list order
  // ---------------------------------------------------------------------

  /**
   * The clock after running `s` in order from time 0: each entry waits for its
   * arrival when the clock is behind it, then runs for its burst.
   */
  function Finish(s: seq<Process>): (t: int)
    ensures s != [] ==> t >= s[|s| - 1].arrivalTime + s[|s| - 1].burstTime
  {
    if s == [] then 0
    else
      var last := s[|s| - 1];
      var t0 := Finish(s[..|s| - 1]);
      (if t0 < last.arrivalTime then last.arrivalTime else t0) + last.burstTime
  }

  /** Running one more entry of `s`: wait for its arrival if the clock is behind, then add its burst. */
  lemma FinishSnoc(s: seq<Process>, i: int)
    requires 0 <= i < |s|
    ensures Finish(s[..i + 1]) ==
            (if Finish(s[..i]) < s[i].arrivalTime then s[i].arrivalTime else Finish(s[..i])) + s[i].burstTime
  {
    assert s[..i + 1][..i] == s[..i];
  }

  /** With no negative bursts the clock never runs backwards: a longer prefix finishes no earlier. */
  lemma {:induction false} FinishMonotone(s: seq<Process>, i: int, j: int)
    requires 0 <= i <= j <= |s|
    requires forall k :: 0 <= k < |s| ==> s[k].burstTime >= 0
    ensures Finish(s[..i]) <= Finish(s[..j])
  {
    if i < j {
      FinishMonotone(s, i, j - 1);
      assert s[..j][..j - 1] == s[..j - 1];
    }
  }

  /** With no negative bursts no entry finishes before its own arrival plus burst, wherever it sits in the run. */
  lemma FinishAfterEach(s: seq<Process>, k: int)
    requires 0 <= k < |s|
    requires forall m :: 0 <= m < |s| ==> s[m].burstTime >= 0
    ensures Finish(s) >= s[k].arrivalTime + s[k].burstTime
  {
    assert s[..k + 1][k] == s[k];
    FinishMonotone(s, k + 1, |s|);
    assert s[..|s|] == s;
  }

  // ---------------------------------------------------------------------
  // Round-robin termination measure
  // ---------------------------------------------------------------------

  /** The positive part of a remaining time. */
  function Pos(x: int): nat {
    if x > 0 then x else 0
  }

  /** Total outstanding work of the queue's entries, read from a snapshot of remaining times. */
  ghost function Work(queue: seq<Process>, rem: map<Process, int>): nat
    requires forall p :: p in queue ==> p in rem
  {
    if queue == [] then 0 else Pos(rem[queue[0]]) + Work(queue[1..], rem)
  }

  lemma {:induction false} WorkAppend(a: seq<Process>, b: seq<Process>, rem: map<Process, int>)
    requires forall p :: p in a ==> p in rem
    requires forall p :: p in b ==> p in rem
    ensures forall p :: p in a + b ==> p in rem
    ensures Work(a + b, rem) == Work(a, rem) + Work(b, rem)
  {
    if a != [] {
      assert (a + b)[0] == a[0];
      assert (a + b)[1..] == a[1..] + b;
      WorkAppend(a[1..], b, rem);
    } else {
      assert a + b == b;
    }
  }

  /** Lowering one process's outstanding work lowers the queue's, strictly when the process is queued. */
  lemma {:induction false} WorkUpdate(queue: seq<Process>, rem: map<Process, int>, p: Process, v: int)
    requires forall x :: x in queue ==> x in rem
    requires p in rem && Pos(v) < Pos(rem[p])
    ensures Work(queue, rem[p := v]) <= Work(queue, rem)
    ensures p in queue ==> Work(queue, rem[p := v]) < Work(queue, rem)
  {
    if queue != [] {
      WorkUpdate(queue[1..], rem, p, v);
    }
  }

  /** Moving the head of the queue to the back with less work left lowers the outstanding work. */
  lemma WorkRotate(queue: seq<Process>, rem: map<Process, int>, v: int)
    requires queue != [] && forall x :: x in queue ==> x in rem
    requires Pos(v) < Pos(rem[queue[0]])
    ensures forall x :: x in queue[1..] + [queue[0]] ==> x in rem[queue[0] := v]
    ensures Work(queue[1..] + [queue[0]], rem[queue[0] := v]) < Work(queue, rem)
  {
    var p, rem' := queue[0], rem[queue[0] := v];
    assert queue == [p] + queue[1..];
    WorkUpdate(queue, rem, p, v);
    WorkAppend([p], queue[1..], rem');
    WorkAppend(queue[1..], [p], rem');
  }

  /** Running one more entry of `s` adds exactly its own charge. */
  lemma ChargedSnoc(s: seq<Process>, i: int)
    requires 0 <= i < |s|
    ensures forall p :: Charged(s[..i + 1], p) == Charged(s[..i], p) + (if s[i] == p then p.burstTime else 0)
  {
    assert s[..i + 1] == s[..i] + [s[i]];
    forall p
      ensures Charged(s[..i + 1], p) == Charged(s[..i], p) + (if s[i] == p then p.burstTime else 0)
    {
      ChargedAppend(s[..i], [s[i]], p);
      ChargedSingle(s[i], p);
    }
  }

  /** Serving the head of the queue removes exactly its own charge. */
  lemma ChargedPop(queue: seq<Process>)
    requires queue != []
    ensures forall p :: Charged(queue, p) == Charged(queue[1..], p) + (if queue[0] == p then p.burstTime else 0)
  {
  }

  /** Moving the head of the queue to the back changes nobody's pending charge. */
  lemma ChargedRotate(queue: seq<Process>)
    requires queue != []
    ensures forall p :: Charged(queue[1..] + [queue[0]], p) == Charged(queue, p)
  {
    forall p
      ensures Charged(queue[1..] + [queue[0]], p) == Charged(queue, p)
    {
      ChargedAppend(queue[1..], [queue[0]], p);
      ChargedSingle(queue[0], p);
    }
  }

  // ---------------------------------------------------------------------
  // The scheduler
  // ---------------------------------------------------------------------

  /** One turn at the head of the round-robin queue: remaining time before and after, and whether it went back. */
  datatype Round = Round(process: Process, before: int, after: int, requeued: bool)

  /**
   * A turn as `round_robin` takes it: a process goes back to the queue exactly
   * when it had more than a quantum left, and then a quantum lighter;
   * otherwise it is drained to zero.
   */
  predicate ServedOnce(r: Round, timeQuantum: int) {
    (r.requeued <==> r.before > timeQuantum) &&
    (r.requeued ==> r.after == r.before - timeQuantum) &&
    (!r.requeued ==> r.after == 0)
  }

  /** Every turn in `rounds` was taken by a process of `all`, as `ServedOnce` says. */
  predicate TurnsTaken(rounds: seq<Round>, timeQuantum: int, all: seq<Process>) {
    forall k :: 0 <= k < |rounds| ==> ServedOnce(rounds[k], timeQuantum) && rounds[k].process in all
  }

  /** The turns `p` took in `rounds`, in order. */
  ghost function TurnsOf(rounds: seq<Round>, p: Process): seq<Round> {
    if rounds == [] then []
    else (if rounds[0].process == p then [rounds[0]] else []) + TurnsOf(rounds[1..], p)
  }

  /** Each turn starts from what the previous one left, the first from `start`. */
  predicate Chained(turns: seq<Round>, start: int) {
    turns == [] || (turns[0].before == start && Chained(turns[1..], turns[0].after))
  }

  /** The number of turns that drained their process instead of putting it back. */
  function Drains(turns: seq<Round>): nat {
    if turns == [] then 0 else (if turns[0].requeued then 0 else 1) + Drains(turns[1..])
  }

  /** What a leading turn `r` adds to the turns of `p`: a link of its chain, and a drain when it drains `p`. */
  lemma TurnsCons(r: Round, rest: seq<Round>, p: Process, start: int)
    ensures r.process != p ==> TurnsOf([r] + rest, p) == TurnsOf(rest, p)
    ensures r.process == p ==>
              (Chained(TurnsOf([r] + rest, p), start) <==> r.before == start && Chained(TurnsOf(rest, p), r.after))
    ensures Drains(TurnsOf([r] + rest, p)) == (if r.process == p && !r.requeued then 1 else 0) + Drains(TurnsOf(rest, p))
  {
    assert ([r] + rest)[0] == r && ([r] + rest)[1..] == rest;
    var t := TurnsOf(rest, p);
    assert ([r] + t)[0] == r && ([r] + t)[1..] == t;
  }

  /**
   * With a quantum of 0 or less, every queued process is drained at its turn:
   * its remaining time is at most the quantum and, below 0, it is queued once.
   * Exactly then `round_robin` ends on a quantum of 0 or less.
   */
  ghost predicate DrainsOnly(queue: seq<Process>, rem: map<Process, int>, timeQuantum: int) {
    timeQuantum > 0 ||
    forall p {:trigger multiset(queue)[p]} :: p in queue ==>
      p in rem && rem[p] <= timeQuantum && (timeQuantum < 0 ==> multiset(queue)[p] == 1)
  }

  /** With a quantum of 0 or less, the head of the queue is drained at its turn. */
  lemma DrainsHead(queue: seq<Process>, rem: map<Process, int>, timeQuantum: int)
    requires queue != [] && DrainsOnly(queue, rem, timeQuantum)
    ensures timeQuantum <= 0 ==> queue[0] in rem && rem[queue[0]] <= timeQuantum
  {
    if timeQuantum <= 0 {
      assert queue[0] in queue && multiset(queue)[queue[0]] > 0;
    }
  }

  /** Draining the head keeps every other queued process drainable. */
  lemma DrainStep(queue: seq<Process>, rem: map<Process, int>, timeQuantum: int)
    requires queue != [] && DrainsOnly(queue, rem, timeQuantum)
    ensures DrainsOnly(queue[1..], rem[queue[0] := 0], timeQuantum)
  {
    if timeQuantum <= 0 {
      var x := queue[0];
      assert queue == [x] + queue[1..];
      forall p | p in queue[1..]
        ensures p in rem[x := 0] && rem[x := 0][p] <= timeQuantum
        ensures timeQuantum < 0 ==> multiset(queue[1..])[p] == 1
      {
        assert multiset(queue)[p] == multiset(queue[1..])[p] + (if p == x then 1 else 0);
      }
    }
  }

  /** Popping the head of a queue takes one entry of it away; putting it at the back returns it. */
  lemma PopCount(queue: seq<Process>, p: Process)
    requires queue != []
    ensures multiset(queue)[p] == multiset(queue[1..])[p] + (if queue[0] == p then 1 else 0)
    ensures multiset(queue[1..] + [queue[0]])[p] == multiset(queue)[p]
  {
    assert queue == [queue[0]] + queue[1..];
  }

  /** Moving the head of the queue to the back keeps the same entries. */
  lemma RotateMembers(queue: seq<Process>)
    requires queue != []
    ensures forall p :: p in queue[1..] + [queue[0]] <==> p in queue
  {
    assert queue == [queue[0]] + queue[1..];
  }

  /** The remaining time of each process of `s`. */
  function Remaining(s: seq<Process>): (rem: map<Process, int>)
    reads s
    ensures forall p :: p in s ==> p in rem && rem[p] == p.remainingTime
  {
    map p: Process | p in s :: p.remainingTime
  }

  /**
   * The turns `round_robin` takes on `queue`, the remaining times being `rem`:
   * the head is served once, goes back a quantum lighter when it has more
   * than a quantum left and is drained otherwise, and the rest follows.
   */
  ghost function Replay(queue: seq<Process>, rem: map<Process, int>, timeQuantum: int): (rounds: seq<Round>)
    requires forall p :: p in queue ==> p in rem
    requires DrainsOnly(queue, rem, timeQuantum)
    ensures queue != [] ==> rounds != [] && rounds[0].process == queue[0] && rounds[0].before == rem[queue[0]]
    decreases |queue|, Work(queue, rem)
  {
    if queue == [] then []
    else
      var x := queue[0];
      DrainsHead(queue, rem, timeQuantum);
      if rem[x] > timeQuantum then
        WorkRotate(queue, rem, rem[x] - timeQuantum);
        [Round(x, rem[x], rem[x] - timeQuantum, true)] +
        Replay(queue[1..] + [x], rem[x := rem[x] - timeQuantum], timeQuantum)
      else
        DrainStep(queue, rem, timeQuantum);
        [Round(x, rem[x], 0, false)] + Replay(queue[1..], rem[x := 0], timeQuantum)
  }

  /** A head with more than a quantum left takes a turn and goes back, a quantum lighter. */
  lemma ReplayRequeue(queue: seq<Process>, rem: map<Process, int>, timeQuantum: int)
    requires queue != [] && (forall p :: p in queue ==> p in rem) && DrainsOnly(queue, rem, timeQuantum)
    requires rem[queue[0]] > timeQuantum
    ensures timeQuantum > 0
    ensures Replay(queue, rem, timeQuantum) ==
            [Round(queue[0], rem[queue[0]], rem[queue[0]] - timeQuantum, true)] +
            Replay(queue[1..] + [queue[0]], rem[queue[0] := rem[queue[0]] - timeQuantum], timeQuantum)
  {
    DrainsHead(queue, rem, timeQuantum);
  }

  /** Any other head takes a turn and is drained. */
  lemma ReplayDrain(queue: seq<Process>, rem: map<Process, int>, timeQuantum: int)
    requires queue != [] && (forall p :: p in queue ==> p in rem) && DrainsOnly(queue, rem, timeQuantum)
    requires rem[queue[0]] <= timeQuantum
    ensures DrainsOnly(queue[1..], rem[queue[0] := 0], timeQuantum)
    ensures Replay(queue, rem, timeQuantum) ==
            [Round(queue[0], rem[queue[0]], 0, false)] + Replay(queue[1..], rem[queue[0] := 0], timeQuantum)
  {
    DrainStep(queue, rem, timeQuantum);
  }

  /** Putting back a head with more than a quantum left, a quantum lighter, leaves less work. */
  lemma WorkRequeue(queue: seq<Process>, rem: map<Process, int>, timeQuantum: int)
    requires queue != [] && (forall p :: p in queue ==> p in rem) && DrainsOnly(queue, rem, timeQuantum)
    requires rem[queue[0]] > timeQuantum
    ensures Work(queue[1..] + [queue[0]], rem[queue[0] := rem[queue[0]] - timeQuantum]) < Work(queue, rem)
  {
    DrainsHead(queue, rem, timeQuantum);
    WorkRotate(queue, rem, rem[queue[0]] - timeQuantum);
  }

  /**
   * In the run `Replay` describes, the turns of each process `p` chain from its
   * starting remaining time, each turn starting from what the previous one
   * left, and exactly one turn per entry of `p` in the queue drains it.
   */
  lemma {:induction false} ReplayTurns(queue: seq<Process>, rem: map<Process, int>, timeQuantum: int, p: Process)
    requires (forall x :: x in queue ==> x in rem) && DrainsOnly(queue, rem, timeQuantum) && p in rem
    ensures Chained(TurnsOf(Replay(queue, rem, timeQuantum), p), rem[p])
    ensures Drains(TurnsOf(Replay(queue, rem, timeQuantum), p)) == multiset(queue)[p]
    decreases |queue|, Work(queue, rem)
  {
    if queue != [] {
      var x := queue[0];
      PopCount(queue, p);
      if rem[x] > timeQuantum {
        var queue', rem' := queue[1..] + [x], rem[x := rem[x] - timeQuantum];
        ReplayRequeue(queue, rem, timeQuantum);
        WorkRequeue(queue, rem, timeQuantum);
        RotateMembers(queue);
        ReplayTurns(queue', rem', timeQuantum, p);
        TurnsCons(Round(x, rem[x], rem[x] - timeQuantum, true), Replay(queue', rem', timeQuantum), p, rem[p]);
      } else {
        var rem' := rem[x := 0];
        ReplayDrain(queue, rem, timeQuantum);
        ReplayTurns(queue[1..], rem', timeQuantum, p);
        TurnsCons(Round(x, rem[x], 0, false), Replay(queue[1..], rem', timeQuantum), p, rem[p]);
      }
    }
  }

  /** Every turn `Replay` describes follows the rule of `ServedOnce` and serves an entry of the queue. */
  lemma {:induction false} ReplayServed(queue: seq<Process>, rem: map<Process, int>, timeQuantum: int)
    requires (forall x :: x in queue ==> x in rem) && DrainsOnly(queue, rem, timeQuantum)
    ensures TurnsTaken(Replay(queue, rem, timeQuantum), timeQuantum, queue)
    decreases |queue|, Work(queue, rem)
  {
    if queue != [] {
      var x := queue[0];
      if rem[x] > timeQuantum {
        var queue', rem' := queue[1..] + [x], rem[x := rem[x] - timeQuantum];
        ReplayRequeue(queue, rem, timeQuantum);
        WorkRequeue(queue, rem, timeQuantum);
        RotateMembers(queue);
        ReplayServed(queue', rem', timeQuantum);
      } else {
        ReplayDrain(queue, rem, timeQuantum);
        ReplayServed(queue[1..], rem[x := 0], timeQuantum);
      }
    }
  }

  /**
   * The turns of a round-robin run partway through, over the entries `all` it
   * started with and their starting remaining times `rem0`: the queue holds
   * entries of `all`, each with its remaining time in `rem`, and the turns so
   * far, followed by the turns still to come, are the turns of the whole run.
   */
  ghost predicate Replaying(all: seq<Process>, queue: seq<Process>, timeQuantum: int,
                            rem0: map<Process, int>, rem: map<Process, int>, rounds: seq<Round>)
  {
    && (forall p :: p in queue ==> p in all)
    && (forall p :: p in all ==> p in rem0 && p in rem)
    && DrainsOnly(all, rem0, timeQuantum)
    && DrainsOnly(queue, rem, timeQuantum)
    && rounds + Replay(queue, rem, timeQuantum) == Replay(all, rem0, timeQuantum)
  }

  /**
   * The counters of the same run: `rem` mirrors the remaining times, each
   * process has been charged, on top of its counter `cpu0` at the start, the
   * bursts of its entries already dropped, and a process no longer queued has
   * nothing left.
   */
  ghost predicate Running(all: seq<Process>, queue: seq<Process>, cpu0: map<Process, int>,
                          rem: map<Process, int>)
    reads all
  {
    && (forall p :: p in all ==> p in cpu0 && p in rem && rem[p] == p.remainingTime)
    && (forall p :: p in all ==> p.cpuUsage == cpu0[p] + Charged(all, p) - Charged(queue, p))
    && (forall p :: p in all && p !in queue ==> p.remainingTime == 0)
  }

  /** Putting back a head with more than a quantum left keeps the replay going. */
  lemma ReplayingRequeue(all: seq<Process>, queue: seq<Process>, timeQuantum: int,
                         rem0: map<Process, int>, rem: map<Process, int>, rounds: seq<Round>)
    requires queue != [] && Replaying(all, queue, timeQuantum, rem0, rem, rounds)
    requires rem[queue[0]] > timeQuantum
    ensures var x := queue[0];
            Replaying(all, queue[1..] + [x], timeQuantum, rem0, rem[x := rem[x] - timeQuantum],
                      rounds + [Round(x, rem[x], rem[x] - timeQuantum, true)])
  {
    var x := queue[0];
    var turn, rem' := Round(x, rem[x], rem[x] - timeQuantum, true), rem[x := rem[x] - timeQuantum];
    ReplayRequeue(queue, rem, timeQuantum);
    RotateMembers(queue);
    assert rounds + [turn] + Replay(queue[1..] + [x], rem', timeQuantum) ==
           rounds + ([turn] + Replay(queue[1..] + [x], rem', timeQuantum));
  }

  /** Dropping any other head, drained, keeps the replay going. */
  lemma ReplayingDrain(all: seq<Process>, queue: seq<Process>, timeQuantum: int,
                       rem0: map<Process, int>, rem: map<Process, int>, rounds: seq<Round>)
    requires queue != [] && Replaying(all, queue, timeQuantum, rem0, rem, rounds)
    requires rem[queue[0]] <= timeQuantum
    ensures var x := queue[0];
            Replaying(all, queue[1..], timeQuantum, rem0, rem[x := 0], rounds + [Round(x, rem[x], 0, false)])
  {
    var x := queue[0];
    var turn, rem' := Round(x, rem[x], 0, false), rem[x := 0];
    ReplayDrain(queue, rem, timeQuantum);
    assert rounds + [turn] + Replay(queue[1..], rem', timeQuantum) ==
           rounds + ([turn] + Replay(queue[1..], rem', timeQuantum));
  }

  /** Once the queue is empty, the turns taken are the whole run. */
  lemma ReplayingDone(all: seq<Process>, timeQuantum: int, rem0: map<Process, int>,
                      rem: map<Process, int>, rounds: seq<Round>)
    requires Replaying(all, [], timeQuantum, rem0, rem, rounds)
    ensures rounds == Replay(all, rem0, timeQuantum)
  {
    assert rounds + [] == rounds;
  }

  /** Once the queue is empty, every process is drained and charged for all its entries. */
  lemma RunningDone(all: seq<Process>, cpu0: map<Process, int>, rem: map<Process, int>)
    requires Running(all, [], cpu0, rem)
    ensures forall p :: p in all ==> p.remainingTime == 0 && p.cpuUsage == cpu0[p] + Charged(all, p)
  {
  }

  /**
   * The requeue branch of `round_robin`'s loop: the head has more than a
   * quantum left, so it loses a quantum of remaining time and goes to the
   * back of the queue.
   */
  method Requeue(queue: seq<Process>, timeQuantum: int, ghost all: seq<Process>,
                 ghost cpu0: map<Process, int>, ghost rem0: map<Process, int>,
                 ghost rem: map<Process, int>, ghost rounds: seq<Round>)
    returns (queue': seq<Process>, ghost rem': map<Process, int>, ghost rounds': seq<Round>)
    requires queue != [] && Replaying(all, queue, timeQuantum, rem0, rem, rounds) && Running(all, queue, cpu0, rem)
    requires queue[0].remainingTime > timeQuantum
    modifies {queue[0]}`remainingTime
    ensures queue' == queue[1..] + [queue[0]]
    ensures queue[0].remainingTime == old(queue[0].remainingTime) - timeQuantum
    ensures Replaying(all, queue', timeQuantum, rem0, rem', rounds') && Running(all, queue', cpu0, rem')
    ensures Work(queue', rem') < Work(queue, rem)
  {
    var process: Process := queue[0];
    ReplayingRequeue(all, queue, timeQuantum, rem0, rem, rounds);
    WorkRequeue(queue, rem, timeQuantum);
    ChargedRotate(queue);
    RotateMembers(queue);
    rem', rounds' := rem[process := rem[process] - timeQuantum],
                     rounds + [Round(process, rem[process], rem[process] - timeQuantum, true)];
    process.remainingTime := process.remainingTime - timeQuantum;
    queue' := queue[1..] + [process];
  }

  /**
   * The drain branch of `round_robin`'s loop: the head has at most a quantum
   * left, so its CPU counter grows by its burst, its remaining time drops to
   * zero, and it leaves the queue.
   */
  method Drain(queue: seq<Process>, timeQuantum: int, ghost all: seq<Process>,
               ghost cpu0: map<Process, int>, ghost rem0: map<Process, int>,
               ghost rem: map<Process, int>, ghost rounds: seq<Round>)
    returns (queue': seq<Process>, ghost rem': map<Process, int>, ghost rounds': seq<Round>)
    requires queue != [] && Replaying(all, queue, timeQuantum, rem0, rem, rounds) && Running(all, queue, cpu0, rem)
    requires queue[0].remainingTime <= timeQuantum
    modifies {queue[0]}`remainingTime, {queue[0]}`cpuUsage
    ensures queue' == queue[1..]
    ensures queue[0].remainingTime == 0 && queue[0].cpuUsage == old(queue[0].cpuUsage) + queue[0].burstTime
    ensures Replaying(all, queue', timeQuantum, rem0, rem', rounds') && Running(all, queue', cpu0, rem')
  {
    var process: Process := queue[0];
    ReplayingDrain(all, queue, timeQuantum, rem0, rem, rounds);
    ChargedPop(queue);
    rem', rounds' := rem[process := 0], rounds + [Round(process, rem[process], 0, false)];
    process.cpuUsage := process.cpuUsage + process.burstTime;
    process.remainingTime := 0;
    queue' := queue[1..];
  }

  class Scheduler {
    var processes: seq<Process>

    constructor ()
      ensures processes == []
    {
      processes := [];
    }

    /** `add_process`: appends at the end. */
    method AddProcess(process: Process)
      modifies this
      ensures processes == old(processes) + [process]
      ensures processes[..|old(processes)|] == old(processes)
    {
      processes := processes + [process];
    }

    /** `get_processes`: the current list, in order, nothing changed. */
    method GetProcesses() returns (r: seq<Process>)
      ensures r == processes
      ensures |r| == |processes| && forall i :: 0 <= i < |r| ==> r[i] == processes[i]
    {
      r := processes;
    }

    /**
     * `round_robin`: a FIFO copy of the list is served one quantum at a time;
     * a process with more than a quantum left is charged the quantum and put
     * back, any other is charged its burst in CPU and drained.  The list
     * itself is not touched.
     */
    method RoundRobin(timeQuantum: int) returns (ghost rounds: seq<Round>)
      requires timeQuantum > 0 ||
               forall p :: p in processes ==>
                 p.remainingTime <= timeQuantum && (timeQuantum < 0 ==> multiset(processes)[p] == 1)
      modifies processes`remainingTime, processes`cpuUsage
      ensures processes == old(processes)
      ensures forall p :: p in processes ==> p.remainingTime == 0
      ensures forall p :: p in processes ==> p.cpuUsage == old(p.cpuUsage) + Charged(processes, p)
      ensures forall p :: p in processes ==>
                p.cpuUsage == old(p.cpuUsage) + p.burstTime * multiset(processes)[p]
      ensures forall p :: p in processes ==> p.memoryConsumption == old(p.memoryConsumption)
      ensures rounds == Replay(processes, old(Remaining(processes)), timeQuantum)
      ensures TurnsTaken(rounds, timeQuantum, processes)
      ensures forall p :: p in processes ==> Chained(TurnsOf(rounds, p), old(p.remainingTime))
      ensures forall p :: p in processes ==> Drains(TurnsOf(rounds, p)) == multiset(processes)[p]
    {
      ghost var all := processes;
      rounds := [];
      var queue: seq<Process> := processes;
      var time := 0;
      // Ghost snapshots of the counters at the start, and of the remaining times as the run goes.
      ghost var cpu0: map<Process, int> := map p: Process | p in all :: p.cpuUsage;
      ghost var rem0: map<Process, int> := Remaining(all);
      ghost var rem: map<Process, int> := rem0;
      while queue != []
        invariant Replaying(all, queue, timeQuantum, rem0, rem, rounds)
        invariant Running(all, queue, cpu0, rem)
        decreases |queue|, Work(queue, rem)
      {
        var process: Process := queue[0];
        if process.remainingTime > timeQuantum {
          // Only a process with more than a quantum left goes back, a quantum lighter.
          time := time + timeQuantum;
          queue, rem, rounds := Requeue(queue, timeQuantum, all, cpu0, rem0, rem, rounds);
        } else {
          time := time + process.remainingTime;
          queue, rem, rounds := Drain(queue, timeQuantum, all, cpu0, rem0, rem, rounds);
        }
      }
      ReplayingDone(all, timeQuantum, rem0, rem, rounds);
      RunningDone(all, cpu0, rem);
      ChargedCounts(all);
      ReplayServed(all, rem0, timeQuantum);
      forall p | p in all
        ensures Chained(TurnsOf(rounds, p), rem0[p]) && Drains(TurnsOf(rounds, p)) == multiset(all)[p]
      {
        ReplayTurns(all, rem0, timeQuantum, p);
      }
    }

    /**
     * `priority_scheduling`: stable-sorts the list by (priority, arrival time),
     * then runs each entry once in that order, charging its burst.  The local
     * clock follows `Finish` over the entries run so far.
     */
    method PriorityScheduling()
      modifies this`processes, processes`cpuUsage
      ensures processes == SortByKey(old(processes))
      ensures forall p :: p in old(processes) ==> p.cpuUsage == old(p.cpuUsage) + Charged(processes, p)
      ensures forall p :: p in old(processes) ==>
                p.remainingTime == old(p.remainingTime) && p.memoryConsumption == old(p.memoryConsumption)
    {
      ghost var before := processes;
      ghost var cpu0: map<Process, int> := map p: Process | p in before :: p.cpuUsage;
      var order := SortByKey(processes);
      forall p | p in order
        ensures p in before
      {
        assert p in multiset(order);
      }
      var time := 0;
      var i := 0;
      while i < |order|
        invariant 0 <= i <= |order|
        invariant processes == before
        invariant time == Finish(order[..i])
        invariant forall p :: p in before ==> p.cpuUsage == cpu0[p] + Charged(order[..i], p)
      {
        var process: Process := order[i];
        assert process in before;
        ChargedSnoc(order, i);
        FinishSnoc(order, i);
        if time < process.arrivalTime {
          time := process.arrivalTime;
        }
        time := time + process.burstTime;
        process.cpuUsage := process.cpuUsage + process.burstTime;
        i := i + 1;
      }
      assert order[..i] == order;
      processes := order;
    }
  }
}
