/** The work queue whose tasks may push, drain again or drop everything while they run. A task is the calls it makes
    on the queue, and whether it ends in an exception; pushes from other threads look like pushes of the task that is
    running. */
module WorkQueues {

  /** What a task does to the queue while it runs, call by call. */
  datatype Calls = Done | PushNow(task: Task, rest: Calls) | DrainNow(rest: Calls) | DropNow(rest: Calls)

  datatype Task = Task(calls: Calls, throws: bool)

  /** Runs still to come: each task counts for itself and for the tasks it pushes. */
  function TaskSize(t: Task): nat {
    1 + CallsSize(t.calls)
  }

  function CallsSize(c: Calls): nat {
    match c
    case Done => 0
    case PushNow(t, rest) => TaskSize(t) + CallsSize(rest)
    case DrainNow(rest) => CallsSize(rest)
    case DropNow(rest) => CallsSize(rest)
  }

  function QueueSize(q: seq<Task>): nat {
    if q == [] then 0 else TaskSize(q[0]) + QueueSize(q[1..])
  }

  lemma {:induction false} QueueSizeSnoc(q: seq<Task>, t: Task)
    ensures QueueSize(q + [t]) == QueueSize(q) + TaskSize(t)
    decreases |q|
  {
    if q == [] {
      assert [t][1..] == [];
    } else {
      QueueSizeSnoc(q[1..], t);
      assert (q + [t])[1..] == q[1..] + [t];
    }
  }

  datatype DrainStats = DrainStats(executed: nat, exceptions: nat)

  function Throwing(q: seq<Task>): nat {
    if q == [] then 0 else Throwing(q[..|q| - 1]) + if q[|q| - 1].throws then 1 else 0
  }

  /** The queue, and the record of everything pushed, started and dropped so far. */
  datatype Record = Record(queue: seq<Task>, pushed: seq<Task>, ran: seq<Task>, dropped: seq<Task>)

  const EMPTY := Record([], [], [], [])

  function AfterPush(r: Record, t: Task): Record {
    r.(queue := r.queue + [t], pushed := r.pushed + [t])
  }

  function AfterDrop(r: Record): Record {
    r.(queue := [], dropped := r.dropped + r.queue)
  }

  /** A task, call by call. */
  function AfterCalls(r: Record, c: Calls): (a: Record)
    ensures QueueSize(a.queue) <= QueueSize(r.queue) + CallsSize(c)
    decreases QueueSize(r.queue) + CallsSize(c), 1, c
  {
    match c
    case Done => r
    case PushNow(t, rest) =>
      QueueSizeSnoc(r.queue, t);
      AfterCalls(AfterPush(r, t), rest)
    case DrainNow(rest) => AfterCalls(AfterTasks(r.(queue := []), r.queue), rest)
    case DropNow(rest) => AfterCalls(AfterDrop(r), rest)
  }

  /** The tasks of a snapshot, one after another. */
  function AfterTasks(r: Record, snapshot: seq<Task>): (a: Record)
    ensures QueueSize(a.queue) <= QueueSize(r.queue) + QueueSize(snapshot)
    decreases QueueSize(r.queue) + QueueSize(snapshot), 0
  {
    if snapshot == [] then r
    else AfterTasks(AfterTask(r, snapshot[0]), snapshot[1..])
  }

  function AfterTask(r: Record, t: Task): (a: Record)
    ensures QueueSize(a.queue) < QueueSize(r.queue) + TaskSize(t)
    decreases QueueSize(r.queue) + CallsSize(t.calls), 2
  {
    AfterCalls(r.(ran := r.ran + [t]), t.calls)
  }

  function AfterDrain(r: Record): Record {
    AfterTasks(r.(queue := []), r.queue)
  }

  class WorkQueue {
    var queue: seq<Task>
    ghost var pushed: seq<Task>   // every task ever pushed
    ghost var ran: seq<Task>      // tasks started, in order
    ghost var dropped: seq<Task>

    ghost function Now(): Record
      reads this
    {
      Record(queue, pushed, ran, dropped)
    }

    constructor ()
      ensures Now() == EMPTY
    {
      queue, pushed, ran, dropped := [], [], [], [];
    }

    method Push(task: Task)
      modifies this
      ensures Now() == AfterPush(old(Now()), task)
    {
      queue := queue + [task];
      pushed := pushed + [task];
    }

    method DropAll()
      modifies this
      ensures Now() == AfterDrop(old(Now()))
    {
      var leftover := queue;
      queue := [];
      dropped := dropped + leftover;
    }

    method Size() returns (n: nat)
      ensures n == |queue|
    {
      n := |queue|;
    }

    /** The swap, then every task of the snapshot; an exception ends its task only. */
    method Drain() returns (stats: DrainStats)
      modifies this
      ensures Now() == AfterDrain(old(Now()))
      ensures stats.executed == |old(queue)| && stats.exceptions == Throwing(old(queue))
      decreases QueueSize(queue), 1
    {
      hide QueueSize, Throwing, AfterTasks, AfterTask;
      ghost var goal, size := AfterDrain(Now()), QueueSize(queue);
      var snapshot := queue;
      queue := [];
      stats := DrainStats(0, 0);
      var i := 0;
      NothingYet(snapshot);
      while i < |snapshot|
        invariant 0 <= i <= |snapshot|
        invariant AfterTasks(Now(), snapshot[i..]) == goal
        invariant stats == DrainStats(i, Throwing(snapshot[..i]))
        invariant QueueSize(queue) + QueueSize(snapshot[i..]) <= size
      {
        var fn := snapshot[i];
        NextTask(Now(), snapshot, i);
        stats := stats.(executed := stats.executed + 1);
        RunTask(fn);
        if fn.throws { stats := stats.(exceptions := stats.exceptions + 1); }
        i := i + 1;
      }
      assert snapshot[..i] == snapshot && snapshot[i..] == [];
      NoTasks(Now());
    }

    method RunTask(fn: Task)
      modifies this
      ensures Now() == AfterTask(old(Now()), fn)
      decreases QueueSize(queue) + CallsSize(fn.calls), 2
    {
      hide QueueSize, AfterTasks;
      ghost var size := QueueSize(queue) + CallsSize(fn.calls);
      ran := ran + [fn];
      var calls := fn.calls;
      while !calls.Done?
        invariant AfterCalls(Now(), calls) == AfterTask(old(Now()), fn)
        invariant QueueSize(queue) + CallsSize(calls) <= size
        decreases calls
      {
        match calls {
          case PushNow(t, rest) =>
            QueueSizeSnoc(queue, t);
            Push(t);
          case DrainNow(rest) =>
            NothingYet(queue);
            var inner := Drain();
          case DropNow(rest) =>
            NothingYet(queue);
            DropAll();
        }
        calls := calls.rest;
      }
    }
  }

  lemma NothingYet(q: seq<Task>)
    ensures QueueSize([]) == 0 && QueueSize(q) >= 0 && Throwing(q[..0]) == 0 && q[0..] == q
  {
  }

  lemma NoTasks(r: Record)
    ensures AfterTasks(r, []) == r
  {
  }

  lemma NextTask(r: Record, q: seq<Task>, i: nat)
    requires i < |q|
    ensures AfterTasks(r, q[i..]) == AfterTasks(AfterTask(r, q[i]), q[i + 1..])
    ensures QueueSize(q[i..]) == TaskSize(q[i]) + QueueSize(q[i + 1..])
    ensures Throwing(q[..i + 1]) == Throwing(q[..i]) + if q[i].throws then 1 else 0
  {
    assert q[i..][1..] == q[i + 1..];
    assert q[..i + 1][..i] == q[..i];
  }

  /** The exceptions counted are the tasks of the snapshot that throw. */
  lemma {:induction false} ThrowingCounts(q: seq<Task>)
    ensures Throwing(q) == |set i | 0 <= i < |q| && q[i].throws|
    decreases |q|
  {
    if q != [] {
      var n := |q| - 1;
      var init := q[..n];
      ThrowingCounts(init);
      var before := set i | 0 <= i < n && init[i].throws;
      assert (set i | 0 <= i < |q| && q[i].throws) == if q[n].throws then before + {n} else before;
    }
  }

  /** Call by call: a push puts its task at the end of the queue, a drop empties the queue, and a nested drain is a whole
      drain. */
  lemma CallsTold(r: Record, t: Task, rest: Calls)
    ensures AfterCalls(r, PushNow(t, rest)) == AfterCalls(Record(r.queue + [t], r.pushed + [t], r.ran, r.dropped), rest)
    ensures AfterCalls(r, DropNow(rest)) == AfterCalls(Record([], r.pushed, r.ran, r.dropped + r.queue), rest)
    ensures AfterCalls(r, DrainNow(rest)) == AfterCalls(AfterDrain(r), rest)
    ensures AfterCalls(r, Done) == r
  {
    hide QueueSize, AfterTasks;
  }

  /** The tasks a task pushes that does nothing else. */
  function Pushes(c: Calls): seq<Task> {
    match c
    case PushNow(t, rest) => [t] + Pushes(rest)
    case _ => []
  }

  predicate OnlyPushes(c: Calls) {
    match c
    case Done => true
    case PushNow(_, rest) => OnlyPushes(rest)
    case _ => false
  }

  function AllPushes(q: seq<Task>): seq<Task> {
    if q == [] then [] else Pushes(q[0].calls) + AllPushes(q[1..])
  }

  lemma PushesStep(c: Calls)
    requires OnlyPushes(c)
    ensures if c.PushNow? then Pushes(c) == [c.task] + Pushes(c.rest) && OnlyPushes(c.rest)
            else c == Done && Pushes(c) == []
  {
  }

  /** The record with some tasks pushed and some run. */
  function Moved(r: Record, pushes: seq<Task>, runs: seq<Task>): Record {
    Record(r.queue + pushes, r.pushed + pushes, r.ran + runs, r.dropped)
  }

  lemma MovedMore(r: Record, p: seq<Task>, x: seq<Task>, q: seq<Task>, y: seq<Task>)
    ensures Moved(Moved(r, p, x), q, y) == Moved(r, p + q, x + y)
    ensures Moved(r, [], []) == r && [] + p == p
  {
  }

  lemma {:induction false} PushingCalls(r: Record, c: Calls)
    requires OnlyPushes(c)
    ensures AfterCalls(r, c) == Moved(r, Pushes(c), [])
    decreases c
  {
    hide *;
    PushesStep(c);
    if c.PushNow? {
      PushedCall(r, c.task, c.rest);
      PushingCalls(Moved(r, [c.task], []), c.rest);
      MovedMore(r, [c.task], [], Pushes(c.rest), []);
      MovedMore(r, [], [], [], []);
    } else {
      CallsTold(r, Task(Done, false), Done);
      MovedMore(r, [], [], [], []);
    }
  }

  lemma PushedCall(r: Record, t: Task, rest: Calls)
    ensures AfterCalls(r, PushNow(t, rest)) == AfterCalls(Moved(r, [t], []), rest)
  {
    hide QueueSize, AfterCalls;
    CallsTold(r, t, rest);
    assert r.ran + [] == r.ran;
  }

  lemma {:induction false} PushingTasks(r: Record, snapshot: seq<Task>)
    requires forall t | t in snapshot :: OnlyPushes(t.calls)
    ensures AfterTasks(r, snapshot) == Moved(r, AllPushes(snapshot), snapshot)
    decreases |snapshot|
  {
    hide *;
    if snapshot == [] {
      NoPushes();
      NoTasks(r);
      MovedMore(r, [], [], [], []);
    } else {
      var t, rest := snapshot[0], snapshot[1..];
      assert t in snapshot && snapshot == [t] + rest;
      PushingTask(r, t);
      FirstTask(r, snapshot);
      PushingTasks(Moved(r, Pushes(t.calls), [t]), rest);
      MovedMore(r, Pushes(t.calls), [t], AllPushes(rest), rest);
    }
  }

  lemma NoPushes()
    ensures AllPushes([]) == []
  {
  }

  lemma FirstTask(r: Record, q: seq<Task>)
    requires q != []
    ensures AfterTasks(r, q) == AfterTasks(AfterTask(r, q[0]), q[1..])
    ensures AllPushes(q) == Pushes(q[0].calls) + AllPushes(q[1..])
  {
    hide QueueSize;
  }

  lemma PushingTask(r: Record, t: Task)
    requires OnlyPushes(t.calls)
    ensures AfterTask(r, t) == Moved(r, Pushes(t.calls), [t])
  {
    PushingCalls(r.(ran := r.ran + [t]), t.calls);
    hide QueueSize, AfterCalls, OnlyPushes, Pushes;
    assert r.ran + [t] + [] == r.ran + [t];
  }

  /** A drain over tasks that only push runs its snapshot and nothing else: what they push waits, in order, for the next
      drain. */
  lemma PushedTasksWait(r: Record)
    requires forall t | t in r.queue :: OnlyPushes(t.calls)
    ensures AfterDrain(r) == Record(AllPushes(r.queue), r.pushed + AllPushes(r.queue), r.ran + r.queue, r.dropped)
  {
    PushingTasks(r.(queue := []), r.queue);
    assert [] + AllPushes(r.queue) == AllPushes(r.queue);
  }

  // --------------------------------------------------------- conservation

  /** Every task pushed has been run once, dropped once, is queued, or is held by a drain in progress. */
  ghost predicate Accounted(r: Record, held: multiset<Task>) {
    multiset(r.pushed) == multiset(r.ran) + multiset(r.dropped) + multiset(r.queue) + held
  }

  /** Whatever the tasks do, nested drains included, no task is lost or doubled; `held` are the snapshots of the drains
      around this one. */
  lemma {:induction false} TasksConserve(r: Record, snapshot: seq<Task>, held: multiset<Task>)
    requires Accounted(r, held + multiset(snapshot))
    ensures Accounted(AfterTasks(r, snapshot), held)
    decreases QueueSize(r.queue) + QueueSize(snapshot), 0
  {
    hide QueueSize, AfterCalls, Accounted;
    SnapshotSplit(snapshot, held);
    if snapshot != [] {
      StartTask(r, snapshot[0], held + multiset(snapshot[1..]));
      SizeOfTasks(r, snapshot);
      CallsConserve(r.(ran := r.ran + [snapshot[0]]), snapshot[0].calls, held + multiset(snapshot[1..]));
      TasksConserve(AfterTask(r, snapshot[0]), snapshot[1..], held);
    }
  }

  lemma SizeOfTasks(r: Record, q: seq<Task>)
    requires q != []
    ensures QueueSize(q) == TaskSize(q[0]) + QueueSize(q[1..])
    ensures QueueSize(AfterTask(r, q[0]).queue) < QueueSize(r.queue) + TaskSize(q[0])
  {
  }

  lemma SnapshotSplit(q: seq<Task>, held: multiset<Task>)
    ensures q == [] ==> held + multiset(q) == held
    ensures q != [] ==> held + multiset(q) == held + multiset(q[1..]) + multiset{q[0]}
  {
    if q != [] {
      assert q == [q[0]] + q[1..];
    }
  }

  lemma StartTask(r: Record, t: Task, held: multiset<Task>)
    requires Accounted(r, held + multiset{t})
    ensures Accounted(r.(ran := r.ran + [t]), held)
  {
  }

  lemma QueueMoves(r: Record, t: Task, held: multiset<Task>)
    requires Accounted(r, held)
    ensures Accounted(AfterPush(r, t), held) && Accounted(AfterDrop(r), held)
    ensures Accounted(r.(queue := []), held + multiset(r.queue))
  {
  }

  lemma {:induction false} CallsConserve(r: Record, c: Calls, held: multiset<Task>)
    requires Accounted(r, held)
    ensures Accounted(AfterCalls(r, c), held)
    decreases QueueSize(r.queue) + CallsSize(c), 1, c
  {
    hide QueueSize, AfterTasks, Accounted;
    NothingYet(r.queue);
    match c {
      case Done =>
      case PushNow(t, rest) =>
        QueueSizeSnoc(r.queue, t);
        QueueMoves(r, t, held);
        CallsConserve(AfterPush(r, t), rest, held);
      case DrainNow(rest) =>
        QueueMoves(r, Task(Done, false), held);
        TasksConserve(r.(queue := []), r.queue, held);
        CallsConserve(AfterTasks(r.(queue := []), r.queue), rest, held);
      case DropNow(rest) =>
        QueueMoves(r, Task(Done, false), held);
        CallsConserve(AfterDrop(r), rest, held);
    }
  }

  /** Conservation over a whole drain: a task pushed once has run once, or was dropped once, or is queued once. */
  lemma DrainConserves(r: Record, t: Task)
    requires Accounted(r, multiset{})
    ensures var a := AfterDrain(r);
            Accounted(a, multiset{}) &&
            multiset(a.pushed)[t] == multiset(a.ran)[t] + multiset(a.dropped)[t] + multiset(a.queue)[t]
  {
    assert multiset{} + multiset(r.queue) == multiset(r.queue);
    TasksConserve(r.(queue := []), r.queue, multiset{});
  }

  ghost predicate RanToo(before: seq<Task>, q: seq<Task>, after: seq<Task>) {
    multiset(before) + multiset(q) <= multiset(after)
  }

  lemma RanMore(before: seq<Task>, p: seq<Task>, mid: seq<Task>, q: seq<Task>, after: seq<Task>)
    requires RanToo(before, p, mid) && RanToo(mid, q, after)
    ensures RanToo(before, p + q, after) && RanToo(before, p, after)
  {
  }

  /** A drain runs every task of its snapshot: whatever those tasks do, none of them can be dropped or put back. */
  lemma {:induction false} SnapshotRuns(r: Record, snapshot: seq<Task>)
    ensures RanToo(r.ran, snapshot, AfterTasks(r, snapshot).ran)
    decreases QueueSize(r.queue) + QueueSize(snapshot), 0
  {
    if snapshot != [] {
      hide QueueSize, AfterCalls, RanToo;
      var t := snapshot[0];
      var started := r.(ran := r.ran + [t]);
      SizeOfTasks(r, snapshot);
      CallsRun(started, t.calls);
      SnapshotRuns(AfterTask(r, t), snapshot[1..]);
      Started(r.ran, t);
      RanMore(r.ran, [t], started.ran, [], AfterTask(r, t).ran);
      RanMore(r.ran, [t], AfterTask(r, t).ran, snapshot[1..], AfterTasks(r, snapshot).ran);
      assert [t] + snapshot[1..] == snapshot;
    }
  }

  lemma Started(ran: seq<Task>, t: Task)
    ensures RanToo(ran, [t], ran + [t])
  {
  }

  lemma RanNothing(ran: seq<Task>)
    ensures RanToo(ran, [], ran)
  {
  }

  lemma {:induction false} CallsRun(r: Record, c: Calls)
    ensures RanToo(r.ran, [], AfterCalls(r, c).ran)
    decreases QueueSize(r.queue) + CallsSize(c), 1, c
  {
    hide QueueSize, AfterTasks, RanToo;
    NothingYet(r.queue);
    match c {
      case Done => RanNothing(r.ran);
      case PushNow(t, rest) =>
        QueueSizeSnoc(r.queue, t);
        CallsRun(AfterPush(r, t), rest);
      case DrainNow(rest) =>
        var inner := AfterTasks(r.(queue := []), r.queue);
        SnapshotRuns(r.(queue := []), r.queue);
        CallsRun(inner, rest);
        RanNothing(r.ran);
        NestedRun(r.ran, r.queue, inner.ran);
        RanMore(r.ran, [], inner.ran, [], AfterCalls(inner, rest).ran);
      case DropNow(rest) => CallsRun(AfterDrop(r), rest);
    }
  }

  lemma NestedRun(before: seq<Task>, q: seq<Task>, after: seq<Task>)
    requires RanToo(before, q, after)
    ensures RanToo(before, [], after)
  {
  }

  // ---------------------------------------------------------------- order

  /** `a` is `b` without some of its elements. */
  predicate Within(a: seq<Task>, b: seq<Task>)
    decreases |b|
  {
    a == [] ||
    (b != [] && (Within(a, b[..|b| - 1]) || (a[|a| - 1] == b[|b| - 1] && Within(a[..|a| - 1], b[..|b| - 1]))))
  }

  /** What ran, followed by the queue, is what was pushed, in that order, without what was dropped. */
  predicate InOrder(r: Record) {
    Within(r.ran + r.queue, r.pushed)
  }

  lemma WithinPush(a: seq<Task>, b: seq<Task>, t: Task)
    requires Within(a, b)
    ensures Within(a + [t], b + [t])
  {
    assert (a + [t])[..|a|] == a && (b + [t])[..|b|] == b;
  }

  /** One more element behind a part of `b`, matched or not. */
  lemma PartGrows(w: seq<Task>, b: seq<Task>, k: nat)
    requires k < |b|
    requires Within(w, b[..|b| - 1][k..]) ||
             (w != [] && w[|w| - 1] == b[|b| - 1] && Within(w[..|w| - 1], b[..|b| - 1][k..]))
    ensures Within(w, b[k..])
  {
    var part := b[k..];
    assert part[..|part| - 1] == b[..|b| - 1][k..] && part[|part| - 1] == b[|b| - 1];
  }

  lemma {:induction false} WithinParts(u: seq<Task>, w: seq<Task>, b: seq<Task>) returns (k: nat)
    requires Within(u + w, b)
    ensures k <= |b| && Within(u, b[..k]) && Within(w, b[k..])
    decreases |b|
  {
    if w == [] {
      k := |b|;
      assert u + w == u && b[..k] == b;
    } else {
      var n, m := |b| - 1, |w| - 1;
      assert (u + w)[..|u + w| - 1] == u + w[..m] && (u + w)[|u + w| - 1] == w[m];
      var matched := !Within(u + w, b[..n]);
      assert matched ==> Within(u + w[..m], b[..n]) && w[m] == b[n];
      hide Within;
      k := WithinParts(u, if matched then w[..m] else w, b[..n]);
      assert b[..n][..k] == b[..k];
      PartGrows(w, b, k);
    }
  }

  lemma {:induction false} WithinSmaller(a: seq<Task>, b: seq<Task>)
    requires Within(a, b)
    ensures |a| <= |b| && (forall t | t in a :: t in b) && (|a| == |b| ==> a == b)
    decreases |b|
  {
    if a != [] {
      var n := |b| - 1;
      if Within(a, b[..n]) {
        WithinSmaller(a, b[..n]);
      } else {
        WithinSmaller(a[..|a| - 1], b[..n]);
        assert a == a[..|a| - 1] + [a[|a| - 1]] && b == b[..n] + [b[n]];
      }
    }
  }

  /** If nothing was dropped, order means equality. */
  lemma NothingDropped(r: Record)
    requires InOrder(r) && Accounted(r, multiset{}) && r.dropped == []
    ensures r.ran + r.queue == r.pushed
  {
    WithinSmaller(r.ran + r.queue, r.pushed);
    assert |multiset(r.pushed)| == |multiset(r.ran) + multiset(r.dropped) + multiset(r.queue) + multiset{}|;
  }

  /** The task, started while tasks are waiting in the queue or not, drains a queue in which tasks are waiting. */
  predicate Overtakes(c: Calls, waiting: bool) {
    match c
    case Done => false
    case PushNow(_, rest) => Overtakes(rest, true)
    case DrainNow(rest) => waiting || Overtakes(rest, false)
    case DropNow(rest) => Overtakes(rest, false)
  }

  /** It ends with tasks waiting in the queue. */
  predicate Leaves(c: Calls, waiting: bool) {
    match c
    case Done => waiting
    case PushNow(_, rest) => Leaves(rest, true)
    case DrainNow(rest) => Leaves(rest, false)
    case DropNow(rest) => Leaves(rest, false)
  }

  ghost predicate PushesOnly(c: Calls, all: iset<Task>) {
    match c
    case Done => true
    case PushNow(t, rest) => t in all && PushesOnly(rest, all)
    case DrainNow(rest) => PushesOnly(rest, all)
    case DropNow(rest) => PushesOnly(rest, all)
  }

  /** Tasks of the set push tasks of the set. */
  ghost predicate Closed(all: iset<Task>) {
    forall t | t in all :: PushesOnly(t.calls, all)
  }

  ghost predicate AllIn(q: seq<Task>, all: iset<Task>) {
    forall t | t in q :: t in all
  }

  /** No task of the set drains tasks it has just pushed, and none drains tasks that another has left behind. */
  ghost predicate Orderly(all: iset<Task>) {
    && (forall t | t in all :: !Overtakes(t.calls, false))
    && ((forall t | t in all :: !Leaves(t.calls, false)) || (forall t | t in all :: !Overtakes(t.calls, true)))
  }

  /** With `held` still to run, dropping the queue and pushing to it keep the order. */
  lemma OrderKept(r: Record, held: seq<Task>, t: Task)
    requires Within(r.ran + held + r.queue, r.pushed)
    ensures var p := AfterPush(r, t); Within(p.ran + held + p.queue, p.pushed)
    ensures var d := AfterDrop(r); Within(d.ran + held + d.queue, d.pushed)
  {
    WithinPush(r.ran + held + r.queue, r.pushed, t);
    assert r.ran + held + r.queue + [t] == r.ran + held + (r.queue + [t]);
    var k := WithinParts(r.ran + held, r.queue, r.pushed);
    WithinLonger(r.ran + held, r.pushed, k);
    assert r.ran + held + [] == r.ran + held;
  }

  lemma {:induction false} WithinLonger(a: seq<Task>, b: seq<Task>, k: nat)
    requires k <= |b| && Within(a, b[..k])
    ensures Within(a, b)
    decreases |b| - k
  {
    if k < |b| {
      assert b[..k + 1][..k] == b[..k];
      WithinLonger(a, b, k + 1);
    } else {
      assert b[..k] == b;
    }
  }

  /** A task that overtakes nothing starts no other task. */
  lemma {:induction false} QuietCalls(r: Record, c: Calls)
    requires !Overtakes(c, r.queue != [])
    ensures AfterCalls(r, c).ran == r.ran && (AfterCalls(r, c).queue != [] <==> Leaves(c, r.queue != []))
    decreases c
  {
    hide QueueSize;
    match c {
      case Done =>
      case PushNow(t, rest) => QuietCalls(AfterPush(r, t), rest);
      case DrainNow(rest) =>
        NoTasks(r.(queue := []));
        assert r.(queue := []) == r;
        QuietCalls(r, rest);
      case DropNow(rest) => QuietCalls(AfterDrop(r), rest);
    }
  }

  lemma {:induction false} CallsInOrder(r: Record, c: Calls, held: seq<Task>, all: iset<Task>)
    requires !Overtakes(c, r.queue != []) && PushesOnly(c, all) && AllIn(r.queue, all)
    requires Within(r.ran + held + r.queue, r.pushed)
    ensures var a := AfterCalls(r, c);
            AllIn(a.queue, all) && Within(a.ran + held + a.queue, a.pushed)
    decreases c
  {
    hide Within, QueueSize;
    match c {
      case Done =>
      case PushNow(t, rest) =>
        OrderKept(r, held, t);
        CallsInOrder(AfterPush(r, t), rest, held, all);
      case DrainNow(rest) =>
        NoTasks(r.(queue := []));
        assert r.(queue := []) == r;
        CallsInOrder(r, rest, held, all);
      case DropNow(rest) =>
        OrderKept(r, held, Task(Done, false));
        CallsInOrder(AfterDrop(r), rest, held, all);
    }
  }

  /** The tasks of a snapshot, none overtaking: the next one starts with an empty queue, or none of them ever drains a
      queue in which tasks are waiting. */
  lemma {:induction false} TasksInOrder(r: Record, snapshot: seq<Task>, all: iset<Task>)
    requires Closed(all) && Orderly(all) && AllIn(snapshot, all) && AllIn(r.queue, all)
    requires r.queue == [] || forall t | t in all :: !Overtakes(t.calls, true)
    requires Within(r.ran + snapshot + r.queue, r.pushed)
    ensures var a := AfterTasks(r, snapshot);
            a.ran == r.ran + snapshot && AllIn(a.queue, all) && InOrder(a)
    decreases |snapshot|
  {
    hide Within, Overtakes, Leaves;
    if snapshot == [] {
      NoTasks(r);
      assert r.ran + [] == r.ran;
    } else {
      var t, rest := snapshot[0], snapshot[1..];
      assert snapshot == [t] + rest && t in snapshot;
      var started := r.(ran := r.ran + [t]);
      assert started.ran + rest == r.ran + snapshot;
      QuietCalls(started, t.calls);
      CallsInOrder(started, t.calls, rest, all);
      TasksInOrder(AfterTask(r, t), rest, all);
    }
  }

  /** A drain over tasks of an orderly set runs its snapshot in the order pushed, and whatever was pushed and not dropped
      stays in the order pushed. */
  lemma DrainKeepsOrder(r: Record, all: iset<Task>)
    requires Closed(all) && Orderly(all) && AllIn(r.queue, all) && InOrder(r)
    ensures var a := AfterDrain(r); a.ran == r.ran + r.queue && InOrder(a) && AllIn(a.queue, all)
  {
    assert r.ran + r.queue + [] == r.ran + r.queue;
    TasksInOrder(r.(queue := []), r.queue, all);
  }

  // What a disorderly set does.

  ghost predicate UpTo(q: seq<Task>, n: nat) {
    forall t | t in q :: TaskSize(t) <= n
  }

  /** More has run and more was pushed, but nothing as large as n. */
  ghost predicate Grown(r: Record, a: Record, n: nat) {
    && r.ran <= a.ran && r.pushed <= a.pushed && UpTo(a.queue, n)
    && forall t | t in a.pushed[|r.pushed|..] :: TaskSize(t) < n
  }

  lemma GrownMore(r: Record, b: Record, a: Record, n: nat)
    requires Grown(r, b, n) && Grown(b, a, n)
    ensures Grown(r, a, n)
  {
    assert a.pushed[|r.pushed|..] == b.pushed[|r.pushed|..] + a.pushed[|b.pushed|..];
  }

  lemma GrownOne(r: Record, t: Task, n: nat)
    requires UpTo(r.queue, n)
    ensures Grown(r, r, n) && Grown(r, r.(queue := []), n) && Grown(r, AfterDrop(r), n)
    ensures Grown(r, r.(ran := r.ran + [t]), n)
    ensures TaskSize(t) < n ==> Grown(r, AfterPush(r, t), n)
  {
    hide TaskSize;
  }

  lemma {:induction false} CallsGrow(r: Record, c: Calls, n: nat)
    requires UpTo(r.queue, n) && CallsSize(c) < n
    ensures Grown(r, AfterCalls(r, c), n)
    decreases QueueSize(r.queue) + CallsSize(c), 1, c
  {
    hide QueueSize, AfterTasks, Grown, UpTo;
    NothingYet(r.queue);
    GrownOne(r, Task(Done, false), n);
    match c {
      case Done =>
      case PushNow(t, rest) =>
        QueueSizeSnoc(r.queue, t);
        GrownOne(r, t, n);
        GrownUpTo(r, AfterPush(r, t), n);
        CallsGrow(AfterPush(r, t), rest, n);
        GrownMore(r, AfterPush(r, t), AfterCalls(r, c), n);
      case DrainNow(rest) =>
        var empty := r.(queue := []);
        var drained := AfterTasks(empty, r.queue);
        GrownUpTo(r, empty, n);
        TasksGrow(empty, r.queue, n);
        GrownMore(r, empty, drained, n);
        GrownUpTo(empty, drained, n);
        CallsGrow(drained, rest, n);
        GrownMore(r, drained, AfterCalls(r, c), n);
      case DropNow(rest) =>
        GrownUpTo(r, AfterDrop(r), n);
        CallsGrow(AfterDrop(r), rest, n);
        GrownMore(r, AfterDrop(r), AfterCalls(r, c), n);
    }
  }

  lemma GrownUpTo(r: Record, a: Record, n: nat)
    requires Grown(r, a, n)
    ensures UpTo(a.queue, n) && r.ran <= a.ran && r.pushed <= a.pushed
  {
  }

  lemma TaskGrows(r: Record, t: Task, n: nat)
    requires UpTo(r.queue, n) && TaskSize(t) <= n
    ensures Grown(r, AfterTask(r, t), n)
    ensures r.ran + [t] <= AfterTask(r, t).ran
    decreases QueueSize(r.queue) + CallsSize(t.calls), 2
  {
    hide QueueSize, AfterCalls, Grown, UpTo;
    var started := r.(ran := r.ran + [t]);
    GrownOne(r, t, n);
    CallsGrow(started, t.calls, n);
    GrownMore(r, started, AfterTask(r, t), n);
    GrownUpTo(started, AfterTask(r, t), n);
  }

  lemma {:induction false} TasksGrow(r: Record, snapshot: seq<Task>, n: nat)
    requires UpTo(r.queue, n) && UpTo(snapshot, n)
    ensures Grown(r, AfterTasks(r, snapshot), n)
    ensures snapshot != [] ==> r.ran + [snapshot[0]] <= AfterTasks(r, snapshot).ran
    decreases QueueSize(r.queue) + QueueSize(snapshot), 0
  {
    hide QueueSize, AfterTask, Grown;
    if snapshot == [] {
      GrownOne(r, Task(Done, false), n);
    } else {
      var t := snapshot[0];
      assert t in snapshot && UpTo(snapshot[1..], n);
      SizeOfTasks(r, snapshot);
      TaskGrows(r, t, n);
      GrownUpTo(r, AfterTask(r, t), n);
      TasksGrow(AfterTask(r, t), snapshot[1..], n);
      GrownMore(r, AfterTask(r, t), AfterTasks(r, snapshot), n);
      GrownUpTo(AfterTask(r, t), AfterTasks(r, snapshot), n);
    }
  }

  /** A task that overtakes starts some other task. */
  lemma {:induction false} OvertakingRuns(r: Record, c: Calls, n: nat)
    requires UpTo(r.queue, n) && CallsSize(c) < n && Overtakes(c, r.queue != [])
    ensures |AfterCalls(r, c).ran| > |r.ran|
    decreases c
  {
    hide QueueSize, AfterTasks, Grown;
    match c {
      case PushNow(t, rest) => OvertakingRuns(AfterPush(r, t), rest, n);
      case DrainNow(rest) =>
        var empty := r.(queue := []);
        var drained := AfterTasks(empty, r.queue);
        TasksGrow(empty, r.queue, n);
        GrownUpTo(empty, drained, n);
        if r.queue != [] {
          CallsGrow(drained, rest, n);
          GrownUpTo(drained, AfterCalls(r, c), n);
        } else {
          NoTasks(empty);
          OvertakingRuns(drained, rest, n);
        }
      case DropNow(rest) => OvertakingRuns(AfterDrop(r), rest, n);
    }
  }

  /** A task x that starts only when as many others as were pushed with it have run is late, if nothing as large is pushed
      after it. */
  lemma LateTask(q: seq<Task>, b: Record, x: Task)
    requires Grown(Record([], q, [], []), b, TaskSize(x)) && |b.ran| >= |q|
    ensures !InOrder(AfterTasks(b, [x]))
  {
    hide TaskSize, AfterTasks, QueueSize, Within;
    var n, a := TaskSize(x), AfterTasks(b, [x]);
    TasksGrow(b, [x], n);
    GrownMore(Record([], q, [], []), b, a, n);
    if InOrder(a) {
      var u, w := b.ran, a.ran[|b.ran|..] + a.queue;
      assert a.ran[|b.ran|] == x && w[0] == x && x in w;
      assert u + w == a.ran + a.queue;
      var k := WithinParts(u, w, a.pushed);
      WithinSmaller(u, a.pushed[..k]);
      WithinSmaller(w, a.pushed[k..]);
    }
  }

  /** A task that drains what it has pushed, queued twice. */
  lemma OvertakesItself(t: Task)
    requires Overtakes(t.calls, false)
    ensures !InOrder(AfterDrain(Record([t, t], [t, t], [], [])))
  {
    hide QueueSize, Within, Overtakes, Grown;
    var start, n := Record([], [t, t], [], []), TaskSize(t);
    var b := AfterTask(start, t);
    TaskGrows(start, t, n);
    OvertakingRuns(start.(ran := start.ran + [t]), t.calls, n);
    LateTask([t, t], b, t);
    assert [t, t][1..] == [t];
    assert AfterTasks(start, [t, t]) == AfterTasks(b, [t]);
  }

  /** A task that leaves something behind, one that drains it, and the larger of the two again. */
  lemma OvertakesTogether(p: Task, d: Task) returns (x: Task)
    requires !Overtakes(p.calls, false) && Leaves(p.calls, false) && Overtakes(d.calls, true)
    ensures x in {p, d} && !InOrder(AfterDrain(Record([p, d, x], [p, d, x], [], [])))
  {
    x := if TaskSize(p) >= TaskSize(d) then p else d;
    hide QueueSize, Within, Overtakes, Leaves, Grown;
    var q, n := [p, d, x], TaskSize(x);
    var start := Record([], q, [], []);
    var left := AfterTask(start, p);
    TaskGrows(start, p, n);
    GrownUpTo(start, left, n);
    QuietCalls(start.(ran := start.ran + [p]), p.calls);
    var b := AfterTask(left, d);
    TaskGrows(left, d, n);
    OvertakingRuns(left.(ran := left.ran + [d]), d.calls, n);
    GrownMore(start, left, b, n);
    LateTask(q, b, x);
    assert q[1..] == [d, x] && [d, x][1..] == [x];
    assert AfterTasks(start, q) == AfterTasks(left, [d, x]) == AfterTasks(b, [x]);
  }

  lemma {:induction false} WithinSame(q: seq<Task>)
    ensures Within(q, q)
    decreases |q|
  {
    if q != [] {
      WithinSame(q[..|q| - 1]);
    }
  }

  /** For a set of tasks that contains what its tasks push: every drain over them keeps the order if and only if the set
      is orderly. */
  lemma OrderKeptIffOrderly(all: iset<Task>)
    requires Closed(all)
    ensures Orderly(all) <==> forall r: Record | AllIn(r.queue, all) && InOrder(r) :: InOrder(AfterDrain(r))
  {
    hide Within, Overtakes, Leaves, AfterDrain;
    if Orderly(all) {
      forall r: Record | AllIn(r.queue, all) && InOrder(r) ensures InOrder(AfterDrain(r)) {
        DrainKeepsOrder(r, all);
      }
    } else if t :| t in all && Overtakes(t.calls, false) {
      OvertakesItself(t);
      Disorder([t, t], all);
    } else {
      var p :| p in all && Leaves(p.calls, false);
      var d :| d in all && Overtakes(d.calls, true);
      var x := OvertakesTogether(p, d);
      Disorder([p, d, x], all);
    }
  }

  lemma Disorder(q: seq<Task>, all: iset<Task>)
    requires AllIn(q, all) && !InOrder(AfterDrain(Record(q, q, [], [])))
    ensures exists r: Record :: AllIn(r.queue, all) && InOrder(r) && !InOrder(AfterDrain(r))
  {
    hide Within, AfterDrain;
    var r := Record(q, q, [], []);
    WithinSame(q);
    assert r.ran + r.queue == q;
    assert AllIn(r.queue, all) && InOrder(r) && !InOrder(AfterDrain(r));
  }

  /** A nested drain can change the order: of two queued tasks the first pushes a third and drains, and the third runs
      before the second. */
  lemma NestedDrainOvertakes()
    ensures var third, second := Task(Done, false), Task(Done, true);
            var first := Task(PushNow(third, DrainNow(Done)), false);
            AfterDrain(AfterPush(AfterPush(EMPTY, first), second)).ran == [first, third, second]
  {
    var third, second := Task(Done, false), Task(Done, true);
    var first := Task(PushNow(third, DrainNow(Done)), false);
    var start := Record([], [first, second], [], []);
    assert AfterPush(AfterPush(EMPTY, first), second) == start.(queue := [first, second]);
    var started := start.(ran := [first]);
    assert start.ran + [first] == [first];
    var offered := Record([third], [first, second, third], [first], []);
    assert AfterPush(started, third) == offered;
    OneTask(offered.(queue := []), third);
    var nested := Record([], [first, second, third], [first, third], []);
    assert AfterTask(offered.(queue := []), third) == nested;
    assert AfterCalls(offered, DrainNow(Done)) == nested;
    assert AfterTask(start, first) == nested;
    OneTask(nested, second);
    assert [first, second][1..] == [second];
    assert nested.ran + [second] == [first, third, second];
  }

  lemma OneTask(r: Record, t: Task)
    ensures AfterTasks(r, [t]) == AfterTask(r, t)
  {
    assert [t][1..] == [];
  }
}
