/** The outbound half of the pipe server: producers append to one queue, one writer thread pops it and writes to
    whatever client is connected when it looks. Steps are atomic between lock acquisitions. */
module PipeWriter {
  import opened Bytes

  type Frame = seq<byte>
  type Connection = nat  // numbered in the order clients connect

  /** What became of a popped frame. */
  datatype Result =
    | Wrote(c: Connection)
    | WriteFailed(c: Connection)
    | NoClient

  /** Where the writer thread is. */
  datatype Writer =
    | Waiting
    | Popped(frame: Frame)
    | Routed(frame: Frame, pipe: Option<Connection>)
    | Exited

  datatype State = State(
    outbound: seq<Frame>,
    active: Option<Connection>,
    stop: bool,
    writer: Writer,
    offered: map<nat, Frame>,     // producers at the stop check, with a client or not needing one
    pushing: map<nat, Frame>,     // producers past the stop check, not yet at the queue
    pushed: seq<Frame>,           // every frame ever appended to the queue
    popped: seq<Frame>,           // every frame ever taken off it
    results: seq<Result>,         // what became of the popped frames, in the order they were popped
    wires: seq<seq<Frame>>,       // the frames written to each connection
    atExit: nat)                  // how many frames had been pushed when the writer left

  const INITIAL := State([], None, false, Waiting, map[], map[], [], [], [], [], 0)

  // ------------------------------------------------------------- the steps

  /** A frame on its way to EnqueueOutbound; SendFrame looks for a client first. */
  function AfterOffer(s: State, id: nat, frame: Frame, needsClient: bool): State {
    if id in s.offered || (needsClient && s.active == None) then s
    else s.(offered := s.offered[id := frame])
  }

  /** The stop check of EnqueueOutbound. */
  function AfterCheck(s: State, id: nat): State {
    if id !in s.offered || id in s.pushing then s
    else
      var t := s.(offered := s.offered - {id});
      if s.stop then t else t.(pushing := t.pushing[id := s.offered[id]])
  }

  function AfterPush(s: State, id: nat): State {
    if id !in s.pushing then s
    else s.(pushing := s.pushing - {id}, outbound := s.outbound + [s.pushing[id]], pushed := s.pushed + [s.pushing[id]])
  }

  function AfterPop(s: State): State {
    if !s.writer.Waiting? then s
    else if s.outbound != [] then
      s.(writer := Popped(s.outbound[0]), popped := s.popped + [s.outbound[0]], outbound := s.outbound[1..])
    else if s.stop then s.(writer := Exited, atExit := |s.pushed|)
    else s
  }

  function AfterRoute(s: State): State {
    if s.writer.Popped? then s.(writer := Routed(s.writer.frame, s.active)) else s
  }

  /** WriteFrame, whole or failed. */
  function AfterWrite(s: State, ok: bool): State {
    if !s.writer.Routed? || (s.writer.pipe.Some? && s.writer.pipe.value >= |s.wires|) then s
    else if s.writer.pipe == None then
      s.(writer := Waiting, results := s.results + [NoClient])
    else
      var c := s.writer.pipe.value;
      if ok then
        s.(writer := Waiting, results := s.results + [Wrote(c)], wires := s.wires[c := s.wires[c] + [s.writer.frame]])
      else s.(writer := Waiting, results := s.results + [WriteFailed(c)])
  }

  function AfterConnect(s: State): State {
    s.(active := Some(|s.wires|), wires := s.wires + [[]])
  }

  datatype Step =
    | Offer(id: nat, frame: Frame, needsClient: bool)
    | Check(id: nat)
    | Push(id: nat)
    | Pop
    | Route
    | Write(ok: bool)
    | Connect
    | Disconnect
    | Stop

  function Next(s: State, step: Step): State {
    match step
    case Offer(id, f, n) => AfterOffer(s, id, f, n)
    case Check(id) => AfterCheck(s, id)
    case Push(id) => AfterPush(s, id)
    case Pop => AfterPop(s)
    case Route => AfterRoute(s)
    case Write(ok) => AfterWrite(s, ok)
    case Connect => AfterConnect(s)
    case Disconnect => s.(active := None)
    case Stop => s.(stop := true)
  }

  function Run(steps: seq<Step>): State {
    if steps == [] then INITIAL else Next(Run(steps[..|steps| - 1]), steps[|steps| - 1])
  }

  // ------------------------------------------------------------ the server

  class PipeServer {
    var outbound: seq<Frame>
    var activePipe: Option<Connection>
    var stop: bool
    var writer: Writer
    var offered: map<nat, Frame>
    var pushing: map<nat, Frame>
    ghost var pushed: seq<Frame>
    ghost var popped: seq<Frame>
    ghost var results: seq<Result>
    var wires: seq<seq<Frame>>
    ghost var atExit: nat

    ghost function Now(): State
      reads this
    {
      State(outbound, activePipe, stop, writer, offered, pushing, pushed, popped, results, wires, atExit)
    }

    constructor ()
      ensures Now() == INITIAL
    {
      outbound, activePipe, stop, writer, offered, pushing := [], None, false, Waiting, map[], map[];
      pushed, popped, results, wires, atExit := [], [], [], [], 0;
    }

    /** The frame of a reply or of the on-connect handshake goes to EnqueueOutbound directly. */
    method Reply(id: nat, payload: Frame)
      requires id !in offered
      modifies this
      ensures Now() == AfterOffer(old(Now()), id, payload, false)
    {
      offered := offered[id := payload];
    }

    /** SendFrame up to its call of EnqueueOutbound. */
    method SendFrame(id: nat, payload: Frame) returns (ok: bool)
      requires id !in offered
      modifies this
      ensures Now() == AfterOffer(old(Now()), id, payload, true) && ok == old(activePipe).Some?
    {
      if activePipe == None { return false; }
      offered := offered[id := payload];
      return true;
    }

    /** EnqueueOutbound up to the lock of the queue. */
    method EnqueueOutbound(id: nat) returns (ok: bool)
      requires id in offered && id !in pushing
      modifies this
      ensures Now() == AfterCheck(old(Now()), id) && ok == !old(stop)
    {
      var payload := offered[id];
      offered := offered - {id};
      if stop { return false; }
      pushing := pushing[id := payload];
      return true;
    }

    method PushBack(id: nat)
      requires id in pushing
      modifies this
      ensures Now() == AfterPush(old(Now()), id)
    {
      outbound := outbound + [pushing[id]];
      pushed := pushed + [pushing[id]];
      pushing := pushing - {id};
    }

    /** ConnectClient succeeded: the new pipe is published. */
    method Publish()
      modifies this
      ensures Now() == AfterConnect(old(Now()))
    {
      activePipe := Some(|wires|);
      wires := wires + [[]];
    }

    method ClearActive()
      modifies this
      ensures Now() == old(Now()).(active := None)
    {
      activePipe := None;
    }

    /** The writer's wait: nothing while there is neither a frame nor a stop. */
    method TakeFrame()
      requires writer.Waiting?
      modifies this
      ensures Now() == AfterPop(old(Now()))
    {
      if !stop && |outbound| == 0 { return; }
      if |outbound| == 0 {
        writer := Exited;
        atExit := |pushed|;
        return;
      }
      writer := Popped(outbound[0]);
      popped := popped + [outbound[0]];
      outbound := outbound[1..];
    }

    method LookUpPipe()
      requires writer.Popped?
      modifies this
      ensures Now() == AfterRoute(old(Now()))
    {
      writer := Routed(writer.frame, activePipe);
    }

    method WriteOut(ok: bool)
      requires writer.Routed? && (writer.pipe.Some? ==> writer.pipe.value < |wires|)
      modifies this
      ensures Now() == AfterWrite(old(Now()), ok)
    {
      var frame, pipe := writer.frame, writer.pipe;
      writer := Waiting;
      if pipe == None {
        results := results + [NoClient];
        return;
      }
      var c := pipe.value;
      if ok {
        wires := wires[c := wires[c] + [frame]];
        results := results + [Wrote(c)];
      } else {
        results := results + [WriteFailed(c)];
      }
    }

    /** WriterThreadMain once stop is set and the producers are gone. The environment decides, frame by frame, whether
        the client is gone when the writer looks and whether the write succeeds, which after a stop it seldom does. */
    method DrainOnStop(leaves: nat -> bool, writes: nat -> bool)
      requires stop && writer.Waiting? && (activePipe.Some? ==> activePipe.value < |wires|)
      modifies this
      ensures writer == Exited && outbound == [] && popped == old(popped) + old(outbound)
      ensures results == old(results) + Fates(old(activePipe), leaves, writes, |old(outbound)|)
      ensures Received(old(wires), wires, old(outbound), Fates(old(activePipe), leaves, writes, |old(outbound)|))
    {
      ghost var queue, popped0, results0, wires0, client := outbound, popped, results, wires, activePipe;
      var n := 0;
      NothingReceived(wires, queue, client, leaves, writes);
      hide Received, Fates, ActiveAfter;
      while true
        invariant stop && writer.Waiting? && 0 <= n <= |queue| && outbound == queue[n..]
        invariant popped == popped0 + queue[..n] && results == results0 + Fates(client, leaves, writes, n)
        invariant activePipe == ActiveAfter(client, leaves, n)
        invariant |wires| == |wires0| && Received(wires0, wires, queue, Fates(client, leaves, writes, n))
        decreases |outbound|
      {
        ghost var at := wires;
        TakeFrame();
        if writer == Exited {
          assert queue[..n] == queue;
          return;
        }
        if leaves(n) { ClearActive(); }
        LookUpPipe();
        NextFate(client, leaves, writes, n);
        SliceNext(queue, n);
        WriteOut(writes(n));
        FateReceived(wires0, at, queue, client, leaves, writes, n);
        n := n + 1;
      }
    }
  }

  /** The client the writer finds at its n-th look, counted from 1. */
  function ActiveAfter(client: Option<Connection>, leaves: nat -> bool, n: nat): (a: Option<Connection>)
    ensures a == client || a == None
  {
    if n == 0 then client else if leaves(n - 1) then None else ActiveAfter(client, leaves, n - 1)
  }

  /** What becomes of the first n frames. */
  function Fates(client: Option<Connection>, leaves: nat -> bool, writes: nat -> bool, n: nat): (r: seq<Result>)
    ensures |r| == n
  {
    if n == 0 then [] else
    var a := ActiveAfter(client, leaves, n);
    Fates(client, leaves, writes, n - 1) +
    [if a == None then NoClient else if writes(n - 1) then Wrote(a.value) else WriteFailed(a.value)]
  }

  /** Each connection got the frames whose write to it succeeded, in order, behind what it had. */
  ghost predicate Received(before: seq<seq<Frame>>, after: seq<seq<Frame>>, frames: seq<Frame>, results: seq<Result>) {
    && |after| == |before| && |results| <= |frames|
    && forall c | 0 <= c < |after| :: after[c] == before[c] + Selected(frames, results, c)
  }

  /** The wires after one more frame. */
  function WireOne(wires: seq<seq<Frame>>, r: Result, frame: Frame): seq<seq<Frame>> {
    if r.Wrote? && r.c < |wires| then wires[r.c := wires[r.c] + [frame]] else wires
  }

  lemma OneReceived(before: seq<seq<Frame>>, after: seq<seq<Frame>>, frames: seq<Frame>, results: seq<Result>, r: Result)
    requires Received(before, after, frames, results) && |results| < |frames|
    ensures Received(before, WireOne(after, r, frames[|results|]), frames, results + [r])
  {
    hide Selected;
    forall c | 0 <= c < |after|
      ensures WireOne(after, r, frames[|results|])[c] == before[c] + Selected(frames, results + [r], c)
    {
      Settled(frames, results, r, c);
      var more := if r == Wrote(c) then [frames[|results|]] else [];
      assert before[c] + Selected(frames, results, c) + more == before[c] + (Selected(frames, results, c) + more);
      assert after[c] + [] == after[c];
    }
  }

  lemma NothingReceived(wires: seq<seq<Frame>>, queue: seq<Frame>, client: Option<Connection>,
                        leaves: nat -> bool, writes: nat -> bool)
    ensures Received(wires, wires, queue, Fates(client, leaves, writes, 0)) && Fates(client, leaves, writes, 0) == []
    ensures ActiveAfter(client, leaves, 0) == client && queue[0..] == queue
  {
  }

  lemma SliceNext(queue: seq<Frame>, n: nat)
    requires n < |queue|
    ensures queue[n..] == [queue[n]] + queue[n + 1..] && queue[..n + 1] == queue[..n] + [queue[n]]
  {
  }

  lemma NextFate(client: Option<Connection>, leaves: nat -> bool, writes: nat -> bool, n: nat)
    ensures ActiveAfter(client, leaves, n + 1) == if leaves(n) then None else ActiveAfter(client, leaves, n)
    ensures var a := ActiveAfter(client, leaves, n + 1);
            Fates(client, leaves, writes, n + 1) == Fates(client, leaves, writes, n) +
            [if a == None then NoClient else if writes(n) then Wrote(a.value) else WriteFailed(a.value)]
  {
  }

  lemma FateReceived(before: seq<seq<Frame>>, at: seq<seq<Frame>>, queue: seq<Frame>, client: Option<Connection>,
                     leaves: nat -> bool, writes: nat -> bool, n: nat)
    requires n < |queue| && Received(before, at, queue, Fates(client, leaves, writes, n))
    ensures var r := Fates(client, leaves, writes, n + 1)[n];
            Received(before, WireOne(at, r, queue[n]), queue, Fates(client, leaves, writes, n + 1))
  {
    hide Received, ActiveAfter;
    NextFate(client, leaves, writes, n);
    OneReceived(before, at, queue, Fates(client, leaves, writes, n), Fates(client, leaves, writes, n + 1)[n]);
  }

  ghost predicate Stays(leaves: nat -> bool, n: nat) {
    forall k: nat | k < n :: !leaves(k)
  }

  ghost predicate AllWritten(writes: nat -> bool, n: nat) {
    forall k: nat | k < n :: writes(k)
  }

  lemma OneLonger(leaves: nat -> bool, writes: nat -> bool, n: nat)
    ensures Stays(leaves, n + 1) <==> Stays(leaves, n) && !leaves(n)
    ensures AllWritten(writes, n + 1) <==> AllWritten(writes, n) && writes(n)
  {
  }

  /** The whole queue reaches the client exactly when it stays and every write succeeds. */
  lemma {:induction false} DrainedWhole(queue: seq<Frame>, c: Connection, leaves: nat -> bool, writes: nat -> bool, n: nat)
    requires n <= |queue|
    ensures |Selected(queue, Fates(Some(c), leaves, writes, n), c)| <= n
    ensures Selected(queue, Fates(Some(c), leaves, writes, n), c) == queue[..n] <==>
            Stays(leaves, n) && AllWritten(writes, n)
    decreases n
  {
    if n != 0 {
      hide Selected, ActiveAfter, Fates, Stays, AllWritten;
      var init, last := Fates(Some(c), leaves, writes, n - 1), Fates(Some(c), leaves, writes, n)[n - 1];
      DrainedWhole(queue, c, leaves, writes, n - 1);
      NextFate(Some(c), leaves, writes, n - 1);
      Settled(queue, init, last, c);
      StaysWhile(c, leaves, n);
      OneLonger(leaves, writes, n - 1);
      OneMore(queue, Selected(queue, init, c), n - 1);
    }
  }

  lemma OneMore<T>(queue: seq<T>, part: seq<T>, n: nat)
    requires n < |queue| && |part| <= n
    ensures part + [queue[n]] == queue[..n + 1] <==> part == queue[..n]
    ensures part + [] == part && part != queue[..n + 1]
  {
    assert queue[..n + 1] == queue[..n] + [queue[n]];
    if part + [queue[n]] == queue[..n + 1] {
      assert part == (part + [queue[n]])[..|part|];
    }
  }

  lemma {:induction false} StaysWhile(c: Connection, leaves: nat -> bool, n: nat)
    ensures ActiveAfter(Some(c), leaves, n) == Some(c) <==> Stays(leaves, n)
    decreases n
  {
    if n != 0 {
      StaysWhile(c, leaves, n - 1);
      OneLonger(leaves, leaves, n - 1);
    }
  }

  // ------------------------------------------------------ every step keeps

  /** Frames the writer has taken off the queue. */
  function Taken(s: State): nat {
    |s.results| + if s.writer.Popped? || s.writer.Routed? then 1 else 0
  }

  /** The frames whose write to c succeeded, in the order they were popped. */
  function Selected(frames: seq<Frame>, results: seq<Result>, c: Connection): seq<Frame>
    requires |results| <= |frames|
  {
    if results == [] then [] else
    var n := |results| - 1;
    Selected(frames, results[..n], c) + if results[n] == Wrote(c) then [frames[n]] else []
  }

  /** Later frames go to later connections. */
  ghost predicate Ordered(results: seq<Result>) {
    forall i, j | 0 <= i < j < |results| && !results[i].NoClient? && !results[j].NoClient? :: results[i].c <= results[j].c
  }

  ghost predicate Fifo(s: State) {
    && s.popped + s.outbound == s.pushed && |s.popped| == Taken(s)
    && (s.writer.Popped? || s.writer.Routed? ==> s.writer.frame == s.popped[|s.results|])
    && (s.writer == Exited ==> s.stop && |s.results| == s.atExit)
  }

  ghost predicate Routes(s: State) {
    && Ordered(s.results)
    && (s.active.Some? ==> s.active.value == |s.wires| - 1)
    && (forall i | 0 <= i < |s.results| && !s.results[i].NoClient? :: s.results[i].c < |s.wires|)
    && (s.writer.Routed? && s.writer.pipe.Some? ==>
          s.writer.pipe.value < |s.wires| &&
          forall i | 0 <= i < |s.results| && !s.results[i].NoClient? :: s.results[i].c <= s.writer.pipe.value)
  }

  ghost predicate Wired(s: State) {
    Onto(s.wires, s.popped, s.results)
  }

  ghost predicate Onto(wires: seq<seq<Frame>>, popped: seq<Frame>, results: seq<Result>) {
    |results| <= |popped| && forall c | 0 <= c < |wires| :: wires[c] == Selected(popped, results, c)
  }

  ghost predicate Inv(s: State) {
    Fifo(s) && Routes(s) && Wired(s)
  }

  lemma {:induction false} SelectedStable(frames: seq<Frame>, more: seq<Frame>, results: seq<Result>, c: Connection)
    requires |results| <= |frames|
    ensures Selected(frames + more, results, c) == Selected(frames, results, c)
    decreases |results|
  {
    if results != [] {
      SelectedStable(frames, more, results[..|results| - 1], c);
    }
  }

  lemma {:induction false} NothingSelected(frames: seq<Frame>, results: seq<Result>, c: Connection)
    requires |results| <= |frames| && forall i | 0 <= i < |results| && !results[i].NoClient? :: results[i].c < c
    ensures Selected(frames, results, c) == []
    decreases |results|
  {
    if results != [] {
      NothingSelected(frames, results[..|results| - 1], c);
    }
  }

  lemma KeepPush(s: State, id: nat)
    requires Inv(s)
    ensures Inv(AfterPush(s, id))
  {
    if id in s.pushing {
      var f := s.pushing[id];
      assert s.popped + s.outbound + [f] == s.popped + (s.outbound + [f]);
    }
  }

  lemma KeepPop(s: State)
    requires Inv(s)
    ensures Inv(AfterPop(s))
  {
    hide Selected;
    if s.writer.Waiting? && s.outbound != [] {
      var f := s.outbound[0];
      assert s.popped + [f] + s.outbound[1..] == s.popped + s.outbound;
      forall c | 0 <= c < |s.wires| ensures s.wires[c] == Selected(s.popped + [f], s.results, c) {
        SelectedStable(s.popped, [f], s.results, c);
      }
    }
  }

  lemma Settled(frames: seq<Frame>, results: seq<Result>, r: Result, c: Connection)
    requires |results| < |frames|
    ensures Selected(frames, results + [r], c) ==
            Selected(frames, results, c) + if r == Wrote(c) then [frames[|results|]] else []
  {
    assert (results + [r])[..|results|] == results;
  }

  lemma KeepOrdered(results: seq<Result>, r: Result)
    requires Ordered(results)
    requires r.NoClient? || forall i | 0 <= i < |results| && !results[i].NoClient? :: results[i].c <= r.c
    ensures Ordered(results + [r])
  {
  }

  lemma OneOnto(wires: seq<seq<Frame>>, popped: seq<Frame>, results: seq<Result>, r: Result)
    requires Onto(wires, popped, results) && |results| < |popped|
    ensures Onto(WireOne(wires, r, popped[|results|]), popped, results + [r])
  {
    hide Selected;
    forall c | 0 <= c < |wires|
      ensures WireOne(wires, r, popped[|results|])[c] == Selected(popped, results + [r], c)
    {
      Settled(popped, results, r, c);
      assert wires[c] + [] == wires[c];
    }
  }

  lemma KeepWrite(s: State, ok: bool)
    requires Inv(s)
    ensures Inv(AfterWrite(s, ok))
  {
    if s.writer.Routed? {
      var t := AfterWrite(s, ok);
      var r := t.results[|s.results|];
      assert t.results == s.results + [r];
      KeepOrdered(s.results, r);
      hide Ordered, Onto;
      OneOnto(s.wires, s.popped, s.results, r);
    }
  }

  lemma KeepConnect(s: State)
    requires Inv(s)
    ensures Inv(AfterConnect(s))
  {
    NothingSelected(s.popped, s.results, |s.wires|);
  }

  lemma NextKeeps(s: State, step: Step)
    requires Inv(s)
    ensures Inv(Next(s, step))
  {
    match step {
      case Push(id) => KeepPush(s, id);
      case Pop => KeepPop(s);
      case Write(ok) => KeepWrite(s, ok);
      case Connect => KeepConnect(s);
      case _ =>
    }
  }

  lemma {:induction false} RunKeeps(steps: seq<Step>)
    ensures Inv(Run(steps))
    decreases |steps|
  {
    if steps != [] {
      hide Next, Inv;
      RunKeeps(steps[..|steps| - 1]);
      NextKeeps(Run(steps[..|steps| - 1]), steps[|steps| - 1]);
    }
  }

  // ------------------------------------------------------- the main results

  /** Nothing is lost, doubled or reordered on the way through the queue: the frames popped, the one in the writer's hand
      last, followed by the queue are the frames pushed; and every popped frame but the one in hand is settled. */
  lemma QueueConserved(steps: seq<Step>)
    ensures var s := Run(steps);
            s.popped + s.outbound == s.pushed && |s.popped| == Taken(s) &&
            (s.writer.Popped? || s.writer.Routed? ==> s.popped[|s.popped| - 1] == s.writer.frame)
  {
    RunKeeps(steps);
  }

  /** The frames on each connection's wire are those popped frames whose write to it succeeded, in the order they were
      pushed, and what goes to one connection comes before what goes to a later one. */
  lemma WiresInOrder(steps: seq<Step>, c: Connection)
    requires c < |Run(steps).wires|
    ensures var s := Run(steps);
            |s.results| <= |s.popped| && s.popped <= s.pushed &&
            Ordered(s.results) && s.wires[c] == Selected(s.popped, s.results, c)
  {
    RunKeeps(steps);
    var s := Run(steps);
    assert s.popped <= s.popped + s.outbound;
  }

  /** The writer leaves only after a stop, with every frame pushed by then popped and settled. */
  lemma ExitAfterDrain(steps: seq<Step>)
    requires Run(steps).writer == Exited
    ensures var s := Run(steps);
            s.stop && |s.results| == |s.popped| == s.atExit && s.pushed == s.popped + s.outbound
  {
    RunKeeps(steps);
  }

  // -------------------------------------------------- the way of one frame

  lemma OneStep(steps: seq<Step>, step: Step)
    ensures Run(steps + [step]) == Next(Run(steps), step)
  {
    assert (steps + [step])[..|steps|] == steps;
  }

  lemma OneOfferStays(s: State, step: Step, id: nat)
    requires id in s.offered && id !in s.pushing && step != Check(id)
    ensures var t := Next(s, step); id in t.offered && t.offered[id] == s.offered[id] && id !in t.pushing
  {
  }

  lemma OnePushStays(s: State, step: Step, id: nat)
    requires id in s.pushing && step != Push(id)
    ensures var t := Next(s, step); id in t.pushing && t.pushing[id] == s.pushing[id]
  {
  }

  /** A frame at the stop check stays there until its own check. */
  lemma {:induction false} OfferStays(steps: seq<Step>, more: seq<Step>, id: nat)
    requires id in Run(steps).offered && id !in Run(steps).pushing && Check(id) !in more
    ensures var s, t := Run(steps), Run(steps + more);
            id in t.offered && t.offered[id] == s.offered[id] && id !in t.pushing
    decreases |more|
  {
    hide Run, Next;
    if more == [] {
      assert steps + more == steps;
    } else {
      var n := |more| - 1;
      assert more[n] in more;
      OfferStays(steps, more[..n], id);
      assert steps + more == steps + more[..n] + [more[n]];
      OneStep(steps + more[..n], more[n]);
      OneOfferStays(Run(steps + more[..n]), more[n], id);
    }
  }

  /** A frame past the stop check stays on its way until its own push. */
  lemma {:induction false} PushStays(steps: seq<Step>, more: seq<Step>, id: nat)
    requires id in Run(steps).pushing && Push(id) !in more
    ensures var s, t := Run(steps), Run(steps + more); id in t.pushing && t.pushing[id] == s.pushing[id]
    decreases |more|
  {
    hide Run, Next;
    if more == [] {
      assert steps + more == steps;
    } else {
      var n := |more| - 1;
      assert more[n] in more;
      PushStays(steps, more[..n], id);
      assert steps + more == steps + more[..n] + [more[n]];
      OneStep(steps + more[..n], more[n]);
      OnePushStays(Run(steps + more[..n]), more[n], id);
    }
  }

  lemma OfferTaken(steps: seq<Step>, id: nat, frame: Frame, needsClient: bool)
    requires var s := Run(steps); id !in s.offered
    ensures var s, t := Run(steps), Run(steps + [Offer(id, frame, needsClient)]);
            if needsClient && s.active == None then t == s
            else id in t.offered && t.offered[id] == frame && t.pushing == s.pushing
  {
    hide Run;
    OneStep(steps, Offer(id, frame, needsClient));
  }

  lemma CheckTaken(steps: seq<Step>, id: nat)
    requires var s := Run(steps); id in s.offered && id !in s.pushing
    ensures var s, t := Run(steps), Run(steps + [Check(id)]);
            id !in t.offered &&
            if s.stop then t == s.(offered := t.offered) else id in t.pushing && t.pushing[id] == s.offered[id]
  {
    hide Run;
    OneStep(steps, Check(id));
  }

  /** A frame is sent when a client is there or none is needed. Whatever the other threads do between its stop check and
      its push, it is then behind everything else in the queue exactly when the stop had not been set at the check; after
      a stop it is dropped and nothing else changes. */
  lemma AcceptedIsQueued(steps: seq<Step>, id: nat, frame: Frame, needsClient: bool, before: seq<Step>, between: seq<Step>)
    requires var s := Run(steps); id !in s.offered && id !in s.pushing && (needsClient ==> s.active.Some?)
    requires Check(id) !in before && Push(id) !in between
    ensures var offered := steps + [Offer(id, frame, needsClient)] + before;
            var checked := offered + [Check(id)];
            var s, t := Run(checked + between), Run(checked + between + [Push(id)]);
            id !in Run(checked).offered &&
            if Run(offered).stop then Run(checked) == Run(offered).(offered := Run(checked).offered)
            else t.outbound == s.outbound + [frame] && t.pushed == s.pushed + [frame] && id !in t.pushing
  {
    hide Run, Next;
    var offered := steps + [Offer(id, frame, needsClient)] + before;
    OfferTaken(steps, id, frame, needsClient);
    OfferStays(steps + [Offer(id, frame, needsClient)], before, id);
    CheckTaken(offered, id);
    if !Run(offered).stop {
      PushStays(offered + [Check(id)], between, id);
      PushTaken(offered + [Check(id)] + between, id);
    }
  }

  lemma PushTaken(steps: seq<Step>, id: nat)
    requires id in Run(steps).pushing
    ensures var s, t := Run(steps), Run(steps + [Push(id)]);
            t.outbound == s.outbound + [s.pushing[id]] && t.pushed == s.pushed + [s.pushing[id]] && id !in t.pushing
  {
    hide Run;
    OneStep(steps, Push(id));
  }

  /** The writer takes the frame at the front to the client connected when it looks: a success is on that client's wire
      and on no other, and without a client or with a failed write the frame is gone. */
  lemma FrontFrameGoes(steps: seq<Step>, ok: bool)
    requires Run(steps).writer.Waiting? && Run(steps).outbound != []
    ensures var s, t := Run(steps), Run(steps + [Pop] + [Route] + [Write(ok)]);
            t.writer.Waiting? && t.outbound == s.outbound[1..] && t.active == s.active &&
            match s.active
            case None => t.wires == s.wires && t.results == s.results + [NoClient]
            case Some(c) =>
              c == |s.wires| - 1 && t.results == s.results + [if ok then Wrote(c) else WriteFailed(c)] &&
              t.wires == if ok then s.wires[..c] + [s.wires[c] + [s.outbound[0]]] else s.wires
  {
    RunKeeps(steps);
    hide Run, Wired, Fifo, Ordered;
    OneStep(steps, Pop);
    OneStep(steps + [Pop], Route);
    OneStep(steps + [Pop] + [Route], Write(ok));
  }

  /** With nothing in the queue the writer waits on, and leaves once a stop is set. */
  lemma EmptyQueue(steps: seq<Step>)
    requires Run(steps).writer.Waiting? && Run(steps).outbound == []
    ensures var s := Run(steps);
            Run(steps + [Pop]) == if s.stop then s.(writer := Exited, atExit := |s.pushed|) else s
  {
    hide Run;
    OneStep(steps, Pop);
  }

  /** A client that connects is the one looked up from then on, with nothing on its wire yet; after a disconnect there is
      none. */
  lemma ClientChanges(steps: seq<Step>)
    ensures var s, t := Run(steps), Run(steps + [Connect]);
            t == s.(active := Some(|s.wires|), wires := s.wires + [[]])
    ensures Run(steps + [Disconnect]) == Run(steps).(active := None)
    ensures Run(steps + [Stop]) == Run(steps).(stop := true)
  {
    hide Run, Next;
    OneStep(steps, Connect);
    OneStep(steps, Disconnect);
    OneStep(steps, Stop);
    ClientSteps(Run(steps));
  }

  lemma ClientSteps(s: State)
    ensures Next(s, Connect) == s.(active := Some(|s.wires|), wires := s.wires + [[]])
    ensures Next(s, Disconnect) == s.(active := None) && Next(s, Stop) == s.(stop := true)
  {
  }
}
