/** Delayed rendering on Windows: ANNOUNCE_DELAYED, DATA_REQUEST and PROVIDE_DATA keyed by a content hash. Renders run on
    the STA thread alone and nest inside the message loop of a render that waits. A step is what happens between two
    acquisitions of render_mu_. */
module RenderProtocol {
  import opened Bytes

  type Hash = seq<byte>

  datatype Kind = Unspecified | Text | Image | Files

  const CF_DIB: nat := 8
  const CF_UNICODETEXT: nat := 13
  const CF_DIBV5: nat := 17

  function KindOf(format: nat): Kind {
    if format == CF_UNICODETEXT then Text
    else if format == CF_DIBV5 || format == CF_DIB then Image
    else Unspecified
  }

  /** Where a render stands: it sends its request, waits for event or message, dispatches messages, or has seen the
      event. */
  datatype Phase = Sending | Waiting | Pumping | Woken

  /** A render in progress: the hash and kind it snapshotted when it began. */
  datatype Render = Render(id: nat, hash: Hash, kind: Kind, phase: Phase)

  datatype Entry =
    | Announced(hash: Hash, kind: Kind)
    | Accepted(hash: Hash, data: seq<byte>)                          // a PROVIDE_DATA that was kept
    | Began(id: nat, hash: Hash, kind: Kind, cacheOnly: bool)
    | Requested(id: nat, hash: Hash, kind: Kind)                     // a DATA_REQUEST sent to the parent
    | Served(id: nat, hash: Hash, kind: Kind, data: seq<byte>)       // the decision, under the lock
    | Filled(id: nat, hash: Hash, kind: Kind, data: seq<byte>)       // the bytes put in a format slot, after it

  /** What a render has decided to put in its slot. */
  datatype Response = Response(id: nat, hash: Hash, kind: Kind, data: seq<byte>)

  datatype State = State(
    pendingHash: Hash,
    pendingKind: Kind,
    pendingResponse: seq<byte>,
    cachedResponse: seq<byte>,
    cachedValid: bool,
    eventSet: bool,                // the manual-reset event
    stack: seq<Render>,            // the renders in progress on the STA thread, the innermost last
    filling: Option<Response>,     // the response between its decision and its slot, on the STA thread
    log: seq<Entry>)

  const INITIAL := State([], Unspecified, [], [], false, false, [], None, [])

  // ------------------------------------------------------------- the steps

  function Log(s: State, e: Entry): State {
    s.(log := s.log + [e])
  }

  function AfterAnnounce(s: State, hash: Hash, kind: Kind): State {
    Log(s.(pendingHash := hash, pendingKind := kind, pendingResponse := [], cachedResponse := [], cachedValid := false,
           eventSet := false), Announced(hash, kind))
  }

  function AfterProvide(s: State, hash: Hash, data: seq<byte>): State {
    if s.pendingHash == [] || hash != s.pendingHash then s
    else Log(s.(pendingResponse := data, eventSet := true), Accepted(hash, data))
  }

  function AfterCancel(s: State): State {
    s.(eventSet := true)
  }

  /** Take the pending response into the cache and serve it. */
  function Adopt(s: State, id: nat, hash: Hash, kind: Kind): State {
    Log(s.(pendingResponse := [], cachedResponse := s.pendingResponse, cachedValid := true,
           filling := Some(Response(id, hash, kind, s.pendingResponse))),
        Served(id, hash, kind, s.pendingResponse))
  }

  function ServeCached(s: State, id: nat, hash: Hash, kind: Kind): State {
    Log(s.(filling := Some(Response(id, hash, kind, s.cachedResponse))), Served(id, hash, kind, s.cachedResponse))
  }

  /** OnRenderFormat up to the decision to ask the parent. */
  function AfterBegin(s: State, id: nat, format: nat, cacheOnly: bool): State {
    var kind := KindOf(format);
    if kind == Unspecified || s.pendingHash == [] || s.pendingKind != kind then s else
    var b := Log(s, Began(id, s.pendingHash, kind, cacheOnly));
    if s.cachedValid then ServeCached(b, id, s.pendingHash, kind)
    else if s.pendingResponse != [] then Adopt(b, id, s.pendingHash, kind)
    else if cacheOnly then b
    else b.(stack := b.stack + [Render(id, s.pendingHash, kind, Sending)])
  }

  function Top(s: State): Render
    requires s.stack != []
  {
    s.stack[|s.stack| - 1]
  }

  /** The innermost render returns to the message loop it was dispatched from. */
  function Drop(s: State): State
    requires s.stack != []
  {
    s.(stack := s.stack[..|s.stack| - 1])
  }

  function InPhase(s: State, phase: Phase): State
    requires s.stack != []
  {
    s.(stack := s.stack[..|s.stack| - 1] + [Top(s).(phase := phase)])
  }

  /** SendFrame of the DATA_REQUEST, which fails when no client is connected. */
  function AfterSend(s: State, ok: bool): State
    requires s.stack != []
  {
    if ok then Log(InPhase(s, Waiting), Requested(Top(s).id, Top(s).hash, Top(s).kind)) else Drop(s)
  }

  /** The check after the messages there were have been dispatched. */
  function AfterPump(s: State): State
    requires s.stack != []
  {
    var r := Top(s);
    if s.pendingHash != r.hash then Drop(s)
    else if s.cachedValid then ServeCached(Drop(s), r.id, r.hash, r.kind)
    else InPhase(s, Waiting)
  }

  /** The decision after the event was seen. */
  function AfterFinish(s: State): State
    requires s.stack != []
  {
    var r := Top(s);
    if s.pendingHash != r.hash then Drop(s)
    else if s.pendingResponse != [] then Adopt(Drop(s), r.id, r.hash, r.kind)
    else if s.cachedValid then ServeCached(Drop(s), r.id, r.hash, r.kind)
    else Drop(s)
  }

  /** The slot is filled after the lock was released. */
  function AfterFill(s: State): State
    requires s.filling.Some?
  {
    var f := s.filling.value;
    Log(s.(filling := None), Filled(f.id, f.hash, f.kind, f.data))
  }

  datatype Step =
    | Announce(hash: Hash, kind: Kind)
    | Provide(hash: Hash, data: seq<byte>)
    | CancelPending
    | Begin(id: nat, format: nat, cacheOnly: bool)
    | Send(ok: bool)
    | Peek          // the wait ends on a message
    | Pump          // all messages are dispatched
    | Wake          // the wait ends on the event
    | Finish
    | Fill
    | Abandon       // timeout, WM_QUIT or a failed wait

  predicate Fresh(s: State, id: nat) {
    forall e | e in s.log && e.Began? :: e.id != id
  }

  predicate At(s: State, phase: Phase) {
    s.stack != [] && Top(s).phase == phase
  }

  /** The STA thread dispatches messages: in its main loop, or in the loop of the innermost render. */
  predicate Dispatching(s: State) {
    s.stack == [] || Top(s).phase == Pumping
  }

  /** The pipe thread may always act. On the STA thread only the innermost render moves, a new one can only begin where
      messages are dispatched, and a response fills its slot before anything else happens. */
  predicate Enabled(s: State, step: Step) {
    match step
    case Announce(_, _) => true
    case Provide(_, _) => true
    case CancelPending => true
    case Begin(id, _, _) => s.filling == None && Dispatching(s) && Fresh(s, id)
    case Send(_) => At(s, Sending)
    case Peek => At(s, Waiting)
    case Pump => s.filling == None && At(s, Pumping)
    case Wake => At(s, Waiting) && s.eventSet
    case Finish => At(s, Woken)
    case Fill => s.filling.Some?
    case Abandon => s.filling == None && (At(s, Waiting) || At(s, Pumping))
  }

  function Next(s: State, step: Step): State {
    if !Enabled(s, step) then s else
    match step
    case Announce(h, k) => AfterAnnounce(s, h, k)
    case Provide(h, d) => AfterProvide(s, h, d)
    case CancelPending => AfterCancel(s)
    case Begin(id, f, c) => AfterBegin(s, id, f, c)
    case Send(ok) => AfterSend(s, ok)
    case Peek => InPhase(s, Pumping)
    case Pump => AfterPump(s)
    case Wake => InPhase(s, Woken)
    case Finish => AfterFinish(s)
    case Fill => AfterFill(s)
    case Abandon => Drop(s)
  }

  function Run(steps: seq<Step>): State {
    if steps == [] then INITIAL else Next(Run(steps[..|steps| - 1]), steps[|steps| - 1])
  }

  // --------------------------------------------------------- the dispatcher

  class Dispatcher {
    var pendingHash: Hash
    var pendingKind: Kind
    var pendingResponse: seq<byte>
    var cachedResponse: seq<byte>
    var cachedValid: bool
    var renderEvent: bool
    var stack: seq<Render>
    var filling: Option<Response>
    ghost var log: seq<Entry>

    ghost function Now(): State
      reads this
    {
      State(pendingHash, pendingKind, pendingResponse, cachedResponse, cachedValid, renderEvent, stack, filling, log)
    }

    constructor ()
      ensures Now() == INITIAL
    {
      pendingHash, pendingKind, pendingResponse := [], Unspecified, [];
      cachedResponse, cachedValid, renderEvent := [], false, false;
      stack, filling, log := [], None, [];
    }

    /** The locked part of HandleAnnounceDelayed. */
    method HandleAnnounceDelayed(hash: Hash, kind: Kind)
      modifies this
      ensures Now() == AfterAnnounce(old(Now()), hash, kind)
    {
      pendingHash := hash;
      pendingKind := kind;
      pendingResponse := [];
      cachedResponse := [];
      cachedValid := false;
      renderEvent := false;
      log := log + [Announced(hash, kind)];
    }

    method HandleProvideData(hash: Hash, data: seq<byte>)
      modifies this
      ensures Now() == AfterProvide(old(Now()), hash, data)
    {
      if pendingHash == [] { return; }
      if hash != pendingHash { return; }
      pendingResponse := data;
      renderEvent := true;
      log := log + [Accepted(hash, data)];
    }

    method CancelPendingRender()
      modifies this
      ensures Now() == AfterCancel(old(Now()))
    {
      renderEvent := true;
    }

    method OnRenderFormat(id: nat, format: nat, cacheOnly: bool) returns (response: Option<seq<byte>>)
      modifies this
      ensures Now() == AfterBegin(old(Now()), id, format, cacheOnly)
      ensures response.Some? ==> Now().log != [] && Now().log[|Now().log| - 1].Served? &&
                                 Now().log[|Now().log| - 1].data == response.value
    {
      response := None;
      var requested := KindOf(format);
      if requested == Unspecified { return; }
      var hash := pendingHash;
      if hash == [] { return; }
      if pendingKind != requested { return; }
      log := log + [Began(id, hash, requested, cacheOnly)];
      if cachedValid {
        response := Some(cachedResponse);
      } else if pendingResponse != [] {
        response := Some(pendingResponse);
        pendingResponse := [];
        cachedResponse := response.value;
        cachedValid := true;
      }
      if response.Some? {
        filling := Some(Response(id, hash, requested, response.value));
        log := log + [Served(id, hash, requested, response.value)];
        return;
      }
      if cacheOnly { return; }
      stack := stack + [Render(id, hash, requested, Sending)];
    }

    method SendDataRequest(sent: bool)
      requires stack != []
      modifies this
      ensures Now() == AfterSend(old(Now()), sent)
    {
      var r := stack[|stack| - 1];
      stack := stack[..|stack| - 1];
      if !sent { return; }
      stack := stack + [r.(phase := Waiting)];
      log := log + [Requested(r.id, r.hash, r.kind)];
    }

    method CheckAfterPump()
      requires stack != []
      modifies this
      ensures Now() == AfterPump(old(Now()))
    {
      var r := stack[|stack| - 1];
      stack := stack[..|stack| - 1];
      if pendingHash != r.hash { return; }
      if cachedValid {
        filling := Some(Response(r.id, r.hash, r.kind, cachedResponse));
        log := log + [Served(r.id, r.hash, r.kind, cachedResponse)];
        return;
      }
      stack := stack + [r.(phase := Waiting)];
    }

    method FinishAfterWake()
      requires stack != []
      modifies this
      ensures Now() == AfterFinish(old(Now()))
    {
      var r := stack[|stack| - 1];
      stack := stack[..|stack| - 1];
      if pendingHash != r.hash { return; }
      var response;
      if pendingResponse != [] {
        response := pendingResponse;
        pendingResponse := [];
        cachedResponse := response;
        cachedValid := true;
      } else if cachedValid {
        response := cachedResponse;
      } else {
        return;
      }
      filling := Some(Response(r.id, r.hash, r.kind, response));
      log := log + [Served(r.id, r.hash, r.kind, response)];
    }

    /** RenderTextDuringWmRenderFormat and RenderImageDuringWmRenderFormat. */
    method FillSlot()
      requires filling.Some?
      modifies this
      ensures Now() == AfterFill(old(Now()))
    {
      var f := filling.value;
      filling := None;
      log := log + [Filled(f.id, f.hash, f.kind, f.data)];
    }
  }

  // ------------------------------------------------------------ the history

  /** What happened since the last announcement. */
  function Epoch(log: seq<Entry>): seq<Entry> {
    if log == [] then [] else
    var e := log[|log| - 1];
    if e.Announced? then [] else Epoch(log[..|log| - 1]) + [e]
  }

  /** The hash announced last. */
  function CurrentHash(log: seq<Entry>): Hash {
    if log == [] then [] else
    var e := log[|log| - 1];
    if e.Announced? then e.hash else CurrentHash(log[..|log| - 1])
  }

  function CurrentKind(log: seq<Entry>): Kind {
    if log == [] then Unspecified else
    var e := log[|log| - 1];
    if e.Announced? then e.kind else CurrentKind(log[..|log| - 1])
  }

  /** The data accepted last since the last announcement. */
  function LastAccepted(log: seq<Entry>): seq<byte> {
    if log == [] then [] else
    var e := log[|log| - 1];
    if e.Announced? then [] else if e.Accepted? then e.data else LastAccepted(log[..|log| - 1])
  }

  /** The data decided on last since the last announcement. */
  function LastServed(log: seq<Entry>): seq<byte> {
    if log == [] then [] else
    var e := log[|log| - 1];
    if e.Announced? then [] else if e.Served? then e.data else LastServed(log[..|log| - 1])
  }

  predicate AnyServed(log: seq<Entry>) {
    exists e :: e in log && e.Served?
  }

  /** Whatever was decided on carries this data. */
  ghost predicate OnlyServed(log: seq<Entry>, data: seq<byte>) {
    forall e | e in log && e.Served? :: e.data == data
  }

  predicate AnyAccepted(log: seq<Entry>) {
    exists e :: e in log && e.Accepted?
  }

  /** What an entry says about the entries before it. */
  ghost predicate Justified(before: seq<Entry>, e: Entry) {
    match e
    case Served(id, h, k, d) =>
      && d != [] && Accepted(h, d) in Epoch(before) && CurrentHash(before) == h && OnlyServed(Epoch(before), d)
      && (exists c :: Began(id, h, k, c) in before)
    case Requested(id, h, k) => Began(id, h, k, false) in before && !AnyServed(Epoch(before))
    case Accepted(h, _) => h != [] && h == CurrentHash(before)
    case Began(_, h, k, _) => h == CurrentHash(before) && k == CurrentKind(before)
    case Filled(id, h, k, d) => Served(id, h, k, d) in before
    case Announced(_, _) => true
  }

  ghost predicate Lawful(log: seq<Entry>) {
    log == [] || (Lawful(log[..|log| - 1]) && Justified(log[..|log| - 1], log[|log| - 1]))
  }

  lemma {:induction false} LawfulAt(log: seq<Entry>, i: nat)
    requires Lawful(log) && i < |log|
    ensures Justified(log[..i], log[i])
    decreases |log|
  {
    if i < |log| - 1 {
      LawfulAt(log[..|log| - 1], i);
      assert log[..|log| - 1][..i] == log[..i];
    }
  }

  /** The cache holds what was decided on, the pending response what was accepted last, unless that was adopted; and once
      anything was accepted the event stays set. */
  ghost predicate Cached(s: State) {
    && (s.cachedValid <==> AnyServed(Epoch(s.log)))
    && (s.cachedValid ==> s.cachedResponse == LastServed(s.log) && OnlyServed(Epoch(s.log), s.cachedResponse))
    && (s.pendingResponse != [] ==> s.pendingResponse == LastAccepted(s.log))
    && (s.pendingResponse == [] && LastAccepted(s.log) != [] ==>
          s.cachedValid && s.cachedResponse == LastAccepted(s.log))
    && (AnyAccepted(Epoch(s.log)) ==> s.eventSet)
  }

  /** Outer renders dispatch messages, and nobody but a dispatching render has a valid cache or a slot to be filled in
      front of it. */
  ghost predicate Nested(s: State) {
    && (forall i | 0 <= i < |s.stack| - 1 :: s.stack[i].phase == Pumping)
    && (s.cachedValid || s.filling.Some? ==> Dispatching(s))
  }

  ghost predicate Inv(s: State) {
    && Lawful(s.log)
    && s.pendingHash == CurrentHash(s.log) && s.pendingKind == CurrentKind(s.log)
    && (s.pendingResponse != [] ==> Accepted(s.pendingHash, s.pendingResponse) in Epoch(s.log))
    && (s.cachedValid ==> s.cachedResponse != [] && Accepted(s.pendingHash, s.cachedResponse) in Epoch(s.log))
    && Cached(s)
    && Nested(s)
    && (forall i | 0 <= i < |s.stack| :: Began(s.stack[i].id, s.stack[i].hash, s.stack[i].kind, false) in s.log)
    && (s.filling.Some? ==> var f := s.filling.value; Served(f.id, f.hash, f.kind, f.data) in s.log)
  }

  lemma Appended(log: seq<Entry>, e: Entry)
    ensures (log + [e])[..|log|] == log
    ensures Epoch(log + [e]) == if e.Announced? then [] else Epoch(log) + [e]
    ensures CurrentHash(log + [e]) == if e.Announced? then e.hash else CurrentHash(log)
    ensures CurrentKind(log + [e]) == if e.Announced? then e.kind else CurrentKind(log)
    ensures forall x :: x in log + [e] <==> x in log || x == e
    ensures LastAccepted(log + [e]) ==
            if e.Announced? then [] else if e.Accepted? then e.data else LastAccepted(log)
    ensures Lawful(log + [e]) <==> Lawful(log) && Justified(log, e)
    ensures LastServed(log + [e]) == if e.Announced? then [] else if e.Served? then e.data else LastServed(log)
    ensures AnyServed(Epoch(log + [e])) <==> !e.Announced? && (e.Served? || AnyServed(Epoch(log)))
    ensures AnyAccepted(Epoch(log + [e])) <==> !e.Announced? && (e.Accepted? || AnyAccepted(Epoch(log)))
    ensures forall d :: OnlyServed(Epoch(log + [e]), d) <==>
                        e.Announced? || (OnlyServed(Epoch(log), d) && (e.Served? ==> e.data == d))
    ensures !AnyServed(Epoch(log)) ==> forall d :: OnlyServed(Epoch(log), d)
  {
    hide Lawful, CurrentHash, CurrentKind, LastAccepted, LastServed;
    Unfolded(log, e);
    if !e.Announced? {
      assert e in Epoch(log + [e]);
      assert forall x :: x in Epoch(log + [e]) <==> x in Epoch(log) || x == e;
    }
  }

  lemma Unfolded(log: seq<Entry>, e: Entry)
    ensures (log + [e])[..|log|] == log
    ensures Epoch(log + [e]) == if e.Announced? then [] else Epoch(log) + [e]
    ensures CurrentHash(log + [e]) == if e.Announced? then e.hash else CurrentHash(log)
    ensures CurrentKind(log + [e]) == if e.Announced? then e.kind else CurrentKind(log)
    ensures LastAccepted(log + [e]) ==
            if e.Announced? then [] else if e.Accepted? then e.data else LastAccepted(log)
    ensures LastServed(log + [e]) == if e.Announced? then [] else if e.Served? then e.data else LastServed(log)
    ensures Lawful(log + [e]) <==> Lawful(log) && Justified(log, e)
  {
    assert (log + [e])[..|log|] == log;
  }

  lemma KeepAnnounce(s: State, hash: Hash, kind: Kind)
    requires Inv(s)
    ensures Inv(AfterAnnounce(s, hash, kind))
  {
    hide Lawful, Epoch, CurrentHash, CurrentKind, LastAccepted, LastServed, AnyServed, AnyAccepted, OnlyServed;
    Appended(s.log, Announced(hash, kind));
  }

  lemma KeepProvide(s: State, hash: Hash, data: seq<byte>)
    requires Inv(s)
    ensures Inv(AfterProvide(s, hash, data))
  {
    hide Lawful, Epoch, CurrentHash, CurrentKind, LastAccepted, LastServed, AnyServed, AnyAccepted, OnlyServed;
    Appended(s.log, Accepted(hash, data));
  }

  lemma KeepServeCached(s: State, id: nat, hash: Hash, kind: Kind)
    requires Inv(s) && s.cachedValid && hash == s.pendingHash
    requires exists c :: Began(id, hash, kind, c) in s.log
    ensures Inv(ServeCached(s, id, hash, kind))
  {
    hide Lawful, Epoch, CurrentHash, CurrentKind, LastAccepted, LastServed, AnyServed, AnyAccepted, OnlyServed;
    Appended(s.log, Served(id, hash, kind, s.cachedResponse));
  }

  /** Only the first render since the announcement adopts anything. */
  lemma KeepAdopt(s: State, id: nat, hash: Hash, kind: Kind)
    requires Inv(s) && s.pendingResponse != [] && hash == s.pendingHash && !s.cachedValid && Dispatching(s)
    requires exists c :: Began(id, hash, kind, c) in s.log
    ensures Inv(Adopt(s, id, hash, kind))
  {
    hide Lawful, Epoch, CurrentHash, CurrentKind, LastAccepted, LastServed, AnyServed, AnyAccepted, OnlyServed;
    Appended(s.log, Served(id, hash, kind, s.pendingResponse));
  }

  lemma KeepBegan(s: State, id: nat, kind: Kind, cacheOnly: bool)
    requires Inv(s) && s.pendingKind == kind
    ensures var e := Began(id, s.pendingHash, kind, cacheOnly); Inv(Log(s, e)) && e in Log(s, e).log
  {
    hide Lawful, Epoch, CurrentHash, CurrentKind, LastAccepted, LastServed, AnyServed, AnyAccepted, OnlyServed;
    Appended(s.log, Began(id, s.pendingHash, kind, cacheOnly));
  }

  /** A render that has to ask is the innermost one now. */
  lemma KeepAsking(s: State, id: nat, kind: Kind)
    requires Inv(s) && s.filling == None && Dispatching(s) && !s.cachedValid
    requires Began(id, s.pendingHash, kind, false) in s.log
    ensures Inv(s.(stack := s.stack + [Render(id, s.pendingHash, kind, Sending)]))
  {
    hide Lawful, Epoch, CurrentHash, CurrentKind, LastAccepted, LastServed, AnyServed, AnyAccepted, OnlyServed;
  }

  lemma KeepBegin(s: State, id: nat, format: nat, cacheOnly: bool)
    requires Inv(s) && s.filling == None && Dispatching(s)
    ensures Inv(AfterBegin(s, id, format, cacheOnly))
  {
    var kind := KindOf(format);
    if kind == Unspecified || s.pendingHash == [] || s.pendingKind != kind { return; }
    hide Inv, ServeCached, Adopt;
    KeepBegan(s, id, kind, cacheOnly);
    var b := Log(s, Began(id, s.pendingHash, kind, cacheOnly));
    if s.cachedValid {
      KeepServeCached(b, id, s.pendingHash, kind);
    } else if s.pendingResponse != [] {
      KeepAdopt(b, id, s.pendingHash, kind);
    } else if !cacheOnly {
      KeepAsking(b, id, kind);
    }
  }

  lemma KeepFill(s: State)
    requires Inv(s) && s.filling.Some?
    ensures Inv(AfterFill(s))
  {
    hide Lawful, Epoch, CurrentHash, CurrentKind, LastAccepted, LastServed, AnyServed, AnyAccepted, OnlyServed;
    var f := s.filling.value;
    Appended(s.log, Filled(f.id, f.hash, f.kind, f.data));
  }

  lemma KeepDrop(s: State)
    requires Inv(s) && s.stack != []
    ensures Inv(Drop(s)) && Dispatching(Drop(s))
  {
    hide Lawful, Epoch, CurrentHash, CurrentKind, LastAccepted, LastServed, AnyServed, AnyAccepted, OnlyServed;
  }

  lemma KeepPhase(s: State, phase: Phase)
    requires Inv(s) && s.stack != [] && (phase == Pumping || (!s.cachedValid && s.filling == None))
    ensures Inv(InPhase(s, phase))
  {
    hide Lawful, Epoch, CurrentHash, CurrentKind, LastAccepted, LastServed, AnyServed, AnyAccepted, OnlyServed;
  }

  lemma KeepSend(s: State, ok: bool)
    requires Inv(s) && At(s, Sending)
    ensures Inv(AfterSend(s, ok))
  {
    hide Lawful, Epoch, CurrentHash, CurrentKind, LastAccepted, LastServed, AnyServed, AnyAccepted, OnlyServed;
    KeepDrop(s);
    KeepPhase(s, Waiting);
    Appended(s.log, Requested(Top(s).id, Top(s).hash, Top(s).kind));
  }

  lemma KeepPump(s: State)
    requires Inv(s) && At(s, Pumping) && s.filling == None
    ensures Inv(AfterPump(s))
  {
    hide Lawful, Epoch, CurrentHash, CurrentKind, LastAccepted, LastServed, AnyServed, AnyAccepted, OnlyServed, ServeCached;
    var r := Top(s);
    assert Began(r.id, r.hash, r.kind, false) in s.log;
    KeepDrop(s);
    if s.pendingHash == r.hash {
      if s.cachedValid {
        KeepServeCached(Drop(s), r.id, r.hash, r.kind);
      } else {
        KeepPhase(s, Waiting);
      }
    }
  }

  lemma KeepFinish(s: State)
    requires Inv(s) && At(s, Woken)
    ensures Inv(AfterFinish(s))
  {
    hide Lawful, Epoch, CurrentHash, CurrentKind, LastAccepted, LastServed, AnyServed, AnyAccepted, OnlyServed, Adopt;
    var r := Top(s);
    assert Began(r.id, r.hash, r.kind, false) in s.log;
    KeepDrop(s);
    if s.pendingHash == r.hash && s.pendingResponse != [] {
      KeepAdopt(Drop(s), r.id, r.hash, r.kind);
    }
  }

  lemma KeepStep(s: State, step: Step)
    requires Inv(s)
    ensures Inv(Next(s, step))
  {
    if Enabled(s, step) {
      hide Lawful, Epoch, CurrentHash, CurrentKind, LastAccepted, LastServed, AnyServed, AnyAccepted, OnlyServed;
      match step {
        case Announce(h, k) => KeepAnnounce(s, h, k);
        case Provide(h, d) => KeepProvide(s, h, d);
        case CancelPending =>
        case Begin(id, f, c) => KeepBegin(s, id, f, c);
        case Send(ok) => KeepSend(s, ok);
        case Peek => KeepPhase(s, Pumping);
        case Pump => KeepPump(s);
        case Wake => KeepPhase(s, Woken);
        case Finish => KeepFinish(s);
        case Fill => KeepFill(s);
        case Abandon => KeepDrop(s);
      }
    }
  }

  lemma {:induction false} RunKeeps(steps: seq<Step>)
    ensures Inv(Run(steps))
    decreases |steps|
  {
    if steps != [] {
      hide Inv, Next;
      RunKeeps(steps[..|steps| - 1]);
      KeepStep(Run(steps[..|steps| - 1]), steps[|steps| - 1]);
    }
  }

  // ------------------------------------------------------- the main results

  /** In every run, the bytes a render decides to show are the non-empty data of a PROVIDE_DATA accepted since the last
      announcement, whose hash is the one that render snapshotted, even if other announcements came in between. */
  lemma ServedIsAnnounced(steps: seq<Step>, i: nat)
    requires i < |Run(steps).log| && Run(steps).log[i].Served?
    ensures var log := Run(steps).log; var e := log[i];
            && e.data != [] && Accepted(e.hash, e.data) in Epoch(log[..i]) && CurrentHash(log[..i]) == e.hash
            && (exists c :: Began(e.id, e.hash, e.kind, c) in log[..i])
  {
    RunKeeps(steps);
    LawfulAt(Run(steps).log, i);
  }

  lemma {:induction false} InEpoch(log: seq<Entry>, i: nat)
    requires i < |log| && forall k | i <= k < |log| :: !log[k].Announced?
    ensures log[i] in Epoch(log)
    decreases |log|
  {
    if i < |log| - 1 {
      InEpoch(log[..|log| - 1], i);
    }
  }

  /** Whatever the parent answers, and however renders nest: all renders served between two announcements are served the
      same bytes. */
  lemma RendersAgree(steps: seq<Step>, i: nat, j: nat)
    requires i < j < |Run(steps).log| && Run(steps).log[i].Served? && Run(steps).log[j].Served?
    requires forall k | i <= k < j :: !Run(steps).log[k].Announced?
    ensures Run(steps).log[i].data == Run(steps).log[j].data && Run(steps).log[i].hash == Run(steps).log[j].hash
  {
    var log := Run(steps).log;
    RunKeeps(steps);
    LawfulAt(log, j);
    LawfulAt(log, i);
    hide Run, Lawful, CurrentHash;
    InEpoch(log[..j], i);
    assert log[..j][i] == log[i];
    SameHash(log, i, j);
  }

  lemma {:induction false} SameHash(log: seq<Entry>, i: nat, j: nat)
    requires i <= j <= |log| && forall k | i <= k < j :: !log[k].Announced?
    ensures CurrentHash(log[..i]) == CurrentHash(log[..j])
    decreases j
  {
    if i < j {
      SameHash(log, i, j - 1);
      assert log[..j][..j - 1] == log[..j - 1];
    }
  }

  /** What fills a slot is what its render decided on, at a moment before when that data had been accepted for the hash
      then announced. Another announcement may have come since: the lock is released in between. */
  lemma FilledIsServed(steps: seq<Step>, i: nat) returns (j: nat)
    requires i < |Run(steps).log| && Run(steps).log[i].Filled?
    ensures var log := Run(steps).log; var e := log[i];
            && j < i && log[j] == Served(e.id, e.hash, e.kind, e.data)
            && Accepted(e.hash, e.data) in Epoch(log[..j]) && CurrentHash(log[..j]) == e.hash
  {
    var log := Run(steps).log;
    var e := log[i];
    RunKeeps(steps);
    LawfulAt(log, i);
    j :| 0 <= j < i && log[..i][j] == Served(e.id, e.hash, e.kind, e.data);
    ServedIsAnnounced(steps, j);
  }

  /** Once a render was served, no DATA_REQUEST goes out before the next announcement; a cache-only render never sends
      one. */
  lemma NoRequestOnceServed(steps: seq<Step>, i: nat)
    requires i < |Run(steps).log| && Run(steps).log[i].Requested?
    ensures var log := Run(steps).log; var e := log[i];
            !AnyServed(Epoch(log[..i])) && Began(e.id, e.hash, e.kind, false) in log[..i]
  {
    RunKeeps(steps);
    LawfulAt(Run(steps).log, i);
  }

  function ServedAs(r: Render, verdict: Option<seq<byte>>): seq<Entry> {
    if verdict == None then [] else [Served(r.id, r.hash, r.kind, verdict.value)]
  }

  /** What a woken render of `hash` is to be served: the data accepted last, if its hash is still announced and that data
      is not empty. */
  function Verdict(log: seq<Entry>, hash: Hash): Option<seq<byte>> {
    if CurrentHash(log) == hash && LastAccepted(log) != [] then Some(LastAccepted(log)) else None
  }

  /** In every run, a woken render is served exactly its verdict, with that data, and it is the first to be served since
      the announcement. */
  lemma FinishServes(steps: seq<Step>)
    requires Enabled(Run(steps), Finish)
    ensures var s := Run(steps); var t := Next(s, Finish);
            && t.log == s.log + ServedAs(Top(s), Verdict(s.log, Top(s).hash)) && t.stack == s.stack[..|s.stack| - 1]
            && !AnyServed(Epoch(s.log))
  {
    RunKeeps(steps);
    hide Lawful, Epoch, CurrentHash, LastAccepted, LastServed, AnyServed, AnyAccepted, OnlyServed, Run;
    var s := Run(steps);
    assert s.log + [] == s.log;
  }

  /** The kind that goes with a clipboard format, by number: 13 is CF_UNICODETEXT, 8 CF_DIB, 17 CF_DIBV5. */
  ghost predicate Renders(format: nat, kind: Kind) {
    (format == 13 && kind == Text) || ((format == 8 || format == 17) && kind == Image)
  }

  /** What a new render of `hash` is to be served at once: what has been decided on since the announcement, else the data
      accepted last. */
  function FirstVerdict(log: seq<Entry>): Option<seq<byte>> {
    if AnyServed(Epoch(log)) then Some(LastServed(log))
    else if LastAccepted(log) != [] then Some(LastAccepted(log))
    else None
  }

  /** In every run: a render of a format that goes with the announced kind is served that; without it, it asks the parent
      and waits, or, with cacheOnly, does nothing. A render of any other format does nothing at all. */
  lemma BeginServes(steps: seq<Step>, id: nat, format: nat, cacheOnly: bool)
    requires Enabled(Run(steps), Begin(id, format, cacheOnly))
    ensures var s := Run(steps); var t := Next(s, Begin(id, format, cacheOnly));
            var h, k, verdict := CurrentHash(s.log), CurrentKind(s.log), FirstVerdict(s.log);
            if h == [] || !Renders(format, k) then t == s else
            var began := s.log + [Began(id, h, k, cacheOnly)];
            if verdict.Some? then
              t.log == began + [Served(id, h, k, verdict.value)] && t.stack == s.stack &&
              t.filling == Some(Response(id, h, k, verdict.value))
            else if cacheOnly then t == s.(log := began)
            else t == s.(log := began, stack := s.stack + [Render(id, h, k, Sending)])
  {
    RunKeeps(steps);
    hide Lawful, Epoch, CurrentHash, CurrentKind, LastAccepted, LastServed, AnyServed, AnyAccepted, OnlyServed, Run, Fresh;
  }

  /** The request then names the hash and the kind, and the render waits; when it cannot be sent the render gives up. */
  lemma SendAsks(s: State, ok: bool)
    requires At(s, Sending)
    ensures var t, r := Next(s, Send(ok)), Top(s);
            if ok then t.log == s.log + [Requested(r.id, r.hash, r.kind)] &&
                       t.stack == s.stack[..|s.stack| - 1] + [Render(r.id, r.hash, r.kind, Waiting)]
            else t == s.(stack := s.stack[..|s.stack| - 1])
  {
  }

  /** A wait ends on a message, on the event when it is set, or by giving up, which decides nothing. */
  lemma WaitMoves(s: State)
    requires At(s, Waiting)
    ensures var r, outer := Top(s), s.stack[..|s.stack| - 1];
            Next(s, Peek) == s.(stack := outer + [Render(r.id, r.hash, r.kind, Pumping)]) &&
            Next(s, Wake) == (if s.eventSet then s.(stack := outer + [Render(r.id, r.hash, r.kind, Woken)]) else s) &&
            (s.filling == None ==> Next(s, Abandon) == s.(stack := outer))
  {
  }

  /** What a render is to be served after dispatching messages: what has been decided on since the announcement, if its
      hash is still announced. */
  function PumpVerdict(log: seq<Entry>, hash: Hash): Option<seq<byte>> {
    if CurrentHash(log) == hash && AnyServed(Epoch(log)) then Some(LastServed(log)) else None
  }

  /** In every run, a render that has dispatched messages is served exactly that; otherwise it gives up when its hash is
      no longer announced, and waits again when it is. */
  lemma PumpServes(steps: seq<Step>)
    requires Enabled(Run(steps), Pump)
    ensures var s := Run(steps); var t := Next(s, Pump); var verdict := PumpVerdict(s.log, Top(s).hash);
            && t.log == s.log + ServedAs(Top(s), verdict)
            && (if verdict == None && CurrentHash(s.log) == Top(s).hash then t == InPhase(s, Waiting)
                else t.stack == s.stack[..|s.stack| - 1])
  {
    RunKeeps(steps);
    hide Lawful, Epoch, CurrentHash, LastAccepted, LastServed, AnyServed, AnyAccepted, OnlyServed, Run;
    var s := Run(steps);
    assert s.log + [] == s.log;
  }

  /** What filling and checking add for the renders in progress, from the innermost out. */
  function Unwound(stack: seq<Render>, hash: Hash, data: seq<byte>): seq<Entry> {
    if stack == [] then [] else
    var r := stack[|stack| - 1];
    (if r.hash == hash then [Served(r.id, r.hash, r.kind, data), Filled(r.id, r.hash, r.kind, data)] else []) +
    Unwound(stack[..|stack| - 1], hash, data)
  }

  function Unwinding(n: nat): seq<Step> {
    if n == 0 then [] else [Pump, Fill] + Unwinding(n - 1)
  }

  lemma NothingMore(steps: seq<Step>)
    ensures steps + [] == steps && Run([]) == INITIAL
  {
  }

  lemma UnwindingMore(steps: seq<Step>, n: nat)
    ensures steps + Unwinding(0) == steps
    ensures steps + [Pump] + [Fill] + Unwinding(n) == steps + Unwinding(n + 1)
  {
    assert steps + [Pump] + [Fill] == steps + [Pump, Fill];
  }

  /** No outer render is left behind: once a render was served, each render of the same hash around it is served the same
      bytes as the stack unwinds, and fills its slot with them. */
  lemma {:induction false} OuterRendersServed(steps: seq<Step>)
    requires var s := Run(steps); s.filling == None && AnyServed(Epoch(s.log))
    ensures var s := Run(steps); var t := Run(steps + Unwinding(|s.stack|));
            t.stack == [] && t.log == s.log + Unwound(s.stack, CurrentHash(s.log), LastServed(s.log))
    decreases |Run(steps).stack|
  {
    hide Run, Next, Epoch, CurrentHash, LastServed, AnyServed, Unwound, Unwinding;
    var s := Run(steps);
    if s.stack == [] {
      NothingToUnwind(steps);
    } else {
      var n := |s.stack| - 1;
      UnwindOne(steps);
      var more := steps + [Pump] + [Fill];
      RunSnoc(steps, Pump);
      RunSnoc(steps + [Pump], Fill);
      OuterRendersServed(more);
      UnwindingMore(steps, n);
      UnwoundMore(s.log, s.stack, CurrentHash(s.log), LastServed(s.log));
    }
  }

  lemma NothingToUnwind(steps: seq<Step>)
    requires Run(steps).stack == []
    ensures var s := Run(steps);
            Run(steps + Unwinding(|s.stack|)) == s &&
            s.log + Unwound(s.stack, CurrentHash(s.log), LastServed(s.log)) == s.log
  {
    hide Run, Next, CurrentHash, LastServed;
    UnwindingMore(steps, 0);
    assert Run(steps).log + [] == Run(steps).log;
  }

  lemma UnwoundMore(log: seq<Entry>, stack: seq<Render>, hash: Hash, data: seq<byte>)
    requires stack != []
    ensures var r := stack[|stack| - 1];
            log + (if r.hash == hash then [Served(r.id, r.hash, r.kind, data), Filled(r.id, r.hash, r.kind, data)] else []) +
            Unwound(stack[..|stack| - 1], hash, data) == log + Unwound(stack, hash, data)
  {
    var r := stack[|stack| - 1];
    var own := if r.hash == hash then [Served(r.id, r.hash, r.kind, data), Filled(r.id, r.hash, r.kind, data)] else [];
    var rest := Unwound(stack[..|stack| - 1], hash, data);
    assert Unwound(stack, hash, data) == own + rest;
    hide Unwound;
    assert log + own + rest == log + (own + rest);
  }

  lemma UnwindOne(steps: seq<Step>)
    requires var s := Run(steps); s.filling == None && AnyServed(Epoch(s.log)) && s.stack != []
    ensures var s := Run(steps); var t := Next(Next(s, Pump), Fill); var r := Top(s); var d := LastServed(s.log);
            && t.stack == s.stack[..|s.stack| - 1] && t.filling == None && AnyServed(Epoch(t.log))
            && CurrentHash(t.log) == CurrentHash(s.log) && LastServed(t.log) == d
            && t.log == s.log + if r.hash == CurrentHash(s.log)
                                then [Served(r.id, r.hash, r.kind, d), Filled(r.id, r.hash, r.kind, d)] else []
  {
    var s := Run(steps);
    var r := Top(s);
    RunKeeps(steps);
    assert s.cachedValid && s.pendingHash == CurrentHash(s.log) && s.cachedResponse == LastServed(s.log) && At(s, Pumping);
    ServedAndFilled(s.log, r.id, r.hash, r.kind, s.cachedResponse);
    hide Run, Inv, Epoch, CurrentHash, LastServed, AnyServed;
    UnwoundState(s);
  }

  lemma UnwoundState(s: State)
    requires s.filling == None && At(s, Pumping) && s.cachedValid
    ensures var t := Next(Next(s, Pump), Fill); var r := Top(s); var d := s.cachedResponse;
            && t.stack == s.stack[..|s.stack| - 1] && t.filling == None
            && t.log == s.log + if r.hash == s.pendingHash
                                then [Served(r.id, r.hash, r.kind, d), Filled(r.id, r.hash, r.kind, d)] else []
  {
    var r := Top(s);
    assert s.log + [] == s.log;
    assert s.log + [Served(r.id, r.hash, r.kind, s.cachedResponse)] + [Filled(r.id, r.hash, r.kind, s.cachedResponse)] ==
           s.log + [Served(r.id, r.hash, r.kind, s.cachedResponse), Filled(r.id, r.hash, r.kind, s.cachedResponse)];
  }

  lemma ServedAndFilled(log: seq<Entry>, id: nat, h: Hash, k: Kind, d: seq<byte>)
    ensures var more := log + [Served(id, h, k, d), Filled(id, h, k, d)];
            CurrentHash(more) == CurrentHash(log) && LastServed(more) == d && AnyServed(Epoch(more))
    ensures log + [] == log
  {
    hide Epoch, CurrentHash, CurrentKind, LastAccepted, LastServed, AnyServed, AnyAccepted, OnlyServed, Lawful;
    Appended(log, Served(id, h, k, d));
    Appended(log + [Served(id, h, k, d)], Filled(id, h, k, d));
    assert log + [Served(id, h, k, d)] + [Filled(id, h, k, d)] == log + [Served(id, h, k, d), Filled(id, h, k, d)];
  }

  /** A step of the pipe thread, which may come between a wake-up and the decision. */
  predicate OnPipe(step: Step) {
    step.Announce? || step.Provide? || step.CancelPending?
  }

  lemma {:induction false} StaysWoken(steps: seq<Step>, more: seq<Step>)
    requires At(Run(steps), Woken) && forall step | step in more :: OnPipe(step)
    ensures Run(steps + more).stack == Run(steps).stack
    decreases |more|
  {
    if more == [] {
      NothingMore(steps);
    } else {
      var n := |more| - 1;
      assert more[n] in more && forall step | step in more[..n] :: step in more;
      StaysWoken(steps, more[..n]);
      assert steps + more == (steps + more[..n]) + [more[n]];
      RunSnoc(steps + more[..n], more[n]);
    }
  }

  /** The pending render was cancelled after the last announcement. */
  predicate CancelledSince(steps: seq<Step>) {
    steps != [] &&
    var last := steps[|steps| - 1];
    last.CancelPending? || (!last.Announce? && CancelledSince(steps[..|steps| - 1]))
  }

  lemma QuietEntry(log: seq<Entry>, e: Entry)
    requires !e.Announced? && !e.Accepted?
    ensures AnyAccepted(Epoch(log + [e])) <==> AnyAccepted(Epoch(log))
  {
    Appended(log, e);
  }

  lemma BeginQuiet(s: State, id: nat, format: nat, cacheOnly: bool)
    ensures var t := AfterBegin(s, id, format, cacheOnly);
            t.eventSet == s.eventSet && (AnyAccepted(Epoch(t.log)) <==> AnyAccepted(Epoch(s.log)))
  {
    hide Epoch, AnyAccepted;
    var k, h := KindOf(format), s.pendingHash;
    var began := Began(id, h, k, cacheOnly);
    QuietEntry(s.log, began);
    QuietEntry(s.log + [began], Served(id, h, k, s.cachedResponse));
    QuietEntry(s.log + [began], Served(id, h, k, s.pendingResponse));
  }

  /** What the STA thread does to a render in progress. */
  lemma OtherQuiet(s: State, step: Step)
    requires !step.Announce? && !step.Provide? && !step.CancelPending? && !step.Begin?
    ensures var t := Next(s, step);
            t.eventSet == s.eventSet && (AnyAccepted(Epoch(t.log)) <==> AnyAccepted(Epoch(s.log)))
  {
    hide Epoch, AnyAccepted, Fresh;
    var log := Next(s, step).log;
    if log != s.log {
      assert log == s.log + [log[|s.log|]];
      QuietEntry(s.log, log[|s.log|]);
    }
  }

  /** What a step changes about the event and about what has been accepted. */
  lemma EventStep(s: State, step: Step)
    ensures var t := Next(s, step);
            match step
            case Announce(_, _) => !t.eventSet && !AnyAccepted(Epoch(t.log))
            case CancelPending => t.eventSet && t.log == s.log
            case Provide(h, d) =>
              t == s || (t.eventSet && AnyAccepted(Epoch(t.log)))
            case _ => t.eventSet == s.eventSet && (AnyAccepted(Epoch(t.log)) <==> AnyAccepted(Epoch(s.log)))
  {
    hide Epoch, AnyAccepted, Fresh;
    var t := Next(s, step);
    match step {
      case Announce(h, k) => Appended(s.log, Announced(h, k));
      case Provide(h, d) => Appended(s.log, Accepted(h, d));
      case CancelPending =>
      case Begin(id, f, c) => BeginQuiet(s, id, f, c);
      case _ => OtherQuiet(s, step);
    }
  }

  /** No render wakes for nothing: in every run the event is set exactly when something was accepted, or the render was
      cancelled, after the last announcement. */
  lemma {:induction false} WakesOnNews(steps: seq<Step>)
    ensures Run(steps).eventSet <==> AnyAccepted(Epoch(Run(steps).log)) || CancelledSince(steps)
    decreases |steps|
  {
    if steps != [] {
      var init, last := steps[..|steps| - 1], steps[|steps| - 1];
      WakesOnNews(init);
      EventStep(Run(init), last);
      hide Next, AnyAccepted, Epoch;
    }
  }

  /** No signal is lost: once anything was accepted for the announcement the innermost render, at its wait, can wake, and
      whatever the pipe thread does between its wake-up and its decision, it is then served exactly its verdict. */
  lemma AcceptedDataIsServed(steps: seq<Step>, more: seq<Step>)
    requires At(Run(steps), Waiting) && AnyAccepted(Epoch(Run(steps).log))
    requires forall step | step in more :: OnPipe(step)
    ensures Enabled(Run(steps), Wake) && Enabled(Run(steps + [Wake] + more), Finish)
    ensures var r := Top(Run(steps)); var m := Run(steps + [Wake] + more);
            Run(steps + [Wake] + more + [Finish]).log == m.log + ServedAs(r, Verdict(m.log, r.hash))
    ensures var s := Run(steps); var r := Top(s);
            more == [] && CurrentHash(s.log) == r.hash && LastAccepted(s.log) != [] ==>
              Run(steps + [Wake, Finish]).log == s.log + [Served(r.id, r.hash, r.kind, LastAccepted(s.log))]
  {
    RunKeeps(steps);
    hide Lawful, Epoch, CurrentHash, LastAccepted, LastServed, AnyServed, AnyAccepted, OnlyServed, Run;
    RunSnoc(steps, Wake);
    StaysWoken(steps + [Wake], more);
    var all := steps + [Wake] + more;
    RunSnoc(all, Finish);
    FinishServes(all);
    if more == [] {
      assert all + [Finish] == steps + [Wake, Finish] && all == steps + [Wake];
    }
  }

  lemma RunSnoc(steps: seq<Step>, step: Step)
    ensures Run(steps + [step]) == Next(Run(steps), step)
  {
    assert (steps + [step])[..|steps|] == steps;
  }

  lemma RunFour(steps: seq<Step>, a: Step, b: Step, c: Step, d: Step)
    ensures Run(steps + [a, b, c, d]) == Next(Next(Next(Next(Run(steps), a), b), c), d)
  {
    RunSnoc(steps, a);
    RunSnoc(steps + [a], b);
    RunSnoc(steps + [a] + [b], c);
    RunSnoc(steps + [a] + [b] + [c], d);
    hide Run, Next;
    assert steps + [a] + [b] + [c] + [d] == steps + [a, b, c, d];
  }

  lemma RunThree(a: Step, b: Step, c: Step)
    ensures Run([a, b, c]) == Next(Next(Next(INITIAL, a), b), c)
  {
    hide Next;
    NothingMore([]);
    RunSnoc([], a);
    RunSnoc([a], b);
    RunSnoc([a, b], c);
    assert [] + [a] == [a] && [a] + [b] == [a, b] && [a, b] + [c] == [a, b, c];
  }

  function FormatOf(k: Kind): nat {
    if k == Text then CF_UNICODETEXT else CF_DIB
  }

  lemma Asked(s: State, h: Hash, k: Kind)
    requires h != [] && k in {Text, Image}
    requires s.pendingHash == h && s.pendingKind == k && !s.cachedValid && s.pendingResponse == []
    requires s.stack == [] && s.filling == None && Fresh(s, 1)
    ensures Next(s, Begin(1, FormatOf(k), false)) ==
            s.(stack := [Render(1, h, k, Sending)], log := s.log + [Began(1, h, k, false)])
  {
    assert [] + [Render(1, h, k, Sending)] == [Render(1, h, k, Sending)];
  }

  lemma SentAlone(s: State, r: Render)
    requires s.stack == [r] && r.phase == Sending
    ensures Next(s, Send(true)) == s.(stack := [r.(phase := Waiting)], log := s.log + [Requested(r.id, r.hash, r.kind)])
  {
    assert s.stack[..0] + [r.(phase := Waiting)] == [r.(phase := Waiting)];
  }

  lemma WokenAlone(s: State, r: Render)
    requires s.stack == [r] && r.phase == Waiting && s.eventSet
    ensures Next(s, Wake) == s.(stack := [r.(phase := Woken)])
  {
    assert s.stack[..0] + [r.(phase := Woken)] == [r.(phase := Woken)];
  }

  lemma FinishedAlone(s: State, r: Render)
    requires s.stack == [r] && r.phase == Woken && s.pendingHash == r.hash && !s.cachedValid
    ensures var t := Next(s, Finish);
            t.stack == [] &&
            if s.pendingResponse == [] then t.log == s.log
            else t.log == s.log + [Served(r.id, r.hash, r.kind, s.pendingResponse)] &&
                 t.filling == Some(Response(r.id, r.hash, r.kind, s.pendingResponse))
  {
  }

  lemma FilledUp(s: State, f: Response)
    requires s.filling == Some(f)
    ensures Next(s, Fill) == s.(filling := None, log := s.log + [Filled(f.id, f.hash, f.kind, f.data)])
  {
  }

  lemma OneWaitingState(h: Hash, k: Kind)
    requires h != [] && k in {Text, Image}
    ensures var s := Next(Next(Next(INITIAL, Announce(h, k)), Begin(1, FormatOf(k), false)), Send(true));
            && s.stack == [Render(1, h, k, Waiting)] && s.filling == None && s.pendingHash == h && !s.cachedValid
            && s.log == [Announced(h, k), Began(1, h, k, false), Requested(1, h, k)]
  {
    var s1 := AfterAnnounce(INITIAL, h, k);
    assert s1.log == [Announced(h, k)] && Fresh(s1, 1) && Next(INITIAL, Announce(h, k)) == s1;
    Asked(s1, h, k);
    hide Next, Fresh;
    var s2 := Next(s1, Begin(1, FormatOf(k), false));
    SentAlone(s2, Render(1, h, k, Sending));
    assert [Announced(h, k)] + [Began(1, h, k, false)] + [Requested(1, h, k)] ==
           [Announced(h, k), Began(1, h, k, false), Requested(1, h, k)];
  }

  /** One render of an announced hash, waiting for its data. */
  lemma OneWaiting(h: Hash, k: Kind)
    requires h != [] && k in {Text, Image}
    ensures var s := Run([Announce(h, k), Begin(1, FormatOf(k), false), Send(true)]);
            && s.stack == [Render(1, h, k, Waiting)] && s.filling == None && s.pendingHash == h && !s.cachedValid
            && s.log == [Announced(h, k), Began(1, h, k, false), Requested(1, h, k)]
  {
    OneWaitingState(h, k);
    hide Run, Next;
    RunThree(Announce(h, k), Begin(1, FormatOf(k), false), Send(true));
  }

  lemma EmptyAnswerState(s: State, r: Render, d: seq<byte>)
    requires s.stack == [r] && r.phase == Waiting && s.pendingHash == r.hash != [] && !s.cachedValid
    ensures var t := Next(Next(Next(Next(s, Provide(r.hash, d)), Wake), Provide(r.hash, [])), Finish);
            t.stack == [] && t.log == s.log + [Accepted(r.hash, d)] + [Accepted(r.hash, [])]
  {
    var s1 := AfterProvide(s, r.hash, d);
    assert Next(s, Provide(r.hash, d)) == s1;
    WokenAlone(s1, r);
    var s2 := Next(s1, Wake);
    var s3 := AfterProvide(s2, r.hash, []);
    assert Next(s2, Provide(r.hash, [])) == s3;
    hide Next;
    FinishedAlone(s3, r.(phase := Woken));
  }

  /** So an empty answer that comes in between takes the accepted one away: the woken render is served nothing. */
  lemma EmptyAnswerLoses(h: Hash, d: seq<byte>) returns (steps: seq<Step>)
    requires h != [] && d != []
    ensures At(Run(steps), Waiting) && CurrentHash(Run(steps).log) == h == Top(Run(steps)).hash
    ensures var after := Run(steps + [Provide(h, d), Wake, Provide(h, []), Finish]);
            after.log == Run(steps).log + [Accepted(h, d), Accepted(h, [])] && after.stack == []
  {
    steps := [Announce(h, Text), Begin(1, FormatOf(Text), false), Send(true)];
    OneWaiting(h, Text);
    Announcing(steps);
    hide Run, CurrentHash, Next;
    EmptyAnswerState(Run(steps), Render(1, h, Text, Waiting), d);
    RunFour(steps, Provide(h, d), Wake, Provide(h, []), Finish);
    assert Run(steps).log + [Accepted(h, d)] + [Accepted(h, [])] == Run(steps).log + [Accepted(h, d), Accepted(h, [])];
  }

  lemma Announcing(steps: seq<Step>)
    ensures Run(steps).pendingHash == CurrentHash(Run(steps).log)
  {
    RunKeeps(steps);
  }

  // ------------------------------------- one hash, announced more than once

  /** When the parent answers each hash with one content, empty answers apart, every render shows that content, whichever
      announcement of the hash it belongs to. */
  lemma ConsistentParent(steps: seq<Step>, content: Hash -> seq<byte>)
    requires forall e | e in Run(steps).log && e.Accepted? && e.data != [] :: e.data == content(e.hash)
    ensures forall e | e in Run(steps).log && e.Served? :: e.data == content(e.hash)
  {
    var log := Run(steps).log;
    forall e | e in log && e.Served? ensures e.data == content(e.hash) {
      var i :| 0 <= i < |log| && log[i] == e;
      ServedIsAnnounced(steps, i);
      EpochWithin(log[..i]);
      assert Accepted(e.hash, e.data) in log;
    }
  }

  lemma {:induction false} EpochWithin(log: seq<Entry>)
    ensures forall e | e in Epoch(log) :: e in log
    decreases |log|
  {
    if log != [] {
      EpochWithin(log[..|log| - 1]);
    }
  }

  type Answer = (Hash, seq<byte>)

  /** The parent's answers in the run are among these. */
  ghost predicate Answers(all: iset<Answer>, steps: seq<Step>) {
    forall step | step in steps && step.Provide? :: (step.hash, step.data) in all
  }

  /** No hash has two different answers, empty ones apart. */
  ghost predicate OneAnswer(all: iset<Answer>) {
    forall p, q | p in all && q in all && p.0 == q.0 && p.0 != [] && p.1 != [] && q.1 != [] :: p.1 == q.1
  }

  /** Any two renders of one hash were served the same. */
  ghost predicate Agree(log: seq<Entry>) {
    forall a, b | a in log && b in log && a.Served? && b.Served? && a.hash == b.hash :: a.data == b.data
  }

  lemma NewAccepted(s: State, step: Step)
    ensures forall e | e in Next(s, step).log && e !in s.log && e.Accepted? ::
              step.Provide? && e == Accepted(step.hash, step.data)
  {
    hide Run, Inv;
  }

  lemma {:induction false} LoggedAnswers(all: iset<Answer>, steps: seq<Step>)
    requires Answers(all, steps)
    ensures forall e | e in Run(steps).log && e.Accepted? :: (e.hash, e.data) in all
    decreases |steps|
  {
    if steps != [] {
      hide Next;
      var init := steps[..|steps| - 1];
      assert steps[|steps| - 1] in steps && forall step | step in init :: step in steps;
      LoggedAnswers(all, init);
      NewAccepted(Run(init), steps[|steps| - 1]);
    }
  }

  lemma ServedWasAnswered(all: iset<Answer>, steps: seq<Step>, e: Entry)
    requires Answers(all, steps) && e in Run(steps).log && e.Served?
    ensures e.hash != [] && e.data != [] && (e.hash, e.data) in all
  {
    hide Run, Next;
    var log := Run(steps).log;
    var i :| 0 <= i < |log| && log[i] == e;
    ServedIsAnnounced(steps, i);
    EpochWithin(log[..i]);
    LoggedAnswers(all, steps);
    assert Accepted(e.hash, e.data) in log;
    var j :| 0 <= j < |log| && log[j] == Accepted(e.hash, e.data);
    RunKeeps(steps);
    LawfulAt(log, j);
  }

  /** An announcement that is answered before anybody asks, and a render of it. */
  function Shown(h: Hash, d: seq<byte>, id: nat): seq<Step> {
    [Announce(h, Text), Provide(h, d), Begin(id, CF_UNICODETEXT, false), Fill]
  }

  lemma ShownState(s: State, h: Hash, d: seq<byte>, id: nat)
    requires h != [] && d != [] && s.stack == [] && s.filling == None && Fresh(s, id)
    ensures var t := Next(Next(Next(Next(s, Announce(h, Text)), Provide(h, d)), Begin(id, CF_UNICODETEXT, false)), Fill);
            && t.stack == [] && t.filling == None
            && t.log == s.log + [Announced(h, Text)] + [Accepted(h, d)] + [Began(id, h, Text, false)] +
                        [Served(id, h, Text, d)] + [Filled(id, h, Text, d)]
  {
    var s1 := AfterAnnounce(s, h, Text);
    var s2 := AfterProvide(s1, h, d);
    assert Next(s, Announce(h, Text)) == s1 && Next(s1, Provide(h, d)) == s2;
    assert Fresh(s2, id);
    hide Fresh;
    var s3 := AfterBegin(s2, id, CF_UNICODETEXT, false);
    assert Next(s2, Begin(id, CF_UNICODETEXT, false)) == s3;
    FilledUp(s3, Response(id, h, Text, d));
  }

  lemma ShownLog(log: seq<Entry>, h: Hash, d: seq<byte>, id: nat)
    ensures var more := log + [Announced(h, Text)] + [Accepted(h, d)] + [Began(id, h, Text, false)] +
                        [Served(id, h, Text, d)] + [Filled(id, h, Text, d)];
            && log <= more && Served(id, h, Text, d) in more
            && forall e | e in more && e.Began? :: e in log || e.id == id
  {
  }

  /** A render served at once leaves the thread as it was. */
  lemma ShownOnce(steps: seq<Step>, h: Hash, d: seq<byte>, id: nat)
    requires h != [] && d != [] && Run(steps).stack == [] && Run(steps).filling == None && Fresh(Run(steps), id)
    ensures var s, t := Run(steps), Run(steps + Shown(h, d, id));
            && t.stack == [] && t.filling == None && s.log <= t.log && Served(id, h, Text, d) in t.log
            && forall j | j != id && Fresh(s, j) :: Fresh(t, j)
  {
    var s := Run(steps);
    ShownState(s, h, d, id);
    ShownLog(s.log, h, d, id);
    hide Run, Next;
    RunFour(steps, Announce(h, Text), Provide(h, d), Begin(id, CF_UNICODETEXT, false), Fill);
  }

  lemma FreshAtFirst(id: nat)
    ensures Run([]) == INITIAL && Fresh(INITIAL, id)
  {
  }

  /** Across two announcements of one hash, two answers can be shown. */
  lemma AnsweredTwice(h: Hash, d1: seq<byte>, d2: seq<byte>) returns (steps: seq<Step>)
    requires h != [] && d1 != [] && d2 != [] && d1 != d2
    ensures Served(1, h, Text, d1) in Run(steps).log && Served(2, h, Text, d2) in Run(steps).log
    ensures forall step | step in steps && step.Provide? :: step == Provide(h, d1) || step == Provide(h, d2)
  {
    var first := [] + Shown(h, d1, 1);
    steps := first + Shown(h, d2, 2);
    FreshAtFirst(1);
    FreshAtFirst(2);
    assert Fresh(Run([]), 1) && Fresh(Run([]), 2) && Run([]).stack == [] && Run([]).filling == None;
    hide Run, Fresh;
    ShownOnce([], h, d1, 1);
    ShownOnce(first, h, d2, 2);
    hide *;
  }

  /** Renders of one hash agree across its announcements, in every run over some answers, exactly when no hash has two
      non-empty answers among them. */
  lemma AgreeIffOneAnswer(all: iset<Answer>)
    ensures OneAnswer(all) <==> forall steps | Answers(all, steps) :: Agree(Run(steps).log)
  {
    if OneAnswer(all) {
      forall steps, a, b | Answers(all, steps) && a in Run(steps).log && b in Run(steps).log &&
                           a.Served? && b.Served? && a.hash == b.hash
        ensures a.data == b.data
      {
        ServedWasAnswered(all, steps, a);
        ServedWasAnswered(all, steps, b);
      }
    } else {
      var p, q :| p in all && q in all && p.0 == q.0 && p.0 != [] && p.1 != [] && q.1 != [] && p.1 != q.1;
      var steps := AnsweredTwice(p.0, p.1, q.1);
      assert Answers(all, steps) && !Agree(Run(steps).log);
    }
  }

  // --------------------------------------------------- the kind of a render

  type Offer = (Hash, Kind)

  /** The run announces only these. */
  ghost predicate Announces(all: iset<Offer>, steps: seq<Step>) {
    forall step | step in steps && step.Announce? :: (step.hash, step.kind) in all
  }

  /** No hash is announced both under a kind that can be rendered and under another kind. */
  ghost predicate OneKind(all: iset<Offer>) {
    forall p, q | p in all && q in all && p.0 == q.0 && p.0 != [] && p.1 in {Text, Image} :: p.1 == q.1
  }

  /** Every decision is for the kind that is announced when it is made. */
  ghost predicate KindsKept(log: seq<Entry>) {
    forall i | 0 <= i < |log| && log[i].Served? :: CurrentKind(log[..i]) == log[i].kind
  }

  /** What a step can add to the log, as far as announcements and beginnings go. */
  lemma News(s: State, step: Step)
    ensures forall e | e in Next(s, step).log && e !in s.log && e.Announced? ::
              step.Announce? && e == Announced(step.hash, step.kind)
    ensures forall e | e in Next(s, step).log && e !in s.log && e.Began? :: e.hash != [] && e.kind in {Text, Image}
  {
    hide Run, Inv, Fresh;
    if step.Begin? {
      hide Enabled;
    }
  }

  lemma {:induction false} LoggedOffers(all: iset<Offer>, steps: seq<Step>)
    requires Announces(all, steps)
    ensures forall e | e in Run(steps).log && e.Announced? :: (e.hash, e.kind) in all
    ensures forall e | e in Run(steps).log && e.Began? :: e.hash != [] && e.kind in {Text, Image}
    decreases |steps|
  {
    if steps != [] {
      hide Next;
      var init := steps[..|steps| - 1];
      assert steps[|steps| - 1] in steps && forall step | step in init :: step in steps;
      LoggedOffers(all, init);
      News(Run(init), steps[|steps| - 1]);
    }
  }

  lemma {:induction false} AnnouncedLast(log: seq<Entry>)
    ensures CurrentHash(log) != [] ==> Announced(CurrentHash(log), CurrentKind(log)) in log
    decreases |log|
  {
    if log != [] {
      AnnouncedLast(log[..|log| - 1]);
    }
  }

  lemma KindKept(all: iset<Offer>, steps: seq<Step>, i: nat)
    requires OneKind(all) && Announces(all, steps) && i < |Run(steps).log| && Run(steps).log[i].Served?
    ensures CurrentKind(Run(steps).log[..i]) == Run(steps).log[i].kind
  {
    var log := Run(steps).log;
    var e := log[i];
    ServedIsAnnounced(steps, i);
    var c :| Began(e.id, e.hash, e.kind, c) in log[..i];
    var b :| 0 <= b < i && log[..i][b] == Began(e.id, e.hash, e.kind, c);
    RunKeeps(steps);
    LawfulAt(log, b);
    LoggedOffers(all, steps);
    AnnouncedLast(log[..b]);
    AnnouncedLast(log[..i]);
    assert log[b] in log;
    assert Announced(e.hash, e.kind) in log[..b] && Announced(e.hash, CurrentKind(log[..i])) in log[..i];
    assert (e.hash, e.kind) in all && (e.hash, CurrentKind(log[..i])) in all;
  }

  function AcrossKinds(h: Hash, k: Kind, other: Kind, d: seq<byte>): seq<Step> {
    [Announce(h, k), Begin(1, FormatOf(k), false), Send(true), Announce(h, other), Provide(h, d), Wake, Finish, Fill]
  }

  lemma SwitchedState(s: State, r: Render, other: Kind, d: seq<byte>)
    requires s.stack == [r] && r.phase == Waiting && s.filling == None && r.hash != [] && d != []
    ensures var t := Next(Next(Next(Next(Next(s, Announce(r.hash, other)), Provide(r.hash, d)), Wake), Finish), Fill);
            t.log == s.log + [Announced(r.hash, other)] + [Accepted(r.hash, d)] + [Served(r.id, r.hash, r.kind, d)] +
                     [Filled(r.id, r.hash, r.kind, d)]
  {
    var s1 := AfterAnnounce(s, r.hash, other);
    var s2 := AfterProvide(s1, r.hash, d);
    assert Next(s, Announce(r.hash, other)) == s1 && Next(s1, Provide(r.hash, d)) == s2;
    hide Next;
    WokenAlone(s2, r);
    FinishedAlone(Next(s2, Wake), r.(phase := Woken));
    FilledUp(Next(Next(s2, Wake), Finish), Response(r.id, r.hash, r.kind, d));
  }

  lemma RunFive(steps: seq<Step>, a: Step, b: Step, c: Step, d: Step, e: Step)
    ensures Run(steps + [a, b, c, d, e]) == Next(Next(Next(Next(Next(Run(steps), a), b), c), d), e)
  {
    RunFour(steps, a, b, c, d);
    RunSnoc(steps + [a, b, c, d], e);
    hide Run, Next;
    assert steps + [a, b, c, d] + [e] == steps + [a, b, c, d, e];
  }

  lemma AcrossKindsState(h: Hash, k: Kind, other: Kind, d: seq<byte>)
    requires h != [] && k in {Text, Image} && d != []
    ensures Run(AcrossKinds(h, k, other, d)).log ==
            [Announced(h, k), Began(1, h, k, false), Requested(1, h, k)] + [Announced(h, other)] + [Accepted(h, d)] +
            [Served(1, h, k, d)] + [Filled(1, h, k, d)]
  {
    var steps := [Announce(h, k), Begin(1, FormatOf(k), false), Send(true)];
    OneWaiting(h, k);
    SwitchedState(Run(steps), Render(1, h, k, Waiting), other, d);
    hide Run, Next;
    RunFive(steps, Announce(h, other), Provide(h, d), Wake, Finish, Fill);
    assert steps + [Announce(h, other), Provide(h, d), Wake, Finish, Fill] == AcrossKinds(h, k, other, d);
  }

  /** A hash announced again under another kind: the render that waits for the first shows what answers the second. */
  lemma KindSwitched(h: Hash, k: Kind, other: Kind, d: seq<byte>) returns (steps: seq<Step>)
    requires h != [] && k in {Text, Image} && other != k && d != []
    ensures Announces(iset{(h, k), (h, other)}, steps) && !KindsKept(Run(steps).log)
    ensures Filled(1, h, k, d) in Run(steps).log && CurrentKind(Run(steps).log) == other
  {
    steps := AcrossKinds(h, k, other, d);
    AcrossKindsState(h, k, other, d);
    hide Run, Next, KindsKept, CurrentKind;
    DecidedAcross([Announced(h, k), Began(1, h, k, false), Requested(1, h, k)], h, k, other, d);
  }

  /** The decision in such a log is for a kind that is not announced. */
  lemma DecidedAcross(first: seq<Entry>, h: Hash, k: Kind, other: Kind, d: seq<byte>)
    requires other != k
    ensures var log := first + [Announced(h, other)] + [Accepted(h, d)] + [Served(1, h, k, d)] + [Filled(1, h, k, d)];
            !KindsKept(log) && CurrentKind(log) == other
  {
    hide Lawful, Epoch, CurrentHash, CurrentKind, LastAccepted, LastServed, AnyServed, AnyAccepted, OnlyServed;
    var again := first + [Announced(h, other)];
    var accepted := again + [Accepted(h, d)];
    var served := accepted + [Served(1, h, k, d)];
    var log := served + [Filled(1, h, k, d)];
    Appended(first, Announced(h, other));
    Appended(again, Accepted(h, d));
    Appended(accepted, Served(1, h, k, d));
    Appended(served, Filled(1, h, k, d));
    assert log[..|accepted|] == accepted && log[|accepted|] == Served(1, h, k, d);
  }

  /** Renders decide for the announced kind in every run over some announcements exactly when no renderable hash among
      them has two kinds. */
  lemma KindsKeptIffOneKind(all: iset<Offer>)
    ensures OneKind(all) <==> forall steps | Announces(all, steps) :: KindsKept(Run(steps).log)
  {
    if OneKind(all) {
      forall steps, i | Announces(all, steps) && 0 <= i < |Run(steps).log| && Run(steps).log[i].Served?
        ensures CurrentKind(Run(steps).log[..i]) == Run(steps).log[i].kind
      {
        KindKept(all, steps, i);
      }
    } else {
      var p, q :| p in all && q in all && p.0 == q.0 && p.0 != [] && p.1 in {Text, Image} && p.1 != q.1;
      var steps := KindSwitched(p.0, p.1, q.1, [0]);
      assert Announces(all, steps);
    }
  }
}
