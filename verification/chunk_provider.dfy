/** Correlating FILE_CHUNK_DATA replies with the FetchChunk calls that nest inside the STA's message pump. Steps are
    what happens under one acquisition of mu_. */
module ChunkProvider {
  import opened Bytes

  type Text = seq<byte>
  const BAR: byte := 124

  function MakeKey(transferId: Text, fileId: Text, offset: nat): Text {
    transferId + [BAR] + fileId + [BAR] + Decimal(offset)
  }

  // -------------------------------------------------------- the request key

  /** Two keys agree exactly when the offsets agree and the ids read the same with a bar in between. */
  lemma KeysAgree(t1: Text, f1: Text, o1: nat, t2: Text, f2: Text, o2: nat)
    ensures MakeKey(t1, f1, o1) == MakeKey(t2, f2, o2) <==> o1 == o2 && t1 + [124] + f1 == t2 + [124] + f2
  {
    if MakeKey(t1, f1, o1) == MakeKey(t2, f2, o2) {
      LastBarDecides(t1 + [BAR] + f1, o1, t2 + [BAR] + f2, o2);
    }
  }

  /** Where the bar stands when one side has none. */
  lemma BarStands(a: Text, d: Text)
    ensures (a + [BAR] + d)[|a|] == BAR
    ensures BAR !in d ==> forall i | |a| < i <= |a| + |d| :: (a + [BAR] + d)[i] != BAR
    ensures BAR !in a ==> forall i | 0 <= i < |a| :: (a + [BAR] + d)[i] != BAR
    ensures (a + [BAR] + d)[..|a|] == a && (a + [BAR] + d)[|a| + 1..] == d
  {
  }

  lemma LastBarDecides(a: Text, m: nat, b: Text, n: nat)
    requires a + [BAR] + Decimal(m) == b + [BAR] + Decimal(n)
    ensures a == b && m == n
  {
    BarStands(a, Decimal(m));
    BarStands(b, Decimal(n));
    assert |a| == |b|;
    DecimalInjective(m, n);
  }

  lemma FirstBarDecides(t1: Text, f1: Text, t2: Text, f2: Text)
    requires BAR !in t1 && BAR !in t2 && t1 + [BAR] + f1 == t2 + [BAR] + f2
    ensures t1 == t2 && f1 == f2
  {
    BarStands(t1, f1);
    BarStands(t2, f2);
    assert |t1| == |t2|;
  }

  /** For transfer ids without a bar the key tells the whole triple apart. */
  lemma KeyInjective(t1: Text, f1: Text, o1: nat, t2: Text, f2: Text, o2: nat)
    requires 124 !in t1 && 124 !in t2
    ensures MakeKey(t1, f1, o1) == MakeKey(t2, f2, o2) <==> t1 == t2 && f1 == f2 && o1 == o2
  {
    KeysAgree(t1, f1, o1, t2, f2, o2);
    if MakeKey(t1, f1, o1) == MakeKey(t2, f2, o2) {
      FirstBarDecides(t1, f1, t2, f2);
    }
  }

  // ------------------------------------------------------------------ state

  datatype Slot = Slot(key: Text, data: seq<byte>, isLast: bool, error: Text, received: bool, cancelled: bool)

  datatype Result = Ok(data: seq<byte>, isLast: bool) | Aborted | Reverted | Failed

  datatype Entry =
    | Staged(id: nat, transferId: Text, fileId: Text, offset: nat)
    | Delivered(to: Option<nat>, transferId: Text, fileId: Text, offset: nat, data: seq<byte>, isLast: bool, error: Text)
    | CancelledAll
    | Finished(id: nat, result: Result)

  /** `pending` maps a key to the queue of its waiting requests; `slots` are the slots FetchChunk calls still hold. */
  datatype State = State(pending: map<Text, seq<nat>>, slots: map<nat, Slot>, nextId: nat, log: seq<Entry>)

  const INITIAL := State(map[], map[], 0, [])

  function NewSlot(key: Text): Slot {
    Slot(key, [], false, [], false, false)
  }

  function Remove(q: seq<nat>, id: nat): seq<nat> {
    if q == [] then [] else if q[0] == id then q[1..] else [q[0]] + Remove(q[1..], id)
  }

  function EraseFromQueue(pending: map<Text, seq<nat>>, key: Text, id: nat): map<Text, seq<nat>> {
    if key !in pending then pending else
    var q := Remove(pending[key], id);
    if q == [] then pending - {key} else pending[key := q]
  }

  function Queue(pending: map<Text, seq<nat>>, key: Text): seq<nat> {
    if key in pending then pending[key] else []
  }

  function AfterStage(s: State, t: Text, f: Text, o: nat): State {
    var key := MakeKey(t, f, o);
    State(s.pending[key := Queue(s.pending, key) + [s.nextId]], s.slots[s.nextId := NewSlot(key)], s.nextId + 1,
          s.log + [Staged(s.nextId, t, f, o)])
  }

  function Filled(slot: Slot, data: seq<byte>, isLast: bool, error: Text): Slot {
    slot.(data := data, isLast := isLast, error := error, received := true)
  }

  function AfterDeliver(s: State, t: Text, f: Text, o: nat, data: seq<byte>, isLast: bool, error: Text): State {
    var q := Queue(s.pending, MakeKey(t, f, o));
    if q == [] || q[0] !in s.slots then s.(log := s.log + [Delivered(None, t, f, o, data, isLast, error)])
    else s.(slots := s.slots[q[0] := Filled(s.slots[q[0]], data, isLast, error)],
            log := s.log + [Delivered(Some(q[0]), t, f, o, data, isLast, error)])
  }

  function CancelSlots(slots: map<nat, Slot>): map<nat, Slot> {
    map id | id in slots :: slots[id].(cancelled := true)
  }

  function AfterCancelAll(s: State): State {
    s.(slots := CancelSlots(s.slots), log := s.log + [CancelledAll])
  }

  /** What FetchChunk returns for its slot, whatever ended its wait. */
  function ResultOf(slot: Slot, gotQuit: bool): Result {
    if gotQuit then Aborted
    else if slot.cancelled && !slot.received then Reverted
    else if !slot.received then Failed
    else if slot.error != [] then Failed
    else Ok(slot.data, slot.isLast)
  }

  function AfterFinish(s: State, id: nat, result: Result): State
    requires id in s.slots
  {
    State(EraseFromQueue(s.pending, s.slots[id].key, id), s.slots - {id}, s.nextId, s.log + [Finished(id, result)])
  }

  datatype Step =
    | Stage(transferId: Text, fileId: Text, offset: nat)
    | SendFailed(id: nat)
    | Deliver(transferId: Text, fileId: Text, offset: nat, data: seq<byte>, isLast: bool, error: Text)
    | Cancel
    | Finish(id: nat, gotQuit: bool)

  function Next(s: State, step: Step): State {
    match step
    case Stage(t, f, o) => if t == [] || f == [] then s else AfterStage(s, t, f, o)
    case SendFailed(id) => if id in s.slots then AfterFinish(s, id, Failed) else s
    case Deliver(t, f, o, d, l, e) => AfterDeliver(s, t, f, o, d, l, e)
    case Cancel => AfterCancelAll(s)
    case Finish(id, quit) => if id in s.slots then AfterFinish(s, id, ResultOf(s.slots[id], quit)) else s
  }

  /** Any interleaving of nested fetches, deliveries and cancellations. */
  function Run(steps: seq<Step>): State {
    if steps == [] then INITIAL else Next(Run(steps[..|steps| - 1]), steps[|steps| - 1])
  }

  // ----------------------------------------------------------- the provider

  ghost predicate Ascending(q: seq<nat>) {
    forall i, j | 0 <= i < j < |q| :: q[i] < q[j]
  }

  ghost predicate QueuesSound(pending: map<Text, seq<nat>>) {
    forall k | k in pending :: pending[k] != [] && Ascending(pending[k])
  }

  ghost predicate QueuedHeld(pending: map<Text, seq<nat>>, slots: map<nat, Slot>) {
    forall k, id | k in pending && id in pending[k] :: id in slots && slots[id].key == k
  }

  ghost predicate HeldQueued(pending: map<Text, seq<nat>>, slots: map<nat, Slot>) {
    forall id | id in slots :: slots[id].key in pending && id in pending[slots[id].key]
  }

  /** The map holds exactly the held slots, each in the queue of its own key, oldest first, and no empty queue. */
  ghost predicate Grouped(pending: map<Text, seq<nat>>, slots: map<nat, Slot>) {
    QueuesSound(pending) && QueuedHeld(pending, slots) && HeldQueued(pending, slots)
  }

  class DispatcherChunkProvider {
    var pending: map<Text, seq<nat>>
    var slots: map<nat, Slot>
    var nextId: nat
    ghost var log: seq<Entry>

    ghost predicate Valid()
      reads this
    {
      Grouped(pending, slots) && forall id | id in slots :: id < nextId
    }

    ghost function Now(): State
      reads this
    {
      State(pending, slots, nextId, log)
    }

    constructor ()
      ensures Valid() && Now() == INITIAL
    {
      pending, slots, nextId, log := map[], map[], 0, [];
    }

    /** The staging block of FetchChunk; empty ids are an invalid argument. */
    method StageRequest(transferId: Text, fileId: Text, offset: nat) returns (id: Option<nat>)
      requires Valid()
      modifies this
      ensures Valid() && Now() == Next(old(Now()), Stage(transferId, fileId, offset))
      ensures id == if transferId == [] || fileId == [] then None else Some(old(nextId))
    {
      if |transferId| == 0 || |fileId| == 0 { return None; }
      StageGrouped(pending, slots, MakeKey(transferId, fileId, offset), nextId);
      var key := MakeKey(transferId, fileId, offset);
      slots := slots[nextId := NewSlot(key)];
      pending := pending[key := (if key in pending then pending[key] else []) + [nextId]];
      log := log + [Staged(nextId, transferId, fileId, offset)];
      id := Some(nextId);
      nextId := nextId + 1;
    }

    method DeliverChunk(transferId: Text, fileId: Text, offset: nat, data: seq<byte>, isLast: bool, error: Text)
      requires Valid()
      modifies this
      ensures Valid() && Now() == Next(old(Now()), Deliver(transferId, fileId, offset, data, isLast, error))
    {
      var key := MakeKey(transferId, fileId, offset);
      if key !in pending || |pending[key]| == 0 {
        log := log + [Delivered(None, transferId, fileId, offset, data, isLast, error)];
        return;
      }
      var front := pending[key][0];
      assert front in pending[key];
      slots := slots[front := slots[front].(data := data, isLast := isLast, error := error, received := true)];
      log := log + [Delivered(Some(front), transferId, fileId, offset, data, isLast, error)];
    }

    method CancelAll()
      requires Valid()
      modifies this
      ensures Valid() && Now() == Next(old(Now()), Cancel)
    {
      ghost var was := slots;
      var keys := pending.Keys;
      while keys != {}
        invariant keys <= pending.Keys && pending == old(pending) && nextId == old(nextId) && log == old(log)
        invariant slots.Keys == was.Keys
        invariant forall id | id in was :: slots[id] == if was[id].key in keys then was[id] else was[id].(cancelled := true)
        decreases keys
      {
        var k :| k in keys;
        CancelQueue(pending[k]);
        keys := keys - {k};
      }
      assert slots == CancelSlots(was);
      SameKeysGrouped(pending, was, slots);
      log := log + [CancelledAll];
    }

    /** The inner loop of CancelAll. */
    method CancelQueue(queue: seq<nat>)
      requires forall id | id in queue :: id in slots
      modifies this`slots
      ensures slots.Keys == old(slots).Keys
      ensures forall id | id in slots ::
                slots[id] == if id in queue then old(slots)[id].(cancelled := true) else old(slots)[id]
    {
      var i := 0;
      while i < |queue|
        invariant 0 <= i <= |queue| && slots.Keys == old(slots).Keys
        invariant forall id | id in slots ::
                    slots[id] == if id in queue[..i] then old(slots)[id].(cancelled := true) else old(slots)[id]
      {
        var id := queue[i];
        assert id in queue;
        slots := slots[id := slots[id].(cancelled := true)];
        assert queue[..i + 1] == queue[..i] + [id];
        i := i + 1;
      }
      assert queue[..|queue|] == queue;
    }

    method EraseFromQueueLocked(key: Text, id: nat)
      modifies this`pending
      ensures pending == EraseFromQueue(old(pending), key, id)
    {
      if key !in pending { return; }
      var q := pending[key];
      var i := 0;
      while i < |q|
        invariant 0 <= i <= |q| && q == pending[key] && pending == old(pending)
        invariant Remove(q, id) == q[..i] + Remove(q[i..], id)
      {
        if q[i] == id {
          assert q[i..][1..] == q[i + 1..];
          q := q[..i] + q[i + 1..];
          break;
        }
        assert q[i..][1..] == q[i + 1..];
        assert q[..i] + ([q[i]] + Remove(q[i + 1..], id)) == q[..i + 1] + Remove(q[i + 1..], id);
        i := i + 1;
      }
      assert q == Remove(pending[key], id);
      if |q| == 0 {
        pending := pending - {key};
      } else {
        pending := pending[key := q];
      }
    }

    /** The last block of FetchChunk: take the outcome out of the slot and detach it. */
    method FinishFetch(id: nat, gotQuit: bool) returns (result: Result)
      requires Valid() && id in slots
      modifies this
      ensures Valid() && Now() == Next(old(Now()), Finish(id, gotQuit))
      ensures result == ResultOf(old(slots)[id], gotQuit)
    {
      hide Grouped, EraseFromQueue;
      var slot := slots[id];
      EraseGrouped(pending, slots, id);
      EraseFromQueueLocked(slot.key, id);
      slots := slots - {id};
      if gotQuit {
        result := Aborted;
      } else if slot.cancelled && !slot.received {
        result := Reverted;
      } else if !slot.received || |slot.error| != 0 {
        result := Failed;
      } else {
        result := Ok(slot.data, slot.isLast);
      }
      log := log + [Finished(id, result)];
    }
  }

  /** Only the keys of the slots matter for the grouping. */
  lemma SameKeysGrouped(pending: map<Text, seq<nat>>, slots: map<nat, Slot>, slots': map<nat, Slot>)
    requires Grouped(pending, slots) && slots'.Keys == slots.Keys
    requires forall id | id in slots :: slots'[id].key == slots[id].key
    ensures Grouped(pending, slots')
  {
    hide QueuesSound;
    assert QueuedHeld(pending, slots') by {
      forall k, id | k in pending && id in pending[k] ensures id in slots' && slots'[id].key == k {
        assert id in slots && id in slots.Keys;
      }
    }
    assert HeldQueued(pending, slots') by {
      forall id | id in slots' ensures slots'[id].key in pending && id in pending[slots'[id].key] {
        assert id in slots'.Keys && id in slots;
      }
    }
  }

  lemma StageGrouped(pending: map<Text, seq<nat>>, slots: map<nat, Slot>, key: Text, id: nat)
    requires Grouped(pending, slots) && forall i | i in slots :: i < id
    ensures Grouped(pending[key := Queue(pending, key) + [id]], slots[id := NewSlot(key)])
  {
    var q := Queue(pending, key);
    assert Ascending(q + [id]) by {
      if key in pending {
        forall i | 0 <= i < |q| ensures q[i] < id {
          assert q[i] in pending[key];
          assert q[i] in slots;
        }
      }
    }
    var pending', slots' := pending[key := q + [id]], slots[id := NewSlot(key)];
    forall k, i | k in pending' && i in pending'[k] ensures i in slots' && slots'[i].key == k {
      if i != id || k != key {
        assert k in pending && i in pending[k];
        assert i in slots && slots[i].key == k;
      }
    }
  }

  lemma {:induction false} RemoveElements(q: seq<nat>, id: nat, x: nat)
    ensures x in Remove(q, id) ==> x in q
    ensures x in q && x != id ==> x in Remove(q, id)
    decreases |q|
  {
    if q != [] {
      assert q == [q[0]] + q[1..];
      RemoveElements(q[1..], id, x);
    }
  }

  lemma AscendingCons(x: nat, r: seq<nat>)
    requires Ascending(r) && forall y | y in r :: y > x
    ensures Ascending([x] + r) && x !in r
  {
    var s := [x] + r;
    forall i | 0 < i < |s| ensures s[i] == r[i - 1] && s[i] > x {
      assert r[i - 1] in r;
    }
  }

  lemma {:induction false} RemoveAscending(q: seq<nat>, id: nat)
    requires Ascending(q)
    ensures Ascending(Remove(q, id)) && id !in Remove(q, id)
    decreases |q|
  {
    if q != [] {
      var tail := q[1..];
      forall i | 0 <= i < |tail| ensures tail[i] > q[0] {
        assert tail[i] == q[i + 1];
      }
      RemoveAscending(tail, id);
      var r := Remove(tail, id);
      forall x | x in r ensures x > q[0] {
        RemoveElements(tail, id, x);
        assert x in tail;
      }
      AscendingCons(q[0], r);
      forall x | x in tail ensures x > q[0] {
      }
    }
  }

  /** What is left of the queues after an erasure. */
  lemma Erased(pending: map<Text, seq<nat>>, key: Text, id: nat)
    requires key in pending
    ensures var pending' := EraseFromQueue(pending, key, id); var r := Remove(pending[key], id);
            forall k :: (k in pending' <==> k in pending && (k == key ==> r != [])) &&
                        (k in pending' ==> pending'[k] == if k == key then r else pending[k])
  {
    hide Remove;
  }

  lemma EraseQueued(pending: map<Text, seq<nat>>, slots: map<nat, Slot>, id: nat)
    requires id in slots && slots[id].key in pending && QueuedHeld(pending, slots)
    requires id !in Remove(pending[slots[id].key], id)
    ensures QueuedHeld(EraseFromQueue(pending, slots[id].key, id), slots - {id})
  {
    hide Remove, EraseFromQueue;
    var key := slots[id].key;
    var pending' := EraseFromQueue(pending, key, id);
    Erased(pending, key, id);
    forall k, i | k in pending' && i in pending'[k] ensures i in slots - {id} && slots[i].key == k {
      if k == key { RemoveElements(pending[key], id, i); }
      assert i in pending[k];
    }
  }

  lemma EraseHeld(pending: map<Text, seq<nat>>, slots: map<nat, Slot>, id: nat)
    requires id in slots && slots[id].key in pending && HeldQueued(pending, slots)
    ensures HeldQueued(EraseFromQueue(pending, slots[id].key, id), slots - {id})
  {
    hide Remove, EraseFromQueue;
    var key := slots[id].key;
    Erased(pending, key, id);
    forall i | i in slots - {id}
      ensures var p := EraseFromQueue(pending, key, id); slots[i].key in p && i in p[slots[i].key]
    {
      if slots[i].key == key { RemoveElements(pending[key], id, i); }
    }
  }

  lemma EraseGrouped(pending: map<Text, seq<nat>>, slots: map<nat, Slot>, id: nat)
    requires Grouped(pending, slots) && id in slots
    ensures Grouped(EraseFromQueue(pending, slots[id].key, id), slots - {id})
  {
    assert slots[id].key in pending;
    hide Remove, EraseFromQueue, Ascending, QueuedHeld, HeldQueued;
    Erased(pending, slots[id].key, id);
    RemoveAscending(pending[slots[id].key], id);
    EraseQueued(pending, slots, id);
    EraseHeld(pending, slots, id);
  }

  // ------------------------------------------------------------ the history

  /** The held slots, replayed from the history alone. */
  function View(log: seq<Entry>): map<nat, Slot> {
    if log == [] then map[] else
    var v := View(log[..|log| - 1]);
    match log[|log| - 1]
    case Staged(id, t, f, o) => v[id := NewSlot(MakeKey(t, f, o))]
    case Delivered(to, _, _, _, d, l, e) =>
      if to.Some? && to.value in v then v[to.value := Filled(v[to.value], d, l, e)] else v
    case CancelledAll => CancelSlots(v)
    case Finished(id, _) => v - {id}
  }

  /** What happened since a request was staged. */
  function Since(log: seq<Entry>, id: nat): seq<Entry> {
    if log == [] then [] else
    var e := log[|log| - 1];
    if e.Staged? && e.id == id then [] else Since(log[..|log| - 1], id) + [e]
  }

  /** `id` is the oldest request in flight for the key. */
  ghost predicate Oldest(v: map<nat, Slot>, key: Text, id: nat) {
    id in v && v[id].key == key && forall j | j in v && v[j].key == key :: id <= j
  }

  ghost predicate StagedAs(log: seq<Entry>, id: nat, key: Text) {
    exists t, f, o :: Staged(id, t, f, o) in log && MakeKey(t, f, o) == key
  }

  ghost predicate DeliveredAs(log: seq<Entry>, slot: Slot) {
    exists to, t, f, o ::
      Delivered(to, t, f, o, slot.data, slot.isLast, slot.error) in log && MakeKey(t, f, o) == slot.key
  }

  ghost predicate Justified(before: seq<Entry>, e: Entry) {
    match e
    case Staged(id, _, _, _) => id !in View(before)
    case Delivered(to, t, f, o, _, _, _) =>
      if to.Some? then Oldest(View(before), MakeKey(t, f, o), to.value)
      else forall j | j in View(before) :: View(before)[j].key != MakeKey(t, f, o)
    case CancelledAll => true
    case Finished(id, r) =>
      id in View(before) && (r == Failed || exists quit :: r == ResultOf(View(before)[id], quit))
  }

  ghost predicate Lawful(log: seq<Entry>) {
    log == [] || (Lawful(log[..|log| - 1]) && Justified(log[..|log| - 1], log[|log| - 1]))
  }

  /** Each held slot tells its own story: its key, the last thing delivered under that key, and whether it was cancelled
      since it was staged. */
  ghost predicate Told(log: seq<Entry>, id: nat, slot: Slot) {
    && StagedAs(log, id, slot.key)
    && (slot.received ==> DeliveredAs(Since(log, id), slot))
    && (slot.cancelled <==> CancelledAll in Since(log, id))
  }

  ghost predicate AllTold(log: seq<Entry>, slots: map<nat, Slot>) {
    forall id | id in slots :: Told(log, id, slots[id])
  }

  ghost predicate Inv(s: State) {
    && Grouped(s.pending, s.slots)
    && s.slots == View(s.log)
    && (forall id | id in s.slots :: id < s.nextId)
    && Lawful(s.log)
    && AllTold(s.log, s.slots)
  }

  lemma Appended(log: seq<Entry>, e: Entry)
    ensures (log + [e])[..|log|] == log
    ensures forall id :: Since(log + [e], id) == if e.Staged? && e.id == id then [] else Since(log, id) + [e]
    ensures Lawful(log + [e]) <==> Lawful(log) && Justified(log, e)
  {
    assert (log + [e])[..|log|] == log;
  }

  /** A slot that an event leaves alone stays told. */
  lemma StillTold(log: seq<Entry>, e: Entry, id: nat, slot: Slot)
    requires Told(log, id, slot) && e != CancelledAll && !(e.Staged? && e.id == id)
    ensures Told(log + [e], id, slot)
  {
    Appended(log, e);
    var t, f, o :| Staged(id, t, f, o) in log && MakeKey(t, f, o) == slot.key;
    assert Staged(id, t, f, o) in log + [e];
    if slot.received {
      var to, t1, f1, o1 :| Delivered(to, t1, f1, o1, slot.data, slot.isLast, slot.error) in Since(log, id) &&
                            MakeKey(t1, f1, o1) == slot.key;
      assert Delivered(to, t1, f1, o1, slot.data, slot.isLast, slot.error) in Since(log + [e], id);
    }
  }

  lemma OthersTold(log: seq<Entry>, e: Entry, slots: map<nat, Slot>, id: nat)
    requires AllTold(log, slots) && e != CancelledAll
    requires forall j | j in slots && j != id :: !(e.Staged? && e.id == j)
    ensures AllTold(log + [e], slots - {id})
  {
    forall j | j in slots - {id} ensures Told(log + [e], j, slots[j]) {
      StillTold(log, e, j, slots[j]);
    }
  }

  lemma CancelTold(log: seq<Entry>, id: nat, slot: Slot)
    requires Told(log, id, slot)
    ensures Told(log + [CancelledAll], id, slot.(cancelled := true))
  {
    Appended(log, CancelledAll);
    var t, f, o :| Staged(id, t, f, o) in log && MakeKey(t, f, o) == slot.key;
    assert Staged(id, t, f, o) in log + [CancelledAll];
    assert CancelledAll in Since(log + [CancelledAll], id);
    if slot.received {
      var to, t1, f1, o1 :| Delivered(to, t1, f1, o1, slot.data, slot.isLast, slot.error) in Since(log, id) &&
                            MakeKey(t1, f1, o1) == slot.key;
      assert Delivered(to, t1, f1, o1, slot.data, slot.isLast, slot.error) in Since(log + [CancelledAll], id);
    }
  }

  lemma StageTold(log: seq<Entry>, slots: map<nat, Slot>, id: nat, t: Text, f: Text, o: nat)
    requires AllTold(log, slots) && forall i | i in slots :: i < id
    ensures AllTold(log + [Staged(id, t, f, o)], slots[id := NewSlot(MakeKey(t, f, o))])
  {
    hide MakeKey, Since;
    var e := Staged(id, t, f, o);
    Appended(log, e);
    var slots' := slots[id := NewSlot(MakeKey(t, f, o))];
    forall i | i in slots' ensures Told(log + [e], i, slots'[i]) {
      if i == id {
        assert e in log + [e];
      } else {
        StillTold(log, e, i, slots[i]);
      }
    }
  }

  lemma KeepStage(s: State, t: Text, f: Text, o: nat)
    requires Inv(s)
    ensures Inv(AfterStage(s, t, f, o))
  {
    hide MakeKey, Grouped, Since, AllTold;
    StageGrouped(s.pending, s.slots, MakeKey(t, f, o), s.nextId);
    StageTold(s.log, s.slots, s.nextId, t, f, o);
    Appended(s.log, Staged(s.nextId, t, f, o));
  }

  /** A slot that just got its data. */
  lemma FilledTold(log: seq<Entry>, id: nat, slot: Slot, t: Text, f: Text, o: nat, d: seq<byte>, l: bool, err: Text)
    requires Told(log, id, slot) && slot.key == MakeKey(t, f, o)
    ensures Told(log + [Delivered(Some(id), t, f, o, d, l, err)], id, Filled(slot, d, l, err))
  {
    var e := Delivered(Some(id), t, f, o, d, l, err);
    Appended(log, e);
    var t0, f0, o0 :| Staged(id, t0, f0, o0) in log && MakeKey(t0, f0, o0) == slot.key;
    assert Staged(id, t0, f0, o0) in log + [e];
    assert e in Since(log + [e], id);
  }

  /** The head of a queue is the oldest request of its key. */
  lemma HeadIsOldest(s: State, key: Text)
    requires Grouped(s.pending, s.slots) && key in s.pending
    ensures Oldest(s.slots, key, s.pending[key][0])
  {
    var front := s.pending[key][0];
    assert front in s.pending[key];
    forall j | j in s.slots && s.slots[j].key == key ensures front <= j {
      assert j in s.pending[key];
    }
  }

  lemma DeliveredTold(log: seq<Entry>, slots: map<nat, Slot>, id: nat, t: Text, f: Text, o: nat,
                      d: seq<byte>, l: bool, err: Text)
    requires AllTold(log, slots) && id in slots && slots[id].key == MakeKey(t, f, o)
    ensures AllTold(log + [Delivered(Some(id), t, f, o, d, l, err)], slots[id := Filled(slots[id], d, l, err)])
  {
    var e := Delivered(Some(id), t, f, o, d, l, err);
    var slots' := slots[id := Filled(slots[id], d, l, err)];
    OthersTold(log, e, slots, id);
    FilledTold(log, id, slots[id], t, f, o, d, l, err);
    forall j | j in slots' ensures Told(log + [e], j, slots'[j]) {
      if j != id {
        assert j in slots - {id} && slots'[j] == (slots - {id})[j];
      }
    }
  }

  lemma KeepDelivered(s: State, t: Text, f: Text, o: nat, d: seq<byte>, l: bool, err: Text)
    requires Inv(s) && MakeKey(t, f, o) in s.pending
    ensures Inv(AfterDeliver(s, t, f, o, d, l, err))
  {
    HeadIsOldest(s, MakeKey(t, f, o));
    var front := s.pending[MakeKey(t, f, o)][0];
    var e := Delivered(Some(front), t, f, o, d, l, err);
    var slots' := s.slots[front := Filled(s.slots[front], d, l, err)];
    assert AfterDeliver(s, t, f, o, d, l, err) == s.(slots := slots', log := s.log + [e]);
    Appended(s.log, e);
    assert View(s.log + [e]) == slots';
    SameKeysGrouped(s.pending, s.slots, slots');
    DeliveredTold(s.log, s.slots, front, t, f, o, d, l, err);
  }

  lemma KeepUndelivered(s: State, t: Text, f: Text, o: nat, d: seq<byte>, l: bool, err: Text)
    requires Inv(s) && MakeKey(t, f, o) !in s.pending
    ensures Inv(AfterDeliver(s, t, f, o, d, l, err))
  {
    var e := Delivered(None, t, f, o, d, l, err);
    Appended(s.log, e);
    forall id | id in s.slots ensures Told(s.log + [e], id, s.slots[id]) {
      StillTold(s.log, e, id, s.slots[id]);
    }
  }

  lemma KeepDeliver(s: State, t: Text, f: Text, o: nat, d: seq<byte>, l: bool, err: Text)
    requires Inv(s)
    ensures Inv(AfterDeliver(s, t, f, o, d, l, err))
  {
    if MakeKey(t, f, o) in s.pending {
      KeepDelivered(s, t, f, o, d, l, err);
    } else {
      KeepUndelivered(s, t, f, o, d, l, err);
    }
  }

  lemma KeepCancelAll(s: State)
    requires Inv(s)
    ensures Inv(AfterCancelAll(s))
  {
    hide Told, Grouped, Since, MakeKey;
    Appended(s.log, CancelledAll);
    var slots' := CancelSlots(s.slots);
    forall id | id in slots' ensures Told(s.log + [CancelledAll], id, slots'[id]) {
      CancelTold(s.log, id, s.slots[id]);
    }
    SameKeysGrouped(s.pending, s.slots, slots');
  }

  lemma KeepFinish(s: State, id: nat, r: Result)
    requires Inv(s) && id in s.slots && (r == Failed || exists quit :: r == ResultOf(s.slots[id], quit))
    ensures Inv(AfterFinish(s, id, r))
  {
    EraseGrouped(s.pending, s.slots, id);
    Appended(s.log, Finished(id, r));
    OthersTold(s.log, Finished(id, r), s.slots, id);
  }

  lemma NextKeeps(s: State, step: Step)
    requires Inv(s)
    ensures Inv(Next(s, step))
  {
    hide Inv, AfterStage, AfterDeliver, AfterCancelAll, AfterFinish, ResultOf;
    match step {
      case Stage(t, f, o) => KeepStage(s, t, f, o);
      case SendFailed(id) => if id in s.slots { KeepFinish(s, id, Failed); }
      case Deliver(t, f, o, d, l, e) => KeepDeliver(s, t, f, o, d, l, e);
      case Cancel => KeepCancelAll(s);
      case Finish(id, quit) => if id in s.slots { KeepFinish(s, id, ResultOf(s.slots[id], quit)); }
    }
  }

  lemma {:induction false} RunKeeps(steps: seq<Step>)
    ensures Inv(Run(steps))
    decreases |steps|
  {
    if steps != [] {
      hide Next, Inv;
      RunKeeps(steps[..|steps| - 1]);
      NextKeeps(Run(steps[..|steps| - 1]), steps[|steps| - 1]);
    }
  }

  // ------------------------------------------------------- the main results

  /** In every interleaving the pending map holds exactly the requests in flight, grouped by key in staging order,
      with no empty queue left behind. */
  lemma PendingIsInFlight(steps: seq<Step>)
    ensures var s := Run(steps);
            Grouped(s.pending, s.slots) && s.slots == View(s.log) &&
            forall k, id :: (k in s.pending && id in s.pending[k]) <==> (id in View(s.log) && View(s.log)[id].key == k)
  {
    RunKeeps(steps);
  }

  /** A delivery reaches the oldest request in flight for its key, or nobody when there is none. */
  lemma DeliveryReachesOldest(steps: seq<Step>, t: Text, f: Text, o: nat, d: seq<byte>, l: bool, e: Text)
    ensures var s, s' := Run(steps), Run(steps + [Deliver(t, f, o, d, l, e)]); var key := MakeKey(t, f, o);
            forall id :: id in s'.slots <==> id in s.slots
    ensures var s, s' := Run(steps), Run(steps + [Deliver(t, f, o, d, l, e)]); var key := MakeKey(t, f, o);
            forall id | id in s.slots ::
              s'.slots[id] == if Oldest(s.slots, key, id) then Filled(s.slots[id], d, l, e) else s.slots[id]
    ensures var s, s' := Run(steps), Run(steps + [Deliver(t, f, o, d, l, e)]); var key := MakeKey(t, f, o);
            (forall id | Oldest(s.slots, key, id) :: s'.log == s.log + [Delivered(Some(id), t, f, o, d, l, e)]) &&
            ((forall id | id in s.slots :: s.slots[id].key != key) ==>
               s' == s.(log := s.log + [Delivered(None, t, f, o, d, l, e)]))
  {
    RunKeeps(steps);
    OneStep(steps, Deliver(t, f, o, d, l, e));
    hide Run, Lawful, AllTold, View, MakeKey, Filled, AfterDeliver, QueuesSound, QueuedHeld, HeldQueued, Oldest;
    DeliverAt(Run(steps), t, f, o, d, l, e);
  }

  lemma DeliverAt(s: State, t: Text, f: Text, o: nat, d: seq<byte>, l: bool, e: Text)
    requires Grouped(s.pending, s.slots)
    ensures var s', key := AfterDeliver(s, t, f, o, d, l, e), MakeKey(t, f, o);
            && s'.slots.Keys == s.slots.Keys
            && (forall id | id in s.slots ::
                  s'.slots[id] == if Oldest(s.slots, key, id) then Filled(s.slots[id], d, l, e) else s.slots[id])
            && (forall id | Oldest(s.slots, key, id) :: s'.log == s.log + [Delivered(Some(id), t, f, o, d, l, e)])
            && ((forall id | id in s.slots :: s.slots[id].key != key) ==>
                  s' == s.(log := s.log + [Delivered(None, t, f, o, d, l, e)]))
  {
    hide MakeKey, Filled, Ascending;
    var key := MakeKey(t, f, o);
    if key in s.pending {
      HeadIsOldest(s, key);
      assert s.pending[key][0] in s.slots;
    }
  }

  /** A cancel marks every request in flight and touches nothing else: with FetchEnds, those without an answer are
      reverted. A request staged after it is not marked. */
  lemma CancelReaches(steps: seq<Step>, t: Text, f: Text, o: nat)
    ensures var s, c := Run(steps), Run(steps + [Cancel]);
            c.pending == s.pending && c.nextId == s.nextId && c.log == s.log + [CancelledAll] && c.slots.Keys == s.slots.Keys &&
            forall id | id in s.slots :: c.slots[id] == s.slots[id].(cancelled := true)
    ensures var s, u := Run(steps), Run(steps + [Stage(t, f, o)]);
            if t == [] || f == [] then u == s
            else u.log == s.log + [Staged(s.nextId, t, f, o)] && s.nextId in u.slots &&
                 u.slots[s.nextId].key == MakeKey(t, f, o) &&
                 !u.slots[s.nextId].received && !u.slots[s.nextId].cancelled &&
                 forall id | id in s.slots :: id in u.slots && u.slots[id] == s.slots[id]
  {
    RunKeeps(steps);
    OneStep(steps, Cancel);
    OneStep(steps, Stage(t, f, o));
    hide Run, Grouped, Lawful, AllTold, View, MakeKey;
  }

  lemma OneStep(steps: seq<Step>, step: Step)
    ensures Run(steps + [step]) == Next(Run(steps), step)
  {
    assert (steps + [step])[..|steps|] == steps;
  }

  /** The last answer to a request among these events. */
  ghost function LastAnswer(log: seq<Entry>, id: nat): Option<Entry> {
    if log == [] then None else
    var e := log[|log| - 1];
    if e.Delivered? && e.to == Some(id) then Some(e) else LastAnswer(log[..|log| - 1], id)
  }

  /** A slot holds the last answer to its request, if any. */
  ghost predicate Answered(log: seq<Entry>, id: nat, slot: Slot) {
    match LastAnswer(Since(log, id), id)
    case None => !slot.received
    case Some(e) =>
      e.Delivered? && slot.received && slot.data == e.data && slot.isLast == e.isLast && slot.error == e.error
  }

  lemma LastAnswerMore(log: seq<Entry>, e: Entry, id: nat)
    ensures LastAnswer(log + [e], id) == if e.Delivered? && e.to == Some(id) then Some(e) else LastAnswer(log, id)
  {
    assert (log + [e])[..|log|] == log;
  }

  lemma AnsweredNext(s: State, step: Step, id: nat)
    requires Inv(s) && id in Next(s, step).slots && (id in s.slots ==> Answered(s.log, id, s.slots[id]))
    ensures Answered(Next(s, step).log, id, Next(s, step).slots[id])
  {
    hide Grouped, Lawful, AllTold, View, EraseFromQueue, MakeKey, LastAnswer, Since;
    var log := Next(s, step).log;
    if log != s.log {
      var e := log[|s.log|];
      assert log == s.log + [e];
      Appended(s.log, e);
      LastAnswerMore(Since(s.log, id), e, id);
      NoAnswers(id);
    }
  }

  lemma NoAnswers(id: nat)
    ensures LastAnswer([], id) == None
  {
  }

  lemma {:induction false} AllAnswered(steps: seq<Step>, id: nat)
    requires id in Run(steps).slots
    ensures Answered(Run(steps).log, id, Run(steps).slots[id])
    decreases |steps|
  {
    if steps != [] {
      hide Next, Inv, Answered;
      var init := steps[..|steps| - 1];
      RunKeeps(init);
      if id in Run(init).slots { AllAnswered(init, id); }
      AnsweredNext(Run(init), steps[|steps| - 1], id);
    }
  }

  /** How a fetch ends, told from the events since it was staged: the last answer to it decides, even when everything was
      cancelled after it; without one a cancelled fetch is reverted and any other has timed out; a quit aborts it in any
      case, and a request that could not be sent fails. */
  lemma FetchEnds(steps: seq<Step>, id: nat, gotQuit: bool)
    requires id in Run(steps).slots
    ensures var s, t := Run(steps), Run(steps + [Finish(id, gotQuit)]); var since := Since(s.log, id);
            id !in t.slots && t.log == s.log + [Finished(id,
              if gotQuit then Aborted
              else match LastAnswer(since, id)
                   case None => if CancelledAll in since then Reverted else Failed
                   case Some(e) => if e.Delivered? && e.error == [] then Ok(e.data, e.isLast) else Failed)]
    ensures var s, t := Run(steps), Run(steps + [SendFailed(id)]);
            id !in t.slots && t.log == s.log + [Finished(id, Failed)]
  {
    AllAnswered(steps, id);
    CancelOnlyEarlier(steps, id);
    OneStep(steps, Finish(id, gotQuit));
    OneStep(steps, SendFailed(id));
    hide Run, Since, LastAnswer, EraseFromQueue;
  }

  /** A fetch that returns S_OK returns what was delivered, after it was staged, under the key it was staged with. */
  lemma FetchReturnsOwnData(steps: seq<Step>, id: nat)
    requires var s := Run(steps); id in s.slots && ResultOf(s.slots[id], false).Ok?
    ensures var s := Run(steps); var r := ResultOf(s.slots[id], false);
            exists t, f, o, to, t', f', o' ::
              Staged(id, t, f, o) in s.log && Delivered(to, t', f', o', r.data, r.isLast, []) in Since(s.log, id) &&
              MakeKey(t, f, o) == MakeKey(t', f', o')
  {
    RunKeeps(steps);
    var s := Run(steps);
    var slot := s.slots[id];
    var t, f, o :| Staged(id, t, f, o) in s.log && MakeKey(t, f, o) == slot.key;
    var to, t', f', o' :| Delivered(to, t', f', o', slot.data, slot.isLast, slot.error) in Since(s.log, id) &&
                          MakeKey(t', f', o') == slot.key;
  }

  type Ids = (Text, Text)  // transfer id and file id

  predicate Stageable(ids: Ids) {
    ids.0 != [] && ids.1 != []
  }

  function Around(ids: Ids): Text {
    ids.0 + [BAR] + ids.1
  }

  /** No two pairs of ids read the same around the bar; a pair that is never staged may only meet itself. */
  ghost predicate Unambiguous(all: iset<Ids>) {
    forall p, q | p in all && q in all && Stageable(p) && Around(p) == Around(q) :: p == q
  }

  /** The run uses only these ids. */
  ghost predicate Over(all: iset<Ids>, steps: seq<Step>) {
    forall step | step in steps && (step.Stage? || step.Deliver?) :: (step.transferId, step.fileId) in all
  }

  /** What the fetch returns was delivered, after it was staged, for its own transfer, file and offset. */
  ghost predicate OwnFile(s: State, id: nat)
    requires id in s.slots && ResultOf(s.slots[id], false).Ok?
  {
    var r := ResultOf(s.slots[id], false);
    exists t, f, o, to ::
      Staged(id, t, f, o) in s.log && Delivered(to, t, f, o, r.data, r.isLast, []) in Since(s.log, id)
  }

  ghost predicate Fetched(s: State, id: nat) {
    id in s.slots && ResultOf(s.slots[id], false).Ok?
  }

  lemma FetchReturnsOwnFile(all: iset<Ids>, steps: seq<Step>, id: nat)
    requires Unambiguous(all) && Over(all, steps) && Fetched(Run(steps), id)
    ensures OwnFile(Run(steps), id)
  {
    hide Run, Since, MakeKey, Around, Unambiguous, Over;
    FetchReturnsOwnData(steps, id);
    var s := Run(steps);
    var r := ResultOf(s.slots[id], false);
    var t, f, o, to, t', f', o' :|
      Staged(id, t, f, o) in s.log && Delivered(to, t', f', o', r.data, r.isLast, []) in Since(s.log, id) &&
      MakeKey(t, f, o) == MakeKey(t', f', o');
    SinceWithin(s.log, id);
    LoggedIds(all, steps);
    SameIds(all, t, f, o, t', f', o');
  }

  lemma SameIds(all: iset<Ids>, t1: Text, f1: Text, o1: nat, t2: Text, f2: Text, o2: nat)
    requires Unambiguous(all) && (t1, f1) in all && (t2, f2) in all && Stageable((t1, f1))
    requires MakeKey(t1, f1, o1) == MakeKey(t2, f2, o2)
    ensures t1 == t2 && f1 == f2 && o1 == o2
  {
    hide MakeKey;
    KeysAgree(t1, f1, o1, t2, f2, o2);
    assert Around((t1, f1)) == Around((t2, f2));
  }

  /** Fetches return their own file in every run over some ids exactly when the ids are unambiguous. */
  lemma OwnFileIffUnambiguous(all: iset<Ids>)
    ensures Unambiguous(all) <==>
            forall steps, id | Over(all, steps) && Fetched(Run(steps), id) :: OwnFile(Run(steps), id)
  {
    if Unambiguous(all) {
      forall steps, id | Over(all, steps) && Fetched(Run(steps), id) ensures OwnFile(Run(steps), id) {
        FetchReturnsOwnFile(all, steps, id);
      }
    } else {
      var p, q :| p in all && q in all && Stageable(p) && Around(p) == Around(q) && p != q;
      var steps := MixedUp(p, q, 0, [1]);
      assert Over(all, steps);
      assert Fetched(Run(steps), 0) && !OwnFile(Run(steps), 0);
    }
  }

  /** Two pairs that read the same: a request for the one is answered with the data of the other. */
  lemma MixedUp(p: Ids, q: Ids, offset: nat, data: seq<byte>) returns (steps: seq<Step>)
    requires Stageable(p) && Around(p) == Around(q) && p != q
    ensures steps == [Stage(p.0, p.1, offset), Deliver(q.0, q.1, offset, data, true, [])]
    ensures Fetched(Run(steps), 0) && ResultOf(Run(steps).slots[0], false) == Ok(data, true) && !OwnFile(Run(steps), 0)
  {
    var stage, deliver := Stage(p.0, p.1, offset), Deliver(q.0, q.1, offset, data, true, []);
    steps := [stage, deliver];
    KeysAgree(p.0, p.1, offset, q.0, q.1, offset);
    assert steps[..1] == [stage] && [stage][..0] == [];
    assert Run([]) == INITIAL;
    var s1 := Run([stage]);
    assert s1 == AfterStage(INITIAL, p.0, p.1, offset);
    assert s1.pending[MakeKey(p.0, p.1, offset)] == [0];
    var s := Run(steps);
    assert s.log == [Staged(0, p.0, p.1, offset), Delivered(Some(0), q.0, q.1, offset, data, true, [])];
    SinceWithin(s.log, 0);
  }

  /** Transfer ids without a bar are unambiguous. */
  lemma BarFreeUnambiguous(all: iset<Ids>)
    requires forall p | p in all :: BAR !in p.0
    ensures Unambiguous(all)
  {
    forall p, q | p in all && q in all && Around(p) == Around(q) ensures p == q {
      FirstBarDecides(p.0, p.1, q.0, q.1);
    }
  }

  lemma {:induction false} SinceWithin(log: seq<Entry>, id: nat)
    ensures forall e | e in Since(log, id) :: e in log
    decreases |log|
  {
    if log != [] {
      SinceWithin(log[..|log| - 1], id);
    }
  }

  lemma {:induction false} LoggedIds(all: iset<Ids>, steps: seq<Step>)
    requires Over(all, steps)
    ensures forall e | e in Run(steps).log && (e.Staged? || e.Delivered?) :: (e.transferId, e.fileId) in all
    ensures forall e | e in Run(steps).log && e.Staged? :: Stageable((e.transferId, e.fileId))
    decreases |steps|
  {
    if steps != [] {
      var init := steps[..|steps| - 1];
      assert steps[|steps| - 1] in steps && forall step | step in init :: step in steps;
      LoggedIds(all, init);
    }
  }

  /** A request is cancelled exactly when CancelAll ran since it was staged: requests staged later are never touched. */
  lemma CancelOnlyEarlier(steps: seq<Step>, id: nat)
    requires id in Run(steps).slots
    ensures Run(steps).slots[id].cancelled <==> CancelledAll in Since(Run(steps).log, id)
    ensures ResultOf(Run(steps).slots[id], false) == Reverted ==> CancelledAll in Since(Run(steps).log, id)
  {
    RunKeeps(steps);
  }

  /** So with a bar inside an id, a fetch can return the data of another file. */
  lemma BarMixesFiles(x: Text, y: Text, z: Text, offset: nat, data: seq<byte>)
    requires x != [] && z != []
    ensures var steps := [Stage(x + [124] + y, z, offset), Deliver(x, y + [124] + z, offset, data, true, [])];
            0 in Run(steps).slots && ResultOf(Run(steps).slots[0], false) == Ok(data, true)
  {
    var p, q := (x + [BAR] + y, z), (x, y + [BAR] + z);
    assert Around(p) == Around(q);
    assert |p.0| > |q.0|;
    var steps := MixedUp(p, q, offset, data);
  }

  predicate Piece(file: seq<byte>, offset: nat, data: seq<byte>) {
    data != [] && offset + |data| <= |file| && data == file[offset..offset + |data|]
  }

  /** Every delivery that is not an error holds a piece of the file it names. */
  ghost predicate TruePieces(files: Ids -> seq<byte>, steps: seq<Step>) {
    forall step | step in steps && step.Deliver? && step.error == [] ::
      Piece(files((step.transferId, step.fileId)), step.offset, step.data)
  }

  /** When every delivery but errors holds a true, non-empty piece of the file it names, so does what a fetch returns. */
  lemma TrueDeliveries(all: iset<Ids>, files: Ids -> seq<byte>, steps: seq<Step>, id: nat)
    returns (transferId: Text, fileId: Text, offset: nat)
    requires Unambiguous(all) && Over(all, steps) && Fetched(Run(steps), id)
    requires TruePieces(files, steps)
    ensures Staged(id, transferId, fileId, offset) in Run(steps).log
    ensures Piece(files((transferId, fileId)), offset, ResultOf(Run(steps).slots[id], false).data)
  {
    FetchReturnsOwnFile(all, steps, id);
    var s := Run(steps);
    var r := ResultOf(s.slots[id], false);
    var to;
    transferId, fileId, offset, to :|
      Staged(id, transferId, fileId, offset) in s.log &&
      Delivered(to, transferId, fileId, offset, r.data, r.isLast, []) in Since(s.log, id);
    SinceWithin(s.log, id);
    LoggedPieces(files, steps);
  }

  /** A request is staged once: its number stands for its transfer, file and offset. */
  lemma {:induction false} StagedOnce(steps: seq<Step>)
    ensures forall e | e in Run(steps).log && e.Staged? :: e.id < Run(steps).nextId
    ensures forall e, f | e in Run(steps).log && f in Run(steps).log && e.Staged? && f.Staged? && e.id == f.id :: e == f
    decreases |steps|
  {
    if steps != [] {
      StagedOnce(steps[..|steps| - 1]);
    }
  }

  lemma {:induction false} LoggedPieces(files: Ids -> seq<byte>, steps: seq<Step>)
    requires TruePieces(files, steps)
    ensures forall e | e in Run(steps).log && e.Delivered? && e.error == [] ::
              Piece(files((e.transferId, e.fileId)), e.offset, e.data)
    decreases |steps|
  {
    if steps != [] {
      var init := steps[..|steps| - 1];
      assert steps[|steps| - 1] in steps && forall step | step in init :: step in steps;
      LoggedPieces(files, init);
    }
  }
}
