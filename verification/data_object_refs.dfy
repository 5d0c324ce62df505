/** References to the data object behind a virtual-file clipboard: one is stored with the published snapshot, chunk
    reads pin one each, and shutdown hands one over for release. Steps are atomic between lock acquisitions; the
    apartment that owns the objects is alive. */
module DataObjectRefs {
  import opened Bytes

  type Text = seq<byte>
  type Obj = nat

  /** A reference in the hands of a thread: the object and the file positions that go with it. */
  datatype Ref = Ref(obj: Obj, lindexes: seq<nat>)

  datatype Entry =
    | AddRef(o: Obj)
    | Release(o: Obj)
    | Use(id: nat, o: Obj, lindexes: seq<nat>)   // a chunk request reads the file at this position of the object
    | Published(o: Obj, lindexes: seq<nat>)      // the snapshot chunk requests now resolve against
    | Withdrawn
    | Pinned(id: nat, o: Obj, fileId: Text, lindex: nat)

  datatype State = State(
    stored: Option<Obj>,         // virtual_data_object_
    lindex: map<Text, nat>,      // virtual_lindex_
    paths: map<Text, Text>,      // file_paths_
    inHand: map<nat, Ref>,       // snapshots read but not yet published
    pins: map<nat, Ref>,         // chunk requests being served
    releasing: map<nat, Ref>,    // taken by shutdown, not yet released
    leaked: multiset<Obj>,       // references nobody holds any more
    log: seq<Entry>)

  const INITIAL := State(None, map[], map[], map[], map[], map[], multiset{}, [])

  // ------------------------------------------------------------- the steps

  /** File ids are positions in decimal. */
  function ById<T>(s: seq<T>): map<Text, T> {
    if s == [] then map[] else ById(s[..|s| - 1])[Decimal(|s| - 1) := s[|s| - 1]]
  }

  /** ReadClipboard found virtual files: the snapshot holds a reference. */
  function AfterRead(s: State, id: nat, o: Obj, lindexes: seq<nat>): State {
    if id in s.inHand then s
    else s.(inHand := s.inHand[id := Ref(o, lindexes)], log := s.log + [AddRef(o)])
  }

  function Dropped(s: State): State {
    if s.stored == None then s
    else s.(stored := None, log := s.log + [Withdrawn, Release(s.stored.value)])
  }

  function AfterFilePaths(s: State, paths: seq<Text>): State {
    Dropped(s).(paths := ById(paths), lindex := map[])
  }

  function AfterVirtualFiles(s: State, o: Obj, lindexes: seq<nat>): State {
    var d := Dropped(s);
    d.(paths := map[], stored := Some(o), lindex := ById(lindexes), log := d.log + [Published(o, lindexes)])
  }

  /** OnClipboardChanged and GetClipboard: a snapshot without virtual files is published as a list of paths, and what it
      holds is forgotten. */
  function AfterPublish(s: State, id: nat, paths: seq<Text>): State {
    if id !in s.inHand then s else
    var r := s.inHand[id];
    var t := s.(inHand := s.inHand - {id});
    if r.lindexes != [] then AfterVirtualFiles(t, r.obj, r.lindexes)
    else AfterFilePaths(t.(leaked := t.leaked + multiset{r.obj}), paths)
  }

  function Resolves(s: State, fileId: Text): bool {
    fileId !in s.paths && fileId in s.lindex && s.stored.Some?
  }

  /** HandleFileChunkRequest under the lock. */
  function AfterPin(s: State, id: nat, fileId: Text): State {
    if id in s.pins || !Resolves(s, fileId) then s else
    var o, l := s.stored.value, s.lindex[fileId];
    s.(pins := s.pins[id := Ref(o, [l])], log := s.log + [Pinned(id, o, fileId, l), AddRef(o)])
  }

  function AfterUse(s: State, id: nat): State {
    if id !in s.pins then s else s.(log := s.log + [Use(id, s.pins[id].obj, s.pins[id].lindexes)])
  }

  function AfterUnpin(s: State, id: nat): State {
    if id !in s.pins then s else s.(pins := s.pins - {id}, log := s.log + [Release(s.pins[id].obj)])
  }

  /** ReleaseStaBoundResources: take the stored reference under the lock, release it on the apartment's thread. */
  function AfterTake(s: State, id: nat): State {
    if id in s.releasing then s
    else if s.stored == None then s.(lindex := map[])
    else s.(stored := None, lindex := map[], releasing := s.releasing[id := Ref(s.stored.value, [])],
            log := s.log + [Withdrawn])
  }

  function AfterHandedOver(s: State, id: nat): State {
    if id !in s.releasing then s
    else s.(releasing := s.releasing - {id}, log := s.log + [Release(s.releasing[id].obj)])
  }

  datatype Step =
    | Read(id: nat, o: Obj, lindexes: seq<nat>)
    | Publish(id: nat, paths: seq<Text>)
    | Paths(paths: seq<Text>)              // a snapshot of files on disk
    | Pin(id: nat, fileId: Text)
    | UsePin(id: nat)
    | Unpin(id: nat)
    | Take(id: nat)
    | HandedOver(id: nat)
    | Destroy                              // the dispatcher goes, and with it a reference still stored

  function Next(s: State, step: Step): State {
    match step
    case Read(id, o, ls) => AfterRead(s, id, o, ls)
    case Publish(id, ps) => AfterPublish(s, id, ps)
    case Paths(ps) => AfterFilePaths(s, ps)
    case Pin(id, f) => AfterPin(s, id, f)
    case UsePin(id) => AfterUse(s, id)
    case Unpin(id) => AfterUnpin(s, id)
    case Take(id) => AfterTake(s, id)
    case HandedOver(id) => AfterHandedOver(s, id)
    case Destroy => Dropped(s)
  }

  function Run(steps: seq<Step>): State {
    if steps == [] then INITIAL else Next(Run(steps[..|steps| - 1]), steps[|steps| - 1])
  }

  /** What is released does not depend on the paths. */
  lemma DroppedPaths(s: State, paths: map<Text, Text>)
    ensures Dropped(s.(paths := paths)) == Dropped(s).(paths := paths)
  {
  }

  // --------------------------------------------------------- the dispatcher

  class Dispatcher {
    var virtualDataObject: Option<Obj>
    var virtualLindex: map<Text, nat>
    var filePaths: map<Text, Text>
    var inHand: map<nat, Ref>
    var pins: map<nat, Ref>
    var releasing: map<nat, Ref>
    ghost var leaked: multiset<Obj>
    var log: seq<Entry>

    ghost function Now(): State
      reads this
    {
      State(virtualDataObject, virtualLindex, filePaths, inHand, pins, releasing, leaked, log)
    }

    constructor ()
      ensures Now() == INITIAL
    {
      virtualDataObject, virtualLindex, filePaths := None, map[], map[];
      inHand, pins, releasing, leaked, log := map[], map[], map[], multiset{}, [];
    }

    /** ReadClipboard for virtual files. */
    method ReadVirtual(id: nat, o: Obj, lindexes: seq<nat>)
      requires id !in inHand
      modifies this
      ensures Now() == AfterRead(old(Now()), id, o, lindexes)
    {
      log := log + [AddRef(o)];
      inHand := inHand[id := Ref(o, lindexes)];
    }

    method UpdateFilePaths(paths: seq<Text>)
      modifies this
      ensures Now() == AfterFilePaths(old(Now()), paths)
    {
      hide Dropped;
      filePaths := map[];
      var i := 0;
      assert paths[..0] == [];
      while i < |paths|
        invariant 0 <= i <= |paths| && filePaths == ById(paths[..i])
        invariant Now() == old(Now()).(paths := filePaths)
      {
        assert paths[..i + 1][..i] == paths[..i];
        filePaths := filePaths[Decimal(i) := paths[i]];
        i := i + 1;
      }
      assert paths[..|paths|] == paths;
      DroppedPaths(old(Now()), filePaths);
      ReleaseStored();
      virtualLindex := map[];
    }

    method UpdateVirtualFiles(o: Obj, lindexById: seq<nat>)
      modifies this
      ensures Now() == AfterVirtualFiles(old(Now()), o, lindexById)
    {
      hide Dropped;
      filePaths := map[];
      DroppedPaths(old(Now()), map[]);
      ReleaseStored();
      virtualDataObject := Some(o);
      log := log + [Published(o, lindexById)];
      virtualLindex := map[];
      var i := 0;
      assert lindexById[..0] == [];
      ghost var before := Now();
      while i < |lindexById|
        invariant 0 <= i <= |lindexById| && virtualLindex == ById(lindexById[..i])
        invariant Now() == before.(lindex := virtualLindex)
      {
        assert lindexById[..i + 1][..i] == lindexById[..i];
        virtualLindex := virtualLindex[Decimal(i) := lindexById[i]];
        i := i + 1;
      }
      assert lindexById[..|lindexById|] == lindexById;
    }

    method ReleaseStored()
      modifies this
      ensures Now() == Dropped(old(Now()))
    {
      if virtualDataObject.Some? {
        log := log + [Withdrawn, Release(virtualDataObject.value)];
        virtualDataObject := None;
      }
    }

    /** The tail of OnClipboardChanged and of GetClipboard. */
    method PublishSnapshot(id: nat, paths: seq<Text>)
      requires id in inHand
      modifies this
      ensures Now() == AfterPublish(old(Now()), id, paths)
    {
      var r := inHand[id];
      inHand := inHand - {id};
      if |r.lindexes| != 0 {
        UpdateVirtualFiles(r.obj, r.lindexes);
      } else {
        leaked := leaked + multiset{r.obj};
        UpdateFilePaths(paths);
      }
    }

    method PinForRequest(id: nat, fileId: Text) returns (pinned: bool)
      requires id !in pins
      modifies this
      ensures Now() == AfterPin(old(Now()), id, fileId) && pinned == Resolves(old(Now()), fileId)
    {
      if fileId in filePaths { return false; }
      if fileId in virtualLindex && virtualDataObject.Some? {
        var vdo, vlindex := virtualDataObject.value, virtualLindex[fileId];
        log := log + [Pinned(id, vdo, fileId, vlindex), AddRef(vdo)];
        pins := pins[id := Ref(vdo, [vlindex])];
        return true;
      }
      return false;
    }

    method ReadVirtualFileChunk(id: nat)
      requires id in pins
      modifies this
      ensures Now() == AfterUse(old(Now()), id)
    {
      log := log + [Use(id, pins[id].obj, pins[id].lindexes)];
    }

    method FinishRequest(id: nat)
      requires id in pins
      modifies this
      ensures Now() == AfterUnpin(old(Now()), id)
    {
      log := log + [Release(pins[id].obj)];
      pins := pins - {id};
    }

    method TakeForShutdown(id: nat)
      requires id !in releasing
      modifies this
      ensures Now() == AfterTake(old(Now()), id)
    {
      if virtualDataObject.Some? {
        log := log + [Withdrawn];
        releasing := releasing[id := Ref(virtualDataObject.value, [])];
      }
      virtualDataObject := None;
      virtualLindex := map[];
    }

    method ReleaseTaken(id: nat)
      requires id in releasing
      modifies this
      ensures Now() == AfterHandedOver(old(Now()), id)
    {
      log := log + [Release(releasing[id].obj)];
      releasing := releasing - {id};
    }

    /** The destructor, for a reference that shutdown did not take. */
    method Destroy()
      modifies this
      ensures Now() == Dropped(old(Now()))
    {
      ReleaseStored();
    }
  }

  // ----------------------------------------------------------- the history

  /** References the helper has taken to o and not given back. */
  function Count(log: seq<Entry>, o: Obj): int {
    if log == [] then 0 else
    var e := log[|log| - 1];
    Count(log[..|log| - 1], o) + (if e == AddRef(o) then 1 else if e == Release(o) then -1 else 0)
  }

  /** The snapshot file ids resolve against. */
  function LastPublished(log: seq<Entry>): Option<Ref> {
    if log == [] then None else
    match log[|log| - 1]
    case Published(o, ls) => Some(Ref(o, ls))
    case Withdrawn => None
    case _ => LastPublished(log[..|log| - 1])
  }

  /** What request `id` pinned last. */
  function LastPin(log: seq<Entry>, id: nat): Option<Ref> {
    if log == [] then None else
    var e := log[|log| - 1];
    if e.Pinned? && e.id == id then Some(Ref(e.o, [e.lindex])) else LastPin(log[..|log| - 1], id)
  }

  /** The id spells a position of the snapshot, and the object and file position there are these. */
  ghost predicate Names(snapshot: Option<Ref>, fileId: Text, o: Obj, lindex: nat) {
    snapshot.Some? && snapshot.value.obj == o &&
    exists k :: 0 <= k < |snapshot.value.lindexes| && fileId == Decimal(k) && snapshot.value.lindexes[k] == lindex
  }

  ghost predicate Justified(log: seq<Entry>, e: Entry) {
    match e
    case Release(o) => Count(log, o) > 0
    case Use(id, o, ls) => Count(log, o) > 0 && LastPin(log, id) == Some(Ref(o, ls))
    case Pinned(_, o, fileId, lindex) =>
      Count(log, o) > 0 && Names(LastPublished(log), fileId, o, lindex)
    case _ => true
  }

  ghost predicate Lawful(log: seq<Entry>) {
    log == [] || (Lawful(log[..|log| - 1]) && Justified(log[..|log| - 1], log[|log| - 1]))
  }

  lemma Appended(log: seq<Entry>, e: Entry)
    ensures forall o :: Count(log + [e], o) ==
              Count(log, o) + (if e == AddRef(o) then 1 else if e == Release(o) then -1 else 0)
    ensures LastPublished(log + [e]) ==
            if e.Published? then Some(Ref(e.o, e.lindexes)) else if e.Withdrawn? then None else LastPublished(log)
    ensures forall id :: LastPin(log + [e], id) ==
              if e.Pinned? && e.id == id then Some(Ref(e.o, [e.lindex])) else LastPin(log, id)
    ensures Lawful(log + [e]) <==> Lawful(log) && Justified(log, e)
  {
    assert (log + [e])[..|log|] == log;
  }

  ghost function Holders(m: map<nat, Ref>, o: Obj): set<nat> {
    set i | i in m && m[i].obj == o
  }

  ghost function Held(m: map<nat, Ref>, o: Obj): nat {
    |Holders(m, o)|
  }

  lemma HeldAdd(m: map<nat, Ref>, id: nat, r: Ref)
    requires id !in m
    ensures forall o :: Held(m[id := r], o) == Held(m, o) + if r.obj == o then 1 else 0
  {
    forall o ensures Held(m[id := r], o) == Held(m, o) + if r.obj == o then 1 else 0 {
      assert Holders(m[id := r], o) == if r.obj == o then Holders(m, o) + {id} else Holders(m, o);
    }
  }

  lemma HeldRemove(m: map<nat, Ref>, id: nat)
    requires id in m
    ensures forall o :: Held(m, o) == Held(m - {id}, o) + if m[id].obj == o then 1 else 0
  {
    assert (m - {id})[id := m[id]] == m;
    HeldAdd(m - {id}, id, m[id]);
  }

  /** References that somebody answers for. */
  ghost function Owned(s: State, o: Obj): nat {
    (if s.stored == Some(o) then 1 else 0) + Held(s.inHand, o) + Held(s.pins, o) + Held(s.releasing, o)
  }

  ghost predicate Balanced(s: State) {
    forall o :: Count(s.log, o) == Owned(s, o) + s.leaked[o]
  }

  ghost predicate Current(s: State) {
    && (s.stored.Some? <==> LastPublished(s.log).Some?)
    && (s.stored.Some? ==> LastPublished(s.log).value.obj == s.stored.value &&
                           s.lindex == ById(LastPublished(s.log).value.lindexes) && s.paths == map[])
  }

  ghost predicate PinsLogged(s: State) {
    forall id | id in s.pins :: LastPin(s.log, id) == Some(s.pins[id])
  }

  ghost predicate Inv(s: State) {
    Lawful(s.log) && Balanced(s) && Current(s) && PinsLogged(s)
  }

  /** A file id stands for the position it spells, and for no other. */
  lemma {:induction false} ByIdResolves<T>(s: seq<T>, fileId: Text)
    ensures fileId in ById(s) <==> exists i :: 0 <= i < |s| && fileId == Decimal(i)
    ensures forall i | 0 <= i < |s| :: Decimal(i) in ById(s) && ById(s)[Decimal(i)] == s[i]
    decreases |s|
  {
    if s != [] {
      var init := s[..|s| - 1];
      ByIdResolves(init, fileId);
      forall i | 0 <= i < |s| ensures Decimal(i) in ById(s) && ById(s)[Decimal(i)] == s[i] {
        if Decimal(i) == Decimal(|s| - 1) { DecimalInjective(i, |s| - 1); }
      }
      if i :| 0 <= i < |s| && fileId == Decimal(i) {
        assert fileId in ById(s);
      }
      if fileId in ById(s) {
        if fileId == Decimal(|s| - 1) {
          var i := |s| - 1;
          assert 0 <= i < |s| && fileId == Decimal(i);
        } else {
          var i :| 0 <= i < |init| && fileId == Decimal(i);
          assert 0 <= i < |s|;
        }
      }
    }
  }

  // ------------------------------------------------------ every step keeps

  lemma KeepRead(s: State, id: nat, o: Obj, lindexes: seq<nat>)
    requires Inv(s)
    ensures Inv(AfterRead(s, id, o, lindexes))
  {
    if id !in s.inHand {
      hide Count, Lawful, LastPublished, LastPin, Held;
      Appended(s.log, AddRef(o));
      HeldAdd(s.inHand, id, Ref(o, lindexes));
    }
  }

  /** Giving back the stored reference, as far as the log tells. */
  lemma WithdrawRelease(log: seq<Entry>, o: Obj)
    requires Lawful(log) && Count(log, o) > 0
    ensures var after := log + [Withdrawn, Release(o)];
            && Lawful(after) && LastPublished(after) == None
            && (forall x :: Count(after, x) == Count(log, x) - if x == o then 1 else 0)
            && (forall id :: LastPin(after, id) == LastPin(log, id))
  {
    hide Count, Lawful, LastPublished, LastPin;
    Appended(log, Withdrawn);
    Appended(log + [Withdrawn], Release(o));
    assert log + [Withdrawn] + [Release(o)] == log + [Withdrawn, Release(o)];
  }

  /** References that are in no table, such as one somebody still holds in his hand, are not part of what drops. */
  lemma DropWith(s: State, extra: multiset<Obj>)
    requires Lawful(s.log) && Current(s) && PinsLogged(s)
    requires forall x :: Count(s.log, x) == Owned(s, x) + s.leaked[x] + extra[x]
    ensures var d := Dropped(s);
            Lawful(d.log) && PinsLogged(d) && Current(d) && d.stored == None &&
            forall x :: Count(d.log, x) == Owned(d, x) + d.leaked[x] + extra[x]
  {
    hide Count, Lawful, LastPublished, LastPin, Held;
    if s.stored.Some? {
      assert Owned(s, s.stored.value) > 0 && Count(s.log, s.stored.value) > 0;
      WithdrawRelease(s.log, s.stored.value);
    }
  }

  lemma KeepPaths(s: State, paths: seq<Text>)
    requires Inv(s)
    ensures Inv(AfterFilePaths(s, paths))
  {
    hide Count, Lawful, LastPublished, LastPin, Held, Dropped;
    DropWith(s, multiset{});
  }

  /** Everything is in its place but one reference to o, which somebody holds in his hand. */
  ghost predicate OneInHand(s: State, o: Obj) {
    Lawful(s.log) && Current(s) && PinsLogged(s) &&
    forall x :: Count(s.log, x) == Owned(s, x) + s.leaked[x] + multiset{o}[x]
  }

  lemma TakeInHand(s: State, id: nat)
    requires Inv(s) && id in s.inHand
    ensures OneInHand(s.(inHand := s.inHand - {id}), s.inHand[id].obj)
  {
    hide Count, Lawful, LastPublished, LastPin, Held;
    HeldRemove(s.inHand, id);
  }

  lemma KeepVirtual(s: State, o: Obj, lindexes: seq<nat>)
    requires OneInHand(s, o)
    ensures Inv(AfterVirtualFiles(s, o, lindexes))
  {
    hide Count, Lawful, LastPublished, LastPin, Held, Dropped;
    DropWith(s, multiset{o});
    Appended(Dropped(s).log, Published(o, lindexes));
  }

  lemma KeepForgotten(s: State, o: Obj)
    requires OneInHand(s, o)
    ensures Inv(s.(leaked := s.leaked + multiset{o}))
  {
    hide Count, Lawful, LastPublished, LastPin, Held;
  }

  lemma KeepPublish(s: State, id: nat, paths: seq<Text>)
    requires Inv(s)
    ensures Inv(AfterPublish(s, id, paths))
  {
    if id in s.inHand {
      hide Inv, OneInHand, AfterVirtualFiles, AfterFilePaths;
      var r, t := s.inHand[id], s.(inHand := s.inHand - {id});
      TakeInHand(s, id);
      if r.lindexes != [] {
        KeepVirtual(t, r.obj, r.lindexes);
      } else {
        KeepForgotten(t, r.obj);
        KeepPaths(t.(leaked := t.leaked + multiset{r.obj}), paths);
      }
    }
  }

  lemma KeepPin(s: State, id: nat, fileId: Text)
    requires Inv(s)
    ensures Inv(AfterPin(s, id, fileId))
  {
    if id !in s.pins && Resolves(s, fileId) {
      var o, l := s.stored.value, s.lindex[fileId];
      ByIdResolves(LastPublished(s.log).value.lindexes, fileId);
      var log := s.log + [Pinned(id, o, fileId, l)];
      hide Count, Lawful, LastPublished, LastPin, Held, ById;
      assert Justified(s.log, Pinned(id, o, fileId, l)) by {
        assert Count(s.log, o) > 0;
      }
      Appended(s.log, Pinned(id, o, fileId, l));
      Appended(log, AddRef(o));
      HeldAdd(s.pins, id, Ref(o, [l]));
      assert log + [AddRef(o)] == s.log + [Pinned(id, o, fileId, l), AddRef(o)];
    }
  }

  lemma HolderHasOne(m: map<nat, Ref>, id: nat)
    requires id in m
    ensures Held(m, m[id].obj) > 0
  {
    HeldRemove(m, id);
  }

  lemma KeepUse(s: State, id: nat)
    requires Inv(s)
    ensures Inv(AfterUse(s, id))
  {
    if id in s.pins {
      hide Count, Lawful, LastPublished, LastPin, Held;
      HolderHasOne(s.pins, id);
      Appended(s.log, Use(id, s.pins[id].obj, s.pins[id].lindexes));
    }
  }

  lemma KeepUnpin(s: State, id: nat)
    requires Inv(s)
    ensures Inv(AfterUnpin(s, id))
  {
    if id in s.pins {
      hide Count, Lawful, LastPublished, LastPin, Held;
      HeldRemove(s.pins, id);
      Appended(s.log, Release(s.pins[id].obj));
    }
  }

  lemma KeepTake(s: State, id: nat)
    requires Inv(s)
    ensures Inv(AfterTake(s, id))
  {
    if id !in s.releasing && s.stored.Some? {
      hide Count, Lawful, LastPublished, LastPin, Held;
      HeldAdd(s.releasing, id, Ref(s.stored.value, []));
      Appended(s.log, Withdrawn);
    }
  }

  lemma KeepHandedOver(s: State, id: nat)
    requires Inv(s)
    ensures Inv(AfterHandedOver(s, id))
  {
    if id in s.releasing {
      hide Count, Lawful, LastPublished, LastPin, Held;
      HeldRemove(s.releasing, id);
      Appended(s.log, Release(s.releasing[id].obj));
    }
  }

  lemma KeepDestroy(s: State)
    requires Inv(s)
    ensures Inv(Dropped(s))
  {
    hide Count, Lawful, LastPublished, LastPin, Held, Dropped;
    DropWith(s, multiset{});
  }

  lemma NextKeeps(s: State, step: Step)
    requires Inv(s)
    ensures Inv(Next(s, step))
  {
    hide Inv;
    match step {
      case Read(id, o, ls) => KeepRead(s, id, o, ls);
      case Publish(id, ps) => KeepPublish(s, id, ps);
      case Paths(ps) => KeepPaths(s, ps);
      case Pin(id, f) => KeepPin(s, id, f);
      case UsePin(id) => KeepUse(s, id);
      case Unpin(id) => KeepUnpin(s, id);
      case Take(id) => KeepTake(s, id);
      case HandedOver(id) => KeepHandedOver(s, id);
      case Destroy => KeepDestroy(s);
    }
  }

  lemma StartKeeps()
    ensures Inv(INITIAL)
  {
    forall o ensures Owned(INITIAL, o) == 0 {
      assert Holders(map[], o) == {};
    }
  }

  lemma {:induction false} RunKeeps(steps: seq<Step>)
    ensures Inv(Run(steps))
    decreases |steps|
  {
    hide Next, Inv;
    if steps == [] {
      StartKeeps();
    } else {
      RunKeeps(steps[..|steps| - 1]);
      NextKeeps(Run(steps[..|steps| - 1]), steps[|steps| - 1]);
    }
  }

  lemma {:induction false} LawfulAt(log: seq<Entry>, i: nat)
    requires Lawful(log) && i < |log|
    ensures Justified(log[..i], log[i])
    decreases |log|
  {
    if i < |log| - 1 {
      LawfulAt(log[..|log| - 1], i);
      assert log[..|log| - 1][..i] == log[..i];
    }
  }

  // ------------------------------------------------------- the main results

  /** Reference conservation, in every interleaving: the references taken to an object and not given back are one if
      it is stored, one for each snapshot, chunk read and shutdown that holds it, and the forgotten ones. */
  lemma ReferencesConserved(steps: seq<Step>, o: Obj)
    ensures var s := Run(steps); Count(s.log, o) == Owned(s, o) + s.leaked[o]
  {
    RunKeeps(steps);
  }

  /** No read and no release goes to an object without a reference. */
  lemma NeverUsedDead(steps: seq<Step>, i: nat)
    requires i < |Run(steps).log|
    ensures var log := Run(steps).log;
            (log[i].Use? || log[i].Release?) ==> Count(log[..i], log[i].o) > 0
  {
    RunKeeps(steps);
    LawfulAt(Run(steps).log, i);
  }

  /** A chunk request pins the file its id was published for: the position it spells in the current snapshot. */
  lemma PinsFollowSnapshot(steps: seq<Step>, i: nat, id: nat, o: Obj, fileId: Text, lindex: nat)
    requires i < |Run(steps).log| && Run(steps).log[i] == Pinned(id, o, fileId, lindex)
    ensures Names(LastPublished(Run(steps).log[..i]), fileId, o, lindex)
  {
    RunKeeps(steps);
    LawfulAt(Run(steps).log, i);
  }

  lemma OneStep(steps: seq<Step>, step: Step)
    ensures Run(steps + [step]) == Next(Run(steps), step)
  {
    assert (steps + [step])[..|steps|] == steps;
  }

  lemma PinAt(s: State, id: nat, fileId: Text, k: nat)
    requires Inv(s) && id !in s.pins && LastPublished(s.log).Some?
    requires k < |LastPublished(s.log).value.lindexes| && fileId == Decimal(k)
    ensures var t, p := Next(s, Pin(id, fileId)), LastPublished(s.log).value;
            t.pins == s.pins[id := Ref(p.obj, [p.lindexes[k]])] &&
            t.log == s.log + [Pinned(id, p.obj, fileId, p.lindexes[k]), AddRef(p.obj)]
  {
    hide Lawful, Balanced, PinsLogged, LastPublished, ById, Decimal;
    ByIdResolves(LastPublished(s.log).value.lindexes, fileId);
  }

  lemma NoPinAt(s: State, id: nat, fileId: Text)
    requires Inv(s)
    requires var p := LastPublished(s.log);
             p.Some? ==> forall k: nat | k < |p.value.lindexes| :: fileId != Decimal(k)
    ensures Next(s, Pin(id, fileId)) == s
  {
    hide Lawful, Balanced, PinsLogged, LastPublished, ById, Decimal;
    var p := LastPublished(s.log);
    if p.Some? { ByIdResolves(p.value.lindexes, fileId); }
  }

  /** A request is served for exactly the positions of the published snapshot: the k-th id pins the k-th file of its
      object, and any other id, or any id without a snapshot, pins nothing. */
  lemma PinServed(steps: seq<Step>, id: nat, fileId: Text)
    requires id !in Run(steps).pins
    ensures var s, t := Run(steps), Run(steps + [Pin(id, fileId)]); var p := LastPublished(s.log);
            && (forall k: nat | p.Some? && k < |p.value.lindexes| && fileId == Decimal(k) ::
                  t.pins == s.pins[id := Ref(p.value.obj, [p.value.lindexes[k]])] &&
                  t.log == s.log + [Pinned(id, p.value.obj, fileId, p.value.lindexes[k]), AddRef(p.value.obj)])
            && ((p.Some? ==> forall k: nat | k < |p.value.lindexes| :: fileId != Decimal(k)) ==> t == s)
  {
    RunKeeps(steps);
    OneStep(steps, Pin(id, fileId));
    hide Run, Next, Inv, LastPublished, Decimal;
    var s := Run(steps);
    var p := LastPublished(s.log);
    if p == None || forall k: nat | k < |p.value.lindexes| :: fileId != Decimal(k) {
      NoPinAt(s, id, fileId);
    }
    forall k: nat | p.Some? && k < |p.value.lindexes| && fileId == Decimal(k)
      ensures var t := Run(steps + [Pin(id, fileId)]);
              t.pins == s.pins[id := Ref(p.value.obj, [p.value.lindexes[k]])] &&
              t.log == s.log + [Pinned(id, p.value.obj, fileId, p.value.lindexes[k]), AddRef(p.value.obj)]
    {
      PinAt(s, id, fileId, k);
    }
  }

  lemma OnePinStays(s: State, step: Step, id: nat)
    requires id in s.pins && step != Unpin(id)
    ensures id in Next(s, step).pins && Next(s, step).pins[id] == s.pins[id]
  {
  }

  /** Nothing but its own end takes a pin away, whatever is published meanwhile. */
  lemma {:induction false} PinStays(steps: seq<Step>, more: seq<Step>, id: nat)
    requires id in Run(steps).pins && Unpin(id) !in more
    ensures var t := Run(steps + more); id in t.pins && t.pins[id] == Run(steps).pins[id]
    decreases |more|
  {
    hide Run, Next;
    if more == [] {
      assert steps + more == steps;
    } else {
      var n := |more| - 1;
      assert more[n] in more;
      PinStays(steps, more[..n], id);
      assert steps + more == steps + more[..n] + [more[n]];
      OneStep(steps + more[..n], more[n]);
      OnePinStays(Run(steps + more[..n]), more[n], id);
    }
  }

  /** A request for the k-th file of the published snapshot reads that file and gives its reference back, even if other
      snapshots are published or the dispatcher shuts down in between. */
  lemma RequestServed(steps: seq<Step>, id: nat, k: nat, more: seq<Step>)
    requires id !in Run(steps).pins && Unpin(id) !in more
    requires var p := LastPublished(Run(steps).log); p.Some? && k < |p.value.lindexes|
    ensures var p := LastPublished(Run(steps).log).value; var pinned := steps + [Pin(id, Decimal(k))] + more;
            Run(pinned + [UsePin(id)]).log == Run(pinned).log + [Use(id, p.obj, [p.lindexes[k]])] &&
            Run(pinned + [Unpin(id)]).log == Run(pinned).log + [Release(p.obj)] &&
            id !in Run(pinned + [Unpin(id)]).pins
  {
    hide Run, Next, LastPublished, Decimal;
    var pinned := steps + [Pin(id, Decimal(k))] + more;
    PinServed(steps, id, Decimal(k));
    PinStays(steps + [Pin(id, Decimal(k))], more, id);
    OneStep(pinned, UsePin(id));
    OneStep(pinned, Unpin(id));
    PinEnds(Run(pinned), id);
  }

  lemma PinEnds(s: State, id: nat)
    requires id in s.pins
    ensures Next(s, UsePin(id)).log == s.log + [Use(id, s.pins[id].obj, s.pins[id].lindexes)]
    ensures Next(s, Unpin(id)).log == s.log + [Release(s.pins[id].obj)] && id !in Next(s, Unpin(id)).pins
  {
  }

  /** A snapshot read takes one reference to its object; published with files it is what requests resolve against,
      published without any it leaves requests nothing, as does a list of paths. */
  lemma SnapshotPublished(steps: seq<Step>, id: nat, o: Obj, lindexes: seq<nat>, paths: seq<Text>)
    requires id !in Run(steps).inHand
    ensures var read := steps + [Read(id, o, lindexes)]; var t := Run(read + [Publish(id, paths)]);
            Run(read).log == Run(steps).log + [AddRef(o)] &&
            LastPublished(t.log) == (if lindexes == [] then None else Some(Ref(o, lindexes))) && id !in t.inHand
    ensures LastPublished(Run(steps + [Paths(paths)]).log) == None
  {
    var read := steps + [Read(id, o, lindexes)];
    OneStep(steps, Read(id, o, lindexes));
    OneStep(read, Publish(id, paths));
    OneStep(steps, Paths(paths));
    RunKeeps(steps);
    RunKeeps(read);
    RunKeeps(read + [Publish(id, paths)]);
    RunKeeps(steps + [Paths(paths)]);
    hide Run, Lawful, Balanced, PinsLogged, LastPublished, ById;
    var t := Run(read);
    if lindexes != [] {
      Appended(Dropped(t.(inHand := t.inHand - {id})).log, Published(o, lindexes));
    }
  }

  /** A list of paths is what requests then find: the k-th path under the k-th id, nothing under any other, and no virtual
      file. */
  lemma PathsPublished(steps: seq<Step>, paths: seq<Text>, fileId: Text)
    ensures var t := Run(steps + [Paths(paths)]);
            && t.stored == None && t.lindex == map[]
            && (fileId in t.paths <==> exists k :: 0 <= k < |paths| && fileId == Decimal(k))
            && (forall k | 0 <= k < |paths| :: Decimal(k) in t.paths && t.paths[Decimal(k)] == paths[k])
  {
    OneStep(steps, Paths(paths));
    ByIdResolves(paths, fileId);
    hide Run, ById, Decimal;
  }

  /** Shutdown takes the stored reference away from requests and then gives it back; without it the destructor does. */
  lemma ShutdownReleases(steps: seq<Step>, id: nat)
    requires id !in Run(steps).releasing && Run(steps).stored.Some?
    ensures var s, t := Run(steps), Run(steps + [Take(id)]);
            t.stored == None && t.lindex == map[] && LastPublished(t.log) == None && t.log == s.log + [Withdrawn] &&
            Run(steps + [Take(id)] + [HandedOver(id)]).log == t.log + [Release(s.stored.value)]
    ensures var s, t := Run(steps), Run(steps + [Destroy]);
            t.stored == None && t.log == s.log + [Withdrawn, Release(s.stored.value)]
  {
    OneStep(steps, Destroy);
    OneStep(steps, Take(id));
    OneStep(steps + [Take(id)], HandedOver(id));
    Appended(Run(steps).log, Withdrawn);
    hide Run, LastPublished;
  }

  lemma {:induction false} PinOf(log: seq<Entry>, id: nat, r: Ref) returns (j: nat, fileId: Text, lindex: nat)
    requires LastPin(log, id) == Some(r)
    ensures j < |log| && log[j] == Pinned(id, r.obj, fileId, lindex) && r.lindexes == [lindex]
    ensures forall k | j < k < |log| :: !(log[k].Pinned? && log[k].id == id)
    decreases |log|
  {
    var n := |log| - 1;
    if log[n].Pinned? && log[n].id == id {
      j, fileId, lindex := n, log[n].fileId, log[n].lindex;
    } else {
      j, fileId, lindex := PinOf(log[..n], id, r);
    }
  }

  lemma UseOf(log: seq<Entry>, i: nat, id: nat, o: Obj, lindexes: seq<nat>)
    returns (j: nat, fileId: Text, lindex: nat)
    requires Lawful(log) && i < |log| && log[i] == Use(id, o, lindexes)
    ensures j < i && log[j] == Pinned(id, o, fileId, lindex) && lindexes == [lindex] && Count(log[..i], o) > 0
    ensures forall k | j < k < i :: !(log[k].Pinned? && log[k].id == id)
  {
    LawfulAt(log, i);
    hide Lawful, Count, LastPublished, LastPin;
    var before := log[..i];
    j, fileId, lindex := PinOf(before, id, Ref(o, lindexes));
    forall k | j < k < i ensures !(log[k].Pinned? && log[k].id == id) {
      assert before[k] == log[k];
    }
  }

  /** And it reads that file: the object and the position of its own last pin, with a reference to the object, even if
      another snapshot was published in between. */
  lemma UsesFollowPins(steps: seq<Step>, i: nat, id: nat, o: Obj, lindexes: seq<nat>)
    returns (j: nat, fileId: Text, lindex: nat)
    requires i < |Run(steps).log| && Run(steps).log[i] == Use(id, o, lindexes)
    ensures var log := Run(steps).log;
            && j < i && log[j] == Pinned(id, o, fileId, lindex) && lindexes == [lindex] && Count(log[..i], o) > 0
            && (forall k | j < k < i :: !(log[k].Pinned? && log[k].id == id))
    ensures Names(LastPublished(Run(steps).log[..j]), fileId, o, lindex)
  {
    RunKeeps(steps);
    hide Run, Lawful, Count, LastPublished, Names;
    j, fileId, lindex := UseOf(Run(steps).log, i, id, o, lindexes);
    PinsFollowSnapshot(steps, j, id, o, fileId, lindex);
  }

  /** A snapshot with a data object and no virtual file is published as paths, and its reference is lost. */
  predicate Forgets(s: State, step: Step) {
    step.Publish? && step.id in s.inHand && s.inHand[step.id].lindexes == []
  }

  predicate ForgetsAt(steps: seq<Step>, k: nat) {
    k < |steps| && Forgets(Run(steps[..k]), steps[k])
  }

  lemma LeakStep(s: State, step: Step)
    ensures Next(s, step).leaked != multiset{} <==> s.leaked != multiset{} || Forgets(s, step)
  {
    if Forgets(s, step) {
      assert s.inHand[step.id].obj in Next(s, step).leaked;
    }
  }

  lemma {:induction false} LeaksExactly(steps: seq<Step>)
    ensures Run(steps).leaked != multiset{} <==> exists k :: ForgetsAt(steps, k)
    decreases |steps|
  {
    hide Forgets, Next;
    if steps != [] {
      var n := |steps| - 1;
      var init := steps[..n];
      LeaksExactly(init);
      LeakStep(Run(init), steps[n]);
      forall k: nat | k < n ensures ForgetsAt(init, k) <==> ForgetsAt(steps, k) {
        assert init[..k] == steps[..k];
      }
      assert Forgets(Run(init), steps[n]) <==> ForgetsAt(steps, n);
    } else {
      assert forall k :: !ForgetsAt(steps, k);
    }
  }

  predicate Idle(s: State) {
    s.stored == None && s.inHand == map[] && s.pins == map[] && s.releasing == map[]
  }

  ghost predicate AllReturned(log: seq<Entry>) {
    forall o :: Count(log, o) == 0
  }

  /** After everything is finished every reference has been given back exactly once, unless a snapshot without virtual
      files was published: then, and only then, some object keeps one. */
  lemma IdleBalanced(steps: seq<Step>)
    requires Idle(Run(steps))
    ensures AllReturned(Run(steps).log) <==> !exists k :: ForgetsAt(steps, k)
  {
    hide Run, Next, ForgetsAt, Lawful, Count, LastPublished, LastPin, Owned;
    var s := Run(steps);
    RunKeeps(steps);
    LeaksExactly(steps);
    forall o ensures Count(s.log, o) == s.leaked[o] {
      NobodyOwns(s, o);
    }
    if s.leaked != multiset{} {
      var o :| o in s.leaked;
      assert Count(s.log, o) > 0 && !AllReturned(s.log);
    } else {
      assert AllReturned(s.log);
    }
  }

  lemma NobodyOwns(s: State, o: Obj)
    requires Idle(s)
    ensures Owned(s, o) == 0
  {
    assert Holders(map[], o) == {};
  }

  /** Such a run: a snapshot with an object and no virtual file is read and published; all is finished, and the object
      keeps a reference. */
  lemma LeakHappens(o: Obj)
    ensures var steps := [Read(0, o, []), Publish(0, [])];
            Idle(Run(steps)) && ForgetsAt(steps, 1) && Count(Run(steps).log, o) == 1
  {
    var read, publish := Read(0, o, []), Publish(0, []);
    var steps := [read, publish];
    assert steps[..1] == [read] && [read][..0] == [];
    var s1 := Run([read]);
    assert Run([]) == INITIAL;
    assert s1 == INITIAL.(inHand := map[0 := Ref(o, [])], log := [AddRef(o)]);
    assert Run(steps).inHand == map[];
    assert Run(steps).log == [AddRef(o)];
    assert [AddRef(o)][..0] == [];
    assert Count([], o) == 0;
  }
}
