/** The macOS coordinator of downloads: each runs under a key made of its transfer and file id, and a reply finds its
    download by that key. Steps are the blocks on the coordinator's serial queue. */
module TransferCoordinator {
  import opened Bytes
  import opened FileDownload

  type Text = seq<byte>
  type Ids = (Text, Text)       // transfer id and file id
  type Request = (Ids, nat)     // a FILE_CHUNK_REQUEST: ids and offset

  const SLASH: byte := 47

  function Key(ids: Ids): Text {
    ids.0 + [SLASH] + ids.1
  }

  /** A download, with the offsets of the replies that reached it while it was live. */
  datatype Download = Download(ids: Ids, task: Task, order: seq<nat>)

  datatype State = State(
    tasks: seq<Download>,         // every download ever started
    downloads: map<Text, nat>,    // the one registered under a key
    removed: set<nat>,            // those whose completion has taken its key out
    open: multiset<Request>)      // requests the parent has not answered

  const INITIAL := State([], map[], {}, multiset{})

  // ------------------------------------------------------------- the steps

  function Requests(ids: Ids, offsets: seq<nat>): multiset<Request> {
    if offsets == [] then multiset{}
    else Requests(ids, offsets[..|offsets| - 1]) + multiset{(ids, offsets[|offsets| - 1])}
  }

  /** What a task has sent between two moments. */
  function NewSends(before: Task, after: Task): seq<nat> {
    if |before.sent| <= |after.sent| then after.sent[|before.sent|..] else []
  }

  ghost predicate Indexed(s: State) {
    forall k | k in s.downloads :: s.downloads[k] < |s.tasks|
  }

  /** A second start under one key takes the key over. */
  function AfterStart(s: State, ids: Ids, fileSize: nat, canOpen: bool): State {
    var t := StartTask(NewTask(fileSize), canOpen);
    s.(tasks := s.tasks + [Download(ids, t, [])], downloads := s.downloads[Key(ids) := |s.tasks|],
       open := s.open + Requests(ids, t.sent))
  }

  function Handled(d: Download, c: Chunk, write: WriteFate): Download {
    if d.task.cancelled || d.task.finished then d
    else d.(task := HandleChunk(d.task, c, write), order := d.order + [c.offset])
  }

  function AfterArrive(s: State, ids: Ids, c: Chunk, write: WriteFate): State
    requires Indexed(s)
  {
    var t := s.(open := s.open - multiset{(ids, c.offset)});
    if Key(ids) !in s.downloads then t else
    var n := s.downloads[Key(ids)];
    var d, d' := s.tasks[n], Handled(s.tasks[n], c, write);
    t.(tasks := s.tasks[n := d'], open := t.open + Requests(d.ids, NewSends(d.task, d'.task)))
  }

  /** The wrapped completion of a finished download takes out its key, whichever download is registered there by now. */
  function AfterRemove(s: State, n: nat): State {
    if n >= |s.tasks| || !s.tasks[n].task.finished || n in s.removed then s
    else s.(downloads := s.downloads - {Key(s.tasks[n].ids)}, removed := s.removed + {n})
  }

  predicate OfTransfer(key: Text, transferId: Text) {
    transferId + [SLASH] <= key
  }

  function Victims(s: State, transferId: Text): set<nat> {
    set k | k in s.downloads && OfTransfer(k, transferId) :: s.downloads[k]
  }

  function AfterCancel(s: State, transferId: Text): State {
    var victims := Victims(s, transferId);
    s.(tasks := seq(|s.tasks|, i requires 0 <= i < |s.tasks| =>
                      if i in victims then s.tasks[i].(task := CancelTask(s.tasks[i].task)) else s.tasks[i]),
       downloads := map k | k in s.downloads && !OfTransfer(k, transferId) :: s.downloads[k])
  }

  datatype Step =
    | Start(ids: Ids, fileSize: nat, canOpen: bool)
    | Arrive(ids: Ids, chunk: Chunk, write: WriteFate)
    | Remove(n: nat)
    | Cancel(transferId: Text)

  function Next(s: State, step: Step): (t: State)
    requires Indexed(s)
    ensures Indexed(t)
  {
    match step
    case Start(ids, size, canOpen) => AfterStart(s, ids, size, canOpen)
    case Arrive(ids, c, w) => AfterArrive(s, ids, c, w)
    case Remove(n) => AfterRemove(s, n)
    case Cancel(tid) => AfterCancel(s, tid)
  }

  function Run(steps: seq<Step>): (s: State)
    ensures Indexed(s)
  {
    if steps == [] then INITIAL else Next(Run(steps[..|steps| - 1]), steps[|steps| - 1])
  }

  // -------------------------------------------------------- the coordinator

  class FileTransferCoordinator {
    var tasks: seq<Download>
    var downloads: map<Text, nat>
    ghost var removed: set<nat>
    ghost var open: multiset<Request>

    ghost function Now(): State
      reads this
    {
      State(tasks, downloads, removed, open)
    }

    constructor ()
      ensures Now() == INITIAL
    {
      tasks, downloads, removed, open := [], map[], {}, multiset{};
    }

    method StartFileDownload(ids: Ids, fileSize: nat, canOpen: bool)
      modifies this
      ensures Now() == AfterStart(old(Now()), ids, fileSize, canOpen)
    {
      var key := ids.0 + [SLASH] + ids.1;
      var task := StartTask(NewTask(fileSize), canOpen);
      downloads := downloads[key := |tasks|];
      tasks := tasks + [Download(ids, task, [])];
      open := open + Requests(ids, task.sent);
    }

    method HandleChunkData(ids: Ids, chunk: Chunk, write: WriteFate)
      requires Indexed(Now())
      modifies this
      ensures Now() == AfterArrive(old(Now()), ids, chunk, write)
    {
      var key := ids.0 + [SLASH] + ids.1;
      open := open - multiset{(ids, chunk.offset)};
      if key in downloads {
        var n := downloads[key];
        var d := tasks[n];
        tasks := tasks[n := Handled(d, chunk, write)];
        open := open + Requests(d.ids, NewSends(d.task, tasks[n].task));
      }
    }

    /** The block that the wrapped completion of download n puts on the queue. */
    method RemoveFinished(n: nat)
      requires n < |tasks| && tasks[n].task.finished && n !in removed
      modifies this
      ensures Now() == AfterRemove(old(Now()), n)
    {
      downloads := downloads - {Key(tasks[n].ids)};
      removed := removed + {n};
    }

    method CancelTransfer(transferId: Text)
      requires Indexed(Now())
      modifies this
      ensures Now() == AfterCancel(old(Now()), transferId)
    {
      var keysToRemove := set k | k in downloads && transferId + [SLASH] <= k;
      while keysToRemove != {}
        invariant Indexed(Now()) && AfterCancel(Now(), transferId) == AfterCancel(old(Now()), transferId)
        invariant keysToRemove == set k | k in downloads && OfTransfer(k, transferId)
        decreases |keysToRemove|
      {
        var key :| key in keysToRemove;
        var n := downloads[key];
        CancelOne(Now(), transferId, key);
        tasks := tasks[n := tasks[n].(task := CancelTask(tasks[n].task))];
        downloads := downloads - {key};
        keysToRemove := keysToRemove - {key};
      }
      forall k | k in downloads ensures !OfTransfer(k, transferId) {
        assert k !in keysToRemove;
      }
      CancelNone(Now(), transferId);
    }
  }

  lemma CancelOne(s: State, transferId: Text, key: Text)
    requires Indexed(s) && key in s.downloads && OfTransfer(key, transferId)
    ensures var n := s.downloads[key];
            var t := s.(tasks := s.tasks[n := s.tasks[n].(task := CancelTask(s.tasks[n].task))],
                        downloads := s.downloads - {key});
            Indexed(t) && AfterCancel(t, transferId) == AfterCancel(s, transferId)
  {
    var n := s.downloads[key];
    var t := s.(tasks := s.tasks[n := s.tasks[n].(task := CancelTask(s.tasks[n].task))],
                downloads := s.downloads - {key});
    assert Victims(t, transferId) + {n} == Victims(s, transferId);
    var a, b := AfterCancel(s, transferId), AfterCancel(t, transferId);
    assert CancelTask(CancelTask(s.tasks[n].task)) == CancelTask(s.tasks[n].task);
    assert forall i | 0 <= i < |s.tasks| :: a.tasks[i] == b.tasks[i];
    assert a.downloads == b.downloads;
  }

  lemma CancelNone(s: State, transferId: Text)
    requires forall k | k in s.downloads :: !OfTransfer(k, transferId)
    ensures AfterCancel(s, transferId) == s
  {
    assert Victims(s, transferId) == {};
    assert AfterCancel(s, transferId).tasks == s.tasks;
    assert AfterCancel(s, transferId).downloads == s.downloads;
  }

  // ------------------------------------------------------------ the parent

  /** Downloads are started with the true size, and the parent answers open requests only, with its slice of the file
      asked for or an error. */
  ghost predicate Proper(files: Ids -> seq<byte>, s: State, step: Step) {
    match step
    case Start(ids, size, _) => size == |files(ids)|
    case Arrive(ids, c, _) => (ids, c.offset) in s.open && (c.error || c == ReplyTo(files(ids), c.offset))
    case _ => true
  }

  ghost predicate Served(files: Ids -> seq<byte>, steps: seq<Step>) {
    steps == [] ||
    (Served(files, steps[..|steps| - 1]) && Proper(files, Run(steps[..|steps| - 1]), steps[|steps| - 1]))
  }

  /** No request is open under this key. */
  ghost predicate NothingOpen(s: State, key: Text) {
    forall r | r in s.open :: Key(r.0) != key
  }

  /** Every download under this key has finished, and its completion has run. */
  ghost predicate AllRemoved(s: State, key: Text) {
    forall n | 0 <= n < |s.tasks| && Key(s.tasks[n].ids) == key :: s.tasks[n].task.finished && n in s.removed
  }

  /** No key is started while requests are open under it. */
  ghost predicate Clean(steps: seq<Step>) {
    forall i | 0 <= i < |steps| && steps[i].Start? :: NothingOpen(Run(steps[..i]), Key(steps[i].ids))
  }

  /** Nor while an earlier download under it is about to take the key out. */
  ghost predicate Settled(steps: seq<Step>) {
    forall i | 0 <= i < |steps| && steps[i].Start? :: AllRemoved(Run(steps[..i]), Key(steps[i].ids))
  }

  /** Nothing goes wrong: files can be opened and written, the parent sends no error, and nobody cancels. */
  predicate Smooth(step: Step) {
    match step
    case Start(_, _, canOpen) => canOpen
    case Arrive(_, c, w) => !c.error && w.Written?
    case Remove(_) => true
    case Cancel(_) => false
  }

  predicate AllSmooth(steps: seq<Step>) {
    forall step | step in steps :: Smooth(step)
  }

  lemma CleanInit(steps: seq<Step>)
    requires steps != []
    ensures Clean(steps) ==> Clean(steps[..|steps| - 1])
    ensures Settled(steps) ==> Settled(steps[..|steps| - 1])
  {
    var init := steps[..|steps| - 1];
    forall i | 0 <= i < |init| ensures init[..i] == steps[..i] {
    }
  }

  // ------------------------------------------------------ counting requests

  lemma {:induction false} RequestsCount(ids: Ids, offsets: seq<nat>, r: Request)
    requires Distinct(offsets)
    ensures Requests(ids, offsets)[r] == if r.0 == ids && r.1 in offsets then 1 else 0
    decreases |offsets|
  {
    if offsets != [] {
      var n := |offsets| - 1;
      RequestsCount(ids, offsets[..n], r);
      assert offsets == offsets[..n] + [offsets[n]];
    }
  }

  lemma SentDistinct(t: Task)
    requires OnGrid(t)
    ensures Distinct(t.sent)
  {
  }

  lemma NewOnGrid(before: Task, after: Task)
    requires OnGrid(before) && OnGrid(after) && before.sent <= after.sent
    ensures var more := NewSends(before, after);
            Distinct(more) && forall o :: o in after.sent <==> (o in before.sent || o in more)
    ensures forall o | o in NewSends(before, after) :: o !in before.sent
  {
    assert after.sent == before.sent + NewSends(before, after);
  }

  // ------------------------------------------------------ what a run keeps

  /** Its task is that of a lone download that got some answers of the server, each to a request it sent and none twice;
      cancelling a finished one sets a flag only. */
  ghost predicate OnCourse(file: seq<byte>, d: Download) {
    Legal(file, d.order) &&
    (if d.task.finished then d.task.(cancelled := false) else d.task) == AfterReplies(file, d.order)
  }

  /** It has ended without a success. */
  predicate Failed(t: Task) {
    t.finished && Done !in t.completions
  }

  ghost predicate Good(files: Ids -> seq<byte>, d: Download, smooth: bool) {
    OnCourse(files(d.ids), d) || (!smooth && Failed(d.task))
  }

  ghost predicate Waits(d: Download, r: Request) {
    r.0 == d.ids && r.1 in d.task.sent && r.1 !in d.order
  }

  /** The download registered under the key is one of that key, and while it is unfinished the requests open under the
      key are those it has sent and got no answer to, each once. */
  ghost predicate Owns(s: State, key: Text)
    requires key in s.downloads && s.downloads[key] < |s.tasks|
  {
    var d := s.tasks[s.downloads[key]];
    Key(d.ids) == key &&
    (!d.task.finished ==> forall r: Request | Key(r.0) == key :: s.open[r] == if Waits(d, r) then 1 else 0)
  }

  ghost predicate Inv(files: Ids -> seq<byte>, s: State, smooth: bool) {
    && Indexed(s)
    && (forall i | 0 <= i < |s.tasks| :: Good(files, s.tasks[i], smooth))
    && (forall k | k in s.downloads :: Owns(s, k))
  }

  lemma {:induction false} EmptyFetched(chunks: seq<Chunk>)
    ensures Fetched(0, chunks) == NewTask(0).(finished := true, completions := [Done])
    decreases |chunks|
  {
    if chunks != [] {
      EmptyFetched(chunks[..|chunks| - 1]);
    }
  }

  lemma EmptyOrder(order: seq<nat>)
    requires Legal([], order)
    ensures order == []
  {
    if order != [] {
      EmptyFetched(RepliesTo([], order[..|order| - 1]));
    }
  }

  lemma OnCourseSound(file: seq<byte>, d: Download)
    requires OnCourse(file, d)
    ensures OnGrid(d.task) && d.task.fileSize == |file|
    ensures !d.task.finished ==> file != [] && d.task.completions == [] && !d.task.cancelled
    ensures forall o | o in d.order :: o in d.task.sent
  {
    if file == [] {
      EmptyOrder(d.order);
      EmptyFetched(RepliesTo([], []));
    } else {
      LegalAnswers(file, d.order);
      AnswersSound(file, d.order);
      forall o | o in d.order ensures o in d.task.sent {
        var k :| 0 <= k < |d.task.sent| && o == CHUNK * k;
        assert d.task.sent[k] == o;
      }
    }
  }

  lemma StartOnCourse(file: seq<byte>, ids: Ids, canOpen: bool)
    ensures var t := StartTask(NewTask(|file|), canOpen);
            (if canOpen || file == [] then OnCourse(file, Download(ids, t, [])) else Failed(t)) && OnGrid(t)
  {
    assert RepliesTo(file, []) == [];
    EveryRunSound(|file|, canOpen, []);
    FetchedSound(|file|, []);
  }

  /** An answer of the server to an open request keeps the download on its course, or ends it without success. */
  lemma HandledOnCourse(file: seq<byte>, d: Download, o: nat, c: Chunk, write: WriteFate)
    requires OnCourse(file, d) && !d.task.finished && o in d.task.sent && o !in d.order
    requires c.offset == o && (c.error || c == ReplyTo(file, o))
    ensures var d' := Handled(d, c, write);
            && (OnCourse(file, d') || (Failed(d'.task) && !Smooth(Arrive(d.ids, c, write))))
            && d'.ids == d.ids && d'.order == d.order + [o]
            && OnGrid(d'.task) && d.task.sent <= d'.task.sent
  {
    OnCourseSound(file, d);
    LegalAnswers(file, d.order);
    AnswersSound(file, d.order);
    var d' := Handled(d, c, write);
    StepKeepsSound(d.task, FileDownload.Reply(c, write), |d.order|);
    if !c.error && write.Written? {
      var k := OpenRequest(file, d.order, o);
      ReplyHonest(file, o);
      AnswerOne(file, d.order, o);
      WrittenStep(d.task, c, |d.order|);
      assert d'.order[..|d'.order| - 1] == d.order;
    }
  }

  /** The new download owns its key, and the others keep theirs. */
  lemma StartOwns(s: State, ids: Ids, fileSize: nat, canOpen: bool, k: Text)
    requires Indexed(s) && NothingOpen(s, Key(ids)) && OnGrid(StartTask(NewTask(fileSize), canOpen))
    requires k == Key(ids) || (k in s.downloads && Owns(s, k))
    ensures Owns(AfterStart(s, ids, fileSize, canOpen), k)
  {
    hide StartTask, Requests;
    var t, s' := StartTask(NewTask(fileSize), canOpen), AfterStart(s, ids, fileSize, canOpen);
    SentDistinct(t);
    forall r: Request | Key(r.0) == k ensures s'.open[r] == s.open[r] + if r.0 == ids && r.1 in t.sent then 1 else 0 {
      RequestsCount(ids, t.sent, r);
    }
  }

  lemma KeepStart(files: Ids -> seq<byte>, s: State, ids: Ids, canOpen: bool, smooth: bool)
    requires Inv(files, s, smooth) && NothingOpen(s, Key(ids)) && (smooth ==> canOpen)
    ensures Inv(files, AfterStart(s, ids, |files(ids)|, canOpen), smooth)
  {
    StartOnCourse(files(ids), ids, canOpen);
    hide StartTask, OnCourse, Requests, Owns, NothingOpen;
    var s' := AfterStart(s, ids, |files(ids)|, canOpen);
    forall k | k in s'.downloads ensures Owns(s', k) {
      StartOwns(s, ids, |files(ids)|, canOpen, k);
    }
  }

  /** A reply changes nothing under other keys. */
  lemma OtherKeys(s: State, ids: Ids, c: Chunk, write: WriteFate, k: Text)
    requires Indexed(s) && k in s.downloads && Owns(s, k) && k != Key(ids)
    requires Key(ids) in s.downloads ==> Key(s.tasks[s.downloads[Key(ids)]].ids) == Key(ids)
    ensures Owns(AfterArrive(s, ids, c, write), k)
  {
    var s' := AfterArrive(s, ids, c, write);
    hide Handled, Requests;
    if Key(ids) in s.downloads {
      var d := s.tasks[s.downloads[Key(ids)]];
      var d' := Handled(d, c, write);
      forall r: Request | Key(r.0) == k ensures s'.open[r] == s.open[r] {
        NoRequests(d.ids, NewSends(d.task, d'.task), r);
      }
    }
  }

  lemma {:induction false} NoRequests(ids: Ids, offsets: seq<nat>, r: Request)
    requires r.0 != ids
    ensures Requests(ids, offsets)[r] == 0
    decreases |offsets|
  {
    if offsets != [] {
      NoRequests(ids, offsets[..|offsets| - 1], r);
    }
  }

  /** And under its own the books stay right. */
  lemma OwnKey(s: State, ids: Ids, c: Chunk, write: WriteFate)
    requires Indexed(s) && Key(ids) in s.downloads && Owns(s, Key(ids))
    requires var d := s.tasks[s.downloads[Key(ids)]]; var d' := Handled(d, c, write);
             !d.task.finished && Waits(d, (ids, c.offset)) &&
             d'.ids == d.ids && d'.order == d.order + [c.offset] && (forall o | o in d.order :: o in d.task.sent) &&
             OnGrid(d.task) && OnGrid(d'.task) && d.task.sent <= d'.task.sent
    ensures Owns(AfterArrive(s, ids, c, write), Key(ids))
  {
    hide Handled, Requests;
    var n := s.downloads[Key(ids)];
    var d, d', s' := s.tasks[n], Handled(s.tasks[n], c, write), AfterArrive(s, ids, c, write);
    var more := NewSends(d.task, d'.task);
    NewOnGrid(d.task, d'.task);
    forall r: Request | Key(r.0) == Key(ids) ensures s'.open[r] == if Waits(d', r) then 1 else 0 {
      RequestsCount(d.ids, more, r);
      assert s.open[r] == if Waits(d, r) then 1 else 0;
      assert s'.open[r] == (s.open - multiset{(ids, c.offset)})[r] + Requests(d.ids, more)[r];
    }
  }

  /** The download a reply is for, and its key. */
  lemma ArriveOwn(files: Ids -> seq<byte>, s: State, ids: Ids, c: Chunk, write: WriteFate, smooth: bool)
    requires Indexed(s) && Key(ids) in s.downloads && Owns(s, Key(ids))
    requires Good(files, s.tasks[s.downloads[Key(ids)]], smooth) && Proper(files, s, Arrive(ids, c, write))
    requires smooth ==> Smooth(Arrive(ids, c, write))
    ensures Good(files, Handled(s.tasks[s.downloads[Key(ids)]], c, write), smooth)
    ensures Owns(AfterArrive(s, ids, c, write), Key(ids))
  {
    hide Requests, OnCourse, HandleChunk;
    var d := s.tasks[s.downloads[Key(ids)]];
    if !d.task.finished {
      assert s.open[(ids, c.offset)] > 0;
      HandledOnCourse(files(ids), d, c.offset, c, write);
      OnCourseSound(files(ids), d);
      hide Handled;
      OwnKey(s, ids, c, write);
    } else {
      assert Handled(d, c, write) == d;
    }
  }

  lemma ArriveTasks(s: State, ids: Ids, c: Chunk, write: WriteFate)
    requires Indexed(s)
    ensures var s' := AfterArrive(s, ids, c, write);
            s'.downloads == s.downloads && s'.removed == s.removed && |s'.tasks| == |s.tasks| &&
            forall i | 0 <= i < |s.tasks| ::
              s'.tasks[i] == if Key(ids) in s.downloads && i == s.downloads[Key(ids)] then Handled(s.tasks[i], c, write)
                             else s.tasks[i]
  {
    hide Requests, Handled;
  }

  lemma KeepArrive(files: Ids -> seq<byte>, s: State, ids: Ids, c: Chunk, write: WriteFate, smooth: bool)
    requires Inv(files, s, smooth) && Proper(files, s, Arrive(ids, c, write))
    requires smooth ==> Smooth(Arrive(ids, c, write))
    ensures Inv(files, AfterArrive(s, ids, c, write), smooth)
  {
    hide Good, Handled, Owns, AfterArrive, Proper, Smooth;
    var s' := AfterArrive(s, ids, c, write);
    ArriveTasks(s, ids, c, write);
    if Key(ids) in s.downloads {
      ArriveOwn(files, s, ids, c, write, smooth);
    }
    forall k | k in s'.downloads && k != Key(ids) ensures Owns(s', k) {
      OwnsItsKey(s, ids);
      OtherKeys(s, ids, c, write, k);
    }
  }

  lemma OwnsItsKey(s: State, ids: Ids)
    requires Indexed(s) && (Key(ids) in s.downloads ==> Owns(s, Key(ids)))
    ensures Key(ids) in s.downloads ==> Key(s.tasks[s.downloads[Key(ids)]].ids) == Key(ids)
  {
  }

  lemma KeepRemove(files: Ids -> seq<byte>, s: State, n: nat, smooth: bool)
    requires Inv(files, s, smooth)
    ensures Inv(files, AfterRemove(s, n), smooth)
  {
    forall k | k in AfterRemove(s, n).downloads ensures Owns(AfterRemove(s, n), k) {
      assert Owns(s, k);
    }
  }

  lemma CancelledGood(files: Ids -> seq<byte>, d: Download)
    requires Good(files, d, false)
    ensures Good(files, d.(task := CancelTask(d.task)), false)
  {
    if !d.task.finished { OnCourseSound(files(d.ids), d); }
  }

  lemma KeepCancel(files: Ids -> seq<byte>, s: State, transferId: Text)
    requires Inv(files, s, false)
    ensures Inv(files, AfterCancel(s, transferId), false)
  {
    hide Good, CancelTask;
    var s' := AfterCancel(s, transferId);
    forall i | 0 <= i < |s'.tasks| ensures Good(files, s'.tasks[i], false) {
      CancelledGood(files, s.tasks[i]);
    }
    forall k | k in s'.downloads ensures Owns(s', k) {
      assert Owns(s, k);
      StaysFinished(s.tasks[s.downloads[k]].task);
    }
  }

  lemma StaysFinished(t: Task)
    ensures CancelTask(t).finished && CancelTask(t).sent == t.sent
  {
  }

  lemma {:induction false} RunKeeps(files: Ids -> seq<byte>, steps: seq<Step>, smooth: bool)
    requires Served(files, steps) && Clean(steps) && (smooth ==> AllSmooth(steps))
    ensures Inv(files, Run(steps), smooth)
    decreases |steps|
  {
    if steps != [] {
      hide Inv, AfterStart, AfterArrive, AfterRemove, AfterCancel;
      var n := |steps| - 1;
      var init := steps[..n];
      assert steps[n] in steps && forall step | step in init :: step in steps;
      CleanInit(steps);
      RunKeeps(files, init, smooth);
      match steps[n] {
        case Start(ids, _, canOpen) => KeepStart(files, Run(init), ids, canOpen, smooth);
        case Arrive(ids, c, w) => KeepArrive(files, Run(init), ids, c, w, smooth);
        case Remove(m) => KeepRemove(files, Run(init), m, smooth);
        case Cancel(tid) => KeepCancel(files, Run(init), tid);
      }
    }
  }

  // ------------------------------------------------- which downloads are heard

  /** A completion still to run can only take out its own download, and an unfinished download is registered. */
  ghost predicate Heard(s: State) {
    && (forall n | n in s.removed :: n < |s.tasks| && s.tasks[n].task.finished)
    && (forall n | 0 <= n < |s.tasks| && n !in s.removed ::
          var k := Key(s.tasks[n].ids);
          (k in s.downloads ==> s.downloads[k] == n) && (!s.tasks[n].task.finished ==> k in s.downloads))
  }

  lemma HeardStart(s: State, ids: Ids, fileSize: nat, canOpen: bool)
    requires Heard(s) && AllRemoved(s, Key(ids))
    ensures Heard(AfterStart(s, ids, fileSize, canOpen))
  {
    hide StartTask, Requests;
  }

  lemma HeardArrive(s: State, ids: Ids, c: Chunk, write: WriteFate)
    requires Indexed(s) && Heard(s)
    ensures Heard(AfterArrive(s, ids, c, write))
  {
    ArriveTasks(s, ids, c, write);
    hide AfterArrive;
  }

  lemma HeardRemove(s: State, n: nat)
    requires Heard(s)
    ensures Heard(AfterRemove(s, n))
  {
  }

  lemma HeardCancel(s: State, transferId: Text)
    requires Indexed(s) && Heard(s)
    ensures Heard(AfterCancel(s, transferId))
  {
    hide OfTransfer;
    var s' := AfterCancel(s, transferId);
    forall n | 0 <= n < |s'.tasks| && n !in s'.removed && !s'.tasks[n].task.finished
      ensures Key(s'.tasks[n].ids) in s'.downloads
    {
      var k := Key(s.tasks[n].ids);
      assert k in s.downloads && s.downloads[k] == n && n !in Victims(s, transferId);
    }
  }

  lemma {:induction false} RunHeard(steps: seq<Step>)
    requires Settled(steps)
    ensures Heard(Run(steps))
    decreases |steps|
  {
    if steps != [] {
      hide Heard, AfterStart, AfterArrive, AfterRemove, AfterCancel;
      var n := |steps| - 1;
      CleanInit(steps);
      RunHeard(steps[..n]);
      match steps[n] {
        case Start(ids, size, canOpen) => HeardStart(Run(steps[..n]), ids, size, canOpen);
        case Arrive(ids, c, w) => HeardArrive(Run(steps[..n]), ids, c, w);
        case Remove(m) => HeardRemove(Run(steps[..n]), m);
        case Cancel(tid) => HeardCancel(Run(steps[..n]), tid);
      }
    } else {
      NothingHeard();
    }
  }

  lemma NothingHeard()
    ensures Heard(INITIAL)
  {
  }

  // ------------------------------------------------------- the main results

  /** No success is wrong: whatever is reported as done has the right file. */
  ghost predicate DoneWhole(files: Ids -> seq<byte>, s: State) {
    forall d | d in s.tasks && Done in d.task.completions :: d.task.disk == Whole(files(d.ids))
  }

  lemma GoodWhole(files: Ids -> seq<byte>, d: Download, smooth: bool)
    requires Good(files, d, smooth) && Done in d.task.completions
    ensures d.task.disk == Whole(files(d.ids))
  {
    if files(d.ids) == [] {
      EmptyOrder(d.order);
      EmptyFetched(RepliesTo([], []));
    } else {
      LegalAnswers(files(d.ids), d.order);
      ExactlyOnceDelivers(files(d.ids), d.order);
    }
  }

  /** If no key is started while requests under it are open, every download reported as done has the right file:
      whatever is started under other keys, cancelled, or answered by an error, and whichever writes fail. */
  lemma CleanRunsDeliver(files: Ids -> seq<byte>, steps: seq<Step>)
    requires Served(files, steps) && Clean(steps)
    ensures DoneWhole(files, Run(steps))
  {
    RunKeeps(files, steps, false);
    hide Run, Good;
    var s := Run(steps);
    forall d | d in s.tasks && Done in d.task.completions ensures d.task.disk == Whole(files(d.ids)) {
      var i :| 0 <= i < |s.tasks| && s.tasks[i] == d;
      GoodWhole(files, d, false);
    }
  }

  /** It is the download its replies reach. */
  ghost predicate Registered(s: State, n: nat)
    requires n < |s.tasks|
  {
    var k := Key(s.tasks[n].ids);
    k in s.downloads && s.downloads[k] == n
  }

  /** A registered download that is unfinished has a request of its own open. */
  lemma AnswerToCome(files: Ids -> seq<byte>, s: State, n: nat) returns (o: nat)
    requires Inv(files, s, false) && n < |s.tasks| && !s.tasks[n].task.finished && Registered(s, n)
    ensures (s.tasks[n].ids, o) in s.open
  {
    var d := s.tasks[n];
    assert Owns(s, Key(d.ids)) && Good(files, d, false);
    OnCourseSound(files(d.ids), d);
    ExactlyOnceDelivers(files(d.ids), d.order);
    o :| o in d.task.sent && o !in d.order;
    assert Waits(d, (d.ids, o)) && s.open[(d.ids, o)] == 1;
  }

  /** If moreover no key is started before the completion of its last download has run, no download hangs: while it is
      unfinished a request of its own is open, and the answer to that will reach it. */
  lemma NothingHangs(files: Ids -> seq<byte>, steps: seq<Step>, n: nat) returns (o: nat)
    requires Served(files, steps) && Clean(steps) && Settled(steps)
    requires n < |Run(steps).tasks| && !Run(steps).tasks[n].task.finished
    ensures (Run(steps).tasks[n].ids, o) in Run(steps).open && Registered(Run(steps), n)
  {
    RunKeeps(files, steps, false);
    RunHeard(steps);
    hide Run, Inv;
    assert Registered(Run(steps), n);
    o := AnswerToCome(files, Run(steps), n);
  }

  /** So when all is answered and nothing went wrong, every download has succeeded, once, and with the right file. */
  lemma AllDelivered(files: Ids -> seq<byte>, steps: seq<Step>, n: nat)
    requires Served(files, steps) && Clean(steps) && Settled(steps) && AllSmooth(steps)
    requires n < |Run(steps).tasks| && Run(steps).open == multiset{}
    ensures var d := Run(steps).tasks[n]; d.task.completions == [Done] && d.task.disk == Whole(files(d.ids))
  {
    var d := Run(steps).tasks[n];
    if !d.task.finished {
      var o := NothingHangs(files, steps, n);
      assert false;
    }
    RunKeeps(files, steps, true);
    hide Run;
    assert Good(files, d, true);
    if files(d.ids) == [] {
      EmptyOrder(d.order);
      EmptyFetched(RepliesTo([], []));
    } else {
      ExactlyOnceDelivers(files(d.ids), d.order);
    }
  }

  // -------------------------------------------------- which downloads hang

  /** A key stands for one of its own downloads, and for the latest of them. */
  ghost predicate Latest(s: State) {
    forall k | k in s.downloads ::
      && s.downloads[k] < |s.tasks| && Key(s.tasks[s.downloads[k]].ids) == k
      && forall m | s.downloads[k] < m < |s.tasks| :: Key(s.tasks[m].ids) != k
  }

  /** A step keeps the downloads there are, their ids, and whether they have finished. */
  ghost predicate Continues(s: State, t: State) {
    |s.tasks| <= |t.tasks| &&
    forall n | 0 <= n < |s.tasks| ::
      t.tasks[n].ids == s.tasks[n].ids && (s.tasks[n].task.finished ==> t.tasks[n].task.finished)
  }

  lemma LatestStart(s: State, ids: Ids, fileSize: nat, canOpen: bool)
    requires Latest(s)
    ensures Latest(AfterStart(s, ids, fileSize, canOpen)) && Continues(s, AfterStart(s, ids, fileSize, canOpen))
  {
    hide StartTask, Requests, Key;
  }

  lemma LatestArrive(s: State, ids: Ids, c: Chunk, write: WriteFate)
    requires Indexed(s) && Latest(s)
    ensures Latest(AfterArrive(s, ids, c, write)) && Continues(s, AfterArrive(s, ids, c, write))
  {
    ArriveTasks(s, ids, c, write);
    forall d: Download ensures Handled(d, c, write).ids == d.ids && (d.task.finished ==> Handled(d, c, write) == d) {
    }
    hide AfterArrive, Handled, Key;
  }

  lemma LatestCancel(s: State, transferId: Text)
    requires Indexed(s) && Latest(s)
    ensures Latest(AfterCancel(s, transferId)) && Continues(s, AfterCancel(s, transferId))
  {
    hide OfTransfer, Key, Victims;
  }

  lemma KeepLatest(s: State, step: Step)
    requires Indexed(s) && Latest(s)
    ensures Latest(Next(s, step)) && Continues(s, Next(s, step))
  {
    match step {
      case Start(ids, size, canOpen) =>
        hide AfterStart, Latest, Continues;
        LatestStart(s, ids, size, canOpen);
      case Arrive(ids, c, w) =>
        hide AfterArrive, Latest, Continues;
        LatestArrive(s, ids, c, w);
      case Remove(m) => hide Key;
      case Cancel(tid) =>
        hide AfterCancel, Latest, Continues;
        LatestCancel(s, tid);
    }
  }

  lemma {:induction false} RunLatest(steps: seq<Step>)
    ensures Latest(Run(steps))
    decreases |steps|
  {
    if steps != [] {
      hide Latest, Next;
      RunLatest(steps[..|steps| - 1]);
      KeepLatest(Run(steps[..|steps| - 1]), steps[|steps| - 1]);
    } else {
      NothingLatest();
    }
  }

  lemma NothingLatest()
    ensures Latest(INITIAL)
  {
  }

  /** The completion of download m takes out the key of the later download n. */
  ghost predicate TakesOut(s: State, step: Step, n: nat) {
    step.Remove? && step.n < n < |s.tasks| && s.tasks[step.n].task.finished && step.n !in s.removed &&
    Key(s.tasks[step.n].ids) == Key(s.tasks[n].ids)
  }

  ghost predicate TakesOutAt(steps: seq<Step>, j: nat, n: nat) {
    j < |steps| && TakesOut(Run(steps[..j]), steps[j], n)
  }

  /** Since download n was started, the completion of an earlier download under its key has run. */
  ghost predicate TakenOut(steps: seq<Step>, n: nat) {
    exists j: nat :: TakesOutAt(steps, j, n)
  }

  lemma TakenOutSnoc(steps: seq<Step>, n: nat)
    requires steps != []
    ensures var m := |steps| - 1;
            TakenOut(steps, n) <==> TakenOut(steps[..m], n) || TakesOut(Run(steps[..m]), steps[m], n)
  {
    hide TakesOut, Run;
    var m := |steps| - 1;
    var init := steps[..m];
    forall j: nat | j < m ensures TakesOutAt(init, j, n) <==> TakesOutAt(steps, j, n) {
      assert init[..j] == steps[..j];
    }
    assert TakesOutAt(steps, m, n) <==> TakesOut(Run(init), steps[m], n);
    if TakenOut(steps, n) {
      var j: nat :| TakesOutAt(steps, j, n);
      assert j < m ==> TakesOutAt(init, j, n);
    }
    if TakenOut(init, n) {
      var j: nat :| TakesOutAt(init, j, n);
      assert TakesOutAt(steps, j, n);
    }
  }

  lemma RegisteredStart(files: Ids -> seq<byte>, s: State, ids: Ids, size: nat, canOpen: bool, n: nat)
    requires Inv(files, s, false) && n < |s.tasks| && !s.tasks[n].task.finished && NothingOpen(s, Key(ids))
    ensures Registered(AfterStart(s, ids, size, canOpen), n) <==> Registered(s, n)
  {
    if Registered(s, n) {
      var o := AnswerToCome(files, s, n);
      assert (s.tasks[n].ids, o) in s.open && Key(s.tasks[n].ids) != Key(ids);
    }
    hide StartTask, Requests, Inv, NothingOpen;
  }

  lemma RegisteredArrive(s: State, ids: Ids, c: Chunk, write: WriteFate, n: nat)
    requires Indexed(s) && n < |s.tasks|
    ensures n < |AfterArrive(s, ids, c, write).tasks| && (Registered(AfterArrive(s, ids, c, write), n) <==> Registered(s, n))
  {
    ArriveTasks(s, ids, c, write);
    hide AfterArrive;
  }

  lemma RegisteredRemove(s: State, m: nat, n: nat)
    requires Latest(s) && n < |s.tasks| && !s.tasks[n].task.finished
    ensures Registered(AfterRemove(s, m), n) <==> Registered(s, n) && !TakesOut(s, Remove(m), n)
  {
  }

  lemma RegisteredCancel(s: State, transferId: Text, n: nat)
    requires Indexed(s) && n < |s.tasks| && !AfterCancel(s, transferId).tasks[n].task.finished
    ensures Registered(AfterCancel(s, transferId), n) <==> Registered(s, n)
  {
    hide OfTransfer;
    var k := Key(s.tasks[n].ids);
    assert AfterCancel(s, transferId).tasks[n].ids == s.tasks[n].ids;
    if Registered(s, n) {
      assert OfTransfer(k, transferId) ==> n in Victims(s, transferId);
    }
  }

  /** One step: an unfinished download loses its key to the completion of an earlier one, and to nothing else. */
  lemma RegisteredStep(files: Ids -> seq<byte>, s: State, step: Step, n: nat)
    requires Inv(files, s, false) && Latest(s) && n < |s.tasks| && Continues(s, Next(s, step))
    requires step.Start? ==> NothingOpen(s, Key(step.ids))
    requires !Next(s, step).tasks[n].task.finished
    ensures Registered(Next(s, step), n) <==> Registered(s, n) && !TakesOut(s, step, n)
  {
    assert !s.tasks[n].task.finished;
    hide Inv, Latest, Registered, AfterStart, AfterArrive, AfterRemove, AfterCancel;
    match step {
      case Start(ids, size, canOpen) => RegisteredStart(files, s, ids, size, canOpen, n);
      case Arrive(ids, c, w) => RegisteredArrive(s, ids, c, w, n);
      case Remove(m) => RegisteredRemove(s, m, n);
      case Cancel(tid) => RegisteredCancel(s, tid, n);
    }
  }

  /** A download that has just been started is registered, and nothing before can have taken it out. */
  lemma JustStarted(steps: seq<Step>, n: nat)
    requires steps != [] && |Run(steps[..|steps| - 1]).tasks| <= n < |Run(steps).tasks|
    ensures Registered(Run(steps), n) && !TakenOut(steps, n)
  {
    var m := |steps| - 1;
    forall j: nat ensures !TakesOutAt(steps, j, n) {
      if j <= m {
        TasksGrow(steps, j);
      }
    }
    hide TakesOutAt, StartTask, Requests, AfterArrive;
    var s := Run(steps[..m]);
    if steps[m].Arrive? { ArriveTasks(s, steps[m].ids, steps[m].chunk, steps[m].write); }
  }

  lemma RunInit(steps: seq<Step>)
    requires steps != []
    ensures Run(steps) == Next(Run(steps[..|steps| - 1]), steps[|steps| - 1])
  {
  }

  lemma RunContinues(steps: seq<Step>)
    requires steps != []
    ensures Continues(Run(steps[..|steps| - 1]), Run(steps)) && Latest(Run(steps[..|steps| - 1]))
  {
    RunInit(steps);
    RunLatest(steps[..|steps| - 1]);
    hide *;
    KeepLatest(Run(steps[..|steps| - 1]), steps[|steps| - 1]);
  }

  lemma {:induction false} TasksGrow(steps: seq<Step>, j: nat)
    requires j < |steps|
    ensures |Run(steps[..j]).tasks| <= |Run(steps[..|steps| - 1]).tasks|
    decreases |steps|
  {
    var init := steps[..|steps| - 1];
    if j < |init| {
      hide Run;
      TasksGrow(init, j);
      assert init[..j] == steps[..j];
      RunContinues(init);
    }
  }

  /** In a run in which no key is started while requests are open under it, an unfinished download is still registered
      if and only if no completion of an earlier download under its key has run since it was started. */
  lemma {:induction false} RegisteredUnlessTakenOut(files: Ids -> seq<byte>, steps: seq<Step>, n: nat)
    requires Served(files, steps) && Clean(steps)
    requires n < |Run(steps).tasks| && !Run(steps).tasks[n].task.finished
    ensures Registered(Run(steps), n) <==> !TakenOut(steps, n)
    decreases |steps|
  {
    var m := |steps| - 1;
    var init := steps[..m];
    var s := Run(init);
    RunInit(steps);
    if n >= |s.tasks| {
      JustStarted(steps, n);
    } else {
      InitKeeps(files, steps);
      RunLatest(init);
      KeepLatest(s, steps[m]);
      hide Run, Next, Inv, Latest, Registered, TakenOut, TakesOut;
      RegisteredUnlessTakenOut(files, init, n);
      RegisteredStep(files, s, steps[m], n);
      TakenOutSnoc(steps, n);
    }
  }

  lemma InitKeeps(files: Ids -> seq<byte>, steps: seq<Step>)
    requires steps != [] && Served(files, steps) && Clean(steps)
    ensures var m := |steps| - 1;
            Served(files, steps[..m]) && Clean(steps[..m]) && Inv(files, Run(steps[..m]), false) &&
            (steps[m].Start? ==> NothingOpen(Run(steps[..m]), Key(steps[m].ids)))
  {
    hide Inv, Run, NothingOpen;
    CleanInit(steps);
    RunKeeps(files, steps[..|steps| - 1], false);
  }

  lemma UnregisteredStep(s: State, step: Step, n: nat)
    requires Indexed(s) && Latest(s) && n < |s.tasks| && !Registered(s, n)
    ensures var t := Next(s, step); n < |t.tasks| && t.tasks[n] == s.tasks[n] && !Registered(t, n)
  {
    hide StartTask, Requests, Handled;
    match step {
      case Start(ids, size, canOpen) =>
      case Arrive(ids, c, w) =>
        ArriveTasks(s, ids, c, w);
        hide AfterArrive;
      case Remove(m) =>
      case Cancel(tid) => hide OfTransfer;
    }
  }

  lemma RunMore(steps: seq<Step>, more: seq<Step>)
    requires more != []
    ensures var m := |more| - 1; Run(steps + more) == Next(Run(steps + more[..m]), more[m])
  {
    hide Next;
    assert (steps + more)[..|steps + more| - 1] == steps + more[..|more| - 1];
  }

  /** And a download that is no longer registered stays as it is, whatever comes: an unfinished one never ends. */
  lemma {:induction false} UnregisteredForGood(steps: seq<Step>, more: seq<Step>, n: nat)
    requires n < |Run(steps).tasks| && !Registered(Run(steps), n)
    ensures n < |Run(steps + more).tasks| && Run(steps + more).tasks[n] == Run(steps).tasks[n]
    ensures !Registered(Run(steps + more), n)
    decreases |more|
  {
    if more == [] {
      assert steps + more == steps;
    } else {
      hide Run, Next, Registered, Latest;
      var m := |more| - 1;
      UnregisteredForGood(steps, more[..m], n);
      RunMore(steps, more);
      RunLatest(steps + more[..m]);
      UnregisteredStep(Run(steps + more[..m]), more[m], n);
    }
  }

  /** Exactly which downloads hang, in such a run: one that lost its key to an earlier download's completion never ends;
      any other that is unfinished has a request of its own open, whose answer will reach it. */
  lemma HangsIffTakenOut(files: Ids -> seq<byte>, steps: seq<Step>, n: nat)
    requires Served(files, steps) && Clean(steps)
    requires n < |Run(steps).tasks| && !Run(steps).tasks[n].task.finished
    ensures TakenOut(steps, n) ==>
              forall more :: n < |Run(steps + more).tasks| && !Run(steps + more).tasks[n].task.finished
    ensures !TakenOut(steps, n) ==>
              Registered(Run(steps), n) && exists o: nat :: (Run(steps).tasks[n].ids, o) in Run(steps).open
  {
    RegisteredUnlessTakenOut(files, steps, n);
    if TakenOut(steps, n) {
      forall more ensures n < |Run(steps + more).tasks| && !Run(steps + more).tasks[n].task.finished {
        UnregisteredForGood(steps, more, n);
      }
    } else {
      RunKeeps(files, steps, false);
      hide Run, Inv;
      var o := AnswerToCome(files, Run(steps), n);
    }
  }

  // ----------------------------------------------------- what a cancel takes

  /** The transfer id and a slash (byte 47) stand in front of the two ids of the download, joined by a slash. */
  ghost predicate InFront(transferId: Text, p: Ids) {
    exists rest :: p.0 + [47] + p.1 == transferId + [47] + rest
  }

  /** What a cancel makes of a download it takes. */
  ghost predicate Ended(d: Download, e: Download) {
    && e.ids == d.ids && e.order == d.order && e.task.finished
    && e.task == if d.task.finished then d.task.(cancelled := true)
                 else d.task.(cancelled := true, finished := true, completions := d.task.completions + [Cancelled])
  }

  /** A cancel ends and takes out a registered download if its joined ids begin with the transfer id and a slash, and
      leaves every other download alone. */
  lemma CancelTakes(steps: seq<Step>, transferId: Text, n: nat)
    requires n < |Run(steps).tasks|
    ensures var s, t := Run(steps), Run(steps + [Cancel(transferId)]); var p := s.tasks[n].ids;
            n < |t.tasks| &&
            if !Registered(s, n) then t.tasks[n] == s.tasks[n]
            else if InFront(transferId, p) then Ended(s.tasks[n], t.tasks[n]) && p.0 + [47] + p.1 !in t.downloads
            else t.tasks[n] == s.tasks[n] && p.0 + [47] + p.1 in t.downloads && t.downloads[p.0 + [47] + p.1] == n
  {
    assert (steps + [Cancel(transferId)])[..|steps|] == steps;
    RunLatest(steps);
    CancelState(Run(steps), transferId, n);
  }

  lemma InFrontKey(transferId: Text, p: Ids)
    ensures InFront(transferId, p) <==> OfTransfer(p.0 + [47] + p.1, transferId)
    ensures Key(p) == p.0 + [47] + p.1
  {
    var k := p.0 + [47] + p.1;
    if OfTransfer(k, transferId) {
      assert k == transferId + [47] + k[|transferId| + 1..];
    }
  }

  lemma CancelState(s: State, transferId: Text, n: nat)
    requires Latest(s) && n < |s.tasks|
    ensures var t := AfterCancel(s, transferId); var p := s.tasks[n].ids;
            n < |t.tasks| &&
            if !Registered(s, n) then t.tasks[n] == s.tasks[n]
            else if InFront(transferId, p) then Ended(s.tasks[n], t.tasks[n]) && p.0 + [47] + p.1 !in t.downloads
            else t.tasks[n] == s.tasks[n] && p.0 + [47] + p.1 in t.downloads && t.downloads[p.0 + [47] + p.1] == n
  {
    InFrontKey(transferId, s.tasks[n].ids);
    hide InFront, OfTransfer, Key;
    assert n in Victims(s, transferId) <==> Registered(s, n) && OfTransfer(Key(s.tasks[n].ids), transferId);
  }

  /** So it takes every download of its own transfer. */
  lemma OwnTransferTaken(transferId: Text, fileId: Text)
    ensures InFront(transferId, (transferId, fileId))
  {
    assert transferId + [47] + fileId == transferId + [47] + fileId;
  }

  lemma SlashStands(a: Text, x: Text)
    ensures var s := a + [47] + x;
            s[|a|] == 47 && s[..|a|] == a && (47 !in a ==> forall i | 0 <= i < |a| :: s[i] != 47)
  {
  }

  /** And, among transfer ids without a slash, of no other one. */
  lemma OtherTransferSpared(transferId: Text, p: Ids)
    requires 47 !in transferId && 47 !in p.0 && p.0 != transferId
    ensures !InFront(transferId, p)
  {
    if rest :| p.0 + [47] + p.1 == transferId + [47] + rest {
      SlashStands(p.0, p.1);
      SlashStands(transferId, rest);
    }
  }

  // ------------------------------------------------- without that discipline

  lemma RunSnoc(files: Ids -> seq<byte>, steps: seq<Step>, step: Step)
    ensures Run(steps + [step]) == Next(Run(steps), step)
    ensures Served(files, steps) && Proper(files, Run(steps), step) ==> Served(files, steps + [step])
  {
    assert (steps + [step])[..|steps|] == steps;
  }

  /** The run starts only these. */
  ghost predicate Over(all: iset<Ids>, steps: seq<Step>) {
    forall step | step in steps && step.Start? :: step.ids in all
  }

  /** Ids that share a key name the same file, and it is no longer than a chunk; empty files do no harm. */
  ghost predicate Harmless(all: iset<Ids>, files: Ids -> seq<byte>) {
    forall p, q | p in all && q in all && Key(p) == Key(q) && files(p) != [] && files(q) != [] ::
      files(p) == files(q) && |files(p)| <= CHUNK
  }

  /** A download of one chunk: nothing has reached it yet, or it has ended, and not with a wrong file. */
  ghost predicate OneChunk(file: seq<byte>, d: Download) {
    if d.task.finished then Done in d.task.completions ==> d.task.disk == Whole(file)
    else file != [] && d.order == [] && d.task == AfterReplies(file, [])
  }

  ghost predicate Small(all: iset<Ids>, files: Ids -> seq<byte>, s: State) {
    && Indexed(s)
    && (forall i | 0 <= i < |s.tasks| :: s.tasks[i].ids in all && OneChunk(files(s.tasks[i].ids), s.tasks[i]))
    && (forall k | k in s.downloads :: Key(s.tasks[s.downloads[k]].ids) == k)
    && (forall r: Request | s.open[r] > 0 :: r.0 in all && r.1 == 0 && files(r.0) != [])
  }

  lemma OneChunkStart(file: seq<byte>, canOpen: bool)
    requires |file| <= CHUNK
    ensures var t := StartTask(NewTask(|file|), canOpen);
            if t.finished then t.sent == [] && (Done in t.completions ==> t.disk == Whole(file))
            else t.sent == [0] && file != [] && t == AfterReplies(file, [])
  {
    assert RepliesTo(file, []) == [];
    EveryRunSound(|file|, canOpen, []);
    if file != [] {
      StartOut(|file|);
    }
  }

  lemma FirstRequest(open: multiset<Request>, ids: Ids, sent: seq<nat>)
    requires sent == [] || sent == [0]
    ensures forall r: Request | (open + Requests(ids, sent))[r] > 0 :: open[r] > 0 || (r == (ids, 0) && sent == [0])
  {
    hide Requests;
    forall r: Request ensures Requests(ids, sent)[r] == if r.0 == ids && r.1 in sent then 1 else 0 {
      RequestsCount(ids, sent, r);
    }
  }

  lemma SmallStart(all: iset<Ids>, files: Ids -> seq<byte>, s: State, ids: Ids, canOpen: bool)
    requires Harmless(all, files) && Small(all, files, s) && ids in all
    ensures Small(all, files, AfterStart(s, ids, |files(ids)|, canOpen))
  {
    var t := StartTask(NewTask(|files(ids)|), canOpen);
    OneChunkStart(files(ids), canOpen);
    assert OneChunk(files(ids), Download(ids, t, []));
    hide StartTask, OneChunk, Harmless, Requests, Key;
    FirstRequest(s.open, ids, t.sent);
  }

  /** The first good reply ends such a download with the whole file. */
  lemma OneChunkReply(file: seq<byte>, d: Download, c: Chunk, write: WriteFate)
    requires 0 < |file| <= CHUNK && OneChunk(file, d) && !d.task.finished
    requires c.offset == 0 && (c.error || c == ReplyTo(file, 0))
    ensures var d' := Handled(d, c, write);
            d'.ids == d.ids && d'.task.finished && OneChunk(file, d') && NewSends(d.task, d'.task) == []
  {
    OneChunkStart(file, true);
    hide StartTask;
    HandledOnCourse(file, d, 0, c, write);
    var d' := Handled(d, c, write);
    hide Handled;
    if OnCourse(file, d') {
      LegalAnswers(file, d'.order);
      AnswersSound(file, d'.order);
      ExactlyOnceDelivers(file, d'.order);
    }
    EndSends(d, c, write);
  }

  lemma EndSends(d: Download, c: Chunk, write: WriteFate)
    requires Handled(d, c, write).task.finished
    ensures NewSends(d.task, Handled(d, c, write).task) == []
  {
    var t := Answered(d.task);
    if !c.error && c.data != [] && write.Written? {
      PrimeUnfinished(t.(disk := WriteAt(t.disk, c.offset, c.data), received := t.received + |c.data|));
    }
  }

  lemma {:induction false} PrimeUnfinished(t: Task)
    ensures Prime(t).finished == t.finished
    decreases PIPELINE_DEPTH - t.inFlight
  {
    if t.inFlight < PIPELINE_DEPTH && t.next < t.fileSize {
      PrimeUnfinished(t.(inFlight := t.inFlight + 1, next := t.next + CHUNK, sent := t.sent + [t.next]));
    }
  }

  lemma SmallOwn(all: iset<Ids>, files: Ids -> seq<byte>, s: State, ids: Ids, c: Chunk, write: WriteFate)
    requires Harmless(all, files) && Small(all, files, s) && Proper(files, s, Arrive(ids, c, write))
    requires Key(ids) in s.downloads
    ensures var d := s.tasks[s.downloads[Key(ids)]]; var d' := Handled(d, c, write);
            d'.ids == d.ids && OneChunk(files(d.ids), d') && NewSends(d.task, d'.task) == []
  {
    assert s.open[(ids, c.offset)] > 0;
    var d := s.tasks[s.downloads[Key(ids)]];
    if d.task.finished {
      assert Handled(d, c, write) == d;
    } else {
      OneChunkReply(files(d.ids), d, c, write);
    }
  }

  lemma SmallArrive(all: iset<Ids>, files: Ids -> seq<byte>, s: State, ids: Ids, c: Chunk, write: WriteFate)
    requires Harmless(all, files) && Small(all, files, s) && Proper(files, s, Arrive(ids, c, write))
    ensures Small(all, files, AfterArrive(s, ids, c, write))
  {
    if Key(ids) in s.downloads {
      SmallOwn(all, files, s, ids, c, write);
    }
    hide Handled, OneChunk, NewSends, Harmless, Proper;
    assert Requests(ids, []) == multiset{};
    assert AfterArrive(s, ids, c, write).open == s.open - multiset{(ids, c.offset)};
    ArriveTasks(s, ids, c, write);
    hide AfterArrive;
  }

  lemma SmallCancel(all: iset<Ids>, files: Ids -> seq<byte>, s: State, transferId: Text)
    requires Small(all, files, s)
    ensures Small(all, files, AfterCancel(s, transferId))
  {
    var s' := AfterCancel(s, transferId);
    forall i | 0 <= i < |s.tasks| ensures OneChunk(files(s'.tasks[i].ids), s'.tasks[i]) {
      OneChunkCancel(files(s.tasks[i].ids), s.tasks[i]);
    }
    forall k | k in s'.downloads ensures s'.downloads[k] < |s'.tasks| && Key(s'.tasks[s'.downloads[k]].ids) == k {
      assert k in s.downloads;
    }
  }

  lemma OneChunkCancel(file: seq<byte>, d: Download)
    requires OneChunk(file, d)
    ensures OneChunk(file, d.(task := CancelTask(d.task)))
  {
    if !d.task.finished {
      assert RepliesTo(file, []) == [];
      EveryRunSound(|file|, true, []);
    }
  }

  lemma {:induction false} RunSmall(all: iset<Ids>, files: Ids -> seq<byte>, steps: seq<Step>)
    requires Harmless(all, files) && Over(all, steps) && Served(files, steps)
    ensures Small(all, files, Run(steps))
    decreases |steps|
  {
    if steps != [] {
      hide Small, Harmless, AfterStart, AfterArrive, AfterCancel;
      var n := |steps| - 1;
      var s := Run(steps[..n]);
      assert steps[n] in steps && forall step | step in steps[..n] :: step in steps;
      RunSmall(all, files, steps[..n]);
      match steps[n] {
        case Start(ids, _, canOpen) => SmallStart(all, files, s, ids, canOpen);
        case Arrive(ids, c, w) => SmallArrive(all, files, s, ids, c, w);
        case Remove(m) => SmallRemove(all, files, s, m);
        case Cancel(tid) => SmallCancel(all, files, s, tid);
      }
    }
  }

  lemma SmallRemove(all: iset<Ids>, files: Ids -> seq<byte>, s: State, n: nat)
    requires Small(all, files, s)
    ensures Small(all, files, AfterRemove(s, n))
  {
  }

  /** Two starts under one key, and the state they leave. */
  lemma StartedTwice(files: Ids -> seq<byte>, p: Ids, q: Ids) returns (steps: seq<Step>)
    requires Key(p) == Key(q)
    ensures Over(iset{p, q}, steps) && Served(files, steps)
    ensures var s := Run(steps); var t, u := Fetched(|files(p)|, []), Fetched(|files(q)|, []);
            s.tasks == [Download(p, t, []), Download(q, u, [])] && s.downloads == map[Key(q) := 1] &&
            s.open == Requests(p, t.sent) + Requests(q, u.sent)
  {
    hide StartTask, Requests;
    var first, second := Start(p, |files(p)|, true), Start(q, |files(q)|, true);
    RunSnoc(files, [], first);
    RunSnoc(files, [] + [first], second);
    steps := [] + [first] + [second];
    assert Run([]) == INITIAL;
    assert multiset{} + Requests(p, Fetched(|files(p)|, []).sent) == Requests(p, Fetched(|files(p)|, []).sent);
  }

  /** The reply to the first download's request ends the second with the first one's file. */
  lemma OtherFileServed(files: Ids -> seq<byte>, p: Ids, q: Ids) returns (steps: seq<Step>)
    requires Key(p) == Key(q) && files(p) != files(q) && 0 < |files(p)| <= CHUNK && 0 < |files(q)| <= CHUNK
    ensures Over(iset{p, q}, steps) && Served(files, steps)
    ensures var s := Run(steps);
            |s.tasks| == 2 && s.tasks[1].ids == q && s.tasks[1].task.completions == [Done] &&
            s.tasks[1].task.disk == Whole(files(p)) && !DoneWhole(files, s)
  {
    var twice := StartedTwice(files, p, q);
    var c := ReplyTo(files(p), 0);
    OneChunkStart(files(p), true);
    OneChunkStart(files(q), true);
    StartOut(|files(p)|);
    StartOut(|files(q)|);
    RequestsCount(p, [0], (p, 0));
    var s := Run(twice);
    assert (p, 0) in s.open;
    steps := twice + [Arrive(p, c, Written)];
    RunSnoc(files, twice, Arrive(p, c, Written));
    ArriveTasks(s, p, c, Written);
    OnlyReply(files(q), Fetched(|files(q)|, []), c);
    assert c.data == files(p) && WriteAt([], 0, files(p)) == Whole(files(p));
    WholeInjective(files(p), files(q));
    assert Run(steps).tasks[1] in Run(steps).tasks;
  }

  lemma WholeInjective(a: seq<byte>, b: seq<byte>)
    ensures Whole(a) == Whole(b) ==> a == b
  {
    if Whole(a) == Whole(b) {
      assert |Whole(a)| == |a| && |Whole(b)| == |b|;
      assert forall i | 0 <= i < |a| :: Whole(a)[i] == Some(a[i]) && Whole(b)[i] == Some(b[i]);
    }
  }

  lemma OnlyReply(file: seq<byte>, t: Task, c: Chunk)
    requires t == Fetched(|file|, []) && 0 < |file| <= CHUNK && !c.error && c.data != []
    ensures var u := HandleChunk(t, c, Written); u.completions == [Done] && u.disk == WriteAt([], c.offset, c.data)
    ensures !t.cancelled && !t.finished
  {
    StartOut(|file|);
    EveryRunSound(|file|, true, []);
    PrimeKeeps(NewTask(|file|));
  }

  /** The answers of the server to 0, 0, C, 2C, ...: the first comes twice, so the last slot's is not needed. */
  function Shifted(file: seq<byte>, n: nat): seq<Chunk> {
    seq(n, i requires 0 <= i < n => ReplyTo(file, if i == 0 then 0 else CHUNK * (i - 1)))
  }

  lemma ShiftedHonest(file: seq<byte>, n: nat)
    requires file != [] && n <= Slots(|file|)
    ensures forall c | c in Shifted(file, n) :: Honest(file, c) && c.offset + |c.data| <= CHUNK * Max(n - 1, 1)
  {
    forall i | 0 <= i < n
      ensures var c := Shifted(file, n)[i];
              Honest(file, c) && c.offset + |c.data| <= CHUNK * Max(n - 1, 1)
    {
      var k := if i == 0 then 0 else i - 1;
      SlotArithmetic(|file|, k);
      ReplyHonest(file, CHUNK * k);
    }
  }

  function Max(a: int, b: int): int {
    if a < b then b else a
  }

  /** Good replies finish a live download exactly when there are as many as it has slots. */
  lemma FinishesAt(file: seq<byte>, chunks: seq<Chunk>)
    requires Live(|file|, chunks) && file != [] && |chunks| <= Slots(|file|) && forall c | c in chunks :: Honest(file, c)
    ensures var t := Fetched(|file|, chunks);
            Sound(t, |chunks|) && !t.cancelled && (t.finished <==> |chunks| == Slots(|file|)) && t.fileSize == |file|
  {
    FetchedSound(|file|, chunks);
    SlotArithmetic(|file|, |Fetched(|file|, chunks).sent|);
  }

  /** The second of two downloads under one key has had these replies, and these slots are still to be answered. */
  ghost predicate SecondHas(files: Ids -> seq<byte>, s: State, p: Ids, chunks: seq<Chunk>, from: nat) {
    var t := Fetched(|files(p)|, chunks);
    && Indexed(s) && |s.tasks| == 2 && Key(p) in s.downloads && s.downloads[Key(p)] == 1
    && s.tasks[1].ids == p && s.tasks[1].task == t && Live(|files(p)|, chunks)
    && forall i | from <= i < |t.sent| :: s.open[(p, CHUNK * i)] > 0
  }

  lemma OneMoreTask(file: seq<byte>, chunks: seq<Chunk>, i: nat)
    requires Live(|file|, chunks) && file != [] && |chunks| < Slots(|file|) && forall c | c in chunks :: Honest(file, c)
    requires i < |Fetched(|file|, chunks).sent|
    ensures var c := ReplyTo(file, CHUNK * i);
            var t, t' := Fetched(|file|, chunks), Fetched(|file|, chunks + [c]);
            && Live(|file|, chunks + [c]) && !t.finished && !t.cancelled && t' == HandleChunk(t, c, Written)
            && OnGrid(t) && OnGrid(t') && t.sent <= t'.sent
  {
    hide Fetched, HandleChunk, Live;
    var c, t := ReplyTo(file, CHUNK * i), Fetched(|file|, chunks);
    FinishesAt(file, chunks);
    FetchedSnoc(|file|, chunks, c);
    SlotArithmetic(|file|, i);
    ReplyHonest(file, CHUNK * i);
    WrittenStep(t, c, |chunks|);
    StepKeepsSound(t, FileDownload.Reply(c, Written), |chunks|);
  }

  /** Answering slot i, which is behind `from` or open twice, leaves the slots from there on open. */
  lemma OneMoreOpen(open: multiset<Request>, p: Ids, t: Task, t': Task, from: nat, i: nat)
    requires OnGrid(t) && OnGrid(t') && t.sent <= t'.sent
    requires forall k | from <= k < |t.sent| :: open[(p, CHUNK * k)] > 0
    requires open[(p, CHUNK * i)] > if from <= i then 1 else 0
    ensures forall k | from <= k < |t'.sent| ::
              (open - multiset{(p, CHUNK * i)} + Requests(p, NewSends(t, t')))[(p, CHUNK * k)] > 0
  {
    hide Requests;
    var more := NewSends(t, t');
    NewOnGrid(t, t');
    hide NewSends;
    forall k | from <= k < |t'.sent|
      ensures (open - multiset{(p, CHUNK * i)} + Requests(p, more))[(p, CHUNK * k)] > 0
    {
      RequestsCount(p, more, (p, CHUNK * k));
      assert t'.sent[k] == CHUNK * k && t'.sent[k] in t'.sent;
      if k >= |t.sent| { NotSentYet(t, k); }
    }
  }

  lemma OneMore(files: Ids -> seq<byte>, s: State, p: Ids, chunks: seq<Chunk>, from: nat, i: nat)
    requires SecondHas(files, s, p, chunks, from) && files(p) != [] && |chunks| < Slots(|files(p)|)
    requires (forall c | c in chunks :: Honest(files(p), c)) && i < |Fetched(|files(p)|, chunks).sent|
    requires s.open[(p, CHUNK * i)] > if from <= i then 1 else 0
    ensures Proper(files, s, Arrive(p, ReplyTo(files(p), CHUNK * i), Written))
    ensures SecondHas(files, AfterArrive(s, p, ReplyTo(files(p), CHUNK * i), Written), p,
                      chunks + [ReplyTo(files(p), CHUNK * i)], from)
  {
    hide Fetched, HandleChunk, Live, Requests, NewSends;
    var file, c := files(p), ReplyTo(files(p), CHUNK * i);
    var t, t' := Fetched(|file|, chunks), Fetched(|file|, chunks + [c]);
    OneMoreTask(file, chunks, i);
    OneMoreOpen(s.open, p, t, t', from, i);
    ArriveTasks(s, p, c, Written);
    assert Handled(s.tasks[1], c, Written).task == t';
  }

  lemma NotSentYet(t: Task, k: nat)
    requires OnGrid(t) && k >= |t.sent|
    ensures CHUNK * k !in t.sent
  {
  }

  lemma BothOpen(files: Ids -> seq<byte>, s: State, p: Ids)
    requires files(p) != [] && Indexed(s)
    requires var t := Fetched(|files(p)|, []);
             s.tasks == [Download(p, t, []), Download(p, t, [])] && s.downloads == map[Key(p) := 1] &&
             s.open == Requests(p, t.sent) + Requests(p, t.sent)
    ensures SecondHas(files, s, p, [], 0) && 0 < |Fetched(|files(p)|, []).sent| && s.open[(p, 0)] == 2
  {
    hide Fetched, Requests;
    var t := Fetched(|files(p)|, []);
    FinishesAt(files(p), []);
    SentDistinct(t);
    forall k | 0 <= k < |t.sent| ensures s.open[(p, CHUNK * k)] == 2 {
      RequestsCount(p, t.sent, (p, CHUNK * k));
      assert t.sent[k] == CHUNK * k;
    }
    assert s.open[(p, CHUNK * 0)] == 2;
  }

  lemma SecondAnswered(files: Ids -> seq<byte>, s: State, p: Ids)
    requires files(p) != [] && SecondHas(files, s, p, [], 0)
    requires 0 < |Fetched(|files(p)|, []).sent| && s.open[(p, 0)] == 2
    ensures var step := Arrive(p, ReplyTo(files(p), 0), Written);
            Indexed(s) && Proper(files, s, step) && SecondHas(files, Next(s, step), p, Shifted(files(p), 1), 0)
  {
    assert Indexed(s) && CHUNK * 0 == 0 && Slots(|files(p)|) > 0;
    hide Fetched, SecondHas, AfterArrive, Proper, ReplyTo;
    OneMore(files, s, p, [], 0, 0);
    assert [] + [ReplyTo(files(p), CHUNK * 0)] == Shifted(files(p), 1);
  }

  lemma SecondStarts(files: Ids -> seq<byte>, p: Ids) returns (steps: seq<Step>)
    requires files(p) != []
    ensures Over(iset{p}, steps) && Served(files, steps)
    ensures SecondHas(files, Run(steps), p, Shifted(files(p), 1), 0)
  {
    hide Fetched, Requests, Run, Served, Proper, SecondHas, Next, Shifted, ReplyTo;
    var twice := StartedTwice(files, p, p);
    BothOpen(files, Run(twice), p);
    SecondAnswered(files, Run(twice), p);
    var step := Arrive(p, ReplyTo(files(p), 0), Written);
    RunSnoc(files, twice, step);
    steps := twice + [step];
  }

  /** Slot n - 1 has been asked for and not answered. */
  lemma NextOpen(files: Ids -> seq<byte>, s: State, p: Ids, n: nat)
    requires files(p) != [] && 1 <= n < Slots(|files(p)|) && SecondHas(files, s, p, Shifted(files(p), n), n - 1)
    ensures SecondHas(files, s, p, Shifted(files(p), n), n)
    ensures n - 1 < |Fetched(|files(p)|, Shifted(files(p), n)).sent| && s.open[(p, CHUNK * (n - 1))] > 0
  {
    hide Fetched, Live, Shifted;
    ShiftedHonest(files(p), n);
    ShiftedLength(files(p), n);
    FinishesAt(files(p), Shifted(files(p), n));
  }

  lemma ShiftedLength(file: seq<byte>, n: nat)
    ensures |Shifted(file, n)| == n
    ensures n > 0 ==> Shifted(file, n) + [ReplyTo(file, CHUNK * (n - 1))] == Shifted(file, n + 1)
  {
  }

  lemma SlotAnswered(files: Ids -> seq<byte>, s: State, p: Ids, n: nat) returns (step: Step)
    requires files(p) != [] && 1 <= n < Slots(|files(p)|) && SecondHas(files, s, p, Shifted(files(p), n), n - 1)
    ensures Indexed(s) && !step.Start? && Proper(files, s, step)
    ensures SecondHas(files, Next(s, step), p, Shifted(files(p), n + 1), n)
  {
    assert Indexed(s);
    hide Fetched, Live, Shifted, Honest, SecondHas, AfterArrive, Proper;
    NextOpen(files, s, p, n);
    ShiftedHonest(files(p), n);
    ShiftedLength(files(p), n);
    OneMore(files, s, p, Shifted(files(p), n), n, n - 1);
    step := Arrive(p, ReplyTo(files(p), CHUNK * (n - 1)), Written);
  }

  lemma {:induction false} SecondFed(files: Ids -> seq<byte>, p: Ids, n: nat) returns (steps: seq<Step>)
    requires files(p) != [] && 1 <= n <= Slots(|files(p)|)
    ensures Over(iset{p}, steps) && Served(files, steps)
    ensures SecondHas(files, Run(steps), p, Shifted(files(p), n), n - 1)
    decreases n
  {
    if n == 1 {
      steps := SecondStarts(files, p);
    } else {
      hide Run, Served, Proper, SecondHas, Next, Shifted;
      var before := SecondFed(files, p, n - 1);
      var step := SlotAnswered(files, Run(before), p, n - 1);
      RunSnoc(files, before, step);
      steps := before + [step];
    }
  }

  /** A file of two or more chunks, started twice under its key: the second download takes the answers to both and
      ends as a success with the last chunk missing. */
  lemma StartedTwiceEndsShort(files: Ids -> seq<byte>, p: Ids) returns (steps: seq<Step>)
    requires |files(p)| > CHUNK
    ensures Over(iset{p}, steps) && Served(files, steps)
    ensures var s := Run(steps);
            |s.tasks| == 2 && s.tasks[1].ids == p && s.tasks[1].task.completions == [Done] && !DoneWhole(files, s)
  {
    hide Requests, NewSends, Live, Fetched, HandleChunk, WriteAt, Honest;
    var file, n := files(p), Slots(|files(p)|);
    SlotArithmetic(|file|, 1);
    SlotArithmetic(|file|, n - 1);
    steps := SecondFed(files, p, n);
    ShiftedHonest(file, n);
    FinishesAt(file, Shifted(file, n));
    assert !Covered(Shifted(file, n), CHUNK * (n - 1));
    SuccessIsWholeIffCovered(file, Shifted(file, n));
    assert Run(steps).tasks[1] in Run(steps).tasks;
  }

  lemma SmallWhole(all: iset<Ids>, files: Ids -> seq<byte>, s: State)
    requires Small(all, files, s)
    ensures DoneWhole(files, s)
  {
    forall d | d in s.tasks && Done in d.task.completions ensures d.task.disk == Whole(files(d.ids)) {
      var i :| 0 <= i < |s.tasks| && s.tasks[i] == d;
      if !d.task.finished {
        assert RepliesTo(files(d.ids), []) == [];
        EveryRunSound(|files(d.ids)|, true, []);
      }
    }
  }

  /** Without any discipline: over some ids, the parent being right, every success is right in every run if and only if
      the ids are harmless. */
  lemma AlwaysWholeIffHarmless(all: iset<Ids>, files: Ids -> seq<byte>)
    ensures Harmless(all, files) <==>
            forall steps | Over(all, steps) && Served(files, steps) :: DoneWhole(files, Run(steps))
  {
    hide Run, Served, Requests;
    if Harmless(all, files) {
      forall steps | Over(all, steps) && Served(files, steps) ensures DoneWhole(files, Run(steps)) {
        RunSmall(all, files, steps);
        SmallWhole(all, files, Run(steps));
      }
    } else {
      var p, q :| p in all && q in all && Key(p) == Key(q) && files(p) != [] && files(q) != [] &&
                  !(files(p) == files(q) && |files(p)| <= CHUNK);
      var steps;
      if |files(p)| > CHUNK {
        steps := StartedTwiceEndsShort(files, p);
      } else if |files(q)| > CHUNK {
        steps := StartedTwiceEndsShort(files, q);
      } else {
        steps := OtherFileServed(files, p, q);
      }
      assert Over(all, steps);
    }
  }

  lemma CleanSnoc(steps: seq<Step>, step: Step)
    requires Clean(steps) && (step.Start? ==> NothingOpen(Run(steps), Key(step.ids)))
    ensures Clean(steps + [step])
  {
    hide NothingOpen;
    var all := steps + [step];
    forall i | 0 <= i < |all| && all[i].Start? ensures NothingOpen(Run(all[..i]), Key(all[i].ids)) {
      assert i < |steps| ==> all[..i] == steps[..i];
      assert all[..|steps|] == steps;
    }
  }

  /** One download of a file of one chunk, from its start to its end. */
  lemma OneDownload(files: Ids -> seq<byte>, p: Ids)
    requires 0 < |files(p)| <= CHUNK
    ensures var c, t := ReplyTo(files(p), 0), Fetched(|files(p)|, []);
            && t == StartTask(NewTask(|files(p)|), true) && t.sent == [0] && !t.finished && !t.cancelled
            && Requests(p, [0]) == multiset{(p, 0)} && !c.error && c.offset == 0
            && HandleChunk(t, c, Written).finished && NewSends(t, HandleChunk(t, c, Written)) == []
  {
    var c, t := ReplyTo(files(p), 0), Fetched(|files(p)|, []);
    OneChunkStart(files(p), true);
    OnlyReply(files(p), t, c);
    StartOut(|files(p)|);
    LastReplies(t, c);
    EndSends(Download(p, t, []), c, Written);
    assert [0][..0] == [] && multiset{} + multiset{(p, 0)} == multiset{(p, 0)};
  }

  lemma NoneRequested(ids: Ids)
    ensures Requests(ids, []) == multiset{}
  {
  }

  lemma LateRemovalState(files: Ids -> seq<byte>, p: Ids)
    requires 0 < |files(p)| <= CHUNK
    ensures var start, reply := Start(p, |files(p)|, true), Arrive(p, ReplyTo(files(p), 0), Written);
            var s1 := Next(INITIAL, start);
            var s2 := Next(s1, reply);
            var s3 := Next(s2, start);
            var s4 := Next(s3, Remove(0));
            var s5 := Next(s4, reply);
            && (p, 0) in s1.open && s2.open == multiset{} && (p, 0) in s4.open
            && |s5.tasks| == 2 && s5.open == multiset{} && s5.tasks[1].ids == p && !s5.tasks[1].task.finished
  {
    hide StartTask, HandleChunk, Requests, NewSends, ReplyTo;
    var c, t := ReplyTo(files(p), 0), Fetched(|files(p)|, []);
    OneDownload(files, p);
    NoneRequested(p);
    var k, d := Key(p), Download(p, t, []);
    var e := Download(p, HandleChunk(t, c, Written), [] + [0]);
    var s1 := AfterStart(INITIAL, p, |files(p)|, true);
    assert s1 == State([d], map[k := 0], {}, multiset{(p, 0)});
    var s2 := AfterArrive(s1, p, c, Written);
    assert s2 == State([e], map[k := 0], {}, multiset{});
    var s3 := AfterStart(s2, p, |files(p)|, true);
    assert s3 == State([e, d], map[k := 1], {}, multiset{(p, 0)});
    var s4 := AfterRemove(s3, 0);
    assert s4 == State([e, d], map[], {0}, multiset{(p, 0)});
    var s5 := AfterArrive(s4, p, c, Written);
    assert s5 == State([e, d], map[], {0}, multiset{});
  }

  /** The completion of a finished download takes out the next one started under its key: the answer to that one's only
      request is lost, and it never ends. */
  lemma LateRemovalHangs(files: Ids -> seq<byte>, p: Ids) returns (steps: seq<Step>)
    requires 0 < |files(p)| <= CHUNK
    ensures Served(files, steps) && Clean(steps) && AllSmooth(steps)
    ensures var s := Run(steps);
            |s.tasks| == 2 && s.open == multiset{} && s.tasks[1].ids == p && !s.tasks[1].task.finished
    ensures TakenOut(steps, 1)
  {
    var start, reply := Start(p, |files(p)|, true), Arrive(p, ReplyTo(files(p), 0), Written);
    LateRemovalState(files, p);
    hide Next, ReplyTo, Clean, Served, Run, AllSmooth;
    steps := NoStep(files);
    steps := OneStep(files, steps, start);
    steps := OneStep(files, steps, reply);
    steps := OneStep(files, steps, start);
    steps := OneStep(files, steps, Remove(0));
    steps := OneStep(files, steps, reply);
    assert Run(steps).open == multiset{};
    HangsIffTakenOut(files, steps, 1);
  }

  lemma NoStep(files: Ids -> seq<byte>) returns (steps: seq<Step>)
    ensures Run(steps) == INITIAL && Served(files, steps) && Clean(steps) && AllSmooth(steps)
  {
    steps := [];
  }

  lemma OneStep(files: Ids -> seq<byte>, before: seq<Step>, step: Step) returns (steps: seq<Step>)
    requires Served(files, before) && Clean(before) && AllSmooth(before)
    requires Proper(files, Run(before), step) && Smooth(step)
    requires step.Start? ==> Run(before).open == multiset{}
    ensures Run(steps) == Next(Run(before), step) && Served(files, steps) && Clean(steps) && AllSmooth(steps)
  {
    RunSnoc(files, before, step);
    CleanSnoc(before, step);
    steps := before + [step];
  }
}
