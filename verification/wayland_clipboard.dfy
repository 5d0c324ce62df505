/** The Wayland clipboard owner: announcements, payloads that arrive late, and paste requests served by detached workers
    that wait on a condition variable. Steps are atomic between lock acquisitions. */
module WaylandClipboard {
  import opened Bytes
  import UriList

  type Text = seq<byte>
  type Hash = Text

  datatype Kind = TextKind | ImageKind | FilesKind

  /** The image conversion for a MIME type; empty when it fails. */
  type Converter = (Text, string) -> Text

  /** A paste request: its worker waits for the payload of `hash`, or its bytes are on their way to the file
      descriptor. */
  datatype Job =
    | Waiting(hash: Hash, mime: string)
    | Writing(content: Text)

  datatype Outcome = Stopping | Stale | TimedOut | Wrote

  datatype Entry =
    | Selected(hash: Hash, kind: Kind, payload: Option<Text>)             // a set, or an announcement without payload
    | Accepted(hash: Hash, data: Text)                                    // a ProvideData that was kept
    | Opened(id: nat, hash: Hash, mime: string)                           // a send event, the hash it captured
    | Requested(hash: Hash)                                               // on_request
    | Captured(id: nat, hash: Hash, kind: Kind, mime: string, data: Text)  // a payload taken for a paste
    | Written(id: nat, content: Text)
    | Closed(id: nat)

  datatype State = State(
    stop: bool,
    currentHash: Hash,
    kind: Kind,
    pendingData: Option<Text>,
    pendingHash: Hash,
    jobs: map<nat, Job>,   // paste requests whose file descriptor is open
    nextId: nat,
    log: seq<Entry>)

  const INITIAL := State(false, [], TextKind, None, [], map[], 0, [])

  // ------------------------------------------------------------- the steps

  /** What a paste target receives for a payload of this kind. */
  function Represent(convert: Converter, kind: Kind, data: Text, mime: string): Text {
    match kind
    case ImageKind => convert(data, mime)
    case FilesKind => UriList.Formatted(data, mime)
    case TextKind => data
  }

  function Matches(s: State, hash: Hash): bool {
    s.pendingData.Some? && s.pendingHash == hash
  }

  /** SetClipboardText and SetClipboardImage: the payload is its own key. */
  function AfterSet(s: State, kind: Kind, payload: Text): State {
    s.(currentHash := payload, kind := kind, pendingData := Some(payload), pendingHash := payload,
       log := s.log + [Selected(payload, kind, Some(payload))])
  }

  function AfterAnnounce(s: State, kind: Kind, hash: Hash): State {
    s.(currentHash := hash, kind := kind, pendingData := None, pendingHash := [],
       log := s.log + [Selected(hash, kind, None)])
  }

  function AfterProvide(s: State, hash: Hash, data: Text): State {
    if s.currentHash != hash then s
    else s.(pendingData := Some(data), pendingHash := hash, log := s.log + [Accepted(hash, data)])
  }

  function AfterOpen(s: State, mime: string): State {
    s.(nextId := s.nextId + 1, jobs := s.jobs[s.nextId := Waiting(s.currentHash, mime)],
       log := s.log + [Opened(s.nextId, s.currentHash, mime)])
  }

  /** A waiting paste takes the payload of its hash. */
  function AfterCapture(s: State, convert: Converter, id: nat): State
    requires id in s.jobs && s.jobs[id].Waiting? && Matches(s, s.jobs[id].hash)
  {
    var job, data := s.jobs[id], s.pendingData.value;
    s.(jobs := s.jobs[id := Writing(Represent(convert, s.kind, data, job.mime))],
       log := s.log + [Captured(id, job.hash, s.kind, job.mime, data)])
  }

  /** A send event: the payload at once when it is here, otherwise a request and a worker that waits. */
  function AfterSend(s: State, convert: Converter, mime: string): State {
    var t := AfterOpen(s, mime);
    if Matches(s, s.currentHash) then AfterCapture(t, convert, s.nextId)
    else t.(log := t.log + [Requested(s.currentHash)])
  }

  /** What the worker decides after its wait: `signalled` is the predicate at the end of the wait, `stopped` a later
      read of the stop flag. */
  function Decide(s: State, hash: Hash, signalled: bool, stopped: bool): Outcome {
    if stopped then Stopping
    else if signalled && Matches(s, hash) then Wrote
    else if signalled then Stale
    else TimedOut
  }

  function Signalled(s: State, hash: Hash): bool {
    s.stop || Matches(s, hash)
  }

  /** A worker leaves its wait: the predicate holds, or ten seconds are over. The manager may be destroyed, without the
      lock, right after the wait. */
  function AfterResume(s: State, convert: Converter, id: nat, late: bool, destroyed: bool): State {
    if id !in s.jobs || s.jobs[id].Writing? || !(Signalled(s, s.jobs[id].hash) || late) then s else
    var hash, t := s.jobs[id].hash, s.(stop := s.stop || destroyed);
    if Decide(t, hash, Signalled(s, hash), t.stop) == Wrote then AfterCapture(t, convert, id)
    else t.(jobs := t.jobs[id := Writing([])])
  }

  /** The write, which is left out when there is nothing to write, and the close. */
  function AfterFlush(s: State, id: nat): State {
    if id !in s.jobs || s.jobs[id].Waiting? then s else
    var content := s.jobs[id].content;
    s.(jobs := s.jobs - {id}, log := s.log + (if content == [] then [] else [Written(id, content)]) + [Closed(id)])
  }

  datatype Step =
    | Set(kind: Kind, payload: Text)
    | Announce(kind: Kind, hash: Hash)
    | Provide(hash: Hash, data: Text)
    | Send(mime: string)
    | Resume(id: nat, late: bool, destroyed: bool)
    | Flush(id: nat)
    | Destroy

  function Next(s: State, convert: Converter, step: Step): State {
    match step
    case Set(k, p) => AfterSet(s, k, p)
    case Announce(k, h) => AfterAnnounce(s, k, h)
    case Provide(h, d) => AfterProvide(s, h, d)
    case Send(m) => AfterSend(s, convert, m)
    case Resume(id, l, d) => AfterResume(s, convert, id, l, d)
    case Flush(id) => AfterFlush(s, id)
    case Destroy => s.(stop := true)
  }

  function Run(convert: Converter, steps: seq<Step>): State {
    if steps == [] then INITIAL
    else Next(Run(convert, steps[..|steps| - 1]), convert, steps[|steps| - 1])
  }

  // ------------------------------------------------------ the shared state

  class ExtState {
    const convert: Converter
    var stop: bool
    var currentHash: Hash
    var contentKind: Kind
    var pendingData: Option<Text>
    var pendingDataHash: Hash
    var jobs: map<nat, Job>
    var nextId: nat
    var log: seq<Entry>

    function Now(): State
      reads this
    {
      State(stop, currentHash, contentKind, pendingData, pendingDataHash, jobs, nextId, log)
    }

    constructor (convert: Converter)
      ensures Now() == INITIAL && this.convert == convert
    {
      this.convert := convert;
      stop, currentHash, contentKind, pendingData, pendingDataHash := false, [], TextKind, None, [];
      jobs, nextId, log := map[], 0, [];
    }

    method SetClipboardText(utf8: Text)
      modifies this
      ensures Now() == AfterSet(old(Now()), TextKind, utf8)
    {
      currentHash := utf8;
      contentKind := TextKind;
      pendingData := Some(utf8);
      pendingDataHash := utf8;
      log := log + [Selected(utf8, TextKind, Some(utf8))];
    }

    method SetClipboardImage(webp: Text)
      modifies this
      ensures Now() == AfterSet(old(Now()), ImageKind, webp)
    {
      currentHash := webp;
      contentKind := ImageKind;
      pendingData := Some(webp);
      pendingDataHash := webp;
      log := log + [Selected(webp, ImageKind, Some(webp))];
    }

    /** AnnounceDelayedText, AnnounceDelayedImage and AnnounceDelayedFiles differ in the kind only. */
    method AnnounceDelayed(kind: Kind, contentHash: Hash)
      modifies this
      ensures Now() == AfterAnnounce(old(Now()), kind, contentHash)
    {
      currentHash := contentHash;
      contentKind := kind;
      pendingData := None;
      pendingDataHash := [];
      log := log + [Selected(contentHash, kind, None)];
    }

    method ProvideData(contentHash: Hash, data: Text)
      modifies this
      ensures Now() == AfterProvide(old(Now()), contentHash, data)
    {
      if currentHash != contentHash { return; }
      pendingData := Some(data);
      pendingDataHash := contentHash;
      log := log + [Accepted(contentHash, data)];
    }

    /** A send event: the payload at once when it is here, otherwise a request and a worker that waits for it. */
    method OnSourceSend(mime: string)
      modifies this
      ensures Now() == AfterSend(old(Now()), convert, mime)
    {
      var id, hash, kind := nextId, currentHash, contentKind;
      nextId := id + 1;
      if pendingData.Some? && pendingDataHash == hash {
        var eager := pendingData.value;
        jobs := jobs[id := Writing(Represent(convert, kind, eager, mime))];
        log := log + [Opened(id, hash, mime), Captured(id, hash, kind, mime, eager)];
        return;
      }
      jobs := jobs[id := Waiting(hash, mime)];
      log := log + [Opened(id, hash, mime), Requested(hash)];
    }

    /** WaitAndWriteOnWorker from the end of its wait to the release of the lock; nothing while it still waits. */
    method WakeWorker(id: nat, late: bool, destroyed: bool) returns (outcome: Option<Outcome>)
      requires id in jobs && jobs[id].Waiting?
      modifies this
      ensures Now() == AfterResume(old(Now()), convert, id, late, destroyed)
      ensures outcome != Some(Stale)
      ensures outcome == None <==> Now() == old(Now())
    {
      var job := jobs[id];
      var gotSignal := stop || (pendingData.Some? && pendingDataHash == job.hash);
      if !gotSignal && !late { return None; }
      outcome := Some(TimedOut);
      stop := stop || destroyed;
      var bytes: Text := [];
      if stop {
        outcome := Some(Stopping);
      } else if gotSignal && pendingData.Some? && pendingDataHash == job.hash {
        bytes := Represent(convert, contentKind, pendingData.value, job.mime);
        log := log + [Captured(id, job.hash, contentKind, job.mime, pendingData.value)];
        outcome := Some(Wrote);
      } else if gotSignal {
        outcome := Some(Stale);
      }
      jobs := jobs[id := Writing(bytes)];
    }

    method WriteAndClose(id: nat)
      requires id in jobs && jobs[id].Writing?
      modifies this
      ensures Now() == AfterFlush(old(Now()), id)
    {
      var content := jobs[id].content;
      jobs := jobs - {id};
      if |content| != 0 { log := log + [Written(id, content)]; }
      log := log + [Closed(id)];
    }
  }

  // ----------------------------------------------------------- the history

  /** The hash the clipboard stands for: that of the last selection. */
  function CurrentHash(log: seq<Entry>): Hash {
    if log == [] then [] else
    var e := log[|log| - 1];
    if e.Selected? then e.hash else CurrentHash(log[..|log| - 1])
  }

  function CurrentKind(log: seq<Entry>): Kind {
    if log == [] then TextKind else
    var e := log[|log| - 1];
    if e.Selected? then e.kind else CurrentKind(log[..|log| - 1])
  }

  /** The payload set with the last selection, or the last one accepted for it. */
  function LatestPayload(log: seq<Entry>): Option<Text> {
    if log == [] then None else
    var e := log[|log| - 1];
    if e.Selected? then e.payload else if e.Accepted? then Some(e.data) else LatestPayload(log[..|log| - 1])
  }

  ghost predicate OpenIn(log: seq<Entry>, id: nat) {
    (exists h, m :: Opened(id, h, m) in log) && Closed(id) !in log
  }

  /** What may happen next, given what happened before. */
  ghost predicate Justified(convert: Converter, log: seq<Entry>, e: Entry) {
    match e
    case Selected(_, _, _) => true
    case Accepted(hash, _) => hash == CurrentHash(log)
    case Opened(id, hash, _) => hash == CurrentHash(log) && !(exists h, m :: Opened(id, h, m) in log) && Closed(id) !in log
    case Requested(hash) => hash == CurrentHash(log) && LatestPayload(log) == None
    case Captured(id, hash, kind, mime, data) =>
      OpenIn(log, id) && Opened(id, hash, mime) in log &&
      hash == CurrentHash(log) && kind == CurrentKind(log) && LatestPayload(log) == Some(data)
    case Written(id, content) =>
      OpenIn(log, id) &&
      exists h, k, m, d :: Captured(id, h, k, m, d) in log && content == Represent(convert, k, d, m)
    case Closed(id) => OpenIn(log, id)
  }

  ghost predicate Lawful(convert: Converter, log: seq<Entry>) {
    log == [] || (Lawful(convert, log[..|log| - 1]) && Justified(convert, log[..|log| - 1], log[|log| - 1]))
  }

  lemma Appended(convert: Converter, log: seq<Entry>, e: Entry)
    ensures (log + [e])[..|log|] == log
    ensures CurrentHash(log + [e]) == if e.Selected? then e.hash else CurrentHash(log)
    ensures CurrentKind(log + [e]) == if e.Selected? then e.kind else CurrentKind(log)
    ensures LatestPayload(log + [e]) ==
            if e.Selected? then e.payload else if e.Accepted? then Some(e.data) else LatestPayload(log)
    ensures Lawful(convert, log + [e]) <==> Lawful(convert, log) && Justified(convert, log, e)
    ensures forall x :: x in log + [e] <==> x in log || x == e
  {
    assert (log + [e])[..|log|] == log;
  }

  /** The bytes on their way to a paste are what its captured payload looks like in its MIME type. */
  ghost predicate Represented(convert: Converter, log: seq<Entry>, id: nat, content: Text) {
    exists h, k, m, d :: Captured(id, h, k, m, d) in log && content == Represent(convert, k, d, m)
  }

  ghost predicate JobTold(convert: Converter, log: seq<Entry>, id: nat, job: Job) {
    && OpenIn(log, id)
    && match job
       case Waiting(h, m) => Opened(id, h, m) in log
       case Writing(content) => content == [] || Represented(convert, log, id, content)
  }

  /** The jobs are the pastes that are open, and every other paste is closed. */
  ghost predicate Accounted(convert: Converter, log: seq<Entry>, jobs: map<nat, Job>, nextId: nat) {
    && (forall id | id in jobs :: id < nextId && JobTold(convert, log, id, jobs[id]))
    && (forall id | 0 <= id < nextId && id !in jobs :: Closed(id) in log)
    && (forall id: nat, h, m | Opened(id, h, m) in log :: id < nextId)
    && (forall id: nat | Closed(id) in log :: id < nextId)
  }

  ghost predicate Inv(convert: Converter, s: State) {
    && Lawful(convert, s.log)
    && s.currentHash == CurrentHash(s.log) && s.kind == CurrentKind(s.log) && s.pendingData == LatestPayload(s.log)
    && (s.pendingData.Some? ==> s.pendingHash == s.currentHash)
    && Accounted(convert, s.log, s.jobs, s.nextId)
  }

  /** An entry that opens and closes nothing leaves the books as they are. */
  lemma StillAccounted(convert: Converter, log: seq<Entry>, jobs: map<nat, Job>, nextId: nat, e: Entry)
    requires Accounted(convert, log, jobs, nextId) && !e.Opened? && !e.Closed?
    ensures Accounted(convert, log + [e], jobs, nextId)
  {
    forall id | id in jobs ensures JobTold(convert, log + [e], id, jobs[id]) {
      StillTold(convert, log, id, jobs[id], e);
    }
  }

  lemma StillTold(convert: Converter, log: seq<Entry>, id: nat, job: Job, e: Entry)
    requires JobTold(convert, log, id, job) && e != Closed(id)
    ensures JobTold(convert, log + [e], id, job)
  {
    var h, m :| Opened(id, h, m) in log;
    assert Opened(id, h, m) in log + [e];
    if job.Writing? && job.content != [] {
      var k, data;
      h, k, m, data :| Captured(id, h, k, m, data) in log && job.content == Represent(convert, k, data, m);
      assert Captured(id, h, k, m, data) in log + [e];
    }
  }

  lemma OpenAccounted(convert: Converter, log: seq<Entry>, jobs: map<nat, Job>, id: nat, hash: Hash, mime: string)
    requires Accounted(convert, log, jobs, id)
    ensures Accounted(convert, log + [Opened(id, hash, mime)], jobs[id := Waiting(hash, mime)], id + 1)
  {
    var e := Opened(id, hash, mime);
    assert e in log + [e];
    forall i | i in jobs ensures JobTold(convert, log + [e], i, jobs[i]) {
      StillTold(convert, log, i, jobs[i], e);
    }
  }

  /** A payload taken for an open paste turns its job into a write. */
  lemma CaptureAccounted(convert: Converter, log: seq<Entry>, jobs: map<nat, Job>, nextId: nat, id: nat,
                         hash: Hash, kind: Kind, mime: string, data: Text)
    requires Accounted(convert, log, jobs, nextId) && id in jobs
    ensures Accounted(convert, log + [Captured(id, hash, kind, mime, data)],
                      jobs[id := Writing(Represent(convert, kind, data, mime))], nextId)
  {
    var e := Captured(id, hash, kind, mime, data);
    assert e in log + [e];
    StillAccounted(convert, log, jobs, nextId, e);
    assert Represented(convert, log + [e], id, Represent(convert, kind, data, mime));
  }

  lemma CloseAccounted(convert: Converter, log: seq<Entry>, jobs: map<nat, Job>, nextId: nat, id: nat)
    requires Accounted(convert, log, jobs, nextId) && id in jobs
    ensures Accounted(convert, log + [Closed(id)], jobs - {id}, nextId)
  {
    assert Closed(id) in log + [Closed(id)];
    forall i | i in jobs - {id} ensures JobTold(convert, log + [Closed(id)], i, jobs[i]) {
      StillTold(convert, log, i, jobs[i], Closed(id));
    }
  }

  lemma KeepSelect(convert: Converter, s: State, kind: Kind, hash: Hash, payload: Option<Text>)
    requires Inv(convert, s) && (payload.Some? ==> payload.value == hash)
    ensures Inv(convert, if payload.Some? then AfterSet(s, kind, hash) else AfterAnnounce(s, kind, hash))
  {
    Appended(convert, s.log, Selected(hash, kind, payload));
    StillAccounted(convert, s.log, s.jobs, s.nextId, Selected(hash, kind, payload));
  }

  lemma KeepProvide(convert: Converter, s: State, hash: Hash, data: Text)
    requires Inv(convert, s)
    ensures Inv(convert, AfterProvide(s, hash, data))
  {
    Appended(convert, s.log, Accepted(hash, data));
    StillAccounted(convert, s.log, s.jobs, s.nextId, Accepted(hash, data));
  }

  lemma Fresh(convert: Converter, log: seq<Entry>, jobs: map<nat, Job>, nextId: nat)
    requires Accounted(convert, log, jobs, nextId)
    ensures !(exists h, m :: Opened(nextId, h, m) in log) && Closed(nextId) !in log && nextId !in jobs
  {
  }

  lemma JobOpen(convert: Converter, log: seq<Entry>, jobs: map<nat, Job>, nextId: nat, id: nat)
    requires Accounted(convert, log, jobs, nextId) && id in jobs
    ensures JobTold(convert, log, id, jobs[id])
  {
  }

  lemma KeepOpen(convert: Converter, s: State, mime: string)
    requires Inv(convert, s)
    ensures Inv(convert, AfterOpen(s, mime))
  {
    hide Lawful, Accounted, LatestPayload, CurrentHash, CurrentKind, Represent;
    Fresh(convert, s.log, s.jobs, s.nextId);
    Appended(convert, s.log, Opened(s.nextId, s.currentHash, mime));
    OpenAccounted(convert, s.log, s.jobs, s.nextId, s.currentHash, mime);
  }

  lemma KeepCapture(convert: Converter, s: State, id: nat)
    requires Inv(convert, s) && id in s.jobs && s.jobs[id].Waiting? && Matches(s, s.jobs[id].hash)
    ensures Inv(convert, AfterCapture(s, convert, id))
  {
    hide Lawful, Accounted, LatestPayload, CurrentHash, CurrentKind, Represent;
    var job, data := s.jobs[id], s.pendingData.value;
    JobOpen(convert, s.log, s.jobs, s.nextId, id);
    Appended(convert, s.log, Captured(id, job.hash, s.kind, job.mime, data));
    CaptureAccounted(convert, s.log, s.jobs, s.nextId, id, job.hash, s.kind, job.mime, data);
  }

  lemma KeepRequest(convert: Converter, s: State)
    requires Inv(convert, s) && s.pendingData == None
    ensures Inv(convert, s.(log := s.log + [Requested(s.currentHash)]))
  {
    hide Lawful, Accounted, LatestPayload, CurrentHash, CurrentKind, Represent;
    Appended(convert, s.log, Requested(s.currentHash));
    StillAccounted(convert, s.log, s.jobs, s.nextId, Requested(s.currentHash));
  }

  lemma KeepSend(convert: Converter, s: State, mime: string)
    requires Inv(convert, s)
    ensures Inv(convert, AfterSend(s, convert, mime))
  {
    assert s.pendingData.Some? ==> s.pendingHash == s.currentHash;
    hide Inv, AfterCapture;
    KeepOpen(convert, s, mime);
    if Matches(s, s.currentHash) {
      KeepCapture(convert, AfterOpen(s, mime), s.nextId);
    } else {
      KeepRequest(convert, AfterOpen(s, mime));
    }
  }

  lemma KeepStop(convert: Converter, s: State, stop: bool)
    requires Inv(convert, s)
    ensures Inv(convert, s.(stop := stop))
  {
  }

  /** A worker that leaves with nothing to write. */
  lemma KeepEmpty(convert: Converter, s: State, id: nat)
    requires Inv(convert, s) && id in s.jobs
    ensures Inv(convert, s.(jobs := s.jobs[id := Writing([])]))
  {
    hide Lawful, LatestPayload, CurrentHash, CurrentKind, Represent;
  }

  lemma KeepResume(convert: Converter, s: State, id: nat, late: bool, destroyed: bool)
    requires Inv(convert, s)
    ensures Inv(convert, AfterResume(s, convert, id, late, destroyed))
  {
    hide Inv, AfterCapture;
    if id in s.jobs && s.jobs[id].Waiting? {
      var t := s.(stop := s.stop || destroyed);
      KeepStop(convert, s, s.stop || destroyed);
      KeepEmpty(convert, t, id);
      if Matches(t, t.jobs[id].hash) {
        KeepCapture(convert, t, id);
      }
    }
  }

  lemma KeepClose(convert: Converter, s: State, id: nat, log: seq<Entry>)
    requires Inv(convert, s.(log := log)) && id in s.jobs
    ensures Inv(convert, s.(log := log + [Closed(id)], jobs := s.jobs - {id}))
  {
    hide Lawful, Accounted, LatestPayload, CurrentHash, CurrentKind, Represent;
    JobOpen(convert, log, s.jobs, s.nextId, id);
    Appended(convert, log, Closed(id));
    CloseAccounted(convert, log, s.jobs, s.nextId, id);
  }

  lemma KeepWrite(convert: Converter, s: State, id: nat)
    requires Inv(convert, s) && id in s.jobs && s.jobs[id].Writing? && s.jobs[id].content != []
    ensures Inv(convert, s.(log := s.log + [Written(id, s.jobs[id].content)]))
  {
    hide Lawful, Accounted, LatestPayload, CurrentHash, CurrentKind, Represent;
    var e := Written(id, s.jobs[id].content);
    JobOpen(convert, s.log, s.jobs, s.nextId, id);
    Appended(convert, s.log, e);
    StillAccounted(convert, s.log, s.jobs, s.nextId, e);
  }

  lemma KeepFlush(convert: Converter, s: State, id: nat)
    requires Inv(convert, s)
    ensures Inv(convert, AfterFlush(s, id))
  {
    hide Inv;
    if id in s.jobs && s.jobs[id].Writing? {
      if s.jobs[id].content == [] {
        assert s.log + [] == s.log && s.(log := s.log) == s;
        KeepClose(convert, s, id, s.log);
      } else {
        KeepWrite(convert, s, id);
        KeepClose(convert, s, id, s.log + [Written(id, s.jobs[id].content)]);
      }
    }
  }

  lemma NextKeeps(convert: Converter, s: State, step: Step)
    requires Inv(convert, s)
    ensures Inv(convert, Next(s, convert, step))
  {
    match step {
      case Set(k, p) => KeepSelect(convert, s, k, p, Some(p));
      case Announce(k, h) => KeepSelect(convert, s, k, h, None);
      case Provide(h, d) => KeepProvide(convert, s, h, d);
      case Send(m) => KeepSend(convert, s, m);
      case Resume(id, l, d) => KeepResume(convert, s, id, l, d);
      case Flush(id) => KeepFlush(convert, s, id);
      case Destroy =>
    }
  }

  lemma {:induction false} RunKeeps(convert: Converter, steps: seq<Step>)
    ensures Inv(convert, Run(convert, steps))
    decreases |steps|
  {
    if steps != [] {
      hide Next, Inv;
      RunKeeps(convert, steps[..|steps| - 1]);
      NextKeeps(convert, Run(convert, steps[..|steps| - 1]), steps[|steps| - 1]);
    }
  }

  lemma {:induction false} LawfulAt(convert: Converter, log: seq<Entry>, i: nat)
    requires Lawful(convert, log) && i < |log|
    ensures Lawful(convert, log[..i]) && Justified(convert, log[..i], log[i])
    decreases |log|
  {
    if i < |log| - 1 {
      LawfulAt(convert, log[..|log| - 1], i);
      assert log[..|log| - 1][..i] == log[..i];
    }
  }

  // ------------------------------------------------------- the main results

  /** In every reachable state a stored payload carries the current hash, and it is the latest one for it. */
  lemma PayloadIsCurrent(convert: Converter, steps: seq<Step>)
    ensures var s := Run(convert, steps);
            s.currentHash == CurrentHash(s.log) && s.pendingData == LatestPayload(s.log) &&
            (s.pendingData.Some? ==> s.pendingHash == s.currentHash)
  {
    RunKeeps(convert, steps);
  }

  /** Taken at moment j: the hash the paste captured was still the current one, the kind was the one last selected, and
      the payload the latest accepted or set. */
  ghost predicate TakenAt(convert: Converter, log: seq<Entry>, j: nat, id: nat, content: Text)
    requires j < |log|
  {
    exists h, k, m, d ::
      && log[j] == Captured(id, h, k, m, d)
      && Opened(id, h, m) in log[..j]
      && h == CurrentHash(log[..j]) && k == CurrentKind(log[..j]) && LatestPayload(log[..j]) == Some(d)
      && FormOf(convert, k, d, m, content)
  }

  /** Text is pasted as it is, an image as what the conversion answers, and files as a list that reads back as the lines of
      the payload, in the reading of the MIME type. */
  ghost predicate FormOf(convert: Converter, kind: Kind, data: Text, mime: string, content: Text) {
    match kind
    case TextKind => content == data
    case ImageKind => content == convert(data, mime)
    case FilesKind =>
      (if mime == "x-special/gnome-copied-files" then UriList.ReadGnomeCopiedFiles(content)
       else UriList.ReadTextUriList(content)) == Some(UriList.Split(data))
  }

  lemma RepresentHasForm(convert: Converter, kind: Kind, data: Text, mime: string)
    ensures FormOf(convert, kind, data, mime, Represent(convert, kind, data, mime))
  {
    UriList.FormatRoundTrip(data, mime);
  }

  /** Everything ever written to a paste was such a payload, in the MIME type the paste asked for. */
  lemma WritesWereCurrent(convert: Converter, steps: seq<Step>, i: nat, id: nat, content: Text) returns (j: nat)
    requires i < |Run(convert, steps).log| && Run(convert, steps).log[i] == Written(id, content)
    ensures j < i && TakenAt(convert, Run(convert, steps).log, j, id, content)
  {
    var log := Run(convert, steps).log;
    RunKeeps(convert, steps);
    LawfulAt(convert, log, i);
    var h, k, m, d :| Captured(id, h, k, m, d) in log[..i] && content == Represent(convert, k, d, m);
    j :| 0 <= j < i && log[..i][j] == Captured(id, h, k, m, d);
    LawfulAt(convert, log, j);
    RepresentHasForm(convert, k, d, m);
  }

  /** Every paste descriptor is closed exactly once, unless it is still open, and nothing follows the close. */
  lemma ClosedExactlyOnce(convert: Converter, steps: seq<Step>, id: nat)
    ensures var s := Run(convert, steps);
            (exists h, m :: Opened(id, h, m) in s.log) ==> (id in s.jobs <==> Closed(id) !in s.log)
    ensures var log := Run(convert, steps).log;
            forall i, j | 0 <= i < j < |log| && log[i] == Closed(id) ::
              log[j] != Closed(id) && !(log[j].Written? && log[j].id == id)
  {
    var s := Run(convert, steps);
    RunKeeps(convert, steps);
    if id in s.jobs { assert JobTold(convert, s.log, id, s.jobs[id]); }
    forall i, j | 0 <= i < j < |s.log| && s.log[i] == Closed(id)
      ensures s.log[j] != Closed(id) && !(s.log[j].Written? && s.log[j].id == id)
    {
      LawfulAt(convert, s.log, j);
      assert s.log[..j][i] == Closed(id);
    }
  }

  /** The Stale outcome cannot happen: the wait ends on a signal only when the payload is here or the manager stops, and
      neither can be undone before the worker looks again. */
  lemma NeverStale(s: State, hash: Hash, stopped: bool)
    requires s.stop ==> stopped
    ensures Decide(s, hash, Signalled(s, hash), stopped) != Stale
  {
  }

  lemma RunMore(convert: Converter, steps: seq<Step>, more: seq<Step>)
    requires more != []
    ensures var n := |more| - 1;
            Run(convert, steps + more) == Next(Run(convert, steps + more[..n]), convert, more[n])
  {
    assert (steps + more)[..|steps + more| - 1] == steps + more[..|more| - 1];
  }

  /** A step that gives a worker waiting for `hash` no reason to leave its wait. */
  predicate NoReason(step: Step, id: nat, hash: Hash) {
    match step
    case Set(_, payload) => payload != hash
    case Provide(h, _) => h != hash
    case Resume(i, late, destroyed) => !destroyed && !(i == id && late)
    case Destroy => false
    case _ => true
  }

  /** So a worker whose hash is replaced is not woken by that, nor by anything else short of its hash being provided or
      set, the manager stopping, or its time being over: through all of that it keeps waiting. */
  lemma {:induction false} SupersededKeepsWaiting(convert: Converter, steps: seq<Step>, more: seq<Step>, id: nat)
    requires var s := Run(convert, steps);
             !s.stop && id in s.jobs && s.jobs[id].Waiting? && !Matches(s, s.jobs[id].hash) &&
             forall step | step in more :: NoReason(step, id, s.jobs[id].hash)
    ensures var s, t := Run(convert, steps), Run(convert, steps + more);
            !t.stop && id in t.jobs && t.jobs[id] == s.jobs[id] && !Matches(t, s.jobs[id].hash)
    decreases |more|
  {
    if more == [] {
      assert steps + more == steps;
    } else {
      hide Inv, Run, Represent;
      var n := |more| - 1;
      assert more[n] in more && forall step | step in more[..n] :: step in more;
      SupersededKeepsWaiting(convert, steps, more[..n], id);
      RunMore(convert, steps, more);
      RunKeeps(convert, steps + more[..n]);
      KeptWaiting(convert, Run(convert, steps + more[..n]), more[n], id);
    }
  }

  lemma KeptWaiting(convert: Converter, t: State, step: Step, id: nat)
    requires Inv(convert, t) && !t.stop && id in t.jobs && t.jobs[id].Waiting? && !Matches(t, t.jobs[id].hash)
    requires NoReason(step, id, t.jobs[id].hash)
    ensures var u := Next(t, convert, step);
            !u.stop && id in u.jobs && u.jobs[id] == t.jobs[id] && !Matches(u, t.jobs[id].hash)
  {
    hide Lawful, CurrentHash, CurrentKind, LatestPayload, Represent;
    assert id < t.nextId;
  }

  lemma OneStep(convert: Converter, steps: seq<Step>, step: Step)
    ensures Run(convert, steps + [step]) == Next(Run(convert, steps), convert, step)
  {
    assert (steps + [step])[..|steps|] == steps;
  }

  /** A payload taken and written, nothing written when its form is empty, and the descriptor closed. */
  function Served(id: nat, hash: Hash, kind: Kind, mime: string, data: Text, content: Text): seq<Entry> {
    [Captured(id, hash, kind, mime, data)] + (if content == [] then [] else [Written(id, content)]) + [Closed(id)]
  }

  /** A paste is served at once, in its form, when a payload for the current hash is here; otherwise the hash is requested
      and the paste waits. */
  lemma SendServes(convert: Converter, steps: seq<Step>, mime: string) returns (content: Text)
    ensures var s, t := Run(convert, steps), Run(convert, steps + [Send(mime)]);
            if s.pendingData.Some? && s.pendingHash == s.currentHash then
              FormOf(convert, s.kind, s.pendingData.value, mime, content) &&
              Run(convert, steps + [Send(mime)] + [Flush(s.nextId)]).log ==
              s.log + [Opened(s.nextId, s.currentHash, mime)] +
              Served(s.nextId, s.currentHash, s.kind, mime, s.pendingData.value, content)
            else
              t.log == s.log + [Opened(s.nextId, s.currentHash, mime)] + [Requested(s.currentHash)] &&
              t.jobs == s.jobs[s.nextId := Waiting(s.currentHash, mime)]
  {
    OneStep(convert, steps, Send(mime));
    OneStep(convert, steps + [Send(mime)], Flush(Run(convert, steps).nextId));
    hide Run;
    content := SendServesAt(convert, Run(convert, steps), mime);
  }

  lemma SendServesAt(convert: Converter, s: State, mime: string) returns (content: Text)
    ensures var t := Next(s, convert, Send(mime));
            if s.pendingData.Some? && s.pendingHash == s.currentHash then
              FormOf(convert, s.kind, s.pendingData.value, mime, content) &&
              Next(t, convert, Flush(s.nextId)).log ==
              s.log + [Opened(s.nextId, s.currentHash, mime)] +
              Served(s.nextId, s.currentHash, s.kind, mime, s.pendingData.value, content)
            else
              t.log == s.log + [Opened(s.nextId, s.currentHash, mime)] + [Requested(s.currentHash)] &&
              t.jobs == s.jobs[s.nextId := Waiting(s.currentHash, mime)]
  {
    content := [];
    var id, shown := s.nextId, AfterOpen(s, mime);
    if Matches(s, s.currentHash) {
      var data := s.pendingData.value;
      content := Represent(convert, s.kind, data, mime);
      RepresentHasForm(convert, s.kind, data, mime);
      hide Represent, FormOf;
      var t := AfterCapture(shown, convert, id);
      assert Next(s, convert, Send(mime)) == t && t.jobs[id] == Writing(content);
      assert t.log == s.log + [Opened(id, s.currentHash, mime)] + [Captured(id, s.currentHash, s.kind, mime, data)];
      hide AfterSend, AfterCapture, AfterOpen, Next;
      assert AfterFlush(t, id).log == t.log + (if content == [] then [] else [Written(id, content)]) + [Closed(id)];
      ServedBehind(s.log + [Opened(id, s.currentHash, mime)], id, s.currentHash, s.kind, mime, data, content);
      FlushIs(convert, t, id);
    }
  }

  lemma FlushIs(convert: Converter, s: State, id: nat)
    ensures Next(s, convert, Flush(id)) == AfterFlush(s, id)
  {
  }

  lemma ServedBehind(log: seq<Entry>, id: nat, hash: Hash, kind: Kind, mime: string, data: Text, content: Text)
    ensures log + [Captured(id, hash, kind, mime, data)] + (if content == [] then [] else [Written(id, content)]) +
            [Closed(id)] == log + Served(id, hash, kind, mime, data, content)
  {
  }

  /** A selection with its payload is what later pastes get; one announced without is what they ask for; a payload for
      another hash than the current one is ignored. Destroying the manager stops it. */
  lemma SelectionTaken(convert: Converter, steps: seq<Step>, kind: Kind, payload: Text, hash: Hash)
    ensures var s, t := Run(convert, steps), Run(convert, steps + [Set(kind, payload)]);
            t.pendingData == Some(payload) && t.pendingHash == t.currentHash == payload && t.kind == kind &&
            t.jobs == s.jobs && t.nextId == s.nextId && t.stop == s.stop &&
            t.log == s.log + [Selected(payload, kind, Some(payload))]
    ensures var s, t := Run(convert, steps), Run(convert, steps + [Announce(kind, hash)]);
            t.pendingData == None && t.pendingHash == [] && t.currentHash == hash && t.kind == kind &&
            t.jobs == s.jobs && t.nextId == s.nextId && t.stop == s.stop && t.log == s.log + [Selected(hash, kind, None)]
    ensures var s, t := Run(convert, steps), Run(convert, steps + [Provide(hash, payload)]);
            if hash == s.currentHash then
              t.pendingData == Some(payload) && t.pendingHash == t.currentHash == hash && t.kind == s.kind &&
              t.jobs == s.jobs && t.nextId == s.nextId && t.stop == s.stop && t.log == s.log + [Accepted(hash, payload)]
            else t == s
    ensures Run(convert, steps + [Destroy]) == Run(convert, steps).(stop := true)
  {
    OneStep(convert, steps, Destroy);
    OneStep(convert, steps, Set(kind, payload));
    OneStep(convert, steps, Announce(kind, hash));
    OneStep(convert, steps, Provide(hash, payload));
    hide Run;
  }

  /** How a wait ends: with the payload of its hash unless the manager stops, with nothing on a stop or after ten seconds,
      and not at all otherwise. */
  lemma WaitEnds(convert: Converter, steps: seq<Step>, id: nat, late: bool, destroyed: bool) returns (content: Text)
    requires var s := Run(convert, steps); id in s.jobs && s.jobs[id].Waiting?
    ensures var s := Run(convert, steps); var hash, mime := s.jobs[id].hash, s.jobs[id].mime;
            var t := Run(convert, steps + [Resume(id, late, destroyed)] + [Flush(id)]);
            var here := s.pendingData.Some? && s.pendingHash == hash;
            if here && !s.stop && !destroyed then
              FormOf(convert, s.kind, s.pendingData.value, mime, content) && id !in t.jobs &&
              t.log == s.log + Served(id, hash, s.kind, mime, s.pendingData.value, content)
            else if here || s.stop || late then
              id !in t.jobs && t.log == s.log + [Closed(id)]
            else t == s
  {
    OneStep(convert, steps, Resume(id, late, destroyed));
    OneStep(convert, steps + [Resume(id, late, destroyed)], Flush(id));
    hide Run;
    content := WaitEndsAt(convert, Run(convert, steps), id, late, destroyed);
  }

  lemma WakesAt(convert: Converter, s: State, id: nat, late: bool, destroyed: bool)
    requires id in s.jobs && s.jobs[id].Waiting?
    ensures var hash, mime := s.jobs[id].hash, s.jobs[id].mime;
            var t := Next(s, convert, Resume(id, late, destroyed));
            var here := s.pendingData.Some? && s.pendingHash == hash;
            if here && !s.stop && !destroyed then
              id in t.jobs && t.jobs[id] == Writing(Represent(convert, s.kind, s.pendingData.value, mime)) &&
              t.log == s.log + [Captured(id, hash, s.kind, mime, s.pendingData.value)]
            else if here || s.stop || late then id in t.jobs && t.jobs[id] == Writing([]) && t.log == s.log
            else t == s
  {
    hide Represent;
  }

  lemma FlushesAt(convert: Converter, s: State, id: nat)
    requires id in s.jobs
    ensures var t := Next(s, convert, Flush(id));
            match s.jobs[id]
            case Waiting(_, _) => t == s
            case Writing(content) =>
              id !in t.jobs &&
              t.log == s.log + (if content == [] then [] else [Written(id, content)]) + [Closed(id)]
  {
  }

  lemma WaitEndsAt(convert: Converter, s: State, id: nat, late: bool, destroyed: bool) returns (content: Text)
    requires id in s.jobs && s.jobs[id].Waiting?
    ensures var hash, mime := s.jobs[id].hash, s.jobs[id].mime;
            var t := Next(Next(s, convert, Resume(id, late, destroyed)), convert, Flush(id));
            var here := s.pendingData.Some? && s.pendingHash == hash;
            if here && !s.stop && !destroyed then
              FormOf(convert, s.kind, s.pendingData.value, mime, content) && id !in t.jobs &&
              t.log == s.log + Served(id, hash, s.kind, mime, s.pendingData.value, content)
            else if here || s.stop || late then
              id !in t.jobs && t.log == s.log + [Closed(id)]
            else t == s
  {
    content := [];
    var hash, mime := s.jobs[id].hash, s.jobs[id].mime;
    WakesAt(convert, s, id, late, destroyed);
    if s.pendingData.Some? {
      content := Represent(convert, s.kind, s.pendingData.value, mime);
      RepresentHasForm(convert, s.kind, s.pendingData.value, mime);
      ServedBehind(s.log, id, hash, s.kind, mime, s.pendingData.value, content);
    }
    hide Represent, FormOf, Served, Next;
    FlushesAt(convert, Next(s, convert, Resume(id, late, destroyed)), id);
    assert s.log + [] == s.log;
  }

  /** A step that leaves selection, payload and this worker alone. */
  predicate Elsewhere(step: Step, id: nat) {
    match step
    case Send(_) => true
    case Resume(i, _, destroyed) => i != id && !destroyed
    case Flush(i) => i != id
    case _ => false
  }

  /** A paste that waits for the current hash receives the payload that is then provided, whatever other pastes do in
      between. */
  lemma LatePayloadIsWritten(convert: Converter, steps: seq<Step>, more: seq<Step>, id: nat, data: Text)
    returns (content: Text)
    requires var s := Run(convert, steps);
             !s.stop && id in s.jobs && s.jobs[id].Waiting? && s.jobs[id].hash == s.currentHash
    requires forall step | step in more :: Elsewhere(step, id)
    ensures var s := Run(convert, steps); var mime := s.jobs[id].mime;
            var provided := steps + [Provide(s.currentHash, data)] + more;
            FormOf(convert, s.kind, data, mime, content) &&
            Run(convert, provided + [Resume(id, false, false)] + [Flush(id)]).log ==
            Run(convert, provided).log + Served(id, s.currentHash, s.kind, mime, data, content)
  {
    hide Run, Next, Inv, FormOf;
    var s := Run(convert, steps);
    var provided := steps + [Provide(s.currentHash, data)];
    SelectionTaken(convert, steps, s.kind, data, s.currentHash);
    Undisturbed(convert, provided, more, id);
    content := WaitEnds(convert, provided + more, id, false, false);
  }

  lemma {:induction false} Undisturbed(convert: Converter, steps: seq<Step>, more: seq<Step>, id: nat)
    requires id in Run(convert, steps).jobs && forall step | step in more :: Elsewhere(step, id)
    ensures var s, t := Run(convert, steps), Run(convert, steps + more);
            id in t.jobs && t.jobs[id] == s.jobs[id] && t.stop == s.stop && t.currentHash == s.currentHash &&
            t.kind == s.kind && t.pendingData == s.pendingData && t.pendingHash == s.pendingHash
    decreases |more|
  {
    if more == [] {
      assert steps + more == steps;
    } else {
      hide Inv, Run, Represent;
      var n := |more| - 1;
      assert more[n] in more && forall step | step in more[..n] :: step in more;
      Undisturbed(convert, steps, more[..n], id);
      RunMore(convert, steps, more);
      RunKeeps(convert, steps + more[..n]);
      OneUndisturbed(convert, Run(convert, steps + more[..n]), more[n], id);
    }
  }

  lemma OneUndisturbed(convert: Converter, t: State, step: Step, id: nat)
    requires Inv(convert, t) && id in t.jobs && Elsewhere(step, id)
    ensures var u := Next(t, convert, step);
            id in u.jobs && u.jobs[id] == t.jobs[id] && u.stop == t.stop && u.currentHash == t.currentHash &&
            u.kind == t.kind && u.pendingData == t.pendingData && u.pendingHash == t.pendingHash
  {
    hide Lawful, CurrentHash, CurrentKind, LatestPayload, Represent;
    assert id < t.nextId;
  }

  /** No paste hangs: after its ten seconds at the latest the descriptor gets closed. */
  lemma PasteEnds(convert: Converter, steps: seq<Step>, id: nat)
    requires id in Run(convert, steps).jobs
    ensures var s := Run(convert, steps + [Resume(id, true, false)] + [Flush(id)]);
            id !in s.jobs && Closed(id) in s.log
  {
    var once := steps + [Resume(id, true, false)];
    assert once[..|once| - 1] == steps;
    assert (once + [Flush(id)])[..|once|] == once;
    var t := Run(convert, once);
    assert id in t.jobs && t.jobs[id].Writing?;
    var s := Run(convert, once + [Flush(id)]);
    assert s.log[|s.log| - 1] == Closed(id);
  }

  // ----------------------------------------------------- the kind of a paste

  type Selection = (Hash, Kind)

  predicate Selecting(step: Step) {
    step.Set? || step.Announce?
  }

  function SelectionOf(step: Step): Selection
    requires Selecting(step)
  {
    if step.Set? then (step.payload, step.kind) else (step.hash, step.kind)
  }

  /** The run selects only these, and nobody pastes before something is selected. */
  ghost predicate Selects(all: iset<Selection>, steps: seq<Step>) {
    && (forall step | step in steps && Selecting(step) :: SelectionOf(step) in all)
    && (forall i | 0 <= i < |steps| && steps[i].Send? :: exists step :: step in steps[..i] && Selecting(step))
  }

  /** No hash is selected under two kinds. */
  ghost predicate OneKind(all: iset<Selection>) {
    forall p, q | p in all && q in all && p.0 == q.0 :: p.1 == q.1
  }

  /** Every paste is given the kind that was selected when it was opened. */
  ghost predicate KindsKept(log: seq<Entry>) {
    forall i, j | 0 <= i < j < |log| && log[i].Opened? && log[j].Captured? && log[i].id == log[j].id ::
      log[j].kind == CurrentKind(log[..i])
  }

  ghost predicate HasSelection(log: seq<Entry>) {
    exists e :: e in log && e.Selected?
  }

  ghost predicate Offered(all: iset<Selection>, log: seq<Entry>) {
    && (forall e | e in log && e.Selected? :: (e.hash, e.kind) in all)
    && (forall i | 0 <= i < |log| && log[i].Opened? :: HasSelection(log[..i]))
  }

  /** What a step can add to the log, as far as selections and openings go. */
  lemma News(convert: Converter, s: State, step: Step)
    ensures var log := Next(s, convert, step).log;
            && s.log <= log
            && (forall e | e in log[|s.log|..] && e.Selected? :: Selecting(step) && (e.hash, e.kind) == SelectionOf(step))
            && (forall i | |s.log| <= i < |log| && log[i].Opened? :: step.Send? && i == |s.log|)
            && (Selecting(step) ==> HasSelection(log))
  {
    hide Represent;
    if Selecting(step) {
      var log := Next(s, convert, step).log;
      assert log[|s.log|].Selected? && log[|s.log|] in log;
    }
  }

  lemma HasMore(log: seq<Entry>, more: seq<Entry>)
    requires log <= more && HasSelection(log)
    ensures HasSelection(more)
  {
    var e :| e in log && e.Selected?;
    assert e in more;
  }

  lemma OfferedMore(all: iset<Selection>, log: seq<Entry>, more: seq<Entry>)
    requires Offered(all, log) && log <= more
    requires forall e | e in more[|log|..] && e.Selected? :: (e.hash, e.kind) in all
    requires forall i | |log| <= i < |more| && more[i].Opened? :: i == |log| && HasSelection(log)
    ensures Offered(all, more)
  {
    hide HasSelection;
    assert more == log + more[|log|..];
    forall i | 0 <= i < |more| && more[i].Opened? ensures HasSelection(more[..i]) {
      assert i <= |log| ==> more[..i] == log[..i];
      assert log[..|log|] == log;
    }
  }

  lemma {:induction false} LoggedSelections(convert: Converter, all: iset<Selection>, steps: seq<Step>)
    requires Selects(all, steps)
    ensures Offered(all, Run(convert, steps).log)
    ensures (exists step :: step in steps && Selecting(step)) ==> HasSelection(Run(convert, steps).log)
    decreases |steps|
  {
    if steps != [] {
      hide Next, HasSelection, Offered;
      var n := |steps| - 1;
      var init, step := steps[..n], steps[n];
      assert step in steps && forall x | x in init :: x in steps;
      forall i | 0 <= i < |init| ensures init[..i] == steps[..i] {
      }
      LoggedSelections(convert, all, init);
      var s := Run(convert, init);
      News(convert, s, step);
      OfferedMore(all, s.log, Run(convert, steps).log);
      if x :| x in steps && Selecting(x) {
        if x in init { HasMore(s.log, Run(convert, steps).log); }
      }
    } else {
      assert Run(convert, steps).log == [];
    }
  }

  lemma {:induction false} LastSelection(log: seq<Entry>) returns (payload: Option<Text>)
    requires HasSelection(log)
    ensures Selected(CurrentHash(log), CurrentKind(log), payload) in log
    decreases |log|
  {
    var n := |log| - 1;
    if log[n].Selected? {
      payload := log[n].payload;
      assert log[n] == Selected(CurrentHash(log), CurrentKind(log), payload);
    } else {
      var e :| e in log && e.Selected?;
      assert e in log[..n];
      payload := LastSelection(log[..n]);
    }
  }

  lemma OpenedOnce(convert: Converter, log: seq<Entry>, i: nat, j: nat)
    requires Lawful(convert, log) && i < j < |log| && log[i].Opened? && log[j].Opened?
    ensures log[i].id != log[j].id
  {
    LawfulAt(convert, log, j);
    assert log[..j][i] == Opened(log[i].id, log[i].hash, log[i].mime);
  }

  lemma KindKept(convert: Converter, all: iset<Selection>, steps: seq<Step>, i: nat, j: nat)
    requires OneKind(all) && Selects(all, steps) && i < j < |Run(convert, steps).log|
    requires var log := Run(convert, steps).log; log[i].Opened? && log[j].Captured? && log[i].id == log[j].id
    ensures var log := Run(convert, steps).log; log[j].kind == CurrentKind(log[..i])
  {
    var log := Run(convert, steps).log;
    RunKeeps(convert, steps);
    LoggedSelections(convert, all, steps);
    hide Run, Lawful, CurrentHash, CurrentKind, HasSelection, LatestPayload;
    LawfulAt(convert, log, i);
    LawfulAt(convert, log, j);
    var b :| 0 <= b < j && log[..j][b] == Opened(log[j].id, log[j].hash, log[j].mime);
    if i != b { OpenedOnce(convert, log, if i < b then i else b, if i < b then b else i); }
    HasMore(log[..i], log[..j]);
    var p := LastSelection(log[..i]);
    var q := LastSelection(log[..j]);
    assert Selected(log[i].hash, CurrentKind(log[..i]), p) in log && Selected(log[i].hash, log[j].kind, q) in log;
    assert (log[i].hash, CurrentKind(log[..i])) in all && (log[i].hash, log[j].kind) in all;
  }

  function SwitchedLog(h: Hash, k: Kind, other: Kind, mime: string, data: Text): seq<Entry> {
    [Selected(h, k, None), Opened(0, h, mime), Requested(h), Selected(h, other, None), Accepted(h, data),
     Captured(0, h, other, mime, data)]
  }

  lemma SwitchedState(convert: Converter, h: Hash, k: Kind, other: Kind, mime: string, data: Text)
    ensures var s := Next(Next(Next(Next(Next(INITIAL, convert, Announce(k, h)), convert, Send(mime)),
                                    convert, Announce(other, h)), convert, Provide(h, data)),
                          convert, Resume(0, false, false));
            0 in s.jobs && s.jobs[0] == Writing(Represent(convert, other, data, mime)) &&
            s.log == SwitchedLog(h, k, other, mime, data)
  {
    hide Represent;
    var s1 := AfterAnnounce(INITIAL, k, h);
    assert s1.log == [Selected(h, k, None)];
    var s2 := AfterSend(s1, convert, mime);
    assert s2.log == [Selected(h, k, None), Opened(0, h, mime), Requested(h)] && s2.jobs == map[0 := Waiting(h, mime)];
    var s3 := AfterAnnounce(s2, other, h);
    var s4 := AfterProvide(s3, h, data);
    var s5 := AfterResume(s4, convert, 0, false, false);
    assert s5.log == s4.log + [Captured(0, h, other, mime, data)];
  }

  lemma SwitchedKinds(h: Hash, k: Kind, other: Kind, mime: string, data: Text)
    requires k != other
    ensures !KindsKept(SwitchedLog(h, k, other, mime, data))
  {
    var log := SwitchedLog(h, k, other, mime, data);
    assert log[..1] == [Selected(h, k, None)] && CurrentKind(log[..1]) == k;
    assert log[1] == Opened(0, h, mime) && log[5] == Captured(0, h, other, mime, data);
  }

  lemma SwitchedSelects(h: Hash, k: Kind, other: Kind, mime: string, data: Text)
    ensures Selects(iset{(h, k), (h, other)},
                    [Announce(k, h), Send(mime), Announce(other, h), Provide(h, data), Resume(0, false, false)])
  {
    var steps := [Announce(k, h), Send(mime), Announce(other, h), Provide(h, data), Resume(0, false, false)];
    assert SelectionOf(steps[0]) == (h, k) && SelectionOf(steps[2]) == (h, other);
    assert steps[..1][0] == steps[0] && Selecting(steps[0]);
    forall i | 0 <= i < |steps| && steps[i].Send? ensures steps[0] in steps[..i] {
      assert i == 1;
    }
  }

  lemma RunFive(convert: Converter, a: Step, b: Step, c: Step, d: Step, e: Step)
    ensures Run(convert, [a, b, c, d, e]) ==
            Next(Next(Next(Next(Next(INITIAL, convert, a), convert, b), convert, c), convert, d), convert, e)
  {
    hide Next;
    assert [a][..0] == [] && [a, b][..1] == [a] && [a, b, c][..2] == [a, b] && [a, b, c, d][..3] == [a, b, c];
    assert [a, b, c, d, e][..4] == [a, b, c, d];
    assert Run(convert, [a]) == Next(INITIAL, convert, a);
    assert Run(convert, [a, b, c]) == Next(Run(convert, [a, b]), convert, c);
  }

  /** A hash announced again under another kind: the paste opened for the first is given what answers the second, in a
      form of that kind. */
  lemma KindSwitched(convert: Converter, h: Hash, k: Kind, other: Kind, mime: string, data: Text) returns (steps: seq<Step>)
    requires k != other
    ensures Selects(iset{(h, k), (h, other)}, steps) && !KindsKept(Run(convert, steps).log)
    ensures var s := Run(convert, steps);
            0 in s.jobs && s.jobs[0] == Writing(Represent(convert, other, data, mime)) &&
            Opened(0, h, mime) in s.log && Captured(0, h, other, mime, data) in s.log
  {
    hide Run, Next, Represent, KindsKept, Selects;
    steps := [Announce(k, h), Send(mime), Announce(other, h), Provide(h, data), Resume(0, false, false)];
    SwitchedSelects(h, k, other, mime, data);
    SwitchedState(convert, h, k, other, mime, data);
    RunFive(convert, Announce(k, h), Send(mime), Announce(other, h), Provide(h, data), Resume(0, false, false));
    SwitchedKinds(h, k, other, mime, data);
  }

  /** Pastes are given the kind they were opened for in every run over some selections exactly when no hash among them
      has two kinds. */
  lemma KindsKeptIffOneKind(convert: Converter, all: iset<Selection>)
    ensures OneKind(all) <==> forall steps | Selects(all, steps) :: KindsKept(Run(convert, steps).log)
  {
    if OneKind(all) {
      forall steps, i, j | Selects(all, steps) && 0 <= i < j < |Run(convert, steps).log| &&
                           Run(convert, steps).log[i].Opened? && Run(convert, steps).log[j].Captured? &&
                           Run(convert, steps).log[i].id == Run(convert, steps).log[j].id
        ensures Run(convert, steps).log[j].kind == CurrentKind(Run(convert, steps).log[..i])
      {
        KindKept(convert, all, steps, i, j);
      }
    } else {
      var p, q :| p in all && q in all && p.0 == q.0 && p.1 != q.1;
      var steps := KindSwitched(convert, p.0, p.1, q.1, [], []);
      assert Selects(all, steps);
    }
  }
}
