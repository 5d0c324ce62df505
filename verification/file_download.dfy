/** The pipelined chunked download of the macOS helper, and the chunk server on the other side. */
module FileDownload {
  import opened Bytes

  const CHUNK: nat := 262144        // kDefaultChunkSize
  const PIPELINE_DEPTH: nat := 4    // kPipelineDepth

  // ------------------------------------------------------------- the server

  datatype Served = Served(data: seq<byte>, isLast: bool)

  function ServeChunk(file: seq<byte>, offset: nat, size: uint32): Served {
    var chunkSize: nat := if size > 0 then size else CHUNK;
    if offset >= |file| then Served([], true)
    else
      var toRead := Min(chunkSize, |file| - offset);
      Served(file[offset..offset + toRead], offset + toRead >= |file|)
  }

  /** A slice of the file of at most the size asked for, 256 KiB when none is given; the last one is marked, and so is
      any answer from the end on, which holds nothing. */
  lemma ServedSlice(file: seq<byte>, offset: nat, size: uint32)
    ensures var r, n := ServeChunk(file, offset, size), if size == 0 then 262144 else size as int;
            if offset >= |file| then r.data == [] && r.isLast
            else |r.data| == (if offset + n < |file| then n else |file| - offset) > 0 &&
                 r.data == file[offset..offset + |r.data|] && (r.isLast <==> offset + n >= |file|)
  {
  }

  /** A client that asks for these sizes in turn, each behind what it has, until an answer is marked as the last. */
  function ReadInTurn(file: seq<byte>, offset: nat, sizes: seq<uint32>): Served
    decreases |sizes|
  {
    if sizes == [] then Served([], false) else
    var r := ServeChunk(file, offset, sizes[0]);
    if r.isLast then r else
    var rest := ReadInTurn(file, offset + |r.data|, sizes[1..]);
    Served(r.data + rest.data, rest.isLast)
  }

  /** The bytes these requests ask for. */
  function Asked(sizes: seq<uint32>): nat {
    if sizes == [] then 0 else (if sizes[0] == 0 then 262144 else sizes[0]) + Asked(sizes[1..])
  }

  /** Whatever the sizes, the answers joined are the file from the offset on, as far as was asked; and the last one is
      marked exactly when they reach its end. */
  lemma {:induction false} ReadInTurnReads(file: seq<byte>, offset: nat, sizes: seq<uint32>)
    requires offset <= |file|
    ensures var r, n := ReadInTurn(file, offset, sizes), offset + Asked(sizes);
            r.data == file[offset..if n < |file| then n else |file|] && (r.isLast <==> sizes != [] && n >= |file|)
    decreases |sizes|
  {
    hide *;
    if sizes == [] {
      NothingRead(file, offset);
    } else {
      ServedSlice(file, offset, sizes[0]);
      ReadFirst(file, offset, sizes);
      AskedMore(sizes);
      var n := |ServeChunk(file, offset, sizes[0]).data|;
      if !ServeChunk(file, offset, sizes[0]).isLast {
        ReadInTurnReads(file, offset + n, sizes[1..]);
        JoinSlices(file, offset, n, |ReadInTurn(file, offset + n, sizes[1..]).data|);
      }
    }
  }

  lemma NothingRead(file: seq<byte>, offset: nat)
    requires offset <= |file|
    ensures ReadInTurn(file, offset, []) == Served(file[offset..offset], false) && Asked([]) == 0
  {
  }

  lemma ReadFirst(file: seq<byte>, offset: nat, sizes: seq<uint32>)
    requires sizes != []
    ensures var r := ServeChunk(file, offset, sizes[0]); var rest := ReadInTurn(file, offset + |r.data|, sizes[1..]);
            ReadInTurn(file, offset, sizes) == if r.isLast then r else Served(r.data + rest.data, rest.isLast)
  {
  }

  lemma AskedMore(sizes: seq<uint32>)
    requires sizes != []
    ensures Asked(sizes) == (if sizes[0] == 0 then 262144 else sizes[0] as int) + Asked(sizes[1..])
    ensures sizes[1..] == [] ==> Asked(sizes[1..]) == 0
  {
  }

  lemma JoinSlices(file: seq<byte>, at: nat, n: nat, m: nat)
    requires at + n + m <= |file|
    ensures file[at..at + n] + file[at + n..at + n + m] == file[at..at + n + m]
  {
  }

  // --------------------------------------------------------------- the disk

  /** A cell nobody has written is None: a hole. */
  type Disk = seq<Option<byte>>

  function WriteAt(d: Disk, offset: nat, data: seq<byte>): (r: Disk)
    ensures |r| == if |d| < offset + |data| then offset + |data| else |d|
  {
    var n := if |d| < offset + |data| then offset + |data| else |d|;
    seq(n, i requires 0 <= i < n =>
      if offset <= i < offset + |data| then Some(data[i - offset]) else if i < |d| then d[i] else None)
  }

  /** What a broken write leaves: nothing changes when no byte went out. */
  function WritePart(d: Disk, offset: nat, data: seq<byte>, upTo: nat): Disk {
    var part := data[..Min(upTo, |data|)];
    if part == [] then d else WriteAt(d, offset, part)
  }

  function Whole(file: seq<byte>): Disk {
    seq(|file|, i requires 0 <= i < |file| => Some(file[i]))
  }

  // --------------------------------------------------------------- the task

  datatype Outcome = Done | CreateFailed | WriteFailed | ServerError | Cancelled

  /** A write goes through, or throws with some first bytes on disk. */
  datatype WriteFate = Written | Broken(upTo: nat)

  datatype Chunk = Chunk(offset: nat, data: seq<byte>, error: bool)

  datatype Task = Task(
    fileSize: nat,
    inFlight: nat,
    next: nat,
    received: nat,
    cancelled: bool,
    finished: bool,
    disk: Disk,
    sent: seq<nat>,
    completions: seq<Outcome>)

  function NewTask(fileSize: nat): Task {
    Task(fileSize, 0, 0, 0, false, false, [], [], [])
  }

  function FinishTask(t: Task, o: Outcome): Task {
    if t.finished then t else t.(finished := true, completions := t.completions + [o])
  }

  function Prime(t: Task): Task
    decreases PIPELINE_DEPTH - t.inFlight
  {
    if t.inFlight < PIPELINE_DEPTH && t.next < t.fileSize
    then Prime(t.(inFlight := t.inFlight + 1, next := t.next + CHUNK, sent := t.sent + [t.next]))
    else t
  }

  function StartTask(t: Task, canOpen: bool): Task {
    if t.fileSize == 0 then FinishTask(t, Done)
    else if !canOpen then FinishTask(t, CreateFailed)
    else Prime(t)
  }

  function Answered(t: Task): Task {
    if t.inFlight > 0 then t.(inFlight := t.inFlight - 1) else t
  }

  function HandleChunk(t: Task, c: Chunk, write: WriteFate): Task {
    if t.cancelled || t.finished then t else
    var t1 := Answered(t);
    if c.error then FinishTask(t1, ServerError)
    else if c.data == [] then FinishTask(t1, ServerError)
    else if write.Broken? then
      FinishTask(t1.(disk := WritePart(t1.disk, c.offset, c.data, write.upTo)), WriteFailed)
    else
      var t2 := t1.(disk := WriteAt(t1.disk, c.offset, c.data), received := t1.received + |c.data|);
      if t2.next >= t2.fileSize && t2.inFlight == 0 then FinishTask(t2, Done) else Prime(t2)
  }

  function CancelTask(t: Task): Task {
    FinishTask(t.(cancelled := true), Cancelled)
  }

  /** The task as the helper keeps it. `sendRequest` is the list `sent`, the completion calls are `completions`. */
  class FileDownloadTask {
    const fileSize: uint64
    var inFlight: nat
    var nextRequestOffset: uint64
    var receivedBytes: nat
    var isCancelled: bool
    var isFinished: bool
    var disk: Disk
    var sent: seq<nat>
    var completions: seq<Outcome>

    /** The request offset stays on the grid just past the end, so its 64-bit addition cannot trap. */
    ghost predicate Valid()
      reads this
    {
      fileSize < TWO63 && nextRequestOffset as nat < fileSize + CHUNK
    }

    function Now(): Task
      reads this
    {
      Task(fileSize, inFlight, nextRequestOffset, receivedBytes, isCancelled, isFinished, disk, sent, completions)
    }

    /** The progress object's signed unit count refuses sizes from 2^63 on. */
    constructor (fileSize: uint64)
      requires fileSize < TWO63
      ensures Valid() && Now() == NewTask(fileSize)
    {
      this.fileSize := fileSize;
      inFlight, nextRequestOffset, receivedBytes := 0, 0, 0;
      isCancelled, isFinished := false, false;
      disk, sent, completions := [], [], [];
    }

    method Start(canOpen: bool)
      requires Valid() && Now() == NewTask(fileSize)
      modifies this
      ensures Valid() && Now() == StartTask(old(Now()), canOpen)
    {
      if fileSize == 0 {
        Finish(Done);
        return;
      }
      if !canOpen {
        Finish(CreateFailed);
        return;
      }
      PrimeRequests();
    }

    method PrimeRequests()
      requires Valid()
      modifies this`sent, this`nextRequestOffset, this`inFlight
      ensures Valid() && Now() == Prime(old(Now()))
    {
      while inFlight < PIPELINE_DEPTH && nextRequestOffset < fileSize
        invariant Valid() && Prime(Now()) == Prime(old(Now()))
        decreases PIPELINE_DEPTH - inFlight
      {
        sent := sent + [nextRequestOffset];
        nextRequestOffset := nextRequestOffset + CHUNK;
        inFlight := inFlight + 1;
      }
    }

    method HandleChunkData(c: Chunk, write: WriteFate)
      requires Valid()
      modifies this
      ensures Valid() && Now() == HandleChunk(old(Now()), c, write)
    {
      if isCancelled || isFinished { return; }
      if inFlight > 0 { inFlight := inFlight - 1; }
      if c.error {
        Finish(ServerError);
        return;
      }
      if |c.data| == 0 {
        Finish(ServerError);
        return;
      }
      if write.Broken? {
        disk := WritePart(disk, c.offset, c.data, write.upTo);
        Finish(WriteFailed);
        return;
      }
      disk := WriteAt(disk, c.offset, c.data);
      receivedBytes := receivedBytes + |c.data|;
      if nextRequestOffset >= fileSize && inFlight == 0 {
        Finish(Done);
        return;
      }
      PrimeRequests();
    }

    method Cancel()
      requires Valid()
      modifies this
      ensures Valid() && Now() == CancelTask(old(Now()))
    {
      isCancelled := true;
      Finish(Cancelled);
    }

    method Finish(o: Outcome)
      requires Valid()
      modifies this`isFinished, this`completions
      ensures Valid() && Now() == FinishTask(old(Now()), o)
    {
      if isFinished { return; }
      isFinished := true;
      completions := completions + [o];
    }
  }

  // -------------------------------------------------- any mix of events

  datatype Event = Reply(chunk: Chunk, write: WriteFate) | CancelDownload

  function Step(t: Task, e: Event): Task {
    match e
    case Reply(c, w) => HandleChunk(t, c, w)
    case CancelDownload => CancelTask(t)
  }

  function Run(fileSize: nat, canOpen: bool, events: seq<Event>): Task {
    if events == [] then StartTask(NewTask(fileSize), canOpen)
    else Step(Run(fileSize, canOpen, events[..|events| - 1]), events[|events| - 1])
  }

  function Replies(events: seq<Event>): nat {
    if events == [] then 0
    else Replies(events[..|events| - 1]) + if events[|events| - 1].Reply? then 1 else 0
  }

  /** ceil(fileSize / CHUNK). */
  function Slots(fileSize: nat): nat {
    (fileSize + CHUNK - 1) / CHUNK
  }

  /** Requests so far are exactly the first points of the chunk grid, each below the file size. */
  ghost predicate OnGrid(t: Task) {
    && t.next == CHUNK * |t.sent|
    && (forall i | 0 <= i < |t.sent| :: t.sent[i] == CHUNK * i)
    && |t.sent| <= Slots(t.fileSize)
  }

  /** The pipeline holds four requests unless the whole file has been asked for. */
  ghost predicate Full(t: Task) {
    t.inFlight == PIPELINE_DEPTH || t.next >= t.fileSize
  }

  lemma SlotArithmetic(fileSize: nat, n: nat)
    ensures CHUNK * n < fileSize <==> n < Slots(fileSize)
  {
  }

  lemma {:induction false} PrimeKeeps(t: Task)
    requires OnGrid(t) && t.inFlight <= PIPELINE_DEPTH
    ensures var p := Prime(t);
            OnGrid(p) && Full(p) && t.inFlight <= p.inFlight <= PIPELINE_DEPTH && t.sent <= p.sent &&
            p == t.(inFlight := p.inFlight, next := p.next, sent := p.sent) &&
            |p.sent| - p.inFlight == |t.sent| - t.inFlight &&
            (t.next < t.fileSize && t.inFlight < PIPELINE_DEPTH ==> p.inFlight > 0)
    decreases PIPELINE_DEPTH - t.inFlight
  {
    if t.inFlight < PIPELINE_DEPTH && t.next < t.fileSize {
      SlotArithmetic(t.fileSize, |t.sent|);
      PrimeKeeps(t.(inFlight := t.inFlight + 1, next := t.next + CHUNK, sent := t.sent + [t.next]));
    }
  }

  /** What holds whatever replies, errors and cancellations arrive. */
  ghost predicate Sound(t: Task, replies: nat) {
    && OnGrid(t) && t.inFlight <= PIPELINE_DEPTH
    && (t.cancelled ==> t.finished)
    && (if t.finished then |t.completions| == 1 else
        t.completions == [] && 1 <= t.inFlight && Full(t) && |t.sent| == t.inFlight + replies)
  }

  lemma StepKeepsSound(t: Task, e: Event, replies: nat)
    requires Sound(t, replies)
    ensures Sound(Step(t, e), replies + if e.Reply? then 1 else 0) && Step(t, e).fileSize == t.fileSize
    ensures t.finished ==> Step(t, e).completions == t.completions && Step(t, e).disk == t.disk && Step(t, e).sent == t.sent
  {
    if e.Reply? && !t.finished && !e.chunk.error && e.chunk.data != [] && e.write.Written? {
      var t2 := Answered(t).(disk := WriteAt(t.disk, e.chunk.offset, e.chunk.data), received := t.received + |e.chunk.data|);
      PrimeKeeps(t2);
    }
  }

  /** Every run: at most four in flight, offsets 0, C, 2C, ... each asked once, one completion exactly when finished,
      and while unfinished at least one request out. */
  lemma {:induction false} EveryRunSound(fileSize: nat, canOpen: bool, events: seq<Event>)
    ensures Sound(Run(fileSize, canOpen, events), Replies(events)) && Run(fileSize, canOpen, events).fileSize == fileSize
    ensures var t := Run(fileSize, canOpen, events);
            && t.inFlight <= 4 && (forall i | 0 <= i < |t.sent| :: t.sent[i] == 262144 * i < fileSize)
            && (if t.finished then |t.completions| == 1
                else t.completions == [] && 1 <= t.inFlight == |t.sent| - Replies(events) &&
                     (t.inFlight == 4 || 262144 * |t.sent| >= fileSize))
    decreases |events|
  {
    SlotArithmetic(fileSize, 0);
    if events == [] {
      var t := NewTask(fileSize);
      if fileSize > 0 && canOpen {
        SlotArithmetic(fileSize, 0);
        PrimeKeeps(t);
      }
    } else {
      EveryRunSound(fileSize, canOpen, events[..|events| - 1]);
      StepKeepsSound(Run(fileSize, canOpen, events[..|events| - 1]), events[|events| - 1], Replies(events[..|events| - 1]));
    }
  }

  /** No stall: a run with as many replies as the file has chunks, or with a cancel, has ended and reported once. */
  lemma DownloadEnds(fileSize: nat, canOpen: bool, events: seq<Event>)
    requires Replies(events) >= (fileSize + 262143) / 262144 || CancelDownload in events
    ensures Run(fileSize, canOpen, events).finished && |Run(fileSize, canOpen, events).completions| == 1
  {
    EveryRunSound(fileSize, canOpen, events);
    if CancelDownload in events {
      CancelEnds(fileSize, canOpen, events);
    }
  }

  lemma {:induction false} CancelEnds(fileSize: nat, canOpen: bool, events: seq<Event>)
    requires CancelDownload in events
    ensures Run(fileSize, canOpen, events).finished
    decreases |events|
  {
    var init := events[..|events| - 1];
    if events[|events| - 1] != CancelDownload {
      assert CancelDownload in init;
      CancelEnds(fileSize, canOpen, init);
    }
  }

  /** How a download starts: an empty file is done, one that cannot be created has failed, any other asks for its first
      chunks. */
  lemma StartsAs(fileSize: nat, canOpen: bool)
    ensures var t := Run(fileSize, canOpen, []);
            t.disk == [] &&
            if fileSize == 0 then t.completions == [Done] && t.sent == []
            else if !canOpen then t.completions == [CreateFailed] && t.sent == []
            else t.completions == [] && |t.sent| > 0
  {
    if fileSize > 0 && canOpen {
      SlotArithmetic(fileSize, 0);
      PrimeKeeps(NewTask(fileSize));
    }
  }

  lemma OneMoreEvent(fileSize: nat, canOpen: bool, events: seq<Event>, e: Event)
    ensures Run(fileSize, canOpen, events + [e]) == Step(Run(fileSize, canOpen, events), e)
  {
    assert (events + [e])[..|events|] == events;
  }

  /** These bytes are on disk at the offset, holes before them where there was nothing, and the rest is as it was. */
  ghost predicate WrittenTo(before: Disk, after: Disk, offset: nat, data: seq<byte>) {
    && |after| == (if |before| < offset + |data| then offset + |data| else |before|)
    && forall p | 0 <= p < |after| ::
         after[p] == if offset <= p < offset + |data| then Some(data[p - offset])
                     else if p < |before| then before[p] else None
  }

  /** What one more event does to a download that has not ended: an error or an empty chunk is a server error, a broken
      write a write error that leaves its first bytes on disk, a cancel is a cancel; a good chunk is written and ends the
      download as done exactly when it answers the last request of a file wholly asked for. After the end nothing
      happens. */
  lemma EventEnds(fileSize: nat, canOpen: bool, events: seq<Event>, e: Event)
    ensures var t, u := Run(fileSize, canOpen, events), Run(fileSize, canOpen, events + [e]);
            if t.finished then u.completions == t.completions && u.disk == t.disk && u.sent == t.sent
            else match e
            case CancelDownload => u.completions == [Cancelled] && u.disk == t.disk
            case Reply(c, w) =>
              if c.error || c.data == [] then u.completions == [ServerError] && u.disk == t.disk
              else match w
                case Broken(n) =>
                  u.completions == [WriteFailed] &&
                  if n == 0 then u.disk == t.disk
                  else WrittenTo(t.disk, u.disk, c.offset, if n < |c.data| then c.data[..n] else c.data)
                case Written =>
                  WrittenTo(t.disk, u.disk, c.offset, c.data) &&
                  u.completions == if |t.sent| == Replies(events) + 1 && 262144 * |t.sent| >= fileSize then [Done] else []
  {
    EveryRunSound(fileSize, canOpen, events);
    OneMoreEvent(fileSize, canOpen, events, e);
    hide Run;
    StepEnds(Run(fileSize, canOpen, events), e, Replies(events));
  }

  lemma StepEnds(t: Task, e: Event, replies: nat)
    requires Sound(t, replies)
    ensures var u := Step(t, e);
            if t.finished then u.completions == t.completions && u.disk == t.disk && u.sent == t.sent
            else match e
            case CancelDownload => u.completions == [Cancelled] && u.disk == t.disk
            case Reply(c, w) =>
              if c.error || c.data == [] then u.completions == [ServerError] && u.disk == t.disk
              else match w
                case Broken(n) =>
                  u.completions == [WriteFailed] &&
                  if n == 0 then u.disk == t.disk
                  else WrittenTo(t.disk, u.disk, c.offset, if n < |c.data| then c.data[..n] else c.data)
                case Written =>
                  WrittenTo(t.disk, u.disk, c.offset, c.data) &&
                  u.completions == if |t.sent| == replies + 1 && 262144 * |t.sent| >= t.fileSize then [Done] else []
  {
    hide WriteAt, WrittenTo, Prime;
    if e.Reply? && !t.finished && !e.chunk.error && e.chunk.data != [] {
      var c := e.chunk;
      match e.write {
        case Broken(n) =>
          assert c.data[..|c.data|] == c.data && c.data[..0] == [];
          WriteIs(t.disk, c.offset, c.data[..Min(n, |c.data|)]);
        case Written =>
          WriteIs(t.disk, c.offset, c.data);
          PrimeKeeps(Answered(t).(disk := WriteAt(t.disk, c.offset, c.data), received := t.received + |c.data|));
      }
    }
  }

  lemma WriteIs(disk: Disk, offset: nat, data: seq<byte>)
    ensures WrittenTo(disk, WriteAt(disk, offset, data), offset, data)
  {
  }

  // --------------------------------- replies that carry true file content

  function Fetched(fileSize: nat, chunks: seq<Chunk>): Task {
    if chunks == [] then StartTask(NewTask(fileSize), true)
    else HandleChunk(Fetched(fileSize, chunks[..|chunks| - 1]), chunks[|chunks| - 1], Written)
  }

  /** The chunk holds at least one byte and says what the file says there. */
  predicate Honest(file: seq<byte>, c: Chunk) {
    !c.error && c.data != [] && c.offset + |c.data| <= |file| && c.data == file[c.offset..c.offset + |c.data|]
  }

  /** All replies but perhaps the last arrive before the download ends. */
  ghost predicate Live(fileSize: nat, chunks: seq<Chunk>) {
    forall k | 0 <= k < |chunks| :: !Fetched(fileSize, chunks[..k]).finished
  }

  predicate Covers(c: Chunk, p: nat) {
    c.offset <= p < c.offset + |c.data|
  }

  predicate Covered(chunks: seq<Chunk>, p: nat) {
    exists i | 0 <= i < |chunks| :: Covers(chunks[i], p)
  }

  lemma LivePrefix(fileSize: nat, chunks: seq<Chunk>)
    requires chunks != [] && Live(fileSize, chunks)
    ensures Live(fileSize, chunks[..|chunks| - 1]) && !Fetched(fileSize, chunks[..|chunks| - 1]).finished
  {
    var init := chunks[..|chunks| - 1];
    forall k | 0 <= k < |init| ensures !Fetched(fileSize, init[..k]).finished {
      assert init[..k] == chunks[..k];
    }
  }

  /** A good reply to a live download writes its bytes, ends it when the last answer is in, and leaves the rest alone.
      */
  lemma WrittenStep(t: Task, c: Chunk, replies: nat)
    requires Sound(t, replies) && !t.finished && !c.error && c.data != []
    ensures var t' := HandleChunk(t, c, Written);
            t'.disk == WriteAt(t.disk, c.offset, c.data) && t'.received == t.received + |c.data| && !t'.cancelled &&
            t.sent <= t'.sent && t'.next >= t.next &&
            t'.completions == (if t'.finished then [Done] else []) &&
            (t'.finished ==> t'.next >= t'.fileSize && |t'.sent| == replies + 1)
  {
    PrimeKeeps(Answered(t).(disk := WriteAt(t.disk, c.offset, c.data), received := t.received + |c.data|));
  }

  lemma {:induction false} FetchedSound(fileSize: nat, chunks: seq<Chunk>)
    requires Live(fileSize, chunks) && forall c | c in chunks :: !c.error && c.data != []
    ensures Sound(Fetched(fileSize, chunks), |chunks|) && !Fetched(fileSize, chunks).cancelled
    ensures Fetched(fileSize, chunks).fileSize == fileSize
    ensures Fetched(fileSize, chunks).finished ==>
              Fetched(fileSize, chunks).completions == [Done] && Fetched(fileSize, chunks).next >= fileSize &&
              |Fetched(fileSize, chunks).sent| == |chunks|
    decreases |chunks|
  {
    if chunks == [] {
      EveryRunSound(fileSize, true, []);
      if fileSize > 0 {
        SlotArithmetic(fileSize, 0);
        PrimeKeeps(NewTask(fileSize));
      }
    } else {
      var init, c := chunks[..|chunks| - 1], chunks[|chunks| - 1];
      LivePrefix(fileSize, chunks);
      FetchedSound(fileSize, init);
      var t := Fetched(fileSize, init);
      StepKeepsSound(t, Reply(c, Written), |init|);
      WrittenStep(t, c, |init|);
    }
  }

  /** The disk never differs from the file where it was written, and it was written exactly where some reply covers. */
  ghost predicate DiskShows(disk: Disk, file: seq<byte>, chunks: seq<Chunk>) {
    && |disk| <= |file|
    && (forall p | 0 <= p < |disk| :: disk[p] == None || disk[p] == Some(file[p]))
    && (forall p | 0 <= p < |file| :: (p < |disk| && disk[p].Some?) <==> Covered(chunks, p))
  }

  lemma WriteShows(disk: Disk, file: seq<byte>, chunks: seq<Chunk>, c: Chunk)
    requires DiskShows(disk, file, chunks) && Honest(file, c)
    ensures DiskShows(WriteAt(disk, c.offset, c.data), file, chunks + [c])
  {
    var d := WriteAt(disk, c.offset, c.data);
    var all := chunks + [c];
    forall p | 0 <= p < |file| ensures (p < |d| && d[p].Some?) <==> Covered(all, p) {
      if Covers(c, p) {
        assert Covers(all[|chunks|], p);
      }
      if Covered(chunks, p) {
        var i :| 0 <= i < |chunks| && Covers(chunks[i], p);
        assert Covers(all[i], p);
      }
      if Covered(all, p) && !Covers(c, p) {
        var i :| 0 <= i < |all| && Covers(all[i], p);
        assert Covers(chunks[i], p);
      }
    }
  }

  lemma NothingFetched(file: seq<byte>)
    ensures DiskShows(Fetched(|file|, []).disk, file, [])
  {
    if |file| > 0 {
      SlotArithmetic(|file|, 0);
      PrimeKeeps(NewTask(|file|));
    }
  }

  lemma FetchedDisk(fileSize: nat, init: seq<Chunk>, c: Chunk)
    requires Sound(Fetched(fileSize, init), |init|) && !Fetched(fileSize, init).finished
    requires !c.error && c.data != []
    ensures Fetched(fileSize, init + [c]).disk == WriteAt(Fetched(fileSize, init).disk, c.offset, c.data)
  {
    assert (init + [c])[..|init|] == init;
    WrittenStep(Fetched(fileSize, init), c, |init|);
  }

  lemma {:induction false} HonestDisk(file: seq<byte>, chunks: seq<Chunk>)
    requires Live(|file|, chunks) && forall c | c in chunks :: Honest(file, c)
    ensures DiskShows(Fetched(|file|, chunks).disk, file, chunks)
    decreases |chunks|
  {
    hide WriteAt, HandleChunk, DiskShows, Sound, Live, Fetched;
    if chunks == [] {
      NothingFetched(file);
    } else {
      var init, c := chunks[..|chunks| - 1], chunks[|chunks| - 1];
      assert c in chunks;
      LivePrefix(|file|, chunks);
      HonestDisk(file, init);
      FetchedSound(|file|, init);
      FetchedDisk(|file|, init, c);
      WriteShows(Fetched(|file|, init).disk, file, init, c);
      assert init + [c] == chunks;
    }
  }

  /** A successful download left the right file behind if and only if the replies covered every byte. */
  lemma SuccessIsWholeIffCovered(file: seq<byte>, chunks: seq<Chunk>)
    requires Live(|file|, chunks) && forall c | c in chunks :: Honest(file, c)
    requires Fetched(|file|, chunks).finished
    ensures Fetched(|file|, chunks).completions == [Done]
    ensures Fetched(|file|, chunks).disk == Whole(file) <==> forall p | 0 <= p < |file| :: Covered(chunks, p)
  {
    FetchedSound(|file|, chunks);
    HonestDisk(file, chunks);
    var disk := Fetched(|file|, chunks).disk;
    if forall p | 0 <= p < |file| :: Covered(chunks, p) {
      if |file| > 0 {
        assert Covered(chunks, |file| - 1);
      }
      forall p | 0 <= p < |file| ensures p < |disk| && disk[p] == Whole(file)[p] {
        assert Covered(chunks, p);
      }
    } else {
      var p :| 0 <= p < |file| && !Covered(chunks, p);
      assert Whole(file)[p].Some?;
    }
  }

  lemma FetchedSnoc(fileSize: nat, cs: seq<Chunk>, c: Chunk)
    requires Live(fileSize, cs) && !Fetched(fileSize, cs).finished
    ensures Live(fileSize, cs + [c]) && Fetched(fileSize, cs + [c]) == HandleChunk(Fetched(fileSize, cs), c, Written)
  {
    var all := cs + [c];
    assert all[..|cs|] == cs;
    forall j | 0 <= j < |all| ensures !Fetched(fileSize, all[..j]).finished {
      if j < |cs| {
        assert all[..j] == cs[..j];
      }
    }
  }

  /** A file of two chunks has both requests out at once, a file of one chunk its only one. */
  lemma StartOut(fileSize: nat)
    requires 0 < fileSize <= 2 * CHUNK
    ensures var t := Fetched(fileSize, []);
            !t.finished && !t.cancelled && t.next >= t.fileSize && t.inFlight == (if fileSize <= CHUNK then 1 else 2) &&
            t.completions == []
  {
    var one := NewTask(fileSize).(inFlight := 1, next := CHUNK, sent := [] + [0]);
    assert Prime(NewTask(fileSize)) == Prime(one);
    if fileSize <= CHUNK {
      assert Prime(one) == one;
    } else {
      var two := one.(inFlight := 2, next := CHUNK + CHUNK, sent := one.sent + [CHUNK]);
      assert Prime(one) == Prime(two) == two;
    }
  }

  /** Once everything is requested a good reply takes one request off, and the last one ends the task. */
  lemma LastReplies(t: Task, c: Chunk)
    requires !t.finished && !t.cancelled && t.next >= t.fileSize && t.inFlight > 0 && !c.error && c.data != []
    ensures var u := HandleChunk(t, c, Written);
            u.inFlight == t.inFlight - 1 && (u.finished <==> t.inFlight == 1) && !u.cancelled &&
            u.next == t.next && u.fileSize == t.fileSize
  {
  }

  /** A repeated reply ends a two-chunk download as a success with the last byte missing. */
  lemma DuplicateReplyEndsShort(file: seq<byte>)
    requires |file| == CHUNK + 1
    ensures var c := Chunk(0, file[..CHUNK], false);
            Live(|file|, [c, c]) && Honest(file, c) &&
            Fetched(|file|, [c, c]).completions == [Done] && Fetched(|file|, [c, c]).disk != Whole(file)
  {
    var c := Chunk(0, file[..CHUNK], false);
    assert Honest(file, c) && !Covered([c, c], CHUNK);
    assert !c.error && c.data != [] && [] + [c] == [c] && [c] + [c] == [c, c];
    hide Fetched, HandleChunk, WriteAt, Whole, Honest, Prime, Covered;
    StartOut(|file|);
    FetchedSnoc(|file|, [], c);
    LastReplies(Fetched(|file|, []), c);
    FetchedSnoc(|file|, [c], c);
    LastReplies(Fetched(|file|, [c]), c);
    SuccessIsWholeIffCovered(file, [c, c]);
  }

  /** So does a single short reply: one byte of two. */
  lemma ShortReplyEndsShort(file: seq<byte>)
    requires |file| == 2
    ensures var c := Chunk(0, file[..1], false);
            Live(2, [c]) && Honest(file, c) && Fetched(2, [c]).completions == [Done] && Fetched(2, [c]).disk != Whole(file)
  {
    var c := Chunk(0, file[..1], false);
    assert Honest(file, c) && !Covered([c], 1);
    assert !c.error && c.data != [] && [] + [c] == [c];
    hide Fetched, HandleChunk, WriteAt, Whole, Honest, Prime, Covered;
    StartOut(2);
    FetchedSnoc(2, [], c);
    LastReplies(Fetched(2, []), c);
    SuccessIsWholeIffCovered(file, [c]);
  }

  // ------------------------------ each request answered exactly once

  /** The server's reply to the request for `offset`. */
  function ReplyTo(file: seq<byte>, offset: nat): Chunk {
    Chunk(offset, ServeChunk(file, offset, CHUNK).data, false)
  }

  function RepliesTo(file: seq<byte>, order: seq<nat>): seq<Chunk> {
    seq(|order|, i requires 0 <= i < |order| => ReplyTo(file, order[i]))
  }

  /** The download after its requests were answered in this order. */
  function AfterReplies(file: seq<byte>, order: seq<nat>): Task {
    Fetched(|file|, RepliesTo(file, order))
  }

  /** Each answer is for a request sent by then and not answered before. */
  ghost predicate Legal(file: seq<byte>, order: seq<nat>) {
    order == [] ||
    var init := order[..|order| - 1];
    Legal(file, init) && order[|order| - 1] in AfterReplies(file, init).sent && order[|order| - 1] !in init
  }

  // Counting over the chunk grid.

  ghost predicate Distinct(order: seq<nat>) {
    forall i, j | 0 <= i < j < |order| :: order[i] != order[j]
  }

  ghost predicate OnSlots(order: seq<nat>, n: nat) {
    forall o | o in order :: exists k | 0 <= k < n :: o == CHUNK * k
  }

  function Without(order: seq<nat>, i: nat): seq<nat>
    requires i < |order|
  {
    order[..i] + order[i + 1..]
  }

  lemma WithoutElements(order: seq<nat>, i: nat)
    requires i < |order|
    ensures forall o | o in order && o != order[i] :: o in Without(order, i)
    ensures forall o | o in Without(order, i) :: o in order
    ensures Distinct(order) ==> Distinct(Without(order, i)) && order[i] !in Without(order, i)
  {
    var w := Without(order, i);
    forall o | o in order && o != order[i] ensures o in w {
      var j :| 0 <= j < |order| && order[j] == o;
      assert w[if j < i then j else j - 1] == o;
    }
    forall o | o in w ensures o in order {
      var j :| 0 <= j < |w| && w[j] == o;
      assert order[if j < i then j else j + 1] == o;
    }
    if Distinct(order) {
      forall j | 0 <= j < |w| ensures w[j] != order[i] {
        assert w[j] == order[if j < i then j else j + 1];
      }
    }
  }

  /** Distinct answers to the first n slots number at most n, and n of them answer every slot. */
  lemma {:induction false} AtMostSlots(order: seq<nat>, n: nat)
    requires Distinct(order) && OnSlots(order, n)
    ensures |order| <= n
    ensures |order| == n ==> forall k | 0 <= k < n :: CHUNK * k in order
    decreases n
  {
    assert order != [] ==> order[0] in order;
    if n == 0 {
      assert order == [];
    } else if CHUNK * (n - 1) in order {
      var i :| 0 <= i < |order| && order[i] == CHUNK * (n - 1);
      WithoutElements(order, i);
      var w := Without(order, i);
      forall o | o in w ensures exists k | 0 <= k < n - 1 :: o == CHUNK * k {
        var k :| 0 <= k < n && o == CHUNK * k;
        assert k != n - 1;
      }
      AtMostSlots(w, n - 1);
      forall k | |order| == n && 0 <= k < n ensures CHUNK * k in order {
        if k < n - 1 {
          assert CHUNK * k in w;
        }
      }
    } else {
      forall o | o in order ensures exists k | 0 <= k < n - 1 :: o == CHUNK * k {
        var k :| 0 <= k < n && o == CHUNK * k;
        assert k != n - 1;
      }
      AtMostSlots(order, n - 1);
    }
  }

  lemma {:induction false} AtLeastSlots(order: seq<nat>, n: nat)
    requires forall k | 0 <= k < n :: CHUNK * k in order
    ensures |order| >= n
    decreases n
  {
    if n > 0 {
      assert CHUNK * (n - 1) in order;
      var i :| 0 <= i < |order| && order[i] == CHUNK * (n - 1);
      WithoutElements(order, i);
      forall k | 0 <= k < n - 1 ensures CHUNK * k in Without(order, i) {
        assert CHUNK * k in order && CHUNK * k != order[i];
      }
      AtLeastSlots(Without(order, i), n - 1);
    }
  }

  /** Answers so far: distinct, to requests that were sent, and the download live until the last of them. */
  ghost predicate Answers(file: seq<byte>, order: seq<nat>) {
    && Distinct(order)
    && OnSlots(order, |AfterReplies(file, order).sent|)
    && OnSlots(order, Slots(|file|))
    && Live(|file|, RepliesTo(file, order))
    && (forall c | c in RepliesTo(file, order) :: Honest(file, c))
  }

  lemma ReplyHonest(file: seq<byte>, offset: nat)
    requires offset < |file|
    ensures Honest(file, ReplyTo(file, offset))
    ensures |ReplyTo(file, offset).data| == Min(CHUNK, |file| - offset)
  {
  }

  lemma RepliesSnoc(file: seq<byte>, order: seq<nat>, o: nat)
    ensures RepliesTo(file, order + [o]) == RepliesTo(file, order) + [ReplyTo(file, o)]
  {
  }

  /** A request that is still to be answered belongs to a slot of the file, and the download is still live. */
  lemma OpenRequest(file: seq<byte>, order: seq<nat>, o: nat) returns (k: nat)
    requires |file| > 0 && Answers(file, order)
    requires o in AfterReplies(file, order).sent && o !in order
    ensures o == CHUNK * k && k < |AfterReplies(file, order).sent| && k < Slots(|file|) && o < |file|
    ensures !AfterReplies(file, order).finished
  {
    AnswersSound(file, order);
    var t := AfterReplies(file, order);
    k :| 0 <= k < |t.sent| && t.sent[k] == o;
    SlotArithmetic(|file|, k);
    if t.finished {
      AtMostSlots(order, |t.sent|);
      assert false;
    }
  }

  /** One more answer. */
  lemma AnswerOne(file: seq<byte>, order: seq<nat>, o: nat)
    requires |file| > 0 && Answers(file, order)
    requires o in AfterReplies(file, order).sent && o !in order
    ensures Answers(file, order + [o])
    ensures AfterReplies(file, order + [o]) == HandleChunk(AfterReplies(file, order), ReplyTo(file, o), Written)
  {
    var k := OpenRequest(file, order, o);
    AnswersSound(file, order);
    var t := AfterReplies(file, order);
    RepliesSnoc(file, order, o);
    FetchedSnoc(|file|, RepliesTo(file, order), ReplyTo(file, o));
    ReplyHonest(file, o);
    WrittenStep(t, ReplyTo(file, o), |order|);
    SlotsExtend(order, o, k, |t.sent|, |AfterReplies(file, order + [o]).sent|);
    SlotsExtend(order, o, k, Slots(|file|), Slots(|file|));
  }

  lemma {:induction false} LegalAnswers(file: seq<byte>, order: seq<nat>)
    requires |file| > 0 && Legal(file, order)
    ensures Answers(file, order)
    decreases |order|
  {
    if order == [] {
      assert RepliesTo(file, order) == [];
    } else {
      var init, o := order[..|order| - 1], order[|order| - 1];
      assert order == init + [o];
      LegalAnswers(file, init);
      AnswerOne(file, init, o);
    }
  }

  lemma SlotsExtend(order: seq<nat>, o: nat, k: nat, n: nat, m: nat)
    requires OnSlots(order, n) && n <= m && k < n && o == CHUNK * k
    ensures OnSlots(order + [o], m)
  {
    forall x | x in order + [o] ensures exists k | 0 <= k < m :: x == CHUNK * k {
      if x in order {
        var i :| 0 <= i < n && x == CHUNK * i;
        assert i < m;
      }
    }
  }

  lemma AnswersSound(file: seq<byte>, order: seq<nat>)
    requires |file| > 0 && Answers(file, order)
    ensures var t := AfterReplies(file, order);
            Sound(t, |order|) && !t.cancelled && t.fileSize == |file| &&
            (t.finished ==> t.completions == [Done] && t.next >= |file| && |t.sent| == |order|)
  {
    FetchedSound(|file|, RepliesTo(file, order));
  }

  /** Bytes received so far: a full chunk for each answer, but for the answer to the last slot only the tail. */
  function BytesOf(file: seq<byte>, order: seq<nat>): int {
    var lastOffset := CHUNK * (Slots(|file|) - 1);
    if lastOffset in order then CHUNK * (|order| - 1) + (|file| - lastOffset) else CHUNK * |order|
  }

  lemma {:induction false} ReceivedBytes(file: seq<byte>, order: seq<nat>)
    requires |file| > 0 && Legal(file, order)
    ensures AfterReplies(file, order).received == BytesOf(file, order)
    decreases |order|
  {
    if order == [] {
      SlotArithmetic(|file|, 0);
      PrimeKeeps(NewTask(|file|));
    } else {
      var init, o := order[..|order| - 1], order[|order| - 1];
      ReceivedBytes(file, init);
      LegalAnswers(file, init);
      var k := OpenRequest(file, init, o);
      assert order == init + [o];
      OneMoreReceived(file, init, o);
      NextBytes(file, init, k);
    }
  }

  lemma OneMoreReceived(file: seq<byte>, order: seq<nat>, o: nat)
    requires |file| > 0 && Answers(file, order)
    requires o in AfterReplies(file, order).sent && o !in order
    ensures o < |file|
    ensures AfterReplies(file, order + [o]).received ==
            AfterReplies(file, order).received + Min(CHUNK, |file| - o)
  {
    AnswersSound(file, order);
    var k := OpenRequest(file, order, o);
    AnswerOne(file, order, o);
    ReplyHonest(file, o);
    WrittenStep(AfterReplies(file, order), ReplyTo(file, o), |order|);
  }

  lemma NextBytes(file: seq<byte>, order: seq<nat>, k: nat)
    requires |file| > 0 && k < Slots(|file|) && CHUNK * k !in order
    ensures BytesOf(file, order + [CHUNK * k]) == BytesOf(file, order) + Min(CHUNK, |file| - CHUNK * k)
  {
    var n := Slots(|file|);
    var lastOffset := CHUNK * (n - 1);
    SlotArithmetic(|file|, n);
    if k < n - 1 {
      SlotArithmetic(|file|, k + 1);
      assert lastOffset in order + [CHUNK * k] <==> lastOffset in order;
    } else {
      assert lastOffset in order + [CHUNK * k];
    }
  }

  /** With every request answered once by the server's slice, in whatever order: the download reports success exactly at
      the last of ceil(fileSize / CHUNK) answers, which is exactly when all bytes are in; the file on disk is then the
      source without a hole; and until then some request is still to be answered and nothing has been reported. */
  lemma ExactlyOnceDelivers(file: seq<byte>, order: seq<nat>)
    requires |file| > 0 && Legal(file, order)
    ensures var t := AfterReplies(file, order);
            && |order| <= (|file| + 262143) / 262144
            && (t.finished <==> |order| == (|file| + 262143) / 262144)
            && (t.finished <==> t.received == |file|)
            && (t.finished ==> t.completions == [Done] && t.disk == Whole(file))
            && (!t.finished ==> t.completions == [] && exists o :: o in t.sent && o !in order)
  {
    LegalAnswers(file, order);
    AnswersSound(file, order);
    var t := AfterReplies(file, order);
    var n := Slots(|file|);
    AtMostSlots(order, n);
    SlotArithmetic(|file|, |t.sent|);
    ReceivedBytes(file, order);
    SlotArithmetic(|file|, n - 1);
    if t.finished {
      assert |order| == n;
      assert CHUNK * (n - 1) in order;
      forall p | 0 <= p < |file| ensures Covered(RepliesTo(file, order), p) {
        CoveredBySlot(file, order, p);
      }
      SuccessIsWholeIffCovered(file, RepliesTo(file, order));
    } else {
      if forall k | 0 <= k < |t.sent| :: CHUNK * k in order {
        AtLeastSlots(order, |t.sent|);
        assert false;
      }
      var k :| 0 <= k < |t.sent| && CHUNK * k !in order;
      assert t.sent[k] in t.sent && t.sent[k] !in order;
    }
  }

  lemma CoveredBySlot(file: seq<byte>, order: seq<nat>, p: nat)
    requires p < |file|
    requires forall k | 0 <= k < Slots(|file|) :: CHUNK * k in order
    ensures Covered(RepliesTo(file, order), p)
  {
    var k := p / CHUNK;
    SlotArithmetic(|file|, k);
    assert CHUNK * k in order;
    var i :| 0 <= i < |order| && order[i] == CHUNK * k;
    ReplyHonest(file, order[i]);
    assert Covers(RepliesTo(file, order)[i], p);
  }

  /** Every legal order can be continued to the end, so some order of exactly ceil(fileSize / CHUNK) answers exists. */
  lemma {:induction false} CanFinish(file: seq<byte>, order: seq<nat>) returns (all: seq<nat>)
    requires |file| > 0 && Legal(file, order)
    ensures order <= all && Legal(file, all) && AfterReplies(file, all).finished
    decreases Slots(|file|) - |order|
  {
    ExactlyOnceDelivers(file, order);
    if AfterReplies(file, order).finished {
      all := order;
    } else {
      var o :| o in AfterReplies(file, order).sent && o !in order;
      var next := order + [o];
      assert next[..|next| - 1] == order;
      assert Legal(file, next);
      ExactlyOnceDelivers(file, next);
      all := CanFinish(file, next);
    }
  }

  /** An empty file needs no answer at all. */
  lemma EmptyFileDone(canOpen: bool)
    ensures Run(0, canOpen, []) == NewTask(0).(finished := true, completions := [Done])
    ensures Run(0, canOpen, []).disk == Whole([])
  {
  }
}
