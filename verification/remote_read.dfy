/** Streams over the chunk provider: a read stages a request, any other work of the message pump comes in between, and
    the end of the fetch ends the read. First one stream, then any number of them, of any files, with clones. */
module RemoteRead {
  import opened Bytes
  import ChunkProvider
  import VirtualStream

  type Ids = ChunkProvider.Ids

  /** Bytes a read has returned, and where the cursor stood when it began. */
  datatype Block = Block(at: nat, data: seq<byte>)

  datatype State = State(
    stream: VirtualStream.State,
    provided: seq<ChunkProvider.Step>,   // what the provider has done
    fetch: Option<nat>,                  // the request of the read in progress
    blocks: seq<Block>)

  const INITIAL := State(VirtualStream.Opened(0), [], None, [])

  // ------------------------------------------------------------- the steps

  function ReplyOf(r: ChunkProvider.Result): VirtualStream.Reply {
    if r.Ok? then VirtualStream.Chunk(r.data) else VirtualStream.Refused(0)
  }

  /** Read until it waits for its chunk; a file without ids gets no request. */
  function AfterBegin(s: State, ids: Ids, size: uint64, cb: uint32): State
    requires VirtualStream.Sane(s.stream, size)
  {
    if VirtualStream.Immediate(s.stream, size, cb).Some? || !ChunkProvider.Stageable(ids) then s
    else s.(stream := VirtualStream.AfterBegin(s.stream, size, cb), fetch := Some(ChunkProvider.Run(s.provided).nextId),
            provided := s.provided + [ChunkProvider.Stage(ids.0, ids.1, s.stream.pos)])
  }

  /** The fetch ends with this result, and so does the read. */
  function AfterEnd(s: State, size: uint64, last: ChunkProvider.Step, result: ChunkProvider.Result): State
    requires VirtualStream.Sane(s.stream, size) && s.stream.inFlight.Some?
  {
    var request, reply := s.stream.inFlight.value, ReplyOf(result);
    var out := VirtualStream.Clipped(request.want, reply);
    State(VirtualStream.AfterEnd(s.stream, size, reply), s.provided + [last], None,
          if out == [] then s.blocks else s.blocks + [Block(request.offset, out)])
  }

  /** Other work does not end the fetch of this read. */
  predicate Foreign(s: State, step: ChunkProvider.Step) {
    (step.SendFailed? || step.Finish?) ==> s.fetch != Some(step.id)
  }

  datatype Step =
    | Begin(cb: uint32)
    | Elsewhere(step: ChunkProvider.Step)   // other fetches, deliveries and cancellations
    | SeekTo(delta: int, origin: nat)
    | SendFails                             // the request cannot be sent
    | End(gotQuit: bool)

  /** A read is in progress exactly while its request is with the provider. */
  ghost predicate Ready(s: State, size: uint64) {
    && VirtualStream.Sane(s.stream, size)
    && (s.fetch.Some? <==> s.stream.inFlight.Some?)
    && (s.fetch.Some? ==> s.fetch.value in ChunkProvider.Run(s.provided).slots)
  }

  function Next(s: State, ids: Ids, size: uint64, step: Step): State
    requires Ready(s, size)
  {
    match step
    case Begin(cb) => AfterBegin(s, ids, size, cb)
    case Elsewhere(other) => if Foreign(s, other) then s.(provided := s.provided + [other]) else s
    case SeekTo(d, o) => s.(stream := VirtualStream.AfterSeek(s.stream, size, d, o))
    case SendFails =>
      if s.fetch == None then s
      else AfterEnd(s, size, ChunkProvider.SendFailed(s.fetch.value), ChunkProvider.Failed)
    case End(quit) =>
      if s.fetch == None then s else
      var slot := ChunkProvider.Run(s.provided).slots[s.fetch.value];
      AfterEnd(s, size, ChunkProvider.Finish(s.fetch.value, quit), ChunkProvider.ResultOf(slot, quit))
  }

  lemma ProvidedMore(provided: seq<ChunkProvider.Step>, step: ChunkProvider.Step)
    ensures ChunkProvider.Run(provided + [step]) == ChunkProvider.Next(ChunkProvider.Run(provided), step)
  {
    assert (provided + [step])[..|provided|] == provided;
  }

  /** A step that does not end a fetch leaves its slot and the history in place. */
  lemma SlotStays(p: ChunkProvider.State, step: ChunkProvider.Step, id: nat)
    requires id in p.slots && !((step.SendFailed? || step.Finish?) && step.id == id)
    ensures id in ChunkProvider.Next(p, step).slots && p.log <= ChunkProvider.Next(p, step).log
  {
    hide ChunkProvider.MakeKey, ChunkProvider.EraseFromQueue;
  }

  lemma NextReady(s: State, ids: Ids, size: uint64, step: Step)
    requires Ready(s, size)
    ensures Ready(Next(s, ids, size, step), size)
  {
    hide ChunkProvider.Next, ChunkProvider.Run;
    match step {
      case Begin(cb) =>
        ProvidedMore(s.provided, ChunkProvider.Stage(ids.0, ids.1, s.stream.pos));
        if ChunkProvider.Stageable(ids) { RequestStaged(ChunkProvider.Run(s.provided), ids, s.stream.pos); }
        if VirtualStream.Immediate(s.stream, size, cb) == None { VirtualStream.BeginSane(s.stream, size, cb); }
      case Elsewhere(other) =>
        ProvidedMore(s.provided, other);
        if s.fetch.Some? && Foreign(s, other) { SlotStays(ChunkProvider.Run(s.provided), other, s.fetch.value); }
      case SeekTo(d, o) => VirtualStream.NextSane(s.stream, size, VirtualStream.SeekTo(d, o));
      case _ =>
    }
  }

  lemma RequestStaged(p: ChunkProvider.State, ids: Ids, offset: nat)
    requires ChunkProvider.Stageable(ids)
    ensures var q := ChunkProvider.Next(p, ChunkProvider.Stage(ids.0, ids.1, offset));
            p.nextId in q.slots && ChunkProvider.Staged(p.nextId, ids.0, ids.1, offset) in q.log
  {
    hide ChunkProvider.MakeKey;
  }

  function Run(ids: Ids, size: uint64, steps: seq<Step>): (s: State)
    ensures Ready(s, size)
  {
    if steps == [] then INITIAL else
    var s := Run(ids, size, steps[..|steps| - 1]);
    NextReady(s, ids, size, steps[|steps| - 1]);
    Next(s, ids, size, steps[|steps| - 1])
  }

  // ------------------------------------------------------ what a run keeps

  /** Other work uses known ids, and what it delivers, errors apart, is a true piece of the file it names. */
  ghost predicate Proper(all: iset<Ids>, files: Ids -> seq<byte>, step: Step) {
    step.Elsewhere? ==> ChunkProvider.Over(all, [step.step]) && ChunkProvider.TruePieces(files, [step.step])
  }

  ghost predicate AllProper(all: iset<Ids>, files: Ids -> seq<byte>, steps: seq<Step>) {
    forall step | step in steps :: Proper(all, files, step)
  }

  ghost predicate Sound(all: iset<Ids>, files: Ids -> seq<byte>, ids: Ids, s: State) {
    && ChunkProvider.Over(all, s.provided) && ChunkProvider.TruePieces(files, s.provided)
    && (s.fetch.Some? && s.stream.inFlight.Some? ==>
          var q := s.stream.inFlight.value;
          q.offset + q.want <= |files(ids)| &&
          ChunkProvider.Staged(s.fetch.value, ids.0, ids.1, q.offset) in ChunkProvider.Run(s.provided).log)
    && (forall b | b in s.blocks :: ChunkProvider.Piece(files(ids), b.at, b.data))
  }

  lemma ProvidedProper(all: iset<Ids>, files: Ids -> seq<byte>, provided: seq<ChunkProvider.Step>, step: ChunkProvider.Step)
    requires ChunkProvider.Over(all, provided) && ChunkProvider.TruePieces(files, provided)
    requires ChunkProvider.Over(all, [step]) && ChunkProvider.TruePieces(files, [step])
    ensures ChunkProvider.Over(all, provided + [step]) && ChunkProvider.TruePieces(files, provided + [step])
  {
    hide ChunkProvider.Piece;
    forall x | x in provided + [step] ensures x in provided || x in [step] {
    }
  }

  lemma KeepBegin(all: iset<Ids>, files: Ids -> seq<byte>, ids: Ids, s: State, cb: uint32)
    requires |files(ids)| < TWO64 && Ready(s, |files(ids)|) && Sound(all, files, ids, s) && ids in all
    ensures Sound(all, files, ids, AfterBegin(s, ids, |files(ids)|, cb))
  {
    var stage := ChunkProvider.Stage(ids.0, ids.1, s.stream.pos);
    assert ChunkProvider.Over(all, [stage]) && ChunkProvider.TruePieces(files, [stage]);
    hide ChunkProvider.Next, ChunkProvider.Run, ChunkProvider.Over, ChunkProvider.TruePieces, ChunkProvider.Piece;
    ProvidedProper(all, files, s.provided, stage);
    ProvidedMore(s.provided, stage);
    if ChunkProvider.Stageable(ids) { RequestStaged(ChunkProvider.Run(s.provided), ids, s.stream.pos); }
  }

  lemma KeepElsewhere(all: iset<Ids>, files: Ids -> seq<byte>, ids: Ids, s: State, other: ChunkProvider.Step)
    requires |files(ids)| < TWO64 && Ready(s, |files(ids)|) && Sound(all, files, ids, s)
    requires Proper(all, files, Elsewhere(other)) && Foreign(s, other)
    ensures Sound(all, files, ids, s.(provided := s.provided + [other]))
  {
    hide ChunkProvider.Next, ChunkProvider.Run, ChunkProvider.Over, ChunkProvider.TruePieces, ChunkProvider.Piece;
    ProvidedProper(all, files, s.provided, other);
    ProvidedMore(s.provided, other);
    if s.fetch.Some? { SlotStays(ChunkProvider.Run(s.provided), other, s.fetch.value); }
  }

  /** What a successful fetch returns is a piece of this file, at the offset the read asked for. */
  lemma FetchedPiece(all: iset<Ids>, files: Ids -> seq<byte>, ids: Ids, s: State, quit: bool)
    requires ChunkProvider.Unambiguous(all)
    requires |files(ids)| < TWO64 && Ready(s, |files(ids)|) && Sound(all, files, ids, s) && s.fetch.Some?
    requires ChunkProvider.ResultOf(ChunkProvider.Run(s.provided).slots[s.fetch.value], quit).Ok?
    ensures ChunkProvider.Piece(files(ids), s.stream.inFlight.value.offset,
                                ChunkProvider.ResultOf(ChunkProvider.Run(s.provided).slots[s.fetch.value], quit).data)
  {
    assert !quit;
    hide ChunkProvider.Run, ChunkProvider.Over, ChunkProvider.TruePieces, ChunkProvider.Piece, ChunkProvider.Unambiguous;
    var id := s.fetch.value;
    var t, f, o := ChunkProvider.TrueDeliveries(all, files, s.provided, id);
    ChunkProvider.StagedOnce(s.provided);
    assert ChunkProvider.Staged(id, t, f, o) == ChunkProvider.Staged(id, ids.0, ids.1, s.stream.inFlight.value.offset);
    assert (t, f) == ids;
  }

  /** The end of a read adds no block, or the next bytes from where the read began. */
  lemma BlockAdded(file: seq<byte>, s: State, last: ChunkProvider.Step, result: ChunkProvider.Result)
    requires |file| < TWO64 && VirtualStream.Sane(s.stream, |file|) && s.stream.inFlight.Some?
    requires s.stream.inFlight.value.offset + s.stream.inFlight.value.want <= |file|
    requires result.Ok? ==> ChunkProvider.Piece(file, s.stream.inFlight.value.offset, result.data)
    ensures var t := AfterEnd(s, |file|, last, result);
            var at, n := s.stream.inFlight.value.offset, t.stream.pos - s.stream.pos;
            0 <= n && at + n <= |file| && t.blocks == if n == 0 then s.blocks else s.blocks + [Block(at, file[at..at + n])]
  {
    if result.Ok? {
      var at, n := s.stream.inFlight.value.offset, Min(|result.data|, s.stream.inFlight.value.want);
      assert result.data[..n] == file[at..at + n];
    }
  }

  lemma KeepEnd(all: iset<Ids>, files: Ids -> seq<byte>, ids: Ids, s: State, last: ChunkProvider.Step,
                result: ChunkProvider.Result)
    requires |files(ids)| < TWO64 && Ready(s, |files(ids)|) && Sound(all, files, ids, s) && s.fetch.Some?
    requires last.SendFailed? || last.Finish?
    requires result.Ok? ==> ChunkProvider.Piece(files(ids), s.stream.inFlight.value.offset, result.data)
    ensures Sound(all, files, ids, AfterEnd(s, |files(ids)|, last, result))
  {
    assert ChunkProvider.Over(all, [last]) && ChunkProvider.TruePieces(files, [last]);
    hide ChunkProvider.Run, ChunkProvider.Over, ChunkProvider.TruePieces;
    ProvidedProper(all, files, s.provided, last);
    BlockAdded(files(ids), s, last, result);
    var t := AfterEnd(s, |files(ids)|, last, result);
    assert t.provided == s.provided + [last] && t.fetch == None;
    hide AfterEnd;
  }

  /** How a fetch in progress can end. */
  lemma Ended(all: iset<Ids>, files: Ids -> seq<byte>, ids: Ids, s: State, step: Step)
    returns (last: ChunkProvider.Step, result: ChunkProvider.Result)
    requires ChunkProvider.Unambiguous(all) && (step.SendFails? || step.End?)
    requires |files(ids)| < TWO64 && Ready(s, |files(ids)|) && Sound(all, files, ids, s) && s.fetch.Some?
    ensures Next(s, ids, |files(ids)|, step) == AfterEnd(s, |files(ids)|, last, result) && (last.SendFailed? || last.Finish?)
    ensures result.Ok? ==> ChunkProvider.Piece(files(ids), s.stream.inFlight.value.offset, result.data)
  {
    hide ChunkProvider.Run, ChunkProvider.Piece, Sound;
    if step.SendFails? {
      last, result := ChunkProvider.SendFailed(s.fetch.value), ChunkProvider.Failed;
    } else {
      last := ChunkProvider.Finish(s.fetch.value, step.gotQuit);
      result := ChunkProvider.ResultOf(ChunkProvider.Run(s.provided).slots[s.fetch.value], step.gotQuit);
      if result.Ok? { FetchedPiece(all, files, ids, s, step.gotQuit); }
    }
  }

  lemma KeepSound(all: iset<Ids>, files: Ids -> seq<byte>, ids: Ids, s: State, step: Step)
    requires ChunkProvider.Unambiguous(all) && ids in all && Proper(all, files, step)
    requires |files(ids)| < TWO64 && Ready(s, |files(ids)|) && Sound(all, files, ids, s)
    ensures Sound(all, files, ids, Next(s, ids, |files(ids)|, step))
  {
    match step {
      case Begin(cb) => KeepBegin(all, files, ids, s, cb);
      case Elsewhere(other) => if Foreign(s, other) { KeepElsewhere(all, files, ids, s, other); }
      case SeekTo(d, o) =>
      case _ =>
        if s.fetch.Some? {
          hide Sound, Next, AfterEnd;
          var last, result := Ended(all, files, ids, s, step);
          KeepEnd(all, files, ids, s, last, result);
        }
    }
  }

  lemma {:induction false} RunSound(all: iset<Ids>, files: Ids -> seq<byte>, ids: Ids, steps: seq<Step>)
    requires ChunkProvider.Unambiguous(all) && ids in all && AllProper(all, files, steps) && |files(ids)| < TWO64
    ensures Sound(all, files, ids, Run(ids, |files(ids)|, steps))
    decreases |steps|
  {
    if steps == [] {
      NothingLogged(all, files, ids);
    } else {
      hide Next, Sound, Proper, ChunkProvider.Unambiguous, Ready;
      var n := |steps| - 1;
      assert steps[n] in steps && forall step | step in steps[..n] :: step in steps;
      RunSound(all, files, ids, steps[..n]);
      KeepSound(all, files, ids, Run(ids, |files(ids)|, steps[..n]), steps[n]);
    }
  }

  lemma NothingLogged(all: iset<Ids>, files: Ids -> seq<byte>, ids: Ids)
    ensures Sound(all, files, ids, INITIAL)
  {
  }

  // ------------------------------------------------------- the main results

  /** Whatever other fetches, deliveries, errors, cancellations and seeks come between and inside the reads: over
      unambiguous ids and from a parent that delivers true pieces, every block a read returns is the file's, at the
      position where the read began. */
  lemma BlocksAreOfFile(all: iset<Ids>, files: Ids -> seq<byte>, ids: Ids, steps: seq<Step>)
    requires ChunkProvider.Unambiguous(all) && ids in all && AllProper(all, files, steps) && |files(ids)| < TWO64
    ensures forall b | b in Run(ids, |files(ids)|, steps).blocks :: ChunkProvider.Piece(files(ids), b.at, b.data)
  {
    RunSound(all, files, ids, steps);
  }

  lemma RunMore(ids: Ids, size: uint64, steps: seq<Step>, step: Step)
    ensures Ready(Run(ids, size, steps), size)
    ensures Run(ids, size, steps + [step]) == Next(Run(ids, size, steps), ids, size, step)
  {
    assert (steps + [step])[..|steps|] == steps;
  }

  /** A request that is alone with its key gets the next answer for it. */
  lemma AnsweredAlone(p: ChunkProvider.State, ids: Ids, at: nat, data: seq<byte>, isLast: bool, error: ChunkProvider.Text)
    requires ChunkProvider.Stageable(ids) && ChunkProvider.Grouped(p.pending, p.slots)
    requires forall id | id in p.slots :: id < p.nextId && p.slots[id].key != ChunkProvider.MakeKey(ids.0, ids.1, at)
    ensures var q := ChunkProvider.Next(ChunkProvider.Next(p, ChunkProvider.Stage(ids.0, ids.1, at)),
                                        ChunkProvider.Deliver(ids.0, ids.1, at, data, isLast, error));
            p.nextId in q.slots &&
            ChunkProvider.ResultOf(q.slots[p.nextId], false) ==
            if error == [] then ChunkProvider.Ok(data, isLast) else ChunkProvider.Failed
  {
    hide ChunkProvider.MakeKey;
    var key := ChunkProvider.MakeKey(ids.0, ids.1, at);
    if key in p.pending {
      ChunkProvider.HeadIsOldest(p, key);
      assert false;
    }
    var s := ChunkProvider.Next(p, ChunkProvider.Stage(ids.0, ids.1, at));
    assert s == ChunkProvider.AfterStage(p, ids.0, ids.1, at);
    assert ChunkProvider.Queue(p.pending, key) == [];
    assert [] + [p.nextId] == [p.nextId];
    assert s.pending[key] == [p.nextId];
  }

  /** A read that begins before the end of the file, with no other request for its place in flight, and is answered: the
      bytes of the answer, not more than asked for, are its block, and the cursor moves behind them. An error ends the
      read where it began. */
  lemma ReadAnswered(ids: Ids, size: uint64, steps: seq<Step>, cb: uint32, data: seq<byte>, isLast: bool,
                     error: ChunkProvider.Text)
    requires ids.0 != [] && ids.1 != [] && cb > 0 && data != []
    requires var s := Run(ids, size, steps);
             s.stream.inFlight == None && s.stream.pos < size &&
             forall id | id in ChunkProvider.Run(s.provided).slots ::
               ChunkProvider.Run(s.provided).slots[id].key != ChunkProvider.MakeKey(ids.0, ids.1, s.stream.pos)
    ensures var s := Run(ids, size, steps); var at, n := s.stream.pos, Min(|data|, Min(size - s.stream.pos, cb));
            var answer := Elsewhere(ChunkProvider.Deliver(ids.0, ids.1, at, data, isLast, error));
            var t := Run(ids, size, steps + [Begin(cb)] + [answer] + [End(false)]);
            t.fetch == None && t.stream.inFlight == None &&
            if error == [] then t.blocks == s.blocks + [Block(at, data[..n])] && t.stream.pos == at + n
            else t.blocks == s.blocks && t.stream.pos == at
  {
    var s := Run(ids, size, steps);
    var at := s.stream.pos;
    var deliver := ChunkProvider.Deliver(ids.0, ids.1, at, data, isLast, error);
    RunMore(ids, size, steps, Begin(cb));
    RunMore(ids, size, steps + [Begin(cb)], Elsewhere(deliver));
    RunMore(ids, size, steps + [Begin(cb)] + [Elsewhere(deliver)], End(false));
    hide *;
    BegunAt(s, ids, size, cb);
    var b := Next(s, ids, size, Begin(cb));
    DeliveredAt(b, ids, size, deliver);
    ReadyProvided(s.provided);
    ProvidedMore(s.provided, ChunkProvider.Stage(ids.0, ids.1, at));
    ProvidedMore(b.provided, deliver);
    AnsweredAlone(ChunkProvider.Run(s.provided), ids, at, data, isLast, error);
    EndedAt(Next(b, ids, size, Elsewhere(deliver)), ids, size,
            if error == [] then ChunkProvider.Ok(data, isLast) else ChunkProvider.Failed);
  }

  /** A seek moves the cursor, even under a read in progress, and nothing else. */
  lemma SeekMoves(ids: Ids, size: uint64, steps: seq<Step>, delta: int, origin: nat)
    ensures var s := Run(ids, size, steps);
            var target := delta + (if origin == 0 then 0 else if origin == 1 then s.stream.pos else size as int);
            Run(ids, size, steps + [SeekTo(delta, origin)]) ==
            if origin <= 2 && 0 <= target < 0x8000_0000_0000_0000 then s.(stream := s.stream.(pos := target)) else s
  {
    RunMore(ids, size, steps, SeekTo(delta, origin));
    hide Run, ChunkProvider.Run;
    VirtualStream.SeekTold(Run(ids, size, steps).stream, size, delta, origin);
  }

  lemma ReadyProvided(provided: seq<ChunkProvider.Step>)
    ensures var p := ChunkProvider.Run(provided);
            ChunkProvider.Grouped(p.pending, p.slots) && forall id | id in p.slots :: id < p.nextId
  {
    ChunkProvider.RunKeeps(provided);
  }

  lemma BegunAt(s: State, ids: Ids, size: uint64, cb: uint32)
    requires Ready(s, size) && s.stream.inFlight == None && s.stream.pos < size && cb > 0
    requires ids.0 != [] && ids.1 != []
    ensures ChunkProvider.Stageable(ids)
    ensures var at := s.stream.pos; var q := VirtualStream.Request(at, Min(size - at, cb));
            Next(s, ids, size, Begin(cb)) ==
            State(VirtualStream.State(at, Some(q), s.stream.requests + [q]),
                  s.provided + [ChunkProvider.Stage(ids.0, ids.1, at)], Some(ChunkProvider.Run(s.provided).nextId), s.blocks)
  {
    hide ChunkProvider.Run;
  }

  lemma DeliveredAt(s: State, ids: Ids, size: uint64, deliver: ChunkProvider.Step)
    requires Ready(s, size) && deliver.Deliver?
    ensures Next(s, ids, size, Elsewhere(deliver)) == s.(provided := s.provided + [deliver])
  {
    hide ChunkProvider.Run;
  }

  lemma EndedAt(s: State, ids: Ids, size: uint64, result: ChunkProvider.Result)
    requires Ready(s, size) && s.fetch.Some? && s.stream.inFlight.Some? && s.stream.inFlight.value.offset == s.stream.pos
    requires var slots := ChunkProvider.Run(s.provided).slots;
             s.fetch.value in slots && ChunkProvider.ResultOf(slots[s.fetch.value], false) == result
    requires result.Ok? ==> result.data != []
    ensures var t, at, want := Next(s, ids, size, End(false)), s.stream.pos, s.stream.inFlight.value.want;
            t.fetch == None && t.stream.inFlight == None &&
            if result.Ok? then
              t.blocks == s.blocks + [Block(at, result.data[..Min(|result.data|, want)])] &&
              t.stream.pos == at + Min(|result.data|, want)
            else t.blocks == s.blocks && t.stream.pos == at
  {
    hide ChunkProvider.Run, ChunkProvider.ResultOf;
    if result.Ok? { assert result.data[..Min(|result.data|, s.stream.inFlight.value.want)] != []; }
  }

  function Joined(blocks: seq<Block>): seq<byte> {
    if blocks == [] then [] else Joined(blocks[..|blocks| - 1]) + blocks[|blocks| - 1].data
  }

  lemma JoinedSnoc(blocks: seq<Block>, b: Block)
    ensures Joined(blocks + [b]) == Joined(blocks) + b.data
  {
    assert (blocks + [b])[..|blocks|] == blocks;
  }

  /** The blocks so far are the file from `start` to the cursor, and a read in progress began there. */
  ghost predicate Sequential(file: seq<byte>, start: nat, s: State) {
    && start <= s.stream.pos <= |file| && Joined(s.blocks) == file[start..s.stream.pos]
    && |s.blocks| <= s.stream.pos - start
    && (s.stream.inFlight.Some? ==> s.stream.inFlight.value.offset == s.stream.pos)
  }

  lemma EndSequential(file: seq<byte>, start: nat, s: State, last: ChunkProvider.Step, result: ChunkProvider.Result)
    requires |file| < TWO64 && VirtualStream.Sane(s.stream, |file|) && s.stream.inFlight.Some?
    requires Sequential(file, start, s)
    requires s.stream.inFlight.value.offset + s.stream.inFlight.value.want <= |file|
    requires result.Ok? ==> ChunkProvider.Piece(file, s.stream.inFlight.value.offset, result.data)
    ensures Sequential(file, start, AfterEnd(s, |file|, last, result))
  {
    hide Joined, ChunkProvider.Piece;
    var t, at := AfterEnd(s, |file|, last, result), s.stream.pos;
    BlockAdded(file, s, last, result);
    assert t.stream.inFlight == None;
    hide AfterEnd;
    JoinedSnoc(s.blocks, Block(at, file[at..t.stream.pos]));
    assert file[start..at] + file[at..t.stream.pos] == file[start..t.stream.pos];
  }

  lemma KeepSequential(all: iset<Ids>, files: Ids -> seq<byte>, ids: Ids, start: nat, s: State, step: Step)
    requires ChunkProvider.Unambiguous(all) && !step.SeekTo?
    requires |files(ids)| < TWO64 && Ready(s, |files(ids)|) && Sound(all, files, ids, s) && Sequential(files(ids), start, s)
    ensures Sequential(files(ids), start, Next(s, ids, |files(ids)|, step))
  {
    if (step.SendFails? || step.End?) && s.fetch.Some? {
      hide Next, Joined, Sequential, ChunkProvider.Run, ChunkProvider.Piece, AfterEnd;
      var last, result := Ended(all, files, ids, s, step);
      EndSequential(files(ids), start, s, last, result);
    } else {
      hide Joined, ChunkProvider.Run, Sound;
    }
  }

  lemma OpenedSequential(file: seq<byte>, provided: seq<ChunkProvider.Step>, pos: uint64)
    requires pos <= |file|
    ensures Sequential(file, pos, State(VirtualStream.Opened(pos), provided, None, []))
  {
  }

  lemma WholeJoined(file: seq<byte>, s: State)
    requires Sequential(file, 0, s)
    ensures s.stream.pos == |file| ==> Joined(s.blocks) == file
  {
    assert file[0..|file|] == file;
  }

  /** Without seeks the blocks joined are the file up to the cursor, so all of it once the cursor is at the end; each of
      them brings the end nearer. */
  lemma {:induction false} BlocksJoinToFile(all: iset<Ids>, files: Ids -> seq<byte>, ids: Ids, steps: seq<Step>)
    requires ChunkProvider.Unambiguous(all) && ids in all && AllProper(all, files, steps) && |files(ids)| < TWO64
    requires forall step | step in steps :: !step.SeekTo?
    ensures var s := Run(ids, |files(ids)|, steps);
            Sequential(files(ids), 0, s) && (s.stream.pos == |files(ids)| ==> Joined(s.blocks) == files(ids))
    decreases |steps|
  {
    if steps == [] {
      OpenedSequential(files(ids), [], 0);
      WholeJoined(files(ids), INITIAL);
    } else {
      var n, size := |steps| - 1, |files(ids)|;
      LastStep(all, files, ids, steps);
      hide Run, Next, Sound, Proper, AllProper, Sequential, Joined, ChunkProvider.Unambiguous, Ready;
      BlocksJoinToFile(all, files, ids, steps[..n]);
      RunSound(all, files, ids, steps[..n]);
      KeepSequential(all, files, ids, 0, Run(ids, size, steps[..n]), steps[n]);
      WholeJoined(files(ids), Run(ids, size, steps));
    }
  }

  lemma LastStep(all: iset<Ids>, files: Ids -> seq<byte>, ids: Ids, steps: seq<Step>)
    requires steps != [] && AllProper(all, files, steps) && |files(ids)| < TWO64
    ensures var n, size := |steps| - 1, |files(ids)|;
            && AllProper(all, files, steps[..n]) && steps[n] in steps && (forall step | step in steps[..n] :: step in steps)
            && Ready(Run(ids, size, steps[..n]), size)
            && Run(ids, size, steps) == Next(Run(ids, size, steps[..n]), ids, size, steps[n])
  {
    hide Proper, Next, Ready;
  }

  // ------------------------------------------------- streams of many files

  /** A stream of a file, and where its cursor stood when it came about. */
  datatype Stream = Stream(ids: Ids, start: nat, stream: VirtualStream.State, fetch: Option<nat>, blocks: seq<Block>)

  datatype Session = Session(streams: seq<Stream>, provided: seq<ChunkProvider.Step>)

  /** The session as the i-th stream sees it: whatever the others do is work elsewhere. */
  function View(n: Session, i: nat): State
    requires i < |n.streams|
  {
    State(n.streams[i].stream, n.provided, n.streams[i].fetch, n.streams[i].blocks)
  }

  datatype Call =
    | Open(ids: Ids)
    | CloneOf(i: nat)
    | On(i: nat, step: Step)                // a read or a seek of one stream
    | Other(work: ChunkProvider.Step)       // deliveries, cancellations, fetches of no stream here

  ghost predicate Short(files: Ids -> seq<byte>) {
    forall ids :: |files(ids)| < TWO64
  }

  /** Each stream is ready, and no two of them wait for one request. */
  ghost predicate AllReady(files: Ids -> seq<byte>, n: Session)
    requires Short(files)
  {
    && (forall i | 0 <= i < |n.streams| :: Ready(View(n, i), |files(n.streams[i].ids)|))
    && (forall i, j | 0 <= i < j < |n.streams| && n.streams[i].fetch.Some? :: n.streams[i].fetch != n.streams[j].fetch)
  }

  ghost function AfterCall(files: Ids -> seq<byte>, n: Session, call: Call): Session
    requires Short(files) && AllReady(files, n)
  {
    match call
    case Open(ids) => n.(streams := n.streams + [Stream(ids, 0, VirtualStream.Opened(0), None, [])])
    case CloneOf(i) =>
      if i >= |n.streams| then n else
      var at := n.streams[i].stream.pos;
      n.(streams := n.streams + [Stream(n.streams[i].ids, at, VirtualStream.Opened(at), None, [])])
    case On(i, step) =>
      if i >= |n.streams| || step.Elsewhere? then n else
      var ids := n.streams[i].ids;
      var t := Next(View(n, i), ids, |files(ids)|, step);
      Session(n.streams[i := Stream(ids, n.streams[i].start, t.stream, t.fetch, t.blocks)], t.provided)
    case Other(work) =>
      if forall i | 0 <= i < |n.streams| :: Foreign(View(n, i), work) then n.(provided := n.provided + [work]) else n
  }

  /** What a read or a seek does to the provider, and to the request its stream waits for. */
  lemma OwnStep(s: State, ids: Ids, size: uint64, step: Step)
    requires Ready(s, size) && !step.Elsewhere?
    ensures var t := Next(s, ids, size, step);
            && s.provided <= t.provided && |t.provided| <= |s.provided| + 1
            && (|t.provided| > |s.provided| ==>
                  var x := t.provided[|s.provided|];
                  t.provided == s.provided + [x] &&
                  (x == ChunkProvider.Stage(ids.0, ids.1, s.stream.pos) ||
                   ((x.SendFailed? || x.Finish?) && s.fetch == Some(x.id))))
            && (t.fetch == s.fetch || t.fetch == None || t.fetch == Some(ChunkProvider.Run(s.provided).nextId))
  {
    hide ChunkProvider.Run, ChunkProvider.Next;
  }

  /** A stream whose request is not the one that ends stays ready. */
  lemma StaysReady(s: State, size: uint64, work: ChunkProvider.Step)
    requires Ready(s, size) && Foreign(s, work)
    ensures Ready(s.(provided := s.provided + [work]), size)
  {
    NextReady(s, ([], []), size, Elsewhere(work));
  }

  lemma RequestsOlder(s: State, size: uint64)
    requires Ready(s, size) && s.fetch.Some?
    ensures s.fetch.value < ChunkProvider.Run(s.provided).nextId
  {
    ChunkProvider.RunKeeps(s.provided);
  }

  /** Another stream, after a step of the i-th. */
  lemma OthersView(files: Ids -> seq<byte>, n: Session, i: nat, step: Step, j: nat)
    requires Short(files) && AllReady(files, n) && i < |n.streams| && j < |n.streams| && i != j && !step.Elsewhere?
    ensures var m := AfterCall(files, n, On(i, step));
            && |m.streams| == |n.streams| && m.streams[j] == n.streams[j]
            && Ready(View(m, j), |files(n.streams[j].ids)|)
            && (n.streams[j].fetch.Some? ==> m.streams[i].fetch != n.streams[j].fetch)
            && (m.provided == n.provided ||
                exists x :: m.provided == n.provided + [x] && Foreign(View(n, j), x) &&
                            (x.Stage? ==> (x.transferId, x.fileId) == n.streams[i].ids) && !x.Deliver?)
  {
    hide Ready, Next, ChunkProvider.Run, ChunkProvider.Next;
    var ids := n.streams[i].ids;
    assert Ready(View(n, i), |files(ids)|) && Ready(View(n, j), |files(n.streams[j].ids)|);
    assert n.streams[j].fetch.Some? ==> n.streams[i].fetch != n.streams[j].fetch;
    OwnStep(View(n, i), ids, |files(ids)|, step);
    if n.streams[j].fetch.Some? { RequestsOlder(View(n, j), |files(n.streams[j].ids)|); }
    var t := Next(View(n, i), ids, |files(ids)|, step);
    if |t.provided| > |n.provided| {
      var x := t.provided[|n.provided|];
      assert Foreign(View(n, j), x);
      StaysReady(View(n, j), |files(n.streams[j].ids)|, x);
      assert View(AfterCall(files, n, On(i, step)), j) == View(n, j).(provided := n.provided + [x]);
    } else {
      assert t.provided == n.provided;
      assert View(AfterCall(files, n, On(i, step)), j) == View(n, j);
    }
  }

  lemma OnReady(files: Ids -> seq<byte>, n: Session, i: nat, step: Step)
    requires Short(files) && AllReady(files, n)
    ensures AllReady(files, AfterCall(files, n, On(i, step)))
  {
    if i < |n.streams| && !step.Elsewhere? {
      hide Ready, Next;
      var m, ids := AfterCall(files, n, On(i, step)), n.streams[i].ids;
      NextReady(View(n, i), ids, |files(ids)|, step);
      assert View(m, i) == Next(View(n, i), ids, |files(ids)|, step);
      forall j | 0 <= j < |n.streams| && j != i
        ensures m.streams[j] == n.streams[j] && Ready(View(m, j), |files(m.streams[j].ids)|)
        ensures m.streams[j].fetch.Some? ==> m.streams[i].fetch != m.streams[j].fetch
      {
        OthersView(files, n, i, step, j);
      }
    }
  }

  lemma OpenedReady(provided: seq<ChunkProvider.Step>, pos: uint64, size: uint64)
    ensures Ready(State(VirtualStream.Opened(pos), provided, None, []), size)
  {
  }

  lemma SameView(n: Session, m: Session, i: nat)
    requires i < |n.streams| <= |m.streams| && m.streams[i] == n.streams[i] && m.provided == n.provided
    ensures View(m, i) == View(n, i)
  {
  }

  lemma AddedReady(files: Ids -> seq<byte>, n: Session, ids: Ids, pos: uint64)
    requires Short(files) && AllReady(files, n)
    ensures AllReady(files, n.(streams := n.streams + [Stream(ids, pos, VirtualStream.Opened(pos), None, [])]))
  {
    hide Ready;
    var m := n.(streams := n.streams + [Stream(ids, pos, VirtualStream.Opened(pos), None, [])]);
    OpenedReady(n.provided, pos, |files(ids)|);
    forall i | 0 <= i < |n.streams| ensures View(m, i) == View(n, i) {
      SameView(n, m, i);
    }
  }

  lemma OtherReady(files: Ids -> seq<byte>, n: Session, work: ChunkProvider.Step)
    requires Short(files) && AllReady(files, n) && forall i | 0 <= i < |n.streams| :: Foreign(View(n, i), work)
    ensures AllReady(files, n.(provided := n.provided + [work]))
  {
    hide Ready, Foreign;
    var m := n.(provided := n.provided + [work]);
    forall i | 0 <= i < |n.streams| ensures Ready(View(m, i), |files(m.streams[i].ids)|) {
      StaysReady(View(n, i), |files(n.streams[i].ids)|, work);
    }
  }

  lemma CallReady(files: Ids -> seq<byte>, n: Session, call: Call)
    requires Short(files) && AllReady(files, n)
    ensures AllReady(files, AfterCall(files, n, call))
  {
    match call {
      case Open(ids) => AddedReady(files, n, ids, 0);
      case CloneOf(i) =>
        if i < |n.streams| {
          assert Ready(View(n, i), |files(n.streams[i].ids)|);
          AddedReady(files, n, n.streams[i].ids, n.streams[i].stream.pos);
        }
      case On(i, step) => OnReady(files, n, i, step);
      case Other(work) =>
        if forall i | 0 <= i < |n.streams| :: Foreign(View(n, i), work) { OtherReady(files, n, work); }
    }
  }

  ghost function Calls(files: Ids -> seq<byte>, calls: seq<Call>): (n: Session)
    requires Short(files)
    ensures AllReady(files, n)
    decreases |calls|
  {
    if calls == [] then Session([], []) else
    var n := Calls(files, calls[..|calls| - 1]);
    CallReady(files, n, calls[|calls| - 1]);
    AfterCall(files, n, calls[|calls| - 1])
  }

  /** Streams are opened on known ids, and other work is proper. */
  ghost predicate ProperCall(all: iset<Ids>, files: Ids -> seq<byte>, call: Call) {
    match call
    case Open(ids) => ids in all
    case Other(work) => Proper(all, files, Elsewhere(work))
    case _ => true
  }

  ghost predicate ProperCalls(all: iset<Ids>, files: Ids -> seq<byte>, calls: seq<Call>) {
    forall call | call in calls :: ProperCall(all, files, call)
  }

  ghost predicate AllSound(all: iset<Ids>, files: Ids -> seq<byte>, n: Session) {
    && ChunkProvider.Over(all, n.provided) && ChunkProvider.TruePieces(files, n.provided)
    && forall i | 0 <= i < |n.streams| :: n.streams[i].ids in all && Sound(all, files, n.streams[i].ids, View(n, i))
  }

  lemma StageProper(all: iset<Ids>, files: Ids -> seq<byte>, x: ChunkProvider.Step)
    requires !x.Deliver? && (x.Stage? ==> (x.transferId, x.fileId) in all)
    ensures Proper(all, files, Elsewhere(x))
  {
  }

  lemma OnSound(all: iset<Ids>, files: Ids -> seq<byte>, n: Session, i: nat, step: Step)
    requires ChunkProvider.Unambiguous(all) && Short(files) && AllReady(files, n) && AllSound(all, files, n)
    requires i < |n.streams| && !step.Elsewhere?
    ensures AllSound(all, files, AfterCall(files, n, On(i, step)))
  {
    var m, ids := AfterCall(files, n, On(i, step)), n.streams[i].ids;
    assert Sound(all, files, ids, View(n, i)) && ids in all;
    assert Proper(all, files, step);
    KeepSound(all, files, ids, View(n, i), step);
    assert View(m, i) == Next(View(n, i), ids, |files(ids)|, step);
    assert ChunkProvider.Over(all, m.provided) && ChunkProvider.TruePieces(files, m.provided);
    hide Ready, Next, Sound, Proper, ChunkProvider.Over, ChunkProvider.TruePieces, ChunkProvider.Unambiguous;
    forall j | 0 <= j < |n.streams| && j != i ensures Sound(all, files, m.streams[j].ids, View(m, j)) {
      OthersView(files, n, i, step, j);
      if m.provided == n.provided {
        SameView(n, m, j);
      } else {
        var x :| m.provided == n.provided + [x] && Foreign(View(n, j), x) &&
                 (x.Stage? ==> (x.transferId, x.fileId) == ids) && !x.Deliver?;
        StageProper(all, files, x);
        KeepElsewhere(all, files, n.streams[j].ids, View(n, j), x);
        assert View(m, j) == View(n, j).(provided := n.provided + [x]);
      }
    }
  }

  lemma OpenedSound(all: iset<Ids>, files: Ids -> seq<byte>, ids: Ids, provided: seq<ChunkProvider.Step>, pos: uint64)
    requires ChunkProvider.Over(all, provided) && ChunkProvider.TruePieces(files, provided)
    ensures Sound(all, files, ids, State(VirtualStream.Opened(pos), provided, None, []))
  {
  }

  lemma AddedSound(all: iset<Ids>, files: Ids -> seq<byte>, n: Session, ids: Ids, pos: uint64)
    requires AllSound(all, files, n) && ids in all
    ensures AllSound(all, files, n.(streams := n.streams + [Stream(ids, pos, VirtualStream.Opened(pos), None, [])]))
  {
    hide Sound, ChunkProvider.Over, ChunkProvider.TruePieces;
    var m := n.(streams := n.streams + [Stream(ids, pos, VirtualStream.Opened(pos), None, [])]);
    OpenedSound(all, files, ids, n.provided, pos);
    forall i | 0 <= i < |n.streams| ensures View(m, i) == View(n, i) {
      SameView(n, m, i);
    }
  }

  lemma OtherSound(all: iset<Ids>, files: Ids -> seq<byte>, n: Session, work: ChunkProvider.Step)
    requires Short(files) && AllReady(files, n) && AllSound(all, files, n) && Proper(all, files, Elsewhere(work))
    requires forall i | 0 <= i < |n.streams| :: Foreign(View(n, i), work)
    ensures AllSound(all, files, n.(provided := n.provided + [work]))
  {
    ProvidedProper(all, files, n.provided, work);
    hide Sound, Ready, Proper, Foreign, ChunkProvider.Over, ChunkProvider.TruePieces;
    var m := n.(provided := n.provided + [work]);
    forall i | 0 <= i < |n.streams| ensures Sound(all, files, m.streams[i].ids, View(m, i)) {
      KeepElsewhere(all, files, n.streams[i].ids, View(n, i), work);
    }
  }

  lemma CallSound(all: iset<Ids>, files: Ids -> seq<byte>, n: Session, call: Call)
    requires ChunkProvider.Unambiguous(all) && Short(files) && AllReady(files, n) && AllSound(all, files, n)
    requires ProperCall(all, files, call)
    ensures AllSound(all, files, AfterCall(files, n, call))
  {
    match call {
      case Open(ids) => AddedSound(all, files, n, ids, 0);
      case CloneOf(i) =>
        if i < |n.streams| {
          assert Ready(View(n, i), |files(n.streams[i].ids)|);
          AddedSound(all, files, n, n.streams[i].ids, n.streams[i].stream.pos);
        }
      case On(i, step) => if i < |n.streams| && !step.Elsewhere? { OnSound(all, files, n, i, step); }
      case Other(work) =>
        if forall i | 0 <= i < |n.streams| :: Foreign(View(n, i), work) { OtherSound(all, files, n, work); }
    }
  }

  lemma {:induction false} CallsSound(all: iset<Ids>, files: Ids -> seq<byte>, calls: seq<Call>)
    requires ChunkProvider.Unambiguous(all) && Short(files) && ProperCalls(all, files, calls)
    ensures AllSound(all, files, Calls(files, calls))
    decreases |calls|
  {
    if calls != [] {
      hide AfterCall, AllSound, AllReady, ProperCall, ChunkProvider.Unambiguous;
      var init, call := calls[..|calls| - 1], calls[|calls| - 1];
      assert call in calls && forall c | c in init :: c in calls;
      CallsSound(all, files, init);
      CallSound(all, files, Calls(files, init), call);
    }
  }

  /** Any number of streams of any files, clones included, over one provider: whatever reads, seeks, deliveries, errors
      and cancellations interleave, every block that any of them returns is a piece of its own file, at the position
      where the read began. */
  lemma EveryBlockIsOwn(all: iset<Ids>, files: Ids -> seq<byte>, calls: seq<Call>, i: nat)
    requires ChunkProvider.Unambiguous(all) && Short(files) && ProperCalls(all, files, calls)
    requires i < |Calls(files, calls).streams|
    ensures var s := Calls(files, calls).streams[i];
            forall b | b in s.blocks :: ChunkProvider.Piece(files(s.ids), b.at, b.data)
  {
    CallsSound(all, files, calls);
    assert Sound(all, files, Calls(files, calls).streams[i].ids, View(Calls(files, calls), i));
  }

  ghost predicate AllSequential(files: Ids -> seq<byte>, n: Session) {
    forall i | 0 <= i < |n.streams| :: Sequential(files(n.streams[i].ids), n.streams[i].start, View(n, i))
  }

  /** What a stream has delivered does not depend on what the provider does meanwhile. */
  lemma StaysSequential(file: seq<byte>, start: nat, s: State, t: State)
    requires Sequential(file, start, s) && t.stream == s.stream && t.blocks == s.blocks
    ensures Sequential(file, start, t)
  {
  }

  lemma AddedSequential(files: Ids -> seq<byte>, n: Session, ids: Ids, pos: uint64)
    requires AllSequential(files, n) && pos <= |files(ids)|
    ensures AllSequential(files, n.(streams := n.streams + [Stream(ids, pos, VirtualStream.Opened(pos), None, [])]))
  {
    hide Sequential;
    OpenedSequential(files(ids), n.provided, pos);
    var m := n.(streams := n.streams + [Stream(ids, pos, VirtualStream.Opened(pos), None, [])]);
    forall i | 0 <= i < |n.streams| ensures View(m, i) == View(n, i) {
      SameView(n, m, i);
    }
  }

  lemma OnSequential(all: iset<Ids>, files: Ids -> seq<byte>, n: Session, i: nat, step: Step)
    requires ChunkProvider.Unambiguous(all) && Short(files) && AllReady(files, n) && AllSound(all, files, n)
    requires i < |n.streams| && !step.Elsewhere? && !step.SeekTo? && AllSequential(files, n)
    ensures AllSequential(files, AfterCall(files, n, On(i, step)))
  {
    hide Ready, Next, Sound, Sequential, ChunkProvider.Unambiguous;
    var m, ids := AfterCall(files, n, On(i, step)), n.streams[i].ids;
    KeepSequential(all, files, ids, n.streams[i].start, View(n, i), step);
    assert View(m, i) == Next(View(n, i), ids, |files(ids)|, step);
    forall j | 0 <= j < |n.streams| && j != i
      ensures Sequential(files(m.streams[j].ids), m.streams[j].start, View(m, j))
    {
      assert m.streams[j] == n.streams[j];
      StaysSequential(files(n.streams[j].ids), n.streams[j].start, View(n, j), View(m, j));
    }
  }

  lemma CallSequential(all: iset<Ids>, files: Ids -> seq<byte>, n: Session, call: Call)
    requires ChunkProvider.Unambiguous(all) && Short(files) && AllReady(files, n) && AllSound(all, files, n)
    requires AllSequential(files, n) && !(call.On? && call.step.SeekTo?)
    ensures AllSequential(files, AfterCall(files, n, call))
  {
    match call {
      case Open(ids) => AddedSequential(files, n, ids, 0);
      case CloneOf(i) =>
        if i < |n.streams| {
          assert Sequential(files(n.streams[i].ids), n.streams[i].start, View(n, i));
          AddedSequential(files, n, n.streams[i].ids, n.streams[i].stream.pos);
        }
      case On(i, step) => if i < |n.streams| && !step.Elsewhere? { OnSequential(all, files, n, i, step); }
      case Other(work) =>
        hide Sequential;
        var m := AfterCall(files, n, call);
        forall i | 0 <= i < |n.streams| ensures Sequential(files(m.streams[i].ids), m.streams[i].start, View(m, i)) {
          StaysSequential(files(n.streams[i].ids), n.streams[i].start, View(n, i), View(m, i));
        }
    }
  }

  /** Without seeks, what each of them has returned is its own file from where it came about to its cursor: a clone
      begins where its origin stood, and no stream disturbs another. */
  lemma {:induction false} StreamsDeliver(all: iset<Ids>, files: Ids -> seq<byte>, calls: seq<Call>)
    requires ChunkProvider.Unambiguous(all) && Short(files) && ProperCalls(all, files, calls)
    requires forall call | call in calls :: !(call.On? && call.step.SeekTo?)
    ensures AllSequential(files, Calls(files, calls))
    decreases |calls|
  {
    if calls != [] {
      hide AfterCall, AllSound, AllReady, AllSequential, ProperCall, ChunkProvider.Unambiguous;
      var init, call := calls[..|calls| - 1], calls[|calls| - 1];
      assert call in calls && forall c | c in init :: c in calls;
      StreamsDeliver(all, files, init);
      CallsSound(all, files, init);
      CallSequential(all, files, Calls(files, init), call);
    }
  }
}
