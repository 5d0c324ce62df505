/** The IStream over a remote file: a cursor with 64-bit seeks, short reads from a chunk provider, and copies. */
module VirtualStream {
  import opened Bytes
  import ChunkProvider

  const COPY_CHUNK: nat := 262144

  const STREAM_SEEK_SET: nat := 0
  const STREAM_SEEK_CUR: nat := 1
  const STREAM_SEEK_END: nat := 2

  /** The HRESULTs the stream returns. */
  datatype Status =
    | S_OK | S_FALSE | E_FAIL
    | STG_E_INUSE | STG_E_INVALIDFUNCTION | STG_E_SEEKERROR
    | Upstream(hr: int)  // what the provider or the destination failed with
  {
    predicate Failed() {
      !S_OK? && !S_FALSE?
    }
  }

  datatype Reply = Refused(hr: int) | Chunk(data: seq<byte>)

  /** FetchChunk: what the provider answers to its n-th request, for `want` bytes at `offset`. */
  type Provider = (nat, nat, nat) -> Reply

  datatype Request = Request(offset: nat, want: nat)

  /** The stream between two calls; a request is in flight while a read waits for its chunk. */
  datatype State = State(pos: uint64, inFlight: Option<Request>, requests: seq<Request>)

  function Opened(pos: uint64): State {
    State(pos, None, [])
  }

  /** Every request asks for bytes of the file, and the one in flight cannot push the cursor over 64 bits. */
  predicate Sane(s: State, size: uint64) {
    && (forall r | r in s.requests :: 0 < r.want < TWO32 && r.offset + r.want <= size)
    && (s.inFlight.Some? ==> 0 < s.inFlight.value.want < TWO32 && s.pos + s.inFlight.value.want < TWO64)
  }

  // ------------------------------------------------------------- the steps

  /** Where a seek leads, in exact integers. */
  function Target(s: State, size: uint64, delta: int, origin: nat): Option<int> {
    if origin == STREAM_SEEK_SET then Some(delta)
    else if origin == STREAM_SEEK_CUR then Some(s.pos + delta)
    else if origin == STREAM_SEEK_END then Some(size + delta)
    else None
  }

  /** The mathematical cursor: a seek moves to its exact target when that is a non-negative signed 64-bit number. */
  function AfterSeek(s: State, size: uint64, delta: int, origin: nat): State {
    var t := Target(s, size, delta, origin);
    if t.Some? && 0 <= t.value < TWO63 then s.(pos := t.value) else s
  }

  function SeekStatus(s: State, size: uint64, delta: int, origin: nat): Status {
    var t := Target(s, size, delta, origin);
    if t == None then STG_E_INVALIDFUNCTION else if 0 <= t.value < TWO63 then S_OK else STG_E_SEEKERROR
  }

  /** A read that returns without asking the provider. */
  function Immediate(s: State, size: uint64, cb: uint32): Option<Status> {
    if cb == 0 then Some(S_OK)
    else if s.pos >= size then Some(S_FALSE)
    else if s.inFlight.Some? then Some(STG_E_INUSE)
    else None
  }

  function AfterBegin(s: State, size: uint64, cb: uint32): State
    requires s.pos < size
  {
    var r := Request(s.pos, Min(size - s.pos, cb));
    s.(inFlight := Some(r), requests := s.requests + [r])
  }

  /** The bytes of a reply that go to the caller. */
  function Clipped(want: nat, reply: Reply): seq<byte> {
    if reply.Refused? then [] else reply.data[..Min(|reply.data|, want)]
  }

  function AfterEnd(s: State, size: uint64, reply: Reply): State
    requires s.inFlight.Some? && Sane(s, size)
  {
    s.(inFlight := None, pos := s.pos + |Clipped(s.inFlight.value.want, reply)|)
  }

  function EndStatus(s: State, size: uint64, reply: Reply): Status
    requires s.inFlight.Some? && Sane(s, size)
  {
    if reply.Refused? then Upstream(reply.hr)
    else if Clipped(s.inFlight.value.want, reply) == [] then E_FAIL
    else if AfterEnd(s, size, reply).pos >= size then S_FALSE
    else S_OK
  }

  /** A seek from the start (0), the cursor (1) or the end (2) goes where the exact sum leads when that is a non-negative
      signed 64-bit number, and otherwise leaves the cursor alone with one of two errors. */
  lemma SeekTold(s: State, size: uint64, delta: int, origin: nat)
    ensures var t, st := AfterSeek(s, size, delta, origin), SeekStatus(s, size, delta, origin);
            if origin > 2 then t == s && st == STG_E_INVALIDFUNCTION
            else
              var target := delta + (if origin == 0 then 0 else if origin == 1 then s.pos else size);
              if 0 <= target < 0x8000_0000_0000_0000 then t == s.(pos := target) && st == S_OK
              else t == s && st == STG_E_SEEKERROR
  {
  }

  // ------------------------------------------------------------ the stream

  /** The destination of a copy: it takes each block whole, in part, or fails. */
  datatype SinkAnswer = Accept(upTo: nat) | Reject(hr: int)

  class Sink {
    var data: seq<byte>
    var answers: seq<SinkAnswer>  // when they run out, blocks are taken whole
    ghost var rejected: bool

    constructor (answers: seq<SinkAnswer>)
      ensures data == [] && this.answers == answers && !rejected
    {
      data, this.answers, rejected := [], answers, false;
    }

    method Write(block: seq<byte>) returns (st: Status, written: nat)
      modifies this
      ensures rejected == (old(rejected) || st.Failed())
      ensures st.Failed() ==> data == old(data)
      ensures !st.Failed() ==> written <= |block| && data == old(data) + block[..written]
    {
      if |answers| == 0 {
        assert block[..|block|] == block;
        data := data + block;
        return S_OK, |block|;
      }
      var a := answers[0];
      answers := answers[1..];
      match a {
        case Reject(hr) =>
          rejected := true;
          return Upstream(hr), 0;
        case Accept(k) =>
          written := Min(k, |block|);
          data := data + block[..written];
          return S_OK, written;
      }
    }
  }

  class VirtualFileStream {
    const size: uint64
    const provider: Provider
    var pos: uint64
    var inFlight: Option<Request>
    var requests: seq<Request>

    function Now(): State
      reads this
    {
      State(pos, inFlight, requests)
    }

    ghost predicate Valid()
      reads this
    {
      Sane(Now(), size)
    }

    constructor (size: uint64, provider: Provider)
      ensures Valid() && Now() == Opened(0) && this.size == size && this.provider == provider
    {
      this.size, this.provider := size, provider;
      pos, inFlight, requests := 0, None, [];
    }

    /** The 64-bit arithmetic meets the exact cursor for every 64-bit move, the most negative one included. */
    method Seek(delta: int, origin: uint32) returns (st: Status)
      requires Valid() && -(TWO63 as int) <= delta < TWO63
      modifies this`pos
      ensures Valid() && Now() == AfterSeek(old(Now()), size, delta, origin)
      ensures st == SeekStatus(old(Now()), size, delta, origin)
    {
      var base: uint64 := 0;
      if origin == STREAM_SEEK_SET {
        base := 0;
      } else if origin == STREAM_SEEK_CUR {
        base := pos;
      } else if origin == STREAM_SEEK_END {
        base := size;
      } else {
        return STG_E_INVALIDFUNCTION;
      }
      var target: uint64 := 0;
      if delta >= 0 {
        var d: uint64 := delta;
        if d > TWO64 - 1 - base { return STG_E_SEEKERROR; }
        target := base + d;
      } else {
        var lessOne: uint64 := -(delta + 1);
        var mag: uint64 := lessOne + 1;
        if mag > base { return STG_E_SEEKERROR; }
        target := base - mag;
      }
      if target > TWO63 - 1 { return STG_E_SEEKERROR; }
      pos := target;
      return S_OK;
    }

    /** Read up to the call of FetchChunk, which may run other calls on this stream before it returns. */
    method BeginRead(cb: uint32) returns (st: Option<Status>)
      requires Valid()
      modifies this`inFlight, this`requests
      ensures Valid() && st == Immediate(old(Now()), size, cb)
      ensures Now() == if st == None then AfterBegin(old(Now()), size, cb) else old(Now())
    {
      if cb == 0 { return Some(S_OK); }
      if pos >= size { return Some(S_FALSE); }
      var remaining: uint64 := size - pos;
      var want := Min(remaining, cb);
      if inFlight.Some? { return Some(STG_E_INUSE); }
      inFlight := Some(Request(pos, want));
      requests := requests + [Request(pos, want)];
      return None;
    }

    /** Read from the return of FetchChunk on. */
    method EndRead(reply: Reply) returns (st: Status, out: seq<byte>)
      requires Valid() && inFlight.Some?
      modifies this`inFlight, this`pos
      ensures Valid() && Now() == AfterEnd(old(Now()), size, reply)
      ensures st == EndStatus(old(Now()), size, reply)
      ensures out == Clipped(old(inFlight).value.want, reply)
    {
      var want := inFlight.value.want;
      inFlight := None;
      if reply.Refused? { return Upstream(reply.hr), []; }
      var got := Min(|reply.data|, want);
      if got == 0 && want > 0 { return E_FAIL, []; }
      out := reply.data[..got];
      pos := pos + got;
      return if pos >= size then S_FALSE else S_OK, out;
    }

    /** A read whose fetch runs no other call on this stream. */
    method Read(cb: uint32) returns (st: Status, out: seq<byte>)
      requires Valid()
      modifies this
      ensures Valid() && ReadResult(Now(), st, out) == AfterRead(old(Now()), size, provider, cb)
      ensures |out| <= cb
    {
      var early := BeginRead(cb);
      if early.Some? { return early.value, []; }
      st, out := EndRead(provider(|requests| - 1, inFlight.value.offset, inFlight.value.want));
    }

    method Clone() returns (clone: VirtualFileStream)
      requires Valid()
      ensures fresh(clone) && clone.Valid() && clone.size == size && clone.provider == provider
      ensures clone.Now() == Opened(pos)
    {
      clone := new VirtualFileStream(size, provider);
      clone.pos := pos;
    }

    /** With an honest provider and a destination that never fails, a copy reads exactly the next cb bytes of the
        file, or what is left of it; a destination that takes blocks in part is noticed by no error, only by the two
        totals. */
    method CopyTo(sink: Sink, cb: uint64, ghost file: seq<byte>) returns (st: Status, totalRead: nat, totalWritten: nat)
      requires Valid()
      modifies this, sink
      ensures Valid()
      ensures st.Failed() ==> totalRead == 0 && totalWritten == 0
      ensures !st.Failed() ==> st == S_OK && (totalRead == cb || pos >= size) && pos == old(pos) + totalRead
      ensures !st.Failed() ==> totalWritten == |sink.data| - |old(sink.data)| <= totalRead
      ensures st.Failed() ==> FailureOf(provider, st) || sink.rejected
      ensures !old(sink.rejected) && !st.Failed() ==> !sink.rejected
      ensures AskedInBlocks(old(requests), requests, old(pos), size, cb)
      ensures Honest(provider, file) && |file| == size && !sink.rejected && (old(inFlight) == None || old(pos) >= size) ==>
                var part := file[Min(old(pos), size)..Min(old(pos) + cb, size)];
                st == S_OK && totalRead == |part| && pos == old(pos) + |part| &&
                (totalWritten == totalRead <==> sink.data == old(sink.data) + part)
    {
      hide Honest, Copied, AfterRead, Sane, AskedInBlocks, FailureOf;
      totalRead, totalWritten := 0, 0;
      var remaining := cb;
      ghost var good := Honest(provider, file) && |file| == size && (inFlight == None || pos >= size);
      ghost var start, held := pos, sink.data;
      ghost var asked := requests;
      NothingAsked(requests, pos, size, cb);
      if good { NothingCopied(file, start, held); }
      while remaining > 0
        invariant Valid() && 0 <= remaining && remaining + totalRead == cb
        invariant sink.rejected == old(sink.rejected) && pos == old(pos) + totalRead
        invariant AskedInBlocks(asked, requests, start, size, cb)
        invariant totalWritten == |sink.data| - |held| <= totalRead
        invariant good ==> inFlight == old(inFlight) && pos == start + totalRead
        invariant good ==> Copied(file, start, totalRead, totalWritten, held, sink.data)
        decreases remaining
      {
        var take := Min(remaining, COPY_CHUNK);
        ghost var before, at, was := sink.data, pos, Now();
        if good { HonestBlock(Now(), provider, file, take); }
        var hr, block := Read(take);
        BlockTold(was, size, provider, asked, start, cb, take);
        if hr.Failed() { return hr, 0, 0; }
        if |block| == 0 { break; }
        var hrw, written := sink.Write(block);
        if hrw.Failed() { return hrw, 0, 0; }
        if good { BlockCopied(file, start, totalRead, totalWritten, held, before, block, written); }
        totalRead := totalRead + |block|;
        totalWritten := totalWritten + written;
        remaining := remaining - |block|;
      }
      if good { CopyEnds(file, start, totalRead, totalWritten, held, sink.data, cb); }
      st := S_OK;
    }
  }

  /** A copy asks for one block after another: 256 KiB each, or what is left of the file or of the copy. */
  ghost predicate AskedInBlocks(before: seq<Request>, after: seq<Request>, start: nat, size: nat, cb: nat) {
    && before <= after
    && forall k | |before| <= k < |after| ::
         var r := after[k];
         start <= r.offset < size && r.offset < start + cb &&
         r.want == Min(262144, Min(size - r.offset, start + cb - r.offset))
  }

  lemma NothingAsked(requests: seq<Request>, start: nat, size: nat, cb: nat)
    ensures AskedInBlocks(requests, requests, start, size, cb)
  {
  }

  /** Where a copy stands: `total` bytes read from `start` on, `written` of them in the destination. */
  ghost predicate Copied(file: seq<byte>, start: nat, total: nat, written: nat, held: seq<byte>, data: seq<byte>) {
    && (total == 0 || start + total <= |file|)
    && |data| == |held| + written && written <= total
    && (written == total > 0 ==> data == held + file[start..start + total])
    && (written == total == 0 ==> data == held)
  }

  lemma NothingCopied(file: seq<byte>, start: nat, held: seq<byte>)
    ensures Copied(file, start, 0, 0, held, held)
  {
  }

  lemma BlockCopied(file: seq<byte>, start: nat, total: nat, written: nat, held: seq<byte>, data: seq<byte>,
                    block: seq<byte>, taken: nat)
    requires Copied(file, start, total, written, held, data) && taken <= |block| && block != []
    requires start + total + |block| <= |file| && block == file[start + total..start + total + |block|]
    ensures Copied(file, start, total + |block|, written + taken, held, data + block[..taken])
  {
    if taken == |block| {
      assert block[..taken] == block;
      assert file[start..start + total] + block == file[start..start + total + |block|];
    }
  }

  lemma CopyEnds(file: seq<byte>, start: nat, total: nat, written: nat, held: seq<byte>, data: seq<byte>, cb: nat)
    requires Copied(file, start, total, written, held, data) && total <= cb
    requires total == cb || start + total >= |file|
    ensures var part := file[Min(start, |file|)..Min(start + cb, |file|)];
            total == |part| && written == |data| - |held| <= total && (written == total <==> data == held + part)
  {
    var part := file[Min(start, |file|)..Min(start + cb, |file|)];
    if total == 0 {
      assert part == [] && held + part == held;
    } else {
      assert part == file[start..start + total];
    }
  }

  // ---------------------------------------------------- the cursor refined

  datatype ReadResult = ReadResult(state: State, status: Status, out: seq<byte>)

  function AfterRead(s: State, size: uint64, provider: Provider, cb: uint32): ReadResult
    requires Sane(s, size)
  {
    var early := Immediate(s, size, cb);
    if early.Some? then ReadResult(s, early.value, []) else
    var b := AfterBegin(s, size, cb);
    assert Sane(b, size);
    var reply := provider(|s.requests|, s.pos, b.inFlight.value.want);
    ReadResult(AfterEnd(b, size, reply), EndStatus(b, size, reply), Clipped(b.inFlight.value.want, reply))
  }

  /** How a read ends once the provider has answered, whatever the answer: a refusal is passed on, an empty chunk is an
      error, and the end of file is told exactly when the cursor has reached it. */
  lemma EndTold(s: State, size: uint64, reply: Reply)
    requires s.inFlight.Some? && Sane(s, size)
    ensures var t, st, out := AfterEnd(s, size, reply), EndStatus(s, size, reply), Clipped(s.inFlight.value.want, reply);
            t.inFlight == None && t.requests == s.requests && t.pos == s.pos + |out| &&
            match reply
            case Refused(hr) => st == Upstream(hr) && out == []
            case Chunk(data) =>
              out == data[..Min(|data|, s.inFlight.value.want)] &&
              st == if data == [] then E_FAIL else if s.pos + |out| >= size then S_FALSE else S_OK
  {
  }

  /** The read returns what the provider failed with, or one of the two errors of its own. */
  predicate OwnFailure(st: Status) {
    st == E_FAIL || st == STG_E_INUSE
  }

  ghost predicate FailureOf(provider: Provider, st: Status) {
    OwnFailure(st) ||
    exists n: nat, offset: nat, want: nat ::
      provider(n, offset, want).Refused? && st == Upstream(provider(n, offset, want).hr)
  }

  /** Every read, for every provider: what it asks for, what each answer makes of it, and what the early returns are. */
  lemma ReadTold(s: State, size: uint64, provider: Provider, cb: uint32)
    requires Sane(s, size)
    ensures var r := AfterRead(s, size, provider, cb);
            if cb == 0 then r == ReadResult(s, S_OK, [])
            else if s.pos >= size then r == ReadResult(s, S_FALSE, [])
            else if s.inFlight.Some? then r == ReadResult(s, STG_E_INUSE, [])
            else
              var want := Min(size - s.pos, cb);
              r.state.requests == s.requests + [Request(s.pos, want)] && r.state.inFlight == None &&
              match provider(|s.requests|, s.pos, want)
              case Refused(hr) => r.status == Upstream(hr) && r.out == [] && r.state.pos == s.pos
              case Chunk(data) =>
                r.out == data[..Min(|data|, want)] && r.state.pos == s.pos + |r.out| &&
                r.status == if data == [] then E_FAIL else if r.state.pos >= size then S_FALSE else S_OK
    ensures var r := AfterRead(s, size, provider, cb);
            (r.status == S_FALSE ==> r.state.pos >= size) && (r.status.Failed() ==> FailureOf(provider, r.status)) &&
            (r.out == [] && cb != 0 && !r.status.Failed() ==> r.state.pos >= size) && r.state.pos == s.pos + |r.out|
  {
    if Immediate(s, size, cb) == None {
      BeginSane(s, size, cb);
      EndTold(AfterBegin(s, size, cb), size, provider(|s.requests|, s.pos, Min(size - s.pos, cb)));
    }
  }

  lemma BlockAsked(before: seq<Request>, s: State, t: State, start: nat, size: nat, cb: nat, take: nat)
    requires AskedInBlocks(before, s.requests, start, size, cb)
    requires start <= s.pos < start + cb && take == Min(start + cb - s.pos, 262144)
    requires t.requests == s.requests ||
             (s.pos < size && t.requests == s.requests + [Request(s.pos, Min(size - s.pos, take))])
    ensures AskedInBlocks(before, t.requests, start, size, cb)
  {
  }

  /** A read as a copy needs it. */
  lemma BlockTold(s: State, size: uint64, provider: Provider, before: seq<Request>, start: nat, cb: nat, take: uint32)
    requires Sane(s, size) && AskedInBlocks(before, s.requests, start, size, cb)
    requires start <= s.pos < start + cb && take == Min(start + cb - s.pos, 262144)
    ensures var r := AfterRead(s, size, provider, take);
            && r.state.pos == s.pos + |r.out| && AskedInBlocks(before, r.state.requests, start, size, cb)
            && (r.status.Failed() ==> FailureOf(provider, r.status))
            && (r.out == [] && !r.status.Failed() ==> r.state.pos >= size)
  {
    ReadTold(s, size, provider, take);
    hide AfterRead, AskedInBlocks, FailureOf;
    BlockAsked(before, s, AfterRead(s, size, provider, take).state, start, size, cb, take);
  }

  /** The provider answers each request for bytes of the file with some of them: at least one, perhaps not all, perhaps
      more than asked for. */
  ghost predicate Honest(provider: Provider, file: seq<byte>) {
    forall n: nat, offset: nat, want: nat | 0 < want && offset + want <= |file| ::
      HonestReply(provider(n, offset, want), file, offset, want)
  }

  predicate HonestReply(reply: Reply, file: seq<byte>, offset: nat, want: nat)
    requires offset + want <= |file|
  {
    reply.Chunk? && reply.data != [] &&
    Clipped(want, reply) == file[offset..offset + Min(|reply.data|, want)]
  }

  /** One read of an honest file is one step of the cursor: some of the next bytes, at least one unless none is left or
      none is asked for, and S_FALSE exactly at the end. */
  lemma HonestRead(s: State, provider: Provider, file: seq<byte>, cb: uint32)
    requires |file| < TWO64 && Sane(s, |file|) && Honest(provider, file) && (s.inFlight == None || s.pos >= |file|)
    ensures var r := AfterRead(s, |file|, provider, cb);
            Sane(r.state, |file|) && r.state.inFlight == s.inFlight &&
            r.state.pos == s.pos + |r.out| && |r.out| <= cb &&
            (r.out != [] ==> r.state.pos <= |file| && r.out == file[s.pos..r.state.pos]) &&
            (r.out == [] <==> cb == 0 || s.pos >= |file|) &&
            r.status == (if cb == 0 || r.state.pos < |file| then S_OK else S_FALSE)
  {
    if Immediate(s, |file|, cb) == None {
      var want := Min(|file| - s.pos, cb);
      assert HonestReply(provider(|s.requests|, s.pos, want), file, s.pos, want);
      assert Sane(AfterBegin(s, |file|, cb), |file|);
    }
  }

  lemma HonestBlock(s: State, provider: Provider, file: seq<byte>, cb: uint32)
    requires |file| < TWO64 && Sane(s, |file|) && Honest(provider, file) && (s.inFlight == None || s.pos >= |file|)
    ensures var r := AfterRead(s, |file|, provider, cb);
            r.state.inFlight == s.inFlight && !r.status.Failed() &&
            (r.out != [] ==> r.state.pos == s.pos + |r.out| <= |file| && r.out == file[s.pos..r.state.pos])
  {
    HonestRead(s, provider, file, cb);
  }

  function ReadMany(s: State, size: uint64, provider: Provider, cbs: seq<uint32>): ReadResult
    requires Sane(s, size)
    ensures Sane(ReadMany(s, size, provider, cbs).state, size)
    decreases |cbs|
  {
    if cbs == [] then ReadResult(s, S_OK, []) else
    var before := ReadMany(s, size, provider, cbs[..|cbs| - 1]);
    var last := AfterRead(before.state, size, provider, cbs[|cbs| - 1]);
    AfterReadSane(before.state, size, provider, cbs[|cbs| - 1]);
    last.(out := before.out + last.out)
  }

  lemma AfterReadSane(s: State, size: uint64, provider: Provider, cb: uint32)
    requires Sane(s, size)
    ensures Sane(AfterRead(s, size, provider, cb).state, size)
  {
    if Immediate(s, size, cb) == None {
      BeginSane(s, size, cb);
    }
  }

  lemma BeginSane(s: State, size: uint64, cb: uint32)
    requires Sane(s, size) && 0 < cb && s.pos < size
    ensures Sane(AfterBegin(s, size, cb), size)
  {
  }

  lemma SliceJoins(file: seq<byte>, a: nat, b: nat, c: nat)
    ensures a <= b <= c <= |file| ==> file[a..b] + file[b..c] == file[a..c]
  {
  }

  /** What n reads from `start` on have achieved: the file without gap or overlap, at least a byte a read, S_FALSE
      exactly when the last of them reached the end. */
  ghost predicate Delivered(start: nat, file: seq<byte>, n: nat, r: ReadResult) {
    && r.state.inFlight == None && start <= r.state.pos <= |file| && r.out == file[start..r.state.pos]
    && r.state.pos >= Min(|file|, start + n)
    && (n != 0 ==> (r.status == S_FALSE <==> r.state.pos == |file|)) && !r.status.Failed()
  }

  lemma DeliverOne(start: nat, provider: Provider, file: seq<byte>, n: nat, before: ReadResult, cb: uint32)
    requires |file| < TWO64 && Sane(before.state, |file|) && Honest(provider, file)
    requires Delivered(start, file, n, before) && cb != 0
    ensures var last := AfterRead(before.state, |file|, provider, cb);
            Delivered(start, file, n + 1, last.(out := before.out + last.out))
  {
    hide Honest, AfterRead, Sane;
    HonestRead(before.state, provider, file, cb);
    SliceJoins(file, start, before.state.pos, before.state.pos + |AfterRead(before.state, |file|, provider, cb).out|);
  }

  /** Reads in sequence deliver the file from the cursor on; the end takes no more reads than bytes are left. */
  lemma {:induction false} ReadsDeliver(s: State, provider: Provider, file: seq<byte>, cbs: seq<uint32>)
    requires |file| < TWO64 && Sane(s, |file|) && Honest(provider, file)
    requires s.inFlight == None && s.pos <= |file| && 0 !in cbs
    ensures Delivered(s.pos, file, |cbs|, ReadMany(s, |file|, provider, cbs))
    decreases |cbs|
  {
    if cbs != [] {
      hide Honest, AfterRead, Sane, Delivered;
      var init, cb := cbs[..|cbs| - 1], cbs[|cbs| - 1];
      assert cb in cbs;
      ReadsDeliver(s, provider, file, init);
      DeliverOne(s.pos, provider, file, |init|, ReadMany(s, |file|, provider, init), cb);
    }
  }

  // ---------------------------------------------- calls inside other calls

  /** One call on the stream, or half of a read: other calls may come between the halves. */
  datatype Step = SeekTo(delta: int, origin: nat) | Begin(cb: uint32) | End(reply: Reply)

  function Next(s: State, size: uint64, step: Step): State
    requires Sane(s, size)
  {
    match step
    case SeekTo(d, o) => AfterSeek(s, size, d, o)
    case Begin(cb) => if Immediate(s, size, cb) == None then AfterBegin(s, size, cb) else s
    case End(r) => if s.inFlight.Some? then AfterEnd(s, size, r) else s
  }

  function Run(size: uint64, steps: seq<Step>): (s: State)
    ensures Sane(s, size)
    decreases |steps|
  {
    if steps == [] then Opened(0) else
    var s := Run(size, steps[..|steps| - 1]);
    NextSane(s, size, steps[|steps| - 1]);
    Next(s, size, steps[|steps| - 1])
  }

  lemma NextSane(s: State, size: uint64, step: Step)
    requires Sane(s, size)
    ensures Sane(Next(s, size, step), size)
  {
    if step.Begin? && Immediate(s, size, step.cb) == None {
      BeginSane(s, size, step.cb);
    }
  }

  /** However calls nest and whatever the provider answers, no request reaches past the file, and the position stays a
      64-bit number. */
  lemma RequestsInFile(size: uint64, steps: seq<Step>)
    ensures var s := Run(size, steps);
            s.pos < TWO64 && forall r | r in s.requests :: 0 < r.want && r.offset + r.want <= size
  {
  }

  /** A seek that runs while a read waits for its chunk is not refused, and the read then moves on from the seek's
      target. So a granted seek is where the cursor is, once the reply in flight came in, exactly when no read was in
      flight or its reply holds no byte. */
  lemma SeekInsideRead(s: State, size: uint64, delta: int, origin: nat, reply: Reply)
    requires Sane(s, size) && SeekStatus(s, size, delta, origin) == S_OK
    ensures Sane(Next(s, size, SeekTo(delta, origin)), size)
    ensures Next(Next(s, size, SeekTo(delta, origin)), size, End(reply)).pos == Target(s, size, delta, origin).value <==>
            s.inFlight == None || reply.Refused? || reply.data == []
  {
    NextSane(s, size, SeekTo(delta, origin));
    if s.inFlight.Some? && reply.Chunk? && reply.data != [] {
      assert |Clipped(s.inFlight.value.want, reply)| > 0;
    }
  }

  /** Such a run: a read of one byte, a seek to 5 inside it, the byte arrives, and the cursor is at 6. */
  lemma SeekLost(size: uint64, b: byte)
    requires size > 0
    ensures Run(size, [Begin(1), SeekTo(5, 0), End(Chunk([b]))]).pos == 6
  {
    var begin, seek, end := Begin(1), SeekTo(5, 0), End(Chunk([b]));
    assert [begin][..0] == [] && [begin, seek][..1] == [begin] && [begin, seek, end][..2] == [begin, seek];
    assert Run(size, []) == Opened(0);
    var r := Request(0, 1);
    assert Run(size, [begin]) == State(0, Some(r), [r]);
    assert Run(size, [begin, seek]) == State(5, Some(r), [r]);
    assert [b][..1] == [b];
  }

  // ------------------------------------------ streams, seeks, reads, clones

  /** A call on one of the streams a consumer holds; a clone becomes the last of them. */
  datatype Call =
    | SeekCall(i: nat, delta: int, origin: nat)
    | ReadCall(i: nat, cb: uint32)
    | CloneCall(i: nat)

  /** What a read returned, and where the cursor stood before. */
  datatype Answer = Answer(pos: nat, cb: nat, status: Status, out: seq<byte>)

  datatype Session = Session(streams: seq<State>, answers: seq<Answer>)

  ghost predicate Steady(streams: seq<State>, size: uint64) {
    forall s | s in streams :: Sane(s, size) && s.inFlight == None
  }

  /** providers(i) is what the provider answers to the requests of the i-th stream. */
  function AfterCall(n: Session, size: uint64, providers: nat -> Provider, call: Call): Session
    requires Steady(n.streams, size)
  {
    if call.i >= |n.streams| then n else
    var s := n.streams[call.i];
    match call
    case SeekCall(i, d, o) => n.(streams := n.streams[i := AfterSeek(s, size, d, o)])
    case CloneCall(_) => n.(streams := n.streams + [Opened(s.pos)])
    case ReadCall(i, cb) =>
      var r := AfterRead(s, size, providers(i), cb);
      Session(n.streams[i := r.state], n.answers + [Answer(s.pos, cb, r.status, r.out)])
  }

  ghost function Calls(size: uint64, providers: nat -> Provider, calls: seq<Call>): (n: Session)
    ensures Steady(n.streams, size)
    decreases |calls|
  {
    if calls == [] then Session([Opened(0)], []) else
    var n := Calls(size, providers, calls[..|calls| - 1]);
    CallSteady(n, size, providers, calls[|calls| - 1]);
    AfterCall(n, size, providers, calls[|calls| - 1])
  }

  lemma ReadSteady(s: State, size: uint64, provider: Provider, cb: uint32)
    requires Sane(s, size) && s.inFlight == None
    ensures Sane(AfterRead(s, size, provider, cb).state, size) && AfterRead(s, size, provider, cb).state.inFlight == None
  {
    AfterReadSane(s, size, provider, cb);
  }

  lemma CallSteady(n: Session, size: uint64, providers: nat -> Provider, call: Call)
    requires Steady(n.streams, size)
    ensures Steady(AfterCall(n, size, providers, call).streams, size)
  {
    if call.i < |n.streams| {
      hide Sane, AfterRead;
      var s := n.streams[call.i];
      match call {
        case SeekCall(_, d, o) => SeekSteady(s, size, d, o);
        case CloneCall(_) => OpenedSane(s.pos, size);
        case ReadCall(_, cb) => ReadSteady(s, size, providers(call.i), cb);
      }
    }
  }

  lemma SeekSteady(s: State, size: uint64, delta: int, origin: nat)
    requires Sane(s, size) && s.inFlight == None
    ensures Sane(AfterSeek(s, size, delta, origin), size) && AfterSeek(s, size, delta, origin).inFlight == None
  {
  }

  lemma OpenedSane(pos: uint64, size: uint64)
    ensures Sane(Opened(pos), size)
  {
  }

  /** The bytes of the file at the cursor, not more than asked for, at least one unless none is left or asked for, and
      S_FALSE exactly at or past the end. */
  ghost predicate Cursorly(file: seq<byte>, a: Answer) {
    && !a.status.Failed() && |a.out| <= a.cb
    && (a.out == [] <==> a.cb == 0 || a.pos >= |file|)
    && (a.out != [] ==> a.pos + |a.out| <= |file| && a.out == file[a.pos..a.pos + |a.out|])
    && (a.status == S_FALSE <==> a.cb != 0 && a.pos + |a.out| >= |file|)
  }

  /** Over any sequence of seeks, reads and clones, on any of the streams that come about, every read behaves like a read
      of the file at the mathematical cursor. */
  lemma {:induction false} CallsFollowFile(providers: nat -> Provider, file: seq<byte>, calls: seq<Call>)
    requires |file| < TWO64 && forall i :: Honest(providers(i), file)
    ensures forall a | a in Calls(|file|, providers, calls).answers :: Cursorly(file, a)
    decreases |calls|
  {
    if calls != [] {
      hide Honest, AfterRead, Sane, Cursorly;
      var init, call := calls[..|calls| - 1], calls[|calls| - 1];
      CallsFollowFile(providers, file, init);
      var n := Calls(|file|, providers, init);
      if call.ReadCall? && call.i < |n.streams| {
        ReadCursorly(n.streams[call.i], providers(call.i), file, call.cb);
      }
    }
  }

  lemma ReadCursorly(s: State, provider: Provider, file: seq<byte>, cb: uint32)
    requires |file| < TWO64 && Honest(provider, file) && Sane(s, |file|) && s.inFlight == None
    ensures var r := AfterRead(s, |file|, provider, cb); Cursorly(file, Answer(s.pos, cb, r.status, r.out))
  {
    hide Honest, AfterRead, Sane;
    HonestRead(s, provider, file, cb);
  }

  /** A call moves no stream but its own, and that one as the exact cursor moves. */
  lemma CallMoves(n: Session, providers: nat -> Provider, file: seq<byte>, call: Call)
    requires |file| < TWO64 && (forall i :: Honest(providers(i), file)) && Steady(n.streams, |file|) && call.i < |n.streams|
    ensures var m := AfterCall(n, |file|, providers, call);
            |n.streams| <= |m.streams| &&
            (forall k | 0 <= k < |n.streams| && k != call.i :: m.streams[k] == n.streams[k]) &&
            match call
            case SeekCall(i, d, o) =>
              m.streams[i].pos == (var t := Target(n.streams[i], |file|, d, o);
                                   if t.Some? && 0 <= t.value < TWO63 then t.value else n.streams[i].pos)
            case ReadCall(i, _) => m.streams[i].pos == n.streams[i].pos + |m.answers[|n.answers|].out|
            case CloneCall(i) => m.streams[i] == n.streams[i] && m.streams[|n.streams|].pos == n.streams[i].pos
  {
    if call.ReadCall? {
      hide Honest;
      HonestRead(n.streams[call.i], providers(call.i), file, call.cb);
    }
  }

  /** Where honesty comes from: in a run of the chunk provider whose ids are unambiguous and whose deliveries, errors
      apart, are true pieces of the files they name, every fetch that succeeds is an honest answer to the request it was
      staged for. */
  lemma FetchesAreHonest(all: iset<ChunkProvider.Ids>, files: ChunkProvider.Ids -> seq<byte>,
                         steps: seq<ChunkProvider.Step>, id: nat, want: nat)
    returns (transferId: seq<byte>, fileId: seq<byte>, offset: nat)
    requires ChunkProvider.Unambiguous(all) && ChunkProvider.Over(all, steps)
    requires ChunkProvider.Fetched(ChunkProvider.Run(steps), id) && want > 0
    requires ChunkProvider.TruePieces(files, steps)
    ensures ChunkProvider.Staged(id, transferId, fileId, offset) in ChunkProvider.Run(steps).log
    ensures offset + want <= |files((transferId, fileId))| ==>
              HonestReply(Chunk(ChunkProvider.ResultOf(ChunkProvider.Run(steps).slots[id], false).data),
                          files((transferId, fileId)), offset, want)
  {
    transferId, fileId, offset := ChunkProvider.TrueDeliveries(all, files, steps, id);
  }
}
