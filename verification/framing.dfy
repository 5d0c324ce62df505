/** Length-prefixed frames over a byte stream: the incremental reader of the macOS helper and the
    blocking reader and writer of the Linux helper. */
module Framing {
  import opened Bytes

  const MAC_MAX_FRAME: nat := 64 * 1024 * 1024
  const LINUX_MAX_FRAME: nat := 16 * 1024 * 1024

  type Frame = seq<byte>

  function EncodeFrame(body: Frame): seq<byte>
    requires |body| < TWO32
  {
    LE32(|body|) + body
  }

  function EncodeFrames(bodies: seq<Frame>): seq<byte>
    requires forall b | b in bodies :: |b| < TWO32
  {
    if bodies == [] then [] else EncodeFrame(bodies[0]) + EncodeFrames(bodies[1..])
  }

  /** What a whole byte stream means: the frames in it, the bytes of an unfinished frame, and
      whether it stops at a header above the cap. */
  datatype Parsed = Parsed(frames: seq<Frame>, rest: seq<byte>, oversized: bool)

  function Parse(s: seq<byte>, cap: nat): Parsed
    decreases |s|
  {
    if |s| < 4 then Parsed([], s, false) else
    var len := ReadLE32(s[..4]);
    if len > cap then Parsed([], s, true)
    else if |s| < 4 + len then Parsed([], s, false)
    else
      var p := Parse(s[4 + len..], cap);
      Parsed([s[4..4 + len]] + p.frames, p.rest, p.oversized)
  }

  /** What parsing `s` becomes when `t` follows it. */
  function Continue(p: Parsed, t: seq<byte>, cap: nat): Parsed {
    if p.oversized then Parsed(p.frames, p.rest + t, true)
    else var q := Parse(p.rest + t, cap); Parsed(p.frames + q.frames, q.rest, q.oversized)
  }

  lemma ContinuePrefix(body: Frame, p: Parsed, t: seq<byte>, cap: nat)
    ensures var c := Continue(p, t, cap);
            Continue(Parsed([body] + p.frames, p.rest, p.oversized), t, cap) ==
            Parsed([body] + c.frames, c.rest, c.oversized)
  {
    var q := Parse(p.rest + t, cap);
    assert [body] + p.frames + q.frames == [body] + (p.frames + q.frames);
  }

  /** More input does not change the frames already found. */
  lemma {:induction false} ParseConcat(s: seq<byte>, t: seq<byte>, cap: nat)
    ensures Parse(s + t, cap) == Continue(Parse(s, cap), t, cap)
    decreases |s|
  {
    if |s| >= 4 {
      assert (s + t)[..4] == s[..4];
    }
    if |s| < 4 || ReadLE32(s[..4]) > cap || |s| < 4 + ReadLE32(s[..4]) {
      var q := Parse(s + t, cap);
      assert [] + q.frames == q.frames;
    } else {
      var n := 4 + ReadLE32(s[..4]);
      assert (s + t)[n..] == s[n..] + t;
      assert (s + t)[4..n] == s[4..n];
      ParseConcat(s[n..], t, cap);
      ContinuePrefix(s[4..n], Parse(s[n..], cap), t, cap);
    }
  }

  /** The leftover is never a complete frame: too few bytes, or a header above the cap, which is what stops the parse. */
  lemma {:induction false} ParseRest(s: seq<byte>, cap: nat)
    ensures Parse(Parse(s, cap).rest, cap) == Parsed([], Parse(s, cap).rest, Parse(s, cap).oversized)
    ensures var p := Parse(s, cap);
            if p.oversized then |p.rest| >= 4 && ReadLE32(p.rest[..4]) > cap
            else |p.rest| < 4 || (ReadLE32(p.rest[..4]) <= cap && |p.rest| < 4 + ReadLE32(p.rest[..4]))
    decreases |s|
  {
    if |s| >= 4 {
      var len := ReadLE32(s[..4]);
      if len <= cap && |s| >= 4 + len {
        ParseRest(s[4 + len..], cap);
      }
    }
  }

  /** Reading one frame off the stream is taking one step of the whole-stream parse. */
  lemma FrameParsed(body: Frame, left: seq<byte>, cap: nat)
    requires |body| <= cap < TWO32
    ensures var p := Parse(left, cap);
            Parse(EncodeFrame(body) + left, cap) == Parsed([body] + p.frames, p.rest, p.oversized)
  {
    var s := EncodeFrame(body) + left;
    var n := 4 + |body|;
    LE32Inverse(|body|);
    assert s[..4] == LE32(|body|) && s[4..n] == body && s[n..] == left;
  }

  /** Parsing the concatenation of encoded frames gives back those frames and nothing else. */
  lemma {:induction false} FramesRoundTrip(bodies: seq<Frame>, cap: nat)
    requires cap < TWO32 && forall b | b in bodies :: |b| <= cap
    ensures Parse(EncodeFrames(bodies), cap) == Parsed(bodies, [], false)
    decreases |bodies|
  {
    if bodies != [] {
      hide Parse, EncodeFrame;
      FramesRoundTrip(bodies[1..], cap);
      FrameParsed(bodies[0], EncodeFrames(bodies[1..]), cap);
      assert [bodies[0]] + bodies[1..] == bodies;
    }
  }

  /** The frames handed out so far in front of what the buffer still holds. */
  function After(out: seq<Frame>, p: Parsed): Parsed {
    Parsed(out + p.frames, p.rest, p.oversized)
  }

  lemma TakeFrame(out: seq<Frame>, s: seq<byte>, n: nat, cap: nat)
    requires |s| >= 4 && n == 4 + ReadLE32(s[..4]) <= |s| && n - 4 <= cap
    ensures After(out, Parse(s, cap)) == After(out + [s[4..n]], Parse(s[n..], cap))
  {
    var q := Parse(s[n..], cap);
    assert out + ([s[4..n]] + q.frames) == out + [s[4..n]] + q.frames;
  }

  // ---------------------------------------------- the macOS reader

  function Joined(fragments: seq<seq<byte>>): seq<byte> {
    if fragments == [] then [] else Joined(fragments[..|fragments| - 1]) + fragments[|fragments| - 1]
  }

  datatype ReaderState = ReaderState(readBuffer: seq<byte>, delivered: seq<Frame>, cancelled: bool)

  /** One read event: `n` bytes appended and every complete frame handed out; nothing once the source is cancelled. */
  function ReadEvent(s: ReaderState, fragment: seq<byte>): ReaderState {
    if s.cancelled then s
    else if fragment == [] then s.(cancelled := true)
    else
      var p := Parse(s.readBuffer + fragment, MAC_MAX_FRAME);
      ReaderState(p.rest, s.delivered + p.frames, p.oversized)
  }

  function ReadEvents(fragments: seq<seq<byte>>): ReaderState {
    if fragments == [] then ReaderState([], [], false)
    else ReadEvent(ReadEvents(fragments[..|fragments| - 1]), fragments[|fragments| - 1])
  }

  class SocketReader {
    var readBuffer: seq<byte>
    var delivered: seq<Frame>  // bodies handed to onMessage
    var cancelled: bool        // readSource.cancel() was called

    function Now(): ReaderState
      reads this
    {
      ReaderState(readBuffer, delivered, cancelled)
    }

    constructor ()
      ensures Now() == ReadEvents([])
    {
      readBuffer, delivered, cancelled := [], [], false;
    }

    /** The read-source handler; an empty read is end of file or an error. A cancelled source is not called again. */
    method HandleReadEvent(fragment: seq<byte>)
      modifies this
      ensures Now() == ReadEvent(old(Now()), fragment)
    {
      if cancelled { return; }
      if |fragment| == 0 {
        cancelled := true;
        return;
      }
      readBuffer := readBuffer + fragment;
      ProcessFrames();
    }

    method ProcessFrames()
      requires !cancelled
      modifies this
      ensures var p := Parse(old(readBuffer), MAC_MAX_FRAME);
              Now() == ReaderState(p.rest, old(delivered) + p.frames, p.oversized)
    {
      ghost var out: seq<Frame> := [];
      assert Parse(readBuffer, MAC_MAX_FRAME) == After([], Parse(readBuffer, MAC_MAX_FRAME));
      while |readBuffer| >= 4
        invariant !cancelled && delivered == old(delivered) + out
        invariant Parse(old(readBuffer), MAC_MAX_FRAME) == After(out, Parse(readBuffer, MAC_MAX_FRAME))
        decreases |readBuffer|
      {
        var length := ReadLE32(readBuffer[..4]);
        if length > MAC_MAX_FRAME {
          cancelled := true;
          return;
        }
        var totalNeeded := 4 + length;
        if |readBuffer| < totalNeeded { return; }
        var messageData := readBuffer[4..totalNeeded];
        TakeFrame(out, readBuffer, totalNeeded, MAC_MAX_FRAME);
        readBuffer := readBuffer[totalNeeded..];
        delivered := delivered + [messageData];
        out := out + [messageData];
      }
    }
  }

  /** The reader's state after any reads is the whole-stream parse; an oversized header freezes its leftover early. */
  lemma {:induction false} ReadsAreParse(fragments: seq<seq<byte>>)
    requires [] !in fragments
    ensures var s, p := ReadEvents(fragments), Parse(Joined(fragments), 0x400_0000);
            s.delivered == p.frames && s.cancelled == p.oversized &&
            (if p.oversized then s.readBuffer <= p.rest else s.readBuffer == p.rest)
    decreases |fragments|
  {
    if fragments != [] {
      var init, last := fragments[..|fragments| - 1], fragments[|fragments| - 1];
      ReadsAreParse(init);
      ParseConcat(Joined(init), last, MAC_MAX_FRAME);
    }
  }

  /** End of file: from an empty read on, whatever follows, nothing more is handed out. */
  lemma {:induction false} EndOfFileStops(fragments: seq<seq<byte>>, more: seq<seq<byte>>)
    ensures ReadEvents(fragments + [[]] + more) == ReadEvents(fragments).(cancelled := true)
    decreases |more|
  {
    var all := fragments + [[]] + more;
    if more == [] {
      assert all == fragments + [[]] && (fragments + [[]])[..|fragments|] == fragments;
    } else {
      var n := |more| - 1;
      assert all[..|all| - 1] == fragments + [[]] + more[..n];
      EndOfFileStops(fragments, more[..n]);
    }
  }

  /** Fragmentation independence: two ways of cutting one stream hand out the same frames and keep the same leftover. */
  lemma FragmentationIndependent(a: seq<seq<byte>>, b: seq<seq<byte>>)
    requires [] !in a && [] !in b && Joined(a) == Joined(b)
    ensures ReadEvents(a).delivered == ReadEvents(b).delivered
    ensures ReadEvents(a).cancelled == ReadEvents(b).cancelled
    ensures !ReadEvents(a).cancelled ==> ReadEvents(a).readBuffer == ReadEvents(b).readBuffer
  {
    ReadsAreParse(a);
    ReadsAreParse(b);
  }

  // ------------------------------------------------------------ the system

  /** What the system answers to the next read or send call. */
  datatype Outcome = Transfer(upTo: nat) | Interrupted | Failed

  /** A connected socket: the bytes the peer sent, the bytes sent to the peer, and the system's coming answers.
      When the answers run out the peer has closed. */
  class Socket {
    var incoming: seq<byte>
    var outgoing: seq<byte>
    var answers: seq<Outcome>
    ghost var broken: bool   // a call has reported end of file or an error
    ghost var refusals: nat  // sends that took nothing, interrupted ones included

    constructor (incoming: seq<byte>, answers: seq<Outcome>)
      ensures this.incoming == incoming && this.outgoing == [] && this.answers == answers && !broken && refusals == 0
    {
      this.incoming, this.outgoing, this.answers, broken, refusals := incoming, [], answers, false, 0;
    }

    /** read(2): n > 0 bytes, 0 at end of file, -1 interrupted, -2 failed. */
    method Read(len: nat) returns (n: int, bytes: seq<byte>)
      requires len > 0
      modifies this
      ensures outgoing == old(outgoing) && |bytes| <= len && -2 <= n
      ensures n > 0 ==> n == |bytes| && old(incoming) == bytes + incoming
      ensures n <= 0 ==> incoming == old(incoming)
      ensures n != 0 ==> |answers| < |old(answers)|
      ensures |answers| <= |old(answers)|
      ensures broken == (old(broken) || n == 0 || n == -2)
    {
      bytes := [];
      if |answers| == 0 || |incoming| == 0 {
        broken := true;
        return 0, [];
      }
      var a := answers[0];
      answers := answers[1..];
      match a {
        case Interrupted => n := -1;
        case Failed =>
          n := -2;
          broken := true;
        case Transfer(k) =>
          n := Min(Min(len, |incoming|), if k == 0 then 1 else k);
          bytes := incoming[..n];
          incoming := incoming[n..];
      }
    }

    /** send(2): n > 0 bytes taken, -1 interrupted, otherwise failed. */
    method Send(data: seq<byte>) returns (n: int)
      requires |data| > 0
      modifies this
      ensures incoming == old(incoming) && -2 <= n <= |data|
      ensures outgoing == old(outgoing) + if n > 0 then data[..n] else []
      ensures n == -1 || n > 0 ==> |answers| < |old(answers)|
      ensures |answers| <= |old(answers)|
      ensures broken == (old(broken) || n == 0 || n == -2)
      ensures refusals == old(refusals) + if n > 0 then 0 else 1
    {
      refusals := refusals + 1;
      if |answers| == 0 {
        broken := true;
        return 0;
      }
      var a := answers[0];
      answers := answers[1..];
      match a {
        case Interrupted => n := -1;
        case Failed =>
          n := -2;
          broken := true;
        case Transfer(k) =>
          n := Min(|data|, if k == 0 then 1 else k);
          refusals := refusals - 1;
          outgoing := outgoing + data[..n];
      }
    }
  }

  // ---------------------------------------------- the macOS writer

  /** The loop gives up without a word on the first write that takes nothing, an interrupted one included, and on nothing
      else; `written` is how far it came. */
  method WriteAll(fd: Socket, data: seq<byte>) returns (written: nat)
    modifies fd
    ensures fd.incoming == old(fd.incoming)
    ensures written <= |data| && fd.outgoing == old(fd.outgoing) + data[..written]
    ensures fd.refusals == old(fd.refusals) + if written < |data| then 1 else 0
  {
    written := 0;
    while written < |data|
      invariant written <= |data| && fd.refusals == old(fd.refusals)
      invariant fd.incoming == old(fd.incoming)
      invariant fd.outgoing == old(fd.outgoing) + data[..written]
    {
      ghost var before := fd.outgoing;
      var n := fd.Send(data[written..]);
      if n <= 0 {
        assert fd.outgoing == before;
        return;
      }
      assert data[..written] + data[written..][..n] == data[..written + n];
      written := written + n;
    }
  }

  /** One message handed to send: how much of its header and of its body went out. */
  datatype Sent = Sent(body: Frame, header: nat, upTo: nat)

  predicate Fits(m: Sent, cap: nat) {
    |m.body| <= cap && m.header <= 4 && m.upTo <= |m.body|
  }

  predicate WentOut(m: Sent) {
    m.header == 4 && m.upTo == |m.body|
  }

  function OnWire(m: Sent): seq<byte>
    requires |m.body| < TWO32 && m.header <= 4 && m.upTo <= |m.body|
  {
    LE32(|m.body|)[..m.header] + m.body[..m.upTo]
  }

  /** send: the body follows even a header that broke off. */
  method SendMessage(fd: Socket, body: Frame) returns (m: Sent)
    requires |body| < TWO32
    modifies fd
    ensures fd.incoming == old(fd.incoming)
    ensures m.body == body && m.header <= 4 && m.upTo <= |body|
    ensures fd.outgoing == old(fd.outgoing) + OnWire(m)
    ensures fd.refusals == old(fd.refusals) + (if m.header < 4 then 1 else 0) + (if m.upTo < |body| then 1 else 0)
  {
    ghost var before := fd.outgoing;
    var header := WriteAll(fd, LE32(|body|));
    var upTo := WriteAll(fd, body);
    m := Sent(body, header, upTo);
    assert before + LE32(|body|)[..header] + body[..upTo] == before + OnWire(m);
  }

  ghost predicate AllFit(sends: seq<Sent>, cap: nat) {
    forall m | m in sends :: Fits(m, cap)
  }

  ghost predicate AllOut(sends: seq<Sent>) {
    forall m | m in sends :: WentOut(m)
  }

  ghost function Wire(sends: seq<Sent>, cap: nat): seq<byte>
    requires AllFit(sends, cap) && cap < TWO32
  {
    if sends == [] then [] else
    assert sends[0] in sends;
    OnWire(sends[0]) + Wire(sends[1..], cap)
  }

  function Bodies(sends: seq<Sent>): seq<Frame> {
    seq(|sends|, i requires 0 <= i < |sends| => sends[i].body)
  }

  lemma FrameWhole(s: seq<byte>, n: nat)
    requires |s| >= 4 && n == 4 + ReadLE32(s[..4]) <= |s|
    ensures n - 4 < TWO32 && EncodeFrame(s[4..n]) == s[..n]
  {
    ReadLE32Inverse(s[..4]);
    assert s[..4] + s[4..n] == s[..n];
  }

  lemma EncodeMore(body: Frame, bodies: seq<Frame>)
    requires |body| < TWO32 && forall b | b in bodies :: |b| < TWO32
    ensures (forall b | b in [body] + bodies :: |b| < TWO32) &&
            EncodeFrames([body] + bodies) == EncodeFrame(body) + EncodeFrames(bodies)
  {
    assert ([body] + bodies)[1..] == bodies;
  }

  lemma WholeStep(s: seq<byte>, n: nat, frames: seq<Frame>, rest: seq<byte>, cap: nat)
    requires |s| >= 4 && n == 4 + ReadLE32(s[..4]) <= |s| && n - 4 <= cap < TWO32
    requires (forall b | b in frames :: |b| <= cap) && EncodeFrames(frames) + rest == s[n..]
    ensures var all := [s[4..n]] + frames;
            (forall b | b in all :: |b| <= cap) && EncodeFrames(all) + rest == s
  {
    hide EncodeFrame, EncodeFrames, ReadLE32;
    FrameWhole(s, n);
    EncodeMore(s[4..n], frames);
    assert s[..n] + (EncodeFrames(frames) + rest) == s[..n] + EncodeFrames(frames) + rest;
    assert s[..n] + s[n..] == s;
  }

  /** Parsing loses no byte. */
  lemma {:induction false} ParseWhole(s: seq<byte>, cap: nat)
    requires cap < TWO32
    ensures var p := Parse(s, cap);
            (forall b | b in p.frames :: |b| <= cap) && EncodeFrames(p.frames) + p.rest == s
    decreases |s|
  {
    hide EncodeFrame, ReadLE32;
    if |s| >= 4 && ReadLE32(s[..4]) <= cap && |s| >= 4 + ReadLE32(s[..4]) {
      hide EncodeFrames;
      var n := 4 + ReadLE32(s[..4]);
      ParseWhole(s[n..], cap);
      WholeStep(s, n, Parse(s[n..], cap).frames, Parse(s[n..], cap).rest, cap);
    } else {
      assert Parse(s, cap).frames == [] && [] + s == s;
    }
  }

  lemma BodiesFit(sends: seq<Sent>, cap: nat)
    requires AllFit(sends, cap)
    ensures forall b | b in Bodies(sends) :: |b| <= cap
  {
    forall b | b in Bodies(sends) ensures |b| <= cap {
      var i :| 0 <= i < |sends| && Bodies(sends)[i] == b;
      assert sends[i] in sends;
    }
  }

  lemma TailFits(sends: seq<Sent>, cap: nat)
    requires AllFit(sends, cap) && cap < TWO32 && sends != []
    ensures AllFit(sends[1..], cap) && Fits(sends[0], cap) && Bodies(sends)[1..] == Bodies(sends[1..])
    ensures AllOut(sends) <==> WentOut(sends[0]) && AllOut(sends[1..])
    ensures forall b | b in Bodies(sends) :: |b| <= cap
    ensures Wire(sends, cap) == OnWire(sends[0]) + Wire(sends[1..], cap)
    ensures EncodeFrames(Bodies(sends)) == EncodeFrame(sends[0].body) + EncodeFrames(Bodies(sends[1..]))
  {
    BodiesFit(sends, cap);
    assert sends == [sends[0]] + sends[1..];
  }

  /** The wire is as long as the encoded frames exactly when everything went out. */
  lemma {:induction false} WireLength(sends: seq<Sent>, cap: nat)
    requires AllFit(sends, cap) && cap < TWO32
    ensures forall b | b in Bodies(sends) :: |b| < TWO32
    ensures |Wire(sends, cap)| <= |EncodeFrames(Bodies(sends))|
    ensures |Wire(sends, cap)| == |EncodeFrames(Bodies(sends))| <==> AllOut(sends)
    decreases |sends|
  {
    if sends != [] {
      hide Wire, EncodeFrames, AllOut, AllFit;
      TailFits(sends, cap);
      WireLength(sends[1..], cap);
      assert |LE32(|sends[0].body|)| == 4;
    } else {
      assert Bodies(sends) == [];
    }
  }

  lemma {:induction false} WireOfWhole(sends: seq<Sent>, cap: nat)
    requires AllFit(sends, cap) && cap < TWO32 && AllOut(sends)
    ensures forall b | b in Bodies(sends) :: |b| < TWO32
    ensures Wire(sends, cap) == EncodeFrames(Bodies(sends))
    decreases |sends|
  {
    if sends != [] {
      hide Wire, EncodeFrames, AllOut, AllFit;
      TailFits(sends, cap);
      WireOfWhole(sends[1..], cap);
      var m := sends[0];
      assert LE32(|m.body|)[..4] == LE32(|m.body|) && m.body[..|m.body|] == m.body;
    } else {
      assert Bodies(sends) == [];
    }
  }

  lemma {:induction false} WireConcat(a: seq<Sent>, b: seq<Sent>, cap: nat)
    requires AllFit(a, cap) && AllFit(b, cap) && cap < TWO32
    ensures AllFit(a + b, cap) && Wire(a + b, cap) == Wire(a, cap) + Wire(b, cap)
    decreases |a|
  {
    if a == [] {
      assert a + b == b;
    } else {
      hide OnWire;
      assert a == [a[0]] + a[1..] && (a + b)[1..] == a[1..] + b;
      WireConcat(a[1..], b, cap);
    }
  }

  lemma PrefixArrives(sends: seq<Sent>, k: nat, cap: nat)
    requires AllFit(sends, cap) && cap < TWO32 && k <= |sends| && AllOut(sends[..k])
    ensures Bodies(sends[..k]) <= Parse(Wire(sends, cap), cap).frames
  {
    hide Parse, Wire, EncodeFrames, OnWire, AllOut;
    assert sends == sends[..k] + sends[k..];
    WireConcat(sends[..k], sends[k..], cap);
    BodiesFit(sends[..k], cap);
    WireOfWhole(sends[..k], cap);
    FramesRoundTrip(Bodies(sends[..k]), cap);
    ParseConcat(Wire(sends[..k], cap), Wire(sends[k..], cap), cap);
  }

  lemma WireParses(sends: seq<Sent>, cap: nat)
    requires AllFit(sends, cap) && cap < TWO32
    ensures Parse(Wire(sends, cap), cap) == Parsed(Bodies(sends), [], false) <==> AllOut(sends)
  {
    hide Parse, Wire, EncodeFrames, OnWire, AllOut;
    var wire := Wire(sends, cap);
    WireLength(sends, cap);
    ParseWhole(wire, cap);
    assert |EncodeFrames(Parse(wire, cap).frames)| + |Parse(wire, cap).rest| == |wire|;
    if AllOut(sends) {
      BodiesFit(sends, cap);
      WireOfWhole(sends, cap);
      FramesRoundTrip(Bodies(sends), cap);
    }
  }

  /** What send puts on the wire, cut anywhere, arrives as exactly the messages handed to it if and only if all their
      writes went out whole; those before the first that broke off arrive in any case. */
  lemma FramesArrive(sends: seq<Sent>, fragments: seq<seq<byte>>)
    requires AllFit(sends, 0x400_0000)
    requires [] !in fragments && Joined(fragments) == Wire(sends, 0x400_0000)
    ensures ReadEvents(fragments) == ReaderState([], Bodies(sends), false) <==> AllOut(sends)
    ensures forall k | 0 <= k <= |sends| && AllOut(sends[..k]) :: Bodies(sends[..k]) <= ReadEvents(fragments).delivered
  {
    hide Parse, Wire, EncodeFrames, OnWire, ReadEvents, AllOut, Bodies, AllFit;
    ReadsAreParse(fragments);
    WireParses(sends, MAC_MAX_FRAME);
    forall k | 0 <= k <= |sends| && AllOut(sends[..k]) ensures Bodies(sends[..k]) <= ReadEvents(fragments).delivered {
      PrefixArrives(sends, k, MAC_MAX_FRAME);
    }
  }

  // ---------------------------------------------- the Linux reader and writer

  /** Short reads and interruptions leave no trace: success is exactly the next `len` bytes. */
  method ReadExact(fd: Socket, len: nat) returns (ok: bool, buf: seq<byte>)
    modifies fd
    ensures fd.outgoing == old(fd.outgoing)
    ensures old(fd.incoming) == buf + fd.incoming
    ensures |buf| <= len && ok == (|buf| == len)
    ensures ok || fd.broken
  {
    buf := [];
    while |buf| < len
      invariant fd.outgoing == old(fd.outgoing)
      invariant old(fd.incoming) == buf + fd.incoming && |buf| <= len
      decreases |fd.answers|
    {
      var n, bytes := fd.Read(len - |buf|);
      if n > 0 {
        buf := buf + bytes;
        continue;
      }
      if n == 0 { return false, buf; }
      if n == -1 { continue; }
      return false, buf;
    }
    ok := true;
  }

  /** Success puts exactly `data` on the wire, failure a proper prefix of it. */
  method WriteExact(fd: Socket, data: seq<byte>) returns (ok: bool)
    modifies fd
    ensures fd.incoming == old(fd.incoming)
    ensures ok ==> fd.outgoing == old(fd.outgoing) + data
    ensures !ok ==> fd.broken && exists n | 0 <= n < |data| :: fd.outgoing == old(fd.outgoing) + data[..n]
  {
    var sent := 0;
    while sent < |data|
      invariant 0 <= sent <= |data|
      invariant fd.incoming == old(fd.incoming)
      invariant fd.outgoing == old(fd.outgoing) + data[..sent]
      decreases |fd.answers|
    {
      ghost var before := fd.outgoing;
      var n := fd.Send(data[sent..]);
      if n > 0 {
        assert data[..sent] + data[sent..][..n] == data[..sent + n];
        sent := sent + n;
        continue;
      }
      assert fd.outgoing == before;
      if n == -1 { continue; }
      return false;
    }
    assert data[..|data|] == data;
    return true;
  }

  predicate OversizedHeader(s: seq<byte>) {
    |s| >= 4 && ReadLE32(s[..4]) > 0x100_0000
  }

  /** canAllocate says whether the buffer for the body can be had. */
  method ReadFrame(fd: Socket, canAllocate: bool) returns (ok: bool, out: Frame)
    modifies fd
    ensures fd.outgoing == old(fd.outgoing)
    ensures ok ==> |out| <= 0x100_0000 && old(fd.incoming) == EncodeFrame(out) + fd.incoming
    ensures !ok ==> fd.broken || OversizedHeader(old(fd.incoming)) || !canAllocate
    ensures !ok && fd.incoming == [] ==> Parse(old(fd.incoming), 0x100_0000).frames == []
  {
    out := [];
    var header;
    ok, header := ReadExact(fd, 4);
    if !ok { return; }
    ghost var afterHeader := fd.incoming;
    ReadLE32Inverse(header);
    var len := ReadLE32(header);
    assert old(fd.incoming)[..4] == header;
    if len > LINUX_MAX_FRAME { return false, []; }
    if len > 0 && !canAllocate { return false, []; }
    if len == 0 {
      assert header + [] == header;
      return true, [];
    }
    ok, out := ReadExact(fd, len);
    if ok {
      assert header + (out + fd.incoming) == header + out + fd.incoming;
    }
  }

  method WriteFrame(fd: Socket, data: Frame) returns (ok: bool)
    modifies fd
    ensures fd.incoming == old(fd.incoming)
    ensures ok ==> |data| <= 0x100_0000 && fd.outgoing == old(fd.outgoing) + EncodeFrame(data)
    ensures |data| > 0x100_0000 ==> !ok && fd.outgoing == old(fd.outgoing)
    ensures !ok && |data| <= 0x100_0000 ==>
              exists n | 0 <= n < |EncodeFrame(data)| :: fd.outgoing == old(fd.outgoing) + EncodeFrame(data)[..n]
    ensures ok || fd.broken || |data| > 0x100_0000
  {
    if |data| > LINUX_MAX_FRAME { return false; }
    ghost var before, header := fd.outgoing, LE32(|data|);
    ok := WriteExact(fd, LE32(|data|));
    if !ok {
      ghost var n :| 0 <= n < |header| && fd.outgoing == before + header[..n];
      assert EncodeFrame(data)[..n] == header[..n];
      return;
    }
    if |data| == 0 {
      assert LE32(0) + data == LE32(0);
      return true;
    }
    ok := WriteExact(fd, data);
    if ok {
      assert before + header + data == before + EncodeFrame(data);
    } else {
      ghost var n :| 0 <= n < |data| && fd.outgoing == before + header + data[..n];
      assert EncodeFrame(data)[..|header| + n] == header + data[..n];
      assert before + header + data[..n] == before + (header + data[..n]);
    }
  }

  /** Why a session ends. */
  datatype End = Stopped | ReadFailed | ReplyFailed

  /** What a reply puts on the wire; an empty one is none, and one above the cap is not sent. */
  ghost function ReplyBytes(reply: Frame): seq<byte> {
    if reply == [] || |reply| > 0x100_0000 then [] else EncodeFrame(reply)
  }

  ghost function Replied(handler: Frame -> Frame, frames: seq<Frame>): seq<byte> {
    if frames == [] then []
    else Replied(handler, frames[..|frames| - 1]) + ReplyBytes(handler(frames[|frames| - 1]))
  }

  lemma RepliedSnoc(handler: Frame -> Frame, frames: seq<Frame>, body: Frame)
    ensures Replied(handler, frames + [body]) == Replied(handler, frames) + ReplyBytes(handler(body))
  {
    assert (frames + [body])[..|frames|] == frames;
  }

  /** The part of the last reply that went out before its write failed: none of it when it is above the cap. */
  ghost predicate BrokenReply(reply: Frame, part: seq<byte>) {
    if |reply| > 0x100_0000 then part == []
    else exists n :: 0 <= n < |EncodeFrame(reply)| && part == EncodeFrame(reply)[..n]
  }

  method SendReply(fd: Socket, reply: Frame) returns (ok: bool, ghost part: seq<byte>)
    modifies fd
    ensures fd.incoming == old(fd.incoming) && fd.outgoing == old(fd.outgoing) + part
    ensures ok ==> part == ReplyBytes(reply)
    ensures !ok ==> reply != [] && (fd.broken || |reply| > 0x100_0000) && BrokenReply(reply, part)
  {
    ghost var sent := fd.outgoing;
    if |reply| == 0 {
      assert sent + [] == sent;
      return true, [];
    }
    ok := WriteFrame(fd, reply);
    part := ReplyBytes(reply);
    if !ok { part := FailedReply(sent, fd.outgoing, reply); }
  }

  /** With these frames read and this much of the stream left, the whole stream parses into them and what is left. */
  ghost predicate ReadSoFar(whole: Parsed, frames: seq<Frame>, left: seq<byte>) {
    var p := Parse(left, 0x100_0000);
    whole.frames == frames + p.frames && whole.oversized == p.oversized
  }

  /** The wire has grown by the replies to these frames. */
  ghost predicate AllReplied(handler: Frame -> Frame, frames: seq<Frame>, before: seq<byte>, after: seq<byte>) {
    after == before + Replied(handler, frames)
  }

  /** The wire has grown by the replies to all but the last of these frames, and by a part of the reply to that one, whose
      write failed. */
  ghost predicate ReplyBroke(handler: Frame -> Frame, frames: seq<Frame>, before: seq<byte>, after: seq<byte>, broken: bool) {
    frames != [] &&
    var reply := handler(frames[|frames| - 1]);
    (broken || |reply| > 0x100_0000) &&
    exists part ::
      BrokenReply(reply, part) && after == before + Replied(handler, frames[..|frames| - 1]) + part
  }

  ghost predicate NoStop(stops: nat -> bool, n: nat) {
    forall k: nat | k < n :: !stops(k)
  }

  /** A session: until a stop is seen, read a frame and write the reply to it. stops(n) says whether a stop is seen before
      frame n, allocates(n) whether its buffer can be had. The frames are the first ones of the whole-stream parse. */
  method ReadSession(fd: Socket, handler: Frame -> Frame, stops: nat -> bool, allocates: nat -> bool)
    returns (frames: seq<Frame>, end: End)
    modifies fd
    ensures frames <= Parse(old(fd.incoming), 0x100_0000).frames
    ensures fd.incoming == [] ==> frames == Parse(old(fd.incoming), 0x100_0000).frames
    ensures NoStop(stops, |frames|)
    ensures end == Stopped ==> stops(|frames|)
    ensures end == ReadFailed ==>
              fd.broken || !allocates(|frames|) ||
              (frames == Parse(old(fd.incoming), 0x100_0000).frames && Parse(old(fd.incoming), 0x100_0000).oversized)
    ensures end != ReplyFailed ==> AllReplied(handler, frames, old(fd.outgoing), fd.outgoing)
    ensures end == ReplyFailed ==> ReplyBroke(handler, frames, old(fd.outgoing), fd.outgoing, fd.broken)
  {
    frames := [];
    ghost var whole, out := Parse(fd.incoming, 0x100_0000), fd.outgoing;
    NothingRead(fd.incoming, fd.outgoing, handler, stops);
    hide *;
    while !stops(|frames|)
      invariant ReadSoFar(whole, frames, fd.incoming) && NoStop(stops, |frames|)
      invariant AllReplied(handler, frames, out, fd.outgoing)
      decreases |fd.incoming|
    {
      ghost var before, at := frames, fd.outgoing;
      var body, ok, part := ServeFrame(fd, handler, allocates(|frames|), whole, frames);
      if body == None {
        NothingSent(at);
        return frames, ReadFailed;
      }
      OneMoreServed(handler, before, body.value, stops, out, at, part, ok, fd.broken);
      frames := frames + [body.value];
      if !ok { return frames, ReplyFailed; }
    }
    SessionRead(whole, frames, fd.incoming);
    end := Stopped;
  }

  /** One round of the session: the frame read, if any, and whether its reply went out. */
  method ServeFrame(fd: Socket, handler: Frame -> Frame, canAllocate: bool, ghost whole: Parsed, ghost frames: seq<Frame>)
    returns (body: Option<Frame>, ok: bool, ghost part: seq<byte>)
    requires ReadSoFar(whole, frames, fd.incoming)
    modifies fd
    ensures fd.outgoing == old(fd.outgoing) + part
    ensures body == None ==>
              part == [] && frames <= whole.frames && (fd.incoming == [] ==> frames == whole.frames) &&
              (fd.broken || !canAllocate || (frames == whole.frames && whole.oversized))
    ensures body.Some? ==>
              var all, reply := frames + [body.value], handler(body.value);
              && ReadSoFar(whole, all, fd.incoming) && |fd.incoming| < |old(fd.incoming)|
              && all <= whole.frames && (fd.incoming == [] ==> all == whole.frames)
              && (if ok then part == ReplyBytes(reply)
                  else (fd.broken || |reply| > 0x100_0000) && BrokenReply(reply, part))
  {
    hide *;
    ghost var s := fd.incoming;
    var frame;
    ok, frame := ReadFrame(fd, canAllocate);
    if !ok {
      SessionRead(whole, frames, s);
      NothingSent(fd.outgoing);
      return None, false, [];
    }
    OneMoreRead(whole, frames, s, frame, fd.incoming);
    SessionRead(whole, frames + [frame], fd.incoming);
    ok, part := SendReply(fd, handler(frame));
    body := Some(frame);
  }

  lemma NothingSent(outgoing: seq<byte>)
    ensures outgoing + [] == outgoing
  {
  }

  lemma OneMoreServed(handler: Frame -> Frame, frames: seq<Frame>, body: Frame, stops: nat -> bool,
                      out: seq<byte>, at: seq<byte>, part: seq<byte>, ok: bool, broken: bool)
    requires AllReplied(handler, frames, out, at)
    requires var reply := handler(body);
             if ok then part == ReplyBytes(reply) else (broken || |reply| > 0x100_0000) && BrokenReply(reply, part)
    ensures NoStop(stops, |frames|) && !stops(|frames|) ==> NoStop(stops, |frames + [body]|)
    ensures if ok then AllReplied(handler, frames + [body], out, at + part)
            else ReplyBroke(handler, frames + [body], out, at + part, broken)
  {
    RepliedSnoc(handler, frames, body);
    hide Replied, ReplyBytes, BrokenReply;
    assert (frames + [body])[..|frames + [body]| - 1] == frames;
    assert out + Replied(handler, frames) + part == out + (Replied(handler, frames) + part);
  }

  lemma NothingRead(incoming: seq<byte>, outgoing: seq<byte>, handler: Frame -> Frame, stops: nat -> bool)
    ensures ReadSoFar(Parse(incoming, 0x100_0000), [], incoming) && NoStop(stops, 0)
    ensures AllReplied(handler, [], outgoing, outgoing)
  {
  }

  lemma OneMoreRead(whole: Parsed, frames: seq<Frame>, s: seq<byte>, body: Frame, left: seq<byte>)
    requires ReadSoFar(whole, frames, s) && |body| <= 0x100_0000 && s == EncodeFrame(body) + left
    ensures ReadSoFar(whole, frames + [body], left) && |left| < |s|
  {
    FrameParsed(body, left, 0x100_0000);
    assert |EncodeFrame(body)| > 0;
    hide Parse, EncodeFrame;
    FramesAppend(frames, body, Parse(left, 0x100_0000).frames);
  }

  /** What the frames read say of the whole stream when `s` was left. */
  lemma SessionRead(whole: Parsed, frames: seq<Frame>, s: seq<byte>)
    requires ReadSoFar(whole, frames, s)
    ensures frames <= whole.frames
    ensures Parse(s, 0x100_0000).frames == [] ==> frames == whole.frames
    ensures s == [] ==> frames == whole.frames
    ensures OversizedHeader(s) ==> frames == whole.frames && whole.oversized
  {
    NothingToParse();
    if OversizedHeader(s) { OversizedParse(s); }
  }

  lemma FramesAppend(frames: seq<Frame>, body: Frame, rest: seq<Frame>)
    ensures frames + ([body] + rest) == frames + [body] + rest
  {
  }

  lemma FailedReply(sent: seq<byte>, outgoing: seq<byte>, reply: Frame) returns (part: seq<byte>)
    requires if |reply| > 0x100_0000 then outgoing == sent
             else exists n | 0 <= n < |EncodeFrame(reply)| :: outgoing == sent + EncodeFrame(reply)[..n]
    ensures BrokenReply(reply, part) && outgoing == sent + part
  {
    if |reply| > 0x100_0000 {
      part := [];
    } else {
      var n :| 0 <= n < |EncodeFrame(reply)| && outgoing == sent + EncodeFrame(reply)[..n];
      part := EncodeFrame(reply)[..n];
    }
  }

  lemma NothingToParse()
    ensures Parse([], 0x100_0000) == Parsed([], [], false)
  {
  }

  lemma OversizedParse(s: seq<byte>)
    requires OversizedHeader(s)
    ensures Parse(s, 0x100_0000) == Parsed([], s, true)
  {
  }
}
