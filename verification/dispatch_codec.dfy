/** The HelperMessage schema over the wire layer: encoders, decoders, and what a decoder makes of a field sequence. */
module DispatchCodec {
  import opened Bytes
  import opened ProtoWire

  type Text = seq<byte>

  // Message types (helper_proto.h) and field numbers.
  const FILE_CHUNK_REQUEST: int := 15
  const FILE_CHUNK_DATA: int := 16

  const FIELD_TYPE: uint32 := 1
  const FIELD_CLIPBOARD_DATA: uint32 := 2
  const FIELD_ANNOUNCEMENT: uint32 := 3
  const FIELD_PROVIDE_DATA: uint32 := 4
  const FIELD_TIMESTAMP: uint32 := 7
  const FIELD_FILE_CHUNK_REQUEST: uint32 := 8
  const FIELD_FILE_CHUNK_DATA: uint32 := 9

  // ------------------------------------------------- decoding in general

  /** A decoder folds its update over the fields in wire order. */
  function Fold<M>(apply: (M, Field) -> M, m: M, fs: seq<Field>): M {
    if fs == [] then m else apply(Fold(apply, m, fs[..|fs| - 1]), fs[|fs| - 1])
  }

  /** The state left by parsing `s` from the state `m`, or None for a malformed buffer. */
  function Decode<M>(apply: (M, Field) -> M, m: M, s: seq<byte>): Option<M> {
    match ScanFields(s) case None => None case Some(fs) => Some(Fold(apply, m, fs))
  }

  lemma FoldSnoc<M>(apply: (M, Field) -> M, m: M, fs: seq<Field>, f: Field)
    ensures Fold(apply, m, fs + [f]) == apply(Fold(apply, m, fs), f)
  {
    assert (fs + [f])[..|fs|] == fs;
  }

  lemma {:induction false} FoldConcat<M>(apply: (M, Field) -> M, m: M, a: seq<Field>, b: seq<Field>)
    ensures Fold(apply, m, a + b) == Fold(apply, Fold(apply, m, a), b)
    decreases |b|
  {
    if b == [] {
      assert a + b == a;
    } else {
      var init := b[..|b| - 1];
      FoldConcat(apply, m, a, init);
      assert (a + b)[..|a + b| - 1] == a + init;
    }
  }

  /** Parsing two field sequences back to back is parsing the second from the state the first leaves. */
  lemma DecodeConcat<M>(apply: (M, Field) -> M, m: M, a: seq<byte>, b: seq<byte>)
    requires Decode(apply, m, a).Some?
    ensures Decode(apply, m, a + b) == Decode(apply, Decode(apply, m, a).value, b)
  {
    ScanFieldsConcat(a, b);
    if ScanFields(b).Some? {
      FoldConcat(apply, m, ScanFields(a).value, ScanFields(b).value);
    }
  }

  /** The decoder has no use for this field. */
  ghost predicate Ignores<M(!new)>(apply: (M, Field) -> M, f: Field) {
    forall m :: apply(m, f) == m
  }

  lemma {:induction false} FoldIgnored<M(!new)>(apply: (M, Field) -> M, m: M, fs: seq<Field>)
    requires forall f | f in fs :: Ignores(apply, f)
    ensures Fold(apply, m, fs) == m
    decreases |fs|
  {
    if fs != [] {
      FoldIgnored(apply, m, fs[..|fs| - 1]);
      assert Ignores(apply, fs[|fs| - 1]);
    }
  }

  /** Forward compatibility: unrecognised fields at a field boundary change neither the result nor the failure. */
  lemma ForwardCompatible<M(!new)>(apply: (M, Field) -> M, m: M, a: seq<byte>, extra: seq<byte>, b: seq<byte>)
    requires ScanFields(a).Some? && ScanFields(extra).Some?
    requires forall f | f in ScanFields(extra).value :: Ignores(apply, f)
    ensures Decode(apply, m, a + extra + b) == Decode(apply, m, a + b)
  {
    var m1 := Decode(apply, m, a).value;
    Associates(a, extra, b);
    DecodeConcat(apply, m, a, extra + b);
    DecodeConcat(apply, m1, extra, b);
    FoldIgnored(apply, m1, ScanFields(extra).value);
    DecodeConcat(apply, m, a, b);
  }

  /** The same, for one field printed in place. */
  lemma UnknownFieldSkipped<M(!new)>(apply: (M, Field) -> M, m: M, a: seq<byte>, f: Field, b: seq<byte>)
    requires ScanFields(a).Some? && f.Fits() && Ignores(apply, f)
    ensures Decode(apply, m, a + FieldBytes(f) + b) == Decode(apply, m, a + b)
  {
    SingleFieldBytes(f);
    FieldsRoundTrip([f]);
    ForwardCompatible(apply, m, a, FieldBytes(f), b);
  }

  // -------------------------------------------- one turn of a parse loop

  /** `rest` starts at a field boundary of `data`, and `seen` are the fields before it. */
  ghost predicate Boundary(data: seq<byte>, seen: seq<Field>, rest: seq<byte>) {
    ScanFields(data) == Prepend(seen, ScanFields(rest))
  }

  /** The fields from a tag on, when `rest` starts right behind it. */
  ghost function FieldsBehind(tag: Tag, rest: seq<byte>): Option<seq<Field>> {
    var r := ScanPayload(tag.wire, rest);
    if r.NoMatch? then None else Prepend([Field(tag.number, r.value)], ScanFields(rest[r.used..]))
  }

  ghost predicate Inside(data: seq<byte>, seen: seq<Field>, tag: Tag, rest: seq<byte>) {
    ScanFields(data) == Prepend(seen, FieldsBehind(tag, rest))
  }

  lemma TagRead(rest: seq<byte>)
    requires rest != []
    ensures ScanFields(rest) ==
            if ScanTag(rest).NoMatch? then None else FieldsBehind(ScanTag(rest).value, rest[ScanTag(rest).used..])
  {
    var t := ScanTag(rest);
    if t.Match? && ScanPayload(t.value.wire, rest[t.used..]).Match? {
      assert rest[ScanField(rest).used..] == rest[t.used..][ScanPayload(t.value.wire, rest[t.used..]).used..];
    }
  }

  method NextTag(r: Reader, ghost seen: seq<Field>) returns (ok: bool, tag: Tag)
    requires r.Valid() && r.pos < |r.data| && Boundary(r.data, seen, r.Rest())
    modifies r
    ensures r.Valid() && old(r.pos) <= r.pos && (ok ==> old(r.pos) < r.pos)
    ensures if ok then Inside(r.data, seen, tag, r.Rest()) else ScanFields(r.data) == None
  {
    hide ScanFields;
    TagRead(r.Rest());
    ok, tag := r.ReadTag();
  }

  lemma PayloadTaken(data: seq<byte>, seen: seq<Field>, tag: Tag, rest: seq<byte>)
    requires Inside(data, seen, tag, rest)
    ensures match ScanPayload(tag.wire, rest)
            case NoMatch => ScanFields(data) == None
            case Match(p, n) => Boundary(data, seen + [Field(tag.number, p)], rest[n..])
  {
    var r := ScanPayload(tag.wire, rest);
    if r.Match? {
      PrependPrepend(seen, [Field(tag.number, r.value)], ScanFields(rest[r.used..]));
    }
  }

  method TakeNumber(r: Reader, ghost seen: seq<Field>, tag: Tag) returns (ok: bool, v: uint64)
    requires r.Valid() && Inside(r.data, seen, tag, r.Rest()) && tag.wire == VARINT
    modifies r
    ensures r.Valid() && old(r.pos) <= r.pos
    ensures if ok then Boundary(r.data, seen + [Field(tag.number, Number(v))], r.Rest()) else ScanFields(r.data) == None
  {
    hide ScanFields;
    PayloadTaken(r.data, seen, tag, r.Rest());
    var n;
    ok, n := r.ReadVarint();
    v := if ok then n else 0;
  }

  method TakeBlob(r: Reader, ghost seen: seq<Field>, tag: Tag) returns (ok: bool, d: seq<byte>)
    requires r.Valid() && Inside(r.data, seen, tag, r.Rest()) && tag.wire == LENGTH_DELIM
    modifies r
    ensures r.Valid() && old(r.pos) <= r.pos
    ensures if ok then Boundary(r.data, seen + [Field(tag.number, Blob(d))], r.Rest()) else ScanFields(r.data) == None
  {
    hide ScanFields;
    PayloadTaken(r.data, seen, tag, r.Rest());
    ok, d := r.ReadLengthDelim();
  }

  method Skip(r: Reader, ghost seen: seq<Field>, tag: Tag) returns (ok: bool, ghost f: Field)
    requires r.Valid() && Inside(r.data, seen, tag, r.Rest())
    modifies r
    ensures r.Valid() && old(r.pos) <= r.pos && f.number == tag.number
    ensures if ok then f.payload.Wire() == tag.wire && Boundary(r.data, seen + [f], r.Rest()) else ScanFields(r.data) == None
  {
    hide ScanFields;
    PayloadTaken(r.data, seen, tag, r.Rest());
    ghost var p := ScanPayload(tag.wire, r.Rest());
    ok := r.SkipField(tag.wire);
    f := Field(tag.number, if p.Match? then p.value else Number(0));
  }

  lemma AtStart<M>(apply: (M, Field) -> M, m: M, data: seq<byte>)
    ensures Boundary(data, [], data) && Fold(apply, m, []) == m
  {
    if ScanFields(data).Some? {
      Empties(ScanFields(data).value);
    }
  }

  lemma AtEnd<M>(apply: (M, Field) -> M, m: M, seen: seq<Field>, r: Reader)
    requires r.Valid() && r.pos == |r.data| && Boundary(r.data, seen, r.Rest())
    ensures Decode(apply, m, r.data) == Some(Fold(apply, m, seen))
  {
    Empties(seen);
  }

  // ------------------------------------------- last value, in wire order

  function LastBlob(fs: seq<Field>, number: nat, default: Text): Text {
    if fs == [] then default else
    var f := fs[|fs| - 1];
    if f.number == number && f.payload.Blob? then f.payload.data else LastBlob(fs[..|fs| - 1], number, default)
  }

  function LastNumber(fs: seq<Field>, number: nat, default: uint64): uint64 {
    if fs == [] then default else
    var f := fs[|fs| - 1];
    if f.number == number && f.payload.Number? then f.payload.n else LastNumber(fs[..|fs| - 1], number, default)
  }

  /** An int32 or enum field. */
  function LastInt32(fs: seq<Field>, number: nat, default: int): int {
    if fs == [] then default else
    var f := fs[|fs| - 1];
    if f.number == number && f.payload.Number? then ToInt32(f.payload.n)
    else LastInt32(fs[..|fs| - 1], number, default)
  }

  /** A sub-message, which may be absent. */
  function LastMessage(fs: seq<Field>, number: nat, default: Option<Text>): Option<Text> {
    if fs == [] then default else
    var f := fs[|fs| - 1];
    if f.number == number && f.payload.Blob? then Some(f.payload.data)
    else LastMessage(fs[..|fs| - 1], number, default)
  }

  /** A repeated field: every occurrence, in wire order. */
  function AllBlobs(fs: seq<Field>, number: nat): seq<Text> {
    if fs == [] then [] else
    var f := fs[|fs| - 1];
    AllBlobs(fs[..|fs| - 1], number) + if f.number == number && f.payload.Blob? then [f.payload.data] else []
  }

  function Bit(b: bool): uint64 {
    if b then 1 else 0
  }

  // ---------------------------------------------------- HelperMessage

  datatype HelperMessage = HelperMessage(
    kind: int,
    clipboardData: Option<Text>,
    announcement: Option<Text>,
    provideData: Option<Text>,
    fileChunkRequest: Option<Text>,
    fileChunkData: Option<Text>)

  const NO_MESSAGE := HelperMessage(0, None, None, None, None, None)

  function ApplyHelper(m: HelperMessage, f: Field): HelperMessage {
    match f.payload
    case Number(v) => if f.number == FIELD_TYPE then m.(kind := ToInt32(v)) else m
    case Blob(d) =>
      if f.number == FIELD_CLIPBOARD_DATA then m.(clipboardData := Some(d))
      else if f.number == FIELD_ANNOUNCEMENT then m.(announcement := Some(d))
      else if f.number == FIELD_PROVIDE_DATA then m.(provideData := Some(d))
      else if f.number == FIELD_FILE_CHUNK_REQUEST then m.(fileChunkRequest := Some(d))
      else if f.number == FIELD_FILE_CHUNK_DATA then m.(fileChunkData := Some(d))
      else m
    case _ => m
  }

  /** Exactly the known numbers with their own wire type are recognised. */
  lemma HelperIgnores(f: Field)
    ensures Ignores(ApplyHelper, f) <==>
            !(f.payload.Number? && f.number == 1) &&
            !(f.payload.Blob? && f.number in {2, 3, 4,
                                              8, 9})
  {
    assert ApplyHelper(NO_MESSAGE, f) == NO_MESSAGE || !Ignores(ApplyHelper, f);
    if f.payload.Number? && f.number == FIELD_TYPE {
      var m := NO_MESSAGE.(kind := ToInt32(f.payload.n) + 1);
      assert ApplyHelper(m, f) != m;
    }
  }

  /** The type and each sub-message are the last ones on the wire. */
  lemma {:induction false} HelperMessageMeaning(m: HelperMessage, fs: seq<Field>)
    ensures Fold(ApplyHelper, m, fs) ==
            HelperMessage(LastInt32(fs, 1, m.kind),
                          LastMessage(fs, 2, m.clipboardData),
                          LastMessage(fs, 3, m.announcement),
                          LastMessage(fs, 4, m.provideData),
                          LastMessage(fs, 8, m.fileChunkRequest),
                          LastMessage(fs, 9, m.fileChunkData))
    decreases |fs|
  {
    if fs != [] {
      HelperMessageMeaning(m, fs[..|fs| - 1]);
    }
  }

  method ParseHelperMessage(data: seq<byte>, init: HelperMessage) returns (ok: bool, out: HelperMessage)
    ensures ok == Decode(ApplyHelper, init, data).Some?
    ensures ok ==> out == Decode(ApplyHelper, init, data).value
  {
    hide Fold, ScanFields, Boundary, Inside, Reader.Rest;
    var r := new Reader(data);
    ghost var seen: seq<Field> := [];
    out := init;
    AtStart(ApplyHelper, init, data);
    while r.pos < |data|
      invariant r.Valid() && r.data == data
      invariant Boundary(data, seen, r.Rest())
      invariant out == Fold(ApplyHelper, init, seen)
      decreases |data| - r.pos
    {
      var tag;
      ok, tag := NextTag(r, seen);
      if !ok { return; }
      ghost var f;
      if tag.number == FIELD_TYPE && tag.wire == VARINT {
        var v;
        ok, v := TakeNumber(r, seen, tag);
        if !ok { return; }
        f := Field(tag.number, Number(v));
        out := out.(kind := ToInt32(v));
      } else if tag.number == FIELD_CLIPBOARD_DATA && tag.wire == LENGTH_DELIM {
        var d;
        ok, d := TakeBlob(r, seen, tag);
        if !ok { return; }
        f := Field(tag.number, Blob(d));
        out := out.(clipboardData := Some(d));
      } else if tag.number == FIELD_ANNOUNCEMENT && tag.wire == LENGTH_DELIM {
        var d;
        ok, d := TakeBlob(r, seen, tag);
        if !ok { return; }
        f := Field(tag.number, Blob(d));
        out := out.(announcement := Some(d));
      } else if tag.number == FIELD_PROVIDE_DATA && tag.wire == LENGTH_DELIM {
        var d;
        ok, d := TakeBlob(r, seen, tag);
        if !ok { return; }
        f := Field(tag.number, Blob(d));
        out := out.(provideData := Some(d));
      } else if tag.number == FIELD_FILE_CHUNK_REQUEST && tag.wire == LENGTH_DELIM {
        var d;
        ok, d := TakeBlob(r, seen, tag);
        if !ok { return; }
        f := Field(tag.number, Blob(d));
        out := out.(fileChunkRequest := Some(d));
      } else if tag.number == FIELD_FILE_CHUNK_DATA && tag.wire == LENGTH_DELIM {
        var d;
        ok, d := TakeBlob(r, seen, tag);
        if !ok { return; }
        f := Field(tag.number, Blob(d));
        out := out.(fileChunkData := Some(d));
      } else {
        ok, f := Skip(r, seen, tag);
        if !ok { return; }
      }
      FoldSnoc(ApplyHelper, init, seen, f);
      seen := seen + [f];
    }
    AtEnd(ApplyHelper, init, seen, r);
    return true, out;
  }

  // ---------------------------------------------------- ClipboardData

  const CD_CONTENT_TYPE: uint32 := 1
  const CD_PAYLOAD: uint32 := 2
  const CD_FILES: uint32 := 4

  datatype ClipboardData = ClipboardData(contentType: int, payload: Text, files: seq<Text>)

  const NO_CLIPBOARD_DATA := ClipboardData(0, [], [])

  function ApplyClipboardData(m: ClipboardData, f: Field): ClipboardData {
    match f.payload
    case Number(v) => if f.number == CD_CONTENT_TYPE then m.(contentType := ToInt32(v)) else m
    case Blob(d) =>
      if f.number == CD_PAYLOAD then m.(payload := d)
      else if f.number == CD_FILES then m.(files := m.files + [d])
      else m
    case _ => m
  }

  lemma ClipboardDataIgnores(f: Field)
    ensures Ignores(ApplyClipboardData, f) <==>
            !(f.payload.Number? && f.number == 1) &&
            !(f.payload.Blob? && f.number in {2, 4})
  {
    if f.payload.Number? && f.number == CD_CONTENT_TYPE {
      var m := NO_CLIPBOARD_DATA.(contentType := ToInt32(f.payload.n) + 1);
      assert ApplyClipboardData(m, f) != m;
    } else if f.payload.Blob? && f.number == CD_PAYLOAD {
      var m := NO_CLIPBOARD_DATA.(payload := f.payload.data + [0]);
      assert ApplyClipboardData(m, f) != m;
    } else if f.payload.Blob? && f.number == CD_FILES {
      assert |ApplyClipboardData(NO_CLIPBOARD_DATA, f).files| == 1;
    }
  }

  /** Singular fields keep their last value; `files` keeps all of them, in order. */
  lemma {:induction false} ClipboardDataMeaning(m: ClipboardData, fs: seq<Field>)
    ensures Fold(ApplyClipboardData, m, fs).contentType == LastInt32(fs, 1, m.contentType)
    ensures Fold(ApplyClipboardData, m, fs).payload == LastBlob(fs, 2, m.payload)
    ensures Fold(ApplyClipboardData, m, fs).files == m.files + AllBlobs(fs, 4)
    decreases |fs|
  {
    if fs == [] {
      assert m.files + [] == m.files;
    } else {
      var init := fs[..|fs| - 1];
      ClipboardDataMeaning(m, init);
      var f := fs[|fs| - 1];
      if f.number == CD_FILES && f.payload.Blob? {
        Associates(m.files, AllBlobs(init, CD_FILES), [f.payload.data]);
      } else {
        assert AllBlobs(fs, CD_FILES) == AllBlobs(init, CD_FILES) + [] == AllBlobs(init, CD_FILES);
      }
    }
  }

  method ParseClipboardData(data: seq<byte>, init: ClipboardData) returns (ok: bool, out: ClipboardData)
    ensures ok == Decode(ApplyClipboardData, init, data).Some?
    ensures ok ==> out == Decode(ApplyClipboardData, init, data).value
  {
    hide Fold, ScanFields, Boundary, Inside, Reader.Rest;
    var r := new Reader(data);
    ghost var seen: seq<Field> := [];
    out := init;
    AtStart(ApplyClipboardData, init, data);
    while r.pos < |data|
      invariant r.Valid() && r.data == data
      invariant Boundary(data, seen, r.Rest())
      invariant out == Fold(ApplyClipboardData, init, seen)
      decreases |data| - r.pos
    {
      var tag;
      ok, tag := NextTag(r, seen);
      if !ok { return; }
      ghost var f;
      if tag.number == CD_CONTENT_TYPE && tag.wire == VARINT {
        var v;
        ok, v := TakeNumber(r, seen, tag);
        if !ok { return; }
        f := Field(tag.number, Number(v));
        out := out.(contentType := ToInt32(v));
      } else if tag.number == CD_PAYLOAD && tag.wire == LENGTH_DELIM {
        var d;
        ok, d := TakeBlob(r, seen, tag);
        if !ok { return; }
        f := Field(tag.number, Blob(d));
        out := out.(payload := d);
      } else if tag.number == CD_FILES && tag.wire == LENGTH_DELIM {
        var d;
        ok, d := TakeBlob(r, seen, tag);
        if !ok { return; }
        f := Field(tag.number, Blob(d));
        out := out.(files := out.files + [d]);
      } else {
        ok, f := Skip(r, seen, tag);
        if !ok { return; }
      }
      FoldSnoc(ApplyClipboardData, init, seen, f);
      seen := seen + [f];
    }
    AtEnd(ApplyClipboardData, init, seen, r);
    return true, out;
  }

  // ---------------------------------------------------- FileMetadata

  const FM_FILE_ID: uint32 := 1
  const FM_FILENAME: uint32 := 2
  const FM_RELATIVE_PATH: uint32 := 3
  const FM_FILE_SIZE: uint32 := 4
  const FM_IS_DIRECTORY: uint32 := 7

  datatype FileMetadata = FileMetadata(fileId: Text, filename: Text, relativePath: Text, size: uint64, isDirectory: bool)

  const NO_METADATA := FileMetadata([], [], [], 0, false)

  function ApplyMetadata(m: FileMetadata, f: Field): FileMetadata {
    match f.payload
    case Number(v) =>
      if f.number == FM_FILE_SIZE then m.(size := v)
      else if f.number == FM_IS_DIRECTORY then m.(isDirectory := v != 0)
      else m
    case Blob(d) =>
      if f.number == FM_FILE_ID then m.(fileId := d)
      else if f.number == FM_FILENAME then m.(filename := d)
      else if f.number == FM_RELATIVE_PATH then m.(relativePath := d)
      else m
    case _ => m
  }

  lemma MetadataIgnores(f: Field)
    ensures Ignores(ApplyMetadata, f) <==>
            !(f.payload.Number? && f.number in {4, 7}) &&
            !(f.payload.Blob? && f.number in {1, 2, 3})
  {
    if f.payload.Number? {
      var m := FileMetadata([], [], [], if f.payload.n == 0 then 1 else 0, f.payload.n == 0);
      assert f.number in {FM_FILE_SIZE, FM_IS_DIRECTORY} ==> ApplyMetadata(m, f) != m;
    } else if f.payload.Blob? {
      var other := f.payload.data + [0];
      var m := FileMetadata(other, other, other, 0, false);
      assert f.number in {FM_FILE_ID, FM_FILENAME, FM_RELATIVE_PATH} ==> ApplyMetadata(m, f) != m;
    }
  }

  /** Every field of an entry is the last value on the wire. */
  lemma {:induction false} MetadataMeaning(m: FileMetadata, fs: seq<Field>)
    ensures Fold(ApplyMetadata, m, fs) ==
            FileMetadata(LastBlob(fs, 1, m.fileId), LastBlob(fs, 2, m.filename),
                         LastBlob(fs, 3, m.relativePath), LastNumber(fs, 4, m.size),
                         LastNumber(fs, 7, Bit(m.isDirectory)) != 0)
    decreases |fs|
  {
    if fs != [] {
      MetadataMeaning(m, fs[..|fs| - 1]);
    }
  }

  /** The name is still UTF-8 here; the conversion to UTF-16 is the system's. */
  datatype VirtualFileSpec = VirtualFileSpec(name: Text, size: uint64, fileId: Text, isDirectory: bool)

  /** A usable entry has a file id and a name; the relative path is the name when there is one. */
  function SpecOf(m: FileMetadata): Option<VirtualFileSpec> {
    var display := if m.relativePath != [] then m.relativePath else m.filename;
    if m.fileId == [] || display == [] then None
    else Some(VirtualFileSpec(display, m.size, m.fileId, m.isDirectory))
  }

  /** Which entries are refused, and what becomes of each field of the others. */
  lemma SpecMeaning(m: FileMetadata)
    ensures SpecOf(m) == None <==> m.fileId == [] || (m.relativePath == [] && m.filename == [])
    ensures SpecOf(m).Some? ==>
              var spec := SpecOf(m).value;
              spec.fileId == m.fileId && spec.size == m.size && spec.isDirectory == m.isDirectory &&
              spec.name == if m.relativePath == [] then m.filename else m.relativePath
  {
  }

  function SpecOfBytes(data: seq<byte>): Option<VirtualFileSpec> {
    match Decode(ApplyMetadata, NO_METADATA, data) case None => None case Some(m) => SpecOf(m)
  }

  /** The loop of ParseFileMetadataForVirtualFile. */
  method ReadFileMetadata(data: seq<byte>) returns (ok: bool, out: FileMetadata)
    ensures ok == Decode(ApplyMetadata, NO_METADATA, data).Some?
    ensures ok ==> out == Decode(ApplyMetadata, NO_METADATA, data).value
  {
    hide Fold, ScanFields, Boundary, Inside, Reader.Rest;
    var r := new Reader(data);
    ghost var seen: seq<Field> := [];
    out := NO_METADATA;
    AtStart(ApplyMetadata, NO_METADATA, data);
    while r.pos < |data|
      invariant r.Valid() && r.data == data
      invariant Boundary(data, seen, r.Rest())
      invariant out == Fold(ApplyMetadata, NO_METADATA, seen)
      decreases |data| - r.pos
    {
      var tag;
      ok, tag := NextTag(r, seen);
      if !ok { return; }
      ghost var f;
      if tag.number == FM_FILE_ID && tag.wire == LENGTH_DELIM {
        var d;
        ok, d := TakeBlob(r, seen, tag);
        if !ok { return; }
        f := Field(tag.number, Blob(d));
        out := out.(fileId := d);
      } else if tag.number == FM_FILENAME && tag.wire == LENGTH_DELIM {
        var d;
        ok, d := TakeBlob(r, seen, tag);
        if !ok { return; }
        f := Field(tag.number, Blob(d));
        out := out.(filename := d);
      } else if tag.number == FM_RELATIVE_PATH && tag.wire == LENGTH_DELIM {
        var d;
        ok, d := TakeBlob(r, seen, tag);
        if !ok { return; }
        f := Field(tag.number, Blob(d));
        out := out.(relativePath := d);
      } else if tag.number == FM_FILE_SIZE && tag.wire == VARINT {
        var v;
        ok, v := TakeNumber(r, seen, tag);
        if !ok { return; }
        f := Field(tag.number, Number(v));
        out := out.(size := v);
      } else if tag.number == FM_IS_DIRECTORY && tag.wire == VARINT {
        var v;
        ok, v := TakeNumber(r, seen, tag);
        if !ok { return; }
        f := Field(tag.number, Number(v));
        out := out.(isDirectory := v != 0);
      } else {
        ok, f := Skip(r, seen, tag);
        if !ok { return; }
      }
      FoldSnoc(ApplyMetadata, NO_METADATA, seen, f);
      seen := seen + [f];
    }
    AtEnd(ApplyMetadata, NO_METADATA, seen, r);
    return true, out;
  }

  method ParseFileMetadataForVirtualFile(data: seq<byte>) returns (ok: bool, spec: VirtualFileSpec)
    ensures ok == SpecOfBytes(data).Some?
    ensures ok ==> spec == SpecOfBytes(data).value
  {
    hide Decode;
    spec := VirtualFileSpec([], 0, [], false);
    var out;
    ok, out := ReadFileMetadata(data);
    if !ok { return; }
    if |out.fileId| == 0 { return false, spec; }
    var display := if |out.relativePath| != 0 then out.relativePath else out.filename;
    if |display| == 0 { return false, spec; }
    return true, VirtualFileSpec(display, out.size, out.fileId, out.isDirectory);
  }

  // -------------------------------------------------- file chunk messages

  const REQ_TRANSFER_ID: uint32 := 1
  const REQ_FILE_ID: uint32 := 2
  const REQ_OFFSET: uint32 := 3
  const REQ_SIZE: uint32 := 4

  datatype FileChunkRequest = FileChunkRequest(transferId: Text, fileId: Text, offset: uint64, size: uint32)

  const NO_CHUNK_REQUEST := FileChunkRequest([], [], 0, 0)

  function ApplyChunkRequest(m: FileChunkRequest, f: Field): FileChunkRequest {
    match f.payload
    case Number(v) =>
      if f.number == REQ_OFFSET then m.(offset := v)
      else if f.number == REQ_SIZE then m.(size := v as nat % TWO32)
      else m
    case Blob(d) =>
      if f.number == REQ_TRANSFER_ID then m.(transferId := d)
      else if f.number == REQ_FILE_ID then m.(fileId := d)
      else m
    case _ => m
  }

  lemma ChunkRequestIgnores(f: Field)
    ensures Ignores(ApplyChunkRequest, f) <==>
            !(f.payload.Number? && f.number in {3, 4}) &&
            !(f.payload.Blob? && f.number in {1, 2})
  {
    if f.payload.Number? {
      var m := FileChunkRequest([], [], if f.payload.n == 0 then 1 else 0,
                                if f.payload.n as nat % TWO32 == 0 then 1 else 0);
      assert f.number in {REQ_OFFSET, REQ_SIZE} ==> ApplyChunkRequest(m, f) != m;
    } else if f.payload.Blob? {
      var other := f.payload.data + [0];
      var m := FileChunkRequest(other, other, 0, 0);
      assert f.number in {REQ_TRANSFER_ID, REQ_FILE_ID} ==> ApplyChunkRequest(m, f) != m;
    }
  }

  lemma {:induction false} ChunkRequestMeaning(m: FileChunkRequest, fs: seq<Field>)
    ensures Fold(ApplyChunkRequest, m, fs) ==
            FileChunkRequest(LastBlob(fs, 1, m.transferId), LastBlob(fs, 2, m.fileId),
                             LastNumber(fs, 3, m.offset), LastNumber(fs, 4, m.size) as nat % TWO32)
    decreases |fs|
  {
    if fs != [] {
      ChunkRequestMeaning(m, fs[..|fs| - 1]);
    }
  }

  method ParseFileChunkRequest(data: seq<byte>, init: FileChunkRequest) returns (ok: bool, out: FileChunkRequest)
    ensures ok == Decode(ApplyChunkRequest, init, data).Some?
    ensures ok ==> out == Decode(ApplyChunkRequest, init, data).value
  {
    hide Fold, ScanFields, Boundary, Inside, Reader.Rest;
    var r := new Reader(data);
    ghost var seen: seq<Field> := [];
    out := init;
    AtStart(ApplyChunkRequest, init, data);
    while r.pos < |data|
      invariant r.Valid() && r.data == data
      invariant Boundary(data, seen, r.Rest())
      invariant out == Fold(ApplyChunkRequest, init, seen)
      decreases |data| - r.pos
    {
      var tag;
      ok, tag := NextTag(r, seen);
      if !ok { return; }
      ghost var f;
      if tag.number in {REQ_TRANSFER_ID, REQ_FILE_ID} && tag.wire == LENGTH_DELIM {
        var d;
        ok, d := TakeBlob(r, seen, tag);
        if !ok { return; }
        f := Field(tag.number, Blob(d));
        out := if tag.number == REQ_TRANSFER_ID then out.(transferId := d) else out.(fileId := d);
      } else if tag.number in {REQ_OFFSET, REQ_SIZE} && tag.wire == VARINT {
        var v;
        ok, v := TakeNumber(r, seen, tag);
        if !ok { return; }
        f := Field(tag.number, Number(v));
        out := if tag.number == REQ_OFFSET then out.(offset := v) else out.(size := v % TWO32);
      } else {
        ok, f := Skip(r, seen, tag);
        if !ok { return; }
      }
      FoldSnoc(ApplyChunkRequest, init, seen, f);
      seen := seen + [f];
    }
    AtEnd(ApplyChunkRequest, init, seen, r);
    return true, out;
  }

  const DATA_TRANSFER_ID: uint32 := 1
  const DATA_FILE_ID: uint32 := 2
  const DATA_OFFSET: uint32 := 3
  const DATA_DATA: uint32 := 4
  const DATA_IS_LAST: uint32 := 5
  const DATA_ERROR: uint32 := 6

  datatype FileChunkData = FileChunkData(transferId: Text, fileId: Text, offset: uint64, data: seq<byte>,
                                         isLast: bool, error: Text)

  const NO_CHUNK_DATA := FileChunkData([], [], 0, [], false, [])

  function ApplyChunkData(m: FileChunkData, f: Field): FileChunkData {
    match f.payload
    case Number(v) =>
      if f.number == DATA_OFFSET then m.(offset := v)
      else if f.number == DATA_IS_LAST then m.(isLast := v != 0)
      else m
    case Blob(d) =>
      if f.number == DATA_TRANSFER_ID then m.(transferId := d)
      else if f.number == DATA_FILE_ID then m.(fileId := d)
      else if f.number == DATA_DATA then m.(data := d)
      else if f.number == DATA_ERROR then m.(error := d)
      else m
    case _ => m
  }

  lemma ChunkDataIgnores(f: Field)
    ensures Ignores(ApplyChunkData, f) <==>
            !(f.payload.Number? && f.number in {3, 5}) &&
            !(f.payload.Blob? && f.number in {1, 2, 4, 6})
  {
    if f.payload.Number? {
      var m := FileChunkData([], [], if f.payload.n == 0 then 1 else 0, [], f.payload.n == 0, []);
      assert f.number in {DATA_OFFSET, DATA_IS_LAST} ==> ApplyChunkData(m, f) != m;
    } else if f.payload.Blob? {
      var other := f.payload.data + [0];
      var m := FileChunkData(other, other, 0, other, false, other);
      assert f.number in {DATA_TRANSFER_ID, DATA_FILE_ID, DATA_DATA, DATA_ERROR} ==> ApplyChunkData(m, f) != m;
    }
  }

  lemma {:induction false} ChunkDataMeaning(m: FileChunkData, fs: seq<Field>)
    ensures Fold(ApplyChunkData, m, fs) ==
            FileChunkData(LastBlob(fs, 1, m.transferId), LastBlob(fs, 2, m.fileId),
                          LastNumber(fs, 3, m.offset), LastBlob(fs, 4, m.data),
                          LastNumber(fs, 5, Bit(m.isLast)) != 0, LastBlob(fs, 6, m.error))
    decreases |fs|
  {
    if fs != [] {
      ChunkDataMeaning(m, fs[..|fs| - 1]);
    }
  }

  method ParseFileChunkData(data: seq<byte>, init: FileChunkData) returns (ok: bool, out: FileChunkData)
    ensures ok == Decode(ApplyChunkData, init, data).Some?
    ensures ok ==> out == Decode(ApplyChunkData, init, data).value
  {
    hide Fold, ScanFields, Boundary, Inside, Reader.Rest;
    var r := new Reader(data);
    ghost var seen: seq<Field> := [];
    out := init;
    AtStart(ApplyChunkData, init, data);
    while r.pos < |data|
      invariant r.Valid() && r.data == data
      invariant Boundary(data, seen, r.Rest())
      invariant out == Fold(ApplyChunkData, init, seen)
      decreases |data| - r.pos
    {
      var tag;
      ok, tag := NextTag(r, seen);
      if !ok { return; }
      ghost var f;
      if tag.number in {DATA_TRANSFER_ID, DATA_FILE_ID, DATA_DATA, DATA_ERROR} && tag.wire == LENGTH_DELIM {
        var d;
        ok, d := TakeBlob(r, seen, tag);
        if !ok { return; }
        f := Field(tag.number, Blob(d));
        if tag.number == DATA_TRANSFER_ID {
          out := out.(transferId := d);
        } else if tag.number == DATA_FILE_ID {
          out := out.(fileId := d);
        } else if tag.number == DATA_DATA {
          out := out.(data := d);
        } else {
          out := out.(error := d);
        }
      } else if tag.number in {DATA_OFFSET, DATA_IS_LAST} && tag.wire == VARINT {
        var v;
        ok, v := TakeNumber(r, seen, tag);
        if !ok { return; }
        f := Field(tag.number, Number(v));
        out := if tag.number == DATA_OFFSET then out.(offset := v) else out.(isLast := v != 0);
      } else {
        ok, f := Skip(r, seen, tag);
        if !ok { return; }
      }
      FoldSnoc(ApplyChunkData, init, seen, f);
      seen := seen + [f];
    }
    AtEnd(ApplyChunkData, init, seen, r);
    return true, out;
  }

  // ------------------------------------------------ ExtractRelativePath

  /** Unlike the decoders above this one stops at the first relative_path it meets. */
  function FirstRelativePath(s: seq<byte>): Option<Text>
    decreases |s|
  {
    if s == [] then None else
    match ScanField(s)
    case NoMatch => None
    case Match(f, n) =>
      if f.number == FM_RELATIVE_PATH && f.payload.Blob? then Some(f.payload.data) else FirstRelativePath(s[n..])
  }

  function FirstBlob(fs: seq<Field>, number: nat): Option<Text> {
    if fs == [] then None
    else if fs[0].number == number && fs[0].payload.Blob? then Some(fs[0].payload.data)
    else FirstBlob(fs[1..], number)
  }

  /** On a well-formed entry the answer is the first occurrence, where the other decoders take the last. */
  lemma {:induction false} FirstWins(s: seq<byte>)
    requires ScanFields(s).Some?
    ensures FirstRelativePath(s) == FirstBlob(ScanFields(s).value, 3)
    decreases |s|
  {
    if s != [] {
      var r := ScanField(s);
      FirstWins(s[r.used..]);
      assert ScanFields(s).value[1..] == ScanFields(s[r.used..]).value;
    }
  }

  /** What the loop below finds behind a tag. */
  ghost function PathBehind(tag: Tag, rest: seq<byte>): Option<Text> {
    var r := ScanPayload(tag.wire, rest);
    if r.NoMatch? then None
    else if tag.number == FM_RELATIVE_PATH && r.value.Blob? then Some(r.value.data)
    else FirstRelativePath(rest[r.used..])
  }

  lemma PathTagRead(rest: seq<byte>)
    requires rest != []
    ensures FirstRelativePath(rest) ==
            if ScanTag(rest).NoMatch? then None else PathBehind(ScanTag(rest).value, rest[ScanTag(rest).used..])
  {
    var t := ScanTag(rest);
    if t.Match? && ScanPayload(t.value.wire, rest[t.used..]).Match? {
      assert rest[ScanField(rest).used..] == rest[t.used..][ScanPayload(t.value.wire, rest[t.used..]).used..];
    }
  }

  method NextPathTag(r: Reader) returns (ok: bool, tag: Tag)
    requires r.Valid() && r.pos < |r.data|
    modifies r
    ensures r.Valid() && (ok ==> old(r.pos) < r.pos)
    ensures FirstRelativePath(old(r.Rest())) == if ok then PathBehind(tag, r.Rest()) else None
  {
    hide FirstRelativePath;
    PathTagRead(r.Rest());
    ok, tag := r.ReadTag();
  }

  method SkipPathField(r: Reader, tag: Tag) returns (ok: bool)
    requires r.Valid() && !(tag.number == FM_RELATIVE_PATH && tag.wire == LENGTH_DELIM)
    modifies r
    ensures r.Valid() && old(r.pos) <= r.pos
    ensures PathBehind(tag, old(r.Rest())) == if ok then FirstRelativePath(r.Rest()) else None
  {
    hide FirstRelativePath;
    ok := r.SkipField(tag.wire);
  }

  method ExtractRelativePath(data: seq<byte>) returns (ok: bool, out: Text)
    ensures ok == FirstRelativePath(data).Some?
    ensures ok ==> out == FirstRelativePath(data).value
  {
    out := [];
    var r := new Reader(data);
    ghost var path := FirstRelativePath(data);
    while r.pos < |data|
      invariant r.Valid() && r.data == data
      invariant path == FirstRelativePath(r.Rest())
      decreases |data| - r.pos
    {
      var tag;
      ok, tag := NextPathTag(r);
      if !ok { return; }
      if tag.number == FM_RELATIVE_PATH && tag.wire == LENGTH_DELIM {
        ok, out := r.ReadLengthDelim();
        return;
      }
      ok := SkipPathField(r, tag);
      if !ok { return; }
    }
    return false, [];
  }

  // ---------------------------------------------------------- encoders

  function EnvelopeFields(kind: int, number: uint32, inner: seq<byte>, timestamp: uint64): seq<Field>
    requires -(TWO31 as int) <= kind < TWO31
  {
    OptNumber(FIELD_TYPE, SignExtend(kind)) + [Field(number, Blob(inner))] + OptNumber(FIELD_TIMESTAMP, timestamp)
  }

  function ChunkRequestFields(m: FileChunkRequest): seq<Field> {
    OptBlob(REQ_TRANSFER_ID, m.transferId) + OptBlob(REQ_FILE_ID, m.fileId) +
    OptNumber(REQ_OFFSET, m.offset) + OptNumber(REQ_SIZE, m.size)
  }

  function ChunkDataHead(m: FileChunkData): seq<Field> {
    OptBlob(DATA_TRANSFER_ID, m.transferId) + OptBlob(DATA_FILE_ID, m.fileId) +
    OptNumber(DATA_OFFSET, m.offset) + OptBlob(DATA_DATA, m.data)
  }

  function ChunkDataFields(m: FileChunkData): seq<Field> {
    ChunkDataHead(m) + OptNumber(DATA_IS_LAST, Bit(m.isLast)) + OptBlob(DATA_ERROR, m.error)
  }

  function ChunkRequestFrame(m: FileChunkRequest, timestamp: uint64): seq<byte> {
    FieldsBytes(EnvelopeFields(FILE_CHUNK_REQUEST, FIELD_FILE_CHUNK_REQUEST, FieldsBytes(ChunkRequestFields(m)), timestamp))
  }

  function ChunkDataFrame(m: FileChunkData, timestamp: uint64): seq<byte> {
    FieldsBytes(EnvelopeFields(FILE_CHUNK_DATA, FIELD_FILE_CHUNK_DATA, FieldsBytes(ChunkDataFields(m)), timestamp))
  }

  method EncodeEnvelope(kind: int, number: uint32, inner: seq<byte>, timestamp: uint64) returns (frame: seq<byte>)
    requires -(TWO31 as int) <= kind < TWO31 && |inner| < TWO64
    ensures frame == FieldsBytes(EnvelopeFields(kind, number, inner, timestamp))
  {
    var w := new Writer();
    w.WriteInt32Field(FIELD_TYPE, kind);
    w.WriteSubMessageField(number, inner);
    w.WriteUint64Field(FIELD_TIMESTAMP, timestamp);
    assert w.fields == EnvelopeFields(kind, number, inner, timestamp);
    return w.buf;
  }

  method EncodeFileChunkRequest(m: FileChunkRequest, timestamp: uint64) returns (frame: seq<byte>)
    requires |FieldsBytes(ChunkRequestFields(m))| < TWO64
    ensures frame == ChunkRequestFrame(m, timestamp)
  {
    BlobsFit(ChunkRequestFields(m));
    OptBlobSmall(REQ_TRANSFER_ID, m.transferId, ChunkRequestFields(m));
    OptBlobSmall(REQ_FILE_ID, m.fileId, ChunkRequestFields(m));
    var inner := new Writer();
    inner.WriteBytesField(REQ_TRANSFER_ID, m.transferId);
    inner.WriteBytesField(REQ_FILE_ID, m.fileId);
    inner.WriteUint64Field(REQ_OFFSET, m.offset);
    inner.WriteUint64Field(REQ_SIZE, m.size);
    assert inner.fields == ChunkRequestFields(m);
    frame := EncodeEnvelope(FILE_CHUNK_REQUEST, FIELD_FILE_CHUNK_REQUEST, inner.buf, timestamp);
  }

  method EncodeFileChunkData(m: FileChunkData, timestamp: uint64) returns (frame: seq<byte>)
    requires |FieldsBytes(ChunkDataFields(m))| < TWO64
    ensures frame == ChunkDataFrame(m, timestamp)
  {
    BlobsFit(ChunkDataFields(m));
    OptBlobSmall(DATA_TRANSFER_ID, m.transferId, ChunkDataFields(m));
    OptBlobSmall(DATA_FILE_ID, m.fileId, ChunkDataFields(m));
    OptBlobSmall(DATA_DATA, m.data, ChunkDataFields(m));
    OptBlobSmall(DATA_ERROR, m.error, ChunkDataFields(m));
    var inner := new Writer();
    Empties(OptBlob(DATA_TRANSFER_ID, m.transferId));
    inner.WriteBytesField(DATA_TRANSFER_ID, m.transferId);
    inner.WriteBytesField(DATA_FILE_ID, m.fileId);
    inner.WriteUint64Field(DATA_OFFSET, m.offset);
    inner.WriteBytesField(DATA_DATA, m.data);
    inner.WriteBoolField(DATA_IS_LAST, m.isLast);
    Empties(inner.fields);
    if |m.error| != 0 {
      inner.WriteBytesField(DATA_ERROR, m.error);
    }
    frame := EncodeEnvelope(FILE_CHUNK_DATA, FIELD_FILE_CHUNK_DATA, inner.buf, timestamp);
  }

  /** No blob is longer than the buffer it is printed into. */
  lemma {:induction false} BlobsFit(fs: seq<Field>)
    ensures forall f | f in fs && f.payload.Blob? :: |f.payload.data| < |FieldsBytes(fs)|
    decreases |fs|
  {
    if fs != [] {
      BlobsFit(fs[1..]);
      forall f | f in fs && f.payload.Blob?
        ensures |f.payload.data| < |FieldsBytes(fs)|
      {
        if f != fs[0] {
          assert f in fs[1..];
        }
      }
    }
  }

  lemma OptBlobSmall(number: uint32, d: Text, fs: seq<Field>)
    requires forall f | f in OptBlob(number, d) :: f in fs
    requires forall f | f in fs && f.payload.Blob? :: |f.payload.data| < |FieldsBytes(fs)|
    requires |FieldsBytes(fs)| < TWO64
    ensures |d| < TWO64
  {
    if d != [] {
      assert Field(number, Blob(d)) in OptBlob(number, d);
    }
  }

  // --------------------------------------------------------- round trips

  lemma FoldOne<M>(apply: (M, Field) -> M, m: M, f: Field)
    ensures Fold(apply, m, [f]) == apply(m, f)
  {
    FoldSnoc(apply, m, [], f);
    Empties([f]);
  }

  lemma FoldOptNumber<M>(apply: (M, Field) -> M, m: M, number: uint32, n: uint64)
    ensures Fold(apply, m, OptNumber(number, n)) == if n == 0 then m else apply(m, Field(number, Number(n)))
  {
    FoldOne(apply, m, Field(number, Number(n)));
  }

  lemma FoldOptBlob<M>(apply: (M, Field) -> M, m: M, number: uint32, d: Text)
    ensures Fold(apply, m, OptBlob(number, d)) == if d == [] then m else apply(m, Field(number, Blob(d)))
  {
    FoldOne(apply, m, Field(number, Blob(d)));
  }

  lemma Fold3<M>(apply: (M, Field) -> M, m: M, a: seq<Field>, b: seq<Field>, c: seq<Field>)
    ensures Fold(apply, m, a + b + c) == Fold(apply, Fold(apply, Fold(apply, m, a), b), c)
  {
    FoldConcat(apply, m, a, b);
    FoldConcat(apply, m, a + b, c);
  }

  lemma Fold4<M>(apply: (M, Field) -> M, m: M, a: seq<Field>, b: seq<Field>, c: seq<Field>, d: seq<Field>)
    ensures Fold(apply, m, a + b + c + d) == Fold(apply, Fold(apply, Fold(apply, Fold(apply, m, a), b), c), d)
  {
    Fold3(apply, m, a, b, c);
    FoldConcat(apply, m, a + b + c, d);
  }

  /** The fields the encoders print: varints and length-delimited ones, under small numbers. */
  ghost predicate Plain(fs: seq<Field>) {
    forall f | f in fs :: f.number < TWO32 / 8 && (f.payload.Number? || f.payload.Blob?)
  }

  lemma PlainConcat(a: seq<Field>, b: seq<Field>)
    requires Plain(a) && Plain(b)
    ensures Plain(a + b)
  {
  }

  lemma PlainOpt(number: uint32, n: uint64, d: Text)
    requires number < 100
    ensures Plain(OptNumber(number, n)) && Plain(OptBlob(number, d))
  {
  }

  lemma Plain3(a: seq<Field>, b: seq<Field>, c: seq<Field>)
    requires Plain(a) && Plain(b) && Plain(c)
    ensures Plain(a + b + c)
  {
    PlainConcat(a, b);
    PlainConcat(a + b, c);
  }

  lemma Plain4(a: seq<Field>, b: seq<Field>, c: seq<Field>, d: seq<Field>)
    requires Plain(a) && Plain(b) && Plain(c) && Plain(d)
    ensures Plain(a + b + c + d)
  {
    Plain3(a, b, c);
    PlainConcat(a + b + c, d);
  }

  lemma PlainFits(fs: seq<Field>)
    requires Plain(fs) && |FieldsBytes(fs)| < TWO64
    ensures forall f | f in fs :: f.Fits()
  {
    BlobsFit(fs);
  }

  /** Printing fields that fit in a buffer and decoding the buffer folds over exactly those fields. */
  lemma DecodePrinted<M>(apply: (M, Field) -> M, m: M, fs: seq<Field>)
    requires |FieldsBytes(fs)| < TWO64
    requires Plain(fs)
    ensures Decode(apply, m, FieldsBytes(fs)) == Some(Fold(apply, m, fs))
  {
    PlainFits(fs);
    FieldsRoundTrip(fs);
  }

  /** Parsing an envelope gives back its type and its one sub-message, empty or not. */
  lemma EnvelopeRoundTrip(kind: int, number: uint32, inner: seq<byte>, timestamp: uint64)
    requires -(TWO31 as int) <= kind < TWO31
    requires number in {FIELD_CLIPBOARD_DATA, FIELD_FILE_CHUNK_REQUEST, FIELD_FILE_CHUNK_DATA}
    requires |FieldsBytes(EnvelopeFields(kind, number, inner, timestamp))| < TWO64
    ensures Decode(ApplyHelper, NO_MESSAGE, FieldsBytes(EnvelopeFields(kind, number, inner, timestamp))) ==
            Some(ApplyHelper(NO_MESSAGE.(kind := kind), Field(number, Blob(inner))))
  {
    hide Fold, Decode;
    var fs := EnvelopeFields(kind, number, inner, timestamp);
    DecodePrinted(ApplyHelper, NO_MESSAGE, fs);
    Int32RoundTrip(kind, []);
    VarintRoundTrip(SignExtend(kind), []);
    Fold3(ApplyHelper, NO_MESSAGE, OptNumber(FIELD_TYPE, SignExtend(kind)), [Field(number, Blob(inner))],
          OptNumber(FIELD_TIMESTAMP, timestamp));
    var m1 := NO_MESSAGE.(kind := kind);
    FoldOptNumber(ApplyHelper, NO_MESSAGE, FIELD_TYPE, SignExtend(kind));
    FoldOne(ApplyHelper, m1, Field(number, Blob(inner)));
    FoldOptNumber(ApplyHelper, ApplyHelper(m1, Field(number, Blob(inner))), FIELD_TIMESTAMP, timestamp);
  }

  lemma ChunkRequestPlain(m: FileChunkRequest)
    ensures Plain(ChunkRequestFields(m))
  {
    PlainOpt(REQ_TRANSFER_ID, 0, m.transferId);
    PlainOpt(REQ_FILE_ID, 0, m.fileId);
    PlainOpt(REQ_OFFSET, m.offset, []);
    PlainOpt(REQ_SIZE, m.size, []);
    Plain4(OptBlob(REQ_TRANSFER_ID, m.transferId), OptBlob(REQ_FILE_ID, m.fileId),
           OptNumber(REQ_OFFSET, m.offset), OptNumber(REQ_SIZE, m.size));
  }

  lemma ChunkDataPlain(m: FileChunkData)
    ensures Plain(ChunkDataFields(m))
  {
    PlainOpt(DATA_TRANSFER_ID, 0, m.transferId);
    PlainOpt(DATA_FILE_ID, 0, m.fileId);
    PlainOpt(DATA_OFFSET, m.offset, []);
    PlainOpt(DATA_DATA, 0, m.data);
    PlainOpt(DATA_IS_LAST, Bit(m.isLast), []);
    PlainOpt(DATA_ERROR, 0, m.error);
    Plain4(OptBlob(DATA_TRANSFER_ID, m.transferId), OptBlob(DATA_FILE_ID, m.fileId),
           OptNumber(DATA_OFFSET, m.offset), OptBlob(DATA_DATA, m.data));
    Plain3(ChunkDataHead(m), OptNumber(DATA_IS_LAST, Bit(m.isLast)), OptBlob(DATA_ERROR, m.error));
  }

  lemma ChunkRequestFold(m: FileChunkRequest)
    ensures Fold(ApplyChunkRequest, NO_CHUNK_REQUEST, ChunkRequestFields(m)) == m
  {
    hide Fold, Decode;
    var m1 := NO_CHUNK_REQUEST.(transferId := m.transferId);
    var m2 := m1.(fileId := m.fileId);
    Fold4(ApplyChunkRequest, NO_CHUNK_REQUEST, OptBlob(REQ_TRANSFER_ID, m.transferId), OptBlob(REQ_FILE_ID, m.fileId),
          OptNumber(REQ_OFFSET, m.offset), OptNumber(REQ_SIZE, m.size));
    FoldOptBlob(ApplyChunkRequest, NO_CHUNK_REQUEST, REQ_TRANSFER_ID, m.transferId);
    FoldOptBlob(ApplyChunkRequest, m1, REQ_FILE_ID, m.fileId);
    FoldOptNumber(ApplyChunkRequest, m2, REQ_OFFSET, m.offset);
    FoldOptNumber(ApplyChunkRequest, m2.(offset := m.offset), REQ_SIZE, m.size);
  }

  /** One message kind's round trip, from its fields alone. */
  lemma InnerRoundTrip<M>(apply: (M, Field) -> M, init: M, fs: seq<Field>, m: M)
    requires Plain(fs) && |FieldsBytes(fs)| < TWO64 && Fold(apply, init, fs) == m
    ensures Decode(apply, init, FieldsBytes(fs)) == Some(m)
  {
    DecodePrinted(apply, init, fs);
  }

  lemma ChunkDataHeadFold(m: FileChunkData)
    ensures Fold(ApplyChunkData, NO_CHUNK_DATA, ChunkDataHead(m)) == m.(isLast := false, error := [])
  {
    hide Fold, Decode;
    var m1 := NO_CHUNK_DATA.(transferId := m.transferId);
    var m2 := m1.(fileId := m.fileId);
    var m3 := m2.(offset := m.offset);
    Fold4(ApplyChunkData, NO_CHUNK_DATA, OptBlob(DATA_TRANSFER_ID, m.transferId), OptBlob(DATA_FILE_ID, m.fileId),
          OptNumber(DATA_OFFSET, m.offset), OptBlob(DATA_DATA, m.data));
    FoldOptBlob(ApplyChunkData, NO_CHUNK_DATA, DATA_TRANSFER_ID, m.transferId);
    FoldOptBlob(ApplyChunkData, m1, DATA_FILE_ID, m.fileId);
    FoldOptNumber(ApplyChunkData, m2, DATA_OFFSET, m.offset);
    FoldOptBlob(ApplyChunkData, m3, DATA_DATA, m.data);
  }

  lemma ChunkDataFold(m: FileChunkData)
    ensures Fold(ApplyChunkData, NO_CHUNK_DATA, ChunkDataFields(m)) == m
  {
    hide Fold, Decode;
    var m4 := m.(isLast := false, error := []);
    var m5 := m4.(isLast := m.isLast);
    ChunkDataHeadFold(m);
    Fold3(ApplyChunkData, NO_CHUNK_DATA, ChunkDataHead(m), OptNumber(DATA_IS_LAST, Bit(m.isLast)),
          OptBlob(DATA_ERROR, m.error));
    FoldOptNumber(ApplyChunkData, m4, DATA_IS_LAST, Bit(m.isLast));
    FoldOptBlob(ApplyChunkData, m5, DATA_ERROR, m.error);
  }

  lemma InnerFits(kind: int, number: uint32, inner: seq<byte>, timestamp: uint64)
    requires -(TWO31 as int) <= kind < TWO31
    requires |FieldsBytes(EnvelopeFields(kind, number, inner, timestamp))| < TWO64
    ensures |inner| < TWO64
  {
    BlobsFit(EnvelopeFields(kind, number, inner, timestamp));
    assert Field(number, Blob(inner)) in EnvelopeFields(kind, number, inner, timestamp);
  }

  lemma ChunkRequestInner(m: FileChunkRequest)
    requires |FieldsBytes(ChunkRequestFields(m))| < TWO64
    ensures Decode(ApplyChunkRequest, NO_CHUNK_REQUEST, FieldsBytes(ChunkRequestFields(m))) == Some(m)
  {
    ChunkRequestPlain(m);
    ChunkRequestFold(m);
    InnerRoundTrip(ApplyChunkRequest, NO_CHUNK_REQUEST, ChunkRequestFields(m), m);
  }

  lemma ChunkDataInner(m: FileChunkData)
    requires |FieldsBytes(ChunkDataFields(m))| < TWO64
    ensures Decode(ApplyChunkData, NO_CHUNK_DATA, FieldsBytes(ChunkDataFields(m))) == Some(m)
  {
    ChunkDataPlain(m);
    ChunkDataFold(m);
    InnerRoundTrip(ApplyChunkData, NO_CHUNK_DATA, ChunkDataFields(m), m);
  }

  /** A FILE_CHUNK_REQUEST frame: outer parse, then inner parse, gives the request back. */
  lemma FileChunkRequestRoundTrip(m: FileChunkRequest, timestamp: uint64)
    requires |ChunkRequestFrame(m, timestamp)| < TWO64
    ensures var outer := Decode(ApplyHelper, NO_MESSAGE, ChunkRequestFrame(m, timestamp));
            outer.Some? && outer.value.kind == FILE_CHUNK_REQUEST && outer.value.fileChunkRequest.Some? &&
            Decode(ApplyChunkRequest, NO_CHUNK_REQUEST, outer.value.fileChunkRequest.value) == Some(m)
  {
    hide Fold, Decode;
    var inner := FieldsBytes(ChunkRequestFields(m));
    InnerFits(FILE_CHUNK_REQUEST, FIELD_FILE_CHUNK_REQUEST, inner, timestamp);
    ChunkRequestInner(m);
    EnvelopeRoundTrip(FILE_CHUNK_REQUEST, FIELD_FILE_CHUNK_REQUEST, inner, timestamp);
  }

  /** A FILE_CHUNK_DATA frame: every id, offset, payload, flag and error text survives both parses. */
  lemma FileChunkDataRoundTrip(m: FileChunkData, timestamp: uint64)
    requires |ChunkDataFrame(m, timestamp)| < TWO64
    ensures var outer := Decode(ApplyHelper, NO_MESSAGE, ChunkDataFrame(m, timestamp));
            outer.Some? && outer.value.kind == FILE_CHUNK_DATA && outer.value.fileChunkData.Some? &&
            Decode(ApplyChunkData, NO_CHUNK_DATA, outer.value.fileChunkData.value) == Some(m)
  {
    hide Fold, Decode;
    var inner := FieldsBytes(ChunkDataFields(m));
    InnerFits(FILE_CHUNK_DATA, FIELD_FILE_CHUNK_DATA, inner, timestamp);
    ChunkDataInner(m);
    EnvelopeRoundTrip(FILE_CHUNK_DATA, FIELD_FILE_CHUNK_DATA, inner, timestamp);
  }

  // ------------------------------------------------- clipboard snapshots

  /** A file on disk: its path, its base name and its size as the system reports them. */
  datatype PathEntry = PathEntry(path: Text, base: Text, size: uint64)
  datatype VirtualFileEntry = VirtualFileEntry(name: Text, size: uint64)

  datatype Snapshot =
    | EmptySnapshot
    | TextSnapshot(utf8: Text)
    | ImageSnapshot(png: Text)
    | FilesSnapshot(paths: seq<PathEntry>, virtualFiles: seq<VirtualFileEntry>)
  {
    function ContentType(): uint32 {
      match this
      case EmptySnapshot => 0
      case TextSnapshot(_) => 1
      case ImageSnapshot(_) => 2
      case FilesSnapshot(_, _) => 3
    }

    function Payload(): Text {
      match this
      case TextSnapshot(t) => t
      case ImageSnapshot(p) => p
      case _ => []
    }
  }

  function PathFields(i: nat, e: PathEntry): seq<Field> {
    OptBlob(FM_FILE_ID, Decimal(i % TWO32)) + OptBlob(FM_FILENAME, e.base) +
    OptBlob(FM_RELATIVE_PATH, e.path) + OptNumber(FM_FILE_SIZE, e.size)
  }

  function VirtualFields(i: nat, e: VirtualFileEntry): seq<Field> {
    OptBlob(FM_FILE_ID, Decimal(i % TWO32)) + OptBlob(FM_FILENAME, e.name) + OptNumber(FM_FILE_SIZE, e.size)
  }

  /** The `files` sub-messages, on-disk files first. */
  function FileEntries(s: Snapshot): seq<Text> {
    if s.FilesSnapshot? then
      seq(|s.paths|, i requires 0 <= i < |s.paths| => FieldsBytes(PathFields(i, s.paths[i]))) +
      seq(|s.virtualFiles|, i requires 0 <= i < |s.virtualFiles| => FieldsBytes(VirtualFields(i, s.virtualFiles[i])))
    else []
  }

  function Repeated(number: uint32, blobs: seq<Text>): seq<Field> {
    seq(|blobs|, i requires 0 <= i < |blobs| => Field(number, Blob(blobs[i])))
  }

  function SnapshotFields(s: Snapshot): seq<Field> {
    OptNumber(CD_CONTENT_TYPE, s.ContentType()) + OptBlob(CD_PAYLOAD, s.Payload()) + Repeated(CD_FILES, FileEntries(s))
  }

  function ClipboardFrame(kind: int, s: Snapshot, timestamp: uint64): seq<byte>
    requires -(TWO31 as int) <= kind < TWO31
  {
    FieldsBytes(EnvelopeFields(kind, FIELD_CLIPBOARD_DATA, FieldsBytes(SnapshotFields(s)), timestamp))
  }

  method EncodeFileMetadata(i: nat, e: PathEntry) returns (entry: seq<byte>)
    requires |FieldsBytes(PathFields(i, e))| < TWO64
    ensures entry == FieldsBytes(PathFields(i, e))
  {
    BlobsFit(PathFields(i, e));
    OptBlobSmall(FM_FILE_ID, Decimal(i % TWO32), PathFields(i, e));
    OptBlobSmall(FM_FILENAME, e.base, PathFields(i, e));
    OptBlobSmall(FM_RELATIVE_PATH, e.path, PathFields(i, e));
    var w := new Writer();
    w.WriteBytesField(FM_FILE_ID, Decimal(i % TWO32));
    w.WriteBytesField(FM_FILENAME, e.base);
    w.WriteBytesField(FM_RELATIVE_PATH, e.path);
    w.WriteUint64Field(FM_FILE_SIZE, e.size);
    assert w.fields == PathFields(i, e);
    return w.buf;
  }

  method EncodeVirtualFileMetadata(i: nat, e: VirtualFileEntry) returns (entry: seq<byte>)
    requires |FieldsBytes(VirtualFields(i, e))| < TWO64
    ensures entry == FieldsBytes(VirtualFields(i, e))
  {
    BlobsFit(VirtualFields(i, e));
    OptBlobSmall(FM_FILE_ID, Decimal(i % TWO32), VirtualFields(i, e));
    OptBlobSmall(FM_FILENAME, e.name, VirtualFields(i, e));
    var w := new Writer();
    w.WriteBytesField(FM_FILE_ID, Decimal(i % TWO32));
    w.WriteBytesField(FM_FILENAME, e.name);
    w.WriteUint64Field(FM_FILE_SIZE, e.size);
    assert w.fields == VirtualFields(i, e);
    return w.buf;
  }

  lemma EntryOfPath(s: Snapshot, i: nat)
    requires s.FilesSnapshot? && i < |s.paths|
    ensures |FileEntries(s)| == |s.paths| + |s.virtualFiles|
    ensures FileEntries(s)[i] == FieldsBytes(PathFields(i, s.paths[i]))
  {
  }

  lemma EntryOfVirtual(s: Snapshot, j: nat)
    requires s.FilesSnapshot? && j < |s.virtualFiles|
    ensures |FileEntries(s)| == |s.paths| + |s.virtualFiles|
    ensures FileEntries(s)[|s.paths| + j] == FieldsBytes(VirtualFields(j, s.virtualFiles[j]))
  {
  }

  /** The Files branch: one sub-message per on-disk file, then one per virtual file. */
  method WriteFiles(w: Writer, s: Snapshot)
    requires s.FilesSnapshot? && w.Valid()
    requires forall i | 0 <= i < |FileEntries(s)| :: |FileEntries(s)[i]| < TWO64
    modifies w
    ensures w.Valid() && w.fields == old(w.fields) + Repeated(CD_FILES, FileEntries(s))
  {
    hide Repeated, FieldsBytes;
    ghost var entries := FileEntries(s);
    NoneRepeated(w.fields, entries);
    var i := 0;
    while i < |s.paths|
      invariant w.Valid() && 0 <= i <= |s.paths|
      invariant w.fields == old(w.fields) + Repeated(CD_FILES, entries[..i])
    {
      EntryOfPath(s, i);
      var entry := EncodeFileMetadata(i, s.paths[i]);
      w.WriteSubMessageField(CD_FILES, entry);
      RepeatedNext(old(w.fields), entries, i);
      i := i + 1;
    }
    WriteVirtualFiles(w, s, old(w.fields));
    assert entries[..|s.paths| + |s.virtualFiles|] == entries;
  }

  method WriteVirtualFiles(w: Writer, s: Snapshot, ghost base: seq<Field>)
    requires s.FilesSnapshot? && w.Valid()
    requires forall i | 0 <= i < |FileEntries(s)| :: |FileEntries(s)[i]| < TWO64
    requires w.fields == base + Repeated(CD_FILES, FileEntries(s)[..|s.paths|])
    modifies w
    ensures w.Valid()
    ensures w.fields == base + Repeated(CD_FILES, FileEntries(s)[..|s.paths| + |s.virtualFiles|])
  {
    hide Repeated, FieldsBytes;
    ghost var entries := FileEntries(s);
    var j := 0;
    while j < |s.virtualFiles|
      invariant w.Valid() && 0 <= j <= |s.virtualFiles|
      invariant w.fields == base + Repeated(CD_FILES, entries[..|s.paths| + j])
    {
      EntryOfVirtual(s, j);
      var entry := EncodeVirtualFileMetadata(j, s.virtualFiles[j]);
      w.WriteSubMessageField(CD_FILES, entry);
      RepeatedNext(base, entries, |s.paths| + j);
      j := j + 1;
    }
  }

  lemma NoneRepeated(base: seq<Field>, entries: seq<Text>)
    ensures base + Repeated(CD_FILES, entries[..0]) == base
  {
    assert Repeated(CD_FILES, entries[..0]) == [];
  }

  lemma RepeatedNext(base: seq<Field>, entries: seq<Text>, i: nat)
    requires i < |entries|
    ensures base + Repeated(CD_FILES, entries[..i + 1]) ==
            base + Repeated(CD_FILES, entries[..i]) + [Field(CD_FILES, Blob(entries[i]))]
  {
    assert Repeated(CD_FILES, entries[..i + 1]) ==
           Repeated(CD_FILES, entries[..i]) + [Field(CD_FILES, Blob(entries[i]))];
  }

  lemma SnapshotSmall(s: Snapshot)
    requires |FieldsBytes(SnapshotFields(s))| < TWO64
    ensures |s.Payload()| < TWO64
    ensures forall i | 0 <= i < |FileEntries(s)| :: |FileEntries(s)[i]| < TWO64
  {
    var all := SnapshotFields(s);
    BlobsFit(all);
    OptBlobSmall(CD_PAYLOAD, s.Payload(), all);
    forall i | 0 <= i < |FileEntries(s)| ensures |FileEntries(s)[i]| < TWO64 {
      assert Repeated(CD_FILES, FileEntries(s))[i] in all;
    }
  }

  method EncodeClipboardData(s: Snapshot) returns (inner: seq<byte>)
    requires |FieldsBytes(SnapshotFields(s))| < TWO64
    ensures inner == FieldsBytes(SnapshotFields(s))
  {
    SnapshotSmall(s);
    var w := new Writer();
    w.WriteInt32Field(CD_CONTENT_TYPE, s.ContentType());
    match s {
      case EmptySnapshot =>
      case TextSnapshot(t) => w.WriteBytesField(CD_PAYLOAD, t);
      case ImageSnapshot(p) => w.WriteBytesField(CD_PAYLOAD, p);
      case FilesSnapshot(_, _) => WriteFiles(w, s);
    }
    assert w.fields == SnapshotFields(s);
    return w.buf;
  }

  lemma {:induction false} FoldRepeated(m: ClipboardData, blobs: seq<Text>)
    ensures Fold(ApplyClipboardData, m, Repeated(CD_FILES, blobs)) == m.(files := m.files + blobs)
    decreases |blobs|
  {
    var fs := Repeated(CD_FILES, blobs);
    if blobs == [] {
      assert m.files + [] == m.files;
    } else {
      var init := blobs[..|blobs| - 1];
      FoldRepeated(m, init);
      assert fs[..|fs| - 1] == Repeated(CD_FILES, init);
      assert m.files + init + [blobs[|blobs| - 1]] == m.files + blobs;
    }
  }

  lemma ClipboardFieldsFold(t: uint32, payload: Text, files: seq<Text>)
    requires t < TWO31
    ensures Fold(ApplyClipboardData, NO_CLIPBOARD_DATA,
                 OptNumber(CD_CONTENT_TYPE, t) + OptBlob(CD_PAYLOAD, payload) + Repeated(CD_FILES, files)) ==
            ClipboardData(t, payload, files)
  {
    hide Fold, Decode;
    var m1, m2 := ClipboardData(t, [], []), ClipboardData(t, payload, []);
    Fold3(ApplyClipboardData, NO_CLIPBOARD_DATA, OptNumber(CD_CONTENT_TYPE, t), OptBlob(CD_PAYLOAD, payload),
          Repeated(CD_FILES, files));
    FoldOptNumber(ApplyClipboardData, NO_CLIPBOARD_DATA, CD_CONTENT_TYPE, t);
    FoldOptBlob(ApplyClipboardData, m1, CD_PAYLOAD, payload);
    FoldRepeated(m2, files);
    assert [] + files == files;
  }

  lemma SnapshotFold(s: Snapshot)
    ensures Fold(ApplyClipboardData, NO_CLIPBOARD_DATA, SnapshotFields(s)) ==
            ClipboardData(s.ContentType(), s.Payload(), FileEntries(s))
  {
    ClipboardFieldsFold(s.ContentType(), s.Payload(), FileEntries(s));
  }

  lemma SnapshotPlain(s: Snapshot)
    ensures Plain(SnapshotFields(s))
  {
    PlainOpt(CD_CONTENT_TYPE, s.ContentType(), []);
    PlainOpt(CD_PAYLOAD, 0, s.Payload());
    Plain3(OptNumber(CD_CONTENT_TYPE, s.ContentType()), OptBlob(CD_PAYLOAD, s.Payload()),
           Repeated(CD_FILES, FileEntries(s)));
  }

  lemma VirtualFieldsPlain(i: nat, e: VirtualFileEntry)
    ensures Plain(VirtualFields(i, e))
  {
    PlainOpt(FM_FILE_ID, 0, Decimal(i % TWO32));
    PlainOpt(FM_FILENAME, 0, e.name);
    PlainOpt(FM_FILE_SIZE, e.size, []);
    Plain3(OptBlob(FM_FILE_ID, Decimal(i % TWO32)), OptBlob(FM_FILENAME, e.name), OptNumber(FM_FILE_SIZE, e.size));
  }

  lemma VirtualEntryDecoded(i: nat, e: VirtualFileEntry)
    requires |FieldsBytes(VirtualFields(i, e))| < TWO64
    ensures Decode(ApplyMetadata, NO_METADATA, FieldsBytes(VirtualFields(i, e))) ==
            Some(FileMetadata(Decimal(i % TWO32), e.name, [], e.size, false))
  {
    hide Fold, FieldsBytes, Decimal;
    var m1 := NO_METADATA.(fileId := Decimal(i % TWO32));
    var m2 := m1.(filename := e.name);
    VirtualFieldsPlain(i, e);
    DecodePrinted(ApplyMetadata, NO_METADATA, VirtualFields(i, e));
    Fold3(ApplyMetadata, NO_METADATA, OptBlob(FM_FILE_ID, Decimal(i % TWO32)), OptBlob(FM_FILENAME, e.name),
          OptNumber(FM_FILE_SIZE, e.size));
    FoldOptBlob(ApplyMetadata, NO_METADATA, FM_FILE_ID, Decimal(i % TWO32));
    FoldOptBlob(ApplyMetadata, m1, FM_FILENAME, e.name);
    FoldOptNumber(ApplyMetadata, m2, FM_FILE_SIZE, e.size);
  }

  /** A virtual-file entry reads back as its name, size and decimal index, unless the name is empty. */
  lemma VirtualEntryRoundTrip(i: nat, e: VirtualFileEntry)
    requires |FieldsBytes(VirtualFields(i, e))| < TWO64
    ensures SpecOfBytes(FieldsBytes(VirtualFields(i, e))) ==
            if e.name == [] then None else Some(VirtualFileSpec(e.name, e.size, Decimal(i % TWO32), false))
  {
    hide Decode, FieldsBytes;
    VirtualEntryDecoded(i, e);
  }

  lemma PathFieldsPlain(i: nat, e: PathEntry)
    ensures Plain(PathFields(i, e))
  {
    PlainOpt(FM_FILE_ID, 0, Decimal(i % TWO32));
    PlainOpt(FM_FILENAME, 0, e.base);
    PlainOpt(FM_RELATIVE_PATH, 0, e.path);
    PlainOpt(FM_FILE_SIZE, e.size, []);
    Plain4(OptBlob(FM_FILE_ID, Decimal(i % TWO32)), OptBlob(FM_FILENAME, e.base),
           OptBlob(FM_RELATIVE_PATH, e.path), OptNumber(FM_FILE_SIZE, e.size));
  }

  lemma PathEntryDecoded(i: nat, e: PathEntry)
    requires |FieldsBytes(PathFields(i, e))| < TWO64
    ensures Decode(ApplyMetadata, NO_METADATA, FieldsBytes(PathFields(i, e))) ==
            Some(FileMetadata(Decimal(i % TWO32), e.base, e.path, e.size, false))
  {
    hide Fold, FieldsBytes, Decimal;
    var fs := PathFields(i, e);
    var m1 := NO_METADATA.(fileId := Decimal(i % TWO32));
    var m2 := m1.(filename := e.base);
    var m3 := m2.(relativePath := e.path);
    PathFieldsPlain(i, e);
    DecodePrinted(ApplyMetadata, NO_METADATA, fs);
    Fold4(ApplyMetadata, NO_METADATA, OptBlob(FM_FILE_ID, Decimal(i % TWO32)), OptBlob(FM_FILENAME, e.base),
          OptBlob(FM_RELATIVE_PATH, e.path), OptNumber(FM_FILE_SIZE, e.size));
    FoldOptBlob(ApplyMetadata, NO_METADATA, FM_FILE_ID, Decimal(i % TWO32));
    FoldOptBlob(ApplyMetadata, m1, FM_FILENAME, e.base);
    FoldOptBlob(ApplyMetadata, m2, FM_RELATIVE_PATH, e.path);
    FoldOptNumber(ApplyMetadata, m3, FM_FILE_SIZE, e.size);
  }

  /** An on-disk entry reads back under its full path, which is also what ExtractRelativePath finds. */
  lemma PathEntryRoundTrip(i: nat, e: PathEntry)
    requires e.path != [] && |FieldsBytes(PathFields(i, e))| < TWO64
    ensures SpecOfBytes(FieldsBytes(PathFields(i, e))) ==
            Some(VirtualFileSpec(e.path, e.size, Decimal(i % TWO32), false))
  {
    hide Decode, FieldsBytes;
    PathEntryDecoded(i, e);
  }

  lemma PathEntryFirstPath(i: nat, e: PathEntry)
    requires e.path != [] && |FieldsBytes(PathFields(i, e))| < TWO64
    ensures FirstRelativePath(FieldsBytes(PathFields(i, e))) == Some(e.path)
  {
    var fs := PathFields(i, e);
    PathFieldsPlain(i, e);
    PlainFits(fs);
    FieldsRoundTrip(fs);
    FirstWins(FieldsBytes(fs));
    FirstBlobFront(OptBlob(FM_FILE_ID, Decimal(i % TWO32)) + OptBlob(FM_FILENAME, e.base), e.path,
                   OptNumber(FM_FILE_SIZE, e.size));
  }

  lemma FirstBlobFront(front: seq<Field>, path: Text, back: seq<Field>)
    requires path != []
    requires forall i | 0 <= i < |front| :: front[i].number != FM_RELATIVE_PATH
    ensures FirstBlob(front + OptBlob(FM_RELATIVE_PATH, path) + back, FM_RELATIVE_PATH) == Some(path)
  {
    var fs := front + OptBlob(FM_RELATIVE_PATH, path) + back;
    assert fs[|front|] == Field(FM_RELATIVE_PATH, Blob(path));
    FirstBlobAt(fs, FM_RELATIVE_PATH, |front|);
  }

  lemma {:induction false} FirstBlobAt(fs: seq<Field>, number: nat, k: nat)
    requires k < |fs| && fs[k].number == number && fs[k].payload.Blob?
    requires forall i | 0 <= i < k :: fs[i].number != number
    ensures FirstBlob(fs, number) == Some(fs[k].payload.data)
    decreases k
  {
    if k > 0 {
      FirstBlobAt(fs[1..], number, k - 1);
    }
  }

  /** A clipboard-changed (or clipboard-content) frame gives back its type, payload and files, in order. */
  lemma ClipboardFrameRoundTrip(kind: int, s: Snapshot, timestamp: uint64)
    requires -(TWO31 as int) <= kind < TWO31
    requires |ClipboardFrame(kind, s, timestamp)| < TWO64
    ensures var outer := Decode(ApplyHelper, NO_MESSAGE, ClipboardFrame(kind, s, timestamp));
            outer.Some? && outer.value.kind == kind && outer.value.clipboardData.Some? &&
            Decode(ApplyClipboardData, NO_CLIPBOARD_DATA, outer.value.clipboardData.value) ==
            Some(ClipboardData(s.ContentType(), s.Payload(), FileEntries(s)))
  {
    var inner := FieldsBytes(SnapshotFields(s));
    var env := EnvelopeFields(kind, FIELD_CLIPBOARD_DATA, inner, timestamp);
    BlobsFit(env);
    assert Field(FIELD_CLIPBOARD_DATA, Blob(inner)) in env;
    EnvelopeRoundTrip(kind, FIELD_CLIPBOARD_DATA, inner, timestamp);
    SnapshotPlain(s);
    SnapshotFold(s);
    InnerRoundTrip(ApplyClipboardData, NO_CLIPBOARD_DATA, SnapshotFields(s),
                   ClipboardData(s.ContentType(), s.Payload(), FileEntries(s)));
  }

  /** What the parent reads, constructor by constructor: an empty clipboard, text as its UTF-8 bytes, an image as its PNG
      bytes, and for files one entry each, files on disk first. */
  lemma SnapshotReadBack(kind: int, s: Snapshot, timestamp: uint64)
    requires -(TWO31 as int) <= kind < TWO31
    requires |ClipboardFrame(kind, s, timestamp)| < TWO64
    ensures var outer := Decode(ApplyHelper, NO_MESSAGE, ClipboardFrame(kind, s, timestamp));
            outer.Some? && outer.value.kind == kind && outer.value.clipboardData.Some? &&
            var d := Decode(ApplyClipboardData, NO_CLIPBOARD_DATA, outer.value.clipboardData.value);
            match s
            case EmptySnapshot => d == Some(ClipboardData(0, [], []))
            case TextSnapshot(t) => d == Some(ClipboardData(1, t, []))
            case ImageSnapshot(p) => d == Some(ClipboardData(2, p, []))
            case FilesSnapshot(paths, virtuals) =>
              d.Some? && d.value.contentType == 3 && d.value.payload == [] &&
              |d.value.files| == |paths| + |virtuals| &&
              (forall i | 0 <= i < |paths| ::
                 Decode(ApplyMetadata, NO_METADATA, d.value.files[i]) ==
                 Some(FileMetadata(Decimal(i % TWO32), paths[i].base, paths[i].path, paths[i].size, false))) &&
              (forall i | 0 <= i < |virtuals| ::
                 Decode(ApplyMetadata, NO_METADATA, d.value.files[|paths| + i]) ==
                 Some(FileMetadata(Decimal(i % TWO32), virtuals[i].name, [], virtuals[i].size, false)))
  {
    ClipboardFrameRoundTrip(kind, s, timestamp);
    ClipboardInnerSmall(kind, s, timestamp);
    if s.FilesSnapshot? {
      SnapshotSmall(s);
      forall i | 0 <= i < |s.paths|
        ensures Decode(ApplyMetadata, NO_METADATA, FileEntries(s)[i]) ==
                Some(FileMetadata(Decimal(i % TWO32), s.paths[i].base, s.paths[i].path, s.paths[i].size, false))
      {
        EntryOfPath(s, i);
        PathEntryDecoded(i, s.paths[i]);
      }
      forall i | 0 <= i < |s.virtualFiles|
        ensures Decode(ApplyMetadata, NO_METADATA, FileEntries(s)[|s.paths| + i]) ==
                Some(FileMetadata(Decimal(i % TWO32), s.virtualFiles[i].name, [], s.virtualFiles[i].size, false))
      {
        EntryOfVirtual(s, i);
        VirtualEntryDecoded(i, s.virtualFiles[i]);
      }
    }
  }

  lemma ClipboardInnerSmall(kind: int, s: Snapshot, timestamp: uint64)
    requires -(TWO31 as int) <= kind < TWO31
    requires |ClipboardFrame(kind, s, timestamp)| < TWO64
    ensures |FieldsBytes(SnapshotFields(s))| < TWO64
  {
    InnerFits(kind, FIELD_CLIPBOARD_DATA, FieldsBytes(SnapshotFields(s)), timestamp);
  }

  // ------------------------------------------------------- on the wire

  /** A field that is left out when it holds its default. */
  ghost function Unless(default: bool, number: nat, payload: Payload): seq<Field> {
    if default then [] else [Field(number, payload)]
  }

  /** The fields of a frame by number: 1 the message type, `number` the sub-message even when empty, 7 the timestamp. */
  lemma EnvelopeOnWire(kind: int, number: uint32, inner: seq<byte>, timestamp: uint64)
    requires 0 < kind < TWO31 && number < 100
    requires |FieldsBytes(EnvelopeFields(kind, number, inner, timestamp))| < TWO64
    ensures ScanFields(FieldsBytes(EnvelopeFields(kind, number, inner, timestamp))) ==
            Some([Field(1, Number(kind))] + [Field(number, Blob(inner))] + Unless(timestamp == 0, 7, Number(timestamp)))
  {
    PlainFits(EnvelopeFields(kind, number, inner, timestamp));
    FieldsRoundTrip(EnvelopeFields(kind, number, inner, timestamp));
  }

  /** A FILE_CHUNK_REQUEST frame: type 15, sub-message 8 with ids 1 and 2, offset 3 and size 4. */
  lemma ChunkRequestOnWire(m: FileChunkRequest, timestamp: uint64) returns (inner: seq<byte>)
    requires |ChunkRequestFrame(m, timestamp)| < TWO64
    ensures ScanFields(ChunkRequestFrame(m, timestamp)) ==
            Some([Field(1, Number(15))] + [Field(8, Blob(inner))] + Unless(timestamp == 0, 7, Number(timestamp)))
    ensures ScanFields(inner) ==
            Some(Unless(m.transferId == [], 1, Blob(m.transferId)) + Unless(m.fileId == [], 2, Blob(m.fileId)) +
                 Unless(m.offset == 0, 3, Number(m.offset)) + Unless(m.size == 0, 4, Number(m.size)))
  {
    inner := FieldsBytes(ChunkRequestFields(m));
    InnerFits(FILE_CHUNK_REQUEST, FIELD_FILE_CHUNK_REQUEST, inner, timestamp);
    EnvelopeOnWire(FILE_CHUNK_REQUEST, FIELD_FILE_CHUNK_REQUEST, inner, timestamp);
    ChunkRequestPlain(m);
    PlainFits(ChunkRequestFields(m));
    FieldsRoundTrip(ChunkRequestFields(m));
  }

  /** A FILE_CHUNK_DATA frame: type 16, sub-message 9 with ids 1 and 2, offset 3, data 4, last flag 5 and error 6. */
  lemma ChunkDataOnWire(m: FileChunkData, timestamp: uint64) returns (inner: seq<byte>)
    requires |ChunkDataFrame(m, timestamp)| < TWO64
    ensures ScanFields(ChunkDataFrame(m, timestamp)) ==
            Some([Field(1, Number(16))] + [Field(9, Blob(inner))] + Unless(timestamp == 0, 7, Number(timestamp)))
    ensures ScanFields(inner) ==
            Some(Unless(m.transferId == [], 1, Blob(m.transferId)) + Unless(m.fileId == [], 2, Blob(m.fileId)) +
                 Unless(m.offset == 0, 3, Number(m.offset)) + Unless(m.data == [], 4, Blob(m.data)) +
                 Unless(!m.isLast, 5, Number(1)) + Unless(m.error == [], 6, Blob(m.error)))
  {
    inner := FieldsBytes(ChunkDataFields(m));
    InnerFits(FILE_CHUNK_DATA, FIELD_FILE_CHUNK_DATA, inner, timestamp);
    EnvelopeOnWire(FILE_CHUNK_DATA, FIELD_FILE_CHUNK_DATA, inner, timestamp);
    ChunkDataPlain(m);
    PlainFits(ChunkDataFields(m));
    FieldsRoundTrip(ChunkDataFields(m));
  }

  /** A snapshot: content type 1, payload 2, and a field 4 for each file. */
  lemma SnapshotOnWire(s: Snapshot)
    requires |FieldsBytes(SnapshotFields(s))| < TWO64
    ensures ScanFields(FieldsBytes(SnapshotFields(s))) ==
            Some(Unless(s.ContentType() == 0, 1, Number(s.ContentType())) +
                 Unless(s.Payload() == [], 2, Blob(s.Payload())) +
                 seq(|FileEntries(s)|, i requires 0 <= i < |FileEntries(s)| => Field(4, Blob(FileEntries(s)[i]))))
  {
    hide FieldsBytes, ScanFields, Decimal, FileEntries;
    SnapshotPlain(s);
    PlainFits(SnapshotFields(s));
    FieldsRoundTrip(SnapshotFields(s));
    assert Repeated(4, FileEntries(s)) ==
           seq(|FileEntries(s)|, i requires 0 <= i < |FileEntries(s)| => Field(4, Blob(FileEntries(s)[i])));
  }

  /** The entry of a file on disk: its id 1 is its position, then name 2, path 3 and size 4. */
  lemma PathOnWire(s: Snapshot, i: nat)
    requires s.FilesSnapshot? && i < |s.paths| && |FieldsBytes(SnapshotFields(s))| < TWO64
    ensures |FileEntries(s)| == |s.paths| + |s.virtualFiles|
    ensures var e := s.paths[i];
            ScanFields(FileEntries(s)[i]) ==
            Some([Field(1, Blob(Decimal(i % TWO32)))] + Unless(e.base == [], 2, Blob(e.base)) +
                 Unless(e.path == [], 3, Blob(e.path)) + Unless(e.size == 0, 4, Number(e.size)))
  {
    SnapshotSmall(s);
    EntryOfPath(s, i);
    hide FieldsBytes, ScanFields, Decimal, FileEntries;
    PathFieldsPlain(i, s.paths[i]);
    PlainFits(PathFields(i, s.paths[i]));
    FieldsRoundTrip(PathFields(i, s.paths[i]));
  }

  /** The entry of a virtual file, behind those on disk: the same without a path. */
  lemma VirtualOnWire(s: Snapshot, i: nat)
    requires s.FilesSnapshot? && i < |s.virtualFiles| && |FieldsBytes(SnapshotFields(s))| < TWO64
    ensures |FileEntries(s)| == |s.paths| + |s.virtualFiles|
    ensures var e := s.virtualFiles[i];
            ScanFields(FileEntries(s)[|s.paths| + i]) ==
            Some([Field(1, Blob(Decimal(i % TWO32)))] + Unless(e.name == [], 2, Blob(e.name)) +
                 Unless(e.size == 0, 4, Number(e.size)))
  {
    SnapshotSmall(s);
    EntryOfVirtual(s, i);
    hide FieldsBytes, ScanFields, Decimal, FileEntries;
    VirtualFieldsPlain(i, s.virtualFiles[i]);
    PlainFits(VirtualFields(i, s.virtualFiles[i]));
    FieldsRoundTrip(VirtualFields(i, s.virtualFiles[i]));
  }

  /** Every virtual file of the snapshot reads back in its place; one without a name is refused by the reader. */
  lemma VirtualFilesRoundTrip(s: Snapshot, i: nat)
    requires s.FilesSnapshot? && i < |s.virtualFiles| && |FieldsBytes(SnapshotFields(s))| < TWO64
    ensures |FileEntries(s)| == |s.paths| + |s.virtualFiles|
    ensures SpecOfBytes(FileEntries(s)[|s.paths| + i]) ==
            var e := s.virtualFiles[i];
            if e.name == [] then None else Some(VirtualFileSpec(e.name, e.size, Decimal(i % TWO32), false))
  {
    SnapshotSmall(s);
    EntryOfVirtual(s, i);
    VirtualEntryRoundTrip(i, s.virtualFiles[i]);
  }

  /** Every file on disk reads back in its place, under its path. */
  lemma PathsRoundTrip(s: Snapshot, i: nat)
    requires s.FilesSnapshot? && i < |s.paths| && |FieldsBytes(SnapshotFields(s))| < TWO64
    requires s.paths[i].path != []
    ensures |FileEntries(s)| == |s.paths| + |s.virtualFiles|
    ensures SpecOfBytes(FileEntries(s)[i]) ==
            Some(VirtualFileSpec(s.paths[i].path, s.paths[i].size, Decimal(i % TWO32), false))
    ensures FirstRelativePath(FileEntries(s)[i]) == Some(s.paths[i].path)
  {
    SnapshotSmall(s);
    EntryOfPath(s, i);
    PathEntryRoundTrip(i, s.paths[i]);
    PathEntryFirstPath(i, s.paths[i]);
  }
}
