/** Shell clipboard layouts: the virtual-file descriptor array and the drop list, with the readers of both. */
module ShellLayouts {
  import opened Bytes
  import opened Layout

  /** A UTF-16 code unit. */
  type unit = x: int | 0 <= x < 0x1_0000

  const NUL: unit := 0
  const SLASH: unit := 47
  const BACKSLASH: unit := 92

  const MAX_PATH: nat := 260
  const MAX_SPECS: nat := 100000
  const MAX_INBOUND: nat := 100000
  const SLOT: nat := 592         // sizeof(FILEDESCRIPTORW)
  const FIRST_SLOT: nat := 4     // behind cItems
  const GROUP: nat := 596        // sizeof(FILEGROUPDESCRIPTORW), one slot included
  const SPEC_FLAGS: nat := 0x4064 // FD_FILESIZE | FD_ATTRIBUTES | FD_WRITESTIME | FD_PROGRESSUI

  datatype VirtualFileSpec = VirtualFileSpec(name: seq<unit>, size: uint64, isDirectory: bool)

  datatype VirtualFileEntry = VirtualFileEntry(name: seq<unit>, size: uint64, lindex: nat)

  // ------------------------------------------------------ names in UTF-16

  predicate High(u: unit) {
    0xD800 <= u <= 0xDBFF
  }

  predicate Low(u: unit) {
    0xDC00 <= u <= 0xDFFF
  }

  /** RFC 2781 section 2.1: surrogates come in pairs, the high one first. */
  predicate WellFormed(s: seq<unit>) {
    if s == [] then true
    else if Low(s[0]) then false
    else if High(s[0]) then |s| >= 2 && Low(s[1]) && WellFormed(s[2..])
    else WellFormed(s[1..])
  }

  /** How many units of a name fit in the name field, without half a surrogate pair. */
  function Kept(name: seq<unit>): (n: nat)
    ensures n <= |name| && n < MAX_PATH
  {
    var copy := Min(|name|, MAX_PATH - 1);
    if copy < |name| && copy > 0 && High(name[copy - 1]) then copy - 1 else copy
  }

  function Normalized(u: unit): unit {
    if u == SLASH then BACKSLASH else u
  }

  /** The name field up to its terminator: cut, with backslashes. */
  function Shown(name: seq<unit>): (s: seq<unit>)
    ensures |s| == Kept(name)
  {
    seq(Kept(name), j requires 0 <= j < Kept(name) => Normalized(name[j]))
  }

  function UpToNul(s: seq<unit>): seq<unit> {
    if s == [] || s[0] == NUL then [] else [s[0]] + UpToNul(s[1..])
  }

  lemma {:induction false} PrefixWellFormed(s: seq<unit>, k: nat)
    requires WellFormed(s) && k <= |s|
    ensures WellFormed(s[..k]) <==> k == 0 || !High(s[k - 1])
    decreases |s|
  {
    if k != 0 {
      var step := if High(s[0]) then 2 else 1;
      if k >= step {
        assert s[..k][step..] == s[step..][..k - step];
        PrefixWellFormed(s[step..], k - step);
        if k > step { assert s[step..][k - step - 1] == s[k - 1]; }
      }
    }
  }

  lemma {:induction false} NormalizedWellFormed(s: seq<unit>, t: seq<unit>)
    requires |t| == |s| && forall j | 0 <= j < |s| :: t[j] == Normalized(s[j])
    ensures WellFormed(t) <==> WellFormed(s)
    decreases |s|
  {
    if s != [] {
      NormalizedWellFormed(s[1..], t[1..]);
      if |s| >= 2 { NormalizedWellFormed(s[2..], t[2..]); }
    }
  }

  /** A well-formed name stays well formed, and no more of it is cut than the field and the surrogates require. */
  lemma ShownWellFormed(name: seq<unit>)
    requires WellFormed(name)
    ensures WellFormed(Shown(name))
    ensures forall k | 0 <= k <= |name| && k < MAX_PATH && WellFormed(name[..k]) :: k <= |Shown(name)|
  {
    var copy := Min(|name|, MAX_PATH - 1);
    PrefixWellFormed(name, copy);
    PrefixWellFormed(name, Kept(name));
    PrefixWellFormed(name, |name|);
    assert name[..|name|] == name;
    if copy < |name| && copy > 0 && High(name[copy - 1]) {
      HighThenLow(name, copy - 1);
    }
    NormalizedWellFormed(name[..Kept(name)], Shown(name));
  }

  lemma {:induction false} HighThenLow(s: seq<unit>, k: nat)
    requires WellFormed(s) && k < |s| && High(s[k])
    ensures k + 1 < |s| && Low(s[k + 1]) && (k > 0 ==> !High(s[k - 1]))
    decreases |s|
  {
    var step := if High(s[0]) then 2 else 1;
    if k >= step {
      HighThenLow(s[step..], k - step);
    }
  }

  // ----------------------------------------------- the descriptor builder

  /** n units of the name, backslashes for slashes, from `at` on. */
  function WithName(buf: seq<byte>, at: nat, name: seq<unit>, n: nat): (r: seq<byte>)
    requires n <= |name| && at + 2 * n <= |buf|
    ensures |r| == |buf|
  {
    if n == 0 then buf else Poke16(WithName(buf, at, name, n - 1), at + 2 * (n - 1), Normalized(name[n - 1]))
  }

  /** The fixed fields of one FILEDESCRIPTORW. */
  function WithFields(buf: seq<byte>, at: nat, spec: VirtualFileSpec, time: uint64): (r: seq<byte>)
    requires at + SLOT <= |buf|
    ensures |r| == |buf|
  {
    var b1 := Poke32(buf, at, SPEC_FLAGS);
    var b2 := Poke32(b1, at + 56, time % TWO32);
    var b3 := Poke32(b2, at + 60, time / TWO32);
    var b4 := Poke32(b3, at + 36, if spec.isDirectory then 0x10 else 0x80);
    var b5 := Poke32(b4, at + 68, spec.size % TWO32);
    Poke32(b5, at + 64, spec.size / TWO32)
  }

  /** One FILEDESCRIPTORW filled in at `at`. */
  function WithSlot(buf: seq<byte>, at: nat, spec: VirtualFileSpec, time: uint64): (r: seq<byte>)
    requires at + SLOT <= |buf|
    ensures |r| == |buf|
  {
    var n := Kept(spec.name);
    Poke16(WithName(WithFields(buf, at, spec, time), at + 72, spec.name, n), at + 72 + 2 * n, NUL)
  }

  function SlotAt(i: nat): nat {
    FIRST_SLOT + SLOT * i
  }

  /** The group with its first n slots filled in; clock(i) is the time read for slot i. */
  function Group(specs: seq<VirtualFileSpec>, clock: nat -> uint64, n: nat): (r: seq<byte>)
    requires n <= |specs| <= MAX_SPECS
    ensures |r| == SlotAt(|specs|)
  {
    if n == 0 then Poke32(Zeros(SlotAt(|specs|)), 0, |specs|)
    else WithSlot(Group(specs, clock, n - 1), SlotAt(n - 1), specs[n - 1], clock(n - 1))
  }

  method FillFields(buf: array<byte>, at: nat, spec: VirtualFileSpec, time: uint64)
    requires at + SLOT <= buf.Length
    modifies buf
    ensures buf[..] == WithFields(old(buf[..]), at, spec, time)
  {
    hide Poke32;
    Put32(buf, at, SPEC_FLAGS);
    Put32(buf, at + 56, time % TWO32);
    Put32(buf, at + 60, time / TWO32);
    Put32(buf, at + 36, if spec.isDirectory then 0x10 else 0x80);
    Put32(buf, at + 68, spec.size % TWO32);
    Put32(buf, at + 64, spec.size / TWO32);
  }

  lemma NameUnit(buf: seq<byte>, at: nat, name: seq<unit>, j: nat)
    requires j < |name| && at + 2 * j + 2 <= |buf|
    ensures WithName(buf, at, name, j + 1) == Poke16(WithName(buf, at, name, j), at + 2 * j, Normalized(name[j]))
  {
  }

  method KeptUnits(n: seq<unit>) returns (copy: nat)
    ensures copy == Kept(n)
  {
    copy := Min(|n|, MAX_PATH - 1);
    if copy < |n| && copy > 0 {
      var last := n[copy - 1];
      if 0xD800 <= last <= 0xDBFF { copy := copy - 1; }
    }
  }

  method FillName(buf: array<byte>, at: nat, n: seq<unit>)
    requires at + 2 * MAX_PATH <= buf.Length
    modifies buf
    ensures buf[..] == Poke16(WithName(old(buf[..]), at, n, Kept(n)), at + 2 * Kept(n), NUL)
  {
    var copy := KeptUnits(n);
    ghost var start := buf[..];
    assert WithName(start, at, n, 0) == start;
    hide Poke16, WithName, Kept;
    var j := 0;
    while j < copy
      invariant 0 <= j <= copy && buf[..] == WithName(start, at, n, j)
    {
      var c := n[j];
      NameUnit(start, at, n, j);
      Put16(buf, at + 2 * j, if c == SLASH then BACKSLASH else c);
      j := j + 1;
    }
    Put16(buf, at + 2 * copy, NUL);
  }

  method FillSlot(buf: array<byte>, at: nat, spec: VirtualFileSpec, time: uint64)
    requires at + SLOT <= buf.Length
    modifies buf
    ensures buf[..] == WithSlot(old(buf[..]), at, spec, time)
  {
    hide WithFields, WithName, Poke16, Kept;
    FillFields(buf, at, spec, time);
    FillName(buf, at + 72, spec.name);
  }

  lemma NoSlots(specs: seq<VirtualFileSpec>, clock: nat -> uint64)
    requires |specs| <= MAX_SPECS
    ensures Group(specs, clock, 0) == Poke32(Zeros(SlotAt(|specs|)), 0, |specs|)
  {
  }

  lemma NextSlot(specs: seq<VirtualFileSpec>, clock: nat -> uint64, i: nat)
    requires i < |specs| <= MAX_SPECS
    ensures SlotAt(i) + SLOT <= |Group(specs, clock, i)|
    ensures Group(specs, clock, i + 1) == WithSlot(Group(specs, clock, i), SlotAt(i), specs[i], clock(i))
  {
  }

  method BuildFileGroupDescriptorPayload(specs: seq<VirtualFileSpec>, clock: nat -> uint64) returns (out: seq<byte>)
    ensures out == if specs == [] || |specs| > 100000 then [] else Group(specs, clock, |specs|)
  {
    if |specs| == 0 { return []; }
    if |specs| > MAX_SPECS { return []; }
    var base, extra := GROUP, (|specs| - 1) * SLOT;
    var buf := new byte[base + extra](_ => 0);
    assert buf[..] == Zeros(SlotAt(|specs|));
    hide WithSlot, Poke32, Group, Zeros;
    Put32(buf, 0, |specs|);
    NoSlots(specs, clock);
    var i := 0;
    while i < |specs|
      invariant 0 <= i <= |specs| && buf[..] == Group(specs, clock, i)
    {
      FillSlot(buf, SlotAt(i), specs[i], clock(i));
      NextSlot(specs, clock, i);
      i := i + 1;
    }
    return buf[..];
  }

  // --------------------------------------------------- the descriptor reader

  /** A NUL-terminated string from `at` on: nothing when no terminator comes before the end of the blob. */
  function NameAt(blob: seq<byte>, at: nat): Option<seq<unit>>
    decreases |blob| - at
  {
    if at + 2 > |blob| then None
    else if U16At(blob, at) == 0 then Some([])
    else
      var rest := NameAt(blob, at + 2);
      if rest == None then None else Some([U16At(blob, at)] + rest.value)
  }

  /** The reader rejects the blob, runs past its end, or finds these files. */
  datatype Inbound = Rejected | Overrun | Files(files: seq<VirtualFileEntry>)

  /** FD_FILESIZE. */
  predicate HasSize(flags: nat) {
    flags / 0x40 % 2 == 1
  }

  function SizeAt(blob: seq<byte>, at: nat): nat
    requires at + SLOT <= |blob|
  {
    if HasSize(U32At(blob, at)) then U32At(blob, at + 64) * TWO32 + U32At(blob, at + 68) else 0
  }

  function Entries(blob: seq<byte>, n: nat): Inbound
    requires SlotAt(n) <= |blob|
  {
    if n == 0 then Files([]) else
    var before, name := Entries(blob, n - 1), NameAt(blob, SlotAt(n - 1) + 72);
    if !before.Files? || name == None then Overrun
    else
      SizeBound(blob, SlotAt(n - 1));
      Files(before.files + [VirtualFileEntry(name.value, SizeAt(blob, SlotAt(n - 1)), n - 1)])
  }

  lemma SizeBound(blob: seq<byte>, at: nat)
    requires at + SLOT <= |blob|
    ensures SizeAt(blob, at) < TWO64
  {
  }

  function InboundFiles(blob: seq<byte>): Inbound {
    if |blob| < 4 then Overrun
    else
      var count := U32At(blob, 0);
      if count > MAX_INBOUND || (count > 0 && SlotAt(count) > |blob|) then Rejected else Entries(blob, count)
  }

  function Behind(units: seq<unit>, rest: Option<seq<unit>>): Option<seq<unit>> {
    if rest == None then None else Some(units + rest.value)
  }

  lemma NameStep(blob: seq<byte>, at: nat, units: seq<unit>)
    requires at + 2 <= |blob| && U16At(blob, at) != 0
    ensures Behind(units, NameAt(blob, at)) == Behind(units + [U16At(blob, at)], NameAt(blob, at + 2))
  {
    var rest := NameAt(blob, at + 2);
    if rest.Some? {
      assert units + ([U16At(blob, at)] + rest.value) == units + [U16At(blob, at)] + rest.value;
    }
  }

  method ReadName(blob: seq<byte>, start: nat) returns (name: Option<seq<unit>>)
    ensures name == NameAt(blob, start)
  {
    var at := start;
    var units: seq<unit> := [];
    assert NameAt(blob, start).Some? ==> [] + NameAt(blob, start).value == NameAt(blob, start).value;
    while at + 2 <= |blob| && U16At(blob, at) != 0
      invariant start <= at && NameAt(blob, start) == Behind(units, NameAt(blob, at))
    {
      NameStep(blob, at, units);
      units := units + [U16At(blob, at)];
      at := at + 2;
    }
    if at + 2 > |blob| { return None; }
    assert units + [] == units;
    return Some(units);
  }

  lemma NoEntries(blob: seq<byte>)
    requires SlotAt(0) <= |blob|
    ensures Entries(blob, 0) == Files([])
  {
  }

  lemma EntryNext(blob: seq<byte>, i: nat)
    requires SlotAt(i + 1) <= |blob| && Entries(blob, i).Files?
    ensures var name := NameAt(blob, SlotAt(i) + 72);
            SizeAt(blob, SlotAt(i)) < TWO64 &&
            Entries(blob, i + 1) ==
            if name == None then Overrun
            else Files(Entries(blob, i).files + [VirtualFileEntry(name.value, SizeAt(blob, SlotAt(i)), i)])
  {
    SizeBound(blob, SlotAt(i));
  }

  method ReadVirtualFiles(blob: seq<byte>) returns (r: Inbound)
    ensures r == InboundFiles(blob)
  {
    hide NameAt, Entries;
    if |blob| < 4 { return Overrun; }
    var count := U32At(blob, 0);
    if count > MAX_INBOUND { return Rejected; }
    if count > 0 {
      var needed := GROUP + (count - 1) * SLOT;
      if needed > |blob| { return Rejected; }
    }
    var files := [];
    NoEntries(blob);
    var i := 0;
    while i < count
      invariant 0 <= i <= count && SlotAt(count) <= |blob|
      invariant Entries(blob, i) == Files(files)
    {
      var at := SlotAt(i);
      EntryNext(blob, i);
      var name := ReadName(blob, at + 72);
      if name == None {
        OverrunStays(blob, i + 1, count);
        return Overrun;
      }
      var size := 0;
      if HasSize(U32At(blob, at)) { size := U32At(blob, at + 64) * TWO32 + U32At(blob, at + 68); }
      files := files + [VirtualFileEntry(name.value, size, i)];
      i := i + 1;
    }
    return Files(files);
  }

  lemma {:induction false} OverrunStays(blob: seq<byte>, n: nat, m: nat)
    requires n <= m && SlotAt(m) <= |blob| && Entries(blob, n) == Overrun
    ensures Entries(blob, m) == Overrun
    decreases m
  {
    if n < m {
      OverrunStays(blob, n, m - 1);
    }
  }

  // -------------------------------------------- the descriptors read back

  lemma {:induction false} WithNameKeeps(buf: seq<byte>, at: nat, name: seq<unit>, n: nat)
    requires n <= |name| && at + 2 * n <= |buf|
    ensures var r := WithName(buf, at, name, n);
            (forall j | 0 <= j < n :: U16At(r, at + 2 * j) == Normalized(name[j])) &&
            (forall b | 0 <= b <= |buf| - 4 && Apart(at, 2 * n, b, 4) :: U32At(r, b) == U32At(buf, b)) &&
            (forall b | 0 <= b <= |buf| - 2 && Apart(at, 2 * n, b, 2) :: U16At(r, b) == U16At(buf, b))
    decreases n
  {
    if n != 0 {
      hide Poke16, U16At, U32At;
      WithNameKeeps(buf, at, name, n - 1);
    }
  }

  /** The units of a name in the slot: all of them, or the first 259 less half a surrogate pair. */
  ghost function Fitting(name: seq<unit>): (n: nat)
    ensures n <= |name| && n < 260
  {
    if |name| <= 259 then |name| else if 0xD800 <= name[258] <= 0xDBFF then 258 else 259
  }

  /** A slot says what the specification says: flags, attributes, write time, size, and the name with backslashes for
      slashes up to a NUL. */
  ghost predicate Holds(buf: seq<byte>, at: nat, spec: VirtualFileSpec, time: uint64)
    requires at + 592 <= |buf|
  {
    && U32At(buf, at) == 0x4064
    && U32At(buf, at + 36) == (if spec.isDirectory then 0x10 else 0x80)
    && U32At(buf, at + 56) + 0x1_0000_0000 * U32At(buf, at + 60) == time
    && U32At(buf, at + 68) + 0x1_0000_0000 * U32At(buf, at + 64) == spec.size
    && (forall j | 0 <= j < Fitting(spec.name) ::
          U16At(buf, at + 72 + 2 * j) == if spec.name[j] == 47 then 92 else spec.name[j])
    && U16At(buf, at + 72 + 2 * Fitting(spec.name)) == 0
  }

  /** Filling a slot makes it hold its specification and touches no field outside the slot. */
  lemma SlotFilled(buf: seq<byte>, at: nat, spec: VirtualFileSpec, time: uint64)
    requires at + 592 <= |buf|
    ensures var r := WithSlot(buf, at, spec, time);
            Holds(r, at, spec, time) &&
            (forall b | 0 <= b <= |buf| - 4 && Apart(at, 592, b, 4) :: U32At(r, b) == U32At(buf, b)) &&
            (forall b | 0 <= b <= |buf| - 2 && Apart(at, 592, b, 2) :: U16At(r, b) == U16At(buf, b))
  {
    hide Poke16, Poke32, U16At, U32At, WithName;
    WithNameKeeps(WithFields(buf, at, spec, time), at + 72, spec.name, Kept(spec.name));
  }

  lemma SlotKept(buf: seq<byte>, at: nat, spec: VirtualFileSpec, time: uint64,
                 other: nat, held: VirtualFileSpec, heldTime: uint64)
    requires at + SLOT <= |buf| && other + SLOT <= at && Holds(buf, other, held, heldTime)
    ensures Holds(WithSlot(buf, at, spec, time), other, held, heldTime)
  {
    hide WithSlot, U16At, U32At;
    SlotFilled(buf, at, spec, time);
  }

  ghost predicate AllHold(buf: seq<byte>, specs: seq<VirtualFileSpec>, clock: nat -> uint64, n: nat)
    requires n <= |specs|
  {
    forall i: nat | i < n :: 4 + 592 * i + 592 <= |buf| && Holds(buf, 4 + 592 * i, specs[i], clock(i))
  }

  lemma OneMoreHolds(buf: seq<byte>, specs: seq<VirtualFileSpec>, clock: nat -> uint64, n: nat)
    requires n < |specs| && SlotAt(n) + SLOT <= |buf| && AllHold(buf, specs, clock, n)
    ensures AllHold(WithSlot(buf, SlotAt(n), specs[n], clock(n)), specs, clock, n + 1)
    ensures U32At(WithSlot(buf, SlotAt(n), specs[n], clock(n)), 0) == U32At(buf, 0)
  {
    hide WithSlot, U16At, U32At, Holds;
    var r := WithSlot(buf, SlotAt(n), specs[n], clock(n));
    SlotFilled(buf, SlotAt(n), specs[n], clock(n));
    forall i: nat | i < n + 1 ensures 4 + 592 * i + 592 <= |r| && Holds(r, 4 + 592 * i, specs[i], clock(i)) {
      if i < n { SlotKept(buf, SlotAt(n), specs[n], clock(n), 4 + 592 * i, specs[i], clock(i)); }
    }
  }

  lemma CountWritten(specs: seq<VirtualFileSpec>, clock: nat -> uint64)
    requires |specs| <= MAX_SPECS
    ensures U32At(Group(specs, clock, 0), 0) == |specs| && AllHold(Group(specs, clock, 0), specs, clock, 0)
  {
    hide U32At;
  }

  lemma {:induction false} GroupFilled(specs: seq<VirtualFileSpec>, clock: nat -> uint64, n: nat)
    requires n <= |specs| <= MAX_SPECS
    ensures U32At(Group(specs, clock, n), 0) == |specs| && AllHold(Group(specs, clock, n), specs, clock, n)
    decreases n
  {
    hide *;
    if n == 0 {
      CountWritten(specs, clock);
    } else {
      GroupFilled(specs, clock, n - 1);
      NextSlot(specs, clock, n - 1);
      OneMoreHolds(Group(specs, clock, n - 1), specs, clock, n - 1);
    }
  }

  /** The whole array: a count and, one after another, a slot of 592 bytes for each file. */
  lemma GroupHolds(specs: seq<VirtualFileSpec>, clock: nat -> uint64)
    requires |specs| <= 100000
    ensures var group := Group(specs, clock, |specs|);
            |group| == 4 + 592 * |specs| && U32At(group, 0) == |specs| &&
            forall i: nat | i < |specs| :: Holds(group, 4 + 592 * i, specs[i], clock(i))
  {
    hide Group, U32At, Holds;
    GroupFilled(specs, clock, |specs|);
  }

  ghost predicate UnitsAt(blob: seq<byte>, at: nat, units: seq<unit>) {
    at + 2 * |units| <= |blob| && forall j | 0 <= j < |units| :: U16At(blob, at + 2 * j) == units[j]
  }

  lemma {:induction false} NameAtIs(blob: seq<byte>, at: nat, units: seq<unit>)
    requires UnitsAt(blob, at, units) && at + 2 * |units| + 2 <= |blob| && U16At(blob, at + 2 * |units|) == 0
    ensures NameAt(blob, at) == Some(UpToNul(units))
    decreases |units|
  {
    hide U16At;
    if units != [] {
      assert U16At(blob, at + 2 * 0) == units[0];
      if units[0] != NUL {
        assert forall j | 0 <= j < |units| - 1 :: U16At(blob, at + 2 + 2 * j) == U16At(blob, at + 2 * (j + 1));
        NameAtIs(blob, at + 2, units[1..]);
      }
    }
  }

  lemma {:induction false} UpToNulWhole(s: seq<unit>)
    ensures UpToNul(s) == s <==> NUL !in s
    decreases |s|
  {
    if s != [] {
      UpToNulWhole(s[1..]);
      assert s == [s[0]] + s[1..];
    }
  }

  function Listing(specs: seq<VirtualFileSpec>, n: nat): seq<VirtualFileEntry>
    requires n <= |specs|
  {
    seq(n, i requires 0 <= i < n => VirtualFileEntry(UpToNul(Shown(specs[i].name)), specs[i].size, i))
  }

  lemma ListingStep(specs: seq<VirtualFileSpec>, i: nat)
    requires i < |specs|
    ensures Listing(specs, i + 1) ==
            Listing(specs, i) + [VirtualFileEntry(UpToNul(Shown(specs[i].name)), specs[i].size, i)]
  {
  }

  lemma NothingListed(specs: seq<VirtualFileSpec>)
    ensures Listing(specs, 0) == []
  {
  }

  lemma EntryBuilt(blob: seq<byte>, at: nat, spec: VirtualFileSpec, time: uint64)
    requires at + SLOT <= |blob| && Holds(blob, at, spec, time)
    ensures NameAt(blob, at + 72) == Some(UpToNul(Shown(spec.name))) && SizeAt(blob, at) == spec.size
  {
    hide U16At, U32At;
    assert UnitsAt(blob, at + 72, Shown(spec.name));
    NameAtIs(blob, at + 72, Shown(spec.name));
  }

  lemma {:induction false} EntriesBuilt(blob: seq<byte>, specs: seq<VirtualFileSpec>, clock: nat -> uint64, n: nat)
    requires n <= |specs| && SlotAt(n) <= |blob|
    requires AllHold(blob, specs, clock, n)
    ensures Entries(blob, n) == Files(Listing(specs, n))
    decreases n
  {
    hide NameAt, Holds, UpToNul, SizeAt, Shown, Listing, Entries;
    if n == 0 {
      NoEntries(blob);
      NothingListed(specs);
    } else {
      assert SlotAt(n - 1) == 4 + 592 * (n - 1);
      assert AllHold(blob, specs, clock, n - 1) && Holds(blob, SlotAt(n - 1), specs[n - 1], clock(n - 1));
      hide AllHold;
      EntriesBuilt(blob, specs, clock, n - 1);
      EntryBuilt(blob, SlotAt(n - 1), specs[n - 1], clock(n - 1));
      EntryNext(blob, n - 1);
      ListingStep(specs, n - 1);
    }
  }

  /** Reading a built descriptor array gives back every size and index, and every name as it is shown, up to its first
      NUL. */
  lemma DescriptorsRoundTrip(specs: seq<VirtualFileSpec>, clock: nat -> uint64)
    requires 0 < |specs| <= 100000
    ensures InboundFiles(Group(specs, clock, |specs|)) == Files(Listing(specs, |specs|))
  {
    hide Group, Entries, Listing, AllHold;
    GroupFilled(specs, clock, |specs|);
    EntriesBuilt(Group(specs, clock, |specs|), specs, clock, |specs|);
  }

  /** The name read back is the whole name shown exactly when no NUL is in the part that fits. */
  lemma NameReadWhole(name: seq<unit>)
    ensures UpToNul(Shown(name)) == Shown(name) <==> NUL !in name[..Kept(name)]
  {
    UpToNulWhole(Shown(name));
    ShownNul(name);
  }

  lemma ShownNul(name: seq<unit>)
    ensures NUL in Shown(name) <==> NUL in name[..Kept(name)]
  {
    if NUL in Shown(name) {
      var j :| 0 <= j < |Shown(name)| && Shown(name)[j] == NUL;
      assert name[..Kept(name)][j] == NUL;
    }
    if NUL in name[..Kept(name)] {
      var j :| 0 <= j < Kept(name) && name[..Kept(name)][j] == NUL;
      assert Shown(name)[j] == NUL;
    }
  }

  /** The reader takes a name of fewer than n units exactly when the first n units hold a terminator. */
  lemma {:induction false} NameStaysInside(blob: seq<byte>, at: nat, n: nat)
    requires at + 2 * n <= |blob|
    ensures NameAt(blob, at).Some? && |NameAt(blob, at).value| < n <==> exists j :: 0 <= j < n && U16At(blob, at + 2 * j) == 0
    decreases n
  {
    hide U16At;
    if n != 0 {
      NameStaysInside(blob, at + 2, n - 1);
      if U16At(blob, at) == 0 {
        assert U16At(blob, at + 2 * 0) == 0;
      } else {
        if j :| 0 <= j < n && U16At(blob, at + 2 * j) == 0 {
          assert U16At(blob, at + 2 + 2 * (j - 1)) == 0;
        }
        if j :| 0 <= j < n - 1 && U16At(blob, at + 2 + 2 * j) == 0 {
          assert U16At(blob, at + 2 * (j + 1)) == 0;
        }
      }
    }
  }

  /** No terminator from here to the end of the blob. */
  ghost predicate Endless(blob: seq<byte>, at: nat) {
    forall j: nat | at + 2 * j + 2 <= |blob| :: U16At(blob, at + 2 * j) != 0
  }

  lemma {:induction false} NameRead(blob: seq<byte>, at: nat)
    ensures match NameAt(blob, at)
            case Some(name) =>
              NUL !in name && at + 2 * |name| + 2 <= |blob| && UnitsAt(blob, at, name) &&
              U16At(blob, at + 2 * |name|) == 0
            case None => Endless(blob, at)
    decreases |blob| - at
  {
    hide U16At;
    if at + 2 <= |blob| && U16At(blob, at) != 0 {
      var u := U16At(blob, at);
      NameRead(blob, at + 2);
      match NameAt(blob, at + 2)
      case Some(rest) =>
        forall j | 0 <= j < |rest| + 1 ensures U16At(blob, at + 2 * j) == ([u] + rest)[j] {
          if j > 0 { assert U16At(blob, at + 2 + 2 * (j - 1)) == rest[j - 1]; }
        }
        assert at + 2 + 2 * |rest| == at + 2 * |[u] + rest|;
      case None =>
        forall j: nat | at + 2 * j + 2 <= |blob| ensures U16At(blob, at + 2 * j) != 0 {
          if j > 0 { assert U16At(blob, at + 2 + 2 * (j - 1)) != 0; }
        }
    }
  }

  /** An entry says what its descriptor says: its position, its size when the flags announce one, and its name up to the
      first NUL from the name field on. */
  ghost predicate Tells(blob: seq<byte>, at: nat, i: nat, e: VirtualFileEntry)
    requires at + 592 <= |blob|
  {
    && e.lindex == i
    && e.size == (if U32At(blob, at) / 0x40 % 2 == 1 then 0x1_0000_0000 * U32At(blob, at + 64) + U32At(blob, at + 68) else 0)
    && NUL !in e.name && at + 72 + 2 * |e.name| + 2 <= |blob|
    && UnitsAt(blob, at + 72, e.name) && U16At(blob, at + 72 + 2 * |e.name|) == 0
  }

  lemma EntryTells(blob: seq<byte>, i: nat)
    requires SlotAt(i + 1) <= |blob| && NameAt(blob, SlotAt(i) + 72).Some?
    ensures SizeAt(blob, SlotAt(i)) < TWO64
    ensures Tells(blob, SlotAt(i), i, VirtualFileEntry(NameAt(blob, SlotAt(i) + 72).value, SizeAt(blob, SlotAt(i)), i))
  {
    hide U16At, U32At, NameAt, UnitsAt;
    SizeBound(blob, SlotAt(i));
    NameRead(blob, SlotAt(i) + 72);
  }

  lemma {:induction false} EntriesTell(blob: seq<byte>, n: nat)
    requires SlotAt(n) <= |blob|
    ensures match Entries(blob, n)
            case Files(files) => |files| == n && forall i: nat | i < n :: Tells(blob, 4 + 592 * i, i, files[i])
            case Overrun => exists i: nat :: i < n && NameAt(blob, 4 + 592 * i + 72) == None
            case Rejected => false
    decreases n
  {
    hide NameAt, Tells, SizeAt;
    if n > 0 {
      EntriesTell(blob, n - 1);
      var at := SlotAt(n - 1);
      assert at == 4 + 592 * (n - 1);
      if Entries(blob, n - 1).Files? && NameAt(blob, at + 72).Some? {
        EntryTells(blob, n - 1);
        EntryNext(blob, n - 1);
      } else if Entries(blob, n - 1).Files? {
        assert n - 1 < n && NameAt(blob, 4 + 592 * (n - 1) + 72) == None;
      }
    }
  }

  /** What the reader makes of any blob that holds a count: it rejects exactly more than 100000 files or fewer bytes than
      their descriptors take, and otherwise lists what each descriptor says, unless the name of one has no end in the
      blob. */
  lemma InboundTells(blob: seq<byte>)
    requires |blob| >= 4
    ensures var n := U32At(blob, 0); var rejected := n > 100000 || (n > 0 && 4 + 592 * n > |blob|);
            match InboundFiles(blob)
            case Rejected => rejected
            case Files(files) =>
              !rejected && |files| == n && forall i: nat | i < n :: Tells(blob, 4 + 592 * i, i, files[i])
            case Overrun =>
              !rejected && exists i: nat :: i < n && Endless(blob, 4 + 592 * i + 72)
  {
    hide U16At, U32At, NameAt, Tells, Entries;
    var n := U32At(blob, 0);
    if n <= 100000 && (n > 0 ==> 4 + 592 * n <= |blob|) {
      EntriesTell(blob, n);
      if Entries(blob, n).Overrun? {
        var i: nat :| i < n && NameAt(blob, 4 + 592 * i + 72) == None;
        NameRead(blob, 4 + 592 * i + 72);
      }
    }
  }

  /** The name field of the slot at `at` holds a terminator. */
  ghost predicate Terminated(blob: seq<byte>, at: nat)
    requires at + SLOT <= |blob|
  {
    exists j :: 0 <= j < MAX_PATH && U16At(blob, at + 72 + 2 * j) == 0
  }

  lemma {:induction false} TerminatedEntries(blob: seq<byte>, n: nat)
    requires SlotAt(n) <= |blob|
    requires forall i | 0 <= i < n :: SlotAt(i) + SLOT <= |blob| && Terminated(blob, SlotAt(i))
    ensures Entries(blob, n).Files?
    decreases n
  {
    if n != 0 {
      hide U16At, NameAt;
      TerminatedEntries(blob, n - 1);
      assert Terminated(blob, SlotAt(n - 1));
      NameStaysInside(blob, SlotAt(n - 1) + 72, MAX_PATH);
    }
  }

  /** Whatever the producer sends, if each of its name fields holds a terminator the reader stays inside the blob. */
  lemma TerminatedNamesSuffice(blob: seq<byte>)
    requires |blob| >= 4
    requires forall i | 0 <= i < U32At(blob, 0) && SlotAt(i) + SLOT <= |blob| :: Terminated(blob, SlotAt(i))
    ensures InboundFiles(blob) != Overrun
  {
    var count := U32At(blob, 0);
    if count <= MAX_INBOUND && SlotAt(count) <= |blob| {
      TerminatedEntries(blob, count);
    }
  }

  ghost predicate AllTerminated(blob: seq<byte>, n: nat)
    requires SlotAt(n) <= |blob|
  {
    forall i | 0 <= i < n :: Terminated(blob, SlotAt(i))
  }

  predicate AllShort(r: Inbound) {
    r.Files? && forall e | e in r.files :: |e.name| < MAX_PATH
  }

  predicate Short(name: Option<seq<unit>>) {
    name.Some? && |name.value| < MAX_PATH
  }

  lemma EntryShort(blob: seq<byte>, i: nat)
    requires SlotAt(i + 1) <= |blob|
    ensures AllShort(Entries(blob, i + 1)) <==> AllShort(Entries(blob, i)) && Short(NameAt(blob, SlotAt(i) + 72))
  {
    hide NameAt, SizeAt;
    if Entries(blob, i).Files? && NameAt(blob, SlotAt(i) + 72).Some? {
      EntryNext(blob, i);
      var before, after := Entries(blob, i).files, Entries(blob, i + 1).files;
      assert after[..|before|] == before && after[|before|] in after;
      assert forall e | e in after :: e in before || e == after[|before|];
    }
  }

  lemma {:induction false} EntriesInside(blob: seq<byte>, n: nat)
    requires SlotAt(n) <= |blob|
    ensures AllShort(Entries(blob, n)) <==> AllTerminated(blob, n)
    decreases n
  {
    hide U16At, NameAt, Entries;
    if n == 0 {
      NoEntries(blob);
    } else {
      EntriesInside(blob, n - 1);
      EntryShort(blob, n - 1);
      NameStaysInside(blob, SlotAt(n - 1) + 72, MAX_PATH);
      assert Terminated(blob, SlotAt(n - 1)) <==> Short(NameAt(blob, SlotAt(n - 1) + 72));
    }
  }

  /** Of a blob that is not rejected, every name is read from its own field exactly when every counted field holds a
      terminator. */
  lemma NamesInsideIffTerminated(blob: seq<byte>)
    requires |blob| >= 4 && InboundFiles(blob) != Rejected
    ensures SlotAt(U32At(blob, 0)) <= |blob|
    ensures AllShort(InboundFiles(blob)) <==> AllTerminated(blob, U32At(blob, 0))
  {
    EntriesInside(blob, U32At(blob, 0));
  }

  /** One descriptor of ones, with something behind it or not. */
  function Unterminated(behind: seq<byte>): seq<byte> {
    LE32(1) + seq(SLOT, i => 1 as byte) + behind
  }

  lemma {:induction false} NoTerminator(blob: seq<byte>, at: nat)
    requires forall k | at <= k < |blob| :: blob[k] == 1
    ensures NameAt(blob, at) == None
    decreases |blob| - at
  {
    if at + 2 <= |blob| {
      NoTerminator(blob, at + 2);
    }
  }

  lemma CountOne(behind: seq<byte>)
    ensures U32At(Unterminated(behind), 0) == 1 && |Unterminated(behind)| == GROUP + |behind|
    ensures InboundFiles(Unterminated(behind)) == Entries(Unterminated(behind), 1)
  {
  }

  /** Such a blob is accepted, and the scan of its name runs past its end. */
  lemma OverrunHappens()
    ensures InboundFiles(Unterminated([])) == Overrun
  {
    CountOne([]);
    NoTerminator(Unterminated([]), SlotAt(0) + 72);
  }

  /** With a terminator behind the descriptor the name takes the whole field: longer than any name may be. */
  lemma LongNameHappens()
    ensures InboundFiles(Unterminated([0, 0])).Files?
    ensures |InboundFiles(Unterminated([0, 0])).files| == 1 && |InboundFiles(Unterminated([0, 0])).files[0].name| == MAX_PATH
  {
    var blob := Unterminated([0, 0]);
    CountOne([0, 0]);
    var units := seq(MAX_PATH, i => 257 as unit);
    assert UnitsAt(blob, SlotAt(0) + 72, units);
    NameAtIs(blob, SlotAt(0) + 72, units);
    UpToNulWhole(units);
    NoEntries(blob);
    EntryNext(blob, 0);
  }

  // -------------------------------------------------------- the drop list

  const DROPFILES: nat := 20

  function UnitBytes(s: seq<unit>): (b: seq<byte>)
    ensures |b| == 2 * |s|
  {
    if s == [] then [] else UnitBytes(s[..|s| - 1]) + LE16(s[|s| - 1])
  }

  /** Each path with its terminator. */
  function Listed(paths: seq<seq<unit>>): seq<byte> {
    if paths == [] then [] else Listed(paths[..|paths| - 1]) + UnitBytes(paths[|paths| - 1]) + UnitBytes([NUL])
  }

  /** pFiles and fWide; the point and fNC are zero. */
  function DropHeader(): (h: seq<byte>)
    ensures |h| == DROPFILES
  {
    Poke32(Poke32(Zeros(DROPFILES), 0, DROPFILES), 16, 1)
  }

  function DropList(paths: seq<seq<unit>>): seq<byte> {
    if paths == [] then [] else DropHeader() + Listed(paths) + UnitBytes([NUL])
  }

  function TotalUnits(paths: seq<seq<unit>>): nat {
    if paths == [] then 0 else TotalUnits(paths[..|paths| - 1]) + |paths[|paths| - 1]| + 1
  }

  lemma {:induction false} ListedSize(paths: seq<seq<unit>>)
    ensures |Listed(paths)| == 2 * TotalUnits(paths)
    decreases |paths|
  {
    if paths != [] {
      ListedSize(paths[..|paths| - 1]);
    }
  }

  lemma ListedNext(paths: seq<seq<unit>>, i: nat)
    requires i < |paths|
    ensures Listed(paths[..i + 1]) == Listed(paths[..i]) + UnitBytes(paths[i]) + UnitBytes([NUL])
    ensures TotalUnits(paths[..i + 1]) == TotalUnits(paths[..i]) + |paths[i]| + 1
  {
    assert paths[..i + 1][..i] == paths[..i];
  }

  lemma {:induction false} TotalGrows(paths: seq<seq<unit>>, i: nat)
    requires i <= |paths|
    ensures TotalUnits(paths[..i]) <= TotalUnits(paths)
    decreases |paths| - i
  {
    if i < |paths| {
      ListedNext(paths, i);
      TotalGrows(paths, i + 1);
    } else {
      assert paths[..i] == paths;
    }
  }

  /** The first loop of BuildCfHdropPayload. */
  method CountUnits(paths: seq<seq<unit>>) returns (total: nat)
    ensures total == TotalUnits(paths) + 1
  {
    total := 0;
    var i := 0;
    while i < |paths|
      invariant 0 <= i <= |paths| && total == TotalUnits(paths[..i])
    {
      ListedNext(paths, i);
      total := total + |paths[i]| + 1;
      i := i + 1;
    }
    assert paths[..|paths|] == paths;
    total := total + 1;
  }

  lemma Regroup<T>(a: seq<T>, b: seq<T>, c: seq<T>, d: seq<T>)
    ensures a + b + c + d == a + (b + c + d)
  {
  }

  method BuildCfHdropPayload(paths: seq<seq<unit>>) returns (out: seq<byte>)
    ensures out == DropList(paths)
  {
    if |paths| == 0 { return []; }
    var totalUnits := CountUnits(paths);
    var buf := new byte[DROPFILES + totalUnits * 2](_ => 0);
    FillDropHeader(buf);
    var dst := DROPFILES;
    var i := 0;
    assert Listed(paths[..0]) == [] && TotalUnits(paths[..0]) == 0 && DropHeader() + [] == DropHeader();
    hide DropHeader, Listed, TotalUnits, UnitBytes;
    while i < |paths|
      invariant 0 <= i <= |paths|
      invariant dst == DROPFILES + 2 * TotalUnits(paths[..i]) <= buf.Length
      invariant buf[..dst] == DropHeader() + Listed(paths[..i])
    {
      ListedNext(paths, i);
      TotalGrows(paths, i + 1);
      dst := AppendUnits(buf, dst, paths[i]);
      dst := AppendUnits(buf, dst, [NUL]);
      Regroup(DropHeader(), Listed(paths[..i]), UnitBytes(paths[i]), UnitBytes([NUL]));
      i := i + 1;
    }
    assert paths[..|paths|] == paths;
    dst := AppendUnits(buf, dst, [NUL]);
    assert buf[..] == buf[..dst];
    return buf[..];
  }

  method FillDropHeader(buf: array<byte>)
    requires buf.Length >= DROPFILES && forall k | 0 <= k < buf.Length :: buf[k] == 0
    modifies buf
    ensures buf[..DROPFILES] == DropHeader()
  {
    Put32(buf, 0, DROPFILES);
    Put32(buf, 16, 1);
    assert buf[..DROPFILES] == DropHeader();
  }

  /** memcpy of the units and the move of the destination pointer. */
  method AppendUnits(buf: array<byte>, dst: nat, units: seq<unit>) returns (next: nat)
    requires dst + 2 * |units| <= buf.Length
    modifies buf
    ensures next == dst + 2 * |units| && buf[..next] == old(buf[..dst]) + UnitBytes(units)
  {
    Copy(buf, dst, UnitBytes(units));
    next := dst + 2 * |units|;
    assert buf[..next] == buf[..][..next];
  }

  // ------------------------------------------------ the drop list walked

  datatype Walked = Walked(paths: seq<seq<unit>>, end: nat)

  /** What a consumer does: strings one after another up to an empty one; `end` is behind its terminator. */
  function Walk(blob: seq<byte>, at: nat): Option<Walked>
    decreases |blob| - at
  {
    var name := NameAt(blob, at);
    if name == None then None
    else if name.value == [] then Some(Walked([], at + 2))
    else
      NameFits(blob, at);
      var rest := Walk(blob, at + 2 * |name.value| + 2);
      if rest == None then None else Some(Walked([name.value] + rest.value.paths, rest.value.end))
  }

  lemma {:induction false} NameFits(blob: seq<byte>, at: nat)
    requires NameAt(blob, at).Some?
    ensures at + 2 * |NameAt(blob, at).value| + 2 <= |blob| && NUL !in NameAt(blob, at).value
    decreases |blob| - at
  {
    if U16At(blob, at) != 0 {
      NameFits(blob, at + 2);
    }
  }

  lemma {:induction false} UnitBytesAt(units: seq<unit>, j: nat)
    requires j < |units|
    ensures U16At(UnitBytes(units), 2 * j) == units[j]
    decreases |units|
  {
    if j < |units| - 1 {
      UnitBytesAt(units[..|units| - 1], j);
    }
  }

  lemma Placed(head: seq<byte>, middle: seq<byte>, tail: seq<byte>, k: nat)
    requires k + 2 <= |middle|
    ensures U16At(head + middle + tail, |head| + k) == U16At(middle, k)
  {
  }

  lemma NamePlaced(head: seq<byte>, units: seq<unit>, tail: seq<byte>)
    ensures NameAt(head + UnitBytes(units) + (UnitBytes([NUL]) + tail), |head|) == Some(UpToNul(units))
  {
    hide NameAt, UpToNul, UnitBytes, U16At;
    var blob := head + UnitBytes(units) + (UnitBytes([NUL]) + tail);
    forall j | 0 <= j < |units| ensures U16At(blob, |head| + 2 * j) == units[j] {
      Placed(head, UnitBytes(units), UnitBytes([NUL]) + tail, 2 * j);
      UnitBytesAt(units, j);
    }
    assert blob == (head + UnitBytes(units)) + UnitBytes([NUL]) + tail;
    Placed(head + UnitBytes(units), UnitBytes([NUL]), tail, 0);
    UnitBytesAt([NUL], 0);
    NameAtIs(blob, |head|, units);
  }

  lemma {:induction false} ListedSplit(paths: seq<seq<unit>>, i: nat) returns (tail: seq<byte>)
    requires i <= |paths|
    ensures Listed(paths) == Listed(paths[..i]) + tail
    decreases |paths| - i
  {
    hide Listed, UnitBytes;
    if i == |paths| {
      assert paths[..i] == paths;
      tail := [];
    } else {
      var rest := ListedSplit(paths, i + 1);
      ListedNext(paths, i);
      tail := UnitBytes(paths[i]) + UnitBytes([NUL]) + rest;
    }
  }

  predicate Droppable(path: seq<unit>) {
    path != [] && NUL !in path
  }

  function PathAt(paths: seq<seq<unit>>, i: nat): nat
    requires i <= |paths|
  {
    DROPFILES + 2 * TotalUnits(paths[..i])
  }

  /** The i-th path lies where the walk looks for it, and the final terminator behind the last one. */
  lemma PathPlaced(paths: seq<seq<unit>>, i: nat)
    requires paths != [] && i <= |paths|
    ensures NameAt(DropList(paths), PathAt(paths, i)) == Some(if i < |paths| then UpToNul(paths[i]) else [])
    ensures i < |paths| ==> PathAt(paths, i + 1) == PathAt(paths, i) + 2 * |paths[i]| + 2
    ensures i == |paths| ==> PathAt(paths, i) + 2 == |DropList(paths)|
  {
    hide *;
    if i < |paths| {
      NextPathPlaced(paths, i);
    } else {
      EndPlaced(paths);
    }
  }

  lemma Regroup6<T>(a: seq<T>, b: seq<T>, c: seq<T>, d: seq<T>, e: seq<T>, f: seq<T>)
    ensures a + (b + c + d + e) + f == a + b + c + (d + (e + f))
  {
  }

  /** The buffer around the i-th path. */
  lemma PathInside(paths: seq<seq<unit>>, i: nat) returns (rest: seq<byte>)
    requires i < |paths|
    ensures DropList(paths) ==
            DropHeader() + Listed(paths[..i]) + UnitBytes(paths[i]) + (UnitBytes([NUL]) + (rest + UnitBytes([NUL])))
  {
    hide Listed, UnitBytes, DropHeader;
    rest := ListedSplit(paths, i + 1);
    ListedNext(paths, i);
    Regroup6(DropHeader(), Listed(paths[..i]), UnitBytes(paths[i]), UnitBytes([NUL]), rest, UnitBytes([NUL]));
  }

  lemma NextPathPlaced(paths: seq<seq<unit>>, i: nat)
    requires i < |paths|
    ensures NameAt(DropList(paths), PathAt(paths, i)) == Some(UpToNul(paths[i]))
    ensures PathAt(paths, i + 1) == PathAt(paths, i) + 2 * |paths[i]| + 2
  {
    hide Listed, UnitBytes, TotalUnits, UpToNul, NameAt, DropHeader, DropList;
    ListedSize(paths[..i]);
    ListedNext(paths, i);
    var rest := PathInside(paths, i);
    NamePlaced(DropHeader() + Listed(paths[..i]), paths[i], rest + UnitBytes([NUL]));
  }

  lemma EndPlaced(paths: seq<seq<unit>>)
    requires paths != []
    ensures NameAt(DropList(paths), PathAt(paths, |paths|)) == Some([])
    ensures PathAt(paths, |paths|) + 2 == |DropList(paths)|
  {
    hide Listed, UnitBytes, TotalUnits, UpToNul, NameAt, DropHeader;
    assert paths[..|paths|] == paths;
    ListedSize(paths);
    var head := DropHeader() + Listed(paths);
    NamePlaced(head, [], []);
    NoUnits();
    assert DropList(paths) == head + [] + (UnitBytes([NUL]) + []);
  }

  lemma NoUnits()
    ensures UnitBytes([]) == [] && UpToNul([]) == []
  {
  }

  lemma {:induction false} WalkFrom(paths: seq<seq<unit>>, i: nat)
    requires paths != [] && i <= |paths| && forall p | p in paths :: Droppable(p)
    ensures Walk(DropList(paths), PathAt(paths, i)) == Some(Walked(paths[i..], |DropList(paths)|))
    decreases |paths| - i
  {
    hide NameAt, DropList, PathAt, UpToNul;
    PathPlaced(paths, i);
    if i < |paths| {
      assert paths[i] in paths && Droppable(paths[i]);
      UpToNulWhole(paths[i]);
      WalkFrom(paths, i + 1);
      assert [paths[i]] + paths[i + 1..] == paths[i..];
    }
  }

  lemma {:induction false} WalkFindsDroppable(blob: seq<byte>, at: nat)
    requires Walk(blob, at).Some?
    ensures forall p | p in Walk(blob, at).value.paths :: Droppable(p)
    decreases |blob| - at
  {
    NameFits(blob, at);
    hide NameAt;
    var name := NameAt(blob, at).value;
    if name != [] {
      WalkFindsDroppable(blob, at + 2 * |name| + 2);
    }
  }

  /** Walking a built drop list gives back its paths and ends at the end of the buffer, exactly when every path is
      non-empty and free of NUL. */
  lemma DropListRoundTrip(paths: seq<seq<unit>>)
    requires paths != []
    ensures Walk(DropList(paths), 20) == Some(Walked(paths, |DropList(paths)|)) <==>
            forall p | p in paths :: Droppable(p)
  {
    assert PathAt(paths, 0) == DROPFILES && paths[0..] == paths by {
      assert paths[..0] == [];
    }
    hide Walk, DropList, Droppable, PathAt;
    if forall p | p in paths :: Droppable(p) {
      WalkFrom(paths, 0);
    }
    if Walk(DropList(paths), DROPFILES) == Some(Walked(paths, |DropList(paths)|)) {
      WalkFindsDroppable(DropList(paths), DROPFILES);
    }
  }

  /** The header of a built drop list: wide characters right behind it; no paths give no list at all. */
  lemma DropHeaderFields()
    ensures DropList([]) == []
    ensures |DropHeader()| == 20 && U32At(DropHeader(), 0) == 20 && U32At(DropHeader(), 16) == 1
    ensures forall k | 4 <= k < 16 :: DropHeader()[k] == 0
  {
    hide U32At;
  }
}
