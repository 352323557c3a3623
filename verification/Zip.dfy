/**
 The container of an .xlsx export: local headers with their data, a central
 directory, and an end record (sections 4.3.7, 4.3.12 and 4.3.16 of the PKWARE
 APPNOTE). Compression and checksum are parameters.
 */
module Zip {
  type byte = b: nat | b < 256

  type word = w: nat | w < 0x1_0000_0000

  const MAX_16 := 0xffff
  const MAX_32 := 0xffff_ffff

  const LOCAL_SIGNATURE := 0x0403_4b50
  const CENTRAL_SIGNATURE := 0x0201_4b50
  const END_SIGNATURE := 0x0605_4b50
  const VERSION := 20
  const UTF8_NAMES := 0x0800
  const DEFLATE := 8
  const DOS_TIME := 0
  const DOS_DATE := 33

  datatype Codec = Codec(deflate: seq<byte> -> seq<byte>, crc: seq<byte> -> word)

  datatype File = File(name: seq<byte>, raw: seq<byte>)

  // ---- Little-endian fields ----

  /** The number stored in n bytes from a position on, lowest byte first. */
  function Get(s: seq<byte>, at: nat, n: nat): nat
    requires at + n <= |s|
    decreases n
  {
    if n == 0 then 0 else s[at] + 0x100 * Get(s, at + 1, n - 1)
  }

  /** The lowest n bytes of a number, the lowest first. */
  function Digits(v: nat, n: nat): (r: seq<byte>)
    ensures |r| == n
  {
    if n == 0 then [] else [v % 0x100] + Digits(v / 0x100, n - 1)
  }

  function Put16(v: nat): seq<byte> {
    Digits(v, 2)
  }

  function Put32(v: nat): seq<byte> {
    Digits(v, 4)
  }

  lemma TwoDigits(v: nat)
    ensures Digits(v, 2) == [v % 0x100, v / 0x100 % 0x100]
  {
    assert Digits(v / 0x100, 1) == [v / 0x100 % 0x100] + Digits(v / 0x100 / 0x100, 0);
  }

  lemma FourDigits(v: nat)
    ensures Digits(v, 4) == [v % 0x100, v / 0x100 % 0x100, v / 0x1_0000 % 0x100, v / 0x100_0000 % 0x100]
  {
    var q := v / 0x1_0000;
    assert q == v / 0x100 / 0x100 && q / 0x100 == v / 0x100_0000;
    assert Digits(v, 4) == [v % 0x100] + ([v / 0x100 % 0x100] + Digits(q, 2));
    TwoDigits(q);
  }

  function Zeros(n: nat): seq<byte> {
    seq(n, i => 0)
  }

  // ---- The archive ----

  /** Version needed, flags, method, time and date: the same in both headers. */
  function Stamp(): seq<byte> {
    Put16(VERSION) + Put16(UTF8_NAMES) + Put16(DEFLATE) + Put16(DOS_TIME) + Put16(DOS_DATE)
  }

  /** Checksum, compressed size, size and name length: the same in both headers. */
  function Sizes(c: Codec, f: File): seq<byte> {
    Put32(c.crc(f.raw)) + Put32(|c.deflate(f.raw)|) + Put32(|f.raw|) + Put16(|f.name|)
  }

  function LocalStart(): seq<byte> {
    Put32(LOCAL_SIGNATURE) + Stamp()
  }

  function LocalHeader(c: Codec, f: File): seq<byte> {
    LocalStart() + Sizes(c, f) + Put16(0)
  }

  function LocalEntry(c: Codec, f: File): seq<byte> {
    LocalHeader(c, f) + f.name + c.deflate(f.raw)
  }

  function CentralStart(): seq<byte> {
    Put32(CENTRAL_SIGNATURE) + Put16(VERSION) + Stamp()
  }

  function CentralHeader(c: Codec, f: File, offset: nat): seq<byte> {
    CentralStart() + Sizes(c, f) + Zeros(12) + Put32(offset)
  }

  function CentralEntry(c: Codec, f: File, offset: nat): seq<byte> {
    CentralHeader(c, f, offset) + f.name
  }

  function EndRecord(count: nat, centralSize: nat, offset: nat): seq<byte> {
    Put32(END_SIGNATURE) + Zeros(4) + Put16(count) + Put16(count) + Put32(centralSize) + Put32(offset) + Zeros(2)
  }

  /** Buffers laid end to end. */
  function Joined(parts: seq<seq<byte>>): seq<byte> {
    if parts == [] then [] else Joined(parts[..|parts| - 1]) + parts[|parts| - 1]
  }

  function LocalParts(c: Codec, files: seq<File>): seq<seq<byte>> {
    seq(|files|, i requires 0 <= i < |files| => LocalEntry(c, files[i]))
  }

  /** A directory entry points at where its local entry starts. */
  function CentralParts(c: Codec, files: seq<File>): seq<seq<byte>> {
    var locals := LocalParts(c, files);
    seq(|files|, i requires 0 <= i < |files| => CentralEntry(c, files[i], |Joined(locals[..i])|))
  }

  function Locals(c: Codec, files: seq<File>): seq<byte> {
    Joined(LocalParts(c, files))
  }

  function Centrals(c: Codec, files: seq<File>): seq<byte> {
    Joined(CentralParts(c, files))
  }

  function Assemble(locals: seq<seq<byte>>, centrals: seq<seq<byte>>): seq<byte> {
    Joined(locals) + Joined(centrals) + EndRecord(|locals|, |Joined(centrals)|, |Joined(locals)|)
  }

  function Archive(c: Codec, files: seq<File>): seq<byte> {
    Assemble(LocalParts(c, files), CentralParts(c, files))
  }

  /** One file's own numbers fit their fields. */
  predicate FileFits(c: Codec, f: File) {
    |f.name| <= MAX_16 && |c.deflate(f.raw)| <= MAX_32 && |f.raw| <= MAX_32
  }

  predicate AllFit(c: Codec, files: seq<File>) {
    forall i :: 0 <= i < |files| ==> FileFits(c, files[i])
  }

  /** Within the format's 16- and 32-bit limits. */
  predicate Fits(c: Codec, files: seq<File>) {
    AllFit(c, files) && |files| <= MAX_16 && |Centrals(c, files)| <= MAX_32 && |Locals(c, files)| <= MAX_32
  }

  lemma JoinedNext(parts: seq<seq<byte>>, i: nat)
    requires i < |parts|
    ensures Joined(parts[..i + 1]) == Joined(parts[..i]) + parts[i]
  {
    assert parts[..i + 1][..i] == parts[..i];
  }

  lemma {:induction false} JoinedGrows(parts: seq<seq<byte>>, i: nat)
    requires i <= |parts|
    ensures |Joined(parts[..i])| <= |Joined(parts)|
    decreases |parts| - i
  {
    if i < |parts| {
      JoinedNext(parts, i);
      JoinedGrows(parts, i + 1);
    } else {
      assert parts[..i] == parts;
    }
  }

  // ---- Writing ----

  datatype Write = Written | OutOfRange {
    predicate IsFailure() {
      OutOfRange?
    }

    function PropagateFailure(): Write {
      this
    }
  }

  method WriteUInt16LE(buf: array<byte>, v: nat, at: nat) returns (r: Write)
    requires at + 2 <= buf.Length
    modifies buf
    ensures r.Written? <==> v <= MAX_16
    ensures r.Written? ==> buf[..at + 2] == old(buf[..at]) + Put16(v)
    ensures forall k :: at + 2 <= k < buf.Length ==> buf[k] == old(buf[k])
  {
    if v > MAX_16 {
      return OutOfRange;
    }
    buf[at] := v % 0x100;
    buf[at + 1] := v / 0x100;
    TwoDigits(v);
    return Written;
  }

  method WriteUInt32LE(buf: array<byte>, v: nat, at: nat) returns (r: Write)
    requires at + 4 <= buf.Length
    modifies buf
    ensures r.Written? <==> v <= MAX_32
    ensures r.Written? ==> buf[..at + 4] == old(buf[..at]) + Put32(v)
    ensures forall k :: at + 4 <= k < buf.Length ==> buf[k] == old(buf[k])
  {
    if v > MAX_32 {
      return OutOfRange;
    }
    buf[at] := v % 0x100;
    buf[at + 1] := v / 0x100 % 0x100;
    buf[at + 2] := v / 0x1_0000 % 0x100;
    buf[at + 3] := v / 0x100_0000;
    FourDigits(v);
    return Written;
  }

  method WriteStamp(buf: array<byte>, at: nat) returns (r: Write)
    requires at + 10 <= buf.Length
    modifies buf
    ensures r.Written?
    ensures buf[..at + 10] == old(buf[..at]) + Stamp()
    ensures forall k :: at + 10 <= k < buf.Length ==> buf[k] == old(buf[k])
  {
    r := Written;
    :- WriteUInt16LE(buf, VERSION, at);
    :- WriteUInt16LE(buf, UTF8_NAMES, at + 2);
    :- WriteUInt16LE(buf, DEFLATE, at + 4);
    :- WriteUInt16LE(buf, DOS_TIME, at + 6);
    :- WriteUInt16LE(buf, DOS_DATE, at + 8);
    return Written;
  }

  method WriteSizes(buf: array<byte>, at: nat, c: Codec, f: File) returns (r: Write)
    requires at + 14 <= buf.Length
    modifies buf
    ensures r.Written? <==> FileFits(c, f)
    ensures r.Written? ==> buf[..at + 14] == old(buf[..at]) + Sizes(c, f)
    ensures forall k :: at + 14 <= k < buf.Length ==> buf[k] == old(buf[k])
  {
    r := Written;
    :- WriteUInt32LE(buf, c.crc(f.raw), at);
    :- WriteUInt32LE(buf, |c.deflate(f.raw)|, at + 4);
    :- WriteUInt32LE(buf, |f.raw|, at + 8);
    :- WriteUInt16LE(buf, |f.name|, at + 12);
    return Written;
  }

  method WriteLocalStart(local: array<byte>) returns (r: Write)
    requires local.Length == 30
    modifies local
    ensures r.Written? && local[..14] == LocalStart()
  {
    r := Written;
    :- WriteUInt32LE(local, LOCAL_SIGNATURE, 0);
    :- WriteStamp(local, 4);
    return Written;
  }

  method WriteLocalHeader(c: Codec, f: File) returns (r: Write, header: seq<byte>)
    ensures r.Written? <==> FileFits(c, f)
    ensures r.Written? ==> header == LocalHeader(c, f)
  {
    header := [];
    var local := new byte[30](i => 0);
    :- WriteLocalStart(local);
    :- WriteSizes(local, 14, c, f);
    :- WriteUInt16LE(local, 0, 28);
    assert local[..30] == local[..];
    return Written, local[..];
  }

  method WriteCentralStart(central: array<byte>) returns (r: Write)
    requires central.Length == 46
    modifies central
    ensures r.Written? && central[..16] == CentralStart()
    ensures forall k :: 16 <= k < 46 ==> central[k] == old(central[k])
  {
    r := Written;
    :- WriteUInt32LE(central, CENTRAL_SIGNATURE, 0);
    :- WriteUInt16LE(central, VERSION, 4);
    :- WriteStamp(central, 6);
    return Written;
  }

  method WriteCentralHeader(c: Codec, f: File, offset: nat) returns (r: Write, header: seq<byte>)
    ensures r.Written? <==> FileFits(c, f) && offset <= MAX_32
    ensures r.Written? ==> header == CentralHeader(c, f, offset)
  {
    header := [];
    var central := new byte[46](i => 0);
    :- WriteCentralStart(central);
    :- WriteSizes(central, 16, c, f);
    assert central[30..42] == Zeros(12);
    assert central[..42] == central[..30] + central[30..42];
    :- WriteUInt32LE(central, offset, 42);
    assert central[..46] == central[..];
    return Written, central[..];
  }

  method WriteEndRecord(count: nat, centralSize: nat, offset: nat) returns (r: Write, record: seq<byte>)
    ensures r.Written? <==> count <= MAX_16 && centralSize <= MAX_32 && offset <= MAX_32
    ensures r.Written? ==> record == EndRecord(count, centralSize, offset)
  {
    record := [];
    var end := new byte[22](i => 0);
    :- WriteUInt32LE(end, END_SIGNATURE, 0);
    assert end[4..8] == Zeros(4);
    assert end[..8] == end[..4] + end[4..8];
    :- WriteUInt16LE(end, count, 8);
    :- WriteUInt16LE(end, count, 10);
    :- WriteUInt32LE(end, centralSize, 12);
    :- WriteUInt32LE(end, offset, 16);
    assert end[20..22] == Zeros(2);
    assert end[..] == end[..20] + end[20..22];
    return Written, end[..];
  }

  /** A number that does not fit stops the whole export. */
  lemma TooLarge(c: Codec, files: seq<File>, i: nat)
    requires i < |files| && !(FileFits(c, files[i]) && |Joined(LocalParts(c, files)[..i])| <= MAX_32)
    ensures !Fits(c, files)
  {
    JoinedGrows(LocalParts(c, files), i);
  }

  lemma AllFitNext(c: Codec, files: seq<File>, i: nat)
    requires i < |files|
    ensures AllFit(c, files[..i + 1]) <==> AllFit(c, files[..i]) && FileFits(c, files[i])
  {
    assert files[..i + 1] == files[..i] + [files[i]];
  }

  /** Writes one file's two parts; the running offset is where its local header starts. */
  method WriteFile(c: Codec, f: File, offset: nat) returns (r: Write, local: seq<byte>, central: seq<byte>, next: nat)
    ensures r.Written? <==> FileFits(c, f) && offset <= MAX_32
    ensures r.Written? ==> local == LocalEntry(c, f) && central == CentralEntry(c, f, offset)
    ensures r.Written? ==> next == offset + |local|
  {
    local, central, next := [], [], 0;
    var data := c.deflate(f.raw);
    var header: seq<byte>;
    r, header := WriteLocalHeader(c, f);
    if r.OutOfRange? {
      return;
    }
    local := header + f.name + data;
    r, central := WriteCentralHeader(c, f, offset);
    if r.OutOfRange? {
      return;
    }
    central := central + f.name;
    next := offset + |header| + |f.name| + |data|;
  }

  lemma SliceNext<T>(xs: seq<T>, i: nat)
    requires i < |xs|
    ensures xs[..i + 1] == xs[..i] + [xs[i]]
  {
  }

  method AppendFile(c: Codec, files: seq<File>, i: nat, locals: seq<seq<byte>>, centrals: seq<seq<byte>>, offset: nat)
    returns (r: Write, moreLocals: seq<seq<byte>>, moreCentrals: seq<seq<byte>>, next: nat)
    requires i < |files| && AllFit(c, files[..i])
    requires locals == LocalParts(c, files)[..i] && centrals == CentralParts(c, files)[..i]
    requires offset == |Joined(locals)|
    ensures r.Written? ==> moreLocals == LocalParts(c, files)[..i + 1]
    ensures r.Written? ==> moreCentrals == CentralParts(c, files)[..i + 1]
    ensures r.Written? ==> next == |Joined(moreLocals)| && AllFit(c, files[..i + 1])
    ensures r.OutOfRange? ==> !Fits(c, files)
  {
    moreLocals, moreCentrals := [], [];
    var local, central: seq<byte>;
    r, local, central, next := WriteFile(c, files[i], offset);
    if r.OutOfRange? {
      TooLarge(c, files, i);
      return;
    }
    AllFitNext(c, files, i);
    JoinedNext(LocalParts(c, files), i);
    SliceNext(LocalParts(c, files), i);
    SliceNext(CentralParts(c, files), i);
    moreLocals, moreCentrals := locals + [local], centrals + [central];
  }

  /** Fails, as the buffer writes do, exactly when some number does not fit its field. */
  method Zip(c: Codec, files: seq<File>) returns (r: Write, archive: seq<byte>)
    ensures r.Written? <==> Fits(c, files)
    ensures r.Written? ==> archive == Archive(c, files)
  {
    archive := [];
    var locals: seq<seq<byte>>, centrals: seq<seq<byte>>, offset := [], [], 0;
    for i := 0 to |files|
      invariant locals == LocalParts(c, files)[..i] && centrals == CentralParts(c, files)[..i]
      invariant offset == |Joined(locals)| && AllFit(c, files[..i])
    {
      r, locals, centrals, offset := AppendFile(c, files, i, locals, centrals, offset);
      if r.OutOfRange? {
        return r, [];
      }
    }
    assert files[..|files|] == files;
    assert locals == LocalParts(c, files) && centrals == CentralParts(c, files);
    var s, end := WriteEndRecord(|files|, |Joined(centrals)|, offset);
    if s.OutOfRange? {
      return s, [];
    }
    return Written, Joined(locals) + Joined(centrals) + end;
  }
}
