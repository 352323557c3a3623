/**
 A reader that knows only the format: it finds the end record, walks the
 central directory and follows each stored offset to its local header.
 */
module ZipReader {
  import opened Wrappers
  import opened Zip

  datatype Entry = Entry(name: seq<byte>, data: seq<byte>, crc: nat, size: nat)

  /** The number stored in some bytes from a position on. */
  type Field = (nat, nat) -> nat

  /** The data a local header leads to, if the header agrees with the directory. */
  function ReadLocal(s: seq<byte>, get: Field, at: nat, name: seq<byte>, crc: nat, packed: nat, size: nat)
    : Option<Entry>
  {
    if at + 30 > |s| || get(at, 4) != LOCAL_SIGNATURE || get(at + 8, 2) != DEFLATE then None
    else if get(at + 14, 4) != crc || get(at + 18, 4) != packed || get(at + 22, 4) != size then None
    else
      var n := get(at + 26, 2);
      var start := at + 30 + n + get(at + 28, 2);
      if start + packed > |s| || s[at + 30..at + 30 + n] != name then None
      else Some(Entry(name, s[start..start + packed], crc, size))
  }

  /** One directory entry, and where the next one starts. */
  function ReadCentral(s: seq<byte>, get: Field, at: nat): Option<(Entry, nat)> {
    if at + 46 > |s| || get(at, 4) != CENTRAL_SIGNATURE || get(at + 10, 2) != DEFLATE then None
    else
      var n := get(at + 28, 2);
      var next := at + 46 + n + get(at + 30, 2) + get(at + 32, 2);
      if next > |s| then None
      else
        var entry := ReadLocal(s, get, get(at + 42, 4), s[at + 46..at + 46 + n],
                               get(at + 16, 4), get(at + 20, 4), get(at + 24, 4));
        if entry.None? then None else Some((entry.value, next))
  }

  /** Reads entries one after another; the last must lead to where the directory is said to end. */
  function ReadDirectory(next: nat -> Option<(Entry, nat)>, at: nat, count: nat, end: nat): Option<seq<Entry>>
    decreases count
  {
    if count == 0 then (if at == end then Some([]) else None)
    else
      var first := next(at);
      if first.None? then None
      else
        var rest := ReadDirectory(next, first.value.1, count - 1, end);
        if rest.None? then None else Some([first.value.0] + rest.value)
  }

  /** Where the end record says the directory starts, how many entries it has, and where it ends. */
  function FindDirectory(s: seq<byte>, get: Field): Option<(nat, nat, nat)> {
    if |s| < 22 || get(|s| - 22, 4) != END_SIGNATURE || get(|s| - 2, 2) != 0 then None
    else
      var end := |s| - 22;
      var size, offset := get(end + 12, 4), get(end + 16, 4);
      if get(end + 8, 2) != get(end + 10, 2) || offset + size != end then None
      else Some((offset, get(end + 10, 2), end))
  }

  function FieldsOf(s: seq<byte>): Field {
    (at: nat, n: nat) => if at + n <= |s| then Get(s, at, n) else 0
  }

  function CentralIn(s: seq<byte>, get: Field): nat -> Option<(Entry, nat)> {
    (at: nat) => ReadCentral(s, get, at)
  }

  function Read(s: seq<byte>): Option<seq<Entry>> {
    var get := FieldsOf(s);
    var found := FindDirectory(s, get);
    if found.None? then None else ReadDirectory(CentralIn(s, get), found.value.0, found.value.1, found.value.2)
  }

  /** What the archive should give back for a file, and for all. */
  function EntryOf(c: Codec, f: File): Entry {
    Entry(f.name, c.deflate(f.raw), c.crc(f.raw), |f.raw|)
  }

  function Entries(c: Codec, files: seq<File>): seq<Entry> {
    seq(|files|, i requires 0 <= i < |files| => EntryOf(c, files[i]))
  }

  // ---- Headers inside an archive ----

  /** The bytes of piece, from a position on. */
  ghost predicate At(s: seq<byte>, at: nat, piece: seq<byte>) {
    at + |piece| <= |s| && forall k :: 0 <= k < |piece| ==> s[at + k] == piece[k]
  }

  lemma AtSlice(s: seq<byte>, at: nat, piece: seq<byte>)
    requires At(s, at, piece)
    ensures s[at..at + |piece|] == piece
  {
  }

  function Limit(n: nat): nat {
    if n == 0 then 1 else 0x100 * Limit(n - 1)
  }

  lemma {:induction false} GetsDigits(s: seq<byte>, at: nat, v: nat, n: nat)
    requires At(s, at, Digits(v, n)) && v < Limit(n)
    ensures Get(s, at, n) == v
    decreases n
  {
    if n > 0 {
      var digits, rest := Digits(v, n), Digits(v / 0x100, n - 1);
      assert s[at] == digits[0];
      forall k | 0 <= k < n - 1 ensures s[at + 1 + k] == rest[k] {
        assert s[at + (k + 1)] == digits[k + 1];
      }
      GetsDigits(s, at + 1, v / 0x100, n - 1);
    }
  }

  /** A field reader that reads back what Digits writes. */
  ghost predicate Faithful(s: seq<byte>, get: Field) {
    forall at: nat, v: nat, n: nat :: At(s, at, Digits(v, n)) && v < Limit(n) ==> get(at, n) == v
  }

  lemma FieldsAreFaithful(s: seq<byte>)
    ensures Faithful(s, FieldsOf(s))
  {
    forall at: nat, v: nat, n: nat | At(s, at, Digits(v, n)) && v < Limit(n) ensures FieldsOf(s)(at, n) == v {
      GetsDigits(s, at, v, n);
    }
  }

  lemma Limits()
    ensures Limit(2) == MAX_16 + 1 && Limit(4) == MAX_32 + 1
  {
    assert Limit(1) == 0x100 && Limit(2) == 0x1_0000 && Limit(3) == 0x100_0000;
  }

  lemma Reads16(s: seq<byte>, get: Field, at: nat, v: nat)
    requires Faithful(s, get) && At(s, at, Put16(v)) && v <= MAX_16
    ensures get(at, 2) == v
  {
    Limits();
  }

  lemma Reads32(s: seq<byte>, get: Field, at: nat, v: nat)
    requires Faithful(s, get) && At(s, at, Put32(v)) && v <= MAX_32
    ensures get(at, 4) == v
  {
    Limits();
  }

  lemma Within(s: seq<byte>, at: nat, whole: seq<byte>, from: nat, part: seq<byte>)
    requires At(s, at, whole) && At(whole, from, part)
    ensures At(s, at + from, part)
  {
    forall k | 0 <= k < |part| ensures s[at + from + k] == part[k] {
      assert s[at + (from + k)] == whole[from + k];
    }
  }

  lemma Follows(s: seq<byte>, at: nat, a: seq<byte>, b: seq<byte>)
    requires At(s, at, a + b)
    ensures At(s, at, a) && At(s, at + |a|, b)
  {
    assert (a + b)[..|a|] == a;
    Within(s, at, a + b, 0, a);
    Within(s, at, a + b, |a|, b);
  }

  lemma StampSays(s: seq<byte>, get: Field, at: nat)
    requires Faithful(s, get) && At(s, at, Stamp())
    ensures get(at + 4, 2) == DEFLATE
  {
    var start := Put16(VERSION) + Put16(UTF8_NAMES);
    Follows(s, at, start + Put16(DEFLATE) + Put16(DOS_TIME), Put16(DOS_DATE));
    Follows(s, at, start + Put16(DEFLATE), Put16(DOS_TIME));
    Follows(s, at, start, Put16(DEFLATE));
    Reads16(s, get, at + 4, DEFLATE);
  }

  lemma SizesSay(s: seq<byte>, get: Field, at: nat, c: Codec, f: File)
    requires Faithful(s, get) && At(s, at, Sizes(c, f)) && FileFits(c, f)
    ensures get(at, 4) == c.crc(f.raw) && get(at + 4, 4) == |c.deflate(f.raw)|
    ensures get(at + 8, 4) == |f.raw| && get(at + 12, 2) == |f.name|
  {
    var crc, packed, size := Put32(c.crc(f.raw)), Put32(|c.deflate(f.raw)|), Put32(|f.raw|);
    Follows(s, at, crc + packed + size, Put16(|f.name|));
    Follows(s, at, crc + packed, size);
    Follows(s, at, crc, packed);
    Reads32(s, get, at, c.crc(f.raw));
    Reads32(s, get, at + 4, |c.deflate(f.raw)|);
    Reads32(s, get, at + 8, |f.raw|);
    Reads16(s, get, at + 12, |f.name|);
  }

  lemma LocalHeaderSays(s: seq<byte>, get: Field, at: nat, c: Codec, f: File)
    requires Faithful(s, get) && At(s, at, LocalHeader(c, f)) && FileFits(c, f)
    ensures get(at, 4) == LOCAL_SIGNATURE && get(at + 8, 2) == DEFLATE
    ensures get(at + 14, 4) == c.crc(f.raw) && get(at + 18, 4) == |c.deflate(f.raw)|
    ensures get(at + 22, 4) == |f.raw| && get(at + 26, 2) == |f.name| && get(at + 28, 2) == 0
  {
    var signature := Put32(LOCAL_SIGNATURE);
    Follows(s, at, signature + Stamp() + Sizes(c, f), Put16(0));
    Follows(s, at, signature + Stamp(), Sizes(c, f));
    Follows(s, at, signature, Stamp());
    Reads32(s, get, at, LOCAL_SIGNATURE);
    StampSays(s, get, at + 4);
    SizesSay(s, get, at + 14, c, f);
    Reads16(s, get, at + 28, 0);
  }

  lemma CentralStartSays(s: seq<byte>, get: Field, at: nat)
    requires Faithful(s, get) && At(s, at, CentralStart())
    ensures get(at, 4) == CENTRAL_SIGNATURE && get(at + 10, 2) == DEFLATE
  {
    var signature := Put32(CENTRAL_SIGNATURE);
    Follows(s, at, signature + Put16(VERSION), Stamp());
    Follows(s, at, signature, Put16(VERSION));
    Reads32(s, get, at, CENTRAL_SIGNATURE);
    StampSays(s, get, at + 6);
  }

  lemma ZerosSay(s: seq<byte>, get: Field, at: nat, n: nat, k: nat)
    requires Faithful(s, get) && At(s, at, Zeros(n)) && k + 2 <= n
    ensures get(at + k, 2) == 0
  {
    assert s[at + k] == Zeros(n)[k] && s[at + (k + 1)] == Zeros(n)[k + 1];
    TwoDigits(0);
    Reads16(s, get, at + k, 0);
  }

  lemma CentralHeaderSays(s: seq<byte>, get: Field, at: nat, c: Codec, f: File, offset: nat)
    requires Faithful(s, get) && At(s, at, CentralHeader(c, f, offset)) && FileFits(c, f) && offset <= MAX_32
    ensures At(s, at, CentralStart()) && At(s, at + 16, Sizes(c, f))
    ensures get(at + 30, 2) == 0 && get(at + 32, 2) == 0 && get(at + 42, 4) == offset
  {
    Follows(s, at, CentralStart() + Sizes(c, f) + Zeros(12), Put32(offset));
    Follows(s, at, CentralStart() + Sizes(c, f), Zeros(12));
    Follows(s, at, CentralStart(), Sizes(c, f));
    ZerosSay(s, get, at + 30, 12, 0);
    ZerosSay(s, get, at + 30, 12, 2);
    Reads32(s, get, at + 42, offset);
  }

  lemma EndRecordSays(s: seq<byte>, get: Field, at: nat, count: nat, size: nat, offset: nat)
    requires Faithful(s, get) && At(s, at, EndRecord(count, size, offset))
    requires count <= MAX_16 && size <= MAX_32 && offset <= MAX_32
    ensures get(at, 4) == END_SIGNATURE && get(at + 8, 2) == count && get(at + 10, 2) == count
    ensures get(at + 12, 4) == size && get(at + 16, 4) == offset && get(at + 20, 2) == 0
  {
    var signature := Put32(END_SIGNATURE);
    var counts := signature + Zeros(4) + Put16(count) + Put16(count);
    Follows(s, at, counts + Put32(size) + Put32(offset), Zeros(2));
    Follows(s, at, counts + Put32(size), Put32(offset));
    Follows(s, at, counts, Put32(size));
    Follows(s, at, signature + Zeros(4) + Put16(count), Put16(count));
    Follows(s, at, signature + Zeros(4), Put16(count));
    Follows(s, at, signature, Zeros(4));
    Reads32(s, get, at, END_SIGNATURE);
    Reads16(s, get, at + 8, count);
    Reads16(s, get, at + 10, count);
    Reads32(s, get, at + 12, size);
    Reads32(s, get, at + 16, offset);
    ZerosSay(s, get, at + 20, 2, 0);
  }

  // ---- Entries inside an archive ----

  lemma HeaderLengths(c: Codec, f: File, offset: nat)
    ensures |LocalHeader(c, f)| == 30 && |CentralHeader(c, f, offset)| == 46
  {
  }

  /** A local header for an entry, with its name and data behind it. */
  ghost predicate LocalSays(s: seq<byte>, get: Field, at: nat, entry: Entry) {
    && At(s, at + 30, entry.name) && At(s, at + 30 + |entry.name|, entry.data)
    && get(at, 4) == LOCAL_SIGNATURE && get(at + 8, 2) == DEFLATE
    && get(at + 14, 4) == entry.crc && get(at + 18, 4) == |entry.data| && get(at + 22, 4) == entry.size
    && get(at + 26, 2) == |entry.name| && get(at + 28, 2) == 0
  }

  /** A directory entry pointing at an offset. */
  ghost predicate CentralSays(s: seq<byte>, get: Field, at: nat, entry: Entry, offset: nat) {
    && At(s, at + 46, entry.name)
    && get(at, 4) == CENTRAL_SIGNATURE && get(at + 10, 2) == DEFLATE
    && get(at + 16, 4) == entry.crc && get(at + 20, 4) == |entry.data| && get(at + 24, 4) == entry.size
    && get(at + 28, 2) == |entry.name| && get(at + 30, 2) == 0 && get(at + 32, 2) == 0
    && get(at + 42, 4) == offset
  }

  lemma LocalEntrySays(s: seq<byte>, get: Field, at: nat, c: Codec, f: File)
    requires Faithful(s, get) && At(s, at, LocalEntry(c, f)) && FileFits(c, f)
    ensures LocalSays(s, get, at, EntryOf(c, f))
  {
    HeaderLengths(c, f, 0);
    Follows(s, at, LocalHeader(c, f) + f.name, c.deflate(f.raw));
    Follows(s, at, LocalHeader(c, f), f.name);
    LocalHeaderSays(s, get, at, c, f);
  }

  lemma CentralEntrySays(s: seq<byte>, get: Field, at: nat, c: Codec, f: File, offset: nat)
    requires Faithful(s, get) && At(s, at, CentralEntry(c, f, offset)) && FileFits(c, f) && offset <= MAX_32
    ensures |CentralEntry(c, f, offset)| == 46 + |f.name| && CentralSays(s, get, at, EntryOf(c, f), offset)
  {
    HeaderLengths(c, f, offset);
    Follows(s, at, CentralHeader(c, f, offset), f.name);
    CentralHeaderSays(s, get, at, c, f, offset);
    CentralStartSays(s, get, at);
    SizesSay(s, get, at + 16, c, f);
  }

  lemma ReadsLocal(s: seq<byte>, get: Field, at: nat, entry: Entry)
    requires LocalSays(s, get, at, entry)
    ensures ReadLocal(s, get, at, entry.name, entry.crc, |entry.data|, entry.size) == Some(entry)
  {
    AtSlice(s, at + 30, entry.name);
    AtSlice(s, at + 30 + |entry.name|, entry.data);
  }

  lemma ReadsCentral(s: seq<byte>, get: Field, at: nat, entry: Entry, offset: nat)
    requires LocalSays(s, get, offset, entry) && CentralSays(s, get, at, entry, offset)
    ensures ReadCentral(s, get, at) == Some((entry, at + 46 + |entry.name|))
  {
    ReadsLocal(s, get, offset, entry);
    AtSlice(s, at + 46, entry.name);
  }

  /** A step that reads what the two headers of an entry say. */
  ghost predicate Heeds(s: seq<byte>, get: Field, next: nat -> Option<(Entry, nat)>) {
    forall at: nat, offset: nat, entry ::
      LocalSays(s, get, offset, entry) && CentralSays(s, get, at, entry, offset) ==>
        next(at) == Some((entry, at + 46 + |entry.name|))
  }

  lemma ReaderHeeds(s: seq<byte>, get: Field)
    ensures Heeds(s, get, CentralIn(s, get))
  {
    forall at: nat, offset: nat, entry | LocalSays(s, get, offset, entry) && CentralSays(s, get, at, entry, offset)
      ensures CentralIn(s, get)(at) == Some((entry, at + 46 + |entry.name|))
    {
      ReadsCentral(s, get, at, entry, offset);
    }
  }

  // ---- Parts laid end to end ----

  lemma {:induction false} PartLies(parts: seq<seq<byte>>, i: nat)
    requires i <= |parts|
    ensures At(Joined(parts), 0, Joined(parts[..i]))
    ensures i < |parts| ==> At(Joined(parts), |Joined(parts[..i])|, parts[i])
    decreases |parts| - i
  {
    if i == |parts| {
      assert parts[..i] == parts;
    } else {
      PartLies(parts, i + 1);
      JoinedNext(parts, i);
      Follows(Joined(parts), 0, Joined(parts[..i]), parts[i]);
    }
  }

  /** The i-th directory part leads the reader to the i-th entry and past the part. */
  ghost predicate Leads(s: seq<byte>, next: nat -> Option<(Entry, nat)>, locals: seq<seq<byte>>,
                        centrals: seq<seq<byte>>, entries: seq<Entry>, i: nat)
    requires i < |locals| && i < |centrals| && i < |entries|
  {
    forall at: nat :: At(s, |Joined(locals[..i])|, locals[i]) && At(s, at, centrals[i]) ==>
      next(at) == Some((entries[i], at + |centrals[i]|))
  }

  /** Where the parts lie, the i-th step reads the i-th entry. */
  lemma StepReads(s: seq<byte>, next: nat -> Option<(Entry, nat)>, locals: seq<seq<byte>>, centrals: seq<seq<byte>>,
                  entries: seq<Entry>, start: nat, i: nat)
    requires i < |locals| && i < |centrals| && i < |entries| && Leads(s, next, locals, centrals, entries, i)
    requires At(s, 0, Joined(locals)) && At(s, start, Joined(centrals))
    ensures var at := start + |Joined(centrals[..i])|; next(at) == Some((entries[i], at + |centrals[i]|))
  {
    PartLies(locals, i);
    PartLies(centrals, i);
    Within(s, 0, Joined(locals), |Joined(locals[..i])|, locals[i]);
    Within(s, start, Joined(centrals), |Joined(centrals[..i])|, centrals[i]);
  }

  lemma {:induction false} ReadsDirectory(next: nat -> Option<(Entry, nat)>, ats: seq<nat>, entries: seq<Entry>, i: nat)
    requires |ats| == |entries| + 1 && i <= |entries|
    requires forall k, l :: 0 <= k < |entries| && l == k + 1 ==> next(ats[k]) == Some((entries[k], ats[l]))
    ensures ReadDirectory(next, ats[i], |entries| - i, ats[|entries|]) == Some(entries[i..])
    decreases |entries| - i
  {
    if i < |entries| {
      ReadsDirectory(next, ats, entries, i + 1);
      assert entries[i..] == [entries[i]] + entries[i + 1..];
    } else {
      assert entries[i..] == [];
    }
  }

  lemma FileIsRead(s: seq<byte>, get: Field, next: nat -> Option<(Entry, nat)>, c: Codec, f: File, offset: nat, at: nat)
    requires Faithful(s, get) && Heeds(s, get, next) && FileFits(c, f) && offset <= MAX_32
    requires At(s, offset, LocalEntry(c, f)) && At(s, at, CentralEntry(c, f, offset))
    ensures next(at) == Some((EntryOf(c, f), at + |CentralEntry(c, f, offset)|))
  {
    LocalEntrySays(s, get, offset, c, f);
    CentralEntrySays(s, get, at, c, f, offset);
  }

  lemma FileLeads(s: seq<byte>, get: Field, next: nat -> Option<(Entry, nat)>, c: Codec, f: File,
                  locals: seq<seq<byte>>, centrals: seq<seq<byte>>, entries: seq<Entry>, i: nat)
    requires Faithful(s, get) && Heeds(s, get, next) && FileFits(c, f)
    requires i < |locals| && i < |centrals| && i < |entries| && |Joined(locals)| <= MAX_32
    requires locals[i] == LocalEntry(c, f) && entries[i] == EntryOf(c, f)
    requires centrals[i] == CentralEntry(c, f, |Joined(locals[..i])|)
    ensures Leads(s, next, locals, centrals, entries, i)
  {
    var offset := |Joined(locals[..i])|;
    JoinedGrows(locals, i);
    forall at: nat | At(s, offset, locals[i]) && At(s, at, centrals[i])
      ensures next(at) == Some((entries[i], at + |centrals[i]|))
    {
      FileIsRead(s, get, next, c, f, offset, at);
    }
  }

  lemma EndLeadsTo(s: seq<byte>, get: Field, count: nat, size: nat, offset: nat)
    requires |s| == offset + size + 22
    requires var end := offset + size;
             && get(end, 4) == END_SIGNATURE && get(end + 8, 2) == count && get(end + 10, 2) == count
             && get(end + 12, 4) == size && get(end + 16, 4) == offset && get(end + 20, 2) == 0
    ensures FindDirectory(s, get) == Some((offset, count, offset + size))
  {
  }

  lemma FindsDirectory(s: seq<byte>, get: Field, locals: seq<byte>, centrals: seq<byte>, count: nat)
    requires count <= MAX_16 && |centrals| <= MAX_32 && |locals| <= MAX_32
    requires Faithful(s, get) && s == locals + centrals + EndRecord(count, |centrals|, |locals|)
    ensures FindDirectory(s, get) == Some((|locals|, count, |locals| + |centrals|))
  {
    var end := EndRecord(count, |centrals|, |locals|);
    Follows(s, 0, locals + centrals, end);
    EndRecordSays(s, get, |locals| + |centrals|, count, |centrals|, |locals|);
    EndLeadsTo(s, get, count, |centrals|, |locals|);
  }

  lemma PartsLie(locals: seq<byte>, centrals: seq<byte>, end: seq<byte>)
    ensures At(locals + centrals + end, 0, locals) && At(locals + centrals + end, |locals|, centrals)
  {
    Follows(locals + centrals + end, 0, locals + centrals, end);
    Follows(locals + centrals + end, 0, locals, centrals);
  }

  /** Where the directory's entries start, and where it ends. */
  function Starts(parts: seq<seq<byte>>, start: nat): seq<nat> {
    seq(|parts| + 1, i requires 0 <= i <= |parts| => start + |Joined(parts[..i])|)
  }

  lemma ReadsEntries(s: seq<byte>, next: nat -> Option<(Entry, nat)>, locals: seq<seq<byte>>,
                     centrals: seq<seq<byte>>, entries: seq<Entry>, start: nat)
    requires |locals| == |centrals| == |entries|
    requires forall k :: 0 <= k < |entries| ==> Leads(s, next, locals, centrals, entries, k)
    requires At(s, 0, Joined(locals)) && At(s, start, Joined(centrals))
    ensures ReadDirectory(next, start, |entries|, start + |Joined(centrals)|) == Some(entries)
  {
    var ats := Starts(centrals, start);
    forall k, l | 0 <= k < |entries| && l == k + 1 ensures next(ats[k]) == Some((entries[k], ats[l])) {
      StepReads(s, next, locals, centrals, entries, start, k);
      JoinedNext(centrals, k);
    }
    ReadsDirectory(next, ats, entries, 0);
    assert centrals[..0] == [] && centrals[..|centrals|] == centrals && entries[0..] == entries;
  }

  lemma ReadsAssembled(locals: seq<seq<byte>>, centrals: seq<seq<byte>>, entries: seq<Entry>)
    requires |locals| == |centrals| == |entries| <= MAX_16
    requires |Joined(centrals)| <= MAX_32 && |Joined(locals)| <= MAX_32
    requires var s := Assemble(locals, centrals);
             forall k :: 0 <= k < |entries| ==> Leads(s, CentralIn(s, FieldsOf(s)), locals, centrals, entries, k)
    ensures Read(Assemble(locals, centrals)) == Some(entries)
  {
    var s := Assemble(locals, centrals);
    var get := FieldsOf(s);
    FieldsAreFaithful(s);
    PartsLie(Joined(locals), Joined(centrals), EndRecord(|locals|, |Joined(centrals)|, |Joined(locals)|));
    ReadsEntries(s, CentralIn(s, get), locals, centrals, entries, |Joined(locals)|);
    FindsDirectory(s, get, Joined(locals), Joined(centrals), |locals|);
  }

  lemma AllLead(s: seq<byte>, get: Field, next: nat -> Option<(Entry, nat)>, c: Codec, files: seq<File>)
    requires Faithful(s, get) && Heeds(s, get, next) && AllFit(c, files) && |Joined(LocalParts(c, files))| <= MAX_32
    ensures forall k :: 0 <= k < |files| ==>
      Leads(s, next, LocalParts(c, files), CentralParts(c, files), Entries(c, files), k)
  {
    var locals, centrals, entries := LocalParts(c, files), CentralParts(c, files), Entries(c, files);
    forall k | 0 <= k < |files| ensures Leads(s, next, locals, centrals, entries, k) {
      FileLeads(s, get, next, c, files[k], locals, centrals, entries, k);
    }
  }

  /**
   Round trip: from any archive within the format's limits, the reader recovers
   every name, compressed body, checksum and size, in order.
   */
  lemma ReadsWhatWasWritten(c: Codec, files: seq<File>)
    requires Fits(c, files)
    ensures Read(Archive(c, files)) == Some(Entries(c, files))
  {
    var s := Archive(c, files);
    var get := FieldsOf(s);
    FieldsAreFaithful(s);
    ReaderHeeds(s, get);
    AllLead(s, get, CentralIn(s, get), c, files);
    ReadsAssembled(LocalParts(c, files), CentralParts(c, files), Entries(c, files));
  }

  /** With a decompressor that undoes the compressor, the contents come back. */
  lemma ContentsSurvive(c: Codec, inflate: seq<byte> -> seq<byte>, files: seq<File>, i: nat)
    requires Fits(c, files) && i < |files| && forall raw :: inflate(c.deflate(raw)) == raw
    ensures var read := Read(Archive(c, files));
            && read.Some? && |read.value| == |files|
            && var e := read.value[i];
               && e.name == files[i].name && inflate(e.data) == files[i].raw
               && c.crc(inflate(e.data)) == e.crc && |inflate(e.data)| == e.size
  {
    ReadsWhatWasWritten(c, files);
  }
}
