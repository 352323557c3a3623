/** The CSV export and a reader for it that follows section 2 of RFC 4180. */
module Csv {
  import opened Wrappers

  const BOM := '\U{FEFF}'
  const CR := '\r'
  const LF := '\n'
  const CRLF := "\r\n"
  const QUOTE := '"'

  predicate IsNumeral(text: string) {
    forall c :: c in text ==> '0' <= c <= '9' || c == '-' || c == '+' || c == '.' || c == 'e'
  }

  /** How a finite number prints. */
  type Numeral = text: string | IsNumeral(text)

  /** A date is the text it prints as. */
  datatype Value = Missing | NotFinite | Number(numeral: Numeral) | Text(text: string)

  datatype Column<!T> = Column(header: string, value: T -> Value)

  // ---- Printing ----

  predicate StartsLikeFormula(text: string) {
    text != "" && text[0] in {'=', '+', '-', '@', '\t', '\r'}
  }

  /** What a cell shows: text that would run as a formula gets a leading apostrophe. */
  function Shown(v: Value): string {
    match v
    case Missing => ""
    case NotFinite => ""
    case Number(numeral) => numeral
    case Text(text) => if StartsLikeFormula(text) then "'" + text else text
  }

  /** A text cell never starts like a formula, and shows the text itself unless the text does. */
  lemma TextNeverRuns(text: string)
    ensures var shown := Shown(Text(text));
            && (shown == "" || (shown[0] != '=' && shown[0] != '+' && shown[0] != '-' && shown[0] != '@'
                                && shown[0] as int != 9 && shown[0] as int != 13))
            && (shown == text || shown == "'" + text)
            && (shown == text <==>
                text == "" || (text[0] != '=' && text[0] != '+' && text[0] != '-' && text[0] != '@'
                               && text[0] as int != 9 && text[0] as int != 13))
  {
    if text != "" {
      assert |"'" + text| == 1 + |text|;
      assert text[0] as int == 9 <==> text[0] == '\t';
      assert text[0] as int == 13 <==> text[0] == '\r';
    }
  }

  predicate IsSpecial(c: char) {
    c == QUOTE || c == ',' || c == CR || c == LF
  }

  predicate HasSpecial(text: string) {
    exists i :: 0 <= i < |text| && IsSpecial(text[i])
  }

  function Doubled(text: string): string {
    if text == "" then ""
    else (if text[0] == QUOTE then [QUOTE, QUOTE] else [text[0]]) + Doubled(text[1..])
  }

  function Cell(v: Value): string {
    match v
    case Missing => ""
    case NotFinite => ""
    case Number(numeral) => numeral
    case Text(_) =>
      var text := Shown(v);
      if HasSpecial(text) then [QUOTE] + Doubled(text) + [QUOTE] else text
  }

  /** Values that are missing or not finite print as nothing, a number as its numeral. */
  lemma NumbersShowPlainly(v: Value)
    requires !v.Text?
    ensures Cell(v) == Shown(v) == if v.Number? then v.numeral else ""
  {
  }

  /** A cell is quoted exactly when its text holds a quote, a comma, a carriage return or a line feed. */
  lemma QuotedExactlyWhen(text: string)
    ensures var shown, cell := Shown(Text(text)), Cell(Text(text));
            var plain := forall c :: c in shown ==> c != '\"' && c != ',' && c != '\r' && c != '\n';
            if plain then cell == shown else |cell| >= 2 && cell[0] == '\"' && cell[|cell| - 1] == '\"'
  {
    var shown := Shown(Text(text));
    if HasSpecial(shown) {
      var i :| 0 <= i < |shown| && IsSpecial(shown[i]);
      assert shown[i] in shown;
    }
  }

  function Join(parts: seq<string>, separator: string): string {
    if parts == [] then ""
    else if |parts| == 1 then parts[0]
    else parts[0] + separator + Join(parts[1..], separator)
  }

  function Headings<T>(columns: seq<Column<T>>): seq<Value> {
    seq(|columns|, i requires 0 <= i < |columns| => Text(columns[i].header))
  }

  function Values<T>(columns: seq<Column<T>>, row: T): seq<Value> {
    seq(|columns|, i requires 0 <= i < |columns| => columns[i].value(row))
  }

  /** The table: the headings, then a line of values for every row. */
  function Table<T>(columns: seq<Column<T>>, rows: seq<T>): seq<seq<Value>> {
    [Headings(columns)] + seq(|rows|, i requires 0 <= i < |rows| => Values(columns, rows[i]))
  }

  function Line(values: seq<Value>): string {
    Join(seq(|values|, i requires 0 <= i < |values| => Cell(values[i])), ",")
  }

  function Lines(table: seq<seq<Value>>): seq<string> {
    seq(|table|, i requires 0 <= i < |table| => Line(table[i]))
  }

  /** Every line with its line end. */
  function Body(lines: seq<string>): string {
    if lines == [] then "" else lines[0] + CRLF + Body(lines[1..])
  }

  lemma {:induction false} JoinedLinesEnd(lines: seq<string>)
    requires lines != []
    ensures Join(lines, CRLF) + CRLF == Body(lines)
  {
    if |lines| > 1 {
      JoinedLinesEnd(lines[1..]);
      assert Join(lines, CRLF) + CRLF == lines[0] + CRLF + (Join(lines[1..], CRLF) + CRLF);
    }
  }

  method ToCsv<T>(columns: seq<Column<T>>, rows: seq<T>) returns (csv: string)
    ensures csv == [BOM] + Body(Lines(Table(columns, rows)))
  {
    var lines := [Line(Headings(columns))];
    for i := 0 to |rows|
      invariant lines == Lines(Table(columns, rows))[..i + 1]
    {
      assert Table(columns, rows)[i + 1] == Values(columns, rows[i]);
      lines := lines + [Line(Values(columns, rows[i]))];
    }
    assert lines == Lines(Table(columns, rows));
    JoinedLinesEnd(lines);
    return [BOM] + (Join(lines, CRLF) + CRLF);
  }

  // ---- Reading ----

  /** The text up to the closing quote, and what follows it. */
  function ReadQuoted(s: string): Option<(string, string)> {
    if s == "" then None
    else if s[0] == QUOTE then
      if |s| > 1 && s[1] == QUOTE then
        var more := ReadQuoted(s[2..]);
        if more.None? then None else Some(([QUOTE] + more.value.0, more.value.1))
      else Some(("", s[1..]))
    else
      var more := ReadQuoted(s[1..]);
      if more.None? then None else Some(([s[0]] + more.value.0, more.value.1))
  }

  function ReadPlain(s: string): (r: (string, string))
    ensures |r.1| <= |s|
  {
    if s == "" || IsSpecial(s[0]) then ("", s)
    else
      var more := ReadPlain(s[1..]);
      ([s[0]] + more.0, more.1)
  }

  function ReadField(s: string): Option<(string, string)> {
    if s != "" && s[0] == QUOTE then ReadQuoted(s[1..]) else Some(ReadPlain(s))
  }

  lemma {:induction false} QuotedGetsShorter(s: string)
    ensures ReadQuoted(s).Some? ==> |ReadQuoted(s).value.1| < |s|
  {
    if s != "" {
      if s[0] == QUOTE && |s| > 1 && s[1] == QUOTE {
        QuotedGetsShorter(s[2..]);
      } else if s[0] != QUOTE {
        QuotedGetsShorter(s[1..]);
      }
    }
  }

  /** Fields up to the end of the record. */
  function ReadRecord(s: string): Option<(seq<string>, string)>
    decreases |s|
  {
    var field := ReadField(s);
    if field.None? then None
    else
      var rest := field.value.1;
      if rest == "" then Some(([field.value.0], ""))
      else if CRLF <= rest then Some(([field.value.0], rest[2..]))
      else if rest[0] != ',' then None
      else
        assert |rest| <= |s| by { if s != "" { QuotedGetsShorter(s[1..]); } }
        var more := ReadRecord(rest[1..]);
        if more.None? then None else Some(([field.value.0] + more.value.0, more.value.1))
  }

  function ReadRecords(s: string): Option<seq<seq<string>>>
    decreases |s|
  {
    if s == "" then Some([])
    else
      var record := ReadRecord(s);
      if record.None? || |record.value.1| >= |s| then None
      else
        var more := ReadRecords(record.value.1);
        if more.None? then None else Some([record.value.0] + more.value)
  }

  function Read(csv: string): Option<seq<seq<string>>> {
    ReadRecords(if csv != "" && csv[0] == BOM then csv[1..] else csv)
  }

  /** What the reader should find: the texts the cells show. */
  function ShownLine(values: seq<Value>): seq<string> {
    seq(|values|, i requires 0 <= i < |values| => Shown(values[i]))
  }

  function ShownTable(table: seq<seq<Value>>): seq<seq<string>> {
    seq(|table|, i requires 0 <= i < |table| => ShownLine(table[i]))
  }

  // ---- Round trip ----

  lemma {:induction false} ReadsDoubled(text: string, rest: string)
    requires rest == "" || rest[0] != QUOTE
    ensures ReadQuoted(Doubled(text) + [QUOTE] + rest) == Some((text, rest))
  {
    var s := Doubled(text) + [QUOTE] + rest;
    if text == "" {
      assert s == [QUOTE] + rest && s[1..] == rest;
    } else {
      ReadsDoubled(text[1..], rest);
      var tail := Doubled(text[1..]) + [QUOTE] + rest;
      if text[0] == QUOTE {
        assert s == [QUOTE, QUOTE] + tail && s[2..] == tail;
        assert text == [QUOTE] + text[1..];
      } else {
        assert s == [text[0]] + tail && s[1..] == tail;
        assert text == [text[0]] + text[1..];
      }
    }
  }

  lemma {:induction false} ReadsPlain(text: string, rest: string)
    requires !HasSpecial(text) && (rest == "" || IsSpecial(rest[0]))
    ensures ReadPlain(text + rest) == (text, rest)
  {
    if text == "" {
      assert text + rest == rest;
    } else {
      assert !IsSpecial(text[0]);
      assert forall i :: 0 <= i < |text| - 1 ==> text[1..][i] == text[i + 1];
      ReadsPlain(text[1..], rest);
      assert (text + rest)[1..] == text[1..] + rest && text == [text[0]] + text[1..];
    }
  }

  lemma NumeralsArePlain(numeral: Numeral)
    ensures !HasSpecial(numeral)
  {
    forall i | 0 <= i < |numeral| ensures !IsSpecial(numeral[i]) {
      assert numeral[i] in numeral;
    }
  }

  lemma ReadsCell(v: Value, rest: string)
    requires rest != "" && IsSpecial(rest[0]) && rest[0] != QUOTE
    ensures ReadField(Cell(v) + rest) == Some((Shown(v), rest))
  {
    var text := Shown(v);
    if v.Number? {
      NumeralsArePlain(v.numeral);
    }
    if HasSpecial(text) {
      var quoted := Doubled(text) + [QUOTE] + rest;
      assert Cell(v) + rest == [QUOTE] + quoted;
      ReadsDoubled(text, rest);
    } else {
      PlainCellReads(v, rest);
    }
  }

  lemma PlainCellReads(v: Value, rest: string)
    requires !HasSpecial(Shown(v)) && rest != "" && IsSpecial(rest[0]) && rest[0] != QUOTE
    ensures ReadField(Cell(v) + rest) == Some((Shown(v), rest))
  {
    ReadsPlain(Shown(v), rest);
    var s := Shown(v) + rest;
    if Shown(v) != "" {
      assert s[0] == Shown(v)[0] && !IsSpecial(Shown(v)[0]);
    }
  }

  lemma LineOfMore(values: seq<Value>)
    requires |values| > 1
    ensures Line(values) == Cell(values[0]) + "," + Line(values[1..])
    ensures ShownLine(values) == [Shown(values[0])] + ShownLine(values[1..])
  {
    var cells, tail := seq(|values|, i requires 0 <= i < |values| => Cell(values[i])), values[1..];
    assert cells[1..] == seq(|tail|, i requires 0 <= i < |tail| => Cell(tail[i]));
  }

  lemma ReadsLastField(v: Value, rest: string)
    ensures ReadRecord(Cell(v) + CRLF + rest) == Some(([Shown(v)], rest))
  {
    var after := CRLF + rest;
    assert Cell(v) + CRLF + rest == Cell(v) + after;
    ReadsCell(v, after);
    assert after[..2] == CRLF && after[2..] == rest;
  }

  lemma ReadsNextField(v: Value, line: string, texts: seq<string>, rest: string)
    requires ReadRecord(line) == Some((texts, rest))
    ensures ReadRecord(Cell(v) + "," + line) == Some(([Shown(v)] + texts, rest))
  {
    var after := "," + line;
    assert Cell(v) + "," + line == Cell(v) + after;
    ReadsCell(v, after);
    assert after[0] == ',' && after[1..] == line;
  }

  lemma {:induction false} ReadsLine(values: seq<Value>, rest: string)
    requires values != []
    ensures ReadRecord(Line(values) + CRLF + rest) == Some((ShownLine(values), rest))
  {
    if |values| == 1 {
      ReadsLastField(values[0], rest);
      assert ShownLine(values) == [Shown(values[0])];
    } else {
      LineOfMore(values);
      ReadsLine(values[1..], rest);
      ReadsNextField(values[0], Line(values[1..]) + CRLF + rest, ShownLine(values[1..]), rest);
      assert Line(values) + CRLF + rest == Cell(values[0]) + "," + (Line(values[1..]) + CRLF + rest);
    }
  }

  lemma {:induction false} ReadsTable(table: seq<seq<Value>>)
    requires forall i :: 0 <= i < |table| ==> table[i] != []
    ensures ReadRecords(Body(Lines(table))) == Some(ShownTable(table))
  {
    if table != [] {
      var tail := table[1..];
      assert Lines(table)[1..] == Lines(tail);
      ReadsTable(tail);
      ReadsLine(table[0], Body(Lines(tail)));
      assert Body(Lines(table)) == Line(table[0]) + CRLF + Body(Lines(tail));
      assert ShownTable(table) == [ShownLine(table[0])] + ShownTable(tail);
    }
  }

  /** A table without columns prints empty lines, which read as one empty field each. */
  lemma EmptyLineReadsAsOneField(rest: string)
    ensures ReadRecord(CRLF + rest) == Some(([""], rest))
  {
    assert (CRLF + rest)[2..] == rest;
  }

  /**
   Round trip: after the byte-order mark, the reader finds exactly the headings
   and rows of shown texts, whatever commas, quotes and line ends they hold --
   provided there is a column at all.
   */
  lemma ReadsBackExactlyWhen<T>(columns: seq<Column<T>>, rows: seq<T>)
    ensures var table := Table(columns, rows);
            Read([BOM] + Body(Lines(table))) == Some(ShownTable(table)) <==> columns != []
  {
    var table := Table(columns, rows);
    assert ([BOM] + Body(Lines(table)))[1..] == Body(Lines(table));
    if columns != [] {
      assert forall i :: 0 <= i < |table| ==> |table[i]| == |columns|;
      ReadsTable(table);
    } else {
      var rest := Body(Lines(table)[1..]);
      assert Body(Lines(table)) == CRLF + rest;
      EmptyLineReadsAsOneField(rest);
      assert ShownTable(table)[0] == [];
    }
  }
}
