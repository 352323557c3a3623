/** What goes inside an .xlsx sheet: column names and escaped text. */
module Sheet {

  // ---- Column names ----

  /** The n-th column's name, counting from one: A, ..., Z, AA, AB, ... */
  function Name(n: nat): string {
    if n == 0 then "" else Name((n - 1) / 26) + [('A' as int + (n - 1) % 26) as char]
  }

  predicate IsName(name: string) {
    forall i :: 0 <= i < |name| ==> 'A' <= name[i] <= 'Z'
  }

  /** Where a name stands among the columns: a number in base 26 with digits from 1 to 26. */
  function Place(name: string): nat
    requires IsName(name)
  {
    if name == "" then 0
    else 26 * Place(name[..|name| - 1]) + (name[|name| - 1] as int - 'A' as int + 1)
  }

  method ColumnName(index: nat) returns (name: string)
    ensures name == Name(index + 1)
  {
    name := "";
    var n: nat := index + 1;
    while n > 0
      invariant Name(n) + name == Name(index + 1)
    {
      name := [('A' as int + (n - 1) % 26) as char] + name;
      n := (n - 1) / 26;
    }
    assert "" + name == name;
  }

  lemma {:induction false} PlaceOfName(n: nat)
    ensures IsName(Name(n)) && Place(Name(n)) == n
  {
    if n > 0 {
      PlaceOfName((n - 1) / 26);
      var name := Name(n);
      assert name[..|name| - 1] == Name((n - 1) / 26);
    }
  }

  lemma {:induction false} NameOfPlace(name: string)
    requires IsName(name)
    ensures Name(Place(name)) == name
  {
    if name != "" {
      var init, last := name[..|name| - 1], name[|name| - 1];
      NameOfPlace(init);
      var digit := last as int - 'A' as int;
      assert Place(name) - 1 == 26 * Place(init) + digit;
      assert name == init + [last];
    }
  }

  /** Every name of capital letters belongs to exactly one column, and every column to one name. */
  lemma NamesAreUnique(index: nat, name: string)
    requires name != "" && IsName(name)
    ensures Name(index + 1) == name <==> index == Place(name) - 1
  {
    if Name(index + 1) == name {
      PlaceOfName(index + 1);
    } else if index == Place(name) - 1 {
      NameOfPlace(name);
    }
  }

  // ---- Escaped text ----

  /** Characters XML 1.0 allows. */
  predicate IsXmlChar(c: char) {
    c == '\t' || c == '\n' || c == '\r' || (c as int >= 0x20 && c as int != 0xfffe && c as int != 0xffff)
  }

  function Allowed(text: string): string {
    if text == "" then "" else (if IsXmlChar(text[0]) then [text[0]] else "") + Allowed(text[1..])
  }

  /** Every occurrence of a character replaced, as one pass over the text. */
  function Replace(text: string, c: char, entity: string): string {
    if text == "" then "" else (if text[0] == c then entity else [text[0]]) + Replace(text[1..], c, entity)
  }

  function Passes(text: string): string {
    Replace(Replace(Replace(Replace(text, '&', "&amp;"), '<', "&lt;"), '>', "&gt;"), '"', "&quot;")
  }

  function Xml(text: string): string {
    Passes(Allowed(text))
  }

  function Entity(c: char): string {
    if c == '&' then "&amp;"
    else if c == '<' then "&lt;"
    else if c == '>' then "&gt;"
    else if c == '"' then "&quot;"
    else [c]
  }

  function Escaped(text: string): string {
    if text == "" then "" else Entity(text[0]) + Escaped(text[1..])
  }

  /** What an XML reader makes of escaped text; None where it would refuse it. */
  datatype Reading = Refused | Reads(text: string)

  function Prepend(c: char, r: Reading): Reading {
    if r.Refused? then Refused else Reads([c] + r.text)
  }

  /** A line feed right after a carriage return belongs to the same line end. */
  function AfterReturn(s: string): (r: string)
    ensures |r| <= |s|
  {
    if s != "" && s[0] == '\n' then s[1..] else s
  }

  /** Every line end read as one line feed, before anything else (section 2.11 of XML 1.0). */
  function Normalized(s: string): string
    decreases |s|
  {
    if s == "" then ""
    else if s[0] == '\r' then ['\n'] + Normalized(AfterReturn(s[1..]))
    else [s[0]] + Normalized(s[1..])
  }

  /** Character data with the four predefined entities; a bare < or & is refused. */
  function ReadText(s: string): Reading {
    if s == "" then Reads("")
    else if s[0] == '<' then Refused
    else if s[0] != '&' then Prepend(s[0], ReadText(s[1..]))
    else if "&amp;" <= s then Prepend('&', ReadText(s[5..]))
    else if "&lt;" <= s then Prepend('<', ReadText(s[4..]))
    else if "&gt;" <= s then Prepend('>', ReadText(s[4..]))
    else if "&quot;" <= s then Prepend('"', ReadText(s[6..]))
    else Refused
  }

  lemma {:induction false} ReplaceConcat(a: string, b: string, c: char, entity: string)
    ensures Replace(a + b, c, entity) == Replace(a, c, entity) + Replace(b, c, entity)
  {
    if a == "" {
      assert a + b == b;
    } else {
      ReplaceConcat(a[1..], b, c, entity);
      assert (a + b)[1..] == a[1..] + b && (a + b)[0] == a[0];
    }
  }

  lemma PassesConcat(a: string, b: string)
    ensures Passes(a + b) == Passes(a) + Passes(b)
  {
    ReplaceConcat(a, b, '&', "&amp;");
    var a1, b1 := Replace(a, '&', "&amp;"), Replace(b, '&', "&amp;");
    ReplaceConcat(a1, b1, '<', "&lt;");
    var a2, b2 := Replace(a1, '<', "&lt;"), Replace(b1, '<', "&lt;");
    ReplaceConcat(a2, b2, '>', "&gt;");
    ReplaceConcat(Replace(a2, '>', "&gt;"), Replace(b2, '>', "&gt;"), '"', "&quot;");
  }

  lemma {:induction false} ReplaceAbsent(text: string, c: char, entity: string)
    requires c !in text
    ensures Replace(text, c, entity) == text
  {
    if text != "" {
      ReplaceAbsent(text[1..], c, entity);
      assert text == [text[0]] + text[1..];
    }
  }

  lemma ReplaceOne(c: char, target: char, entity: string)
    ensures Replace([c], target, entity) == if c == target then entity else [c]
  {
    assert [c][1..] == "";
  }

  lemma LeavesAlone(entity: string)
    requires '<' !in entity && '>' !in entity && '"' !in entity
    ensures Replace(Replace(Replace(entity, '<', "&lt;"), '>', "&gt;"), '"', "&quot;") == entity
  {
    ReplaceAbsent(entity, '<', "&lt;");
    ReplaceAbsent(entity, '>', "&gt;");
    ReplaceAbsent(entity, '"', "&quot;");
  }

  lemma PassesAmpersand(c: char)
    requires c == '&'
    ensures Passes([c]) == "&amp;"
  {
    ReplaceOne(c, '&', "&amp;");
    LeavesAlone("&amp;");
  }

  lemma PassesLess()
    ensures Passes("<") == "&lt;"
  {
    ReplaceOne('<', '&', "&amp;");
    ReplaceOne('<', '<', "&lt;");
    ReplaceAbsent("&lt;", '>', "&gt;");
    ReplaceAbsent("&lt;", '"', "&quot;");
  }

  lemma PassesGreater()
    ensures Passes(">") == "&gt;"
  {
    ReplaceOne('>', '&', "&amp;");
    ReplaceOne('>', '<', "&lt;");
    ReplaceOne('>', '>', "&gt;");
    ReplaceAbsent("&gt;", '"', "&quot;");
  }

  lemma PassesOther(c: char)
    requires c != '&' && c != '<' && c != '>'
    ensures Passes([c]) == Entity(c)
  {
    ReplaceOne(c, '&', "&amp;");
    ReplaceOne(c, '<', "&lt;");
    ReplaceOne(c, '>', "&gt;");
    ReplaceOne(c, '"', "&quot;");
  }

  /** On one character the four passes amount to its entity: no pass touches what another wrote. */
  lemma PassesOne(c: char)
    ensures Passes([c]) == Entity(c)
  {
    if c == '&' {
      PassesAmpersand(c);
    } else if c == '<' {
      PassesLess();
    } else if c == '>' {
      PassesGreater();
    } else {
      PassesOther(c);
    }
  }

  lemma {:induction false} PassesEscape(text: string)
    ensures Passes(text) == Escaped(text)
  {
    if text != "" {
      assert text == [text[0]] + text[1..];
      PassesConcat([text[0]], text[1..]);
      PassesOne(text[0]);
      PassesEscape(text[1..]);
    }
  }

  lemma ReadsEntity(c: char, rest: string)
    ensures ReadText(Entity(c) + rest) == Prepend(c, ReadText(rest))
  {
    var s, n := Entity(c) + rest, |Entity(c)|;
    assert s[n..] == rest && s[..n] == Entity(c);
    assert s[0] == Entity(c)[0];
    if c == '<' || c == '>' || c == '"' {
      assert s[1] == Entity(c)[1];
    }
  }

  lemma {:induction false} ReadsEscaped(text: string)
    ensures ReadText(Escaped(text)) == Reads(text)
  {
    if text != "" {
      ReadsEscaped(text[1..]);
      ReadsEntity(text[0], Escaped(text[1..]));
      assert text == [text[0]] + text[1..];
    }
  }

  /** The characters an XML document may hold (section 2.2 of XML 1.0). */
  predicate XmlAccepts(c: char) {
    var code := c as int;
    || code in {0x9, 0xa, 0xd}
    || 0x20 <= code <= 0xd7ff || 0xe000 <= code <= 0xfffd || 0x10000 <= code <= 0x10ffff
  }

  predicate AllAccepted(s: string) {
    forall c :: c in s ==> XmlAccepts(c)
  }

  /** What an XML processor makes of it: no character it may not hold, line ends, then the entities. */
  function Process(s: string): Reading {
    if AllAccepted(s) then ReadText(Normalized(s)) else Refused
  }

  lemma {:induction false} EscapedIsAccepted(text: string)
    requires AllAccepted(text)
    ensures AllAccepted(Escaped(text))
  {
    if text != "" {
      assert text[0] in text && forall c :: c in text[1..] ==> c in text;
      EscapedIsAccepted(text[1..]);
      EntityIsAccepted(text[0]);
    }
  }

  lemma EntityIsAccepted(c: char)
    requires XmlAccepts(c)
    ensures AllAccepted(Entity(c))
  {
  }

  /** Only what XML cannot hold is dropped. */
  lemma {:induction false} AllowedIsAccepted(text: string)
    ensures AllAccepted(Allowed(text))
    ensures |Allowed(text)| <= |text|
    ensures AllAccepted(text) ==> Allowed(text) == text
    ensures !AllAccepted(text) ==> |Allowed(text)| < |text|
  {
    if text != "" {
      var rest := text[1..];
      AllowedIsAccepted(rest);
      assert text == [text[0]] + rest;
      assert IsXmlChar(text[0]) <==> XmlAccepts(text[0]);
      assert forall c :: c in text <==> c == text[0] || c in rest;
    }
  }

  lemma NormalizedPlain(c: char, rest: string)
    requires c != '\r'
    ensures Normalized([c] + rest) == [c] + Normalized(rest)
  {
    assert ([c] + rest)[1..] == rest;
  }

  lemma PlainConcat(c: char, more: string, rest: string)
    ensures ([c] + more) + rest == [c] + (more + rest)
  {
  }

  lemma {:induction false} NormalizedAfter(plain: string, rest: string)
    requires '\r' !in plain
    ensures Normalized(plain + rest) == plain + Normalized(rest)
  {
    if plain == "" {
      assert plain + rest == rest;
    } else {
      var c, more := plain[0], plain[1..];
      NormalizedAfter(more, rest);
      NormalizedPlain(c, more + rest);
      PlainConcat(c, more, rest);
      assert plain == [c] + more;
    }
  }

  lemma EntityStart(c: char)
    ensures Entity(c) != "" && (Entity(c)[0] == '\n' <==> c == '\n') && (c != '\r' ==> '\r' !in Entity(c))
  {
  }

  lemma EscapedCons(c: char, rest: string)
    ensures Escaped([c] + rest) == Entity(c) + Escaped(rest)
  {
    assert ([c] + rest)[1..] == rest;
  }

  lemma NormalizedReturn(rest: string)
    ensures Normalized(['\r'] + rest) == ['\n'] + Normalized(AfterReturn(rest))
  {
    assert (['\r'] + rest)[1..] == rest;
  }

  lemma EscapesOther(c: char, rest: string)
    requires c != '\r' && Normalized(Escaped(rest)) == Escaped(Normalized(rest))
    ensures Normalized(Escaped([c] + rest)) == Escaped(Normalized([c] + rest))
  {
    EscapedCons(c, rest);
    EntityStart(c);
    NormalizedAfter(Entity(c), Escaped(rest));
    NormalizedPlain(c, rest);
    EscapedCons(c, Normalized(rest));
  }

  lemma EscapedAfterReturn(text: string)
    ensures AfterReturn(Escaped(text)) == Escaped(AfterReturn(text))
  {
    if text != "" {
      EntityStart(text[0]);
      assert Escaped(text)[0] == Entity(text[0])[0];
      if text[0] == '\n' {
        assert Escaped(text)[1..] == Escaped(text[1..]);
      }
    }
  }

  lemma ReturnEscapedFirst(rest: string)
    ensures Normalized(Escaped(['\r'] + rest)) == ['\n'] + Normalized(Escaped(AfterReturn(rest)))
  {
    EscapedCons('\r', rest);
    NormalizedReturn(Escaped(rest));
    EscapedAfterReturn(rest);
  }

  lemma ReturnNormalizedFirst(rest: string)
    ensures Escaped(Normalized(['\r'] + rest)) == ['\n'] + Escaped(Normalized(AfterReturn(rest)))
  {
    NormalizedReturn(rest);
    EscapedCons('\n', Normalized(AfterReturn(rest)));
  }

  lemma {:induction false} NormalizedEscape(text: string)
    ensures Normalized(Escaped(text)) == Escaped(Normalized(text))
    decreases |text|
  {
    if text != "" {
      var c, rest := text[0], text[1..];
      assert text == [c] + rest;
      if c == '\r' {
        NormalizedEscape(AfterReturn(rest));
        ReturnEscapedFirst(rest);
        ReturnNormalizedFirst(rest);
      } else {
        NormalizedEscape(rest);
        EscapesOther(c, rest);
      }
    }
  }

  lemma {:induction false} NormalizedHasNoReturn(text: string)
    ensures '\r' !in Normalized(text)
    decreases |text|
  {
    if text != "" {
      NormalizedHasNoReturn(if text[0] == '\r' then AfterReturn(text[1..]) else text[1..]);
    }
  }

  lemma {:induction false} NormalizedIsNoLonger(text: string)
    ensures |Normalized(text)| <= |text|
    decreases |text|
  {
    if text != "" {
      NormalizedIsNoLonger(if text[0] == '\r' then AfterReturn(text[1..]) else text[1..]);
    }
  }

  lemma {:induction false} AllowedKeepsReturns(text: string)
    ensures '\r' in Allowed(text) <==> '\r' in text
  {
    if text != "" {
      AllowedKeepsReturns(text[1..]);
      assert text == [text[0]] + text[1..];
    }
  }

  /**
   An XML processor reads the text less the characters XML does not allow, with
   every carriage return, alone or before a line feed, turned into a line feed;
   so it gets back exactly the allowed text when there is no carriage return, and
   exactly the text when XML allows all of it besides.
   */
  lemma XmlReadsBackExactlyWhen(text: string)
    ensures Process(Xml(text)) == Reads(Normalized(Allowed(text)))
    ensures Process(Xml(text)) == Reads(Allowed(text)) <==> '\r' !in text
    ensures Process(Xml(text)) == Reads(text) <==> '\r' !in text && AllAccepted(text)
  {
    var allowed := Allowed(text);
    AllowedIsAccepted(text);
    EscapedIsAccepted(allowed);
    NormalizedIsNoLonger(allowed);
    PassesEscape(allowed);
    NormalizedEscape(allowed);
    ReadsEscaped(Normalized(allowed));
    AllowedKeepsReturns(text);
    NormalizedHasNoReturn(allowed);
    if '\r' !in allowed {
      NormalizedAfter(allowed, "");
      assert allowed + "" == allowed;
    }
  }

  /** A lone carriage return comes back as a line feed. */
  lemma ReturnBecomesFeed(a: char, b: char)
    requires IsXmlChar(a) && IsXmlChar(b) && a != '\r' && b != '\r' && b != '\n'
    ensures Process(Xml([a, '\r', b])) == Reads([a, '\n', b])
  {
    var last, rest, text := [b], ['\r', b], [a, '\r', b];
    assert last[1..] == "" && rest[1..] == last && text[1..] == rest;
    assert Allowed(last) == last && Allowed(rest) == ['\r'] + last && Allowed(text) == [a] + rest;
    assert Normalized(last) == last;
    assert rest[1] == b && Normalized(rest) == ['\n'] + Normalized(last);
    assert Normalized(text) == [a] + Normalized(rest);
    XmlReadsBackExactlyWhen(text);
  }
}
