/** JSON trees, their meaning up to key order, and the text `JSON.stringify` gives them. */
module Json {
  import opened Results
  import opened Numerals

  /** Object fields are in enumeration order; numbers are held by their printed numerals. */
  datatype Json =
    | Null
    | Bool(b: bool)
    | Num(numeral: string)
    | Str(s: string)
    | Arr(items: seq<Json>)
    | Obj(fields: seq<Field>)

  datatype Field = Field(key: string, value: Json)

  /** The meaning of a tree: objects are maps, so key order is gone at every depth. */
  datatype Meaning =
    | MNull
    | MBool(b: bool)
    | MNum(numeral: string)
    | MStr(s: string)
    | MArr(items: seq<Meaning>)
    | MObj(fields: map<string, Meaning>)

  function MeaningOf(j: Json): Meaning {
    match j
    case Null => MNull
    case Bool(b) => MBool(b)
    case Num(n) => MNum(n)
    case Str(s) => MStr(s)
    case Arr(items) => MArr(MeaningOfItems(items))
    case Obj(fields) => MObj(MeaningOfFields(fields))
  }

  function MeaningOfItems(items: seq<Json>): (r: seq<Meaning>)
    ensures |r| == |items| && forall i :: 0 <= i < |r| ==> r[i] == MeaningOf(items[i])
  {
    if items == [] then [] else [MeaningOf(items[0])] + MeaningOfItems(items[1..])
  }

  function MeaningOfFields(fields: seq<Field>): (m: map<string, Meaning>)
    ensures m.Keys == Keys(fields)
  {
    if fields == [] then map[]
    else MeaningOfFields(fields[1..])[fields[0].key := MeaningOf(fields[0].value)]
  }

  function Keys(fields: seq<Field>): set<string> {
    if fields == [] then {} else {fields[0].key} + Keys(fields[1..])
  }

  predicate UniqueKeys(fields: seq<Field>) {
    fields == [] || (fields[0].key !in Keys(fields[1..]) && UniqueKeys(fields[1..]))
  }

  predicate NumeralChar(c: char) {
    '0' <= c <= '9' || c == '-' || c == '+' || c == '.' || c == 'e' || c == 'E'
  }

  /** Texts that number printing produces start with a digit or a sign and hold no structural character. */
  predicate IsNumeral(s: string) {
    s != "" && ('0' <= s[0] <= '9' || s[0] == '-') && forall i :: 0 <= i < |s| ==> NumeralChar(s[i])
  }

  /** What the host language guarantees of a JSON value: printed numerals and unique object keys. */
  predicate Valid(j: Json) {
    match j
    case Num(n) => IsNumeral(n)
    case Arr(items) => ValidItems(items)
    case Obj(fields) => UniqueKeys(fields) && ValidFields(fields)
    case _ => true
  }

  predicate ValidItems(items: seq<Json>) {
    items == [] || (Valid(items[0]) && ValidItems(items[1..]))
  }

  predicate ValidFields(fields: seq<Field>) {
    fields == [] || (Valid(fields[0].value) && ValidFields(fields[1..]))
  }

  // Printing

  /** The escapes of `JSON.stringify`, section 7 of RFC 8259. */
  function EscapeChar(c: char): (e: string)
    ensures e != "" && e[0] != '"'
    ensures |e| == 1 ==> e[0] == c && c != '\\'
    ensures |e| > 1 ==> e[0] == '\\'
  {
    if c == '"' then "\\\""
    else if c == '\\' then "\\\\"
    else if c == '\U{8}' then "\\b"
    else if c == '\U{C}' then "\\f"
    else if c == '\n' then "\\n"
    else if c == '\r' then "\\r"
    else if c == '\t' then "\\t"
    else if c < ' ' then "\\u00" + [DigitChar(c as int / 16), DigitChar(c as int % 16)]
    else [c]
  }

  /** The character that an escape sequence stands for, section 7 of RFC 8259. */
  function Escapes(e: string): Option<char> {
    if |e| == 1 then if e[0] >= ' ' && e[0] != '"' && e[0] != '\\' then Some(e[0]) else None
    else if |e| == 2 && e[0] == '\\' then
      if e[1] == '"' || e[1] == '\\' || e[1] == '/' then Some(e[1])
      else if e[1] == 'b' then Some('\U{8}')
      else if e[1] == 't' then Some('\U{9}')
      else if e[1] == 'n' then Some('\U{A}')
      else if e[1] == 'f' then Some('\U{C}')
      else if e[1] == 'r' then Some('\U{D}')
      else None
    else if |e| == 6 && e[..2] == "\\u" && AllDigits(e[2..], Hex) && Value(e[2..], Hex) < 0xD800 then
      Some(Value(e[2..], Hex) as char)
    else None
  }

  /** Every character is printed as a sequence that stands for it, as short as there is one. */
  lemma EscapeMeans(c: char)
    ensures Escapes(EscapeChar(c)) == Some(c)
    ensures forall e | Escapes(e) == Some(c) :: |EscapeChar(c)| <= |e|
  {
    if c == '"' || c == '\\' || c == '\U{8}' || c == '\U{C}' || c == '\n' || c == '\r' || c == '\t' || c >= ' ' {
      ShortEscape(c);
    } else {
      LongEscape(c);
    }
    forall e | Escapes(e) == Some(c) ensures |EscapeChar(c)| <= |e| {
    }
  }

  lemma ShortEscape(c: char)
    requires c == '"' || c == '\\' || c == '\U{8}' || c == '\U{C}' || c == '\n' || c == '\r' || c == '\t' || c >= ' '
    ensures Escapes(EscapeChar(c)) == Some(c)
  {
    hide Value, AllDigits;
  }

  lemma LongEscape(c: char)
    requires c < ' ' && c != '\U{8}' && c != '\U{C}' && c != '\n' && c != '\r' && c != '\t'
    ensures Escapes(EscapeChar(c)) == Some(c)
  {
    hide Value, AllDigits;
    var high, low := DigitChar(c as int / 16), DigitChar(c as int % 16);
    var e := EscapeChar(c);
    assert e == "\\u00" + [high, low] && e[..2] == "\\u" && e[2..] == "00" + [high, low];
    TwoDigits(high, low);
    assert (c as int / 16 * 16 + c as int % 16) as char == c;
  }

  lemma TwoDigits(high: char, low: char)
    requires IsDigit(high, Hex) && IsDigit(low, Hex)
    ensures AllDigits("00" + [high, low], Hex)
    ensures Value("00" + [high, low], Hex) == 16 * DigitValue(high) + DigitValue(low)
  {
    hide Value, AllDigits;
    ZeroDigits();
    LastDigit("00", high, Hex);
    LastDigit("00" + [high], low, Hex);
    assert "00" + [high, low] == ("00" + [high]) + [low];
  }

  lemma ZeroDigits()
    ensures AllDigits("00", Hex) && Value("00", Hex) == 0
  {
    assert "00"[..1] == "0" && "0"[..0] == "";
  }

  /** The quoted text of a string from its `i`-th remaining character on, then the tail. */
  function ShowChars(s: string, tail: string): string {
    if s == "" then "\"" + tail else EscapeChar(s[0]) + ShowChars(s[1..], tail)
  }

  function ShowString(s: string, tail: string): string {
    "\"" + ShowChars(s, tail)
  }

  /** The printed text of a tree followed by `tail`. */
  function Show(j: Json, tail: string): string {
    match j
    case Null => "null" + tail
    case Bool(b) => (if b then "true" else "false") + tail
    case Num(n) => n + tail
    case Str(s) => ShowString(s, tail)
    case Arr(items) => "[" + ShowItems(items, "]" + tail)
    case Obj(fields) => "{" + ShowFields(fields, "}" + tail)
  }

  function ShowItems(items: seq<Json>, tail: string): string {
    if items == [] then tail
    else Show(items[0], if |items| == 1 then tail else "," + ShowItems(items[1..], tail))
  }

  function ShowFields(fields: seq<Field>, tail: string): string {
    if fields == [] then tail
    else ShowString(fields[0].key,
           ":" + Show(fields[0].value, if |fields| == 1 then tail else "," + ShowFields(fields[1..], tail)))
  }

  /** `JSON.stringify(j)` */
  function Stringify(j: Json): string {
    Show(j, "")
  }

  // Unique readability

  /** Where a value text can end. */
  predicate Stops(tail: string) {
    tail == "" || tail[0] == ',' || tail[0] == ']' || tail[0] == '}'
  }

  /** No escape is a prefix of the escape of another character. */
  lemma ReadChar(c: char, x: string, d: char, y: string)
    requires EscapeChar(c) + x == EscapeChar(d) + y
    ensures c == d && x == y
  {
    var e, f, t := EscapeChar(c), EscapeChar(d), EscapeChar(c) + x;
    assert t[0] == e[0] == f[0];
    if |e| > 1 {
      assert t[1] == e[1] == f[1];
      if |e| == 6 {
        assert t[4] == e[4] && t[4] == f[4];
        assert t[5] == e[5] && t[5] == f[5];
        HexPair(c, d);
      }
    }
    assert e == f;
    assert x == t[|e|..] && y == t[|f|..];
  }

  lemma HexPair(c: char, d: char)
    requires c < ' ' && d < ' '
    requires DigitChar(c as int / 16) == DigitChar(d as int / 16)
    requires DigitChar(c as int % 16) == DigitChar(d as int % 16)
    ensures c == d
  {
  }

  lemma ClosingQuote(s: string, tail: string)
    ensures ShowChars(s, tail) != ""
    ensures ShowChars(s, tail)[0] == '"' <==> s == ""
  {
  }

  lemma {:induction false} ReadChars(s: string, x: string, t: string, y: string)
    requires ShowChars(s, x) == ShowChars(t, y)
    ensures s == t && x == y
  {
    ClosingQuote(s, x);
    ClosingQuote(t, y);
    if s == "" {
      assert x == ShowChars(s, x)[1..] && y == ShowChars(t, y)[1..];
    } else {
      ReadChar(s[0], ShowChars(s[1..], x), t[0], ShowChars(t[1..], y));
      ReadChars(s[1..], x, t[1..], y);
    }
  }

  lemma ReadString(s: string, x: string, t: string, y: string)
    requires ShowString(s, x) == ShowString(t, y)
    ensures s == t && x == y
  {
    assert ShowChars(s, x) == ShowString(s, x)[1..] && ShowChars(t, y) == ShowString(t, y)[1..];
    ReadChars(s, x, t, y);
  }

  lemma ReadNumeral(m: string, x: string, n: string, y: string)
    requires IsNumeral(m) && IsNumeral(n) && Stops(x) && Stops(y)
    requires m + x == n + y
    ensures m == n && x == y
  {
    var t := m + x;
    assert forall i :: 0 <= i < |m| ==> t[i] == m[i];
    assert forall i :: 0 <= i < |n| ==> t[i] == n[i];
    assert |m| < |t| ==> !NumeralChar(t[|m|]);
    assert |n| < |t| ==> !NumeralChar(t[|n|]);
    assert m == t[..|m|] && n == t[..|n|] && x == t[|m|..] && y == t[|n|..];
  }

  /** The first character of a value text tells the kind of value and is never a closing bracket. */
  function Kind(c: char): nat {
    if c == 'n' then 0 else if c == 't' then 1 else if c == 'f' then 2 else if c == '"' then 3
    else if c == '[' then 4 else if c == '{' then 5 else if '0' <= c <= '9' || c == '-' then 6 else 7
  }

  lemma FirstChar(j: Json, tail: string)
    requires Valid(j)
    ensures Show(j, tail) != ""
    ensures Kind(Show(j, tail)[0]) == (match j
                                       case Null => 0
                                       case Bool(b) => if b then 1 else 2
                                       case Str(_) => 3
                                       case Arr(_) => 4
                                       case Obj(_) => 5
                                       case Num(_) => 6)
  {
  }

  /** A printed value can be read back, and so can the text after it. */
  lemma {:induction false} ReadValue(a: Json, x: string, b: Json, y: string)
    requires Valid(a) && Valid(b) && Stops(x) && Stops(y)
    requires Show(a, x) == Show(b, y)
    ensures a == b && x == y
  {
    FirstChar(a, x);
    FirstChar(b, y);
    match a
    case Null => assert x == Show(a, x)[4..] && y == Show(b, y)[4..];
    case Bool(p) =>
      var n := if p then 4 else 5;
      assert x == Show(a, x)[n..] && y == Show(b, y)[n..];
    case Num(m) => ReadNumeral(m, x, b.numeral, y);
    case Str(s) => ReadString(s, x, b.s, y);
    case Arr(items) =>
      assert ShowItems(items, "]" + x) == Show(a, x)[1..] && ShowItems(b.items, "]" + y) == Show(b, y)[1..];
      ReadItems(items, x, b.items, y);
    case Obj(fields) =>
      assert ShowFields(fields, "}" + x) == Show(a, x)[1..] && ShowFields(b.fields, "}" + y) == Show(b, y)[1..];
      ReadFields(fields, x, b.fields, y);
  }

  lemma DropFirst(x: string, y: string, c: char)
    requires [c] + x == [c] + y
    ensures x == y
  {
    assert x == ([c] + x)[1..] && y == ([c] + y)[1..];
  }

  lemma {:induction false} ReadItems(a: seq<Json>, x: string, b: seq<Json>, y: string)
    requires ValidItems(a) && ValidItems(b)
    requires ShowItems(a, "]" + x) == ShowItems(b, "]" + y)
    ensures a == b && x == y
  {
    if a == [] && b == [] {
      DropFirst(x, y, ']');
    } else if a == [] {
      FirstChar(b[0], if |b| == 1 then "]" + y else "," + ShowItems(b[1..], "]" + y));
    } else if b == [] {
      FirstChar(a[0], if |a| == 1 then "]" + x else "," + ShowItems(a[1..], "]" + x));
    } else {
      var a', b' := ShowItems(a[1..], "]" + x), ShowItems(b[1..], "]" + y);
      ReadValue(a[0], if |a| == 1 then "]" + x else "," + a', b[0], if |b| == 1 then "]" + y else "," + b');
      if |a| == 1 {
        DropFirst(x, y, ']');
      } else {
        DropFirst(a', b', ',');
        ReadItems(a[1..], x, b[1..], y);
      }
      assert a == [a[0]] + a[1..] && b == [b[0]] + b[1..];
    }
  }

  lemma OpeningQuote(fields: seq<Field>, tail: string)
    requires tail != "" && tail[0] == '}'
    ensures ShowFields(fields, tail) != ""
    ensures ShowFields(fields, tail)[0] == '"' <==> fields != []
  {
  }

  /** What stands behind the first member of an object: its closing brace, or the other members. */
  function AfterMember(fields: seq<Field>, tail: string): string
    requires fields != []
  {
    if |fields| == 1 then "}" + tail else "," + ShowFields(fields[1..], "}" + tail)
  }

  lemma FirstMember(fields: seq<Field>, tail: string)
    requires fields != []
    ensures ShowFields(fields, "}" + tail)
            == ShowString(fields[0].key, ":" + Show(fields[0].value, AfterMember(fields, tail)))
    ensures AfterMember(fields, tail) != "" && (AfterMember(fields, tail)[0] == '}' <==> |fields| == 1)
    ensures Stops(AfterMember(fields, tail))
  {
    hide Show, ShowString;
  }

  /** Two first members that are followed by the same text are the only ones or both followed by others. */
  lemma AfterMembers(a: seq<Field>, x: string, b: seq<Field>, y: string)
    requires a != [] && b != [] && AfterMember(a, x) == AfterMember(b, y)
    ensures |a| == 1 <==> |b| == 1
    ensures |a| == 1 ==> x == y
    ensures |a| > 1 ==> ShowFields(a[1..], "}" + x) == ShowFields(b[1..], "}" + y)
  {
    hide ShowFields, Show, ShowString;
    assert AfterMember(a, x)[0] == '}' <==> |a| == 1;
    assert AfterMember(b, y)[0] == '}' <==> |b| == 1;
    if |a| == 1 {
      DropFirst(x, y, '}');
    } else {
      DropFirst(ShowFields(a[1..], "}" + x), ShowFields(b[1..], "}" + y), ',');
    }
  }

  lemma {:induction false} ReadFields(a: seq<Field>, x: string, b: seq<Field>, y: string)
    requires ValidFields(a) && ValidFields(b)
    requires ShowFields(a, "}" + x) == ShowFields(b, "}" + y)
    ensures a == b && x == y
  {
    hide Show, ShowString, ShowFields, AfterMember;
    OpeningQuote(a, "}" + x);
    OpeningQuote(b, "}" + y);
    if a == [] {
      NoMembers(x, y);
    } else {
      var p, q := AfterMember(a, x), AfterMember(b, y);
      FirstMember(a, x);
      FirstMember(b, y);
      ReadString(a[0].key, ":" + Show(a[0].value, p), b[0].key, ":" + Show(b[0].value, q));
      DropFirst(Show(a[0].value, p), Show(b[0].value, q), ':');
      ReadValue(a[0].value, p, b[0].value, q);
      AfterMembers(a, x, b, y);
      if |a| > 1 {
        ReadFields(a[1..], x, b[1..], y);
      }
      assert a == [a[0]] + a[1..] && b == [b[0]] + b[1..];
    }
  }

  lemma NoMembers(x: string, y: string)
    requires ShowFields([], "}" + x) == ShowFields([], "}" + y)
    ensures x == y
  {
    DropFirst(x, y, '}');
  }

  /** Printing is injective on trees in enumeration order. */
  lemma StringifyInjective(a: Json, b: Json)
    requires Valid(a) && Valid(b) && Stringify(a) == Stringify(b)
    ensures a == b
  {
    ReadValue(a, "", b, "");
  }
}
