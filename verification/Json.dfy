/** JSON text (RFC 8259, without insignificant whitespace): the printer behind JSON.stringify, the
    parser behind JSON.parse, and the canonical printer with sorted keys. */
module Json {
  import opened Options

  predicate IsDigit(c: char) { '0' <= c <= '9' }

  predicate IsNumberChar(c: char) {
    IsDigit(c) || c == '-' || c == '+' || c == '.' || c == 'e' || c == 'E'
  }

  predicate IsNumber(s: string) {
    s != [] && (IsDigit(s[0]) || s[0] == '-') && forall i :: 0 <= i < |s| ==> IsNumberChar(s[i])
  }

  /** The ECMAScript text of a finite number; a number is identified with its text. */
  type NumberText = s: string | IsNumber(s) witness "0"

  /** A document: the members of an object in the order in which they are written. */
  datatype Doc =
    | DNull
    | DBool(b: bool)
    | DNumber(lexeme: NumberText)
    | DText(text: string)
    | DArray(items: Docs)
    | DObject(fields: Fields)

  datatype Docs = NoDocs | MoreDocs(head: Doc, tail: Docs)
  datatype Fields = NoFields | MoreFields(key: string, value: Doc, tail: Fields)

  // ----- strings -----

  function HexDigit(n: int): char
    requires 0 <= n < 16
  {
    if n < 10 then (n + '0' as int) as char else (n - 10 + 'a' as int) as char
  }

  function HexValue(c: char): int {
    if '0' <= c <= '9' then c as int - '0' as int
    else if 'a' <= c <= 'f' then c as int - 'a' as int + 10
    else if 'A' <= c <= 'F' then c as int - 'A' as int + 10
    else -1
  }

  function EscapeChar(c: char): string {
    if c == '\"' then "\\\""
    else if c == '\\' then "\\\\"
    else if c as int == 8 then "\\b"
    else if c as int == 12 then "\\f"
    else if c == '\n' then "\\n"
    else if c == '\r' then "\\r"
    else if c == '\t' then "\\t"
    else if c < ' ' then ['\\', 'u', '0', '0', HexDigit(c as int / 16), HexDigit(c as int % 16)]
    else [c]
  }

  /** The characters of a string literal, its closing quote, then `rest`. */
  function PrintChars(s: string, rest: string): string
    decreases s
  {
    if s == [] then ['\"'] + rest else EscapeChar(s[0]) + PrintChars(s[1..], rest)
  }

  /** One character of a string literal, escaped or not, and how much text it takes. */
  function ParseChar(s: string): (r: Option<(char, nat)>)
    ensures r.Some? ==> 0 < r.value.1 <= |s|
  {
    if s == [] || s[0] == '\"' || s[0] < ' ' then None
    else if s[0] != '\\' then Some((s[0], 1))
    else if |s| < 2 then None
    else if s[1] == '\"' || s[1] == '\\' || s[1] == '/' then Some((s[1], 2))
    else if s[1] == 'b' then Some((8 as char, 2))
    else if s[1] == 'f' then Some((12 as char, 2))
    else if s[1] == 'n' then Some(('\n', 2))
    else if s[1] == 'r' then Some(('\r', 2))
    else if s[1] == 't' then Some(('\t', 2))
    else if s[1] == 'u' && |s| >= 6
         && HexValue(s[2]) >= 0 && HexValue(s[3]) >= 0 && HexValue(s[4]) >= 0 && HexValue(s[5]) >= 0 then
      var code := ((HexValue(s[2]) * 16 + HexValue(s[3])) * 16 + HexValue(s[4])) * 16 + HexValue(s[5]);
      if code < 0xD800 || 0xE000 <= code <= 0xFFFF then Some((code as char, 6)) else None
    else None
  }

  function ParseChars(s: string): (r: Option<(string, string)>)
    ensures r.Some? ==> |r.value.1| < |s|
  {
    if s != [] && s[0] == '\"' then Some(([], s[1..]))
    else
      var first := ParseChar(s);
      if first.None? then None
      else
        var rest := ParseChars(s[first.value.1..]);
        if rest.None? then None else Some(([first.value.0] + rest.value.0, rest.value.1))
  }

  lemma ParseEscapedChar(c: char, rest: string)
    ensures ParseChar(EscapeChar(c) + rest) == Some((c, |EscapeChar(c)|))
    ensures EscapeChar(c) != [] && EscapeChar(c)[0] != '\"'
  {
    var s := EscapeChar(c) + rest;
    if c < ' ' && s[1] == 'u' {
      var high, low := c as int / 16, c as int % 16;
      assert HexValue(HexDigit(high)) == high && HexValue(HexDigit(low)) == low;
      assert s[2] == '0' && s[3] == '0' && s[4] == HexDigit(high) && s[5] == HexDigit(low);
    }
  }

  lemma {:induction false} ParsePrintedChars(s: string, rest: string)
    ensures ParseChars(PrintChars(s, rest)) == Some((s, rest))
    decreases s
  {
    if s == [] {
      assert (['\"'] + rest)[1..] == rest;
    } else {
      var tail := PrintChars(s[1..], rest);
      ParseEscapedChar(s[0], tail);
      assert (EscapeChar(s[0]) + tail)[|EscapeChar(s[0])|..] == tail;
      ParsePrintedChars(s[1..], rest);
      assert [s[0]] + s[1..] == s;
    }
  }

  // ----- numbers -----

  function NumberLength(s: string): (n: nat)
    ensures n <= |s|
  {
    if s == [] || !IsNumberChar(s[0]) then 0 else 1 + NumberLength(s[1..])
  }

  lemma {:induction false} NumberLengthCharacters(s: string)
    ensures forall i :: 0 <= i < NumberLength(s) ==> IsNumberChar(s[i])
  {
    if s != [] && IsNumberChar(s[0]) {
      NumberLengthCharacters(s[1..]);
      forall i | 0 < i < NumberLength(s) ensures IsNumberChar(s[i]) { assert s[i] == s[1..][i-1]; }
    }
  }

  lemma {:induction false} NumberStops(lexeme: string, rest: string)
    requires forall i :: 0 <= i < |lexeme| ==> IsNumberChar(lexeme[i])
    requires rest == [] || !IsNumberChar(rest[0])
    ensures NumberLength(lexeme + rest) == |lexeme|
  {
    if lexeme == [] {
      assert lexeme + rest == rest;
    } else {
      assert (lexeme + rest)[1..] == lexeme[1..] + rest;
      NumberStops(lexeme[1..], rest);
    }
  }

  // ----- documents -----

  /** The text of a document followed by `rest`. */
  function PrintTo(d: Doc, rest: string): string
    decreases d
  {
    match d
    case DNull => "null" + rest
    case DBool(b) => (if b then "true" else "false") + rest
    case DNumber(lexeme) => lexeme + rest
    case DText(text) => ['\"'] + PrintChars(text, rest)
    case DArray(items) => ['['] + if items.NoDocs? then [']'] + rest else PrintItems(items, rest)
    case DObject(fields) => ['{'] + if fields.NoFields? then ['}'] + rest else PrintFields(fields, rest)
  }

  /** The items, comma-separated, and the closing bracket. */
  function PrintItems(items: Docs, rest: string): string
    requires items.MoreDocs?
    decreases items
  {
    PrintTo(items.head, if items.tail.NoDocs? then [']'] + rest else [','] + PrintItems(items.tail, rest))
  }

  function PrintFields(fields: Fields, rest: string): string
    requires fields.MoreFields?
    decreases fields
  {
    var after := if fields.tail.NoFields? then ['}'] + rest else [','] + PrintFields(fields.tail, rest);
    ['\"'] + PrintChars(fields.key, [':'] + PrintTo(fields.value, after))
  }

  function Print(d: Doc): string {
    PrintTo(d, [])
  }

  type Parsed<T> = Option<(T, string)>

  function ParseLiteral(s: string, literal: string, d: Doc): (r: Parsed<Doc>)
    ensures r.Some? && literal != [] ==> |r.value.1| < |s|
  {
    if literal <= s then Some((d, s[|literal|..])) else None
  }

  function ParseDoc(s: string): (r: Parsed<Doc>)
    ensures r.Some? ==> |r.value.1| < |s|
    decreases |s|, 1
  {
    if s == [] then None
    else if s[0] == 'n' then ParseLiteral(s, "null", DNull)
    else if s[0] == 't' then ParseLiteral(s, "true", DBool(true))
    else if s[0] == 'f' then ParseLiteral(s, "false", DBool(false))
    else if s[0] == '\"' then
      var text := ParseChars(s[1..]);
      if text.None? then None else Some((DText(text.value.0), text.value.1))
    else if s[0] == '[' then
      if |s| > 1 && s[1] == ']' then Some((DArray(NoDocs), s[2..]))
      else
        var items := ParseItems(s[1..]);
        if items.None? then None else Some((DArray(items.value.0), items.value.1))
    else if s[0] == '{' then
      if |s| > 1 && s[1] == '}' then Some((DObject(NoFields), s[2..]))
      else
        var fields := ParseFields(s[1..]);
        if fields.None? then None else Some((DObject(fields.value.0), fields.value.1))
    else ParseNumber(s)
  }

  function ParseNumber(s: string): (r: Parsed<Doc>)
    requires s != []
    ensures r.Some? ==> |r.value.1| < |s|
  {
    if IsDigit(s[0]) || s[0] == '-' then
      var n := NumberLength(s);
      NumberLengthCharacters(s);
      Some((DNumber(s[..n]), s[n..]))
    else None
  }

  function ParseItems(s: string): (r: Parsed<Docs>)
    ensures r.Some? ==> |r.value.1| < |s|
    decreases |s|, 2
  {
    var first := ParseDoc(s);
    if first.None? || first.value.1 == [] then None
    else
      var after := first.value.1;
      if after[0] == ']' then Some((MoreDocs(first.value.0, NoDocs), after[1..]))
      else if after[0] == ',' then
        var rest := ParseItems(after[1..]);
        if rest.None? then None else Some((MoreDocs(first.value.0, rest.value.0), rest.value.1))
      else None
  }

  function ParseFields(s: string): (r: Parsed<Fields>)
    ensures r.Some? ==> |r.value.1| < |s|
    decreases |s|, 2
  {
    if s == [] || s[0] != '\"' then None
    else
      var key := ParseChars(s[1..]);
      if key.None? || key.value.1 == [] || key.value.1[0] != ':' then None
      else
        var first := ParseDoc(key.value.1[1..]);
        if first.None? || first.value.1 == [] then None
        else
          var after := first.value.1;
          if after[0] == '}' then Some((MoreFields(key.value.0, first.value.0, NoFields), after[1..]))
          else if after[0] == ',' then
            var rest := ParseFields(after[1..]);
            if rest.None? then None else Some((MoreFields(key.value.0, first.value.0, rest.value.0), rest.value.1))
          else None
  }

  /** The text that follows a document does not continue a number. */
  predicate Ends(rest: string) {
    rest == [] || !IsNumberChar(rest[0])
  }

  lemma PrintedStart(d: Doc, rest: string)
    ensures PrintTo(d, rest) != [] && PrintTo(d, rest)[0] != ']'
  {
  }

  lemma ParsePrintedNumber(lexeme: NumberText, rest: string)
    requires Ends(rest)
    ensures ParseDoc(lexeme + rest) == Some((DNumber(lexeme), rest))
  {
    NumberStops(lexeme, rest);
    assert (lexeme + rest)[..|lexeme|] == lexeme && (lexeme + rest)[|lexeme|..] == rest;
  }

  lemma ParsePrintedLiteral(d: Doc, rest: string)
    requires d.DNull? || d.DBool?
    ensures ParseDoc(PrintTo(d, rest)) == Some((d, rest))
  {
    var s := PrintTo(d, rest);
    assert s[if d == DBool(false) then 5 else 4..] == rest;
  }

  /** Parsing a printed document gives it back and leaves the rest untouched. */
  lemma {:induction false} ParsePrinted(d: Doc, rest: string)
    requires Ends(rest)
    ensures ParseDoc(PrintTo(d, rest)) == Some((d, rest))
    decreases d
  {
    match d
    case DNull => ParsePrintedLiteral(d, rest);
    case DBool(b) => ParsePrintedLiteral(d, rest);
    case DNumber(lexeme) => ParsePrintedNumber(lexeme, rest);
    case DText(text) =>
      assert PrintTo(d, rest)[1..] == PrintChars(text, rest);
      ParsePrintedChars(text, rest);
    case DArray(items) =>
      if items.MoreDocs? { ParsePrintedItems(items, rest); }
      ParsePrintedArray(items, rest);
    case DObject(fields) =>
      if fields.MoreFields? { ParsePrintedFields(fields, rest); }
      ParsePrintedObject(fields, rest);
  }

  lemma ParseOpenArray(s: string, items: Docs, rest: string)
    requires |s| > 1 && s[0] == '[' && s[1] != ']' && ParseItems(s[1..]) == Some((items, rest))
    ensures ParseDoc(s) == Some((DArray(items), rest))
  {
  }

  lemma ParseOpenObject(s: string, fields: Fields, rest: string)
    requires |s| > 1 && s[0] == '{' && s[1] != '}' && ParseFields(s[1..]) == Some((fields, rest))
    ensures ParseDoc(s) == Some((DObject(fields), rest))
  {
  }

  lemma PrintedItemsStart(items: Docs, rest: string)
    requires items.MoreDocs?
    ensures PrintItems(items, rest) != [] && PrintItems(items, rest)[0] != ']'
  {
    PrintedStart(items.head, if items.tail.NoDocs? then [']'] + rest else [','] + PrintItems(items.tail, rest));
  }

  lemma ParsePrintedArray(items: Docs, rest: string)
    requires items.MoreDocs? ==> ParseItems(PrintItems(items, rest)) == Some((items, rest))
    ensures ParseDoc(PrintTo(DArray(items), rest)) == Some((DArray(items), rest))
  {
    var s := PrintTo(DArray(items), rest);
    if items.NoDocs? {
      assert s[2..] == rest;
    } else {
      var text := PrintItems(items, rest);
      PrintedItemsStart(items, rest);
      assert s == ['['] + text && s[1..] == text && s[1] == text[0];
      ParseOpenArray(s, items, rest);
    }
  }

  lemma ParsePrintedObject(fields: Fields, rest: string)
    requires fields.MoreFields? ==> ParseFields(PrintFields(fields, rest)) == Some((fields, rest))
    ensures ParseDoc(PrintTo(DObject(fields), rest)) == Some((DObject(fields), rest))
  {
    var s := PrintTo(DObject(fields), rest);
    if fields.NoFields? {
      assert s[2..] == rest;
    } else {
      var text := PrintFields(fields, rest);
      assert text != [] && text[0] == '\"';
      assert s == ['{'] + text && s[1..] == text && s[1] == text[0];
      ParseOpenObject(s, fields, rest);
    }
  }

  lemma {:induction false} ParsePrintedItems(items: Docs, rest: string)
    requires items.MoreDocs?
    ensures ParseItems(PrintItems(items, rest)) == Some((items, rest))
    decreases items
  {
    if items.tail.NoDocs? {
      ParsePrinted(items.head, [']'] + rest);
      assert ([']'] + rest)[1..] == rest;
    } else {
      var after := [','] + PrintItems(items.tail, rest);
      ParsePrinted(items.head, after);
      assert after[1..] == PrintItems(items.tail, rest);
      ParsePrintedItems(items.tail, rest);
    }
  }

  lemma {:induction false} ParsePrintedFields(fields: Fields, rest: string)
    requires fields.MoreFields?
    ensures ParseFields(PrintFields(fields, rest)) == Some((fields, rest))
    decreases fields
  {
    var after := if fields.tail.NoFields? then ['}'] + rest else [','] + PrintFields(fields.tail, rest);
    var value := [':'] + PrintTo(fields.value, after);
    assert PrintFields(fields, rest)[1..] == PrintChars(fields.key, value);
    ParsePrintedChars(fields.key, value);
    assert value[1..] == PrintTo(fields.value, after);
    ParsePrinted(fields.value, after);
    if fields.tail.NoFields? {
      assert after[1..] == rest;
    } else {
      assert after[1..] == PrintFields(fields.tail, rest);
      ParsePrintedFields(fields.tail, rest);
    }
  }
}
