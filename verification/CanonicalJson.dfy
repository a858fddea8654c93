/** The canonical JSON encoder behind every digest, and a parser that reads its output back.
  *
  * Text is a sequence of Unicode scalar values; a number is the token the JSON decoder kept. The
  * rendering of tokens that are not 64-bit integers (a parse to a float and its shortest form) is a
  * parameter: `floats(token)` is `None` when the token does not parse.
  */
module CanonicalJson {
  import opened Options
  import opened Ordering

  datatype Json =
    | Null
    | Bool(value: bool)
    | Number(token: string)
    | Text(text: string)
    | List(items: seq<Json>)
    | Object(fields: map<string, Json>)

  type Floats = string -> Option<string>

  // ---------------------------------------------------------------- numbers

  predicate Digit(c: char) {
    '0' <= c <= '9'
  }

  function Magnitude(digits: string): nat
    requires forall c <- digits :: Digit(c)
  {
    if digits == "" then 0
    else
      var last := digits[|digits| - 1];
      assert Digit(last);
      10 * Magnitude(digits[..|digits| - 1]) + (last as int - '0' as int)
  }

  /** What a base-10 parse into a signed 64-bit integer accepts. */
  predicate IntegerToken(token: string) {
    var signed := token != "" && (token[0] == '-' || token[0] == '+');
    var digits := if signed then token[1..] else token;
    digits != ""
    && (forall c <- digits :: Digit(c))
    && Magnitude(digits) < 0x8000_0000_0000_0000 + (if signed && token[0] == '-' then 1 else 0)
  }

  /** A nonnegative integer in base 10. */
  function Decimal(n: nat): (digits: string)
    ensures digits != "" && forall c <- digits :: Digit(c)
  {
    var last := [('0' as int + n % 10) as char];
    if n < 10 then last else Decimal(n / 10) + last
  }

  lemma {:induction false} DecimalMagnitude(n: nat)
    ensures Magnitude(Decimal(n)) == n
  {
    if n >= 10 {
      DecimalMagnitude(n / 10);
      assert Decimal(n)[..|Decimal(n)| - 1] == Decimal(n / 10);
    } else {
      assert Decimal(n)[..0] == "";
    }
  }

  /** Kept as they are: exactly the integers of 64 bits. */
  lemma KeptIntegers(n: int)
    ensures var token := if n < 0 then "-" + Decimal(-n) else Decimal(n);
      IntegerToken(token) <==> -0x8000_0000_0000_0000 <= n <= 0x7fff_ffff_ffff_ffff
  {
    var digits := Decimal(if n < 0 then -n else n);
    DecimalMagnitude(if n < 0 then -n else n);
    assert digits[0] in digits;
    assert ("-" + digits)[1..] == digits;
  }

  function Rendered(token: string, floats: Floats): Option<string> {
    if IntegerToken(token) then Some(token) else floats(token)
  }

  predicate NumberChar(c: char) {
    Digit(c) || c == '-' || c == '+' || c == '.' || c == 'e' || c == 'E'
  }

  predicate NumberText(s: string) {
    s != "" && forall c <- s :: NumberChar(c)
  }

  /** A float is written with digits, signs, a point and an exponent, and nothing else. */
  ghost predicate WritesNumbers(floats: Floats) {
    forall token :: floats(token).Some? ==> NumberText(floats(token).value)
  }

  lemma RenderedIsNumberText(token: string, floats: Floats)
    requires WritesNumbers(floats) && Rendered(token, floats).Some?
    ensures NumberText(Rendered(token, floats).value)
  {
    if IntegerToken(token) {
      forall c <- token ensures NumberChar(c) {
        var i :| 0 <= i < |token| && token[i] == c;
        if i > 0 {
          assert token[1..][i - 1] == c;
        } else if token[0] != '-' && token[0] != '+' {
          assert c in token;
        }
      }
    }
  }

  // ---------------------------------------------------------------- the canonical text of a tree

  function HexDigit(n: int): char
    requires 0 <= n < 16
  {
    if n < 10 then ('0' as int + n) as char else ('a' as int + n - 10) as char
  }

  function Escape(c: char): string {
    if c == '"' || c == '\\' then ['\\', c]
    else if c == 8 as char then "\\b"
    else if c == 12 as char then "\\f"
    else if c == '\n' then "\\n"
    else if c == '\r' then "\\r"
    else if c == '\t' then "\\t"
    else if c < ' ' then "\\u00" + [HexDigit(c as int / 16), HexDigit(c as int % 16)]
    else [c]
  }

  function EscapeAll(s: string): string {
    if s == "" then "" else Escape(s[0]) + EscapeAll(s[1..])
  }

  function Quote(s: string): string {
    "\"" + EscapeAll(s) + "\""
  }

  ghost predicate Encodable(v: Json, floats: Floats) {
    match v
    case Number(token) => Rendered(token, floats).Some?
    case List(items) => forall item <- items :: Encodable(item, floats)
    case Object(fields) => forall k <- fields :: Encodable(fields[k], floats)
    case _ => true
  }

  ghost function Encode(v: Json, floats: Floats): string
    requires Encodable(v, floats)
    decreases v
  {
    match v
    case Null => "null"
    case Bool(b) => if b then "true" else "false"
    case Number(token) => Rendered(token, floats).value
    case Text(text) => Quote(text)
    case List(items) => "[" + EncodeItems(items, true, floats) + "]"
    case Object(fields) => "{" + EncodeFields(v, SortedKeys(fields.Keys), true, floats) + "}"
  }

  ghost function EncodeItems(items: seq<Json>, first: bool, floats: Floats): string
    requires forall item <- items :: Encodable(item, floats)
    decreases items
  {
    if items == [] then ""
    else (if first then "" else ",") + Encode(items[0], floats) + EncodeItems(items[1..], false, floats)
  }

  ghost function EncodeFields(v: Json, keys: seq<string>, first: bool, floats: Floats): string
    requires v.Object? && Encodable(v, floats) && forall k <- keys :: k in v.fields
    decreases v, |keys|
  {
    if keys == [] then ""
    else (if first then "" else ",") + Quote(keys[0]) + ":" + Encode(v.fields[keys[0]], floats)
         + EncodeFields(v, keys[1..], false, floats)
  }

  // ---------------------------------------------------------------- a parser, as the specification

  function HexValue(c: char): Option<int> {
    if '0' <= c <= '9' then Some(c as int - '0' as int)
    else if 'a' <= c <= 'f' then Some(c as int - 'a' as int + 10)
    else if 'A' <= c <= 'F' then Some(c as int - 'A' as int + 10)
    else None
  }

  /** The four hexadecimal digits of a `\u` escape; surrogates are not characters. */
  function Hex4(s: string): Option<char>
    requires |s| >= 4
  {
    var a, b, c, d := HexValue(s[0]), HexValue(s[1]), HexValue(s[2]), HexValue(s[3]);
    if a.Some? && b.Some? && c.Some? && d.Some? then
      var code := 4096 * a.value + 256 * b.value + 16 * c.value + d.value;
      if 0 <= code < 0xD800 || 0xE000 <= code < 0x10000 then Some(code as char) else None
    else None
  }

  function Unescaped(c: char): Option<char> {
    if c == '"' || c == '\\' || c == '/' then Some(c)
    else if c == 'b' then Some(8 as char)
    else if c == 'f' then Some(12 as char)
    else if c == 'n' then Some('\n')
    else if c == 'r' then Some('\r')
    else if c == 't' then Some('\t')
    else None
  }

  /** The characters of a string up to its closing quote (section 7 of RFC 8259), and what follows. */
  function ParseChars(s: string): (r: Option<(string, string)>)
    ensures r.Some? ==> |r.value.1| < |s|
    decreases |s|
  {
    if s == "" || s[0] < ' ' then None
    else if s[0] == '"' then Some(("", s[1..]))
    else if s[0] != '\\' then Prepend(s[0], ParseChars(s[1..]))
    else if |s| >= 6 && s[1] == 'u' then
      var c := Hex4(s[2..]);
      if c.Some? then Prepend(c.value, ParseChars(s[6..])) else None
    else if |s| >= 2 && Unescaped(s[1]).Some? then Prepend(Unescaped(s[1]).value, ParseChars(s[2..]))
    else None
  }

  function Prepend(c: char, parsed: Option<(string, string)>): Option<(string, string)> {
    if parsed.Some? then Some(([c] + parsed.value.0, parsed.value.1)) else None
  }

  /** The longest run of number characters a text begins with. */
  function NumberRun(s: string): (n: nat)
    ensures n <= |s| && (forall i :: 0 <= i < n ==> NumberChar(s[i])) && (n < |s| ==> !NumberChar(s[n]))
  {
    if s == "" || !NumberChar(s[0]) then 0 else 1 + NumberRun(s[1..])
  }

  /** One value at the start of a text without insignificant white space, and what follows it. */
  function ParseValue(s: string): (r: Option<(Json, string)>)
    ensures r.Some? ==> |r.value.1| < |s|
    decreases |s|, 0
  {
    if s == "" then None
    else if s[0] == 'n' then Literal("null", Null, s)
    else if s[0] == 't' then Literal("true", Bool(true), s)
    else if s[0] == 'f' then Literal("false", Bool(false), s)
    else if s[0] == '"' then
      var text := ParseChars(s[1..]);
      if text.Some? then Some((Text(text.value.0), text.value.1)) else None
    else if s[0] == '[' then
      if |s| > 1 && s[1] == ']' then Some((List([]), s[2..]))
      else
        var items := ParseItems(s[1..]);
        if items.Some? then Some((List(items.value.0), items.value.1)) else None
    else if s[0] == '{' then
      if |s| > 1 && s[1] == '}' then Some((Object(map[]), s[2..]))
      else
        var fields := ParseFields(s[1..]);
        if fields.Some? then Some((Object(fields.value.0), fields.value.1)) else None
    else
      var n := NumberRun(s);
      if n > 0 then Some((Number(s[..n]), s[n..])) else None
  }

  function Literal(word: string, v: Json, s: string): Option<(Json, string)> {
    if word <= s then Some((v, s[|word|..])) else None
  }

  function ParseItems(s: string): (r: Option<(seq<Json>, string)>)
    ensures r.Some? ==> |r.value.1| < |s|
    decreases |s|, 1
  {
    var item := ParseValue(s);
    if item.None? || item.value.1 == "" then None
    else if item.value.1[0] == ']' then Some(([item.value.0], item.value.1[1..]))
    else if item.value.1[0] == ',' then
      var others := ParseItems(item.value.1[1..]);
      if others.Some? then Some(([item.value.0] + others.value.0, others.value.1)) else None
    else None
  }

  function ParseFields(s: string): (r: Option<(map<string, Json>, string)>)
    ensures r.Some? ==> |r.value.1| < |s|
    decreases |s|, 1
  {
    var key := if s != "" && s[0] == '"' then ParseChars(s[1..]) else None;
    if key.None? || key.value.1 == "" || key.value.1[0] != ':' then None
    else
      var field := ParseValue(key.value.1[1..]);
      if field.None? || field.value.1 == "" then None
      else if field.value.1[0] == '}' then Some((map[key.value.0 := field.value.0], field.value.1[1..]))
      else if field.value.1[0] == ',' then
        var others := ParseFields(field.value.1[1..]);
        if others.Some? then Some((map[key.value.0 := field.value.0] + others.value.0, others.value.1)) else None
      else None
  }

  // ---------------------------------------------------------------- reading back what was written

  /** The tree with every number token replaced by its rendering: all that the text can carry. */
  ghost function Normal(v: Json, floats: Floats): Json
    requires Encodable(v, floats)
    decreases v
  {
    match v
    case Number(token) => Number(Rendered(token, floats).value)
    case List(items) => List(NormalItems(items, floats))
    case Object(fields) => Object(NormalFields(v, SortedKeys(fields.Keys), floats))
    case _ => v
  }

  ghost function NormalFields(v: Json, keys: seq<string>, floats: Floats): map<string, Json>
    requires v.Object? && Encodable(v, floats) && forall k <- keys :: k in v.fields
    decreases v, 0
  {
    map k | k in keys :: Normal(v.fields[k], floats)
  }

  ghost function NormalItems(items: seq<Json>, floats: Floats): (r: seq<Json>)
    requires forall item <- items :: Encodable(item, floats)
    ensures |r| == |items|
    decreases items
  {
    if items == [] then [] else [Normal(items[0], floats)] + NormalItems(items[1..], floats)
  }

  ghost predicate Integral(v: Json) {
    match v
    case Number(token) => IntegerToken(token)
    case List(items) => forall item <- items :: Integral(item)
    case Object(fields) => forall k <- fields :: Integral(fields[k])
    case _ => true
  }

  lemma {:induction false} IntegralIsNormal(v: Json, floats: Floats)
    requires Integral(v)
    ensures Encodable(v, floats) && Normal(v, floats) == v
    decreases v
  {
    match v
    case List(items) => IntegralItems(items, floats);
    case Object(fields) =>
      forall k <- fields ensures Encodable(fields[k], floats) && Normal(fields[k], floats) == fields[k] {
        IntegralIsNormal(fields[k], floats);
      }
    case _ =>
  }

  lemma {:induction false} IntegralItems(items: seq<Json>, floats: Floats)
    requires forall item <- items :: Integral(item)
    ensures forall item <- items :: Encodable(item, floats)
    ensures NormalItems(items, floats) == items
    decreases items
  {
    if items != [] {
      IntegralIsNormal(items[0], floats);
      IntegralItems(items[1..], floats);
      assert items == [items[0]] + items[1..];
    }
  }

  /** What may follow a value: nothing that would lengthen a number. */
  predicate Delimited(rest: string) {
    rest == "" || !NumberChar(rest[0])
  }

  lemma EscapeReads(c: char, rest: string)
    ensures ParseChars(Escape(c) + rest) == Prepend(c, ParseChars(rest))
  {
    if |Escape(c)| == 6 {
      ControlReads(c, rest);
    } else {
      assert (Escape(c) + rest)[|Escape(c)|..] == rest;
    }
  }

  lemma ControlReads(c: char, rest: string)
    requires c < ' '
    ensures var s := "\\u00" + [HexDigit(c as int / 16), HexDigit(c as int % 16)] + rest;
      ParseChars(s) == Prepend(c, ParseChars(rest))
  {
    var s := "\\u00" + [HexDigit(c as int / 16), HexDigit(c as int % 16)] + rest;
    assert s[6..] == rest && s[0] == '\\' && s[1] == 'u';
    HexReads(c, s[2..]);
  }

  lemma HexReads(c: char, s: string)
    requires c < ' ' && |s| >= 4 && s[0] == '0' && s[1] == '0'
    requires s[2] == HexDigit(c as int / 16) && s[3] == HexDigit(c as int % 16)
    ensures Hex4(s) == Some(c)
  {
  }

  lemma {:induction false} QuoteReads(text: string, rest: string)
    ensures ParseChars(EscapeAll(text) + "\"" + rest) == Some((text, rest))
  {
    if text == "" {
      assert EscapeAll(text) + "\"" + rest == "\"" + rest;
    } else {
      QuoteReads(text[1..], rest);
      EscapeReads(text[0], EscapeAll(text[1..]) + "\"" + rest);
      assert EscapeAll(text) + "\"" + rest == Escape(text[0]) + (EscapeAll(text[1..]) + "\"" + rest);
      assert text == [text[0]] + text[1..];
    }
  }

  // ---------------------------------------------------------------- how a string is spelled

  /** The length of the spelling of the first character. */
  function Token(s: string): (k: nat)
    requires ParseChars(s).Some? && s[0] != '"'
    ensures 0 < k <= |s|
  {
    if s[0] != '\\' then 1 else if |s| >= 6 && s[1] == 'u' then 6 else 2
  }

  predicate LowerCase(digits: string) {
    forall c <- digits :: !('A' <= c <= 'F')
  }

  /** Every hexadecimal digit of a `\u` escape is in lower case. */
  predicate LowerEscapes(s: string)
    requires ParseChars(s).Some?
    decreases |s|
  {
    s[0] == '"'
    || ((Token(s) == 6 ==> LowerCase(s[2..6])) && LowerEscapes(s[Token(s)..]))
  }

  /** No spelling of a character is shorter than the one written, and one that is as short differs from it
    * only in the case of hexadecimal digits. */
  lemma TokenSpells(s: string)
    requires ParseChars(s).Some? && s[0] != '"'
    ensures ParseChars(s[Token(s)..]).Some? && ParseChars(s).value.0 != ""
    ensures ParseChars(s) == Prepend(ParseChars(s).value.0[0], ParseChars(s[Token(s)..]))
    ensures |Escape(ParseChars(s).value.0[0])| <= Token(s)
    ensures Token(s) == |Escape(ParseChars(s).value.0[0])| && (Token(s) == 6 ==> LowerCase(s[2..6])) ==>
      s[..Token(s)] == Escape(ParseChars(s).value.0[0])
  {
    hide ParseChars, Escape, Hex4, Unescaped, LowerCase;
    if Token(s) == 6 {
      UnicodeSpells(s);
    } else if Token(s) == 2 {
      ShortSpells(s);
    } else {
      PlainSpells(s);
    }
  }

  /** The first character as the parser takes it. */
  lemma FirstCharacter(s: string)
    requires ParseChars(s).Some? && s[0] != '"'
    ensures Token(s) == 1 ==> s[0] >= ' ' && s[0] != '\\' && ParseChars(s) == Prepend(s[0], ParseChars(s[1..]))
    ensures Token(s) == 2 ==>
      s[0] == '\\' && Unescaped(s[1]).Some? && ParseChars(s) == Prepend(Unescaped(s[1]).value, ParseChars(s[2..]))
    ensures Token(s) == 6 ==>
      s[0] == '\\' && s[1] == 'u' && Hex4(s[2..]).Some? && ParseChars(s) == Prepend(Hex4(s[2..]).value, ParseChars(s[6..]))
  {
    hide Hex4, Unescaped;
  }

  lemma PlainSpells(s: string)
    requires ParseChars(s).Some? && s[0] != '"' && Token(s) == 1
    ensures ParseChars(s) == Prepend(s[0], ParseChars(s[1..])) && s[..1] == Escape(s[0])
  {
    FirstCharacter(s);
    hide ParseChars, Token;
    assert s[..1] == [s[0]];
  }

  lemma ShortSpells(s: string)
    requires ParseChars(s).Some? && s[0] != '"' && Token(s) == 2
    ensures Unescaped(s[1]).Some? && ParseChars(s) == Prepend(Unescaped(s[1]).value, ParseChars(s[2..]))
    ensures |Escape(Unescaped(s[1]).value)| <= 2
    ensures |Escape(Unescaped(s[1]).value)| == 2 ==> s[..2] == Escape(Unescaped(s[1]).value)
  {
    FirstCharacter(s);
    hide ParseChars, Token;
    assert s[..2] == ['\\', s[1]];
    ShortEscape(s[1]);
  }

  lemma ShortEscape(c: char)
    requires Unescaped(c).Some?
    ensures |Escape(Unescaped(c).value)| <= 2
    ensures |Escape(Unescaped(c).value)| == 2 ==> ['\\', c] == Escape(Unescaped(c).value)
  {
  }

  lemma UnicodeSpells(s: string)
    requires ParseChars(s).Some? && s[0] != '"' && Token(s) == 6
    ensures Hex4(s[2..]).Some? && ParseChars(s) == Prepend(Hex4(s[2..]).value, ParseChars(s[6..]))
    ensures |Escape(Hex4(s[2..]).value)| <= 6
    ensures |Escape(Hex4(s[2..]).value)| == 6 && LowerCase(s[2..6]) ==> s[..6] == Escape(Hex4(s[2..]).value)
  {
    FirstCharacter(s);
    hide *;
    var c := Hex4(s[2..]).value;
    LongEscape(c);
    if |Escape(c)| == 6 && LowerCase(s[2..6]) {
      ControlSpelled(c, s);
    }
  }

  lemma LongEscape(c: char)
    ensures |Escape(c)| <= 6
    ensures |Escape(c)| == 6 ==> c < ' ' && Escape(c) == "\\u00" + [HexDigit(c as int / 16), HexDigit(c as int % 16)]
  {
  }

  lemma ControlSpelled(c: char, s: string)
    requires |s| >= 6 && s[0] == '\\' && s[1] == 'u' && Hex4(s[2..]) == Some(c) && c < ' ' && LowerCase(s[2..6])
    ensures s[..6] == "\\u00" + [HexDigit(c as int / 16), HexDigit(c as int % 16)]
  {
    var h := s[2..6];
    assert h[0] in h && h[1] in h && h[2] in h && h[3] in h;
    LowerDigit(h[0]);
    LowerDigit(h[1]);
    LowerDigit(h[2]);
    LowerDigit(h[3]);
    assert s[..6] == ['\\', 'u'] + h;
    DigitsOf(c, h, s[2..]);
  }

  lemma DigitsOf(c: char, h: string, s: string)
    requires |h| == 4 && |s| >= 4 && s[..4] == h && Hex4(s) == Some(c) && c < ' '
    requires forall i :: 0 <= i < 4 && HexValue(h[i]).Some? ==> 0 <= HexValue(h[i]).value < 16 && h[i] == HexDigit(HexValue(h[i]).value)
    ensures h == "00" + [HexDigit(c as int / 16), HexDigit(c as int % 16)]
  {
    assert s[0] == h[0] && s[1] == h[1] && s[2] == h[2] && s[3] == h[3];
    hide HexValue, HexDigit;
    var a, b := HexValue(h[0]).value, HexValue(h[1]).value;
    assert a == 0 && b == 0;
    assert HexDigit(0) == '0';
  }

  lemma LowerDigit(c: char)
    ensures HexValue(c).Some? && !('A' <= c <= 'F') ==> 0 <= HexValue(c).value < 16 && c == HexDigit(HexValue(c).value)
  {
  }

  /** No text that reads as a string is shorter than the quoted string, and one that is as short, with the
    * hexadecimal digits of its escapes in lower case, is the quoted string. */
  lemma {:induction false} ShortestSpelling(s: string, text: string, rest: string)
    requires ParseChars(s) == Some((text, rest))
    ensures |EscapeAll(text)| + 1 + |rest| <= |s|
    ensures |EscapeAll(text)| + 1 + |rest| == |s| && LowerEscapes(s) ==> s == EscapeAll(text) + "\"" + rest
    decreases |s|
  {
    NotEmpty(s);
    if s[0] == '"' {
      Closes(s, text, rest);
    } else {
      TokenSpells(s);
      LowerStep(s);
      hide *;
      var k := Token(s);
      PrependStep(ParseChars(s).value.0[0], ParseChars(s[k..]), text, rest);
      ShortestSpelling(s[k..], text[1..], rest);
      EscapeAllStep(text);
      Joined(s, k, Escape(text[0]), EscapeAll(text[1..]), rest);
    }
  }

  lemma PrependStep(c: char, parsed: Option<(string, string)>, text: string, rest: string)
    requires Prepend(c, parsed) == Some((text, rest))
    ensures text != "" && text[0] == c && parsed == Some((text[1..], rest))
  {
    assert parsed.Some? && ([c] + parsed.value.0)[1..] == parsed.value.0;
  }

  lemma Joined(s: string, k: nat, first: string, others: string, rest: string)
    requires k <= |s| && |first| <= k && |others| + 1 + |rest| <= |s[k..]|
    ensures |first + others| + 1 + |rest| <= |s|
    ensures |first + others| + 1 + |rest| == |s| ==> |first| == k && |others| + 1 + |rest| == |s[k..]|
    ensures s[..k] == first && s[k..] == others + "\"" + rest ==> s == first + others + "\"" + rest
  {
    assert s == s[..k] + s[k..];
  }

  lemma NotEmpty(s: string)
    ensures ParseChars(s).Some? ==> s != ""
  {
  }

  lemma Closes(s: string, text: string, rest: string)
    requires ParseChars(s) == Some((text, rest)) && s[0] == '"'
    ensures EscapeAll(text) == "" && s == "\"" + rest
  {
  }

  lemma EscapeAllStep(text: string)
    requires text != ""
    ensures EscapeAll(text) == Escape(text[0]) + EscapeAll(text[1..])
  {
  }

  lemma LowerStep(s: string)
    requires ParseChars(s).Some? && s[0] != '"' && ParseChars(s[Token(s)..]).Some?
    ensures LowerEscapes(s) <==> (Token(s) == 6 ==> LowerCase(s[2..6])) && LowerEscapes(s[Token(s)..])
  {
    hide ParseChars, LowerCase, Token;
  }

  lemma {:induction false} WrittenLower(text: string, rest: string)
    ensures ParseChars(EscapeAll(text) + "\"" + rest).Some? && LowerEscapes(EscapeAll(text) + "\"" + rest)
  {
    QuoteReads(text, rest);
    hide ParseChars, Escape, LowerCase, EscapeAll, Token;
    var s := EscapeAll(text) + "\"" + rest;
    if text == "" {
      WrittenNothing(s, text, rest);
    } else {
      var others := EscapeAll(text[1..]) + "\"" + rest;
      WrittenLower(text[1..], rest);
      EscapeAllStep(text);
      assert s == Escape(text[0]) + others;
      WrittenToken(text[0], others);
      LowerStep(s);
    }
  }

  lemma WrittenNothing(s: string, text: string, rest: string)
    requires text == "" && s == EscapeAll(text) + "\"" + rest && ParseChars(s).Some?
    ensures LowerEscapes(s)
  {
  }

  lemma WrittenToken(c: char, rest: string)
    requires ParseChars(Escape(c) + rest).Some?
    ensures var s := Escape(c) + rest;
      s[0] != '"' && Token(s) == |Escape(c)| && s[Token(s)..] == rest && (Token(s) == 6 ==> LowerCase(s[2..6]))
  {
    var s := Escape(c) + rest;
    assert s[|Escape(c)|..] == rest;
    if |Escape(c)| == 6 {
      assert s[2..6] == ['0', '0', HexDigit(c as int / 16), HexDigit(c as int % 16)];
    }
  }

  /** The text of a string: it reads as the string, nothing shorter does, and nothing as short does but for the
    * case of hexadecimal digits, which are in lower case here. */
  ghost predicate Spells(written: string, text: string) {
    && ParseValue(written) == Some((Text(text), ""))
    && forall other | ParseValue(other) == Some((Text(text), "")) ::
         |written| <= |other|
         && (other != "" && ParseChars(other[1..]).Some? && |other| == |written| && LowerEscapes(other[1..]) ==> other == written)
  }

  lemma QuoteSpells(text: string)
    ensures Spells(Quote(text), text)
    ensures ParseChars(Quote(text)[1..]).Some? && LowerEscapes(Quote(text)[1..])
  {
    TextReads(text, "");
    assert Quote(text) + "" == Quote(text);
    WrittenLower(text, "");
    assert Quote(text)[1..] == EscapeAll(text) + "\"" + "";
    forall other | ParseValue(other) == Some((Text(text), ""))
      ensures |Quote(text)| <= |other|
      ensures other != "" && ParseChars(other[1..]).Some? && |other| == |Quote(text)| && LowerEscapes(other[1..]) ==> other == Quote(text)
    {
      OnlyQuoted(other, text);
      ShortestSpelling(other[1..], text, "");
      assert other == "\"" + other[1..];
    }
  }

  lemma OnlyQuoted(s: string, text: string)
    requires ParseValue(s) == Some((Text(text), ""))
    ensures s != "" && s[0] == '"' && ParseChars(s[1..]) == Some((text, ""))
  {
    hide ParseItems, ParseFields, ParseChars, NumberRun;
  }

  /** The quoted string is the one such text whose escapes are in lower case. */
  lemma SpellingUnique(written: string, text: string)
    ensures written == Quote(text) <==>
      Spells(written, text) && written != "" && ParseChars(written[1..]).Some? && LowerEscapes(written[1..])
  {
    QuoteSpells(text);
    assert Quote(text) != "";
    hide ParseValue, ParseChars;
  }

  lemma {:induction false} NumberReads(text: string, rest: string)
    requires NumberText(text) && Delimited(rest)
    ensures NumberRun(text + rest) == |text|
    ensures ParseValue(text + rest) == Some((Number(text), rest))
  {
    var s := text + rest;
    var n := NumberRun(s);
    assert forall i :: 0 <= i < |text| ==> s[i] == text[i] && text[i] in text;
    assert rest != "" ==> s[|text|] == rest[0];
    assert s[0] == text[0] && text[0] in text;
    assert s[..n] == text && s[n..] == rest;
  }

  lemma LiteralReads(word: string, v: Json, rest: string)
    ensures Literal(word, v, word + rest) == Some((v, rest))
  {
    assert (word + rest)[|word|..] == rest;
  }

  lemma ListReads(inner: string, read: seq<Json>, rest: string)
    requires inner != "" && inner[0] != ']' && ParseItems(inner + ("]" + rest)) == Some((read, rest))
    ensures ParseValue("[" + inner + "]" + rest) == Some((List(read), rest))
  {
    hide ParseItems, ParseFields, ParseChars, NumberRun;
    var s := "[" + inner + "]" + rest;
    assert s[1..] == inner + ("]" + rest);
    assert s[0] == '[' && s[1] == inner[0];
  }

  lemma ObjectReads(inner: string, read: map<string, Json>, rest: string)
    requires inner != "" && inner[0] != '}' && ParseFields(inner + ("}" + rest)) == Some((read, rest))
    ensures ParseValue("{" + inner + "}" + rest) == Some((Object(read), rest))
  {
    hide ParseItems, ParseFields, ParseChars, NumberRun;
    var s := "{" + inner + "}" + rest;
    assert s[1..] == inner + ("}" + rest);
    assert s[0] == '{' && s[1] == inner[0];
  }

  lemma EmptiesRead(rest: string)
    ensures ParseValue("[" + "" + "]" + rest) == Some((List([]), rest))
    ensures ParseValue("{" + "" + "}" + rest) == Some((Object(map[]), rest))
  {
    var list, record := "[" + "" + "]" + rest, "{" + "" + "}" + rest;
    assert list[1] == ']' && list[2..] == rest;
    assert record[1] == '}' && record[2..] == rest;
  }

  lemma TextReads(text: string, rest: string)
    ensures ParseValue(Quote(text) + rest) == Some((Text(text), rest))
  {
    QuoteReads(text, rest);
    assert (Quote(text) + rest)[1..] == EscapeAll(text) + "\"" + rest;
  }

  /** Reading the text of a tree, whatever delimited text follows, gives the tree and that text back. */
  lemma {:induction false} RoundTrip(v: Json, floats: Floats, rest: string)
    requires Encodable(v, floats) && WritesNumbers(floats) && Delimited(rest)
    ensures ParseValue(Encode(v, floats) + rest) == Some((Normal(v, floats), rest))
    decreases v
  {
    match v
    case Null => LiteralReads("null", v, rest);
    case Bool(b) => LiteralReads(if b then "true" else "false", v, rest);
    case Number(token) =>
      RenderedIsNumberText(token, floats);
      NumberReads(Rendered(token, floats).value, rest);
    case Text(text) => TextReads(text, rest);
    case List(items) => ListRoundTrip(items, floats, rest);
    case Object(fields) => ObjectRoundTrip(v, floats, rest);
  }

  lemma {:induction false} ListRoundTrip(items: seq<Json>, floats: Floats, rest: string)
    requires WritesNumbers(floats) && forall item <- items :: Encodable(item, floats)
    ensures ParseValue("[" + EncodeItems(items, true, floats) + "]" + rest)
         == Some((List(NormalItems(items, floats)), rest))
    decreases items, 1
  {
    hide ParseValue, ParseItems, Encode, Normal;
    if items == [] {
      EmptiesRead(rest);
    } else {
      ItemsRead(items, floats, rest);
      EncodeOpens(items[0], floats);
      ListReads(EncodeItems(items, true, floats), NormalItems(items, floats), rest);
    }
  }

  lemma {:induction false} ObjectRoundTrip(v: Json, floats: Floats, rest: string)
    requires v.Object? && WritesNumbers(floats) && Encodable(v, floats)
    ensures ParseValue("{" + EncodeFields(v, SortedKeys(v.fields.Keys), true, floats) + "}" + rest)
         == Some((Object(NormalFields(v, SortedKeys(v.fields.Keys), floats)), rest))
    decreases v, 1
  {
    hide ParseValue, ParseFields, Encode, Normal, EscapeAll;
    var keys := SortedKeys(v.fields.Keys);
    EmptyListing(keys, v.fields.Keys);
    if keys == [] {
      EmptiesRead(rest);
      assert NormalFields(v, keys, floats) == map[];
    } else {
      FieldsRead(v, keys, floats, rest);
      ObjectReads(EncodeFields(v, keys, true, floats), NormalFields(v, keys, floats), rest);
    }
  }

  /** No value begins with a closing bracket, so a list that has an item is not read as an empty one. */
  lemma EncodeOpens(v: Json, floats: Floats)
    requires Encodable(v, floats) && WritesNumbers(floats)
    ensures var s := Encode(v, floats); s != "" && s[0] != ']' && s[0] != '}'
  {
    match v
    case Number(token) =>
      RenderedIsNumberText(token, floats);
      var text := Rendered(token, floats).value;
      assert text[0] in text;
    case _ =>
  }

  lemma ItemsStep(s: string, item: Json, tail: string, others: seq<Json>, rest: string)
    requires ParseValue(s) == Some((item, tail)) && tail != ""
    ensures tail[0] == ']' ==> ParseItems(s) == Some(([item], tail[1..]))
    ensures tail[0] == ',' && ParseItems(tail[1..]) == Some((others, rest)) ==>
      ParseItems(s) == Some(([item] + others, rest))
  {
  }

  lemma {:induction false} ItemsRead(items: seq<Json>, floats: Floats, rest: string)
    requires items != [] && WritesNumbers(floats)
    requires forall item <- items :: Encodable(item, floats)
    ensures ParseItems(EncodeItems(items, true, floats) + ("]" + rest)) == Some((NormalItems(items, floats), rest))
    decreases items, 0
  {
    hide ParseValue, ParseItems, Encode, Normal;
    var item, others := items[0], items[1..];
    var tail := EncodeItems(others, false, floats) + ("]" + rest);
    assert EncodeItems(items, true, floats) + ("]" + rest) == Encode(item, floats) + tail;
    if others == [] {
      assert tail == "]" + rest && tail[1..] == rest;
      RoundTrip(item, floats, tail);
      ItemsStep(Encode(item, floats) + tail, Normal(item, floats), tail, [], rest);
      assert NormalItems(items, floats) == [Normal(item, floats)];
    } else {
      var more := EncodeItems(others, true, floats) + ("]" + rest);
      assert tail == "," + more && tail[1..] == more;
      RoundTrip(item, floats, tail);
      ItemsRead(others, floats, rest);
      ItemsStep(Encode(item, floats) + tail, Normal(item, floats), tail, NormalItems(others, floats), rest);
    }
  }

  lemma FieldsStep(s: string, key: string, after: string, field: Json, tail: string,
                   others: map<string, Json>, rest: string)
    requires s != "" && s[0] == '"' && ParseChars(s[1..]) == Some((key, after))
    requires after != "" && after[0] == ':' && ParseValue(after[1..]) == Some((field, tail)) && tail != ""
    ensures tail[0] == '}' ==> ParseFields(s) == Some((map[key := field], tail[1..]))
    ensures tail[0] == ',' && ParseFields(tail[1..]) == Some((others, rest)) ==>
      ParseFields(s) == Some((map[key := field] + others, rest))
  {
  }

  /** The text of the fields from `keys[0]` on, cut after its key and after its value. */
  lemma FieldText(v: Json, keys: seq<string>, floats: Floats, rest: string)
    requires v.Object? && Encodable(v, floats) && keys != [] && forall k <- keys :: k in v.fields
    ensures var tail := EncodeFields(v, keys[1..], false, floats) + ("}" + rest);
      EncodeFields(v, keys, true, floats) + ("}" + rest)
      == "\"" + (EscapeAll(keys[0]) + "\"" + (":" + (Encode(v.fields[keys[0]], floats) + tail)))
    ensures EncodeFields(v, keys, false, floats) == "," + EncodeFields(v, keys, true, floats)
  {
    hide Encode, EscapeAll, EncodeFields;
    FieldPieces(v, keys, floats);
    var more := EncodeFields(v, keys[1..], false, floats);
    Regroup(EscapeAll(keys[0]), Encode(v.fields[keys[0]], floats), more, rest);
  }

  lemma FieldPieces(v: Json, keys: seq<string>, floats: Floats)
    requires v.Object? && Encodable(v, floats) && keys != [] && forall k <- keys :: k in v.fields
    ensures EncodeFields(v, keys, true, floats) == "\"" + EscapeAll(keys[0]) + "\"" + ":"
      + Encode(v.fields[keys[0]], floats) + EncodeFields(v, keys[1..], false, floats)
    ensures EncodeFields(v, keys, false, floats) == "," + EncodeFields(v, keys, true, floats)
  {
    hide Encode, EscapeAll;
    var key, field, more := Quote(keys[0]), Encode(v.fields[keys[0]], floats), EncodeFields(v, keys[1..], false, floats);
    assert "" + key == key;
    assert "," + key + ":" + field + more == "," + (key + ":" + field + more);
  }

  lemma Regroup(key: string, field: string, more: string, rest: string)
    ensures "\"" + key + "\"" + ":" + field + more + ("}" + rest)
         == "\"" + (key + "\"" + (":" + (field + (more + ("}" + rest)))))
  {
  }

  lemma {:induction false} FieldsRead(v: Json, keys: seq<string>, floats: Floats, rest: string)
    requires v.Object? && Encodable(v, floats) && WritesNumbers(floats)
    requires keys != [] && Ascending(keys) && forall k <- keys :: k in v.fields
    ensures ParseFields(EncodeFields(v, keys, true, floats) + ("}" + rest))
         == Some((NormalFields(v, keys, floats), rest))
    decreases v, 0, |keys|
  {
    hide ParseValue, ParseChars, ParseFields, Encode, EncodeFields, Normal, NormalFields, EscapeAll, Ascending;
    var key, field, others := keys[0], v.fields[keys[0]], keys[1..];
    var tail := EncodeFields(v, others, false, floats) + ("}" + rest);
    var after := ":" + (Encode(field, floats) + tail);
    var s := EncodeFields(v, keys, true, floats) + ("}" + rest);
    FieldText(v, keys, floats, rest);
    QuoteReads(key, after);
    FieldsStart(s, EscapeAll(key) + "\"" + after, after, Encode(field, floats) + tail);
    NormalFieldsStep(v, keys, floats);
    NoFields(v, floats);
    if others == [] {
      assert tail == "}" + rest && tail[1..] == rest;
      RoundTrip(field, floats, tail);
      FieldsStep(s, key, after, Normal(field, floats), tail, map[], rest);
    } else {
      var more := EncodeFields(v, others, true, floats) + ("}" + rest);
      FieldText(v, others, floats, rest);
      assert tail == "," + more && tail[1..] == more;
      RoundTrip(field, floats, tail);
      AscendingTail(keys);
      FieldsRead(v, others, floats, rest);
      FieldsStep(s, key, after, Normal(field, floats), tail, NormalFields(v, others, floats), rest);
    }
  }

  lemma FieldsStart(s: string, chars: string, after: string, value: string)
    requires s == "\"" + chars && after == ":" + value
    ensures s[0] == '"' && s[1..] == chars && after[0] == ':' && after[1..] == value
  {
  }

  lemma NoFields(v: Json, floats: Floats)
    requires v.Object? && Encodable(v, floats)
    ensures EncodeFields(v, [], false, floats) == "" && NormalFields(v, [], floats) == map[]
  {
  }

  lemma NormalFieldsStep(v: Json, keys: seq<string>, floats: Floats)
    requires v.Object? && Encodable(v, floats) && keys != [] && Ascending(keys) && forall k <- keys :: k in v.fields
    ensures NormalFields(v, keys, floats)
         == map[keys[0] := Normal(v.fields[keys[0]], floats)] + NormalFields(v, keys[1..], floats)
    ensures keys[1..] == [] ==> NormalFields(v, keys, floats) == map[keys[0] := Normal(v.fields[keys[0]], floats)]
  {
    hide Normal;
    FirstKeyApart(keys);
    assert keys == [keys[0]] + keys[1..];
  }

  lemma FirstKeyApart(keys: seq<string>)
    requires keys != [] && Ascending(keys)
    ensures keys[0] !in keys[1..]
  {
    forall i | 0 <= i < |keys[1..]| ensures keys[1..][i] != keys[0] {
      assert Before(keys[0], keys[i + 1]);
      BeforeTotal(keys[0], keys[i + 1]);
    }
  }

  /** Two values written one after other text: where the first ends, and what it was, is determined. */
  lemma SelfDelimiting(a: Json, b: Json, floats: Floats, after: string, behind: string)
    requires WritesNumbers(floats) && Encodable(a, floats) && Encodable(b, floats)
    requires Delimited(after) && Delimited(behind)
    requires Encode(a, floats) + after == Encode(b, floats) + behind
    ensures Normal(a, floats) == Normal(b, floats) && after == behind
  {
    RoundTrip(a, floats, after);
    RoundTrip(b, floats, behind);
  }

  /** Trees of null, booleans, integer tokens, strings, lists and objects: the text determines the tree. */
  lemma Injective(a: Json, b: Json, floats: Floats)
    requires WritesNumbers(floats) && Integral(a) && Integral(b)
    ensures Encodable(a, floats) && Encodable(b, floats)
    ensures Encode(a, floats) == Encode(b, floats) <==> a == b
    ensures ParseValue(Encode(a, floats)) == Some((a, ""))
  {
    IntegralIsNormal(a, floats);
    IntegralIsNormal(b, floats);
    RoundTrip(a, floats, "");
    RoundTrip(b, floats, "");
    assert Encode(a, floats) + "" == Encode(a, floats);
    assert Encode(b, floats) + "" == Encode(b, floats);
  }

  /** Equal texts mean equal trees up to the rendering of numbers: what the text loses, exactly. */
  lemma EqualTexts(a: Json, b: Json, floats: Floats)
    requires WritesNumbers(floats) && Encodable(a, floats) && Encodable(b, floats)
    ensures Encode(a, floats) == Encode(b, floats) <==> Normal(a, floats) == Normal(b, floats)
  {
    RoundTrip(a, floats, "");
    RoundTrip(b, floats, "");
    assert Encode(a, floats) + "" == Encode(a, floats);
    assert Encode(b, floats) + "" == Encode(b, floats);
    if Normal(a, floats) == Normal(b, floats) {
      TextOfNormal(a, b, floats);
    }
  }

  lemma {:induction false} TextOfNormal(a: Json, b: Json, floats: Floats)
    requires Encodable(a, floats) && Encodable(b, floats) && Normal(a, floats) == Normal(b, floats)
    ensures Encode(a, floats) == Encode(b, floats)
    decreases a
  {
    if a.List? {
      TextOfNormalItems(a.items, b.items, true, floats);
    } else if a.Object? {
      var mine, theirs := SortedKeys(a.fields.Keys), SortedKeys(b.fields.Keys);
      assert NormalFields(a, mine, floats).Keys == NormalFields(b, theirs, floats).Keys;
      assert forall k :: k in mine <==> k in NormalFields(a, mine, floats);
      assert forall k :: k in theirs <==> k in NormalFields(b, theirs, floats);
      AscendingUnique(mine, theirs, a.fields.Keys);
      TextOfNormalFields(a, b, mine, true, floats);
    }
  }

  lemma {:induction false} TextOfNormalItems(a: seq<Json>, b: seq<Json>, first: bool, floats: Floats)
    requires forall item <- a :: Encodable(item, floats)
    requires forall item <- b :: Encodable(item, floats)
    requires NormalItems(a, floats) == NormalItems(b, floats)
    ensures EncodeItems(a, first, floats) == EncodeItems(b, first, floats)
    decreases a
  {
    if a != [] {
      var mine, theirs := NormalItems(a, floats), NormalItems(b, floats);
      assert mine[0] == Normal(a[0], floats) && theirs[0] == Normal(b[0], floats);
      assert mine[1..] == NormalItems(a[1..], floats) && theirs[1..] == NormalItems(b[1..], floats);
      TextOfNormal(a[0], b[0], floats);
      TextOfNormalItems(a[1..], b[1..], false, floats);
    }
  }

  lemma {:induction false} TextOfNormalFields(a: Json, b: Json, keys: seq<string>, first: bool, floats: Floats)
    requires a.Object? && b.Object? && Encodable(a, floats) && Encodable(b, floats)
    requires forall k <- keys :: k in a.fields && k in b.fields
    requires NormalFields(a, keys, floats) == NormalFields(b, keys, floats)
    ensures EncodeFields(a, keys, first, floats) == EncodeFields(b, keys, first, floats)
    decreases a, |keys|
  {
    if keys != [] {
      var mine, theirs := NormalFields(a, keys, floats), NormalFields(b, keys, floats);
      assert mine[keys[0]] == theirs[keys[0]];
      TextOfNormal(a.fields[keys[0]], b.fields[keys[0]], floats);
      forall k <- keys[1..] ensures Normal(a.fields[k], floats) == Normal(b.fields[k], floats) {
        assert k in keys && mine[k] == theirs[k];
      }
      assert NormalFields(a, keys[1..], floats) == NormalFields(b, keys[1..], floats);
      TextOfNormalFields(a, b, keys[1..], false, floats);
    }
  }

  // ---------------------------------------------------------------- the encoder, writing into a buffer

  class Buffer {
    var text: string

    constructor ()
      ensures text == ""
    {
      text := "";
    }

    method Write(s: string)
      modifies this
      ensures text == old(text) + s
    {
      text := text + s;
    }
  }

  method AppendCanonicalString(out: Buffer, value: string)
    modifies out
    ensures out.text == old(out.text) + Quote(value)
    ensures Spells(out.text[|old(out.text)|..], value)
  {
    QuoteSpells(value);
    hide Spells, EscapeAll;
    out.Write("\"");
    AppendCharacters(out, value);
    out.Write("\"");
    assert out.text == old(out.text) + Quote(value);
    assert out.text[|old(out.text)|..] == Quote(value);
  }

  method AppendCharacters(out: Buffer, value: string)
    modifies out
    ensures out.text == old(out.text) + EscapeAll(value)
  {
    hide Escape;
    var index := 0;
    while index < |value|
      invariant 0 <= index <= |value|
      invariant out.text + EscapeAll(value[index..]) == old(out.text) + EscapeAll(value)
    {
      ghost var before := out.text;
      AppendCharacter(out, value[index]);
      assert value[index..][1..] == value[index + 1..];
      assert out.text + EscapeAll(value[index + 1..]) == before + EscapeAll(value[index..]);
      index := index + 1;
    }
    assert value[index..] == "";
  }

  method AppendCharacter(out: Buffer, character: char)
    modifies out
    ensures out.text == old(out.text) + Escape(character)
  {
    if character == '"' || character == '\\' {
      out.Write("\\");
      out.Write([character]);
      assert ['\\'] + [character] == Escape(character);
    } else if character == 8 as char {
      out.Write("\\b");
    } else if character == 12 as char {
      out.Write("\\f");
    } else if character == '\n' {
      out.Write("\\n");
    } else if character == '\r' {
      out.Write("\\r");
    } else if character == '\t' {
      out.Write("\\t");
    } else if character < ' ' {
      out.Write("\\u00" + [HexDigit(character as int / 16), HexDigit(character as int % 16)]);
    } else {
      out.Write([character]);
    }
  }

  /** Appends the canonical text of a tree, or fails exactly when some number in it does not parse. */
  method EncodeCanonical(out: Buffer, v: Json, floats: Floats) returns (ok: bool)
    modifies out
    ensures ok <==> Encodable(v, floats)
    ensures ok ==> out.text == old(out.text) + Encode(v, floats)
    decreases v
  {
    hide SortedKeys, EscapeAll, Rendered, Spells;
    ok := true;
    match v
    case Null => out.Write("null");
    case Bool(b) => out.Write(if b then "true" else "false");
    case Number(token) =>
      ok := AppendNumber(out, token, floats);
    case Text(text) => AppendCanonicalString(out, text);
    case List(items) => ok := AppendItems(out, items, floats);
    case Object(fields) => ok := AppendFields(out, v, floats);
  }

  method AppendNumber(out: Buffer, token: string, floats: Floats) returns (ok: bool)
    modifies out
    ensures ok <==> Rendered(token, floats).Some?
    ensures ok ==> out.text == old(out.text) + Rendered(token, floats).value
  {
    if IntegerToken(token) {
      out.Write(token);
      return true;
    }
    var number := floats(token);
    if number.None? {
      return false;
    }
    out.Write(number.value);
    return true;
  }

  lemma ItemPieces(items: seq<Json>, index: nat, floats: Floats, before: string)
    requires index < |items| && forall item <- items :: Encodable(item, floats)
    ensures before + EncodeItems(items[index..], index == 0, floats)
         == before + (if index == 0 then "" else ",") + Encode(items[index], floats)
            + EncodeItems(items[index + 1..], false, floats)
  {
    hide Encodable, Encode;
    assert items[index..][1..] == items[index + 1..];
  }

  method AppendItems(out: Buffer, items: seq<Json>, floats: Floats) returns (ok: bool)
    modifies out
    ensures ok <==> forall item <- items :: Encodable(item, floats)
    ensures ok ==> out.text == old(out.text) + ("[" + EncodeItems(items, true, floats) + "]")
    decreases items
  {
    hide Encodable, Encode, EncodeItems;
    ghost var good := forall item <- items :: Encodable(item, floats);
    ghost var target := if good then EncodeItems(items, true, floats) else "";
    out.Write("[");
    ghost var start := out.text;
    var index := 0;
    assert items[0..] == items;
    while index < |items|
      invariant 0 <= index <= |items|
      invariant forall item <- items[..index] :: Encodable(item, floats)
      invariant good ==> out.text + EncodeItems(items[index..], index == 0, floats) == start + target
    {
      if good {
        ItemPieces(items, index, floats, out.text);
      }
      if index > 0 {
        out.Write(",");
      }
      var fine := EncodeCanonical(out, items[index], floats);
      if !fine {
        assert items[index] in items;
        return false;
      }
      assert items[..index + 1] == items[..index] + [items[index]];
      index := index + 1;
    }
    assert items[..index] == items && items[index..] == [];
    NothingLeft(floats);
    out.Write("]");
    Enclosed(old(out.text), "[", target, "]");
    return true;
  }

  lemma NothingLeft(floats: Floats)
    ensures forall first :: EncodeItems([], first, floats) == ""
    ensures forall v: Json, first :: v.Object? && Encodable(v, floats) ==> EncodeFields(v, [], first, floats) == ""
  {
  }

  lemma Enclosed(base: string, open: string, inner: string, close: string)
    ensures base + open + inner + close == base + (open + inner + close)
  {
  }

  lemma FieldAppends(v: Json, keys: seq<string>, index: nat, floats: Floats, before: string)
    requires v.Object? && Encodable(v, floats) && index < |keys| && forall k <- keys :: k in v.fields
    ensures before + EncodeFields(v, keys[index..], index == 0, floats)
         == before + (if index == 0 then "" else ",") + Quote(keys[index]) + ":"
            + Encode(v.fields[keys[index]], floats) + EncodeFields(v, keys[index + 1..], false, floats)
  {
    hide Encodable, Encode, Quote;
    assert keys[index..][1..] == keys[index + 1..];
  }

  method AppendField(out: Buffer, v: Json, key: string, first: bool, floats: Floats) returns (ok: bool)
    requires v.Object? && key in v.fields
    modifies out
    ensures ok <==> Encodable(v.fields[key], floats)
    ensures ok ==>
      out.text == old(out.text) + (if first then "" else ",") + Quote(key) + ":" + Encode(v.fields[key], floats)
    decreases v, 0
  {
    hide Encode, Encodable, Quote, Spells;
    if !first {
      out.Write(",");
    }
    AppendCanonicalString(out, key);
    out.Write(":");
    ok := EncodeCanonical(out, v.fields[key], floats);
  }

  method AppendFields(out: Buffer, v: Json, floats: Floats) returns (ok: bool)
    requires v.Object?
    modifies out
    ensures ok <==> Encodable(v, floats)
    ensures ok ==>
      out.text == old(out.text) + ("{" + EncodeFields(v, SortedKeys(v.fields.Keys), true, floats) + "}")
    decreases v, 1
  {
    hide Encode, EncodeFields, SortedKeys, Quote, Ascending;
    ghost var good := Encodable(v, floats);
    var keys := Gather(v.fields.Keys);
    keys := SortStrings(keys, v.fields.Keys);
    ghost var target := if good then EncodeFields(v, keys, true, floats) else "";
    out.Write("{");
    ghost var start := out.text;
    var index := 0;
    assert keys[0..] == keys;
    assert forall k :: k in keys <==> k in v.fields;
    while index < |keys|
      invariant 0 <= index <= |keys|
      invariant forall k <- keys[..index] :: Encodable(v.fields[k], floats)
      invariant good ==> out.text + EncodeFields(v, keys[index..], index == 0, floats) == start + target
    {
      if good {
        FieldAppends(v, keys, index, floats, out.text);
      }
      var fine := AppendField(out, v, keys[index], index == 0, floats);
      if !fine {
        return false;
      }
      assert keys[..index + 1] == keys[..index] + [keys[index]];
      index := index + 1;
    }
    assert keys[..index] == keys && keys[index..] == [];
    NothingLeft(floats);
    out.Write("}");
    Enclosed(old(out.text), "{", target, "}");
    return true;
  }

  /** The canonical text of a value: it depends on the tree alone that `read`, the library's marshalling and
    * decoding, makes of the value, and not on the order of any map. */
  method Canonical<T>(value: T, read: T -> Option<Json>, floats: Floats) returns (r: Option<string>)
    ensures r.Some? <==> read(value).Some? && Encodable(read(value).value, floats)
    ensures r.Some? ==> r.value == Encode(read(value).value, floats)
    ensures r.Some? && WritesNumbers(floats) ==> ParseValue(r.value) == Some((Normal(read(value).value, floats), ""))
    ensures r.Some? && read(value).value.Text? ==> Spells(r.value, read(value).value.text)
  {
    var tree := read(value);
    if tree.None? {
      return None;
    }
    var v := tree.value;
    var out := new Buffer();
    var ok := EncodeCanonical(out, v, floats);
    if !ok {
      return None;
    }
    assert "" + Encode(v, floats) == Encode(v, floats);
    if WritesNumbers(floats) {
      RoundTrip(v, floats, "");
      assert Encode(v, floats) + "" == Encode(v, floats);
    }
    if v.Text? {
      QuoteSpells(v.text);
    }
    hide Spells;
    return Some(out.text);
  }

  // ---------------------------------------------------------------- envelope digests

  datatype Verdict = Accepted(digest: string) | ShapeRefused | ReceiptDigestRefused | DigestRefused | Mismatch

  const RECEIPT := "receiptDigest"

  /** The fields of an envelope that its digest covers. */
  ghost function Sealed(envelope: map<string, Json>): Json {
    Object(envelope - {RECEIPT})
  }

  /** The envelope carries the digest of its other fields, in the shape a digest has. */
  ghost predicate Bears(envelope: map<string, Json>, digest: string, hash: string -> string,
                        shape: string -> bool, floats: Floats) {
    RECEIPT in envelope && envelope[RECEIPT] == Text(digest) && shape(digest)
    && Encodable(Sealed(envelope), floats) && hash(Encode(Sealed(envelope), floats)) == digest
  }

  ghost predicate Shaped(envelope: map<string, Json>, shape: string -> bool) {
    RECEIPT in envelope && envelope[RECEIPT].Text? && shape(envelope[RECEIPT].text)
  }

  /** Decodes an envelope and checks the digest it carries. A tree that was decoded is read back as itself. */
  method ValidEnvelopeDigest(raw: string, decode: string -> Option<map<string, Json>>, hash: string -> string,
                             shape: string -> bool, floats: Floats) returns (verdict: Verdict)
    ensures verdict.Accepted? <==> decode(raw).Some? && exists digest :: Bears(decode(raw).value, digest, hash, shape, floats)
    ensures verdict.Accepted? ==> Bears(decode(raw).value, verdict.digest, hash, shape, floats)
    ensures verdict.ShapeRefused? <==> decode(raw).None?
    ensures verdict.ReceiptDigestRefused? <==> decode(raw).Some? && !Shaped(decode(raw).value, shape)
    ensures verdict.DigestRefused? <==>
      decode(raw).Some? && Shaped(decode(raw).value, shape) && !Encodable(Sealed(decode(raw).value), floats)
  {
    var decoded := decode(raw);
    if decoded.None? {
      return ShapeRefused;
    }
    var envelope := decoded.value;
    if RECEIPT !in envelope || !envelope[RECEIPT].Text? || !shape(envelope[RECEIPT].text) {
      return ReceiptDigestRefused;
    }
    var provided := envelope[RECEIPT].text;
    var text := Canonical(Object(envelope - {RECEIPT}), (v: Json) => Some(v), floats);
    if text.None? {
      return DigestRefused;
    }
    if hash(text.value) != provided {
      return Mismatch;
    }
    assert Bears(envelope, provided, hash, shape, floats);
    return Accepted(provided);
  }

  /** Two envelopes accepted with one digest are the same envelope, unless their texts collide under the hash. */
  lemma SameDigestSameEnvelope(a: map<string, Json>, b: map<string, Json>, digest: string,
                               hash: string -> string, shape: string -> bool, floats: Floats)
    requires WritesNumbers(floats) && Bears(a, digest, hash, shape, floats) && Bears(b, digest, hash, shape, floats)
    requires hash(Encode(Sealed(a), floats)) == hash(Encode(Sealed(b), floats)) ==>
      Encode(Sealed(a), floats) == Encode(Sealed(b), floats)
    ensures a[RECEIPT] == b[RECEIPT] && Normal(Sealed(a), floats) == Normal(Sealed(b), floats)
    ensures Integral(Object(a)) && Integral(Object(b)) ==> a == b
  {
    hide Encode, Encodable, Normal, Integral;
    EqualTexts(Sealed(a), Sealed(b), floats);
    if Integral(Object(a)) && Integral(Object(b)) {
      SealedIntegral(a);
      SealedIntegral(b);
      IntegralIsNormal(Sealed(a), floats);
      IntegralIsNormal(Sealed(b), floats);
      assert a == (a - {RECEIPT})[RECEIPT := a[RECEIPT]] && b == (b - {RECEIPT})[RECEIPT := b[RECEIPT]];
    }
  }

  lemma SealedIntegral(envelope: map<string, Json>)
    requires Integral(Object(envelope))
    ensures Integral(Sealed(envelope))
  {
  }

  /** Two integers written apart as one float: past 64-bit integers the text does not determine the tree. */
  lemma FloatsCollapse(floats: Floats)
    requires floats("1.0") == Some("1")
    ensures var whole, float := Number("1"), Number("1.0");
      whole != float && Encodable(whole, floats) && Encodable(float, floats)
      && Encode(whole, floats) == Encode(float, floats)
  {
    assert Digit("1"[0]) && Magnitude("1") == 1;
    assert "1.0"[1] in "1.0" && !Digit("1.0"[1]);
  }
}
