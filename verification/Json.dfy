/**
 * The JSON that crosses the wire: flat objects of strings and non-negative integers, written as
 * `json.dumps` writes them (ASCII only) and read back.
 */
module Json {
  import opened Common

  datatype Value = Str(text: string) | Num(n: nat)

  /** A dict in insertion order. */
  type Object = seq<(string, Value)>

  // ---- hexadecimal and decimal digits ----

  function HexDigit(n: nat): char
    requires n < 16
  {
    if n < 10 then '0' + n as char else 'a' + (n - 10) as char
  }

  function HexValue(c: char): Option<nat> {
    if '0' <= c <= '9' then Some((c - '0') as nat)
    else if 'a' <= c <= 'f' then Some((c - 'a') as nat + 10)
    else if 'A' <= c <= 'F' then Some((c - 'A') as nat + 10)
    else None
  }

  lemma HexDigitRoundTrip(n: nat)
    requires n < 16
    ensures HexValue(HexDigit(n)) == Some(n)
    ensures ' ' <= HexDigit(n) <= '~'
  {
  }

  function Hex4(n: nat): (s: string)
    requires n < 0x10000
    ensures |s| == 4
  {
    [HexDigit(n / 16 / 16 / 16), HexDigit(n / 16 / 16 % 16), HexDigit(n / 16 % 16), HexDigit(n % 16)]
  }

  function ParseHex4(s: string): Option<nat> {
    if |s| < 4 then None
    else
      var a, b, c, d := HexValue(s[0]), HexValue(s[1]), HexValue(s[2]), HexValue(s[3]);
      if a.Some? && b.Some? && c.Some? && d.Some?
      then Some(((a.value * 16 + b.value) * 16 + c.value) * 16 + d.value) else None
  }

  lemma FourDigits(a: nat, b: nat, c: nat, d: nat, rest: string)
    requires a < 16 && b < 16 && c < 16 && d < 16
    ensures ParseHex4([HexDigit(a), HexDigit(b), HexDigit(c), HexDigit(d)] + rest)
         == Some(((a * 16 + b) * 16 + c) * 16 + d)
    ensures Printable([HexDigit(a), HexDigit(b), HexDigit(c), HexDigit(d)])
  {
    HexDigitRoundTrip(a);
    HexDigitRoundTrip(b);
    HexDigitRoundTrip(c);
    HexDigitRoundTrip(d);
  }

  lemma Hex4RoundTrip(n: nat, rest: string)
    requires n < 0x10000
    ensures ParseHex4(Hex4(n) + rest) == Some(n)
    ensures Printable(Hex4(n))
  {
    FourDigits(n / 16 / 16 / 16, n / 16 / 16 % 16, n / 16 % 16, n % 16, rest);
  }

  predicate IsDigit(c: char) {
    '0' <= c <= '9'
  }

  function Decimal(n: nat): string {
    if n < 10 then ['0' + n as char] else Decimal(n / 10) + ['0' + (n % 10) as char]
  }

  /** The digits at the front, read into `acc`, and what follows them. */
  function ReadDigits(s: string, acc: nat): (nat, string)
    decreases |s|
  {
    if s == "" || !IsDigit(s[0]) then (acc, s) else ReadDigits(s[1..], 10 * acc + (s[0] - '0') as nat)
  }

  function Shift(acc: nat, n: nat): nat {
    if n < 10 then 10 * acc + n else 10 * Shift(acc, n / 10) + n % 10
  }

  lemma {:induction false} ShiftFromZero(n: nat)
    ensures Shift(0, n) == n
  {
    if n >= 10 {
      ShiftFromZero(n / 10);
    }
  }

  lemma {:induction false} DecimalReads(n: nat, acc: nat, rest: string)
    ensures ReadDigits(Decimal(n) + rest, acc) == ReadDigits(rest, Shift(acc, n))
    ensures Decimal(n) != "" && forall i :: 0 <= i < |Decimal(n)| ==> IsDigit(Decimal(n)[i])
  {
    if n < 10 {
      assert (Decimal(n) + rest)[1..] == rest;
    } else {
      var last := ['0' + (n % 10) as char];
      assert Decimal(n) + rest == Decimal(n / 10) + (last + rest);
      assert (last + rest)[1..] == rest;
      DecimalReads(n / 10, acc, last + rest);
    }
  }

  // ---- strings ----

  function Unicode(n: nat): string
    requires n < 0x10000
  {
    "\\u" + Hex4(n)
  }

  /** One character of the text: verbatim when printable ASCII, else an escape (a pair beyond U+FFFF). */
  function EscapeChar(c: char): string {
    if c == '"' then "\\\""
    else if c == '\\' then "\\\\"
    else if c == '\n' then "\\n"
    else if c == '\r' then "\\r"
    else if c == '\t' then "\\t"
    else if c == '\U{0C}' then "\\f"
    else if c == '\U{08}' then "\\b"
    else if ' ' <= c <= '~' then [c]
    else if c as int < 0x10000 then Unicode(c as int)
    else
      var v := c as int - 0x10000;
      Unicode(0xD800 + v / 0x400) + Unicode(0xDC00 + v % 0x400)
  }

  function Escape(s: string): string {
    if s == "" then "" else EscapeChar(s[0]) + Escape(s[1..])
  }

  function Quote(s: string): string {
    "\"" + Escape(s) + "\""
  }

  /** Printable ASCII other than the quote and the backslash is written as it is. */
  predicate Plain(s: string) {
    forall i :: 0 <= i < |s| ==> ' ' <= s[i] <= '~' && s[i] != '"' && s[i] != '\\'
  }

  lemma {:induction false} PlainIsVerbatim(s: string)
    requires Plain(s)
    ensures Escape(s) == s && Quote(s) == "\"" + s + "\""
  {
    if s != "" {
      PlainIsVerbatim(s[1..]);
      assert s == [s[0]] + s[1..];
    }
  }

  /** The escapes with a letter of their own. */
  lemma ShortEscapesOnTheWire()
    ensures EscapeChar('"') == "\\\"" && EscapeChar('\\') == "\\\\" && EscapeChar('\n') == "\\n"
    ensures EscapeChar('\r') == "\\r" && EscapeChar('\t') == "\\t"
  {
  }

  /** Every other character outside printable ASCII is written as its UTF-16 code units in lower-case hexadecimal. */
  lemma UnicodeEscapesOnTheWire()
    ensures EscapeChar('\U{7F}') == "\\u007f"
    ensures EscapeChar('\U{2028}') == "\\u2028"
    ensures EscapeChar('\U{1F600}') == "\\ud83d" + "\\ude00"
  {
    SmallUnits();
    LargeUnits();
    AstralUnits();
  }

  /** The four digits of a unit given by them. */
  lemma UnitOfDigits(n: nat, a: nat, b: nat, c: nat, d: nat)
    requires a < 16 && b < 16 && c < 16 && d < 16 && n == a * 4096 + b * 256 + c * 16 + d
    ensures n < 0x10000 && Hex4(n) == [HexDigit(a), HexDigit(b), HexDigit(c), HexDigit(d)]
  {
    assert n / 16 == a * 256 + b * 16 + c && n % 16 == d;
    assert n / 16 / 16 == a * 16 + b && n / 16 % 16 == c;
  }

  lemma SmallUnits()
    ensures Hex4(0x7F) == "007f" && Hex4(0x2028) == "2028"
  {
    UnitOfDigits(0x7F, 0, 0, 7, 15);
    UnitOfDigits(0x2028, 2, 0, 2, 8);
  }

  lemma LargeUnits()
    ensures Hex4(0xD83D) == "d83d" && Hex4(0xDE00) == "de00"
  {
    UnitOfDigits(0xD83D, 13, 8, 3, 13);
    UnitOfDigits(0xDE00, 13, 14, 0, 0);
  }

  lemma AstralUnits()
    ensures EscapeChar('\U{1F600}') == Unicode(0xD83D) + Unicode(0xDE00)
  {
    assert 0x1F600 - 0x10000 == 0x3D * 0x400 + 0x200;
  }

  /** The escape letters other than `u`. */
  function Simple(c: char): Option<char> {
    if c == '"' || c == '\\' || c == '/' then Some(c)
    else if c == 'n' then Some('\n')
    else if c == 'r' then Some('\r')
    else if c == 't' then Some('\t')
    else if c == 'f' then Some('\U{0C}')
    else if c == 'b' then Some('\U{08}')
    else None
  }

  /** The code unit of a `\uXXXX` at the front. */
  function ReadUnit(s: string): Option<nat> {
    if |s| >= 6 && s[0] == '\\' && s[1] == 'u' then ParseHex4(s[2..]) else None
  }

  /** One character of a string literal and what follows; None where the literal is malformed. */
  function ReadChar(s: string): (r: Option<(char, string)>)
    ensures r.Some? ==> |r.value.1| < |s|
  {
    if s == "" || s[0] == '"' || s[0] < ' ' then None
    else if s[0] != '\\' then Some((s[0], s[1..]))
    else if |s| >= 2 && Simple(s[1]).Some? then Some((Simple(s[1]).value, s[2..]))
    else
      var unit := ReadUnit(s);
      if unit.None? then None
      else if unit.value < 0xD800 || 0xE000 <= unit.value < 0x10000 then Some((unit.value as char, s[6..]))
      else
        var low := ReadUnit(s[6..]);
        if unit.value < 0xDC00 && low.Some? && 0xDC00 <= low.value < 0xE000
        then Some(((0x10000 + (unit.value - 0xD800) * 0x400 + (low.value - 0xDC00)) as char, s[12..]))
        else None
  }

  /** The text up to the closing quote, and what follows the quote. */
  function ReadString(s: string): (r: Option<(string, string)>)
    ensures r.Some? ==> |r.value.1| < |s|
    decreases |s|
  {
    if s != "" && s[0] == '"' then Some(("", s[1..]))
    else
      var c := ReadChar(s);
      if c.None? then None
      else
        var rest := ReadString(c.value.1);
        if rest.None? then None else Some(([c.value.0] + rest.value.0, rest.value.1))
  }

  lemma UnitRoundTrip(n: nat, rest: string)
    requires n < 0x10000
    ensures ReadUnit(Unicode(n) + rest) == Some(n)
    ensures (Unicode(n) + rest)[6..] == rest
    ensures Printable(Unicode(n))
  {
    Hex4RoundTrip(n, rest);
    assert (Unicode(n) + rest)[2..] == Hex4(n) + rest;
  }

  predicate HasShortForm(c: char) {
    ' ' <= c <= '~' || c == '\n' || c == '\r' || c == '\t' || c == '\U{0C}' || c == '\U{08}'
  }

  lemma EscapeForms(c: char)
    ensures EscapeChar(c) != "" && EscapeChar(c)[0] != '"'
    ensures !HasShortForm(c) && c as int < 0x10000 ==> EscapeChar(c) == Unicode(c as int)
    ensures c as int >= 0x10000 ==>
      EscapeChar(c) == Unicode(0xD800 + (c as int - 0x10000) / 0x400) + Unicode(0xDC00 + (c as int - 0x10000) % 0x400)
  {
  }

  lemma ShortEscapeRoundTrip(c: char, rest: string)
    requires HasShortForm(c)
    ensures ReadChar(EscapeChar(c) + rest) == Some((c, rest))
  {
    var s := EscapeChar(c) + rest;
    if |EscapeChar(c)| == 2 {
      assert s[0] == EscapeChar(c)[0] && s[1] == EscapeChar(c)[1];
      assert s[2..] == rest;
    } else {
      assert s[0] == c && s[1..] == rest;
    }
  }

  lemma UnitEscapeRoundTrip(n: nat, rest: string)
    requires n < 0xD800 || 0xE000 <= n < 0x10000
    ensures ReadChar(Unicode(n) + rest) == Some((n as char, rest))
  {
    UnitRoundTrip(n, rest);
  }

  lemma PairReads(high: nat, low: nat, rest: string)
    requires 0xD800 <= high < 0xDC00 <= low < 0xE000
    ensures ReadChar(Unicode(high) + (Unicode(low) + rest))
         == Some(((0x10000 + (high - 0xD800) * 0x400 + (low - 0xDC00)) as char, rest))
  {
    var s := Unicode(high) + (Unicode(low) + rest);
    UnitRoundTrip(high, Unicode(low) + rest);
    UnitRoundTrip(low, rest);
    assert s[12..] == s[6..][6..];
  }

  lemma BasicPlaneRoundTrip(c: char, rest: string)
    requires !HasShortForm(c) && c as int < 0x10000
    ensures ReadChar(EscapeChar(c) + rest) == Some((c, rest))
  {
    EscapeForms(c);
    UnitEscapeRoundTrip(c as int, rest);
  }

  lemma AstralRoundTrip(c: char, rest: string)
    requires c as int >= 0x10000
    ensures ReadChar(EscapeChar(c) + rest) == Some((c, rest))
  {
    EscapeForms(c);
    var v := c as int - 0x10000;
    var high, low := 0xD800 + v / 0x400, 0xDC00 + v % 0x400;
    assert EscapeChar(c) + rest == Unicode(high) + (Unicode(low) + rest);
    PairReads(high, low, rest);
    assert 0x10000 + (high - 0xD800) * 0x400 + (low - 0xDC00) == c as int;
  }

  /** Every character, control characters, quotes and characters beyond U+FFFF included, reads back as itself. */
  lemma CharRoundTrip(c: char, rest: string)
    ensures ReadChar(EscapeChar(c) + rest) == Some((c, rest))
  {
    if HasShortForm(c) {
      ShortEscapeRoundTrip(c, rest);
    } else if c as int < 0x10000 {
      BasicPlaneRoundTrip(c, rest);
    } else {
      AstralRoundTrip(c, rest);
    }
  }

  lemma ReadStringStep(s: string, c: char, tail: string)
    requires s != "" && s[0] != '"' && ReadChar(s) == Some((c, tail)) && ReadString(tail).Some?
    ensures ReadString(s) == Some(([c] + ReadString(tail).value.0, ReadString(tail).value.1))
  {
  }

  lemma Reassociate(a: string, b: string, c: string, d: string)
    ensures (a + b) + c + d == a + (b + c + d)
  {
  }

  lemma {:induction false} StringRoundTrip(s: string, rest: string)
    ensures ReadString(Escape(s) + "\"" + rest) == Some((s, rest))
  {
    if s == "" {
      assert (Escape(s) + "\"" + rest)[1..] == rest;
    } else {
      var first, more := EscapeChar(s[0]), Escape(s[1..]);
      Reassociate(first, more, "\"", rest);
      CharRoundTrip(s[0], more + "\"" + rest);
      EscapeForms(s[0]);
      StringRoundTrip(s[1..], rest);
      ReadStringStep(first + (more + "\"" + rest), s[0], more + "\"" + rest);
      assert s == [s[0]] + s[1..];
    }
  }

  // ---- objects ----

  function WriteValue(v: Value): string {
    match v
    case Str(text) => Quote(text)
    case Num(n) => Decimal(n)
  }

  /** `"key": value` pairs separated by a comma and a space, with the closing brace. */
  function WriteMembers(o: Object): string {
    if o == [] then "}"
    else Quote(o[0].0) + (": " + (WriteValue(o[0].1) + (if |o| == 1 then "}" else ", " + WriteMembers(o[1..]))))
  }

  function Dumps(o: Object): string {
    "{" + WriteMembers(o)
  }

  function ReadValue(s: string): (r: Option<(Value, string)>)
    ensures r.Some? ==> |r.value.1| <= |s|
  {
    if s == "" then None
    else if s[0] == '"' then
      var text := ReadString(s[1..]);
      if text.None? then None else Some((Str(text.value.0), text.value.1))
    else if IsDigit(s[0]) then
      ReadDigitsShrinks(s, 0);
      var (n, rest) := ReadDigits(s, 0);
      Some((Num(n), rest))
    else None
  }

  lemma {:induction false} ReadDigitsShrinks(s: string, acc: nat)
    ensures |ReadDigits(s, acc).1| <= |s|
    decreases |s|
  {
    if s != "" && IsDigit(s[0]) {
      ReadDigitsShrinks(s[1..], 10 * acc + (s[0] - '0') as nat);
    }
  }

  function ReadMembers(s: string): Option<Object>
    decreases |s|
  {
    if s == "}" then Some([])
    else if |s| == 0 || s[0] != '"' then None
    else
      var key := ReadString(s[1..]);
      if key.None? || !(": " <= key.value.1) then None
      else
        var value := ReadValue(key.value.1[2..]);
        if value.None? then None
        else
          var rest := value.value.1;
          if rest == "}" then Some([(key.value.0, value.value.0)])
          else if !(", " <= rest) || rest == ", }" then None
          else
            var more := ReadMembers(rest[2..]);
            if more.None? then None else Some([(key.value.0, value.value.0)] + more.value)
  }

  /** `JSON.parse`, on the objects that `Dumps` writes. */
  function Parse(s: string): Option<Object> {
    if s != "" && s[0] == '{' then ReadMembers(s[1..]) else None
  }

  lemma ValueRoundTrip(v: Value, rest: string)
    requires rest != "" && !IsDigit(rest[0])
    ensures ReadValue(WriteValue(v) + rest) == Some((v, rest))
  {
    match v
    case Str(text) =>
      assert (WriteValue(v) + rest)[1..] == Escape(text) + "\"" + rest;
      StringRoundTrip(text, rest);
    case Num(n) =>
      DecimalReads(n, 0, rest);
      ShiftFromZero(n);
      assert IsDigit(Decimal(n)[0]) && (Decimal(n) + rest)[0] == Decimal(n)[0];
  }

  /** One member, up to whatever follows its value. */
  lemma MemberRoundTrip(key: string, value: Value, rest: string)
    requires rest != "" && !IsDigit(rest[0])
    ensures var s := Quote(key) + (": " + (WriteValue(value) + rest));
      && s[0] == '"'
      && ReadString(s[1..]) == Some((key, ": " + (WriteValue(value) + rest)))
      && ReadValue((": " + (WriteValue(value) + rest))[2..]) == Some((value, rest))
  {
    var afterKey := ": " + (WriteValue(value) + rest);
    assert (Quote(key) + afterKey)[1..] == Escape(key) + "\"" + afterKey;
    StringRoundTrip(key, afterKey);
    assert afterKey[2..] == WriteValue(value) + rest;
    ValueRoundTrip(value, rest);
  }

  lemma ReadLastMember(key: string, value: Value)
    ensures ReadMembers(Quote(key) + (": " + (WriteValue(value) + "}"))) == Some([(key, value)])
  {
    MemberRoundTrip(key, value, "}");
  }

  lemma ReadFirstMember(key: string, value: Value, more: string, others: Object)
    requires more != "}" && ReadMembers(more) == Some(others)
    ensures ReadMembers(Quote(key) + (": " + (WriteValue(value) + (", " + more)))) == Some([(key, value)] + others)
  {
    var rest := ", " + more;
    MemberRoundTrip(key, value, rest);
    assert rest[0] == ',' && rest[2..] == more;
    MemberThenMore(Quote(key) + (": " + (WriteValue(value) + rest)), key, value, rest, others);
  }

  lemma MemberThenMore(s: string, key: string, value: Value, rest: string, others: Object)
    requires s != "" && s[0] == '"'
    requires ReadString(s[1..]).Some? && ReadString(s[1..]).value.0 == key
    requires var afterKey := ReadString(s[1..]).value.1;
      ": " <= afterKey && ReadValue(afterKey[2..]) == Some((value, rest))
    requires ", " <= rest && rest[2..] != "}" && ReadMembers(rest[2..]) == Some(others)
    ensures ReadMembers(s) == Some([(key, value)] + others)
  {
    assert s != "}" && rest != "}" && rest != ", }";
  }

  lemma MembersStartWithAQuote(o: Object)
    requires o != []
    ensures WriteMembers(o) != "}"
  {
    assert WriteMembers(o)[0] == Quote(o[0].0)[0] == '"';
  }

  lemma {:induction false} MembersRoundTrip(o: Object)
    ensures ReadMembers(WriteMembers(o)) == Some(o)
  {
    if |o| == 1 {
      ReadLastMember(o[0].0, o[0].1);
      assert o == [(o[0].0, o[0].1)];
    } else if |o| > 1 {
      var more := WriteMembers(o[1..]);
      MembersRoundTrip(o[1..]);
      MembersStartWithAQuote(o[1..]);
      ReadFirstMember(o[0].0, o[0].1, more, o[1..]);
      assert o == [(o[0].0, o[0].1)] + o[1..];
    }
  }

  /** Every flat object reads back as itself, whatever its texts contain. */
  lemma ObjectRoundTrip(o: Object)
    ensures Parse(Dumps(o)) == Some(o)
  {
    assert Dumps(o)[1..] == WriteMembers(o);
    MembersRoundTrip(o);
  }

  // ---- nothing written contains a newline, or anything else outside printable ASCII ----

  predicate Printable(s: string) {
    forall i :: 0 <= i < |s| ==> ' ' <= s[i] <= '~'
  }

  lemma PrintableConcat(s: string, t: string)
    requires Printable(s) && Printable(t)
    ensures Printable(s + t)
  {
  }

  lemma CharIsPrintable(c: char)
    ensures Printable(EscapeChar(c))
  {
    EscapeForms(c);
    if c as int >= 0x10000 {
      var high, low := 0xD800 + (c as int - 0x10000) / 0x400, 0xDC00 + (c as int - 0x10000) % 0x400;
      UnitRoundTrip(high, "");
      UnitRoundTrip(low, "");
      PrintableConcat(Unicode(high), Unicode(low));
    } else if !HasShortForm(c) {
      UnitRoundTrip(c as int, "");
    } else {
      ShortFormIsPrintable(c);
    }
  }

  lemma ShortFormIsPrintable(c: char)
    requires HasShortForm(c)
    ensures Printable(EscapeChar(c))
  {
    assert |EscapeChar(c)| <= 2;
    assert |EscapeChar(c)| == 2 ==> ' ' <= EscapeChar(c)[1] <= '~';
  }

  lemma {:induction false} EscapeIsPrintable(s: string)
    ensures Printable(Escape(s)) && Printable(Quote(s))
  {
    if s != "" {
      CharIsPrintable(s[0]);
      EscapeIsPrintable(s[1..]);
      PrintableConcat(EscapeChar(s[0]), Escape(s[1..]));
    }
  }

  lemma ValueIsPrintable(v: Value)
    ensures Printable(WriteValue(v))
  {
    match v {
      case Str(text) => EscapeIsPrintable(text);
      case Num(n) => DecimalReads(n, 0, "");
    }
  }

  lemma {:induction false} MembersArePrintable(o: Object)
    ensures Printable(WriteMembers(o))
  {
    if o != [] {
      EscapeIsPrintable(o[0].0);
      ValueIsPrintable(o[0].1);
      MembersArePrintable(o[1..]);
      var tail := if |o| == 1 then "}" else ", " + WriteMembers(o[1..]);
      PrintableConcat(WriteValue(o[0].1), tail);
      PrintableConcat(": ", WriteValue(o[0].1) + tail);
      PrintableConcat(Quote(o[0].0), ": " + (WriteValue(o[0].1) + tail));
    }
  }

  /** So the blank line that ends a frame can never occur inside its data. */
  lemma DumpsIsOneLine(o: Object)
    ensures Printable(Dumps(o)) && '\n' !in Dumps(o) && Dumps(o) != ""
  {
    MembersArePrintable(o);
    assert Printable(Dumps(o));
    assert forall i :: 0 <= i < |Dumps(o)| ==> Dumps(o)[i] != '\n';
  }
}
