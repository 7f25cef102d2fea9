/** Page cursors as text: base64 of a JSON object, read back to the nanosecond and the id. */
module Cursors {
  import opened Domain
  import opened Timecalc
  import opened Timestamps

  /** A position in a listing. */
  datatype Position = Position(created: Time, id: string)

  type Byte = b: int | 0 <= b < 256

  // ---------------------------------------------------------------- base64, URL alphabet, no padding

  function Symbol(n: int): char
    requires 0 <= n < 64
  {
    if n < 26 then ('A' as int + n) as char
    else if n < 52 then ('a' as int + n - 26) as char
    else if n < 62 then ('0' as int + n - 52) as char
    else if n == 62 then '-'
    else '_'
  }

  function Sextet(c: char): (n: Option<int>)
    ensures n.Some? ==> 0 <= n.value < 64
  {
    if 'A' <= c <= 'Z' then Some(c as int - 'A' as int)
    else if 'a' <= c <= 'z' then Some(c as int - 'a' as int + 26)
    else if '0' <= c <= '9' then Some(c as int - '0' as int + 52)
    else if c == '-' then Some(62)
    else if c == '_' then Some(63)
    else None
  }

  function Armored(b: seq<Byte>): string {
    if |b| == 0 then ""
    else if |b| == 1 then [Symbol(b[0] / 4), Symbol(b[0] % 4 * 16)]
    else if |b| == 2 then [Symbol(b[0] / 4), Symbol(b[0] % 4 * 16 + b[1] / 16), Symbol(b[1] % 16 * 4)]
    else
      [Symbol(b[0] / 4), Symbol(b[0] % 4 * 16 + b[1] / 16), Symbol(b[1] % 16 * 4 + b[2] / 64), Symbol(b[2] % 64)]
      + Armored(b[3..])
  }

  /** The decoder skips line breaks. */
  function WithoutBreaks(s: string): string {
    if s == "" then "" else (if s[0] == '\r' || s[0] == '\n' then "" else [s[0]]) + WithoutBreaks(s[1..])
  }

  function Bytes(s: string): Option<seq<Byte>> {
    if |s| == 0 then Some([])
    else if |s| == 1 then None
    else
      var w, x := Sextet(s[0]), Sextet(s[1]);
      if w.None? || x.None? then None
      else if |s| == 2 then Some([w.value * 4 + x.value / 16])
      else
        var y := Sextet(s[2]);
        if y.None? then None
        else if |s| == 3 then Some([w.value * 4 + x.value / 16, x.value % 16 * 16 + y.value / 4])
        else
          var z := Sextet(s[3]);
          if z.None? then None
          else
            match Bytes(s[4..])
            case None => None
            case Some(rest) =>
              Some([w.value * 4 + x.value / 16, x.value % 16 * 16 + y.value / 4, y.value % 4 * 64 + z.value] + rest)
  }

  function Unarmored(s: string): Option<seq<Byte>> { Bytes(WithoutBreaks(s)) }

  lemma SymbolReads(n: int)
    requires 0 <= n < 64
    ensures Sextet(Symbol(n)) == Some(n) && Symbol(n) != '\r' && Symbol(n) != '\n'
  {
  }

  lemma Split(n: int, d: int)
    requires 0 <= n < 256 && d in {4, 16, 64}
    ensures n / d * d + n % d == n && 0 <= n % d < d && 0 <= n / d < 256 / d
  {
  }

  lemma Joins(high: int, low: int, d: int)
    requires d in {4, 16} && 0 <= low < d
    ensures (high * d + low) / d == high && (high * d + low) % d == low
  {
  }

  lemma OneByteReads(x: Byte)
    ensures Bytes([Symbol(x / 4), Symbol(x % 4 * 16)]) == Some([x])
  {
    hide Symbol, Sextet;
    Split(x, 4);
    Joins(x % 4, 0, 16);
    SymbolReads(x / 4);
    SymbolReads(x % 4 * 16);
  }

  lemma TwoBytesRead(x: Byte, y: Byte)
    ensures Bytes([Symbol(x / 4), Symbol(x % 4 * 16 + y / 16), Symbol(y % 16 * 4)]) == Some([x, y])
  {
    hide Symbol, Sextet;
    Split(x, 4);
    Split(y, 16);
    Joins(x % 4, y / 16, 16);
    Joins(y % 16, 0, 4);
    SymbolReads(x / 4);
    SymbolReads(x % 4 * 16 + y / 16);
    SymbolReads(y % 16 * 4);
  }

  lemma ThreeBytesRead(x: Byte, y: Byte, z: Byte, text: string, rest: seq<Byte>)
    requires Bytes(text) == Some(rest)
    ensures Bytes([Symbol(x / 4), Symbol(x % 4 * 16 + y / 16), Symbol(y % 16 * 4 + z / 64), Symbol(z % 64)] + text)
            == Some([x, y, z] + rest)
  {
    hide Symbol, Sextet;
    Split(x, 4);
    Split(y, 16);
    Split(z, 64);
    Joins(x % 4, y / 16, 16);
    Joins(y % 16, z / 64, 4);
    SymbolReads(x / 4);
    SymbolReads(x % 4 * 16 + y / 16);
    SymbolReads(y % 16 * 4 + z / 64);
    SymbolReads(z % 64);
    var s := [Symbol(x / 4), Symbol(x % 4 * 16 + y / 16), Symbol(y % 16 * 4 + z / 64), Symbol(z % 64)] + text;
    assert s[4..] == text;
  }

  lemma {:induction false} ArmorReads(b: seq<Byte>)
    ensures Bytes(Armored(b)) == Some(b)
    decreases |b|
  {
    hide Bytes, Symbol;
    if |b| == 0 {
      NothingReads();
    } else if |b| == 1 {
      OneByteReads(b[0]);
      assert b == [b[0]];
    } else if |b| == 2 {
      TwoBytesRead(b[0], b[1]);
      assert b == [b[0], b[1]];
    } else {
      ArmorReads(b[3..]);
      ThreeBytesRead(b[0], b[1], b[2], Armored(b[3..]), b[3..]);
      assert b == [b[0], b[1], b[2]] + b[3..];
    }
  }

  lemma NothingReads()
    ensures Bytes("") == Some([])
  {
  }

  lemma {:induction false} NoBreaks(b: seq<Byte>)
    ensures WithoutBreaks(Armored(b)) == Armored(b)
    decreases |b|
  {
    ArmorIsUrlSafe(b);
    Plain(Armored(b));
  }

  /** A character that needs no escaping in a URL. */
  predicate UrlSafe(c: char) { 'A' <= c <= 'Z' || 'a' <= c <= 'z' || '0' <= c <= '9' || c in "-_" }

  /** Three bytes make four characters, each safe in a URL; nothing is padded. */
  lemma {:induction false} ArmorIsUrlSafe(b: seq<Byte>)
    ensures forall c | c in Armored(b) :: UrlSafe(c)
    ensures |Armored(b)| == (4 * |b| + 2) / 3
    decreases |b|
  {
    if |b| >= 3 { ArmorIsUrlSafe(b[3..]); }
  }

  lemma {:induction false} Plain(s: string)
    requires forall c | c in s :: c != '\r' && c != '\n'
    ensures WithoutBreaks(s) == s
    decreases |s|
  {
    if s != "" {
      assert s[0] in s && forall c | c in s[1..] :: c in s;
      Plain(s[1..]);
      assert s == [s[0]] + s[1..];
    }
  }

  /** Any bytes come back from their base64 text. */
  lemma Base64RoundTrip(b: seq<Byte>)
    ensures Unarmored(Armored(b)) == Some(b)
  {
    NoBreaks(b);
    ArmorReads(b);
  }

  // ---------------------------------------------------------------- UTF-8

  function Utf8(c: char): seq<Byte> {
    var n := c as int;
    if n < 0x80 then [n]
    else if n < 0x800 then [0xC0 + n / 64, 0x80 + n % 64]
    else if n < 0x1_0000 then [0xE0 + n / 4096, 0x80 + n / 64 % 64, 0x80 + n % 64]
    else [0xF0 + n / 262_144, 0x80 + n / 4096 % 64, 0x80 + n / 64 % 64, 0x80 + n % 64]
  }

  function ToBytes(s: string): seq<Byte> { if s == "" then [] else Utf8(s[0]) + ToBytes(s[1..]) }

  predicate Continues(b: seq<Byte>, i: nat) { i < |b| && 0x80 <= b[i] < 0xC0 }

  /** The six bits of a continuation byte. */
  function Low(b: seq<Byte>, i: nat): int
    requires Continues(b, i)
  {
    b[i] as int - 0x80
  }

  predicate IsScalar(n: int) { 0 <= n < 0xD800 || 0xE000 <= n < 0x11_0000 }

  const REPLACEMENT: char := 0xFFFD as char

  /** The first character and its width; a malformed byte stands for the replacement character. */
  function FirstRune(b: seq<Byte>): (r: (char, nat))
    requires b != []
    ensures 1 <= r.1 <= |b|
  {
    var x := b[0] as int;
    if x < 0x80 then (x as char, 1)
    else if 0xC2 <= x < 0xE0 && Continues(b, 1) then (((x - 0xC0) * 64 + Low(b, 1)) as char, 2)
    else if 0xE0 <= x < 0xF0 && Continues(b, 1) && Continues(b, 2) then
      var n := (x - 0xE0) * 4096 + Low(b, 1) * 64 + Low(b, 2);
      if 0x800 <= n && IsScalar(n) then (n as char, 3) else (REPLACEMENT, 1)
    else if 0xF0 <= x < 0xF5 && Continues(b, 1) && Continues(b, 2) && Continues(b, 3) then
      var n := (x - 0xF0) * 262_144 + Low(b, 1) * 4096 + Low(b, 2) * 64 + Low(b, 3);
      if 0x1_0000 <= n && IsScalar(n) then (n as char, 4) else (REPLACEMENT, 1)
    else (REPLACEMENT, 1)
  }

  function FromBytes(b: seq<Byte>): string
    decreases |b|
  {
    if b == [] then "" else [FirstRune(b).0] + FromBytes(b[FirstRune(b).1..])
  }

  lemma Digits64(n: int)
    requires 0 <= n
    ensures n == n / 4096 * 4096 + n / 64 % 64 * 64 + n % 64
    ensures n == n / 262_144 * 262_144 + n / 4096 % 64 * 4096 + n / 64 % 64 * 64 + n % 64
    ensures 0 <= n % 64 < 64 && 0 <= n / 64 % 64 < 64 && 0 <= n / 4096 % 64 < 64
  {
    assert n / 64 / 64 == n / 4096;
    assert n / 4096 / 64 == n / 262_144;
  }

  lemma RuneReads(c: char, rest: seq<Byte>)
    ensures FirstRune(Utf8(c) + rest) == (c, |Utf8(c)|)
  {
    Digits64(c as int);
  }

  lemma {:induction false} TextReads(s: string)
    ensures FromBytes(ToBytes(s)) == s
    decreases |s|
  {
    hide FirstRune, Utf8;
    if s != "" {
      RuneReads(s[0], ToBytes(s[1..]));
      TextReads(s[1..]);
      assert ToBytes(s)[|Utf8(s[0])|..] == ToBytes(s[1..]);
      assert s == [s[0]] + s[1..];
    }
  }

  // ---------------------------------------------------------------- JSON strings

  function Hex(n: int): char
    requires 0 <= n < 16
  {
    if n < 10 then ('0' as int + n) as char else ('a' as int + n - 10) as char
  }

  function HexValue(c: char): (n: Option<int>)
    ensures n.Some? ==> 0 <= n.value < 16
  {
    if '0' <= c <= '9' then Some(c as int - '0' as int)
    else if 'a' <= c <= 'f' then Some(c as int - 'a' as int + 10)
    else if 'A' <= c <= 'F' then Some(c as int - 'A' as int + 10)
    else None
  }

  /** \uXXXX. */
  function Escape4(n: int): string
    requires 0 <= n < 0x1_0000
  {
    ['\\', 'u', Hex(n / 4096), Hex(n / 256 % 16), Hex(n / 16 % 16), Hex(n % 16)]
  }

  /** How the encoder writes one character: HTML characters and line separators are escaped too. */
  function Escaped(c: char): string {
    var n := c as int;
    if c == '"' || c == '\\' then ['\\', c]
    else if n == 8 then "\\b"
    else if n == 12 then "\\f"
    else if c == '\n' then "\\n"
    else if c == '\r' then "\\r"
    else if c == '\t' then "\\t"
    else if n < 32 || c == '<' || c == '>' || c == '&' || n == 0x2028 || n == 0x2029 then Escape4(n)
    else [c]
  }

  function Quoted(s: string): string { "\"" + Inside(s) }

  /** The rest of a string literal, closing quote included. */
  function Inside(s: string): string { if s == "" then "\"" else Escaped(s[0]) + Inside(s[1..]) }

  datatype Parsed = Parsed(value: string, rest: string) | Malformed

  function Prefixed(c: char, parsed: Parsed): Parsed {
    match parsed
    case Parsed(value, rest) => Parsed([c] + value, rest)
    case Malformed => Malformed
  }

  function Code4(s: string): (n: Option<int>)
    ensures n.Some? ==> |s| >= 6 && 0 <= n.value < 0x1_0000
  {
    if |s| < 6 || s[0] != '\\' || s[1] != 'u' then None
    else
      var a, b, c, d := HexValue(s[2]), HexValue(s[3]), HexValue(s[4]), HexValue(s[5]);
      if a.None? || b.None? || c.None? || d.None? then None
      else Some(a.value * 4096 + b.value * 256 + c.value * 16 + d.value)
  }

  /** A character escaped by one letter. */
  function Letter(c: char): Option<char> {
    if c == '"' || c == '\\' || c == '/' then Some(c)
    else if c == 'b' then Some(8 as char)
    else if c == 'f' then Some(12 as char)
    else if c == 'n' then Some('\n')
    else if c == 'r' then Some('\r')
    else if c == 't' then Some('\t')
    else None
  }

  /** What follows an opening quote. A surrogate without its other half stands for the replacement character. */
  function ReadInside(s: string): (parsed: Parsed)
    ensures parsed.Parsed? ==> |parsed.rest| < |s|
    decreases |s|
  {
    if s == "" then Malformed
    else if s[0] == '"' then Parsed("", s[1..])
    else if s[0] == '\\' then
      if |s| >= 2 && Letter(s[1]).Some? then Prefixed(Letter(s[1]).value, ReadInside(s[2..]))
      else
        match Code4(s)
        case None => Malformed
        case Some(n) =>
          if IsScalar(n) then Prefixed(n as char, ReadInside(s[6..]))
          else
            var low := Code4(s[6..]);
            if n < 0xDC00 && low.Some? && 0xDC00 <= low.value < 0xE000 then
              Prefixed((0x1_0000 + (n - 0xD800) * 1024 + low.value - 0xDC00) as char, ReadInside(s[12..]))
            else Prefixed(REPLACEMENT, ReadInside(s[6..]))
    else if s[0] < ' ' then Malformed
    else Prefixed(s[0], ReadInside(s[1..]))
  }

  lemma HexReads(n: int)
    requires 0 <= n < 16
    ensures HexValue(Hex(n)) == Some(n)
  {
  }

  lemma HexDigits(n: int)
    requires 0 <= n < 0x1_0000
    ensures 0 <= n / 4096 < 16 && 0 <= n / 256 % 16 < 16 && 0 <= n / 16 % 16 < 16 && 0 <= n % 16 < 16
    ensures n == n / 4096 * 4096 + n / 256 % 16 * 256 + n / 16 % 16 * 16 + n % 16
  {
    assert n / 16 / 16 == n / 256 && n / 256 / 16 == n / 4096;
  }

  lemma Escape4Reads(n: int, t: string)
    requires 0 <= n < 0x1_0000 && IsScalar(n)
    ensures ReadInside(Escape4(n) + t) == Prefixed(n as char, ReadInside(t))
  {
    HexDigits(n);
    HexReads(n / 4096);
    HexReads(n / 256 % 16);
    HexReads(n / 16 % 16);
    HexReads(n % 16);
    hide Hex, HexValue;
    var s := Escape4(n) + t;
    assert Code4(s) == Some(n) && s[6..] == t;
    hide Code4;
  }

  lemma EscapeReads(c: char, t: string)
    ensures ReadInside(Escaped(c) + t) == Prefixed(c, ReadInside(t))
  {
    var n := c as int;
    hide Code4;
    if Escaped(c) == [c] {
      assert (Escaped(c) + t)[1..] == t;
    } else if |Escaped(c)| == 2 {
      assert (Escaped(c) + t)[2..] == t && Letter(Escaped(c)[1]) == Some(c);
    } else {
      Escape4Reads(n, t);
    }
  }

  /** A quoted string reads back, whatever follows it. */
  lemma {:induction false} QuoteReads(s: string, t: string)
    ensures ReadInside(Inside(s) + t) == Parsed(s, t)
    decreases |s|
  {
    if s == "" {
      assert (Inside(s) + t)[1..] == t;
    } else {
      QuoteReads(s[1..], t);
      EscapeReads(s[0], Inside(s[1..]) + t);
      assert Inside(s) + t == Escaped(s[0]) + (Inside(s[1..]) + t);
      assert s == [s[0]] + s[1..];
      hide Escaped, ReadInside;
    }
  }

  // ---------------------------------------------------------------- the cursor object

  function SkipBlank(s: string): (t: string)
    ensures |t| <= |s|
  {
    if s != "" && s[0] in {' ', '\t', '\r', '\n'} then SkipBlank(s[1..]) else s
  }

  function ReadValue(s: string): (parsed: Parsed)
    ensures parsed.Parsed? ==> |parsed.rest| < |s|
  {
    if s != "" && s[0] == '"' then ReadInside(s[1..])
    else if |s| >= 4 && s[..4] == "null" then Parsed("", s[4..])
    else Malformed
  }

  /** The members of an object of strings, from a name on. A repeated name counts with its last value. */
  function ReadMembers(s: string, seen: map<string, string>): Option<map<string, string>>
    decreases |s|
  {
    if s == "" || s[0] != '"' then None
    else
      match ReadInside(s[1..])
      case Malformed => None
      case Parsed(name, afterName) =>
        var colon := SkipBlank(afterName);
        if colon == "" || colon[0] != ':' then None
        else
          match ReadValue(SkipBlank(colon[1..]))
          case Malformed => None
          case Parsed(value, afterValue) =>
            var end := SkipBlank(afterValue);
            if end == "" then None
            else if end[0] == ',' then ReadMembers(SkipBlank(end[1..]), seen[name := value])
            else if end[0] == '}' && SkipBlank(end[1..]) == "" then Some(seen[name := value])
            else None
  }

  function ReadObject(s: string): Option<map<string, string>> {
    var start := SkipBlank(s);
    if |start| >= 4 && start[..4] == "null" && SkipBlank(start[4..]) == "" then Some(map[])
    else if start == "" || start[0] != '{' then None
    else
      var first := SkipBlank(start[1..]);
      if first != "" && first[0] == '}' then if SkipBlank(first[1..]) == "" then Some(map[]) else None
      else ReadMembers(first, map[])
  }

  const CREATED_AT := "created_at"

  const ID := "id"

  /** The encoder writes the members of a map by name. */
  function Payload(text: string, id: string): string {
    "{" + Quoted(CREATED_AT) + ":" + Quoted(text) + "," + Quoted(ID) + ":" + Quoted(id) + "}"
  }

  lemma LiteralReads(value: string, t: string)
    ensures (Quoted(value) + t)[0] == '"' && ReadInside((Quoted(value) + t)[1..]) == Parsed(value, t)
    ensures ReadValue(SkipBlank(Quoted(value) + t)) == Parsed(value, t)
  {
    hide ReadInside, Inside, Quoted, SkipBlank, ReadValue;
    QuotedParts(value, t);
    QuoteReads(value, t);
    ValueReads(Quoted(value) + t, value, t);
  }

  lemma QuotedParts(value: string, t: string)
    ensures Quoted(value) + t != "" && (Quoted(value) + t)[0] == '"' && (Quoted(value) + t)[1..] == Inside(value) + t
  {
    hide Inside;
  }

  lemma ValueReads(s: string, value: string, t: string)
    requires s != "" && s[0] == '"' && ReadInside(s[1..]) == Parsed(value, t)
    ensures ReadValue(SkipBlank(s)) == Parsed(value, t)
  {
    hide ReadInside;
  }

  lemma MemberReads(name: string, value: string, t: string, seen: map<string, string>)
    requires t != "" && t[0] in {',', '}'}
    ensures ReadMembers(Quoted(name) + ":" + Quoted(value) + t, seen)
            == if t[0] == ',' then ReadMembers(SkipBlank(t[1..]), seen[name := value])
               else if SkipBlank(t[1..]) == "" then Some(seen[name := value])
               else None
  {
    hide ReadInside, Inside, Quoted, ReadValue, SkipBlank;
    var literal := Quoted(value) + t;
    var afterName := ":" + literal;
    var s := Quoted(name) + afterName;
    assert Quoted(name) + ":" + Quoted(value) + t == s;
    LiteralReads(name, afterName);
    LiteralReads(value, t);
    assert afterName[1..] == literal;
    Unblank(afterName);
    Unblank(t);
  }

  lemma PayloadReads(text: string, id: string)
    ensures ReadObject(Payload(text, id)) == Some(map[CREATED_AT := text, ID := id])
  {
    hide ReadMembers, Inside, SkipBlank;
    var second := Quoted(ID) + ":" + Quoted(id) + "}";
    var first := Quoted(CREATED_AT) + ":" + Quoted(text) + ("," + second);
    var s := Payload(text, id);
    assert s == "{" + first;
    assert s[1..] == first && ("," + second)[1..] == second && "}"[1..] == "";
    Unblank(s);
    Unblank(first);
    Unblank(second);
    Unblank("");
    assert second[0] == '"' && first[0] == '"';
    MemberReads(CREATED_AT, text, "," + second, map[]);
    MemberReads(ID, id, "}", map[CREATED_AT := text]);
    assert CREATED_AT != ID;
  }

  lemma Unblank(s: string)
    ensures s == "" || s[0] !in {' ', '\t', '\r', '\n'} ==> SkipBlank(s) == s
  {
  }

  // ---------------------------------------------------------------- cursors

  /** RFC 3339 text as timeString writes it; the library reads other forms of it, with offsets for instance, as well. */
  function ReadTime(s: string, other: string -> Option<Time>): Option<Time> {
    if |s| >= 20 && Valid(ParseTime(s)) && TimeString(ParseTime(s)) == s then Some(Instant(ParseTime(s)))
    else other(s)
  }

  function EncodeCursor(p: Position): string
    requires Representable(p.created)
  {
    Armored(ToBytes(Payload(TimeString(DateOf(p.created)), p.id)))
  }

  function Field(m: map<string, string>, name: string): string { if name in m then m[name] else "" }

  function DecodeCursor(cursor: string, other: string -> Option<Time>): Option<Position> {
    match Unarmored(cursor)
    case None => None
    case Some(raw) =>
      match ReadObject(FromBytes(raw))
      case None => None
      case Some(payload) =>
        match ReadTime(Field(payload, CREATED_AT), other)
        case None => None
        case Some(created) => Some(Position(created, Field(payload, ID)))
  }

  /** A cursor reads back as the position it was made from, to the nanosecond, whatever the id contains. */
  lemma CursorRoundTrip(p: Position, other: string -> Option<Time>)
    requires Representable(p.created)
    ensures DecodeCursor(EncodeCursor(p), other) == Some(p)
  {
    hide Armored, Unarmored, ToBytes, FromBytes, Payload, ReadObject, TimeString, ParseTime, Instant, Valid;
    var created := DateOf(p.created);
    var payload := Payload(TimeString(created), p.id);
    Base64RoundTrip(ToBytes(payload));
    TextReads(payload);
    PayloadReads(TimeString(created), p.id);
    ParseInvertsTimeString(created);
  }

  /** Cursors are equal exactly for equal positions, and none is the empty text that stands for the first page. */
  lemma CursorsNamePositions(p: Position, q: Position)
    requires Representable(p.created) && Representable(q.created)
    ensures EncodeCursor(p) == EncodeCursor(q) <==> p == q
    ensures EncodeCursor(p) != ""
  {
    hide EncodeCursor, DecodeCursor;
    var none: string -> Option<Time> := _ => None;
    CursorRoundTrip(p, none);
    CursorRoundTrip(q, none);
    EmptyIsNone(none);
  }

  /** A cursor can stand in a query string as it is. */
  lemma CursorIsUrlSafe(p: Position)
    requires Representable(p.created)
    ensures forall c | c in EncodeCursor(p) :: 'A' <= c <= 'Z' || 'a' <= c <= 'z' || '0' <= c <= '9' || c in "-_"
  {
    hide Armored, ToBytes, Payload, TimeString;
    ArmorIsUrlSafe(ToBytes(Payload(TimeString(DateOf(p.created)), p.id)));
  }

  lemma EmptyIsNone(other: string -> Option<Time>)
    requires other("").None?
    ensures DecodeCursor("", other).None?
  {
  }
}
