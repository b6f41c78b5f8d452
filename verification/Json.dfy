/** JSON as RFC 8259 defines it, for strings and for objects of strings, numbers and null, written and read as Python does. */
module Json {
  import opened Wrappers
  import opened Utf8

  // ---------------------------------------------------------------- section 7: strings

  function Hex(n: nat): (c: char)
    requires n < 16
    ensures 48 <= c as int < 127
  {
    if n < 10 then '0' + n as char else 'a' + (n - 10) as char
  }

  function FromHex(c: char): Option<nat> {
    if '0' <= c <= '9' then Some((c - '0') as nat)
    else if 'a' <= c <= 'f' then Some((c - 'a') as nat + 10)
    else if 'A' <= c <= 'F' then Some((c - 'A') as nat + 10)
    else None
  }

  function EscapeUnit(x: nat): (e: string)
    requires x < 0x10000
    ensures |e| == 6 && e[0] == '\\' && e[1] == 'u'
    ensures forall i :: 0 <= i < 6 ==> 48 <= e[i] as int < 127
  {
    ['\\', 'u', Hex(x / 4096), Hex(x / 256 % 16), Hex(x / 16 % 16), Hex(x % 16)]
  }

  /** The two code units of a character beyond the first plane. */
  function HighUnit(x: nat): (u: nat)
    requires 0x10000 <= x < 0x110000
    ensures 0xD800 <= u < 0xDC00
  {
    0xD800 + (x - 0x10000) / 0x400
  }

  function LowUnit(x: nat): (u: nat)
    requires 0x10000 <= x < 0x110000
    ensures 0xDC00 <= u < 0xE000
  {
    0xDC00 + (x - 0x10000) % 0x400
  }

  /** With ascii, everything that is not printable ASCII is escaped; otherwise only what has to be. */
  function EscapeChar(c: char, ascii: bool): (e: string)
    ensures e != ""
  {
    var x := c as int;
    if c == '"' then ['\\', '"']
    else if c == '\\' then ['\\', '\\']
    else if c == '\n' then ['\\', 'n']
    else if c == '\r' then ['\\', 'r']
    else if c == '\t' then ['\\', 't']
    else if x == 12 then ['\\', 'f']
    else if x == 8 then ['\\', 'b']
    else if x < 32 then EscapeUnit(x)
    else if !ascii || x < 127 then [c]
    else if x < 0x10000 then EscapeUnit(x)
    else EscapeUnit(HighUnit(x)) + EscapeUnit(LowUnit(x))
  }

  function Escape(s: string, ascii: bool): string {
    if s == "" then "" else EscapeChar(s[0], ascii) + Escape(s[1..], ascii)
  }

  function HexPair(a: char, b: char): (n: Option<nat>)
    ensures n.Some? ==> n.value < 0x100
  {
    if FromHex(a) == None || FromHex(b) == None then None else Some(FromHex(a).value * 16 + FromHex(b).value)
  }

  /** Four hexadecimal digits. */
  function Unit(t: string): (u: Option<nat>)
    ensures u.Some? ==> u.value < 0x10000
  {
    if |t| < 4 || HexPair(t[0], t[1]) == None || HexPair(t[2], t[3]) == None then None
    else Some(HexPair(t[0], t[1]).value * 256 + HexPair(t[2], t[3]).value)
  }

  /** What follows \u: one code unit, or two that make a pair. A lone surrogate is no character. */
  function Units(t: string): Option<(char, nat)> {
    var high := Unit(t);
    if high == None then None
    else if high.value < 0xD800 || 0xE000 <= high.value then Some((high.value as char, 5))
    else if high.value >= 0xDC00 || |t| < 6 || t[4] != '\\' || t[5] != 'u' then None
    else
      var low := Unit(t[6..]);
      if low == None || low.value < 0xDC00 || 0xE000 <= low.value then None
      else Some(((0x10000 + (high.value - 0xD800) * 0x400 + (low.value - 0xDC00)) as char, 11))
  }

  /** The character an escape stands for and the length of the escape; t starts behind the backslash. */
  function Unescape(t: string): Option<(char, nat)> {
    if t == "" then None
    else match t[0]
      case '"' => Some(('"', 1))
      case '\\' => Some(('\\', 1))
      case '/' => Some(('/', 1))
      case 'n' => Some(('\n', 1))
      case 'r' => Some(('\r', 1))
      case 't' => Some(('\t', 1))
      case 'f' => Some((12 as char, 1))
      case 'b' => Some((8 as char, 1))
      case 'u' => Units(t[1..])
      case _ => None
  }

  /** Reads the characters of a string up to its closing quote, and what follows. */
  function ParseString(t: string): (r: Option<(string, string)>)
    ensures r.Some? ==> |r.value.1| < |t|
    decreases |t|
  {
    if t == "" || (t[0] as int) < 32 then None
    else if t[0] == '"' then Some(("", t[1..]))
    else if t[0] != '\\' then
      var rest := ParseString(t[1..]);
      if rest == None then None else Some(([t[0]] + rest.value.0, rest.value.1))
    else
      var u := Unescape(t[1..]);
      if u == None || |t| < 1 + u.value.1 then None
      else
        var rest := ParseString(t[1 + u.value.1..]);
        if rest == None then None else Some(([u.value.0] + rest.value.0, rest.value.1))
  }

  lemma HexDigit(n: nat)
    requires n < 16
    ensures FromHex(Hex(n)) == Some(n)
  {
  }

  /** The base-16 digits of a code unit. */
  lemma HexDigits(x: nat)
    requires x < 0x10000
    ensures x == (x / 4096 * 16 + x / 256 % 16) * 256 + (x / 16 % 16 * 16 + x % 16)
    ensures x / 4096 < 16
  {
    assert x / 16 / 16 == x / 256;
    assert x / 256 / 16 == x / 4096;
  }

  lemma UnitOfEscaped(x: nat, t: string)
    requires x < 0x10000 && EscapeUnit(x)[2..] <= t
    ensures Unit(t) == Some(x)
  {
    HexDigits(x);
    HexDigit(x / 4096);
    HexDigit(x / 256 % 16);
    HexDigit(x / 16 % 16);
    HexDigit(x % 16);
    var e := EscapeUnit(x)[2..];
    assert t[0] == e[0] && t[1] == e[1] && t[2] == e[2] && t[3] == e[3];
  }

  lemma PairOfEscaped(x: nat, rest: string)
    requires 0x10000 <= x < 0x110000
    ensures Units(EscapeUnit(HighUnit(x))[2..] + EscapeUnit(LowUnit(x)) + rest) == Some((x as char, 11))
  {
    var high, low := EscapeUnit(HighUnit(x)), EscapeUnit(LowUnit(x));
    var t := high[2..] + low + rest;
    UnitOfEscaped(HighUnit(x), t);
    assert t[4] == low[0] && t[5] == low[1];
    assert t[6..] == low[2..] + rest;
    UnitOfEscaped(LowUnit(x), t[6..]);
    assert x - 0x10000 == (x - 0x10000) / 0x400 * 0x400 + (x - 0x10000) % 0x400;
  }

  lemma UnescapeEscaped(c: char, ascii: bool, rest: string)
    requires EscapeChar(c, ascii)[0] == '\\'
    ensures Unescape(EscapeChar(c, ascii)[1..] + rest) == Some((c, |EscapeChar(c, ascii)| - 1))
  {
    var e, x := EscapeChar(c, ascii), c as int;
    var t := e[1..] + rest;
    assert t[0] == e[1];
    if |e| == 12 {
      assert t[1..] == EscapeUnit(HighUnit(x))[2..] + EscapeUnit(LowUnit(x)) + rest;
      PairOfEscaped(x, rest);
    } else if |e| == 6 {
      assert t[1..] == EscapeUnit(x)[2..] + rest;
      UnitOfEscaped(x, t[1..]);
    }
  }

  /** One more character in front is read as that character. */
  lemma ParseEscapedChar(c: char, ascii: bool, tail: string, text: string, rest: string)
    requires ParseString(tail) == Some((text, rest))
    ensures ParseString(EscapeChar(c, ascii) + tail) == Some(([c] + text, rest))
  {
    var e := EscapeChar(c, ascii);
    var t := e + tail;
    assert t[0] == e[0] && t[1..] == e[1..] + tail && t[|e|..] == tail;
    if e[0] == '\\' {
      UnescapeEscaped(c, ascii, tail);
    }
  }

  /** A string is read back as it was, whichever way it was escaped. */
  lemma {:induction false} EscapeRoundTrip(s: string, ascii: bool, rest: string)
    ensures ParseString(Escape(s, ascii) + ['"'] + rest) == Some((s, rest))
  {
    var t := Escape(s, ascii) + ['"'] + rest;
    if s == "" {
      assert t == ['"'] + rest;
    } else {
      var tail := Escape(s[1..], ascii) + ['"'] + rest;
      EscapeRoundTrip(s[1..], ascii, rest);
      ParseEscapedChar(s[0], ascii, tail, s[1..], rest);
      EscapedInFront(s, ascii, rest);
      assert [s[0]] + s[1..] == s;
    }
  }

  lemma EscapedInFront(s: string, ascii: bool, rest: string)
    requires s != ""
    ensures Escape(s, ascii) + ['"'] + rest == EscapeChar(s[0], ascii) + (Escape(s[1..], ascii) + ['"'] + rest)
  {
    Regroup(EscapeChar(s[0], ascii), Escape(s[1..], ascii), ['"']);
    Regroup(EscapeChar(s[0], ascii), Escape(s[1..], ascii) + ['"'], rest);
  }

  lemma Regroup(a: string, b: string, c: string)
    ensures (a + b) + c == a + (b + c)
  {
  }

  lemma EscapedIsPlain(c: char, ascii: bool)
    requires EscapeChar(c, ascii) != [c]
    ensures var e := EscapeChar(c, ascii); IsAscii(e) && '\n' !in e && |e| <= 6 * |Encode(c)|
  {
  }

  lemma EscapeCharSize(c: char, ascii: bool)
    ensures |EncodeAll(EscapeChar(c, ascii))| <= 6 * |Encode(c)|
    ensures '\n' !in EscapeChar(c, ascii) && (ascii ==> IsAscii(EscapeChar(c, ascii)))
  {
    if EscapeChar(c, ascii) == [c] {
      assert EncodeAll([c]) == Encode(c) + EncodeAll("");
    } else {
      EscapedIsPlain(c, ascii);
      AsciiSize(EscapeChar(c, ascii));
    }
  }

  /** Escaping makes a text at most six times as long in bytes, and leaves no newline in it. */
  lemma {:induction false} EscapeSize(s: string, ascii: bool)
    ensures |EncodeAll(Escape(s, ascii))| <= 6 * |EncodeAll(s)|
    ensures '\n' !in Escape(s, ascii) && (ascii ==> IsAscii(Escape(s, ascii)))
  {
    if s != "" {
      EscapeSize(s[1..], ascii);
      EscapeCharSize(s[0], ascii);
      EncodeConcat(EscapeChar(s[0], ascii), Escape(s[1..], ascii));
    }
  }

  // ---------------------------------------------------------------- sections 3, 4 and 6: values and objects

  datatype Value = Text(text: string) | Number(number: nat) | Truth(truth: bool) | Null

  datatype Member = Member(key: string, value: Value)

  function Decimal(n: nat): (s: string)
    ensures s != ""
  {
    (if n < 10 then "" else Decimal(n / 10)) + [Hex(n % 10)]
  }

  function WriteString(s: string, ascii: bool): string {
    ['"'] + (Escape(s, ascii) + ['"'])
  }

  const TRUE := ['t', 'r', 'u', 'e']
  const FALSE := ['f', 'a', 'l', 's', 'e']
  const NULL := ['n', 'u', 'l', 'l']

  function WriteValue(v: Value, ascii: bool): string {
    match v
    case Text(s) => WriteString(s, ascii)
    case Number(n) => Decimal(n)
    case Truth(b) => if b then TRUE else FALSE
    case Null => NULL
  }

  function WriteMember(m: Member, ascii: bool): string {
    WriteString(m.key, ascii) + ([':'] + WriteValue(m.value, ascii))
  }

  /** The members with commas between them, and the brace behind. */
  function WriteMembers(ms: seq<Member>, ascii: bool): string
    requires ms != []
  {
    if |ms| == 1 then WriteMember(ms[0], ascii) + ['}']
    else WriteMember(ms[0], ascii) + ([','] + WriteMembers(ms[1..], ascii))
  }

  function WriteObject(ms: seq<Member>, ascii: bool): string
    requires ms != []
  {
    ['{'] + WriteMembers(ms, ascii)
  }

  predicate Blank(c: char) {
    c == ' ' || c == '\t' || c == '\n' || c == '\r'
  }

  function Skip(t: string): (r: string)
    ensures |r| <= |t|
  {
    if t != "" && Blank(t[0]) then Skip(t[1..]) else t
  }

  predicate Digit(c: char) {
    '0' <= c <= '9'
  }

  function DigitCount(t: string): (n: nat)
    ensures n <= |t|
  {
    if t == "" || !Digit(t[0]) then 0 else 1 + DigitCount(t[1..])
  }

  function FromDecimal(t: string): nat
    requires forall i :: 0 <= i < |t| ==> Digit(t[i])
  {
    if t == "" then 0
    else
      var last := t[|t| - 1];
      assert Digit(last);
      FromDecimal(t[..|t| - 1]) * 10 + (last - '0') as nat
  }

  lemma {:induction false} CountedAreDigits(t: string)
    ensures forall i :: 0 <= i < DigitCount(t) ==> Digit(t[i])
    ensures DigitCount(t) < |t| ==> !Digit(t[DigitCount(t)])
  {
    if t != "" && Digit(t[0]) {
      CountedAreDigits(t[1..]);
      forall i | 0 <= i < DigitCount(t) ensures Digit(t[i]) { if i > 0 { assert t[i] == t[1..][i - 1]; } }
    }
  }

  /** A value and what follows it. Signs, fractions, arrays and nested objects are not read. */
  function ParseValue(t: string): (r: Option<(Value, string)>)
    ensures r.Some? ==> |r.value.1| < |t|
  {
    if t == "" then None
    else if t[0] == '"' then
      var s := ParseString(t[1..]);
      if s == None then None else Some((Text(s.value.0), s.value.1))
    else if NULL <= t then Some((Null, t[4..]))
    else if TRUE <= t then Some((Truth(true), t[4..]))
    else if FALSE <= t then Some((Truth(false), t[5..]))
    else if t[0] == '0' then Some((Number(0), t[1..]))
    else if Digit(t[0]) then
      CountedAreDigits(t);
      Some((Number(FromDecimal(t[..DigitCount(t)])), t[DigitCount(t)..]))
    else None
  }

  /** The value of a member whose key was read, and what follows it and any blanks. */
  function ParseRest(key: string, t: string): (r: Option<(Member, string)>)
    ensures r.Some? ==> |r.value.1| < |t|
  {
    if t == "" || t[0] != ':' then None
    else
      var value := ParseValue(Skip(t[1..]));
      if value == None then None else Some((Member(key, value.value.0), Skip(value.value.1)))
  }

  function ParseMember(t: string): (r: Option<(Member, string)>)
    ensures r.Some? ==> |r.value.1| < |t|
  {
    if t == "" || t[0] != '"' then None
    else
      var key := ParseString(t[1..]);
      if key == None then None else ParseRest(key.value.0, Skip(key.value.1))
  }

  /** Reads members up to the closing brace; of two with one key the later counts. */
  function ParseMembers(t: string, found: map<string, Value>): Option<(map<string, Value>, string)>
    decreases |t|
  {
    var r := ParseMember(t);
    if r == None || r.value.1 == "" then None
    else
      var more := found[r.value.0.key := r.value.0.value];
      if r.value.1[0] == '}' then Some((more, r.value.1[1..]))
      else if r.value.1[0] == ',' then ParseMembers(Skip(r.value.1[1..]), more)
      else None
  }

  /** A whole text that is one object. */
  function ParseObject(text: string): Option<map<string, Value>> {
    var t := Skip(text);
    if t == "" || t[0] != '{' then None
    else
      var t1 := Skip(t[1..]);
      if t1 != "" && t1[0] == '}' then (if Skip(t1[1..]) == "" then Some(map[]) else None)
      else
        var r := ParseMembers(t1, map[]);
        if r.Some? && Skip(r.value.1) == "" then Some(r.value.0) else None
  }

  // ---------------------------------------------------------------- what is written is read back

  function Put(found: map<string, Value>, ms: seq<Member>): map<string, Value>
    decreases |ms|
  {
    if ms == [] then found else Put(found[ms[0].key := ms[0].value], ms[1..])
  }

  lemma {:induction false} DecimalDigits(n: nat)
    ensures forall i :: 0 <= i < |Decimal(n)| ==> Digit(Decimal(n)[i])
    ensures FromDecimal(Decimal(n)) == n
    ensures n > 0 ==> Decimal(n)[0] != '0'
  {
    var s := Decimal(n);
    if n >= 10 {
      DecimalDigits(n / 10);
      assert s[..|s| - 1] == Decimal(n / 10);
      assert s[0] == Decimal(n / 10)[0];
    } else {
      assert s[..|s| - 1] == "";
    }
  }

  lemma {:induction false} DigitsCounted(s: string, rest: string)
    requires forall i :: 0 <= i < |s| ==> Digit(s[i])
    requires rest == "" || !Digit(rest[0])
    ensures DigitCount(s + rest) == |s|
  {
    if s == "" {
      assert s + rest == rest;
    } else {
      assert (s + rest)[1..] == s[1..] + rest;
      DigitsCounted(s[1..], rest);
    }
  }

  lemma ZeroOrMore(n: nat)
    ensures Decimal(n)[0] == '0' ==> n == 0 && |Decimal(n)| == 1
  {
    DecimalDigits(n);
  }

  lemma NumberBefore(s: string, t: string, rest: string)
    requires s != "" && t == s + rest && DigitCount(t) == |s| && (s[0] == '0' ==> |s| == 1)
    requires forall i :: 0 <= i < |s| ==> Digit(s[i])
    ensures ParseValue(t) == Some((Number(FromDecimal(s)), rest))
  {
    assert Digit(s[0]) && t[0] == s[0];
    assert t[..|s|] == s && t[|s|..] == rest;
    assert s[0] == '0' ==> s == ['0'];
    assert s[0] == '0' ==> s[..0] == "" && FromDecimal(s) == 0;
  }

  lemma NumberRoundTrip(n: nat, rest: string)
    requires rest == "" || !Digit(rest[0])
    ensures ParseValue(Decimal(n) + rest) == Some((Number(n), rest))
  {
    DecimalDigits(n);
    ZeroOrMore(n);
    DigitsCounted(Decimal(n), rest);
    NumberBefore(Decimal(n), Decimal(n) + rest, rest);
  }

  lemma StringRoundTrip(s: string, ascii: bool, rest: string)
    ensures var t := WriteString(s, ascii) + rest; t[0] == '"' && ParseString(t[1..]) == Some((s, rest))
  {
    var t := WriteString(s, ascii) + rest;
    assert t[1..] == Escape(s, ascii) + ['"'] + rest;
    EscapeRoundTrip(s, ascii, rest);
  }

  lemma TrueIsRead(rest: string)
    ensures ParseValue(TRUE + rest) == Some((Truth(true), rest))
  {
    LiteralBefore(TRUE, rest);
  }

  lemma FalseIsRead(rest: string)
    ensures ParseValue(FALSE + rest) == Some((Truth(false), rest))
  {
    LiteralBefore(FALSE, rest);
  }

  lemma NullIsRead(rest: string)
    ensures ParseValue(NULL + rest) == Some((Null, rest))
  {
    LiteralBefore(NULL, rest);
  }

  lemma LiteralBefore(word: string, rest: string)
    requires word != ""
    ensures word <= word + rest && (word + rest)[|word|..] == rest && (word + rest)[0] == word[0]
  {
  }

  lemma ValueRoundTrip(v: Value, ascii: bool, rest: string)
    requires rest != "" && !Digit(rest[0])
    ensures ParseValue(WriteValue(v, ascii) + rest) == Some((v, rest))
    ensures !Blank(WriteValue(v, ascii)[0])
  {
    match v
    case Text(s) => StringRoundTrip(s, ascii, rest);
    case Number(n) => NumberRoundTrip(n, rest); DecimalDigits(n);
    case Truth(b) => if b { TrueIsRead(rest); } else { FalseIsRead(rest); }
    case Null => NullIsRead(rest);
  }

  /** What follows a member as it is written. */
  predicate Follows(rest: string) {
    rest != "" && (rest[0] == ',' || rest[0] == '}')
  }

  lemma ValueBehindKey(m: Member, ascii: bool, t: string, rest: string)
    requires Follows(rest) && t != "" && t[0] == ':' && t[1..] == WriteValue(m.value, ascii) + rest
    ensures ParseRest(m.key, t) == Some((m, rest))
  {
    ValueRoundTrip(m.value, ascii, rest);
    assert t[1..][0] == WriteValue(m.value, ascii)[0];
  }

  lemma MemberRoundTrip(m: Member, ascii: bool, t: string, rest: string)
    requires Follows(rest) && t == WriteMember(m, ascii) + rest
    ensures ParseMember(t) == Some((m, rest)) && t[0] == '"'
  {
    var tail := [':'] + WriteValue(m.value, ascii) + rest;
    Regroup([':'], WriteValue(m.value, ascii), rest);
    ValueBehindKey(m, ascii, tail, rest);
    Regroup(WriteString(m.key, ascii), [':'] + WriteValue(m.value, ascii), rest);
    StringRoundTrip(m.key, ascii, tail);
  }

  lemma {:induction false} MembersRoundTrip(ms: seq<Member>, ascii: bool, t: string, rest: string, found: map<string, Value>)
    requires ms != [] && t == WriteMembers(ms, ascii) + rest
    ensures t[0] == '"' && ParseMembers(t, found) == Some((Put(found, ms), rest))
    decreases |ms|
  {
    if |ms| == 1 {
      LastMember(ms, ascii, t, rest, found);
    } else {
      var next := WriteMembers(ms[1..], ascii) + rest;
      MembersRoundTrip(ms[1..], ascii, next, rest, found[ms[0].key := ms[0].value]);
      FirstMember(ms, ascii, t, next, rest, found);
    }
  }

  lemma LastMember(ms: seq<Member>, ascii: bool, t: string, rest: string, found: map<string, Value>)
    requires |ms| == 1 && t == WriteMembers(ms, ascii) + rest
    ensures t[0] == '"' && ParseMembers(t, found) == Some((Put(found, ms), rest))
  {
    var next := ['}'] + rest;
    Regroup(WriteMember(ms[0], ascii), ['}'], rest);
    MemberRoundTrip(ms[0], ascii, t, next);
    assert next[1..] == rest && ms[1..] == [];
  }

  lemma FirstMember(ms: seq<Member>, ascii: bool, t: string, next: string, rest: string, found: map<string, Value>)
    requires |ms| > 1 && t == WriteMembers(ms, ascii) + rest && next == WriteMembers(ms[1..], ascii) + rest && next[0] == '"'
    ensures t[0] == '"' && ParseMembers(t, found) == ParseMembers(next, found[ms[0].key := ms[0].value])
  {
    var behind := [','] + next;
    Regroup([','], WriteMembers(ms[1..], ascii), rest);
    Regroup(WriteMember(ms[0], ascii), [','] + WriteMembers(ms[1..], ascii), rest);
    MemberRoundTrip(ms[0], ascii, t, behind);
    assert behind[1..] == next;
    MembersGoOn(ms[0], t, behind, found);
  }

  lemma MembersGoOn(m: Member, t: string, behind: string, found: map<string, Value>)
    requires ParseMember(t) == Some((m, behind)) && |behind| > 1 && behind[0] == ',' && behind[1] == '"'
    ensures ParseMembers(t, found) == ParseMembers(behind[1..], found[m.key := m.value])
  {
    assert Skip(behind[1..]) == behind[1..];
  }

  lemma ObjectOf(t: string, behind: string, found: map<string, Value>, blanks: string)
    requires t == ['{'] + behind && behind != "" && behind[0] == '"' && Skip(blanks) == ""
    requires ParseMembers(behind, map[]) == Some((found, blanks))
    ensures ParseObject(t) == Some(found)
  {
    assert t[1..] == behind;
  }

  /** An object is read back as the map of its members, with blanks behind it or not. */
  lemma ObjectRoundTrip(ms: seq<Member>, ascii: bool, blanks: string)
    requires ms != [] && Skip(blanks) == ""
    ensures ParseObject(WriteObject(ms, ascii) + blanks) == Some(Put(map[], ms))
  {
    var behind := WriteMembers(ms, ascii) + blanks;
    Regroup(['{'], WriteMembers(ms, ascii), blanks);
    MembersRoundTrip(ms, ascii, behind, blanks, map[]);
    ObjectOf(WriteObject(ms, ascii) + blanks, behind, Put(map[], ms), blanks);
  }

  lemma PutFirst(found: map<string, Value>, m: Member, ms: seq<Member>)
    ensures Put(found, [m] + ms) == Put(found[m.key := m.value], ms)
  {
    assert ([m] + ms)[1..] == ms;
  }

  /** The members put into a map, one after the other. */
  lemma PutFive(a: Member, b: Member, c: Member, d: Member, e: Member)
    ensures Put(map[], [a, b, c, d, e])
         == map[][a.key := a.value][b.key := b.value][c.key := c.value][d.key := d.value][e.key := e.value]
  {
    assert [a, b, c, d, e] == [a] + ([b] + ([c] + ([d] + ([e] + []))));
    PutFirst(map[], a, [b] + ([c] + ([d] + ([e] + []))));
    PutFirst(map[a.key := a.value], b, [c] + ([d] + ([e] + [])));
    PutFirst(map[a.key := a.value][b.key := b.value], c, [d] + ([e] + []));
    PutFirst(map[a.key := a.value][b.key := b.value][c.key := c.value], d, [e] + []);
    PutFirst(map[a.key := a.value][b.key := b.value][c.key := c.value][d.key := d.value], e, []);
  }
}
