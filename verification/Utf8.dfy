/** UTF-8 as RFC 3629 defines it, a decoder that steps over malformed bytes, and truncation by bytes. */
module Utf8 {
  import opened Bytes

  // ---------------------------------------------------------------- section 3: encoding

  function Encode(c: char): (b: seq<byte>)
    ensures 1 <= |b| <= 4
  {
    var x := c as int;
    if x < 0x80 then [x]
    else if x < 0x800 then [0xC0 + x / 64, 0x80 + x % 64]
    else if x < 0x10000 then [0xE0 + x / 4096, 0x80 + x / 64 % 64, 0x80 + x % 64]
    else [0xF0 + x / 262144, 0x80 + x / 4096 % 64, 0x80 + x / 64 % 64, 0x80 + x % 64]
  }

  function EncodeAll(s: string): seq<byte> {
    if s == "" then [] else Encode(s[0]) + EncodeAll(s[1..])
  }

  // ---------------------------------------------------------------- section 4: well-formed sequences

  predicate Continues(b: byte) {
    0x80 <= b < 0xC0
  }

  /** The length the first byte announces; zero when no sequence starts with it. */
  function Announced(b: byte): (n: nat)
    ensures n <= 4
  {
    if b < 0x80 then 1 else if 0xC2 <= b < 0xE0 then 2 else if 0xE0 <= b < 0xF0 then 3 else if 0xF0 <= b < 0xF5 then 4 else 0
  }

  predicate SecondFits(first: byte, second: byte) {
    if first == 0xE0 then 0xA0 <= second < 0xC0
    else if first == 0xED then 0x80 <= second < 0xA0
    else if first == 0xF0 then 0x90 <= second < 0xC0
    else if first == 0xF4 then 0x80 <= second < 0x90
    else Continues(second)
  }

  /** How many bytes at the front begin a well-formed sequence. */
  function Matched(b: seq<byte>): (n: nat)
    requires b != []
    ensures n <= |b| && n <= Announced(b[0])
  {
    var all := Announced(b[0]);
    if all <= 1 then all
    else if |b| < 2 || !SecondFits(b[0], b[1]) then 1
    else if all == 2 then 2
    else if |b| < 3 || !Continues(b[2]) then 2
    else if all == 3 then 3
    else if |b| < 4 || !Continues(b[3]) then 3
    else 4
  }

  datatype Head = Scalar(c: char, size: nat) | Malformed(size: nat)

  /** The character at the front, or the bytes to step over. */
  function FrontOf(b: seq<byte>): (h: Head)
    requires b != []
    ensures 1 <= h.size <= |b|
  {
    var n := Matched(b);
    if n == 0 then Malformed(1)
    else if n < Announced(b[0]) then Malformed(n)
    else if n == 1 then Scalar(b[0] as char, 1)
    else if n == 2 then Scalar(((b[0] as int - 0xC0) * 64 + (b[1] as int - 0x80)) as char, 2)
    else if n == 3 then Scalar(((b[0] as int - 0xE0) * 4096 + (b[1] as int - 0x80) * 64 + (b[2] as int - 0x80)) as char, 3)
    else Scalar(((b[0] as int - 0xF0) * 262144 + (b[1] as int - 0x80) * 4096 + (b[2] as int - 0x80) * 64 + (b[3] as int - 0x80)) as char, 4)
  }

  /** Malformed bytes become onError: nothing to ignore them, U+FFFD to replace them. */
  function Decode(b: seq<byte>, onError: string): string
    decreases |b|
  {
    if b == [] then ""
    else
      var h := FrontOf(b);
      (if h.Scalar? then [h.c] else onError) + Decode(b[h.size..], onError)
  }

  /** The base-64 digits that the sequence lengths are made of. */
  lemma Digits(x: nat)
    ensures x == x / 64 * 64 + x % 64
    ensures x / 64 == x / 4096 * 64 + x / 64 % 64
    ensures x / 4096 == x / 262144 * 64 + x / 4096 % 64
  {
    assert x / 64 / 64 == x / 4096;
    assert x / 4096 / 64 == x / 262144;
  }

  lemma FrontOfTwo(x: nat, b: seq<byte>)
    requires 0x80 <= x < 0x800 && |b| >= 2 && b[0] == 0xC0 + x / 64 && b[1] == 0x80 + x % 64
    ensures FrontOf(b) == Scalar(x as char, 2)
  {
    Digits(x);
  }

  lemma FrontOfThree(x: nat, b: seq<byte>)
    requires 0x800 <= x < 0x10000 && !(0xD800 <= x < 0xE000) && |b| >= 3
    requires b[0] == 0xE0 + x / 4096 && b[1] == 0x80 + x / 64 % 64 && b[2] == 0x80 + x % 64
    ensures FrontOf(b) == Scalar(x as char, 3)
  {
    Digits(x);
    assert SecondFits(b[0], b[1]);
  }

  lemma FrontOfFour(x: nat, b: seq<byte>)
    requires 0x10000 <= x < 0x110000 && |b| >= 4
    requires b[0] == 0xF0 + x / 262144 && b[1] == 0x80 + x / 4096 % 64 && b[2] == 0x80 + x / 64 % 64 && b[3] == 0x80 + x % 64
    ensures FrontOf(b) == Scalar(x as char, 4)
  {
    Digits(x);
    assert SecondFits(b[0], b[1]);
  }

  lemma FrontOfEncoded(c: char, rest: seq<byte>)
    ensures FrontOf(Encode(c) + rest) == Scalar(c, |Encode(c)|)
  {
    var x := c as int;
    if 0x80 <= x < 0x800 {
      FrontOfTwo(x, Encode(c) + rest);
    } else if 0x800 <= x < 0x10000 {
      FrontOfThree(x, Encode(c) + rest);
    } else if 0x10000 <= x {
      FrontOfFour(x, Encode(c) + rest);
    }
  }

  lemma FrontOfTruncated(c: char, k: nat)
    requires 0 < k < |Encode(c)|
    ensures FrontOf(Encode(c)[..k]) == Malformed(k)
  {
    var x := c as int;
    var b := Encode(c)[..k];
    if 0x800 <= x < 0x10000 && k == 2 {
      assert b[0] == 0xE0 + x / 4096 && b[1] == 0x80 + x / 64 % 64;
    } else if 0x10000 <= x && k >= 2 {
      assert b[0] == 0xF0 + x / 262144 && b[1] == 0x80 + x / 4096 % 64;
    }
  }

  lemma {:induction false} EncodingRoundTrip(s: string, onError: string)
    ensures Decode(EncodeAll(s), onError) == s
  {
    if s != "" {
      var b := EncodeAll(s);
      FrontOfEncoded(s[0], EncodeAll(s[1..]));
      assert b[|Encode(s[0])|..] == EncodeAll(s[1..]);
      EncodingRoundTrip(s[1..], onError);
    }
  }

  lemma {:induction false} EncodeConcat(a: string, b: string)
    ensures EncodeAll(a + b) == EncodeAll(a) + EncodeAll(b)
  {
    if a == "" {
      assert a + b == b;
    } else {
      assert (a + b)[1..] == a[1..] + b;
      EncodeConcat(a[1..], b);
    }
  }

  // ---------------------------------------------------------------- truncation

  /** The longest prefix of whole characters whose encoding fits. */
  predicate LongestFitting(value: string, limit: nat, text: string) {
    && text <= value && |EncodeAll(text)| <= limit
    && forall k :: |text| < k <= |value| ==> |EncodeAll(value[..k])| > limit
  }

  lemma {:induction false} TruncatedDecodesToPrefix(value: string, limit: nat)
    requires limit <= |EncodeAll(value)|
    ensures LongestFitting(value, limit, Decode(EncodeAll(value)[..limit], ""))
  {
    if value != "" {
      var b, n := EncodeAll(value), |Encode(value[0])|;
      var text := Decode(b[..limit], "");
      if limit < n {
        if limit > 0 {
          assert b[..limit] == Encode(value[0])[..limit];
          FrontOfTruncated(value[0], limit);
          assert b[..limit][limit..] == [];
          assert FrontOf(b[..limit]) == Malformed(limit);
          assert Decode(b[..limit], "") == "" + Decode([], "");
        } else {
          assert b[..limit] == [];
        }
        assert text == "";
        forall k | 0 < k <= |value| ensures |EncodeAll(value[..k])| > limit {
          assert value[..k][0] == value[0];
        }
      } else {
        assert b[..limit] == Encode(value[0]) + EncodeAll(value[1..])[..limit - n];
        FrontOfEncoded(value[0], EncodeAll(value[1..])[..limit - n]);
        assert b[..limit][n..] == EncodeAll(value[1..])[..limit - n];
        TruncatedDecodesToPrefix(value[1..], limit - n);
        PrefixOfOneMore(value, limit, text, n);
      }
    }
  }

  lemma PrefixOfOneMore(value: string, limit: nat, text: string, n: nat)
    requires value != "" && text != "" && n == |Encode(value[0])| <= limit && text[0] == value[0]
    requires LongestFitting(value[1..], limit - n, text[1..])
    ensures LongestFitting(value, limit, text)
  {
    assert text == [text[0]] + text[1..] && value == [value[0]] + value[1..];
    forall k | |text| < k <= |value| ensures |EncodeAll(value[..k])| > limit {
      assert value[..k][1..] == value[1..][..k - 1];
    }
  }

  /** Cuts a text to limit bytes without splitting a character; cut tells whether anything was lost. */
  method BoundedUtf8(value: string, limit: nat) returns (text: string, cut: bool)
    ensures LongestFitting(value, limit, text)
    ensures cut <==> text != value
  {
    var payload := EncodeAll(value);
    if |payload| <= limit {
      return value, false;
    }
    TruncatedDecodesToPrefix(value, limit);
    text, cut := Decode(payload[..limit], ""), true;
  }

  predicate IsAscii(s: string) {
    forall i :: 0 <= i < |s| ==> (s[i] as int) < 0x80
  }

  lemma {:induction false} AsciiSize(s: string)
    requires IsAscii(s)
    ensures |EncodeAll(s)| == |s|
  {
    if s != "" { AsciiSize(s[1..]); }
  }
}
