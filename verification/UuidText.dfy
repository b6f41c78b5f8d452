/** The two texts of a UUID: its 32 hexadecimal digits, and the same with dashes (section 3 of RFC 4122). */
module UuidText {
  import opened Wrappers
  import opened Ids
  import Json

  function HexDigits(n: nat): string {
    if n == 0 then "" else HexDigits(n / 16) + [Json.Hex(n % 16)]
  }

  function Padded(s: string): (h: string)
    ensures |h| == 32
    decreases if |s| > 32 then |s| - 32 else 32 - |s|
  {
    if |s| < 32 then Padded(['0'] + s) else if |s| > 32 then Padded(s[1..]) else s
  }

  /** The 32 hexadecimal digits of an id. */
  function Hex(id: Uuid): (h: string)
    ensures |h| == 32
  {
    Padded(HexDigits(id))
  }

  /** The digits in groups of 8, 4, 4, 4 and 12. */
  function Dashed(id: Uuid): (t: string)
    ensures |t| == 36
  {
    var h := Hex(id);
    h[..8] + "-" + h[8..12] + "-" + h[12..16] + "-" + h[16..20] + "-" + h[20..]
  }

  // ---------------------------------------------------------------- the text determines the id

  predicate HexDigit(c: char) {
    '0' <= c <= '9' || 'a' <= c <= 'f'
  }

  predicate AllHex(s: string) {
    forall i :: 0 <= i < |s| ==> HexDigit(s[i])
  }

  function FromHex(s: string): nat {
    if s == "" then 0
    else FromHex(s[..|s| - 1]) * 16 + if Json.FromHex(s[|s| - 1]).Some? then Json.FromHex(s[|s| - 1]).value else 0
  }

  lemma {:induction false} DigitsAreRead(n: nat)
    ensures AllHex(HexDigits(n)) && FromHex(HexDigits(n)) == n
  {
    if n > 0 {
      DigitsAreRead(n / 16);
      assert HexDigits(n)[..|HexDigits(n)| - 1] == HexDigits(n / 16);
    }
  }

  function Power(k: nat): nat {
    if k == 0 then 1 else 16 * Power(k - 1)
  }

  lemma {:induction false} DigitsAreFew(n: nat, k: nat)
    requires n < Power(k)
    ensures |HexDigits(n)| <= k
    decreases k
  {
    if n > 0 { DigitsAreFew(n / 16, k - 1); }
  }

  lemma {:induction false} LeadingZero(s: string)
    ensures FromHex(['0'] + s) == FromHex(s)
    decreases |s|
  {
    var t := ['0'] + s;
    if s == "" {
      assert t[..0] == "";
    } else {
      assert t[..|t| - 1] == ['0'] + s[..|s| - 1];
      LeadingZero(s[..|s| - 1]);
    }
  }

  lemma {:induction false} PaddingIsRead(s: string)
    requires |s| <= 32 && AllHex(s)
    ensures AllHex(Padded(s)) && FromHex(Padded(s)) == FromHex(s)
    decreases 32 - |s|
  {
    if |s| < 32 {
      LeadingZero(s);
      PaddingIsRead(['0'] + s);
    }
  }

  lemma HexIsRead(id: Uuid)
    ensures AllHex(Hex(id)) && FromHex(Hex(id)) == id
  {
    DigitsAreRead(id);
    PowersOfSixteen();
    DigitsAreFew(id, 32);
    PaddingIsRead(HexDigits(id));
  }

  lemma PowersOfSixteen()
    ensures Power(32) == 0x1_0000_0000_0000_0000_0000_0000_0000_0000
  {
    assert Power(8) == 0x1_0000_0000;
    assert Power(16) == 0x1_0000_0000_0000_0000;
    assert Power(24) == 0x1_0000_0000_0000_0000_0000_0000;
  }

  /** Different ids have different texts. */
  lemma DashedDetermines(a: Uuid, b: Uuid)
    requires Dashed(a) == Dashed(b)
    ensures a == b
  {
    var s, t, h, g := Dashed(a), Dashed(b), Hex(a), Hex(b);
    assert s[..8] == h[..8] && s[9..13] == h[8..12] && s[14..18] == h[12..16] && s[19..23] == h[16..20] && s[24..] == h[20..];
    assert t[..8] == g[..8] && t[9..13] == g[8..12] && t[14..18] == g[12..16] && t[19..23] == g[16..20] && t[24..] == g[20..];
    assert h == h[..8] + h[8..12] + h[12..16] + h[16..20] + h[20..];
    assert g == g[..8] + g[8..12] + g[12..16] + g[16..20] + g[20..];
    HexIsRead(a);
    HexIsRead(b);
  }

  lemma DashedCharacters(id: Uuid)
    ensures forall i :: 0 <= i < 36 ==> HexDigit(Dashed(id)[i]) || Dashed(id)[i] == '-'
  {
    HexIsRead(id);
  }
}
