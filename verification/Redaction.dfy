/** Keeping secret values out of log lines: each of them is replaced by a fixed text. */
module Redaction {
  import opened Bytes
  import Utf8

  const REDACTED := "[REDACTED]"

  predicate NonEmpty(values: seq<seq<byte>>) {
    forall i :: 0 <= i < |values| ==> values[i] != []
  }

  /** Non-overlapping occurrences, left to right. */
  function Replace(b: seq<byte>, what: seq<byte>, with: seq<byte>): seq<byte>
    requires what != []
    decreases |b|
  {
    if |b| < |what| then b
    else if what <= b then with + Replace(b[|what|..], what, with)
    else [b[0]] + Replace(b[1..], what, with)
  }

  function Redact(b: seq<byte>, values: seq<seq<byte>>): seq<byte>
    requires NonEmpty(values)
  {
    if values == [] then b else Replace(Redact(b, values[..|values| - 1]), values[|values| - 1], Utf8.EncodeAll(REDACTED))
  }

  // ---------------------------------------------------------------- what is left

  predicate At(v: seq<byte>, b: seq<byte>, i: nat) {
    i + |v| <= |b| && b[i..i + |v|] == v
  }

  predicate Occurs(v: seq<byte>, b: seq<byte>) {
    exists i :: 0 <= i <= |b| && At(v, b, i)
  }

  /** Put d places behind the beginning of t, or before it, v agrees with t where they lie on each other, and they do. */
  predicate Agrees(v: seq<byte>, t: seq<byte>, d: int) {
    && -|v| < d < |t|
    && forall k :: 0 <= k < |v| && 0 <= k + d < |t| ==> v[k] == t[k + d]
  }

  /** A text with t in it may have v where it overlaps t. */
  predicate Touches(v: seq<byte>, t: seq<byte>) {
    exists d: int :: -|v| < d < |t| && Agrees(v, t, d)
  }

  lemma BeginningOccurs(v: seq<byte>, b: seq<byte>)
    ensures v <= b ==> Occurs(v, b)
  {
    if v <= b { assert At(v, b, 0); }
  }

  lemma OccursBehind(v: seq<byte>, b: seq<byte>, n: nat)
    requires n <= |b| && Occurs(v, b[n..])
    ensures Occurs(v, b)
  {
    var i :| 0 <= i <= |b[n..]| && At(v, b[n..], i);
    assert b[n..][i..i + |v|] == b[n + i..n + i + |v|];
    assert At(v, b, n + i);
  }

  /** What stands behind the first n places of a text was somewhere in what is behind them. */
  lemma FoundBehind(v: seq<byte>, a: seq<byte>, b: seq<byte>, i: nat)
    requires At(v, a + b, i) && i >= |a|
    ensures Occurs(v, b)
  {
    assert (a + b)[i..i + |v|] == b[i - |a|..i - |a| + |v|];
    assert At(v, b, i - |a|);
  }

  lemma FoundWithin(v: seq<byte>, t: seq<byte>, b: seq<byte>, i: nat)
    requires v != [] && At(v, t + b, i) && i < |t|
    ensures Touches(v, t)
  {
    forall k | 0 <= k < |v| && 0 <= k + i < |t| ensures v[k] == t[k + i] {
      assert (t + b)[i..i + |v|][k] == (t + b)[i + k];
    }
    assert Agrees(v, t, i);
  }

  lemma BeginsWithin(v: seq<byte>, k: nat, t: seq<byte>, b: seq<byte>)
    requires k < |v| && t != [] && v[k..] <= t + b
    ensures Touches(v, t)
  {
    forall j | 0 <= j < |v| && 0 <= j - k < |t| ensures v[j] == t[j - k] {
      assert v[k..][j - k] == (t + b)[j - k];
    }
    var d: int := 0 - k;
    assert Agrees(v, t, d);
  }

  /** Where the rest of v is left by the replacement, it was there before. */
  lemma {:induction false} WasThere(v: seq<byte>, k: nat, b: seq<byte>, what: seq<byte>, with: seq<byte>)
    requires what != [] && with != [] && k <= |v| && !Touches(v, with) && v[k..] <= Replace(b, what, with)
    ensures v[k..] <= b
    decreases |b|
  {
    if k < |v| && |b| >= |what| {
      if what <= b {
        BeginsWithin(v, k, with, Replace(b[|what|..], what, with));
      } else {
        var r := Replace(b[1..], what, with);
        assert v[k..] <= [b[0]] + r;
        assert v[k] == v[k..][0] == b[0];
        assert v[k + 1..] == v[k..][1..] && ([b[0]] + r)[1..] == r;
        WasThere(v, k + 1, b[1..], what, with);
        assert v[k..] == [v[k]] + v[k + 1..] && b == [b[0]] + b[1..];
      }
    }
  }

  /** A replacement brings in nothing that was not there, unless it overlaps the text that is put in. */
  lemma {:induction false} NothingAppears(v: seq<byte>, b: seq<byte>, what: seq<byte>, with: seq<byte>)
    requires what != [] && with != [] && v != [] && !Touches(v, with)
    requires !Occurs(v, b) || v == what
    ensures !Occurs(v, Replace(b, what, with))
    decreases |b|
  {
    var r := Replace(b, what, with);
    if i :| 0 <= i <= |r| && At(v, r, i) {
      if |b| < |what| {
        assert r == b;
      } else if what <= b {
        var rest := Replace(b[|what|..], what, with);
        if i < |with| { FoundWithin(v, with, rest, i); }
        FoundBehind(v, with, rest, i);
        if Occurs(v, b[|what|..]) { OccursBehind(v, b, |what|); }
        NothingAppears(v, b[|what|..], what, with);
      } else if i == 0 {
        assert v[0..] <= r by { assert r[..|v|] == v; }
        WasThere(v, 0, b, what, with);
        BeginningOccurs(v, b);
      } else {
        var rest := Replace(b[1..], what, with);
        FoundBehind(v, [b[0]], rest, i);
        if Occurs(v, b[1..]) { OccursBehind(v, b, 1); }
        NothingAppears(v, b[1..], what, with);
      }
    }
  }

  /** No value that cannot overlap the replacement is left in a redacted text, whatever the other values are. */
  lemma {:induction false} RedactedHides(b: seq<byte>, values: seq<seq<byte>>, v: seq<byte>)
    requires NonEmpty(values) && v in values && !Touches(v, Utf8.EncodeAll(REDACTED))
    ensures !Occurs(v, Redact(b, values))
    decreases |values|
  {
    var n := |values| - 1;
    TokenIsThere();
    if v != values[n] {
      assert values == values[..n] + [values[n]];
      RedactedHides(b, values[..n], v);
    }
    NothingAppears(v, Redact(b, values[..n]), values[n], Utf8.EncodeAll(REDACTED));
  }

  lemma TokenIsThere()
    ensures Utf8.EncodeAll(REDACTED) != []
  {
  }

  /** Without that it may be: a password that is the replacement's first character is shown by every replacement. */
  lemma FirstCharacterShows(b: seq<byte>, v: seq<byte>)
    requires b == v == Utf8.EncodeAll("[")
    ensures NonEmpty([v]) && Occurs(v, Redact(b, [v]))
  {
    var token := Utf8.EncodeAll(REDACTED);
    assert REDACTED[0] == '[' && "["[1..] == "";
    assert v == Utf8.Encode('[') && v <= token;
    assert [v][..0] == [] && Redact(b, []) == b;
    assert Redact(b, [v]) == token + Replace([], v, token) == token;
    BeginningOccurs(v, token);
  }

  /** Only values are replaced. */
  lemma {:induction false} OthersStay(b: seq<byte>, what: seq<byte>, with: seq<byte>)
    requires what != [] && !Occurs(what, b)
    ensures Replace(b, what, with) == b
    decreases |b|
  {
    if |b| >= |what| {
      BeginningOccurs(what, b);
      if Occurs(what, b[1..]) { OccursBehind(what, b, 1); }
      OthersStay(b[1..], what, with);
    }
  }

  lemma {:induction false} UntouchedStays(b: seq<byte>, values: seq<seq<byte>>)
    requires NonEmpty(values) && forall i :: 0 <= i < |values| ==> !Occurs(values[i], b)
    ensures Redact(b, values) == b
    decreases |values|
  {
    if values != [] {
      var n := |values| - 1;
      assert forall i :: 0 <= i < n ==> values[..n][i] == values[i];
      UntouchedStays(b, values[..n]);
      OthersStay(b, values[n], Utf8.EncodeAll(REDACTED));
    }
  }
}
