/**
 How nginx reads a configuration file: the text is cut into words, semicolons and braces,
 with comments and blanks dropped, and these are nested into directives.
 */
module NginxText {
  import opened ConfigLines
  import opened Wrappers

  datatype Lexeme = Word(text: string) | End | Open | Close | Broken

  /** A directive is a list of words, ended by a semicolon or followed by a block of directives. */
  datatype Directive = Simple(words: seq<string>) | Block(words: seq<string>, inside: seq<Directive>)

  // ---------------------------------------------------------------- words

  predicate Blank(c: char) {
    c == ' ' || c == '\t' || c == '\n' || c == '\r'
  }

  predicate EndsWord(c: char) {
    Blank(c) || c == ';' || c == '{'
  }

  /** How many characters lead up to a blank, a semicolon or an opening brace. */
  function WordLength(t: string): (n: nat)
    ensures n <= |t|
  {
    if t == "" || EndsWord(t[0]) then 0 else 1 + WordLength(t[1..])
  }

  /** How many characters lead up to c. */
  function LengthUntil(t: string, c: char): (n: nat)
    ensures n <= |t|
  {
    if t == "" || t[0] == c then 0 else 1 + LengthUntil(t[1..], c)
  }

  function Lexemes(t: string): seq<Lexeme>
    decreases |t|
  {
    if t == "" then []
    else if Blank(t[0]) then Lexemes(t[1..])
    else if t[0] == '#' then Lexemes(t[LengthUntil(t, '\n')..])
    else if t[0] == ';' then [End] + Lexemes(t[1..])
    else if t[0] == '{' then [Open] + Lexemes(t[1..])
    else if t[0] == '}' then [Close] + Lexemes(t[1..])
    else if t[0] == '"' then
      var n := LengthUntil(t[1..], '"');
      if n == |t| - 1 then [Broken] else [Word(t[1..n + 1])] + Lexemes(t[n + 2..])
    else [Word(t[..WordLength(t)])] + Lexemes(t[WordLength(t)..])
  }

  // ---------------------------------------------------------------- directives

  /** The words that a list of tokens begins with. */
  function Words(ts: seq<Lexeme>): (ws: seq<string>)
    ensures |ws| <= |ts|
  {
    if ts == [] || !ts[0].Word? then [] else [ts[0].text] + Words(ts[1..])
  }

  /** Reads directives up to the end of the block or of the file. */
  function Nest(ts: seq<Lexeme>): (r: Option<(seq<Directive>, seq<Lexeme>)>)
    ensures r.Some? ==> |r.value.1| <= |ts|
    decreases |ts|
  {
    if ts == [] || ts[0] == Close then Some(([], ts))
    else
      var ws := Words(ts);
      var rest := ts[|ws|..];
      if ws == [] || rest == [] then None
      else if rest[0] == End then
        var more := Nest(rest[1..]);
        if more == None then None else Some(([Simple(ws)] + more.value.0, more.value.1))
      else if rest[0] == Open then
        var inner := Nest(rest[1..]);
        if inner == None || inner.value.1 == [] then None
        else
          var more := Nest(inner.value.1[1..]);
          if more == None then None else Some(([Block(ws, inner.value.0)] + more.value.0, more.value.1))
      else None
  }

  /** The directives of a file, if it is well-formed. */
  function Read(text: string): Option<seq<Directive>> {
    var r := Nest(Lexemes(text));
    if r.Some? && r.value.1 == [] then Some(r.value.0) else None
  }

  // ---------------------------------------------------------------- directives as tokens

  function AsLexemes(ws: seq<string>): seq<Lexeme> {
    seq(|ws|, i requires 0 <= i < |ws| => Word(ws[i]))
  }

  function Flat(ds: seq<Directive>): seq<Lexeme>
    decreases ds
  {
    if ds == [] then []
    else
      (match ds[0]
       case Simple(ws) => AsLexemes(ws) + [End]
       case Block(ws, inside) => AsLexemes(ws) + [Open] + Flat(inside) + [Close])
      + Flat(ds[1..])
  }

  predicate Named(ds: seq<Directive>)
    decreases ds
  {
    ds != [] ==> ds[0].words != [] && (ds[0].Block? ==> Named(ds[0].inside)) && Named(ds[1..])
  }

  lemma {:induction false} WordsOf(ws: seq<string>, rest: seq<Lexeme>)
    requires rest != [] && !rest[0].Word?
    ensures Words(AsLexemes(ws) + rest) == ws
    decreases |ws|
  {
    if ws == [] {
      assert AsLexemes(ws) + rest == rest;
    } else {
      assert AsLexemes(ws)[1..] == AsLexemes(ws[1..]);
      assert (AsLexemes(ws) + rest)[1..] == AsLexemes(ws[1..]) + rest;
      WordsOf(ws[1..], rest);
    }
  }

  predicate Stops(ts: seq<Lexeme>) {
    ts == [] || ts[0] == Close
  }

  /** What is nested from the tokens of some directives are those directives. */
  lemma {:induction false} NestFlat(ds: seq<Directive>, rest: seq<Lexeme>)
    requires Named(ds) && Stops(rest)
    ensures Nest(Flat(ds) + rest) == Some((ds, rest))
    decreases ds
  {
    if ds == [] {
      assert Flat(ds) + rest == rest;
    } else {
      match ds[0]
      case Simple(ws) => NestSimple(ws, ds, rest);
      case Block(ws, inside) => NestBlock(ws, inside, ds, rest);
    }
  }

  lemma {:induction false} NestSimple(ws: seq<string>, ds: seq<Directive>, rest: seq<Lexeme>)
    requires ds != [] && ds[0] == Simple(ws) && Named(ds) && Stops(rest)
    ensures Nest(Flat(ds) + rest) == Some((ds, rest))
    decreases ds, 0
  {
    var later := Flat(ds[1..]) + rest;
    FlatSimple(ws, ds, rest);
    NestFlat(ds[1..], rest);
    SimpleIsNested(ws, later, ds[1..], rest);
    assert [Simple(ws)] + ds[1..] == ds;
  }

  lemma FlatSimple(ws: seq<string>, ds: seq<Directive>, rest: seq<Lexeme>)
    requires ds != [] && ds[0] == Simple(ws)
    ensures Flat(ds) + rest == AsLexemes(ws) + ([End] + (Flat(ds[1..]) + rest))
  {
    assert Flat(ds) == (AsLexemes(ws) + [End]) + Flat(ds[1..]);
    Regroup(AsLexemes(ws) + [End], Flat(ds[1..]), rest);
    Regroup(AsLexemes(ws), [End], Flat(ds[1..]) + rest);
  }

  lemma SimpleIsNested(ws: seq<string>, later: seq<Lexeme>, more: seq<Directive>, rest: seq<Lexeme>)
    requires ws != [] && Nest(later) == Some((more, rest))
    ensures Nest(AsLexemes(ws) + ([End] + later)) == Some(([Simple(ws)] + more, rest))
  {
    var behind := [End] + later;
    WordsOf(ws, behind);
    assert (AsLexemes(ws) + behind)[|ws|..] == behind && behind[1..] == later;
    assert (AsLexemes(ws) + behind)[0] == Word(ws[0]);
  }

  lemma {:induction false} NestBlock(ws: seq<string>, inside: seq<Directive>, ds: seq<Directive>, rest: seq<Lexeme>)
    requires ds != [] && ds[0] == Block(ws, inside) && Named(ds) && Stops(rest)
    ensures Nest(Flat(ds) + rest) == Some((ds, rest))
    decreases ds, 0
  {
    var later := Flat(ds[1..]) + rest;
    FlatBlock(ws, inside, ds, rest);
    NestFlat(inside, [Close] + later);
    NestFlat(ds[1..], rest);
    BlockIsNested(ws, Flat(inside), inside, later, ds[1..], rest);
    assert [Block(ws, inside)] + ds[1..] == ds;
  }

  lemma FlatBlock(ws: seq<string>, inside: seq<Directive>, ds: seq<Directive>, rest: seq<Lexeme>)
    requires ds != [] && ds[0] == Block(ws, inside)
    ensures Flat(ds) + rest == AsLexemes(ws) + ([Open] + (Flat(inside) + ([Close] + (Flat(ds[1..]) + rest))))
  {
    var later := Flat(ds[1..]) + rest;
    assert Flat(ds) == (((AsLexemes(ws) + [Open]) + Flat(inside)) + [Close]) + Flat(ds[1..]);
    Regroup(((AsLexemes(ws) + [Open]) + Flat(inside)) + [Close], Flat(ds[1..]), rest);
    Regroup((AsLexemes(ws) + [Open]) + Flat(inside), [Close], later);
    Regroup(AsLexemes(ws) + [Open], Flat(inside), [Close] + later);
    Regroup(AsLexemes(ws), [Open], Flat(inside) + ([Close] + later));
  }

  lemma BlockIsNested(ws: seq<string>, ts: seq<Lexeme>, inside: seq<Directive>, later: seq<Lexeme>, more: seq<Directive>, rest: seq<Lexeme>)
    requires ws != [] && Nest(ts + ([Close] + later)) == Some((inside, [Close] + later)) && Nest(later) == Some((more, rest))
    ensures Nest(AsLexemes(ws) + ([Open] + (ts + ([Close] + later)))) == Some(([Block(ws, inside)] + more, rest))
  {
    var behind := [Open] + (ts + ([Close] + later));
    var all := AsLexemes(ws) + behind;
    WordsOf(ws, behind);
    assert all[|ws| + 1..] == ts + ([Close] + later);
    assert all[0] == Word(ws[0]) && all[|ws|] == Open;
    BlockStep(all, ws, inside, later, more, rest);
  }

  lemma BlockStep(ts: seq<Lexeme>, ws: seq<string>, inside: seq<Directive>, later: seq<Lexeme>, more: seq<Directive>, rest: seq<Lexeme>)
    requires ws != [] && |ws| < |ts| && ts[0] != Close && Words(ts) == ws && ts[|ws|] == Open
    requires Nest(ts[|ws| + 1..]) == Some((inside, [Close] + later)) && Nest(later) == Some((more, rest))
    ensures Nest(ts) == Some(([Block(ws, inside)] + more, rest))
  {
    assert ts[|ws|..][1..] == ts[|ws| + 1..] && ([Close] + later)[1..] == later;
  }

  // ---------------------------------------------------------------- texts as tokens

  /** Wherever the text stands, it is cut into these tokens. */
  ghost predicate Yields(text: string, ts: seq<Lexeme>) {
    forall rest :: Lexemes(text + rest) == ts + Lexemes(rest)
  }

  lemma Both(a: string, x: seq<Lexeme>, b: string, y: seq<Lexeme>)
    requires Yields(a, x) && Yields(b, y)
    ensures Yields(a + b, x + y)
  {
    forall rest ensures Lexemes((a + b) + rest) == (x + y) + Lexemes(rest) { BothOn(a, x, b, y, rest); }
  }

  lemma BothOn(a: string, x: seq<Lexeme>, b: string, y: seq<Lexeme>, rest: string)
    requires Yields(a, x) && Yields(b, y)
    ensures Lexemes((a + b) + rest) == (x + y) + Lexemes(rest)
  {
    assert Lexemes(a + (b + rest)) == x + Lexemes(b + rest);
    assert Lexemes(b + rest) == y + Lexemes(rest);
    Regroup(a, b, rest);
    Regroup(x, y, Lexemes(rest));
  }

  lemma Regroup<T>(a: seq<T>, b: seq<T>, c: seq<T>)
    ensures (a + b) + c == a + (b + c)
  {
  }

  lemma NothingYields()
    ensures Yields("", [])
  {
    forall rest ensures Lexemes("" + rest) == [] + Lexemes(rest) { assert "" + rest == rest; }
  }

  /** A text that yields the tokens of directives is read as those directives. */
  lemma YieldsIsRead(text: string, ds: seq<Directive>)
    requires Yields(text, Flat(ds)) && Named(ds)
    ensures Read(text) == Some(ds)
  {
    assert text + "" == text && Lexemes("") == [];
    assert Lexemes(text + "") == Flat(ds) + Lexemes("");
    NestFlat(ds, []);
  }

  function Mark(c: char): seq<Lexeme> {
    if c == ';' then [End] else if c == '{' then [Open] else if c == '}' then [Close] else []
  }

  lemma MarkYields(c: char)
    requires Blank(c) || c == ';' || c == '{' || c == '}'
    ensures Yields([c], Mark(c))
  {
    forall rest ensures Lexemes([c] + rest) == Mark(c) + Lexemes(rest) { assert ([c] + rest)[1..] == rest; }
  }

  predicate Unbroken(w: string) {
    forall i :: 0 <= i < |w| ==> !EndsWord(w[i])
  }

  /** A word as it can stand without quotes. */
  predicate Plain(w: string) {
    w != "" && w[0] != '#' && w[0] != '"' && w[0] != '}' && Unbroken(w)
  }

  lemma BothUnbroken(a: string, b: string)
    requires Unbroken(a) && Unbroken(b)
    ensures Unbroken(a + b)
  {
  }

  lemma PlainBefore(a: string, b: string)
    requires Plain(a) && Unbroken(b)
    ensures Plain(a + b)
  {
  }

  lemma {:induction false} WordLengthOf(w: string, rest: string)
    requires Unbroken(w)
    requires rest != "" && EndsWord(rest[0])
    ensures WordLength(w + rest) == |w|
    decreases |w|
  {
    if w == "" {
      assert w + rest == rest;
    } else {
      assert (w + rest)[1..] == w[1..] + rest;
      WordLengthOf(w[1..], rest);
    }
  }

  /** A word together with what ends it. */
  lemma WordYields(w: string, c: char)
    requires Plain(w) && EndsWord(c)
    ensures Yields(w + [c], [Word(w)] + Mark(c))
  {
    MarkYields(c);
    forall rest ensures Lexemes((w + [c]) + rest) == ([Word(w)] + Mark(c)) + Lexemes(rest) {
      WordIsCut(w, [c] + rest);
      Regroup(w, [c], rest);
      assert Lexemes([c] + rest) == Mark(c) + Lexemes(rest);
      Regroup([Word(w)], Mark(c), Lexemes(rest));
    }
  }

  lemma WordIsCut(w: string, rest: string)
    requires Plain(w) && rest != "" && EndsWord(rest[0])
    ensures Lexemes(w + rest) == [Word(w)] + Lexemes(rest)
  {
    var t := w + rest;
    WordLengthOf(w, rest);
    assert t[0] == w[0] && !EndsWord(t[0]);
    assert t[..|w|] == w && t[|w|..] == rest;
  }

  lemma {:induction false} BlanksYield(s: string)
    requires forall i :: 0 <= i < |s| ==> Blank(s[i])
    ensures Yields(s, [])
    decreases |s|
  {
    if s == "" {
      NothingYields();
    } else {
      MarkYields(s[0]);
      BlanksYield(s[1..]);
      Both([s[0]], [], s[1..], []);
      assert [s[0]] + s[1..] == s;
    }
  }

  /** Words with a blank between any two. */
  function Spaced(ws: seq<string>): string {
    if ws == [] then "" else if |ws| == 1 then ws[0] else ws[0] + [' '] + Spaced(ws[1..])
  }

  lemma TwoSpaced(a: string, b: string)
    ensures Spaced([a, b]) == a + [' '] + b
  {
    assert [a, b][1..] == [b];
  }

  lemma ThreeSpaced(a: string, b: string, c: string)
    ensures Spaced([a, b, c]) == a + [' '] + (b + [' '] + c)
  {
    assert [a, b, c][1..] == [b, c];
    TwoSpaced(b, c);
  }

  predicate AllPlain(ws: seq<string>) {
    forall i :: 0 <= i < |ws| ==> Plain(ws[i])
  }

  lemma {:induction false} SpacedYields(ws: seq<string>, c: char)
    requires ws != [] && AllPlain(ws) && EndsWord(c)
    ensures Yields(Spaced(ws) + [c], AsLexemes(ws) + Mark(c))
    decreases |ws|
  {
    if |ws| == 1 {
      WordYields(ws[0], c);
      assert AsLexemes(ws) == [Word(ws[0])];
    } else {
      WordYields(ws[0], ' ');
      SpacedYields(ws[1..], c);
      Both(ws[0] + [' '], [Word(ws[0])] + Mark(' '), Spaced(ws[1..]) + [c], AsLexemes(ws[1..]) + Mark(c));
      Regroup(ws[0] + [' '], Spaced(ws[1..]), [c]);
      assert [Word(ws[0])] + Mark(' ') + (AsLexemes(ws[1..]) + Mark(c)) == AsLexemes(ws) + Mark(c);
    }
  }

  /** Words behind an indentation, and what ends the last of them. */
  lemma IndentedYields(indent: string, ws: seq<string>, c: char)
    requires ws != [] && AllPlain(ws) && EndsWord(c)
    requires forall i :: 0 <= i < |indent| ==> Blank(indent[i])
    ensures Yields(indent + (Spaced(ws) + [c]), AsLexemes(ws) + Mark(c))
  {
    BlanksYield(indent);
    SpacedYields(ws, c);
    Both(indent, [], Spaced(ws) + [c], AsLexemes(ws) + Mark(c));
    assert [] + (AsLexemes(ws) + Mark(c)) == AsLexemes(ws) + Mark(c);
  }

  lemma EndOfLine(line: string, ts: seq<Lexeme>)
    requires Yields(line, ts)
    ensures Yields(line + ['\n'], ts)
  {
    MarkYields('\n');
    Both(line, ts, ['\n'], []);
    assert ts + [] == ts;
  }

  /** A line with a directive. */
  lemma LineYields(line: string, indent: string, ws: seq<string>)
    requires ws != [] && AllPlain(ws)
    requires forall i :: 0 <= i < |indent| ==> Blank(indent[i])
    requires line == indent + (Spaced(ws) + [';'])
    ensures Yields(line + ['\n'], Flat([Simple(ws)]))
  {
    IndentedYields(indent, ws, ';');
    EndOfLine(line, AsLexemes(ws) + [End]);
    FlatOne(Simple(ws));
  }

  /** A line that opens a block. */
  lemma OpeningYields(line: string, indent: string, ws: seq<string>)
    requires ws != [] && AllPlain(ws)
    requires forall i :: 0 <= i < |indent| ==> Blank(indent[i])
    requires line == indent + (Spaced(ws) + [' ']) + ['{']
    ensures Yields(line + ['\n'], AsLexemes(ws) + [Open])
  {
    IndentedYields(indent, ws, ' ');
    MarkYields('{');
    assert AsLexemes(ws) + Mark(' ') == AsLexemes(ws);
    Both(indent + (Spaced(ws) + [' ']), AsLexemes(ws), ['{'], [Open]);
    EndOfLine(line, AsLexemes(ws) + [Open]);
  }

  // ---------------------------------------------------------------- lines as directives

  function Lines(ls: seq<string>): string {
    if ls == [] then "" else (ls[0] + ['\n']) + Lines(ls[1..])
  }

  lemma {:induction false} LinesAppend(a: seq<string>, b: seq<string>)
    ensures Lines(a + b) == Lines(a) + Lines(b)
  {
    if a == [] {
      assert a + b == b;
    } else {
      assert (a + b)[1..] == a[1..] + b;
      LinesAppend(a[1..], b);
      Regroup(a[0] + ['\n'], Lines(a[1..]), Lines(b));
    }
  }

  lemma FlatOne(d: Directive)
    ensures d.Simple? ==> Flat([d]) == AsLexemes(d.words) + [End]
    ensures d.Block? ==> Flat([d]) == AsLexemes(d.words) + [Open] + Flat(d.inside) + [Close]
  {
    assert [d][1..] == [];
  }

  lemma FlatFirst(ds: seq<Directive>)
    requires ds != []
    ensures Flat(ds) == Flat([ds[0]]) + Flat(ds[1..])
  {
    FlatOne(ds[0]);
  }

  /** Text for text, directive for directive. */
  lemma {:induction false} ManyYield(ls: seq<string>, ds: seq<Directive>)
    requires |ls| == |ds| && forall i :: 0 <= i < |ls| ==> Yields(ls[i] + ['\n'], Flat([ds[i]]))
    ensures Yields(Lines(ls), Flat(ds))
    decreases |ls|
  {
    if ls == [] {
      NothingYields();
    } else {
      ManyYield(ls[1..], ds[1..]);
      FlatFirst(ds);
      Both(ls[0] + ['\n'], Flat([ds[0]]), Lines(ls[1..]), Flat(ds[1..]));
    }
  }

  lemma BlockYields(head: string, ws: seq<string>, body: string, ds: seq<Directive>, tail: string)
    requires Yields(head, AsLexemes(ws) + [Open]) && Yields(body, Flat(ds)) && Yields(tail, [Close])
    ensures Yields((head + body) + tail, Flat([Block(ws, ds)]))
  {
    Both(head, AsLexemes(ws) + [Open], body, Flat(ds));
    Both(head + body, AsLexemes(ws) + [Open] + Flat(ds), tail, [Close]);
    FlatOne(Block(ws, ds));
  }

  /** A line that closes a block. */
  lemma ClosingYields(line: string, indent: string)
    requires forall i :: 0 <= i < |indent| ==> Blank(indent[i])
    requires line == indent + ['}']
    ensures Yields(line + ['\n'], [Close])
  {
    BlanksYield(indent);
    MarkYields('}');
    Both(indent, [], ['}'], [Close]);
    assert [] + [Close] == [Close];
    EndOfLine(line, [Close]);
  }

  lemma {:induction false} LengthUntilOf(s: string, c: char, rest: string)
    requires c !in s
    ensures LengthUntil(s + ([c] + rest), c) == |s|
    decreases |s|
  {
    if s == "" {
      assert s + ([c] + rest) == [c] + rest;
    } else {
      assert (s + ([c] + rest))[1..] == s[1..] + ([c] + rest);
      LengthUntilOf(s[1..], c, rest);
    }
  }

  lemma QuotedYields(w: string)
    requires '"' !in w
    ensures Yields(['"'] + w + ['"'], [Word(w)])
  {
    forall rest ensures Lexemes((['"'] + w + ['"']) + rest) == [Word(w)] + Lexemes(rest) {
      var t := ['"'] + (w + (['"'] + rest));
      assert (['"'] + w + ['"']) + rest == t;
      assert t[1..] == w + (['"'] + rest);
      LengthUntilOf(w, '"', rest);
      assert t[1..|w| + 1] == w && t[|w| + 2..] == rest;
    }
  }

  lemma CommentYields(s: string)
    requires '\n' !in s
    ensures Yields(['#'] + s + ['\n'], [])
  {
    forall rest ensures Lexemes((['#'] + s + ['\n']) + rest) == [] + Lexemes(rest) {
      var t := (['#'] + s) + (['\n'] + rest);
      assert (['#'] + s + ['\n']) + rest == t;
      LengthUntilOf(['#'] + s, '\n', rest);
      assert t[|s| + 1..] == ['\n'] + rest && (['\n'] + rest)[1..] == rest;
    }
  }

  lemma OneLine(line: string)
    ensures Lines([line]) == line + ['\n']
  {
    assert [line][1..] == [];
  }

  lemma {:induction false} JoinedLines(ls: seq<string>)
    ensures Join(ls + [""]) == Lines(ls)
    ensures ls != [] ==> Join(ls) + ['\n'] == Lines(ls)
  {
    if ls == [] {
      assert ls + [""] == [""];
    } else {
      assert (ls + [""])[0] == ls[0] && (ls + [""])[1..] == ls[1..] + [""];
      JoinedLines(ls[1..]);
      if |ls| == 1 { assert ls[1..] == [] && Lines(ls[1..]) == ""; }
    }
  }

  lemma {:induction false} FlatAppend(a: seq<Directive>, b: seq<Directive>)
    ensures Flat(a + b) == Flat(a) + Flat(b)
    decreases |a|
  {
    if a == [] {
      assert a + b == b;
    } else {
      assert (a + b)[1..] == a[1..] + b;
      FlatFirst(a + b);
      FlatFirst(a);
      FlatAppend(a[1..], b);
      Regroup(Flat([a[0]]), Flat(a[1..]), Flat(b));
    }
  }

  predicate AllNamed(ds: seq<Directive>) {
    forall i :: 0 <= i < |ds| ==> ds[i].words != [] && (ds[i].Block? ==> Named(ds[i].inside))
  }

  lemma {:induction false} NamedEach(ds: seq<Directive>)
    requires AllNamed(ds)
    ensures Named(ds)
    decreases |ds|
  {
    if ds != [] { NamedEach(ds[1..]); }
  }

  lemma TwoWordLine(line: string, a: string, b: string)
    requires Plain(a) && Plain(b) && line == "    " + (a + [' '] + b + [';'])
    ensures Yields(line + ['\n'], Flat([Simple([a, b])]))
  {
    TwoSpaced(a, b);
    LineYields(line, "    ", [a, b]);
  }

  const SET_HEADER := "proxy_set_header"

  lemma HeaderIsPlain()
    ensures Plain(SET_HEADER) && "        proxy_set_header " == "        " + (SET_HEADER + [' '])
  {
  }

  lemma HeaderYields(name: string, value: string)
    requires Plain(name) && Plain(value)
    ensures Yields(HeaderLine(name, value) + ['\n'], Flat([Simple([SET_HEADER, name, value])]))
  {
    HeaderIsPlain();
    ThreeSpaced(SET_HEADER, name, value);
    HeaderIsLine("        ", SET_HEADER, name, value);
    LineYields(HeaderLine(name, value), "        ", [SET_HEADER, name, value]);
  }

  lemma HeaderIsLine(indent: string, a: string, b: string, c: string)
    ensures ((indent + (a + [' '])) + b + [' '] + c) + [';'] == indent + ((a + [' '] + (b + [' '] + c)) + [';'])
  {
  }

  lemma MoreLines(a: seq<string>, x: seq<Lexeme>, b: seq<string>, y: seq<Lexeme>)
    requires Yields(Lines(a), x) && Yields(Lines(b), y)
    ensures Yields(Lines(a + b), x + y)
  {
    LinesAppend(a, b);
    Both(Lines(a), x, Lines(b), y);
  }

  /** A block with its first and last line. */
  lemma BlockLines(head: string, ws: seq<string>, body: seq<string>, ds: seq<Directive>, tail: string)
    requires Yields(head + ['\n'], AsLexemes(ws) + [Open]) && Yields(Lines(body), Flat(ds)) && Yields(tail + ['\n'], [Close])
    ensures Yields(Lines([head] + body + [tail]), Flat([Block(ws, ds)]))
  {
    LinesAppend([head] + body, [tail]);
    LinesAppend([head], body);
    OneLine(head);
    OneLine(tail);
    BlockYields(head + ['\n'], ws, Lines(body), ds, tail + ['\n']);
  }

  lemma BlankLine()
    ensures Yields(Lines([""]), [])
  {
    MarkYields('\n');
    OneLine("");
    assert "" + ['\n'] == ['\n'];
  }
}
