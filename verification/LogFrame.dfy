/** One log line from the container to the subscriber: bounded, escaped, framed, and read back. */
module LogFrame {
  import opened Wrappers
  import opened Bytes
  import opened Json
  import opened Redaction
  import opened Utf8
  import Framing

  const MAX_LINE_BYTES := 16_384
  const MAX_FRAME_BYTES := 131_072

  datatype Line = Line(timestamp: string, stderr: bool, message: string, truncated: bool)

  lemma {:induction false} NoNewlineByte(s: string)
    requires '\n' !in s
    ensures Framing.NEWLINE !in EncodeAll(s)
  {
    if s != "" {
      NoNewlineByte(s[1..]);
      assert s[0] != '\n';
      assert Framing.NEWLINE !in Encode(s[0]);
    }
  }

  // ---------------------------------------------------------------- frames

  /** The words of a frame: the keys in their order, the type of a log frame, and the names of the streams. */
  datatype Words = Words(kind: string, timestamp: string, stream: string, message: string, truncated: string,
                         log: string, stdout: string, stderr: string)

  const WORDS := Words("type", "timestamp", "stream", "message", "truncated", "log", "STDOUT", "STDERR")

  function Members(l: Line, w: Words): seq<Member> {
    [Member(w.kind, Text(w.log)), Member(w.timestamp, Text(l.timestamp)),
     Member(w.stream, Text(if l.stderr then w.stderr else w.stdout)),
     Member(w.message, Text(l.message)), Member(w.truncated, Truth(l.truncated))]
  }

  function FrameText(l: Line): string {
    WriteObject(Members(l, WORDS), false)
  }

  function EncodeFrame(l: Line): Option<seq<byte>> {
    var payload := EncodeAll(FrameText(l));
    if |payload| > MAX_FRAME_BYTES then None else Some(payload + [Framing.NEWLINE])
  }

  function FromFields(timestamp: Value, stream: Value, message: Value, truncated: Value, w: Words): Option<Line> {
    if !timestamp.Text? || timestamp.text == "" || !message.Text? || |EncodeAll(message.text)| > MAX_LINE_BYTES || !truncated.Truth? then None
    else if stream == Text(w.stderr) then Some(Line(timestamp.text, true, message.text, truncated.truth))
    else if stream == Text(w.stdout) then Some(Line(timestamp.text, false, message.text, truncated.truth))
    else None
  }

  /** The five keys and no others, of the type of a log frame. */
  function FromPayload(m: map<string, Value>, w: Words): Option<Line> {
    if m.Keys != {w.kind, w.timestamp, w.stream, w.message, w.truncated} || m[w.kind] != Text(w.log) then None
    else FromFields(m[w.timestamp], m[w.stream], m[w.message], m[w.truncated], w)
  }

  /** Reads a log frame back, with the checks the subscriber makes; none of any other frame. */
  function DecodeText(t: string): Option<Line> {
    var payload := ParseObject(t);
    if payload == None then None else FromPayload(payload.value, WORDS)
  }

  predicate Distinct(w: Words) {
    && w.kind != w.timestamp && w.kind != w.stream && w.kind != w.message && w.kind != w.truncated
    && w.timestamp != w.stream && w.timestamp != w.message && w.timestamp != w.truncated
    && w.stream != w.message && w.stream != w.truncated && w.message != w.truncated
    && w.stdout != w.stderr
  }

  lemma WordsDiffer()
    ensures Distinct(WORDS)
  {
    assert |WORDS.kind| == 4 && |WORDS.timestamp| == |WORDS.truncated| == 9 && |WORDS.stream| == 6 && |WORDS.message| == 7;
    assert WORDS.timestamp[1] == 'i' && WORDS.truncated[1] == 'r' && WORDS.stdout[3] == 'O' && WORDS.stderr[3] == 'E';
  }

  lemma FieldsRoundTrip(l: Line, w: Words)
    requires Distinct(w) && l.timestamp != "" && |EncodeAll(l.message)| <= MAX_LINE_BYTES
    ensures FromPayload(Put(map[], Members(l, w)), w) == Some(l)
  {
    var ms := Members(l, w);
    PutFive(ms[0], ms[1], ms[2], ms[3], ms[4]);
    assert ms == [ms[0], ms[1], ms[2], ms[3], ms[4]];
    var m := Put(map[], ms);
    assert m.Keys == {w.kind, w.timestamp, w.stream, w.message, w.truncated};
  }

  /** A subscriber reads exactly the line that was written. */
  lemma FrameTextRoundTrip(l: Line)
    requires Yieldable(l)
    ensures DecodeText(FrameText(l)) == Some(l)
  {
    assert FrameText(l) + "" == FrameText(l);
    ObjectRoundTrip(Members(l, WORDS), false, "");
    WordsDiffer();
    FieldsRoundTrip(l, WORDS);
  }

  /** What a frame says to any reader of JSON. */
  lemma FrameSays(l: Line)
    ensures ParseObject(FrameText(l)) == Some(map[
              "type" := Text("log"), "timestamp" := Text(l.timestamp), "stream" := Text(if l.stderr then "STDERR" else "STDOUT"),
              "message" := Text(l.message), "truncated" := Truth(l.truncated)])
  {
    var ms := Members(l, WORDS);
    assert FrameText(l) + "" == FrameText(l);
    ObjectRoundTrip(ms, false, "");
    PutFive(ms[0], ms[1], ms[2], ms[3], ms[4]);
    assert ms == [ms[0], ms[1], ms[2], ms[3], ms[4]];
  }

  // ---------------------------------------------------------------- what a subscription yields

  predicate Digits(s: string, from: nat, to: nat) {
    from <= to <= |s| && forall i :: from <= i < to ==> '0' <= s[i] <= '9'
  }

  predicate Zone(s: string) {
    s == "Z" || (|s| == 6 && s[0] in "+-" && Digits(s, 1, 3) && s[3] == ':' && Digits(s, 4, 6))
  }

  predicate DockerTimestamp(s: string) {
    && |s| >= 20
    && Digits(s, 0, 4) && s[4] == '-' && Digits(s, 5, 7) && s[7] == '-' && Digits(s, 8, 10) && s[10] == 'T'
    && Digits(s, 11, 13) && s[13] == ':' && Digits(s, 14, 16) && s[16] == ':' && Digits(s, 17, 19)
    && (Zone(s[19..]) || (s[19] == '.' && exists n :: 21 <= n <= 29 && n < |s| && Digits(s, 20, n) && Zone(s[n..])))
  }

  predicate Yieldable(l: Line) {
    DockerTimestamp(l.timestamp) && |EncodeAll(l.message)| <= MAX_LINE_BYTES
  }

  lemma TimestampIsShortAscii(s: string)
    requires DockerTimestamp(s)
    ensures |s| <= 35 && IsAscii(s)
  {
    if Zone(s[19..]) {
      forall i | 19 <= i < |s| ensures (s[i] as int) < 0x80 { assert s[i] == s[19..][i - 19]; }
    } else {
      var n :| 21 <= n <= 29 && n < |s| && Digits(s, 20, n) && Zone(s[n..]);
      forall i | n <= i < |s| ensures (s[i] as int) < 0x80 { assert s[i] == s[n..][i - n]; }
    }
  }

  lemma StringSize(t: string)
    ensures |EncodeAll(WriteString(t, false))| <= 2 + 6 * |EncodeAll(t)| && '\n' !in WriteString(t, false)
  {
    EncodeConcat(['"'], Escape(t, false) + ['"']);
    EncodeConcat(Escape(t, false), ['"']);
    AsciiSize(['"']);
    EscapeSize(t, false);
  }

  /** No more bytes than this are written of a value. */
  function ValueBound(v: Value): nat {
    if v.Text? then 2 + 6 * |EncodeAll(v.text)| else 5
  }

  lemma ValueSize(v: Value)
    requires !v.Number?
    ensures |EncodeAll(WriteValue(v, false))| <= ValueBound(v) && '\n' !in WriteValue(v, false)
  {
    match v
    case Text(t) => StringSize(t);
    case Truth(b) => AsciiSize(if b then TRUE else FALSE);
    case Null => AsciiSize(NULL);
  }

  lemma MemberSize(m: Member)
    requires !m.value.Number?
    ensures |EncodeAll(WriteMember(m, false))| <= 3 + 6 * |EncodeAll(m.key)| + ValueBound(m.value)
    ensures '\n' !in WriteMember(m, false)
  {
    StringSize(m.key);
    ValueSize(m.value);
    EncodeConcat(WriteString(m.key, false), [':'] + WriteValue(m.value, false));
    EncodeConcat([':'], WriteValue(m.value, false));
    AsciiSize([':']);
  }

  function MembersBound(ms: seq<Member>): nat {
    if ms == [] then 0 else 4 + 6 * |EncodeAll(ms[0].key)| + ValueBound(ms[0].value) + MembersBound(ms[1..])
  }

  lemma {:induction false} MembersSize(ms: seq<Member>)
    requires ms != [] && forall i :: 0 <= i < |ms| ==> !ms[i].value.Number?
    ensures |EncodeAll(WriteMembers(ms, false))| <= MembersBound(ms) && '\n' !in WriteMembers(ms, false)
    decreases |ms|
  {
    MemberSize(ms[0]);
    if |ms| == 1 {
      EncodeConcat(WriteMember(ms[0], false), ['}']);
      AsciiSize(['}']);
    } else {
      MembersSize(ms[1..]);
      EncodeConcat(WriteMember(ms[0], false), [','] + WriteMembers(ms[1..], false));
      EncodeConcat([','], WriteMembers(ms[1..], false));
      AsciiSize([',']);
    }
  }

  lemma ObjectSize(ms: seq<Member>)
    requires ms != [] && forall i :: 0 <= i < |ms| ==> !ms[i].value.Number?
    ensures |EncodeAll(WriteObject(ms, false))| <= 1 + MembersBound(ms) && '\n' !in WriteObject(ms, false)
  {
    MembersSize(ms);
    EncodeConcat(['{'], WriteMembers(ms, false));
    AsciiSize(['{']);
  }

  predicate Short(s: string) {
    |EncodeAll(s)| <= 9
  }

  lemma WordsAreShort()
    ensures Short(WORDS.kind) && Short(WORDS.timestamp) && Short(WORDS.stream) && Short(WORDS.message) && Short(WORDS.truncated)
    ensures Short(WORDS.log) && Short(WORDS.stdout) && Short(WORDS.stderr)
  {
    WordsAreAscii();
    AsciiIsShort(WORDS.kind);
    AsciiIsShort(WORDS.timestamp);
    AsciiIsShort(WORDS.stream);
    AsciiIsShort(WORDS.message);
    AsciiIsShort(WORDS.truncated);
    AsciiIsShort(WORDS.log);
    AsciiIsShort(WORDS.stdout);
    AsciiIsShort(WORDS.stderr);
  }

  predicate ShortAscii(s: string) {
    IsAscii(s) && |s| <= 9
  }

  lemma AsciiIsShort(s: string)
    requires ShortAscii(s)
    ensures Short(s)
  {
    AsciiSize(s);
  }

  lemma WordsAreAscii()
    ensures ShortAscii(WORDS.kind) && ShortAscii(WORDS.timestamp) && ShortAscii(WORDS.stream) && ShortAscii(WORDS.message)
    ensures ShortAscii(WORDS.truncated) && ShortAscii(WORDS.log) && ShortAscii(WORDS.stdout) && ShortAscii(WORDS.stderr)
  {
  }

  lemma BoundOf(m: Member, ms: seq<Member>)
    requires Short(m.key)
    ensures MembersBound([m] + ms) <= 58 + ValueBound(m.value) + MembersBound(ms)
  {
    assert ([m] + ms)[1..] == ms;
  }

  lemma FiveBounds(a: Member, b: Member, c: Member, d: Member, e: Member)
    requires Short(a.key) && Short(b.key) && Short(c.key) && Short(d.key) && Short(e.key)
    ensures MembersBound([a, b, c, d, e])
            <= 290 + ValueBound(a.value) + ValueBound(b.value) + ValueBound(c.value) + ValueBound(d.value) + ValueBound(e.value)
  {
    BoundOf(a, [b, c, d, e]);
    BoundOf(b, [c, d, e]);
    BoundOf(c, [d, e]);
    BoundOf(d, [e]);
    BoundOf(e, []);
    assert [a, b, c, d, e] == [a] + [b, c, d, e] && [b, c, d, e] == [b] + [c, d, e] && [c, d, e] == [c] + [d, e];
    assert [d, e] == [d] + [e] && [e] == [e] + [];
  }

  lemma FrameIsShort(l: Line, w: Words)
    requires |EncodeAll(l.timestamp)| <= 35 && |EncodeAll(l.message)| <= MAX_LINE_BYTES
    requires Short(w.kind) && Short(w.timestamp) && Short(w.stream) && Short(w.message) && Short(w.truncated)
    requires Short(w.log) && Short(w.stdout) && Short(w.stderr)
    ensures |EncodeAll(WriteObject(Members(l, w), false))| < MAX_FRAME_BYTES && '\n' !in WriteObject(Members(l, w), false)
  {
    var ms := Members(l, w);
    ObjectSize(ms);
    FiveBounds(ms[0], ms[1], ms[2], ms[3], ms[4]);
    assert ms == [ms[0], ms[1], ms[2], ms[3], ms[4]];
  }

  /** Every yielded line fits into one frame, so the server never refuses one, and its payload has no newline. */
  lemma EveryLineFits(l: Line)
    requires Yieldable(l)
    ensures var payload := EncodeAll(FrameText(l));
            EncodeFrame(l) == Some(payload + [Framing.NEWLINE]) && |payload| < MAX_FRAME_BYTES && Framing.NEWLINE !in payload
  {
    TimestampIsShortAscii(l.timestamp);
    AsciiSize(l.timestamp);
    WordsAreShort();
    FrameIsShort(l, WORDS);
    NoNewlineByte(FrameText(l));
  }

  function Payloads(lines: seq<Line>): seq<seq<byte>> {
    seq(|lines|, i requires 0 <= i < |lines| => EncodeAll(FrameText(lines[i])))
  }

  /** A whole stream of yielded lines survives framing, UTF-8 and JSON. */
  lemma StreamRoundTrip(lines: seq<Line>, rest: seq<byte>)
    requires forall i :: 0 <= i < |lines| ==> Yieldable(lines[i])
    ensures Framing.Framable(Payloads(lines), MAX_FRAME_BYTES)
    ensures Framing.Cut(Framing.Frames(Payloads(lines)) + rest, |lines|) == Some((Payloads(lines), rest))
    ensures forall i :: 0 <= i < |lines| ==> DecodeText(Decode(Payloads(lines)[i], "")) == Some(lines[i])
  {
    forall i | 0 <= i < |lines|
      ensures Framing.NEWLINE !in Payloads(lines)[i] && |Payloads(lines)[i]| <= MAX_FRAME_BYTES
      ensures DecodeText(Decode(Payloads(lines)[i], "")) == Some(lines[i])
    {
      EveryLineFits(lines[i]);
      EncodingRoundTrip(FrameText(lines[i]), "");
      FrameTextRoundTrip(lines[i]);
    }
    Framing.FramesRoundTrip(Payloads(lines), MAX_FRAME_BYTES, rest);
  }

  // ---------------------------------------------------------------- the subscription

  datatype Output = Output(payload: seq<byte>, stderr: bool, truncated: bool)

  datatype Event = NoEvent | LineEvent(line: Line) | EndEvent | Unavailable

  const SPACE: byte := 32
  const REPLACEMENT := "\U{FFFD}"

  function FindSpace(b: seq<byte>): (n: nat)
    ensures n <= |b| && SPACE !in b[..n] && (n < |b| ==> b[n] == SPACE)
  {
    if b == [] || b[0] == SPACE then 0
    else
      var n := FindSpace(b[1..]);
      assert b[..n + 1] == [b[0]] + b[1..][..n];
      n + 1
  }

  /** All bytes are ASCII. */
  predicate AsciiBytes(b: seq<byte>) {
    forall i :: 0 <= i < |b| ==> b[i] < 0x80
  }

  function AsciiText(b: seq<byte>): string
    requires AsciiBytes(b)
  {
    seq(|b|, i requires 0 <= i < |b| => b[i] as char)
  }

  /** Something readable stands before the first space. */
  predicate HasStamp(o: Output) {
    FindSpace(o.payload) < |o.payload| && AsciiBytes(o.payload[..FindSpace(o.payload)])
  }

  function Stamp(o: Output): string
    requires HasStamp(o)
  {
    AsciiText(o.payload[..FindSpace(o.payload)])
  }

  /** Docker's own prefix is there: a timestamp and a space. */
  predicate WellFormed(o: Output) {
    HasStamp(o) && DockerTimestamp(Stamp(o))
  }

  function Message(o: Output, values: seq<seq<byte>>): seq<byte>
    requires HasStamp(o) && NonEmpty(values)
  {
    Redact(o.payload[FindSpace(o.payload) + 1..], values)
  }

  function Bounded(message: seq<byte>): seq<byte> {
    if |message| <= MAX_LINE_BYTES then message else message[..MAX_LINE_BYTES]
  }

  /** No secret value that cannot overlap the replacement is in the bytes a line is made of. */
  lemma MessageHides(o: Output, values: seq<seq<byte>>, v: seq<byte>)
    requires HasStamp(o) && NonEmpty(values) && v in values && !Touches(v, EncodeAll(REDACTED))
    ensures !Occurs(v, Bounded(Message(o, values)))
  {
    var message := Message(o, values);
    RedactedHides(o.payload[FindSpace(o.payload) + 1..], values, v);
    if i :| 0 <= i <= |Bounded(message)| && At(v, Bounded(message), i) {
      assert At(v, message, i);
    }
  }

  /** The bounded message with malformed bytes replaced, before the replacements are bounded again. */
  function Readable(o: Output, values: seq<seq<byte>>): string
    requires HasStamp(o) && NonEmpty(values)
  {
    Decode(Bounded(Message(o, values)), REPLACEMENT)
  }

  /** What the line says about the output it came from. */
  predicate Renders(l: Line, o: Output, values: seq<seq<byte>>)
    requires HasStamp(o) && NonEmpty(values)
  {
    && l.timestamp == Stamp(o) && l.stderr == o.stderr
    && LongestFitting(Readable(o, values), MAX_LINE_BYTES, l.message)
    && (l.truncated <==> o.truncated || |Message(o, values)| > MAX_LINE_BYTES || l.message != Readable(o, values))
  }

  /** The first well-formed output, if the first count were consumed to find it. */
  predicate FirstWellFormed(outputs: seq<Output>, count: nat) {
    && 0 < count <= |outputs| && WellFormed(outputs[count - 1])
    && forall i :: 0 <= i < count - 1 ==> !WellFormed(outputs[i])
  }

  class ServiceLogSubscription {
    const redactions: seq<seq<byte>>
    var outputs: seq<Output>

    constructor (redactions: seq<seq<byte>>, outputs: seq<Output>)
      ensures this.redactions == redactions && this.outputs == outputs
    {
      this.redactions, this.outputs := redactions, outputs;
    }

    method Render(o: Output) returns (line: Line)
      requires NonEmpty(redactions)
      requires WellFormed(o)
      ensures Yieldable(line) && Renders(line, o, redactions)
    {
      var text, cut := BoundedUtf8(Readable(o, redactions), MAX_LINE_BYTES);
      line := Line(Stamp(o), o.stderr, text, o.truncated || |Message(o, redactions)| > MAX_LINE_BYTES || cut);
    }

    /** The next well-formed output as a line; malformed ones before it are skipped. */
    method Receive() returns (event: Event)
      requires NonEmpty(redactions)
      modifies this
      ensures |outputs| <= |old(outputs)| && outputs == old(outputs)[|old(outputs)| - |outputs|..]
      ensures event.LineEvent? ==>
        var count := |old(outputs)| - |outputs|;
        && FirstWellFormed(old(outputs), count) && Renders(event.line, old(outputs)[count - 1], redactions)
        && Yieldable(event.line) && EncodeFrame(event.line).Some?
      ensures !event.LineEvent? ==> forall i :: 0 <= i < |old(outputs)| - |outputs| ==> !WellFormed(old(outputs)[i])
      ensures event == EndEvent || event == Unavailable ==> outputs == []
    {
      ghost var count := 0;
      while true
        invariant count <= |old(outputs)| && outputs == old(outputs)[count..]
        invariant forall i :: 0 <= i < count ==> !WellFormed(old(outputs)[i])
        decreases |outputs|
      {
        var idle: bool, failed: bool := *, *;
        if idle { return NoEvent; }
        if outputs == [] { return if failed then Unavailable else EndEvent; }
        var o := outputs[0];
        outputs := outputs[1..];
        count := count + 1;
        if WellFormed(o) {
          event := LineOf(o);
          return;
        }
      }
    }

    method LineOf(o: Output) returns (event: Event)
      requires NonEmpty(redactions) && WellFormed(o)
      ensures event.LineEvent? && Renders(event.line, o, redactions) && Yieldable(event.line) && EncodeFrame(event.line).Some?
    {
      var line := Render(o);
      EveryLineFits(line);
      event := LineEvent(line);
    }
  }
}
