/** The text of the journal of a routing change, and that recovery reads back what was written. */
module EdgeJournal {
  import opened Wrappers
  import opened Json
  import opened Utf8
  import EdgeHostname

  const MAX_CONFIG_BYTES := 1_048_576
  const VERSION := 2

  datatype Phase = Prepared | Committed

  datatype Transaction = Transaction(previous: string, candidate: string, previousHostname: Option<string>, phase: Phase)

  /** The words of a journal: the keys in their order, and the names of the phases. */
  datatype Words = Words(candidate: string, phase: string, previous: string, hostname: string, version: string,
                         prepared: string, committed: string)

  const WORDS := Words("candidate", "phase", "previous", "previous_hostname", "version", "PREPARED", "COMMITTED")

  function PhaseName(p: Phase, w: Words): string {
    match p
    case Prepared => w.prepared
    case Committed => w.committed
  }

  function PhaseOf(name: string, w: Words): Option<Phase> {
    if name == w.prepared then Some(Prepared) else if name == w.committed then Some(Committed) else None
  }

  function HostnameValue(h: Option<string>): Value {
    if h.Some? then Text(h.value) else Null
  }

  /** The members in the order of their keys. */
  function Members(t: Transaction, w: Words): seq<Member> {
    [Member(w.candidate, Text(t.candidate)), Member(w.phase, Text(PhaseName(t.phase, w))), Member(w.previous, Text(t.previous)),
     Member(w.hostname, HostnameValue(t.previousHostname)), Member(w.version, Number(VERSION))]
  }

  function Write(t: Transaction): string {
    WriteObject(Members(t, WORDS), true) + ['\n']
  }

  predicate Bounded(config: string) {
    |EncodeAll(config)| <= MAX_CONFIG_BYTES
  }

  predicate Acceptable(t: Transaction) {
    && Bounded(t.previous) && Bounded(t.candidate)
    && (t.previousHostname.Some? ==> EdgeHostname.Valid(t.previousHostname.value))
  }

  function FromFields(previous: Value, candidate: Value, hostname: Value, phase: Option<Phase>, version: Value): Option<Transaction> {
    if phase == None || version != Number(VERSION) || !previous.Text? || !candidate.Text? || hostname.Number? then None
    else
      var t := Transaction(previous.text, candidate.text, if hostname.Text? then Some(hostname.text) else None, phase.value);
      if Acceptable(t) then Some(t) else None
  }

  /** The five keys and no others, and what they say. */
  function FromPayload(m: map<string, Value>, w: Words): Option<Transaction> {
    if m.Keys != {w.version, w.previous, w.candidate, w.phase, w.hostname} then None
    else
      var phase := if m[w.phase].Text? then PhaseOf(m[w.phase].text, w) else None;
      FromFields(m[w.previous], m[w.candidate], m[w.hostname], phase, m[w.version])
  }

  /** Reads a journal with the checks recovery makes; none when it is invalid. */
  function Read(text: string): Option<Transaction> {
    var payload := ParseObject(text);
    if payload == None then None else FromPayload(payload.value, WORDS)
  }

  predicate Distinct(w: Words) {
    && w.candidate != w.phase && w.candidate != w.previous && w.candidate != w.hostname && w.candidate != w.version
    && w.phase != w.previous && w.phase != w.hostname && w.phase != w.version
    && w.previous != w.hostname && w.previous != w.version && w.hostname != w.version
    && w.prepared != w.committed
  }

  lemma WordsDiffer()
    ensures Distinct(WORDS)
  {
    assert |WORDS.candidate| == 9 && |WORDS.phase| == 5 && |WORDS.previous| == 8 && |WORDS.hostname| == 17 && |WORDS.version| == 7;
    assert |WORDS.prepared| == 8 && |WORDS.committed| == 9;
  }

  lemma FieldsRoundTrip(t: Transaction, w: Words)
    requires Distinct(w)
    ensures FromPayload(Put(map[], Members(t, w)), w) == if Acceptable(t) then Some(t) else None
  {
    var ms := Members(t, w);
    PutFive(ms[0], ms[1], ms[2], ms[3], ms[4]);
    assert ms == [ms[0], ms[1], ms[2], ms[3], ms[4]];
    var m := Put(map[], ms);
    assert m.Keys == {w.version, w.previous, w.candidate, w.phase, w.hostname};
    assert PhaseOf(PhaseName(t.phase, w), w) == Some(t.phase);
  }

  /** What a journal says to any reader of JSON. */
  lemma JournalSays(t: Transaction)
    ensures ParseObject(Write(t)) == Some(map[
              "candidate" := Text(t.candidate), "phase" := Text(if t.phase == Committed then "COMMITTED" else "PREPARED"),
              "previous" := Text(t.previous),
              "previous_hostname" := if t.previousHostname.Some? then Text(t.previousHostname.value) else Null,
              "version" := Number(2)])
  {
    var ms := Members(t, WORDS);
    assert Skip(['\n']) == "";
    ObjectRoundTrip(ms, true, ['\n']);
    PutFive(ms[0], ms[1], ms[2], ms[3], ms[4]);
    assert ms == [ms[0], ms[1], ms[2], ms[3], ms[4]];
  }

  /** Recovery reads back exactly what was written, if and only if it passes the checks. */
  lemma JournalRoundTrip(t: Transaction)
    ensures Read(Write(t)) == if Acceptable(t) then Some(t) else None
  {
    assert Skip(['\n']) == "";
    ObjectRoundTrip(Members(t, WORDS), true, ['\n']);
    WordsDiffer();
    FieldsRoundTrip(t, WORDS);
  }
}
