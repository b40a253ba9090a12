// The process summary stored with a turn: a nested document built from the turn's state.
module ProcessSummary {
  import opened Options
  import opened Text
  import opened FirstSeen

  // ---------------------------------------------------------------------
  // Documents
  // ---------------------------------------------------------------------

  datatype Json =
    | Null
    | Bool(b: bool)
    | Num(n: int)
    | Str(s: string)
    | Arr(items: seq<Json>)
    | Obj(fields: Fields)

  type Fields = map<string, Json>

  // What Python's "or" replaces by its right operand.
  predicate Falsy(j: Json) {
    match j
    case Null => true
    case Bool(b) => !b
    case Num(n) => n == 0
    case Str(s) => s == ""
    case Arr(items) => items == []
    case Obj(fields) => fields == map[]
  }

  // An entry added only when there is something to say.
  function Put(m: Fields, present: bool, key: string, value: Json): Fields {
    if present then m[key := value] else m
  }

  function Strings(xs: seq<string>): seq<Json> {
    seq(|xs|, i requires 0 <= i < |xs| => Str(xs[i]))
  }

  function NonEmpty(xs: seq<string>): seq<string> {
    if xs == [] then []
    else NonEmpty(xs[..|xs| - 1]) + (if xs[|xs| - 1] != "" then [xs[|xs| - 1]] else [])
  }

  function Either(a: string, b: string): string {
    if a != "" then a else b
  }

  // ---------------------------------------------------------------------
  // The state of a turn
  // ---------------------------------------------------------------------

  datatype Status = Pending | Selected | Rejected | Reference

  datatype Table = Table(name: string, alt: string, description: string, status: Status, reason: string)

  // A decision of the pipeline; infer says whether a value was inferred.
  datatype Signal =
    Signal(infer: bool, turn: Option<string>, question: string, value: Option<string>, source: string, reason: string)

  datatype Period = Period(title: string, resolve: string, kind: string)

  // What the interpretation shows of a query.
  datatype View = View(
    rewritten: string,
    original: string,
    measures: seq<string>,
    filters: seq<string>,
    period: Option<Period>,
    entities: seq<string>,
    dimensions: seq<string>
  )

  // Further things consulted: their texts, and whether they were found relevant.
  datatype Consulted = Consulted(text: string, relevant: bool)

  datatype Outcome = Outcome(sql: string, summary: string, rows: Option<int>, rowLabel: string, judgment: string)

  // Q and K are the classes of normalised queries and of knowledge items.
  datatype State<+Q, +K> = State(
    turn: string,
    intentLabel: string,
    continuation: bool,
    normalized: Option<Q>,
    tables: seq<Table>,
    sql: string,                       // the statement validated or generated, if any
    sqlTables: set<string>,            // the tables found in it
    useCases: seq<Consulted>,
    manuals: seq<Consulted>,
    terms: seq<Consulted>,
    knowledge: seq<K>,
    decomposition: Fields,
    rationale: string,                 // of an ambiguous choice of database, or empty
    signals: seq<Signal>,
    assumptions: seq<string>,
    outcome: Outcome
  )

  // How the two classes are written to a document and validated from one.
  datatype Models<!Q, !K> = Models(
    view: Q -> View,
    dumpQuery: Q -> Fields,
    loadQuery: Fields -> Option<Q>,
    dumpItem: K -> Fields,
    loadItem: Fields -> Option<K>
  )

  const DB_QUESTION := "\U{C0AC}\U{C6A9}\U{D560} DB \U{ACB0}\U{C815}"
  const GATE := "readiness_gate"
  const CLASSIFIER := "intent_classifier"
  const MANUAL_LENGTH := 60
  const ELLIPSIS := "\U{2026}"

  // ---------------------------------------------------------------------
  // Intent, interpretation, context and validation
  // ---------------------------------------------------------------------

  function IntentSection<Q, K>(s: State<Q, K>): Fields {
    map["label" := Str(s.intentLabel), "is_continuation" := Bool(s.continuation)]
  }

  function PeriodText(p: Period): string {
    Either(Either(p.title, p.resolve), p.kind)
  }

  // The part shown to the user; the query itself comes on top.
  function Shown(v: View): Fields {
    var m0 := Put(map[], v.rewritten != "" && v.rewritten != v.original, "rewritten_query", Str(v.rewritten));
    var m1 := Put(m0, NonEmpty(v.measures) != [], "measures", Arr(Strings(NonEmpty(v.measures))));
    var m2 := Put(m1, NonEmpty(v.filters) != [], "filters", Arr(Strings(NonEmpty(v.filters))));
    var m3 := if v.period.Some? then m2["period" := Str(PeriodText(v.period.value))] else m2;
    var m4 := Put(m3, v.entities != [], "entities", Arr(Strings(v.entities)));
    Put(m4, v.dimensions != [], "dimensions", Arr(Strings(v.dimensions)))
  }

  function InterpretationSection<Q, K>(s: State<Q, K>, m: Models<Q, K>): Fields {
    match s.normalized
    case None => map[]
    case Some(q) => Shown(m.view(q))["_raw" := Obj(m.dumpQuery(q))]
  }

  function StatusText(status: Status): string {
    match status
    case Pending => "PENDING"
    case Selected => "SELECTED"
    case Rejected => "REJECTED"
    case Reference => "REFERENCE"
  }

  function LabelOf(t: Table): string {
    Either(Either(t.alt, t.description), t.name)
  }

  // Names in the statement, in upper case; none without a statement.
  predicate InStatement<Q, K>(s: State<Q, K>, name: string) {
    s.sql != "" && exists t :: t in s.sqlTables && Upper(t) == Upper(name)
  }

  function TableEntry(t: Table, used: bool): Json {
    Obj(map["name" := Str(t.name), "label" := Str(LabelOf(t)), "status" := Str(StatusText(t.status)),
            "used" := Bool(used), "reason" := Str(t.reason)])
  }

  function RejectedEntry(t: Table): Json {
    Obj(map["name" := Str(t.name), "label" := Str(LabelOf(t))])
  }

  // The entries of the first n tables that were not rejected.
  function Accepted<Q, K>(s: State<Q, K>, n: nat): seq<Json>
    requires n <= |s.tables|
  {
    if n == 0 then []
    else
      var t := s.tables[n - 1];
      Accepted(s, n - 1) + (if t.status == Rejected then [] else [TableEntry(t, InStatement(s, t.name))])
  }

  function RejectedOnes(ts: seq<Table>): seq<Json> {
    if ts == [] then []
    else
      var t := ts[|ts| - 1];
      RejectedOnes(ts[..|ts| - 1]) + (if t.status == Rejected then [RejectedEntry(t)] else [])
  }

  function Relevant(cs: seq<Consulted>): seq<string> {
    if cs == [] then []
    else Relevant(cs[..|cs| - 1]) + (if cs[|cs| - 1].relevant then [cs[|cs| - 1].text] else [])
  }

  function Shorten(text: string): string {
    if |text| > MANUAL_LENGTH then text[..MANUAL_LENGTH] + ELLIPSIS else text
  }

  function ShortenAll(xs: seq<string>): seq<string> {
    seq(|xs|, i requires 0 <= i < |xs| => Shorten(xs[i]))
  }

  function Dumps<K>(items: seq<K>, dump: K -> Fields): seq<Json> {
    seq(|items|, i requires 0 <= i < |items| => Obj(dump(items[i])))
  }

  // Sections of the context that would be empty are left out.
  function ContextSection<Q, K>(s: State<Q, K>, m: Models<Q, K>): Fields {
    var accepted, rejected := Accepted(s, |s.tables|), RejectedOnes(s.tables);
    var m0 := Put(map[], accepted != [], "tables", Arr(accepted));
    var m1 := Put(m0, rejected != [], "rejected_tables", Arr(rejected));
    var m2 := Put(m1, Relevant(s.useCases) != [], "use_cases", Arr(Strings(NonEmpty(Relevant(s.useCases)))));
    var m3 := Put(m2, Relevant(s.manuals) != [], "manuals", Arr(Strings(ShortenAll(NonEmpty(Relevant(s.manuals))))));
    var m4 := Put(m3, Relevant(s.terms) != [], "biz_terms", Arr(Strings(Relevant(s.terms))));
    Put(m4, s.knowledge != [], "_knowledge_items", Arr(Dumps(s.knowledge, m.dumpItem)))
  }

  function ValidationSection(o: Outcome): Fields {
    var m0 := Put(map[], o.sql != "", "sql", Str(o.sql));
    var m1 := Put(m0, o.summary != "", "summary", Str(o.summary));
    var m2 := if o.rows.Some?
              then m1["row_count" := Num(if o.rows.value > 0 then o.rows.value else 0)]["row_label" := Str(o.rowLabel)]
              else m1;
    Put(m2, o.judgment != "", "viz_judgment", Str(o.judgment))
  }

  // ---------------------------------------------------------------------
  // Decisions of the pipeline
  // ---------------------------------------------------------------------

  // The choice of a database is reported without a reason.
  datatype Inference = Inference(question: string, value: string, source: string, reason: Option<string>)

  // An inference and the key duplicates are recognised by.
  datatype Candidate = Candidate(inference: Inference, key: string)

  // A missing value prints as None.
  function Printed(value: Option<string>): string {
    if value.Some? then value.value else "None"
  }

  function Key(question: string, value: Option<string>): string {
    question + "|" + Printed(value)
  }

  predicate OfTurn(s: Signal, turn: string) {
    turn != "" && s.infer && s.turn == Some(turn)
  }

  function InferenceOf(s: Signal): Inference {
    Inference(s.question, if s.value.Some? then s.value.value else "", s.source, Some(s.reason))
  }

  function AsCandidate(s: Signal): Candidate {
    Candidate(InferenceOf(s), Key(s.question, s.value))
  }

  // The inferences of the turn among the signals, repetitions included.
  function FromSignals(signals: seq<Signal>, turn: string): seq<Candidate> {
    if signals == [] then []
    else
      var last := signals[|signals| - 1];
      FromSignals(signals[..|signals| - 1], turn) + (if OfTurn(last, turn) then [AsCandidate(last)] else [])
  }

  function FromDecision(rationale: string): seq<Candidate> {
    if rationale == "" then []
    else [Candidate(Inference(DB_QUESTION, rationale, GATE, None), Key(DB_QUESTION, Some(rationale)))]
  }

  function Candidates<Q, K>(s: State<Q, K>): seq<Candidate> {
    FromDecision(s.rationale) + FromSignals(s.signals, s.turn)
  }

  function KeyOf(c: Candidate): string {
    c.key
  }

  // The first candidate with each key.
  function Leading<Q, K>(s: State<Q, K>): seq<Candidate> {
    Firsts(Candidates(s), KeyOf)
  }

  function InferenceEntry(i: Inference): Json {
    var m := map["question" := Str(i.question), "value" := Str(i.value), "source_node" := Str(i.source)];
    Obj(if i.reason.Some? then m["reason" := Str(i.reason.value)] else m)
  }

  function InferenceEntries(cs: seq<Candidate>): seq<Json> {
    seq(|cs|, i requires 0 <= i < |cs| => InferenceEntry(cs[i].inference))
  }

  // One text is part of the other.
  predicate Overlaps(a: string, b: string) {
    Contains(b, a) || Contains(a, b)
  }

  // The assumptions that repeat no inferred value.
  function Open(assumptions: seq<string>, cs: seq<Candidate>): seq<string> {
    if assumptions == [] then []
    else
      var a := assumptions[|assumptions| - 1];
      Open(assumptions[..|assumptions| - 1], cs) +
      (if exists i :: 0 <= i < |cs| && cs[i].inference.value != "" && Overlaps(a, cs[i].inference.value)
       then [] else [a])
  }

  const NOTICE := Str("\U{B2E4}\U{B978} \U{AE30}\U{C900}\U{C744} \U{C6D0}\U{D558}\U{C2DC}\U{BA74} " +
    "\U{B9D0}\U{C500}\U{D574} \U{C8FC}\U{C138}\U{C694}")

  // Empty when there is nothing to report.
  function DecisionSection<Q, K>(s: State<Q, K>): Fields {
    var leading := Leading(s);
    var pending := Open(s.assumptions, leading);
    if leading == [] && pending == [] then map[]
    else
      var m0 := Put(map[], leading != [], "inferences", Arr(InferenceEntries(leading)));
      var m1 := Put(m0, pending != [], "pending_assumptions", Arr(Strings(pending)));
      m1["notice" := NOTICE]
  }

  // ---------------------------------------------------------------------
  // The document
  // ---------------------------------------------------------------------

  // The intent is never empty, so there always is a summary.
  function Build<Q, K>(s: State<Q, K>, m: Models<Q, K>): (r: Option<Fields>)
    ensures r.Some?
  {
    var intent, interpretation := IntentSection(s), InterpretationSection(s, m);
    var context, validation := ContextSection(s, m), ValidationSection(s.outcome);
    assert "label" in intent;
    if intent == map[] && interpretation == map[] && context == map[] && validation == map[] then None
    else
      var m0 := map["intent" := Obj(intent), "interpretation" := Obj(interpretation),
                    "context" := Obj(context), "validation" := Obj(validation)];
      var m1 := Put(m0, DecisionSection(s) != map[], "ai_decisions", Obj(DecisionSection(s)));
      Some(Put(m1, s.decomposition != map[], "_query_decomposition", Obj(s.decomposition)))
  }

  // ---------------------------------------------------------------------
  // The loop over the signals
  // ---------------------------------------------------------------------

  // The set of keys decides what is a repetition.
  method BuildInferences<Q, K>(s: State<Q, K>) returns (leading: seq<Candidate>)
    ensures leading == Leading(s)
  {
    hide Firsts, HasKey, Key, FromSignals;
    leading := FromDecision(s.rationale);
    var seen: set<string> := if s.rationale != "" then {Key(DB_QUESTION, Some(s.rationale))} else {};
    FirstDecision(s.rationale);
    ghost var sofar := FromDecision(s.rationale);
    NoSignals(s.turn);
    assert s.signals[..0] == [] && sofar + [] == sofar;
    for i := 0 to |s.signals|
      invariant sofar == FromDecision(s.rationale) + FromSignals(s.signals[..i], s.turn)
      invariant leading == Firsts(sofar, KeyOf)
      invariant forall k :: k in seen <==> HasKey(sofar, KeyOf, k)
    {
      SignalsPush(s.signals, i, s.turn);
      if OfTurn(s.signals[i], s.turn) {
        var c := AsCandidate(s.signals[i]);
        OneMore(sofar, c);
        sofar := sofar + [c];
        if c.key !in seen {
          seen := seen + {c.key};
          leading := leading + [c];
        }
      }
    }
    assert s.signals[..|s.signals|] == s.signals;
  }

  lemma NoSignals(turn: string)
    ensures FromSignals([], turn) == []
  {
  }

  lemma SignalsPush(signals: seq<Signal>, i: nat, turn: string)
    requires i < |signals|
    ensures FromSignals(signals[..i + 1], turn) ==
      FromSignals(signals[..i], turn) + (if OfTurn(signals[i], turn) then [AsCandidate(signals[i])] else [])
  {
    assert signals[..i + 1][..i] == signals[..i];
  }

  lemma FirstDecision(rationale: string)
    ensures Firsts(FromDecision(rationale), KeyOf) == FromDecision(rationale)
    ensures forall k :: HasKey(FromDecision(rationale), KeyOf, k) <==>
      rationale != "" && k == Key(DB_QUESTION, Some(rationale))
  {
    var cs := FromDecision(rationale);
    if rationale != "" {
      assert cs[..0] == [] && Firsts(cs, KeyOf) == [] + [cs[0]];
      forall k ensures HasKey(cs, KeyOf, k) <==> k == cs[0].key {
        assert KeyOf(cs[0]) == cs[0].key;
      }
    }
  }

  lemma OneMore(before: seq<Candidate>, c: Candidate)
    ensures Firsts(before + [c], KeyOf) ==
      Firsts(before, KeyOf) + (if HasKey(before, KeyOf, c.key) then [] else [c])
    ensures forall k :: HasKey(before + [c], KeyOf, k) <==> HasKey(before, KeyOf, k) || k == c.key
  {
    FirstsPush(before, c, KeyOf);
    assert Firsts(before, KeyOf) + [] == Firsts(before, KeyOf);
    forall k ensures HasKey(before + [c], KeyOf, k) <==> HasKey(before, KeyOf, k) || k == c.key {
      HasKeyPush(before, c, KeyOf, k);
    }
  }

  // ---------------------------------------------------------------------
  // Keys
  // ---------------------------------------------------------------------

  // The question q1 and its bar begin q2, and x says the rest of q2, a bar and y.
  predicate Runs(q1: string, x: string, q2: string, y: string) {
    q1 + "|" <= q2 && x == q2[|q1| + 1..] + "|" + y
  }

  // Two keys are the same exactly if question and printed value are, or if one question
  // runs on into the other's value.
  lemma KeysMeet(q1: string, v1: Option<string>, q2: string, v2: Option<string>)
    ensures Key(q1, v1) == Key(q2, v2) <==>
      || (q1 == q2 && Printed(v1) == Printed(v2))
      || Runs(q1, Printed(v1), q2, Printed(v2))
      || Runs(q2, Printed(v2), q1, Printed(v1))
  {
    var x, y := Printed(v1), Printed(v2);
    if |q1| == |q2| {
      SameLength(q1, x, q2, y);
    } else if |q1| < |q2| {
      Longer(q1, x, q2, y);
    } else {
      Longer(q2, y, q1, x);
    }
  }

  lemma SameLength(q1: string, x: string, q2: string, y: string)
    requires |q1| == |q2|
    ensures q1 + "|" + x == q2 + "|" + y <==> q1 == q2 && x == y
  {
    var a, b := q1 + "|" + x, q2 + "|" + y;
    assert a[..|q1|] == q1 && b[..|q2|] == q2;
    assert a[|q1| + 1..] == x && b[|q2| + 1..] == y;
  }

  lemma Longer(q1: string, x: string, q2: string, y: string)
    requires |q1| < |q2|
    ensures q1 + "|" + x == q2 + "|" + y <==> Runs(q1, x, q2, y)
  {
    var n := |q1| + 1;
    var a, b := q1 + "|" + x, q2 + "|" + y;
    assert a[..n] == q1 + "|" && b[..n] == q2[..n];
    assert a[n..] == x && b[n..] == q2[n..] + "|" + y;
    assert a == a[..n] + a[n..] && b == b[..n] + b[n..];
  }

  // Keys tell questions and printed values apart as long as no question has a bar in it;
  // a missing value prints like the text None.
  lemma KeysAgree(q1: string, v1: Option<string>, q2: string, v2: Option<string>)
    requires '|' !in q1 && '|' !in q2
    ensures Key(q1, v1) == Key(q2, v2) <==> q1 == q2 && (v1 == v2 || {v1, v2} == {None, Some("None")})
  {
    KeysMeet(q1, v1, q2, v2);
    NoRun(q1, Printed(v1), q2, Printed(v2));
    NoRun(q2, Printed(v2), q1, Printed(v1));
    if v1.Some? && v2.None? {
      assert v1.value == "None" ==> {v1, v2} == {None, Some("None")};
    } else if v1.None? && v2.Some? {
      assert v2.value == "None" ==> {v1, v2} == {None, Some("None")};
    }
  }

  lemma NoRun(q1: string, x: string, q2: string, y: string)
    requires '|' !in q2
    ensures !Runs(q1, x, q2, y)
  {
    assert (q1 + "|")[|q1|] == '|';
  }

  // With a bar, two different questions can count as one.
  lemma BarsConfuse()
    ensures Key("a|b", Some("c")) == Key("a", Some("b|c"))
  {
  }
}
