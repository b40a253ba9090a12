// What each section of the process summary shows, key by key.
module Sections {
  import opened Options
  import opened Text
  import opened FirstSeen
  import opened Selection
  import opened ProcessSummary

  // The key stands in the section exactly if it should, and then with that value.
  predicate Says(section: Fields, key: string, present: bool, value: Json) {
    (key in section <==> present) && (present ==> section[key] == value)
  }

  predicate NotEmpty(x: string) {
    x != ""
  }

  function Itself(x: string): string {
    x
  }

  // xs without the empty texts.
  lemma {:induction false} NonEmptyKept(xs: seq<string>)
    ensures Keeps(NonEmpty(xs), xs, NotEmpty, Itself)
  {
    if xs != [] {
      var before, last := xs[..|xs| - 1], xs[|xs| - 1];
      NonEmptyKept(before);
      assert xs == before + [last];
      KeepsPush(NonEmpty(before), before, last, NotEmpty, Itself);
    }
  }

  lemma {:induction false} NonEmptyIsEmpty(xs: seq<string>)
    ensures NonEmpty(xs) == [] <==> !SomeText(xs)
  {
    if xs != [] {
      var before, last := xs[..|xs| - 1], xs[|xs| - 1];
      NonEmptyIsEmpty(before);
      assert xs == before + [last];
      assert last in xs && forall x :: x in before ==> x in xs;
    }
  }

  predicate SomeText(xs: seq<string>) {
    exists x :: x in xs && x != ""
  }

  // ---------------------------------------------------------------------
  // Intent and interpretation
  // ---------------------------------------------------------------------

  lemma IntentShown<Q, K>(s: State<Q, K>)
    ensures IntentSection(s).Keys == {"label", "is_continuation"}
    ensures IntentSection(s)["label"] == Str(s.intentLabel)
    ensures IntentSection(s)["is_continuation"] == Bool(s.continuation)
  {
  }

  // The first of three texts that is not empty.
  function FirstText(a: string, b: string, c: string): string {
    if a == "" && b == "" then c else if a == "" then b else a
  }

  lemma ViewShown(v: View)
    ensures
      var r := Shown(v);
      && Says(r, "rewritten_query", v.rewritten !in {"", v.original}, Str(v.rewritten))
      && Says(r, "measures", SomeText(v.measures), Arr(Strings(NonEmpty(v.measures))))
      && Says(r, "filters", SomeText(v.filters), Arr(Strings(NonEmpty(v.filters))))
  {
    hide NonEmpty, Strings;
    NonEmptyIsEmpty(v.measures);
    NonEmptyIsEmpty(v.filters);
  }

  lemma ViewShownBelow(v: View)
    ensures
      var r := Shown(v);
      && (v.period.None? ==> "period" !in r)
      && (v.period.Some? ==>
            var p := v.period.value;
            Says(r, "period", true, Str(FirstText(p.title, p.resolve, p.kind))))
      && Says(r, "entities", |v.entities| > 0, Arr(Strings(v.entities)))
      && Says(r, "dimensions", |v.dimensions| > 0, Arr(Strings(v.dimensions)))
      && r.Keys <= {"rewritten_query", "measures", "filters", "period", "entities", "dimensions"}
  {
    hide NonEmpty, Strings;
  }

  lemma InterpretationShown<Q, K>(s: State<Q, K>, m: Models<Q, K>)
    ensures s.normalized.None? ==> |InterpretationSection(s, m)| == 0
    ensures s.normalized.Some? ==>
      var q, r := s.normalized.value, InterpretationSection(s, m);
      && Says(r, "_raw", true, Obj(m.dumpQuery(q)))
      && forall k :: k != "_raw" ==> (k in r <==> k in Shown(m.view(q))) && (k in r ==> r[k] == Shown(m.view(q))[k])
  {
    hide Shown;
  }

  // ---------------------------------------------------------------------
  // Context
  // ---------------------------------------------------------------------

  // The same characters, but for the case of letters.
  predicate SameName(a: string, b: string) {
    |a| == |b| && forall i :: 0 <= i < |a| ==>
      || a[i] == b[i]
      || ('a' <= a[i] <= 'z' && b[i] as int == a[i] as int - 32)
      || ('A' <= a[i] <= 'Z' && b[i] as int == a[i] as int + 32)
  }

  lemma SameNameIs(a: string, b: string)
    ensures Upper(a) == Upper(b) <==> SameName(a, b)
  {
    forall i | 0 <= i < |a| && i < |b| {
      CaseOnly(a[i], b[i]);
    }
    if Upper(a) == Upper(b) {
      assert |Upper(a)| == |Upper(b)|;
      forall i | 0 <= i < |a| ensures Up(a[i]) == Up(b[i]) {
        assert Upper(a)[i] == Upper(b)[i];
      }
    }
    if SameName(a, b) {
      assert forall i :: 0 <= i < |a| ==> Upper(a)[i] == Upper(b)[i];
    }
  }

  // A table counts as used if there is a statement and a table found in it has its name.
  lemma UsedIs<Q, K>(s: State<Q, K>, name: string)
    ensures InStatement(s, name) <==> |s.sql| > 0 && exists t :: t in s.sqlTables && SameName(t, name)
  {
    hide Upper, SameName;
    forall t: string ensures Upper(t) == Upper(name) <==> SameName(t, name) {
      SameNameIs(t, name);
    }
    if t :| t in s.sqlTables && Upper(t) == Upper(name) {
      assert SameName(t, name);
    }
  }

  predicate Usable(t: Table) {
    t.status != Rejected
  }

  predicate Dropped(t: Table) {
    t.status == Rejected
  }

  function TableShown<Q, K>(s: State<Q, K>, t: Table): Json {
    Obj(map[
      "name" := Str(t.name),
      "label" := Str(FirstText(t.alt, t.description, t.name)),
      "status" := Str(match t.status case Pending => "PENDING" case Selected => "SELECTED"
                      case Rejected => "REJECTED" case Reference => "REFERENCE"),
      "used" := Bool(InStatement(s, t.name)),
      "reason" := Str(t.reason)])
  }

  function DroppedShown(t: Table): Json {
    Obj(map["name" := Str(t.name), "label" := Str(FirstText(t.alt, t.description, t.name))])
  }

  lemma TableShows<Q, K>(s: State<Q, K>, t: Table)
    ensures TableEntry(t, InStatement(s, t.name)) == TableShown(s, t)
    ensures RejectedEntry(t) == DroppedShown(t)
  {
  }

  lemma {:induction false} TablesKept<Q, K>(s: State<Q, K>, n: nat)
    requires n <= |s.tables|
    ensures Keeps(Accepted(s, n), s.tables[..n], Usable, t => TableShown(s, t))
  {
    hide TableEntry, TableShown, InStatement;
    if n > 0 {
      TablesKept(s, n - 1);
      var t := s.tables[n - 1];
      assert s.tables[..n] == s.tables[..n - 1] + [t];
      TableShows(s, t);
      KeepsPush(Accepted(s, n - 1), s.tables[..n - 1], t, Usable, u => TableShown(s, u));
    }
  }

  lemma {:induction false} DroppedKept(ts: seq<Table>)
    ensures Keeps(RejectedOnes(ts), ts, Dropped, DroppedShown)
  {
    hide RejectedEntry, DroppedShown;
    if ts != [] {
      var before, last := ts[..|ts| - 1], ts[|ts| - 1];
      DroppedKept(before);
      assert ts == before + [last];
      assert RejectedEntry(last) == DroppedShown(last) by { DroppedShows(last); }
      KeepsPush(RejectedOnes(before), before, last, Dropped, DroppedShown);
    }
  }

  lemma DroppedShows(t: Table)
    ensures RejectedEntry(t) == DroppedShown(t)
  {
  }

  predicate Found(c: Consulted) {
    c.relevant
  }

  function TextOf(c: Consulted): string {
    c.text
  }

  lemma {:induction false} RelevantKept(cs: seq<Consulted>)
    ensures Keeps(Relevant(cs), cs, Found, TextOf)
  {
    if cs != [] {
      var before, last := cs[..|cs| - 1], cs[|cs| - 1];
      RelevantKept(before);
      assert cs == before + [last];
      KeepsPush(Relevant(before), before, last, Found, TextOf);
    }
  }

  // A manual is cut after 60 characters, with an ellipsis only if something is cut off.
  lemma ManualCut(text: string)
    ensures |text| <= 60 ==> Shorten(text) == text
    ensures |text| > 60 ==>
      |Shorten(text)| == 61 && Shorten(text)[..60] == text[..60] && Shorten(text)[60] == '\U{2026}'
  {
  }

  predicate SomeRelevant(cs: seq<Consulted>) {
    exists c :: c in cs && c.relevant
  }

  lemma {:induction false} RelevantIsEmpty(cs: seq<Consulted>)
    ensures Relevant(cs) == [] <==> !SomeRelevant(cs)
  {
    if cs != [] {
      RelevantIsEmpty(cs[..|cs| - 1]);
      assert cs == cs[..|cs| - 1] + [cs[|cs| - 1]];
    }
  }

  predicate SomeStatus(ts: seq<Table>, rejected: bool) {
    exists t :: t in ts && (t.status == Rejected <==> rejected)
  }

  lemma {:induction false} AcceptedIsEmpty<Q, K>(s: State<Q, K>, n: nat)
    requires n <= |s.tables|
    ensures Accepted(s, n) == [] <==> !SomeStatus(s.tables[..n], false)
  {
    hide TableEntry, InStatement;
    if n > 0 {
      AcceptedIsEmpty(s, n - 1);
      assert s.tables[..n] == s.tables[..n - 1] + [s.tables[n - 1]];
    }
  }

  lemma {:induction false} RejectedIsEmpty(ts: seq<Table>)
    ensures RejectedOnes(ts) == [] <==> !SomeStatus(ts, true)
  {
    hide RejectedEntry;
    if ts != [] {
      RejectedIsEmpty(ts[..|ts| - 1]);
      assert ts == ts[..|ts| - 1] + [ts[|ts| - 1]];
    }
  }

  lemma TablesShown<Q, K>(s: State<Q, K>, m: Models<Q, K>)
    ensures
      var r := ContextSection(s, m);
      && Says(r, "tables", SomeStatus(s.tables, false), Arr(Accepted(s, |s.tables|)))
      && Says(r, "rejected_tables", SomeStatus(s.tables, true), Arr(RejectedOnes(s.tables)))
  {
    hide NonEmpty, Relevant, Accepted, RejectedOnes, Dumps, Strings, ShortenAll, SomeStatus;
    assert s.tables[..|s.tables|] == s.tables;
    AcceptedIsEmpty(s, |s.tables|);
    RejectedIsEmpty(s.tables);
  }

  lemma ConsultedShown<Q, K>(s: State<Q, K>, m: Models<Q, K>)
    ensures
      var r := ContextSection(s, m);
      && Says(r, "use_cases", SomeRelevant(s.useCases), Arr(Strings(NonEmpty(Relevant(s.useCases)))))
      && Says(r, "manuals", SomeRelevant(s.manuals), Arr(Strings(ShortenAll(NonEmpty(Relevant(s.manuals))))))
  {
    hide NonEmpty, Relevant, Accepted, RejectedOnes, Dumps, Strings, ShortenAll, SomeRelevant;
    RelevantIsEmpty(s.useCases);
    RelevantIsEmpty(s.manuals);
  }

  lemma TermsShown<Q, K>(s: State<Q, K>, m: Models<Q, K>)
    ensures
      var r := ContextSection(s, m);
      && Says(r, "biz_terms", SomeRelevant(s.terms), Arr(Strings(Relevant(s.terms))))
      && Says(r, "_knowledge_items", |s.knowledge| > 0, Arr(Dumps(s.knowledge, m.dumpItem)))
      && r.Keys <= {"tables", "rejected_tables", "use_cases", "manuals", "biz_terms", "_knowledge_items"}
  {
    hide NonEmpty, Relevant, Accepted, RejectedOnes, Dumps, Strings, ShortenAll, SomeRelevant;
    RelevantIsEmpty(s.terms);
  }

  // ---------------------------------------------------------------------
  // Result and decisions
  // ---------------------------------------------------------------------

  // A negative count shows as 0; without a result there is no count.
  lemma ValidationShown(o: Outcome)
    ensures
      var r := ValidationSection(o);
      && Says(r, "sql", |o.sql| > 0, Str(o.sql))
      && Says(r, "summary", |o.summary| > 0, Str(o.summary))
      && (o.rows.None? ==> "row_count" !in r && "row_label" !in r)
      && (o.rows.Some? ==>
            && Says(r, "row_count", true, Num(if o.rows.value < 0 then 0 else o.rows.value))
            && Says(r, "row_label", true, Str(o.rowLabel)))
      && Says(r, "viz_judgment", |o.judgment| > 0, Str(o.judgment))
      && r.Keys <= {"sql", "summary", "row_count", "row_label", "viz_judgment"}
  {
  }

  // Only the choice of a database comes without a reason.
  lemma InferenceShown(i: Inference)
    ensures
      InferenceEntry(i) == Obj(
        if i.reason.None? then
          map["question" := Str(i.question), "value" := Str(i.value), "source_node" := Str(i.source)]
        else
          map["question" := Str(i.question), "value" := Str(i.value), "source_node" := Str(i.source),
              "reason" := Str(i.reason.value)])
  {
  }

  predicate Drawn(s: Signal, turn: string) {
    s.infer && turn != "" && s.turn.Some? && s.turn.value == turn
  }

  function DrawnShown(s: Signal): Candidate {
    Candidate(Inference(s.question, if s.value.None? then "" else s.value.value, s.source, Some(s.reason)),
              Key(s.question, s.value))
  }

  // The candidates are the choice of a database, if it was ambiguous, and then the
  // inferences of this turn in order.
  lemma {:induction false} SignalsDrawn(signals: seq<Signal>, turn: string)
    ensures Keeps(FromSignals(signals, turn), signals, s => Drawn(s, turn), DrawnShown)
  {
    hide Key;
    if signals != [] {
      var before, last := signals[..|signals| - 1], signals[|signals| - 1];
      SignalsDrawn(before, turn);
      assert signals == before + [last];
      assert AsCandidate(last) == DrawnShown(last);
      assert OfTurn(last, turn) <==> Drawn(last, turn);
      KeepsPush(FromSignals(before, turn), before, last, s => Drawn(s, turn), DrawnShown);
    }
  }

  lemma DatabaseDrawn<Q, K>(s: State<Q, K>)
    ensures
      var all := Candidates(s);
      && (s.rationale == "" ==> all == FromSignals(s.signals, s.turn))
      && (s.rationale != "" ==>
            && |all| == 1 + |FromSignals(s.signals, s.turn)| && all[1..] == FromSignals(s.signals, s.turn)
            && all[0].inference == Inference("\U{C0AC}\U{C6A9}\U{D560} DB \U{ACB0}\U{C815}", s.rationale,
                                             "readiness_gate", None))
  {
    hide FromSignals, Key;
    assert [] + FromSignals(s.signals, s.turn) == FromSignals(s.signals, s.turn);
  }

  lemma DecisionsShown<Q, K>(s: State<Q, K>)
    ensures
      var r, leading := DecisionSection(s), Firsts(Candidates(s), (c: Candidate) => c.key);
      var pending := Open(s.assumptions, leading);
      && Says(r, "inferences", |leading| > 0, Arr(InferenceEntries(leading)))
      && Says(r, "pending_assumptions", |pending| > 0, Arr(Strings(pending)))
      && Says(r, "notice", |leading| > 0 || |pending| > 0, NOTICE)
      && r.Keys <= {"inferences", "pending_assumptions", "notice"}
  {
    hide Candidates, Open, InferenceEntries, Strings, Firsts;
    SameKeys(Candidates(s));
  }

  lemma {:induction false} SameKeys(cs: seq<Candidate>)
    ensures Firsts(cs, KeyOf) == Firsts(cs, (c: Candidate) => c.key)
  {
    if cs != [] {
      SameKeys(cs[..|cs| - 1]);
    }
  }

  // ---------------------------------------------------------------------
  // The document
  // ---------------------------------------------------------------------

  lemma DocumentShown<Q, K>(s: State<Q, K>, m: Models<Q, K>)
    ensures
      var r := Build(s, m).value;
      && Says(r, "intent", true, Obj(IntentSection(s)))
      && Says(r, "interpretation", true, Obj(InterpretationSection(s, m)))
      && Says(r, "context", true, Obj(ContextSection(s, m)))
      && Says(r, "validation", true, Obj(ValidationSection(s.outcome)))
      && Says(r, "ai_decisions", |DecisionSection(s)| > 0, Obj(DecisionSection(s)))
      && Says(r, "_query_decomposition", |s.decomposition| > 0, Obj(s.decomposition))
      && r.Keys <= {"intent", "interpretation", "context", "validation", "ai_decisions", "_query_decomposition"}
  {
    hide InterpretationSection, ContextSection, ValidationSection, DecisionSection;
    assert "label" in IntentSection(s);
  }
}
