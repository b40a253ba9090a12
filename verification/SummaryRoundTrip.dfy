// What restoring a turn gets back from the summary that was built for it.
module SummaryRoundTrip {
  import opened Options
  import opened Text
  import opened FirstSeen
  import opened ProcessSummary
  import opened SummaryExtract

  // ---------------------------------------------------------------------
  // The sections of a built document
  // ---------------------------------------------------------------------

  lemma BuiltSections<Q, K>(s: State<Q, K>, m: Models<Q, K>)
    ensures
      var doc := Build(s, m).value;
      && Section(doc, "interpretation") == Ok(InterpretationSection(s, m))
      && Section(doc, "context") == Ok(ContextSection(s, m))
      && Section(doc, "ai_decisions") == Ok(DecisionSection(s))
      && Get(doc, "_query_decomposition") == (if s.decomposition != map[] then Obj(s.decomposition) else Null)
  {
    hide IntentSection, InterpretationSection, ContextSection, ValidationSection, DecisionSection;
    LabelOnly(s);
  }

  lemma LabelOnly<Q, K>(s: State<Q, K>)
    ensures IntentSection(s) != map[]
  {
    assert "label" in IntentSection(s);
  }

  lemma ContextLists<Q, K>(s: State<Q, K>, m: Models<Q, K>)
    ensures
      var c := ContextSection(s, m);
      && Elements(c, "tables") == Ok(Accepted(s, |s.tables|))
      && Get(c, "_knowledge_items") == (if s.knowledge != [] then Arr(Dumps(s.knowledge, m.dumpItem)) else Null)
  {
    hide Accepted, RejectedOnes, Relevant, NonEmpty, ShortenAll, Dumps, Strings;
  }

  lemma DecisionLists<Q, K>(s: State<Q, K>)
    ensures Elements(DecisionSection(s), "inferences") == Ok(InferenceEntries(Leading(s)))
  {
    hide Leading, Open, InferenceEntry, Strings;
    var leading, section := Leading(s), DecisionSection(s);
    assert |InferenceEntries(leading)| == |leading|;
    assert leading == [] ==> InferenceEntries(leading) == [] && Get(section, "inferences") == Null;
    assert leading != [] ==> Get(section, "inferences") == Arr(InferenceEntries(leading));
  }

  lemma RawQuery<Q, K>(s: State<Q, K>, m: Models<Q, K>)
    ensures Get(InterpretationSection(s, m), "_raw") ==
      if s.normalized.Some? then Obj(m.dumpQuery(s.normalized.value)) else Null
  {
    hide Shown;
  }

  // ---------------------------------------------------------------------
  // Query, knowledge and decomposition
  // ---------------------------------------------------------------------

  // Dumping loses nothing, and the dump of a query has some field.
  ghost predicate Faithful<Q(!new), K(!new)>(m: Models<Q, K>) {
    && (forall q: Q :: m.dumpQuery(q) != map[] && m.loadQuery(m.dumpQuery(q)) == Some(q))
    && (forall k: K :: m.loadItem(m.dumpItem(k)) == Some(k))
  }

  // The column holds what was built for s, as a document or as its text.
  predicate Stores<Q, K>(raw: Json, parse: string -> Json, s: State<Q, K>, m: Models<Q, K>) {
    SafeDict(raw, parse) == Ok(Some(Build(s, m).value))
  }

  lemma {:induction false} ItemsReload<Q(!new), K(!new)>(items: seq<K>, m: Models<Q, K>)
    requires Faithful(m)
    ensures LoadItems(Dumps(items, m.dumpItem), m.loadItem) == Ok(items)
  {
    if items != [] {
      var before, last := items[..|items| - 1], items[|items| - 1];
      var dumped := Dumps(items, m.dumpItem);
      assert dumped[..|dumped| - 1] == Dumps(before, m.dumpItem);
      assert dumped[|dumped| - 1] == Obj(m.dumpItem(last));
      ItemsReload(before, m);
      assert m.loadItem(m.dumpItem(last)) == Some(last);
      assert items == before + [last];
    }
  }

  // Restoring gives back the query, every knowledge item and the decomposition, and
  // never fails.
  lemma SummaryRoundTrip<Q(!new), K(!new)>(s: State<Q, K>, m: Models<Q, K>, raw: Json, parse: string -> Json)
    requires Faithful(m) && Stores(raw, parse, s, m)
    ensures Query(raw, parse, m.loadQuery) == Ok(s.normalized)
    ensures Knowledge(raw, parse, m.loadItem) == Ok(s.knowledge)
    ensures Decomposition(raw, parse) == Ok(s.decomposition)
  {
    hide Build, InterpretationSection, ContextSection, DecisionSection, SafeDict, Dumps, Accepted, LoadItems;
    BuiltSections(s, m);
    ContextLists(s, m);
    RawQuery(s, m);
    ItemsReload(s.knowledge, m);
    if s.normalized.Some? {
      assert m.loadQuery(m.dumpQuery(s.normalized.value)) == Some(s.normalized.value);
    }
  }

  // ---------------------------------------------------------------------
  // Tables
  // ---------------------------------------------------------------------

  predicate Ascending(at: seq<nat>) {
    forall i, j :: 0 <= i < j < |at| ==> at[i] < at[j]
  }

  lemma AscendingPush(prior: seq<nat>, n: nat)
    requires Ascending(prior) && forall i :: 0 <= i < |prior| ==> prior[i] < n
    ensures Ascending(prior + [n]) && n !in prior
    ensures forall i :: 0 <= i <= |prior| ==> (prior + [n])[i] <= n
    ensures forall k :: k in prior + [n] <==> k in prior || k == n
  {
  }

  predicate UsedAt<Q, K>(s: State<Q, K>, k: nat)
    requires k < |s.tables|
  {
    var t := s.tables[k];
    t.status != Rejected && t.name != "" && InStatement(s, t.name)
  }

  function NamesAt(ts: seq<Table>, at: seq<nat>): seq<Json>
    requires forall i :: 0 <= i < |at| ==> at[i] < |ts|
  {
    seq(|at|, i requires 0 <= i < |at| => Str(ts[at[i]].name))
  }

  lemma AcceptedPush<Q, K>(s: State<Q, K>, n: nat)
    requires 0 < n <= |s.tables|
    ensures TableNames(Accepted(s, n)) ==
      TableNames(Accepted(s, n - 1)) + (if UsedAt(s, n - 1) then [Str(s.tables[n - 1].name)] else [])
  {
    hide InStatement, TableNames, TableEntry;
    var t := s.tables[n - 1];
    EntryNames(Accepted(s, n - 1), t, InStatement(s, t.name));
    assert Accepted(s, n - 1) + [] == Accepted(s, n - 1);
    assert TableNames(Accepted(s, n - 1)) + [] == TableNames(Accepted(s, n - 1));
  }

  lemma {:induction false} UsedNames<Q, K>(s: State<Q, K>, n: nat) returns (at: seq<nat>)
    requires n <= |s.tables|
    ensures Ascending(at) && forall i :: 0 <= i < |at| ==> at[i] < n
    ensures forall k :: 0 <= k < n ==> (k in at <==> UsedAt(s, k))
    ensures TableNames(Accepted(s, n)) == NamesAt(s.tables, at)
  {
    hide UsedAt, TableNames, NamesAt, Accepted;
    if n == 0 {
      at := [];
      NoNames(s);
    } else {
      var before := UsedNames(s, n - 1);
      AcceptedPush(s, n);
      at := if UsedAt(s, n - 1) then before + [n - 1] else before;
      MoreNames(s, n, before, at);
    }
  }

  lemma NoNames<Q, K>(s: State<Q, K>)
    ensures TableNames(Accepted(s, 0)) == [] && NamesAt(s.tables, []) == []
  {
  }

  lemma MoreNamesAt(ts: seq<Table>, prior: seq<nat>, n: nat)
    requires n < |ts| && forall i :: 0 <= i < |prior| ==> prior[i] < n
    ensures forall i :: 0 <= i <= |prior| ==> (prior + [n])[i] < |ts|
    ensures NamesAt(ts, prior + [n]) == NamesAt(ts, prior) + [Str(ts[n].name)]
  {
  }

  lemma MoreNames<Q, K>(s: State<Q, K>, n: nat, prior: seq<nat>, at: seq<nat>)
    requires 0 < n <= |s.tables|
    requires Ascending(prior) && forall i :: 0 <= i < |prior| ==> prior[i] < n - 1
    requires forall k :: 0 <= k < n - 1 ==> (k in prior <==> UsedAt(s, k))
    requires at == if UsedAt(s, n - 1) then prior + [n - 1] else prior
    ensures Ascending(at) && forall i :: 0 <= i < |at| ==> at[i] < n
    ensures forall k :: 0 <= k < n ==> (k in at <==> UsedAt(s, k))
    ensures NamesAt(s.tables, at) ==
      NamesAt(s.tables, prior) + (if UsedAt(s, n - 1) then [Str(s.tables[n - 1].name)] else [])
  {
    hide UsedAt, Ascending;
    AscendingPush(prior, n - 1);
    MoreNamesAt(s.tables, prior, n - 1);
  }

  lemma EntryNames(es: seq<Json>, t: Table, used: bool)
    ensures TableNames(es + [TableEntry(t, used)]) ==
      TableNames(es) + (if used && t.name != "" then [Str(t.name)] else [])
  {
    hide LabelOf, StatusText;
    assert (es + [TableEntry(t, used)])[..|es|] == es;
    assert TableNames(es) + [] == TableNames(es);
  }

  // The names come back of exactly the tables that were not rejected and stand in the
  // statement, in their order.
  lemma TablesRoundTrip<Q, K>(s: State<Q, K>, m: Models<Q, K>, raw: Json, parse: string -> Json) returns (at: seq<nat>)
    requires Stores(raw, parse, s, m)
    ensures Ascending(at) && forall i :: 0 <= i < |at| ==> at[i] < |s.tables|
    ensures forall k :: 0 <= k < |s.tables| ==> (k in at <==> UsedAt(s, k))
    ensures Tables(raw, parse) == Ok(NamesAt(s.tables, at))
  {
    hide Build, ContextSection, DecisionSection, InterpretationSection, SafeDict, Accepted, UsedAt, TableNames,
      NamesAt;
    BuiltSections(s, m);
    ContextLists(s, m);
    at := UsedNames(s, |s.tables|);
  }

  // ---------------------------------------------------------------------
  // Inferences
  // ---------------------------------------------------------------------

  // The turn's signal at k is the first with its question and printed value, in the
  // signals and against the choice of a database, and not the classifier's.
  predicate RestoredAt<Q, K>(s: State<Q, K>, k: nat)
    requires k < |s.signals|
  {
    Leads(s, k) && s.signals[k].source != CLASSIFIER
  }

  predicate Leads<Q, K>(s: State<Q, K>, k: nat)
    requires k < |s.signals|
  {
    var x := s.signals[k];
    && OfTurn(x, s.turn)
    && (s.rationale == "" || Key(x.question, x.value) != Key(DB_QUESTION, Some(s.rationale)))
    && forall j :: 0 <= j < k && OfTurn(s.signals[j], s.turn) ==>
         Key(s.signals[j].question, s.signals[j].value) != Key(x.question, x.value)
  }

  function RestoredSignal(x: Signal): Restored {
    Restored(Str(x.question), Str(if x.value.Some? then x.value.value else ""), Str(x.source), Str(x.reason))
  }

  function SignalsAt(xs: seq<Signal>, at: seq<nat>): seq<Restored>
    requires forall i :: 0 <= i < |at| ==> at[i] < |xs|
  {
    seq(|at|, i requires 0 <= i < |at| => RestoredSignal(xs[at[i]]))
  }

  function RestoredDecision(rationale: string): seq<Restored> {
    if rationale == "" then [] else [Restored(Str(DB_QUESTION), Str(rationale), Str(GATE), Str(""))]
  }

  lemma SignalRestores(x: Signal)
    ensures
      var e := InferenceEntry(InferenceOf(x));
      && (CountsInference(e) <==> x.source != CLASSIFIER)
      && e.Obj? && Restore(e.fields) == RestoredSignal(x)
  {
  }

  lemma DecisionRestores(rationale: string)
    ensures RestoreAll(InferenceEntries(FromDecision(rationale))) == RestoredDecision(rationale)
  {
    if rationale != "" {
      var i := FromDecision(rationale)[0].inference;
      var e := InferenceEntry(i);
      assert InferenceEntries(FromDecision(rationale)) == [e] && [e][..0] == [];
      assert |GATE| != |CLASSIFIER|;
      assert CountsInference(e) && Restore(e.fields) == RestoredDecision(rationale)[0];
      assert RestoreAll([]) == [];
    }
  }

  lemma RestorePush(cs: seq<Candidate>, x: Signal)
    ensures RestoreAll(InferenceEntries(cs + [AsCandidate(x)])) ==
      RestoreAll(InferenceEntries(cs)) + (if x.source != CLASSIFIER then [RestoredSignal(x)] else [])
  {
    hide InferenceEntry, CountsInference, Restore;
    var c := AsCandidate(x);
    var e := InferenceEntry(c.inference);
    SignalRestores(x);
    var all := InferenceEntries(cs + [c]);
    assert all == InferenceEntries(cs) + [e];
    assert all[..|cs|] == InferenceEntries(cs);
    assert RestoreAll(InferenceEntries(cs)) + [] == RestoreAll(InferenceEntries(cs));
  }

  // The key is taken by the choice of a database or by one of the first n signals.
  lemma {:induction false} KeyTaken<Q, K>(s: State<Q, K>, n: nat, key: string)
    requires n <= |s.signals|
    ensures HasKey(FromDecision(s.rationale) + FromSignals(s.signals[..n], s.turn), KeyOf, key) <==>
      || (s.rationale != "" && key == Key(DB_QUESTION, Some(s.rationale)))
      || exists j :: 0 <= j < n && OfTurn(s.signals[j], s.turn) && Key(s.signals[j].question, s.signals[j].value) == key
  {
    hide Key, HasKey, FromSignals, FromDecision;
    var head := FromDecision(s.rationale);
    FirstDecision(s.rationale);
    if n == 0 {
      assert s.signals[..0] == [];
      NoSignals(s.turn);
      assert head + [] == head;
    } else {
      var x := s.signals[n - 1];
      var before := FromSignals(s.signals[..n - 1], s.turn);
      KeyTaken(s, n - 1, key);
      SignalsPush(s.signals, n - 1, s.turn);
      if OfTurn(x, s.turn) {
        assert head + (before + [AsCandidate(x)]) == (head + before) + [AsCandidate(x)];
        HasKeyPush(head + before, AsCandidate(x), KeyOf, key);
        assert KeyOf(AsCandidate(x)) == Key(x.question, x.value);
      } else {
        assert before + [] == before;
      }
    }
  }

  // What is restored of the choice of a database and the first n signals.
  function RestoredOf<Q, K>(s: State<Q, K>, n: nat): seq<Restored>
    requires n <= |s.signals|
  {
    RestoreAll(InferenceEntries(Firsts(FromDecision(s.rationale) + FromSignals(s.signals[..n], s.turn), KeyOf)))
  }

  lemma RestoredStart<Q, K>(s: State<Q, K>)
    ensures RestoredOf(s, 0) == RestoredDecision(s.rationale)
  {
    hide Key, FromSignals, FromDecision, Firsts, InferenceEntries, RestoreAll, RestoredDecision;
    assert s.signals[..0] == [];
    NoSignals(s.turn);
    FirstDecision(s.rationale);
    DecisionRestores(s.rationale);
    assert FromDecision(s.rationale) + [] == FromDecision(s.rationale);
  }

  lemma RestoredPush<Q, K>(s: State<Q, K>, n: nat)
    requires 0 < n <= |s.signals|
    ensures RestoredOf(s, n) ==
      RestoredOf(s, n - 1) + (if RestoredAt(s, n - 1) then [RestoredSignal(s.signals[n - 1])] else [])
  {
    hide Key, HasKey, FromSignals, FromDecision, Firsts, InferenceEntries, RestoreAll, RestoredAt, RestoredSignal,
      AsCandidate, OfTurn;
    var x := s.signals[n - 1];
    var head, before := FromDecision(s.rationale), FromSignals(s.signals[..n - 1], s.turn);
    SignalsPush(s.signals, n - 1, s.turn);
    CandidateKey(x);
    KeyTaken(s, n - 1, AsCandidate(x).key);
    RestoredMeans(s, n - 1, HasKey(head + before, KeyOf, AsCandidate(x).key));
    var kept := Firsts(head + before, KeyOf);
    assert RestoredOf(s, n - 1) + [] == RestoredOf(s, n - 1);
    if OfTurn(x, s.turn) {
      assert head + (before + [AsCandidate(x)]) == (head + before) + [AsCandidate(x)];
      OneMore(head + before, AsCandidate(x));
      RestorePush(kept, x);
      assert kept + [] == kept;
    } else {
      assert before + [] == before;
    }
  }

  lemma CandidateKey(x: Signal)
    ensures AsCandidate(x).key == Key(x.question, x.value)
  {
  }

  lemma {:induction false} LeadingSignals<Q, K>(s: State<Q, K>, n: nat) returns (at: seq<nat>)
    requires n <= |s.signals|
    ensures Ascending(at) && forall i :: 0 <= i < |at| ==> at[i] < n
    ensures forall k :: 0 <= k < n ==> (k in at <==> RestoredAt(s, k))
    ensures RestoredOf(s, n) == RestoredDecision(s.rationale) + SignalsAt(s.signals, at)
  {
    hide RestoredOf, RestoredAt, RestoredDecision, SignalsAt, RestoredSignal;
    if n == 0 {
      RestoredStart(s);
      at := [];
      assert SignalsAt(s.signals, []) == [] by { NoneAt(s.signals); }
    } else {
      var prior := LeadingSignals(s, n - 1);
      RestoredPush(s, n);
      at := if RestoredAt(s, n - 1) then prior + [n - 1] else prior;
      Extended(s, n, prior, at);
    }
  }

  lemma NoneAt(xs: seq<Signal>)
    ensures SignalsAt(xs, []) == []
  {
  }

  lemma RestoredMeans<Q, K>(s: State<Q, K>, k: nat, taken: bool)
    requires k < |s.signals|
    requires taken <==>
      || (s.rationale != "" && AsCandidate(s.signals[k]).key == Key(DB_QUESTION, Some(s.rationale)))
      || exists j :: 0 <= j < k && OfTurn(s.signals[j], s.turn) &&
           Key(s.signals[j].question, s.signals[j].value) == AsCandidate(s.signals[k]).key
    ensures RestoredAt(s, k) <==>
      OfTurn(s.signals[k], s.turn) && !taken && s.signals[k].source != CLASSIFIER
  {
    hide Key, OfTurn;
    CandidateKey(s.signals[k]);
  }

  lemma MoreSignalsAt(xs: seq<Signal>, prior: seq<nat>, n: nat)
    requires n < |xs| && forall i :: 0 <= i < |prior| ==> prior[i] < n
    ensures forall i :: 0 <= i <= |prior| ==> (prior + [n])[i] < |xs|
    ensures SignalsAt(xs, prior + [n]) == SignalsAt(xs, prior) + [RestoredSignal(xs[n])]
  {
    hide RestoredSignal;
  }

  lemma Extended<Q, K>(s: State<Q, K>, n: nat, prior: seq<nat>, at: seq<nat>)
    requires 0 < n <= |s.signals|
    requires Ascending(prior) && forall i :: 0 <= i < |prior| ==> prior[i] < n - 1
    requires forall k :: 0 <= k < n - 1 ==> (k in prior <==> RestoredAt(s, k))
    requires at == if RestoredAt(s, n - 1) then prior + [n - 1] else prior
    ensures Ascending(at) && forall i :: 0 <= i < |at| ==> at[i] < n
    ensures forall k :: 0 <= k < n ==> (k in at <==> RestoredAt(s, k))
    ensures SignalsAt(s.signals, at) ==
      SignalsAt(s.signals, prior) + (if RestoredAt(s, n - 1) then [RestoredSignal(s.signals[n - 1])] else [])
  {
    hide RestoredAt, Ascending;
    AscendingPush(prior, n - 1);
    MoreSignalsAt(s.signals, prior, n - 1);
  }

  // The choice of a database comes first; then exactly the turn's signals that lead
  // with their question and printed value and are not the classifier's, in order.
  lemma InferencesRoundTrip<Q, K>(s: State<Q, K>, m: Models<Q, K>, raw: Json, parse: string -> Json)
    returns (at: seq<nat>)
    requires Stores(raw, parse, s, m)
    ensures Ascending(at) && forall i :: 0 <= i < |at| ==> at[i] < |s.signals|
    ensures forall k :: 0 <= k < |s.signals| ==> (k in at <==> RestoredAt(s, k))
    ensures Inferences(raw, parse) == Ok(RestoredDecision(s.rationale) + SignalsAt(s.signals, at))
  {
    hide Build, ContextSection, DecisionSection, InterpretationSection, SafeDict, Accepted, RestoredAt, RestoreAll,
      SignalsAt, InferenceEntries, FromSignals, FromDecision, Firsts, RestoredDecision;
    BuiltSections(s, m);
    DecisionLists(s);
    at := LeadingSignals(s, |s.signals|);
    assert s.signals[..|s.signals|] == s.signals;
  }

  // Some signal of the turn with key came before the one at k, or the decision did.
  predicate Preceded<Q, K>(s: State<Q, K>, k: nat)
    requires k < |s.signals|
  {
    || (s.rationale != "" && Key(s.signals[k].question, s.signals[k].value) == Key(DB_QUESTION, Some(s.rationale)))
    || exists j :: 0 <= j < k && OfTurn(s.signals[j], s.turn) &&
         Key(s.signals[j].question, s.signals[j].value) == Key(s.signals[k].question, s.signals[k].value)
  }

  lemma {:induction false} FirstWithKey<Q, K>(s: State<Q, K>, k: nat) returns (lead: nat)
    requires k < |s.signals| && OfTurn(s.signals[k], s.turn)
    requires s.rationale == "" || Key(s.signals[k].question, s.signals[k].value) != Key(DB_QUESTION, Some(s.rationale))
    ensures lead <= k && Leads(s, lead)
    ensures Key(s.signals[lead].question, s.signals[lead].value) == Key(s.signals[k].question, s.signals[k].value)
    decreases k
  {
    hide Key, OfTurn;
    if Preceded(s, k) {
      var j :| 0 <= j < k && OfTurn(s.signals[j], s.turn) &&
        Key(s.signals[j].question, s.signals[j].value) == Key(s.signals[k].question, s.signals[k].value);
      lead := FirstWithKey(s, j);
    } else {
      lead := k;
    }
  }

  // A question answered in the turn is restored, by whichever node answered it first,
  // exactly if that first node is not the classifier: a later answer of another node
  // with the same key is lost with it.
  lemma InferenceRestored<Q, K>(s: State<Q, K>, m: Models<Q, K>, raw: Json, parse: string -> Json, k: nat)
    returns (at: seq<nat>, lead: nat)
    requires Stores(raw, parse, s, m) && k < |s.signals| && OfTurn(s.signals[k], s.turn)
    requires s.rationale == "" || Key(s.signals[k].question, s.signals[k].value) != Key(DB_QUESTION, Some(s.rationale))
    ensures lead <= k && Leads(s, lead)
    ensures Key(s.signals[lead].question, s.signals[lead].value) == Key(s.signals[k].question, s.signals[k].value)
    ensures Ascending(at) && forall i :: 0 <= i < |at| ==> at[i] < |s.signals|
    ensures Inferences(raw, parse) == Ok(RestoredDecision(s.rationale) + SignalsAt(s.signals, at))
    ensures
      (exists j :: j in at && Key(s.signals[j].question, s.signals[j].value) ==
        Key(s.signals[k].question, s.signals[k].value))
      <==> s.signals[lead].source != CLASSIFIER
  {
    hide Key, OfTurn, SignalsAt, RestoredDecision, Stores, Inferences;
    at := InferencesRoundTrip(s, m, raw, parse);
    lead := FirstWithKey(s, k);
    if s.signals[lead].source != CLASSIFIER {
      assert RestoredAt(s, lead) && lead in at;
    }
    forall j | j in at && Key(s.signals[j].question, s.signals[j].value) ==
      Key(s.signals[k].question, s.signals[k].value)
      ensures s.signals[lead].source != CLASSIFIER
    {
      assert RestoredAt(s, j) && Leads(s, j) && Leads(s, lead);
      assert j == lead;
    }
  }

  // The pending assumptions kept for display repeat no inferred value.
  lemma {:induction false} OpenOnly(assumptions: seq<string>, cs: seq<Candidate>, a: string)
    ensures a in Open(assumptions, cs) <==>
      a in assumptions &&
      forall i :: 0 <= i < |cs| && cs[i].inference.value != "" ==>
        !Contains(a, cs[i].inference.value) && !Contains(cs[i].inference.value, a)
  {
    hide Contains;
    if assumptions != [] {
      var before, last := assumptions[..|assumptions| - 1], assumptions[|assumptions| - 1];
      OpenOnly(before, cs, a);
      assert assumptions == before + [last];
    }
  }
}
