// The repairs of a normalized query, value by value.
module Repairs {
  import opened Options
  import opened Text
  import opened Selection
  import opened Normalizer

  // ---------------------------------------------------------------------
  // Validation
  // ---------------------------------------------------------------------

  // What stands for an enumerated value: itself if it is valid up to case, else the default.
  function OrDefault(v: Option<string>, valid: set<string>, default: string): Option<string> {
    if v.Some? && (v.value in valid || Upper(v.value) in valid) then v else Some(default)
  }

  lemma FixIs(v: Option<string>, valid: set<string>, default: string)
    requires "" !in valid
    ensures Fix(v, valid, default) == OrDefault(v, valid, default)
    ensures Corrected(v, valid).Some? <==> UpToCase(v, valid)
  {
    assert Upper("") == "";
  }

  lemma IntentReplaced(q: Query)
    ensures
      var given, r := q.intent.primary, Validated(q).intent.primary;
      && (UpToCase(given, INTENTS) ==> r == Some(if given.value in INTENTS then given.value else Upper(given.value)))
      && (!UpToCase(given, INTENTS) ==> r == Some("EXTRACT"))
      && (PrimaryReplaced in Errors(q) <==> !UpToCase(given, INTENTS))
  {
    FixIs(q.intent.primary, INTENTS, "EXTRACT");
    OnlyModifiers(q.modifiers);
  }

  lemma {:induction false} OnlyModifiers(ms: seq<Modifier>)
    ensures PrimaryReplaced !in ModifierErrors(ms)
  {
    if ms != [] {
      OnlyModifiers(ms[..|ms| - 1]);
    }
  }

  function EntityMeant(e: Entity): Entity {
    Entity(e.term, e.normalized, OrDefault(e.kind, ENTITY_TYPES, "DIRECT"), false)
  }

  function MeasureMeant(m: Measure): Measure {
    Measure(m.term, m.normalized, OrDefault(m.agg, AGG_FUNCS, "UNKNOWN"), OrDefault(m.kind, MEASURE_TYPES, "RAW"))
  }

  function DimensionMeant(d: Dimension): Dimension {
    Dimension(d.term, OrDefault(d.role, DIM_ROLES, "DISPLAY"), OrDefault(d.granularity, GRANULARITIES, "UNKNOWN"))
  }

  // The kind and the position are filled in, and every value is written as a text.
  ghost predicate FilterMeant(f: Filter, g: Filter) {
    && g.kind == OrDefault(f.kind, FILTER_TYPES, "EQUALS")
    && g.position == OrDefault(f.position, FILTER_POSITIONS, "PRE_AGG")
    && |g.values| == |f.values|
    && forall i :: 0 <= i < |f.values| ==>
         g.values[i] == Written(if f.values[i].Written? then f.values[i].text else f.values[i].printed)
  }

  lemma EntityFilled(e: Entity)
    ensures FixEntity(e) == EntityMeant(e)
  {
    FixIs(e.kind, ENTITY_TYPES, "DIRECT");
  }

  lemma MeasureFilled(m: Measure)
    ensures FixMeasure(m) == MeasureMeant(m)
  {
    FixIs(m.agg, AGG_FUNCS, "UNKNOWN");
    FixIs(m.kind, MEASURE_TYPES, "RAW");
  }

  lemma DimensionFilled(d: Dimension)
    ensures FixDimension(d) == DimensionMeant(d)
  {
    FixIs(d.role, DIM_ROLES, "DISPLAY");
    FixIs(d.granularity, GRANULARITIES, "UNKNOWN");
  }

  lemma FilterFilled(f: Filter)
    ensures FilterMeant(f, FixFilter(f))
  {
    hide Fix, OrDefault, Corrected;
    FixIs(f.kind, FILTER_TYPES, "EQUALS");
    FixIs(f.position, FILTER_POSITIONS, "PRE_AGG");
  }

  // The members of four slots stay as many and in order; each field that is not valid up
  // to case gets its default.
  lemma DefaultsFilled(q: Query)
    ensures
      var r := Validated(q);
      && |r.entities| == |q.entities| && |r.measures| == |q.measures|
      && |r.dimensions| == |q.dimensions| && |r.filters| == |q.filters|
      && (forall k :: 0 <= k < |q.entities| ==> r.entities[k] == EntityMeant(q.entities[k]))
      && (forall k :: 0 <= k < |q.measures| ==> r.measures[k] == MeasureMeant(q.measures[k]))
      && (forall k :: 0 <= k < |q.dimensions| ==> r.dimensions[k] == DimensionMeant(q.dimensions[k]))
      && (forall k :: 0 <= k < |q.filters| ==> FilterMeant(q.filters[k], r.filters[k]))
  {
    hide FixEntity, FixMeasure, FixDimension, FixFilter, EntityMeant, MeasureMeant, DimensionMeant, FilterMeant;
    forall e: Entity ensures FixEntity(e) == EntityMeant(e) {
      EntityFilled(e);
    }
    forall m: Measure ensures FixMeasure(m) == MeasureMeant(m) {
      MeasureFilled(m);
    }
    forall d: Dimension ensures FixDimension(d) == DimensionMeant(d) {
      DimensionFilled(d);
    }
    forall f ensures FilterMeant(f, FixFilter(f)) {
      FilterFilled(f);
    }
  }

  // A period without a way to resolve it is left alone.
  function PeriodMeant(p: Option<Period>): Option<Period> {
    if p.Some? && p.value.resolve.Some? && p.value.resolve.value != "" then
      Some(Period(OrDefault(p.value.resolve, RESOLVES, "ABSOLUTE_RANGE")))
    else p
  }

  lemma SlotsFilled(q: Query)
    ensures
      var r := Validated(q);
      && r.time.kind == OrDefault(q.time.kind, TIME_TYPES, "NONE")
      && r.time.base == PeriodMeant(q.time.base) && r.time.compare == PeriodMeant(q.time.compare)
      && r.hint.Some?
      && r.hint.value.columns == (if q.hint.Some? then q.hint.value.columns else [])
      && r.hint.value.format == (if q.hint.Some? then OrDefault(q.hint.value.format, FORMATS, "NONE") else Some("NONE"))
      && r.original == q.original && r.rewritten == q.rewritten
      && r.ambiguities == q.ambiguities && r.keywords == q.keywords
  {
    FixIs(q.time.kind, TIME_TYPES, "NONE");
    if q.time.base.Some? {
      FixIs(q.time.base.value.resolve, RESOLVES, "ABSOLUTE_RANGE");
    }
    if q.time.compare.Some? {
      FixIs(q.time.compare.value.resolve, RESOLVES, "ABSOLUTE_RANGE");
    }
    if q.hint.Some? {
      FixIs(q.hint.value.format, FORMATS, "NONE");
    }
  }

  predicate Kept(m: Modifier) {
    UpToCase(m.kind, MOD_TYPES) && !m.remove
  }

  // A direction that is given but not meant sorts downwards.
  function Directed(m: Modifier): Modifier {
    Modifier(m.kind,
             if m.direction.Some? && m.direction.value != "" then OrDefault(m.direction, {"ASC", "DESC"}, "DESC")
             else m.direction,
             m.rankBy, m.remove)
  }

  lemma ModifierMeant(m: Modifier)
    ensures Meant(m) <==> UpToCase(m.kind, MOD_TYPES)
    ensures FixDirection(m) == Directed(m)
  {
    FixIs(m.kind, MOD_TYPES, "SORT");
    FixIs(m.direction, {"ASC", "DESC"}, "DESC");
  }

  // The modifiers that remain are those with a valid kind which nobody marked, in order.
  lemma {:induction false} ModifiersKept(ms: seq<Modifier>)
    ensures Keeps(ValidModifiers(ms), ms, Kept, Directed)
  {
    hide Meant, FixDirection, Directed, UpToCase, Keeps;
    if ms == [] {
      KeepsNone(Kept, Directed);
    } else {
      var before, last := ms[..|ms| - 1], ms[|ms| - 1];
      ModifiersKept(before);
      assert ms == before + [last];
      ModifierMeant(last);
      KeepsPush(ValidModifiers(before), before, last, Kept, Directed);
    }
  }

  // Exactly the modifiers with an invalid kind are reported.
  lemma {:induction false} RemovedReported(ms: seq<Modifier>)
    ensures forall k: nat :: ModifierRemoved(k) in ModifierErrors(ms) <==> k < |ms| && !UpToCase(ms[k].kind, MOD_TYPES)
  {
    hide Meant, UpToCase;
    if ms != [] {
      RemovedReported(ms[..|ms| - 1]);
      ModifierMeant(ms[|ms| - 1]);
    }
  }

  lemma {:induction false} SecondariesKept(xs: seq<string>)
    ensures Keeps(ValidSecondaries(xs), xs, s => s in INTENTS || Upper(s) in INTENTS,
                  s => if s in INTENTS then s else Upper(s))
  {
    var p := s => s in INTENTS || Upper(s) in INTENTS;
    var f := s => if s in INTENTS then s else Upper(s);
    if xs == [] {
      KeepsNone(p, f);
    } else {
      var before, last := xs[..|xs| - 1], xs[|xs| - 1];
      SecondariesKept(before);
      assert xs == before + [last];
      FixIs(Some(last), INTENTS, "EXTRACT");
      KeepsPush(ValidSecondaries(before), before, last, p, f);
    }
  }

  // ---------------------------------------------------------------------
  // Post-processing
  // ---------------------------------------------------------------------

  lemma GroupsIs(q: Query)
    ensures Groups(q) <==> (exists d :: d in q.dimensions && d.role == Some("GROUP"))
                           || Some("AGGREGATE") == q.intent.primary || "AGGREGATE" in q.intent.secondary
  {
    if i :| 0 <= i < |q.dimensions| && q.dimensions[i].role == Some("GROUP") {
      assert q.dimensions[i] in q.dimensions;
    }
    if d :| d in q.dimensions && d.role == Some("GROUP") {
      var i :| 0 <= i < |q.dimensions| && q.dimensions[i] == d;
    }
  }

  // Where a dimension groups, or an intent aggregates, each aggregate NONE becomes SUM.
  lemma AggregatesBecomeSums(q: Query, k: nat)
    requires k < |q.measures|
    ensures
      var m, r := q.measures[k], Postprocessed(q).measures;
      var grouped := (exists d :: d in q.dimensions && d.role == Some("GROUP"))
                     || Some("AGGREGATE") == q.intent.primary || "AGGREGATE" in q.intent.secondary;
      && |r| == |q.measures|
      && r[k] == Measure(m.term, m.normalized, if grouped && m.agg == Some("NONE") then Some("SUM") else m.agg, m.kind)
  {
    hide HistoryText, Optimized, Missing, Postprocessed, Groups;
    AggregatesRepaired(q);
    GroupsIs(q);
    assert Groups(q) ==> Postprocessed(q).measures[k] == Repair(q.measures[k]);
  }

  // Each rank by nothing is by the term of the first measure; nothing else about the
  // modifiers changes.
  lemma RanksByFirstMeasure(q: Query)
    ensures
      var r := Postprocessed(q).modifiers;
      && |r| == |q.modifiers|
      && forall k :: 0 <= k < |r| ==>
           var m := q.modifiers[k];
           r[k] == if m.kind == Some("RANK") && m.rankBy == "" && |q.measures| > 0
                   then Modifier(m.kind, m.direction, q.measures[0].term, m.remove) else m
  {
    hide HistoryText, Optimized, Missing, Postprocessed, Groups, Questions, MeasuresAfter, MetaAfter;
    PostprocessShape(q);
  }

  // The columns appended are those not known yet, in order.
  lemma {:induction false} MissingKept(columns: seq<string>, existing: seq<string>)
    ensures Keeps(Missing(columns, existing), columns, c => c !in existing, c => c)
  {
    var p, f := (c: string) => c !in existing, (c: string) => c;
    if columns == [] {
      KeepsNone(p, f);
    } else {
      var before, last := columns[..|columns| - 1], columns[|columns| - 1];
      MissingKept(before, existing);
      assert columns == before + [last];
      KeepsPush(Missing(before, existing), before, last, p, f);
    }
  }

  // Neither blank nor a stopword.
  predicate Says(kw: string) {
    var word := Strip(kw);
    word != "" && word !in STOPWORDS
  }

  lemma SaysCounts(kw: string)
    ensures Says(kw) <==> Counts(kw)
  {
    hide Strip;
  }

  lemma {:induction false} StrippedKept(kws: seq<string>)
    ensures Keeps(Stripped(kws), kws, Says, Strip)
  {
    hide Counts, Strip, Says;
    if kws != [] {
      var before, last := kws[..|kws| - 1], kws[|kws| - 1];
      StrippedKept(before);
      assert kws == before + [last];
      assert Says(last) <==> Counts(last) by { SaysCounts(last); }
      KeepsPush(Stripped(before), before, last, Says, Strip);
    }
  }

  lemma {:induction false} NewTermsKept(terms: seq<string>, base: string)
    ensures Keeps(NewTerms(terms, base), terms, t => t != "" && !Contains(Lower(base), Lower(t)), t => t)
  {
    hide Contains, Lower;
    var p, f := (t: string) => t != "" && !Contains(Lower(base), Lower(t)), (t: string) => t;
    if terms == [] {
      KeepsNone(p, f);
    } else {
      var before, last := terms[..|terms| - 1], terms[|terms| - 1];
      NewTermsKept(before, base);
      assert terms == before + [last];
      KeepsPush(NewTerms(before, base), before, last, p, f);
    }
  }

  // ---------------------------------------------------------------------
  // The search text
  // ---------------------------------------------------------------------

  // t is s without the whitespace at its two ends.
  ghost predicate Trims(t: string, s: string) {
    exists a, b ::
      s == a + t + b && Blank(a) && Blank(b) && (t != "" ==> !IsSpace(t[0]) && !IsSpace(t[|t| - 1]))
  }

  lemma {:induction false} TrimLeftIs(s: string) returns (a: string)
    ensures Blank(a) && s == a + TrimLeft(s)
  {
    if s != "" && IsSpace(s[0]) {
      a := TrimLeftIs(s[1..]);
      a := [s[0]] + a;
    } else {
      a := "";
    }
  }

  lemma {:induction false} TrimRightIs(s: string) returns (b: string)
    ensures Blank(b) && s == TrimRight(s) + b
  {
    if s != "" && IsSpace(s[|s| - 1]) {
      b := TrimRightIs(s[..|s| - 1]);
      b := b + [s[|s| - 1]];
    } else {
      b := "";
    }
  }

  lemma StripTrims(s: string)
    ensures Trims(Strip(s), s)
  {
    var a := TrimLeftIs(s);
    var l := TrimLeft(s);
    var b := TrimRightIs(l);
    assert s == a + Strip(s) + b;
    if Strip(s) != "" {
      assert Strip(s)[0] == l[0];
    }
  }

  // What the text is built on: the rewritten question, or the original if there is none.
  function Question(q: Query): string {
    if q.rewritten == "" then q.original else q.rewritten
  }

  lemma JoinStarts(sep: string, first: string, rest: seq<string>)
    ensures Join(sep, [first] + rest) == first + (if rest == [] then "" else sep + Join(sep, rest))
  {
    assert ([first] + rest)[1..] == rest;
  }

  // The base mentions the verb of the intent and all terms already.
  ghost predicate SaysAll(q: Query, base: string) {
    && Contains(base, ActionOf(q.intent.primary))
    && forall t :: t in Terms(q) ==> t == "" || Contains(Lower(base), Lower(t))
  }

  // The text starts with that question without the whitespace around it, and is no more
  // than it if that says all.
  lemma SearchTextStarts(q: Query)
    ensures exists base ::
      && Trims(base, Question(q)) && base <= HistoryText(q)
      && (SaysAll(q, base) ==> HistoryText(q) == base)
  {
    hide Strip, Lower, Contains, Join, Terms, ActionOf;
    StripTrims(Question(q));
    var base, action := Base(q), ActionOf(q.intent.primary);
    assert base == Strip(Question(q));
    var verb := if action != "" && !Contains(base, action) then [action] else [];
    var news := NewTerms(Terms(q), base);
    if base != "" {
      JoinStarts(" ", base, verb + news);
      assert [base] + verb + news == [base] + (verb + news);
    }
    if SaysAll(q, base) {
      NothingNew(Terms(q), base);
      JoinNothing();
      assert [] + [] + news == [];
    }
  }

  lemma JoinNothing()
    ensures Join(" ", []) == ""
  {
  }

  lemma {:induction false} NothingNew(terms: seq<string>, base: string)
    requires forall t :: t in terms ==> t == "" || Contains(Lower(base), Lower(t))
    ensures NewTerms(terms, base) == []
  {
    hide Contains, Lower;
    if terms != [] {
      assert terms[|terms| - 1] in terms;
      NothingNew(terms[..|terms| - 1], base);
    }
  }

  // With one entity, measure and dimension the question does not mention, nor the verb:
  // question, verb, entity, measure and the axis of the dimension follow each other.
  lemma SearchTextOrder(q: Query, base: string, e: Entity, m: Measure, d: Dimension)
    requires q.rewritten == base != "" && !IsSpace(base[0]) && !IsSpace(base[|base| - 1])
    requires q.entities == [e] && q.measures == [m] && q.dimensions == [d] && q.intent.primary == Some("AGGREGATE")
    requires e.normalized != "" && m.normalized == "" && m.term != "" && d.term != "" && PER !in d.term
    requires !Contains(base, "\U{C9D1}\U{ACC4}")
    requires !Contains(Lower(base), Lower(e.normalized)) && !Contains(Lower(base), Lower(m.term))
    requires !Contains(Lower(base), Lower(d.term + "\U{BCC4}"))
    ensures HistoryText(q) ==
      base + " " + "\U{C9D1}\U{ACC4}" + " " + e.normalized + " " + m.term + " " + (d.term + "\U{BCC4}")
  {
    hide Lower, Contains, Join, Strip, IsSpace, ActionOf, Terms, NewTerms;
    var action, axis := "\U{C9D1}\U{ACC4}", d.term + "\U{BCC4}";
    TrimmedStays(base);
    Aggregates(q.intent);
    assert action != "";
    TermsOfThree(q, e, m, d);
    AllNew(Terms(q), base);
    JoinFive(base, action, e.normalized, m.term, axis);
    assert [base] + [action] + [e.normalized, m.term, axis] == [base, action, e.normalized, m.term, axis];
  }

  lemma Aggregates(i: Intent)
    requires i.primary == Some("AGGREGATE")
    ensures ActionOf(i.primary) == "\U{C9D1}\U{ACC4}"
  {
  }

  lemma TermsOfThree(q: Query, e: Entity, m: Measure, d: Dimension)
    requires q.entities == [e] && q.measures == [m] && q.dimensions == [d]
    requires e.normalized != "" && m.normalized == "" && d.term != "" && PER !in d.term
    ensures Terms(q) == [e.normalized, m.term, d.term + "\U{BCC4}"]
  {
    assert d.term[|d.term| - 1] in d.term;
    assert DimensionTerm(d) == d.term + "\U{BCC4}" && EntityTerm(e) == e.normalized && MeasureTerm(m) == m.term;
    assert Map(q.entities, EntityTerm) == [EntityTerm(e)] && Map(q.measures, MeasureTerm) == [MeasureTerm(m)];
    assert Map(q.dimensions, DimensionTerm) == [DimensionTerm(d)];
  }

  lemma JoinFive(a: string, b: string, c: string, d: string, e: string)
    ensures Join(" ", [a, b, c, d, e]) == a + " " + b + " " + c + " " + d + " " + e
  {
    hide Join;
    JoinStarts(" ", e, []);
    JoinStarts(" ", d, [e]);
    JoinStarts(" ", c, [d, e]);
    JoinStarts(" ", b, [c, d, e]);
    JoinStarts(" ", a, [b, c, d, e]);
    assert [e] + [] == [e] && [d] + [e] == [d, e] && [c] + [d, e] == [c, d, e];
    assert [b] + [c, d, e] == [b, c, d, e] && [a] + [b, c, d, e] == [a, b, c, d, e];
  }

  lemma TrimmedStays(s: string)
    requires s != "" && !IsSpace(s[0]) && !IsSpace(s[|s| - 1])
    ensures Strip(s) == s
  {
  }

  lemma {:induction false} AllNew(terms: seq<string>, base: string)
    requires forall k :: 0 <= k < |terms| ==> terms[k] != "" && !Contains(Lower(base), Lower(terms[k]))
    ensures NewTerms(terms, base) == terms
  {
    hide Contains, Lower;
    if terms != [] {
      AllNew(terms[..|terms| - 1], base);
      assert terms == terms[..|terms| - 1] + [terms[|terms| - 1]];
    }
  }

  // ---------------------------------------------------------------------
  // Words
  // ---------------------------------------------------------------------

  // The axis of a dimension ends in the particle for "by", once.
  lemma AxisIs(d: Dimension)
    ensures d.term == "" ==> DimensionTerm(d) == ""
    ensures d.term != "" && d.term[|d.term| - 1] == '\U{BCC4}' ==> DimensionTerm(d) == d.term
    ensures d.term != "" && d.term[|d.term| - 1] != '\U{BCC4}' ==> DimensionTerm(d) == d.term + "\U{BCC4}"
  {
  }

  lemma VerbsAre()
    ensures ActionOf(Some("EXTRACT")) == "\U{C870}\U{D68C}" && ActionOf(Some("AGGREGATE")) == "\U{C9D1}\U{ACC4}"
    ensures ActionOf(Some("COMPARE")) == "\U{BE44}\U{AD50}" && ActionOf(Some("RANK")) == "\U{C21C}\U{C704}"
    ensures ActionOf(Some("TREND")) == "\U{CD94}\U{C774} \U{BD84}\U{C11D}"
    ensures ActionOf(Some("DISTRIBUTE")) == "\U{BD84}\U{D3EC}"
    ensures ActionOf(Some("EXIST_CHECK")) == "\U{C874}\U{C7AC} \U{C5EC}\U{BD80} \U{D655}\U{C778}"
    ensures ActionOf(Some("DEDUP")) == "\U{C911}\U{BCF5} \U{C81C}\U{AC70}"
    ensures ActionOf(Some("PIVOT")) == "\U{AD50}\U{CC28} \U{BD84}\U{C11D}"
    ensures ActionOf(None) == "" && forall w :: w !in INTENTS ==> ActionOf(Some(w)) == ""
  {
  }
}
