// Repairing the slots a language model filled in: validation, then post-processing.
module Normalizer {
  import opened Options
  import opened Text
  import opened FirstSeen

  // ---------------------------------------------------------------------
  // Slots. A field that may be missing, null or empty is an Option.
  // ---------------------------------------------------------------------

  datatype Intent = Intent(primary: Option<string>, secondary: seq<string>)
  datatype Entity = Entity(term: string, normalized: string, kind: Option<string>, hasConfidence: bool)
  datatype Measure = Measure(term: string, normalized: string, agg: Option<string>, kind: Option<string>)
  datatype Dimension = Dimension(term: string, role: Option<string>, granularity: Option<string>)

  // A filter value as the model wrote it: a text, or a number with its printed form.
  datatype Value = Written(text: string) | Number(printed: string)

  datatype Filter = Filter(kind: Option<string>, position: Option<string>, values: seq<Value>)
  datatype Period = Period(resolve: Option<string>)
  datatype Time = Time(kind: Option<string>, base: Option<Period>, compare: Option<Period>)
  datatype Modifier = Modifier(kind: Option<string>, direction: Option<string>, rankBy: string, remove: bool)
  datatype Hint = Hint(format: Option<string>, columns: seq<string>)
  datatype Keywords = Keywords(meta: Option<seq<string>>, history: string)
  datatype Ambiguity = Ambiguity(term: string, inferred: string)

  datatype Query = Query(
    original: string,
    rewritten: string,
    intent: Intent,
    entities: seq<Entity>,
    measures: seq<Measure>,
    dimensions: seq<Dimension>,
    filters: seq<Filter>,
    time: Time,
    modifiers: seq<Modifier>,
    hint: Option<Hint>,
    ambiguities: seq<Ambiguity>,
    keywords: Option<Keywords>
  )

  const INTENTS := {"EXTRACT", "AGGREGATE", "COMPARE", "TREND", "RANK", "DISTRIBUTE", "EXIST_CHECK", "DEDUP", "PIVOT"}
  const ENTITY_TYPES := {"DIRECT", "INDIRECT", "IMPLIED"}
  const AGG_FUNCS := {"SUM", "AVG", "COUNT", "COUNT_DISTINCT", "MAX", "MIN", "NONE", "UNKNOWN"}
  const MEASURE_TYPES := {"RAW", "DERIVED", "RATIO", "WINDOW"}
  const DIM_ROLES := {"GROUP", "PARTITION", "FILTER", "DISPLAY"}
  const GRANULARITIES := {"YEAR", "QUARTER", "MONTH", "WEEK", "DAY", "HOUR", "UNKNOWN", "INDIVIDUAL", "CATEGORY",
    "HIERARCHY"}
  const FILTER_TYPES := {"EQUALS", "NOT_EQUALS", "IN", "NOT_IN", "RANGE", "GT", "GTE", "LT", "LTE", "LIKE",
                         "IS_NULL", "IS_NOT_NULL", "EXISTS", "NOT_EXISTS", "IMPLICIT"}
  const FILTER_POSITIONS := {"PRE_AGG", "POST_AGG"}
  const TIME_TYPES := {"ABSOLUTE", "RELATIVE", "COMPARISON", "CUMULATIVE", "NONE"}
  const RESOLVES := {"TODAY", "YESTERDAY", "LAST_N_DAYS", "THIS_WEEK", "LAST_WEEK", "LAST_N_WEEKS", "THIS_MONTH",
    "LAST_MONTH",
                     "LAST_N_MONTHS", "THIS_QUARTER", "LAST_QUARTER", "PREVIOUS_QUARTER", "LAST_N_QUARTERS",
                       "THIS_HALF",
                     "LAST_HALF", "THIS_YEAR", "LAST_YEAR", "LAST_N_YEARS", "YTD", "MTD", "QTD", "ABSOLUTE_RANGE"}
  const MOD_TYPES := {"SORT", "LIMIT", "RANK", "RATIO", "DELTA", "DELTA_RATE", "CUMULATIVE", "MOVING_AVG", "PERCENTAGE"}
  const DIRECTIONS := {"ASC", "DESC"}
  const FORMATS := {"SPEC_SHEET", "SUMMARY", "DETAIL_LIST", "REPORT", "COMPARISON", "NONE"}

  // ---------------------------------------------------------------------
  // Validation
  // ---------------------------------------------------------------------

  predicate Falsy(v: Option<string>) {
    v.None? || v.value == ""
  }

  // The valid value meant, in its own or in upper case.
  function Corrected(v: Option<string>, valid: set<string>): Option<string> {
    if Falsy(v) then None
    else if v.value in valid then v
    else if Upper(v.value) in valid then Some(Upper(v.value))
    else None
  }

  // What most validators leave: a correctable value as it is, anything else the default.
  function Fix(v: Option<string>, valid: set<string>, default: string): Option<string> {
    if Corrected(v, valid).Some? then v else Some(default)
  }

  function ValidSecondaries(xs: seq<string>): seq<string> {
    if xs == [] then []
    else
      var last := Corrected(Some(xs[|xs| - 1]), INTENTS);
      ValidSecondaries(xs[..|xs| - 1]) + (if last.Some? then [last.value] else [])
  }

  function FixIntent(i: Intent): Intent {
    var primary := Corrected(i.primary, INTENTS);
    Intent(if primary.Some? then primary else Some("EXTRACT"), ValidSecondaries(i.secondary))
  }

  function FixEntity(e: Entity): Entity {
    e.(kind := Fix(e.kind, ENTITY_TYPES, "DIRECT"), hasConfidence := false)
  }

  function FixMeasure(m: Measure): Measure {
    m.(agg := Fix(m.agg, AGG_FUNCS, "UNKNOWN"), kind := Fix(m.kind, MEASURE_TYPES, "RAW"))
  }

  function FixDimension(d: Dimension): Dimension {
    d.(role := Fix(d.role, DIM_ROLES, "DISPLAY"), granularity := Fix(d.granularity, GRANULARITIES, "UNKNOWN"))
  }

  function Str(v: Value): Value {
    if v.Number? then Written(v.printed) else v
  }

  function FixFilter(f: Filter): Filter {
    Filter(Fix(f.kind, FILTER_TYPES, "EQUALS"), Fix(f.position, FILTER_POSITIONS, "PRE_AGG"),
           seq(|f.values|, i requires 0 <= i < |f.values| => Str(f.values[i])))
  }

  function FixPeriod(p: Option<Period>): Option<Period> {
    if p.Some? && !Falsy(p.value.resolve) then Some(Period(Fix(p.value.resolve, RESOLVES, "ABSOLUTE_RANGE"))) else p
  }

  function FixTime(t: Time): Time {
    Time(Fix(t.kind, TIME_TYPES, "NONE"), FixPeriod(t.base), FixPeriod(t.compare))
  }

  function FixDirection(m: Modifier): Modifier {
    if Falsy(m.direction) then m else m.(direction := Fix(m.direction, DIRECTIONS, "DESC"))
  }

  predicate Meant(m: Modifier) {
    Corrected(m.kind, MOD_TYPES).Some?
  }

  function ValidModifiers(ms: seq<Modifier>): seq<Modifier> {
    if ms == [] then []
    else
      var last := ms[|ms| - 1];
      ValidModifiers(ms[..|ms| - 1]) + (if Meant(last) && !last.remove then [FixDirection(last)] else [])
  }

  function FixHint(h: Option<Hint>): Option<Hint> {
    if h.Some? then Some(h.value.(format := Fix(h.value.format, FORMATS, "NONE"))) else Some(Hint(Some("NONE"), []))
  }

  function Map<T, U>(xs: seq<T>, f: T -> U): seq<U> {
    seq(|xs|, i requires 0 <= i < |xs| => f(xs[i]))
  }

  function Validated(q: Query): Query {
    q.(intent := FixIntent(q.intent),
       entities := Map(q.entities, FixEntity),
       measures := Map(q.measures, FixMeasure),
       dimensions := Map(q.dimensions, FixDimension),
       filters := Map(q.filters, FixFilter),
       time := FixTime(q.time),
       modifiers := ValidModifiers(q.modifiers),
       hint := FixHint(q.hint))
  }

  datatype Error = PrimaryReplaced | ModifierRemoved(index: nat)

  function ModifierErrors(ms: seq<Modifier>): seq<Error> {
    if ms == [] then []
    else ModifierErrors(ms[..|ms| - 1]) + (if Meant(ms[|ms| - 1]) then [] else [ModifierRemoved(|ms| - 1)])
  }

  function Errors(q: Query): seq<Error> {
    (if Corrected(q.intent.primary, INTENTS).Some? then [] else [PrimaryReplaced]) + ModifierErrors(q.modifiers)
  }

  // ---------------------------------------------------------------------
  // What validation guarantees
  // ---------------------------------------------------------------------

  predicate UpToCase(v: Option<string>, valid: set<string>) {
    v.Some? && (v.value in valid || Upper(v.value) in valid)
  }

  predicate PeriodValid(p: Option<Period>) {
    p.None? || Falsy(p.value.resolve) || UpToCase(p.value.resolve, RESOLVES)
  }

  predicate EntityValid(e: Entity) {
    UpToCase(e.kind, ENTITY_TYPES) && !e.hasConfidence
  }

  predicate MeasureValid(m: Measure) {
    UpToCase(m.agg, AGG_FUNCS) && UpToCase(m.kind, MEASURE_TYPES)
  }

  predicate DimensionValid(d: Dimension) {
    UpToCase(d.role, DIM_ROLES) && UpToCase(d.granularity, GRANULARITIES)
  }

  predicate FilterValid(f: Filter) {
    UpToCase(f.kind, FILTER_TYPES) && UpToCase(f.position, FILTER_POSITIONS) && forall v :: v in f.values ==> v.Written?
  }

  predicate ModifierValid(m: Modifier) {
    Meant(m) && !m.remove && (Falsy(m.direction) || UpToCase(m.direction, DIRECTIONS))
  }

  // Every enumerated field is valid up to case; the intents are valid as they are.
  ghost predicate Valid(q: Query) {
    && q.intent.primary.Some? && q.intent.primary.value in INTENTS
    && (forall s :: s in q.intent.secondary ==> s in INTENTS)
    && (forall e :: e in q.entities ==> EntityValid(e))
    && (forall m :: m in q.measures ==> MeasureValid(m))
    && (forall d :: d in q.dimensions ==> DimensionValid(d))
    && (forall f :: f in q.filters ==> FilterValid(f))
    && UpToCase(q.time.kind, TIME_TYPES) && PeriodValid(q.time.base) && PeriodValid(q.time.compare)
    && (forall m :: m in q.modifiers ==> ModifierValid(m))
    && q.hint.Some? && UpToCase(q.hint.value.format, FORMATS)
  }

  lemma FixIsValid(v: Option<string>, valid: set<string>, default: string)
    requires default in valid && "" !in valid
    ensures UpToCase(Fix(v, valid, default), valid)
    ensures UpToCase(v, valid) ==> Fix(v, valid, default) == v
  {
    assert Upper("") == "";
  }

  lemma EntityFixed(e: Entity)
    ensures EntityValid(FixEntity(e)) && (EntityValid(e) ==> FixEntity(e) == e)
  {
    FixIsValid(e.kind, ENTITY_TYPES, "DIRECT");
  }

  lemma MeasureFixed(m: Measure)
    ensures MeasureValid(FixMeasure(m)) && (MeasureValid(m) ==> FixMeasure(m) == m)
  {
    FixIsValid(m.agg, AGG_FUNCS, "UNKNOWN");
    FixIsValid(m.kind, MEASURE_TYPES, "RAW");
  }

  lemma DimensionFixed(d: Dimension)
    ensures DimensionValid(FixDimension(d)) && (DimensionValid(d) ==> FixDimension(d) == d)
  {
    FixIsValid(d.role, DIM_ROLES, "DISPLAY");
    FixIsValid(d.granularity, GRANULARITIES, "UNKNOWN");
  }

  lemma FilterFixed(f: Filter)
    ensures FilterValid(FixFilter(f)) && (FilterValid(f) ==> FixFilter(f) == f)
  {
    FixIsValid(f.kind, FILTER_TYPES, "EQUALS");
    FixIsValid(f.position, FILTER_POSITIONS, "PRE_AGG");
    if FilterValid(f) {
      forall k | 0 <= k < |f.values| ensures Str(f.values[k]) == f.values[k] {
        assert f.values[k] in f.values;
      }
      assert FixFilter(f).values == f.values;
    }
  }

  lemma PeriodFixed(p: Option<Period>)
    ensures PeriodValid(FixPeriod(p)) && (PeriodValid(p) ==> FixPeriod(p) == p)
  {
    if p.Some? {
      FixIsValid(p.value.resolve, RESOLVES, "ABSOLUTE_RANGE");
    }
  }

  lemma TimeFixed(t: Time)
    ensures
      var r := FixTime(t);
      && UpToCase(r.kind, TIME_TYPES) && PeriodValid(r.base) && PeriodValid(r.compare)
      && (UpToCase(t.kind, TIME_TYPES) && PeriodValid(t.base) && PeriodValid(t.compare) ==> r == t)
  {
    FixIsValid(t.kind, TIME_TYPES, "NONE");
    PeriodFixed(t.base);
    PeriodFixed(t.compare);
  }

  lemma HintFixed(h: Option<Hint>)
    ensures FixHint(h).Some? && UpToCase(FixHint(h).value.format, FORMATS)
    ensures h.Some? && UpToCase(h.value.format, FORMATS) ==> FixHint(h) == h
  {
    if h.Some? {
      FixIsValid(h.value.format, FORMATS, "NONE");
    }
  }

  lemma IntentFixed(i: Intent)
    ensures
      var r := FixIntent(i);
      && r.primary.Some? && r.primary.value in INTENTS && (forall s :: s in r.secondary ==> s in INTENTS)
      && (i.primary.Some? && i.primary.value in INTENTS && (forall s :: s in i.secondary ==> s in INTENTS) ==>
            r == i && Corrected(i.primary, INTENTS).Some?)
  {
    hide Corrected, ValidSecondaries;
    SecondariesValid(i.secondary);
    CorrectedIsValid(i.primary, INTENTS);
  }

  lemma CorrectedIsValid(v: Option<string>, valid: set<string>)
    requires "" !in valid
    ensures Corrected(v, valid).Some? ==> Corrected(v, valid).value in valid
    ensures v.Some? && v.value in valid ==> Corrected(v, valid) == v
  {
  }

  lemma {:induction false} SecondariesValid(xs: seq<string>)
    ensures forall s :: s in ValidSecondaries(xs) ==> s in INTENTS
    ensures (forall s :: s in xs ==> s in INTENTS) ==> ValidSecondaries(xs) == xs
  {
    if xs != [] {
      var before := xs[..|xs| - 1];
      SecondariesValid(before);
      assert xs == before + [xs[|xs| - 1]];
      assert xs[|xs| - 1] in xs && "" !in INTENTS;
    }
  }

  lemma DirectionFixed(m: Modifier)
    ensures Meant(m) && !m.remove ==> ModifierValid(FixDirection(m))
    ensures ModifierValid(m) ==> Meant(m) && !m.remove && FixDirection(m) == m
  {
    FixIsValid(m.direction, DIRECTIONS, "DESC");
  }

  lemma ModifiersPush(before: seq<Modifier>, last: Modifier)
    ensures ValidModifiers(before + [last]) == ValidModifiers(before) +
      (if Meant(last) && !last.remove then [FixDirection(last)] else [])
    ensures ModifierErrors(before + [last]) == ModifierErrors(before) +
      (if Meant(last) then [] else [ModifierRemoved(|before|)])
  {
    hide Meant, FixDirection;
    assert (before + [last])[..|before|] == before;
  }

  lemma {:induction false} ModifiersValid(ms: seq<Modifier>)
    ensures forall m :: m in ValidModifiers(ms) ==> ModifierValid(m)
    ensures (forall m :: m in ms ==> ModifierValid(m)) ==> ValidModifiers(ms) == ms && ModifierErrors(ms) == []
  {
    hide Meant, FixDirection, ModifierValid, ValidModifiers, ModifierErrors;
    if ms == [] {
      NothingModified();
    } else {
      var before, last := ms[..|ms| - 1], ms[|ms| - 1];
      ModifiersValid(before);
      DirectionFixed(last);
      assert ms == before + [last];
      ModifiersPush(before, last);
      if forall m :: m in ms ==> ModifierValid(m) {
        assert last in ms && forall m :: m in before ==> m in ms;
      }
    }
  }

  lemma NothingModified()
    ensures ValidModifiers([]) == [] && ModifierErrors([]) == []
  {
  }

  lemma ValidationValidates(q: Query)
    ensures Valid(Validated(q))
  {
    hide FixEntity, FixMeasure, FixDimension, FixFilter, FixTime, FixHint, FixIntent, ValidModifiers, UpToCase,
      EntityValid, MeasureValid, DimensionValid, FilterValid, ModifierValid, PeriodValid;
    var r := Validated(q);
    IntentFixed(q.intent);
    ModifiersValid(q.modifiers);
    TimeFixed(q.time);
    HintFixed(q.hint);
    forall e | e in r.entities ensures EntityValid(e) {
      var k :| 0 <= k < |q.entities| && e == FixEntity(q.entities[k]);
      EntityFixed(q.entities[k]);
    }
    forall m | m in r.measures ensures MeasureValid(m) {
      var k :| 0 <= k < |q.measures| && m == FixMeasure(q.measures[k]);
      MeasureFixed(q.measures[k]);
    }
    forall d | d in r.dimensions ensures DimensionValid(d) {
      var k :| 0 <= k < |q.dimensions| && d == FixDimension(q.dimensions[k]);
      DimensionFixed(q.dimensions[k]);
    }
    forall f | f in r.filters ensures FilterValid(f) {
      var k :| 0 <= k < |q.filters| && f == FixFilter(q.filters[k]);
      FilterFixed(q.filters[k]);
    }
  }

  lemma MapStays<T>(xs: seq<T>, f: T -> T)
    requires forall x :: x in xs ==> f(x) == x
    ensures Map(xs, f) == xs
  {
  }

  // A query validates to itself exactly if it is valid already; then nothing is reported.
  lemma ValidStays(q: Query)
    ensures Valid(q) <==> Validated(q) == q
    ensures Valid(q) ==> Errors(q) == []
  {
    hide FixEntity, FixMeasure, FixDimension, FixFilter, FixTime, FixHint, FixIntent, ValidModifiers, UpToCase, Map,
      Corrected, ModifierErrors, EntityValid, MeasureValid, DimensionValid, FilterValid, ModifierValid, PeriodValid;
    if Validated(q) == q {
      ValidationValidates(q);
    }
    if Valid(q) {
      IntentFixed(q.intent);
      ModifiersValid(q.modifiers);
      TimeFixed(q.time);
      HintFixed(q.hint);
      forall e | e in q.entities ensures FixEntity(e) == e {
        EntityFixed(e);
      }
      forall m | m in q.measures ensures FixMeasure(m) == m {
        MeasureFixed(m);
      }
      forall d | d in q.dimensions ensures FixDimension(d) == d {
        DimensionFixed(d);
      }
      forall f | f in q.filters ensures FixFilter(f) == f {
        FilterFixed(f);
      }
      MapStays(q.entities, FixEntity);
      MapStays(q.measures, FixMeasure);
      MapStays(q.dimensions, FixDimension);
      MapStays(q.filters, FixFilter);
    }
  }

  // A second validation changes nothing and reports nothing.
  lemma ValidationIdempotent(q: Query)
    ensures Validated(Validated(q)) == Validated(q) && Errors(Validated(q)) == []
  {
    hide Validated, Valid, Errors;
    ValidationValidates(q);
    ValidStays(Validated(q));
  }

  // ---------------------------------------------------------------------
  // Post-processing
  // ---------------------------------------------------------------------

  const STOPWORDS := {
    "\U{C880}", "\U{C744}", "\U{B97C}", "\U{C774}", "\U{AC00}", "\U{C758}", "\U{C5D0}", "\U{C5D0}\U{C11C}",
    "\U{C73C}\U{B85C}", "\U{B85C}", "\U{D55C}", "\U{B41C}", "\U{D558}\U{B294}", "\U{C788}\U{B294}",
    "\U{D574}\U{C918}", "\U{C918}", "\U{D574}\U{C8FC}\U{C138}\U{C694}", "\U{C54C}\U{B824}\U{C918}",
    "\U{BF51}\U{C544}\U{C918}", "\U{BCF4}\U{C5EC}\U{C918}", "\U{BD84}\U{C11D}\U{D574}\U{C918}",
    "\U{C870}\U{D68C}\U{D574}\U{C918}", "\U{D655}\U{C778}\U{D574}\U{C918}", "\U{BD80}\U{D0C1}", "\U{AC10}\U{C0AC}",
    "\U{ADF8}\U{B9AC}\U{ACE0}", "\U{B610}\U{B294}", "\U{BC0F}", "\U{C640}", "\U{ACFC}"
  }

  // The business verb of an intent.
  function ActionOf(primary: Option<string>): string {
    if primary.None? then ""
    else match primary.value
      case "EXTRACT" => "\U{C870}\U{D68C}"
      case "AGGREGATE" => "\U{C9D1}\U{ACC4}"
      case "COMPARE" => "\U{BE44}\U{AD50}"
      case "TREND" => "\U{CD94}\U{C774} \U{BD84}\U{C11D}"
      case "RANK" => "\U{C21C}\U{C704}"
      case "DISTRIBUTE" => "\U{BD84}\U{D3EC}"
      case "EXIST_CHECK" => "\U{C874}\U{C7AC} \U{C5EC}\U{BD80} \U{D655}\U{C778}"
      case "DEDUP" => "\U{C911}\U{BCF5} \U{C81C}\U{AC70}"
      case "PIVOT" => "\U{AD50}\U{CC28} \U{BD84}\U{C11D}"
      case _ => ""
  }

  const PER := '\U{BCC4}'

  predicate Groups(q: Query) {
    || (exists i :: 0 <= i < |q.dimensions| && q.dimensions[i].role == Some("GROUP"))
    || q.intent.primary == Some("AGGREGATE")
    || "AGGREGATE" in q.intent.secondary
  }

  predicate Unaggregated(m: Measure) {
    m.agg == Some("NONE")
  }

  function Repair(m: Measure): Measure {
    if Unaggregated(m) then m.(agg := Some("SUM")) else m
  }

  function Questions(ms: seq<Measure>): seq<Ambiguity> {
    if ms == [] then []
    else Questions(ms[..|ms| - 1]) + (if Unaggregated(ms[|ms| - 1]) then [Ambiguity(ms[|ms| - 1].term, "SUM")] else [])
  }

  function AggregateFix(q: Query): Query {
    if Groups(q) then q.(measures := Map(q.measures, Repair), ambiguities := q.ambiguities + Questions(q.measures))
      else q
  }

  function RankBy(m: Modifier, term: string): Modifier {
    if m.kind == Some("RANK") && m.rankBy == "" then m.(rankBy := term) else m
  }

  function RankFix(q: Query): Query {
    if q.measures == [] then q
    else
      var term := q.measures[0].term;
      q.(modifiers := seq(|q.modifiers|, i requires 0 <= i < |q.modifiers| => RankBy(q.modifiers[i], term)))
  }

  function Missing(columns: seq<string>, existing: seq<string>): seq<string> {
    if columns == [] then []
    else
      var last := columns[|columns| - 1];
      Missing(columns[..|columns| - 1], existing) + (if last in existing then [] else [last])
  }

  function Columns(q: Query): seq<string> {
    if q.hint.Some? then q.hint.value.columns else []
  }

  function MetaOf(q: Query): seq<string> {
    if q.keywords.Some? && q.keywords.value.meta.Some? then q.keywords.value.meta.value else []
  }

  // Without a keyword dictionary the columns go into a dictionary nobody keeps.
  function HintMerge(q: Query): Query {
    var added := Missing(Columns(q), MetaOf(q));
    if added == [] || q.keywords.None? then q
    else q.(keywords := Some(q.keywords.value.(meta := Some(MetaOf(q) + added))))
  }

  predicate Counts(kw: string) {
    Strip(kw) != "" && Strip(kw) !in STOPWORDS
  }

  function Stripped(kws: seq<string>): seq<string> {
    if kws == [] then []
    else Stripped(kws[..|kws| - 1]) + (if Counts(kws[|kws| - 1]) then [Strip(kws[|kws| - 1])] else [])
  }

  function Optimized(kws: seq<string>): seq<string> {
    Firsts(Stripped(kws), Same)
  }

  function OptimizeKeywords(q: Query): Query {
    if q.keywords.Some? && q.keywords.value.meta.Some? then
      q.(keywords := Some(q.keywords.value.(meta := Some(Optimized(q.keywords.value.meta.value)))))
    else q
  }

  function SlotTerm(normalized: string, term: string): string {
    if normalized != "" then normalized else term
  }

  function Label(term: string): string {
    if term != "" && term[|term| - 1] == PER then term else term + [PER]
  }

  function EntityTerm(e: Entity): string {
    SlotTerm(e.normalized, e.term)
  }

  function MeasureTerm(m: Measure): string {
    SlotTerm(m.normalized, m.term)
  }

  function DimensionTerm(d: Dimension): string {
    if d.term == "" then "" else Label(d.term)
  }

  // All terms a search text should mention; empty ones do not count.
  function Terms(q: Query): seq<string> {
    Map(q.entities, EntityTerm) + Map(q.measures, MeasureTerm) + Map(q.dimensions, DimensionTerm)
  }

  function Base(q: Query): string {
    Strip(if q.rewritten != "" then q.rewritten else q.original)
  }

  // The terms the base text does not mention yet, whatever their case.
  function NewTerms(terms: seq<string>, base: string): seq<string> {
    if terms == [] then []
    else
      var last := terms[|terms| - 1];
      NewTerms(terms[..|terms| - 1], base) + (if last != "" && !Contains(Lower(base), Lower(last)) then [last] else [])
  }

  function HistoryText(q: Query): string {
    var base, action := Base(q), ActionOf(q.intent.primary);
    Join(" ", (if base != "" then [base] else []) + (if action != "" && !Contains(base, action) then [action] else [])
              + NewTerms(Terms(q), base))
  }

  function BuildHistory(q: Query): Query {
    var keywords := if q.keywords.Some? then q.keywords.value else Keywords(None, "");
    q.(keywords := Some(keywords.(history := HistoryText(q))))
  }

  function Postprocessed(q: Query): Query {
    BuildHistory(OptimizeKeywords(HintMerge(RankFix(AggregateFix(q)))))
  }

  // ---------------------------------------------------------------------
  // Aggregates
  // ---------------------------------------------------------------------

  lemma RepairRepairs(m: Measure)
    ensures !Unaggregated(Repair(m)) && Repair(Repair(m)) == Repair(m)
    ensures Repair(m).term == m.term && MeasureTerm(Repair(m)) == MeasureTerm(m)
  {
    assert |"SUM"| == 3 && |"NONE"| == 4;
  }

  // Under grouping no measure is left without an aggregate, each repaired measure is
  // asked about once, in order, and nothing else about the measures changes.
  lemma AggregatesRepaired(q: Query)
    ensures
      var r := Postprocessed(q);
      && r.measures == (if Groups(q) then Map(q.measures, Repair) else q.measures)
      && r.ambiguities == q.ambiguities + (if Groups(q) then Questions(q.measures) else [])
      && (Groups(q) ==> forall m :: m in r.measures ==> !Unaggregated(m))
  {
    hide HistoryText, Optimized, Missing;
    var r := Postprocessed(q);
    if Groups(q) {
      forall m | m in r.measures ensures !Unaggregated(m) {
        var k :| 0 <= k < |q.measures| && m == Repair(q.measures[k]);
        RepairRepairs(q.measures[k]);
      }
    } else {
      assert q.ambiguities + [] == q.ambiguities;
    }
  }

  // The positions of the measures to repair.
  function RepairedAt(ms: seq<Measure>): seq<nat> {
    if ms == [] then []
    else RepairedAt(ms[..|ms| - 1]) + (if Unaggregated(ms[|ms| - 1]) then [|ms| - 1] else [])
  }

  lemma {:induction false} RepairedAtMembers(ms: seq<Measure>, k: nat)
    ensures k in RepairedAt(ms) <==> k < |ms| && Unaggregated(ms[k])
  {
    hide Unaggregated;
    if ms != [] {
      RepairedAtMembers(ms[..|ms| - 1], k);
    }
  }

  // One question for each measure to repair, about its term, in the order of the measures.
  lemma {:induction false} QuestionPerRepair(ms: seq<Measure>)
    ensures |Questions(ms)| == |RepairedAt(ms)|
    ensures forall i :: 0 <= i < |RepairedAt(ms)| ==>
      RepairedAt(ms)[i] < |ms| && Questions(ms)[i] == Ambiguity(ms[RepairedAt(ms)[i]].term, "SUM")
    ensures forall i :: 0 < i < |RepairedAt(ms)| ==> RepairedAt(ms)[i - 1] < RepairedAt(ms)[i]
  {
    hide Unaggregated;
    if ms != [] {
      var before := ms[..|ms| - 1];
      QuestionPerRepair(before);
      var at := RepairedAt(before);
      forall i | 0 <= i < |at| ensures before[at[i]] == ms[at[i]] {
      }
    }
  }

  // Validation only corrects the case of intents, so a NONE in lower case passes it and
  // is not repaired: exactly those spellings survive.
  lemma LowercaseNoneSurvives(q: Query, k: nat)
    requires k < |q.measures| && Groups(Validated(q))
    ensures
      var r := Postprocessed(Validated(q));
      var agg := q.measures[k].agg;
      |r.measures| == |q.measures| &&
      (r.measures[k].agg.Some? && Upper(r.measures[k].agg.value) == "NONE" <==>
         agg.Some? && Upper(agg.value) == "NONE" && agg.value != "NONE")
  {
    hide HistoryText, Optimized, Missing, Groups;
    AggregatesRepaired(Validated(q));
    FixedAgg(q.measures[k]);
  }

  const LOWERCASE := Measure("sales", "sales", Some("none"), Some("RAW"))

  const GROUPED := Query("", "", Intent(Some("AGGREGATE"), []), [], [LOWERCASE], [], [], Time(None, None, None), [],
                         None, [], None)

  lemma LowercaseNoneLeft()
    ensures Groups(Validated(GROUPED))
    ensures |Postprocessed(Validated(GROUPED)).measures| == 1
    ensures Postprocessed(Validated(GROUPED)).measures[0].agg == Some("none")
  {
    hide Postprocessed, Upper, Unaggregated;
    assert GROUPED.intent.primary == Some("AGGREGATE") && Corrected(Some("AGGREGATE"), INTENTS) == Some("AGGREGATE");
    var v := Validated(GROUPED);
    assert v.intent.primary == Some("AGGREGATE");
    NoneInCapitals();
    assert v.measures == [LOWERCASE] && Map([LOWERCASE], Repair) == [LOWERCASE];
    AggregatesRepaired(v);
  }

  lemma NoneInCapitals()
    ensures FixMeasure(LOWERCASE) == LOWERCASE && !Unaggregated(LOWERCASE)
  {
    var none := "none";
    assert Upper(none)[0] == 'N' && Upper(none)[1] == 'O' && Upper(none)[2] == 'N' && Upper(none)[3] == 'E';
    assert Upper(none) == "NONE";
    assert none[0] != 'N' && none != "NONE";
  }

  lemma FixedAgg(m: Measure)
    ensures
      var agg := Repair(FixMeasure(m)).agg;
      agg.Some? && Upper(agg.value) == "NONE" <==> m.agg.Some? && Upper(m.agg.value) == "NONE" && m.agg.value != "NONE"
  {
    hide Upper;
    assert |Upper("UNKNOWN")| == 7 && |Upper("SUM")| == 3 && |"NONE"| == 4 && |Upper("")| == 0;
    assert "NONE" in AGG_FUNCS;
  }

  // ---------------------------------------------------------------------
  // Keywords
  // ---------------------------------------------------------------------

  lemma {:induction false} StrippedMembers(kws: seq<string>, k: string)
    ensures k in Stripped(kws) <==> exists i :: 0 <= i < |kws| && Counts(kws[i]) && Strip(kws[i]) == k
  {
    hide Counts, Strip;
    if kws != [] {
      var before, last := kws[..|kws| - 1], kws[|kws| - 1];
      StrippedMembers(before, k);
      if i :| 0 <= i < |before| && Counts(before[i]) && Strip(before[i]) == k {
        assert kws[i] == before[i];
      }
      if i :| 0 <= i < |kws| && Counts(kws[i]) && Strip(kws[i]) == k {
        assert i < |before| ==> before[i] == kws[i];
      }
    }
  }

  lemma OptimizedMembers(kws: seq<string>)
    ensures forall k :: k in Optimized(kws) <==> exists i :: 0 <= i < |kws| && Counts(kws[i]) && Strip(kws[i]) == k
  {
    forall k ensures k in Optimized(kws) <==> exists i :: 0 <= i < |kws| && Counts(kws[i]) && Strip(kws[i]) == k {
      StrippedMembers(kws, k);
      FirstsKeys(Stripped(kws), Same, k);
      assert k in Optimized(kws) <==> HasKey(Optimized(kws), Same, k);
      assert k in Stripped(kws) <==> HasKey(Stripped(kws), Same, k);
    }
  }

  // Each keyword that is no stopword is kept exactly once, stripped, and no other.
  lemma KeywordsKeptOnce(kws: seq<string>)
    ensures forall k :: k in Optimized(kws) <==>
      k != "" && k !in STOPWORDS && exists i :: 0 <= i < |kws| && Strip(kws[i]) == k
    ensures forall i, j :: 0 <= i < j < |Optimized(kws)| ==> Optimized(kws)[i] != Optimized(kws)[j]
  {
    hide Strip, Stripped;
    FirstsDistinct(Stripped(kws), Same);
    OptimizedMembers(kws);
  }

  lemma {:induction false} TrimLeftTrimmed(s: string)
    requires s == "" || !IsSpace(s[0])
    ensures TrimLeft(s) == s
  {
  }

  lemma {:induction false} TrimRightKeepsHead(s: string)
    requires s != "" && !IsSpace(s[0])
    ensures TrimRight(s) != "" && TrimRight(s)[0] == s[0]
  {
    if IsSpace(s[|s| - 1]) {
      TrimRightKeepsHead(s[..|s| - 1]);
    }
  }

  lemma StripTwice(s: string)
    ensures Strip(Strip(s)) == Strip(s)
  {
    var l := TrimLeft(s);
    if l != "" {
      TrimRightKeepsHead(l);
      TrimLeftTrimmed(TrimRight(l));
    }
    TrimRightTrimmed(TrimRight(l));
  }

  lemma TrimRightTrimmed(s: string)
    requires s == "" || !IsSpace(s[|s| - 1])
    ensures TrimRight(s) == s
  {
  }

  lemma {:induction false} StrippedStays(kws: seq<string>)
    requires forall k :: k in kws ==> Counts(k) && Strip(k) == k
    ensures Stripped(kws) == kws
  {
    if kws != [] {
      assert kws[|kws| - 1] in kws;
      StrippedStays(kws[..|kws| - 1]);
      assert kws == kws[..|kws| - 1] + [kws[|kws| - 1]];
    }
  }

  lemma {:induction false} StrippedConcat(a: seq<string>, b: seq<string>)
    ensures Stripped(a + b) == Stripped(a) + Stripped(b)
    decreases |b|
  {
    if b == [] {
      assert a + b == a;
    } else {
      StrippedConcat(a, b[..|b| - 1]);
      assert (a + b)[..|a + b| - 1] == a + b[..|b| - 1];
    }
  }

  // Adding columns that are there already, or count for nothing, changes nothing.
  lemma {:induction false} FirstsAbsorb(kept: seq<string>, more: seq<string>)
    requires Firsts(kept, Same) == kept && forall k :: k in more ==> k in kept
    ensures Firsts(kept + more, Same) == kept
    decreases |more|
  {
    if more == [] {
      assert kept + more == kept;
    } else {
      var before, last := more[..|more| - 1], more[|more| - 1];
      FirstsAbsorb(kept, before);
      assert kept + more == (kept + before) + [last];
      FirstsPush(kept + before, last, Same);
      assert last in more;
      var i :| 0 <= i < |kept| && kept[i] == last;
      assert Same((kept + before)[i]) == Same(last);
    }
  }

  // Optimising again, with columns from the same hint, changes nothing.
  lemma OptimizedStays(kws: seq<string>, columns: seq<string>)
    ensures
      var once := Optimized(kws + Missing(columns, kws));
      Optimized(once + Missing(columns, once)) == once
  {
    hide Strip;
    var all := kws + Missing(columns, kws);
    var once := Optimized(all);
    var more := Missing(columns, once);
    OptimizedMembers(all);
    forall k | k in once ensures Counts(k) && Strip(k) == k {
      var i :| 0 <= i < |all| && Counts(all[i]) && Strip(all[i]) == k;
      StripTwice(all[i]);
    }
    StrippedStays(once);
    StrippedConcat(once, more);
    FirstsIdempotent(Stripped(all), Same);
    forall k | k in Stripped(more) ensures k in once {
      StrippedMembers(more, k);
      var i :| 0 <= i < |more| && Counts(more[i]) && Strip(more[i]) == k;
      assert more[i] in more;
      MissingMembers(columns, once, more[i]);
      MissingMembers(columns, kws, more[i]);
      assert more[i] in all;
      var j :| 0 <= j < |all| && all[j] == more[i];
      assert Counts(all[j]) && Strip(all[j]) == k;
    }
    FirstsAbsorb(once, Stripped(more));
  }

  lemma {:induction false} MissingMembers(columns: seq<string>, existing: seq<string>, c: string)
    ensures c in Missing(columns, existing) <==> c in columns && c !in existing
  {
    if columns != [] {
      MissingMembers(columns[..|columns| - 1], existing, c);
      assert columns == columns[..|columns| - 1] + [columns[|columns| - 1]];
    }
  }

  // ---------------------------------------------------------------------
  // A second pass
  // ---------------------------------------------------------------------

  function MetaAfter(q: Query): Option<seq<string>> {
    if q.keywords.None? || (q.keywords.value.meta.None? && Missing(Columns(q), []) == []) then None
    else Some(Optimized(MetaOf(q) + Missing(Columns(q), MetaOf(q))))
  }

  function MeasuresAfter(q: Query): seq<Measure> {
    if Groups(q) then Map(q.measures, Repair) else q.measures
  }

  function ModifiersAfter(q: Query): seq<Modifier> {
    if q.measures == [] then q.modifiers
    else seq(|q.modifiers|, i requires 0 <= i < |q.modifiers| => RankBy(q.modifiers[i], q.measures[0].term))
  }

  lemma RepairKeepsTerms(q: Query, r: Query)
    requires r.entities == q.entities && r.dimensions == q.dimensions && r.measures == MeasuresAfter(q)
    requires r.intent == q.intent && r.original == q.original && r.rewritten == q.rewritten
    ensures HistoryText(r) == HistoryText(q)
  {
    hide Contains, Join, Strip, Lower, Groups;
    forall k | 0 <= k < |q.measures| ensures MeasureTerm(r.measures[k]) == MeasureTerm(q.measures[k]) {
      RepairRepairs(q.measures[k]);
    }
    assert Map(r.measures, MeasureTerm) == Map(q.measures, MeasureTerm);
  }

  // The five steps together.
  lemma PostprocessShape(q: Query)
    ensures Postprocessed(q) == q.(
      measures := MeasuresAfter(q),
      ambiguities := q.ambiguities + (if Groups(q) then Questions(q.measures) else []),
      modifiers := ModifiersAfter(q),
      keywords := Some(Keywords(MetaAfter(q), HistoryText(q))))
  {
    hide HistoryText, Optimized, Missing, Groups, Questions;
    var a := AggregateFix(q);
    var b := RankFix(a);
    var c := HintMerge(b);
    var d := OptimizeKeywords(c);
    assert q.ambiguities + [] == q.ambiguities;
    assert a.measures == MeasuresAfter(q) && b.measures == a.measures;
    if q.measures != [] {
      RepairRepairs(q.measures[0]);
    }
    assert b.modifiers == ModifiersAfter(q);
    assert MetaOf(q) + [] == MetaOf(q);
    RepairKeepsTerms(q, d);
  }

  lemma RepairedOnce(q: Query, r: Query)
    requires r.measures == MeasuresAfter(q) && r.dimensions == q.dimensions && r.intent == q.intent
    ensures Groups(r) == Groups(q) && MeasuresAfter(r) == r.measures
    ensures Groups(q) ==> Questions(r.measures) == []
    ensures r.modifiers == ModifiersAfter(q) ==> ModifiersAfter(r) == r.modifiers
  {
    hide Groups;
    forall k | 0 <= k < |q.measures| ensures r.measures[k].term == q.measures[k].term {
      RepairRepairs(q.measures[k]);
    }
    assert Groups(r) == Groups(q) by {
      SameGroups(q, r);
    }
    if Groups(q) {
      forall k | 0 <= k < |r.measures| ensures !Unaggregated(r.measures[k]) && Repair(r.measures[k]) == r.measures[k] {
        RepairRepairs(q.measures[k]);
      }
      NoQuestions(r.measures);
    }
  }

  lemma SameGroups(q: Query, r: Query)
    requires r.dimensions == q.dimensions && r.intent == q.intent
    ensures Groups(r) == Groups(q)
  {
  }

  lemma {:induction false} NoQuestions(ms: seq<Measure>)
    requires forall k :: 0 <= k < |ms| ==> !Unaggregated(ms[k])
    ensures Questions(ms) == []
  {
    if ms != [] {
      NoQuestions(ms[..|ms| - 1]);
    }
  }

  lemma MetaSettles(q: Query, r: Query)
    requires r.hint == q.hint && r.keywords.Some? && r.keywords.value.meta == MetaAfter(q)
    ensures MetaAfter(r) == r.keywords.value.meta <==> q.keywords.Some? || Columns(q) == []
  {
    hide Optimized;
    assert Columns(r) == Columns(q);
    if q.keywords.None? {
      assert MetaOf(r) == [];
      if Columns(q) != [] {
        MissingMembers(Columns(q), [], Columns(q)[0]);
        assert Columns(q)[0] in Columns(q);
      }
    } else if MetaAfter(q).Some? {
      OptimizedStays(MetaOf(q), Columns(q));
    }
  }

  // Running the post-processing again changes nothing exactly if the keyword dictionary
  // was there, or there is no column to put into it: otherwise the first pass loses the
  // columns and the second one finds a dictionary to put them in.
  lemma PostprocessIdempotent(q: Query)
    ensures Postprocessed(Postprocessed(q)) == Postprocessed(q) <==> q.keywords.Some? || Columns(q) == []
  {
    hide HistoryText, Optimized, Missing, Groups, Questions, MeasuresAfter, ModifiersAfter, MetaAfter,
      Postprocessed;
    var r := Postprocessed(q);
    PostprocessShape(q);
    PostprocessShape(r);
    RepairedOnce(q, r);
    MetaSettles(q, r);
    RepairKeepsTerms(q, r);
    assert r.ambiguities + [] == r.ambiguities;
  }

  // ---------------------------------------------------------------------
  // The search text
  // ---------------------------------------------------------------------

  lemma {:induction false} ContainsInner(a: string, b: string, c: string)
    ensures Contains(a + b + c, b)
    decreases |a|
  {
    if a == "" {
      assert a + b + c == b + c && b <= b + c;
    } else {
      ContainsInner(a[1..], b, c);
      assert (a + b + c)[1..] == a[1..] + b + c;
    }
  }

  lemma {:induction false} ContainsSplit(s: string, pat: string) returns (a: string, c: string)
    requires Contains(s, pat)
    ensures s == a + pat + c
  {
    if pat <= s {
      a, c := "", s[|pat|..];
    } else {
      a, c := ContainsSplit(s[1..], pat);
      a := [s[0]] + a;
    }
  }

  lemma {:induction false} JoinContains(sep: string, parts: seq<string>, part: string)
    requires part in parts
    ensures exists a, c :: Join(sep, parts) == a + part + c
  {
    if |parts| == 1 {
      assert Join(sep, parts) == "" + part + "";
    } else if parts[0] == part {
      assert Join(sep, parts) == "" + part + (sep + Join(sep, parts[1..]));
    } else {
      JoinContains(sep, parts[1..], part);
      var a, c :| Join(sep, parts[1..]) == a + part + c;
      assert Join(sep, parts) == (parts[0] + sep + a) + part + c;
    }
  }

  lemma LowerConcat(a: string, b: string)
    ensures Lower(a + b) == Lower(a) + Lower(b)
  {
  }

  lemma {:induction false} NewTermsMembers(terms: seq<string>, base: string, t: string)
    ensures t in NewTerms(terms, base) <==> t in terms && t != "" && !Contains(Lower(base), Lower(t))
  {
    if terms != [] {
      NewTermsMembers(terms[..|terms| - 1], base, t);
      assert terms == terms[..|terms| - 1] + [terms[|terms| - 1]];
    }
  }

  // The search text mentions the business verb and, whatever the case, every term of an
  // entity, a measure or a dimension - in the base text or after it.
  lemma HistoryMentions(q: Query, t: string)
    ensures Contains(HistoryText(q), ActionOf(q.intent.primary))
    ensures t in Terms(q) ==> Contains(Lower(HistoryText(q)), Lower(t))
  {
    hide Terms, ActionOf, Base, NewTerms, Join, Contains;
    var base, action := Base(q), ActionOf(q.intent.primary);
    var parts := (if base != "" then [base] else []) +
      (if action != "" && !Contains(base, action) then [action] else [])
                 + NewTerms(Terms(q), base);
    Mentions(parts, base, action);
    NewTermsMembers(Terms(q), base, t);
    if t in Terms(q) {
      if t in NewTerms(Terms(q), base) {
        MentionsLower(parts, t, t);
      } else if t == "" {
        ContainsEmpty(Lower(HistoryText(q)));
      } else {
        BaseInParts(base, t);
        MentionsLower(parts, base, t);
      }
    }
  }

  lemma ContainsEmpty(s: string)
    ensures Contains(s, "") && Lower("") == ""
  {
  }

  lemma BaseInParts(base: string, t: string)
    requires t != "" && Contains(Lower(base), Lower(t))
    ensures base != ""
  {
    assert |Lower(base)| == |base| && |Lower(t)| > 0;
  }

  lemma Mentions(parts: seq<string>, base: string, action: string)
    requires base != "" ==> base in parts
    requires action != "" && !Contains(base, action) ==> action in parts
    ensures Contains(Join(" ", parts), action)
  {
    hide Join, Contains;
    var s := Join(" ", parts);
    if action == "" {
      ContainsEmpty(s);
    } else if !Contains(base, action) {
      JoinContains(" ", parts, action);
      var a, c :| s == a + action + c;
      ContainsInner(a, action, c);
    } else {
      var x, y := ContainsSplit(base, action);
      JoinContains(" ", parts, base);
      var a, c :| s == a + base + c;
      Regroup(a, x, action, y, c);
      ContainsInner(a + x, action, y + c);
    }
  }

  lemma MentionsLower(parts: seq<string>, part: string, t: string)
    requires part in parts && (part == t || Contains(Lower(part), Lower(t)))
    ensures Contains(Lower(Join(" ", parts)), Lower(t))
  {
    hide Lower, Join, Contains;
    var s := Join(" ", parts);
    JoinContains(" ", parts, part);
    var a, c :| s == a + part + c;
    LowerConcat(a + part, c);
    LowerConcat(a, part);
    var x, y := "", "";
    if part == t {
      assert Lower(part) == "" + Lower(t) + "";
    } else {
      x, y := ContainsSplit(Lower(part), Lower(t));
    }
    Regroup(Lower(a), x, Lower(t), y, Lower(c));
    ContainsInner(Lower(a) + x, Lower(t), y + Lower(c));
  }

  lemma Regroup(a: string, x: string, t: string, y: string, c: string)
    ensures a + (x + t + y) + c == (a + x) + t + (y + c)
  {
  }
}
