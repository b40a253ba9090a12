// The in-place steps of the repair, each proved against the functions of Normalizer.
module NormalizerSteps {
  import opened Options
  import opened Text
  import opened FirstSeen
  import opened Normalizer

  // The nested dictionary the steps work on, one field a slot.
  class Slots {
    var original: string
    var rewritten: string
    var intent: Intent
    var entities: seq<Entity>
    var measures: seq<Measure>
    var dimensions: seq<Dimension>
    var filters: seq<Filter>
    var time: Time
    var modifiers: seq<Modifier>
    var hint: Option<Hint>
    var ambiguities: seq<Ambiguity>
    var keywords: Option<Keywords>

    function View(): Query
      reads this
    {
      Query(original, rewritten, intent, entities, measures, dimensions, filters, time, modifiers, hint, ambiguities,
        keywords)
    }

    constructor (q: Query)
      ensures View() == q
    {
      original, rewritten, intent, entities, measures, dimensions :=
        q.original, q.rewritten, q.intent, q.entities, q.measures, q.dimensions;
      filters, time, modifiers, hint, ambiguities, keywords := q.filters, q.time, q.modifiers, q.hint, q.ambiguities,
        q.keywords;
    }

    // ---------------------------------------------------------------------
    // Validation
    // ---------------------------------------------------------------------

    method ValidateIntent() returns (errors: seq<Error>)
      modifies `intent
      ensures View() == old(View()).(intent := FixIntent(old(intent)))
      ensures errors == if Corrected(old(intent).primary, INTENTS).Some? then [] else [PrimaryReplaced]
    {
      errors := [];
      var corrected := Corrected(intent.primary, INTENTS);
      if corrected.None? {
        corrected := Some("EXTRACT");
        errors := [PrimaryReplaced];
      }
      var secondaries: seq<string> := [];
      var given := intent.secondary;
      for i := 0 to |given|
        invariant secondaries == ValidSecondaries(given[..i])
      {
        assert given[..i + 1][..i] == given[..i];
        var v := Corrected(Some(given[i]), INTENTS);
        if v.Some? {
          secondaries := secondaries + [v.value];
        }
      }
      assert given[..|given|] == given;
      intent := Intent(corrected, secondaries);
    }

    method ValidateEntities()
      modifies `entities
      ensures View() == old(View()).(entities := Map(old(entities), FixEntity))
    {
      for i := 0 to |entities|
        invariant |entities| == |old(entities)|
        invariant forall k :: 0 <= k < |entities| ==> entities[k] == if k < i then FixEntity(old(entities)[k])
          else old(entities)[k]
      {
        var e := entities[i];
        if Corrected(e.kind, ENTITY_TYPES).None? {
          e := e.(kind := Some("DIRECT"));
        }
        entities := entities[i := e.(hasConfidence := false)];
      }
    }

    method ValidateMeasures()
      modifies `measures
      ensures View() == old(View()).(measures := Map(old(measures), FixMeasure))
    {
      for i := 0 to |measures|
        invariant |measures| == |old(measures)|
        invariant forall k :: 0 <= k < |measures| ==> measures[k] == if k < i then FixMeasure(old(measures)[k])
          else old(measures)[k]
      {
        var m := measures[i];
        if Corrected(m.agg, AGG_FUNCS).None? {
          m := m.(agg := Some("UNKNOWN"));
        }
        if Corrected(m.kind, MEASURE_TYPES).None? {
          m := m.(kind := Some("RAW"));
        }
        measures := measures[i := m];
      }
    }

    method ValidateDimensions()
      modifies `dimensions
      ensures View() == old(View()).(dimensions := Map(old(dimensions), FixDimension))
    {
      for i := 0 to |dimensions|
        invariant |dimensions| == |old(dimensions)|
        invariant forall k :: 0 <= k < |dimensions| ==>
          dimensions[k] == if k < i then FixDimension(old(dimensions)[k]) else old(dimensions)[k]
      {
        var d := dimensions[i];
        if Corrected(d.role, DIM_ROLES).None? {
          d := d.(role := Some("DISPLAY"));
        }
        if Corrected(d.granularity, GRANULARITIES).None? {
          d := d.(granularity := Some("UNKNOWN"));
        }
        dimensions := dimensions[i := d];
      }
    }

    method ValidateFilters()
      modifies `filters
      ensures View() == old(View()).(filters := Map(old(filters), FixFilter))
    {
      for i := 0 to |filters|
        invariant |filters| == |old(filters)|
        invariant forall k :: 0 <= k < |filters| ==> filters[k] == if k < i then FixFilter(old(filters)[k])
          else old(filters)[k]
      {
        var f := filters[i];
        if Corrected(f.kind, FILTER_TYPES).None? {
          f := f.(kind := Some("EQUALS"));
        }
        if Corrected(f.position, FILTER_POSITIONS).None? {
          f := f.(position := Some("PRE_AGG"));
        }
        var values: seq<Value> := [];
        for j := 0 to |f.values|
          modifies {}
          invariant |values| == j && forall k :: 0 <= k < j ==> values[k] == Str(f.values[k])
        {
          values := values + [Str(f.values[j])];
        }
        filters := filters[i := f.(values := values)];
        assert filters[i] == FixFilter(old(filters)[i]);
      }
    }

    method ValidateTime()
      modifies `time
      ensures View() == old(View()).(time := FixTime(old(time)))
    {
      if Corrected(time.kind, TIME_TYPES).None? {
        time := time.(kind := Some("NONE"));
      }
      if time.base.Some? && !Falsy(time.base.value.resolve) && Corrected(time.base.value.resolve, RESOLVES).None? {
        time := time.(base := Some(Period(Some("ABSOLUTE_RANGE"))));
      }
      if time.compare.Some? && !Falsy(time.compare.value.resolve) &&
        Corrected(time.compare.value.resolve, RESOLVES).None? {
        time := time.(compare := Some(Period(Some("ABSOLUTE_RANGE"))));
      }
    }

    // Marks the modifiers to remove, mends directions, then drops the marked ones.
    method ValidateModifiers() returns (errors: seq<Error>)
      modifies `modifiers
      ensures View() == old(View()).(modifiers := ValidModifiers(old(modifiers)))
      ensures errors == ModifierErrors(old(modifiers))
    {
      hide Corrected, ValidModifiers, ModifierErrors, Meant, FixDirection;
      errors := [];
      ghost var given := modifiers;
      NoModifiers();
      assert given[..0] == [];
      for i := 0 to |modifiers|
        invariant |modifiers| == |given| && errors == ModifierErrors(given[..i])
        invariant forall k :: 0 <= k < |modifiers| ==> modifiers[k] == if k < i then Marked(given[k]) else given[k]
      {
        ModifierErrorsPush(given, i);
        MarkedIs(given[i]);
        var m := modifiers[i];
        if !Meant(m) {
          m := m.(remove := true);
          errors := errors + [ModifierRemoved(i)];
        }
        modifiers := modifiers[i := FixDirection(m)];
      }
      assert given[..|given|] == given;
      var marked := modifiers;
      var kept: seq<Modifier> := [];
      for i := 0 to |marked|
        modifies {}
        invariant kept == ValidModifiers(given[..i])
      {
        ValidModifiersPush(given, i);
        MarkedIs(given[i]);
        if !marked[i].remove {
          kept := kept + [marked[i]];
        }
      }
      modifiers := kept;
    }

    method ValidateOutputHint()
      modifies `hint
      ensures View() == old(View()).(hint := FixHint(old(hint)))
    {
      if hint.Some? {
        if Corrected(hint.value.format, FORMATS).None? {
          hint := Some(hint.value.(format := Some("NONE")));
        }
      } else {
        hint := Some(Hint(Some("NONE"), []));
      }
    }

    // Afterwards every enumerated field is valid up to case.
    method ValidateStructure() returns (errors: seq<Error>)
      modifies this
      ensures View() == Validated(old(View())) && errors == Errors(old(View()))
      ensures Valid(View())
    {
      hide FixIntent, FixTime, FixHint, ValidModifiers, ModifierErrors, Corrected, Valid, Map;
      errors := ValidateIntent();
      ValidateEntities();
      ValidateMeasures();
      ValidateDimensions();
      ValidateFilters();
      ValidateTime();
      var more := ValidateModifiers();
      errors := errors + more;
      ValidateOutputHint();
      ValidationValidates(old(View()));
    }

    // ---------------------------------------------------------------------
    // Post-processing
    // ---------------------------------------------------------------------

    method PostAggregateFix()
      modifies `measures, `ambiguities
      ensures View() == AggregateFix(old(View()))
    {
      hide Groups;
      if !Groups(View()) {
        return;
      }
      var given := measures;
      for i := 0 to |given|
        invariant |measures| == |given|
        invariant forall k :: 0 <= k < |given| ==> measures[k] == if k < i then Repair(given[k]) else given[k]
        invariant ambiguities == old(ambiguities) + Questions(given[..i])
      {
        assert given[..i + 1][..i] == given[..i];
        if measures[i].agg == Some("NONE") {
          measures := measures[i := measures[i].(agg := Some("SUM"))];
          ambiguities := ambiguities + [Ambiguity(given[i].term, "SUM")];
        }
      }
      assert given[..|given|] == given;
    }

    method PostRankFix()
      modifies `modifiers
      ensures View() == RankFix(old(View()))
    {
      var given := modifiers;
      for i := 0 to |given|
        invariant |modifiers| == |given|
        invariant forall k :: 0 <= k < |given| ==>
          modifiers[k] == if k < i && measures != [] then RankBy(given[k], measures[0].term) else given[k]
      {
        var m := modifiers[i];
        if m.kind == Some("RANK") && m.rankBy == "" && measures != [] {
          modifiers := modifiers[i := m.(rankBy := measures[0].term)];
        }
      }
    }

    // The set of known keywords is taken before the loop, so a column listed twice is
    // appended twice; the next step removes the duplicate.
    method PostOutputHintMerge()
      modifies `keywords
      ensures View() == HintMerge(old(View()))
    {
      var columns := Columns(View());
      var existing := MetaOf(View());
      var meta := existing;
      for i := 0 to |columns|
        modifies {}
        invariant meta == existing + Missing(columns[..i], existing)
      {
        assert columns[..i + 1][..i] == columns[..i];
        if columns[i] !in existing {
          meta := meta + [columns[i]];
        }
      }
      assert columns[..|columns|] == columns;
      if meta != existing && keywords.Some? {
        keywords := Some(keywords.value.(meta := Some(meta)));
      }
    }

    method PostOptimizeKeywords()
      modifies `keywords
      ensures View() == OptimizeKeywords(old(View()))
    {
      hide Strip, Counts, Optimized, Stripped, HasKey;
      NoKeywords();
      if keywords.None? || keywords.value.meta.None? {
        return;
      }
      var given := keywords.value.meta.value;
      var optimized: seq<string> := [];
      var seen: set<string> := {};
      for i := 0 to |given|
        modifies {}
        invariant optimized == Optimized(given[..i])
        invariant forall k :: k in seen <==> HasKey(Stripped(given[..i]), Same, k)
      {
        OptimizedPush(given, i);
        var clean := Strip(given[i]);
        if Counts(given[i]) && clean !in seen {
          optimized := optimized + [clean];
          seen := seen + {clean};
        }
      }
      assert given[..|given|] == given;
      keywords := Some(keywords.value.(meta := Some(optimized)));
    }

    method PostBuildSqlHistorySearch()
      modifies `keywords
      ensures View() == BuildHistory(old(View()))
    {
      hide Strip, Contains, Lower, Join, Terms, ActionOf, NewTerms;
      var q := View();
      var base, action := Base(q), ActionOf(q.intent.primary);
      var parts: seq<string> := if base != "" then [base] else [];
      if action != "" && !Contains(base, action) {
        parts := parts + [action];
      }
      ghost var head := parts;
      var terms := Terms(q);
      NoTerms(base);
      assert head + [] == head;
      for i := 0 to |terms|
        modifies {}
        invariant parts == head + NewTerms(terms[..i], base)
      {
        NewTermsPush(terms, i, base);
        if terms[i] != "" && !Contains(Lower(base), Lower(terms[i])) {
          parts := parts + [terms[i]];
        }
      }
      assert terms[..|terms|] == terms;
      assert head == (if base != "" then [base] else []) +
        (if action != "" && !Contains(base, action) then [action] else []);
      var known := if keywords.Some? then keywords.value else Keywords(None, "");
      keywords := Some(known.(history := Join(" ", parts)));
    }

    // Under grouping no measure is left without an aggregate.
    method Postprocess()
      modifies this
      ensures View() == Postprocessed(old(View()))
      ensures Groups(old(View())) ==> forall m :: m in measures ==> !Unaggregated(m)
    {
      hide AggregateFix, RankFix, HintMerge, OptimizeKeywords, BuildHistory;
      PostAggregateFix();
      PostRankFix();
      PostOutputHintMerge();
      PostOptimizeKeywords();
      PostBuildSqlHistorySearch();
      AggregatesRepaired(old(View()));
    }
  }

  // A modifier as the first loop leaves it.
  function Marked(m: Modifier): Modifier {
    FixDirection(if Meant(m) then m else m.(remove := true))
  }

  lemma MarkedIs(m: Modifier)
    ensures Marked(m).remove == (m.remove || !Meant(m))
    ensures Meant(m) ==> Marked(m) == FixDirection(m)
    ensures !Meant(m) ==> Marked(m) == FixDirection(m.(remove := true))
  {
    hide Corrected;
  }

  lemma NoTerms(base: string)
    ensures NewTerms([], base) == []
  {
  }

  lemma NewTermsPush(terms: seq<string>, i: nat, base: string)
    requires i < |terms|
    ensures NewTerms(terms[..i + 1], base) ==
      if terms[i] != "" && !Contains(Lower(base), Lower(terms[i])) then NewTerms(terms[..i], base) + [terms[i]]
        else NewTerms(terms[..i], base)
  {
    assert terms[..i + 1][..i] == terms[..i];
  }

  lemma NoKeywords()
    ensures Optimized([]) == [] && forall k :: !HasKey(Stripped([]), Same, k)
  {
  }

  lemma OptimizedPush(kws: seq<string>, i: nat)
    requires i < |kws|
    ensures
      var before, clean := Stripped(kws[..i]), Strip(kws[i]);
      && Optimized(kws[..i + 1]) ==
           (if Counts(kws[i]) && !HasKey(before, Same, clean) then Optimized(kws[..i]) + [clean]
             else Optimized(kws[..i]))
      && forall k :: HasKey(Stripped(kws[..i + 1]), Same, k) <==>
        HasKey(before, Same, k) || (Counts(kws[i]) && k == clean)
  {
    hide Strip, Counts, Firsts;
    assert kws[..i + 1][..i] == kws[..i];
    var before, clean := Stripped(kws[..i]), Strip(kws[i]);
    FirstsPush(before, clean, Same);
    forall k ensures HasKey(before + [clean], Same, k) <==> HasKey(before, Same, k) || k == clean {
      HasKeyPush(before, clean, Same, k);
    }
    assert before + [] == before;
  }

  lemma NoModifiers()
    ensures ModifierErrors([]) == [] && ValidModifiers([]) == []
  {
  }

  lemma ModifierErrorsPush(ms: seq<Modifier>, i: nat)
    requires i < |ms|
    ensures ModifierErrors(ms[..i + 1]) == ModifierErrors(ms[..i]) + (if Meant(ms[i]) then [] else [ModifierRemoved(i)])
  {
    hide Meant;
    assert ms[..i + 1][..i] == ms[..i];
  }

  lemma ValidModifiersPush(ms: seq<Modifier>, i: nat)
    requires i < |ms|
    ensures ValidModifiers(ms[..i + 1]) == ValidModifiers(ms[..i]) +
      (if Meant(ms[i]) && !ms[i].remove then [FixDirection(ms[i])] else [])
  {
    hide Meant, FixDirection;
    assert ms[..i + 1][..i] == ms[..i];
  }
}
