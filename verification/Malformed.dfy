// What reading a stored summary makes of every document, well formed or not.
module Malformed {
  import opened Options
  import opened Selection
  import opened ProcessSummary
  import opened SummaryExtract

  // ---------------------------------------------------------------------
  // Documents and sections
  // ---------------------------------------------------------------------

  // What an empty default takes the place of.
  predicate Empty(j: Json) {
    j == Null || j == Bool(false) || j == Num(0) || j == Str("") || j == Arr([]) || j == Obj(map[])
  }

  lemma FalsyIsEmpty(j: Json)
    ensures Falsy(j) <==> Empty(j)
  {
  }

  // The column holds the document, as an object or as its text.
  ghost predicate Holds(raw: Json, parse: string -> Json, d: Fields) {
    raw == Obj(d) || (raw.Str? && parse(raw.s) == Obj(d))
  }

  predicate Unreadable(raw: Json, parse: string -> Json) {
    raw.Str? && !parse(raw.s).Obj?
  }

  predicate Absent(raw: Json) {
    !raw.Str? && !raw.Obj?
  }

  lemma ColumnIsOne(raw: Json, parse: string -> Json)
    ensures Unreadable(raw, parse) || Absent(raw) || exists d :: Holds(raw, parse, d)
  {
    if raw.Obj? {
      assert Holds(raw, parse, raw.fields);
    } else if raw.Str? && parse(raw.s).Obj? {
      assert Holds(raw, parse, parse(raw.s).fields);
    }
  }

  // A key that is missing reads as null.
  function Under(d: Fields, key: string): Json {
    if key !in d then Null else d[key]
  }

  // ---------------------------------------------------------------------
  // Lists of a section
  // ---------------------------------------------------------------------

  // A section that is neither empty nor an object, and a list that is a true number or
  // truth value, are errors; what is no list otherwise has no element.
  lemma ElementsAre(raw: Json, parse: string -> Json, section: string, key: string)
    ensures Unreadable(raw, parse) ==> ElementsIn(raw, parse, section, key) == Raised
    ensures Absent(raw) ==> ElementsIn(raw, parse, section, key) == Ok([])
    ensures forall d :: Holds(raw, parse, d) ==>
      var c, r := Under(d, section), ElementsIn(raw, parse, section, key);
      && (Empty(c) ==> r == Ok([]))
      && (!Empty(c) && !c.Obj? ==> r == Raised)
      && (!Empty(c) && c.Obj? ==>
            var list := Under(c.fields, key);
            r == if list.Arr? then Ok(list.items)
                 else if (list.Bool? && list.b) || (list.Num? && list.n != 0) then Raised else Ok([]))
  {
    hide Falsy;
    forall d | Holds(raw, parse, d)
      ensures ElementsIn(raw, parse, section, key) == (match Section(d, section)
        case Raised => Raised
        case Ok(m) => Elements(m, key))
    {
    }
    forall j: Json ensures Falsy(j) <==> Empty(j) {
      FalsyIsEmpty(j);
    }
  }

  predicate Used(t: Json) {
    t.Obj? && !Empty(Under(t.fields, "used")) && !Empty(Under(t.fields, "name"))
  }

  function NameOf(t: Json): Json {
    if t.Obj? then Under(t.fields, "name") else Null
  }

  // The names are, in order, those of the elements used and named.
  lemma {:induction false} NamesKept(ts: seq<Json>)
    ensures Keeps(TableNames(ts), ts, Used, NameOf)
  {
    hide Falsy;
    if ts != [] {
      var before, last := ts[..|ts| - 1], ts[|ts| - 1];
      NamesKept(before);
      assert ts == before + [last];
      if last.Obj? {
        FalsyIsEmpty(Under(last.fields, "used"));
        FalsyIsEmpty(Under(last.fields, "name"));
      }
      KeepsPush(TableNames(before), before, last, Used, NameOf);
    }
  }

  predicate FromOthers(i: Json) {
    i.Obj? && Under(i.fields, "source_node") != Str("intent_classifier")
  }

  function OrBlank(d: Fields, key: string): Json {
    if key in d then d[key] else Str("")
  }

  // The reason, or an older key of it.
  function SignalOf(i: Json): Restored {
    if !i.Obj? then Restored(Null, Null, Null, Null)
    else
      Restored(OrBlank(i.fields, "question"), OrBlank(i.fields, "value"), OrBlank(i.fields, "source_node"),
               if Empty(Under(i.fields, "reason")) then OrBlank(i.fields, "reasoning") else i.fields["reason"])
  }

  lemma {:induction false} SignalsKept(xs: seq<Json>)
    ensures Keeps(RestoreAll(xs), xs, FromOthers, SignalOf)
  {
    hide Falsy;
    if xs != [] {
      var before, last := xs[..|xs| - 1], xs[|xs| - 1];
      SignalsKept(before);
      assert xs == before + [last];
      if last.Obj? {
        FalsyIsEmpty(Under(last.fields, "reason"));
      }
      KeepsPush(RestoreAll(before), before, last, FromOthers, SignalOf);
    }
  }

  // ---------------------------------------------------------------------
  // Query, knowledge and decomposition
  // ---------------------------------------------------------------------

  lemma QueryIs<Q(!new)>(raw: Json, parse: string -> Json, load: Fields -> Option<Q>)
    ensures Unreadable(raw, parse) ==> Query(raw, parse, load) == Raised
    ensures Absent(raw) ==> Query(raw, parse, load) == Ok(None)
    ensures forall d :: Holds(raw, parse, d) ==>
      var c, r := Under(d, "interpretation"), Query(raw, parse, load);
      && (Empty(c) ==> r == Ok(None))
      && (!Empty(c) && !c.Obj? ==> r == Raised)
      && (!Empty(c) && c.Obj? ==>
            var stored := Under(c.fields, "_raw");
            r == if !stored.Obj? || |stored.fields| == 0 then Ok(None)
                 else if load(stored.fields).None? then Raised else Ok(load(stored.fields)))
  {
    hide Falsy;
    forall d | Holds(raw, parse, d) ensures SafeDict(raw, parse) == Ok(Some(d)) {
    }
    forall j: Json ensures Falsy(j) <==> Empty(j) {
      FalsyIsEmpty(j);
    }
  }

  lemma KnowledgeIs<K(!new)>(raw: Json, parse: string -> Json, load: Fields -> Option<K>)
    ensures Unreadable(raw, parse) ==> Knowledge(raw, parse, load) == Raised
    ensures Absent(raw) ==> Knowledge(raw, parse, load) == Ok([])
    ensures forall d :: Holds(raw, parse, d) ==>
      var c, r := Under(d, "context"), Knowledge(raw, parse, load);
      && (Empty(c) ==> r == Ok([]))
      && (!Empty(c) && !c.Obj? ==> r == Raised)
      && (!Empty(c) && c.Obj? ==>
            var list := Under(c.fields, "_knowledge_items");
            r == if list.Arr? then LoadItems(list.items, load) else Ok([]))
  {
    hide Falsy, LoadItems;
    assert LoadItems<K>([], load) == Ok([]) by { NothingLoads(load); }
    forall d | Holds(raw, parse, d) ensures SafeDict(raw, parse) == Ok(Some(d)) {
    }
    forall j: Json ensures Falsy(j) <==> Empty(j) {
      FalsyIsEmpty(j);
    }
  }

  lemma NothingLoads<K>(load: Fields -> Option<K>)
    ensures LoadItems<K>([], load) == Ok([])
  {
  }

  predicate IsObject(i: Json) {
    i.Obj?
  }

  // Loading fails exactly if an object among the elements does not validate; otherwise
  // the objects are loaded in order.
  lemma {:induction false} ItemsLoad<K(!new)>(items: seq<Json>, load: Fields -> Option<K>)
    ensures LoadItems(items, load).Raised? <==> exists i :: i in items && i.Obj? && load(i.fields).None?
    ensures LoadItems(items, load).Ok? ==>
      Keeps(Loaded(LoadItems(items, load).value), items, IsObject,
            (i: Json) => if i.Obj? then load(i.fields) else None)
  {
    if items != [] {
      var before, last := items[..|items| - 1], items[|items| - 1];
      ItemsLoad(before, load);
      assert items == before + [last];
      assert last in items && forall i :: i in before ==> i in items;
      if LoadItems(items, load).Ok? {
        var f := (i: Json) => if i.Obj? then load(i.fields) else None;
        var kept := LoadItems(before, load).value;
        KeepsPush(Loaded(kept), before, last, IsObject, f);
        assert last.Obj? ==> Loaded(LoadItems(items, load).value) == Loaded(kept) + [load(last.fields)];
      }
    }
  }

  function Loaded<K>(ks: seq<K>): seq<Option<K>> {
    seq(|ks|, i requires 0 <= i < |ks| => Some(ks[i]))
  }

  lemma DecompositionIs(raw: Json, parse: string -> Json)
    ensures Unreadable(raw, parse) ==> Decomposition(raw, parse) == Raised
    ensures Absent(raw) ==> Decomposition(raw, parse) == Ok(map[])
    ensures forall d :: Holds(raw, parse, d) ==>
      var stored := Under(d, "_query_decomposition");
      Decomposition(raw, parse) == Ok(if stored.Obj? then stored.fields else map[])
  {
  }
}
