// Reading a stored process summary back when the snapshot of a turn is restored.
module SummaryExtract {
  import opened Options
  import opened ProcessSummary

  // A Python call that returns or raises.
  datatype Result<+T> = Ok(value: T) | Raised

  // ---------------------------------------------------------------------
  // Access
  // ---------------------------------------------------------------------

  // m.get(key)
  function Get(m: Fields, key: string): Json {
    if key in m then m[key] else Null
  }

  // m.get(key, "")
  function GetText(m: Fields, key: string): Json {
    if key in m then m[key] else Str("")
  }

  // A column holds a document, or the text of one; another text is an error.
  function SafeDict(raw: Json, parse: string -> Json): Result<Option<Fields>> {
    match raw
    case Obj(fields) => Ok(Some(fields))
    case Str(text) => if parse(text).Obj? then Ok(Some(parse(text).fields)) else Raised
    case _ => Ok(None)
  }

  // m.get(key) or {}, on which get is called next.
  function Section(m: Fields, key: string): Result<Fields> {
    var j := Get(m, key);
    if Falsy(j) then Ok(map[]) else if j.Obj? then Ok(j.fields) else Raised
  }

  // m.get(key) or [], of which only the objects matter: iterating over a text or an
  // object gives texts, and a number cannot be iterated over.
  function Elements(m: Fields, key: string): Result<seq<Json>> {
    var j := Get(m, key);
    if Falsy(j) then Ok([])
    else match j
      case Arr(items) => Ok(items)
      case Obj(_) => Ok([])
      case Str(_) => Ok([])
      case _ => Raised
  }

  // The elements of a list two levels down, none without a document.
  function ElementsIn(raw: Json, parse: string -> Json, section: string, key: string): Result<seq<Json>> {
    match SafeDict(raw, parse)
    case Raised => Raised
    case Ok(None) => Ok([])
    case Ok(Some(ps)) =>
      match Section(ps, section)
      case Raised => Raised
      case Ok(m) => Elements(m, key)
  }

  // ---------------------------------------------------------------------
  // What each element contributes
  // ---------------------------------------------------------------------

  predicate CountsTable(t: Json) {
    t.Obj? && !Falsy(Get(t.fields, "used")) && !Falsy(Get(t.fields, "name"))
  }

  function TableNames(ts: seq<Json>): seq<Json> {
    if ts == [] then []
    else
      var t := ts[|ts| - 1];
      TableNames(ts[..|ts| - 1]) + (if CountsTable(t) then [t.fields["name"]] else [])
  }

  datatype Restored = Restored(question: Json, value: Json, source: Json, reason: Json)

  predicate CountsInference(i: Json) {
    i.Obj? && Get(i.fields, "source_node") != Str(CLASSIFIER)
  }

  function Restore(m: Fields): Restored {
    var reason := Get(m, "reason");
    Restored(GetText(m, "question"), GetText(m, "value"), GetText(m, "source_node"),
             if Falsy(reason) then GetText(m, "reasoning") else reason)
  }

  function RestoreAll(xs: seq<Json>): seq<Restored> {
    if xs == [] then []
    else
      var i := xs[|xs| - 1];
      RestoreAll(xs[..|xs| - 1]) + (if CountsInference(i) then [Restore(i.fields)] else [])
  }

  // An element that does not validate stops the restoring of the turn.
  function LoadItems<K>(items: seq<Json>, load: Fields -> Option<K>): Result<seq<K>> {
    if items == [] then Ok([])
    else
      var item := items[|items| - 1];
      match LoadItems(items[..|items| - 1], load)
      case Raised => Raised
      case Ok(loaded) =>
        if !item.Obj? then Ok(loaded)
        else match load(item.fields)
          case Some(k) => Ok(loaded + [k])
          case None => Raised
  }

  // ---------------------------------------------------------------------
  // The extractors
  // ---------------------------------------------------------------------

  function Tables(raw: Json, parse: string -> Json): Result<seq<Json>> {
    match ElementsIn(raw, parse, "context", "tables")
    case Raised => Raised
    case Ok(ts) => Ok(TableNames(ts))
  }

  function Inferences(raw: Json, parse: string -> Json): Result<seq<Restored>> {
    match ElementsIn(raw, parse, "ai_decisions", "inferences")
    case Raised => Raised
    case Ok(xs) => Ok(RestoreAll(xs))
  }

  // An empty or missing document is no query; one that does not validate is an error.
  function Query<Q>(raw: Json, parse: string -> Json, load: Fields -> Option<Q>): Result<Option<Q>> {
    match SafeDict(raw, parse)
    case Raised => Raised
    case Ok(None) => Ok(None)
    case Ok(Some(ps)) =>
      match Section(ps, "interpretation")
      case Raised => Raised
      case Ok(m) =>
        var stored := Get(m, "_raw");
        if !stored.Obj? || Falsy(stored) then Ok(None)
        else match load(stored.fields)
          case None => Raised
          case Some(q) => Ok(Some(q))
  }

  // Anything but a list is no list.
  function Knowledge<K>(raw: Json, parse: string -> Json, load: Fields -> Option<K>): Result<seq<K>> {
    match SafeDict(raw, parse)
    case Raised => Raised
    case Ok(None) => Ok([])
    case Ok(Some(ps)) =>
      match Section(ps, "context")
      case Raised => Raised
      case Ok(m) =>
        var items := Get(m, "_knowledge_items");
        if items.Arr? then LoadItems(items.items, load) else Ok([])
  }

  function Decomposition(raw: Json, parse: string -> Json): Result<Fields> {
    match SafeDict(raw, parse)
    case Raised => Raised
    case Ok(None) => Ok(map[])
    case Ok(Some(ps)) =>
      var stored := Get(ps, "_query_decomposition");
      Ok(if stored.Obj? then stored.fields else map[])
  }

  // ---------------------------------------------------------------------
  // The loops
  // ---------------------------------------------------------------------

  method ExtractTableNames(raw: Json, parse: string -> Json) returns (names: Result<seq<Json>>)
    ensures names == Tables(raw, parse)
  {
    var elements := ElementsIn(raw, parse, "context", "tables");
    if elements.Raised? {
      return Raised;
    }
    var ts, found := elements.value, [];
    for i := 0 to |ts|
      invariant found == TableNames(ts[..i])
    {
      assert ts[..i + 1][..i] == ts[..i];
      if ts[i].Obj? && !Falsy(Get(ts[i].fields, "used")) && !Falsy(Get(ts[i].fields, "name")) {
        found := found + [ts[i].fields["name"]];
      }
    }
    assert ts[..|ts|] == ts;
    names := Ok(found);
  }

  method ExtractInferredSignals(raw: Json, parse: string -> Json) returns (signals: Result<seq<Restored>>)
    ensures signals == Inferences(raw, parse)
  {
    var elements := ElementsIn(raw, parse, "ai_decisions", "inferences");
    if elements.Raised? {
      return Raised;
    }
    var xs, found := elements.value, [];
    for k := 0 to |xs|
      invariant found == RestoreAll(xs[..k])
    {
      assert xs[..k + 1][..k] == xs[..k];
      if xs[k].Obj? && Get(xs[k].fields, "source_node") != Str(CLASSIFIER) {
        found := found + [Restore(xs[k].fields)];
      }
    }
    assert xs[..|xs|] == xs;
    signals := Ok(found);
  }

  lemma {:induction false} RaisedStays<K>(items: seq<Json>, k: nat, load: Fields -> Option<K>)
    requires k <= |items| && LoadItems(items[..k], load).Raised?
    ensures LoadItems(items, load).Raised?
  {
    if k < |items| {
      assert items[..|items| - 1][..k] == items[..k];
      RaisedStays(items[..|items| - 1], k, load);
    } else {
      assert items[..k] == items;
    }
  }

  // Stops at the first object that does not validate.
  method LoadEach<K>(items: seq<Json>, load: Fields -> Option<K>) returns (loaded: Result<seq<K>>)
    ensures loaded == LoadItems(items, load)
  {
    var found := [];
    for i := 0 to |items|
      invariant LoadItems(items[..i], load) == Ok(found)
    {
      assert items[..i + 1][..i] == items[..i];
      if items[i].Obj? {
        var k := load(items[i].fields);
        if k.None? {
          RaisedStays(items, i + 1, load);
          return Raised;
        }
        found := found + [k.value];
      }
    }
    assert items[..|items|] == items;
    loaded := Ok(found);
  }
}
