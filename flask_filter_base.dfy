/** `flask_filter.base`: the `FlaskFilter` extension object, the schema
    registry shared by all its instances, and `search`, which loads filter
    descriptors, resolves the schema, folds the filters into one query, then
    orders, limits and runs it. */
module FlaskFilterBase {
  import opened Results
  import opened Values
  import opened Queries
  import opened Filters
  import opened Schemas

  /** A Flask application object. */
  datatype App = App(name: string)

  /** What `order_by` may be: a mapped column attribute such as `Dog.name`,
      or a column name given as a string. */
  datatype OrderKey = ColumnAttribute(column: string) | ColumnName(name: string)

  /** `if order_by:`: `None` and the empty string are false; a column attribute is true. */
  predicate OrderTruthy(o: Option<OrderKey>) {
    o.Some? && (o.value.ColumnName? ==> o.value.name != "")
  }

  /** The column `query.order_by(order_by)` sorts on. */
  function OrderColumn(k: OrderKey): string {
    match k
    case ColumnAttribute(c) => c
    case ColumnName(n) => n
  }

  /** `if limit:`: `None` and `0` are false, every other integer is true. */
  predicate LimitTruthy(limit: Option<int>) {
    limit.Some? && limit.value != 0
  }

  /** The contents of `FlaskFilter.__SCHEMA_MAP`: model class to the schema registered for it. */
  type SchemaMap = map<Model, Option<Schema>>

  /** `str(DbModel)`, `<class '...'>` around the model's qualified name. */
  function ClassText(m: Model): string {
    "<class '" + m.name + "'>"
  }

  /** The message of `_lookup_schema`'s `TypeError`: three adjacent literals
      joined with no separator, then formatted with the model class. */
  function MissingSchemaMessage(m: Model): string {
    MissingSchemaHead + ClassText(m) + MissingSchemaTail
  }

  const MissingSchemaHead: string := "You must either map a schema to Model: "
  const MissingSchemaTail: string :=
    " using `register_model`" + "or pass a schema to the `ModelSchema` parameter" + "when calling `search`"

  /** `self._lookup_schema(DbModel)`: the registered schema. A model never
      registered, or registered with `None`, raises `TypeError`. */
  function LookupSchema(entries: SchemaMap, m: Model): (r: Result<Schema, Error>)
    ensures r.Ok? <==> m in entries && entries[m].Some?
    ensures r.Ok? ==> r.value == entries[m].value
    ensures r.Err? ==> r.error == TypeError(MissingSchemaMessage(m))
  {
    if m in entries && entries[m].Some? then Ok(entries[m].value)
    else Err(TypeError(MissingSchemaMessage(m)))
  }

  /** `ModelSchema or self._lookup_schema(DbModel)`: a schema class is always true. */
  function ResolveSchema(explicit: Option<Schema>, entries: SchemaMap, m: Model): Result<Schema, Error> {
    if explicit.Some? then Ok(explicit.value) else LookupSchema(entries, m)
  }

  /** The query `search` builds from the loaded filters: resolve the schema,
      fold the filters into `DbModel.query`, then order and limit when asked. */
  function SearchQuery(entries: SchemaMap, m: Model, filters: seq<Filter>, explicit: Option<Schema>,
                       limit: Option<int>, orderBy: Option<OrderKey>): Result<Query, Error>
  {
    var schema :- ResolveSchema(explicit, entries, m);
    var folded :- ApplyAll(filters, ModelQuery(m), m, Some(schema));
    var ordered := if OrderTruthy(orderBy) then OrderBy(folded, OrderColumn(orderBy.value)) else folded;
    Ok(if LimitTruthy(limit) then Limit(ordered, limit.value) else ordered)
  }

  /** The records `search` returns once its descriptors have loaded as `filters`. */
  function SearchLoaded(entries: SchemaMap, m: Model, filters: seq<Filter>, explicit: Option<Schema>,
                        limit: Option<int>, orderBy: Option<OrderKey>, table: seq<Record>): Result<seq<Record>, Error>
  {
    var q :- SearchQuery(entries, m, filters, explicit, limit, orderBy);
    Ok(AllRecords(q, table))
  }

  /** `search(...)` over the rows `table` the model's table holds: load every
      descriptor first, then run the loaded filters. */
  function SearchResult(entries: SchemaMap, m: Model, ds: seq<Descriptor>, explicit: Option<Schema>,
                        limit: Option<int>, orderBy: Option<OrderKey>, table: seq<Record>): Result<seq<Record>, Error>
  {
    var filters :- LoadMany(ds);
    SearchLoaded(entries, m, filters, explicit, limit, orderBy, table)
  }

  // ---------------------------------------------------------------------
  // The extension object
  // ---------------------------------------------------------------------

  /** The dictionary behind the class attribute `__SCHEMA_MAP`. Dafny has no
      mutable class-level state, so the attribute is one object handed to
      every `FlaskFilter` constructor; instances built over the same object
      see each other's registrations. */
  class SchemaRegistry {
    var entries: SchemaMap

    constructor()
      ensures entries == map[]
    {
      entries := map[];
    }
  }

  class FlaskFilter {
    var app: Option<App>
    const registry: SchemaRegistry

    /** `FlaskFilter(app)`: keeps the application and, when one is given,
        initialises it. `registry` stands for the class attribute and is
        the same object for every instance. */
    constructor(app: Option<App>, registry: SchemaRegistry)
      ensures this.app == app && this.registry == registry
    {
      this.app := app;
      this.registry := registry;
      new;
      if app.Some? {
        InitApp(app.value);
      }
    }

    /** `init_app(app)`: records the application; the registry is untouched. */
    method InitApp(app: App)
      modifies this
      ensures this.app == Some(app)
    {
      this.app := Some(app);
    }

    /** `register_model(DbModel, ModelSchema)`: maps the model to the schema,
      replacing an earlier entry for that model and leaving the others as they were. */
    method RegisterModel(m: Model, s: Option<Schema>)
      modifies registry
      ensures registry.entries == old(registry.entries)[m := s]
    {
      registry.entries := registry.entries[m := s];
    }

    /** `search(DbModel, filters, ModelSchema, limit, order_by)` over the rows
        `table` the model's table holds. */
    method Search(m: Model, ds: seq<Descriptor>, explicit: Option<Schema>, limit: Option<int>,
                  orderBy: Option<OrderKey>, table: seq<Record>) returns (r: Result<seq<Record>, Error>)
      ensures r == SearchResult(registry.entries, m, ds, explicit, limit, orderBy, table)
    {
      var loaded := LoadMany(ds);
      if loaded.Err? {
        return Err(loaded.error);
      }
      var filters := loaded.value;
      var resolved := ResolveSchema(explicit, registry.entries, m);
      if resolved.Err? {
        return Err(resolved.error);
      }
      var folded := FoldFilters(m, filters, Some(resolved.value));
      if folded.Err? {
        return Err(folded.error);
      }
      var query := folded.value;
      if OrderTruthy(orderBy) {
        query := OrderBy(query, OrderColumn(orderBy.value));
      }
      if LimitTruthy(limit) {
        query := Limit(query, limit.value);
      }
      return Ok(AllRecords(query, table));
    }
  }

  /** The loop `for f in filters: query = f.apply(query, DbModel, schema)`
      started from `DbModel.query`; an exception leaves the loop. */
  method FoldFilters(m: Model, filters: seq<Filter>, schema: Option<Schema>) returns (r: Result<Query, Error>)
    ensures r == ApplyAll(filters, ModelQuery(m), m, schema)
  {
    var query := ModelQuery(m);
    var i := 0;
    while i < |filters|
      invariant 0 <= i <= |filters|
      invariant ApplyAll(filters, ModelQuery(m), m, schema) == ApplyAll(filters[i..], query, m, schema)
    {
      assert filters[i..][0] == filters[i] && filters[i..][1..] == filters[i + 1..];
      var step := Apply(filters[i], query, m, schema);
      if step.Err? {
        return Err(step.error);
      }
      query := step.value;
      i := i + 1;
    }
    return Ok(query);
  }

  /** Two instances built over the one registry that stands for the class
      attribute: a registration made through the first is what a lookup
      through the second finds, and the other models keep their entries. */
  method RegistrationIsShared(registry: SchemaRegistry, app1: Option<App>, app2: Option<App>, m: Model, s: Schema)
    returns (a: FlaskFilter, b: FlaskFilter)
    modifies registry
    ensures fresh(a) && fresh(b) && a != b
    ensures a.app == app1 && b.app == app2 && a.registry == registry && b.registry == registry
    ensures b.registry.entries == old(registry.entries)[m := Some(s)]
    ensures LookupSchema(b.registry.entries, m) == Ok(s)
  {
    a := new FlaskFilter(app1, registry);
    b := new FlaskFilter(app2, registry);
    a.RegisterModel(m, Some(s));
  }

  // ---------------------------------------------------------------------
  // Properties of search
  // ---------------------------------------------------------------------

  /** Descriptors are loaded before anything else, so a bad descriptor is
      reported even when the model has no schema. */
  lemma SearchLoadsFirst(entries: SchemaMap, m: Model, ds: seq<Descriptor>, explicit: Option<Schema>,
                         limit: Option<int>, orderBy: Option<OrderKey>, table: seq<Record>)
    requires LoadMany(ds).Err?
    ensures SearchResult(entries, m, ds, explicit, limit, orderBy, table) == Err(LoadMany(ds).error)
    ensures SearchResult(entries, m, ds, explicit, limit, orderBy, table).error.InvalidItems?
  {
  }

  /** With valid descriptors, no schema passed and none registered, search
      raises `TypeError` with the registration hint. */
  lemma SearchNeedsSchema(entries: SchemaMap, m: Model, ds: seq<Descriptor>,
                          limit: Option<int>, orderBy: Option<OrderKey>, table: seq<Record>)
    requires forall i :: 0 <= i < |ds| ==> IsValid(ds[i])
    requires m !in entries || entries[m].None?
    ensures SearchResult(entries, m, ds, None, limit, orderBy, table) == Err(TypeError(MissingSchemaMessage(m)))
  {
  }

  /** A schema passed to `search` wins: the registry is not consulted. */
  lemma ExplicitSchemaWins(e1: SchemaMap, e2: SchemaMap, m: Model, fs: seq<Filter>, s: Schema,
                           limit: Option<int>, orderBy: Option<OrderKey>, table: seq<Record>)
    ensures SearchLoaded(e1, m, fs, Some(s), limit, orderBy, table) == SearchLoaded(e2, m, fs, Some(s), limit, orderBy, table)
  {
  }

  /** Without a schema passed, search behaves as if the registered one had been passed. */
  lemma RegisteredSchemaUsed(entries: SchemaMap, m: Model, fs: seq<Filter>, s: Schema,
                             limit: Option<int>, orderBy: Option<OrderKey>, table: seq<Record>)
    requires m in entries && entries[m] == Some(s)
    ensures SearchLoaded(entries, m, fs, None, limit, orderBy, table) == SearchLoaded(entries, m, fs, Some(s), limit, orderBy, table)
  {
  }

  /** Once the schema resolves, search succeeds exactly when every filter's
      field resolves to a model attribute; otherwise it raises the error of
      the first filter that does not. */
  lemma SearchResolution(entries: SchemaMap, m: Model, fs: seq<Filter>, explicit: Option<Schema>,
                         limit: Option<int>, orderBy: Option<OrderKey>, table: seq<Record>)
    requires ResolveSchema(explicit, entries, m).Ok?
    ensures var s := Some(ResolveSchema(explicit, entries, m).value);
      SearchLoaded(entries, m, fs, explicit, limit, orderBy, table).Ok? <==> AllResolve(fs, m, s)
    ensures var s := Some(ResolveSchema(explicit, entries, m).value);
      SearchLoaded(entries, m, fs, explicit, limit, orderBy, table).Err? ==>
        exists k :: 0 <= k < |fs| && Column(fs[k], m, s).Err?
          && (forall j :: 0 <= j < k ==> Column(fs[j], m, s).Ok?)
          && SearchLoaded(entries, m, fs, explicit, limit, orderBy, table).error == Column(fs[k], m, s).error
  {
    ApplyAllOutcome(fs, ModelQuery(m), m, Some(ResolveSchema(explicit, entries, m).value));
  }

  /** What a truthy non-negative `LIMIT` keeps of the ordered rows. */
  function Cut(rows: seq<Record>, limit: Option<int>): seq<Record> {
    if LimitTruthy(limit) && 0 <= limit.value < |rows| then rows[..limit.value] else rows
  }

  /** A successful search returns the table rows every filter accepts: in
      table order when unordered, sorted on the order column otherwise, and
      cut to the first `limit` when `limit` is positive. A negative `limit`
      cuts nothing. */
  lemma SearchOutcome(entries: SchemaMap, m: Model, fs: seq<Filter>, explicit: Option<Schema>,
                      limit: Option<int>, orderBy: Option<OrderKey>, table: seq<Record>)
    requires ResolveSchema(explicit, entries, m).Ok?
    requires AllResolve(fs, m, Some(ResolveSchema(explicit, entries, m).value))
    ensures var s := Some(ResolveSchema(explicit, entries, m).value);
      var rows := Matching(fs, m, s, table);
      SearchLoaded(entries, m, fs, explicit, limit, orderBy, table)
        == Ok(Cut(if OrderTruthy(orderBy) then SortBy(rows, OrderColumn(orderBy.value)) else rows, limit))
  {
    var s := Some(ResolveSchema(explicit, entries, m).value);
    ApplyAllOutcome(fs, ModelQuery(m), m, s);
    FoldSelectsMatching(fs, m, s, table);
    var folded := ApplyAll(fs, ModelQuery(m), m, s).value;
    var ordered := if OrderTruthy(orderBy) then OrderBy(folded, OrderColumn(orderBy.value)) else folded;
    var q := if LimitTruthy(limit) then Limit(ordered, limit.value) else ordered;
    assert SearchQuery(entries, m, fs, explicit, limit, orderBy) == Ok(q);
    assert q.constraints == folded.constraints;
    assert q.order == if OrderTruthy(orderBy) then Some(OrderColumn(orderBy.value)) else None;
    assert q.limit == if LimitTruthy(limit) then limit else None;
  }

  /** What a successful search guarantees about its rows: each is a table row
      every filter accepts; without a positive limit every such row is
      returned; the rows are sorted on the order column when one is given
      and otherwise keep table order; a positive limit caps their number. */
  lemma SearchRows(entries: SchemaMap, m: Model, fs: seq<Filter>, explicit: Option<Schema>,
                   limit: Option<int>, orderBy: Option<OrderKey>, table: seq<Record>)
    requires ResolveSchema(explicit, entries, m).Ok?
    requires AllResolve(fs, m, Some(ResolveSchema(explicit, entries, m).value))
    ensures SearchLoaded(entries, m, fs, explicit, limit, orderBy, table).Ok?
    ensures var s := Some(ResolveSchema(explicit, entries, m).value);
      var rows := SearchLoaded(entries, m, fs, explicit, limit, orderBy, table).value;
      && (forall r :: r in rows ==> r in table && MatchesAll(fs, m, s, r))
      && (!(LimitTruthy(limit) && limit.value > 0) ==> forall r :: r in table && MatchesAll(fs, m, s, r) ==> r in rows)
      && (OrderTruthy(orderBy) ==> SortedBy(rows, OrderColumn(orderBy.value)))
      && (!OrderTruthy(orderBy) ==> IsSubsequence(rows, table))
      && (LimitTruthy(limit) && limit.value > 0 ==> |rows| <= limit.value)
  {
    var s := Some(ResolveSchema(explicit, entries, m).value);
    SearchOutcome(entries, m, fs, explicit, limit, orderBy, table);
    var matching := Matching(fs, m, s, table);
    MatchingShape(fs, m, s, table);
    if OrderTruthy(orderBy) {
      CutSorted(matching, OrderColumn(orderBy.value), limit);
    } else {
      CutInOrder(matching, table, limit);
    }
  }

  /** Cutting sorted rows keeps them sorted, drawn from the input, and all of
      it when no positive limit applies. */
  lemma CutSorted(rows: seq<Record>, column: string, limit: Option<int>)
    ensures var cut := Cut(SortBy(rows, column), limit);
      && SortedBy(cut, column)
      && (forall r :: r in cut ==> r in rows)
      && (!(LimitTruthy(limit) && limit.value > 0) ==> forall r :: r in rows ==> r in cut)
      && (LimitTruthy(limit) && limit.value > 0 ==> |cut| <= limit.value)
  {
    var ordered := SortBy(rows, column);
    SortByCorrect(rows, column);
    assert forall r :: r in ordered <==> r in rows by {
      forall r ensures r in ordered <==> r in rows {
        assert r in ordered <==> r in multiset(ordered);
      }
    }
  }

  /** Cutting rows in table order keeps table order. */
  lemma CutInOrder(rows: seq<Record>, table: seq<Record>, limit: Option<int>)
    requires IsSubsequence(rows, table)
    ensures var cut := Cut(rows, limit);
      && IsSubsequence(cut, table)
      && (forall r :: r in cut ==> r in rows)
      && (!(LimitTruthy(limit) && limit.value > 0) ==> forall r :: r in rows ==> r in cut)
      && (LimitTruthy(limit) && limit.value > 0 ==> |cut| <= limit.value)
  {
    if LimitTruthy(limit) && 0 <= limit.value < |rows| {
      PrefixSubsequence(rows, limit.value);
      SubsequenceTrans(rows[..limit.value], rows, table);
    }
  }

  /** `order_by=Dog.name` and `order_by="name"` give the same records. */
  lemma OrderKeyForms(entries: SchemaMap, m: Model, fs: seq<Filter>, explicit: Option<Schema>,
                      limit: Option<int>, column: string, table: seq<Record>)
    requires column != ""
    ensures SearchLoaded(entries, m, fs, explicit, limit, Some(ColumnAttribute(column)), table)
      == SearchLoaded(entries, m, fs, explicit, limit, Some(ColumnName(column)), table)
  {
  }

  /** `limit=0` is false, so it means no limit at all, not zero rows; an
      empty `order_by` string likewise means no ordering. */
  lemma FalsyArgumentsIgnored(entries: SchemaMap, m: Model, fs: seq<Filter>, explicit: Option<Schema>,
                              limit: Option<int>, orderBy: Option<OrderKey>, table: seq<Record>)
    ensures SearchLoaded(entries, m, fs, explicit, Some(0), orderBy, table)
      == SearchLoaded(entries, m, fs, explicit, None, orderBy, table)
    ensures SearchLoaded(entries, m, fs, explicit, limit, Some(ColumnName("")), table)
      == SearchLoaded(entries, m, fs, explicit, limit, None, table)
  {
  }

  /** With no filters, no order and no limit, search returns the whole table in order. */
  lemma NoFiltersReturnsTable(entries: SchemaMap, m: Model, explicit: Option<Schema>, table: seq<Record>)
    requires ResolveSchema(explicit, entries, m).Ok?
    ensures SearchResult(entries, m, [], explicit, None, None, table) == Ok(table)
  {
    var s := Some(ResolveSchema(explicit, entries, m).value);
    assert LoadMany([]) == Ok([]);
    SearchOutcome(entries, m, [], explicit, None, None, table);
    MatchingNothing(m, s, table);
  }

  lemma {:induction false} MatchingNothing(m: Model, s: Option<Schema>, table: seq<Record>)
    ensures Matching([], m, s, table) == table
  {
    if table != [] {
      MatchingNothing(m, s, table[1..]);
      assert MatchesAll([], m, s, table[0]);
      assert table == [table[0]] + table[1..];
    }
  }
}
