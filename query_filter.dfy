/** `flask_filter.query_filter`: `query_with_filters`, the module-level
    function that loads descriptors with one shared `FilterSchema` and folds
    them into the model's query, with no schema registry, ordering or limit. */
module QueryFilter {
  import opened Results
  import opened Values
  import opened Queries
  import opened Filters
  import opened Schemas
  import opened FlaskFilterBase

  /** The records `query_with_filters` returns once its descriptors loaded as `filters`. */
  function QueryLoaded(m: Model, filters: seq<Filter>, schema: Option<Schema>, table: seq<Record>): Result<seq<Record>, Error> {
    var q :- ApplyAll(filters, ModelQuery(m), m, schema);
    Ok(AllRecords(q, table))
  }

  /** `query_with_filters(class_, filters, schema)` over the rows `table` the
      model's table holds. */
  function QueryWithFiltersResult(m: Model, ds: seq<Descriptor>, schema: Option<Schema>, table: seq<Record>): Result<seq<Record>, Error> {
    var filters :- LoadMany(ds);
    QueryLoaded(m, filters, schema, table)
  }

  /** `query_with_filters`: load, then `for f in _filters: query = f.apply(query, class_, schema)`. */
  method QueryWithFilters(m: Model, ds: seq<Descriptor>, schema: Option<Schema>, table: seq<Record>)
    returns (r: Result<seq<Record>, Error>)
    ensures r == QueryWithFiltersResult(m, ds, schema, table)
  {
    var loaded := LoadMany(ds);
    if loaded.Err? {
      return Err(loaded.error);
    }
    var query := FoldFilters(m, loaded.value, schema);
    if query.Err? {
      return Err(query.error);
    }
    return Ok(AllRecords(query.value, table));
  }

  /** An invalid descriptor is reported before any filter is applied. */
  lemma LoadsFirst(m: Model, ds: seq<Descriptor>, schema: Option<Schema>, table: seq<Record>)
    requires LoadMany(ds).Err?
    ensures QueryWithFiltersResult(m, ds, schema, table) == Err(LoadMany(ds).error)
  {
  }

  /** With a schema, `query_with_filters` returns what `search` returns with
      that schema passed and no order or limit, whatever is registered. */
  lemma MatchesSearch(entries: SchemaMap, m: Model, fs: seq<Filter>, s: Schema, table: seq<Record>)
    ensures QueryLoaded(m, fs, Some(s), table) == SearchLoaded(entries, m, fs, Some(s), None, None, table)
  {
  }

  /** The same for descriptors not yet loaded. */
  lemma MatchesSearchFromDescriptors(entries: SchemaMap, m: Model, ds: seq<Descriptor>, s: Schema, table: seq<Record>)
    ensures QueryWithFiltersResult(m, ds, Some(s), table) == SearchResult(entries, m, ds, Some(s), None, None, table)
  {
    if LoadMany(ds).Ok? {
      MatchesSearch(entries, m, LoadMany(ds).value, s, table);
    }
  }

  /** The query succeeds exactly when every filter resolves, and then returns
      the table rows every filter accepts, in table order. */
  lemma QueryOutcome(m: Model, fs: seq<Filter>, schema: Option<Schema>, table: seq<Record>)
    ensures QueryLoaded(m, fs, schema, table).Ok? <==> AllResolve(fs, m, schema)
    ensures AllResolve(fs, m, schema) ==> QueryLoaded(m, fs, schema, table) == Ok(Matching(fs, m, schema, table))
  {
    ApplyAllOutcome(fs, ModelQuery(m), m, schema);
    if AllResolve(fs, m, schema) {
      FoldSelectsMatching(fs, m, schema, table);
    }
  }

  /** Without a schema (the default), a filter's field is used as the column
      name as it stands, and an unknown name raises `AttributeError`. */
  lemma NoSchemaUsesFieldNames(f: Filter, m: Model)
    ensures f.field in m.attributes ==> Column(f, m, None) == Ok(f.field)
    ensures f.field !in m.attributes ==> Column(f, m, None) == Err(AttributeError(m.name, f.field))
  {
    ResolveWithoutSchema(f);
  }
}
