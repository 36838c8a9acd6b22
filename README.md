# Flask-Filter, modelled in Dafny

Flask-Filter turns JSON filter descriptors `{"field": ..., "op": ..., "value": ...}`
into filter objects and folds them into a SQLAlchemy query. This project models
that engine.

- A descriptor is loaded by a marshmallow `FilterSchema`. The schema checks that
  `field` is a string, that `op` is a registered operator symbol and that `value`
  is present and not `None`.
- The `@post_load` hook `make_object` then receives the loaded dictionary. It
  looks the symbol up in the `FILTERS` table and builds an instance of the one
  class whose `OP` carries that symbol. The model takes the hook to be called
  with that dictionary alone; see `Schemas.MakeObject` under "## Left out".
- Each filter maps its logical field name to a model column, through the
  optional marshmallow schema of the model. Its `apply` then returns the query
  with one more constraint.
- `FlaskFilter.search` does the following, in this order:
  1. loads every descriptor;
  2. resolves the schema (the one passed in, or the one registered for the model
     in the class-level `__SCHEMA_MAP`);
  3. applies the filters left to right;
  4. orders and limits when those arguments are truthy;
  5. returns the rows.
- `query_with_filters` is the same fold with no registry, no ordering and no limit.
- `rc/filters/base_filter.py` is an older copy of the filter base class. It is
  modelled on its own.

The ORM query is a value:
- a model, the constraints added by `Query.filter`, an order column and a limit;
- `AllRecords` is what `.all()` returns against a table of records, with SQLite's
  behaviour as the tests use it.

Module layout:

| module | content |
|---|---|
| `Results`, `Values` | `Option`/`Result`; the Python values a filter can hold, and the exceptions |
| `PyText` | `str()`/`repr()` of those values, as `__repr__` interpolates them |
| `Queries` | the query value and its record-level meaning |
| `Filters` | the base class and the eight operator classes |
| `FilterRegistry` | the `FILTERS` table |
| `Schemas` | `get_filter_class`, `vali1date_operator` and `FilterSchema` |
| `FlaskFilterBase` | the `FlaskFilter` class, its shared `SchemaRegistry` and `search` |
| `QueryFilter` | `query_with_filters` |
| `LegacyFilter` | the older base class |
| `Minipet` | the tests' `Dog` model, `DogSchema` and five dogs, with the tests' expectations as lemmas |

Several things are modelled explicitly:
- `__SCHEMA_MAP` is a class attribute. Dafny has no mutable class-level state, so it is
  one `SchemaRegistry` object that is handed to every `FlaskFilter` constructor.
- `search` and `query_with_filters` are methods with a loop, proved equal to the fold `ApplyAll`.
- `hash` of a filter whose value is a list raises `TypeError` (a list is unhashable).
- `getattr` on a missing model attribute raises `AttributeError`.
- The `_get_db_field` message is the literal `"'{}' is not a valid field"`, because
  it is never formatted.
- The `_lookup_schema` message is three adjacent literals joined with no separators.

## Model

| member | source | states |
|---|---|---|
| Queries.ModelQuery | flask_filter/base.py:31 | `DbModel.query` starts with no constraint, no order and no limit |
| Queries.AddConstraint | flask_filter/filters/filters.py:9 | `query.filter(c)` appends exactly `c` and leaves model, order and limit as they were |
| Queries.OrderBy | flask_filter/base.py:34-35 | `order_by` sets the order column and nothing else |
| Queries.Limit | flask_filter/base.py:36-37 | `limit` sets the limit and nothing else |
| Queries.Compare | flask_filter/filters/filters.py:7-40 | a SQL comparison is unknown or a sign in -1..1, and it is 0 only for equal values |
| Queries.Select | flask_filter/base.py:38 | the rows a `WHERE` keeps are a subsequence of the table, and a row is kept iff it is in the table and passes every constraint |
| Queries.Holds | flask_filter/filters/filters.py:7-64 | the definition of one constraint against one row, SQL's unknown counting as false; what the constraints keep is stated by `Queries.Select` and `Filters.FoldSelectsMatching` |
| Queries.LikeMatch | flask_filter/filters/filters.py:62-64 | the definition of `LIKE` with `%` and `_`; stated by `Queries.PercentMatchesAll` and `Queries.PrefixPattern` |
| Queries.SortBy | flask_filter/base.py:34-35 | the definition of `ORDER BY`, as an insertion sort; stated by `Queries.SortByCorrect` |
| Queries.AllRecords | flask_filter/base.py:38 | the definition of `.all()`: select, then sort when ordered, then take a non-negative limit; stated by `Queries.AllRecordsShape` |
| Queries.StrLeTotal | flask_filter/base.py:34-35 | the binary string collation `ORDER BY` uses is total |
| Queries.StrLeTrans | flask_filter/base.py:34-35 | that collation is transitive |
| Queries.KeyLeTotal | flask_filter/base.py:34-35 | the sort order on column values is total |
| Queries.KeyLeTrans | flask_filter/base.py:34-35 | the sort order on column values is transitive |
| Queries.InsertSorted | flask_filter/base.py:34-35 | inserting a row into a sorted list keeps it sorted |
| Queries.InsertPermutes | flask_filter/base.py:34-35 | inserting adds exactly that row to the multiset |
| Queries.SortByCorrect | flask_filter/base.py:34-35 | `ORDER BY` returns a permutation of its rows, sorted on the column |
| Queries.PercentMatchesAll | flask_filter/filters/filters.py:62-64 | the pattern `%` matches every string |
| Queries.PrefixPattern | flask_filter/filters/filters.py:62-64 | for a literal `p`, `p%` matches exactly the strings that start with `p` |
| Queries.SelectAppend | flask_filter/base.py:32-33 | a query with the constraints `a + b` keeps what `a` keeps, narrowed by `b` |
| Queries.SelectCommutes | flask_filter/base.py:32-33 | the order in which constraints are added does not change the rows kept |
| Queries.AllRecordsShape | flask_filter/base.py:38 | `.all()` returns only rows that pass every constraint; unordered it keeps table order; a limit `n >= 0` caps the count at `n` |
| Queries.PrefixSubsequence | flask_filter/base.py:36-37 | a prefix, as a limit cuts it, is a subsequence |
| Queries.SubsequenceTrans | flask_filter/base.py:36-38 | being a subsequence is transitive |
| PyText.NatText | flask_filter/filters/base.py:13-15 | `str(n)` of a natural is non-empty decimal digits with no leading zero |
| PyText.NatTextValue | flask_filter/filters/base.py:13-15 | the digits printed denote `n` |
| PyText.IntTextRoundTrip | flask_filter/filters/base.py:13-15 | reading back `str(n)` gives `n`, so distinct ints render differently in `repr` |
| PyText.Pad | flask_filter/filters/base.py:13-15 | zero-padding of a date part has the padded width and ends with the digits |
| PyText.IntText | flask_filter/filters/base.py:13-15 | the definition of `str(n)` for an int; `PyText.IntTextRoundTrip` states that it can be read back |
| PyText.Text | flask_filter/filters/base.py:13-15 | the definition of `str(value)` as the f-string interpolates it; read back in `Filters.ReprShowsValue` |
| PyText.Repr | flask_filter/filters/base.py:13-15 | the definition of `repr()` of the values inside a list, as `str()` of a list prints them; strings unescaped |
| Filters.OpDistinct | flask_filter/filters/filters.py:5-60 | the eight classes carry eight different `OP` symbols and eight different SQL operators |
| Filters.OP | flask_filter/filters/filters.py:5-60 | the definition of each class's `OP` attribute; stated by `FilterRegistry.RegistrySymbols` and `Filters.OpDistinct` |
| Filters.ClassName | flask_filter/filters/base.py:14 | the definition of `type(self).__name__` for each class; used by `Filters.ReprShowsValue` and `Filters.ReprExample` |
| Filters.ComparisonOf | flask_filter/filters/filters.py:7-64 | the definition of the SQL operator each `apply` puts between column and value; stated by `Filters.OpDistinct` |
| Filters.HashIsTripleHash | flask_filter/filters/base.py:20-21 | the hash is the hash of `(field, OP, value)`; equal triples hash alike; a list value raises `TypeError` |
| Filters.Eq | flask_filter/filters/base.py:17-18 | the definition of `__eq__`: same class, fields and values taking no part; its properties are `Filters.SameClassEqBreaksHash` and `Schemas.LoadedEquality` |
| Filters.Hash | flask_filter/filters/base.py:20-21 | the definition of `__hash__`; stated by `Filters.HashIsTripleHash` |
| Filters.Repr | flask_filter/filters/base.py:13-15 | the definition of `__repr__`; stated by `Filters.ReprShowsValue`, `Filters.ReprDistinguishesInts` and `Filters.ReprExample` |
| Filters.ReprShowsValue | flask_filter/filters/base.py:13-15 | the repr is the head naming class, field and symbol, then exactly `str(value)`, then `)>` |
| Filters.ReprDistinguishesInts | flask_filter/filters/base.py:13-15 | two filters of one class on one field with int values have the same repr iff they are the same filter |
| Filters.ReprExample | flask_filter/filters/base.py:13-15 | `LTFilter(field="weight", value=10)` renders as `<LTFilter(field='weight', op='<', value=10)>` |
| Filters.GetDbField | flask_filter/filters/base.py:27-38 | the definition of `_get_db_field`; stated case by case by the three `Resolve` lemmas below |
| Filters.ResolveWithoutSchema | flask_filter/filters/base.py:33-34 | with no schema the column name is the field, unchanged |
| Filters.ResolveUndeclared | flask_filter/filters/base.py:35-37 | a field the schema does not declare raises `ValidationError` with the unformatted message |
| Filters.ResolveDeclared | flask_filter/filters/base.py:35-38 | a declared field resolves to its attribute when that is a non-empty string, and to itself otherwise |
| Filters.Column | flask_filter/filters/filters.py:8-9 | the definition of `getattr(class_, self._get_db_field(schema))`, with `AttributeError` for a missing attribute; stated by `QueryFilter.NoSchemaUsesFieldNames` and `Minipet.DogColumns` |
| Filters.ConstraintFor | flask_filter/filters/filters.py:7-64 | the definition of `getattr(class_, field) <op> self.value` as a constraint; stated by `Filters.Apply` and `Filters.ApplyAllOutcome` |
| Filters.Apply | flask_filter/filters/filters.py:7-64 | `apply` succeeds iff the column resolves; then it adds exactly one constraint (resolved column, the class's operator, the value unchanged) and changes nothing else; otherwise it raises the resolution error |
| Filters.ApplyAll | flask_filter/base.py:31-33 | the definition of the loop over the filters as a fold; stated by `Filters.ApplyAllOutcome` and `Filters.ApplyAllAppend` |
| Filters.ApplyNarrows | flask_filter/filters/filters.py:7-9 | after `apply` the query keeps the rows it kept before that also satisfy the new constraint |
| Filters.ApplyAllOutcome | flask_filter/base.py:31-33 | the fold succeeds iff every filter resolves; then it adds one constraint per filter, in list order, and changes nothing else; otherwise it raises the error of the first filter that fails |
| Filters.ApplyAllSucceeds | flask_filter/base.py:31-33 | the fold succeeds iff every filter resolves |
| Filters.ApplyAllShape | flask_filter/base.py:31-33 | a successful fold appends constraint `k` for filter `k` and keeps model, order and limit |
| Filters.ApplyAllFirstError | flask_filter/base.py:31-33 | a failed fold raises the error of the first filter whose column does not resolve |
| Filters.AllResolveTail | flask_filter/base.py:32-33 | once the first filter resolves, all resolve iff the rest do |
| Filters.ApplyAllAppend | flask_filter/base.py:32-33 | folding `a + b` folds `b` onto the result of `a`: filters run strictly left to right |
| Filters.FoldSelectsMatching | flask_filter/base.py:31-38 | the folded query keeps exactly the table rows every filter accepts, in table order |
| Filters.MatchingShape | flask_filter/base.py:31-38 | a row is among the matching rows iff it is a table row every filter accepts, and table order is kept |
| Filters.SelectMatching | flask_filter/base.py:31-38 | constraints that accept exactly what the filters accept keep exactly the matching rows |
| Filters.SameClassEqBreaksHash | flask_filter/filters/base.py:17-21 | `__eq__` calls two same-class filters with different fields equal although they hash differently |
| Filters.TripleEqAgreesWithHash | flask_filter/filters/base.py:20-21 | equality on `(field, OP, value)` is equality of the objects and implies equal hashes |
| FilterRegistry.Ops | flask_filter/schemas.py:12 | the definition of `[x.OP for x in classes]`, one symbol per class in order; stated by `FilterRegistry.RegistrySymbols` and `FilterRegistry.OpsMembership` |
| FilterRegistry.RegistryContents | flask_filter/filters/__init__.py:13-22 | `FILTERS` has eight entries and lists each class exactly once |
| FilterRegistry.RegistrySymbols | flask_filter/filters/__init__.py:13-22 | the symbols of `FILTERS`, in order, are `<`, `<=`, `=`, `>`, `>=`, `in`, `!=`, `like` |
| FilterRegistry.RegistryDistinct | flask_filter/filters/__init__.py:13-22 | no symbol appears twice in `FILTERS` |
| FilterRegistry.OpsMembership | flask_filter/schemas.py:12 | a symbol is in the list of `OP`s iff some registered class carries it |
| Schemas.OpTable | flask_filter/schemas.py:7 | the dictionary comprehension maps exactly the listed symbols, each to a listed class carrying that symbol |
| Schemas.GetFilterClass | flask_filter/schemas.py:6-8 | the class returned carries the symbol and is registered; `None` iff no class carries it |
| Schemas.GetFilterClassUnique | flask_filter/schemas.py:6-8 | a registered class's own symbol looks up that class |
| Schemas.OperatorExamples | flask_filter/schemas.py:6-8 | `<` looks up `LTFilter` and `=` looks up `EqualsFilter` |
| Schemas.ValidateOperator | flask_filter/schemas.py:11-14 | the validator raises iff the symbol is unregistered, with `{'op': ['operator v is not supported']}` |
| Schemas.UnknownOperator | flask_filter/schemas.py:6-19 | `~=` looks up `None` and fails validation; a descriptor using it fails to load with messages under `op` alone: a one-entry list holding the validator's dictionary |
| Schemas.OpRule | flask_filter/schemas.py:19 | the `op` field fails iff `op` is not a registered string |
| Schemas.FieldErrorsExact | flask_filter/schemas.py:17-20 | each of `field`, `op` and `value` carries a message iff its own rule fails, and a descriptor has no messages iff it has the valid shape |
| Schemas.StringError | flask_filter/schemas.py:18-19 | the definition of the messages of a required string field that does not allow `None`; stated by `Schemas.FieldErrorsExact` |
| Schemas.OpError | flask_filter/schemas.py:19 | the definition of the `op` field's messages: the string rule, then the validator's dictionary as a one-entry list; stated by `Schemas.OpRule` and `Schemas.UnknownOperator` |
| Schemas.ValueFieldError | flask_filter/schemas.py:20 | the definition of the `value` field's messages; stated by `Schemas.FieldErrorsExact` |
| Schemas.FieldErrors | flask_filter/schemas.py:17-20 | the definition of the per-field messages of one descriptor; stated by `Schemas.FieldErrorsExact` |
| Schemas.IsValid | flask_filter/schemas.py:17-20 | the definition of the shape that loads; `Schemas.FieldErrorsExact` and `Schemas.LoadOne` tie it to the messages and to the result |
| Schemas.Deserialize | flask_filter/schemas.py:17-20 | the definition of the dictionary the post-load hook receives, with `op` stored under its `attribute` name `OP`; tied to the loaded filter by `Schemas.LoadOne` and `Schemas.LoadAllValid` |
| Schemas.MakeObject | flask_filter/schemas.py:22-28 | `make_object` succeeds iff the symbol is registered, building that class with `field` and `value` passed through; otherwise calling `None` raises `TypeError` |
| Schemas.LoadOne | flask_filter/schemas.py:17-28 | a descriptor loads iff it has the valid shape, as a filter with its field, value and operator; otherwise it raises its field messages |
| Schemas.LoadsAs | flask_filter/schemas.py:22-28 | `{"field": f, "op": OP(c), "value": v}` loads as exactly `c(field=f, value=v)` whenever `v` is not `None` |
| Schemas.MakeObjects | flask_filter/schemas.py:22-28 | the post-load step over many items raises the first item's exception when that item fails |
| Schemas.Collect | flask_filter/schemas.py:22-28 | the definition of collecting per-item results and stopping at the first exception; stated by `Schemas.CollectAll` and `Schemas.CollectFirstError` |
| Schemas.CollectAll | flask_filter/schemas.py:22-28 | when no item's step raises, every built value comes back, in order |
| Schemas.CollectFirstError | flask_filter/schemas.py:22-28 | the exception that propagates is that of the first item whose step raises |
| Schemas.MakeObjectsAll | flask_filter/schemas.py:22-28 | when `make_object` succeeds on every item, the step returns item `k`'s object at position `k` |
| Schemas.LoadAllValid | flask_filter/schemas.py:17-28 | when every item has the valid shape, loading many builds the filter a single load builds for each |
| Schemas.LoadMany | flask_filter/base.py:29 | `load(ds, many=True)` succeeds iff every item is valid, and item `i` is then `load(ds[i])`; otherwise it raises with the messages of exactly the failing items, keyed by index |
| Schemas.LoadedEquality | flask_filter/filters/base.py:17-21 | loaded filters are `__eq__`-equal iff their operators agree, triple-equal iff field, operator and value agree; one descriptor loaded twice is equal both ways |
| FlaskFilterBase.LookupSchema | flask_filter/base.py:40-46 | succeeds iff the model is mapped to a schema, and returns that schema; otherwise raises `TypeError` with the registration hint |
| FlaskFilterBase.MissingSchemaMessage | flask_filter/base.py:43-45 | the definition of the `TypeError` message: three adjacent literals with no separators, formatted with `str(DbModel)`; stated by `FlaskFilterBase.LookupSchema` and `FlaskFilterBase.SearchNeedsSchema` |
| FlaskFilterBase.ResolveSchema | flask_filter/base.py:30 | the definition of `ModelSchema or self._lookup_schema(DbModel)`; stated by `FlaskFilterBase.ExplicitSchemaWins` and `FlaskFilterBase.RegisteredSchemaUsed` |
| FlaskFilterBase.OrderTruthy | flask_filter/base.py:34 | the definition of `if order_by:`; stated by `FlaskFilterBase.FalsyArgumentsIgnored` |
| FlaskFilterBase.OrderColumn | flask_filter/base.py:35 | the definition of the column `order_by` sorts on, for a column attribute or a column name; stated by `FlaskFilterBase.OrderKeyForms` |
| FlaskFilterBase.LimitTruthy | flask_filter/base.py:36 | the definition of `if limit:`; stated by `FlaskFilterBase.FalsyArgumentsIgnored` |
| FlaskFilterBase.SearchQuery | flask_filter/base.py:30-37 | the definition of the query `search` builds; stated by `FlaskFilterBase.SearchResolution` and `FlaskFilterBase.SearchOutcome` |
| FlaskFilterBase.SearchLoaded | flask_filter/base.py:30-38 | the definition of `search` after loading; stated by `FlaskFilterBase.SearchOutcome` and `FlaskFilterBase.SearchRows` |
| FlaskFilterBase.SearchResult | flask_filter/base.py:26-38 | the definition of `search`; stated by `FlaskFilterBase.SearchLoadsFirst`, `FlaskFilterBase.SearchNeedsSchema` and, through `SearchLoaded`, the lemmas after them |
| FlaskFilterBase.Cut | flask_filter/base.py:36-37 | the definition of `LIMIT` on the rows; stated by `FlaskFilterBase.CutSorted` and `FlaskFilterBase.CutInOrder` |
| FlaskFilterBase.SchemaRegistry.constructor | flask_filter/base.py:11 | the class-level map starts empty |
| FlaskFilterBase.FlaskFilter.constructor | flask_filter/base.py:13-17 | keeps the application given and the registry object that stands for `__SCHEMA_MAP` |
| FlaskFilterBase.FlaskFilter.InitApp | flask_filter/base.py:19-21 | records the application |
| FlaskFilterBase.FlaskFilter.RegisterModel | flask_filter/base.py:23-24 | maps the model to the schema; the last registration wins and other models keep theirs |
| FlaskFilterBase.RegistrationIsShared | flask_filter/base.py:11-24 | two fresh instances built over the one registry: a registration through the first is what a lookup through the second finds, and the other models keep their entries |
| FlaskFilterBase.FlaskFilter.Search | flask_filter/base.py:26-38 | the method's loop and branches compute exactly `SearchResult` over the shared registry |
| FlaskFilterBase.FoldFilters | flask_filter/base.py:31-33 | the loop rebinding `query` computes the fold `ApplyAll` from `DbModel.query`, and stops at the first exception |
| FlaskFilterBase.SearchLoadsFirst | flask_filter/base.py:29-30 | a bad descriptor is reported before the schema is looked up, as a per-item `ValidationError` |
| FlaskFilterBase.SearchNeedsSchema | flask_filter/base.py:30-45 | with valid descriptors and no schema passed or registered, search raises the `TypeError` of `_lookup_schema` |
| FlaskFilterBase.ExplicitSchemaWins | flask_filter/base.py:30 | with a schema passed, the registry is not consulted |
| FlaskFilterBase.RegisteredSchemaUsed | flask_filter/base.py:30 | with no schema passed, search behaves as if the registered one had been passed |
| FlaskFilterBase.SearchResolution | flask_filter/base.py:30-33 | once the schema resolves, search succeeds iff every filter resolves, and otherwise raises the first failing filter's error |
| FlaskFilterBase.SearchOutcome | flask_filter/base.py:29-38 | a successful search returns the matching rows: sorted when `order_by` is truthy, in table order otherwise, cut to `limit` when `limit` is truthy and non-negative |
| FlaskFilterBase.SearchRows | flask_filter/base.py:31-38 | every row returned is a table row every filter accepts; all of them come back without a positive limit; they are sorted when ordered and keep table order otherwise; a positive limit caps their number |
| FlaskFilterBase.CutSorted | flask_filter/base.py:34-37 | limiting sorted rows keeps them sorted and drawn from the input |
| FlaskFilterBase.CutInOrder | flask_filter/base.py:36-37 | limiting rows in table order keeps table order |
| FlaskFilterBase.OrderKeyForms | flask_filter/base.py:34-35 | `order_by=Dog.name` and `order_by="name"` give the same rows |
| FlaskFilterBase.FalsyArgumentsIgnored | flask_filter/base.py:34-37 | `limit=0` means no limit and an empty `order_by` string means no order |
| FlaskFilterBase.NoFiltersReturnsTable | flask_filter/base.py:31-38 | no filters, no order and no limit return the whole table in order |
| FlaskFilterBase.MatchingNothing | flask_filter/base.py:31-33 | an empty list of filters keeps every row |
| QueryFilter.QueryWithFilters | flask_filter/query_filter.py:7-12 | loads, then folds with a loop that stops at the first exception, then returns the rows |
| QueryFilter.LoadsFirst | flask_filter/query_filter.py:8-9 | a load failure propagates before the query is touched |
| QueryFilter.QueryOutcome | flask_filter/query_filter.py:9-12 | succeeds iff every filter resolves, and then returns the rows every filter accepts, in table order |
| QueryFilter.QueryLoaded | flask_filter/query_filter.py:9-12 | the definition of `query_with_filters` after loading; stated by `QueryFilter.QueryOutcome` and `QueryFilter.MatchesSearch` |
| QueryFilter.QueryWithFiltersResult | flask_filter/query_filter.py:7-12 | the definition of `query_with_filters`; stated by `QueryFilter.LoadsFirst` and `QueryFilter.MatchesSearchFromDescriptors` |
| QueryFilter.MatchesSearch | flask_filter/query_filter.py:7-12 | with a schema `s`, the result is `search(class_, filters, s)` with no limit or order, whatever is registered |
| QueryFilter.MatchesSearchFromDescriptors | flask_filter/query_filter.py:7-12 | the same, from descriptors not yet loaded |
| QueryFilter.NoSchemaUsesFieldNames | flask_filter/query_filter.py:7-11 | without a schema each field is used as the column name, and an unknown name raises `AttributeError` |
| LegacyFilter.EqByClass | rc/filters/base_filter.py:15-16 | `__eq__` is reflexive; a base-class object equals every filter; a subclass object equals exactly objects of its own class; fields and values take no part |
| LegacyFilter.OP | rc/filters/base_filter.py:6 | the definition of `OP`: `None` on the base class |
| LegacyFilter.IsInstance | rc/filters/base_filter.py:16 | the definition of `isinstance` on the direct subclass hierarchy |
| LegacyFilter.Eq | rc/filters/base_filter.py:15-16 | the definition of a direct `__eq__` call; stated by `LegacyFilter.EqByClass` and `LegacyFilter.EqAsymmetric` |
| LegacyFilter.PyEq | rc/filters/base_filter.py:15-16 | the definition of the `==` operator, which calls the right operand's `__eq__` first when its class is a proper subclass of the left one's; stated by `LegacyFilter.PyEqByClass` |
| LegacyFilter.PyEqByClass | rc/filters/base_filter.py:15-16 | under `==` two filters are equal iff they are of the same class, so `==` is symmetric |
| LegacyFilter.Hash | rc/filters/base_filter.py:18-19 | the definition of `__hash__`; stated by `LegacyFilter.EqAsymmetric` and `LegacyFilter.KeyEqAgreesWithHash` |
| LegacyFilter.Repr | rc/filters/base_filter.py:12-13 | the definition of `__repr__`; stated by `LegacyFilter.ReprOfBase` |
| LegacyFilter.OpText | rc/filters/base_filter.py:13 | the definition of `'{self.OP}'`, which prints `None` as `None`; stated by `LegacyFilter.ReprOfBase` |
| LegacyFilter.EqAsymmetric | rc/filters/base_filter.py:15-19 | `base.__eq__(sub)` holds but `sub.__eq__(base)` does not, while `==` calls them unequal both ways; two base objects `==` calls equal can hash differently |
| LegacyFilter.KeyEqAgreesWithHash | rc/filters/base_filter.py:18-19 | equality on `(field, OP, value)` is symmetric, implies equal hashes, and on one class is equality of the objects |
| LegacyFilter.ReprOfBase | rc/filters/base_filter.py:6-13 | the base class renders as `<Filter(field='f', op='None', value=v)>` |
| Minipet.DogColumns | flask_filter/filters/base.py:33-38 | through `DogSchema`, `dateOfBirth` resolves to `dob` and `weight` to itself; the undeclared `dob` is refused; with no schema `dob` is used as it stands |
| Minipet.SearchKeeps | tests/test_flask_filter.py:124-135 | one filter over the dogs returns the same rows with `DogSchema` passed or found registered |
| Minipet.MatchingDogs | flask_filter/base.py:31-33 | filtering the five dogs judges each dog on its own, in table order |
| Minipet.KeptBy | flask_filter/base.py:31-33 | a single filter keeps exactly the dogs its constraint holds of |
| Minipet.WeightBelow | tests/test_flask_filter.py:100-104 | `weight < 50` keeps Jasmine alone |
| Minipet.WeightAtMost | tests/test_flask_filter.py:106-110 | `weight <= 50` keeps Jasmine and Kaya |
| Minipet.WeightAbove | tests/test_flask_filter.py:112-116 | `weight > 90` keeps Xocomil alone |
| Minipet.WeightAtLeast | tests/test_flask_filter.py:118-122 | `weight >= 90` keeps Xocomil and Quick |
| Minipet.NamesEqual | flask_filter/filters/filters.py:22-24 | `name = v` keeps the dogs named `v`, and `name != v` the others, for every `v` |
| Minipet.NameEquals | tests/test_flask_filter.py:66-71 | `name = 'Xocomil'` keeps Xocomil alone |
| Minipet.NameNotEquals | tests/test_flask_filter.py:81-85 | `name != 'Xocomil'` keeps the other four |
| Minipet.NamesLike | flask_filter/filters/filters.py:62-64 | `name LIKE p%` keeps exactly the dogs whose name starts with `p`, for every literal `p` |
| Minipet.NameLike | tests/test_flask_filter.py:73-79 | `name LIKE 'J%'` keeps Jasmine then Jinx |
| Minipet.NamesIn | flask_filter/filters/filters.py:46-48 | `name IN items` keeps exactly the dogs whose name is an item, in table order |
| Minipet.NameIn | tests/test_flask_filter.py:87-91 | `name IN ('Jinx', 'Kaya')` keeps those two |
| Minipet.ByWeight | tests/test_ordered_search.py:89-105 | sorting on `weight` gives ids 2, 5, 4, 3, 1 |
| Minipet.ByName | tests/test_ordered_search.py:71-87 | sorting on `name` gives ids 2, 4, 5, 3, 1 |
| Minipet.FirstThree | tests/test_flask_filter.py:144-150 | `limit=3` with no filters returns the first three dogs |
| Minipet.AllDogs | tests/test_flask_filter.py:144-149 | no filters and no limit return all five dogs, in insertion order |
| Minipet.OrderedByName | tests/test_ordered_search.py:71-87 | search ordered on `name`, by attribute or by string, returns ids 2, 4, 5, 3, 1 |
| Minipet.OrderedByWeight | tests/test_ordered_search.py:89-105 | search ordered on `weight`, by attribute or by string, returns ids 2, 5, 4, 3, 1 |

## Left out

- The Flask application is an opaque `App` value. `init_app` only records it, and the Flask lifecycle is not modelled.
- SQLAlchemy and the database are replaced by one record-level meaning:
  - SQLite's type affinity and its comparisons across storage classes are not modelled. A comparison of values of different kinds is unknown and keeps no row.
  - So the `dateOfBirth` tests, which compare the `dob` column with an ISO string, are not modelled. The dog rows carry no `dob` or `created` column.
- Queries.LikeMatch: `LIKE` is case-sensitive and has no escape character. SQLite's default `LIKE` ignores ASCII case.
- Minipet.WeightBelow: `weight` is a Float column, modelled with integer values. Floats are not modelled anywhere (`Value` has no float), and neither are booleans or dicts. `fields.Field` passes a dict `value` through, and hashing such a filter raises `TypeError: unhashable type: 'dict'`.
- PyText.Repr: string escapes are not rendered. A string shows between single quotes whatever it contains.
- marshmallow behaviour beyond the three declared fields is not modelled:
  - unknown keys;
  - `strict`;
  - the order in which it reports messages.
- Value type checking, wrapping a bare string for `in`, and ISO date or datetime coercion are left out. They are expected by tests/test_filter_typecheck.py and tests/test_date_filters.py, but the source does not implement them, so the model follows the source.
- The `contains` operator with dotted fields (tests/test_flask_filter.py:152-156) is not registered in the source and is not modelled.
- tests/test_ordered_search.py:107-114 passes `order_by` to `query_with_filters`, which takes no such parameter. That call would raise `TypeError`; it is not modelled.
- An `order_by` naming no column of the model is not modelled, nor are SQLAlchemy's own errors.
- `FlaskFilterBase.OrderKey` covers a column attribute and a column name. Other SQLAlchemy order expressions are left out.
- The class hierarchy of the legacy base is flat: one base and direct subclasses. `isinstance` through deeper subclassing is left out.
- Concurrent access to the shared schema map is not modelled.
- FlaskFilterBase.FlaskFilter.constructor: Dafny has no mutable class-level state. So `__SCHEMA_MAP` is one `SchemaRegistry` object passed to every constructor, and handing every instance that same object is an obligation on the caller. The model does not enforce it.
- RegistrationIsShared: proves sharing for instances built over one registry object, which is how the model renders the class attribute. It does not prove that every instance anywhere gets that object, because of the constructor line above.
- Queries.SortBy: rows with equal sort keys keep table order. SQL leaves the order of ties unspecified, so when keys repeat, the exact list in `FlaskFilterBase.SearchOutcome` is only one allowed answer, especially with a limit. `FlaskFilterBase.SearchRows` states what holds whatever the order of ties.
- No lemma runs `search` from raw descriptors over the dogs. The examples start from loaded filters, and `Schemas.LoadsAs` relates a well-formed descriptor to its filter.
- Schemas.MakeObject: assumes that marshmallow calls the `@post_load` hook with the loaded dictionary alone, as flask_filter/schemas.py:22-23 declares it. marshmallow 3 passes processors the keyword arguments `many` and `partial` as well. The hook's signature rejects those with a `TypeError`, and no marshmallow version is pinned. Under marshmallow 3, every valid load would raise that `TypeError`, and so would every `search` or `query_with_filters` of a non-empty filter list. The model keeps the evidently intended calling convention. The successful results of `Schemas.LoadOne`, `Schemas.LoadMany`, `FlaskFilterBase.SearchOutcome` and `QueryFilter.QueryOutcome` rest on it.

## Findings

| source | as written | input that shows it | evidently intended | confidence | as-written member | corrected member |
|---|---|---|---|---|---|---|
| flask_filter/filters/base.py:17-21 | `__eq__` is `isinstance(other, type(self))`: filters of one class are equal whatever their field and value, while `__hash__` depends on both | `LTFilter("weight", 45)` and `LTFilter("id", 45)` are equal but hash differently; tests/test_filter.py:44-49 expects them unequal | equality on `(field, OP, value)`, consistent with the hash | not executed | Filters.SameClassEqBreaksHash | Filters.TripleEqAgreesWithHash |
| rc/filters/base_filter.py:15-19 | the same `__eq__` on a base class that can be instantiated | `Filter("weight", 45)` and `Filter("id", 45)` are `==`-equal but hash differently; called directly, `Filter("weight", 45).__eq__(LTFilter("weight", 45))` is True and the reverse call is False | equality on `(field, OP, value)` | not executed | LegacyFilter.EqAsymmetric | LegacyFilter.KeyEqAgreesWithHash |
