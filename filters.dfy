/** The filter classes of `flask_filter.filters`: the abstract `Filter` base
    (its constructor, equality, hashing, `repr` and the field-to-column
    resolver) and its eight operator subclasses, each with its `OP` symbol
    and its `apply`. */
module Filters {
  import opened Results
  import opened Values
  import opened Queries
  import PyText

  /** The concrete subclasses of the abstract base. The base's `apply` is an
      abstract method, so every filter object is an instance of one of these. */
  datatype FilterClass =
    | LTFilter | LTEFilter | EqualsFilter | GTFilter | GTEFilter | InFilter | NotEqualsFilter | LikeFilter

  /** The class attribute `OP` of each subclass. */
  function OP(c: FilterClass): string {
    match c
    case LTFilter => "<"
    case LTEFilter => "<="
    case EqualsFilter => "="
    case GTFilter => ">"
    case GTEFilter => ">="
    case InFilter => "in"
    case NotEqualsFilter => "!="
    case LikeFilter => "like"
  }

  /** `type(self).__name__`. */
  function ClassName(c: FilterClass): string {
    match c
    case LTFilter => "LTFilter"
    case LTEFilter => "LTEFilter"
    case EqualsFilter => "EqualsFilter"
    case GTFilter => "GTFilter"
    case GTEFilter => "GTEFilter"
    case InFilter => "InFilter"
    case NotEqualsFilter => "NotEqualsFilter"
    case LikeFilter => "LikeFilter"
  }

  /** The SQL operator each class's `apply` puts between the column and the value:
      `<`, `<=`, `==`, `>`, `>=`, `.in_`, `!=`, `.like`. */
  function ComparisonOf(c: FilterClass): Comparison {
    match c
    case LTFilter => Less
    case LTEFilter => LessEq
    case EqualsFilter => Equal
    case GTFilter => Greater
    case GTEFilter => GreaterEq
    case InFilter => Member
    case NotEqualsFilter => NotEqual
    case LikeFilter => Like
  }

  /** The eight classes carry eight different symbols and eight different SQL operators. */
  lemma OpDistinct(a: FilterClass, b: FilterClass)
    ensures OP(a) == OP(b) ==> a == b
    ensures ComparisonOf(a) == ComparisonOf(b) ==> a == b
  {
  }

  /** A filter object: its class, and the `field` and `value` given to `__init__`,
      stored as they were given. */
  datatype Filter = Filter(cls: FilterClass, field: string, value: Value)

  /** A marshmallow schema as the resolver reads it: each declared field name
      with the `attribute` that field was declared with, if any. */
  datatype Schema = Schema(declared: map<string, Option<string>>)

  // ---------------------------------------------------------------------
  // Equality, hashing, repr
  // ---------------------------------------------------------------------

  /** `self.__eq__(other)`: `isinstance(other, type(self))`. The classes are
      leaves of the hierarchy, so this is "same class"; `field` and `value`
      take no part. */
  predicate Eq(self: Filter, other: Filter) {
    other.cls == self.cls
  }

  /** The tuple `__hash__` feeds to the builtin `hash`. */
  function HashTriple(f: Filter): (string, string, Value) {
    (f.field, OP(f.cls), f.value)
  }

  /** `hash(self)`, for the builtin `pyhash` on tuples. A list value makes the
      tuple unhashable and `hash` raises `TypeError`. */
  function Hash(f: Filter, pyhash: ((string, string, Value)) -> int): Result<int, Error> {
    if f.value.List? then Err(TypeError("unhashable type: 'list'"))
    else Ok(pyhash(HashTriple(f)))
  }

  /** A filter hashes like the tuple `(field, OP, value)`, so two filters with
      the same triple hash alike, whatever their other history. */
  lemma HashIsTripleHash(a: Filter, b: Filter, pyhash: ((string, string, Value)) -> int)
    ensures !a.value.List? ==> Hash(a, pyhash) == Ok(pyhash((a.field, OP(a.cls), a.value)))
    ensures a.value.List? ==> Hash(a, pyhash).Err? && Hash(a, pyhash).error.TypeError?
    ensures (a.field, OP(a.cls), a.value) == (b.field, OP(b.cls), b.value) ==> Hash(a, pyhash) == Hash(b, pyhash)
  {
  }

  /** `repr(self)`: `<ClassName(field='f', op='OP', value=v)>` with `str(value)`. */
  function Repr(f: Filter): string {
    "<" + ClassName(f.cls) + "(field='" + f.field + "', op='" + OP(f.cls) + "', value=" + PyText.Text(f.value) + ")>"
  }

  /** The part of the repr before `str(value)`: class name, field and symbol. */
  function ReprHead(f: Filter): string {
    "<" + ClassName(f.cls) + "(field='" + f.field + "', op='" + OP(f.cls) + "', value="
  }

  /** The repr is the head naming class, field and symbol, then `str(value)`
      alone, then `)>`, so the value can be read back out of it. */
  lemma ReprShowsValue(f: Filter)
    ensures var r, h := Repr(f), ReprHead(f);
      && |r| == |h| + |PyText.Text(f.value)| + 2
      && r[..|h|] == h
      && r[|h|..|r| - 2] == PyText.Text(f.value)
      && r[|r| - 2..] == ")>"
  {
    Unwrap(ReprHead(f), PyText.Text(f.value), ")>");
  }

  /** Slicing `h + t + e` at the seams gives back its three parts. */
  lemma Unwrap(h: string, t: string, e: string)
    ensures |h + t + e| == |h| + |t| + |e|
    ensures (h + t + e)[..|h|] == h
    ensures (h + t + e)[|h|..|h| + |t|] == t
    ensures (h + t + e)[|h| + |t|..] == e
  {
  }

  /** Two filters of one class on one field whose values are ints have the
      same repr exactly when they are the same filter: distinct ints print
      differently. */
  lemma ReprDistinguishesInts(a: Filter, b: Filter)
    requires a.cls == b.cls && a.field == b.field && a.value.Int? && b.value.Int?
    ensures Repr(a) == Repr(b) <==> a == b
  {
    if Repr(a) == Repr(b) {
      ReprShowsValue(a);
      ReprShowsValue(b);
      assert ReprHead(a) == ReprHead(b);
      assert PyText.IntText(a.value.i) == PyText.IntText(b.value.i);
      PyText.IntTextRoundTrip(a.value.i);
      PyText.IntTextRoundTrip(b.value.i);
    }
  }

  /** The repr of `LTFilter(field="weight", value=10)`. */
  lemma ReprExample()
    ensures Repr(Filter(LTFilter, "weight", Int(10))) == "<LTFilter(field='weight', op='<', value=10)>"
  {
    var f := Filter(LTFilter, "weight", Int(10));
    TenText();
    ExampleHead();
    assert Repr(f) == ReprHead(f) + "10" + ")>";
  }

  /** `str(10)`. */
  lemma TenText()
    ensures PyText.Text(Int(10)) == "10"
  {
    assert PyText.NatText(1) == "1";
  }

  /** The head of the example's repr, assembled from its literal pieces. */
  lemma ExampleHead()
    ensures ReprHead(Filter(LTFilter, "weight", Int(10))) == "<LTFilter(field='weight', op='<', value="
  {
    assert "<" + "LTFilter" + "(field='" == "<LTFilter(field='";
    assert "<LTFilter(field='" + "weight" + "', op='" == "<LTFilter(field='weight', op='";
  }

  // ---------------------------------------------------------------------
  // Field -> column resolution (`_get_db_field`)
  // ---------------------------------------------------------------------

  /** The message `_get_db_field` raises with; it is never formatted, so the
      braces stay in the text. */
  const InvalidFieldMessage: string := "'{}' is not a valid field"

  /** `attr.attribute or field`: an unset or empty attribute falls back to the field name. */
  function AttributeOr(attribute: Option<string>, field: string): string {
    if attribute.Some? && attribute.value != "" then attribute.value else field
  }

  /** `self._get_db_field(schema)`. */
  function GetDbField(f: Filter, schema: Option<Schema>): Result<string, Error> {
    if schema.None? then Ok(f.field)
    else if f.field !in schema.value.declared then Err(ValidationError(InvalidFieldMessage))
    else Ok(AttributeOr(schema.value.declared[f.field], f.field))
  }

  lemma ResolveWithoutSchema(f: Filter)
    ensures GetDbField(f, None) == Ok(f.field)
  {
  }

  lemma ResolveUndeclared(f: Filter, s: Schema)
    requires f.field !in s.declared
    ensures GetDbField(f, Some(s)) == Err(ValidationError("'{}' is not a valid field"))
  {
  }

  /** A declared field maps to its attribute when that is a non-empty string,
      and to itself otherwise. */
  lemma ResolveDeclared(f: Filter, s: Schema)
    requires f.field in s.declared
    ensures GetDbField(f, Some(s)).Ok?
    ensures var a := s.declared[f.field];
      GetDbField(f, Some(s)).value == if a.Some? && a.value != "" then a.value else f.field
  {
  }

  /** `getattr(class_, self._get_db_field(schema))`: the resolved name must be
      an attribute of the model. */
  function Column(f: Filter, model: Model, schema: Option<Schema>): Result<string, Error> {
    var name :- GetDbField(f, schema);
    if name in model.attributes then Ok(name) else Err(AttributeError(model.name, name))
  }

  /** The constraint a filter adds for a resolved column. */
  function ConstraintFor(f: Filter, column: string): Constraint {
    Constraint(column, ComparisonOf(f.cls), f.value)
  }

  // ---------------------------------------------------------------------
  // apply
  // ---------------------------------------------------------------------

  /** `self.apply(query, class_, schema)`: resolve the column, then return
      `query.filter(<column> <OP> self.value)`. A failed resolution adds nothing
      and its exception propagates. */
  function Apply(f: Filter, q: Query, model: Model, schema: Option<Schema>): (r: Result<Query, Error>)
    ensures r.Ok? <==> Column(f, model, schema).Ok?
    ensures r.Ok? ==> r.value.constraints == q.constraints + [ConstraintFor(f, Column(f, model, schema).value)]
    ensures r.Ok? ==> r.value.model == q.model && r.value.order == q.order && r.value.limit == q.limit
    ensures r.Err? ==> r.error == Column(f, model, schema).error
  {
    var column :- Column(f, model, schema);
    Ok(AddConstraint(q, ConstraintFor(f, column)))
  }

  /** A successful `apply` keeps exactly the rows the query kept before that
      also satisfy the new constraint. */
  lemma ApplyNarrows(f: Filter, q: Query, model: Model, schema: Option<Schema>, table: seq<Record>)
    requires Apply(f, q, model, schema).Ok?
    ensures var c := ConstraintFor(f, Column(f, model, schema).value);
      Select(table, Apply(f, q, model, schema).value.constraints) == Select(Select(table, q.constraints), [c])
  {
    SelectAppend(table, q.constraints, [ConstraintFor(f, Column(f, model, schema).value)]);
  }

  /** The loops of `search` and `query_with_filters`: each filter is applied to
      the query the previous one returned, and the first exception stops the fold. */
  function ApplyAll(fs: seq<Filter>, q: Query, model: Model, schema: Option<Schema>): Result<Query, Error>
    decreases |fs|
  {
    if fs == [] then Ok(q)
    else match Apply(fs[0], q, model, schema)
      case Err(e) => Err(e)
      case Ok(next) => ApplyAll(fs[1..], next, model, schema)
  }

  predicate AllResolve(fs: seq<Filter>, model: Model, schema: Option<Schema>) {
    forall k :: 0 <= k < |fs| ==> Column(fs[k], model, schema).Ok?
  }

  /** The fold succeeds iff every filter's column resolves; then the query has
      gained exactly one constraint per filter, in list order, and nothing else
      changed. Otherwise the error is that of the first filter that fails. */
  lemma ApplyAllOutcome(fs: seq<Filter>, q: Query, model: Model, schema: Option<Schema>)
    ensures ApplyAll(fs, q, model, schema).Ok? <==> AllResolve(fs, model, schema)
    ensures ApplyAll(fs, q, model, schema).Ok? ==>
      var r := ApplyAll(fs, q, model, schema).value;
      && r.model == q.model && r.order == q.order && r.limit == q.limit
      && |r.constraints| == |q.constraints| + |fs|
      && r.constraints[..|q.constraints|] == q.constraints
      && forall k :: 0 <= k < |fs| ==>
           r.constraints[|q.constraints| + k] == ConstraintFor(fs[k], Column(fs[k], model, schema).value)
    ensures ApplyAll(fs, q, model, schema).Err? ==>
      exists k :: 0 <= k < |fs| && Column(fs[k], model, schema).Err?
        && (forall j :: 0 <= j < k ==> Column(fs[j], model, schema).Ok?)
        && ApplyAll(fs, q, model, schema).error == Column(fs[k], model, schema).error
  {
    ApplyAllSucceeds(fs, q, model, schema);
    if ApplyAll(fs, q, model, schema).Ok? {
      ApplyAllShape(fs, q, model, schema);
    } else {
      ApplyAllFirstError(fs, q, model, schema);
    }
  }

  lemma {:induction false} ApplyAllSucceeds(fs: seq<Filter>, q: Query, model: Model, schema: Option<Schema>)
    ensures ApplyAll(fs, q, model, schema).Ok? <==> AllResolve(fs, model, schema)
    decreases |fs|
  {
    if fs != [] {
      var step := Apply(fs[0], q, model, schema);
      if step.Ok? {
        ApplyAllSucceeds(fs[1..], step.value, model, schema);
        AllResolveTail(fs, model, schema);
      } else {
        assert !AllResolve(fs, model, schema);
      }
    }
  }

  lemma {:induction false} ApplyAllShape(fs: seq<Filter>, q: Query, model: Model, schema: Option<Schema>)
    requires ApplyAll(fs, q, model, schema).Ok?
    ensures var r := ApplyAll(fs, q, model, schema).value;
      && r.model == q.model && r.order == q.order && r.limit == q.limit
      && |r.constraints| == |q.constraints| + |fs|
      && r.constraints[..|q.constraints|] == q.constraints
      && forall k :: 0 <= k < |fs| ==>
           Column(fs[k], model, schema).Ok? &&
           r.constraints[|q.constraints| + k] == ConstraintFor(fs[k], Column(fs[k], model, schema).value)
    decreases |fs|
  {
    if fs != [] {
      var next := Apply(fs[0], q, model, schema).value;
      ApplyAllShape(fs[1..], next, model, schema);
      var r := ApplyAll(fs, q, model, schema).value;
      var n := |q.constraints|;
      assert r.constraints[..n + 1] == next.constraints;
      assert r.constraints[..n] == q.constraints by {
        assert r.constraints[..n] == r.constraints[..n + 1][..n];
      }
      forall k | 0 <= k < |fs|
        ensures Column(fs[k], model, schema).Ok?
        ensures r.constraints[n + k] == ConstraintFor(fs[k], Column(fs[k], model, schema).value)
      {
        if k == 0 {
          assert r.constraints[n] == next.constraints[n];
        } else {
          assert fs[k] == fs[1..][k - 1];
          assert r.constraints[n + k] == r.constraints[|next.constraints| + (k - 1)];
        }
      }
    }
  }

  lemma {:induction false} ApplyAllFirstError(fs: seq<Filter>, q: Query, model: Model, schema: Option<Schema>)
    requires ApplyAll(fs, q, model, schema).Err?
    ensures exists k ::
      && 0 <= k < |fs| && Column(fs[k], model, schema).Err?
      && (forall j :: 0 <= j < k ==> Column(fs[j], model, schema).Ok?)
      && ApplyAll(fs, q, model, schema).error == Column(fs[k], model, schema).error
    decreases |fs|
  {
    var step := Apply(fs[0], q, model, schema);
    if step.Ok? {
      ApplyAllFirstError(fs[1..], step.value, model, schema);
      var k' :| 0 <= k' < |fs[1..]| && Column(fs[1..][k'], model, schema).Err?
        && (forall j :: 0 <= j < k' ==> Column(fs[1..][j], model, schema).Ok?)
        && ApplyAll(fs, q, model, schema).error == Column(fs[1..][k'], model, schema).error;
      var k := k' + 1;
      assert fs[k] == fs[1..][k'];
      forall j | 0 <= j < k ensures Column(fs[j], model, schema).Ok? {
        if j > 0 { assert fs[j] == fs[1..][j - 1]; }
      }
    } else {
      assert Column(fs[0], model, schema).Err?;
    }
  }

  /** When the first filter resolves, all resolve exactly when the rest do. */
  lemma AllResolveTail(fs: seq<Filter>, model: Model, schema: Option<Schema>)
    requires fs != [] && Column(fs[0], model, schema).Ok?
    ensures AllResolve(fs, model, schema) <==> AllResolve(fs[1..], model, schema)
  {
    if AllResolve(fs[1..], model, schema) {
      forall k | 0 <= k < |fs| ensures Column(fs[k], model, schema).Ok? {
        if k > 0 { assert fs[k] == fs[1..][k - 1]; }
      }
    }
    if AllResolve(fs, model, schema) {
      forall k | 0 <= k < |fs[1..]| ensures Column(fs[1..][k], model, schema).Ok? {
        assert fs[1..][k] == fs[k + 1];
      }
    }
  }

  /** Folding a concatenation is folding the second list onto the result of
      the first: the filters run strictly left to right. */
  lemma {:induction false} ApplyAllAppend(a: seq<Filter>, b: seq<Filter>, q: Query, model: Model, schema: Option<Schema>)
    ensures ApplyAll(a + b, q, model, schema) ==
      match ApplyAll(a, q, model, schema)
      case Err(e) => Err(e)
      case Ok(mid) => ApplyAll(b, mid, model, schema)
    decreases |a|
  {
    if a == [] {
      assert a + b == b;
    } else {
      assert (a + b)[0] == a[0];
      assert (a + b)[1..] == a[1..] + b;
      match Apply(a[0], q, model, schema)
      case Err(e) =>
      case Ok(next) => ApplyAllAppend(a[1..], b, next, model, schema);
    }
  }

  // ---------------------------------------------------------------------
  // The rows a folded list of filters selects
  // ---------------------------------------------------------------------

  /** The record satisfies every filter's comparison on that filter's resolved column. */
  predicate MatchesAll(fs: seq<Filter>, model: Model, schema: Option<Schema>, r: Record)
    requires AllResolve(fs, model, schema)
  {
    forall k :: 0 <= k < |fs| ==> Holds(ConstraintFor(fs[k], Column(fs[k], model, schema).value), r)
  }

  /** The row as a one-row list when every filter accepts it, else nothing. */
  function KeepRow(fs: seq<Filter>, model: Model, schema: Option<Schema>, r: Record): seq<Record>
    requires AllResolve(fs, model, schema)
  {
    if MatchesAll(fs, model, schema, r) then [r] else []
  }

  /** The rows of the table every filter accepts, in table order. */
  function Matching(fs: seq<Filter>, model: Model, schema: Option<Schema>, table: seq<Record>): seq<Record>
    requires AllResolve(fs, model, schema)
  {
    if table == [] then []
    else KeepRow(fs, model, schema, table[0]) + Matching(fs, model, schema, table[1..])
  }

  /** The query folded from `DbModel.query` keeps exactly the rows every filter accepts. */
  lemma FoldSelectsMatching(fs: seq<Filter>, model: Model, schema: Option<Schema>, table: seq<Record>)
    requires AllResolve(fs, model, schema)
    ensures ApplyAll(fs, ModelQuery(model), model, schema).Ok?
    ensures forall r ::
      HoldsAll(ApplyAll(fs, ModelQuery(model), model, schema).value.constraints, r) <==> MatchesAll(fs, model, schema, r)
    ensures Select(table, ApplyAll(fs, ModelQuery(model), model, schema).value.constraints)
      == Matching(fs, model, schema, table)
  {
    ApplyAllOutcome(fs, ModelQuery(model), model, schema);
    var cs := ApplyAll(fs, ModelQuery(model), model, schema).value.constraints;
    assert |cs| == |fs|;
    assert forall k :: 0 <= k < |fs| ==> cs[k] == ConstraintFor(fs[k], Column(fs[k], model, schema).value) by {
      forall k | 0 <= k < |fs| ensures cs[k] == ConstraintFor(fs[k], Column(fs[k], model, schema).value) {
        assert cs[|ModelQuery(model).constraints| + k] == ConstraintFor(fs[k], Column(fs[k], model, schema).value);
      }
    }
    forall r ensures HoldsAll(cs, r) <==> MatchesAll(fs, model, schema, r) {
    }
    SelectMatching(cs, fs, model, schema, table);
  }

  /** The matching rows are the table rows every filter accepts, in table order. */
  lemma MatchingShape(fs: seq<Filter>, model: Model, schema: Option<Schema>, table: seq<Record>)
    requires AllResolve(fs, model, schema)
    ensures forall r :: r in Matching(fs, model, schema, table) <==> r in table && MatchesAll(fs, model, schema, r)
    ensures IsSubsequence(Matching(fs, model, schema, table), table)
  {
    FoldSelectsMatching(fs, model, schema, table);
  }

  lemma {:induction false} SelectMatching(cs: seq<Constraint>, fs: seq<Filter>, model: Model, schema: Option<Schema>, table: seq<Record>)
    requires AllResolve(fs, model, schema)
    requires forall r :: HoldsAll(cs, r) <==> MatchesAll(fs, model, schema, r)
    ensures Select(table, cs) == Matching(fs, model, schema, table)
  {
    if table != [] {
      SelectMatching(cs, fs, model, schema, table[1..]);
    }
  }

  // ---------------------------------------------------------------------
  // Equality as the tests expect it
  // ---------------------------------------------------------------------

  /** Equality on the triple `(field, OP, value)`, the identity `__hash__` uses. */
  predicate TripleEq(a: Filter, b: Filter) {
    HashTriple(a) == HashTriple(b)
  }

  /** Triple equality is equality of filter objects' contents, and equal
      filters then hash alike, as Python requires of `__eq__` and `__hash__`. */
  lemma TripleEqAgreesWithHash(a: Filter, b: Filter, pyhash: ((string, string, Value)) -> int)
    ensures TripleEq(a, b) <==> a == b
    ensures TripleEq(a, b) ==> Hash(a, pyhash) == Hash(b, pyhash)
    ensures TripleEq(a, b) ==> Eq(a, b)
  {
    if TripleEq(a, b) {
      OpDistinct(a.cls, b.cls);
    }
  }

  /** Two filters on different fields that `__eq__` calls equal yet hash
      differently, against the rule that equal objects hash alike; and the
      pairs of tests/test_filter.py that expect inequality. Python's own
      tuple hash is not modelled: the lemma exhibits one admissible hash of
      the tuple (the length of its field) under which the two hash apart. */
  lemma SameClassEqBreaksHash()
    ensures var a, b := Filter(LTFilter, "weight", Int(45)), Filter(LTFilter, "id", Int(45));
      var len := (t: (string, string, Value)) => |t.0|;
      Eq(a, b) && Eq(b, a) && Hash(a, len) != Hash(b, len) && !TripleEq(a, b)
    ensures var a, b := Filter(LTFilter, "weight", Int(1024)), Filter(LTFilter, "weight", Int(1025));
      Eq(a, b) && !TripleEq(a, b)
    ensures var a, b := Filter(LTFilter, "weight", Int(1024)), Filter(GTFilter, "weight", Int(1024));
      !Eq(a, b) && !TripleEq(a, b)
  {
  }
}
