/** `flask_filter.schemas`: the operator lookup, the operator validator and
    `FilterSchema`, which checks a descriptor's shape and builds the filter
    of the registered class. */
module Schemas {
  import opened Results
  import opened Values
  import opened Filters
  import opened FilterRegistry

  /** A filter descriptor as decoded from JSON: key to value. */
  type Descriptor = map<string, Value>

  // ---------------------------------------------------------------------
  // get_filter_class, validate_operator
  // ---------------------------------------------------------------------

  /** `{c.OP: c for c in classes}`: a later class replaces an earlier one with the same symbol. */
  function OpTable(classes: seq<FilterClass>): (t: map<string, FilterClass>)
    ensures forall op :: op in t <==> op in Ops(classes)
    ensures forall op :: op in t ==> OP(t[op]) == op && t[op] in classes
  {
    if classes == [] then map[]
    else
      var init, last := classes[..|classes| - 1], classes[|classes| - 1];
      assert classes == init + [last];
      assert forall op :: op in Ops(classes) <==> op in Ops(init) || op == OP(last) by {
        forall op ensures op in Ops(classes) <==> op in Ops(init) || op == OP(last) {
          if op in Ops(classes) {
            var k :| 0 <= k < |classes| && Ops(classes)[k] == op;
            if k < |init| { assert Ops(init)[k] == op; }
          }
          if op in Ops(init) {
            var k :| 0 <= k < |init| && Ops(init)[k] == op;
            assert Ops(classes)[k] == op;
          }
          if op == OP(last) { assert Ops(classes)[|init|] == op; }
        }
      }
      OpTable(init)[OP(last) := last]
  }

  /** `get_filter_class(operator)`: the registered class whose `OP` is the
      symbol, or `None` for a symbol no class carries. */
  function GetFilterClass(op: string): (r: Option<FilterClass>)
    ensures r.Some? ==> OP(r.value) == op && r.value in FILTERS
    ensures r.None? <==> !Registered(op)
  {
    OpsMembership(op);
    var table := OpTable(FILTERS);
    if op in table then Some(table[op]) else None
  }

  /** The symbol picks one class: any registered class with that `OP` is the one returned. */
  lemma GetFilterClassUnique(op: string, c: FilterClass)
    requires c in FILTERS && OP(c) == op
    ensures GetFilterClass(op) == Some(c)
  {
    var k :| 0 <= k < |FILTERS| && FILTERS[k] == c;
    assert Ops(FILTERS)[k] == op;
    OpDistinct(GetFilterClass(op).value, c);
  }

  /** The dictionary message of the operator validator. */
  function UnsupportedMessage(v: string): map<string, seq<string>> {
    map["op" := ["operator " + v + " is not supported"]]
  }

  /** `validate_operator(value)`: raises unless the symbol is in the list of
      the registered classes' `OP`s, that is, unless some registered class carries it. */
  function ValidateOperator(v: string): (r: Result<(), Error>)
    ensures r.Err? <==> !Registered(v)
    ensures r.Err? ==> r.error == OperatorError(map["op" := ["operator " + v + " is not supported"]])
  {
    OpsMembership(v);
    if v !in Ops(FILTERS) then Err(OperatorError(UnsupportedMessage(v))) else Ok(())
  }

  // ---------------------------------------------------------------------
  // FilterSchema field rules
  // ---------------------------------------------------------------------

  const MissingMessage: string := "Missing data for required field."
  const NullMessage: string := "Field may not be null."
  const NotStringMessage: string := "Not a valid string."

  /** What marshmallow records for a `fields.String(required=True)` key that
      does not allow `None`: `field`, and `op` before its validator runs. */
  function StringError(d: Descriptor, key: string): Option<FieldError> {
    if key !in d then Some([TextMessage(MissingMessage)])
    else match d[key]
      case Null => Some([TextMessage(NullMessage)])
      case Str(_) => None
      case _ => Some([TextMessage(NotStringMessage)])
  }

  /** `op`: a string, then the operator validator. marshmallow collects what
      each validator raises into a list, appending a raised dictionary as one
      entry, so the field's messages are a one-entry list holding that dictionary. */
  function OpError(d: Descriptor): Option<FieldError> {
    if StringError(d, "op").Some? then StringError(d, "op")
    else if ValidateOperator(d["op"].s).Err? then Some([DictMessage(UnsupportedMessage(d["op"].s))])
    else None
  }

  /** `value = fields.Field(required=True, allow_none=False)`. */
  function ValueFieldError(d: Descriptor): Option<FieldError> {
    if "value" !in d then Some([TextMessage(MissingMessage)])
    else if d["value"].Null? then Some([TextMessage(NullMessage)])
    else None
  }

  /** `errors[key] = message` when a rule fails. */
  function WithFieldError(e: map<string, FieldError>, key: string, err: Option<FieldError>): map<string, FieldError> {
    if err.Some? then e[key := err.value] else e
  }

  /** The per-field messages of a descriptor that fails to load (empty when it loads),
      the three declared fields each checked on its own. */
  function FieldErrors(d: Descriptor): map<string, FieldError> {
    WithFieldError(WithFieldError(WithFieldError(map[], "field", StringError(d, "field")), "op", OpError(d)), "value", ValueFieldError(d))
  }

  /** The descriptor shape `FilterSchema` accepts: a string `field`, a
      registered string `op`, and a `value` that is not `None`. */
  predicate IsValid(d: Descriptor) {
    && "field" in d && d["field"].Str?
    && "op" in d && d["op"].Str? && Registered(d["op"].s)
    && "value" in d && !d["value"].Null?
  }

  /** The `op` rule fails exactly when `op` is not a registered string. */
  lemma OpRule(d: Descriptor)
    ensures OpError(d).Some? <==> !("op" in d && d["op"].Str? && Registered(d["op"].s))
  {
    if "op" in d && d["op"].Str? {
      assert StringError(d, "op") == None;
    }
  }

  /** Each of the three keys carries a message exactly when its own rule fails,
      so a descriptor loads exactly when it has the valid shape. */
  lemma FieldErrorsExact(d: Descriptor)
    ensures FieldErrors(d).Keys <= {"field", "op", "value"}
    ensures "field" in FieldErrors(d) <==> !("field" in d && d["field"].Str?)
    ensures "op" in FieldErrors(d) <==> !("op" in d && d["op"].Str? && Registered(d["op"].s))
    ensures "value" in FieldErrors(d) <==> !("value" in d && !d["value"].Null?)
    ensures FieldErrors(d) == map[] <==> IsValid(d)
  {
    OpRule(d);
    ThreeFields(StringError(d, "field"), OpError(d), ValueFieldError(d));
    assert "op" in FieldErrors(d) <==> OpError(d).Some?;
  }

  /** Recording three optional messages under `field`, `op` and `value` gives
      a map that holds exactly the keys whose message is present. */
  lemma ThreeFields(a: Option<FieldError>, b: Option<FieldError>, c: Option<FieldError>)
    ensures var e := WithFieldError(WithFieldError(WithFieldError(map[], "field", a), "op", b), "value", c);
      && e.Keys <= {"field", "op", "value"}
      && ("field" in e <==> a.Some?) && ("op" in e <==> b.Some?) && ("value" in e <==> c.Some?)
      && (e == map[] <==> a.None? && b.None? && c.None?)
  {
    assert "op"[0] != "field"[0] && "value"[0] != "field"[0] && "op"[0] != "value"[0];
    var e1 := WithFieldError(map[], "field", a);
    var e2 := WithFieldError(e1, "op", b);
    var e3 := WithFieldError(e2, "value", c);
    assert e1.Keys <= {"field"} && ("field" in e1 <==> a.Some?);
    assert e2.Keys <= {"field", "op"} && ("op" in e2 <==> b.Some?) && ("field" in e2 <==> "field" in e1);
    assert ("value" in e3 <==> c.Some?) && ("field" in e3 <==> "field" in e1) && ("op" in e3 <==> "op" in e2);
    if e3 == map[] {
      assert "field" !in e3 && "op" !in e3 && "value" !in e3;
    }
  }

  // ---------------------------------------------------------------------
  // make_object and load
  // ---------------------------------------------------------------------

  /** The dictionary `make_object` receives: `op` was loaded under its attribute name `OP`. */
  datatype Loaded = Loaded(field: string, OP: string, value: Value)

  /** The dictionary marshmallow passes to the post-load hook: `field` and
      `value` as given, and `op` stored under its `attribute` name `OP`. */
  function Deserialize(d: Descriptor): Loaded
    requires IsValid(d)
  {
    Loaded(d["field"].s, d["op"].s, d["value"])
  }

  const NotCallableMessage: string := "'NoneType' object is not callable"

  /** `make_object(json)`: `get_filter_class(OP)(field=field, value=value)`.
      An unregistered symbol gives `None`, and calling it raises `TypeError`.
      The hook is taken to be called with the loaded dictionary alone. */
  function MakeObject(json: Loaded): (r: Result<Filter, Error>)
    ensures r.Ok? <==> Registered(json.OP)
    ensures r.Ok? ==> r.value.field == json.field && r.value.value == json.value && OP(r.value.cls) == json.OP
    ensures r.Ok? ==> r.value.cls in FILTERS
    ensures r.Err? ==> r.error == TypeError(NotCallableMessage)
  {
    match GetFilterClass(json.OP)
    case None => Err(TypeError(NotCallableMessage))
    case Some(c) => Ok(Filter(c, json.field, json.value))
  }

  /** `FilterSchema().load(d)`: the field errors, or the object `make_object` builds. */
  function LoadOne(d: Descriptor): (r: Result<Filter, Error>)
    ensures r.Ok? <==> IsValid(d)
    ensures r.Ok? ==> r.value.field == d["field"].s && r.value.value == d["value"] && OP(r.value.cls) == d["op"].s
    ensures r.Err? ==> r.error == InvalidFields(FieldErrors(d))
  {
    FieldErrorsExact(d);
    if FieldErrors(d) != map[] then Err(InvalidFields(FieldErrors(d)))
    else MakeObject(Deserialize(d))
  }

  /** The post-load step over every loaded item, `[make_object(item) for item in items]`. */
  function MakeObjects(ls: seq<Loaded>): (r: Result<seq<Filter>, Error>)
    ensures |ls| > 0 && MakeObject(ls[0]).Err? ==> r == Err(MakeObject(ls[0]).error)
  {
    Collect(seq(|ls|, k requires 0 <= k < |ls| => MakeObject(ls[k])))
  }

  /** A list comprehension's outcome: the first exception propagates,
      otherwise the list of the values built. */
  function Collect(rs: seq<Result<Filter, Error>>): Result<seq<Filter>, Error> {
    if rs == [] then Ok([])
    else
      var f :- rs[0];
      var rest :- Collect(rs[1..]);
      Ok([f] + rest)
  }

  /** When no step raises, the comprehension yields every value, in order. */
  lemma {:induction false} CollectAll(rs: seq<Result<Filter, Error>>)
    requires forall k :: 0 <= k < |rs| ==> rs[k].Ok?
    ensures Collect(rs).Ok? && |Collect(rs).value| == |rs|
    ensures forall k :: 0 <= k < |rs| ==> rs[k] == Ok(Collect(rs).value[k])
  {
    if rs != [] {
      CollectAll(rs[1..]);
      var f, rest := rs[0].value, Collect(rs[1..]).value;
      assert Collect(rs) == Ok([f] + rest);
      forall k | 1 <= k < |rs| ensures rs[k] == Ok(([f] + rest)[k]) {
        assert rs[k] == rs[1..][k - 1];
      }
    }
  }

  /** The exception that propagates is the one of the first step that raises. */
  lemma {:induction false} CollectFirstError(rs: seq<Result<Filter, Error>>, k: nat)
    requires k < |rs| && rs[k].Err?
    requires forall j :: 0 <= j < k ==> rs[j].Ok?
    ensures Collect(rs) == Err(rs[k].error)
  {
    if k > 0 {
      CollectFirstError(rs[1..], k - 1);
    }
  }

  /** When `make_object` succeeds on every loaded item, the post-load step
      succeeds and builds, item by item, what `make_object` builds. */
  lemma MakeObjectsAll(ls: seq<Loaded>)
    requires forall k :: 0 <= k < |ls| ==> MakeObject(ls[k]).Ok?
    ensures var r := MakeObjects(ls);
      r.Ok? && |r.value| == |ls| && forall k :: 0 <= k < |ls| ==> MakeObject(ls[k]) == Ok(r.value[k])
  {
    CollectAll(seq(|ls|, k requires 0 <= k < |ls| => MakeObject(ls[k])));
  }

  /** `FilterSchema().load(ds, many=True)`: every item is checked; any failure
      raises with the messages of all failing items keyed by index, and
      otherwise item `i` becomes exactly the filter `load(ds[i])` gives. */
  function LoadMany(ds: seq<Descriptor>): (r: Result<seq<Filter>, Error>)
    ensures r.Ok? <==> forall i :: 0 <= i < |ds| ==> IsValid(ds[i])
    ensures r.Ok? ==> |r.value| == |ds| && forall i :: 0 <= i < |ds| ==> LoadOne(ds[i]) == Ok(r.value[i])
    ensures r.Err? ==>
      && r.error.InvalidItems?
      && r.error.items.Keys == (set i: nat | i < |ds| && !IsValid(ds[i]))
      && forall i :: i in r.error.items ==> i < |ds| && r.error.items[i] == FieldErrors(ds[i])
  {
    if forall i :: 0 <= i < |ds| ==> IsValid(ds[i]) then
      LoadAllValid(ds);
      MakeObjects(DeserializeAll(ds))
    else
      var errors := map i: nat | i < |ds| && !IsValid(ds[i]) :: FieldErrors(ds[i]);
      assert errors.Keys == (set i: nat | i < |ds| && !IsValid(ds[i]));
      Err(InvalidItems(errors))
  }

  /** The loaded dictionaries of items that all have the valid shape. */
  function DeserializeAll(ds: seq<Descriptor>): (ls: seq<Loaded>)
    requires forall i :: 0 <= i < |ds| ==> IsValid(ds[i])
    ensures |ls| == |ds| && forall i :: 0 <= i < |ds| ==> ls[i] == Deserialize(ds[i])
  {
    seq(|ds|, i requires 0 <= i < |ds| => Deserialize(ds[i]))
  }

  /** When every item has the valid shape, the post-load step succeeds and
      builds, item by item, the filter a single load builds. */
  lemma LoadAllValid(ds: seq<Descriptor>)
    requires forall i :: 0 <= i < |ds| ==> IsValid(ds[i])
    ensures var r := MakeObjects(DeserializeAll(ds));
      r.Ok? && |r.value| == |ds| && forall i :: 0 <= i < |ds| ==> LoadOne(ds[i]) == Ok(r.value[i])
  {
    var ls := DeserializeAll(ds);
    forall i | 0 <= i < |ds| ensures LoadOne(ds[i]) == MakeObject(ls[i]) && MakeObject(ls[i]).Ok? {
      FieldErrorsExact(ds[i]);
    }
    MakeObjectsAll(ls);
  }

  /** Loaded filters compare equal under `__eq__` exactly when their
      descriptors name the same operator, and equal under the triple exactly
      when field, operator and value all agree; loading one descriptor twice
      gives filters equal both ways. */
  lemma LoadedEquality(d1: Descriptor, d2: Descriptor)
    requires IsValid(d1) && IsValid(d2)
    ensures Eq(LoadOne(d1).value, LoadOne(d2).value) <==> d1["op"] == d2["op"]
    ensures TripleEq(LoadOne(d1).value, LoadOne(d2).value) <==>
      d1["field"] == d2["field"] && d1["op"] == d2["op"] && d1["value"] == d2["value"]
    ensures d1 == d2 ==> Eq(LoadOne(d1).value, LoadOne(d2).value) && TripleEq(LoadOne(d1).value, LoadOne(d2).value)
  {
    var f1, f2 := LoadOne(d1).value, LoadOne(d2).value;
    OpDistinct(f1.cls, f2.cls);
  }

  /** A well-formed descriptor `{"field": f, "op": OP, "value": v}` loads as
      the filter of the class carrying `OP`, with `f` and `v` unchanged. */
  lemma LoadsAs(c: FilterClass, field: string, v: Value)
    requires !v.Null?
    ensures LoadOne(map["field" := Str(field), "op" := Str(OP(c)), "value" := v]) == Ok(Filter(c, field, v))
  {
    var d := map["field" := Str(field), "op" := Str(OP(c)), "value" := v];
    RegistryContents();
    assert multiset(FILTERS)[c] == 1;
    assert c in FILTERS;
    assert d["field"] == Str(field) && d["op"] == Str(OP(c)) && d["value"] == v;
    assert IsValid(d);
    var g := LoadOne(d).value;
    OpDistinct(g.cls, c);
    assert g.cls == c && g.field == field && g.value == v;
  }

  /** Two registered symbols of tests/test_filter_typecheck.py. */
  lemma OperatorExamples()
    ensures GetFilterClass("<") == Some(LTFilter)
    ensures GetFilterClass("=") == Some(EqualsFilter)
  {
    GetFilterClassUnique("<", LTFilter);
    GetFilterClassUnique("=", EqualsFilter);
  }

  /** `~=` is no class's symbol: the lookup gives `None`, the validator
      rejects it, and a descriptor using it fails to load with the
      validator's message under `op` alone. */
  lemma UnknownOperator()
    ensures GetFilterClass("~=") == None
    ensures ValidateOperator("~=") == Err(OperatorError(map["op" := ["operator ~= is not supported"]]))
    ensures LoadOne(map["field" := Str("x"), "op" := Str("~="), "value" := Int(1)])
      == Err(InvalidFields(map["op" := [DictMessage(map["op" := ["operator ~= is not supported"]])]]))
  {
    forall c: FilterClass ensures OP(c) != "~=" {
      assert OP(c)[0] != '~';
    }
    assert !Registered("~=");
    assert "operator " + "~=" + " is not supported" == "operator ~= is not supported";
    var d := map["field" := Str("x"), "op" := Str("~="), "value" := Int(1)];
    assert StringError(d, "field") == None;
    assert OpError(d) == Some([DictMessage(map["op" := ["operator ~= is not supported"]])]);
    assert ValueFieldError(d) == None;
  }
}
