/** `flask_filter.filters.FILTERS`, the table of operator classes the
    deserializer dispatches on. */
module FilterRegistry {
  import opened Filters

  const FILTERS: seq<FilterClass> :=
    [LTFilter, LTEFilter, EqualsFilter, GTFilter, GTEFilter, InFilter, NotEqualsFilter, LikeFilter]

  /** `[x.OP for x in classes]`. */
  function Ops(classes: seq<FilterClass>): seq<string> {
    seq(|classes|, k requires 0 <= k < |classes| => OP(classes[k]))
  }

  /** The table lists each of the eight classes exactly once. */
  lemma RegistryContents()
    ensures |FILTERS| == 8
    ensures forall c: FilterClass :: multiset(FILTERS)[c] == 1
  {
    forall c: FilterClass ensures multiset(FILTERS)[c] == 1 {
      match c
      case LTFilter =>
      case LTEFilter =>
      case EqualsFilter =>
      case GTFilter =>
      case GTEFilter =>
      case InFilter =>
      case NotEqualsFilter =>
      case LikeFilter =>
    }
  }

  /** The symbols of the table, in table order. */
  lemma RegistrySymbols()
    ensures Ops(FILTERS) == ["<", "<=", "=", ">", ">=", "in", "!=", "like"]
  {
    var ops := Ops(FILTERS);
    assert ops[0] == "<" && ops[1] == "<=" && ops[2] == "=" && ops[3] == ">";
    assert ops[4] == ">=" && ops[5] == "in" && ops[6] == "!=" && ops[7] == "like";
  }

  /** No symbol appears twice in the table, so a symbol names at most one class. */
  lemma RegistryDistinct()
    ensures forall i, j :: 0 <= i < j < |FILTERS| ==> OP(FILTERS[i]) != OP(FILTERS[j])
  {
    forall i, j | 0 <= i < j < |FILTERS| ensures OP(FILTERS[i]) != OP(FILTERS[j]) {
      OpDistinct(FILTERS[i], FILTERS[j]);
    }
  }

  /** Some class of the table carries the symbol. */
  predicate Registered(op: string) {
    exists c :: c in FILTERS && OP(c) == op
  }

  /** A symbol is in `[x.OP for x in FILTERS]` exactly when some class of the table carries it. */
  lemma OpsMembership(op: string)
    ensures op in Ops(FILTERS) <==> Registered(op)
  {
    var ops := Ops(FILTERS);
    if op in ops {
      var k :| 0 <= k < |ops| && ops[k] == op;
      assert FILTERS[k] in FILTERS;
    }
    if Registered(op) {
      var c :| c in FILTERS && OP(c) == op;
      var k :| 0 <= k < |FILTERS| && FILTERS[k] == c;
      assert ops[k] == op;
    }
  }
}
