/** `rc.filters.base_filter`: an older copy of the filter base class. It has
    the same constructor, `__repr__`, `__eq__` and `__hash__` as the current
    one, but no `apply` and no column resolution. It declares no abstract
    method, so the base class itself can be instantiated, and its `OP` is
    `None`. */
module LegacyFilter {
  import opened Results
  import opened Values
  import PyText

  /** The class of a filter object: the base class, or a direct subclass with
      its own name and the `OP` it sets (`None` when it inherits the base's). */
  datatype LegacyClass = Base | Subclass(name: string, op: Option<string>)

  /** `type(self).__name__`. */
  function ClassName(c: LegacyClass): string {
    match c
    case Base => "Filter"
    case Subclass(n, _) => n
  }

  /** The class attribute `OP`, `None` on the base class. */
  function OP(c: LegacyClass): Option<string> {
    match c
    case Base => None
    case Subclass(_, op) => op
  }

  /** A filter object: its class and the `field` and `value` given to `__init__`. */
  datatype LegacyFilter = LegacyFilter(cls: LegacyClass, field: string, value: Value)

  /** `isinstance(obj, cls)` for a direct subclass hierarchy: every object is
      an instance of the base; a subclass only has its own instances. */
  predicate IsInstance(obj: LegacyClass, cls: LegacyClass) {
    cls.Base? || obj == cls
  }

  /** `self.__eq__(other)`: `isinstance(other, type(self))`. */
  predicate Eq(self: LegacyFilter, other: LegacyFilter) {
    IsInstance(other.cls, self.cls)
  }

  /** `issubclass(sub, sup) and sub is not sup` for a direct subclass hierarchy. */
  predicate ProperSubclass(sub: LegacyClass, sup: LegacyClass) {
    sup.Base? && sub.Subclass?
  }

  /** The `a == b` operator. When the right operand's class is a proper
      subclass of the left one's, Python calls the right operand's `__eq__`
      first. `__eq__` returns a bool, never `NotImplemented`, so its answer
      is final either way. */
  predicate PyEq(a: LegacyFilter, b: LegacyFilter) {
    if ProperSubclass(b.cls, a.cls) then Eq(b, a) else Eq(a, b)
  }

  /** Under the `==` operator, filters are equal exactly when they are of the
      same class. So `==` is symmetric, unlike the direct `__eq__` call. */
  lemma PyEqByClass(a: LegacyFilter, b: LegacyFilter)
    ensures PyEq(a, b) <==> a.cls == b.cls
    ensures PyEq(a, b) <==> PyEq(b, a)
  {
  }

  /** The tuple `(self.field, self.OP, self.value)` that `__hash__` hashes. */
  function HashKey(f: LegacyFilter): (string, Option<string>, Value) {
    (f.field, OP(f.cls), f.value)
  }

  const UnhashableList: string := "unhashable type: 'list'"

  /** `hash(self)`, for the builtin `pyhash` on tuples: a list value raises `TypeError`. */
  function Hash(f: LegacyFilter, pyhash: ((string, Option<string>, Value)) -> int): Result<int, Error> {
    if f.value.List? then Err(TypeError(UnhashableList)) else Ok(pyhash(HashKey(f)))
  }

  /** How an f-string renders `self.OP`: `None` prints as `None`. */
  function OpText(op: Option<string>): string {
    match op
    case None => "None"
    case Some(s) => s
  }

  /** `repr(self)`: `<ClassName(field='f', op='OP', value=v)>` with `str(value)`. */
  function Repr(f: LegacyFilter): string {
    "<" + ClassName(f.cls) + "(field='" + f.field + "', op='" + OpText(OP(f.cls)) + "', value=" + PyText.Text(f.value) + ")>"
  }

  /** `__eq__` looks at classes only: it is reflexive, a base-class object
      equals every filter, and a subclass object equals exactly the objects of
      its own class, whatever their fields and values. */
  lemma EqByClass(a: LegacyFilter, b: LegacyFilter)
    ensures Eq(a, a)
    ensures a.cls.Base? ==> Eq(a, b)
    ensures a.cls.Subclass? ==> (Eq(a, b) <==> b.cls == a.cls)
    ensures Eq(a, b) ==> Eq(a.(field := b.field, value := b.value), b)
  {
  }

  /** Called directly, `__eq__` is not symmetric: `base.__eq__(sub)` holds and
      `sub.__eq__(base)` does not, while `==` calls them unequal both ways.
      Two base objects that `==` calls equal can hash differently under an
      admissible hash of the tuple (the length of its field), Python's own
      tuple hash not being modelled. */
  lemma EqAsymmetric()
    ensures var base, sub := LegacyFilter(Base, "weight", Int(45)), LegacyFilter(Subclass("LTFilter", Some("<")), "weight", Int(45));
      Eq(base, sub) && !Eq(sub, base) && !PyEq(base, sub) && !PyEq(sub, base)
    ensures var a, b := LegacyFilter(Base, "weight", Int(45)), LegacyFilter(Base, "id", Int(45));
      var len := (t: (string, Option<string>, Value)) => |t.0|;
      Eq(a, b) && PyEq(a, b) && Hash(a, len) != Hash(b, len)
  {
  }

  /** Equality on the hashed tuple, the relation `__hash__` is consistent with. */
  predicate KeyEq(a: LegacyFilter, b: LegacyFilter) {
    HashKey(a) == HashKey(b)
  }

  /** The tuple relation is symmetric, equal tuples hash alike, and on one
      class it is equality of the objects. */
  lemma KeyEqAgreesWithHash(a: LegacyFilter, b: LegacyFilter, pyhash: ((string, Option<string>, Value)) -> int)
    ensures KeyEq(a, b) <==> KeyEq(b, a)
    ensures KeyEq(a, b) ==> Hash(a, pyhash) == Hash(b, pyhash)
    ensures a.cls == b.cls ==> (KeyEq(a, b) <==> a == b)
  {
  }

  /** The base class renders under its own name, with its missing operator as `None`. */
  lemma ReprOfBase(field: string, value: Value)
    ensures Repr(LegacyFilter(Base, field, value))
      == "<Filter(field='" + field + "', op='None', value=" + PyText.Text(value) + ")>"
  {
    var t := PyText.Text(value);
    Regroup("<", "Filter", "(field='", field, "', op='", "None", "', value=", t, ")>");
    assert "<" + "Filter" + "(field='" == "<Filter(field='";
    assert "', op='" + "None" + "', value=" == "', op='None', value=";
  }

  /** Concatenation regrouped so that the literal pieces around the field sit together. */
  lemma Regroup(a: string, b: string, c: string, f: string, d: string, e: string, g: string, t: string, h: string)
    ensures a + b + c + f + d + e + g + t + h == (a + b + c) + f + (d + e + g) + t + h
  {
  }
}
