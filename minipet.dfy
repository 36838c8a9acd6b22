/** The mini pet store the repository's tests search: the `Dog` model, its
    `DogSchema` (which maps `dateOfBirth` to the `dob` column), and five dogs
    in insertion order. The lemmas are the tests' expectations, stated about
    the model. */
module Minipet {
  import opened Results
  import opened Values
  import opened Queries
  import opened Filters
  import opened FlaskFilterBase

  const Dog: Model := Model("tests.minipet_app.Dog", {"id", "name", "dob", "weight", "created", "toys"})

  const DogSchema: Schema := Schema(map[
    "id" := None, "name" := None, "dateOfBirth" := Some("dob"),
    "weight" := None, "created" := None, "toys" := None])

  function DogRow(id: int, name: string, weight: int): Record {
    map["id" := Int(id), "name" := Str(name), "weight" := Int(weight)]
  }

  const Xocomil: Record := DogRow(1, "Xocomil", 100)
  const Jasmine: Record := DogRow(2, "Jasmine", 40)
  const Quick: Record := DogRow(3, "Quick", 90)
  const Jinx: Record := DogRow(4, "Jinx", 55)
  const Kaya: Record := DogRow(5, "Kaya", 50)

  const Dogs: seq<Record> := [Xocomil, Jasmine, Quick, Jinx, Kaya]

  /** `DogSchema` sends `dateOfBirth` to `dob` and keeps `weight`; a name it does not declare is refused. */
  lemma DogColumns()
    ensures Column(Filter(LTFilter, "dateOfBirth", Str("2002-01-01")), Dog, Some(DogSchema)) == Ok("dob")
    ensures Column(Filter(LTFilter, "weight", Int(50)), Dog, Some(DogSchema)) == Ok("weight")
    ensures Column(Filter(LTFilter, "dob", Int(50)), Dog, Some(DogSchema)) == Err(ValidationError(InvalidFieldMessage))
    ensures Column(Filter(LTFilter, "dob", Int(50)), Dog, None) == Ok("dob")
  {
    assert "dob" !in DogSchema.declared;
  }

  /** The rows one filter on `Dog` keeps, through `DogSchema`, in table order. */
  function Kept(f: Filter): seq<Record>
    requires AllResolve([f], Dog, Some(DogSchema))
  {
    Matching([f], Dog, Some(DogSchema), Dogs)
  }

  /** How a comparison with an integer judges a dog's integer column. */
  lemma IntColumn(cmp: Comparison, n: int, id: int, name: string, w: int)
    requires cmp in {Less, LessEq, Greater, GreaterEq}
    ensures var c := Constraint("weight", cmp, Int(n));
      Holds(c, DogRow(id, name, w)) <==> match cmp
        case Less => w < n
        case LessEq => w <= n
        case Greater => w > n
        case _ => w >= n
  {
    assert ColumnValue(DogRow(id, name, w), "weight") == Int(w);
  }

  /** The registry the tests' application builds: `DogSchema` registered for `Dog`. */
  predicate DogRegistered(entries: SchemaMap) {
    Dog in entries && entries[Dog] == Some(DogSchema)
  }

  /** Searching `Dog` with one filter, unordered and uncapped, returns the dogs
      that filter keeps through `DogSchema`, whether the schema is passed or
      found registered. */
  lemma SearchKeeps(entries: SchemaMap, f: Filter, explicit: Option<Schema>)
    requires explicit == Some(DogSchema) || (explicit.None? && DogRegistered(entries))
    requires AllResolve([f], Dog, Some(DogSchema))
    ensures SearchLoaded(entries, Dog, [f], explicit, None, None, Dogs) == Ok(Kept(f))
  {
    assert ResolveSchema(explicit, entries, Dog) == Ok(DogSchema);
    SearchOutcome(entries, Dog, [f], explicit, None, None, Dogs);
  }

  /** Through one filter, a row is kept exactly when that filter's constraint holds of it. */
  lemma KeepOne(f: Filter, m: Model, s: Option<Schema>, r: Record)
    requires AllResolve([f], m, s)
    ensures KeepRow([f], m, s, r) == if Holds(ConstraintFor(f, Column([f][0], m, s).value), r) then [r] else []
  {
    assert [f][0] == f;
  }

  lemma MatchingSingle(fs: seq<Filter>, m: Model, s: Option<Schema>, a: Record)
    requires AllResolve(fs, m, s)
    ensures Matching(fs, m, s, [a]) == KeepRow(fs, m, s, a)
  {
    assert [a][1..] == [];
  }

  lemma MatchingCons(fs: seq<Filter>, m: Model, s: Option<Schema>, a: Record, rest: seq<Record>)
    requires AllResolve(fs, m, s)
    ensures Matching(fs, m, s, [a] + rest) == KeepRow(fs, m, s, a) + Matching(fs, m, s, rest)
  {
    assert ([a] + rest)[1..] == rest;
  }

  lemma MatchingTwo(fs: seq<Filter>, m: Model, s: Option<Schema>, a: Record, b: Record)
    requires AllResolve(fs, m, s)
    ensures Matching(fs, m, s, [a, b]) == KeepRow(fs, m, s, a) + KeepRow(fs, m, s, b)
  {
    MatchingCons(fs, m, s, a, [b]);
    MatchingSingle(fs, m, s, b);
    assert [a, b] == [a] + [b];
  }

  lemma MatchingThree(fs: seq<Filter>, m: Model, s: Option<Schema>, a: Record, b: Record, c: Record)
    requires AllResolve(fs, m, s)
    ensures Matching(fs, m, s, [a, b, c]) == KeepRow(fs, m, s, a) + (KeepRow(fs, m, s, b) + KeepRow(fs, m, s, c))
  {
    MatchingCons(fs, m, s, a, [b, c]);
    MatchingTwo(fs, m, s, b, c);
    assert [a, b, c] == [a] + [b, c];
  }

  lemma MatchingFour(fs: seq<Filter>, m: Model, s: Option<Schema>, a: Record, b: Record, c: Record, d: Record)
    requires AllResolve(fs, m, s)
    ensures Matching(fs, m, s, [a, b, c, d])
      == KeepRow(fs, m, s, a) + (KeepRow(fs, m, s, b) + (KeepRow(fs, m, s, c) + KeepRow(fs, m, s, d)))
  {
    MatchingCons(fs, m, s, a, [b, c, d]);
    MatchingThree(fs, m, s, b, c, d);
    assert [a, b, c, d] == [a] + [b, c, d];
  }

  /** Filtering the five dogs judges each dog on its own, in table order. */
  lemma MatchingDogs(fs: seq<Filter>, m: Model, s: Option<Schema>)
    requires AllResolve(fs, m, s)
    ensures Matching(fs, m, s, Dogs)
      == KeepRow(fs, m, s, Xocomil) + (KeepRow(fs, m, s, Jasmine)
        + (KeepRow(fs, m, s, Quick) + (KeepRow(fs, m, s, Jinx) + KeepRow(fs, m, s, Kaya))))
  {
    MatchingCons(fs, m, s, Xocomil, [Jasmine, Quick, Jinx, Kaya]);
    MatchingFour(fs, m, s, Jasmine, Quick, Jinx, Kaya);
    assert Dogs == [Xocomil] + [Jasmine, Quick, Jinx, Kaya];
  }

  /** `[r]` when `b` holds, else nothing. */
  function Pick(b: bool, r: Record): seq<Record> {
    if b then [r] else []
  }

  /** The dogs a filter on column `col` keeps, given which dogs its constraint holds of. */
  lemma KeptBy(f: Filter, col: string, x: bool, j: bool, q: bool, i: bool, k: bool)
    requires Column(f, Dog, Some(DogSchema)) == Ok(col)
    requires var c := ConstraintFor(f, col);
      && Holds(c, Xocomil) == x && Holds(c, Jasmine) == j && Holds(c, Quick) == q
      && Holds(c, Jinx) == i && Holds(c, Kaya) == k
    ensures AllResolve([f], Dog, Some(DogSchema))
    ensures Kept(f) == Pick(x, Xocomil) + (Pick(j, Jasmine) + (Pick(q, Quick) + (Pick(i, Jinx) + Pick(k, Kaya))))
  {
    var s := Some(DogSchema);
    assert [f][0] == f;
    KeepOne(f, Dog, s, Xocomil);
    KeepOne(f, Dog, s, Jasmine);
    KeepOne(f, Dog, s, Quick);
    KeepOne(f, Dog, s, Jinx);
    KeepOne(f, Dog, s, Kaya);
    MatchingDogs([f], Dog, s);
  }

  /** How a comparison with a string judges a dog's name. */
  lemma NameColumn(id: int, name: string, w: int)
    ensures ColumnValue(DogRow(id, name, w), "name") == Str(name)
  {
  }

  /** `weight < 50` keeps Jasmine alone (tests/test_flask_filter.py). */
  lemma WeightBelow()
    ensures AllResolve([Filter(LTFilter, "weight", Int(50))], Dog, Some(DogSchema))
    ensures Kept(Filter(LTFilter, "weight", Int(50))) == [Jasmine]
  {
    assert Column(Filter(LTFilter, "weight", Int(50)), Dog, Some(DogSchema)) == Ok("weight");
    IntColumn(Less, 50, 1, "Xocomil", 100);
    IntColumn(Less, 50, 2, "Jasmine", 40);
    IntColumn(Less, 50, 3, "Quick", 90);
    IntColumn(Less, 50, 4, "Jinx", 55);
    IntColumn(Less, 50, 5, "Kaya", 50);
    KeptBy(Filter(LTFilter, "weight", Int(50)), "weight", false, true, false, false, false);
  }

  /** `weight <= 50` also keeps Kaya, who weighs exactly 50. */
  lemma WeightAtMost()
    ensures AllResolve([Filter(LTEFilter, "weight", Int(50))], Dog, Some(DogSchema))
    ensures Kept(Filter(LTEFilter, "weight", Int(50))) == [Jasmine, Kaya]
  {
    assert Column(Filter(LTEFilter, "weight", Int(50)), Dog, Some(DogSchema)) == Ok("weight");
    IntColumn(LessEq, 50, 1, "Xocomil", 100);
    IntColumn(LessEq, 50, 2, "Jasmine", 40);
    IntColumn(LessEq, 50, 3, "Quick", 90);
    IntColumn(LessEq, 50, 4, "Jinx", 55);
    IntColumn(LessEq, 50, 5, "Kaya", 50);
    KeptBy(Filter(LTEFilter, "weight", Int(50)), "weight", false, true, false, false, true);
  }

  /** `weight > 90` keeps Xocomil alone. */
  lemma WeightAbove()
    ensures AllResolve([Filter(GTFilter, "weight", Int(90))], Dog, Some(DogSchema))
    ensures Kept(Filter(GTFilter, "weight", Int(90))) == [Xocomil]
  {
    assert Column(Filter(GTFilter, "weight", Int(90)), Dog, Some(DogSchema)) == Ok("weight");
    IntColumn(Greater, 90, 1, "Xocomil", 100);
    IntColumn(Greater, 90, 2, "Jasmine", 40);
    IntColumn(Greater, 90, 3, "Quick", 90);
    IntColumn(Greater, 90, 4, "Jinx", 55);
    IntColumn(Greater, 90, 5, "Kaya", 50);
    KeptBy(Filter(GTFilter, "weight", Int(90)), "weight", true, false, false, false, false);
  }

  /** `weight >= 90` also keeps Quick, who weighs exactly 90. */
  lemma WeightAtLeast()
    ensures AllResolve([Filter(GTEFilter, "weight", Int(90))], Dog, Some(DogSchema))
    ensures Kept(Filter(GTEFilter, "weight", Int(90))) == [Xocomil, Quick]
  {
    assert Column(Filter(GTEFilter, "weight", Int(90)), Dog, Some(DogSchema)) == Ok("weight");
    IntColumn(GreaterEq, 90, 1, "Xocomil", 100);
    IntColumn(GreaterEq, 90, 2, "Jasmine", 40);
    IntColumn(GreaterEq, 90, 3, "Quick", 90);
    IntColumn(GreaterEq, 90, 4, "Jinx", 55);
    IntColumn(GreaterEq, 90, 5, "Kaya", 50);
    KeptBy(Filter(GTEFilter, "weight", Int(90)), "weight", true, false, true, false, false);
  }

  /** A membership test on the name column holds of a row exactly when the row's name is one of the items. */
  lemma InNames(c: Constraint, r: Record, name: string)
    requires c.column == "name" && c.comparison == Member && c.operand.List?
    requires ColumnValue(r, "name") == Str(name)
    ensures Holds(c, r) <==> Str(name) in c.operand.items
  {
    var items := c.operand.items;
    if Str(name) in items {
      var k :| 0 <= k < |items| && items[k] == Str(name);
      assert Compare(Str(name), items[k]) == Some(0);
    }
  }

  /** `name IN items` keeps, in table order, the dogs whose name is one of the items. */
  lemma NamesIn(items: seq<Value>)
    ensures AllResolve([Filter(InFilter, "name", List(items))], Dog, Some(DogSchema))
    ensures Kept(Filter(InFilter, "name", List(items)))
      == Pick(Str("Xocomil") in items, Xocomil) + (Pick(Str("Jasmine") in items, Jasmine)
        + (Pick(Str("Quick") in items, Quick) + (Pick(Str("Jinx") in items, Jinx) + Pick(Str("Kaya") in items, Kaya))))
  {
    var f := Filter(InFilter, "name", List(items));
    assert Column(f, Dog, Some(DogSchema)) == Ok("name");
    var c := ConstraintFor(f, "name");
    NameColumn(1, "Xocomil", 100);
    NameColumn(2, "Jasmine", 40);
    NameColumn(3, "Quick", 90);
    NameColumn(4, "Jinx", 55);
    NameColumn(5, "Kaya", 50);
    InNames(c, Xocomil, "Xocomil");
    InNames(c, Jasmine, "Jasmine");
    InNames(c, Quick, "Quick");
    InNames(c, Jinx, "Jinx");
    InNames(c, Kaya, "Kaya");
    KeptBy(f, "name", Str("Xocomil") in items, Str("Jasmine") in items, Str("Quick") in items,
      Str("Jinx") in items, Str("Kaya") in items);
  }

  /** An equality or inequality test on the name column holds of a row as
      its name equals the string or not. */
  lemma EqualsName(c: Constraint, r: Record, name: string)
    requires c.column == "name" && c.comparison in {Equal, NotEqual} && c.operand.Str?
    requires ColumnValue(r, "name") == Str(name)
    ensures Holds(c, r) <==> if c.comparison == Equal then name == c.operand.s else name != c.operand.s
  {
  }

  /** `name = v` keeps the dogs called `v`; `name != v` keeps the others. */
  lemma NamesEqual(cls: FilterClass, v: string)
    requires cls in {EqualsFilter, NotEqualsFilter}
    ensures AllResolve([Filter(cls, "name", Str(v))], Dog, Some(DogSchema))
    ensures var eq := cls == EqualsFilter;
      Kept(Filter(cls, "name", Str(v)))
        == Pick(("Xocomil" == v) == eq, Xocomil) + (Pick(("Jasmine" == v) == eq, Jasmine)
          + (Pick(("Quick" == v) == eq, Quick) + (Pick(("Jinx" == v) == eq, Jinx) + Pick(("Kaya" == v) == eq, Kaya))))
  {
    var f, eq := Filter(cls, "name", Str(v)), cls == EqualsFilter;
    assert Column(f, Dog, Some(DogSchema)) == Ok("name");
    var c := ConstraintFor(f, "name");
    NameColumn(1, "Xocomil", 100);
    NameColumn(2, "Jasmine", 40);
    NameColumn(3, "Quick", 90);
    NameColumn(4, "Jinx", 55);
    NameColumn(5, "Kaya", 50);
    EqualsName(c, Xocomil, "Xocomil");
    EqualsName(c, Jasmine, "Jasmine");
    EqualsName(c, Quick, "Quick");
    EqualsName(c, Jinx, "Jinx");
    EqualsName(c, Kaya, "Kaya");
    KeptBy(f, "name", ("Xocomil" == v) == eq, ("Jasmine" == v) == eq, ("Quick" == v) == eq,
      ("Jinx" == v) == eq, ("Kaya" == v) == eq);
  }

  /** `name = 'Xocomil'` keeps Xocomil alone (tests/test_flask_filter.py). */
  lemma NameEquals()
    ensures AllResolve([Filter(EqualsFilter, "name", Str("Xocomil"))], Dog, Some(DogSchema))
    ensures Kept(Filter(EqualsFilter, "name", Str("Xocomil"))) == [Xocomil]
  {
    NamesEqual(EqualsFilter, "Xocomil");
  }

  /** `name != 'Xocomil'` keeps the other four. */
  lemma NameNotEquals()
    ensures AllResolve([Filter(NotEqualsFilter, "name", Str("Xocomil"))], Dog, Some(DogSchema))
    ensures Kept(Filter(NotEqualsFilter, "name", Str("Xocomil"))) == [Jasmine, Quick, Jinx, Kaya]
  {
    NamesEqual(NotEqualsFilter, "Xocomil");
  }

  /** A prefix pattern `p%` on the name column holds of a row exactly when its name starts with `p`. */
  lemma LikeName(c: Constraint, r: Record, name: string, p: string)
    requires c.column == "name" && c.comparison == Like && c.operand == Str(p + "%") && NoWildcards(p)
    requires ColumnValue(r, "name") == Str(name)
    ensures Holds(c, r) <==> |p| <= |name| && name[..|p|] == p
  {
    PrefixPattern(p, name);
  }

  /** A name that starts with the prefix. */
  predicate StartsWith(name: string, p: string) {
    |p| <= |name| && name[..|p|] == p
  }

  /** `name LIKE p%`, for a wildcard-free `p`, keeps the dogs whose name starts with `p`. */
  lemma NamesLike(p: string)
    requires NoWildcards(p)
    ensures AllResolve([Filter(LikeFilter, "name", Str(p + "%"))], Dog, Some(DogSchema))
    ensures Kept(Filter(LikeFilter, "name", Str(p + "%")))
      == Pick(StartsWith("Xocomil", p), Xocomil) + (Pick(StartsWith("Jasmine", p), Jasmine)
        + (Pick(StartsWith("Quick", p), Quick) + (Pick(StartsWith("Jinx", p), Jinx) + Pick(StartsWith("Kaya", p), Kaya))))
  {
    var f := Filter(LikeFilter, "name", Str(p + "%"));
    assert Column(f, Dog, Some(DogSchema)) == Ok("name");
    var c := ConstraintFor(f, "name");
    NameColumn(1, "Xocomil", 100);
    NameColumn(2, "Jasmine", 40);
    NameColumn(3, "Quick", 90);
    NameColumn(4, "Jinx", 55);
    NameColumn(5, "Kaya", 50);
    LikeName(c, Xocomil, "Xocomil", p);
    LikeName(c, Jasmine, "Jasmine", p);
    LikeName(c, Quick, "Quick", p);
    LikeName(c, Jinx, "Jinx", p);
    LikeName(c, Kaya, "Kaya", p);
    KeptBy(f, "name", StartsWith("Xocomil", p), StartsWith("Jasmine", p), StartsWith("Quick", p),
      StartsWith("Jinx", p), StartsWith("Kaya", p));
  }

  /** `name LIKE 'J%'` keeps Jasmine and Jinx, in table order. */
  lemma NameLike()
    ensures AllResolve([Filter(LikeFilter, "name", Str("J%"))], Dog, Some(DogSchema))
    ensures Kept(Filter(LikeFilter, "name", Str("J%"))) == [Jasmine, Jinx]
  {
    assert "J%" == "J" + "%";
    assert NoWildcards("J");
    NamesLike("J");
    assert StartsWith("Jasmine", "J") && StartsWith("Jinx", "J");
    assert "Xocomil"[..1][0] == 'X' && "Quick"[..1][0] == 'Q' && "Kaya"[..1][0] == 'K';
  }

  /** `name IN ('Jinx', 'Kaya')` keeps those two. */
  lemma NameIn()
    ensures AllResolve([Filter(InFilter, "name", List([Str("Jinx"), Str("Kaya")]))], Dog, Some(DogSchema))
    ensures Kept(Filter(InFilter, "name", List([Str("Jinx"), Str("Kaya")]))) == [Jinx, Kaya]
  {
    NamesIn([Str("Jinx"), Str("Kaya")]);
  }

  lemma SortCons(r: Record, rest: seq<Record>, col: string)
    ensures SortBy([r] + rest, col) == Insert(r, SortBy(rest, col), col)
  {
    assert ([r] + rest)[1..] == rest;
  }

  lemma InsertFront(r: Record, s: seq<Record>, col: string)
    requires s != [] && KeyLe(ColumnValue(r, col), ColumnValue(s[0], col))
    ensures Insert(r, s, col) == [r] + s
  {
  }

  lemma InsertPast(r: Record, s: seq<Record>, col: string)
    requires s != [] && !KeyLe(ColumnValue(r, col), ColumnValue(s[0], col))
    ensures Insert(r, s, col) == [s[0]] + Insert(r, s[1..], col)
  {
  }

  /** Sorting the five dogs on `weight` gives Jasmine, Kaya, Jinx, Quick, Xocomil
      (ids 2, 5, 4, 3, 1, as tests/test_ordered_search.py expects). */
  lemma ByWeight()
    ensures SortBy(Dogs, "weight") == [Jasmine, Kaya, Jinx, Quick, Xocomil]
  {
    var w := "weight";
    assert ColumnValue(Xocomil, w) == Int(100) && ColumnValue(Jasmine, w) == Int(40) && ColumnValue(Quick, w) == Int(90)
      && ColumnValue(Jinx, w) == Int(55) && ColumnValue(Kaya, w) == Int(50);
    SortCons(Kaya, [], w);
    assert SortBy([Kaya], w) == [Kaya];
    SortCons(Jinx, [Kaya], w);
    InsertPast(Jinx, [Kaya], w);
    assert SortBy([Jinx, Kaya], w) == [Kaya, Jinx] by { assert [Jinx, Kaya] == [Jinx] + [Kaya]; }
    SortCons(Quick, [Jinx, Kaya], w);
    InsertPast(Quick, [Kaya, Jinx], w);
    InsertPast(Quick, [Jinx], w);
    assert SortBy([Quick, Jinx, Kaya], w) == [Kaya, Jinx, Quick] by { assert [Quick, Jinx, Kaya] == [Quick] + [Jinx, Kaya]; }
    SortCons(Jasmine, [Quick, Jinx, Kaya], w);
    InsertFront(Jasmine, [Kaya, Jinx, Quick], w);
    assert SortBy([Jasmine, Quick, Jinx, Kaya], w) == [Jasmine, Kaya, Jinx, Quick]
      by { assert [Jasmine, Quick, Jinx, Kaya] == [Jasmine] + [Quick, Jinx, Kaya]; }
    SortCons(Xocomil, [Jasmine, Quick, Jinx, Kaya], w);
    assert Dogs == [Xocomil] + [Jasmine, Quick, Jinx, Kaya];
    InsertPast(Xocomil, [Jasmine, Kaya, Jinx, Quick], w);
    InsertPast(Xocomil, [Kaya, Jinx, Quick], w);
    InsertPast(Xocomil, [Jinx, Quick], w);
    InsertPast(Xocomil, [Quick], w);
  }

  /** The code-point order of the dogs' names. */
  lemma NameOrder()
    ensures StrLe("Jinx", "Kaya") && StrLe("Jasmine", "Jinx")
    ensures !StrLe("Quick", "Jinx") && !StrLe("Quick", "Kaya")
    ensures !StrLe("Xocomil", "Jasmine") && !StrLe("Xocomil", "Jinx") && !StrLe("Xocomil", "Kaya") && !StrLe("Xocomil", "Quick")
  {
    assert "Jasmine"[1..][0] < "Jinx"[1..][0];
  }

  /** Sorting the last four dogs on `name`. */
  lemma ByNameTail()
    ensures SortBy([Jasmine, Quick, Jinx, Kaya], "name") == [Jasmine, Jinx, Kaya, Quick]
  {
    var n := "name";
    assert ColumnValue(Jasmine, n) == Str("Jasmine") && ColumnValue(Quick, n) == Str("Quick")
      && ColumnValue(Jinx, n) == Str("Jinx") && ColumnValue(Kaya, n) == Str("Kaya");
    NameOrder();
    SortCons(Kaya, [], n);
    assert SortBy([Kaya], n) == [Kaya];
    SortCons(Jinx, [Kaya], n);
    InsertFront(Jinx, [Kaya], n);
    assert SortBy([Jinx, Kaya], n) == [Jinx, Kaya] by { assert [Jinx, Kaya] == [Jinx] + [Kaya]; }
    SortCons(Quick, [Jinx, Kaya], n);
    InsertPast(Quick, [Jinx, Kaya], n);
    InsertPast(Quick, [Kaya], n);
    assert SortBy([Quick, Jinx, Kaya], n) == [Jinx, Kaya, Quick] by { assert [Quick, Jinx, Kaya] == [Quick] + [Jinx, Kaya]; }
    SortCons(Jasmine, [Quick, Jinx, Kaya], n);
    InsertFront(Jasmine, [Jinx, Kaya, Quick], n);
    assert [Jasmine, Quick, Jinx, Kaya] == [Jasmine] + [Quick, Jinx, Kaya];
  }

  /** A row whose key is above every key of a sorted list goes at its end. */
  lemma {:induction false} InsertLast(r: Record, s: seq<Record>, col: string)
    requires forall k :: 0 <= k < |s| ==> !KeyLe(ColumnValue(r, col), ColumnValue(s[k], col))
    ensures Insert(r, s, col) == s + [r]
  {
    if s != [] {
      InsertLast(r, s[1..], col);
      assert s == [s[0]] + s[1..];
    }
  }

  /** Xocomil's name sorts after the other four. */
  lemma XocomilLast()
    ensures Insert(Xocomil, [Jasmine, Jinx, Kaya, Quick], "name") == [Jasmine, Jinx, Kaya, Quick, Xocomil]
  {
    var n, sorted := "name", [Jasmine, Jinx, Kaya, Quick];
    assert ColumnValue(Xocomil, n) == Str("Xocomil") && ColumnValue(Jasmine, n) == Str("Jasmine")
      && ColumnValue(Quick, n) == Str("Quick") && ColumnValue(Jinx, n) == Str("Jinx") && ColumnValue(Kaya, n) == Str("Kaya");
    NameOrder();
    forall k | 0 <= k < |sorted| ensures !KeyLe(ColumnValue(Xocomil, n), ColumnValue(sorted[k], n)) {
    }
    InsertLast(Xocomil, sorted, n);
  }

  /** Sorting the five dogs on `name` gives Jasmine, Jinx, Kaya, Quick, Xocomil
      (ids 2, 4, 5, 3, 1, as tests/test_ordered_search.py expects). */
  lemma ByName()
    ensures SortBy(Dogs, "name") == [Jasmine, Jinx, Kaya, Quick, Xocomil]
  {
    ByNameTail();
    XocomilLast();
    assert Dogs[0] == Xocomil && Dogs[1..] == [Jasmine, Quick, Jinx, Kaya];
  }

  lemma FirstThreeOfFive(a: Record, b: Record, c: Record, d: Record, e: Record)
    ensures [a, b, c, d, e][..3] == [a, b, c]
  {
  }

  /** With no filters and no order, `limit=3` returns the first three dogs
      and no limit returns all five (tests/test_flask_filter.py). */
  lemma FirstThree(entries: SchemaMap)
    requires DogRegistered(entries)
    ensures SearchLoaded(entries, Dog, [], None, Some(3), None, Dogs) == Ok([Xocomil, Jasmine, Quick])
  {
    SearchOutcome(entries, Dog, [], None, Some(3), None, Dogs);
    MatchingNothing(Dog, Some(DogSchema), Dogs);
    FirstThreeOfFive(Xocomil, Jasmine, Quick, Jinx, Kaya);
  }

  /** Without filters, order or limit, the search returns the whole table. */
  lemma AllDogs(entries: SchemaMap)
    requires DogRegistered(entries)
    ensures SearchLoaded(entries, Dog, [], None, None, None, Dogs) == Ok(Dogs)
  {
    SearchOutcome(entries, Dog, [], None, None, None, Dogs);
    MatchingNothing(Dog, Some(DogSchema), Dogs);
  }

  /** Ordering the unfiltered search on `name`, by the column attribute or by
      the string `"name"`, returns ids 2, 4, 5, 3, 1. */
  lemma OrderedByName(entries: SchemaMap, key: OrderKey)
    requires OrderColumn(key) == "name"
    ensures SearchLoaded(entries, Dog, [], Some(DogSchema), None, Some(key), Dogs)
      == Ok([Jasmine, Jinx, Kaya, Quick, Xocomil])
  {
    assert OrderTruthy(Some(key));
    SearchOutcome(entries, Dog, [], Some(DogSchema), None, Some(key), Dogs);
    MatchingNothing(Dog, Some(DogSchema), Dogs);
    ByName();
  }

  /** Ordering the unfiltered search by `weight`, either way, returns ids 2, 5, 4, 3, 1. */
  lemma OrderedByWeight(entries: SchemaMap, key: OrderKey)
    requires OrderColumn(key) == "weight"
    ensures SearchLoaded(entries, Dog, [], Some(DogSchema), None, Some(key), Dogs)
      == Ok([Jasmine, Kaya, Jinx, Quick, Xocomil])
  {
    assert OrderTruthy(Some(key));
    SearchOutcome(entries, Dog, [], Some(DogSchema), None, Some(key), Dogs);
    MatchingNothing(Dog, Some(DogSchema), Dogs);
    ByWeight();
  }
}
