/** The ORM query the filters build, as an immutable value: the model it
    selects from, the constraints added by `Query.filter`, the column named
    by `order_by` and the count given to `limit`. `AllRecords` is what
    `.all()` returns against a table of records. */
module Queries {
  import opened Results
  import opened Values

  /** A mapped model class: its name and the attributes `getattr` finds on it. */
  datatype Model = Model(name: string, attributes: set<string>)

  /** The SQL operator a constraint applies to its column. */
  datatype Comparison = Less | LessEq | Equal | Greater | GreaterEq | Member | NotEqual | Like

  /** `column <comparison> operand`, one argument of `Query.filter`. */
  datatype Constraint = Constraint(column: string, comparison: Comparison, operand: Value)

  datatype Query = Query(model: Model, constraints: seq<Constraint>, order: Option<string>, limit: Option<int>)

  /** One table row: column name to stored value; a column it lacks reads as NULL. */
  type Record = map<string, Value>

  /** `DbModel.query`: every row of the model, unordered, uncapped. */
  function ModelQuery(m: Model): (q: Query)
    ensures q.model == m && q.constraints == [] && q.order == None && q.limit == None
  {
    Query(m, [], None, None)
  }

  /** `query.filter(c)`: one more constraint, everything else as it was. */
  function AddConstraint(q: Query, c: Constraint): (r: Query)
    ensures r.constraints == q.constraints + [c]
    ensures r.model == q.model && r.order == q.order && r.limit == q.limit
  {
    q.(constraints := q.constraints + [c])
  }

  /** `query.order_by(column)`. */
  function OrderBy(q: Query, column: string): (r: Query)
    ensures r.order == Some(column)
    ensures r.model == q.model && r.constraints == q.constraints && r.limit == q.limit
  {
    q.(order := Some(column))
  }

  /** `query.limit(n)`. */
  function Limit(q: Query, n: int): (r: Query)
    ensures r.limit == Some(n)
    ensures r.model == q.model && r.constraints == q.constraints && r.order == q.order
  {
    q.(limit := Some(n))
  }

  // ---------------------------------------------------------------------
  // Record-level meaning of a query (SQLite as the tests use it)
  // ---------------------------------------------------------------------

  function ColumnValue(r: Record, column: string): Value {
    if column in r then r[column] else Null
  }

  /** Sort classes of SQLite: NULL first, then numbers, text, dates, lists. */
  function Rank(v: Value): nat {
    match v
    case Null => 0
    case Int(_) => 1
    case Str(_) => 2
    case Date(_, _, _) => 3
    case List(_) => 4
  }

  /** Binary (code point) collation on strings. */
  predicate StrLe(a: string, b: string)
    decreases |a|
  {
    a == [] || (b != [] && (a[0] < b[0] || (a[0] == b[0] && StrLe(a[1..], b[1..]))))
  }

  /** The total preorder `ORDER BY` sorts with. */
  predicate KeyLe(a: Value, b: Value) {
    if Rank(a) != Rank(b) then Rank(a) < Rank(b)
    else match (a, b)
      case (Int(x), Int(y)) => x <= y
      case (Str(x), Str(y)) => StrLe(x, y)
      case (Date(y1, m1, d1), Date(y2, m2, d2)) =>
        y1 < y2 || (y1 == y2 && (m1 < m2 || (m1 == m2 && d1 <= d2)))
      case _ => true
  }

  /** A SQL comparison of a stored value with an operand: `None` is SQL's
      unknown (a NULL, a list, or values of different sort classes), else the
      sign of the difference. */
  function Compare(a: Value, b: Value): (r: Option<int>)
    ensures r.Some? ==> -1 <= r.value <= 1
    ensures r == Some(0) ==> a == b
  {
    if Rank(a) != Rank(b) || a.Null? || a.List? then None
    else if a == b then Some(0)
    else if KeyLe(a, b) then Some(-1)
    else Some(1)
  }

  /** SQL `LIKE` with `%` (any run) and `_` (any one character), compared
      character by character, with no escape character. */
  predicate LikeMatch(pattern: string, s: string)
    decreases |pattern| + |s|
  {
    if pattern == [] then s == []
    else if pattern[0] == '%' then LikeMatch(pattern[1..], s) || (s != [] && LikeMatch(pattern, s[1..]))
    else s != [] && (pattern[0] == '_' || pattern[0] == s[0]) && LikeMatch(pattern[1..], s[1..])
  }

  /** The constraint is TRUE of the record (unknown counts as not TRUE).
      Comparing with `None` compiles to `IS NULL` / `IS NOT NULL`. */
  predicate Holds(c: Constraint, r: Record) {
    var v := ColumnValue(r, c.column);
    match c.comparison
    case Less => Compare(v, c.operand) == Some(-1)
    case LessEq => Compare(v, c.operand) == Some(-1) || Compare(v, c.operand) == Some(0)
    case Greater => Compare(v, c.operand) == Some(1)
    case GreaterEq => Compare(v, c.operand) == Some(1) || Compare(v, c.operand) == Some(0)
    case Equal => if c.operand.Null? then v.Null? else Compare(v, c.operand) == Some(0)
    case NotEqual =>
      if c.operand.Null? then !v.Null? else Compare(v, c.operand) == Some(-1) || Compare(v, c.operand) == Some(1)
    case Member =>
      c.operand.List? && exists k :: 0 <= k < |c.operand.items| && Compare(v, c.operand.items[k]) == Some(0)
    case Like => v.Str? && c.operand.Str? && LikeMatch(c.operand.s, v.s)
  }

  predicate HoldsAll(cs: seq<Constraint>, r: Record) {
    forall k :: 0 <= k < |cs| ==> Holds(cs[k], r)
  }

  predicate IsSubsequence<T(==)>(a: seq<T>, b: seq<T>)
    decreases |b|
  {
    if a == [] then true
    else if b == [] then false
    else if a[0] == b[0] then IsSubsequence(a[1..], b[1..])
    else IsSubsequence(a, b[1..])
  }

  /** The rows a `WHERE` of all constraints keeps, in table order. */
  function Select(rows: seq<Record>, cs: seq<Constraint>): (kept: seq<Record>)
    ensures IsSubsequence(kept, rows)
    ensures forall r :: r in kept <==> r in rows && HoldsAll(cs, r)
  {
    if rows == [] then []
    else if HoldsAll(cs, rows[0]) then [rows[0]] + Select(rows[1..], cs)
    else Select(rows[1..], cs)
  }

  /** Inserts `r` before the first row whose key is not below its own, so
      rows with equal keys keep their order. */
  function Insert(r: Record, sorted: seq<Record>, column: string): seq<Record> {
    if sorted == [] then [r]
    else if KeyLe(ColumnValue(r, column), ColumnValue(sorted[0], column)) then [r] + sorted
    else [sorted[0]] + Insert(r, sorted[1..], column)
  }

  /** `ORDER BY column` (ascending). */
  function SortBy(rows: seq<Record>, column: string): seq<Record> {
    if rows == [] then [] else Insert(rows[0], SortBy(rows[1..], column), column)
  }

  predicate SortedBy(rows: seq<Record>, column: string) {
    forall i, j :: 0 <= i < j < |rows| ==> KeyLe(ColumnValue(rows[i], column), ColumnValue(rows[j], column))
  }

  /** What `.all()` returns: the rows that pass every constraint, sorted when
      the query is ordered, then capped by a non-negative limit (SQLite reads
      a negative `LIMIT` as no limit). */
  function AllRecords(q: Query, table: seq<Record>): seq<Record> {
    var kept := Select(table, q.constraints);
    var ordered := if q.order.Some? then SortBy(kept, q.order.value) else kept;
    if q.limit.Some? && q.limit.value >= 0 && q.limit.value < |ordered| then ordered[..q.limit.value] else ordered
  }

  // ---------------------------------------------------------------------
  // Properties of the record-level meaning
  // ---------------------------------------------------------------------

  lemma {:induction false} StrLeTotal(a: string, b: string)
    ensures StrLe(a, b) || StrLe(b, a)
    decreases |a|
  {
    if a != [] && b != [] && a[0] == b[0] {
      StrLeTotal(a[1..], b[1..]);
    }
  }

  lemma {:induction false} StrLeTrans(a: string, b: string, c: string)
    requires StrLe(a, b) && StrLe(b, c)
    ensures StrLe(a, c)
    decreases |a|
  {
    if a != [] && a[0] == b[0] && b[0] == c[0] {
      StrLeTrans(a[1..], b[1..], c[1..]);
    }
  }

  lemma KeyLeTotal(a: Value, b: Value)
    ensures KeyLe(a, b) || KeyLe(b, a)
  {
    if a.Str? && b.Str? {
      StrLeTotal(a.s, b.s);
    }
  }

  lemma KeyLeTrans(a: Value, b: Value, c: Value)
    requires KeyLe(a, b) && KeyLe(b, c)
    ensures KeyLe(a, c)
  {
    if a.Str? && b.Str? && c.Str? {
      StrLeTrans(a.s, b.s, c.s);
    }
  }

  lemma {:induction false} InsertPermutes(r: Record, sorted: seq<Record>, column: string)
    ensures multiset(Insert(r, sorted, column)) == multiset(sorted) + multiset{r}
    decreases |sorted|
  {
    if sorted != [] && !KeyLe(ColumnValue(r, column), ColumnValue(sorted[0], column)) {
      InsertPermutes(r, sorted[1..], column);
      assert sorted == [sorted[0]] + sorted[1..];
    }
  }

  /** Every row's key is at or above `h`. */
  predicate AllAbove(h: Value, rows: seq<Record>, column: string) {
    forall k :: 0 <= k < |rows| ==> KeyLe(h, ColumnValue(rows[k], column))
  }

  lemma {:induction false} InsertAbove(h: Value, r: Record, sorted: seq<Record>, column: string)
    requires AllAbove(h, sorted, column) && KeyLe(h, ColumnValue(r, column))
    ensures AllAbove(h, Insert(r, sorted, column), column)
    decreases |sorted|
  {
    if sorted != [] && !KeyLe(ColumnValue(r, column), ColumnValue(sorted[0], column)) {
      InsertAbove(h, r, sorted[1..], column);
    }
  }

  lemma SortedCons(head: Record, rest: seq<Record>, column: string)
    requires AllAbove(ColumnValue(head, column), rest, column) && SortedBy(rest, column)
    ensures SortedBy([head] + rest, column)
  {
    var out := [head] + rest;
    forall i, j | 0 <= i < j < |out|
      ensures KeyLe(ColumnValue(out[i], column), ColumnValue(out[j], column))
    {
      assert out[j] == rest[j - 1];
      if i > 0 { assert out[i] == rest[i - 1]; }
    }
  }

  lemma {:induction false} InsertSorted(r: Record, sorted: seq<Record>, column: string)
    requires SortedBy(sorted, column)
    ensures SortedBy(Insert(r, sorted, column), column)
    decreases |sorted|
  {
    if sorted != [] {
      var head, tail := sorted[0], sorted[1..];
      if KeyLe(ColumnValue(r, column), ColumnValue(head, column)) {
        forall k | 0 <= k < |sorted|
          ensures KeyLe(ColumnValue(r, column), ColumnValue(sorted[k], column))
        {
          if k > 0 {
            KeyLeTrans(ColumnValue(r, column), ColumnValue(head, column), ColumnValue(sorted[k], column));
          }
        }
        SortedCons(r, sorted, column);
      } else {
        KeyLeTotal(ColumnValue(r, column), ColumnValue(head, column));
        assert SortedBy(tail, column) by {
          forall i, j | 0 <= i < j < |tail|
            ensures KeyLe(ColumnValue(tail[i], column), ColumnValue(tail[j], column))
          {
            assert tail[i] == sorted[i + 1] && tail[j] == sorted[j + 1];
          }
        }
        assert AllAbove(ColumnValue(head, column), tail, column) by {
          forall k | 0 <= k < |tail| ensures KeyLe(ColumnValue(head, column), ColumnValue(tail[k], column)) {
            assert tail[k] == sorted[k + 1];
          }
        }
        InsertSorted(r, tail, column);
        InsertAbove(ColumnValue(head, column), r, tail, column);
        SortedCons(head, Insert(r, tail, column), column);
      }
    }
  }

  /** `ORDER BY` returns the same rows, sorted by the column. */
  lemma {:induction false} SortByCorrect(rows: seq<Record>, column: string)
    ensures SortedBy(SortBy(rows, column), column)
    ensures multiset(SortBy(rows, column)) == multiset(rows)
    ensures |SortBy(rows, column)| == |rows|
  {
    if rows != [] {
      SortByCorrect(rows[1..], column);
      InsertSorted(rows[0], SortBy(rows[1..], column), column);
      InsertPermutes(rows[0], SortBy(rows[1..], column), column);
      assert rows == [rows[0]] + rows[1..];
    }
    assert |multiset(SortBy(rows, column))| == |multiset(rows)|;
  }

  lemma {:induction false} PercentMatchesAll(s: string)
    ensures LikeMatch("%", s)
    decreases |s|
  {
    assert "%"[1..] == [];
    if s != [] {
      PercentMatchesAll(s[1..]);
    }
  }

  predicate NoWildcards(p: string) {
    forall k :: 0 <= k < |p| ==> p[k] != '%' && p[k] != '_'
  }

  /** A literal followed by `%` matches exactly the strings that start with
      the literal (the `J%` of the name search). */
  lemma {:induction false} PrefixPattern(p: string, s: string)
    requires NoWildcards(p)
    ensures LikeMatch(p + "%", s) <==> |p| <= |s| && s[..|p|] == p
    decreases |p|
  {
    if p == [] {
      assert p + "%" == "%";
      PercentMatchesAll(s);
    } else {
      assert (p + "%")[1..] == p[1..] + "%";
      assert (p + "%")[0] == p[0];
      if s != [] {
        PrefixPattern(p[1..], s[1..]);
        if |p| <= |s| {
          assert s[..|p|] == [s[0]] + s[1..][..|p| - 1];
          assert p == [p[0]] + p[1..];
        }
      }
    }
  }

  /** Adding constraints to a query narrows the rows it keeps to those the
      new constraints also accept: a conjunction. */
  lemma {:induction false} SelectAppend(rows: seq<Record>, a: seq<Constraint>, b: seq<Constraint>)
    ensures Select(rows, a + b) == Select(Select(rows, a), b)
  {
    if rows != [] {
      SelectAppend(rows[1..], a, b);
      var r := rows[0];
      assert HoldsAll(a + b, r) <==> HoldsAll(a, r) && HoldsAll(b, r) by {
        if HoldsAll(a, r) && HoldsAll(b, r) {
          forall k | 0 <= k < |a + b| ensures Holds((a + b)[k], r) {
            if k >= |a| { assert (a + b)[k] == b[k - |a|]; }
          }
        }
        if HoldsAll(a + b, r) {
          forall k | 0 <= k < |b| ensures Holds(b[k], r) {
            assert (a + b)[|a| + k] == b[k];
          }
          forall k | 0 <= k < |a| ensures Holds(a[k], r) {
            assert (a + b)[k] == a[k];
          }
        }
      }
    }
  }

  /** The order in which constraints were added does not change the rows kept. */
  lemma SelectCommutes(rows: seq<Record>, a: seq<Constraint>, b: seq<Constraint>)
    ensures Select(rows, a + b) == Select(rows, b + a)
  {
    forall r ensures HoldsAll(a + b, r) <==> HoldsAll(b + a, r) {
      assert forall c :: c in a + b <==> c in b + a;
      assert HoldsAll(a + b, r) <==> forall c :: c in a + b ==> Holds(c, r);
      assert HoldsAll(b + a, r) <==> forall c :: c in b + a ==> Holds(c, r);
    }
    SelectSame(rows, a + b, b + a);
  }

  lemma {:induction false} SelectSame(rows: seq<Record>, a: seq<Constraint>, b: seq<Constraint>)
    requires forall r :: HoldsAll(a, r) <==> HoldsAll(b, r)
    ensures Select(rows, a) == Select(rows, b)
  {
    if rows != [] {
      SelectSame(rows[1..], a, b);
    }
  }

  /** An unordered, unlimited query returns the rows that pass its
      constraints in table order; a limit `n >= 0` keeps the first `n`. */
  lemma AllRecordsShape(q: Query, table: seq<Record>)
    ensures q.order.None? && q.limit.None? ==> AllRecords(q, table) == Select(table, q.constraints)
    ensures q.order.None? ==> IsSubsequence(AllRecords(q, table), table)
    ensures q.limit.Some? && q.limit.value >= 0 ==>
      |AllRecords(q, table)| == if q.limit.value < |Select(table, q.constraints)| then q.limit.value else |Select(table, q.constraints)|
    ensures forall r :: r in AllRecords(q, table) ==> r in table && HoldsAll(q.constraints, r)
  {
    var kept := Select(table, q.constraints);
    if q.order.Some? {
      SortByCorrect(kept, q.order.value);
    }
    var ordered := if q.order.Some? then SortBy(kept, q.order.value) else kept;
    assert forall r :: r in ordered ==> r in kept by {
      forall r | r in ordered ensures r in kept {
        if q.order.Some? { assert r in multiset(ordered); }
      }
    }
    if q.order.None? && q.limit.Some? && q.limit.value >= 0 && q.limit.value < |ordered| {
      PrefixSubsequence(kept, q.limit.value);
      SubsequenceTrans(kept[..q.limit.value], kept, table);
    }
  }

  lemma {:induction false} PrefixSubsequence<T>(s: seq<T>, n: nat)
    requires n <= |s|
    ensures IsSubsequence(s[..n], s)
  {
    if n > 0 {
      PrefixSubsequence(s[1..], n - 1);
      assert s[..n][1..] == s[1..][..n - 1];
    }
  }

  lemma {:induction false} SubsequenceTrans<T>(a: seq<T>, b: seq<T>, c: seq<T>)
    requires IsSubsequence(a, b) && IsSubsequence(b, c)
    ensures IsSubsequence(a, c)
    decreases |c|
  {
    if a != [] && b != [] && c != [] {
      if b[0] == c[0] {
        if a[0] == b[0] {
          SubsequenceTrans(a[1..], b[1..], c[1..]);
        } else {
          SubsequenceTrans(a, b[1..], c[1..]);
        }
      } else {
        SubsequenceTrans(a, b, c[1..]);
        Weaken(a, c);
      }
    }
  }

  lemma {:induction false} Weaken<T>(a: seq<T>, b: seq<T>)
    requires b != [] && IsSubsequence(a, b[1..])
    ensures IsSubsequence(a, b)
    decreases |b|, 0
  {
    if a != [] && a[0] == b[0] {
      DropHead(a, b[1..]);
    }
  }

  lemma {:induction false} DropHead<T>(a: seq<T>, b: seq<T>)
    requires a != [] && IsSubsequence(a, b)
    ensures IsSubsequence(a[1..], b)
    decreases |b|, 1
  {
    if a[0] == b[0] {
      Weaken(a[1..], b);
    } else {
      DropHead(a, b[1..]);
      Weaken(a[1..], b);
    }
  }
}
