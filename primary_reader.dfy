/**
 * The generic query executor (`PrimaryReader`), over a table held in memory
 * as a sequence of rows.
 *
 * What the database does on the executor's behalf is written out here: a
 * SELECT keeps the rows on which the WHERE predicate is TRUE, ORDER BY sorts
 * them (NULLs last ascending and first descending, as PostgreSQL does),
 * DISTINCT drops repeated result rows, and LIMIT keeps a prefix.
 */
module Reader {
  import opened Wrappers
  import opened Inventory
  import opened Conditions

  /** What a call can raise. */
  datatype Error =
      // a dictionary lookup on a flag or doctype tag that is not a key
    | KeyError(key: string)
      // `order_attr.desc()` on a missing ordering column
    | AttributeError
      // a Python list where the query library expects a clause
    | ArgumentError
      // `Query.one()` on zero, or on several, rows
    | NoResultFound
    | MultipleResultsFound
      // a commit that would repeat a primary key
    | IntegrityError
      // a negative LIMIT
    | DataError
      // indexing or iterating a value the caller passed
    | TypeError
    | IndexError
    | ValueError
      // the outcome is left to the query library and not modelled
    | Undefined

  // ---------------------------------------------------------------------------
  // Query targets (construct_query_obj)

  /** Whole records (the mapped class) or an explicit, ordered list of columns. */
  datatype Target = Entity | Columns(columns: seq<Column>)

  /** One result row: a record, or a tuple of the requested column values. */
  datatype Row = Whole(record: Record) | Tuple(values: seq<Value>)

  /** The result row a query on `target` yields for table row `rec`. */
  function Project(target: Target, rec: Record): (row: Row)
    ensures target.Entity? <==> row.Whole?
    ensures row.Whole? ==> row.record == rec
    ensures row.Tuple? ==> |row.values| == |target.columns|
    ensures row.Tuple? ==> forall i :: 0 <= i < |row.values| ==> row.values[i] == Get(rec, target.columns[i])
  {
    match target
    case Entity => Whole(rec)
    case Columns(cols) => Tuple(seq(|cols|, i requires 0 <= i < |cols| => Get(rec, cols[i])))
  }

  function ProjectAll(target: Target, recs: seq<Record>): (rows: seq<Row>)
    ensures |rows| == |recs|
    ensures forall i :: 0 <= i < |recs| ==> rows[i] == Project(target, recs[i])
  {
    seq(|recs|, i requires 0 <= i < |recs| => Project(target, recs[i]))
  }

  // ---------------------------------------------------------------------------
  // Combining conditions (filter_type_switch)

  datatype Combinator = Conjunction | Disjunction

  /** `{"and": and_, "or": or_}[flag]`. */
  function FilterTypeSwitch(flag: string): (r: Result<Combinator, Error>)
    ensures r == Ok(Conjunction) <==> flag == "and"
    ensures r == Ok(Disjunction) <==> flag == "or"
    ensures r.Err? ==> r.error == KeyError(flag)
  {
    if flag == "and" then Ok(Conjunction)
    else if flag == "or" then Ok(Disjunction)
    else Err(KeyError(flag))
  }

  /** The row passes the conditions combined by `op`: all of them, or one of them. */
  predicate Meets(op: Combinator, cs: seq<Cond>, x: Record) {
    match op
    case Conjunction => AllHold(cs, x)
    case Disjunction => SomeHolds(cs, x)
  }

  function Combined(op: Combinator, cs: seq<Cond>): Cond {
    match op
    case Conjunction => And(cs)
    case Disjunction => Or(cs)
  }

  /**
   * One element of a condition list handed to `and_`/`or_`. Besides real
   * clauses, the Python callers sometimes put a list there, which the query
   * library rejects, or an `or_()` built from no arguments, whose meaning the
   * library leaves open.
   */
  datatype Clause = Expr(cond: Cond) | PyList | EmptyGroup

  predicate AllExprs(clauses: seq<Clause>) {
    forall i :: 0 <= i < |clauses| ==> clauses[i].Expr?
  }

  predicate HasList(clauses: seq<Clause>) {
    exists i :: 0 <= i < |clauses| && clauses[i].PyList?
  }

  function Exprs(clauses: seq<Clause>): (cs: seq<Cond>)
    requires AllExprs(clauses)
    ensures |cs| == |clauses| && forall i :: 0 <= i < |cs| ==> clauses[i] == Expr(cs[i])
  {
    seq(|clauses|, i requires 0 <= i < |clauses| => clauses[i].cond)
  }

  /**
   * `op(*clauses)` as a clause: empty when there are no arguments, an
   * ArgumentError when one argument is a list, left to the library when one
   * argument is itself empty.
   */
  function Group(op: Combinator, clauses: seq<Clause>): (r: Result<Clause, Error>)
    ensures |clauses| == 0 ==> r == Ok(EmptyGroup)
    ensures r.Err? <==> HasList(clauses) || (|clauses| > 0 && !AllExprs(clauses))
    ensures HasList(clauses) ==> r == Err(ArgumentError)
    ensures r.Ok? && |clauses| > 0 ==> r.value.Expr? && forall x :: Holds(r.value.cond, x) <==> Meets(op, Exprs(clauses), x)
  {
    if |clauses| == 0 then Ok(EmptyGroup)
    else if HasList(clauses) then Err(ArgumentError)
    else if !AllExprs(clauses) then Err(Undefined)
    else Ok(Expr(Combined(op, Exprs(clauses))))
  }

  /** `filter(op(*clauses))`: the WHERE predicate, when the library gives it one. */
  function Combine(op: Combinator, clauses: seq<Clause>): (r: Result<Cond, Error>)
    ensures r.Ok? <==> |clauses| > 0 && AllExprs(clauses)
    ensures r.Err? ==> r.error == if HasList(clauses) then ArgumentError else Undefined
    ensures r.Ok? ==> forall x :: Holds(r.value, x) <==> Meets(op, Exprs(clauses), x)
  {
    var g :- Group(op, clauses);
    if g.Expr? then Ok(g.cond) else Err(Undefined)
  }

  // ---------------------------------------------------------------------------
  // Ordering (order_type_swtich)

  datatype Direction = Ascending | Descending

  datatype Ordering = OrderBy(attr: Column, direction: Direction)

  /**
   * `{"max": order_attr.desc(), "min": order_attr.asc()}[flag]`. Both entries
   * are built before the lookup, so a missing column fails first.
   */
  function OrderTypeSwitch(flag: string, attr: Option<Column>): (r: Result<Ordering, Error>)
    ensures attr.None? ==> r == Err(AttributeError)
    ensures attr.Some? && flag == "max" ==> r == Ok(OrderBy(attr.value, Descending))
    ensures attr.Some? && flag == "min" ==> r == Ok(OrderBy(attr.value, Ascending))
    ensures attr.Some? && flag != "max" && flag != "min" ==> r == Err(KeyError(flag))
  {
    if attr.None? then Err(AttributeError)
    else if flag == "max" then Ok(OrderBy(attr.value, Descending))
    else if flag == "min" then Ok(OrderBy(attr.value, Ascending))
    else Err(KeyError(flag))
  }

  /** The ordering an optional `order` flag asks for. */
  function OrderFor(order: Option<string>, attr: Option<Column>): (r: Result<Option<Ordering>, Error>)
    ensures order.None? ==> r == Ok(None)
    ensures order.Some? ==> (r.Ok? <==> OrderTypeSwitch(order.value, attr).Ok?)
    ensures order.Some? && r.Ok? ==> r.value == Some(OrderTypeSwitch(order.value, attr).value)
    ensures order.Some? && r.Err? ==> r.error == OrderTypeSwitch(order.value, attr).error
  {
    if order.None? then Ok(None)
    else
      var o :- OrderTypeSwitch(order.value, attr);
      Ok(Some(o))
  }

  /** Lexicographic order on strings, by code point. */
  predicate TextLeq(a: string, b: string) {
    |a| == 0 || (|b| > 0 && (a[0] < b[0] || (a[0] == b[0] && TextLeq(a[1..], b[1..]))))
  }

  lemma {:induction false} TextLeqTotal(a: string, b: string)
    ensures TextLeq(a, b) || TextLeq(b, a)
  {
    if |a| > 0 && |b| > 0 && a[0] == b[0] {
      TextLeqTotal(a[1..], b[1..]);
    }
  }

  lemma {:induction false} TextLeqTransitive(a: string, b: string, c: string)
    requires TextLeq(a, b) && TextLeq(b, c)
    ensures TextLeq(a, c)
  {
    if |a| > 0 && a[0] == b[0] && b[0] == c[0] {
      TextLeqTransitive(a[1..], b[1..], c[1..]);
    }
  }

  /** Ascending order on the values of one column, NULLs last. */
  predicate ValueLeq(x: Value, y: Value) {
    match (x, y)
    case (Null, _) => y.Null?
    case (_, Null) => true
    case (Num(m), Num(n)) => m <= n
    case (Str(s), Str(t)) => TextLeq(s, t)
    case (Num(_), Str(_)) => true
    case (Str(_), Num(_)) => false
  }

  lemma ValueLeqTotal(x: Value, y: Value)
    ensures ValueLeq(x, y) || ValueLeq(y, x)
  {
    if x.Str? && y.Str? {
      TextLeqTotal(x.s, y.s);
    }
  }

  lemma ValueLeqTransitive(x: Value, y: Value, z: Value)
    requires ValueLeq(x, y) && ValueLeq(y, z)
    ensures ValueLeq(x, z)
  {
    if x.Str? && y.Str? && z.Str? {
      TextLeqTransitive(x.s, y.s, z.s);
    }
  }

  /** Row `a` may come before row `b` in the result of ORDER BY `o`. */
  predicate Precedes(o: Ordering, a: Record, b: Record) {
    var x, y := Get(a, o.attr), Get(b, o.attr);
    if o.direction == Ascending then ValueLeq(x, y) else ValueLeq(y, x)
  }

  lemma PrecedesTotal(o: Ordering, a: Record, b: Record)
    ensures Precedes(o, a, b) || Precedes(o, b, a)
  {
    ValueLeqTotal(Get(a, o.attr), Get(b, o.attr));
  }

  lemma PrecedesTransitive(o: Ordering, a: Record, b: Record, c: Record)
    requires Precedes(o, a, b) && Precedes(o, b, c)
    ensures Precedes(o, a, c)
  {
    var x, y, z := Get(a, o.attr), Get(b, o.attr), Get(c, o.attr);
    if o.direction == Ascending {
      ValueLeqTransitive(x, y, z);
    } else {
      ValueLeqTransitive(z, y, x);
    }
  }

  predicate SortedBy(o: Ordering, s: seq<Record>) {
    forall i, j :: 0 <= i < j < |s| ==> Precedes(o, s[i], s[j])
  }

  function Insert(o: Ordering, x: Record, s: seq<Record>): (r: seq<Record>)
    ensures multiset(r) == multiset(s) + multiset{x}
  {
    if s == [] then [x]
    else if Precedes(o, x, s[0]) then [x] + s
    else
      assert s == [s[0]] + s[1..];
      [s[0]] + Insert(o, x, s[1..])
  }

  lemma {:induction false} InsertSorted(o: Ordering, x: Record, s: seq<Record>)
    requires SortedBy(o, s)
    ensures SortedBy(o, Insert(o, x, s))
  {
    if s == [] {
    } else if Precedes(o, x, s[0]) {
      forall j | 0 <= j < |s| ensures Precedes(o, x, s[j]) {
        if j > 0 {
          PrecedesTransitive(o, x, s[0], s[j]);
        }
      }
    } else {
      InsertSorted(o, x, s[1..]);
      var t := Insert(o, x, s[1..]);
      PrecedesTotal(o, x, s[0]);
      forall k | 0 <= k < |t| ensures Precedes(o, s[0], t[k]) {
        assert t[k] in multiset(t);
        if t[k] != x {
          assert t[k] in multiset(s[1..]);
          assert t[k] in s[1..];
        }
      }
    }
  }

  /** The rows in an order ORDER BY `o` may return them (equal keys keep their table order). */
  function SortBy(o: Ordering, s: seq<Record>): (r: seq<Record>)
    ensures multiset(r) == multiset(s)
  {
    if s == [] then []
    else
      assert s == [s[0]] + s[1..];
      Insert(o, s[0], SortBy(o, s[1..]))
  }

  lemma {:induction false} SortBySorted(o: Ordering, s: seq<Record>)
    ensures SortedBy(o, SortBy(o, s))
  {
    if s != [] {
      SortBySorted(o, s[1..]);
      InsertSorted(o, s[0], SortBy(o, s[1..]));
    }
  }

  // ---------------------------------------------------------------------------
  // Selection, DISTINCT and LIMIT

  /** The rows a WHERE clause made of `c` keeps, in table order. */
  function Select(rows: seq<Record>, c: Cond): (r: seq<Record>)
    ensures forall x :: x in r <==> x in rows && Holds(c, x)
    ensures |r| <= |rows|
  {
    if rows == [] then []
    else (if Holds(c, rows[0]) then [rows[0]] else []) + Select(rows[1..], c)
  }

  /** A row occurs in the selection as often as in the table when it passes, and never otherwise. */
  lemma {:induction false} SelectCount(rows: seq<Record>, c: Cond, x: Record)
    ensures multiset(Select(rows, c))[x] == if Holds(c, x) then multiset(rows)[x] else 0
  {
    if rows != [] {
      SelectCount(rows[1..], c, x);
      var head := if Holds(c, rows[0]) then [rows[0]] else [];
      assert Select(rows, c) == head + Select(rows[1..], c);
      assert multiset(Select(rows, c)) == multiset(head) + multiset(Select(rows[1..], c));
      assert rows == [rows[0]] + rows[1..];
      assert multiset(rows) == multiset([rows[0]]) + multiset(rows[1..]);
    }
  }

  /** Reordering the table does not change which rows, nor how many, a selection keeps. */
  lemma SelectPermutation(a: seq<Record>, b: seq<Record>, c: Cond)
    requires multiset(a) == multiset(b)
    ensures multiset(Select(a, c)) == multiset(Select(b, c))
  {
    forall x ensures multiset(Select(a, c))[x] == multiset(Select(b, c))[x] {
      SelectCount(a, c, x);
      SelectCount(b, c, x);
    }
  }

  predicate NoDup<T(==)>(s: seq<T>) {
    forall i, j :: 0 <= i < j < |s| ==> s[i] != s[j]
  }

  /** A sequence has no repeats exactly when no element occurs twice in its multiset. */
  lemma {:induction false} NoDupMultiset<T>(s: seq<T>)
    ensures NoDup(s) <==> forall x :: multiset(s)[x] <= 1
  {
    if s != [] {
      var t := s[1..];
      assert s == [s[0]] + t;
      NoDupMultiset(t);
      if NoDup(s) {
        assert s[0] !in t;
        assert NoDup(t) by {
          forall i, j | 0 <= i < j < |t| ensures t[i] != t[j] {
            assert t[i] == s[i + 1] && t[j] == s[j + 1];
          }
        }
      }
      if forall x :: multiset(s)[x] <= 1 {
        assert forall x :: multiset(t)[x] <= 1 by {
          forall x ensures multiset(t)[x] <= 1 {
            assert multiset(s)[x] == multiset(t)[x] + (if x == s[0] then 1 else 0);
          }
        }
        assert multiset(s)[s[0]] == multiset(t)[s[0]] + 1;
        forall i, j | 0 <= i < j < |s| ensures s[i] != s[j] {
          if i == 0 {
            assert s[j] in t;
          } else {
            assert s[i] == t[i - 1] && s[j] == t[j - 1];
          }
        }
      }
    }
  }

  /** The distinct elements of `s`, each at its first occurrence. */
  function Dedupe<T(==, !new)>(s: seq<T>): (r: seq<T>)
    ensures NoDup(r)
    ensures forall x :: x in r <==> x in s
  {
    if s == [] then []
    else
      var rest := Dedupe(s[..|s| - 1]);
      var last := s[|s| - 1];
      assert s == s[..|s| - 1] + [last];
      if last in rest then rest else rest + [last]
  }

  function Min(a: int, b: int): int {
    if a <= b then a else b
  }

  // ---------------------------------------------------------------------------
  // The reader

  /** The executor bound to one open session on the inventory table. */
  class PrimaryReader {
    /** The table's rows, in the order the database stores them. */
    var rows: seq<Record>

    ghost predicate Valid()
      reads this
    {
      KeysUnique(rows)
    }

    /** A reader whose session sees a table holding `initial`. */
    constructor (initial: seq<Record>)
      requires KeysUnique(initial)
      ensures Valid() && rows == initial
    {
      rows := initial;
    }

    /**
     * The records a filtered (and optionally ordered) SELECT returns, before
     * the target's columns are picked out.
     */
    function Fetch(conds: seq<Clause>, filterType: string, order: Option<string>, orderAttr: Option<Column>): (r: Result<seq<Record>, Error>)
      reads this
      ensures FilterTypeSwitch(filterType).Err? ==> r == Err(KeyError(filterType))
      ensures FilterTypeSwitch(filterType).Ok? && OrderFor(order, orderAttr).Err? ==> r == Err(OrderFor(order, orderAttr).error)
      ensures FilterTypeSwitch(filterType).Ok? && OrderFor(order, orderAttr).Ok? && Combine(Conjunction, conds).Err? ==>
        r == Err(Combine(Conjunction, conds).error)
      ensures r.Ok? <==> FilterTypeSwitch(filterType).Ok? && OrderFor(order, orderAttr).Ok? && Combine(Conjunction, conds).Ok?
      ensures r.Ok? ==> forall x :: x in r.value <==> x in rows && Meets(FilterTypeSwitch(filterType).value, Exprs(conds), x)
      ensures r.Ok? ==> multiset(r.value) == multiset(Select(rows, Combined(FilterTypeSwitch(filterType).value, Exprs(conds))))
      ensures r.Ok? && order.Some? ==> SortedBy(OrderFor(order, orderAttr).value.value, r.value)
      ensures r.Ok? && order.None? ==> r.value == Select(rows, Combined(FilterTypeSwitch(filterType).value, Exprs(conds)))
    {
      var op :- FilterTypeSwitch(filterType);
      var ordering :- OrderFor(order, orderAttr);
      var c :- Combine(op, conds);
      var matched := Select(rows, c);
      if ordering.Some? then
        var sorted := SortBy(ordering.value, matched);
        SortBySorted(ordering.value, matched);
        assert forall x :: x in sorted <==> x in matched by {
          forall x ensures x in sorted <==> x in matched {
            assert x in sorted <==> x in multiset(sorted);
            assert x in matched <==> x in multiset(matched);
          }
        }
        Ok(sorted)
      else
        Ok(matched)
    }

    /** `filter_by_column`: the fetched records, projected onto the target. */
    function FilterByColumn(target: Target, conds: seq<Clause>, filterType: string, order: Option<string>, orderAttr: Option<Column>): (r: Result<seq<Row>, Error>)
      reads this
      ensures r.Ok? <==> Fetch(conds, filterType, order, orderAttr).Ok?
      ensures r.Err? ==> r.error == Fetch(conds, filterType, order, orderAttr).error
      ensures r.Ok? ==> r.value == ProjectAll(target, Fetch(conds, filterType, order, orderAttr).value)
    {
      var recs :- Fetch(conds, filterType, order, orderAttr);
      Ok(ProjectAll(target, recs))
    }

    /** `get_distinct_values`: the distinct result rows of a filtered SELECT. */
    function GetDistinctValues(target: Target, conds: seq<Clause>, filterType: string): (r: Result<seq<Row>, Error>)
      reads this
      ensures FilterTypeSwitch(filterType).Err? ==> r == Err(KeyError(filterType))
      ensures FilterTypeSwitch(filterType).Ok? && Combine(Conjunction, conds).Err? ==>
        r == Err(Combine(Conjunction, conds).error)
      ensures r.Ok? <==> FilterTypeSwitch(filterType).Ok? && Combine(Conjunction, conds).Ok?
      ensures r.Ok? ==> NoDup(r.value)
      ensures r.Ok? ==> forall v :: v in r.value <==>
        exists x :: x in rows && Meets(FilterTypeSwitch(filterType).value, Exprs(conds), x) && v == Project(target, x)
    {
      var op :- FilterTypeSwitch(filterType);
      var c :- Combine(op, conds);
      var matched := Select(rows, c);
      var projected := ProjectAll(target, matched);
      assert forall v :: v in projected <==> exists x :: x in matched && v == Project(target, x) by {
        forall v | v in projected ensures exists x :: x in matched && v == Project(target, x) {
          var k :| 0 <= k < |projected| && projected[k] == v;
          assert matched[k] in matched;
        }
        forall x | x in matched ensures Project(target, x) in projected {
          var k :| 0 <= k < |matched| && matched[k] == x;
          assert projected[k] == Project(target, x);
        }
      }
      Ok(Dedupe(projected))
    }

    /**
     * `random_sample`: the first `sampleSize` qualifying rows of the table in
     * the random order `shuffle` that `ORDER BY random()` imposes. With no
     * conditions every row qualifies.
     */
    function RandomSample(sampleSize: int, conditions: seq<Cond>, shuffle: seq<Record>): (r: Result<seq<Record>, Error>)
      reads this
      requires Valid()
      requires multiset(shuffle) == multiset(rows)
      ensures r.Err? <==> sampleSize < 0
      ensures r.Err? ==> r.error == DataError
      ensures r.Ok? ==> |r.value| == Min(sampleSize, |Select(rows, And(conditions))|)
      ensures r.Ok? ==> NoDup(r.value)
      ensures r.Ok? ==> forall x :: x in r.value ==> x in rows && AllHold(conditions, x)
      ensures r.Ok? && |conditions| == 0 ==> |r.value| == Min(sampleSize, |rows|)
    {
      if sampleSize < 0 then Err(DataError)
      else
        SampleFacts(rows, shuffle, conditions, sampleSize);
        assert |conditions| == 0 ==> |Select(rows, And(conditions))| == |rows|;
        Ok(Sample(shuffle, conditions, sampleSize))
    }

    /** `insert_row`: add one record and commit. */
    method InsertRow(rec: Record) returns (r: Result<(), Error>)
      requires Valid()
      modifies this
      ensures Valid()
      ensures KeyTaken(old(rows), rec.objectId) ==> r == Err(IntegrityError) && rows == old(rows)
      ensures !KeyTaken(old(rows), rec.objectId) ==> r == Ok(()) && rows == old(rows) + [rec]
    {
      if KeyTaken(rows, rec.objectId) {
        return Err(IntegrityError);
      }
      rows := rows + [rec];
      r := Ok(());
    }

    /**
     * `update_row`: the AND of `conds` must match exactly one row, whose
     * `column` is then set to `value` and committed.
     */
    method UpdateRow(conds: seq<Cond>, column: Column, value: Value) returns (r: Result<(), Error>)
      requires Valid()
      requires OfKind(column, value)
      modifies this
      ensures Valid()
      ensures |MatchIndices(old(rows), And(conds))| == 0 ==> r == Err(NoResultFound) && rows == old(rows)
      ensures |MatchIndices(old(rows), And(conds))| > 1 ==> r == Err(MultipleResultsFound) && rows == old(rows)
      ensures |MatchIndices(old(rows), And(conds))| == 1 ==>
        var i := MatchIndices(old(rows), And(conds))[0];
        && i < |old(rows)|
        && Holds(And(conds), old(rows)[i])
        && (forall j :: 0 <= j < |old(rows)| && j != i ==> !Holds(And(conds), old(rows)[j]))
        && (KeyViolation(old(rows), i, column, value) ==> r == Err(IntegrityError) && rows == old(rows))
        && (!KeyViolation(old(rows), i, column, value) ==>
              && r == Ok(())
              && |rows| == |old(rows)|
              && Get(rows[i], column) == value
              && (forall d :: d != column ==> Get(rows[i], d) == Get(old(rows)[i], d))
              && (forall j :: 0 <= j < |rows| && j != i ==> rows[j] == old(rows)[j]))
    {
      var hits := MatchIndices(rows, And(conds));
      if |hits| == 0 {
        return Err(NoResultFound);
      }
      if |hits| > 1 {
        return Err(MultipleResultsFound);
      }
      var i := hits[0];
      if KeyViolation(rows, i, column, value) {
        return Err(IntegrityError);
      }
      SingleMatch(rows, And(conds));
      UpdateKeepsKeys(rows, i, column, value);
      rows := rows[i := Set(rows[i], column, value)];
      r := Ok(());
    }
  }

  /** A change that leaves the primary key set and repeats no other row's keeps the keys distinct. */
  lemma UpdateKeepsKeys(rows: seq<Record>, i: nat, column: Column, value: Value)
    requires KeysUnique(rows) && i < |rows| && OfKind(column, value)
    requires !KeyViolation(rows, i, column, value)
    ensures Fits(column, value)
    ensures KeysUnique(rows[i := Set(rows[i], column, value)])
  {
    var updated := Set(rows[i], column, value);
    var rows' := rows[i := updated];
    assert Get(updated, Text(ObjectId)) == Str(updated.objectId);
    if column == Text(ObjectId) {
      assert value == Str(updated.objectId);
      forall j | 0 <= j < |rows| && j != i ensures rows[j].objectId != updated.objectId {
      }
    } else {
      assert Get(updated, Text(ObjectId)) == Get(rows[i], Text(ObjectId));
      assert updated.objectId == rows[i].objectId;
    }
    forall a, b | 0 <= a < b < |rows'| ensures rows'[a].objectId != rows'[b].objectId {
      if a != i && b != i {
        assert rows'[a] == rows[a] && rows'[b] == rows[b];
      }
    }
  }

  /** When exactly one row matches, it is the only row on which `c` is TRUE. */
  lemma SingleMatch(rows: seq<Record>, c: Cond)
    requires |MatchIndices(rows, c)| == 1
    ensures forall j :: 0 <= j < |rows| && j != MatchIndices(rows, c)[0] ==> !Holds(c, rows[j])
  {
    var hits := MatchIndices(rows, c);
    forall j | 0 <= j < |rows| && Holds(c, rows[j]) ensures j == hits[0] {
      assert j in hits;
    }
  }

  /** The positions of the rows on which `c` is TRUE, in increasing order. */
  function MatchIndices(rows: seq<Record>, c: Cond): (r: seq<nat>)
    ensures forall k :: 0 <= k < |r| ==> r[k] < |rows| && Holds(c, rows[r[k]])
    ensures forall i :: 0 <= i < |rows| && Holds(c, rows[i]) ==> i in r
    ensures forall k, l :: 0 <= k < l < |r| ==> r[k] < r[l]
  {
    if rows == [] then []
    else
      var n := |rows| - 1;
      MatchIndices(rows[..n], c) + (if Holds(c, rows[n]) then [n] else [])
  }

  /**
   * Setting `column` of row `i` to `value` would break the primary key: make
   * it NULL, or repeat another row's.
   */
  predicate KeyViolation(rows: seq<Record>, i: nat, column: Column, value: Value) {
    && column == Text(ObjectId)
    && (value.Null? || (value.Str? && exists j :: 0 <= j < |rows| && j != i && rows[j].objectId == value.s))
  }

  /**
   * The commit succeeds exactly when the keys stay valid: a change of the
   * kind the column holds is accepted iff the updated table has a set,
   * distinct primary key in every row.
   */
  lemma UpdateKeysIff(rows: seq<Record>, i: nat, column: Column, value: Value)
    requires KeysUnique(rows) && i < |rows| && OfKind(column, value)
    ensures !KeyViolation(rows, i, column, value) <==>
      Fits(column, value) && KeysUnique(rows[i := Set(rows[i], column, value)])
  {
    if !KeyViolation(rows, i, column, value) {
      UpdateKeepsKeys(rows, i, column, value);
    } else if value.Str? {
      var j :| 0 <= j < |rows| && j != i && rows[j].objectId == value.s;
      var rows' := rows[i := Set(rows[i], column, value)];
      assert Get(rows'[i], Text(ObjectId)) == value;
      assert rows'[j] == rows[j];
      if j < i {
        assert rows'[j].objectId == rows'[i].objectId;
      } else {
        assert rows'[i].objectId == rows'[j].objectId;
      }
    }
  }

  /** The rows that qualify for a sample: those passing all conditions, or every row when there are none. */
  function Pool(rows: seq<Record>, conditions: seq<Cond>): (pool: seq<Record>)
    ensures forall x :: x in pool <==> x in rows && AllHold(conditions, x)
    ensures |pool| <= |rows|
  {
    if |conditions| > 0 then
      assert forall x :: Holds(And(conditions), x) <==> AllHold(conditions, x) by {
        forall x ensures Holds(And(conditions), x) <==> AllHold(conditions, x) {
          AndHolds(conditions, x);
        }
      }
      Select(rows, And(conditions))
    else rows
  }

  /** `LIMIT n` over the qualifying rows of the shuffled table. */
  function Sample(shuffle: seq<Record>, conditions: seq<Cond>, n: nat): (sample: seq<Record>)
    ensures |sample| == Min(n, |Pool(shuffle, conditions)|) && |sample| <= n
    ensures forall x :: x in sample ==> x in shuffle && AllHold(conditions, x)
  {
    var pool := Pool(shuffle, conditions);
    assert forall x :: x in pool[..Min(n, |pool|)] ==> x in pool;
    pool[..Min(n, |pool|)]
  }

  lemma SampleFacts(rows: seq<Record>, shuffle: seq<Record>, conditions: seq<Cond>, n: nat)
    requires KeysUnique(rows)
    requires multiset(shuffle) == multiset(rows)
    ensures |Sample(shuffle, conditions, n)| == Min(n, |Select(rows, And(conditions))|)
    ensures |conditions| == 0 ==> |Select(rows, And(conditions))| == |rows|
    ensures NoDup(Sample(shuffle, conditions, n))
    ensures forall x :: x in Sample(shuffle, conditions, n) ==> x in rows && AllHold(conditions, x)
  {
    SampleSize(rows, shuffle, conditions, n);
    SampleNoDup(rows, shuffle, conditions, n);
    SampleMembers(rows, shuffle, conditions, n);
  }

  lemma SampleSize(rows: seq<Record>, shuffle: seq<Record>, conditions: seq<Cond>, n: nat)
    requires multiset(shuffle) == multiset(rows)
    ensures |Sample(shuffle, conditions, n)| == Min(n, |Select(rows, And(conditions))|)
    ensures |conditions| == 0 ==> |Select(rows, And(conditions))| == |rows|
  {
    PoolSize(rows, shuffle, conditions);
    if |conditions| == 0 {
      SelectAll(rows, And(conditions));
    }
  }

  lemma SampleNoDup(rows: seq<Record>, shuffle: seq<Record>, conditions: seq<Cond>, n: nat)
    requires KeysUnique(rows)
    requires multiset(shuffle) == multiset(rows)
    ensures NoDup(Sample(shuffle, conditions, n))
  {
    PoolNoDup(rows, shuffle, conditions);
  }

  lemma SampleMembers(rows: seq<Record>, shuffle: seq<Record>, conditions: seq<Cond>, n: nat)
    requires multiset(shuffle) == multiset(rows)
    ensures forall x :: x in Sample(shuffle, conditions, n) ==> x in rows && AllHold(conditions, x)
  {
    var pool := Pool(shuffle, conditions);
    var sample := Sample(shuffle, conditions, n);
    forall x | x in sample ensures x in rows && AllHold(conditions, x) {
      assert x in multiset(shuffle);
    }
  }

  lemma PoolSize(rows: seq<Record>, shuffle: seq<Record>, conditions: seq<Cond>)
    requires multiset(shuffle) == multiset(rows)
    ensures |Pool(shuffle, conditions)| == |Select(rows, And(conditions))|
  {
    var pool := Pool(shuffle, conditions);
    var selected := Select(rows, And(conditions));
    SelectPermutation(shuffle, rows, And(conditions));
    if |conditions| == 0 {
      forall x | x in shuffle ensures Holds(And(conditions), x) {
        AndHolds(conditions, x);
      }
      SelectAll(shuffle, And(conditions));
    }
    assert pool == Select(shuffle, And(conditions));
    assert |pool| == |multiset(pool)| && |selected| == |multiset(selected)|;
  }

  lemma PoolNoDup(rows: seq<Record>, shuffle: seq<Record>, conditions: seq<Cond>)
    requires KeysUnique(rows)
    requires multiset(shuffle) == multiset(rows)
    ensures NoDup(Pool(shuffle, conditions))
  {
    KeysUniqueNoDup(rows);
    NoDupMultiset(rows);
    NoDupMultiset(shuffle);
    SelectNoDup(shuffle, And(conditions));
  }

  lemma SelectAll(rows: seq<Record>, c: Cond)
    requires forall x :: x in rows ==> Holds(c, x)
    ensures Select(rows, c) == rows
  {
    if rows != [] {
      SelectAll(rows[1..], c);
    }
  }

  lemma KeysUniqueNoDup(rows: seq<Record>)
    requires KeysUnique(rows)
    ensures NoDup(rows)
  {
  }

  lemma {:induction false} SelectNoDup(rows: seq<Record>, c: Cond)
    requires NoDup(rows)
    ensures NoDup(Select(rows, c))
  {
    if rows != [] {
      SelectNoDup(rows[1..], c);
      assert rows[0] !in rows[1..];
    }
  }
}
