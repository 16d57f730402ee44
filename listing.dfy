/**
 * The options record the services hand to the persistence layer's
 * `findAndCountAll`, and an abstract model of what that call returns over a
 * table held as a sequence of rows. The case-insensitive `iLike` collation is
 * the persistence layer's: it is a parameter `like(text, pattern)` here.
 */
module Listing {
  import opened Wrappers
  import opened Js

  /** One condition on a column: `col = v` or `col iLike pattern`. */
  datatype Cond = Eq(v: Value) | ILike(pattern: string)

  type Where = map<string, Cond>

  /** `{ where, limit?, offset?, distinct }` */
  datatype FindOptions = FindOptions(where: Where, limit: Option<Value>, offset: Option<Value>, distinct: bool)

  /** A row: column name to stored value. */
  type Row = map<string, Value>

  /** What `findAndCountAll` resolves to: the total and the selected page. */
  datatype Page = Page(count: nat, rows: seq<Row>)

  /** The pattern the services build for substring search: `%${v}%`. */
  function Substring(v: Value): (p: string)
    ensures |p| >= 2 && p[0] == '%' && p[|p| - 1] == '%'
    ensures p[1..|p| - 1] == Show(v)
  {
    "%" + Show(v) + "%"
  }

  /**
   * `limit` and `offset` are both set, to the query's own values, exactly when
   * both are truthy in the query; the record has the given `where` and
   * `distinct` set.
   */
  function Paginated(q: Query, where: Where): (o: FindOptions)
    ensures o.where == where && o.distinct
    ensures o.limit.Some? <==> Given(q, "limit") && Given(q, "offset")
    ensures o.offset.Some? <==> o.limit.Some?
    ensures o.limit.Some? ==> o.limit.value == q["limit"] && o.offset.value == q["offset"]
  {
    if Given(q, "limit") && Given(q, "offset") then
      FindOptions(where, Some(q["limit"]), Some(q["offset"]), true)
    else
      FindOptions(where, None, None, true)
  }

  predicate Holds(v: Value, c: Cond, like: (string, string) -> bool)
  {
    match c
    case Eq(e) => v == e
    case ILike(p) => like(Show(v), p)
  }

  /** A row satisfies a `where` when every listed column holds its condition. */
  predicate Satisfies(row: Row, where: Where, like: (string, string) -> bool)
  {
    forall col :: col in where ==> col in row && Holds(row[col], where[col], like)
  }

  /** The rows of `table` that satisfy `where`, each as many times as the table holds it. */
  function Filter(table: seq<Row>, where: Where, like: (string, string) -> bool): (r: seq<Row>)
    ensures |r| <= |table|
    ensures forall i :: 0 <= i < |r| ==> r[i] in table && Satisfies(r[i], where, like)
    ensures forall i :: 0 <= i < |table| && Satisfies(table[i], where, like) ==> table[i] in r
    ensures forall x {:trigger multiset(r)[x]} :: multiset(r)[x] == if Satisfies(x, where, like) then multiset(table)[x] else 0
  {
    if table == [] then []
    else
      var rest := Filter(table[1..], where, like);
      assert table == [table[0]] + table[1..];
      if Satisfies(table[0], where, like) then [table[0]] + rest else rest
  }

  function Min(a: int, b: int): int { if a < b then a else b }

  /** A limit or offset the model can apply: a non-negative number. */
  predicate IsCount(v: Option<Value>)
  {
    v.None? || (v.value.Num? && v.value.n >= 0)
  }

  /**
   * `findAndCountAll(options)`: `count` is the number of matching rows whatever
   * the window, and `rows` are the matching rows from `offset` on, at most
   * `limit` of them. A limit or offset that is not a non-negative number is
   * refused (`None`).
   */
  function FindAndCountAll(table: seq<Row>, o: FindOptions, like: (string, string) -> bool): (r: Option<Page>)
    ensures r.Some? <==> IsCount(o.limit) && IsCount(o.offset)
    ensures r.Some? ==> r.value.count == |Filter(table, o.where, like)|
    ensures r.Some? ==> forall i :: 0 <= i < |r.value.rows| ==> Satisfies(r.value.rows[i], o.where, like)
    ensures r.Some? && o.limit.Some? ==> |r.value.rows| <= o.limit.value.n
    ensures r.Some? && o.limit.None? && o.offset.None? ==> r.value.rows == Filter(table, o.where, like)
    ensures r.Some? ==>
      var m := Filter(table, o.where, like);
      var s := if o.offset.Some? then Min(o.offset.value.n, |m|) else 0;
      var n := if o.limit.Some? then Min(o.limit.value.n, |m| - s) else |m| - s;
      r.value.rows == m[s..s + n]
  {
    if !IsCount(o.limit) || !IsCount(o.offset) then None
    else
      var m := Filter(table, o.where, like);
      var s := if o.offset.Some? then Min(o.offset.value.n, |m|) else 0;
      var n := if o.limit.Some? then Min(o.limit.value.n, |m| - s) else |m| - s;
      Some(Page(|m|, m[s..s + n]))
  }

  /** An empty `where` keeps every row of the table, in order. */
  lemma {:induction false} FilterEmptyWhere(table: seq<Row>, like: (string, string) -> bool)
    ensures Filter(table, map[], like) == table
  {
    if table != [] {
      FilterEmptyWhere(table[1..], like);
      assert Satisfies(table[0], map[], like);
      assert [table[0]] + table[1..] == table;
    }
  }

  /** Options with an empty `where` and no window count and return the whole table. */
  lemma EmptyOptionsListAll(table: seq<Row>, like: (string, string) -> bool)
    ensures FindAndCountAll(table, FindOptions(map[], None, None, true), like) == Some(Page(|table|, table))
  {
    FilterEmptyWhere(table, like);
  }
}
