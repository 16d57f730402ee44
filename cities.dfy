/** `CitiesService.findAndCount`: the options it builds from a query. */
module Cities {
  import opened Wrappers
  import opened Js
  import opened Listing

  /**
   * Paging only when both `limit` and `offset` are truthy; an `id` equality
   * when `id` is truthy; a `%name%` iLike filter when `name` is truthy;
   * always `distinct`.
   */
  function FindAndCountOptions(q: Query): (o: FindOptions)
    ensures o.distinct
    ensures o.limit.Some? <==> Given(q, "limit") && Given(q, "offset")
    ensures o.offset.Some? <==> Given(q, "limit") && Given(q, "offset")
    ensures o.limit.Some? ==> o.limit.value == q["limit"] && o.offset.value == q["offset"]
    ensures o.where.Keys <= {"id", "name"}
    ensures ("id" in o.where <==> Given(q, "id")) && ("id" in o.where ==> o.where["id"] == Eq(q["id"]))
    ensures ("name" in o.where <==> Given(q, "name"))
         && ("name" in o.where ==> o.where["name"] == ILike(Substring(q["name"])))
  {
    var w0: Where := map[];
    var w1 := if Given(q, "id") then w0["id" := Eq(q["id"])] else w0;
    var w2 := if Given(q, "name") then w1["name" := ILike(Substring(q["name"]))] else w1;
    Paginated(q, w2)
  }

  /** An empty query lists every city: empty `where`, no window, `distinct`. */
  lemma EmptyQueryListsAll(table: seq<Row>, like: (string, string) -> bool)
    ensures FindAndCountOptions(map[]) == FindOptions(map[], None, None, true)
    ensures FindAndCountAll(table, FindAndCountOptions(map[]), like) == Some(Page(|table|, table))
  {
    assert FindAndCountOptions(map[]) == FindOptions(map[], None, None, true);
    EmptyOptionsListAll(table, like);
  }

  /** An offset of 0 is falsy, so it switches paging off: the whole match is returned. */
  lemma ZeroOffsetDisablesPaging(q: Query, table: seq<Row>, like: (string, string) -> bool)
    requires "offset" in q && q["offset"] == Num(0)
    ensures FindAndCountOptions(q).limit.None? && FindAndCountOptions(q).offset.None?
    ensures FindAndCountAll(table, FindAndCountOptions(q), like)
         == Some(Page(|Filter(table, FindAndCountOptions(q).where, like)|, Filter(table, FindAndCountOptions(q).where, like)))
  {
  }

  /** The count does not depend on the page asked for. */
  lemma CountIgnoresPaging(q: Query, q': Query, table: seq<Row>, like: (string, string) -> bool)
    requires forall k :: k in q && k != "limit" && k != "offset" ==> k in q' && q'[k] == q[k]
    requires forall k :: k in q' && k != "limit" && k != "offset" ==> k in q && q[k] == q'[k]
    requires FindAndCountAll(table, FindAndCountOptions(q), like).Some?
    requires FindAndCountAll(table, FindAndCountOptions(q'), like).Some?
    ensures FindAndCountAll(table, FindAndCountOptions(q), like).value.count
         == FindAndCountAll(table, FindAndCountOptions(q'), like).value.count
  {
    assert Given(q, "id") == Given(q', "id");
    assert Given(q, "name") == Given(q', "name");
    assert FindAndCountOptions(q).where == FindAndCountOptions(q').where;
  }
}
