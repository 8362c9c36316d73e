/** How the iOS plugin builds its PostgREST queries
    (CapacitorSupabasePlugin.swift `select`, `update`, `delete`): one typed
    equality predicate per filter entry whose value is a string, integer,
    double or boolean; ordering always; limit and paging range. */
module IosQuery {
  import opened Bridge

  /** The value of an `eq(key, value:)` predicate, by the type it was cast
      to. */
  datatype FilterValue =
    | StringValue(s: string)
    | IntValue(i: int)
    | DoubleValue(d: Double)
    | BoolValue(b: bool)

  datatype Eq = Eq(column: string, value: FilterValue)

  /** `order(column, ascending:)` */
  datatype Ordering = Ordering(column: string, ascending: bool)

  /** `range(from:to:)`: rows `from` to `to`, inclusive. */
  datatype Range = Range(from: int, to: int)

  /** What `client.from(table).select(columns)` and its chain are asked for. */
  datatype SelectQuery = SelectQuery(
    table: string,
    columns: string,
    filters: seq<Eq>,
    ordering: Ordering,
    limit: Option<int>,
    range: Option<Range>,
    single: bool)

  /** The `if let ... as? String / Int / Double / Bool` chain: the first cast
      that succeeds picks the predicate's type; a value of any other type
      (null, an object, an array) gives none. */
  function TypedValue(v: JsValue): (r: Option<FilterValue>)
    ensures r.None? <==> v.JsNull? || v.JsObject? || v.JsOther?
  {
    match v
    case JsString(s) => Some(StringValue(s))
    case JsNumber(IntNumber(i)) => Some(IntValue(i))
    case JsNumber(DoubleNumber(d)) => Some(DoubleValue(d))
    case JsBool(b) => Some(BoolValue(b))
    case _ => None
  }

  /** The predicates a filter yields, in the order its entries are visited. */
  function TypedFilters(entries: Entries): seq<Eq> {
    if |entries| == 0 then []
    else
      var rest := TypedFilters(entries[..|entries| - 1]);
      var (key, value) := entries[|entries| - 1];
      match TypedValue(value)
      case Some(fv) => rest + [Eq(key, fv)]
      case None => rest
  }

  /** Every predicate comes from one entry, on that entry's key and value. */
  lemma {:induction false} TypedFiltersSound(entries: Entries, e: Eq)
    requires e in TypedFilters(entries)
    ensures exists i :: 0 <= i < |entries| && entries[i].0 == e.column && TypedValue(entries[i].1) == Some(e.value)
  {
    var n := |entries| - 1;
    var rest := TypedFilters(entries[..n]);
    if e in rest {
      TypedFiltersSound(entries[..n], e);
      var i :| 0 <= i < n && entries[..n][i].0 == e.column && TypedValue(entries[..n][i].1) == Some(e.value);
      assert entries[i] == entries[..n][i];
    } else {
      assert entries[n].0 == e.column && TypedValue(entries[n].1) == Some(e.value);
    }
  }

  /** Every entry with a string, integer, double or boolean value yields its
      predicate. */
  lemma {:induction false} TypedFiltersComplete(entries: Entries, i: int)
    requires 0 <= i < |entries| && TypedValue(entries[i].1).Some?
    ensures Eq(entries[i].0, TypedValue(entries[i].1).value) in TypedFilters(entries)
  {
    var n := |entries| - 1;
    if i < n {
      assert entries[..n][i] == entries[i];
      TypedFiltersComplete(entries[..n], i);
    }
  }

  /** Visiting one more entry extends the predicates already built. */
  lemma {:induction false} TypedFiltersStep(entries: Entries, i: int)
    requires 0 <= i < |entries|
    ensures TypedFilters(entries[..i + 1]) ==
      TypedFilters(entries[..i]) + (if TypedValue(entries[i].1).Some? then [Eq(entries[i].0, TypedValue(entries[i].1).value)] else [])
  {
    assert entries[..i + 1][..i] == entries[..i];
  }

  /** The loop over the filter's entries: rebinds the query once per entry
      whose value has one of the four types. */
  method AddTypedFilters(entries: Entries) returns (filters: seq<Eq>)
    ensures filters == TypedFilters(entries)
    ensures |filters| <= |entries|
  {
    filters := [];
    var i := 0;
    while i < |entries|
      invariant 0 <= i <= |entries|
      invariant filters == TypedFilters(entries[..i])
      invariant |filters| <= i
    {
      TypedFiltersStep(entries, i);
      var (key, value) := entries[i];
      if value.JsString? {
        filters := filters + [Eq(key, StringValue(value.s))];
      } else if value.JsNumber? && value.n.IntNumber? {
        filters := filters + [Eq(key, IntValue(value.n.i))];
      } else if value.JsNumber? && value.n.DoubleNumber? {
        filters := filters + [Eq(key, DoubleValue(value.n.d))];
      } else if value.JsBool? {
        filters := filters + [Eq(key, BoolValue(value.b))];
      }
      i := i + 1;
    }
    assert entries[..i] == entries;
  }

  /** The filter check of `update` and `delete` as written
      (`guard let filter, !filter.isEmpty`): the dictionary has an entry. */
  predicate FilterGuardAsWritten(filter: Option<Entries>) {
    filter.Some? && |filter.value| > 0
  }

  /** That check looks at the dictionary, not at the predicates built from
      it: a filter whose only value is null passes it and yet restricts
      nothing, so the update or delete reaches every row. */
  lemma NullFilterPassesUnfiltered()
    ensures FilterGuardAsWritten(Some([("id", JsNull)]))
    ensures TypedFilters([("id", JsNull)]) == []
  {
    assert [("id", JsNull)][..0] == [];
  }

  /** The check as its message intends: the filter yields at least one
      predicate. */
  predicate FilterGuard(filter: Option<Entries>) {
    filter.Some? && |TypedFilters(filter.value)| > 0
  }

  /** The intended check is the written one narrowed to filters that
      restrict something: it passes exactly when the dictionary has an
      entry whose value is a string, integer, double or boolean. */
  lemma {:induction false} FilterGuardRestricts(filter: Option<Entries>)
    ensures FilterGuard(filter) ==> FilterGuardAsWritten(filter)
    ensures FilterGuard(filter) <==>
      filter.Some? && exists i :: 0 <= i < |filter.value| && TypedValue(filter.value[i].1).Some?
  {
    if filter.Some? {
      var entries := filter.value;
      if |TypedFilters(entries)| > 0 {
        TypedFiltersSound(entries, TypedFilters(entries)[0]);
      }
      if exists i :: 0 <= i < |entries| && TypedValue(entries[i].1).Some? {
        var i :| 0 <= i < |entries| && TypedValue(entries[i].1).Some?;
        TypedFiltersComplete(entries, i);
      }
    }
  }

  /** The page size assumed when an offset comes without a limit. */
  const DefaultPageSize: int := 1000

  function PageSize(limit: Option<int>): int {
    if limit.Some? then limit.value else DefaultPageSize
  }

  /** `range(from: offset, to: offset + (limit ?? 1000) - 1)`: starts at the
      offset and spans exactly the page size. */
  function PageRange(offset: int, limit: Option<int>): (r: Range)
    ensures r.from == offset
    ensures r.to - r.from + 1 == PageSize(limit)
  {
    Range(offset, offset + PageSize(limit) - 1)
  }

  /** What `select` asks for: the table; the columns, "*" when absent; the
      typed filter predicates, none when the filter is absent; ordering
      always, by `orderBy` or else "id", descending only for `ascending ==
      false`; the limit as given; a paging range exactly when an offset is
      given; a single row only for `single == true`. */
  predicate SelectQueryFor(
    q: SelectQuery,
    table: string,
    columns: Option<string>,
    filter: Option<Entries>,
    limit: Option<int>,
    offset: Option<int>,
    orderBy: Option<string>,
    ascending: Option<bool>,
    single: Option<bool>)
  {
    && q.table == table
    && q.columns == (if columns.Some? then columns.value else "*")
    && q.filters == (if filter.Some? then TypedFilters(filter.value) else [])
    && q.ordering.column == (if orderBy.Some? then orderBy.value else "id")
    && (!q.ordering.ascending <==> ascending == Some(false))
    && q.limit == limit
    && (q.range.Some? <==> offset.Some?)
    && (offset.Some? ==> q.range.value == PageRange(offset.value, limit))
    && (q.single <==> single == Some(true))
  }

  /** The query `select` builds: columns default to "*", the typed filter
      predicates, ordering always (by `orderBy`, else "id"; ascending unless
      told otherwise), the limit as given, a paging range only when an
      offset is given, single-row mode only when asked for. */
  method BuildSelectQuery(
    table: string,
    columns: Option<string>,
    filter: Option<Entries>,
    limit: Option<int>,
    offset: Option<int>,
    orderBy: Option<string>,
    ascending: Option<bool>,
    single: Option<bool>)
    returns (q: SelectQuery)
    ensures SelectQueryFor(q, table, columns, filter, limit, offset, orderBy, ascending, single)
  {
    var cols := if columns.Some? then columns.value else "*";
    var asc := if ascending.Some? then ascending.value else true;
    var one := if single.Some? then single.value else false;
    var filters: seq<Eq> := [];
    if filter.Some? {
      filters := AddTypedFilters(filter.value);
    }
    var ordering := Ordering(if orderBy.Some? then orderBy.value else "id", asc);
    var range: Option<Range> := None;
    if offset.Some? {
      range := Some(PageRange(offset.value, limit));
    }
    q := SelectQuery(table, cols, filters, ordering, limit, range, one);
  }
}
