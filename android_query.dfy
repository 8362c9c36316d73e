/** How the Android plugin builds its PostgREST queries
    (CapacitorSupabasePlugin.kt `select`, `update`, `delete`): one equality
    predicate per filter key, optional ordering, limit and paging range. */
module AndroidQuery {
  import opened Bridge

  const MinInt32: int := -0x8000_0000
  const MaxInt32: int := 0x7fff_ffff

  /** Kotlin `Int`, the type `call.getInt` returns. */
  type Int32 = x: int | MinInt32 <= x <= MaxInt32

  /** Kotlin `Int` arithmetic: a result outside the 32-bit range wraps
      around modulo 2^32. */
  function WrapInt32(x: int): (r: Int32)
    ensures MinInt32 <= x <= MaxInt32 ==> r == x
    ensures (x - r) % 0x1_0000_0000 == 0
  {
    (x - MinInt32) % 0x1_0000_0000 + MinInt32
  }

  /** `eq(column, value)`: the raw value, whatever its type. */
  datatype Eq = Eq(column: string, value: JsValue)

  datatype Order = Ascending | Descending

  datatype Ordering = Ordering(column: string, order: Order)

  /** `range(from, to)`: the rows from index `from` to index `to`, inclusive. */
  datatype Range = Range(from: int, to: int)

  /** What `postgrest.from(table).select(Columns.raw(columns)) { ... }` is
      asked for. */
  datatype SelectQuery = SelectQuery(
    table: string,
    columns: string,
    filters: seq<Eq>,
    ordering: Option<Ordering>,
    limit: Option<int>,
    range: Option<Range>,
    single: bool)

  /** The page size assumed when an offset comes without a limit. */
  const DefaultPageSize: int := 1000

  function PageSize(limit: Option<Int32>): int {
    if limit.Some? then limit.value else DefaultPageSize
  }

  /** The paging range as the source computes it:
      `range(off.toLong(), (off + lim - 1).toLong())`, where the end is
      computed in 32-bit `Int` and only then widened. */
  function PageRangeAsWritten(off: Int32, limit: Option<Int32>): Range {
    var lim := PageSize(limit);
    Range(off, WrapInt32(WrapInt32(off + lim) - 1))
  }

  /** The paging range with the end computed in 64-bit `Long`, as the
      widening evidently intends: it starts at the offset and spans exactly
      the page size. */
  function PageRange(off: Int32, limit: Option<Int32>): (r: Range)
    ensures r.from == off
    ensures r.to - r.from + 1 == PageSize(limit)
  {
    Range(off, off + PageSize(limit) - 1)
  }

  /** While `offset + pageSize - 1` fits in an `Int`, the code as written
      computes the intended range. */
  lemma {:induction false} PageRangeAsWrittenAgrees(off: Int32, limit: Option<Int32>)
    requires MinInt32 <= off + PageSize(limit) - 1 <= MaxInt32
    ensures PageRangeAsWritten(off, limit) == PageRange(off, limit)
  {
    var lim := PageSize(limit);
    if off + lim == MaxInt32 + 1 {
      // `off + lim` wraps to Int.MIN_VALUE and subtracting one wraps it back
      assert WrapInt32(off + lim) == MinInt32;
      assert WrapInt32(MinInt32 - 1) == MaxInt32;
    }
  }

  /** Beyond that, the end wraps around: an offset of `Int.MAX_VALUE` with no
      limit asks for a range that ends 4294966296 rows before it starts. */
  lemma PageRangeAsWrittenWraps()
    ensures PageRangeAsWritten(MaxInt32, None) == Range(MaxInt32, -2147482650)
    ensures PageRange(MaxInt32, None) == Range(MaxInt32, 2147484646)
  {
  }

  /** `filters` holds one equality predicate per filter entry, in the order
      the entries are visited, each on that entry's key and raw value. */
  predicate OneEqPerEntry(filters: seq<Eq>, entries: Entries) {
    && |filters| == |entries|
    && forall i :: 0 <= i < |entries| ==> filters[i] == Eq(entries[i].0, entries[i].1)
  }

  /** The filter block: one `eq` per key of the filter object, visited in
      key order. */
  method AddEqFilters(entries: Entries) returns (filters: seq<Eq>)
    ensures OneEqPerEntry(filters, entries)
  {
    filters := [];
    var i := 0;
    while i < |entries|
      invariant 0 <= i <= |entries|
      invariant OneEqPerEntry(filters, entries[..i])
    {
      var (key, value) := entries[i];
      filters := filters + [Eq(key, value)];
      i := i + 1;
    }
  }

  /** What `select` asks for: the table; the columns, "*" when absent; one
      equality per filter entry, none when the filter is absent; an ordering
      exactly when `orderBy` is given, descending only for `ascending ==
      false`; the limit as given; a page range exactly when an offset is
      given; a single row only for `single == true`. */
  predicate SelectQueryFor(
    q: SelectQuery,
    table: string,
    columns: Option<string>,
    filter: Option<Entries>,
    limit: Option<Int32>,
    offset: Option<Int32>,
    orderBy: Option<string>,
    ascending: Option<bool>,
    single: Option<bool>)
  {
    && q.table == table
    && q.columns == (if columns.Some? then columns.value else "*")
    && (filter.None? ==> q.filters == [])
    && (filter.Some? ==> OneEqPerEntry(q.filters, filter.value))
    && (q.ordering.Some? <==> orderBy.Some?)
    && (orderBy.Some? ==> q.ordering.value.column == orderBy.value)
    && (orderBy.Some? ==> (q.ordering.value.order == Descending <==> ascending == Some(false)))
    && q.limit == (if limit.Some? then Some(limit.value as int) else None)
    && (q.range.Some? <==> offset.Some?)
    && (offset.Some? ==> q.range.value == PageRange(offset.value, limit))
    && (q.single <==> single == Some(true))
  }

  /** The query `select` builds from the call's options: columns default to
      "*", every filter entry becomes one equality predicate, ordering only
      when `orderBy` is given (ascending unless told otherwise), the limit
      as given, a paging range only when an offset is given, and single-row
      mode only when asked for. */
  method BuildSelectQuery(
    table: string,
    columns: Option<string>,
    filter: Option<Entries>,
    limit: Option<Int32>,
    offset: Option<Int32>,
    orderBy: Option<string>,
    ascending: Option<bool>,
    single: Option<bool>)
    returns (q: SelectQuery)
    ensures SelectQueryFor(q, table, columns, filter, limit, offset, orderBy, ascending, single)
  {
    var cols := if columns.Some? then columns.value else "*";
    var asc := if ascending.Some? then ascending.value else true;
    var one := if single.Some? then single.value else false;
    var filters: seq<Eq> := [];
    if filter.Some? {
      filters := AddEqFilters(filter.value);
    }
    var ordering: Option<Ordering> := None;
    if orderBy.Some? {
      ordering := Some(Ordering(orderBy.value, if asc then Ascending else Descending));
    }
    var lim: Option<int> := None;
    if limit.Some? {
      lim := Some(limit.value as int);
    }
    var range: Option<Range> := None;
    if offset.Some? {
      range := Some(PageRange(offset.value, limit));
    }
    q := SelectQuery(table, cols, filters, ordering, lim, range, one);
  }
}
