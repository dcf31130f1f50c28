/**
 * The generic read hook `useFetchData(table, columns, filters, limit, orderBy)`
 * (src/Supabase/useFetchData.js): how the query is assembled from its parameters,
 * when the effect re-runs, and how `data`, `loading` and `error` change when a
 * request completes. What the remote store does with the query is not modelled.
 */
module Query {
  import opened Common

  /** A JSON value a filter compares a column with. */
  datatype Value = Null | Bool(b: bool) | Num(n: int) | Str(s: string)

  /** `{ column, value, operator }`; the operator may be left out. */
  datatype Filter = Filter(column: string, value: Value, operator: Option<string>)

  /** `{ column, ascending }`; `ascending` may be left out. */
  datatype OrderBy = OrderBy(column: string, ascending: Option<bool>)

  /** The hook's parameters, which are also the dependencies of its effect. */
  datatype QuerySpec = QuerySpec(
    table: string,
    columns: string,
    filters: seq<Filter>,
    limit: Option<int>,
    orderBy: Option<OrderBy>)

  /** One builder call of the query: `.from(t).select(c)`, `.<op>(column, value)`, `.order(...)`, `.limit(n)`. */
  datatype Step =
    | Select(table: string, columns: string)
    | Where(operator: string, column: string, value: Value)
    | Order(column: string, ascending: bool)
    | Limit(count: int)

  /** `filter.operator || 'eq'`: an absent or empty operator means equality. */
  function OperatorOf(f: Filter): (op: string)
    ensures op != ""
    ensures f.operator.Some? && f.operator.value != "" ==> op == f.operator.value
    ensures f.operator.None? || f.operator.value == "" ==> op == "eq"
  {
    if f.operator.None? || f.operator.value == "" then "eq" else f.operator.value
  }

  /** `orderBy.ascending ?? true` */
  function AscendingOf(o: OrderBy): (asc: bool)
    ensures o.ascending.None? ==> asc
    ensures o.ascending.Some? ==> asc == o.ascending.value
  {
    if o.ascending.Some? then o.ascending.value else true
  }

  /**
   * The query the effect sends: the select step, then one step per filter in list
   * order, then the ordering if `orderBy !== null`, then the limit if `limit !== null`.
   */
  method BuildQuery(q: QuerySpec) returns (steps: seq<Step>)
    ensures |steps| == 1 + |q.filters| + (if q.orderBy.Some? then 1 else 0) + (if q.limit.Some? then 1 else 0)
    ensures steps[0] == Select(q.table, q.columns)
    ensures forall i :: 0 <= i < |q.filters| ==>
              steps[1 + i] == Where(OperatorOf(q.filters[i]), q.filters[i].column, q.filters[i].value)
    ensures q.orderBy.Some? ==> steps[1 + |q.filters|] == Order(q.orderBy.value.column, AscendingOf(q.orderBy.value))
    ensures q.limit.Some? ==> steps[|steps| - 1] == Limit(q.limit.value)
  {
    steps := [Select(q.table, q.columns)];
    for i := 0 to |q.filters|
      invariant |steps| == 1 + i
      invariant steps[0] == Select(q.table, q.columns)
      invariant forall k :: 0 <= k < i ==>
                  steps[1 + k] == Where(OperatorOf(q.filters[k]), q.filters[k].column, q.filters[k].value)
    {
      var f := q.filters[i];
      steps := steps + [Where(OperatorOf(f), f.column, f.value)];
    }
    if q.orderBy.Some? {
      steps := steps + [Order(q.orderBy.value.column, AscendingOf(q.orderBy.value))];
    }
    if q.limit.Some? {
      steps := steps + [Limit(q.limit.value)];
    }
  }

  /**
   * The hook's default arguments: `columns = "*"` when the caller passes none, and no
   * filters, no limit and no ordering when the caller stops after the columns, as the
   * payment-method fetch does.
   */
  function DefaultSpec(table: string, columns: Option<string>): (q: QuerySpec)
    ensures q.table == table
    ensures columns.None? ==> q.columns == "*"
    ensures columns.Some? ==> q.columns == columns.value
    ensures q.filters == [] && q.limit.None? && q.orderBy.None?
  {
    QuerySpec(table, if columns.Some? then columns.value else "*", [], None, None)
  }

  /** With only the defaults, the query is the bare select of the table. */
  method DefaultQuery(table: string, columns: Option<string>) returns (steps: seq<Step>)
    ensures steps == [Select(table, DefaultSpec(table, columns).columns)]
  {
    steps := BuildQuery(DefaultSpec(table, columns));
  }

  /** What a request resolves to: `{ data }` or `{ error }`. */
  datatype Response<T> = Rows(rows: seq<T>) | Failed(message: string)

  /**
   * The state of one `useFetchData` call site. `ran` holds the dependency values the
   * effect last ran with; filters and ordering are compared by value (their JSON
   * text in the source), so an equal filter list built afresh on every render does
   * not start another request.
   */
  class FetchState<T> {
    var data: seq<T>
    var loading: bool
    var error: Option<string>
    var ran: Option<QuerySpec>

    /** `useState([])`, `useState(true)`, `useState(null)`; the effect has not run yet. */
    constructor ()
      ensures data == [] && loading && error == None && ran == None
    {
      data, loading, error, ran := [], true, None, None;
    }

    /**
     * A render with parameters `q`: the effect (and so a new request) runs on the
     * first render and whenever some dependency differs from the last run. Starting a
     * request leaves `loading` as it is (the source never sets it back to true).
     */
    method Render(q: QuerySpec) returns (runs: bool)
      modifies this`ran
      ensures runs <==> old(ran) != Some(q)
      ensures ran == Some(q)
      ensures data == old(data) && loading == old(loading) && error == old(error)
    {
      runs := ran != Some(q);
      ran := Some(q);
    }

    /**
     * A request resolves. An error is recorded and the rows are kept; rows replace
     * `data` and leave an earlier error in place. Either way loading is over.
     */
    method Complete(response: Response<T>)
      modifies this`data, this`loading, this`error
      ensures !loading
      ensures response.Failed? ==> error == Some(response.message) && data == old(data)
      ensures response.Rows? ==> data == response.rows && error == old(error)
    {
      match response {
        case Failed(message) =>
          error := Some(message);
        case Rows(rows) =>
          data := rows;
      }
      loading := false;
    }
  }
}
