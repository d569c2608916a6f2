/**
 * The requests the data-access functions send to the backend: the row
 * writes, and the paginated, filtered transaction query.
 */
module Requests {
  import opened Common
  import opened Entities

  datatype Table =
    | TransactionsTable | CreditCardsTable | GoalsTable | ProfilesTable
    | AlertSettingsTable | PlannedExpensesTable
    | InvestmentAllocationsTable | InvestmentReturnsTable

  /**
   * The object a write sends. An absent `user_id`, `created_at` or `id` is
   * left out of the object, so the backend keeps or assigns that column.
   */
  datatype Columns =
    | TransactionColumns(
        user_id: Option<string>, description: string, subtitle: Nullable<string>,
        amount: real, kind: TransactionKind, category: Nullable<string>,
        created_at: Option<string>)
    | CreditCardColumns(
        user_id: Option<string>, name: string, holder_name: string, last_digits: string,
        limit_amount: real, available_amount: real,
        card_style: CardStyle)  // the `style` column
    | GoalColumns(
        user_id: Option<string>, title: string, target_amount: real, current_amount: real)
    | ProfileColumns(name: string, email: string)
    | AlertSettingsColumns(
        user_id: Option<string>, limit_percent: real, subscriptions_budget: real)
    | PlannedExpenseColumns(
        user_id: Option<string>, title: string, amount: real, frequency: string)
    | InvestmentColumns(
        id: Option<string>, user_id: Option<string>, labelText: string, percent: real,
        style: InvestmentStyle)

  /** One remote write: `insert`, `update(...).eq("id", id)`, `delete().eq("id", id)` or `upsert`. */
  datatype Write =
    | Insert(table: Table, columns: Columns)
    | UpdateWhereId(table: Table, id: string, columns: Columns)
    | DeleteWhereId(table: Table, id: string)
    | Upsert(table: Table, columns: Columns)

  /** A filter of the transaction query: `ilike`, `gte` or `lte` on a column. */
  datatype Filter =
    | ILike(column: string, pattern: string)
    | AtLeast(column: string, bound: string)
    | AtMost(column: string, bound: string)

  /**
   * `select("*", { count: "exact" }).order("created_at", { ascending: false })
   * .range(from, to)` followed by the filters; only the parts that vary are kept.
   */
  datatype TransactionQuery = TransactionQuery(from: int, to: int, filters: seq<Filter>)

  datatype QueryParams = QueryParams(
    search: Option<string>,
    category: Option<string>,
    startDate: Option<string>,
    endDate: Option<string>,
    page: Option<int>,
    pageSize: Option<int>)

  /** JavaScript truthiness of an optional string: present and not empty. */
  predicate Truthy(s: Option<string>) {
    s.Some? && s.value != ""
  }

  /** First row (inclusive) of a page; pages are numbered from 1. */
  function RangeStart(page: int, pageSize: int): int {
    (page - 1) * pageSize
  }

  /** Last row (inclusive) of a page. */
  function RangeEnd(page: int, pageSize: int): int {
    RangeStart(page, pageSize) + pageSize - 1
  }

  /** `%text%`: the substring pattern handed to `ilike`. */
  function Contains(text: string): string {
    "%" + text + "%"
  }

  ghost predicate IsSearchFilter(f: Filter) { f.ILike? && f.column == "description" }
  ghost predicate IsCategoryFilter(f: Filter) { f.ILike? && f.column == "category" }
  ghost predicate IsStartFilter(f: Filter) { f.AtLeast? && f.column == "created_at" }
  ghost predicate IsEndFilter(f: Filter) { f.AtMost? && f.column == "created_at" }

  /** How many of the four filter parameters are truthy. */
  ghost function TruthyCount(p: QueryParams): nat {
    (if Truthy(p.search) then 1 else 0) + (if Truthy(p.category) then 1 else 0)
    + (if Truthy(p.startDate) then 1 else 0) + (if Truthy(p.endDate) then 1 else 0)
  }

  /**
   * `q` is the query `queryTransactions` sends for `p`: the range of page
   * `page ?? 1` of size `pageSize ?? 10`, and exactly one filter for each
   * truthy filter parameter, carrying that parameter's value.
   */
  ghost predicate BuiltFrom(q: TransactionQuery, p: QueryParams) {
    && q.from == RangeStart(p.page.GetOr(1), p.pageSize.GetOr(10))
    && q.to == RangeEnd(p.page.GetOr(1), p.pageSize.GetOr(10))
    && (Truthy(p.search) ==> ILike("description", Contains(p.search.value)) in q.filters)
    && (Truthy(p.category) ==> ILike("category", Contains(p.category.value)) in q.filters)
    && (Truthy(p.startDate) ==> AtLeast("created_at", p.startDate.value) in q.filters)
    && (Truthy(p.endDate) ==> AtMost("created_at", p.endDate.value) in q.filters)
    && (forall f :: f in q.filters ==>
          && (IsSearchFilter(f) || IsCategoryFilter(f) || IsStartFilter(f) || IsEndFilter(f))
          && (IsSearchFilter(f) ==> Truthy(p.search))
          && (IsCategoryFilter(f) ==> Truthy(p.category))
          && (IsStartFilter(f) ==> Truthy(p.startDate))
          && (IsEndFilter(f) ==> Truthy(p.endDate)))
    && |q.filters| == TruthyCount(p)
  }

  /** The request part of `queryTransactions`: range first, then one conditional filter per parameter. */
  method BuildTransactionQuery(p: QueryParams) returns (q: TransactionQuery)
    ensures BuiltFrom(q, p)
    ensures q.to - q.from + 1 == p.pageSize.GetOr(10)
  {
    var page := p.page.GetOr(1);
    var pageSize := p.pageSize.GetOr(10);
    var from := (page - 1) * pageSize;
    var to := from + pageSize - 1;
    var filters: seq<Filter> := [];
    if Truthy(p.search) {
      filters := filters + [ILike("description", Contains(p.search.value))];
    }
    if Truthy(p.category) {
      filters := filters + [ILike("category", Contains(p.category.value))];
    }
    if Truthy(p.startDate) {
      filters := filters + [AtLeast("created_at", p.startDate.value)];
    }
    if Truthy(p.endDate) {
      filters := filters + [AtMost("created_at", p.endDate.value)];
    }
    q := TransactionQuery(from, to, filters);
  }

  /** With no parameters the query asks for rows 0 to 9, unfiltered. */
  lemma DefaultQuery(q: TransactionQuery)
    requires BuiltFrom(q, QueryParams(None, None, None, None, None, None))
    ensures q.from == 0 && q.to == 9 && q.filters == []
  {
  }

  /** Empty strings are falsy: they add no filter. */
  lemma EmptyStringsAddNothing(q: TransactionQuery, page: Option<int>, pageSize: Option<int>)
    requires BuiltFrom(q, QueryParams(Some(""), Some(""), Some(""), Some(""), page, pageSize))
    ensures q.filters == []
  {
  }

  /** Page `page + 1` starts on the row after the last row of page `page`. */
  lemma PagesAdjacent(page: int, pageSize: int)
    ensures RangeStart(page + 1, pageSize) == RangeEnd(page, pageSize) + 1
  {
  }

  /** With a positive page size, distinct pages do not overlap. */
  lemma PagesDisjoint(p1: int, p2: int, pageSize: int)
    requires pageSize > 0 && p1 < p2
    ensures RangeEnd(p1, pageSize) < RangeStart(p2, pageSize)
  {
  }

  /** Multiplying by a non-negative factor keeps the order. */
  lemma MulMonotone(a: int, b: int, c: int)
    requires a <= b && c >= 0
    ensures a * c <= b * c
  {
  }

  /** With a positive page size, every row from 0 on lies on exactly one page, page `row / pageSize + 1`. */
  lemma RowOnExactlyOnePage(row: int, pageSize: int, page: int)
    requires row >= 0 && pageSize > 0
    ensures RangeStart(page, pageSize) <= row <= RangeEnd(page, pageSize) <==> page == row / pageSize + 1
  {
    var k := row / pageSize;
    var r := row % pageSize;
    assert row == k * pageSize + r && 0 <= r < pageSize;
    assert RangeStart(page, pageSize) == page * pageSize - pageSize;
    assert RangeEnd(page, pageSize) == page * pageSize - 1;
    if page <= k {
      MulMonotone(page, k, pageSize);
    } else if page >= k + 2 {
      MulMonotone(k + 2, page, pageSize);
      assert (k + 2) * pageSize == k * pageSize + 2 * pageSize;
    } else {
      assert (k + 1) * pageSize == k * pageSize + pageSize;
    }
  }
}
