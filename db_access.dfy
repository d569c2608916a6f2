/**
 * The data-access functions: one remote call each, re-raising whatever
 * error the backend reports. The remote backend is an oracle: a value that
 * says who is signed in, which error (if any) it reports for a write, and
 * what each read returns.
 */
module DataAccess {
  import opened Common
  import opened Entities
  import opened Mappers
  import opened Requests

  /** What a data-access function raises. */
  datatype Error =
    | AuthError(message: string)     // thrown by the guard before any call
    | BackendError(message: string)  // the error object the backend returned

  const NotAuthenticated: Error := AuthError("Usuario nao autenticado.")

  /** The backend as seen from the data-access layer. */
  datatype Backend = Backend(
    user: Option<string>,
    writeError: Write -> Option<string>,
    transactionsNewestFirst: Result<seq<TransactionRow>, string>,
    transactionPage: TransactionQuery -> Result<(seq<TransactionRow>, Nullable<int>), string>,
    creditCards: Result<seq<CreditCardRow>, string>,
    goals: Result<seq<GoalRow>, string>,
    profile: string -> Result<ProfileRow, string>,
    alertSettings: string -> Result<Nullable<AlertSettingsRow>, string>,
    plannedExpenses: Result<seq<PlannedExpenseRow>, string>,
    investmentAllocations: Result<seq<InvestmentRow>, string>,
    investmentReturns: Result<seq<InvestmentRow>, string>)

  /** The writes a call issued, in order, and how it ended. */
  datatype Effect = Effect(issued: seq<Write>, result: Result<(), Error>)

  datatype TransactionPage = TransactionPage(data: seq<Transaction>, count: int)

  datatype TransactionPayload = TransactionPayload(
    description: string, subtitle: Option<string>, amount: real,
    kind: TransactionKind, category: Option<string>, created_at: Option<string>)

  datatype CreditCardPayload = CreditCardPayload(
    name: string, holder_name: string, last_digits: string,
    limit_amount: real, available_amount: real, style: Option<CardStyle>)

  datatype GoalPayload = GoalPayload(title: string, target_amount: real, current_amount: real)

  datatype PlannedExpensePayload = PlannedExpensePayload(title: string, amount: real, frequency: string)

  datatype InvestmentPayload = InvestmentPayload(
    id: Option<string>, labelText: string, percent: real, style: Option<InvestmentStyle>)

  /** `getUserId`: the signed-in user's id, or the not-authenticated error. */
  function GetUserId(b: Backend): (r: Result<string, Error>)
    ensures r.Failure? <==> b.user.None?
    ensures r.Failure? ==> r.error == NotAuthenticated
    ensures r.Success? ==> r.value == b.user.value
  {
    match b.user
    case None => Failure(NotAuthenticated)
    case Some(id) => Success(id)
  }

  /** One remote write; a reported error is re-raised. */
  function Send(b: Backend, w: Write): (r: Effect)
    ensures r.issued == [w]
    ensures r.result.Success? <==> b.writeError(w).None?
    ensures r.result.Failure? ==> r.result.error == BackendError(b.writeError(w).value)
  {
    match b.writeError(w)
    case None => Effect([w], Success(()))
    case Some(e) => Effect([w], Failure(BackendError(e)))
  }

  /** A guarded write fails with the not-authenticated error, having issued nothing, when nobody is signed in. */
  ghost predicate RefusedWithoutUser(b: Backend, r: Effect) {
    b.user.None? ==> r.issued == [] && r.result == Failure(NotAuthenticated)
  }

  /** A list read: the backend's error is re-raised, otherwise every row is mapped. */
  function FetchAll<R, V>(reply: Result<seq<R>, string>, f: R -> V): (r: Result<seq<V>, Error>)
    ensures r.Failure? <==> reply.Failure?
    ensures r.Failure? ==> r.error == BackendError(reply.error)
    ensures r.Success? ==> |r.value| == |reply.value|
    ensures r.Success? ==> forall i :: 0 <= i < |reply.value| ==> r.value[i] == f(reply.value[i])
  {
    match reply
    case Failure(e) => Failure(BackendError(e))
    case Success(rows) => Success(MapAll(rows, f))
  }

  // ---------------------------------------------------------------------
  // Write payloads

  function TransactionColumnsOf(user: Option<string>, p: TransactionPayload): (c: Columns)
    ensures c.TransactionColumns? && c.user_id == user
    ensures c.subtitle.Null? <==> p.subtitle.None?
    ensures c.category.Null? <==> p.category.None?
  {
    TransactionColumns(user, p.description, FromOption(p.subtitle), p.amount, p.kind,
                       FromOption(p.category), p.created_at)
  }

  function CreditCardColumnsOf(user: Option<string>, p: CreditCardPayload): (c: Columns)
    ensures c.CreditCardColumns? && c.user_id == user
    ensures c.name == p.name && c.holder_name == p.holder_name && c.last_digits == p.last_digits
    ensures c.limit_amount == p.limit_amount && c.available_amount == p.available_amount
    ensures p.style.None? ==> c.card_style == Default
    ensures p.style.Some? ==> c.card_style == p.style.value
  {
    CreditCardColumns(user, p.name, p.holder_name, p.last_digits, p.limit_amount,
                      p.available_amount, p.style.GetOr(Default))
  }

  function GoalColumnsOf(user: Option<string>, p: GoalPayload): (c: Columns)
    ensures c.GoalColumns? && c.user_id == user && c.title == p.title
    ensures c.target_amount == p.target_amount && c.current_amount == p.current_amount
  {
    GoalColumns(user, p.title, p.target_amount, p.current_amount)
  }

  function PlannedExpenseColumnsOf(user: Option<string>, p: PlannedExpensePayload): (c: Columns)
    ensures c.PlannedExpenseColumns? && c.user_id == user && c.title == p.title
    ensures c.amount == p.amount && c.frequency == p.frequency
  {
    PlannedExpenseColumns(user, p.title, p.amount, p.frequency)
  }

  function InvestmentColumnsOf(user: string, p: InvestmentPayload): (c: Columns)
    ensures c.InvestmentColumns? && c.id == p.id && c.user_id == Some(user)
    ensures p.style.None? ==> c.style == Default
    ensures p.style.Some? ==> c.style == p.style.value
  {
    InvestmentColumns(p.id, Some(user), p.labelText, p.percent, p.style.GetOr(Default))
  }

  // ---------------------------------------------------------------------
  // Transactions

  function FetchTransactions(b: Backend): (r: Result<seq<Transaction>, Error>)
    ensures r.Failure? <==> b.transactionsNewestFirst.Failure?
    ensures r.Success? ==> r.value == MapAll(b.transactionsNewestFirst.value, MapTransaction)
  {
    FetchAll(b.transactionsNewestFirst, MapTransaction)
  }

  /**
   * `queryTransactions`: sends the query built from `p` and returns the
   * mapped page with the backend's exact count, 0 when it gives none.
   */
  method QueryTransactions(b: Backend, p: QueryParams) returns (q: TransactionQuery, r: Result<TransactionPage, Error>)
    ensures BuiltFrom(q, p)
    ensures r.Failure? <==> b.transactionPage(q).Failure?
    ensures r.Failure? ==> r.error == BackendError(b.transactionPage(q).error)
    ensures r.Success? ==> r.value.data == MapAll(b.transactionPage(q).value.0, MapTransaction)
    ensures r.Success? && b.transactionPage(q).value.1.Null? ==> r.value.count == 0
    ensures r.Success? && b.transactionPage(q).value.1.NonNull? ==>
              r.value.count == b.transactionPage(q).value.1.value
  {
    q := BuildTransactionQuery(p);
    var reply := b.transactionPage(q);
    match reply
    case Failure(e) =>
      r := Failure(BackendError(e));
    case Success(answer) =>
      var (rows, count) := answer;
      r := Success(TransactionPage(MapAll(rows, MapTransaction), count.OrElse(0)));
  }

  /** `createTransaction`: as the signed-in user, inserts the payload with absent optionals as null. */
  function CreateTransaction(b: Backend, p: TransactionPayload): (r: Effect)
    ensures RefusedWithoutUser(b, r)
    ensures b.user.Some? ==> r == Send(b, Insert(TransactionsTable, TransactionColumnsOf(b.user, p)))
  {
    match GetUserId(b)
    case Failure(e) => Effect([], Failure(e))
    case Success(uid) => Send(b, Insert(TransactionsTable, TransactionColumnsOf(Some(uid), p)))
  }

  /** `updateTransaction`: no guard; updates the row with the id. */
  function UpdateTransaction(b: Backend, id: string, p: TransactionPayload): (r: Effect)
    ensures r.issued == [UpdateWhereId(TransactionsTable, id, TransactionColumnsOf(None, p))]
    ensures r.result.Success? <==> b.writeError(r.issued[0]).None?
  {
    Send(b, UpdateWhereId(TransactionsTable, id, TransactionColumnsOf(None, p)))
  }

  function DeleteTransaction(b: Backend, id: string): (r: Effect)
    ensures r.issued == [DeleteWhereId(TransactionsTable, id)]
    ensures r.result.Success? <==> b.writeError(r.issued[0]).None?
  {
    Send(b, DeleteWhereId(TransactionsTable, id))
  }

  // ---------------------------------------------------------------------
  // Credit cards

  function FetchCreditCards(b: Backend): (r: Result<seq<CreditCard>, Error>)
    ensures r.Failure? <==> b.creditCards.Failure?
    ensures r.Success? ==> r.value == MapAll(b.creditCards.value, MapCreditCard)
  {
    FetchAll(b.creditCards, MapCreditCard)
  }

  function CreateCreditCard(b: Backend, p: CreditCardPayload): (r: Effect)
    ensures RefusedWithoutUser(b, r)
    ensures b.user.Some? ==> r == Send(b, Insert(CreditCardsTable, CreditCardColumnsOf(b.user, p)))
  {
    match GetUserId(b)
    case Failure(e) => Effect([], Failure(e))
    case Success(uid) => Send(b, Insert(CreditCardsTable, CreditCardColumnsOf(Some(uid), p)))
  }

  function UpdateCreditCard(b: Backend, id: string, p: CreditCardPayload): (r: Effect)
    ensures r.issued == [UpdateWhereId(CreditCardsTable, id, CreditCardColumnsOf(None, p))]
    ensures r.result.Success? <==> b.writeError(r.issued[0]).None?
  {
    Send(b, UpdateWhereId(CreditCardsTable, id, CreditCardColumnsOf(None, p)))
  }

  function DeleteCreditCard(b: Backend, id: string): (r: Effect)
    ensures r.issued == [DeleteWhereId(CreditCardsTable, id)]
    ensures r.result.Success? <==> b.writeError(r.issued[0]).None?
  {
    Send(b, DeleteWhereId(CreditCardsTable, id))
  }

  // ---------------------------------------------------------------------
  // Goals

  function FetchGoals(b: Backend): (r: Result<seq<Goal>, Error>)
    ensures r.Failure? <==> b.goals.Failure?
    ensures r.Success? ==> r.value == MapAll(b.goals.value, MapGoal)
  {
    FetchAll(b.goals, MapGoal)
  }

  function CreateGoal(b: Backend, p: GoalPayload): (r: Effect)
    ensures RefusedWithoutUser(b, r)
    ensures b.user.Some? ==> r == Send(b, Insert(GoalsTable, GoalColumnsOf(b.user, p)))
  {
    match GetUserId(b)
    case Failure(e) => Effect([], Failure(e))
    case Success(uid) => Send(b, Insert(GoalsTable, GoalColumnsOf(Some(uid), p)))
  }

  function UpdateGoal(b: Backend, id: string, p: GoalPayload): (r: Effect)
    ensures r.issued == [UpdateWhereId(GoalsTable, id, GoalColumnsOf(None, p))]
    ensures r.result.Success? <==> b.writeError(r.issued[0]).None?
  {
    Send(b, UpdateWhereId(GoalsTable, id, GoalColumnsOf(None, p)))
  }

  function DeleteGoal(b: Backend, id: string): (r: Effect)
    ensures r.issued == [DeleteWhereId(GoalsTable, id)]
    ensures r.result.Success? <==> b.writeError(r.issued[0]).None?
  {
    Send(b, DeleteWhereId(GoalsTable, id))
  }

  // ---------------------------------------------------------------------
  // Profile and alert settings

  /** `fetchProfile`: `.single()` fails unless exactly one row matches; that error is re-raised. */
  function FetchProfile(b: Backend, userId: string): (r: Result<Profile, Error>)
    ensures r.Failure? <==> b.profile(userId).Failure?
    ensures r.Failure? ==> r.error == BackendError(b.profile(userId).error)
    ensures r.Success? ==> r.value == MapProfile(b.profile(userId).value)
  {
    match b.profile(userId)
    case Failure(e) => Failure(BackendError(e))
    case Success(row) => Success(MapProfile(row))
  }

  function UpdateProfile(b: Backend, id: string, name: string, email: string): (r: Effect)
    ensures r.issued == [UpdateWhereId(ProfilesTable, id, ProfileColumns(name, email))]
    ensures r.result.Success? <==> b.writeError(r.issued[0]).None?
  {
    Send(b, UpdateWhereId(ProfilesTable, id, ProfileColumns(name, email)))
  }

  /**
   * `fetchAlertSettings`: needs a signed-in user; no row gives the default
   * `{70, 210}`, a row gives its two columns.
   */
  function FetchAlertSettings(b: Backend): (r: Result<AlertSettings, Error>)
    ensures b.user.None? ==> r == Failure(NotAuthenticated)
    ensures b.user.Some? && b.alertSettings(b.user.value).Failure? ==>
              r == Failure(BackendError(b.alertSettings(b.user.value).error))
    ensures b.user.Some? && b.alertSettings(b.user.value) == Success(Null) ==>
              r == Success(AlertSettings(70.0, 210.0))
    ensures b.user.Some? && b.alertSettings(b.user.value).Success?
            && b.alertSettings(b.user.value).value.NonNull? ==>
              var row := b.alertSettings(b.user.value).value.value;
              r == Success(AlertSettings(row.limit_percent, row.subscriptions_budget))
  {
    match GetUserId(b)
    case Failure(e) => Failure(e)
    case Success(uid) =>
      match b.alertSettings(uid)
      case Failure(e) => Failure(BackendError(e))
      case Success(Null) => Success(DefaultAlertSettings)
      case Success(NonNull(row)) => Success(AlertSettings(row.limit_percent, row.subscriptions_budget))
  }

  function UpsertAlertSettings(b: Backend, s: AlertSettings): (r: Effect)
    ensures RefusedWithoutUser(b, r)
    ensures b.user.Some? ==>
              r == Send(b, Upsert(AlertSettingsTable,
                                 AlertSettingsColumns(b.user, s.limitPercent, s.subscriptionsBudget)))
  {
    match GetUserId(b)
    case Failure(e) => Effect([], Failure(e))
    case Success(uid) =>
      Send(b, Upsert(AlertSettingsTable, AlertSettingsColumns(Some(uid), s.limitPercent, s.subscriptionsBudget)))
  }

  // ---------------------------------------------------------------------
  // Planned expenses

  function FetchPlannedExpenses(b: Backend): (r: Result<seq<PlannedExpense>, Error>)
    ensures r.Failure? <==> b.plannedExpenses.Failure?
    ensures r.Success? ==> r.value == MapAll(b.plannedExpenses.value, MapPlannedExpense)
  {
    FetchAll(b.plannedExpenses, MapPlannedExpense)
  }

  function CreatePlannedExpense(b: Backend, p: PlannedExpensePayload): (r: Effect)
    ensures RefusedWithoutUser(b, r)
    ensures b.user.Some? ==> r == Send(b, Insert(PlannedExpensesTable, PlannedExpenseColumnsOf(b.user, p)))
  {
    match GetUserId(b)
    case Failure(e) => Effect([], Failure(e))
    case Success(uid) => Send(b, Insert(PlannedExpensesTable, PlannedExpenseColumnsOf(Some(uid), p)))
  }

  function UpdatePlannedExpense(b: Backend, id: string, p: PlannedExpensePayload): (r: Effect)
    ensures r.issued == [UpdateWhereId(PlannedExpensesTable, id, PlannedExpenseColumnsOf(None, p))]
    ensures r.result.Success? <==> b.writeError(r.issued[0]).None?
  {
    Send(b, UpdateWhereId(PlannedExpensesTable, id, PlannedExpenseColumnsOf(None, p)))
  }

  function DeletePlannedExpense(b: Backend, id: string): (r: Effect)
    ensures r.issued == [DeleteWhereId(PlannedExpensesTable, id)]
    ensures r.result.Success? <==> b.writeError(r.issued[0]).None?
  {
    Send(b, DeleteWhereId(PlannedExpensesTable, id))
  }

  // ---------------------------------------------------------------------
  // Investment allocations and returns

  function FetchInvestmentAllocations(b: Backend): (r: Result<seq<InvestmentAllocation>, Error>)
    ensures r.Failure? <==> b.investmentAllocations.Failure?
    ensures r.Success? ==> r.value == MapAll(b.investmentAllocations.value, MapInvestment)
  {
    FetchAll(b.investmentAllocations, MapInvestment)
  }

  function UpsertInvestmentAllocation(b: Backend, p: InvestmentPayload): (r: Effect)
    ensures RefusedWithoutUser(b, r)
    ensures b.user.Some? ==>
              r == Send(b, Upsert(InvestmentAllocationsTable, InvestmentColumnsOf(b.user.value, p)))
  {
    match GetUserId(b)
    case Failure(e) => Effect([], Failure(e))
    case Success(uid) => Send(b, Upsert(InvestmentAllocationsTable, InvestmentColumnsOf(uid, p)))
  }

  function DeleteInvestmentAllocation(b: Backend, id: string): (r: Effect)
    ensures r.issued == [DeleteWhereId(InvestmentAllocationsTable, id)]
    ensures r.result.Success? <==> b.writeError(r.issued[0]).None?
  {
    Send(b, DeleteWhereId(InvestmentAllocationsTable, id))
  }

  function FetchInvestmentReturns(b: Backend): (r: Result<seq<InvestmentReturn>, Error>)
    ensures r.Failure? <==> b.investmentReturns.Failure?
    ensures r.Success? ==> r.value == MapAll(b.investmentReturns.value, MapInvestment)
  {
    FetchAll(b.investmentReturns, MapInvestment)
  }

  function UpsertInvestmentReturn(b: Backend, p: InvestmentPayload): (r: Effect)
    ensures RefusedWithoutUser(b, r)
    ensures b.user.Some? ==>
              r == Send(b, Upsert(InvestmentReturnsTable, InvestmentColumnsOf(b.user.value, p)))
  {
    match GetUserId(b)
    case Failure(e) => Effect([], Failure(e))
    case Success(uid) => Send(b, Upsert(InvestmentReturnsTable, InvestmentColumnsOf(uid, p)))
  }

  function DeleteInvestmentReturn(b: Backend, id: string): (r: Effect)
    ensures r.issued == [DeleteWhereId(InvestmentReturnsTable, id)]
    ensures r.result.Success? <==> b.writeError(r.issued[0]).None?
  {
    Send(b, DeleteWhereId(InvestmentReturnsTable, id))
  }

  // ---------------------------------------------------------------------
  // Written rows read back
  //
  // A table keeps the columns a write sends and fills in what the write
  // leaves out: the id it assigns and, for a transaction without
  // `created_at`, the current time.

  function StoredTransaction(c: Columns, id: string, now: string): TransactionRow
    requires c.TransactionColumns?
  {
    TransactionRow(id, c.description, c.subtitle, c.amount, c.kind, c.category, c.created_at.GetOr(now))
  }

  function StoredCreditCard(c: Columns, id: string): CreditCardRow
    requires c.CreditCardColumns?
  {
    CreditCardRow(id, c.name, c.holder_name, c.last_digits, c.limit_amount, c.available_amount, NonNull(c.card_style))
  }

  function StoredInvestment(c: Columns, id: string): InvestmentRow
    requires c.InvestmentColumns?
  {
    InvestmentRow(c.id.GetOr(id), c.labelText, c.percent, NonNull(c.style))
  }

  function StoredAlertSettings(c: Columns, rowId: string): AlertSettingsRow
    requires c.AlertSettingsColumns? && c.user_id.Some?
  {
    AlertSettingsRow(rowId, c.user_id.value, c.limit_percent, c.subscriptions_budget)
  }

  /**
   * A created transaction reads back as its payload: absent optionals went
   * out as null and come back absent.
   */
  lemma CreatedTransactionReadsBack(b: Backend, p: TransactionPayload, id: string, now: string)
    requires b.user.Some?
    ensures CreateTransaction(b, p).issued == [Insert(TransactionsTable, TransactionColumnsOf(b.user, p))]
    ensures MapTransaction(StoredTransaction(TransactionColumnsOf(b.user, p), id, now))
            == Transaction(id, p.description, p.subtitle, p.amount, p.kind, p.category, p.created_at.GetOr(now))
  {
  }

  /** An expense of -50 created as "Mercado" is listed with amount -50 and type expense. */
  lemma MercadoScenario(b: Backend, id: string, now: string)
    requires b.user.Some?
    ensures var p := TransactionPayload("Mercado", None, -50.0, Expense, None, None);
            var t := MapTransaction(StoredTransaction(TransactionColumnsOf(b.user, p), id, now));
            t.amount == -50.0 && t.kind == Expense && t.description == "Mercado"
  {
  }

  /** A card created without a style is listed with style `Default`, as is one read with a null style. */
  lemma CreatedCardStyle(user: Option<string>, p: CreditCardPayload, id: string)
    ensures MapCreditCard(StoredCreditCard(CreditCardColumnsOf(user, p), id)).style == p.style.GetOr(Default)
  {
  }

  /** An upserted investment entry reads back with its payload and a style always set. */
  lemma UpsertedInvestmentReadsBack(user: string, p: InvestmentPayload, id: string)
    ensures MapInvestment(StoredInvestment(InvestmentColumnsOf(user, p), id))
            == InvestmentEntry(p.id.GetOr(id), p.labelText, p.percent, Some(p.style.GetOr(Default)))
  {
  }

  /** Upserted alert settings are what the next fetch returns, once the backend holds the row. */
  lemma AlertSettingsRoundTrip(b: Backend, s: AlertSettings, rowId: string)
    requires b.user.Some?
    requires b.alertSettings(b.user.value)
             == Success(NonNull(StoredAlertSettings(
                  AlertSettingsColumns(b.user, s.limitPercent, s.subscriptionsBudget), rowId)))
    ensures UpsertAlertSettings(b, s).issued
            == [Upsert(AlertSettingsTable, AlertSettingsColumns(b.user, s.limitPercent, s.subscriptionsBudget))]
    ensures FetchAlertSettings(b) == Success(s)
  {
  }

  /** Without a signed-in user, no guarded write issues anything and each fails with the same error. */
  lemma GuardedWritesNeedUser(b: Backend, t: TransactionPayload, c: CreditCardPayload, g: GoalPayload,
                              e: PlannedExpensePayload, i: InvestmentPayload, s: AlertSettings)
    requires b.user.None?
    ensures CreateTransaction(b, t) == Effect([], Failure(NotAuthenticated))
    ensures CreateCreditCard(b, c) == Effect([], Failure(NotAuthenticated))
    ensures CreateGoal(b, g) == Effect([], Failure(NotAuthenticated))
    ensures CreatePlannedExpense(b, e) == Effect([], Failure(NotAuthenticated))
    ensures UpsertInvestmentAllocation(b, i) == Effect([], Failure(NotAuthenticated))
    ensures UpsertInvestmentReturn(b, i) == Effect([], Failure(NotAuthenticated))
    ensures UpsertAlertSettings(b, s) == Effect([], Failure(NotAuthenticated))
    ensures FetchAlertSettings(b) == Failure(NotAuthenticated)
    ensures NotAuthenticated.message == "Usuario nao autenticado."
  {
  }
}
