/**
 * Backend rows (snake_case columns, SQL null) and the pure mappers that
 * turn them into view models.
 */
module Mappers {
  import opened Common
  import opened Entities

  datatype TransactionRow = TransactionRow(
    id: string,
    description: string,
    subtitle: Nullable<string>,
    amount: real,
    kind: TransactionKind,  // the `type` column
    category: Nullable<string>,
    created_at: string)

  /** `style` is `Null` when the column is null or missing. */
  datatype CreditCardRow = CreditCardRow(
    id: string,
    name: string,
    holder_name: string,
    last_digits: string,
    limit_amount: real,
    available_amount: real,
    style: Nullable<CardStyle>)

  datatype GoalRow = GoalRow(
    id: string,
    title: string,
    target_amount: real,
    current_amount: real)

  datatype ProfileRow = ProfileRow(
    id: string,
    name: Nullable<string>,
    email: Nullable<string>,
    avatar_url: Nullable<string>)

  datatype AlertSettingsRow = AlertSettingsRow(
    id: string,
    user_id: string,
    limit_percent: real,
    subscriptions_budget: real)

  datatype PlannedExpenseRow = PlannedExpenseRow(
    id: string,
    title: string,
    amount: real,
    frequency: string)

  /** A row of `investment_allocations` or of `investment_returns`. */
  datatype InvestmentRow = InvestmentRow(
    id: string,
    labelText: string,  // the `label` column
    percent: real,
    style: Nullable<InvestmentStyle>)

  /** `rows.map(f)`. */
  function MapAll<R, V>(rows: seq<R>, f: R -> V): (r: seq<V>)
    ensures |r| == |rows|
    ensures forall i :: 0 <= i < |rows| ==> r[i] == f(rows[i])
  {
    if |rows| == 0 then [] else [f(rows[0])] + MapAll(rows[1..], f)
  }

  /** Null `subtitle`/`category` become absent; the other columns are copied, `created_at` as `createdAt`. */
  function MapTransaction(row: TransactionRow): (t: Transaction)
    ensures t.id == row.id && t.description == row.description && t.amount == row.amount
    ensures t.kind == row.kind && t.createdAt == row.created_at
    ensures t.subtitle.None? <==> row.subtitle.Null?
    ensures row.subtitle.NonNull? ==> t.subtitle == Some(row.subtitle.value)
    ensures t.category.None? <==> row.category.Null?
    ensures row.category.NonNull? ==> t.category == Some(row.category.value)
  {
    Transaction(row.id, row.description, row.subtitle.ToOption(), row.amount,
                row.kind, row.category.ToOption(), row.created_at)
  }

  /** A null or missing style becomes `Default`; a present one is kept. */
  function MapCreditCard(row: CreditCardRow): (c: CreditCard)
    ensures c.id == row.id && c.name == row.name
    ensures c.holderName == row.holder_name && c.lastDigits == row.last_digits
    ensures c.limitAmount == row.limit_amount && c.availableAmount == row.available_amount
    ensures row.style.Null? ==> c.style == Default
    ensures row.style.NonNull? ==> c.style == row.style.value
  {
    CreditCard(row.id, row.name, row.holder_name, row.last_digits,
               row.limit_amount, row.available_amount, row.style.OrElse(Default))
  }

  /**
   * `progress` is the percentage of the target reached, guarded against a
   * zero target; the style is always `Default`.
   */
  function MapGoal(row: GoalRow): (g: Goal)
    ensures g.id == row.id && g.title == row.title
    ensures g.currentAmount == row.current_amount && g.targetAmount == row.target_amount
    ensures row.target_amount == 0.0 ==> g.progress == 0.0
    ensures row.target_amount != 0.0 ==> g.progress * row.target_amount == row.current_amount * 100.0
    ensures g.style == Default
  {
    var progress := if row.target_amount != 0.0
      then (row.current_amount / row.target_amount) * 100.0
      else 0.0;
    Goal(row.id, row.title, row.current_amount, row.target_amount, progress, Default)
  }

  /** Null columns stay null; `avatar_url` becomes `avatarUrl`. */
  function MapProfile(row: ProfileRow): (p: Profile)
    ensures p.id == row.id && p.name == row.name && p.email == row.email
    ensures p.avatarUrl == row.avatar_url
  {
    Profile(row.id, row.name, row.email, row.avatar_url)
  }

  function MapPlannedExpense(row: PlannedExpenseRow): (e: PlannedExpense)
    ensures e.id == row.id && e.title == row.title
    ensures e.amount == row.amount && e.frequency == row.frequency
  {
    PlannedExpense(row.id, row.title, row.amount, row.frequency)
  }

  /** `mapAllocation` and `mapReturn`, which are identical: the style is always set, `Default` when the column is null. */
  function MapInvestment(row: InvestmentRow): (e: InvestmentEntry)
    ensures e.id == row.id && e.labelText == row.labelText && e.percent == row.percent
    ensures e.style.Some?
    ensures row.style.Null? ==> e.style == Some(Default)
    ensures row.style.NonNull? ==> e.style == Some(row.style.value)
  {
    InvestmentEntry(row.id, row.labelText, row.percent, Some(row.style.OrElse(Default)))
  }

  /** A goal with a positive target is reached (progress at least 100) exactly when its current amount reaches the target. */
  lemma GoalReached(row: GoalRow)
    requires row.target_amount > 0.0
    ensures MapGoal(row).progress >= 100.0 <==> row.current_amount >= row.target_amount
  {
  }

  /** The progress of a goal with a positive target has the sign of its current amount. */
  lemma GoalProgressSign(row: GoalRow)
    requires row.target_amount > 0.0
    ensures MapGoal(row).progress >= 0.0 <==> row.current_amount >= 0.0
  {
  }
}
