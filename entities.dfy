/**
 * The view models the dashboard renders: the camelCase, defaulted records
 * produced from backend rows or kept in local storage. Amounts and
 * percentages are exact reals; the floating-point numbers of the
 * JavaScript runtime are not modelled.
 */
module Entities {
  import opened Common

  /** Visual variant of a card, a goal or an investment bar. */
  datatype Style = Default | Alt | Dark | Soft

  /** The styles a credit card may have: `"default" | "alt" | "dark"`. */
  type CardStyle = s: Style | s != Soft witness Default

  /** The styles an investment entry may have: `"default" | "alt" | "soft"`. */
  type InvestmentStyle = s: Style | s != Dark witness Default

  datatype TransactionKind = Income | Expense

  datatype Transaction = Transaction(
    id: string,
    description: string,
    subtitle: Option<string>,
    amount: real,
    kind: TransactionKind,
    category: Option<string>,
    createdAt: string)

  datatype CreditCard = CreditCard(
    id: string,
    name: string,
    holderName: string,
    lastDigits: string,
    limitAmount: real,
    availableAmount: real,
    style: CardStyle)

  datatype Goal = Goal(
    id: string,
    title: string,
    currentAmount: real,
    targetAmount: real,
    progress: real,
    style: Style)

  /** Profile keeps SQL null in its fields, unlike the other view models. */
  datatype Profile = Profile(
    id: string,
    name: Nullable<string>,
    email: Nullable<string>,
    avatarUrl: Nullable<string>)

  datatype PlannedExpense = PlannedExpense(
    id: string,
    title: string,
    amount: real,
    frequency: string)

  /**
   * An investment allocation or an investment return: both have this shape.
   * `style` is optional where the record is kept in local storage; the
   * backend mapper always fills it in.
   */
  datatype InvestmentEntry = InvestmentEntry(
    id: string,
    labelText: string,  // `label` in the source; `label` is a Dafny keyword
    percent: real,
    style: Option<InvestmentStyle>)

  type InvestmentAllocation = InvestmentEntry
  type InvestmentReturn = InvestmentEntry

  datatype AlertSettings = AlertSettings(limitPercent: real, subscriptionsBudget: real)

  /** The alert settings used when none are stored. */
  const DefaultAlertSettings: AlertSettings := AlertSettings(70.0, 210.0)
}
