/** The vault: the figures it shows for the selected date, the validation of
    the expense form, and which controls are available on which date. */
module Vault {
  import opened Types
  import Budget
  import App

  /** What `Number(amount)` makes of the amount field: an empty field, text
      that is not a number, or a (whole) number. */
  datatype AmountField = Blank | NotANumber | Number(value: int)

  /** `handleLog`: the amount forwarded to the expense handler, if any. An
      empty field, a non-number and anything not above zero are dropped;
      anything else goes through unchanged. */
  function HandleLog(field: AmountField): (r: Option<int>)
    ensures r.Some? <==> field.Number? && field.value > 0
    ensures r.Some? ==> r.value == field.value && r.value > 0
  {
    match field
    case Blank => None
    case NotANumber => None
    case Number(v) => if v <= 0 then None else Some(v)
  }

  /** `limitToday`. */
  function Limit(p: Profile): int {
    Budget.LimitToday(p.monthlyIncome, p.dailySavingsBalance)
  }

  /** `remainingToday`: today's limit minus what was spent on the date being
      viewed (today's limit is used whatever date is viewed). */
  function Remaining(p: Profile, ts: seq<Transaction>, viewDate: DateKey): int {
    Limit(p) - Budget.SpentOn(ts, viewDate)
  }

  /** `remainingMonthTotal`. */
  function RemainingMonth(p: Profile): int {
    p.monthlyIncome - p.totalSpentThisMonth
  }

  /** The expense form is rendered only while today is viewed. */
  predicate EntryFormShown(viewDate: DateKey, today: DateKey) {
    viewDate == today
  }

  /** The forward arrow is disabled on today. */
  predicate ForwardEnabled(viewDate: DateKey, today: DateKey) {
    viewDate != today
  }

  /** Submitting the form: through `handleLog` into the app's expense handler. */
  function Submit(s: App.AppState, field: AmountField, note: string, category: string,
                  txId: Id, now: int, today: DateKey): App.AppState
  {
    match HandleLog(field)
    case None => s
    case Some(v) => App.ExpenseLogged(s, v, note, category, txId, now, today)
  }

  /** Every amount in the ledger is positive. */
  predicate PositiveLedger(ts: seq<Transaction>) {
    forall i :: 0 <= i < |ts| ==> ts[i].amount > 0
  }

  /** Right after an expense, the penalty verdict and the figure the vault
      shows for today agree: over the limit exactly when today's remaining
      amount is negative. The remaining amount for today drops by exactly the
      amount, other dates' figures do not move, and the month's remainder
      drops by the amount too. */
  lemma ExpenseMatchesRemaining(s: App.AppState, amount: int, note: string, category: string,
                                txId: Id, now: int, today: DateKey, other: DateKey)
    requires other != today
    ensures var r := App.ExpenseLogged(s, amount, note, category, txId, now, today);
      && (App.IsOver(s, amount, today) <==> Remaining(r.profile, r.transactions, today) < 0)
      && (r.profile.hasPenalty <==> Remaining(r.profile, r.transactions, today) < 0)
      && Remaining(r.profile, r.transactions, today) == Remaining(s.profile, s.transactions, today) - amount
      && Remaining(r.profile, r.transactions, other) == Remaining(s.profile, s.transactions, other)
      && RemainingMonth(r.profile) == RemainingMonth(s.profile) - amount
  {
    var r := App.ExpenseLogged(s, amount, note, category, txId, now, today);
    assert r.transactions == [r.transactions[0]] + s.transactions;
    Budget.SpentOnPrepend(r.transactions[0], s.transactions, today);
    Budget.SpentOnPrepend(r.transactions[0], s.transactions, other);
  }

  /** The form keeps the ledger positive: a submission either changes
      nothing or adds one positive amount, so no daily sum is ever negative
      and spending on any date never falls. */
  lemma SubmitKeepsLedgerPositive(s: App.AppState, field: AmountField, note: string, category: string,
                                  txId: Id, now: int, today: DateKey, day: DateKey)
    requires PositiveLedger(s.transactions)
    ensures var r := Submit(s, field, note, category, txId, now, today);
      && PositiveLedger(r.transactions)
      && Budget.SpentOn(r.transactions, day) >= Budget.SpentOn(s.transactions, day) >= 0
      && (HandleLog(field).None? ==> r == s)
      && (HandleLog(field).Some? ==> |r.transactions| == |s.transactions| + 1)
  {
    var r := Submit(s, field, note, category, txId, now, today);
    Budget.SpentOnNonNegative(s.transactions, day);
    if HandleLog(field).Some? {
      assert r.transactions == [r.transactions[0]] + s.transactions;
      Budget.SpentOnPrepend(r.transactions[0], s.transactions, day);
    }
  }

  /** The form is offered exactly on the date where going forward is not. */
  lemma FormOnlyOnToday(viewDate: DateKey, today: DateKey)
    ensures EntryFormShown(viewDate, today) <==> !ForwardEnabled(viewDate, today)
    ensures EntryFormShown(today, today)
  {
  }
}
