/**
 The failure taxonomy of the order-budget check and a declarative statement
 of when each failure applies.

 Each failure kind has a trigger that reads the quote without regard to
 order; the validator reports the first triggered kind in `Precedence`,
 unless the company holds the unlimited permission, which bypasses every
 kind after the missing-owner one.
 */
module OrderBudgetRules {
  import opened Transfers
  import opened Permission

  /** The five `QuoteValidator::MESSAGE_*` reasons. */
  datatype ErrorKind =
    | NotOwnedByCompanyUser
    | NotAssignedToCompanyBusinessUnit
    | NoOrderBudget
    | NoSubtotals
    | NotEnoughOrderBudget

  /** `validate` returns normally, or throws with exactly one reason. */
  datatype Outcome = Pass | Fail(reason: ErrorKind)

  /** The order in which the reasons are examined. */
  const Precedence: seq<ErrorKind> :=
    [NotOwnedByCompanyUser, NotAssignedToCompanyBusinessUnit, NoOrderBudget, NoSubtotals, NotEnoughOrderBudget]

  /** The position of `k` in `Precedence`. */
  function Rank(k: ErrorKind): (i: nat)
    ensures i < |Precedence| && Precedence[i] == k
  {
    match k
    case NotOwnedByCompanyUser => 0
    case NotAssignedToCompanyBusinessUnit => 1
    case NoOrderBudget => 2
    case NoSubtotals => 3
    case NotEnoughOrderBudget => 4
  }

  /** The condition under which reason `k` describes quote `q`, ignoring order. */
  predicate Triggered(k: ErrorKind, q: Quote)
  {
    match k
    case NotOwnedByCompanyUser => q.companyUser.None?
    case NotAssignedToCompanyBusinessUnit => BusinessUnitOf(q).None?
    case NoOrderBudget => BudgetOf(q).None?
    case NoSubtotals => SubtotalOf(q).None?
    case NotEnoughOrderBudget =>
      BudgetOf(q).Some? && SubtotalOf(q).Some? && SubtotalOf(q).value > BudgetOf(q).value
  }

  /** The company of the quote's owner may alter carts without a budget limit. */
  predicate Unlimited(q: Quote, can: Can)
  {
    q.companyUser.Some? && can(AlterCartWithoutLimitKey, q.companyUser.value.fkCompany)
  }

  /** The index of the first kind in `kinds` that `q` triggers; `|kinds|` if none. */
  function FirstTriggered(kinds: seq<ErrorKind>, q: Quote): (i: nat)
    ensures i <= |kinds|
    ensures i < |kinds| ==> Triggered(kinds[i], q)
    ensures forall j :: 0 <= j < i ==> !Triggered(kinds[j], q)
  {
    if |kinds| == 0 then 0
    else if Triggered(kinds[0], q) then 0
    else 1 + FirstTriggered(kinds[1..], q)
  }

  /** The outcome the decision table prescribes: bypass, else first match wins. */
  function Expected(q: Quote, can: Can): Outcome
  {
    if Unlimited(q, can) then Pass
    else
      var i := FirstTriggered(Precedence, q);
      if i < |Precedence| then Fail(Precedence[i]) else Pass
  }

  /** The quote may proceed: unlimited permission, or a subtotal within a known budget. */
  predicate Admissible(q: Quote, can: Can)
  {
    || Unlimited(q, can)
    || (BudgetOf(q).Some? && SubtotalOf(q).Some? && SubtotalOf(q).value <= BudgetOf(q).value)
  }
}
