/**
 `QuoteValidator::validate(quote)`: may this company user's cart proceed
 under the business unit's order budget?

 The check walks quote -> company user -> business unit -> order budget and
 quote -> totals -> subtotal, asking the permission facade once whether the
 company may alter carts without limit. It either passes or fails with one
 reason of `OrderBudgetRules.ErrorKind`; the trace records every getter and
 permission call it makes, so that what the tests forbid can be stated.
 */
module QuoteValidator {
  import opened Transfers
  import opened Permission
  import opened AccessTrace
  import opened OrderBudgetRules

  /** The decision together with the calls made to reach it. */
  datatype Verdict = Verdict(outcome: Outcome, trace: seq<Access>) {

    /** The same decision, reached after the calls in `earlier`. */
    function After(earlier: seq<Access>): Verdict
    {
      Verdict(outcome, earlier + trace)
    }
  }

  /** Compares the quote's subtotal with an order budget already read. */
  function CheckSubtotal(budget: int, quote: Quote): (v: Verdict)
    ensures |v.trace| > 0 && v.trace[0] == GetTotals
    ensures forall a | a in v.trace :: a == GetTotals || (a == GetSubtotal && quote.totals.Some?)
    ensures GetSubtotal in v.trace <==> quote.totals.Some?
    ensures v.outcome == Pass <==> SubtotalOf(quote).Some? && SubtotalOf(quote).value <= budget
    ensures v.outcome == Fail(NoSubtotals) <==> SubtotalOf(quote).None?
    ensures v.outcome == Fail(NotEnoughOrderBudget) <==> SubtotalOf(quote).Some? && SubtotalOf(quote).value > budget
  {
    match quote.totals
    case None => Verdict(Fail(NoSubtotals), [GetTotals])
    case Some(totals) =>
      var read := [GetTotals, GetSubtotal];
      match totals.subtotal
      case None => Verdict(Fail(NoSubtotals), read)
      case Some(subtotal) =>
        if subtotal > budget then Verdict(Fail(NotEnoughOrderBudget), read)
        else Verdict(Pass, read)
  }

  /** The checks after the permission facade has refused the bypass. */
  function CheckOrderBudget(companyUser: CompanyUser, quote: Quote): (v: Verdict)
    requires quote.companyUser == Some(companyUser)
    ensures |v.trace| > 0 && v.trace[0] == GetCompanyBusinessUnit
    ensures forall a | a in v.trace :: !a.CanQuery? && a != GetCompanyUser && a != GetFkCompany
    ensures forall a | a in v.trace :: Dereferenceable(quote, a)
    ensures GetTotals in v.trace <==> BudgetOf(quote).Some?
    ensures v.outcome.Pass? <==>
              BudgetOf(quote).Some? && SubtotalOf(quote).Some? && SubtotalOf(quote).value <= BudgetOf(quote).value
    ensures v.outcome.Fail? ==> Triggered(v.outcome.reason, quote)
    ensures companyUser.companyBusinessUnit.None? ==> v.outcome == Fail(NotAssignedToCompanyBusinessUnit)
    ensures BusinessUnitOf(quote).Some? && BudgetOf(quote).None? ==> v.outcome == Fail(NoOrderBudget)
  {
    match companyUser.companyBusinessUnit
    case None => Verdict(Fail(NotAssignedToCompanyBusinessUnit), [GetCompanyBusinessUnit])
    case Some(businessUnit) =>
      match businessUnit.orderBudget
      case None => Verdict(Fail(NoOrderBudget), [GetCompanyBusinessUnit, GetOrderBudget])
      case Some(orderBudget) =>
        CheckSubtotal(orderBudget.budget, quote).After([GetCompanyBusinessUnit, GetOrderBudget, GetBudget])
  }

  /** `QuoteValidator::validate`, with the permission facade passed in as `can`. */
  function Validate(quote: Quote, can: Can): (v: Verdict)
    // the decision
    ensures v.outcome.Pass? <==> Admissible(quote, can)
    ensures v.outcome.Fail? ==> Triggered(v.outcome.reason, quote)
    // the calls made to reach it
    ensures |v.trace| > 0 && v.trace[0] == GetCompanyUser
    ensures forall a | a in v.trace :: Dereferenceable(quote, a)
    ensures (exists a :: a in v.trace && a.CanQuery?) <==> quote.companyUser.Some?
    ensures forall a | a in v.trace && a.CanQuery? ::
              quote.companyUser.Some? && a == CanQuery(AlterCartWithoutLimitKey, quote.companyUser.value.fkCompany)
    ensures OracleBeforeBusinessUnit(v.trace)
    ensures GetCompanyBusinessUnit in v.trace <==> quote.companyUser.Some? && !Unlimited(quote, can)
    ensures GetTotals in v.trace <==> !Unlimited(quote, can) && BudgetOf(quote).Some?
  {
    match quote.companyUser
    case None => Verdict(Fail(NotOwnedByCompanyUser), [GetCompanyUser])
    case Some(companyUser) =>
      var query := CanQuery(AlterCartWithoutLimitKey, companyUser.fkCompany);
      var asked := [GetCompanyUser, GetFkCompany, query];
      if can(query.key, query.idCompany) then Verdict(Pass, asked)
      else
        var rest := CheckOrderBudget(companyUser, quote);
        assert forall j :: 0 <= j < |asked + rest.trace| && (asked + rest.trace)[j] == GetCompanyBusinessUnit ==> j >= 3;
        rest.After(asked)
  }

  /** The permission facade is consulted exactly once when there is an owner, never otherwise. */
  lemma OracleConsultedOnce(quote: Quote, can: Can)
    ensures OracleCalls(Validate(quote, can).trace) == if quote.companyUser.Some? then 1 else 0
  {
    match quote.companyUser
    case None =>
    case Some(companyUser) =>
      var asked := [GetCompanyUser, GetFkCompany, CanQuery(AlterCartWithoutLimitKey, companyUser.fkCompany)];
      assert asked[1..] == [GetFkCompany, asked[2]];
      assert asked[1..][1..] == [asked[2]];
      assert OracleCalls(asked[1..][1..]) == 1;
      if !can(AlterCartWithoutLimitKey, companyUser.fkCompany) {
        var rest := CheckOrderBudget(companyUser, quote);
        OracleCallsAppend(asked, rest.trace);
      }
  }

  /** The validator reports what the first-match-wins decision table prescribes. */
  lemma ValidateFollowsDecisionTable(quote: Quote, can: Can)
    ensures Validate(quote, can).outcome == Expected(quote, can)
  {
    var v := Validate(quote, can);
    if !Unlimited(quote, can) {
      match v.outcome
      case Fail(reason) =>
        // the reported reason is triggered, and no reason before it is
        forall j | 0 <= j < Rank(reason) ensures !Triggered(Precedence[j], quote) {
        }
      case Pass =>
        forall j | 0 <= j < |Precedence| ensures !Triggered(Precedence[j], quote) {
        }
    }
  }

  /** Only the answer to the one permission query influences the validation. */
  lemma OnlyAlterCartPermissionMatters(quote: Quote, can1: Can, can2: Can)
    requires quote.companyUser.Some? ==>
               can1(AlterCartWithoutLimitKey, quote.companyUser.value.fkCompany)
               == can2(AlterCartWithoutLimitKey, quote.companyUser.value.fkCompany)
    ensures Validate(quote, can1) == Validate(quote, can2)
  {
  }
}
