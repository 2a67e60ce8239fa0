/**
 The seven cases of QuoteValidatorTest, each stated for every permission
 facade that answers the way the case's mock does. A case's `atLeastOnce`
 expectations become membership in the trace, its `never` expectations
 absence from it, and its `with(KEY, fkCompany)` constraint the statement
 that every permission query in the trace is exactly that one.
 */
module QuoteValidatorTest {
  import opened Transfers
  import opened Permission
  import opened AccessTrace
  import opened OrderBudgetRules
  import opened QuoteValidator

  /** The company id every case uses. */
  const FkCompany: int := 1

  /** Every call in `calls` was made at least once. */
  predicate CalledAtLeastOnce(t: seq<Access>, calls: seq<Access>)
  {
    forall c | c in calls :: c in t
  }

  /** The facade was asked about nothing but the unlimited permission of `FkCompany`. */
  predicate AskedOnlyAboutFkCompany(t: seq<Access>)
  {
    forall a | a in t && a.CanQuery? :: a == CanQuery(AlterCartWithoutLimitKey, FkCompany)
  }

  /** The full chain of reads down to the subtotal. */
  const AllReads: seq<Access> :=
    [GetCompanyUser, GetFkCompany, CanQuery(AlterCartWithoutLimitKey, FkCompany),
     GetCompanyBusinessUnit, GetOrderBudget, GetBudget, GetTotals, GetSubtotal]

  function QuoteWithBudget(budget: int, subtotal: Option<int>): Quote
  {
    Quote(Some(CompanyUser(FkCompany, Some(CompanyBusinessUnit(Some(OrderBudget(budget)))))), Some(Totals(subtotal)))
  }

  /** testValidate: budget 1000 and subtotal 500 pass. */
  lemma ValidatePassesWithinBudget(can: Can)
    requires !can(AlterCartWithoutLimitKey, FkCompany)
    ensures Validate(QuoteWithBudget(1000, Some(500)), can).outcome == Pass
    ensures CalledAtLeastOnce(Validate(QuoteWithBudget(1000, Some(500)), can).trace, AllReads)
    ensures AskedOnlyAboutFkCompany(Validate(QuoteWithBudget(1000, Some(500)), can).trace)
  {
  }

  /** testValidateWithUnlimitedPermission: passes without reading business unit or totals. */
  lemma ValidateWithUnlimitedPermission(businessUnit: Option<CompanyBusinessUnit>, totals: Option<Totals>, can: Can)
    requires can(AlterCartWithoutLimitKey, FkCompany)
    ensures var v := Validate(Quote(Some(CompanyUser(FkCompany, businessUnit)), totals), can);
            && v.outcome == Pass
            && CalledAtLeastOnce(v.trace, [GetCompanyUser, GetFkCompany, CanQuery(AlterCartWithoutLimitKey, FkCompany)])
            && AskedOnlyAboutFkCompany(v.trace)
            && GetCompanyBusinessUnit !in v.trace
            && GetTotals !in v.trace
  {
  }

  /** testValidateWithoutSufficient: subtotal 500 over budget 100 fails. */
  lemma ValidateWithoutSufficientBudget(can: Can)
    requires !can(AlterCartWithoutLimitKey, FkCompany)
    ensures Validate(QuoteWithBudget(100, Some(500)), can).outcome == Fail(NotEnoughOrderBudget)
    ensures CalledAtLeastOnce(Validate(QuoteWithBudget(100, Some(500)), can).trace, AllReads)
    ensures AskedOnlyAboutFkCompany(Validate(QuoteWithBudget(100, Some(500)), can).trace)
  {
  }

  /** testValidateWithoutSubtotals: a null subtotal fails. */
  lemma ValidateWithoutSubtotals(can: Can)
    requires !can(AlterCartWithoutLimitKey, FkCompany)
    ensures Validate(QuoteWithBudget(100, None), can).outcome == Fail(NoSubtotals)
    ensures CalledAtLeastOnce(Validate(QuoteWithBudget(100, None), can).trace, AllReads)
    ensures AskedOnlyAboutFkCompany(Validate(QuoteWithBudget(100, None), can).trace)
  {
  }

  /** testExpandWithoutOrderBudget: a business unit without budget fails before the totals. */
  lemma ValidateWithoutOrderBudget(totals: Option<Totals>, can: Can)
    requires !can(AlterCartWithoutLimitKey, FkCompany)
    ensures var v := Validate(Quote(Some(CompanyUser(FkCompany, Some(CompanyBusinessUnit(None)))), totals), can);
            && v.outcome == Fail(NoOrderBudget)
            && CalledAtLeastOnce(v.trace, AllReads[..5])
            && AskedOnlyAboutFkCompany(v.trace)
            && GetTotals !in v.trace
  {
  }

  /** testExpandWithoutCompanyBusinessUnit: an unassigned user fails before the totals. */
  lemma ValidateWithoutCompanyBusinessUnit(totals: Option<Totals>, can: Can)
    requires !can(AlterCartWithoutLimitKey, FkCompany)
    ensures var v := Validate(Quote(Some(CompanyUser(FkCompany, None)), totals), can);
            && v.outcome == Fail(NotAssignedToCompanyBusinessUnit)
            && CalledAtLeastOnce(v.trace, AllReads[..4])
            && AskedOnlyAboutFkCompany(v.trace)
            && GetTotals !in v.trace
  {
  }

  /** testExpandWithoutCompanyUser: fails without asking the facade or reading the totals. */
  lemma ValidateWithoutCompanyUser(totals: Option<Totals>, can: Can)
    ensures var v := Validate(Quote(None, totals), can);
            && v.outcome == Fail(NotOwnedByCompanyUser)
            && GetCompanyUser in v.trace
            && (forall a | a in v.trace :: !a.CanQuery?)
            && GetTotals !in v.trace
  {
  }
}
