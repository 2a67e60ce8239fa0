/**
 The read-only transfer records the order-budget validator inspects.

 Every getter of the PHP transfer objects that may return null becomes an
 `Option` field; the numeric amounts (budget, subtotal) are integers in the
 shop's smallest currency unit, as the test fixtures use them.
 */
module Transfers {

  /** The absent-or-present value of a nullable getter. */
  datatype Option<+T> = None | Some(value: T)

  /** OrderBudgetTransfer: the spending ceiling of a business unit. */
  datatype OrderBudget = OrderBudget(budget: int)

  /** CompanyBusinessUnitTransfer: only its order budget matters here. */
  datatype CompanyBusinessUnit = CompanyBusinessUnit(orderBudget: Option<OrderBudget>)

  /** CompanyUserTransfer: the owning company and the unit the user is assigned to. */
  datatype CompanyUser = CompanyUser(fkCompany: int, companyBusinessUnit: Option<CompanyBusinessUnit>)

  /** TotalsTransfer: the subtotal may be null. */
  datatype Totals = Totals(subtotal: Option<int>)

  /** QuoteTransfer: the cart, with its optional owner and optional totals. */
  datatype Quote = Quote(companyUser: Option<CompanyUser>, totals: Option<Totals>)

  /** The business unit reached through the quote's company user, if both exist. */
  function BusinessUnitOf(q: Quote): Option<CompanyBusinessUnit>
  {
    match q.companyUser
    case None => None
    case Some(cu) => cu.companyBusinessUnit
  }

  /** The order budget amount reached through company user and business unit. */
  function BudgetOf(q: Quote): Option<int>
  {
    match BusinessUnitOf(q)
    case None => None
    case Some(bu) =>
      match bu.orderBudget
      case None => None
      case Some(ob) => Some(ob.budget)
  }

  /** The subtotal reached through the quote's totals, if both exist. */
  function SubtotalOf(q: Quote): Option<int>
  {
    match q.totals
    case None => None
    case Some(t) => t.subtotal
  }
}
