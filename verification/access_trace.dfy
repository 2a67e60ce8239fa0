/**
 The observable side of one validation: which getters of the transfer
 records were called, and which permission queries were made, in order.

 The test suite pins the validator down by expecting some of these calls at
 least once and forbidding others; here they are events of a trace.
 */
module AccessTrace {
  import opened Transfers

  datatype Access =
    | GetCompanyUser                        // QuoteTransfer::getCompanyUser
    | GetFkCompany                          // CompanyUserTransfer::getFkCompany
    | CanQuery(key: string, idCompany: int) // permission facade query
    | GetCompanyBusinessUnit                // CompanyUserTransfer::getCompanyBusinessUnit
    | GetOrderBudget                        // CompanyBusinessUnitTransfer::getOrderBudget
    | GetBudget                             // OrderBudgetTransfer::getBudget
    | GetTotals                             // QuoteTransfer::getTotals
    | GetSubtotal                           // TotalsTransfer::getSubtotal

  /** Number of permission queries in a trace. */
  function OracleCalls(t: seq<Access>): (n: nat)
    ensures n <= |t|
    ensures n == 0 <==> forall i :: 0 <= i < |t| ==> !t[i].CanQuery?
  {
    if |t| == 0 then 0
    else (if t[0].CanQuery? then 1 else 0) + OracleCalls(t[1..])
  }

  /** Queries in consecutive segments of a trace add up. */
  lemma {:induction false} OracleCallsAppend(a: seq<Access>, b: seq<Access>)
    ensures OracleCalls(a + b) == OracleCalls(a) + OracleCalls(b)
  {
    if |a| == 0 {
      assert a + b == b;
    } else {
      assert (a + b)[1..] == a[1..] + b;
      OracleCallsAppend(a[1..], b);
    }
  }

  /**
   The call `a` is made on an object that exists in quote `q`: a getter is
   never invoked on a null transfer, and the oracle is asked only once a
   company user is there to supply the company id.
   */
  predicate Dereferenceable(q: Quote, a: Access)
  {
    match a
    case GetCompanyUser => true
    case GetTotals => true
    case GetFkCompany => q.companyUser.Some?
    case CanQuery(_, _) => q.companyUser.Some?
    case GetCompanyBusinessUnit => q.companyUser.Some?
    case GetOrderBudget => BusinessUnitOf(q).Some?
    case GetBudget => BudgetOf(q).Some?
    case GetSubtotal => q.totals.Some?
  }

  /** Every permission query in `t` precedes every read of the business unit. */
  predicate OracleBeforeBusinessUnit(t: seq<Access>)
  {
    forall i, j :: 0 <= i < |t| && 0 <= j < |t| && t[i].CanQuery? && t[j] == GetCompanyBusinessUnit ==> i < j
  }
}
