# Order-budget quote validation

A model of `QuoteValidator::validate(quote)` from the company-business-unit
order-budget module. It decides whether a company user's cart (a "quote") may
proceed. It compares the cart's subtotal with the order budget of the user's
business unit. A company that holds the "alter cart without limit" permission
skips the budget check. Any other outcome is a failure with exactly one of five
reasons.

The implementation class itself is not part of this model. Its behaviour is
taken from its unit test, `QuoteValidatorTest`. Each of the test's seven cases
fixes one branch of the decision, and the mocks' `atLeastOnce` / `never`
expectations fix which getters and permission queries that branch may make.

Modules:

- `Transfers` (`transfers.dfy`): the transfer records. Nullable getters are
  `Option` fields. Chain accessors follow quote → company user → business unit
  → order budget, and quote → totals → subtotal.
- `Permission` (`permission.dfy`): the permission key and the facade's
  `can(key, idCompany)`. The facade is a function parameter.
- `AccessTrace` (`access_trace.dfy`): one event per getter or permission call.
  `OracleCalls` counts the permission queries. `Dereferenceable` says a call is
  made on an object that exists.
- `OrderBudgetRules` (`order_budget_rules.dfy`): the five failure reasons. It
  also holds an order-free trigger for each reason, their precedence, and a
  decision table (`Expected`): an unlimited permission bypasses the checks,
  otherwise the first triggered reason wins. `Admissible` is a flat statement of
  when a quote may pass.
- `QuoteValidator` (`quote_validator.dfy`): `Validate`, which returns the
  outcome together with the trace of calls it made, and the lemmas relating it
  to the decision table and the permission facade.
- `QuoteValidatorTest` (`quote_validator_test.dfy`): the seven test cases. Each
  is stated for every facade that answers the way that case's mock does.

## Model

All source paths are in `tests/FondOfOryx/Zed/CompanyBusinessUnitOrderBudget/Business/Validator/`.

| member | source | states |
|---|---|---|
| QuoteValidator.Validate | tests/FondOfOryx/Zed/CompanyBusinessUnitOrderBudget/Business/Validator/QuoteValidatorTest.php:91-364 | passes exactly when the company may alter carts without limit, or the subtotal is present and within a present budget; every failure reason it reports really holds of the quote; the company user is always read first; no getter is called on a missing object; the facade is asked something exactly when there is a company user, and only about the unlimited permission of that user's `fkCompany`; the facade is asked before the business unit is read; the business unit is read only when the facade refuses; the totals are read only when the facade refuses and an order budget exists |
| QuoteValidator.CheckOrderBudget | tests/FondOfOryx/Zed/CompanyBusinessUnitOrderBudget/Business/Validator/QuoteValidatorTest.php:272-341 | once the bypass is refused: a missing business unit fails with NotAssignedToCompanyBusinessUnit; a business unit without an order budget fails with NoOrderBudget; it passes exactly when a budget and a subtotal exist and the subtotal is within the budget; the totals are read exactly when an order budget exists; no permission query is made |
| QuoteValidator.CheckSubtotal | tests/FondOfOryx/Zed/CompanyBusinessUnitOrderBudget/Business/Validator/QuoteValidatorTest.php:173-267 | fails with NoSubtotals exactly when the subtotal is missing; fails with NotEnoughOrderBudget exactly when the subtotal exceeds the budget; passes otherwise; reads the subtotal only when totals exist |
| QuoteValidator.ValidateFollowsDecisionTable | tests/FondOfOryx/Zed/CompanyBusinessUnitOrderBudget/Business/Validator/QuoteValidatorTest.php:91-364 | the outcome equals the decision table's for every quote and facade: unlimited permission passes; otherwise the first triggered reason in the order NotOwnedByCompanyUser, NotAssignedToCompanyBusinessUnit, NoOrderBudget, NoSubtotals, NotEnoughOrderBudget is reported, and the quote passes when none is triggered |
| QuoteValidator.OracleConsultedOnce | tests/FondOfOryx/Zed/CompanyBusinessUnitOrderBudget/Business/Validator/QuoteValidatorTest.php:346-364 | the permission facade is queried exactly once when the quote has a company user, and never when it has none |
| QuoteValidator.OnlyAlterCartPermissionMatters | tests/FondOfOryx/Zed/CompanyBusinessUnitOrderBudget/Business/Validator/QuoteValidatorTest.php:101-108 | two facades that agree on the unlimited permission of the user's company yield the same outcome and the same calls; nothing else the facade might answer matters |
| QuoteValidatorTest.ValidatePassesWithinBudget | tests/FondOfOryx/Zed/CompanyBusinessUnitOrderBudget/Business/Validator/QuoteValidatorTest.php:91-135 | with the bypass refused, budget 1000 and subtotal 500 pass; every getter down to the subtotal is called; the only query is the unlimited permission of company 1 |
| QuoteValidatorTest.ValidateWithUnlimitedPermission | tests/FondOfOryx/Zed/CompanyBusinessUnitOrderBudget/Business/Validator/QuoteValidatorTest.php:140-168 | with the bypass granted, any business unit and totals pass; neither the business unit nor the totals are read |
| QuoteValidatorTest.ValidateWithoutSufficientBudget | tests/FondOfOryx/Zed/CompanyBusinessUnitOrderBudget/Business/Validator/QuoteValidatorTest.php:173-218 | with the bypass refused, subtotal 500 over budget 100 fails with NotEnoughOrderBudget after every getter is called |
| QuoteValidatorTest.ValidateWithoutSubtotals | tests/FondOfOryx/Zed/CompanyBusinessUnitOrderBudget/Business/Validator/QuoteValidatorTest.php:223-267 | with the bypass refused, budget 100 and a null subtotal fail with NoSubtotals after every getter is called |
| QuoteValidatorTest.ValidateWithoutOrderBudget | tests/FondOfOryx/Zed/CompanyBusinessUnitOrderBudget/Business/Validator/QuoteValidatorTest.php:272-306 | with the bypass refused, a business unit without an order budget fails with NoOrderBudget whatever the totals; the totals are never read |
| QuoteValidatorTest.ValidateWithoutCompanyBusinessUnit | tests/FondOfOryx/Zed/CompanyBusinessUnitOrderBudget/Business/Validator/QuoteValidatorTest.php:311-341 | with the bypass refused, a user without a business unit fails with NotAssignedToCompanyBusinessUnit whatever the totals; the totals are never read |
| QuoteValidatorTest.ValidateWithoutCompanyUser | tests/FondOfOryx/Zed/CompanyBusinessUnitOrderBudget/Business/Validator/QuoteValidatorTest.php:346-364 | a quote without a company user fails with NotOwnedByCompanyUser; the facade is never asked; the totals are never read |

Choices the tests do not fix. The contracts of QuoteValidator.Validate, QuoteValidator.CheckOrderBudget, QuoteValidator.CheckSubtotal and QuoteValidator.ValidateFollowsDecisionTable include the first two; the test lines those rows cite do not fix them:

- A subtotal equal to the budget passes. Only a subtotal strictly greater than the budget fails.
- A quote whose totals record is itself missing fails with NoSubtotals, the same as a null subtotal.
- The order budget amount is read before the totals.

## Left out

- The permission facade and the `AlterCartWithoutLimitPermissionPlugin` class are not part of this model. The facade is an arbitrary deterministic function. The plugin's `KEY` constant is modelled as the string "AlterCartWithoutLimit", and no property depends on its value.
- Exceptions and the `MESSAGE_*` strings: their text is not in the test file. A failure is an `ErrorKind` value named after its message constant.
- Call counts beyond presence: `atLeastOnce` becomes "appears in the trace" and `never` becomes "does not appear". Only the permission query is counted exactly (`OracleConsultedOnce`). The model reads each getter at most once, but no test constrains that.
- `fkCompany` is an integer that is never null. The test always supplies 1, and the behaviour for a null company id is not shown.
- The order budget amount is an integer that is never null, as in every test fixture. Budget and subtotal are unbounded integers. PHP's integer width and any float amounts are not modelled.
- Transfer-object generation, dependency injection, persistence and the HTTP layer are outside this component.
