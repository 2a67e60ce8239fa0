/**
 The permission check the validator consults.

 The permission facade is an opaque collaborator: it is modelled as a pure
 function value from a permission key and a company id to a grant.
 */
module Permission {

  /** The key of the "alter cart without limit" permission plugin. */
  const AlterCartWithoutLimitKey: string := "AlterCartWithoutLimit"

  /** The facade's `can(key, idCompany)`; deterministic within one validation. */
  type Can = (string, int) -> bool
}
