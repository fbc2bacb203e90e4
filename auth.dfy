/**
 * The development authentication shim: a request's role is read from its
 * X-Role header, and a route guarded by a set of roles admits only those
 * roles, compared without regard to case.
 */
module Auth {
  import opened Wrappers
  import opened Text

  /** The role of a request that does not name one. */
  const DefaultRole := "CUSTOMER"

  const ForbiddenStatus: nat := 403
  const ForbiddenDetail := "forbidden"

  /** The guard's verdict: the caller's role, or the 403 error it raises. */
  datatype Access = Granted(role: string) | Denied(status: nat, detail: string)

  /**
   * `get_role_from_request`: the X-Role header value, or "CUSTOMER" when the
   * header is absent, upper-cased. A present but empty header stays empty.
   */
  function RoleFromRequest(xRole: Option<string>): (role: string)
    ensures NoLowerLetter(role)
    ensures xRole.None? ==> role == DefaultRole
    ensures xRole.Some? ==> |role| == |xRole.value|
  {
    UpperHasNoLower(if xRole.Some? then xRole.value else DefaultRole);
    Upper(if xRole.Some? then xRole.value else DefaultRole)
  }

  /** `{r.upper() for r in allowed_roles}`. */
  function AllowedSet(allowedRoles: seq<string>): set<string>
  {
    set i | 0 <= i < |allowedRoles| :: Upper(allowedRoles[i])
  }

  /** The allowed set is empty exactly when no role is configured, and holds no lower-case letter. */
  lemma AllowedSetShape(allowedRoles: seq<string>)
    ensures AllowedSet(allowedRoles) == {} <==> |allowedRoles| == 0
    ensures forall r :: r in AllowedSet(allowedRoles) ==> NoLowerLetter(r)
  {
    if |allowedRoles| > 0 {
      assert Upper(allowedRoles[0]) in AllowedSet(allowedRoles);
    }
    forall i | 0 <= i < |allowedRoles| ensures NoLowerLetter(Upper(allowedRoles[i])) {
      UpperHasNoLower(allowedRoles[i]);
    }
  }

  /**
   * `require_role(*allowed_roles)` applied to a request: with no roles
   * configured every caller passes; otherwise the caller's role must be one
   * of them, ignoring case, or the request fails with 403 "forbidden".
   */
  function RequireRole(allowedRoles: seq<string>, xRole: Option<string>): (a: Access)
    ensures a.Granted? ==> a.role == RoleFromRequest(xRole)
    ensures a.Denied? ==> a == Denied(ForbiddenStatus, ForbiddenDetail)
    ensures a.Granted? <==>
      (|allowedRoles| == 0
       || exists i :: 0 <= i < |allowedRoles| && Upper(allowedRoles[i]) == RoleFromRequest(xRole))
  {
    AllowedSetShape(allowedRoles);
    var allowed := AllowedSet(allowedRoles);
    var role := RoleFromRequest(xRole);
    if allowed != {} && role !in allowed then Denied(ForbiddenStatus, ForbiddenDetail) else Granted(role)
  }

  /** A role read back as a header value is the same role. */
  lemma RoleIsStable(xRole: Option<string>)
    ensures RoleFromRequest(Some(RoleFromRequest(xRole))) == RoleFromRequest(xRole)
  {
    UpperIdempotent(if xRole.Some? then xRole.value else DefaultRole);
  }

  /** The header's case does not matter: "agent", "Agent" and "AGENT" are treated alike. */
  lemma HeaderCaseIgnored(allowedRoles: seq<string>, h: string)
    ensures RequireRole(allowedRoles, Some(Lower(h))) == RequireRole(allowedRoles, Some(h))
  {
    UpperLowerUpper(h);
  }

  /** The case in which the guard's roles are written does not matter either. */
  lemma AllowedCaseIgnored(allowedRoles: seq<string>, lowered: seq<string>, xRole: Option<string>)
    requires |lowered| == |allowedRoles|
    requires forall i :: 0 <= i < |allowedRoles| ==> lowered[i] == Lower(allowedRoles[i])
    ensures RequireRole(lowered, xRole) == RequireRole(allowedRoles, xRole)
  {
    forall i | 0 <= i < |allowedRoles| ensures Upper(lowered[i]) == Upper(allowedRoles[i]) {
      UpperLowerUpper(allowedRoles[i]);
    }
  }

  /** A request without a role header is a customer, admitted by a customer-only route in any spelling. */
  lemma DefaultIsCustomer(spelling: string)
    requires Upper(spelling) == DefaultRole
    ensures RequireRole([spelling], None) == Granted(DefaultRole)
  {
  }
}
