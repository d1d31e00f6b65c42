/**
 * The route guard (src/ProtectedRoute.tsx): it reads the stored `user` record and renders its child
 * screen only when the list of allowed roles includes the record's `roleId`; otherwise it redirects
 * to `/unauthorized`, replacing the history entry.
 */
module Guard {
  import opened Wrappers
  import opened Js
  import opened Storage

  datatype Decision =
    | RenderChildren
    | Redirect(to: string, replace: bool)
      /** Reading the stored user threw, so nothing is rendered. */
    | Throws

  const UnauthorizedPath := "/unauthorized"

  /** `allowedRoles.includes(user?.roleId)`. */
  predicate Admits(allowedRoles: seq<int>, user: Record) {
    IncludesNumber(allowedRoles, Get(user, "roleId"))
  }

  /** The guard's decision for the identity read from storage. */
  function Decide(allowedRoles: seq<int>, items: Items): (d: Decision)
    ensures d == RenderChildren <==>
              ReadUser(items).Some? && Get(ReadUser(items).value, "roleId").Num? &&
              Get(ReadUser(items).value, "roleId").n in allowedRoles
    ensures d.Redirect? ==> d == Redirect(UnauthorizedPath, true)
    ensures d == Throws <==> ReadUser(items).None?
  {
    match ReadUser(items)
    case None => Throws
    case Some(user) => if Admits(allowedRoles, user) then RenderChildren else Redirect(UnauthorizedPath, true)
  }

  /** The identity stored as an object record. */
  function StoredUser(u: Record): (items: Items)
    ensures ReadUser(items) == Some(u)
  {
    map[UserKey := Json(u)]
  }

  /** With no `user` key the record is `{}`: no role, so every guarded screen redirects. */
  lemma AbsentUserDenied(allowedRoles: seq<int>, items: Items)
    requires UserKey !in items
    ensures Decide(allowedRoles, items) == Redirect(UnauthorizedPath, true)
  {
  }

  /** The test is membership, not truthiness: role 0 passes wherever 0 is allowed. */
  lemma RoleZeroAdmitted(allowedRoles: seq<int>, u: Record)
    requires 0 in allowedRoles && Get(u, "roleId") == Num(0)
    ensures Decide(allowedRoles, StoredUser(u)) == RenderChildren
  {
  }

  /** `includes` compares without conversion: a role stored as the string "1" is not role 1. */
  lemma StringRoleDenied(allowedRoles: seq<int>, u: Record, s: string)
    requires Get(u, "roleId") == Str(s)
    ensures Decide(allowedRoles, StoredUser(u)) == Redirect(UnauthorizedPath, true)
  {
  }

  /** Two stored identities with the same `roleId` get the same decision, whatever else they hold. */
  lemma DependsOnlyOnRole(allowedRoles: seq<int>, i1: Items, i2: Items)
    requires ReadUser(i1).Some? && ReadUser(i2).Some?
    requires Get(ReadUser(i1).value, "roleId") == Get(ReadUser(i2).value, "roleId")
    ensures Decide(allowedRoles, i1) == Decide(allowedRoles, i2)
  {
  }
}
