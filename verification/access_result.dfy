/** The access-result algebra the action's access check is built from:
    a three-valued decision (allowed, neutral, forbidden) carrying a reason
    and the set of cacheable dependencies that invalidate it. */
module AccessResult {

  datatype Kind = Allow | Neutral | Forbid

  /** What a decision depends on, for cache invalidation. */
  datatype Dependency =
    | WorkflowDependency(workflowId: string)
    | EntityDependency(entityTypeId: string, entityId: string)
    | PermissionsContext  // the decision varies with the account's permissions

  datatype Decision = Decision(kind: Kind, reason: string, dependencies: set<Dependency>)
  {
    predicate IsAllowed() { kind == Allow }
    predicate IsNeutral() { kind == Neutral }
    predicate IsForbidden() { kind == Forbid }
  }

  /** `AccessResult::forbidden($reason)`: a fresh forbidden result with no dependencies. */
  function Forbidden(reason: string): (d: Decision)
    ensures d.IsForbidden() && !d.IsAllowed()
    ensures d.reason == reason && d.dependencies == {}
  {
    Decision(Forbid, reason, {})
  }

  /** `AccessResult::allowedIfHasPermission($account, $permission)`: allowed
      when the account holds the permission, neutral otherwise; it never
      forbids, and it always varies by the account's permissions. */
  function AllowedIfHasPermission(permissions: set<string>, permission: string): (d: Decision)
    ensures d.IsAllowed() <==> permission in permissions
    ensures !d.IsForbidden()
    ensures d.dependencies == {PermissionsContext}
  {
    if permission in permissions then Decision(Allow, "", {PermissionsContext})
    else Decision(Neutral, "The '" + permission + "' permission is required.", {PermissionsContext})
  }

  /** `$a->andIf($b)`: forbidden wins over everything, allowed needs both.
      The dependencies of `b` are inherited only when `b` is consulted, that
      is, unless `a` is forbidden or `a` is neutral and `b` does not forbid. */
  function AndIf(a: Decision, b: Decision): (r: Decision)
    ensures r.IsForbidden() <==> a.IsForbidden() || b.IsForbidden()
    ensures r.IsAllowed() <==> a.IsAllowed() && b.IsAllowed()
    ensures a.dependencies <= r.dependencies <= a.dependencies + b.dependencies
    ensures a.IsAllowed() ==> r.dependencies == a.dependencies + b.dependencies
  {
    if a.IsForbidden() || b.IsForbidden() then
      if a.IsForbidden() then Decision(Forbid, a.reason, a.dependencies)
      else Decision(Forbid, b.reason, a.dependencies + b.dependencies)
    else if a.IsAllowed() && b.IsAllowed() then
      Decision(Allow, "", a.dependencies + b.dependencies)
    else if !a.IsNeutral() then
      Decision(Neutral, b.reason, a.dependencies + b.dependencies)
    else
      Decision(Neutral, a.reason, a.dependencies)
  }

  /** `$result->addCacheableDependency($x)`: only the dependencies grow. */
  function AddCacheableDependency(d: Decision, dep: Dependency): (r: Decision)
    ensures r.kind == d.kind && r.reason == d.reason
    ensures r.dependencies == d.dependencies + {dep}
  {
    d.(dependencies := d.dependencies + {dep})
  }
}
