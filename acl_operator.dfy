/**
 * The enterprise access-control decorator of the operator service: each
 * guarded method checks the caller's permissions and only then delegates
 * to the wrapped operator. Cluster-scoped checks may fall back to role or
 * connector permissions, and system roles can be neither upserted nor
 * deleted through it.
 *
 * The permission checks of the open-source decorator it extends
 * (`ClusterAction`, `Action`, `AuthConnectorActions`) are modelled as
 * membership of a check in the caller's granted set.
 */
module AccessControl {
  import opened Wrappers

  // The values of these identifiers live in lib/constants, which is not
  // part of this model; the values below stand in for them.
  const SystemLabel: string := "gravitational.io/system"
  const True: string := "true"

  datatype Kind = KindCluster | KindLicense | KindRole | KindOIDCConnector | KindSAMLConnector

  datatype Verb = VerbRead | VerbList | VerbCreate | VerbUpdate | VerbDelete | VerbRegister

  /** One permission check: on a named cluster, on a kind, or on auth connectors of a kind. */
  datatype Check =
    | ClusterCheck(cluster: string, kind: Kind, verb: Verb)
    | KindCheck(kind: Kind, verb: Verb)
    | ConnectorCheck(kind: Kind, verbs: seq<Verb>)

  datatype Permissions = Permissions(granted: set<Check>)

  /** Errors: a failed permission check, a rejection by the decorator itself, or the wrapped operator's own error. */
  datatype Error = Denied(check: Check) | AccessDenied(message: string) | Upstream(code: nat)

  datatype Role = Role(name: string, labels: map<string, string>)

  /** A role is a system role when its system label reads "true"; a missing label reads as "". */
  predicate IsSystem(role: Role)
  {
    SystemLabel in role.labels && role.labels[SystemLabel] == True
  }

  /** An opaque stand-in for the values the wrapped operator returns. */
  datatype Answer = Answer(token: nat)

  /** The operator calls the decorator guards, with the arguments its checks read. */
  datatype OperatorCall =
    | RegisterAgent(cluster: string)
    | RequestClusterCopy
    | GetClusterEndpoints(cluster: string)
    | UpdateClusterEndpoints(cluster: string)
    | CheckForUpdate(cluster: string)
    | DownloadUpdate(cluster: string)
    | EnablePeriodicUpdates(cluster: string)
    | DisablePeriodicUpdates(cluster: string)
    | StartPeriodicUpdates(cluster: string)
    | StopPeriodicUpdates(cluster: string)
    | PeriodicUpdatesStatus(cluster: string)
    | UpsertTrustedCluster(cluster: string, name: string)
    | DeleteTrustedCluster(cluster: string, name: string)
    | GetTrustedClusters(cluster: string)
    | GetTrustedCluster(cluster: string, name: string)
    | AcceptRemoteCluster(name: string)
    | RemoveRemoteCluster(name: string)
    | NewLicense
    | CheckSiteLicense(cluster: string)
    | UpdateLicense(cluster: string)
    | GetLicenseCA
    | UpsertRole(cluster: string, role: Role)
    | GetRole(cluster: string, name: string)
    | GetRoles(cluster: string)
    | DeleteRole(cluster: string, name: string)
    | UpsertOIDCConnector(cluster: string, name: string)
    | GetOIDCConnector(cluster: string, name: string, withSecrets: bool)
    | GetOIDCConnectors(cluster: string, withSecrets: bool)
    | DeleteOIDCConnector(cluster: string, name: string)
    | UpsertSAMLConnector(cluster: string, name: string)
    | GetSAMLConnector(cluster: string, name: string, withSecrets: bool)
    | GetSAMLConnectors(cluster: string, withSecrets: bool)
    | DeleteSAMLConnector(cluster: string, name: string)
  {
    /** Calls that only read cluster state. */
    predicate IsRead()
    {
      GetClusterEndpoints? || CheckForUpdate? || PeriodicUpdatesStatus? || GetTrustedClusters? ||
      GetTrustedCluster? || GetRole? || GetRoles? || GetOIDCConnector? || GetOIDCConnectors? ||
      GetSAMLConnector? || GetSAMLConnectors?
    }

    /** Calls that change the state of one cluster, including a license check that may deactivate it. */
    predicate IsMutation()
    {
      RegisterAgent? || UpdateClusterEndpoints? || DownloadUpdate? || EnablePeriodicUpdates? ||
      DisablePeriodicUpdates? || StartPeriodicUpdates? || StopPeriodicUpdates? || UpsertTrustedCluster? ||
      DeleteTrustedCluster? || CheckSiteLicense? || UpdateLicense? || UpsertRole? || DeleteRole? ||
      UpsertOIDCConnector? || DeleteOIDCConnector? || UpsertSAMLConnector? || DeleteSAMLConnector?
    }

    predicate IsRoleCall() { UpsertRole? || GetRole? || GetRoles? || DeleteRole? }

    predicate IsOIDCCall()
    {
      UpsertOIDCConnector? || GetOIDCConnector? || GetOIDCConnectors? || DeleteOIDCConnector?
    }

    predicate IsSAMLCall()
    {
      UpsertSAMLConnector? || GetSAMLConnector? || GetSAMLConnectors? || DeleteSAMLConnector?
    }
  }

  /** What is checked when the cluster-level check fails. */
  datatype Fallback = RoleVerbs(verbs: seq<Verb>) | ConnectorVerbs(kind: Kind, verbs: seq<Verb>)

  /** The check a guarded method performs before delegating. */
  datatype Rule =
    | Open
    | Require(check: Check)
    | ClusterOr(cluster: string, verb: Verb, fallback: Fallback)

  /** The cluster and verb a rule checks on kind cluster, when it is cluster-scoped. */
  function ScopedCheck(r: Rule): Option<(string, Verb)>
  {
    match r
    case ClusterOr(cluster, verb, _) => Some((cluster, verb))
    case Require(ClusterCheck(cluster, KindCluster, verb)) => Some((cluster, verb))
    case _ => None
  }

  /** The rule of each guarded method. */
  function Policy(c: OperatorCall): Rule
  {
    match c
    case RegisterAgent(cluster) => Require(ClusterCheck(cluster, KindCluster, VerbUpdate))
    case RequestClusterCopy => Require(KindCheck(KindCluster, VerbCreate))
    case GetClusterEndpoints(cluster) => Require(ClusterCheck(cluster, KindCluster, VerbRead))
    case UpdateClusterEndpoints(cluster) => Require(ClusterCheck(cluster, KindCluster, VerbUpdate))
    case CheckForUpdate(cluster) => Require(ClusterCheck(cluster, KindCluster, VerbRead))
    case DownloadUpdate(cluster) => Require(ClusterCheck(cluster, KindCluster, VerbUpdate))
    case EnablePeriodicUpdates(cluster) => Require(ClusterCheck(cluster, KindCluster, VerbUpdate))
    case DisablePeriodicUpdates(cluster) => Require(ClusterCheck(cluster, KindCluster, VerbUpdate))
    case StartPeriodicUpdates(cluster) => Require(ClusterCheck(cluster, KindCluster, VerbUpdate))
    case StopPeriodicUpdates(cluster) => Require(ClusterCheck(cluster, KindCluster, VerbUpdate))
    case PeriodicUpdatesStatus(cluster) => Require(ClusterCheck(cluster, KindCluster, VerbRead))
    case UpsertTrustedCluster(cluster, _) => Require(ClusterCheck(cluster, KindCluster, VerbUpdate))
    case DeleteTrustedCluster(cluster, _) => Require(ClusterCheck(cluster, KindCluster, VerbUpdate))
    case GetTrustedClusters(cluster) => Require(ClusterCheck(cluster, KindCluster, VerbRead))
    case GetTrustedCluster(cluster, _) => Require(ClusterCheck(cluster, KindCluster, VerbRead))
    case AcceptRemoteCluster(_) => Require(KindCheck(KindCluster, VerbRegister))
    case RemoveRemoteCluster(_) => Require(KindCheck(KindCluster, VerbRegister))
    case NewLicense => Require(KindCheck(KindLicense, VerbCreate))
    case CheckSiteLicense(cluster) => Require(ClusterCheck(cluster, KindCluster, VerbUpdate))
    case UpdateLicense(cluster) => Require(ClusterCheck(cluster, KindCluster, VerbUpdate))
    case GetLicenseCA => Open
    case UpsertRole(cluster, _) => ClusterOr(cluster, VerbUpdate, RoleVerbs([VerbCreate, VerbUpdate]))
    case GetRole(cluster, _) => ClusterOr(cluster, VerbRead, RoleVerbs([VerbRead]))
    case GetRoles(cluster) => ClusterOr(cluster, VerbRead, RoleVerbs([VerbList, VerbRead]))
    case DeleteRole(cluster, _) => ClusterOr(cluster, VerbUpdate, RoleVerbs([VerbDelete]))
    case UpsertOIDCConnector(cluster, _) =>
      ClusterOr(cluster, VerbUpdate, ConnectorVerbs(KindOIDCConnector, [VerbCreate, VerbUpdate]))
    case GetOIDCConnector(cluster, _, _) => ClusterOr(cluster, VerbRead, ConnectorVerbs(KindOIDCConnector, [VerbRead]))
    case GetOIDCConnectors(cluster, _) =>
      ClusterOr(cluster, VerbRead, ConnectorVerbs(KindOIDCConnector, [VerbList, VerbRead]))
    case DeleteOIDCConnector(cluster, _) => ClusterOr(cluster, VerbUpdate, ConnectorVerbs(KindOIDCConnector, [VerbDelete]))
    case UpsertSAMLConnector(cluster, _) =>
      ClusterOr(cluster, VerbUpdate, ConnectorVerbs(KindSAMLConnector, [VerbCreate, VerbUpdate]))
    case GetSAMLConnector(cluster, _, _) => ClusterOr(cluster, VerbRead, ConnectorVerbs(KindSAMLConnector, [VerbRead]))
    case GetSAMLConnectors(cluster, _) =>
      ClusterOr(cluster, VerbRead, ConnectorVerbs(KindSAMLConnector, [VerbList, VerbRead]))
    case DeleteSAMLConnector(cluster, _) => ClusterOr(cluster, VerbUpdate, ConnectorVerbs(KindSAMLConnector, [VerbDelete]))
  }

  /**
   * Read-style methods check read on their own cluster and mutating ones
   * check update on it, the license check included; only the license CA
   * is unchecked.
   */
  lemma {:induction false} PolicyScopes(c: OperatorCall)
    ensures Policy(c).Open? <==> c.GetLicenseCA?
    ensures c.IsRead() ==> ScopedCheck(Policy(c)) == Some((c.cluster, VerbRead))
    ensures c.IsMutation() ==> ScopedCheck(Policy(c)) == Some((c.cluster, VerbUpdate))
  {
  }

  /** Cluster registration, cluster copies and new licenses are checked on the kind, not on a cluster. */
  lemma {:induction false} PolicyUnscoped(c: OperatorCall)
    ensures c.AcceptRemoteCluster? || c.RemoveRemoteCluster? ==> Policy(c) == Require(KindCheck(KindCluster, VerbRegister))
    ensures c.RequestClusterCopy? ==> Policy(c) == Require(KindCheck(KindCluster, VerbCreate))
    ensures c.NewLicense? ==> Policy(c) == Require(KindCheck(KindLicense, VerbCreate))
    ensures !c.IsRead() && !c.IsMutation() ==> ScopedCheck(Policy(c)) == None
  {
  }

  /** Exactly the role and connector methods fall back, each to the permissions of its own kind. */
  lemma {:induction false} PolicyFallbacks(c: OperatorCall)
    ensures Policy(c).ClusterOr? <==> c.IsRoleCall() || c.IsOIDCCall() || c.IsSAMLCall()
    ensures c.IsRoleCall() ==> Policy(c).fallback.RoleVerbs?
    ensures c.IsOIDCCall() ==> Policy(c).fallback == ConnectorVerbs(KindOIDCConnector, Policy(c).fallback.verbs)
    ensures c.IsSAMLCall() ==> Policy(c).fallback == ConnectorVerbs(KindSAMLConnector, Policy(c).fallback.verbs)
  {
  }

  // ---------------------------------------------------------------------------
  // Evaluating checks
  // ---------------------------------------------------------------------------

  /** One check: no error when granted, otherwise a denial naming the check. */
  function CheckAccess(perms: Permissions, c: Check): Option<Error>
  {
    if c in perms.granted then None else Some(Denied(c))
  }

  /** The role checks of a list of verbs, in order, stopping at the first denial. */
  function FirstDenied(perms: Permissions, verbs: seq<Verb>): Option<Error>
  {
    if verbs == [] then None
    else if KindCheck(KindRole, verbs[0]) !in perms.granted then Some(Denied(KindCheck(KindRole, verbs[0])))
    else FirstDenied(perms, verbs[1..])
  }

  /** The role checks pass exactly when every verb is granted, and a denial names the first verb that is not. */
  lemma {:induction false} FirstDeniedIffAll(perms: Permissions, verbs: seq<Verb>)
    ensures FirstDenied(perms, verbs).None? <==> forall v :: v in verbs ==> KindCheck(KindRole, v) in perms.granted
    ensures FirstDenied(perms, verbs).Some? ==>
      exists i :: 0 <= i < |verbs| && FirstDenied(perms, verbs) == Some(Denied(KindCheck(KindRole, verbs[i]))) &&
        KindCheck(KindRole, verbs[i]) !in perms.granted &&
        forall j :: 0 <= j < i ==> KindCheck(KindRole, verbs[j]) in perms.granted
  {
    if verbs != [] {
      FirstDeniedIffAll(perms, verbs[1..]);
      if KindCheck(KindRole, verbs[0]) in perms.granted && FirstDenied(perms, verbs).Some? {
        var i :| 0 <= i < |verbs[1..]| && FirstDenied(perms, verbs[1..]) == Some(Denied(KindCheck(KindRole, verbs[1..][i]))) &&
          KindCheck(KindRole, verbs[1..][i]) !in perms.granted &&
          forall j :: 0 <= j < i ==> KindCheck(KindRole, verbs[1..][j]) in perms.granted;
        assert verbs[i + 1] == verbs[1..][i];
        forall j | 0 <= j < i + 1 ensures KindCheck(KindRole, verbs[j]) in perms.granted {
          if j > 0 { assert verbs[j] == verbs[1..][j - 1]; }
        }
      }
    }
  }

  function FallbackAccess(perms: Permissions, fb: Fallback): Option<Error>
  {
    match fb
    case RoleVerbs(verbs) => FirstDenied(perms, verbs)
    case ConnectorVerbs(kind, verbs) => CheckAccess(perms, ConnectorCheck(kind, verbs))
  }

  /** The error a rule yields for a caller, if any; a failed cluster check is replaced by the fallback's outcome. */
  function Authorize(perms: Permissions, r: Rule): Option<Error>
  {
    match r
    case Open => None
    case Require(c) => CheckAccess(perms, c)
    case ClusterOr(cluster, verb, fb) =>
      if ClusterCheck(cluster, KindCluster, verb) in perms.granted then None else FallbackAccess(perms, fb)
  }

  /** Granting more never denies more. */
  lemma {:induction false} AuthorizeMonotonic(small: Permissions, large: Permissions, r: Rule)
    requires small.granted <= large.granted
    ensures Authorize(small, r).None? ==> Authorize(large, r).None?
  {
    if r.ClusterOr? && r.fallback.RoleVerbs? {
      FirstDeniedIffAll(small, r.fallback.verbs);
      FirstDeniedIffAll(large, r.fallback.verbs);
    }
  }

  /** A caller with no permissions at all can only fetch the license CA. */
  lemma {:induction false} NothingGrantedOnlyOpen(c: OperatorCall)
    ensures Authorize(Permissions({}), Policy(c)).None? <==> c.GetLicenseCA?
  {
    var r := Policy(c);
    if r.ClusterOr? && r.fallback.RoleVerbs? {
      FirstDeniedIffAll(Permissions({}), r.fallback.verbs);
      assert r.fallback.verbs[0] in r.fallback.verbs;
    }
  }

  /** Upserting a role is authorised iff the caller may update the cluster, or may both create and update roles. */
  lemma {:induction false} UpsertRoleAuthorization(perms: Permissions, cluster: string, role: Role)
    ensures Authorize(perms, Policy(UpsertRole(cluster, role))).None? <==>
      ClusterCheck(cluster, KindCluster, VerbUpdate) in perms.granted ||
      (KindCheck(KindRole, VerbCreate) in perms.granted && KindCheck(KindRole, VerbUpdate) in perms.granted)
    ensures (ClusterCheck(cluster, KindCluster, VerbUpdate) !in perms.granted &&
             KindCheck(KindRole, VerbCreate) !in perms.granted) ==>
      Authorize(perms, Policy(UpsertRole(cluster, role))) == Some(Denied(KindCheck(KindRole, VerbCreate)))
  {
    FirstDeniedIffAll(perms, [VerbCreate, VerbUpdate]);
  }

  /** Listing roles without cluster read needs both role list and role read. */
  lemma {:induction false} GetRolesAuthorization(perms: Permissions, cluster: string)
    ensures Authorize(perms, Policy(GetRoles(cluster))).None? <==>
      ClusterCheck(cluster, KindCluster, VerbRead) in perms.granted ||
      (KindCheck(KindRole, VerbList) in perms.granted && KindCheck(KindRole, VerbRead) in perms.granted)
  {
    FirstDeniedIffAll(perms, [VerbList, VerbRead]);
  }

  // ---------------------------------------------------------------------------
  // The wrapped operator and the decorator
  // ---------------------------------------------------------------------------

  /** The wrapped operator, seen through the calls made to it and the answers it gives. */
  class Operator {
    var calls: seq<OperatorCall>
    const respond: OperatorCall -> Result<Answer, Error>
    const roles: (string, string) -> Result<Role, Error>

    constructor(respond: OperatorCall -> Result<Answer, Error>, roles: (string, string) -> Result<Role, Error>)
      ensures calls == [] && this.respond == respond && this.roles == roles
    {
      calls := [];
      this.respond := respond;
      this.roles := roles;
    }

    method Call(c: OperatorCall) returns (r: Result<Answer, Error>)
      modifies this
      ensures calls == old(calls) + [c]
      ensures r == respond(c)
    {
      calls := calls + [c];
      r := respond(c);
    }

    method FetchRole(cluster: string, name: string) returns (r: Result<Role, Error>)
      modifies this
      ensures calls == old(calls) + [GetRole(cluster, name)]
      ensures r == roles(cluster, name)
    {
      calls := calls + [GetRole(cluster, name)];
      r := roles(cluster, name);
    }
  }

  class OperatorACL {
    const perms: Permissions
    const operator: Operator

    constructor(perms: Permissions, operator: Operator)
      ensures this.perms == perms && this.operator == operator
    {
      this.perms := perms;
      this.operator := operator;
    }

    /** Check the role verbs in order and return the first denial. */
    method RoleActions(verbs: seq<Verb>) returns (err: Option<Error>)
      ensures err.None? <==> forall v :: v in verbs ==> KindCheck(KindRole, v) in perms.granted
      ensures err == FirstDenied(perms, verbs)
    {
      FirstDeniedIffAll(perms, verbs);
      for i := 0 to |verbs|
        invariant FirstDenied(perms, verbs) == FirstDenied(perms, verbs[i..])
      {
        assert verbs[i..][1..] == verbs[i + 1..];
        var denied := CheckAccess(perms, KindCheck(KindRole, verbs[i]));
        if denied.Some? {
          return denied;
        }
      }
      return None;
    }

    /** The checks of a rule, as the guarded methods perform them. */
    method Guard(r: Rule) returns (err: Option<Error>)
      ensures err == Authorize(perms, r)
    {
      match r {
        case Open =>
          err := None;
        case Require(c) =>
          err := CheckAccess(perms, c);
        case ClusterOr(cluster, verb, fb) =>
          err := CheckAccess(perms, ClusterCheck(cluster, KindCluster, verb));
          if err.Some? {
            match fb {
              case RoleVerbs(verbs) =>
                err := RoleActions(verbs);
              case ConnectorVerbs(kind, verbs) =>
                err := CheckAccess(perms, ConnectorCheck(kind, verbs));
            }
          }
      }
    }

    /**
     * Every guarded method whose only work is to check and delegate: a
     * denial is returned and the wrapped operator is not called; otherwise
     * its answer is returned unchanged.
     */
    method Invoke(c: OperatorCall) returns (r: Result<Answer, Error>)
      requires !c.UpsertRole? && !c.DeleteRole? && !c.GetRole?
      modifies operator
      ensures Authorize(perms, Policy(c)).Some? ==>
        r == Err(Authorize(perms, Policy(c)).value) && operator.calls == old(operator.calls)
      ensures Authorize(perms, Policy(c)).None? ==>
        r == operator.respond(c) && operator.calls == old(operator.calls) + [c]
    {
      var err := Guard(Policy(c));
      if err.Some? {
        return Err(err.value);
      }
      r := operator.Call(c);
    }

    method GetRole(cluster: string, name: string) returns (r: Result<Role, Error>)
      modifies operator
      ensures Authorize(perms, Policy(OperatorCall.GetRole(cluster, name))).Some? ==>
        r == Err(Authorize(perms, Policy(OperatorCall.GetRole(cluster, name))).value) && operator.calls == old(operator.calls)
      ensures Authorize(perms, Policy(OperatorCall.GetRole(cluster, name))).None? ==>
        r == operator.roles(cluster, name) && operator.calls == old(operator.calls) + [OperatorCall.GetRole(cluster, name)]
    {
      var err := Guard(Policy(OperatorCall.GetRole(cluster, name)));
      if err.Some? {
        return Err(err.value);
      }
      r := operator.FetchRole(cluster, name);
    }

    /** Upsert a role; a system role is rejected after authorisation and never reaches the wrapped operator. */
    method UpsertRole(cluster: string, role: Role) returns (r: Result<Answer, Error>)
      modifies operator
      ensures Authorize(perms, Policy(OperatorCall.UpsertRole(cluster, role))).Some? ==>
        r == Err(Authorize(perms, Policy(OperatorCall.UpsertRole(cluster, role))).value)
      ensures Authorize(perms, Policy(OperatorCall.UpsertRole(cluster, role))).None? && IsSystem(role) ==>
        r == Err(AccessDenied("system roles can't be created"))
      ensures Authorize(perms, Policy(OperatorCall.UpsertRole(cluster, role))).Some? || IsSystem(role) ==>
        operator.calls == old(operator.calls)
      ensures Authorize(perms, Policy(OperatorCall.UpsertRole(cluster, role))).None? && !IsSystem(role) ==>
        r == operator.respond(OperatorCall.UpsertRole(cluster, role)) &&
        operator.calls == old(operator.calls) + [OperatorCall.UpsertRole(cluster, role)]
    {
      var err := Guard(Policy(OperatorCall.UpsertRole(cluster, role)));
      if err.Some? {
        return Err(err.value);
      }
      if IsSystem(role) {
        return Err(AccessDenied("system roles can't be created"));
      }
      r := operator.Call(OperatorCall.UpsertRole(cluster, role));
    }

    /**
     * Delete a role: authorise, fetch it (a fetch error is returned), reject
     * a system role, and only then delegate the deletion.
     */
    method DeleteRole(cluster: string, name: string) returns (r: Result<Answer, Error>)
      modifies operator
      ensures Authorize(perms, Policy(OperatorCall.DeleteRole(cluster, name))).Some? ==>
        r == Err(Authorize(perms, Policy(OperatorCall.DeleteRole(cluster, name))).value) && operator.calls == old(operator.calls)
      ensures Authorize(perms, Policy(OperatorCall.DeleteRole(cluster, name))).None? ==>
        var fetched := operator.roles(cluster, name);
        && (fetched.Err? ==>
              r == Err(fetched.error) && operator.calls == old(operator.calls) + [OperatorCall.GetRole(cluster, name)])
        && (fetched.Ok? && IsSystem(fetched.value) ==>
              r == Err(AccessDenied("system roles can't be deleted")) &&
              operator.calls == old(operator.calls) + [OperatorCall.GetRole(cluster, name)])
        && (fetched.Ok? && !IsSystem(fetched.value) ==>
              r == operator.respond(OperatorCall.DeleteRole(cluster, name)) &&
              operator.calls == old(operator.calls) + [OperatorCall.GetRole(cluster, name), OperatorCall.DeleteRole(cluster, name)])
    {
      var err := Guard(Policy(OperatorCall.DeleteRole(cluster, name)));
      if err.Some? {
        return Err(err.value);
      }
      var fetched := operator.FetchRole(cluster, name);
      if fetched.Err? {
        return Err(fetched.error);
      }
      if IsSystem(fetched.value) {
        return Err(AccessDenied("system roles can't be deleted"));
      }
      r := operator.Call(OperatorCall.DeleteRole(cluster, name));
    }
  }
}
