/**
 * Operation accessors and terminal state transitions of the ops package.
 *
 * The operator service and the storage backend are one value, `Backend`:
 * what it stores (operations newest first, progress entries, clusters,
 * accounts), which calls fail, and the log of every call made to it. Each
 * accessor and transition takes a backend and returns its result together
 * with the backend after the calls it made.
 */
module Operations {
  import opened Wrappers

  type Timestamp = int

  // The values of these identifiers live in lib/defaults and lib/constants,
  // which are not part of this model; the values below stand in for them.
  const SystemAccountID: string := "00000000-0000-0000-0000-000000000001"
  const SystemAccountOrg: string := "gravitational.io"
  const FinalStep: int := 9
  const CompletedPercent: int := 100

  const CompletedMessage: string := "Operation has completed"
  const FailureText: string := "Operation failure"

  // ---------------------------------------------------------------------------
  // Data model
  // ---------------------------------------------------------------------------

  datatype OperationType = Install | Uninstall | Update | Expand | Shrink | OtherType(name: string)

  datatype OperationState = InProgress(phase: string) | Completed | Failed
  {
    predicate IsTerminal() { Completed? || Failed? }
  }

  datatype ProgressState = ProgressInProgress | ProgressCompleted | ProgressFailed

  datatype SiteKey = SiteKey(accountID: string, siteDomain: string)

  datatype SiteOperationKey = SiteOperationKey(accountID: string, siteDomain: string, operationID: string)

  datatype SiteOperation = SiteOperation(
    id: string,
    accountID: string,
    siteDomain: string,
    opType: OperationType,
    state: OperationState,
    created: Timestamp)
  {
    function Key(): SiteOperationKey { SiteOperationKey(accountID, siteDomain, id) }
    function ClusterKey(): SiteKey { SiteKey(accountID, siteDomain) }
  }

  datatype ProgressEntry = ProgressEntry(
    siteDomain: string,
    operationID: string,
    step: int,
    completion: int,
    state: ProgressState,
    message: string,
    created: Timestamp)

  datatype SetOperationStateRequest = SetOperationStateRequest(state: OperationState, progress: ProgressEntry)

  /** A query descriptor; the defaults are the zero values of the Go struct. */
  datatype OperationsFilter = OperationsFilter(
    types: seq<OperationType> := [],
    last: bool := false,
    active: bool := false,
    complete: bool := false,
    finished: bool := false)

  /** A cluster ("site"). */
  datatype Site = Site(accountID: string, domain: string, local: bool, active: bool)
  {
    function Key(): SiteKey { SiteKey(accountID, domain) }
  }

  datatype Account = Account(id: string, org: string)

  datatype NewAccountRequest = NewAccountRequest(id: string, org: string)

  datatype ActivateSiteRequest = ActivateSiteRequest(accountID: string, siteDomain: string)

  /** The calls the core makes on the operator service and the storage backend. */
  datatype Call =
    | GetSiteOperations(siteKey: SiteKey, filter: OperationsFilter)
    | GetSiteOperation(key: SiteOperationKey)
    | GetSiteOperationProgress(key: SiteOperationKey)
    | GetSites(accountID: string)
    | GetLocalSite(accountID: string)
    | ListClusterOperations(siteDomain: string)
    | SetOperationState(key: SiteOperationKey, stateRequest: SetOperationStateRequest)
    | ActivateSite(activation: ActivateSiteRequest)
    | GetAccounts
    | CreateAccount(account: NewAccountRequest)

  /**
   * Errors: the two the core synthesises itself, and any error a backend
   * call returns (passed through unchanged apart from trace context).
   */
  datatype OpsError = NotFound(what: string) | BadParameter(what: string) | BackendError(call: Call)

  datatype Backend = Backend(
    operations: seq<SiteOperation>,
    progress: seq<ProgressEntry>,
    sites: seq<Site>,
    accounts: seq<Account>,
    failing: set<Call>,
    log: seq<Call>)
  {
    /** This backend after one more call has been made to it. */
    function Record(c: Call): Backend { this.(log := log + [c]) }
  }

  /** What an accessor or transition returns, with the backend after its calls. */
  datatype Reply<T> = Reply(result: Result<T, OpsError>, backend: Backend)

  // ---------------------------------------------------------------------------
  // The backend's side of each call. The operator service and the storage
  // backend are not part of this model; these functions state the behaviour
  // the helpers rely on, an assumption rather than a citation: a filter
  // selects by cluster, type and state, and lists newest first.
  // ---------------------------------------------------------------------------

  /** Whether a stored operation is selected by a filter for a cluster. */
  predicate Matches(op: SiteOperation, siteKey: SiteKey, f: OperationsFilter)
  {
    && op.ClusterKey() == siteKey
    && (f.types == [] || op.opType in f.types)
    && (!f.active || !op.state.IsTerminal())
    && (!f.complete || op.state == Completed)
    && (!f.finished || op.state.IsTerminal())
  }

  /** The stored operations a filter selects, in stored (newest-first) order. */
  function Select(ops: seq<SiteOperation>, siteKey: SiteKey, f: OperationsFilter): (r: seq<SiteOperation>)
    ensures forall op :: op in r <==> op in ops && Matches(op, siteKey, f)
  {
    if ops == [] then []
    else (if Matches(ops[0], siteKey, f) then [ops[0]] else []) + Select(ops[1..], siteKey, f)
  }

  /** The list the operator returns: the selection, cut to its first element for "last". */
  function Listed(b: Backend, siteKey: SiteKey, f: OperationsFilter): Result<seq<SiteOperation>, OpsError>
  {
    var call := GetSiteOperations(siteKey, f);
    if call in b.failing then Err(BackendError(call))
    else
      var selected := Select(b.operations, siteKey, f);
      Ok(if f.last && selected != [] then selected[..1] else selected)
  }

  /** The newest progress entry recorded for an operation. */
  function LatestProgress(entries: seq<ProgressEntry>, key: SiteOperationKey): Option<ProgressEntry>
  {
    if entries == [] then None
    else
      var e := entries[|entries| - 1];
      if e.siteDomain == key.siteDomain && e.operationID == key.operationID then Some(e)
      else LatestProgress(entries[..|entries| - 1], key)
  }

  function ProgressOf(b: Backend, key: SiteOperationKey): Result<ProgressEntry, OpsError>
  {
    var call := GetSiteOperationProgress(key);
    if call in b.failing then Err(BackendError(call))
    else match LatestProgress(b.progress, key)
      case None => Err(BackendError(call))
      case Some(p) => Ok(p)
  }

  function FindOperation(ops: seq<SiteOperation>, key: SiteOperationKey): Option<SiteOperation>
  {
    if ops == [] then None
    else if ops[0].Key() == key then Some(ops[0])
    else FindOperation(ops[1..], key)
  }

  function OperationOf(b: Backend, key: SiteOperationKey): Result<SiteOperation, OpsError>
  {
    var call := GetSiteOperation(key);
    if call in b.failing then Err(BackendError(call))
    else match FindOperation(b.operations, key)
      case None => Err(BackendError(call))
      case Some(op) => Ok(op)
  }

  function SitesOfAccount(sites: seq<Site>, accountID: string): seq<Site>
  {
    if sites == [] then []
    else (if sites[0].accountID == accountID then [sites[0]] else []) + SitesOfAccount(sites[1..], accountID)
  }

  function SitesOf(b: Backend, accountID: string): Result<seq<Site>, OpsError>
  {
    var call := GetSites(accountID);
    if call in b.failing then Err(BackendError(call)) else Ok(SitesOfAccount(b.sites, accountID))
  }

  function FindLocalSite(sites: seq<Site>, accountID: string): Option<Site>
  {
    if sites == [] then None
    else if sites[0].accountID == accountID && sites[0].local then Some(sites[0])
    else FindLocalSite(sites[1..], accountID)
  }

  function LocalSiteOf(b: Backend, accountID: string): Result<Site, OpsError>
  {
    var call := GetLocalSite(accountID);
    if call in b.failing then Err(BackendError(call))
    else match FindLocalSite(b.sites, accountID)
      case None => Err(BackendError(call))
      case Some(s) => Ok(s)
  }

  function OperationsOfDomain(ops: seq<SiteOperation>, domain: string): seq<SiteOperation>
  {
    if ops == [] then []
    else (if ops[0].siteDomain == domain then [ops[0]] else []) + OperationsOfDomain(ops[1..], domain)
  }

  /** The storage backend's listing of a cluster's operations: no filter, stored order. */
  function ClusterOperationsOf(b: Backend, domain: string): Result<seq<SiteOperation>, OpsError>
  {
    var call := ListClusterOperations(domain);
    if call in b.failing then Err(BackendError(call)) else Ok(OperationsOfDomain(b.operations, domain))
  }

  function AccountsOf(b: Backend): Result<seq<Account>, OpsError>
  {
    if GetAccounts in b.failing then Err(BackendError(GetAccounts)) else Ok(b.accounts)
  }

  /** The operations with their state replaced for the one with the given key. */
  function WithState(ops: seq<SiteOperation>, key: SiteOperationKey, state: OperationState): seq<SiteOperation>
  {
    seq(|ops|, i requires 0 <= i < |ops| => if ops[i].Key() == key then ops[i].(state := state) else ops[i])
  }

  /** SetOperationState: record the new state and append the progress entry. */
  function SetStateOn(b: Backend, key: SiteOperationKey, req: SetOperationStateRequest): Reply<()>
  {
    var call := SetOperationState(key, req);
    if call in b.failing then Reply(Err(BackendError(call)), b.Record(call))
    else Reply(Ok(()), b.(operations := WithState(b.operations, key, req.state),
                          progress := b.progress + [req.progress],
                          log := b.log + [call]))
  }

  function ActivateSiteOn(b: Backend, req: ActivateSiteRequest): Reply<()>
  {
    var call := ActivateSite(req);
    if call in b.failing then Reply(Err(BackendError(call)), b.Record(call))
    else
      var sites := seq(|b.sites|, i requires 0 <= i < |b.sites| =>
        var s := b.sites[i];
        if s.accountID == req.accountID && s.domain == req.siteDomain then s.(active := true) else s);
      Reply(Ok(()), b.(sites := sites, log := b.log + [call]))
  }

  function CreateAccountOn(b: Backend, req: NewAccountRequest): Reply<Account>
  {
    var call := CreateAccount(req);
    if call in b.failing then Reply(Err(BackendError(call)), b.Record(call))
    else
      var account := Account(req.id, req.org);
      Reply(Ok(account), b.(accounts := b.accounts + [account], log := b.log + [call]))
  }

  // ---------------------------------------------------------------------------
  // Facts about the backend's selection
  // ---------------------------------------------------------------------------

  /** `op` is the newest stored operation the filter selects for the cluster. */
  ghost predicate IsNewestMatch(ops: seq<SiteOperation>, op: SiteOperation, siteKey: SiteKey, f: OperationsFilter)
  {
    exists i :: 0 <= i < |ops| && ops[i] == op && Matches(op, siteKey, f) &&
      forall j :: 0 <= j < i ==> !Matches(ops[j], siteKey, f)
  }

  /** The head of a selection is the first stored operation that matches. */
  lemma {:induction false} SelectHeadIsNewest(ops: seq<SiteOperation>, siteKey: SiteKey, f: OperationsFilter)
    requires Select(ops, siteKey, f) != []
    ensures IsNewestMatch(ops, Select(ops, siteKey, f)[0], siteKey, f)
  {
    if Matches(ops[0], siteKey, f) {
      assert ops[0] == Select(ops, siteKey, f)[0];
    } else {
      SelectHeadIsNewest(ops[1..], siteKey, f);
      var i :| 0 <= i < |ops[1..]| && ops[1..][i] == Select(ops[1..], siteKey, f)[0] &&
        Matches(ops[1..][i], siteKey, f) &&
        forall j :: 0 <= j < i ==> !Matches(ops[1..][j], siteKey, f);
      assert ops[i + 1] == Select(ops, siteKey, f)[0];
      forall j | 0 <= j < i + 1 ensures !Matches(ops[j], siteKey, f) {
        if j > 0 { assert ops[j] == ops[1..][j - 1]; }
      }
    }
  }

  // ---------------------------------------------------------------------------
  // Single-result accessors
  // ---------------------------------------------------------------------------

  /**
   * The shape every single-result accessor shares: list with a filter, turn
   * an empty list into NotFound, and otherwise take element 0 as returned.
   */
  function FirstOperation(b: Backend, siteKey: SiteKey, f: OperationsFilter, what: string): (r: Reply<SiteOperation>)
    ensures r.backend == b.Record(GetSiteOperations(siteKey, f))
    ensures Listed(b, siteKey, f).Err? ==> r.result == Err(Listed(b, siteKey, f).error)
    ensures Listed(b, siteKey, f) == Ok([]) ==> r.result == Err(NotFound(what))
    ensures Listed(b, siteKey, f).Ok? && Listed(b, siteKey, f).value != [] ==>
      r.result == Ok(Listed(b, siteKey, f).value[0])
    ensures r.result.Ok? ==> IsNewestMatch(b.operations, r.result.value, siteKey, f)
    ensures r.result == Err(NotFound(what)) <==>
      GetSiteOperations(siteKey, f) !in b.failing && forall op :: op in b.operations ==> !Matches(op, siteKey, f)
  {
    var b1 := b.Record(GetSiteOperations(siteKey, f));
    match Listed(b, siteKey, f)
    case Err(e) => Reply(Err(e), b1)
    case Ok(ops) =>
      if |ops| == 0 then Reply(Err(NotFound(what)), b1)
      else
        SelectHeadIsNewest(b.operations, siteKey, f);
        Reply(Ok(ops[0]), b1)
  }

  /** FirstOperation followed by the progress of the operation found. */
  function FirstWithProgress(b: Backend, siteKey: SiteKey, f: OperationsFilter, what: string)
    : (r: Reply<(SiteOperation, ProgressEntry)>)
    ensures var first := FirstOperation(b, siteKey, f, what);
      && (first.result.Err? ==> r == Reply(Err(first.result.error), first.backend))
      && (first.result.Ok? ==>
            var key := first.result.value.Key();
            && r.backend == first.backend.Record(GetSiteOperationProgress(key))
            && (ProgressOf(b, key).Err? ==> r.result == Err(ProgressOf(b, key).error))
            && (ProgressOf(b, key).Ok? ==> r.result == Ok((first.result.value, ProgressOf(b, key).value))))
  {
    var first := FirstOperation(b, siteKey, f, what);
    match first.result
    case Err(e) => Reply(Err(e), first.backend)
    case Ok(op) =>
      var b2 := first.backend.Record(GetSiteOperationProgress(op.Key()));
      match ProgressOf(b, op.Key())
      case Err(e) => Reply(Err(e), b2)
      case Ok(p) => Reply(Ok((op, p)), b2)
  }

  /** The install operation of a cluster, with its progress. */
  function GetInstallOperation(siteKey: SiteKey, b: Backend): (r: Reply<(SiteOperation, ProgressEntry)>)
    ensures |r.backend.log| > |b.log| && r.backend.log[..|b.log| + 1] == b.log + [GetSiteOperations(siteKey, OperationsFilter(types := [Install]))]
    ensures r.result.Ok? ==> r.result.value.0.ClusterKey() == siteKey && r.result.value.0.opType == Install
    ensures r.result.Ok? ==> Some(r.result.value.1) == LatestProgress(b.progress, r.result.value.0.Key())
    ensures r.result == Err(NotFound("no install operation found")) <==>
      GetSiteOperations(siteKey, OperationsFilter(types := [Install])) !in b.failing &&
      forall op :: op in b.operations ==> !(op.ClusterKey() == siteKey && op.opType == Install)
  {
    FirstWithProgress(b, siteKey, OperationsFilter(types := [Install]), "no install operation found")
  }

  /** The newest uninstall operation of a cluster, with its progress. */
  function GetLastUninstallOperation(siteKey: SiteKey, b: Backend): (r: Reply<(SiteOperation, ProgressEntry)>)
    ensures |r.backend.log| > |b.log| && r.backend.log[..|b.log| + 1] ==
      b.log + [GetSiteOperations(siteKey, OperationsFilter(types := [Uninstall], last := true))]
    ensures r.result.Ok? ==> r.result.value.0.ClusterKey() == siteKey && r.result.value.0.opType == Uninstall
    ensures r.result.Ok? ==> Some(r.result.value.1) == LatestProgress(b.progress, r.result.value.0.Key())
    ensures r.result == Err(NotFound("no uninstall operation found")) <==>
      GetSiteOperations(siteKey, OperationsFilter(types := [Uninstall], last := true)) !in b.failing &&
      forall op :: op in b.operations ==> !(op.ClusterKey() == siteKey && op.opType == Uninstall)
  {
    FirstWithProgress(b, siteKey, OperationsFilter(types := [Uninstall], last := true), "no uninstall operation found")
  }

  /** The newest completed update operation of a cluster. */
  function GetLastCompletedUpdateOperation(siteKey: SiteKey, b: Backend): (r: Reply<SiteOperation>)
    ensures r.backend == b.Record(GetSiteOperations(siteKey, OperationsFilter(types := [Update], last := true, complete := true)))
    ensures r.result.Ok? ==>
      r.result.value.ClusterKey() == siteKey && r.result.value.opType == Update && r.result.value.state == Completed
    ensures r.result == Err(NotFound("no completed update operation found")) <==>
      GetSiteOperations(siteKey, OperationsFilter(types := [Update], last := true, complete := true)) !in b.failing &&
      forall op :: op in b.operations ==>
        !(op.ClusterKey() == siteKey && op.opType == Update && op.state == Completed)
  {
    FirstOperation(b, siteKey, OperationsFilter(types := [Update], last := true, complete := true),
      "no completed update operation found")
  }

  /** The newest completed install operation of a cluster. */
  function GetCompletedInstallOperation(siteKey: SiteKey, b: Backend): (r: Reply<SiteOperation>)
    ensures r.backend == b.Record(GetSiteOperations(siteKey, OperationsFilter(types := [Install], last := true, complete := true)))
    ensures r.result.Ok? ==>
      r.result.value.ClusterKey() == siteKey && r.result.value.opType == Install && r.result.value.state == Completed
    ensures r.result == Err(NotFound("no completed install operation found")) <==>
      GetSiteOperations(siteKey, OperationsFilter(types := [Install], last := true, complete := true)) !in b.failing &&
      forall op :: op in b.operations ==>
        !(op.ClusterKey() == siteKey && op.opType == Install && op.state == Completed)
  {
    FirstOperation(b, siteKey, OperationsFilter(types := [Install], last := true, complete := true),
      "no completed install operation found")
  }

  /** The newest operation of a cluster, of any type and state, with its progress. */
  function GetLastOperation(siteKey: SiteKey, b: Backend): (r: Reply<(SiteOperation, ProgressEntry)>)
    ensures |r.backend.log| > |b.log| && r.backend.log[..|b.log| + 1] == b.log + [GetSiteOperations(siteKey, OperationsFilter(last := true))]
    ensures r.result.Ok? ==> r.result.value.0.ClusterKey() == siteKey
    ensures r.result.Ok? ==> Some(r.result.value.1) == LatestProgress(b.progress, r.result.value.0.Key())
    ensures r.result == Err(NotFound("no operation found")) <==>
      GetSiteOperations(siteKey, OperationsFilter(last := true)) !in b.failing &&
      forall op :: op in b.operations ==> op.ClusterKey() != siteKey
  {
    FirstWithProgress(b, siteKey, OperationsFilter(last := true), "no operation found")
  }

  /** The newest operation of a cluster that reached a terminal state, with its progress. */
  function GetLastFinishedOperation(siteKey: SiteKey, b: Backend): (r: Reply<(SiteOperation, ProgressEntry)>)
    ensures |r.backend.log| > |b.log| && r.backend.log[..|b.log| + 1] ==
      b.log + [GetSiteOperations(siteKey, OperationsFilter(last := true, finished := true))]
    ensures r.result.Ok? ==> r.result.value.0.ClusterKey() == siteKey && r.result.value.0.state.IsTerminal()
    ensures r.result.Ok? ==> Some(r.result.value.1) == LatestProgress(b.progress, r.result.value.0.Key())
    ensures r.result == Err(NotFound("no completed operation found")) <==>
      GetSiteOperations(siteKey, OperationsFilter(last := true, finished := true)) !in b.failing &&
      forall op :: op in b.operations ==> !(op.ClusterKey() == siteKey && op.state.IsTerminal())
  {
    FirstWithProgress(b, siteKey, OperationsFilter(last := true, finished := true), "no completed operation found")
  }

  /** The newest update operation of a cluster, whatever its state. */
  function GetLastUpgradeOperation(siteKey: SiteKey, b: Backend): (r: Reply<SiteOperation>)
    ensures r.backend == b.Record(GetSiteOperations(siteKey, OperationsFilter(types := [Update], last := true)))
    ensures r.result.Ok? ==> r.result.value.ClusterKey() == siteKey && r.result.value.opType == Update
    ensures r.result == Err(NotFound("no upgrade operation found")) <==>
      GetSiteOperations(siteKey, OperationsFilter(types := [Update], last := true)) !in b.failing &&
      forall op :: op in b.operations ==> !(op.ClusterKey() == siteKey && op.opType == Update)
  {
    FirstOperation(b, siteKey, OperationsFilter(types := [Update], last := true), "no upgrade operation found")
  }

  /** The newest shrink operation of a cluster. */
  function GetLastShrinkOperation(siteKey: SiteKey, b: Backend): (r: Reply<SiteOperation>)
    ensures r.backend == b.Record(GetSiteOperations(siteKey, OperationsFilter(types := [Shrink], last := true)))
    ensures r.result.Ok? ==> r.result.value.ClusterKey() == siteKey && r.result.value.opType == Shrink
    ensures r.result == Err(NotFound("no shrink operation found")) <==>
      GetSiteOperations(siteKey, OperationsFilter(types := [Shrink], last := true)) !in b.failing &&
      forall op :: op in b.operations ==> !(op.ClusterKey() == siteKey && op.opType == Shrink)
  {
    FirstOperation(b, siteKey, OperationsFilter(types := [Shrink], last := true), "no shrink operation found")
  }

  /** An operation and its progress by key, with no filtering. */
  function GetOperationWithProgress(opKey: SiteOperationKey, b: Backend): (r: Reply<(SiteOperation, ProgressEntry)>)
    ensures OperationOf(b, opKey).Err? ==>
      r == Reply(Err(OperationOf(b, opKey).error), b.Record(GetSiteOperation(opKey)))
    ensures OperationOf(b, opKey).Ok? ==>
      r.backend == b.Record(GetSiteOperation(opKey)).Record(GetSiteOperationProgress(opKey))
    ensures OperationOf(b, opKey).Ok? ==>
      r.result == (match ProgressOf(b, opKey)
                   case Err(e) => Err(e)
                   case Ok(p) => Ok((OperationOf(b, opKey).value, p)))
    ensures r.result.Ok? ==>
      r.result.value.0.Key() == opKey && r.result.value.0 in b.operations &&
      Some(r.result.value.1) == LatestProgress(b.progress, opKey)
  {
    var b1 := b.Record(GetSiteOperation(opKey));
    match OperationOf(b, opKey)
    case Err(e) => Reply(Err(e), b1)
    case Ok(op) =>
      FoundOperationHasKey(b.operations, opKey);
      var b2 := b1.Record(GetSiteOperationProgress(opKey));
      match ProgressOf(b, opKey)
      case Err(e) => Reply(Err(e), b2)
      case Ok(p) => Reply(Ok((op, p)), b2)
  }

  lemma {:induction false} FoundOperationHasKey(ops: seq<SiteOperation>, key: SiteOperationKey)
    ensures FindOperation(ops, key).Some? ==>
      FindOperation(ops, key).value.Key() == key && FindOperation(ops, key).value in ops
    ensures FindOperation(ops, key).None? ==> forall op :: op in ops ==> op.Key() != key
  {
    if ops != [] {
      FoundOperationHasKey(ops[1..], key);
    }
  }

  /**
   * "Last" is the backend's order and nothing else: with two operations that
   * both match, whichever is stored first is returned, so swapping them
   * swaps the answer.
   */
  lemma {:induction false} BackendOrderDecides(b: Backend, siteKey: SiteKey, f: OperationsFilter, x: SiteOperation, y: SiteOperation, what: string)
    requires Matches(x, siteKey, f) && Matches(y, siteKey, f)
    requires GetSiteOperations(siteKey, f) !in b.failing
    ensures FirstOperation(b.(operations := [x, y]), siteKey, f, what).result == Ok(x)
    ensures FirstOperation(b.(operations := [y, x]), siteKey, f, what).result == Ok(y)
  {
    assert [x, y][1..] == [y];
    assert [y, x][1..] == [x];
    assert [y][1..] == [] && [x][1..] == [];
    assert Select([x, y], siteKey, f)[0] == x;
    assert Select([y, x], siteKey, f)[0] == y;
  }

  // ---------------------------------------------------------------------------
  // Plural accessors
  // ---------------------------------------------------------------------------

  /** All currently active operations of a cluster, in the order the backend returned them. */
  method GetActiveOperations(siteKey: SiteKey, b: Backend) returns (r: Reply<seq<SiteOperation>>)
    ensures r.backend == b.Record(GetSiteOperations(siteKey, OperationsFilter(active := true)))
    ensures Listed(b, siteKey, OperationsFilter(active := true)).Err? ==>
      r.result == Err(Listed(b, siteKey, OperationsFilter(active := true)).error)
    ensures Listed(b, siteKey, OperationsFilter(active := true)) == Ok([]) ==>
      r.result == Err(NotFound("no active operation found"))
    ensures (Listed(b, siteKey, OperationsFilter(active := true)).Ok? &&
             Listed(b, siteKey, OperationsFilter(active := true)).value != []) ==>
      r.result == Listed(b, siteKey, OperationsFilter(active := true))
    ensures r.result.Ok? ==> forall op :: op in r.result.value <==>
      op in b.operations && op.ClusterKey() == siteKey && !op.state.IsTerminal()
  {
    var f := OperationsFilter(active := true);
    var b1 := b.Record(GetSiteOperations(siteKey, f));
    var listed := Listed(b, siteKey, f);
    if listed.Err? {
      return Reply(Err(listed.error), b1);
    }
    var operations := listed.value;
    if |operations| == 0 {
      return Reply(Err(NotFound("no active operation found")), b1);
    }
    var active: seq<SiteOperation> := [];
    for i := 0 to |operations|
      invariant active == operations[..i]
    {
      active := active + [operations[i]];
    }
    assert active == operations;
    r := Reply(Ok(active), b1);
  }

  /** All currently active operations of one type, in the order the backend returned them. */
  method GetActiveOperationsByType(siteKey: SiteKey, b: Backend, opType: OperationType) returns (r: Reply<seq<SiteOperation>>)
    ensures r.backend == b.Record(GetSiteOperations(siteKey, OperationsFilter(types := [opType], active := true)))
    ensures Listed(b, siteKey, OperationsFilter(types := [opType], active := true)).Err? ==>
      r.result == Err(Listed(b, siteKey, OperationsFilter(types := [opType], active := true)).error)
    ensures Listed(b, siteKey, OperationsFilter(types := [opType], active := true)) == Ok([]) ==>
      r.result == Err(NotFound("no active operation found with type"))
    ensures (Listed(b, siteKey, OperationsFilter(types := [opType], active := true)).Ok? &&
             Listed(b, siteKey, OperationsFilter(types := [opType], active := true)).value != []) ==>
      r.result == Listed(b, siteKey, OperationsFilter(types := [opType], active := true))
    ensures r.result.Ok? ==> forall op :: op in r.result.value <==>
      op in b.operations && op.ClusterKey() == siteKey && op.opType == opType && !op.state.IsTerminal()
  {
    var f := OperationsFilter(types := [opType], active := true);
    var b1 := b.Record(GetSiteOperations(siteKey, f));
    var listed := Listed(b, siteKey, f);
    if listed.Err? {
      return Reply(Err(listed.error), b1);
    }
    var operations := listed.value;
    if |operations| == 0 {
      return Reply(Err(NotFound("no active operation found with type")), b1);
    }
    var active: seq<SiteOperation> := [];
    for i := 0 to |operations|
      invariant active == operations[..i]
    {
      active := active + [operations[i]];
    }
    assert active == operations;
    r := Reply(Ok(active), b1);
  }

  // ---------------------------------------------------------------------------
  // Wizard mode
  // ---------------------------------------------------------------------------

  /** The install operation of the one cluster a wizard process manages. */
  function GetWizardOperation(b: Backend): (r: Reply<SiteOperation>)
    ensures |r.backend.log| > |b.log| && r.backend.log[..|b.log| + 1] == b.log + [GetSites(SystemAccountID)]
    ensures SitesOf(b, SystemAccountID).Err? ==> r == Reply(Err(SitesOf(b, SystemAccountID).error), b.Record(GetSites(SystemAccountID)))
    ensures r.result == Err(BadParameter("expected 1 cluster")) <==>
      SitesOf(b, SystemAccountID).Ok? && |SitesOf(b, SystemAccountID).value| != 1
    ensures r.result.Ok? ==>
      SitesOf(b, SystemAccountID).Ok? && |SitesOf(b, SystemAccountID).value| == 1 &&
      r.result.value.ClusterKey() == SitesOf(b, SystemAccountID).value[0].Key() &&
      r.result.value.opType == Install
    ensures SitesOf(b, SystemAccountID).Ok? && |SitesOf(b, SystemAccountID).value| == 1 ==>
      var found := GetInstallOperation(SitesOf(b, SystemAccountID).value[0].Key(), b.Record(GetSites(SystemAccountID)));
      && r.backend == found.backend
      && r.result == (match found.result
                      case Err(e) => Err(e)
                      case Ok(pair) => Ok(pair.0))
  {
    var b1 := b.Record(GetSites(SystemAccountID));
    match SitesOf(b, SystemAccountID)
    case Err(e) => Reply(Err(e), b1)
    case Ok(clusters) =>
      if |clusters| != 1 then Reply(Err(BadParameter("expected 1 cluster")), b1)
      else
        var found := GetInstallOperation(clusters[0].Key(), b1);
        match found.result
        case Err(e) =>
          assert e != BadParameter("expected 1 cluster") by {
            assert e.NotFound? || e.BackendError?;
          }
          Reply(Err(e), found.backend)
        case Ok(pair) => Reply(Ok(pair.0), found.backend)
  }

  /** The one cluster a wizard process manages. */
  function GetWizardCluster(b: Backend): (r: Reply<Site>)
    ensures r.backend == b.Record(GetSites(SystemAccountID))
    ensures SitesOf(b, SystemAccountID).Err? ==> r.result == Err(SitesOf(b, SystemAccountID).error)
    ensures r.result == Err(BadParameter("expected 1 cluster")) <==>
      SitesOf(b, SystemAccountID).Ok? && |SitesOf(b, SystemAccountID).value| != 1
    ensures r.result.Ok? ==>
      SitesOf(b, SystemAccountID).Ok? && SitesOf(b, SystemAccountID).value == [r.result.value] &&
      r.result.value.accountID == SystemAccountID
    ensures SitesOf(b, SystemAccountID).Ok? && |SitesOf(b, SystemAccountID).value| == 1 ==>
      r.result == Ok(SitesOf(b, SystemAccountID).value[0])
  {
    var b1 := b.Record(GetSites(SystemAccountID));
    match SitesOf(b, SystemAccountID)
    case Err(e) => Reply(Err(e), b1)
    case Ok(clusters) =>
      if |clusters| != 1 then Reply(Err(BadParameter("expected 1 cluster")), b1)
      else
        SitesOfAccountBelong(b.sites, SystemAccountID);
        Reply(Ok(clusters[0]), b1)
  }

  lemma {:induction false} SitesOfAccountBelong(sites: seq<Site>, accountID: string)
    ensures forall s :: s in SitesOfAccount(sites, accountID) <==> s in sites && s.accountID == accountID
  {
    if sites != [] {
      SitesOfAccountBelong(sites[1..], accountID);
    }
  }

  // ---------------------------------------------------------------------------
  // Terminal state transitions
  // ---------------------------------------------------------------------------

  /** Go's unicode.IsSpace. */
  predicate IsSpace(c: char)
  {
    var n := c as int;
    n == 0x20 || 0x09 <= n <= 0x0D || n == 0x85 || n == 0xA0 || n == 0x1680 ||
    0x2000 <= n <= 0x200A || n == 0x2028 || n == 0x2029 || n == 0x202F || n == 0x205F || n == 0x3000
  }

  function TrimLeft(s: string): string
  {
    if s != [] && IsSpace(s[0]) then TrimLeft(s[1..]) else s
  }

  function TrimRight(s: string): string
  {
    if s != [] && IsSpace(s[|s| - 1]) then TrimRight(s[..|s| - 1]) else s
  }

  /** Go's strings.TrimSpace: drop leading and trailing white space. */
  function TrimSpace(s: string): string
  {
    TrimRight(TrimLeft(s))
  }

  /** The progress message of a failed operation. */
  function FailureMessage(message: string): string
  {
    TrimSpace(if message != "" then FailureText + ": " + message else FailureText)
  }

  /** The state request that completes an operation. */
  function CompletedRequest(key: SiteOperationKey, now: Timestamp): SetOperationStateRequest
  {
    SetOperationStateRequest(Completed,
      ProgressEntry(key.siteDomain, key.operationID, FinalStep, CompletedPercent, ProgressCompleted, CompletedMessage, now))
  }

  /** The state request that fails an operation. */
  function FailedRequest(key: SiteOperationKey, message: string, now: Timestamp): SetOperationStateRequest
  {
    SetOperationStateRequest(Failed,
      ProgressEntry(key.siteDomain, key.operationID, FinalStep, CompletedPercent, ProgressFailed, FailureMessage(message), now))
  }

  /** Trailing white space of the second part is all that trimming an appended string can remove. */
  lemma {:induction false} TrimRightAppend(a: string, b: string)
    ensures TrimRight(a + b) == if TrimRight(b) == "" then TrimRight(a) else a + TrimRight(b)
    decreases |b|
  {
    if b == [] {
      assert a + b == a;
    } else {
      assert (a + b)[..|a + b| - 1] == a + b[..|b| - 1];
      if IsSpace(b[|b| - 1]) {
        TrimRightAppend(a, b[..|b| - 1]);
      }
    }
  }

  lemma {:induction false} TrimRightIsPrefix(s: string)
    ensures TrimRight(s) <= s
    ensures TrimRight(s) != "" ==> !IsSpace(TrimRight(s)[|TrimRight(s)| - 1])
    decreases |s|
  {
    if s != [] && IsSpace(s[|s| - 1]) {
      TrimRightIsPrefix(s[..|s| - 1]);
    }
  }

  /**
   * The failure message exactly: "Operation failure" for an empty message,
   * "Operation failure:" for one of white space only, and otherwise the
   * prefix, a colon, a space and the message without its trailing white space.
   */
  lemma {:induction false} FailureMessageShape(message: string)
    ensures message == "" ==> FailureMessage(message) == FailureText
    ensures message != "" && TrimRight(message) == "" ==> FailureMessage(message) == FailureText + ":"
    ensures TrimRight(message) != "" ==> FailureMessage(message) == FailureText + ": " + TrimRight(message)
  {
    var prefix := FailureText + ": ";
    assert TrimRight(FailureText) == FailureText;
    assert prefix[..|prefix| - 1] == FailureText + ":";
    assert TrimRight(FailureText + ":") == FailureText + ":";
    assert TrimRight(prefix) == FailureText + ":";
    if message == "" {
      assert TrimLeft(FailureText) == FailureText;
    } else {
      assert (prefix + message)[0] == 'O';
      assert TrimLeft(prefix + message) == prefix + message;
      TrimRightAppend(prefix, message);
    }
  }

  /** Worked examples, and the trimmed message carries no outer white space. */
  lemma {:induction false} FailureMessageExamples(message: string)
    ensures FailureMessage("disk full") == "Operation failure: disk full"
    ensures FailureMessage("") == "Operation failure"
    ensures FailureMessage(" \n") == "Operation failure:"
    ensures |FailureMessage(message)| > 0 && !IsSpace(FailureMessage(message)[0]) && !IsSpace(FailureMessage(message)[|FailureMessage(message)| - 1])
  {
    FailureMessageShape("disk full");
    assert TrimRight("disk full") == "disk full";
    FailureMessageShape("");
    FailureMessageShape(" \n");
    assert TrimRight(" \n") == TrimRight(" ") == "";
    FailureMessageShape(message);
    TrimRightIsPrefix(message);
    if TrimRight(message) != "" {
      var t := TrimRight(message);
      assert (FailureText + ": " + t)[|FailureText + ": " + t| - 1] == t[|t| - 1];
    }
  }

  /** Mark an operation completed: exactly one state request, with the fixed final progress entry. */
  function CompleteOperation(key: SiteOperationKey, b: Backend, now: Timestamp): (r: Reply<()>)
    ensures r.backend.log == b.log + [SetOperationState(key, CompletedRequest(key, now))]
    ensures r.result.Ok? <==> SetOperationState(key, CompletedRequest(key, now)) !in b.failing
    ensures r.result.Ok? ==> r.backend.progress == b.progress + [CompletedRequest(key, now).progress]
    ensures r.result.Ok? ==> forall i :: 0 <= i < |r.backend.operations| && r.backend.operations[i].Key() == key ==>
      r.backend.operations[i].state == Completed
    ensures r.result.Err? ==> r.backend == b.Record(SetOperationState(key, CompletedRequest(key, now)))
  {
    SetStateOn(b, key, CompletedRequest(key, now))
  }

  /** Mark an operation failed, with the trimmed failure message. */
  function FailOperation(key: SiteOperationKey, b: Backend, message: string, now: Timestamp): (r: Reply<()>)
    ensures r.backend.log == b.log + [SetOperationState(key, FailedRequest(key, message, now))]
    ensures r.result.Ok? <==> SetOperationState(key, FailedRequest(key, message, now)) !in b.failing
    ensures r.result.Ok? ==> r.backend.progress == b.progress + [FailedRequest(key, message, now).progress]
    ensures r.result.Ok? ==> forall i :: 0 <= i < |r.backend.operations| && r.backend.operations[i].Key() == key ==>
      r.backend.operations[i].state == Failed
    ensures r.result.Err? ==> r.backend == b.Record(SetOperationState(key, FailedRequest(key, message, now)))
  {
    SetStateOn(b, key, FailedRequest(key, message, now))
  }

  /** The progress entries of a request: the operation it names, step and completion final. */
  lemma {:induction false} TerminalRequestsAreFinal(key: SiteOperationKey, message: string, now: Timestamp)
    ensures var p := CompletedRequest(key, now).progress;
      p.siteDomain == key.siteDomain && p.operationID == key.operationID &&
      p.step == FinalStep && p.completion == CompletedPercent && p.state == ProgressCompleted &&
      p.message == "Operation has completed" && p.created == now
    ensures var p := FailedRequest(key, message, now).progress;
      p.siteDomain == key.siteDomain && p.operationID == key.operationID &&
      p.step == FinalStep && p.completion == CompletedPercent && p.state == ProgressFailed &&
      p.created == now && (message == "" ==> p.message == "Operation failure")
  {
  }

  /**
   * Completion is not deduplicated: completing twice issues two requests and
   * appends two terminal entries, and the progress read back afterwards is
   * the completed entry.
   */
  lemma {:induction false} CompleteTwiceAppendsTwice(key: SiteOperationKey, b: Backend, t1: Timestamp, t2: Timestamp)
    requires SetOperationState(key, CompletedRequest(key, t1)) !in b.failing
    requires SetOperationState(key, CompletedRequest(key, t2)) !in b.failing
    requires GetSiteOperationProgress(key) !in b.failing
    ensures var once := CompleteOperation(key, b, t1).backend;
      var twice := CompleteOperation(key, once, t2).backend;
      && twice.log == b.log + [SetOperationState(key, CompletedRequest(key, t1)), SetOperationState(key, CompletedRequest(key, t2))]
      && twice.progress == b.progress + [CompletedRequest(key, t1).progress, CompletedRequest(key, t2).progress]
      && ProgressOf(twice, key) == Ok(CompletedRequest(key, t2).progress)
  {
    var once := CompleteOperation(key, b, t1).backend;
    var twice := CompleteOperation(key, once, t2).backend;
    assert twice.progress[|twice.progress| - 1] == CompletedRequest(key, t2).progress;
  }

  /**
   * Fail the operation, then reactivate its cluster. If failing errors, the
   * cluster is not reactivated and the error is returned.
   */
  function FailOperationAndResetCluster(key: SiteOperationKey, b: Backend, message: string, now: Timestamp): (r: Reply<()>)
    ensures var failCall := SetOperationState(key, FailedRequest(key, message, now));
      && |r.backend.log| > |b.log| && r.backend.log[|b.log|] == failCall
      && (failCall in b.failing ==>
            r.result == Err(BackendError(failCall)) && r.backend.log == b.log + [failCall])
      && (failCall !in b.failing ==>
            r.backend.log == b.log + [failCall, ActivateSite(ActivateSiteRequest(key.accountID, key.siteDomain))])
    ensures var failCall := SetOperationState(key, FailedRequest(key, message, now));
      var activate := ActivateSite(ActivateSiteRequest(key.accountID, key.siteDomain));
      failCall !in b.failing ==>
        && (r.result.Ok? <==> activate !in b.failing)
        && (activate in b.failing ==> r.result == Err(BackendError(activate)))
    ensures r.result.Ok? ==>
      forall s :: s in r.backend.sites && s.accountID == key.accountID && s.domain == key.siteDomain ==> s.active
    ensures r.result.Ok? ==> forall op :: op in r.backend.operations && op.Key() == key ==> op.state == Failed
  {
    var failed := FailOperation(key, b, message, now);
    if failed.result.Err? then failed
    else ActivateSiteOn(failed.backend, ActivateSiteRequest(key.accountID, key.siteDomain))
  }

  /** No cluster is reactivated when failing the operation errors. */
  lemma {:induction false} NoResetAfterFailedFail(key: SiteOperationKey, b: Backend, message: string, now: Timestamp)
    requires FailOperation(key, b, message, now).result.Err?
    ensures var r := FailOperationAndResetCluster(key, b, message, now);
      r.result == FailOperation(key, b, message, now).result &&
      r.backend.sites == b.sites &&
      forall c :: c in r.backend.log[|b.log|..] ==> !c.ActivateSite?
  {
    var r := FailOperationAndResetCluster(key, b, message, now);
    assert r.backend.log[|b.log|..] == [SetOperationState(key, FailedRequest(key, message, now))];
  }

  // ---------------------------------------------------------------------------
  // Searches
  // ---------------------------------------------------------------------------

  /** The first expand operation of the local cluster, in the order the backend lists them. */
  method GetExpandOperation(b: Backend) returns (r: Reply<SiteOperation>)
    ensures LocalSiteOf(b, SystemAccountID).Err? ==>
      r == Reply(Err(LocalSiteOf(b, SystemAccountID).error), b.Record(GetLocalSite(SystemAccountID)))
    ensures LocalSiteOf(b, SystemAccountID).Ok? ==>
      var domain := LocalSiteOf(b, SystemAccountID).value.domain;
      var listed := ClusterOperationsOf(b, domain);
      && r.backend == b.Record(GetLocalSite(SystemAccountID)).Record(ListClusterOperations(domain))
      && (listed.Err? ==> r.result == Err(listed.error))
      && (listed.Ok? ==>
            && (r.result.Ok? ==>
                  (exists i :: 0 <= i < |listed.value| && listed.value[i] == r.result.value &&
                     r.result.value.opType == Expand && forall j :: 0 <= j < i ==> listed.value[j].opType != Expand))
            && (r.result.Err? <==> forall op :: op in listed.value ==> op.opType != Expand)
            && (r.result.Err? ==> r.result.error == NotFound("expand operation not found"))
            && (r.result.Ok? ==> r.result == Ok(SelectBy(listed.value, MatchByType(Expand))[0])))
  {
    var b1 := b.Record(GetLocalSite(SystemAccountID));
    var cluster := LocalSiteOf(b, SystemAccountID);
    if cluster.Err? {
      return Reply(Err(cluster.error), b1);
    }
    var b2 := b1.Record(ListClusterOperations(cluster.value.domain));
    var listed := ClusterOperationsOf(b, cluster.value.domain);
    if listed.Err? {
      return Reply(Err(listed.error), b2);
    }
    var operations := listed.value;
    var i := 0;
    while i < |operations|
      invariant 0 <= i <= |operations|
      invariant forall j :: 0 <= j < i ==> operations[j].opType != Expand
    {
      if operations[i].opType == Expand {
        SelectByFirst(operations, MatchByType(Expand), i);
        return Reply(Ok(operations[i]), b2);
      }
      i := i + 1;
    }
    r := Reply(Err(NotFound("expand operation not found")), b2);
  }

  /**
   * The system account: the first account of the system organisation if one
   * exists, without creating anything; otherwise the account created for it.
   */
  method UpsertSystemAccount(b: Backend) returns (r: Reply<Account>)
    ensures GetAccounts in b.failing ==> r == Reply(Err(BackendError(GetAccounts)), b.Record(GetAccounts))
    ensures GetAccounts !in b.failing && (exists a :: a in b.accounts && a.org == SystemAccountOrg) ==>
      && r.backend == b.Record(GetAccounts)
      && r.result.Ok? && r.result.value.org == SystemAccountOrg
      && exists i :: 0 <= i < |b.accounts| && b.accounts[i] == r.result.value &&
           forall j :: 0 <= j < i ==> b.accounts[j].org != SystemAccountOrg
    ensures GetAccounts !in b.failing && (forall a :: a in b.accounts ==> a.org != SystemAccountOrg) ==>
      r == CreateAccountOn(b.Record(GetAccounts), NewAccountRequest(SystemAccountID, SystemAccountOrg))
    ensures r.result.Ok? ==> r.result.value.org == SystemAccountOrg && r.result.value in r.backend.accounts
  {
    var b1 := b.Record(GetAccounts);
    var listed := AccountsOf(b);
    if listed.Err? {
      return Reply(Err(listed.error), b1);
    }
    var accounts := listed.value;
    var i := 0;
    while i < |accounts|
      invariant 0 <= i <= |accounts|
      invariant forall j :: 0 <= j < i ==> accounts[j].org != SystemAccountOrg
    {
      if accounts[i].org == SystemAccountOrg {
        return Reply(Ok(accounts[i]), b1);
      }
      i := i + 1;
    }
    r := CreateAccountOn(b1, NewAccountRequest(SystemAccountID, SystemAccountOrg));
  }

  /** A matcher that accepts exactly the operations of one type. */
  function MatchByType(opType: OperationType): (m: SiteOperation -> bool)
    ensures forall op :: m(op) <==> op.opType == opType
  {
    (op: SiteOperation) => op.opType == opType
  }

  /**
   * The in-process matcher and the backend's type filter agree: a filter
   * naming one type selects, for a cluster, exactly the cluster's operations
   * the matcher for that type accepts, in the same order.
   */
  lemma {:induction false} MatchByTypeAgreesWithFilter(ops: seq<SiteOperation>, siteKey: SiteKey, opType: OperationType)
    ensures forall op :: Matches(op, siteKey, OperationsFilter(types := [opType])) <==>
      op.ClusterKey() == siteKey && MatchByType(opType)(op)
    ensures Select(ops, siteKey, OperationsFilter(types := [opType])) ==
      SelectBy(ops, (op: SiteOperation) => op.ClusterKey() == siteKey && MatchByType(opType)(op))
  {
    if ops != [] {
      MatchByTypeAgreesWithFilter(ops[1..], siteKey, opType);
    }
  }

  /** The first operation a matcher accepts is the head of what it selects. */
  lemma {:induction false} SelectByFirst(ops: seq<SiteOperation>, m: SiteOperation -> bool, i: nat)
    requires i < |ops| && m(ops[i])
    requires forall j :: 0 <= j < i ==> !m(ops[j])
    ensures |SelectBy(ops, m)| > 0 && SelectBy(ops, m)[0] == ops[i]
  {
    if i > 0 {
      SelectByFirst(ops[1..], m, i - 1);
    }
  }

  /** The operations a matcher accepts, in their stored order. */
  function SelectBy(ops: seq<SiteOperation>, m: SiteOperation -> bool): (r: seq<SiteOperation>)
    ensures forall op :: op in r <==> op in ops && m(op)
    ensures |r| <= |ops|
  {
    if ops == [] then []
    else (if m(ops[0]) then [ops[0]] else []) + SelectBy(ops[1..], m)
  }
}
