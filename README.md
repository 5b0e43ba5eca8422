# Gravity operation bookkeeping and remote command execution, in Dafny

This project models the core of Gravity's control plane:

- **Operation accessors and transitions** (`ops_utils.dfy`, module `Operations`):
  the helpers of the ops package that query a cluster's operations through an
  `OperationsFilter` (install, uninstall, last completed update, last
  finished, active, ...), turn an empty answer into `NotFound`, fetch an
  operation's progress, find the wizard cluster, complete or fail an
  operation (and reactivate its cluster), find the expand operation and
  create the system account on demand. The operator service and the storage
  backend are one value, `Backend`: what it stores, which calls fail, and
  the log of every call made to it. Each helper returns its result together
  with the backend after its calls, so every contract can say which calls
  were made, with which filter, and in which order.
- **Request context values** (`ops_context.dfy`, module `OperationContext`):
  attaching the user, the operator and the web session to a request context
  and reading them back.
- **The command executor of the RPC agent** (`rpc_callable.dfy`, module
  `Executor`): `osCommand.exec` as a class with a mutable int32 sequence
  counter; the outgoing stream as a class recording attempted and delivered
  messages; `streamWriter` as a class. What the operating system does (start
  failure, output chunks, how waiting ends) is a `Process` value given to
  `Exec`, and `Events` is the exact message sequence it must send.
- **The enterprise ACL decorator of the operator** (`acl_operator.dfy`,
  module `AccessControl`): the rule each guarded method checks (`Policy`),
  how a rule is evaluated against granted permissions (`Authorize`), and the
  decorator as a class over a wrapped operator that records its calls, so
  that "denied ⇒ the wrapped operator is never called" is a postcondition.
- **Helm helpers** (`helm.dfy`, module `Helm`): the dotted-path lookup
  `hasVar`, the chart archive file name serialiser and parser, and the copy
  of a chart repository index.

`wrappers.dfy` holds the `Option` and `Result` types used throughout.

Behaviour worth calling out, as the code has it:

- A command whose process cannot be started sends no message at all, not
  even a completion; `exec` only returns a "failed to start" error carrying
  the path (`lib/rpc/server/callable.go:49-52`).
- `osExec` builds a fresh `osCommand` for every request, so the sequence
  number it sends is always 1 (`lib/rpc/server/callable.go:36-39`).
- The doc comment of `GetLastShrinkOperation` (`lib/ops/utils.go:180-182`)
  says it fails when the newest operation is not a shrink; the code asks the
  backend for the newest shrink operation (types `[shrink]`, last). The
  backend is not part of this model, and the model assumes that "last"
  means the first of the filtered, newest-first list; under that assumption
  an older shrink operation is returned even when a newer operation of
  another type exists.

## Model

| member | source | states |
|---|---|---|
| Operations.SelectHeadIsNewest | lib/ops/utils.go:45-49 | the first operation of a filtered list is the newest stored operation that matches the filter: it matches, and no operation stored before it does |
| Operations.FirstOperation | lib/ops/utils.go:164-178 | the shared shape of the single-result accessors: exactly one list call with the given filter; a list error is returned as is; an empty list becomes NotFound; otherwise element 0 is returned unchanged and is the newest match; NotFound happens iff the call did not fail and no stored operation matches |
| Operations.FirstWithProgress | lib/ops/utils.go:37-55 | after a successful list, progress is fetched for the key of the operation found, and its error, if any, is returned without the operation; a list error or NotFound skips the progress call |
| Operations.GetInstallOperation | lib/ops/utils.go:37-55 | filter `{types: [install]}`; the operation is an install of this cluster; the progress is the latest entry of that operation; NotFound iff no install operation of this cluster is stored and the call did not fail |
| Operations.GetLastUninstallOperation | lib/ops/utils.go:58-78 | filter `{types: [uninstall], last}`; an uninstall of this cluster with its latest progress; NotFound iff there is none |
| Operations.GetLastCompletedUpdateOperation | lib/ops/utils.go:81-96 | filter `{types: [update], last, complete}`; result is a completed update of this cluster; NotFound iff no completed update is stored |
| Operations.GetCompletedInstallOperation | lib/ops/utils.go:99-114 | filter `{types: [install], last, complete}`; result is a completed install; NotFound iff there is none |
| Operations.GetLastOperation | lib/ops/utils.go:117-137 | filter `{last}` with no type; an operation of this cluster with its latest progress; NotFound iff the cluster has no operation |
| Operations.GetLastFinishedOperation | lib/ops/utils.go:140-161 | filter `{last, finished}` with no type; the operation is completed or failed; NotFound iff no finished operation exists |
| Operations.GetLastUpgradeOperation | lib/ops/utils.go:164-178 | filter `{types: [update], last}`; an update of this cluster in any state; NotFound iff there is none |
| Operations.GetLastShrinkOperation | lib/ops/utils.go:183-197 | filter `{types: [shrink], last}`; a shrink of this cluster; NotFound iff there is none |
| Operations.GetOperationWithProgress | lib/ops/utils.go:200-210 | no filtering: the operation fetched by its key, then its progress; an error of either call is returned and an error of the first skips the second; when both succeed the result is exactly that operation and that progress entry, which has the requested key and is the latest entry of that key |
| Operations.BackendOrderDecides | lib/ops/utils.go:45-49 | with two matching operations, the one stored first is returned, and swapping their order swaps the answer: no re-sorting happens |
| Operations.GetActiveOperations | lib/ops/utils.go:213-230 | filter `{active}`; NotFound on an empty list; otherwise the copied list equals the returned one (same length and order) and holds exactly the non-terminal operations of the cluster |
| Operations.GetActiveOperationsByType | lib/ops/utils.go:234-252 | filter `{types: [t], active}`; NotFound on an empty list; otherwise the same list, holding exactly the active operations of type t |
| Operations.GetWizardOperation | lib/ops/utils.go:256-270 | lists the clusters of the system account first and returns that call's error; BadParameter iff the list does not have exactly one cluster; with exactly one cluster the result and the backend are those of GetInstallOperation on that cluster (its operation without the progress, or its error) |
| Operations.GetWizardCluster | lib/ops/utils.go:273-283 | one GetSites call for the system account, whose error is returned; BadParameter iff it does not return exactly one cluster; with exactly one cluster the result is Ok of that cluster, which belongs to the system account |
| Operations.FailureMessageShape | lib/ops/utils.go:319-334 | the failure message is "Operation failure" for an empty message, "Operation failure:" for a message of white space only, and otherwise "Operation failure: " followed by the message without its trailing white space |
| Operations.FailureMessageExamples | lib/ops/utils.go:319-334 | "disk full" gives "Operation failure: disk full", "" gives "Operation failure"; the stored message never starts or ends with white space |
| Operations.CompleteOperation | lib/ops/utils.go:303-316 | exactly one SetOperationState call; on success the operation's state is completed and the one new progress entry is the completed entry for that operation |
| Operations.FailOperation | lib/ops/utils.go:319-337 | exactly one SetOperationState call with state failed and the trimmed failure message; on success the operation's state is failed |
| Operations.TerminalRequestsAreFinal | lib/ops/utils.go:303-337 | both terminal progress entries name the operation and carry the final step, full completion, the matching progress state and the given time; completion's message is "Operation has completed" |
| Operations.CompleteTwiceAppendsTwice | lib/ops/utils.go:303-316 | completion is not deduplicated: two completions make two calls and append two entries, and the progress read back is the second completed entry |
| Operations.FailOperationAndResetCluster | lib/ops/utils.go:287-300 | fails the operation first; if that call fails its error is returned and the cluster is not reactivated; otherwise exactly one ActivateSite call follows for the operation's account and cluster, the result is Ok iff that call succeeds, its error is returned otherwise, and on success that cluster is active |
| Operations.NoResetAfterFailedFail | lib/ops/utils.go:287-291 | when failing the operation errors, no ActivateSite call is made and the clusters are unchanged |
| Operations.GetExpandOperation | lib/ops/utils.go:373-388 | looks up the local cluster of the system account, lists that cluster's operations, and returns the first expand operation in the order listed, which is the head of what the expand type matcher selects from that list; NotFound "expand operation not found" iff the list has no expand operation; lookup and list errors are returned |
| Operations.UpsertSystemAccount | lib/ops/utils.go:392-407 | when an account of the system organisation exists, the first one is returned and nothing is created; otherwise exactly one CreateAccount call with the system ID and organisation; a listing error is returned |
| Operations.MatchByTypeAgreesWithFilter | lib/ops/utils.go:409-414 | the type matcher agrees with the backend's one-type filter: for a cluster, the filter selects exactly the operations the matcher accepts, in the same order |
| OperationContext.AbsentKeysGiveDefaults | lib/ops/utils.go:422-456 | with nothing attached under a key, the user lookup gives "" and the operator and session lookups give nil |
| OperationContext.StoredValuesAreFound | lib/ops/utils.go:422-461 | each lookup returns what the matching constructor attached, whatever the context held before |
| OperationContext.OtherKeysDoNotInterfere | lib/ops/utils.go:463-476 | attaching a value under any other key, including another package's, leaves each lookup unchanged |
| OperationContext.UserLookupFindsInnermost | lib/ops/utils.go:422-428 | in a context built by the package's constructors, a present user key yields the innermost stored name, and present operator and session keys yield a value |
| Executor.Int32 | lib/rpc/server/callable.go:43 | int32 wrap-around: the result is in the int32 range, congruent to the input modulo 2^32, and equal to it when it is in range |
| Executor.Int32WrapsAround | lib/rpc/server/callable.go:43 | for every int32 value of the counter, incrementing adds one, except that the largest int32 wraps to -2^31 |
| Executor.CompletionReportsExitCode | lib/rpc/server/callable.go:61-68 | a clean exit completes with exit code 0 and no error; a wait error without a wait status completes with -1; a wait status's exit code is passed through; the error is always attached |
| Executor.Events | lib/rpc/server/callable.go:49-68 | no message at all iff the process fails to start; every message carries the command's sequence number |
| Executor.ControlMessagesOfRun | lib/rpc/server/callable.go:54-68 | a started process yields exactly one started message followed by exactly one completion, whatever output surrounds them |
| Executor.OutputOrderPerDescriptor | lib/rpc/server/callable.go:45-46 | per descriptor, the output data arrives in the order the process wrote it |
| Executor.SilentCleanRun | lib/rpc/server/callable.go:54-58 | a command that writes nothing and exits cleanly yields exactly [started, completed] and returns no error |
| Executor.NothingRefusedDeliversAll | lib/rpc/server/callable.go:72-76 | when no send fails, everything attempted is delivered |
| Executor.DeliveredWereAttempted | lib/rpc/server/callable.go:72-76 | every delivered message was attempted |
| Executor.NotifyAndLogError | lib/rpc/server/callable.go:72-76 | exactly one send is attempted and nothing is returned, so a failed send cannot change what exec returns |
| Executor.StreamWriter.Write | lib/rpc/server/callable.go:122-135 | one output message with the writer's descriptor and sequence number; (len(p), no error) on a successful send, (0, error) otherwise |
| Executor.Forward | lib/rpc/server/callable.go:45-46 | each chunk goes out through the writer of its descriptor, in order, as one output message |
| Executor.OsCommand.constructor | lib/rpc/server/callable.go:111-113 | a new command runner's counter is zero |
| Executor.OsCommand.Exec | lib/rpc/server/callable.go:41-70 | the counter advances by exactly one as an int32 on every call; the messages attempted are exactly `Events` for the new value; the error is the start failure (with the path), the wait error, or none, however many sends failed |
| Executor.Supervise | lib/rpc/server/callable.go:54-69 | after a start: started message, output, then the completion built from how waiting ended |
| Executor.OsExec | lib/rpc/server/callable.go:36-39 | a fresh runner: every message carries sequence number 1 |
| AccessControl.PolicyScopes | e/lib/ops/acl/operator.go:46-217 | read-style methods check read on their own cluster, mutating methods (the license check included) check update on it, and only GetLicenseCA checks nothing |
| AccessControl.PolicyUnscoped | e/lib/ops/acl/operator.go:172-195 | accepting and removing remote clusters need register on kind cluster, new licenses need create on kind license, cluster copies need create on kind cluster; none of these is scoped to a cluster |
| AccessControl.PolicyFallbacks | e/lib/ops/acl/operator.go:219-355 | exactly the role and connector methods fall back when the cluster check fails, roles to role verbs and connectors to the permissions of their own connector kind |
| AccessControl.FirstDeniedIffAll | e/lib/ops/acl/operator.go:357-365 | the role checks pass iff every verb is granted on kind role; a denial names the first verb, in order, that is not |
| AccessControl.AuthorizeMonotonic | e/lib/ops/acl/operator.go:219-355 | granting more permissions never turns an allowed call into a denied one |
| AccessControl.NothingGrantedOnlyOpen | e/lib/ops/acl/operator.go:46-355 | a caller with no permission can only fetch the license CA |
| AccessControl.UpsertRoleAuthorization | e/lib/ops/acl/operator.go:219-224 | upserting a role is authorised iff the caller may update the cluster, or may both create and update roles; without either cluster update or role create, the denial names role create |
| AccessControl.GetRolesAuthorization | e/lib/ops/acl/operator.go:242-250 | listing roles is authorised iff the caller may read the cluster, or may both list and read roles |
| AccessControl.OperatorACL.constructor | e/lib/ops/acl/operator.go:39-44 | the decorator keeps the permissions and the wrapped operator it is given |
| AccessControl.OperatorACL.RoleActions | e/lib/ops/acl/operator.go:357-365 | no error iff every verb is granted on kind role; otherwise the denial of the first verb that is not |
| AccessControl.OperatorACL.Guard | e/lib/ops/acl/operator.go:219-224 | the check of a rule: the cluster check, and the fallback only when it fails |
| AccessControl.OperatorACL.Invoke | e/lib/ops/acl/operator.go:46-217 | every check-and-delegate method (also the connector methods and GetRoles, lines 242-250 and 269-355): when denied, the error is returned and the wrapped operator is not called; when allowed, it is called exactly once and its answer is returned unchanged |
| AccessControl.OperatorACL.GetRole | e/lib/ops/acl/operator.go:232-240 | denied: the error and no call; allowed: one GetRole call whose answer is returned |
| AccessControl.OperatorACL.UpsertRole | e/lib/ops/acl/operator.go:219-230 | a denial is returned without calling the wrapped operator; an authorised system role is rejected with AccessDenied "system roles can't be created" without calling it; otherwise exactly one upsert whose answer is returned |
| AccessControl.OperatorACL.DeleteRole | e/lib/ops/acl/operator.go:252-267 | authorise (cluster update, else role delete); then fetch the role, returning a fetch error; reject a system role with AccessDenied "system roles can't be deleted"; only then exactly one delete |
| Helm.HasVarPathIffPresent | lib/utils/helm/helm.go:37-53 | the lookup holds iff every key exists in the map reached by the keys before it and every value before the last is a map |
| Helm.ShortPaths | lib/utils/helm/helm.go:38-47 | the empty path is always present; a missing first key gives false; a one-key path is present iff the key exists, whatever its value |
| Helm.LeafBlocksLookup | lib/utils/helm/helm.go:48-51 | a non-map value strictly inside the path makes the lookup false |
| Helm.PrefixOfPresentPath | lib/utils/helm/helm.go:37-53 | every prefix of a present path is present |
| Helm.TrimSuffix | lib/utils/helm/helm.go:58 | one trailing ".tgz" is dropped when present, otherwise the name is kept |
| Helm.SplitSeveralIffSep | lib/utils/helm/helm.go:58-61 | splitting on dashes yields two parts or more iff the stem contains a dash |
| Helm.JoinSplit | lib/utils/helm/helm.go:58-62 | rejoining the parts with dashes restores the stem |
| Helm.ToChartFilename | lib/utils/helm/helm.go:66-68 | the file name ends in ".tgz", and with that suffix trimmed it is the name, a dash and the version |
| Helm.ParseChartFilename | lib/utils/helm/helm.go:57-63 | BadParameter naming the file iff the stem has no dash; otherwise the version has no dash and name + "-" + version is the stem |
| Helm.ChartFilenameRoundTrip | lib/utils/helm/helm.go:55-68 | parsing the file name of (name, version) gives back both whenever the version has no dash; the name may contain dashes |
| Helm.ParsedFilenameRebuilds | lib/utils/helm/helm.go:55-68 | a ".tgz" file name that parses is rebuilt exactly from its parts |
| Helm.DashedVersionMisparsed | lib/utils/helm/helm.go:57-63 | a dashed version does not round-trip: ("a", "1-rc") parses back as ("a-1", "rc") |
| Helm.CopyIndexFile | lib/utils/helm/helm.go:71-86 | header fields are kept; a chart name is in the copy iff its version list is non-empty, and then the copied list is equal (same versions, same order) |

## Left out

- `VerifyLicense` (`lib/ops/utils.go:355-369`): it parses and verifies a license against a package service; the license and package code are not part of this model.
- The exported `HasVar` (`lib/utils/helm/helm.go:29-35`): it merges value files with Helm's merge routine, which is not part of this model; only the lookup `hasVar` is modelled.
- The discovery client of the RPC package and the command-line files: outside the modelled core.
- Process spawning, the working directory, cancellation through the request context and extracting the wait status are not modelled; a `Process` value states their outcome.
- Concurrency: stdout and stderr are copied concurrently with the started message; the model takes one interleaving, given by how many chunks precede the started message. The atomic increment of the counter is modelled as a plain int32 increment.
- Executor.Forward: a failed write is not fed back into the copy; its effect on how waiting ends is part of the given `Process`.
- Timestamps (`time.Now().UTC()`) are a parameter; the operator's and storage backend's own behaviour is modelled by the backend functions of `Operations`, under the assumption that a filter selects by cluster, type and state and lists newest first, since their implementation is not part of this model.
- Error messages that embed values with `%v` (the cluster key, the list of clusters) are modelled without those values; the trace context added by `trace.Wrap` is not modelled.
- Logging of failed sends, and the log fields of errors, are not modelled.
- The constant values of lib/defaults and lib/constants (system account ID and organisation, final step, completed percentage, system label, "true") are not part of this model; placeholders stand in for them.
- Helm.CopyIndexFile: versions are values here, so that the copy shares no version object with the original (the point of the deep copy) is not captured.
- AccessControl: `ClusterAction`, `Action` and `AuthConnectorActions` belong to the open-source decorator, which is not part of this model; each is modelled as membership of one check in a granted set, and the values returned by the wrapped operator are opaque.
- AccessControl.OperatorACL.Invoke: the check-and-delegate methods share this one method keyed by the call, instead of one method per name.
- Executor.OsCommand.Exec: requires a non-empty argument vector, because the source takes `Args[0]` as the program and an empty vector would make it panic; that panic is not modelled.
