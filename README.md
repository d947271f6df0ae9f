# Machine health check and operator configuration, in Dafny

This project models two parts of the OpenShift machine-api operator and proves properties of them.

**The machine health-check controller** (`pkg/controller/machinehealthcheck/machinehealthcheck_controller.go`). A reconcile request names a node. The controller then:

1. finds the node's machine through the `machine.openshift.io/machine` annotation;
2. picks the first MachineHealthCheck whose label selector matches that machine;
3. compares the configured unhealthy conditions (type, status, timeout) with the node's conditions.

The result is one of three things:

- nothing is done;
- the request is requeued after the smallest remaining wait plus one second;
- the node is remediated. Remediation takes one unit of disruption budget, then does one of two things:
  - with the `reboot` strategy, it writes a reboot annotation on the node;
  - otherwise it deletes the machine, unless the node is a master.

The controller also fans out a MachineHealthCheck event into one request per node the check covers.

**The operator's configuration helpers** (`pkg/operator/config.go`):

- the network-stack bit-flag fold over the API server addresses;
- the platform-to-image selection for the machine controller and the termination handler;
- the bare-metal image copy;
- the checks that refuse an empty image, an empty platform or an empty internal API URL.

## Layout

- `wrappers.dfy`: module `Wrappers`, the `Option` and `Result` types.
- `api.dfy`: module `Api`, the API objects.
  - It holds machines, nodes, node conditions, MachineHealthChecks, owner references and label selectors.
  - It holds the `namespace/name` key format with its split and join.
  - It holds the first-by-type condition lookup.
- `health.dfy`: module `HealthEvaluation`, the timing of unhealthy conditions.
  - `Evaluate` is a function over a prefix of the condition list.
  - `EvaluateConditions` is the loop of `remediate`, with its running minimum, proved equal to `Evaluate`.
- `mhc_model.dfy`: module `MachineHealthCheckModel`, the specification of the controller.
  - `Cluster` is a snapshot of the object store.
  - `Reconciled`, `Remediated`, `Remediation`, `RebootRemediated`, `CoveredNodeNames` and `NodeRequests` give the outcome and the new store for each operation.
- `mhc_controller.dfy`: module `MachineHealthCheckController`, the controller itself.
  - Class `Store` holds the mutable object store, with a read or write method per client call.
  - Class `Reconciler` holds the controller's methods. Each one steps through the store the way the Go code does.
  - Each method is proved equal to its specification function.
- `mhc_properties.dfy`: module `MachineHealthCheckProperties`, the lemmas about the controller. It also restates the test file's reconcile cases as scenario lemmas.
- `operator_config.dfy`: module `OperatorConfig`, the configuration helpers.

Time is an integer count of nanoseconds, and "now" is a parameter. The store's API errors other than not-found are a set of `Fault`s fixed in the store. Two error branches of the code are not reachable in the model; "## Left out" names them.

## Model

| member | source | states |
|---|---|---|
| MachineHealthCheckController.Reconciler.Reconcile | pkg/controller/machinehealthcheck/machinehealthcheck_controller.go:89-154 | The outcome and the new store are those of `Reconciled`. That means: get the node, read the machine annotation, split the key, get the machine, list the health checks, and remediate with the first matching check (the loop invariant keeps the first match of the unvisited suffix). |
| MachineHealthCheckController.Reconciler.Remediate | pkg/controller/machinehealthcheck/machinehealthcheck_controller.go:241-338 | The outcome and the new store are those of `Remediated`. The guards come first: the owner check, then the node lookup, the config map and the parse. Then the verdict of the condition loop selects done, a requeue, a timeout error or remediation. |
| MachineHealthCheckController.Reconciler.RemediationStrategyReboot | pkg/controller/machinehealthcheck/machinehealthcheck_controller.go:340-356 | The outcome and the new store are those of `RebootRemediated`. A node that already has the annotation is left alone; otherwise the annotation is added and the node is written back, and an update error is returned. |
| MachineHealthCheckController.Reconciler.GetNodeFromMachine | pkg/controller/machinehealthcheck/machinehealthcheck_controller.go:390-402 | Equals `NodeOfMachine`: missing nodeRef, not found, a get error, or the node named by the nodeRef. |
| MachineHealthCheckController.Reconciler.GetUnhealthyConditionsConfigMap | pkg/controller/machinehealthcheck/machinehealthcheck_controller.go:358-384 | Equals `UnhealthyConditionsConfigMap`: a get error other than not-found is returned; a missing config map falls back to the default conditions. |
| MachineHealthCheckController.Reconciler.IsMaster | pkg/controller/machinehealthcheck/machinehealthcheck_controller.go:440-457 | True exactly when the machine's node can be fetched and carries the `node-role.kubernetes.io/master` label; false when the node cannot be fetched. |
| MachineHealthCheckController.Reconciler.GetNodeNamesForHealthCheck | pkg/controller/machinehealthcheck/machinehealthcheck_controller.go:196-226 | Equals `CoveredNodeNames`. A bad selector or a list error is an error, and an empty list or no nodeRef gives nil. Otherwise the result is the node names of the listed machines in list order; the loop invariant builds them prefix by prefix. |
| MachineHealthCheckController.Reconciler.NodeRequestsFromHealthCheck | pkg/controller/machinehealthcheck/machinehealthcheck_controller.go:156-194 | Equals `NodeRequests`: one request per covered node, in order, with an empty namespace, built by the append loop. |
| MachineHealthCheckController.Store.UpdateNode | pkg/controller/machinehealthcheck/machinehealthcheck_controller.go:352-354 | Fails, leaving the store unchanged, exactly when the update faults or the node is gone; otherwise only that node is replaced. |
| MachineHealthCheckController.Store.DeleteMachine | pkg/controller/machinehealthcheck/machinehealthcheck_controller.go:302-305 | Fails, leaving the store unchanged, exactly when the delete faults or the machine is gone; otherwise only that machine is removed. |
| MachineHealthCheckController.Store.DecrementDisruptionsAllowed | pkg/controller/machinehealthcheck/machinehealthcheck_controller.go:286-292 | Succeeds exactly when the machine's budget group is not exhausted, and then only that counter drops by one; on failure nothing changes. |
| HealthEvaluation.EvaluateConditions | pkg/controller/machinehealthcheck/machinehealthcheck_controller.go:268-334 | The loop over the configured conditions, with its running minimum of the waits, returns `Evaluate` of the whole list. |
| HealthEvaluation.UnhealthyTooLongTimeout | pkg/controller/machinehealthcheck/machinehealthcheck_controller.go:320-328 | The requeue delay `timeout - elapsed + 1s` is at least one second. At now plus the delay the condition is unhealthy for too long; one second earlier it is not. |
| HealthEvaluation.EvaluateHealthy | pkg/controller/machinehealthcheck/machinehealthcheck_controller.go:271-276 | No requeue and no action exactly when no configured condition has a node condition of its type with its status. |
| HealthEvaluation.StepSkip | pkg/controller/machinehealthcheck/machinehealthcheck_controller.go:272-276 | A configured condition is skipped exactly when the node lacks that type or its status differs. |
| HealthEvaluation.EvaluateQuiet | pkg/controller/machinehealthcheck/machinehealthcheck_controller.go:271-329 | The loop runs to the end (neither remediating nor failing) exactly when every condition is skipped or still waiting. |
| HealthEvaluation.EvaluateSticks | pkg/controller/machinehealthcheck/machinehealthcheck_controller.go:278-307 | Once a prefix of the conditions has led to remediation or a timeout error, the rest of the list cannot change the verdict (the early return). |
| HealthEvaluation.EvaluatePendingWitness | pkg/controller/machinehealthcheck/machinehealthcheck_controller.go:323-328 | A requeue delay is at least one second and is the wait of some condition. |
| HealthEvaluation.EvaluatePendingBound | pkg/controller/machinehealthcheck/machinehealthcheck_controller.go:325-327 | A requeue delay is no larger than the wait of any waiting condition. |
| HealthEvaluation.EvaluatePendingMinimum | pkg/controller/machinehealthcheck/machinehealthcheck_controller.go:320-334 | The requeue delay is the smallest wait over all waiting conditions, and it is at least one second. |
| HealthEvaluation.EvaluateDecidedAt | pkg/controller/machinehealthcheck/machinehealthcheck_controller.go:278-307 | The first condition that is overdue or has a bad timeout decides the verdict: remediation or a timeout error. |
| HealthEvaluation.EvaluateTerminalDecided | pkg/controller/machinehealthcheck/machinehealthcheck_controller.go:278-307 | A remediation or timeout-error verdict always comes from such a first deciding condition. |
| HealthEvaluation.EvaluateActionable | pkg/controller/machinehealthcheck/machinehealthcheck_controller.go:283-307 | Remediation is chosen exactly when the first deciding condition is overdue, not a bad timeout. |
| HealthEvaluation.StepLater | pkg/controller/machinehealthcheck/machinehealthcheck_controller.go:404-410 | As time passes, whether a condition is skipped or has a bad timeout does not change, an overdue condition stays overdue, and a wait shrinks by the elapsed time until it turns overdue. |
| HealthEvaluation.NoBadTimeoutSomeOverdue | pkg/controller/machinehealthcheck/machinehealthcheck_controller.go:283-285 | With no bad timeout, one overdue condition is enough for remediation. |
| HealthEvaluation.PendingBecomesActionable | pkg/controller/machinehealthcheck/machinehealthcheck_controller.go:320-323 | Reconciling again after the returned delay finds the node actionable. |
| HealthEvaluation.ActionableIsStable | pkg/controller/machinehealthcheck/machinehealthcheck_controller.go:404-410 | An actionable node stays actionable at any later time. |
| HealthEvaluation.EvaluateReadsConditions | pkg/controller/machinehealthcheck/machinehealthcheck_controller.go:271-276 | The verdict depends only on the node's conditions, so a node that differs only in its annotations gets the same verdict. |
| Api.GetNodeConditionFirst | pkg/controller/machinehealthcheck/machinehealthcheck_controller_test.go:84-120 | None exactly when the node has no condition of that type; otherwise the first condition of that type. |
| Api.SplitMetaNamespaceKey | pkg/controller/machinehealthcheck/machinehealthcheck_controller.go:114-118 | A key with two or more `/` is an error. A key without `/` is a name in the empty namespace. A key with one `/` is the namespace before it and the name after it. Neither part contains `/`. |
| Api.Split | pkg/controller/machinehealthcheck/machinehealthcheck_controller.go:115 | A string with n separators splits into n+1 parts, none containing the separator. |
| Api.JoinSplit | pkg/controller/machinehealthcheck/machinehealthcheck_controller.go:115 | Joining the parts of a split gives back the string. |
| Api.MetaNamespaceKeyRoundTrip | pkg/controller/machinehealthcheck/machinehealthcheck_controller.go:115-122 | Splitting the `namespace/name` key of a machine gives back its namespace and name. |
| Api.AsSelector | pkg/controller/machinehealthcheck/machinehealthcheck_controller.go:423-427 | The selector converts exactly when it is well formed, to its match labels. |
| MachineHealthCheckModel.HasMachineSetOwner | pkg/controller/machinehealthcheck/machinehealthcheck_controller.go:412-420 | True exactly when some owner reference has kind `MachineSet`. |
| MachineHealthCheckModel.FirstMatchingHealthCheck | pkg/controller/machinehealthcheck/machinehealthcheck_controller.go:145-153 | None exactly when no health check matches; otherwise a listed check that matches. |
| MachineHealthCheckModel.FirstMatchingHealthCheckFirst | pkg/controller/machinehealthcheck/machinehealthcheck_controller.go:145-150 | The returned check is the first listed one that matches: no check before it in list order matches the machine. |
| MachineHealthCheckModel.DecrementedBudgets | pkg/controller/machinehealthcheck/machinehealthcheck_controller.go:286-292 | The decrement fails exactly when the machine's group has a counter at zero. Otherwise the same groups remain, only the machine's own group drops by one, and the others are unchanged. |
| MachineHealthCheckModel.FindMachine | pkg/controller/machinehealthcheck/machinehealthcheck_controller.go:123-135 | Finds a listed machine with the key, and None exactly when no machine has it. |
| MachineHealthCheckModel.RemoveMachine | pkg/controller/machinehealthcheck/machinehealthcheck_controller.go:302 | After the delete, no machine has the key and every machine with another key is still there. |
| MachineHealthCheckModel.NodeOfMachine | pkg/controller/machinehealthcheck/machinehealthcheck_controller.go:390-402 | A nil nodeRef is an error. A failing read is an error. Otherwise the node is found exactly when it is stored, and a found node is the stored node that the nodeRef names. |
| MachineHealthCheckModel.ListMachines | pkg/controller/machinehealthcheck/machinehealthcheck_controller.go:206-210 | The listed machines are exactly those in the namespace whose labels the selector matches. |
| MachineHealthCheckModel.NodeNamesOf | pkg/controller/machinehealthcheck/machinehealthcheck_controller.go:216-225 | At most one name per machine. The list is empty exactly when no machine has a nodeRef. |
| MachineHealthCheckModel.NodeNamesOfMembers | pkg/controller/machinehealthcheck/machinehealthcheck_controller.go:216-225 | A name is listed exactly when some machine's nodeRef names it. |
| MachineHealthCheckModel.NodeNamesOfAppend | pkg/controller/machinehealthcheck/machinehealthcheck_controller.go:217-221 | Appending a machine appends its node name when it has a nodeRef and nothing otherwise, which keeps list order. |
| MachineHealthCheckModel.RequestsFor | pkg/controller/machinehealthcheck/machinehealthcheck_controller.go:182-191 | One request per name, in the same order, each with an empty namespace. |
| MachineHealthCheckProperties.HasMatchingLabelsCases | pkg/controller/machinehealthcheck/machinehealthcheck_controller.go:422-438 | An invalid or empty selector matches nothing; otherwise the check holds exactly when the selector matches the machine's labels. |
| MachineHealthCheckProperties.EmptySelectorAsymmetry | pkg/controller/machinehealthcheck/machinehealthcheck_controller.go:196-226 | An empty selector matches no machine in `hasMatchingLabels`, yet the event fan-out lists every machine in the namespace and covers its node. |
| MachineHealthCheckProperties.NoRequestsCases | pkg/controller/machinehealthcheck/machinehealthcheck_controller.go:156-194 | No requests when the health check cannot be fetched, is being deleted, its nodes cannot be listed, or it covers no node. |
| MachineHealthCheckProperties.CoveredNodeNamesNil | pkg/controller/machinehealthcheck/machinehealthcheck_controller.go:212-225 | Listing succeeds, and gives nil (never an empty list) exactly when no listed machine has a nodeRef. |
| MachineHealthCheckProperties.EveryCoveredNodeRequested | pkg/controller/machinehealthcheck/machinehealthcheck_controller.go:176-191 | Every node of a selected machine with a nodeRef gets a request. |
| MachineHealthCheckProperties.OnlyCoveredNodesRequested | pkg/controller/machinehealthcheck/machinehealthcheck_controller.go:156-194 | Every request has an empty namespace, comes from a fetched health check that is not being deleted, and names the node of a selected machine. |
| MachineHealthCheckProperties.NotOwnedNotRemediated | pkg/controller/machinehealthcheck/machinehealthcheck_controller.go:243-246 | A machine without a MachineSet owner gives done, with nothing touched. |
| MachineHealthCheckProperties.MissingNodeRefFails | pkg/controller/machinehealthcheck/machinehealthcheck_controller.go:248-256 | An owned machine without a nodeRef gives an error, with nothing touched. |
| MachineHealthCheckProperties.OnlyDueMachinesTouched | pkg/controller/machinehealthcheck/machinehealthcheck_controller.go:241-307 | The store changes only for an owned machine whose node is actionable and whose budget could be taken. |
| MachineHealthCheckProperties.FailureAndRequeueLeaveObjects | pkg/controller/machinehealthcheck/machinehealthcheck_controller.go:241-338 | A requeue leaves the store unchanged. A failure changes at most the budget counters. |
| MachineHealthCheckProperties.ExhaustedBudgetRequeues | pkg/controller/machinehealthcheck/machinehealthcheck_controller.go:286-292 | An actionable node with an exhausted budget gives a requeue after exactly one minute, with nothing written. |
| MachineHealthCheckProperties.BudgetTakenFirst | pkg/controller/machinehealthcheck/machinehealthcheck_controller.go:286-306 | Whatever the strategy or the master check then does, the budget has been decremented. |
| MachineHealthCheckProperties.MasterNeverDeleted | pkg/controller/machinehealthcheck/machinehealthcheck_controller.go:297-300 | A master's machine is never deleted. |
| MachineHealthCheckProperties.RebootNeverDeletes | pkg/controller/machinehealthcheck/machinehealthcheck_controller.go:294-296 | The reboot strategy never deletes a machine. |
| MachineHealthCheckProperties.RebootAnnotatesEvenMasters | pkg/controller/machinehealthcheck/machinehealthcheck_controller.go:294-297 | Under reboot, an actionable node gets the reboot annotation and the outcome is done, whether or not it is a master. |
| MachineHealthCheckProperties.DeletesDueWorker | pkg/controller/machinehealthcheck/machinehealthcheck_controller.go:297-306 | Without reboot, an actionable worker's machine is deleted and the budget decremented. Nothing else changes, and other machines stay. |
| MachineHealthCheckProperties.RequeueAfterSmallestWait | pkg/controller/machinehealthcheck/machinehealthcheck_controller.go:309-334 | A not-yet-actionable node is requeued after the smallest wait, at least one second, with nothing touched. |
| MachineHealthCheckProperties.HealthyNodeLeftAlone | pkg/controller/machinehealthcheck/machinehealthcheck_controller.go:331-337 | When no configured condition applies, the outcome is done with nothing touched. |
| MachineHealthCheckProperties.RebootAddsOnlyTheAnnotation | pkg/controller/machinehealthcheck/machinehealthcheck_controller.go:340-356 | Only that node changes. It gains exactly the reboot key (with value "" when new), and its other annotations and fields are kept. |
| MachineHealthCheckProperties.RebootIdempotent | pkg/controller/machinehealthcheck/machinehealthcheck_controller.go:341-344 | Rebooting an annotated node again is done and writes nothing. |
| MachineHealthCheckProperties.ReconcileLookupChain | pkg/controller/machinehealthcheck/machinehealthcheck_controller.go:92-153 | Done with nothing touched when: the node is not found, it has no machine annotation, the machine is not found, or no health check matches. A malformed key is an error. |
| MachineHealthCheckProperties.ReconcileDelegates | pkg/controller/machinehealthcheck/machinehealthcheck_controller.go:145-149 | Once the chain resolves a machine and its first matching check, the result is remediation with that check's strategy. |
| MachineHealthCheckProperties.ReconcileWritesOnlyWhenResolved | pkg/controller/machinehealthcheck/machinehealthcheck_controller.go:89-154 | The store changes only when the chain resolved a machine and a matching check. |
| MachineHealthCheckProperties.RebootChangesOnlyTheAnnotation | pkg/controller/machinehealthcheck/machinehealthcheck_controller.go:294-296 | Under reboot, remediation changes nothing but the budget and the reboot annotation of the machine's node. |
| MachineHealthCheckProperties.RebootWritesOnlyUnannotated | pkg/controller/machinehealthcheck/machinehealthcheck_controller.go:341-344 | A node write under reboot happens only when the node did not already carry the annotation. |
| MachineHealthCheckProperties.ReconcileRebootTwice | pkg/controller/machinehealthcheck/machinehealthcheck_controller.go:89-154 | After a reboot reconcile, reconciling the same node again at the same time resolves the same machine and check, and writes no node or machine. |
| MachineHealthCheckProperties.DefaultConditionsVerdict | pkg/controller/machinehealthcheck/machinehealthcheck_controller.go:371-375 | Under the default conditions, a Ready node is healthy. A False or Unknown node is actionable after five minutes; before that it is requeued after the remaining time plus a second. |
| MachineHealthCheckProperties.ScenarioRebootUnhealthyForTooLong | pkg/controller/machinehealthcheck/machinehealthcheck_controller_test.go:192-200 | The node that has been Ready=Unknown for too long is annotated under reboot, and the outcome is done. |
| MachineHealthCheckProperties.ScenarioRecentlyUnhealthy | pkg/controller/machinehealthcheck/machinehealthcheck_controller_test.go:209-219 | The node that turned Ready=Unknown just now is requeued after five minutes and one second. |
| MachineHealthCheckProperties.ScenarioConfiguredRecentlyUnhealthy | pkg/controller/machinehealthcheck/machinehealthcheck_controller_test.go:308-311 | With the test's config map (Ready=Unknown for 60s), the node that turned Unknown just now is requeued after one minute and one second. |
| MachineHealthCheckProperties.ScenarioHealthy | pkg/controller/machinehealthcheck/machinehealthcheck_controller_test.go:201-208 | The healthy node gives done, with nothing touched. |
| MachineHealthCheckProperties.ScenarioWithoutOwner | pkg/controller/machinehealthcheck/machinehealthcheck_controller_test.go:236-243 | A machine without an owner gives done, with nothing touched. |
| MachineHealthCheckProperties.ScenarioWithoutNodeRef | pkg/controller/machinehealthcheck/machinehealthcheck_controller_test.go:244-251 | A machine without a nodeRef gives an error, with nothing touched. |
| MachineHealthCheckProperties.ScenarioDeleteWithinBudget | pkg/controller/machinehealthcheck/machinehealthcheck_controller.go:286-306 | With one disruption left, the machine is deleted and the budget drops to 0. |
| MachineHealthCheckProperties.ScenarioBudgetExhausted | pkg/controller/machinehealthcheck/machinehealthcheck_controller.go:286-292 | With no disruption left, the request is requeued after a minute and nothing is touched. |
| MachineHealthCheckProperties.ScenarioRebootRepeatSpendsBudget | pkg/controller/machinehealthcheck/machinehealthcheck_controller.go:286-296 | A second reboot reconcile writes no node but spends budget again. |
| OperatorConfig.NetworkStack | pkg/operator/config.go:75-88 | The loop returns the fold `StackOf` over the addresses, and the result is always 0, V4, V6 or Dual. |
| OperatorConfig.StackOfFlags | pkg/operator/config.go:75-88 | The V4 bit is set exactly when some non-loopback address is IPv4, and the V6 bit exactly when some non-loopback address is not. |
| OperatorConfig.StackOfValues | pkg/operator/config.go:75-88 | The result is one of 0, V4, V6 and Dual. It is 0 exactly when every address is a loopback (so 0 for no addresses), and Dual exactly when both kinds occur. |
| OperatorConfig.StackOfPermutation | pkg/operator/config.go:75-88 | The order of the addresses does not matter. |
| OperatorConfig.NetworkStackFlagValues | pkg/operator/config.go:17-25 | The flags from the shared `iota` block are 8, 16 and 24. |
| OperatorConfig.To4 | pkg/operator/config.go:81 | An address has a 4-byte form exactly when it is 4 bytes long or is IPv4 written in 16 bytes, and that form is its last 4 bytes. |
| OperatorConfig.ProviderControllerIsTableLookup | pkg/operator/config.go:128-151 | Never an error. The eight platforms give their own image field, `kubemark` the fixed kubemark image, and any other platform `no-op`. |
| OperatorConfig.TerminationHandlerFollowsController | pkg/operator/config.go:153-167 | Never an error. AWS, GCP and Azure give the same image as their machine controller; every other platform gives `no-op`. |
| OperatorConfig.BaremetalControllersCopy | pkg/operator/config.go:169-182 | On bare metal each of the six metal3 images is copied into its own field; otherwise every field is empty. |
| OperatorConfig.BaremetalControllersEmpty | pkg/operator/config.go:169-182 | The result is all empty exactly when bare metal is off or all six images are empty. On bare metal, different metal3 images give different results. |
| OperatorConfig.MachineAPIOperatorFromImages | pkg/operator/config.go:184-189 | Fails exactly when the image is empty; otherwise returns it unchanged. |
| OperatorConfig.KubeRBACProxyFromImages | pkg/operator/config.go:191-196 | Fails exactly when the image is empty; otherwise returns it unchanged. |
| OperatorConfig.ProviderFromInfrastructure | pkg/operator/config.go:108-113 | Fails exactly when the platform is empty; otherwise returns it unchanged. |
| OperatorConfig.ApiServerInternalHost | pkg/operator/config.go:90-106 | An empty internal URL is refused; any other URL is passed to the host parser. |
| OperatorConfig.EmptyURLNeverParsed | pkg/operator/config.go:90-93 | The empty URL is refused whatever the parser would have done with it. |

## Left out

- Controller wiring (`Add`, `newReconciler`, `add`, the watches) and `getMachineHealthCheckListOptions`: informer plumbing, with no decision in it.
- Logging: it has no effect on outcomes.
- `metav1.LabelSelectorAsSelector` is not part of this model. A selector is its match labels plus a flag that says whether conversion succeeds; match expressions are not modelled.
- The `conditions` package is not part of this model.
  - The unhealthy-conditions config map holds already-parsed `(type, status, timeout)` entries; `None` stands for a YAML parse failure.
  - A timeout is `None` when `time.ParseDuration` would fail.
  - `MachineHealthCheckModel.DefaultUnhealthyConditions` is Ready=False and Ready=Unknown, five minutes each.
    - The controller's tests pin only the Ready=Unknown entry. Without a config map they expect five minutes (`machinehealthcheck_controller_test.go:304-306`). With a config map of Ready=Unknown for 60s they expect one minute (`:308-311`), so their unhealthy nodes are Ready=Unknown.
    - The Ready=False entry is an assumption about the dummy config map, whose source is not part of this model.
- `disruption.RetryDecrementMachineDisruptionsAllowed` is not part of this model.
  - The budget is a counter per group. The group is keyed by the name of the machine's first MachineSet owner; a group with no counter is not limited.
  - Retry on conflict and concurrent reconciles are not modelled.
- Nodes are cluster-scoped, so the store keys them by name. The namespace of a node request and of a nodeRef is not used.
- `MachineHealthCheckModel.Remediated`: one `now` serves the whole reconcile, while the Go code reads the clock separately in `unhealthyForTooLong` and in `remediate`.
- Durations are unbounded integers, so the model has no `int64` overflow.
- API errors other than not-found come from a set of faults fixed in the store. Transient errors, conflicts and caching are not modelled.
- `MachineHealthCheckModel.UnhealthyConditionsConfigMap`: a missing config map always gives the default conditions. The error branch for `conditions.CreateDummyUnhealthyConditionsConfigMap` (`machinehealthcheck_controller.go:372-375`) is not modelled, because that package is not part of this model.
- `MachineHealthCheckProperties.MasterNeverDeleted`: the exemption assumes that the second node read, inside `isMaster`, succeeds.
  - `isMaster` returns false when that read fails (`machinehealthcheck_controller.go:445-449`). The delete at `:302` would then remove a master's machine.
  - In the model, faults are fixed for the whole store, and `remediate` has already read the same node (`:248`). That failing read, and the deletion that follows it, cannot occur in the model.
- `MachineHealthCheckController.Reconciler.Remediate` first runs the condition loop to its verdict, then acts on it. The Go code acts from inside the loop. The outcome and the writes are the same, because the loop stops at the first condition that is overdue or has a bad timeout.
- `getImagesFromJSONFile`: file reading and JSON decoding.
- `OperatorConfig.ApiServerInternalHost`: URL parsing and host:port splitting (`net/url`, `net.SplitHostPort`) are a parameter, so only the empty-URL guard is proved.
- `net.IP`'s `To4` and `IsLoopback` are written out after Go's standard library, which is not part of this model.

### A repeated reboot reconcile

The reboot path is idempotent for the node but not for the budget. `remediate` decrements the disruption budget (`machinehealthcheck_controller.go:287`) before `remediationStrategyReboot` checks for the reboot annotation (`:341-344`). So a repeat reconcile of an already annotated node writes no node but spends budget again. `ScenarioRebootRepeatSpendsBudget` shows this.
