/**
 * The decisions of the machine health-check controller
 * (pkg/controller/machinehealthcheck/machinehealthcheck_controller.go) as
 * functions of the store's contents: which health check covers a machine,
 * whether a machine may be remediated, what `remediate` and `Reconcile`
 * return and what they leave in the store, and which nodes a health-check
 * event fans out to.
 *
 * The store is the controller's API client. It holds nodes by name, machines
 * and health checks in list order, the unhealthy-conditions config maps, one
 * disruption budget per machine group, and the set of calls the API server
 * fails (with an error other than NotFound).
 */
module MachineHealthCheckModel {
  import opened Wrappers
  import opened Api
  import opened HealthEvaluation

  const MachineAnnotationKey: string := "machine.openshift.io/machine"
  const MachineRebootAnnotationKey: string := "healthchecking.openshift.io/machine-remediation-reboot"
  const OwnerControllerKind: string := "MachineSet"
  const RemediationStrategyReboot: string := "reboot"
  const MasterLabel: string := "node-role.kubernetes.io/master"
  /** healthcheckingv1alpha1.ConfigMapNodeUnhealthyConditions */
  const ConfigMapNodeUnhealthyConditions: string := "node-unhealthy-conditions"

  /**
   * The conditions the dummy config map holds when none is configured
   * (conditions.CreateDummyUnhealthyConditionsConfigMap): a Ready condition
   * that is False or Unknown for five minutes. The controller's tests fix the
   * Unknown entry; the False entry is assumed.
   */
  const DefaultUnhealthyConditions: seq<UnhealthyCondition> := [
    UnhealthyCondition("Ready", "False", Some(5 * Minute)),
    UnhealthyCondition("Ready", "Unknown", Some(5 * Minute))
  ]

  /** Why a reconcile failed; every failure makes the caller retry. */
  datatype Error =
    | NodeGetFailed
    | MalformedMachineKey
    | MachineGetFailed
    | HealthCheckListFailed
    | NodeRefMissing
    | ConfigMapGetFailed
    | ConditionsParseFailed
    | TimeoutParseFailed
    | NodeUpdateFailed
    | MachineDeleteFailed
    | SelectorInvalid
    | MachineListFailed

  /**
   * reconcile.Result with its error: `Done` is Result{} with a nil error,
   * `Requeue(d)` is Result{Requeue: true, RequeueAfter: d} with a nil error,
   * `Failed(e)` is Result{} with error e.
   */
  datatype Outcome = Done | Requeue(after: int) | Failed(error: Error)

  /** An API call the server answers with an error other than NotFound. */
  datatype Fault =
    | GetNodeFails(node: string)
    | GetMachineFails(machine: Key)
    | ListHealthChecksFails
    | GetConfigMapFails
    | ListMachinesFails(namespace: string)
    | UpdateNodeFails(node: string)
    | DeleteMachineFails(machine: Key)

  /**
   * The unhealthy-conditions config map's `conditions` entry, as the
   * conditions package decodes it (None when it does not decode).
   */
  type ConditionsData = Option<seq<UnhealthyCondition>>

  /** A snapshot of the store. */
  datatype Cluster = Cluster(
    nodes: map<string, Node>,
    machines: seq<Machine>,
    healthChecks: seq<MachineHealthCheck>,
    configMaps: map<Key, ConditionsData>,
    budgets: map<string, nat>,
    faults: set<Fault>)

  /** The answer to a Get. */
  datatype Lookup<T> = Found(value: T) | NotFound | LookupFailed(error: Error)

  // ---------------------------------------------------------------------
  // Store reads
  // ---------------------------------------------------------------------

  function LookupNode(st: Cluster, name: string): Lookup<Node>
  {
    if GetNodeFails(name) in st.faults then LookupFailed(NodeGetFailed)
    else if name in st.nodes then Found(st.nodes[name])
    else NotFound
  }

  /** The first machine stored under `key`. */
  function FindMachine(machines: seq<Machine>, key: Key): (r: Option<Machine>)
    ensures r.Some? ==> r.value in machines && r.value.namespace == key.namespace && r.value.name == key.name
    ensures r.None? <==> forall i :: 0 <= i < |machines| ==> Key(machines[i].namespace, machines[i].name) != key
  {
    if machines == [] then None
    else if Key(machines[0].namespace, machines[0].name) == key then Some(machines[0])
    else FindMachine(machines[1..], key)
  }

  /** The machines left after deleting the one stored under `key`. */
  function RemoveMachine(machines: seq<Machine>, key: Key): (r: seq<Machine>)
    ensures FindMachine(r, key).None?
    ensures forall m :: m in r <==> m in machines && Key(m.namespace, m.name) != key
  {
    if machines == [] then []
    else if Key(machines[0].namespace, machines[0].name) == key then RemoveMachine(machines[1..], key)
    else [machines[0]] + RemoveMachine(machines[1..], key)
  }

  function LookupMachine(st: Cluster, key: Key): Lookup<Machine>
  {
    if GetMachineFails(key) in st.faults then LookupFailed(MachineGetFailed)
    else match FindMachine(st.machines, key)
      case Some(m) => Found(m)
      case None => NotFound
  }

  /** The first health check stored under `key`. */
  function FindHealthCheck(hcs: seq<MachineHealthCheck>, key: Key): Option<MachineHealthCheck>
  {
    if hcs == [] then None
    else if Key(hcs[0].namespace, hcs[0].name) == key then Some(hcs[0])
    else FindHealthCheck(hcs[1..], key)
  }

  /** getNodeFromMachine: the node the machine's NodeRef names. */
  function NodeOfMachine(st: Cluster, m: Machine): (r: Lookup<Node>)
    ensures r.Found? ==> m.nodeRef.Some? && m.nodeRef.value.name in st.nodes && r.value == st.nodes[m.nodeRef.value.name]
    ensures m.nodeRef.None? ==> r == LookupFailed(NodeRefMissing)
    ensures m.nodeRef.Some? && GetNodeFails(m.nodeRef.value.name) !in st.faults ==> (r.Found? <==> m.nodeRef.value.name in st.nodes)
    ensures m.nodeRef.Some? && GetNodeFails(m.nodeRef.value.name) in st.faults ==> r == LookupFailed(NodeGetFailed)
  {
    match m.nodeRef
    case None => LookupFailed(NodeRefMissing)
    case Some(ref) => LookupNode(st, ref.name)
  }

  /**
   * getUnhealthyConditionsConfigMap: the config map in the controller's
   * namespace, or the dummy one holding the default conditions when there is
   * none.
   */
  function UnhealthyConditionsConfigMap(st: Cluster, namespace: string): Result<ConditionsData, Error>
  {
    var key := Key(namespace, ConfigMapNodeUnhealthyConditions);
    if GetConfigMapFails in st.faults then Err(ConfigMapGetFailed)
    else if key in st.configMaps then Ok(st.configMaps[key])
    else Ok(Some(DefaultUnhealthyConditions))
  }

  /** conditions.GetNodeUnhealthyConditions: the decoded list, or an error. */
  function NodeUnhealthyConditions(data: ConditionsData): Result<seq<UnhealthyCondition>, Error>
  {
    match data
    case Some(cs) => Ok(cs)
    case None => Err(ConditionsParseFailed)
  }

  /** The machines `List` returns for a namespace and a selector, in list order. */
  function ListMachines(machines: seq<Machine>, namespace: string, selector: Labels): (r: seq<Machine>)
    ensures forall m :: m in r <==> m in machines && m.namespace == namespace && SelectorMatches(selector, m.labels)
  {
    if machines == [] then []
    else
      var rest := ListMachines(machines[1..], namespace, selector);
      if machines[0].namespace == namespace && SelectorMatches(selector, machines[0].labels)
      then [machines[0]] + rest else rest
  }

  // ---------------------------------------------------------------------
  // Pure predicates of the controller
  // ---------------------------------------------------------------------

  /**
   * hasMatchingLabels: the selector converts, is not empty, and matches the
   * machine's labels.
   */
  predicate HasMatchingLabels(hc: MachineHealthCheck, m: Machine)
  {
    match AsSelector(hc.selector)
    case None => false
    case Some(selector) => |selector| != 0 && SelectorMatches(selector, m.labels)
  }

  /** hasMachineSetOwner: some owner reference has kind MachineSet (searched front to back). */
  function HasMachineSetOwner(m: Machine): (r: bool)
    ensures r <==> exists i :: 0 <= i < |m.ownerReferences| && m.ownerReferences[i].kind == OwnerControllerKind
  {
    OwnsByMachineSet(m.ownerReferences)
  }

  function OwnsByMachineSet(refs: seq<OwnerReference>): (r: bool)
    ensures r <==> exists i :: 0 <= i < |refs| && refs[i].kind == OwnerControllerKind
  {
    if refs == [] then false
    else if refs[0].kind == OwnerControllerKind then true
    else
      var r := OwnsByMachineSet(refs[1..]);
      assert r ==> exists i :: 0 <= i < |refs| && refs[i].kind == OwnerControllerKind by {
        if r {
          var i :| 0 <= i < |refs[1..]| && refs[1..][i].kind == OwnerControllerKind;
          assert refs[i + 1] == refs[1..][i];
        }
      }
      assert (exists i :: 0 <= i < |refs| && refs[i].kind == OwnerControllerKind) ==> r by {
        if i :| 0 <= i < |refs| && refs[i].kind == OwnerControllerKind {
          assert i > 0 && refs[1..][i - 1] == refs[i];
        }
      }
      r
  }

  /** isMaster: the machine's node can be read and carries the master role label. */
  predicate MachineIsMaster(st: Cluster, m: Machine)
  {
    match NodeOfMachine(st, m)
    case Found(node) => MasterLabel in node.labels
    case _ => false
  }

  /** The first health check, in list order, whose selector matches the machine. */
  function FirstMatchingHealthCheck(hcs: seq<MachineHealthCheck>, m: Machine): (r: Option<MachineHealthCheck>)
    ensures r.None? <==> forall i :: 0 <= i < |hcs| ==> !HasMatchingLabels(hcs[i], m)
    ensures r.Some? ==> HasMatchingLabels(r.value, m) && r.value in hcs
  {
    if hcs == [] then None
    else if HasMatchingLabels(hcs[0], m) then Some(hcs[0])
    else
      var r := FirstMatchingHealthCheck(hcs[1..], m);
      assert r.None? ==> forall i :: 0 <= i < |hcs| ==> !HasMatchingLabels(hcs[i], m) by {
        if r.None? {
          forall i | 0 <= i < |hcs| ensures !HasMatchingLabels(hcs[i], m) {
            if i > 0 { assert hcs[i] == hcs[1..][i - 1]; }
          }
        }
      }
      r
  }

  /** The check FirstMatchingHealthCheck returns is the first listed one that matches. */
  lemma {:induction false} FirstMatchingHealthCheckFirst(hcs: seq<MachineHealthCheck>, m: Machine)
    ensures var r := FirstMatchingHealthCheck(hcs, m);
      r.Some? ==> exists i :: 0 <= i < |hcs| && hcs[i] == r.value && forall j :: 0 <= j < i ==> !HasMatchingLabels(hcs[j], m)
    decreases |hcs|
  {
    if hcs != [] && !HasMatchingLabels(hcs[0], m) {
      var rest := hcs[1..];
      FirstMatchingHealthCheckFirst(rest, m);
      var r := FirstMatchingHealthCheck(rest, m);
      if r.Some? {
        var k :| 0 <= k < |rest| && rest[k] == r.value && forall j :: 0 <= j < k ==> !HasMatchingLabels(rest[j], m);
        forall j | 0 <= j < k + 1 ensures !HasMatchingLabels(hcs[j], m) {
          if j > 0 { assert hcs[j] == rest[j - 1]; }
        }
        assert hcs[k + 1] == r.value;
      }
    }
  }

  // ---------------------------------------------------------------------
  // The disruption budget
  // ---------------------------------------------------------------------

  /** The group a machine's disruption budget belongs to: its first MachineSet owner. */
  function BudgetGroup(refs: seq<OwnerReference>): (r: Option<string>)
    ensures r.Some? <==> OwnsByMachineSet(refs)
  {
    if refs == [] then None
    else if refs[0].kind == OwnerControllerKind then Some(refs[0].name)
    else BudgetGroup(refs[1..])
  }

  /**
   * disruption.RetryDecrementMachineDisruptionsAllowed: take one disruption
   * from the machine's budget when it has one left (Some with the new
   * budgets), refuse when it has none (None). A machine whose group has no
   * budget is not limited.
   */
  function DecrementedBudgets(budgets: map<string, nat>, m: Machine): (r: Option<map<string, nat>>)
    ensures r.None? <==> (var g := BudgetGroup(m.ownerReferences); g.Some? && g.value in budgets && budgets[g.value] == 0)
    ensures r.Some? ==> r.value.Keys == budgets.Keys
    ensures r.Some? ==> forall g :: g in budgets && Some(g) != BudgetGroup(m.ownerReferences) ==> r.value[g] == budgets[g]
    ensures r.Some? ==> forall g :: g in budgets && Some(g) == BudgetGroup(m.ownerReferences) ==> r.value[g] == budgets[g] - 1
  {
    match BudgetGroup(m.ownerReferences)
    case None => Some(budgets)
    case Some(g) =>
      if g !in budgets then Some(budgets)
      else if budgets[g] > 0 then Some(budgets[g := budgets[g] - 1])
      else None
  }

  // ---------------------------------------------------------------------
  // Remediation
  // ---------------------------------------------------------------------

  /**
   * remediationStrategyReboot: add the reboot annotation to the node and
   * write it back, unless it is already there.
   */
  function RebootRemediated(st: Cluster, nodeName: string, node: Node): (Outcome, Cluster)
  {
    if MachineRebootAnnotationKey in node.annotations then (Done, st)
    else if UpdateNodeFails(nodeName) in st.faults || nodeName !in st.nodes then (Failed(NodeUpdateFailed), st)
    else
      var annotated := node.(annotations := node.annotations[MachineRebootAnnotationKey := ""]);
      (Done, st.(nodes := st.nodes[nodeName := annotated]))
  }

  /** Deleting the machine stored under `key` (the delete strategy). */
  function MachineDeleted(st: Cluster, key: Key): (Outcome, Cluster)
  {
    if DeleteMachineFails(key) in st.faults || FindMachine(st.machines, key).None? then (Failed(MachineDeleteFailed), st)
    else (Done, st.(machines := RemoveMachine(st.machines, key)))
  }

  /**
   * The remediation of a machine whose node has been unhealthy for too long:
   * take a disruption from the budget first (requeue after a minute when
   * none is left), then reboot, or delete unless the node is a master.
   */
  function Remediation(st: Cluster, strategy: Option<string>, m: Machine, nodeName: string, node: Node): (Outcome, Cluster)
  {
    match DecrementedBudgets(st.budgets, m)
    case None => (Requeue(Minute), st)
    case Some(budgets) =>
      var st1 := st.(budgets := budgets);
      if strategy == Some(RemediationStrategyReboot) then RebootRemediated(st1, nodeName, node)
      else if MachineIsMaster(st1, m) then (Done, st1)
      else MachineDeleted(st1, Key(m.namespace, m.name))
  }

  /** remediate: what the controller does for a machine covered by a health check. */
  function Remediated(st: Cluster, namespace: string, strategy: Option<string>, m: Machine, now: int): (Outcome, Cluster)
  {
    if !HasMachineSetOwner(m) then (Done, st)
    else match NodeOfMachine(st, m)
      case NotFound => (Done, st)
      case LookupFailed(e) => (Failed(e), st)
      case Found(node) =>
        match UnhealthyConditionsConfigMap(st, namespace)
        case Err(e) => (Failed(e), st)
        case Ok(data) =>
          match NodeUnhealthyConditions(data)
          case Err(e) => (Failed(e), st)
          case Ok(cs) =>
            match Evaluate(node, cs, now)
            case Healthy => (Done, st)
            case Pending(d) => (Requeue(d), st)
            case TimeoutInvalid => (Failed(TimeoutParseFailed), st)
            case Actionable => Remediation(st, strategy, m, m.nodeRef.value.name, node)
  }

  /** Reconcile: what the controller does for a node named in a request. */
  function Reconciled(st: Cluster, namespace: string, nodeName: string, now: int): (Outcome, Cluster)
  {
    match LookupNode(st, nodeName)
    case NotFound => (Done, st)
    case LookupFailed(e) => (Failed(e), st)
    case Found(node) =>
      if MachineAnnotationKey !in node.annotations then (Done, st)
      else match SplitMetaNamespaceKey(node.annotations[MachineAnnotationKey])
        case None => (Failed(MalformedMachineKey), st)
        case Some(key) =>
          match LookupMachine(st, key)
          case NotFound => (Done, st)
          case LookupFailed(e) => (Failed(e), st)
          case Found(m) =>
            if ListHealthChecksFails in st.faults then (Failed(HealthCheckListFailed), st)
            else match FirstMatchingHealthCheck(st.healthChecks, m)
              case None => (Done, st)
              case Some(hc) => Remediated(st, namespace, hc.remediationStrategy, m, now)
  }

  // ---------------------------------------------------------------------
  // Fan-out of health-check events
  // ---------------------------------------------------------------------

  /** The names of the nodes the machines back, in machine order, skipping machines without a node. */
  function NodeNamesOf(machines: seq<Machine>): (names: seq<string>)
    ensures |names| <= |machines|
    ensures |names| == 0 <==> forall i :: 0 <= i < |machines| ==> machines[i].nodeRef.None?
  {
    if machines == [] then []
    else
      var rest := NodeNamesOf(machines[1..]);
      assert forall i :: 0 < i < |machines| ==> machines[i] == machines[1..][i - 1];
      if machines[0].nodeRef.Some? then [machines[0].nodeRef.value.name] + rest else rest
  }

  /** A name is listed exactly when some machine's nodeRef names it. */
  lemma {:induction false} NodeNamesOfMembers(machines: seq<Machine>)
    ensures forall n :: n in NodeNamesOf(machines) <==> exists m :: m in machines && m.nodeRef.Some? && m.nodeRef.value.name == n
    decreases |machines|
  {
    if machines != [] {
      NodeNamesOfMembers(machines[1..]);
      assert forall m :: m in machines <==> m == machines[0] || m in machines[1..];
    }
  }

  /** Appending a machine appends its node's name, if it has one. */
  lemma {:induction false} NodeNamesOfAppend(machines: seq<Machine>, m: Machine)
    ensures NodeNamesOf(machines + [m]) == NodeNamesOf(machines) + (if m.nodeRef.Some? then [m.nodeRef.value.name] else [])
  {
    if machines != [] {
      assert (machines + [m])[1..] == machines[1..] + [m];
      NodeNamesOfAppend(machines[1..], m);
    }
  }

  /**
   * getNodeNamesForMHC: the nodes backing the machines the health check's
   * selector lists in its namespace; None (a nil slice) when there are none.
   */
  function CoveredNodeNames(st: Cluster, hc: MachineHealthCheck): Result<Option<seq<string>>, Error>
  {
    match AsSelector(hc.selector)
    case None => Err(SelectorInvalid)
    case Some(selector) =>
      if ListMachinesFails(hc.namespace) in st.faults then Err(MachineListFailed)
      else
        var listed := ListMachines(st.machines, hc.namespace, selector);
        if |listed| < 1 then Ok(None)
        else
          var names := NodeNamesOf(listed);
          if |names| < 1 then Ok(None) else Ok(Some(names))
  }

  /** One reconcile request per name, each without a namespace. */
  function RequestsFor(names: seq<string>): (r: seq<Key>)
    ensures |r| == |names|
    ensures forall i :: 0 <= i < |names| ==> r[i] == Key("", names[i])
  {
    if names == [] then [] else [Key("", names[0])] + RequestsFor(names[1..])
  }

  /** nodeRequestsFromMachineHealthCheck: the requests a health-check event fans out to. */
  function NodeRequests(st: Cluster, key: Key): seq<Key>
  {
    match FindHealthCheck(st.healthChecks, key)
    case None => []
    case Some(hc) =>
      if hc.beingDeleted then []
      else match CoveredNodeNames(st, hc)
        case Ok(Some(names)) => RequestsFor(names)
        case _ => []
  }
}
