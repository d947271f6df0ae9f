/**
 * The health-check controller as it runs against its API client
 * (pkg/controller/machinehealthcheck/machinehealthcheck_controller.go).
 *
 * `Store` stands for the client: Get, List, Update and Delete on the objects
 * the controller touches, plus the disruption-budget decrement. `Reconciler`
 * is ReconcileMachineHealthCheck; each of its methods steps through client
 * calls as the Go code does and is proved to return, and leave behind, what
 * the matching function of module MachineHealthCheckModel prescribes.
 */
module MachineHealthCheckController {
  import opened Wrappers
  import opened Api
  import opened HealthEvaluation
  import opened MachineHealthCheckModel

  /** The objects behind the controller's API client. */
  class Store {
    var nodes: map<string, Node>
    var machines: seq<Machine>
    var healthChecks: seq<MachineHealthCheck>
    var configMaps: map<Key, ConditionsData>
    var budgets: map<string, nat>
    /** The calls the API server answers with an error other than NotFound. */
    const faults: set<Fault>

    /** The store's contents as a value. */
    function State(): Cluster
      reads this
    {
      Cluster(nodes, machines, healthChecks, configMaps, budgets, faults)
    }

    constructor (st: Cluster)
      ensures State() == st
    {
      nodes := st.nodes;
      machines := st.machines;
      healthChecks := st.healthChecks;
      configMaps := st.configMaps;
      budgets := st.budgets;
      faults := st.faults;
    }

    method GetNode(name: string) returns (r: Lookup<Node>)
      ensures r == LookupNode(State(), name)
    {
      if GetNodeFails(name) in faults {
        r := LookupFailed(NodeGetFailed);
      } else if name in nodes {
        r := Found(nodes[name]);
      } else {
        r := NotFound;
      }
    }

    method GetMachine(key: Key) returns (r: Lookup<Machine>)
      ensures r == LookupMachine(State(), key)
    {
      if GetMachineFails(key) in faults {
        return LookupFailed(MachineGetFailed);
      }
      var found := FindMachine(machines, key);
      r := if found.Some? then Found(found.value) else NotFound;
    }

    method GetHealthCheck(key: Key) returns (r: Option<MachineHealthCheck>)
      ensures r == FindHealthCheck(State().healthChecks, key)
    {
      r := FindHealthCheck(healthChecks, key);
    }

    method ListHealthChecks() returns (r: Result<seq<MachineHealthCheck>, Error>)
      ensures ListHealthChecksFails in faults ==> r == Err(HealthCheckListFailed)
      ensures ListHealthChecksFails !in faults ==> r == Ok(healthChecks)
    {
      r := if ListHealthChecksFails in faults then Err(HealthCheckListFailed) else Ok(healthChecks);
    }

    method ListMachines(namespace: string, selector: Labels) returns (r: Result<seq<Machine>, Error>)
      ensures ListMachinesFails(namespace) in faults ==> r == Err(MachineListFailed)
      ensures ListMachinesFails(namespace) !in faults ==> r == Ok(MachineHealthCheckModel.ListMachines(machines, namespace, selector))
    {
      if ListMachinesFails(namespace) in faults {
        r := Err(MachineListFailed);
      } else {
        r := Ok(MachineHealthCheckModel.ListMachines(machines, namespace, selector));
      }
    }

    method GetConfigMap(key: Key) returns (r: Lookup<ConditionsData>)
      ensures GetConfigMapFails in faults ==> r == LookupFailed(ConfigMapGetFailed)
      ensures GetConfigMapFails !in faults && key in configMaps ==> r == Found(configMaps[key])
      ensures GetConfigMapFails !in faults && key !in configMaps ==> r == NotFound
    {
      if GetConfigMapFails in faults {
        r := LookupFailed(ConfigMapGetFailed);
      } else if key in configMaps {
        r := Found(configMaps[key]);
      } else {
        r := NotFound;
      }
    }

    /** Replaces the stored node; fails when the server refuses or the node is gone. */
    method UpdateNode(name: string, node: Node) returns (err: Option<Error>)
      modifies this
      ensures err.Some? <==> UpdateNodeFails(name) in faults || name !in old(nodes)
      ensures err.Some? ==> err == Some(NodeUpdateFailed) && State() == old(State())
      ensures err.None? ==> State() == old(State()).(nodes := old(nodes)[name := node])
    {
      if UpdateNodeFails(name) in faults || name !in nodes {
        return Some(NodeUpdateFailed);
      }
      nodes := nodes[name := node];
      err := None;
    }

    /** Deletes the stored machine; fails when the server refuses or the machine is gone. */
    method DeleteMachine(key: Key) returns (err: Option<Error>)
      modifies this
      ensures err.Some? <==> DeleteMachineFails(key) in faults || FindMachine(old(machines), key).None?
      ensures err.Some? ==> err == Some(MachineDeleteFailed) && State() == old(State())
      ensures err.None? ==> State() == old(State()).(machines := RemoveMachine(old(machines), key))
    {
      if DeleteMachineFails(key) in faults || FindMachine(machines, key).None? {
        return Some(MachineDeleteFailed);
      }
      machines := RemoveMachine(machines, key);
      err := None;
    }

    /** disruption.RetryDecrementMachineDisruptionsAllowed as a sequential counter per machine group. */
    method DecrementDisruptionsAllowed(m: Machine) returns (ok: bool)
      modifies this
      ensures ok <==> DecrementedBudgets(old(budgets), m).Some?
      ensures ok ==> State() == old(State()).(budgets := DecrementedBudgets(old(budgets), m).value)
      ensures !ok ==> State() == old(State())
    {
      var decremented := DecrementedBudgets(budgets, m);
      if decremented.None? {
        return false;
      }
      budgets := decremented.value;
      ok := true;
    }
  }

  /** ReconcileMachineHealthCheck: a client and the namespace the controller runs in. */
  class Reconciler {
    const client: Store
    const namespace: string

    constructor (client: Store, namespace: string)
      ensures this.client == client && this.namespace == namespace
    {
      this.client := client;
      this.namespace := namespace;
    }

    /**
     * Reconcile: from the node named in the request, through its machine
     * annotation, to the machine and the first health check covering it.
     */
    method Reconcile(request: Key, now: int) returns (outcome: Outcome)
      modifies client
      ensures (outcome, client.State()) == Reconciled(old(client.State()), namespace, request.name, now)
    {
      var nodeLookup := client.GetNode(request.name);
      if nodeLookup.NotFound? {
        return Done;
      }
      if nodeLookup.LookupFailed? {
        return Failed(nodeLookup.error);
      }
      var node := nodeLookup.value;
      if MachineAnnotationKey !in node.annotations {
        return Done;
      }
      var machineKey := SplitMetaNamespaceKey(node.annotations[MachineAnnotationKey]);
      if machineKey.None? {
        return Failed(MalformedMachineKey);
      }
      var machineLookup := client.GetMachine(machineKey.value);
      if machineLookup.NotFound? {
        return Done;
      }
      if machineLookup.LookupFailed? {
        return Failed(machineLookup.error);
      }
      var machine := machineLookup.value;
      var listed := client.ListHealthChecks();
      if listed.Err? {
        return Failed(listed.error);
      }
      var healthChecks := listed.value;
      var i := 0;
      while i < |healthChecks|
        invariant 0 <= i <= |healthChecks|
        invariant client.State() == old(client.State())
        invariant FirstMatchingHealthCheck(healthChecks, machine) == FirstMatchingHealthCheck(healthChecks[i..], machine)
      {
        if HasMatchingLabels(healthChecks[i], machine) {
          outcome := Remediate(healthChecks[i].remediationStrategy, machine, now);
          return;
        }
        assert healthChecks[i..][1..] == healthChecks[i + 1..];
        i := i + 1;
      }
      outcome := Done;
    }

    /**
     * remediate: check the node's conditions against the configured
     * unhealthy conditions and, once one has lasted too long, take a
     * disruption from the budget and reboot or delete.
     */
    method Remediate(strategy: Option<string>, machine: Machine, now: int) returns (outcome: Outcome)
      modifies client
      ensures (outcome, client.State()) == Remediated(old(client.State()), namespace, strategy, machine, now)
    {
      if !HasMachineSetOwner(machine) {
        return Done;
      }
      var nodeLookup := GetNodeFromMachine(machine);
      if nodeLookup.NotFound? {
        return Done;
      }
      if nodeLookup.LookupFailed? {
        return Failed(nodeLookup.error);
      }
      var node := nodeLookup.value;
      var configMap := GetUnhealthyConditionsConfigMap();
      if configMap.Err? {
        return Failed(configMap.error);
      }
      var unhealthyConditions := NodeUnhealthyConditions(configMap.value);
      if unhealthyConditions.Err? {
        return Failed(unhealthyConditions.error);
      }
      var verdict := EvaluateConditions(node, unhealthyConditions.value, now);
      match verdict {
        case Healthy =>
          outcome := Done;
        case Pending(delay) =>
          outcome := Requeue(delay);
        case TimeoutInvalid =>
          outcome := Failed(TimeoutParseFailed);
        case Actionable =>
          var decremented := client.DecrementDisruptionsAllowed(machine);
          if !decremented {
            return Requeue(Minute);
          }
          if strategy == Some(MachineHealthCheckModel.RemediationStrategyReboot) {
            outcome := RemediationStrategyReboot(machine, machine.nodeRef.value.name, node);
            return;
          }
          var master := IsMaster(machine);
          if master {
            return Done;
          }
          var err := client.DeleteMachine(Key(machine.namespace, machine.name));
          outcome := if err.Some? then Failed(err.value) else Done;
      }
    }

    /**
     * remediationStrategyReboot: annotate the node for reboot and write it
     * back, unless the annotation is already there.
     */
    method RemediationStrategyReboot(machine: Machine, nodeName: string, node: Node) returns (outcome: Outcome)
      modifies client
      ensures (outcome, client.State()) == RebootRemediated(old(client.State()), nodeName, node)
    {
      if MachineRebootAnnotationKey in node.annotations {
        return Done;
      }
      var annotations := node.annotations[MachineRebootAnnotationKey := ""];
      var err := client.UpdateNode(nodeName, node.(annotations := annotations));
      outcome := if err.Some? then Failed(err.value) else Done;
    }

    /** getNodeFromMachine */
    method GetNodeFromMachine(machine: Machine) returns (r: Lookup<Node>)
      ensures r == NodeOfMachine(client.State(), machine)
    {
      if machine.nodeRef.None? {
        return LookupFailed(NodeRefMissing);
      }
      r := client.GetNode(machine.nodeRef.value.name);
    }

    /** getUnhealthyConditionsConfigMap: the configured conditions, or the defaults when none are. */
    method GetUnhealthyConditionsConfigMap() returns (r: Result<ConditionsData, Error>)
      ensures r == UnhealthyConditionsConfigMap(client.State(), namespace)
    {
      var found := client.GetConfigMap(Key(namespace, ConfigMapNodeUnhealthyConditions));
      match found {
        case Found(data) => r := Ok(data);
        case LookupFailed(e) => r := Err(e);
        case NotFound => r := Ok(Some(DefaultUnhealthyConditions));
      }
    }

    /** isMaster */
    method IsMaster(machine: Machine) returns (master: bool)
      ensures master == MachineIsMaster(client.State(), machine)
    {
      var nodeLookup := GetNodeFromMachine(machine);
      if !nodeLookup.Found? {
        return false;
      }
      master := MasterLabel in nodeLookup.value.labels;
    }

    /** getNodeNamesForMHC */
    method GetNodeNamesForHealthCheck(hc: MachineHealthCheck) returns (r: Result<Option<seq<string>>, Error>)
      ensures r == CoveredNodeNames(client.State(), hc)
    {
      var selector := AsSelector(hc.selector);
      if selector.None? {
        return Err(SelectorInvalid);
      }
      var listed := client.ListMachines(hc.namespace, selector.value);
      if listed.Err? {
        return Err(listed.error);
      }
      var items := listed.value;
      if |items| < 1 {
        return Ok(None);
      }
      var nodeNames: seq<string> := [];
      var i := 0;
      while i < |items|
        invariant 0 <= i <= |items|
        invariant nodeNames == NodeNamesOf(items[..i])
      {
        NodeNamesOfAppend(items[..i], items[i]);
        assert items[..i + 1] == items[..i] + [items[i]];
        if items[i].nodeRef.Some? {
          nodeNames := nodeNames + [items[i].nodeRef.value.name];
        }
        i := i + 1;
      }
      assert items[..i] == items;
      if |nodeNames| < 1 {
        return Ok(None);
      }
      r := Ok(Some(nodeNames));
    }

    /** nodeRequestsFromMachineHealthCheck */
    method NodeRequestsFromHealthCheck(key: Key) returns (requests: seq<Key>)
      ensures requests == NodeRequests(client.State(), key)
    {
      var hc := client.GetHealthCheck(key);
      if hc.None? {
        return [];
      }
      if hc.value.beingDeleted {
        return [];
      }
      var nodeNames := GetNodeNamesForHealthCheck(hc.value);
      if nodeNames.Err? {
        return [];
      }
      if nodeNames.value.None? {
        return [];
      }
      var names := nodeNames.value.value;
      requests := [];
      var i := 0;
      while i < |names|
        invariant 0 <= i <= |names|
        invariant |requests| == i
        invariant forall j :: 0 <= j < i ==> requests[j] == Key("", names[j])
      {
        requests := requests + [Key("", names[i])];
        i := i + 1;
      }
      assert requests == RequestsFor(names);
    }
  }
}
