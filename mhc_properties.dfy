/**
 * What the health-check controller promises, stated over the functions of
 * module MachineHealthCheckModel (which the controller's methods are proved
 * to follow): selector matching, the early guards of `remediate`, the
 * disruption budget, the master exemption, the reboot strategy, the lookup
 * chain of `Reconcile`, and the fan-out of health-check events; followed by
 * the scenarios of the controller's unit tests.
 */
module MachineHealthCheckProperties {
  import opened Wrappers
  import opened Api
  import opened HealthEvaluation
  import opened MachineHealthCheckModel

  // ---------------------------------------------------------------------
  // Selectors
  // ---------------------------------------------------------------------

  /**
   * hasMatchingLabels refuses a selector that does not convert and an empty
   * selector (whatever the machine's labels); otherwise it is exactly the
   * selector match.
   */
  lemma HasMatchingLabelsCases(hc: MachineHealthCheck, m: Machine)
    ensures !hc.selector.wellFormed ==> !HasMatchingLabels(hc, m)
    ensures hc.selector.matchLabels == map[] ==> !HasMatchingLabels(hc, m)
    ensures hc.selector.wellFormed && hc.selector.matchLabels != map[] ==>
      (HasMatchingLabels(hc, m) <==> SelectorMatches(hc.selector.matchLabels, m.labels))
  {
    if hc.selector.matchLabels != map[] {
      var k :| k in hc.selector.matchLabels;
      assert |hc.selector.matchLabels| != 0;
    }
  }

  /**
   * The empty selector is read two ways: a health-check event with it fans
   * out to every machine's node in the namespace, while no reconcile ever
   * finds the health check matching a machine.
   */
  lemma EmptySelectorAsymmetry(st: Cluster, hc: MachineHealthCheck, m: Machine)
    requires hc.selector == LabelSelector(map[], true)
    requires m in st.machines && m.namespace == hc.namespace && m.nodeRef.Some?
    requires ListMachinesFails(hc.namespace) !in st.faults
    ensures !HasMatchingLabels(hc, m)
    ensures CoveredNodeNames(st, hc).Ok? && CoveredNodeNames(st, hc).value.Some?
    ensures m.nodeRef.value.name in CoveredNodeNames(st, hc).value.value
  {
    var listed := ListMachines(st.machines, hc.namespace, map[]);
    NodeNamesOfMembers(listed);
    assert SelectorMatches(map[], m.labels);
    assert m in listed;
    assert m.nodeRef.value.name in NodeNamesOf(listed);
  }

  // ---------------------------------------------------------------------
  // Fan-out of health-check events
  // ---------------------------------------------------------------------

  /** No request when the health check cannot be read, is being deleted, or covers no node. */
  lemma NoRequestsCases(st: Cluster, key: Key)
    ensures FindHealthCheck(st.healthChecks, key).None? ==> NodeRequests(st, key) == []
    ensures FindHealthCheck(st.healthChecks, key).Some? && FindHealthCheck(st.healthChecks, key).value.beingDeleted ==>
      NodeRequests(st, key) == []
    ensures FindHealthCheck(st.healthChecks, key).Some? && !CoveredNodeNames(st, FindHealthCheck(st.healthChecks, key).value).Ok? ==>
      NodeRequests(st, key) == []
    ensures FindHealthCheck(st.healthChecks, key).Some? && CoveredNodeNames(st, FindHealthCheck(st.healthChecks, key).value) == Ok(None) ==>
      NodeRequests(st, key) == []
  {
  }

  /**
   * getNodeNamesForMHC returns nil, never an empty list, exactly when no
   * listed machine has a node.
   */
  lemma CoveredNodeNamesNil(st: Cluster, hc: MachineHealthCheck)
    requires hc.selector.wellFormed && ListMachinesFails(hc.namespace) !in st.faults
    ensures CoveredNodeNames(st, hc).Ok?
    ensures CoveredNodeNames(st, hc).value.Some? ==> |CoveredNodeNames(st, hc).value.value| >= 1
    ensures CoveredNodeNames(st, hc).value.None? <==>
      forall m :: m in st.machines && m.namespace == hc.namespace && SelectorMatches(hc.selector.matchLabels, m.labels) ==> m.nodeRef.None?
  {
    var listed := ListMachines(st.machines, hc.namespace, hc.selector.matchLabels);
    if CoveredNodeNames(st, hc).value.None? {
      forall m | m in st.machines && m.namespace == hc.namespace && SelectorMatches(hc.selector.matchLabels, m.labels)
        ensures m.nodeRef.None?
      {
        assert m in listed;
      }
    } else {
      var names := CoveredNodeNames(st, hc).value.value;
      assert names[0] in NodeNamesOf(listed);
    }
  }

  /** Every node backing a machine the health check lists gets one request, without a namespace. */
  lemma EveryCoveredNodeRequested(st: Cluster, key: Key, hc: MachineHealthCheck, m: Machine)
    requires FindHealthCheck(st.healthChecks, key) == Some(hc) && !hc.beingDeleted
    requires hc.selector.wellFormed && ListMachinesFails(hc.namespace) !in st.faults
    requires m in st.machines && m.namespace == hc.namespace && SelectorMatches(hc.selector.matchLabels, m.labels)
    requires m.nodeRef.Some?
    ensures Key("", m.nodeRef.value.name) in NodeRequests(st, key)
  {
    var listed := ListMachines(st.machines, hc.namespace, hc.selector.matchLabels);
    NodeNamesOfMembers(listed);
    assert m in listed;
    var names := NodeNamesOf(listed);
    assert m.nodeRef.value.name in names;
    var i :| 0 <= i < |names| && names[i] == m.nodeRef.value.name;
    assert RequestsFor(names)[i] == Key("", m.nodeRef.value.name);
  }

  /** Every request names, without a namespace, the node of a machine the health check lists. */
  lemma OnlyCoveredNodesRequested(st: Cluster, key: Key, request: Key)
    requires request in NodeRequests(st, key)
    ensures request.namespace == ""
    ensures FindHealthCheck(st.healthChecks, key).Some?
    ensures var hc := FindHealthCheck(st.healthChecks, key).value;
      && !hc.beingDeleted
      && hc.selector.wellFormed
      && exists m :: m in st.machines && m.namespace == hc.namespace && SelectorMatches(hc.selector.matchLabels, m.labels) && m.nodeRef.Some? && m.nodeRef.value.name == request.name
  {
    var hc := FindHealthCheck(st.healthChecks, key).value;
    var names := CoveredNodeNames(st, hc).value.value;
    var i :| 0 <= i < |names| && RequestsFor(names)[i] == request;
    var listed := ListMachines(st.machines, hc.namespace, hc.selector.matchLabels);
    NodeNamesOfMembers(listed);
    assert names[i] in NodeNamesOf(listed);
    var m :| m in listed && m.nodeRef.Some? && m.nodeRef.value.name == names[i];
    assert m in st.machines;
  }

  // ---------------------------------------------------------------------
  // remediate
  // ---------------------------------------------------------------------

  /**
   * The machine's node can be read, the unhealthy conditions can be read and
   * decoded, and one of them has lasted too long.
   */
  predicate DueForRemediation(st: Cluster, namespace: string, m: Machine, now: int)
  {
    && NodeOfMachine(st, m).Found?
    && UnhealthyConditionsConfigMap(st, namespace).Ok?
    && NodeUnhealthyConditions(UnhealthyConditionsConfigMap(st, namespace).value).Ok?
    && Evaluate(NodeOfMachine(st, m).value, NodeUnhealthyConditions(UnhealthyConditionsConfigMap(st, namespace).value).value, now) == Actionable
  }

  /** A machine no MachineSet owns is never remediated, and nothing is touched. */
  lemma NotOwnedNotRemediated(st: Cluster, namespace: string, strategy: Option<string>, m: Machine, now: int)
    requires forall i :: 0 <= i < |m.ownerReferences| ==> m.ownerReferences[i].kind != OwnerControllerKind
    ensures Remediated(st, namespace, strategy, m, now) == (Done, st)
  {
  }

  /** A machine without a NodeRef is an error, and nothing is touched. */
  lemma MissingNodeRefFails(st: Cluster, namespace: string, strategy: Option<string>, m: Machine, now: int)
    requires HasMachineSetOwner(m) && m.nodeRef.None?
    ensures Remediated(st, namespace, strategy, m, now) == (Failed(NodeRefMissing), st)
  {
  }

  /**
   * The store changes only for a MachineSet-owned machine that is due for
   * remediation and whose budget allows a disruption.
   */
  lemma OnlyDueMachinesTouched(st: Cluster, namespace: string, strategy: Option<string>, m: Machine, now: int)
    requires Remediated(st, namespace, strategy, m, now).1 != st
    ensures HasMachineSetOwner(m)
    ensures DueForRemediation(st, namespace, m, now)
    ensures DecrementedBudgets(st.budgets, m).Some?
  {
  }

  /** Outcomes other than success leave every object but the budgets as they were. */
  lemma FailureAndRequeueLeaveObjects(st: Cluster, namespace: string, strategy: Option<string>, m: Machine, now: int)
    ensures var (outcome, st') := Remediated(st, namespace, strategy, m, now);
      && (outcome.Requeue? ==> st' == st)
      && (outcome.Failed? ==> st' == st.(budgets := st'.budgets))
  {
  }

  /** An exhausted budget requeues after exactly one minute with no error, and nothing is written. */
  lemma ExhaustedBudgetRequeues(st: Cluster, namespace: string, strategy: Option<string>, m: Machine, now: int)
    requires HasMachineSetOwner(m) && DueForRemediation(st, namespace, m, now)
    requires DecrementedBudgets(st.budgets, m).None?
    ensures Remediated(st, namespace, strategy, m, now) == (Requeue(Minute), st)
  {
  }

  /**
   * The disruption is taken before the strategy and the master role are
   * looked at: it is spent whatever follows, failures included.
   */
  lemma BudgetTakenFirst(st: Cluster, namespace: string, strategy: Option<string>, m: Machine, now: int)
    requires HasMachineSetOwner(m) && DueForRemediation(st, namespace, m, now)
    requires DecrementedBudgets(st.budgets, m).Some?
    ensures Remediated(st, namespace, strategy, m, now).1.budgets == DecrementedBudgets(st.budgets, m).value
  {
  }

  /** A machine whose node carries the master role label is never deleted. */
  lemma MasterNeverDeleted(st: Cluster, namespace: string, strategy: Option<string>, m: Machine, now: int)
    requires MachineIsMaster(st, m)
    ensures Remediated(st, namespace, strategy, m, now).1.machines == st.machines
  {
    if HasMachineSetOwner(m) && DueForRemediation(st, namespace, m, now) && DecrementedBudgets(st.budgets, m).Some? {
      var st1 := st.(budgets := DecrementedBudgets(st.budgets, m).value);
      assert NodeOfMachine(st1, m) == NodeOfMachine(st, m);
    }
  }

  /** The reboot strategy never deletes a machine. */
  lemma RebootNeverDeletes(st: Cluster, namespace: string, m: Machine, now: int)
    ensures Remediated(st, namespace, Some(RemediationStrategyReboot), m, now).1.machines == st.machines
  {
  }

  /**
   * Under the reboot strategy a due machine's node gets the reboot
   * annotation whatever its role: the master exemption guards only the
   * delete path.
   */
  lemma RebootAnnotatesEvenMasters(st: Cluster, namespace: string, m: Machine, now: int)
    requires HasMachineSetOwner(m) && DueForRemediation(st, namespace, m, now)
    requires DecrementedBudgets(st.budgets, m).Some?
    requires UpdateNodeFails(m.nodeRef.value.name) !in st.faults
    ensures var (outcome, st') := Remediated(st, namespace, Some(RemediationStrategyReboot), m, now);
      && outcome == Done
      && m.nodeRef.value.name in st'.nodes
      && MachineRebootAnnotationKey in st'.nodes[m.nodeRef.value.name].annotations
  {
  }

  /**
   * The delete strategy removes a due machine that is not a master, after
   * taking the disruption, and changes nothing else.
   */
  lemma DeletesDueWorker(st: Cluster, namespace: string, strategy: Option<string>, m: Machine, now: int)
    requires strategy != Some(RemediationStrategyReboot)
    requires HasMachineSetOwner(m) && DueForRemediation(st, namespace, m, now)
    requires DecrementedBudgets(st.budgets, m).Some?
    requires !MachineIsMaster(st, m)
    requires DeleteMachineFails(Key(m.namespace, m.name)) !in st.faults && m in st.machines
    ensures var (outcome, st') := Remediated(st, namespace, strategy, m, now);
      && outcome == Done
      && st' == st.(budgets := DecrementedBudgets(st.budgets, m).value, machines := st'.machines)
      && m !in st'.machines
      && forall x :: x in st.machines && Key(x.namespace, x.name) != Key(m.namespace, m.name) ==> x in st'.machines
  {
    var key := Key(m.namespace, m.name);
    var st1 := st.(budgets := DecrementedBudgets(st.budgets, m).value);
    assert NodeOfMachine(st1, m) == NodeOfMachine(st, m);
  }

  /**
   * While no condition has lasted too long, the controller requeues after
   * the smallest remaining wait, which is at least a second and belongs to
   * one of the considered conditions; nothing is written.
   */
  lemma RequeueAfterSmallestWait(st: Cluster, namespace: string, strategy: Option<string>, m: Machine, now: int, node: Node, cs: seq<UnhealthyCondition>)
    requires HasMachineSetOwner(m) && NodeOfMachine(st, m) == Found(node)
    requires UnhealthyConditionsConfigMap(st, namespace) == Ok(Some(cs))
    requires Evaluate(node, cs, now).Pending?
    ensures var d := Evaluate(node, cs, now).delay;
      && Remediated(st, namespace, strategy, m, now) == (Requeue(d), st)
      && d >= Second
      && (exists i :: 0 <= i < |cs| && ConditionStep(node, cs[i], now) == Wait(d))
      && (forall i :: 0 <= i < |cs| && ConditionStep(node, cs[i], now).Wait? ==> d <= ConditionStep(node, cs[i], now).delay)
  {
    EvaluatePendingMinimum(node, cs, now);
  }

  /** A node that reports none of the configured conditions with the configured status is left alone. */
  lemma HealthyNodeLeftAlone(st: Cluster, namespace: string, strategy: Option<string>, m: Machine, now: int, node: Node, cs: seq<UnhealthyCondition>)
    requires HasMachineSetOwner(m) && NodeOfMachine(st, m) == Found(node)
    requires UnhealthyConditionsConfigMap(st, namespace) == Ok(Some(cs))
    requires forall i :: 0 <= i < |cs| ==> !Considered(node, cs[i])
    ensures Remediated(st, namespace, strategy, m, now) == (Done, st)
  {
    EvaluateHealthy(node, cs, now);
  }

  // ---------------------------------------------------------------------
  // remediationStrategyReboot
  // ---------------------------------------------------------------------

  /**
   * Rebooting adds exactly the reboot annotation, with an empty value, to the
   * node and changes nothing else.
   */
  lemma RebootAddsOnlyTheAnnotation(st: Cluster, nodeName: string)
    requires nodeName in st.nodes && UpdateNodeFails(nodeName) !in st.faults
    ensures var node := st.nodes[nodeName];
      var (outcome, st') := RebootRemediated(st, nodeName, node);
      && outcome == Done
      && st' == st.(nodes := st'.nodes)
      && st'.nodes.Keys == st.nodes.Keys
      && (forall n :: n in st.nodes && n != nodeName ==> st'.nodes[n] == st.nodes[n])
      && st'.nodes[nodeName] == node.(annotations := st'.nodes[nodeName].annotations)
      && st'.nodes[nodeName].annotations.Keys == node.annotations.Keys + {MachineRebootAnnotationKey}
      && (MachineRebootAnnotationKey !in node.annotations ==> st'.nodes[nodeName].annotations[MachineRebootAnnotationKey] == "")
      && (forall k :: k in node.annotations ==> st'.nodes[nodeName].annotations[k] == node.annotations[k])
  {
  }

  /** Rebooting again after a successful reboot writes nothing. */
  lemma RebootIdempotent(st: Cluster, nodeName: string)
    requires nodeName in st.nodes
    requires RebootRemediated(st, nodeName, st.nodes[nodeName]).0 == Done
    ensures var st' := RebootRemediated(st, nodeName, st.nodes[nodeName]).1;
      nodeName in st'.nodes && RebootRemediated(st', nodeName, st'.nodes[nodeName]) == (Done, st')
  {
  }

  // ---------------------------------------------------------------------
  // Reconcile
  // ---------------------------------------------------------------------

  /**
   * The node named `nodeName` is annotated with the key of machine `m`, and
   * `hc` is the first health check matching `m`.
   */
  predicate Resolves(st: Cluster, nodeName: string, m: Machine, hc: MachineHealthCheck)
  {
    && LookupNode(st, nodeName).Found?
    && MachineAnnotationKey in LookupNode(st, nodeName).value.annotations
    && SplitMetaNamespaceKey(LookupNode(st, nodeName).value.annotations[MachineAnnotationKey]).Some?
    && LookupMachine(st, SplitMetaNamespaceKey(LookupNode(st, nodeName).value.annotations[MachineAnnotationKey]).value) == Found(m)
    && ListHealthChecksFails !in st.faults
    && FirstMatchingHealthCheck(st.healthChecks, m) == Some(hc)
  }

  /**
   * The ways Reconcile stops before remediating: no node, no machine
   * annotation, no such machine or no matching health check stop quietly; a
   * malformed machine key is an error. None of them writes.
   */
  lemma ReconcileLookupChain(st: Cluster, namespace: string, nodeName: string, now: int)
    ensures LookupNode(st, nodeName).NotFound? ==> Reconciled(st, namespace, nodeName, now) == (Done, st)
    ensures var node := LookupNode(st, nodeName);
      node.Found? && MachineAnnotationKey !in node.value.annotations ==> Reconciled(st, namespace, nodeName, now) == (Done, st)
    ensures var node := LookupNode(st, nodeName);
      node.Found? && MachineAnnotationKey in node.value.annotations && Occurrences(node.value.annotations[MachineAnnotationKey], '/') >= 2 ==>
      Reconciled(st, namespace, nodeName, now) == (Failed(MalformedMachineKey), st)
    ensures var node := LookupNode(st, nodeName);
      var key := if node.Found? && MachineAnnotationKey in node.value.annotations then SplitMetaNamespaceKey(node.value.annotations[MachineAnnotationKey]) else None;
      key.Some? && LookupMachine(st, key.value).NotFound? ==> Reconciled(st, namespace, nodeName, now) == (Done, st)
    ensures var node := LookupNode(st, nodeName);
      var key := if node.Found? && MachineAnnotationKey in node.value.annotations then SplitMetaNamespaceKey(node.value.annotations[MachineAnnotationKey]) else None;
      var machine := if key.Some? then LookupMachine(st, key.value) else NotFound;
      machine.Found? && ListHealthChecksFails !in st.faults && FirstMatchingHealthCheck(st.healthChecks, machine.value).None? ==>
      Reconciled(st, namespace, nodeName, now) == (Done, st)
  {
  }

  /** Once the chain resolves, the first matching health check's strategy decides the remediation. */
  lemma ReconcileDelegates(st: Cluster, namespace: string, nodeName: string, now: int, m: Machine, hc: MachineHealthCheck)
    requires Resolves(st, nodeName, m, hc)
    ensures Reconciled(st, namespace, nodeName, now) == Remediated(st, namespace, hc.remediationStrategy, m, now)
  {
  }

  /** Reconcile writes only when the chain resolves to a machine and a health check. */
  lemma ReconcileWritesOnlyWhenResolved(st: Cluster, namespace: string, nodeName: string, now: int)
    requires Reconciled(st, namespace, nodeName, now).1 != st
    ensures exists m, hc :: Resolves(st, nodeName, m, hc)
  {
    var node := LookupNode(st, nodeName).value;
    var key := SplitMetaNamespaceKey(node.annotations[MachineAnnotationKey]).value;
    var m := LookupMachine(st, key).value;
    var hc := FirstMatchingHealthCheck(st.healthChecks, m).value;
    assert Resolves(st, nodeName, m, hc);
  }


  /**
   * `st1` differs from `st` at most in the budgets and in the reboot
   * annotation of some nodes.
   */
  ghost predicate OnlyRebootAnnotationChanged(st: Cluster, st1: Cluster)
  {
    && st1 == st.(budgets := st1.budgets, nodes := st1.nodes)
    && st1.nodes.Keys == st.nodes.Keys
    && (forall n :: n in st.nodes ==> st1.nodes[n] == st.nodes[n].(annotations := st1.nodes[n].annotations))
    && (forall n, k :: n in st.nodes && k != MachineRebootAnnotationKey ==>
          (k in st1.nodes[n].annotations <==> k in st.nodes[n].annotations))
    && (forall n, k :: n in st.nodes && k != MachineRebootAnnotationKey && k in st.nodes[n].annotations ==>
          st1.nodes[n].annotations[k] == st.nodes[n].annotations[k])
  }

  /** Rebooting a stored node changes nothing but the reboot annotation of that node. */
  lemma RebootRemediatedFrame(st: Cluster, nodeName: string)
    requires nodeName in st.nodes
    ensures var st1 := RebootRemediated(st, nodeName, st.nodes[nodeName]).1;
      && OnlyRebootAnnotationChanged(st, st1)
      && st1.budgets == st.budgets
      && (MachineRebootAnnotationKey in st1.nodes[nodeName].annotations || UpdateNodeFails(nodeName) in st.faults)
  {
    var node := st.nodes[nodeName];
    if MachineRebootAnnotationKey !in node.annotations && UpdateNodeFails(nodeName) !in st.faults {
      var annotated := node.(annotations := node.annotations[MachineRebootAnnotationKey := ""]);
      var st1 := st.(nodes := st.nodes[nodeName := annotated]);
      assert RebootRemediated(st, nodeName, node).1 == st1;
      assert forall n :: n in st.nodes ==> st1.nodes[n] == st.nodes[n].(annotations := st1.nodes[n].annotations);
    }
  }

  /**
   * The reboot strategy changes, besides the budgets, only the reboot
   * annotation of the machine's node; afterwards that node carries the
   * annotation unless the update was refused.
   */
  lemma RebootChangesOnlyTheAnnotation(st: Cluster, namespace: string, m: Machine, now: int)
    ensures var st1 := Remediated(st, namespace, Some(RemediationStrategyReboot), m, now).1;
      && OnlyRebootAnnotationChanged(st, st1)
      && (st1 != st ==> m.nodeRef.Some? && m.nodeRef.value.name in st.nodes)
      && (st1 != st ==> MachineRebootAnnotationKey in st1.nodes[m.nodeRef.value.name].annotations || UpdateNodeFails(m.nodeRef.value.name) in st.faults)
  {
    var st1 := Remediated(st, namespace, Some(RemediationStrategyReboot), m, now).1;
    if st1 != st {
      OnlyDueMachinesTouched(st, namespace, Some(RemediationStrategyReboot), m, now);
      var ref := m.nodeRef.value.name;
      var st0 := st.(budgets := DecrementedBudgets(st.budgets, m).value);
      assert st1 == RebootRemediated(st0, ref, st0.nodes[ref]).1;
      RebootRemediatedFrame(st0, ref);
    }
  }

  /**
   * The reboot strategy writes a node only when that node lacks the reboot
   * annotation and the update is not refused.
   */
  lemma RebootWritesOnlyUnannotated(st: Cluster, namespace: string, m: Machine, now: int)
    requires Remediated(st, namespace, Some(RemediationStrategyReboot), m, now).1.nodes != st.nodes
    ensures m.nodeRef.Some? && m.nodeRef.value.name in st.nodes
    ensures MachineRebootAnnotationKey !in st.nodes[m.nodeRef.value.name].annotations
    ensures UpdateNodeFails(m.nodeRef.value.name) !in st.faults
  {
  }

  /**
   * Under the reboot strategy a second reconcile of the same node, at the
   * same time, resolves the same machine and health check and writes no node
   * and deletes no machine (it may take another disruption from the budget).
   */
  lemma ReconcileRebootTwice(st: Cluster, namespace: string, nodeName: string, now: int, m: Machine, hc: MachineHealthCheck)
    requires Resolves(st, nodeName, m, hc)
    requires hc.remediationStrategy == Some(RemediationStrategyReboot)
    ensures var st1 := Reconciled(st, namespace, nodeName, now).1;
      && Resolves(st1, nodeName, m, hc)
      && Reconciled(st1, namespace, nodeName, now).1.nodes == st1.nodes
      && Reconciled(st1, namespace, nodeName, now).1.machines == st1.machines
  {
    ReconcileDelegates(st, namespace, nodeName, now, m, hc);
    var st1 := Remediated(st, namespace, hc.remediationStrategy, m, now).1;
    RebootChangesOnlyTheAnnotation(st, namespace, m, now);
    var node := st.nodes[nodeName];
    assert MachineAnnotationKey != MachineRebootAnnotationKey;
    assert st1.nodes[nodeName].annotations[MachineAnnotationKey] == node.annotations[MachineAnnotationKey];
    assert LookupMachine(st1, SplitMetaNamespaceKey(node.annotations[MachineAnnotationKey]).value) == Found(m);
    assert Resolves(st1, nodeName, m, hc);
    ReconcileDelegates(st1, namespace, nodeName, now, m, hc);
    RebootNeverDeletes(st1, namespace, m, now);
    if Remediated(st1, namespace, hc.remediationStrategy, m, now).1.nodes != st1.nodes {
      RebootWritesOnlyUnannotated(st1, namespace, m, now);
      assert false;
    }
  }

  // ---------------------------------------------------------------------
  // The scenarios of the controller's unit tests
  // ---------------------------------------------------------------------

  const TestNamespace: string := "openshift-machine-api"

  /** A machine owned by MachineSet "workers", labelled foo=bar, backed by node `nodeName` when there is one. */
  function TestMachine(name: string, nodeName: Option<string>, owned: bool): Machine
  {
    Machine(TestNamespace, name, map["foo" := "bar"],
      if owned then [OwnerReference(OwnerControllerKind, "workers")] else [],
      if nodeName.Some? then Some(NodeReference("", nodeName.value)) else None)
  }

  /** A node annotated with machine `machineName`, whose Ready condition has `status` since `since`. */
  function TestNode(machineName: string, status: string, since: int): Node
  {
    Node(map[], map[MachineAnnotationKey := MetaNamespaceKey(Key(TestNamespace, machineName))], [NodeCondition("Ready", status, since)])
  }

  /** The health check selecting foo=bar. */
  function TestHealthCheck(strategy: Option<string>): MachineHealthCheck
  {
    MachineHealthCheck(TestNamespace, "machineHealthCheck", LabelSelector(map["foo" := "bar"], true), strategy, false)
  }

  /** One node, one machine, the test health check, no config map (so the default conditions apply). */
  function TestCluster(nodeName: string, node: Node, machine: Machine, strategy: Option<string>, budgets: map<string, nat>): Cluster
  {
    Cluster(map[nodeName := node], [machine], [TestHealthCheck(strategy)], map[], budgets, {})
  }

  /** The node after the reboot annotation is added. */
  function Annotated(node: Node): Node
  {
    node.(annotations := node.annotations[MachineRebootAnnotationKey := ""])
  }

  /** In a test cluster the node's annotation leads to the machine, and the test health check matches it. */
  lemma TestClusterResolves(nodeName: string, machineName: string, node: Node, m: Machine, strategy: Option<string>, budgets: map<string, nat>)
    requires '/' !in machineName
    requires MachineAnnotationKey in node.annotations
    requires node.annotations[MachineAnnotationKey] == MetaNamespaceKey(Key(TestNamespace, machineName))
    requires m.namespace == TestNamespace && m.name == machineName && m.labels == map["foo" := "bar"]
    ensures Resolves(TestCluster(nodeName, node, m, strategy, budgets), nodeName, m, TestHealthCheck(strategy))
  {
    var st := TestCluster(nodeName, node, m, strategy, budgets);
    var key := Key(TestNamespace, machineName);
    MetaNamespaceKeyRoundTrip(key);
    assert FindMachine(st.machines, key) == Some(m);
    var hc := TestHealthCheck(strategy);
    assert "foo" in hc.selector.matchLabels;
    assert HasMatchingLabels(hc, m);
  }

  /**
   * The default conditions against a node whose only condition is Ready:
   * healthy unless it is False or Unknown; due once five minutes have passed;
   * before that, requeued for the rest of the five minutes plus a second.
   */
  lemma DefaultConditionsVerdict(node: Node, status: string, since: int, now: int)
    requires node.conditions == [NodeCondition("Ready", status, since)]
    ensures status != "False" && status != "Unknown" ==> Evaluate(node, DefaultUnhealthyConditions, now) == Healthy
    ensures (status == "False" || status == "Unknown") && since + 5 * Minute < now ==>
      Evaluate(node, DefaultUnhealthyConditions, now) == Actionable
    ensures (status == "False" || status == "Unknown") && since + 5 * Minute >= now ==>
      Evaluate(node, DefaultUnhealthyConditions, now) == Pending(5 * Minute - (now - since) + Second)
  {
    var cs := DefaultUnhealthyConditions;
    var nc := NodeCondition("Ready", status, since);
    assert GetNodeCondition(node.conditions, "Ready") == Some(nc);
    var s0 := ConditionStep(node, cs[0], now);
    var s1 := ConditionStep(node, cs[1], now);
    assert cs[..1][..0] == [];
    assert Evaluate(node, cs[..1], now) == Next(Healthy, s0);
    assert Evaluate(node, cs, now) == Next(Next(Healthy, s0), s1);
    var wait := if since + 5 * Minute < now then Overdue else Wait(5 * Minute - (now - since) + Second);
    if status == "False" {
      assert s0 == wait && s1 == Skip;
    } else if status == "Unknown" {
      assert s0 == Skip && s1 == wait;
    } else {
      assert s0 == Skip && s1 == Skip;
    }
  }

  /** The test machine is owned by a MachineSet exactly when `owned` says so, and backed by its node. */
  lemma TestMachineNode(nodeName: string, node: Node, m: Machine, strategy: Option<string>, budgets: map<string, nat>)
    requires m.nodeRef == Some(NodeReference("", nodeName))
    ensures NodeOfMachine(TestCluster(nodeName, node, m, strategy, budgets), m) == Found(node)
    ensures UnhealthyConditionsConfigMap(TestCluster(nodeName, node, m, strategy, budgets), TestNamespace) == Ok(Some(DefaultUnhealthyConditions))
  {
  }

  /**
   * In a test cluster whose owned machine is backed by its node, Reconcile
   * comes down to the verdict of the default conditions: done when healthy,
   * requeue when pending, the budget step and the strategy when actionable.
   */
  lemma TestClusterEvaluates(nodeName: string, machineName: string, node: Node, strategy: Option<string>, budgets: map<string, nat>, now: int)
    requires '/' !in machineName
    requires MachineAnnotationKey in node.annotations
    requires node.annotations[MachineAnnotationKey] == MetaNamespaceKey(Key(TestNamespace, machineName))
    ensures var m := TestMachine(machineName, Some(nodeName), true);
      var st := TestCluster(nodeName, node, m, strategy, budgets);
      var v := Evaluate(node, DefaultUnhealthyConditions, now);
      && (v == Healthy ==> Reconciled(st, TestNamespace, nodeName, now) == (Done, st))
      && (v.Pending? ==> Reconciled(st, TestNamespace, nodeName, now) == (Requeue(v.delay), st))
      && (v == Actionable ==> Reconciled(st, TestNamespace, nodeName, now) == Remediation(st, strategy, m, nodeName, node))
  {
    var m := TestMachine(machineName, Some(nodeName), true);
    var st := TestCluster(nodeName, node, m, strategy, budgets);
    TestClusterResolves(nodeName, machineName, node, m, strategy, budgets);
    ReconcileDelegates(st, TestNamespace, nodeName, now, m, TestHealthCheck(strategy));
    TestMachineNode(nodeName, node, m, strategy, budgets);
    assert HasMachineSetOwner(m);
  }

  /**
   * In a test cluster whose node has been Ready=Unknown for more than five
   * minutes, Reconcile comes down to the budget step and the strategy.
   */
  lemma TestClusterDue(nodeName: string, machineName: string, node: Node, strategy: Option<string>, budgets: map<string, nat>, now: int)
    requires '/' !in machineName
    requires MachineAnnotationKey in node.annotations
    requires node.annotations[MachineAnnotationKey] == MetaNamespaceKey(Key(TestNamespace, machineName))
    requires node.conditions == [NodeCondition("Ready", "Unknown", 0)] && 5 * Minute < now
    ensures var m := TestMachine(machineName, Some(nodeName), true);
      var st := TestCluster(nodeName, node, m, strategy, budgets);
      Reconciled(st, TestNamespace, nodeName, now) == Remediation(st, strategy, m, nodeName, node)
  {
    TestClusterEvaluates(nodeName, machineName, node, strategy, budgets, now);
    DefaultConditionsVerdict(node, "Unknown", 0, now);
  }

  /** Ready=Unknown for ten minutes under the reboot strategy: the node is annotated and the result is empty. */
  lemma ScenarioRebootUnhealthyForTooLong()
    ensures var node := TestNode("machineUnhealthyForTooLong", "Unknown", 0);
      var st := TestCluster("nodeUnhealthyForTooLong", node, TestMachine("machineUnhealthyForTooLong", Some("nodeUnhealthyForTooLong"), true), Some(RemediationStrategyReboot), map[]);
      Reconciled(st, TestNamespace, "nodeUnhealthyForTooLong", 10 * Minute) == (Done, st.(nodes := map["nodeUnhealthyForTooLong" := Annotated(node)]))
  {
    var node := TestNode("machineUnhealthyForTooLong", "Unknown", 0);
    TestClusterDue("nodeUnhealthyForTooLong", "machineUnhealthyForTooLong", node, Some(RemediationStrategyReboot), map[], 10 * Minute);
    TestRebootUnbudgeted("nodeUnhealthyForTooLong", node, TestMachine("machineUnhealthyForTooLong", Some("nodeUnhealthyForTooLong"), true));
  }

  /** Without a budget for its group, a reboot takes nothing and annotates the node. */
  lemma TestRebootUnbudgeted(nodeName: string, node: Node, m: Machine)
    requires MachineRebootAnnotationKey !in node.annotations
    ensures var st := TestCluster(nodeName, node, m, Some(RemediationStrategyReboot), map[]);
      Remediation(st, Some(RemediationStrategyReboot), m, nodeName, node) == (Done, st.(nodes := map[nodeName := Annotated(node)]))
  {
    var st := TestCluster(nodeName, node, m, Some(RemediationStrategyReboot), map[]);
    assert DecrementedBudgets(st.budgets, m) == Some(map[]);
    assert st.(budgets := map[]) == st;
    assert st.nodes[nodeName := Annotated(node)] == map[nodeName := Annotated(node)];
  }

  /** Ready=Unknown since just now: requeue after the default five minutes, plus the extra second. */
  lemma ScenarioRecentlyUnhealthy(now: int)
    ensures var node := TestNode("machineWithNodeRecentlyUnhealthy", "Unknown", now);
      var st := TestCluster("recentlyUnhealthy", node, TestMachine("machineWithNodeRecentlyUnhealthy", Some("recentlyUnhealthy"), true), Some(""), map[]);
      Reconciled(st, TestNamespace, "recentlyUnhealthy", now) == (Requeue(5 * Minute + Second), st)
  {
    var node := TestNode("machineWithNodeRecentlyUnhealthy", "Unknown", now);
    TestClusterEvaluates("recentlyUnhealthy", "machineWithNodeRecentlyUnhealthy", node, Some(""), map[], now);
    DefaultConditionsVerdict(node, "Unknown", now, now);
  }

  /** The conditions of the test's configured config map: Ready=Unknown for sixty seconds. */
  const TestConfiguredConditions: seq<UnhealthyCondition> := [UnhealthyCondition("Ready", "Unknown", Some(Minute))]

  /** A test cluster that also holds the configured config map. */
  function TestConfiguredCluster(nodeName: string, node: Node, machine: Machine): Cluster
  {
    TestCluster(nodeName, node, machine, Some(""), map[])
      .(configMaps := map[Key(TestNamespace, ConfigMapNodeUnhealthyConditions) := Some(TestConfiguredConditions)])
  }

  /** Under the configured conditions, a node Unknown since `since` waits out the rest of the minute plus a second. */
  lemma ConfiguredConditionsPending(node: Node, since: int, now: int)
    requires node.conditions == [NodeCondition("Ready", "Unknown", since)] && since <= now <= since + Minute
    ensures Evaluate(node, TestConfiguredConditions, now) == Pending(Minute - (now - since) + Second)
  {
    var cs := TestConfiguredConditions;
    assert GetNodeCondition(node.conditions, "Ready") == Some(NodeCondition("Ready", "Unknown", since));
    assert cs[..0] == [];
    assert ConditionStep(node, cs[0], now) == Wait(Minute - (now - since) + Second);
  }

  /**
   * With the configured config map, a node that turned Unknown just now is
   * requeued after one minute plus a second, and nothing is touched.
   */
  lemma TestConfiguredClusterRequeues(nodeName: string, machineName: string, node: Node, now: int)
    requires '/' !in machineName
    requires MachineAnnotationKey in node.annotations
    requires node.annotations[MachineAnnotationKey] == MetaNamespaceKey(Key(TestNamespace, machineName))
    requires node.conditions == [NodeCondition("Ready", "Unknown", now)]
    ensures var st := TestConfiguredCluster(nodeName, node, TestMachine(machineName, Some(nodeName), true));
      Reconciled(st, TestNamespace, nodeName, now) == (Requeue(Minute + Second), st)
  {
    var m := TestMachine(machineName, Some(nodeName), true);
    var st := TestConfiguredCluster(nodeName, node, m);
    TestClusterResolves(nodeName, machineName, node, m, Some(""), map[]);
    assert Resolves(st, nodeName, m, TestHealthCheck(Some("")));
    ReconcileDelegates(st, TestNamespace, nodeName, now, m, TestHealthCheck(Some("")));
    assert HasMachineSetOwner(m);
    assert NodeOfMachine(st, m) == Found(node);
    assert UnhealthyConditionsConfigMap(st, TestNamespace) == Ok(Some(TestConfiguredConditions));
    ConfiguredConditionsPending(node, now, now);
  }

  /** The recently unhealthy case with the test's config map: requeue after one minute, plus the extra second. */
  lemma ScenarioConfiguredRecentlyUnhealthy(now: int)
    ensures var node := TestNode("machineWithNodeRecentlyUnhealthy", "Unknown", now);
      var st := TestConfiguredCluster("recentlyUnhealthy", node, TestMachine("machineWithNodeRecentlyUnhealthy", Some("recentlyUnhealthy"), true));
      Reconciled(st, TestNamespace, "recentlyUnhealthy", now) == (Requeue(Minute + Second), st)
  {
    TestConfiguredClusterRequeues("recentlyUnhealthy", "machineWithNodeRecentlyUnhealthy", TestNode("machineWithNodeRecentlyUnhealthy", "Unknown", now), now);
  }

  /** A Ready node is left alone. */
  lemma ScenarioHealthy(now: int)
    ensures var node := TestNode("machineWithNodehealthy", "True", 0);
      var st := TestCluster("healthy", node, TestMachine("machineWithNodehealthy", Some("healthy"), true), Some(""), map[]);
      Reconciled(st, TestNamespace, "healthy", now) == (Done, st)
  {
    var node := TestNode("machineWithNodehealthy", "True", 0);
    TestClusterEvaluates("healthy", "machineWithNodehealthy", node, Some(""), map[], now);
    DefaultConditionsVerdict(node, "True", 0, now);
  }

  /** In a test cluster a machine without owner is left alone, and one without NodeRef is an error. */
  lemma TestClusterGuards(nodeName: string, machineName: string, node: Node, now: int)
    requires '/' !in machineName
    requires MachineAnnotationKey in node.annotations
    requires node.annotations[MachineAnnotationKey] == MetaNamespaceKey(Key(TestNamespace, machineName))
    ensures var st := TestCluster(nodeName, node, TestMachine(machineName, Some(nodeName), false), Some(""), map[]);
      Reconciled(st, TestNamespace, nodeName, now) == (Done, st)
    ensures var st := TestCluster(nodeName, node, TestMachine(machineName, None, true), Some(""), map[]);
      Reconciled(st, TestNamespace, nodeName, now) == (Failed(NodeRefMissing), st)
  {
    var m := TestMachine(machineName, Some(nodeName), false);
    var st := TestCluster(nodeName, node, m, Some(""), map[]);
    TestClusterResolves(nodeName, machineName, node, m, Some(""), map[]);
    ReconcileDelegates(st, TestNamespace, nodeName, now, m, TestHealthCheck(Some("")));
    var m' := TestMachine(machineName, None, true);
    var st' := TestCluster(nodeName, node, m', Some(""), map[]);
    TestClusterResolves(nodeName, machineName, node, m', Some(""), map[]);
    ReconcileDelegates(st', TestNamespace, nodeName, now, m', TestHealthCheck(Some("")));
    assert HasMachineSetOwner(m');
  }

  /** A machine without owner is left alone. */
  lemma ScenarioWithoutOwner(now: int)
    ensures var node := TestNode("machineWithoutOwnerController", "True", 0);
      var st := TestCluster("annotatedWithMachineWithoutOwnerReference", node, TestMachine("machineWithoutOwnerController", Some("annotatedWithMachineWithoutOwnerReference"), false), Some(""), map[]);
      Reconciled(st, TestNamespace, "annotatedWithMachineWithoutOwnerReference", now) == (Done, st)
  {
    TestClusterGuards("annotatedWithMachineWithoutOwnerReference", "machineWithoutOwnerController", TestNode("machineWithoutOwnerController", "True", 0), now);
  }

  /** A machine without NodeRef is an error. */
  lemma ScenarioWithoutNodeRef(now: int)
    ensures var node := TestNode("machineWithoutNodeRef", "True", 0);
      var st := TestCluster("annotatedWithMachineWithoutNodeReference", node, TestMachine("machineWithoutNodeRef", None, true), Some(""), map[]);
      Reconciled(st, TestNamespace, "annotatedWithMachineWithoutNodeReference", now) == (Failed(NodeRefMissing), st)
  {
    TestClusterGuards("annotatedWithMachineWithoutNodeReference", "machineWithoutNodeRef", TestNode("machineWithoutNodeRef", "True", 0), now);
  }

  /** Deleting the test machine under the delete strategy takes its group's last disruption. */
  lemma TestDeleteLastDisruption(node: Node)
    requires MasterLabel !in node.labels
    ensures var m := TestMachine("m1", Some("n1"), true);
      var st := TestCluster("n1", node, m, None, map["workers" := 1]);
      Remediation(st, None, m, "n1", node) == (Done, st.(machines := [], budgets := map["workers" := 0]))
  {
    var m := TestMachine("m1", Some("n1"), true);
    var st := TestCluster("n1", node, m, None, map["workers" := 1]);
    var st0 := st.(budgets := map["workers" := 0]);
    assert BudgetGroup(m.ownerReferences) == Some("workers");
    assert map["workers" := 1]["workers" := 0] == map["workers" := 0];
    assert DecrementedBudgets(st.budgets, m) == Some(map["workers" := 0]);
    assert NodeOfMachine(st0, m) == Found(node);
    assert !MachineIsMaster(st0, m);
    assert FindMachine(st0.machines, Key(TestNamespace, "m1")) == Some(m);
    assert RemoveMachine([m], Key(TestNamespace, "m1")) == [];
  }

  /**
   * Deleting under a budget: with one disruption left the machine is deleted
   * and the budget drops to zero.
   */
  lemma ScenarioDeleteWithinBudget()
    ensures var node := TestNode("m1", "Unknown", 0);
      var st := TestCluster("n1", node, TestMachine("m1", Some("n1"), true), None, map["workers" := 1]);
      Reconciled(st, TestNamespace, "n1", 10 * Minute) == (Done, st.(machines := [], budgets := map["workers" := 0]))
  {
    var node := TestNode("m1", "Unknown", 0);
    TestClusterDue("n1", "m1", node, None, map["workers" := 1], 10 * Minute);
    TestDeleteLastDisruption(node);
  }

  /** With no disruption left in the group the controller requeues after a minute and touches nothing. */
  lemma ScenarioBudgetExhausted()
    ensures var node := TestNode("m1", "Unknown", 0);
      var st := TestCluster("n1", node, TestMachine("m1", Some("n1"), true), None, map["workers" := 0]);
      Reconciled(st, TestNamespace, "n1", 10 * Minute) == (Requeue(Minute), st)
  {
    var node := TestNode("m1", "Unknown", 0);
    var m := TestMachine("m1", Some("n1"), true);
    TestClusterDue("n1", "m1", node, None, map["workers" := 0], 10 * Minute);
    assert BudgetGroup(m.ownerReferences) == Some("workers");
  }

  /** A first reboot of the test node takes one disruption and annotates the node. */
  lemma TestRebootFirstRound(budget: nat)
    requires budget >= 1
    ensures var node := TestNode("m1", "Unknown", 0);
      var st := TestCluster("n1", node, TestMachine("m1", Some("n1"), true), Some(RemediationStrategyReboot), map["workers" := budget]);
      Remediation(st, Some(RemediationStrategyReboot), TestMachine("m1", Some("n1"), true), "n1", node)
        == (Done, st.(nodes := map["n1" := Annotated(node)], budgets := map["workers" := budget - 1]))
  {
    var node := TestNode("m1", "Unknown", 0);
    var m := TestMachine("m1", Some("n1"), true);
    var st := TestCluster("n1", node, m, Some(RemediationStrategyReboot), map["workers" := budget]);
    assert BudgetGroup(m.ownerReferences) == Some("workers");
    assert map["workers" := budget]["workers" := budget - 1] == map["workers" := budget - 1];
    assert MachineRebootAnnotationKey !in node.annotations;
    assert map["n1" := node]["n1" := Annotated(node)] == map["n1" := Annotated(node)];
  }

  /** Reconciling the annotated test node again writes nothing but still takes one disruption. */
  lemma TestRebootAgain(budget: nat)
    requires budget >= 1
    ensures var node := Annotated(TestNode("m1", "Unknown", 0));
      var st := TestCluster("n1", node, TestMachine("m1", Some("n1"), true), Some(RemediationStrategyReboot), map["workers" := budget]);
      Remediation(st, Some(RemediationStrategyReboot), TestMachine("m1", Some("n1"), true), "n1", node)
        == (Done, st.(budgets := map["workers" := budget - 1]))
  {
    var m := TestMachine("m1", Some("n1"), true);
    assert BudgetGroup(m.ownerReferences) == Some("workers");
    assert map["workers" := budget]["workers" := budget - 1] == map["workers" := budget - 1];
  }

  /**
   * Reconciling an annotated node again under the reboot strategy writes
   * nothing to the node but still takes a disruption from the budget.
   */
  lemma ScenarioRebootRepeatSpendsBudget()
    ensures var node := TestNode("m1", "Unknown", 0);
      var st := TestCluster("n1", node, TestMachine("m1", Some("n1"), true), Some(RemediationStrategyReboot), map["workers" := 2]);
      var st1 := st.(nodes := map["n1" := Annotated(node)], budgets := map["workers" := 1]);
      && Reconciled(st, TestNamespace, "n1", 10 * Minute) == (Done, st1)
      && Reconciled(st1, TestNamespace, "n1", 10 * Minute) == (Done, st1.(budgets := map["workers" := 0]))
  {
    var node := TestNode("m1", "Unknown", 0);
    var m := TestMachine("m1", Some("n1"), true);
    var strategy := Some(RemediationStrategyReboot);
    var st := TestCluster("n1", node, m, strategy, map["workers" := 2]);
    TestClusterDue("n1", "m1", node, strategy, map["workers" := 2], 10 * Minute);
    TestRebootFirstRound(2);
    assert st.(nodes := map["n1" := Annotated(node)], budgets := map["workers" := 1])
      == TestCluster("n1", Annotated(node), m, strategy, map["workers" := 1]);
    assert MachineRebootAnnotationKey != MachineAnnotationKey;
    TestClusterDue("n1", "m1", Annotated(node), strategy, map["workers" := 1], 10 * Minute);
    TestRebootAgain(1);
  }
}
