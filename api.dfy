/**
 * The Kubernetes and cluster-api vocabulary the health-check controller works
 * on: object keys, label selectors, machines, nodes and their conditions, and
 * health-check policies, together with the small library helpers the
 * controller calls on them (namespace/name keys, selector conversion and
 * matching, node-condition lookup).
 */
module Api {
  import opened Wrappers

  type Labels = map<string, string>

  /** types.NamespacedName: the key under which the store holds an object. */
  datatype Key = Key(namespace: string, name: string)

  // ---------------------------------------------------------------------
  // Namespace/name keys as single strings (client-go's cache key helpers)
  // ---------------------------------------------------------------------

  /** Number of occurrences of `c` in `s`. */
  function Occurrences(s: string, c: char): nat
  {
    if s == [] then 0 else (if s[0] == c then 1 else 0) + Occurrences(s[1..], c)
  }

  /** strings.Split with a one-character separator: the pieces between separators, never an empty list. */
  function Split(s: string, sep: char): (parts: seq<string>)
    ensures |parts| == Occurrences(s, sep) + 1
    ensures forall i :: 0 <= i < |parts| ==> sep !in parts[i]
    decreases |s|
  {
    if s == [] then [""]
    else
      var rest := Split(s[1..], sep);
      if s[0] == sep then [""] + rest
      else [[s[0]] + rest[0]] + rest[1..]
  }

  /** strings.Join with a one-character separator. */
  function Join(parts: seq<string>, sep: char): string
  {
    if parts == [] then ""
    else if |parts| == 1 then parts[0]
    else parts[0] + [sep] + Join(parts[1..], sep)
  }

  /** Splitting and joining again gives back the original string. */
  lemma {:induction false} JoinSplit(s: string, sep: char)
    ensures Join(Split(s, sep), sep) == s
    decreases |s|
  {
    if s != [] {
      JoinSplit(s[1..], sep);
      var rest := Split(s[1..], sep);
      if s[0] == sep {
        assert Split(s, sep) == [""] + rest;
        assert ([""] + rest)[1..] == rest;
        assert s == [] + [sep] + s[1..];
      } else {
        var parts := Split(s, sep);
        assert parts == [[s[0]] + rest[0]] + rest[1..];
        if |rest| == 1 {
          assert s == [s[0]] + rest[0];
        } else {
          assert parts[1..] == rest[1..];
          assert Join(rest, sep) == rest[0] + [sep] + Join(rest[1..], sep);
          assert s == [s[0]] + (rest[0] + [sep] + Join(rest[1..], sep));
        }
      }
    }
  }

  /** cache.MetaNamespaceKeyFunc: "namespace/name", or just "name" when there is no namespace. */
  function MetaNamespaceKey(k: Key): string
  {
    if k.namespace == "" then k.name else k.namespace + "/" + k.name
  }

  /**
   * cache.SplitMetaNamespaceKey: a key with no '/' names an object without a
   * namespace, a key with one '/' is "namespace/name", and any other key is
   * malformed (None).
   */
  function SplitMetaNamespaceKey(key: string): (r: Option<Key>)
    ensures r.None? <==> Occurrences(key, '/') >= 2
    ensures r.Some? ==> '/' !in r.value.namespace && '/' !in r.value.name
    ensures r.Some? && Occurrences(key, '/') == 0 ==> r.value == Key("", key)
    ensures r.Some? && Occurrences(key, '/') == 1 ==> r.value.namespace + "/" + r.value.name == key
  {
    var parts := Split(key, '/');
    JoinSplit(key, '/');
    if |parts| == 1 then
      Some(Key("", parts[0]))
    else if |parts| == 2 then
      assert parts[1..] == [parts[1]];
      Some(Key(parts[0], parts[1]))
    else None
  }

  /** A string without the separator splits into itself alone. */
  lemma {:induction false} SplitWithoutSeparator(s: string, sep: char)
    requires sep !in s
    ensures Split(s, sep) == [s]
    decreases |s|
  {
    if s != [] {
      SplitWithoutSeparator(s[1..], sep);
      assert [s[0]] + s[1..] == s;
    }
  }

  /** A leading separator-free piece followed by the separator splits off as the first part. */
  lemma {:induction false} SplitAfterPiece(a: string, sep: char, rest: string)
    requires sep !in a
    ensures Split(a + [sep] + rest, sep) == [a] + Split(rest, sep)
    decreases |a|
  {
    var s := a + [sep] + rest;
    if a == [] {
      assert s[1..] == rest;
    } else {
      assert s[1..] == a[1..] + [sep] + rest;
      SplitAfterPiece(a[1..], sep, rest);
      assert [a[0]] + a[1..] == a;
    }
  }

  /** Splitting a key built by MetaNamespaceKey gives the key back. */
  lemma MetaNamespaceKeyRoundTrip(k: Key)
    requires '/' !in k.namespace && '/' !in k.name
    ensures SplitMetaNamespaceKey(MetaNamespaceKey(k)) == Some(k)
  {
    if k.namespace == "" {
      SplitWithoutSeparator(k.name, '/');
    } else {
      SplitAfterPiece(k.namespace, '/', k.name);
      SplitWithoutSeparator(k.name, '/');
      assert k.namespace + "/" + k.name == k.namespace + ['/'] + k.name;
    }
  }

  // ---------------------------------------------------------------------
  // Label selectors (metav1.LabelSelector and labels.Selector)
  // ---------------------------------------------------------------------

  /**
   * A label selector given by its MatchLabels. `wellFormed` stands for every
   * other check metav1.LabelSelectorAsSelector makes (label syntax, match
   * expressions); when it is false the conversion fails.
   */
  datatype LabelSelector = LabelSelector(matchLabels: Labels, wellFormed: bool)

  /** metav1.LabelSelectorAsSelector, reduced to the requirements built from MatchLabels. */
  function AsSelector(ls: LabelSelector): (r: Option<Labels>)
    ensures r.Some? <==> ls.wellFormed
    ensures r.Some? ==> r.value == ls.matchLabels
  {
    if ls.wellFormed then Some(ls.matchLabels) else None
  }

  /** labels.Selector.Matches: every required label is present with the required value. */
  predicate SelectorMatches(selector: Labels, labels: Labels)
  {
    forall k :: k in selector ==> k in labels && labels[k] == selector[k]
  }

  // ---------------------------------------------------------------------
  // Machines, nodes and health-check policies
  // ---------------------------------------------------------------------

  /** metav1.OwnerReference, by kind and name. */
  datatype OwnerReference = OwnerReference(kind: string, name: string)

  /** corev1.ObjectReference held in a machine's Status.NodeRef. */
  datatype NodeReference = NodeReference(namespace: string, name: string)

  /** mapiv1.Machine: its key, labels, owners and (once the node has joined) its node. */
  datatype Machine = Machine(
    namespace: string,
    name: string,
    labels: Labels,
    ownerReferences: seq<OwnerReference>,
    nodeRef: Option<NodeReference>)

  /** corev1.NodeCondition; `lastTransitionTime` in nanoseconds. */
  datatype NodeCondition = NodeCondition(conditionType: string, status: string, lastTransitionTime: int)

  /** corev1.Node, without its name (the store holds nodes by name). */
  datatype Node = Node(labels: Labels, annotations: map<string, string>, conditions: seq<NodeCondition>)

  /** healthcheckingv1alpha1.MachineHealthCheck; `beingDeleted` is DeletionTimestamp != nil. */
  datatype MachineHealthCheck = MachineHealthCheck(
    namespace: string,
    name: string,
    selector: LabelSelector,
    remediationStrategy: Option<string>,
    beingDeleted: bool)

  /**
   * One entry of the unhealthy-conditions config map: condition type, the
   * status that counts as unhealthy, and the timeout in nanoseconds as
   * time.ParseDuration reads it (None when the text does not parse).
   */
  datatype UnhealthyCondition = UnhealthyCondition(name: string, status: string, timeout: Option<int>)

  /** Index `i` holds the first condition of the given type. */
  predicate FirstOfType(conditions: seq<NodeCondition>, conditionType: string, i: int)
  {
    && 0 <= i < |conditions|
    && conditions[i].conditionType == conditionType
    && forall j :: 0 <= j < i ==> conditions[j].conditionType != conditionType
  }

  /** conditions.GetNodeCondition: the first condition of the given type, or none. */
  function GetNodeCondition(conditions: seq<NodeCondition>, conditionType: string): Option<NodeCondition>
  {
    if conditions == [] then None
    else if conditions[0].conditionType == conditionType then Some(conditions[0])
    else GetNodeCondition(conditions[1..], conditionType)
  }

  /** GetNodeCondition finds nothing exactly when no condition has the type, and otherwise finds the first one that has it. */
  lemma {:induction false} GetNodeConditionFirst(conditions: seq<NodeCondition>, conditionType: string)
    ensures var r := GetNodeCondition(conditions, conditionType);
      && (r.None? <==> forall i :: 0 <= i < |conditions| ==> conditions[i].conditionType != conditionType)
      && (r.Some? ==> exists i :: FirstOfType(conditions, conditionType, i) && conditions[i] == r.value)
    decreases |conditions|
  {
    if conditions == [] {
    } else if conditions[0].conditionType == conditionType {
      assert FirstOfType(conditions, conditionType, 0);
    } else {
      var rest := conditions[1..];
      GetNodeConditionFirst(rest, conditionType);
      assert forall i :: 0 <= i < |rest| ==> rest[i] == conditions[i + 1];
      var r := GetNodeCondition(rest, conditionType);
      if r.Some? {
        var i :| FirstOfType(rest, conditionType, i) && rest[i] == r.value;
        assert FirstOfType(conditions, conditionType, i + 1) by {
          forall j | 0 <= j < i + 1 ensures conditions[j].conditionType != conditionType {
            if j > 0 { assert conditions[j] == rest[j - 1]; }
          }
        }
      } else {
        forall i | 0 <= i < |conditions| ensures conditions[i].conditionType != conditionType {
          if i > 0 { assert conditions[i] == rest[i - 1]; }
        }
      }
    }
  }
}
