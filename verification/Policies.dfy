/** Network policies: what the operator generates for a tenant, judged against the isolation semantics
    of the Kubernetes NetworkPolicy API (networking.k8s.io/v1). */
module Policies {
  import opened Common

  // ---------------------------------------------------------------- the API objects

  datatype Operator = In | NotIn | Exists | DoesNotExist

  datatype Requirement = Requirement(key: string, operator: Operator, values: seq<string>)

  datatype LabelSelector = LabelSelector(matchLabels: map<string, string>, matchExpressions: seq<Requirement>)

  datatype IPBlock = IPBlock(cidr: string, except: seq<string>)

  datatype Peer = Peer(
    podSelector: Option<LabelSelector>, namespaceSelector: Option<LabelSelector>, ipBlock: Option<IPBlock>)

  datatype Port = Port(protocol: Option<string>, port: Option<int>)

  datatype Rule = Rule(peers: seq<Peer>, ports: seq<Port>)

  datatype Direction = Ingress | Egress

  datatype PolicySpec = PolicySpec(
    podSelector: LabelSelector, ingress: seq<Rule>, egress: seq<Rule>, policyTypes: seq<Direction>)

  datatype NamedPolicy = NamedPolicy(name: string, spec: PolicySpec)

  // ---------------------------------------------------------------- isolation semantics

  /** The far end of a connection: a pod, or an address outside the cluster. */
  datatype Endpoint = Endpoint(pod: Option<Pod>, ip: string)

  datatype Pod = Pod(namespace: string, namespaceLabels: map<string, string>, labels: map<string, string>)

  /** One connection attempt of a pod of the tenant namespace; `inCidr` interprets address ranges. */
  datatype Scene = Scene(namespace: string, labels: map<string, string>, remote: Endpoint, protocol: string, port: int,
                         inCidr: (string, string) -> bool)

  predicate Satisfies(r: Requirement, labels: map<string, string>) {
    match r.operator
    case In => r.key in labels && labels[r.key] in r.values
    case NotIn => r.key !in labels || labels[r.key] !in r.values
    case Exists => r.key in labels
    case DoesNotExist => r.key !in labels
  }

  /** The empty selector selects everything. */
  predicate Selects(selector: LabelSelector, labels: map<string, string>) {
    && (forall k | k in selector.matchLabels :: k in labels && labels[k] == selector.matchLabels[k])
    && (forall i | 0 <= i < |selector.matchExpressions| :: Satisfies(selector.matchExpressions[i], labels))
  }

  predicate PeerMatches(peer: Peer, scene: Scene) {
    if peer.ipBlock.Some? then
      && scene.inCidr(peer.ipBlock.value.cidr, scene.remote.ip)
      && forall e | e in peer.ipBlock.value.except :: !scene.inCidr(e, scene.remote.ip)
    else
      && scene.remote.pod.Some?
      && (if peer.namespaceSelector.Some?
          then Selects(peer.namespaceSelector.value, scene.remote.pod.value.namespaceLabels)
          else scene.remote.pod.value.namespace == scene.namespace)
      && (peer.podSelector.Some? ==> Selects(peer.podSelector.value, scene.remote.pod.value.labels))
  }

  predicate PortMatches(port: Port, scene: Scene) {
    && scene.protocol == (if port.protocol.Some? then port.protocol.value else "TCP")
    && (port.port.Some? ==> scene.port == port.port.value)
  }

  predicate RuleMatches(rule: Rule, scene: Scene) {
    && (rule.peers == [] || exists i | 0 <= i < |rule.peers| :: PeerMatches(rule.peers[i], scene))
    && (rule.ports == [] || exists i | 0 <= i < |rule.ports| :: PortMatches(rule.ports[i], scene))
  }

  /** policyTypes when given; otherwise ingress always, and egress when there are egress rules. */
  function EffectiveTypes(spec: PolicySpec): seq<Direction> {
    if spec.policyTypes != [] then spec.policyTypes
    else if spec.egress == [] then [Ingress] else [Ingress, Egress]
  }

  function Rules(spec: PolicySpec, direction: Direction): seq<Rule> {
    if direction.Ingress? then spec.ingress else spec.egress
  }

  predicate Isolates(spec: PolicySpec, direction: Direction, scene: Scene) {
    Selects(spec.podSelector, scene.labels) && direction in EffectiveTypes(spec)
  }

  predicate Permits(spec: PolicySpec, direction: Direction, scene: Scene) {
    && Isolates(spec, direction, scene)
    && exists i | 0 <= i < |Rules(spec, direction)| :: RuleMatches(Rules(spec, direction)[i], scene)
  }

  predicate AnyIsolates(policies: seq<NamedPolicy>, direction: Direction, scene: Scene) {
    exists i | 0 <= i < |policies| :: Isolates(policies[i].spec, direction, scene)
  }

  predicate AnyPermits(policies: seq<NamedPolicy>, direction: Direction, scene: Scene) {
    exists i | 0 <= i < |policies| :: Permits(policies[i].spec, direction, scene)
  }

  /** A pod that no policy isolates is open; an isolated one gets what some policy permits. */
  predicate Allowed(policies: seq<NamedPolicy>, direction: Direction, scene: Scene) {
    AnyIsolates(policies, direction, scene) ==> AnyPermits(policies, direction, scene)
  }

  lemma AnyAppend(ps: seq<NamedPolicy>, qs: seq<NamedPolicy>, direction: Direction, scene: Scene)
    ensures AnyIsolates(ps + qs, direction, scene)
       <==> AnyIsolates(ps, direction, scene) || AnyIsolates(qs, direction, scene)
    ensures AnyPermits(ps + qs, direction, scene)
       <==> AnyPermits(ps, direction, scene) || AnyPermits(qs, direction, scene)
  {
    var all := ps + qs;
    assert forall i :: 0 <= i < |ps| ==> all[i] == ps[i];
    assert forall i :: 0 <= i < |qs| ==> all[|ps| + i] == qs[i];
  }

  lemma AnySingle(p: NamedPolicy, direction: Direction, scene: Scene)
    ensures AnyIsolates([p], direction, scene) <==> Isolates(p.spec, direction, scene)
    ensures AnyPermits([p], direction, scene) <==> Permits(p.spec, direction, scene)
  {
    assert [p][0] == p;
  }

  // ---------------------------------------------------------------- the policies that are stored

  /** Policies are stored by name: of two with the same name the later one stays. */
  function StoredPolicies(policies: seq<NamedPolicy>): map<string, PolicySpec> {
    if policies == [] then map[]
    else
      var last := policies[|policies| - 1];
      StoredPolicies(policies[..|policies| - 1])[last.name := last.spec]
  }

  predicate IsolatedBy(stored: map<string, PolicySpec>, direction: Direction, scene: Scene) {
    exists name | name in stored :: Isolates(stored[name], direction, scene)
  }

  predicate PermittedBy(stored: map<string, PolicySpec>, direction: Direction, scene: Scene) {
    exists name | name in stored :: Permits(stored[name], direction, scene)
  }

  predicate AllowedBy(stored: map<string, PolicySpec>, direction: Direction, scene: Scene) {
    IsolatedBy(stored, direction, scene) ==> PermittedBy(stored, direction, scene)
  }

  lemma {:induction false} StoredConcat(a: seq<NamedPolicy>, b: seq<NamedPolicy>)
    ensures StoredPolicies(a + b) == StoredPolicies(a) + StoredPolicies(b)
  {
    if b == [] {
      assert a + b == a;
    } else {
      StoredConcat(a, b[..|b| - 1]);
      assert (a + b)[..|a + b| - 1] == a + b[..|b| - 1];
    }
  }

  lemma {:induction false} StoredComesFrom(policies: seq<NamedPolicy>, name: string)
    requires name in StoredPolicies(policies)
    ensures NamedPolicy(name, StoredPolicies(policies)[name]) in policies
  {
    var last := policies[|policies| - 1];
    if last.name == name {
    } else {
      StoredComesFrom(policies[..|policies| - 1], name);
    }
  }

  predicate NoNameTwice(policies: seq<NamedPolicy>) {
    forall i, j | 0 <= i < j < |policies| :: policies[i].name != policies[j].name
  }

  /** Without a repeated name every policy of the list is stored. */
  lemma {:induction false} StoredEach(policies: seq<NamedPolicy>, i: nat)
    requires NoNameTwice(policies) && i < |policies|
    ensures Lookup(StoredPolicies(policies), policies[i].name) == Some(policies[i].spec)
  {
    if i == |policies| - 1 {
    } else {
      StoredEach(policies[..|policies| - 1], i);
    }
  }

  lemma StoredIsolated(policies: seq<NamedPolicy>, direction: Direction, scene: Scene)
    requires NoNameTwice(policies)
    ensures IsolatedBy(StoredPolicies(policies), direction, scene) <==> AnyIsolates(policies, direction, scene)
  {
    var stored := StoredPolicies(policies);
    if IsolatedBy(stored, direction, scene) {
      var name :| name in stored && Isolates(stored[name], direction, scene);
      StoredComesFrom(policies, name);
      var i :| 0 <= i < |policies| && policies[i] == NamedPolicy(name, stored[name]);
    }
    if AnyIsolates(policies, direction, scene) {
      var i :| 0 <= i < |policies| && Isolates(policies[i].spec, direction, scene);
      StoredEach(policies, i);
    }
  }

  lemma StoredPermitted(policies: seq<NamedPolicy>, direction: Direction, scene: Scene)
    requires NoNameTwice(policies)
    ensures PermittedBy(StoredPolicies(policies), direction, scene) <==> AnyPermits(policies, direction, scene)
  {
    var stored := StoredPolicies(policies);
    if PermittedBy(stored, direction, scene) {
      var name :| name in stored && Permits(stored[name], direction, scene);
      StoredComesFrom(policies, name);
      var i :| 0 <= i < |policies| && policies[i] == NamedPolicy(name, stored[name]);
    }
    if AnyPermits(policies, direction, scene) {
      var i :| 0 <= i < |policies| && Permits(policies[i].spec, direction, scene);
      StoredEach(policies, i);
    }
  }

  lemma StoredVerdict(policies: seq<NamedPolicy>, direction: Direction, scene: Scene)
    requires NoNameTwice(policies)
    ensures AllowedBy(StoredPolicies(policies), direction, scene) <==> Allowed(policies, direction, scene)
  {
    StoredIsolated(policies, direction, scene);
    StoredPermitted(policies, direction, scene);
  }

  /** What storing a policy means, whether or not it replaces one of the same name. */
  lemma ReplacedVerdict(stored: map<string, PolicySpec>, name: string, spec: PolicySpec, direction: Direction,
                        scene: Scene)
    ensures IsolatedBy(stored[name := spec], direction, scene)
       <==> Isolates(spec, direction, scene) || IsolatedBy(stored - {name}, direction, scene)
    ensures PermittedBy(stored[name := spec], direction, scene)
       <==> Permits(spec, direction, scene) || PermittedBy(stored - {name}, direction, scene)
  {
    var after, rest := stored[name := spec], stored - {name};
    assert after[name] == spec;
    assert forall other :: other in rest ==> other in after && after[other] == rest[other];
    assert forall other :: other in after && other != name ==> other in rest && after[other] == rest[other];
  }

  lemma ReplacedBefore(stored: map<string, PolicySpec>, name: string, direction: Direction, scene: Scene)
    ensures IsolatedBy(stored, direction, scene) <==>
      (name in stored && Isolates(stored[name], direction, scene)) || IsolatedBy(stored - {name}, direction, scene)
    ensures PermittedBy(stored, direction, scene) <==>
      (name in stored && Permits(stored[name], direction, scene)) || PermittedBy(stored - {name}, direction, scene)
  {
    if name in stored {
      ReplacedVerdict(stored, name, stored[name], direction, scene);
      assert stored[name := stored[name]] == stored;
    } else {
      assert stored - {name} == stored;
    }
  }

  // ---------------------------------------------------------------- default policies

  datatype DefaultPolicies = DefaultPolicies(
    allowFromIngress: Option<bool>, allowFromMonitoring: Option<bool>, allowKubeAPIServer: Option<bool>,
    allowToDNS: Option<bool>, denyAllEgress: Option<bool>, denyAllIngress: Option<bool>,
    allowFromSameNamespace: Option<bool>)

  const EVERYTHING := LabelSelector(map[], [])

  function Labelled(key: string, value: string): LabelSelector {
    LabelSelector(map[key := value], [])
  }

  function IngressFrom(name: string, peer: Peer): NamedPolicy {
    NamedPolicy(name, PolicySpec(EVERYTHING, [Rule([peer], [])], [], [Ingress]))
  }

  function NamespacePeer(key: string, value: string): Peer {
    Peer(None, Some(Labelled(key, value)), None)
  }

  const ROUTER_KEY := "policy-group.network.openshift.io/ingress"
  const POLICY_GROUP_KEY := "network.openshift.io/policy-group"
  const NAME_KEY := "kubernetes.io/metadata.name"

  const FROM_ROUTER := IngressFrom("allow-from-openshift-ingress", NamespacePeer(ROUTER_KEY, ""))
  const FROM_MONITORING := IngressFrom("allow-from-openshift-monitoring", NamespacePeer(POLICY_GROUP_KEY, "monitoring"))
  const TO_DNS := NamedPolicy("allow-to-openshift-dns", PolicySpec(EVERYTHING, [],
    [Rule([NamespacePeer(NAME_KEY, "openshift-dns")],
          [Port(Some("TCP"), Some(5353)), Port(Some("TCP"), Some(53)),
           Port(Some("UDP"), Some(53)), Port(Some("UDP"), Some(5353))])],
    [Egress]))
  const FROM_API_SERVER := IngressFrom("allow-from-kube-apiserver-operator",
    Peer(Some(Labelled("app", "kube-apiserver-operator")),
         Some(Labelled(NAME_KEY, "openshift-kube-apiserver-operator")), None))
  const DENY_EGRESS := NamedPolicy("deny-all-egress", PolicySpec(EVERYTHING, [], [], [Egress]))
  const DENY_INGRESS := NamedPolicy("deny-all-ingress", PolicySpec(EVERYTHING, [], [], [Ingress]))
  const FROM_SAME_NAMESPACE := IngressFrom("allow-same-namespace", Peer(Some(EVERYTHING), None, None))

  function When(flag: Option<bool>, policy: NamedPolicy): seq<NamedPolicy> {
    if IsOptInEnabled(flag) then [policy] else []
  }

  function DefaultPolicyList(d: Option<DefaultPolicies>): seq<NamedPolicy> {
    if d.None? then []
    else
      When(d.value.allowFromIngress, FROM_ROUTER) + When(d.value.allowFromMonitoring, FROM_MONITORING)
      + When(d.value.allowToDNS, TO_DNS) + When(d.value.allowKubeAPIServer, FROM_API_SERVER)
      + When(d.value.denyAllEgress, DENY_EGRESS) + When(d.value.denyAllIngress, DENY_INGRESS)
      + When(d.value.allowFromSameNamespace, FROM_SAME_NAMESPACE)
  }

  predicate NamesWithin(policies: seq<NamedPolicy>, names: set<string>) {
    forall i | 0 <= i < |policies| :: policies[i].name in names
  }

  lemma AddName(policies: seq<NamedPolicy>, flag: Option<bool>, policy: NamedPolicy, names: set<string>)
    requires NoNameTwice(policies) && NamesWithin(policies, names) && policy.name !in names
    ensures NoNameTwice(policies + When(flag, policy))
    ensures NamesWithin(policies + When(flag, policy), names + {policy.name})
  {
    var all := policies + When(flag, policy);
    assert forall i :: 0 <= i < |policies| ==> all[i] == policies[i];
  }

  const DEFAULT_NAMES := {
    FROM_ROUTER.name, FROM_MONITORING.name, TO_DNS.name, FROM_API_SERVER.name, DENY_EGRESS.name, DENY_INGRESS.name,
    FROM_SAME_NAMESPACE.name }

  /** The default policies have seven different names. */
  lemma DefaultNames(d: DefaultPolicies)
    ensures NoNameTwice(DefaultPolicyList(Some(d))) && NamesWithin(DefaultPolicyList(Some(d)), DEFAULT_NAMES)
  {
    var a := When(d.allowFromIngress, FROM_ROUTER);
    var b := a + When(d.allowFromMonitoring, FROM_MONITORING);
    var c := b + When(d.allowToDNS, TO_DNS);
    var e := c + When(d.allowKubeAPIServer, FROM_API_SERVER);
    var f := e + When(d.denyAllEgress, DENY_EGRESS);
    var g := f + When(d.denyAllIngress, DENY_INGRESS);
    var names := {FROM_ROUTER.name};
    assert |FROM_ROUTER.name| == 28 && |FROM_MONITORING.name| == 31 && |TO_DNS.name| == 22;
    assert |FROM_API_SERVER.name| == 34 && |DENY_EGRESS.name| == 15 && |DENY_INGRESS.name| == 16;
    assert |FROM_SAME_NAMESPACE.name| == 20;
    AddName(a, d.allowFromMonitoring, FROM_MONITORING, names);
    AddName(b, d.allowToDNS, TO_DNS, names + {FROM_MONITORING.name});
    AddName(c, d.allowKubeAPIServer, FROM_API_SERVER, names + {FROM_MONITORING.name, TO_DNS.name});
    AddName(e, d.denyAllEgress, DENY_EGRESS, names + {FROM_MONITORING.name, TO_DNS.name, FROM_API_SERVER.name});
    var later := names + {FROM_MONITORING.name, TO_DNS.name, FROM_API_SERVER.name, DENY_EGRESS.name};
    AddName(f, d.denyAllIngress, DENY_INGRESS, later);
    AddName(g, d.allowFromSameNamespace, FROM_SAME_NAMESPACE, later + {DENY_INGRESS.name});
  }

  method AppendWhen(policies: seq<NamedPolicy>, flag: Option<bool>, policy: NamedPolicy) returns (out: seq<NamedPolicy>)
    ensures out == policies + When(flag, policy)
  {
    out := policies;
    if IsOptInEnabled(flag) { out := out + [policy]; }
  }

  method DefaultNetworkPolicies(d: Option<DefaultPolicies>) returns (policies: seq<NamedPolicy>)
    ensures policies == DefaultPolicyList(d)
  {
    if d.None? { return []; }
    policies := AppendWhen([], d.value.allowFromIngress, FROM_ROUTER);
    policies := AppendWhen(policies, d.value.allowFromMonitoring, FROM_MONITORING);
    policies := AppendWhen(policies, d.value.allowToDNS, TO_DNS);
    policies := AppendWhen(policies, d.value.allowKubeAPIServer, FROM_API_SERVER);
    policies := AppendWhen(policies, d.value.denyAllEgress, DENY_EGRESS);
    policies := AppendWhen(policies, d.value.denyAllIngress, DENY_INGRESS);
    policies := AppendWhen(policies, d.value.allowFromSameNamespace, FROM_SAME_NAMESPACE);
  }

  /** The remote end is a pod of a namespace that carries the label. */
  predicate FromNamespace(scene: Scene, key: string, value: string) {
    && scene.remote.pod.Some?
    && key in scene.remote.pod.value.namespaceLabels && scene.remote.pod.value.namespaceLabels[key] == value
  }

  predicate FromApiServerOperator(scene: Scene) {
    && FromNamespace(scene, NAME_KEY, "openshift-kube-apiserver-operator")
    && "app" in scene.remote.pod.value.labels
    && scene.remote.pod.value.labels["app"] == "kube-apiserver-operator"
  }

  predicate FromSameNamespace(scene: Scene) {
    scene.remote.pod.Some? && scene.remote.pod.value.namespace == scene.namespace
  }

  predicate ToDNS(scene: Scene) {
    && FromNamespace(scene, NAME_KEY, "openshift-dns")
    && (scene.protocol == "TCP" || scene.protocol == "UDP") && (scene.port == 53 || scene.port == 5353)
  }

  predicate IngressToggled(d: DefaultPolicies) {
    || IsOptInEnabled(d.allowFromIngress) || IsOptInEnabled(d.allowFromMonitoring)
    || IsOptInEnabled(d.allowKubeAPIServer) || IsOptInEnabled(d.denyAllIngress)
    || IsOptInEnabled(d.allowFromSameNamespace)
  }

  /** An enabled allow toggle lets the remote end in. */
  predicate IngressAdmitted(d: DefaultPolicies, scene: Scene) {
    || (IsOptInEnabled(d.allowFromIngress) && FromNamespace(scene, ROUTER_KEY, ""))
    || (IsOptInEnabled(d.allowFromMonitoring) && FromNamespace(scene, POLICY_GROUP_KEY, "monitoring"))
    || (IsOptInEnabled(d.allowKubeAPIServer) && FromApiServerOperator(scene))
    || (IsOptInEnabled(d.allowFromSameNamespace) && FromSameNamespace(scene))
  }

  predicate EgressToggled(d: DefaultPolicies) {
    IsOptInEnabled(d.allowToDNS) || IsOptInEnabled(d.denyAllEgress)
  }

  lemma SelectsLabelled(key: string, value: string, labels: map<string, string>)
    ensures Selects(Labelled(key, value), labels) <==> key in labels && labels[key] == value
  {
    var selector := Labelled(key, value);
    assert key in selector.matchLabels;
  }

  lemma IngressFromMeaning(name: string, peer: Peer, scene: Scene)
    ensures Isolates(IngressFrom(name, peer).spec, Ingress, scene)
    ensures !Isolates(IngressFrom(name, peer).spec, Egress, scene)
    ensures Permits(IngressFrom(name, peer).spec, Ingress, scene) <==> PeerMatches(peer, scene)
  {
    var spec := IngressFrom(name, peer).spec;
    assert spec.policyTypes[0] == Ingress;
    assert Rules(spec, Ingress) == [Rule([peer], [])];
    assert RuleMatches(Rules(spec, Ingress)[0], scene) <==> PeerMatches([peer][0], scene);
  }

  lemma DnsMeaning(scene: Scene)
    ensures Isolates(TO_DNS.spec, Egress, scene) && !Isolates(TO_DNS.spec, Ingress, scene)
    ensures Permits(TO_DNS.spec, Egress, scene) <==> ToDNS(scene)
  {
    assert TO_DNS.spec.policyTypes[0] == Egress;
    var rule := TO_DNS.spec.egress[0];
    SelectsLabelled(NAME_KEY, "openshift-dns",
                    if scene.remote.pod.Some? then scene.remote.pod.value.namespaceLabels else map[]);
    assert PeerMatches(rule.peers[0], scene) <==> FromNamespace(scene, NAME_KEY, "openshift-dns");
    var tcp5353, tcp53, udp53, udp5353 := rule.ports[0], rule.ports[1], rule.ports[2], rule.ports[3];
    assert PortMatches(tcp5353, scene) || PortMatches(tcp53, scene) || PortMatches(udp53, scene)
        || PortMatches(udp5353, scene)
      <==> (scene.protocol == "TCP" || scene.protocol == "UDP") && (scene.port == 53 || scene.port == 5353);
    assert RuleMatches(rule, scene) <==> ToDNS(scene);
    assert Rules(TO_DNS.spec, Egress)[0] == rule;
  }

  lemma WhenMeaning(flag: Option<bool>, p: NamedPolicy, direction: Direction, scene: Scene)
    ensures AnyIsolates(When(flag, p), direction, scene) <==> IsOptInEnabled(flag) && Isolates(p.spec, direction, scene)
    ensures AnyPermits(When(flag, p), direction, scene) <==> IsOptInEnabled(flag) && Permits(p.spec, direction, scene)
  {
    AnySingle(p, direction, scene);
  }

  lemma DefaultListMeaning(d: DefaultPolicies, direction: Direction, scene: Scene)
    ensures AnyIsolates(DefaultPolicyList(Some(d)), direction, scene) <==>
      || (IsOptInEnabled(d.allowFromIngress) && Isolates(FROM_ROUTER.spec, direction, scene))
      || (IsOptInEnabled(d.allowFromMonitoring) && Isolates(FROM_MONITORING.spec, direction, scene))
      || (IsOptInEnabled(d.allowToDNS) && Isolates(TO_DNS.spec, direction, scene))
      || (IsOptInEnabled(d.allowKubeAPIServer) && Isolates(FROM_API_SERVER.spec, direction, scene))
      || (IsOptInEnabled(d.denyAllEgress) && Isolates(DENY_EGRESS.spec, direction, scene))
      || (IsOptInEnabled(d.denyAllIngress) && Isolates(DENY_INGRESS.spec, direction, scene))
      || (IsOptInEnabled(d.allowFromSameNamespace) && Isolates(FROM_SAME_NAMESPACE.spec, direction, scene))
    ensures AnyPermits(DefaultPolicyList(Some(d)), direction, scene) <==>
      || (IsOptInEnabled(d.allowFromIngress) && Permits(FROM_ROUTER.spec, direction, scene))
      || (IsOptInEnabled(d.allowFromMonitoring) && Permits(FROM_MONITORING.spec, direction, scene))
      || (IsOptInEnabled(d.allowToDNS) && Permits(TO_DNS.spec, direction, scene))
      || (IsOptInEnabled(d.allowKubeAPIServer) && Permits(FROM_API_SERVER.spec, direction, scene))
      || (IsOptInEnabled(d.denyAllEgress) && Permits(DENY_EGRESS.spec, direction, scene))
      || (IsOptInEnabled(d.denyAllIngress) && Permits(DENY_INGRESS.spec, direction, scene))
      || (IsOptInEnabled(d.allowFromSameNamespace) && Permits(FROM_SAME_NAMESPACE.spec, direction, scene))
  {
    var a := When(d.allowFromIngress, FROM_ROUTER);
    var b := a + When(d.allowFromMonitoring, FROM_MONITORING);
    var c := b + When(d.allowToDNS, TO_DNS);
    var e := c + When(d.allowKubeAPIServer, FROM_API_SERVER);
    var f := e + When(d.denyAllEgress, DENY_EGRESS);
    var g := f + When(d.denyAllIngress, DENY_INGRESS);
    WhenMeaning(d.allowFromIngress, FROM_ROUTER, direction, scene);
    WhenMeaning(d.allowFromMonitoring, FROM_MONITORING, direction, scene);
    WhenMeaning(d.allowToDNS, TO_DNS, direction, scene);
    WhenMeaning(d.allowKubeAPIServer, FROM_API_SERVER, direction, scene);
    WhenMeaning(d.denyAllEgress, DENY_EGRESS, direction, scene);
    WhenMeaning(d.denyAllIngress, DENY_INGRESS, direction, scene);
    WhenMeaning(d.allowFromSameNamespace, FROM_SAME_NAMESPACE, direction, scene);
    AnyAppend(a, When(d.allowFromMonitoring, FROM_MONITORING), direction, scene);
    AnyAppend(b, When(d.allowToDNS, TO_DNS), direction, scene);
    AnyAppend(c, When(d.allowKubeAPIServer, FROM_API_SERVER), direction, scene);
    AnyAppend(e, When(d.denyAllEgress, DENY_EGRESS), direction, scene);
    AnyAppend(f, When(d.denyAllIngress, DENY_INGRESS), direction, scene);
    AnyAppend(g, When(d.allowFromSameNamespace, FROM_SAME_NAMESPACE), direction, scene);
  }

  lemma DenyMeaning(scene: Scene)
    ensures Isolates(DENY_INGRESS.spec, Ingress, scene) && !Isolates(DENY_INGRESS.spec, Egress, scene)
    ensures Isolates(DENY_EGRESS.spec, Egress, scene) && !Isolates(DENY_EGRESS.spec, Ingress, scene)
    ensures !Permits(DENY_INGRESS.spec, Ingress, scene) && !Permits(DENY_EGRESS.spec, Egress, scene)
  {
    assert DENY_INGRESS.spec.policyTypes[0] == Ingress && DENY_EGRESS.spec.policyTypes[0] == Egress;
  }

  /** Ingress under the default policies: open without an ingress toggle, otherwise exactly what an enabled
      allow toggle admits. */
  lemma DefaultIngressVerdict(d: DefaultPolicies, scene: Scene)
    ensures Allowed(DefaultPolicyList(Some(d)), Ingress, scene) <==> !IngressToggled(d) || IngressAdmitted(d, scene)
  {
    DefaultListMeaning(d, Ingress, scene);
    DnsMeaning(scene);
    DenyMeaning(scene);
    var namespaceLabels := if scene.remote.pod.Some? then scene.remote.pod.value.namespaceLabels else map[];
    var labels := if scene.remote.pod.Some? then scene.remote.pod.value.labels else map[];
    SelectsLabelled(ROUTER_KEY, "", namespaceLabels);
    SelectsLabelled(POLICY_GROUP_KEY, "monitoring", namespaceLabels);
    SelectsLabelled(NAME_KEY, "openshift-kube-apiserver-operator", namespaceLabels);
    SelectsLabelled("app", "kube-apiserver-operator", labels);
    IngressFromMeaning(FROM_ROUTER.name, NamespacePeer(ROUTER_KEY, ""), scene);
    IngressFromMeaning(FROM_MONITORING.name, NamespacePeer(POLICY_GROUP_KEY, "monitoring"), scene);
    IngressFromMeaning(FROM_API_SERVER.name, FROM_API_SERVER.spec.ingress[0].peers[0], scene);
    IngressFromMeaning(FROM_SAME_NAMESPACE.name, Peer(Some(EVERYTHING), None, None), scene);
  }

  /** Egress under the default policies: open without an egress toggle, otherwise DNS if that is enabled. */
  lemma DefaultEgressVerdict(d: DefaultPolicies, scene: Scene)
    ensures Allowed(DefaultPolicyList(Some(d)), Egress, scene)
       <==> !EgressToggled(d) || (IsOptInEnabled(d.allowToDNS) && ToDNS(scene))
  {
    DefaultListMeaning(d, Egress, scene);
    DnsMeaning(scene);
    DenyMeaning(scene);
    IngressFromMeaning(FROM_ROUTER.name, NamespacePeer(ROUTER_KEY, ""), scene);
    IngressFromMeaning(FROM_MONITORING.name, NamespacePeer(POLICY_GROUP_KEY, "monitoring"), scene);
    IngressFromMeaning(FROM_API_SERVER.name, FROM_API_SERVER.spec.ingress[0].peers[0], scene);
    IngressFromMeaning(FROM_SAME_NAMESPACE.name, Peer(Some(EVERYTHING), None, None), scene);
  }

  // ---------------------------------------------------------------- custom policies

  datatype CustomPolicy = CustomPolicy(
    name: string, active: Option<bool>, podSelector: Option<LabelSelector>,
    ingressRules: seq<Rule>, egressRules: seq<Rule>)

  function CustomSpec(c: CustomPolicy): PolicySpec {
    PolicySpec(
      if c.podSelector.Some? then c.podSelector.value else EVERYTHING, c.ingressRules, c.egressRules,
      (if c.ingressRules != [] then [Ingress] else []) + (if c.egressRules != [] then [Egress] else []))
  }

  method BuildPeers(selectors: seq<Peer>) returns (peers: seq<Peer>)
    ensures peers == selectors
  {
    peers := [];
    for i := 0 to |selectors|
      invariant peers == selectors[..i]
    {
      var peer := Peer(None, None, None);
      if selectors[i].podSelector.Some? { peer := peer.(podSelector := selectors[i].podSelector); }
      if selectors[i].namespaceSelector.Some? { peer := peer.(namespaceSelector := selectors[i].namespaceSelector); }
      if selectors[i].ipBlock.Some? {
        peer := peer.(ipBlock := Some(IPBlock(selectors[i].ipBlock.value.cidr, selectors[i].ipBlock.value.except)));
      }
      peers := peers + [peer];
    }
  }

  method BuildRules(specs: seq<Rule>) returns (rules: seq<Rule>)
    ensures rules == specs
  {
    rules := [];
    for i := 0 to |specs|
      invariant rules == specs[..i]
    {
      var peers := BuildPeers(specs[i].peers);
      rules := rules + [Rule(peers, specs[i].ports)];
    }
  }

  /** The policy is for this pod: its selector is unset, or selects it. */
  predicate IsFor(c: CustomPolicy, labels: map<string, string>) {
    c.podSelector.None? || Selects(c.podSelector.value, labels)
  }

  lemma CustomIsFor(c: CustomPolicy, labels: map<string, string>)
    ensures Selects(CustomSpec(c).podSelector, labels) <==> IsFor(c, labels)
  {
    assert Selects(EVERYTHING, labels);
  }

  method BuildCustomNetworkPolicy(c: CustomPolicy) returns (policy: NamedPolicy)
    ensures policy == NamedPolicy(Sanitize(c.name), CustomSpec(c))
    ensures forall labels :: Selects(policy.spec.podSelector, labels) <==> IsFor(c, labels)
    ensures policy.spec.ingress == c.ingressRules && policy.spec.egress == c.egressRules
    ensures Ingress in policy.spec.policyTypes <==> c.ingressRules != []
    ensures Egress in policy.spec.policyTypes <==> c.egressRules != []
  {
    forall labels {
      CustomIsFor(c, labels);
    }
    var spec := PolicySpec(if c.podSelector.Some? then c.podSelector.value else EVERYTHING, [], [], []);
    var ingress := BuildRules(c.ingressRules);
    var egress := BuildRules(c.egressRules);
    spec := spec.(ingress := ingress, egress := egress);
    if |ingress| > 0 { spec := spec.(policyTypes := spec.policyTypes + [Ingress]); }
    if |egress| > 0 { spec := spec.(policyTypes := spec.policyTypes + [Egress]); }
    policy := NamedPolicy(Sanitize(c.name), spec);
  }

  /** Without any rule the policy is an ingress policy to the API, and closes the pods it selects. */
  predicate ClosesAlone(c: CustomPolicy, scene: Scene) {
    c.ingressRules == [] && c.egressRules == [] && IsFor(c, scene.labels)
  }

  /** The policy replaces the only one that isolated the pod, which let the remote end not in. */
  predicate Opens(stored: map<string, PolicySpec>, c: CustomPolicy, scene: Scene) {
    var name := Sanitize(c.name);
    && name in stored && Isolates(stored[name], Ingress, scene) && !Permits(stored[name], Ingress, scene)
    && !IsolatedBy(stored - {name}, Ingress, scene) && !ClosesAlone(c, scene)
  }

  /** The pod stays isolated, or becomes so, and no other policy lets the remote end in that was let in before. */
  predicate Closes(stored: map<string, PolicySpec>, c: CustomPolicy, scene: Scene) {
    var name := Sanitize(c.name);
    var rest := stored - {name};
    && !PermittedBy(rest, Ingress, scene)
    && if name in stored && Isolates(stored[name], Ingress, scene)
       then Permits(stored[name], Ingress, scene) && (IsolatedBy(rest, Ingress, scene) || ClosesAlone(c, scene))
       else !IsolatedBy(rest, Ingress, scene) && ClosesAlone(c, scene)
  }

  lemma EgressOnlySpec(c: CustomPolicy, scene: Scene)
    requires c.ingressRules == []
    ensures Isolates(CustomSpec(c), Ingress, scene) <==> ClosesAlone(c, scene)
    ensures !Permits(CustomSpec(c), Ingress, scene)
  {
    CustomIsFor(c, scene.labels);
    assert c.egressRules == [] ==> EffectiveTypes(CustomSpec(c))[0] == Ingress;
    assert c.egressRules != [] ==> EffectiveTypes(CustomSpec(c)) == [Egress];
  }

  /** A custom policy isolates exactly the pods it is for, in the directions it has rules for, and for ingress when it
      has none at all; it lets in or out exactly what one of its rules matches. */
  lemma CustomVerdict(c: CustomPolicy, direction: Direction, scene: Scene)
    ensures Isolates(CustomSpec(c), direction, scene) <==>
      && IsFor(c, scene.labels)
      && (if direction.Ingress? then c.ingressRules != [] || c.egressRules == [] else c.egressRules != [])
    ensures Permits(CustomSpec(c), direction, scene) <==>
      var rules := if direction.Ingress? then c.ingressRules else c.egressRules;
      IsFor(c, scene.labels) && exists i | 0 <= i < |rules| :: RuleMatches(rules[i], scene)
  {
    CustomIsFor(c, scene.labels);
    var types := EffectiveTypes(CustomSpec(c));
    assert c.ingressRules != [] ==> types[0] == Ingress;
    assert c.ingressRules == [] && c.egressRules == [] ==> types == [Ingress];
    assert c.ingressRules == [] && c.egressRules != [] ==> types == [Egress];
    assert c.ingressRules != [] && c.egressRules != [] ==> types[1] == Egress;
    assert Rules(CustomSpec(c), direction) == if direction.Ingress? then c.ingressRules else c.egressRules;
  }

  /** A pod that the policy is not for sees only what it replaces; under a name of its own the policy changes no
      verdict of that pod. */
  lemma UnselectedPod(stored: map<string, PolicySpec>, c: CustomPolicy, direction: Direction, scene: Scene)
    requires !IsFor(c, scene.labels)
    ensures AllowedBy(stored[Sanitize(c.name) := CustomSpec(c)], direction, scene)
       <==> AllowedBy(stored - {Sanitize(c.name)}, direction, scene)
    ensures Sanitize(c.name) !in stored ==>
      (AllowedBy(stored[Sanitize(c.name) := CustomSpec(c)], direction, scene) <==> AllowedBy(stored, direction, scene))
  {
    ReplacedVerdict(stored, Sanitize(c.name), CustomSpec(c), direction, scene);
    CustomVerdict(c, direction, scene);
    if Sanitize(c.name) !in stored {
      assert stored - {Sanitize(c.name)} == stored;
    }
  }

  /** Storing a custom policy without ingress rules changes an ingress verdict exactly in these two cases; with
      egress rules both need an earlier policy of the same name that selects the pod for ingress. */
  lemma CustomWithoutIngressRules(stored: map<string, PolicySpec>, c: CustomPolicy, scene: Scene)
    requires c.ingressRules == []
    ensures AllowedBy(stored[Sanitize(c.name) := CustomSpec(c)], Ingress, scene)
       <==> (AllowedBy(stored, Ingress, scene) && !Closes(stored, c, scene)) || Opens(stored, c, scene)
    ensures Opens(stored, c, scene) ==> !AllowedBy(stored, Ingress, scene)
    ensures Closes(stored, c, scene) ==> AllowedBy(stored, Ingress, scene)
    ensures c.egressRules != [] && (Opens(stored, c, scene) || Closes(stored, c, scene)) ==>
      Sanitize(c.name) in stored && Isolates(stored[Sanitize(c.name)], Ingress, scene)
  {
    ReplacedVerdict(stored, Sanitize(c.name), CustomSpec(c), Ingress, scene);
    ReplacedBefore(stored, Sanitize(c.name), Ingress, scene);
    EgressOnlySpec(c, scene);
  }

  /** On a pod that another policy isolates, a custom policy adds what its own rules permit, and takes away what a
      policy of the same name permitted. */
  lemma CustomOnIsolatedPod(stored: map<string, PolicySpec>, c: CustomPolicy, direction: Direction, scene: Scene)
    requires IsolatedBy(stored - {Sanitize(c.name)}, direction, scene)
    ensures AllowedBy(stored[Sanitize(c.name) := CustomSpec(c)], direction, scene)
       <==> PermittedBy(stored - {Sanitize(c.name)}, direction, scene) || Permits(CustomSpec(c), direction, scene)
  {
    ReplacedVerdict(stored, Sanitize(c.name), CustomSpec(c), direction, scene);
  }
}
