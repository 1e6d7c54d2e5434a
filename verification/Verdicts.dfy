/** What the network policies that a reconciliation leaves in the store admit. */
module Verdicts {
  import opened Common
  import opened Policies
  import opened Api
  import opened Resolution
  import opened Cluster
  import opened Reconcile
  import opened Convergence

  // ---------------------------------------------------------------- the stored policies of a tenant

  function ManagedNames(objects: Objects, project: string, n: string): set<string> {
    set k | k in objects && IsTenantPolicy(objects, project, n, k) && objects[k].content.Policy? :: k.name
  }

  /** The project's policies in the tenant, by name. */
  function ManagedPolicies(objects: Objects, project: string, n: string): map<string, PolicySpec> {
    map name | name in ManagedNames(objects, project, n) :: objects[PolicyKey(n, name)].content.spec
  }

  function PolicyAt(objects: Objects, project: string, n: string, name: string): Option<PolicySpec> {
    var key := PolicyKey(n, name);
    if IsTenantPolicy(objects, project, n, key) && objects[key].content.Policy? then Some(objects[key].content.spec)
    else None
  }

  lemma ManagedAt(objects: Objects, project: string, n: string, name: string)
    ensures Lookup(ManagedPolicies(objects, project, n), name) == PolicyAt(objects, project, n, name)
  {
    if PolicyAt(objects, project, n, name).Some? {
      assert PolicyKey(n, name).name in ManagedNames(objects, project, n);
    }
  }

  lemma {:induction false} StoredIsLast(policies: seq<NamedPolicy>, name: string)
    ensures Lookup(StoredPolicies(policies), name) == LastSpec(policies, name)
  {
    if policies == [] {
    } else {
      StoredIsLast(policies[..|policies| - 1], name);
    }
  }

  /** What an error-free reconciliation leaves of the project's policies, from any store. */
  function PoliciesLeft(s: Store, q: Project, e: Entry): map<string, PolicySpec>
    requires SizeKnown(s.sizes, e)
  {
    ManagedPolicies(Reconciled(s, q, e).objects, q.name, Tenant(e))
  }

  lemma PolicyLeftAt(s: Store, q: Project, e: Entry, name: string)
    requires SizeKnown(s.sizes, e)
    ensures PolicyAt(Reconciled(s, q, e).objects, q.name, Tenant(e), name) == LastSpec(DesiredPolicies(e), name)
  {
    ReconciledConverges(s, q, e, PolicyKey(Tenant(e), name));
  }

  /** They are the desired ones, the later of two with the same name. */
  lemma PoliciesLeftAreDesired(s: Store, q: Project, e: Entry)
    requires SizeKnown(s.sizes, e)
    ensures PoliciesLeft(s, q, e) == StoredPolicies(DesiredPolicies(e))
  {
    forall name
      ensures Lookup(PoliciesLeft(s, q, e), name) == Lookup(StoredPolicies(DesiredPolicies(e)), name)
    {
      ManagedAt(Reconciled(s, q, e).objects, q.name, Tenant(e), name);
      PolicyLeftAt(s, q, e, name);
      StoredIsLast(DesiredPolicies(e), name);
    }
    SameLookup(PoliciesLeft(s, q, e), StoredPolicies(DesiredPolicies(e)));
  }

  // ---------------------------------------------------------------- default policies in the store

  /** The policy isolates pods for the direction; one without any rule is an ingress policy to the API. */
  predicate IsAbout(c: CustomPolicy, direction: Direction) {
    if direction.Ingress? then c.ingressRules != [] || c.egressRules == [] else c.egressRules != []
  }

  /** The custom policies in force are not about the direction, and none has the name of a default policy. */
  predicate SpareDefaults(customs: seq<CustomPolicy>, direction: Direction) {
    forall c | c in customs && IsEnabled(c.active) :: !IsAbout(c, direction) && Sanitize(c.name) !in DEFAULT_NAMES
  }

  lemma NotAbout(c: CustomPolicy, direction: Direction, scene: Scene)
    requires !IsAbout(c, direction)
    ensures !Isolates(CustomSpec(c), direction, scene) && !Permits(CustomSpec(c), direction, scene)
  {
    if direction.Ingress? {
      EgressOnlySpec(c, scene);
    } else {
      assert Egress !in EffectiveTypes(CustomSpec(c));
    }
  }

  lemma {:induction false} ActiveComesFrom(customs: seq<CustomPolicy>, p: NamedPolicy)
    requires p in ActivePolicies(customs)
    ensures exists c :: c in customs && IsEnabled(c.active) && p == NamedPolicy(Sanitize(c.name), CustomSpec(c))
  {
    var before, last := customs[..|customs| - 1], customs[|customs| - 1];
    if p in ActivePolicies(before) {
      ActiveComesFrom(before, p);
    } else {
      assert p == NamedPolicy(Sanitize(last.name), CustomSpec(last));
    }
  }

  lemma CustomSparesDefaults(customs: seq<CustomPolicy>, name: string, direction: Direction, scene: Scene)
    requires SpareDefaults(customs, direction) && name in StoredPolicies(ActivePolicies(customs))
    ensures name !in DEFAULT_NAMES
    ensures var spec := StoredPolicies(ActivePolicies(customs))[name];
      !Isolates(spec, direction, scene) && !Permits(spec, direction, scene)
  {
    var p := NamedPolicy(name, StoredPolicies(ActivePolicies(customs))[name]);
    StoredComesFrom(ActivePolicies(customs), name);
    ActiveComesFrom(customs, p);
    var c :| c in customs && IsEnabled(c.active) && p == NamedPolicy(Sanitize(c.name), CustomSpec(c));
    NotAbout(c, direction, scene);
  }

  /** Policies that have nothing to do with a direction, laid over others under other names, change no verdict. */
  lemma OverlaidVerdict(a: map<string, PolicySpec>, b: map<string, PolicySpec>, direction: Direction, scene: Scene)
    requires forall name | name in b ::
      name !in a && !Isolates(b[name], direction, scene) && !Permits(b[name], direction, scene)
    ensures AllowedBy(a + b, direction, scene) <==> AllowedBy(a, direction, scene)
  {
    var all := a + b;
    assert forall name :: name in a ==> name in all && all[name] == a[name];
    assert forall name :: name in all && name !in a ==> all[name] == b[name];
  }

  lemma DefaultsStored(d: DefaultPolicies, name: string)
    requires name in StoredPolicies(DefaultPolicyList(Some(d)))
    ensures name in DEFAULT_NAMES
  {
    var policies := DefaultPolicyList(Some(d));
    DefaultNames(d);
    StoredComesFrom(policies, name);
    var i :| 0 <= i < |policies| && policies[i] == NamedPolicy(name, StoredPolicies(policies)[name]);
    assert policies[i].name in DEFAULT_NAMES;
  }

  /** Beside such custom policies the store gives the verdicts of the default list. */
  lemma StoredDefaultVerdict(s: Store, q: Project, e: Entry, d: DefaultPolicies, direction: Direction, scene: Scene)
    requires SizeKnown(s.sizes, e) && e.defaultPolicies == Some(d) && SpareDefaults(e.networkPolicies, direction)
    ensures AllowedBy(PoliciesLeft(s, q, e), direction, scene)
       <==> Allowed(DefaultPolicyList(Some(d)), direction, scene)
  {
    var defaults, customs := DefaultPolicyList(Some(d)), ActivePolicies(e.networkPolicies);
    PoliciesLeftAreDesired(s, q, e);
    StoredConcat(defaults, customs);
    forall name | name in StoredPolicies(customs)
      ensures name !in StoredPolicies(defaults)
      ensures !Isolates(StoredPolicies(customs)[name], direction, scene)
      ensures !Permits(StoredPolicies(customs)[name], direction, scene)
    {
      CustomSparesDefaults(e.networkPolicies, name, direction, scene);
      if name in StoredPolicies(defaults) { DefaultsStored(d, name); }
    }
    OverlaidVerdict(StoredPolicies(defaults), StoredPolicies(customs), direction, scene);
    DefaultNames(d);
    StoredVerdict(defaults, direction, scene);
  }

  /** In the store, whatever it held before: ingress is open without an ingress toggle, otherwise exactly what an
      enabled allow toggle admits, also beside custom policies with egress rules only and names of their own. */
  lemma StoredIngressVerdict(s: Store, q: Project, e: Entry, d: DefaultPolicies, scene: Scene)
    requires SizeKnown(s.sizes, e) && e.defaultPolicies == Some(d) && SpareDefaults(e.networkPolicies, Ingress)
    ensures AllowedBy(PoliciesLeft(s, q, e), Ingress, scene) <==> !IngressToggled(d) || IngressAdmitted(d, scene)
  {
    StoredDefaultVerdict(s, q, e, d, Ingress, scene);
    DefaultIngressVerdict(d, scene);
  }

  /** Egress is open without an egress toggle, otherwise exactly DNS when that is enabled, also beside custom policies
      without egress rules and with names of their own. */
  lemma StoredEgressVerdict(s: Store, q: Project, e: Entry, d: DefaultPolicies, scene: Scene)
    requires SizeKnown(s.sizes, e) && e.defaultPolicies == Some(d) && SpareDefaults(e.networkPolicies, Egress)
    ensures AllowedBy(PoliciesLeft(s, q, e), Egress, scene)
       <==> !EgressToggled(d) || (IsOptInEnabled(d.allowToDNS) && ToDNS(scene))
  {
    StoredDefaultVerdict(s, q, e, d, Egress, scene);
    DefaultEgressVerdict(d, scene);
  }

  // ---------------------------------------------------------------- adding a custom policy

  lemma {:induction false} ActiveConcat(a: seq<CustomPolicy>, b: seq<CustomPolicy>)
    ensures ActivePolicies(a + b) == ActivePolicies(a) + ActivePolicies(b)
  {
    if b == [] {
      assert a + b == a;
    } else {
      ActiveConcat(a, b[..|b| - 1]);
      assert (a + b)[..|a + b| - 1] == a + b[..|b| - 1];
    }
  }

  /** The entry with one more custom policy between `before` and `after`. */
  function WithCustom(e: Entry, before: seq<CustomPolicy>, c: CustomPolicy, after: seq<CustomPolicy>): Entry {
    e.(networkPolicies := before + [c] + after)
  }

  /** A later active policy of the entry has the same name. */
  predicate IsOverridden(c: CustomPolicy, after: seq<CustomPolicy>) {
    Sanitize(c.name) in StoredPolicies(ActivePolicies(after))
  }

  lemma InsertedPolicy(first: seq<NamedPolicy>, p: NamedPolicy, later: seq<NamedPolicy>)
    ensures StoredPolicies(first + [p] + later)
         == if p.name in StoredPolicies(later) then StoredPolicies(first + later)
            else StoredPolicies(first + later)[p.name := p.spec]
  {
    StoredConcat(first, later);
    StoredConcat(first + [p], later);
    assert (first + [p])[..|first|] == first;
    assert StoredPolicies(first + [p]) == StoredPolicies(first)[p.name := p.spec];
  }

  /** Where the policy stands among the others only matters for those of its own name. */
  lemma StoredWithCustom(e: Entry, before: seq<CustomPolicy>, c: CustomPolicy, after: seq<CustomPolicy>)
    requires e.networkPolicies == before + after && IsEnabled(c.active)
    ensures StoredPolicies(DesiredPolicies(WithCustom(e, before, c, after)))
         == if IsOverridden(c, after) then StoredPolicies(DesiredPolicies(e))
            else StoredPolicies(DesiredPolicies(e))[Sanitize(c.name) := CustomSpec(c)]
  {
    var defaults, p := DefaultPolicyList(e.defaultPolicies), NamedPolicy(Sanitize(c.name), CustomSpec(c));
    var first, later := ActivePolicies(before), ActivePolicies(after);
    ActiveConcat(before, after);
    ActiveConcat(before + [c], after);
    assert (before + [c])[..|before|] == before;
    assert defaults + (first + later) == (defaults + first) + later;
    assert defaults + (first + [p] + later) == (defaults + first) + [p] + later;
    InsertedPolicy(defaults + first, p, later);
  }

  /** Adding a custom policy without ingress rules, anywhere in the list: the ingress verdict that the stored policies
      give changes exactly when no later policy has its name and one of the two cases of the policies before applies.
      In particular one with egress rules and a name of its own changes none. */
  lemma AddedEgressPolicy(s: Store, q: Project, e: Entry, before: seq<CustomPolicy>, c: CustomPolicy,
                          after: seq<CustomPolicy>, scene: Scene)
    requires SizeKnown(s.sizes, e) && e.networkPolicies == before + after && IsEnabled(c.active) && c.ingressRules == []
    ensures var left, added := PoliciesLeft(s, q, e), PoliciesLeft(s, q, WithCustom(e, before, c, after));
      && (AllowedBy(added, Ingress, scene) != AllowedBy(left, Ingress, scene)
          <==> !IsOverridden(c, after) && (Opens(left, c, scene) || Closes(left, c, scene)))
      && (c.egressRules != [] && Sanitize(c.name) !in left ==>
            AllowedBy(added, Ingress, scene) == AllowedBy(left, Ingress, scene))
  {
    PoliciesLeftAreDesired(s, q, e);
    PoliciesLeftAreDesired(s, q, WithCustom(e, before, c, after));
    StoredWithCustom(e, before, c, after);
    CustomWithoutIngressRules(PoliciesLeft(s, q, e), c, scene);
  }

  /** Adding a custom policy under a name of its own changes no verdict of a pod it is not for. */
  lemma AddedPolicyElsewhere(s: Store, q: Project, e: Entry, before: seq<CustomPolicy>, c: CustomPolicy,
                             after: seq<CustomPolicy>, direction: Direction, scene: Scene)
    requires SizeKnown(s.sizes, e) && e.networkPolicies == before + after && IsEnabled(c.active)
    requires !IsFor(c, scene.labels) && Sanitize(c.name) !in PoliciesLeft(s, q, e)
    ensures AllowedBy(PoliciesLeft(s, q, WithCustom(e, before, c, after)), direction, scene)
       <==> AllowedBy(PoliciesLeft(s, q, e), direction, scene)
  {
    PoliciesLeftAreDesired(s, q, e);
    PoliciesLeftAreDesired(s, q, WithCustom(e, before, c, after));
    StoredWithCustom(e, before, c, after);
    UnselectedPod(PoliciesLeft(s, q, e), c, direction, scene);
  }

  lemma InactiveSkipped(before: seq<CustomPolicy>, c: CustomPolicy, after: seq<CustomPolicy>)
    requires !IsEnabled(c.active)
    ensures ActivePolicies(before + [c] + after) == ActivePolicies(before + after)
  {
    ActiveConcat(before, after);
    ActiveConcat(before + [c], after);
    assert (before + [c])[..|before|] == before;
  }

  /** A policy that is not active counts for nothing. */
  lemma InactivePolicyIgnored(s: Store, q: Project, e: Entry, before: seq<CustomPolicy>, c: CustomPolicy,
                              after: seq<CustomPolicy>)
    requires SizeKnown(s.sizes, e) && e.networkPolicies == before + after && c.active.Some? && !c.active.value
    ensures PoliciesLeft(s, q, WithCustom(e, before, c, after)) == PoliciesLeft(s, q, e)
  {
    PoliciesLeftAreDesired(s, q, e);
    PoliciesLeftAreDesired(s, q, WithCustom(e, before, c, after));
    InactiveSkipped(before, c, after);
  }

  // ---------------------------------------------------------------- a custom policy named like a default one

  const DENY_ONLY := DefaultPolicies(None, None, None, None, None, Some(true), None)

  const NAMESAKE := CustomPolicy("deny-all-ingress", None, None, [], [Rule([], [])])

  lemma DenyOnlyList()
    ensures DefaultPolicyList(Some(DENY_ONLY)) == [DENY_INGRESS]
  {
  }

  lemma DenyOnlyLeft(s: Store, q: Project, e: Entry, deny: NamedPolicy)
    requires SizeKnown(s.sizes, e) && DefaultPolicyList(e.defaultPolicies) == [deny] && e.networkPolicies == []
    ensures PoliciesLeft(s, q, e) == map[deny.name := deny.spec]
  {
    PoliciesLeftAreDesired(s, q, e);
    assert DesiredPolicies(e) == [deny];
  }

  lemma NamesakeOpens(scene: Scene)
    ensures !AllowedBy(map["deny-all-ingress" := DENY_INGRESS.spec], Ingress, scene)
    ensures Opens(map["deny-all-ingress" := DENY_INGRESS.spec], NAMESAKE, scene)
  {
    var stored := map["deny-all-ingress" := DENY_INGRESS.spec];
    DenyMeaning(scene);
    assert stored["deny-all-ingress"] == DENY_INGRESS.spec;
    assert Sanitize(NAMESAKE.name) == "deny-all-ingress";
    assert stored - {"deny-all-ingress"} == map[];
  }

  /** With all ingress denied by default, a custom policy of that name with one egress rule opens ingress to all. */
  lemma NamesakeOpensIngress(s: Store, q: Project, e: Entry, scene: Scene)
    requires SizeKnown(s.sizes, e) && e.defaultPolicies == Some(DENY_ONLY) && e.networkPolicies == []
    ensures !AllowedBy(PoliciesLeft(s, q, e), Ingress, scene)
    ensures AllowedBy(PoliciesLeft(s, q, WithCustom(e, [], NAMESAKE, [])), Ingress, scene)
  {
    DenyOnlyList();
    DenyOnlyLeft(s, q, e, DENY_INGRESS);
    NamesakeOpens(scene);
    AddedEgressPolicy(s, q, e, [], NAMESAKE, [], scene);
  }
}
