/** What an undisturbed, error-free reconciliation leaves behind, from any earlier store. */
module Convergence {
  import opened Common
  import opened Sizing
  import opened Policies
  import opened Api
  import opened Resolution
  import opened Cluster
  import opened Cleanup
  import opened Reconcile

  // ---------------------------------------------------------------- last writer wins

  /** The last policy of that name in the list. */
  function LastSpec(policies: seq<NamedPolicy>, name: string): Option<PolicySpec> {
    if policies == [] then None
    else
      var last := policies[|policies| - 1];
      if last.name == name then Some(last.spec) else LastSpec(policies[..|policies| - 1], name)
  }

  /** The body of the last enabled project of that name. */
  function LastBody(projects: seq<ArgoProject>, name: string): Option<string> {
    if projects == [] then None
    else
      var last := projects[|projects| - 1];
      if IsOptInEnabled(last.enabled) && Sanitize(last.name) == name then Some(last.body)
      else LastBody(projects[..|projects| - 1], name)
  }

  lemma {:induction false} LastSpecNamed(policies: seq<NamedPolicy>, name: string)
    ensures LastSpec(policies, name).Some? <==> name in NamesOf(policies)
  {
    if policies == [] {
    } else {
      var before, last := policies[..|policies| - 1], policies[|policies| - 1];
      LastSpecNamed(before, name);
      assert policies == before + [last];
      NamesAppend(before, last);
    }
  }

  lemma {:induction false} LastSpecConcat(a: seq<NamedPolicy>, b: seq<NamedPolicy>, name: string)
    ensures LastSpec(a + b, name) == OrElse(LastSpec(b, name), LastSpec(a, name))
  {
    if b == [] {
      assert a + b == a;
    } else {
      LastSpecConcat(a, b[..|b| - 1], name);
      assert (a + b)[..|a + b| - 1] == a + b[..|b| - 1];
    }
  }

  lemma {:induction false} LastBodyNamed(projects: seq<ArgoProject>, name: string)
    ensures LastBody(projects, name).Some? <==>
      exists i :: 0 <= i < |projects| && IsOptInEnabled(projects[i].enabled) && Sanitize(projects[i].name) == name
  {
    if projects == [] {
    } else {
      LastBodyNamed(projects[..|projects| - 1], name);
    }
  }

  // ---------------------------------------------------------------- one key at a time

  /** What becomes of an object that is no longer wanted. */
  function Dropped(o: Option<Object>, project: string): Option<Object> {
    if o.Some? && IsManaged(o.value.labels, project) then None else o
  }

  predicate IsTenantApp(o: Option<Object>, project: string, n: string) {
    && o.Some? && Lookup(o.value.labels, ProjectLabel) == Some(project)
    && Lookup(o.value.labels, TargetNamespace) == Some(n)
  }

  function DroppedArgo(o: Option<Object>, project: string, n: string): Option<Object> {
    if IsTenantApp(o, project, n) then None else o
  }

  /** What a run writes under a key: the content, None for "must not be there". */
  function Wanted(q: Project, e: Entry, hard: Option<map<Resource, string>>, items: Option<seq<LimitRangeItem>>, k: Key)
    : Option<Content>
  {
    match k.kind
    case NetworkPolicies =>
      var spec := LastSpec(DesiredPolicies(e), k.name);
      if spec.Some? then Some(Policy(spec.value)) else None
    case ResourceQuotas => if hard.Some? then Some(Quota(hard.value)) else None
    case LimitRanges => if items.Some? then Some(Limits(items.value)) else None
    case RoleBindings => if WantsGroup(e) then Some(Binding(GroupName(e), ClusterRoleName(e))) else None
    case Groups => if WantsGroup(e) then Some(Members(e.localAdminGroup.value.users)) else None
    case EgressIPObjects => if WantsEgress(e) then Some(Addresses(e.egressIPs.value.ips, Tenant(e))) else None
    case AppProjects =>
      var body := if k.namespace == GitOpsNamespace(q.gitOps, e) then LastBody(e.argoCDProjects, k.name) else None;
      if body.Some? then Some(ArgoBody(body.value)) else None
  }

  /** The keys a reconciliation of `e` looks at. */
  predicate Concerns(e: Entry, k: Key) {
    match k.kind
    case NetworkPolicies => k.namespace == Tenant(e)
    case ResourceQuotas => k == QuotaKey(Tenant(e))
    case LimitRanges => k == LimitKey(Tenant(e))
    case RoleBindings => k == BindingKey(e)
    case Groups => k == GroupKey(e)
    case EgressIPObjects => k == EgressKey(Tenant(e))
    case AppProjects => true
  }

  /** What one reconciliation makes of the object under `k`. */
  function After(q: Project, e: Entry, tenant: Uid, hard: Option<map<Resource, string>>,
                 items: Option<seq<LimitRangeItem>>, k: Key, o: Option<Object>): Option<Object>
  {
    var wanted := Wanted(q, e, hard, items, k);
    if !Concerns(e, k) then o
    else if k.kind == AppProjects then
      if wanted.Some? then Some(OwnedObject(o, ArgoLabels(q.name, e), q.uid, wanted.value, true))
      else if k.name in ArgoNames(e) then o else DroppedArgo(o, q.name, Tenant(e))
    else if wanted.None? then Dropped(o, q.name)
    else if IsTenantKind(k.kind) then Some(TenantObject(o, ManagedLabels(q.name, e), tenant, wanted.value))
    else Some(OwnedObject(o, ManagedLabels(q.name, e), q.uid, wanted.value, false))
  }

  /** Writing a tenant object again only replaces the content. */
  lemma TenantObjectTwice(o: Option<Object>, labels: Labels, tenant: Uid)
    ensures forall c, d :: TenantObject(Some(TenantObject(o, labels, tenant, c)), labels, tenant, d)
                        == TenantObject(o, labels, tenant, d)
  {
    if o.Some? {
      assert (o.value.labels + labels) + labels == o.value.labels + labels;
      assert (o.value.owners + {tenant}) + {tenant} == o.value.owners + {tenant};
    }
    assert labels + labels == labels;
  }

  lemma {:induction false} PutPoliciesAt(objects: Objects, n: string, policies: seq<NamedPolicy>, labels: Labels,
                                         tenant: Uid, k: Key)
    ensures Lookup(PutPolicies(objects, n, policies, labels, tenant), k) ==
      if k.kind == NetworkPolicies && k.namespace == n && LastSpec(policies, k.name).Some?
      then Some(TenantObject(Lookup(objects, k), labels, tenant, Policy(LastSpec(policies, k.name).value)))
      else Lookup(objects, k)
  {
    if policies == [] {
    } else {
      PutPoliciesAt(objects, n, policies[..|policies| - 1], labels, tenant, k);
      TenantObjectTwice(Lookup(objects, k), labels, tenant);
    }
  }

  lemma OwnedObjectTwice(o: Option<Object>, labels: Labels, project: Uid, relabel: bool)
    ensures forall c, d :: OwnedObject(Some(OwnedObject(o, labels, project, c, relabel)), labels, project, d, relabel)
                        == OwnedObject(o, labels, project, d, relabel)
  {
    if o.Some? {
      assert (o.value.labels + labels) + labels == o.value.labels + labels;
    }
    assert labels + labels == labels;
  }

  lemma {:induction false} PutArgoAt(objects: Objects, q: Project, e: Entry, projects: seq<ArgoProject>, k: Key)
    ensures Lookup(PutArgo(objects, q, e, projects), k) ==
      if k.kind == AppProjects && k.namespace == GitOpsNamespace(q.gitOps, e) && LastBody(projects, k.name).Some?
      then Some(OwnedObject(Lookup(objects, k), ArgoLabels(q.name, e), q.uid,
                            ArgoBody(LastBody(projects, k.name).value), true))
      else Lookup(objects, k)
  {
    if projects == [] {
    } else {
      PutArgoAt(objects, q, e, projects[..|projects| - 1], k);
      OwnedObjectTwice(Lookup(objects, k), ArgoLabels(q.name, e), q.uid, true);
    }
  }

  lemma PoliciesAt(objects: Objects, q: Project, e: Entry, tenant: Uid, k: Key)
    ensures var labels := ManagedLabels(q.name, e);
      var defaults := PutPolicies(objects, Tenant(e), DefaultPolicyList(e.defaultPolicies), labels, tenant);
      Lookup(PutPolicies(defaults, Tenant(e), ActivePolicies(e.networkPolicies), labels, tenant), k) ==
        if k.kind == NetworkPolicies && k.namespace == Tenant(e) && LastSpec(DesiredPolicies(e), k.name).Some?
        then Some(TenantObject(Lookup(objects, k), labels, tenant, Policy(LastSpec(DesiredPolicies(e), k.name).value)))
        else Lookup(objects, k)
  {
    var labels := ManagedLabels(q.name, e);
    var defaults := PutPolicies(objects, Tenant(e), DefaultPolicyList(e.defaultPolicies), labels, tenant);
    PutPoliciesAt(objects, Tenant(e), DefaultPolicyList(e.defaultPolicies), labels, tenant, k);
    PutPoliciesAt(defaults, Tenant(e), ActivePolicies(e.networkPolicies), labels, tenant, k);
    LastSpecConcat(DefaultPolicyList(e.defaultPolicies), ActivePolicies(e.networkPolicies), k.name);
    TenantObjectTwice(Lookup(objects, k), labels, tenant);
  }

  lemma SizedAt(objects: Objects, q: Project, e: Entry, tenant: Uid, hard: Option<map<Resource, string>>,
                items: Option<seq<LimitRangeItem>>, k: Key)
    ensures Lookup(PutLimits(PutQuota(objects, q, e, tenant, hard), q, e, tenant, items), k) ==
      if (k.kind == ResourceQuotas || k.kind == LimitRanges) && Concerns(e, k) && Wanted(q, e, hard, items, k).Some?
      then After(q, e, tenant, hard, items, k, Lookup(objects, k)) else Lookup(objects, k)
  {
  }

  lemma AdminsAndEgressAt(objects: Objects, q: Project, e: Entry, tenant: Uid, hard: Option<map<Resource, string>>,
                          items: Option<seq<LimitRangeItem>>, k: Key)
    ensures Lookup(PutEgress(PutGroup(objects, q, e, tenant), q, e), k) ==
      if (k.kind == RoleBindings || k.kind == Groups || k.kind == EgressIPObjects)
         && Concerns(e, k) && Wanted(q, e, hard, items, k).Some?
      then After(q, e, tenant, hard, items, k, Lookup(objects, k)) else Lookup(objects, k)
  {
  }

  /** The writes, before anything is removed. */
  lemma WrittenAt(objects: Objects, q: Project, e: Entry, tenant: Uid, hard: Option<map<Resource, string>>,
                  items: Option<seq<LimitRangeItem>>, k: Key)
    ensures Lookup(WrittenObjects(objects, q, e, tenant, hard, items), k) ==
      if Concerns(e, k) && Wanted(q, e, hard, items, k).Some?
      then After(q, e, tenant, hard, items, k, Lookup(objects, k))
      else Lookup(objects, k)
  {
    var labels := ManagedLabels(q.name, e);
    var sized := PutLimits(PutQuota(objects, q, e, tenant, hard), q, e, tenant, items);
    var defaults := PutPolicies(sized, Tenant(e), DefaultPolicyList(e.defaultPolicies), labels, tenant);
    var customs := PutPolicies(defaults, Tenant(e), ActivePolicies(e.networkPolicies), labels, tenant);
    var routed := PutEgress(PutGroup(customs, q, e, tenant), q, e);
    SizedAt(objects, q, e, tenant, hard, items, k);
    PoliciesAt(sized, q, e, tenant, k);
    AdminsAndEgressAt(customs, q, e, tenant, hard, items, k);
    PutArgoAt(routed, q, e, e.argoCDProjects, k);
  }

  lemma DropKeyAt(objects: Objects, key: Key, project: string, k: Key)
    requires key.kind != AppProjects
    ensures Lookup(DropKey(objects, key, project), k)
         == if k == key then Dropped(Lookup(objects, k), project) else Lookup(objects, k)
  {
  }

  lemma DropListsAt(objects: Objects, project: string, n: string, keep: set<string>, k: Key)
    ensures Lookup(DropPolicies(objects, project, n, keep), k) ==
      if k.kind == NetworkPolicies && k.namespace == n && k.name !in keep then Dropped(Lookup(objects, k), project)
      else Lookup(objects, k)
    ensures Lookup(DropAppProjects(objects, project, n, keep), k) ==
      if k.kind == AppProjects && k.name !in keep then DroppedArgo(Lookup(objects, k), project, n)
      else Lookup(objects, k)
  {
  }

  /** The project still wants what the prune looks at under `k`. */
  predicate Kept(e: Entry, quota: bool, limits: bool, k: Key) {
    match k.kind
    case NetworkPolicies => k.name in PolicyNames(e)
    case ResourceQuotas => quota
    case LimitRanges => limits
    case RoleBindings | Groups => WantsGroup(e)
    case EgressIPObjects => WantsEgress(e)
    case AppProjects => k.name in ArgoNames(e)
  }

  lemma PrunedInnerAt(objects: Objects, q: Project, e: Entry, quota: bool, limits: bool, k: Key)
    ensures
      var a := if quota then objects else DropKey(objects, QuotaKey(Tenant(e)), q.name);
      var b := if limits then a else DropKey(a, LimitKey(Tenant(e)), q.name);
      Lookup(DropPolicies(b, q.name, Tenant(e), PolicyNames(e)), k) ==
        if k.kind != NetworkPolicies && k.kind != ResourceQuotas && k.kind != LimitRanges then Lookup(objects, k)
        else if !Concerns(e, k) || Kept(e, quota, limits, k) then Lookup(objects, k)
        else Dropped(Lookup(objects, k), q.name)
  {
    var n := Tenant(e);
    var a := if quota then objects else DropKey(objects, QuotaKey(n), q.name);
    var b := if limits then a else DropKey(a, LimitKey(n), q.name);
    DropKeyAt(objects, QuotaKey(n), q.name, k);
    DropKeyAt(a, LimitKey(n), q.name, k);
    DropListsAt(b, q.name, n, PolicyNames(e), k);
  }

  lemma PrunedAt(objects: Objects, q: Project, e: Entry, quota: bool, limits: bool, k: Key)
    ensures Lookup(PrunedObjects(objects, q, e, quota, limits), k) ==
      if !Concerns(e, k) || Kept(e, quota, limits, k) then Lookup(objects, k)
      else if k.kind == AppProjects then DroppedArgo(Lookup(objects, k), q.name, Tenant(e))
      else Dropped(Lookup(objects, k), q.name)
  {
    var n := Tenant(e);
    var a := if quota then objects else DropKey(objects, QuotaKey(n), q.name);
    var b := if limits then a else DropKey(a, LimitKey(n), q.name);
    var p := DropPolicies(b, q.name, n, PolicyNames(e));
    var r := DropKey(p, BindingKey(e), q.name);
    var g := if WantsGroup(e) then p else DropKey(r, GroupKey(e), q.name);
    var x := DropEgress(g, q.name, e, !WantsEgress(e));
    PrunedInnerAt(objects, q, e, quota, limits, k);
    DropKeyAt(p, BindingKey(e), q.name, k);
    DropKeyAt(r, GroupKey(e), q.name, k);
    DropKeyAt(g, EgressKey(n), q.name, k);
    DropListsAt(x, q.name, n, ArgoNames(e), k);
  }

  lemma WantedIsKept(q: Project, e: Entry, hard: Option<map<Resource, string>>, items: Option<seq<LimitRangeItem>>,
                     k: Key)
    ensures k.kind != AppProjects ==> (Kept(e, hard.Some?, items.Some?, k) <==> Wanted(q, e, hard, items, k).Some?)
    ensures Wanted(q, e, hard, items, k).Some? ==> Kept(e, hard.Some?, items.Some?, k)
  {
    LastSpecNamed(DesiredPolicies(e), k.name);
    LastBodyNamed(e.argoCDProjects, k.name);
  }

  /** Writes and removals together act on every key as `After` says: the removal never takes away what the
      same run has written. */
  lemma ReconciledAt(objects: Objects, q: Project, e: Entry, tenant: Uid, hard: Option<map<Resource, string>>,
                     items: Option<seq<LimitRangeItem>>, k: Key)
    ensures Lookup(ReconciledObjects(objects, q, e, tenant, hard, items), k)
         == After(q, e, tenant, hard, items, k, Lookup(objects, k))
  {
    var written := WrittenObjects(objects, q, e, tenant, hard, items);
    WrittenAt(objects, q, e, tenant, hard, items, k);
    PrunedAt(written, q, e, hard.Some?, items.Some?, k);
    WantedIsKept(q, e, hard, items, k);
    if Concerns(e, k) && Wanted(q, e, hard, items, k).None? {
      assert Lookup(written, k) == Lookup(objects, k);
    }
  }

  // ---------------------------------------------------------------- convergence

  /** The object under `k` is exactly the wanted one; if none is wanted, there is none of the project's. */
  predicate Settled(q: Project, e: Entry, hard: Option<map<Resource, string>>, items: Option<seq<LimitRangeItem>>,
                    k: Key, o: Option<Object>)
  {
    var wanted := Wanted(q, e, hard, items, k);
    if wanted.Some? then
      && o.Some? && o.value.content == wanted.value
      && (IsTenantKind(k.kind) || k.kind == AppProjects ==> IsManaged(o.value.labels, q.name))
    else k.kind == AppProjects || o.None? || !IsManaged(o.value.labels, q.name)
  }

  lemma AfterSettles(q: Project, e: Entry, tenant: Uid, hard: Option<map<Resource, string>>,
                     items: Option<seq<LimitRangeItem>>, k: Key, o: Option<Object>)
    requires Concerns(e, k)
    ensures Settled(q, e, hard, items, k, After(q, e, tenant, hard, items, k, o))
  {
  }

  /** From any store, an error-free reconciliation ends with the wanted content under every key it looks at, and
      with nothing of the project's under the keys whose object is not wanted. In particular the managed policies
      are exactly the desired names with, on a clash, the specification written last; a quota and a limit range
      are there exactly when in force, with the compiled contents; the EgressIP lists exactly the given IPs. */
  lemma ReconciledConverges(s: Store, q: Project, e: Entry, k: Key)
    requires SizeKnown(s.sizes, e) && Concerns(e, k)
    ensures Settled(q, e, DesiredHard(s.sizes, e), DesiredItems(s.sizes, e), k, Lookup(Reconciled(s, q, e).objects, k))
  {
    var adopted := AdoptedTenant(s, q, e);
    var hard, items, tenant := DesiredHard(s.sizes, e), DesiredItems(s.sizes, e), adopted.namespaces[Tenant(e)].uid;
    ReconciledAt(adopted.objects, q, e, tenant, hard, items, k);
    AfterSettles(q, e, tenant, hard, items, k, Lookup(adopted.objects, k));
  }

  lemma AfterArgo(q: Project, e: Entry, tenant: Uid, hard: Option<map<Resource, string>>,
                  items: Option<seq<LimitRangeItem>>, k: Key, o: Option<Object>)
    requires k.kind == AppProjects && '_' !in e.name
    ensures IsTenantApp(After(q, e, tenant, hard, items, k, o), q.name, Tenant(e)) ==> k.name in ArgoNames(e)
    ensures k.namespace == GitOpsNamespace(q.gitOps, e) && k.name in ArgoNames(e) ==>
      IsTenantApp(After(q, e, tenant, hard, items, k, o), q.name, Tenant(e))
  {
    LastBodyNamed(e.argoCDProjects, k.name);
    assert ArgoLabels(q.name, e)[TargetNamespace] == Tenant(e);
  }

  /** AppProjects labelled for the tenant carry exactly the enabled names: every enabled project is there, in the
      Argo CD namespace of the entry, and no other name is left in any namespace. */
  lemma ReconciledArgoNames(s: Store, q: Project, e: Entry, k: Key)
    requires SizeKnown(s.sizes, e) && '_' !in e.name && k.kind == AppProjects
    ensures IsTenantApp(Lookup(Reconciled(s, q, e).objects, k), q.name, Tenant(e)) ==> k.name in ArgoNames(e)
    ensures k.namespace == GitOpsNamespace(q.gitOps, e) && k.name in ArgoNames(e) ==>
      IsTenantApp(Lookup(Reconciled(s, q, e).objects, k), q.name, Tenant(e))
  {
    var adopted := AdoptedTenant(s, q, e);
    var hard, items, tenant := DesiredHard(s.sizes, e), DesiredItems(s.sizes, e), adopted.namespaces[Tenant(e)].uid;
    ReconciledAt(adopted.objects, q, e, tenant, hard, items, k);
    AfterArgo(q, e, tenant, hard, items, k, Lookup(adopted.objects, k));
  }

  // ---------------------------------------------------------------- idempotence

  lemma AfterTwice(q: Project, e: Entry, tenant: Uid, hard: Option<map<Resource, string>>,
                   items: Option<seq<LimitRangeItem>>, k: Key, o: Option<Object>)
    ensures After(q, e, tenant, hard, items, k, After(q, e, tenant, hard, items, k, o))
         == After(q, e, tenant, hard, items, k, o)
  {
    TenantObjectTwice(o, ManagedLabels(q.name, e), tenant);
    OwnedObjectTwice(o, ManagedLabels(q.name, e), q.uid, false);
    OwnedObjectTwice(o, ArgoLabels(q.name, e), q.uid, true);
  }

  lemma OverlayTwice<K, V>(base: map<K, V>, over: map<K, V>)
    ensures (base + over) + over == base + over
    ensures over + over == over
  {
  }

  /** A namespace that already carries the labels, annotations and controller is adopted without a change. */
  lemma AdoptSettled(s: Store, q: Project, n: string, labels: Labels, annotations: map<string, string>)
    requires n in s.namespaces && s.namespaces[n].controller == Some(q.uid)
    requires s.namespaces[n].labels + labels == s.namespaces[n].labels
    requires s.namespaces[n].annotations + annotations == s.namespaces[n].annotations
    ensures Adopt(s, q, n, labels, annotations) == s
  {
    var ns := s.namespaces[n];
    assert s.namespaces[n := ns] == s.namespaces;
  }

  lemma AdoptTwice(s: Store, q: Project, n: string, labels: Labels, annotations: map<string, string>)
    ensures Adopt(Adopt(s, q, n, labels, annotations), q, n, labels, annotations) == Adopt(s, q, n, labels, annotations)
  {
    var before := Lookup(s.namespaces, n);
    OverlayTwice(if before.Some? then before.value.labels else map[], labels);
    OverlayTwice(if before.Some? then before.value.annotations else map[], annotations);
    AdoptSettled(Adopt(s, q, n, labels, annotations), q, n, labels, annotations);
  }

  /** A second reconciliation changes nothing in the whole store. */
  lemma ReconciledTwice(s: Store, q: Project, e: Entry)
    requires SizeKnown(s.sizes, e)
    ensures Reconciled(Reconciled(s, q, e), q, e) == Reconciled(s, q, e)
  {
    var once := Reconciled(s, q, e);
    var adopted := AdoptedTenant(s, q, e);
    var hard, items := DesiredHard(s.sizes, e), DesiredItems(s.sizes, e);
    var tenant := adopted.namespaces[Tenant(e)].uid;
    AdoptTwice(s, q, Tenant(e), DesiredLabels(q.name, GitOpsNamespace(q.gitOps, e), e), e.annotations);
    assert AdoptedTenant(once, q, e).objects == once.objects;
    assert AdoptedTenant(once, q, e).namespaces == adopted.namespaces;
    forall k
      ensures Lookup(ReconciledObjects(once.objects, q, e, tenant, hard, items), k) == Lookup(once.objects, k)
    {
      ReconciledAt(adopted.objects, q, e, tenant, hard, items, k);
      ReconciledAt(once.objects, q, e, tenant, hard, items, k);
      AfterTwice(q, e, tenant, hard, items, k, Lookup(adopted.objects, k));
    }
    SameLookup(ReconciledObjects(once.objects, q, e, tenant, hard, items), once.objects);
  }
}
