/** Reconciling one active namespace entry: the tenant namespace first, then every object of the tenant,
    then the removal of what the entry no longer wants. */
module Reconcile {
  import opened Common
  import opened Sizing
  import opened Policies
  import opened Api
  import opened Resolution
  import opened Validation
  import opened Cluster
  import opened Lifecycle
  import opened Interference
  import opened Clients
  import opened Cleanup

  // ---------------------------------------------------------------- effects on the stored objects

  /** The owners once the tenant namespace is one of them; its controller needs no second reference. */
  function OwnersWith(o: Object, tenant: Uid): set<Uid> {
    if o.controller == Some(tenant) then o.owners else o.owners + {tenant}
  }

  /** A tenant object after create-or-patch: labels merged, content replaced, the namespace as owner. */
  function TenantObject(before: Option<Object>, labels: Labels, tenant: Uid, content: Content): Object {
    if before.None? then Object(labels, None, {tenant}, content)
    else Object(before.value.labels + labels, before.value.controller, OwnersWith(before.value, tenant), content)
  }

  /** An object controlled by the project; labels of an existing Group or EgressIP are not touched. */
  function OwnedObject(before: Option<Object>, labels: Labels, project: Uid, content: Content, relabel: bool): Object {
    if before.None? then Object(labels, Some(project), {}, content)
    else
      Object(if relabel then before.value.labels + labels else before.value.labels, Some(project),
             before.value.owners, content)
  }

  function PutTenant(objects: Objects, key: Key, labels: Labels, tenant: Uid, content: Content): Objects {
    objects[key := TenantObject(Lookup(objects, key), labels, tenant, content)]
  }

  function PutOwned(objects: Objects, key: Key, labels: Labels, project: Uid, content: Content, relabel: bool)
    : Objects
  {
    objects[key := OwnedObject(Lookup(objects, key), labels, project, content, relabel)]
  }

  function PolicyKey(n: string, name: string): Key { Key(NetworkPolicies, n, name) }

  function PutPolicies(objects: Objects, n: string, policies: seq<NamedPolicy>, labels: Labels, tenant: Uid): Objects {
    if policies == [] then objects
    else
      var last := policies[|policies| - 1];
      PutTenant(PutPolicies(objects, n, policies[..|policies| - 1], labels, tenant),
                PolicyKey(n, last.name), labels, tenant, Policy(last.spec))
  }

  /** The policies of the active custom entries, in order. */
  function ActivePolicies(customs: seq<CustomPolicy>): seq<NamedPolicy> {
    if customs == [] then []
    else
      var last := customs[|customs| - 1];
      var before := ActivePolicies(customs[..|customs| - 1]);
      if IsEnabled(last.active) then before + [NamedPolicy(Sanitize(last.name), CustomSpec(last))] else before
  }

  function DesiredPolicies(e: Entry): seq<NamedPolicy> {
    DefaultPolicyList(e.defaultPolicies) + ActivePolicies(e.networkPolicies)
  }

  function NamesOf(policies: seq<NamedPolicy>): set<string> {
    set i | 0 <= i < |policies| :: policies[i].name
  }

  function PolicyNames(e: Entry): set<string> {
    NamesOf(DesiredPolicies(e))
  }

  function ArgoKey(argoNamespace: string, p: ArgoProject): Key { Key(AppProjects, argoNamespace, Sanitize(p.name)) }

  function ArgoLabels(project: string, e: Entry): Labels {
    map[ManagedBy := OPERATOR, ProjectLabel := project, TargetNamespace := Tenant(e), ProjectInherit := "global"]
    + ManagedLabels(project, e)
  }

  function PutArgo(objects: Objects, q: Project, e: Entry, projects: seq<ArgoProject>): Objects {
    if projects == [] then objects
    else
      var last := projects[|projects| - 1];
      var before := PutArgo(objects, q, e, projects[..|projects| - 1]);
      if IsOptInEnabled(last.enabled) then
        PutOwned(before, ArgoKey(GitOpsNamespace(q.gitOps, e), last), ArgoLabels(q.name, e), q.uid,
                 ArgoBody(last.body), true)
      else before
  }

  function ArgoNames(e: Entry): set<string> {
    set i | 0 <= i < |e.argoCDProjects| && IsOptInEnabled(e.argoCDProjects[i].enabled) ::
      Sanitize(e.argoCDProjects[i].name)
  }

  function PutQuota(objects: Objects, q: Project, e: Entry, tenant: Uid, hard: Option<map<Resource, string>>): Objects {
    if hard.None? then objects
    else PutTenant(objects, QuotaKey(Tenant(e)), ManagedLabels(q.name, e), tenant, Quota(hard.value))
  }

  function PutLimits(objects: Objects, q: Project, e: Entry, tenant: Uid, items: Option<seq<LimitRangeItem>>): Objects {
    if items.None? then objects
    else PutTenant(objects, LimitKey(Tenant(e)), ManagedLabels(q.name, e), tenant, Limits(items.value))
  }

  function PutGroup(objects: Objects, q: Project, e: Entry, tenant: Uid): Objects {
    if !WantsGroup(e) then objects
    else
      var users := Members(e.localAdminGroup.value.users);
      PutTenant(PutOwned(objects, GroupKey(e), ManagedLabels(q.name, e), q.uid, users, false), BindingKey(e),
                ManagedLabels(q.name, e), tenant, Binding(GroupName(e), ClusterRoleName(e)))
  }

  function PutEgress(objects: Objects, q: Project, e: Entry): Objects {
    if !WantsEgress(e) then objects
    else
      PutOwned(objects, EgressKey(Tenant(e)), ManagedLabels(q.name, e), q.uid,
               Addresses(e.egressIPs.value.ips, Tenant(e)), false)
  }

  /** The removal of what the entry no longer wants. */
  function PrunedObjects(objects: Objects, q: Project, e: Entry, quota: bool, limits: bool): Objects {
    var n := Tenant(e);
    var a := if quota then objects else DropKey(objects, QuotaKey(n), q.name);
    var b := if limits then a else DropKey(a, LimitKey(n), q.name);
    var p := DropPolicies(b, q.name, n, PolicyNames(e));
    var g := if WantsGroup(e) then p else DropKey(DropKey(p, BindingKey(e), q.name), GroupKey(e), q.name);
    DropAppProjects(DropEgress(g, q.name, e, !WantsEgress(e)), q.name, n, ArgoNames(e))
  }

  function PutAllPolicies(objects: Objects, q: Project, e: Entry, tenant: Uid): Objects {
    var labels := ManagedLabels(q.name, e);
    PutPolicies(PutPolicies(objects, Tenant(e), DefaultPolicyList(e.defaultPolicies), labels, tenant), Tenant(e),
                ActivePolicies(e.networkPolicies), labels, tenant)
  }

  function WrittenObjects(objects: Objects, q: Project, e: Entry, tenant: Uid,
                          hard: Option<map<Resource, string>>, items: Option<seq<LimitRangeItem>>): Objects
  {
    var labels := ManagedLabels(q.name, e);
    var sized := PutLimits(PutQuota(objects, q, e, tenant, hard), q, e, tenant, items);
    var defaults := PutPolicies(sized, Tenant(e), DefaultPolicyList(e.defaultPolicies), labels, tenant);
    var customs := PutPolicies(defaults, Tenant(e), ActivePolicies(e.networkPolicies), labels, tenant);
    PutArgo(PutEgress(PutGroup(customs, q, e, tenant), q, e), q, e, e.argoCDProjects)
  }

  function ReconciledObjects(objects: Objects, q: Project, e: Entry, tenant: Uid,
                             hard: Option<map<Resource, string>>, items: Option<seq<LimitRangeItem>>): Objects
  {
    PrunedObjects(WrittenObjects(objects, q, e, tenant, hard, items), q, e, hard.Some?, items.Some?)
  }

  function AdoptedTenant(s: Store, q: Project, e: Entry): Store {
    Adopt(s, q, Tenant(e), DesiredLabels(q.name, GitOpsNamespace(q.gitOps, e), e), e.annotations)
  }

  /** The store after an undisturbed, error-free reconciliation of the entry. */
  function Reconciled(s: Store, q: Project, e: Entry): Store
    requires SizeKnown(s.sizes, e)
  {
    var adopted := AdoptedTenant(s, q, e);
    adopted.(objects := ReconciledObjects(adopted.objects, q, e, adopted.namespaces[Tenant(e)].uid,
                                          DesiredHard(s.sizes, e), DesiredItems(s.sizes, e)))
  }

  // ---------------------------------------------------------------- get, create or patch

  /** The run is reconciling the active entry `e`, whose namespace it adopted as `tenant` before `since`. */
  ghost predicate Working(c: Client, q: Project, e: Entry, tenant: Uid, since: Trace)
    reads c
  {
    && c.Ready(q, since) && !q.deleting && e in q.entries && IsActive(e)
    && AdoptedOnce(since, q, Tenant(e), tenant)
  }

  lemma ActiveEntry(q: Project, e: Entry)
    requires e in q.entries && IsActive(e)
    ensures HasEntry(q, Tenant(e), false)
  {
  }

  lemma TenantWritePermitted(s: Store, q: Project, e: Entry, tenant: Uid, key: Key, content: Content)
    requires !q.deleting && e in q.entries && IsActive(e)
    requires IsTenantKind(key.kind) && key.namespace == Tenant(e) && key.kind in s.served
    ensures Permitted(s, q,
      PutTenantObject(key, TenantObject(Lookup(s.objects, key), ManagedLabels(q.name, e), tenant, content), tenant))
  {
    ActiveEntry(q, e);
  }

  lemma OwnedWritePermitted(s: Store, q: Project, e: Entry, key: Key, labels: Labels, content: Content, relabel: bool)
    requires !q.deleting && e in q.entries && IsActive(e)
    requires !IsTenantKind(key.kind) && key.kind in s.served
    requires key.kind == EgressIPObjects ==> key.name == Tenant(e)
    requires key in s.objects ==> MayControl(s.objects[key].controller, q)
    ensures Permitted(s, q, PutOwnedObject(key, OwnedObject(Lookup(s.objects, key), labels, q.uid, content, relabel)))
  {
    ActiveEntry(q, e);
  }

  /** The object under `key` has another controller. */
  predicate IsRefused(s: Store, q: Project, key: Key) {
    key in s.objects && !MayControl(s.objects[key].controller, q)
  }

  /** What the project is refused stays the same. */
  ghost predicate SameRefusals(q: Project, s: Store, t: Store) {
    forall k :: IsRefused(s, q, k) <==> IsRefused(t, q, k)
  }

  /** The labels of `after` are `labels` laid over those of `before`. */
  ghost predicate Relabelled(before: Labels, labels: Labels, after: Labels) {
    forall key :: Lookup(after, key) == OrElse(Lookup(labels, key), Lookup(before, key))
  }

  /** `after` has the content, the labels over the old ones, the tenant as an owner, and is as `before` otherwise. */
  ghost predicate IsTenantWrite(before: Option<Object>, after: Option<Object>, labels: Labels, tenant: Uid,
                                content: Content)
  {
    && after.Some? && after.value.content == content && IsOwnedBy(after.value, tenant)
    && Relabelled(if before.Some? then before.value.labels else map[], labels, after.value.labels)
    && after.value.controller == (if before.Some? then before.value.controller else None)
    && (before.Some? ==> before.value.owners <= after.value.owners <= before.value.owners + {tenant})
  }

  /** The object is there as `IsTenantWrite` says, and nothing else has changed. */
  ghost predicate WroteTenantObject(s: Store, t: Store, key: Key, labels: Labels, tenant: Uid, content: Content) {
    && IsTenantWrite(Lookup(s.objects, key), Lookup(t.objects, key), labels, tenant, content)
    && (forall k :: k != key ==> Lookup(t.objects, k) == Lookup(s.objects, k)) && t == s.(objects := t.objects)
  }

  lemma TenantWriteShape(s: Store, q: Project, key: Key, labels: Labels, tenant: Uid, content: Content)
    ensures var t := s.(objects := PutTenant(s.objects, key, labels, tenant, content));
      WroteTenantObject(s, t, key, labels, tenant, content) && SameRefusals(q, s, t)
  {
    var after := TenantObject(Lookup(s.objects, key), labels, tenant, content);
    assert IsTenantWrite(Lookup(s.objects, key), Some(after), labels, tenant, content);
    assert MayControl(after.controller, q) <==> !IsRefused(s, q, key);
  }

  method ReconcileTenantObject(c: Client, q: Project, e: Entry, tenant: Uid, key: Key, content: Content,
                               ghost since: Trace)
    returns (err: Err)
    requires Working(c, q, e, tenant, since) && IsTenantKind(key.kind) && key.namespace == Tenant(e)
    modifies c
    ensures Working(c, q, e, tenant, since)
    ensures !err.Panic?
    ensures c.quiet && err.Ok? ==>
      c.store == old(c.store).(objects :=
        PutTenant(old(c.store).objects, key, ManagedLabels(q.name, e), tenant, content))
    ensures c.quiet && err.Ok? ==>
      WroteTenantObject(old(c.store), c.store, key, ManagedLabels(q.name, e), tenant, content)
    ensures c.quiet && err.Ok? ==> SameRefusals(q, old(c.store), c.store)
    ensures c.reliable ==> (err.Ok? <==> key.kind in c.store.served)
  {
    var found, status := c.Get(q, key, since);
    err := status;
    if !err.Ok? && !err.NotFound? { return; }
    TenantWritePermitted(c.store, q, e, tenant, key, content);
    AdoptedLater(since, c.trace, q, Tenant(e), tenant);
    TenantWriteShape(c.store, q, key, ManagedLabels(q.name, e), tenant, content);
    err := c.WriteTenantObject(q, key, TenantObject(found, ManagedLabels(q.name, e), tenant, content), tenant, since);
  }

  /** `after` has the content and the project as controller; labels of an object that was there change only on
      `relabel`. */
  ghost predicate IsOwnedWrite(before: Option<Object>, after: Option<Object>, labels: Labels, project: Uid,
                               content: Content, relabel: bool)
  {
    && after.Some? && after.value.content == content && after.value.controller == Some(project)
    && (before.None? ==> after.value.labels == labels)
    && (before.Some? && relabel ==> Relabelled(before.value.labels, labels, after.value.labels))
    && (before.Some? && !relabel ==> after.value.labels == before.value.labels)
    && (before.Some? ==> after.value.owners == before.value.owners)
  }

  ghost predicate WroteOwnedObject(s: Store, t: Store, key: Key, labels: Labels, project: Uid, content: Content,
                                   relabel: bool)
  {
    && IsOwnedWrite(Lookup(s.objects, key), Lookup(t.objects, key), labels, project, content, relabel)
    && (forall k :: k != key ==> Lookup(t.objects, k) == Lookup(s.objects, k)) && t == s.(objects := t.objects)
  }

  lemma OwnedWriteShape(s: Store, q: Project, key: Key, labels: Labels, content: Content, relabel: bool)
    requires !IsRefused(s, q, key)
    ensures var t := s.(objects := PutOwned(s.objects, key, labels, q.uid, content, relabel));
      WroteOwnedObject(s, t, key, labels, q.uid, content, relabel) && SameRefusals(q, s, t)
  {
    var after := OwnedObject(Lookup(s.objects, key), labels, q.uid, content, relabel);
    assert IsOwnedWrite(Lookup(s.objects, key), Some(after), labels, q.uid, content, relabel);
  }

  /** Groups, EgressIPs and AppProjects; one with another controller is refused, and then nothing is written. */
  method ReconcileOwnedObject(c: Client, q: Project, e: Entry, tenant: Uid, key: Key, labels: Labels, content: Content,
                              relabel: bool, ghost since: Trace)
    returns (err: Err)
    requires Working(c, q, e, tenant, since) && !IsTenantKind(key.kind)
    requires key.kind == EgressIPObjects ==> key.name == Tenant(e)
    modifies c
    ensures Working(c, q, e, tenant, since)
    ensures !err.Panic?
    ensures err.AlreadyOwned? ==> IsRefused(c.store, q, key) && OthersExtend(q.name, old(c.trace), c.trace)
    ensures c.quiet && IsRefused(old(c.store), q, key) ==> !err.Ok? && c.store == old(c.store)
    ensures c.quiet && err.Ok? ==>
      c.store == old(c.store).(objects := PutOwned(old(c.store).objects, key, labels, q.uid, content, relabel))
    ensures c.quiet && err.Ok? ==> WroteOwnedObject(old(c.store), c.store, key, labels, q.uid, content, relabel)
    ensures c.quiet && err.Ok? ==> SameRefusals(q, old(c.store), c.store)
    ensures c.reliable && c.quiet ==> (err.Ok? <==> key.kind in c.store.served && !IsRefused(old(c.store), q, key))
  {
    var found, status := c.Get(q, key, since);
    err := status;
    if !err.Ok? && !err.NotFound? { return; }
    if found.Some? && !MayControl(found.value.controller, q) { return AlreadyOwned; }
    OwnedWritePermitted(c.store, q, e, key, labels, content, relabel);
    OwnedWriteShape(c.store, q, key, labels, content, relabel);
    err := c.WriteOwnedObject(q, key, OwnedObject(found, labels, q.uid, content, relabel), since);
  }

  // ---------------------------------------------------------------- the stages

  method ResolveNamespaceSpec(c: Client, q: Project, e: Entry, ghost since: Trace) returns (r: Resolved, err: Err)
    requires c.Ready(q, since)
    modifies c
    ensures err.Ok? || err.Fault? || err.Invalid?
    ensures c.Ready(q, since)
    ensures c.quiet ==> c.store == old(c.store)
    ensures err.Ok? ==> SizeKnown(c.store.sizes, e)
    ensures err.Ok? && e.projectSize == "" ==> r == Resolved(e.resourceQuotas, e.limitRanges)
    ensures err.Ok? && e.projectSize != "" ==> Resolves(c.store.sizes[e.projectSize], e, r)
    ensures err.Invalid? ==> !SizeKnown(c.store.sizes, e)
    ensures c.reliable ==> (err.Ok? <==> SizeKnown(c.store.sizes, e))
  {
    r := Resolved(e.resourceQuotas, e.limitRanges);
    if e.projectSize == "" { return r, Ok; }
    c.Observe(q, since);
    var fault: bool := *;
    if fault && !c.reliable { return r, Fault; }
    if e.projectSize !in c.store.sizes { return r, Invalid; }
    r := ResolveOnto(c.store.sizes[e.projectSize], e);
    err := Ok;
  }

  method BuildDesiredLabels(q: Project, e: Entry) returns (labels: Labels)
    ensures labels == DesiredLabels(q.name, GitOpsNamespace(q.gitOps, e), e)
    ensures forall key :: Lookup(labels, key) == DesiredLabel(q.name, GitOpsNamespace(q.gitOps, e), e, key)
  {
    forall key {
      LabelPrecedence(q.name, GitOpsNamespace(q.gitOps, e), e, key);
    }
    labels := ManagedLabels(q.name, e) + e.labels;
    labels := ApplyAdditionalSettingsLabels(labels, e.additionalSettings);
    if e.projectSize != "" { labels := labels[NamespaceSize := e.projectSize]; }
    if WantsEgress(e) { labels := labels[Env := Tenant(e)]; }
    if GitOpsNamespace(q.gitOps, e) != "" { labels := labels[ArgoManagedBy := GitOpsNamespace(q.gitOps, e)]; }
  }

  predicate IsTaken(s: Store, q: Project, n: string) {
    n in s.namespaces && !MayControl(s.namespaces[n].controller, q)
  }

  lemma EntryKeepsLabels(c: Client, q: Project, e: Entry)
    requires c.Valid() && Running(c.trace, q) && e in q.entries
    ensures KeepsLabels(q.name, e)
  {
    RunningOk(c.trace, q);
    var i :| 0 <= i < |q.entries| && q.entries[i] == e;
    assert KeepsLabels(q.name, q.entries[i]);
  }

  /** The namespace carries, key by key, what the entry desires over what was there, and the project controls it;
      one that was there keeps its incarnation and its terminating mark. */
  ghost predicate IsAdopted(before: Option<Namespace>, after: Namespace, q: Project, e: Entry) {
    && (forall key :: Lookup(after.labels, key) == OrElse(
          DesiredLabel(q.name, GitOpsNamespace(q.gitOps, e), e, key),
          if before.Some? then Lookup(before.value.labels, key) else None))
    && (forall key :: Lookup(after.annotations, key) == OrElse(
          Lookup(e.annotations, key), if before.Some? then Lookup(before.value.annotations, key) else None))
    && after.controller == Some(q.uid)
    && (before.Some? ==> after.uid == before.value.uid && after.terminating == before.value.terminating)
    && (before.None? ==> !after.terminating)
  }

  ghost predicate AdoptedIn(s: Store, t: Store, q: Project, e: Entry) {
    && Tenant(e) in t.namespaces && IsAdopted(Lookup(s.namespaces, Tenant(e)), t.namespaces[Tenant(e)], q, e)
    && (forall m :: m != Tenant(e) ==> Lookup(t.namespaces, m) == Lookup(s.namespaces, m))
  }

  /** The namespace has the labels and annotations over those of `before`, and the project as controller. */
  ghost predicate IsShaped(before: Option<Namespace>, after: Namespace, q: Project, labels: Labels,
                           annotations: map<string, string>)
  {
    && (forall key :: Lookup(after.labels, key)
          == OrElse(Lookup(labels, key), if before.Some? then Lookup(before.value.labels, key) else None))
    && (forall key :: Lookup(after.annotations, key)
          == OrElse(Lookup(annotations, key), if before.Some? then Lookup(before.value.annotations, key) else None))
    && after.controller == Some(q.uid)
    && (before.Some? ==> after.uid == before.value.uid && after.terminating == before.value.terminating)
    && (before.None? ==> !after.terminating)
  }

  lemma ShapedNamespace(before: Namespace, q: Project, labels: Labels, annotations: map<string, string>)
    ensures IsShaped(Some(before),
      before.(labels := before.labels + labels, annotations := before.annotations + annotations,
              controller := Some(q.uid)), q, labels, annotations)
  {
  }

  lemma AdoptShape(s: Store, q: Project, n: string, labels: Labels, annotations: map<string, string>)
    ensures n in Adopt(s, q, n, labels, annotations).namespaces
    ensures IsShaped(Lookup(s.namespaces, n), Adopt(s, q, n, labels, annotations).namespaces[n], q, labels, annotations)
    ensures forall m :: m != n ==> Lookup(Adopt(s, q, n, labels, annotations).namespaces, m) == Lookup(s.namespaces, m)
  {
    if n in s.namespaces {
      ShapedNamespace(s.namespaces[n], q, labels, annotations);
    }
  }

  lemma AdoptionShape(s: Store, q: Project, e: Entry)
    ensures AdoptedIn(s, AdoptedTenant(s, q, e), q, e)
  {
    forall key {
      LabelPrecedence(q.name, GitOpsNamespace(q.gitOps, e), e, key);
    }
    var labels := DesiredLabels(q.name, GitOpsNamespace(q.gitOps, e), e);
    AdoptShape(s, q, Tenant(e), labels, e.annotations);
  }

  /** Create or patch the tenant namespace; one that another project controls is refused before any write. */
  method ReconcileNamespaceObject(c: Client, q: Project, e: Entry, ghost since: Trace)
    returns (tenant: Uid, err: Err)
    requires c.Ready(q, since) && !q.deleting && e in q.entries && IsActive(e) && Holds(Now(since), q)
    modifies c
    ensures c.Ready(q, since)
    ensures !err.Panic?
    ensures err.Ok? ==> AdoptedOnce(c.trace, q, Tenant(e), tenant)
    ensures err.AlreadyOwned? ==> IsTaken(c.store, q, Tenant(e)) && OthersExtend(q.name, old(c.trace), c.trace)
    ensures c.quiet && IsTaken(old(c.store), q, Tenant(e)) ==> !err.Ok? && c.store == old(c.store)
    ensures c.quiet && err.Ok? ==>
      c.store == AdoptedTenant(old(c.store), q, e) && tenant == c.store.namespaces[Tenant(e)].uid
    ensures c.quiet && err.Ok? ==> AdoptedIn(old(c.store), c.store, q, e)
    ensures c.reliable && c.quiet ==> (err.Ok? <==> !IsTaken(old(c.store), q, Tenant(e)))
  {
    AdoptionShape(c.store, q, e);
    tenant := NamespaceUid("", 0);
    var found, status := c.GetNamespace(q, Tenant(e), since);
    err := status;
    if !err.Ok? && !err.NotFound? { return; }
    var labels := BuildDesiredLabels(q, e);
    if found.Some? && !MayControl(found.value.controller, q) {
      err := AlreadyOwned;
      return;
    }
    EntryKeepsLabels(c, q, e);
    DesiredLabelsManaged(q.name, GitOpsNamespace(q.gitOps, e), e);
    ActiveEntry(q, e);
    err := c.Act(q, AdoptNamespace(Tenant(e), labels, e.annotations), since);
    if err.Ok? { tenant := c.store.namespaces[Tenant(e)].uid; }
  }

  method ReconcileResourceQuota(c: Client, q: Project, e: Entry, tenant: Uid, spec: ResourceQuotaSpec,
                                ghost since: Trace)
    returns (err: Err)
    requires Working(c, q, e, tenant, since)
    modifies c
    ensures Working(c, q, e, tenant, since)
    ensures !QuotaParses(spec) ==> c.store == old(c.store)
    ensures err.Panic? <==> !QuotaParses(spec)
    ensures c.quiet && err.Ok? ==>
      c.store == old(c.store).(objects := PutQuota(old(c.store).objects, q, e, tenant, Some(Hard(Meaning(spec)))))
    ensures c.reliable ==> (err.Ok? <==> QuotaParses(spec) && ResourceQuotas in c.store.served)
    ensures c.quiet && err.Ok? ==> SameRefusals(q, old(c.store), c.store)
  {
    var hard := BuildResourceQuotaHard(spec);
    if hard.None? { return Panic; }
    err := ReconcileTenantObject(c, q, e, tenant, QuotaKey(Tenant(e)), Quota(hard.value), since);
  }

  method ReconcileLimitRange(c: Client, q: Project, e: Entry, tenant: Uid, spec: LimitRangeSpec, ghost since: Trace)
    returns (err: Err)
    requires Working(c, q, e, tenant, since)
    modifies c
    ensures Working(c, q, e, tenant, since)
    ensures !LimitsParse(spec) ==> c.store == old(c.store)
    ensures err.Panic? <==> !LimitsParse(spec)
    ensures c.quiet && err.Ok? ==>
      c.store == old(c.store).(objects := PutLimits(old(c.store).objects, q, e, tenant, Some(LimitItems(spec))))
    ensures c.reliable ==> (err.Ok? <==> LimitsParse(spec) && LimitRanges in c.store.served)
    ensures c.quiet && err.Ok? ==> SameRefusals(q, old(c.store), c.store)
  {
    var items := BuildLimitRangeItems(spec);
    if items.None? { return Panic; }
    err := ReconcileTenantObject(c, q, e, tenant, LimitKey(Tenant(e)), Limits(items.value), since);
  }

  method ReconcilePolicies(c: Client, q: Project, e: Entry, tenant: Uid, policies: seq<NamedPolicy>, ghost since: Trace)
    returns (err: Err)
    requires Working(c, q, e, tenant, since)
    modifies c
    ensures Working(c, q, e, tenant, since)
    ensures !err.Panic?
    ensures c.quiet && err.Ok? ==> c.store == old(c.store).(objects :=
      PutPolicies(old(c.store).objects, Tenant(e), policies, ManagedLabels(q.name, e), tenant))
    ensures c.reliable && NetworkPolicies in c.store.served ==> err.Ok?
    ensures c.quiet && err.Ok? ==> SameRefusals(q, old(c.store), c.store)
  {
    ghost var start := c.store;
    for i := 0 to |policies|
      invariant Working(c, q, e, tenant, since)
      invariant c.quiet ==> c.store == start.(objects :=
        PutPolicies(start.objects, Tenant(e), policies[..i], ManagedLabels(q.name, e), tenant))
      invariant c.quiet ==> SameRefusals(q, start, c.store)
    {
      assert policies[..i + 1][..i] == policies[..i];
      var key := PolicyKey(Tenant(e), policies[i].name);
      err := ReconcileTenantObject(c, q, e, tenant, key, Policy(policies[i].spec), since);
      if !err.Ok? { return; }
    }
    assert policies[..|policies|] == policies;
    err := Ok;
  }

  method ReconcileDefaultNetworkPolicies(c: Client, q: Project, e: Entry, tenant: Uid, ghost since: Trace)
    returns (err: Err)
    requires Working(c, q, e, tenant, since)
    modifies c
    ensures Working(c, q, e, tenant, since)
    ensures !err.Panic?
    ensures c.quiet && err.Ok? ==> c.store == old(c.store).(objects :=
      PutPolicies(old(c.store).objects, Tenant(e), DefaultPolicyList(e.defaultPolicies), ManagedLabels(q.name, e),
                  tenant))
    ensures c.reliable && NetworkPolicies in c.store.served ==> err.Ok?
    ensures c.quiet && err.Ok? ==> SameRefusals(q, old(c.store), c.store)
  {
    var policies := DefaultNetworkPolicies(e.defaultPolicies);
    err := ReconcilePolicies(c, q, e, tenant, policies, since);
  }

  method ReconcileCustomNetworkPolicies(c: Client, q: Project, e: Entry, tenant: Uid, ghost since: Trace)
    returns (err: Err)
    requires Working(c, q, e, tenant, since)
    modifies c
    ensures Working(c, q, e, tenant, since)
    ensures !err.Panic?
    ensures c.quiet && err.Ok? ==> c.store == old(c.store).(objects :=
      PutPolicies(old(c.store).objects, Tenant(e), ActivePolicies(e.networkPolicies), ManagedLabels(q.name, e), tenant))
    ensures c.reliable && NetworkPolicies in c.store.served ==> err.Ok?
    ensures c.quiet && err.Ok? ==> SameRefusals(q, old(c.store), c.store)
  {
    ghost var start := c.store;
    var customs := e.networkPolicies;
    for i := 0 to |customs|
      invariant Working(c, q, e, tenant, since)
      invariant c.quiet ==> c.store == start.(objects :=
        PutPolicies(start.objects, Tenant(e), ActivePolicies(customs[..i]), ManagedLabels(q.name, e), tenant))
      invariant c.quiet ==> SameRefusals(q, start, c.store)
    {
      assert customs[..i + 1][..i] == customs[..i];
      if IsEnabled(customs[i].active) {
        var desired := BuildCustomNetworkPolicy(customs[i]);
        ghost var active := ActivePolicies(customs[..i]);
        assert (active + [desired])[..|active|] == active;
        err := ReconcileTenantObject(c, q, e, tenant, PolicyKey(Tenant(e), desired.name), Policy(desired.spec), since);
        if !err.Ok? { return; }
      }
    }
    assert customs[..|customs|] == customs;
    err := Ok;
  }

  predicate AdminsReconcilable(s: Store, q: Project, e: Entry) {
    WantsGroup(e) ==> Groups in s.served && !IsRefused(s, q, GroupKey(e))
  }

  predicate EgressReconcilable(s: Store, q: Project, e: Entry) {
    WantsEgress(e) ==>
      e.egressIPs.value.ips != [] && EgressIPObjects in s.served && !IsRefused(s, q, EgressKey(Tenant(e)))
  }

  /** The first `i` projects can be written. */
  predicate ArgoWritable(s: Store, q: Project, e: Entry, i: nat)
    requires i <= |e.argoCDProjects|
  {
    forall j | 0 <= j < i && IsOptInEnabled(e.argoCDProjects[j].enabled) ::
      AppProjects in s.served && !IsRefused(s, q, ArgoKey(GitOpsNamespace(q.gitOps, e), e.argoCDProjects[j]))
  }

  predicate ArgoReconcilable(s: Store, q: Project, e: Entry) {
    e.argoCDProjects != [] ==> GitOpsNamespace(q.gitOps, e) != "" && ArgoWritable(s, q, e, |e.argoCDProjects|)
  }

  /** The group, then its role binding. */
  method ReconcileLocalAdmins(c: Client, q: Project, e: Entry, tenant: Uid, ghost since: Trace) returns (err: Err)
    requires Working(c, q, e, tenant, since)
    modifies c
    ensures Working(c, q, e, tenant, since)
    ensures !err.Panic?
    ensures c.quiet && err.Ok? ==> c.store == old(c.store).(objects := PutGroup(old(c.store).objects, q, e, tenant))
    ensures c.quiet && err.Ok? ==> SameRefusals(q, old(c.store), c.store)
    ensures c.reliable && c.quiet && BuiltInServed(c.store) ==> (err.Ok? <==> AdminsReconcilable(old(c.store), q, e))
  {
    if !WantsGroup(e) { return Ok; }
    err := ReconcileOwnedObject(c, q, e, tenant, GroupKey(e), ManagedLabels(q.name, e),
                                Members(e.localAdminGroup.value.users), false, since);
    if !err.Ok? { return; }
    err := ReconcileTenantObject(c, q, e, tenant, BindingKey(e), Binding(GroupName(e), ClusterRoleName(e)), since);
  }

  method ReconcileEgressIP(c: Client, q: Project, e: Entry, tenant: Uid, ghost since: Trace) returns (err: Err)
    requires Working(c, q, e, tenant, since)
    modifies c
    ensures Working(c, q, e, tenant, since)
    ensures !err.Panic?
    ensures c.quiet && err.Ok? ==> c.store == old(c.store).(objects := PutEgress(old(c.store).objects, q, e))
    ensures WantsEgress(e) && e.egressIPs.value.ips == [] ==> err.Invalid? && c.store == old(c.store)
    ensures c.quiet && err.Ok? ==> SameRefusals(q, old(c.store), c.store)
    ensures c.reliable && c.quiet ==> (err.Ok? <==> EgressReconcilable(old(c.store), q, e))
  {
    if !WantsEgress(e) { return Ok; }
    if e.egressIPs.value.ips == [] { return Invalid; }
    err := ReconcileOwnedObject(c, q, e, tenant, EgressKey(Tenant(e)), ManagedLabels(q.name, e),
                                Addresses(e.egressIPs.value.ips, Tenant(e)), false, since);
  }

  lemma PutArgoNext(objects: Objects, q: Project, e: Entry, i: nat)
    requires i < |e.argoCDProjects|
    ensures var item, before := e.argoCDProjects[i], PutArgo(objects, q, e, e.argoCDProjects[..i]);
      PutArgo(objects, q, e, e.argoCDProjects[..i + 1])
      == if IsOptInEnabled(item.enabled) then
           PutOwned(before, ArgoKey(GitOpsNamespace(q.gitOps, e), item), ArgoLabels(q.name, e), q.uid,
                    ArgoBody(item.body), true)
         else before
  {
    assert e.argoCDProjects[..i + 1][..i] == e.argoCDProjects[..i];
  }

  method ReconcileArgoCDProjects(c: Client, q: Project, e: Entry, tenant: Uid, ghost since: Trace) returns (err: Err)
    requires Working(c, q, e, tenant, since)
    modifies c
    ensures Working(c, q, e, tenant, since)
    ensures !err.Panic?
    ensures c.quiet && err.Ok? ==>
      c.store == old(c.store).(objects := PutArgo(old(c.store).objects, q, e, e.argoCDProjects))
    ensures e.argoCDProjects != [] && GitOpsNamespace(q.gitOps, e) == "" ==> err.Invalid? && c.store == old(c.store)
    ensures c.quiet && err.Ok? ==> SameRefusals(q, old(c.store), c.store)
    ensures c.reliable && c.quiet ==> (err.Ok? <==> ArgoReconcilable(old(c.store), q, e))
  {
    ghost var start := c.store;
    var projects := e.argoCDProjects;
    if |projects| == 0 { return Ok; }
    var argoNamespace := GitOpsNamespace(q.gitOps, e);
    if argoNamespace == "" { return Invalid; }
    for i := 0 to |projects|
      invariant Working(c, q, e, tenant, since)
      invariant c.quiet ==> c.store == start.(objects := PutArgo(start.objects, q, e, projects[..i]))
      invariant c.quiet ==> SameRefusals(q, start, c.store)
      invariant c.quiet && c.reliable ==> ArgoWritable(start, q, e, i)
    {
      PutArgoNext(start.objects, q, e, i);
      if IsOptInEnabled(projects[i].enabled) {
        err := ReconcileOwnedObject(c, q, e, tenant, ArgoKey(argoNamespace, projects[i]), ArgoLabels(q.name, e),
                                    ArgoBody(projects[i].body), true, since);
        if !err.Ok? { return; }
      }
    }
    assert projects[..|projects|] == projects;
    err := Ok;
  }

  lemma NamesAppend(policies: seq<NamedPolicy>, p: NamedPolicy)
    ensures NamesOf(policies + [p]) == NamesOf(policies) + {p.name}
  {
    var all := policies + [p];
    assert all[|policies|] == p;
    assert forall i :: 0 <= i < |policies| ==> all[i] == policies[i];
  }

  lemma NamesConcat(a: seq<NamedPolicy>, b: seq<NamedPolicy>)
    ensures NamesOf(a + b) == NamesOf(a) + NamesOf(b)
  {
    assert forall i :: 0 <= i < |a| ==> (a + b)[i] == a[i];
    assert forall i :: 0 <= i < |b| ==> (a + b)[|a| + i] == b[i];
  }

  method CollectNames(policies: seq<NamedPolicy>) returns (names: set<string>)
    ensures names == NamesOf(policies)
  {
    names := {};
    for i := 0 to |policies|
      invariant names == NamesOf(policies[..i])
    {
      NamesAppend(policies[..i], policies[i]);
      assert policies[..i + 1] == policies[..i] + [policies[i]];
      names := names + {policies[i].name};
    }
    assert policies[..|policies|] == policies;
  }

  method DesiredNetworkPolicyNames(e: Entry) returns (names: set<string>)
    ensures names == PolicyNames(e)
  {
    var policies := DefaultNetworkPolicies(e.defaultPolicies);
    names := CollectNames(policies);
    ghost var defaults := names;
    var customs := e.networkPolicies;
    for i := 0 to |customs|
      invariant names == defaults + NamesOf(ActivePolicies(customs[..i]))
    {
      assert customs[..i + 1][..i] == customs[..i];
      if IsEnabled(customs[i].active) {
        NamesAppend(ActivePolicies(customs[..i]), NamedPolicy(Sanitize(customs[i].name), CustomSpec(customs[i])));
        names := names + {Sanitize(customs[i].name)};
      }
    }
    assert customs[..|customs|] == customs;
    NamesConcat(DefaultPolicyList(e.defaultPolicies), ActivePolicies(customs));
  }

  // ---------------------------------------------------------------- pruning, and the whole entry

  method EnabledProjectNames(e: Entry) returns (names: set<string>)
    ensures names == ArgoNames(e)
  {
    names := {};
    var projects := e.argoCDProjects;
    for i := 0 to |projects|
      invariant names == set j | 0 <= j < i && IsOptInEnabled(projects[j].enabled) :: Sanitize(projects[j].name)
    {
      if IsOptInEnabled(projects[i].enabled) { names := names + {Sanitize(projects[i].name)}; }
    }
  }

  predicate QuotaOn(r: Resolved) {
    r.resourceQuotas.Some? && IsEnabled(r.resourceQuotas.value.enabled)
  }

  predicate LimitsOn(r: Resolved) {
    r.limitRanges.Some? && IsEnabled(r.limitRanges.value.enabled)
  }

  method PruneNamespaceResources(c: Client, q: Project, e: Entry, tenant: Uid, r: Resolved, ghost since: Trace)
    returns (err: Err)
    requires Working(c, q, e, tenant, since)
    modifies c
    ensures Working(c, q, e, tenant, since)
    ensures !err.Panic?
    ensures c.quiet && err.Ok? ==>
      c.store == old(c.store).(objects := PrunedObjects(old(c.store).objects, q, e, QuotaOn(r), LimitsOn(r)))
    ensures c.reliable && BuiltInServed(c.store) ==> err.Ok?
  {
    var n := Tenant(e);
    ActiveEntry(q, e);
    assert MayStrip(q, n);
    if !QuotaOn(r) {
      err := DeleteManaged(c, q, QuotaKey(n), e, since);
      if !err.Ok? { return; }
    }
    if !LimitsOn(r) {
      err := DeleteManaged(c, q, LimitKey(n), e, since);
      if !err.Ok? { return; }
    }
    var keep := DesiredNetworkPolicyNames(e);
    err := PruneManagedNetworkPolicies(c, q, keep, e, since);
    if !err.Ok? { return; }
    if !WantsGroup(e) {
      err := DeleteManaged(c, q, BindingKey(e), e, since);
      if !err.Ok? { return; }
      err := DeleteManaged(c, q, GroupKey(e), e, since);
      if !err.Ok? { return; }
    }
    if !WantsEgress(e) {
      err := DeleteManaged(c, q, EgressKey(n), e, since);
      if !err.Ok? { return; }
    }
    var projects := EnabledProjectNames(e);
    err := DeleteAppProjectsForNamespace(c, q, projects, e, since);
  }

  function HardOf(r: Resolved): Option<map<Resource, string>> {
    if QuotaOn(r) then Some(Hard(Meaning(r.resourceQuotas.value))) else None
  }

  function ItemsOf(r: Resolved): Option<seq<LimitRangeItem>> {
    if LimitsOn(r) then Some(LimitItems(r.limitRanges.value)) else None
  }

  /** What a resolution compiles to is what the catalogue and the entry desire. */
  lemma ResolvedDesires(sizes: Catalogue, e: Entry, r: Resolved)
    requires SizeKnown(sizes, e)
    requires e.projectSize == "" ==> r == Resolved(e.resourceQuotas, e.limitRanges)
    requires e.projectSize != "" ==> Resolves(sizes[e.projectSize], e, r)
    ensures DesiredHard(sizes, e) == HardOf(r)
    ensures DesiredItems(sizes, e) == ItemsOf(r)
  {
    if r.resourceQuotas.Some? {
      assert Meaning(r.resourceQuotas.value).enabled == r.resourceQuotas.value.enabled;
    }
    if r.limitRanges.Some? {
      var spec := r.limitRanges.value;
      if e.projectSize == "" {
        NothingOverridden(spec, spec.enabled);
        assert spec.(enabled := spec.enabled) == spec;
        MergedLimitItems(spec, spec, EMPTY_LIMITS);
      } else {
        var overwrite := IsOptInEnabled(e.overwriteTshirt);
        var pair := LimitSources(sizes[e.projectSize], LimitsWanted(e), overwrite, e.limitRanges);
        MergedLimitItems(spec, pair.value.base, pair.value.over);
      }
    }
  }

  /** Every text of the blocks in force is a quantity. */
  predicate Compiles(r: Resolved) {
    && (QuotaOn(r) ==> QuotaParses(r.resourceQuotas.value))
    && (LimitsOn(r) ==> LimitsParse(r.limitRanges.value))
  }

  /** Quota and limit range, as far as they are in force. */
  method WriteSizes(c: Client, q: Project, e: Entry, tenant: Uid, r: Resolved, ghost since: Trace) returns (err: Err)
    requires Working(c, q, e, tenant, since)
    modifies c
    ensures Working(c, q, e, tenant, since)
    ensures (err.Panic? ==> !Compiles(r)) && (err.Ok? ==> Compiles(r))
    ensures c.quiet && err.Ok? ==> c.store == old(c.store).(objects :=
      PutLimits(PutQuota(old(c.store).objects, q, e, tenant, HardOf(r)), q, e, tenant, ItemsOf(r)))
    ensures c.quiet && err.Ok? ==> SameRefusals(q, old(c.store), c.store)
    ensures c.reliable && BuiltInServed(c.store) ==> (err.Ok? <==> Compiles(r))
  {
    err := Ok;
    if QuotaOn(r) {
      err := ReconcileResourceQuota(c, q, e, tenant, r.resourceQuotas.value, since);
      if !err.Ok? { return; }
    }
    if LimitsOn(r) {
      err := ReconcileLimitRange(c, q, e, tenant, r.limitRanges.value, since);
    }
  }

  /** Everything an entry wants besides its sizes can be written. */
  predicate Writable(s: Store, q: Project, e: Entry) {
    AdminsReconcilable(s, q, e) && EgressReconcilable(s, q, e) && ArgoReconcilable(s, q, e)
  }

  lemma WritableKept(q: Project, s: Store, t: Store, e: Entry)
    requires SameRefusals(q, s, t) && s.served == t.served
    ensures AdminsReconcilable(s, q, e) <==> AdminsReconcilable(t, q, e)
    ensures EgressReconcilable(s, q, e) <==> EgressReconcilable(t, q, e)
    ensures ArgoReconcilable(s, q, e) <==> ArgoReconcilable(t, q, e)
  {
    assert ArgoWritable(s, q, e, |e.argoCDProjects|) <==> ArgoWritable(t, q, e, |e.argoCDProjects|);
  }

  /** Policies, then everything else besides the sizes. */
  method WriteRest(c: Client, q: Project, e: Entry, tenant: Uid, ghost since: Trace) returns (err: Err)
    requires Working(c, q, e, tenant, since)
    modifies c
    ensures Working(c, q, e, tenant, since)
    ensures !err.Panic?
    ensures c.quiet && err.Ok? ==> c.store == old(c.store).(objects :=
      PutArgo(PutEgress(PutGroup(PutAllPolicies(old(c.store).objects, q, e, tenant), q, e, tenant), q, e), q, e,
              e.argoCDProjects))
    ensures c.reliable && c.quiet && BuiltInServed(c.store) ==> (err.Ok? <==> Writable(old(c.store), q, e))
  {
    ghost var start := c.store;
    err := ReconcileDefaultNetworkPolicies(c, q, e, tenant, since);
    if !err.Ok? { return; }
    err := ReconcileCustomNetworkPolicies(c, q, e, tenant, since);
    if !err.Ok? { return; }
    if c.quiet { WritableKept(q, start, c.store, e); }
    err := ReconcileLocalAdmins(c, q, e, tenant, since);
    if !err.Ok? { return; }
    if c.quiet { WritableKept(q, start, c.store, e); }
    err := ReconcileEgressIP(c, q, e, tenant, since);
    if !err.Ok? { return; }
    if c.quiet { WritableKept(q, start, c.store, e); }
    err := ReconcileArgoCDProjects(c, q, e, tenant, since);
  }

  method WriteTenant(c: Client, q: Project, e: Entry, tenant: Uid, r: Resolved, ghost since: Trace) returns (err: Err)
    requires Working(c, q, e, tenant, since)
    modifies c
    ensures Working(c, q, e, tenant, since)
    ensures (err.Panic? ==> !Compiles(r)) && (err.Ok? ==> Compiles(r))
    ensures c.quiet && err.Ok? ==>
      c.store == old(c.store).(objects := WrittenObjects(old(c.store).objects, q, e, tenant, HardOf(r), ItemsOf(r)))
    ensures c.reliable && c.quiet && BuiltInServed(c.store) ==>
      (err.Ok? <==> Compiles(r) && Writable(old(c.store), q, e))
  {
    ghost var start := c.store;
    err := WriteSizes(c, q, e, tenant, r, since);
    if !err.Ok? { return; }
    if c.quiet { WritableKept(q, start, c.store, e); }
    err := WriteRest(c, q, e, tenant, since);
  }

  // ---------------------------------------------------------------- when the parser panics

  /** Admitted, and nothing in it is padded or blank. */
  predicate SoundBlocks(quotas: Option<ResourceQuotaSpec>, limits: Option<LimitRangeSpec>) {
    AdmitsBlocks(quotas, limits) && BlocksTrimmed(quotas, limits)
  }

  predicate SoundEntry(e: Entry) {
    SoundBlocks(e.resourceQuotas, e.limitRanges)
  }

  predicate SoundSizes(sizes: Catalogue) {
    forall n | n in sizes :: SoundBlocks(sizes[n].resourceQuotas, sizes[n].limitRanges)
  }

  /** The catalogue was sound all the time. */
  predicate SoundHistory(t: Trace) {
    SoundSizes(Now(t).sizes) && (t.Then? ==> SoundHistory(t.past))
  }

  lemma {:induction false} SoundEarlier(name: string, t: Trace, later: Trace)
    requires SameRun(name, t, later) && SoundHistory(later)
    ensures SoundHistory(t)
  {
    if t == later {
    } else {
      SoundEarlier(name, t, later.past);
    }
  }

  lemma SoundQuotaParses(q: ResourceQuotaSpec)
    requires AdmitsQuota(q) && QuotaTrimmed(q)
    ensures QuotaParses(q)
  {
    forall r | r in QUOTA_FIELDS
      ensures AdmitsField(q, r)
    {
      AdmittedFields(q, r);
    }
    AdmittedQuotaCompiles(q);
  }

  lemma SoundLimitsParse(spec: LimitRangeSpec)
    requires AdmitsLimits(spec) && LimitsTrimmed(spec)
    ensures LimitsParse(spec)
  {
    forall slot
      ensures AdmitsSlot(spec, slot)
    {
      AdmittedSlots(spec, slot);
    }
    AdmittedLimitsCompile(spec);
  }

  /** A sound entry and a sound catalogue resolve to blocks that compile. */
  lemma SoundCompiles(sizes: Catalogue, e: Entry, r: Resolved)
    requires SizeKnown(sizes, e) && SoundEntry(e) && SoundSizes(sizes)
    requires e.projectSize == "" ==> r == Resolved(e.resourceQuotas, e.limitRanges)
    requires e.projectSize != "" ==> Resolves(sizes[e.projectSize], e, r)
    ensures Compiles(r)
  {
    if e.projectSize == "" {
      if e.resourceQuotas.Some? { SoundQuotaParses(e.resourceQuotas.value); }
      if e.limitRanges.Some? { SoundLimitsParse(e.limitRanges.value); }
    } else {
      if r.resourceQuotas.Some? { ResolvedQuotaCompiles(sizes[e.projectSize], e, r); }
      if r.limitRanges.Some? { ResolvedLimitsCompile(sizes[e.projectSize], e, r); }
    }
  }

  // ---------------------------------------------------------------- the whole entry

  method ReconcileTenant(c: Client, q: Project, e: Entry, tenant: Uid, r: Resolved, ghost since: Trace)
    returns (err: Err)
    requires Working(c, q, e, tenant, since)
    modifies c
    ensures Working(c, q, e, tenant, since)
    ensures (err.Panic? ==> !Compiles(r)) && (err.Ok? ==> Compiles(r))
    ensures c.quiet && err.Ok? ==> c.store == old(c.store).(objects :=
      ReconciledObjects(old(c.store).objects, q, e, tenant, HardOf(r), ItemsOf(r)))
    ensures c.reliable && c.quiet && BuiltInServed(c.store) ==>
      (err.Ok? <==> Compiles(r) && Writable(old(c.store), q, e))
  {
    err := WriteTenant(c, q, e, tenant, r, since);
    if !err.Ok? { return; }
    err := PruneNamespaceResources(c, q, e, tenant, r, since);
  }

  method ReconcileResolved(c: Client, q: Project, e: Entry, r: Resolved, ghost since: Trace) returns (err: Err)
    requires c.Ready(q, since) && !q.deleting && e in q.entries && IsActive(e) && Holds(Now(since), q)
    modifies c
    ensures c.Ready(q, since)
    ensures (err.Panic? ==> !Compiles(r)) && (err.Ok? ==> Compiles(r))
    ensures c.quiet && err.Ok? ==>
      var adopted := AdoptedTenant(old(c.store), q, e);
      c.store == adopted.(objects :=
        ReconciledObjects(adopted.objects, q, e, adopted.namespaces[Tenant(e)].uid, HardOf(r), ItemsOf(r)))
    ensures c.reliable && c.quiet && BuiltInServed(c.store) ==>
      (err.Ok? <==> !IsTaken(old(c.store), q, Tenant(e)) && Compiles(r) && Writable(old(c.store), q, e))
  {
    ghost var start := c.store;
    var tenant: Uid;
    tenant, err := ReconcileNamespaceObject(c, q, e, since);
    if !err.Ok? { return; }
    if c.quiet { WritableKept(q, start, c.store, e); }
    ghost var adopted := c.trace;
    err := ReconcileTenant(c, q, e, tenant, r, adopted);
    ProgressTransitive(q, since, adopted, c.trace);
  }

  lemma CompilesExactly(sizes: Catalogue, e: Entry, r: Resolved)
    requires SizeKnown(sizes, e)
    requires e.projectSize == "" ==> r == Resolved(e.resourceQuotas, e.limitRanges)
    requires e.projectSize != "" ==> Resolves(sizes[e.projectSize], e, r)
    ensures Compiles(r) <==> EntryCompiles(sizes, e)
  {
    ResolvedDesires(sizes, e, r);
    if r.resourceQuotas.Some? { QuotaParsesBy(r.resourceQuotas.value); }
    if r.limitRanges.Some? {
      var spec := r.limitRanges.value;
      if e.projectSize == "" {
        NothingOverridden(spec, spec.enabled);
        assert spec.(enabled := spec.enabled) == spec;
      }
      LimitsParseBy(spec, DesiredLimits(sizes, e).value);
    }
  }

  /** The size is known, nothing the entry writes has another controller, its texts parse, and what it wants is
      served and given. */
  predicate Reconcilable(s: Store, q: Project, e: Entry) {
    SizeKnown(s.sizes, e) && EntryCompiles(s.sizes, e) && !IsTaken(s, q, Tenant(e)) && Writable(s, q, e)
  }

  /** Reconciling an entry makes only writes that the run is entitled to, whatever others do meanwhile; undisturbed
      and without an error it leaves exactly the store that `Reconciled` describes. It panics only over an entry or a
      catalogue that is not sound. Undisturbed, and where no call fails, it succeeds exactly when the entry is
      reconcilable. */
  method ReconcileNamespace(c: Client, q: Project, e: Entry, ghost since: Trace) returns (err: Err)
    requires c.Ready(q, since) && !q.deleting && e in q.entries && IsActive(e) && Holds(Now(since), q)
    modifies c
    ensures c.Ready(q, since)
    ensures err.Panic? ==> !SoundEntry(e) || !SoundHistory(c.trace)
    ensures c.quiet && !SizeKnown(old(c.store).sizes, e) ==> !err.Ok? && c.store == old(c.store)
    ensures c.quiet && err.Ok? ==> SizeKnown(old(c.store).sizes, e) && c.store == Reconciled(old(c.store), q, e)
    ensures c.reliable && c.quiet && BuiltInServed(c.store) ==> (err.Ok? <==> Reconcilable(old(c.store), q, e))
  {
    var r: Resolved;
    r, err := ResolveNamespaceSpec(c, q, e, since);
    if !err.Ok? { return; }
    ghost var resolved := c.trace;
    ResolvedDesires(c.store.sizes, e, r);
    CompilesExactly(c.store.sizes, e, r);
    err := ReconcileResolved(c, q, e, r, resolved);
    ProgressTransitive(q, since, resolved, c.trace);
    if SoundEntry(e) && SoundHistory(c.trace) {
      SoundEarlier(q.name, resolved, c.trace);
      SoundCompiles(Now(resolved).sizes, e, r);
    }
  }
}
