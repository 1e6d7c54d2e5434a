/** The effect of a pass over the entries: tenant by tenant, and the same in every order of the entries. */
module Order {
  import opened Common
  import opened Sizing
  import opened Api
  import opened Resolution
  import opened Cluster
  import opened Cleanup
  import opened Reconcile
  import opened Convergence

  // ---------------------------------------------------------------- the effect of a run

  /** The undisturbed, error-free effect of one entry. */
  function EntryStep(s: Store, q: Project, e: Entry): Store {
    if IsOffboard(e) then Cleaned(s, q.name, e)
    else if !IsActive(e) || !SizeKnown(s.sizes, e) then s
    else Reconciled(s, q, e)
  }

  /** The undisturbed, error-free effect of the entries in order. */
  function Pass(s: Store, q: Project, entries: seq<Entry>): Store {
    if entries == [] then s
    else EntryStep(Pass(s, q, entries[..|entries| - 1]), q, entries[|entries| - 1])
  }

  lemma PassAppend(s: Store, q: Project, entries: seq<Entry>, i: nat)
    requires i < |entries|
    ensures Pass(s, q, entries[..i + 1]) == EntryStep(Pass(s, q, entries[..i]), q, entries[i])
  {
    assert entries[..i + 1][..i] == entries[..i];
  }

  /** The six kinds whose keys name their tenant. */
  predicate IsLocal(k: Key) {
    IsTenantKind(k.kind) || k.kind == EgressIPObjects
  }

  function TenantOf(k: Key): string {
    if IsTenantKind(k.kind) then k.namespace else k.name
  }

  /** The two stores agree on tenant `n`: its namespace, its birth count and the object under `k`. */
  predicate AgreeAt(s: Store, t: Store, n: string, k: Key) {
    && Lookup(s.namespaces, n) == Lookup(t.namespaces, n)
    && Births(s.births, n) == Births(t.births, n)
    && Lookup(s.objects, k) == Lookup(t.objects, k)
    && s.sizes == t.sizes
  }

  // ---------------------------------------------------------------- one entry acts on its tenant only

  /** What a cleanup makes of the object under a local key of the tenant. */
  function AfterCleanup(project: string, e: Entry, k: Key, o: Option<Object>): Option<Object> {
    if !Concerns(e, k) || (k.kind == EgressIPObjects && !WantsEgress(e)) then o else Dropped(o, project)
  }

  lemma CleanedAt(objects: Objects, project: string, e: Entry, k: Key)
    requires IsLocal(k)
    ensures Lookup(CleanedObjects(objects, project, e), k) == AfterCleanup(project, e, k, Lookup(objects, k))
  {
    var n := Tenant(e);
    var p := DropPolicies(objects, project, n, {});
    var b := DropKey(p, BindingKey(e), project);
    var l := DropKey(b, LimitKey(n), project);
    var inner := DropKey(l, QuotaKey(n), project);
    var x := DropEgress(inner, project, e, WantsEgress(e));
    var g := DropGroup(x, project, e, WantsGroup(e));
    DropListsAt(objects, project, n, {}, k);
    DropKeyAt(p, BindingKey(e), project, k);
    DropKeyAt(b, LimitKey(n), project, k);
    DropKeyAt(l, QuotaKey(n), project, k);
    DropKeyAt(inner, EgressKey(n), project, k);
    DropKeyAt(x, GroupKey(e), project, k);
    DropListsAt(g, project, n, {}, k);
  }

  /** Adoption of a tenant: other namespaces stay, and the outcome depends on that tenant alone. */
  lemma AdoptKeeps(s: Store, q: Project, m: string, labels: Labels, annotations: map<string, string>)
    ensures m in Adopt(s, q, m, labels, annotations).namespaces
    ensures Adopt(s, q, m, labels, annotations).objects == s.objects
    ensures Adopt(s, q, m, labels, annotations).sizes == s.sizes
  {
  }

  lemma AdoptElsewhere(s: Store, q: Project, m: string, labels: Labels, annotations: map<string, string>, n: string)
    requires m != n
    ensures Lookup(Adopt(s, q, m, labels, annotations).namespaces, n) == Lookup(s.namespaces, n)
    ensures Births(Adopt(s, q, m, labels, annotations).births, n) == Births(s.births, n)
  {
  }

  lemma AdoptAgrees(s: Store, t: Store, q: Project, n: string, labels: Labels, annotations: map<string, string>)
    requires Lookup(s.namespaces, n) == Lookup(t.namespaces, n) && Births(s.births, n) == Births(t.births, n)
    ensures Adopt(s, q, n, labels, annotations).namespaces[n] == Adopt(t, q, n, labels, annotations).namespaces[n]
    ensures Births(Adopt(s, q, n, labels, annotations).births, n)
         == Births(Adopt(t, q, n, labels, annotations).births, n)
  {
  }

  lemma ConcernsOwnTenant(e: Entry, k: Key)
    requires IsLocal(k) && TenantOf(k) != Tenant(e)
    ensures !Concerns(e, k)
  {
  }

  lemma CleanedElsewhere(s: Store, project: string, e: Entry, n: string, k: Key)
    requires IsLocal(k) && TenantOf(k) == n && Tenant(e) != n
    ensures AgreeAt(Cleaned(s, project, e), s, n, k)
  {
    CleanedAt(s.objects, project, e, k);
    ConcernsOwnTenant(e, k);
  }

  lemma ReconciledObjectAt(s: Store, q: Project, e: Entry, k: Key)
    requires SizeKnown(s.sizes, e)
    ensures Lookup(Reconciled(s, q, e).objects, k) ==
      After(q, e, AdoptedTenant(s, q, e).namespaces[Tenant(e)].uid, DesiredHard(s.sizes, e), DesiredItems(s.sizes, e),
            k, Lookup(s.objects, k))
  {
    var adopted := AdoptedTenant(s, q, e);
    AdoptKeeps(s, q, Tenant(e), DesiredLabels(q.name, GitOpsNamespace(q.gitOps, e), e), e.annotations);
    ReconciledAt(adopted.objects, q, e, adopted.namespaces[Tenant(e)].uid, DesiredHard(s.sizes, e),
                 DesiredItems(s.sizes, e), k);
  }

  lemma ReconciledElsewhere(s: Store, q: Project, e: Entry, n: string, k: Key)
    requires SizeKnown(s.sizes, e) && IsLocal(k) && TenantOf(k) == n && Tenant(e) != n
    ensures AgreeAt(Reconciled(s, q, e), s, n, k)
  {
    ReconciledObjectAt(s, q, e, k);
    ConcernsOwnTenant(e, k);
    var labels := DesiredLabels(q.name, GitOpsNamespace(q.gitOps, e), e);
    AdoptKeeps(s, q, Tenant(e), labels, e.annotations);
    AdoptElsewhere(s, q, Tenant(e), labels, e.annotations, n);
  }

  /** Another tenant's entry leaves `n` and the object under `k` as they are. */
  lemma StepElsewhere(s: Store, q: Project, e: Entry, n: string, k: Key)
    requires IsLocal(k) && TenantOf(k) == n && Tenant(e) != n
    ensures AgreeAt(EntryStep(s, q, e), s, n, k)
  {
    if IsOffboard(e) {
      CleanedElsewhere(s, q.name, e, n, k);
    } else if IsActive(e) && SizeKnown(s.sizes, e) {
      ReconciledElsewhere(s, q, e, n, k);
    }
  }

  /** What a cleanup makes of the tenant's namespace. */
  function Marked(ns: Option<Namespace>, project: string): Option<Namespace> {
    if ns.Some? && IsManaged(ns.value.labels, project) then Some(ns.value.(terminating := true)) else ns
  }

  lemma DroppedAt(s: Store, project: string, n: string)
    ensures Lookup(NamespaceDropped(s, project, n).namespaces, n) == Marked(Lookup(s.namespaces, n), project)
    ensures NamespaceDropped(s, project, n) == s.(namespaces := NamespaceDropped(s, project, n).namespaces)
  {
  }

  lemma CleanedDetermined(s: Store, t: Store, project: string, e: Entry, k: Key)
    requires IsLocal(k) && AgreeAt(s, t, Tenant(e), k)
    ensures AgreeAt(Cleaned(s, project, e), Cleaned(t, project, e), Tenant(e), k)
  {
    CleanedAt(s.objects, project, e, k);
    CleanedAt(t.objects, project, e, k);
    DroppedAt(s.(objects := CleanedObjects(s.objects, project, e)), project, Tenant(e));
    DroppedAt(t.(objects := CleanedObjects(t.objects, project, e)), project, Tenant(e));
  }

  lemma ReconciledDetermined(s: Store, t: Store, q: Project, e: Entry, k: Key)
    requires SizeKnown(s.sizes, e) && IsLocal(k) && AgreeAt(s, t, Tenant(e), k)
    ensures AgreeAt(Reconciled(s, q, e), Reconciled(t, q, e), Tenant(e), k)
  {
    var n := Tenant(e);
    var labels := DesiredLabels(q.name, GitOpsNamespace(q.gitOps, e), e);
    AdoptKeeps(s, q, n, labels, e.annotations);
    AdoptKeeps(t, q, n, labels, e.annotations);
    AdoptAgrees(s, t, q, n, labels, e.annotations);
    ReconciledObjectAt(s, q, e, k);
    ReconciledObjectAt(t, q, e, k);
  }

  /** The effect of an entry on its own tenant depends on nothing outside it. */
  lemma StepDetermined(s: Store, t: Store, q: Project, e: Entry, n: string, k: Key)
    requires IsLocal(k) && TenantOf(k) == n && Tenant(e) == n && AgreeAt(s, t, n, k)
    ensures AgreeAt(EntryStep(s, q, e), EntryStep(t, q, e), n, k)
  {
    if IsOffboard(e) {
      CleanedDetermined(s, t, q.name, e, k);
    } else if IsActive(e) && SizeKnown(s.sizes, e) {
      ReconciledDetermined(s, t, q, e, k);
    }
  }

  // ---------------------------------------------------------------- the pass in closed form

  lemma AgreeTransitive(a: Store, b: Store, c: Store, n: string, k: Key)
    requires AgreeAt(a, b, n, k) && AgreeAt(b, c, n, k)
    ensures AgreeAt(a, c, n, k)
  {
  }

  lemma {:induction false} PassElsewhere(s: Store, q: Project, entries: seq<Entry>, n: string, k: Key)
    requires IsLocal(k) && TenantOf(k) == n && forall i :: 0 <= i < |entries| ==> Tenant(entries[i]) != n
    ensures AgreeAt(Pass(s, q, entries), s, n, k)
  {
    if entries == [] {
    } else {
      var before, last := entries[..|entries| - 1], entries[|entries| - 1];
      PassElsewhere(s, q, before, n, k);
      StepElsewhere(Pass(s, q, before), q, last, n, k);
      AgreeTransitive(Pass(s, q, entries), Pass(s, q, before), s, n, k);
    }
  }

  /** On the tenant of one of its entries the pass does what that entry alone does. */
  lemma {:induction false} PassAt(s: Store, q: Project, entries: seq<Entry>, e: Entry, k: Key)
    requires IsLocal(k) && TenantOf(k) == Tenant(e) && e in entries && DistinctTenants(entries)
    ensures AgreeAt(Pass(s, q, entries), EntryStep(s, q, e), Tenant(e), k)
  {
    var n := Tenant(e);
    var before, last := entries[..|entries| - 1], entries[|entries| - 1];
    if last == e {
      PassElsewhere(s, q, before, n, k);
      StepDetermined(Pass(s, q, before), s, q, e, n, k);
    } else {
      assert entries == before + [last];
      assert e in before;
      PassAt(s, q, before, e, k);
      StepElsewhere(Pass(s, q, before), q, last, n, k);
      AgreeTransitive(Pass(s, q, entries), Pass(s, q, before), EntryStep(s, q, e), n, k);
    }
  }

  // ---------------------------------------------------------------- every order

  lemma {:induction false} CountOnce(entries: seq<Entry>, e: Entry)
    requires DistinctTenants(entries)
    ensures multiset(entries)[e] <= 1
  {
    if entries == [] {
    } else {
      var before, last := entries[..|entries| - 1], entries[|entries| - 1];
      CountOnce(before, e);
      assert entries == before + [last];
      assert last !in before;
    }
  }

  lemma PermutedDistinct(a: seq<Entry>, b: seq<Entry>)
    requires multiset(a) == multiset(b) && DistinctTenants(a)
    ensures DistinctTenants(b)
  {
    forall i, j | 0 <= i < j < |b|
      ensures Tenant(b[i]) != Tenant(b[j])
    {
      if b[i] == b[j] {
        assert b == b[..i] + [b[i]] + b[i + 1..j] + [b[j]] + b[j + 1..];
        CountOnce(a, b[i]);
        assert false;
      } else {
        assert b[i] in multiset(b) && b[j] in multiset(b);
        var x :| 0 <= x < |a| && a[x] == b[i];
        var y :| 0 <= y < |a| && a[y] == b[j];
        assert Tenant(a[if x < y then x else y]) != Tenant(a[if x < y then y else x]);
      }
    }
  }

  /** Every permutation of the entries leaves the same namespaces, network policies, quotas, limit ranges, role
      bindings and EgressIPs. */
  lemma PassInAnyOrder(s: Store, q: Project, a: seq<Entry>, b: seq<Entry>, k: Key)
    requires multiset(a) == multiset(b) && DistinctTenants(a) && IsLocal(k)
    ensures AgreeAt(Pass(s, q, a), Pass(s, q, b), TenantOf(k), k)
  {
    PermutedDistinct(a, b);
    var n := TenantOf(k);
    if i :| 0 <= i < |a| && Tenant(a[i]) == n {
      assert a[i] in multiset(a);
      PassAt(s, q, a, a[i], k);
      PassAt(s, q, b, a[i], k);
    } else {
      forall j | 0 <= j < |b|
        ensures Tenant(b[j]) != n
      {
        assert b[j] in multiset(b);
        assert b[j] in a;
      }
      PassElsewhere(s, q, a, n, k);
      PassElsewhere(s, q, b, n, k);
    }
  }

  // ---------------------------------------------------------------- a whole run

  lemma CleanedTwice(s: Store, project: string, e: Entry, k: Key)
    requires IsLocal(k)
    ensures AgreeAt(Cleaned(Cleaned(s, project, e), project, e), Cleaned(s, project, e), Tenant(e), k)
  {
    var once := Cleaned(s, project, e);
    CleanedAt(s.objects, project, e, k);
    CleanedAt(once.objects, project, e, k);
    DroppedAt(s.(objects := CleanedObjects(s.objects, project, e)), project, Tenant(e));
    DroppedAt(once.(objects := CleanedObjects(once.objects, project, e)), project, Tenant(e));
  }

  /** The entry `e` of the project is to be torn down, and `t` agrees with `s` after its cleanup. */
  predicate TornDown(s: Store, t: Store, q: Project, e: Entry, k: Key) {
    e in q.entries && IsOffboard(e) && Tenant(e) == TenantOf(k) && AgreeAt(t, Cleaned(s, q.name, e), TenantOf(k), k)
  }

  /** Around `k`, only cleanups of offboarded entries lie between `s` and `t`. */
  predicate PrunedTo(s: Store, t: Store, q: Project, k: Key) {
    AgreeAt(t, s, TenantOf(k), k) || exists e | e in q.entries :: TornDown(s, t, q, e, k)
  }

  lemma SameTenant(entries: seq<Entry>, d: Entry, e: Entry)
    requires DistinctTenants(entries) && d in entries && e in entries && Tenant(d) == Tenant(e)
    ensures d == e
  {
    var i :| 0 <= i < |entries| && entries[i] == d;
    var j :| 0 <= j < |entries| && entries[j] == e;
  }

  lemma CleanupAfterPruning(s: Store, t: Store, q: Project, e: Entry, k: Key)
    requires IsLocal(k) && TenantOf(k) == Tenant(e) && PrunedTo(s, t, q, k)
    requires DistinctTenants(q.entries) && e in q.entries && IsOffboard(e)
    ensures TornDown(s, Cleaned(t, q.name, e), q, e, k)
  {
    var after, n := Cleaned(t, q.name, e), Tenant(e);
    if AgreeAt(t, s, n, k) {
      CleanedDetermined(t, s, q.name, e, k);
    } else {
      var d :| d in q.entries && TornDown(s, t, q, d, k);
      SameTenant(q.entries, d, e);
      CleanedDetermined(t, Cleaned(s, q.name, e), q.name, e, k);
      CleanedTwice(s, q.name, e, k);
      AgreeTransitive(after, Cleaned(Cleaned(s, q.name, e), q.name, e), Cleaned(s, q.name, e), n, k);
    }
  }

  lemma PrunedFurther(s: Store, t: Store, q: Project, e: Entry, k: Key)
    requires IsLocal(k) && PrunedTo(s, t, q, k) && DistinctTenants(q.entries) && e in q.entries && IsOffboard(e)
    ensures PrunedTo(s, Cleaned(t, q.name, e), q, k)
  {
    var after, n := Cleaned(t, q.name, e), TenantOf(k);
    if Tenant(e) == n {
      CleanupAfterPruning(s, t, q, e, k);
    } else {
      CleanedElsewhere(t, q.name, e, n, k);
      if AgreeAt(t, s, n, k) {
        AgreeTransitive(after, t, s, n, k);
      } else {
        var d :| d in q.entries && TornDown(s, t, q, d, k);
        AgreeTransitive(after, t, Cleaned(s, q.name, d), n, k);
        assert TornDown(s, after, q, d, k);
      }
    }
  }

  /** Around `k`, `t` is what the entry of that tenant makes of `s`; without such an entry it is `s`. */
  predicate RunAt(s: Store, t: Store, q: Project, k: Key) {
    && (forall e | e in q.entries :: Tenant(e) == TenantOf(k) ==> AgreeAt(t, EntryStep(s, q, e), TenantOf(k), k))
    && ((forall e | e in q.entries :: Tenant(e) != TenantOf(k)) ==> AgreeAt(t, s, TenantOf(k), k))
  }

  lemma StepAfterPruning(s: Store, t: Store, q: Project, e: Entry, k: Key)
    requires IsLocal(k) && TenantOf(k) == Tenant(e) && PrunedTo(s, t, q, k)
    requires DistinctTenants(q.entries) && e in q.entries
    ensures AgreeAt(EntryStep(t, q, e), EntryStep(s, q, e), Tenant(e), k)
  {
    if AgreeAt(t, s, Tenant(e), k) {
      StepDetermined(t, s, q, e, Tenant(e), k);
    } else {
      var d :| d in q.entries && TornDown(s, t, q, d, k);
      SameTenant(q.entries, d, e);
      CleanupAfterPruning(s, t, q, e, k);
    }
  }

  /** The prune at the start of a run is no more than a head start on the offboarded entries: prune and pass
      together do to every tenant what its entry alone asks for, and leave every other tenant alone. */
  lemma PruneThenPass(s: Store, t: Store, q: Project, k: Key)
    requires IsLocal(k) && PrunedTo(s, t, q, k) && DistinctTenants(q.entries)
    ensures RunAt(s, Pass(t, q, q.entries), q, k)
  {
    var n, after := TenantOf(k), Pass(t, q, q.entries);
    if e :| e in q.entries && Tenant(e) == n {
      forall d | d in q.entries && Tenant(d) == n
        ensures AgreeAt(after, EntryStep(s, q, d), n, k)
      {
        PassAt(t, q, q.entries, d, k);
        StepAfterPruning(s, t, q, d, k);
        AgreeTransitive(after, EntryStep(t, q, d), EntryStep(s, q, d), n, k);
      }
    } else {
      PassElsewhere(t, q, q.entries, n, k);
      assert AgreeAt(t, s, n, k);
      AgreeTransitive(after, t, s, n, k);
    }
  }

  /** Writes to the stored project change none of this. */
  lemma RunAtElsewhere(s: Store, s': Store, t: Store, t': Store, q: Project, k: Key)
    requires IsLocal(k) && RunAt(s, t, q, k)
    requires s' == s.(projects := s'.projects) && t' == t.(projects := t'.projects)
    ensures RunAt(s', t', q, k)
  {
    forall e | e in q.entries && Tenant(e) == TenantOf(k)
      ensures AgreeAt(t', EntryStep(s', q, e), TenantOf(k), k)
    {
      StepDetermined(s, s', q, e, TenantOf(k), k);
    }
  }

  // ---------------------------------------------------------------- what stays reconcilable

  /** The project is refused no more in `t` than in `s`, and sizes and APIs are the same. */
  ghost predicate Easier(q: Project, s: Store, t: Store) {
    && t.sizes == s.sizes && t.served == s.served
    && (forall n :: IsTaken(t, q, n) ==> IsTaken(s, q, n))
    && (forall k :: IsRefused(t, q, k) ==> IsRefused(s, q, k))
  }

  lemma EasierTransitive(q: Project, a: Store, b: Store, c: Store)
    requires Easier(q, a, b) && Easier(q, b, c)
    ensures Easier(q, a, c)
  {
  }

  lemma EasierReconcilable(q: Project, s: Store, t: Store, e: Entry)
    requires Easier(q, s, t) && Reconcilable(s, q, e)
    ensures Reconcilable(t, q, e)
  {
    assert ArgoReconcilable(s, q, e) ==> ArgoReconcilable(t, q, e);
  }

  lemma FewerEasier(q: Project, s: Store, objects: Objects)
    requires Fewer(objects, s.objects)
    ensures Easier(q, s, s.(objects := objects))
  {
  }

  lemma DroppedEasier(q: Project, s: Store, n: string)
    ensures Easier(q, s, NamespaceDropped(s, q.name, n)) && NamespaceDropped(s, q.name, n).projects == s.projects
  {
  }

  lemma CleanedEasier(q: Project, s: Store, e: Entry)
    ensures Easier(q, s, Cleaned(s, q.name, e)) && Cleaned(s, q.name, e).projects == s.projects
  {
    var stripped := s.(objects := CleanedObjects(s.objects, q.name, e));
    CleanedFewer(s.objects, q.name, e);
    FewerEasier(q, s, stripped.objects);
    DroppedEasier(q, stripped, Tenant(e));
    EasierTransitive(q, s, stripped, Cleaned(s, q.name, e));
  }

  lemma ReconciledNotTaken(q: Project, s: Store, n: string, labels: Labels, annotations: map<string, string>)
    ensures forall m :: IsTaken(Adopt(s, q, n, labels, annotations), q, m) ==> IsTaken(s, q, m)
    ensures Adopt(s, q, n, labels, annotations).projects == s.projects
    ensures Adopt(s, q, n, labels, annotations).served == s.served
  {
  }

  lemma AfterNotRefused(q: Project, e: Entry, tenant: Uid, hard: Option<map<Resource, string>>,
                        items: Option<seq<LimitRangeItem>>, k: Key, o: Option<Object>)
    ensures var after := After(q, e, tenant, hard, items, k, o);
      after.Some? && !MayControl(after.value.controller, q) ==> o.Some? && !MayControl(o.value.controller, q)
  {
  }

  lemma ReconciledEasier(q: Project, s: Store, e: Entry)
    requires SizeKnown(s.sizes, e)
    ensures Easier(q, s, Reconciled(s, q, e)) && Reconciled(s, q, e).projects == s.projects
  {
    var t, n := Reconciled(s, q, e), Tenant(e);
    var labels := DesiredLabels(q.name, GitOpsNamespace(q.gitOps, e), e);
    AdoptKeeps(s, q, n, labels, e.annotations);
    ReconciledNotTaken(q, s, n, labels, e.annotations);
    assert t.namespaces == AdoptedTenant(s, q, e).namespaces;
    assert forall m :: IsTaken(t, q, m) <==> IsTaken(AdoptedTenant(s, q, e), q, m);
    forall k | IsRefused(t, q, k)
      ensures IsRefused(s, q, k)
    {
      ReconciledObjectAt(s, q, e, k);
      AfterNotRefused(q, e, AdoptedTenant(s, q, e).namespaces[n].uid, DesiredHard(s.sizes, e), DesiredItems(s.sizes, e),
                      k, Lookup(s.objects, k));
    }
  }

  lemma StepEasier(q: Project, s: Store, e: Entry)
    ensures Easier(q, s, EntryStep(s, q, e)) && EntryStep(s, q, e).projects == s.projects
  {
    if IsOffboard(e) {
      CleanedEasier(q, s, e);
    } else if IsActive(e) && SizeKnown(s.sizes, e) {
      ReconciledEasier(q, s, e);
    }
  }

  /** Working on some entries takes nothing from the others. */
  lemma {:induction false} PassEasier(q: Project, s: Store, entries: seq<Entry>)
    ensures Easier(q, s, Pass(s, q, entries)) && Pass(s, q, entries).projects == s.projects
  {
    if entries == [] {
    } else {
      var before := entries[..|entries| - 1];
      PassEasier(q, s, before);
      StepEasier(q, Pass(s, q, before), entries[|entries| - 1]);
      EasierTransitive(q, s, Pass(s, q, before), Pass(s, q, entries));
    }
  }

  /** Every entry that is to be reconciled can be. */
  ghost predicate AllReconcilable(s: Store, q: Project) {
    forall i | 0 <= i < |q.entries| && IsActive(q.entries[i]) :: Reconcilable(s, q, q.entries[i])
  }

  lemma AllEasier(q: Project, s: Store, t: Store)
    requires Easier(q, s, t) && AllReconcilable(s, q)
    ensures AllReconcilable(t, q)
  {
    forall i | 0 <= i < |q.entries| && IsActive(q.entries[i])
      ensures Reconcilable(t, q, q.entries[i])
    {
      EasierReconcilable(q, s, t, q.entries[i]);
    }
  }
}
