/** Tearing one namespace entry down: ordered, label-guarded deletes, the namespace last. */
module Cleanup {
  import opened Common
  import opened Api
  import opened Cluster
  import opened Interference
  import opened Clients

  // ---------------------------------------------------------------- keys and effects

  function QuotaKey(n: string): Key { Key(ResourceQuotas, n, n + "-quota") }

  function LimitKey(n: string): Key { Key(LimitRanges, n, n + "-limitrange") }

  function BindingKey(e: Entry): Key { Key(RoleBindings, Tenant(e), RoleBindingName(e)) }

  function GroupKey(e: Entry): Key { Key(Groups, "", GroupName(e)) }

  function EgressKey(n: string): Key { Key(EgressIPObjects, "", n) }

  /** What remains after the object under `key` is deleted if it carries the project's labels. */
  function DropKey(objects: Objects, key: Key, project: string): Objects {
    if key in objects && IsOwned(key.kind, objects[key].labels, project) then objects - {key} else objects
  }

  function DropPolicies(objects: Objects, project: string, n: string, keep: set<string>): Objects {
    map k | k in objects && !(IsTenantPolicy(objects, project, n, k) && k.name !in keep) :: objects[k]
  }

  function DropAppProjects(objects: Objects, project: string, n: string, keep: set<string>): Objects {
    map k | k in objects && !(IsTenantAppProject(objects, project, n, k) && k.name !in keep) :: objects[k]
  }

  function DropEgress(objects: Objects, project: string, e: Entry, when: bool): Objects {
    if when then DropKey(objects, EgressKey(Tenant(e)), project) else objects
  }

  function DropGroup(objects: Objects, project: string, e: Entry, when: bool): Objects {
    if when then DropKey(objects, GroupKey(e), project) else objects
  }

  /** Without the tenant's policies, role binding, limit range and quota. */
  function InnerCleaned(objects: Objects, project: string, e: Entry): Objects {
    var n := Tenant(e);
    var a := DropKey(DropPolicies(objects, project, n, {}), BindingKey(e), project);
    DropKey(DropKey(a, LimitKey(n), project), QuotaKey(n), project)
  }

  /** Without the EgressIP and group the entry asks for, and without the tenant's AppProjects. */
  function OuterCleaned(objects: Objects, project: string, e: Entry): Objects {
    var a := DropGroup(DropEgress(objects, project, e, WantsEgress(e)), project, e, WantsGroup(e));
    DropAppProjects(a, project, Tenant(e), {})
  }

  /** The objects left by a cleanup. */
  function CleanedObjects(objects: Objects, project: string, e: Entry): Objects {
    OuterCleaned(InnerCleaned(objects, project, e), project, e)
  }

  function NamespaceDropped(s: Store, project: string, n: string): Store {
    if n in s.namespaces && IsManaged(s.namespaces[n].labels, project) then SetTerminating(s, n) else s
  }

  /** The store left by a cleanup: the namespace is marked, not gone. */
  function Cleaned(s: Store, project: string, e: Entry): Store {
    NamespaceDropped(s.(objects := CleanedObjects(s.objects, project, e)), project, Tenant(e))
  }

  /** Some objects of `b` are gone, the others are as before. */
  predicate Fewer(a: Objects, b: Objects) {
    forall k | k in a :: k in b && a[k] == b[k]
  }

  lemma CleanedFewer(objects: Objects, project: string, e: Entry)
    ensures Fewer(CleanedObjects(objects, project, e), objects)
  {
  }

  // ---------------------------------------------------------------- targets of a cleanup

  /** The keys a cleanup or prune of `e` can delete. */
  predicate Strippable(e: Entry, key: Key) {
    || (key.kind == NetworkPolicies && key.namespace == Tenant(e))
    || key == BindingKey(e) || key == LimitKey(Tenant(e)) || key == QuotaKey(Tenant(e))
    || key == EgressKey(Tenant(e)) || key == GroupKey(e) || key.kind == AppProjects
  }

  predicate IsTarget(objects: Objects, q: Project, e: Entry, key: Key) {
    && key in objects && IsOwned(key.kind, objects[key].labels, q.name) && Strippable(e, key)
    && (key.kind == AppProjects ==> IsTenantAppProject(objects, q.name, Tenant(e), key))
  }

  function Targets(objects: Objects, q: Project, e: Entry): set<Key> {
    set k | k in objects && IsTarget(objects, q, e, k)
  }

  /** Every step after `from` is a list by `q`, or a delete by `q` of one target of `e`. */
  ghost predicate OnlyStrips(q: Project, e: Entry, from: Trace, t: Trace) {
    || t == from
    || (&& t.Then? && t.actor == Run(q) && OnlyStrips(q, e, from, t.past)
        && (t.action.ListObjects? || (t.action.DeleteObject? && IsTarget(Now(t.past).objects, q, e, t.action.key))))
  }

  function Deletes(from: Trace, t: Trace): nat {
    if t == from || t.Start? then 0 else Deletes(from, t.past) + if t.action.DeleteObject? then 1 else 0
  }

  lemma TargetGone(objects: Objects, q: Project, e: Entry, key: Key)
    requires IsTarget(objects, q, e, key)
    ensures Targets(objects - {key}, q, e) == Targets(objects, q, e) - {key}
  {
  }

  lemma StripNow(q: Project, e: Entry, t: Trace)
    requires t.Then? && t.actor == Run(q) && t.action.DeleteObject?
    requires IsTarget(Now(t.past).objects, q, e, t.action.key)
    ensures forall k | k != t.action.key :: Lookup(Now(t).objects, k) == Lookup(Now(t.past).objects, k)
    ensures t.action.key in Targets(Now(t.past).objects, q, e)
    ensures Targets(Now(t).objects, q, e) <= Targets(Now(t.past).objects, q, e)
    ensures |Targets(Now(t).objects, q, e)| + 1 == |Targets(Now(t.past).objects, q, e)|
  {
    TargetGone(Now(t.past).objects, q, e, t.action.key);
  }

  /** Every delete takes exactly one object off the list of targets, so a retry has strictly less to do. */
  lemma {:induction false} StripsShrinkTargets(q: Project, e: Entry, from: Trace, t: Trace)
    requires OnlyStrips(q, e, from, t)
    ensures |Targets(Now(t).objects, q, e)| + Deletes(from, t) == |Targets(Now(from).objects, q, e)|
    ensures Targets(Now(t).objects, q, e) <= Targets(Now(from).objects, q, e)
    ensures forall k :: k !in Targets(Now(from).objects, q, e) ==>
      Lookup(Now(t).objects, k) == Lookup(Now(from).objects, k)
  {
    if t == from {
    } else if t.action.ListObjects? {
      StripsShrinkTargets(q, e, from, t.past);
    } else {
      StripsShrinkTargets(q, e, from, t.past);
      StripNow(q, e, t);
    }
  }

  // ---------------------------------------------------------------- deletes

  /** Get, tolerate what is missing, check the labels, delete. */
  method DeleteManaged(c: Client, q: Project, key: Key, ghost e: Entry, ghost since: Trace) returns (err: Err)
    requires c.Ready(q, since) && MayDelete(c.store, q, key) && Strippable(e, key) && key.kind != AppProjects
    modifies c
    ensures !err.Panic?
    ensures c.Ready(q, since) && ManagedShrinks(q, old(c.store), c.store) && Keeps(q, old(c.store), c.store)
    ensures c.quiet && err.Ok? ==> c.store == old(c.store).(objects := DropKey(old(c.store).objects, key, q.name))
    ensures c.quiet ==> c.store == old(c.store).(objects := c.store.objects)
    ensures c.quiet ==> forall from :: OnlyStrips(q, e, from, old(c.trace)) ==> OnlyStrips(q, e, from, c.trace)
    ensures !err.NotFound?
    ensures c.reliable ==>
      (err.Ok? <==> key.kind in c.store.served || key.kind == Groups || key.kind == EgressIPObjects)
  {
    ghost var start := c.store;
    var found, status := c.Get(q, key, since);
    err := status;
    if err.NotFound? || (err.NoMatch? && (key.kind == Groups || key.kind == EgressIPObjects)) { return Ok; }
    if !err.Ok? { return; }
    if !IsManaged(found.value.labels, q.name) { return Ok; }
    ghost var seen := c.store;
    err := c.Delete(q, key, since);
    RelyTransitive(q, start, seen, c.store);
  }

  /** Delete one listed object by its name, whatever it has become; missing ones are tolerated. The list was made
      at `since`, the cleanup began at `start`. */
  method DeleteTarget(c: Client, q: Project, key: Key, ghost e: Entry, ghost start: Store, ghost since: Trace)
    returns (err: Err)
    requires c.Ready(q, since) && ManagedShrinks(q, start, c.store) && Keeps(q, start, c.store)
    requires ListedOnce(since, q, key) && (MayStrip(q, key.namespace) || key.kind == AppProjects)
    requires key.kind != EgressIPObjects && (c.quiet ==> IsTarget(c.store.objects, q, e, key))
    modifies c
    ensures c.Ready(q, since) && ManagedShrinks(q, start, c.store) && Keeps(q, start, c.store)
    ensures c.quiet ==> c.store == old(c.store).(objects := c.store.objects)
    ensures c.quiet && err.Ok? ==> c.store.objects == old(c.store).objects - {key}
    ensures c.quiet ==> forall from :: OnlyStrips(q, e, from, old(c.trace)) ==> OnlyStrips(q, e, from, c.trace)
    ensures err.Ok? || err.Fault?
    ensures c.reliable ==> err.Ok?
  {
    ghost var before := c.store;
    c.Observe(q, since);
    ghost var seen := c.store;
    RelyTransitive(q, start, before, seen);
    var fault: bool := *;
    if fault && !c.reliable { return Fault; }
    if key !in c.store.objects { return Ok; }
    ListedLater(since, c.trace, q, key);
    err := c.Delete(q, key, since);
    RelyTransitive(q, start, seen, c.store);
  }

  lemma StillTarget(objects: Objects, gone: set<Key>, q: Project, e: Entry, key: Key)
    requires IsTarget(objects, q, e, key) && key !in gone
    ensures IsTarget(objects - gone, q, e, key)
  {
  }

  /** The listed keys whose names are not to be kept. */
  function Unkept(keys: seq<Key>, keep: set<string>): set<Key> {
    set k | k in keys && k.name !in keep
  }

  lemma UnkeptStep(keys: seq<Key>, i: nat, keep: set<string>, objects: Objects)
    requires i < |keys| && forall j :: 0 <= j < i ==> keys[j] != keys[i]
    ensures keys[i] !in Unkept(keys[..i], keep)
    ensures objects - Unkept(keys[..i + 1], keep)
         == if keys[i].name in keep then objects - Unkept(keys[..i], keep)
            else (objects - Unkept(keys[..i], keep)) - {keys[i]}
  {
    assert keys[..i + 1] == keys[..i] + [keys[i]];
  }

  /** Delete every listed object whose name is not to be kept. Others may act between two deletes. */
  method DeleteListed(c: Client, q: Project, keys: seq<Key>, keep: set<string>, ghost e: Entry, ghost since: Trace)
    returns (err: Err)
    requires c.Ready(q, since)
    requires forall i, j :: 0 <= i < j < |keys| ==> keys[i] != keys[j]
    requires forall k :: k in keys ==> ListedOnce(since, q, k) && IsTarget(c.store.objects, q, e, k)
    requires forall k :: k in keys ==> (MayStrip(q, k.namespace) || k.kind == AppProjects) && k.kind != EgressIPObjects
    modifies c
    ensures c.Ready(q, since) && ManagedShrinks(q, old(c.store), c.store) && Keeps(q, old(c.store), c.store)
    ensures c.quiet ==> c.store == old(c.store).(objects := c.store.objects)
    ensures c.quiet && err.Ok? ==> c.store.objects == old(c.store).objects - Unkept(keys, keep)
    ensures c.quiet ==> forall from :: OnlyStrips(q, e, from, old(c.trace)) ==> OnlyStrips(q, e, from, c.trace)
    ensures err.Ok? || err.Fault?
    ensures c.reliable ==> err.Ok?
  {
    ghost var start := c.store;
    for i := 0 to |keys|
      invariant c.Ready(q, since) && ManagedShrinks(q, start, c.store) && Keeps(q, start, c.store)
      invariant c.quiet ==> c.store == start.(objects := start.objects - Unkept(keys[..i], keep))
      invariant c.quiet ==> forall from :: OnlyStrips(q, e, from, old(c.trace)) ==> OnlyStrips(q, e, from, c.trace)
    {
      UnkeptStep(keys, i, keep, start.objects);
      if keys[i].name !in keep {
        StillTarget(start.objects, Unkept(keys[..i], keep), q, e, keys[i]);
        err := DeleteTarget(c, q, keys[i], e, start, since);
        if !err.Ok? { return; }
      }
    }
    assert keys[..|keys|] == keys;
    err := Ok;
  }

  lemma PickedPolicies(objects: Objects, q: Project, e: Entry, keys: seq<Key>, keep: set<string>)
    requires forall k :: k in keys <==> k in objects && Picked(objects, q.name, NetworkPolicies, Tenant(e), k)
    ensures forall k :: k in keys ==> IsTarget(objects, q, e, k) && k.namespace == Tenant(e) && k.kind.NetworkPolicies?
    ensures objects - Unkept(keys, keep) == DropPolicies(objects, q.name, Tenant(e), keep)
  {
  }

  lemma PickedAppProjects(objects: Objects, q: Project, e: Entry, keys: seq<Key>, keep: set<string>)
    requires forall k :: k in keys <==> k in objects && Picked(objects, q.name, AppProjects, Tenant(e), k)
    ensures forall k :: k in keys ==> IsTarget(objects, q, e, k) && k.kind.AppProjects?
    ensures objects - Unkept(keys, keep) == DropAppProjects(objects, q.name, Tenant(e), keep)
  {
  }

  /** List the managed policies of the tenant and delete those whose names are not kept. */
  method PruneManagedNetworkPolicies(c: Client, q: Project, keep: set<string>, e: Entry, ghost since: Trace)
    returns (err: Err)
    requires c.Ready(q, since) && MayStrip(q, Tenant(e))
    modifies c
    ensures !err.Panic?
    ensures c.Ready(q, since) && ManagedShrinks(q, old(c.store), c.store) && Keeps(q, old(c.store), c.store)
    ensures c.quiet && err.Ok? ==>
      c.store == old(c.store).(objects := DropPolicies(old(c.store).objects, q.name, Tenant(e), keep))
    ensures c.quiet ==> c.store == old(c.store).(objects := c.store.objects)
    ensures c.quiet ==> forall from :: OnlyStrips(q, e, from, old(c.trace)) ==> OnlyStrips(q, e, from, c.trace)
    ensures c.reliable ==> (err.Ok? <==> NetworkPolicies in c.store.served)
  {
    ghost var start := c.store;
    var keys, status := c.List(q, NetworkPolicies, Tenant(e), since);
    if !status.Ok? { return status; }
    ghost var listed, seen := c.trace, c.store;
    PickedPolicies(c.store.objects, q, e, keys, keep);
    err := DeleteListed(c, q, keys, keep, e, listed);
    ProgressTransitive(q, since, listed, c.trace);
    RelyTransitive(q, start, seen, c.store);
  }

  /** The same for the AppProjects labelled for the tenant; a missing API means there are none. */
  method DeleteAppProjectsForNamespace(c: Client, q: Project, keep: set<string>, e: Entry, ghost since: Trace)
    returns (err: Err)
    requires c.Ready(q, since)
    modifies c
    ensures !err.Panic?
    ensures c.Ready(q, since) && ManagedShrinks(q, old(c.store), c.store) && Keeps(q, old(c.store), c.store)
    ensures c.quiet && err.Ok? ==>
      c.store == old(c.store).(objects := DropAppProjects(old(c.store).objects, q.name, Tenant(e), keep))
    ensures c.quiet ==> c.store == old(c.store).(objects := c.store.objects)
    ensures c.quiet ==> forall from :: OnlyStrips(q, e, from, old(c.trace)) ==> OnlyStrips(q, e, from, c.trace)
    ensures c.reliable ==> err.Ok?
  {
    ghost var start := c.store;
    var keys, status := c.List(q, AppProjects, Tenant(e), since);
    if status.NoMatch? {
      assert DropAppProjects(c.store.objects, q.name, Tenant(e), keep) == c.store.objects;
      return Ok;
    }
    if !status.Ok? { return status; }
    ghost var listed, seen := c.trace, c.store;
    PickedAppProjects(c.store.objects, q, e, keys, keep);
    err := DeleteListed(c, q, keys, keep, e, listed);
    ProgressTransitive(q, since, listed, c.trace);
    RelyTransitive(q, start, seen, c.store);
  }

  /** Mark the tenant namespace for deletion if it carries the project's labels. */
  method DeleteManagedNamespace(c: Client, q: Project, e: Entry, ghost since: Trace) returns (err: Err)
    requires c.Ready(q, since) && HasEntry(q, Tenant(e), true)
    modifies c
    ensures !err.Panic?
    ensures c.Ready(q, since) && ManagedShrinks(q, old(c.store), c.store) && Keeps(q, old(c.store), c.store)
    ensures err.Ok? ==> !LiveManaged(c.store, q.name, Tenant(e))
    ensures c.quiet && err.Ok? ==> c.store == NamespaceDropped(old(c.store), q.name, Tenant(e))
    ensures c.quiet ==> c.trace == old(c.trace) || c.trace == Then(old(c.trace), Run(q), DeleteNamespace(Tenant(e)))
    ensures c.reliable ==> err.Ok?
  {
    ghost var start := c.store;
    var found, status := c.GetNamespace(q, Tenant(e), since);
    err := status;
    if err.NotFound? { return Ok; }
    if !err.Ok? { return; }
    if !IsManaged(found.value.labels, q.name) { return Ok; }
    ghost var seen := c.store;
    err := c.Act(q, DeleteNamespace(Tenant(e)), since);
    RelyTransitive(q, start, seen, c.store);
  }

  // ---------------------------------------------------------------- the whole cleanup

  /** There is no such object of the project. */
  predicate NoneManaged(objects: Objects, project: string, key: Key) {
    key in objects ==> !IsManaged(objects[key].labels, project)
  }

  /** Nothing is left that a cleanup of the entry deletes before the namespace. */
  predicate NothingLeft(objects: Objects, q: Project, e: Entry) {
    var n := Tenant(e);
    && (forall k | k in objects :: !IsTenantPolicy(objects, q.name, n, k))
    && NoneManaged(objects, q.name, BindingKey(e))
    && NoneManaged(objects, q.name, LimitKey(n))
    && NoneManaged(objects, q.name, QuotaKey(n))
    && (WantsEgress(e) ==> NoneManaged(objects, q.name, EgressKey(n)))
    && (WantsGroup(e) ==> NoneManaged(objects, q.name, GroupKey(e)))
    && (forall k | k in objects :: !IsTenantAppProject(objects, q.name, n, k))
  }

  lemma CleanedLeavesNothing(objects: Objects, q: Project, e: Entry)
    ensures NothingLeft(CleanedObjects(objects, q.name, e), q, e)
  {
  }

  method CleanupInner(c: Client, q: Project, e: Entry, ghost since: Trace) returns (err: Err)
    requires c.Ready(q, since) && MayStrip(q, Tenant(e))
    modifies c
    ensures !err.Panic?
    ensures c.Ready(q, since) && ManagedShrinks(q, old(c.store), c.store) && Keeps(q, old(c.store), c.store)
    ensures c.quiet && err.Ok? ==> c.store == old(c.store).(objects := InnerCleaned(old(c.store).objects, q.name, e))
    ensures c.quiet ==> forall from :: OnlyStrips(q, e, from, old(c.trace)) ==> OnlyStrips(q, e, from, c.trace)
    ensures c.reliable ==> (err.Ok? <==> BuiltInServed(c.store))
  {
    ghost var start := c.store;
    var n := Tenant(e);
    err := PruneManagedNetworkPolicies(c, q, {}, e, since);
    if !err.Ok? { return; }
    err := DeleteManaged(c, q, BindingKey(e), e, since);
    if !err.Ok? { return; }
    err := DeleteManaged(c, q, LimitKey(n), e, since);
    if !err.Ok? { return; }
    err := DeleteManaged(c, q, QuotaKey(n), e, since);
  }

  method CleanupOuter(c: Client, q: Project, e: Entry, ghost since: Trace) returns (err: Err)
    requires c.Ready(q, since) && MayStrip(q, Tenant(e))
    modifies c
    ensures !err.Panic?
    ensures c.Ready(q, since) && ManagedShrinks(q, old(c.store), c.store) && Keeps(q, old(c.store), c.store)
    ensures c.quiet && err.Ok? ==> c.store == old(c.store).(objects := OuterCleaned(old(c.store).objects, q.name, e))
    ensures c.quiet ==> forall from :: OnlyStrips(q, e, from, old(c.trace)) ==> OnlyStrips(q, e, from, c.trace)
    ensures c.reliable ==> err.Ok?
  {
    if WantsEgress(e) {
      err := DeleteManaged(c, q, EgressKey(Tenant(e)), e, since);
      if !err.Ok? { return; }
    }
    if WantsGroup(e) {
      err := DeleteManaged(c, q, GroupKey(e), e, since);
      if !err.Ok? { return; }
    }
    err := DeleteAppProjectsForNamespace(c, q, {}, e, since);
  }

  /** The namespace delete comes last, and only when every object of the entry that the cleanup deletes is gone;
      until then only targets of the entry are deleted. All this holds on success, on a fault, and on retry.
      Where no call fails the cleanup succeeds, whatever is left of the entry and whatever others do. */
  method CleanupNamespace(c: Client, q: Project, e: Entry, ghost since: Trace) returns (err: Err)
    requires c.Ready(q, since) && e in q.entries && IsOffboard(e)
    modifies c
    ensures !err.Panic?
    ensures c.Ready(q, since) && ManagedShrinks(q, old(c.store), c.store) && Keeps(q, old(c.store), c.store)
    ensures err.Ok? ==> !LiveManaged(c.store, q.name, Tenant(e))
    ensures c.quiet && err.Ok? ==> c.store == Cleaned(old(c.store), q.name, e)
    ensures c.quiet ==>
      || OnlyStrips(q, e, old(c.trace), c.trace)
      || (&& c.trace.Then? && c.trace.action == DeleteNamespace(Tenant(e))
          && OnlyStrips(q, e, old(c.trace), c.trace.past)
          && NothingLeft(Now(c.trace.past).objects, q, e))
    ensures c.reliable ==> (err.Ok? <==> BuiltInServed(c.store))
  {
    ghost var start := c.store;
    assert HasEntry(q, Tenant(e), true);
    assert MayStrip(q, Tenant(e));
    err := CleanupInner(c, q, e, since);
    if !err.Ok? { return; }
    err := CleanupOuter(c, q, e, since);
    if !err.Ok? { return; }
    CleanedLeavesNothing(start.objects, q, e);
    err := DeleteManagedNamespace(c, q, e, since);
  }
}
