/** Removing what an offboarded entry left behind at the start of a run. */
module Prune {
  import opened Common
  import opened Api
  import opened Cluster
  import opened Interference
  import opened Lifecycle
  import opened Clients
  import opened Cleanup
  import opened Order

  /** A tenant that some entry wants to keep. */
  predicate IsDesired(entries: seq<Entry>, n: string) {
    exists i | 0 <= i < |entries| :: !IsOffboard(entries[i]) && Tenant(entries[i]) == n
  }

  method DesiredTenantNamespaceNames(entries: seq<Entry>) returns (names: set<string>)
    ensures forall n :: n in names <==> IsDesired(entries, n)
  {
    names := {};
    for i := 0 to |entries|
      invariant forall n :: n in names <==> exists j :: 0 <= j < i && !IsOffboard(entries[j]) && Tenant(entries[j]) == n
    {
      if !IsOffboard(entries[i]) { names := names + {Tenant(entries[i])}; }
    }
  }

  predicate IsFirstFor(entries: seq<Entry>, i: nat, n: string)
    requires i < |entries|
  {
    Tenant(entries[i]) == n && forall j | 0 <= j < i :: Tenant(entries[j]) != n
  }

  /** The first entry for the tenant. Where there is none the operator goes on with an entry that is empty but for
      the name, which is not offboarded. */
  method NamespaceSpecForManagedName(entries: seq<Entry>, n: string) returns (found: Option<Entry>)
    ensures found.Some? ==> exists i :: 0 <= i < |entries| && found.value == entries[i] && IsFirstFor(entries, i, n)
    ensures found.None? ==> forall i :: 0 <= i < |entries| ==> Tenant(entries[i]) != n
  {
    for i := 0 to |entries|
      invariant forall j :: 0 <= j < i ==> Tenant(entries[j]) != n
    {
      if Tenant(entries[i]) == n { return Some(entries[i]); }
    }
    found := None;
  }

  lemma CleanedFurther(s: Store, t: Store, q: Project, e: Entry)
    requires DistinctTenants(q.entries) && e in q.entries && IsOffboard(e)
    requires forall k | IsLocal(k) :: PrunedTo(s, t, q, k)
    ensures forall k | IsLocal(k) :: PrunedTo(s, Cleaned(t, q.name, e), q, k)
  {
    forall k | IsLocal(k)
      ensures PrunedTo(s, Cleaned(t, q.name, e), q, k)
    {
      PrunedFurther(s, t, q, e, k);
    }
  }

  /** The entry found first is the only one for its tenant. */
  lemma OnlyEntry(q: Project, e: Entry)
    requires DistinctTenants(q.entries) && e in q.entries && !IsOffboard(e)
    ensures !HasEntry(q, Tenant(e), true)
  {
    forall d | d in q.entries && Tenant(d) == Tenant(e)
      ensures d == e
    {
      SameTenant(q.entries, d, e);
    }
    assert forall i :: 0 <= i < |q.entries| ==> q.entries[i] in q.entries;
  }

  /** One managed namespace that no entry wants to keep: cleaned up if its entry says offboard, else left alone. */
  method PruneTenant(c: Client, q: Project, n: string, ghost start: Store, ghost since: Trace) returns (err: Err)
    requires c.Ready(q, since) && DistinctTenants(q.entries)
    requires c.quiet ==> forall k | IsLocal(k) :: PrunedTo(start, c.store, q, k)
    modifies c
    ensures c.Ready(q, since) && ManagedShrinks(q, old(c.store), c.store) && Keeps(q, old(c.store), c.store)
    ensures err.Ok? && HasEntry(q, n, true) ==> !LiveManaged(c.store, q.name, n)
    ensures c.quiet && err.Ok? ==> forall k | IsLocal(k) :: PrunedTo(start, c.store, q, k)
    ensures c.reliable && BuiltInServed(c.store) ==> err.Ok?
    ensures c.quiet && err.Ok? ==> c.store.projects == old(c.store).projects
    ensures c.quiet && err.Ok? ==> Easier(q, old(c.store), c.store)
  {
    var found := NamespaceSpecForManagedName(q.entries, n);
    if found.None? || !IsOffboard(found.value) {
      if found.Some? { OnlyEntry(q, found.value); }
      return Ok;
    }
    if c.quiet {
      CleanedFurther(start, c.store, q, found.value);
      CleanedEasier(q, c.store, found.value);
    }
    err := CleanupNamespace(c, q, found.value, since);
  }

  /** The listed namespaces in turn; no other namespace of the project is live. */
  method PruneListed(c: Client, q: Project, names: seq<string>, ghost start: Store, ghost since: Trace)
    returns (err: Err)
    requires c.Ready(q, since) && DistinctTenants(q.entries)
    requires forall n :: LiveManaged(c.store, q.name, n) ==> n in names
    requires c.quiet ==> forall k | IsLocal(k) :: PrunedTo(start, c.store, q, k)
    modifies c
    ensures c.Ready(q, since) && ManagedShrinks(q, old(c.store), c.store) && Keeps(q, old(c.store), c.store)
    ensures err.Ok? ==>
      forall n :: HasEntry(q, n, true) && !IsDesired(q.entries, n) ==> !LiveManaged(c.store, q.name, n)
    ensures c.quiet && err.Ok? ==> forall k | IsLocal(k) :: PrunedTo(start, c.store, q, k)
    ensures c.reliable && BuiltInServed(c.store) ==> err.Ok?
    ensures c.quiet && err.Ok? ==> c.store.projects == old(c.store).projects
    ensures c.quiet && err.Ok? ==> Easier(q, old(c.store), c.store)
  {
    ghost var listed := c.store;
    var desired := DesiredTenantNamespaceNames(q.entries);
    for i := 0 to |names|
      invariant c.Ready(q, since) && ManagedShrinks(q, listed, c.store) && Keeps(q, listed, c.store)
      invariant forall j :: 0 <= j < i && HasEntry(q, names[j], true) && !IsDesired(q.entries, names[j]) ==>
        !LiveManaged(c.store, q.name, names[j])
      invariant c.quiet ==> forall k | IsLocal(k) :: PrunedTo(start, c.store, q, k)
      invariant c.quiet ==> c.store.projects == listed.projects && Easier(q, listed, c.store)
    {
      if names[i] !in desired {
        ghost var seen := c.store;
        err := PruneTenant(c, q, names[i], start, since);
        RelyTransitive(q, listed, seen, c.store);
        if !err.Ok? { return; }
      }
    }
    err := Ok;
  }

  /** Afterwards no tenant that only offboard entries name has a live managed namespace, and undisturbed nothing
      but cleanups of offboarded entries has happened. */
  method PruneRemovedNamespaces(c: Client, q: Project, ghost since: Trace) returns (err: Err)
    requires c.Ready(q, since)
    modifies c
    ensures c.Ready(q, since) && ManagedShrinks(q, old(c.store), c.store) && Keeps(q, old(c.store), c.store)
    ensures err.Ok? ==>
      forall n :: HasEntry(q, n, true) && !IsDesired(q.entries, n) ==> !LiveManaged(c.store, q.name, n)
    ensures c.quiet && err.Ok? ==> forall k | IsLocal(k) :: PrunedTo(old(c.store), c.store, q, k)
    ensures c.reliable && BuiltInServed(c.store) ==> err.Ok?
    ensures c.quiet && err.Ok? ==> c.store.projects == old(c.store).projects
    ensures c.quiet && err.Ok? ==> Easier(q, old(c.store), c.store)
  {
    RunningOk(c.trace, q);
    ghost var start := c.store;
    var names, status := c.ListManagedNamespaces(q, since);
    if !status.Ok? { return status; }
    ghost var listed := c.store;
    err := PruneListed(c, q, names, start, since);
    RelyTransitive(q, start, listed, c.store);
  }
}
