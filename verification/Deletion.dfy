/** The blocking-delete protocol: a deleted project is let go once none of its tenants is live. */
module Deletion {
  import opened Common
  import opened Api
  import opened Cluster
  import opened Lifecycle
  import opened Interference
  import opened Clients
  import opened Cleanup

  // ---------------------------------------------------------------- sorted names

  /** Order of strings by code points. */
  predicate LexLeq(a: string, b: string) {
    a == [] || (b != [] && (a[0] < b[0] || (a[0] == b[0] && LexLeq(a[1..], b[1..]))))
  }

  lemma {:induction false} LexTotal(a: string, b: string)
    ensures LexLeq(a, b) || LexLeq(b, a)
  {
    if a == [] || b == [] {
    } else {
      LexTotal(a[1..], b[1..]);
    }
  }

  predicate LexAt(a: string, b: string, i: int) {
    && 0 <= i <= |a| && i <= |b| && a[..i] == b[..i]
    && (i == |a| || (i < |b| && a[i] < b[i]))
  }

  /** `a` is a prefix of `b`, or smaller at the first place where they differ. */
  lemma {:induction false} LexMeaning(a: string, b: string)
    ensures LexLeq(a, b) <==> exists i :: LexAt(a, b, i)
  {
    if a == [] {
      assert LexAt(a, b, 0);
    } else if b == [] || a[0] != b[0] {
      if b != [] && a[0] < b[0] { assert LexAt(a, b, 0); }
      if i :| LexAt(a, b, i) {
        assert i > 0 ==> a[..i][0] == b[..i][0];
      }
    } else {
      LexMeaning(a[1..], b[1..]);
      if LexLeq(a, b) {
        var i :| LexAt(a[1..], b[1..], i);
        assert a[..i + 1] == [a[0]] + a[1..][..i] && b[..i + 1] == [b[0]] + b[1..][..i];
        assert LexAt(a, b, i + 1);
      }
      if i :| LexAt(a, b, i) {
        assert i > 0;
        assert a[1..][..i - 1] == a[..i][1..] && b[1..][..i - 1] == b[..i][1..];
        assert LexAt(a[1..], b[1..], i - 1);
      }
    }
  }

  /** Each name precedes the next one. */
  predicate IsSorted(names: seq<string>) {
    forall i | 0 <= i < |names| - 1 :: LexLeq(names[i], names[i + 1])
  }

  predicate Distinct(names: seq<string>) {
    forall i, j | 0 <= i < j < |names| :: names[i] != names[j]
  }

  function Insert(name: string, names: seq<string>): seq<string> {
    if names == [] || LexLeq(name, names[0]) then [name] + names else [names[0]] + Insert(name, names[1..])
  }

  function Sorted(names: seq<string>): seq<string> {
    if names == [] then [] else Insert(names[0], Sorted(names[1..]))
  }

  lemma {:induction false} InsertSorted(name: string, names: seq<string>)
    requires IsSorted(names)
    ensures IsSorted(Insert(name, names))
    ensures Insert(name, names)[0] == name || (names != [] && Insert(name, names)[0] == names[0])
  {
    if names == [] || LexLeq(name, names[0]) {
    } else {
      LexTotal(name, names[0]);
      assert forall i :: 0 <= i < |names[1..]| ==> names[1..][i] == names[i + 1];
      InsertSorted(name, names[1..]);
    }
  }

  lemma {:induction false} InsertKeeps(name: string, names: seq<string>)
    ensures multiset(Insert(name, names)) == multiset(names) + multiset{name}
  {
    if names == [] || LexLeq(name, names[0]) {
    } else {
      InsertKeeps(name, names[1..]);
      assert names == [names[0]] + names[1..];
    }
  }

  lemma {:induction false} SortedKeeps(names: seq<string>)
    ensures multiset(Sorted(names)) == multiset(names)
  {
    if names == [] {
    } else {
      SortedKeeps(names[1..]);
      InsertKeeps(names[0], Sorted(names[1..]));
      assert names == [names[0]] + names[1..];
    }
  }

  lemma {:induction false} SortedIsSorted(names: seq<string>)
    ensures IsSorted(Sorted(names)) && multiset(Sorted(names)) == multiset(names)
  {
    SortedKeeps(names);
    if names == [] {
    } else {
      SortedIsSorted(names[1..]);
      InsertSorted(names[0], Sorted(names[1..]));
    }
  }

  lemma {:induction false} DistinctCounts(a: seq<string>, x: string)
    requires Distinct(a)
    ensures multiset(a)[x] <= 1
  {
    if a == [] {
    } else {
      DistinctCounts(a[1..], x);
      assert a == [a[0]] + a[1..];
      assert a[0] !in a[1..];
    }
  }

  lemma SameElements(a: seq<string>, b: seq<string>)
    requires multiset(a) == multiset(b)
    ensures forall x :: x in a <==> x in b
    ensures Distinct(a) ==> Distinct(b)
  {
    forall x
      ensures x in a <==> x in b
    {
      assert x in a <==> x in multiset(a);
      assert x in b <==> x in multiset(b);
    }
    if Distinct(a) && !Distinct(b) {
      var i, j :| 0 <= i < j < |b| && b[i] == b[j];
      assert b == b[..i] + [b[i]] + b[i + 1..j] + [b[j]] + b[j + 1..];
      assert multiset(b)[b[i]] >= 2;
      DistinctCounts(a, b[i]);
    }
  }

  // ---------------------------------------------------------------- one entry

  /** The entry that only carries a tenant name. */
  function BareEntry(n: string): Entry {
    Entry(n, None, None, "", None, None, None, None, [], None, None, "", [], None, map[], map[])
  }

  function ReleasedObjects(objects: Objects, project: string, e: Entry): Objects {
    var released := DropKey(DropKey(objects, EgressKey(Tenant(e)), project), GroupKey(e), project);
    DropAppProjects(released, project, Tenant(e), {})
  }

  /** The object under `k` is the project's, belongs to the tenant of `e` and lives outside its namespace. */
  predicate IsOutside(objects: Objects, project: string, e: Entry, k: Key) {
    && k in objects && IsOwned(k.kind, objects[k].labels, project)
    && (k == EgressKey(Tenant(e)) || k == GroupKey(e) || IsTenantAppProject(objects, project, Tenant(e), k))
  }

  predicate NothingOutside(objects: Objects, project: string, e: Entry) {
    forall k | k in objects :: !IsOutside(objects, project, e, k)
  }

  lemma FewerOutside(a: Objects, b: Objects, project: string, e: Entry)
    requires Fewer(a, b) && NothingOutside(b, project, e)
    ensures NothingOutside(a, project, e)
  {
    forall k | k in a
      ensures !IsOutside(a, project, e, k)
    {
      assert k in b && !IsOutside(b, project, e, k);
    }
  }

  /** Exactly the objects outside go. */
  lemma ReleasedExactly(objects: Objects, project: string, e: Entry)
    ensures Fewer(ReleasedObjects(objects, project, e), objects)
    ensures NothingOutside(ReleasedObjects(objects, project, e), project, e)
    ensures forall k | k in objects :: k !in ReleasedObjects(objects, project, e) ==> IsOutside(objects, project, e, k)
  {
  }

  lemma FewerLeft(a: Objects, b: Objects, q: Project, e: Entry)
    requires Fewer(a, b) && NothingLeft(b, q, e)
    ensures NothingLeft(a, q, e)
  {
    var n := Tenant(e);
    forall k | k in a
      ensures !IsTenantPolicy(a, q.name, n, k) && !IsTenantAppProject(a, q.name, n, k)
    {
      assert k in b && !IsTenantPolicy(b, q.name, n, k) && !IsTenantAppProject(b, q.name, n, k);
    }
  }

  /** What completion leaves of an entry: nothing that its cleanup deletes if it is offboarded, otherwise nothing
      outside its namespace. */
  predicate IsSettled(objects: Objects, q: Project, e: Entry) {
    if IsOffboard(e) then NothingLeft(objects, q, e) else NothingOutside(objects, q.name, e)
  }

  /** Remove the objects outside the tenant namespace. */
  method CleanupNamespaceClusterScoped(c: Client, q: Project, e: Entry, ghost since: Trace) returns (err: Err)
    requires c.Ready(q, since) && q.deleting && !LiveManaged(c.store, q.name, Tenant(e))
    modifies c
    ensures c.Ready(q, since) && ManagedShrinks(q, old(c.store), c.store) && Keeps(q, old(c.store), c.store)
    ensures c.quiet ==> c.store.namespaces == old(c.store).namespaces
    ensures c.quiet && err.Ok? ==> c.store.objects == ReleasedObjects(old(c.store).objects, q.name, e)
    ensures c.reliable ==> err.Ok?
    ensures c.quiet && err.Ok? ==> c.store.projects == old(c.store).projects
    ensures c.store.served == old(c.store).served
  {
    ghost var start := c.store;
    err := DeleteManaged(c, q, EgressKey(Tenant(e)), e, since);
    if !err.Ok? { return; }
    err := DeleteManaged(c, q, GroupKey(e), e, since);
    if !err.Ok? { return; }
    err := DeleteAppProjectsForNamespace(c, q, {}, e, since);
  }

  method ManagedNamespaceExists(c: Client, q: Project, n: string, ghost since: Trace) returns (present: bool, err: Err)
    requires c.Ready(q, since)
    modifies c
    ensures c.Ready(q, since) && ManagedShrinks(q, old(c.store), c.store) && Keeps(q, old(c.store), c.store)
    ensures c.quiet ==> c.store == old(c.store)
    ensures err.Ok? ==> (present <==> LiveManaged(c.store, q.name, n))
    ensures err.Ok? || err.Fault?
    ensures c.reliable ==> err.Ok?
    ensures c.store.served == old(c.store).served
  {
    var found, status := c.GetNamespace(q, n, since);
    if status.NotFound? { return false, Ok; }
    if !status.Ok? { return false, status; }
    present := IsManaged(found.value.labels, q.name) && !found.value.terminating;
    err := Ok;
  }

  /** Every namespace but `n` is as live and managed as before. */
  predicate OthersStayManaged(q: Project, before: Store, after: Store, n: string) {
    forall m | m in before.namespaces :: m != n ==> LiveManaged(before, q.name, m) ==> LiveManaged(after, q.name, m)
  }

  lemma CleanupStaysInTenant(q: Project, s: Store, e: Entry)
    ensures OthersStayManaged(q, s, Cleaned(s, q.name, e), Tenant(e))
  {
  }

  /** Some(name) when the entry still blocks the deletion. */
  method FinalizeNamespaceEntry(c: Client, q: Project, e: Entry, ghost since: Trace)
    returns (pending: Option<string>, err: Err)
    requires c.Ready(q, since) && q.deleting && e in q.entries
    modifies c
    ensures c.Ready(q, since) && ManagedShrinks(q, old(c.store), c.store)
    ensures pending.Some? ==> pending.value == Tenant(e)
    ensures err.Ok? && pending.None? ==> !LiveManaged(c.store, q.name, Tenant(e))
    ensures c.quiet && err.Ok? ==> OthersStayManaged(q, old(c.store), c.store, Tenant(e))
    ensures c.quiet && err.Ok? ==> (pending.Some? <==> !IsOffboard(e) && LiveManaged(old(c.store), q.name, Tenant(e)))
    ensures c.quiet && err.Ok? && pending.Some? ==> LiveManaged(c.store, q.name, Tenant(e))
    ensures c.quiet && err.Ok? ==> Fewer(c.store.objects, old(c.store).objects)
    ensures c.quiet && err.Ok? && pending.None? ==> IsSettled(c.store.objects, q, e)
    ensures c.quiet && err.Ok? ==> c.store.projects == old(c.store).projects
    ensures c.store.served == old(c.store).served
    ensures c.reliable && BuiltInServed(c.store) ==> err.Ok?
  {
    pending := None;
    var present, status := ManagedNamespaceExists(c, q, Tenant(e), since);
    err := status;
    if !err.Ok? { return; }
    if IsOffboard(e) {
      CleanupStaysInTenant(q, c.store, e);
      CleanedFewer(c.store.objects, q.name, e);
      CleanedLeavesNothing(c.store.objects, q, e);
      err := CleanupNamespace(c, q, e, since);
      return;
    }
    if present { return Some(Tenant(e)), Ok; }
    ReleasedExactly(c.store.objects, q.name, e);
    err := CleanupNamespaceClusterScoped(c, q, e, since);
  }

  // ---------------------------------------------------------------- released tenants

  method NamespaceExists(c: Client, q: Project, n: string, ghost since: Trace) returns (present: bool, err: Err)
    requires c.Ready(q, since)
    modifies c
    ensures c.Ready(q, since) && ManagedShrinks(q, old(c.store), c.store)
    ensures c.quiet ==> c.store == old(c.store)
    ensures err.Ok? ==> (present <==> n in c.store.namespaces)
    ensures c.reliable ==> err.Ok?
    ensures c.store.served == old(c.store).served
  {
    var found, status := c.GetNamespace(q, n, since);
    if status.NotFound? { return false, Ok; }
    if !status.Ok? { return false, status; }
    present, err := true, Ok;
  }

  predicate InSpec(q: Project, n: string) {
    exists i | 0 <= i < |q.entries| :: Tenant(q.entries[i]) == n
  }

  /** The name of a namespace, or the one its target-namespace label gives. */
  predicate IsNameOf(namespaces: map<string, Namespace>, m: string, n: string) {
    && m in namespaces
    && (|| n == m
        || (TargetNamespace in namespaces[m].labels && namespaces[m].labels[TargetNamespace] != ""
            && n == Sanitize(namespaces[m].labels[TargetNamespace])))
  }

  /** The tenants a project may have objects for outside their namespaces: those of its entries, the namespaces in
      the list, and what their labels say. */
  method TenantNames(c: Client, q: Project, names: seq<string>) returns (tenants: set<string>)
    requires c.Valid() && forall i :: 0 <= i < |names| ==> names[i] in c.store.namespaces
    ensures forall n :: n in tenants ==> '_' !in n
    ensures forall n :: n in tenants <==> InSpec(q, n) || exists m | m in names :: IsNameOf(c.store.namespaces, m, n)
  {
    tenants := set i | 0 <= i < |q.entries| :: Tenant(q.entries[i]);
    LegalInv(c.trace);
    for i := 0 to |names|
      invariant forall n :: n in tenants ==> '_' !in n
      invariant forall n :: n in tenants <==>
        InSpec(q, n) || exists m | m in names[..i] :: IsNameOf(c.store.namespaces, m, n)
    {
      assert NamespaceOk(c.store, names[i], c.store.namespaces[names[i]]);
      assert names[..i + 1] == names[..i] + [names[i]];
      assert IsNameOf(c.store.namespaces, names[i], names[i]);
      tenants := tenants + {names[i]};
      var target := Lookup(c.store.namespaces[names[i]].labels, TargetNamespace);
      if target.Some? && target.value != "" {
        tenants := tenants + {Sanitize(target.value)};
        assert IsNameOf(c.store.namespaces, names[i], Sanitize(target.value));
      }
    }
    assert names[..|names|] == names;
  }

  ghost predicate IsReleased(q: Project, s: Store, k: Key) {
    exists n :: '_' !in n && n !in s.namespaces && IsOutside(s.objects, q.name, BareEntry(n), k)
  }

  /** Only objects of tenants without a namespace are gone. */
  ghost predicate OnlyReleased(q: Project, s: Store, t: Store) {
    && Fewer(t.objects, s.objects)
    && forall k | k in s.objects && k !in t.objects :: IsReleased(q, s, k)
  }

  lemma ReleasedFurther(q: Project, s: Store, t: Store, u: Store, n: string)
    requires OnlyReleased(q, s, t) && '_' !in n && n !in s.namespaces
    requires u.objects == ReleasedObjects(t.objects, q.name, BareEntry(n))
    ensures OnlyReleased(q, s, u) && NothingOutside(u.objects, q.name, BareEntry(n))
    ensures forall m | NothingOutside(t.objects, q.name, BareEntry(m)) ::
      NothingOutside(u.objects, q.name, BareEntry(m))
  {
    ReleasedExactly(t.objects, q.name, BareEntry(n));
    forall k | k in s.objects && k !in u.objects
      ensures IsReleased(q, s, k)
    {
      if k in t.objects {
        assert IsOutside(s.objects, q.name, BareEntry(n), k);
      }
    }
    forall m | NothingOutside(t.objects, q.name, BareEntry(m))
      ensures NothingOutside(u.objects, q.name, BareEntry(m))
    {
      FewerOutside(u.objects, t.objects, q.name, BareEntry(m));
    }
  }

  /** A tenant of an entry, or a managed namespace, or what the label of a managed namespace says. */
  ghost predicate IsKnownTenant(q: Project, s: Store, n: string) {
    || InSpec(q, n)
    || exists m | m in s.namespaces && IsManaged(s.namespaces[m].labels, q.name) :: IsNameOf(s.namespaces, m, n)
  }

  method CleanupClusterScopedForReleasedTenants(c: Client, q: Project, ghost since: Trace) returns (err: Err)
    requires c.Ready(q, since) && q.deleting
    modifies c
    ensures c.Ready(q, since) && ManagedShrinks(q, old(c.store), c.store)
    ensures c.quiet ==> c.store.namespaces == old(c.store).namespaces
    ensures c.quiet && err.Ok? ==> OnlyReleased(q, old(c.store), c.store)
    ensures c.quiet && err.Ok? ==> forall n | IsKnownTenant(q, old(c.store), n) ::
      n in c.store.namespaces || NothingOutside(c.store.objects, q.name, BareEntry(n))
    ensures c.reliable ==> err.Ok?
    ensures c.quiet && err.Ok? ==> c.store.projects == old(c.store).projects
    ensures c.store.served == old(c.store).served
  {
    ghost var start := c.store;
    var names, status := c.ListManagedNamespaces(q, since);
    if !status.Ok? { return status; }
    var tenants := TenantNames(c, q, names);
    ghost var all := tenants;
    assert c.quiet ==> forall n | IsKnownTenant(q, start, n) :: n in all;
    while tenants != {}
      invariant c.Ready(q, since) && ManagedShrinks(q, start, c.store)
      invariant c.quiet ==> c.store.namespaces == start.namespaces
      invariant forall n :: n in tenants ==> '_' !in n
      invariant c.quiet ==> OnlyReleased(q, start, c.store)
      invariant c.store.served == start.served && (c.quiet ==> c.store.projects == start.projects)
      invariant c.quiet ==> forall n | n in all && n !in tenants ::
        n in start.namespaces || NothingOutside(c.store.objects, q.name, BareEntry(n))
      decreases |tenants|
    {
      var n :| n in tenants;
      tenants := tenants - {n};
      var present: bool;
      present, err := NamespaceExists(c, q, n, since);
      if !err.Ok? { return; }
      if !present {
        ghost var seen := c.store;
        err := CleanupNamespaceClusterScoped(c, q, BareEntry(n), since);
        if !err.Ok? { return; }
        if c.quiet { ReleasedFurther(q, start, seen, c.store, n); }
      }
    }
    err := Ok;
  }

  // ---------------------------------------------------------------- the protocol

  /** The entry is pending, or settled. */
  predicate EntryReleased(e: Entry, q: Project, pending: seq<string>, s: Store) {
    Tenant(e) in pending || IsSettled(s.objects, q, e)
  }

  lemma StillReleased(q: Project, i: nat, names: seq<string>, pending: seq<string>, s: Store, t: Store)
    requires i <= |q.entries| && Fewer(t.objects, s.objects) && forall n | n in names :: n in pending
    requires forall j | 0 <= j < i :: EntryReleased(q.entries[j], q, names, s)
    ensures forall j | 0 <= j < i :: EntryReleased(q.entries[j], q, pending, t)
  {
    forall j | 0 <= j < i
      ensures EntryReleased(q.entries[j], q, pending, t)
    {
      var e := q.entries[j];
      assert EntryReleased(e, q, names, s);
      if NothingOutside(s.objects, q.name, e) { FewerOutside(t.objects, s.objects, q.name, e); }
      if NothingLeft(s.objects, q, e) { FewerLeft(t.objects, s.objects, q, e); }
    }
  }

  /** One of the first `i` entries is for tenant `n`. */
  predicate Named(q: Project, i: nat, n: string)
    requires i <= |q.entries|
  {
    exists j | 0 <= j < i :: Tenant(q.entries[j]) == n
  }

  /** One of the first `i` entries keeps tenant `n`. */
  predicate Keeping(q: Project, i: nat, n: string)
    requires i <= |q.entries|
  {
    exists j | 0 <= j < i :: Tenant(q.entries[j]) == n && !IsOffboard(q.entries[j])
  }

  /** What the first `i` entries have contributed to the list, whatever others do. */
  ghost predicate Collected(q: Project, i: nat, pending: seq<string>, s: Store) {
    && i <= |q.entries| && Distinct(pending)
    && (forall n | n in pending :: Named(q, i, n))
    && (forall j | 0 <= j < i :: LiveManaged(s, q.name, Tenant(q.entries[j])) ==> Tenant(q.entries[j]) in pending)
  }

  /** The same when nobody else acted since `start`. */
  ghost predicate CollectedFrom(q: Project, i: nat, pending: seq<string>, start: Store, s: Store) {
    && i <= |q.entries|
    && (forall n :: n in pending <==> Keeping(q, i, n) && LiveManaged(start, q.name, n))
    && (forall n | n in pending :: LiveManaged(s, q.name, n))
    && (forall n :: !Named(q, i, n) ==> (LiveManaged(s, q.name, n) <==> LiveManaged(start, q.name, n)))
    && (forall j | 0 <= j < i :: EntryReleased(q.entries[j], q, pending, s))
  }

  lemma NotYetNamed(q: Project, i: nat)
    requires DistinctTenants(q.entries) && i < |q.entries|
    ensures !Named(q, i, Tenant(q.entries[i]))
  {
  }

  lemma NamedNext(q: Project, i: nat, n: string)
    requires i < |q.entries|
    ensures Named(q, i + 1, n) <==> Named(q, i, n) || Tenant(q.entries[i]) == n
    ensures Keeping(q, i + 1, n) <==> Keeping(q, i, n) || (Tenant(q.entries[i]) == n && !IsOffboard(q.entries[i]))
    ensures Keeping(q, i, n) ==> Named(q, i, n)
  {
  }

  function With(pending: seq<string>, name: Option<string>): seq<string> {
    if name.Some? then pending + [name.value] else pending
  }

  lemma CollectedFurther(q: Project, i: nat, pending: seq<string>, name: Option<string>, s: Store, t: Store)
    requires i < |q.entries| && DistinctTenants(q.entries) && Collected(q, i, pending, s) && ManagedShrinks(q, s, t)
    requires name.Some? ==> name.value == Tenant(q.entries[i])
    requires name.None? ==> !LiveManaged(t, q.name, Tenant(q.entries[i]))
    ensures Collected(q, i + 1, With(pending, name), t)
  {
    var all := With(pending, name);
    NotYetNamed(q, i);
    forall n | n in all
      ensures Named(q, i + 1, n)
    {
      NamedNext(q, i, n);
    }
    forall j | 0 <= j < i + 1 && LiveManaged(t, q.name, Tenant(q.entries[j]))
      ensures Tenant(q.entries[j]) in all
    {
      assert LiveManaged(s, q.name, Tenant(q.entries[j]));
    }
  }

  /** What the next entry adds to the list, seen at one name. */
  lemma CollectedNextAt(q: Project, i: nat, pending: seq<string>, name: Option<string>, start: Store, s: Store,
                        t: Store, n: string)
    requires i < |q.entries| && DistinctTenants(q.entries)
    requires n in pending <==> Keeping(q, i, n) && LiveManaged(start, q.name, n)
    requires !Named(q, i, n) ==> (LiveManaged(s, q.name, n) <==> LiveManaged(start, q.name, n))
    requires n in pending ==> LiveManaged(s, q.name, n)
    requires OthersStayManaged(q, s, t, Tenant(q.entries[i])) && ManagedShrinks(q, s, t)
    requires name == if !IsOffboard(q.entries[i]) && LiveManaged(s, q.name, Tenant(q.entries[i]))
                     then Some(Tenant(q.entries[i])) else None
    requires name.Some? ==> LiveManaged(t, q.name, Tenant(q.entries[i]))
    ensures n in With(pending, name) <==> Keeping(q, i + 1, n) && LiveManaged(start, q.name, n)
    ensures n in With(pending, name) ==> LiveManaged(t, q.name, n)
    ensures !Named(q, i + 1, n) ==> (LiveManaged(t, q.name, n) <==> LiveManaged(start, q.name, n))
  {
    NotYetNamed(q, i);
    NamedNext(q, i, n);
    assert n in With(pending, name) <==> n in pending || name == Some(n);
  }

  lemma ReleasedNext(q: Project, i: nat, pending: seq<string>, name: Option<string>, s: Store, t: Store)
    requires i < |q.entries| && Fewer(t.objects, s.objects)
    requires forall j | 0 <= j < i :: EntryReleased(q.entries[j], q, pending, s)
    requires name.Some? ==> name.value == Tenant(q.entries[i])
    requires name.None? ==> IsSettled(t.objects, q, q.entries[i])
    ensures forall j | 0 <= j < i + 1 :: EntryReleased(q.entries[j], q, With(pending, name), t)
  {
    StillReleased(q, i, pending, With(pending, name), s, t);
  }

  lemma CollectedNext(q: Project, i: nat, pending: seq<string>, name: Option<string>, start: Store, s: Store, t: Store)
    requires i < |q.entries| && DistinctTenants(q.entries) && CollectedFrom(q, i, pending, start, s)
    requires OthersStayManaged(q, s, t, Tenant(q.entries[i])) && ManagedShrinks(q, s, t) && Fewer(t.objects, s.objects)
    requires name == if !IsOffboard(q.entries[i]) && LiveManaged(s, q.name, Tenant(q.entries[i]))
                     then Some(Tenant(q.entries[i])) else None
    requires name.Some? ==> LiveManaged(t, q.name, Tenant(q.entries[i]))
    requires name.None? ==> IsSettled(t.objects, q, q.entries[i])
    ensures CollectedFrom(q, i + 1, With(pending, name), start, t)
  {
    ReleasedNext(q, i, pending, name, s, t);
    forall n {
      CollectedNextAt(q, i, pending, name, start, s, t, n);
    }
  }

  method FinalizeEntryAt(c: Client, q: Project, i: nat, pending: seq<string>, ghost start: Store, ghost since: Trace)
    returns (all: seq<string>, err: Err)
    requires c.Ready(q, since) && q.deleting && DistinctTenants(q.entries) && i < |q.entries|
    requires Collected(q, i, pending, c.store) && (c.quiet ==> CollectedFrom(q, i, pending, start, c.store))
    modifies c
    ensures c.Ready(q, since) && ManagedShrinks(q, old(c.store), c.store)
    ensures err.Ok? ==> Collected(q, i + 1, all, c.store)
    ensures c.quiet && err.Ok? ==> CollectedFrom(q, i + 1, all, start, c.store)
    ensures c.quiet && err.Ok? ==> c.store.projects == old(c.store).projects
    ensures c.store.served == old(c.store).served
    ensures c.reliable && BuiltInServed(c.store) ==> err.Ok?
  {
    ghost var before := c.store;
    all := pending;
    var name: Option<string>;
    name, err := FinalizeNamespaceEntry(c, q, q.entries[i], since);
    if !err.Ok? { return; }
    if name.Some? { all := all + [name.value]; }
    CollectedFurther(q, i, pending, name, before, c.store);
    if c.quiet { CollectedNext(q, i, pending, name, start, before, c.store); }
  }

  /** A live managed namespace blocks the deletion unless an entry marks it for offboarding. */
  predicate Blocks(q: Project, s: Store, n: string) {
    LiveManaged(s, q.name, n) && !Marks(q, n)
  }

  lemma NothingCollected(q: Project, s: Store)
    ensures Collected(q, 0, [], s) && CollectedFrom(q, 0, [], s, s)
  {
  }

  /** First part: every entry in turn. */
  method FinalizeEntries(c: Client, q: Project, ghost since: Trace) returns (pending: seq<string>, err: Err)
    requires c.Ready(q, since) && q.deleting && DistinctTenants(q.entries)
    modifies c
    ensures c.Ready(q, since) && ManagedShrinks(q, old(c.store), c.store)
    ensures err.Ok? ==> Collected(q, |q.entries|, pending, c.store)
    ensures c.quiet && err.Ok? ==> CollectedFrom(q, |q.entries|, pending, old(c.store), c.store)
    ensures c.quiet && err.Ok? ==> c.store.projects == old(c.store).projects
    ensures c.store.served == old(c.store).served
    ensures c.reliable && BuiltInServed(c.store) ==> err.Ok?
  {
    ghost var start := c.store;
    pending := [];
    NothingCollected(q, start);
    for i := 0 to |q.entries|
      invariant c.Ready(q, since) && ManagedShrinks(q, start, c.store)
      invariant Collected(q, i, pending, c.store)
      invariant c.quiet ==> CollectedFrom(q, i, pending, start, c.store)
      invariant c.store.served == start.served && (c.quiet ==> c.store.projects == start.projects)
    {
      pending, err := FinalizeEntryAt(c, q, i, pending, start, since);
      if !err.Ok? { return; }
    }
    err := Ok;
  }

  /** Second part: live managed namespaces that no entry names. */
  method AddOrphans(c: Client, q: Project, pending: seq<string>, ghost since: Trace)
    returns (all: seq<string>, err: Err)
    requires c.Ready(q, since) && Distinct(pending)
    requires forall n :: n in pending ==> InSpec(q, n)
    modifies c
    ensures c.Ready(q, since) && ManagedShrinks(q, old(c.store), c.store)
    ensures c.quiet ==> c.store == old(c.store)
    ensures err.Ok? ==> forall n :: n in all <==> n in pending || (!InSpec(q, n) && LiveManaged(c.store, q.name, n))
    ensures err.Ok? ==> Distinct(all)
    ensures c.reliable ==> err.Ok?
    ensures c.store.served == old(c.store).served
  {
    all := pending;
    var names, status := c.ListManagedNamespaces(q, since);
    err := status;
    if !err.Ok? { return; }
    for i := 0 to |names|
      invariant forall n :: n in all <==>
        n in pending || (!InSpec(q, n) && n in names[..i] && LiveManaged(c.store, q.name, n))
      invariant Distinct(all)
    {
      assert names[i] !in names[..i];
      if !InSpec(q, names[i]) && !c.store.namespaces[names[i]].terminating {
        all := all + [names[i]];
      }
    }
    assert names[..|names|] == names;
  }

  /** Nothing is left of the entries that the finalization takes away. */
  predicate AllReleased(q: Project, s: Store) {
    forall i | 0 <= i < |q.entries| :: IsSettled(s.objects, q, q.entries[i])
  }

  lemma EntriesReleased(q: Project, pending: seq<string>, s: Store, t: Store)
    requires Fewer(t.objects, s.objects) && forall n :: n !in pending
    requires forall i | 0 <= i < |q.entries| :: EntryReleased(q.entries[i], q, pending, s)
    ensures AllReleased(q, t)
  {
    StillReleased(q, |q.entries|, pending, pending, s, t);
    forall i | 0 <= i < |q.entries|
      ensures IsSettled(t.objects, q, q.entries[i])
    {
      assert EntryReleased(q.entries[i], q, pending, t);
    }
  }

  /** The entries and the orphans together list exactly what blocks. */
  lemma ListedBlocks(q: Project, pending: seq<string>, start: Store, s: Store, n: string)
    requires DistinctTenants(q.entries) && CollectedFrom(q, |q.entries|, pending, start, s)
    ensures n in pending || (!InSpec(q, n) && LiveManaged(s, q.name, n)) <==> Blocks(q, start, n)
  {
    MarksExactly(q, n);
    assert InSpec(q, n) <==> Named(q, |q.entries|, n);
    if InSpec(q, n) {
      var i :| 0 <= i < |q.entries| && Tenant(q.entries[i]) == n;
      forall j | 0 <= j < |q.entries| && Tenant(q.entries[j]) == n
        ensures j == i
      {
        assert DistinctTenants(q.entries);
      }
    } else {
      assert !Keeping(q, |q.entries|, n) && !HasEntry(q, n, true);
    }
  }

  /** Whatever others do meanwhile, an error-free finalization that reports completion leaves no live managed
      namespace, and one that does not names every live managed namespace. Undisturbed, it reports the sorted,
      duplicate-free list of exactly the namespaces that were live and managed before and that no entry marks for
      offboarding, in the spec or orphaned; these and no others are live and managed afterwards, so that a fully
      offboarded project completes at once; and after completion nothing is left of the entries. */
  method FinalizeProjectOnboardingDeletion(c: Client, q: Project, ghost since: Trace)
    returns (complete: bool, pending: seq<string>, err: Err)
    requires c.Ready(q, since) && q.deleting
    modifies c
    ensures c.Ready(q, since) && ManagedShrinks(q, old(c.store), c.store)
    ensures err.Ok? ==> (complete <==> pending == []) && IsSorted(pending) && Distinct(pending)
    ensures err.Ok? ==> forall n :: LiveManaged(c.store, q.name, n) ==> n in pending
    ensures err.Ok? && c.quiet ==> forall n :: n in pending <==> LiveManaged(c.store, q.name, n)
    ensures err.Ok? && c.quiet ==> forall n :: n in pending <==> Blocks(q, old(c.store), n)
    ensures err.Ok? && c.quiet && complete ==> AllReleased(q, c.store)
    ensures c.quiet && err.Ok? ==> c.store.projects == old(c.store).projects
    ensures c.store.served == old(c.store).served
    ensures c.reliable && BuiltInServed(c.store) ==> err.Ok?
  {
    RunningOk(c.trace, q);
    ghost var start := c.store;
    complete := false;
    pending, err := FinalizeEntries(c, q, since);
    if !err.Ok? { return; }
    ghost var inSpec, afterEntries := pending, c.store;
    assert forall n :: InSpec(q, n) <==> Named(q, |q.entries|, n);
    pending, err := AddOrphans(c, q, pending, since);
    if !err.Ok? { return; }
    ghost var all, listed := pending, c.store;
    err := CleanupClusterScopedForReleasedTenants(c, q, since);
    if !err.Ok? { return; }
    pending := Sorted(pending);
    SortedIsSorted(all);
    SameElements(all, pending);
    complete := |pending| == 0;
    if c.quiet {
      forall n {
        ListedBlocks(q, inSpec, start, afterEntries, n);
      }
      if complete { EntriesReleased(q, inSpec, afterEntries, c.store); }
    }
    forall n | LiveManaged(c.store, q.name, n)
      ensures n in pending
    {
      assert LiveManaged(listed, q.name, n);
      assert LiveManaged(afterEntries, q.name, n);
    }
  }
}
