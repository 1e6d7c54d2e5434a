/** The API client of one operator process. Every read may find the cluster changed by others, every call
    may fail, and every write is one that the run is entitled to make. */
module Clients {
  import opened Common
  import opened Api
  import opened Cluster
  import opened Lifecycle
  import opened Interference

  /** The error classes the operator tells apart; Ok is nil. A Fault may or may not have taken effect. */
  datatype Err = Ok | NotFound | NoMatch | Fault | AlreadyOwned | Conflict | Invalid | Panic

  /** What holds between an earlier moment `since` of the run in progress and now. */
  ghost predicate Progress(q: Project, since: Trace, t: Trace) {
    && Legal(t) && Running(t, q) && SameRun(q.name, since, t)
    && Keeps(q, Now(since), Now(t))
    && (q.deleting ==> ManagedShrinks(q, Now(since), Now(t)))
  }

  lemma ProgressTransitive(q: Project, since: Trace, middle: Trace, t: Trace)
    requires Progress(q, since, middle) && Progress(q, middle, t)
    ensures Progress(q, since, t)
  {
    SameRunTransitive(q.name, since, middle, t);
    RelyTransitive(q, Now(since), Now(middle), Now(t));
  }

  /** Names in an arbitrary order, as a list call returns them. */
  method Enumerate<T(==)>(items: set<T>) returns (list: seq<T>)
    ensures forall x :: x in list <==> x in items
    ensures forall i, j :: 0 <= i < j < |list| ==> list[i] != list[j]
  {
    list := [];
    var left := items;
    while left != {}
      invariant left <= items
      invariant forall x :: x in list <==> x in items && x !in left
      invariant forall i, j :: 0 <= i < j < |list| ==> list[i] != list[j]
      decreases |left|
    {
      var x :| x in left;
      left := left - {x};
      list := list + [x];
    }
  }

  class Client {
    var store: Store
    /** How the store came about; it records the run's own writes and everybody else's. */
    var trace: Trace
    /** Nobody else writes. */
    const quiet: bool
    /** No call fails. */
    const reliable: bool

    ghost predicate Valid()
      reads this
    {
      Legal(trace) && store == Now(trace)
    }

    ghost predicate Ready(q: Project, since: Trace)
      reads this
    {
      Valid() && Progress(q, since, trace)
    }

    constructor (s: Store, quiet: bool, reliable: bool)
      requires Inv(s)
      ensures Valid() && store == s && this.quiet == quiet && this.reliable == reliable
    {
      store := s;
      trace := Start(s);
      this.quiet := quiet;
      this.reliable := reliable;
    }

    /** A run begins by reading its project. */
    method Begin(q: Project)
      requires Valid() && Lookup(store.projects, q.name) == Some(q)
      modifies this
      ensures Valid() && Running(trace, q) && Extends(old(trace), trace)
      ensures store == old(store)
    {
      BegunNow(trace, q);
      trace := Then(trace, Run(q), BeginRun);
    }

    method End(q: Project)
      requires Valid() && Running(trace, q)
      modifies this
      ensures Valid() && trace == Then(old(trace), Run(q), EndRun)
      ensures store == old(store)
    {
      EndedNow(trace, q);
      trace := Then(trace, Run(q), EndRun);
    }

    /** The moment of a read: others may have acted since the run's last step. */
    method Observe(q: Project, ghost since: Trace)
      requires Ready(q, since)
      modifies this
      ensures Ready(q, since)
      ensures Keeps(q, old(store), store) && ManagedShrinks(q, old(store), store)
      ensures quiet ==> trace == old(trace) && store == old(store)
      ensures OthersExtend(q.name, old(trace), trace)
    {
      if !quiet {
        var candidate: Trace := *;
        if OthersExtend(q.name, trace, candidate) {
          OthersKeep(q, trace, candidate);
          RelyTransitive(q, Now(since), store, Now(candidate));
          SameRunTransitive(q.name, since, trace, candidate);
          trace := candidate;
          store := Now(candidate);
        }
      }
    }

    method Get(q: Project, key: Key, ghost since: Trace) returns (found: Option<Object>, err: Err)
      requires Ready(q, since)
      modifies this
      ensures Ready(q, since)
      ensures Keeps(q, old(store), store) && ManagedShrinks(q, old(store), store)
      ensures quiet ==> trace == old(trace) && store == old(store)
      ensures err.Ok? || err.NotFound? || err.NoMatch? || err.Fault?
      ensures reliable ==> !err.Fault?
      ensures err.Ok? || err.NotFound? ==> found == Lookup(store.objects, key) && key.kind in store.served
      ensures (err.Ok? ==> found.Some?) && (err.NotFound? ==> found.None?)
      ensures err.NoMatch? ==> key.kind !in store.served && key !in store.objects
      ensures OthersExtend(q.name, old(trace), trace)
    {
      Observe(q, since);
      LegalInv(trace);
      var fault: bool := *;
      if fault && !reliable { return None, Fault; }
      if key.kind !in store.served { return None, NoMatch; }
      found := Lookup(store.objects, key);
      err := if found.Some? then Ok else NotFound;
    }

    method GetNamespace(q: Project, name: string, ghost since: Trace) returns (found: Option<Namespace>, err: Err)
      requires Ready(q, since)
      modifies this
      ensures Ready(q, since)
      ensures Keeps(q, old(store), store) && ManagedShrinks(q, old(store), store)
      ensures quiet ==> trace == old(trace) && store == old(store)
      ensures err.Ok? || err.NotFound? || err.Fault?
      ensures reliable ==> !err.Fault?
      ensures err.Ok? || err.NotFound? ==> found == Lookup(store.namespaces, name)
      ensures OthersExtend(q.name, old(trace), trace)
      ensures (err.Ok? ==> found.Some?) && (err.NotFound? ==> found.None?)
    {
      Observe(q, since);
      var fault: bool := *;
      if fault && !reliable { return None, Fault; }
      found := Lookup(store.namespaces, name);
      err := if found.Some? then Ok else NotFound;
    }

    /** The namespaces labelled for the project. */
    method ListManagedNamespaces(q: Project, ghost since: Trace) returns (names: seq<string>, err: Err)
      requires Ready(q, since)
      modifies this
      ensures Ready(q, since)
      ensures Keeps(q, old(store), store) && ManagedShrinks(q, old(store), store)
      ensures quiet ==> trace == old(trace) && store == old(store)
      ensures err.Ok? || err.Fault?
      ensures reliable ==> err.Ok?
      ensures err.Ok? ==> forall n :: n in names <==>
        n in store.namespaces && IsManaged(store.namespaces[n].labels, q.name)
      ensures err.Ok? ==> forall i, j :: 0 <= i < j < |names| ==> names[i] != names[j]
    {
      Observe(q, since);
      names := [];
      var fault: bool := *;
      if fault && !reliable { return names, Fault; }
      names := Enumerate(set n | n in store.namespaces && IsManaged(store.namespaces[n].labels, q.name));
      err := Ok;
    }

    /** A write of the run. An error can be reported for a write that took effect. */
    method Act(q: Project, action: Action, ghost since: Trace) returns (err: Err)
      requires Ready(q, since)
      requires Permitted(store, q, action) && Entitled(trace, q, action)
      requires !action.DropFinalizer? && !action.BeginRun? && !action.EndRun?
      modifies this
      ensures Ready(q, since)
      ensures Keeps(q, old(store), store)
      ensures !action.AdoptNamespace? ==> ManagedShrinks(q, old(store), store)
      ensures err.Ok? || err.Fault?
      ensures reliable ==> err.Ok?
      ensures err.Ok? ==> trace == Then(old(trace), Run(q), action)
      ensures trace == old(trace) || trace == Then(old(trace), Run(q), action)
      ensures trace == Then(old(trace), Run(q), action) ==> store == ApplyRun(old(store), q, action)
      ensures trace == old(trace) ==> store == old(store)
    {
      var fault, lost: bool := *, *;
      err := if fault && !reliable then Fault else Ok;
      if err.Ok? || lost {
        OwnStepKeeps(store, q, action);
        RelyTransitive(q, Now(since), store, ApplyRun(store, q, action));
        trace := Then(trace, Run(q), action);
        store := Now(trace);
      }
    }

    /** The objects of one kind that the tenant's label selector picks. */
    method List(q: Project, kind: Kind, n: string, ghost since: Trace) returns (keys: seq<Key>, err: Err)
      requires Ready(q, since) && Permitted(store, q, ListObjects(kind, n))
      modifies this
      ensures Ready(q, since)
      ensures Keeps(q, old(store), store) && ManagedShrinks(q, old(store), store)
      ensures quiet ==> store == old(store)
      ensures quiet ==> trace == old(trace) || trace == Then(old(trace), Run(q), ListObjects(kind, n))
      ensures err.Ok? || err.NoMatch? || err.Fault?
      ensures reliable ==> !err.Fault?
      ensures err.NoMatch? ==> kind !in store.served && forall k :: k in store.objects ==> k.kind != kind
      ensures err.Ok? ==> forall k :: k in keys <==> k in store.objects && Picked(store.objects, q.name, kind, n, k)
      ensures err.Ok? ==> kind in store.served && forall k :: k in keys ==> ListedOnce(trace, q, k)
      ensures err.Ok? ==> forall i, j :: 0 <= i < j < |keys| ==> keys[i] != keys[j]
    {
      keys := [];
      Observe(q, since);
      LegalInv(trace);
      var fault: bool := *;
      if fault && !reliable { return keys, Fault; }
      if kind !in store.served { return keys, NoMatch; }
      err := Act(q, ListObjects(kind, n), since);
      if err.Ok? {
        keys := Enumerate(set k | k in store.objects && Picked(store.objects, q.name, kind, n, k));
      }
    }

    /** Create or patch of an object inside a tenant namespace. */
    method WriteTenantObject(q: Project, key: Key, value: Object, owner: Uid, ghost since: Trace) returns (err: Err)
      requires Ready(q, since) && Permitted(store, q, PutTenantObject(key, value, owner))
      requires AdoptedOnce(trace, q, key.namespace, owner)
      modifies this
      ensures Ready(q, since) && Keeps(q, old(store), store)
      ensures err.Ok? || err.Fault?
      ensures reliable ==> err.Ok?
      ensures err.Ok? ==> store == old(store).(objects := old(store).objects[key := value])
    {
      err := Act(q, PutTenantObject(key, value, owner), since);
    }

    /** Create or patch of an object that the project controls. */
    method WriteOwnedObject(q: Project, key: Key, value: Object, ghost since: Trace) returns (err: Err)
      requires Ready(q, since) && Permitted(store, q, PutOwnedObject(key, value))
      modifies this
      ensures Ready(q, since) && Keeps(q, old(store), store)
      ensures err.Ok? || err.Fault?
      ensures reliable ==> err.Ok?
      ensures err.Ok? ==> store == old(store).(objects := old(store).objects[key := value])
    {
      err := Act(q, PutOwnedObject(key, value), since);
    }

    method Delete(q: Project, key: Key, ghost since: Trace) returns (err: Err)
      requires Ready(q, since) && Permitted(store, q, DeleteObject(key)) && Entitled(trace, q, DeleteObject(key))
      modifies this
      ensures Ready(q, since) && Keeps(q, old(store), store) && ManagedShrinks(q, old(store), store)
      ensures err.Ok? || err.Fault?
      ensures reliable ==> err.Ok?
      ensures trace == old(trace) || trace == Then(old(trace), Run(q), DeleteObject(key))
      ensures store == old(store).(objects := store.objects)
      ensures err.Ok? ==> store.objects == old(store).objects - {key}
    {
      err := Act(q, DeleteObject(key), since);
    }

    /** The update that takes the finalizer off a deleted project, which then goes away. */
    method Release(q: Project) returns (err: Err)
      requires Valid() && Running(trace, q) && Permitted(store, q, DropFinalizer)
      modifies this
      ensures Valid() && Running(trace, q) && SameRun(q.name, old(trace), trace)
      ensures err.Ok? || err.Fault?
      ensures reliable ==> err.Ok?
      ensures err.Ok? ==> store == old(store).(projects := old(store).projects - {q.name})
    {
      var fault, lost: bool := *, *;
      err := if fault && !reliable then Fault else Ok;
      if err.Ok? || lost {
        trace := Then(trace, Run(q), DropFinalizer);
        store := Now(trace);
      }
    }
  }
}
