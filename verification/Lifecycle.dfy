/** Safety over every history: what each step keeps, and what no history can do. */
module Lifecycle {
  import opened Common
  import opened Policies
  import opened Api
  import opened Status
  import opened Cluster

  // ---------------------------------------------------------------- the invariant is inductive

  lemma {:induction false} RunningOk(t: Trace, q: Project)
    requires Legal(t) && Running(t, q)
    ensures ProjectOk(q.name, q)
    decreases t, 1
  {
    if Turns(t, q.name) {
      LegalInv(t.past);
    } else {
      RunningOk(t.past, q);
    }
  }

  lemma {:induction false} ActorOk(t: Trace, q: Project, a: Action)
    requires StepOk(t, Run(q), a)
    ensures ProjectOk(q.name, q)
    decreases t, 2
  {
    if a.BeginRun? {
      LegalInv(t);
    } else {
      RunningOk(t, q);
    }
  }

  lemma SameProject(name: string, p: Project, p': Project)
    requires ProjectOk(name, p) && p'.name == p.name && p'.uid == p.uid && p'.entries == p.entries
    requires UniqueTypes(p'.status.conditions)
    ensures ProjectOk(name, p')
  {
  }

  lemma RunStepProject(s: Store, q: Project, a: Action, p: string)
    requires p in s.projects ==> ProjectOk(p, s.projects[p])
    requires Permitted(s, q, a) && p in ApplyRun(s, q, a).projects
    ensures p in s.projects && ProjectOk(p, ApplyRun(s, q, a).projects[p])
  {
    SameProject(p, s.projects[p], ApplyRun(s, q, a).projects[p]);
  }

  /** The project that `n`'s controller names is unchanged in what NamespaceOk asks of it. */
  predicate OwnerKept(s: Store, after: Store, u: Uid) {
    u.name in s.projects && s.projects[u.name].uid == u && s.projects[u.name].finalizer ==>
      u.name in after.projects && after.projects[u.name].uid == u && after.projects[u.name].finalizer
  }

  lemma RunStepOwner(s: Store, q: Project, a: Action, u: Uid)
    requires Permitted(s, q, a) && q.uid.ProjectUid? && q.uid.name == q.name
    requires a.DropFinalizer? ==> u != q.uid
    ensures OwnerKept(s, ApplyRun(s, q, a), u)
  {
  }

  lemma RunStepNamespace(s: Store, q: Project, a: Action, n: string)
    requires n in s.namespaces ==> NamespaceOk(s, n, s.namespaces[n])
    requires Permitted(s, q, a) && q.uid.ProjectUid? && q.uid.name == q.name
    requires n in ApplyRun(s, q, a).namespaces
    ensures NamespaceOk(ApplyRun(s, q, a), n, ApplyRun(s, q, a).namespaces[n])
  {
    var after := ApplyRun(s, q, a);
    if a.AdoptNamespace? && a.tenant == n {
      RunStepOwner(s, q, a, q.uid);
    } else if n in s.namespaces && s.namespaces[n].controller.Some? && !s.namespaces[n].terminating {
      RunStepOwner(s, q, a, s.namespaces[n].controller.value);
    }
  }

  lemma RunStepKeepsInv(s: Store, q: Project, a: Action)
    requires Inv(s) && Permitted(s, q, a) && ProjectOk(q.name, q)
    ensures Inv(ApplyRun(s, q, a))
  {
    var after := ApplyRun(s, q, a);
    forall p | p in after.projects
      ensures ProjectOk(p, after.projects[p])
    {
      RunStepProject(s, q, a, p);
    }
    forall n | n in after.namespaces
      ensures NamespaceOk(after, n, after.namespaces[n])
    {
      RunStepNamespace(s, q, a, n);
    }
    assert forall k | k in after.objects :: k.kind in after.served;
  }

  lemma EnvironmentWritesProject(s: Store, a: Action)
    requires Possible(s, a) && (a.CreateProject? || a.EditProject?)
    requires a.project in s.projects ==> ProjectOk(a.project, s.projects[a.project])
    ensures ProjectOk(a.project, ApplyEnvironment(s, a).projects[a.project])
  {
  }

  lemma EnvironmentSparesProject(s: Store, a: Action, p: string)
    requires Possible(s, a) && p in ApplyEnvironment(s, a).projects
    requires a.CreateProject? || a.EditProject? ==> a.project != p
    ensures p in s.projects
    ensures var after := ApplyEnvironment(s, a).projects[p];
      after == s.projects[p].(deleting := after.deleting)
  {
  }

  lemma EnvironmentStepProject(s: Store, a: Action, p: string)
    requires p in s.projects ==> ProjectOk(p, s.projects[p])
    requires Possible(s, a) && p in ApplyEnvironment(s, a).projects
    ensures ProjectOk(p, ApplyEnvironment(s, a).projects[p])
  {
    if (a.CreateProject? || a.EditProject?) && a.project == p {
      EnvironmentWritesProject(s, a);
    } else {
      EnvironmentSparesProject(s, a, p);
      SameProject(p, s.projects[p], ApplyEnvironment(s, a).projects[p]);
    }
  }

  lemma EnvironmentStepOwner(s: Store, a: Action, u: Uid)
    requires Possible(s, a)
    ensures OwnerKept(s, ApplyEnvironment(s, a), u)
  {
  }

  lemma EnvironmentStepNamespace(s: Store, a: Action, n: string)
    requires n in s.namespaces ==> NamespaceOk(s, n, s.namespaces[n])
    requires Possible(s, a) && n in ApplyEnvironment(s, a).namespaces
    ensures NamespaceOk(ApplyEnvironment(s, a), n, ApplyEnvironment(s, a).namespaces[n])
  {
    if n in s.namespaces && s.namespaces[n].controller.Some? && !s.namespaces[n].terminating {
      EnvironmentStepOwner(s, a, s.namespaces[n].controller.value);
    }
  }

  lemma EnvironmentStepKeepsInv(s: Store, a: Action)
    requires Inv(s) && Possible(s, a)
    ensures Inv(ApplyEnvironment(s, a))
  {
    var after := ApplyEnvironment(s, a);
    forall p | p in after.projects
      ensures ProjectOk(p, after.projects[p])
    {
      EnvironmentStepProject(s, a, p);
    }
    forall n | n in after.namespaces
      ensures NamespaceOk(after, n, after.namespaces[n])
    {
      EnvironmentStepNamespace(s, a, n);
    }
    assert forall k | k in after.objects :: k.kind in after.served;
  }

  /** Every store of a legal history satisfies the invariant. */
  lemma {:induction false} LegalInv(t: Trace)
    requires Legal(t)
    ensures Inv(Now(t))
    decreases t, 0
  {
    if t.Start? {
    } else {
      LegalInv(t.past);
      match t.actor
      case Environment => EnvironmentStepKeepsInv(Now(t.past), t.action);
      case Run(q) =>
        ActorOk(t.past, q, t.action);
        RunStepKeepsInv(Now(t.past), q, t.action);
    }
  }

  /** A run begins with the project as it is stored, and changes nothing by beginning. */
  lemma BegunNow(t: Trace, q: Project)
    requires Legal(t) && Lookup(Now(t).projects, q.name) == Some(q)
    ensures Legal(Then(t, Run(q), BeginRun)) && Running(Then(t, Run(q), BeginRun), q)
    ensures Now(Then(t, Run(q), BeginRun)) == Now(t)
  {
    assert Apply(Now(t), Run(q), BeginRun) == Now(t);
  }

  /** A run that ends changes nothing by ending, and none is in progress then. */
  lemma EndedNow(t: Trace, q: Project)
    requires Legal(t) && Running(t, q)
    ensures Legal(Then(t, Run(q), EndRun)) && RunOf(Then(t, Run(q), EndRun), q.name) == None
    ensures Now(Then(t, Run(q), EndRun)) == Now(t)
  {
    assert Apply(Now(t), Run(q), EndRun) == Now(t);
  }

  // ---------------------------------------------------------------- live tenants are not lost

  lemma RunStepOnLive(s: Store, q: Project, a: Action, n: string)
    requires Permitted(s, q, a) && IsLive(s, n) && s.namespaces[n].controller.Some?
    requires NamespaceOk(s, n, s.namespaces[n])
    ensures n in ApplyRun(s, q, a).namespaces
    ensures ApplyRun(s, q, a).namespaces[n].uid == s.namespaces[n].uid
    ensures ApplyRun(s, q, a).namespaces[n].controller == s.namespaces[n].controller
    ensures !IsLive(ApplyRun(s, q, a), n) ==>
      a == DeleteNamespace(n) && HasEntry(q, n, true) && q.name == s.namespaces[n].controller.value.name
  {
  }

  lemma EnvironmentStepOnLive(s: Store, a: Action, n: string)
    requires Possible(s, a) && IsLive(s, n) && s.namespaces[n].controller.Some?
    requires NamespaceOk(s, n, s.namespaces[n])
    ensures n in ApplyEnvironment(s, a).namespaces
    ensures ApplyEnvironment(s, a).namespaces[n].uid == s.namespaces[n].uid
    ensures ApplyEnvironment(s, a).namespaces[n].controller == s.namespaces[n].controller
    ensures !IsLive(ApplyEnvironment(s, a), n) ==> a == DeleteNamespaceByHand(n)
  {
  }

  /** A live namespace keeps its incarnation and its controller over every step, and only two steps end it:
      a delete by hand, or the delete of the run in progress, when the project it has read has an
      entry for that namespace with offboard set. */
  lemma LiveTenantStep(t: Trace, n: string)
    requires Legal(t) && t.Then?
    requires IsLive(Now(t.past), n) && Now(t.past).namespaces[n].controller.Some?
    ensures n in Now(t).namespaces
    ensures Now(t).namespaces[n].uid == Now(t.past).namespaces[n].uid
    ensures Now(t).namespaces[n].controller == Now(t.past).namespaces[n].controller
    ensures !IsLive(Now(t), n) ==>
      || t.action == DeleteNamespaceByHand(n)
      || (&& t.actor.Run? && t.action == DeleteNamespace(n)
          && Running(t.past, t.actor.q) && Marks(t.actor.q, n)
          && t.actor.q.name == Now(t.past).namespaces[n].controller.value.name)
  {
    var s := Now(t.past);
    LegalInv(t.past);
    assert NamespaceOk(s, n, s.namespaces[n]);
    if t.actor.Run? {
      MarksExactly(t.actor.q, n);
      RunStepOnLive(s, t.actor.q, t.action, n);
    } else {
      EnvironmentStepOnLive(s, t.action, n);
    }
  }

  /** No step after `from` deletes namespace `n` by hand. */
  predicate NoManualDelete(from: Trace, t: Trace, n: string) {
    t == from || (t.Then? && t.action != DeleteNamespaceByHand(n) && NoManualDelete(from, t.past, n))
  }

  /** The run in progress, if there is one, has read a project without an offboard entry for `n`. */
  predicate Spares(t: Trace, project: string, n: string) {
    RunOf(t, project).Some? ==> !Marks(RunOf(t, project).value, n)
  }

  /** At no step since `from` the run in progress has read an offboard entry for `n`. */
  predicate NeverOffboarded(from: Trace, t: Trace, project: string, n: string) {
    t == from || (t.Then? && Spares(t.past, project, n) && NeverOffboarded(from, t.past, project, n))
  }

  /** Over every history of runs, failures, edits, delete requests and garbage collection: a live tenant namespace
      controlled by a project stays live, in the same incarnation and under the same controller, and its project
      keeps its finalizer, as long as nobody deletes it by hand and no run in progress has read an entry that marks
      it for offboarding. What earlier runs read does not matter. */
  lemma {:induction false} TenantSurvives(from: Trace, t: Trace, n: string, u: Uid)
    requires Legal(t) && NoManualDelete(from, t, n)
    requires IsLive(Now(from), n) && Now(from).namespaces[n].controller == Some(u)
    requires NeverOffboarded(from, t, u.name, n)
    ensures IsLive(Now(t), n)
    ensures Now(t).namespaces[n].uid == Now(from).namespaces[n].uid && Now(t).namespaces[n].controller == Some(u)
    ensures u.name in Now(t).projects && Now(t).projects[u.name].uid == u && Now(t).projects[u.name].finalizer
  {
    if t == from {
    } else {
      TenantSurvives(from, t.past, n, u);
      LiveTenantStep(t, n);
    }
    LegalInv(t);
    assert NamespaceOk(Now(t), n, Now(t).namespaces[n]);
  }

  /** At no moment since `from` the stored project has an offboard entry for `n`. */
  predicate NeverInSpec(from: Trace, t: Trace, project: string, n: string) {
    && (project in Now(t).projects ==> !Marks(Now(t).projects[project], n))
    && (t == from || (t.Then? && NeverInSpec(from, t.past, project, n)))
  }

  /** It is enough that the spec never marks the tenant for offboarding, from the time on at which a run that still
      did is over. */
  lemma {:induction false} SpecDecides(from: Trace, t: Trace, project: string, n: string)
    requires Legal(t) && Spares(from, project, n) && NeverInSpec(from, t, project, n)
    ensures Spares(t, project, n) && NeverOffboarded(from, t, project, n)
  {
    if t == from {
    } else {
      SpecDecides(from, t.past, project, n);
    }
  }

  lemma RunStepOnProject(s: Store, q: Project, a: Action, p: string)
    requires Permitted(s, q, a) && p in s.projects && q.uid.ProjectUid? && q.uid.name == q.name
    ensures !OwnerKept(s, ApplyRun(s, q, a), s.projects[p].uid) ==>
      a.DropFinalizer? && q.deleting && Released(s, q)
  {
  }

  /** A project that has its finalizer stays stored, with it and in the same incarnation, until the run of a delete
      request takes the finalizer off; at that moment no live namespace is labelled for the project or controlled
      by it. */
  lemma ProjectReleased(t: Trace, p: string)
    requires Legal(t) && t.Then?
    requires p in Now(t.past).projects && Now(t.past).projects[p].finalizer
    ensures var before := Now(t.past);
      || Holds(Now(t), before.projects[p])
      || (&& t.actor.Run? && t.action.DropFinalizer? && t.actor.q == before.projects[p]
          && t.actor.q.deleting && Released(before, t.actor.q))
  {
    var s := Now(t.past);
    LegalInv(t.past);
    assert ProjectOk(p, s.projects[p]);
    if t.actor.Run? {
      ActorOk(t.past, t.actor.q, t.action);
      RunStepOnProject(s, t.actor.q, t.action, p);
    } else {
      EnvironmentStepOwner(s, t.action, s.projects[p].uid);
    }
  }

  // ---------------------------------------------------------------- a namespace keeps its controller

  lemma RunStepController(s: Store, q: Project, a: Action, n: string)
    requires Permitted(s, q, a) && n in s.namespaces && s.namespaces[n].controller.Some?
    ensures n in ApplyRun(s, q, a).namespaces
    ensures ApplyRun(s, q, a).namespaces[n].uid == s.namespaces[n].uid
    ensures ApplyRun(s, q, a).namespaces[n].controller == s.namespaces[n].controller
  {
  }

  /** A namespace that has a controller, live or terminating, keeps it until it is gone. */
  lemma ControllerStays(t: Trace, n: string)
    requires Legal(t) && t.Then? && t.action != NamespaceGone(n)
    requires n in Now(t.past).namespaces && Now(t.past).namespaces[n].controller.Some?
    ensures n in Now(t).namespaces
    ensures Now(t).namespaces[n].uid == Now(t.past).namespaces[n].uid
    ensures Now(t).namespaces[n].controller == Now(t.past).namespaces[n].controller
  {
    if t.actor.Run? {
      RunStepController(Now(t.past), t.actor.q, t.action, n);
    }
  }

  /** Namespace `n` does not go away after `from`. */
  predicate NeverGone(from: Trace, t: Trace, n: string) {
    t == from || (t.Then? && t.action != NamespaceGone(n) && NeverGone(from, t.past, n))
  }

  lemma {:induction false} ControllerKept(from: Trace, t: Trace, n: string)
    requires Legal(t) && NeverGone(from, t, n)
    requires n in Now(from).namespaces && Now(from).namespaces[n].controller.Some?
    ensures n in Now(t).namespaces
    ensures Now(t).namespaces[n].uid == Now(from).namespaces[n].uid
    ensures Now(t).namespaces[n].controller == Now(from).namespaces[n].controller
  {
    if t == from {
    } else {
      ControllerKept(from, t.past, n);
      ControllerStays(t, n);
    }
  }

  // ---------------------------------------------------------------- projects do not interfere

  /** Another project controls namespace `n`. */
  predicate Foreign(s: Store, q: Project, n: string) {
    n in s.namespaces && s.namespaces[n].controller.Some? && s.namespaces[n].controller.value.name != q.name
  }

  /** The run in progress adopted namespace `n`. */
  predicate AdoptedBy(t: Trace, q: Project, n: string) {
    && t.Then? && !Turns(t, q.name)
    && ((t.actor == Run(q) && t.action.AdoptNamespace? && t.action.tenant == n) || AdoptedBy(t.past, q, n))
  }

  /** The run in progress adopted `n`, and later that namespace went away. */
  predicate GoneAfterAdoption(t: Trace, q: Project, n: string) {
    && t.Then? && !Turns(t, q.name)
    && ((t.action == NamespaceGone(n) && AdoptedBy(t.past, q, n)) || GoneAfterAdoption(t.past, q, n))
  }

  lemma {:induction false} AdoptedOnceBy(t: Trace, q: Project, n: string, tenant: Uid)
    requires AdoptedOnce(t, q, n, tenant)
    ensures AdoptedBy(t, q, n)
  {
    if AdoptedOnce(t.past, q, n, tenant) {
      AdoptedOnceBy(t.past, q, n, tenant);
    }
  }

  lemma {:induction false} AdoptedByOnce(t: Trace, q: Project, n: string) returns (tenant: Uid)
    requires Legal(t) && AdoptedBy(t, q, n)
    ensures AdoptedOnce(t, q, n, tenant) && !q.deleting && HasEntry(q, n, false)
  {
    if t.actor == Run(q) && t.action.AdoptNamespace? && t.action.tenant == n {
      tenant := Now(t).namespaces[n].uid;
    } else {
      tenant := AdoptedByOnce(t.past, q, n);
    }
  }

  lemma {:induction false} GoneWasAdopted(t: Trace, q: Project, n: string)
    requires GoneAfterAdoption(t, q, n)
    ensures AdoptedBy(t, q, n)
  {
    if AdoptedBy(t.past, q, n) {
    } else {
      GoneWasAdopted(t.past, q, n);
    }
  }

  /** What a run adopted it still controls, unless it went away since. */
  lemma {:induction false} AdoptionHolds(t: Trace, q: Project, n: string)
    requires Legal(t) && AdoptedBy(t, q, n) && !GoneAfterAdoption(t, q, n)
    ensures n in Now(t).namespaces && Now(t).namespaces[n].controller == Some(q.uid)
  {
    if t.actor == Run(q) && t.action.AdoptNamespace? && t.action.tenant == n {
    } else {
      AdoptionHolds(t.past, q, n);
      ControllerStays(t, n);
    }
  }

  /** `key` names an object inside namespace `n` that does not carry the labels of `q`'s objects. */
  predicate InTenantUnlabelled(s: Store, q: Project, n: string, key: Key) {
    && IsTenantKind(key.kind) && key.namespace == n
    && (key in s.objects ==> !IsManaged(s.objects[key].labels, q.name))
  }

  lemma {:induction false} ListerEntitled(t: Trace, q: Project, key: Key)
    requires Legal(t) && ListedOnce(t, q, key)
    ensures key.kind.AppProjects? || (key.kind.NetworkPolicies? && MayStrip(q, key.namespace))
  {
    if ListedOnce(t.past, q, key) {
      ListerEntitled(t.past, q, key);
    }
  }

  lemma RunStepOnForeign(s: Store, q: Project, a: Action, n: string, key: Key)
    requires Permitted(s, q, a) && q.uid.ProjectUid? && q.uid.name == q.name
    requires Foreign(s, q, n) && NamespaceOk(s, n, s.namespaces[n])
    ensures Lookup(ApplyRun(s, q, a).namespaces, n) == Lookup(s.namespaces, n)
    ensures IsTenantKind(key.kind) && key.namespace == n ==>
      || Lookup(ApplyRun(s, q, a).objects, key) == Lookup(s.objects, key)
      || (a.PutTenantObject? && a.key == key) || a == DeleteObject(key)
  {
  }

  /** A run leaves a namespace that another project controls, and the objects in it that are not labelled for the
      run's own project, as they are, but for two cases: the run adopted an earlier incarnation of that namespace,
      which then went away; or the object is a network policy that was labelled for the project when the run
      listed it. */
  lemma ForeignTenantUntouched(t: Trace, n: string, key: Key)
    requires Legal(t) && t.Then? && t.actor.Run? && Foreign(Now(t.past), t.actor.q, n)
    ensures Lookup(Now(t).namespaces, n) == Lookup(Now(t.past).namespaces, n)
    ensures InTenantUnlabelled(Now(t.past), t.actor.q, n, key) ==>
      || Lookup(Now(t).objects, key) == Lookup(Now(t.past).objects, key)
      || (t.action.PutTenantObject? && GoneAfterAdoption(t.past, t.actor.q, n))
      || (t.action == DeleteObject(key) && key.kind.NetworkPolicies? && ListedOnce(t.past, t.actor.q, key))
  {
    var s, q := Now(t.past), t.actor.q;
    LegalInv(t.past);
    assert NamespaceOk(s, n, s.namespaces[n]);
    ActorOk(t.past, q, t.action);
    RunStepOnForeign(s, q, t.action, n, key);
    if ListedOnce(t.past, q, key) {
      ListerEntitled(t.past, q, key);
    }
    if t.action.PutTenantObject? && t.action.key == key && key.namespace == n {
      AdoptedOnceBy(t.past, q, n, t.action.owner);
      if !GoneAfterAdoption(t.past, q, n) {
        AdoptionHolds(t.past, q, n);
      }
    }
  }

  /** A run of the project began or ended after `from`. */
  predicate TurnedSince(from: Trace, t: Trace, name: string) {
    t != from && t.Then? && (Turns(t, name) || TurnedSince(from, t.past, name))
  }

  lemma {:induction false} NeverAdopted(from: Trace, t: Trace, q: Project, n: string)
    requires Legal(t) && NeverGone(from, t, n) && Foreign(Now(from), q, n)
    ensures Foreign(Now(t), q, n)
    ensures TurnedSince(from, t, q.name) || !AdoptedBy(from, q, n) ==> !AdoptedBy(t, q, n)
  {
    ControllerKept(from, t, n);
    if t == from {
    } else {
      NeverAdopted(from, t.past, q, n);
      if t.actor == Run(q) {
        ActorOk(t.past, q, t.action);
      }
    }
  }

  /** Over whole histories: while a namespace that another project controls does not go away, no run that begins
      changes it or anything in it, except for what is labelled for the run's project or was when the run listed it;
      the same holds for the run that was in progress, unless it had adopted the namespace before. */
  lemma TenantUndisturbed(from: Trace, t: Trace, n: string, key: Key)
    requires Legal(t) && t.Then? && t.actor.Run? && NeverGone(from, t.past, n) && Foreign(Now(from), t.actor.q, n)
    requires TurnedSince(from, t.past, t.actor.q.name) || !AdoptedBy(from, t.actor.q, n)
    ensures Lookup(Now(t).namespaces, n) == Lookup(Now(t.past).namespaces, n)
    ensures InTenantUnlabelled(Now(t.past), t.actor.q, n, key) && !ListedOnce(t.past, t.actor.q, key) ==>
      Lookup(Now(t).objects, key) == Lookup(Now(t.past).objects, key)
  {
    NeverAdopted(from, t.past, t.actor.q, n);
    if GoneAfterAdoption(t.past, t.actor.q, n) {
      GoneWasAdopted(t.past, t.actor.q, n);
    }
    ForeignTenantUntouched(t, n, key);
  }

  // ---------------------------------------------------------------- the two exceptions

  predicate Intrudes(t: Trace, q: Project, a: Action, n: string, key: Key) {
    && StepOk(t, Run(q), a) && InTenantUnlabelled(Now(t), q, n, key)
    && Lookup(Now(Then(t, Run(q), a)).objects, key) != Lookup(Now(t).objects, key)
  }

  /** Some next step of the run in progress changes an object of `n` not labelled for its project. */
  ghost predicate CanIntrude(t: Trace, q: Project, n: string) {
    exists a, key :: Intrudes(t, q, a, n, key)
  }

  /** The namespace went away after the run had adopted it, and some kind of tenant object is served. */
  ghost predicate HoldsStaleTenant(t: Trace, q: Project, n: string) {
    GoneAfterAdoption(t, q, n) && exists kind :: IsTenantKind(kind) && kind in Now(t).served
  }

  predicate LostLabels(t: Trace, q: Project, n: string, key: Key) {
    && key.kind.NetworkPolicies? && key.namespace == n && key in Now(t).objects
    && !CarriesLabels(Now(t), q, key) && ListedOnce(t, q, key)
  }

  /** A policy there lost the project's labels since the run listed it. */
  ghost predicate HoldsStalePolicy(t: Trace, q: Project, n: string) {
    exists key :: LostLabels(t, q, n, key)
  }

  lemma {:induction false} NamesBounded(keys: set<Key>) returns (bound: nat)
    ensures forall k :: k in keys ==> |k.name| < bound
  {
    if keys == {} {
      bound := 0;
    } else {
      var k :| k in keys;
      var rest := NamesBounded(keys - {k});
      bound := if |k.name| < rest then rest else |k.name| + 1;
    }
  }

  lemma FreshKey(objects: map<Key, Object>, kind: Kind, n: string) returns (key: Key)
    ensures key.kind == kind && key.namespace == n && key !in objects
  {
    var bound := NamesBounded(objects.Keys);
    key := Key(kind, n, seq(bound, _ => 'a'));
  }

  function ManagedBare(q: Project): Labels {
    map[ManagedBy := OPERATOR, ProjectLabel := q.name]
  }

  lemma StaleTenantIntrudes(t: Trace, q: Project, n: string)
    requires Legal(t) && Running(t, q) && HoldsStaleTenant(t, q, n)
    ensures CanIntrude(t, q, n)
  {
    GoneWasAdopted(t, q, n);
    var tenant := AdoptedByOnce(t, q, n);
    var kind :| IsTenantKind(kind) && kind in Now(t).served;
    var key := FreshKey(Now(t).objects, kind, n);
    var a := PutTenantObject(key, Object(ManagedBare(q), None, {tenant}, ArgoBody("")), tenant);
    assert Permitted(Now(t), q, a) && Entitled(t, q, a);
    assert Intrudes(t, q, a, n, key);
  }

  lemma StalePolicyIntrudes(t: Trace, q: Project, n: string)
    requires Legal(t) && Running(t, q) && HoldsStalePolicy(t, q, n)
    ensures CanIntrude(t, q, n)
  {
    var key :| LostLabels(t, q, n, key);
    ListerEntitled(t, q, key);
    var a := DeleteObject(key);
    assert Permitted(Now(t), q, a) && Entitled(t, q, a);
    assert Intrudes(t, q, a, n, key);
  }

  /** The exceptions are exactly these: a run can change something foreign in another project's tenant if and only
      if it adopted the namespace before it went away and came back, or a policy there lost the labels of its
      project since the run listed it. */
  lemma IntrusionExactly(t: Trace, q: Project, n: string)
    requires Legal(t) && Running(t, q) && Foreign(Now(t), q, n)
    ensures CanIntrude(t, q, n) <==> HoldsStaleTenant(t, q, n) || HoldsStalePolicy(t, q, n)
  {
    if CanIntrude(t, q, n) {
      var a, key :| Intrudes(t, q, a, n, key);
      ForeignTenantUntouched(Then(t, Run(q), a), n, key);
      if a.PutTenantObject? {
        assert IsTenantKind(a.key.kind) && a.key.kind in Now(t).served;
      } else {
        assert LostLabels(t, q, n, key);
      }
    }
    if HoldsStaleTenant(t, q, n) {
      StaleTenantIntrudes(t, q, n);
    }
    if HoldsStalePolicy(t, q, n) {
      StalePolicyIntrudes(t, q, n);
    }
  }

  predicate Rival(s: Store, q: Project, n: string) {
    Lookup(s.projects, q.name) == Some(q) && q.finalizer && !q.deleting && HasEntry(q, n, false)
  }

  /** Two projects that are stored, keep their finalizer and have an active entry for `n`; no `n` exists yet. */
  predicate Rivals(s: Store, a: Project, b: Project, n: string, policy: Key) {
    && Inv(s) && a.name != b.name
    && Rival(s, a, n) && Rival(s, b, n)
    && n !in s.namespaces && '_' !in n && policy.kind == NetworkPolicies && policy.namespace == n
    && policy !in s.objects && NetworkPolicies in s.served
  }

  function Adopting(t: Trace, q: Project, n: string): Trace {
    Then(Then(t, Run(q), BeginRun), Run(q), AdoptNamespace(n, ManagedBare(q), map[]))
  }

  function Removing(t: Trace, n: string): Trace {
    Then(Then(t, Environment, DeleteNamespaceByHand(n)), Environment, NamespaceGone(n))
  }

  /** What the two projects still see of the store, `births` incarnations of `n` later. */
  predicate Unspoilt(s: Store, now: Store, n: string, policy: Key, births: nat) {
    && now.projects == s.projects && now.served == s.served && policy !in now.objects
    && Births(now.births, n) == Births(s.births, n) + births
  }

  lemma AdoptingNow(s: Store, t: Trace, q: Project, n: string, policy: Key, births: nat)
    requires Legal(t) && Unspoilt(s, Now(t), n, policy, births)
    requires Rival(s, q, n) && n !in Now(t).namespaces
    ensures Legal(Adopting(t, q, n)) && Unspoilt(s, Now(Adopting(t, q, n)), n, policy, births + 1)
    ensures var now := Now(Adopting(t, q, n));
      && IsLive(now, n) && now.namespaces[n].controller == Some(q.uid)
      && now.namespaces[n].uid == NamespaceUid(n, Births(now.births, n))
  {
    BegunNow(t, q);
  }

  lemma RemovingNow(s: Store, t: Trace, n: string, policy: Key, births: nat)
    requires Legal(t) && Unspoilt(s, Now(t), n, policy, births) && n in Now(t).namespaces
    ensures Legal(Removing(t, n)) && Unspoilt(s, Now(Removing(t, n)), n, policy, births)
    ensures n !in Now(Removing(t, n)).namespaces
  {
    var marked := Then(t, Environment, DeleteNamespaceByHand(n));
    assert Legal(marked);
    assert Now(marked) == SetTerminating(Now(t), n);
    assert Now(Removing(t, n)) == ApplyEnvironment(Now(marked), NamespaceGone(n));
  }

  /** `b` adopts `n`, somebody deletes it by hand, it goes, and `a` creates it anew. */
  function TakenOver(s: Store, a: Project, b: Project, n: string): Trace {
    Adopting(Removing(Adopting(Start(s), b, n), n), a, n)
  }

  lemma TakenOverNow(s: Store, a: Project, b: Project, n: string, policy: Key)
    requires Rivals(s, a, b, n, policy)
    ensures Legal(TakenOver(s, a, b, n)) && Unspoilt(s, Now(TakenOver(s, a, b, n)), n, policy, 2)
    ensures AdoptedOnce(TakenOver(s, a, b, n), b, n, NamespaceUid(n, Births(s.births, n) + 1))
    ensures Running(TakenOver(s, a, b, n), b)
    ensures var now := Now(TakenOver(s, a, b, n));
      && IsLive(now, n) && now.namespaces[n].controller == Some(a.uid)
      && now.namespaces[n].uid == NamespaceUid(n, Births(now.births, n))
  {
    var adopted := Adopting(Start(s), b, n);
    var removed := Removing(adopted, n);
    AdoptingNow(s, Start(s), b, n, policy, 0);
    RemovingNow(s, adopted, n, policy, 1);
    AdoptingNow(s, removed, a, n, policy, 1);
    assert AdoptedOnce(adopted, b, n, NamespaceUid(n, Births(s.births, n) + 1));
    assert AdoptedOnce(removed.past, b, n, NamespaceUid(n, Births(s.births, n) + 1));
    assert AdoptedOnce(removed, b, n, NamespaceUid(n, Births(s.births, n) + 1));
    assert AdoptedOnce(TakenOver(s, a, b, n).past, b, n, NamespaceUid(n, Births(s.births, n) + 1));
    assert Running(adopted, b) && Running(removed.past, b) && Running(removed, b);
    assert Running(TakenOver(s, a, b, n).past, b);
  }

  /** What `b`, holding incarnation `generation` of `n`, writes there. */
  function StaleObject(b: Project, n: string, generation: nat, spec: PolicySpec): Object {
    Object(ManagedBare(b), None, {NamespaceUid(n, generation)}, Policy(spec))
  }

  function StaleWrite(t: Trace, b: Project, n: string, policy: Key, generation: nat, spec: PolicySpec): Trace {
    Then(t, Run(b), PutTenantObject(policy, StaleObject(b, n, generation, spec), NamespaceUid(n, generation)))
  }

  lemma StaleWriteNow(s: Store, t: Trace, b: Project, n: string, policy: Key, spec: PolicySpec, births: nat)
    requires Legal(t) && Unspoilt(s, Now(t), n, policy, births + 1) && Rival(s, b, n)
    requires AdoptedOnce(t, b, n, NamespaceUid(n, Births(s.births, n) + births)) && Running(t, b)
    requires policy.kind == NetworkPolicies && policy.namespace == n && NetworkPolicies in s.served
    ensures var generation := Births(s.births, n) + births;
      && Legal(StaleWrite(t, b, n, policy, generation, spec))
      && Lookup(Now(StaleWrite(t, b, n, policy, generation, spec)).objects, policy)
         == Some(StaleObject(b, n, generation, spec))
  {
  }

  /** The first exception happens: whenever two projects list the same namespace, a run that adopted it before it was
      deleted and created anew for the other project still puts its network policy there. */
  lemma StaleWriteLands(s: Store, a: Project, b: Project, n: string, policy: Key, spec: PolicySpec)
    requires Rivals(s, a, b, n, policy)
    ensures
      var stale := Births(s.births, n) + 1;
      var t := StaleWrite(TakenOver(s, a, b, n), b, n, policy, stale, spec);
      && Legal(t)
      && IsLive(Now(t.past), n) && Now(t.past).namespaces[n].controller == Some(a.uid)
      && Lookup(Now(t.past).objects, policy) == None
      && Lookup(Now(t).objects, policy) == Some(StaleObject(b, n, stale, spec))
  {
    TakenOverNow(s, a, b, n, policy);
    StaleWriteNow(s, TakenOver(s, a, b, n), b, n, policy, spec, 1);
  }

  function Listing(t: Trace, q: Project, n: string): Trace {
    Then(t, Run(q), ListObjects(NetworkPolicies, n))
  }

  function Relabelling(t: Trace, key: Key, changed: Object): Trace {
    Then(t, Environment, ChangeObject(key, Some(changed)))
  }

  lemma ListingNow(t: Trace, q: Project, n: string)
    requires Legal(t) && Running(t, q) && MayStrip(q, n)
    ensures Legal(Listing(t, q, n)) && Running(Listing(t, q, n), q) && Now(Listing(t, q, n)) == Now(t)
  {
    assert Permitted(Now(t), q, ListObjects(NetworkPolicies, n)) && Entitled(t, q, ListObjects(NetworkPolicies, n));
    assert Apply(Now(t), Run(q), ListObjects(NetworkPolicies, n)) == Now(t);
  }

  lemma RelabellingNow(t: Trace, q: Project, key: Key, changed: Object)
    requires Legal(t) && Running(t, q) && ListedOnce(t, q, key) && key in Now(t).objects
    ensures var relabelled := Relabelling(t, key, changed);
      && Legal(relabelled) && Running(relabelled, q) && ListedOnce(relabelled, q, key)
      && Lookup(Now(relabelled).objects, key) == Some(changed)
  {
    LegalInv(t);
  }

  lemma DeletingNow(t: Trace, q: Project, key: Key)
    requires Legal(t) && Running(t, q) && ListedOnce(t, q, key) && key in Now(t).objects
    requires key.kind.NetworkPolicies? && MayStrip(q, key.namespace)
    ensures var deleted := Then(t, Run(q), DeleteObject(key));
      Legal(deleted) && Lookup(Now(deleted).objects, key) == None
  {
    assert Permitted(Now(t), q, DeleteObject(key)) && Entitled(t, q, DeleteObject(key));
  }

  /** The second exception happens too: a policy that is listed, loses the project's labels and is then deleted. */
  lemma RelabelledPolicyGoes(t: Trace, q: Project, key: Key, changed: Object)
    requires Legal(t) && Running(t, q) && MayStrip(q, key.namespace)
    requires IsTenantPolicy(Now(t).objects, q.name, key.namespace, key) && !IsManaged(changed.labels, q.name)
    ensures
      var relabelled := Relabelling(Listing(t, q, key.namespace), key, changed);
      var deleted := Then(relabelled, Run(q), DeleteObject(key));
      && Legal(deleted)
      && Lookup(Now(relabelled).objects, key) == Some(changed) && Lookup(Now(deleted).objects, key) == None
  {
    var listed := Listing(t, q, key.namespace);
    ListingNow(t, q, key.namespace);
    assert Picked(Now(listed).objects, q.name, NetworkPolicies, key.namespace, key);
    RelabellingNow(listed, q, key, changed);
    DeletingNow(Relabelling(listed, key, changed), q, key);
  }

  // ---------------------------------------------------------------- frozen entries

  /** `enabled: false`, and not `offboard: true`. */
  predicate IsFrozen(e: Entry) {
    e.enabled.Some? && !e.enabled.value && (e.offboard.None? || !e.offboard.value)
  }

  lemma FrozenHasNoOtherEntry(q: Project, i: nat)
    requires ProjectOk(q.name, q) && i < |q.entries| && IsFrozen(q.entries[i])
    ensures !HasEntry(q, Tenant(q.entries[i]), true) && !HasEntry(q, Tenant(q.entries[i]), false)
  {
    assert DistinctTenants(q.entries);
  }

  lemma RunStepOnFrozen(s: Store, q: Project, a: Action, n: string, key: Key)
    requires Permitted(s, q, a) && !HasEntry(q, n, true) && !HasEntry(q, n, false)
    ensures Lookup(ApplyRun(s, q, a).namespaces, n) == Lookup(s.namespaces, n)
    ensures IsTenantKind(key.kind) && key.namespace == n ==>
      Lookup(ApplyRun(s, q, a).objects, key) == Lookup(s.objects, key)
    ensures key.kind == EgressIPObjects && key.name == n && (!q.deleting || LiveManaged(s, q.name, n)) ==>
      Lookup(ApplyRun(s, q, a).objects, key) == Lookup(s.objects, key)
  {
  }

  /** No step of a run touches the namespace of a frozen entry or the operator's objects in it; its EgressIP
      stays too, except that a deleting run may remove it once the managed namespace is no longer live. */
  lemma FrozenTenantUntouched(t: Trace, i: nat, key: Key)
    requires Legal(t) && t.Then? && t.actor.Run?
    requires i < |t.actor.q.entries| && IsFrozen(t.actor.q.entries[i])
    ensures var q, n := t.actor.q, Tenant(t.actor.q.entries[i]);
      && Lookup(Now(t).namespaces, n) == Lookup(Now(t.past).namespaces, n)
      && (IsTenantKind(key.kind) && key.namespace == n ==>
            Lookup(Now(t).objects, key) == Lookup(Now(t.past).objects, key))
      && (key.kind == EgressIPObjects && key.name == n && (!q.deleting || LiveManaged(Now(t.past), q.name, n)) ==>
            Lookup(Now(t).objects, key) == Lookup(Now(t.past).objects, key))
  {
    ActorOk(t.past, t.actor.q, t.action);
    FrozenHasNoOtherEntry(t.actor.q, i);
    RunStepOnFrozen(Now(t.past), t.actor.q, t.action, Tenant(t.actor.q.entries[i]), key);
  }

  // ---------------------------------------------------------------- status over every history

  /** At every moment every stored project has at most one condition per type; a status that a reconciling run
      wrote has one line per entry and is Ready, in phase and in condition, exactly when every line is. */
  lemma StatusAlwaysConsistent(t: Trace, p: string)
    requires Legal(t) && p in Now(t).projects
    ensures UniqueTypes(Now(t).projects[p].status.conditions)
    ensures t.Then? && t.actor.Run? && t.action.WriteStatus? && p == t.actor.q.name && !t.actor.q.deleting ==>
      Reports(Now(t).projects[p].status, t.actor.q.entries)
  {
    LegalInv(t);
    assert ProjectOk(p, Now(t).projects[p]);
  }
}
