/** What a run may rely on while other runs, users and the garbage collector act. */
module Interference {
  import opened Cluster
  import opened Lifecycle

  /** Live namespaces labelled for the project only become fewer. */
  predicate ManagedShrinks(q: Project, before: Store, after: Store) {
    forall n | n in after.namespaces :: LiveManaged(after, q.name, n) ==> LiveManaged(before, q.name, n)
  }

  /** The project keeps its finalizer, the installed APIs stay. */
  predicate Keeps(q: Project, before: Store, after: Store) {
    (Holds(before, q) ==> Holds(after, q)) && after.served == before.served
  }

  /** The steps after `t` are legal and none is made by a run of the project named `me`. */
  predicate OthersExtend(me: string, t: Trace, later: Trace) {
    || t == later
    || (&& later.Then? && OthersExtend(me, t, later.past)
        && StepOk(later.past, later.actor, later.action)
        && !(later.actor.Run? && later.actor.q.name == me))
  }

  /** `later` continues `t` within the same run of the project. */
  predicate SameRun(name: string, t: Trace, later: Trace) {
    t == later || (later.Then? && !Turns(later, name) && SameRun(name, t, later.past))
  }

  lemma {:induction false} SameRunTransitive(name: string, a: Trace, b: Trace, c: Trace)
    requires SameRun(name, a, b) && SameRun(name, b, c)
    ensures SameRun(name, a, c)
  {
    if b == c {
    } else {
      SameRunTransitive(name, a, b, c.past);
    }
  }

  lemma {:induction false} SameRunExtends(name: string, a: Trace, b: Trace)
    requires SameRun(name, a, b)
    ensures Extends(a, b)
  {
    if a == b {
    } else {
      SameRunExtends(name, a, b.past);
    }
  }

  lemma {:induction false} ExtendsTransitive(a: Trace, b: Trace, c: Trace)
    requires Extends(a, b) && Extends(b, c)
    ensures Extends(a, c)
  {
    if b == c {
    } else {
      ExtendsTransitive(a, b, c.past);
    }
  }

  lemma {:induction false} AdoptedLater(t: Trace, later: Trace, q: Project, n: string, tenant: Uid)
    requires SameRun(q.name, t, later) && AdoptedOnce(t, q, n, tenant)
    ensures AdoptedOnce(later, q, n, tenant)
  {
    if t == later {
    } else {
      AdoptedLater(t, later.past, q, n, tenant);
    }
  }

  lemma {:induction false} ListedLater(t: Trace, later: Trace, q: Project, key: Key)
    requires SameRun(q.name, t, later) && ListedOnce(t, q, key)
    ensures ListedOnce(later, q, key)
  {
    if t == later {
    } else {
      ListedLater(t, later.past, q, key);
    }
  }

  // ---------------------------------------------------------------- steps of others

  lemma OtherRunKeepsManaged(q: Project, s: Store, r: Project, a: Action, n: string)
    requires Permitted(s, r, a) && r.name != q.name
    requires LiveManaged(ApplyRun(s, r, a), q.name, n)
    ensures LiveManaged(s, q.name, n)
  {
  }

  lemma EnvironmentKeepsManaged(q: Project, s: Store, a: Action, n: string)
    requires Possible(s, a)
    requires LiveManaged(ApplyEnvironment(s, a), q.name, n)
    ensures LiveManaged(s, q.name, n)
  {
  }

  lemma OtherRunKeeps(q: Project, s: Store, r: Project, a: Action)
    requires Permitted(s, r, a) && r.name != q.name && ProjectOk(q.name, q) && ProjectOk(r.name, r)
    ensures Keeps(q, s, ApplyRun(s, r, a)) && ManagedShrinks(q, s, ApplyRun(s, r, a))
  {
    var after := ApplyRun(s, r, a);
    forall n | n in after.namespaces && LiveManaged(after, q.name, n)
      ensures LiveManaged(s, q.name, n)
    {
      OtherRunKeepsManaged(q, s, r, a, n);
    }
  }

  lemma EnvironmentKeeps(q: Project, s: Store, a: Action)
    requires Possible(s, a)
    ensures Keeps(q, s, ApplyEnvironment(s, a)) && ManagedShrinks(q, s, ApplyEnvironment(s, a))
  {
    var after := ApplyEnvironment(s, a);
    forall n | n in after.namespaces && LiveManaged(after, q.name, n)
      ensures LiveManaged(s, q.name, n)
    {
      EnvironmentKeepsManaged(q, s, a, n);
    }
  }

  lemma RelyTransitive(q: Project, a: Store, b: Store, c: Store)
    requires Keeps(q, a, b) && Keeps(q, b, c)
    ensures Keeps(q, a, c)
    ensures ManagedShrinks(q, a, b) && ManagedShrinks(q, b, c) ==> ManagedShrinks(q, a, c)
  {
  }

  /** Whatever others do between two steps of a run, the run's rely holds. */
  lemma {:induction false} OthersKeep(q: Project, t: Trace, later: Trace)
    requires Legal(t) && Running(t, q) && OthersExtend(q.name, t, later)
    ensures Legal(later) && SameRun(q.name, t, later) && Running(later, q)
    ensures Keeps(q, Now(t), Now(later)) && ManagedShrinks(q, Now(t), Now(later))
  {
    if t == later {
    } else {
      OthersKeep(q, t, later.past);
      var s, after := Now(later.past), Now(later);
      if later.actor.Run? {
        RunningOk(later.past, q);
        ActorOk(later.past, later.actor.q, later.action);
        OtherRunKeeps(q, s, later.actor.q, later.action);
      } else {
        EnvironmentKeeps(q, s, later.action);
      }
      RelyTransitive(q, Now(t), s, after);
    }
  }

  // ---------------------------------------------------------------- own steps

  lemma OwnStepKeeps(s: Store, q: Project, a: Action)
    requires Permitted(s, q, a)
    ensures !a.DropFinalizer? ==> Keeps(q, s, ApplyRun(s, q, a))
    ensures !a.AdoptNamespace? ==> ManagedShrinks(q, s, ApplyRun(s, q, a))
  {
  }
}
