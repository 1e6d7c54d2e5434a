/** The cluster as the operator sees it: stored objects, the actions that change them, and the
    histories of actions that operator runs, users and the garbage collector can produce together. */
module Cluster {
  import opened Common
  import opened Sizing
  import opened Policies
  import opened Api
  import opened Resolution
  import opened Status

  // ---------------------------------------------------------------- stored objects

  /** Identity of one incarnation of a named object. */
  datatype Uid = ProjectUid(name: string, generation: nat) | NamespaceUid(name: string, generation: nat)

  /** A ProjectOnboarding. */
  datatype Project = Project(
    name: string, uid: Uid, finalizer: bool, deleting: bool, paused: bool,
    entries: seq<Entry>, gitOps: string, status: ProjectStatus)

  datatype Namespace = Namespace(
    uid: Uid, labels: Labels, annotations: map<string, string>, controller: Option<Uid>, terminating: bool)

  datatype Kind = NetworkPolicies | ResourceQuotas | LimitRanges | RoleBindings | Groups | EgressIPObjects | AppProjects

  /** `namespace` is empty for the cluster-scoped kinds Groups and EgressIPObjects. */
  datatype Key = Key(kind: Kind, namespace: string, name: string)

  datatype Content =
    | Policy(spec: PolicySpec)
    | Quota(hard: map<Resource, string>)
    | Limits(items: seq<LimitRangeItem>)
    | Binding(group: string, clusterRole: string)
    | Members(users: seq<string>)
    | Addresses(ips: seq<string>, env: string)
    | ArgoBody(body: string)

  type Objects = map<Key, Object>

  datatype Object = Object(labels: Labels, controller: Option<Uid>, owners: set<Uid>, content: Content)

  /** `served` are the kinds whose API is installed; the births count incarnations of a name. */
  datatype Store = Store(
    projects: map<string, Project>, namespaces: map<string, Namespace>, objects: Objects,
    sizes: Catalogue, served: set<Kind>, births: map<string, nat>, projectBirths: map<string, nat>)

  function Births(births: map<string, nat>, name: string): nat {
    if name in births then births[name] else 0
  }

  predicate IsTenantKind(kind: Kind) {
    kind == NetworkPolicies || kind == ResourceQuotas || kind == LimitRanges || kind == RoleBindings
  }

  /** The APIs that every cluster has. */
  predicate BuiltInServed(s: Store) {
    && NetworkPolicies in s.served && ResourceQuotas in s.served && LimitRanges in s.served && RoleBindings in s.served
  }

  predicate IsLive(s: Store, n: string) {
    n in s.namespaces && !s.namespaces[n].terminating
  }

  /** The namespace exists, is not terminating and is labelled for the project. */
  predicate LiveManaged(s: Store, project: string, n: string) {
    IsLive(s, n) && IsManaged(s.namespaces[n].labels, project)
  }

  /** The project `q` (same incarnation) is stored and still has its finalizer. */
  predicate Holds(s: Store, q: Project) {
    q.name in s.projects && s.projects[q.name].uid == q.uid && s.projects[q.name].finalizer
  }

  predicate MayControl(controller: Option<Uid>, q: Project) {
    controller == None || controller == Some(q.uid)
  }

  /** The label that makes an object `project`'s: AppProjects are listed without the managed-by key. */
  predicate IsOwned(kind: Kind, labels: Labels, project: string) {
    if kind == AppProjects then Lookup(labels, ProjectLabel) == Some(project) else IsManaged(labels, project)
  }

  // ---------------------------------------------------------------- actions

  datatype Action =
    // operator runs
    | BeginRun
    | EndRun
    | AddFinalizer
    | DropFinalizer
    | WriteStatus(status: ProjectStatus)
    | AdoptNamespace(tenant: string, labels: Labels, annotations: map<string, string>)
    | DeleteNamespace(tenant: string)
    | PutTenantObject(key: Key, value: Object, owner: Uid)
    | PutOwnedObject(key: Key, value: Object)
    | ListObjects(kind: Kind, tenant: string)
    | DeleteObject(key: Key)
    // users and the garbage collector
    | CreateProject(project: string, entries: seq<Entry>, gitOps: string)
    | EditProject(project: string, entries: seq<Entry>, gitOps: string, paused: bool)
    | RequestDelete(project: string)
    | CreateNamespaceByHand(namespace: string, labels: Labels)
    | DeleteNamespaceByHand(namespace: string)
    | NamespaceGone(namespace: string)
    | CollectNamespace(namespace: string)
    | ChangeObject(key: Key, changed: Option<Object>)
    | EditCatalogue(sizes: Catalogue)

  /** Who acts: the environment, or the run that read its project as `q`. */
  datatype Actor = Environment | Run(q: Project)

  predicate IsRunAction(a: Action) {
    || a.BeginRun? || a.EndRun? || a.AddFinalizer? || a.DropFinalizer? || a.WriteStatus? || a.AdoptNamespace?
    || a.DeleteNamespace? || a.PutTenantObject? || a.PutOwnedObject? || a.ListObjects? || a.DeleteObject?
  }

  function SetTerminating(s: Store, n: string): Store {
    if n in s.namespaces then s.(namespaces := s.namespaces[n := s.namespaces[n].(terminating := true)]) else s
  }

  function NewNamespace(s: Store, n: string, labels: Labels, annotations: map<string, string>, controller: Option<Uid>)
    : Store
  {
    var generation := Births(s.births, n) + 1;
    s.(namespaces := s.namespaces[n := Namespace(NamespaceUid(n, generation), labels, annotations, controller, false)],
       births := s.births[n := generation])
  }

  function Adopt(s: Store, q: Project, n: string, labels: Labels, annotations: map<string, string>): Store {
    if n !in s.namespaces then NewNamespace(s, n, labels, annotations, Some(q.uid))
    else
      var ns := s.namespaces[n];
      s.(namespaces := s.namespaces[n := ns.(labels := ns.labels + labels, annotations := ns.annotations + annotations,
                                             controller := Some(q.uid))])
  }

  function ApplyRun(s: Store, q: Project, a: Action): Store
    requires IsRunAction(a)
  {
    match a
    case BeginRun | EndRun | ListObjects(_, _) => s
    case AddFinalizer =>
      if q.name in s.projects then s.(projects := s.projects[q.name := s.projects[q.name].(finalizer := true)]) else s
    case DropFinalizer => s.(projects := s.projects - {q.name})
    case WriteStatus(status) =>
      if q.name in s.projects then s.(projects := s.projects[q.name := s.projects[q.name].(status := status)]) else s
    case AdoptNamespace(n, labels, annotations) => Adopt(s, q, n, labels, annotations)
    case DeleteNamespace(n) => SetTerminating(s, n)
    case PutTenantObject(key, value, _) => s.(objects := s.objects[key := value])
    case PutOwnedObject(key, value) => s.(objects := s.objects[key := value])
    case DeleteObject(key) => s.(objects := s.objects - {key})
  }

  const NO_STATUS := ProjectStatus(NoPhase, [], [])

  function ApplyEnvironment(s: Store, a: Action): Store
    requires !IsRunAction(a)
  {
    match a
    case CreateProject(p, entries, gitOps) =>
      var generation := Births(s.projectBirths, p) + 1;
      var created := Project(p, ProjectUid(p, generation), false, false, false, entries, gitOps, NO_STATUS);
      s.(projects := s.projects[p := created], projectBirths := s.projectBirths[p := generation])
    case EditProject(p, entries, gitOps, paused) =>
      if p !in s.projects then s
      else s.(projects := s.projects[p := s.projects[p].(entries := entries, gitOps := gitOps, paused := paused)])
    case RequestDelete(p) =>
      if p !in s.projects then s
      else if s.projects[p].finalizer then s.(projects := s.projects[p := s.projects[p].(deleting := true)])
      else s.(projects := s.projects - {p})
    case CreateNamespaceByHand(n, labels) => NewNamespace(s, n, labels, map[], None)
    case DeleteNamespaceByHand(n) => SetTerminating(s, n)
    case NamespaceGone(n) =>
      s.(namespaces := s.namespaces - {n},
         objects := map k | k in s.objects && !(IsTenantKind(k.kind) && k.namespace == n) :: s.objects[k])
    case CollectNamespace(n) => SetTerminating(s, n)
    case ChangeObject(key, changed) =>
      s.(objects := if changed.Some? then s.objects[key := changed.value] else s.objects - {key})
    case EditCatalogue(sizes) => s.(sizes := sizes)
    case _ => s
  }

  function Apply(s: Store, actor: Actor, a: Action): Store {
    if actor.Run? && IsRunAction(a) then ApplyRun(s, actor.q, a)
    else if actor.Environment? && !IsRunAction(a) then ApplyEnvironment(s, a)
    else s
  }

  // ---------------------------------------------------------------- what a run may do

  predicate HasEntry(q: Project, n: string, offboard: bool) {
    exists i | 0 <= i < |q.entries| ::
      Tenant(q.entries[i]) == n && (if offboard then IsOffboard(q.entries[i]) else IsActive(q.entries[i]))
  }

  /** An entry for `n` has `offboard: true`. */
  predicate Marks(q: Project, n: string) {
    exists i | 0 <= i < |q.entries| ::
      Tenant(q.entries[i]) == n && q.entries[i].offboard.Some? && q.entries[i].offboard.value
  }

  lemma MarksExactly(q: Project, n: string)
    ensures Marks(q, n) <==> HasEntry(q, n, true)
  {
  }

  /** The run may remove managed objects of tenant `n`. */
  predicate MayStrip(q: Project, n: string) {
    HasEntry(q, n, true) || (HasEntry(q, n, false) && !q.deleting)
  }

  predicate MayDelete(s: Store, q: Project, key: Key) {
    match key.kind
    case NetworkPolicies | ResourceQuotas | LimitRanges | RoleBindings => MayStrip(q, key.namespace)
    case EgressIPObjects => MayStrip(q, key.name) || (q.deleting && !LiveManaged(s, q.name, key.name))
    case Groups | AppProjects => true
  }

  predicate IsOwnedBy(o: Object, owner: Uid) {
    o.controller == Some(owner) || owner in o.owners
  }

  predicate IsTenantPolicy(objects: Objects, project: string, n: string, k: Key) {
    k in objects && k.kind == NetworkPolicies && k.namespace == n && IsManaged(objects[k].labels, project)
  }

  /** AppProjects are found by their project and target-namespace labels. */
  predicate IsTenantAppProject(objects: Objects, project: string, n: string, k: Key) {
    && k in objects && k.kind == AppProjects
    && Lookup(objects[k].labels, ProjectLabel) == Some(project)
    && Lookup(objects[k].labels, TargetNamespace) == Some(n)
  }

  /** No live namespace is left that is labelled for `q` or controlled by it. */
  predicate Released(s: Store, q: Project) {
    forall n | n in s.namespaces && !s.namespaces[n].terminating ::
      s.namespaces[n].controller != Some(q.uid) && !IsManaged(s.namespaces[n].labels, q.name)
  }

  /** What a status written by the run says. */
  predicate StatusFits(q: Project, status: ProjectStatus) {
    if q.deleting then
      && IsTrue(status.conditions, DeletionBlocked) && UniqueTypes(status.conditions)
      && status.namespaces == q.status.namespaces && status.phase == q.status.phase
    else Reports(status, q.entries)
  }

  /** What the stored state must allow; `Entitled` adds what the run must have seen. */
  predicate Permitted(s: Store, q: Project, a: Action) {
    match a
    case BeginRun => q.name in s.projects && s.projects[q.name] == q
    case EndRun => true
    case AddFinalizer => q.name in s.projects && s.projects[q.name] == q && !q.deleting
    case DropFinalizer => q.name in s.projects && s.projects[q.name] == q && q.deleting && Released(s, q)
    case WriteStatus(status) => q.name in s.projects && s.projects[q.name].uid == q.uid && StatusFits(q, status)
    case AdoptNamespace(n, labels, _) =>
      && !q.deleting && HasEntry(q, n, false) && Holds(s, q) && IsManaged(labels, q.name)
      && (n in s.namespaces ==> MayControl(s.namespaces[n].controller, q))
    case DeleteNamespace(n) =>
      n in s.namespaces && IsManaged(s.namespaces[n].labels, q.name) && HasEntry(q, n, true)
    case PutTenantObject(key, value, owner) =>
      && !q.deleting && IsTenantKind(key.kind) && key.kind in s.served && HasEntry(q, key.namespace, false)
      && IsManaged(value.labels, q.name) && IsOwnedBy(value, owner)
    case PutOwnedObject(key, value) =>
      && !q.deleting && !IsTenantKind(key.kind) && key.kind in s.served && value.controller == Some(q.uid)
      && (key in s.objects ==> MayControl(s.objects[key].controller, q))
      && (key.kind == EgressIPObjects ==> HasEntry(q, key.name, false))
    case ListObjects(kind, n) => kind.AppProjects? || (kind.NetworkPolicies? && MayStrip(q, n))
    case DeleteObject(key) =>
      key in s.objects && MayDelete(s, q, key)
    case _ => false
  }

  predicate WellFormed(project: string, entries: seq<Entry>) {
    DistinctTenants(entries) && forall i | 0 <= i < |entries| :: KeepsLabels(project, entries[i])
  }

  predicate OwnerGone(s: Store, u: Uid) {
    !(u.name in s.projects && s.projects[u.name].uid == u)
  }

  /** What users and the cluster do. Users neither take labels off tenant namespaces nor put a project label on
      their own ones; the collector takes a namespace whose controlling project is gone. */
  predicate Possible(s: Store, a: Action) {
    match a
    case CreateProject(p, entries, _) => p !in s.projects && WellFormed(p, entries)
    case EditProject(p, entries, _, _) => p in s.projects && WellFormed(p, entries)
    case RequestDelete(p) => p in s.projects
    case CreateNamespaceByHand(n, labels) => n !in s.namespaces && '_' !in n && ProjectLabel !in labels
    case DeleteNamespaceByHand(n) => n in s.namespaces
    case NamespaceGone(n) => n in s.namespaces && s.namespaces[n].terminating
    case CollectNamespace(n) =>
      n in s.namespaces && s.namespaces[n].controller.Some? && OwnerGone(s, s.namespaces[n].controller.value)
    case ChangeObject(key, changed) => changed.Some? ==> key.kind in s.served
    case EditCatalogue(_) => true
    case _ => false
  }

  // ---------------------------------------------------------------- histories

  datatype Trace = Start(initial: Store) | Then(past: Trace, actor: Actor, action: Action)

  function Now(t: Trace): Store {
    match t
    case Start(s) => s
    case Then(past, actor, action) => Apply(Now(past), actor, action)
  }

  /** The last step begins or ends a run of the project. */
  predicate Turns(t: Trace, name: string) {
    t.Then? && t.actor.Run? && t.actor.q.name == name && (t.action.BeginRun? || t.action.EndRun?)
  }

  /** The run of the project that is in progress, as the project it has read. A run that breaks off without ending
      counts until the next one begins. */
  function RunOf(t: Trace, name: string): Option<Project> {
    if t.Start? then None
    else if Turns(t, name) then if t.action.BeginRun? then Some(t.actor.q) else None
    else RunOf(t.past, name)
  }

  predicate Running(t: Trace, q: Project) {
    RunOf(t, q.name) == Some(q)
  }

  /** The run in progress adopted incarnation `tenant` of namespace `n`. */
  predicate AdoptedOnce(t: Trace, q: Project, n: string, tenant: Uid) {
    && t.Then? && !Turns(t, q.name)
    && (|| (t.actor == Run(q) && t.action.AdoptNamespace? && t.action.tenant == n
            && n in Now(t).namespaces && Now(t).namespaces[n].uid == tenant)
        || AdoptedOnce(t.past, q, n, tenant))
  }

  predicate CarriesLabels(s: Store, q: Project, key: Key) {
    key in s.objects && IsOwned(key.kind, s.objects[key].labels, q.name)
  }

  /** A list of the tenant's objects of one kind, by their labels, finds the object under `key`. */
  predicate Picked(objects: Objects, project: string, kind: Kind, n: string, key: Key) {
    && key.kind == kind
    && (IsTenantPolicy(objects, project, n, key) || IsTenantAppProject(objects, project, n, key))
  }

  /** The run in progress listed the object under `key`, which then carried its labels. */
  predicate ListedOnce(t: Trace, q: Project, key: Key) {
    && t.Then? && !Turns(t, q.name)
    && (|| (t.actor == Run(q) && t.action.ListObjects?
            && Picked(Now(t).objects, q.name, t.action.kind, t.action.tenant, key))
        || ListedOnce(t.past, q, key))
  }

  /** The run saw what the action relies on: it adopted the namespace it names as owner; the object it deletes is
      labelled for its project, or was when the run listed it: what is listed is then deleted by its name. */
  predicate Entitled(t: Trace, q: Project, a: Action) {
    match a
    case PutTenantObject(key, _, owner) => AdoptedOnce(t, q, key.namespace, owner)
    case DeleteObject(key) => CarriesLabels(Now(t), q, key) || ListedOnce(t, q, key)
    case _ => true
  }

  /** `actor` may do `a` after the legal history `t`. A run begins with the project as it is stored, and only the run
      in progress acts for its project. */
  predicate StepOk(t: Trace, actor: Actor, a: Action)
    decreases t, 1
  {
    && Legal(t)
    && match actor
       case Environment => Possible(Now(t), a)
       case Run(q) => (a.BeginRun? || Running(t, q)) && Permitted(Now(t), q, a) && Entitled(t, q, a)
  }

  predicate Legal(t: Trace)
    decreases t, 0
  {
    match t
    case Start(s) => Inv(s)
    case Then(past, actor, action) => StepOk(past, actor, action)
  }

  /** `later` continues `t`. */
  predicate Extends(t: Trace, later: Trace) {
    t == later || (later.Then? && Extends(t, later.past))
  }

  // ---------------------------------------------------------------- the inductive invariant

  predicate ProjectOk(name: string, p: Project) {
    && p.name == name && p.uid.ProjectUid? && p.uid.name == name && WellFormed(name, p.entries)
    && UniqueTypes(p.status.conditions)
  }

  /** Namespace names hold no underscore (DNS-1123). A namespace that has a controller is labelled for the project
      that controls it; while it is live, that project is stored and still has its finalizer. */
  predicate NamespaceOk(s: Store, n: string, ns: Namespace) {
    && '_' !in n && ns.uid.NamespaceUid? && ns.uid.name == n && ns.uid.generation <= Births(s.births, n)
    && (ns.controller.Some? ==> IsManaged(ns.labels, ns.controller.value.name))
    && (!ns.terminating && ns.controller.Some? ==>
          var u := ns.controller.value;
          u.name in s.projects && s.projects[u.name].uid == u && s.projects[u.name].finalizer)
  }

  predicate Inv(s: Store) {
    && (forall p | p in s.projects :: ProjectOk(p, s.projects[p]))
    && (forall n | n in s.namespaces :: NamespaceOk(s, n, s.namespaces[n]))
    && (forall k | k in s.objects :: k.kind in s.served)
  }
}
