/** The reconcile loop of a ProjectOnboarding: finalizer, prune, entries, status; or, when the project is being
    deleted, the blocking finalization. */
module Controller {
  import opened Common
  import opened Quantities
  import opened Api
  import opened Resolution
  import opened Status
  import opened Cluster
  import opened Lifecycle
  import opened Interference
  import opened Clients
  import opened Cleanup
  import opened Prune
  import opened Reconcile
  import opened Deletion
  import opened Order

  /** The reason the operator records with an error. */
  datatype Stage =
    | ReadProject | DeletionFinalize | FinalizerRemove | FinalizerEnsure | PruneStage | StatusUpdate
    | NamespaceReconcile

  /** How a run ends. */
  datatype Outcome = Done | Gone | Blocked | Requeued | Failing(stage: Stage, err: Err) | Panicked

  function ErrorText(err: Err): string {
    match err
    case Ok => ""
    case NotFound => "not found"
    case NoMatch => "no matches for kind"
    case Fault => "request failed"
    case AlreadyOwned => "already owned by another controller"
    case Conflict => "the object has been modified"
    case Invalid => "invalid namespace entry"
    case Panic => "panic"
  }

  // ---------------------------------------------------------------- the entries

  lemma ReconciledKeepsLive(s: Store, q: Project, e: Entry)
    requires SizeKnown(s.sizes, e) && KeepsLabels(q.name, e)
    ensures LiveManaged(s, q.name, Tenant(e)) || Tenant(e) !in s.namespaces ==>
      LiveManaged(Reconciled(s, q, e), q.name, Tenant(e))
  {
    AdoptionShape(s, q, e);
    DesiredLabelsManaged(q.name, GitOpsNamespace(q.gitOps, e), e);
    var after := AdoptedTenant(s, q, e).namespaces[Tenant(e)];
    LabelPrecedence(q.name, GitOpsNamespace(q.gitOps, e), e, ManagedBy);
    LabelPrecedence(q.name, GitOpsNamespace(q.gitOps, e), e, ProjectLabel);
    assert Lookup(after.labels, ManagedBy) == Some(OPERATOR) && Lookup(after.labels, ProjectLabel) == Some(q.name);
  }

  lemma CleanedNotLive(s: Store, q: Project, e: Entry)
    ensures !LiveManaged(Cleaned(s, q.name, e), q.name, Tenant(e))
  {
    DroppedAt(s.(objects := CleanedObjects(s.objects, q.name, e)), q.name, Tenant(e));
  }

  /** What the flags of an entry, as they are written, do to its tenant. Only `offboard: true` ends a live managed
      namespace; `enabled: false` leaves the store as it is; otherwise the tenant is reconciled. */
  ghost predicate FlagsDecide(before: Store, after: Store, q: Project, e: Entry) {
    && (e.offboard.Some? && e.offboard.value ==> !LiveManaged(after, q.name, Tenant(e)))
    && (e.offboard.None? || !e.offboard.value ==>
          && (LiveManaged(before, q.name, Tenant(e)) ==> LiveManaged(after, q.name, Tenant(e)))
          && (e.enabled.Some? && !e.enabled.value ==> after == before)
          && (e.enabled.None? || e.enabled.value ==>
                && SizeKnown(before.sizes, e) && after == Reconciled(before, q, e)
                && (Tenant(e) !in before.namespaces ==> LiveManaged(after, q.name, Tenant(e)))))
  }

  /** Teardown, freeze or reconciliation of one entry. */
  method ReconcileEntry(c: Client, q: Project, e: Entry, ghost since: Trace) returns (err: Err)
    requires c.Ready(q, since) && !q.deleting && e in q.entries && Holds(Now(since), q)
    modifies c
    ensures c.Ready(q, since)
    ensures err.Panic? ==> !SoundEntry(e) || !SoundHistory(c.trace)
    ensures c.quiet && err.Ok? ==> c.store == EntryStep(old(c.store), q, e)
    ensures c.quiet && err.Ok? ==> FlagsDecide(old(c.store), c.store, q, e)
    ensures c.reliable && c.quiet && BuiltInServed(c.store) ==>
      (err.Ok? <==> (IsActive(e) ==> Reconcilable(old(c.store), q, e)))
  {
    EntryKeepsLabels(c, q, e);
    if SizeKnown(c.store.sizes, e) { ReconciledKeepsLive(c.store, q, e); }
    CleanedNotLive(c.store, q, e);
    if IsOffboard(e) {
      err := CleanupNamespace(c, q, e, since);
    } else if !IsEnabled(e.enabled) {
      err := Ok;
    } else {
      err := ReconcileNamespace(c, q, e, since);
    }
  }

  predicate SoundProject(q: Project) {
    forall i | 0 <= i < |q.entries| :: SoundEntry(q.entries[i])
  }

  /** Nothing stands in the way of the run: nobody else acts, no call fails, every cluster's own APIs are served and
      every entry to be reconciled can be. */
  ghost predicate IsSmooth(c: Client, s: Store, q: Project) {
    c.reliable && c.quiet && BuiltInServed(s) && AllReconcilable(s, q)
  }

  lemma StillReconcilable(s: Store, q: Project, i: nat)
    requires i < |q.entries| && AllReconcilable(s, q) && IsActive(q.entries[i])
    ensures Reconcilable(Pass(s, q, q.entries[..i]), q, q.entries[i])
  {
    PassEasier(q, s, q.entries[..i]);
    EasierReconcilable(q, s, Pass(s, q, q.entries[..i]), q.entries[i]);
  }

  /** The entry at `i`, continuing an undisturbed and so far error-free pass that began at `start`. */
  method ReconcileEntryAt(c: Client, q: Project, i: nat, ghost smooth: bool, ghost fine: bool, ghost start: Store,
                          ghost since: Trace)
    returns (err: Err)
    requires fine ==> IsSmooth(c, start, q)
    requires c.Ready(q, since) && !q.deleting && i < |q.entries| && Holds(Now(since), q)
    requires c.quiet && smooth ==> c.store == Pass(start, q, q.entries[..i])
    requires c.quiet ==> start.served == c.store.served
    modifies c
    ensures c.Ready(q, since)
    ensures err.Panic? ==> !SoundProject(q) || !SoundHistory(c.trace)
    ensures c.quiet && smooth && err.Ok? ==> c.store == Pass(start, q, q.entries[..i + 1])
    ensures smooth && fine ==> err.Ok?
  {
    PassAppend(start, q, q.entries, i);
    if fine && IsActive(q.entries[i]) { StillReconcilable(start, q, i); }
    err := ReconcileEntry(c, q, q.entries[i], since);
  }

  function Line(e: Entry, err: Err): NamespaceStatus {
    if !err.Ok? then NamespaceStatus(e.name, false, ErrorText(err))
    else if IsOffboard(e) then NamespaceStatus(e.name, true, "offboarded (resources removed)")
    else if !IsEnabled(e.enabled) then NamespaceStatus(e.name, true, "reconciliation disabled")
    else NamespaceStatus(e.name, true, "reconciled")
  }

  /** What the line of an entry says, by its flags as they are written. */
  lemma LineTexts(e: Entry, err: Err)
    ensures Line(e, err).name == e.name && (Line(e, err).ready <==> err.Ok?)
    ensures err.Ok? && e.offboard.Some? && e.offboard.value ==> Line(e, err).message == "offboarded (resources removed)"
    ensures err.Ok? && (e.offboard.None? || !e.offboard.value) && e.enabled.Some? && !e.enabled.value ==>
      Line(e, err).message == "reconciliation disabled"
    ensures err.Ok? && (e.offboard.None? || !e.offboard.value) && (e.enabled.None? || e.enabled.value) ==>
      Line(e, err).message == "reconciled"
  {
  }

  /** The lines for the first |results| entries. */
  function Lines(entries: seq<Entry>, results: seq<Err>): (lines: seq<NamespaceStatus>)
    requires |results| <= |entries|
    ensures |lines| == |results|
  {
    if results == [] then []
    else Lines(entries, results[..|results| - 1]) + [Line(entries[|results| - 1], results[|results| - 1])]
  }

  /** The first error of a list of results. */
  function FirstError(results: seq<Err>): Err {
    if results == [] then Ok
    else
      var before := FirstError(results[..|results| - 1]);
      if before.Ok? then results[|results| - 1] else before
  }

  lemma {:induction false} LinesMeaning(entries: seq<Entry>, results: seq<Err>)
    requires |results| <= |entries|
    ensures forall i :: 0 <= i < |results| ==> Lines(entries, results)[i] == Line(entries[i], results[i])
  {
    if results == [] {
    } else {
      LinesMeaning(entries, results[..|results| - 1]);
    }
  }

  lemma {:induction false} AllWell(results: seq<Err>)
    ensures FirstError(results).Ok? <==> forall i :: 0 <= i < |results| ==> results[i].Ok?
  {
    if results == [] {
    } else {
      AllWell(results[..|results| - 1]);
    }
  }

  predicate AllOk(results: seq<Err>) {
    forall i | 0 <= i < |results| :: results[i].Ok?
  }

  /** The error reported is the error of the first entry that failed. */
  lemma {:induction false} FirstErrorIsFirst(results: seq<Err>)
    requires !FirstError(results).Ok?
    ensures exists i :: 0 <= i < |results| && results[i] == FirstError(results) && AllOk(results[..i])
  {
    var last, before := |results| - 1, results[..|results| - 1];
    if FirstError(before).Ok? {
      AllWell(before);
      assert results[last] == FirstError(results) && AllOk(results[..last]);
    } else {
      FirstErrorIsFirst(before);
      var i :| 0 <= i < |before| && before[i] == FirstError(before) && AllOk(before[..i]);
      assert before[..i] == results[..i];
    }
  }

  lemma ResultsAppend(entries: seq<Entry>, results: seq<Err>, err: Err)
    requires |results| < |entries|
    ensures Lines(entries, results + [err]) == Lines(entries, results) + [Line(entries[|results|], err)]
    ensures FirstError(results + [err]) == if FirstError(results).Ok? then err else FirstError(results)
  {
    assert (results + [err])[..|results|] == results;
  }

  /** Every entry is processed, whatever happened to earlier ones; only a panic ends the loop, and only a project
      or a catalogue that is not sound can cause one. There is one line per entry, ready exactly when the entry went
      well, and the error reported is the first one. */
  method ReconcileEntries(c: Client, q: Project, ghost since: Trace)
    returns (lines: seq<NamespaceStatus>, results: seq<Err>, firstError: Err, panicked: bool)
    requires c.Ready(q, since) && !q.deleting && Holds(Now(since), q)
    modifies c
    ensures c.Ready(q, since)
    ensures firstError == FirstError(results)
    ensures |results| <= |q.entries| && lines == Lines(q.entries, results)
    ensures (panicked <==> Panic in results) && (panicked ==> !SoundProject(q) || !SoundHistory(c.trace))
    ensures !panicked ==> |results| == |q.entries|
    ensures c.quiet && firstError.Ok? ==> c.store == Pass(old(c.store), q, q.entries)
    ensures IsSmooth(c, old(c.store), q) ==> firstError.Ok? && !panicked
    ensures c.quiet && firstError.Ok? ==> c.store.projects == old(c.store).projects
  {
    ghost var start := c.store;
    ghost var fine := IsSmooth(c, start, q);
    lines, results, firstError, panicked := [], [], Ok, false;
    for i := 0 to |q.entries|
      invariant c.Ready(q, since)
      invariant |results| == i && firstError == FirstError(results) && Panic !in results
      invariant lines == Lines(q.entries, results)
      invariant c.quiet && firstError.Ok? ==> c.store == Pass(start, q, q.entries[..i])
      invariant c.store.served == start.served
      invariant fine ==> firstError.Ok?
    {
      var err := ReconcileEntryAt(c, q, i, firstError.Ok?, fine, start, since);
      ResultsAppend(q.entries, results, err);
      lines, results := lines + [Line(q.entries[i], err)], results + [err];
      if firstError.Ok? { firstError := err; }
      if err.Panic? {
        panicked := true;
        return;
      }
    }
    assert q.entries[..|q.entries|] == q.entries;
    PassEasier(q, start, q.entries);
  }

  // ---------------------------------------------------------------- finalizer and status writes

  predicate OnlyProjects(before: Store, after: Store) {
    after == before.(projects := after.projects)
  }

  /** The stored project is the one that was read, up to the finalizer the run itself adds. */
  predicate IsUnchanged(projects: map<string, Project>, q: Project) {
    q.name in projects && projects[q.name].(finalizer := q.finalizer) == q
  }

  /** The update carries the version that was read: a project changed since then is a conflict. */
  method EnsureFinalizer(c: Client, q: Project, ghost since: Trace) returns (err: Err)
    requires c.Ready(q, since) && !q.deleting && c.store.projects == Now(since).projects
    requires Lookup(c.store.projects, q.name) == Some(q)
    modifies c
    ensures c.Ready(q, since)
    ensures err.Ok? ==> Holds(c.store, q)
    ensures err.Conflict? ==> Lookup(c.store.projects, q.name) != Some(q) && OthersExtend(q.name, old(c.trace), c.trace)
    ensures c.quiet ==> OnlyProjects(old(c.store), c.store)
    ensures c.quiet ==> IsUnchanged(c.store.projects, q)
    ensures c.quiet && c.reliable ==> err.Ok?
  {
    if q.finalizer { return Ok; }
    c.Observe(q, since);
    if Lookup(c.store.projects, q.name) != Some(q) { return Conflict; }
    err := c.Act(q, AddFinalizer, since);
  }

  /** A project changed since it was read is a conflict, and then nothing is written. */
  method UpdateStatus(c: Client, q: Project, status: ProjectStatus, ghost since: Trace) returns (err: Err)
    requires c.Ready(q, since) && StatusFits(q, status)
    modifies c
    ensures c.Ready(q, since)
    ensures err.Ok? ==> q.name in c.store.projects && c.store.projects[q.name].status == status
    ensures err.Ok? ==> IsUnchanged(c.store.projects[q.name := c.store.projects[q.name].(status := q.status)], q)
    ensures err.Conflict? ==> !IsUnchanged(c.store.projects, q) && OthersExtend(q.name, old(c.trace), c.trace)
    ensures c.quiet && q.name in old(c.store).projects ==> (err.Conflict? <==> !IsUnchanged(old(c.store).projects, q))
    ensures c.quiet ==> OnlyProjects(old(c.store), c.store)
    ensures c.quiet && c.reliable ==> (err.Ok? <==> IsUnchanged(old(c.store).projects, q))
  {
    c.Observe(q, since);
    var current := Lookup(c.store.projects, q.name);
    if current.None? { return NotFound; }
    if !IsUnchanged(c.store.projects, q) { return Conflict; }
    err := c.Act(q, WriteStatus(status), since);
  }

  /** Nothing live is left for the project, so nothing can be collected with it. */
  lemma NothingLiveIsReleased(t: Trace, q: Project)
    requires Legal(t) && Running(t, q) && forall n :: !LiveManaged(Now(t), q.name, n)
    ensures Released(Now(t), q)
  {
    LegalInv(t);
    RunningOk(t, q);
    var s := Now(t);
    forall n | n in s.namespaces && !s.namespaces[n].terminating
      ensures s.namespaces[n].controller != Some(q.uid) && !IsManaged(s.namespaces[n].labels, q.name)
    {
      assert NamespaceOk(s, n, s.namespaces[n]);
      assert !LiveManaged(s, q.name, n);
    }
  }

  method RemoveFinalizer(c: Client, q: Project, ghost since: Trace) returns (err: Err)
    requires c.Ready(q, since) && q.deleting && forall n :: !LiveManaged(c.store, q.name, n)
    modifies c
    ensures c.Valid() && Running(c.trace, q) && SameRun(q.name, since, c.trace)
    ensures err.Ok? && q.finalizer ==> q.name !in c.store.projects
    ensures err.Conflict? ==> Lookup(c.store.projects, q.name) != Some(q) && OthersExtend(q.name, old(c.trace), c.trace)
    ensures c.quiet && err.Ok? ==> OnlyProjects(old(c.store), c.store)
    ensures c.quiet && c.reliable && Lookup(old(c.store).projects, q.name) == Some(q) ==> err.Ok?
  {
    if !q.finalizer { return Ok; }
    ghost var start := c.store;
    c.Observe(q, since);
    if Lookup(c.store.projects, q.name) != Some(q) { return Conflict; }
    forall n
      ensures !LiveManaged(c.store, q.name, n)
    {
      assert !LiveManaged(start, q.name, n);
    }
    NothingLiveIsReleased(c.trace, q);
    ghost var seen := c.trace;
    err := c.Release(q);
    SameRunTransitive(q.name, since, seen, c.trace);
  }

  // ---------------------------------------------------------------- the two kinds of run

  const MAX_MESSAGE := 32000

  function TruncateStatusMessage(message: string): (r: string)
    ensures |r| <= MAX_MESSAGE
    ensures |message| <= MAX_MESSAGE ==> r == message
    ensures |message| > MAX_MESSAGE ==> |r| == MAX_MESSAGE && message[..MAX_MESSAGE - 3] <= r
  {
    if |message| <= MAX_MESSAGE then message else message[..MAX_MESSAGE - 3] + "..."
  }

  function Join(names: seq<string>): string {
    if names == [] then "" else if |names| == 1 then names[0] else names[0] + ", " + Join(names[1..])
  }

  const BLOCKED_PREFIX :=
    "Cannot delete ProjectOnboarding while managed tenant namespaces still exist. "
    + "Set offboard=true on each namespace entry or delete the tenant namespaces manually. Pending: "

  /** The blocked message names the pending namespaces in order. */
  function Message(pending: seq<string>): string {
    BLOCKED_PREFIX + Join(pending)
  }

  /** The names are separated by commas, in order. */
  lemma {:induction false} JoinSplits(a: seq<string>, b: seq<string>)
    ensures a == [] ==> Join(a + b) == Join(b)
    ensures b == [] ==> Join(a + b) == Join(a)
    ensures |a| == 1 ==> Join(a) == a[0]
    ensures a != [] && b != [] ==> Join(a + b) == Join(a) + ", " + Join(b)
  {
    if a == [] {
      assert a + b == b;
    } else if b == [] {
      assert a + b == a;
    } else {
      assert (a + b)[1..] == a[1..] + b;
      JoinSplits(a[1..], b);
    }
  }

  lemma JoinNames(names: seq<string>, i: nat) returns (head: string, tail: string)
    requires i < |names|
    ensures Join(names) == head + names[i] + tail
  {
    var before, after := names[..i], names[i + 1..];
    head := if before == [] then "" else Join(before) + ", ";
    tail := if after == [] then "" else ", " + Join(after);
    assert names == before + ([names[i]] + after);
    JoinSplits(before, [names[i]] + after);
    JoinSplits([names[i]], after);
    assert Join([names[i]] + after) == names[i] + tail;
  }

  lemma ContainsMiddle(a: string, x: string, b: string)
    ensures Contains(a + x + b, x)
  {
    assert (a + x + b)[|a|..|a| + |x|] == x;
    assert OccursAt(a + x + b, x, |a|);
  }

  lemma ContainsAfter(before: string, s: string, x: string)
    requires Contains(s, x)
    ensures Contains(before + s, x)
  {
    var i: nat :| i <= |s| && OccursAt(s, x, i);
    assert (before + s)[|before| + i..|before| + i + |x|] == s[i..i + |x|];
    assert OccursAt(before + s, x, |before| + i);
  }

  /** Every pending namespace is named in the message. */
  lemma MessageNames(pending: seq<string>, i: nat)
    requires i < |pending|
    ensures Contains(Message(pending), pending[i])
  {
    var head, tail := JoinNames(pending, i);
    ContainsMiddle(head, pending[i], tail);
    ContainsAfter(BLOCKED_PREFIX, Join(pending), pending[i]);
  }

  /** The status says that the deletion is blocked, and by which namespaces. */
  predicate IsBlockedBy(status: ProjectStatus, pending: seq<string>) {
    && IsTrue(status.conditions, DeletionBlocked)
    && Find(status.conditions, DeletionBlocked).value.message == TruncateStatusMessage(Message(pending))
  }

  method ReportBlocked(c: Client, q: Project, pending: seq<string>, now: int, ghost since: Trace) returns (err: Err)
    requires c.Ready(q, since) && q.deleting
    modifies c
    ensures c.Ready(q, since)
    ensures err.Ok? ==> q.name in c.store.projects && IsBlockedBy(c.store.projects[q.name].status, pending)
    ensures c.quiet ==> OnlyProjects(old(c.store), c.store)
    ensures c.quiet && c.reliable ==> (err.Ok? <==> IsUnchanged(old(c.store).projects, q))
  {
    RunningOk(c.trace, q);
    var conditions := SetCondition(q.status.conditions, DeletionBlocked, true, "AwaitingOffboard",
                                   TruncateStatusMessage(Message(pending)), now);
    err := UpdateStatus(c, q, q.status.(conditions := conditions), since);
  }

  /** The sorted, duplicate-free list of exactly the live managed namespaces that no entry marks for offboarding; there
      are some, and they are live afterwards. */
  ghost predicate ListsBlocking(q: Project, before: Store, after: Store, pending: seq<string>) {
    && pending != [] && IsSorted(pending) && Distinct(pending)
    && (forall n :: n in pending <==> Blocks(q, before, n))
    && (forall n | n in pending :: LiveManaged(after, q.name, n))
  }

  /** The blocked branch of a deleting run; a conflict on the status is left to the next run. */
  method ReportPending(c: Client, q: Project, pending: seq<string>, now: int, ghost since: Trace)
    returns (outcome: Outcome)
    requires c.Ready(q, since) && q.deleting && pending != []
    modifies c
    ensures c.Ready(q, since)
    ensures outcome.Blocked? || (outcome.Failing? && outcome.stage.StatusUpdate?)
    ensures c.quiet ==> OnlyProjects(old(c.store), c.store)
    ensures c.quiet && c.reliable && IsUnchanged(old(c.store).projects, q) ==>
      outcome.Blocked? && q.name in c.store.projects && IsBlockedBy(c.store.projects[q.name].status, pending)
  {
    var err := ReportBlocked(c, q, pending, now, since);
    outcome := if err.Ok? || err.Conflict? then Blocked else Failing(StatusUpdate, err);
  }

  /** Undisturbed, a deletion is blocked by a live managed namespace that no entry marks for offboarding; a project
      that goes had none, and leaves nothing live or unsettled. */
  ghost predicate DeletedAs(outcome: Outcome, before: Store, after: Store, q: Project) {
    && (outcome.Blocked? ==> exists pending :: ListsBlocking(q, before, after, pending))
    && (outcome.Gone? ==>
          (forall n :: !Blocks(q, before, n) && !LiveManaged(after, q.name, n)) && AllReleased(q, after))
  }

  /** Where no call fails, the project goes exactly when nothing blocks it; otherwise its status names what does. */
  ghost predicate EndsAsDeleted(outcome: Outcome, before: Store, after: Store, q: Project) {
    && ((exists n :: Blocks(q, before, n)) ==> outcome.Blocked?)
    && (!(exists n :: Blocks(q, before, n)) ==> outcome.Gone?)
    && (outcome.Blocked? ==> q.name in after.projects && exists pending ::
          ListsBlocking(q, before, after, pending) && IsBlockedBy(after.projects[q.name].status, pending))
  }

  /** The released branch of a deleting run. */
  method LetGo(c: Client, q: Project, ghost since: Trace) returns (outcome: Outcome)
    requires c.Ready(q, since) && q.deleting && forall n :: !LiveManaged(c.store, q.name, n)
    modifies c
    ensures c.Valid() && Running(c.trace, q) && SameRun(q.name, since, c.trace)
    ensures outcome.Gone? || (outcome.Failing? && outcome.stage.FinalizerRemove?)
    ensures outcome.Gone? && q.finalizer ==> q.name !in c.store.projects
    ensures c.quiet && outcome.Gone? ==> OnlyProjects(old(c.store), c.store)
    ensures c.quiet && c.reliable && Lookup(old(c.store).projects, q.name) == Some(q) ==> outcome.Gone?
  {
    var err := RemoveFinalizer(c, q, since);
    outcome := if err.Ok? then Gone else Failing(FinalizerRemove, err);
  }

  /** A run of a deleted project: it goes away only when the finalization is complete, otherwise its status says
      that the deletion is blocked. Undisturbed, it is blocked only by a live managed namespace, and goes only
      when there is none, and then nothing of its entries that are not offboarded is left outside their namespaces. */
  method ReconcileDeleted(c: Client, q: Project, now: int) returns (outcome: Outcome)
    requires c.Valid() && Running(c.trace, q) && q.deleting && Lookup(c.store.projects, q.name) == Some(q)
    modifies c
    ensures c.Valid() && Running(c.trace, q) && SameRun(q.name, old(c.trace), c.trace)
    ensures outcome.Gone? && q.finalizer ==> q.name !in c.store.projects
    ensures outcome.Blocked? || outcome.Gone? || outcome.Failing?
    ensures c.quiet ==> DeletedAs(outcome, old(c.store), c.store, q)
    ensures c.quiet && c.reliable && BuiltInServed(old(c.store)) ==> EndsAsDeleted(outcome, old(c.store), c.store, q)
  {
    ghost var start := c.store;
    ghost var since := c.trace;
    var complete, pending, err := FinalizeProjectOnboardingDeletion(c, q, since);
    if !err.Ok? { return Failing(DeletionFinalize, err); }
    if !complete {
      ghost var blocking := pending[0];
      assert c.quiet ==> Blocks(q, start, blocking);
      outcome := ReportPending(c, q, pending, now, since);
      assert c.quiet ==> ListsBlocking(q, start, c.store, pending);
      return;
    }
    assert c.quiet ==> forall n :: !Blocks(q, start, n);
    ghost var finalized := c.store;
    outcome := LetGo(c, q, since);
    if c.quiet && outcome.Gone? {
      forall n
        ensures !LiveManaged(c.store, q.name, n)
      {
        assert !LiveManaged(finalized, q.name, n);
      }
    }
  }

  /** The stored status has the lines of these results, and is Ready exactly when all went well. */
  predicate Reported(s: Store, q: Project, results: seq<Err>) {
    && q.name in s.projects && |results| == |q.entries|
    && var status := s.projects[q.name].status;
       && Reports(status, q.entries) && status.namespaces == Lines(q.entries, results)
       && (status.phase.Ready? <==> AllOk(results))
  }

  /** What the Ready condition says. */
  predicate ReadySays(conditions: seq<Condition>, firstError: Err) {
    var found := Find(conditions, ReadyCondition);
    && found.Some? && found.value.isTrue == firstError.Ok?
    && found.value.reason == (if firstError.Ok? then "ReconcileSucceeded" else "ReconcileFailed")
    && found.value.message
       == (if firstError.Ok? then "All namespaces reconciled"
           else TruncateStatusMessage("one or more namespaces failed: " + ErrorText(firstError)))
  }

  method BuildStatus(c: Client, q: Project, lines: seq<NamespaceStatus>, firstError: Err, now: int)
    returns (status: ProjectStatus)
    requires c.Valid() && Running(c.trace, q) && LinesFor(lines, q.entries)
    requires firstError.Ok? <==> AllReady(lines)
    ensures Reports(status, q.entries) && status.namespaces == lines && (status.phase.Ready? <==> firstError.Ok?)
    ensures forall kind :: kind != ReadyCondition ==> Find(status.conditions, kind) == Find(q.status.conditions, kind)
    ensures ReadySays(status.conditions, firstError)
  {
    RunningOk(c.trace, q);
    status := q.status.(phase := Pending, namespaces := lines);
    var conditions: seq<Condition>;
    if firstError.Ok? {
      conditions := SetCondition(status.conditions, ReadyCondition, true, "ReconcileSucceeded",
                                 "All namespaces reconciled", now);
      status := status.(phase := Ready, conditions := conditions);
    } else {
      conditions := SetCondition(status.conditions, ReadyCondition, false, "ReconcileFailed",
                                 TruncateStatusMessage("one or more namespaces failed: " + ErrorText(firstError)), now);
      status := status.(phase := Failed, conditions := conditions);
    }
  }

  /** The status write at the end of a run: Ready exactly when every entry went well. */
  method ReportResults(c: Client, q: Project, lines: seq<NamespaceStatus>, ghost results: seq<Err>, firstError: Err,
                       now: int, ghost since: Trace)
    returns (err: Err)
    requires c.Ready(q, since) && !q.deleting && |results| == |q.entries|
    requires lines == Lines(q.entries, results) && firstError == FirstError(results)
    modifies c
    ensures c.Ready(q, since)
    ensures err.Ok? ==> Reported(c.store, q, results)
    ensures c.quiet ==> OnlyProjects(old(c.store), c.store)
    ensures c.quiet && c.reliable ==> (err.Ok? <==> IsUnchanged(old(c.store).projects, q))
  {
    LinesMeaning(q.entries, results);
    AllWell(results);
    var status := BuildStatus(c, q, lines, firstError, now);
    err := UpdateStatus(c, q, status, since);
  }

  lemma UndisturbedRun(s: Store, t: Store, u: Store, v: Store, w: Store, q: Project)
    requires OnlyProjects(s, t) && OnlyProjects(v, w) && DistinctTenants(q.entries)
    requires forall k | IsLocal(k) :: PrunedTo(t, u, q, k)
    requires v == Pass(u, q, q.entries)
    ensures forall k | IsLocal(k) :: RunAt(s, w, q, k)
  {
    forall k | IsLocal(k)
      ensures RunAt(s, w, q, k)
    {
      PruneThenPass(t, u, q, k);
      RunAtElsewhere(t, s, v, w, q, k);
    }
  }

  /** A run that is done reports every entry as well; one that fails over its entries reports them all and ends with
      the error of the first that failed. */
  ghost predicate EntriesAs(outcome: Outcome, after: Store, q: Project) {
    && (outcome.Done? && !q.paused ==> exists results :: Reported(after, q, results) && AllOk(results))
    && (outcome.Failing? && outcome.stage.NamespaceReconcile? ==>
          exists results :: Reported(after, q, results) && !AllOk(results) && outcome.err == FirstError(results))
  }

  /** A run of a project that is not being deleted: finalizer first, then prune, then every entry, then the status.
      Undisturbed and without an error it does to each tenant exactly what that tenant's entry asks for and leaves
      every tenant that no entry names alone; the status then says Ready for every entry. */
  method ReconcileActive(c: Client, q: Project, now: int) returns (outcome: Outcome)
    requires c.Valid() && Running(c.trace, q) && !q.deleting && Lookup(c.store.projects, q.name) == Some(q)
    modifies c
    ensures c.Valid() && Running(c.trace, q) && SameRun(q.name, old(c.trace), c.trace)
    ensures outcome.Done? || outcome.Requeued? || outcome.Failing? || outcome.Panicked?
    ensures EntriesAs(outcome, c.store, q)
    ensures outcome.Panicked? ==> !SoundProject(q) || !SoundHistory(c.trace)
    ensures c.quiet && outcome.Done? && !q.paused ==> forall k | IsLocal(k) :: RunAt(old(c.store), c.store, q, k)
    ensures c.quiet && q.paused ==> OnlyProjects(old(c.store), c.store)
    ensures IsSmooth(c, old(c.store), q) ==> outcome.Done?
  {
    ghost var start := c.trace;
    ghost var s := c.store;
    var err := EnsureFinalizer(c, q, start);
    if !err.Ok? { return Failing(FinalizerEnsure, err); }
    if q.paused { return Done; }
    ghost var since := c.trace;
    ghost var t := c.store;
    if IsSmooth(c, s, q) { AllEasier(q, s, t); }
    err := PruneRemovedNamespaces(c, q, since);
    SameRunTransitive(q.name, start, since, c.trace);
    if !err.Ok? { return Failing(PruneStage, err); }
    ghost var u := c.store;
    if IsSmooth(c, t, q) { AllEasier(q, t, u); }
    var lines, results, firstError, panicked := ReconcileEntries(c, q, since);
    SameRunTransitive(q.name, start, since, c.trace);
    if panicked { return Panicked; }
    ghost var v := c.store;
    err := ReportResults(c, q, lines, results, firstError, now, since);
    SameRunTransitive(q.name, start, since, c.trace);
    if c.quiet && firstError.Ok? {
      RunningOk(c.trace, q);
      UndisturbedRun(s, t, u, v, c.store, q);
    }
    if err.Conflict? { return Requeued; }
    if !err.Ok? { return Failing(StatusUpdate, err); }
    AllWell(results);
    assert Reported(c.store, q, results);
    outcome := if firstError.Ok? then Done else Failing(NamespaceReconcile, firstError);
  }

  /** One run. Under any interleaving with other runs, users and the garbage collector, and under any failures, the
      history it takes part in stays legal. */
  method ReconcileProject(c: Client, name: string, now: int) returns (outcome: Outcome)
    requires c.Valid()
    modifies c
    ensures c.Valid() && Extends(old(c.trace), c.trace)
    ensures c.trace == old(c.trace) || RunOf(c.trace, name) == None
    ensures name !in old(c.store).projects ==>
      c.store == old(c.store) && (outcome.Done? || outcome == Failing(ReadProject, Fault))
    ensures name in old(c.store).projects ==>
      var q := old(c.store).projects[name];
      if q.deleting then
        && !outcome.Done? && !outcome.Requeued? && !outcome.Panicked?
        && (outcome.Gone? && q.finalizer ==> name !in c.store.projects)
        && (c.quiet ==> DeletedAs(outcome, old(c.store), c.store, q))
        && (c.quiet && c.reliable && BuiltInServed(old(c.store)) ==> EndsAsDeleted(outcome, old(c.store), c.store, q))
      else
        && !outcome.Gone? && !outcome.Blocked? && EntriesAs(outcome, c.store, q)
        && (outcome.Panicked? ==> !SoundProject(q) || !SoundHistory(c.trace))
        && (c.quiet && outcome.Done? && !q.paused ==> forall k | IsLocal(k) :: RunAt(old(c.store), c.store, q, k))
        && (IsSmooth(c, old(c.store), q) ==> outcome.Done?)
  {
    var fault: bool := *;
    if fault && !c.reliable { return Failing(ReadProject, Fault); }
    if name !in c.store.projects { return Done; }
    LegalInv(c.trace);
    var q := c.store.projects[name];
    assert ProjectOk(name, q);
    ghost var start := c.trace;
    c.Begin(q);
    ghost var begun := c.trace;
    if q.deleting {
      outcome := ReconcileDeleted(c, q, now);
    } else {
      outcome := ReconcileActive(c, q, now);
    }
    SameRunExtends(name, begun, c.trace);
    ExtendsTransitive(start, begun, c.trace);
    c.End(q);
  }
}
