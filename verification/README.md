# Verified model of the project onboarding operator

The operator turns a `ProjectOnboarding` resource into tenant namespaces on an OpenShift or Kubernetes cluster and
keeps them in the state that the resource describes. This directory models its reconcile engine, its sizing compiler
and its network policy generator in Dafny, and proves what they keep. `dafny verify dfyconfig.toml` checks everything.

## How the model is built

**Cluster and histories** (`Cluster.dfy`, `Lifecycle.dfy`, `Interference.dfy`). A store holds projects, namespaces,
the seven kinds of generated objects and the catalogue of sizes. A history is a list of steps; each step belongs to an
operator run or to the environment: spec edits, delete requests, manual namespace deletes, namespaces going away,
garbage collection by owner, arbitrary changes to generated objects. A run begins by reading its project and acts on
that record until it ends or the next run of the project begins; only the run in progress acts for a project.
`Permitted` and `Entitled` say which steps it may take, by the stored state and by what this run has done (it adopted
the namespace it names as owner, it listed the object it deletes), and `Possible` what the environment does. Safety is
proved over every legal history by one inductive invariant: a namespace that has a controller is labelled for that
project, and while it is live the project is stored and still has its finalizer.

**Runs** (`Client.dfy`, `Cleanup.dfy`, `Prune.dfy`, `Deletion.dfy`, `Reconcile.dfy`, `Controller.dfy`). The operator's
functions are methods over a client object. Every read may find that others have acted since, every call may fail, and
a failed write may have taken effect. A method may only take steps the run is entitled to, so that every run, under
every interleaving and every failure, produces a legal history; this is how the safety theorems reach the code. With
`quiet`, nobody else writes, and the methods' contracts say exactly what store they leave. With `reliable`, no call
fails that the stored state does not make fail, and the contracts say exactly when each stage succeeds.

**Convergence and order** (`Convergence.dfy`, `Order.dfy`, `Outcomes.dfy`). What an undisturbed, error-free
reconciliation leaves under every single key, from any earlier store; that a second one changes nothing; that the
order of the entries does not matter; what a whole run does to each tenant; and what the fields of an entry, as they
are written, lead to in the store.

**Sizing** (`Quantities.dfy`, `Sizing.dfy`, `Validation.dfy`, `Resolution.dfy`, `Admission.dfy`). Quantity grammar,
normaliser, merge of a catalogue entry and an override, compilation to hard limits and limit items, admission, and the
references between the two kinds of resources.

**Network policies** (`Policies.dfy`, `Verdicts.dfy`), judged by the isolation semantics of the NetworkPolicy API
(`networking.k8s.io/v1`), as they are generated and as a reconciliation leaves them in the store. **Status**
(`Status.dfy`) and **API types** (`Api.dfy`) complete the picture.

## Main results

- A live tenant namespace is lost only by a manual delete or by the run in progress, when it has read an entry for it
  with `offboard` (`Lifecycle.LiveTenantStep`, `Lifecycle.TenantSurvives`); what earlier runs read does not matter, so
  a tenant that was offboarded once and taken back is safe again. A project goes only when nothing live is left for it
  (`Lifecycle.ProjectReleased`).
- A deletion completes exactly when no live managed namespace is left, and otherwise lists exactly those that are
  (`Deletion.FinalizeProjectOnboardingDeletion`). Undisturbed, these are the live managed ones that no entry marks for
  offboarding. Where no call fails either, the run ends with the project gone if nothing blocks, and otherwise with a
  stored condition that names what does (`Controller.ReconcileDeleted`).
- A run over a project that is not being deleted, which nobody disturbs and where no call fails, succeeds whenever
  each entry to be reconciled can be; whether it can is decided by the store at the start of the run, in any order of
  the entries (`Reconcile.ReconcileNamespace`, `Order.PassEasier`, `Controller.ReconcileActive`).
- Only an entry that says `offboard: true` is torn down, `enabled: false` leaves the store as it is, and any other
  entry is reconciled (`Controller.ReconcileEntry`, over the flags as they are written).
- Projects do not interfere: no run that begins while another project controls a namespace changes it or what is not
  labelled for the run's project in it, until that namespace goes away (`Lifecycle.TenantUndisturbed`). The exact
  condition under which the run in progress is entitled to change something foreign is proved in both directions
  (`Lifecycle.IntrusionExactly`).
- Reconciliation converges from any store to what the fields of the entry say: labels and annotations key by key over
  those that were there, quota and limit range from the entry and the catalogue, administrators and egress addresses
  (`Outcomes.NamespaceConverges`, `Outcomes.SizedQuotaStored`, `Outcomes.AdminsStored`). It is idempotent, does not
  depend on the order of the entries, and a whole run does to each tenant what its entry asks for and nothing to any
  other (`Convergence.ReconciledConverges`, `Convergence.ReconciledTwice`, `Order.PassInAnyOrder`,
  `Controller.ReconcileActive`).
- A run panics only over a project or a catalogue with a text that was not admitted, is blank or is padded, under any
  interference (`Controller.ReconcileProject`, `Reconcile.SoundCompiles`).
- Merging and compiling commute under an exact condition; admitted sizes compile under an exact condition; references
  stay good over every sequence of admissions (`Sizing.MergeThenCompile`, `Resolution.ResolvedQuotaCompiles`,
  `Admission.ReferencesStayGood`).
- From any store, a reconciliation leaves exactly the ingress and egress verdicts of the default toggles, beside
  custom policies that are not about the direction and have names of their own; and it is proved exactly when adding a
  policy without ingress rules changes an ingress verdict (`Verdicts.StoredIngressVerdict`,
  `Verdicts.AddedEgressPolicy`).

## Where the code and what is promised of it differ

- **Labels.** A comment (`api/v1beta1/projectonboarding_types.go:198`) says that managed labels win over
  `additionalLabels`. The code writes both kinds of user labels after the three onboarding labels, so user labels win.
  The namespace is labelled for its project exactly when the user labels leave those keys alone
  (`Api.DesiredLabelsManaged`). Histories assume that they do (`KeepsLabels` in `WellFormed`).
- **Quantities.** Admission trims quantities before it looks at them, the builders do not trim before parsing. A blank
  storage-class value or a padded memory quota is admitted and makes the builder panic
  (`Validation.AdmittedButPanics`); the exact condition is `QuotaTrimmed` and `LimitsTrimmed`.
- **Interference.** Writes into a tenant are addressed by name. A run that adopted a namespace which is then, before
  the run is over, deleted by hand and created anew for another project still writes its objects there
  (`Lifecycle.StaleWriteLands`). Deletes of listed objects are addressed by name too: a network policy that loses the
  project's labels between the list and its delete is deleted all the same (`Lifecycle.RelabelledPolicyGoes`). These
  are the only two ways in which a run can change something foreign in another project's tenant
  (`Lifecycle.IntrusionExactly`).
- **Merge algebra.** The flag `enabled` defaults to true after every merge, so a disabled first block is switched on
  by later blocks that do not mention the flag (`Sizing.GroupingMatters`). Associativity holds exactly otherwise
  (`Sizing.OverrideAssociativity`).
- **Merge and compile.** A blank override text removes the catalogue's limit, and a storage-class key spelt like a
  built-in resource shadows it (`Sizing.BlankOverrideRemoves`, `Sizing.ClassShadowsOverride`);
  `Sizing.MergeThenCompile` states both as the exact condition.
- **Policies of the same name.** Nothing keeps a custom policy from having the name of a default one, which it then
  replaces. With `denyAllIngress` on, a custom policy named `deny-all-ingress` that has egress rules only opens
  ingress to everybody (`Verdicts.NamesakeOpensIngress`). `Verdicts.AddedEgressPolicy` gives the exact condition.
- **Argo CD.** Admission asks for an Argo CD namespace only when a project of the entry is enabled, reconciliation as
  soon as the entry lists projects. An entry that lists disabled projects only and gives no namespace is admitted and
  never reconciles (`Admission.GitOpsPresentExactly`, `Outcomes.DisabledProjectsFail`).
- **Custom policies.** A custom policy without any rule gets no policy type from the operator, and the API then makes
  it an ingress policy (`Policies.CustomWithoutIngressRules`).

## Model

| member | source | states |
|---|---|---|
| Lifecycle.LegalInv | internal/controller/projectonboarding_controller.go:78-127 | over every history of runs, failures, edits, delete requests and garbage collection, a namespace with a controller is labelled for the controlling project, and while it is live that project is stored and has its finalizer |
| Lifecycle.RunStepKeepsInv | internal/onboarding/reconcile.go:93-182 | every write a run is entitled to keeps the invariant |
| Lifecycle.EnvironmentStepKeepsInv | internal/onboarding/owners.go:38-46 | whatever users and the garbage collector do keeps the invariant; in particular nothing live is collected with its owner |
| Lifecycle.LiveTenantStep | internal/onboarding/deletion.go:37-74 | a live controlled namespace keeps incarnation and controller over every step; only a manual delete, or the run in progress that has read an entry for it with `offboard: true`, ends it |
| Lifecycle.TenantSurvives | internal/onboarding/prune.go:29-53 | over whole histories: without a manual delete, and while no run in progress has read an entry for it with `offboard: true`, a live tenant keeps its namespace, whatever earlier runs read, whatever entries are removed and whether or not deletion of the project is requested |
| Lifecycle.SpecDecides | internal/controller/projectonboarding_controller.go:137-155 | it is enough that no entry for the tenant in the stored spec has `offboard: true`, from when a run that still read one is over |
| Lifecycle.ProjectReleased | internal/controller/projectonboarding_controller.go:78-105 | a project with its finalizer stays until a run of its delete request takes the finalizer off, and at that moment no live namespace is labelled for it or controlled by it |
| Lifecycle.ControllerStays | internal/onboarding/owners.go:38-46 | a namespace that has a controller, live or terminating, keeps it and its incarnation over every step until it is gone |
| Lifecycle.ForeignTenantUntouched | internal/onboarding/cleanup.go:86-102 | a run leaves a namespace that another project controls, and every policy, quota, limit range and role binding in it not labelled for the run's project, as they are, unless this run adopted an earlier incarnation of the namespace that went away, or deletes a policy that carried the labels when this run listed it |
| Lifecycle.TenantUndisturbed | internal/onboarding/reconcile.go:93-164 | over whole histories: while a namespace controlled by another project does not go away, no run that begins changes it or anything in it that is not labelled for the run's project and was not when that run listed it; nor does the run that was in progress, unless it had adopted the namespace |
| Lifecycle.IntrusionExactly | internal/onboarding/reconcile_netpol.go:33-61 | the run in progress is entitled to change something foreign in another project's tenant if and only if it adopted that namespace before it went away and a kind of tenant object is served, or a policy there lost the labels since it listed it |
| Lifecycle.AdoptionHolds | internal/onboarding/reconcile.go:135-163 | what the run in progress adopted its project still controls, unless that namespace went away since |
| Lifecycle.StaleWriteLands | internal/onboarding/reconcile_netpol.go:33-61 | the first exception is reachable: a run adopts a namespace, meanwhile it is deleted by hand and created anew for another project, and the run puts its policy there |
| Lifecycle.RelabelledPolicyGoes | internal/onboarding/cleanup.go:104-115 | the second exception is reachable: the run lists a policy, it loses the labels, and the run deletes it |
| Lifecycle.FrozenTenantUntouched | internal/controller/projectonboarding_controller.go:157-162 | for an entry with `enabled: false` and no `offboard: true`: no run touches its namespace or the operator's objects in it; its EgressIP stays while the project is not being deleted or the managed namespace is live |
| Lifecycle.StatusAlwaysConsistent | internal/controller/projectonboarding_controller.go:129-191 | at every moment each project has at most one condition per type, and every status a reconciling run writes has one line per entry and is Ready, in phase and condition, exactly when every line is |
| Interference.OthersKeep | internal/onboarding/owners.go:38-46 | whatever other runs and the environment do between two steps of a run: its project keeps its finalizer, the installed APIs stay, live namespaces labelled for it only become fewer |
| Interference.OwnStepKeeps | internal/onboarding/reconcile.go:166-182 | the same for the run's own writes, apart from dropping the finalizer and adopting a namespace |
| Clients.Client.Begin | internal/controller/projectonboarding_controller.go:67-76 | a run begins with the project exactly as it is stored |
| Clients.Client.End | internal/controller/projectonboarding_controller.go:200-205 | when a run returns, no run of the project is in progress |
| Clients.Client.Observe | internal/controller/projectonboarding_controller.go:222-223 | between two calls of a run, any legal steps of runs of other projects and of the environment may have happened |
| Clients.Client.Get | internal/onboarding/cleanup.go:117-127 | the object, or that it is missing, or that its API is not installed, or a failure without information |
| Clients.Client.ListManagedNamespaces | internal/onboarding/deletion.go:118-127 | exactly the namespaces with both onboarding labels of the project, without duplicates |
| Clients.Client.List | internal/onboarding/cleanup.go:77-107 | exactly the objects of one kind that carry the labels, each once; what the run has listed is part of the history |
| Clients.Client.Act | internal/onboarding/reconcile.go:157-163 | a write is one step of the history; a reported failure may or may not have taken effect |
| Clients.Client.Release | internal/onboarding/reconcile.go:176-182 | taking the finalizer off a deleted project makes it go; allowed only when nothing live is left for it |
| Cleanup.DeleteManaged | internal/onboarding/cleanup.go:94-179 | get, tolerate what is missing and, for Group and EgressIP, a missing API, delete only what carries the project's labels: the store without exactly that object |
| Cleanup.DeleteTarget | internal/onboarding/cleanup.go:109-113 | a listed object is deleted by its name, others may have acted since the list, and a missing one is no error |
| Cleanup.DeleteListed | internal/onboarding/prune.go:143-150 | undisturbed, exactly the listed objects whose names are not kept are gone, and nothing but them is deleted on any outcome |
| Cleanup.PruneManagedNetworkPolicies | internal/onboarding/prune.go:138-152 | exactly the managed policies of the tenant whose names are not kept are gone |
| Cleanup.DeleteAppProjectsForNamespace | internal/onboarding/argocd.go:276-299 | exactly the AppProjects labelled for project and tenant whose names are not kept are gone; a missing API means there are none |
| Cleanup.DeleteManagedNamespace | internal/onboarding/cleanup.go:181-197 | without an error no live managed namespace of that name is left; the delete is issued only for one with the project's labels; where no call fails it always succeeds, the namespace missing or not |
| Cleanup.CleanupInner | internal/onboarding/cleanup.go:35-52 | policies, role binding, limit range and quota go first; nothing but targets of the entry is deleted on any outcome |
| Cleanup.CleanupOuter | internal/onboarding/cleanup.go:54-68 | then EgressIP and Group, when their toggles are on, and the AppProjects |
| Cleanup.CleanupNamespace | internal/onboarding/cleanup.go:35-75 | whatever others do, success leaves no live managed tenant and every step is one the run is entitled to; in a run that nobody disturbs, on success, failure and retry, only targets of the entry are deleted, the namespace delete is issued only when none of them is left, and success leaves exactly the cleaned store; where no call fails it succeeds exactly when the cluster's own kinds are served, whatever is missing |
| Cleanup.CleanedLeavesNothing | internal/onboarding/cleanup.go:35-68 | after the stages before the namespace delete none of the project's policies, role binding, limit range, quota and AppProjects of the tenant is left, nor the EgressIP and Group whose toggles are on |
| Cleanup.StripsShrinkTargets | internal/onboarding/cleanup.go:94-115 | every successful delete takes exactly one object off the targets, nothing else changes, so retries terminate |
| Prune.DesiredTenantNamespaceNames | internal/onboarding/prune.go:55-64 | exactly the tenants of entries that are not offboarded |
| Prune.NamespaceSpecForManagedName | internal/onboarding/prune.go:66-73 | the first entry for the tenant, or none if there is none |
| Cluster.MarksExactly | internal/onboarding/helpers.go:38-41 | an entry allows the teardown of a tenant exactly when it has `offboard: true` |
| Prune.PruneTenant | internal/onboarding/prune.go:40-50 | a managed namespace no entry wants to keep is cleaned up when its entry says offboard and left alone otherwise |
| Prune.PruneListed | internal/onboarding/prune.go:40-52 | every listed tenant that only offboard entries name is cleaned up, the others are left alone |
| Prune.PruneRemovedNamespaces | internal/onboarding/prune.go:32-53 | afterwards no tenant that only offboard entries name has a live managed namespace; undisturbed, nothing but cleanups of offboarded entries has happened, so removed entries cost nothing |
| Deletion.SortedIsSorted | internal/onboarding/deletion.go:69-72 | the pending list is a sorted permutation |
| Deletion.LexMeaning | internal/onboarding/deletion.go:70 | the order: a prefix comes first, otherwise the first different character decides |
| Deletion.CleanupNamespaceClusterScoped | internal/onboarding/deletion.go:139-152 | EgressIP, Group and AppProjects of a tenant without live managed namespace go, regardless of the toggles, and nothing else |
| Deletion.ReleasedExactly | internal/onboarding/deletion.go:137-152 | exactly the project's EgressIP, Group and AppProjects of the tenant go |
| Deletion.ManagedNamespaceExists | internal/onboarding/deletion.go:100-116 | exactly whether a live namespace with the project's labels has that name |
| Deletion.FinalizeNamespaceEntry | internal/onboarding/deletion.go:76-98 | an entry blocks exactly when it is not offboarded and its managed namespace is live; if it does not block, no live managed namespace of it is left, nothing that its cleanup deletes if it is offboarded, and nothing outside the namespace if not |
| Deletion.TenantNames | internal/onboarding/deletion.go:154-169 | exactly the tenants of the entries, the managed namespaces, and the sanitised names their target-namespace labels give |
| Deletion.CleanupClusterScopedForReleasedTenants | internal/onboarding/deletion.go:154-184 | undisturbed, only EgressIPs, Groups and AppProjects of tenants without a namespace go; none of those is left for any tenant of an entry, managed namespace or target-namespace label that has no namespace; no namespace is touched |
| Deletion.FinalizeEntries | internal/onboarding/deletion.go:40-48 | every live managed namespace of an entry is listed, once; undisturbed, exactly those of entries that are not offboarded and were live and managed before, and every other entry is torn down or released |
| Deletion.AddOrphans | internal/onboarding/deletion.go:50-63 | adds exactly the live managed namespaces that no entry names |
| Deletion.FinalizeProjectOnboardingDeletion | internal/onboarding/deletion.go:37-74 | under any interference, completion means that no live managed namespace is left and the list names every one; undisturbed, the list is the sorted, duplicate-free list of exactly those that were live and managed before and that no entry marks for offboarding, in spec or orphaned, no other is live afterwards, and completion leaves nothing of the entries; where no call fails it succeeds |
| Deletion.ListedBlocks | internal/onboarding/deletion.go:50-63 | the entries and the orphans together list exactly what blocks the deletion |
| Reconcile.ReconcileTenantObject | internal/onboarding/reconcile_quota.go:47-65 | get, then create or patch: labels merged over the old ones, content replaced, the namespace as owner, nothing else changed; where no call fails it succeeds exactly when the API is served |
| Reconcile.ReconcileOwnedObject | internal/onboarding/reconcile_openshift.go:132-191 | the same for objects that the project controls; one with another controller is refused, and then the run has written nothing; labels of an existing Group or EgressIP are left as they are; where no call fails only that, or a missing API, is an error |
| Reconcile.ReconcileNamespaceObject | internal/onboarding/reconcile.go:93-164 | the tenant namespace is created or patched: under every label and annotation key the desired value, else the one that was there, the project as controller, incarnation and terminating mark kept; one with another controller is refused, and then the run has written nothing; where no call fails that is the only error; the namespace returned is one that this run adopted |
| Reconcile.BuildDesiredLabels | internal/onboarding/reconcile.go:100-120 | key by key: size, egress and Argo CD labels first, then the settings, then the entry's labels, then the onboarding labels |
| Reconcile.ResolveNamespaceSpec | internal/onboarding/tshirt_merge.go:30-73 | the inline blocks without a size, the resolution onto the stored size with one, an error exactly for a size that is not there |
| Reconcile.ReconcileResourceQuota | internal/onboarding/reconcile_quota.go:34-66 | exactly the compiled hard limits are stored; a text that does not parse panics before any write |
| Reconcile.ReconcileLimitRange | internal/onboarding/reconcile_quota.go:114-146 | the same for limit items |
| Reconcile.ReconcileDefaultNetworkPolicies | internal/onboarding/reconcile_netpol.go:33-61 | every enabled default policy is stored with its specification |
| Reconcile.ReconcileCustomNetworkPolicies | internal/onboarding/reconcile_netpol.go:185-216 | every active custom policy is stored, in order |
| Reconcile.ReconcileLocalAdmins | internal/onboarding/reconcile.go:67-74 | group and role binding are stored when the toggle is on; where no call fails, success has its exact condition |
| Reconcile.ReconcileEgressIP | internal/onboarding/reconcile_openshift.go:132-191 | the EgressIP lists exactly the given addresses; an empty list is an error without a write; where no call fails, success has its exact condition |
| Reconcile.ReconcileArgoCDProjects | internal/onboarding/argocd.go:36-55 | every enabled project is stored in the entry's Argo CD namespace; without such a namespace it is an error without a write; where no call fails, success has its exact condition |
| Reconcile.DesiredNetworkPolicyNames | internal/onboarding/prune.go:125-136 | exactly the names of the policies that the same run writes |
| Reconcile.EnabledProjectNames | internal/onboarding/argocd.go:266-274 | exactly the names of the projects that the same run writes |
| Reconcile.PruneNamespaceResources | internal/onboarding/prune.go:76-123 | exactly the managed objects that are no longer wanted are gone |
| Reconcile.WriteSizes | internal/onboarding/reconcile.go:47-57 | quota and limit range in force are stored; without an error all their texts are quantities, and only a text that is none makes it panic |
| Reconcile.WriteTenant | internal/onboarding/reconcile.go:47-84 | all writes of the stages, in their order |
| Reconcile.SoundCompiles | internal/onboarding/tshirt_merge.go:30-73 | an admitted entry and an admitted catalogue without blank or padded texts resolve to blocks whose every text parses |
| Reconcile.ReconcileNamespace | internal/onboarding/reconcile.go:33-91 | only steps the run is entitled to under any interference; a panic only if the entry, or the catalogue at some moment, is not sound; undisturbed and without an error exactly the reconciled store, and an unknown size changes nothing; undisturbed and where no call fails it succeeds exactly when the size is known, all texts parse, nothing it writes has another controller, and the APIs, addresses and Argo CD namespace it needs are there |
| Convergence.ReconciledConverges | internal/onboarding/reconcile.go:33-91 | from any store: the wanted content under every key the entry concerns, nothing of the project's where none is wanted, the last writer winning on a name clash |
| Convergence.ReconciledAt | internal/onboarding/prune.go:76-151 | writes and removals together, key by key; the final prune never takes away what the same run wrote |
| Convergence.ReconciledArgoNames | internal/onboarding/argocd.go:266-299 | AppProjects labelled for the tenant carry exactly the enabled names, for entry names without underscore |
| Convergence.ReconciledTwice | internal/onboarding/reconcile.go:33-164 | a second reconciliation changes nothing in the whole store |
| Convergence.AdoptTwice | internal/onboarding/reconcile.go:144-163 | patching the tenant namespace again changes nothing |
| Convergence.TenantObjectTwice | internal/onboarding/owners.go:50-58 | writing a tenant object again only replaces its content |
| Convergence.LastSpecConcat | internal/onboarding/reconcile.go:59-65 | custom policies are written after the default ones and win on a name clash |
| Order.PassInAnyOrder | internal/controller/projectonboarding_controller.go:137-177 | every permutation of the entries leaves the same namespaces, policies, quotas, limit ranges, role bindings and EgressIPs |
| Order.PassAt | internal/controller/projectonboarding_controller.go:137-177 | on the tenant of one of its entries the pass does what that entry alone does |
| Order.PassElsewhere | internal/controller/projectonboarding_controller.go:137-177 | the pass leaves every tenant that no entry names alone |
| Order.StepElsewhere | internal/onboarding/reconcile.go:33-91 | an entry, active, frozen or offboarded, changes nothing in another tenant |
| Order.StepDetermined | internal/onboarding/reconcile.go:33-91 | what an entry does to its tenant depends on nothing outside that tenant and the catalogue |
| Order.PruneThenPass | internal/controller/projectonboarding_controller.go:123-177 | the prune at the start of a run is only a head start: prune and pass together do to every tenant what its entry asks for and leave all others alone |
| Order.PassEasier | internal/controller/projectonboarding_controller.go:137-177 | working on some entries takes nothing from the others: sizes and APIs stay, and no name or key is refused afterwards that was not before |
| Outcomes.NamespaceConverges | internal/onboarding/reconcile.go:93-164 | from any store, the tenant namespace carries the size, egress, Argo CD, monitoring and pod-security labels that the fields of the entry give, the author's own labels, and everything else that was there |
| Outcomes.InlineQuotaStored | internal/onboarding/reconcile.go:47-51 | without a size, the stored quota has the limits of the entry's block, field by field; none is left if the block is missing or off |
| Outcomes.InlineRangeStored | internal/onboarding/reconcile.go:53-57 | the same for the limit range |
| Outcomes.SizedQuotaStored | internal/onboarding/tshirt_merge.go:43-72 | with a size, the stored quota has the limits of the block that the fields of catalogue and entry give |
| Outcomes.SizedRangeStored | internal/onboarding/tshirt_merge.go:43-72 | the same for the limit range |
| Outcomes.AdminsStored | internal/onboarding/reconcile.go:67-74 | the group holds exactly the given users and the binding gives it the given role, under the given names or the defaults; without the toggle nothing of the project is under those names |
| Outcomes.EgressStored | internal/onboarding/reconcile_openshift.go:132-191 | the EgressIP lists exactly the given addresses for the tenant; without the toggle none is left of the project |
| Outcomes.ProjectStored | internal/onboarding/argocd.go:36-130 | every enabled project, of two with one name the later, is in the Argo CD namespace with its own body, labelled for project and tenant and controlled by the project |
| Outcomes.CleanupSparesOthers | internal/onboarding/cleanup.go:35-75 | a cleanup leaves every object without the project's label as it is |
| Outcomes.ReconciliationSparesOthers | internal/onboarding/prune.go:76-151 | a reconciliation deletes no object without the project's label |
| Outcomes.DisabledProjectsFail | internal/onboarding/argocd.go:36-44 | an entry that lists disabled Argo CD projects only, without a namespace for them, is never reconcilable |
| Controller.ReconcileEntry | internal/controller/projectonboarding_controller.go:140-175 | by the flags as they are written: undisturbed and without an error, `offboard: true` leaves no live managed tenant, `enabled: false` alone changes nothing, any other entry is reconciled, and without `offboard: true` a live managed tenant stays live; where no call fails it succeeds exactly when the entry is offboarded, frozen or reconcilable |
| Controller.ReconcileEntries | internal/controller/projectonboarding_controller.go:134-177 | one line per entry in order, later entries processed whatever happened to earlier ones, the first error reported; only a panic ends the loop, and only unsound sizes cause one; undisturbed and error-free the whole pass has happened; undisturbed and where no call fails every entry succeeds if each active one is reconcilable at the start |
| Controller.FirstErrorIsFirst | internal/controller/projectonboarding_controller.go:146-148 | the error reported is that of the first entry that failed |
| Controller.AllWell | internal/controller/projectonboarding_controller.go:134-148 | there is no first error exactly when every entry went well |
| Controller.LinesMeaning | internal/controller/projectonboarding_controller.go:138-176 | each line belongs to the entry at its place and to that entry's result |
| Controller.BuildStatus | internal/controller/projectonboarding_controller.go:129-190 | phase and Ready condition agree with the lines, other conditions are kept |
| Controller.ReportResults | internal/controller/projectonboarding_controller.go:179-196 | the stored status is Ready exactly when every entry went well |
| Controller.UpdateStatus | internal/controller/projectonboarding_controller.go:190-196 | the status is stored as built on the project that was read; if that changed, the write is a conflict and the run has written nothing |
| Controller.EnsureFinalizer | internal/onboarding/reconcile.go:167-173 | without an error the project has its finalizer before anything else happens |
| Controller.RemoveFinalizer | internal/onboarding/reconcile.go:176-182 | may be called only when nothing live is left; then the project goes, or it changed since it was read and the run has written nothing |
| Controller.NothingLiveIsReleased | internal/onboarding/deletion.go:69-73 | no live labelled namespace means no live controlled one either, so that nothing is collected with the project |
| Controller.ReportBlocked | internal/controller/projectonboarding_controller.go:84-98 | the stored status says that the deletion is blocked and names the pending namespaces |
| Controller.TruncateStatusMessage | internal/onboarding/helpers.go:123-131 | at most the length the resource definition allows, and the message itself when it fits |
| Controller.ReconcileDeleted | internal/controller/projectonboarding_controller.go:78-105 | undisturbed, the run is blocked only by a live managed namespace that no entry marks for offboarding; a project that goes had none, and leaves none live and nothing of its entries; where no call fails, the project goes exactly when there is none, and otherwise a stored condition names them |
| Controller.ReconcileActive | internal/controller/projectonboarding_controller.go:107-205 | a run that is done has stored a Ready status with a line for each entry; one that fails over its entries has stored their lines and ends with the error of the first that failed; undisturbed and error-free, each tenant is as its entry asks and tenants no entry names are as before; undisturbed and where no call fails, it is done whenever each active entry is reconcilable at the start; a paused project is left alone |
| Controller.ReconcileProject | internal/controller/projectonboarding_controller.go:67-205 | one run, under any interference and failure, extends a legal history by legal steps, with the outcomes above for deleted and other projects |
| Controller.ReportPending | internal/controller/projectonboarding_controller.go:84-98 | undisturbed and where no call fails, the stored condition says that the deletion is blocked and by what; a conflict is left to the next run |
| Controller.LetGo | internal/controller/projectonboarding_controller.go:99-105 | only with nothing live left; undisturbed and where no call fails, the project goes |
| Controller.LineTexts | internal/controller/projectonboarding_controller.go:138-176 | the line of an entry by its flags as they are written: its name, ready exactly without an error, and the three texts |
| Controller.MessageNames | internal/controller/projectonboarding_controller.go:84-98 | the blocked message names every pending namespace |
| Status.SetCondition | internal/onboarding/helpers.go:133-154 | the type is present with the new content, with its old time when the content is unchanged; every other type reads as before; types stay unique |
| Quantities.NormalizePointwise | internal/onboarding/helpers.go:61-63 | the left-to-right replacement equals a pointwise description and keeps the length |
| Quantities.TrimMeaning | internal/validation/quantity.go:34-38 | trimming takes white space off both ends, and all of it |
| Quantities.NormalizeRewrites | internal/validation/quantity.go:30-32 | what each of the four spellings becomes, in place |
| Quantities.NormalizeLeavesNoMisspelling | internal/validation/quantity.go:30-32 | none of the four spellings survives, so a second pass changes nothing |
| Quantities.NormalizeKeepsLetters | internal/validation/quantity.go:30-32 | every letter is kept up to case and every other character as it is |
| Quantities.NormalizeKeepsQuantities | internal/onboarding/helpers.go:61-63 | the identity on every string of the Kubernetes quantity grammar |
| Quantities.QuantitySuffixes | internal/validation/quantity.go:34-58 | digits and a suffix are a quantity exactly for the suffixes of the Kubernetes grammar |
| Quantities.QuantitiesAreTrimmed | internal/onboarding/reconcile_quota.go:70-75 | a text that parses after normalisation is neither blank nor padded |
| Quantities.AcceptedCpuParses | internal/validation/quantity.go:34-43 | an admitted CPU quantity parses exactly when it is trimmed and not blank |
| Quantities.AcceptedBytesParse | internal/validation/quantity.go:45-58 | the same for byte quantities, after normalisation |
| Quantities.AcceptedStorageClassParses | internal/validation/quantity.go:60-84 | the same for storage-class values |
| Quantities.BytesNeedUnit | internal/validation/quantity.go:45-58 | a byte quantity is admitted exactly when it is blank or, normalised, a quantity with a unit or a sign |
| Quantities.StorageClassMeaning | internal/validation/quantity.go:60-84 | a plain number is admitted exactly as a count, by the key; any other value exactly when it is a quantity |
| Quantities.DecimalDenotes | internal/onboarding/reconcile_quota.go:76-81 | counts are written as the decimal digits of their value, with a minus sign when negative |
| Quantities.CountsParse | internal/onboarding/reconcile_quota.go:76-81 | a count in decimal always parses |
| Sizing.StorageClassQuotasToMap | internal/onboarding/helpers.go:65-74 | the map the list stands for: empty keys skipped, the last entry of a key wins |
| Sizing.StorageClassQuotasFromMap | internal/onboarding/helpers.go:76-85 | in whatever order the keys come, a duplicate-free list that stands for the map |
| Sizing.ClassMapIsLast | internal/onboarding/helpers.go:65-74 | under each key the value of the last item with that key that counts, and nothing for other keys |
| Sizing.RequestedNames | internal/onboarding/reconcile_quota.go:105-110 | a storage-class key spelt like a requested resource is that resource |
| Sizing.CountedNames | internal/onboarding/reconcile_quota.go:105-110 | a storage-class key spelt like a counted resource is that resource |
| Sizing.MeasuredNames | internal/onboarding/reconcile_quota.go:105-110 | a storage-class key spelt like a measured resource is that resource |
| Sizing.EnsureQuotaEnabled | internal/onboarding/tshirt_merge.go:108-117 | an unset flag becomes true, nothing else changes |
| Sizing.EnsureLimitRangeEnabled | internal/onboarding/tshirt_merge.go:119-128 | the same for limit ranges |
| Sizing.MergeResourceQuotaLimits | internal/onboarding/tshirt_merge.go:192-216 | field by field the override's text, else the base's |
| Sizing.MergeResourceQuotaRequests | internal/onboarding/tshirt_merge.go:218-245 | the same for requests |
| Sizing.MergeStorageClasses | internal/onboarding/tshirt_merge.go:160-169 | right-biased map override, with every item from one of the two lists |
| Sizing.MergeResourceQuotaSpec | internal/onboarding/tshirt_merge.go:130-190 | the merge denotes right-biased override of finite maps with the flag on by default: each field the override's, else the base's |
| Sizing.MergeResourceAmount | internal/onboarding/tshirt_merge.go:343-364 | field by field the override's text, else the base's |
| Sizing.MergeLimitRangePod | internal/onboarding/tshirt_merge.go:270-287 | bound by bound and resource by resource the override's text, else the base's |
| Sizing.MergeLimitRangeContainer | internal/onboarding/tshirt_merge.go:289-308 | the same for containers |
| Sizing.MergeLimitRangePVC | internal/onboarding/tshirt_merge.go:310-341 | the same for claims |
| Sizing.MergeLimitRangeSpec | internal/onboarding/tshirt_merge.go:247-268 | the same for the whole limit range, with the flag on by default |
| Sizing.OverrideIdempotent | internal/onboarding/tshirt_merge.go:130-190 | merging the same override again changes nothing |
| Sizing.OverrideAssociativity | internal/onboarding/tshirt_merge.go:130-190 | the merge is associative exactly unless the first block is disabled and later blocks, at least one of them present, leave the flag unset |
| Sizing.GroupingMatters | internal/onboarding/tshirt_merge.go:130-190 | a disabled block under two empty ones: off in one grouping, on in the other |
| Sizing.BuildResourceQuotaHard | internal/onboarding/reconcile_quota.go:68-112 | succeeds exactly when every text parses, and gives the hard limits field by field: each built-in resource the count or normalised text of its own field, CPU as written, each storage-class key the last value given for it, whatever the order |
| Sizing.MergeThenCompile | internal/onboarding/reconcile_quota.go:68-112 | the hard limits of a merged quota are the base's overridden by the override's exactly when no override text blanks a base limit and no storage-class key of the base shadows an overridden built-in |
| Sizing.MergeThenCompileUsually | internal/onboarding/tshirt_merge.go:130-190 | in particular when no override text is blank and storage-class keys avoid the built-in names |
| Sizing.BlankOverrideRemoves | internal/onboarding/reconcile_quota.go:70-75 | a blank override text takes the catalogue's CPU limit away |
| Sizing.ClassShadowsOverride | internal/onboarding/reconcile_quota.go:105-110 | a storage-class entry spelt "cpu" in the catalogue wins over the override's CPU limit |
| Sizing.BuildBound | internal/onboarding/reconcile_quota.go:186-201 | one bound of one item, CPU as written and the rest normalised |
| Sizing.BuildLimitRangeItems | internal/onboarding/reconcile_quota.go:148-184 | succeeds exactly when every text parses, and gives one item per kind present, in order, each bound of each item from the field of that name |
| Sizing.MergeThenCompileLimits | internal/onboarding/reconcile_quota.go:148-201 | the items of a merged limit range are, kind by kind and bound by bound, the base's overridden by the override's |
| Validation.AdmittedQuotaCompiles | internal/validation/quantity.go:159-191 | an admitted quota compiles exactly when the texts that reach the parser are trimmed and not blank |
| Validation.AdmittedLimitsCompile | internal/validation/quantity.go:193-228 | the same for limit ranges |
| Validation.AdmittedExactly | internal/validation/quantity.go:159-191 | a quota is admitted exactly when each field's text and each storage-class value is |
| Validation.SizingExactly | internal/validation/validate.go:180-205 | usable is a block that is not switched off and sets anything at all |
| Validation.AdmittedButPanics | internal/onboarding/reconcile_quota.go:105-110 | a blank storage-class value and a padded memory quota are admitted and do not compile |
| Resolution.ResolveOnto | internal/onboarding/tshirt_merge.go:43-72 | each block is absent, the catalogue's, or the merged one, by the entry's flags; with overwriteTshirt each field is the entry's, else the catalogue's |
| Resolution.ResolvedQuotaCompiles | internal/onboarding/tshirt_merge.go:30-73 | catalogue and entry admitted separately: the resolved quota compiles exactly when it is trimmed, and always when both sides are |
| Resolution.ResolvedLimitsCompile | internal/onboarding/tshirt_merge.go:30-73 | the same for limit ranges |
| Resolution.MergedLimitItems | internal/onboarding/reconcile_quota.go:148-184 | merge then compile equals compile then override, for the whole item list |
| Resolution.InlineValuesIgnored | docs/project-size.md:29-31 | without overwriteTshirt each inline block counts only through its own enabled flag |
| Resolution.BlocksAreIndependent | internal/onboarding/tshirt_merge.go:48-71 | with or without overwriteTshirt, the quota does not depend on the limit block, nor the limit range on the quota block |
| Resolution.InForceWhenWanted | internal/onboarding/tshirt_merge.go:75-99 | with overwriteTshirt a block is in force exactly when it is switched on inline |
| Admission.ValidateUniqueNamespaceNames | internal/validation/validate.go:138-151 | accepts exactly the lists without repeated trimmed names, blank ones aside |
| Admission.ValidateProjectOnboarding | internal/validation/validate.go:41-77 | accepts exactly when names are unique, Argo CD namespaces are given where needed, blocks are admissible and sizes exist with sizing |
| Admission.GitOpsPresentExactly | internal/validation/validate.go:57-77 | an entry passes exactly when it is switched off, no project of it is enabled, or its own or the project's Argo CD namespace is not blank |
| Admission.ValidateGitOpsRequirements | internal/validation/validate.go:57-77 | accepts exactly when every entry with an enabled project has an Argo CD namespace |
| Admission.ValidateNamespaceSpec | internal/validation/validate.go:153-177 | accepts exactly when the blocks are admissible and the size, if any, exists with sizing |
| Admission.ValidateTShirtSize | internal/validation/validate.go:90-104 | accepts exactly when there is sizing and the blocks are admissible |
| Admission.CountProjectOnboardingReferences | internal/validation/validate.go:122-136 | exactly the number of entries that name the size |
| Admission.Registry.ApplyProject | internal/validation/validate.go:41-55 | stores the project exactly when it is admitted |
| Admission.Registry.RemoveProject | internal/validation/validate.go:41-55 | projects can always go |
| Admission.Registry.ApplySize | internal/validation/validate.go:90-104 | stores the size exactly when it has sizing and admissible blocks |
| Admission.Registry.RemoveSize | internal/validation/validate.go:106-115 | removes the size exactly when no entry names it |
| Admission.ReferencesStayGood | internal/validation/validate.go:153-177 | over every sequence of requests each reference names a size that exists and has sizing, so resolving never ends in "not found" |
| Admission.FindProjectOnboardingsForTShirtSize | internal/controller/tshirt_watch.go:28-49 | exactly the projects that name the size, each once |
| Admission.SizesOfProject | internal/controller/tshirtsize_watch.go:28-51 | exactly the sizes that the project names, each once: the converse relation |
| Admission.CountBoundsRequests | internal/validation/validate.go:121-136 | the reference count is positive exactly when some project is enqueued, and never smaller than their number |
| Policies.DefaultNetworkPolicies | internal/onboarding/reconcile_netpol.go:63-183 | the policies of the enabled toggles, in order |
| Policies.DefaultIngressVerdict | internal/onboarding/reconcile_netpol.go:63-183 | for every peer and port: ingress is open without an ingress toggle, otherwise exactly what an enabled allow toggle admits |
| Policies.DefaultEgressVerdict | internal/onboarding/reconcile_netpol.go:104-158 | egress is open without an egress toggle, otherwise exactly DNS when that is enabled |
| Policies.BuildPeers | internal/onboarding/reconcile_netpol.go:256-275 | peers are carried over unchanged |
| Policies.BuildCustomNetworkPolicy | internal/onboarding/reconcile_netpol.go:218-254 | the policy selects exactly the pods the given selector selects, all without one; rules are carried over unchanged, and a direction is a policy type exactly when it has rules |
| Policies.CustomWithoutIngressRules | internal/onboarding/reconcile_netpol.go:218-254 | storing a custom policy without ingress rules changes an ingress verdict exactly in two cases: it replaces the only policy that isolated the pod, or it takes away the only admission or closes a pod nothing else isolated; with egress rules both need a stored policy of its name that selects the pod for ingress |
| Policies.CustomOnIsolatedPod | internal/onboarding/reconcile_netpol.go:218-254 | on a pod that another policy isolates, a custom policy adds what its own rules permit and takes away what a stored policy of its name permitted |
| Policies.CustomVerdict | internal/onboarding/reconcile_netpol.go:218-254 | a custom policy isolates exactly the pods it is for, in the directions it has rules for, for ingress when it has none; it permits exactly what one of its rules matches |
| Policies.UnselectedPod | internal/onboarding/reconcile_netpol.go:218-254 | stored under a free name, a custom policy changes no verdict of a pod its selector does not select |
| Policies.StoredVerdict | internal/onboarding/reconcile_netpol.go:33-61 | a list of policies without a repeated name gives, once stored by name, the verdicts of the list |
| Policies.DefaultNames | internal/onboarding/reconcile_netpol.go:70-180 | the default policies have seven different names, for every choice of toggles |
| Verdicts.PoliciesLeftAreDesired | internal/onboarding/prune.go:125-152 | from any store, the project's policies in the tenant are exactly the desired ones, of two with the same name the later |
| Verdicts.StoredIngressVerdict | internal/onboarding/reconcile_netpol.go:63-183 | for every peer and port, what the reconciled store admits: ingress is open without an ingress toggle, otherwise exactly what an enabled allow toggle admits, beside custom policies with egress rules only and names of their own |
| Verdicts.StoredEgressVerdict | internal/onboarding/reconcile_netpol.go:104-158 | egress in the reconciled store is open without an egress toggle, otherwise exactly DNS when that is enabled, beside custom policies without egress rules and with names of their own |
| Verdicts.StoredWithCustom | internal/onboarding/reconcile_netpol.go:185-216 | where a custom policy stands in the list matters only for policies of its own name |
| Verdicts.AddedEgressPolicy | internal/onboarding/reconcile_netpol.go:185-254 | adding an active custom policy without ingress rules, anywhere in the list, changes an ingress verdict of the reconciled store exactly when no later policy has its name and one of the two cases applies; with egress rules and a name of its own it changes none |
| Verdicts.AddedPolicyElsewhere | internal/onboarding/reconcile_netpol.go:185-254 | adding an active custom policy with a name of its own to an entry changes no verdict, in the reconciled store, of a pod it is not for |
| Verdicts.InactivePolicyIgnored | internal/onboarding/reconcile_netpol.go:185-216 | an inactive custom policy leaves the stored policies as they are without it |
| Verdicts.NamesakeOpensIngress | internal/onboarding/reconcile_netpol.go:160-170 | with all ingress denied by default, a custom policy named like that default with one egress rule opens ingress to every peer |
| Api.ActiveTenantCount | internal/onboarding/helpers.go:44-52 | exactly the number of entries that say neither `offboard: true` nor `enabled: false` |
| Api.AdminNames | internal/onboarding/helpers.go:100-119 | group, binding and role: the given names, or the defaults of the tenant |
| Api.GitOpsPrecedence | internal/onboarding/argocd.go:250-260 | the entry's Argo CD namespace comes before the project's, blank ones not counting |
| Common.FlagDefaults | internal/onboarding/helpers.go:26-36 | what an unset flag means, for flags that default to on and for flags that default to off |
| Api.ApplyAdditionalSettingsLabels | internal/onboarding/namespace_settings.go:29-53 | key by key: pod-security and monitoring settings first, then the last custom label of that key, then the label that was there |
| Api.SettingsPrecedence | internal/onboarding/namespace_settings.go:29-53 | the successive writes leave under every key what that order of precedence gives |
| Api.CustomLabelIsLast | internal/onboarding/namespace_settings.go:35-40 | the last custom label of a key counts, and one with an empty key never |
| Api.LabelPrecedence | internal/onboarding/reconcile.go:100-120 | the labels of the tenant namespace, key by key, in the order of precedence |
| Api.DesiredLabelsManaged | internal/onboarding/reconcile.go:100-108 | the namespace is labelled for its project exactly when the user labels leave the onboarding keys alone |

## Left out

Assumptions about the cluster:

- Reads are linearizable and runs of one project are serial, a run that breaks off counting until the next one begins; informer caches, leader election and the manager are not modelled.
- One get together with the write it leads to is one moment; others act between such moments, and between a list and each of its deletes.
- `SetControllerReference` fails when another controller is set, controllers being compared by uid; a library that compares kind and name would let a project that is created anew under its old name take over a terminating namespace of its predecessor, and no live one.
- `SetOwnerReference` adds the namespace, `ParseQuantity` accepts exactly the documented quantity grammar; that is all the model assumes of these library functions.
- Users neither relabel tenant namespaces nor put a project label on their own ones; user labels leave the onboarding keys alone; entries have distinct tenant names.
- Deletes of objects inside a namespace are immediate; only namespaces and projects pass through a terminating state. Objects are collected with their namespace, not by owner references of their own.
- Namespace names hold no underscore, as the API server enforces; label keys and built-in resource names are distinct constants.

What the model does not cover:

- Reading the cluster defaults and their precedence: the project's `gitOps` field stands for the merged value. A failed read of the defaults ends a run like any other failure.
- AppProject descriptions, roles, sources and destinations, with their Casbin policy text, are one opaque body.
- Events, logs, metrics, requeue delays, error message texts, observed generation.
- Pause is a flag of the project; the annotation it is read from is not modelled.
- The webhook adapters and the check that a size's name is a DNS-1123 subdomain.
- Setup of the watches and the mapping from changed objects back to their project.
- A panic of the quantity parser ends the loop over the entries and the run; recovery by the library is not modelled.
- Strings are sequences of code points; lower-casing of storage-class keys covers ASCII only.
- Quantities are compared as normalised text, so that limits written differently count as different.
- The field writes of the quota builder are a loop over a table in the builder's order, and the per-kind copies of get, create or patch and of get, check, delete are one method each.
- Roles referenced by existing role bindings: the model replaces them, the API server refuses to.
- Ports of custom policies are numbers, without ranges; they and pod selectors are carried over by value.

Deliberately weaker than one might expect:

- Reconcile.ReconcileOwnedObject: claims nothing about labels of a Group or EgressIP that existed before, because the code writes them into a copy that the library discards; cleanup and prune therefore skip such objects.
- Cleanup.CleanupNamespace: leaves EgressIP and Group alone when their toggles are off, as the code does, and role bindings and groups under names used earlier.
- Convergence.ReconciledArgoNames: AppProjects are kept by name only, as in the code, so one of an enabled name in another Argo CD namespace stays; the claim needs an entry name without underscore, which the resource definition enforces, because the target label is written unsanitised.
- Lifecycle.ForeignTenantUntouched: has two exceptions that the code does not prevent, a write after the adopted namespace went away and a delete of a policy relabelled after the list; IntrusionExactly shows that there are no others.
- Order.PassInAnyOrder: Groups and AppProjects are not included, since two entries may share a group name or a project name.
- Controller.ReconcileActive: the exact effect is stated for undisturbed runs without errors; for other runs the contract is that every step is one the run is entitled to, and what status it leaves.
- Lifecycle.IntrusionExactly: speaks of what the run in progress is entitled to; how far the run has come in its code is not part of the history.
