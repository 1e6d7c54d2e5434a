/** What an entry, as its author writes it, leads to in the store, from whatever was there before. */
module Outcomes {
  import opened Common
  import opened Quantities
  import opened Sizing
  import opened Api
  import opened Resolution
  import opened Cluster
  import opened Cleanup
  import opened Reconcile
  import opened Convergence

  // ---------------------------------------------------------------- the namespace

  /** Size, egress and Argo CD labels. */
  predicate PlacementLabels(labels: Labels, q: Project, e: Entry) {
    && (e.projectSize != "" ==> Lookup(labels, NamespaceSize) == Some(e.projectSize))
    && (e.egressIPs.Some? && IsOptInEnabled(e.egressIPs.value.enabled) ==>
          Lookup(labels, Env) == Some(Sanitize(e.name)))
    && (Trim(e.applicationGitOpsNamespace) != "" ==>
          Lookup(labels, ArgoManagedBy) == Some(Trim(e.applicationGitOpsNamespace)))
    && (Trim(e.applicationGitOpsNamespace) == "" && Trim(q.gitOps) != "" ==>
          Lookup(labels, ArgoManagedBy) == Some(Trim(q.gitOps)))
  }

  /** Monitoring is on unless switched off; pod-security levels are set where given. */
  predicate SecurityLabels(labels: Labels, settings: Option<AdditionalSettings>) {
    if settings.None? then Lookup(labels, UserMonitoring) == Some("true")
    else
      var given := settings.value;
      && Lookup(labels, UserMonitoring) == Some(if IsEnabled(given.enableClusterMonitoring) then "true" else "false")
      && (given.podSecurityAudit != "" ==> Lookup(labels, PodSecurityAudit) == Some(given.podSecurityAudit))
      && (given.podSecurityWarn != "" ==> Lookup(labels, PodSecurityWarn) == Some(given.podSecurityWarn))
      && (given.podSecurityEnforce != "" ==> Lookup(labels, PodSecurityEnforce) == Some(given.podSecurityEnforce))
  }

  /** No custom label has this key. */
  predicate NoCustomLabel(settings: Option<AdditionalSettings>, key: LabelKey) {
    settings.None? ||
      forall i | 0 <= i < |settings.value.additionalLabels| :: settings.value.additionalLabels[i].key != key
  }

  /** The labels of the author's own choice. */
  ghost predicate OwnLabels(labels: Labels, e: Entry) {
    && (e.additionalSettings.Some? ==>
          var custom := e.additionalSettings.value.additionalLabels;
          forall i | 0 <= i < |custom| && IsLastLabel(custom, i, custom[i].key) && custom[i].key.OtherLabel? ::
            Lookup(labels, custom[i].key) == Some(custom[i].value))
    && (forall key | key in e.labels && key.OtherLabel? && NoCustomLabel(e.additionalSettings, key) ::
          Lookup(labels, key) == Some(e.labels[key]))
  }

  /** The onboarding labels, where the author chooses no others. */
  predicate OnboardingLabels(labels: Labels, q: Project, e: Entry) {
    && (ManagedBy !in e.labels && NoCustomLabel(e.additionalSettings, ManagedBy) ==>
          Lookup(labels, ManagedBy) == Some("project-onboarding-operator"))
    && (ProjectLabel !in e.labels && NoCustomLabel(e.additionalSettings, ProjectLabel) ==>
          Lookup(labels, ProjectLabel) == Some(q.name))
    && (TargetNamespace !in e.labels && NoCustomLabel(e.additionalSettings, TargetNamespace) ==>
          Lookup(labels, TargetNamespace) == Some(e.name))
  }

  lemma NoCustomLookup(settings: Option<AdditionalSettings>, key: LabelKey)
    requires settings.Some? && NoCustomLabel(settings, key)
    ensures Lookup(CustomLabels(settings.value.additionalLabels), key) == None
  {
    CustomLabelIsLast(settings.value.additionalLabels, key);
  }

  lemma PlacementShape(before: Option<Namespace>, after: Namespace, q: Project, e: Entry)
    requires IsAdopted(before, after, q, e)
    ensures PlacementLabels(after.labels, q, e)
  {
    var gitOps := GitOpsNamespace(q.gitOps, e);
    GitOpsPrecedence(q.gitOps, e);
    assert e.projectSize != "" ==> DesiredLabel(q.name, gitOps, e, NamespaceSize) == Some(e.projectSize);
    assert Lookup(after.labels, NamespaceSize) == OrElse(DesiredLabel(q.name, gitOps, e, NamespaceSize),
      if before.Some? then Lookup(before.value.labels, NamespaceSize) else None);
    assert Lookup(after.labels, Env) == OrElse(DesiredLabel(q.name, gitOps, e, Env),
      if before.Some? then Lookup(before.value.labels, Env) else None);
    assert Lookup(after.labels, ArgoManagedBy) == OrElse(DesiredLabel(q.name, gitOps, e, ArgoManagedBy),
      if before.Some? then Lookup(before.value.labels, ArgoManagedBy) else None);
  }

  lemma SecurityShape(before: Option<Namespace>, after: Namespace, q: Project, e: Entry)
    requires IsAdopted(before, after, q, e)
    ensures SecurityLabels(after.labels, e.additionalSettings)
  {
    var gitOps := GitOpsNamespace(q.gitOps, e);
    assert DesiredLabel(q.name, gitOps, e, UserMonitoring).Some?;
    assert Lookup(after.labels, UserMonitoring) == DesiredLabel(q.name, gitOps, e, UserMonitoring);
    assert DesiredLabel(q.name, gitOps, e, PodSecurityAudit).Some? ==>
      Lookup(after.labels, PodSecurityAudit) == DesiredLabel(q.name, gitOps, e, PodSecurityAudit);
    assert DesiredLabel(q.name, gitOps, e, PodSecurityWarn).Some? ==>
      Lookup(after.labels, PodSecurityWarn) == DesiredLabel(q.name, gitOps, e, PodSecurityWarn);
    assert DesiredLabel(q.name, gitOps, e, PodSecurityEnforce).Some? ==>
      Lookup(after.labels, PodSecurityEnforce) == DesiredLabel(q.name, gitOps, e, PodSecurityEnforce);
  }

  lemma OwnShape(before: Option<Namespace>, after: Namespace, q: Project, e: Entry)
    requires IsAdopted(before, after, q, e)
    ensures OwnLabels(after.labels, e)
  {
    var gitOps := GitOpsNamespace(q.gitOps, e);
    if e.additionalSettings.Some? {
      var custom := e.additionalSettings.value.additionalLabels;
      forall i | 0 <= i < |custom| && IsLastLabel(custom, i, custom[i].key) && custom[i].key.OtherLabel?
        ensures Lookup(after.labels, custom[i].key) == Some(custom[i].value)
      {
        CustomLabelIsLast(custom, custom[i].key);
        assert DesiredLabel(q.name, gitOps, e, custom[i].key) == Some(custom[i].value);
      }
    }
    forall key | key in e.labels && key.OtherLabel? && NoCustomLabel(e.additionalSettings, key)
      ensures Lookup(after.labels, key) == Some(e.labels[key])
    {
      if e.additionalSettings.Some? { NoCustomLookup(e.additionalSettings, key); }
      assert DesiredLabel(q.name, gitOps, e, key) == Some(e.labels[key]);
    }
  }

  lemma OnboardingShape(before: Option<Namespace>, after: Namespace, q: Project, e: Entry)
    requires IsAdopted(before, after, q, e)
    ensures OnboardingLabels(after.labels, q, e)
  {
    var gitOps := GitOpsNamespace(q.gitOps, e);
    forall key | key in {ManagedBy, ProjectLabel, TargetNamespace} && key !in e.labels
        && NoCustomLabel(e.additionalSettings, key)
      ensures Lookup(after.labels, key) == Lookup(ManagedLabels(q.name, e), key)
    {
      if e.additionalSettings.Some? { NoCustomLookup(e.additionalSettings, key); }
      assert DesiredLabel(q.name, gitOps, e, key) == Lookup(ManagedLabels(q.name, e), key);
    }
  }

  /** The tenant namespace after a reconciliation: the labels the entry asks for, key by key, over those that were
      there; the same for annotations; the project as controller; incarnation and terminating mark as before. */
  lemma NamespaceConverges(s: Store, q: Project, e: Entry)
    requires SizeKnown(s.sizes, e)
    ensures Sanitize(e.name) in Reconciled(s, q, e).namespaces && AdoptedIn(s, Reconciled(s, q, e), q, e)
    ensures var labels := Reconciled(s, q, e).namespaces[Sanitize(e.name)].labels;
      && PlacementLabels(labels, q, e) && SecurityLabels(labels, e.additionalSettings)
      && OwnLabels(labels, e) && OnboardingLabels(labels, q, e)
  {
    AdoptionShape(s, q, e);
    var before, after := Lookup(s.namespaces, Tenant(e)), Reconciled(s, q, e).namespaces[Tenant(e)];
    assert after == AdoptedTenant(s, q, e).namespaces[Tenant(e)];
    PlacementShape(before, after, q, e);
    SecurityShape(before, after, q, e);
    OwnShape(before, after, q, e);
    OnboardingShape(before, after, q, e);
  }

  // ---------------------------------------------------------------- quota and limit range

  /** The tenant's quota holds the limits of `block`. */
  ghost predicate QuotaStored(t: Store, n: string, block: ResourceQuotaSpec) {
    var o := Lookup(t.objects, Key(ResourceQuotas, n, n + "-quota"));
    o.Some? && o.value.content.Quota? && HardByField(block, o.value.content.hard)
  }

  /** The tenant's limit range holds the items of `block`. */
  predicate RangeStored(t: Store, n: string, block: LimitRangeSpec) {
    var o := Lookup(t.objects, Key(LimitRanges, n, n + "-limitrange"));
    o.Some? && o.value.content.Limits? && ItemsByField(block, o.value.content.items)
  }

  lemma QuotaSettled(s: Store, q: Project, e: Entry)
    requires SizeKnown(s.sizes, e)
    ensures var n, t := Sanitize(e.name), Reconciled(s, q, e);
      && (DesiredHard(s.sizes, e).Some? ==>
            var o := Lookup(t.objects, Key(ResourceQuotas, n, n + "-quota"));
            o.Some? && o.value.content == Quota(DesiredHard(s.sizes, e).value))
      && (DesiredHard(s.sizes, e).None? ==> NoneManaged(t.objects, q.name, Key(ResourceQuotas, n, n + "-quota")))
  {
    ReconciledConverges(s, q, e, QuotaKey(Tenant(e)));
  }

  lemma RangeSettled(s: Store, q: Project, e: Entry)
    requires SizeKnown(s.sizes, e)
    ensures var n, t := Sanitize(e.name), Reconciled(s, q, e);
      && (DesiredItems(s.sizes, e).Some? ==>
            var o := Lookup(t.objects, Key(LimitRanges, n, n + "-limitrange"));
            o.Some? && o.value.content == Limits(DesiredItems(s.sizes, e).value))
      && (DesiredItems(s.sizes, e).None? ==> NoneManaged(t.objects, q.name, Key(LimitRanges, n, n + "-limitrange")))
  {
    ReconciledConverges(s, q, e, LimitKey(Tenant(e)));
  }

  lemma InlineHard(sizes: Catalogue, e: Entry)
    requires e.projectSize == ""
    ensures DesiredHard(sizes, e) ==
      if e.resourceQuotas.Some? && IsEnabled(e.resourceQuotas.value.enabled)
      then Some(Hard(Meaning(e.resourceQuotas.value)))
      else None
  {
  }

  lemma InlineDesiredItems(sizes: Catalogue, e: Entry)
    requires e.projectSize == ""
    ensures DesiredItems(sizes, e) ==
      if e.limitRanges.Some? && IsEnabled(e.limitRanges.value.enabled)
      then Some(OverriddenItems(e.limitRanges.value, EMPTY_LIMITS))
      else None
  {
  }

  /** Without a size the entry's own quota block counts, unless it is missing or switched off. */
  lemma InlineQuotaStored(s: Store, q: Project, e: Entry)
    requires e.projectSize == ""
    ensures var n, t := Sanitize(e.name), Reconciled(s, q, e);
      if e.resourceQuotas.Some? && IsEnabled(e.resourceQuotas.value.enabled)
      then QuotaStored(t, n, e.resourceQuotas.value)
      else NoneManaged(t.objects, q.name, Key(ResourceQuotas, n, n + "-quota"))
  {
    QuotaSettled(s, q, e);
    InlineHard(s.sizes, e);
    if e.resourceQuotas.Some? { HardIsByField(e.resourceQuotas.value); }
  }

  lemma OverriddenByField(spec: LimitRangeSpec, base: LimitRangeSpec, over: LimitRangeSpec)
    requires LimitsOverridden(spec, base, over)
    ensures ItemsByField(spec, OverriddenItems(base, over))
  {
    MergedLimitItems(spec, base, over);
    LimitItemsByField(spec);
  }

  lemma InlineItems(spec: LimitRangeSpec)
    ensures ItemsByField(spec, OverriddenItems(spec, EMPTY_LIMITS))
  {
    NothingOverridden(spec, spec.enabled);
    assert spec.(enabled := spec.enabled) == spec;
    OverriddenByField(spec, spec, EMPTY_LIMITS);
  }

  /** The same for its limit range. */
  lemma InlineRangeStored(s: Store, q: Project, e: Entry)
    requires e.projectSize == ""
    ensures var n, t := Sanitize(e.name), Reconciled(s, q, e);
      if e.limitRanges.Some? && IsEnabled(e.limitRanges.value.enabled) then RangeStored(t, n, e.limitRanges.value)
      else NoneManaged(t.objects, q.name, Key(LimitRanges, n, n + "-limitrange"))
  {
    RangeSettled(s, q, e);
    InlineDesiredItems(s.sizes, e);
    if e.limitRanges.Some? { InlineItems(e.limitRanges.value); }
  }

  lemma SameFields(a: ResourceQuotaSpec, b: ResourceQuotaSpec)
    requires a.(enabled := None) == b.(enabled := None)
    ensures FieldMap(a) == FieldMap(b) && ClassMap(a.storageClasses) == ClassMap(b.storageClasses)
  {
    assert forall r :: QuotaField(a, r) == QuotaField(b, r);
  }

  lemma SameHard(a: QuotaMeaning, b: QuotaMeaning)
    requires a.fields == b.fields && a.classes == b.classes
    ensures Hard(a) == Hard(b)
  {
    forall r
      ensures Lookup(Hard(a), r) == Lookup(Hard(b), r)
    {
      HardLookup(a, r);
      HardLookup(b, r);
    }
    SameLookup(Hard(a), Hard(b));
  }

  lemma MergedFields(m: ResourceQuotaSpec, b: ResourceQuotaSpec, o: ResourceQuotaSpec)
    requires FieldsMerged(m, b, o)
    ensures FieldMap(m) == FieldMap(b) + FieldMap(o)
  {
    forall r
      ensures QuotaField(m, r) == OrElse(QuotaField(o, r), QuotaField(b, r))
    {
      MergedField(m, b, o, r);
    }
    FieldMapOverride(m, b, o);
  }

  /** What a block that the fields of catalogue and entry give means. */
  lemma SizedMeaning(size: TShirtSizeSpec, e: Entry, block: ResourceQuotaSpec)
    requires QuotaByField(size, e, Some(block))
    ensures var sized := SizedQuota(size, QuotaWanted(e), IsOptInEnabled(e.overwriteTshirt), e.resourceQuotas);
      sized.Some? && Hard(sized.value) == Hard(Meaning(block))
  {
    var sized := SizedQuota(size, QuotaWanted(e), IsOptInEnabled(e.overwriteTshirt), e.resourceQuotas);
    if IsOptInEnabled(e.overwriteTshirt) {
      EmptyMeaning();
      MergedFields(block, OrNoQuota(size.resourceQuotas), e.resourceQuotas.value);
      assert sized.value.classes == ClassMap(block.storageClasses);
    } else {
      SameFields(block, size.resourceQuotas.value);
    }
    SameHard(sized.value, Meaning(block));
  }

  /** The quota is in force as the flag of the block says. */
  lemma SizedHard(sizes: Catalogue, e: Entry, block: Option<ResourceQuotaSpec>)
    requires e.projectSize != "" && e.projectSize in sizes
    requires QuotaByField(sizes[e.projectSize], e, block)
    requires block.Some? && !IsOptInEnabled(e.overwriteTshirt) ==>
      block.value.enabled == sizes[e.projectSize].resourceQuotas.value.enabled
    ensures DesiredHard(sizes, e) ==
      if block.Some? && IsEnabled(block.value.enabled) then Some(Hard(Meaning(block.value))) else None
  {
    if block.Some? { SizedMeaning(sizes[e.projectSize], e, block.value); }
  }

  /** With a size, the quota holds the block that `QuotaByField` describes: the catalogue's, or the catalogue's with the
      entry's own fields winning; none unless the entry's block is switched on, or when the catalogue's is off. */
  lemma SizedQuotaStored(s: Store, q: Project, e: Entry, block: Option<ResourceQuotaSpec>)
    requires e.projectSize != "" && e.projectSize in s.sizes
    requires QuotaByField(s.sizes[e.projectSize], e, block)
    requires block.Some? && !IsOptInEnabled(e.overwriteTshirt) ==>
      block.value.enabled == s.sizes[e.projectSize].resourceQuotas.value.enabled
    ensures var n, t := Sanitize(e.name), Reconciled(s, q, e);
      if block.Some? && IsEnabled(block.value.enabled) then QuotaStored(t, n, block.value)
      else NoneManaged(t.objects, q.name, Key(ResourceQuotas, n, n + "-quota"))
  {
    QuotaSettled(s, q, e);
    SizedHard(s.sizes, e, block);
    if block.Some? { HardIsByField(block.value); }
  }

  /** What the items of a block are that the fields of catalogue and entry give. */
  lemma SizedItems(size: TShirtSizeSpec, e: Entry, block: LimitRangeSpec)
    requires RangeByField(size, e, Some(block))
    ensures var pair := LimitSources(size, LimitsWanted(e), IsOptInEnabled(e.overwriteTshirt), e.limitRanges);
      pair.Some? && ItemsByField(block, OverriddenItems(pair.value.base, pair.value.over))
  {
    if IsOptInEnabled(e.overwriteTshirt) {
      OverriddenByField(block, OrNoLimits(size.limitRanges), e.limitRanges.value);
    } else {
      var base := size.limitRanges.value;
      NothingOverridden(base, block.enabled);
      assert base.(enabled := block.enabled) == block;
      OverriddenByField(block, base, EMPTY_LIMITS);
    }
  }

  /** Whether the sources are in force is what the flag of the block says. */
  lemma SizedRangeFlag(size: TShirtSizeSpec, e: Entry, block: LimitRangeSpec)
    requires RangeByField(size, e, Some(block))
    requires !IsOptInEnabled(e.overwriteTshirt) ==> block.enabled == size.limitRanges.value.enabled
    ensures var pair := LimitSources(size, LimitsWanted(e), IsOptInEnabled(e.overwriteTshirt), e.limitRanges);
      pair.Some? && (IsEnabled(pair.value.enabled) <==> IsEnabled(block.enabled))
  {
  }

  /** The same for the limit range. */
  lemma SizedRangeStored(s: Store, q: Project, e: Entry, block: Option<LimitRangeSpec>)
    requires e.projectSize != "" && e.projectSize in s.sizes
    requires RangeByField(s.sizes[e.projectSize], e, block)
    requires block.Some? && !IsOptInEnabled(e.overwriteTshirt) ==>
      block.value.enabled == s.sizes[e.projectSize].limitRanges.value.enabled
    ensures var n, t := Sanitize(e.name), Reconciled(s, q, e);
      if block.Some? && IsEnabled(block.value.enabled) then RangeStored(t, n, block.value)
      else NoneManaged(t.objects, q.name, Key(LimitRanges, n, n + "-limitrange"))
  {
    RangeSettled(s, q, e);
    if block.Some? {
      SizedItems(s.sizes[e.projectSize], e, block.value);
      SizedRangeFlag(s.sizes[e.projectSize], e, block.value);
    }
  }

  // ---------------------------------------------------------------- administrators and egress addresses

  function ContentAt(t: Store, key: Key): Option<Content> {
    if key in t.objects then Some(t.objects[key].content) else None
  }

  /** The group has the users and the role binding gives it the role, under the names given or the default ones; without
      the toggle neither is left of the project. */
  lemma AdminsStored(s: Store, q: Project, e: Entry)
    requires SizeKnown(s.sizes, e) && e.localAdminGroup.Some?
    ensures var n, t, admins := Sanitize(e.name), Reconciled(s, q, e), e.localAdminGroup.value;
      var group := if admins.groupName != "" then Sanitize(admins.groupName) else n + "-admins";
      var binding := if admins.groupName != "" then Sanitize(admins.groupName) else n + "-rb";
      var role := if admins.clusterRole != "" then admins.clusterRole else "admin";
      if IsOptInEnabled(admins.enabled) then
        && ContentAt(t, Key(Groups, "", group)) == Some(Members(admins.users))
        && ContentAt(t, Key(RoleBindings, n, binding)) == Some(Binding(group, role))
      else
        && NoneManaged(t.objects, q.name, Key(Groups, "", group))
        && NoneManaged(t.objects, q.name, Key(RoleBindings, n, binding))
  {
    AdminNames(e);
    ReconciledConverges(s, q, e, GroupKey(e));
    ReconciledConverges(s, q, e, BindingKey(e));
  }

  /** The EgressIP lists exactly the given addresses for the tenant; without the toggle none is left of the project. */
  lemma EgressStored(s: Store, q: Project, e: Entry)
    requires SizeKnown(s.sizes, e)
    ensures var n, t := Sanitize(e.name), Reconciled(s, q, e);
      if e.egressIPs.Some? && IsOptInEnabled(e.egressIPs.value.enabled) then
        ContentAt(t, Key(EgressIPObjects, "", n)) == Some(Addresses(e.egressIPs.value.ips, n))
      else NoneManaged(t.objects, q.name, Key(EgressIPObjects, "", n))
  {
    ReconciledConverges(s, q, e, EgressKey(Tenant(e)));
  }

  // ---------------------------------------------------------------- Argo CD projects

  /** The project at `i` is enabled, and no later one that is has its name. */
  predicate IsLastProject(projects: seq<ArgoProject>, i: nat) {
    && i < |projects| && IsOptInEnabled(projects[i].enabled)
    && forall j | i < j < |projects| && IsOptInEnabled(projects[j].enabled) ::
         Sanitize(projects[j].name) != Sanitize(projects[i].name)
  }

  lemma {:induction false} LastBodyIs(projects: seq<ArgoProject>, i: nat)
    requires IsLastProject(projects, i)
    ensures LastBody(projects, Sanitize(projects[i].name)) == Some(projects[i].body)
  {
    if i < |projects| - 1 { LastBodyIs(projects[..|projects| - 1], i); }
  }

  /** An AppProject with this body, labelled for project and tenant and controlled by the project. */
  predicate IsProjectObject(o: Option<Object>, q: Project, e: Entry, body: string) {
    && o.Some? && o.value.content == ArgoBody(body) && o.value.controller == Some(q.uid)
    && Lookup(o.value.labels, ManagedBy) == Some("project-onboarding-operator")
    && Lookup(o.value.labels, ProjectLabel) == Some(q.name)
    && Lookup(o.value.labels, TargetNamespace) == Some(e.name)
    && Lookup(o.value.labels, ProjectInherit) == Some("global")
  }

  lemma ProjectWritten(o: Option<Object>, q: Project, e: Entry, body: string)
    ensures IsProjectObject(Some(OwnedObject(o, ArgoLabels(q.name, e), q.uid, ArgoBody(body), true)), q, e, body)
  {
  }

  lemma AfterProject(q: Project, e: Entry, tenant: Uid, hard: Option<map<Resource, string>>,
                     items: Option<seq<LimitRangeItem>>, k: Key, o: Option<Object>)
    requires k.kind == AppProjects && k.namespace == GitOpsNamespace(q.gitOps, e)
    requires LastBody(e.argoCDProjects, k.name).Some?
    ensures After(q, e, tenant, hard, items, k, o)
         == Some(OwnedObject(o, ArgoLabels(q.name, e), q.uid, ArgoBody(LastBody(e.argoCDProjects, k.name).value), true))
  {
  }

  /** Every enabled project is in the Argo CD namespace, with its own body; of two with one name the later counts. */
  lemma ProjectStored(s: Store, q: Project, e: Entry, i: nat)
    requires SizeKnown(s.sizes, e) && IsLastProject(e.argoCDProjects, i)
    ensures var p, argo := e.argoCDProjects[i], GitOpsNamespace(q.gitOps, e);
      IsProjectObject(Lookup(Reconciled(s, q, e).objects, Key(AppProjects, argo, Sanitize(p.name))), q, e, p.body)
  {
    var adopted, p := AdoptedTenant(s, q, e), e.argoCDProjects[i];
    var tenant, hard, items := adopted.namespaces[Tenant(e)].uid, DesiredHard(s.sizes, e), DesiredItems(s.sizes, e);
    var key := Key(AppProjects, GitOpsNamespace(q.gitOps, e), Sanitize(p.name));
    LastBodyIs(e.argoCDProjects, i);
    ReconciledAt(adopted.objects, q, e, tenant, hard, items, key);
    AfterProject(q, e, tenant, hard, items, key, Lookup(adopted.objects, key));
    ProjectWritten(Lookup(adopted.objects, key), q, e, p.body);
  }

  // ---------------------------------------------------------------- what is not the project's

  predicate IsForeign(o: Object, project: string) {
    Lookup(o.labels, ProjectLabel) != Some(project)
  }

  lemma InnerSpares(objects: Objects, project: string, e: Entry, k: Key)
    requires k in objects && IsForeign(objects[k], project)
    ensures Lookup(InnerCleaned(objects, project, e), k) == Some(objects[k])
  {
  }

  lemma OuterSpares(objects: Objects, project: string, e: Entry, k: Key)
    requires k in objects && IsForeign(objects[k], project)
    ensures Lookup(OuterCleaned(objects, project, e), k) == Some(objects[k])
  {
  }

  lemma DroppingSparesObjects(s: Store, project: string, n: string)
    ensures NamespaceDropped(s, project, n).objects == s.objects
  {
  }

  /** A cleanup leaves an object that is not labelled for the project as it is. */
  lemma CleanupSparesOthers(s: Store, q: Project, e: Entry, k: Key)
    requires k in s.objects && IsForeign(s.objects[k], q.name)
    ensures Lookup(Cleaned(s, q.name, e).objects, k) == Some(s.objects[k])
  {
    InnerSpares(s.objects, q.name, e, k);
    OuterSpares(InnerCleaned(s.objects, q.name, e), q.name, e, k);
    DroppingSparesObjects(s.(objects := CleanedObjects(s.objects, q.name, e)), q.name, Tenant(e));
  }

  lemma AfterSparesOthers(q: Project, e: Entry, tenant: Uid, hard: Option<map<Resource, string>>,
                          items: Option<seq<LimitRangeItem>>, k: Key, o: Object)
    requires IsForeign(o, q.name)
    ensures After(q, e, tenant, hard, items, k, Some(o)).Some?
  {
  }

  /** A reconciliation may overwrite such an object, but does not delete it. */
  lemma ReconciliationSparesOthers(s: Store, q: Project, e: Entry, k: Key)
    requires SizeKnown(s.sizes, e) && k in s.objects && IsForeign(s.objects[k], q.name)
    ensures k in Reconciled(s, q, e).objects
  {
    var adopted := AdoptedTenant(s, q, e);
    var tenant, hard, items := adopted.namespaces[Tenant(e)].uid, DesiredHard(s.sizes, e), DesiredItems(s.sizes, e);
    ReconciledAt(adopted.objects, q, e, tenant, hard, items, k);
    AfterSparesOthers(q, e, tenant, hard, items, k, s.objects[k]);
  }

  // ---------------------------------------------------------------- admitted, but not reconcilable

  /** The entry lists AppProjects, all switched off, and no Argo CD namespace is given. */
  predicate OnlyDisabledProjects(e: Entry) {
    e.argoCDProjects != [] && forall i | 0 <= i < |e.argoCDProjects| :: !IsOptInEnabled(e.argoCDProjects[i].enabled)
  }

  /** Reconciliation asks for an Argo CD namespace as soon as the entry lists projects, admission only when one of them
      is enabled: such an entry never gets through. */
  lemma DisabledProjectsFail(s: Store, q: Project, e: Entry)
    requires OnlyDisabledProjects(e) && GitOpsNamespace(q.gitOps, e) == ""
    ensures !Reconcilable(s, q, e)
  {
  }
}
