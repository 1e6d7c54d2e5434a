/** The custom resources of the operator as far as the model reads them. */
module Api {
  import opened Common
  import opened Quantities
  import opened Sizing
  import opened Policies

  /** The label keys the operator writes, and any other key. */
  datatype LabelKey =
    | ManagedBy | ProjectLabel | TargetNamespace
    | NamespaceSize | Env | ArgoManagedBy | ProjectInherit
    | UserMonitoring | PodSecurityAudit | PodSecurityWarn | PodSecurityEnforce
    | OtherLabel(text: string)

  type Labels = map<LabelKey, string>

  const OPERATOR := "project-onboarding-operator"

  datatype TShirtSizeSpec = TShirtSizeSpec(
    resourceQuotas: Option<ResourceQuotaSpec>, limitRanges: Option<LimitRangeSpec>)

  datatype NamespaceLabel = NamespaceLabel(key: LabelKey, value: string)

  datatype AdditionalSettings = AdditionalSettings(
    podSecurityEnforce: string, podSecurityWarn: string, podSecurityAudit: string,
    enableClusterMonitoring: Option<bool>, additionalLabels: seq<NamespaceLabel>)

  datatype LocalAdminGroup = LocalAdminGroup(
    enabled: Option<bool>, groupName: string, clusterRole: string, users: seq<string>)

  datatype EgressIPs = EgressIPs(enabled: Option<bool>, ips: seq<string>)

  /** `body` stands for the description, roles, sources and destinations of the project. */
  datatype ArgoProject = ArgoProject(name: string, enabled: Option<bool>, body: string)

  /** One item of spec.namespaces. */
  datatype Entry = Entry(
    name: string, enabled: Option<bool>, offboard: Option<bool>,
    projectSize: string, overwriteTshirt: Option<bool>,
    resourceQuotas: Option<ResourceQuotaSpec>, limitRanges: Option<LimitRangeSpec>,
    defaultPolicies: Option<DefaultPolicies>, networkPolicies: seq<CustomPolicy>,
    localAdminGroup: Option<LocalAdminGroup>, egressIPs: Option<EgressIPs>,
    applicationGitOpsNamespace: string, argoCDProjects: seq<ArgoProject>,
    additionalSettings: Option<AdditionalSettings>, labels: Labels, annotations: map<string, string>)

  predicate IsOffboard(e: Entry) {
    IsOptInEnabled(e.offboard)
  }

  /** The entry is reconciled: not torn down and not frozen. */
  predicate IsActive(e: Entry) {
    !IsOffboard(e) && IsEnabled(e.enabled)
  }

  /** The tenant namespace of an entry. */
  function Tenant(e: Entry): string {
    Sanitize(e.name)
  }

  predicate DistinctTenants(entries: seq<Entry>) {
    forall i, j | 0 <= i < j < |entries| :: Tenant(entries[i]) != Tenant(entries[j])
  }

  /** Neither `enabled: false` nor `offboard: true`. */
  predicate Counts(e: Entry) {
    (e.enabled.None? || e.enabled.value) && (e.offboard.None? || !e.offboard.value)
  }

  method ActiveTenantCount(entries: seq<Entry>) returns (count: nat)
    ensures count == |set i | 0 <= i < |entries| && Counts(entries[i])|
  {
    count := 0;
    ghost var active: set<int> := {};
    for i := 0 to |entries|
      invariant forall j :: j in active <==> 0 <= j < i && Counts(entries[j])
      invariant count == |active|
    {
      if IsEnabled(entries[i].enabled) && !IsOffboard(entries[i]) {
        count := count + 1;
        active := active + {i};
      }
    }
    assert active == set i | 0 <= i < |entries| && Counts(entries[i]);
  }

  /** The Argo CD namespace of an entry: its own, else the project's default. */
  function GitOpsNamespace(projectDefault: string, e: Entry): string {
    if Trim(e.applicationGitOpsNamespace) != "" then Trim(e.applicationGitOpsNamespace) else Trim(projectDefault)
  }

  // ---------------------------------------------------------------- names

  function GroupName(e: Entry): string {
    if e.localAdminGroup.Some? && e.localAdminGroup.value.groupName != "" then
      Sanitize(e.localAdminGroup.value.groupName)
    else Tenant(e) + "-admins"
  }

  function RoleBindingName(e: Entry): string {
    if e.localAdminGroup.Some? && e.localAdminGroup.value.groupName != "" then
      Sanitize(e.localAdminGroup.value.groupName)
    else Tenant(e) + "-rb"
  }

  function ClusterRoleName(e: Entry): string {
    if e.localAdminGroup.Some? && e.localAdminGroup.value.clusterRole != "" then e.localAdminGroup.value.clusterRole
    else "admin"
  }

  /** What the author of an entry gets by default, and by naming the group or the role. */
  lemma AdminNames(e: Entry)
    ensures e.localAdminGroup.None? ==>
      GroupName(e) == Sanitize(e.name) + "-admins" && RoleBindingName(e) == Sanitize(e.name) + "-rb"
    ensures e.localAdminGroup.Some? && e.localAdminGroup.value.groupName == "" ==>
      GroupName(e) == Sanitize(e.name) + "-admins" && RoleBindingName(e) == Sanitize(e.name) + "-rb"
    ensures e.localAdminGroup.Some? && e.localAdminGroup.value.groupName != "" ==>
      GroupName(e) == RoleBindingName(e) == Sanitize(e.localAdminGroup.value.groupName)
    ensures e.localAdminGroup.Some? && e.localAdminGroup.value.clusterRole != "" ==>
      ClusterRoleName(e) == e.localAdminGroup.value.clusterRole
    ensures e.localAdminGroup.Some? && e.localAdminGroup.value.clusterRole == "" ==> ClusterRoleName(e) == "admin"
  {
  }

  /** The entry's own Argo CD namespace comes before the project's; blank ones do not count. */
  lemma GitOpsPrecedence(projectDefault: string, e: Entry)
    ensures Trim(e.applicationGitOpsNamespace) != "" ==>
      GitOpsNamespace(projectDefault, e) == Trim(e.applicationGitOpsNamespace)
    ensures Trim(e.applicationGitOpsNamespace) == "" ==> GitOpsNamespace(projectDefault, e) == Trim(projectDefault)
  {
  }

  // ---------------------------------------------------------------- labels

  function ManagedLabels(project: string, e: Entry): Labels {
    map[ManagedBy := OPERATOR, ProjectLabel := project, TargetNamespace := e.name]
  }

  /** isManagedByProjectOnboarding */
  predicate IsManaged(labels: Labels, project: string) {
    Lookup(labels, ManagedBy) == Some(OPERATOR) && Lookup(labels, ProjectLabel) == Some(project)
  }

  function CustomLabels(labels: seq<NamespaceLabel>): Labels {
    if labels == [] then map[]
    else
      var last := labels[|labels| - 1];
      var before := CustomLabels(labels[..|labels| - 1]);
      if last.key == OtherLabel("") then before else before[last.key := last.value]
  }

  function SetUnlessEmpty(labels: Labels, key: LabelKey, value: string): Labels {
    if value != "" then labels[key := value] else labels
  }

  /** What additionalSettings add: custom labels first, pod security and monitoring on top of them. */
  function WithSettings(labels: Labels, settings: Option<AdditionalSettings>): Labels {
    if settings.None? then labels[UserMonitoring := "true"]
    else
      var custom := labels + CustomLabels(settings.value.additionalLabels);
      var audit := SetUnlessEmpty(custom, PodSecurityAudit, settings.value.podSecurityAudit);
      var warn := SetUnlessEmpty(audit, PodSecurityWarn, settings.value.podSecurityWarn);
      var enforce := SetUnlessEmpty(warn, PodSecurityEnforce, settings.value.podSecurityEnforce);
      enforce[UserMonitoring := if IsEnabled(settings.value.enableClusterMonitoring) then "true" else "false"]
  }

  /** The last custom label of that key; a label with an empty key is none. */
  predicate IsLastLabel(labels: seq<NamespaceLabel>, i: int, key: LabelKey) {
    && 0 <= i < |labels| && labels[i].key == key && key != OtherLabel("")
    && forall j | i < j < |labels| :: labels[j].key != key
  }

  lemma LastLabelBefore(before: seq<NamespaceLabel>, last: NamespaceLabel, key: LabelKey)
    ensures IsLastLabel(before + [last], |before|, key) <==> last.key == key && key != OtherLabel("")
    ensures last.key != key ==>
      forall i | i < |before| :: IsLastLabel(before + [last], i, key) <==> IsLastLabel(before, i, key)
    ensures last.key == key ==> forall i | i < |before| :: !IsLastLabel(before + [last], i, key)
  {
    var labels := before + [last];
    assert labels[|before|] == last;
    assert forall j :: 0 <= j < |before| ==> labels[j] == before[j];
    forall i | 0 <= i < |before| && last.key != key
      ensures IsLastLabel(labels, i, key) <==> IsLastLabel(before, i, key)
    {
      assert (forall j | i < j < |labels| :: labels[j].key != key)
        <==> (forall j | i < j < |before| :: before[j].key != key);
    }
  }

  lemma {:induction false} CustomLabelIsLast(labels: seq<NamespaceLabel>, key: LabelKey)
    ensures forall i | IsLastLabel(labels, i, key) :: Lookup(CustomLabels(labels), key) == Some(labels[i].value)
    ensures (forall i :: !IsLastLabel(labels, i, key)) ==> Lookup(CustomLabels(labels), key) == None
  {
    if labels == [] {
    } else {
      var before, last := labels[..|labels| - 1], labels[|labels| - 1];
      assert labels == before + [last];
      CustomLabelIsLast(before, key);
      LastLabelBefore(before, last, key);
    }
  }

  function NonEmpty(value: string): Option<string> {
    if value == "" then None else Some(value)
  }

  /** What a key reads after the settings are applied: pod-security and monitoring settings come first, then the
      last custom label, then the label that was there. */
  function SettingsLabel(labels: Labels, settings: Option<AdditionalSettings>, key: LabelKey): Option<string> {
    var given := Lookup(labels, key);
    if settings.None? then if key.UserMonitoring? then Some("true") else given
    else
      var below := OrElse(Lookup(CustomLabels(settings.value.additionalLabels), key), given);
      match key
      case UserMonitoring => Some(if IsEnabled(settings.value.enableClusterMonitoring) then "true" else "false")
      case PodSecurityAudit => OrElse(NonEmpty(settings.value.podSecurityAudit), below)
      case PodSecurityWarn => OrElse(NonEmpty(settings.value.podSecurityWarn), below)
      case PodSecurityEnforce => OrElse(NonEmpty(settings.value.podSecurityEnforce), below)
      case _ => below
  }

  lemma SettingsPrecedence(labels: Labels, settings: Option<AdditionalSettings>, key: LabelKey)
    ensures Lookup(WithSettings(labels, settings), key) == SettingsLabel(labels, settings, key)
  {
  }

  method AddCustomLabels(labels: Labels, custom: seq<NamespaceLabel>) returns (out: Labels)
    ensures out == labels + CustomLabels(custom)
  {
    out := labels;
    for i := 0 to |custom|
      invariant out == labels + CustomLabels(custom[..i])
    {
      assert custom[..i + 1][..i] == custom[..i];
      if custom[i].key != OtherLabel("") {
        out := out[custom[i].key := custom[i].value];
      }
    }
    assert custom[..|custom|] == custom;
  }

  method ApplyAdditionalSettingsLabels(labels: Labels, settings: Option<AdditionalSettings>) returns (out: Labels)
    ensures out == WithSettings(labels, settings)
    ensures forall key :: Lookup(out, key) == SettingsLabel(labels, settings, key)
  {
    forall key {
      SettingsPrecedence(labels, settings, key);
    }
    out := labels;
    if settings.None? {
      return out[UserMonitoring := "true"];
    }
    var s := settings.value;
    out := AddCustomLabels(out, s.additionalLabels);
    if s.podSecurityAudit != "" { out := out[PodSecurityAudit := s.podSecurityAudit]; }
    if s.podSecurityWarn != "" { out := out[PodSecurityWarn := s.podSecurityWarn]; }
    if s.podSecurityEnforce != "" { out := out[PodSecurityEnforce := s.podSecurityEnforce]; }
    out := out[UserMonitoring := if IsEnabled(s.enableClusterMonitoring) then "true" else "false"];
  }

  predicate WantsEgress(e: Entry) {
    e.egressIPs.Some? && IsOptInEnabled(e.egressIPs.value.enabled)
  }

  /** The labels a tenant namespace must carry; later writes win. */
  function DesiredLabels(project: string, gitOps: string, e: Entry): Labels {
    var settled := WithSettings(ManagedLabels(project, e) + e.labels, e.additionalSettings);
    var sized := SetUnlessEmpty(settled, NamespaceSize, e.projectSize);
    var routed := if WantsEgress(e) then sized[Env := Tenant(e)] else sized;
    SetUnlessEmpty(routed, ArgoManagedBy, gitOps)
  }

  predicate WantsGroup(e: Entry) {
    e.localAdminGroup.Some? && IsOptInEnabled(e.localAdminGroup.value.enabled)
  }

  /** What a key of the tenant namespace reads: size, egress and Argo CD labels come first, then the settings, then
      the entry's labels, then the onboarding labels. */
  function DesiredLabel(project: string, gitOps: string, e: Entry, key: LabelKey): Option<string> {
    var below := SettingsLabel(ManagedLabels(project, e) + e.labels, e.additionalSettings, key);
    match key
    case NamespaceSize => OrElse(NonEmpty(e.projectSize), below)
    case Env => if WantsEgress(e) then Some(Tenant(e)) else below
    case ArgoManagedBy => OrElse(NonEmpty(gitOps), below)
    case _ => below
  }

  lemma LabelPrecedence(project: string, gitOps: string, e: Entry, key: LabelKey)
    ensures Lookup(DesiredLabels(project, gitOps, e), key) == DesiredLabel(project, gitOps, e, key)
  {
    SettingsPrecedence(ManagedLabels(project, e) + e.labels, e.additionalSettings, key);
  }

  /** The labels the user chose, in either place. */
  function UserLabels(e: Entry): Labels {
    if e.additionalSettings.Some? then e.labels + CustomLabels(e.additionalSettings.value.additionalLabels)
    else e.labels
  }

  /** The labels the user chose do not give an onboarding key another value. */
  predicate KeepsLabels(project: string, e: Entry) {
    && (ManagedBy in UserLabels(e) ==> UserLabels(e)[ManagedBy] == OPERATOR)
    && (ProjectLabel in UserLabels(e) ==> UserLabels(e)[ProjectLabel] == project)
  }

  lemma OnboardingKeys(project: string, gitOps: string, e: Entry, key: LabelKey)
    requires key.ManagedBy? || key.ProjectLabel?
    ensures Lookup(DesiredLabels(project, gitOps, e), key)
         == OrElse(Lookup(UserLabels(e), key), Lookup(ManagedLabels(project, e), key))
  {
    var settled := WithSettings(ManagedLabels(project, e) + e.labels, e.additionalSettings);
    assert Lookup(settled, key) == OrElse(Lookup(UserLabels(e), key), Lookup(ManagedLabels(project, e), key));
  }

  /** User labels are written after the managed ones, so the namespace is labelled for its project exactly
      when they leave the onboarding keys alone. */
  lemma DesiredLabelsManaged(project: string, gitOps: string, e: Entry)
    ensures IsManaged(DesiredLabels(project, gitOps, e), project) <==> KeepsLabels(project, e)
  {
    OnboardingKeys(project, gitOps, e, ManagedBy);
    OnboardingKeys(project, gitOps, e, ProjectLabel);
  }
}
