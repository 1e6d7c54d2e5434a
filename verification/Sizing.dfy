/** Sizes: the quota and limit blocks of catalogue entries and namespace entries, how an
    override is merged onto a catalogue block, and what a block compiles to. */
module Sizing {
  import opened Common
  import opened Quantities

  // ---------------------------------------------------------------- specs

  datatype QuotaLimits = QuotaLimits(cpu: Option<string>, memory: Option<string>, ephemeralStorage: Option<string>)

  datatype QuotaRequests = QuotaRequests(
    cpu: Option<string>, memory: Option<string>, storage: Option<string>, ephemeralStorage: Option<string>)

  datatype StorageClassQuota = StorageClassQuota(key: string, value: string)

  datatype ResourceQuotaSpec = ResourceQuotaSpec(
    enabled: Option<bool>,
    cpu: Option<string>, memory: Option<string>, ephemeralStorage: Option<string>,
    pods: Option<int>, replicationControllers: Option<int>, resourceQuotas: Option<int>, services: Option<int>,
    secrets: Option<int>, configMaps: Option<int>, persistentVolumeClaims: Option<int>,
    limits: Option<QuotaLimits>, requests: Option<QuotaRequests>,
    storageClasses: seq<StorageClassQuota>)

  datatype ResourceAmount = ResourceAmount(cpu: Option<string>, memory: Option<string>)

  datatype StorageAmount = StorageAmount(storage: Option<string>)

  datatype PodLimits = PodLimits(max: Option<ResourceAmount>, min: Option<ResourceAmount>)

  datatype ContainerLimits = ContainerLimits(
    max: Option<ResourceAmount>, min: Option<ResourceAmount>,
    default: Option<ResourceAmount>, defaultRequest: Option<ResourceAmount>)

  datatype ClaimLimits = ClaimLimits(min: Option<StorageAmount>, max: Option<StorageAmount>)

  datatype LimitRangeSpec = LimitRangeSpec(
    enabled: Option<bool>, pod: Option<PodLimits>, container: Option<ContainerLimits>, pvc: Option<ClaimLimits>)

  const EMPTY_QUOTA := ResourceQuotaSpec(
    None, None, None, None, None, None, None, None, None, None, None, None, None, [])
  const EMPTY_AMOUNT := ResourceAmount(None, None)
  const EMPTY_LIMITS := LimitRangeSpec(None, None, None, None)

  // ---------------------------------------------------------------- resource names

  /** The resource names the operator writes itself, and any other name. */
  datatype Resource =
    | Pods | CPU | Memory | EphemeralStorage | ReplicationControllers | ResourceQuotaObjects | Services | Secrets
    | ConfigMaps | PersistentVolumeClaims | LimitsCPU | LimitsMemory | LimitsEphemeralStorage | RequestsCPU
    | RequestsMemory | RequestsStorage | RequestsEphemeralStorage | Storage | Other(key: string)

  function NameOf(r: Resource): string {
    match r
    case Pods => "pods"
    case CPU => "cpu"
    case Memory => "memory"
    case EphemeralStorage => "ephemeral-storage"
    case ReplicationControllers => "replicationcontrollers"
    case ResourceQuotaObjects => "resourcequotas"
    case Services => "services"
    case Secrets => "secrets"
    case ConfigMaps => "configmaps"
    case PersistentVolumeClaims => "persistentvolumeclaims"
    case LimitsCPU => "limits.cpu"
    case LimitsMemory => "limits.memory"
    case LimitsEphemeralStorage => "limits.ephemeral-storage"
    case RequestsCPU => "requests.cpu"
    case RequestsMemory => "requests.memory"
    case RequestsStorage => "requests.storage"
    case RequestsEphemeralStorage => "requests.ephemeral-storage"
    case Storage => "storage"
    case Other(key) => key
  }

  function BuiltIn(i: nat): Resource {
    if i == 0 then Pods else if i == 1 then CPU else if i == 2 then Memory else if i == 3 then EphemeralStorage
    else if i == 4 then ReplicationControllers else if i == 5 then ResourceQuotaObjects else if i == 6 then Services
    else if i == 7 then Secrets else if i == 8 then ConfigMaps else if i == 9 then PersistentVolumeClaims
    else if i == 10 then LimitsCPU else if i == 11 then LimitsMemory else if i == 12 then LimitsEphemeralStorage
    else if i == 13 then RequestsCPU else if i == 14 then RequestsMemory else if i == 15 then RequestsStorage
    else if i == 16 then RequestsEphemeralStorage else Storage
  }

  function NamedFrom(key: string, i: nat): (r: Resource)
    ensures NameOf(r) == key
    decreases 18 - i
  {
    if i >= 18 then Other(key) else if NameOf(BuiltIn(i)) == key then BuiltIn(i) else NamedFrom(key, i + 1)
  }

  /** corev1.ResourceName(key): a key spelt like a built-in name is that name. */
  function ResourceOf(key: string): (r: Resource)
    ensures NameOf(r) == key
  {
    NamedFrom(key, 0)
  }

  // ---------------------------------------------------------------- meaning of a quota block

  /** The built-in resources a quota block can limit; BuiltIn lists them in the builder's order. */
  const QUOTA_FIELDS: set<Resource> := set i | 0 <= i < 17 :: BuiltIn(i)

  function CountText(n: Option<int>): Option<string> {
    if n.Some? then Some(Decimal(n.value)) else None
  }

  function LimitsText(limits: Option<QuotaLimits>, r: Resource): Option<string> {
    if limits.None? then None
    else match r
      case LimitsCPU => limits.value.cpu
      case LimitsMemory => limits.value.memory
      case LimitsEphemeralStorage => limits.value.ephemeralStorage
      case _ => None
  }

  function RequestsText(requests: Option<QuotaRequests>, r: Resource): Option<string> {
    if requests.None? then None
    else match r
      case RequestsCPU => requests.value.cpu
      case RequestsMemory => requests.value.memory
      case RequestsStorage => requests.value.storage
      case RequestsEphemeralStorage => requests.value.ephemeralStorage
      case _ => None
  }

  datatype FieldValue = Count(n: Option<int>) | Text(text: Option<string>) {
    function Written(): Option<string> {
      match this
      case Count(n) => CountText(n)
      case Text(text) => text
    }
  }

  /** The field of a quota block behind a built-in resource. */
  function FieldOf(q: ResourceQuotaSpec, r: Resource): FieldValue {
    match r
    case Pods => Count(q.pods)
    case CPU => Text(q.cpu)
    case Memory => Text(q.memory)
    case EphemeralStorage => Text(q.ephemeralStorage)
    case ReplicationControllers => Count(q.replicationControllers)
    case ResourceQuotaObjects => Count(q.resourceQuotas)
    case Services => Count(q.services)
    case Secrets => Count(q.secrets)
    case ConfigMaps => Count(q.configMaps)
    case PersistentVolumeClaims => Count(q.persistentVolumeClaims)
    case LimitsCPU | LimitsMemory | LimitsEphemeralStorage => Text(LimitsText(q.limits, r))
    case RequestsCPU | RequestsMemory | RequestsStorage | RequestsEphemeralStorage =>
      Text(RequestsText(q.requests, r))
    case _ => Text(None)
  }

  /** The text a quota block gives for a built-in resource; counts in decimal. */
  function QuotaField(q: ResourceQuotaSpec, r: Resource): Option<string> {
    FieldOf(q, r).Written()
  }

  /** The map a storage-class list stands for: empty keys are skipped, the last entry of a key wins. */
  function ClassMap(items: seq<StorageClassQuota>): (classes: map<string, string>)
    ensures "" !in classes
  {
    if items == [] then map[]
    else
      var last := items[|items| - 1];
      var before := ClassMap(items[..|items| - 1]);
      if last.key == "" then before else before[last.key := last.value]
  }

  /** A quota block up to the order and the duplicates of its storage-class list. */
  datatype QuotaMeaning = QuotaMeaning(
    enabled: Option<bool>, fields: map<Resource, string>, hasLimits: bool, hasRequests: bool,
    classes: map<string, string>)

  function FieldMap(q: ResourceQuotaSpec): map<Resource, string> {
    map r | r in QUOTA_FIELDS && QuotaField(q, r).Some? :: QuotaField(q, r).value
  }

  function Meaning(q: ResourceQuotaSpec): QuotaMeaning {
    QuotaMeaning(q.enabled, FieldMap(q), q.limits.Some?, q.requests.Some?, ClassMap(q.storageClasses))
  }

  function MeaningOf(q: Option<ResourceQuotaSpec>): Option<QuotaMeaning> {
    if q.Some? then Some(Meaning(q.value)) else None
  }

  const NO_QUOTA := QuotaMeaning(None, map[], false, false, map[])

  function OrEmpty(q: Option<QuotaMeaning>): QuotaMeaning {
    if q.Some? then q.value else NO_QUOTA
  }

  /** The flag a merged block carries: the override's, else the base's, else on. */
  function OverrideFlag(base: Option<bool>, over: Option<bool>): Option<bool> {
    OrElse(OrElse(over, base), Some(true))
  }

  function Combine(b: QuotaMeaning, o: QuotaMeaning): QuotaMeaning {
    QuotaMeaning(OverrideFlag(b.enabled, o.enabled), b.fields + o.fields, b.hasLimits || o.hasLimits,
                 b.hasRequests || o.hasRequests, b.classes + o.classes)
  }

  /** The reference definition of the merge: finite maps overridden on the right, enabled by default. */
  function Override(base: Option<QuotaMeaning>, over: Option<QuotaMeaning>): Option<QuotaMeaning> {
    if base.None? && over.None? then None else Some(Combine(OrEmpty(base), OrEmpty(over)))
  }

  lemma ClassMapAppend(items: seq<StorageClassQuota>, item: StorageClassQuota)
    ensures ClassMap(items + [item])
         == if item.key == "" then ClassMap(items) else ClassMap(items)[item.key := item.value]
  {
    assert (items + [item])[..|items|] == items;
  }

  lemma {:induction false} ClassMapMembers(items: seq<StorageClassQuota>, key: string)
    requires key in ClassMap(items)
    ensures StorageClassQuota(key, ClassMap(items)[key]) in items
  {
    var last, before := items[|items| - 1], items[..|items| - 1];
    if last.key == key {
    } else {
      ClassMapMembers(before, key);
    }
  }

  /** The last item of its key. */
  predicate IsLastClass(items: seq<StorageClassQuota>, i: int) {
    && 0 <= i < |items| && items[i].key != ""
    && forall j | i < j < |items| :: items[j].key != items[i].key
  }

  lemma {:induction false} ClassMapIsLast(items: seq<StorageClassQuota>, key: string)
    ensures forall i | IsLastClass(items, i) && items[i].key == key ::
              Lookup(ClassMap(items), key) == Some(items[i].value)
    ensures (forall i | 0 <= i < |items| :: items[i].key != key) ==> Lookup(ClassMap(items), key) == None
  {
    if items == [] {
    } else {
      var before, last := items[..|items| - 1], |items| - 1;
      ClassMapIsLast(before, key);
      assert forall i :: 0 <= i < last ==> before[i] == items[i];
      forall i | IsLastClass(items, i) && items[i].key == key
        ensures Lookup(ClassMap(items), key) == Some(items[i].value)
      {
        if i != last { assert IsLastClass(before, i); }
      }
    }
  }

  function ItemSet(items: seq<StorageClassQuota>): set<StorageClassQuota> {
    set item | item in items
  }

  /** The items of a merged storage-class list, whose order is open. */
  function MergedItems(base: seq<StorageClassQuota>, over: seq<StorageClassQuota>): set<StorageClassQuota> {
    if over == [] then ItemSet(base)
    else set k | k in ClassMap(base) + ClassMap(over) :: StorageClassQuota(k, (ClassMap(base) + ClassMap(over))[k])
  }

  lemma MergedItemsFrom(base: seq<StorageClassQuota>, over: seq<StorageClassQuota>, item: StorageClassQuota)
    requires item in MergedItems(base, over)
    ensures item in base || item in over
  {
    if over != [] {
      ClassMapMembers(if item.key in ClassMap(over) then over else base, item.key);
    }
  }

  // ---------------------------------------------------------------- merging quotas

  method StorageClassQuotasToMap(items: seq<StorageClassQuota>) returns (out: map<string, string>)
    ensures out == ClassMap(items)
  {
    out := map[];
    for i := 0 to |items|
      invariant out == ClassMap(items[..i])
    {
      assert items[..i + 1][..i] == items[..i];
      if items[i].key != "" {
        out := out[items[i].key := items[i].value];
      }
    }
    assert items[..|items|] == items;
  }

  predicate DistinctKeys(items: seq<StorageClassQuota>) {
    forall i, j :: 0 <= i < j < |items| ==> items[i].key != items[j].key
  }

  /** Every item comes from `values`. */
  ghost predicate Lists(items: seq<StorageClassQuota>, values: map<string, string>) {
    forall i :: 0 <= i < |items| ==> items[i].key in values && items[i].value == values[items[i].key]
  }

  lemma {:induction false} ListedClassMap(items: seq<StorageClassQuota>, values: map<string, string>)
    requires Lists(items, values)
    ensures forall k :: k in ClassMap(items) ==> k in values && ClassMap(items)[k] == values[k]
    ensures forall i :: 0 <= i < |items| && items[i].key != "" ==> items[i].key in ClassMap(items)
  {
    if items == [] {
    } else {
      ListedClassMap(items[..|items| - 1], values);
    }
  }

  /** Map iteration order is unspecified: any order of the keys may come out. */
  method StorageClassQuotasFromMap(values: map<string, string>) returns (out: seq<StorageClassQuota>)
    ensures ClassMap(out) == values - {""}
    ensures Lists(out, values) && DistinctKeys(out) && |out| == |values|
  {
    out := [];
    var left := values.Keys;
    while left != {}
      invariant left <= values.Keys && |out| == |values.Keys| - |left|
      invariant Lists(out, values) && DistinctKeys(out)
      invariant forall i :: 0 <= i < |out| ==> out[i].key !in left
      invariant forall k :: k in values && k !in left ==> exists i :: 0 <= i < |out| && out[i].key == k
      decreases |left|
    {
      var key :| key in left;
      ghost var before := out;
      out := out + [StorageClassQuota(key, values[key])];
      left := left - {key};
      assert out[|before|].key == key;
      forall k | k in values && k !in left
        ensures exists i :: 0 <= i < |out| && out[i].key == k
      {
        if k != key {
          var i :| 0 <= i < |before| && before[i].key == k;
          assert out[i].key == k;
        }
      }
    }
    ListedClassMap(out, values);
    forall k | k in values && k != ""
      ensures k in ClassMap(out)
    {
      var i :| 0 <= i < |out| && out[i].key == k;
    }
  }

  method EnsureQuotaEnabled(q: Option<ResourceQuotaSpec>) returns (out: Option<ResourceQuotaSpec>)
    ensures out == if q.Some? then Some(q.value.(enabled := OrElse(q.value.enabled, Some(true)))) else None
  {
    out := q;
    if out.Some? && out.value.enabled.None? {
      out := Some(out.value.(enabled := Some(true)));
    }
  }

  method MergeResourceQuotaLimits(base: Option<QuotaLimits>, over: Option<QuotaLimits>)
    returns (out: Option<QuotaLimits>)
    ensures out.Some? <==> base.Some? || over.Some?
    ensures forall r :: LimitsText(out, r) == OrElse(LimitsText(over, r), LimitsText(base, r))
  {
    if over.None? { return base; }
    var merged := if base.Some? then base.value else QuotaLimits(None, None, None);
    if over.value.cpu.Some? { merged := merged.(cpu := over.value.cpu); }
    if over.value.memory.Some? { merged := merged.(memory := over.value.memory); }
    if over.value.ephemeralStorage.Some? { merged := merged.(ephemeralStorage := over.value.ephemeralStorage); }
    out := Some(merged);
  }

  method MergeResourceQuotaRequests(base: Option<QuotaRequests>, over: Option<QuotaRequests>)
    returns (out: Option<QuotaRequests>)
    ensures out.Some? <==> base.Some? || over.Some?
    ensures forall r :: RequestsText(out, r) == OrElse(RequestsText(over, r), RequestsText(base, r))
  {
    if over.None? { return base; }
    var merged := if base.Some? then base.value else QuotaRequests(None, None, None, None);
    if over.value.cpu.Some? { merged := merged.(cpu := over.value.cpu); }
    if over.value.memory.Some? { merged := merged.(memory := over.value.memory); }
    if over.value.storage.Some? { merged := merged.(storage := over.value.storage); }
    if over.value.ephemeralStorage.Some? { merged := merged.(ephemeralStorage := over.value.ephemeralStorage); }
    out := Some(merged);
  }

  method OverlayClasses(classes: map<string, string>, over: seq<StorageClassQuota>) returns (out: map<string, string>)
    ensures out == classes + ClassMap(over)
  {
    out := classes;
    for i := 0 to |over|
      invariant out == classes + ClassMap(over[..i])
    {
      ClassMapAppend(over[..i], over[i]);
      assert over[..i + 1] == over[..i] + [over[i]];
      if over[i].key != "" {
        out := out[over[i].key := over[i].value];
      }
    }
    assert over[..|over|] == over;
  }

  method MergeStorageClasses(base: seq<StorageClassQuota>, over: seq<StorageClassQuota>)
    returns (out: seq<StorageClassQuota>)
    ensures ClassMap(out) == ClassMap(base) + ClassMap(over)
    ensures ItemSet(out) == MergedItems(base, over)
  {
    if |over| == 0 {
      assert ClassMap(base) + map[] == ClassMap(base);
      return base;
    }
    var classes := StorageClassQuotasToMap(base);
    classes := OverlayClasses(classes, over);
    assert classes - {""} == classes;
    out := StorageClassQuotasFromMap(classes);
    forall item
      ensures item in out <==> item in MergedItems(base, over)
    {
      if item in out {
        assert item.key in classes && item.value == classes[item.key];
      }
      if item in MergedItems(base, over) {
        ClassMapMembers(out, item.key);
      }
    }
  }

  /** `q` holds, field by field, what `o` sets and otherwise what `b` sets. */
  ghost predicate FieldsMerged(q: ResourceQuotaSpec, b: ResourceQuotaSpec, o: ResourceQuotaSpec) {
    && q.pods == OrElse(o.pods, b.pods) && q.cpu == OrElse(o.cpu, b.cpu) && q.memory == OrElse(o.memory, b.memory)
    && q.ephemeralStorage == OrElse(o.ephemeralStorage, b.ephemeralStorage)
    && q.replicationControllers == OrElse(o.replicationControllers, b.replicationControllers)
    && q.resourceQuotas == OrElse(o.resourceQuotas, b.resourceQuotas)
    && q.services == OrElse(o.services, b.services) && q.secrets == OrElse(o.secrets, b.secrets)
    && q.configMaps == OrElse(o.configMaps, b.configMaps)
    && q.persistentVolumeClaims == OrElse(o.persistentVolumeClaims, b.persistentVolumeClaims)
    && (forall r :: LimitsText(q.limits, r) == OrElse(LimitsText(o.limits, r), LimitsText(b.limits, r)))
    && (forall r :: RequestsText(q.requests, r) == OrElse(RequestsText(o.requests, r), RequestsText(b.requests, r)))
  }

  lemma MergedField(q: ResourceQuotaSpec, b: ResourceQuotaSpec, o: ResourceQuotaSpec, r: Resource)
    requires FieldsMerged(q, b, o)
    ensures QuotaField(q, r) == OrElse(QuotaField(o, r), QuotaField(b, r))
  {
    assert LimitsText(q.limits, r) == OrElse(LimitsText(o.limits, r), LimitsText(b.limits, r));
    assert RequestsText(q.requests, r) == OrElse(RequestsText(o.requests, r), RequestsText(b.requests, r));
  }

  lemma FieldMapOverride(q: ResourceQuotaSpec, b: ResourceQuotaSpec, o: ResourceQuotaSpec)
    requires forall r :: QuotaField(q, r) == OrElse(QuotaField(o, r), QuotaField(b, r))
    ensures FieldMap(q) == FieldMap(b) + FieldMap(o)
  {
    var left, right := FieldMap(q), FieldMap(b) + FieldMap(o);
    forall r
      ensures Lookup(left, r) == Lookup(right, r)
    {
      if r in QUOTA_FIELDS {
        assert QuotaField(q, r) == OrElse(QuotaField(o, r), QuotaField(b, r));
      }
    }
    SameLookup(left, right);
  }

  lemma MergedMeaning(q: ResourceQuotaSpec, b: ResourceQuotaSpec, o: ResourceQuotaSpec)
    requires FieldsMerged(q, b, o)
    requires q.enabled == OverrideFlag(b.enabled, o.enabled)
    requires q.limits.Some? <==> b.limits.Some? || o.limits.Some?
    requires q.requests.Some? <==> b.requests.Some? || o.requests.Some?
    requires ClassMap(q.storageClasses) == ClassMap(b.storageClasses) + ClassMap(o.storageClasses)
    ensures Meaning(q) == Combine(Meaning(b), Meaning(o))
  {
    forall r
      ensures QuotaField(q, r) == OrElse(QuotaField(o, r), QuotaField(b, r))
    {
      MergedField(q, b, o, r);
    }
    FieldMapOverride(q, b, o);
  }

  function OrNoQuota(q: Option<ResourceQuotaSpec>): ResourceQuotaSpec {
    if q.Some? then q.value else EMPTY_QUOTA
  }

  lemma EmptyMeaning()
    ensures Meaning(EMPTY_QUOTA) == NO_QUOTA
  {
  }

  /** Merging is right-biased override of finite maps, in whatever order the storage classes come out. */
  method MergeResourceQuotaSpec(base: Option<ResourceQuotaSpec>, over: Option<ResourceQuotaSpec>)
    returns (out: Option<ResourceQuotaSpec>)
    ensures MeaningOf(out) == Override(MeaningOf(base), MeaningOf(over))
    ensures out.Some? <==> base.Some? || over.Some?
    ensures out.Some? ==> FieldsMerged(out.value, OrNoQuota(base), OrNoQuota(over))
    ensures out.Some? ==>
      ItemSet(out.value.storageClasses) == MergedItems(OrNoQuota(base).storageClasses, OrNoQuota(over).storageClasses)
  {
    if base.None? && over.None? { return None; }
    var q := if base.Some? then base.value else EMPTY_QUOTA;
    ghost var b := q;
    EmptyMeaning();
    if over.None? {
      out := EnsureQuotaEnabled(Some(q));
      assert ClassMap([]) == map[];
      MergedMeaning(out.value, b, EMPTY_QUOTA);
      return;
    }
    var o := over.value;
    q := q.(enabled := OrElse(o.enabled, q.enabled));
    q := q.(pods := OrElse(o.pods, q.pods));
    q := q.(cpu := OrElse(o.cpu, q.cpu));
    q := q.(memory := OrElse(o.memory, q.memory));
    q := q.(ephemeralStorage := OrElse(o.ephemeralStorage, q.ephemeralStorage));
    q := q.(replicationControllers := OrElse(o.replicationControllers, q.replicationControllers));
    q := q.(resourceQuotas := OrElse(o.resourceQuotas, q.resourceQuotas));
    q := q.(services := OrElse(o.services, q.services));
    q := q.(secrets := OrElse(o.secrets, q.secrets));
    q := q.(configMaps := OrElse(o.configMaps, q.configMaps));
    q := q.(persistentVolumeClaims := OrElse(o.persistentVolumeClaims, q.persistentVolumeClaims));
    var limits := MergeResourceQuotaLimits(q.limits, o.limits);
    var requests := MergeResourceQuotaRequests(q.requests, o.requests);
    var classes := MergeStorageClasses(q.storageClasses, o.storageClasses);
    q := q.(limits := limits, requests := requests, storageClasses := classes);
    out := EnsureQuotaEnabled(Some(q));
    MergedMeaning(out.value, b, o);
  }

  // ---------------------------------------------------------------- algebra of the merge

  lemma OverrideIdempotent(base: Option<QuotaMeaning>, over: Option<QuotaMeaning>)
    ensures Override(Override(base, over), over) == Override(base, over)
  {
    var b, o := OrEmpty(base), OrEmpty(over);
    assert b.fields + o.fields + o.fields == b.fields + o.fields;
    assert b.classes + o.classes + o.classes == b.classes + o.classes;
  }

  lemma FlagAssociativity(a: Option<bool>, b: Option<bool>, c: Option<bool>)
    ensures OverrideFlag(OverrideFlag(a, b), c) == OverrideFlag(a, OverrideFlag(b, c))
       <==> IsEnabled(a) || b.Some? || c.Some?
  {
    if a.Some? {
      assert a == Some(if a.value then true else false);
    }
  }

  lemma CombineAssociativity(a: QuotaMeaning, b: QuotaMeaning, c: QuotaMeaning)
    ensures Combine(Combine(a, b), c) == Combine(a, Combine(b, c))
       <==> IsEnabled(a.enabled) || b.enabled.Some? || c.enabled.Some?
  {
    FlagAssociativity(a.enabled, b.enabled, c.enabled);
    assert (a.fields + b.fields) + c.fields == a.fields + (b.fields + c.fields);
    assert (a.classes + b.classes) + c.classes == a.classes + (b.classes + c.classes);
  }

  lemma CombineNothing(a: QuotaMeaning)
    ensures Combine(a, NO_QUOTA) == a.(enabled := OverrideFlag(a.enabled, None))
    ensures Combine(NO_QUOTA, a) == a.(enabled := OverrideFlag(None, a.enabled))
  {
    assert a.fields + map[] == a.fields == map[] + a.fields;
    assert a.classes + map[] == a.classes == map[] + a.classes;
  }

  /** Three blocks can be merged in either grouping, except that a disabled first block is switched
      on by later ones that leave the flag unset. */
  lemma OverrideAssociativity(a: Option<QuotaMeaning>, b: Option<QuotaMeaning>, c: Option<QuotaMeaning>)
    ensures Override(Override(a, b), c) == Override(a, Override(b, c))
       <==> || IsEnabled(OrEmpty(a).enabled)
            || (b.None? && c.None?)
            || OrEmpty(b).enabled.Some? || OrEmpty(c).enabled.Some?
  {
    CombineAssociativity(OrEmpty(a), OrEmpty(b), OrEmpty(c));
    CombineNothing(OrEmpty(a));
    CombineNothing(OrEmpty(c));
    CombineNothing(Combine(OrEmpty(a), NO_QUOTA));
  }

  /** One of the failing groupings: an explicitly disabled block under two empty ones. Merging the empty ones first
      switches it on, merging from the left keeps it off. */
  lemma GroupingMatters()
    ensures var off, empty := Some(NO_QUOTA.(enabled := Some(false))), Some(NO_QUOTA);
      && Override(Override(off, empty), empty).value.enabled == Some(false)
      && Override(off, Override(empty, empty)).value.enabled == Some(true)
  {
  }

  // ---------------------------------------------------------------- compiling a quota

  /** What a quantity field contributes to the hard limits: nothing when unset or blank. */
  function Compiled(text: Option<string>): Option<string> {
    if text.None? || Trim(text.value) == "" then None else Some(Normalize(text.value))
  }

  predicate Parses(text: Option<string>) {
    text.Some? ==> IsQuantity(text.value)
  }

  function ClassLimit(classes: map<string, string>, r: Resource): Option<string> {
    if ResourceOf(NameOf(r)) == r && NameOf(r) in classes then Some(Normalize(classes[NameOf(r)])) else None
  }

  /** The hard limit of resource `r`: a storage-class entry of that name wins over the field. */
  function HardAt(m: QuotaMeaning, r: Resource): Option<string> {
    OrElse(ClassLimit(m.classes, r), Compiled(Lookup(m.fields, r)))
  }

  function Hard(m: QuotaMeaning): map<Resource, string> {
    map r | r in m.fields.Keys + (set k | k in m.classes :: ResourceOf(k)) && HardAt(m, r).Some? :: HardAt(m, r).value
  }

  lemma HardLookup(m: QuotaMeaning, r: Resource)
    ensures Lookup(Hard(m), r) == HardAt(m, r)
  {
  }

  predicate ClassParses(item: StorageClassQuota) {
    item.key != "" ==> IsQuantity(Normalize(item.value))
  }

  predicate AllClassesParse(items: seq<StorageClassQuota>) {
    forall i | 0 <= i < |items| :: ClassParses(items[i])
  }

  /** Every text that reaches resource.MustParse is a quantity. */
  predicate QuotaParses(q: ResourceQuotaSpec) {
    && (forall r | r in QUOTA_FIELDS :: Parses(Compiled(QuotaField(q, r))))
    && AllClassesParse(q.storageClasses)
  }

  /** The limits written for the fields in `done`; None once resource.MustParse has panicked. */
  ghost predicate Wrote(hard: Option<map<Resource, string>>, q: ResourceQuotaSpec, done: set<Resource>) {
    && (hard.Some? <==> forall r | r in done :: Parses(Compiled(QuotaField(q, r))))
    && (hard.Some? ==> forall r :: Lookup(hard.value, r) == if r in done then Compiled(QuotaField(q, r)) else None)
  }

  method SetQuantity(hard: Option<map<Resource, string>>, name: Resource, value: Option<string>,
                     ghost q: ResourceQuotaSpec, ghost done: set<Resource>)
    returns (out: Option<map<Resource, string>>)
    requires value == QuotaField(q, name) && Wrote(hard, q, done)
    ensures Wrote(out, q, done + {name})
  {
    out := hard;
    if value.Some? && Trim(value.value) != "" && hard.Some? {
      out := if IsQuantity(Normalize(value.value)) then Some(hard.value[name := Normalize(value.value)]) else None;
    }
    assert name in done + {name};
  }

  lemma CountsCompile(n: int)
    ensures Compiled(Some(Decimal(n))) == Some(Decimal(n)) && IsQuantity(Decimal(n))
  {
    CountsParse(n);
    NormalizeKeepsQuantities(Decimal(n));
    QuantitiesAreTrimmed(Decimal(n));
  }

  method SetCount(hard: Option<map<Resource, string>>, name: Resource, value: Option<int>,
                  ghost q: ResourceQuotaSpec, ghost done: set<Resource>)
    returns (out: Option<map<Resource, string>>)
    requires CountText(value) == QuotaField(q, name) && Wrote(hard, q, done)
    ensures Wrote(out, q, done + {name})
  {
    out := hard;
    if value.Some? && hard.Some? {
      out := Some(hard.value[name := Decimal(value.value)]);
    }
    if value.Some? {
      CountsCompile(value.value);
    }
  }

  method SetField(hard: Option<map<Resource, string>>, name: Resource, q: ResourceQuotaSpec, ghost done: set<Resource>)
    returns (out: Option<map<Resource, string>>)
    requires Wrote(hard, q, done)
    ensures Wrote(out, q, done + {name})
  {
    match FieldOf(q, name) {
      case Count(n) => out := SetCount(hard, name, n, q, done);
      case Text(text) => out := SetQuantity(hard, name, text, q, done);
    }
  }

  method BuildQuotaFields(q: ResourceQuotaSpec) returns (out: Option<map<Resource, string>>)
    ensures Wrote(out, q, QUOTA_FIELDS)
  {
    out := Some(map[]);
    ghost var done: set<Resource> := {};
    for i := 0 to 17
      invariant done == set j | 0 <= j < i :: BuiltIn(j)
      invariant Wrote(out, q, done)
    {
      var name := BuiltIn(i);
      out := SetField(out, name, q, done);
      done := done + {name};
    }
  }

  lemma ClassLimitUpdate(classes: map<string, string>, key: string, value: string, r: Resource)
    ensures ClassLimit(classes[key := value], r)
         == if r == ResourceOf(key) then Some(Normalize(value)) else ClassLimit(classes, r)
  {
  }

  ghost predicate ClassesAdded(limits: map<Resource, string>, hard: map<Resource, string>,
                               classes: map<string, string>)
  {
    forall r :: Lookup(limits, r) == OrElse(ClassLimit(classes, r), Lookup(hard, r))
  }

  /** One turn of the loop over the storage classes; None once resource.MustParse has panicked. */
  function WithClass(limits: Option<map<Resource, string>>, item: StorageClassQuota): Option<map<Resource, string>> {
    if limits.None? || !ClassParses(item) then None
    else if item.key == "" then limits
    else Some(limits.value[ResourceOf(item.key) := Normalize(item.value)])
  }

  function WithClasses(hard: map<Resource, string>, items: seq<StorageClassQuota>): Option<map<Resource, string>> {
    if items == [] then Some(hard) else WithClass(WithClasses(hard, items[..|items| - 1]), items[|items| - 1])
  }

  lemma {:induction false} WithClassesParse(hard: map<Resource, string>, items: seq<StorageClassQuota>)
    ensures WithClasses(hard, items).Some? <==> AllClassesParse(items)
  {
    if items == [] {
    } else {
      var before := items[..|items| - 1];
      WithClassesParse(hard, before);
      assert forall i :: 0 <= i < |before| ==> before[i] == items[i];
      assert AllClassesParse(items) <==> AllClassesParse(before) && ClassParses(items[|items| - 1]);
    }
  }

  lemma {:induction false} WithClassesLimits(hard: map<Resource, string>, items: seq<StorageClassQuota>)
    requires WithClasses(hard, items).Some?
    ensures ClassesAdded(WithClasses(hard, items).value, hard, ClassMap(items))
  {
    if items == [] {
    } else {
      var before, last := items[..|items| - 1], items[|items| - 1];
      WithClassesLimits(hard, before);
      forall r {
        ClassLimitUpdate(ClassMap(before), last.key, last.value, r);
      }
    }
  }

  method AddStorageClasses(hard: map<Resource, string>, items: seq<StorageClassQuota>)
    returns (out: Option<map<Resource, string>>)
    ensures out == WithClasses(hard, items)
  {
    out := Some(hard);
    for i := 0 to |items|
      invariant out == WithClasses(hard, items[..i])
    {
      assert items[..i + 1][..i] == items[..i];
      out := WithClass(out, items[i]);
    }
    assert items[..|items|] == items;
  }

  lemma HardIs(q: ResourceQuotaSpec, fields: map<Resource, string>, hard: map<Resource, string>)
    requires Wrote(Some(fields), q, QUOTA_FIELDS)
    requires ClassesAdded(hard, fields, ClassMap(q.storageClasses))
    ensures hard == Hard(Meaning(q))
  {
    forall r
      ensures Lookup(hard, r) == Lookup(Hard(Meaning(q)), r)
    {
      HardLookup(Meaning(q), r);
    }
    SameLookup(hard, Hard(Meaning(q)));
  }

  // ---------------------------------------------------------------- the hard limits by the fields of the block

  /** No storage-class item has this key. */
  predicate NoClass(q: ResourceQuotaSpec, key: string) {
    forall i | 0 <= i < |q.storageClasses| :: q.storageClasses[i].key != key
  }

  /** A field's quantity as it is given to the cluster: normalised, and not at all when unset or blank. */
  predicate IsLimit(limit: Option<string>, text: Option<string>) {
    limit == if text.Some? && Trim(text.value) != "" then Some(Normalize(text.value)) else None
  }

  predicate IsCount(limit: Option<string>, n: Option<int>) {
    limit == if n.Some? then Some(Decimal(n.value)) else None
  }

  /** The hard limits of the counted resources. */
  predicate CountsByField(q: ResourceQuotaSpec, hard: map<Resource, string>) {
    && (NoClass(q, "pods") ==> IsCount(Lookup(hard, Pods), q.pods))
    && (NoClass(q, "replicationcontrollers") ==>
          IsCount(Lookup(hard, ReplicationControllers), q.replicationControllers))
    && (NoClass(q, "resourcequotas") ==> IsCount(Lookup(hard, ResourceQuotaObjects), q.resourceQuotas))
    && (NoClass(q, "services") ==> IsCount(Lookup(hard, Services), q.services))
    && (NoClass(q, "secrets") ==> IsCount(Lookup(hard, Secrets), q.secrets))
    && (NoClass(q, "configmaps") ==> IsCount(Lookup(hard, ConfigMaps), q.configMaps))
    && (NoClass(q, "persistentvolumeclaims") ==>
          IsCount(Lookup(hard, PersistentVolumeClaims), q.persistentVolumeClaims))
  }

  predicate TextsByField(q: ResourceQuotaSpec, hard: map<Resource, string>) {
    && (NoClass(q, "cpu") ==> IsLimit(Lookup(hard, CPU), q.cpu))
    && (NoClass(q, "memory") ==> IsLimit(Lookup(hard, Memory), q.memory))
    && (NoClass(q, "ephemeral-storage") ==> IsLimit(Lookup(hard, EphemeralStorage), q.ephemeralStorage))
  }

  predicate LimitsByField(q: ResourceQuotaSpec, hard: map<Resource, string>) {
    var given := if q.limits.Some? then q.limits.value else QuotaLimits(None, None, None);
    && (NoClass(q, "limits.cpu") ==> IsLimit(Lookup(hard, LimitsCPU), given.cpu))
    && (NoClass(q, "limits.memory") ==> IsLimit(Lookup(hard, LimitsMemory), given.memory))
    && (NoClass(q, "limits.ephemeral-storage") ==>
          IsLimit(Lookup(hard, LimitsEphemeralStorage), given.ephemeralStorage))
  }

  predicate RequestsByField(q: ResourceQuotaSpec, hard: map<Resource, string>) {
    var given := if q.requests.Some? then q.requests.value else QuotaRequests(None, None, None, None);
    && (NoClass(q, "requests.cpu") ==> IsLimit(Lookup(hard, RequestsCPU), given.cpu))
    && (NoClass(q, "requests.memory") ==> IsLimit(Lookup(hard, RequestsMemory), given.memory))
    && (NoClass(q, "requests.storage") ==> IsLimit(Lookup(hard, RequestsStorage), given.storage))
    && (NoClass(q, "requests.ephemeral-storage") ==>
          IsLimit(Lookup(hard, RequestsEphemeralStorage), given.ephemeralStorage))
  }

  /** The last item of a storage class is its limit, whatever a field of that name says. */
  ghost predicate LimitsByClass(q: ResourceQuotaSpec, hard: map<Resource, string>) {
    forall i | 0 <= i < |q.storageClasses| && IsLastClass(q.storageClasses, i) ::
      Lookup(hard, ResourceOf(q.storageClasses[i].key)) == Some(Normalize(q.storageClasses[i].value))
  }

  /** Every hard limit, by the fields and the storage classes of the block. */
  ghost predicate HardByField(q: ResourceQuotaSpec, hard: map<Resource, string>) {
    && CountsByField(q, hard) && TextsByField(q, hard) && LimitsByField(q, hard) && RequestsByField(q, hard)
    && LimitsByClass(q, hard)
  }

  lemma FieldHard(q: ResourceQuotaSpec, i: nat)
    requires i < 17 && NoClass(q, NameOf(BuiltIn(i)))
    ensures Lookup(Hard(Meaning(q)), BuiltIn(i)) == Compiled(QuotaField(q, BuiltIn(i)))
  {
    var r := BuiltIn(i);
    HardLookup(Meaning(q), r);
    ClassMapIsLast(q.storageClasses, NameOf(r));
    assert Lookup(FieldMap(q), r) == QuotaField(q, r);
  }

  lemma CountHard(q: ResourceQuotaSpec, i: nat, r: Resource, key: string, n: Option<int>)
    requires i < 17 && BuiltIn(i) == r && NameOf(r) == key && FieldOf(q, r) == Count(n)
    ensures NoClass(q, key) ==> IsCount(Lookup(Hard(Meaning(q)), r), n)
  {
    if NoClass(q, key) {
      FieldHard(q, i);
      if n.Some? { CountsCompile(n.value); }
    }
  }

  lemma TextHard(q: ResourceQuotaSpec, i: nat, r: Resource, key: string, text: Option<string>)
    requires i < 17 && BuiltIn(i) == r && NameOf(r) == key && FieldOf(q, r) == Text(text)
    ensures NoClass(q, key) ==> IsLimit(Lookup(Hard(Meaning(q)), r), text)
  {
    if NoClass(q, key) {
      FieldHard(q, i);
    }
  }

  lemma CountsHard(q: ResourceQuotaSpec)
    ensures CountsByField(q, Hard(Meaning(q)))
  {
    CountHard(q, 0, Pods, "pods", q.pods);
    CountHard(q, 4, ReplicationControllers, "replicationcontrollers", q.replicationControllers);
    CountHard(q, 5, ResourceQuotaObjects, "resourcequotas", q.resourceQuotas);
    CountHard(q, 6, Services, "services", q.services);
    CountHard(q, 7, Secrets, "secrets", q.secrets);
    CountHard(q, 8, ConfigMaps, "configmaps", q.configMaps);
    CountHard(q, 9, PersistentVolumeClaims, "persistentvolumeclaims", q.persistentVolumeClaims);
  }

  lemma TextsHard(q: ResourceQuotaSpec)
    ensures TextsByField(q, Hard(Meaning(q)))
  {
    TextHard(q, 1, CPU, "cpu", q.cpu);
    TextHard(q, 2, Memory, "memory", q.memory);
    TextHard(q, 3, EphemeralStorage, "ephemeral-storage", q.ephemeralStorage);
  }

  lemma LimitsHard(q: ResourceQuotaSpec)
    ensures LimitsByField(q, Hard(Meaning(q)))
  {
    var given := if q.limits.Some? then q.limits.value else QuotaLimits(None, None, None);
    TextHard(q, 10, LimitsCPU, "limits.cpu", given.cpu);
    TextHard(q, 11, LimitsMemory, "limits.memory", given.memory);
    TextHard(q, 12, LimitsEphemeralStorage, "limits.ephemeral-storage", given.ephemeralStorage);
  }

  lemma RequestsHard(q: ResourceQuotaSpec)
    ensures RequestsByField(q, Hard(Meaning(q)))
  {
    var given := if q.requests.Some? then q.requests.value else QuotaRequests(None, None, None, None);
    TextHard(q, 13, RequestsCPU, "requests.cpu", given.cpu);
    TextHard(q, 14, RequestsMemory, "requests.memory", given.memory);
    TextHard(q, 15, RequestsStorage, "requests.storage", given.storage);
    TextHard(q, 16, RequestsEphemeralStorage, "requests.ephemeral-storage", given.ephemeralStorage);
  }

  lemma ClassesHard(q: ResourceQuotaSpec)
    ensures LimitsByClass(q, Hard(Meaning(q)))
  {
    forall i | IsLastClass(q.storageClasses, i)
      ensures Lookup(Hard(Meaning(q)), ResourceOf(q.storageClasses[i].key))
           == Some(Normalize(q.storageClasses[i].value))
    {
      ClassMapIsLast(q.storageClasses, q.storageClasses[i].key);
      HardLookup(Meaning(q), ResourceOf(q.storageClasses[i].key));
    }
  }

  lemma {:induction false} NamedAt(key: string, i: nat, j: nat)
    requires i <= j < 18 && NameOf(BuiltIn(j)) == key && forall k | i <= k < j :: NameOf(BuiltIn(k)) != key
    ensures NamedFrom(key, i) == BuiltIn(j)
    decreases j - i
  {
    if i < j { NamedAt(key, i + 1, j); }
  }

  /** A storage-class key spelt like a built-in resource is that resource. */
  lemma CountedNames()
    ensures ResourceOf("pods") == Pods && ResourceOf("services") == Services && ResourceOf("secrets") == Secrets
    ensures ResourceOf("replicationcontrollers") == ReplicationControllers && ResourceOf("configmaps") == ConfigMaps
    ensures ResourceOf("resourcequotas") == ResourceQuotaObjects
    ensures ResourceOf("persistentvolumeclaims") == PersistentVolumeClaims
  {
    NamedAt("pods", 0, 0);
    NamedAt("replicationcontrollers", 0, 4);
    NamedAt("resourcequotas", 0, 5);
    NamedAt("services", 0, 6);
    NamedAt("secrets", 0, 7);
    NamedAt("configmaps", 0, 8);
    NamedAt("persistentvolumeclaims", 0, 9);
  }

  lemma MeasuredNames()
    ensures ResourceOf("cpu") == CPU && ResourceOf("memory") == Memory
    ensures ResourceOf("ephemeral-storage") == EphemeralStorage
    ensures ResourceOf("limits.cpu") == LimitsCPU && ResourceOf("limits.memory") == LimitsMemory
    ensures ResourceOf("limits.ephemeral-storage") == LimitsEphemeralStorage
  {
  }

  lemma RequestedNames()
    ensures ResourceOf("requests.cpu") == RequestsCPU && ResourceOf("requests.memory") == RequestsMemory
    ensures ResourceOf("requests.storage") == RequestsStorage
    ensures ResourceOf("requests.ephemeral-storage") == RequestsEphemeralStorage
    ensures ResourceOf("storage") == Storage
  {
    NamedAt("requests.cpu", 0, 13);
    NamedAt("requests.memory", 0, 14);
    NamedAt("requests.storage", 0, 15);
    NamedAt("requests.ephemeral-storage", 0, 16);
    NamedAt("storage", 0, 17);
  }

  lemma HardIsByField(q: ResourceQuotaSpec)
    ensures HardByField(q, Hard(Meaning(q)))
  {
    CountsHard(q);
    TextsHard(q);
    LimitsHard(q);
    RequestsHard(q);
    ClassesHard(q);
  }

  /** The builder succeeds exactly when every text parses, and then yields the hard limits of the
      block's meaning: the order and the duplicates of the storage-class list do not show. */
  method BuildResourceQuotaHard(q: ResourceQuotaSpec) returns (out: Option<map<Resource, string>>)
    ensures out.Some? <==> QuotaParses(q)
    ensures out.Some? ==> out.value == Hard(Meaning(q))
    ensures out.Some? ==> HardByField(q, out.value)
  {
    var fields := BuildQuotaFields(q);
    if fields.None? { return None; }
    out := AddStorageClasses(fields.value, q.storageClasses);
    WithClassesParse(fields.value, q.storageClasses);
    if out.Some? {
      WithClassesLimits(fields.value, q.storageClasses);
      HardIs(q, fields.value, out.value);
      HardIsByField(q);
    }
  }

  // ---------------------------------------------------------------- merge then compile

  /** An override text that is blank takes the base's limit away, where nothing else writes that name. */
  predicate Blanked(b: QuotaMeaning, o: QuotaMeaning, r: Resource) {
    && r in o.fields && Trim(o.fields[r]) == ""
    && r in b.fields && Trim(b.fields[r]) != ""
    && ClassLimit(b.classes, r).None? && ClassLimit(o.classes, r).None?
  }

  /** A storage-class entry of the base is spelt like a built-in resource that the override sets otherwise. */
  predicate Shadowed(b: QuotaMeaning, o: QuotaMeaning, r: Resource) {
    && r in o.fields && Trim(o.fields[r]) != ""
    && ClassLimit(o.classes, r).None?
    && ClassLimit(b.classes, r).Some? && ClassLimit(b.classes, r).value != Normalize(o.fields[r])
  }

  lemma MergedClassLimit(b: map<string, string>, o: map<string, string>, r: Resource)
    ensures ClassLimit(b + o, r) == OrElse(ClassLimit(o, r), ClassLimit(b, r))
  {
  }

  /** The claim below about one resource, with what the two blocks say about it as `cb`, `fb` and `co`, `fo`. */
  lemma MergedTexts(cb: Option<string>, fb: Option<string>, co: Option<string>, fo: Option<string>)
    ensures OrElse(OrElse(co, cb), Compiled(OrElse(fo, fb)))
         == OrElse(OrElse(co, Compiled(fo)), OrElse(cb, Compiled(fb)))
       <==> && !(fo.Some? && Trim(fo.value) == "" && fb.Some? && Trim(fb.value) != "" && cb.None? && co.None?)
            && !(fo.Some? && Trim(fo.value) != "" && co.None? && cb.Some? && cb.value != Normalize(fo.value))
  {
  }

  lemma MergeThenCompileAt(b: QuotaMeaning, o: QuotaMeaning, r: Resource)
    ensures HardAt(Combine(b, o), r) == OrElse(HardAt(o, r), HardAt(b, r))
       <==> !Blanked(b, o, r) && !Shadowed(b, o, r)
  {
    MergedClassLimit(b.classes, o.classes, r);
    MergedTexts(ClassLimit(b.classes, r), Lookup(b.fields, r), ClassLimit(o.classes, r), Lookup(o.fields, r));
    assert Lookup(b.fields + o.fields, r) == OrElse(Lookup(o.fields, r), Lookup(b.fields, r));
  }

  /** Compiling a merged quota is overriding the base's hard limits by the override's, exactly when the
      override blanks no field of the base and no storage-class entry of the base shadows an overridden field. */
  lemma MergeThenCompile(b: QuotaMeaning, o: QuotaMeaning)
    ensures Hard(Combine(b, o)) == Hard(b) + Hard(o)
       <==> forall r | r in o.fields :: !Blanked(b, o, r) && !Shadowed(b, o, r)
  {
    var m := Combine(b, o);
    forall r
      ensures Lookup(Hard(m), r) == Lookup(Hard(b) + Hard(o), r) <==> !Blanked(b, o, r) && !Shadowed(b, o, r)
    {
      HardLookup(m, r);
      HardLookup(b, r);
      HardLookup(o, r);
      MergeThenCompileAt(b, o, r);
    }
    if forall r | r in o.fields :: !Blanked(b, o, r) && !Shadowed(b, o, r) {
      forall r
        ensures Lookup(Hard(m), r) == Lookup(Hard(b) + Hard(o), r)
      {
        assert r !in o.fields ==> !Blanked(b, o, r) && !Shadowed(b, o, r);
      }
      SameLookup(Hard(m), Hard(b) + Hard(o));
    }
  }

  /** The usual case: no override text is blank and no storage class of the base is named like a built-in. */
  lemma MergeThenCompileUsually(b: QuotaMeaning, o: QuotaMeaning)
    requires forall r | r in o.fields :: Trim(o.fields[r]) != "" && ClassLimit(b.classes, r).None?
    ensures Hard(Combine(b, o)) == Hard(b) + Hard(o)
  {
    MergeThenCompile(b, o);
  }

  /** A blank override takes the catalogue's CPU limit away. */
  lemma BlankOverrideRemoves()
    ensures var b, o := NO_QUOTA.(fields := map[CPU := "1"]), NO_QUOTA.(fields := map[CPU := ""]);
      CPU !in Hard(Combine(b, o)) && CPU in Hard(b) + Hard(o)
  {
    var b, o := NO_QUOTA.(fields := map[CPU := "1"]), NO_QUOTA.(fields := map[CPU := ""]);
    HardLookup(Combine(b, o), CPU);
    HardLookup(b, CPU);
    assert Trim("") == "" && Trim("1") == "1";
    assert ClassLimit(map[], CPU) == None;
  }

  /** A storage-class entry spelt "cpu" in the catalogue shadows the override's CPU limit. */
  lemma ClassShadowsOverride()
    ensures var b, o := NO_QUOTA.(classes := map["cpu" := "2"]), NO_QUOTA.(fields := map[CPU := "1"]);
      Lookup(Hard(Combine(b, o)), CPU) == Some("2") && Lookup(Hard(b) + Hard(o), CPU) == Some("1")
  {
    var b, o := NO_QUOTA.(classes := map["cpu" := "2"]), NO_QUOTA.(fields := map[CPU := "1"]);
    HardLookup(Combine(b, o), CPU);
    HardLookup(o, CPU);
    assert Trim("1") == "1";
    assert ResourceOf("cpu") == CPU;
    NormalizeIsIdentity("1");
    NormalizeIsIdentity("2");
    assert ClassLimit(map["cpu" := "2"], CPU) == Some("2");
    assert ClassLimit(map[], CPU) == None;
  }

  // ---------------------------------------------------------------- limit ranges

  datatype LimitKind = PodKind | ContainerKind | ClaimKind

  datatype Bound = Max | Min | Default | DefaultRequest

  /** One value of a limit range: kind of workload, bound, resource. */
  datatype Slot = Slot(kind: LimitKind, bound: Bound, resource: Resource)

  datatype LimitRangeItem = LimitRangeItem(
    kind: LimitKind, max: map<Resource, string>, min: map<Resource, string>,
    default: map<Resource, string>, defaultRequest: map<Resource, string>)
  {
    function At(bound: Bound): map<Resource, string> {
      match bound
      case Max => max
      case Min => min
      case Default => default
      case DefaultRequest => defaultRequest
    }
  }

  function AmountText(amount: Option<ResourceAmount>, r: Resource): Option<string> {
    if amount.None? then None
    else match r
      case CPU => amount.value.cpu
      case Memory => amount.value.memory
      case _ => None
  }

  function StorageText(amount: Option<StorageAmount>, r: Resource): Option<string> {
    if amount.Some? && r == Storage then amount.value.storage else None
  }

  /** The text a limit range gives for a slot. */
  function LimitText(spec: LimitRangeSpec, slot: Slot): Option<string> {
    match slot.kind
    case PodKind =>
      if spec.pod.None? then None
      else (match slot.bound
        case Max => AmountText(spec.pod.value.max, slot.resource)
        case Min => AmountText(spec.pod.value.min, slot.resource)
        case _ => None)
    case ContainerKind =>
      if spec.container.None? then None
      else (match slot.bound
        case Max => AmountText(spec.container.value.max, slot.resource)
        case Min => AmountText(spec.container.value.min, slot.resource)
        case Default => AmountText(spec.container.value.default, slot.resource)
        case DefaultRequest => AmountText(spec.container.value.defaultRequest, slot.resource))
    case ClaimKind =>
      if spec.pvc.None? then None
      else (match slot.bound
        case Max => StorageText(spec.pvc.value.max, slot.resource)
        case Min => StorageText(spec.pvc.value.min, slot.resource)
        case _ => None)
  }

  predicate HasKind(spec: LimitRangeSpec, kind: LimitKind) {
    match kind
    case PodKind => spec.pod.Some?
    case ContainerKind => spec.container.Some?
    case ClaimKind => spec.pvc.Some?
  }

  /** `m` is `o` laid over `b`, kind by kind and slot by slot. */
  ghost predicate LimitsOverridden(m: LimitRangeSpec, b: LimitRangeSpec, o: LimitRangeSpec) {
    && (forall kind :: HasKind(m, kind) <==> HasKind(b, kind) || HasKind(o, kind))
    && (forall slot :: LimitText(m, slot) == OrElse(LimitText(o, slot), LimitText(b, slot)))
  }

  method MergeResourceAmount(base: Option<ResourceAmount>, over: Option<ResourceAmount>)
    returns (out: Option<ResourceAmount>)
    ensures out.Some? <==> base.Some? || over.Some?
    ensures forall r :: AmountText(out, r) == OrElse(AmountText(over, r), AmountText(base, r))
  {
    if over.None? { return base; }
    var merged := if base.Some? then base.value else ResourceAmount(None, None);
    if over.value.cpu.Some? { merged := merged.(cpu := over.value.cpu); }
    if over.value.memory.Some? { merged := merged.(memory := over.value.memory); }
    out := Some(merged);
  }

  method MergeLimitRangePod(base: Option<PodLimits>, over: Option<PodLimits>) returns (out: Option<PodLimits>)
    ensures LimitsOverridden(EMPTY_LIMITS.(pod := out), EMPTY_LIMITS.(pod := base), EMPTY_LIMITS.(pod := over))
  {
    if over.None? { return base; }
    var merged := if base.Some? then base.value else PodLimits(None, None);
    var max := MergeResourceAmount(merged.max, over.value.max);
    var min := MergeResourceAmount(merged.min, over.value.min);
    out := Some(PodLimits(max, min));
  }

  method MergeLimitRangeContainer(base: Option<ContainerLimits>, over: Option<ContainerLimits>)
    returns (out: Option<ContainerLimits>)
    ensures LimitsOverridden(EMPTY_LIMITS.(container := out), EMPTY_LIMITS.(container := base),
                             EMPTY_LIMITS.(container := over))
  {
    if over.None? { return base; }
    var merged := if base.Some? then base.value else ContainerLimits(None, None, None, None);
    var max := MergeResourceAmount(merged.max, over.value.max);
    var min := MergeResourceAmount(merged.min, over.value.min);
    var default := MergeResourceAmount(merged.default, over.value.default);
    var defaultRequest := MergeResourceAmount(merged.defaultRequest, over.value.defaultRequest);
    out := Some(ContainerLimits(max, min, default, defaultRequest));
  }

  method MergeStorageAmount(base: Option<StorageAmount>, over: Option<StorageAmount>)
    returns (out: Option<StorageAmount>)
    ensures forall r :: StorageText(out, r) == OrElse(StorageText(over, r), StorageText(base, r))
  {
    out := base;
    if over.Some? {
      if out.None? { out := Some(StorageAmount(None)); }
      if over.value.storage.Some? { out := Some(StorageAmount(over.value.storage)); }
    }
  }

  method MergeLimitRangePVC(base: Option<ClaimLimits>, over: Option<ClaimLimits>) returns (out: Option<ClaimLimits>)
    ensures LimitsOverridden(EMPTY_LIMITS.(pvc := out), EMPTY_LIMITS.(pvc := base), EMPTY_LIMITS.(pvc := over))
  {
    if over.None? { return base; }
    var merged := if base.Some? then base.value else ClaimLimits(None, None);
    var min := MergeStorageAmount(merged.min, over.value.min);
    var max := MergeStorageAmount(merged.max, over.value.max);
    out := Some(ClaimLimits(min, max));
  }

  function OrNoLimits(spec: Option<LimitRangeSpec>): LimitRangeSpec {
    if spec.Some? then spec.value else EMPTY_LIMITS
  }

  method EnsureLimitRangeEnabled(spec: Option<LimitRangeSpec>) returns (out: Option<LimitRangeSpec>)
    ensures out == if spec.Some? then Some(spec.value.(enabled := OrElse(spec.value.enabled, Some(true)))) else None
  {
    out := spec;
    if out.Some? && out.value.enabled.None? {
      out := Some(out.value.(enabled := Some(true)));
    }
  }

  lemma MergedLimits(m: LimitRangeSpec, b: LimitRangeSpec, o: LimitRangeSpec)
    requires LimitsOverridden(EMPTY_LIMITS.(pod := m.pod), EMPTY_LIMITS.(pod := b.pod), EMPTY_LIMITS.(pod := o.pod))
    requires LimitsOverridden(EMPTY_LIMITS.(container := m.container), EMPTY_LIMITS.(container := b.container),
                              EMPTY_LIMITS.(container := o.container))
    requires LimitsOverridden(EMPTY_LIMITS.(pvc := m.pvc), EMPTY_LIMITS.(pvc := b.pvc), EMPTY_LIMITS.(pvc := o.pvc))
    ensures LimitsOverridden(m, b, o)
  {
    forall kind
      ensures HasKind(m, kind) <==> HasKind(b, kind) || HasKind(o, kind)
    {
      assert kind == PodKind ==> HasKind(EMPTY_LIMITS.(pod := m.pod), kind) == HasKind(m, kind);
      assert kind == ContainerKind ==> HasKind(EMPTY_LIMITS.(container := m.container), kind) == HasKind(m, kind);
      assert kind == ClaimKind ==> HasKind(EMPTY_LIMITS.(pvc := m.pvc), kind) == HasKind(m, kind);
    }
    forall slot
      ensures LimitText(m, slot) == OrElse(LimitText(o, slot), LimitText(b, slot))
    {
      match slot.kind
      case PodKind => assert LimitText(EMPTY_LIMITS.(pod := m.pod), slot) == LimitText(m, slot);
      case ContainerKind => assert LimitText(EMPTY_LIMITS.(container := m.container), slot) == LimitText(m, slot);
      case ClaimKind => assert LimitText(EMPTY_LIMITS.(pvc := m.pvc), slot) == LimitText(m, slot);
    }
  }

  method MergeLimitRangeSpec(base: Option<LimitRangeSpec>, over: Option<LimitRangeSpec>)
    returns (out: Option<LimitRangeSpec>)
    ensures out.Some? <==> base.Some? || over.Some?
    ensures LimitsOverridden(OrNoLimits(out), OrNoLimits(base), OrNoLimits(over))
    ensures out.Some? ==> out.value.enabled == OverrideFlag(OrNoLimits(base).enabled, OrNoLimits(over).enabled)
  {
    if base.None? && over.None? { return None; }
    var spec := OrNoLimits(base);
    if over.None? {
      out := EnsureLimitRangeEnabled(Some(spec));
      return;
    }
    if over.value.enabled.Some? { spec := spec.(enabled := over.value.enabled); }
    var pod := MergeLimitRangePod(spec.pod, over.value.pod);
    var container := MergeLimitRangeContainer(spec.container, over.value.container);
    var pvc := MergeLimitRangePVC(spec.pvc, over.value.pvc);
    spec := spec.(pod := pod, container := container, pvc := pvc);
    MergedLimits(spec, OrNoLimits(base), over.value);
    out := EnsureLimitRangeEnabled(Some(spec));
    assert forall slot :: LimitText(out.value, slot) == LimitText(spec, slot);
    assert forall kind :: HasKind(out.value, kind) == HasKind(spec, kind);
  }

  /** What resource.MustParse is given for a limit: CPU as written, everything else normalised. */
  function LimitParsed(slot: Slot, text: string): string {
    if slot.resource == CPU then text else Normalize(text)
  }

  predicate SlotParses(spec: LimitRangeSpec, slot: Slot) {
    LimitText(spec, slot).Some? ==> IsQuantity(LimitParsed(slot, LimitText(spec, slot).value))
  }

  /** The compiled bound of one kind, restricted to the resources in `names`. */
  function BoundOver(spec: LimitRangeSpec, kind: LimitKind, bound: Bound, names: set<Resource>): map<Resource, string> {
    map r | r in names && LimitText(spec, Slot(kind, bound, r)).Some? ::
      LimitParsed(Slot(kind, bound, r), LimitText(spec, Slot(kind, bound, r)).value)
  }

  const LIMITED := {CPU, Memory, Storage}

  function CompiledItem(spec: LimitRangeSpec, kind: LimitKind): LimitRangeItem {
    LimitRangeItem(kind, BoundOver(spec, kind, Max, LIMITED), BoundOver(spec, kind, Min, LIMITED),
                   BoundOver(spec, kind, Default, LIMITED), BoundOver(spec, kind, DefaultRequest, LIMITED))
  }

  function ItemFor(spec: LimitRangeSpec, kind: LimitKind): seq<LimitRangeItem> {
    if HasKind(spec, kind) then [CompiledItem(spec, kind)] else []
  }

  function LimitItems(spec: LimitRangeSpec): seq<LimitRangeItem> {
    ItemFor(spec, PodKind) + ItemFor(spec, ContainerKind) + ItemFor(spec, ClaimKind)
  }

  predicate BoundParses(spec: LimitRangeSpec, kind: LimitKind, bound: Bound) {
    forall r | r in LIMITED :: SlotParses(spec, Slot(kind, bound, r))
  }

  predicate KindParses(spec: LimitRangeSpec, kind: LimitKind) {
    && BoundParses(spec, kind, Max) && BoundParses(spec, kind, Min)
    && BoundParses(spec, kind, Default) && BoundParses(spec, kind, DefaultRequest)
  }

  /** Every text of the block that reaches resource.MustParse is a quantity. */
  predicate LimitsParse(spec: LimitRangeSpec) {
    KindParses(spec, PodKind) && KindParses(spec, ContainerKind) && KindParses(spec, ClaimKind)
  }

  /** The bound written so far; None once resource.MustParse has panicked. */
  ghost predicate WroteBound(list: Option<map<Resource, string>>, spec: LimitRangeSpec, kind: LimitKind, bound: Bound,
                             done: set<Resource>)
  {
    && (list.Some? <==> forall r | r in done :: SlotParses(spec, Slot(kind, bound, r)))
    && (list.Some? ==> list.value == BoundOver(spec, kind, bound, done))
  }

  method SetLimit(list: Option<map<Resource, string>>, spec: LimitRangeSpec, slot: Slot, ghost done: set<Resource>)
    returns (out: Option<map<Resource, string>>)
    requires WroteBound(list, spec, slot.kind, slot.bound, done)
    ensures WroteBound(out, spec, slot.kind, slot.bound, done + {slot.resource})
  {
    out := list;
    assert slot == Slot(slot.kind, slot.bound, slot.resource);
    var text := LimitText(spec, slot);
    if list.Some? && text.Some? {
      out := if SlotParses(spec, slot) then Some(list.value[slot.resource := LimitParsed(slot, text.value)]) else None;
    }
    assert slot.resource in done + {slot.resource};
  }

  /** One bound of one item; an empty map stands for no bound at all. */
  method BuildBound(spec: LimitRangeSpec, kind: LimitKind, bound: Bound) returns (out: Option<map<Resource, string>>)
    ensures out.Some? <==> BoundParses(spec, kind, bound)
    ensures out.Some? ==> out.value == BoundOver(spec, kind, bound, LIMITED)
  {
    out := Some(map[]);
    out := SetLimit(out, spec, Slot(kind, bound, CPU), {});
    out := SetLimit(out, spec, Slot(kind, bound, Memory), {CPU});
    out := SetLimit(out, spec, Slot(kind, bound, Storage), {CPU, Memory});
    assert {} + {CPU} == {CPU} && {CPU} + {Memory} == {CPU, Memory} && {CPU, Memory} + {Storage} == LIMITED;
  }

  method AddItem(items: seq<LimitRangeItem>, spec: LimitRangeSpec, kind: LimitKind)
    returns (out: Option<seq<LimitRangeItem>>)
    ensures out.Some? <==> KindParses(spec, kind)
    ensures out.Some? ==> out.value == items + ItemFor(spec, kind)
  {
    var max := BuildBound(spec, kind, Max);
    var min := BuildBound(spec, kind, Min);
    var default := BuildBound(spec, kind, Default);
    var defaultRequest := BuildBound(spec, kind, DefaultRequest);
    if max.None? || min.None? || default.None? || defaultRequest.None? { return None; }
    var item := LimitRangeItem(kind, max.value, min.value, default.value, defaultRequest.value);
    out := Some(if HasKind(spec, kind) then items + [item] else items);
  }

  // ---------------------------------------------------------------- the items by the fields of the limit range

  /** CPU as written, memory normalised, nothing else. */
  predicate IsAmountList(list: map<Resource, string>, amount: Option<ResourceAmount>) {
    var given := if amount.Some? then amount.value else EMPTY_AMOUNT;
    && Lookup(list, CPU) == given.cpu
    && Lookup(list, Memory) == (if given.memory.Some? then Some(Normalize(given.memory.value)) else None)
    && list.Keys <= {CPU, Memory}
  }

  predicate IsStorageList(list: map<Resource, string>, amount: Option<StorageAmount>) {
    && Lookup(list, Storage)
       == (if amount.Some? && amount.value.storage.Some? then Some(Normalize(amount.value.storage.value)) else None)
    && list.Keys <= {Storage}
  }

  predicate IsPodItem(item: LimitRangeItem, pod: PodLimits) {
    && item.kind == PodKind && IsAmountList(item.max, pod.max) && IsAmountList(item.min, pod.min)
    && item.default == map[] && item.defaultRequest == map[]
  }

  predicate IsContainerItem(item: LimitRangeItem, container: ContainerLimits) {
    && item.kind == ContainerKind && IsAmountList(item.max, container.max) && IsAmountList(item.min, container.min)
    && IsAmountList(item.default, container.default) && IsAmountList(item.defaultRequest, container.defaultRequest)
  }

  predicate IsClaimItem(item: LimitRangeItem, pvc: ClaimLimits) {
    && item.kind == ClaimKind && IsStorageList(item.max, pvc.max) && IsStorageList(item.min, pvc.min)
    && item.default == map[] && item.defaultRequest == map[]
  }

  /** One item for each kind given, in the order pod, container, claim. */
  predicate ItemsByField(spec: LimitRangeSpec, items: seq<LimitRangeItem>) {
    var pods := if spec.pod.Some? then 1 else 0;
    var containers := pods + if spec.container.Some? then 1 else 0;
    && |items| == containers + (if spec.pvc.Some? then 1 else 0)
    && (spec.pod.Some? ==> IsPodItem(items[0], spec.pod.value))
    && (spec.container.Some? ==> IsContainerItem(items[pods], spec.container.value))
    && (spec.pvc.Some? ==> IsClaimItem(items[containers], spec.pvc.value))
  }

  function LimitAt(spec: LimitRangeSpec, slot: Slot): Option<string> {
    var text := LimitText(spec, slot);
    if slot.resource !in LIMITED || text.None? then None else Some(LimitParsed(slot, text.value))
  }

  lemma BoundLookup(spec: LimitRangeSpec, kind: LimitKind, bound: Bound, r: Resource)
    ensures Lookup(BoundOver(spec, kind, bound, LIMITED), r) == LimitAt(spec, Slot(kind, bound, r))
  {
  }

  lemma AmountList(spec: LimitRangeSpec, kind: LimitKind, bound: Bound, amount: Option<ResourceAmount>)
    requires forall r :: LimitText(spec, Slot(kind, bound, r)) == AmountText(amount, r)
    ensures IsAmountList(BoundOver(spec, kind, bound, LIMITED), amount)
  {
    BoundLookup(spec, kind, bound, CPU);
    BoundLookup(spec, kind, bound, Memory);
    assert LimitText(spec, Slot(kind, bound, CPU)) == AmountText(amount, CPU);
    assert LimitText(spec, Slot(kind, bound, Memory)) == AmountText(amount, Memory);
    assert LimitText(spec, Slot(kind, bound, Storage)) == AmountText(amount, Storage) == None;
  }

  lemma StorageList(spec: LimitRangeSpec, kind: LimitKind, bound: Bound, amount: Option<StorageAmount>)
    requires forall r :: LimitText(spec, Slot(kind, bound, r)) == StorageText(amount, r)
    ensures IsStorageList(BoundOver(spec, kind, bound, LIMITED), amount)
  {
    BoundLookup(spec, kind, bound, Storage);
    assert LimitText(spec, Slot(kind, bound, Storage)) == StorageText(amount, Storage);
    assert LimitText(spec, Slot(kind, bound, CPU)) == StorageText(amount, CPU) == None;
    assert LimitText(spec, Slot(kind, bound, Memory)) == StorageText(amount, Memory) == None;
  }

  lemma EmptyList(spec: LimitRangeSpec, kind: LimitKind, bound: Bound)
    requires forall r :: LimitText(spec, Slot(kind, bound, r)) == None
    ensures BoundOver(spec, kind, bound, LIMITED) == map[]
  {
    assert forall r :: LimitText(spec, Slot(kind, bound, r)) == None;
  }

  lemma PodItem(spec: LimitRangeSpec)
    requires spec.pod.Some?
    ensures IsPodItem(CompiledItem(spec, PodKind), spec.pod.value)
  {
    AmountList(spec, PodKind, Max, spec.pod.value.max);
    AmountList(spec, PodKind, Min, spec.pod.value.min);
    EmptyList(spec, PodKind, Default);
    EmptyList(spec, PodKind, DefaultRequest);
  }

  lemma ContainerItem(spec: LimitRangeSpec)
    requires spec.container.Some?
    ensures IsContainerItem(CompiledItem(spec, ContainerKind), spec.container.value)
  {
    AmountList(spec, ContainerKind, Max, spec.container.value.max);
    AmountList(spec, ContainerKind, Min, spec.container.value.min);
    AmountList(spec, ContainerKind, Default, spec.container.value.default);
    AmountList(spec, ContainerKind, DefaultRequest, spec.container.value.defaultRequest);
  }

  lemma ClaimItem(spec: LimitRangeSpec)
    requires spec.pvc.Some?
    ensures IsClaimItem(CompiledItem(spec, ClaimKind), spec.pvc.value)
  {
    StorageList(spec, ClaimKind, Max, spec.pvc.value.max);
    StorageList(spec, ClaimKind, Min, spec.pvc.value.min);
    EmptyList(spec, ClaimKind, Default);
    EmptyList(spec, ClaimKind, DefaultRequest);
  }

  lemma LimitItemsByField(spec: LimitRangeSpec)
    ensures ItemsByField(spec, LimitItems(spec))
  {
    if spec.pod.Some? { PodItem(spec); }
    if spec.container.Some? { ContainerItem(spec); }
    if spec.pvc.Some? { ClaimItem(spec); }
  }

  method CollectItems(spec: LimitRangeSpec) returns (out: Option<seq<LimitRangeItem>>)
    ensures out.Some? <==> LimitsParse(spec)
    ensures out.Some? ==> out.value == LimitItems(spec)
  {
    var items :- AddItem([], spec, PodKind);
    items :- AddItem(items, spec, ContainerKind);
    items :- AddItem(items, spec, ClaimKind);
    out := Some(items);
  }

  method BuildLimitRangeItems(spec: LimitRangeSpec) returns (out: Option<seq<LimitRangeItem>>)
    ensures out.Some? <==> LimitsParse(spec)
    ensures out.Some? ==> out.value == LimitItems(spec)
    ensures out.Some? ==> ItemsByField(spec, out.value)
  {
    out := CollectItems(spec);
    LimitItemsByField(spec);
  }

  lemma LimitAtMerged(m: LimitRangeSpec, b: LimitRangeSpec, o: LimitRangeSpec, slot: Slot)
    requires LimitsOverridden(m, b, o)
    ensures LimitAt(m, slot) == OrElse(LimitAt(o, slot), LimitAt(b, slot))
  {
    assert LimitText(m, slot) == OrElse(LimitText(o, slot), LimitText(b, slot));
  }

  lemma MergeThenCompileBound(m: LimitRangeSpec, b: LimitRangeSpec, o: LimitRangeSpec, kind: LimitKind, bound: Bound)
    requires LimitsOverridden(m, b, o)
    ensures BoundOver(m, kind, bound, LIMITED)
         == BoundOver(b, kind, bound, LIMITED) + BoundOver(o, kind, bound, LIMITED)
  {
    var left, base, over := BoundOver(m, kind, bound, LIMITED), BoundOver(b, kind, bound, LIMITED),
                            BoundOver(o, kind, bound, LIMITED);
    forall r
      ensures Lookup(left, r) == OrElse(Lookup(over, r), Lookup(base, r))
    {
      BoundLookup(m, kind, bound, r);
      BoundLookup(b, kind, bound, r);
      BoundLookup(o, kind, bound, r);
      LimitAtMerged(m, b, o, Slot(kind, bound, r));
    }
    LookupOverride(left, base, over);
  }

  lemma ItemForKind(spec: LimitRangeSpec, kind: LimitKind, item: LimitRangeItem)
    ensures item in ItemFor(spec, kind) <==> HasKind(spec, kind) && item == CompiledItem(spec, kind)
    ensures CompiledItem(spec, kind).kind == kind
  {
  }

  lemma ItemPresent(spec: LimitRangeSpec, kind: LimitKind)
    ensures CompiledItem(spec, kind) in LimitItems(spec) <==> HasKind(spec, kind)
  {
    var item := CompiledItem(spec, kind);
    var pods, containers, claims :=
      ItemFor(spec, PodKind), ItemFor(spec, ContainerKind), ItemFor(spec, ClaimKind);
    assert item in LimitItems(spec) <==> item in pods || item in containers || item in claims;
    ItemForKind(spec, PodKind, item);
    ItemForKind(spec, ContainerKind, item);
    ItemForKind(spec, ClaimKind, item);
  }

  /** Compiling a merged limit range is, kind by kind and bound by bound, overriding the base's item by
      the override's; a kind has an item exactly when either side has one. */
  lemma MergeThenCompileLimits(m: LimitRangeSpec, b: LimitRangeSpec, o: LimitRangeSpec, kind: LimitKind, bound: Bound)
    requires LimitsOverridden(m, b, o)
    ensures CompiledItem(m, kind).At(bound) == CompiledItem(b, kind).At(bound) + CompiledItem(o, kind).At(bound)
    ensures CompiledItem(m, kind) in LimitItems(m) <==>
      CompiledItem(b, kind) in LimitItems(b) || CompiledItem(o, kind) in LimitItems(o)
  {
    MergeThenCompileBound(m, b, o, kind, bound);
    ItemPresent(m, kind);
    ItemPresent(b, kind);
    ItemPresent(o, kind);
  }
}
