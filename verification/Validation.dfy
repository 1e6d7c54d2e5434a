/** Admission of sizing blocks, and why what is admitted compiles. */
module Validation {
  import opened Common
  import opened Quantities
  import opened Sizing
  import opened Api

  // ---------------------------------------------------------------- the walkers

  predicate AcceptsCpuIn(text: Option<string>) {
    text.Some? ==> AcceptsCpu(text.value)
  }

  predicate AcceptsBytesIn(text: Option<string>) {
    text.Some? ==> AcceptsBytes(text.value)
  }

  predicate AdmitsAmount(amount: Option<ResourceAmount>) {
    amount.Some? ==> AcceptsCpuIn(amount.value.cpu) && AcceptsBytesIn(amount.value.memory)
  }

  predicate AdmitsStorage(amount: Option<StorageAmount>) {
    amount.Some? ==> AcceptsBytesIn(amount.value.storage)
  }

  predicate AdmitsQuotaLimits(limits: Option<QuotaLimits>) {
    limits.Some? ==>
      && AcceptsCpuIn(limits.value.cpu) && AcceptsBytesIn(limits.value.memory)
      && AcceptsBytesIn(limits.value.ephemeralStorage)
  }

  predicate AdmitsQuotaRequests(requests: Option<QuotaRequests>) {
    requests.Some? ==>
      && AcceptsCpuIn(requests.value.cpu) && AcceptsBytesIn(requests.value.memory)
      && AcceptsBytesIn(requests.value.ephemeralStorage) && AcceptsBytesIn(requests.value.storage)
  }

  predicate AdmitsClass(item: StorageClassQuota) {
    AcceptsStorageClass(item.key, item.value)
  }

  predicate AdmitsQuota(q: ResourceQuotaSpec) {
    && AcceptsCpuIn(q.cpu) && AcceptsBytesIn(q.memory) && AcceptsBytesIn(q.ephemeralStorage)
    && AdmitsQuotaLimits(q.limits) && AdmitsQuotaRequests(q.requests)
    && forall i | 0 <= i < |q.storageClasses| :: AdmitsClass(q.storageClasses[i])
  }

  predicate AdmitsLimits(spec: LimitRangeSpec) {
    && (spec.pod.Some? ==> AdmitsAmount(spec.pod.value.max) && AdmitsAmount(spec.pod.value.min))
    && (spec.container.Some? ==>
          && AdmitsAmount(spec.container.value.max) && AdmitsAmount(spec.container.value.min)
          && AdmitsAmount(spec.container.value.default) && AdmitsAmount(spec.container.value.defaultRequest))
    && (spec.pvc.Some? ==> AdmitsStorage(spec.pvc.value.min) && AdmitsStorage(spec.pvc.value.max))
  }

  predicate AdmitsBlocks(quotas: Option<ResourceQuotaSpec>, limits: Option<LimitRangeSpec>) {
    (quotas.Some? ==> AdmitsQuota(quotas.value)) && (limits.Some? ==> AdmitsLimits(limits.value))
  }

  // ---------------------------------------------------------------- the same, text by text

  predicate IsCpu(r: Resource) {
    r.CPU? || r.LimitsCPU? || r.RequestsCPU?
  }

  /** The check a text of resource `r` passed. */
  predicate Accepts(r: Resource, text: string) {
    if IsCpu(r) then AcceptsCpu(text) else AcceptsBytes(text)
  }

  predicate AdmitsField(q: ResourceQuotaSpec, r: Resource) {
    FieldOf(q, r).Text? && FieldOf(q, r).text.Some? ==> Accepts(r, FieldOf(q, r).text.value)
  }

  lemma AdmittedFields(q: ResourceQuotaSpec, r: Resource)
    requires AdmitsQuota(q)
    ensures AdmitsField(q, r)
  {
  }

  predicate AcceptsIn(r: Resource, text: Option<string>) {
    text.Some? ==> Accepts(r, text.value)
  }

  lemma AdmittedTexts(q: ResourceQuotaSpec)
    requires AdmitsField(q, CPU) && AdmitsField(q, Memory) && AdmitsField(q, EphemeralStorage)
    ensures AcceptsCpuIn(q.cpu) && AcceptsBytesIn(q.memory) && AcceptsBytesIn(q.ephemeralStorage)
  {
  }

  lemma AdmittedQuotaLimits(q: ResourceQuotaSpec)
    requires AdmitsField(q, LimitsCPU) && AdmitsField(q, LimitsMemory) && AdmitsField(q, LimitsEphemeralStorage)
    ensures AdmitsQuotaLimits(q.limits)
  {
  }

  lemma AdmittedQuotaRequests(q: ResourceQuotaSpec)
    requires AdmitsField(q, RequestsCPU) && AdmitsField(q, RequestsMemory)
    requires AdmitsField(q, RequestsStorage) && AdmitsField(q, RequestsEphemeralStorage)
    ensures AdmitsQuotaRequests(q.requests)
  {
  }

  /** A quota is admitted exactly when every text of it is, CPU as a CPU quantity and the rest as bytes. */
  lemma AdmittedExactly(q: ResourceQuotaSpec)
    ensures AdmitsQuota(q) <==>
      && (forall r :: AdmitsField(q, r))
      && (forall i | 0 <= i < |q.storageClasses| :: AdmitsClass(q.storageClasses[i]))
  {
    if AdmitsQuota(q) {
      forall r
        ensures AdmitsField(q, r)
      {
        AdmittedFields(q, r);
      }
    }
    if forall r :: AdmitsField(q, r) {
      AdmittedTexts(q);
      AdmittedQuotaLimits(q);
      AdmittedQuotaRequests(q);
    }
  }

  predicate AdmitsSlot(spec: LimitRangeSpec, slot: Slot) {
    AcceptsIn(slot.resource, LimitText(spec, slot))
  }

  lemma AdmittedAmount(amount: Option<ResourceAmount>, r: Resource)
    requires AdmitsAmount(amount)
    ensures AcceptsIn(r, AmountText(amount, r))
  {
  }

  lemma AdmittedPodSlots(spec: LimitRangeSpec, slot: Slot)
    requires AdmitsLimits(spec) && slot.kind.PodKind?
    ensures AdmitsSlot(spec, slot)
  {
    if spec.pod.Some? {
      AdmittedAmount(spec.pod.value.max, slot.resource);
      AdmittedAmount(spec.pod.value.min, slot.resource);
    }
  }

  lemma AdmittedContainerSlots(spec: LimitRangeSpec, slot: Slot)
    requires AdmitsLimits(spec) && slot.kind.ContainerKind?
    ensures AdmitsSlot(spec, slot)
  {
    if spec.container.Some? {
      AdmittedAmount(spec.container.value.max, slot.resource);
      AdmittedAmount(spec.container.value.min, slot.resource);
      AdmittedAmount(spec.container.value.default, slot.resource);
      AdmittedAmount(spec.container.value.defaultRequest, slot.resource);
    }
  }

  lemma AdmittedSlots(spec: LimitRangeSpec, slot: Slot)
    requires AdmitsLimits(spec)
    ensures AdmitsSlot(spec, slot)
  {
    match slot.kind
    case PodKind => AdmittedPodSlots(spec, slot);
    case ContainerKind => AdmittedContainerSlots(spec, slot);
    case ClaimKind =>
  }

  // ---------------------------------------------------------------- what a caller can check

  /** The text of a field that reaches resource.MustParse has nothing around it. */
  predicate FieldTrimmed(q: ResourceQuotaSpec, r: Resource) {
    var text := QuotaField(q, r);
    text.Some? && Trim(text.value) != "" ==> IsTrimmed(text.value)
  }

  predicate ClassTrimmed(item: StorageClassQuota) {
    item.key != "" ==> IsTrimmed(item.value)
  }

  /** No field is padded, and no storage-class value is padded or blank. */
  predicate QuotaTrimmed(q: ResourceQuotaSpec) {
    && (forall r | r in QUOTA_FIELDS :: FieldTrimmed(q, r))
    && (forall i | 0 <= i < |q.storageClasses| :: ClassTrimmed(q.storageClasses[i]))
  }

  predicate SlotTrimmed(spec: LimitRangeSpec, slot: Slot) {
    LimitText(spec, slot).Some? ==> IsTrimmed(LimitText(spec, slot).value)
  }

  predicate BoundTrimmed(spec: LimitRangeSpec, kind: LimitKind, bound: Bound) {
    forall r | r in LIMITED :: SlotTrimmed(spec, Slot(kind, bound, r))
  }

  predicate KindTrimmed(spec: LimitRangeSpec, kind: LimitKind) {
    && BoundTrimmed(spec, kind, Max) && BoundTrimmed(spec, kind, Min)
    && BoundTrimmed(spec, kind, Default) && BoundTrimmed(spec, kind, DefaultRequest)
  }

  /** No text of the limit range is padded or blank. */
  predicate LimitsTrimmed(spec: LimitRangeSpec) {
    KindTrimmed(spec, PodKind) && KindTrimmed(spec, ContainerKind) && KindTrimmed(spec, ClaimKind)
  }

  lemma AcceptedParses(r: Resource, text: string)
    requires Accepts(r, text)
    ensures IsQuantity(Normalize(text)) <==> IsTrimmed(text)
    ensures IsCpu(r) ==> (IsQuantity(text) <==> IsTrimmed(text))
  {
    if IsCpu(r) {
      AcceptedCpuParses(text);
    } else {
      AcceptedBytesParse(text);
    }
  }

  lemma AdmittedFieldParses(q: ResourceQuotaSpec, r: Resource)
    requires AdmitsField(q, r)
    ensures Parses(Compiled(QuotaField(q, r))) <==> FieldTrimmed(q, r)
  {
    match FieldOf(q, r)
    case Count(n) =>
      if n.Some? {
        CountsCompile(n.value);
        QuantitiesAreTrimmed(Decimal(n.value));
      }
    case Text(text) =>
      if text.Some? {
        AcceptedParses(r, text.value);
      }
  }

  lemma AdmittedClassParses(item: StorageClassQuota)
    requires AdmitsClass(item)
    ensures ClassParses(item) <==> ClassTrimmed(item)
  {
    AcceptedStorageClassParses(item.key, item.value);
  }

  /** Admission lets blank and padded texts through, resource.MustParse does not: an admitted quota
      compiles exactly when the texts that reach the parser are trimmed. */
  lemma AdmittedQuotaCompiles(q: ResourceQuotaSpec)
    requires forall r | r in QUOTA_FIELDS :: AdmitsField(q, r)
    requires forall i | 0 <= i < |q.storageClasses| :: AdmitsClass(q.storageClasses[i])
    ensures QuotaParses(q) <==> QuotaTrimmed(q)
  {
    forall r | r in QUOTA_FIELDS
      ensures Parses(Compiled(QuotaField(q, r))) <==> FieldTrimmed(q, r)
    {
      AdmittedFieldParses(q, r);
    }
    forall i | 0 <= i < |q.storageClasses|
      ensures ClassParses(q.storageClasses[i]) <==> ClassTrimmed(q.storageClasses[i])
    {
      AdmittedClassParses(q.storageClasses[i]);
    }
  }

  lemma AdmittedBoundCompiles(spec: LimitRangeSpec, kind: LimitKind, bound: Bound)
    requires forall slot :: AdmitsSlot(spec, slot)
    ensures BoundParses(spec, kind, bound) <==> BoundTrimmed(spec, kind, bound)
  {
    forall r | r in LIMITED
      ensures SlotParses(spec, Slot(kind, bound, r)) <==> SlotTrimmed(spec, Slot(kind, bound, r))
    {
      var slot := Slot(kind, bound, r);
      assert AdmitsSlot(spec, slot);
      if LimitText(spec, slot).Some? {
        AcceptedParses(r, LimitText(spec, slot).value);
      }
    }
  }

  lemma AdmittedKindCompiles(spec: LimitRangeSpec, kind: LimitKind)
    requires forall slot :: AdmitsSlot(spec, slot)
    ensures KindParses(spec, kind) <==> KindTrimmed(spec, kind)
  {
    AdmittedBoundCompiles(spec, kind, Max);
    AdmittedBoundCompiles(spec, kind, Min);
    AdmittedBoundCompiles(spec, kind, Default);
    AdmittedBoundCompiles(spec, kind, DefaultRequest);
  }

  /** An admitted limit range compiles exactly when its texts are trimmed and none is blank. */
  lemma AdmittedLimitsCompile(spec: LimitRangeSpec)
    requires forall slot :: AdmitsSlot(spec, slot)
    ensures LimitsParse(spec) <==> LimitsTrimmed(spec)
  {
    AdmittedKindCompiles(spec, PodKind);
    AdmittedKindCompiles(spec, ContainerKind);
    AdmittedKindCompiles(spec, ClaimKind);
  }

  lemma PaddedText()
    ensures AcceptsBytes(" 1k") && !IsTrimmed(" 1k")
  {
    var text := "1k";
    assert TrimLeft(" 1k") == text by { assert " 1k"[1..] == text; }
    assert TrimRight(text) == text;
    assert DigitRun("k") == 0;
    assert text[1..] == "k";
    assert DigitRun(text) == 1;
    assert text[SignLength(text)..] == text;
    assert NumberLength(text) == 1;
    NormalizeIsIdentity(text);
    assert !IsBareNumber(text) by { assert text[1] == 'k'; }
  }

  lemma PaddedQuota()
    ensures AdmitsQuota(EMPTY_QUOTA.(memory := Some(" 1k")))
    ensures !QuotaParses(EMPTY_QUOTA.(memory := Some(" 1k")))
  {
    PaddedText();
    var q := EMPTY_QUOTA.(memory := Some(" 1k"));
    AdmittedFieldParses(q, Memory);
    assert BuiltIn(2) == Memory;
    assert Trim(" 1k") != "" && !FieldTrimmed(q, Memory);
  }

  /** Admitted and yet not compilable: a blank storage-class value, and a padded memory quota. */
  lemma AdmittedButPanics()
    ensures AdmitsQuota(EMPTY_QUOTA.(storageClasses := [StorageClassQuota("gold", "")]))
    ensures !QuotaParses(EMPTY_QUOTA.(storageClasses := [StorageClassQuota("gold", "")]))
    ensures AdmitsQuota(EMPTY_QUOTA.(memory := Some(" 1k")))
    ensures !QuotaParses(EMPTY_QUOTA.(memory := Some(" 1k")))
  {
    var q := EMPTY_QUOTA.(storageClasses := [StorageClassQuota("gold", "")]);
    assert Trim("") == "";
    assert !IsQuantity(Normalize(""));
    assert !ClassParses(q.storageClasses[0]);
    PaddedQuota();
  }

  // ---------------------------------------------------------------- sizing present

  predicate QuotaHasValues(q: ResourceQuotaSpec) {
    && IsEnabled(q.enabled)
    && (|| q.pods.Some? || q.cpu.Some? || q.memory.Some? || q.ephemeralStorage.Some?
        || q.replicationControllers.Some? || q.resourceQuotas.Some? || q.services.Some?
        || q.secrets.Some? || q.configMaps.Some? || q.persistentVolumeClaims.Some?
        || q.limits.Some? || q.requests.Some? || |q.storageClasses| > 0)
  }

  predicate LimitsHaveValues(spec: LimitRangeSpec) {
    IsEnabled(spec.enabled) && (spec.pod.Some? || spec.container.Some? || spec.pvc.Some?)
  }

  /** The catalogue entry defines usable quota or limit data. */
  predicate HasSizing(size: TShirtSizeSpec) {
    || (size.resourceQuotas.Some? && QuotaHasValues(size.resourceQuotas.value))
    || (size.limitRanges.Some? && LimitsHaveValues(size.limitRanges.value))
  }

  /** Usable is what is not switched off and sets anything at all. */
  lemma SizingExactly(size: TShirtSizeSpec)
    ensures HasSizing(size) <==>
      || (&& size.resourceQuotas.Some? && size.resourceQuotas.value.enabled != Some(false)
          && size.resourceQuotas.value.(enabled := None) != EMPTY_QUOTA)
      || (&& size.limitRanges.Some? && size.limitRanges.value.enabled != Some(false)
          && size.limitRanges.value.(enabled := None) != EMPTY_LIMITS)
  {
  }
}
