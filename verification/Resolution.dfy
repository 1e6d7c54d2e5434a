/** T-shirt sizing: which blocks are in force for a namespace entry, and what they compile to. */
module Resolution {
  import opened Common
  import opened Quantities
  import opened Sizing
  import opened Api
  import opened Validation

  /** The sizing part of a resolved entry. */
  datatype Resolved = Resolved(resourceQuotas: Option<ResourceQuotaSpec>, limitRanges: Option<LimitRangeSpec>)

  predicate QuotaWanted(e: Entry) {
    e.resourceQuotas.Some? && IsOptInEnabled(e.resourceQuotas.value.enabled)
  }

  predicate LimitsWanted(e: Entry) {
    e.limitRanges.Some? && IsOptInEnabled(e.limitRanges.value.enabled)
  }

  /** The storage-class items of the quota block; their order is open. */
  function SizedClasses(size: TShirtSizeSpec, overwrite: bool, inline: Option<ResourceQuotaSpec>)
    : set<StorageClassQuota>
  {
    MergedItems(OrNoQuota(size.resourceQuotas).storageClasses,
                if overwrite then OrNoQuota(inline).storageClasses else [])
  }

  /** The quota block in the terms of its meaning. */
  function SizedQuota(size: TShirtSizeSpec, wanted: bool, overwrite: bool, inline: Option<ResourceQuotaSpec>)
    : Option<QuotaMeaning>
  {
    if !wanted then None
    else if overwrite then Override(MeaningOf(size.resourceQuotas), MeaningOf(inline))
    else if size.resourceQuotas.None? then None
    else
      var catalogue := Meaning(size.resourceQuotas.value);
      Some(catalogue.(enabled := OrElse(catalogue.enabled, Some(true))))
  }

  /** The two blocks a limit range is laid together from, and the flag it then carries. */
  datatype LimitPair = LimitPair(base: LimitRangeSpec, over: LimitRangeSpec, enabled: Option<bool>)

  function LimitSources(size: TShirtSizeSpec, wanted: bool, overwrite: bool, inline: Option<LimitRangeSpec>)
    : Option<LimitPair>
  {
    var base, over := OrNoLimits(size.limitRanges), OrNoLimits(inline);
    if !wanted || (!overwrite && size.limitRanges.None?) || (size.limitRanges.None? && inline.None?) then None
    else if overwrite then Some(LimitPair(base, over, OverrideFlag(base.enabled, over.enabled)))
    else Some(LimitPair(base, EMPTY_LIMITS, OrElse(base.enabled, Some(true))))
  }

  ghost predicate SameLimits(spec: Option<LimitRangeSpec>, pair: Option<LimitPair>) {
    && (spec.Some? <==> pair.Some?)
    && (spec.Some? ==>
          LimitsOverridden(spec.value, pair.value.base, pair.value.over) && spec.value.enabled == pair.value.enabled)
  }

  /** `r` is the sizing of `e` on the catalogue entry `size`, whatever order the storage classes came out in. */
  ghost predicate Resolves(size: TShirtSizeSpec, e: Entry, r: Resolved) {
    && MeaningOf(r.resourceQuotas)
       == SizedQuota(size, QuotaWanted(e), IsOptInEnabled(e.overwriteTshirt), e.resourceQuotas)
    && SameLimits(r.limitRanges, LimitSources(size, LimitsWanted(e), IsOptInEnabled(e.overwriteTshirt), e.limitRanges))
    && (r.resourceQuotas.Some? ==>
          ItemSet(r.resourceQuotas.value.storageClasses)
          == SizedClasses(size, IsOptInEnabled(e.overwriteTshirt), e.resourceQuotas))
  }

  /** The quota block by the fields of catalogue and entry: the entry's own fields win when it overwrites, and do not
      count otherwise. */
  ghost predicate QuotaByField(size: TShirtSizeSpec, e: Entry, quota: Option<ResourceQuotaSpec>) {
    if e.resourceQuotas.None? || !IsOptInEnabled(e.resourceQuotas.value.enabled) then quota.None?
    else if IsOptInEnabled(e.overwriteTshirt) then
      && quota.Some? && FieldsMerged(quota.value, OrNoQuota(size.resourceQuotas), e.resourceQuotas.value)
      && IsOptInEnabled(quota.value.enabled)
      && ClassMap(quota.value.storageClasses)
         == ClassMap(OrNoQuota(size.resourceQuotas).storageClasses) + ClassMap(e.resourceQuotas.value.storageClasses)
    else
      && (quota.Some? <==> size.resourceQuotas.Some?)
      && (quota.Some? ==> quota.value.(enabled := None) == size.resourceQuotas.value.(enabled := None))
  }

  ghost predicate RangeByField(size: TShirtSizeSpec, e: Entry, limits: Option<LimitRangeSpec>) {
    if e.limitRanges.None? || !IsOptInEnabled(e.limitRanges.value.enabled) then limits.None?
    else if IsOptInEnabled(e.overwriteTshirt) then
      && limits.Some? && LimitsOverridden(limits.value, OrNoLimits(size.limitRanges), e.limitRanges.value)
      && IsOptInEnabled(limits.value.enabled)
    else
      && (limits.Some? <==> size.limitRanges.Some?)
      && (limits.Some? ==> limits.value.(enabled := None) == size.limitRanges.value.(enabled := None))
  }

  /** The blocks of an entry that names the catalogue entry `size`. */
  method ResolveOnto(size: TShirtSizeSpec, e: Entry) returns (r: Resolved)
    ensures Resolves(size, e, r)
    ensures QuotaByField(size, e, r.resourceQuotas) && RangeByField(size, e, r.limitRanges)
  {
    var quotas: Option<ResourceQuotaSpec> := None;
    var limits: Option<LimitRangeSpec> := None;
    if IsOptInEnabled(e.overwriteTshirt) {
      if QuotaWanted(e) { quotas := MergeResourceQuotaSpec(size.resourceQuotas, e.resourceQuotas); }
      if LimitsWanted(e) { limits := MergeLimitRangeSpec(size.limitRanges, e.limitRanges); }
    } else {
      if QuotaWanted(e) { quotas := EnsureQuotaEnabled(size.resourceQuotas); }
      if LimitsWanted(e) { limits := EnsureLimitRangeEnabled(size.limitRanges); }
    }
    r := Resolved(quotas, limits);
    if quotas.Some? && !IsOptInEnabled(e.overwriteTshirt) {
      assert FieldMap(quotas.value) == FieldMap(size.resourceQuotas.value);
    }
    if quotas.Some? && IsOptInEnabled(e.overwriteTshirt) {
      assert ClassMap(quotas.value.storageClasses) == Meaning(quotas.value).classes;
      assert quotas.value.enabled == Meaning(quotas.value).enabled;
    }
  }

  // ---------------------------------------------------------------- what an entry compiles to

  type Catalogue = map<string, TShirtSizeSpec>

  /** The entry's sizing can be looked up. */
  predicate SizeKnown(sizes: Catalogue, e: Entry) {
    e.projectSize == "" || e.projectSize in sizes
  }

  function DesiredQuota(sizes: Catalogue, e: Entry): Option<QuotaMeaning>
    requires SizeKnown(sizes, e)
  {
    if e.projectSize == "" then MeaningOf(e.resourceQuotas)
    else SizedQuota(sizes[e.projectSize], QuotaWanted(e), IsOptInEnabled(e.overwriteTshirt), e.resourceQuotas)
  }

  /** The hard limits of the tenant's quota; None when it must not have one. */
  function DesiredHard(sizes: Catalogue, e: Entry): Option<map<Resource, string>>
    requires SizeKnown(sizes, e)
  {
    var quota := DesiredQuota(sizes, e);
    if quota.Some? && IsEnabled(quota.value.enabled) then Some(Hard(quota.value)) else None
  }

  function DesiredLimits(sizes: Catalogue, e: Entry): Option<LimitPair>
    requires SizeKnown(sizes, e)
  {
    if e.projectSize != "" then
      LimitSources(sizes[e.projectSize], LimitsWanted(e), IsOptInEnabled(e.overwriteTshirt), e.limitRanges)
    else if e.limitRanges.None? then None
    else Some(LimitPair(e.limitRanges.value, EMPTY_LIMITS, e.limitRanges.value.enabled))
  }

  /** Compile then override: the item of one kind from the items of two blocks. */
  function OverriddenItem(b: LimitRangeSpec, o: LimitRangeSpec, kind: LimitKind): seq<LimitRangeItem> {
    if !HasKind(b, kind) && !HasKind(o, kind) then []
    else
      [LimitRangeItem(kind,
         BoundOver(b, kind, Max, LIMITED) + BoundOver(o, kind, Max, LIMITED),
         BoundOver(b, kind, Min, LIMITED) + BoundOver(o, kind, Min, LIMITED),
         BoundOver(b, kind, Default, LIMITED) + BoundOver(o, kind, Default, LIMITED),
         BoundOver(b, kind, DefaultRequest, LIMITED) + BoundOver(o, kind, DefaultRequest, LIMITED))]
  }

  function OverriddenItems(b: LimitRangeSpec, o: LimitRangeSpec): seq<LimitRangeItem> {
    OverriddenItem(b, o, PodKind) + OverriddenItem(b, o, ContainerKind) + OverriddenItem(b, o, ClaimKind)
  }

  /** The items of the tenant's limit range; None when it must not have one. */
  function DesiredItems(sizes: Catalogue, e: Entry): Option<seq<LimitRangeItem>>
    requires SizeKnown(sizes, e)
  {
    var limits := DesiredLimits(sizes, e);
    if limits.Some? && IsEnabled(limits.value.enabled) then Some(OverriddenItems(limits.value.base, limits.value.over))
    else None
  }

  lemma OverriddenItemIs(m: LimitRangeSpec, b: LimitRangeSpec, o: LimitRangeSpec, kind: LimitKind)
    requires LimitsOverridden(m, b, o)
    ensures ItemFor(m, kind) == OverriddenItem(b, o, kind)
  {
    MergeThenCompileBound(m, b, o, kind, Max);
    MergeThenCompileBound(m, b, o, kind, Min);
    MergeThenCompileBound(m, b, o, kind, Default);
    MergeThenCompileBound(m, b, o, kind, DefaultRequest);
  }

  /** Merge then compile equals compile then override, for the whole list of items. */
  lemma MergedLimitItems(m: LimitRangeSpec, b: LimitRangeSpec, o: LimitRangeSpec)
    requires LimitsOverridden(m, b, o)
    ensures LimitItems(m) == OverriddenItems(b, o)
  {
    OverriddenItemIs(m, b, o, PodKind);
    OverriddenItemIs(m, b, o, ContainerKind);
    OverriddenItemIs(m, b, o, ClaimKind);
  }

  lemma NothingOverridden(spec: LimitRangeSpec, flag: Option<bool>)
    ensures LimitsOverridden(spec.(enabled := flag), spec, EMPTY_LIMITS)
  {
    assert forall slot :: LimitText(spec.(enabled := flag), slot) == LimitText(spec, slot);
    assert forall slot :: LimitText(EMPTY_LIMITS, slot) == None;
    assert forall kind :: HasKind(spec.(enabled := flag), kind) == HasKind(spec, kind);
  }

  // ---------------------------------------------------------------- when it compiles

  /** Every text of the quota is a quantity. */
  predicate QuotaTextsParse(quota: QuotaMeaning, classes: set<StorageClassQuota>) {
    && (forall r | r in QUOTA_FIELDS :: Parses(Compiled(Lookup(quota.fields, r))))
    && (forall item | item in classes :: ClassParses(item))
  }

  lemma QuotaParsesBy(q: ResourceQuotaSpec)
    ensures QuotaParses(q) <==> QuotaTextsParse(Meaning(q), ItemSet(q.storageClasses))
  {
    assert forall r :: r in QUOTA_FIELDS ==> Lookup(Meaning(q).fields, r) == QuotaField(q, r);
    assert forall i :: 0 <= i < |q.storageClasses| ==> q.storageClasses[i] in ItemSet(q.storageClasses);
  }

  /** The text of a slot when `pair.over` is laid over `pair.base`. */
  function SlotText(pair: LimitPair, slot: Slot): Option<string> {
    OrElse(LimitText(pair.over, slot), LimitText(pair.base, slot))
  }

  predicate SlotTextParses(pair: LimitPair, slot: Slot) {
    SlotText(pair, slot).Some? ==> IsQuantity(LimitParsed(slot, SlotText(pair, slot).value))
  }

  predicate BoundTextsParse(pair: LimitPair, kind: LimitKind, bound: Bound) {
    forall r | r in LIMITED :: SlotTextParses(pair, Slot(kind, bound, r))
  }

  predicate KindTextsParse(pair: LimitPair, kind: LimitKind) {
    && BoundTextsParse(pair, kind, Max) && BoundTextsParse(pair, kind, Min)
    && BoundTextsParse(pair, kind, Default) && BoundTextsParse(pair, kind, DefaultRequest)
  }

  /** Every text of the limit range is a quantity. */
  predicate LimitTextsParse(pair: LimitPair) {
    KindTextsParse(pair, PodKind) && KindTextsParse(pair, ContainerKind) && KindTextsParse(pair, ClaimKind)
  }

  lemma BoundParsesBy(spec: LimitRangeSpec, pair: LimitPair, kind: LimitKind, bound: Bound)
    requires LimitsOverridden(spec, pair.base, pair.over)
    ensures BoundParses(spec, kind, bound) <==> BoundTextsParse(pair, kind, bound)
  {
    forall r | r in LIMITED
      ensures SlotParses(spec, Slot(kind, bound, r)) <==> SlotTextParses(pair, Slot(kind, bound, r))
    {
      assert LimitText(spec, Slot(kind, bound, r)) == SlotText(pair, Slot(kind, bound, r));
    }
  }

  lemma KindParsesBy(spec: LimitRangeSpec, pair: LimitPair, kind: LimitKind)
    requires LimitsOverridden(spec, pair.base, pair.over)
    ensures KindParses(spec, kind) <==> KindTextsParse(pair, kind)
  {
    BoundParsesBy(spec, pair, kind, Max);
    BoundParsesBy(spec, pair, kind, Min);
    BoundParsesBy(spec, pair, kind, Default);
    BoundParsesBy(spec, pair, kind, DefaultRequest);
  }

  lemma LimitsParseBy(spec: LimitRangeSpec, pair: LimitPair)
    requires LimitsOverridden(spec, pair.base, pair.over)
    ensures LimitsParse(spec) <==> LimitTextsParse(pair)
  {
    KindParsesBy(spec, pair, PodKind);
    KindParsesBy(spec, pair, ContainerKind);
    KindParsesBy(spec, pair, ClaimKind);
  }

  function DesiredClasses(sizes: Catalogue, e: Entry): set<StorageClassQuota>
    requires SizeKnown(sizes, e)
  {
    if e.projectSize == "" then ItemSet(OrNoQuota(e.resourceQuotas).storageClasses)
    else SizedClasses(sizes[e.projectSize], IsOptInEnabled(e.overwriteTshirt), e.resourceQuotas)
  }

  /** Every text of the blocks in force for the entry is a quantity. */
  predicate EntryCompiles(sizes: Catalogue, e: Entry)
    requires SizeKnown(sizes, e)
  {
    && (DesiredHard(sizes, e).Some? ==> QuotaTextsParse(DesiredQuota(sizes, e).value, DesiredClasses(sizes, e)))
    && (DesiredItems(sizes, e).Some? ==> LimitTextsParse(DesiredLimits(sizes, e).value))
  }

  // ---------------------------------------------------------------- admission implies compilation

  lemma ResolvedFieldAdmitted(q: ResourceQuotaSpec, b: Option<ResourceQuotaSpec>, o: Option<ResourceQuotaSpec>,
                              r: Resource)
    requires b.Some? ==> AdmitsQuota(b.value)
    requires o.Some? ==> AdmitsQuota(o.value)
    requires r in QUOTA_FIELDS
    requires QuotaField(q, r).Some? ==>
      || (b.Some? && QuotaField(q, r) == QuotaField(b.value, r))
      || (o.Some? && QuotaField(q, r) == QuotaField(o.value, r))
    ensures AdmitsField(q, r)
  {
    if b.Some? { AdmittedFields(b.value, r); }
    if o.Some? { AdmittedFields(o.value, r); }
  }

  predicate BlocksTrimmed(quotas: Option<ResourceQuotaSpec>, limits: Option<LimitRangeSpec>) {
    (quotas.Some? ==> QuotaTrimmed(quotas.value)) && (limits.Some? ==> LimitsTrimmed(limits.value))
  }

  /** Where a field of a resolved quota comes from. */
  lemma ResolvedFieldSource(size: TShirtSizeSpec, e: Entry, r: Resolved, field: Resource)
    requires Resolves(size, e, r) && r.resourceQuotas.Some? && field in QUOTA_FIELDS
    ensures var text := QuotaField(r.resourceQuotas.value, field);
      text.Some? ==>
        || (size.resourceQuotas.Some? && text == QuotaField(size.resourceQuotas.value, field))
        || (e.resourceQuotas.Some? && text == QuotaField(e.resourceQuotas.value, field))
  {
    var q := r.resourceQuotas.value;
    assert Lookup(Meaning(q).fields, field) == QuotaField(q, field);
  }

  /** Catalogue and entry admitted separately: the resolved quota reaches the parser with admitted texts
      only, so it compiles exactly when they are trimmed. */
  lemma ResolvedQuotaCompiles(size: TShirtSizeSpec, e: Entry, r: Resolved)
    requires Resolves(size, e, r) && r.resourceQuotas.Some?
    requires AdmitsBlocks(size.resourceQuotas, size.limitRanges) && AdmitsBlocks(e.resourceQuotas, e.limitRanges)
    ensures QuotaParses(r.resourceQuotas.value) <==> QuotaTrimmed(r.resourceQuotas.value)
    ensures BlocksTrimmed(size.resourceQuotas, None) && BlocksTrimmed(e.resourceQuotas, None)
      ==> QuotaTrimmed(r.resourceQuotas.value)
  {
    var q := r.resourceQuotas.value;
    forall field | field in QUOTA_FIELDS
      ensures AdmitsField(q, field)
      ensures BlocksTrimmed(size.resourceQuotas, None) && BlocksTrimmed(e.resourceQuotas, None)
        ==> FieldTrimmed(q, field)
    {
      ResolvedFieldSource(size, e, r, field);
      ResolvedFieldAdmitted(q, size.resourceQuotas, e.resourceQuotas, field);
    }
    forall i | 0 <= i < |q.storageClasses|
      ensures AdmitsClass(q.storageClasses[i])
      ensures BlocksTrimmed(size.resourceQuotas, None) && BlocksTrimmed(e.resourceQuotas, None)
        ==> ClassTrimmed(q.storageClasses[i])
    {
      var over := if IsOptInEnabled(e.overwriteTshirt) then OrNoQuota(e.resourceQuotas).storageClasses else [];
      assert q.storageClasses[i] in ItemSet(q.storageClasses);
      MergedItemsFrom(OrNoQuota(size.resourceQuotas).storageClasses, over, q.storageClasses[i]);
    }
    AdmittedQuotaCompiles(q);
  }

  lemma TrimmedSlot(spec: Option<LimitRangeSpec>, kind: LimitKind, bound: Bound, resource: Resource)
    requires BlocksTrimmed(None, spec) && resource in LIMITED
    ensures SlotTrimmed(OrNoLimits(spec), Slot(kind, bound, resource))
  {
    if spec.Some? {
      assert KindTrimmed(spec.value, kind);
      assert BoundTrimmed(spec.value, kind, bound);
    }
  }

  lemma TrimmedKind(spec: LimitRangeSpec, size: TShirtSizeSpec, e: Entry, r: Resolved, kind: LimitKind)
    requires Resolves(size, e, r) && r.limitRanges == Some(spec)
    requires BlocksTrimmed(None, size.limitRanges) && BlocksTrimmed(None, e.limitRanges)
    ensures KindTrimmed(spec, kind)
  {
    forall bound, resource | resource in LIMITED
      ensures SlotTrimmed(spec, Slot(kind, bound, resource))
    {
      TrimmedSlot(size.limitRanges, kind, bound, resource);
      TrimmedSlot(e.limitRanges, kind, bound, resource);
    }
  }

  /** The same for limit ranges. */
  lemma ResolvedLimitsCompile(size: TShirtSizeSpec, e: Entry, r: Resolved)
    requires Resolves(size, e, r) && r.limitRanges.Some?
    requires AdmitsBlocks(size.resourceQuotas, size.limitRanges) && AdmitsBlocks(e.resourceQuotas, e.limitRanges)
    ensures LimitsParse(r.limitRanges.value) <==> LimitsTrimmed(r.limitRanges.value)
    ensures BlocksTrimmed(None, size.limitRanges) && BlocksTrimmed(None, e.limitRanges)
      ==> LimitsParse(r.limitRanges.value)
  {
    var spec, b, o := r.limitRanges.value, OrNoLimits(size.limitRanges), OrNoLimits(e.limitRanges);
    assert AdmitsLimits(EMPTY_LIMITS);
    forall slot
      ensures AdmitsSlot(spec, slot)
    {
      AdmittedSlots(b, slot);
      AdmittedSlots(o, slot);
    }
    AdmittedLimitsCompile(spec);
    if BlocksTrimmed(None, size.limitRanges) && BlocksTrimmed(None, e.limitRanges) {
      TrimmedKind(spec, size, e, r, PodKind);
      TrimmedKind(spec, size, e, r, ContainerKind);
      TrimmedKind(spec, size, e, r, ClaimKind);
    }
  }

  // ---------------------------------------------------------------- what the entry's own blocks can influence

  lemma SameLimitItems(pair: LimitPair, a: LimitRangeSpec, b: LimitRangeSpec)
    requires LimitsOverridden(a, pair.base, pair.over) && LimitsOverridden(b, pair.base, pair.over)
    ensures LimitItems(a) == LimitItems(b)
  {
    MergedLimitItems(a, pair.base, pair.over);
    MergedLimitItems(b, pair.base, pair.over);
  }

  /** The same limit range: present in both or in neither, with the same flag and the same items. */
  predicate SameRange(a: Option<LimitRangeSpec>, b: Option<LimitRangeSpec>) {
    && (a.Some? <==> b.Some?)
    && (a.Some? ==> a.value.enabled == b.value.enabled && LimitItems(a.value) == LimitItems(b.value))
  }

  /** Without overwriteTshirt each inline block counts only through its own enabled flag. */
  lemma InlineValuesIgnored(size: TShirtSizeSpec, e: Entry, f: Entry, r: Resolved, s: Resolved)
    requires Resolves(size, e, r) && Resolves(size, f, s)
    requires !IsOptInEnabled(e.overwriteTshirt) && !IsOptInEnabled(f.overwriteTshirt)
    ensures QuotaWanted(e) == QuotaWanted(f) ==> MeaningOf(r.resourceQuotas) == MeaningOf(s.resourceQuotas)
    ensures LimitsWanted(e) == LimitsWanted(f) ==> SameRange(r.limitRanges, s.limitRanges)
  {
    if LimitsWanted(e) == LimitsWanted(f) && r.limitRanges.Some? {
      var pair := LimitSources(size, LimitsWanted(e), false, e.limitRanges).value;
      SameLimitItems(pair, r.limitRanges.value, s.limitRanges.value);
    }
  }

  /** Whether overwriteTshirt is set or not, the quota does not depend on the limit block, nor the limit range on
      the quota block. */
  lemma BlocksAreIndependent(size: TShirtSizeSpec, e: Entry, f: Entry, r: Resolved, s: Resolved)
    requires Resolves(size, e, r) && Resolves(size, f, s)
    requires IsOptInEnabled(e.overwriteTshirt) == IsOptInEnabled(f.overwriteTshirt)
    ensures e.resourceQuotas == f.resourceQuotas ==> MeaningOf(r.resourceQuotas) == MeaningOf(s.resourceQuotas)
    ensures e.limitRanges == f.limitRanges ==> SameRange(r.limitRanges, s.limitRanges)
  {
    if e.limitRanges == f.limitRanges && r.limitRanges.Some? {
      var pair := LimitSources(size, LimitsWanted(e), IsOptInEnabled(e.overwriteTshirt), e.limitRanges).value;
      SameLimitItems(pair, r.limitRanges.value, s.limitRanges.value);
    }
  }

  /** With overwriteTshirt a block is in force exactly when it is switched on inline. */
  lemma InForceWhenWanted(size: TShirtSizeSpec, e: Entry, r: Resolved)
    requires Resolves(size, e, r) && IsOptInEnabled(e.overwriteTshirt)
    ensures r.resourceQuotas.Some? && IsEnabled(r.resourceQuotas.value.enabled) <==> QuotaWanted(e)
    ensures r.limitRanges.Some? && IsEnabled(r.limitRanges.value.enabled) <==> LimitsWanted(e)
  {
    if QuotaWanted(e) {
      assert r.resourceQuotas.value.enabled == Meaning(r.resourceQuotas.value).enabled;
    }
  }
}
