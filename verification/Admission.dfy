/** Cross-resource admission: projects may only refer to sizes that exist, sizes in use cannot go. */
module Admission {
  import opened Common
  import opened Quantities
  import opened Api
  import opened Validation
  import opened Resolution

  datatype ProjectSpec = ProjectSpec(entries: seq<Entry>, gitOps: string)

  type Projects = map<string, ProjectSpec>

  // ---------------------------------------------------------------- checks on one project

  function TrimmedNames(entries: seq<Entry>): seq<string> {
    seq(|entries|, i requires 0 <= i < |entries| => Trim(entries[i].name))
  }

  /** No two of the names are equal, blank ones aside. */
  predicate NoRepeats(names: seq<string>) {
    forall i, j | 0 <= i < j < |names| :: names[i] != "" ==> names[i] != names[j]
  }

  predicate UniqueNames(entries: seq<Entry>) {
    NoRepeats(TrimmedNames(entries))
  }

  method ValidateUniqueNamespaceNames(entries: seq<Entry>) returns (ok: bool)
    ensures ok <==> UniqueNames(entries)
  {
    var seen: set<string> := {};
    ghost var names := TrimmedNames(entries);
    for i := 0 to |entries|
      invariant forall name :: name in seen <==> name != "" && name in names[..i]
      invariant NoRepeats(names[..i])
    {
      var name := Trim(entries[i].name);
      assert name == names[i] && names[..i + 1] == names[..i] + [name];
      if name != "" {
        if name in seen {
          ghost var j :| 0 <= j < i && names[j] == name;
          return false;
        }
        seen := seen + {name};
      }
    }
    assert names[..|entries|] == names;
    return true;
  }

  predicate WantsArgo(e: Entry) {
    exists i | 0 <= i < |e.argoCDProjects| :: IsOptInEnabled(e.argoCDProjects[i].enabled)
  }

  predicate GitOpsPresent(spec: ProjectSpec, e: Entry) {
    IsEnabled(e.enabled) && WantsArgo(e) ==> GitOpsNamespace(spec.gitOps, e) != ""
  }

  /** Only an entry in use with an enabled project needs a namespace, its own or the project's, that is not blank. */
  lemma GitOpsPresentExactly(spec: ProjectSpec, e: Entry)
    ensures GitOpsPresent(spec, e) <==>
      || (e.enabled.Some? && !e.enabled.value)
      || (forall i | 0 <= i < |e.argoCDProjects| && e.argoCDProjects[i].enabled.Some? ::
            !e.argoCDProjects[i].enabled.value)
      || Trim(e.applicationGitOpsNamespace) != "" || Trim(spec.gitOps) != ""
  {
  }

  /** Some project of the entry is enabled. */
  method HasEnabledProject(e: Entry) returns (found: bool)
    ensures found <==> WantsArgo(e)
  {
    for i := 0 to |e.argoCDProjects|
      invariant forall j :: 0 <= j < i ==> !IsOptInEnabled(e.argoCDProjects[j].enabled)
    {
      if IsOptInEnabled(e.argoCDProjects[i].enabled) { return true; }
    }
    found := false;
  }

  method ValidateGitOpsRequirements(spec: ProjectSpec) returns (ok: bool)
    ensures ok <==> forall i | 0 <= i < |spec.entries| :: GitOpsPresent(spec, spec.entries[i])
  {
    for i := 0 to |spec.entries|
      invariant forall j :: 0 <= j < i ==> GitOpsPresent(spec, spec.entries[j])
    {
      var e := spec.entries[i];
      if IsEnabled(e.enabled) {
        var wanted := HasEnabledProject(e);
        if wanted && GitOpsNamespace(spec.gitOps, e) == "" { return false; }
      }
    }
    ok := true;
  }

  predicate EntryAdmissible(sizes: Catalogue, e: Entry) {
    && AdmitsBlocks(e.resourceQuotas, e.limitRanges)
    && (e.projectSize != "" ==> e.projectSize in sizes && HasSizing(sizes[e.projectSize]))
  }

  predicate ProjectAdmissible(sizes: Catalogue, spec: ProjectSpec) {
    && UniqueNames(spec.entries)
    && (forall i | 0 <= i < |spec.entries| :: GitOpsPresent(spec, spec.entries[i]))
    && (forall i | 0 <= i < |spec.entries| :: EntryAdmissible(sizes, spec.entries[i]))
  }

  method ValidateNamespaceSpec(sizes: Catalogue, e: Entry) returns (ok: bool)
    ensures ok <==> EntryAdmissible(sizes, e)
  {
    if e.resourceQuotas.Some? && !AdmitsQuota(e.resourceQuotas.value) { return false; }
    if e.limitRanges.Some? && !AdmitsLimits(e.limitRanges.value) { return false; }
    if e.projectSize == "" { return true; }
    if e.projectSize !in sizes { return false; }
    ok := HasSizing(sizes[e.projectSize]);
  }

  method ValidateProjectOnboarding(sizes: Catalogue, spec: ProjectSpec) returns (ok: bool)
    ensures ok <==> ProjectAdmissible(sizes, spec)
  {
    ok := ValidateUniqueNamespaceNames(spec.entries);
    if !ok { return; }
    ok := ValidateGitOpsRequirements(spec);
    if !ok { return; }
    for i := 0 to |spec.entries|
      invariant forall j :: 0 <= j < i ==> EntryAdmissible(sizes, spec.entries[j])
    {
      ok := ValidateNamespaceSpec(sizes, spec.entries[i]);
      if !ok { return; }
    }
  }

  predicate SizeAdmissible(size: TShirtSizeSpec) {
    HasSizing(size) && AdmitsBlocks(size.resourceQuotas, size.limitRanges)
  }

  method ValidateTShirtSize(size: TShirtSizeSpec) returns (ok: bool)
    ensures ok <==> SizeAdmissible(size)
  {
    if !HasSizing(size) { return false; }
    if size.resourceQuotas.Some? && !AdmitsQuota(size.resourceQuotas.value) { return false; }
    if size.limitRanges.Some? && !AdmitsLimits(size.limitRanges.value) { return false; }
    ok := true;
  }

  // ---------------------------------------------------------------- references

  predicate Refers(entries: seq<Entry>, size: string) {
    exists i | 0 <= i < |entries| :: entries[i].projectSize == size
  }

  /** The namespace entries that name a size. */
  ghost function References(projects: Projects, size: string): set<(string, int)> {
    set p, i | p in projects && 0 <= i < |projects[p].entries| && projects[p].entries[i].projectSize == size :: (p, i)
  }

  method CountProjectOnboardingReferences(projects: Projects, size: string) returns (count: nat)
    ensures count == |References(projects, size)|
  {
    count := 0;
    var left := projects.Keys;
    ghost var found: set<(string, int)> := {};
    while left != {}
      invariant left <= projects.Keys
      invariant forall w :: w in found <==> w.0 !in left && w in References(projects, size)
      invariant count == |found|
      decreases |left|
    {
      var p :| p in left;
      left := left - {p};
      var entries := projects[p].entries;
      for i := 0 to |entries|
        invariant forall w :: w in found <==>
          w.0 !in left && w in References(projects, size) && (w.0 == p ==> w.1 < i)
        invariant count == |found|
      {
        if entries[i].projectSize == size {
          count := count + 1;
          found := found + {(p, i)};
        }
      }
    }
    assert found == References(projects, size);
  }

  // ---------------------------------------------------------------- the registry

  datatype State = State(sizes: Catalogue, projects: Projects)

  datatype Request =
    | WriteProject(name: string, spec: ProjectSpec)
    | DeleteProject(name: string)
    | WriteSize(name: string, size: TShirtSizeSpec)
    | DeleteSize(name: string)

  predicate Admitted(s: State, request: Request) {
    match request
    case WriteProject(name, spec) => ProjectAdmissible(s.sizes, spec)
    case DeleteProject(name) => true
    case WriteSize(name, size) => SizeAdmissible(size)
    case DeleteSize(name) => forall p | p in s.projects :: !Refers(s.projects[p].entries, name)
  }

  function Serve(s: State, request: Request): State {
    if !Admitted(s, request) then s
    else match request
      case WriteProject(name, spec) => s.(projects := s.projects[name := spec])
      case DeleteProject(name) => s.(projects := s.projects - {name})
      case WriteSize(name, size) => s.(sizes := s.sizes[name := size])
      case DeleteSize(name) => s.(sizes := s.sizes - {name})
  }

  function ServeAll(s: State, requests: seq<Request>): State
    decreases |requests|
  {
    if requests == [] then s else ServeAll(Serve(s, requests[0]), requests[1..])
  }

  lemma NoReferences(projects: Projects, size: string)
    ensures References(projects, size) == {} <==> forall p | p in projects :: !Refers(projects[p].entries, size)
  {
    forall p | p in projects
      ensures Refers(projects[p].entries, size) <==> exists i :: (p, i) in References(projects, size)
    {
      if Refers(projects[p].entries, size) {
        var i :| 0 <= i < |projects[p].entries| && projects[p].entries[i].projectSize == size;
        assert (p, i) in References(projects, size);
      }
    }
    if References(projects, size) != {} {
      var w :| w in References(projects, size);
      assert Refers(projects[w.0].entries, size);
    }
  }

  /** The stored objects behind the webhooks, with check and write in one step. */
  class Registry {
    var sizes: Catalogue
    var projects: Projects

    function Now(): State
      reads this
    {
      State(sizes, projects)
    }

    constructor ()
      ensures Now() == State(map[], map[])
    {
      sizes, projects := map[], map[];
    }

    /** Create and update of a ProjectOnboarding. */
    method ApplyProject(name: string, spec: ProjectSpec) returns (ok: bool)
      modifies this
      ensures ok <==> Admitted(old(Now()), WriteProject(name, spec))
      ensures Now() == Serve(old(Now()), WriteProject(name, spec))
    {
      ok := ValidateProjectOnboarding(sizes, spec);
      if ok { projects := projects[name := spec]; }
    }

    method RemoveProject(name: string)
      modifies this
      ensures Now() == Serve(old(Now()), DeleteProject(name))
    {
      projects := projects - {name};
    }

    /** Create and update of a TShirtSize. */
    method ApplySize(name: string, size: TShirtSizeSpec) returns (ok: bool)
      modifies this
      ensures ok <==> Admitted(old(Now()), WriteSize(name, size))
      ensures Now() == Serve(old(Now()), WriteSize(name, size))
    {
      ok := ValidateTShirtSize(size);
      if ok { sizes := sizes[name := size]; }
    }

    method RemoveSize(name: string) returns (ok: bool)
      modifies this
      ensures ok <==> Admitted(old(Now()), DeleteSize(name))
      ensures Now() == Serve(old(Now()), DeleteSize(name))
    {
      var references := CountProjectOnboardingReferences(projects, name);
      NoReferences(projects, name);
      ok := references == 0;
      if ok { sizes := sizes - {name}; }
    }
  }

  // ---------------------------------------------------------------- referential integrity

  predicate SizeUsable(sizes: Catalogue, e: Entry) {
    e.projectSize != "" ==> e.projectSize in sizes && HasSizing(sizes[e.projectSize])
  }

  predicate Integrity(s: State) {
    && (forall n | n in s.sizes :: SizeAdmissible(s.sizes[n]))
    && (forall p | p in s.projects :: forall i | 0 <= i < |s.projects[p].entries| ::
          EntryAdmissible(s.sizes, s.projects[p].entries[i]))
  }

  lemma ServeKeepsIntegrity(s: State, request: Request)
    requires Integrity(s)
    ensures Integrity(Serve(s, request))
  {
    if Admitted(s, request) {
      var t := Serve(s, request);
      forall p, i | p in t.projects && 0 <= i < |t.projects[p].entries|
        ensures EntryAdmissible(t.sizes, t.projects[p].entries[i])
      {
        if request.DeleteSize? {
          assert !Refers(s.projects[p].entries, request.name);
        }
      }
    }
  }

  /** Every sequence of admission requests keeps every reference good: the size exists and has sizing, so
      resolving an entry of a stored project never ends in "not found", and both sides stay admitted. */
  lemma {:induction false} ReferencesStayGood(s: State, requests: seq<Request>)
    requires Integrity(s)
    ensures Integrity(ServeAll(s, requests))
    ensures var t := ServeAll(s, requests);
      forall p | p in t.projects :: forall i | 0 <= i < |t.projects[p].entries| ::
        SizeUsable(t.sizes, t.projects[p].entries[i]) && SizeKnown(t.sizes, t.projects[p].entries[i])
    decreases |requests|
  {
    if requests == [] {
    } else {
      ServeKeepsIntegrity(s, requests[0]);
      ReferencesStayGood(Serve(s, requests[0]), requests[1..]);
    }
  }

  // ---------------------------------------------------------------- watch mappers

  predicate NoDuplicates<T(==)>(xs: seq<T>) {
    forall i, j | 0 <= i < j < |xs| :: xs[i] != xs[j]
  }

  /** The projects to reconcile when a size changes. */
  method FindProjectOnboardingsForTShirtSize(projects: Projects, size: string) returns (requests: seq<string>)
    ensures forall p :: p in requests <==> p in projects && Refers(projects[p].entries, size)
    ensures NoDuplicates(requests)
  {
    requests := [];
    var left := projects.Keys;
    while left != {}
      invariant left <= projects.Keys
      invariant forall p :: p in requests <==> p in projects && p !in left && Refers(projects[p].entries, size)
      invariant NoDuplicates(requests)
      decreases |left|
    {
      var p :| p in left;
      left := left - {p};
      var entries := projects[p].entries;
      ghost var before := requests;
      var i := 0;
      while i < |entries|
        invariant 0 <= i <= |entries| && requests == before
        invariant forall j :: 0 <= j < i ==> entries[j].projectSize != size
      {
        if entries[i].projectSize == size {
          requests := requests + [p];
          break;
        }
        i := i + 1;
      }
    }
  }

  lemma ReferAppend(entries: seq<Entry>, e: Entry)
    ensures forall size :: Refers(entries + [e], size) <==> Refers(entries, size) || e.projectSize == size
  {
    forall size
      ensures Refers(entries + [e], size) <==> Refers(entries, size) || e.projectSize == size
    {
      if Refers(entries, size) {
        var i :| 0 <= i < |entries| && entries[i].projectSize == size;
        assert (entries + [e])[i].projectSize == size;
      }
      if e.projectSize == size {
        assert (entries + [e])[|entries|].projectSize == size;
      }
    }
  }

  /** The sizes to reconcile when a project changes. */
  method SizesOfProject(entries: seq<Entry>) returns (requests: seq<string>)
    ensures forall size :: size in requests <==> size != "" && Refers(entries, size)
    ensures NoDuplicates(requests)
  {
    requests := [];
    var seen: set<string> := {};
    for i := 0 to |entries|
      invariant forall size :: size in requests <==> size in seen
      invariant forall size :: size in seen <==> size != "" && Refers(entries[..i], size)
      invariant NoDuplicates(requests)
    {
      var size := entries[i].projectSize;
      ReferAppend(entries[..i], entries[i]);
      assert entries[..i + 1] == entries[..i] + [entries[i]];
      if size != "" && size !in seen {
        seen := seen + {size};
        requests := requests + [size];
      }
    }
    assert entries[..|entries|] == entries;
  }

  /** At least one reference for every project in a duplicate-free list of projects that refer to the size. */
  lemma {:induction false} ReferencesCover(projects: Projects, size: string, requests: seq<string>)
    returns (witnesses: set<(string, int)>)
    requires NoDuplicates(requests)
    requires forall p :: p in requests ==> p in projects && Refers(projects[p].entries, size)
    ensures witnesses <= References(projects, size) && |witnesses| == |requests|
    ensures forall w :: w in witnesses ==> w.0 in requests
  {
    if requests == [] {
      witnesses := {};
    } else {
      var rest, last := requests[..|requests| - 1], requests[|requests| - 1];
      witnesses := ReferencesCover(projects, size, rest);
      var i :| 0 <= i < |projects[last].entries| && projects[last].entries[i].projectSize == size;
      assert last !in rest;
      witnesses := witnesses + {(last, i)};
    }
  }

  lemma SubsetSize<T>(a: set<T>, b: set<T>)
    requires a <= b
    ensures |a| <= |b|
  {
    assert b == a + (b - a);
  }

  /** The reference count of a size is positive exactly when its change enqueues a project, and is never
      smaller than the number of projects enqueued. */
  lemma CountBoundsRequests(projects: Projects, size: string, requests: seq<string>)
    requires forall p :: p in requests <==> p in projects && Refers(projects[p].entries, size)
    requires NoDuplicates(requests)
    ensures |References(projects, size)| >= |requests|
    ensures |References(projects, size)| > 0 <==> requests != []
  {
    var witnesses := ReferencesCover(projects, size, requests);
    SubsetSize(witnesses, References(projects, size));
    NoReferences(projects, size);
    if requests == [] {
      forall p | p in projects
        ensures !Refers(projects[p].entries, size)
      {
        assert p !in requests;
      }
    }
  }
}
