/** Status of a ProjectOnboarding: conditions, phase and one line per namespace entry. */
module Status {
  import opened Common
  import opened Api

  datatype ConditionType = ReadyCondition | DeletionBlocked | OtherCondition(text: string)

  datatype Condition = Condition(kind: ConditionType, isTrue: bool, reason: string, message: string, since: int)

  datatype Phase = NoPhase | Pending | Ready | Failed

  datatype NamespaceStatus = NamespaceStatus(name: string, ready: bool, message: string)

  datatype ProjectStatus = ProjectStatus(phase: Phase, conditions: seq<Condition>, namespaces: seq<NamespaceStatus>)

  predicate UniqueTypes(conditions: seq<Condition>) {
    forall i, j | 0 <= i < j < |conditions| :: conditions[i].kind != conditions[j].kind
  }

  /** The first condition of a type. */
  function Find(conditions: seq<Condition>, kind: ConditionType): (found: Option<Condition>)
    ensures found.Some? <==> exists i :: 0 <= i < |conditions| && conditions[i].kind == kind
    ensures found.Some? ==> found.value in conditions && found.value.kind == kind
  {
    if conditions == [] then None
    else if conditions[0].kind == kind then Some(conditions[0])
    else
      var rest := Find(conditions[1..], kind);
      assert forall i :: 1 <= i < |conditions| ==> conditions[i] == conditions[1..][i - 1];
      rest
  }

  predicate SameContent(c: Condition, isTrue: bool, reason: string, message: string) {
    c.isTrue == isTrue && c.reason == reason && c.message == message
  }

  lemma {:induction false} FindAt(conditions: seq<Condition>, i: nat)
    requires i < |conditions| && forall j :: 0 <= j < i ==> conditions[j].kind != conditions[i].kind
    ensures Find(conditions, conditions[i].kind) == Some(conditions[i])
  {
    if i == 0 {
    } else {
      FindAt(conditions[1..], i - 1);
    }
  }

  lemma {:induction false} FindReplaced(conditions: seq<Condition>, i: nat, c: Condition, kind: ConditionType)
    requires i < |conditions| && conditions[i].kind == c.kind && kind != c.kind
    ensures Find(conditions[i := c], kind) == Find(conditions, kind)
  {
    if i == 0 {
      assert conditions[0 := c][1..] == conditions[1..];
    } else {
      FindReplaced(conditions[1..], i - 1, c, kind);
      assert conditions[i := c][1..] == conditions[1..][i - 1 := c];
    }
  }

  lemma {:induction false} FindAppended(conditions: seq<Condition>, c: Condition, kind: ConditionType)
    requires kind != c.kind
    ensures Find(conditions + [c], kind) == Find(conditions, kind)
  {
    if conditions == [] {
    } else {
      FindAppended(conditions[1..], c, kind);
      assert (conditions + [c])[1..] == conditions[1..] + [c];
    }
  }

  /** Afterwards the type is present with the given content, the time being kept when the content was there
      already; every other type reads as before, and types stay unique. */
  method SetCondition(conditions: seq<Condition>, kind: ConditionType, isTrue: bool, reason: string, message: string,
                      now: int)
    returns (out: seq<Condition>)
    ensures Find(out, kind) == Some(
      var before := Find(conditions, kind);
      if before.Some? && SameContent(before.value, isTrue, reason, message) then before.value
      else Condition(kind, isTrue, reason, message, now))
    ensures forall other :: other != kind ==> Find(out, other) == Find(conditions, other)
    ensures UniqueTypes(conditions) ==> UniqueTypes(out)
  {
    for i := 0 to |conditions|
      invariant forall j :: 0 <= j < i ==> conditions[j].kind != kind
    {
      if conditions[i].kind == kind {
        FindAt(conditions, i);
        if SameContent(conditions[i], isTrue, reason, message) { return conditions; }
        out := conditions[i := Condition(kind, isTrue, reason, message, now)];
        FindAt(out, i);
        forall other | other != kind {
          FindReplaced(conditions, i, out[i], other);
        }
        return;
      }
    }
    out := conditions + [Condition(kind, isTrue, reason, message, now)];
    FindAt(out, |conditions|);
    forall other | other != kind {
      FindAppended(conditions, out[|conditions|], other);
    }
  }

  predicate AllReady(lines: seq<NamespaceStatus>) {
    forall i | 0 <= i < |lines| :: lines[i].ready
  }

  /** One line per entry, in order. */
  predicate LinesFor(lines: seq<NamespaceStatus>, entries: seq<Entry>) {
    |lines| == |entries| && forall i | 0 <= i < |lines| :: lines[i].name == entries[i].name
  }

  predicate IsTrue(conditions: seq<Condition>, kind: ConditionType) {
    Find(conditions, kind).Some? && Find(conditions, kind).value.isTrue
  }

  /** What every status written by a reconciling run satisfies. */
  predicate Reports(status: ProjectStatus, entries: seq<Entry>) {
    && LinesFor(status.namespaces, entries)
    && (status.phase == Ready || status.phase == Failed)
    && (status.phase == Ready <==> AllReady(status.namespaces))
    && (status.phase == Ready <==> IsTrue(status.conditions, ReadyCondition))
    && UniqueTypes(status.conditions)
  }
}
