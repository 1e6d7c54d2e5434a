/** Small vocabulary shared by every module. */
module Common {

  /** A field that may be unset: nil is None. */
  datatype Option<+T> = None | Some(value: T) {
    predicate IsFailure() { None? }

    function PropagateFailure<U>(): Option<U>
      requires None?
    {
      None
    }

    function Extract(): T
      requires Some?
    {
      value
    }
  }

  /** The value of `preferred` when it is set, of `fallback` otherwise. */
  function OrElse<T>(preferred: Option<T>, fallback: Option<T>): Option<T> {
    if preferred.Some? then preferred else fallback
  }

  /** Flags that are on unless switched off. */
  predicate IsEnabled(flag: Option<bool>) {
    flag.None? || flag.value
  }

  /** Flags that are off unless switched on. */
  predicate IsOptInEnabled(flag: Option<bool>) {
    flag.Some? && flag.value
  }

  /** The two readings of a flag that may be unset. */
  lemma FlagDefaults()
    ensures IsEnabled(None) && IsEnabled(Some(true)) && !IsEnabled(Some(false))
    ensures !IsOptInEnabled(None) && IsOptInEnabled(Some(true)) && !IsOptInEnabled(Some(false))
  {
  }

  /** strings.ReplaceAll(name, "_", "-") */
  function Sanitize(name: string): (clean: string)
    ensures |clean| == |name| && '_' !in clean
    ensures forall i :: 0 <= i < |name| && name[i] == '_' ==> clean[i] == '-'
    ensures forall i :: 0 <= i < |name| && name[i] != '_' ==> clean[i] == name[i]
    ensures '_' !in name ==> clean == name
  {
    seq(|name|, i requires 0 <= i < |name| => if name[i] == '_' then '-' else name[i])
  }

  function Lookup<K, V>(m: map<K, V>, k: K): Option<V> {
    if k in m then Some(m[k]) else None
  }

  lemma SameLookup<K(!new), V>(m: map<K, V>, n: map<K, V>)
    requires forall k :: Lookup(m, k) == Lookup(n, k)
    ensures m == n
  {
    forall k
      ensures k in m <==> k in n
      ensures k in m ==> m[k] == n[k]
    {
      assert Lookup(m, k) == Lookup(n, k);
    }
  }

  lemma LookupOverride<K(!new), V>(m: map<K, V>, base: map<K, V>, over: map<K, V>)
    requires forall k :: Lookup(m, k) == OrElse(Lookup(over, k), Lookup(base, k))
    ensures m == base + over
  {
    forall k
      ensures Lookup(m, k) == Lookup(base + over, k)
    {
    }
    SameLookup(m, base + over);
  }
}
