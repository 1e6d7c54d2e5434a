/** Quantity strings: the Kubernetes serialization grammar, the unit normaliser and
    the three admission checks that look at a single quantity. */
module Quantities {

  // ---------------------------------------------------------------- white space

  /** Unicode white space as strings.TrimSpace sees it. */
  predicate IsSpace(c: char) {
    var x := c as int;
    || 0x09 <= x <= 0x0D || x == 0x20 || x == 0x85 || x == 0xA0 || x == 0x1680
    || 0x2000 <= x <= 0x200A || x == 0x2028 || x == 0x2029 || x == 0x202F || x == 0x205F || x == 0x3000
  }

  function TrimLeft(s: string): string {
    if s != [] && IsSpace(s[0]) then TrimLeft(s[1..]) else s
  }

  function TrimRight(s: string): string {
    if s != [] && IsSpace(s[|s| - 1]) then TrimRight(s[..|s| - 1]) else s
  }

  function Trim(s: string): string {
    TrimRight(TrimLeft(s))
  }

  predicate AllSpace(s: string) {
    forall i | 0 <= i < |s| :: IsSpace(s[i])
  }

  lemma {:induction false} TrimLeftMeaning(s: string) returns (a: string)
    ensures s == a + TrimLeft(s) && AllSpace(a)
    ensures TrimLeft(s) != [] ==> !IsSpace(TrimLeft(s)[0])
  {
    if s == [] || !IsSpace(s[0]) {
      a := [];
    } else {
      var rest := TrimLeftMeaning(s[1..]);
      a := [s[0]] + rest;
    }
  }

  lemma {:induction false} TrimRightMeaning(s: string) returns (b: string)
    ensures s == TrimRight(s) + b && AllSpace(b)
    ensures TrimRight(s) != [] ==> TrimRight(s)[0] == s[0] && !IsSpace(TrimRight(s)[|TrimRight(s)| - 1])
  {
    if s == [] || !IsSpace(s[|s| - 1]) {
      b := [];
    } else {
      var rest := TrimRightMeaning(s[..|s| - 1]);
      b := rest + [s[|s| - 1]];
      assert s == s[..|s| - 1] + [s[|s| - 1]];
    }
  }

  /** Trimming takes white space off both ends, and all of it. */
  lemma TrimMeaning(s: string) returns (a: string, b: string)
    ensures s == a + Trim(s) + b && AllSpace(a) && AllSpace(b)
    ensures Trim(s) != [] ==> !IsSpace(Trim(s)[0]) && !IsSpace(Trim(s)[|Trim(s)| - 1])
  {
    a := TrimLeftMeaning(s);
    b := TrimRightMeaning(TrimLeft(s));
  }

  // ---------------------------------------------------------------- grammar

  predicate IsDigit(c: char) { '0' <= c <= '9' }

  /** Length of the longest prefix made of digits. */
  function DigitRun(s: string): (n: nat)
    ensures n <= |s| && (forall i :: 0 <= i < n ==> IsDigit(s[i]))
  {
    if s != [] && IsDigit(s[0]) then 1 + DigitRun(s[1..]) else 0
  }

  function SignLength(s: string): nat {
    if s != [] && (s[0] == '+' || s[0] == '-') then 1 else 0
  }

  predicate IsPunctuation(c: char) { c == '+' || c == '-' || c == '.' }

  /** Length of the leading <signedNumber>, 0 when there is none. */
  function NumberLength(s: string): (n: nat)
    ensures n <= |s| && (forall i :: 0 <= i < n ==> IsDigit(s[i]) || IsPunctuation(s[i]))
  {
    var sign := SignLength(s);
    var whole := sign + DigitRun(s[sign..]);
    if whole < |s| && s[whole] == '.' then
      var end := whole + 1 + DigitRun(s[whole + 1..]);
      if end == sign + 1 then 0 else end
    else if whole == sign then 0 else whole
  }

  predicate IsCapitalUnit(c: char) {
    c == 'M' || c == 'G' || c == 'T' || c == 'P' || c == 'E'
  }

  /** Ki, Mi, Gi, Ti, Pi, Ei */
  predicate IsBinarySI(s: string) {
    |s| == 2 && (s[0] == 'K' || IsCapitalUnit(s[0])) && s[1] == 'i'
  }

  /** The empty suffix and n, u, m, k, M, G, T, P, E */
  predicate IsDecimalSI(s: string) {
    s == [] || (|s| == 1 && (s[0] == 'n' || s[0] == 'u' || s[0] == 'm' || s[0] == 'k' || IsCapitalUnit(s[0])))
  }

  predicate IsExponent(s: string) {
    |s| > 1 && (s[0] == 'e' || s[0] == 'E') && NumberLength(s[1..]) == |s| - 1
  }

  /** <quantity> ::= <signedNumber><suffix> */
  predicate IsQuantity(s: string) {
    var n := NumberLength(s);
    0 < n && (IsBinarySI(s[n..]) || IsDecimalSI(s[n..]) || IsExponent(s[n..]))
  }

  lemma DecimalSuffixes(s: string)
    ensures IsDecimalSI(s) <==>
      || s == "" || s == "n" || s == "u" || s == "m" || s == "k"
      || s == "M" || s == "G" || s == "T" || s == "P" || s == "E"
  {
    if |s| == 1 { assert s == [s[0]]; }
  }

  lemma BinarySuffixes(s: string)
    ensures IsBinarySI(s) <==>
      || s == "Ki" || s == "Mi" || s == "Gi" || s == "Ti" || s == "Pi" || s == "Ei"
  {
    if |s| == 2 { assert s == [s[0], s[1]]; }
  }

  lemma {:induction false} DigitRunOf(digits: string, rest: string)
    requires forall i :: 0 <= i < |digits| ==> IsDigit(digits[i])
    requires rest == "" || !IsDigit(rest[0])
    ensures DigitRun(digits + rest) == |digits|
  {
    if digits == [] {
      assert digits + rest == rest;
    } else {
      assert (digits + rest)[1..] == digits[1..] + rest;
      DigitRunOf(digits[1..], rest);
    }
  }

  /** Digits and a suffix are a quantity exactly for the suffixes of the grammar: other spellings are refused. */
  lemma QuantitySuffixes(digits: string, suffix: string)
    requires digits != "" && forall i :: 0 <= i < |digits| ==> IsDigit(digits[i])
    requires suffix == "" || (!IsDigit(suffix[0]) && suffix[0] != '.')
    ensures IsQuantity(digits + suffix) <==>
      || suffix == "" || suffix == "n" || suffix == "u" || suffix == "m" || suffix == "k" || suffix == "M"
      || suffix == "G" || suffix == "T" || suffix == "P" || suffix == "E"
      || suffix == "Ki" || suffix == "Mi" || suffix == "Gi" || suffix == "Ti" || suffix == "Pi" || suffix == "Ei"
      || (|suffix| > 1 && (suffix[0] == 'e' || suffix[0] == 'E') && NumberLength(suffix[1..]) == |suffix| - 1)
  {
    var s := digits + suffix;
    DigitRunOf(digits, suffix);
    assert SignLength(s) == 0 && s[0..] == s;
    assert NumberLength(s) == |digits| && s[|digits|..] == suffix;
    DecimalSuffixes(suffix);
    BinarySuffixes(suffix);
  }

  // ---------------------------------------------------------------- normaliser

  /** One of the four two-letter spellings that the normaliser rewrites starts at `i`. */
  predicate MisspeltAt(s: string, i: int) {
    && 0 <= i < |s| - 1
    && (((s[i] == 'g' || s[i] == 'm') && s[i + 1] == 'i') || ((s[i] == 'G' || s[i] == 'M') && s[i + 1] == 'I'))
  }

  function Upper(c: char): char {
    if c == 'g' then 'G' else if c == 'm' then 'M' else c
  }

  /** The replacer's scan: left to right, a rewritten pair is not looked at again. */
  function Normalize(s: string): string {
    if s == [] then []
    else if MisspeltAt(s, 0) then [Upper(s[0]), 'i'] + Normalize(s[2..])
    else [s[0]] + Normalize(s[1..])
  }

  /** What position `i` of the normalised string holds, read off the input around `i`. */
  function NormalizedChar(s: string, i: nat): char
    requires i < |s|
  {
    if MisspeltAt(s, i) then Upper(s[i]) else if MisspeltAt(s, i - 1) then 'i' else s[i]
  }

  lemma {:induction false} NormalizePointwise(s: string)
    ensures |Normalize(s)| == |s|
    ensures forall i :: 0 <= i < |s| ==> Normalize(s)[i] == NormalizedChar(s, i)
  {
    if s != [] {
      var k := if MisspeltAt(s, 0) then 2 else 1;
      var rest := s[k..];
      NormalizePointwise(rest);
      forall i | k <= i < |s|
        ensures Normalize(s)[i] == NormalizedChar(s, i)
      {
        assert Normalize(s)[i] == Normalize(rest)[i - k];
        assert MisspeltAt(s, i) <==> MisspeltAt(rest, i - k);
        assert MisspeltAt(s, i - 1) <==> MisspeltAt(rest, i - 1 - k);
      }
    }
  }

  /** The four spellings and what becomes of them: `gi` and `GI` become `Gi`, `mi` and `MI` become `Mi`, in place. */
  lemma NormalizeRewrites(s: string, i: nat)
    requires i + 2 <= |s|
    ensures |Normalize(s)| == |s|
    ensures s[i..i + 2] == "gi" || s[i..i + 2] == "GI" ==> Normalize(s)[i..i + 2] == "Gi"
    ensures s[i..i + 2] == "mi" || s[i..i + 2] == "MI" ==> Normalize(s)[i..i + 2] == "Mi"
  {
    NormalizePointwise(s);
    var pair := s[i..i + 2];
    assert pair[0] == s[i] && pair[1] == s[i + 1];
    assert Normalize(s)[i] == NormalizedChar(s, i) && Normalize(s)[i + 1] == NormalizedChar(s, i + 1);
  }

  lemma {:induction false} NormalizeIsIdentity(s: string)
    requires forall i :: !MisspeltAt(s, i)
    ensures Normalize(s) == s
  {
    NormalizePointwise(s);
  }

  predicate OccursAt(s: string, part: string, i: nat) {
    i + |part| <= |s| && s[i..i + |part|] == part
  }

  predicate Contains(s: string, part: string) {
    exists i | 0 <= i <= |s| :: OccursAt(s, part, i)
  }

  lemma NoSpelling(t: string)
    requires forall i :: !MisspeltAt(t, i)
    ensures !Contains(t, "gi") && !Contains(t, "GI") && !Contains(t, "mi") && !Contains(t, "MI")
  {
    forall i: nat
      ensures !OccursAt(t, "gi", i) && !OccursAt(t, "GI", i) && !OccursAt(t, "mi", i) && !OccursAt(t, "MI", i)
    {
      if i + 2 <= |t| {
        assert !MisspeltAt(t, i) && t[i..i + 2][0] == t[i] && t[i..i + 2][1] == t[i + 1];
      }
    }
  }

  /** None of the four spellings survives, so a second pass changes nothing. */
  lemma NormalizeLeavesNoMisspelling(s: string)
    ensures forall i :: !MisspeltAt(Normalize(s), i)
    ensures !Contains(Normalize(s), "gi") && !Contains(Normalize(s), "GI")
    ensures !Contains(Normalize(s), "mi") && !Contains(Normalize(s), "MI")
    ensures Normalize(Normalize(s)) == Normalize(s)
  {
    NormalizePointwise(s);
    var t := Normalize(s);
    forall i | 0 <= i < |t| - 1
      ensures !MisspeltAt(t, i)
    {
      assert t[i] == NormalizedChar(s, i) && t[i + 1] == NormalizedChar(s, i + 1);
    }
    NormalizeIsIdentity(t);
    NoSpelling(t);
  }

  /** Letters are kept up to case, everything that is not a letter is kept as it is. */
  function ToLower(c: char): char {
    if 'A' <= c <= 'Z' then (c as int + 32) as char else c
  }

  lemma NormalizeKeepsLetters(s: string)
    ensures |Normalize(s)| == |s|
    ensures forall i :: 0 <= i < |s| ==> ToLower(Normalize(s)[i]) == ToLower(s[i])
  {
    NormalizePointwise(s);
  }

  /** A character that can stand in a quantity: never white space and never one of `g` and `I`. */
  predicate InAlphabet(c: char) {
    || IsDigit(c) || IsPunctuation(c) || IsCapitalUnit(c)
    || c == 'K' || c == 'k' || c == 'n' || c == 'u' || c == 'm' || c == 'e' || c == 'i'
  }

  lemma SuffixAlphabet(t: string)
    requires IsBinarySI(t) || IsDecimalSI(t) || IsExponent(t)
    ensures forall i :: 0 <= i < |t| ==> InAlphabet(t[i]) && (t[i] == 'i' ==> i == 1 && t[0] != 'm')
  {
    if IsExponent(t) {
      var exponent := t[1..];
      assert forall i :: 1 <= i < |t| ==> t[i] == exponent[i - 1];
    }
  }

  lemma QuantityCharacters(s: string)
    requires IsQuantity(s)
    ensures forall i :: 0 <= i < |s| ==> InAlphabet(s[i])
    ensures forall i :: 0 <= i < |s| && s[i] == 'i' ==> i > 0 && s[i - 1] != 'm'
  {
    var n := NumberLength(s);
    SuffixAlphabet(s[n..]);
    forall i | 0 <= i < |s|
      ensures InAlphabet(s[i]) && (s[i] == 'i' ==> i == n + 1 && s[n] != 'm')
    {
      if n <= i {
        assert s[i] == s[n..][i - n];
      }
    }
  }

  lemma AlphabetIsClean(c: char)
    requires InAlphabet(c)
    ensures !IsSpace(c) && c != 'g' && c != 'I'
  {
  }

  /** No string of the grammar holds white space or a spelling that the normaliser rewrites. */
  lemma QuantityAlphabet(s: string)
    requires IsQuantity(s)
    ensures forall i :: 0 <= i < |s| ==> !IsSpace(s[i])
    ensures forall i :: !MisspeltAt(s, i)
  {
    QuantityCharacters(s);
    forall i | 0 <= i < |s|
      ensures !IsSpace(s[i]) && s[i] != 'g' && s[i] != 'I'
    {
      AlphabetIsClean(s[i]);
    }
  }

  lemma NormalizeKeepsQuantities(s: string)
    requires IsQuantity(s)
    ensures Normalize(s) == s
  {
    QuantityAlphabet(s);
    NormalizeIsIdentity(s);
  }

  // ---------------------------------------------------------------- admission of one quantity

  /** The pattern ^[\d.]+$ */
  predicate IsBareNumber(s: string) {
    s != [] && forall c | c in s :: IsDigit(c) || c == '.'
  }

  predicate AcceptsCpu(value: string) {
    var trimmed := Trim(value);
    trimmed == "" || IsQuantity(trimmed)
  }

  predicate AcceptsBytes(value: string) {
    var trimmed := Trim(value);
    trimmed == "" || (!IsBareNumber(trimmed) && IsQuantity(Normalize(trimmed)))
  }

  function Lower(s: string): string {
    seq(|s|, i requires 0 <= i < |s| => ToLower(s[i]))
  }

  predicate AcceptsStorageClass(key: string, value: string) {
    var trimmed := Trim(value);
    if trimmed == "" then true
    else if Contains(Lower(key), "persistentvolumeclaims") && IsBareNumber(trimmed) then IsQuantity(trimmed)
    else if Contains(Lower(key), "storage") then AcceptsBytes(trimmed)
    else if IsBareNumber(trimmed) then IsQuantity(trimmed)
    else AcceptsBytes(trimmed)
  }

  function SuffixOf(s: string): string {
    s[NumberLength(s)..]
  }

  lemma BareIsNormal(t: string)
    requires IsBareNumber(t)
    ensures Normalize(t) == t && SignLength(t) == 0
  {
    assert forall i :: 0 <= i < |t| ==> t[i] in t;
    NormalizeIsIdentity(t);
  }

  lemma SuffixStart(suffix: string)
    requires (IsBinarySI(suffix) || IsDecimalSI(suffix) || IsExponent(suffix)) && suffix != ""
    ensures !IsDigit(suffix[0]) && suffix[0] != '.'
  {
  }

  lemma BareIsNumber(t: string)
    requires IsBareNumber(t) && IsQuantity(t)
    ensures SuffixOf(t) == ""
  {
    var suffix := SuffixOf(t);
    if suffix != "" {
      SuffixStart(suffix);
    }
  }

  /** Only the sign is neither a digit nor the point. */
  lemma UnsignedNumber(s: string, i: nat)
    requires i < NumberLength(s) && SignLength(s) == 0
    ensures IsDigit(s[i]) || s[i] == '.'
  {
    var whole := DigitRun(s[0..]);
    assert s[0..] == s;
    if i > whole {
      assert s[i] == s[whole + 1..][i - whole - 1];
    }
  }

  lemma NumberIsBare(t: string)
    requires t != "" && IsQuantity(Normalize(t)) && SuffixOf(Normalize(t)) == "" && SignLength(Normalize(t)) == 0
    ensures IsBareNumber(t)
  {
    var n := Normalize(t);
    NormalizePointwise(t);
    assert NumberLength(n) == |n|;
    forall i | 0 <= i < |t|
      ensures IsDigit(t[i]) || t[i] == '.'
    {
      UnsignedNumber(n, i);
    }
  }

  /** A byte quantity is admitted exactly when it is blank or, normalised, a quantity with a unit or a sign: plain
      numbers are refused. */
  lemma BytesNeedUnit(value: string)
    ensures AcceptsBytes(value) <==>
      var t := Normalize(Trim(value));
      Trim(value) == "" || (IsQuantity(t) && (SuffixOf(t) != "" || SignLength(t) != 0))
  {
    var trimmed := Trim(value);
    if trimmed != "" {
      if IsBareNumber(trimmed) {
        BareIsNormal(trimmed);
        if IsQuantity(trimmed) { BareIsNumber(trimmed); }
      }
      if IsQuantity(Normalize(trimmed)) && SuffixOf(Normalize(trimmed)) == "" && SignLength(Normalize(trimmed)) == 0 {
        NumberIsBare(trimmed);
      }
    }
  }

  lemma {:induction false} TrimLeftEnds(s: string)
    ensures TrimLeft(s) != [] ==> !IsSpace(TrimLeft(s)[0])
  {
    if s == [] || !IsSpace(s[0]) {
    } else {
      TrimLeftEnds(s[1..]);
    }
  }

  lemma {:induction false} TrimRightEnds(s: string)
    ensures TrimRight(s) <= s
    ensures TrimRight(s) != [] ==> !IsSpace(TrimRight(s)[|TrimRight(s)| - 1])
  {
    if s == [] || !IsSpace(s[|s| - 1]) {
    } else {
      TrimRightEnds(s[..|s| - 1]);
    }
  }

  /** Trim returns a piece of its input. */
  lemma TrimIdempotent(s: string)
    ensures Trim(Trim(s)) == Trim(s)
  {
    TrimLeftEnds(s);
    TrimRightEnds(TrimLeft(s));
  }

  /** A storage-class value that is a plain number is admitted as a count unless the key is about storage; any other
      value must be a quantity. */
  lemma StorageClassMeaning(key: string, value: string)
    requires Trim(value) != ""
    ensures AcceptsStorageClass(key, value) <==>
      if IsBareNumber(Trim(value)) then
        && IsQuantity(Trim(value))
        && (Contains(Lower(key), "persistentvolumeclaims") || !Contains(Lower(key), "storage"))
      else IsQuantity(Normalize(Trim(value)))
  {
    TrimIdempotent(value);
  }

  /** `value` reaches resource.MustParse as it stands: nothing around it, and not empty. */
  predicate IsTrimmed(value: string) {
    value != "" && Trim(value) == value
  }

  lemma {:induction false} TrimLeftKeepsClean(s: string)
    requires forall i :: 0 <= i < |s| ==> !IsSpace(s[i])
    ensures Trim(s) == s
  {
  }

  lemma NormalizeKeepsSpace(s: string, i: nat)
    requires i < |s| && IsSpace(s[i])
    ensures |Normalize(s)| == |s| && IsSpace(Normalize(s)[i])
  {
    NormalizePointwise(s);
  }

  /** A quantity is never blank or padded, also before normalisation. */
  lemma QuantitiesAreTrimmed(value: string)
    requires IsQuantity(Normalize(value))
    ensures IsTrimmed(value)
  {
    QuantityAlphabet(Normalize(value));
    forall i | 0 <= i < |value|
      ensures !IsSpace(value[i])
    {
      if IsSpace(value[i]) {
        NormalizeKeepsSpace(value, i);
      }
    }
    TrimLeftKeepsClean(value);
  }

  /** Admitted CPU quantities parse, with or without normalisation, exactly when they are trimmed. */
  lemma AcceptedCpuParses(value: string)
    requires AcceptsCpu(value)
    ensures IsQuantity(Normalize(value)) <==> IsTrimmed(value)
    ensures IsQuantity(value) <==> IsTrimmed(value)
  {
    if IsQuantity(Normalize(value)) {
      QuantitiesAreTrimmed(value);
    }
    if IsTrimmed(value) || IsQuantity(value) {
      NormalizeKeepsQuantities(value);
    }
  }

  /** Admitted byte quantities parse after normalisation exactly when they are trimmed. */
  lemma AcceptedBytesParse(value: string)
    requires AcceptsBytes(value)
    ensures IsQuantity(Normalize(value)) <==> IsTrimmed(value)
  {
    if IsQuantity(Normalize(value)) {
      QuantitiesAreTrimmed(value);
    }
  }

  lemma AcceptedStorageClassParses(key: string, value: string)
    requires AcceptsStorageClass(key, value)
    ensures IsQuantity(Normalize(value)) <==> IsTrimmed(value)
  {
    TrimIdempotent(value);
    if IsQuantity(Normalize(value)) {
      QuantitiesAreTrimmed(value);
    } else if IsTrimmed(value) && IsQuantity(value) {
      NormalizeKeepsQuantities(value);
    }
  }

  // ---------------------------------------------------------------- counts

  /** fmt.Sprintf("%d", n) */
  function Decimal(n: int): string
    decreases if n < 0 then 1 - n else n
  {
    if n < 0 then "-" + Decimal(-n)
    else if n < 10 then [('0' as int + n) as char]
    else Decimal(n / 10) + [('0' as int + n % 10) as char]
  }

  lemma {:induction false} AllDigits(s: string)
    requires forall i :: 0 <= i < |s| ==> IsDigit(s[i])
    ensures DigitRun(s) == |s|
  {
    if s == [] {
    } else {
      AllDigits(s[1..]);
    }
  }

  lemma {:induction false} DecimalDigits(n: nat)
    ensures Decimal(n) != [] && forall i :: 0 <= i < |Decimal(n)| ==> IsDigit(Decimal(n)[i])
  {
    if n < 10 {
    } else {
      DecimalDigits(n / 10);
    }
  }

  function DigitValue(c: char): nat
    requires IsDigit(c)
  {
    c as int - '0' as int
  }

  /** The number that a string of digits denotes. */
  function ValueOf(digits: string): nat
    requires forall i :: 0 <= i < |digits| ==> IsDigit(digits[i])
  {
    if digits == [] then 0 else 10 * ValueOf(digits[..|digits| - 1]) + DigitValue(digits[|digits| - 1])
  }

  /** Counts are written in decimal, with a minus sign when negative. */
  lemma {:induction false} DecimalDenotes(n: nat)
    ensures forall i :: 0 <= i < |Decimal(n)| ==> IsDigit(Decimal(n)[i])
    ensures ValueOf(Decimal(n)) == n && (n > 0 ==> Decimal(0 - n) == "-" + Decimal(n))
  {
    DecimalDigits(n);
    if n < 10 {
      assert Decimal(n)[..0] == [];
    } else {
      DecimalDenotes(n / 10);
      assert Decimal(n)[..|Decimal(n)| - 1] == Decimal(n / 10);
    }
  }

  lemma CountsParse(n: int)
    ensures IsQuantity(Decimal(n))
  {
    var digits := Decimal(if n < 0 then -n else n);
    DecimalDigits(if n < 0 then -n else n);
    AllDigits(digits);
    var s := Decimal(n);
    assert s[SignLength(s)..] == digits;
    assert s[NumberLength(s)..] == "";
  }
}
