/** Digit strings with separators: where the separators sit and what removing them leaves. */
module DigitStrings {
  import opened Text
  import opened JsNumber

  /** Replacing the first `c` when it stands right after a `c`-free prefix. */
  lemma ReplaceAfter(w: string, c: char, d: char, f: string)
    requires c !in w
    ensures ReplaceFirst(w + [c] + f, c, d) == w + [d] + f
  {
    var s := w + [c] + f;
    assert s[|w|] == c;
    assert forall i :: 0 <= i < |w| ==> s[i] == w[i] && s[i] != c;
    assert IndexOf(s, c) == |w|;
    assert s[..|w|] == w && s[|w| + 1..] == f;
  }

  lemma {:induction false} NoSeparator(a: string, c: char)
    requires AllDigits(a) && !IsDigit(c)
    ensures c !in a
  {
    assert forall i :: 0 <= i < |a| ==> a[i] != c;
  }

  /** Removing the only `c`. */
  lemma RemoveSingle(a: string, c: char, b: string)
    requires c !in a && c !in b
    ensures RemoveAll(a + [c] + b, c) == a + b
  {
    var u := a + [c];
    RemoveAllConcat(u, b, c);
    RemoveAllConcat(a, [c], c);
    RemoveAllAbsent(a, c);
    RemoveAllAbsent(b, c);
    assert RemoveAll([c], c) == [];
    assert RemoveAll(u, c) == a;
  }

  /** Removing the thousands separator from digits, `thou`, digits, `dec`, digits. */
  lemma RemoveThousands(a: string, thou: char, b: string, dec: char, c: string)
    requires thou != dec && thou !in a && thou !in b && thou !in c
    ensures RemoveAll(a + [thou] + b + [dec] + c, thou) == (a + b) + [dec] + c
  {
    var u := a + [thou];
    var v := u + b;
    var w := v + [dec];
    RemoveAllConcat(w, c, thou);
    RemoveAllConcat(v, [dec], thou);
    RemoveAllConcat(u, b, thou);
    RemoveAllConcat(a, [thou], thou);
    RemoveAllAbsent(a, thou);
    RemoveAllAbsent(b, thou);
    RemoveAllAbsent(c, thou);
    RemoveAllAbsent([dec], thou);
    assert RemoveAll([thou], thou) == [];
    assert RemoveAll(u, thou) == a;
    assert RemoveAll(v, thou) == a + b;
    assert RemoveAll(w, thou) == a + b + [dec];
  }

  /** In digits, `thou`, digits, `dec`, digits, the separator `dec` occurs last... */
  lemma LastDecimal(a: string, thou: char, b: string, dec: char, c: string)
    requires AllDigits(c) && !IsDigit(dec)
    ensures LastIndexOf(a + [thou] + b + [dec] + c, dec) == |a| + |b| + 1
  {
    NoSeparator(c, dec);
    LastIndexAppend(a + [thou] + b + [dec], c, dec);
  }

  /** ... and the last `thou` is the one after the leading digits. */
  lemma LastThousands(a: string, thou: char, b: string, dec: char, c: string)
    requires AllDigits(b) && AllDigits(c) && !IsDigit(thou) && thou != dec
    ensures LastIndexOf(a + [thou] + b + [dec] + c, thou) == |a|
  {
    NoSeparator(b, thou);
    NoSeparator(c, thou);
    LastIndexSkip(a + [thou] + b + [dec], c, thou);
    LastIndexSkip(a + [thou] + b, [dec], thou);
    LastIndexSkip(a + [thou], b, thou);
    LastIndexAt(a + [thou], thou, |a|);
  }
}

/**
 * The filter bar's state helpers: toggling a chain or an activity type in the selection, the
 * locale-tolerant reading of the minimum-USD field ("1.000,50", "1,5", "1000"), the 0.01 floor
 * applied to it, and the reset. The draft text of the field is the parameter `draft`; React state
 * and the `onChange` callback are the returned `Filters` value.
 */
module FilterBar {
  import opened Wrappers
  import opened Text
  import opened JsNumber
  import opened Activities
  import opened DigitStrings

  /** `Filters`: the selected chains and types, the optional minimum, and the two switches. */
  datatype Filters = Filters(
    chains: seq<int>,
    types: seq<ActivityType>,
    minUsd: Option<real>,
    onlyUsdValued: Option<bool>,
    collapsePassThrough: Option<bool>)

  predicate Distinct<T(==)>(s: seq<T>) {
    forall i, j :: 0 <= i < j < |s| ==> s[i] != s[j]
  }

  /** `Array.from(new Set(xs))`: each element once, in order of first occurrence. */
  function Dedup<T(==,!new)>(xs: seq<T>): (r: seq<T>)
    ensures forall x :: x in r <==> x in xs
    ensures Distinct(r)
  {
    if xs == [] then []
    else
      assert xs == xs[..|xs| - 1] + [xs[|xs| - 1]];
      var r := Dedup(xs[..|xs| - 1]);
      if xs[|xs| - 1] in r then r else r + [xs[|xs| - 1]]
  }

  /** A sequence without repetitions is its own set, in the same order. */
  lemma {:induction false} DedupDistinct<T(!new)>(xs: seq<T>)
    requires Distinct(xs)
    ensures Dedup(xs) == xs
  {
    if xs != [] {
      var init := xs[..|xs| - 1];
      assert Distinct(init);
      DedupDistinct(init);
      assert xs[|xs| - 1] !in init by {
        forall i | 0 <= i < |init|
          ensures init[i] != xs[|xs| - 1]
        {
          assert init[i] == xs[i];
        }
      }
      assert xs == init + [xs[|xs| - 1]];
    }
  }

  /** `set.delete(x)` on an insertion-ordered set. */
  function Without<T(==,!new)>(s: seq<T>, x: T): (r: seq<T>)
    ensures forall y :: y in r <==> y in s && y != x
    ensures Distinct(s) ==> Distinct(r)
  {
    if s == [] then []
    else
      var init := s[..|s| - 1];
      var last := s[|s| - 1];
      assert s == init + [last];
      assert Distinct(s) ==> last !in init by {
        if Distinct(s) {
          forall i | 0 <= i < |init|
            ensures init[i] != last
          {
            assert init[i] == s[i];
          }
        }
      }
      var r := Without(init, x);
      if last == x then r else r + [last]
  }

  /** The selection after `toggle(x)`: `x` removed when it was selected, appended otherwise. */
  function Toggled<T(==,!new)>(xs: seq<T>, x: T): (r: seq<T>)
    ensures forall y :: y in r <==> (if y == x then x !in xs else y in xs)
    ensures Distinct(r)
  {
    var selected := Dedup(xs);
    if x in selected then Without(selected, x) else selected + [x]
  }

  /** The `Set` built from the selection, then `delete` or `add`, then `Array.from`. */
  method Toggle<T(==,!new)>(xs: seq<T>, x: T) returns (r: seq<T>)
    ensures r == Toggled(xs, x)
  {
    r := [];
    for i := 0 to |xs|
      invariant r == Dedup(xs[..i])
    {
      assert xs[..i + 1] == xs[..i] + [xs[i]];
      if xs[i] !in r {
        r := r + [xs[i]];
      }
    }
    assert xs[..|xs|] == xs;
    if x in r {
      r := Without(r, x);
    } else {
      r := r + [x];
    }
  }

  /** `toggleChain`: only the chain list changes. */
  method ToggleChain(value: Filters, id: int) returns (next: Filters)
    ensures next == value.(chains := Toggled(value.chains, id))
  {
    var chains := Toggle(value.chains, id);
    next := value.(chains := chains);
  }

  /** `toggleType`: only the type list changes. */
  method ToggleType(value: Filters, t: ActivityType) returns (next: Filters)
    ensures next == value.(types := Toggled(value.types, t))
  {
    var types := Toggle(value.types, t);
    next := value.(types := types);
  }

  /** Toggling the same element twice restores every element's membership. */
  lemma ToggleTwice<T(!new)>(xs: seq<T>, x: T)
    ensures forall y :: y in Toggled(Toggled(xs, x), x) <==> y in xs
  {
  }

  /** On a selection without repetitions, toggling removes `x` in place or appends it at the end. */
  lemma ToggleDistinct<T(!new)>(xs: seq<T>, x: T)
    requires Distinct(xs)
    ensures x in xs ==> Toggled(xs, x) == Without(xs, x)
    ensures x !in xs ==> Toggled(xs, x) == xs + [x]
  {
    DedupDistinct(xs);
  }

  /** The characters `[0-9,.-]` the number reader keeps. */
  predicate IsKept(c: char) {
    IsDigit(c) || c == ',' || c == '.' || c == '-'
  }

  /** `/,\d{1,2}$/`: the text ends in a comma followed by one or two digits. */
  predicate DecimalCommaTail(s: string) {
    || (|s| >= 2 && s[|s| - 2] == ',' && IsDigit(s[|s| - 1]))
    || (|s| >= 3 && s[|s| - 3] == ',' && IsDigit(s[|s| - 2]) && IsDigit(s[|s| - 1]))
  }

  /**
   * Rewrites the separators of the cleaned text into `Number` syntax. With both `,` and `.`, the
   * one occurring last is the decimal separator: every occurrence of the other is removed and the
   * first decimal separator becomes `.`. With `,` only, a trailing `,d` or `,dd` makes the first
   * comma the decimal point; otherwise every comma is removed.
   */
  function Separators(cleaned: string): (norm: string)
    ensures |norm| <= |cleaned|
    ensures ',' in cleaned && '.' in cleaned && LastIndexOf(cleaned, '.') > LastIndexOf(cleaned, ',') ==>
      norm == RemoveAll(cleaned, ',')
    ensures ',' in cleaned && '.' in cleaned && LastIndexOf(cleaned, ',') > LastIndexOf(cleaned, '.') ==>
      var noDots := RemoveAll(cleaned, '.');
      && ',' in noDots && |norm| == |noDots|
      && norm[IndexOf(noDots, ',')] == '.'
      && forall i :: 0 <= i < |norm| && i != IndexOf(noDots, ',') ==> norm[i] == noDots[i]
    ensures ',' in cleaned && '.' !in cleaned && DecimalCommaTail(cleaned) ==>
      && |norm| == |cleaned| && norm[IndexOf(cleaned, ',')] == '.'
      && forall i :: 0 <= i < |norm| && i != IndexOf(cleaned, ',') ==> norm[i] == cleaned[i]
    ensures ',' in cleaned && '.' !in cleaned && !DecimalCommaTail(cleaned) ==> norm == RemoveAll(cleaned, ',')
    ensures ',' !in cleaned ==> norm == cleaned
  {
    if ',' in cleaned && '.' in cleaned then
      var dec := if LastIndexOf(cleaned, '.') > LastIndexOf(cleaned, ',') then '.' else ',';
      var thou := if dec == '.' then ',' else '.';
      if dec == ',' then
        CommaSurvives(cleaned);
        ReplaceFirst(RemoveAll(cleaned, thou), dec, '.')
      else
        ReplaceSame(RemoveAll(cleaned, thou), '.');
        ReplaceFirst(RemoveAll(cleaned, thou), dec, '.')
    else if ',' in cleaned then
      if DecimalCommaTail(cleaned) then ReplaceFirst(cleaned, ',', '.') else RemoveAll(cleaned, ',')
    else cleaned
  }

  /** Replacing a character by itself changes nothing. */
  lemma ReplaceSame(s: string, c: char)
    ensures ReplaceFirst(s, c, c) == s
  {
  }

  /** Removing the dots keeps the commas. */
  lemma CommaSurvives(s: string)
    requires ',' in s
    ensures ',' in RemoveAll(s, '.')
  {
    var k := IndexOf(s, ',');
    assert s == s[..k] + ([','] + s[k + 1..]);
    RemoveAllConcat(s[..k], [','] + s[k + 1..], '.');
    RemoveAllConcat([','], s[k + 1..], '.');
    assert RemoveAll([','], '.') == [','];
  }

  /** `parseUserNumber`: `None` for blank or unreadable input, otherwise the number. */
  function ParseUserNumber(raw: string): (r: Option<real>)
    ensures Trim(raw) == "" ==> r == None
  {
    var s := Trim(raw);
    if s == "" then None else NumberOf(Separators(Filter(s, IsKept)))
  }

  /** Empty or white-space-only input reads as nothing. */
  lemma BlankIsNull(raw: string)
    requires forall i :: 0 <= i < |raw| ==> IsSpace(raw[i])
    ensures ParseUserNumber(raw) == None
  {
    TrimEmptyIffBlank(raw);
  }

  /** Only the kept characters matter: texts that agree on them (and are not blank) read alike. */
  lemma OnlyKeptCharactersCount(raw1: string, raw2: string)
    requires Trim(raw1) != "" && Trim(raw2) != ""
    requires Filter(raw1, IsKept) == Filter(raw2, IsKept)
    ensures ParseUserNumber(raw1) == ParseUserNumber(raw2)
  {
    FilterTrim(raw1, IsKept);
    FilterTrim(raw2, IsKept);
  }

  /** Digits, one separator `c`, digits. */
  lemma OneSeparator(a: string, c: char, b: string)
    requires AllDigits(a) && AllDigits(b) && IsKept(c)
    ensures forall i :: 0 <= i < |a + [c] + b| ==> IsKept((a + [c] + b)[i])
    ensures forall d :: d != c && !IsDigit(d) ==> d !in a + [c] + b
  {
    var s := a + [c] + b;
    assert forall i :: 0 <= i < |s| ==> s[i] == c || IsDigit(s[i]);
  }

  /** Digits, a kept separator, digits, another kept separator, digits. */
  lemma TwoSeparators(a: string, c1: char, b: string, c2: char, c: string)
    requires AllDigits(a) && AllDigits(b) && AllDigits(c) && IsKept(c1) && IsKept(c2)
    ensures forall i :: 0 <= i < |a + [c1] + b + [c2] + c| ==> IsKept((a + [c1] + b + [c2] + c)[i])
  {
    var s := a + [c1] + b + [c2] + c;
    assert forall i :: 0 <= i < |s| ==> s[i] == c1 || s[i] == c2 || IsDigit(s[i]);
  }

  /** A text of kept characters is its own cleaned form. */
  lemma ReadClean(s: string)
    requires s != [] && forall i :: 0 <= i < |s| ==> IsKept(s[i])
    ensures ParseUserNumber(s) == NumberOf(Separators(s))
  {
    assert IsKept(s[0]) && IsKept(s[|s| - 1]);
    TrimUnpadded(s);
    FilterKeepsAll(s, IsKept);
  }

  lemma DecimalCommaSeparators(a: string, b: string)
    requires AllDigits(a) && AllDigits(b) && 1 <= |b| <= 2
    ensures Separators(a + [','] + b) == a + "." + b
  {
    var s := a + [','] + b;
    OneSeparator(a, ',', b);
    assert s[|a|] == ',';
    assert s[|s| - 1 - |b|] == ',';
    assert DecimalCommaTail(s);
    NoSeparator(a, ',');
    ReplaceAfter(a, ',', '.', b);
  }

  /** "12,5" and "12,50": a comma followed by one or two digits at the end is a decimal comma. */
  lemma DecimalComma(a: string, b: string)
    requires a != [] && AllDigits(a) && AllDigits(b) && 1 <= |b| <= 2
    ensures ParseUserNumber(a + [','] + b) == Some((DigitsValue(a + b) as real) / (Pow10(|b|) as real))
  {
    OneSeparator(a, ',', b);
    ReadClean(a + [','] + b);
    DecimalCommaSeparators(a, b);
    DecimalNumber(a, b);
  }

  lemma ThousandsSeparators(a: string, b: string)
    requires AllDigits(a) && AllDigits(b) && |b| == 3
    ensures Separators(a + [','] + b) == a + b
  {
    var s := a + [','] + b;
    OneSeparator(a, ',', b);
    assert s[|a|] == ',';
    assert s[|s| - 3] == b[0] && s[|s| - 2] == b[1];
    NoSeparator(a, ',');
    NoSeparator(b, ',');
    RemoveSingle(a, ',', b);
  }

  /** "1,000": a comma followed by three digits separates thousands. */
  lemma ThousandsComma(a: string, b: string)
    requires a != [] && AllDigits(a) && AllDigits(b) && |b| == 3
    ensures ParseUserNumber(a + [','] + b) == Some(DigitsValue(a + b) as real)
  {
    OneSeparator(a, ',', b);
    ReadClean(a + [','] + b);
    ThousandsSeparators(a, b);
    assert AllDigits(a + b);
    DigitsNumber(a + b);
  }

  lemma GroupedSeparators(a: string, thou: char, b: string, dec: char, c: string)
    requires (thou == ',' && dec == '.') || (thou == '.' && dec == ',')
    requires AllDigits(a) && AllDigits(b) && AllDigits(c)
    ensures Separators(a + [thou] + b + [dec] + c) == (a + b) + "." + c
  {
    var s := a + [thou] + b + [dec] + c;
    LastDecimal(a, thou, b, dec, c);
    LastThousands(a, thou, b, dec, c);
    assert s[|a|] == thou && s[|a| + |b| + 1] == dec;
    NoSeparator(a, thou);
    NoSeparator(b, thou);
    NoSeparator(c, thou);
    RemoveThousands(a, thou, b, dec, c);
    assert AllDigits(a + b);
    NoSeparator(a + b, dec);
    ReplaceAfter(a + b, dec, '.', c);
  }

  /**
   * "1.000,50" and "1,000.50": with both separators, the one occurring last is the decimal point
   * and the other groups thousands.
   */
  lemma GroupedDecimal(a: string, thou: char, b: string, dec: char, c: string)
    requires (thou == ',' && dec == '.') || (thou == '.' && dec == ',')
    requires a != [] && AllDigits(a) && AllDigits(b) && AllDigits(c)
    ensures ParseUserNumber(a + [thou] + b + [dec] + c)
      == Some((DigitsValue(a + b + c) as real) / (Pow10(|c|) as real))
  {
    TwoSeparators(a, thou, b, dec, c);
    ReadClean(a + [thou] + b + [dec] + c);
    GroupedSeparators(a, thou, b, dec, c);
    assert AllDigits(a + b);
    DecimalNumber(a + b, c);
  }

  /** `applyMinUsd`'s value: nothing for unreadable input, otherwise the number raised to 0.01. */
  function MinUsdOf(draft: string): (r: Option<real>)
    ensures r.None? <==> ParseUserNumber(draft).None?
    ensures r.Some? ==> r.value >= 0.01
    ensures r.Some? && ParseUserNumber(draft).value >= 0.01 ==> r.value == ParseUserNumber(draft).value
    ensures r.Some? && ParseUserNumber(draft).value < 0.01 ==> r.value == 0.01
  {
    match ParseUserNumber(draft)
    case None => None
    case Some(n) => Some(Max(0.01, n))
  }

  /** `applyMinUsd`: only the minimum changes. */
  function ApplyMinUsd(value: Filters, draft: string): (next: Filters)
    ensures next.chains == value.chains && next.types == value.types
    ensures next.onlyUsdValued == value.onlyUsdValued && next.collapsePassThrough == value.collapsePassThrough
    ensures next.minUsd.None? || next.minUsd.value >= 0.01
  {
    value.(minUsd := MinUsdOf(draft))
  }

  /** `clear`: every offered chain and type, no minimum, both switches on. */
  function Clear(availableChains: seq<int>, availableTypes: seq<ActivityType>): (f: Filters)
    ensures f.chains == availableChains && f.types == availableTypes
    ensures f.minUsd == None && f.onlyUsdValued == Some(true) && f.collapsePassThrough == Some(true)
  {
    Filters(availableChains, availableTypes, None, Some(true), Some(true))
  }
}
