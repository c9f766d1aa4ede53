/**
 * String helpers with JavaScript's meaning: `toLowerCase` (ASCII letters), `trim` and the regular
 * expression class `\s` (the ECMAScript WhiteSpace and LineTerminator characters), `startsWith`,
 * `includes`, `split` on one character, and `Array.prototype.join(",")`.
 */
module Text {

  /** `String.prototype.toLowerCase` on one character; only A-Z change (see README, Left out). */
  function LowerChar(c: char): char {
    if 'A' <= c <= 'Z' then (c as int + 32) as char else c
  }

  function Lower(s: string): (r: string)
    ensures |r| == |s|
    ensures forall i :: 0 <= i < |s| ==> r[i] == LowerChar(s[i])
  {
    if s == [] then [] else [LowerChar(s[0])] + Lower(s[1..])
  }

  lemma {:induction false} LowerIdempotent(s: string)
    ensures Lower(Lower(s)) == Lower(s)
  {
    if s != [] {
      LowerIdempotent(s[1..]);
    }
  }

  lemma LowerEmpty(s: string)
    ensures Lower(s) == "" <==> s == ""
  {
  }

  /** The characters `String.prototype.trim` removes and the regular-expression class `\s` matches. */
  predicate IsSpace(c: char) {
    c == ' ' || c == '\t' || c == '\n' || c == '\r' || c == '\U{000B}' || c == '\U{000C}'
    || c == '\U{00A0}' || c == '\U{1680}' || ('\U{2000}' <= c <= '\U{200A}')
    || c == '\U{2028}' || c == '\U{2029}' || c == '\U{202F}' || c == '\U{205F}'
    || c == '\U{3000}' || c == '\U{FEFF}'
  }

  function TrimStart(s: string): (r: string)
    ensures |r| <= |s| && r == s[|s| - |r|..]
    ensures r == [] || !IsSpace(r[0])
    ensures forall i :: 0 <= i < |s| - |r| ==> IsSpace(s[i])
  {
    if s != [] && IsSpace(s[0]) then TrimStart(s[1..]) else s
  }

  function TrimEnd(s: string): (r: string)
    ensures |r| <= |s| && r == s[..|r|]
    ensures r == [] || !IsSpace(r[|r| - 1])
    ensures forall i :: |r| <= i < |s| ==> IsSpace(s[i])
  {
    if s != [] && IsSpace(s[|s| - 1]) then TrimEnd(s[..|s| - 1]) else s
  }

  /** `String.prototype.trim`. */
  function Trim(s: string): string {
    TrimEnd(TrimStart(s))
  }

  lemma TrimEmptyIffBlank(s: string)
    ensures Trim(s) == "" <==> forall i :: 0 <= i < |s| ==> IsSpace(s[i])
  {
    var t := TrimStart(s);
    if Trim(s) == "" {
      assert t == [];
    } else {
      assert t != [];
    }
  }

  predicate StartsWith(s: string, prefix: string) {
    |prefix| <= |s| && s[..|prefix|] == prefix
  }

  predicate EndsWith(s: string, suffix: string) {
    |suffix| <= |s| && s[|s| - |suffix|..] == suffix
  }

  /** `String.prototype.includes`. */
  predicate Contains(s: string, sub: string)
    decreases |s|
  {
    StartsWith(s, sub) || (s != [] && Contains(s[1..], sub))
  }

  lemma {:induction false} ContainsAt(s: string, sub: string, i: nat)
    requires i + |sub| <= |s| && s[i..i + |sub|] == sub
    ensures Contains(s, sub)
    decreases i
  {
    if i > 0 {
      assert s[1..][i - 1..i - 1 + |sub|] == sub;
      ContainsAt(s[1..], sub, i - 1);
    }
  }

  /** Keeps the characters satisfying `keep` (the source's `replace(/[^...]/g, "")`). */
  function Filter(s: string, keep: char -> bool): (r: string)
    ensures |r| <= |s|
    ensures forall i :: 0 <= i < |r| ==> keep(r[i])
  {
    if s == [] then [] else (if keep(s[0]) then [s[0]] else []) + Filter(s[1..], keep)
  }

  lemma {:induction false} FilterConcat(s: string, t: string, keep: char -> bool)
    ensures Filter(s + t, keep) == Filter(s, keep) + Filter(t, keep)
    decreases |s|
  {
    if s != [] {
      assert (s + t)[0] == s[0] && (s + t)[1..] == s[1..] + t;
      FilterConcat(s[1..], t, keep);
      var h := if keep(s[0]) then [s[0]] else [];
      assert Filter(s + t, keep) == h + (Filter(s[1..], keep) + Filter(t, keep));
      assert h + (Filter(s[1..], keep) + Filter(t, keep)) == (h + Filter(s[1..], keep)) + Filter(t, keep);
    } else {
      assert s + t == t;
    }
  }

  /** A filter every character passes keeps the string. */
  lemma {:induction false} FilterKeepsAll(s: string, keep: char -> bool)
    requires forall i :: 0 <= i < |s| ==> keep(s[i])
    ensures Filter(s, keep) == s
    decreases |s|
  {
    if s != [] {
      FilterKeepsAll(s[1..], keep);
    }
  }

  /** A filter no character passes leaves nothing. */
  lemma {:induction false} FilterDropsAll(s: string, keep: char -> bool)
    requires forall i :: 0 <= i < |s| ==> !keep(s[i])
    ensures Filter(s, keep) == []
    decreases |s|
  {
    if s != [] {
      FilterDropsAll(s[1..], keep);
    }
  }

  /** Characters a filter drops before a string leave its result unchanged. */
  lemma FilterDropPrefix(u: string, v: string, keep: char -> bool)
    requires forall i :: 0 <= i < |u| ==> !keep(u[i])
    ensures Filter(u + v, keep) == Filter(v, keep)
  {
    FilterConcat(u, v, keep);
    FilterDropsAll(u, keep);
  }

  /** Characters a filter drops after a string leave its result unchanged. */
  lemma FilterDropSuffix(u: string, v: string, keep: char -> bool)
    requires forall i :: 0 <= i < |v| ==> !keep(v[i])
    ensures Filter(u + v, keep) == Filter(u, keep)
  {
    FilterConcat(u, v, keep);
    FilterDropsAll(v, keep);
    assert Filter(u, keep) + [] == Filter(u, keep);
  }

  lemma FilterTrimStart(s: string, keep: char -> bool)
    requires forall c :: IsSpace(c) ==> !keep(c)
    ensures Filter(TrimStart(s), keep) == Filter(s, keep)
  {
    var t := TrimStart(s);
    var u := s[..|s| - |t|];
    assert s == u + t;
    FilterDropPrefix(u, t, keep);
  }

  lemma FilterTrimEnd(s: string, keep: char -> bool)
    requires forall c :: IsSpace(c) ==> !keep(c)
    ensures Filter(TrimEnd(s), keep) == Filter(s, keep)
  {
    var r := TrimEnd(s);
    var v := s[|r|..];
    assert s == r + v;
    FilterDropSuffix(r, v, keep);
  }

  /** Trimming first makes no difference to a filter that drops white space. */
  lemma FilterTrim(s: string, keep: char -> bool)
    requires forall c :: IsSpace(c) ==> !keep(c)
    ensures Filter(Trim(s), keep) == Filter(s, keep)
  {
    FilterTrimStart(s, keep);
    FilterTrimEnd(TrimStart(s), keep);
  }

  /** Every character other than `c`. */
  function Other(c: char): char -> bool {
    x => x != c
  }

  /** `s.replace(/c/g, "")`: every occurrence of `c` removed. */
  function RemoveAll(s: string, c: char): (r: string)
    ensures |r| <= |s|
    ensures c !in r
  {
    if s == [] then [] else (if s[0] == c then [] else [s[0]]) + RemoveAll(s[1..], c)
  }

  /** Removing `c` keeps every other character, in order. */
  lemma {:induction false} RemoveAllKeepsOthers(s: string, c: char)
    ensures RemoveAll(s, c) == Filter(s, Other(c))
    decreases |s|
  {
    if s != [] {
      RemoveAllKeepsOthers(s[1..], c);
    }
  }

  lemma {:induction false} RemoveAllConcat(s: string, t: string, c: char)
    ensures RemoveAll(s + t, c) == RemoveAll(s, c) + RemoveAll(t, c)
    decreases |s|
  {
    if s != [] {
      assert (s + t)[0] == s[0] && (s + t)[1..] == s[1..] + t;
      RemoveAllConcat(s[1..], t, c);
      var h := if s[0] == c then [] else [s[0]];
      assert RemoveAll(s + t, c) == h + (RemoveAll(s[1..], c) + RemoveAll(t, c));
      assert h + (RemoveAll(s[1..], c) + RemoveAll(t, c)) == (h + RemoveAll(s[1..], c)) + RemoveAll(t, c);
    } else {
      assert s + t == t;
    }
  }

  /** Removing a character that does not occur changes nothing. */
  lemma {:induction false} RemoveAllAbsent(s: string, c: char)
    requires c !in s
    ensures RemoveAll(s, c) == s
    decreases |s|
  {
    if s != [] {
      RemoveAllAbsent(s[1..], c);
    }
  }

  /** `s.replace(c, d)` with a string pattern: only the first occurrence is replaced. */
  function ReplaceFirst(s: string, c: char, d: char): (r: string)
    ensures |r| == |s|
    ensures c !in s ==> r == s
    ensures c in s ==> r[IndexOf(s, c)] == d
    ensures forall i :: 0 <= i < |s| && i != IndexOf(s, c) ==> r[i] == s[i]
  {
    var k := IndexOf(s, c);
    if k == |s| then s else s[..k] + [d] + s[k + 1..]
  }

  /** `String.prototype.lastIndexOf` for one character: the last position of `c`, or -1. */
  function LastIndexOf(s: string, c: char): (r: int)
    ensures -1 <= r < |s|
    ensures r == -1 <==> c !in s
    ensures r >= 0 ==> s[r] == c
    ensures forall i :: r < i < |s| ==> s[i] != c
  {
    if s == [] then -1
    else
      var k := LastIndexOf(s[1..], c);
      if k >= 0 then k + 1 else if s[0] == c then 0 else -1
  }


  /** A position holding `c` with no `c` after it is the last position of `c`. */
  lemma LastIndexAt(s: string, c: char, k: int)
    requires 0 <= k < |s| && s[k] == c
    requires forall i :: k < i < |s| ==> s[i] != c
    ensures LastIndexOf(s, c) == k
  {
  }

  /** A `c` at the end of `w`, followed by text without `c`, is the last `c`. */
  lemma LastIndexAppend(w: string, t: string, c: char)
    requires |w| > 0 && w[|w| - 1] == c && c !in t
    ensures LastIndexOf(w + t, c) == |w| - 1
  {
    var s := w + t;
    forall i | |w| <= i < |s|
      ensures s[i] != c
    {
      assert s[i] == t[i - |w|];
    }
    LastIndexAt(s, c, |w| - 1);
  }

  /** Text without `c` appended after `w` leaves the last `c` where it was. */
  lemma LastIndexSkip(w: string, t: string, c: char)
    requires c !in t
    ensures LastIndexOf(w + t, c) == LastIndexOf(w, c)
  {
    var s := w + t;
    var k := LastIndexOf(w, c);
    if k >= 0 {
      assert s[k] == w[k];
      forall i | k < i < |s|
        ensures s[i] != c
      {
        if i < |w| {
          assert s[i] == w[i];
        } else {
          assert s[i] == t[i - |w|];
        }
      }
      LastIndexAt(s, c, k);
    } else {
      assert c !in s;
    }
  }

  /** Index of the first occurrence of `c`, or `|s|` when there is none. */
  function IndexOf(s: string, c: char): (r: nat)
    ensures r <= |s|
    ensures r < |s| ==> s[r] == c
    ensures forall i :: 0 <= i < r ==> s[i] != c
  {
    if s == [] then 0 else if s[0] == c then 0 else 1 + IndexOf(s[1..], c)
  }

  /** `s.split(sep)` for a one-character separator. */
  function Split(s: string, sep: char): (r: seq<string>)
    ensures |r| >= 1
    ensures forall i :: 0 <= i < |r| ==> sep !in r[i]
    decreases |s|
  {
    var k := IndexOf(s, sep);
    if k == |s| then [s] else [s[..k]] + Split(s[k + 1..], sep)
  }

  /** `parts.join(sep)`. */
  function Join(parts: seq<string>, sep: char): string {
    if |parts| == 0 then ""
    else if |parts| == 1 then parts[0]
    else Join(parts[..|parts| - 1], sep) + [sep] + parts[|parts| - 1]
  }

  /** A character absent from the text is absent from every piece. */
  lemma {:induction false} SplitWithout(s: string, sep: char, c: char)
    requires c !in s
    ensures forall i :: 0 <= i < |Split(s, sep)| ==> c !in Split(s, sep)[i]
    decreases |s|
  {
    var k := IndexOf(s, sep);
    if k < |s| {
      SplitWithout(s[k + 1..], sep, c);
      assert c !in s[..k] by {
        assert forall x :: x in s[..k] ==> x in s;
      }
    }
  }

  lemma {:induction false} SplitJoin(s: string, sep: char)
    ensures Join(Split(s, sep), sep) == s
    decreases |s|
  {
    var k := IndexOf(s, sep);
    if k < |s| {
      var rest := Split(s[k + 1..], sep);
      SplitJoin(s[k + 1..], sep);
      JoinCons(s[..k], rest, sep);
      assert s == s[..k] + [sep] + s[k + 1..];
    }
  }

  lemma {:induction false} JoinCons(x: string, rest: seq<string>, sep: char)
    requires |rest| >= 1
    ensures Join([x] + rest, sep) == x + [sep] + Join(rest, sep)
    decreases |rest|
  {
    if |rest| == 1 {
      assert ([x] + rest)[..1] == [x];
    } else {
      var init := rest[..|rest| - 1];
      JoinCons(x, init, sep);
      assert ([x] + rest)[..|rest|] == [x] + init;
    }
  }
}
