/**
 * `HomePage`: the wallet form. Submitting checks the input against `^0x[a-fA-F0-9]{40}$` and either
 * refuses it or navigates to the wallet's results page.
 */
module HomePage {
  import opened Wrappers

  /** `[a-fA-F0-9]`. */
  predicate IsHexDigit(c: char) {
    '0' <= c <= '9' || 'a' <= c <= 'f' || 'A' <= c <= 'F'
  }

  /** A wallet address: `0x` (lower-case x) and exactly 40 hexadecimal digits, nothing else. */
  predicate IsAddress(s: string) {
    |s| == 42 && s[0] == '0' && s[1] == 'x' && forall i :: 2 <= i < 42 ==> IsHexDigit(s[i])
  }

  /** `[a-fA-F0-9]{n}$`: exactly `n` digits and then the end of the input. */
  function HexRun(s: string, n: nat): bool {
    if n == 0 then s == []
    else s != [] && IsHexDigit(s[0]) && HexRun(s[1..], n - 1)
  }

  /** The regular expression, piece by piece: the literal `0x`, then forty digits, anchored at both ends. */
  function Matches(s: string): bool {
    |s| >= 2 && s[0] == '0' && s[1] == 'x' && HexRun(s[2..], 40)
  }

  /** The route `handleSubmit` navigates to, or nothing when the input is refused. */
  function Submit(wallet: string): Option<string> {
    if !Matches(wallet) then None else Some("/results/" + wallet)
  }

  /** A run of `n` digits is exactly a string of length `n` made of digits. */
  lemma {:induction false} HexRunIff(s: string, n: nat)
    ensures HexRun(s, n) <==> |s| == n && forall i :: 0 <= i < |s| ==> IsHexDigit(s[i])
  {
    if n > 0 && s != [] {
      HexRunIff(s[1..], n - 1);
      if |s| == n && forall i :: 0 <= i < |s| ==> IsHexDigit(s[i]) {
        assert forall i :: 0 <= i < |s[1..]| ==> s[1..][i] == s[i + 1];
      }
      if HexRun(s, n) {
        forall i | 0 <= i < |s|
          ensures IsHexDigit(s[i])
        {
          if i > 0 {
            assert s[i] == s[1..][i - 1];
          }
        }
      }
    }
  }

  /** The pattern accepts exactly the addresses. */
  lemma MatchesIff(s: string)
    ensures Matches(s) <==> IsAddress(s)
  {
    if |s| >= 2 {
      HexRunIff(s[2..], 40);
      assert forall i :: 2 <= i < |s| ==> s[i] == s[2..][i - 2];
    }
  }

  /**
   * Submitting navigates exactly when the input is an address, and then to `/results/` followed by
   * the input as typed, with no change of case.
   */
  lemma SubmitFacts(wallet: string)
    ensures Submit(wallet).Some? <==> IsAddress(wallet)
    ensures Submit(wallet).Some? ==> Submit(wallet).value == "/results/" + wallet
    ensures Submit(wallet).Some? ==> Submit(wallet).value[|"/results/"|..] == wallet
  {
    MatchesIff(wallet);
  }

  /** The prefix is case-sensitive (`0X…` is refused), while the digits may be of either case. */
  lemma CaseRules(s: string, t: string)
    requires |s| == |t| == 42
    requires forall i :: 0 <= i < 42 && i != 1 ==> (s[i] == t[i] || (IsHexDigit(s[i]) && IsHexDigit(t[i]) && i >= 2))
    ensures t[1] == 'X' ==> Submit(t).None?
    ensures IsAddress(s) && t[1] == 'x' ==> Submit(t).Some?
  {
    MatchesIff(t);
  }
}
