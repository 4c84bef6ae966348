module Pigeonhole {
  /** Distinct numbers below n are at most n. */
  lemma {:induction false} AtMost(s: seq<int>, n: nat)
    requires forall i, j :: 0 <= i < j < |s| ==> s[i] != s[j]
    requires forall i :: 0 <= i < |s| ==> 0 <= s[i] < n
    ensures |s| <= n
    decreases n
  {
    if s != [] {
      assert 0 <= s[0] < n;
      if n - 1 in s {
        var i :| 0 <= i < |s| && s[i] == n - 1;
        var rest := s[..i] + s[i + 1..];
        assert forall j :: 0 <= j < |rest| ==> rest[j] == s[if j < i then j else j + 1];
        AtMost(rest, n - 1);
      } else {
        assert forall i :: 0 <= i < |s| ==> s[i] != n - 1;
        AtMost(s, n - 1);
      }
    }
  }
}
