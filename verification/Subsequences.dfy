/** Greedy subsequence matching, as a learned correction tests it. */
module Subsequences {
  import opened EditScripts

  /** `at` picks out `shorter` from `longer`, left to right. */
  ghost predicate Embeds(at: seq<nat>, shorter: string, longer: string) {
    && |at| == |shorter|
    && (forall i :: 0 <= i < |at| ==> at[i] < |longer| && longer[at[i]] == shorter[i])
    && (forall i, j :: 0 <= i < j < |at| ==> at[i] < at[j])
  }

  ghost predicate IsSubsequenceOf(shorter: string, longer: string) {
    exists at :: Embeds(at, shorter, longer)
  }

  /** How many characters of `shorter` a left-to-right scan of `longer` finds. */
  function Matched(shorter: string, longer: string): (n: nat)
    ensures n <= |shorter|
  {
    if longer == [] then 0
    else
      var n := Matched(shorter, Front(longer));
      if n < |shorter| && shorter[n] == Last(longer) then n + 1 else n
  }

  /** What the scan finds really is there. */
  lemma {:induction false} MatchedIsEmbedded(shorter: string, longer: string) returns (at: seq<nat>)
    ensures Embeds(at, shorter[..Matched(shorter, longer)], longer)
  {
    at := [];
    if longer != [] {
      at := MatchedIsEmbedded(shorter, Front(longer));
      if Matched(shorter, longer) > Matched(shorter, Front(longer)) {
        at := at + [|longer| - 1];
      }
    }
  }

  /** And nothing longer is: the greedy choice is never worse than another embedding. */
  lemma {:induction false} GreedyIsBest(at: seq<nat>, shorter: string, longer: string, k: nat)
    requires k <= |shorter| && Embeds(at, shorter[..k], longer)
    ensures k <= Matched(shorter, longer)
  {
    if k > 0 {
      assert at[k - 1] < |longer|;
      if at[k - 1] == |longer| - 1 {
        assert Embeds(at[..k - 1], shorter[..k - 1], Front(longer));
        GreedyIsBest(at[..k - 1], shorter, Front(longer), k - 1);
      } else {
        GreedyIsBest(at, shorter, Front(longer), k);
      }
    }
  }

  lemma MatchedAllIffSubsequence(shorter: string, longer: string)
    ensures Matched(shorter, longer) == |shorter| <==> IsSubsequenceOf(shorter, longer)
  {
    if Matched(shorter, longer) == |shorter| {
      var at := MatchedIsEmbedded(shorter, longer);
      assert shorter[..|shorter|] == shorter;
    }
    if at :| Embeds(at, shorter, longer) {
      assert shorter[..|shorter|] == shorter;
      GreedyIsBest(at, shorter, longer, |shorter|);
    }
  }

  /** The scan of the source: one pass over `longer`, one index into `shorter`. */
  method IsSubsequence(shorter: string, longer: string) returns (found: bool)
    ensures found <==> IsSubsequenceOf(shorter, longer)
  {
    var index := 0;
    for i := 0 to |longer|
      invariant index == Matched(shorter, longer[..i])
    {
      assert Front(longer[..i + 1]) == longer[..i];
      if index < |shorter| && shorter[index] == longer[i] {
        index := index + 1;
      }
    }
    assert longer[..|longer|] == longer;
    MatchedAllIffSubsequence(shorter, longer);
    return index == |shorter|;
  }
}
