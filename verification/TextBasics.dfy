module Wrappers {
  datatype Option<+T> = None | Some(value: T)
}

/** Bytes, and text without the white space around it. */
module TextBasics {
  newtype Byte = x: int | 0 <= x < 256

  const NEWLINE: Byte := 10

  function TrimStart<T>(space: T -> bool, s: seq<T>): seq<T> {
    if s != [] && space(s[0]) then TrimStart(space, s[1..]) else s
  }

  function TrimEnd<T>(space: T -> bool, s: seq<T>): seq<T> {
    if s != [] && space(s[|s| - 1]) then TrimEnd(space, s[..|s| - 1]) else s
  }

  function Trimmed<T>(space: T -> bool, s: seq<T>): seq<T> {
    TrimEnd(space, TrimStart(space, s))
  }

  predicate AllSpace<T(!new)>(space: T -> bool, s: seq<T>) {
    forall k :: 0 <= k < |s| ==> space(s[k])
  }

  lemma {:induction false} TrimStartCuts<T(!new)>(space: T -> bool, s: seq<T>) returns (n: nat)
    ensures n <= |s| && TrimStart(space, s) == s[n..] && AllSpace(space, s[..n])
    ensures n < |s| ==> !space(s[n])
  {
    if s != [] && space(s[0]) {
      n := TrimStartCuts(space, s[1..]);
      n := n + 1;
      assert s[..n] == [s[0]] + s[1..][..n - 1];
    } else {
      n := 0;
    }
  }

  lemma {:induction false} TrimEndCuts<T(!new)>(space: T -> bool, s: seq<T>) returns (n: nat)
    ensures n <= |s| && TrimEnd(space, s) == s[..n] && AllSpace(space, s[n..])
    ensures n > 0 ==> !space(s[n - 1])
  {
    if s != [] && space(s[|s| - 1]) {
      n := TrimEndCuts(space, s[..|s| - 1]);
      assert s[n..] == s[..|s| - 1][n..] + [s[|s| - 1]];
    } else {
      n := |s|;
    }
  }

  /** Trimming takes white space off both ends, and all of it. */
  lemma TrimmedCuts<T(!new)>(space: T -> bool, s: seq<T>) returns (i: nat, j: nat)
    ensures i <= j <= |s| && Trimmed(space, s) == s[i..j]
    ensures AllSpace(space, s[..i]) && AllSpace(space, s[j..])
    ensures i < j ==> !space(s[i]) && !space(s[j - 1])
  {
    i := TrimStartCuts(space, s);
    j := TrimEndCuts(space, s[i..]);
    j := i + j;
    assert s[i..][j - i..] == s[j..] && s[i..][..j - i] == s[i..j];
  }
}
