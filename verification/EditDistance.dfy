/** The two-row edit distance and the laws it obeys. */
module EditDistance {
  import opened EditScripts
  import opened Subsequences

  function Min3(x: int, y: int, z: int): int {
    if x <= y && x <= z then x else if y <= z then y else z
  }

  /** The full table the source keeps two rows of. */
  function Cell(a: string, b: string, i: nat, j: nat): nat
    requires i <= |a| && j <= |b|
  {
    if i == 0 then j
    else if j == 0 then i
    else
      Min3(Cell(a, b, i - 1, j) + 1, Cell(a, b, i, j - 1) + 1,
           Cell(a, b, i - 1, j - 1) + if a[i - 1] == b[j - 1] then 0 else 1)
  }

  function Distance(a: string, b: string): nat {
    Cell(a, b, |a|, |b|)
  }

  function Fold(fold: char -> char, text: string): (folded: string)
    ensures |folded| == |text|
  {
    if text == [] then [] else Fold(fold, Front(text)) + [fold(Last(text))]
  }

  lemma {:induction false} FoldAt(fold: char -> char, text: string, i: nat)
    requires i < |text|
    ensures Fold(fold, text)[i] == fold(text[i])
  {
    if i < |text| - 1 {
      FoldAt(fold, Front(text), i);
    }
  }

  /** A script of exactly a cell's cost, between the prefixes the cell stands for. */
  ghost function CellScript(a: string, b: string, i: nat, j: nat): (script: Script)
    requires i <= |a| && j <= |b|
    ensures Turns(script, a[..i], b[..j]) && Cost(script) == Cell(a, b, i, j)
  {
    FrontOfPrefix(a, i);
    FrontOfPrefix(b, j);
    if i == 0 && j == 0 then Done
    else if i == 0 then Insert(CellScript(a, b, i, j - 1), b[j - 1])
    else if j == 0 then Delete(CellScript(a, b, i - 1, j))
    else if Cell(a, b, i, j) == Cell(a, b, i - 1, j) + 1 then Delete(CellScript(a, b, i - 1, j))
    else if Cell(a, b, i, j) == Cell(a, b, i, j - 1) + 1 then Insert(CellScript(a, b, i, j - 1), b[j - 1])
    else if a[i - 1] == b[j - 1] then Keep(CellScript(a, b, i - 1, j - 1))
    else Substitute(CellScript(a, b, i - 1, j - 1), b[j - 1])
  }

  lemma FrontOfPrefix(s: string, i: nat)
    requires i <= |s|
    ensures i > 0 ==> Front(s[..i]) == s[..i - 1] && Last(s[..i]) == s[i - 1]
  {
  }

  lemma {:induction false} NoScriptBeatsCell(script: Script, a: string, b: string, i: nat, j: nat)
    requires i <= |a| && j <= |b| && Turns(script, a[..i], b[..j])
    ensures Cell(a, b, i, j) <= Cost(script)
    decreases script
  {
    FrontOfPrefix(a, i);
    FrontOfPrefix(b, j);
    match script
    case Done =>
    case Keep(earlier) => NoScriptBeatsCell(earlier, a, b, i - 1, j - 1);
    case Substitute(earlier, _) => NoScriptBeatsCell(earlier, a, b, i - 1, j - 1);
    case Insert(earlier, _) => NoScriptBeatsCell(earlier, a, b, i, j - 1);
    case Delete(earlier) => NoScriptBeatsCell(earlier, a, b, i - 1, j);
  }

  ghost function BestScript(a: string, b: string): (script: Script)
    ensures Turns(script, a, b) && Cost(script) == Distance(a, b)
  {
    assert a[..|a|] == a && b[..|b|] == b;
    CellScript(a, b, |a|, |b|)
  }

  lemma NoScriptIsCheaper(script: Script, a: string, b: string)
    requires Turns(script, a, b)
    ensures Distance(a, b) <= Cost(script)
  {
    assert a[..|a|] == a && b[..|b|] == b;
    NoScriptBeatsCell(script, a, b, |a|, |b|);
  }

  lemma DistanceIsLeastCost(a: string, b: string)
    ensures IsLeastCost(a, b, Distance(a, b))
  {
    var best := BestScript(a, b);
    forall script | Turns(script, a, b)
      ensures Distance(a, b) <= Cost(script)
    {
      NoScriptIsCheaper(script, a, b);
    }
  }

  /** `row` starts with the first `n` cells of the table's row `i`. */
  ghost predicate IsRow(row: seq<int>, n: nat, a: string, b: string, i: nat) {
    && i <= |a| && n <= |row| == |b| + 1
    && forall j {:trigger row[j]} :: 0 <= j < n ==> row[j] == Cell(a, b, i, j)
  }

  /** A cell from the three before it. */
  function LeastStep(above: int, before: int, diagonal: int, same: bool): int {
    Min3(above + 1, before + 1, diagonal + if same then 0 else 1)
  }

  lemma RowGrows(previous: seq<int>, row: seq<int>, a: string, b: string, i: nat, j: nat)
    requires 0 < i <= |a| && 0 < j <= |b|
    requires IsRow(previous, |b| + 1, a, b, i - 1) && IsRow(row, j, a, b, i)
    ensures IsRow(row[j := LeastStep(previous[j], row[j - 1], previous[j - 1], a[i - 1] == b[j - 1])], j + 1, a, b, i)
  {
  }

  lemma LastCell(row: seq<int>, a: string, b: string)
    requires IsRow(row, |b| + 1, a, b, |a|)
    ensures row[|b|] == Distance(a, b)
  {
  }

  /** Fills the table a row at a time in two arrays that trade places after each row. */
  method ComputeEditDistance(fold: char -> char, left: string, right: string) returns (distance: nat)
    ensures IsLeastCost(Fold(fold, left), Fold(fold, right), distance)
    ensures distance == Distance(Fold(fold, left), Fold(fold, right))
  {
    ghost var a, b := Fold(fold, left), Fold(fold, right);
    var previous := new int[|right| + 1];
    var current := new int[|right| + 1];
    FirstRow(previous, a, b);
    for leftIndex := 1 to |left| + 1
      invariant fresh(previous) && fresh(current) && previous != current && current.Length == |right| + 1
      invariant IsRow(previous[..], |right| + 1, a, b, leftIndex - 1)
    {
      FillRow(fold, left, right, leftIndex, previous, current);
      previous, current := current, previous;
    }
    LastCell(previous[..], a, b);
    DistanceIsLeastCost(a, b);
    distance := previous[|right|];
  }

  /** The row of the empty prefix. */
  method FirstRow(previous: array<int>, ghost a: string, ghost b: string)
    requires previous.Length == |b| + 1
    modifies previous
    ensures IsRow(previous[..], |b| + 1, a, b, 0)
  {
    for index := 0 to previous.Length
      invariant forall j :: 0 <= j < index ==> previous[j] == j
    {
      previous[index] := index;
    }
  }

  /** The inner loop: one row from the row above it. */
  method FillRow(fold: char -> char, left: string, right: string, leftIndex: nat,
                 previous: array<int>, current: array<int>)
    requires 0 < leftIndex <= |left| && previous != current && current.Length == |right| + 1
    requires IsRow(previous[..], |right| + 1, Fold(fold, left), Fold(fold, right), leftIndex - 1)
    modifies current
    ensures IsRow(current[..], |right| + 1, Fold(fold, left), Fold(fold, right), leftIndex)
  {
    ghost var a, b := Fold(fold, left), Fold(fold, right);
    ghost var above := previous[..];
    current[0] := leftIndex;
    for rightIndex := 1 to |right| + 1
      invariant previous[..] == above && IsRow(current[..], rightIndex, a, b, leftIndex)
    {
      ghost var row := current[..];
      var least := LeastStep(previous[rightIndex], current[rightIndex - 1], previous[rightIndex - 1],
                             fold(left[leftIndex - 1]) == fold(right[rightIndex - 1]));
      current[rightIndex] := least;
      assert current[..] == row[rightIndex := least];
      FoldAt(fold, left, leftIndex - 1);
      FoldAt(fold, right, rightIndex - 1);
      RowGrows(above, row, a, b, leftIndex, rightIndex);
    }
  }

  lemma DistanceIsSymmetric(a: string, b: string)
    ensures Distance(a, b) == Distance(b, a)
  {
    NoScriptIsCheaper(Inverse(BestScript(a, b), a, b), b, a);
    NoScriptIsCheaper(Inverse(BestScript(b, a), b, a), a, b);
  }

  lemma TriangleInequality(a: string, b: string, c: string)
    ensures Distance(a, c) <= Distance(a, b) + Distance(b, c)
  {
    NoScriptIsCheaper(Compose(BestScript(a, b), BestScript(b, c), a, b, c), a, c);
  }

  lemma ZeroDistanceIffEqual(a: string, b: string)
    ensures Distance(a, b) == 0 <==> a == b
  {
    if Distance(a, b) == 0 {
      FreeScriptKeeps(BestScript(a, b), a, b);
    }
    if a == b {
      NoScriptIsCheaper(KeepAll(a), a, b);
    }
  }

  ghost function KeepAll(a: string): (script: Script)
    ensures Turns(script, a, a) && Cost(script) == 0
  {
    if a == [] then Done else Keep(KeepAll(Front(a)))
  }

  /** Every script pays at least the difference in length, and one that pays no
      more only keeps and inserts, so it shows where `a` sits inside `b`. */
  lemma {:induction false} CheapScriptEmbeds(script: Script, a: string, b: string) returns (at: seq<nat>)
    requires Turns(script, a, b)
    ensures |b| <= |a| + Cost(script)
    ensures |b| == |a| + Cost(script) ==> Embeds(at, a, b)
    decreases script
  {
    at := [];
    match script
    case Done =>
    case Keep(earlier) =>
      at := CheapScriptEmbeds(earlier, Front(a), Front(b));
      at := at + [|b| - 1];
    case Insert(earlier, _) => at := CheapScriptEmbeds(earlier, a, Front(b));
    case Substitute(earlier, _) => at := CheapScriptEmbeds(earlier, Front(a), Front(b));
    case Delete(earlier) => at := CheapScriptEmbeds(earlier, Front(a), b);
  }

  /** Conversely an embedding is a script that keeps what it picks out. */
  ghost function EmbeddingScript(at: seq<nat>, a: string, b: string): (script: Script)
    requires Embeds(at, a, b)
    ensures Turns(script, a, b) && |b| == |a| + Cost(script)
    decreases |b|
  {
    if b == [] then
      Done
    else if a != [] && at[|a| - 1] == |b| - 1 then
      assert Embeds(at[..|a| - 1], Front(a), Front(b));
      Keep(EmbeddingScript(at[..|a| - 1], Front(a), Front(b)))
    else
      assert Embeds(at, a, Front(b)) by {
        assert forall i :: 0 <= i < |at| ==> at[i] <= at[|a| - 1];
      }
      Insert(EmbeddingScript(at, a, Front(b)), Last(b))
  }

  /** The distance is the difference in length exactly when the shorter text is
      inside the longer one. */
  lemma DistanceIsLengthDifferenceIffSubsequence(a: string, b: string)
    requires |a| <= |b|
    ensures |b| - |a| <= Distance(a, b)
    ensures Distance(a, b) == |b| - |a| <==> IsSubsequenceOf(a, b)
  {
    var at := CheapScriptEmbeds(BestScript(a, b), a, b);
    if at :| Embeds(at, a, b) {
      NoScriptIsCheaper(EmbeddingScript(at, a, b), a, b);
    }
  }

  /** Folding case keeps a subsequence one, so the two procedures agree on any fold. */
  lemma SubsequencesDifferByLength(fold: char -> char, shorter: string, longer: string)
    requires IsSubsequenceOf(shorter, longer)
    ensures |shorter| <= |longer|
    ensures Distance(Fold(fold, shorter), Fold(fold, longer)) == |longer| - |shorter|
  {
    var at :| Embeds(at, shorter, longer);
    forall i | 0 <= i < |at| ensures Fold(fold, longer)[at[i]] == Fold(fold, shorter)[i] {
      FoldAt(fold, longer, at[i]);
      FoldAt(fold, shorter, i);
    }
    assert Embeds(at, Fold(fold, shorter), Fold(fold, longer));
    var script := EmbeddingScript(at, Fold(fold, shorter), Fold(fold, longer));
    DistanceIsLengthDifferenceIffSubsequence(Fold(fold, shorter), Fold(fold, longer));
  }

  ghost function ChangeScript(x: string, c: char, d: char, y: string): (script: Script)
    ensures Turns(script, x + [c] + y, x + [d] + y) && Cost(script) <= 1
    decreases |y|
  {
    if y == [] then
      assert Front(x + [c]) == x && Front(x + [d]) == x;
      assert x + [c] + [] == x + [c] && x + [d] + [] == x + [d];
      Substitute(KeepAll(x), d)
    else
      assert Front(x + [c] + y) == x + [c] + Front(y) && Front(x + [d] + y) == x + [d] + Front(y);
      Keep(ChangeScript(x, c, d, Front(y)))
  }

  /** One character changed is a distance of one, wherever it stands. */
  lemma OneChangeCostsOne(x: string, c: char, d: char, y: string)
    requires c != d
    ensures Distance(x + [c] + y, x + [d] + y) == 1
  {
    var a, b := x + [c] + y, x + [d] + y;
    NoScriptIsCheaper(ChangeScript(x, c, d, y), a, b);
    assert a[|x|] != b[|x|];
    ZeroDistanceIffEqual(a, b);
  }

  /** And one left out or put in. */
  lemma OneInsertionCostsOne(x: string, c: char, y: string)
    ensures Distance(x + y, x + [c] + y) == 1 == Distance(x + [c] + y, x + y)
  {
    var at := seq(|x + y|, i requires 0 <= i < |x + y| => if i < |x| then i else i + 1);
    assert Embeds(at, x + y, x + [c] + y);
    DistanceIsLengthDifferenceIffSubsequence(x + y, x + [c] + y);
    DistanceIsSymmetric(x + y, x + [c] + y);
  }
}
