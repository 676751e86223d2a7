/** The book a word count is compared to, and the search for the next count that
    compares differently. */
module BookComparison {

  newtype Count = x: int | -0x8000_0000_0000_0000 <= x < 0x8000_0000_0000_0000

  const MOST: Count := 0x7FFF_FFFF_FFFF_FFFF

  datatype Book = Book(title: string, words: int)
  datatype Share = Share(of: real, cost: real)
  datatype Comparison = NoBook | Comparison(title: string, times: real, bookWords: int)

  const BOOKS: seq<Book> := [
    Book("the Gettysburg Address", 272),
    Book("The Raven", 1088),
    Book("the Declaration of Independence", 1321),
    Book("The Tell-Tale Heart", 2146),
    Book("An Occurrence at Owl Creek Bridge", 3763),
    Book("Macbeth", 17121),
    Book("Romeo and Juliet", 24545),
    Book("Hamlet", 30557),
    Book("The Great Gatsby", 47094),
    Book("the first Harry Potter book", 76944),
    Book("The Hobbit", 95356),
    Book("To Kill a Mockingbird", 100388),
    Book("The Fellowship of the Ring", 187790),
    Book("Moby-Dick", 209117),
    Book("War and Peace", 561304)]

  const SHARES: seq<Share> := [
    Share(1.0 / 4.0, 0.2), Share(1.0 / 3.0, 0.2), Share(1.0 / 2.0, 0.0), Share(3.0 / 4.0, 0.2),
    Share(1.0, 0.0), Share(2.0, 0.0), Share(3.0, 0.2), Share(4.0, 0.2)]

  // ----- Scores

  /** What the comparison needs of a logarithm. */
  ghost predicate IsLogarithm(ln: real -> real) {
    && (forall x: real, y: real :: 0.0 < x < y ==> ln(x) < ln(y))
    && (forall x: real, y: real {:trigger ln(x / y)} :: 0.0 < x && 0.0 < y ==> ln(x / y) == ln(x) - ln(y))
  }

  function Abs(x: real): real {
    if x < 0.0 then -x else x
  }

  function Target(book: nat, share: nat): (target: real)
    requires book < |BOOKS| && share < |SHARES|
    ensures target > 0.0
  {
    BOOKS[book].words as real * SHARES[share].of
  }

  function Score(ln: real -> real, words: int, book: nat, share: nat): real
    requires words > 0 && book < |BOOKS| && share < |SHARES|
  {
    Abs(ln(words as real / Target(book, share))) + SHARES[share].cost
  }

  /** (b, s) comes before (book, share) in the order the tables are walked. */
  predicate Earlier(b: nat, s: nat, book: nat, share: nat) {
    b < book || (b == book && s < share)
  }

  /** The first of the best: it beats what comes before it and is not beaten after. */
  ghost predicate Wins(ln: real -> real, words: int, book: nat, share: nat) {
    && words > 0 && book < |BOOKS| && share < |SHARES|
    && forall b: nat, s: nat :: b < |BOOKS| && s < |SHARES| ==>
         if Earlier(b, s, book, share) then Score(ln, words, book, share) < Score(ln, words, b, s)
         else Score(ln, words, book, share) <= Score(ln, words, b, s)
  }

  function RoundHalfUp(value: real): int {
    (value + 0.5).Floor
  }

  const FEWEST: int := 68
  const LAST: Book := BOOKS[|BOOKS| - 1]

  /** What the source answers for a count, told by the three ranges it falls in. */
  ghost predicate Compares(ln: real -> real, words: int, c: Comparison) {
    if words < FEWEST then c == NoBook
    else if words > LAST.words * 5 then
      c == Comparison(LAST.title, RoundHalfUp(words as real / LAST.words as real) as real, LAST.words)
    else
      exists book: nat, share: nat :: Wins(ln, words, book, share)
        && c == Comparison(BOOKS[book].title, SHARES[share].of, BOOKS[book].words)
  }

  lemma WinnerIsUnique(ln: real -> real, words: int, book: nat, share: nat, b: nat, s: nat)
    requires Wins(ln, words, book, share) && Wins(ln, words, b, s)
    ensures book == b && share == s
  {
    assert Earlier(b, s, book, share) || Earlier(book, share, b, s) || (book == b && share == s);
  }

  lemma ComparisonIsUnique(ln: real -> real, words: int, c: Comparison, d: Comparison)
    requires Compares(ln, words, c) && Compares(ln, words, d)
    ensures c == d
  {
    if FEWEST <= words <= LAST.words * 5 {
      var book: nat, share: nat :| Wins(ln, words, book, share)
        && c == Comparison(BOOKS[book].title, SHARES[share].of, BOOKS[book].words);
      var b: nat, s: nat :| Wins(ln, words, b, s)
        && d == Comparison(BOOKS[b].title, SHARES[s].of, BOOKS[b].words);
      WinnerIsUnique(ln, words, book, share, b, s);
    }
  }

  /** The source's walk over both tables. */
  method CompareToBook(ln: real -> real, words: Count) returns (c: Comparison)
    ensures Compares(ln, words as int, c)
  {
    if words as real < BOOKS[0].words as real * SHARES[0].of {
      return NoBook;
    }
    if words as real > LAST.words as real * 5.0 {
      return Comparison(LAST.title, RoundHalfUp(words as real / LAST.words as real) as real, LAST.words);
    }
    c := ClosestShare(ln, words as int);
  }

  method ClosestShare(ln: real -> real, words: int) returns (c: Comparison)
    requires words > 0
    ensures exists book: nat, share: nat :: Wins(ln, words, book, share)
              && c == Comparison(BOOKS[book].title, SHARES[share].of, BOOKS[book].words)
  {
    var bestBook, bestShare, bestScore := 0, 0, 0.0;
    var found := false;
    for book := 0 to |BOOKS|
      invariant found <==> book > 0
      invariant found ==> IsBestBefore(ln, words, bestBook, bestShare, book, 0)
      invariant found ==> bestScore == Score(ln, words, bestBook, bestShare)
    {
      for share := 0 to |SHARES|
        invariant found <==> book > 0 || share > 0
        invariant found ==> IsBestBefore(ln, words, bestBook, bestShare, book, share)
        invariant found ==> bestScore == Score(ln, words, bestBook, bestShare)
      {
        var score := Score(ln, words, book, share);
        if !found || score < bestScore {
          bestBook, bestShare, bestScore := book, share, score;
          found := true;
        }
      }
    }
    assert Wins(ln, words, bestBook, bestShare);
    return Comparison(BOOKS[bestBook].title, SHARES[bestShare].of, BOOKS[bestBook].words);
  }

  /** (best, of) wins among everything walked before (book, share). */
  ghost predicate IsBestBefore(ln: real -> real, words: int, best: nat, of: nat, book: nat, share: nat) {
    && words > 0 && best < |BOOKS| && of < |SHARES| && book <= |BOOKS| && share <= |SHARES|
    && Earlier(best, of, book, share)
    && forall b: nat, s: nat :: b < |BOOKS| && s < |SHARES| && Earlier(b, s, book, share) ==>
         if Earlier(b, s, best, of) then Score(ln, words, best, of) < Score(ln, words, b, s)
         else Score(ln, words, best, of) <= Score(ln, words, b, s)
  }

  // ----- What an answer says

  /** How far a count is from so much of a book of so many words, on a logarithmic scale
      and with what that share costs. */
  function Away(ln: real -> real, words: int, bookWords: int, times: real, cost: real): real
    requires bookWords > 0 && times > 0.0
  {
    var far := ln(words as real / (bookWords as real * times));
    (if far < 0.0 then -far else far) + cost
  }

  function ShareAway(ln: real -> real, words: int, book: nat, share: nat): real
    requires book < |BOOKS| && share < |SHARES|
  {
    Away(ln, words, BOOKS[book].words, SHARES[share].of, SHARES[share].cost)
  }

  lemma ScoreIsAway(ln: real -> real, words: int, book: nat, share: nat)
    requires words > 0 && book < |BOOKS| && share < |SHARES|
    ensures Score(ln, words, book, share) == ShareAway(ln, words, book, share)
  {
  }

  /** Of the counts the tables cover, the answer is a share of a book that no other share
      of a book is nearer than, or as near and earlier. */
  lemma AnswerIsNearest(ln: real -> real, words: int, c: Comparison) returns (book: nat, share: nat)
    requires Compares(ln, words, c) && FEWEST <= words <= LAST.words * 5
    ensures book < |BOOKS| && share < |SHARES|
    ensures c == Comparison(BOOKS[book].title, SHARES[share].of, BOOKS[book].words)
    ensures forall b: nat, s: nat :: b < |BOOKS| && s < |SHARES| ==>
              if b < book || (b == book && s < share) then
                ShareAway(ln, words, book, share) < ShareAway(ln, words, b, s)
              else ShareAway(ln, words, book, share) <= ShareAway(ln, words, b, s)
  {
    book, share :| Wins(ln, words, book, share)
      && c == Comparison(BOOKS[book].title, SHARES[share].of, BOOKS[book].words);
    ScoreIsAway(ln, words, book, share);
    forall b: nat, s: nat | b < |BOOKS| && s < |SHARES|
      ensures if b < book || (b == book && s < share) then
                ShareAway(ln, words, book, share) < ShareAway(ln, words, b, s)
              else ShareAway(ln, words, book, share) <= ShareAway(ln, words, b, s)
    {
      ScoreIsAway(ln, words, b, s);
    }
  }

  /** A logarithm is 0 at 1 only. */
  lemma LogarithmOfOne(ln: real -> real, x: real)
    requires IsLogarithm(ln) && x > 0.0
    ensures ln(x) == 0.0 <==> x == 1.0
  {
    var one := x / x;
    assert one == 1.0;
    assert ln(x / x) == ln(x) - ln(x);
    assert x < 1.0 ==> ln(x) < ln(1.0);
    assert x > 1.0 ==> ln(1.0) < ln(x);
  }

  /** The count is exactly so much of the book. */
  predicate IsExactly(words: int, book: nat, share: nat)
    requires book < |BOOKS| && share < |SHARES|
  {
    words as real == BOOKS[book].words as real * SHARES[share].of
  }

  lemma WinnerOfExactIsExact(ln: real -> real, words: int, b: nat, s: nat, book: nat, share: nat)
    requires IsLogarithm(ln) && Wins(ln, words, b, s)
    requires book < |BOOKS| && share < |SHARES| && SHARES[share].cost == 0.0 && IsExactly(words, book, share)
    ensures IsExactly(words, b, s)
  {
    assert Score(ln, words, b, s) <= Score(ln, words, book, share);
    ScoreIsAway(ln, words, b, s);
    ScoreIsAway(ln, words, book, share);
  }

  lemma ExactIsTold(words: int, c: Comparison, b: nat, s: nat)
    requires b < |BOOKS| && s < |SHARES| && IsExactly(words, b, s)
    requires c == Comparison(BOOKS[b].title, SHARES[s].of, BOOKS[b].words)
    ensures c.bookWords as real * c.times == words as real
  {
  }

  lemma AnswerIsWinner(ln: real -> real, words: int, c: Comparison) returns (b: nat, s: nat)
    requires Compares(ln, words, c) && FEWEST <= words <= LAST.words * 5
    ensures Wins(ln, words, b, s) && c == Comparison(BOOKS[b].title, SHARES[s].of, BOOKS[b].words)
  {
    b, s :| Wins(ln, words, b, s) && c == Comparison(BOOKS[b].title, SHARES[s].of, BOOKS[b].words);
  }

  /** A count that is exactly a share of a book that costs nothing is told as one: twice
      Hamlet, not half of it. */
  lemma ExactSharesAreTold(ln: real -> real, words: int, c: Comparison, book: nat, share: nat)
    requires IsLogarithm(ln) && Compares(ln, words, c) && FEWEST <= words <= LAST.words * 5
    requires book < |BOOKS| && share < |SHARES| && SHARES[share].cost == 0.0 && IsExactly(words, book, share)
    ensures c.Comparison? && c.bookWords as real * c.times == words as real
  {
    var b, s := AnswerIsWinner(ln, words, c);
    WinnerOfExactIsExact(ln, words, b, s, book, share);
    ExactIsTold(words, c, b, s);
  }

  lemma TwiceHamletIsTold(ln: real -> real, c: Comparison)
    requires IsLogarithm(ln) && Compares(ln, 61114, c)
    ensures c.Comparison? && c.bookWords as real * c.times == 61114.0
  {
    ExactSharesAreTold(ln, 61114, c, 7, 5);
  }

  /** Rounding goes to the nearest whole number, halves up. */
  lemma RoundsToNearest(value: real)
    ensures RoundHalfUp(value) as real - 0.5 <= value < RoundHalfUp(value) as real + 0.5
  {
  }

  /** Past the tables, the answer is the nearest multiple of the longest book; below
      them, nothing. */
  lemma AnswersOutsideTables(ln: real -> real, words: int, c: Comparison)
    requires Compares(ln, words, c)
    ensures c.NoBook? <==> words < FEWEST
    ensures words > LAST.words * 5 ==>
              && c.title == LAST.title && c.bookWords == LAST.words
              && (c.times - 0.5) * LAST.words as real <= words as real < (c.times + 0.5) * LAST.words as real
  {
    var times := words as real / LAST.words as real;
    RoundsToNearest(times);
    if words > LAST.words * 5 {
      assert times * LAST.words as real == words as real;
    }
  }

  // ----- Each comparison covers one run of counts

  function MaxReal(x: real, y: real): real {
    if x < y then y else x
  }

  /** How much closer one point is than another only ever rises, or only ever falls,
      so between two places it never exceeds both. */
  lemma LeadIsMonotonic(x: real, y: real, z: real, c: real, d: real, j: real, k: real)
    requires x <= y <= z
    ensures (Abs(y - c) + j) - (Abs(y - d) + k)
         <= MaxReal((Abs(x - c) + j) - (Abs(x - d) + k), (Abs(z - c) + j) - (Abs(z - d) + k))
  {
  }

  lemma ScoreLeadBetween(ln: real -> real, l: int, m: int, n: int, book: nat, share: nat, b: nat, s: nat)
    requires IsLogarithm(ln) && 0 < l <= m <= n
    requires book < |BOOKS| && share < |SHARES| && b < |BOOKS| && s < |SHARES|
    ensures Score(ln, m, book, share) - Score(ln, m, b, s)
         <= MaxReal(Score(ln, l, book, share) - Score(ln, l, b, s), Score(ln, n, book, share) - Score(ln, n, b, s))
  {
    var x, y, z := ln(l as real), ln(m as real), ln(n as real);
    var c, d := ln(Target(book, share)), ln(Target(b, s));
    LeadIsMonotonic(x, y, z, c, d, SHARES[share].cost, SHARES[s].cost);
  }

  lemma WinsBetween(ln: real -> real, l: int, m: int, n: int, book: nat, share: nat)
    requires IsLogarithm(ln) && l <= m <= n
    requires Wins(ln, l, book, share) && Wins(ln, n, book, share)
    ensures Wins(ln, m, book, share)
  {
    forall b: nat, s: nat | b < |BOOKS| && s < |SHARES|
      ensures if Earlier(b, s, book, share) then Score(ln, m, book, share) < Score(ln, m, b, s)
              else Score(ln, m, book, share) <= Score(ln, m, b, s)
    {
      ScoreLeadBetween(ln, l, m, n, book, share, b, s);
      assert Earlier(b, s, book, share) ==> Score(ln, l, book, share) < Score(ln, l, b, s);
      assert Earlier(b, s, book, share) ==> Score(ln, n, book, share) < Score(ln, n, b, s);
    }
  }

  lemma WinnerIsNamed(book: nat, share: nat, b: nat, s: nat)
    requires book < |BOOKS| && share < |SHARES| && b < |BOOKS| && s < |SHARES|
    requires BOOKS[book].words == BOOKS[b].words && SHARES[share].of == SHARES[s].of
    ensures book == b && share == s
  {
  }

  /** A multiple of the last book is never one of the plain shares. */
  lemma MultiplesAreNotShares(words: int, share: nat)
    requires words > LAST.words * 5 && share < |SHARES|
    ensures RoundHalfUp(words as real / LAST.words as real) as real > SHARES[share].of
  {
    assert words as real / LAST.words as real > 5.0;
  }

  lemma MultiplesRise(m: int, n: int)
    requires m <= n
    ensures RoundHalfUp(m as real / LAST.words as real) <= RoundHalfUp(n as real / LAST.words as real)
  {
    assert m as real / LAST.words as real <= n as real / LAST.words as real;
  }

  /** What the source's comment claims: a comparison covers a single run of counts. */
  lemma ComparisonCoversOneRun(ln: real -> real, l: int, m: int, n: int, c: Comparison)
    requires IsLogarithm(ln) && l <= m <= n
    requires Compares(ln, l, c) && Compares(ln, n, c)
    ensures Compares(ln, m, c)
  {
    if FEWEST <= l && n <= LAST.words * 5 {
      var book: nat, share: nat :| Wins(ln, l, book, share)
        && c == Comparison(BOOKS[book].title, SHARES[share].of, BOOKS[book].words);
      var b: nat, s: nat :| Wins(ln, n, b, s)
        && c == Comparison(BOOKS[b].title, SHARES[s].of, BOOKS[b].words);
      WinnerIsNamed(book, share, b, s);
      WinsBetween(ln, l, m, n, book, share);
    } else if FEWEST <= l <= LAST.words * 5 < n {
      var book: nat, share: nat :| Wins(ln, l, book, share)
        && c == Comparison(BOOKS[book].title, SHARES[share].of, BOOKS[book].words);
      MultiplesAreNotShares(n, share);
    } else if LAST.words * 5 < l {
      MultiplesRise(l, m);
      MultiplesRise(m, n);
    }
  }

  // ----- The search

  ghost predicate SameComparison(ln: real -> real, m: int, n: int) {
    exists c :: Compares(ln, m, c) && Compares(ln, n, c)
  }

  /** `next` is the first count above `words` that compares differently, or 0 when
      none that fits in a count does. */
  ghost predicate IsNextChange(ln: real -> real, words: int, next: int) {
    if next == 0 then forall n :: words < n <= MOST as int ==> SameComparison(ln, words, n)
    else
      && words < next <= MOST as int
      && !SameComparison(ln, words, next)
      && forall n :: words < n < next ==> SameComparison(ln, words, n)
  }

  method NextChange(ln: real -> real, words: Count) returns (next: Count)
    requires IsLogarithm(ln)
    ensures words < 0 || words == MOST ==> next == 0
    ensures 0 <= words < MOST ==> IsNextChange(ln, words as int, next as int)
  {
    if words < 0 || words == MOST {
      return 0;
    }
    var now := CompareToBook(ln, words);
    var same, other := words, words + 1;
    var c := CompareToBook(ln, other);
    while c == now
      invariant words <= same < other && Compares(ln, same as int, now) && Compares(ln, other as int, c)
      decreases MOST - other
    {
      if other == MOST {
        RunEndsAt(ln, words as int, MOST as int, now);
        return 0;
      }
      same := other;
      other := if other > MOST / 2 then MOST else other * 2;
      c := CompareToBook(ln, other);
    }
    ghost var different := c;
    while other - same > 1
      invariant words <= same < other
      invariant Compares(ln, same as int, now) && Compares(ln, other as int, different) && different != now
    {
      var middle := same + (other - same) / 2;
      c := CompareToBook(ln, middle);
      if c == now {
        same := middle;
      } else {
        other := middle;
        different := c;
      }
    }
    RunEndsAt(ln, words as int, same as int, now);
    if SameComparison(ln, words as int, other as int) {
      var d :| Compares(ln, words as int, d) && Compares(ln, other as int, d);
      ComparisonIsUnique(ln, words as int, d, now);
      ComparisonIsUnique(ln, other as int, d, different);
    }
    return other;
  }

  lemma RunEndsAt(ln: real -> real, words: int, last: int, c: Comparison)
    requires IsLogarithm(ln) && Compares(ln, words, c) && Compares(ln, last, c)
    ensures forall n :: words < n <= last ==> SameComparison(ln, words, n)
  {
    forall n | words < n <= last
      ensures SameComparison(ln, words, n)
    {
      ComparisonCoversOneRun(ln, words, n, last, c);
    }
  }
}
