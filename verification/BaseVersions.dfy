/** The order of base versions: the numbers before the first '-', zero-padded and
    compared left to right. */
module BaseVersions {

  const LARGEST_INT: nat := 0x7FFF_FFFF

  function BeforeFirst(s: string, c: char): string {
    if s == [] || s[0] == c then [] else [s[0]] + BeforeFirst(s[1..], c)
  }

  function Split(s: string, c: char): (parts: seq<string>)
    ensures parts != []
    decreases |s|
  {
    var first := BeforeFirst(s, c);
    if |first| < |s| then [first] + Split(s[|first| + 1..], c) else [s]
  }

  function IsDigit(c: char): bool {
    '0' <= c <= '9'
  }

  function LeadingDigits(s: string): string {
    if s != [] && IsDigit(s[0]) then [s[0]] + LeadingDigits(s[1..]) else []
  }

  function DecimalValue(digits: string): nat {
    if digits == [] then 0
    else
      var last := digits[|digits| - 1];
      DecimalValue(digits[..|digits| - 1]) * 10 + if IsDigit(last) then (last - '0') as nat else 0
  }

  /** A number too large for an int reads as 0, and so does no number at all. */
  function ToInt(digits: string): nat {
    if DecimalValue(digits) <= LARGEST_INT then DecimalValue(digits) else 0
  }

  function Parts(version: string): seq<string> {
    Split(BeforeFirst(version, '-'), '.')
  }

  /** The component at `index`, 0 past the end. */
  function Component(parts: seq<string>, index: nat): nat {
    if index < |parts| then ToInt(LeadingDigits(parts[index])) else 0
  }

  function At(version: string, index: nat): nat {
    Component(Parts(version), index)
  }

  function Longer(left: string, right: string): nat {
    if |Parts(left)| < |Parts(right)| then |Parts(right)| else |Parts(left)|
  }

  /** `left` is lower at `index`, the first place the two differ. */
  predicate DropsAt(left: string, right: string, index: nat) {
    At(left, index) < At(right, index) && forall i :: 0 <= i < index ==> At(left, i) == At(right, i)
  }

  /** The reference order: zero-padded, lexicographic, over all places. */
  ghost predicate Below(left: string, right: string) {
    exists index: nat :: DropsAt(left, right, index)
  }

  ghost predicate Level(left: string, right: string) {
    forall index: nat :: At(left, index) == At(right, index)
  }

  function CompareFrom(left: string, right: string, index: nat): int
    decreases Longer(left, right) - index
  {
    if index >= Longer(left, right) then 0
    else if At(left, index) != At(right, index) then if At(left, index) < At(right, index) then -1 else 1
    else CompareFrom(left, right, index + 1)
  }

  function Compare(left: string, right: string): int {
    CompareFrom(left, right, 0)
  }

  lemma {:induction false} CompareFromFindsFirst(left: string, right: string, index: nat)
    requires forall i :: 0 <= i < index ==> At(left, i) == At(right, i)
    ensures var c := CompareFrom(left, right, index);
            && (c == -1 || c == 0 || c == 1)
            && (c == -1 ==> Below(left, right)) && (c == 1 ==> Below(right, left)) && (c == 0 ==> Level(left, right))
    decreases Longer(left, right) - index
  {
    if index < Longer(left, right) {
      if At(left, index) == At(right, index) {
        CompareFromFindsFirst(left, right, index + 1);
      } else {
        assert DropsAt(left, right, index) || DropsAt(right, left, index);
      }
    }
  }

  lemma OrderIsExclusive(left: string, right: string)
    ensures !(Below(left, right) && Below(right, left))
    ensures !(Below(left, right) && Level(left, right))
  {
    forall i: nat, j: nat | DropsAt(left, right, i)
      ensures !DropsAt(right, left, j)
    {
      assert i < j || j < i || i == j;
    }
  }

  /** The comparison decides the reference order, both ways. */
  lemma CompareDecidesOrder(left: string, right: string)
    ensures Compare(left, right) == -1 <==> Below(left, right)
    ensures Compare(left, right) == 1 <==> Below(right, left)
    ensures Compare(left, right) == 0 <==> Level(left, right)
    ensures -1 <= Compare(left, right) <= 1
  {
    CompareFromFindsFirst(left, right, 0);
    OrderIsExclusive(left, right);
    OrderIsExclusive(right, left);
    assert Level(left, right) ==> Level(right, left);
  }

  lemma CompareIsAntisymmetric(left: string, right: string)
    ensures Compare(left, right) == -Compare(right, left)
  {
    CompareDecidesOrder(left, right);
    CompareDecidesOrder(right, left);
    assert Level(left, right) <==> Level(right, left);
  }

  lemma BelowIsTransitive(a: string, b: string, c: string)
    requires Below(a, b) || Level(a, b)
    requires Below(b, c) || Level(b, c)
    ensures Below(a, c) || Level(a, c)
    ensures Below(a, b) || Below(b, c) ==> Below(a, c)
  {
    if Below(a, b) && Below(b, c) {
      var i: nat :| DropsAt(a, b, i);
      var j: nat :| DropsAt(b, c, j);
      assert DropsAt(a, c, if i < j then i else j);
    } else if Below(a, b) {
      var i: nat :| DropsAt(a, b, i);
      assert DropsAt(a, c, i);
    } else if Below(b, c) {
      var j: nat :| DropsAt(b, c, j);
      assert DropsAt(a, c, j);
    }
  }

  /** A total preorder whatever the lengths: any two compare, and it is transitive. */
  lemma CompareIsTransitive(a: string, b: string, c: string)
    requires Compare(a, b) <= 0 && Compare(b, c) <= 0
    ensures Compare(a, c) <= 0
    ensures Compare(a, b) < 0 || Compare(b, c) < 0 ==> Compare(a, c) < 0
  {
    CompareDecidesOrder(a, b);
    CompareDecidesOrder(b, c);
    CompareDecidesOrder(a, c);
    BelowIsTransitive(a, b, c);
  }

  /** The source's scan. */
  method CompareBaseVersions(left: string, right: string) returns (c: int)
    ensures c == Compare(left, right)
  {
    var leftParts, rightParts := Parts(left), Parts(right);
    var longer := if |leftParts| < |rightParts| then |rightParts| else |leftParts|;
    for index := 0 to longer
      invariant Compare(left, right) == CompareFrom(left, right, index)
    {
      var leftPart, rightPart := Component(leftParts, index), Component(rightParts, index);
      if leftPart != rightPart {
        return if leftPart < rightPart then -1 else 1;
      }
    }
    return 0;
  }

  // ----- What versions say: numbers printed and joined read back

  function DigitChar(d: nat): char
    requires d < 10
  {
    "0123456789"[d]
  }

  /** A number in decimal, without leading zeros. */
  function Printed(n: nat): (digits: string)
    ensures digits != []
  {
    if n < 10 then [DigitChar(n)] else Printed(n / 10) + [DigitChar(n % 10)]
  }

  lemma DigitReadsBack(d: nat)
    requires d < 10
    ensures IsDigit(DigitChar(d)) && (DigitChar(d) - '0') as nat == d && DigitChar(d) != '.' && DigitChar(d) != '-'
  {
  }

  lemma {:induction false} PrintedReadsBack(n: nat)
    ensures DecimalValue(Printed(n)) == n
    ensures forall c :: c in Printed(n) ==> IsDigit(c) && c != '.' && c != '-'
  {
    DigitReadsBack(n % 10);
    if n >= 10 {
      PrintedReadsBack(n / 10);
      assert Printed(n)[..|Printed(n)| - 1] == Printed(n / 10);
    } else {
      assert [DigitChar(n)][..0] == [];
    }
  }

  lemma {:induction false} DigitsLead(digits: string)
    requires forall c :: c in digits ==> IsDigit(c)
    ensures LeadingDigits(digits) == digits
  {
    if digits != [] {
      DigitsLead(digits[1..]);
    }
  }

  function Dotted(numbers: seq<nat>): (text: string) {
    if numbers == [] then []
    else if |numbers| == 1 then Printed(numbers[0])
    else Printed(numbers[0]) + ['.'] + Dotted(numbers[1..])
  }

  function Texts(numbers: seq<nat>): (texts: seq<string>) {
    seq(|numbers|, i requires 0 <= i < |numbers| => Printed(numbers[i]))
  }

  lemma {:induction false} CutBefore(s: string, c: char, rest: string)
    requires c !in s && (rest == [] || rest[0] == c)
    ensures BeforeFirst(s + rest, c) == s
  {
    if s != [] {
      CutBefore(s[1..], c, rest);
      assert (s + rest)[1..] == s[1..] + rest;
    } else {
      assert s + rest == rest;
    }
  }

  lemma {:induction false} DottedHasNoDash(numbers: seq<nat>)
    ensures '-' !in Dotted(numbers)
  {
    if numbers != [] {
      PrintedReadsBack(numbers[0]);
      DottedHasNoDash(numbers[1..]);
    }
  }

  lemma SplitFirst(first: string, rest: string)
    requires '.' !in first
    ensures Split(first + ['.'] + rest, '.') == [first] + Split(rest, '.')
  {
    CutBefore(first, '.', ['.'] + rest);
    assert first + ['.'] + rest == first + (['.'] + rest);
    assert (first + ['.'] + rest)[|first| + 1..] == rest;
  }

  lemma {:induction false} DottedSplits(numbers: seq<nat>)
    requires numbers != []
    ensures Split(Dotted(numbers), '.') == Texts(numbers)
  {
    var first := Printed(numbers[0]);
    PrintedReadsBack(numbers[0]);
    if |numbers| == 1 {
      CutBefore(first, '.', []);
      assert first + [] == first;
    } else {
      SplitFirst(first, Dotted(numbers[1..]));
      DottedSplits(numbers[1..]);
      assert Texts(numbers) == [first] + Texts(numbers[1..]);
    }
  }

  /** A number no int holds reads as 0. */
  lemma HugeNumbersReadAsZero(n: nat)
    requires n > LARGEST_INT
    ensures ToInt(LeadingDigits(Printed(n))) == 0
  {
    PrintedReadsBack(n);
    DigitsLead(Printed(n));
  }

  /** A version as it is written: numbers and dots, then nothing or a dash and anything. */
  predicate IsVersionOf(version: string, numbers: seq<nat>) {
    && numbers != [] && (forall n :: n in numbers ==> n <= LARGEST_INT)
    && exists k :: 0 <= k <= |version| && version[..k] == Dotted(numbers) && (k == |version| || version[k] == '-')
  }

  function Padded(numbers: seq<nat>, index: nat): nat {
    if index < |numbers| then numbers[index] else 0
  }

  lemma PartsReadBack(version: string, numbers: seq<nat>)
    requires IsVersionOf(version, numbers)
    ensures Parts(version) == Texts(numbers)
  {
    var k :| 0 <= k <= |version| && version[..k] == Dotted(numbers) && (k == |version| || version[k] == '-');
    DottedHasNoDash(numbers);
    CutBefore(version[..k], '-', version[k..]);
    assert version[..k] + version[k..] == version;
    DottedSplits(numbers);
  }

  lemma NumbersReadBack(numbers: seq<nat>, index: nat)
    requires forall n :: n in numbers ==> n <= LARGEST_INT
    ensures Component(Texts(numbers), index) == Padded(numbers, index)
  {
    if index < |numbers| {
      var n := numbers[index];
      assert n in numbers;
      PrintedReadsBack(n);
      DigitsLead(Printed(n));
      assert Texts(numbers)[index] == Printed(n);
    }
  }

  lemma VersionsReadBack(version: string, numbers: seq<nat>, index: nat)
    requires IsVersionOf(version, numbers)
    ensures At(version, index) == Padded(numbers, index)
  {
    PartsReadBack(version, numbers);
    NumbersReadBack(numbers, index);
  }

  /** The first list is lower: they agree, zeros standing in past their ends, up to a place
      where it has the lower number. */
  ghost predicate IsLower(x: seq<nat>, y: seq<nat>) {
    exists k: nat :: LowerAt(x, y, k)
  }

  predicate LowerAt(x: seq<nat>, y: seq<nat>, k: nat) {
    Padded(x, k) < Padded(y, k) && forall i :: 0 <= i < k ==> Padded(x, i) == Padded(y, i)
  }

  /** Written versions compare as their numbers do: 0.10.0 comes after 0.9.0. */
  lemma VersionsCompareByNumber(left: string, right: string, x: seq<nat>, y: seq<nat>)
    requires IsVersionOf(left, x) && IsVersionOf(right, y)
    ensures Compare(left, right) == -1 <==> IsLower(x, y)
    ensures Compare(left, right) == 1 <==> IsLower(y, x)
    ensures Compare(left, right) == 0 <==> forall k: nat :: Padded(x, k) == Padded(y, k)
  {
    forall k: nat ensures At(left, k) == Padded(x, k) && At(right, k) == Padded(y, k) {
      VersionsReadBack(left, x, k);
      VersionsReadBack(right, y, k);
    }
    CompareDecidesOrder(left, right);
    assert Below(left, right) <==> IsLower(x, y) by {
      assert forall k: nat :: DropsAt(left, right, k) <==> LowerAt(x, y, k);
    }
    assert Below(right, left) <==> IsLower(y, x) by {
      assert forall k: nat :: DropsAt(right, left, k) <==> LowerAt(y, x, k);
    }
    assert Level(left, right) <==> forall k: nat :: Padded(x, k) == Padded(y, k);
  }
}
