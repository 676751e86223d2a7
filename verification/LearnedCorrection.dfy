/** What an edit to inserted text teaches: the changed window, and whether it is a
    correction worth learning. */
module LearnedCorrection {
  import opened Wrappers
  import opened TextBasics
  import opened EditScripts
  import opened Subsequences
  import opened EditDistance

  /** The text library the analysis leans on: case folding, character classes, the
      word splitter and the secret detector. Nothing is assumed of any of them. */
  datatype TextRules = TextRules(
    fold: char -> char,
    letterOrNumber: char -> bool,
    space: char -> bool,
    words: string -> seq<string>,
    secret: string -> bool)

  datatype Evidence = Evidence(original: string, corrected: string, confidence: real)

  /** The window an edit changed: it starts at `start` in both texts. */
  datatype Window = Window(start: nat, insertedEnd: nat, editedEnd: nat)

  // ----- The windows

  /** How far two texts agree from `from` on. */
  function SharedPrefix(x: string, y: string, from: nat): (n: nat)
    requires from <= |x| && from <= |y|
    ensures from <= n <= |x| && n <= |y|
    ensures forall k :: from <= k < n ==> x[k] == y[k]
    ensures n < |x| && n < |y| ==> x[n] != y[n]
    decreases |x| - from
  {
    if from < |x| && from < |y| && x[from] == y[from] then SharedPrefix(x, y, from + 1) else from
  }

  function FromEnd(x: string, d: nat): char
    requires 1 <= d <= |x|
  {
    x[|x| - d]
  }

  /** How many characters two texts end with alike, `from` of them known to agree,
      leaving the first `prefix` of each alone. */
  function SharedSuffix(x: string, y: string, prefix: nat, from: nat): (n: nat)
    requires prefix + from <= |x| && prefix + from <= |y|
    ensures from <= n && prefix + n <= |x| && prefix + n <= |y|
    ensures forall d :: from < d <= n ==> FromEnd(x, d) == FromEnd(y, d)
    ensures prefix + n < |x| && prefix + n < |y| ==> FromEnd(x, n + 1) != FromEnd(y, n + 1)
    decreases |x| - from
  {
    if prefix + from < |x| && prefix + from < |y| && FromEnd(x, from + 1) == FromEnd(y, from + 1) then
      SharedSuffix(x, y, prefix, from + 1)
    else from
  }

  /** The last word boundary at or before `at`. */
  function BoundaryBefore(rules: TextRules, x: string, at: nat): (p: nat)
    requires at <= |x|
    ensures p <= at
    ensures p > 0 ==> !rules.letterOrNumber(x[p - 1])
    ensures forall k :: p <= k < at ==> rules.letterOrNumber(x[k])
  {
    if at > 0 && rules.letterOrNumber(x[at - 1]) then BoundaryBefore(rules, x, at - 1) else at
  }

  /** How far two texts both stay inside a word, side by side, from `i` and `j` on. */
  function WordTail(rules: TextRules, x: string, y: string, i: nat, j: nat): (n: nat)
    requires i <= |x| && j <= |y|
    ensures i + n <= |x| && j + n <= |y|
    ensures forall k :: i <= k < i + n ==> rules.letterOrNumber(x[k])
    ensures forall k :: j <= k < j + n ==> rules.letterOrNumber(y[k])
    ensures i + n < |x| && j + n < |y| ==> !rules.letterOrNumber(x[i + n]) || !rules.letterOrNumber(y[j + n])
    decreases |x| - i
  {
    if i < |x| && j < |y| && rules.letterOrNumber(x[i]) && rules.letterOrNumber(y[j]) then
      1 + WordTail(rules, x, y, i + 1, j + 1)
    else 0
  }

  function WindowOf(rules: TextRules, inserted: string, edited: string): (w: Window)
    ensures w.start <= w.insertedEnd <= |inserted| && w.start <= w.editedEnd <= |edited|
    ensures |inserted| - w.insertedEnd == |edited| - w.editedEnd
  {
    var prefix := SharedPrefix(inserted, edited, 0);
    var suffix := SharedSuffix(inserted, edited, prefix, 0);
    var i, j := |inserted| - suffix, |edited| - suffix;
    var tail := WordTail(rules, inserted, edited, i, j);
    Window(BoundaryBefore(rules, inserted, prefix), i + tail, j + tail)
  }

  /** What lies before the window, and what lies after it, is the same in both. */
  lemma WindowEndsAreShared(rules: TextRules, inserted: string, edited: string)
    ensures var w := WindowOf(rules, inserted, edited);
            && (forall k :: 0 <= k < w.start ==> inserted[k] == edited[k])
            && (forall d :: 1 <= d <= |inserted| - w.insertedEnd ==> FromEnd(inserted, d) == FromEnd(edited, d))
  {
  }

  lemma SharedEndsRebuild(x: string, y: string, start: nat, i: nat, j: nat)
    requires start <= i <= |x| && start <= j <= |y| && |x| - i == |y| - j
    requires forall k :: 0 <= k < start ==> x[k] == y[k]
    requires forall d :: 1 <= d <= |x| - i ==> FromEnd(x, d) == FromEnd(y, d)
    ensures x == x[..start] + x[start..i] + x[i..]
    ensures y == x[..start] + y[start..j] + x[i..]
  {
    forall k | j <= k < |y|
      ensures y[k] == x[i..][k - j]
    {
      assert FromEnd(x, |y| - k) == FromEnd(y, |y| - k);
    }
  }

  /** Both texts are a shared head, their own window and a shared tail. */
  lemma WindowRebuildsBothTexts(rules: TextRules, inserted: string, edited: string)
    ensures var w := WindowOf(rules, inserted, edited);
            && inserted == inserted[..w.start] + inserted[w.start..w.insertedEnd] + inserted[w.insertedEnd..]
            && edited == inserted[..w.start] + edited[w.start..w.editedEnd] + inserted[w.insertedEnd..]
  {
    var w := WindowOf(rules, inserted, edited);
    WindowEndsAreShared(rules, inserted, edited);
    SharedEndsRebuild(inserted, edited, w.start, w.insertedEnd, w.editedEnd);
  }

  /** The head ends at a word boundary, and is the longest shared one that does. */
  lemma WindowHeadIsLongest(rules: TextRules, inserted: string, edited: string, m: nat)
    ensures var w := WindowOf(rules, inserted, edited);
            w.start > 0 ==> !rules.letterOrNumber(inserted[w.start - 1])
    ensures (WindowOf(rules, inserted, edited).start < m <= |inserted| && m <= |edited|
             && forall k :: 0 <= k < m ==> inserted[k] == edited[k])
            ==> rules.letterOrNumber(inserted[m - 1])
  {
    var prefix := SharedPrefix(inserted, edited, 0);
    if m > prefix && m <= |inserted| && m <= |edited| {
      assert inserted[prefix] != edited[prefix];
    }
  }

  lemma WindowTailStartsAtBoundary(rules: TextRules, inserted: string, edited: string)
    ensures var w := WindowOf(rules, inserted, edited);
            w.insertedEnd < |inserted| ==> !rules.letterOrNumber(inserted[w.insertedEnd])
  {
    var w := WindowOf(rules, inserted, edited);
    WindowEndsAreShared(rules, inserted, edited);
    if w.insertedEnd < |inserted| {
      var d := |inserted| - w.insertedEnd;
      assert FromEnd(inserted, d) == FromEnd(edited, d);
    }
  }

  /** No longer tail that both share, and that leaves the shared head alone, starts
      at a word boundary. */
  lemma WindowTailIsLongest(rules: TextRules, inserted: string, edited: string, m: nat)
    requires |inserted| - WindowOf(rules, inserted, edited).insertedEnd < m
    requires SharedPrefix(inserted, edited, 0) + m <= |inserted|
    requires SharedPrefix(inserted, edited, 0) + m <= |edited|
    requires forall d :: 1 <= d <= m ==> FromEnd(inserted, d) == FromEnd(edited, d)
    ensures rules.letterOrNumber(inserted[|inserted| - m])
  {
    var suffix := SharedSuffix(inserted, edited, SharedPrefix(inserted, edited, 0), 0);
    assert m <= suffix;
  }

  // ----- The decision

  /** The folded characters of `text` that `keep` accepts. */
  function FoldedWhere(rules: TextRules, keep: char -> bool, text: string): string {
    if text == [] then []
    else FoldedWhere(rules, keep, Front(text)) + if keep(Last(text)) then [rules.fold(Last(text))] else []
  }

  function Comparable(rules: TextRules, text: string): string {
    FoldedWhere(rules, rules.letterOrNumber, text)
  }

  function Spaced(rules: TextRules): char -> bool {
    c => !rules.space(c) && c != '-'
  }

  function ComparableSpacing(rules: TextRules, text: string): string {
    FoldedWhere(rules, Spaced(rules), text)
  }

  function Changed(a: seq<string>, b: seq<string>): nat
    requires |a| == |b|
  {
    if a == [] then 0 else Changed(a[..|a| - 1], b[..|a| - 1]) + if a[|a| - 1] != b[|a| - 1] then 1 else 0
  }

  ghost predicate SharesLongWord(a: seq<string>, b: seq<string>) {
    exists word :: word in a && word in b && |word| > 1
  }

  /** The two words of evidence are one text added to or cut from the other. */
  ghost predicate IsPlainGrowth(a: string, b: string) {
    || (|a| < |b| && IsSubsequenceOf(a, b))
    || (|b| < |a| && IsSubsequenceOf(b, a))
  }

  ghost predicate WordsAreClose(a: seq<string>, b: seq<string>) {
    && |a| <= 3 && |b| <= 3
    && !SharesLongWord(a, b)
    && (|a| == |b| > 1 ==> Changed(a, b) <= 1)
  }

  function Max(x: int, y: int): int {
    if x < y then y else x
  }

  ghost predicate LettersAreClose(rules: TextRules, a: string, b: string) {
    var longest, shortest := Max(|a|, |b|), |a| + |b| - Max(|a|, |b|);
    && longest <= shortest * 3
    && Distance(Fold(rules.fold, a), Fold(rules.fold, b)) <= Max(3, (longest + 1) / 2)
  }

  /** How sure a changed window is, or nothing when it is not a correction. */
  ghost function Confidence(rules: TextRules, original: string, corrected: string): Option<real> {
    var a, b := Comparable(rules, original), Comparable(rules, corrected);
    if original == [] || corrected == [] || original == corrected || |original| > 64 || |corrected| > 64
      || rules.secret(original) || rules.secret(corrected) || a == [] || b == [] then None
    else if a == b then
      if ComparableSpacing(rules, original) == ComparableSpacing(rules, corrected) then Some(0.98) else None
    else if !IsPlainGrowth(a, b) && WordsAreClose(rules.words(original), rules.words(corrected))
      && LettersAreClose(rules, a, b) then Some(0.75)
    else None
  }

  ghost function Analysis(rules: TextRules, inserted: string, edited: string): Option<Evidence> {
    if inserted == edited || inserted == [] || edited == [] || rules.secret(inserted) || rules.secret(edited) then
      None
    else
      var w := WindowOf(rules, inserted, edited);
      var original := Trimmed(rules.space, inserted[w.start..w.insertedEnd]);
      var corrected := Trimmed(rules.space, edited[w.start..w.editedEnd]);
      match Confidence(rules, original, corrected)
      case None => None
      case Some(confidence) => Some(Evidence(original, corrected, confidence))
  }

  // ----- Undoing an edit teaches the opposite correction, equally surely

  lemma {:induction false} SharedPrefixIsSymmetric(x: string, y: string, from: nat)
    requires from <= |x| && from <= |y|
    ensures SharedPrefix(x, y, from) == SharedPrefix(y, x, from)
    decreases |x| - from
  {
    if from < |x| && from < |y| {
      SharedPrefixIsSymmetric(x, y, from + 1);
    }
  }

  lemma WindowIsSymmetric(rules: TextRules, x: string, y: string)
    ensures var w := WindowOf(rules, x, y);
            WindowOf(rules, y, x) == Window(w.start, w.editedEnd, w.insertedEnd)
  {
    var prefix := SharedPrefix(x, y, 0);
    SharedPrefixIsSymmetric(x, y, 0);
    var suffix := SharedSuffix(x, y, prefix, 0);
  }

  lemma {:induction false} ChangedIsSymmetric(a: seq<string>, b: seq<string>)
    requires |a| == |b|
    ensures Changed(a, b) == Changed(b, a)
  {
    if a != [] {
      ChangedIsSymmetric(a[..|a| - 1], b[..|a| - 1]);
    }
  }

  lemma ConfidenceIsSymmetric(rules: TextRules, original: string, corrected: string)
    ensures Confidence(rules, original, corrected) == Confidence(rules, corrected, original)
  {
    var a, b := Comparable(rules, original), Comparable(rules, corrected);
    var u, v := rules.words(original), rules.words(corrected);
    DistanceIsSymmetric(Fold(rules.fold, a), Fold(rules.fold, b));
    if |u| == |v| {
      ChangedIsSymmetric(u, v);
    }
    assert LettersAreClose(rules, a, b) == LettersAreClose(rules, b, a);
    assert SharesLongWord(u, v) == SharesLongWord(v, u);
    assert WordsAreClose(u, v) == WordsAreClose(v, u);
  }

  /** (o, c, confidence) for one edit exactly when (c, o, confidence) for its undo. */
  lemma AnalysisIsSymmetric(rules: TextRules, inserted: string, edited: string)
    ensures Analysis(rules, edited, inserted)
         == match Analysis(rules, inserted, edited)
            case None => None
            case Some(e) => Some(Evidence(e.corrected, e.original, e.confidence))
  {
    var w := WindowOf(rules, inserted, edited);
    WindowIsSymmetric(rules, inserted, edited);
    ConfidenceIsSymmetric(rules, Trimmed(rules.space, inserted[w.start..w.insertedEnd]),
                          Trimmed(rules.space, edited[w.start..w.editedEnd]));
  }

  // ----- What is learned, told without the decision

  /** A comparable text is the characters kept, each folded, none left out. */
  lemma {:induction false} FoldedPicks(rules: TextRules, keep: char -> bool, text: string) returns (at: seq<nat>)
    ensures var folded := FoldedWhere(rules, keep, text);
            |at| == |folded| && forall i :: 0 <= i < |at| ==>
              at[i] < |text| && keep(text[at[i]]) && folded[i] == rules.fold(text[at[i]])
    ensures forall i, j :: 0 <= i < j < |at| ==> at[i] < at[j]
    ensures forall k :: 0 <= k < |text| && keep(text[k]) ==> k in at
  {
    if text == [] {
      at := [];
    } else {
      at := FoldedPicks(rules, keep, Front(text));
      if keep(Last(text)) {
        at := at + [|text| - 1];
      }
    }
  }

  /** Compared are letters and digits only, and where case, spacing and hyphens alone may
      have changed, everything but white space and hyphens. */
  lemma ComparedCharacters(rules: TextRules, text: string) returns (letters: seq<nat>, others: seq<nat>)
    ensures |letters| == |Comparable(rules, text)| && |others| == |ComparableSpacing(rules, text)|
    ensures forall i :: 0 <= i < |letters| ==>
              letters[i] < |text| && Comparable(rules, text)[i] == rules.fold(text[letters[i]])
    ensures forall i :: 0 <= i < |others| ==>
              others[i] < |text| && ComparableSpacing(rules, text)[i] == rules.fold(text[others[i]])
    ensures forall i, j :: 0 <= i < j < |letters| ==> letters[i] < letters[j]
    ensures forall i, j :: 0 <= i < j < |others| ==> others[i] < others[j]
    ensures forall k :: 0 <= k < |text| ==> (k in letters <==> rules.letterOrNumber(text[k]))
    ensures forall k :: 0 <= k < |text| ==> (k in others <==> !rules.space(text[k]) && text[k] != '-')
  {
    letters := FoldedPicks(rules, rules.letterOrNumber, text);
    others := FoldedPicks(rules, Spaced(rules), text);
  }

  /** The words of the two texts are the same but for one at most. */
  predicate OneWordDiffers(a: seq<string>, b: seq<string>)
    requires |a| == |b|
  {
    forall i, j :: 0 <= i < j < |a| ==> a[i] == b[i] || a[j] == b[j]
  }

  lemma {:induction false} ChangedCounts(a: seq<string>, b: seq<string>)
    requires |a| == |b|
    ensures Changed(a, b) == 0 <==> a == b
    ensures Changed(a, b) <= 1 <==> OneWordDiffers(a, b)
  {
    if a != [] {
      var n := |a| - 1;
      ChangedCounts(a[..n], b[..n]);
      assert a == a[..n] + [a[n]] && b == b[..n] + [b[n]];
      assert OneWordDiffers(a, b) ==> OneWordDiffers(a[..n], b[..n]);
      if a[n] != b[n] && OneWordDiffers(a, b) {
        assert forall i :: 0 <= i < n ==> a[i] == b[i];
      }
    }
  }

  /** What the edit changed: the trimmed windows of the two texts. */
  function Before(rules: TextRules, inserted: string, edited: string): string {
    var w := WindowOf(rules, inserted, edited);
    Trimmed(rules.space, inserted[w.start..w.insertedEnd])
  }

  function Now(rules: TextRules, inserted: string, edited: string): string {
    var w := WindowOf(rules, inserted, edited);
    Trimmed(rules.space, edited[w.start..w.editedEnd])
  }

  /** Texts worth looking at: not secret, not empty, and really changed. */
  predicate IsConsidered(rules: TextRules, inserted: string, edited: string) {
    && inserted != edited && inserted != [] && edited != [] && !rules.secret(inserted) && !rules.secret(edited)
  }

  /** And so their windows, which are short and hold letters or digits. */
  predicate IsChange(rules: TextRules, before: string, now: string) {
    && before != now && 0 < |before| <= 64 && 0 < |now| <= 64 && !rules.secret(before) && !rules.secret(now)
    && Comparable(rules, before) != [] && Comparable(rules, now) != []
  }

  /** Neither comparable text is the other with something merely added. */
  ghost predicate NothingMerelyAdded(a: string, b: string) {
    && (|a| < |b| ==> forall at: seq<nat> :: !Embeds(at, a, b))
    && (|b| < |a| ==> forall at: seq<nat> :: !Embeds(at, b, a))
  }

  predicate FewWords(u: seq<string>, v: seq<string>) {
    && |u| <= 3 && |v| <= 3
    && (forall i, j :: 0 <= i < |u| && 0 <= j < |v| && |u[i]| > 1 ==> u[i] != v[j])
    && (|u| == |v| ==> OneWordDiffers(u, v))
  }

  predicate IsCheapTurn(script: Script, a: string, b: string) {
    Turns(script, a, b) && (Cost(script) <= 3 || 2 * Cost(script) <= |a| + 1 || 2 * Cost(script) <= |b| + 1)
  }

  /** Some script of few edits turns one into the other, and the lengths are alike. */
  ghost predicate FewLetters(rules: TextRules, a: string, b: string) {
    && |a| <= 3 * |b| && |b| <= 3 * |a|
    && exists script :: IsCheapTurn(script, Fold(rules.fold, a), Fold(rules.fold, b))
  }

  /** Exactly when only case, spacing or hyphens changed. */
  predicate OnlySpellingOut(rules: TextRules, before: string, now: string) {
    Comparable(rules, before) == Comparable(rules, now) && ComparableSpacing(rules, before) == ComparableSpacing(rules, now)
  }

  ghost predicate CloseEnough(rules: TextRules, before: string, now: string) {
    var a, b := Comparable(rules, before), Comparable(rules, now);
    a != b && NothingMerelyAdded(a, b) && FewWords(rules.words(before), rules.words(now)) && FewLetters(rules, a, b)
  }

  lemma WordsAreFew(u: seq<string>, v: seq<string>)
    ensures WordsAreClose(u, v) <==> FewWords(u, v)
  {
    if |u| == |v| {
      ChangedCounts(u, v);
    }
    if SharesLongWord(u, v) {
      var word :| word in u && word in v && |word| > 1;
      var i, j :| 0 <= i < |u| && 0 <= j < |v| && u[i] == word && v[j] == word;
    }
  }

  lemma LettersAreFew(rules: TextRules, a: string, b: string)
    ensures LettersAreClose(rules, a, b) <==> FewLetters(rules, a, b)
  {
    var x, y := Fold(rules.fold, a), Fold(rules.fold, b);
    var best := BestScript(x, y);
    forall script | Turns(script, x, y) ensures Distance(x, y) <= Cost(script) {
      NoScriptIsCheaper(script, x, y);
    }
    assert IsCheapTurn(best, x, y) <==> Distance(x, y) <= Max(3, (Max(|a|, |b|) + 1) / 2);
  }

  /** What an edit teaches: surely, a change of case, spacing or hyphens alone; less surely,
      a few letters of a few words; and nothing else at all. */
  lemma LearnedIff(rules: TextRules, inserted: string, edited: string)
    ensures var before, now := Before(rules, inserted, edited), Now(rules, inserted, edited);
            var considered := IsConsidered(rules, inserted, edited) && IsChange(rules, before, now);
            var learned := Analysis(rules, inserted, edited);
            && (learned == Some(Evidence(before, now, 0.98)) <==> considered && OnlySpellingOut(rules, before, now))
            && (learned == Some(Evidence(before, now, 0.75)) <==> considered && CloseEnough(rules, before, now))
            && (learned.Some? ==> learned.value == Evidence(before, now, 0.98)
                                  || learned.value == Evidence(before, now, 0.75))
  {
    var before, now := Before(rules, inserted, edited), Now(rules, inserted, edited);
    var a, b := Comparable(rules, before), Comparable(rules, now);
    WordsAreFew(rules.words(before), rules.words(now));
    LettersAreFew(rules, a, b);
  }

  /** So text merely added is never learned. */
  lemma AddedTextIsNotLearned(rules: TextRules, inserted: string, edited: string)
    requires var a := Comparable(rules, Before(rules, inserted, edited));
             var b := Comparable(rules, Now(rules, inserted, edited));
             a != b && (IsSubsequenceOf(a, b) || IsSubsequenceOf(b, a))
    ensures Analysis(rules, inserted, edited) == None
  {
    LearnedIff(rules, inserted, edited);
    var a, b := Comparable(rules, Before(rules, inserted, edited)), Comparable(rules, Now(rules, inserted, edited));
    SubsequenceIsShorter(a, b);
    SubsequenceIsShorter(b, a);
  }

  lemma SubsequenceIsShorter(a: string, b: string)
    requires a != b
    ensures IsSubsequenceOf(a, b) ==> |a| < |b|
  {
    if IsSubsequenceOf(a, b) {
      var at :| Embeds(at, a, b);
      var script := EmbeddingScript(at, a, b);
      if Cost(script) == 0 {
        FreeScriptKeeps(script, a, b);
      }
    }
  }

  // ----- The source's loops

  method ComparableText(rules: TextRules, keep: char -> bool, text: string) returns (result: string)
    ensures result == FoldedWhere(rules, keep, text)
  {
    result := [];
    for i := 0 to |text|
      invariant result == FoldedWhere(rules, keep, text[..i])
    {
      assert Front(text[..i + 1]) == text[..i];
      if keep(text[i]) {
        result := result + [rules.fold(text[i])];
      }
    }
    assert text[..|text|] == text;
  }

  method FindSharedPrefix(inserted: string, edited: string) returns (prefix: nat)
    ensures prefix == SharedPrefix(inserted, edited, 0)
  {
    prefix := 0;
    while prefix < |inserted| && prefix < |edited| && inserted[prefix] == edited[prefix]
      invariant prefix <= |inserted| && prefix <= |edited|
      invariant SharedPrefix(inserted, edited, 0) == SharedPrefix(inserted, edited, prefix)
    {
      prefix := prefix + 1;
    }
  }

  method FindSharedSuffix(inserted: string, edited: string, prefix: nat) returns (suffix: nat)
    requires prefix <= |inserted| && prefix <= |edited|
    ensures suffix == SharedSuffix(inserted, edited, prefix, 0)
  {
    suffix := 0;
    while suffix < |inserted| - prefix && suffix < |edited| - prefix
      && inserted[|inserted| - suffix - 1] == edited[|edited| - suffix - 1]
      invariant prefix + suffix <= |inserted| && prefix + suffix <= |edited|
      invariant SharedSuffix(inserted, edited, prefix, 0) == SharedSuffix(inserted, edited, prefix, suffix)
    {
      suffix := suffix + 1;
    }
  }

  method FindBoundary(rules: TextRules, text: string, shared: nat) returns (prefix: nat)
    requires shared <= |text|
    ensures prefix == BoundaryBefore(rules, text, shared)
  {
    prefix := shared;
    while prefix > 0 && rules.letterOrNumber(text[prefix - 1])
      invariant 0 <= prefix <= shared
      invariant BoundaryBefore(rules, text, shared) == BoundaryBefore(rules, text, prefix)
    {
      prefix := prefix - 1;
    }
  }

  method FindWindow(rules: TextRules, inserted: string, edited: string) returns (w: Window)
    ensures w == WindowOf(rules, inserted, edited)
  {
    var shared := FindSharedPrefix(inserted, edited);
    var suffix := FindSharedSuffix(inserted, edited, shared);
    var prefix := FindBoundary(rules, inserted, shared);
    var tail := FindWordTail(rules, inserted, edited, |inserted| - suffix, |edited| - suffix);
    w := Window(prefix, |inserted| - suffix + tail, |edited| - suffix + tail);
  }

  method FindWordTail(rules: TextRules, inserted: string, edited: string, i: nat, j: nat) returns (tail: nat)
    requires i <= |inserted| && j <= |edited|
    ensures tail == WordTail(rules, inserted, edited, i, j)
  {
    var insertedEnd, editedEnd := i, j;
    while insertedEnd < |inserted| && editedEnd < |edited|
      && rules.letterOrNumber(inserted[insertedEnd]) && rules.letterOrNumber(edited[editedEnd])
      invariant i <= insertedEnd <= |inserted| && j <= editedEnd <= |edited|
      invariant insertedEnd - i == editedEnd - j
      invariant WordTail(rules, inserted, edited, i, j)
             == insertedEnd - i + WordTail(rules, inserted, edited, insertedEnd, editedEnd)
    {
      insertedEnd, editedEnd := insertedEnd + 1, editedEnd + 1;
    }
    tail := insertedEnd - i;
  }

  method WordsClose(a: seq<string>, b: seq<string>) returns (close: bool)
    ensures close <==> WordsAreClose(a, b)
  {
    if |a| > 3 || |b| > 3 {
      return false;
    }
    for i := 0 to |a|
      invariant forall k :: 0 <= k < i ==> |a[k]| <= 1 || a[k] !in b
    {
      if |a[i]| > 1 && a[i] in b {
        return false;
      }
    }
    if |a| == |b| && |a| > 1 {
      var changedWords := 0;
      for i := 0 to |a|
        invariant changedWords == Changed(a[..i], b[..i])
      {
        assert a[..i + 1][..i] == a[..i] && b[..i + 1][..i] == b[..i];
        changedWords := changedWords + if a[i] != b[i] then 1 else 0;
      }
      assert a[..|a|] == a && b[..|a|] == b;
      if changedWords > 1 {
        return false;
      }
    }
    return true;
  }

  method Judge(rules: TextRules, original: string, corrected: string) returns (confidence: Option<real>)
    ensures confidence == Confidence(rules, original, corrected)
  {
    if original == [] || corrected == [] || original == corrected || |original| > 64 || |corrected| > 64
      || rules.secret(original) || rules.secret(corrected) {
      return None;
    }
    var a := ComparableText(rules, rules.letterOrNumber, original);
    var b := ComparableText(rules, rules.letterOrNumber, corrected);
    if a == [] || b == [] {
      return None;
    }
    if a == b {
      var keep := Spaced(rules);
      var spacedOriginal := ComparableText(rules, keep, original);
      var spacedCorrected := ComparableText(rules, keep, corrected);
      return if spacedOriginal != spacedCorrected then None else Some(0.98);
    }
    var inside := IsSubsequence(a, b);
    var around := IsSubsequence(b, a);
    if (|a| < |b| && inside) || (|b| < |a| && around) {
      return None;
    }
    var wordsClose := WordsClose(rules.words(original), rules.words(corrected));
    if !wordsClose {
      return None;
    }
    var lettersClose := LettersClose(rules, a, b);
    return if lettersClose then Some(0.75) else None;
  }

  method LettersClose(rules: TextRules, a: string, b: string) returns (close: bool)
    ensures close <==> LettersAreClose(rules, a, b)
  {
    var longest, shortest := Max(|a|, |b|), |a| + |b| - Max(|a|, |b|);
    if shortest * 3 < longest {
      return false;
    }
    var distance := ComputeEditDistance(rules.fold, a, b);
    return distance <= Max(3, (longest + 1) / 2);
  }

  method AnalyzeCorrection(rules: TextRules, inserted: string, edited: string) returns (evidence: Option<Evidence>)
    ensures evidence == Analysis(rules, inserted, edited)
  {
    if inserted == edited || inserted == [] || edited == [] || rules.secret(inserted) || rules.secret(edited) {
      return None;
    }
    var w := FindWindow(rules, inserted, edited);
    var original := Trimmed(rules.space, inserted[w.start..w.insertedEnd]);
    var corrected := Trimmed(rules.space, edited[w.start..w.editedEnd]);
    var confidence := Judge(rules, original, corrected);
    match confidence
    case None => return None;
    case Some(c) => return Some(Evidence(original, corrected, c));
  }
}
