/** Words by app: grouping, ranking and folding the tail into one share. */
module AppShares {

  /** `profileName` is the name of the Writing Profile the dictation ran with. */
  datatype Record = Record(app: string, profileName: string, words: int)
  datatype AppShare = AppShare(name: string, otherApps: nat, profileName: string, words: int)

  const TOP_APPS: nat := 5

  function RecordWords(records: seq<Record>): int {
    if records == [] then 0 else RecordWords(records[..|records| - 1]) + records[|records| - 1].words
  }

  function WordsFor(records: seq<Record>, app: string): int {
    if records == [] then 0
    else
      var last := records[|records| - 1];
      WordsFor(records[..|records| - 1], app) + if last.app == app then last.words else 0
  }

  /** The profile of the app's latest dictation. */
  function ProfileFor(records: seq<Record>, app: string): string {
    if records == [] then ""
    else if records[|records| - 1].app == app then records[|records| - 1].profileName
    else ProfileFor(records[..|records| - 1], app)
  }

  /** The latest dictation is the last record of the app. */
  lemma {:induction false} ProfileIsLatest(records: seq<Record>, app: string, i: nat)
    requires i < |records| && records[i].app == app
    requires forall j :: i < j < |records| ==> records[j].app != app
    ensures ProfileFor(records, app) == records[i].profileName
  {
    if i < |records| - 1 {
      ProfileIsLatest(records[..|records| - 1], app, i);
    }
  }

  function ShareWords(shares: seq<AppShare>): int {
    if shares == [] then 0 else ShareWords(shares[..|shares| - 1]) + shares[|shares| - 1].words
  }

  lemma {:induction false} ShareWordsConcat(a: seq<AppShare>, b: seq<AppShare>)
    ensures ShareWords(a + b) == ShareWords(a) + ShareWords(b)
  {
    if b == [] {
      assert a + b == a;
    } else {
      assert (a + b)[..|a + b| - 1] == a + b[..|b| - 1];
      ShareWordsConcat(a, b[..|b| - 1]);
    }
  }

  lemma ShareWordsUpdate(shares: seq<AppShare>, i: nat, changed: AppShare)
    requires i < |shares|
    ensures ShareWords(shares[i := changed]) == ShareWords(shares) + changed.words - shares[i].words
  {
    assert shares == shares[..i] + [shares[i]] + shares[i + 1..];
    assert shares[i := changed] == shares[..i] + [changed] + shares[i + 1..];
    ShareWordsConcat(shares[..i] + [shares[i]], shares[i + 1..]);
    ShareWordsConcat(shares[..i] + [changed], shares[i + 1..]);
    ShareWordsConcat(shares[..i], [shares[i]]);
    ShareWordsConcat(shares[..i], [changed]);
  }

  // ----- Grouping: each app once, in the order they first appear

  function Apps(records: seq<Record>): (apps: seq<string>)
    ensures forall i, j :: 0 <= i < j < |apps| ==> apps[i] != apps[j]
    ensures forall r :: r in records ==> r.app in apps
  {
    if records == [] then []
    else
      var before, last := Apps(records[..|records| - 1]), records[|records| - 1].app;
      assert records == records[..|records| - 1] + [records[|records| - 1]];
      if last in before then before else before + [last]
  }

  function ShareOf(records: seq<Record>, app: string): AppShare {
    AppShare(app, 0, ProfileFor(records, app), WordsFor(records, app))
  }

  function Grouped(records: seq<Record>): (shares: seq<AppShare>)
    ensures |shares| == |Apps(records)|
    ensures forall i :: 0 <= i < |shares| ==> shares[i] == ShareOf(records, Apps(records)[i])
  {
    seq(|Apps(records)|, i requires 0 <= i < |Apps(records)| => ShareOf(records, Apps(records)[i]))
  }

  /** What earlier records grouped, later ones never reorder. */
  lemma {:induction false} AppsKeepFirstOrder(records: seq<Record>, n: nat)
    requires n <= |records|
    ensures Apps(records[..n]) <= Apps(records)
  {
    if n < |records| {
      AppsKeepFirstOrder(records[..|records| - 1], n);
      assert records[..|records| - 1][..n] == records[..n];
    } else {
      assert records[..n] == records;
    }
  }

  lemma {:induction false} UnseenApp(records: seq<Record>, app: string)
    requires app !in Apps(records)
    ensures WordsFor(records, app) == 0
  {
    if records != [] {
      UnseenApp(records[..|records| - 1], app);
    }
  }

  /** One record more changes its own app's share, or adds it at the end. */
  lemma GroupedGrows(records: seq<Record>, r: Record)
    ensures var more := records + [r];
            && (r.app !in Apps(records) ==> Grouped(more) == Grouped(records) + [ShareOf(more, r.app)])
            && (forall i :: 0 <= i < |Apps(records)| && Apps(records)[i] == r.app ==>
                  Grouped(more) == Grouped(records)[i := ShareOf(more, r.app)])
            && ShareOf(more, r.app) == AppShare(r.app, 0, r.profileName, WordsFor(records, r.app) + r.words)
  {
    var more := records + [r];
    assert more[..|more| - 1] == records;
    assert forall app :: app != r.app ==> ShareOf(more, app) == ShareOf(records, app);
  }

  /** Grouping loses no word. */
  lemma {:induction false} GroupingKeepsWords(records: seq<Record>)
    ensures ShareWords(Grouped(records)) == RecordWords(records)
  {
    if records != [] {
      var front, last := records[..|records| - 1], records[|records| - 1];
      assert records == front + [last];
      GroupingKeepsWords(front);
      GroupedGrows(front, last);
      if last.app in Apps(front) {
        var i :| 0 <= i < |Apps(front)| && Apps(front)[i] == last.app;
        ShareWordsUpdate(Grouped(front), i, ShareOf(records, last.app));
      } else {
        UnseenApp(front, last.app);
        ShareWordsConcat(Grouped(front), [ShareOf(records, last.app)]);
      }
    }
  }

  // ----- Ranking: stable, most words first

  /** Puts `s` behind every share with at least as many words. */
  function Insert(s: AppShare, ranked: seq<AppShare>): (r: seq<AppShare>)
    ensures forall t :: t in r ==> t == s || t in ranked
  {
    if ranked == [] || ranked[|ranked| - 1].words >= s.words then ranked + [s]
    else Insert(s, ranked[..|ranked| - 1]) + [ranked[|ranked| - 1]]
  }

  function Ranked(shares: seq<AppShare>): seq<AppShare> {
    if shares == [] then [] else Insert(shares[|shares| - 1], Ranked(shares[..|shares| - 1]))
  }

  predicate Falling(shares: seq<AppShare>) {
    forall i, j :: 0 <= i < j < |shares| ==> shares[i].words >= shares[j].words
  }

  /** The shares of so many words, in their order: what a stable sort keeps. */
  function WithWords(shares: seq<AppShare>, words: int): seq<AppShare> {
    if shares == [] then []
    else
      WithWords(shares[..|shares| - 1], words)
      + if shares[|shares| - 1].words == words then [shares[|shares| - 1]] else []
  }

  lemma {:induction false} WithWordsHolds(shares: seq<AppShare>, words: int, s: AppShare)
    ensures s in WithWords(shares, words) <==> s in shares && s.words == words
  {
    if shares != [] {
      assert shares == shares[..|shares| - 1] + [shares[|shares| - 1]];
      WithWordsHolds(shares[..|shares| - 1], words, s);
    }
  }

  predicate SameTies(a: seq<AppShare>, b: seq<AppShare>, words: int) {
    WithWords(a, words) == WithWords(b, words)
  }

  lemma {:induction false} InsertKeepsOrder(s: AppShare, ranked: seq<AppShare>)
    requires Falling(ranked)
    ensures Falling(Insert(s, ranked))
  {
    if ranked != [] && ranked[|ranked| - 1].words < s.words {
      var front := ranked[..|ranked| - 1];
      InsertKeepsOrder(s, front);
      forall i | 0 <= i < |Insert(s, front)|
        ensures Insert(s, front)[i].words >= ranked[|ranked| - 1].words
      {
        assert Insert(s, front)[i] in Insert(s, front);
      }
    }
  }

  lemma {:induction false} InsertKeepsContents(s: AppShare, ranked: seq<AppShare>)
    ensures multiset(Insert(s, ranked)) == multiset(ranked) + multiset{s}
  {
    if ranked != [] && ranked[|ranked| - 1].words < s.words {
      InsertKeepsContents(s, ranked[..|ranked| - 1]);
      assert ranked == ranked[..|ranked| - 1] + [ranked[|ranked| - 1]];
    }
  }

  lemma {:induction false} InsertKeepsWords(s: AppShare, ranked: seq<AppShare>)
    ensures ShareWords(Insert(s, ranked)) == ShareWords(ranked) + s.words
  {
    if ranked != [] && ranked[|ranked| - 1].words < s.words {
      var front := ranked[..|ranked| - 1];
      InsertKeepsWords(s, front);
      assert Insert(s, ranked)[..|Insert(s, ranked)| - 1] == Insert(s, front);
    } else {
      assert (ranked + [s])[..|ranked|] == ranked;
    }
  }

  lemma {:induction false} InsertIsStable(s: AppShare, ranked: seq<AppShare>, words: int)
    ensures WithWords(Insert(s, ranked), words) == WithWords(ranked, words) + if s.words == words then [s] else []
  {
    if ranked != [] && ranked[|ranked| - 1].words < s.words {
      var front := ranked[..|ranked| - 1];
      InsertIsStable(s, front, words);
      assert Insert(s, ranked)[..|Insert(s, ranked)| - 1] == Insert(s, front);
    } else {
      assert (ranked + [s])[..|ranked|] == ranked;
    }
  }

  lemma {:induction false} RankedFalls(shares: seq<AppShare>)
    ensures Falling(Ranked(shares))
  {
    if shares != [] {
      RankedFalls(shares[..|shares| - 1]);
      InsertKeepsOrder(shares[|shares| - 1], Ranked(shares[..|shares| - 1]));
    }
  }

  lemma {:induction false} RankedKeepsContents(shares: seq<AppShare>)
    ensures multiset(Ranked(shares)) == multiset(shares)
    ensures ShareWords(Ranked(shares)) == ShareWords(shares)
  {
    if shares != [] {
      var front, last := shares[..|shares| - 1], shares[|shares| - 1];
      assert multiset(shares) == multiset(front) + multiset{last} by {
        assert shares == front + [last];
      }
      RankedKeepsContents(front);
      InsertKeepsContents(last, Ranked(front));
      InsertKeepsWords(last, Ranked(front));
    }
  }

  lemma {:induction false} RankedKeepsTies(shares: seq<AppShare>, words: int)
    ensures SameTies(Ranked(shares), shares, words)
  {
    if shares != [] {
      RankedKeepsTies(shares[..|shares| - 1], words);
      InsertIsStable(shares[|shares| - 1], Ranked(shares[..|shares| - 1]), words);
    }
  }

  lemma TiesLoseTheirLast(a: seq<AppShare>, b: seq<AppShare>, last: AppShare, words: int)
    requires SameTies(a + [last], b + [last], words)
    ensures SameTies(a, b, words)
  {
    var x, y := WithWords(a, words), WithWords(b, words);
    assert (a + [last])[..|a|] == a && (b + [last])[..|b|] == b;
    if last.words == words {
      assert x + [last] == y + [last];
      assert x == (x + [last])[..|x|] && y == (y + [last])[..|y|];
    } else {
      assert WithWords(a + [last], words) == x && WithWords(b + [last], words) == y;
    }
  }

  /** The last of a falling list has the fewest words, and is the last of its ties. */
  lemma LastOfTies(a: seq<AppShare>, b: seq<AppShare>)
    requires a != [] && Falling(a) && Falling(b)
    requires forall words :: SameTies(a, b, words)
    ensures b != [] && a[|a| - 1].words >= b[|b| - 1].words
  {
    var last := a[|a| - 1];
    WithWordsHolds(a, last.words, last);
    assert SameTies(a, b, last.words);
    WithWordsHolds(b, last.words, last);
  }

  lemma LastsAgree(a: seq<AppShare>, b: seq<AppShare>)
    requires a != [] && b != [] && a[|a| - 1].words == b[|b| - 1].words
    requires SameTies(a, b, a[|a| - 1].words)
    ensures a[|a| - 1] == b[|b| - 1]
  {
    var tied := WithWords(a, a[|a| - 1].words);
    assert tied[|tied| - 1] == a[|a| - 1] && tied[|tied| - 1] == b[|b| - 1];
  }

  lemma {:induction false} FallingWithSameTies(a: seq<AppShare>, b: seq<AppShare>)
    requires Falling(a) && Falling(b) && forall words :: SameTies(a, b, words)
    ensures a == b
    decreases |a|
  {
    assert forall words :: SameTies(b, a, words) <== SameTies(a, b, words);
    if b != [] {
      LastOfTies(b, a);
    }
    if a != [] {
      LastOfTies(a, b);
      var last := a[|a| - 1];
      assert SameTies(a, b, last.words);
      LastsAgree(a, b);
      var frontA, frontB := a[..|a| - 1], b[..|b| - 1];
      assert a == frontA + [last] && b == frontB + [last];
      forall words ensures SameTies(frontA, frontB, words) {
        assert SameTies(a, b, words);
        TiesLoseTheirLast(frontA, frontB, last, words);
      }
      FallingWithSameTies(frontA, frontB);
    }
  }

  /** The ranking is the stable sort, the only one there is: any list of the same shares
      that falls and keeps ties in their order is this one. */
  lemma RankedIsTheStableSort(shares: seq<AppShare>, sorted: seq<AppShare>)
    ensures sorted == Ranked(shares) <==> Falling(sorted) && forall words :: SameTies(sorted, shares, words)
  {
    RankedFalls(shares);
    forall words ensures SameTies(Ranked(shares), shares, words) {
      RankedKeepsTies(shares, words);
    }
    if Falling(sorted) && forall words :: SameTies(sorted, shares, words) {
      forall words ensures SameTies(sorted, Ranked(shares), words) {
        assert SameTies(sorted, shares, words) && SameTies(Ranked(shares), shares, words);
      }
      FallingWithSameTies(sorted, Ranked(shares));
    }
  }

  // ----- Folding the tail

  function Tail(ranked: seq<AppShare>): seq<AppShare> {
    if |ranked| <= TOP_APPS then [] else ranked[TOP_APPS..]
  }

  /** The first five, and the rest as one nameless share when it holds any words. */
  function TopShares(ranked: seq<AppShare>): seq<AppShare> {
    if |ranked| <= TOP_APPS then ranked
    else
      var rest := ShareWords(Tail(ranked));
      ranked[..TOP_APPS] + if rest > 0 then [AppShare("", |ranked| - TOP_APPS, "", rest)] else []
  }

  /** At most five apps are shown by name, as ranked; the others only as their number and
      the sum of their words, when that is more than nothing. */
  lemma TopSharesAre(ranked: seq<AppShare>)
    ensures var shown := TopShares(ranked);
            && (|ranked| <= 5 ==> shown == ranked)
            && (|ranked| > 5 ==>
                  && 5 <= |shown| <= 6 && shown[..5] == ranked[..5]
                  && (|shown| == 6 <==> ShareWords(ranked[5..]) > 0)
                  && (|shown| == 6 ==> shown[5] == AppShare("", |ranked| - 5, "", ShareWords(ranked[5..]))))
  {
  }

  /** Every word is shown under some share exactly when the folded tail does not owe
      any, which counts that are not negative never do. */
  lemma TopSharesConserveWords(ranked: seq<AppShare>)
    ensures ShareWords(TopShares(ranked)) == ShareWords(ranked) <==> ShareWords(Tail(ranked)) >= 0
    ensures (forall s :: s in ranked ==> s.words >= 0) ==> ShareWords(TopShares(ranked)) == ShareWords(ranked)
  {
    if |ranked| > TOP_APPS {
      var rest := ShareWords(Tail(ranked));
      assert ranked == ranked[..TOP_APPS] + ranked[TOP_APPS..];
      ShareWordsConcat(ranked[..TOP_APPS], ranked[TOP_APPS..]);
      ShareWordsConcat(ranked[..TOP_APPS], [AppShare("", |ranked| - TOP_APPS, "", rest)]);
      assert ranked[..TOP_APPS] + [] == ranked[..TOP_APPS];
      if forall s :: s in ranked ==> s.words >= 0 {
        NoSharesOwe(ranked[TOP_APPS..]);
      }
    }
  }

  lemma {:induction false} NoSharesOwe(shares: seq<AppShare>)
    requires forall s :: s in shares ==> s.words >= 0
    ensures ShareWords(shares) >= 0
  {
    if shares != [] {
      NoSharesOwe(shares[..|shares| - 1]);
    }
  }

  // ----- From records to shares

  function Shown(records: seq<Record>): seq<AppShare> {
    TopShares(Ranked(Grouped(records)))
  }

  /** Of any records, every word is shown exactly when the apps past the fifth do not owe
      any; a log may hold a record that does, since a line may give any number. */
  lemma ShownConservesWordsIff(records: seq<Record>)
    ensures ShareWords(Shown(records)) == RecordWords(records)
       <==> ShareWords(Tail(Ranked(Grouped(records)))) >= 0
    ensures (forall r :: r in records ==> r.words >= 0) ==> ShareWords(Shown(records)) == RecordWords(records)
  {
    GroupingKeepsWords(records);
    RankedKeepsContents(Grouped(records));
    TopSharesConserveWords(Ranked(Grouped(records)));
    if forall r :: r in records ==> r.words >= 0 {
      forall s | s in Ranked(Grouped(records))
        ensures s.words >= 0
      {
        assert s in multiset(Ranked(Grouped(records)));
        NoAppOwes(records, s.name);
      }
    }
  }

  lemma {:induction false} NoAppOwes(records: seq<Record>, app: string)
    requires forall r :: r in records ==> r.words >= 0
    ensures WordsFor(records, app) >= 0
  {
    if records != [] {
      NoAppOwes(records[..|records| - 1], app);
    }
  }

  predicate OneRecordEach(records: seq<Record>) {
    forall i, j :: 0 <= i < j < |records| ==> records[i].app != records[j].app
  }

  lemma {:induction false} OneAppEach(records: seq<Record>)
    requires OneRecordEach(records)
    ensures |Apps(records)| == |records| && forall i :: 0 <= i < |records| ==> Apps(records)[i] == records[i].app
  {
    if records != [] {
      OneAppEach(records[..|records| - 1]);
    }
  }

  lemma {:induction false} OneRecordsWords(records: seq<Record>, i: nat)
    requires OneRecordEach(records) && i < |records|
    ensures WordsFor(records, records[i].app) == records[i].words
  {
    var front := records[..|records| - 1];
    if i < |front| {
      OneRecordsWords(front, i);
    } else {
      OneAppEach(front);
      UnseenApp(front, records[i].app);
    }
  }

  /** Apps that each dictated once are grouped as they come. */
  lemma OnceEach(records: seq<Record>)
    requires OneRecordEach(records)
    ensures |Grouped(records)| == |records|
    ensures forall i :: 0 <= i < |records| ==> Grouped(records)[i].words == records[i].words
  {
    OneAppEach(records);
    forall i | 0 <= i < |records| ensures Grouped(records)[i].words == records[i].words {
      OneRecordsWords(records, i);
    }
  }

  /** Such records: six apps, the least of which comes last and is given less than
      nothing. */
  lemma {:induction false} NegativeTailLosesWords(records: seq<Record>)
    requires |records| == 6 && records[5].words < 0
    requires OneRecordEach(records)
    requires forall i, j :: 0 <= i < j < 6 ==> records[i].words >= records[j].words
    ensures ShareWords(Shown(records)) != RecordWords(records)
  {
    OnceEach(records);
    var shares := Grouped(records);
    RankedIsTheStableSort(shares, shares);
    assert Tail(shares) == [shares[5]];
    assert ShareWords([shares[5]]) == ShareWords([shares[5]][..0]) + shares[5].words;
    ShownConservesWordsIff(records);
  }

  /** For one, five apps with a word each and a sixth whose line gives -1. */
  lemma SomeRecordsLoseWords()
    ensures exists records :: ShareWords(Shown(records)) != RecordWords(records)
  {
    var records := seq(6, i requires 0 <= i < 6 =>
      Record(seq(i, _ => 'a'), "", if i < 5 then 1 else -1));
    forall i, j | 0 <= i < j < 6 ensures records[i].app != records[j].app {
      assert |records[i].app| < |records[j].app|;
    }
    NegativeTailLosesWords(records);
  }

  // ----- The source's loops

  method GroupByApp(records: seq<Record>) returns (totals: seq<AppShare>)
    ensures totals == Grouped(records)
  {
    totals := [];
    for n := 0 to |records|
      invariant totals == Grouped(records[..n])
    {
      ghost var seen := records[..n];
      var r := records[n];
      assert records[..n + 1] == seen + [r];
      GroupedGrows(seen, r);
      var app := 0;
      while app < |totals| && totals[app].name != r.app
        invariant app <= |totals| && forall i :: 0 <= i < app ==> totals[i].name != r.app
      {
        app := app + 1;
      }
      if app == |totals| {
        assert r.app !in Apps(seen);
        UnseenApp(seen, r.app);
        totals := totals + [AppShare(r.app, 0, "", 0)];
      }
      totals := totals[app := totals[app].(words := totals[app].words + r.words, profileName := r.profileName)];
    }
    assert records[..|records|] == records;
  }

  method FoldTail(ranked: seq<AppShare>) returns (apps: seq<AppShare>)
    ensures apps == TopShares(ranked)
  {
    apps := if |ranked| <= TOP_APPS then ranked else ranked[..TOP_APPS];
    var rest := 0;
    var i := TOP_APPS;
    while i < |ranked|
      invariant |ranked| > TOP_APPS ==> i <= |ranked| && rest == ShareWords(ranked[TOP_APPS..i])
      invariant |ranked| <= TOP_APPS ==> rest == 0
      invariant i >= TOP_APPS
    {
      assert ranked[TOP_APPS..i + 1][..i - TOP_APPS] == ranked[TOP_APPS..i];
      rest := rest + ranked[i].words;
      i := i + 1;
    }
    assert |ranked| > TOP_APPS ==> ranked[TOP_APPS..i] == Tail(ranked);
    if rest > 0 {
      apps := apps + [AppShare("", |ranked| - TOP_APPS, "", rest)];
    }
  }

  /** The whole of the source's step: group, rank, keep five and fold the rest. */
  method SummarizeApps(records: seq<Record>) returns (apps: seq<AppShare>)
    ensures apps == Shown(records)
    ensures ShareWords(apps) == RecordWords(records) <==> ShareWords(Tail(Ranked(Grouped(records)))) >= 0
    ensures (forall r :: r in records ==> r.words >= 0) ==> ShareWords(apps) == RecordWords(records)
  {
    var totals := GroupByApp(records);
    apps := FoldTail(Ranked(totals));
    ShownConservesWordsIff(records);
  }
}
