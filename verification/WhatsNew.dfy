/** Which release notes an update shows, and the settings that decide from where. */
module WhatsNew {
  import opened BaseVersions

  datatype Note = Note(version: string, text: string)

  predicate IsNightly(version: string) {
    exists i :: 0 <= i <= |version| && "-nightly" <= version[i..]
  }

  /** Newer than the last version seen, or the stable release of the nightly base
      that was last seen, and not newer than the current version. */
  predicate IsNews(version: string, lastSeen: string, current: string) {
    && (Compare(version, lastSeen) > 0
        || (Compare(version, lastSeen) == 0 && IsNightly(lastSeen) && Compare(current, lastSeen) > 0))
    && Compare(version, current) <= 0
  }

  function News(notes: seq<Note>, lastSeen: string, current: string): (news: seq<Note>)
    ensures forall n :: n in news <==> n in notes && IsNews(n.version, lastSeen, current)
  {
    if notes == [] then []
    else
      var last := notes[|notes| - 1];
      News(notes[..|notes| - 1], lastSeen, current) + if IsNews(last.version, lastSeen, current) then [last] else []
  }

  /** The first note not newer than the current version. */
  function Newest(notes: seq<Note>, current: string): seq<Note> {
    if notes == [] then []
    else if Compare(notes[0].version, current) <= 0 then [notes[0]]
    else Newest(notes[1..], current)
  }

  /** The releases the source lists; `comparison` is whether a nightly-to-nightly
      comparison is shown, which keeps the stand-in away. */
  function Releases(notes: seq<Note>, comparison: bool, lastSeen: string, current: string): seq<Note> {
    var news := if lastSeen == "" then [] else News(notes, lastSeen, current);
    if news == [] && !comparison then Newest(notes, current) else news
  }

  lemma NightlyIsNamed(before: string, after: string)
    ensures IsNightly(before + "-nightly" + after)
  {
    var version := before + "-nightly" + after;
    assert version[|before|..] == "-nightly" + after;
  }

  lemma {:induction false} NewestIsFirst(notes: seq<Note>, current: string)
    ensures Newest(notes, current) == [] <==> forall n :: n in notes ==> Compare(n.version, current) > 0
    ensures forall i :: 0 <= i < |notes| && Compare(notes[i].version, current) <= 0
                        && (forall j :: 0 <= j < i ==> Compare(notes[j].version, current) > 0)
              ==> Newest(notes, current) == [notes[i]]
  {
    if notes != [] && Compare(notes[0].version, current) > 0 {
      NewestIsFirst(notes[1..], current);
    }
  }

  /** The page holds the news since the version last seen, if there was one; only a page
      without any, and without a comparison of Nightly Builds, holds the newest note. */
  lemma PageHolds(notes: seq<Note>, comparison: bool, lastSeen: string, current: string, note: Note)
    ensures var news := lastSeen != "" && exists n :: n in notes && IsNews(n.version, lastSeen, current);
            && (news ==> (note in Releases(notes, comparison, lastSeen, current) <==>
                            note in notes && IsNews(note.version, lastSeen, current)))
            && (!news ==> Releases(notes, comparison, lastSeen, current)
                          == if comparison then [] else Newest(notes, current))
  {
    NoNews(notes, lastSeen, current);
  }

  lemma {:induction false} NoNews(notes: seq<Note>, lastSeen: string, current: string)
    ensures News(notes, lastSeen, current) == [] <==>
              forall n :: n in notes ==> !IsNews(n.version, lastSeen, current)
  {
    if notes != [] {
      assert notes == notes[..|notes| - 1] + [notes[|notes| - 1]];
      NoNews(notes[..|notes| - 1], lastSeen, current);
    }
  }

  method ListNews(notes: seq<Note>, lastSeen: string, current: string) returns (news: seq<Note>)
    ensures news == News(notes, lastSeen, current)
  {
    news := [];
    var currentAfter := CompareBaseVersions(current, lastSeen);
    var crossedOwnBase := IsNightly(lastSeen) && currentAfter > 0;
    for i := 0 to |notes|
      invariant news == News(notes[..i], lastSeen, current)
    {
      assert notes[..i + 1][..i] == notes[..i];
      var afterLastSeen := CompareBaseVersions(notes[i].version, lastSeen);
      var afterCurrent := CompareBaseVersions(notes[i].version, current);
      if (afterLastSeen > 0 || (afterLastSeen == 0 && crossedOwnBase)) && afterCurrent <= 0 {
        news := news + [notes[i]];
      }
    }
    assert notes[..|notes|] == notes;
  }

  method FindNewest(notes: seq<Note>, current: string) returns (newest: seq<Note>)
    ensures newest == Newest(notes, current)
  {
    var i := 0;
    while i < |notes|
      invariant i <= |notes| && Newest(notes, current) == Newest(notes[i..], current)
    {
      var afterCurrent := CompareBaseVersions(notes[i].version, current);
      if afterCurrent <= 0 {
        return [notes[i]];
      }
      i := i + 1;
    }
    return [];
  }

  method ListReleases(notes: seq<Note>, comparison: bool, lastSeen: string, current: string)
    returns (releases: seq<Note>)
    ensures releases == Releases(notes, comparison, lastSeen, current)
  {
    releases := [];
    if lastSeen != "" {
      releases := ListNews(notes, lastSeen, current);
    }
    if releases == [] && !comparison {
      releases := FindNewest(notes, current);
    }
  }

  // ----- Launches and views

  /** The saved update settings: an empty pending version means nothing is pending. */
  datatype Settings = Settings(lastVersion: string, lastBuild: int, pending: string)

  predicate IsUpgrade(s: Settings, version: string, build: int) {
    if s.lastBuild >= 0 then build > s.lastBuild
    else
      || Compare(version, s.lastVersion) > 0
      || (s.lastVersion != "" && IsNightly(s.lastVersion) && IsNightly(version) && s.lastVersion != version)
  }

  function Launch(s: Settings, version: string, build: int): Settings {
    if s.lastVersion == version && s.lastBuild == build then s
    else
      Settings(version, build,
               if IsUpgrade(s, version, build) && s.pending == "" then s.lastVersion else s.pending)
  }

  function View(s: Settings): Settings {
    s.(pending := "")
  }

  datatype Event = Launched(version: string, build: int) | Viewed

  function Step(s: Settings, e: Event): Settings {
    match e
    case Launched(version, build) => Launch(s, version, build)
    case Viewed => View(s)
  }

  function Run(s: Settings, events: seq<Event>): Settings
    decreases events
  {
    if events == [] then s else Run(Step(s, events[0]), events[1..])
  }

  /** A launch saves what runs, keeps a range already open, and opens one at the version
      before exactly when a higher build follows, or, after a version that saved no build,
      a higher base or another Nightly Build. */
  lemma LaunchOpensRangeIff(s: Settings, version: string, build: int)
    requires s.lastVersion != ""
    ensures var after := Launch(s, version, build);
            && after.lastVersion == version && after.lastBuild == build
            && (s.pending != "" ==> after.pending == s.pending)
            && (s.pending == "" && s.lastBuild >= 0 ==>
                  after.pending == if build > s.lastBuild then s.lastVersion else "")
            && (s.pending == "" && s.lastBuild < 0 && Compare(version, s.lastVersion) > 0 ==>
                  after.pending == s.lastVersion)
            && (s.pending == "" && s.lastBuild < 0 && Compare(version, s.lastVersion) <= 0 ==>
                  after.pending == if IsNightly(s.lastVersion) && IsNightly(version) && version != s.lastVersion
                                   then s.lastVersion else "")
  {
    CompareIsAntisymmetric(version, version);
  }

  // ----- Places in the history of releases

  /** A release is still ahead of a place: the place is a lower version, or a Nightly Build
      of the release's own base, which predates it. */
  predicate Ahead(release: string, place: string) {
    Compare(release, place) > 0 || (Compare(release, place) == 0 && IsNightly(place))
  }

  /** The second place comes no earlier than the first. */
  predicate NotAfter(a: string, b: string) {
    Compare(a, b) < 0 || (Compare(a, b) == 0 && (IsNightly(a) || !IsNightly(b)))
  }

  lemma CompareSelf(v: string)
    ensures Compare(v, v) == 0
  {
    CompareIsAntisymmetric(v, v);
  }

  lemma NotAfterIsTransitive(a: string, b: string, c: string)
    requires NotAfter(a, b) && NotAfter(b, c)
    ensures NotAfter(a, c)
  {
    CompareIsTransitive(a, b, c);
    if Compare(a, b) == 0 && Compare(b, c) == 0 {
      CompareIsAntisymmetric(a, b);
      CompareIsAntisymmetric(b, c);
      CompareIsTransitive(c, b, a);
      CompareIsAntisymmetric(a, c);
    }
  }

  /** Going on, releases are passed and never come ahead again. */
  lemma PassedStaysPassed(release: string, a: string, b: string)
    requires NotAfter(a, b) && Ahead(release, b)
    ensures Ahead(release, a)
  {
    CompareIsAntisymmetric(release, a);
    CompareIsAntisymmetric(release, b);
    CompareIsTransitive(a, b, release);
    if Compare(a, b) == 0 && Compare(b, release) == 0 {
      CompareIsAntisymmetric(a, b);
      CompareIsTransitive(release, b, a);
    }
  }

  /** The notes a build carries: those of the releases made before it, its own included. */
  function Bundled(notes: seq<Note>, current: string): (bundled: seq<Note>)
    ensures forall n :: n in bundled <==> n in notes && !Ahead(n.version, current)
  {
    if notes == [] then []
    else
      var last := notes[|notes| - 1];
      Bundled(notes[..|notes| - 1], current) + if Ahead(last.version, current) then [] else [last]
  }

  /** The one step that lists no release it passes: from a Nightly Build to the Stable
      Release of its own base. */
  predicate IsOwnRelease(release: string, lastSeen: string, current: string) {
    Compare(release, lastSeen) == 0 && Compare(release, current) == 0 && IsNightly(lastSeen) && !IsNightly(current)
  }

  /** A view lists exactly the releases it passes, but for that one. */
  lemma ViewListsWhatItPasses(notes: seq<Note>, note: Note, lastSeen: string, current: string)
    requires NotAfter(lastSeen, current) && note in notes
    ensures note in News(Bundled(notes, current), lastSeen, current)
       <==> Ahead(note.version, lastSeen) && !Ahead(note.version, current)
            && !IsOwnRelease(note.version, lastSeen, current)
    ensures IsOwnRelease(note.version, lastSeen, current) ==>
              Ahead(note.version, lastSeen) && !Ahead(note.version, current)
  {
    var v := note.version;
    CompareIsAntisymmetric(v, lastSeen);
    CompareIsAntisymmetric(v, current);
    CompareIsAntisymmetric(lastSeen, current);
    Chained(current, lastSeen, v);
    Chained(lastSeen, current, v);
    Chained(v, lastSeen, current);
    Chained(v, current, lastSeen);
  }

  lemma Chained(a: string, b: string, c: string)
    ensures Compare(a, b) <= 0 && Compare(b, c) <= 0 ==>
              Compare(a, c) <= 0 && (Compare(a, b) < 0 || Compare(b, c) < 0 ==> Compare(a, c) < 0)
  {
    if Compare(a, b) <= 0 && Compare(b, c) <= 0 {
      CompareIsTransitive(a, b, c);
    }
  }

  lemma {:induction false} NothingBetweenLevels(notes: seq<Note>, lastSeen: string, current: string)
    requires Compare(current, lastSeen) == 0
    ensures News(notes, lastSeen, current) == []
  {
    if notes != [] {
      NothingBetweenLevels(notes[..|notes| - 1], lastSeen, current);
      Chained(notes[|notes| - 1].version, current, lastSeen);
    }
  }

  /** On that step the newest note not past the current version stands in: a note of the
      release itself, when the notes carried start with it. */
  lemma OwnReleaseStandsIn(notes: seq<Note>, lastSeen: string, current: string)
    requires IsOwnRelease(current, lastSeen, current)
    requires notes != [] && Compare(notes[0].version, current) == 0
    ensures Releases(notes, false, lastSeen, current) == [notes[0]]
  {
    NothingBetweenLevels(notes, lastSeen, current);
  }

  // ----- Runs of launches and views

  /** Launches whose builds rise with their places, Nightly and stable in any mix, as
      updates go: after a Stable Release comes no Nightly Build of the same base. */
  predicate Rises(s: Settings, events: seq<Event>)
    decreases events
  {
    events == [] ||
    (match events[0]
     case Viewed => Rises(View(s), events[1..])
     case Launched(version, build) =>
       && version != ""
       && (build > s.lastBuild || (build == s.lastBuild && version == s.lastVersion))
       && NotAfter(s.lastVersion, version)
       && Rises(Launch(s, version, build), events[1..]))
  }

  predicate IsListed(notes: seq<Note>, note: Note, s: Settings) {
    s.pending != "" && note in News(Bundled(notes, s.lastVersion), s.pending, s.lastVersion)
  }

  /** How many of the run's views list a note as news. */
  function TimesShown(notes: seq<Note>, note: Note, s: Settings, events: seq<Event>): nat
    decreases events
  {
    if events == [] then 0
    else
      (if events[0].Viewed? && IsListed(notes, note, s) then 1 else 0)
      + TimesShown(notes, note, Step(s, events[0]), events[1..])
  }

  /** How many pass a release as the own one of the Nightly Build before. */
  function TimesStoodIn(release: string, s: Settings, events: seq<Event>): nat
    decreases events
  {
    if events == [] then 0
    else
      (if events[0].Viewed? && s.pending != "" && IsOwnRelease(release, s.pending, s.lastVersion) then 1 else 0)
      + TimesStoodIn(release, Step(s, events[0]), events[1..])
  }

  /** Up to where the releases have been shown: everything past it is still to come. */
  function SeenUpTo(s: Settings): string {
    if s.pending == "" then s.lastVersion else s.pending
  }

  ghost predicate Placed(s: Settings) {
    s.lastVersion != "" && s.lastBuild >= 0 && NotAfter(SeenUpTo(s), s.lastVersion)
  }

  lemma LaunchKeepsPlace(s: Settings, version: string, build: int)
    requires Placed(s) && Rises(s, [Launched(version, build)])
    ensures Placed(Launch(s, version, build)) && SeenUpTo(Launch(s, version, build)) == SeenUpTo(s)
  {
    NotAfterIsTransitive(SeenUpTo(s), s.lastVersion, version);
  }

  lemma StaysPut(v: string)
    ensures NotAfter(v, v)
  {
    CompareSelf(v);
  }

  lemma {:induction false} PlaceNeverFalls(s: Settings, events: seq<Event>)
    requires Placed(s) && Rises(s, events)
    ensures Placed(Run(s, events)) && NotAfter(SeenUpTo(s), SeenUpTo(Run(s, events)))
    decreases events
  {
    StaysPut(SeenUpTo(s));
    if events != [] {
      var next := Step(s, events[0]);
      if events[0].Launched? {
        LaunchKeepsPlace(s, events[0].version, events[0].build);
      } else {
        StaysPut(s.lastVersion);
      }
      PlaceNeverFalls(next, events[1..]);
      NotAfterIsTransitive(SeenUpTo(s), SeenUpTo(next), SeenUpTo(Run(s, events)));
    }
  }

  predicate Crossed(release: string, s: Settings, end: Settings) {
    Ahead(release, SeenUpTo(s)) && !Ahead(release, SeenUpTo(end))
  }

  /** Over any rising run of launches, Nightly and stable, with views between: a release
      crossed up to the last view is listed on exactly one view, or passed on exactly one
      as the own release of the Nightly Build before, and no other is listed at all. */
  lemma {:induction false} EveryCrossedReleaseIsShownOnce(notes: seq<Note>, note: Note, s: Settings, events: seq<Event>)
    requires Placed(s) && Rises(s, events) && note in notes
    ensures TimesShown(notes, note, s, events) + TimesStoodIn(note.version, s, events)
         == if Crossed(note.version, s, Run(s, events)) then 1 else 0
    decreases events
  {
    var v := note.version;
    if events != [] {
      var next := Step(s, events[0]);
      if events[0].Launched? {
        LaunchKeepsPlace(s, events[0].version, events[0].build);
      } else {
        StaysPut(s.lastVersion);
        ViewListsWhatItPasses(notes, note, SeenUpTo(s), s.lastVersion);
        PlaceNeverFalls(next, events[1..]);
        ViewSplitsRun(v, s, Run(s, events));
      }
      EveryCrossedReleaseIsShownOnce(notes, note, next, events[1..]);
    }
  }

  /** What a run crosses from a view on, and what the view itself does, come to the whole. */
  lemma ViewSplitsRun(release: string, s: Settings, end: Settings)
    requires NotAfter(SeenUpTo(s), s.lastVersion) && NotAfter(s.lastVersion, SeenUpTo(end))
    ensures !(Crossed(release, s, View(s)) && Crossed(release, View(s), end))
    ensures Crossed(release, s, end) <==> Crossed(release, s, View(s)) || Crossed(release, View(s), end)
  {
    if Ahead(release, SeenUpTo(end)) {
      PassedStaysPassed(release, s.lastVersion, SeenUpTo(end));
    }
    if Ahead(release, s.lastVersion) {
      PassedStaysPassed(release, SeenUpTo(s), s.lastVersion);
    }
  }

  // ----- Stable runs

  predicate Between(v: string, from: string, to: string) {
    Compare(v, from) > 0 && Compare(v, to) <= 0
  }

  predicate AllStable(s: Settings, events: seq<Event>) {
    !IsNightly(s.lastVersion) && !IsNightly(s.pending)
    && forall e :: e in events ==> e.Launched? ==> !IsNightly(e.version)
  }

  lemma {:induction false} StableRunsStandInNowhere(release: string, s: Settings, events: seq<Event>)
    requires AllStable(s, events)
    ensures TimesStoodIn(release, s, events) == 0
    ensures !IsNightly(SeenUpTo(Run(s, events)))
    decreases events
  {
    if events != [] {
      assert forall e :: e in events[1..] ==> e in events;
      assert events[0] in events;
      EmptyIsStable();
      StableRunsStandInNowhere(release, Step(s, events[0]), events[1..]);
    }
  }

  lemma EmptyIsStable()
    ensures !IsNightly("")
  {
  }

  /** Without Nightly Builds, that is the releases between the first place and the last. */
  lemma StableRunsShowEachOnce(notes: seq<Note>, note: Note, s: Settings, events: seq<Event>)
    requires Placed(s) && Rises(s, events) && AllStable(s, events) && note in notes
    ensures TimesShown(notes, note, s, events)
         == if Between(note.version, SeenUpTo(s), SeenUpTo(Run(s, events))) then 1 else 0
  {
    EveryCrossedReleaseIsShownOnce(notes, note, s, events);
    StableRunsStandInNowhere(note.version, s, events);
  }

  // ----- The source's object

  class WhatsNewTracker {
    var settings: Settings
    var pendingVersion: string

    constructor (saved: Settings, version: string, build: int)
      ensures settings == Launch(saved, version, build) && pendingVersion == settings.pending
    {
      var s := saved;
      if s.lastVersion != version || s.lastBuild != build {
        var migratedNightlyUpgrade := s.lastBuild < 0 && s.lastVersion != "" && IsNightly(s.lastVersion)
          && IsNightly(version) && s.lastVersion != version;
        var order := CompareBaseVersions(version, s.lastVersion);
        var upgraded := if s.lastBuild >= 0 then build > s.lastBuild else order > 0 || migratedNightlyUpgrade;
        if upgraded && s.pending == "" {
          s := s.(pending := s.lastVersion);
        }
        s := s.(lastVersion := version, lastBuild := build);
      }
      settings := s;
      pendingVersion := s.pending;
    }

    method ClearPending()
      requires pendingVersion == settings.pending
      modifies this
      ensures settings == View(old(settings)) && pendingVersion == settings.pending
    {
      if pendingVersion == "" {
        return;
      }
      pendingVersion := "";
      settings := settings.(pending := "");
    }
  }
}
