/** The updater: checks of one or two legs, downloads, and restarts that wait, through
    any run of replies, clicks, timers, channel switches and failures. */
module Updates {
  import opened Wrappers
  import opened UpdateOffers
  import opened Runs

  datatype State =
    | Idle | Checking | CheckFailed | UpToDate | UpdateAvailable
    | Downloading | ReadyToRestart | RestartPending | Restarting | Error

  /** A reply, by the handler it is connected to. */
  datatype Reply = CheckReply(id: nat) | DownloadReply(id: nat)

  /** The check last begun, and on the Nightly channel what its first leg brought. */
  datatype Check = Check(
    channel: Channel, automatic: bool, primary: Option<Manifest>, primaryFailed: bool, fetchingStable: bool)

  /** The file a download is written to. */
  datatype Download = NoDownload | Writing(failed: bool)

  /** The automatic checks failed in a row, and when a check last counted as one. */
  datatype Schedule = Schedule(failures: nat, lastCheckMs: int)

  /** What the updater had the platform do: the replies it asked for, the checksum of the
      file installed last, the restarts it tried and the visits to the release page. */
  datatype Platform = Platform(issued: nat, installed: Option<string>, restarts: nat, pages: nat)

  datatype Updater = Updater(
    state: State,
    reply: Option<Reply>,
    manifest: Option<Manifest>,
    check: Check,
    download: Download,
    selectedChannel: Channel,
    restartWhenReady: bool,
    manualInstall: bool,
    schedule: Schedule,
    dismissed: Option<string>,
    platform: Platform)

  datatype RestartOutcome = Starts | FailsToStart | HasNothingToStart
  datatype Creation = Created | NotCreated(manualInstall: bool)

  /** What the platform, the settings and the session answer during one event. */
  datatype World = World(
    downloads: bool, autoInstall: bool, creation: Creation, busy: bool, restart: RestartOutcome,
    nowMs: int)

  /** How a download ended: whether all of it arrived and its last bytes were written,
      the file's checksum, and whether it installs. */
  datatype Fetched = Fetched(arrived: bool, written: bool, sha256: string, installs: bool)

  datatype Event =
    | CheckForUpdates(channel: Channel)
    | CheckTimer
    | CheckAnswered(reply: Reply, parsed: Option<Manifest>)
    | DataArrived(written: bool)
    | DownloadFinished(reply: Reply, file: Fetched)
    | UpdateNow
    | InstallAndRestart
    | Dismiss
    | SettingsChanged(channel: Channel)
    | BlockerChanged
    | RestartAbandoned

  /** The settings an updater starts from. */
  datatype Saved = Saved(channel: Channel, lastCheckMs: int, dismissed: Option<string>)

  function Start(saved: Saved): Updater {
    Updater(Idle, None, None, Check(saved.channel, false, None, false, false), NoDownload, saved.channel,
            false, false, Schedule(0, saved.lastCheckMs), saved.dismissed, Platform(0, None, 0, 0))
  }

  /** The replies `next` waits for or asked for are those of `u`, or newer ones. */
  predicate Follows(u: Updater, next: Updater) {
    u.platform.issued <= next.platform.issued && (next.reply == u.reply || next.reply.None? || next.reply.value.id >= u.platform.issued)
  }

  /** A restart is tried only with nothing in the way, and for the manifest held. */
  predicate TriesReady(u: Updater, next: Updater, w: World) {
    next.platform.restarts == u.platform.restarts || (!w.busy && Settled(next.state) && next.manifest == u.manifest)
  }

  predicate Requests(e: Event) {
    e.UpdateNow? || e.InstallAndRestart?
  }

  function SetState(u: Updater, state: State): Updater {
    u.(state := state, restartWhenReady := u.restartWhenReady && state != Error && state != CheckFailed)
  }

  predicate Settled(state: State) {
    state == ReadyToRestart || state == RestartPending || state == Restarting
  }

  function Ask(u: Updater, reply: Reply): Updater {
    u.(reply := Some(reply), platform := u.platform.(issued := u.platform.issued + 1))
  }

  function BeginCheck(u: Updater, channel: Channel, automatic: bool): (next: Updater)
    ensures Follows(u, next) && next.platform.restarts == u.platform.restarts
  {
    if u.state == Checking || u.state == Downloading || Settled(u.state) then u
    else
      var cleared := u.(manifest := None, manualInstall := false, restartWhenReady := false,
                        check := Check(channel, automatic, None, false, false));
      Ask(SetState(cleared, Checking), CheckReply(u.platform.issued))
  }

  /** The state a try at restarting leaves, seen from where it was made. */
  function AfterRestart(state: State, outcome: RestartOutcome): State {
    match outcome
    case Starts => Restarting
    case FailsToStart => ReadyToRestart
    case HasNothingToStart => state
  }

  function FinishRestart(u: Updater, w: World): (next: Updater)
    ensures Follows(u, next)
  {
    var tried := u.platform.(restarts := u.platform.restarts + 1);
    SetState(u, AfterRestart(u.state, w.restart))
    .(platform := if w.restart == HasNothingToStart then tried.(pages := tried.pages + 1) else tried)
  }

  function RestartNow(u: Updater, w: World): (next: Updater)
    ensures Follows(u, next)
    ensures TriesReady(u, next, w)
  {
    if u.state != ReadyToRestart then u
    else if w.busy then SetState(u, RestartPending)
    else FinishRestart(u, w)
  }

  function OpenPage(u: Updater): Updater {
    u.(platform := u.platform.(pages := u.platform.pages + 1))
  }

  function BeginDownload(u: Updater, w: World, opensPage: bool): (next: Updater)
    ensures Follows(u, next) && next.platform.restarts == u.platform.restarts
  {
    if w.creation.NotCreated? then
      var failed := SetState(u.(download := NoDownload, manualInstall := w.creation.manualInstall), Error);
      if opensPage && w.creation.manualInstall then OpenPage(failed) else failed
    else
      Ask(SetState(u.(download := Writing(false)), Downloading), DownloadReply(u.platform.issued))
  }

  function OnUpdateNow(u: Updater, w: World): (next: Updater)
    ensures Follows(u, next)
    ensures TriesReady(u, next, w)
  {
    if u.state == ReadyToRestart then RestartNow(u, w)
    else if u.state == Error || u.state == CheckFailed then
      if u.manualInstall then OpenPage(u) else BeginCheck(u, u.selectedChannel, false)
    else if u.state == UpdateAvailable then
      if !w.downloads then OpenPage(u) else BeginDownload(u, w, true)
    else u
  }

  function OnInstallAndRestart(u: Updater, w: World): (next: Updater)
    ensures Follows(u, next)
    ensures TriesReady(u, next, w)
  {
    var armed := u.state == UpdateAvailable || u.state == Downloading || u.state == ReadyToRestart;
    OnUpdateNow(if armed then u.(restartWhenReady := true) else u, w)
  }

  function OnDismiss(u: Updater): (next: Updater)
    ensures Follows(u, next) && next.platform.restarts == u.platform.restarts
  {
    if u.state == Error || u.state == CheckFailed then SetState(u.(manualInstall := false), Idle)
    else if u.state != UpdateAvailable || u.manifest.None? then u
    else u.(dismissed := Some(u.manifest.value.version))
  }

  /** An explicit switch to the Stable channel that would replace a Nightly Build. */
  predicate ReplacesNightly(running: Running, u: Updater) {
    u.manifest.Some? && u.manifest.value.channel == Stable && u.check.channel == Stable && running.nightly
  }

  function RecordFailure(u: Updater): Updater {
    if u.check.automatic then u.(schedule := u.schedule.(failures := u.schedule.failures + 1)) else u
  }

  function Decide(running: Running, u: Updater, candidate: Option<Manifest>, w: World): (next: Updater)
    ensures Follows(u, next) && next.platform.restarts == u.platform.restarts
  {
    var ended := u.(check := u.check.(primary := None, primaryFailed := false, fetchingStable := false));
    if !Offers(candidate, running, u.check.channel, u.check.automatic) then
      if u.check.primaryFailed then SetState(RecordFailure(ended.(manifest := None)), CheckFailed)
      else SetState(ended.(manifest := None, schedule := Schedule(0, w.nowMs)), UpToDate)
    else
      var offered := SetState(ended.(manifest := candidate, schedule := Schedule(0, w.nowMs)), UpdateAvailable);
      if w.autoInstall && w.downloads && !ReplacesNightly(running, offered) then BeginDownload(offered, w, false)
      else offered
  }

  /** What a leg of a check read, marked with the channel it was read for. */
  function Found(parsed: Option<Manifest>, leg: Channel): Option<Manifest> {
    if parsed.Some? then Some(parsed.value.(channel := leg)) else None
  }

  function OnCheckAnswered(running: Running, u: Updater, reply: Reply, parsed: Option<Manifest>, w: World): (next: Updater)
    ensures Follows(u, next) && next.platform.restarts == u.platform.restarts
  {
    if u.reply != Some(reply) then u
    else
      var read := u.(reply := None);
      var leg := if u.check.fetchingStable then Stable else u.check.channel;
      var found := Found(parsed, leg);
      if u.check.fetchingStable then Decide(running, read, BestCandidate(u.check.primary, found), w)
      else if u.check.channel == Nightly then
        Ask(read.(check := u.check.(primary := found, primaryFailed := found.None?, fetchingStable := true)),
            CheckReply(u.platform.issued))
      else if found.None? then SetState(RecordFailure(read), CheckFailed)
      else Decide(running, read, found, w)
  }

  function OnDataArrived(u: Updater, written: bool): (next: Updater)
    ensures Follows(u, next) && next.platform.restarts == u.platform.restarts
  {
    if u.reply.None? || u.download.NoDownload? || written then u else u.(download := Writing(true))
  }

  function Close(u: Updater): Updater {
    u.(reply := None, download := NoDownload)
  }

  function OnDownloadFinished(u: Updater, reply: Reply, file: Fetched, w: World): (next: Updater)
    ensures Follows(u, next)
    ensures TriesReady(u, next, w)
    ensures next.platform.restarts != u.platform.restarts ==> u.restartWhenReady
  {
    if u.reply != Some(reply) then u
    else
      var read := Close(u);
      if OnDataArrived(u, file.written).download == Writing(true) || !file.arrived then SetState(read, Error)
      else if u.manifest.None? || file.sha256 != u.manifest.value.sha256 || !file.installs then SetState(read, Error)
      else
        var ready := SetState(read.(platform := u.platform.(installed := Some(file.sha256))), ReadyToRestart);
        if ready.restartWhenReady then RestartNow(ready.(restartWhenReady := false), w) else ready
  }

  function OnSettingsChanged(u: Updater, channel: Channel): (next: Updater)
    ensures Follows(u, next) && next.platform.restarts == u.platform.restarts
  {
    if channel == u.selectedChannel then u
    else if Settled(u.state) then u.(selectedChannel := channel)
    else
      SetState(u.(selectedChannel := channel, reply := None, download := NoDownload, manifest := None,
                  check := u.check.(primary := None, primaryFailed := false, fetchingStable := false),
                  manualInstall := false, restartWhenReady := false), Idle)
  }

  function Step(running: Running, u: Updater, e: Event, w: World): (next: Updater)
    ensures Follows(u, next)
    ensures TriesReady(u, next, w)
    ensures next.platform.restarts != u.platform.restarts ==> Requests(e) || u.restartWhenReady || u.state == RestartPending
  {
    match e
    case CheckForUpdates(channel) => BeginCheck(u, channel, false)
    case CheckTimer => BeginCheck(u, u.selectedChannel, true)
    case CheckAnswered(reply, parsed) => if reply.CheckReply? then OnCheckAnswered(running, u, reply, parsed, w) else u
    case DataArrived(written) => OnDataArrived(u, written)
    case DownloadFinished(reply, file) => if reply.DownloadReply? then OnDownloadFinished(u, reply, file, w) else u
    case UpdateNow => OnUpdateNow(u, w)
    case InstallAndRestart => OnInstallAndRestart(u, w)
    case Dismiss => OnDismiss(u)
    case SettingsChanged(channel) => OnSettingsChanged(u, channel)
    case BlockerChanged => if u.state == RestartPending && !w.busy then FinishRestart(u, w) else u
    case RestartAbandoned => if u.state == Restarting then SetState(u, ReadyToRestart) else u
  }

  // ----- History

  /** A run so far: the updater, whether anyone asked for the update since the manifest
      held was offered, and whether the last check read its own channel's feed. */
  datatype Past = Past(updater: Updater, asked: bool, ownFeedRead: bool)

  predicate IsOffer(before: Updater, after: Updater) {
    before.manifest.None? && after.manifest.Some?
  }

  /** The reply that decides whether the channel's own feed was read. */
  predicate AnswersOwnFeed(u: Updater, e: Event) {
    e.CheckAnswered? && Some(e.reply) == u.reply && u.state == Checking && !u.check.fetchingStable
  }

  /** A check that begins has read nothing yet. */
  predicate StillRead(p: Past, next: Updater) {
    p.ownFeedRead && !(next.state == Checking && p.updater.state != Checking)
  }

  function Live(running: Running, p: Past, e: Event, w: World): Past {
    var next := Step(running, p.updater, e, w);
    Past(next,
         !IsOffer(p.updater, next) && (p.asked || e.UpdateNow? || e.InstallAndRestart?),
         if AnswersOwnFeed(p.updater, e) then e.parsed.Some?
         else StillRead(p, next))
  }

  predicate HoldsManifest(state: State) {
    state == UpdateAvailable || state == Downloading || Settled(state)
  }

  predicate RepliesAgree(u: Updater) {
    && (u.reply.Some? <==> u.state == Checking || u.state == Downloading)
    && (u.state == Checking ==> u.reply.value.CheckReply?)
    && (u.state == Downloading ==> u.reply.value.DownloadReply?)
    && (u.reply.Some? ==> u.reply.value.id < u.platform.issued)
    && (u.download.Writing? <==> u.state == Downloading)
  }

  predicate ManifestsAgree(running: Running, u: Updater) {
    && (HoldsManifest(u.state) ==> u.manifest.Some?)
    && (u.state == Checking ==> u.manifest.None?)
    && (u.manifest.Some? ==> ShouldOffer(u.manifest.value, running, u.check.channel, u.check.automatic))
    && (u.check.primaryFailed || u.check.primary.Some? ==> u.check.fetchingStable)
    && (u.check.fetchingStable ==>
          u.state == Checking && u.check.channel == Nightly && (u.check.primaryFailed <==> u.check.primary.None?))
    && (u.check.primary.Some? ==> u.check.primary.value.channel == Nightly)
  }

  /** A restart is armed or waiting only for a manifest someone asked for, and one may
      be reached only into the file that manifest names. */
  predicate RestartsAreAskedFor(p: Past) {
    var u := p.updater;
    && (u.restartWhenReady ==> HoldsManifest(u.state) && p.asked)
    && (u.state == RestartPending || u.state == Restarting ==> p.asked)
    && (Settled(u.state) && u.manifest.Some? ==> u.platform.installed == Some(u.manifest.value.sha256))
  }

  predicate ReportsAgree(running: Running, p: Past) {
    var u := p.updater;
    && (u.state == UpToDate ==> p.ownFeedRead)
    && (u.check.fetchingStable ==> (p.ownFeedRead <==> !u.check.primaryFailed))
    && (ReplacesNightly(running, u) && (u.state == Downloading || Settled(u.state)) ==> p.asked)
  }

  predicate Valid(running: Running, p: Past) {
    && RepliesAgree(p.updater)
    && ManifestsAgree(running, p.updater)
    && RestartsAreAskedFor(p)
    && ReportsAgree(running, p)
  }

  lemma RestartNowKeepsValid(running: Running, p: Past, w: World)
    requires Valid(running, p) && p.asked && p.updater.state == ReadyToRestart
    ensures Valid(running, p.(updater := RestartNow(p.updater, w)))
  {
  }

  lemma BeginDownloadKeepsValid(running: Running, p: Past, w: World, opensPage: bool)
    requires Valid(running, p) && p.updater.state == UpdateAvailable
    requires ReplacesNightly(running, p.updater) ==> p.asked
    ensures Valid(running, p.(updater := BeginDownload(p.updater, w, opensPage)))
  {
    var next := BeginDownload(p.updater, w, opensPage);
    if w.creation.NotCreated? {
      assert next.state == Error;
    } else {
      assert next.state == Downloading;
    }
    assert ManifestsAgree(running, next);
    assert ReportsAgree(running, p.(updater := next));
  }

  lemma BeginCheckKeepsValid(running: Running, p: Past, channel: Channel, automatic: bool)
    requires Valid(running, p)
    ensures var next := BeginCheck(p.updater, channel, automatic);
            !IsOffer(p.updater, next) && Valid(running, p.(updater := next, ownFeedRead := StillRead(p, next)))
  {
  }

  /** Asked for, an update is downloaded, restarted into or pointed out; nothing else moves. */
  lemma UpdateNowKeepsValid(running: Running, p: Past, w: World)
    requires Valid(running, p) && p.asked
    ensures var next := OnUpdateNow(p.updater, w);
            !IsOffer(p.updater, next) && Valid(running, p.(updater := next, ownFeedRead := StillRead(p, next)))
  {
    var u := p.updater;
    if u.state == ReadyToRestart {
      RestartNowKeepsValid(running, p, w);
    } else if u.state == UpdateAvailable && w.downloads {
      BeginDownloadKeepsValid(running, p, w, true);
    } else if (u.state == Error || u.state == CheckFailed) && !u.manualInstall {
      BeginCheckKeepsValid(running, p, u.selectedChannel, false);
    } else {
      PagesKeepValid(running, p);
    }
  }

  lemma PagesKeepValid(running: Running, p: Past)
    requires Valid(running, p)
    ensures Valid(running, p.(updater := OpenPage(p.updater)))
  {
  }

  lemma ArmKeepsValid(running: Running, p: Past)
    requires Valid(running, p) && p.asked && HoldsManifest(p.updater.state)
    ensures Valid(running, p.(updater := p.updater.(restartWhenReady := true)))
  {
  }

  lemma AskKeepsValid(running: Running, p: Past)
    requires Valid(running, p)
    ensures Valid(running, p.(asked := true))
  {
  }

  lemma RequestKeepsValid(running: Running, p: Past, e: Event, w: World)
    requires Valid(running, p) && (e.UpdateNow? || e.InstallAndRestart?)
    ensures Valid(running, Live(running, p, e, w))
  {
    var u := p.updater;
    var asked := p.(asked := true);
    AskKeepsValid(running, p);
    if e.InstallAndRestart? && (u.state == UpdateAvailable || u.state == Downloading || u.state == ReadyToRestart) {
      var armed := u.(restartWhenReady := true);
      ArmKeepsValid(running, asked);
      UpdateNowKeepsValid(running, asked.(updater := armed), w);
      assert Step(running, u, e, w) == OnUpdateNow(armed, w);
    } else {
      UpdateNowKeepsValid(running, asked, w);
      assert Step(running, u, e, w) == OnUpdateNow(u, w);
    }
  }

  /** A verdict, given what it is based on: the candidate was offered for a reason, and
      the channel's own feed was read unless its failure is still remembered. */
  lemma DecideKeepsValid(running: Running, p: Past, candidate: Option<Manifest>, own: bool, w: World)
    requires var u := p.updater;
             && u.state == Checking && u.manifest.None? && u.reply.None? && !u.restartWhenReady && u.download.NoDownload?
             && (own <==> !u.check.primaryFailed)
    ensures var next := Decide(running, p.updater, candidate, w);
            Valid(running, Past(next, p.asked && next.manifest.None?, own))
  {
    var u := p.updater;
    var ended := u.(check := u.check.(primary := None, primaryFailed := false, fetchingStable := false));
    if Offers(candidate, running, u.check.channel, u.check.automatic) {
      var offered := SetState(ended.(manifest := candidate, schedule := Schedule(0, w.nowMs)), UpdateAvailable);
      assert Valid(running, Past(offered, false, own));
      if w.autoInstall && w.downloads && !ReplacesNightly(running, offered) {
        BeginDownloadKeepsValid(running, Past(offered, false, own), w, false);
      }
    }
  }

  lemma VerdictKeepsValid(running: Running, p: Past, e: Event, w: World)
    requires Valid(running, p) && e.CheckAnswered? && e.reply.CheckReply? && Some(e.reply) == p.updater.reply
    requires p.updater.check.fetchingStable || (p.updater.check.channel == Stable && e.parsed.Some?)
    ensures Valid(running, Live(running, p, e, w))
  {
    var u := p.updater;
    var read := u.(reply := None);
    var found := if e.parsed.Some? then Some(e.parsed.value.(channel := Stable)) else None;
    var candidate := if u.check.fetchingStable then BestCandidate(u.check.primary, found) else found;
    var own := if u.check.fetchingStable then p.ownFeedRead else true;
    DecideKeepsValid(running, p.(updater := read), candidate, own, w);
    assert Step(running, u, e, w) == Decide(running, read, candidate, w);
  }

  lemma DownloadKeepsValid(running: Running, p: Past, e: Event, w: World)
    requires Valid(running, p) && e.DownloadFinished?
    ensures Valid(running, Live(running, p, e, w))
  {
  }

  lemma CheckKeepsValid(running: Running, p: Past, e: Event, w: World)
    requires Valid(running, p) && (e.CheckForUpdates? || e.CheckTimer?)
    ensures Valid(running, Live(running, p, e, w))
  {
    var channel := if e.CheckForUpdates? then e.channel else p.updater.selectedChannel;
    BeginCheckKeepsValid(running, p, channel, e.CheckTimer?);
  }

  lemma StepKeepsValid(running: Running, p: Past, e: Event, w: World)
    requires Valid(running, p)
    ensures Valid(running, Live(running, p, e, w))
  {
    match e
    case UpdateNow => RequestKeepsValid(running, p, e, w);
    case InstallAndRestart => RequestKeepsValid(running, p, e, w);
    case CheckForUpdates(_) => CheckKeepsValid(running, p, e, w);
    case CheckTimer => CheckKeepsValid(running, p, e, w);
    case DownloadFinished(_, _) => DownloadKeepsValid(running, p, e, w);
    case CheckAnswered(reply, parsed) =>
      if reply.CheckReply? && Some(reply) == p.updater.reply {
        if p.updater.check.fetchingStable || (p.updater.check.channel == Stable && parsed.Some?) {
          VerdictKeepsValid(running, p, e, w);
        }
      }
    case SettingsChanged(channel) => SwitchKeepsValid(running, p, channel);
    case DataArrived(written) =>
    case Dismiss => DismissKeepsValid(running, p);
    case BlockerChanged =>
    case RestartAbandoned =>
  }

  lemma SwitchKeepsValid(running: Running, p: Past, channel: Channel)
    requires Valid(running, p)
    ensures var next := OnSettingsChanged(p.updater, channel);
            !IsOffer(p.updater, next) && Valid(running, p.(updater := next))
  {
  }

  lemma DismissKeepsValid(running: Running, p: Past)
    requires Valid(running, p)
    ensures Valid(running, p.(updater := OnDismiss(p.updater)))
  {
  }

  // ----- Whole runs

  datatype Moment = Moment(event: Event, world: World)

  function Mover(running: Running): (Past, Moment) -> Past {
    (p: Past, m: Moment) => Live(running, p, m.event, m.world)
  }

  /** The past after the first `n` moments. */
  function After(running: Running, saved: Saved, moments: seq<Moment>, n: nat): Past
    requires n <= |moments|
  {
    Run(Mover(running), Past(Start(saved), false, false), moments, n)
  }

  lemma RunKeepsValid(running: Running, saved: Saved, moments: seq<Moment>, n: nat)
    requires n <= |moments|
    ensures Valid(running, After(running, saved, moments, n))
  {
    var step := Mover(running);
    var kept := (p: Past) => Valid(running, p);
    forall p, m | kept(p) ensures kept(step(p, m)) {
      StepKeepsValid(running, p, m.event, m.world);
    }
    RunKeeps(step, Past(Start(saved), false, false), moments, 0, n, kept);
  }

  predicate AskedFrom(before: Past, after: Past, e: Event) {
    after.asked ==> !IsOffer(before.updater, after.updater) && (Requests(e) || before.asked)
  }

  lemma LiveAsks(running: Running, p: Past, e: Event, w: World)
    ensures AskedFrom(p, Live(running, p, e, w), e)
  {
  }

  function Trace(running: Running, saved: Saved, moments: seq<Moment>): (trace: seq<Past>)
    ensures |trace| == |moments| + 1
    ensures forall k :: 0 <= k <= |moments| ==> trace[k] == After(running, saved, moments, k)
  {
    seq(|moments| + 1, k requires 0 <= k <= |moments| => After(running, saved, moments, k))
  }

  /** Moment `i` asks for the update that is still on offer at the `n`th. */
  predicate AsksFor(trace: seq<Past>, moments: seq<Moment>, n: nat, i: nat)
    requires n <= |moments| < |trace|
  {
    i < n && Requests(moments[i].event)
    && forall j :: i <= j < n ==> !IsOffer(trace[j].updater, trace[j + 1].updater)
  }

  /** Someone asked for the update since the manifest was offered. */
  ghost predicate WasAskedFor(trace: seq<Past>, moments: seq<Moment>, n: nat)
    requires n <= |moments| < |trace|
  {
    exists i: nat :: AsksFor(trace, moments, n, i)
  }

  lemma {:induction false} AskedMeansRequested(trace: seq<Past>, moments: seq<Moment>, n: nat) returns (i: nat)
    requires n <= |moments| < |trace| && trace[n].asked && !trace[0].asked
    requires forall k :: 0 <= k < n ==> AskedFrom(trace[k], trace[k + 1], moments[k].event)
    ensures AsksFor(trace, moments, n, i)
  {
    assert AskedFrom(trace[n - 1], trace[n], moments[n - 1].event);
    if Requests(moments[n - 1].event) {
      return n - 1;
    }
    i := AskedMeansRequested(trace, moments, n - 1);
  }

  lemma SomeoneAsked(running: Running, saved: Saved, moments: seq<Moment>, n: nat)
    requires n <= |moments| && After(running, saved, moments, n).asked
    ensures WasAskedFor(Trace(running, saved, moments), moments, n)
  {
    var trace := Trace(running, saved, moments);
    forall k | 0 <= k < n ensures AskedFrom(trace[k], trace[k + 1], moments[k].event) {
      LiveAsks(running, After(running, saved, moments, k), moments[k].event, moments[k].world);
    }
    var i := AskedMeansRequested(trace, moments, n);
  }

  predicate InstalledAsNamed(u: Updater) {
    u.manifest.Some? && u.platform.installed == Some(u.manifest.value.sha256)
  }

  lemma RestartIsReady(running: Running, p: Past, e: Event, w: World)
    requires Valid(running, p) && Step(running, p.updater, e, w).platform.restarts != p.updater.platform.restarts
    ensures !w.busy && InstalledAsNamed(Step(running, p.updater, e, w)) && Live(running, p, e, w).asked
  {
    assert TriesReady(p.updater, Step(running, p.updater, e, w), w);
    StepKeepsValid(running, p, e, w);
  }

  /** Whatever interleaved before it, a restart is tried only while nothing stands in
      its way, into an installed file whose checksum is the one the manifest held
      gives, and for someone who asked since that manifest was offered. */
  lemma NoSurpriseRestart(running: Running, saved: Saved, moments: seq<Moment>, n: nat)
    requires n < |moments|
    requires After(running, saved, moments, n + 1).updater.platform.restarts
             != After(running, saved, moments, n).updater.platform.restarts
    ensures !moments[n].world.busy
    ensures InstalledAsNamed(After(running, saved, moments, n + 1).updater)
    ensures WasAskedFor(Trace(running, saved, moments), moments, n + 1)
  {
    RunKeepsValid(running, saved, moments, n);
    RestartIsReady(running, After(running, saved, moments, n), moments[n].event, moments[n].world);
    SomeoneAsked(running, saved, moments, n + 1);
  }

  /** What every state reached says of itself. */
  lemma ReachedStatesAreHonest(running: Running, saved: Saved, moments: seq<Moment>, n: nat)
    requires n <= |moments|
    ensures var p := After(running, saved, moments, n);
            var u := p.updater;
            && (u.reply.Some? <==> u.state == Checking || u.state == Downloading)
            && (u.state == UpToDate ==> p.ownFeedRead)
            && (u.check.automatic && u.manifest.Some? ==> u.manifest.value.build > running.build)
            && (u.state == Downloading && ReplacesNightly(running, u) ==>
                  WasAskedFor(Trace(running, saved, moments), moments, n))
  {
    RunKeepsValid(running, saved, moments, n);
    var p := After(running, saved, moments, n);
    if p.updater.state == Downloading && ReplacesNightly(running, p.updater) {
      SomeoneAsked(running, saved, moments, n);
    }
  }

  predicate Stale(u: Updater, reply: Reply) {
    reply.id < u.platform.issued && u.reply != Some(reply)
  }

  lemma StepKeepsStale(running: Running, u: Updater, e: Event, w: World, reply: Reply)
    requires Stale(u, reply)
    ensures Stale(Step(running, u, e, w), reply)
  {
  }

  lemma StaleReplyChangesNothing(running: Running, u: Updater, e: Event, w: World)
    requires e.CheckAnswered? || e.DownloadFinished?
    requires Stale(u, e.reply)
    ensures Step(running, u, e, w) == u
  {
  }

  /** A reply answered or abandoned once is stale for good. */
  lemma StaleRepliesStayStale(
    running: Running, saved: Saved, moments: seq<Moment>, m: nat, n: nat, reply: Reply)
    requires m <= n <= |moments|
    requires Stale(After(running, saved, moments, m).updater, reply)
    ensures Stale(After(running, saved, moments, n).updater, reply)
  {
    var step := Mover(running);
    var kept := (p: Past) => Stale(p.updater, reply);
    forall p, m | kept(p) ensures kept(step(p, m)) {
      StepKeepsStale(running, p.updater, m.event, m.world, reply);
    }
    RunKeeps(step, Past(Start(saved), false, false), moments, m, n, kept);
  }

  lemma AnsweredRepliesAreStale(running: Running, p: Past, e: Event, w: World)
    requires e.CheckAnswered? || e.DownloadFinished?
    requires Valid(running, p) && p.updater.reply == Some(e.reply)
    requires if e.reply.CheckReply? then e.CheckAnswered? else e.DownloadFinished?
    ensures Stale(Step(running, p.updater, e, w), e.reply)
  {
  }

  predicate AtLeast(offer: Option<Manifest>, read: Option<Manifest>) {
    read.Some? ==> offer.Some? && offer.value.build >= read.value.build
  }

  /** A verdict holds exactly the candidate it offers, and nothing otherwise. */
  lemma VerdictIsTheCandidates(running: Running, u: Updater, candidate: Option<Manifest>, w: World)
    ensures var last := Decide(running, u, candidate, w);
            if Offers(candidate, running, u.check.channel, u.check.automatic) then
              last.manifest == candidate && last.state in {UpdateAvailable, Downloading, Error}
            else
              last.manifest.None? && last.state == if u.check.primaryFailed then CheckFailed else UpToDate
  {
  }

  /** A check counts as one, and resets the backoff, exactly when its verdict is not a
      failure; a failure is counted when the check was automatic. */
  lemma VerdictCountsAsCheck(running: Running, u: Updater, candidate: Option<Manifest>, w: World)
    ensures var last := Decide(running, u, candidate, w);
            last.schedule ==
              if last.state != CheckFailed then Schedule(0, w.nowMs)
              else if u.check.automatic then u.schedule.(failures := u.schedule.failures + 1)
              else u.schedule
  {
  }

  /** The verdict of a Nightly check, both legs read: an offer when either leg has one,
      of a build no older than any that was read; otherwise up to date exactly when the
      Nightly feed itself was read. */
  lemma NightlyVerdict(
    running: Running, u: Updater, reply: Reply, nightly: Option<Manifest>, stable: Option<Manifest>, w: World)
    requires u.reply == Some(reply) && u.check.channel == Nightly && !u.check.fetchingStable
    ensures var first := OnCheckAnswered(running, u, reply, nightly, w);
            var last := OnCheckAnswered(running, first, CheckReply(u.platform.issued), stable, w);
            var offered := Offers(Found(nightly, Nightly), running, Nightly, u.check.automatic)
                           || Offers(Found(stable, Stable), running, Nightly, u.check.automatic);
            && first.state == u.state && first.reply == Some(CheckReply(u.platform.issued))
            && (offered ==>
                  && last.state in {UpdateAvailable, Downloading, Error}
                  && (last.manifest == Found(nightly, Nightly) || last.manifest == Found(stable, Stable))
                  && AtLeast(last.manifest, nightly) && AtLeast(last.manifest, stable))
            && (!offered ==>
                  last.manifest.None? && last.state == if nightly.None? then CheckFailed else UpToDate)
  {
    var first := OnCheckAnswered(running, u, reply, nightly, w);
  }

  // ----- The updater itself

  class ManifestUpdater {
    var state: State
    var reply: Option<Reply>
    var manifest: Option<Manifest>
    var check: Check
    var download: Download
    var selectedChannel: Channel
    var restartWhenReady: bool
    var manualInstallRequired: bool
    var schedule: Schedule
    var dismissedVersion: Option<string>
    var platform: Platform

    ghost function View(): Updater
      reads this
    {
      Updater(state, reply, manifest, check, download, selectedChannel, restartWhenReady,
              manualInstallRequired, schedule, dismissedVersion, platform)
    }

    constructor (saved: Saved)
      ensures View() == Start(saved)
    {
      state, reply, manifest := Idle, None, None;
      check := Check(saved.channel, false, None, false, false);
      download, selectedChannel, restartWhenReady := NoDownload, saved.channel, false;
      manualInstallRequired, schedule, dismissedVersion := false, Schedule(0, saved.lastCheckMs), saved.dismissed;
      platform := Platform(0, None, 0, 0);
    }

    method ChangeState(next: State)
      modifies this`state, this`restartWhenReady
      ensures View() == SetState(old(View()), next)
    {
      if next == Error || next == CheckFailed {
        restartWhenReady := false;
      }
      state := next;
    }

    method Request(next: Reply)
      modifies this`reply, this`platform
      ensures View() == Ask(old(View()), next)
    {
      reply := Some(next);
      platform := platform.(issued := platform.issued + 1);
    }

    method StartCheck(channel: Channel, automatic: bool)
      modifies this
      ensures View() == BeginCheck(old(View()), channel, automatic)
    {
      if state in {Checking, Downloading, ReadyToRestart, RestartPending, Restarting} {
        return;
      }
      manifest := None;
      manualInstallRequired := false;
      restartWhenReady := false;
      check := Check(channel, automatic, None, false, false);
      ChangeState(Checking);
      Request(CheckReply(platform.issued));
    }

    method RestartApplication(w: World)
      requires Settled(state)
      modifies this
      ensures View() == FinishRestart(old(View()), w)
    {
      platform := platform.(restarts := platform.restarts + 1);
      match w.restart {
        case Starts => ChangeState(Restarting);
        case FailsToStart => ChangeState(ReadyToRestart);
        case HasNothingToStart => OpenReleasePage();
      }
    }

    method Restart(w: World)
      modifies this
      ensures View() == RestartNow(old(View()), w)
    {
      if state != ReadyToRestart {
        return;
      }
      if w.busy {
        ChangeState(RestartPending);
        return;
      }
      RestartApplication(w);
    }

    method ResumePendingRestart(running: Running, w: World)
      modifies this
      ensures View() == Step(running, old(View()), BlockerChanged, w)
    {
      if state == RestartPending && !w.busy {
        RestartApplication(w);
      }
    }

    method OpenReleasePage()
      modifies this`platform
      ensures View() == OpenPage(old(View()))
    {
      platform := platform.(pages := platform.pages + 1);
    }

    method StartDownload(w: World, opensPage: bool)
      modifies this
      ensures View() == BeginDownload(old(View()), w, opensPage)
    {
      if w.creation.NotCreated? {
        download := NoDownload;
        manualInstallRequired := w.creation.manualInstall;
        ChangeState(Error);
        if opensPage && manualInstallRequired {
          OpenReleasePage();
        }
        return;
      }
      download := Writing(false);
      ChangeState(Downloading);
      Request(DownloadReply(platform.issued));
    }

    method Update(w: World)
      modifies this
      ensures View() == OnUpdateNow(old(View()), w)
    {
      if state == ReadyToRestart {
        Restart(w);
        return;
      }
      if state == Error || state == CheckFailed {
        if manualInstallRequired {
          OpenReleasePage();
          return;
        }
        StartCheck(selectedChannel, false);
        return;
      }
      if state != UpdateAvailable {
        return;
      }
      if !w.downloads {
        OpenReleasePage();
        return;
      }
      StartDownload(w, true);
    }

    method UpdateAndRestart(w: World)
      modifies this
      ensures View() == OnInstallAndRestart(old(View()), w)
    {
      if state == UpdateAvailable || state == Downloading || state == ReadyToRestart {
        restartWhenReady := true;
      }
      Update(w);
    }

    method DismissAvailableVersion()
      modifies this
      ensures View() == OnDismiss(old(View()))
    {
      if state == Error || state == CheckFailed {
        manualInstallRequired := false;
        ChangeState(Idle);
        return;
      }
      if state != UpdateAvailable || manifest.None? {
        return;
      }
      dismissedVersion := Some(manifest.value.version);
    }

    method CountAutomaticFailure()
      modifies this`schedule
      ensures View() == RecordFailure(old(View()))
    {
      if check.automatic {
        schedule := schedule.(failures := schedule.failures + 1);
      }
    }

    method DecideCheck(running: Running, candidate: Option<Manifest>, w: World)
      modifies this
      ensures View() == Decide(running, old(View()), candidate, w)
    {
      var ownFailed := check.primaryFailed;
      check := check.(primary := None, primaryFailed := false, fetchingStable := false);
      if candidate.None? || !ShouldOffer(candidate.value, running, check.channel, check.automatic) {
        manifest := None;
        if ownFailed {
          CountAutomaticFailure();
          ChangeState(CheckFailed);
          return;
        }
        schedule := Schedule(0, w.nowMs);
        ChangeState(UpToDate);
        return;
      }
      schedule := Schedule(0, w.nowMs);
      manifest := candidate;
      ChangeState(UpdateAvailable);
      if w.autoInstall && w.downloads && !ReplacesNightlyBuild(running) {
        StartDownload(w, false);
      }
    }

    predicate ReplacesNightlyBuild(running: Running)
      reads this
    {
      manifest.Some? && manifest.value.channel == Stable && check.channel == Stable && running.nightly
    }

    method FinishCheck(running: Running, finished: Reply, answer: Option<Manifest>, w: World)
      modifies this
      ensures View() == OnCheckAnswered(running, old(View()), finished, answer, w)
    {
      if reply != Some(finished) {
        return;
      }
      reply := None;
      var parsed := answer;
      if parsed.Some? {
        parsed := Some(parsed.value.(channel := if check.fetchingStable then Stable else check.channel));
      }
      if check.fetchingStable {
        DecideCheck(running, BestCandidate(check.primary, parsed), w);
        return;
      }
      if check.channel == Nightly {
        check := check.(primary := parsed, primaryFailed := parsed.None?, fetchingStable := true);
        Request(CheckReply(platform.issued));
        return;
      }
      if parsed.None? {
        CountAutomaticFailure();
        ChangeState(CheckFailed);
        return;
      }
      DecideCheck(running, parsed, w);
    }

    method WriteDownloadedData(written: bool)
      modifies this`download
      ensures View() == OnDataArrived(old(View()), written)
    {
      if reply.None? || download.NoDownload? || download.failed {
        return;
      }
      if !written {
        download := Writing(true);
      }
    }

    method FinishDownload(finished: Reply, file: Fetched, w: World)
      modifies this
      ensures View() == OnDownloadFinished(old(View()), finished, file, w)
    {
      if reply != Some(finished) {
        return;
      }
      WriteDownloadedData(file.written);
      var writeFailed := download == Writing(true);
      reply := None;
      download := NoDownload;
      if writeFailed || !file.arrived {
        ChangeState(Error);
        return;
      }
      if manifest.None? || file.sha256 != manifest.value.sha256 || !file.installs {
        ChangeState(Error);
        return;
      }
      platform := platform.(installed := Some(file.sha256));
      ChangeState(ReadyToRestart);
      if restartWhenReady {
        restartWhenReady := false;
        Restart(w);
      }
    }

    method UpdateSettingsChanged(channel: Channel)
      modifies this
      ensures View() == OnSettingsChanged(old(View()), channel)
    {
      if channel == selectedChannel {
        return;
      }
      selectedChannel := channel;
      if state == ReadyToRestart || state == RestartPending || state == Restarting {
        return;
      }
      reply := None;
      download := NoDownload;
      manifest := None;
      check := check.(primary := None, primaryFailed := false, fetchingStable := false);
      manualInstallRequired := false;
      restartWhenReady := false;
      ChangeState(Idle);
    }
  }
}

/** What the updater does when it is let: each check, click and download told by its
    events, and over whole runs which checks may offer what. */
module UpdateFlows {
  import opened Wrappers
  import opened UpdateOffers
  import opened Updates
  import opened Runs

  // ----- Which event began the check

  predicate Begins(before: Updater, after: Updater) {
    before.state != Checking && after.state == Checking
  }

  /** The flag of a check is that of the event that began it. */
  predicate FlagsCheck(before: Updater, e: Event, after: Updater) {
    after.check.automatic == if Begins(before, after) then e.CheckTimer? else before.check.automatic
  }

  lemma StepFlagsCheck(running: Running, u: Updater, e: Event, w: World)
    ensures FlagsCheck(u, e, Step(running, u, e, w))
  {
    match e
    case CheckForUpdates(_) =>
    case CheckTimer =>
    case UpdateNow => UpdateFlagsCheck(u, w);
    case InstallAndRestart => InstallFlagsCheck(u, w);
    case CheckAnswered(reply, parsed) => AnswerFlagsCheck(running, u, reply, parsed, w);
    case DownloadFinished(reply, file) => DownloadFlagsCheck(u, reply, file, w);
    case _ =>
  }

  lemma UpdateFlagsCheck(u: Updater, w: World)
    ensures FlagsCheck(u, UpdateNow, OnUpdateNow(u, w))
  {
  }

  lemma InstallFlagsCheck(u: Updater, w: World)
    ensures FlagsCheck(u, InstallAndRestart, OnInstallAndRestart(u, w))
  {
    UpdateFlagsCheck(u, w);
    UpdateFlagsCheck(u.(restartWhenReady := true), w);
  }

  lemma AnswerFlagsCheck(running: Running, u: Updater, reply: Reply, parsed: Option<Manifest>, w: World)
    ensures FlagsCheck(u, CheckAnswered(reply, parsed), OnCheckAnswered(running, u, reply, parsed, w))
  {
    var read := u.(reply := None);
    VerdictFlagsCheck(running, read, BestCandidate(u.check.primary, Found(parsed, Stable)), w);
    VerdictFlagsCheck(running, read, Found(parsed, u.check.channel), w);
  }

  lemma VerdictFlagsCheck(running: Running, u: Updater, candidate: Option<Manifest>, w: World)
    ensures Decide(running, u, candidate, w).check.automatic == u.check.automatic
    ensures Decide(running, u, candidate, w).state != Checking
  {
  }

  lemma DownloadFlagsCheck(u: Updater, reply: Reply, file: Fetched, w: World)
    ensures FlagsCheck(u, DownloadFinished(reply, file), OnDownloadFinished(u, reply, file, w))
  {
  }

  /** Moment `k` began the check that was the last to begin before the `n`th. */
  predicate BeganLast(trace: seq<Past>, k: nat, n: nat)
    requires n < |trace|
  {
    && k < n && Begins(trace[k].updater, trace[k + 1].updater)
    && forall j :: k < j < n ==> !Begins(trace[j].updater, trace[j + 1].updater)
  }

  lemma {:induction false} FlagOfLastCheck(trace: seq<Past>, moments: seq<Moment>, k: nat, n: nat)
    requires n <= |moments| < |trace| && BeganLast(trace, k, n)
    requires forall j :: 0 <= j < n ==> FlagsCheck(trace[j].updater, moments[j].event, trace[j + 1].updater)
    ensures trace[n].updater.check.automatic <==> moments[k].event.CheckTimer?
    decreases n
  {
    assert FlagsCheck(trace[n - 1].updater, moments[n - 1].event, trace[n].updater);
    if k + 1 < n {
      FlagOfLastCheck(trace, moments, k, n - 1);
    }
  }

  lemma TraceFlags(running: Running, saved: Saved, moments: seq<Moment>, k: nat, n: nat)
    requires n <= |moments| && BeganLast(Trace(running, saved, moments), k, n)
    ensures After(running, saved, moments, n).updater.check.automatic <==> moments[k].event.CheckTimer?
  {
    var trace := Trace(running, saved, moments);
    forall j | 0 <= j < n ensures FlagsCheck(trace[j].updater, moments[j].event, trace[j + 1].updater) {
      StepFlagsCheck(running, After(running, saved, moments, j).updater, moments[j].event, moments[j].world);
    }
    FlagOfLastCheck(trace, moments, k, n);
  }

  /** In every run, what is held after a check the timer began is strictly newer than what
      runs; what a person's check brought need not be, but only to cross to a Stable Release. */
  lemma TimerOffersOnlyNewer(running: Running, saved: Saved, moments: seq<Moment>, k: nat, n: nat)
    requires n <= |moments| && BeganLast(Trace(running, saved, moments), k, n)
    requires After(running, saved, moments, n).updater.manifest.Some?
    ensures var manifest := After(running, saved, moments, n).updater.manifest.value;
            && (moments[k].event.CheckTimer? ==> manifest.build > running.build)
            && (manifest.build <= running.build ==> manifest.channel == Stable && running.nightly)
  {
    TraceFlags(running, saved, moments, k, n);
    RunKeepsValid(running, saved, moments, n);
  }

  // ----- Checks, event by event

  predicate CanCheck(u: Updater) {
    u.state in {Idle, CheckFailed, UpToDate, UpdateAvailable, Error}
  }

  /** The channel an event checks, when it asks for a check outright. */
  function Asked(u: Updater, e: Event): Channel
    requires e.CheckForUpdates? || e.CheckTimer?
  {
    if e.CheckForUpdates? then e.channel else u.selectedChannel
  }

  /** A check begins wherever nothing is under way or installed, from a clean slate, and
      nowhere else. */
  lemma ChecksBegin(running: Running, u: Updater, e: Event, w: World)
    requires e.CheckForUpdates? || e.CheckTimer?
    ensures var next := Step(running, u, e, w);
            && (CanCheck(u) ==>
                  && next.state == Checking && next.reply == Some(CheckReply(u.platform.issued))
                  && next.manifest.None? && !next.restartWhenReady && !next.manualInstall
                  && next.check == Check(Asked(u, e), e.CheckTimer?, None, false, false))
            && (!CanCheck(u) ==> next == u)
  {
  }

  /** Whether a release is worth offering to whom: to anyone when it is newer, and a Stable
      Release to someone who asks from a Nightly Build, on the Nightly channel only when it
      is no older. */
  predicate IsWorth(running: Running, manifest: Manifest, from: Channel, asked: Channel, byTimer: bool) {
    || manifest.build > running.build
    || (!byTimer && from == Stable && running.nightly && (asked == Stable || manifest.build == running.build))
  }

  lemma WorthIsOffered(running: Running, parsed: Manifest, from: Channel, asked: Channel, byTimer: bool)
    ensures Offers(Found(Some(parsed), from), running, asked, byTimer)
       <==> IsWorth(running, parsed, from, asked, byTimer)
  {
  }

  /** Where a release worth offering leaves the updater: downloading by itself when it may
      and when it need not ask whether to leave the Nightly Builds. */
  predicate IsOffered(running: Running, u: Updater, manifest: Manifest, asked: Channel, w: World) {
    && u.manifest == Some(manifest)
    && u.state == (if !w.autoInstall || !w.downloads
                      || (manifest.channel == Stable && asked == Stable && running.nightly) then UpdateAvailable
                   else if w.creation.Created? then Downloading else Error)
  }

  /** A check that failed counts against the timer that began it; any other ends the
      backoff and is remembered by its time. */
  predicate Counted(u: Updater, e: Event, last: Updater, w: World) {
    last.schedule == if last.state != CheckFailed then Schedule(0, w.nowMs)
                     else if e.CheckTimer? then u.schedule.(failures := u.schedule.failures + 1)
                     else u.schedule
  }

  /** A Stable check offers its release when that is worth offering, and is up to date
      otherwise, or failed when it could not be read. */
  lemma StableCheckEnds(running: Running, u: Updater, e: Event, parsed: Option<Manifest>, w: World)
    requires e.CheckForUpdates? || e.CheckTimer?
    requires CanCheck(u) && Asked(u, e) == Stable
    ensures var checking := Step(running, u, e, w);
            var last := Step(running, checking, CheckAnswered(CheckReply(u.platform.issued), parsed), w);
            if parsed.None? then last.state == CheckFailed && last.manifest.None?
            else if IsWorth(running, parsed.value, Stable, Stable, e.CheckTimer?) then
              IsOffered(running, last, parsed.value.(channel := Stable), Stable, w)
            else last.state == UpToDate && last.manifest.None?
    ensures Counted(u, e, Step(running, Step(running, u, e, w), CheckAnswered(CheckReply(u.platform.issued), parsed), w), w)
  {
    ChecksBegin(running, u, e, w);
    var checking := Step(running, u, e, w);
    if parsed.Some? {
      WorthIsOffered(running, parsed.value, Stable, Stable, e.CheckTimer?);
      DecideOffers(running, checking.(reply := None), Found(parsed, Stable), w);
    }
  }

  lemma DecideOffers(running: Running, u: Updater, candidate: Option<Manifest>, w: World)
    requires candidate.Some?
    ensures var last := Decide(running, u, candidate, w);
            if Offers(candidate, running, u.check.channel, u.check.automatic) then
              IsOffered(running, last, candidate.value, u.check.channel, w)
            else last.manifest.None? && last.state == if u.check.primaryFailed then CheckFailed else UpToDate
  {
  }

  /** A Nightly check reads both feeds and offers the newest of what is worth offering, the
      Stable Release when they tie; with nothing to offer it is up to date only when the
      Nightly feed could be read. */
  lemma NightlyCheckEnds(
    running: Running, u: Updater, e: Event, nightly: Option<Manifest>, stable: Option<Manifest>, w: World)
    requires e.CheckForUpdates? || e.CheckTimer?
    requires CanCheck(u) && Asked(u, e) == Nightly
    ensures var checking := Step(running, u, e, w);
            var half := Step(running, checking, CheckAnswered(CheckReply(u.platform.issued), nightly), w);
            var last := Step(running, half, CheckAnswered(CheckReply(u.platform.issued + 1), stable), w);
            var worthNightly := nightly.Some? && IsWorth(running, nightly.value, Nightly, Nightly, e.CheckTimer?);
            var worthStable := stable.Some? && IsWorth(running, stable.value, Stable, Nightly, e.CheckTimer?);
            if worthStable && (nightly.Some? ==> stable.value.build >= nightly.value.build) then
              IsOffered(running, last, stable.value.(channel := Stable), Nightly, w)
            else if worthNightly || worthStable then
              IsOffered(running, last, nightly.value.(channel := Nightly), Nightly, w)
            else last.manifest.None? && last.state == if nightly.None? then CheckFailed else UpToDate
    ensures var checking := Step(running, u, e, w);
            var half := Step(running, checking, CheckAnswered(CheckReply(u.platform.issued), nightly), w);
            Counted(u, e, Step(running, half, CheckAnswered(CheckReply(u.platform.issued + 1), stable), w), w)
  {
    ChecksBegin(running, u, e, w);
    var checking := Step(running, u, e, w);
    var half := Step(running, checking, CheckAnswered(CheckReply(u.platform.issued), nightly), w);
    FirstLegWaits(running, checking, nightly, w);
    SecondLegEnds(running, half, nightly, stable, w);
  }

  lemma FirstLegWaits(running: Running, checking: Updater, nightly: Option<Manifest>, w: World)
    requires checking.state == Checking && checking.reply.Some? && checking.reply.value.CheckReply?
    requires checking.check.channel == Nightly && !checking.check.fetchingStable
    ensures var half := Step(running, checking, CheckAnswered(checking.reply.value, nightly), w);
            && half.reply == Some(CheckReply(checking.platform.issued)) && half.state == Checking
            && half.check == checking.check.(primary := Found(nightly, Nightly), primaryFailed := nightly.None?,
                                             fetchingStable := true)
  {
  }

  lemma SecondLegEnds(
    running: Running, half: Updater, nightly: Option<Manifest>, stable: Option<Manifest>, w: World)
    requires half.reply.Some? && half.reply.value.CheckReply?
    requires half.check.primary == Found(nightly, Nightly) && half.check.primaryFailed == nightly.None?
    requires half.check.fetchingStable && half.check.channel == Nightly
    ensures var last := Step(running, half, CheckAnswered(half.reply.value, stable), w);
            var worthNightly := nightly.Some? && IsWorth(running, nightly.value, Nightly, Nightly, half.check.automatic);
            var worthStable := stable.Some? && IsWorth(running, stable.value, Stable, Nightly, half.check.automatic);
            if worthStable && (nightly.Some? ==> stable.value.build >= nightly.value.build) then
              IsOffered(running, last, stable.value.(channel := Stable), Nightly, w)
            else if worthNightly || worthStable then
              IsOffered(running, last, nightly.value.(channel := Nightly), Nightly, w)
            else last.manifest.None? && last.state == if nightly.None? then CheckFailed else UpToDate
  {
    var best := BestCandidate(Found(nightly, Nightly), Found(stable, Stable));
    if best.Some? {
      DecideOffers(running, half.(reply := None), best, w);
    }
  }

  // ----- Clicks

  /** The button starts the download of an offer, or opens the release page where it cannot
      be downloaded here. */
  lemma OfferIsDownloaded(running: Running, u: Updater, w: World)
    requires u.state == UpdateAvailable
    ensures var next := Step(running, u, UpdateNow, w);
            && next.manifest == u.manifest && next.platform.restarts == u.platform.restarts
            && (!w.downloads ==> next.state == UpdateAvailable && next.platform.pages == u.platform.pages + 1)
            && (w.downloads && w.creation.Created? ==>
                  && next.state == Downloading && next.reply == Some(DownloadReply(u.platform.issued))
                  && next.download == Writing(false) && next.platform.pages == u.platform.pages)
            && (w.downloads && w.creation.NotCreated? ==>
                  && next.state == Error && next.manualInstall == w.creation.manualInstall
                  && next.platform.pages == if w.creation.manualInstall then u.platform.pages + 1 else u.platform.pages)
  {
  }

  /** After a failure it checks again as a person asked, on the channel now chosen, or
      opens the release page when only that helps. */
  lemma FailureIsRetried(running: Running, u: Updater, w: World)
    requires u.state == Error || u.state == CheckFailed
    ensures var next := Step(running, u, UpdateNow, w);
            && (u.manualInstall ==> next == OpenPage(u))
            && (!u.manualInstall ==> next == Step(running, u, CheckForUpdates(u.selectedChannel), w))
            && next == Step(running, u, InstallAndRestart, w)
  {
  }

  lemma DismissIsRemembered(running: Running, u: Updater, w: World)
    ensures var next := Step(running, u, Dismiss, w);
            && (u.state == Error || u.state == CheckFailed ==> next.state == Idle && !next.manualInstall)
            && (u.state == UpdateAvailable && u.manifest.Some? ==>
                  next == u.(dismissed := Some(u.manifest.value.version)))
            && (u.state !in {Error, CheckFailed, UpdateAvailable} ==> next == u)
  {
  }

  /** Another channel chosen drops whatever is under way, unless an update is installed. */
  lemma SwitchForgets(running: Running, u: Updater, channel: Channel, w: World)
    requires channel != u.selectedChannel
    ensures var next := Step(running, u, SettingsChanged(channel), w);
            && next.selectedChannel == channel && next.platform == u.platform
            && (u.state in {ReadyToRestart, RestartPending, Restarting} ==> next == u.(selectedChannel := channel))
            && (u.state !in {ReadyToRestart, RestartPending, Restarting} ==>
                  && next.state == Idle && next.reply.None? && next.manifest.None? && next.download.NoDownload?
                  && !next.restartWhenReady && !next.manualInstall)
  {
  }

  // ----- Downloads

  predicate IsGood(u: Updater, file: Fetched) {
    file.arrived && file.written && u.manifest.Some? && file.sha256 == u.manifest.value.sha256 && file.installs
  }

  predicate IsDownloading(u: Updater, reply: Reply) {
    u.state == Downloading && u.reply == Some(reply) && reply.DownloadReply? && u.download.Writing?
  }

  /** A download that fails anywhere ends in Error and installs nothing it should not. */
  lemma BadDownloadFails(running: Running, u: Updater, reply: Reply, file: Fetched, w: World)
    requires IsDownloading(u, reply) && (u.download.failed || !IsGood(u, file))
    ensures var next := Step(running, u, DownloadFinished(reply, file), w);
            && next.state == Error && next.platform == u.platform && next.reply.None? && !next.restartWhenReady
  {
  }

  /** Bytes that could not be written are held against it to the end. */
  lemma WriteFailureIsRemembered(running: Running, u: Updater, reply: Reply, file: Fetched, w: World)
    requires IsDownloading(u, reply)
    ensures var failed := Step(running, u, DataArrived(false), w);
            && IsDownloading(failed, reply) && failed.download.failed
            && Step(running, failed, DataArrived(true), w) == failed
            && Step(running, failed, DownloadFinished(reply, file), w).state == Error
    ensures Step(running, u, DataArrived(true), w) == u
  {
    var failed := Step(running, u, DataArrived(false), w);
    BadDownloadFails(running, failed, reply, file, w);
  }

  predicate HasInstalled(u: Updater, next: Updater, file: Fetched) {
    next.platform.installed == Some(file.sha256) && next.manifest == u.manifest && next.reply.None?
  }

  /** A good one is installed and waits for a restart to be asked for. */
  lemma GoodDownloadWaits(running: Running, u: Updater, reply: Reply, file: Fetched, w: World)
    requires IsDownloading(u, reply) && !u.download.failed && IsGood(u, file) && !u.restartWhenReady
    ensures var next := Step(running, u, DownloadFinished(reply, file), w);
            && next.state == ReadyToRestart && HasInstalled(u, next, file)
            && next.platform.restarts == u.platform.restarts
  {
  }

  /** Where a restart is left, or how it waits. */
  predicate Restarted(u: Updater, next: Updater, w: World) {
    if w.busy then next.state == RestartPending && next.platform.restarts == u.platform.restarts
    else
      && next.platform.restarts == u.platform.restarts + 1
      && (w.restart == Starts ==> next.state == Restarting)
      && (w.restart == FailsToStart ==> next.state == ReadyToRestart)
      && (w.restart == HasNothingToStart ==> next.platform.pages == u.platform.pages + 1)
  }

  /** Asked for with the download, the restart follows it at once, or waits. */
  lemma ArmedDownloadRestarts(running: Running, u: Updater, reply: Reply, file: Fetched, w: World)
    requires IsDownloading(u, reply) && !u.download.failed && IsGood(u, file) && u.restartWhenReady
    ensures var next := Step(running, u, DownloadFinished(reply, file), w);
            HasInstalled(u, next, file) && Restarted(u, next, w) && !next.restartWhenReady
  {
  }

  /** Asked for while installed, too, by either click. */
  lemma InstalledUpdateRestarts(running: Running, u: Updater, e: Event, w: World)
    requires u.state == ReadyToRestart && (e.UpdateNow? || e.InstallAndRestart?)
    ensures Restarted(u, Step(running, u, e, w), w) && Step(running, u, e, w).manifest == u.manifest
  {
  }

  /** A restart that waits goes ahead as soon as nothing is in its way, and not before. */
  lemma PendingRestartResumes(running: Running, u: Updater, w: World)
    requires u.state == RestartPending
    ensures var next := Step(running, u, BlockerChanged, w);
            if w.busy then next == u else Restarted(u, next, w)
  {
  }

  /** One that the platform gave up on can be asked for again. */
  lemma AbandonedRestartIsReady(running: Running, u: Updater, w: World)
    requires u.state == Restarting
    ensures Step(running, u, RestartAbandoned, w) == u.(state := ReadyToRestart)
  {
  }

  /** Where there is nothing to do, clicks and news of the platform do nothing. */
  lemma NothingToDo(running: Running, u: Updater, w: World)
    ensures u.state in {Idle, Checking, UpToDate, RestartPending, Restarting} ==>
              Step(running, u, UpdateNow, w) == u && Step(running, u, InstallAndRestart, w) == u
    ensures u.state == Downloading ==> Step(running, u, UpdateNow, w) == u
    ensures u.state != RestartPending ==> Step(running, u, BlockerChanged, w) == u
    ensures u.state != Restarting ==> Step(running, u, RestartAbandoned, w) == u
    ensures u.download.NoDownload? ==> Step(running, u, DataArrived(false), w) == u
    ensures Step(running, u, SettingsChanged(u.selectedChannel), w) == u
  {
  }

  /** One click through it all: an offer is downloaded, installed and restarted into, with
      a wait where something is in the way. */
  lemma OneClickRestarts(running: Running, u: Updater, file: Fetched, w0: World, w1: World, w2: World)
    requires u.state == UpdateAvailable && IsGood(u, file)
    requires w0.downloads && w0.creation.Created? && !w2.busy
    ensures var loading := Step(running, u, InstallAndRestart, w0);
            var loaded := Step(running, loading, DownloadFinished(DownloadReply(u.platform.issued), file), w1);
            && loading.state == Downloading && loading.restartWhenReady
            && HasInstalled(u, loaded, file)
            && (if w1.busy then Restarted(u, Step(running, loaded, BlockerChanged, w2), w2) else Restarted(u, loaded, w1))
  {
    var loading := Step(running, u, InstallAndRestart, w0);
    assert loading == Step(running, u.(restartWhenReady := true), UpdateNow, w0);
    OfferIsDownloaded(running, u.(restartWhenReady := true), w0);
    ClickArms(running, u, w0);
    ArmedDownloadRestarts(running, loading, DownloadReply(u.platform.issued), file, w1);
    var loaded := Step(running, loading, DownloadFinished(DownloadReply(u.platform.issued), file), w1);
    if w1.busy {
      PendingRestartResumes(running, loaded, w2);
    }
  }

  /** The click arms the restart with an offer, a download or an installed update in hand. */
  lemma ClickArms(running: Running, u: Updater, w: World)
    requires u.state == UpdateAvailable || u.state == Downloading
    ensures var next := Step(running, u, InstallAndRestart, w);
            && (next.state != Error ==> next.restartWhenReady)
            && (u.state == Downloading ==> next == u.(restartWhenReady := true))
  {
  }
}
