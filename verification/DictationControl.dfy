/** The shortcut key and the controller it drives, as one loop: presses, releases and a
    misfire timer on one side; microphone grants that come late, stops, cancels, file
    transcription and quitting on the other. */
module DictationControl {
  import opened Runs

  datatype Mode = Toggle | PushToTalk | Hybrid

  const HYBRID_HOLD_MS: int := 250

  datatype SessionState =
    | Idle | Starting | Listening | Paused | Stopping | Refining | Reviewing | Delivering | Error

  /** Where a start comes from: a hold of the shortcut key, or any other client. */
  datatype Origin = Other | Hold(number: nat)

  /** A start that waits for the microphone: what it does once granted, where it comes
      from, and how many stops came before it was asked for. */
  datatype Request = Request(toggles: bool, origin: Origin, since: nat)

  datatype Gesture = Gesture(
    down: bool, startedSession: bool, releaseSeen: bool, pressedWhileDown: bool, deferredStart: bool)

  datatype Controller = Controller(startPending: bool, generation: nat, quitting: bool)

  /** What the two drive, and what has happened: the session and where it came from, the
      microphone questions not answered yet by generation, the stops, cancels and quits
      so far, the holds so far with those a rebinding cut short, whether the last press
      found no session, the stops before it, and whether a cancel came after it. */
  datatype World = World(
    session: SessionState, from: Origin, transcribing: bool, asked: map<nat, Request>,
    stops: nat, holds: nat, cutShort: set<nat>, foundIdle: bool, pressedAt: nat,
    cancelled: bool)

  datatype Loop = Loop(g: Gesture, c: Controller, w: World)

  const AT_LAUNCH: Gesture := Gesture(false, false, false, false, false)

  const LAUNCHED: Loop :=
    Loop(AT_LAUNCH, Controller(false, 0, false), World(Idle, Other, false, map[], 0, 0, {}, false, 0, false))

  /** `after` is the state the session is left in by what the event has it do, `ready`
      whether setup was completed. */
  datatype Event =
    | Press(mode: Mode, ready: bool, after: SessionState)
    | Release(mode: Mode, heldMs: int, elapsedMs: int, after: SessionState)
    | DeferredStart(ready: bool)
    | Rebind
    | ToggleSession(ready: bool, after: SessionState)
    | StartListening(ready: bool)
    | StopListening(after: SessionState)
    | Cancel(after: SessionState)
    | Quit
    | MicrophoneAnswered(generation: nat, granted: bool, after: SessionState)
    | SessionMoves(after: SessionState)
    | TranscribeFiles
    | FilesTranscribed

  // ----- What the session does with its calls

  predicate Live(state: SessionState) {
    state == Starting || state == Listening || state == Paused
  }

  predicate AtRest(state: SessionState) {
    state == Idle || state == Error
  }

  predicate StopLeads(before: SessionState, after: SessionState) {
    !Live(after) && (AtRest(before) ==> after == Idle)
  }

  predicate CancelLeads(before: SessionState, after: SessionState) {
    after in {Idle, Reviewing, Delivering} && (AtRest(before) ==> after == Idle)
  }

  predicate StartLeads(before: SessionState, after: SessionState) {
    if AtRest(before) then after == Starting || AtRest(after)
    else after == before || (after == Starting && before in {Reviewing, Delivering})
  }

  predicate ToggleLeads(before: SessionState, after: SessionState) {
    if Live(before) || before == Refining then StopLeads(before, after) else StartLeads(before, after)
  }

  /** By itself a session never starts. */
  predicate MovesTo(before: SessionState, after: SessionState) {
    (Live(after) ==> Live(before)) && (AtRest(before) ==> after == before || after == Idle)
  }

  predicate Active(l: Loop) {
    Live(l.w.session) || l.c.startPending
  }

  function Refusal(l: Loop): bool {
    l.w.transcribing || !AtRest(l.w.session) || l.c.startPending
  }

  // ----- The controller

  function AskMicrophone(l: Loop, request: Request): Loop {
    if l.c.quitting || l.w.transcribing || l.c.startPending then l
    else
      var generation := l.c.generation + 1;
      l.(c := l.c.(startPending := true, generation := generation),
         w := l.w.(asked := l.w.asked[generation := request]))
  }

  function DropPendingStart(l: Loop): Loop {
    l.(g := l.g.(deferredStart := false), c := l.c.(startPending := false, generation := l.c.generation + 1))
  }

  function StopSession(l: Loop, after: SessionState): Loop {
    DropPendingStart(l).(w := l.w.(session := after, stops := l.w.stops + 1))
  }

  function CancelSession(l: Loop, after: SessionState): Loop {
    var stopped := StopSession(l, after);
    stopped.(g := stopped.g.(startedSession := false), w := stopped.w.(cancelled := true))
  }

  function QuitApplication(l: Loop): Loop {
    if l.c.quitting then l
    else
      var stopped := StopSession(l, Idle);
      stopped.(c := stopped.c.(quitting := true))
  }

  function ToggleWith(l: Loop, ready: bool, origin: Origin, after: SessionState): Loop {
    if Active(l) then StopSession(l, after)
    else if !ready then l
    else AskMicrophone(l, Request(true, origin, l.w.stops))
  }

  function StartListeningWith(l: Loop, ready: bool, origin: Origin, since: nat): Loop {
    if ready then AskMicrophone(l, Request(false, origin, since)) else l
  }

  /** A grant acts only for the generation that still stands. */
  function Answer(l: Loop, generation: nat, granted: bool, after: SessionState): Loop
    requires generation in l.w.asked
  {
    var request := l.w.asked[generation];
    var w := l.w.(asked := l.w.asked - {generation});
    if generation != l.c.generation then l.(w := w)
    else if !granted then l.(c := l.c.(startPending := false), w := w)
    else
      l.(c := l.c.(startPending := false),
         w := w.(session := after, from := if Live(after) && !Live(l.w.session) then request.origin else l.w.from))
  }

  // ----- The gesture

  predicate ReportsRelease(g: Gesture) {
    g.releaseSeen || !g.pressedWhileDown
  }

  predicate Ignores(g: Gesture) {
    g.down && g.releaseSeen
  }

  function Pressed(g: Gesture, active: bool): Gesture {
    g.(down := true, startedSession := !active, pressedWhileDown := g.pressedWhileDown || g.down)
  }

  predicate Defers(g: Gesture, mode: Mode) {
    g.startedSession && ReportsRelease(g) && mode == PushToTalk
  }

  /** A press that is not ignored begins a hold. */
  function Held(l: Loop): Loop {
    l.(g := Pressed(l.g, Active(l)),
       w := l.w.(holds := l.w.holds + 1, foundIdle := !Active(l), pressedAt := l.w.stops, cancelled := false))
  }

  function OnPress(l: Loop, mode: Mode, ready: bool, after: SessionState): Loop {
    if Ignores(l.g) then l
    else
      var held := Held(l);
      if Defers(held.g, mode) then held.(g := held.g.(deferredStart := true))
      else ToggleWith(held, ready, Hold(held.w.holds), after)
  }

  /** Whether a release ends the session. */
  predicate Ends(g: Gesture, active: bool, mode: Mode, heldMs: int, elapsedMs: int) {
    g.startedSession && active
    && (mode == PushToTalk ==> !g.deferredStart)
    && (mode == Hybrid ==> (if heldMs >= 0 then heldMs else elapsedMs) > HYBRID_HOLD_MS)
    && mode != Toggle
  }

  function Released(g: Gesture): Gesture {
    g.(down := false, releaseSeen := true, startedSession := false,
       deferredStart := g.deferredStart && !g.startedSession)
  }

  function OnRelease(l: Loop, mode: Mode, heldMs: int, elapsedMs: int, after: SessionState): Loop {
    var released := l.(g := Released(l.g));
    if Ends(l.g, Active(l), mode, heldMs, elapsedMs) then StopSession(released, after) else released
  }

  function OnDeferredStart(l: Loop, ready: bool): Loop {
    StartListeningWith(l.(g := l.g.(deferredStart := false)), ready, Hold(l.w.holds), l.w.pressedAt)
  }

  function OnRebind(l: Loop): Loop {
    l.(g := AT_LAUNCH, w := l.w.(cutShort := if l.g.down then l.w.cutShort + {l.w.holds} else l.w.cutShort))
  }

  // ----- The loop

  predicate Enabled(l: Loop, e: Event) {
    match e
    case Press(_, _, after) => StopLeads(l.w.session, after)
    case Release(_, _, _, after) => StopLeads(l.w.session, after)
    case DeferredStart(_) => l.g.deferredStart
    case ToggleSession(_, after) => StopLeads(l.w.session, after)
    case StopListening(after) => StopLeads(l.w.session, after)
    case Cancel(after) => CancelLeads(l.w.session, after)
    case MicrophoneAnswered(generation, _, after) =>
      generation in l.w.asked
      && (if l.w.asked[generation].toggles then ToggleLeads(l.w.session, after) else StartLeads(l.w.session, after))
    case SessionMoves(after) => MovesTo(l.w.session, after)
    case TranscribeFiles => !Refusal(l)
    case _ => true
  }

  /** An event that cannot come changes nothing. */
  function Step(l: Loop, e: Event): Loop {
    if !Enabled(l, e) then l
    else
      match e
      case Press(mode, ready, after) => OnPress(l, mode, ready, after)
      case Release(mode, heldMs, elapsedMs, after) => OnRelease(l, mode, heldMs, elapsedMs, after)
      case DeferredStart(ready) => OnDeferredStart(l, ready)
      case Rebind => OnRebind(l)
      case ToggleSession(ready, after) => ToggleWith(l, ready, Other, after)
      case StartListening(ready) => StartListeningWith(l, ready, Other, l.w.stops)
      case StopListening(after) => StopSession(l, after)
      case Cancel(after) => CancelSession(l, after)
      case Quit => QuitApplication(l)
      case MicrophoneAnswered(generation, granted, after) => Answer(l, generation, granted, after)
      case SessionMoves(after) => l.(w := l.w.(session := after))
      case TranscribeFiles => l.(w := l.w.(transcribing := true))
      case FilesTranscribed => l.(w := l.w.(transcribing := false))
  }

  // ----- What every run keeps

  /** A start waiting out the misfire window belongs to a key that is down and found no
      session, and nothing was stopped since it was pressed. */
  predicate DeferredStartIsHeld(l: Loop) {
    l.g.deferredStart ==> l.g.down && l.g.startedSession && l.w.pressedAt == l.w.stops
  }

  /** A start is pending exactly while the question that would start it is unanswered
      and not dropped, and then it was asked for after the latest stop. */
  predicate PendingIsAsked(l: Loop) {
    && (l.c.startPending <==> l.c.generation in l.w.asked)
    && (forall generation :: generation in l.w.asked ==> generation <= l.c.generation)
    && (l.c.startPending ==> l.w.asked[l.c.generation].since == l.w.stops)
  }

  /** Only a cancel disowns the session a held key started. */
  predicate HoldIsOwned(l: Loop) {
    l.g.down && l.w.foundIdle ==> (l.g.startedSession <==> !l.w.cancelled)
  }

  predicate FilesExcludeDictation(l: Loop) {
    l.w.transcribing ==> AtRest(l.w.session) && !l.c.startPending
  }

  predicate QuitStops(l: Loop) {
    l.c.quitting ==> !l.c.startPending && l.w.session == Idle
  }

  predicate Valid(l: Loop) {
    DeferredStartIsHeld(l) && HoldIsOwned(l) && PendingIsAsked(l) && FilesExcludeDictation(l) && QuitStops(l)
  }

  lemma AskKeepsValid(l: Loop, request: Request)
    requires Valid(l) && request.since == l.w.stops
    ensures Valid(AskMicrophone(l, request))
  {
  }

  /** A press that finds a session drops the deferred start of an earlier one by stopping. */
  lemma PressKeepsValid(l: Loop, mode: Mode, ready: bool, after: SessionState)
    requires Valid(l) && StopLeads(l.w.session, after)
    ensures Valid(OnPress(l, mode, ready, after))
  {
    if !Ignores(l.g) {
      var held := Held(l);
      assert Active(held) == Active(l);
      assert !Active(l) ==> DeferredStartIsHeld(held);
    }
  }

  lemma ReleaseKeepsValid(l: Loop, mode: Mode, heldMs: int, elapsedMs: int, after: SessionState)
    requires Valid(l) && StopLeads(l.w.session, after)
    ensures Valid(OnRelease(l, mode, heldMs, elapsedMs, after))
  {
  }

  lemma AnswerKeepsValid(l: Loop, generation: nat, granted: bool, after: SessionState)
    requires Valid(l) && generation in l.w.asked
    ensures Valid(Answer(l, generation, granted, after))
  {
  }

  lemma StepKeepsValid(l: Loop, e: Event)
    requires Valid(l)
    ensures Valid(Step(l, e))
  {
    if !Enabled(l, e) {
      return;
    }
    match e
    case Press(mode, ready, after) => PressKeepsValid(l, mode, ready, after);
    case Release(mode, heldMs, elapsedMs, after) => ReleaseKeepsValid(l, mode, heldMs, elapsedMs, after);
    case DeferredStart(ready) =>
      AskKeepsValid(l.(g := l.g.(deferredStart := false)), Request(false, Hold(l.w.holds), l.w.pressedAt));
    case ToggleSession(ready, after) =>
    case StartListening(ready) => AskKeepsValid(l, Request(false, Other, l.w.stops));
    case StopListening(after) =>
    case Cancel(after) =>
    case Quit =>
    case MicrophoneAnswered(generation, granted, after) => AnswerKeepsValid(l, generation, granted, after);
    case _ =>
  }

  // ----- Whole runs

  /** The loop after the first `n` events of any run. */
  function After(events: seq<Event>, n: nat): Loop
    requires n <= |events|
  {
    Run(Step, LAUNCHED, events, n)
  }

  lemma RunKeepsValid(events: seq<Event>, n: nat)
    requires n <= |events|
    ensures Valid(After(events, n))
  {
    forall l, e | Valid(l) ensures Valid(Step(l, e)) {
      StepKeepsValid(l, e);
    }
    RunKeeps(Step, LAUNCHED, events, 0, n, Valid);
  }

  /** Dictation and file transcription exclude each other, a start is pending exactly
      while a question that would start it is out, and after quitting neither a session
      nor a pending start is left. */
  lemma DictationExcludesFiles(events: seq<Event>, n: nat)
    requires n <= |events|
    ensures var l := After(events, n);
            && !(l.w.transcribing && (!AtRest(l.w.session) || l.c.startPending))
            && (l.c.startPending <==> l.c.generation in l.w.asked)
            && (l.g.deferredStart ==> l.g.down && l.g.startedSession)
            && (l.c.quitting ==> !l.c.startPending && l.w.session == Idle)
  {
    RunKeepsValid(events, n);
  }

  // ----- Which request a session answers

  predicate Asks(e: Event) {
    e.Press? || e.ToggleSession? || e.StartListening?
  }

  /** Where an event has the session stopped, cancelled or shut down. */
  predicate Stops(l: Loop, e: Event) {
    Enabled(l, e)
    && match e
       case StopListening(_) => true
       case Cancel(_) => true
       case Quit => !l.c.quitting
       case ToggleSession(_, _) => Active(l)
       case Press(_, _, _) => !Ignores(l.g) && Active(l)
       case Release(mode, heldMs, elapsedMs, _) => Ends(l.g, Active(l), mode, heldMs, elapsedMs)
       case _ => false
  }

  lemma StepCountsStops(l: Loop, e: Event)
    ensures Step(l, e).w.stops == if Stops(l, e) then l.w.stops + 1 else l.w.stops
  {
  }

  /** A question first out in `next`, under a generation of its own. */
  predicate Issues(l: Loop, next: Loop, generation: nat) {
    !l.c.startPending && next.c.startPending && next.c.generation == generation == l.c.generation + 1
  }

  /** What one event may do to the questions out, the deferred start and the stops: a new
      question comes from a request or from the timer of a deferred start. */
  ghost predicate Moves(l: Loop, e: Event, next: Loop) {
    && next.w.stops == (if Stops(l, e) then l.w.stops + 1 else l.w.stops)
    && (next.g.deferredStart ==> next.w.stops == l.w.stops && (l.g.deferredStart || e.Press?))
    && (forall generation :: generation in next.w.asked ==>
          var since := next.w.asked[generation].since;
          || (generation in l.w.asked && since == l.w.asked[generation].since)
          || (Issues(l, next, generation) && since == l.w.stops
              && (Asks(e) || (e.DeferredStart? && l.g.deferredStart))))
  }

  lemma StepMoves(l: Loop, e: Event)
    requires Valid(l)
    ensures Moves(l, e, Step(l, e))
  {
    StepCountsStops(l, e);
  }

  function Trace(events: seq<Event>): (trace: seq<Loop>)
    ensures |trace| == |events| + 1
    ensures forall k :: 0 <= k <= |events| ==> trace[k] == After(events, k)
  {
    seq(|events| + 1, k requires 0 <= k <= |events| => After(events, k))
  }

  ghost predicate IsTrace(trace: seq<Loop>, events: seq<Event>) {
    && |trace| == |events| + 1 && trace[0] == LAUNCHED
    && forall k :: 0 <= k < |events| ==> Moves(trace[k], events[k], trace[k + 1])
  }

  lemma TraceIsTrace(events: seq<Event>)
    ensures IsTrace(Trace(events), events)
  {
    var trace := Trace(events);
    forall k | 0 <= k < |events| ensures Moves(trace[k], events[k], trace[k + 1]) {
      RunKeepsValid(events, k);
      StepMoves(After(events, k), events[k]);
    }
  }

  /** Press `i` began the deferred start that is still waiting after `n` events. */
  predicate DefersUntil(trace: seq<Loop>, events: seq<Event>, i: nat, n: nat)
    requires n <= |events| < |trace|
  {
    && i < n && events[i].Press? && !trace[i].g.deferredStart
    && forall k :: i < k <= n ==> trace[k].g.deferredStart
  }

  /** The timer of that deferred start is event `j`, and it asked the question. */
  predicate TurnsInto(trace: seq<Loop>, events: seq<Event>, i: nat, j: nat, generation: nat)
    requires j < |events| < |trace|
  {
    DefersUntil(trace, events, i, j) && events[j].DeferredStart? && Issues(trace[j], trace[j + 1], generation)
  }

  /** Event `i` is the request that led to the question of this generation: it asked it,
      or its deferred start did. */
  ghost predicate IsRequestFor(trace: seq<Loop>, events: seq<Event>, n: nat, i: nat, generation: nat)
    requires n <= |events| < |trace|
  {
    i < n
    && ((Asks(events[i]) && Issues(trace[i], trace[i + 1], generation))
        || exists j: nat :: i < j < n && TurnsInto(trace, events, i, j, generation))
  }

  lemma {:induction false} DeferredStartsArePressed(trace: seq<Loop>, events: seq<Event>, n: nat) returns (i: nat)
    requires IsTrace(trace, events) && n <= |events| && trace[n].g.deferredStart
    ensures DefersUntil(trace, events, i, n) && trace[i].w.stops == trace[n].w.stops
  {
    assert Moves(trace[n - 1], events[n - 1], trace[n]);
    if trace[n - 1].g.deferredStart {
      i := DeferredStartsArePressed(trace, events, n - 1);
    } else {
      i := n - 1;
    }
  }

  /** Every question out goes back to one request, made after as many stops as it says. */
  lemma {:induction false} RequestsAreDated(trace: seq<Loop>, events: seq<Event>, n: nat, generation: nat)
    returns (i: nat)
    requires IsTrace(trace, events) && n <= |events| && generation in trace[n].w.asked
    ensures IsRequestFor(trace, events, n, i, generation)
    ensures trace[i].w.stops == trace[n].w.asked[generation].since
  {
    assert Moves(trace[n - 1], events[n - 1], trace[n]);
    if generation in trace[n - 1].w.asked
       && trace[n].w.asked[generation].since == trace[n - 1].w.asked[generation].since {
      i := RequestsAreDated(trace, events, n - 1, generation);
    } else if Asks(events[n - 1]) {
      i := n - 1;
    } else {
      i := DeferredStartsArePressed(trace, events, n - 1);
      assert TurnsInto(trace, events, i, n - 1, generation);
    }
  }

  lemma {:induction false} StopsOnlyRise(trace: seq<Loop>, events: seq<Event>, m: nat, n: nat)
    requires IsTrace(trace, events) && m <= n <= |events|
    ensures trace[m].w.stops <= trace[n].w.stops
    decreases n
  {
    if m < n {
      StopsOnlyRise(trace, events, m, n - 1);
      assert Moves(trace[n - 1], events[n - 1], trace[n]);
    }
  }

  /** How a session begins: the grant of the request that still stands. */
  lemma SessionsBeginByGrants(l: Loop, e: Event)
    requires Valid(l) && !Live(l.w.session) && Live(Step(l, e).w.session)
    ensures e.MicrophoneAnswered? && e.granted && e.generation == l.c.generation && l.c.startPending
    ensures l.c.generation in l.w.asked && l.w.asked[l.c.generation].since == l.w.stops
    ensures Step(l, e).w.from == l.w.asked[l.c.generation].origin
    ensures !l.c.quitting && !l.w.transcribing
  {
  }

  /** Neither event `i` nor one after it, before event `n`, had a session stopped. */
  predicate NothingStopped(trace: seq<Loop>, events: seq<Event>, i: nat, n: nat)
    requires n <= |events| < |trace|
  {
    forall j :: i <= j < n ==> !Stops(trace[j], events[j])
  }

  ghost predicate Answers(trace: seq<Loop>, events: seq<Event>, n: nat, i: nat)
    requires n < |events| < |trace|
  {
    && events[n].MicrophoneAnswered? && events[n].granted
    && IsRequestFor(trace, events, n, i, events[n].generation)
    && NothingStopped(trace, events, i, n)
  }

  lemma StandingQuestionsAreAsked(trace: seq<Loop>, events: seq<Event>, n: nat, generation: nat) returns (i: nat)
    requires IsTrace(trace, events) && n <= |events| && generation in trace[n].w.asked
    requires trace[n].w.asked[generation].since == trace[n].w.stops
    ensures IsRequestFor(trace, events, n, i, generation) && NothingStopped(trace, events, i, n)
  {
    i := RequestsAreDated(trace, events, n, generation);
    forall j | i <= j < n ensures !Stops(trace[j], events[j]) {
      StopsOnlyRise(trace, events, i, j);
      StopsOnlyRise(trace, events, j + 1, n);
      assert Moves(trace[j], events[j], trace[j + 1]);
    }
  }

  /** However late the grant arrives, a session begins only by the grant of the very
      question a request led to, and no stop, cancel or quit came since that request,
      whether asked for outright or by a toggle, a press or a release. */
  lemma NoSessionFromBeforeAStop(events: seq<Event>, n: nat)
    requires n < |events|
    requires !Live(After(events, n).w.session) && Live(Step(After(events, n), events[n]).w.session)
    ensures exists i: nat :: Answers(Trace(events), events, n, i)
  {
    RunKeepsValid(events, n);
    SessionsBeginByGrants(After(events, n), events[n]);
    TraceIsTrace(events);
    var i := StandingQuestionsAreAsked(Trace(events), events, n, events[n].generation);
    assert Answers(Trace(events), events, n, i);
  }

  // ----- Push-to-talk

  /** The events of a desktop that reports releases, the mode left at push-to-talk: no
      second press comes before the first release was seen. */
  predicate Reported(l: Loop, e: Event) {
    && (e.Press? ==> e.mode == PushToTalk && (l.g.down ==> l.g.releaseSeen))
    && (e.Release? ==> e.mode == PushToTalk)
  }

  function HoldStep(l: Loop, e: Event): Loop {
    if Reported(l, e) then Step(l, e) else l
  }

  function AfterHolds(events: seq<Event>, n: nat): Loop
    requires n <= |events|
  {
    Run(HoldStep, LAUNCHED, events, n)
  }

  /** A start from a hold is the held key's own and its release will end it, unless the
      binding was changed under that key. */
  predicate IsHeld(l: Loop, origin: Origin) {
    origin.Hold? ==>
      origin.number in l.w.cutShort
      || (origin.number == l.w.holds && l.g.down && l.g.startedSession && !l.g.deferredStart)
  }

  predicate HoldsAgree(l: Loop) {
    && ReportsRelease(l.g)
    && (Live(l.w.session) ==> IsHeld(l, l.w.from))
    && (l.c.startPending ==> l.c.generation in l.w.asked && IsHeld(l, l.w.asked[l.c.generation].origin))
    && (forall number :: number in l.w.cutShort ==> number <= l.w.holds && (l.g.down ==> number != l.w.holds))
  }

  lemma PressKeepsHolds(l: Loop, e: Event)
    requires Valid(l) && HoldsAgree(l) && e.Press? && Reported(l, e) && Enabled(l, e)
    ensures HoldsAgree(OnPress(l, e.mode, e.ready, e.after))
  {
  }

  lemma AnswerKeepsHolds(l: Loop, e: Event)
    requires Valid(l) && HoldsAgree(l) && e.MicrophoneAnswered? && Enabled(l, e)
    ensures HoldsAgree(Answer(l, e.generation, e.granted, e.after))
  {
  }

  lemma HoldStepKeepsHolds(l: Loop, e: Event)
    requires Valid(l) && HoldsAgree(l)
    ensures HoldsAgree(HoldStep(l, e))
  {
    if Reported(l, e) && Enabled(l, e) {
      if e.Press? {
        PressKeepsHolds(l, e);
      } else if e.MicrophoneAnswered? {
        AnswerKeepsHolds(l, e);
      }
    }
  }

  predicate HeldValid(l: Loop) {
    Valid(l) && HoldsAgree(l)
  }

  lemma HoldStepKeepsValid(l: Loop, e: Event)
    requires HeldValid(l)
    ensures HeldValid(HoldStep(l, e))
  {
    StepKeepsValid(l, e);
    HoldStepKeepsHolds(l, e);
  }

  lemma HoldsKeepValid(events: seq<Event>, n: nat)
    requires n <= |events|
    ensures HeldValid(AfterHolds(events, n))
  {
    forall l, e | HeldValid(l) ensures HeldValid(HoldStep(l, e)) {
      HoldStepKeepsValid(l, e);
    }
    RunKeeps(HoldStep, LAUNCHED, events, 0, n, HeldValid);
  }

  predicate StartsFrom(l: Loop, hold: nat) {
    || (l.g.deferredStart && l.w.holds == hold)
    || (Live(l.w.session) && l.w.from == Hold(hold))
    || (l.c.startPending && l.c.generation in l.w.asked && l.w.asked[l.c.generation].origin == Hold(hold))
  }

  /** A hold that is over, and was not cut short by a rebinding. */
  predicate IsOver(l: Loop, hold: nat) {
    hold !in l.w.cutShort && (hold < l.w.holds || (hold == l.w.holds && !l.g.down))
  }

  lemma OverStaysOver(l: Loop, e: Event, hold: nat)
    requires HeldValid(l) && IsOver(l, hold)
    ensures IsOver(HoldStep(l, e), hold)
  {
  }

  /** Once the key of a hold is up, in no later state is a start of that hold deferred or
      pending, nor a session it began still live. */
  lemma NothingOutlivesTheHold(events: seq<Event>, m: nat, n: nat)
    requires m < n <= |events| && events[m].Release?
    requires Reported(AfterHolds(events, m), events[m]) && Enabled(AfterHolds(events, m), events[m])
    requires AfterHolds(events, m).g.down
    ensures !StartsFrom(AfterHolds(events, n), AfterHolds(events, m).w.holds)
  {
    var hold := AfterHolds(events, m).w.holds;
    HoldsKeepValid(events, m);
    HoldsKeepValid(events, m + 1);
    HoldsKeepValid(events, n);
    assert IsOver(AfterHolds(events, m + 1), hold);
    var kept := (l: Loop) => HeldValid(l) && IsOver(l, hold);
    forall l, e | kept(l) ensures kept(HoldStep(l, e)) {
      HoldStepKeepsValid(l, e);
      OverStaysOver(l, e, hold);
    }
    RunKeeps(HoldStep, LAUNCHED, events, m + 1, n, kept);
  }

  /** When a session is active after the release of a hold that found none all the same:
      exactly when one was active before it and either the hold's own start was still
      deferred, so that the session is someone else's, or a cancel had come meanwhile. */
  lemma ActiveAfterReleaseIff(events: seq<Event>, n: nat, e: Event)
    requires n <= |events| && e.Release? && e.mode == PushToTalk && Enabled(After(events, n), e)
    requires After(events, n).g.down && After(events, n).w.foundIdle
    ensures var l := After(events, n);
            Active(Step(l, e)) <==> Active(l) && (l.g.deferredStart || l.w.cancelled)
  {
    RunKeepsValid(events, n);
  }

  /** In the other modes: a toggle outlives its release, and a hybrid session does when
      its key was held for no more than the hold time or did not start it. */
  lemma ReleaseInOtherModes(l: Loop, e: Event)
    requires e.Release? && e.mode != PushToTalk && Enabled(l, e)
    ensures var held := if e.heldMs >= 0 then e.heldMs else e.elapsedMs;
            Active(Step(l, e)) <==>
              Active(l) && (e.mode == Toggle || held <= HYBRID_HOLD_MS || !l.g.startedSession)
    ensures l.g.startedSession ==> !Step(l, e).g.deferredStart
  {
  }

  /** Such a session: another client starts one inside the misfire window. */
  lemma AnotherClientsSessionOutlivesTheHold()
    ensures exists events: seq<Event> ::
              && |events| == 4 && events[3].Release?
              && AfterHolds(events, 3).g.down && AfterHolds(events, 3).w.foundIdle
              && Live(AfterHolds(events, 4).w.session)
  {
    var events := [Press(PushToTalk, true, Idle), StartListening(true),
                   MicrophoneAnswered(1, true, Starting), Release(PushToTalk, 100, 100, Idle)];
    RunOfFour(HoldStep, LAUNCHED, events[0], events[1], events[2], events[3]);
    assert events == [events[0], events[1], events[2], events[3]];
    assert AfterHolds(events, 4).w.session == Starting;
  }

  // ----- The two machines themselves

  datatype Signal = Nothing | ToggleRequested

  class ShortcutGesture {
    var down: bool
    var startedSession: bool
    var releaseSeen: bool
    var pressedWhileDown: bool
    var pushToTalkStart: bool

    function View(): Gesture
      reads this
    {
      Gesture(down, startedSession, releaseSeen, pressedWhileDown, pushToTalkStart)
    }

    constructor ()
      ensures View() == AT_LAUNCH
    {
      down, startedSession, releaseSeen, pressedWhileDown, pushToTalkStart := false, false, false, false, false;
    }

    method Press(active: bool, mode: Mode) returns (signal: Signal)
      modifies this
      ensures var g := Pressed(old(View()), active);
              if Ignores(old(View())) then View() == old(View()) && signal == Nothing
              else if Defers(g, mode) then View() == g.(deferredStart := true) && signal == Nothing
              else View() == g && signal == ToggleRequested
    {
      if down && releaseSeen {
        return Nothing;
      }
      if down {
        pressedWhileDown := true;
      }
      down := true;
      startedSession := !active;
      if startedSession && (releaseSeen || !pressedWhileDown) && mode == PushToTalk {
        pushToTalkStart := true;
        return Nothing;
      }
      return ToggleRequested;
    }

    method Release(active: bool, mode: Mode, heldMs: int, elapsedMs: int) returns (stops: bool)
      modifies this
      ensures View() == Released(old(View()))
      ensures stops <==> Ends(old(View()), active, mode, heldMs, elapsedMs)
    {
      down := false;
      releaseSeen := true;
      if !startedSession {
        return false;
      }
      startedSession := false;
      var deferredStartPending := pushToTalkStart;
      pushToTalkStart := false;
      match mode {
        case Toggle => return false;
        case PushToTalk => return !deferredStartPending && active;
        case Hybrid =>
          var held := if heldMs >= 0 then heldMs else elapsedMs;
          return active && held > HYBRID_HOLD_MS;
      }
    }

    method Forget()
      modifies this
      ensures View() == AT_LAUNCH
    {
      pushToTalkStart := false;
      down := false;
      startedSession := false;
      releaseSeen := false;
      pressedWhileDown := false;
    }

    method DropDeferredStart()
      modifies this
      ensures View() == old(View()).(deferredStart := false)
    {
      pushToTalkStart := false;
    }

    method ForgetStartedSession()
      modifies this
      ensures View() == old(View()).(startedSession := false)
    {
      startedSession := false;
    }
  }

  /** `world` is what the controller drives and asks: the session, the file transcription
      and the microphone questions it has out. */
  class ApplicationController {
    const gesture: ShortcutGesture
    var microphoneStartPending: bool
    var microphoneStartGeneration: nat
    var quitting: bool
    var world: World

    function View(): Loop
      reads this, gesture
    {
      Loop(gesture.View(), Controller(microphoneStartPending, microphoneStartGeneration, quitting), world)
    }

    constructor ()
      ensures View() == LAUNCHED && fresh(gesture)
    {
      gesture := new ShortcutGesture();
      microphoneStartPending, microphoneStartGeneration, quitting := false, 0, false;
      world := LAUNCHED.w;
    }

    predicate SessionActive()
      reads this
      ensures SessionActive() <==> Live(world.session) || microphoneStartPending
    {
      world.session in {Starting, Listening, Paused} || microphoneStartPending
    }

    method FileTranscriptionRefused() returns (refused: bool)
      ensures refused <==> Refusal(View())
    {
      return world.transcribing || (world.session != Idle && world.session != Error) || microphoneStartPending;
    }

    method StartWithMicrophone(request: Request)
      modifies this
      ensures View() == AskMicrophone(old(View()), request)
    {
      if quitting || world.transcribing || microphoneStartPending {
        return;
      }
      microphoneStartGeneration := microphoneStartGeneration + 1;
      microphoneStartPending := true;
      world := world.(asked := world.asked[microphoneStartGeneration := request]);
    }

    method MicrophoneAccess(generation: nat, granted: bool, after: SessionState)
      requires generation in world.asked
      modifies this
      ensures View() == Answer(old(View()), generation, granted, after)
    {
      var request := world.asked[generation];
      world := world.(asked := world.asked - {generation});
      if generation != microphoneStartGeneration {
        return;
      }
      microphoneStartPending := false;
      if granted {
        var begins := Live(after) && !Live(world.session);
        world := world.(session := after, from := if begins then request.origin else world.from);
      }
    }

    method DropPending()
      modifies this, gesture
      ensures View() == DropPendingStart(old(View()))
    {
      gesture.DropDeferredStart();
      microphoneStartGeneration := microphoneStartGeneration + 1;
      microphoneStartPending := false;
    }

    method StopDictation(after: SessionState)
      modifies this, gesture
      ensures View() == StopSession(old(View()), after)
    {
      DropPending();
      world := world.(session := after, stops := world.stops + 1);
    }

    method CancelDictation(after: SessionState)
      modifies this, gesture
      ensures View() == CancelSession(old(View()), after)
    {
      DropPending();
      gesture.ForgetStartedSession();
      world := world.(session := after, stops := world.stops + 1, cancelled := true);
    }

    method QuitAll()
      modifies this, gesture
      ensures View() == QuitApplication(old(View()))
    {
      if quitting {
        return;
      }
      quitting := true;
      DropPending();
      world := world.(session := Idle, stops := world.stops + 1);
    }

    method ToggleDictation(ready: bool, origin: Origin, after: SessionState)
      modifies this, gesture
      ensures View() == ToggleWith(old(View()), ready, origin, after)
    {
      if SessionActive() {
        StopDictation(after);
        return;
      }
      if !ready {
        return;
      }
      StartWithMicrophone(Request(true, origin, world.stops));
    }

    method StartDictation(ready: bool, origin: Origin, since: nat)
      modifies this
      ensures View() == StartListeningWith(old(View()), ready, origin, since)
    {
      if !ready {
        return;
      }
      StartWithMicrophone(Request(false, origin, since));
    }

    method ShortcutPressed(mode: Mode, ready: bool, after: SessionState)
      modifies this, gesture
      ensures View() == OnPress(old(View()), mode, ready, after)
    {
      ghost var held := Held(View());
      var active := SessionActive();
      if gesture.down && gesture.releaseSeen {
        var _ := gesture.Press(active, mode);
        return;
      }
      var signal := gesture.Press(active, mode);
      world := world.(holds := world.holds + 1, foundIdle := !active, pressedAt := world.stops, cancelled := false);
      assert world == held.w;
      if signal == ToggleRequested {
        assert View() == held;
        ToggleDictation(ready, Hold(world.holds), after);
      }
    }

    method ShortcutReleased(mode: Mode, heldMs: int, elapsedMs: int, after: SessionState)
      modifies this, gesture
      ensures View() == OnRelease(old(View()), mode, heldMs, elapsedMs, after)
    {
      var stops := gesture.Release(SessionActive(), mode, heldMs, elapsedMs);
      if stops {
        StopDictation(after);
      }
    }

    method MisfireWindowOver(ready: bool)
      modifies this, gesture
      ensures View() == OnDeferredStart(old(View()), ready)
    {
      gesture.DropDeferredStart();
      StartDictation(ready, Hold(world.holds), world.pressedAt);
    }

    method BindingChanged()
      modifies this, gesture
      ensures View() == OnRebind(old(View()))
    {
      if gesture.down {
        world := world.(cutShort := world.cutShort + {world.holds});
      }
      gesture.Forget();
    }
  }
}

/** What the shortcut and the controller do when they are let: each press, toggle and stop
    told by its events. */
module DictationFlows {
  import opened DictationControl

  /** Nothing keeps a session from being asked for. */
  predicate CanStart(l: Loop) {
    !Active(l) && !l.w.transcribing && !l.c.quitting
  }

  /** A question is out, under a generation of its own, for a start from there. */
  predicate HasAsked(l: Loop, next: Loop, origin: Origin) {
    && next.c.startPending && next.c.generation == l.c.generation + 1
    && next.c.generation in next.w.asked && next.w.asked[next.c.generation].origin == origin
    && next.w.session == l.w.session && next.w.stops == l.w.stops
  }

  /** Whose grant leaves the session as it was told to be, and whose refusal leaves it alone. */
  lemma GrantStarts(l: Loop, after: SessionState)
    requires l.c.startPending && l.c.generation in l.w.asked && !Live(l.w.session)
    requires Enabled(l, MicrophoneAnswered(l.c.generation, true, after))
    ensures var granted := Step(l, MicrophoneAnswered(l.c.generation, true, after));
            && granted.w.session == after && !granted.c.startPending
            && (Live(after) ==> granted.w.from == l.w.asked[l.c.generation].origin)
    ensures var denied := Step(l, MicrophoneAnswered(l.c.generation, false, after));
            denied.w.session == l.w.session && !denied.c.startPending
  {
  }

  /** A late answer to a question no longer asked does nothing to the session. */
  lemma LateGrantDoesNothing(l: Loop, generation: nat, granted: bool, after: SessionState)
    requires generation != l.c.generation
    ensures var next := Step(l, MicrophoneAnswered(generation, granted, after));
            next.w.session == l.w.session && next.c == l.c && next.g == l.g
  {
  }

  predicate IsReady(e: Event) {
    match e
    case Press(_, ready, _) => ready
    case DeferredStart(ready) => ready
    case ToggleSession(ready, _) => ready
    case StartListening(ready) => ready
    case _ => true
  }

  /** With setup not completed, nothing asks for the microphone. */
  lemma UnreadyAsksNothing(l: Loop, e: Event)
    requires !IsReady(e)
    ensures Step(l, e).w.asked == l.w.asked
    ensures Step(l, e).c.startPending ==> l.c.startPending
  {
  }

  /** In every state in which one can, a toggle or a start from any client asks for the
      microphone, and with the grant a session is live. */
  lemma ToggleStarts(l: Loop, e: Event)
    requires CanStart(l) && Enabled(l, e) && IsReady(e) && (e.ToggleSession? || e.StartListening?)
    ensures var asked := Step(l, e);
            && HasAsked(l, asked, Other) && asked.g == l.g
            && (AtRest(l.w.session) ==> BecomesLive(asked, Other))
  {
    var asked := Step(l, e);
    if AtRest(l.w.session) {
      GrantIsLive(asked);
    }
  }

  /** The grant of the question out makes the session live. */
  predicate BecomesLive(asked: Loop, origin: Origin) {
    var grant := MicrophoneAnswered(asked.c.generation, true, Starting);
    Enabled(asked, grant) && Live(Step(asked, grant).w.session) && Step(asked, grant).w.from == origin
  }

  lemma GrantIsLive(asked: Loop)
    requires asked.c.startPending && asked.c.generation in asked.w.asked && AtRest(asked.w.session)
    ensures BecomesLive(asked, asked.w.asked[asked.c.generation].origin)
  {
    GrantStarts(asked, Starting);
  }

  /** So does a press, except at push-to-talk on a desktop that may report releases. */
  lemma PressStarts(l: Loop, e: Event)
    requires CanStart(l) && Enabled(l, e) && e.Press? && e.ready && !(l.g.down && l.g.releaseSeen)
    requires e.mode != PushToTalk || (!l.g.releaseSeen && (l.g.pressedWhileDown || l.g.down))
    ensures var asked := Step(l, e);
            && HasAsked(l, asked, Hold(asked.w.holds)) && asked.w.holds == l.w.holds + 1
            && asked.g.down && asked.g.startedSession && asked.g.deferredStart == l.g.deferredStart
            && (AtRest(l.w.session) ==> BecomesLive(asked, Hold(asked.w.holds)))
  {
    var asked := Step(l, e);
    if AtRest(l.w.session) {
      GrantIsLive(asked);
    }
  }

  /** There it waits, and asks once the misfire window is over. */
  lemma HeldPressStarts(l: Loop, e: Event)
    requires CanStart(l) && Enabled(l, e) && e.Press? && !(l.g.down && l.g.releaseSeen)
    requires e.mode == PushToTalk && (l.g.releaseSeen || (!l.g.pressedWhileDown && !l.g.down))
    ensures var waiting := Step(l, e);
            var asked := Step(waiting, DeferredStart(true));
            && waiting.g.deferredStart && waiting.c == l.c && waiting.w.asked == l.w.asked
            && HasAsked(l, asked, Hold(waiting.w.holds)) && !asked.g.deferredStart
            && (AtRest(l.w.session) ==> BecomesLive(asked, Hold(waiting.w.holds)))
  {
    var waiting := Step(l, e);
    var asked := Step(waiting, DeferredStart(true));
    if AtRest(l.w.session) {
      GrantIsLive(asked);
    }
  }

  /** Auto-repeat of a key whose releases are reported is no press at all. */
  lemma RepeatIsIgnored(l: Loop, e: Event)
    requires e.Press? && l.g.down && l.g.releaseSeen
    ensures Step(l, e) == l
  {
  }

  predicate IsStopped(l: Loop, next: Loop, after: SessionState) {
    && next.w.session == after && !next.c.startPending && !next.g.deferredStart && next.w.stops == l.w.stops + 1
  }

  /** A session that is active is ended by a stop, a cancel, a toggle or a press, set up or
      not, and with it every start that waits. */
  lemma ActiveIsStopped(l: Loop, e: Event)
    requires Active(l) && Enabled(l, e)
    requires e.StopListening? || e.Cancel? || e.ToggleSession?
             || (e.Press? && !(l.g.down && l.g.releaseSeen))
    ensures IsStopped(l, Step(l, e), e.after)
    ensures e.Cancel? || e.Press? ==> !Step(l, e).g.startedSession
  {
  }

  /** A stop or a cancel also drops what waits where none is active. */
  lemma WaitingIsDropped(l: Loop, e: Event)
    requires Enabled(l, e) && (e.StopListening? || e.Cancel?)
    ensures IsStopped(l, Step(l, e), e.after)
    ensures Step(l, e).g.startedSession <==> l.g.startedSession && !e.Cancel?
  {
  }

  lemma QuitEndsAll(l: Loop)
    requires !l.c.quitting
    ensures IsStopped(l, Step(l, Quit), Idle) && Step(l, Quit).c.quitting
    ensures Step(Step(l, Quit), Quit) == Step(l, Quit)
  {
  }

  /** While files are transcribed, after quitting, or with a question already out, nothing
      more is asked. */
  lemma RefusedStartsAskNothing(l: Loop, e: Event)
    requires l.w.transcribing || l.c.quitting || l.c.startPending
    ensures Step(l, e).w.asked.Keys <= l.w.asked.Keys
  {
  }

  /** Files are transcribed exactly where no session is under way, none is asked for and
      none are being transcribed already. */
  lemma FilesAreTranscribedIff(l: Loop)
    ensures Step(l, TranscribeFiles) ==
              if !l.w.transcribing && (l.w.session == Idle || l.w.session == Error) && !l.c.startPending
              then l.(w := l.w.(transcribing := true)) else l
    ensures Step(l, FilesTranscribed) == l.(w := l.w.(transcribing := false))
  {
  }

  /** The session moves on by itself, and nothing else with it. */
  lemma SessionMovesOn(l: Loop, after: SessionState)
    requires Enabled(l, SessionMoves(after))
    ensures Step(l, SessionMoves(after)) == l.(w := l.w.(session := after))
  {
  }

  /** A release is remembered for good, until the binding changes and all is forgotten. */
  lemma ReleaseIsRemembered(l: Loop, e: Event)
    requires Enabled(l, e) && e.Release?
    ensures var next := Step(l, e);
            !next.g.down && next.g.releaseSeen && !next.g.startedSession
            && next.g.pressedWhileDown == l.g.pressedWhileDown
    ensures Step(l, Rebind).g == AT_LAUNCH && Step(l, Rebind).c == l.c && Step(l, Rebind).w.session == l.w.session
  {
  }
}
