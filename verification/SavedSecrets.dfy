/** Which secrets are believed saved, kept in step with storage by worker reads that
    see each secret at their own instant and writes answered after they land. */
module SavedSecrets {
  import opened Runs

  datatype Secret = OpenAiApiKey | CliproxyApiKey | SpeechEndpointKey | RefinementEndpointKey

  /** What the accounts object itself remembers. */
  datatype Ledger = Ledger(
    saved: map<Secret, bool>,   // what is known of each secret
    written: set<Secret>,       // written since the newest read began
    lastRead: nat,              // the newest read's number
    saving: map<Secret, nat>)   // the request each field waits for

  const NOTHING_KNOWN: Ledger := Ledger(map[], {}, 0, map[])

  function BeginRead(l: Ledger): Ledger {
    l.(lastRead := l.lastRead + 1, written := {})
  }

  /** A read's findings, except for secrets written since it began; a read that a
      newer one replaced says nothing. */
  function TakeRead(l: Ledger, number: nat, found: map<Secret, bool>): Ledger {
    if number != l.lastRead then l
    else l.(saved := l.saved + (found - l.written))
  }

  function AskSave(l: Ledger, secret: Secret, request: nat): Ledger {
    l.(saving := l.saving[secret := request])
  }

  predicate IsOwn(l: Ledger, secret: Secret, request: nat) {
    secret in l.saving && l.saving[secret] == request
  }

  /** Storage answered a request: an own one through the field that asked, any other
      through what it tells of the secret. */
  function Finish(l: Ledger, secret: Secret, request: nat, cleared: bool, stored: bool): Ledger {
    var saved :=
      if stored then l.saved[secret := !cleared]
      else if !IsOwn(l, secret, request) && cleared then l.saved[secret := false]
      else l.saved;
    l.(saving := l.saving - {secret}, written := l.written + {secret}, saved := saved)
  }

  // ----- The ledger among its storage, readers and writers

  /** A save of a secret, or a clear. */
  datatype Request = Request(number: nat, save: bool)

  /** Storage writes one request of a secret at a time; another waits its turn, replaces
      any other that waits, and answers for the one being written too. `landed` remembers
      what storage was left with by what was written of a secret since its last answer,
      and `misled` the secrets a refusal left known for what they are not, until an
      answer or a newer read tells of them again. */
  datatype World = World(
    ledger: Ledger,
    kept: set<Secret>,            // the secrets a reader finds
    writing: map<Secret, Request>,
    waiting: map<Secret, Request>,
    landed: map<Secret, bool>,
    inFlight: map<nat, map<Secret, bool>>,  // what each worker read has seen so far
    misled: set<Secret>)

  function Launched(kept: set<Secret>): World {
    World(NOTHING_KNOWN, kept, map[], map[], map[], map[], {})
  }

  datatype Event =
    | StartRead
    | See(number: nat, secret: Secret)
    | AnswerRead(number: nat)
    | Ask(secret: Secret, request: Request, own: bool)
    | Take(secret: Secret, shows: bool)        // storage takes the request being written
    | Supersede(secret: Secret)                // and, when another waits, goes on to that one
    | Answer(secret: Secret, stored: bool)     // or answers it
    | Report(secret: Secret)                   // an earlier change is saved at last: request 0

  predicate Enabled(w: World, e: Event) {
    match e
    case StartRead => true
    case See(number, secret) => number in w.inFlight && secret !in w.inFlight[number]
    case AnswerRead(number) => number in w.inFlight
    case Ask(_, _, _) => true
    case Take(secret, _) => secret in w.writing
    case Supersede(secret) => secret in w.writing && secret in w.waiting
    case Answer(secret, _) => secret in w.writing && secret !in w.waiting
    case Report(secret) => secret !in w.writing
  }

  /** Storage left holding the secret or not, for whatever reader comes. */
  function Leave(w: World, secret: Secret, present: bool): World {
    w.(kept := if present then w.kept + {secret} else w.kept - {secret}, landed := w.landed[secret := present])
  }

  /** A clear hides its key at once, whatever becomes of it. */
  function AskStorage(w: World, secret: Secret, request: Request): World {
    var asked := if secret in w.writing then w.(waiting := w.waiting[secret := request])
                 else w.(writing := w.writing[secret := request]);
    if request.save then asked else Leave(asked, secret, false)
  }

  /** A save shows at once unless a marker still hides the key; a clear takes it away. */
  function TakeWriting(w: World, secret: Secret, shows: bool): World
    requires secret in w.writing
  {
    var save := w.writing[secret].save;
    if save && !shows then w else Leave(w, secret, save)
  }

  /** The request being written is done with, taken or not, and says nothing; a clear that
      was refused leaves its key hidden. */
  function GoOn(w: World, secret: Secret): World
    requires secret in w.writing && secret in w.waiting
  {
    var next := w.(writing := w.writing[secret := w.waiting[secret]], waiting := w.waiting - {secret});
    if w.writing[secret].save then next else Leave(next, secret, false)
  }

  /** A refusal misleads in two ways. The field's own clear leaves a key it believed saved
      hidden but believed. A refused save says nothing of an earlier request it answers
      for, when storage had taken that one and the field believes otherwise. */
  predicate Misleads(w: World, secret: Secret)
    requires secret in w.writing
  {
    var l, request := w.ledger, w.writing[secret];
    secret in l.saved
    && if request.save then secret in w.landed && w.landed[secret] != l.saved[secret]
       else IsOwn(l, secret, request.number) && l.saved[secret]
  }

  /** What storage holds once it answered: the request when it took it, nothing behind the
      marker of a clear it refused, what it held before a save it refused. */
  function KeptAfter(w: World, secret: Secret, stored: bool): set<Secret>
    requires secret in w.writing
  {
    if !w.writing[secret].save then w.kept - {secret}
    else if stored then w.kept + {secret}
    else w.kept
  }

  /** Answered, a secret is known for what it is unless that misleads; a refused save that
      answers for nothing taken tells nothing new. */
  function MisledAfter(w: World, secret: Secret, stored: bool): set<Secret>
    requires secret in w.writing
  {
    if !stored && Misleads(w, secret) then w.misled + {secret}
    else if !stored && w.writing[secret].save && secret !in w.landed then w.misled
    else w.misled - {secret}
  }

  function Settle(w: World, secret: Secret, stored: bool): World
    requires secret in w.writing
  {
    var request := w.writing[secret];
    w.(ledger := Finish(w.ledger, secret, request.number, !request.save, stored),
       kept := KeptAfter(w, secret, stored), misled := MisledAfter(w, secret, stored),
       writing := w.writing - {secret}, landed := w.landed - {secret})
  }

  /** A read of the newest number tells of what it found and nobody wrote since. */
  function Told(l: Ledger, number: nat, found: map<Secret, bool>): set<Secret> {
    if number == l.lastRead then found.Keys - l.written else {}
  }

  /** An event that cannot come changes nothing. */
  function Step(w: World, e: Event): World {
    if !Enabled(w, e) then w
    else
      match e
      case StartRead =>
        var l := BeginRead(w.ledger);
        w.(ledger := l, inFlight := w.inFlight[l.lastRead := map[]])
      case See(number, secret) =>
        w.(inFlight := w.inFlight[number := w.inFlight[number][secret := secret in w.kept]])
      case AnswerRead(number) =>
        w.(ledger := TakeRead(w.ledger, number, w.inFlight[number]), inFlight := w.inFlight - {number},
           misled := w.misled - Told(w.ledger, number, w.inFlight[number]))
      case Ask(secret, request, own) =>
        AskStorage(if own then w.(ledger := AskSave(w.ledger, secret, request.number)) else w, secret, request)
      case Take(secret, shows) => TakeWriting(w, secret, shows)
      case Supersede(secret) => GoOn(w, secret)
      case Answer(secret, stored) => Settle(w, secret, stored)
      case Report(secret) =>
        w.(ledger := Finish(w.ledger, secret, 0, secret !in w.kept, true), misled := w.misled - {secret})
  }

  /** What is known of a secret is what storage holds exactly unless it is misled, or
      something was written of it that is still to be told. */
  predicate Current(w: World, secret: Secret) {
    && (secret in w.misled ==> secret in w.ledger.saved)
    && (secret in w.ledger.saved ==>
          secret in w.landed || (w.ledger.saved[secret] == (secret in w.kept) <==> secret !in w.misled))
    && (secret in w.landed ==> secret in w.writing && w.landed[secret] == (secret in w.kept))
    && (secret in w.waiting ==> secret in w.writing)
  }

  /** What the newest read has seen of a secret nobody wrote since. */
  predicate Seen(w: World, secret: Secret) {
    var number := w.ledger.lastRead;
    number in w.inFlight && secret in w.inFlight[number] && secret !in w.ledger.written ==>
      secret in w.landed || w.inFlight[number][secret] == (secret in w.kept)
  }

  ghost predicate Valid(w: World) {
    && (forall secret :: Current(w, secret))
    && (forall secret :: Seen(w, secret))
    && (forall number :: number in w.inFlight ==> number <= w.ledger.lastRead)
  }

  /** Nothing is outstanding. */
  predicate AtRest(w: World) {
    w.writing == map[] && w.inFlight == map[]
  }

  ghost predicate Agrees(w: World) {
    forall secret :: secret in w.ledger.saved ==> w.ledger.saved[secret] == (secret in w.kept)
  }

  lemma ReadKeepsValid(w: World, e: Event)
    requires Valid(w) && Enabled(w, e) && (e.StartRead? || e.See? || e.AnswerRead?)
    ensures Valid(Step(w, e))
  {
    var next := Step(w, e);
    forall secret ensures Current(next, secret) && Seen(next, secret) {
      assert Current(w, secret) && Seen(w, secret);
    }
  }

  lemma LeaveKeepsValid(w: World, secret: Secret, present: bool)
    requires Valid(w) && secret in w.writing
    ensures Valid(Leave(w, secret, present))
  {
    forall other ensures Current(Leave(w, secret, present), other) && Seen(Leave(w, secret, present), other) {
      assert Current(w, other) && Seen(w, other);
    }
  }

  /** What waits, what is written and what a field waits for are no part of what is known. */
  lemma AskKeepsValid(w: World, secret: Secret, request: Request, own: bool)
    requires Valid(w)
    ensures Valid(Step(w, Ask(secret, request, own)))
  {
    var before := if own then w.(ledger := AskSave(w.ledger, secret, request.number)) else w;
    var asked := if secret in w.writing then before.(waiting := w.waiting[secret := request])
                 else before.(writing := w.writing[secret := request]);
    forall other ensures Current(asked, other) && Seen(asked, other) {
      assert Current(w, other) && Seen(w, other);
    }
    LeaveKeepsValid(asked, secret, false);
  }

  lemma GoOnKeepsValid(w: World, secret: Secret)
    requires Valid(w) && Enabled(w, Supersede(secret))
    ensures Valid(GoOn(w, secret))
  {
    var next := w.(writing := w.writing[secret := w.waiting[secret]], waiting := w.waiting - {secret});
    forall other ensures Current(next, other) && Seen(next, other) {
      assert Current(w, other) && Seen(w, other);
    }
    LeaveKeepsValid(next, secret, false);
  }

  lemma SettleKeepsValid(w: World, secret: Secret, stored: bool)
    requires Valid(w) && Enabled(w, Answer(secret, stored))
    ensures Valid(Settle(w, secret, stored))
  {
    var next := Settle(w, secret, stored);
    assert Current(w, secret);
    forall other ensures Current(next, other) && Seen(next, other) {
      assert Current(w, other) && Seen(w, other);
    }
  }

  lemma ReportKeepsValid(w: World, secret: Secret)
    requires Valid(w) && Enabled(w, Report(secret))
    ensures Valid(Step(w, Report(secret)))
  {
    var next := Step(w, Report(secret));
    forall other ensures Current(next, other) && Seen(next, other) {
      assert Current(w, other) && Seen(w, other);
    }
  }

  lemma StepKeepsValid(w: World, e: Event)
    requires Valid(w)
    ensures Valid(Step(w, e))
  {
    if Enabled(w, e) {
      match e
      case Ask(secret, request, own) => AskKeepsValid(w, secret, request, own);
      case Take(secret, _) => LeaveKeepsValid(w, secret, w.writing[secret].save);
      case Supersede(secret) => GoOnKeepsValid(w, secret);
      case Answer(secret, stored) => SettleKeepsValid(w, secret, stored);
      case Report(secret) => ReportKeepsValid(w, secret);
      case _ => ReadKeepsValid(w, e);
    }
  }

  lemma RunKeepsValid(kept: set<Secret>, events: seq<Event>, n: nat)
    requires n <= |events|
    ensures Valid(Run(Step, Launched(kept), events, n))
  {
    forall w, e | Valid(w) ensures Valid(Step(w, e)) {
      StepKeepsValid(w, e);
    }
    assert forall secret :: Current(Launched(kept), secret) && Seen(Launched(kept), secret);
    RunKeeps(Step, Launched(kept), events, 0, n, Valid);
  }

  lemma CurrentAtRest(w: World)
    requires Valid(w) && AtRest(w)
    ensures forall secret :: secret in w.ledger.saved ==>
              (w.ledger.saved[secret] == (secret in w.kept) <==> secret !in w.misled)
    ensures Agrees(w) <==> w.misled == {}
  {
    forall secret
      ensures secret in w.misled ==> secret in w.ledger.saved
      ensures secret in w.ledger.saved ==>
                (w.ledger.saved[secret] == (secret in w.kept) <==> secret !in w.misled)
    {
      assert Current(w, secret);
    }
  }

  /** Whatever storage held at launch and however reads, overlapping writes and refusals
      come: with nothing outstanding a secret known is known as storage has it, except
      exactly those a refusal misled. */
  lemma AgreesAtRestIff(kept: set<Secret>, events: seq<Event>, n: nat)
    requires n <= |events| && AtRest(Run(Step, Launched(kept), events, n))
    ensures var w := Run(Step, Launched(kept), events, n);
            && (forall secret :: secret in w.ledger.saved ==>
                  (w.ledger.saved[secret] == (secret in w.kept) <==> secret !in w.misled))
            && (Agrees(w) <==> w.misled == {})
  {
    RunKeepsValid(kept, events, n);
    CurrentAtRest(Run(Step, Launched(kept), events, n));
  }

  /** An answer that misleads. */
  predicate MisleadsBy(w: World, e: Event) {
    e.Answer? && !e.stored && Enabled(w, e) && Misleads(w, e.secret)
  }

  predicate MisledAt(kept: set<Secret>, events: seq<Event>, k: nat)
    requires k < |events|
  {
    MisleadsBy(Run(Step, Launched(kept), events, k), events[k])
  }

  /** Nothing but such an answer misleads: what is known at rest is what storage holds in
      every run that has none, and so in every run in which storage refuses nothing. */
  lemma {:induction false} AgreesUnlessMisled(kept: set<Secret>, events: seq<Event>, n: nat)
    requires n <= |events| && forall k :: 0 <= k < n ==> !MisledAt(kept, events, k)
    ensures Run(Step, Launched(kept), events, n).misled == {}
    ensures AtRest(Run(Step, Launched(kept), events, n)) ==> Agrees(Run(Step, Launched(kept), events, n))
  {
    if n > 0 {
      AgreesUnlessMisled(kept, events, n - 1);
      var before := Run(Step, Launched(kept), events, n - 1);
      assert !MisledAt(kept, events, n - 1);
      var after := Step(before, events[n - 1]);
      forall secret ensures secret !in after.misled {
      }
    }
    if AtRest(Run(Step, Launched(kept), events, n)) {
      AgreesAtRestIff(kept, events, n);
    }
  }

  /** With writes that storage takes, all that is known at rest is what storage holds. */
  lemma AgreesAtRest(kept: set<Secret>, events: seq<Event>, n: nat)
    requires n <= |events| && forall e :: e in events ==> e.Answer? ==> e.stored
    ensures AtRest(Run(Step, Launched(kept), events, n)) ==> Agrees(Run(Step, Launched(kept), events, n))
  {
    assert forall k :: 0 <= k < n ==> events[k] in events;
    AgreesUnlessMisled(kept, events, n);
  }

  /** A read never overwrites a secret written since it began. */
  lemma ReadSparesWrittenSecrets(l: Ledger, number: nat, found: map<Secret, bool>, secret: Secret)
    requires secret in l.written
    ensures secret in TakeRead(l, number, found).saved <==> secret in l.saved
    ensures secret in l.saved ==> TakeRead(l, number, found).saved[secret] == l.saved[secret]
  {
  }

  // ----- What a refusal does

  /** Of a state in which all agrees, or would but for what was just written: it agrees
      after a refusal exactly when that does not mislead. */
  lemma RefusalAgreesIff(w: World, secret: Secret)
    requires Valid(w) && secret in w.writing && w.misled == {}
    requires forall other :: other in w.landed ==> other == secret
    ensures Agrees(Settle(w, secret, false)) <==> !Misleads(w, secret)
  {
    var after := Settle(w, secret, false);
    assert Current(w, secret);
    forall other | other != secret
      ensures other in after.ledger.saved ==> after.ledger.saved[other] == (other in after.kept)
    {
      assert Current(w, other);
    }
    if secret in after.ledger.saved && Misleads(w, secret) {
      assert after.ledger.saved[secret] != (secret in after.kept);
    }
  }

  /** Of any state in which all agrees, a refused clear keeps it so exactly when the field
      did not ask for it itself or did not believe the secret saved. */
  lemma RefusedClearAgreesIff(w: World, secret: Secret)
    requires Agrees(w) && secret in w.writing && !w.writing[secret].save
    ensures Agrees(Settle(w, secret, false)) <==> !Misleads(w, secret)
  {
    var after := Settle(w, secret, false);
    forall other
      ensures other != secret && other in after.ledger.saved ==> after.ledger.saved[other] == (other in after.kept)
    {
    }
    if Misleads(w, secret) {
      assert secret in after.ledger.saved && after.ledger.saved[secret] && secret !in after.kept;
    }
  }

  // ----- What is learned

  /** Begun, seen and answered with nothing in between, a read makes a secret known for what
      storage holds. */
  lemma ReadLearns(w: World, secret: Secret)
    requires Valid(w)
    ensures var number := w.ledger.lastRead + 1;
            var seen := Step(Step(w, StartRead), See(number, secret));
            var told := Step(seen, AnswerRead(number));
            && secret in told.ledger.saved && told.ledger.saved[secret] == (secret in w.kept)
            && told.kept == w.kept && number !in told.inFlight
  {
  }

  /** The newest read tells of every secret it saw but those written since; an older one
      tells of none. */
  lemma AnswerTells(w: World, number: nat, secret: Secret)
    requires number in w.inFlight
    ensures var next := Step(w, AnswerRead(number));
            && (number == w.ledger.lastRead && secret in w.inFlight[number] && secret !in w.ledger.written ==>
                  secret in next.ledger.saved && next.ledger.saved[secret] == w.inFlight[number][secret])
            && (number != w.ledger.lastRead ==> next.ledger == w.ledger)
            && (secret !in w.inFlight[number] ==>
                  (secret in next.ledger.saved <==> secret in w.ledger.saved)
                  && (secret in w.ledger.saved ==> next.ledger.saved[secret] == w.ledger.saved[secret]))
  {
  }

  /** A request that storage took makes its secret known as asked, whoever asked; refused, a
      save tells nothing and a clear tells of the secret only when another asked for it. The
      field waits no longer, and no read begun before speaks of the secret. */
  lemma RequestsTell(w: World, secret: Secret, stored: bool)
    requires Enabled(w, Answer(secret, stored))
    ensures var l, next, request := w.ledger, Step(w, Answer(secret, stored)), w.writing[secret];
            && secret !in next.ledger.saving && secret in next.ledger.written && secret !in next.writing
            && (stored ==> secret in next.ledger.saved && next.ledger.saved[secret] == request.save
                           && (secret in next.kept) == request.save)
            && (!stored && request.save ==> next.ledger.saved == l.saved)
            && (!stored && !request.save && secret in l.saving && l.saving[secret] == request.number ==>
                  next.ledger.saved == l.saved)
            && (!stored && !request.save && (secret in l.saving ==> l.saving[secret] != request.number) ==>
                  next.ledger.saved == l.saved[secret := false])
  {
  }

  lemma KnownStaysKnown(w: World, e: Event, secret: Secret)
    requires secret in w.ledger.saved
    ensures secret in Step(w, e).ledger.saved
  {
    match e
    case Ask(_, _, _) =>
    case Take(_, _) =>
    case Supersede(_) =>
    case _ =>
  }

  /** A field waits for the request it asked for last. */
  lemma FieldWaitsForItsRequest(w: World, secret: Secret, request: Request)
    ensures var saving := Step(w, Ask(secret, request, true)).ledger.saving;
            secret in saving && saving[secret] == request.number
    ensures Step(w, Ask(secret, request, false)).ledger == w.ledger
  {
  }

  /** Written one at a time, and each in its turn: a request is written at once when none
      of its secret is, else it waits and replaces what waited. */
  lemma RequestsTakeTurns(w: World, secret: Secret, request: Request, own: bool)
    ensures var next := Step(w, Ask(secret, request, own));
            if secret in w.writing then
              next.writing == w.writing && next.waiting == w.waiting[secret := request]
            else next.writing == w.writing[secret := request] && next.waiting == w.waiting
    ensures secret in w.writing && secret in w.waiting ==>
              var next := Step(w, Supersede(secret));
              next.writing == w.writing[secret := w.waiting[secret]] && secret !in next.waiting
  {
  }

  // ----- Runs that end misled

  ghost predicate Reached(kept: set<Secret>, w: World) {
    exists events: seq<Event> :: Run(Step, Launched(kept), events, |events|) == w
  }

  lemma ReachedThen(kept: set<Secret>, w: World, e: Event)
    requires Reached(kept, w)
    ensures Reached(kept, Step(w, e))
  {
    var events: seq<Event> :| Run(Step, Launched(kept), events, |events|) == w;
    RunThen(Step, Launched(kept), events, e);
    assert Run(Step, Launched(kept), events + [e], |events + [e]|) == Step(w, e);
  }

  /** What a first read makes known of a secret. */
  function Known(secret: Secret, present: bool): World {
    World(Ledger(map[secret := present], {}, 1, map[]), Holding(secret, present),
          map[], map[], map[], map[], {})
  }

  function Holding(secret: Secret, present: bool): set<Secret> {
    if present then {secret} else {}
  }

  lemma KnownIsReached(secret: Secret, present: bool)
    ensures Reached(Holding(secret, present), Known(secret, present))
  {
    var kept := Holding(secret, present);
    var read := Step(Launched(kept), StartRead);
    var seen := Step(read, See(1, secret));
    var none: seq<Event> := [];
    assert Run(Step, Launched(kept), none, |none|) == Launched(kept);
    ReachedThen(kept, Launched(kept), StartRead);
    ReachedThen(kept, read, See(1, secret));
    ReachedThen(kept, seen, AnswerRead(1));
    assert read.inFlight == map[1 := map[]];
    assert seen.inFlight == map[1 := map[secret := present]];
  }

  /** At rest, the secret known for what it is not. */
  predicate EndsMisled(w: World, secret: Secret, believed: bool) {
    AtRest(w) && secret in w.ledger.saved && w.ledger.saved[secret] == believed && (secret in w.kept) != believed
  }

  /** The field clears a key it knows saved, and storage refuses. */
  lemma RefusedClearMisleads(secret: Secret) returns (w: World)
    ensures Reached({secret}, w) && EndsMisled(w, secret, true)
  {
    var known := Known(secret, true);
    KnownIsReached(secret, true);
    var asked := Step(known, Ask(secret, Request(1, false), true));
    ReachedThen({secret}, known, Ask(secret, Request(1, false), true));
    ReachedThen({secret}, asked, Answer(secret, false));
    w := Step(asked, Answer(secret, false));
    assert w.writing == map[];
  }

  /** The field saves a key it knows missing, storage takes it, and before the answer the
      field saves another, which storage refuses: the first is kept and not believed. */
  lemma RefusedSaveMisleads(secret: Secret) returns (w: World)
    ensures Reached({}, w) && EndsMisled(w, secret, false)
  {
    var known := Known(secret, false);
    KnownIsReached(secret, false);
    var asked := Step(known, Ask(secret, Request(1, true), true));
    var taken := Step(asked, Take(secret, true));
    var again := Step(taken, Ask(secret, Request(2, true), true));
    var next := Step(again, Supersede(secret));
    ReachedThen({}, known, Ask(secret, Request(1, true), true));
    ReachedThen({}, asked, Take(secret, true));
    ReachedThen({}, taken, Ask(secret, Request(2, true), true));
    ReachedThen({}, again, Supersede(secret));
    ReachedThen({}, next, Answer(secret, false));
    w := Step(next, Answer(secret, false));
    assert w.writing == map[];
  }

  /** A clear of a key known saved is replaced by a save that storage refuses: the key
      reads as gone and is believed saved. */
  lemma RefusedSaveAfterClearMisleads(secret: Secret) returns (w: World)
    ensures Reached({secret}, w) && EndsMisled(w, secret, true)
  {
    var known := Known(secret, true);
    KnownIsReached(secret, true);
    var asked := Step(known, Ask(secret, Request(1, false), true));
    var again := Step(asked, Ask(secret, Request(2, true), true));
    var next := Step(again, Supersede(secret));
    ReachedThen({secret}, known, Ask(secret, Request(1, false), true));
    ReachedThen({secret}, asked, Ask(secret, Request(2, true), true));
    ReachedThen({secret}, again, Supersede(secret));
    ReachedThen({secret}, next, Answer(secret, false));
    w := Step(next, Answer(secret, false));
    assert w.writing == map[];
  }

  // ----- The source's object

  class Accounts {
    var savedSecrets: map<Secret, bool>
    var secretsWritten: set<Secret>
    var lastSecretRead: nat
    var saving: map<Secret, nat>

    ghost function View(): Ledger
      reads this
    {
      Ledger(savedSecrets, secretsWritten, lastSecretRead, saving)
    }

    constructor ()
      ensures View() == NOTHING_KNOWN
    {
      savedSecrets, secretsWritten, lastSecretRead, saving := map[], {}, 0, map[];
    }

    method ReadSavedSecrets() returns (number: nat)
      modifies this
      ensures View() == BeginRead(old(View())) && number == View().lastRead
    {
      lastSecretRead := lastSecretRead + 1;
      secretsWritten := {};
      number := lastSecretRead;
    }

    /** `keys` are the secrets the read answered for, in the order the map walks them. */
    method SecretsRead(number: nat, keys: seq<Secret>, found: map<Secret, bool>)
      requires forall secret :: secret in keys <==> secret in found
      modifies `savedSecrets
      ensures View() == TakeRead(old(View()), number, found)
    {
      if number != lastSecretRead {
        return;
      }
      for i := 0 to |keys|
        invariant savedSecrets.Keys == old(savedSecrets).Keys + (set s | s in keys[..i] && s !in secretsWritten)
        invariant forall s :: s in savedSecrets ==>
          savedSecrets[s] == if s in keys[..i] && s !in secretsWritten then found[s] else old(savedSecrets)[s]
      {
        assert forall s :: s in keys[..i + 1] <==> s in keys[..i] || s == keys[i];
        if keys[i] !in secretsWritten {
          savedSecrets := savedSecrets[keys[i] := found[keys[i]]];
        }
      }
      assert keys[..|keys|] == keys;
      assert savedSecrets.Keys == (old(savedSecrets) + (found - secretsWritten)).Keys;
    }

    method Write(secret: Secret, request: nat)
      modifies this
      ensures View() == AskSave(old(View()), secret, request)
    {
      saving := saving[secret := request];
    }

    method SecretSaveFinished(secret: Secret, request: nat, cleared: bool, stored: bool)
      modifies this
      ensures View() == Finish(old(View()), secret, request, cleared, stored)
    {
      var own := secret in saving && saving[secret] == request;
      saving := saving - {secret};
      if own {
        FinishWrite(secret, stored, !cleared);
      } else {
        NoteOtherWrite(secret, cleared, stored);
      }
    }

    method FinishWrite(secret: Secret, done: bool, saved: bool)
      modifies `savedSecrets, `secretsWritten
      ensures secretsWritten == old(secretsWritten) + {secret}
      ensures savedSecrets == if done then old(savedSecrets)[secret := saved] else old(savedSecrets)
    {
      secretsWritten := secretsWritten + {secret};
      if done {
        savedSecrets := savedSecrets[secret := saved];
      }
    }

    method NoteOtherWrite(secret: Secret, cleared: bool, stored: bool)
      modifies `savedSecrets, `secretsWritten
      ensures secretsWritten == old(secretsWritten) + {secret}
      ensures savedSecrets == if stored then old(savedSecrets)[secret := !cleared]
                              else if cleared then old(savedSecrets)[secret := false]
                              else old(savedSecrets)
    {
      secretsWritten := secretsWritten + {secret};
      if stored {
        savedSecrets := savedSecrets[secret := !cleared];
      } else if cleared {
        savedSecrets := savedSecrets[secret := false];
      }
    }
  }
}
