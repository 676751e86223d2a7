/** Numbered sign-in checks and renewals, each on its own worker, overlapping freely.
    Credentials carry a version that every renewal's rewrite raises. */
module SignInChecks {
  import opened Wrappers
  import opened Runs

  datatype Service = OpenAi | Anthropic | CliProxy

  const SERVICES: seq<Service> := [OpenAi, Anthropic, CliProxy]

  /** A worker: whose sign-in it asks, whether it renews it, and the version of the
      credentials it saw, once it has. */
  datatype Worker = Worker(service: Service, renewing: bool, saw: Option<nat>)

  datatype SignIn = SignIn(number: nat, saw: nat)

  /** `latest` and `landed` only remember: the newest check issued for each service,
      and the last renewal to answer with the number of checks issued by then. */
  datatype Accounts = Accounts(
    lastCheck: nat,
    pending: map<Service, nat>,
    checks: map<Service, SignIn>,
    workers: map<nat, Worker>,
    credentials: nat,
    latest: map<Service, nat>,
    landed: Option<(nat, nat)>)

  const FRESH: Accounts := Accounts(0, map[], map[], map[], 0, map[], None)

  datatype Event =
    | Issue(service: Service, renewing: bool)  // a recheck or renewal asked for
    | Look(number: nat, rewrites: bool)        // a worker reads, and maybe rewrites, credentials
    | Answer(number: nat)

  predicate Enabled(a: Accounts, e: Event) {
    match e
    case Issue(_, _) => true
    case Look(number, rewrites) =>
      number in a.workers && a.workers[number].saw.None? && (rewrites ==> a.workers[number].renewing)
    case Answer(number) => number in a.workers && a.workers[number].saw.Some?
  }

  function Start(a: Accounts, service: Service, renewing: bool): Accounts {
    var number := a.lastCheck + 1;
    a.(lastCheck := number,
       pending := a.pending[service := number],
       latest := a.latest[service := number],
       workers := a.workers[number := Worker(service, renewing, None)])
  }

  function StartAll(a: Accounts, services: seq<Service>): Accounts
    decreases |services|
  {
    if services == [] then a else StartAll(Start(a, services[0], false), services[1..])
  }

  /** The services a renewal's answer has checked again: all the others, and its own
      when something superseded it. */
  function CheckedAgain(services: seq<Service>, service: Service, latest: bool): (again: seq<Service>)
    ensures forall s :: s in again <==> s in services && (!latest || s != service)
    ensures |again| <= |services|
  {
    if services == [] then []
    else if !latest || services[0] != service then [services[0]] + CheckedAgain(services[1..], service, latest)
    else CheckedAgain(services[1..], service, latest)
  }

  predicate IsLatest(a: Accounts, number: nat)
    requires number in a.workers
  {
    var service := a.workers[number].service;
    service in a.pending && a.pending[service] == number
  }

  function Take(a: Accounts, number: nat): Accounts
    requires number in a.workers && a.workers[number].saw.Some?
  {
    var w := a.workers[number];
    var done := a.(workers := a.workers - {number});
    if IsLatest(a, number) then
      done.(pending := a.pending - {w.service}, checks := a.checks[w.service := SignIn(number, w.saw.value)])
    else done
  }

  /** An event that cannot come changes nothing. */
  function Step(a: Accounts, e: Event): Accounts {
    if !Enabled(a, e) then a
    else
      match e
      case Issue(service, renewing) => Start(a, service, renewing)
      case Look(number, rewrites) =>
        var version := if rewrites then a.credentials + 1 else a.credentials;
        a.(credentials := version,
           workers := a.workers[number := a.workers[number].(saw := Some(version))])
      case Answer(number) => TakeAnswer(a, number)
  }

  function TakeAnswer(a: Accounts, number: nat): Accounts
    requires Enabled(a, Answer(number))
  {
    var w := a.workers[number];
    var taken := Take(a, number);
    if w.renewing then
      StartAll(taken.(landed := Some((number, a.lastCheck))), CheckedAgain(SERVICES, w.service, IsLatest(a, number)))
    else taken
  }

  // ----- What every run keeps

  /** A renewal, other than `except`, has rewritten the credentials and not answered. */
  ghost predicate RewriteUntold(a: Accounts, except: nat) {
    exists n :: n in a.workers && n != except && a.workers[n].renewing && a.workers[n].saw.Some?
  }

  ghost predicate Fresh(a: Accounts, saw: nat, except: nat) {
    saw == a.credentials || RewriteUntold(a, except)
  }

  ghost predicate Numbered(a: Accounts) {
    && (forall n :: n in a.workers ==> 0 < n <= a.lastCheck)
    && (forall s :: s in a.pending ==> a.pending[s] in a.workers && a.workers[a.pending[s]].service == s)
    && (forall s :: s in a.latest <==> s in a.pending || s in a.checks)
    && (forall s :: s in a.pending ==> a.latest[s] == a.pending[s])
    && (forall s :: s in a.latest && s !in a.pending ==> a.latest[s] == a.checks[s].number)
    && (forall s :: s in a.latest ==> a.latest[s] <= a.lastCheck)
  }

  /** What is shown, or about to be, is fresh for every service not `owed` a check. */
  ghost predicate UpToDate(a: Accounts, owed: seq<Service>)
    requires Numbered(a)
  {
    forall s: Service :: s !in owed ==>
      if s in a.pending then
        a.workers[a.pending[s]].saw.Some? ==> Fresh(a, a.workers[a.pending[s]].saw.value, a.pending[s])
      else s in a.checks ==> Fresh(a, a.checks[s].saw, 0)
  }

  ghost predicate AfterLanding(a: Accounts, owed: seq<Service>) {
    a.landed.Some? ==>
      && a.landed.value.1 <= a.lastCheck
      && forall s: Service :: s !in owed ==>
           s in a.latest && (a.latest[s] > a.landed.value.1 || a.latest[s] == a.landed.value.0)
  }

  /** Valid but for the services a renewal's answer still has to start checks for. */
  ghost predicate ValidBut(a: Accounts, owed: seq<Service>) {
    Numbered(a) && UpToDate(a, owed) && AfterLanding(a, owed)
  }

  ghost predicate Valid(a: Accounts) {
    ValidBut(a, [])
  }

  /** Workers that stay keep untold rewrites untold. */
  lemma RewritesStay(a: Accounts, after: Accounts, gone: nat)
    requires forall n :: n in a.workers && n != gone ==> n in after.workers && after.workers[n] == a.workers[n]
    requires gone in a.workers ==> !a.workers[gone].renewing || a.workers[gone].saw.None?
    ensures forall except :: RewriteUntold(a, except) ==> RewriteUntold(after, except)
  {
  }

  lemma StartKeepsValid(a: Accounts, service: Service, renewing: bool, owed: seq<Service>)
    requires ValidBut(a, [service] + owed)
    ensures ValidBut(Start(a, service, renewing), owed)
  {
    var after := Start(a, service, renewing);
    StartKeepsNumbered(a, service, renewing);
    RewritesStay(a, after, 0);
    assert forall s: Service :: s in [service] + owed <==> s == service || s in owed;
  }

  lemma StartKeepsNumbered(a: Accounts, service: Service, renewing: bool)
    requires Numbered(a)
    ensures Numbered(Start(a, service, renewing))
  {
  }

  lemma {:induction false} StartAllPaysOff(a: Accounts, services: seq<Service>)
    requires ValidBut(a, services)
    ensures Valid(StartAll(a, services))
    decreases |services|
  {
    if services != [] {
      assert services == [services[0]] + services[1..];
      StartKeepsValid(a, services[0], false, services[1..]);
      StartAllPaysOff(Start(a, services[0], false), services[1..]);
    }
  }

  lemma LookKeepsValid(a: Accounts, number: nat, rewrites: bool)
    requires Valid(a) && Enabled(a, Look(number, rewrites))
    ensures Valid(Step(a, Look(number, rewrites)))
  {
    var after := Step(a, Look(number, rewrites));
    RewritesStay(a, after, number);
    if rewrites {
      forall except | except != number
        ensures RewriteUntold(after, except)
      {
        assert number in after.workers && after.workers[number].saw.Some?;
      }
    }
  }

  lemma TakeKeepsNumbered(a: Accounts, number: nat)
    requires Numbered(a) && number in a.workers && a.workers[number].saw.Some?
    ensures Numbered(Take(a, number))
  {
  }

  lemma CheckKeepsValid(a: Accounts, number: nat)
    requires Valid(a) && Enabled(a, Answer(number)) && !a.workers[number].renewing
    ensures Valid(Step(a, Answer(number)))
  {
    var after := Take(a, number);
    TakeKeepsNumbered(a, number);
    RewritesStay(a, after, number);
    forall except | RewriteUntold(a, except)
      ensures RewriteUntold(after, 0)
    {
      var n :| n in a.workers && n != except && a.workers[n].renewing && a.workers[n].saw.Some?;
      assert n in after.workers;
    }
  }

  /** A renewal's answer leaves every service owed a check but its own, and its own
      too unless nothing was issued for it since, when no other renewal can have
      landed either and what the renewal saw is fresh. */
  lemma RenewalOwesChecks(a: Accounts, number: nat)
    requires Valid(a) && Enabled(a, Answer(number)) && a.workers[number].renewing
    ensures ValidBut(Take(a, number).(landed := Some((number, a.lastCheck))),
                     CheckedAgain(SERVICES, a.workers[number].service, IsLatest(a, number)))
  {
    var w, latest := a.workers[number], IsLatest(a, number);
    TakeKeepsNumbered(a, number);
    var taken := Take(a, number).(landed := Some((number, a.lastCheck)));
    var owed := CheckedAgain(SERVICES, w.service, latest);
    forall s: Service | s !in owed
      ensures s == w.service && latest
    {
      assert OpenAi in SERVICES && Anthropic in SERVICES && CliProxy in SERVICES;
    }
    if latest && w.saw.value != a.credentials {
      assert Fresh(a, w.saw.value, number);
      var n :| n in a.workers && n != number && a.workers[n].renewing && a.workers[n].saw.Some?;
      assert n in taken.workers && n != 0;
      assert RewriteUntold(taken, 0);
    }
  }

  lemma StepKeepsValid(a: Accounts, e: Event)
    requires Valid(a)
    ensures Valid(Step(a, e))
  {
    if !Enabled(a, e) {
      return;
    }
    match e
    case Issue(service, renewing) => StartKeepsValid(a, service, renewing, []);
    case Look(number, rewrites) => LookKeepsValid(a, number, rewrites);
    case Answer(number) =>
      if a.workers[number].renewing {
        RenewalOwesChecks(a, number);
        StartAllPaysOff(Take(a, number).(landed := Some((number, a.lastCheck))),
                        CheckedAgain(SERVICES, a.workers[number].service, IsLatest(a, number)));
      } else {
        CheckKeepsValid(a, number);
      }
  }

  lemma RunKeepsValid(events: seq<Event>, n: nat)
    requires n <= |events|
    ensures Valid(Run(Step, FRESH, events, n))
  {
    forall a, e | Valid(a) ensures Valid(Step(a, e)) {
      StepKeepsValid(a, e);
    }
    RunKeeps(Step, FRESH, events, 0, n, Valid);
  }

  /** Once every worker has answered: each service shows the answer of the check last
      issued for it; that check saw the credentials as they are now; and it was issued
      after the last renewal landed, or is that renewal. */
  lemma ChecksAreNeverStale(events: seq<Event>, n: nat, service: Service)
    requires n <= |events|
    ensures var a := Run(Step, FRESH, events, n);
            a.workers == map[] && service in a.latest ==>
              && service in a.checks && a.checks[service].number == a.latest[service]
              && a.checks[service].saw == a.credentials
              && (a.landed.Some? ==> a.latest[service] > a.landed.value.1 || a.latest[service] == a.landed.value.0)
  {
    RunKeepsValid(events, n);
  }

  // ----- Renewals cascade only finitely

  function Renewals(workers: map<nat, Worker>): set<nat> {
    set n | n in workers && workers[n].renewing
  }

  function Checks(workers: map<nat, Worker>): set<nat> {
    set n | n in workers && !workers[n].renewing
  }

  function Unseen(workers: map<nat, Worker>): set<nat> {
    set n | n in workers && workers[n].saw.None?
  }

  /** A renewal still out weighs more than the three checks its answer may start. */
  function Work(workers: map<nat, Worker>): nat {
    7 * |Renewals(workers)| + |Checks(workers)| + |Unseen(workers)|
  }

  lemma NewCheckAddsLittleWork(workers: map<nat, Worker>, number: nat, service: Service)
    requires number !in workers
    ensures Work(workers[number := Worker(service, false, None)]) == Work(workers) + 2
  {
    var after := workers[number := Worker(service, false, None)];
    assert forall n :: n in after <==> n in workers || n == number;
    assert forall n :: n in workers ==> after[n] == workers[n];
    assert Renewals(after) == Renewals(workers);
    assert Checks(after) == Checks(workers) + {number};
    assert Unseen(after) == Unseen(workers) + {number};
  }

  lemma AnswerDoesWork(workers: map<nat, Worker>, number: nat)
    requires number in workers && workers[number].saw.Some?
    ensures Work(workers - {number}) == Work(workers) - if workers[number].renewing then 7 else 1
  {
    var after := workers - {number};
    assert Unseen(after) == Unseen(workers);
    if workers[number].renewing {
      assert Renewals(after) == Renewals(workers) - {number};
      assert Checks(after) == Checks(workers);
    } else {
      assert Renewals(after) == Renewals(workers);
      assert Checks(after) == Checks(workers) - {number};
    }
  }

  lemma LookDoesWork(workers: map<nat, Worker>, number: nat, version: nat)
    requires number in workers && workers[number].saw.None?
    ensures Work(workers[number := workers[number].(saw := Some(version))]) == Work(workers) - 1
  {
    var after := workers[number := workers[number].(saw := Some(version))];
    assert Renewals(after) == Renewals(workers) && Checks(after) == Checks(workers);
    assert Unseen(after) == Unseen(workers) - {number};
  }

  lemma {:induction false} StartAllAddsLittleWork(a: Accounts, services: seq<Service>)
    requires Numbered(a)
    ensures Work(StartAll(a, services).workers) == Work(a.workers) + 2 * |services|
    decreases |services|
  {
    if services != [] {
      NewCheckAddsLittleWork(a.workers, a.lastCheck + 1, services[0]);
      StartKeepsNumbered(a, services[0], false);
      StartAllAddsLittleWork(Start(a, services[0], false), services[1..]);
    }
  }

  lemma StepWithoutIssueDoesWork(a: Accounts, e: Event)
    requires Valid(a) && Enabled(a, e) && !e.Issue?
    ensures Work(Step(a, e).workers) < Work(a.workers)
  {
    if e.Look? {
      LookDoesWork(a.workers, e.number, Step(a, e).credentials);
    } else {
      AnswerDoesWork(a.workers, e.number);
      TakeKeepsNumbered(a, e.number);
      if a.workers[e.number].renewing {
        StartAllAddsLittleWork(Take(a, e.number).(landed := Some((e.number, a.lastCheck))),
                               CheckedAgain(SERVICES, a.workers[e.number].service, IsLatest(a, e.number)));
      }
    }
  }

  predicate ComesUnasked(a: Accounts, e: Event) {
    Enabled(a, e) && !e.Issue?
  }

  /** However renewals start checks, without new requests the workers look and answer no
      more often than there was work at the start. */
  lemma RenewalsCascadeFinitely(a: Accounts, events: seq<Event>)
    requires Valid(a) && AllCome(Step, a, events, |events|, ComesUnasked)
    ensures |events| <= Work(a.workers)
  {
    var work := (s: Accounts) => Work(s.workers);
    forall s, e | Valid(s) && ComesUnasked(s, e)
      ensures Valid(Step(s, e)) && work(Step(s, e)) < work(s)
    {
      StepKeepsValid(s, e);
      StepWithoutIssueDoesWork(s, e);
    }
    WorkRunsOut(Step, a, events, |events|, ComesUnasked, Valid, work);
  }

  // ----- What a renewal does

  /** A request starts a worker of its kind under the next number, which its service now
      waits for. */
  lemma IssueStartsWorker(a: Accounts, service: Service, renewing: bool)
    ensures var next := Step(a, Issue(service, renewing));
            && next.lastCheck == a.lastCheck + 1
            && next.workers == a.workers[next.lastCheck := Worker(service, renewing, None)]
            && next.pending == a.pending[service := next.lastCheck]
            && next.latest == a.latest[service := next.lastCheck] && next.checks == a.checks
  {
  }

  /** What the services checked again are owed: a check of a later number each, in order. */
  lemma {:induction false} StartAllIssues(a: Accounts, services: seq<Service>)
    ensures var next := StartAll(a, services);
            && next.lastCheck == a.lastCheck + |services| && next.checks == a.checks
            && (forall s :: s in services ==> s in next.latest && next.latest[s] > a.lastCheck)
            && (forall s :: s !in services && s in a.latest ==> s in next.latest && next.latest[s] == a.latest[s])
            && (forall s :: s !in services ==> (s in next.pending <==> s in a.pending))
    decreases |services|
  {
    if services != [] {
      StartAllIssues(Start(a, services[0], false), services[1..]);
    }
  }

  /** The answer of a renewal, superseded or not, has every other service checked again
      under a later number, and its own too when something superseded it. */
  lemma RenewalChecksOthers(a: Accounts, number: nat, other: Service)
    requires Enabled(a, Answer(number)) && a.workers[number].renewing
    requires other != a.workers[number].service || !IsLatest(a, number)
    ensures var next := Step(a, Answer(number));
            && other in next.latest && next.latest[other] > a.lastCheck
            && next.landed == Some((number, a.lastCheck))
  {
    var again := CheckedAgain(SERVICES, a.workers[number].service, IsLatest(a, number));
    assert OpenAi in SERVICES && Anthropic in SERVICES && CliProxy in SERVICES;
    assert other in SERVICES && other in again;
    StartAllIssues(Take(a, number).(landed := Some((number, a.lastCheck))), again);
    StartAllKeepsLanded(Take(a, number).(landed := Some((number, a.lastCheck))), again);
  }

  lemma {:induction false} StartAllKeepsLanded(a: Accounts, services: seq<Service>)
    ensures StartAll(a, services).landed == a.landed && StartAll(a, services).credentials == a.credentials
    decreases |services|
  {
    if services != [] {
      StartAllKeepsLanded(Start(a, services[0], false), services[1..]);
    }
  }

  /** A renewal asked for renews: once its worker rewrote the credentials and answered,
      every other service has been issued a later check, and its own shows what it saw. */
  lemma RenewalRenews(a: Accounts, service: Service, other: Service)
    requires Valid(a) && other != service
    ensures var asked := Step(a, Issue(service, true));
            var looked := Step(asked, Look(asked.lastCheck, true));
            var answered := Step(looked, Answer(asked.lastCheck));
            && answered.credentials == a.credentials + 1
            && other in answered.latest && answered.latest[other] > asked.lastCheck
            && service in answered.checks && answered.checks[service] == SignIn(asked.lastCheck, answered.credentials)
  {
    var asked := Step(a, Issue(service, true));
    var looked := Step(asked, Look(asked.lastCheck, true));
    RenewalChecksOthers(looked, asked.lastCheck, other);
    var taken := Take(looked, asked.lastCheck).(landed := Some((asked.lastCheck, looked.lastCheck)));
    StartAllIssues(taken, CheckedAgain(SERVICES, service, true));
    StartAllKeepsLanded(taken, CheckedAgain(SERVICES, service, true));
  }

  /** The answer of a plain check is shown when nothing superseded it, and starts nothing. */
  lemma CheckIsShown(a: Accounts, number: nat)
    requires Enabled(a, Answer(number)) && !a.workers[number].renewing
    ensures var next, w := Step(a, Answer(number)), a.workers[number];
            && next.lastCheck == a.lastCheck && next.workers == a.workers - {number} && next.landed == a.landed
            && (w.service in a.pending && a.pending[w.service] == number ==>
                  && next.checks == a.checks[w.service := SignIn(number, w.saw.value)]
                  && next.pending == a.pending - {w.service})
            && (w.service in a.pending && a.pending[w.service] != number ==>
                  next.checks == a.checks && next.pending == a.pending)
  {
  }

  // ----- The source's object

  /** `workers` are the threads under way; the ghost fields are what the object itself
      does not keep. */
  class AccountChecks {
    var lastCheck: nat
    var pending: map<Service, nat>
    var checks: map<Service, SignIn>
    var workers: map<nat, Worker>
    ghost var credentials: nat
    ghost var latest: map<Service, nat>
    ghost var landed: Option<(nat, nat)>

    ghost function View(): Accounts
      reads this
    {
      Accounts(lastCheck, pending, checks, workers, credentials, latest, landed)
    }

    constructor ()
      ensures View() == FRESH && Valid(View())
    {
      lastCheck, pending, checks, workers := 0, map[], map[], map[];
      credentials, latest, landed := 0, map[], None;
    }

    method Issue(service: Service, renewing: bool)
      modifies this
      ensures View() == Start(old(View()), service, renewing)
    {
      lastCheck := lastCheck + 1;
      pending := pending[service := lastCheck];
      latest := latest[service := lastCheck];
      workers := workers[lastCheck := Worker(service, renewing, None)];
    }

    method RecheckAll()
      modifies this
      ensures View() == StartAll(old(View()), SERVICES)
    {
      for i := 0 to |SERVICES|
        invariant StartAll(old(View()), SERVICES) == StartAll(View(), SERVICES[i..])
      {
        Issue(SERVICES[i], false);
      }
    }

    method WorkerAnswered(number: nat)
      requires Enabled(View(), Answer(number))
      modifies this
      ensures View() == Step(old(View()), Answer(number))
      ensures old(Valid(View())) ==> Valid(View())
    {
      if Valid(View()) {
        StepKeepsValid(View(), Answer(number));
      }
      var w := workers[number];
      var isLatest := w.service in pending && pending[w.service] == number;
      workers := workers - {number};
      if isLatest {
        pending := pending - {w.service};
        checks := checks[w.service := SignIn(number, w.saw.value)];
      }
      if !w.renewing {
        return;
      }
      landed := Some((number, lastCheck));
      ghost var taken := View();
      for i := 0 to |SERVICES|
        invariant StartAll(taken, CheckedAgain(SERVICES, w.service, isLatest))
               == StartAll(View(), CheckedAgain(SERVICES[i..], w.service, isLatest))
      {
        if !isLatest || SERVICES[i] != w.service {
          Issue(SERVICES[i], false);
        }
      }
    }
  }
}
