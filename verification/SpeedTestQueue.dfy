/** The Speed Test queue: one test at a time, the rest wait, and the next in line
    travels in a timer between leaving the queue and starting. */
module SpeedTestQueue {
  import opened Runs

  /** `running` is empty when no test runs, as in the source. */
  datatype Queue = Queue(running: string, waiting: seq<string>, timers: multiset<string>)

  datatype Event =
    | Request(model: string)  // a person or a finished download asks for a test
    | Finish                  // the running test answers
    | Fire(model: string)     // a pending timer goes off
    | Remove(model: string)   // the model is removed

  const EMPTY: Queue := Queue("", [], multiset{})

  function Without(models: seq<string>, model: string): (rest: seq<string>)
    ensures forall m :: m in rest <==> m in models && m != model
    ensures |rest| <= |models|
  {
    if models == [] then []
    else if models[0] == model then Without(models[1..], model)
    else [models[0]] + Without(models[1..], model)
  }

  function Start(q: Queue, model: string): Queue {
    if q.running == model || model in q.waiting then q
    else if q.running != "" then q.(waiting := q.waiting + [model])
    else q.(running := model)
  }

  predicate Enabled(q: Queue, e: Event) {
    match e
    case Finish => q.running != ""
    case Fire(model) => model in q.timers
    case _ => true
  }

  /** An event that cannot come changes nothing. */
  function Step(q: Queue, e: Event): Queue {
    if !Enabled(q, e) then q
    else
      match e
      case Request(model) => Start(q, model)
      case Finish =>
        if q.waiting == [] then q.(running := "")
        else Queue("", q.waiting[1..], q.timers + multiset{q.waiting[0]})
      case Fire(model) => Start(q.(timers := q.timers - multiset{model}), model)
      case Remove(model) => q.(waiting := Without(q.waiting, model))
  }

  // ----- What every run keeps

  predicate NoDuplicates(models: seq<string>) {
    forall i, j :: 0 <= i < j < |models| ==> models[i] != models[j]
  }

  ghost predicate Valid(q: Queue) {
    && "" !in q.waiting && "" !in q.timers
    && NoDuplicates(q.waiting)
    && q.running !in q.waiting
    && (q.running == "" && q.waiting != [] ==> exists model :: model in q.timers && model !in q.waiting)
  }

  /** Every model id is a real one. */
  predicate NamesModel(e: Event) {
    e.Request? ==> e.model != ""
  }

  lemma {:induction false} WithoutKeepsDistinct(models: seq<string>, model: string)
    requires NoDuplicates(models)
    ensures NoDuplicates(Without(models, model))
  {
    if models != [] {
      WithoutKeepsDistinct(models[1..], model);
      var rest := Without(models[1..], model);
      assert models[0] !in models[1..];
      assert models[0] !in rest;
    }
  }

  lemma StepKeepsValid(q: Queue, e: Event)
    requires Valid(q) && NamesModel(e)
    ensures Valid(Step(q, e))
  {
    match e
    case Request(model) =>
    case Finish =>
      if q.running != "" && q.waiting != [] {
        assert q.waiting[0] in q.timers + multiset{q.waiting[0]} && q.waiting[0] !in q.waiting[1..];
      }
    case Fire(model) =>
      if model in q.timers {
        FireKeepsValid(q, model);
      }
    case Remove(model) => RemoveKeepsValid(q, model);
  }

  lemma FireKeepsValid(q: Queue, model: string)
    requires Valid(q) && model in q.timers
    ensures Valid(Step(q, Fire(model)))
  {
    if q.running == "" && model in q.waiting {
      var other :| other in q.timers && other !in q.waiting;
      assert other in q.timers - multiset{model};
    }
  }

  lemma RemoveKeepsValid(q: Queue, model: string)
    requires Valid(q)
    ensures Valid(Step(q, Remove(model)))
  {
    WithoutKeepsDistinct(q.waiting, model);
    if q.running == "" && q.waiting != [] {
      var other :| other in q.timers && other !in q.waiting;
      assert other !in Without(q.waiting, model);
    }
  }

  // ----- Nothing asked for is lost

  /** The queue, and the models asked for and since neither answered nor removed. */
  datatype Tracked = Tracked(queue: Queue, owed: set<string>)

  function Owed(t: Tracked, e: Event): set<string> {
    match e
    case Request(model) => t.owed + {model}
    case Finish => t.owed - {t.queue.running}
    case Fire(_) => t.owed
    case Remove(model) => t.owed - {model}
  }

  function Track(t: Tracked, e: Event): Tracked {
    if Enabled(t.queue, e) then Tracked(Step(t.queue, e), Owed(t, e)) else t
  }

  ghost predicate Held(q: Queue, model: string) {
    q.running == model || model in q.waiting || model in q.timers
  }

  ghost predicate HoldsAll(t: Tracked) {
    Valid(t.queue) && "" !in t.owed && forall model :: model in t.owed ==> Held(t.queue, model)
  }

  lemma TrackHoldsAll(t: Tracked, e: Event)
    requires HoldsAll(t) && NamesModel(e)
    ensures HoldsAll(Track(t, e))
  {
    StepKeepsValid(t.queue, e);
    var q, next := t.queue, Track(t, e);
    forall model | Enabled(q, e) && model in next.owed
      ensures Held(next.queue, model)
    {
      match e
      case Request(asked) => assert model != asked ==> Held(q, model);
      case Finish =>
        assert Held(q, model);
        if model in q.waiting && model != q.waiting[0] {
          assert model in q.waiting[1..];
        }
      case Fire(fired) =>
        assert Held(q, model);
        assert model != fired && model in q.timers ==> model in q.timers - multiset{fired};
      case Remove(_) => assert Held(q, model);
    }
  }

  /** In every run: no duplicates, never the running model in the queue, something to
      wake a waiting queue, and every model still owed a test is held somewhere. */
  lemma QueueNeverLoses(t: Tracked, events: seq<Event>, n: nat)
    requires n <= |events| && HoldsAll(t) && forall e :: e in events ==> NamesModel(e)
    ensures HoldsAll(Run(Track, t, events, n))
  {
    forall s, e | e in events && HoldsAll(s) ensures HoldsAll(Track(s, e)) {
      TrackHoldsAll(s, e);
    }
    RunKeeps(Track, t, events, 0, n, HoldsAll);
  }

  // ----- Nor does it stall

  /** When nothing runs and models wait, a timer is pending whose firing starts a test. */
  lemma WaitingQueueWakes(q: Queue) returns (model: string)
    requires Valid(q) && q.running == "" && q.waiting != []
    ensures Enabled(q, Fire(model)) && Step(q, Fire(model)).running == model != ""
  {
    model :| model in q.timers && model !in q.waiting;
  }

  predicate IsInternal(e: Event) {
    e.Finish? || e.Fire?
  }

  /** What is still to happen, in units no internal step can add to. */
  function Work(q: Queue): nat {
    (if q.running != "" then 2 else 0) + 2 * |q.waiting| + 3 * |q.timers|
  }

  predicate ComesInternally(t: Tracked, e: Event) {
    IsInternal(e) && Enabled(t.queue, e)
  }

  lemma TrackDoesWork(t: Tracked, e: Event)
    requires HoldsAll(t) && ComesInternally(t, e)
    ensures HoldsAll(Track(t, e)) && Work(Track(t, e).queue) < Work(t.queue)
  {
    TrackHoldsAll(t, e);
  }

  ghost predicate Quiet(q: Queue) {
    forall e :: IsInternal(e) ==> !Enabled(q, e)
  }

  lemma QuietIsEmpty(t: Tracked)
    requires HoldsAll(t) && Quiet(t.queue)
    ensures t == Tracked(EMPTY, {})
  {
    assert !Enabled(t.queue, Finish);
    forall model
      ensures model !in t.queue.timers
    {
      assert !Enabled(t.queue, Fire(model));
    }
    assert t.queue.timers == multiset{};
    assert forall model :: model in t.owed ==> Held(t.queue, model);
  }

  /** Left alone, with timers firing and tests answering in any order, the queue does
      at most Work(queue) steps, and when none is left to do every owed test was answered. */
  lemma QueueDrains(t: Tracked, events: seq<Event>)
    requires HoldsAll(t) && AllCome(Track, t, events, |events|, ComesInternally)
    ensures |events| <= Work(t.queue)
    ensures Quiet(Run(Track, t, events, |events|).queue) ==> Run(Track, t, events, |events|) == Tracked(EMPTY, {})
  {
    var work := (s: Tracked) => Work(s.queue);
    forall s, e | HoldsAll(s) && ComesInternally(s, e)
      ensures HoldsAll(Track(s, e)) && work(Track(s, e)) < work(s)
    {
      TrackDoesWork(s, e);
    }
    WorkRunsOut(Track, t, events, |events|, ComesInternally, HoldsAll, work);
    if Quiet(Run(Track, t, events, |events|).queue) {
      QuietIsEmpty(Run(Track, t, events, |events|));
    }
  }

  // ----- In their turn

  /** `a` waits before `b`. */
  predicate Before(models: seq<string>, a: string, b: string) {
    exists i, j :: 0 <= i < j < |models| && models[i] == a && models[j] == b
  }

  lemma {:induction false} WithoutKeepsTurns(models: seq<string>, model: string, a: string, b: string)
    requires a != model && b != model
    ensures Before(models, a, b) ==> Before(Without(models, model), a, b)
  {
    if Before(models, a, b) {
      var i, j :| 0 <= i < j < |models| && models[i] == a && models[j] == b;
      var rest := Without(models[1..], model);
      if i > 0 {
        assert models[1..][i - 1] == a && models[1..][j - 1] == b;
        WithoutKeepsTurns(models[1..], model, a, b);
        var k, l :| 0 <= k < l < |rest| && rest[k] == a && rest[l] == b;
        if models[0] != model {
          assert ([models[0]] + rest)[k + 1] == a && ([models[0]] + rest)[l + 1] == b;
        }
      } else {
        assert models[1..][j - 1] == b;
        assert b in rest;
        var l :| 0 <= l < |rest| && rest[l] == b;
        var kept := [models[0]] + rest;
        assert Without(models, model) == kept && kept[0] == a && kept[l + 1] == b;
      }
    }
  }

  /** Nobody is overtaken: who waits before another leaves the queue before, for a timer,
      or by being removed. */
  lemma NobodyIsOvertaken(q: Queue, e: Event, a: string, b: string)
    requires Before(q.waiting, a, b) && e != Remove(a) && b in Step(q, e).waiting
    ensures Before(Step(q, e).waiting, a, b) || (e.Finish? && a in Step(q, e).timers)
  {
    var i, j :| 0 <= i < j < |q.waiting| && q.waiting[i] == a && q.waiting[j] == b;
    match e
    case Remove(model) => WithoutKeepsTurns(q.waiting, model, a, b);
    case Finish =>
      if q.running != "" && i > 0 {
        assert q.waiting[1..][i - 1] == a && q.waiting[1..][j - 1] == b;
      }
    case Request(_) => assert Step(q, e).waiting[i] == a && Step(q, e).waiting[j] == b;
    case Fire(_) => assert Step(q, e).waiting[i] == a && Step(q, e).waiting[j] == b;
  }

  /** A request is met at once when nothing runs and it does not wait already, else it goes
      to the end of the line once; a removed model leaves it. */
  lemma RequestsAreMet(q: Queue, model: string)
    ensures var next := Step(q, Request(model));
            && next.timers == q.timers
            && (model in q.waiting || model == q.running ==> next == q)
            && (model !in q.waiting && q.running == "" ==> next.running == model && next.waiting == q.waiting)
            && (model !in q.waiting && q.running != "" && model != q.running ==>
                  next.running == q.running && next.waiting == q.waiting + [model])
    ensures var next := Step(q, Remove(model));
            next.running == q.running && next.timers == q.timers && model !in next.waiting
            && forall m :: m != model ==> (m in next.waiting <==> m in q.waiting)
  {
  }

  /** A test that answers makes room, and the first that waits leaves the line for a timer,
      which asks for it again when it fires. */
  lemma FinishHandsOn(q: Queue, model: string)
    ensures q.running != "" && q.waiting == [] ==> Step(q, Finish) == Queue("", [], q.timers)
    ensures q.running != "" && q.waiting != [] ==>
              Step(q, Finish) == Queue("", q.waiting[1..], q.timers + multiset{q.waiting[0]})
    ensures model in q.timers ==>
              Step(q, Fire(model)) == Step(q.(timers := q.timers - multiset{model}), Request(model))
  {
  }

  // ----- The empty id

  predicate AsksOnly(ids: set<string>, e: Event) {
    e.Request? ==> e.model in ids
  }

  /** When models wait and nothing runs, some pending timer would start a test. */
  ghost predicate Awake(q: Queue) {
    q.running == "" && q.waiting != [] ==> exists model :: model in q.timers && Step(q, Fire(model)).running != ""
  }

  ghost predicate StaysAwake(ids: set<string>) {
    forall events: seq<Event> ::
      (forall e :: e in events ==> AsksOnly(ids, e)) ==> Awake(Run(Step, EMPTY, events, |events|))
  }

  predicate AtMostOneNamed(ids: set<string>) {
    forall a, b :: a in ids && b in ids && a != "" && b != "" ==> a == b
  }

  /** With one model besides the empty id, nothing but the empty id ever waits. */
  ghost predicate OnlyEmptyWaits(ids: set<string>, q: Queue) {
    && (q.waiting == [] || (q.waiting == [""] && q.running != ""))
    && (forall model :: model in q.timers ==> model == "")
    && (q.running == "" || q.running in ids)
  }

  lemma StepKeepsOnlyEmpty(ids: set<string>, q: Queue, e: Event)
    requires AtMostOneNamed(ids) && OnlyEmptyWaits(ids, q) && AsksOnly(ids, e)
    ensures OnlyEmptyWaits(ids, Step(q, e))
  {
  }

  /** An empty id is taken for "nothing runs": queued between two others, its timer
      fires into nothing and what waited behind it stays. */
  lemma EmptyIdStalls(a: string, b: string)
    requires a != "" && b != "" && a != b
    ensures Run(Step, EMPTY, [Request(a), Request(""), Request(b), Finish, Fire("")], 5)
         == Queue("", [b], multiset{})
  {
    RunOfFive(Step, EMPTY, Request(a), Request(""), Request(b), Finish, Fire(""));
  }

  lemma NamedIdsStayAwake(ids: set<string>, events: seq<Event>)
    requires "" !in ids && forall e :: e in events ==> AsksOnly(ids, e)
    ensures Awake(Run(Step, EMPTY, events, |events|))
  {
    forall q, e | e in events && Valid(q) ensures Valid(Step(q, e)) {
      StepKeepsValid(q, e);
    }
    RunKeeps(Step, EMPTY, events, 0, |events|, Valid);
    var last := Run(Step, EMPTY, events, |events|);
    if last.running == "" && last.waiting != [] {
      var model := WaitingQueueWakes(last);
    }
  }

  lemma OneNamedIdStaysAwake(ids: set<string>, events: seq<Event>)
    requires AtMostOneNamed(ids) && forall e :: e in events ==> AsksOnly(ids, e)
    ensures Awake(Run(Step, EMPTY, events, |events|))
  {
    var kept := (q: Queue) => OnlyEmptyWaits(ids, q);
    forall q, e | e in events && kept(q) ensures kept(Step(q, e)) {
      StepKeepsOnlyEmpty(ids, q, e);
    }
    RunKeeps(Step, EMPTY, events, 0, |events|, kept);
  }

  /** Exactly which ids may be asked for without the queue ever falling asleep. */
  lemma StaysAwakeIff(ids: set<string>)
    ensures StaysAwake(ids) <==> "" !in ids || AtMostOneNamed(ids)
  {
    forall events: seq<Event> | ("" !in ids || AtMostOneNamed(ids)) && forall e :: e in events ==> AsksOnly(ids, e)
      ensures Awake(Run(Step, EMPTY, events, |events|))
    {
      if "" !in ids {
        NamedIdsStayAwake(ids, events);
      } else {
        OneNamedIdStaysAwake(ids, events);
      }
    }
    if "" in ids && !AtMostOneNamed(ids) {
      var a, b :| a in ids && b in ids && a != "" && b != "" && a != b;
      EmptyIdStalls(a, b);
      var events := [Request(a), Request(""), Request(b), Finish, Fire("")];
      assert forall e :: e in events ==> AsksOnly(ids, e);
      assert |events| == 5 && !Awake(Queue("", [b], multiset{}));
    }
  }

  // ----- The source's object

  class LocalSetup {
    var speedTestModel: string
    var speedTestQueue: seq<string>
    var pendingTimers: multiset<string>

    ghost function View(): Queue
      reads this
    {
      Queue(speedTestModel, speedTestQueue, pendingTimers)
    }

    constructor ()
      ensures View() == EMPTY && Valid(View())
    {
      speedTestModel, speedTestQueue, pendingTimers := "", [], multiset{};
    }

    method RunSpeedTest(model: string)
      modifies this
      ensures View() == Step(old(View()), Request(model))
      ensures old(Valid(View())) && model != "" ==> Valid(View())
    {
      if Valid(View()) && model != "" {
        StepKeepsValid(View(), Request(model));
      }
      Begin(model);
    }

    method Begin(model: string)
      modifies this
      ensures View() == Start(old(View()), model)
    {
      if speedTestModel == model || model in speedTestQueue {
        return;
      }
      if speedTestModel != "" {
        speedTestQueue := speedTestQueue + [model];
        return;
      }
      speedTestModel := model;
    }

    method SpeedTestFinished()
      requires Enabled(View(), Finish)
      modifies this
      ensures View() == Step(old(View()), Finish)
      ensures old(Valid(View())) ==> Valid(View())
    {
      if Valid(View()) {
        StepKeepsValid(View(), Finish);
      }
      speedTestModel := "";
      if speedTestQueue != [] {
        var next := speedTestQueue[0];
        speedTestQueue := speedTestQueue[1..];
        pendingTimers := pendingTimers + multiset{next};
      }
    }

    method TimerFired(model: string)
      requires Enabled(View(), Fire(model))
      modifies this
      ensures View() == Step(old(View()), Fire(model))
      ensures old(Valid(View())) ==> Valid(View())
    {
      if Valid(View()) {
        StepKeepsValid(View(), Fire(model));
      }
      pendingTimers := pendingTimers - multiset{model};
      Begin(model);
    }

    method RemoveModel(model: string)
      modifies this
      ensures View() == Step(old(View()), Remove(model))
      ensures old(Valid(View())) ==> Valid(View())
    {
      if Valid(View()) {
        StepKeepsValid(View(), Remove(model));
      }
      speedTestQueue := Without(speedTestQueue, model);
    }
  }
}
