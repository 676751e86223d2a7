/** The server's tables of connections: accept slots, request buffers, deadlines and
    status watchers, through accepts, reads, commands, sweeps and disconnects that
    interleave anywhere an event loop may run. */
module IpcConnections {
  import opened Wrappers
  import opened TextBasics
  import opened IpcFraming
  import opened Runs

  datatype Socket = Socket(descriptor: int)

  const MAXIMUM_ACCEPTED_SOCKETS: nat := 8
  const MAXIMUM_STATUS_WATCHERS: nat := 32
  const INCOMPLETE_REQUEST_TIMEOUT_MS: nat := 2000

  /** The tables as the source has them, and around them: `running` are the frames a
      command loop has yet to handle, `open` the sockets that are connected, `released`
      those handed over for deletion, `landed` those a request was read from, and `since`
      says when each was accepted. */
  datatype Server = Server(
    accepted: set<Socket>,
    buffers: map<Socket, seq<Byte>>,
    deadlines: map<Socket, nat>,
    sweeping: bool,
    watchers: seq<Option<Socket>>,
    inCommand: set<Socket>,
    pendingDelete: set<Socket>,
    running: map<Socket, seq<seq<Byte>>>,
    open: set<Socket>,
    released: set<Socket>,
    landed: set<Socket>,
    since: map<Socket, nat>)

  const LISTENING: Server := Server({}, map[], map[], false, [], {}, {}, map[], {}, {}, {}, map[])

  datatype Event =
    | Connect(socket: Socket, thisUser: bool, now: nat)
    | ReadyRead(socket: Socket, chunk: seq<Byte>, now: nat)
    | Handle(socket: Socket)      // the command loop handles its next frame
    | Watch(socket: Socket)       // that command asks to watch
    | Unwind(socket: Socket)      // the command loop ends
    | Disconnect(socket: Socket)
    | Delete(socket: Socket)      // the event loop deletes a released socket
    | Sweep(keys: seq<Socket>, slow: set<Socket>, now: nat)

  predicate Watching(s: Server, socket: Socket) {
    Some(socket) in s.watchers
  }

  /** What Qt may deliver: a socket's own reads never nest, nothing more is heard from
      one that disconnected, and a command's loop ends when its frames do or when its
      socket watches. */
  predicate Enabled(s: Server, e: Event) {
    match e
    case Connect(socket, _, _) => socket !in s.open && socket !in s.released && !Watching(s, socket)
                                  && socket !in s.accepted && socket !in s.inCommand
    case ReadyRead(socket, _, _) =>
      socket in s.open && socket !in s.inCommand && (socket in s.accepted || Watching(s, socket))
    case Handle(socket) => socket in s.running && s.running[socket] != [] && !Watching(s, socket)
    case Watch(socket) => socket in s.inCommand && !Watching(s, socket)
    case Unwind(socket) => socket in s.running && (s.running[socket] == [] || Watching(s, socket))
    case Disconnect(socket) => socket in s.open
    case Delete(socket) => socket in s.released
    case Sweep(keys, _, _) => forall socket :: socket in s.deadlines ==> socket in keys
  }

  /** The tables without a socket. */
  function Forget(s: Server, socket: Socket): Server {
    s.(accepted := s.accepted - {socket}, buffers := s.buffers - {socket}, deadlines := s.deadlines - {socket})
  }

  function Release(s: Server, socket: Socket): Server {
    Forget(s, socket).(released := s.released + {socket})
  }

  /** A deadline armed unless one is running already. */
  function Arm(s: Server, socket: Socket, now: nat): Server {
    if socket in s.deadlines then s
    else s.(deadlines := s.deadlines[socket := now + INCOMPLETE_REQUEST_TIMEOUT_MS], sweeping := true)
  }

  function Buffered(s: Server, socket: Socket): seq<Byte> {
    if socket in s.buffers then s.buffers[socket] else []
  }

  /** The deadlines after a read that left `rest` and may have landed a request: nothing
      extends one that runs, and only a request that ends the buffer lifts it. */
  function NextDeadlines(
    deadlines: map<Socket, nat>, socket: Socket, rest: seq<Byte>, landed: bool, now: nat): (next: map<Socket, nat>)
    ensures forall other :: other in next && other in deadlines ==> next[other] == deadlines[other]
    ensures forall other :: other != socket ==> (other in next <==> other in deadlines)
    ensures rest != [] ==> socket in next
    ensures rest != [] && socket !in deadlines ==> next[socket] == now + INCOMPLETE_REQUEST_TIMEOUT_MS
    ensures rest == [] ==> (socket in next <==> socket in deadlines && !landed)
  {
    if rest == [] then if landed then deadlines - {socket} else deadlines
    else if socket in deadlines then deadlines
    else deadlines[socket := now + INCOMPLETE_REQUEST_TIMEOUT_MS]
  }

  function Settle(s: Server, socket: Socket, rest: seq<Byte>, requests: seq<seq<Byte>>, now: nat): Server {
    s.(buffers := s.buffers[socket := rest],
       landed := if requests != [] then s.landed + {socket} else s.landed,
       deadlines := NextDeadlines(s.deadlines, socket, rest, requests != [], now),
       sweeping := s.sweeping || (rest != [] && socket !in s.deadlines))
  }

  /** A command loop begun over the frames that are requests. */
  function Begin(s: Server, socket: Socket, requests: seq<seq<Byte>>): Server {
    s.(inCommand := s.inCommand + {socket}, running := s.running[socket := requests])
  }

  /** One read: frames are taken off the buffer, the deadline follows what is left, and
      the frames that are requests go to the command loop unless the buffer overflowed. */
  function TakeRead(syntax: Syntax, s: Server, socket: Socket, chunk: seq<Byte>, now: nat): Server {
    var whole := Buffered(s, socket) + chunk;
    if |whole| > MAXIMUM_REQUEST_BYTES then Settle(s, socket, whole, [], now)
    else
      var c := Cut(syntax, whole);
      Begin(Settle(s, socket, c.rest, Requests(syntax, c.frames), now), socket, Requests(syntax, c.frames))
  }

  /** The watchers whose sockets are gone dropped. */
  function Live(watchers: seq<Option<Socket>>): (live: seq<Option<Socket>>)
    ensures forall w :: w in live <==> w in watchers && w.Some?
    ensures |live| <= |watchers|
  {
    if watchers == [] then []
    else if watchers[0].None? then Live(watchers[1..])
    else [watchers[0]] + Live(watchers[1..])
  }

  /** The reference to a deleted socket reads as none. */
  function Nulled(watchers: seq<Option<Socket>>, socket: Socket): (nulled: seq<Option<Socket>>)
    ensures |nulled| == |watchers|
    ensures forall i :: 0 <= i < |watchers| ==>
              nulled[i] == if watchers[i] == Some(socket) then None else watchers[i]
  {
    seq(|watchers|, i requires 0 <= i < |watchers| => if watchers[i] == Some(socket) then None else watchers[i])
  }

  function Accept(s: Server, socket: Socket, now: nat): Server {
    Arm(s.(accepted := s.accepted + {socket}, open := s.open + {socket},
           landed := s.landed - {socket}, since := s.since[socket := now]), socket, now)
  }

  function AddWatcher(s: Server, socket: Socket): Server {
    Forget(s, socket).(watchers := Live(s.watchers) + [Some(socket)])
  }

  /** The command loop of a socket over, and what its disconnecting left to do done. */
  function EndCommand(s: Server, socket: Socket): Server {
    var ended := s.(inCommand := s.inCommand - {socket}, running := s.running - {socket},
                    pendingDelete := s.pendingDelete - {socket});
    if socket in s.pendingDelete then Release(ended, socket) else ended
  }

  /** A socket that hung up, or was hung up on: released, or left to its running command. */
  function Close(s: Server, socket: Socket): Server {
    var closed := s.(open := s.open - {socket});
    if socket in s.inCommand then closed.(pendingDelete := s.pendingDelete + {socket})
    else Release(closed, socket)
  }

  predicate Expired(s: Server, socket: Socket, now: nat) {
    socket in s.deadlines && s.deadlines[socket] <= now
  }

  /** The first `n` of the sockets that had a deadline looked at, and those past it hung
      up on. A socket with bytes still to be written closes later. */
  function HangUp(s: Server, keys: seq<Socket>, slow: set<Socket>, now: nat, n: nat): Server
    requires n <= |keys|
  {
    if n == 0 then s
    else
      var before := HangUp(s, keys, slow, now, n - 1);
      if Expired(before, keys[n - 1], now) && keys[n - 1] in before.open && keys[n - 1] !in slow then
        Close(before, keys[n - 1])
      else before
  }

  function EndSweep(s: Server): Server {
    if s.deadlines == map[] then s.(sweeping := false) else s
  }

  /** An event that cannot come changes nothing. */
  function Step(syntax: Syntax, s: Server, e: Event): Server {
    if !Enabled(s, e) then s
    else
      match e
      case Connect(socket, thisUser, now) =>
        if |s.accepted| >= MAXIMUM_ACCEPTED_SOCKETS || !thisUser then s.(released := s.released + {socket})
        else Accept(s, socket, now)
      case ReadyRead(socket, chunk, now) =>
        if Watching(s, socket) then s else TakeRead(syntax, s, socket, chunk, now)
      case Handle(socket) => s.(running := s.running[socket := s.running[socket][1..]])
      case Watch(socket) =>
        if socket !in s.open then s
        else if |Live(s.watchers)| >= MAXIMUM_STATUS_WATCHERS then s.(watchers := Live(s.watchers))
        else AddWatcher(s, socket)
      case Unwind(socket) => EndCommand(s, socket)
      case Disconnect(socket) => Close(s, socket)
      case Delete(socket) => s.(released := s.released - {socket}, watchers := Nulled(s.watchers, socket))
      case Sweep(keys, slow, now) => EndSweep(HangUp(s, keys, slow, now, |keys|))
  }

  // ----- What every run keeps

  ghost predicate DistinctWatchers(watchers: seq<Option<Socket>>) {
    forall i, j :: 0 <= i < j < |watchers| && watchers[i].Some? ==> watchers[i] != watchers[j]
  }

  /** A buffer or a deadline belongs to a slot; a watcher has none of the three. */
  predicate TablesAgree(s: Server, socket: Socket) {
    && (socket in s.buffers || socket in s.deadlines ==> socket in s.accepted)
    && !(socket in s.accepted && Watching(s, socket))
  }

  /** A part of a request is never held without a deadline, nor a slot beyond its time
      by a client that has yet to ask for anything. */
  predicate Timed(s: Server, socket: Socket) {
    && (socket in s.buffers && s.buffers[socket] != [] ==> socket in s.deadlines)
    && (socket in s.accepted && socket !in s.landed ==>
          socket in s.deadlines && socket in s.since
          && s.deadlines[socket] == s.since[socket] + INCOMPLETE_REQUEST_TIMEOUT_MS)
  }

  /** A socket is not released while its own command runs, and one that disconnected
      keeps its slot only until that command unwinds. */
  predicate Safe(s: Server, socket: Socket) {
    && (socket in s.inCommand <==> socket in s.running)
    && (socket in s.pendingDelete ==> socket in s.inCommand && socket !in s.open)
    && (socket in s.released ==> socket !in s.inCommand && socket !in s.open && socket !in s.accepted)
    && (socket in s.accepted || socket in s.inCommand ==> socket in s.open || socket in s.pendingDelete)
    && (Watching(s, socket) ==> socket in s.open || socket in s.pendingDelete || socket in s.released)
  }

  predicate Sound(s: Server, socket: Socket) {
    TablesAgree(s, socket) && Timed(s, socket) && Safe(s, socket)
  }

  ghost predicate Valid(s: Server) {
    && |s.accepted| <= MAXIMUM_ACCEPTED_SOCKETS && |s.watchers| <= MAXIMUM_STATUS_WATCHERS
    && DistinctWatchers(s.watchers)
    && (s.deadlines != map[] ==> s.sweeping)
    && forall socket :: Sound(s, socket)
  }

  lemma AcceptKeepsValid(s: Server, socket: Socket, now: nat)
    requires Valid(s) && Enabled(s, Connect(socket, true, now)) && |s.accepted| < MAXIMUM_ACCEPTED_SOCKETS
    ensures Valid(Accept(s, socket, now))
  {
    forall other ensures Sound(Accept(s, socket, now), other) {
      assert Sound(s, other);
    }
  }

  lemma SettleKeepsSound(
    s: Server, socket: Socket, rest: seq<Byte>, requests: seq<seq<Byte>>, now: nat, other: Socket)
    requires Sound(s, socket) && Sound(s, other) && socket in s.accepted
    ensures Sound(Settle(s, socket, rest, requests, now), other)
  {
    var after := Settle(s, socket, rest, requests, now);
    if other != socket {
      assert other in after.deadlines <==> other in s.deadlines;
      assert other in after.buffers <==> other in s.buffers;
      return;
    }
    assert TablesAgree(after, socket);
    assert Timed(after, socket);
  }

  lemma SettleKeepsValid(s: Server, socket: Socket, rest: seq<Byte>, requests: seq<seq<Byte>>, now: nat)
    requires Valid(s) && socket in s.accepted
    ensures Valid(Settle(s, socket, rest, requests, now))
  {
    var after := Settle(s, socket, rest, requests, now);
    forall other ensures Sound(after, other) {
      SettleKeepsSound(s, socket, rest, requests, now, other);
    }
  }

  lemma BeginKeepsValid(s: Server, socket: Socket, requests: seq<seq<Byte>>)
    requires Valid(s) && socket in s.open
    ensures Valid(Begin(s, socket, requests))
  {
    assert Sound(s, socket);
    forall other ensures Sound(Begin(s, socket, requests), other) {
      assert Sound(s, other);
    }
  }

  lemma ReadKeepsValid(syntax: Syntax, s: Server, socket: Socket, chunk: seq<Byte>, now: nat)
    requires Valid(s) && socket in s.accepted && socket in s.open
    ensures Valid(TakeRead(syntax, s, socket, chunk, now))
  {
    var whole := Buffered(s, socket) + chunk;
    if |whole| > MAXIMUM_REQUEST_BYTES {
      SettleKeepsValid(s, socket, whole, [], now);
    } else {
      var c := Cut(syntax, whole);
      var requests := Requests(syntax, c.frames);
      SettleKeepsValid(s, socket, c.rest, requests, now);
      BeginKeepsValid(Settle(s, socket, c.rest, requests, now), socket, requests);
    }
  }

  lemma {:induction false} LiveKeepsDistinct(watchers: seq<Option<Socket>>)
    requires DistinctWatchers(watchers)
    ensures DistinctWatchers(Live(watchers))
  {
    if watchers != [] {
      LiveKeepsDistinct(watchers[1..]);
      var live := Live(watchers[1..]);
      assert watchers[0].Some? ==> watchers[0] !in watchers[1..];
      assert watchers[0].Some? ==> watchers[0] !in live;
    }
  }

  lemma AddWatcherKeepsValid(s: Server, socket: Socket)
    requires Valid(s) && socket in s.open && !Watching(s, socket) && |Live(s.watchers)| < MAXIMUM_STATUS_WATCHERS
    ensures Valid(AddWatcher(s, socket))
  {
    LiveKeepsDistinct(s.watchers);
    var live := Live(s.watchers);
    assert Some(socket) !in live;
    forall other ensures Sound(AddWatcher(s, socket), other) {
      assert Some(other) in live + [Some(socket)] <==> Some(other) in live || other == socket;
      assert Sound(s, other);
    }
  }

  lemma DropWatchersKeepsValid(s: Server)
    requires Valid(s)
    ensures Valid(s.(watchers := Live(s.watchers)))
  {
    LiveKeepsDistinct(s.watchers);
    forall other ensures Sound(s.(watchers := Live(s.watchers)), other) {
      assert Sound(s, other);
    }
  }

  lemma ReleaseKeepsValid(s: Server, socket: Socket)
    requires Valid(s) && socket !in s.inCommand
    ensures Valid(Release(s.(open := s.open - {socket}), socket))
  {
    forall other ensures Sound(Release(s.(open := s.open - {socket}), socket), other) {
      assert Sound(s, other);
    }
  }

  lemma EndCommandKeepsValid(s: Server, socket: Socket)
    requires Valid(s) && socket in s.inCommand
    ensures Valid(EndCommand(s, socket))
  {
    assert Sound(s, socket);
    forall other ensures Sound(EndCommand(s, socket), other) {
      assert Sound(s, other);
    }
  }

  lemma DeleteKeepsValid(s: Server, socket: Socket)
    requires Valid(s) && socket in s.released
    ensures Valid(s.(released := s.released - {socket}, watchers := Nulled(s.watchers, socket)))
  {
    var watchers := Nulled(s.watchers, socket);
    forall other ensures Sound(s.(released := s.released - {socket}, watchers := watchers), other) {
      assert Sound(s, other);
      if Some(other) in watchers {
        var i :| 0 <= i < |watchers| && watchers[i] == Some(other);
        assert s.watchers[i] == Some(other) && other != socket;
      }
    }
  }

  predicate MovesNoTable(s: Server, e: Event) {
    match e
    case Connect(_, thisUser, _) => |s.accepted| >= MAXIMUM_ACCEPTED_SOCKETS || !thisUser
    case Handle(_) => true
    case _ => false
  }

  lemma QuietStepKeepsValid(syntax: Syntax, s: Server, e: Event)
    requires Valid(s) && Enabled(s, e) && MovesNoTable(s, e)
    ensures Valid(Step(syntax, s, e))
  {
    forall other ensures Sound(Step(syntax, s, e), other) {
      assert Sound(s, other);
    }
  }

  lemma CloseKeepsValid(s: Server, socket: Socket)
    requires Valid(s) && socket in s.open
    ensures Valid(Close(s, socket))
  {
    if socket !in s.inCommand {
      ReleaseKeepsValid(s, socket);
    } else {
      forall other ensures Sound(Close(s, socket), other) {
        assert Sound(s, other);
      }
    }
  }

  /** Hanging up keeps the tables sound, starts and ends no command, touches nothing of a
      socket in time, and leaves nobody past a deadline but those it cannot close yet. */
  lemma {:induction false} HangUpFreesSlots(s: Server, keys: seq<Socket>, slow: set<Socket>, now: nat, n: nat)
    requires n <= |keys| && Valid(s)
    ensures var after := HangUp(s, keys, slow, now, n);
            && Valid(after)
            && after.inCommand == s.inCommand && after.landed == s.landed && after.since == s.since
            && (forall socket :: socket in after.deadlines ==>
                  socket in s.deadlines && after.deadlines[socket] == s.deadlines[socket])
            && (forall socket :: socket in s.accepted && !Expired(s, socket, now) ==>
                  socket in after.accepted && (socket in s.open <==> socket in after.open)
                  && (socket in s.deadlines <==> socket in after.deadlines))
            && (forall k :: 0 <= k < n && Expired(after, keys[k], now) ==>
                  keys[k] in s.inCommand || keys[k] in slow)
  {
    if n > 0 {
      HangUpFreesSlots(s, keys, slow, now, n - 1);
      var before, key := HangUp(s, keys, slow, now, n - 1), keys[n - 1];
      assert Sound(before, key);
      if Expired(before, key, now) && key in before.open && key !in slow {
        CloseKeepsValid(before, key);
      }
    }
  }

  lemma SweepKeepsValid(syntax: Syntax, s: Server, e: Event)
    requires Valid(s) && Enabled(s, e) && e.Sweep?
    ensures Valid(Step(syntax, s, e))
  {
    var swept := HangUp(s, e.keys, e.slow, e.now, |e.keys|);
    HangUpFreesSlots(s, e.keys, e.slow, e.now, |e.keys|);
    forall other ensures Sound(EndSweep(swept), other) {
      assert Sound(swept, other);
    }
  }

  lemma StepKeepsValid(syntax: Syntax, s: Server, e: Event)
    requires Valid(s)
    ensures Valid(Step(syntax, s, e))
  {
    if !Enabled(s, e) {
      return;
    }
    if MovesNoTable(s, e) {
      QuietStepKeepsValid(syntax, s, e);
      return;
    }
    match e
    case Connect(socket, _, now) => AcceptKeepsValid(s, socket, now);
    case ReadyRead(socket, chunk, now) =>
      if !Watching(s, socket) {
        ReadKeepsValid(syntax, s, socket, chunk, now);
      }
    case Watch(socket) =>
      DropWatchersKeepsValid(s);
      if |Live(s.watchers)| < MAXIMUM_STATUS_WATCHERS && socket in s.open {
        AddWatcherKeepsValid(s, socket);
      }
    case Unwind(socket) =>
      assert Sound(s, socket);
      EndCommandKeepsValid(s, socket);
    case Disconnect(socket) => CloseKeepsValid(s, socket);
    case Delete(socket) => DeleteKeepsValid(s, socket);
    case Sweep(_, _, _) => SweepKeepsValid(syntax, s, e);
    case _ =>
  }

  /** The server after the first `n` events of any run. */
  function Mover(syntax: Syntax): (Server, Event) -> Server {
    (s: Server, e: Event) => Step(syntax, s, e)
  }

  function After(syntax: Syntax, events: seq<Event>, n: nat): Server
    requires n <= |events|
  {
    Run(Mover(syntax), LISTENING, events, n)
  }

  lemma RunKeepsValid(syntax: Syntax, events: seq<Event>, n: nat)
    requires n <= |events|
    ensures Valid(After(syntax, events, n))
  {
    var step := Mover(syntax);
    forall s, e | Valid(s) ensures Valid(step(s, e)) {
      StepKeepsValid(syntax, s, e);
    }
    assert forall socket :: Sound(LISTENING, socket);
    RunKeeps(step, LISTENING, events, 0, n, Valid);
  }

  /** A server just listening, after any events at all. A watcher whose socket was let go
      stays on its list until the socket is deleted, and no longer. */
  lemma TablesAreSound(syntax: Syntax, events: seq<Event>, n: nat, socket: Socket)
    requires n <= |events|
    ensures var s := After(syntax, events, n);
            && |s.accepted| <= 8 && |s.watchers| <= 32
            && (Watching(s, socket) ==>
                  socket !in s.accepted && socket !in s.buffers && socket !in s.deadlines)
            && (socket in s.buffers && s.buffers[socket] != [] ==> socket in s.deadlines)
            && (s.deadlines != map[] ==> s.sweeping)
            && (socket in s.inCommand ==> socket !in s.released)
            && (socket !in s.open && socket !in s.inCommand ==>
                  && socket !in s.accepted && socket !in s.buffers && socket !in s.deadlines
                  && socket !in s.pendingDelete
                  && (socket !in s.released ==> !Watching(s, socket)))
  {
    RunKeepsValid(syntax, events, n);
    assert Sound(After(syntax, events, n), socket);
  }

  // ----- Who is let in, and out

  /** A connection of this user is accepted while fewer than eight are, and its time runs
      from then; every other is let go at once and given nothing. */
  lemma ConnectionsAreLetIn(syntax: Syntax, s: Server, socket: Socket, thisUser: bool, now: nat)
    requires Valid(s) && Enabled(s, Connect(socket, thisUser, now))
    ensures var next := Step(syntax, s, Connect(socket, thisUser, now));
            && next.accepted == (if thisUser && |s.accepted| < 8 then s.accepted + {socket} else s.accepted)
            && (socket in next.released <==> !(thisUser && |s.accepted| < 8))
            && (thisUser && |s.accepted| < 8 ==>
                  && socket in next.open && next.sweeping
                  && socket in next.deadlines && next.deadlines[socket] == now + 2000)
            && (!(thisUser && |s.accepted| < 8) ==> next.open == s.open && next.deadlines == s.deadlines)
  {
    assert Sound(s, socket);
  }

  lemma NobodyElseIsLetIn(syntax: Syntax, s: Server, e: Event, socket: Socket)
    requires Valid(s) && socket !in s.accepted && socket in Step(syntax, s, e).accepted
    ensures e.Connect? && e.socket == socket && e.thisUser && |s.accepted| < 8
  {
    if !e.Connect? {
      OthersLetInNobody(syntax, s, e);
    } else if Enabled(s, e) {
      ConnectionsAreLetIn(syntax, s, e.socket, e.thisUser, e.now);
    }
  }

  lemma OthersLetInNobody(syntax: Syntax, s: Server, e: Event)
    requires !e.Connect?
    ensures Step(syntax, s, e).accepted <= s.accepted
  {
    match e
    case Sweep(keys, slow, now) => HangUpAcceptsNobody(s, keys, slow, now, |keys|);
    case ReadyRead(other, chunk, now) =>
    case _ =>
  }

  lemma {:induction false} HangUpAcceptsNobody(s: Server, keys: seq<Socket>, slow: set<Socket>, now: nat, n: nat)
    requires n <= |keys|
    ensures HangUp(s, keys, slow, now, n).accepted <= s.accepted
  {
    if n > 0 {
      HangUpAcceptsNobody(s, keys, slow, now, n - 1);
    }
  }

  /** Event `k` let the socket in, as one of this user's. */
  predicate LetIn(events: seq<Event>, k: nat, socket: Socket) {
    k < |events| && events[k].Connect? && events[k].socket == socket && events[k].thisUser
  }

  /** In every run, whoever holds a slot is this user's: it was let in as such, and has held
      the slot since. */
  lemma {:induction false} SlotsAreThisUsers(syntax: Syntax, events: seq<Event>, n: nat, socket: Socket)
    returns (k: nat)
    requires n <= |events| && socket in After(syntax, events, n).accepted
    ensures k < n && LetIn(events, k, socket)
    ensures forall j :: k < j <= n ==> socket in After(syntax, events, j).accepted
  {
    assert After(syntax, events, 0) == LISTENING;
    if socket in After(syntax, events, n - 1).accepted {
      k := SlotsAreThisUsers(syntax, events, n - 1, socket);
    } else {
      RunKeepsValid(syntax, events, n - 1);
      NobodyElseIsLetIn(syntax, After(syntax, events, n - 1), events[n - 1], socket);
      k := n - 1;
    }
  }

  /** A command that asks to watch while its client is there does, unless 32 watchers are
      left, and holds nothing else from then on. */
  lemma WatchersAreLetIn(syntax: Syntax, s: Server, socket: Socket)
    requires Enabled(s, Watch(socket))
    ensures var next := Step(syntax, s, Watch(socket));
            && (socket in s.open && |Live(s.watchers)| < 32 ==>
                  && Watching(next, socket) && socket !in next.accepted
                  && socket !in next.buffers && socket !in next.deadlines)
            && (!(socket in s.open && |Live(s.watchers)| < 32) ==>
                  !Watching(next, socket) && next.accepted == s.accepted && next.buffers == s.buffers)
            && (forall other :: other != socket ==> (Watching(next, other) <==> Watching(s, other)))
  {
    forall other ensures Some(other) in Live(s.watchers) + [Some(socket)] <==> Watching(s, other) || other == socket {
    }
  }

  /** A client that is gone is released, at once or when its command is over, and deleted
      with its watch. */
  lemma GoneIsReleased(syntax: Syntax, s: Server, socket: Socket)
    ensures socket in s.open ==>
              var next := Step(syntax, s, Disconnect(socket));
              && socket !in next.open
              && (socket in s.inCommand ==> socket in next.pendingDelete)
              && (socket !in s.inCommand ==> socket in next.released)
    ensures Enabled(s, Unwind(socket)) ==>
              var next := Step(syntax, s, Unwind(socket));
              && socket !in next.inCommand && socket !in next.running
              && (socket in s.pendingDelete ==> socket in next.released && socket !in next.pendingDelete)
              && (socket !in s.pendingDelete ==> next.released == s.released && next.accepted == s.accepted)
    ensures socket in s.released ==>
              var next := Step(syntax, s, Delete(socket));
              socket !in next.released && !Watching(next, socket)
  {
  }

  /** A read whose requests end the buffer lifts the deadline and has them answered, one
      after the other; one that leaves something is given time for the rest, and one that
      is too large is answered nothing. */
  lemma ReadsAreAnswered(syntax: Syntax, s: Server, socket: Socket, chunk: seq<Byte>, now: nat)
    requires Enabled(s, ReadyRead(socket, chunk, now)) && !Watching(s, socket)
    ensures var next := Step(syntax, s, ReadyRead(socket, chunk, now));
            var whole := Buffered(s, socket) + chunk;
            var c := Cut(syntax, whole);
            if |whole| > 65536 then
              next.running == s.running && Buffered(next, socket) == whole && socket in next.deadlines
            else
              && socket in next.running && next.running[socket] == Requests(syntax, c.frames)
              && Buffered(next, socket) == c.rest
              && (c.rest == [] && Requests(syntax, c.frames) != [] ==> socket !in next.deadlines)
              && (c.rest != [] ==> socket in next.deadlines
                                   && (socket !in s.deadlines ==> next.deadlines[socket] == now + 2000))
    ensures Enabled(s, Handle(socket)) ==>
              Step(syntax, s, Handle(socket)).running == s.running[socket := s.running[socket][1..]]
  {
  }

  // ----- Deadlines

  /** Nothing a client sends moves the deadline it is under. */
  lemma DeadlinesAreNotExtended(syntax: Syntax, s: Server, e: Event, socket: Socket)
    requires Valid(s)
    requires socket in s.deadlines && socket in Step(syntax, s, e).deadlines
    ensures Step(syntax, s, e).deadlines[socket] == s.deadlines[socket]
  {
    match e
    case Connect(_, _, _) => assert Sound(s, socket);
    case ReadyRead(other, chunk, now) =>
      var whole := Buffered(s, other) + chunk;
      if Enabled(s, e) && !Watching(s, other) && |whole| > MAXIMUM_REQUEST_BYTES {
        assert Step(syntax, s, e) == Settle(s, other, whole, [], now);
      }
    case Sweep(keys, slow, now) => HangUpFreesSlots(s, keys, slow, now, |keys|);
    case _ =>
  }

  /** After a sweep nobody past the deadline holds a slot but a socket whose command runs
      or one with bytes still to be written, and the sweeping goes on while anybody has
      a deadline. */
  lemma SweepFreesSlots(syntax: Syntax, s: Server, e: Event, socket: Socket)
    requires Valid(s) && Enabled(s, e) && e.Sweep?
    ensures var after := Step(syntax, s, e);
            && (Expired(after, socket, e.now) ==> socket in after.inCommand || socket in e.slow)
            && (Expired(s, socket, e.now) && socket !in s.inCommand && socket !in e.slow ==>
                  !Expired(after, socket, e.now))
            && (socket in s.accepted && !Expired(s, socket, e.now) ==> socket in after.accepted)
            && (after.sweeping <==> s.sweeping && after.deadlines != map[])
  {
    HangUpFreesSlots(s, e.keys, e.slow, e.now, |e.keys|);
    HangUpKeepsSweeping(s, e.keys, e.slow, e.now, |e.keys|);
    var swept := HangUp(s, e.keys, e.slow, e.now, |e.keys|);
    if Expired(swept, socket, e.now) {
      var k :| 0 <= k < |e.keys| && e.keys[k] == socket;
      assert Expired(swept, e.keys[k], e.now);
    }
  }

  lemma {:induction false} HangUpKeepsSweeping(s: Server, keys: seq<Socket>, slow: set<Socket>, now: nat, n: nat)
    requires n <= |keys|
    ensures HangUp(s, keys, slow, now, n).sweeping == s.sweeping
  {
    if n > 0 {
      HangUpKeepsSweeping(s, keys, slow, now, n - 1);
    }
  }

  /** Whatever else happened, a client that holds a slot and has asked for nothing in
      the time it is given loses it to the next sweep. */
  lemma SilentClientIsSwept(syntax: Syntax, events: seq<Event>, n: nat, socket: Socket, e: Event)
    requires n <= |events| && e.Sweep? && Enabled(After(syntax, events, n), e)
    requires var s := After(syntax, events, n);
             && socket in s.accepted && socket !in s.landed
             && (socket in s.since ==> e.now >= s.since[socket] + INCOMPLETE_REQUEST_TIMEOUT_MS)
    ensures var s := After(syntax, events, n);
            && s.sweeping
            && (socket in s.inCommand || socket in e.slow || socket !in Step(syntax, s, e).accepted)
  {
    var s := After(syntax, events, n);
    RunKeepsValid(syntax, events, n);
    SilentClientLosesSlot(syntax, s, socket, e);
  }

  lemma SilentClientLosesSlot(syntax: Syntax, s: Server, socket: Socket, e: Event)
    requires Valid(s) && e.Sweep? && Enabled(s, e)
    requires socket in s.accepted && socket !in s.landed
    requires socket in s.since ==> e.now >= s.since[socket] + INCOMPLETE_REQUEST_TIMEOUT_MS
    ensures s.sweeping
    ensures socket in s.inCommand || socket in e.slow || socket !in Step(syntax, s, e).accepted
  {
    assert Sound(s, socket);
    HangUpFreesSlots(s, e.keys, e.slow, e.now, |e.keys|);
    var swept := HangUp(s, e.keys, e.slow, e.now, |e.keys|);
    assert Sound(swept, socket);
    SweepFreesSlots(syntax, s, e, socket);
  }

  // ----- The server itself

  class SingleInstanceIpc {
    var acceptedSockets: set<Socket>
    var requestBuffers: map<Socket, seq<Byte>>
    var incompleteRequestDeadlines: map<Socket, nat>
    var expirySweepActive: bool
    var statusWatchers: seq<Option<Socket>>
    var socketsInCommand: set<Socket>
    var socketsPendingDelete: set<Socket>
    var framesLeft: map<Socket, seq<seq<Byte>>>
    var open: set<Socket>  // the sockets' own states
    ghost var released: set<Socket>
    ghost var landed: set<Socket>
    ghost var since: map<Socket, nat>

    ghost function View(): Server
      reads this
    {
      Server(acceptedSockets, requestBuffers, incompleteRequestDeadlines, expirySweepActive, statusWatchers,
             socketsInCommand, socketsPendingDelete, framesLeft, open, released, landed, since)
    }

    constructor ()
      ensures View() == LISTENING
    {
      acceptedSockets, requestBuffers, incompleteRequestDeadlines, expirySweepActive := {}, map[], map[], false;
      statusWatchers, socketsInCommand, socketsPendingDelete, framesLeft := [], {}, {}, map[];
      open, released, landed, since := {}, {}, {}, map[];
    }

    method NewConnection(ghost syntax: Syntax, socket: Socket, thisUser: bool, now: nat)
      requires Enabled(View(), Connect(socket, thisUser, now)) && Sound(View(), socket)
      modifies this
      ensures View() == Step(syntax, old(View()), Connect(socket, thisUser, now))
    {
      if |acceptedSockets| >= MAXIMUM_ACCEPTED_SOCKETS || !thisUser {
        released := released + {socket};
        return;
      }
      acceptedSockets := acceptedSockets + {socket};
      incompleteRequestDeadlines := incompleteRequestDeadlines[socket := now + INCOMPLETE_REQUEST_TIMEOUT_MS];
      expirySweepActive := true;
      open, landed, since := open + {socket}, landed - {socket}, since[socket := now];
    }

    method SettleDeadline(socket: Socket, rest: seq<Byte>, requests: seq<seq<Byte>>, now: nat)
      modifies this
      ensures View() == Settle(old(View()), socket, rest, requests, now)
    {
      requestBuffers := requestBuffers[socket := rest];
      if requests != [] {
        landed := landed + {socket};
      }
      if rest == [] {
        if requests != [] {
          incompleteRequestDeadlines := incompleteRequestDeadlines - {socket};
        }
      } else if socket !in incompleteRequestDeadlines {
        incompleteRequestDeadlines := incompleteRequestDeadlines[socket := now + INCOMPLETE_REQUEST_TIMEOUT_MS];
        expirySweepActive := true;
      }
    }

    method ReadRequests(syntax: Syntax, socket: Socket, chunk: seq<Byte>, now: nat) returns (tooLarge: bool)
      requires Enabled(View(), ReadyRead(socket, chunk, now))
      modifies this
      ensures View() == Step(syntax, old(View()), ReadyRead(socket, chunk, now))
      ensures tooLarge <==>
                !Watching(old(View()), socket) && |Buffered(old(View()), socket) + chunk| > MAXIMUM_REQUEST_BYTES
    {
      if Some(socket) in statusWatchers {
        return false;
      }
      var buffer := new RequestBuffer();
      if socket in requestBuffers {
        buffer.buffer := requestBuffers[socket];
      }
      var frames;
      frames, tooLarge := buffer.Take(syntax, chunk);
      var requests := buffer.NonBlank(syntax, frames);
      SettleDeadline(socket, buffer.buffer, requests, now);
      if tooLarge {
        return;
      }
      socketsInCommand := socketsInCommand + {socket};
      framesLeft := framesLeft[socket := requests];
    }

    /** One turn of the command loop: the frame to answer, or none when the loop is over. */
    method NextFrame(ghost syntax: Syntax, socket: Socket) returns (frame: Option<seq<Byte>>)
      requires socket in socketsInCommand && socket in framesLeft
      modifies this
      ensures var e := if frame.Some? then Handle(socket) else Unwind(socket);
              Enabled(old(View()), e) && View() == Step(syntax, old(View()), e)
      ensures frame.Some? ==> frame.value == old(framesLeft)[socket][0]
    {
      if framesLeft[socket] != [] && Some(socket) !in statusWatchers {
        frame := Some(framesLeft[socket][0]);
        framesLeft := framesLeft[socket := framesLeft[socket][1..]];
        return;
      }
      frame := None;
      framesLeft := framesLeft - {socket};
      socketsInCommand := socketsInCommand - {socket};
      if socket in socketsPendingDelete {
        socketsPendingDelete := socketsPendingDelete - {socket};
        DeleteLater(socket);
      }
    }

    method DeleteLater(socket: Socket)
      modifies this
      ensures View() == Release(old(View()), socket)
    {
      requestBuffers := requestBuffers - {socket};
      incompleteRequestDeadlines := incompleteRequestDeadlines - {socket};
      acceptedSockets := acceptedSockets - {socket};
      released := released + {socket};
    }

    method Disconnected(ghost syntax: Syntax, socket: Socket)
      requires Enabled(View(), Disconnect(socket))
      modifies this
      ensures View() == Step(syntax, old(View()), Disconnect(socket))
    {
      open := open - {socket};
      if socket in socketsInCommand {
        socketsPendingDelete := socketsPendingDelete + {socket};
        return;
      }
      DeleteLater(socket);
    }

    method RemoveDeletedWatchers() returns (live: seq<Option<Socket>>)
      ensures live == Live(statusWatchers)
    {
      live := [];
      for i := 0 to |statusWatchers|
        invariant Live(statusWatchers) == live + Live(statusWatchers[i..])
      {
        assert statusWatchers[i..][1..] == statusWatchers[i + 1..];
        if statusWatchers[i].Some? {
          live := live + [statusWatchers[i]];
        }
      }
    }

    method AddStatusWatcher(ghost syntax: Syntax, socket: Socket, connected: bool) returns (refused: bool)
      requires Enabled(View(), Watch(socket))
      requires connected <==> socket in open
      modifies this
      ensures View() == Step(syntax, old(View()), Watch(socket))
      ensures refused <==> connected && |Live(old(statusWatchers))| >= MAXIMUM_STATUS_WATCHERS
    {
      if !connected {
        return false;
      }
      statusWatchers := RemoveDeletedWatchers();
      if |statusWatchers| >= MAXIMUM_STATUS_WATCHERS {
        return true;
      }
      acceptedSockets := acceptedSockets - {socket};
      requestBuffers := requestBuffers - {socket};
      incompleteRequestDeadlines := incompleteRequestDeadlines - {socket};
      statusWatchers := statusWatchers + [Some(socket)];
      return false;
    }

    /** `keys` are the sockets with a deadline, in the order the table walks them. */
    method SweepExpired(ghost syntax: Syntax, keys: seq<Socket>, slow: set<Socket>, now: nat)
      requires Enabled(View(), Sweep(keys, slow, now))
      modifies this
      ensures View() == Step(syntax, old(View()), Sweep(keys, slow, now))
    {
      ghost var before := View();
      for i := 0 to |keys|
        invariant View() == HangUp(before, keys, slow, now, i)
      {
        if keys[i] in incompleteRequestDeadlines && incompleteRequestDeadlines[keys[i]] <= now
           && keys[i] in open && keys[i] !in slow {
          Disconnected(syntax, keys[i]);
        }
      }
      if incompleteRequestDeadlines == map[] {
        expirySweepActive := false;
      }
    }
  }
}
