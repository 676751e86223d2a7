/** One client of the server: the commands it is given are the requests it sent, in order,
    whatever other clients do in between. */
module IpcClients {
  import opened Wrappers
  import opened TextBasics
  import opened IpcFraming
  import opened IpcConnections
  import opened Runs

  /** A run so far: the server, and since a client last connected the reads of it and the
      frames its command loop was given. */
  datatype Heard = Heard(server: Server, chunks: seq<seq<Byte>>, handled: seq<seq<Byte>>)

  function Hear(syntax: Syntax, client: Socket, h: Heard, e: Event): Heard {
    var s, next := h.server, Step(syntax, h.server, e);
    if !Enabled(s, e) then h
    else if e == Handle(client) then Heard(next, h.chunks, h.handled + [s.running[client][0]])
    else if e.Connect? && e.socket == client then Heard(next, [], [])
    else if e.ReadyRead? && e.socket == client && !Watching(s, client) then Heard(next, h.chunks + [e.chunk], h.handled)
    else h.(server := next)
  }

  function Left(s: Server, client: Socket): seq<seq<Byte>> {
    if client in s.running then s.running[client] else []
  }

  /** The server follows a client it has accepted as the reader of its stream would, until
      one hangs up on what is too large; and a command loop runs only for a client that
      was accepted or has come to watch. */
  predicate Follows(syntax: Syntax, client: Socket, h: Heard) {
    var s, r := h.server, ReadAll(syntax, FRESH, h.chunks);
    && (client in s.accepted && !r.hungUp ==>
          Buffered(s, client) == r.buffer && h.handled + Left(s, client) == r.delivered)
    && (client in s.accepted && r.hungUp ==> |Buffered(s, client)| > MAXIMUM_REQUEST_BYTES)
    && (client in s.running ==> client in s.accepted || Watching(s, client))
    && h.handled + (if client in s.accepted then Left(s, client) else []) <= r.delivered
  }

  ghost predicate Sounds(syntax: Syntax, client: Socket, h: Heard) {
    Valid(h.server) && Follows(syntax, client, h)
  }

  lemma {:induction false} ReadAllThen(syntax: Syntax, r: Reader, chunks: seq<seq<Byte>>, chunk: seq<Byte>)
    ensures ReadAll(syntax, r, chunks + [chunk]) == Read(syntax, ReadAll(syntax, r, chunks), chunk)
    decreases |chunks|
  {
    if chunks == [] {
      assert [chunk][1..] == [];
    } else {
      assert (chunks + [chunk])[1..] == chunks[1..] + [chunk];
      ReadAllThen(syntax, Read(syntax, r, chunks[0]), chunks[1..], chunk);
    }
  }

  /** What a step does to a client that it is not about. */
  predicate LeavesAlone(s: Server, next: Server, client: Socket) {
    && (client in next.accepted ==> client in s.accepted && Buffered(next, client) == Buffered(s, client))
    && (client in next.running <==> client in s.running) && Left(next, client) == Left(s, client)
    && (client in s.running && client in s.accepted ==> client in next.accepted)
    && (client in s.running && Watching(s, client) ==> Watching(next, client))
  }

  lemma {:induction false} HangUpLeavesAlone(
    s: Server, keys: seq<Socket>, slow: set<Socket>, now: nat, n: nat, client: Socket)
    requires n <= |keys| && (client in s.inCommand <==> client in s.running)
    ensures var after := HangUp(s, keys, slow, now, n);
            LeavesAlone(s, after, client) && after.inCommand == s.inCommand && after.running == s.running
            && after.watchers == s.watchers
  {
    if n > 0 {
      HangUpLeavesAlone(s, keys, slow, now, n - 1, client);
      CloseLeavesAlone(HangUp(s, keys, slow, now, n - 1), keys[n - 1], client);
    }
  }

  /** Everything but its own connecting, reads, commands and watching. */
  predicate IsAbout(client: Socket, s: Server, e: Event) {
    match e
    case Connect(socket, _, _) => socket == client
    case ReadyRead(socket, _, _) => socket == client && !Watching(s, client)
    case Handle(socket) => socket == client
    case Watch(socket) => socket == client
    case Unwind(socket) => socket == client
    case _ => false
  }

  lemma WatchOfAnother(s: Server, socket: Socket, client: Socket)
    requires socket != client
    ensures LeavesAlone(s, AddWatcher(s, socket), client)
    ensures LeavesAlone(s, s.(watchers := Live(s.watchers)), client)
  {
    assert forall w :: w in Live(s.watchers) + [Some(socket)] <==> w in Live(s.watchers) || w == Some(socket);
  }

  lemma DeletionOfAnother(s: Server, socket: Socket, client: Socket)
    requires Valid(s) && socket in s.released
    ensures LeavesAlone(s, s.(released := s.released - {socket}, watchers := Nulled(s.watchers, socket)), client)
  {
    assert Sound(s, client);
    if Watching(s, client) && client != socket {
      var i :| 0 <= i < |s.watchers| && s.watchers[i] == Some(client);
      assert Nulled(s.watchers, socket)[i] == Some(client);
    }
  }

  lemma EndOfAnother(s: Server, socket: Socket, client: Socket)
    requires socket != client
    ensures LeavesAlone(s, EndCommand(s, socket), client)
  {
  }

  lemma CloseLeavesAlone(s: Server, socket: Socket, client: Socket)
    requires client in s.inCommand <==> client in s.running
    ensures LeavesAlone(s, Close(s, socket), client)
  {
    if socket != client {
    } else if socket in s.inCommand {
      assert Close(s, socket).accepted == s.accepted && Close(s, socket).buffers == s.buffers;
    } else {
      assert client !in Close(s, socket).accepted;
    }
  }

  lemma AcceptOfAnother(s: Server, socket: Socket, now: nat, client: Socket)
    requires socket != client
    ensures LeavesAlone(s, Accept(s, socket, now), client)
  {
    var next := Accept(s, socket, now);
    assert next.watchers == s.watchers && next.buffers == s.buffers && next.running == s.running;
    assert next.accepted == s.accepted + {socket};
  }

  lemma OthersLeaveAlone(syntax: Syntax, client: Socket, s: Server, e: Event)
    requires Valid(s) && Enabled(s, e) && !IsAbout(client, s, e)
    ensures LeavesAlone(s, Step(syntax, s, e), client)
  {
    assert Sound(s, client);
    match e
    case Connect(socket, _, now) => AcceptOfAnother(s, socket, now, client);
    case ReadyRead(socket, chunk, now) =>
    case Handle(socket) =>
    case Watch(socket) => WatchOfAnother(s, socket, client);
    case Unwind(socket) => EndOfAnother(s, socket, client);
    case Disconnect(socket) => CloseLeavesAlone(s, socket, client);
    case Delete(socket) => DeletionOfAnother(s, socket, client);
    case Sweep(keys, slow, now) => HangUpLeavesAlone(s, keys, slow, now, |keys|, client);
  }

  // ----- The client's own events

  lemma OwnReadIsFollowed(syntax: Syntax, client: Socket, h: Heard, chunk: seq<Byte>, now: nat)
    requires Sounds(syntax, client, h) && client in h.server.accepted && client !in h.server.inCommand
    ensures Follows(syntax, client,
                    Heard(TakeRead(syntax, h.server, client, chunk, now), h.chunks + [chunk], h.handled))
  {
    assert Sound(h.server, client);
    ReadAllThen(syntax, FRESH, h.chunks, chunk);
    var r := ReadAll(syntax, FRESH, h.chunks);
    assert h.handled + [] == h.handled;
    if !r.hungUp {
      assert Buffered(h.server, client) == r.buffer;
    }
  }

  lemma OwnEventIsFollowed(syntax: Syntax, client: Socket, h: Heard, e: Event)
    requires Sounds(syntax, client, h) && Enabled(h.server, e) && IsAbout(client, h.server, e)
    ensures Follows(syntax, client, Hear(syntax, client, h, e))
  {
    assert Sound(h.server, client);
    match e
    case ReadyRead(_, chunk, now) => OwnReadIsFollowed(syntax, client, h, chunk, now);
    case _ =>
  }

  // ----- Whole runs

  lemma HearKeepsSound(syntax: Syntax, client: Socket, h: Heard, e: Event)
    requires Sounds(syntax, client, h)
    ensures Sounds(syntax, client, Hear(syntax, client, h, e))
  {
    if Enabled(h.server, e) {
      StepKeepsValid(syntax, h.server, e);
      if IsAbout(client, h.server, e) {
        OwnEventIsFollowed(syntax, client, h, e);
      } else {
        OthersLeaveAlone(syntax, client, h.server, e);
      }
    }
  }

  function Hearer(syntax: Syntax, client: Socket): (Heard, Event) -> Heard {
    (h: Heard, e: Event) => Hear(syntax, client, h, e)
  }

  function HeardAfter(syntax: Syntax, client: Socket, events: seq<Event>, n: nat): Heard
    requires n <= |events|
  {
    Run(Hearer(syntax, client), Heard(LISTENING, [], []), events, n)
  }

  lemma RunKeepsSound(syntax: Syntax, client: Socket, events: seq<Event>, n: nat)
    requires n <= |events|
    ensures Sounds(syntax, client, HeardAfter(syntax, client, events, n))
  {
    var step := Hearer(syntax, client);
    var kept := (h: Heard) => Valid(h.server) && Follows(syntax, client, h);
    forall h, e | kept(h) ensures kept(step(h, e)) {
      HearKeepsSound(syntax, client, h, e);
    }
    IpcConnections.RunKeepsValid(syntax, [], 0);
    RunKeeps(step, Heard(LISTENING, [], []), events, 0, n, kept);
  }

  lemma {:induction false} DeliveredGrows(syntax: Syntax, r: Reader, chunks: seq<seq<Byte>>)
    ensures r.delivered <= ReadAll(syntax, r, chunks).delivered
    decreases |chunks|
  {
    if chunks != [] {
      DeliveredGrows(syntax, Read(syntax, r, chunks[0]), chunks[1..]);
    }
  }

  lemma {:induction false} JoinedThen(chunks: seq<seq<Byte>>, rest: seq<Byte>)
    ensures Joined(chunks + [rest]) == Joined(chunks) + rest
  {
    if chunks == [] {
      assert [rest][1..] == [];
    } else {
      assert (chunks + [rest])[1..] == chunks[1..] + [rest];
      JoinedThen(chunks[1..], rest);
    }
  }

  /** A reader part of the way through a stream that fits has delivered its first texts. */
  lemma PartDeliversFirst(syntax: Syntax, chunks: seq<seq<Byte>>, rest: seq<Byte>, texts: seq<seq<Byte>>)
    requires AreTexts(syntax, texts) && Joined(chunks) + rest == Stream(texts)
    requires |Stream(texts)| <= MAXIMUM_REQUEST_BYTES
    ensures ReadAll(syntax, FRESH, chunks).delivered <= texts
    ensures rest == [] ==> ReadAll(syntax, FRESH, chunks) == Reader(texts, [], false)
  {
    var part := ReadAll(syntax, FRESH, chunks);
    JoinedThen(chunks, rest);
    FramingIgnoresChunking(syntax, texts, chunks + [rest]);
    ReadAllThen(syntax, FRESH, chunks, rest);
    DeliveredGrows(syntax, part, [rest]);
    assert ReadAll(syntax, part, [rest]) == Read(syntax, part, rest) by {
      assert [rest][1..] == [];
    }
    if rest == [] {
      assert Joined(chunks) == Stream(texts);
      FramingIgnoresChunking(syntax, texts, chunks);
    }
  }

  /** In every run of the server, with any other clients about: the frames a client's
      commands are given are the first of the requests it is sending, in their order, and
      once it sent them all and its command loop is over they are all of them, unless it
      watches or was let go before. */
  lemma ClientIsHeard(
    syntax: Syntax, client: Socket, events: seq<Event>, n: nat, texts: seq<seq<Byte>>, rest: seq<Byte>)
    requires n <= |events| && AreTexts(syntax, texts)
    requires Joined(HeardAfter(syntax, client, events, n).chunks) + rest == Stream(texts)
    requires |Stream(texts)| <= MAXIMUM_REQUEST_BYTES
    ensures var h := HeardAfter(syntax, client, events, n);
            && h.handled <= texts
            && (rest == [] && client in h.server.accepted && client !in h.server.running ==> h.handled == texts)
  {
    var h := HeardAfter(syntax, client, events, n);
    RunKeepsSound(syntax, client, events, n);
    PartDeliversFirst(syntax, h.chunks, rest, texts);
    AllHandled(syntax, client, h, texts);
  }

  lemma AllHandled(syntax: Syntax, client: Socket, h: Heard, texts: seq<seq<Byte>>)
    requires Follows(syntax, client, h) && ReadAll(syntax, FRESH, h.chunks).delivered <= texts
    ensures h.handled <= texts
    ensures (ReadAll(syntax, FRESH, h.chunks) == Reader(texts, [], false)
             && client in h.server.accepted && client !in h.server.running) ==> h.handled == texts
  {
    var more := if client in h.server.accepted then Left(h.server, client) else [];
    assert h.handled <= h.handled + more;
    assert h.handled + [] == h.handled;
  }
}
