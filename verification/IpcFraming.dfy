/** Cutting a client's bytes into requests, however they are cut into reads. */
module IpcFraming {
  import opened TextBasics

  const MAXIMUM_REQUEST_BYTES: nat := 64 * 1024

  /** What the server knows of bytes: whether they are a whole object, and white space. */
  datatype Syntax = Syntax(isObject: seq<Byte> -> bool, space: Byte -> bool)

  predicate Blank(syntax: Syntax, frame: seq<Byte>) {
    forall b :: b in frame ==> syntax.space(b)
  }

  /** A request text: a whole object on one line, no part of which is one
      (section 4 of RFC 8259: an object ends with the brace that closes it). */
  ghost predicate IsText(syntax: Syntax, text: seq<Byte>) {
    && syntax.isObject(text) && NEWLINE !in text && !Blank(syntax, text)
    && forall k: nat :: k < |text| ==> !syntax.isObject(text[..k])
  }

  function IndexOfNewline(buffer: seq<Byte>): (n: nat)
    ensures n <= |buffer|
    ensures n < |buffer| ==> buffer[n] == NEWLINE
    ensures forall i :: 0 <= i < n ==> buffer[i] != NEWLINE
  {
    if buffer == [] || buffer[0] == NEWLINE then 0 else 1 + IndexOfNewline(buffer[1..])
  }

  datatype Cutting = Cutting(frames: seq<seq<Byte>>, rest: seq<Byte>)

  /** Every line is a frame, and so is an unfinished line that is a whole object. */
  function Cut(syntax: Syntax, buffer: seq<Byte>): (c: Cutting)
    ensures NEWLINE !in c.rest
    decreases |buffer|
  {
    var n := IndexOfNewline(buffer);
    if n < |buffer| then
      var later := Cut(syntax, buffer[n + 1..]);
      Cutting([buffer[..n]] + later.frames, later.rest)
    else if syntax.isObject(buffer) then Cutting([buffer], [])
    else Cutting([], buffer)
  }

  /** A blank frame ends a request already read without its newline; it is none itself. */
  function Requests(syntax: Syntax, frames: seq<seq<Byte>>): seq<seq<Byte>> {
    if frames == [] then []
    else (if Blank(syntax, frames[0]) then [] else [frames[0]]) + Requests(syntax, frames[1..])
  }

  /** A frame of white space alone is no request, and any other is. */
  lemma BlankFrameIsNoRequest(syntax: Syntax, frame: seq<Byte>)
    ensures Requests(syntax, [frame]) == if forall b :: b in frame ==> syntax.space(b) then [] else [frame]
  {
    assert [frame][1..] == [];
  }

  lemma {:induction false} RequestsConcat(syntax: Syntax, frames: seq<seq<Byte>>, more: seq<seq<Byte>>)
    ensures Requests(syntax, frames + more) == Requests(syntax, frames) + Requests(syntax, more)
  {
    if frames == [] {
      assert frames + more == more;
    } else {
      assert (frames + more)[1..] == frames[1..] + more;
      RequestsConcat(syntax, frames[1..], more);
    }
  }

  /** What a client that sends `texts` writes. */
  function Stream(texts: seq<seq<Byte>>): seq<Byte> {
    if texts == [] then [] else texts[0] + [NEWLINE] + Stream(texts[1..])
  }

  // ----- Reading a stream chunk by chunk

  /** The reader so far: what it delivered, what it holds, and whether it hung up. */
  datatype Reader = Reader(delivered: seq<seq<Byte>>, buffer: seq<Byte>, hungUp: bool)

  const FRESH: Reader := Reader([], [], false)

  function Read(syntax: Syntax, r: Reader, chunk: seq<Byte>): Reader {
    if r.hungUp then r
    else if |r.buffer| + |chunk| > MAXIMUM_REQUEST_BYTES then r.(buffer := r.buffer + chunk, hungUp := true)
    else
      var c := Cut(syntax, r.buffer + chunk);
      Reader(r.delivered + Requests(syntax, c.frames), c.rest, false)
  }

  function ReadAll(syntax: Syntax, r: Reader, chunks: seq<seq<Byte>>): Reader
    decreases |chunks|
  {
    if chunks == [] then r else ReadAll(syntax, Read(syntax, r, chunks[0]), chunks[1..])
  }

  function Joined(chunks: seq<seq<Byte>>): seq<Byte> {
    if chunks == [] then [] else chunks[0] + Joined(chunks[1..])
  }

  /** A reader that holds `buffer`, with `coming` on its way, still owes `texts`:
      nothing of them was taken, or their first newline only ends the text before. */
  predicate Owes(buffer: seq<Byte>, coming: seq<Byte>, texts: seq<seq<Byte>>) {
    || buffer + coming == Stream(texts)
    || (buffer == [] && coming == [NEWLINE] + Stream(texts))
  }

  ghost predicate AreTexts(syntax: Syntax, texts: seq<seq<Byte>>) {
    !syntax.isObject([]) && forall t :: t in texts ==> IsText(syntax, t)
  }

  lemma {:induction false} IndexIsFirst(buffer: seq<Byte>, n: nat)
    requires n < |buffer| && buffer[n] == NEWLINE && forall i :: 0 <= i < n ==> buffer[i] != NEWLINE
    ensures IndexOfNewline(buffer) == n
  {
    if n > 0 {
      IndexIsFirst(buffer[1..], n - 1);
    }
  }

  lemma {:induction false} NoNewline(buffer: seq<Byte>)
    requires NEWLINE !in buffer
    ensures IndexOfNewline(buffer) == |buffer|
  {
    if buffer != [] {
      NoNewline(buffer[1..]);
    }
  }

  /** A buffer that starts with a whole line gives it up and goes on. */
  lemma CutTakesLine(syntax: Syntax, line: seq<Byte>, rest: seq<Byte>)
    requires NEWLINE !in line
    ensures var c := Cut(syntax, rest);
            Cut(syntax, line + [NEWLINE] + rest) == Cutting([line] + c.frames, c.rest)
    ensures Requests(syntax, [line] + Cut(syntax, rest).frames)
         == (if Blank(syntax, line) then [] else [line]) + Requests(syntax, Cut(syntax, rest).frames)
  {
    var x := line + [NEWLINE] + rest;
    IndexIsFirst(x, |line|);
    assert x[..|line|] == line && x[|line| + 1..] == rest;
    var frames := Cut(syntax, rest).frames;
    assert ([line] + frames)[1..] == frames;
  }

  /** The heart of it: cutting any first part of a stream delivers texts of it, in
      order, and owes exactly the rest. `x` is buffered, `coming` is not. */
  lemma {:induction false} CutDeliversTexts(syntax: Syntax, x: seq<Byte>, coming: seq<Byte>, texts: seq<seq<Byte>>)
    returns (n: nat)
    requires AreTexts(syntax, texts)
    requires x + coming == Stream(texts) || x + coming == [NEWLINE] + Stream(texts)
    ensures n <= |texts| && Requests(syntax, Cut(syntax, x).frames) == texts[..n]
    ensures Owes(Cut(syntax, x).rest, coming, texts[n..])
    decreases |x|
  {
    n := 0;
    if x == [] {
      assert Cut(syntax, x) == Cutting([], []);
      assert x + coming == coming;
    } else if x + coming == [NEWLINE] + Stream(texts) {
      n := CutEmptyLine(syntax, x, coming, texts);
    } else if |x| < |texts[0]| {
      CutPartOfText(syntax, x, coming, texts);
    } else if |x| == |texts[0]| {
      n := 1;
      CutWholeText(syntax, x, coming, texts);
    } else {
      n := CutLine(syntax, x, coming, texts);
    }
  }

  lemma CutEmptyLine(syntax: Syntax, x: seq<Byte>, coming: seq<Byte>, texts: seq<seq<Byte>>) returns (n: nat)
    requires AreTexts(syntax, texts)
    requires x != [] && x + coming == [NEWLINE] + Stream(texts)
    ensures n <= |texts| && Requests(syntax, Cut(syntax, x).frames) == texts[..n]
    ensures Owes(Cut(syntax, x).rest, coming, texts[n..])
    decreases |x|, 0
  {
    assert x[0] == (x + coming)[0] == NEWLINE;
    assert x[1..] + coming == (x + coming)[1..] == Stream(texts);
    n := CutDeliversTexts(syntax, x[1..], coming, texts);
    assert x == [] + [NEWLINE] + x[1..];
    CutTakesLine(syntax, [], x[1..]);
  }

  lemma CutPartOfText(syntax: Syntax, x: seq<Byte>, coming: seq<Byte>, texts: seq<seq<Byte>>)
    requires AreTexts(syntax, texts) && texts != []
    requires |x| < |texts[0]| && x + coming == Stream(texts)
    ensures Cut(syntax, x) == Cutting([], x)
  {
    var t := texts[0];
    assert IsText(syntax, t);
    assert x == (x + coming)[..|x|] == t[..|x|];
    NoNewline(x);
  }

  lemma CutWholeText(syntax: Syntax, x: seq<Byte>, coming: seq<Byte>, texts: seq<seq<Byte>>)
    requires AreTexts(syntax, texts) && texts != []
    requires |x| == |texts[0]| && x + coming == Stream(texts)
    ensures Cut(syntax, x) == Cutting([texts[0]], [])
    ensures Requests(syntax, [texts[0]]) == [texts[0]]
    ensures coming == [NEWLINE] + Stream(texts[1..])
  {
    var t := texts[0];
    assert IsText(syntax, t);
    assert Stream(texts) == t + ([NEWLINE] + Stream(texts[1..]));
    assert x == (x + coming)[..|x|] == t && coming == (x + coming)[|x|..];
    NoNewline(x);
  }

  lemma CutLine(syntax: Syntax, x: seq<Byte>, coming: seq<Byte>, texts: seq<seq<Byte>>) returns (n: nat)
    requires AreTexts(syntax, texts) && texts != []
    requires |x| > |texts[0]| && x + coming == Stream(texts)
    ensures n <= |texts| && Requests(syntax, Cut(syntax, x).frames) == texts[..n]
    ensures Owes(Cut(syntax, x).rest, coming, texts[n..])
    decreases |x|, 0
  {
    var t, rest := texts[0], x[|texts[0]| + 1..];
    assert IsText(syntax, t);
    StreamStartsWithLine(x, coming, texts);
    var later := CutDeliversTexts(syntax, rest, coming, texts[1..]);
    n := later + 1;
    assert texts[..n] == [t] + texts[1..][..later] && texts[n..] == texts[1..][later..];
    assert Cut(syntax, x).rest == Cut(syntax, rest).rest
        && Requests(syntax, Cut(syntax, x).frames) == [t] + Requests(syntax, Cut(syntax, rest).frames) by {
      CutTakesLine(syntax, t, rest);
    }
  }

  lemma StreamStartsWithLine(x: seq<Byte>, coming: seq<Byte>, texts: seq<seq<Byte>>)
    requires texts != [] && |x| > |texts[0]| && x + coming == Stream(texts)
    ensures x == texts[0] + [NEWLINE] + x[|texts[0]| + 1..]
    ensures x[|texts[0]| + 1..] + coming == Stream(texts[1..])
  {
    var t := texts[0];
    assert Stream(texts) == t + ([NEWLINE] + Stream(texts[1..]));
    assert x[..|t|] == (x + coming)[..|t|] == t;
    assert x[|t|] == (x + coming)[|t|] == NEWLINE;
    assert x[|t| + 1..] + coming == (x + coming)[|t| + 1..];
  }

  /** Chunk by chunk: whatever was owed is delivered, whichever way it is cut. */
  lemma {:induction false} ReadAllDelivers(syntax: Syntax, r: Reader, chunks: seq<seq<Byte>>, texts: seq<seq<Byte>>)
    requires AreTexts(syntax, texts) && !r.hungUp && NEWLINE !in r.buffer
    requires Owes(r.buffer, Joined(chunks), texts)
    requires |r.buffer| + |Joined(chunks)| <= MAXIMUM_REQUEST_BYTES
    ensures ReadAll(syntax, r, chunks) == Reader(r.delivered + texts, [], false)
    decreases |chunks|
  {
    if chunks == [] {
      NothingOwedAtEnd(r.buffer, texts);
      assert r.delivered + texts == r.delivered;
    } else {
      var coming := Joined(chunks[1..]);
      var x := r.buffer + chunks[0];
      assert x + coming == r.buffer + Joined(chunks);
      var n := CutDeliversTexts(syntax, x, coming, texts);
      var next := Read(syntax, r, chunks[0]);
      CutKeepsSize(syntax, x);
      ReadAllDelivers(syntax, next, chunks[1..], texts[n..]);
      assert r.delivered + texts[..n] + texts[n..] == r.delivered + texts;
    }
  }

  lemma NothingOwedAtEnd(buffer: seq<Byte>, texts: seq<seq<Byte>>)
    requires NEWLINE !in buffer && Owes(buffer, [], texts)
    ensures buffer == [] && texts == []
  {
    assert buffer + [] == buffer;
    StreamHasNewlines(texts);
  }

  lemma StreamHasNewlines(texts: seq<seq<Byte>>)
    ensures texts != [] ==> NEWLINE in Stream(texts)
  {
    assert texts != [] ==> Stream(texts)[|texts[0]|] == NEWLINE;
  }

  lemma {:induction false} CutKeepsSize(syntax: Syntax, buffer: seq<Byte>)
    ensures |Cut(syntax, buffer).rest| <= |buffer|
    decreases |buffer|
  {
    var n := IndexOfNewline(buffer);
    if n < |buffer| {
      CutKeepsSize(syntax, buffer[n + 1..]);
    }
  }

  /** Any two ways to cut the same requests into reads deliver the same requests. */
  lemma FramingIgnoresChunking(syntax: Syntax, texts: seq<seq<Byte>>, chunks: seq<seq<Byte>>)
    requires AreTexts(syntax, texts) && Joined(chunks) == Stream(texts)
    requires |Stream(texts)| <= MAXIMUM_REQUEST_BYTES
    ensures ReadAll(syntax, FRESH, chunks) == Reader(texts, [], false)
  {
    assert [] + Joined(chunks) == Stream(texts);
    ReadAllDelivers(syntax, FRESH, chunks, texts);
    assert [] + texts == texts;
  }

  // ----- Past the size limit

  /** One read for each request. */
  function OneEach(texts: seq<seq<Byte>>): (chunks: seq<seq<Byte>>)
    ensures Joined(chunks) == Stream(texts)
  {
    if texts == [] then [] else [texts[0] + [NEWLINE]] + OneEach(texts[1..])
  }

  lemma OneRequestRead(syntax: Syntax, r: Reader, text: seq<Byte>)
    requires !syntax.isObject([]) && IsText(syntax, text) && !r.hungUp && r.buffer == []
    requires |text| < MAXIMUM_REQUEST_BYTES
    ensures Read(syntax, r, text + [NEWLINE]) == Reader(r.delivered + [text], [], false)
  {
    var first := text + [NEWLINE];
    OneRead(syntax, r, first);
    assert Stream([text]) == first && [] + first == first;
    ReadAllDelivers(syntax, r, [first], [text]);
  }

  lemma {:induction false} OneEachDelivers(syntax: Syntax, r: Reader, texts: seq<seq<Byte>>)
    requires AreTexts(syntax, texts) && !r.hungUp && r.buffer == []
    requires forall t :: t in texts ==> |t| < MAXIMUM_REQUEST_BYTES
    ensures ReadAll(syntax, r, OneEach(texts)) == Reader(r.delivered + texts, [], false)
    decreases |texts|
  {
    if texts == [] {
      assert r.delivered + texts == r.delivered;
    } else {
      var t, rest := texts[0], texts[1..];
      var next := Reader(r.delivered + [t], [], false);
      calc {
        ReadAll(syntax, r, OneEach(texts));
        { assert OneEach(texts) == [t + [NEWLINE]] + OneEach(rest);
          OneRequestRead(syntax, r, t); }
        ReadAll(syntax, next, OneEach(rest));
        { OneEachDelivers(syntax, next, rest); }
        Reader(next.delivered + rest, [], false);
        { assert next.delivered + rest == r.delivered + texts; }
        Reader(r.delivered + texts, [], false);
      }
    }
  }

  lemma OneRead(syntax: Syntax, r: Reader, chunk: seq<Byte>)
    ensures Joined([chunk]) == chunk && ReadAll(syntax, r, [chunk]) == Read(syntax, r, chunk)
  {
    assert [chunk][1..] == [];
  }

  /** Requests that each fit are read alike however they are cut exactly when all of
      them together fit: past that, one read of everything hangs up on the client. */
  lemma ChunkingIsIgnoredIffStreamFits(syntax: Syntax, texts: seq<seq<Byte>>)
    requires AreTexts(syntax, texts)
    requires forall t :: t in texts ==> |t| < MAXIMUM_REQUEST_BYTES
    ensures ReadAll(syntax, FRESH, OneEach(texts)).delivered == texts
    ensures (forall chunks :: Joined(chunks) == Stream(texts) ==> ReadAll(syntax, FRESH, chunks).delivered == texts)
       <==> |Stream(texts)| <= MAXIMUM_REQUEST_BYTES
  {
    OneEachDelivers(syntax, FRESH, texts);
    assert [] + texts == texts;
    if |Stream(texts)| <= MAXIMUM_REQUEST_BYTES {
      forall chunks | Joined(chunks) == Stream(texts)
        ensures ReadAll(syntax, FRESH, chunks).delivered == texts
      {
        FramingIgnoresChunking(syntax, texts, chunks);
      }
    } else {
      var all := [Stream(texts)];
      OneRead(syntax, FRESH, Stream(texts));
      assert ReadAll(syntax, FRESH, all).delivered == [] != texts;
    }
  }

  // ----- The source's loop

  class RequestBuffer {
    var buffer: seq<Byte>

    constructor ()
      ensures buffer == []
    {
      buffer := [];
    }

    /** Appends what was read and takes whole frames off the front. */
    method Take(syntax: Syntax, chunk: seq<Byte>) returns (frames: seq<seq<Byte>>, tooLarge: bool)
      modifies this
      ensures tooLarge <==> |old(buffer)| + |chunk| > MAXIMUM_REQUEST_BYTES
      ensures tooLarge ==> frames == [] && buffer == old(buffer) + chunk
      ensures !tooLarge ==> Cutting(frames, buffer) == Cut(syntax, old(buffer) + chunk)
    {
      buffer := buffer + chunk;
      frames := [];
      tooLarge := |buffer| > MAXIMUM_REQUEST_BYTES;
      if tooLarge {
        return;
      }
      ghost var whole := Cut(syntax, buffer);
      var newline := IndexOfNewline(buffer);
      while newline < |buffer|
        invariant newline == IndexOfNewline(buffer)
        invariant whole == Cutting(frames + Cut(syntax, buffer).frames, Cut(syntax, buffer).rest)
        decreases |buffer|
      {
        ghost var later := Cut(syntax, buffer[newline + 1..]);
        assert frames + ([buffer[..newline]] + later.frames) == frames + [buffer[..newline]] + later.frames;
        frames := frames + [buffer[..newline]];
        buffer := buffer[newline + 1..];
        newline := IndexOfNewline(buffer);
      }
      if syntax.isObject(buffer) {
        frames, buffer := frames + [buffer], [];
      }
    }

    /** The frames the handler goes on to answer. */
    method NonBlank(syntax: Syntax, frames: seq<seq<Byte>>) returns (requests: seq<seq<Byte>>)
      ensures requests == Requests(syntax, frames)
    {
      requests := [];
      for i := 0 to |frames|
        invariant Requests(syntax, frames) == requests + Requests(syntax, frames[i..])
      {
        assert frames[i..][1..] == frames[i + 1..];
        if !Blank(syntax, frames[i]) {
          requests := requests + [frames[i]];
        }
      }
    }
  }
}
