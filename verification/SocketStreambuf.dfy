/** The stream buffer over a socket: a get area of 512 characters, a put area of 512 or none, and
    the retry loops that fill the one and drain the other. */
module SocketStreambuf {
  import opened Common
  import opened SocketIo
  import opened Connect

  const BUFFER_SIZE: nat := 512
  const PUTBACK_MAX: nat := 8
  const MAX_EXPIRY: int := 0x7fff_ffff_ffff_ffff

  /** A socket that is not open answers every request with an error. */
  function NotOpen(): Script {
    (k: nat) => Round(0, SendFailed(BadDescriptor), RecvFailed(BadDescriptor), PollFailed(BadDescriptor))
  }

  /** A snapshot of the object and of the socket it owns: the script the operating system
      follows from round `at` on, and all that has been sent and received through the socket. */
  datatype Stream = Stream(
    get: seq<byte>, gptr: nat, egptr: nat,
    put: seq<byte>, pbase: nat, pptr: nat, epptr: nat,
    ec: ErrorCode, expiry: int,
    env: Script, at: nat, sent: seq<byte>, received: seq<byte>)

  ghost predicate Inv(s: Stream) {
    && |s.get| == BUFFER_SIZE && PUTBACK_MAX <= s.gptr <= s.egptr <= BUFFER_SIZE
    && |s.put| in {0, BUFFER_SIZE} && s.pbase <= s.pptr <= s.epptr == |s.put|
  }

  /** Accepted but not yet sent. */
  ghost function Pending(s: Stream): seq<byte>
    requires Inv(s)
  {
    s.put[s.pbase..s.pptr]
  }

  /** Received but not yet read. */
  ghost function Unread(s: Stream): seq<byte>
    requires Inv(s)
  {
    s.get[s.gptr..s.egptr]
  }

  function InitBuffers(s: Stream): Stream {
    s.(gptr := PUTBACK_MAX, egptr := PUTBACK_MAX, pbase := 0, pptr := 0, epptr := |s.put|)
  }

  function Fresh(env: Script): (s: Stream)
    ensures Inv(s) && Pending(s) == Unread(s) == []
  {
    var zeros := seq(BUFFER_SIZE, _ => 0);
    InitBuffers(Stream(zeros, 0, 0, zeros, 0, 0, 0, Success, MAX_EXPIRY, env, 0, [], []))
  }

  /** What the send loop of `overflow` has to send. */
  ghost function Outgoing(s: Stream, c: Option<byte>): seq<byte>
    requires Inv(s)
  {
    if s.put != [] then Pending(s) else if c.Some? then [c.value] else []
  }

  /** The loop of `overflow(c)` comes to an end: the one thing the calls that flush need. */
  ghost predicate FlushReturns(s: Stream, c: Option<byte>)
    requires Inv(s)
  {
    SendReturns(s.env, s.expiry, s.at, |Outgoing(s, c)|)
  }

  /** `sputc` enters the loop only when the put area is full. */
  ghost predicate WriteReturns(s: Stream, c: byte)
    requires Inv(s)
  {
    s.pptr < s.epptr || FlushReturns(s, Some(c))
  }

  /** A call that reads enters the loop of `underflow` only when the get area is empty. */
  ghost predicate ReadReturns(s: Stream)
    requires Inv(s)
  {
    Unread(s) != [] || UsefulFrom(RecvBlocked(s.env, s.expiry), s.at)
  }

  /** `overflow(c)`, where `None` is end of file; the flag is false where the code returns end of file. */
  ghost function Overflow(s: Stream, c: Option<byte>): (Stream, bool)
    requires Inv(s) && FlushReturns(s, c)
  {
    var out := Outgoing(s, c);
    var r := SendAll(s.env, s.expiry, s.at, out, s.ec);
    var t := s.(at := r.at, ec := r.ec, sent := s.sent + out[..r.count]);
    if !r.ok then (t, false)
    else if s.put == [] then (t, true)
    else
      var emptied := t.(pbase := 0, pptr := 0, epptr := |t.put|);
      (if c.None? then emptied else emptied.(put := t.put[0 := c.value], pptr := 1), true)
  }

  ghost function Sync(s: Stream): (Stream, bool)
    requires Inv(s) && FlushReturns(s, None)
  {
    Overflow(s, None)
  }

  /** `sputc`: the put area if it has room, `overflow` otherwise. */
  ghost function Sputc(s: Stream, c: byte): (Stream, bool)
    requires Inv(s) && WriteReturns(s, c)
  {
    if s.pptr < s.epptr then (s.(put := s.put[s.pptr := c], pptr := s.pptr + 1), true)
    else Overflow(s, Some(c))
  }

  /** `setbuf(s, n)`: only a null buffer of size 0 on an empty put area is accepted. */
  ghost function SetBuf(s: Stream, isNull: bool, n: int): (Stream, bool)
    requires Inv(s)
  {
    if s.pptr == s.pbase && isNull && n == 0 then
      var bare := s.(put := [], pbase := 0, pptr := 0, epptr := 0);
      NothingToSend(s.env, s.expiry, s.at);
      (Sync(bare).0, true)
    else (s, false)
  }

  ghost function Underflow(s: Stream): (Stream, Option<byte>)
    requires Inv(s) && ReadReturns(s)
  {
    if s.gptr != s.egptr then (s, None)
    else
      var r := ReceiveSome(s.env, s.expiry, s.at, BUFFER_SIZE - PUTBACK_MAX);
      var t := s.(at := r.at, ec := r.ec);
      if r.data == [] then (t, None)
      else
        var egptr := PUTBACK_MAX + |r.data|;
        (t.(get := s.get[..PUTBACK_MAX] + r.data + s.get[egptr..], gptr := PUTBACK_MAX, egptr := egptr,
            received := s.received + r.data),
         Some(r.data[0]))
  }

  ghost function Sgetc(s: Stream): (Stream, Option<byte>)
    requires Inv(s) && ReadReturns(s)
  {
    if s.gptr < s.egptr then (s, Some(s.get[s.gptr])) else Underflow(s)
  }

  ghost function Sbumpc(s: Stream): (Stream, Option<byte>)
    requires Inv(s) && ReadReturns(s)
  {
    var (t, c) := Sgetc(s);
    (if c.Some? then t.(gptr := t.gptr + 1) else t, c)
  }

  /** `close()`; `closed` is the error code of closing the socket. */
  ghost function Close(s: Stream, closed: ErrorCode): (Stream, bool)
    requires Inv(s) && FlushReturns(s, None)
  {
    var t := Sync(s).0.(ec := closed, env := NotOpen());
    if closed.Success? then (InitBuffers(t), true) else (t, false)
  }

  /** The object that takes over: the source's buffers, cursors and socket, but a put area that
      starts at the source's `pptr`. */
  function Moved(s: Stream): Stream {
    s.(pbase := s.pptr)
  }

  /** The source of a move: given the buffers of the target it was assigned to, no socket, and a put
      area of full size. */
  function MovedFrom(get: seq<byte>, put: seq<byte>): Stream {
    var whole := Resize(put, BUFFER_SIZE);
    InitBuffers(Stream(get, 0, 0, whole, 0, 0, 0, Success, MAX_EXPIRY, NotOpen(), 0, [], []))
  }

  // ---------------------------------------------------------------- output

  /** One call that may flush: it either fails, sending a proper prefix of what was pending and
      keeping all of it pending, or it moves characters from pending to sent and takes the new one. */
  lemma OverflowConserves(s: Stream, c: Option<byte>)
    requires Inv(s) && FlushReturns(s, c)
    ensures var (t, ok) := Overflow(s, c);
      && Inv(t) && KeepsInput(s, t) && t.env == s.env && t.expiry == s.expiry && |t.put| == |s.put|
      && s.sent <= t.sent
      && (ok ==> t.sent + Pending(t) == s.sent + Pending(s) + (if c.Some? then [c.value] else []))
      && (ok && c.None? ==> Pending(t) == [])
      && (!ok ==> && Pending(t) == Pending(s) && t.sent < s.sent + Outgoing(s, c)
                  && (s.put == [] ==> t.sent == s.sent))
  {
    var out := Outgoing(s, c);
    var r := SendAll(s.env, s.expiry, s.at, out, s.ec);
    SendAllOk(s.env, s.expiry, s.at, out, s.ec);
    if r.ok {
      assert out[..r.count] == out;
    } else {
      assert s.sent + out == s.sent + out[..r.count] + out[r.count..];
    }
  }

  /** When a flush succeeds, what it sends and what it leaves, in terms of what the operating system
      answers: it succeeds exactly if some number of passes sends everything before a round gives up. The
      object is left with the error code of the round given up on, or none, and after a success its whole
      put area is free but for the new character. With nothing to send it succeeds without asking. */
  lemma FlushOutcome(s: Stream, c: Option<byte>)
    requires Inv(s) && FlushReturns(s, c)
    ensures var (t, ok) := Overflow(s, c); var out := Outgoing(s, c);
      && (ok <==> exists n: nat :: SentIn(s.env, s.expiry, s.at, |out|, n))
      && s.at <= t.at && t.sent == s.sent + out[..Transferred(s.env, s.expiry, s.at, |out|, t.at - s.at)]
      && (out == [] ==> ok && t.at == s.at)
      && (ok ==> t.ec == if out == [] then s.ec else Success)
      && (!ok ==> s.at < t.at && GivesUp(s.env(t.at - 1), s.expiry) && t.ec == GiveUpCode(s.env(t.at - 1), s.expiry))
      && (ok && Inv(t) ==> t.pbase == 0 && Pending(t) == if s.put == [] || c.None? then [] else [c.value])
  {
    SendAllOk(s.env, s.expiry, s.at, Outgoing(s, c), s.ec);
  }

  ghost predicate KeepsInput(s: Stream, t: Stream) {
    t.get == s.get && t.gptr == s.gptr && t.egptr == s.egptr && t.received == s.received
  }

  lemma SputcConserves(s: Stream, c: byte)
    requires Inv(s) && WriteReturns(s, c)
    ensures var (t, ok) := Sputc(s, c);
      && Inv(t) && KeepsInput(s, t) && t.env == s.env && t.expiry == s.expiry && s.sent <= t.sent
      && (ok ==> t.sent + Pending(t) == s.sent + Pending(s) + [c])
      && (!ok ==> Pending(t) == Pending(s) && t.sent <= s.sent + Pending(s))
      && (ok <==> s.pptr < s.epptr
                  || exists n: nat :: SentIn(s.env, s.expiry, s.at, |Outgoing(s, Some(c))|, n))
      && (s.pptr < s.epptr ==> t.sent == s.sent && t.at == s.at && t.ec == s.ec)
  {
    if s.pptr == s.epptr {
      FlushOutcome(s, Some(c));
    }
    if s.pptr < s.epptr {
      assert Pending(Sputc(s, c).0) == Pending(s) + [c];
    } else {
      OverflowConserves(s, Some(c));
    }
  }

  /** `setbuf` is accepted exactly for a null buffer on an empty put area, and then turns
      buffering off without sending, losing or duplicating anything. */
  lemma SetBufConserves(s: Stream, isNull: bool, n: int)
    requires Inv(s)
    ensures var (t, ok) := SetBuf(s, isNull, n);
      && (ok <==> Pending(s) == [] && isNull && n == 0)
      && (ok ==> t == s.(put := [], pbase := 0, pptr := 0, epptr := 0))
      && (!ok ==> t == s)
      && Inv(t) && KeepsInput(s, t) && t.sent == s.sent && Pending(t) == Pending(s)
  {
  }

  /** A failed flush is repeated from its first character: after a later successful `sync` the wire
      carries the prefix already sent and then everything pending. Nothing is duplicated exactly when
      the failing call had sent nothing. */
  lemma RetryResends(s: Stream, later: Stream)
    requires Inv(s) && FlushReturns(s, None) && !Sync(s).1
    requires later == Sync(s).0.(env := later.env, at := later.at, expiry := later.expiry)
    requires FlushReturns(later, None) && Sync(later).1
    ensures var failed, done := Sync(s).0, Sync(later).0;
      && done.sent == failed.sent + Pending(s)
      && (done.sent == s.sent + Pending(s) <==> failed.sent == s.sent)
  {
    OverflowConserves(s, None);
    OverflowConserves(later, None);
    var failed, done := Sync(s).0, Sync(later).0;
    assert done.sent + Pending(done) == done.sent;
    if done.sent == s.sent + Pending(s) {
      assert |failed.sent| == |s.sent|;
    }
  }

  /** `close` reports only whether the socket closed. When it succeeds the put area is emptied even if
      the flush failed, so everything accepted is on the wire exactly when the flush inside it succeeded.
      When it fails, the areas stay as the flush left them. Either way the object is left without a socket. */
  lemma CloseMayLoseOutput(s: Stream, closed: ErrorCode)
    requires Inv(s) && FlushReturns(s, None)
    ensures var (t, ok) := Close(s, closed);
      && Inv(t)
      && (ok <==> closed.Success?)
      && (ok ==> Pending(t) == Unread(t) == []) && t.ec == closed && SocketGone(t.env)
      && (!ok ==> Unread(t) == Unread(s) && Pending(t) == if Sync(s).1 then [] else Pending(s))
      && (t.sent == s.sent + Pending(s) <==> Sync(s).1)
  {
    OverflowConserves(s, None);
    var t := Sync(s).0;
    if Sync(s).1 {
      assert t.sent == t.sent + Pending(t);
    } else {
      assert |t.sent| < |s.sent + Outgoing(s, None)|;
    }
  }

  /** A flush of `s` under the script `env` fails; `later` is the object before a retry that succeeds,
      the operating system, the round and the expiry time having changed as they like. */
  ghost predicate Retried(s: Stream, env: Script, later: Stream)
    requires Inv(s)
  {
    var tried := s.(env := env);
    && FlushReturns(tried, None) && !Sync(tried).1
    && later == Sync(tried).0.(env := later.env, at := later.at, expiry := later.expiry)
    && Inv(later) && FlushReturns(later, None) && Sync(later).1
  }

  /** A retry may be trusted to send everything once, whatever the operating system does, exactly when
      at most one character is pending. */
  lemma RetryIsExact(s: Stream)
    requires Inv(s)
    ensures |Pending(s)| <= 1 <==>
      forall env: Script, later: Stream :: Retried(s, env, later) ==> Sync(later).0.sent == s.sent + Pending(s)
  {
    if |Pending(s)| <= 1 {
      forall env: Script, later: Stream | Retried(s, env, later)
        ensures Sync(later).0.sent == s.sent + Pending(s)
      {
        OverflowConserves(s.(env := env), None);
        RetryResends(s.(env := env), later);
      }
    } else {
      var later := RetryDuplicates(s);
    }
  }

  /** Takes one character, then fails, then takes everything. */
  function OneThenFailure(at: nat, now: int): Script {
    (k: nat) =>
      var send := if k == at then Sent(1) else if k == at + 1 then SendFailed(System(1)) else Sent(BUFFER_SIZE);
      Round(now, send, RecvFailed(WouldBlock), Woken)
  }

  /** With two characters pending, the first goes out twice. */
  lemma RetryDuplicates(s: Stream) returns (later: Stream)
    requires Inv(s) && |Pending(s)| >= 2
    ensures Retried(s, OneThenFailure(s.at, s.expiry), later)
    ensures Sync(later).0.sent == s.sent + [Pending(s)[0]] + Pending(s)
  {
    var env, pending := OneThenFailure(s.at, s.expiry), Pending(s);
    OneThenFailureSends(s.at, s.expiry, pending, s.ec);
    later := Sync(s.(env := env)).0;
    assert later.sent == s.sent + [pending[0]] && Pending(later) == pending;
    assert SentIn(env, s.expiry, s.at + 2, |pending|, 1) && EndsAfter(env, s.expiry, s.at + 2, |pending|, 1);
    SendAllOk(env, s.expiry, s.at + 2, pending, later.ec);
  }

  lemma OneThenFailureSends(at: nat, expiry: int, out: seq<byte>, ec: ErrorCode)
    requires 2 <= |out| <= BUFFER_SIZE
    ensures SendReturns(OneThenFailure(at, expiry), expiry, at, |out|)
    ensures SendAll(OneThenFailure(at, expiry), expiry, at, out, ec) == SendResult(false, 1, at + 2, System(1))
    ensures Transferred(OneThenFailure(at, expiry), expiry, at + 2, |out|, 1) == |out|
  {
    var env := OneThenFailure(at, expiry);
    assert EndsAfter(env, expiry, at, |out|, 1) && EndsAfter(env, expiry, at + 1, |out| - 1, 0);
    assert SendAll(env, expiry, at + 1, out[1..], Success) == SendResult(false, 0, at + 2, System(1));
  }

  /** `close` loses nothing, whatever the operating system does, exactly when nothing is pending. */
  lemma CloseIsLossless(s: Stream, closed: ErrorCode)
    requires Inv(s)
    ensures Pending(s) == [] <==>
      forall env: Script :: FlushReturns(s.(env := env), None) ==>
        Close(s.(env := env), closed).0.sent == s.sent + Pending(s)
  {
    if Pending(s) == [] {
      forall env: Script | FlushReturns(s.(env := env), None)
        ensures Close(s.(env := env), closed).0.sent == s.sent + Pending(s)
      {
        CloseMayLoseOutput(s.(env := env), closed);
      }
    } else {
      CloseLoses(s, closed);
    }
  }

  /** A connection that is gone: every request fails. */
  function Gone(): Script {
    (k: nat) => Round(0, SendFailed(System(1)), RecvFailed(System(1)), PollFailed(System(1)))
  }

  /** On a connection that is gone, `close` sends nothing of what is pending; it succeeds all the same
      if the socket closes, and then keeps nothing pending. */
  lemma CloseLoses(s: Stream, closed: ErrorCode)
    requires Inv(s)
    ensures FlushReturns(s.(env := Gone()), None)
    ensures var (t, ok) := Close(s.(env := Gone()), closed);
      t.sent == s.sent && (ok <==> closed.Success?) && (ok ==> Pending(t) == [])
  {
    assert EndsAfter(Gone(), s.expiry, s.at, |Pending(s)|, 0);
  }

  /** Moving takes along the socket, the expiry time, the error code and the unread input; it keeps the
      pending output exactly when there is none. */
  lemma MoveKeepsInput(s: Stream)
    requires Inv(s)
    ensures Moved(s) == s.(pbase := Moved(s).pbase)
    ensures Inv(Moved(s)) && Unread(Moved(s)) == Unread(s) && Moved(s).received == s.received
    ensures Pending(Moved(s)) == []
    ensures Moved(s).sent + Pending(Moved(s)) == s.sent + Pending(s) <==> Pending(s) == []
  {
  }

  /** What a move leaves behind has whole, empty areas, no error, no expiry time and no socket. */
  lemma MoveLeavesNew(get: seq<byte>, put: seq<byte>)
    requires |get| == BUFFER_SIZE && |put| in {0, BUFFER_SIZE}
    ensures var t := MovedFrom(get, put);
      && Inv(t) && Pending(t) == Unread(t) == [] && |t.put| == BUFFER_SIZE
      && t.ec == Success && t.expiry == MAX_EXPIRY && SocketGone(t.env)
  {
  }

  // ---------------------------------------------------------------- without a socket

  /** Every send and every receive fails, because there is no socket. */
  ghost predicate SocketGone(env: Script) {
    forall k: nat :: env(k).send == SendFailed(BadDescriptor) && env(k).recv == RecvFailed(BadDescriptor)
  }

  /** The error a call meets that asks for something without a socket; the expiry time is looked at first. */
  function GoneCode(r: Round, expiry: int): ErrorCode {
    if expiry < r.now then TimedOut else BadDescriptor
  }

  /** Without a socket a flush returns at once; it sends nothing, and fails if there is anything to send. */
  lemma GoneFlush(s: Stream, c: Option<byte>)
    requires Inv(s) && SocketGone(s.env)
    ensures FlushReturns(s, c)
    ensures var (t, ok) := Overflow(s, c);
      && t.sent == s.sent && (ok <==> Outgoing(s, c) == [])
      && (!ok ==> t == s.(at := s.at + 1, ec := GoneCode(s.env(s.at), s.expiry)))
  {
    var n := |Outgoing(s, c)|;
    assert GivesUp(s.env(s.at), s.expiry) && EndsAfter(s.env, s.expiry, s.at, n, 0);
  }

  /** Without a socket a read returns at once, with what is unread or with end of file. */
  lemma GoneRead(s: Stream)
    requires Inv(s) && SocketGone(s.env)
    ensures ReadReturns(s)
    ensures var (t, c) := Sgetc(s);
      && t.received == s.received && (c.None? <==> Unread(s) == [])
      && (c.None? ==> t == s.(at := s.at + 1, ec := GoneCode(s.env(s.at), s.expiry)))
  {
    var blocked := RecvBlocked(s.env, s.expiry);
    assert !blocked(s.at);
  }

  // ---------------------------------------------------------------- input

  /** A call that reads: behind the unread characters comes whatever the call received, and `got` is
      removed from the front. Output is untouched. */
  ghost predicate ReadsTo(s: Stream, t: Stream, got: seq<byte>) {
    && Inv(s) && Inv(t) && KeepsOutput(s, t)
    && s.received <= t.received
    && Unread(s) + t.received[|s.received|..] == got + Unread(t)
  }

  function ToSeq(c: Option<byte>): seq<byte> {
    if c.Some? then [c.value] else []
  }

  /** Reading returns the next unread character, from the get area or from a fresh receive, and
      fails only if nothing is unread; only `sbumpc` removes it. */
  lemma ReadConserves(s: Stream)
    requires Inv(s) && ReadReturns(s)
    ensures var (t, c), (u, d) := Sgetc(s), Sbumpc(s);
      && ReadsTo(s, t, []) && ReadsTo(s, u, ToSeq(d))
      && c == d == (if Unread(t) == [] then None else Some(Unread(t)[0]))
      && (Unread(s) != [] ==> t == s)
  {
    hide Sgetc, ReadReturns, ReadsTo;
    var (t, c) := Sgetc(s);
    PeekConserves(s);
    if c.Some? {
      BumpReads(s, t, c.value);
    } else {
      assert ToSeq(c) == [];
    }
  }

  lemma PeekConserves(s: Stream)
    requires Inv(s) && ReadReturns(s)
    ensures var (t, c) := Sgetc(s);
      && Inv(t) && ReadsTo(s, t, [])
      && c == (if Unread(t) == [] then None else Some(Unread(t)[0]))
      && (Unread(s) != [] ==> t == s)
  {
    hide Underflow, ReadReturns;
    UnderflowReceives(s);
    assert Unread(s) + [] == Unread(s) == [] + Unread(s);
    if s.gptr < s.egptr {
      assert Unread(s)[0] == s.get[s.gptr];
    } else {
      assert Unread(s) == [];
      assert [] + Unread(Sgetc(s).0) == Unread(Sgetc(s).0);
    }
  }

  lemma BumpReads(s: Stream, t: Stream, c: byte)
    requires Inv(t) && ReadsTo(s, t, []) && Unread(t) != [] && Unread(t)[0] == c
    ensures ReadsTo(s, t.(gptr := t.gptr + 1), [c])
  {
    BumpTakesFirst(t);
    assert t.get[t.gptr] == Unread(t)[0];
  }

  /** `underflow` itself receives into an empty get area, and is at end of file on any other. */
  lemma UnderflowReceives(s: Stream)
    requires Inv(s) && ReadReturns(s)
    ensures var (t, c) := Underflow(s);
      && Inv(t) && KeepsOutput(s, t)
      && (s.gptr == s.egptr ==>
            && t.received == s.received + Unread(t)
            && c == (if Unread(t) == [] then None else Some(Unread(t)[0])))
      && (s.gptr != s.egptr ==> t == s && c == None)
  {
    var (t, c) := Underflow(s);
    if s.gptr == s.egptr {
      var data := ReceiveSome(s.env, s.expiry, s.at, BUFFER_SIZE - PUTBACK_MAX).data;
      assert Unread(t) == data;
    }
  }

  /** The characters a round hands over to a receive with `room`. */
  function Arriving(r: Round, expiry: int, room: nat): seq<byte> {
    if r.now <= expiry && r.recv.Received? then r.recv.data[..Min(|r.recv.data|, room)] else []
  }

  /** A call that reads asks for input exactly if none is unread; it then takes what the next useful
      round hands over, up to 504 characters, and leaves that round's error code. What lies in front of
      the get area stays for putting back. */
  lemma ReceivesWhatArrives(s: Stream)
    requires Inv(s) && ReadReturns(s)
    ensures Sbumpc(s).0 == Sgetc(s).0.(gptr := Sbumpc(s).0.gptr)
    ensures var t := Sgetc(s).0;
      if Unread(s) != [] then t == s
      else
        var j := Next(RecvBlocked(s.env, s.expiry), s.at);
        var data := Arriving(s.env(j), s.expiry, BUFFER_SIZE - PUTBACK_MAX);
        && t.received == s.received + data && t.at == j + 1
        && t.ec == RecvCode(s.env(j), s.expiry, data != [])
        && (data != [] ==> t.gptr == PUTBACK_MAX)
        && |t.get| == |s.get| && t.get[..PUTBACK_MAX] == s.get[..PUTBACK_MAX]
  {
    if Unread(s) == [] {
      ReceivesFromNext(s.env, s.expiry, s.at, BUFFER_SIZE - PUTBACK_MAX);
    }
  }

  lemma BumpTakesFirst(t: Stream)
    requires Inv(t) && Unread(t) != []
    ensures var u := t.(gptr := t.gptr + 1); Inv(u) && Unread(t) == [t.get[t.gptr]] + Unread(u)
  {
  }

  ghost predicate KeepsOutput(s: Stream, t: Stream) {
    && t.put == s.put && t.pbase == s.pbase && t.pptr == s.pptr && t.epptr == s.epptr
    && t.sent == s.sent && t.env == s.env && t.expiry == s.expiry
  }

  // ---------------------------------------------------------------- the in-place code

  class BasicSocketStreambuf {
    var getBuffer: array<byte>
    var gptr: nat
    var egptr: nat
    var putBuffer: array<byte>
    var pbase: nat
    var pptr: nat
    var epptr: nat
    var ec: ErrorCode
    var expiry: int
    var env: Script
    var at: nat
    ghost var sent: seq<byte>
    ghost var received: seq<byte>

    ghost function View(): Stream
      reads this, getBuffer, putBuffer
    {
      Stream(getBuffer[..], gptr, egptr, putBuffer[..], pbase, pptr, epptr, ec, expiry, env, at, sent, received)
    }

    ghost predicate Valid()
      reads this, getBuffer, putBuffer
    {
      getBuffer != putBuffer && Inv(View())
    }

    constructor (env: Script)
      ensures View() == Fresh(env) && Valid() && fresh(getBuffer) && fresh(putBuffer)
      ensures ec == Success && expiry == MAX_EXPIRY && epptr - pptr == BUFFER_SIZE
    {
      getBuffer := new byte[BUFFER_SIZE](_ => 0);
      putBuffer := new byte[BUFFER_SIZE](_ => 0);
      gptr, egptr := PUTBACK_MAX, PUTBACK_MAX;
      pbase, pptr, epptr := 0, 0, BUFFER_SIZE;
      ec, expiry := Success, MAX_EXPIRY;
      this.env, at, sent, received := env, 0, [], [];
      new;
      assert getBuffer[..] == Fresh(env).get && putBuffer[..] == Fresh(env).put;
    }

    /** Move construction: the new object takes the buffers and the socket of `other`. */
    constructor MoveFrom(other: BasicSocketStreambuf)
      requires other.Valid()
      modifies other
      ensures Valid() && other.Valid()
      ensures View() == old(Moved(other.View())) && getBuffer == old(other.getBuffer) && putBuffer == old(other.putBuffer)
      ensures other.View() == Fresh(NotOpen()) && fresh(other.getBuffer) && fresh(other.putBuffer)
      ensures (env, at, expiry, ec) == old((other.env, other.at, other.expiry, other.ec)) && SocketGone(other.env)
      ensures Unread(View()) == old(Unread(other.View())) && Pending(View()) == []
    {
      getBuffer, putBuffer := other.getBuffer, other.putBuffer;
      gptr, egptr := other.gptr, other.egptr;
      pbase, pptr, epptr := other.pptr, other.pptr, other.epptr;
      ec, expiry := other.ec, other.expiry;
      env, at, sent, received := other.env, other.at, other.sent, other.received;
      new;
      other.getBuffer := new byte[BUFFER_SIZE](_ => 0);
      other.putBuffer := new byte[BUFFER_SIZE](_ => 0);
      other.Disconnect();
      assert other.View() == Fresh(NotOpen());
    }

    /** Move assignment: close this object's connection, then swap buffers and take over `other`. */
    method MoveAssign(other: BasicSocketStreambuf, closed: ErrorCode)
      requires Valid() && FlushReturns(View(), None) && other.Valid() && other != this
      requires {getBuffer, putBuffer} !! {other.getBuffer, other.putBuffer}
      modifies this, getBuffer, putBuffer, other
      ensures Valid() && other.Valid()
      ensures View() == old(Moved(other.View()))
      ensures other.View() == old(var t := Close(View(), closed).0; MovedFrom(t.get, t.put))
      ensures (env, at, expiry, ec) == old((other.env, other.at, other.expiry, other.ec)) && SocketGone(other.env)
      ensures Unread(View()) == old(Unread(other.View())) && Pending(View()) == []
    {
      var closedOk := CloseSocket(closed);
      TakeFrom(other);
    }

    /** The body of move assignment once this object's own connection is closed. */
    method TakeFrom(other: BasicSocketStreambuf)
      requires Valid() && other.Valid() && other != this
      requires {getBuffer, putBuffer} !! {other.getBuffer, other.putBuffer}
      modifies this, other
      ensures Valid() && other.Valid()
      ensures View() == old(Moved(other.View()))
      ensures other.View() == old(MovedFrom(getBuffer[..], putBuffer[..]))
    {
      var get, put := getBuffer, putBuffer;
      Adopt(other);
      other.GiveBuffers(get, put);
    }

    /** Take the buffers, cursors and socket of `other`; the put area starts at its `pptr`. */
    method Adopt(other: BasicSocketStreambuf)
      requires other.Valid() && other != this
      modifies this
      ensures Valid() && getBuffer == other.getBuffer && putBuffer == other.putBuffer
      ensures View() == old(Moved(other.View())) && other.View() == old(other.View())
    {
      ghost var theirs := other.View();
      getBuffer, putBuffer := other.getBuffer, other.putBuffer;
      gptr, egptr := other.gptr, other.egptr;
      pbase, pptr, epptr := other.pptr, other.pptr, other.epptr;
      ec, expiry := other.ec, other.expiry;
      env, at, sent, received := other.env, other.at, other.sent, other.received;
      assert other.View() == theirs;
      assert getBuffer[..] == theirs.get && putBuffer[..] == theirs.put;
    }

    /** The source of a move gets the target's old buffers, a missing put buffer made whole. */
    method GiveBuffers(get: array<byte>, put: array<byte>)
      requires get != put && get.Length == BUFFER_SIZE && put.Length in {0, BUFFER_SIZE}
      modifies this
      ensures Valid() && View() == old(MovedFrom(get[..], put[..]))
      ensures getBuffer == get && (putBuffer == put || fresh(putBuffer))
    {
      getBuffer, putBuffer := get, put;
      if putBuffer.Length == 0 {
        putBuffer := new byte[BUFFER_SIZE](_ => 0);
      }
      assert putBuffer[..] == Resize(put[..], BUFFER_SIZE);
      Disconnect();
      assert Resize(putBuffer[..], BUFFER_SIZE) == putBuffer[..];
    }

    /** What a move leaves of the source besides its buffers. */
    method Disconnect()
      requires getBuffer.Length == putBuffer.Length == BUFFER_SIZE && getBuffer != putBuffer
      modifies this
      ensures getBuffer == old(getBuffer) && putBuffer == old(putBuffer) && Valid()
      ensures View() == MovedFrom(getBuffer[..], putBuffer[..])
    {
      ec, expiry := Success, MAX_EXPIRY;
      env, at, sent, received := NotOpen(), 0, [], [];
      InitBuffersInPlace();
      assert Resize(putBuffer[..], BUFFER_SIZE) == putBuffer[..];
    }

    method InitBuffersInPlace()
      requires getBuffer.Length == BUFFER_SIZE && putBuffer.Length in {0, BUFFER_SIZE} && getBuffer != putBuffer
      modifies this`gptr, this`egptr, this`pbase, this`pptr, this`epptr
      ensures View() == old(InitBuffers(View())) && Valid()
    {
      gptr, egptr := PUTBACK_MAX, PUTBACK_MAX;
      if putBuffer.Length == 0 {
        pbase, pptr, epptr := 0, 0, 0;
      } else {
        pbase, pptr, epptr := 0, 0, putBuffer.Length;
      }
    }

    /** `close()`. The result of the flush is not looked at. */
    method CloseSocket(closed: ErrorCode) returns (ok: bool)
      requires Valid() && FlushReturns(View(), None)
      modifies this, putBuffer
      ensures getBuffer == old(getBuffer) && putBuffer == old(putBuffer) && Valid()
      ensures (View(), ok) == old(Close(View(), closed))
      ensures (ok <==> closed.Success?) && ec == closed && SocketGone(env)
      ensures sent == old(sent + Pending(View())) <==> old(Sync(View())).1
    {
      hide Overflow, FlushReturns;
      CloseMayLoseOutput(View(), closed);
      var flushed := SyncBuffer();
      env := NotOpen();
      ec := closed;
      if ec == Success {
        InitBuffersInPlace();
      }
      ok := ec == Success;
    }

    method UnderflowInPlace() returns (c: Option<byte>)
      requires Valid() && ReadReturns(View())
      modifies this, getBuffer
      ensures getBuffer == old(getBuffer) && putBuffer == old(putBuffer) && Valid()
      ensures (View(), c) == old(Underflow(View()))
    {
      if gptr != egptr {
        return None;
      }
      var data := RecvLoop(BUFFER_SIZE - PUTBACK_MAX);
      if data == [] {
        return None;
      }
      Receive(data);
      return Some(getBuffer[gptr]);
    }

    /** The loop of `underflow`: receive, and poll as long as that would block. */
    method RecvLoop(room: nat) returns (data: seq<byte>)
      requires UsefulFrom(RecvBlocked(env, expiry), at)
      modifies this`ec, this`at
      ensures RecvResult(data, at, ec) == old(ReceiveSome(env, expiry, at, room))
    {
      while true
        invariant UsefulFrom(RecvBlocked(env, expiry), at)
        invariant ReceiveSome(env, expiry, at, room) == old(ReceiveSome(env, expiry, at, room))
        decreases Next(RecvBlocked(env, expiry), at) - at
      {
        var round := env(at);
        ghost var before := at;
        at := at + 1;
        if expiry < round.now {
          ec := TimedOut;
          return [];
        }
        match round.recv {
          case Received(offered) =>
            data := offered[..Min(|offered|, room)];
            ec := if data != [] then Success else Eof;
            return;
          case RecvFailed(e) => ec := e;
        }
        if !Retriable(ec) {
          return [];
        }
        match round.poll {
          case PollFailed(e) =>
            ec := e;
            return [];
          case Woken => ec := Success;
        }
        NextCloser(RecvBlocked(env, expiry), before);
      }
    }

    /** The kernel writes a non-empty chunk behind the putback area; `setg` makes it the get area. */
    method Receive(chunk: seq<byte>)
      requires Valid() && 0 < |chunk| <= BUFFER_SIZE - PUTBACK_MAX
      modifies this`gptr, this`egptr, this`received, getBuffer
      ensures var before := old(View()); var end := PUTBACK_MAX + |chunk|;
        View() == before.(get := before.get[..PUTBACK_MAX] + chunk + before.get[end..],
                          gptr := PUTBACK_MAX, egptr := end, received := before.received + chunk)
    {
      ghost var before := getBuffer[..];
      ghost var after := before[..PUTBACK_MAX] + chunk + before[PUTBACK_MAX + |chunk|..];
      for i := 0 to |chunk|
        modifies getBuffer
        invariant forall j :: 0 <= j < BUFFER_SIZE ==>
          getBuffer[j] == if j < PUTBACK_MAX + i then after[j] else before[j]
        invariant putBuffer[..] == old(putBuffer[..])
      {
        getBuffer[PUTBACK_MAX + i] := chunk[i];
      }
      assert getBuffer[..] == after;
      received := received + chunk;
      gptr, egptr := PUTBACK_MAX, PUTBACK_MAX + |chunk|;
    }

    method OverflowInPlace(c: Option<byte>) returns (ok: bool)
      requires Valid() && FlushReturns(View(), c)
      modifies this, putBuffer
      ensures getBuffer == old(getBuffer) && putBuffer == old(putBuffer) && Valid()
      ensures (View(), ok) == old(Overflow(View(), c))
    {
      var out;
      if putBuffer.Length == 0 {
        if c.None? {
          assert View() == Overflow(View(), c).0;
          return true;
        }
        out := [c.value];
      } else {
        out := putBuffer[pbase..pptr];
      }
      ok := SendLoop(out);
      if !ok {
        return false;
      }
      if putBuffer.Length != 0 {
        pbase, pptr, epptr := 0, 0, putBuffer.Length;
        if c.None? {
          return true;
        }
        putBuffer[pptr] := c.value;
        pptr := pptr + 1;
      }
      return true;
    }

    /** The loop of `overflow`: send what the kernel takes, poll when it takes nothing, until all is
        out, the expiry time passes or a call fails. */
    method SendLoop(all: seq<byte>) returns (ok: bool)
      requires SendReturns(env, expiry, at, |all|)
      modifies this`ec, this`at, this`sent
      ensures var r := old(SendAll(env, expiry, at, all, ec));
        (ok, at, ec) == (r.ok, r.at, r.ec) && sent == old(sent) + all[..r.count]
    {
      hide SendReturns, Passes, SendAll, Sending;
      var from := 0;
      ghost var goal := SendAll(env, expiry, at, all, ec);
      SendingStarts(env, expiry, at, all, ec);
      while from < |all|
        invariant from <= |all| && sent == old(sent) + all[..from]
        invariant SendReturns(env, expiry, at, |all| - from)
        invariant Sending(env, expiry, goal, all, from, at, ec)
        decreases Passes(env, expiry, at, |all| - from)
      {
        SendingStep(env, expiry, goal, all, from, at, ec);
        var round, bytes := env(at), -1;
        at := at + 1;
        if expiry < round.now {
          ec := TimedOut;
          return false;
        }
        match round.send {
          case Sent(n) => bytes, ec := Min(n, |all| - from), Success;
          case SendFailed(e) => ec := e;
        }
        if bytes > 0 {
          assert all[..from] + all[from..from + bytes] == all[..from + bytes];
          sent := sent + all[from..from + bytes];
          from := from + bytes;
          continue;
        }
        if !Retriable(ec) {
          return false;
        }
        match round.poll {
          case PollFailed(e) =>
            ec := e;
            return false;
          case Woken => ec := Success;
        }
      }
      SendingDone(env, expiry, goal, all, at, ec);
      return true;
    }

    method SyncBuffer() returns (ok: bool)
      requires Valid() && FlushReturns(View(), None)
      modifies this, putBuffer
      ensures getBuffer == old(getBuffer) && putBuffer == old(putBuffer) && Valid()
      ensures (View(), ok) == old(Sync(View()))
      ensures ok ==> Pending(View()) == [] && sent == old(sent + Pending(View()))
    {
      OverflowConserves(View(), None);
      ok := OverflowInPlace(None);
    }

    method SetBuffer(isNull: bool, n: int) returns (ok: bool)
      requires Valid()
      modifies this, putBuffer
      ensures Valid() && getBuffer == old(getBuffer) && (putBuffer == old(putBuffer) || fresh(putBuffer))
      ensures (View(), ok) == old(SetBuf(View(), isNull, n))
      ensures ok <==> old(Pending(View())) == [] && isNull && n == 0
      ensures sent == old(sent) && Pending(View()) == old(Pending(View()))
    {
      if pptr == pbase && isNull && n == 0 {
        putBuffer := new byte[0];
        pbase, pptr, epptr := 0, 0, 0;
        assert putBuffer[..] == [];
        NothingToSend(env, expiry, at);
        var flushed := SyncBuffer();
        return true;
      }
      return false;
    }

    method WriteChar(c: byte) returns (ok: bool)
      requires Valid() && WriteReturns(View(), c)
      modifies this, putBuffer
      ensures getBuffer == old(getBuffer) && putBuffer == old(putBuffer) && Valid()
      ensures (View(), ok) == old(Sputc(View(), c))
      ensures ok ==> sent + Pending(View()) == old(sent + Pending(View())) + [c]
    {
      SputcConserves(View(), c);
      if pptr < epptr {
        putBuffer[pptr] := c;
        pptr := pptr + 1;
        ok := true;
      } else {
        ok := OverflowInPlace(Some(c));
      }
    }

    method Peek() returns (c: Option<byte>)
      requires Valid() && ReadReturns(View())
      modifies this, getBuffer
      ensures getBuffer == old(getBuffer) && putBuffer == old(putBuffer) && Valid()
      ensures (View(), c) == old(Sgetc(View()))
      ensures ReadsTo(old(View()), View(), [])
    {
      ReadConserves(View());
      if gptr < egptr {
        c := Some(getBuffer[gptr]);
      } else {
        c := UnderflowInPlace();
      }
    }

    method Read() returns (c: Option<byte>)
      requires Valid() && ReadReturns(View())
      modifies this, getBuffer
      ensures getBuffer == old(getBuffer) && putBuffer == old(putBuffer) && Valid()
      ensures (View(), c) == old(Sbumpc(View()))
      ensures ReadsTo(old(View()), View(), ToSeq(c))
    {
      ghost var before := View();
      c := Peek();
      if c.Some? {
        gptr := gptr + 1;
      }
      assert View() == Sbumpc(before).0;
      ReadConserves(before);
    }

    method ExpiresAt(time: int)
      modifies this`expiry
      ensures expiry == time
    {
      expiry := time;
    }

    /** `connect_to_endpoints`; an error left by the resolver stops it before the first endpoint. */
    method ConnectToEndpoints(attempts: seq<Attempt>) returns (ghost stop: nat)
      modifies this`ec
      ensures old(ec) != Success ==> ec == old(ec) && stop == 0
      ensures old(ec) == Success ==> EndsAt(attempts, expiry, ec, stop)
    {
      OutcomeFrom(attempts, expiry, 0, NotFound);
      stop := 0;
      if ec != Success {
        return;
      }
      ec := NotFound;
      for i := 0 to |attempts|
        invariant Outcome(attempts, expiry, 0, NotFound) == Outcome(attempts, expiry, i, ec)
      {
        var a := attempts[i];
        stop := i;
        if expiry < a.now {
          ec := TimedOut;
          return;
        }
        ec := a.open;
        if ec != Success {
          continue;
        }
        ec := a.connect;
        if ec == Success {
          return;
        }
        if ec != InProgress && ec != WouldBlock {
          continue;
        }
        match a.poll {
          case PollError(failure) =>
            ec := failure;
            continue;
          case _ =>
        }
        match a.pending {
          case QueryFailed(failure) =>
            ec := failure;
            return;
          case Code(code) => ec := code;
        }
        if ec == Success {
          return;
        }
      }
      stop := |attempts|;
    }
  }
}
