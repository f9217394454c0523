/** Two socket stream buffers joined by a lossless, ordered connection in each direction. */
module Channel {
  import opened Common
  import opened SocketIo
  import opened SocketStreambuf
  import opened SocketRuns

  /** Both ends and their histories. */
  datatype Link = Link(a: Log, b: Log)

  datatype Turn = Turn(atA: bool, op: Op)

  /** What the operating system answers to a receive when `flying` is on its way: it decides how many
      characters to hand over, but not which; with none there it can only say that it would block. */
  function Delivered(r: Round, flying: seq<byte>): Round {
    match r.recv
    case RecvFailed(_) => r
    case Received(data) =>
      if data == [] then r
      else if flying == [] then r.(recv := RecvFailed(WouldBlock))
      else r.(recv := Received(flying[..Min(|data|, |flying|)]))
  }

  function Through(env: Script, flying: seq<byte>): Script {
    (k: nat) => Delivered(env(k), flying)
  }

  /** Sent by `from` and not yet received by `to`. */
  ghost function Flying(from: Stream, to: Stream): seq<byte>
    requires to.received <= from.sent
  {
    from.sent[|to.received|..]
  }

  /** One end as it is for the time of one call, with `flying` on its way to it. */
  function Wired(l: Log, flying: seq<byte>): Log {
    l.(s := l.s.(env := Through(l.s.env, flying)))
  }

  /** The call returns with what is now on its way to `me`; a read that finds nothing returns later, as
      a call made after the peer has sent something. */
  ghost predicate EndReturns(me: Log, peer: Log, op: Op) {
    Balanced(me) && me.s.received <= peer.s.sent && Returns(Wired(me, Flying(peer.s, me.s)).s, op)
  }

  ghost function EndStep(me: Log, peer: Log, op: Op): Log
    requires EndReturns(me, peer, op)
  {
    var next := Step(Wired(me, Flying(peer.s, me.s)), op);
    next.(s := next.s.(env := me.s.env))
  }

  /** Balanced books at both ends, and nothing received that was not sent, in order. */
  ghost predicate Lossless(k: Link) {
    && Balanced(k.a) && Balanced(k.b)
    && k.a.s.received <= k.b.s.sent && k.b.s.received <= k.a.s.sent
  }

  ghost predicate Enabled(k: Link, t: Turn)
    requires Lossless(k)
  {
    if t.atA then EndReturns(k.a, k.b, t.op) else EndReturns(k.b, k.a, t.op)
  }

  /** What a turn needs in terms of the operating system alone. One that does not read needs only that
      no send blocks for ever, whatever is in flight; one that reads needs unread input, or input in
      flight and a receive that does not block for ever. */
  lemma TurnReturns(me: Log, peer: Log, op: Op)
    requires Balanced(me) && me.s.received <= peer.s.sent
    requires !op.Peek? && !op.Read? ==>
      forall j: nat :: me.s.at <= j ==> UsefulFrom(SendBlocked(me.s.env, me.s.expiry), j)
    requires op.Peek? || op.Read? ==>
      || Unread(me.s) != []
      || (Flying(peer.s, me.s) != [] && UsefulFrom(RecvBlocked(me.s.env, me.s.expiry), me.s.at))
    ensures EndReturns(me, peer, op)
  {
    var flying, env, expiry, at := Flying(peer.s, me.s), me.s.env, me.s.expiry, me.s.at;
    var wired := Wired(me, flying).s;
    if op.Peek? || op.Read? {
      if Unread(me.s) == [] {
        var blocked, wiredBlocked := RecvBlocked(env, expiry), RecvBlocked(wired.env, expiry);
        assert UsefulFrom(blocked, at);
        var j: nat :| at <= j && !blocked(j);
        assert wired.env(j) == Delivered(env(j), flying);
        assert !wiredBlocked(j);
      }
    } else {
      var blocked, wiredBlocked := SendBlocked(env, expiry), SendBlocked(wired.env, expiry);
      forall j: nat | at <= j ensures UsefulFrom(wiredBlocked, j) {
        assert UsefulFrom(blocked, j);
        var i: nat :| j <= i && !blocked(i);
        assert wired.env(i) == Delivered(env(i), flying);
        assert !wiredBlocked(i);
      }
      match op
      case Put(c) => FairReturns(wired.env, expiry, at, |Outgoing(wired, Some(c))|);
      case Flush => FairReturns(wired.env, expiry, at, |Outgoing(wired, None)|);
      case _ =>
    }
  }

  ghost function LinkStep(k: Link, t: Turn): Link
    requires Lossless(k) && Enabled(k, t)
  {
    if t.atA then k.(a := EndStep(k.a, k.b, t.op)) else k.(b := EndStep(k.b, k.a, t.op))
  }

  /** A receive takes the next characters off the connection, whatever their number. */
  lemma ReceivesInOrder(env: Script, expiry: int, at: nat, room: nat, flying: seq<byte>)
    requires UsefulFrom(RecvBlocked(Through(env, flying), expiry), at)
    ensures ReceiveSome(Through(env, flying), expiry, at, room).data <= flying
  {
    var script := Through(env, flying);
    var j := Next(RecvBlocked(script, expiry), at);
    ReceivesFromNext(script, expiry, at, room);
    assert script(j) == Delivered(env(j), flying);
    if script(j).recv.Received? {
      assert script(j).recv.data <= flying;
    }
  }

  lemma ReadsInOrder(s: Stream, env: Script, flying: seq<byte>)
    requires Inv(s) && s.env == Through(env, flying) && ReadReturns(s)
    ensures Sgetc(s).0.received <= s.received + flying
    ensures Sbumpc(s).0.received <= s.received + flying
  {
    if Unread(s) == [] {
      ReceivesInOrder(env, s.expiry, s.at, BUFFER_SIZE - PUTBACK_MAX, flying);
    }
  }

  lemma StepReadsInOrder(l: Log, env: Script, flying: seq<byte>, op: Op)
    requires Inv(l.s) && l.s.env == Through(env, flying) && (op.Read? || op.Peek?) && Returns(l.s, op)
    ensures Step(l, op).s.received <= l.s.received + flying
  {
    hide Sgetc, Sbumpc;
    ReadsInOrder(l.s, env, flying);
  }

  lemma EndStepKeepsLink(me: Log, peer: Log, op: Op)
    requires EndReturns(me, peer, op)
    ensures var next := EndStep(me, peer, op);
      && Balanced(next) && me.s.sent <= next.s.sent && next.s.received <= peer.s.sent
      && (!next.failed ==> !me.failed && (op.Flush? ==> Pending(next.s) == [])
                           && next.accepted == me.accepted + (if op.Put? then [op.c] else []))
  {
    hide Subsequence, Returns, Step;
    var flying := Flying(peer.s, me.s);
    var wired := Wired(me, flying);
    Rewired(me, wired.s.env);
    StepBalances(wired, op);
    var after := Step(wired, op);
    Rewired(after, me.s.env);
    assert me.s.received + flying == peer.s.sent;
    if op.Read? || op.Peek? {
      StepReadsInOrder(wired, me.s.env, flying, op);
    }
  }

  /** A read with nothing unread takes the first character in flight, as soon as the operating system
      hands anything over. */
  lemma ReadTakesNext(me: Log, peer: Log, j: nat)
    requires EndReturns(me, peer, Read) && Unread(me.s) == [] && Flying(peer.s, me.s) != []
    requires IsNext(RecvBlocked(me.s.env, me.s.expiry), me.s.at, j)
    requires var r := me.s.env(j); r.now <= me.s.expiry && r.recv.Received? && r.recv.data != []
    ensures EndStep(me, peer, Read).taken == me.taken + [Flying(peer.s, me.s)[0]]
    ensures me.s.received < EndStep(me, peer, Read).s.received
  {
    var flying := Flying(peer.s, me.s);
    var s := Wired(me, flying).s;
    SameNext(me.s.env, me.s.expiry, me.s.at, flying, j);
    ReceivesWhatArrives(s);
    ReadConserves(s);
    assert s.env(j) == Delivered(me.s.env(j), flying);
  }

  /** What is in flight does not change which receives block, if anything is. */
  lemma SameNext(env: Script, expiry: int, at: nat, flying: seq<byte>, j: nat)
    requires flying != [] && IsNext(RecvBlocked(env, expiry), at, j)
    requires UsefulFrom(RecvBlocked(Through(env, flying), expiry), at)
    ensures Next(RecvBlocked(Through(env, flying), expiry), at) == j
  {
    var blocked, wired := RecvBlocked(env, expiry), RecvBlocked(Through(env, flying), expiry);
    forall k: nat ensures wired(k) == blocked(k) {
      assert Through(env, flying)(k) == Delivered(env(k), flying);
    }
    var i := Next(wired, at);
    assert i <= j && j <= i;
  }

  /** The books do not depend on the script. */
  lemma Rewired(l: Log, env: Script)
    requires Balanced(l)
    ensures Balanced(l.(s := l.s.(env := env)))
  {
    assert Settled(l.(s := l.s.(env := env))) == Settled(l);
  }

  lemma LinkStepLossless(k: Link, t: Turn)
    requires Lossless(k) && Enabled(k, t)
    ensures Lossless(LinkStep(k, t))
  {
    if t.atA {
      EndStepKeepsLink(k.a, k.b, t.op);
    } else {
      EndStepKeepsLink(k.b, k.a, t.op);
    }
  }

  // ---------------------------------------------------------------- runs

  ghost predicate RunEnabled(k: Link, turns: seq<Turn>)
    requires Lossless(k)
    decreases |turns|
  {
    turns == [] ||
    (Enabled(k, turns[0]) && (LinkStepLossless(k, turns[0]); RunEnabled(LinkStep(k, turns[0]), turns[1..])))
  }

  ghost function LinkRun(k: Link, turns: seq<Turn>): Link
    requires Lossless(k) && RunEnabled(k, turns)
    decreases |turns|
  {
    if turns == [] then k
    else
      LinkStepLossless(k, turns[0]);
      LinkRun(LinkStep(k, turns[0]), turns[1..])
  }

  /** Whatever the two ends do, and however partial transfers and would-block answers fall, both books
      stay balanced and nothing is received that was not sent, in order. */
  lemma {:induction false} LinkRunLossless(k: Link, turns: seq<Turn>)
    requires Lossless(k) && RunEnabled(k, turns)
    ensures Lossless(LinkRun(k, turns))
    decreases |turns|
  {
    hide Lossless, Enabled, LinkStep;
    if turns != [] {
      LinkStepLossless(k, turns[0]);
      LinkRunLossless(LinkStep(k, turns[0]), turns[1..]);
    }
  }

  /** What has been read at one end is a prefix of what was accepted at the other as long as no flush
      there has failed, and all of it once nothing is pending, in flight or unread. */
  lemma ReadsWhatWasWritten(writer: Log, reader: Log)
    requires Balanced(writer) && Balanced(reader) && reader.s.received <= writer.s.sent && !writer.failed
    ensures reader.taken <= writer.accepted
    ensures reader.taken == writer.accepted <==>
      Pending(writer.s) == [] && Flying(writer.s, reader.s) == [] && Unread(reader.s) == []
  {
    var flying, unread, pending := Flying(writer.s, reader.s), Unread(reader.s), Pending(writer.s);
    assert writer.s.sent == reader.s.received + flying;
    assert writer.accepted == reader.taken + (unread + flying + pending);
    if reader.taken == writer.accepted {
      assert |unread + flying + pending| == 0;
    } else {
      assert unread + flying + pending != [];
    }
  }

  /** Two fresh ends, any interleaving of calls at both, any sizes of partial sends and receives, any
      would-block answers: in both directions the characters read are a prefix of those accepted. */
  lemma ChannelDelivers(envA: Script, envB: Script, turns: seq<Turn>)
    requires RunEnabled(Link(Start(envA), Start(envB)), turns)
    ensures var k := LinkRun(Link(Start(envA), Start(envB)), turns);
      && (!k.a.failed ==> k.b.taken <= k.a.accepted)
      && (!k.b.failed ==> k.a.taken <= k.b.accepted)
  {
    var k := LinkRun(Link(Start(envA), Start(envB)), turns);
    LinkRunLossless(Link(Start(envA), Start(envB)), turns);
    if !k.a.failed {
      ReadsWhatWasWritten(k.a, k.b);
    }
    if !k.b.failed {
      ReadsWhatWasWritten(k.b, k.a);
    }
  }

  /** Nothing is pending and no flush has failed: this end has put on the wire all it accepted. */
  ghost predicate Synced(l: Log)
    requires Inv(l.s)
  {
    !l.failed && Pending(l.s) == []
  }

  /** Until the next write, every call keeps it so: a further flush has nothing to send. */
  lemma SyncedStays(me: Log, peer: Log, op: Op)
    requires EndReturns(me, peer, op) && Synced(me) && !op.Put?
    ensures var next := EndStep(me, peer, op);
      Balanced(next) && Synced(next) && next.accepted == me.accepted && next.s.sent == me.s.sent
  {
    hide Step, Returns, Subsequence;
    EndStepKeepsLink(me, peer, op);
    CallStaysSynced(Wired(me, Flying(peer.s, me.s)), op);
  }

  lemma CallStaysSynced(l: Log, op: Op)
    requires Inv(l.s) && Returns(l.s, op) && Synced(l) && !op.Put?
    ensures var next := Step(l, op);
      Inv(next.s) && Synced(next) && next.accepted == l.accepted && next.s.sent == l.s.sent
  {
    match op
    case Flush => OverflowConserves(l.s, None);
    case SetBuffer(isNull, n) => SetBufConserves(l.s, isNull, n);
    case Peek => ReadConserves(l.s);
    case Read => ReadConserves(l.s);
    case Expire(_) =>
  }

  lemma {:induction false} SyncedStaysOverRuns(k: Link, turns: seq<Turn>)
    requires Lossless(k) && Synced(k.a) && RunEnabled(k, turns)
    requires forall i :: 0 <= i < |turns| && turns[i].atA ==> !turns[i].op.Put?
    ensures var end := LinkRun(k, turns);
      Lossless(end) && Synced(end.a) && end.a.accepted == k.a.accepted && end.a.s.sent == k.a.s.sent
    decreases |turns|
  {
    hide Synced, EndStep;
    if turns != [] {
      LinkStepLossless(k, turns[0]);
      if turns[0].atA {
        SyncedStays(k.a, k.b, turns[0].op);
      }
      SyncedStaysOverRuns(LinkStep(k, turns[0]), turns[1..]);
    }
  }

  /** After a successful sync at A, and whatever both ends do from then on short of a write at A: the
      characters read at B are a prefix of those accepted at A, and all of them exactly when B has
      drained the connection and its get area. */
  lemma DrainedAfterSync(k: Link, synced: Link, turns: seq<Turn>)
    requires Lossless(k) && Enabled(k, Turn(true, Flush)) && synced == LinkStep(k, Turn(true, Flush))
    requires !synced.a.failed && Lossless(synced) && RunEnabled(synced, turns)
    requires forall i :: 0 <= i < |turns| && turns[i].atA ==> !turns[i].op.Put?
    ensures var end := LinkRun(synced, turns);
      && Lossless(end) && end.a.accepted == k.a.accepted && end.b.taken <= end.a.accepted
      && (end.b.taken == end.a.accepted <==> end.b.s.received == end.a.s.sent && Unread(end.b.s) == [])
  {
    EndStepKeepsLink(k.a, k.b, Flush);
    SyncedStaysOverRuns(synced, turns);
    var end := LinkRun(synced, turns);
    hide LinkRun, RunEnabled, EndStep;
    ReadsWhatWasWritten(end.a, end.b);
  }
}
