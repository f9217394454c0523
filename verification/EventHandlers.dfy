/** Every completion handler keeps the invariant and answers its operation. */
module EventHandlers {
  import opened Common
  import opened EventLoop
  import opened EventInvariants
  import opened EventSteps

  /** The result of running one handler: at most one operation completed, its events at the end of the
      queue. A failed `read_some` queues two events, everything else at most one. */
  ghost predicate Handled(s: State, t: State, id: OpId) {
    && Core(t, None) && Persists(s, t) && t.delivered == s.delivered
    && (id in s.ops && !s.ops[id].op.Accept? ==> t.servers == s.servers)
    && if t.log == s.log then t.queue == s.queue
       else
         && |t.log| == |s.log| + 1 && t.log[..|s.log|] == s.log
         && var x := t.log[|s.log|];
            x.id == id && t.queue == s.queue + x.events && |x.events| <= (if x.op.ReadSome? && x.ec.Some? then 2 else 1)
  }

  // ---------------------------------------------------------------- outcomes

  /** Closing its socket took the operation from the kernel. */
  ghost predicate Cut(o: Pending, phase: Phase, c: ConnId) {
    o.phase.InKernel? && OnSocket(o.op, c) && phase == Ready(Some(ABORTED), 0)
  }

  /** Nothing but connection `c` and the operations on it was touched, and no operation was started. */
  ghost predicate Around(s: State, t: State, c: ConnId) {
    && t.ops.Keys <= s.ops.Keys
    && (forall j :: j in t.ops ==> t.ops[j] == s.ops[j] || (t.ops[j].op == s.ops[j].op && Cut(s.ops[j], t.ops[j].phase, c)))
    && t.conns - {c} == s.conns - {c} && t.peers - {c} == s.peers - {c} && t.delivered == s.delivered
    && t.servers == s.servers && t.accepts == s.accepts
    && t.nextOp == s.nextOp && t.nextConn == s.nextConn && t.nextServer == s.nextServer
    && (c in s.peers ==> && c in t.peers && t.peers[c].stream == s.peers[c].stream
                         && t.peers[c].consumed == s.peers[c].consumed)
  }

  /** The read or write `id` is over, with `events` as its answer. Its connection object stays as long as
      something refers to it, and its socket is closed by a failure, and when the object is freed. */
  ghost predicate EndsWith(s: State, t: State, id: OpId, events: seq<Event>)
    requires CanRun(s, id) && Holds(s.ops[id].op)
  {
    var o := s.ops[id];
    var c := o.op.c;
    && Around(s, t, c) && t.ops.Keys == s.ops.Keys - {id}
    && t.log == s.log + [Result(s, id, events)] && t.queue == s.queue + events
    && (c in t.conns <==> s.conns[c].handle || s.conns[c].owners - {id} != {})
    && (c in t.conns ==> && t.conns[c].handle == s.conns[c].handle && t.conns[c].owners == s.conns[c].owners - {id}
                         && (t.conns[c].open <==> s.conns[c].open && o.phase.ec.None?))
    && (o.phase.ec.Some? || c !in t.conns ==> t.peers[c].closedAt.Some?)
  }

  /** The `n` bytes taken last of what a peer has sent. */
  ghost function LastBytes(p: Peer, n: nat): seq<byte> {
    if n <= p.consumed <= |p.stream| then p.stream[p.consumed - n..p.consumed] else []
  }

  /** How a transfer begins: with the kernel exactly if the socket is open and there is anything to
      transfer, done at once without an error exactly for a transfer of nothing, and failed only on a
      closed socket. */
  predicate Begun(open: bool, op: Op, phase: Phase) {
    && (phase.InKernel? <==> open && Room(op) > 0)
    && (phase.Ready? && phase.ec.None? <==> Room(op) <= 0)
    && (phase.Ready? ==> phase.n == 0 && (phase.ec.Some? ==> phase.ec == Some(BAD_DESCRIPTOR) && !open))
  }

  /** Only the progress of operation `id` changed: it is now `op`, and begins its next round. */
  ghost predicate GoesOn(s: State, t: State, id: OpId, op: Op) {
    && id in t.ops && t == s.(ops := s.ops[id := t.ops[id]]) && t.ops[id].op == op
    && Holds(op) && op.c in s.conns && Begun(s.conns[op.c].open, op, t.ops[id].phase)
  }

  /** A round of a read asks for what is missing, or answers with exactly the `size` bytes of the peer's
      stream that were taken last, or closes the socket and answers with the message. */
  ghost predicate ReadOutcome(s: State, t: State, id: OpId)
    requires CanRun(s, id) && s.ops[id].op.Read?
  {
    var Pending(op, Ready(ec, n)) := s.ops[id];
    if ec.Some? then EndsWith(s, t, id, [Continue(op.destId, Null, ec.value.message)])
    else if op.got + n < op.size then GoesOn(s, t, id, op.(got := op.got + n)) && n > 0
    else op.got + n == op.size <= s.peers[op.c].consumed
         && EndsWith(s, t, id, [Continue(op.destId, Connection(op.c), LastBytes(s.peers[op.c], op.size))])
  }

  /** A `read_some` answers with the bytes just taken, at least one; if it failed, with what had come
      and the message. */
  ghost predicate ReadSomeOutcome(s: State, t: State, id: OpId)
    requires CanRun(s, id) && s.ops[id].op.ReadSome?
  {
    var Pending(op, Ready(ec, n)) := s.ops[id];
    var data := LastBytes(s.peers[op.c], n);
    && n == |data|
    && if ec.Some? then EndsWith(s, t, id, [Continue(op.destId, Null, data), Continue(op.destId, Null, ec.value.message)])
       else n > 0 && EndsWith(s, t, id, [Continue(op.destId, Connection(op.c), data)])
  }

  /** A round of a write asks to send the rest, or says that all is sent, or closes the socket and
      answers with the message. */
  ghost predicate WriteOutcome(s: State, t: State, id: OpId)
    requires CanRun(s, id) && s.ops[id].op.Write?
  {
    var Pending(op, Ready(ec, n)) := s.ops[id];
    if ec.Some? then EndsWith(s, t, id, [Continue(op.destId, Null, ec.value.message)])
    else if op.put + n < |op.data| then GoesOn(s, t, id, op.(put := op.put + n)) && n > 0
    else op.put + n == |op.data| && EndsWith(s, t, id, [Continue(op.destId, Connection(op.c), [])])
  }

  /** A connect or sleep is over; nothing else changed. */
  ghost predicate OnlyAnswers(s: State, t: State, id: OpId, event: Event)
    requires CanRun(s, id)
  {
    t == s.(ops := s.ops - {id}, log := s.log + [Result(s, id, [event])], queue := s.queue + [event])
  }

  /** The answer to a connect: the connection, or the message. */
  ghost predicate ConnectOutcome(s: State, t: State, id: OpId)
    requires CanRun(s, id) && s.ops[id].op.Connect?
  {
    var Pending(op, Ready(ec, _)) := s.ops[id];
    OnlyAnswers(s, t, id, if ec.Some? then Continue(op.destId, Null, ec.value.message)
                          else Continue(op.destId, Connection(op.c), []))
  }

  ghost predicate SleepOutcome(s: State, t: State, id: OpId)
    requires CanRun(s, id) && s.ops[id].op.Sleep?
  {
    var Pending(op, Ready(ec, _)) := s.ops[id];
    OnlyAnswers(s, t, id, Continue(op.destId, Null, if ec.Some? then ec.value.message else []))
  }

  /** Server `v` waits for the new operation `id`, and for that alone. */
  ghost predicate WaitsFor(t: State, v: ServerId, id: OpId) {
    && v in t.servers && t.servers[v].accept == Some(id)
    && id in t.ops && t.ops[id] == Pending(Accept(v, t.servers[v].port), InKernel)
    && forall j :: j in t.ops && t.ops[j].op.Accept? && t.ops[j].op.server == v ==> j == id
  }

  /** An accepted connection gets an object, which the event hands to the caller; the server then waits
      for the next one, as it does after an error. It stops when its accept was aborted. */
  ghost predicate AcceptOutcome(s: State, t: State, id: OpId)
    requires CanRun(s, id) && s.ops[id].op.Accept?
  {
    var Pending(op, Ready(ec, n)) := s.ops[id];
    var v := op.server;
    var events := if ec.None? then [Event(EVT_ACCEPT, op.port, Handle(n), [])] else [];
    && t.log == s.log + [Result(s, id, events)] && t.queue == s.queue + events && t.delivered == s.delivered
    && (forall j :: j in s.ops && j != id ==> j in t.ops && t.ops[j] == s.ops[j])
    && t.ops.Keys == s.ops.Keys - {id} + (if Aborted(s.ops[id].phase) then {} else {s.nextOp})
    && t.peers == s.peers && t.servers.Keys == s.servers.Keys && t.servers - {v} == s.servers - {v}
    && (if ec.None? then && n in s.peers && n !in s.conns && s.peers[n].closedAt.None?
                         && t.conns == s.conns[n := NEW_CONN]
        else t.conns == s.conns)
    && if Aborted(s.ops[id].phase) then t.nextOp == s.nextOp && (v in t.servers ==> t.servers[v].accept.None?)
       else t.nextOp == s.nextOp + 1 && WaitsFor(t, v, s.nextOp)
  }

  /** What the handler of `id` has done, whatever kind of operation it was. */
  ghost predicate HandlerOutcome(s: State, t: State, id: OpId)
    requires CanRun(s, id)
  {
    match s.ops[id].op
    case Connect(_, _) => ConnectOutcome(s, t, id)
    case Read(_, _, _, _) => ReadOutcome(s, t, id)
    case ReadSome(_, _) => ReadSomeOutcome(s, t, id)
    case Write(_, _, _, _) => WriteOutcome(s, t, id)
    case Sleep(_) => SleepOutcome(s, t, id)
    case Accept(_, _) => AcceptOutcome(s, t, id)
  }

  lemma AroundTransitive(s: State, t: State, u: State, c: ConnId)
    requires Around(s, t, c) && Around(t, u, c)
    ensures Around(s, u, c)
  {
    forall j | j in u.ops
      ensures u.ops[j] == s.ops[j] || (u.ops[j].op == s.ops[j].op && Cut(s.ops[j], u.ops[j].phase, c))
    {
      assert j in t.ops;
    }
  }

  lemma CloseAround(s: State, c: ConnId)
    requires c in s.conns && c in s.peers
    ensures Around(s, CloseSocket(s, c), c)
  {
  }

  lemma RetireAround(s: State, t: State, id: OpId, events: seq<Event>)
    requires Retires(s, t, id, events) && Holds(s.ops[id].op)
    ensures Around(s, t, s.ops[id].op.c)
  {
  }

  lemma ReleaseAround(s: State, c: ConnId)
    requires c in s.conns && c in s.peers
    ensures Around(s, Release(s, c), c)
  {
    hide CloseSocket;
    CloseAround(s, c);
  }

  lemma ReleaseEnds(s: State, c: ConnId)
    requires c in s.conns && c in s.peers
    ensures var t := Release(s, c);
      && t.ops.Keys == s.ops.Keys && t.log == s.log && t.queue == s.queue
      && (c in t.conns <==> s.conns[c].handle || s.conns[c].owners != {})
      && (c in t.conns ==> t.conns[c] == s.conns[c])
      && (s.peers[c].closedAt.Some? || (c !in t.conns && (s.conns[c].open <==> s.peers[c].closedAt.None?)) ==>
            t.peers[c].closedAt.Some?)
  {
  }

  lemma RetireOutcome(s0: State, s: State, t: State, id: OpId, events: seq<Event>, c: ConnId)
    requires Core(s, None) && Ends(s0, s, t, id, events, c)
    ensures EndsWith(s0, Release(t, c), id, events)
  {
    hide Core, Release, Around, Persists, Faithful;
    RetireAround(s, t, id, events);
    RetireKeeps(s, t, id, events);
    HasPeer(t, c, Some(c));
    ReleaseAround(t, c);
    ReleaseEnds(t, c);
    AroundTransitive(s0, s, t, c);
    AroundTransitive(s0, t, Release(t, c), c);
    PushAllAppends(s.queue, events);
  }

  // ---------------------------------------------------------------- the handlers

  /** While fewer events are queued than the limit, `push_event` only appends: the loop commented
      "would not be triggered" is not. */
  lemma {:induction false} PushAllAppends(q: seq<Event>, events: seq<Event>)
    requires |q| + |events| <= MAX_EVT_MSG
    ensures PushAll(q, events) == q + events
    decreases |events|
  {
    if events != [] {
      PushAllAppends(q + [events[0]], events[1..]);
      assert q + events == (q + [events[0]]) + events[1..];
    } else {
      assert q + events == q;
    }
  }

  /** A step that may end operation `id` and start others forgets nothing. */
  lemma EndedPersists(s: State, t: State, id: OpId, x: Completion)
    requires id in s.ops && x.id == id && x.op == s.ops[id].op && t.log == s.log + [x] && s.nextOp <= t.nextOp
    requires forall j :: j in s.ops && j != id ==> j in t.ops && t.ops[j] == s.ops[j]
    requires forall c :: c in s.peers ==> c in t.peers && t.peers[c].closedAt == s.peers[c].closedAt
    ensures Persists(s, t)
  {
    assert t.log[|s.log|] == x;
  }

  lemma StartedPersists(s: State, t: State)
    requires Core(s, None) && t.nextOp == s.nextOp + 1 && t.log == s.log
    requires forall j :: j in s.ops && j != s.nextOp ==> j in t.ops && t.ops[j] == s.ops[j]
    requires forall c :: c in s.peers ==> c in t.peers && t.peers[c].closedAt == s.peers[c].closedAt
    ensures Persists(s, t)
  {
    hide Core;
    NextNotIssued(s);
  }

  /** The last `n` events, or all if there are fewer. */
  function Newest(q: seq<Event>, n: nat): seq<Event> {
    if |q| <= n then q else q[|q| - n..]
  }

  lemma NewestTwice(a: seq<Event>, b: seq<Event>, n: nat)
    ensures Newest(Newest(a, n) + b, n) == Newest(a + b, n)
  {
  }

  /** However much is pushed, the newest events survive up to the limit, in order. */
  lemma {:induction false} NewestSurvive(q: seq<Event>, events: seq<Event>)
    requires |q| <= MAX_EVT_MSG
    ensures PushAll(q, events) == Newest(q + events, MAX_EVT_MSG)
    decreases |events|
  {
    if events == [] {
      assert q + events == q;
    } else {
      var more := q + [events[0]];
      assert Trim(more) == Newest(more, MAX_EVT_MSG);
      NewestSurvive(Trim(more), events[1..]);
      NewestTwice(more, events[1..], MAX_EVT_MSG);
      assert q + events == more + events[1..];
    }
  }

  lemma HasPeer(s: State, c: ConnId, z: Option<ConnId>)
    requires Core(s, z) && c in s.conns
    ensures c in s.peers && (s.conns[c].open <==> s.peers[c].closedAt.None?)
  {
  }

  lemma ClosePersists(s: State, c: ConnId, z: Option<ConnId>)
    requires Core(s, z) && c in s.conns && c in s.peers
    ensures Persists(s, CloseSocket(s, c))
  {
    hide Core;
    HasPeer(s, c, z);
  }

  /** The state in which read or write `id` of `s0` ends: `s0` itself, or with its socket closed if the
      operation failed. */
  ghost predicate Ending(s0: State, s: State, id: OpId, c: ConnId) {
    && CanRun(s0, id) && CanRun(s, id) && s.ops[id] == s0.ops[id] && Orphan(s.ops[id].op) == Some(c)
    && s.ops.Keys == s0.ops.Keys && Around(s0, s, c) && Persists(s0, s)
    && s.queue == s0.queue == [] && s.log == s0.log
    && s.conns[c] == s0.conns[c].(open := s0.conns[c].open && s.ops[id].phase.ec.None?)
    && (s.ops[id].phase.ec.Some? ==> s.peers[c].closedAt.Some?)
  }

  lemma EndingOpen(s: State, id: OpId)
    requires CanRun(s, id) && Holds(s.ops[id].op) && s.ops[id].phase.ec.None? && s.queue == []
    ensures Ending(s, s, id, s.ops[id].op.c)
  {
  }

  lemma EndingClosed(s: State, id: OpId)
    requires Core(s, None) && CanRun(s, id) && Holds(s.ops[id].op) && s.ops[id].phase.ec.Some? && s.queue == []
    ensures var c := s.ops[id].op.c; Core(CloseSocket(s, c), None) && Ending(s, CloseSocket(s, c), id, c)
  {
    hide Core;
    var c := s.ops[id].op.c;
    HasPeer(s, c, None);
    ClosePersists(s, c, None);
    CloseAround(s, c);
    if s.conns[c].open {
      CloseKeeps(s, c, None);
    }
  }

  /** No operation on `c` is left with the kernel. */
  ghost predicate Quiesced(s: State, c: ConnId) {
    forall id :: id in s.ops && OnSocket(s.ops[id].op, c) ==> s.ops[id].phase.Ready?
  }

  /** A closed socket stays closed, whether or not it was open before: nothing on it is left with the
      kernel, nothing else is touched, and closing it again does nothing. */
  lemma ClosedForGood(s: State, c: ConnId, z: Option<ConnId>)
    requires Core(s, z) && c in s.conns && c in s.peers
    ensures var t := CloseSocket(s, c);
      && Core(t, z) && Quiesced(t, c) && Around(s, t, c) && t.peers[c].closedAt.Some?
      && c in t.conns && !t.conns[c].open && CloseSocket(t, c) == t
  {
    hide Core;
    HasPeer(s, c, z);
    CloseAround(s, c);
    if s.conns[c].open {
      CloseKeeps(s, c, z);
    }
    ClosedQuiesces(CloseSocket(s, c), c, z);
  }

  lemma ClosedQuiesces(s: State, c: ConnId, z: Option<ConnId>)
    requires Core(s, z) && c in s.conns && !s.conns[c].open
    ensures Quiesced(s, c)
  {
    hide Ledger, Streams, Accepts, Refs, Readers;
  }

  lemma ReleaseSame(s: State, c: ConnId)
    requires Core(s, Some(c)) && c in s.conns && c in s.peers
    ensures var t := Release(s, c);
      Persists(s, t) && t.log == s.log && t.queue == s.queue && t.delivered == s.delivered && t.servers == s.servers
  {
    hide Core;
    ClosePersists(s, c, Some(c));
  }

  /** What the invariant says of a finished operation and the buffer of its connection. */
  lemma Facts(s: State, id: OpId)
    requires Core(s, None) && CanRun(s, id)
    ensures OpInv(s.ops[id].op, s.ops[id].phase)
    ensures IsRead(s.ops[id].op) ==> BufferedBy(s.ops[id]) <= |s.conns[s.ops[id].op.c].readBuf| == BufferSize(s.ops[id].op)
  {
    if IsRead(s.ops[id].op) {
      assert BufferInv(s, s.ops[id].op.c);
    }
  }

  /** Between `s0` and `t` a handler has, up to freeing connection `c`, ended read or write `id`. */
  ghost predicate Ends(s0: State, s: State, t: State, id: OpId, events: seq<Event>, c: ConnId) {
    && Ending(s0, s, id, c) && Retires(s, t, id, events) && Faithful(s, id, events)
    && t.queue == PushAll(s.queue, events) && c in t.conns && c in t.peers
    && |events| <= (if s.ops[id].op.ReadSome? && s.ops[id].phase.ec.Some? then 2 else 1)
  }

  lemma RetireHandled(s0: State, s: State, t: State, id: OpId, events: seq<Event>, c: ConnId)
    requires Core(s, None) && Ends(s0, s, t, id, events, c)
    ensures Handled(s0, Release(t, c), id)
  {
    hide Core, Faithful, Release, Retires, Persists, Around;
    RetireKeeps(s, t, id, events);
    RetireSame(s, t, id, events);
    ReleaseKeeps(t, c);
    ReleaseSame(t, c);
    PushAllAppends(s.queue, events);
    PersistsTransitive(s0, s, t);
    PersistsTransitive(s0, t, Release(t, c));
    SameServers(s0, s, c);
  }

  lemma SameServers(s: State, t: State, c: ConnId)
    requires Around(s, t, c)
    ensures t.servers == s.servers && t.delivered == s.delivered
  {
  }

  lemma RetireSame(s: State, t: State, id: OpId, events: seq<Event>)
    requires Retires(s, t, id, events)
    ensures Persists(s, t) && t.delivered == s.delivered && t.servers == s.servers
    ensures t.log == s.log + [Result(s, id, events)]
  {
    EndedPersists(s, t, id, Result(s, id, events));
  }

  lemma PersistsTransitive(s: State, t: State, u: State)
    requires Persists(s, t) && Persists(t, u)
    ensures Persists(s, u)
  {
  }

  /** The end of a read or write that answers with one event. */
  lemma OneEventHandled(s0: State, s: State, id: OpId, event: Event)
    requires Core(s, None) && CanRun(s, id) && (s.ops[id].op.Read? || s.ops[id].op.Write?)
    requires Ending(s0, s, id, s.ops[id].op.c) && Faithful(s, id, [event])
    ensures var t := Release(Retire(s, id, [event]), s.ops[id].op.c);
      Handled(s0, t, id) && EndsWith(s0, t, id, [event])
  {
    hide Core, Faithful, Handled, EndsWith, Release, Around, Persists;
    RetireHandled(s0, s, Retire(s, id, [event]), id, [event], s.ops[id].op.c);
    RetireOutcome(s0, s, Retire(s, id, [event]), id, [event], s.ops[id].op.c);
  }

  /** A failed read or write closes its socket and answers with the message. */
  lemma FailureHandled(s: State, id: OpId)
    requires Core(s, None) && CanRun(s, id) && (s.ops[id].op.Read? || s.ops[id].op.Write?) && s.queue == []
    requires s.ops[id].phase.ec.Some?
    ensures var o := s.ops[id];
      Handled(s, Fail(s, id), id)
      && EndsWith(s, Fail(s, id), id, [Continue(o.op.destId, Null, o.phase.ec.value.message)])
  {
    hide Core, Handled, EndsWith, Release, CloseSocket, Retire, Around, Persists;
    var o := s.ops[id];
    var u, event := CloseSocket(s, o.op.c), Continue(o.op.destId, Null, o.phase.ec.value.message);
    EndingClosed(s, id);
    Facts(u, id);
    OneEventHandled(s, u, id, event);
  }

  lemma ReissueHandled(s: State, id: OpId, op: Op)
    requires Core(s, None) && CanRun(s, id) && Request(op) == Request(s.ops[id].op) && s.queue == []
    requires (op.Read? && op.got == s.ops[id].op.got + s.ops[id].phase.n < op.size)
      || (op.Write? && op.put < |op.data|)
    ensures Handled(s, Reissue(s, id, op), id) && GoesOn(s, Reissue(s, id, op), id, op)
  {
    hide Core;
    AdvanceKeeps(s, Reissue(s, id, op), id, Reissue(s, id, op).ops[id]);
  }

  /** In every reachable state the handler of a finished operation works on live objects. */
  lemma HandlersCanRun(s: State, id: OpId)
    requires Core(s, None) && id in s.ops && s.ops[id].phase.Ready?
    ensures CanRun(s, id)
  {
    if s.ops[id].op.ReadSome? {
      assert BufferInv(s, s.ops[id].op.c);
    }
  }

  /** The bytes a finished read has in the buffer of its connection are the last ones taken. */
  lemma BufferHolds(s: State, id: OpId)
    requires Core(s, None) && CanRun(s, id) && IsRead(s.ops[id].op)
    ensures var k, p, r := s.conns[s.ops[id].op.c], s.peers[s.ops[id].op.c], BufferedBy(s.ops[id]);
      r <= |k.readBuf| && r <= p.consumed && k.readBuf[..r] == LastBytes(p, r) && |LastBytes(p, r)| == r
  {
    assert BufferInv(s, s.ops[id].op.c);
  }

  lemma ReadHandled(s: State, id: OpId)
    requires Core(s, None) && CanRun(s, id) && s.ops[id].op.Read? && s.queue == []
    ensures Handled(s, HandleRead(s, id), id) && ReadOutcome(s, HandleRead(s, id), id)
  {
    hide Core, Handled, EndsWith, Release, Fail, Retire, Reissue;
    var Pending(op, Ready(ec, n)) := s.ops[id];
    Facts(s, id);
    if ec.None? && 0 < n && op.got + n < op.size {
      ReissueHandled(s, id, op.(got := op.got + n));
    } else if ec.None? {
      ReadOkHandled(s, id);
    } else {
      FailureHandled(s, id);
    }
  }

  lemma ReadOkHandled(s: State, id: OpId)
    requires Core(s, None) && CanRun(s, id) && s.ops[id].op.Read? && s.queue == []
    requires s.ops[id].phase.ec.None? && s.ops[id].op.got + s.ops[id].phase.n == s.ops[id].op.size
    ensures var op := s.ops[id].op;
      var t := Release(Retire(s, id, [Continue(op.destId, Connection(op.c), s.conns[op.c].readBuf)]), op.c);
      Handled(s, t, id) && ReadOutcome(s, t, id)
  {
    hide Core, Handled, EndsWith, Release, Retire;
    var op := s.ops[id].op;
    Facts(s, id);
    BufferHolds(s, id);
    assert s.conns[op.c].readBuf[..op.size] == s.conns[op.c].readBuf;
    EndingOpen(s, id);
    OneEventHandled(s, s, id, Continue(op.destId, Connection(op.c), s.conns[op.c].readBuf));
  }

  lemma ReadSomeHandled(s: State, id: OpId)
    requires Core(s, None) && CanRun(s, id) && s.ops[id].op.ReadSome? && s.queue == []
    ensures Handled(s, HandleReadSome(s, id), id) && ReadSomeOutcome(s, HandleReadSome(s, id), id)
  {
    hide Core, Handled, EndsWith, Release, CloseSocket, Retire, Around, Persists, LastBytes;
    var Pending(op, Ready(ec, n)) := s.ops[id];
    var c := op.c;
    Facts(s, id);
    BufferHolds(s, id);
    if ec.None? {
      EndingOpen(s, id);
      ReadSomeEnds(s, s, id, [Continue(op.destId, Connection(c), s.conns[c].readBuf[..n])]);
    } else {
      var data := s.conns[c].readBuf[..n];
      var events := [Continue(op.destId, Null, data), Continue(op.destId, Null, ec.value.message)];
      assert events[..1] == [Continue(op.destId, Null, data)];
      EndingClosed(s, id);
      ReadSomeEnds(s, CloseSocket(s, c), id, events);
    }
  }

  /** The end of a `read_some`: the buffer is cut to what was read. */
  lemma ReadSomeEnds(s0: State, s: State, id: OpId, events: seq<Event>)
    requires Core(s, None) && CanRun(s, id) && s.ops[id].op.ReadSome? && Ending(s0, s, id, s.ops[id].op.c)
    requires 0 < |events| <= (if s.ops[id].phase.ec.Some? then 2 else 1) && Answered(Result(s, id, events))
    requires events[0].data == s.conns[s.ops[id].op.c].readBuf[..s.ops[id].phase.n]
    ensures var c, t := s.ops[id].op.c, Retire(s, id, events);
      var u := Release(t.(conns := t.conns[c := t.conns[c].(readBuf := events[0].data)]), c);
      Handled(s0, u, id) && EndsWith(s0, u, id, events)
  {
    hide Core, Handled, EndsWith, Release, Around, Persists;
    var c, t := s.ops[id].op.c, Retire(s, id, events);
    var u := t.(conns := t.conns[c := t.conns[c].(readBuf := events[0].data)]);
    RetireHandled(s0, s, u, id, events, c);
    RetireOutcome(s0, s, u, id, events, c);
  }

  lemma WriteHandled(s: State, id: OpId)
    requires Core(s, None) && CanRun(s, id) && s.ops[id].op.Write? && s.queue == []
    ensures Handled(s, HandleWrite(s, id), id) && WriteOutcome(s, HandleWrite(s, id), id)
  {
    hide Core, Handled, EndsWith, Release, Fail, Retire, Reissue, Around, Persists;
    var Pending(op, Ready(ec, n)) := s.ops[id];
    var c := op.c;
    Facts(s, id);
    if ec.None? && 0 < n && op.put + n < |op.data| {
      ReissueHandled(s, id, op.(put := op.put + n));
    } else if ec.None? {
      EndingOpen(s, id);
      OneEventHandled(s, s, id, Continue(op.destId, Connection(c), []));
    } else {
      FailureHandled(s, id);
    }
  }

  lemma SimpleHandled(s: State, id: OpId, event: Event)
    requires Core(s, None) && CanRun(s, id) && (s.ops[id].op.Connect? || s.ops[id].op.Sleep?) && s.queue == []
    requires Answered(Result(s, id, [event]))
    ensures Handled(s, Retire(s, id, [event]), id) && OnlyAnswers(s, Retire(s, id, [event]), id, event)
  {
    hide Core;
    RetireKeeps(s, Retire(s, id, [event]), id, [event]);
    RetireSame(s, Retire(s, id, [event]), id, [event]);
    PushAllAppends(s.queue, [event]);
  }

  lemma ConnectHandled(s: State, id: OpId)
    requires Core(s, None) && CanRun(s, id) && s.ops[id].op.Connect? && s.queue == []
    ensures Handled(s, HandleConnect(s, id), id) && ConnectOutcome(s, HandleConnect(s, id), id)
  {
    hide Core, Handled, Retire;
    var Pending(op, Ready(ec, _)) := s.ops[id];
    SimpleHandled(s, id, if ec.None? then Continue(op.destId, Connection(op.c), [])
                         else Continue(op.destId, Null, ec.value.message));
  }

  lemma SleepHandled(s: State, id: OpId)
    requires Core(s, None) && CanRun(s, id) && s.ops[id].op.Sleep? && s.queue == []
    ensures Handled(s, HandleSleep(s, id), id) && SleepOutcome(s, HandleSleep(s, id), id)
  {
    hide Core, Handled, Retire;
    var Pending(op, Ready(ec, _)) := s.ops[id];
    SimpleHandled(s, id, Continue(op.destId, Null, if ec.None? then [] else ec.value.message));
  }

  lemma AcceptFacts(s: State, id: OpId)
    requires Core(s, None) && CanRun(s, id) && s.ops[id].op.Accept?
    ensures var op, n := s.ops[id].op, s.ops[id].phase.n;
      && (op.server in s.servers ==> s.servers[op.server].port == op.port)
      && (Arrived(s.ops[id]) ==> n in s.peers && n !in s.conns && s.peers[n].closedAt.None?)
      && (forall j :: j in s.ops && s.ops[j].op.Accept? && s.ops[j].op.server == op.server && op.server in s.servers ==>
            j == id)
  {
  }

  lemma AcceptWaits(s: State, id: OpId)
    requires Core(s, None) && CanRun(s, id) && s.ops[id].op.Accept? && !Aborted(s.ops[id].phase)
    ensures WaitsFor(HandleAccept(s, id), s.ops[id].op.server, s.nextOp)
  {
    hide Core;
    AcceptFacts(s, id);
    NextNotIssued(s);
  }

  lemma AcceptEndsSo(s: State, id: OpId)
    requires Core(s, None) && CanRun(s, id) && s.ops[id].op.Accept? && s.queue == []
    ensures AcceptOutcome(s, HandleAccept(s, id), id)
  {
    hide Core, WaitsFor;
    var o := s.ops[id];
    if !Aborted(o.phase) {
      AcceptWaits(s, id);
    }
    PushAllAppends(s.queue, if o.phase.ec.None? then [Event(EVT_ACCEPT, o.op.port, Handle(o.phase.n), [])] else []);
    AcceptFacts(s, id);
    NextNotIssued(s);
  }

  /** The handler of an accept, piece by piece. */
  lemma AcceptPieces(s: State, id: OpId)
    requires CanRun(s, id) && s.ops[id].op.Accept?
    ensures var Pending(op, Ready(ec, n)) := s.ops[id];
      var u := if ec.None? then s.(conns := s.conns[n := NEW_CONN]) else s;
      && CanRun(u, id)
      && HandleAccept(s, id) ==
         if Aborted(s.ops[id].phase) then Disarmed(u, id, [])
         else Rearm(Disarmed(u, id, if ec.None? then [Event(EVT_ACCEPT, s.servers[op.server].port, Handle(n), [])] else []),
                    op.server)
  {
  }

  ghost function Rearm(s: State, v: ServerId): State
    requires v in s.servers
  {
    s.(servers := s.servers[v := s.servers[v].(accept := Some(s.nextOp))],
       ops := s.ops[s.nextOp := Pending(Accept(v, s.servers[v].port), InKernel)], nextOp := s.nextOp + 1)
  }

  lemma ArmedOnce(s: State, t: State, v: ServerId)
    requires Core(s, None) && Arms(s, t, v)
    ensures WaitsFor(t, v, s.nextOp)
  {
    hide Ledger, Objects, Streams;
  }

  lemma NextNotIssued(s: State)
    requires Core(s, None)
    ensures s.nextOp !in s.ops
  {
  }

  lemma AcceptPersists(s: State, id: OpId)
    requires Core(s, None) && CanRun(s, id) && s.ops[id].op.Accept? && s.queue == []
    requires AcceptOutcome(s, HandleAccept(s, id), id)
    ensures Persists(s, HandleAccept(s, id))
  {
    hide Core, HandleAccept, Persists;
    var t := HandleAccept(s, id);
    EndedPersists(s, t, id, t.log[|s.log|]);
  }

  lemma AcceptCore(s: State, id: OpId)
    requires Core(s, None) && CanRun(s, id) && s.ops[id].op.Accept?
    ensures Core(HandleAccept(s, id), None)
  {
    hide Core;
    var o := s.ops[id];
    var events := if o.phase.ec.None? then [Event(EVT_ACCEPT, o.op.port, Handle(o.phase.n), [])] else [];
    AcceptFacts(s, id);
    AcceptEndKeeps(s, Disarmed(s, id, events), id, events);
    if o.phase.ec.None? {
      Rearmed(s, id, events);
    } else if !o.phase.ec.value.aborted {
      ArmKeeps(Disarmed(s, id, events), HandleAccept(s, id), o.op.server);
    }
  }

  lemma AcceptHandled(s: State, id: OpId)
    requires Core(s, None) && CanRun(s, id) && s.ops[id].op.Accept? && s.queue == []
    ensures Handled(s, HandleAccept(s, id), id) && AcceptOutcome(s, HandleAccept(s, id), id)
  {
    hide Core, HandleAccept, Persists;
    AcceptEndsSo(s, id);
    AcceptPersists(s, id);
    AcceptCore(s, id);
  }

  /** The accept is over and the server, if it is there, waits for nothing. */
  ghost function Disarmed(s: State, id: OpId, events: seq<Event>): State
    requires CanRun(s, id) && s.ops[id].op.Accept?
  {
    var t, v := Retire(s, id, events), s.ops[id].op.server;
    if v in s.servers then t.(servers := s.servers[v := s.servers[v].(accept := None)]) else t
  }

  lemma Rearmed(s: State, id: OpId, events: seq<Event>)
    requires Core(s, None) && CanRun(s, id) && Arrived(s.ops[id])
    requires events == [Event(EVT_ACCEPT, s.ops[id].op.port, Handle(s.ops[id].phase.n), [])]
    ensures Core(HandleAccept(s, id), None)
  {
    hide Core;
    var t, n := Disarmed(s, id, events), s.ops[id].phase.n;
    AcceptFacts(s, id);
    AcceptEndKeeps(s, t, id, events);
    var u := t.(conns := t.conns[n := NEW_CONN]);
    JoinKeeps(t, u, n);
    ArmKeeps(u, HandleAccept(s, id), s.ops[id].op.server);
  }

  lemma RunHandled(s: State, id: OpId)
    requires Core(s, None) && CanRun(s, id) && s.queue == []
    ensures Handled(s, RunHandler(s, id), id) && HandlerOutcome(s, RunHandler(s, id), id)
  {
    hide Core, Handled, ConnectOutcome, ReadOutcome, ReadSomeOutcome, WriteOutcome, SleepOutcome, AcceptOutcome;
    match s.ops[id].op
    case Connect(_, _) => ConnectHandled(s, id);
    case Read(_, _, _, _) => ReadHandled(s, id);
    case ReadSome(_, _) => ReadSomeHandled(s, id);
    case Write(_, _, _, _) => WriteHandled(s, id);
    case Sleep(_) => SleepHandled(s, id);
    case Accept(_, _) => AcceptHandled(s, id);
  }
}
