/** Each primitive step of the event protocol keeps the invariant. A step is described by its effect on
    the parts of the state, so that each conjunct of the invariant is proved from that alone. */
module EventSteps {
  import opened Common
  import opened EventLoop
  import opened EventInvariants

  // ---------------------------------------------------------------- closing a socket

  /** The effect of closing the open socket of `c`, part by part. */
  ghost predicate Closes(s: State, t: State, c: ConnId) {
    && s == t.(conns := s.conns, ops := s.ops, peers := s.peers)
    && t.ops.Keys == s.ops.Keys
    && (forall id :: id in s.ops ==> t.ops[id].op == s.ops[id].op && CloseEffect(s.ops[id], t.ops[id].phase, c))
    && c in s.conns && s.conns[c].open && t.conns == s.conns[c := s.conns[c].(open := false)]
    && c in s.peers && t.peers == s.peers[c := s.peers[c].(closedAt := Some(s.nextOp))]
  }

  ghost predicate CloseEffect(o: Pending, phase: Phase, c: ConnId) {
    if o.phase.InKernel? && OnSocket(o.op, c) then phase == Ready(Some(ABORTED), 0) else phase == o.phase
  }

  lemma CloseLedger(s: State, t: State, c: ConnId)
    requires Ledger(s) && Closes(s, t, c)
    ensures Ledger(t)
  {
  }

  lemma CloseRefs(s: State, t: State, c: ConnId, z: Option<ConnId>)
    requires Refs(s, z) && Closes(s, t, c)
    ensures Refs(t, z)
  {
    hide CloseEffect;
  }

  lemma CloseReaders(s: State, t: State, c: ConnId)
    requires Readers(s) && Closes(s, t, c)
    ensures Readers(t)
  {
  }

  lemma CloseSockets(s: State, t: State, c: ConnId)
    requires Sockets(s) && Closes(s, t, c)
    ensures Sockets(t)
  {
  }

  lemma CloseStreams(s: State, t: State, c: ConnId)
    requires Streams(s) && Closes(s, t, c) && Ledger(s) && Readers(s)
    ensures Streams(t)
  {
    hide BufferInv;
    CloseBuffered(s, t, c);
    forall d | d in t.peers ensures StreamInv(t, d) {
      StreamFrame(s, t, d);
    }
    CloseBuffers(s, t, c);
  }

  lemma CloseBuffered(s: State, t: State, c: ConnId)
    requires Readers(s) && Closes(s, t, c)
    ensures forall d :: Buffered(t, d) == Buffered(s, d)
  {
  }

  lemma CloseBuffers(s: State, t: State, c: ConnId)
    requires Streams(s) && Closes(s, t, c) && Ledger(s) && Readers(s)
    ensures forall d :: d in t.conns && d in t.peers ==> BufferInv(t, d)
  {
    forall d | d in t.conns && d in t.peers ensures BufferInv(t, d) {
      BufferFrame(s, t, d);
    }
  }

  /** Nothing happened to the stream of `d` except perhaps that its socket closed. */
  lemma StreamFrame(s: State, t: State, d: ConnId)
    requires d in s.peers && d in t.peers && StreamInv(s, d) && SamePeer(s, t, d)
    requires t.peers[d].lost == s.peers[d].lost
    requires Buffered(t, d) == Buffered(s, d) && Taken(t.log, d) == Taken(s.log, d)
    ensures StreamInv(t, d)
  {
  }

  ghost predicate SamePeer(s: State, t: State, d: ConnId)
    requires d in s.peers && d in t.peers
  {
    && t.peers[d].stream == s.peers[d].stream && t.peers[d].consumed == s.peers[d].consumed
    && (t.peers[d].closedAt == s.peers[d].closedAt || t.peers[d].closedAt == Some(s.nextOp))
  }

  lemma BufferFrame(s: State, t: State, d: ConnId)
    requires d in s.peers && d in t.peers && SamePeer(s, t, d) && d in s.conns && d in t.conns && BufferInv(s, d)
    requires t.conns[d].reader == s.conns[d].reader && t.conns[d].readBuf == s.conns[d].readBuf
    requires s.conns[d].reader.Some? ==>
      var id := s.conns[d].reader.value;
      id in s.ops && id in t.ops && id < s.nextOp && t.ops[id].op == s.ops[id].op
      && BufferedBy(t.ops[id]) == BufferedBy(s.ops[id])
    ensures BufferInv(t, d)
  {
  }

  lemma CloseAccepts(s: State, t: State, c: ConnId)
    requires Accepts(s) && Closes(s, t, c)
    ensures Accepts(t)
  {
    hide Waiting;
    CloseWaiting(s, t, c);
  }

  lemma CloseWaiting(s: State, t: State, c: ConnId)
    requires Accepts(s) && Closes(s, t, c)
    ensures forall v: ServerId :: Waiting(t, v) == Waiting(s, v)
  {
    hide AcceptInv;
  }

  lemma CloseKeeps(s: State, c: ConnId, z: Option<ConnId>)
    requires Core(s, z) && c in s.conns && s.conns[c].open
    ensures Closes(s, CloseSocket(s, c), c) && Core(CloseSocket(s, c), z)
  {
    hide Books, LogInv, OpsInv, Readers, Sockets, DataInv, SilentInv, Servers, Fresh, AcceptInv;
    var t := CloseSocket(s, c);
    CloseLedger(s, t, c);
    CloseRefs(s, t, c, z);
    CloseReaders(s, t, c);
    CloseSockets(s, t, c);
    CloseStreams(s, t, c);
    CloseAccepts(s, t, c);
  }

  // ---------------------------------------------------------------- finishing an operation

  /** The effect of the handler that ends operation `id` (not an accept), part by part; the buffer of
      the connection may change at the end of a read. */
  ghost predicate Retires(s: State, t: State, id: OpId, events: seq<Event>) {
    && id in s.ops && s.ops[id].phase.Ready? && !s.ops[id].op.Accept?
    && s == t.(conns := s.conns, ops := s.ops, peers := s.peers, log := s.log, queue := s.queue)
    && t.ops == s.ops - {id}
    && t.log == s.log + [Result(s, id, events)]
    && var o := s.ops[id];
    if !Holds(o.op) then t.conns == s.conns && t.peers == s.peers
    else
      && o.op.c in s.conns && o.op.c in s.peers && o.op.c in t.conns
      && t.conns == s.conns[o.op.c := LetGo(s.conns[o.op.c], id, o.op).(readBuf := t.conns[o.op.c].readBuf)]
      && (!IsRead(o.op) ==> t.conns[o.op.c].readBuf == s.conns[o.op.c].readBuf)
      && t.peers == s.peers[o.op.c := s.peers[o.op.c].(lost := s.peers[o.op.c].lost || Drops(o))]
  }

  ghost function Result(s: State, id: OpId, events: seq<Event>): Completion
    requires id in s.ops && s.ops[id].phase.Ready?
  {
    Completion(id, s.ops[id].op, s.ops[id].phase.ec, s.ops[id].phase.n, events)
  }

  function LetGo(k: Conn, id: OpId, op: Op): Conn {
    k.(owners := k.owners - {id}, reader := if IsRead(op) then None else k.reader)
  }

  predicate Drops(o: Pending)
    requires o.phase.Ready?
  {
    o.op.Read? && o.phase.ec.Some? && o.op.got + o.phase.n > 0
  }

  /** The connection that may be left without a reference. */
  function Orphan(op: Op): Option<ConnId> {
    if Holds(op) then Some(op.c) else None
  }

  /** What the handler's events say: its answer, and the bytes in the buffer if it passes any on. A
      failed read or write has closed its socket. */
  ghost predicate Faithful(s: State, id: OpId, events: seq<Event>)
    requires id in s.ops && s.ops[id].phase.Ready?
  {
    var o := s.ops[id];
    && Answered(Result(s, id, events))
    && (Holds(o.op) && o.phase.ec.Some? ==> o.op.c in s.peers && s.peers[o.op.c].closedAt.Some?)
    && (IsRead(o.op) && o.op.c in s.conns && BufferedBy(o) <= |s.conns[o.op.c].readBuf| ==>
          DataOf(Result(s, id, events), o.op.c) ==
          if Drops(o) then [] else s.conns[o.op.c].readBuf[..BufferedBy(o)])
  }

  lemma RetireLedger(s: State, t: State, id: OpId, events: seq<Event>)
    requires Ledger(s) && Retires(s, t, id, events) && Answered(Result(s, id, events))
    ensures Ledger(t)
  {
    RetireBooks(s, t, id, events);
  }

  lemma RetireBooks(s: State, t: State, id: OpId, events: seq<Event>)
    requires Books(s) && id in s.ops && t.ops == s.ops - {id} && t.nextOp == s.nextOp
    requires s.ops[id].phase.Ready? && t.log == s.log + [Result(s, id, events)]
    ensures Books(t)
  {
    LoggedAppend(s.log, Result(s, id, events));
  }

  lemma LoggedAppend(log: seq<Completion>, x: Completion)
    ensures forall id :: Logged(log + [x], id) <==> Logged(log, id) || id == x.id
  {
    assert (log + [x])[|log|] == x;
    forall id | Logged(log, id) ensures Logged(log + [x], id) {
      var k :| 0 <= k < |log| && log[k].id == id;
      assert (log + [x])[k].id == id;
    }
  }

  lemma RetireRefs(s: State, t: State, id: OpId, events: seq<Event>)
    requires Refs(s, None) && Retires(s, t, id, events)
    ensures Refs(t, Orphan(s.ops[id].op))
  {
  }

  lemma RetireReaders(s: State, t: State, id: OpId, events: seq<Event>)
    requires Readers(s) && Retires(s, t, id, events)
    ensures Readers(t)
  {
  }

  lemma RetireSockets(s: State, t: State, id: OpId, events: seq<Event>)
    requires Sockets(s) && Retires(s, t, id, events) && Faithful(s, id, events)
    ensures Sockets(t)
  {
  }

  lemma TakenAppend(log: seq<Completion>, x: Completion, c: ConnId)
    ensures Taken(log + [x], c) == Taken(log, c) + DataOf(x, c)
  {
    assert (log + [x])[..|log|] == log;
  }

  lemma AnnouncedAppend(log: seq<Completion>, x: Completion, v: ServerId)
    ensures Announced(log + [x], v) ==
      Announced(log, v) + (if x.op.Accept? && x.op.server == v && x.ec.None? then [x.n] else [])
  {
    assert (log + [x])[..|log|] == log;
  }

  lemma FlattenAppend(log: seq<Completion>, x: Completion)
    ensures Flatten(log + [x]) == Flatten(log) + x.events
  {
    assert (log + [x])[..|log|] == log;
  }

  lemma RetireStreams(s: State, t: State, id: OpId, events: seq<Event>)
    requires Streams(s) && Ledger(s) && Objects(s, None) && Retires(s, t, id, events) && Faithful(s, id, events)
    ensures Streams(t)
  {
    forall d | d in t.peers ensures StreamInv(t, d) {
      if IsRead(s.ops[id].op) && s.ops[id].op.c == d {
        RetireReadStream(s, t, id, events);
      } else {
        RetireOtherStream(s, t, id, events, d);
      }
    }
    RetireBuffers(s, t, id, events);
    RetireSilent(s, t, id, events);
  }

  lemma RetireBuffers(s: State, t: State, id: OpId, events: seq<Event>)
    requires DataInv(s) && Books(s) && Readers(s) && Retires(s, t, id, events)
    ensures forall d :: d in t.conns && d in t.peers ==> BufferInv(t, d)
  {
    forall d | d in t.conns && d in t.peers ensures BufferInv(t, d) {
      if t.conns[d].reader.Some? {
        BufferFrame(s, t, d);
      }
    }
  }

  lemma RetireOtherStream(s: State, t: State, id: OpId, events: seq<Event>, d: ConnId)
    requires DataInv(s) && OpsInv(s) && Readers(s) && Retires(s, t, id, events) && d in t.peers
    requires !(IsRead(s.ops[id].op) && s.ops[id].op.c == d)
    ensures StreamInv(t, d)
  {
    TakenAppend(s.log, Result(s, id, events), d);
    assert Buffered(t, d) == Buffered(s, d);
    StreamFrame(s, t, d);
  }

  lemma RetireReadStream(s: State, t: State, id: OpId, events: seq<Event>)
    requires Retires(s, t, id, events) && Faithful(s, id, events) && IsRead(s.ops[id].op)
    requires s.conns[s.ops[id].op.c].reader == Some(id) && OpInv(s.ops[id].op, s.ops[id].phase)
    requires StreamInv(s, s.ops[id].op.c) && BufferInv(s, s.ops[id].op.c)
    ensures StreamInv(t, s.ops[id].op.c)
  {
    var c, o, x := s.ops[id].op.c, s.ops[id], Result(s, id, events);
    TakenAppend(s.log, x, c);
    assert Buffered(s, c) == BufferedBy(o) && Buffered(t, c) == 0;
    PassOn(s.peers[c], Taken(s.log, c), BufferedBy(o), DataOf(x, c), Drops(o));
  }

  /** `r` bytes taken in are passed on as `data`, or dropped. */
  lemma PassOn(p: Peer, taken: seq<byte>, r: nat, data: seq<byte>, dropped: bool)
    requires r <= p.consumed <= |p.stream|
    requires if p.lost then taken <= p.stream && r == 0 else taken == p.stream[..p.consumed - r]
    requires data == if dropped then [] else p.stream[p.consumed - r..p.consumed]
    ensures if p.lost || dropped then taken + data <= p.stream else taken + data == p.stream[..p.consumed]
  {
  }

  lemma RetireSilent(s: State, t: State, id: OpId, events: seq<Event>)
    requires Streams(s) && Ledger(s) && Objects(s, None) && Retires(s, t, id, events) && Faithful(s, id, events)
    ensures SilentInv(t)
  {
    var o := s.ops[id];
    forall c | c in t.peers && Silent(t.peers[c], id) ensures DataOf(Result(s, id, events), c) == [] {
      if IsRead(o.op) && o.op.c == c {
        assert BufferInv(s, c);
      }
    }
  }

  lemma RetireAccepts(s: State, t: State, id: OpId, events: seq<Event>)
    requires Accepts(s) && Retires(s, t, id, events)
    ensures Accepts(t)
  {
    forall v: ServerId ensures Accepted(t.accepts, v) == Announced(t.log, v) + Waiting(t, v) {
      AnnouncedAppend(s.log, Result(s, id, events), v);
      assert Waiting(t, v) == Waiting(s, v);
    }
  }

  lemma RetireKeeps(s: State, t: State, id: OpId, events: seq<Event>)
    requires Core(s, None) && Retires(s, t, id, events) && Faithful(s, id, events)
    ensures Core(t, Orphan(s.ops[id].op))
  {
    hide Books, LogInv, OpsInv, Refs, Readers, Sockets, DataInv, SilentInv, Servers, Fresh, AcceptInv;
    RetireLedger(s, t, id, events);
    RetireRefs(s, t, id, events);
    RetireReaders(s, t, id, events);
    RetireSockets(s, t, id, events);
    RetireStreams(s, t, id, events);
    RetireAccepts(s, t, id, events);
  }

  // ---------------------------------------------------------------- references going away

  /** The handle of `c` is dropped. */
  ghost predicate DropsHandle(s: State, t: State, c: ConnId) {
    c in s.conns && t == s.(conns := s.conns[c := s.conns[c].(handle := false)])
  }

  lemma DropKeeps(s: State, t: State, c: ConnId)
    requires Core(s, None) && DropsHandle(s, t, c)
    ensures Core(t, Some(c))
  {
    hide Books, LogInv, OpsInv, Refs, Readers, Sockets, DataInv, SilentInv, Servers, Fresh, AcceptInv;
    SameLedger(s, t);
    DropObjects(s, t, c);
    SameStreams(s, t);
    SameAccepts(s, t);
  }

  lemma SameLedger(s: State, t: State)
    requires Ledger(s) && t.ops == s.ops && t.log == s.log && t.nextOp == s.nextOp
    ensures Ledger(t)
  {
  }

  /** No outstanding read, buffer, peer or result changed. */
  ghost predicate Undisturbed(s: State, t: State) {
    && t.peers == s.peers && t.log == s.log
    && (forall d :: d in t.conns && t.conns[d].reader.Some? ==>
          d in s.conns && t.conns[d].reader == s.conns[d].reader && t.conns[d].readBuf == s.conns[d].readBuf)
    && (forall d :: d in s.conns && s.conns[d].reader.Some? ==> d in t.conns && t.conns[d].reader.Some?)
    && (forall id :: id in s.ops && IsRead(s.ops[id].op) ==> id in t.ops && t.ops[id] == s.ops[id])
  }

  lemma SameStreams(s: State, t: State)
    requires Streams(s) && Readers(s) && Undisturbed(s, t)
    ensures Streams(t)
  {
    forall d | d in t.peers ensures StreamInv(t, d) {
      assert StreamInv(s, d) && Buffered(t, d) == Buffered(s, d);
    }
    forall d | d in t.conns && d in t.peers ensures BufferInv(t, d) {
      if t.conns[d].reader.Some? {
        assert BufferInv(s, d);
      }
    }
  }

  lemma SameAccepts(s: State, t: State)
    requires Accepts(s) && t == s.(conns := t.conns) && t.conns.Keys <= s.conns.Keys
    ensures Accepts(t)
  {
    assert forall v: ServerId :: Waiting(t, v) == Waiting(s, v);
  }

  lemma DropObjects(s: State, t: State, c: ConnId)
    requires Objects(s, None) && DropsHandle(s, t, c)
    ensures Objects(t, Some(c))
  {
    DropRefs(s, t, c);
  }

  lemma DropRefs(s: State, t: State, c: ConnId)
    requires Refs(s, None) && DropsHandle(s, t, c)
    ensures Refs(t, Some(c))
  {
  }

  /** The closed connection object `c`, to which nothing points, is freed. */
  ghost predicate Frees(s: State, t: State, c: ConnId) {
    && c in s.conns && !s.conns[c].handle && s.conns[c].owners == {} && !s.conns[c].open
    && t == s.(conns := s.conns - {c})
  }

  lemma FreeKeeps(s: State, t: State, c: ConnId)
    requires Core(s, Some(c)) && Frees(s, t, c)
    ensures Core(t, None)
  {
    hide Books, LogInv, OpsInv, Refs, Readers, Sockets, DataInv, SilentInv, Servers, Fresh, AcceptInv;
    SameLedger(s, t);
    FreeRefs(s, t, c);
    FreeObjects(s, t, c);
    SameStreams(s, t);
    SameAccepts(s, t);
  }

  lemma FreeRefs(s: State, t: State, c: ConnId)
    requires Refs(s, Some(c)) && Frees(s, t, c)
    ensures Refs(t, None)
  {
  }

  lemma FreeObjects(s: State, t: State, c: ConnId)
    requires Refs(s, Some(c)) && Readers(s) && Sockets(s) && Frees(s, t, c)
    ensures Readers(t) && Sockets(t) && s.conns[c].reader.None?
  {
  }

  /** Whoever let go of `c` last frees it, closing its socket first. */
  lemma ReleaseKeeps(s: State, c: ConnId)
    requires Core(s, Some(c)) && c in s.conns && c in s.peers
    ensures Core(Release(s, c), None)
  {
    hide Books, LogInv, OpsInv, Refs, Readers, Sockets, DataInv, SilentInv, Servers, Fresh, AcceptInv;
    if s.conns[c].handle || s.conns[c].owners != {} {
      StillReferenced(s, c);
    } else if s.conns[c].open {
      CloseKeeps(s, c, Some(c));
      FreeKeeps(CloseSocket(s, c), Release(s, c), c);
    } else {
      FreeKeeps(s, Release(s, c), c);
    }
  }

  lemma StillReferenced(s: State, c: ConnId)
    requires Core(s, Some(c)) && c in s.conns && (s.conns[c].handle || s.conns[c].owners != {})
    ensures Core(s, None)
  {
    hide Ledger, Readers, Sockets, Streams, Accepts;
  }

  // ---------------------------------------------------------------- issuing an operation

  /** The effect of starting `op`, not an accept, part by part. */
  ghost predicate Issues(s: State, t: State, op: Op, phase: Phase) {
    && !op.Accept?
    && s == t.(conns := s.conns, ops := s.ops, nextOp := s.nextOp)
    && t.ops == s.ops[s.nextOp := Pending(op, phase)] && t.nextOp == s.nextOp + 1
    && if !Holds(op) then t.conns == s.conns
       else
         && op.c in s.conns && op.c in t.conns
         && t.conns == s.conns[op.c := TakenUp(s.conns[op.c], s.nextOp, op).(readBuf := t.conns[op.c].readBuf)]
         && (IsRead(op) ==> s.conns[op.c].reader.None? && |t.conns[op.c].readBuf| == BufferSize(op))
         && (!IsRead(op) ==> t.conns[op.c].readBuf == s.conns[op.c].readBuf)
  }

  function TakenUp(k: Conn, id: OpId, op: Op): Conn {
    k.(owners := k.owners + {id}, reader := if IsRead(op) then Some(id) else k.reader)
  }

  /** A new operation has transferred nothing; the kernel gets it only if the socket is open. */
  ghost predicate StartsWell(s: State, op: Op, phase: Phase) {
    && OpInv(op, phase) && BufferedBy(Pending(op, phase)) == 0
    && (phase.InKernel? && (op.Connect? || Holds(op)) ==> op.c in s.conns && s.conns[op.c].open)
  }

  lemma IssueLedger(s: State, t: State, op: Op, phase: Phase)
    requires Ledger(s) && Issues(s, t, op, phase) && StartsWell(s, op, phase)
    ensures Ledger(t)
  {
    IssueBooks(s, t, Pending(op, phase));
  }

  lemma IssueBooks(s: State, t: State, o: Pending)
    requires Books(s) && t.ops == s.ops[s.nextOp := o] && t.nextOp == s.nextOp + 1 && t.log == s.log
    ensures Books(t)
  {
    assert !Logged(s.log, s.nextOp);
    forall id | 0 <= id < t.nextOp ensures id in t.ops || Logged(t.log, id) {
      assert id == s.nextOp || id in s.ops || Logged(s.log, id);
    }
  }

  lemma IssueRefs(s: State, t: State, op: Op, phase: Phase)
    requires Refs(s, None) && Books(s) && Issues(s, t, op, phase)
    ensures Refs(t, None)
  {
    hide Books;
    assert s.nextOp !in s.ops by {
      NotYetIssued(s);
    }
    forall c, id | c in t.conns && id in t.conns[c].owners
      ensures id in t.ops && Holds(t.ops[id].op) && t.ops[id].op.c == c
    {
      if id != s.nextOp {
        assert id in s.conns[c].owners;
      }
    }
  }

  lemma NotYetIssued(s: State)
    requires Books(s)
    ensures s.nextOp !in s.ops
  {
  }

  lemma IssueReaders(s: State, t: State, op: Op, phase: Phase)
    requires Readers(s) && Books(s) && Issues(s, t, op, phase)
    ensures Readers(t)
  {
  }

  lemma IssueSockets(s: State, t: State, op: Op, phase: Phase)
    requires Sockets(s) && Issues(s, t, op, phase) && StartsWell(s, op, phase)
    ensures Sockets(t)
  {
  }

  lemma IssueStreams(s: State, t: State, op: Op, phase: Phase)
    requires DataInv(s) && Books(s) && Readers(s) && Issues(s, t, op, phase) && StartsWell(s, op, phase)
    ensures forall d :: d in t.peers ==> StreamInv(t, d)
  {
    forall d | d in t.peers ensures StreamInv(t, d) {
      assert Buffered(t, d) == Buffered(s, d);
      StreamFrame(s, t, d);
    }
  }

  lemma IssueBuffers(s: State, t: State, op: Op, phase: Phase)
    requires DataInv(s) && Refs(s, None) && Books(s) && Readers(s)
    requires Issues(s, t, op, phase) && StartsWell(s, op, phase)
    ensures forall d :: d in t.conns && d in t.peers ==> BufferInv(t, d)
  {
    forall d | d in t.conns && d in t.peers ensures BufferInv(t, d) {
      if IsRead(op) && op.c == d {
        assert StreamInv(s, d);
      } else if t.conns[d].reader.Some? {
        BufferFrame(s, t, d);
      }
    }
  }

  lemma IssueAccepts(s: State, t: State, op: Op, phase: Phase)
    requires Accepts(s) && Books(s) && Issues(s, t, op, phase)
    ensures Accepts(t)
  {
    hide Waiting;
    IssueWaiting(s, t, op, phase);
  }

  lemma IssueWaiting(s: State, t: State, op: Op, phase: Phase)
    requires Accepts(s) && Books(s) && Issues(s, t, op, phase)
    ensures forall v: ServerId :: Waiting(t, v) == Waiting(s, v)
  {
    hide AcceptInv;
  }

  lemma IssueKeeps(s: State, t: State, op: Op, phase: Phase)
    requires Core(s, None) && Issues(s, t, op, phase) && StartsWell(s, op, phase)
    ensures Core(t, None)
  {
    hide Books, LogInv, OpsInv, Refs, Readers, Sockets, Servers, Fresh, AcceptInv;
    IssueLedger(s, t, op, phase);
    IssueRefs(s, t, op, phase);
    IssueReaders(s, t, op, phase);
    IssueSockets(s, t, op, phase);
    IssueStreams(s, t, op, phase);
    IssueBuffers(s, t, op, phase);
    IssueAccepts(s, t, op, phase);
  }

  // ---------------------------------------------------------------- new connections

  /** A connection number is handed out. */
  ghost predicate Numbers(s: State, t: State) {
    t == s.(peers := s.peers[s.nextConn := Peer([], 0, false, None)], nextConn := s.nextConn + 1)
  }

  lemma NumberKeeps(s: State, t: State)
    requires Core(s, None) && Numbers(s, t)
    ensures Core(t, None)
  {
    hide Books, LogInv, OpsInv, Refs, Readers, Sockets, DataInv, SilentInv, Servers, Fresh, AcceptInv;
    SameLedger(s, t);
    NumberObjects(s, t);
    NumberStreams(s, t);
    NumberAccepts(s, t);
  }

  lemma NumberObjects(s: State, t: State)
    requires Objects(s, None) && Numbers(s, t)
    ensures Objects(t, None)
  {
    NumberRefs(s, t);
  }

  lemma NumberRefs(s: State, t: State)
    requires Refs(s, None) && Numbers(s, t)
    ensures Refs(t, None)
  {
  }

  lemma NumberStreams(s: State, t: State)
    requires Streams(s) && Objects(s, None) && LogInv(s) && Numbers(s, t)
    ensures Streams(t)
  {
    forall d | d in t.peers ensures StreamInv(t, d) {
      assert Buffered(t, d) == Buffered(s, d);
      if d == s.nextConn {
        NothingTaken(s, s.log, d);
      } else {
        StreamFrame(s, t, d);
      }
    }
    forall d | d in t.conns && d in t.peers ensures BufferInv(t, d) {
      assert BufferInv(s, d);
    }
  }

  /** No operation has been on a connection that has no number yet. */
  lemma {:induction false} NothingTaken(s: State, log: seq<Completion>, d: ConnId)
    requires d !in s.peers
    requires forall k :: 0 <= k < |log| && Holds(log[k].op) ==> log[k].op.c in s.peers
    ensures Taken(log, d) == []
  {
    if log != [] {
      NothingTaken(s, log[..|log| - 1], d);
      assert DataOf(log[|log| - 1], d) == [];
    }
  }

  lemma NumberAccepts(s: State, t: State)
    requires Accepts(s) && Refs(s, None) && Numbers(s, t)
    ensures Accepts(t)
  {
    assert forall v: ServerId :: Waiting(t, v) == Waiting(s, v);
  }

  const NEW_CONN: Conn := Conn(true, {}, true, [], None)

  /** A connection object is made for an open socket that has none. */
  ghost predicate Joins(s: State, t: State, c: ConnId) {
    && c in s.peers && c !in s.conns && s.peers[c].closedAt.None?
    && (forall id :: id in s.ops && Arrived(s.ops[id]) ==> s.ops[id].phase.n != c)
    && t == s.(conns := s.conns[c := NEW_CONN])
  }

  lemma JoinKeeps(s: State, t: State, c: ConnId)
    requires Core(s, None) && Joins(s, t, c)
    ensures Core(t, None)
  {
    hide Books, LogInv, OpsInv, Refs, Readers, Sockets, DataInv, SilentInv, Servers, Fresh, AcceptInv;
    SameLedger(s, t);
    JoinObjects(s, t, c);
    SameStreams(s, t);
    JoinAccepts(s, t, c);
  }

  lemma JoinObjects(s: State, t: State, c: ConnId)
    requires Objects(s, None) && Joins(s, t, c)
    ensures Objects(t, None)
  {
    JoinRefs(s, t, c);
  }

  lemma JoinRefs(s: State, t: State, c: ConnId)
    requires Refs(s, None) && Joins(s, t, c)
    ensures Refs(t, None)
  {
  }

  lemma JoinAccepts(s: State, t: State, c: ConnId)
    requires Accepts(s) && Joins(s, t, c)
    ensures Accepts(t)
  {
    assert forall v: ServerId :: Waiting(t, v) == Waiting(s, v);
  }

  // ---------------------------------------------------------------- servers

  /** Connections and the operations on them are what they were; accepts may have changed. */
  ghost predicate SameSockets(s: State, t: State) {
    && t.conns == s.conns && t.peers == s.peers && t.nextConn == s.nextConn && s.nextOp <= t.nextOp
    && (forall id :: id in s.ops && !s.ops[id].op.Accept? ==> id in t.ops && t.ops[id] == s.ops[id])
    && (forall id :: id in t.ops && !t.ops[id].op.Accept? ==> id in s.ops && t.ops[id] == s.ops[id])
    && s.log <= t.log
    && (forall k :: |s.log| <= k < |t.log| ==> t.log[k].op.Accept?)
  }

  lemma SameObjects(s: State, t: State)
    requires Objects(s, None) && SameSockets(s, t)
    ensures Objects(t, None)
  {
    hide Refs;
    SameRefs(s, t);
  }

  lemma SameRefs(s: State, t: State)
    requires Refs(s, None) && SameSockets(s, t)
    ensures Refs(t, None)
  {
  }

  /** A server without an accept, which only a caller in the middle of a step sees. */
  ghost predicate Opens(s: State, t: State, port: int) {
    t == s.(servers := s.servers[s.nextServer := Server(port, None)], nextServer := s.nextServer + 1)
  }

  lemma OpenKeeps(s: State, t: State, port: int)
    requires Core(s, None) && Opens(s, t, port)
    ensures Core(t, None)
  {
    hide Books, LogInv, OpsInv, Refs, Readers, Sockets, DataInv, SilentInv, Servers, Fresh, AcceptInv;
    SameLedger(s, t);
    SameObjects(s, t);
    SameStreams(s, t);
    OpenAccepts(s, t, port);
  }

  lemma OpenAccepts(s: State, t: State, port: int)
    requires Accepts(s) && Opens(s, t, port)
    ensures Accepts(t)
  {
    assert forall v: ServerId :: Waiting(t, v) == Waiting(s, v);
  }

  /** A server without an accept starts one. */
  ghost predicate Arms(s: State, t: State, v: ServerId) {
    && v in s.servers && s.servers[v].accept.None?
    && t == s.(servers := s.servers[v := s.servers[v].(accept := Some(s.nextOp))],
               ops := s.ops[s.nextOp := Pending(Accept(v, s.servers[v].port), InKernel)], nextOp := s.nextOp + 1)
  }

  lemma ArmKeeps(s: State, t: State, v: ServerId)
    requires Core(s, None) && Arms(s, t, v)
    ensures Core(t, None)
  {
    hide LogInv, OpsInv, Refs, Readers, Sockets, DataInv, SilentInv, Servers, Fresh, AcceptInv;
    ArmLedger(s, t, v);
    SameObjects(s, t);
    SameStreams(s, t);
    ArmAccepts(s, t, v);
  }

  lemma ArmLedger(s: State, t: State, v: ServerId)
    requires Ledger(s) && Arms(s, t, v)
    ensures Ledger(t)
  {
    IssueBooks(s, t, t.ops[s.nextOp]);
  }

  lemma ArmAccepts(s: State, t: State, v: ServerId)
    requires Accepts(s) && Books(s) && Arms(s, t, v)
    ensures Accepts(t)
  {
    hide Waiting;
    ArmWaiting(s, t, v);
  }

  lemma ArmWaiting(s: State, t: State, v: ServerId)
    requires Accepts(s) && Books(s) && Arms(s, t, v)
    ensures forall w: ServerId :: Waiting(t, w) == Waiting(s, w)
  {
    hide AcceptInv;
  }

  /** The handler that ends the accept `id`; its server, if still there, waits for nothing. */
  ghost predicate AcceptEnds(s: State, t: State, id: OpId, events: seq<Event>) {
    && id in s.ops && s.ops[id].phase.Ready? && s.ops[id].op.Accept?
    && s == t.(servers := s.servers, ops := s.ops, log := s.log, queue := s.queue)
    && t.ops == s.ops - {id}
    && t.log == s.log + [Result(s, id, events)]
    && var v := s.ops[id].op.server;
       t.servers == if v in s.servers then s.servers[v := s.servers[v].(accept := None)] else s.servers
  }

  lemma AcceptEndKeeps(s: State, t: State, id: OpId, events: seq<Event>)
    requires Core(s, None) && AcceptEnds(s, t, id, events) && Answered(Result(s, id, events))
    ensures Core(t, None)
    ensures forall i :: i in t.ops && Arrived(t.ops[i]) && Arrived(s.ops[id]) ==> t.ops[i].phase.n != s.ops[id].phase.n
  {
    hide Books, LogInv, OpsInv, Refs, Readers, Sockets, DataInv, SilentInv, Servers, AcceptInv;
    AcceptEndLedger(s, t, id, events);
    SameObjects(s, t);
    AcceptEndStreams(s, t, id, events);
    AcceptEndAccepts(s, t, id, events);
  }

  lemma AcceptEndLedger(s: State, t: State, id: OpId, events: seq<Event>)
    requires Ledger(s) && AcceptEnds(s, t, id, events) && Answered(Result(s, id, events))
    ensures Ledger(t)
  {
    RetireBooks(s, t, id, events);
  }

  lemma AcceptEndStreams(s: State, t: State, id: OpId, events: seq<Event>)
    requires Streams(s) && Readers(s) && AcceptEnds(s, t, id, events)
    ensures Streams(t)
  {
    forall d | d in t.peers ensures StreamInv(t, d) {
      TakenAppend(s.log, Result(s, id, events), d);
      assert StreamInv(s, d) && Buffered(t, d) == Buffered(s, d);
    }
    forall d | d in t.conns && d in t.peers ensures BufferInv(t, d) {
      assert BufferInv(s, d);
    }
  }

  lemma AcceptEndAccepts(s: State, t: State, id: OpId, events: seq<Event>)
    requires Accepts(s) && AcceptEnds(s, t, id, events)
    ensures Accepts(t)
  {
    forall v: ServerId ensures Accepted(t.accepts, v) == Announced(t.log, v) + Waiting(t, v) {
      AnnouncedAppend(s.log, Result(s, id, events), v);
      if v == s.ops[id].op.server {
        assert Waiting(t, v) == [];
      } else {
        assert Waiting(t, v) == Waiting(s, v);
      }
    }
  }

  /** A server is deleted; the kernel aborts its accept. */
  ghost predicate Deletes(s: State, t: State, v: ServerId) {
    && v in s.servers && s == t.(servers := s.servers, ops := s.ops) && t.servers == s.servers - {v}
    && t.ops.Keys == s.ops.Keys
    && (forall id :: id in s.ops ==> t.ops[id].op == s.ops[id].op && DeleteEffect(s.ops[id], t.ops[id].phase, v))
    && (forall id :: id in s.ops && s.ops[id].op.Accept? && s.ops[id].op.server == v ==>
          s.ops[id].phase.InKernel? || Aborted(s.ops[id].phase))
  }

  ghost predicate DeleteEffect(o: Pending, phase: Phase, v: ServerId) {
    if o.phase.InKernel? && o.op.Accept? && o.op.server == v then phase == Ready(Some(ABORTED), 0) else phase == o.phase
  }

  lemma DeleteKeeps(s: State, t: State, v: ServerId)
    requires Core(s, None) && Deletes(s, t, v)
    ensures Core(t, None)
  {
    hide Books, LogInv, OpsInv, Refs, Readers, Sockets, DataInv, SilentInv, Servers, Fresh, AcceptInv;
    DeleteLedger(s, t, v);
    SameObjects(s, t);
    SameStreams(s, t);
    DeleteAccepts(s, t, v);
  }

  lemma DeleteLedger(s: State, t: State, v: ServerId)
    requires Ledger(s) && Deletes(s, t, v)
    ensures Ledger(t)
  {
  }

  lemma DeleteAccepts(s: State, t: State, v: ServerId)
    requires Accepts(s) && Deletes(s, t, v)
    ensures Accepts(t)
  {
    assert forall w: ServerId :: Waiting(t, w) == Waiting(s, w);
  }

  // ---------------------------------------------------------------- the operating system

  /** More of the peer's stream arrives. */
  ghost predicate Extends(s: State, t: State, c: ConnId, data: seq<byte>) {
    c in s.peers && t == s.(peers := s.peers[c := s.peers[c].(stream := s.peers[c].stream + data)])
  }

  lemma ExtendKeeps(s: State, t: State, c: ConnId, data: seq<byte>)
    requires Core(s, None) && Extends(s, t, c, data)
    ensures Core(t, None)
  {
    hide Books, LogInv, OpsInv, Refs, Readers, Sockets, DataInv, SilentInv, Servers, Fresh, AcceptInv;
    SameLedger(s, t);
    ExtendObjects(s, t, c, data);
    ExtendStreams(s, t, c, data);
    ExtendAccepts(s, t, c, data);
  }

  lemma ExtendObjects(s: State, t: State, c: ConnId, data: seq<byte>)
    requires Objects(s, None) && Extends(s, t, c, data)
    ensures Objects(t, None)
  {
  }

  lemma ExtendStreams(s: State, t: State, c: ConnId, data: seq<byte>)
    requires Streams(s) && Extends(s, t, c, data)
    ensures Streams(t)
  {
    forall d | d in t.peers ensures StreamInv(t, d) {
      ExtendedPeer(s, t, d);
    }
    forall d | d in t.conns && d in t.peers ensures BufferInv(t, d) {
      ExtendedPeer(s, t, d);
    }
  }

  lemma ExtendedPeer(s: State, t: State, d: ConnId)
    requires d in s.peers && d in t.peers && StreamInv(s, d) && (d in s.conns ==> BufferInv(s, d))
    requires t == s.(peers := t.peers) && s.peers[d].stream <= t.peers[d].stream
    requires t.peers[d] == s.peers[d].(stream := t.peers[d].stream)
    ensures StreamInv(t, d) && (d in t.conns ==> BufferInv(t, d))
  {
    assert Buffered(t, d) == Buffered(s, d);
  }

  lemma ExtendAccepts(s: State, t: State, c: ConnId, data: seq<byte>)
    requires Accepts(s) && Extends(s, t, c, data)
    ensures Accepts(t)
  {
    assert forall v: ServerId :: Waiting(t, v) == Waiting(s, v);
  }

  /** Operation `id` becomes `o`, still what was asked for. */
  ghost predicate Advances(s: State, t: State, id: OpId, o: Pending) {
    && id in s.ops && !s.ops[id].op.Accept? && Request(o.op) == Request(s.ops[id].op)
    && t.ops == s.ops[id := o] && t.log == s.log && t.nextOp == s.nextOp
    && OpInv(o.op, o.phase)
  }

  lemma AdvanceLedger(s: State, t: State, id: OpId, o: Pending)
    requires Ledger(s) && Advances(s, t, id, o)
    ensures Ledger(t)
  {
  }

  ghost predicate SameOwners(s: State, t: State) {
    && t.conns.Keys == s.conns.Keys && t.peers.Keys == s.peers.Keys && t.nextConn == s.nextConn
    && (forall c :: c in s.conns ==> t.conns[c] == s.conns[c].(readBuf := t.conns[c].readBuf))
    && (forall c :: c in s.peers ==> t.peers[c].closedAt == s.peers[c].closedAt)
  }

  lemma SameRequest(a: Op, b: Op)
    requires Request(a) == Request(b)
    ensures Holds(a) == Holds(b) && IsRead(a) == IsRead(b) && a.Accept? == b.Accept? && a.Connect? == b.Connect?
    ensures Holds(a) || a.Connect? ==> a.c == b.c
  {
  }

  lemma AdvanceRefs(s: State, t: State, id: OpId, o: Pending)
    requires Refs(s, None) && Advances(s, t, id, o) && SameOwners(s, t)
    ensures Refs(t, None)
  {
    hide OpInv, Request, Holds;
    SameRequest(s.ops[id].op, o.op);
  }

  lemma AdvanceReaders(s: State, t: State, id: OpId, o: Pending)
    requires Readers(s) && Advances(s, t, id, o) && SameOwners(s, t)
    ensures Readers(t)
  {
    hide OpInv, Request;
    SameRequest(s.ops[id].op, o.op);
  }

  lemma AdvanceSockets(s: State, t: State, id: OpId, o: Pending)
    requires Sockets(s) && Advances(s, t, id, o) && SameOwners(s, t)
    requires o.phase.InKernel? && (o.op.Connect? || Holds(o.op)) ==> o.op.c in s.conns && s.conns[o.op.c].open
    ensures Sockets(t)
  {
    hide OpInv;
  }

  lemma AdvanceAccepts(s: State, t: State, id: OpId, o: Pending)
    requires Accepts(s) && Advances(s, t, id, o) && SameOwners(s, t)
    requires t.servers == s.servers && t.nextServer == s.nextServer && t.accepts == s.accepts
    ensures Accepts(t)
  {
    hide Waiting, Request, OpInv;
    SameRequest(s.ops[id].op, o.op);
    AdvanceWaiting(s, t, id, o);
  }

  lemma AdvanceWaiting(s: State, t: State, id: OpId, o: Pending)
    requires Accepts(s) && Advances(s, t, id, o) && SameOwners(s, t)
    requires t.servers == s.servers && t.nextServer == s.nextServer && t.accepts == s.accepts
    ensures forall v: ServerId :: Waiting(t, v) == Waiting(s, v)
  {
    hide AcceptInv, Request, OpInv;
    SameRequest(s.ops[id].op, o.op);
  }

  /** Nothing but the phase or the progress of `id` changed, and what it has in the buffer did not. */
  lemma AdvanceKeeps(s: State, t: State, id: OpId, o: Pending)
    requires Core(s, None) && Advances(s, t, id, o) && t == s.(ops := t.ops)
    requires IsRead(o.op) ==> BufferedBy(o) == BufferedBy(s.ops[id])
    requires o.phase.InKernel? && (o.op.Connect? || Holds(o.op)) ==> o.op.c in s.conns && s.conns[o.op.c].open
    ensures Core(t, None)
  {
    hide Books, LogInv, OpsInv, Refs, Readers, Sockets, DataInv, SilentInv, Servers, Fresh, AcceptInv;
    AdvanceLedger(s, t, id, o);
    AdvanceRefs(s, t, id, o);
    AdvanceReaders(s, t, id, o);
    AdvanceSockets(s, t, id, o);
    AdvanceStreams(s, t, id, o);
    AdvanceAccepts(s, t, id, o);
  }

  lemma AdvanceStreams(s: State, t: State, id: OpId, o: Pending)
    requires Streams(s) && Readers(s) && Advances(s, t, id, o) && t == s.(ops := t.ops)
    requires IsRead(o.op) ==> BufferedBy(o) == BufferedBy(s.ops[id])
    ensures Streams(t)
  {
    forall d | d in t.peers ensures StreamInv(t, d) {
      assert StreamInv(s, d) && Buffered(t, d) == Buffered(s, d);
    }
    forall d | d in t.conns && d in t.peers ensures BufferInv(t, d) {
      assert BufferInv(s, d) && Buffered(t, d) == Buffered(s, d);
    }
  }

  /** The kernel has put `n` more bytes of the peer's stream into the buffer. */
  ghost predicate Fills(s: State, t: State, id: OpId, ec: Option<Error>, n: nat) {
    && id in s.ops && s.ops[id].phase.InKernel? && IsRead(s.ops[id].op)
    && var op := s.ops[id].op;
       && op.c in s.conns && op.c in s.peers
       && Offset(op) + n <= |s.conns[op.c].readBuf| && s.peers[op.c].consumed + n <= |s.peers[op.c].stream|
       && t == s.(ops := s.ops[id := Pending(op, Ready(ec, n))],
                  conns := s.conns[op.c := FilledConn(s.conns[op.c], s.peers[op.c], Offset(op), n)],
                  peers := s.peers[op.c := s.peers[op.c].(consumed := s.peers[op.c].consumed + n)])
  }

  function FilledConn(k: Conn, p: Peer, at: nat, n: nat): Conn
    requires at + n <= |k.readBuf| && p.consumed + n <= |p.stream|
  {
    k.(readBuf := Overwrite(k.readBuf, at, p.stream[p.consumed..p.consumed + n]))
  }

  lemma FillKeeps(s: State, t: State, id: OpId, ec: Option<Error>, n: nat)
    requires Core(s, None) && Fills(s, t, id, ec, n) && OpInv(s.ops[id].op, Ready(ec, n))
    ensures Core(t, None)
  {
    hide Books, LogInv, OpsInv, Refs, Readers, Sockets, DataInv, SilentInv, Servers, Fresh, AcceptInv;
    var o := Pending(s.ops[id].op, Ready(ec, n));
    FillAdvances(s, t, id, ec, n);
    AdvanceLedger(s, t, id, o);
    AdvanceRefs(s, t, id, o);
    AdvanceReaders(s, t, id, o);
    AdvanceSockets(s, t, id, o);
    FillStreams(s, t, id, ec, n);
    AdvanceAccepts(s, t, id, o);
  }

  lemma FillAdvances(s: State, t: State, id: OpId, ec: Option<Error>, n: nat)
    requires Fills(s, t, id, ec, n) && OpInv(s.ops[id].op, Ready(ec, n))
    ensures Advances(s, t, id, Pending(s.ops[id].op, Ready(ec, n))) && SameOwners(s, t)
    ensures t.servers == s.servers && t.nextServer == s.nextServer && t.accepts == s.accepts
  {
  }

  lemma FillStreams(s: State, t: State, id: OpId, ec: Option<Error>, n: nat)
    requires Streams(s) && Readers(s) && Sockets(s) && OpsInv(s)
    requires Fills(s, t, id, ec, n) && OpInv(s.ops[id].op, Ready(ec, n))
    ensures Streams(t)
  {
    var c := s.ops[id].op.c;
    assert StreamInv(s, c) && BufferInv(s, c);
    FilledStream(s, t, id, ec, n);
    forall d | d in t.peers ensures StreamInv(t, d) && (d in t.conns ==> BufferInv(t, d)) {
      if d != c {
        FilledOther(s, t, id, ec, n, d);
      }
    }
  }

  lemma FilledOther(s: State, t: State, id: OpId, ec: Option<Error>, n: nat, d: ConnId)
    requires Readers(s) && Fills(s, t, id, ec, n) && d in t.peers && d != s.ops[id].op.c
    requires StreamInv(s, d) && (d in s.conns ==> BufferInv(s, d))
    ensures StreamInv(t, d) && (d in t.conns ==> BufferInv(t, d))
  {
    assert Buffered(t, d) == Buffered(s, d);
  }

  lemma FilledStream(s: State, t: State, id: OpId, ec: Option<Error>, n: nat)
    requires Fills(s, t, id, ec, n) && OpInv(s.ops[id].op, Ready(ec, n))
    requires var c := s.ops[id].op.c;
      && s.conns[c].reader == Some(id) && s.peers[c].closedAt.None?
      && StreamInv(s, c) && BufferInv(s, c)
    ensures StreamInv(t, s.ops[id].op.c) && BufferInv(t, s.ops[id].op.c)
  {
    hide Overwrite, StreamInv;
    var c := s.ops[id].op.c;
    FilledBuffered(s, t, id, ec, n);
    FilledBytes(s.conns[c].readBuf, s.peers[c], Buffered(s, c), n);
    assert StreamInv(t, c) by {
      FilledTaken(s, t, id, ec, n);
    }
  }

  lemma FilledTaken(s: State, t: State, id: OpId, ec: Option<Error>, n: nat)
    requires Fills(s, t, id, ec, n) && s.conns[s.ops[id].op.c].reader == Some(id)
    requires StreamInv(s, s.ops[id].op.c) && s.peers[s.ops[id].op.c].closedAt.None?
    ensures StreamInv(t, s.ops[id].op.c)
  {
    FilledBuffered(s, t, id, ec, n);
  }

  lemma FilledBuffered(s: State, t: State, id: OpId, ec: Option<Error>, n: nat)
    requires Fills(s, t, id, ec, n) && s.conns[s.ops[id].op.c].reader == Some(id)
    ensures var c := s.ops[id].op.c;
      Buffered(s, c) == Offset(s.ops[id].op) && Buffered(t, c) == Buffered(s, c) + n
  {
  }

  lemma FilledBytes(buf: seq<byte>, p: Peer, r: nat, n: nat)
    requires r + n <= |buf| && r <= p.consumed && p.consumed + n <= |p.stream|
    requires buf[..r] == p.stream[p.consumed - r..p.consumed]
    ensures Overwrite(buf, r, p.stream[p.consumed..p.consumed + n])[..r + n] == p.stream[p.consumed - r..p.consumed + n]
  {
    ChunkBehind(buf, p.stream, r, p.consumed, n);
  }

  lemma ChunkBehind(buf: seq<byte>, stream: seq<byte>, r: nat, at: nat, n: nat)
    requires r + n <= |buf| && r <= at && at + n <= |stream| && buf[..r] == stream[at - r..at]
    ensures Overwrite(buf, r, stream[at..at + n])[..r + n] == stream[at - r..at + n]
  {
    assert stream[at - r..at + n] == stream[at - r..at] + stream[at..at + n];
  }

  /** The kernel has accepted connection `n`, which nobody knows yet. */
  ghost predicate Lands(s: State, t: State, id: OpId, n: ConnId) {
    && id in s.ops && s.ops[id].phase.InKernel? && s.ops[id].op.Accept? && s.ops[id].op.server in s.servers
    && n in s.peers && n !in s.conns && s.peers[n].closedAt.None? && n < s.nextConn
    && (forall i :: 0 <= i < |s.accepts| ==> s.accepts[i].1 < n)
    && (forall i :: i in s.ops && Arrived(s.ops[i]) ==> s.ops[i].phase.n != n)
    && t == s.(ops := s.ops[id := Pending(s.ops[id].op, Ready(None, n))],
               accepts := s.accepts + [(s.ops[id].op.server, n)])
  }

  lemma LandKeeps(s: State, t: State, id: OpId, n: ConnId)
    requires Core(s, None) && Lands(s, t, id, n)
    ensures Core(t, None)
  {
    hide Books, LogInv, OpsInv, Refs, Readers, Sockets, DataInv, SilentInv, Servers, Fresh, AcceptInv;
    LandLedger(s, t, id, n);
    SameObjects(s, t);
    SameStreams(s, t);
    LandAccepts(s, t, id, n);
  }

  lemma LandLedger(s: State, t: State, id: OpId, n: ConnId)
    requires Ledger(s) && Lands(s, t, id, n)
    ensures Ledger(t)
  {
  }

  lemma LandAccepts(s: State, t: State, id: OpId, n: ConnId)
    requires Accepts(s) && Lands(s, t, id, n)
    ensures Accepts(t)
  {
    forall v: ServerId ensures Accepted(t.accepts, v) == Announced(t.log, v) + Waiting(t, v) {
      assert t.accepts[..|s.accepts|] == s.accepts;
      if v != s.ops[id].op.server {
        assert Waiting(t, v) == Waiting(s, v);
      }
    }
  }

  /** The kernel gives an accept an error. */
  ghost predicate Refuses(s: State, t: State, id: OpId, e: Error, n: nat) {
    && id in s.ops && s.ops[id].phase.InKernel? && s.ops[id].op.Accept?
    && t == s.(ops := s.ops[id := Pending(s.ops[id].op, Ready(Some(e), n))])
  }

  lemma RefuseKeeps(s: State, t: State, id: OpId, e: Error, n: nat)
    requires Core(s, None) && Refuses(s, t, id, e, n) && s.ops[id].op.server in s.servers
    ensures Core(t, None)
  {
    hide Books, LogInv, OpsInv, Refs, Readers, Sockets, DataInv, SilentInv, Servers, Fresh, AcceptInv;
    RefuseLedger(s, t, id, e, n);
    SameObjects(s, t);
    SameStreams(s, t);
    RefuseAccepts(s, t, id, e, n);
  }

  lemma RefuseLedger(s: State, t: State, id: OpId, e: Error, n: nat)
    requires Ledger(s) && Refuses(s, t, id, e, n)
    ensures Ledger(t)
  {
  }

  lemma RefuseAccepts(s: State, t: State, id: OpId, e: Error, n: nat)
    requires Accepts(s) && Refuses(s, t, id, e, n) && s.ops[id].op.server in s.servers
    ensures Accepts(t)
  {
    assert forall v: ServerId :: Waiting(t, v) == Waiting(s, v);
  }
}
