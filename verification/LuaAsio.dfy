/** The C interface of the library and its completion handlers, with the state they update in place. A
    handler says what it achieves on any reachable state, and that it is the step of the same name on
    snapshots, over which the theorems about runs are stated. */
module LuaAsio {
  import opened Common
  import opened EventLoop
  import opened EventInvariants
  import opened EventSteps
  import opened EventHandlers
  import opened EventRuns
  import opened EventEffects

  class Process {
    var queue: seq<Event>
    var conns: map<ConnId, Conn>
    var servers: map<ServerId, Server>
    var ops: map<OpId, Pending>
    var nextOp: OpId
    var nextConn: ConnId
    var nextServer: ServerId
    var peers: map<ConnId, Peer>
    ghost var accepts: seq<(ServerId, ConnId)>
    ghost var log: seq<Completion>
    ghost var delivered: seq<Event>

    ghost function View(): State
      reads this
    {
      State(queue, conns, servers, ops, nextOp, nextConn, nextServer, peers, accepts, log, delivered)
    }

    constructor ()
      ensures View() == Initial() && Inv(View())
    {
      queue, conns, servers, ops, peers := [], map[], map[], map[], map[];
      nextOp, nextConn, nextServer := 0, 0, 0;
      accepts, log, delivered := [], [], [];
      new;
      InitialInv();
    }

    // -------------------------------------------------------------- pieces

    method PushEvent(kind: int, destId: int, source: Source, data: seq<byte>)
      modifies this`queue
      ensures queue == Newest(old(queue) + [Event(kind, destId, source, data)], MAX_EVT_MSG)
      ensures queue == PushAll(old(queue), [Event(kind, destId, source, data)])
    {
      queue := queue + [Event(kind, destId, source, data)];
      while |queue| > MAX_EVT_MSG
        invariant Trim(queue) == Trim(old(queue) + [Event(kind, destId, source, data)])
        decreases |queue|
      {
        queue := queue[1..];
      }
    }

    method Start(op: Op, phase: Phase)
      modifies this`ops, this`nextOp
      ensures View() == Issue(old(View()), op, phase)
    {
      ops := ops[nextOp := Pending(op, phase)];
      nextOp := nextOp + 1;
    }

    /** Afterwards no operation on `c` is left with the kernel, and nothing but `c` and the operations on it
        was touched. */
    method CloseConnection(c: ConnId)
      requires c in conns && c in peers
      modifies this`conns, this`ops, this`peers
      ensures c in conns && conns == old(conns)[c := old(conns[c]).(open := false)]
      ensures Around(old(View()), View(), c)
      ensures forall z :: Core(old(View()), z) ==> Core(View(), z) && Quiesced(View(), c) && peers[c].closedAt.Some?
      ensures View() == CloseSocket(old(View()), c)
    {
      hide Core;
      CloseAround(View(), c);
      forall z | Core(View(), z)
        ensures var t := CloseSocket(View(), c); Core(t, z) && Quiesced(t, c) && t.peers[c].closedAt.Some?
      {
        ClosedForGood(View(), c, z);
      }
      if conns[c].open {
        conns := conns[c := conns[c].(open := false)];
        ops := Abort(ops, c);
        peers := peers[c := peers[c].(closedAt := Some(nextOp))];
      }
    }

    method ReleaseConnection(c: ConnId)
      requires c in conns && c in peers
      modifies this`conns, this`ops, this`peers
      ensures View() == Release(old(View()), c)
    {
      hide Core;
      if !conns[c].handle && conns[c].owners == {} {
        CloseConnection(c);
        conns := conns - {c};
      }
    }

    /** The handler of `id`, having pushed `events` behind `before`, is destroyed. */
    method EndOperation(id: OpId, ghost events: seq<Event>, ghost before: seq<Event>)
      requires CanRun(View(), id) && queue == PushAll(before, events)
      modifies this`conns, this`ops, this`peers, this`log
      ensures View() == Retire(old(View()).(queue := before), id, events)
      ensures old(Holds(ops[id].op)) ==> old(ops[id].op.c) in conns && old(ops[id].op.c) in peers
    {
      var Pending(op, Ready(ec, n)) := ops[id];
      ops := ops - {id};
      log := log + [Completion(id, op, ec, n, events)];
      if Holds(op) {
        var k, p := conns[op.c], peers[op.c];
        conns := conns[op.c := k.(owners := k.owners - {id}, reader := if IsRead(op) then None else k.reader)];
        peers := peers[op.c := p.(lost := p.lost || (op.Read? && ec.Some? && op.got + n > 0))];
      }
    }

    // -------------------------------------------------------------- handlers

    method OnRead(id: OpId)
      requires Core(View(), None) && queue == [] && CanRun(View(), id) && ops[id].op.Read?
      modifies this
      ensures Handled(old(View()), View(), id) && ReadOutcome(old(View()), View(), id)
      ensures View() == old(HandleRead(View(), id))
    {
      hide Core, Handled, ReadOutcome, Release, CloseSocket, Fail;
      ReadHandled(View(), id);
      var Pending(op, Ready(ec, n)) := ops[id];
      if ec.None? && 0 < n && op.got + n < op.size {
        var more := op.(got := op.got + n);
        ops := ops[id := Pending(more, IssuePhase(conns[op.c].open, Room(more)))];
      } else if ec.None? {
        ghost var events := [Continue(op.destId, Connection(op.c), conns[op.c].readBuf)];
        PushEvent(EVT_CONTINUE, op.destId, Connection(op.c), conns[op.c].readBuf);
        EndOperation(id, events, old(queue));
        ReleaseConnection(op.c);
      } else {
        OnFailure(id);
      }
    }

    /** The error branch shared by the read and the write handler. */
    method OnFailure(id: OpId)
      requires Core(View(), None) && queue == [] && CanRun(View(), id)
      requires (ops[id].op.Read? || ops[id].op.Write?) && ops[id].phase.ec.Some?
      modifies this
      ensures Handled(old(View()), View(), id)
      ensures EndsWith(old(View()), View(), id,
                       old([Continue(ops[id].op.destId, Null, ops[id].phase.ec.value.message)]))
      ensures View() == old(Fail(View(), id))
    {
      hide Core, Handled, EndsWith, Release, CloseSocket, Retire, Around, Persists;
      FailureHandled(View(), id);
      EndingClosed(View(), id);
      var Pending(op, Ready(ec, n)) := ops[id];
      CloseConnection(op.c);
      PushEvent(EVT_CONTINUE, op.destId, Null, ec.value.message);
      EndOperation(id, [Continue(op.destId, Null, ec.value.message)], old(queue));
      ReleaseConnection(op.c);
    }

    method OnReadSome(id: OpId)
      requires Core(View(), None) && queue == [] && CanRun(View(), id) && ops[id].op.ReadSome?
      modifies this
      ensures Handled(old(View()), View(), id) && ReadSomeOutcome(old(View()), View(), id)
      ensures View() == old(HandleReadSome(View(), id))
    {
      hide Core, Handled, ReadSomeOutcome, Release, CloseSocket, Retire, PushAll;
      ReadSomeHandled(View(), id);
      var Pending(op, Ready(ec, n)) := ops[id];
      if ec.None? {
        var data := conns[op.c].readBuf[..n];
        conns := conns[op.c := conns[op.c].(readBuf := data)];
        PushEvent(EVT_CONTINUE, op.destId, Connection(op.c), data);
        CutThenRetire(old(View()), id, [Continue(op.destId, Connection(op.c), data)], data);
        EndOperation(id, [Continue(op.destId, Connection(op.c), data)], old(queue));
        ReleaseConnection(op.c);
      } else {
        OnReadSomeFailed(id);
      }
    }

    method OnReadSomeFailed(id: OpId)
      requires Core(View(), None) && queue == [] && CanRun(View(), id)
      requires ops[id].op.ReadSome? && ops[id].phase.ec.Some?
      modifies this
      ensures Handled(old(View()), View(), id) && ReadSomeOutcome(old(View()), View(), id)
      ensures View() == old(HandleReadSome(View(), id))
    {
      hide Core, Handled, ReadSomeOutcome, Release, CloseSocket, Retire, Around, Persists, PushAll;
      ReadSomeHandled(View(), id);
      EndingClosed(View(), id);
      var Pending(op, Ready(ec, n)) := ops[id];
      CloseConnection(op.c);
      ghost var closed, data := View(), conns[op.c].readBuf[..n];
      conns := conns[op.c := conns[op.c].(readBuf := conns[op.c].readBuf[..n])];
      PushEvent(EVT_CONTINUE, op.destId, Null, conns[op.c].readBuf);
      PushEvent(EVT_CONTINUE, op.destId, Null, ec.value.message);
      ghost var events := [Continue(op.destId, Null, data), Continue(op.destId, Null, ec.value.message)];
      PushBoth([], events[0], events[1]);
      CutThenRetire(closed, id, events, data);
      EndOperation(id, events, old(queue));
      ReleaseConnection(op.c);
    }

    static lemma PushBoth(q: seq<Event>, first: Event, second: Event)
      ensures PushAll(PushAll(q, [first]), [second]) == PushAll(q, [first, second])
    {
      assert [first, second][1..] == [second];
    }

    /** Cutting the buffer before or after the operation ends makes no difference. */
    static lemma CutThenRetire(s: State, id: OpId, events: seq<Event>, data: seq<byte>)
      requires CanRun(s, id) && s.ops[id].op.ReadSome? && |data| == s.ops[id].phase.n
      ensures var c := s.ops[id].op.c;
        var cut, t := s.(conns := s.conns[c := s.conns[c].(readBuf := data)]), Retire(s, id, events);
        CanRun(cut, id) && Retire(cut, id, events) == t.(conns := t.conns[c := t.conns[c].(readBuf := data)])
    {
    }

    method OnWrite(id: OpId)
      requires Core(View(), None) && queue == [] && CanRun(View(), id) && ops[id].op.Write?
      modifies this
      ensures Handled(old(View()), View(), id) && WriteOutcome(old(View()), View(), id)
      ensures View() == old(HandleWrite(View(), id))
    {
      hide Core, Handled, WriteOutcome, Release, CloseSocket, Fail;
      WriteHandled(View(), id);
      var Pending(op, Ready(ec, n)) := ops[id];
      if ec.None? && 0 < n && op.put + n < |op.data| {
        var more := op.(put := op.put + n);
        ops := ops[id := Pending(more, IssuePhase(conns[op.c].open, Room(more)))];
      } else if ec.None? {
        PushEvent(EVT_CONTINUE, op.destId, Connection(op.c), []);
        EndOperation(id, [Continue(op.destId, Connection(op.c), [])], old(queue));
        ReleaseConnection(op.c);
      } else {
        OnFailure(id);
      }
    }

    method OnConnect(id: OpId)
      requires Core(View(), None) && queue == [] && CanRun(View(), id) && ops[id].op.Connect?
      modifies this
      ensures Handled(old(View()), View(), id) && ConnectOutcome(old(View()), View(), id)
      ensures View() == old(HandleConnect(View(), id))
    {
      hide Core, Handled, ConnectOutcome;
      ConnectHandled(View(), id);
      var Pending(op, Ready(ec, n)) := ops[id];
      if ec.None? {
        PushEvent(EVT_CONTINUE, op.destId, Connection(op.c), []);
        EndOperation(id, [Continue(op.destId, Connection(op.c), [])], old(queue));
      } else {
        PushEvent(EVT_CONTINUE, op.destId, Null, ec.value.message);
        EndOperation(id, [Continue(op.destId, Null, ec.value.message)], old(queue));
      }
    }

    method OnTimer(id: OpId)
      requires Core(View(), None) && queue == [] && CanRun(View(), id) && ops[id].op.Sleep?
      modifies this
      ensures Handled(old(View()), View(), id) && SleepOutcome(old(View()), View(), id)
      ensures View() == old(HandleSleep(View(), id))
    {
      hide Core, Handled, SleepOutcome;
      SleepHandled(View(), id);
      var Pending(op, Ready(ec, n)) := ops[id];
      var text := if ec.None? then [] else ec.value.message;
      PushEvent(EVT_CONTINUE, op.destId, Null, text);
      EndOperation(id, [Continue(op.destId, Null, text)], old(queue));
    }

    method OnAccept(id: OpId)
      requires Core(View(), None) && queue == [] && CanRun(View(), id) && ops[id].op.Accept?
      modifies this
      ensures Handled(old(View()), View(), id) && AcceptOutcome(old(View()), View(), id)
      ensures View() == old(HandleAccept(View(), id))
    {
      hide Core, Handled, AcceptOutcome, WaitsFor, Retire, HandleAccept, PushAll;
      AcceptHandled(View(), id);
      AcceptPieces(View(), id);
      NothingPushed(queue);
      var Pending(op, Ready(ec, n)) := ops[id];
      var v := op.server;
      if ec.None? {
        conns := conns[n := Conn(true, {}, true, [], None)];
        PushEvent(EVT_ACCEPT, servers[v].port, Handle(n), []);
        EndOperation(id, [Event(EVT_ACCEPT, servers[v].port, Handle(n), [])], old(queue));
      } else {
        EndOperation(id, [], queue);
      }
      if v in servers {
        servers := servers[v := servers[v].(accept := None)];
      }
      if !Aborted(Ready(ec, n)) {
        DoAccept(v);
      }
    }

    static lemma NothingPushed(q: seq<Event>)
      ensures PushAll(q, []) == q
    {
    }

    /** A server that waits for nothing waits for the next connection: for the new operation, and on a
        reachable state for that alone. */
    method DoAccept(v: ServerId)
      requires v in servers && servers[v].accept.None?
      modifies this`servers, this`ops, this`nextOp
      ensures Core(old(View()), None) ==> Core(View(), None) && WaitsFor(View(), v, old(nextOp))
      ensures Arms(old(View()), View(), v)
    {
      hide Core;
      if Core(View(), None) {
        ArmKeeps(View(), Rearm(View(), v), v);
        ArmedOnce(View(), Rearm(View(), v), v);
      }
      servers := servers[v := Server(servers[v].port, Some(nextOp))];
      Start(Accept(v, servers[v].port), InKernel);
    }

    // -------------------------------------------------------------- the interface

    /** A queued event is handed out and no handler runs. With nothing queued the handler of the picked
        operation runs: the operation is answered, and the first event of its answer is handed out, unless
        more is to be transferred; then the operation comes further. */
    method AsioGet(pick: Option<OpId>) returns (event: Option<Event>)
      requires Inv(View()) && Enabled(View(), DoGet(pick))
      modifies this
      ensures Inv(View()) && GetOutcome(old(View()), View(), pick, event)
      ensures old(queue) == [] && pick.Some? ==>
        if Unfinished(old(ops[pick.value])) then CameFurther(old(View()), View(), pick.value, event)
        else AnsweredNow(old(View()), View(), pick.value, event)
      ensures View() == old(Step(View(), DoGet(pick)))
      ensures event.Some? ==> delivered == old(delivered) + [event.value]
      ensures event.None? ==> delivered == old(delivered) && queue == []
      ensures old(queue) != [] ==> event == Some(old(queue[0])) && log == old(log)
    {
      hide Core, RunHandler, GetOutcome, CameFurther, AnsweredNow, Handled, HandlerOutcome, Unfinished, QueueInv;
      StepKeepsInv(View(), DoGet(pick));
      GetDoes(View(), pick);
      ghost var outcome := Get(View(), pick);
      if queue == [] && pick.Some? {
        HandlersCanRun(View(), pick.value);
        GetProgresses(View(), pick.value);
        RunOne(pick.value);
        NothingHandedOut(old(View()), View(), pick.value);
      }
      if queue == [] {
        assert (View(), None) == outcome;
        return None;
      }
      event := Some(queue[0]);
      queue := queue[1..];
      delivered := delivered + [event.value];
      assert (View(), event) == outcome;
    }

    static lemma NothingHandedOut(s: State, t: State, id: OpId)
      requires Handled(s, t, id)
      ensures t.delivered == s.delivered
    {
    }

    /** `run_one` picks a finished operation and runs its handler. */
    method RunOne(id: OpId)
      requires Core(View(), None) && queue == [] && CanRun(View(), id)
      modifies this
      ensures Handled(old(View()), View(), id) && HandlerOutcome(old(View()), View(), id)
      ensures View() == old(RunHandler(View(), id))
    {
      hide Core, Handled, ReadOutcome, ReadSomeOutcome, WriteOutcome, ConnectOutcome, SleepOutcome, AcceptOutcome;
      match ops[id].op
      case Connect(_, _) => OnConnect(id);
      case Read(_, _, _, _) => OnRead(id);
      case ReadSome(_, _) => OnReadSome(id);
      case Write(_, _, _, _) => OnWrite(id);
      case Sleep(_) => OnTimer(id);
      case Accept(_, _) => OnAccept(id);
    }

    method AsioNewConnect(destId: int) returns (c: ConnId)
      requires Inv(View())
      modifies this
      ensures Inv(View()) && Held(View(), c) && Starts(old(View()), View(), Connect(c, destId))
      ensures View() == old(Step(View(), DoConnect(destId)))
    {
      hide Core, Starts, ShutsSocket, GivesUpHandle, RemovesServer;
      StepKeepsInv(View(), DoConnect(destId));
      CallStarts(View(), DoConnect(destId));
      c := nextConn;
      conns := conns[c := Conn(true, {}, true, [], None)];
      peers := peers[c := Peer([], 0, false, None)];
      nextConn := c + 1;
      Start(Connect(c, destId), InKernel);
    }

    /** `opens` says whether the address can be read and the acceptor can be opened, bound and set to
        listen on it; if not, there is no server and nothing has happened. */
    method AsioNewServer(opens: bool, port: int) returns (server: Option<ServerId>)
      requires Inv(View())
      modifies this
      ensures Inv(View()) && (server.Some? <==> opens)
      ensures server.Some? ==>
        Starts(old(View()), View(), Accept(server.value, port)) && WaitsFor(View(), server.value, old(nextOp))
      ensures View() == if opens then old(Step(View(), DoServe(port))) else old(View())
    {
      hide Core, WaitsFor, Starts;
      if !opens {
        return None;
      }
      StepKeepsInv(View(), DoServe(port));
      CallStarts(View(), DoServe(port));
      var v := nextServer;
      OpenKeeps(View(), View().(servers := servers[v := Server(port, None)], nextServer := v + 1), port);
      NoSuchServer(View());
      servers := servers[v := Server(port, None)];
      nextServer := v + 1;
      DoAccept(v);
      assert View() == Step(old(View()), DoServe(port)) && Asked(old(View()), DoServe(port)) == Some(Accept(v, port));
      server := Some(v);
    }

    method AsioDeleteServer(v: ServerId)
      requires Inv(View()) && Enabled(View(), DoDeleteServer(v))
      modifies this
      ensures Inv(View()) && RemovesServer(old(View()), View(), v)
      ensures View() == old(Step(View(), DoDeleteServer(v)))
    {
      hide Core, Starts, ShutsSocket, GivesUpHandle, RemovesServer;
      StepKeepsInv(View(), DoDeleteServer(v));
      DeleteRemovesServer(View(), v);
      servers, ops := servers - {v}, AbortAccepts(ops, v);
    }

    method AsioSleep(destId: int)
      requires Inv(View())
      modifies this
      ensures Inv(View()) && Starts(old(View()), View(), Sleep(destId))
      ensures View() == old(Step(View(), DoSleep(destId)))
    {
      hide Core, Starts, ShutsSocket, GivesUpHandle, RemovesServer;
      StepKeepsInv(View(), DoSleep(destId));
      CallStarts(View(), DoSleep(destId));
      Start(Sleep(destId), InKernel);
    }

    method AsioConnRead(c: ConnId, size: nat, destId: int)
      requires Inv(View()) && Enabled(View(), DoRead(c, size, destId))
      modifies this
      ensures Inv(View()) && Starts(old(View()), View(), Read(c, size, 0, destId))
      ensures View() == old(Step(View(), DoRead(c, size, destId)))
    {
      hide Core, Starts, ShutsSocket, GivesUpHandle, RemovesServer;
      StepKeepsInv(View(), DoRead(c, size, destId));
      CallStarts(View(), DoRead(c, size, destId));
      var k := conns[c];
      conns := conns[c := k.(readBuf := Resize(k.readBuf, size), owners := k.owners + {nextOp}, reader := Some(nextOp))];
      Start(Read(c, size, 0, destId), IssuePhase(k.open, size));
    }

    method AsioConnReadSome(c: ConnId, destId: int)
      requires Inv(View()) && Enabled(View(), DoReadSome(c, destId))
      modifies this
      ensures Inv(View()) && Starts(old(View()), View(), ReadSome(c, destId))
      ensures View() == old(Step(View(), DoReadSome(c, destId)))
    {
      hide Core, Starts, ShutsSocket, GivesUpHandle, RemovesServer;
      StepKeepsInv(View(), DoReadSome(c, destId));
      CallStarts(View(), DoReadSome(c, destId));
      var k := conns[c];
      conns := conns[c := k.(readBuf := Resize(k.readBuf, MAX_BUFF_SIZE), owners := k.owners + {nextOp},
                             reader := Some(nextOp))];
      Start(ReadSome(c, destId), IssuePhase(k.open, MAX_BUFF_SIZE));
    }

    method AsioConnWrite(c: ConnId, data: seq<byte>, destId: int)
      requires Inv(View()) && Enabled(View(), DoWrite(c, data, destId))
      modifies this
      ensures Inv(View()) && Starts(old(View()), View(), Write(c, data, 0, destId))
      ensures View() == old(Step(View(), DoWrite(c, data, destId)))
    {
      hide Core, Starts, ShutsSocket, GivesUpHandle, RemovesServer;
      StepKeepsInv(View(), DoWrite(c, data, destId));
      CallStarts(View(), DoWrite(c, data, destId));
      conns := conns[c := conns[c].(owners := conns[c].owners + {nextOp})];
      Start(Write(c, data, 0, destId), IssuePhase(conns[c].open, |data|));
    }

    method AsioConnClose(c: ConnId)
      requires Inv(View()) && Enabled(View(), DoClose(c))
      modifies this
      ensures Inv(View()) && Held(View(), c) && ShutsSocket(old(View()), View(), c)
      ensures View() == old(Step(View(), DoClose(c)))
    {
      hide Core, Starts, ShutsSocket, GivesUpHandle, RemovesServer;
      StepKeepsInv(View(), DoClose(c));
      CloseShuts(View(), c);
      HasPeer(View(), c, None);
      CloseConnection(c);
    }

    method AsioDeleteConnection(c: ConnId)
      requires Inv(View()) && Enabled(View(), DoDelete(c))
      modifies this
      ensures Inv(View()) && GivesUpHandle(old(View()), View(), c)
      ensures View() == old(Step(View(), DoDelete(c)))
      ensures c in conns <==> old(conns[c].owners) != {}
    {
      hide Core, Starts, ShutsSocket, GivesUpHandle, RemovesServer;
      StepKeepsInv(View(), DoDelete(c));
      DeleteGivesUp(View(), c);
      HasPeer(View(), c, None);
      conns := conns[c := conns[c].(handle := false)];
      ReleaseConnection(c);
    }
  }
}
