/** What each action does to the whole state: the operation it starts, the object it touches, and that
    everything else stays; and how a finished operation is answered. */
module EventEffects {
  import opened Common
  import opened EventLoop
  import opened EventInvariants
  import opened EventSteps
  import opened EventHandlers
  import opened EventRuns

  // ---------------------------------------------------------------- starting an operation

  /** The operation a call of the caller asks for, with the caller's arguments. */
  function Asked(s: State, a: Action): Option<Op> {
    match a
    case DoConnect(d) => Some(Connect(s.nextConn, d))
    case DoServe(port) => Some(Accept(s.nextServer, port))
    case DoSleep(d) => Some(Sleep(d))
    case DoRead(c, size, d) => Some(Read(c, size, 0, d))
    case DoReadSome(c, d) => Some(ReadSome(c, d))
    case DoWrite(c, data, d) => Some(Write(c, data, 0, d))
    case _ => None
  }

  /** Nothing but connections, servers and operations was touched. */
  ghost predicate SameHistory(s: State, t: State) {
    t.queue == s.queue && t.log == s.log && t.delivered == s.delivered && t.accepts == s.accepts
  }

  /** The outstanding operations are those of before and the new `op`. */
  ghost predicate OneMore(s: State, t: State, op: Op) {
    && t.nextOp == s.nextOp + 1 && t.ops.Keys == s.ops.Keys + {s.nextOp} && t.ops[s.nextOp].op == op
    && forall j :: j in s.ops ==> t.ops[j] == s.ops[j]
  }

  /** The outstanding operation `id` refers to `c` and keeps it alive; but for that, and perhaps its buffer,
      the connection is what it was. */
  ghost predicate TakesUp(s: State, t: State, c: ConnId, id: OpId) {
    && c in s.conns && c in t.conns && t.conns - {c} == s.conns - {c}
    && t.conns[c].handle == s.conns[c].handle && t.conns[c].open == s.conns[c].open
    && t.conns[c].owners == s.conns[c].owners + {id}
  }

  /** A call has started `op`, with all its arguments, and done nothing else. A transfer begins as the
      socket and its length demand; anything else is with the kernel. */
  ghost predicate Starts(s: State, t: State, op: Op) {
    && SameHistory(s, t) && OneMore(s, t, op)
    && match op
       case Connect(c, _) =>
         && t.ops[s.nextOp].phase.InKernel? && c == s.nextConn && c !in s.conns && t.nextConn == c + 1
         && t.conns == s.conns[c := NEW_CONN] && t.peers == s.peers[c := Peer([], 0, false, None)]
         && t.servers == s.servers && t.nextServer == s.nextServer
       case Sleep(_) =>
         && t.ops[s.nextOp].phase.InKernel? && t.conns == s.conns && t.peers == s.peers && t.nextConn == s.nextConn
         && t.servers == s.servers && t.nextServer == s.nextServer
       case Accept(v, port) =>
         && t.ops[s.nextOp].phase.InKernel? && v == s.nextServer && v !in s.servers && t.nextServer == v + 1
         && t.servers == s.servers[v := Server(port, Some(s.nextOp))]
         && t.conns == s.conns && t.peers == s.peers && t.nextConn == s.nextConn
       case _ =>
         && TakesUp(s, t, op.c, s.nextOp) && Begun(s.conns[op.c].open, op, t.ops[s.nextOp].phase)
         && (if IsRead(op) then |t.conns[op.c].readBuf| == BufferSize(op)
             else t.conns[op.c].readBuf == s.conns[op.c].readBuf)
         && t.peers == s.peers && t.nextConn == s.nextConn && t.servers == s.servers && t.nextServer == s.nextServer
  }

  lemma ConnectStarts(s: State, d: int)
    requires Core(s, None)
    ensures Starts(s, NewConnect(s, d), Connect(s.nextConn, d))
  {
    hide Core;
    NextNotIssued(s);
    Unnumbered(s);
  }

  lemma ServeStarts(s: State, port: int)
    requires Inv(s)
    ensures Starts(s, NewServer(s, port), Accept(s.nextServer, port))
  {
    hide Core;
    NextNotIssued(s);
    NoSuchServer(s);
  }

  lemma SleepStarts(s: State, d: int)
    requires Core(s, None)
    ensures Starts(s, StartSleep(s, d), Sleep(d))
  {
    hide Core;
    NextNotIssued(s);
  }

  lemma ReadStarts(s: State, c: ConnId, size: nat, d: int)
    requires Core(s, None) && c in s.conns
    ensures Starts(s, StartRead(s, c, size, d), Read(c, size, 0, d))
  {
    hide Core;
    NextNotIssued(s);
  }

  lemma ReadSomeStarts(s: State, c: ConnId, d: int)
    requires Core(s, None) && c in s.conns
    ensures Starts(s, StartReadSome(s, c, d), ReadSome(c, d))
  {
    hide Core;
    NextNotIssued(s);
  }

  lemma WriteStarts(s: State, c: ConnId, data: seq<byte>, d: int)
    requires Core(s, None) && c in s.conns
    ensures Starts(s, StartWrite(s, c, data, d), Write(c, data, 0, d))
  {
    hide Core;
    NextNotIssued(s);
  }

  lemma CallStarts(s: State, a: Action)
    requires Inv(s) && Enabled(s, a) && Asked(s, a).Some?
    ensures Starts(s, Step(s, a), Asked(s, a).value)
  {
    hide Core, Starts, NewConnect, NewServer, StartSleep, StartRead, StartReadSome, StartWrite;
    match a
    case DoConnect(d) => ConnectStarts(s, d);
    case DoServe(port) => ServeStarts(s, port);
    case DoSleep(d) => SleepStarts(s, d);
    case DoRead(c, size, d) => ReadStarts(s, c, size, d);
    case DoReadSome(c, d) => ReadSomeStarts(s, c, d);
    case DoWrite(c, data, d) => WriteStarts(s, c, data, d);
  }

  // ---------------------------------------------------------------- closing and deleting

  /** A close has shut the socket of `c`, and done nothing else. */
  ghost predicate ShutsSocket(s: State, t: State, c: ConnId) {
    && SameHistory(s, t) && Around(s, t, c) && t.ops.Keys == s.ops.Keys && Quiesced(t, c)
    && c in s.conns && t.conns == s.conns[c := s.conns[c].(open := false)]
    && c in t.peers && t.peers[c].closedAt.Some?
  }

  lemma CloseShuts(s: State, c: ConnId)
    requires Inv(s) && Enabled(s, DoClose(c))
    ensures ShutsSocket(s, Step(s, DoClose(c)), c)
  {
    hide Core, Around, Quiesced;
    HasPeer(s, c, None);
    ClosedForGood(s, c, None);
  }

  /** The caller's handle of `c` is gone, and nothing else has happened while an operation owns the object;
      if none does, the object is gone with it, and its socket is closed. */
  ghost predicate GivesUpHandle(s: State, t: State, c: ConnId) {
    && SameHistory(s, t) && !Held(t, c) && c in s.conns
    && if s.conns[c].owners != {} then t == s.(conns := s.conns[c := s.conns[c].(handle := false)])
       else Around(s, t, c) && t.ops.Keys == s.ops.Keys && t.conns == s.conns - {c} && Freed(t, c) && Quiesced(t, c)
  }

  /** The object of `c` is gone and its socket closed. */
  ghost predicate Freed(s: State, c: ConnId) {
    c in s.peers && c !in s.conns && s.peers[c].closedAt.Some?
  }

  lemma DeleteGivesUp(s: State, c: ConnId)
    requires Inv(s) && Enabled(s, DoDelete(c))
    ensures GivesUpHandle(s, Step(s, DoDelete(c)), c)
  {
    hide Core, Around, Quiesced;
    HasPeer(s, c, None);
    var u := s.(conns := s.conns[c := s.conns[c].(handle := false)]);
    DropKeeps(s, u, c);
    ClosedForGood(u, c, Some(c));
    if s.conns[c].owners == {} {
      DropAround(s, u, CloseSocket(u, c), c);
      FreedQuiesced(CloseSocket(u, c), Step(s, DoDelete(c)), c);
    }
  }

  lemma DropAround(s: State, u: State, w: State, c: ConnId)
    requires c in s.conns && u == s.(conns := s.conns[c := s.conns[c].(handle := false)]) && Around(u, w, c)
    requires w.conns.Keys == u.conns.Keys
    ensures Around(s, w.(conns := w.conns - {c}), c) && w.conns - {c} == s.conns - {c}
  {
  }

  lemma FreedQuiesced(w: State, t: State, c: ConnId)
    requires Quiesced(w, c) && t.ops == w.ops
    ensures Quiesced(t, c)
  {
  }

  /** Server `v` is gone, its accept aborted; everything else is as it was. */
  ghost predicate RemovesServer(s: State, t: State, v: ServerId) {
    && SameHistory(s, t) && t == s.(servers := s.servers - {v}, ops := t.ops) && t.ops.Keys == s.ops.Keys
    && forall id :: id in s.ops ==>
         if AcceptFor(s, id, v) then t.ops[id].op == s.ops[id].op && Aborted(t.ops[id].phase) else t.ops[id] == s.ops[id]
  }

  lemma DeleteRemovesServer(s: State, v: ServerId)
    requires Inv(s) && Enabled(s, DoDeleteServer(v))
    ensures RemovesServer(s, Step(s, DoDeleteServer(v)), v)
  {
    hide Core;
  }

  // ---------------------------------------------------------------- the operating system

  /** The operating system has finished operation `id`: it is as it was, but ready with the outcome. The
      bytes of a read have been taken from the peer's stream into the buffer, behind those of earlier
      rounds, and an accepted connection is on record; nothing else has happened. */
  ghost predicate Finishes(s: State, t: State, id: OpId, ec: Option<Error>, n: nat) {
    && id in s.ops && t.ops.Keys == s.ops.Keys && t.ops[id].op == s.ops[id].op
    && (forall j :: j in s.ops && j != id ==> t.ops[j] == s.ops[j])
    && t.queue == s.queue && t.log == s.log && t.delivered == s.delivered
    && t.servers == s.servers && t.nextOp == s.nextOp && t.nextServer == s.nextServer
    && var op := s.ops[id].op;
       if IsRead(op) then
         && t.ops[id].phase == Ready(ec, n) && t.accepts == s.accepts && t.nextConn == s.nextConn
         && op.c in s.conns && op.c in t.conns && t.conns - {op.c} == s.conns - {op.c}
         && t.conns[op.c] == s.conns[op.c].(readBuf := t.conns[op.c].readBuf)
         && op.c in s.peers && t.peers == s.peers[op.c := s.peers[op.c].(consumed := s.peers[op.c].consumed + n)]
       else if op.Accept? && ec.None? then
         && t.ops[id].phase == Ready(None, s.nextConn) && t.accepts == s.accepts + [(op.server, s.nextConn)]
         && t.conns == s.conns && t.nextConn == s.nextConn + 1
         && t.peers == s.peers[s.nextConn := Peer([], 0, false, None)]
       else
         && t.ops[id].phase == Ready(ec, n) && t.accepts == s.accepts && t.nextConn == s.nextConn
         && t.conns == s.conns && t.peers == s.peers
  }

  lemma FinishFinishes(s: State, id: OpId, ec: Option<Error>, n: nat)
    requires Inv(s) && CanFinish(s, id, ec, n)
    ensures Finishes(s, Step(s, DoFinish(id, ec, n)), id, ec, n)
  {
    hide Core, Overwrite;
    TransferFits(s, id, ec, n);
  }

  // ---------------------------------------------------------------- getting an event

  /** The front of the queue is handed out, if there is one. */
  ghost predicate HandsOut(u: State, t: State, event: Option<Event>) {
    if u.queue == [] then event == None && t == u
    else event == Some(u.queue[0]) && t == u.(queue := u.queue[1..], delivered := u.delivered + [u.queue[0]])
  }

  /** A queued event is handed out and nothing else happens. With nothing queued the handler of the picked
      operation runs first; with nothing picked nothing happens. */
  ghost predicate GetOutcome(s: State, t: State, pick: Option<OpId>, event: Option<Event>) {
    if s.queue == [] && pick.Some? then
      CanRun(s, pick.value) && exists u :: HandlerOutcome(s, u, pick.value) && HandsOut(u, t, event)
    else HandsOut(s, t, event)
  }

  lemma GetDoes(s: State, pick: Option<OpId>)
    requires Inv(s) && Enabled(s, DoGet(pick))
    ensures s.queue == [] && pick.Some? ==> CanRun(s, pick.value)
    ensures GetOutcome(s, Step(s, DoGet(pick)), pick, Get(s, pick).1)
  {
    hide Core, RunHandler, HandlerOutcome;
    if s.queue == [] && pick.Some? {
      ReadyCanRun(s, pick.value);
      RunHandled(s, pick.value);
      assert HandsOut(RunHandler(s, pick.value), Step(s, DoGet(pick)), Get(s, pick).1);
    }
  }

  /** Bytes a composed operation has transferred, and is to transfer. */
  function Progressed(op: Op): nat {
    match op
    case Read(_, _, got, _) => got
    case Write(_, _, put, _) => put
    case _ => 0
  }

  function Total(op: Op): nat {
    match op
    case Read(_, size, _, _) => size
    case Write(_, data, _, _) => |data|
    case _ => 0
  }

  /** More is to be transferred after the round that has finished. */
  predicate Unfinished(o: Pending) {
    o.phase.Ready? && o.phase.ec.None? && Progressed(o.op) + o.phase.n < Total(o.op)
  }

  /** Operation `id` has been answered: its completion, with the outcome the operating system gave it, is
      the one new one, and the first event of its answer is what `asio_get` returns. There is an event but
      for an accept that ended with an error. */
  ghost predicate AnsweredNow(s: State, t: State, id: OpId, event: Option<Event>) {
    && id in s.ops && s.ops[id].phase.Ready? && id !in t.ops
    && |t.log| == |s.log| + 1 && t.log[..|s.log|] == s.log
    && var x := t.log[|s.log|];
       && x == Result(s, id, x.events) && Answered(x)
       && t.delivered + t.queue == s.delivered + x.events
       && (x.events == [] <==> x.op.Accept? && x.ec.Some?)
       && event == if x.events == [] then None else Some(x.events[0])
  }

  /** The read or write `id` has come further, and is as it was asked for. */
  ghost predicate CameFurther(s: State, t: State, id: OpId, event: Option<Event>) {
    && id in s.ops && s.ops[id].phase.Ready? && id in t.ops && Request(t.ops[id].op) == Request(s.ops[id].op)
    && Progressed(t.ops[id].op) == Progressed(s.ops[id].op) + s.ops[id].phase.n > Progressed(s.ops[id].op)
    && t.log == s.log && t.delivered == s.delivered && t.queue == [] && event == None
  }

  /** The handler has completed operation `id`, and its answer is all that is queued. */
  ghost predicate JustAnswered(s: State, u: State, id: OpId) {
    && id in s.ops && s.ops[id].phase.Ready? && id !in u.ops && u.delivered == s.delivered
    && |u.log| == |s.log| + 1 && u.log[..|s.log|] == s.log
    && var x := u.log[|s.log|];
       && x == Result(s, id, x.events) && Answered(x) && u.queue == x.events
       && (x.events == [] <==> x.op.Accept? && x.ec.Some?)
  }

  /** A handler makes progress: it answers its operation, unless more is to be transferred; then the
      operation comes further. */
  lemma OutcomeProgresses(s: State, u: State, id: OpId)
    requires Core(s, None) && CanRun(s, id) && s.queue == [] && HandlerOutcome(s, u, id) && Core(u, None)
    ensures if Unfinished(s.ops[id]) then CameFurther(s, u, id, None) else JustAnswered(s, u, id)
  {
    hide Core, Around, GoesOn, EndsWith, CameFurther, JustAnswered, LastBytes;
    var Pending(op, Ready(ec, n)) := s.ops[id];
    match op
    case Connect(c, d) =>
      EndAnswers(s, u, id, [if ec.Some? then Continue(d, Null, ec.value.message) else Continue(d, Connection(c), [])]);
    case Sleep(d) => EndAnswers(s, u, id, [Continue(d, Null, if ec.Some? then ec.value.message else [])]);
    case Accept(_, port) =>
      NextNotIssued(s);
      EndAnswers(s, u, id, if ec.None? then [Event(EVT_ACCEPT, port, Handle(n), [])] else []);
    case Read(c, size, got, d) =>
      if ec.Some? {
        TransferAnswers(s, u, id, [Continue(d, Null, ec.value.message)]);
      } else if got + n < size {
        GoesFurther(s, u, id, op.(got := got + n));
      } else {
        TransferAnswers(s, u, id, [Continue(d, Connection(c), LastBytes(s.peers[c], size))]);
      }
    case ReadSome(c, d) =>
      var data := LastBytes(s.peers[c], n);
      TransferAnswers(s, u, id, if ec.Some? then [Continue(d, Null, data), Continue(d, Null, ec.value.message)]
                                else [Continue(d, Connection(c), data)]);
    case Write(c, data, put, d) =>
      if ec.Some? {
        TransferAnswers(s, u, id, [Continue(d, Null, ec.value.message)]);
      } else if put + n < |data| {
        GoesFurther(s, u, id, op.(put := put + n));
      } else {
        TransferAnswers(s, u, id, [Continue(d, Connection(c), [])]);
      }
  }

  lemma GoesFurther(s: State, u: State, id: OpId, op: Op)
    requires CanRun(s, id) && s.queue == [] && GoesOn(s, u, id, op) && Request(op) == Request(s.ops[id].op)
    requires Progressed(op) == Progressed(s.ops[id].op) + s.ops[id].phase.n > Progressed(s.ops[id].op)
    ensures CameFurther(s, u, id, None)
  {
  }

  lemma EndAnswers(s: State, u: State, id: OpId, events: seq<Event>)
    requires CanRun(s, id) && Core(u, None) && id !in u.ops && s.queue == [] && u.delivered == s.delivered
    requires u.log == s.log + [Result(s, id, events)] && u.queue == s.queue + events
    requires events == [] <==> s.ops[id].op.Accept? && s.ops[id].phase.ec.Some?
    ensures JustAnswered(s, u, id)
  {
    hide Core, Answered;
    LastAnswered(u);
  }

  lemma TransferAnswers(s: State, u: State, id: OpId, events: seq<Event>)
    requires CanRun(s, id) && Holds(s.ops[id].op) && Core(u, None) && s.queue == [] && events != []
    requires EndsWith(s, u, id, events)
    ensures JustAnswered(s, u, id)
  {
    hide Core;
    EndAnswers(s, u, id, events);
  }

  lemma LastAnswered(u: State)
    requires Core(u, None) && u.log != []
    ensures Answered(u.log[|u.log| - 1])
  {
  }

  /** `asio_get` makes progress: with nothing queued and a finished operation picked, it answers that
      operation, unless more is to be transferred; then the operation comes further. */
  lemma GetProgresses(s: State, id: OpId)
    requires Inv(s) && s.queue == [] && Enabled(s, DoGet(Some(id)))
    ensures CanRun(s, id)
    ensures var t, event := Step(s, DoGet(Some(id))), Get(s, Some(id)).1;
      if Unfinished(s.ops[id]) then CameFurther(s, t, id, event) else AnsweredNow(s, t, id, event)
  {
    hide Core, RunHandler, HandlerOutcome, CameFurther, AnsweredNow, JustAnswered;
    ReadyCanRun(s, id);
    RunHandled(s, id);
    OutcomeProgresses(s, RunHandler(s, id), id);
    FirstHandedOut(s, RunHandler(s, id), Step(s, DoGet(Some(id))), id, Get(s, Some(id)).1);
  }

  lemma FirstHandedOut(s: State, u: State, t: State, id: OpId, event: Option<Event>)
    requires CanRun(s, id) && HandsOut(u, t, event)
    ensures CameFurther(s, u, id, None) ==> CameFurther(s, t, id, event)
    ensures JustAnswered(s, u, id) ==> AnsweredNow(s, t, id, event)
  {
    if JustAnswered(s, u, id) && u.queue != [] {
      assert t.delivered + t.queue == u.delivered + u.queue;
    }
  }

  // ---------------------------------------------------------------- every action

  ghost predicate Effect(s: State, t: State, a: Action) {
    match a
    case DoClose(c) => ShutsSocket(s, t, c)
    case DoDelete(c) => GivesUpHandle(s, t, c)
    case DoDeleteServer(v) => RemovesServer(s, t, v)
    case DoArrive(c, data) => Extends(s, t, c, data)
    case DoFinish(id, ec, n) => Finishes(s, t, id, ec, n)
    case DoGet(pick) => exists event :: GetOutcome(s, t, pick, event)
    case _ => Starts(s, t, Asked(s, a).value)
  }

  /** Each action has exactly the effect its name promises, and no other. */
  lemma StepEffect(s: State, a: Action)
    requires Inv(s) && Enabled(s, a)
    ensures Effect(s, Step(s, a), a)
  {
    hide Core, Step, Enabled, Starts, ShutsSocket, GivesUpHandle, RemovesServer, Finishes, GetOutcome;
    match a
    case DoClose(c) => CloseShuts(s, c);
    case DoDelete(c) => DeleteGivesUp(s, c);
    case DoDeleteServer(v) => DeleteRemovesServer(s, v);
    case DoArrive(c, data) => ArriveExtends(s, c, data);
    case DoFinish(id, ec, n) => EnabledFinish(s, id, ec, n); FinishFinishes(s, id, ec, n);
    case DoGet(pick) => GetDoes(s, pick);
    case _ => CallStarts(s, a);
  }

  lemma EnabledFinish(s: State, id: OpId, ec: Option<Error>, n: nat)
    requires Enabled(s, DoFinish(id, ec, n))
    ensures CanFinish(s, id, ec, n)
  {
  }

  lemma ArriveExtends(s: State, c: ConnId, data: seq<byte>)
    requires Inv(s) && Enabled(s, DoArrive(c, data))
    ensures Extends(s, Step(s, DoArrive(c, data)), c, data)
  {
    hide Core;
  }
}
