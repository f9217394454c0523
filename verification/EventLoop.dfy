/** The event protocol between asynchronous operations and `asio_get`, on snapshots: what each call
    of the C interface, each completion handler and each act of the operating system does. */
module EventLoop {
  import opened Common

  type ConnId = nat
  type ServerId = nat
  type OpId = nat

  const EVT_ACCEPT: int := 1
  const EVT_CONTINUE: int := 2
  const MAX_EVT_MSG: nat := 10240
  const MAX_BUFF_SIZE: nat := 10240

  /** What an event refers to: nothing, a connection object, or a new handle to one. */
  datatype Source = Null | Connection(c: ConnId) | Handle(c: ConnId)

  datatype Event = Event(kind: int, destId: int, source: Source, data: seq<byte>)

  /** An error code and its message. */
  datatype Error = Error(aborted: bool, message: seq<byte>)

  /** The texts stand for the system's. */
  const ABORTED: Error := Error(true, [65])
  const BAD_DESCRIPTOR: Error := Error(false, [66])

  /** An asynchronous operation. `got` and `put` count what earlier rounds of a composed read or
      write have transferred. */
  datatype Op =
    | Connect(c: ConnId, destId: int)
    | Read(c: ConnId, size: nat, got: nat, destId: int)
    | ReadSome(c: ConnId, destId: int)
    | Write(c: ConnId, data: seq<byte>, put: nat, destId: int)
    | Sleep(destId: int)
    | Accept(server: ServerId, port: int)

  /** Where an outstanding operation is: with the operating system, or done with its handler waiting
      to be run. `n` is the number of bytes of the last transfer; for an accept, the new connection. */
  datatype Phase = InKernel | Ready(ec: Option<Error>, n: nat)

  datatype Pending = Pending(op: Op, phase: Phase)

  /** A live connection object: whether the caller's handle exists, the operations whose handlers keep
      it alive, its socket and its buffer. `reader` is the outstanding read. */
  datatype Conn = Conn(handle: bool, owners: set<OpId>, open: bool, readBuf: seq<byte>, reader: Option<OpId>)

  /** A live server and the operation its acceptor waits for. */
  datatype Server = Server(port: int, accept: Option<OpId>)

  /** The far end of a connection, live or freed: what it has sent, how much of that was taken in here,
      whether some of it was dropped, and which operation comes next when the socket closes. */
  datatype Peer = Peer(stream: seq<byte>, consumed: nat, lost: bool, closedAt: Option<OpId>)

  /** A handler that finished its operation, and the events it pushed. */
  datatype Completion = Completion(id: OpId, op: Op, ec: Option<Error>, n: nat, events: seq<Event>)

  /** The process. `peers`, `accepts` (connections in the order the kernel accepted them), `log` and
      `delivered` (results of `asio_get`) are history. */
  datatype State = State(
    queue: seq<Event>,
    conns: map<ConnId, Conn>, servers: map<ServerId, Server>,
    ops: map<OpId, Pending>, nextOp: OpId, nextConn: ConnId, nextServer: ServerId,
    peers: map<ConnId, Peer>, accepts: seq<(ServerId, ConnId)>,
    log: seq<Completion>, delivered: seq<Event>)

  function Initial(): State {
    State([], map[], map[], map[], 0, 0, 0, map[], [], [], [])
  }

  predicate IsRead(op: Op) {
    op.Read? || op.ReadSome?
  }

  /** The handler captures shared ownership of the connection. */
  predicate Holds(op: Op) {
    op.Read? || op.ReadSome? || op.Write?
  }

  predicate OnSocket(op: Op, c: ConnId) {
    (op.Connect? || Holds(op)) && op.c == c
  }

  /** Bytes one transfer may move. */
  function Room(op: Op): int {
    match op
    case Read(_, size, got, _) => size - got
    case ReadSome(_, _) => MAX_BUFF_SIZE
    case Write(_, data, put, _) => |data| - put
    case _ => 0
  }

  // ---------------------------------------------------------------- the queue

  /** The trimming loop of `push_event`: drop from the front down to the limit. */
  function Trim(q: seq<Event>): seq<Event> {
    if |q| > MAX_EVT_MSG then q[|q| - MAX_EVT_MSG..] else q
  }

  function PushAll(q: seq<Event>, events: seq<Event>): seq<Event>
    decreases |events|
  {
    if events == [] then q else PushAll(Trim(q + [events[0]]), events[1..])
  }

  function Continue(destId: int, source: Source, data: seq<byte>): Event {
    Event(EVT_CONTINUE, destId, source, data)
  }

  // ---------------------------------------------------------------- sockets

  /** A transfer of nothing is done at once; on a closed socket it fails at once. */
  function IssuePhase(open: bool, room: int): Phase {
    if room == 0 then Ready(None, 0) else if !open then Ready(Some(BAD_DESCRIPTOR), 0) else InKernel
  }

  function Abort(ops: map<OpId, Pending>, c: ConnId): map<OpId, Pending> {
    map id | id in ops ::
      if ops[id].phase.InKernel? && OnSocket(ops[id].op, c) then ops[id].(phase := Ready(Some(ABORTED), 0)) else ops[id]
  }

  /** Closing an open socket aborts what the kernel still has of it. */
  function CloseSocket(s: State, c: ConnId): State
    requires c in s.conns && c in s.peers
  {
    if !s.conns[c].open then s
    else s.(conns := s.conns[c := s.conns[c].(open := false)],
            ops := Abort(s.ops, c),
            peers := s.peers[c := s.peers[c].(closedAt := Some(s.nextOp))])
  }

  /** Free the connection object once nothing points to it. */
  function Release(s: State, c: ConnId): State
    requires c in s.conns && c in s.peers
  {
    if s.conns[c].handle || s.conns[c].owners != {} then s
    else var t := CloseSocket(s, c); t.(conns := t.conns - {c})
  }

  // ---------------------------------------------------------------- initiating calls

  function Issue(s: State, op: Op, phase: Phase): State {
    s.(ops := s.ops[s.nextOp := Pending(op, phase)], nextOp := s.nextOp + 1)
  }

  function NewConnect(s: State, destId: int): State {
    var c := s.nextConn;
    var t := s.(conns := s.conns[c := Conn(true, {}, true, [], None)],
                peers := s.peers[c := Peer([], 0, false, None)], nextConn := c + 1);
    Issue(t, Connect(c, destId), InKernel)
  }

  function NewServer(s: State, port: int): State {
    var v := s.nextServer;
    var t := s.(servers := s.servers[v := Server(port, Some(s.nextOp))], nextServer := v + 1);
    Issue(t, Accept(v, port), InKernel)
  }

  function StartSleep(s: State, destId: int): State {
    Issue(s, Sleep(destId), InKernel)
  }

  function StartRead(s: State, c: ConnId, size: nat, destId: int): State
    requires c in s.conns
  {
    var k := s.conns[c];
    var t := s.(conns := s.conns[c := k.(readBuf := Resize(k.readBuf, size), owners := k.owners + {s.nextOp},
                                         reader := Some(s.nextOp))]);
    Issue(t, Read(c, size, 0, destId), IssuePhase(k.open, size))
  }

  function StartReadSome(s: State, c: ConnId, destId: int): State
    requires c in s.conns
  {
    var k := s.conns[c];
    var t := s.(conns := s.conns[c := k.(readBuf := Resize(k.readBuf, MAX_BUFF_SIZE),
                                         owners := k.owners + {s.nextOp}, reader := Some(s.nextOp))]);
    Issue(t, ReadSome(c, destId), IssuePhase(k.open, MAX_BUFF_SIZE))
  }

  function StartWrite(s: State, c: ConnId, data: seq<byte>, destId: int): State
    requires c in s.conns
  {
    var k := s.conns[c];
    var t := s.(conns := s.conns[c := k.(owners := k.owners + {s.nextOp})]);
    Issue(t, Write(c, data, 0, destId), IssuePhase(k.open, |data|))
  }

  function DropHandle(s: State, c: ConnId): State
    requires c in s.conns && c in s.peers
  {
    Release(s.(conns := s.conns[c := s.conns[c].(handle := false)]), c)
  }

  function DeleteServer(s: State, v: ServerId): State
    requires v in s.servers
  {
    s.(servers := s.servers - {v}, ops := AbortAccepts(s.ops, v))
  }

  function AbortAccepts(ops: map<OpId, Pending>, v: ServerId): map<OpId, Pending> {
    map id | id in ops ::
      if ops[id].phase.InKernel? && ops[id].op.Accept? && ops[id].op.server == v
      then ops[id].(phase := Ready(Some(ABORTED), 0)) else ops[id]
  }

  // ---------------------------------------------------------------- the operating system

  function Arrive(s: State, c: ConnId, data: seq<byte>): State
    requires c in s.peers
  {
    s.(peers := s.peers[c := s.peers[c].(stream := s.peers[c].stream + data)])
  }

  /** What the operating system can answer: a successful transfer moves at least one byte, what is
      read has been sent by the peer, and an operation of a deleted server can only be aborted. */
  predicate CanFinish(s: State, id: OpId, ec: Option<Error>, n: nat) {
    id in s.ops && s.ops[id].phase.InKernel? &&
    match s.ops[id].op
    case Read(c, _, _, _) => CanTransfer(s, id, ec, n) && c in s.peers && s.peers[c].consumed + n <= |s.peers[c].stream|
    case ReadSome(c, _) => CanTransfer(s, id, ec, n) && c in s.peers && s.peers[c].consumed + n <= |s.peers[c].stream|
    case Write(_, _, _, _) => CanTransfer(s, id, ec, n)
    case Accept(v, _) => n == 0 && v in s.servers
    case _ => n == 0
  }

  predicate CanTransfer(s: State, id: OpId, ec: Option<Error>, n: nat)
    requires id in s.ops
  {
    n <= Room(s.ops[id].op) && (ec.None? ==> n > 0)
  }

  /** Where the next chunk of a read goes in the buffer. */
  function Offset(op: Op): nat {
    if op.Read? then op.got else 0
  }

  function Overwrite(buf: seq<byte>, at: nat, chunk: seq<byte>): (r: seq<byte>)
    requires at + |chunk| <= |buf|
    ensures |r| == |buf|
  {
    buf[..at] + chunk + buf[at + |chunk|..]
  }

  /** The operating system finishes a transfer: bytes read are in the connection's buffer by now, and
      an accepted connection exists. */
  function Finish(s: State, id: OpId, ec: Option<Error>, n: nat): State
    requires CanFinish(s, id, ec, n)
    requires IsRead(s.ops[id].op) ==>
      (s.ops[id].op.c in s.conns && Offset(s.ops[id].op) + n <= |s.conns[s.ops[id].op.c].readBuf|)
  {
    var op := s.ops[id].op;
    if IsRead(op) then
      var k, p := s.conns[op.c], s.peers[op.c];
      var chunk := p.stream[p.consumed..p.consumed + n];
      s.(conns := s.conns[op.c := k.(readBuf := Overwrite(k.readBuf, Offset(op), chunk))],
         peers := s.peers[op.c := p.(consumed := p.consumed + n)],
         ops := s.ops[id := Pending(op, Ready(ec, n))])
    else if op.Accept? && ec.None? then
      s.(peers := s.peers[s.nextConn := Peer([], 0, false, None)], nextConn := s.nextConn + 1,
         accepts := s.accepts + [(op.server, s.nextConn)],
         ops := s.ops[id := Pending(op, Ready(ec, s.nextConn))])
    else s.(ops := s.ops[id := Pending(op, Ready(ec, n))])
  }

  // ---------------------------------------------------------------- handlers

  /** The operation is over: its events are queued, and its share of the connection goes. A
      composed read that fails drops what its earlier rounds had read. */
  function Retire(s: State, id: OpId, events: seq<Event>): State
    requires CanRun(s, id)
  {
    var Pending(op, Ready(ec, n)) := s.ops[id];
    var t := s.(ops := s.ops - {id}, queue := PushAll(s.queue, events),
                log := s.log + [Completion(id, op, ec, n, events)]);
    if !Holds(op) then t
    else
      var k, p := s.conns[op.c], s.peers[op.c];
      t.(conns := s.conns[op.c := k.(owners := k.owners - {id}, reader := if IsRead(op) then None else k.reader)],
         peers := s.peers[op.c := p.(lost := p.lost || (op.Read? && ec.Some? && op.got + n > 0))])
  }

  /** The handler can be run: what it points to is there. */
  predicate CanRun(s: State, id: OpId) {
    && id in s.ops && s.ops[id].phase.Ready?
    && (Holds(s.ops[id].op) ==> s.ops[id].op.c in s.conns && s.ops[id].op.c in s.peers)
    && (s.ops[id].op.ReadSome? ==> s.ops[id].phase.n <= |s.conns[s.ops[id].op.c].readBuf|)
    && (s.ops[id].op.Accept? && !Aborted(s.ops[id].phase) ==> s.ops[id].op.server in s.servers)
  }

  predicate Aborted(phase: Phase) {
    phase.Ready? && phase.ec.Some? && phase.ec.value.aborted
  }

  /** An unfinished composed operation asks for the rest. */
  function Reissue(s: State, id: OpId, op: Op): State
    requires (op.Read? || op.Write?) && op.c in s.conns
  {
    s.(ops := s.ops[id := Pending(op, IssuePhase(s.conns[op.c].open, Room(op)))])
  }

  /** A failed read or write: the socket is closed, the answer is the message. */
  function Fail(s: State, id: OpId): State
    requires CanRun(s, id) && (s.ops[id].op.Read? || s.ops[id].op.Write?) && s.ops[id].phase.ec.Some?
  {
    var Pending(op, Ready(ec, n)) := s.ops[id];
    Release(Retire(CloseSocket(s, op.c), id, [Continue(op.destId, Null, ec.value.message)]), op.c)
  }

  function HandleRead(s: State, id: OpId): State
    requires CanRun(s, id) && s.ops[id].op.Read?
  {
    var Pending(op, Ready(ec, n)) := s.ops[id];
    var c := op.c;
    if ec.None? && 0 < n && op.got + n < op.size then Reissue(s, id, op.(got := op.got + n))
    else if ec.None? then
      Release(Retire(s, id, [Continue(op.destId, Connection(c), s.conns[c].readBuf)]), c)
    else Fail(s, id)
  }

  function HandleReadSome(s: State, id: OpId): State
    requires CanRun(s, id) && s.ops[id].op.ReadSome?
  {
    var Pending(op, Ready(ec, n)) := s.ops[id];
    var c := op.c;
    var data := s.conns[c].readBuf[..n];
    var t := if ec.None? then Retire(s, id, [Continue(op.destId, Connection(c), data)])
             else Retire(CloseSocket(s, c), id,
                         [Continue(op.destId, Null, data), Continue(op.destId, Null, ec.value.message)]);
    Release(t.(conns := t.conns[c := t.conns[c].(readBuf := data)]), c)
  }

  function HandleWrite(s: State, id: OpId): State
    requires CanRun(s, id) && s.ops[id].op.Write?
  {
    var Pending(op, Ready(ec, n)) := s.ops[id];
    var c := op.c;
    if ec.None? && 0 < n && op.put + n < |op.data| then Reissue(s, id, op.(put := op.put + n))
    else if ec.None? then Release(Retire(s, id, [Continue(op.destId, Connection(c), [])]), c)
    else Fail(s, id)
  }

  function HandleConnect(s: State, id: OpId): State
    requires CanRun(s, id) && s.ops[id].op.Connect?
  {
    var Pending(op, Ready(ec, n)) := s.ops[id];
    Retire(s, id, [if ec.None? then Continue(op.destId, Connection(op.c), [])
                   else Continue(op.destId, Null, ec.value.message)])
  }

  function HandleSleep(s: State, id: OpId): State
    requires CanRun(s, id) && s.ops[id].op.Sleep?
  {
    var Pending(op, Ready(ec, n)) := s.ops[id];
    Retire(s, id, [Continue(op.destId, Null, if ec.None? then [] else ec.value.message)])
  }

  /** A new connection is announced; unless it was aborted, the server waits for the next one. */
  function HandleAccept(s: State, id: OpId): State
    requires CanRun(s, id) && s.ops[id].op.Accept?
  {
    var Pending(op, Ready(ec, n)) := s.ops[id];
    var v := op.server;
    if ec.Some? && ec.value.aborted then
      var t := Retire(s, id, []);
      if v in s.servers then t.(servers := t.servers[v := t.servers[v].(accept := None)]) else t
    else
      var port := s.servers[v].port;
      var t := if ec.Some? then Retire(s, id, [])
               else Retire(s.(conns := s.conns[n := Conn(true, {}, true, [], None)]), id,
                             [Event(EVT_ACCEPT, port, Handle(n), [])]);
      Issue(t.(servers := t.servers[v := Server(port, Some(t.nextOp))]), Accept(v, port), InKernel)
  }

  function RunHandler(s: State, id: OpId): State
    requires CanRun(s, id)
  {
    match s.ops[id].op
    case Connect(_, _) => HandleConnect(s, id)
    case Read(_, _, _, _) => HandleRead(s, id)
    case ReadSome(_, _) => HandleReadSome(s, id)
    case Write(_, _, _, _) => HandleWrite(s, id)
    case Sleep(_) => HandleSleep(s, id)
    case Accept(_, _) => HandleAccept(s, id)
  }

  /** `asio_get`: with nothing queued it first runs at most one handler (`pick`; none if it times
      out), then hands out the front of the queue, if there is one. */
  function Get(s: State, pick: Option<OpId>): (State, Option<Event>)
    requires s.queue == [] && pick.Some? ==> CanRun(s, pick.value)
  {
    var t := if s.queue == [] && pick.Some? then RunHandler(s, pick.value) else s;
    if t.queue == [] then (t, None)
    else (t.(queue := t.queue[1..], delivered := t.delivered + [t.queue[0]]), Some(t.queue[0]))
  }

  // ---------------------------------------------------------------- runs

  datatype Action =
    | DoConnect(destId: int)
    | DoServe(port: int)
    | DoSleep(destId: int)
    | DoRead(c: ConnId, size: nat, destId: int)
    | DoReadSome(c: ConnId, destId: int)
    | DoWrite(c: ConnId, data: seq<byte>, destId: int)
    | DoClose(c: ConnId)
    | DoDelete(c: ConnId)
    | DoDeleteServer(server: ServerId)
    | DoArrive(c: ConnId, data: seq<byte>)
    | DoFinish(id: OpId, ec: Option<Error>, n: nat)
    | DoGet(pick: Option<OpId>)

  /** The caller holds a handle to `c`. */
  predicate Held(s: State, c: ConnId) {
    c in s.conns && s.conns[c].handle
  }

  /** What a caller may do: use handles it holds, keep at most one read outstanding on a connection,
      and not delete a server whose next connection waits to be announced. What the operating system
      may do: finish what it has. */
  predicate Enabled(s: State, a: Action) {
    match a
    case DoRead(c, _, _) => Held(s, c) && s.conns[c].reader.None?
    case DoReadSome(c, _) => Held(s, c) && s.conns[c].reader.None?
    case DoWrite(c, _, _) => Held(s, c)
    case DoClose(c) => Held(s, c)
    case DoDelete(c) => Held(s, c)
    case DoDeleteServer(v) => v in s.servers &&
      forall id :: id in s.ops && s.ops[id].op.Accept? && s.ops[id].op.server == v ==>
        s.ops[id].phase.InKernel? || Aborted(s.ops[id].phase)
    case DoArrive(c, _) => c in s.peers
    case DoFinish(id, ec, n) => CanFinish(s, id, ec, n)
    case DoGet(pick) => s.queue == [] && pick.Some? ==> pick.value in s.ops && s.ops[pick.value].phase.Ready?
    case _ => true
  }
}
