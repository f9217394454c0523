/** What every reachable state of the event protocol satisfies: the history it is stated over, the
    invariant in its parts, and what no step ever forgets. */
module EventInvariants {
  import opened Common
  import opened EventLoop

  // ---------------------------------------------------------------- what the history says

  /** The events of the finished operations, operation by operation. */
  ghost function Flatten(log: seq<Completion>): seq<Event> {
    if log == [] then [] else Flatten(log[..|log| - 1]) + log[|log| - 1].events
  }

  /** The peer's bytes a completion passed on: the first event of a successful read, or of any `read_some`. */
  ghost function DataOf(x: Completion, c: ConnId): seq<byte> {
    if IsRead(x.op) && x.op.c == c && (x.ec.None? || x.op.ReadSome?) && x.events != [] then x.events[0].data else []
  }

  ghost function Taken(log: seq<Completion>, c: ConnId): seq<byte> {
    if log == [] then [] else Taken(log[..|log| - 1], c) + DataOf(log[|log| - 1], c)
  }

  /** The connections a server announced, in order. */
  ghost function Announced(log: seq<Completion>, v: ServerId): seq<ConnId> {
    if log == [] then []
    else
      var x := log[|log| - 1];
      Announced(log[..|log| - 1], v) + (if x.op.Accept? && x.op.server == v && x.ec.None? then [x.n] else [])
  }

  /** The connections the kernel accepted for a server, in order. */
  ghost function Accepted(accepts: seq<(ServerId, ConnId)>, v: ServerId): seq<ConnId> {
    if accepts == [] then []
    else
      var x := accepts[|accepts| - 1];
      Accepted(accepts[..|accepts| - 1], v) + (if x.0 == v then [x.1] else [])
  }

  /** The answer an operation gets: one event with its own `destId` (two for a failed `read_some`),
      carrying the connection exactly on success. */
  ghost predicate Answered(x: Completion) {
    match x.op
    case Connect(c, d) =>
      x.events == [if x.ec.None? then Continue(d, Connection(c), []) else Continue(d, Null, x.ec.value.message)]
    case Sleep(d) => x.events == [Continue(d, Null, if x.ec.None? then [] else x.ec.value.message)]
    case Write(c, data, put, d) =>
      if x.ec.None? then put + x.n == |data| && x.events == [Continue(d, Connection(c), [])]
      else x.events == [Continue(d, Null, x.ec.value.message)]
    case Read(c, size, _, d) =>
      if x.ec.None? then DataAnswer(x.events, d, Connection(c), size)
      else x.events == [Continue(d, Null, x.ec.value.message)]
    case ReadSome(c, d) =>
      if x.ec.None? then x.n > 0 && DataAnswer(x.events, d, Connection(c), x.n)
      else |x.events| == 2 && DataAnswer(x.events[..1], d, Null, x.n)
           && x.events[1] == Continue(d, Null, x.ec.value.message)
    case Accept(_, port) =>
      x.events == (if x.ec.None? then [Event(EVT_ACCEPT, port, Handle(x.n), [])] else [])
  }

  /** One event with `n` bytes of data. */
  ghost predicate DataAnswer(events: seq<Event>, destId: int, source: Source, n: nat) {
    |events| == 1 && |events[0].data| == n && events[0] == Continue(destId, source, events[0].data)
  }

  // ---------------------------------------------------------------- the invariant

  ghost predicate Logged(log: seq<Completion>, id: OpId) {
    exists k :: 0 <= k < |log| && log[k].id == id
  }

  /** Every operation ever issued is outstanding or has completed, once. */
  ghost predicate Books(s: State) {
    && (forall id :: id in s.ops ==> id < s.nextOp && !Logged(s.log, id))
    && (forall k :: 0 <= k < |s.log| ==> s.log[k].id < s.nextOp)
    && (forall i, j :: 0 <= i < j < |s.log| ==> s.log[i].id != s.log[j].id)
    && (forall id :: 0 <= id < s.nextOp ==> id in s.ops || Logged(s.log, id))
  }

  ghost predicate QueueInv(s: State) {
    s.delivered + s.queue == Flatten(s.log)
  }

  ghost predicate LogInv(s: State) {
    forall k :: 0 <= k < |s.log| ==> Answered(s.log[k])
  }

  ghost predicate OpInv(op: Op, phase: Phase) {
    match op
    case Read(_, size, got, _) =>
      got <= size && (phase.Ready? ==> got + phase.n <= size && (phase.ec.None? ==> phase.n > 0 || got == size))
    case ReadSome(_, _) => phase.Ready? ==> phase.n <= MAX_BUFF_SIZE && (phase.ec.None? ==> phase.n > 0)
    case Write(_, data, put, _) =>
      put <= |data| && (phase.Ready? ==> put + phase.n <= |data| && (phase.ec.None? ==> phase.n > 0 || put == |data|))
    case _ => true
  }

  ghost predicate OpsInv(s: State) {
    forall id :: id in s.ops ==> OpInv(s.ops[id].op, s.ops[id].phase)
  }

  /** Live connections and the operations on them. The owners of a connection are exactly its
      outstanding reads and writes. A connection with neither handle nor owner is live only as `z`. */
  ghost predicate Refs(s: State, z: Option<ConnId>) {
    && (forall c :: c in s.conns ==> c in s.peers && (s.conns[c].handle || s.conns[c].owners != {} || z == Some(c)))
    && (forall c :: c in s.peers ==> c < s.nextConn)
    && (forall c, id :: c in s.conns && id in s.conns[c].owners ==>
          id in s.ops && Holds(s.ops[id].op) && s.ops[id].op.c == c)
    && (forall id :: id in s.ops && Holds(s.ops[id].op) ==>
          s.ops[id].op.c in s.conns && id in s.conns[s.ops[id].op.c].owners)
  }

  ghost predicate Readers(s: State) {
    && (forall c :: c in s.conns && s.conns[c].reader.Some? ==>
          s.conns[c].reader.value in s.ops && IsRead(s.ops[s.conns[c].reader.value].op)
          && s.ops[s.conns[c].reader.value].op.c == c)
    && (forall id :: id in s.ops && IsRead(s.ops[id].op) ==>
          s.ops[id].op.c in s.conns && s.conns[s.ops[id].op.c].reader == Some(id))
  }

  /** Only an open socket keeps the kernel busy; `closedAt` records that it closed. A connection on
      which a read or write has failed is closed. */
  ghost predicate Sockets(s: State) {
    && (forall c :: c in s.conns ==> c in s.peers && (s.conns[c].open <==> s.peers[c].closedAt.None?))
    && (forall c :: c in s.peers && s.peers[c].closedAt.Some? ==> s.peers[c].closedAt.value <= s.nextOp)
    && (forall id :: id in s.ops && s.ops[id].phase.InKernel? && (s.ops[id].op.Connect? || Holds(s.ops[id].op)) ==>
          s.ops[id].op.c in s.conns && s.conns[s.ops[id].op.c].open)
    && (forall k :: 0 <= k < |s.log| && Holds(s.log[k].op) ==>
          s.log[k].op.c in s.peers && (s.log[k].ec.Some? ==> s.peers[s.log[k].op.c].closedAt.Some?))
  }

  /** Bytes of the outstanding read already in the buffer. */
  ghost function Buffered(s: State, c: ConnId): nat {
    if c in s.conns && s.conns[c].reader.Some? && s.conns[c].reader.value in s.ops
    then BufferedBy(s.ops[s.conns[c].reader.value]) else 0
  }

  ghost function BufferedBy(o: Pending): nat {
    Offset(o.op) + (if o.phase.Ready? then o.phase.n else 0)
  }

  /** The bytes passed on, then those in the buffer, are what was taken of the peer's stream, unless
      some were dropped; then the connection is closed and passes on nothing more. */
  ghost predicate StreamInv(s: State, c: ConnId)
    requires c in s.peers
  {
    var p, r := s.peers[c], Buffered(s, c);
    && r <= p.consumed <= |p.stream|
    && (!p.lost ==> Taken(s.log, c) == p.stream[..p.consumed - r])
    && (p.lost ==> Taken(s.log, c) <= p.stream && r == 0 && p.closedAt.Some?)
  }

  ghost predicate BufferInv(s: State, c: ConnId)
    requires c in s.conns && c in s.peers
  {
    var k, p, r := s.conns[c], s.peers[c], Buffered(s, c);
    k.reader.Some? && k.reader.value in s.ops ==>
      && |k.readBuf| == BufferSize(s.ops[k.reader.value].op)
      && r <= |k.readBuf| && r <= p.consumed <= |p.stream|
      && k.readBuf[..r] == p.stream[p.consumed - r..p.consumed]
      && (Silent(p, k.reader.value) ==> r == 0)
  }

  function BufferSize(op: Op): nat {
    if op.Read? then op.size else MAX_BUFF_SIZE
  }

  ghost predicate DataInv(s: State) {
    && (forall c :: c in s.peers ==> StreamInv(s, c))
    && (forall c :: c in s.conns && c in s.peers ==> BufferInv(s, c))
  }

  /** Operations issued after a connection closed pass on none of the peer's bytes. */
  ghost predicate SilentInv(s: State) {
    forall k, c :: 0 <= k < |s.log| && c in s.peers && Silent(s.peers[c], s.log[k].id) ==> DataOf(s.log[k], c) == []
  }

  ghost predicate Silent(p: Peer, id: OpId) {
    p.closedAt.Some? && id >= p.closedAt.value
  }

  /** A live server waits for exactly one accept until it is aborted; a deleted one is being aborted. */
  ghost predicate Servers(s: State) {
    && (forall v :: v in s.servers ==> v < s.nextServer)
    && (forall v :: v in s.servers && s.servers[v].accept.Some? ==>
          s.servers[v].accept.value in s.ops && s.ops[s.servers[v].accept.value].op == Accept(v, s.servers[v].port))
    && (forall id :: id in s.ops && s.ops[id].op.Accept? ==> AcceptorOf(s, id, s.ops[id].op.server))
  }

  ghost predicate AcceptorOf(s: State, id: OpId, v: ServerId)
    requires id in s.ops
  {
    v < s.nextServer && (if v in s.servers then s.servers[v].accept == Some(id) else Aborted(s.ops[id].phase))
  }

  /** An accepted connection whose handler has not run yet is nobody else's; no number is used twice. */
  ghost predicate Fresh(s: State) {
    && (forall id :: id in s.ops && Arrived(s.ops[id]) ==>
          s.ops[id].phase.n in s.peers && s.ops[id].phase.n !in s.conns && s.peers[s.ops[id].phase.n].closedAt.None?)
    && (forall i, j :: i in s.ops && j in s.ops && i != j && Arrived(s.ops[i]) && Arrived(s.ops[j]) ==>
          s.ops[i].phase.n != s.ops[j].phase.n)
    && (forall i :: 0 <= i < |s.accepts| ==> s.accepts[i].1 < s.nextConn)
    && (forall i, j :: 0 <= i < j < |s.accepts| ==> s.accepts[i].1 < s.accepts[j].1)
  }

  ghost predicate Arrived(o: Pending) {
    o.op.Accept? && o.phase.Ready? && o.phase.ec.None?
  }

  /** The connection a server has accepted and not announced. */
  ghost function Waiting(s: State, v: ServerId): seq<ConnId> {
    if v in s.servers && s.servers[v].accept.Some? && s.servers[v].accept.value in s.ops
       && Arrived(s.ops[s.servers[v].accept.value])
    then [s.ops[s.servers[v].accept.value].phase.n] else []
  }

  ghost predicate AcceptInv(s: State) {
    forall v: ServerId :: Accepted(s.accepts, v) == Announced(s.log, v) + Waiting(s, v)
  }

  ghost predicate Ledger(s: State) {
    Books(s) && LogInv(s) && OpsInv(s)
  }

  ghost predicate Objects(s: State, z: Option<ConnId>) {
    Refs(s, z) && Readers(s) && Sockets(s)
  }

  ghost predicate Streams(s: State) {
    DataInv(s) && SilentInv(s)
  }

  ghost predicate Accepts(s: State) {
    Servers(s) && Fresh(s) && AcceptInv(s)
  }

  /** Everything but the queue; `z` may be live without a reference. */
  ghost predicate Core(s: State, z: Option<ConnId>) {
    Ledger(s) && Objects(s, z) && Streams(s) && Accepts(s)
  }

  ghost predicate Inv(s: State) {
    Core(s, None) && QueueInv(s) && |s.queue| <= 1
  }

  /** What the caller asked for, whatever has been transferred since. */
  function Request(op: Op): Op {
    match op
    case Read(_, _, _, _) => op.(got := 0)
    case Write(_, _, _, _) => op.(put := 0)
    case _ => op
  }

  /** Operation `id`, outstanding or completed, is what was asked for by `asked`. */
  ghost predicate Remembered(s: State, id: OpId, asked: Op) {
    || (id in s.ops && Request(s.ops[id].op) == asked)
    || exists k :: 0 <= k < |s.log| && s.log[k].id == id && Request(s.log[k].op) == asked
  }

  /** Operations with all their arguments, results and closures are never forgotten. */
  ghost predicate Persists(s: State, t: State) {
    && s.nextOp <= t.nextOp && s.log <= t.log
    && (forall id :: id in s.ops ==> Remembered(t, id, Request(s.ops[id].op)))
    && (forall c :: c in s.peers && s.peers[c].closedAt.Some? ==>
          c in t.peers && t.peers[c].closedAt == s.peers[c].closedAt)
  }
}
