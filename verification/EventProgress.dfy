/** What runs of the event protocol bring about: handles that are given up stay so and their objects are
    freed, and an operation that is picked often enough is answered. */
module EventProgress {
  import opened Common
  import opened EventLoop
  import opened EventInvariants
  import opened EventSteps
  import opened EventHandlers
  import opened EventRuns
  import opened EventEffects

  // ---------------------------------------------------------------- handles

  /** Handles that are gone do not come back, an object goes only when its socket is closed, and what is
      freed stays freed. */
  ghost predicate Ages(s: State, t: State) {
    && (forall c :: c in s.conns ==> Freed(t, c) || (c in t.conns && (t.conns[c].handle ==> s.conns[c].handle)))
    && (forall c :: Freed(s, c) ==> Freed(t, c))
  }

  lemma AgesTransitive(s: State, t: State, u: State)
    requires Ages(s, t) && Ages(t, u)
    ensures Ages(s, u)
  {
  }

  lemma StartAges(s: State, t: State, op: Op)
    requires Core(s, None) && Starts(s, t, op)
    ensures Ages(s, t)
  {
    hide Core;
    Unnumbered(s);
    if Holds(op) {
      assert forall d :: d in s.conns && d != op.c ==> d in s.conns - {op.c};
      assert forall d :: d in t.conns && d != op.c ==> d in t.conns - {op.c};
    }
  }

  /** Only `c` was touched. */
  lemma OneAges(s: State, u: State, c: ConnId)
    requires Around(s, u, c) && c in s.conns && c in s.peers
    requires c in u.conns ==> u.conns[c].handle ==> s.conns[c].handle
    requires c !in u.conns ==> u.peers[c].closedAt.Some?
    ensures Ages(s, u)
  {
    forall d | d in s.conns && d != c ensures d in u.conns && u.conns[d] == s.conns[d] {
      assert d in s.conns - {c};
    }
    forall d | Freed(s, d) ensures Freed(u, d) {
      assert d in s.peers - {c} && d !in s.conns - {c};
    }
  }

  lemma HandlerAges(s: State, u: State, id: OpId)
    requires CanRun(s, id) && HandlerOutcome(s, u, id)
    ensures Ages(s, u)
  {
    hide Around;
    if Holds(s.ops[id].op) && u.log != s.log {
      OneAges(s, u, s.ops[id].op.c);
    }
  }

  lemma DeleteAges(s: State, t: State, c: ConnId)
    requires GivesUpHandle(s, t, c) && c in s.peers
    ensures Ages(s, t)
  {
    hide Around;
    if s.conns[c].owners == {} {
      OneAges(s, t, c);
    }
  }

  lemma FinishAges(s: State, t: State, id: OpId, ec: Option<Error>, n: nat)
    requires Core(s, None) && Finishes(s, t, id, ec, n)
    ensures Ages(s, t)
  {
    hide Core;
    Unnumbered(s);
    if IsRead(s.ops[id].op) {
      assert forall d :: d in s.conns && d != s.ops[id].op.c ==> d in s.conns - {s.ops[id].op.c};
      assert forall d :: d in t.conns && d != s.ops[id].op.c ==> d in t.conns - {s.ops[id].op.c};
    }
  }

  lemma CloseAges(s: State, t: State, c: ConnId)
    requires ShutsSocket(s, t, c) && c in s.peers
    ensures Ages(s, t)
  {
    OneAges(s, t, c);
  }

  lemma GetAges(s: State, t: State, pick: Option<OpId>, event: Option<Event>)
    requires GetOutcome(s, t, pick, event)
    ensures Ages(s, t)
  {
    hide HandlerOutcome;
    if s.queue == [] && pick.Some? {
      var u :| HandlerOutcome(s, u, pick.value) && HandsOut(u, t, event);
      HandlerAges(s, u, pick.value);
    }
  }

  lemma StepAges(s: State, a: Action)
    requires Inv(s) && Enabled(s, a)
    ensures Ages(s, Step(s, a))
  {
    hide Core, Step, Starts, Finishes, ShutsSocket, GivesUpHandle, GetOutcome;
    var t := Step(s, a);
    StepEffect(s, a);
    match a
    case DoClose(c) => HasPeer(s, c, None); CloseAges(s, t, c);
    case DoDelete(c) => HasPeer(s, c, None); DeleteAges(s, t, c);
    case DoDeleteServer(_) =>
    case DoArrive(_, _) =>
    case DoFinish(id, ec, n) => FinishAges(s, t, id, ec, n);
    case DoGet(pick) =>
      var event :| GetOutcome(s, t, pick, event);
      GetAges(s, t, pick, event);
    case _ => StartAges(s, t, Asked(s, a).value);
  }

  lemma {:induction false} RunAges(s: State, actions: seq<Action>)
    requires Inv(s) && RunEnabled(s, actions)
    ensures Ages(s, Run(s, actions))
    decreases |actions|
  {
    hide Core, Enabled, Step, Ages;
    if actions == [] {
      AgesReflexive(s);
    } else {
      StepKeepsInv(s, actions[0]);
      StepAges(s, actions[0]);
      RunAges(Step(s, actions[0]), actions[1..]);
      AgesTransitive(s, Step(s, actions[0]), Run(s, actions));
    }
  }

  lemma AgesReflexive(s: State)
    ensures Ages(s, s)
  {
  }

  /** A read or write on `c` is outstanding. */
  ghost predicate Busy(s: State, c: ConnId) {
    exists id :: id in s.ops && Holds(s.ops[id].op) && s.ops[id].op.c == c
  }

  /** Once a handle is deleted it is never held again, however the run goes on. The object lives on just as
      long as a read or write on it is outstanding; then it is gone for good, its socket closed and nothing
      on it with the kernel. */
  lemma DeletedForGood(s: State, c: ConnId, actions: seq<Action>)
    requires Inv(s) && Enabled(s, DoDelete(c)) && Inv(Step(s, DoDelete(c)))
    requires RunEnabled(Step(s, DoDelete(c)), actions)
    ensures var t := Run(Step(s, DoDelete(c)), actions);
      && !Held(t, c) && (c in t.conns <==> Busy(t, c))
      && (!Busy(t, c) ==> Freed(t, c) && Quiesced(t, c))
  {
    hide Core, Step, Run, RunEnabled, Around;
    var u, t := Step(s, DoDelete(c)), Run(Step(s, DoDelete(c)), actions);
    DeleteGivesUp(s, c);
    RunKeepsInv(u, actions);
    RunAges(u, actions);
    LiveWhileReferenced(t, c);
    if c !in t.conns {
      GoneQuiesced(t, c);
    }
  }

  /** The kernel has nothing of a connection whose object is gone. */
  lemma GoneQuiesced(t: State, c: ConnId)
    requires Core(t, None) && c !in t.conns
    ensures Quiesced(t, c)
  {
    hide Ledger, Streams, Accepts, Refs, Readers;
  }

  // ---------------------------------------------------------------- answers

  /** A call of `asio_get` that runs the handler of `id`. */
  ghost predicate Picks(s: State, a: Action, id: OpId) {
    s.queue == [] && a == DoGet(Some(id))
  }

  ghost function TimesPicked(s: State, actions: seq<Action>, id: OpId): nat
    requires Inv(s) && RunEnabled(s, actions)
    decreases |actions|
  {
    if actions == [] then 0
    else
      StepKeepsInv(s, actions[0]);
      (if Picks(s, actions[0], id) then 1 else 0) + TimesPicked(Step(s, actions[0]), actions[1..], id)
  }

  /** The handler of another operation leaves `id` what it was. */
  lemma HandlerKeepsOp(s: State, u: State, pick: OpId, id: OpId)
    requires CanRun(s, pick) && HandlerOutcome(s, u, pick) && id != pick && id in s.ops && id in u.ops
    ensures u.ops[id].op == s.ops[id].op
  {
  }

  /** No other step touches an outstanding operation's progress; it is neither lost nor answered but by
      the handler that is run for it. */
  lemma StepKeepsOp(s: State, a: Action, id: OpId)
    requires Inv(s) && Enabled(s, a) && id in s.ops && !Picks(s, a, id)
    ensures id in Step(s, a).ops ==> Step(s, a).ops[id].op == s.ops[id].op
  {
    hide Core, Step, HandlerOutcome, Inv;
    var t := Step(s, a);
    StepEffect(s, a);
    match a
    case DoGet(pick) =>
      var event :| GetOutcome(s, t, pick, event);
      if s.queue == [] && pick.Some? {
        var u :| HandlerOutcome(s, u, pick.value) && HandsOut(u, t, event);
        if id in u.ops {
          HandlerKeepsOp(s, u, pick.value, id);
        }
      }
    case _ =>
  }

  lemma PickProgresses(s: State, id: OpId)
    requires Inv(s) && s.queue == [] && Enabled(s, DoGet(Some(id)))
    ensures var t := Step(s, DoGet(Some(id))); id in t.ops ==>
      Total(t.ops[id].op) == Total(s.ops[id].op) && Progressed(t.ops[id].op) > Progressed(s.ops[id].op)
  {
    hide Core, Step, Get;
    GetProgresses(s, id);
  }

  lemma ProgressBounded(s: State, id: OpId)
    requires Core(s, None) && id in s.ops
    ensures Progressed(s.ops[id].op) <= Total(s.ops[id].op)
  {
    hide Objects, Streams, Accepts;
  }

  /** Every time its handler runs, an operation is answered or comes further. So it is answered before it
      has been picked more often than it had bytes left to transfer; a connect, sleep, accept or
      `read_some` the first time. */
  lemma {:induction false} PickedIsAnswered(s: State, actions: seq<Action>, id: OpId)
    requires Inv(s) && RunEnabled(s, actions) && id in s.ops
    ensures var t := Run(s, actions);
      && (id in t.ops ==>
            && Progressed(s.ops[id].op) + TimesPicked(s, actions, id) <= Progressed(t.ops[id].op)
            && Progressed(t.ops[id].op) <= Total(s.ops[id].op) == Total(t.ops[id].op))
      && (TimesPicked(s, actions, id) > Total(s.ops[id].op) - Progressed(s.ops[id].op) ==>
            id !in t.ops && Logged(t.log, id))
    decreases |actions|
  {
    hide Core, Enabled, Step;
    var t := Run(s, actions);
    IssuedBefore(s, id);
    if actions != [] {
      var a, u := actions[0], Step(s, actions[0]);
      StepKeepsInv(s, a);
      if id in u.ops {
        if Picks(s, a, id) {
          PickProgresses(s, id);
        } else {
          StepKeepsOp(s, a, id);
        }
        PickedIsAnswered(u, actions[1..], id);
      } else {
        AnsweredStays(u, actions[1..], id);
      }
    }
    RunKeepsInv(s, actions);
    RunPersists(s, actions);
    CompletesOnce(t, id);
    if id in t.ops {
      ProgressBounded(t, id);
    }
  }

  lemma IssuedBefore(s: State, id: OpId)
    requires Core(s, None) && id in s.ops
    ensures id < s.nextOp
  {
  }

  /** What is no longer outstanding stays so. */
  lemma AnsweredStays(s: State, actions: seq<Action>, id: OpId)
    requires Inv(s) && RunEnabled(s, actions) && id !in s.ops && id < s.nextOp
    ensures id !in Run(s, actions).ops
  {
    hide Core, Enabled, Step, Run, RunEnabled;
    RunKeepsInv(s, actions);
    RunPersists(s, actions);
    CompletesOnce(s, id);
    CompletesOnce(Run(s, actions), id);
    var k :| 0 <= k < |s.log| && s.log[k].id == id;
    assert Run(s, actions).log[k] == s.log[k];
  }

  // ---------------------------------------------------------------- round trips

  /** The operating system finishes an operation, and the next `asio_get` runs its handler. */
  lemma FinishThenGet(u: State, id: OpId, ec: Option<Error>, n: nat) returns (h: State)
    requires Inv(u) && u.queue == [] && Enabled(u, DoFinish(id, ec, n))
    ensures var v := Step(u, DoFinish(id, ec, n));
      && Inv(v) && v.queue == [] && Finishes(u, v, id, ec, n) && Enabled(v, DoGet(Some(id))) && CanRun(v, id)
      && HandlerOutcome(v, h, id) && HandsOut(h, Step(v, DoGet(Some(id))), Get(v, Some(id)).1)
  {
    hide Core, Step, HandlerOutcome;
    var v := Step(u, DoFinish(id, ec, n));
    StepKeepsInv(u, DoFinish(id, ec, n));
    StepEffect(u, DoFinish(id, ec, n));
    StepEffect(v, DoGet(Some(id)));
    GetDoes(v, Some(id));
    h :| HandlerOutcome(v, h, id) && HandsOut(h, Step(v, DoGet(Some(id))), Get(v, Some(id)).1);
  }

  /** The results of `asio_get` after a call that the operating system finishes without an error. */
  ghost predicate ComesBack(s: State, a: Action, n: nat, event: Event)
    requires Inv(s) && Enabled(s, a)
  {
    var u, id := Step(s, a), s.nextOp;
    && Inv(u) && Enabled(u, DoFinish(id, None, n))
    && var v := Step(u, DoFinish(id, None, n));
       && Inv(v) && Enabled(v, DoGet(Some(id)))
       && Step(v, DoGet(Some(id))).delivered == s.delivered + [event]
  }

  /** On an open connection a transfer of something starts with the kernel. */
  lemma TransferBegins(s: State, u: State, op: Op)
    requires Starts(s, u, op) && Holds(op) && s.conns[op.c].open && Room(op) > 0
    ensures s.nextOp in u.ops && u.ops[s.nextOp].op == op && u.ops[s.nextOp].phase.InKernel?
    ensures u.peers == s.peers && u.queue == s.queue && u.delivered == s.delivered
  {
  }

  /** What a finished read has taken is the next of the peer's stream. */
  lemma TakesNext(u: State, v: State, id: OpId, n: nat)
    requires Finishes(u, v, id, None, n) && IsRead(u.ops[id].op) && u.ops[id].op.c in u.peers
    requires u.peers[u.ops[id].op.c].consumed + n <= |u.peers[u.ops[id].op.c].stream|
    ensures v.ops[id] == Pending(u.ops[id].op, Ready(None, n)) && v.delivered == u.delivered
    ensures u.ops[id].op.c in v.peers
    ensures var p := u.peers[u.ops[id].op.c];
      LastBytes(v.peers[u.ops[id].op.c], n) == p.stream[p.consumed..p.consumed + n]
  {
  }

  lemma EndHandsOut(v: State, h: State, t: State, id: OpId, event: Event, got: Option<Event>)
    requires CanRun(v, id) && Holds(v.ops[id].op) && v.queue == []
    requires EndsWith(v, h, id, [event]) && HandsOut(h, t, got)
    ensures t.delivered == v.delivered + [event]
  {
  }

  /** A read on an open connection with enough of the peer's stream still to come returns exactly the next
      `size` bytes of it, to the caller's `destId`. */
  lemma ReadRoundTrip(s: State, c: ConnId, size: nat, d: int)
    requires Inv(s) && s.queue == [] && Enabled(s, DoRead(c, size, d)) && s.conns[c].open
    requires c in s.peers && 0 < size && s.peers[c].consumed + size <= |s.peers[c].stream|
    ensures var at := s.peers[c].consumed;
      ComesBack(s, DoRead(c, size, d), size, Continue(d, Connection(c), s.peers[c].stream[at..at + size]))
  {
    hide Core, Step, Starts, EndsWith, Finishes, LastBytes, HandsOut;
    var a, id, p := DoRead(c, size, d), s.nextOp, s.peers[c];
    var u := Step(s, a);
    StepKeepsInv(s, a);
    CallStarts(s, a);
    TransferBegins(s, u, Read(c, size, 0, d));
    var h := FinishThenGet(u, id, None, size);
    var v := Step(u, DoFinish(id, None, size));
    TakesNext(u, v, id, size);
    EndHandsOut(v, h, Step(v, DoGet(Some(id))), id,
                Continue(d, Connection(c), p.stream[p.consumed..p.consumed + size]), Get(v, Some(id)).1);
  }

  /** A `read_some` returns the bytes that the operating system moved, whatever their number. */
  lemma ReadSomeRoundTrip(s: State, c: ConnId, n: nat, d: int)
    requires Inv(s) && s.queue == [] && Enabled(s, DoReadSome(c, d)) && s.conns[c].open
    requires c in s.peers && 0 < n <= MAX_BUFF_SIZE && s.peers[c].consumed + n <= |s.peers[c].stream|
    ensures var at := s.peers[c].consumed;
      ComesBack(s, DoReadSome(c, d), n, Continue(d, Connection(c), s.peers[c].stream[at..at + n]))
  {
    hide Core, Step, Starts, EndsWith, Finishes, LastBytes, HandsOut;
    var a, id, p := DoReadSome(c, d), s.nextOp, s.peers[c];
    var u := Step(s, a);
    StepKeepsInv(s, a);
    CallStarts(s, a);
    TransferBegins(s, u, ReadSome(c, d));
    var h := FinishThenGet(u, id, None, n);
    var v := Step(u, DoFinish(id, None, n));
    TakesNext(u, v, id, n);
    EndHandsOut(v, h, Step(v, DoGet(Some(id))), id,
                Continue(d, Connection(c), p.stream[p.consumed..p.consumed + n]), Get(v, Some(id)).1);
  }

  /** A write on an open connection is answered with the connection once all of it is handed over. */
  lemma WriteRoundTrip(s: State, c: ConnId, data: seq<byte>, d: int)
    requires Inv(s) && s.queue == [] && Enabled(s, DoWrite(c, data, d)) && s.conns[c].open && data != []
    ensures ComesBack(s, DoWrite(c, data, d), |data|, Continue(d, Connection(c), []))
  {
    hide Core, Step, Starts, EndsWith, HandsOut;
    var a, id := DoWrite(c, data, d), s.nextOp;
    var u := Step(s, a);
    StepKeepsInv(s, a);
    CallStarts(s, a);
    TransferBegins(s, u, Write(c, data, 0, d));
    var h := FinishThenGet(u, id, None, |data|);
    var v := Step(u, DoFinish(id, None, |data|));
    EndHandsOut(v, h, Step(v, DoGet(Some(id))), id, Continue(d, Connection(c), []), Get(v, Some(id)).1);
  }

  lemma SleepRoundTrip(s: State, d: int)
    requires Inv(s) && s.queue == []
    ensures ComesBack(s, DoSleep(d), 0, Continue(d, Null, []))
  {
    hide Core, Step;
    StepKeepsInv(s, DoSleep(d));
    StepEffect(s, DoSleep(d));
    var h := FinishThenGet(Step(s, DoSleep(d)), s.nextOp, None, 0);
  }

  lemma ConnectRoundTrip(s: State, d: int)
    requires Inv(s) && s.queue == []
    ensures ComesBack(s, DoConnect(d), 0, Continue(d, Connection(s.nextConn), []))
  {
    hide Core, Step;
    StepKeepsInv(s, DoConnect(d));
    StepEffect(s, DoConnect(d));
    var h := FinishThenGet(Step(s, DoConnect(d)), s.nextOp, None, 0);
  }

  /** A server announces a new connection at its port, and the caller holds it from then on. */
  lemma ServeRoundTrip(s: State, port: int)
    requires Inv(s) && s.queue == []
    ensures ComesBack(s, DoServe(port), 0, Event(EVT_ACCEPT, port, Handle(s.nextConn), []))
  {
    hide Core, Step;
    StepKeepsInv(s, DoServe(port));
    StepEffect(s, DoServe(port));
    var h := FinishThenGet(Step(s, DoServe(port)), s.nextOp, None, 0);
  }
}
