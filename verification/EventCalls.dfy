/** Runs seen from the caller's side: what was asked for, and what `asio_get` answered. */
module EventCalls {
  import opened Common
  import opened EventLoop
  import opened EventInvariants
  import opened EventSteps
  import opened EventHandlers
  import opened EventRuns
  import opened EventEffects

  // ---------------------------------------------------------------- what was asked for

  /** A call starts the operation it asks for; no other step starts one, but for the next accept of a
      server, which repeats the last. */
  ghost predicate StartsAsAsked(s: State, t: State, asked: Option<Op>) {
    if asked.Some? then
      && Request(asked.value) == asked.value
      && t.nextOp == s.nextOp + 1 && s.nextOp in t.ops && t.ops[s.nextOp].op == asked.value
    else t.nextOp == s.nextOp || Repeats(s, t)
  }

  ghost predicate Repeats(s: State, t: State) {
    && t.nextOp == s.nextOp + 1 && s.nextOp in t.ops && t.ops[s.nextOp].op.Accept?
    && exists id :: id in s.ops && s.ops[id].op == t.ops[s.nextOp].op
  }

  lemma StepStarts(s: State, a: Action)
    requires Inv(s) && Enabled(s, a)
    ensures StartsAsAsked(s, Step(s, a), Asked(s, a))
  {
    hide Core, RunHandler, Finish;
    match a
    case DoGet(pick) =>
      if s.queue == [] && pick.Some? {
        ReadyCanRun(s, pick.value);
        HandlerStarts(s, pick.value);
      }
    case DoFinish(id, ec, n) =>
      TransferFits(s, id, ec, n);
      FinishStarts(s, id, ec, n);
    case _ =>
  }

  lemma FinishStarts(s: State, id: OpId, ec: Option<Error>, n: nat)
    requires CanFinish(s, id, ec, n)
    requires IsRead(s.ops[id].op) ==>
      (s.ops[id].op.c in s.conns && Offset(s.ops[id].op) + n <= |s.conns[s.ops[id].op.c].readBuf|)
    ensures Finish(s, id, ec, n).nextOp == s.nextOp
  {
  }

  lemma HandlerStarts(s: State, id: OpId)
    requires Core(s, None) && CanRun(s, id)
    ensures RunHandler(s, id).nextOp == s.nextOp || Repeats(s, RunHandler(s, id))
  {
    hide Core;
    if s.ops[id].op.Accept? {
      AcceptFacts(s, id);
    }
  }

  /** The operations the caller asks for in the course of a run, each with its number. */
  ghost function Calls(s: State, actions: seq<Action>): seq<(OpId, Op)>
    requires Inv(s) && RunEnabled(s, actions)
    decreases |actions|
  {
    if actions == [] then []
    else
      StepKeepsInv(s, actions[0]);
      Numbered(s, Asked(s, actions[0])) + Calls(Step(s, actions[0]), actions[1..])
  }

  function Numbered(s: State, asked: Option<Op>): seq<(OpId, Op)> {
    if asked.Some? then [(s.nextOp, asked.value)] else []
  }

  /** `op` is one of `calls`: the one numbered `id`, or, for an accept, the one that made its server. */
  ghost predicate Explained(calls: seq<(OpId, Op)>, id: OpId, op: Op) {
    exists i :: 0 <= i < |calls| && calls[i].1 == Request(op) && (calls[i].0 == id || op.Accept?)
  }

  /** The operations outstanding or completed are those that were asked for, one for one. */
  ghost predicate Matches(s: State, calls: seq<(OpId, Op)>) {
    && (forall i :: 0 <= i < |calls| ==> calls[i].0 < s.nextOp && Remembered(s, calls[i].0, calls[i].1))
    && (forall i, j :: 0 <= i < j < |calls| ==> calls[i].0 < calls[j].0)
    && (forall id :: id in s.ops ==> Explained(calls, id, s.ops[id].op))
    && (forall k :: 0 <= k < |s.log| ==> Explained(calls, s.log[k].id, s.log[k].op))
  }

  /** What was remembered stays so. */
  lemma RememberedStays(s: State, t: State, id: OpId, asked: Op)
    requires Remembered(s, id, asked) && Persists(s, t)
    ensures Remembered(t, id, asked)
  {
    if k :| 0 <= k < |s.log| && s.log[k].id == id && Request(s.log[k].op) == asked {
      assert t.log[k] == s.log[k];
    }
  }

  /** An operation from before a step is known by the same request after it. */
  lemma OldRequest(s: State, t: State, id: OpId)
    requires Books(s) && Books(t) && Persists(s, t) && id < s.nextOp
    ensures id in t.ops ==> id in s.ops && Request(t.ops[id].op) == Request(s.ops[id].op)
    ensures forall k :: |s.log| <= k < |t.log| && t.log[k].id == id ==>
      id in s.ops && Request(t.log[k].op) == Request(s.ops[id].op)
  {
    if id !in s.ops {
      var k :| 0 <= k < |s.log| && s.log[k].id == id;
      assert t.log[k] == s.log[k];
      assert Logged(t.log, id);
    } else {
      assert Remembered(t, id, Request(s.ops[id].op));
      OneAnswer(t, id);
    }
  }

  lemma OneAnswer(t: State, id: OpId)
    requires Books(t)
    ensures id in t.ops ==> forall k :: 0 <= k < |t.log| ==> t.log[k].id != id
    ensures forall i, j :: 0 <= i < |t.log| && 0 <= j < |t.log| && t.log[i].id == t.log[j].id == id ==> i == j
  {
    if k :| 0 <= k < |t.log| && t.log[k].id == id {
      assert Logged(t.log, id);
    }
  }

  lemma ExplainedAs(calls: seq<(OpId, Op)>, more: seq<(OpId, Op)>, id: OpId, op: Op, id2: OpId, op2: Op)
    requires Explained(calls, id, op) && Request(op2) == Request(op) && (id2 == id || op.Accept?)
    ensures Explained(calls + more, id2, op2)
  {
    var i :| 0 <= i < |calls| && calls[i].1 == Request(op) && (calls[i].0 == id || op.Accept?);
    assert (calls + more)[i] == calls[i];
  }

  /** An operation outstanding after a step is one from before it or the one the step started. */
  lemma OutstandingExplained(s: State, t: State, id: OpId, asked: Option<Op>, calls: seq<(OpId, Op)>)
    requires Books(s) && Books(t) && Persists(s, t) && StartsAsAsked(s, t, asked) && Matches(s, calls) && id in t.ops
    ensures Explained(calls + Numbered(s, asked), id, t.ops[id].op)
  {
    hide Remembered, Persists, Explained;
    if id < s.nextOp {
      OldRequest(s, t, id);
      ExplainedAs(calls, Numbered(s, asked), id, s.ops[id].op, id, t.ops[id].op);
    } else if asked.Some? {
      NewExplained(calls, id, asked.value);
    } else {
      var last :| last in s.ops && s.ops[last].op == t.ops[id].op;
      ExplainedAs(calls, [], last, s.ops[last].op, id, t.ops[id].op);
    }
  }

  lemma NewExplained(calls: seq<(OpId, Op)>, id: OpId, op: Op)
    requires Request(op) == op
    ensures Explained(calls + [(id, op)], id, op)
  {
    assert (calls + [(id, op)])[|calls|] == (id, op);
  }

  /** An operation completed by a step was outstanding before it. */
  lemma CompletedExplained(s: State, t: State, k: nat, asked: Option<Op>, calls: seq<(OpId, Op)>)
    requires Books(s) && Books(t) && Persists(s, t) && StartsAsAsked(s, t, asked) && Matches(s, calls)
    requires |s.log| <= k < |t.log|
    ensures Explained(calls + Numbered(s, asked), t.log[k].id, t.log[k].op)
  {
    hide Remembered, Explained;
    var id := t.log[k].id;
    OneAnswer(t, id);
    assert Logged(t.log, id);
    OldRequest(s, t, id);
    ExplainedAs(calls, Numbered(s, asked), id, s.ops[id].op, id, t.log[k].op);
  }

  lemma StepMatches(s: State, a: Action, calls: seq<(OpId, Op)>)
    requires Inv(s) && Enabled(s, a) && Matches(s, calls)
    ensures Matches(Step(s, a), calls + Numbered(s, Asked(s, a)))
  {
    hide Objects, Streams, Accepts, Step, Enabled, Asked, Explained, Remembered, Persists, LogInv, OpsInv;
    var t, asked := Step(s, a), Asked(s, a);
    StepKeepsInv(s, a);
    StepStarts(s, a);
    CallsRemembered(s, t, asked, calls);
    forall id | id in t.ops ensures Explained(calls + Numbered(s, asked), id, t.ops[id].op) {
      OutstandingExplained(s, t, id, asked, calls);
    }
    forall k | 0 <= k < |t.log| ensures Explained(calls + Numbered(s, asked), t.log[k].id, t.log[k].op) {
      if k < |s.log| {
        LogGrows(s, t, k);
        ExplainedAs(calls, Numbered(s, asked), t.log[k].id, t.log[k].op, t.log[k].id, t.log[k].op);
      } else {
        CompletedExplained(s, t, k, asked, calls);
      }
    }
  }

  lemma LogGrows(s: State, t: State, k: nat)
    requires Persists(s, t) && k < |s.log|
    ensures k < |t.log| && t.log[k] == s.log[k]
  {
  }

  lemma CallsRemembered(s: State, t: State, asked: Option<Op>, calls: seq<(OpId, Op)>)
    requires Persists(s, t) && StartsAsAsked(s, t, asked) && Matches(s, calls)
    ensures var all := calls + Numbered(s, asked);
      && (forall i :: 0 <= i < |all| ==> all[i].0 < t.nextOp && Remembered(t, all[i].0, all[i].1))
      && (forall i, j :: 0 <= i < j < |all| ==> all[i].0 < all[j].0)
  {
    hide Explained;
    var all := calls + Numbered(s, asked);
    forall i | 0 <= i < |all| ensures all[i].0 < t.nextOp && Remembered(t, all[i].0, all[i].1) {
      if i < |calls| {
        assert all[i] == calls[i];
        RememberedStays(s, t, calls[i].0, calls[i].1);
      }
    }
  }

  lemma {:induction false} RunMatches(s: State, actions: seq<Action>, calls: seq<(OpId, Op)>)
    requires Inv(s) && RunEnabled(s, actions) && Matches(s, calls)
    ensures Matches(Run(s, actions), calls + Calls(s, actions))
    decreases |actions|
  {
    hide Inv, Enabled, Step, Matches, Asked;
    if actions == [] {
      assert calls + [] == calls;
    } else {
      var t, first := Step(s, actions[0]), Numbered(s, Asked(s, actions[0]));
      StepKeepsInv(s, actions[0]);
      StepMatches(s, actions[0], calls);
      RunMatches(t, actions[1..], calls + first);
      assert (calls + first) + Calls(t, actions[1..]) == calls + (first + Calls(t, actions[1..]));
    }
  }

  // ---------------------------------------------------------------- runs from the start

  ghost predicate PossibleRun(actions: seq<Action>) {
    InitialInv();
    RunEnabled(Initial(), actions)
  }

  /** The state a run from the start ends in. */
  ghost function After(actions: seq<Action>): (t: State)
    requires PossibleRun(actions)
    ensures Inv(t)
  {
    InitialInv();
    RunKeepsInv(Initial(), actions);
    Run(Initial(), actions)
  }

  /** The calls of a run from the start: the numbers and arguments of the operations asked for. */
  ghost function History(actions: seq<Action>): (calls: seq<(OpId, Op)>)
    requires PossibleRun(actions)
    ensures Matches(After(actions), calls)
  {
    InitialInv();
    RunMatches(Initial(), actions, []);
    assert [] + Calls(Initial(), actions) == Calls(Initial(), actions);
    Calls(Initial(), actions)
  }

  /** Completion `k` answers the request `op`, every event of it with the `destId` of the request. */
  ghost predicate Answers(t: State, k: nat, id: OpId, op: Op) {
    && k < |t.log| && t.log[k].id == id && Request(t.log[k].op) == op && Answered(t.log[k])
    && (forall e :: e in t.log[k].events ==> e.destId == Dest(op))
  }

  /** Every call is either still outstanding, just as it was asked for, or has been answered once, with
      its own `destId`; no two calls are the same operation. */
  lemma CallsAnsweredOnce(actions: seq<Action>, i: nat)
    requires PossibleRun(actions) && i < |History(actions)|
    ensures var t := After(actions); var (id, op) := History(actions)[i];
      && (if id in t.ops then Request(t.ops[id].op) == op && !Logged(t.log, id)
          else exists k :: Answers(t, k, id, op) && forall j :: 0 <= j < |t.log| && t.log[j].id == id ==> j == k)
      && (forall j :: 0 <= j < |History(actions)| && History(actions)[j].0 == id ==> j == i)
  {
    hide Objects, Streams, Accepts, OpsInv, Answered, Explained, Run, RunEnabled;
    var t := After(actions);
    var (id, op) := History(actions)[i];
    assert Remembered(t, id, op);
    OneAnswer(t, id);
    if id !in t.ops {
      var k :| 0 <= k < |t.log| && t.log[k].id == id && Request(t.log[k].op) == op;
      assert Answered(t.log[k]);
      EventsCarryDest(t.log[k]);
      assert Answers(t, k, id, op);
    }
  }

  /** Conversely, every result of `asio_get` is part of the answer to one of the calls, and carries the
      `destId` the caller gave there; for an announcement, the call is the one that made the server. */
  lemma ResultsAnswerCalls(actions: seq<Action>, i: nat) returns (k: nat, j: nat)
    requires PossibleRun(actions) && i < |After(actions).delivered|
    ensures k < |After(actions).log| && j < |History(actions)|
    ensures var t, at := After(actions), |Flatten(After(actions).log[..k])|;
      at <= i < at + |t.log[k].events| && t.delivered[i] == t.log[k].events[i - at]
    ensures var t := After(actions); var (id, op) := History(actions)[j];
      && Request(t.log[k].op) == op && (t.log[k].id == id || op.Accept?)
      && t.delivered[i].destId == Dest(op)
      && t.delivered[i].kind == if op.Accept? then EVT_ACCEPT else EVT_CONTINUE
  {
    hide Core, Run, RunEnabled, Remembered;
    var t, calls := After(actions), History(actions);
    k := EveryResultAnswers(t, i);
    assert Explained(calls, t.log[k].id, t.log[k].op);
    j :| 0 <= j < |calls| && calls[j].1 == Request(t.log[k].op) && (calls[j].0 == t.log[k].id || t.log[k].op.Accept?);
  }

  /** What holds of the state after any run from the start: at most one event is queued, what was pushed
      is what was handed out and is queued, the data handed out for each connection is a prefix of its
      peer's stream, and every live server waits for a connection unless an accept of its was aborted. */
  lemma FromTheStart(actions: seq<Action>)
    requires PossibleRun(actions)
    ensures var t := After(actions);
      && |t.queue| <= 1 && t.delivered + t.queue == Flatten(t.log)
      && (forall c :: c in t.peers ==> Handed(t, c) <= t.peers[c].stream)
      && (forall v :: v in t.servers ==> t.servers[v].accept.Some? || AbortedOnce(t.log, v))
      && (forall v: ServerId :: Shown(t, v) <= Accepted(t.accepts, v))
  {
    hide Core, RunEnabled, Run;
    var t := After(actions);
    InitialInv();
    ServersStayArmed(Initial(), actions);
    forall c | c in t.peers ensures Handed(t, c) <= t.peers[c].stream {
      DataIsPrefix(t, c);
    }
    forall v: ServerId ensures Shown(t, v) <= Accepted(t.accepts, v) {
      AnnouncedInOrder(t, v);
    }
  }
}
