/** Whole runs of the event protocol. */
module EventRuns {
  import opened Common
  import opened EventLoop
  import opened EventInvariants
  import opened EventSteps
  import opened EventHandlers

  // ---------------------------------------------------------------- one action

  ghost function Step(s: State, a: Action): State
    requires Inv(s) && Enabled(s, a)
  {
    match a
    case DoConnect(d) => NewConnect(s, d)
    case DoServe(port) => NewServer(s, port)
    case DoSleep(d) => StartSleep(s, d)
    case DoRead(c, size, d) => StartRead(s, c, size, d)
    case DoReadSome(c, d) => StartReadSome(s, c, d)
    case DoWrite(c, data, d) => StartWrite(s, c, data, d)
    case DoClose(c) => CloseSocket(s, c)
    case DoDelete(c) => DropHandle(s, c)
    case DoDeleteServer(v) => DeleteServer(s, v)
    case DoArrive(c, data) => Arrive(s, c, data)
    case DoFinish(id, ec, n) => TransferFits(s, id, ec, n); Finish(s, id, ec, n)
    case DoGet(pick) =>
      if s.queue == [] && pick.Some? then HandlersCanRun(s, pick.value); Get(s, pick).0 else Get(s, pick).0
  }

  /** A transfer the kernel may make stays inside the buffer it was given. */
  lemma TransferFits(s: State, id: OpId, ec: Option<Error>, n: nat)
    requires Core(s, None) && CanFinish(s, id, ec, n)
    ensures IsRead(s.ops[id].op) ==>
      (s.ops[id].op.c in s.conns && Offset(s.ops[id].op) + n <= |s.conns[s.ops[id].op.c].readBuf|)
  {
    if IsRead(s.ops[id].op) {
      assert BufferInv(s, s.ops[id].op.c);
    }
  }

  /** An action other than `asio_get`: nothing is queued, handed out or logged. */
  ghost predicate Quiet(s: State, t: State) {
    Core(t, None) && Persists(s, t) && t.queue == s.queue && t.delivered == s.delivered && t.log == s.log
  }

  lemma ConnectQuiet(s: State, d: int)
    requires Core(s, None)
    ensures Quiet(s, NewConnect(s, d))
  {
    hide Core;
    var c := s.nextConn;
    var t := s.(peers := s.peers[c := Peer([], 0, false, None)], nextConn := c + 1);
    NumberKeeps(s, t);
    Unnumbered(s);
    var u := t.(conns := t.conns[c := NEW_CONN]);
    JoinKeeps(t, u, c);
    IssueKeeps(u, NewConnect(s, d), Connect(c, d), InKernel);
    StartedPersists(s, NewConnect(s, d));
  }

  lemma Unnumbered(s: State)
    requires Core(s, None)
    ensures s.nextConn !in s.conns && s.nextConn !in s.peers
    ensures forall id :: id in s.ops && Arrived(s.ops[id]) ==> s.ops[id].phase.n != s.nextConn
    ensures forall i :: 0 <= i < |s.accepts| ==> s.accepts[i].1 < s.nextConn
  {
  }

  lemma ServeQuiet(s: State, port: int)
    requires Core(s, None)
    ensures Quiet(s, NewServer(s, port))
  {
    hide Core;
    var t := s.(servers := s.servers[s.nextServer := Server(port, None)], nextServer := s.nextServer + 1);
    OpenKeeps(s, t, port);
    ArmKeeps(t, NewServer(s, port), s.nextServer);
    StartedPersists(s, NewServer(s, port));
  }

  lemma SleepQuiet(s: State, d: int)
    requires Core(s, None)
    ensures Quiet(s, StartSleep(s, d))
  {
    hide Core;
    IssueKeeps(s, StartSleep(s, d), Sleep(d), InKernel);
    StartedPersists(s, StartSleep(s, d));
  }

  lemma ReadQuiet(s: State, c: ConnId, size: nat, d: int)
    requires Core(s, None) && c in s.conns && s.conns[c].reader.None?
    ensures Quiet(s, StartRead(s, c, size, d))
  {
    hide Core;
    IssueKeeps(s, StartRead(s, c, size, d), Read(c, size, 0, d), IssuePhase(s.conns[c].open, size));
    StartedPersists(s, StartRead(s, c, size, d));
  }

  lemma ReadSomeQuiet(s: State, c: ConnId, d: int)
    requires Core(s, None) && c in s.conns && s.conns[c].reader.None?
    ensures Quiet(s, StartReadSome(s, c, d))
  {
    hide Core;
    IssueKeeps(s, StartReadSome(s, c, d), ReadSome(c, d), IssuePhase(s.conns[c].open, MAX_BUFF_SIZE));
    StartedPersists(s, StartReadSome(s, c, d));
  }

  lemma WriteQuiet(s: State, c: ConnId, data: seq<byte>, d: int)
    requires Core(s, None) && c in s.conns
    ensures Quiet(s, StartWrite(s, c, data, d))
  {
    hide Core;
    IssueKeeps(s, StartWrite(s, c, data, d), Write(c, data, 0, d), IssuePhase(s.conns[c].open, |data|));
    StartedPersists(s, StartWrite(s, c, data, d));
  }

  lemma CloseQuiet(s: State, c: ConnId)
    requires Core(s, None) && c in s.conns && c in s.peers
    ensures Quiet(s, CloseSocket(s, c))
  {
    hide Core;
    ClosePersists(s, c, None);
    if s.conns[c].open {
      CloseKeeps(s, c, None);
    }
  }

  lemma DeleteQuiet(s: State, c: ConnId)
    requires Core(s, None) && c in s.conns && c in s.peers
    ensures Quiet(s, DropHandle(s, c))
  {
    hide Core;
    var t := s.(conns := s.conns[c := s.conns[c].(handle := false)]);
    DropKeeps(s, t, c);
    ReleaseSame(t, c);
    ReleaseKeeps(t, c);
  }

  lemma ArriveQuiet(s: State, c: ConnId, data: seq<byte>)
    requires Core(s, None) && c in s.peers
    ensures Quiet(s, Arrive(s, c, data))
  {
    hide Core;
    ExtendKeeps(s, Arrive(s, c, data), c, data);
  }

  lemma FinishQuiet(s: State, id: OpId, ec: Option<Error>, n: nat)
    requires Core(s, None) && CanFinish(s, id, ec, n)
    requires IsRead(s.ops[id].op) ==>
      (s.ops[id].op.c in s.conns && Offset(s.ops[id].op) + n <= |s.conns[s.ops[id].op.c].readBuf|)
    ensures Quiet(s, Finish(s, id, ec, n))
  {
    hide Core;
    var op, t := s.ops[id].op, Finish(s, id, ec, n);
    InKernelFacts(s, id);
    if IsRead(op) {
      FillKeeps(s, t, id, ec, n);
    } else if op.Accept? && ec.None? {
      var u := s.(peers := s.peers[s.nextConn := Peer([], 0, false, None)], nextConn := s.nextConn + 1);
      NumberKeeps(s, u);
      Unnumbered(s);
      LandKeeps(u, t, id, s.nextConn);
    } else if op.Accept? {
      RefuseKeeps(s, t, id, ec.value, n);
    } else {
      AdvanceKeeps(s, t, id, Pending(op, Ready(ec, n)));
    }
  }

  lemma InKernelFacts(s: State, id: OpId)
    requires Core(s, None) && id in s.ops
    ensures OpInv(s.ops[id].op, s.ops[id].phase)
  {
  }

  /** Taking an event off the queue touches nothing else. */
  lemma DeliverKeeps(s: State, t: State)
    requires Core(s, None) && t == s.(queue := t.queue, delivered := t.delivered)
    ensures Core(t, None)
  {
    hide Books, LogInv, OpsInv, Refs, Readers, Sockets, DataInv, SilentInv, Servers, Fresh, AcceptInv;
    SameLedger(s, t);
    SameObjects(s, t);
    SameStreams(s, t);
    DeliverAccepts(s, t);
  }

  lemma DeliverAccepts(s: State, t: State)
    requires Accepts(s) && t == s.(queue := t.queue, delivered := t.delivered)
    ensures Accepts(t)
  {
    assert forall v: ServerId :: Waiting(t, v) == Waiting(s, v);
  }

  /** The queue after a handler has run on an empty one: the events of at most one operation. */
  lemma HandledQueue(s: State, t: State, id: OpId)
    requires Handled(s, t, id) && s.delivered == Flatten(s.log) && s.queue == []
    ensures t.delivered + t.queue == Flatten(t.log) && |t.queue| <= 2
  {
    hide Core;
    if t.log != s.log {
      var x := t.log[|s.log|];
      assert t.log == s.log + [x];
      FlattenAppend(s.log, x);
    }
  }

  lemma GetKeepsInv(s: State, pick: Option<OpId>)
    requires Inv(s) && (s.queue == [] && pick.Some? ==> CanRun(s, pick.value))
    ensures Inv(Get(s, pick).0) && Persists(s, Get(s, pick).0)
  {
    hide Core, RunHandler;
    if s.queue == [] && pick.Some? {
      assert s.delivered == Flatten(s.log);
      RunHandled(s, pick.value);
      var t := RunHandler(s, pick.value);
      HandledQueue(s, t, pick.value);
      Delivered(t, Get(s, pick).0);
    } else {
      Delivered(s, Get(s, pick).0);
    }
  }

  lemma Delivered(s: State, t: State)
    requires Core(s, None) && QueueInv(s) && |s.queue| <= 2
    requires t == if s.queue == [] then s else s.(queue := s.queue[1..], delivered := s.delivered + [s.queue[0]])
    ensures Inv(t)
  {
    hide Core;
    DeliverKeeps(s, t);
    if s.queue != [] {
      assert t.delivered + t.queue == s.delivered + s.queue;
    }
  }

  lemma StepKeepsInv(s: State, a: Action)
    requires Inv(s) && Enabled(s, a)
    ensures Inv(Step(s, a)) && Persists(s, Step(s, a))
    ensures !a.DoGet? ==> Quiet(s, Step(s, a))
  {
    hide Core, CloseSocket, DropHandle, DeleteServer, Finish, Get;
    hide NewConnect, NewServer, StartSleep, StartRead, StartReadSome, StartWrite, Arrive, Persists;
    match a
    case DoConnect(d) => ConnectQuiet(s, d);
    case DoServe(port) => ServeQuiet(s, port);
    case DoSleep(d) => SleepQuiet(s, d);
    case DoRead(c, size, d) => ReadQuiet(s, c, size, d);
    case DoReadSome(c, d) => ReadSomeQuiet(s, c, d);
    case DoWrite(c, data, d) => WriteQuiet(s, c, data, d);
    case DoClose(c) => HasPeer(s, c, None); CloseQuiet(s, c);
    case DoDelete(c) => HasPeer(s, c, None); DeleteQuiet(s, c);
    case DoDeleteServer(v) => ServerQuiet(s, v);
    case DoArrive(c, data) => ArriveQuiet(s, c, data);
    case DoFinish(id, ec, n) => TransferFits(s, id, ec, n); FinishQuiet(s, id, ec, n);
    case DoGet(pick) =>
      if s.queue == [] && pick.Some? {
        HandlersCanRun(s, pick.value);
      }
      GetKeepsInv(s, pick);
  }

  lemma ServerQuiet(s: State, v: ServerId)
    requires Core(s, None) && Enabled(s, DoDeleteServer(v))
    ensures Quiet(s, DeleteServer(s, v))
  {
    hide Core;
    DeleteKeeps(s, DeleteServer(s, v), v);
  }

  // ---------------------------------------------------------------- runs

  ghost predicate RunEnabled(s: State, actions: seq<Action>)
    requires Inv(s)
    decreases |actions|
  {
    actions == [] ||
    (Enabled(s, actions[0]) && (StepKeepsInv(s, actions[0]); RunEnabled(Step(s, actions[0]), actions[1..])))
  }

  ghost function Run(s: State, actions: seq<Action>): State
    requires Inv(s) && RunEnabled(s, actions)
    decreases |actions|
  {
    if actions == [] then s
    else
      StepKeepsInv(s, actions[0]);
      Run(Step(s, actions[0]), actions[1..])
  }

  lemma InitialInv()
    ensures Inv(Initial())
  {
  }

  /** Any interleaving of calls, completions and arrivals keeps the invariant; in particular at most one
      event is queued between calls, and what was handed out followed by what is queued is what was pushed. */
  lemma {:induction false} RunKeepsInv(s: State, actions: seq<Action>)
    requires Inv(s) && RunEnabled(s, actions)
    ensures Inv(Run(s, actions))
    ensures |Run(s, actions).queue| <= 1
    ensures Run(s, actions).delivered + Run(s, actions).queue == Flatten(Run(s, actions).log)
    decreases |actions|
  {
    hide Core, Enabled, Step;
    if actions != [] {
      StepKeepsInv(s, actions[0]);
      RunKeepsInv(Step(s, actions[0]), actions[1..]);
    }
  }

  lemma {:induction false} RunPersists(s: State, actions: seq<Action>)
    requires Inv(s) && RunEnabled(s, actions)
    ensures Persists(s, Run(s, actions))
    decreases |actions|
  {
    hide Core, Enabled, Step, Persists;
    if actions == [] {
      PersistsReflexive(s);
    } else {
      var t := Step(s, actions[0]);
      StepKeepsInv(s, actions[0]);
      RunPersists(t, actions[1..]);
      PersistsTransitive(s, t, Run(t, actions[1..]));
    }
  }

  lemma PersistsReflexive(s: State)
    ensures Persists(s, s)
  {
  }

  /** Inside a call at most two events are queued, far below the limit of the trimming loop. */
  lemma NeverTrimmed(s: State, id: OpId)
    requires Inv(s) && s.queue == [] && id in s.ops && s.ops[id].phase.Ready?
    ensures CanRun(s, id)
    ensures var t := RunHandler(s, id);
      |t.queue| <= 2 && (t.log == s.log || (|t.log| > |s.log| && t.queue == t.log[|s.log|].events))
  {
    hide Core, RunHandler;
    HandlersCanRun(s, id);
    RunHandled(s, id);
    assert s.delivered == Flatten(s.log);
    HandledQueue(s, RunHandler(s, id), id);
    assert [] + RunHandler(s, id).queue == RunHandler(s, id).queue;
  }

  /** Every connect, read, write, sleep or accept ever issued is either outstanding or has completed, at
      one place only, and each completion carries the answer to the operation it records. */
  lemma CompletesOnce(s: State, id: OpId)
    requires Inv(s) && id < s.nextOp
    ensures id in s.ops <==> !Logged(s.log, id)
    ensures forall i, j :: 0 <= i < |s.log| && 0 <= j < |s.log| && s.log[i].id == s.log[j].id == id ==> i == j
    ensures forall i :: 0 <= i < |s.log| ==> Answered(s.log[i])
  {
    hide Objects, Streams, Accepts, Answered;
  }

  /** The answer of a completed operation is an unbroken stretch of the results of `asio_get`, in the
      order in which operations completed. */
  lemma AnswersUnbroken(s: State, k: nat)
    requires Inv(s) && k < |s.log|
    ensures var i := |Flatten(s.log[..k])|;
      i + |s.log[k].events| <= |s.delivered + s.queue|
      && (s.delivered + s.queue)[i..i + |s.log[k].events|] == s.log[k].events
  {
    hide Core;
    FlattenAt(s.log, k);
  }

  lemma {:induction false} FlattenAt(log: seq<Completion>, k: nat)
    requires k < |log|
    ensures Flatten(log[..k]) + log[k].events <= Flatten(log)
    decreases |log|
  {
    if k < |log| - 1 {
      var front := log[..|log| - 1];
      FlattenAt(front, k);
      assert front[..k] == log[..k] && front[k] == log[k];
    }
  }

  /** The `destId` of an operation; the server's port for an accept. */
  function Dest(op: Op): int {
    if op.Accept? then op.port else op.destId
  }

  /** Conversely, every result of `asio_get` belongs to the answer of a completed operation and carries
      its `destId`; an event of an accept announces, any other continues. */
  lemma EveryResultAnswers(s: State, i: nat) returns (k: nat)
    requires Inv(s) && i < |s.delivered|
    ensures k < |s.log|
    ensures var at := |Flatten(s.log[..k])|;
      at <= i < at + |s.log[k].events| && s.delivered[i] == s.log[k].events[i - at]
    ensures s.delivered[i].destId == Dest(s.log[k].op)
    ensures s.delivered[i].kind == if s.log[k].op.Accept? then EVT_ACCEPT else EVT_CONTINUE
  {
    hide Books, OpsInv, Objects, Streams, Accepts;
    assert s.delivered[i] == (s.delivered + s.queue)[i];
    k := EventFrom(s.log, i);
    assert Answered(s.log[k]);
    EventsCarryDest(s.log[k]);
  }

  lemma EventsCarryDest(x: Completion)
    requires Answered(x)
    ensures forall e :: e in x.events ==> e.destId == Dest(x.op)
    ensures forall e :: e in x.events ==> e.kind == if x.op.Accept? then EVT_ACCEPT else EVT_CONTINUE
  {
    if x.op.ReadSome? && x.ec.Some? {
      assert x.events == x.events[..1] + [x.events[1]];
      assert x.events[0] == x.events[..1][0];
    }
  }

  lemma {:induction false} EventFrom(log: seq<Completion>, i: nat) returns (k: nat)
    requires i < |Flatten(log)|
    ensures k < |log|
    ensures var at := |Flatten(log[..k])|;
      at <= i < at + |log[k].events| && Flatten(log)[i] == log[k].events[i - at]
    decreases |log|
  {
    var front := log[..|log| - 1];
    if i < |Flatten(front)| {
      k := EventFrom(front, i);
      assert front[..k] == log[..k] && front[k] == log[k];
    } else {
      k := |log| - 1;
    }
  }

  ghost predicate NoGet(actions: seq<Action>) {
    forall a :: a in actions ==> !a.DoGet?
  }

  /** An event left in the queue, such as the second one of a failed `read_some`, is what the next
      `asio_get` returns, whatever is done in between; no handler runs first. */
  lemma {:induction false} QueuedIsNext(s: State, actions: seq<Action>, pick: Option<OpId>)
    requires Inv(s) && s.queue != [] && RunEnabled(s, actions) && NoGet(actions)
    ensures var t := Run(s, actions);
      t.queue == s.queue && t.log == s.log
      && Get(t, pick).1 == Some(s.queue[0]) && Get(t, pick).0.log == s.log && Get(t, pick).0.queue == []
    decreases |actions|
  {
    hide Core, Enabled, Step, RunHandler;
    if actions != [] {
      assert actions[0] in actions;
      StepKeepsInv(s, actions[0]);
      QueuedIsNext(Step(s, actions[0]), actions[1..], pick);
    }
  }

  // ---------------------------------------------------------------- data

  /** Whose event it is: the completion it answers, and its place in the answer. */
  datatype Label = Label(x: Completion, nth: nat)

  ghost function LabelsOf(x: Completion): (ls: seq<Label>)
    ensures |ls| == |x.events|
  {
    seq(|x.events|, (nth: nat) => Label(x, nth))
  }

  /** The labels of all events pushed, in order. */
  ghost function Labels(log: seq<Completion>): (ls: seq<Label>)
    ensures |ls| == |Flatten(log)|
  {
    if log == [] then [] else Labels(log[..|log| - 1]) + LabelsOf(log[|log| - 1])
  }

  /** What `part` takes from each of a number of events, put together. */
  ghost function Gather<T>(events: seq<Event>, labels: seq<Label>, part: (Label, Event) -> seq<T>): seq<T>
    requires |events| <= |labels|
    decreases |events|
  {
    if events == [] then []
    else
      var last := |events| - 1;
      Gather(events[..last], labels, part) + part(labels[last], events[last])
  }

  /** The data of an event that hands out bytes of the peer of `c`: the first event of a successful read
      on `c`, or of any `read_some`. */
  ghost function DataPart(c: ConnId): (Label, Event) -> seq<byte> {
    (l: Label, e: Event) =>
      if IsRead(l.x.op) && l.x.op.c == c && (l.x.ec.None? || l.x.op.ReadSome?) && l.nth == 0 then e.data else []
  }

  /** The connection an event announces for server `v`. */
  ghost function AnnouncedPart(v: ServerId): (Label, Event) -> seq<ConnId> {
    (l: Label, e: Event) => if l.x.op.Accept? && l.x.op.server == v && e.source.Handle? then [e.source.c] else []
  }

  /** The data the results of `asio_get` have handed out for `c`. */
  ghost function Handed(s: State, c: ConnId): seq<byte>
    requires |s.delivered| <= |Labels(s.log)|
  {
    Gather(s.delivered, Labels(s.log), DataPart(c))
  }

  /** The connections the results of `asio_get` have announced for server `v`. */
  ghost function Shown(s: State, v: ServerId): seq<ConnId>
    requires |s.delivered| <= |Labels(s.log)|
  {
    Gather(s.delivered, Labels(s.log), AnnouncedPart(v))
  }

  lemma {:induction false} GatherAppend<T>(a: seq<Event>, la: seq<Label>, b: seq<Event>, lb: seq<Label>,
                                           part: (Label, Event) -> seq<T>)
    requires |a| == |la| && |b| <= |lb|
    ensures Gather(a + b, la + lb, part) == Gather(a, la, part) + Gather(b, lb, part)
    decreases |a| + |b|
  {
    if b != [] {
      var last := |b| - 1;
      assert (a + b)[..|a| + last] == a + b[..last];
      GatherAppend(a, la, b[..last], lb, part);
    } else if a != [] {
      var last := |a| - 1;
      assert a + b == a && a == a[..last] + [a[last]] && la == la[..last] + [la[last]];
      GatherLabels(a, la, la + lb, part);
    }
  }

  /** Only the labels of the events matter. */
  lemma {:induction false} GatherLabels<T>(a: seq<Event>, la: seq<Label>, more: seq<Label>, part: (Label, Event) -> seq<T>)
    requires |a| <= |la| && la <= more
    ensures Gather(a, la, part) == Gather(a, more, part)
    decreases |a|
  {
    if a != [] {
      GatherLabels(a[..|a| - 1], la, more, part);
    }
  }

  lemma {:induction false} GatherPrefix<T>(a: seq<Event>, b: seq<Event>, labels: seq<Label>, part: (Label, Event) -> seq<T>)
    requires a <= b && |b| <= |labels|
    ensures Gather(a, labels, part) <= Gather(b, labels, part)
    decreases |b|
  {
    if a != b {
      GatherPrefix(a, b[..|b| - 1], labels, part);
    }
  }

  /** All events of the log, the last completion set apart. */
  lemma GatherLast<T>(log: seq<Completion>, part: (Label, Event) -> seq<T>)
    requires log != []
    ensures var front, x := log[..|log| - 1], log[|log| - 1];
      Gather(Flatten(log), Labels(log), part) ==
        Gather(Flatten(front), Labels(front), part) + Gather(x.events, LabelsOf(x), part)
  {
    var front, x := log[..|log| - 1], log[|log| - 1];
    GatherAppend(Flatten(front), Labels(front), x.events, LabelsOf(x), part);
  }

  lemma OneOrTwo<T>(x: Completion, part: (Label, Event) -> seq<T>)
    requires |x.events| <= 2
    ensures x.events == [] ==> Gather(x.events, LabelsOf(x), part) == []
    ensures |x.events| == 1 ==> Gather(x.events, LabelsOf(x), part) == part(Label(x, 0), x.events[0])
    ensures |x.events| == 2 ==>
      Gather(x.events, LabelsOf(x), part) == part(Label(x, 0), x.events[0]) + part(Label(x, 1), x.events[1])
  {
    if |x.events| == 2 {
      var first := x.events[..1];
      assert first[..0] == [] && first[0] == x.events[0];
      assert Gather(first, LabelsOf(x), part) == part(Label(x, 0), x.events[0]);
    }
  }

  /** The events hold exactly what the completions of reads passed on. */
  lemma {:induction false} TakenIsData(log: seq<Completion>, c: ConnId)
    requires forall k :: 0 <= k < |log| ==> Answered(log[k])
    ensures Gather(Flatten(log), Labels(log), DataPart(c)) == Taken(log, c)
    decreases |log|
  {
    if log != [] {
      var x := log[|log| - 1];
      TakenIsData(log[..|log| - 1], c);
      GatherLast(log, DataPart(c));
      assert Answered(x);
      OneOrTwo(x, DataPart(c));
    }
  }

  lemma {:induction false} AnnouncedIsShown(log: seq<Completion>, v: ServerId)
    requires forall k :: 0 <= k < |log| ==> Answered(log[k])
    ensures Gather(Flatten(log), Labels(log), AnnouncedPart(v)) == Announced(log, v)
    decreases |log|
  {
    if log != [] {
      var x := log[|log| - 1];
      AnnouncedIsShown(log[..|log| - 1], v);
      GatherLast(log, AnnouncedPart(v));
      assert Answered(x);
      OneOrTwo(x, AnnouncedPart(v));
    }
  }

  /** In every reachable state the data handed out for a connection is a prefix of what its peer sent,
      in order and without gaps. */
  lemma DataIsPrefix(s: State, c: ConnId)
    requires Inv(s) && c in s.peers
    ensures |s.delivered| <= |Labels(s.log)|
    ensures Handed(s, c) <= s.peers[c].stream
  {
    hide Books, OpsInv, Objects, Accepts, Answered;
    assert StreamInv(s, c);
    TakenIsData(s.log, c);
    GatherPrefix(s.delivered, Flatten(s.log), Labels(s.log), DataPart(c));
  }

  /** Once a read or a write on a connection has failed, nothing that is issued on it later hands out
      any of the peer's bytes, however the run goes on. */
  lemma SilentAfterFailure(s: State, j: nat, actions: seq<Action>, k: nat)
    requires Inv(s) && RunEnabled(s, actions)
    requires j < |s.log| && Holds(s.log[j].op) && s.log[j].ec.Some?
    requires k < |Run(s, actions).log| && Run(s, actions).log[k].id >= s.nextOp
    ensures DataOf(Run(s, actions).log[k], s.log[j].op.c) == []
  {
    hide Enabled, Step, Run, RunEnabled, Ledger, Refs, Readers, DataInv, Accepts;
    var t := Run(s, actions);
    RunKeepsInv(s, actions);
    RunPersists(s, actions);
  }

  /** Why at most one read may be outstanding on a connection: the buffer is shared, and a second read
      of another length makes the answer to a finished first one as long as itself. */
  lemma SecondReadSpoils(s: State, c: ConnId, id: OpId, size: nat, d: int)
    requires Inv(s) && s.queue == [] && c in s.conns && s.conns[c].reader == Some(id) && id in s.ops
    requires s.ops[id].op.Read? && s.ops[id].op.c == c && s.ops[id].phase.Ready? && s.ops[id].phase.ec.None?
    requires s.ops[id].op.got + s.ops[id].phase.n == s.ops[id].op.size != size
    ensures var t := StartRead(s, c, size, d);
      && CanRun(t, id) && |HandleRead(t, id).queue| == 1
      && |HandleRead(t, id).queue[0].data| == size != s.ops[id].op.size
  {
    hide Core;
    var t := StartRead(s, c, size, d);
    NextNotIssued(s);
    HasPeer(s, c, None);
    PushAllAppends([], [Continue(s.ops[id].op.destId, Connection(c), t.conns[c].readBuf)]);
  }

  // ---------------------------------------------------------------- lifetimes

  /** A connection object is live exactly as long as its handle exists or a read or write on it is
      outstanding. */
  lemma LiveWhileReferenced(s: State, c: ConnId)
    requires Inv(s)
    ensures c in s.conns <==>
      Held(s, c) || exists id :: id in s.ops && Holds(s.ops[id].op) && s.ops[id].op.c == c
  {
    hide Ledger, Readers, Sockets, Streams, Accepts;
    if c in s.conns && !s.conns[c].handle {
      var id :| id in s.conns[c].owners;
      assert id in s.ops && Holds(s.ops[id].op) && s.ops[id].op.c == c;
    }
  }

  // ---------------------------------------------------------------- servers

  /** A live server that waits for anything waits for exactly one accept. */
  lemma OneAcceptOutstanding(s: State, v: ServerId)
    requires Inv(s) && v in s.servers
    ensures forall id: OpId :: AcceptFor(s, id, v) <==> s.servers[v].accept == Some(id)
  {
    hide Ledger, Objects, Streams, AcceptInv, Fresh;
  }

  ghost predicate AcceptFor(s: State, id: OpId, v: ServerId) {
    id in s.ops && s.ops[id].op.Accept? && s.ops[id].op.server == v
  }

  lemma NoSuchServer(s: State)
    requires Inv(s)
    ensures s.nextServer !in s.servers
  {
  }

  /** Deleting a server is allowed exactly when it leaves no handler to run on it: a finished accept
      that was not aborted would go back to the freed server. */
  lemma DeletionIsSafe(s: State, v: ServerId)
    requires Inv(s) && v in s.servers
    ensures Enabled(s, DoDeleteServer(v)) <==>
      forall id: OpId :: AcceptFor(s, id, v) && s.ops[id].phase.Ready? ==> CanRun(DeleteServer(s, v), id)
  {
    hide Core;
    forall id | AcceptFor(s, id, v) && s.ops[id].phase.Ready?
      ensures CanRun(DeleteServer(s, v), id) <==> Aborted(s.ops[id].phase)
    {
    }
  }

  ghost predicate AbortedOnce(log: seq<Completion>, v: ServerId) {
    exists k :: 0 <= k < |log| && AbortsAccept(log[k], v)
  }

  ghost predicate AbortsAccept(x: Completion, v: ServerId) {
    x.op.Accept? && x.op.server == v && x.ec.Some? && x.ec.value.aborted
  }

  /** Every live server waits for a connection, unless its accept was aborted. */
  ghost predicate Armed(s: State) {
    forall v :: v in s.servers ==> s.servers[v].accept.Some? || AbortedOnce(s.log, v)
  }

  lemma AbortRemembered(s: State, t: State)
    requires Armed(s) && t.servers == s.servers && s.log <= t.log
    ensures Armed(t)
  {
    forall v | v in t.servers && t.servers[v].accept.None? ensures AbortedOnce(t.log, v) {
      var k :| 0 <= k < |s.log| && AbortsAccept(s.log[k], v);
      assert t.log[k] == s.log[k];
    }
  }

  lemma HandlerArms(s: State, id: OpId)
    requires Core(s, None) && CanRun(s, id) && s.queue == [] && Armed(s)
    ensures Armed(RunHandler(s, id))
  {
    hide Core, Armed, RunHandler;
    if s.ops[id].op.Accept? {
      AcceptArms(s, id);
      AcceptRuns(s, id);
    } else {
      RunHandled(s, id);
      AbortRemembered(s, RunHandler(s, id));
    }
  }

  lemma AcceptRuns(s: State, id: OpId)
    requires CanRun(s, id) && s.ops[id].op.Accept?
    ensures RunHandler(s, id) == HandleAccept(s, id)
  {
  }

  lemma AcceptArms(s: State, id: OpId)
    requires CanRun(s, id) && s.ops[id].op.Accept? && Armed(s)
    ensures Armed(HandleAccept(s, id))
  {
    var t, o := HandleAccept(s, id), s.ops[id];
    assert s.log == t.log[..|s.log|];
    forall v | v in t.servers && t.servers[v].accept.None? ensures AbortedOnce(t.log, v) {
      if v == o.op.server {
        assert AbortsAccept(t.log[|s.log|], v);
      } else {
        var k :| 0 <= k < |s.log| && AbortsAccept(s.log[k], v);
        assert t.log[k] == s.log[k];
      }
    }
  }

  lemma StepArms(s: State, a: Action)
    requires Inv(s) && Enabled(s, a) && Armed(s)
    ensures Armed(Step(s, a))
  {
    hide Core, RunHandler;
    var t := Step(s, a);
    match a
    case DoGet(pick) =>
      if s.queue == [] && pick.Some? {
        ReadyCanRun(s, pick.value);
        HandlerArms(s, pick.value);
      }
    case _ =>
      assert t.log == s.log;
  }

  lemma ReadyCanRun(s: State, id: OpId)
    requires Inv(s) && id in s.ops && s.ops[id].phase.Ready?
    ensures CanRun(s, id)
  {
    hide Core;
    HandlersCanRun(s, id);
  }

  /** Over any run, each live server that waits for an accept goes on waiting until one is aborted. */
  lemma {:induction false} ServersStayArmed(s: State, actions: seq<Action>)
    requires Inv(s) && RunEnabled(s, actions) && Armed(s)
    ensures Armed(Run(s, actions))
    decreases |actions|
  {
    hide Inv, Enabled, Step, Armed;
    if actions != [] {
      StepKeepsInv(s, actions[0]);
      StepArms(s, actions[0]);
      ServersStayArmed(Step(s, actions[0]), actions[1..]);
    }
  }

  /** The results of `asio_get` announce the connections the kernel accepted for a server, each once and
      in order. At most the last one has not been announced by a handler yet, and once the queue is empty
      every announcement has been handed out. */
  lemma AnnouncedInOrder(s: State, v: ServerId)
    requires Inv(s)
    ensures |s.delivered| <= |Labels(s.log)|
    ensures Shown(s, v) <= Announced(s.log, v) <= Accepted(s.accepts, v)
    ensures s.queue == [] ==> Shown(s, v) == Announced(s.log, v)
    ensures |Accepted(s.accepts, v)| <= |Announced(s.log, v)| + 1
    ensures forall i, j :: 0 <= i < j < |Shown(s, v)| ==> Shown(s, v)[i] < Shown(s, v)[j]
    ensures forall id :: id in s.ops && Arrived(s.ops[id]) && s.ops[id].op.server == v ==>
      Accepted(s.accepts, v) == Announced(s.log, v) + [s.ops[id].phase.n]
  {
    hide Books, OpsInv, Objects, Streams, Answered;
    AcceptedIncreases(s.accepts, v);
    AnnouncedIsShown(s.log, v);
    assert s.queue == [] ==> s.delivered + s.queue == s.delivered;
    GatherPrefix(s.delivered, Flatten(s.log), Labels(s.log), AnnouncedPart(v));
  }

  lemma {:induction false} AcceptedIncreases(accepts: seq<(ServerId, ConnId)>, v: ServerId)
    requires forall i, j :: 0 <= i < j < |accepts| ==> accepts[i].1 < accepts[j].1
    ensures forall i, j :: 0 <= i < j < |Accepted(accepts, v)| ==> Accepted(accepts, v)[i] < Accepted(accepts, v)[j]
    ensures accepts != [] ==>
      forall i :: 0 <= i < |Accepted(accepts, v)| ==> Accepted(accepts, v)[i] <= accepts[|accepts| - 1].1
    decreases |accepts|
  {
    if accepts != [] {
      AcceptedIncreases(accepts[..|accepts| - 1], v);
    }
  }
}
