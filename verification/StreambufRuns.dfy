/** Whole runs over one `basic_streambuf`, compared with a plain list of characters. */
module StreambufRuns {
  import opened Common
  import opened Streambuf

  /** One call by the owner of the object. `Refill(n, data, k)` is the documented pattern: prepare
      room for `n`, write `data` into it, commit the first `k` characters of it. */
  datatype Op =
    | Write(c: byte)
    | WriteEof
    | Peek
    | Read
    | Drop(n: nat)
    | Refill(n: nat, data: seq<byte>, k: nat)

  datatype Reply = Unit | Got(c: Option<byte>) | Threw

  /** What the caller owes: it writes only into the region it was given and commits only what it
      wrote, and the lengths moved by `commit` and `consume` fit in an `int`. */
  ghost predicate WellFormed(s: State, op: Op)
    requires Inv(s)
  {
    match op
    case Drop(n) => Min(n, Size(s)) <= INT_MAX
    case Refill(n, data, k) => k <= |data| <= n && k <= INT_MAX
    case _ => true
  }

  ghost function Attempted(a: Attempt): (State, Reply) {
    (a.state, if a.Done? then Unit else Threw)
  }

  ghost function Step(s: State, op: Op): (r: (State, Reply))
    requires Inv(s) && WellFormed(s, op)
    ensures Inv(r.0) && r.0.maxSize == s.maxSize
  {
    match op
    case Write(c) => SputcAppends(s, c); Attempted(Sputc(s, c))
    case WriteEof => Attempted(Overflow(s, None))
    case Peek => ReadsFront(s); var (t, c) := Sgetc(s); (t, Got(c))
    case Read => ReadsFront(s); var (t, c) := Sbumpc(s); (t, Got(c))
    case Drop(n) => ConsumeDrops(s, n); (Consume(s, n), Unit)
    case Refill(n, data, k) =>
      ReserveMakesRoom(s, n);
      match Reserve(s, n) {
        case LengthError(t) => (t, Threw)
        case Done(t) => FillThenCommit(t, data, k); (Commit(Fill(t, data), k), Unit)
      }
  }

  /** The reference: a list of at most `cap` characters. */
  function ListStep(q: seq<byte>, cap: nat, op: Op): (seq<byte>, Reply) {
    match op
    case Write(c) => if |q| == cap then (q, Threw) else (q + [c], Unit)
    case WriteEof => (q, Unit)
    case Peek => (q, Got(if q == [] then None else Some(q[0])))
    case Read => if q == [] then (q, Got(None)) else (q[1..], Got(Some(q[0])))
    case Drop(n) => (q[Min(n, |q|)..], Unit)
    case Refill(n, data, k) => if |q| + n > cap then (q, Threw) else (q + data[..Min(k, |data|)], Unit)
  }

  /** Every call answers as the list does, and unless `prepare` threw it leaves the queue as the
      list does. After a throwing `prepare` the queue is displaced by the offset of `gptr`. */
  lemma StepRefines(s: State, op: Op)
    requires Inv(s) && WellFormed(s, op)
    ensures var q, (t, reply) := Content(s), Step(s, op);
      && reply == ListStep(q, s.maxSize, op).1
      && Content(t) == (if op.Refill? && reply.Threw? then Displaced(q, s.gptr) else ListStep(q, s.maxSize, op).0)
  {
    match op
    case Write(c) => SputcAppends(s, c);
    case WriteEof =>
    case Peek => ReadsFront(s);
    case Read => ReadsFront(s);
    case Drop(n) => ConsumeDrops(s, n);
    case Refill(n, data, k) =>
      ReserveMakesRoom(s, n);
      if Reserve(s, n).Done? {
        FillThenCommit(Reserve(s, n).state, data, k);
      } else {
        FailedReserveDisplaces(s, n);
      }
  }

  // ---------------------------------------------------------------- runs

  ghost predicate RunWellFormed(s: State, ops: seq<Op>)
    requires Inv(s)
    decreases |ops|
  {
    ops != [] ==> WellFormed(s, ops[0]) && RunWellFormed(Step(s, ops[0]).0, ops[1..])
  }

  /** Any run, throwing calls included, keeps the invariant and with it `size() <= max_size()`. */
  ghost function Run(s: State, ops: seq<Op>): (r: (State, seq<Reply>))
    requires Inv(s) && RunWellFormed(s, ops)
    ensures Inv(r.0) && r.0.maxSize == s.maxSize && |r.1| == |ops|
    ensures Size(r.0) <= s.maxSize && |r.0.buf| <= Max(s.maxSize, 1)
    decreases |ops|
  {
    if ops == [] then (s, [])
    else
      var (t, reply) := Step(s, ops[0]);
      var (u, replies) := Run(t, ops[1..]);
      (u, [reply] + replies)
  }

  function ListRun(q: seq<byte>, cap: nat, ops: seq<Op>): (seq<byte>, seq<Reply>)
    decreases |ops|
  {
    if ops == [] then (q, [])
    else
      var (r, reply) := ListStep(q, cap, ops[0]);
      var (u, replies) := ListRun(r, cap, ops[1..]);
      (u, [reply] + replies)
  }

  /** No `prepare` asks for more than the list has room for. */
  predicate PreparesFit(q: seq<byte>, cap: nat, ops: seq<Op>)
    decreases |ops|
  {
    ops != [] ==>
      && (ops[0].Refill? ==> |q| + ops[0].n <= cap)
      && PreparesFit(ListStep(q, cap, ops[0]).0, cap, ops[1..])
  }

  /** Over a whole run in which no `prepare` overshoots, the object cannot be told from a list:
      the shift, the growth and the lazy end of the get area are invisible. */
  lemma {:induction false} RunRefines(s: State, ops: seq<Op>)
    requires Inv(s) && RunWellFormed(s, ops) && PreparesFit(Content(s), s.maxSize, ops)
    ensures (Content(Run(s, ops).0), Run(s, ops).1) == ListRun(Content(s), s.maxSize, ops)
    decreases |ops|
  {
    if ops != [] {
      StepRefines(s, ops[0]);
      RunRefines(Step(s, ops[0]).0, ops[1..]);
    }
  }

  /** From the constructor: the replies and the final queue are those of a list that starts empty. */
  lemma FreshRunRefines(cap: nat, ops: seq<Op>)
    requires RunWellFormed(Fresh(cap), ops) && PreparesFit([], cap, ops)
    ensures (Content(Run(Fresh(cap), ops).0), Run(Fresh(cap), ops).1) == ListRun([], cap, ops)
  {
    assert Content(Fresh(cap)) == [];
    RunRefines(Fresh(cap), ops);
  }

  /** The restriction on `prepare` is needed. Take any object with cap 3 that holds the
      characters 1, 2, 3: read one, and catch the error of an oversized `prepare`. The reader loses a character
      and sees another twice. */
  lemma FailedPrepareCorrupts(s: State)
    requires Inv(s) && s.maxSize == 3 && Content(s) == [1, 2, 3]
    ensures var t := Step(s, Read).0;
      var (u, reply) := Step(t, Refill(2, [], 0));
      Content(t) == [2, 3] && reply == Threw && Content(u) == [3, 3]
  {
    StepRefines(s, Read);
    ReadSteps(s);
    StepRefines(Step(s, Read).0, Refill(2, [], 0));
  }

  lemma ReadSteps(s: State)
    requires Inv(s) && Size(s) > 0
    ensures Step(s, Read).0.gptr == s.gptr + 1
  {
  }

  /** The constructor and one `prepare`, fill, `commit` reach such an object. */
  lemma FullQueueReachable(data: seq<byte>)
    requires |data| <= INT_MAX
    ensures var s := Step(Fresh(|data|), Refill(|data|, data, |data|)).0;
      Inv(s) && s.maxSize == |data| && Content(s) == data
  {
    StepRefines(Fresh(|data|), Refill(|data|, data, |data|));
  }

  // ---------------------------------------------------------------- cost of reserve

  /** The write goes to `overflow` and from there past the early return of `reserve`. */
  ghost predicate TakesSlowPath(s: State, op: Op)
    requires Inv(s)
  {
    op.Write? && s.pptr == s.epptr && Demand(s) > s.epptr - s.pptr
  }

  ghost function SlowWrites(s: State, ops: seq<Op>): nat
    requires Inv(s) && RunWellFormed(s, ops)
    decreases |ops|
  {
    if ops == [] then 0
    else (if TakesSlowPath(s, ops[0]) then 1 else 0) + SlowWrites(Step(s, ops[0]).0, ops[1..])
  }

  function Writes(ops: seq<Op>): nat {
    if ops == [] then 0 else (if ops[0].Write? then 1 else 0) + Writes(ops[1..])
  }

  /** Every write that finds the put area full still has a whole step of room below the cap, and
      the run prepares nothing. */
  ghost predicate Roomy(s: State, ops: seq<Op>)
    requires Inv(s) && RunWellFormed(s, ops)
    decreases |ops|
  {
    ops != [] ==>
      && !ops[0].Refill?
      && (ops[0].Write? && s.pptr == s.epptr ==> s.maxSize - Size(s) >= BUFFER_DELTA)
      && Roomy(Step(s, ops[0]).0, ops[1..])
  }

  ghost function RoomLeft(s: State): int {
    s.epptr - s.pptr
  }

  /** How one call changes the room in the put area. */
  lemma StepRoom(s: State, op: Op)
    requires Inv(s) && WellFormed(s, op) && !op.Refill?
    requires op.Write? && s.pptr == s.epptr ==> s.maxSize - Size(s) >= BUFFER_DELTA
    ensures var t := Step(s, op).0;
      if TakesSlowPath(s, op) then s.maxSize >= BUFFER_DELTA && RoomLeft(s) == 0 && RoomLeft(t) >= BUFFER_DELTA - 1
      else RoomLeft(t) == RoomLeft(s) - (if op.Write? then 1 else 0)
  {
    hide NarrowToInt, Reserve;
    if TakesSlowPath(s, op) {
      ReserveMakesRoom(s, Demand(s));
    }
  }

  /** Each slow write buys at least 128 fast ones: the room in the put area is the potential. */
  lemma {:induction false} SlowWritesBounded(s: State, ops: seq<Op>)
    requires Inv(s) && RunWellFormed(s, ops) && Roomy(s, ops)
    ensures BUFFER_DELTA * SlowWrites(s, ops) <= Writes(ops) + BUFFER_DELTA - Min(RoomLeft(s), BUFFER_DELTA)
    ensures s.maxSize < BUFFER_DELTA ==> SlowWrites(s, ops) == 0
    decreases |ops|
  {
    hide Step, Inv;
    if ops != [] {
      StepRoom(s, ops[0]);
      SlowWritesBounded(Step(s, ops[0]).0, ops[1..]);
    }
  }

  /** From the constructor, 128 times the number of slow writes is at most the number of writes. */
  lemma SlowWritesAmortised(cap: nat, ops: seq<Op>)
    requires RunWellFormed(Fresh(cap), ops) && Roomy(Fresh(cap), ops)
    ensures BUFFER_DELTA * SlowWrites(Fresh(cap), ops) <= Writes(ops)
  {
    SlowWritesBounded(Fresh(cap), ops);
  }

  function DropWrite(c: byte, times: nat): seq<Op> {
    if times == 0 then [] else [Drop(1), Write(c)] + DropWrite(c, times - 1)
  }

  /** Just below the cap the bound fails: a queue used at its full size shifts the whole buffer
      down on every single character. */
  lemma {:induction false} NoAmortisationAtCap(s: State, c: byte, times: nat)
    requires Inv(s) && Size(s) == s.maxSize > 0
    ensures var ops := DropWrite(c, times);
      RunWellFormed(s, ops) && SlowWrites(s, ops) == Writes(ops) == times
    decreases times
  {
    hide Step, Inv;
    if times > 0 {
      var ops, rest := DropWrite(c, times), DropWrite(c, times - 1);
      assert ops[0] == Drop(1) && ops[1..] == [Write(c)] + rest && ops[1..][0] == Write(c) && ops[1..][1..] == rest;
      FullCycle(s, c);
      NoAmortisationAtCap(Step(Step(s, Drop(1)).0, Write(c)).0, c, times - 1);
      assert RunWellFormed(Step(s, Drop(1)).0, ops[1..]);
    }
  }

  /** Dropping one character of a full queue and writing another is slow and leaves it full. */
  lemma FullCycle(s: State, c: byte)
    requires Inv(s) && Size(s) == s.maxSize > 0
    ensures WellFormed(s, Drop(1)) && WellFormed(Step(s, Drop(1)).0, Write(c))
    ensures var t := Step(s, Drop(1)).0; var u := Step(t, Write(c)).0;
      TakesSlowPath(t, Write(c)) && Size(u) == u.maxSize == s.maxSize
  {
    var t := Step(s, Drop(1)).0;
    StepRefines(s, Drop(1));
    SputcAppends(t, c);
  }
}
