/** Whole runs over one socket stream buffer: nothing accepted is lost, nothing is sent twice
    before the first failure, and buffering cannot be seen on the wire. */
module SocketRuns {
  import opened Common
  import opened SocketIo
  import opened SocketStreambuf

  datatype Op = Put(c: byte) | Flush | SetBuffer(isNull: bool, n: int) | Peek | Read | Expire(time: int)

  /** The object and its history: the characters it accepted, the characters read from it, and
      whether a call that flushes has failed. */
  datatype Log = Log(s: Stream, accepted: seq<byte>, taken: seq<byte>, failed: bool)

  function Start(env: Script): Log {
    Log(Fresh(env), [], [], false)
  }

  /** The loop the call enters, if it enters one, comes to an end. */
  ghost predicate Returns(s: Stream, op: Op)
    requires Inv(s)
  {
    match op
    case Put(c) => WriteReturns(s, c)
    case Flush => FlushReturns(s, None)
    case Peek => ReadReturns(s)
    case Read => ReadReturns(s)
    case _ => true
  }

  datatype Reply = Done(ok: bool) | Got(c: Option<byte>)

  ghost function Call(s: Stream, op: Op): (Stream, Reply)
    requires Inv(s) && Returns(s, op)
  {
    match op
    case Put(c) => var (t, ok) := Sputc(s, c); (t, Done(ok))
    case Flush => var (t, ok) := Sync(s); (t, Done(ok))
    case SetBuffer(isNull, n) => var (t, ok) := SetBuf(s, isNull, n); (t, Done(ok))
    case Peek => var (t, c) := Sgetc(s); (t, Got(c))
    case Read => var (t, c) := Sbumpc(s); (t, Got(c))
    case Expire(time) => (s.(expiry := time), Done(true))
  }

  ghost function Step(l: Log, op: Op): Log
    requires Inv(l.s) && Returns(l.s, op)
  {
    var (t, reply) := Call(l.s, op);
    match op
    case Put(c) => Log(t, if reply.ok then l.accepted + [c] else l.accepted, l.taken, l.failed || !reply.ok)
    case Flush => l.(s := t, failed := l.failed || !reply.ok)
    case Read => l.(s := t, taken := l.taken + ToSeq(reply.c))
    case _ => l.(s := t)
  }

  /** `a` can be read off `b` by skipping some of its characters. */
  predicate Subsequence(a: seq<byte>, b: seq<byte>)
    decreases |b|
  {
    a == [] || (b != [] && (
      || Subsequence(a, b[..|b| - 1])
      || (a[|a| - 1] == b[|b| - 1] && Subsequence(a[..|a| - 1], b[..|b| - 1]))))
  }

  lemma {:induction false} SubsequenceExtends(a: seq<byte>, b: seq<byte>, c: seq<byte>)
    requires Subsequence(a, b)
    ensures Subsequence(a, b + c) && Subsequence(a + c, b + c)
    decreases |c|
  {
    if c == [] {
      assert a + c == a && b + c == b;
    } else {
      var front := c[..|c| - 1];
      SubsequenceExtends(a, b, front);
      assert (b + c)[..|b + c| - 1] == b + front;
      assert (a + c)[..|a + c| - 1] == a + front;
    }
  }

  /** Accepted characters that are no longer pending. */
  ghost function Settled(l: Log): seq<byte>
    requires Inv(l.s) && |Pending(l.s)| <= |l.accepted|
  {
    l.accepted[..|l.accepted| - |Pending(l.s)|]
  }

  /** The books balance. Input: read plus unread is received. Output: what is pending is the end of
      what was accepted; the rest is on the wire in order, exactly once unless a flush has failed. */
  ghost predicate Balanced(l: Log) {
    && Inv(l.s)
    && l.taken + Unread(l.s) == l.s.received
    && |Pending(l.s)| <= |l.accepted| && l.accepted == Settled(l) + Pending(l.s)
    && Subsequence(Settled(l), l.s.sent)
    && (!l.failed ==> Settled(l) == l.s.sent)
  }

  /** What one call does to balanced books. */
  ghost predicate Follows(l: Log, op: Op, next: Log) {
    && Inv(l.s) && Balanced(next)
    && next.s.env == l.s.env && l.s.sent <= next.s.sent && l.s.received <= next.s.received
    && (!op.Read? && !op.Peek? ==> next.s.received == l.s.received)
    && (op.Read? || op.Peek? ==> next.s.sent == l.s.sent)
    && (!op.Read? ==> next.taken == l.taken)
    && (op.Read? && Unread(l.s) + next.s.received[|l.s.received|..] != [] ==>
          next.taken == l.taken + [(Unread(l.s) + next.s.received[|l.s.received|..])[0]])
    && (!next.failed ==> !l.failed && (op.Flush? ==> Pending(next.s) == [])
                         && next.accepted == l.accepted + (if op.Put? then [op.c] else []))
  }

  lemma StepBalances(l: Log, op: Op)
    requires Balanced(l) && Returns(l.s, op)
    ensures Follows(l, op, Step(l, op))
  {
    hide Step, Follows, Returns, Balanced;
    match op
    case Put(c) => PutBalances(l, c);
    case Flush => FlushBalances(l);
    case SetBuffer(isNull, n) => SetBufferBalances(l, isNull, n);
    case Peek => PeekBalances(l);
    case Read => ReadBalances(l);
    case Expire(time) => ExpireBalances(l, time);
  }

  lemma SetBufferBalances(l: Log, isNull: bool, n: int)
    requires Balanced(l)
    ensures Follows(l, SetBuffer(isNull, n), Step(l, SetBuffer(isNull, n)))
  {
    hide SetBuf, Subsequence;
    var next := Step(l, SetBuffer(isNull, n));
    SetBufConserves(l.s, isNull, n);
    assert Settled(next) == Settled(l);
  }

  lemma ExpireBalances(l: Log, time: int)
    requires Balanced(l)
    ensures Follows(l, Expire(time), Step(l, Expire(time)))
  {
    hide Subsequence;
    assert Settled(Step(l, Expire(time))) == Settled(l);
  }

  lemma PutBalances(l: Log, c: byte)
    requires Balanced(l) && Returns(l.s, Put(c))
    ensures Follows(l, Put(c), Step(l, Put(c)))
  {
    hide Sputc, Subsequence;
    var next := Step(l, Put(c));
    SputcConserves(l.s, c);
    if Sputc(l.s, c).1 {
      OutputAdvances(l, next, [c]);
    } else {
      OutputFails(l, next);
    }
  }

  lemma FlushBalances(l: Log)
    requires Balanced(l) && Returns(l.s, Flush)
    ensures Follows(l, Flush, Step(l, Flush))
  {
    hide Overflow, Subsequence;
    var next := Step(l, Flush);
    OverflowConserves(l.s, None);
    if Sync(l.s).1 {
      assert next.accepted == l.accepted + [];
      OutputAdvances(l, next, []);
    } else {
      OutputFails(l, next);
    }
  }

  lemma PeekBalances(l: Log)
    requires Balanced(l) && Returns(l.s, Peek)
    ensures Follows(l, Peek, Step(l, Peek))
  {
    hide Sgetc, Sbumpc, ReadsTo, Subsequence;
    var t := Sgetc(l.s).0;
    ReadConserves(l.s);
    ReadsOn(l.s, t, []);
    InputBalances(l, t, []);
    assert l.(s := t) == l.(s := t, taken := l.taken + []);
  }

  lemma ReadBalances(l: Log)
    requires Balanced(l) && Returns(l.s, Read)
    ensures Follows(l, Read, Step(l, Read))
  {
    hide Sgetc, Sbumpc, ReadsTo, Subsequence;
    ReadConserves(l.s);
    var (t, c) := Sbumpc(l.s);
    ReadsOn(l.s, t, ToSeq(c));
    InputBalances(l, t, ToSeq(c));
    ReceivesWhatArrives(l.s);
    FirstIsRead(l.s, Sgetc(l.s).0, t, c);
    assert Step(l, Read) == l.(s := t, taken := l.taken + ToSeq(c));
  }

  /** What is read is the first of what was unread or has arrived. */
  lemma FirstIsRead(s: Stream, t: Stream, u: Stream, c: Option<byte>)
    requires ReadsTo(s, t, []) && ReadsTo(s, u, ToSeq(c)) && u.received == t.received
    requires c == if Unread(t) == [] then None else Some(Unread(t)[0])
    ensures var all := Unread(s) + u.received[|s.received|..]; all != [] ==> ToSeq(c) == [all[0]]
  {
  }

  lemma ReadsOn(s: Stream, t: Stream, got: seq<byte>)
    requires ReadsTo(s, t, got)
    ensures t.env == s.env && t.sent == s.sent && s.received <= t.received
  {
  }

  /** A successful call takes `extra` and pushes the boundary between wire and pending. */
  lemma OutputAdvances(l: Log, next: Log, extra: seq<byte>)
    requires Balanced(l) && Inv(next.s) && KeepsInput(l.s, next.s)
    requires next.taken == l.taken && next.failed == l.failed && next.accepted == l.accepted + extra
    requires next.s.sent + Pending(next.s) == l.s.sent + Pending(l.s) + extra && l.s.sent <= next.s.sent
    ensures Balanced(next)
  {
    var wire, moved := l.s.sent, next.s.sent[|l.s.sent|..];
    var before, after := Pending(l.s), Pending(next.s);
    assert next.s.sent == wire + moved;
    MovedAhead(wire, moved, before, after, extra);
    AcceptedSplits(Settled(l), moved, before, after, extra);
    assert next.accepted == Settled(l) + before + extra && Settled(next) == Settled(l) + moved;
    SubsequenceExtends(Settled(l), wire, moved);
  }

  lemma MovedAhead(wire: seq<byte>, moved: seq<byte>, before: seq<byte>, after: seq<byte>, extra: seq<byte>)
    requires wire + moved + after == wire + before + extra
    ensures moved + after == before + extra
  {
    assert wire + (moved + after) == wire + moved + after;
    assert wire + (before + extra) == wire + before + extra;
    CancelLeft(wire, moved + after, before + extra);
  }

  lemma AcceptedSplits(settled: seq<byte>, moved: seq<byte>, before: seq<byte>, after: seq<byte>, extra: seq<byte>)
    requires moved + after == before + extra
    ensures settled + before + extra == settled + moved + after
    ensures (settled + before + extra)[..|settled + before + extra| - |after|] == settled + moved
  {
    assert settled + before + extra == settled + (before + extra);
    assert settled + moved + after == settled + (moved + after);
  }

  /** A failed call leaves on the wire a prefix of what stays pending. */
  lemma OutputFails(l: Log, next: Log)
    requires Balanced(l) && Inv(next.s) && KeepsInput(l.s, next.s)
    requires next.taken == l.taken && next.failed && next.accepted == l.accepted
    requires l.s.sent <= next.s.sent && Pending(next.s) == Pending(l.s)
    ensures Balanced(next)
  {
    assert next.s.sent == l.s.sent + next.s.sent[|l.s.sent|..];
    assert Settled(next) == Settled(l);
    SubsequenceExtends(Settled(l), l.s.sent, next.s.sent[|l.s.sent|..]);
  }

  lemma CancelLeft(a: seq<byte>, b: seq<byte>, c: seq<byte>)
    requires a + b == a + c
    ensures b == c
  {
    assert b == (a + b)[|a|..] && c == (a + c)[|a|..];
  }

  /** A call that reads moves `got` from unread to taken. */
  lemma InputBalances(l: Log, t: Stream, got: seq<byte>)
    requires Balanced(l) && ReadsTo(l.s, t, got)
    ensures Balanced(l.(s := t, taken := l.taken + got))
  {
    var arrived, next := t.received[|l.s.received|..], l.(s := t, taken := l.taken + got);
    assert t.received == (l.taken + Unread(l.s)) + arrived == l.taken + (got + Unread(t));
    assert Settled(next) == Settled(l);
  }

  // ---------------------------------------------------------------- runs

  /** Every call of the run returns. */
  ghost predicate RunReturns(l: Log, ops: seq<Op>)
    requires Balanced(l)
    decreases |ops|
  {
    ops == [] || (Returns(l.s, ops[0]) && (StepBalances(l, ops[0]); RunReturns(Step(l, ops[0]), ops[1..])))
  }

  ghost function Run(l: Log, ops: seq<Op>): (r: Log)
    requires Balanced(l) && RunReturns(l, ops)
    ensures Balanced(r)
    decreases |ops|
  {
    if ops == [] then l else StepBalances(l, ops[0]); Run(Step(l, ops[0]), ops[1..])
  }

  /** Any run of calls keeps the books balanced: whatever fails, every accepted character is on the
      wire or pending, in order; and until something fails it is there once. */
  lemma RunConserves(env: Script, ops: seq<Op>)
    requires RunReturns(Start(env), ops)
    ensures var r := Run(Start(env), ops);
      && r.taken + Unread(r.s) == r.s.received
      && Subsequence(r.accepted, r.s.sent + Pending(r.s))
      && (!r.failed ==> r.s.sent + Pending(r.s) == r.accepted)
  {
    var r := Run(Start(env), ops);
    SubsequenceExtends(Settled(r), r.s.sent, Pending(r.s));
  }

  // ---------------------------------------------------------------- after close

  lemma CallKeepsInv(s: Stream, op: Op)
    requires Inv(s) && Returns(s, op)
    ensures Inv(Call(s, op).0)
  {
    match op
    case Put(c) => SputcConserves(s, c);
    case Flush => OverflowConserves(s, None);
    case SetBuffer(isNull, n) => SetBufConserves(s, isNull, n);
    case Peek => ReadConserves(s);
    case Read => ReadConserves(s);
    case Expire(_) =>
  }

  ghost predicate CallsReturn(s: Stream, ops: seq<Op>)
    requires Inv(s)
    decreases |ops|
  {
    ops == [] || (Returns(s, ops[0]) && (CallKeepsInv(s, ops[0]); CallsReturn(Call(s, ops[0]).0, ops[1..])))
  }

  ghost function CallAll(s: Stream, ops: seq<Op>): Stream
    requires Inv(s) && CallsReturn(s, ops)
    decreases |ops|
  {
    if ops == [] then s else CallKeepsInv(s, ops[0]); CallAll(Call(s, ops[0]).0, ops[1..])
  }

  /** What a call can do without a socket: a write needs room in the put area, a flush must have nothing
      to send, and a read needs unread input. */
  ghost predicate Rebuffed(s: Stream, op: Op, reply: Reply)
    requires Inv(s)
  {
    match op
    case Put(_) => reply == Done(s.pptr < s.epptr || (s.put != [] && Pending(s) == []))
    case Flush => reply == Done(Pending(s) == [])
    case Peek => reply.Got? && (reply.c.None? <==> Unread(s) == [])
    case Read => reply.Got? && (reply.c.None? <==> Unread(s) == [])
    case _ => true
  }

  ghost predicate AllRebuffed(s: Stream, ops: seq<Op>)
    requires Inv(s) && CallsReturn(s, ops)
    decreases |ops|
  {
    ops == [] || (
      && Rebuffed(s, ops[0], Call(s, ops[0]).1)
      && (CallKeepsInv(s, ops[0]); AllRebuffed(Call(s, ops[0]).0, ops[1..])))
  }

  lemma GoneCall(s: Stream, op: Op)
    requires Inv(s) && SocketGone(s.env)
    ensures Returns(s, op)
    ensures var (t, reply) := Call(s, op);
      t.env == s.env && t.sent == s.sent && t.received == s.received && Rebuffed(s, op, reply)
  {
    match op
    case Put(c) => GoneFlush(s, Some(c));
    case Flush => GoneFlush(s, None);
    case SetBuffer(isNull, n) => SetBufConserves(s, isNull, n);
    case Peek => GoneRead(s);
    case Read => GoneRead(s);
    case Expire(_) =>
  }

  lemma {:induction false} GoneCalls(s: Stream, ops: seq<Op>)
    requires Inv(s) && SocketGone(s.env)
    ensures CallsReturn(s, ops) && AllRebuffed(s, ops)
    ensures CallAll(s, ops).sent == s.sent && CallAll(s, ops).received == s.received
    decreases |ops|
  {
    hide Call, Returns, Rebuffed;
    if ops != [] {
      GoneCall(s, ops[0]);
      CallKeepsInv(s, ops[0]);
      GoneCalls(Call(s, ops[0]).0, ops[1..]);
    }
  }

  /** Nothing passes through the socket after `close`, whether it succeeded or not: every later call
      returns, none sends or receives anything, a flush with something to send fails, and a read with
      nothing unread is at end of file. */
  lemma NothingAfterClose(s: Stream, closed: ErrorCode, ops: seq<Op>)
    requires Inv(s) && FlushReturns(s, None)
    ensures var t := Close(s, closed).0;
      && Inv(t) && CallsReturn(t, ops) && AllRebuffed(t, ops)
      && CallAll(t, ops).sent == t.sent && CallAll(t, ops).received == t.received == s.received
  {
    CloseMayLoseOutput(s, closed);
    OverflowConserves(s, None);
    GoneCalls(Close(s, closed).0, ops);
  }

  // ---------------------------------------------------------------- buffering

  /** Write each of `cs`, then sync. */
  function WriteAll(cs: seq<byte>): seq<Op> {
    if cs == [] then [Flush] else [Put(cs[0])] + WriteAll(cs[1..])
  }

  lemma FirstThenRest(a: seq<byte>, cs: seq<byte>)
    requires cs != []
    ensures (a + [cs[0]]) + cs[1..] == a + cs
  {
  }

  /** If nothing fails, exactly `cs` was accepted and nothing is left pending. */
  lemma {:induction false} WriteAllAccepts(l: Log, cs: seq<byte>)
    requires Balanced(l) && RunReturns(l, WriteAll(cs))
    ensures var r := Run(l, WriteAll(cs));
      !r.failed ==> !l.failed && r.accepted == l.accepted + cs && Pending(r.s) == []
    decreases |cs|
  {
    hide Step, Returns, Subsequence;
    var ops := WriteAll(cs);
    StepBalances(l, ops[0]);
    if cs == [] {
      assert ops[1..] == [];
    } else {
      assert ops[1..] == WriteAll(cs[1..]);
      WriteAllAccepts(Step(l, ops[0]), cs[1..]);
      FirstThenRest(l.accepted, cs);
    }
  }

  /** Buffered and unbuffered streams put the same bytes on the wire: the same characters and a sync,
      with no failures, under any two operating systems and from any two points at which the streams
      agree, leave the same wire. */
  lemma BufferingIsInvisible(buffered: Log, unbuffered: Log, cs: seq<byte>)
    requires Balanced(buffered) && Balanced(unbuffered) && buffered.accepted == unbuffered.accepted
    requires buffered.s.put != [] && unbuffered.s.put == []
    requires RunReturns(buffered, WriteAll(cs)) && RunReturns(unbuffered, WriteAll(cs))
    ensures var a, b := Run(buffered, WriteAll(cs)), Run(unbuffered, WriteAll(cs));
      !a.failed && !b.failed ==> a.s.sent == b.s.sent == buffered.accepted + cs
  {
    WriteAllAccepts(buffered, cs);
    WriteAllAccepts(unbuffered, cs);
  }
}
