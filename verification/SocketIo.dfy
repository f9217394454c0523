/** The retry loops of the socket stream buffer over a non-blocking socket.
    The operating system is an endless script of rounds. Each pass of a loop reads the clock, asks for
    one transfer and, if that would block, polls; the script says what each of these answers. */
module SocketIo {
  import opened Common

  datatype ErrorCode =
    | Success | WouldBlock | TryAgain | InProgress | TimedOut | Eof | NotFound | BadDescriptor
    | System(code: int)

  /** `Sent(n)`: the kernel takes up to `n` of the characters offered. */
  datatype SendAnswer = Sent(count: nat) | SendFailed(ec: ErrorCode)

  /** `Received(data)`: the kernel hands over as much of `data` as fits; none at all means end of file. */
  datatype RecvAnswer = Received(data: seq<byte>) | RecvFailed(ec: ErrorCode)

  /** `Woken` stands for any non-negative poll result: ready or timed out. */
  datatype PollAnswer = Woken | PollFailed(ec: ErrorCode)

  datatype Round = Round(now: int, send: SendAnswer, recv: RecvAnswer, poll: PollAnswer)

  type Script = nat -> Round

  predicate Retriable(ec: ErrorCode) {
    ec == WouldBlock || ec == TryAgain
  }

  /** A pass of the send loop that neither transfers anything nor leaves the loop. */
  function SendBlocked(env: Script, expiry: int): nat -> bool {
    (k: nat) =>
      var r := env(k);
      r.now <= expiry && r.send.SendFailed? && Retriable(r.send.ec) && r.poll.Woken?
  }

  function RecvBlocked(env: Script, expiry: int): nat -> bool {
    (k: nat) =>
      var r := env(k);
      r.now <= expiry && r.recv.RecvFailed? && Retriable(r.recv.ec) && r.poll.Woken?
  }

  /** Not every round from `k` on is blocked. */
  ghost predicate UsefulFrom(blocked: nat -> bool, k: nat) {
    exists j: nat :: k <= j && !blocked(j)
  }

  ghost predicate IsNext(blocked: nat -> bool, at: nat, j: nat) {
    at <= j && !blocked(j) && forall i: nat :: at <= i < j ==> blocked(i)
  }

  /** The next useful round: what the receive loop waits for. */
  ghost function Next(blocked: nat -> bool, at: nat): (j: nat)
    requires UsefulFrom(blocked, at)
    ensures IsNext(blocked, at, j)
  {
    NextExists(blocked, at);
    var j: nat :| IsNext(blocked, at, j);
    j
  }

  lemma NextExists(blocked: nat -> bool, at: nat)
    requires UsefulFrom(blocked, at)
    ensures exists j: nat :: IsNext(blocked, at, j)
  {
    var bound: nat :| at <= bound && !blocked(bound);
    var j := at;
    while blocked(j)
      invariant at <= j <= bound && forall i: nat :: at <= i < j ==> blocked(i)
      decreases bound - j
    {
      j := j + 1;
    }
    assert IsNext(blocked, at, j);
  }

  /** A blocked round brings the loop one closer to the same useful round. */
  lemma NextCloser(blocked: nat -> bool, at: nat)
    requires UsefulFrom(blocked, at) && blocked(at)
    ensures UsefulFrom(blocked, at + 1) && at < Next(blocked, at) == Next(blocked, at + 1)
  {
    var i := Next(blocked, at);
    assert at + 1 <= i && !blocked(i);
    var j := Next(blocked, at + 1);
    assert i <= j && j <= i;
  }

  // ---------------------------------------------------------------- sending

  /** A round on which the send loop gives up, whatever is left to send. */
  predicate GivesUp(r: Round, expiry: int) {
    || expiry < r.now
    || r.send == Sent(0)
    || (r.send.SendFailed? && (!Retriable(r.send.ec) || r.poll.PollFailed?))
  }

  /** The error code a round leaves on which the loop gives up. */
  function GiveUpCode(r: Round, expiry: int): ErrorCode
    requires GivesUp(r, expiry)
  {
    if expiry < r.now then TimedOut
    else if r.send.Sent? then Success
    else if r.poll.PollFailed? && Retriable(r.send.ec) then r.poll.ec
    else r.send.ec
  }

  /** The characters one pass transfers when `left` are left to send. */
  function Progress(r: Round, expiry: int, left: nat): (k: nat)
    ensures k <= left
  {
    if r.now <= expiry && r.send.Sent? then Min(r.send.count, left) else 0
  }

  /** Characters transferred by passes over rounds `at..at + n`, were none of them to leave the loop. */
  function Transferred(env: Script, expiry: int, at: nat, left: nat, n: nat): (total: nat)
    ensures total <= left
    decreases n
  {
    if n == 0 then 0
    else
      var k := Progress(env(at), expiry, left);
      k + Transferred(env, expiry, at + 1, left - k, n - 1)
  }

  /** After `n` passes nothing is left to send, or the next pass gives up. */
  predicate EndsAfter(env: Script, expiry: int, at: nat, left: nat, n: nat) {
    Transferred(env, expiry, at, left, n) == left || GivesUp(env(at + n), expiry)
  }

  /** The send loop, entered on round `at` with `left` characters to send, comes to an end. */
  ghost predicate SendReturns(env: Script, expiry: int, at: nat, left: nat) {
    exists n: nat :: EndsAfter(env, expiry, at, left, n)
  }

  ghost predicate IsLeast(env: Script, expiry: int, at: nat, left: nat, n: nat) {
    EndsAfter(env, expiry, at, left, n) && forall m: nat :: m < n ==> !EndsAfter(env, expiry, at, left, m)
  }

  /** The passes the loop takes before it ends: its termination measure. */
  ghost function Passes(env: Script, expiry: int, at: nat, left: nat): (n: nat)
    requires SendReturns(env, expiry, at, left)
    ensures IsLeast(env, expiry, at, left, n)
  {
    LeastExists(env, expiry, at, left);
    var n: nat :| IsLeast(env, expiry, at, left, n);
    n
  }

  lemma LeastExists(env: Script, expiry: int, at: nat, left: nat)
    requires SendReturns(env, expiry, at, left)
    ensures exists n: nat :: IsLeast(env, expiry, at, left, n)
  {
    var bound: nat :| EndsAfter(env, expiry, at, left, bound);
    var n := 0;
    while !EndsAfter(env, expiry, at, left, n)
      invariant n <= bound && forall m: nat :: m < n ==> !EndsAfter(env, expiry, at, left, m)
      decreases bound - n
    {
      n := n + 1;
    }
    assert IsLeast(env, expiry, at, left, n);
  }

  /** A pass that does not end the loop brings it one closer to its end. */
  lemma PassesCloser(env: Script, expiry: int, at: nat, left: nat)
    requires SendReturns(env, expiry, at, left) && left > 0 && !GivesUp(env(at), expiry)
    ensures var less := left - Progress(env(at), expiry, left);
      && SendReturns(env, expiry, at + 1, less)
      && Passes(env, expiry, at + 1, less) < Passes(env, expiry, at, left)
  {
    var n := Passes(env, expiry, at, left);
    assert n > 0;
    assert EndsAfter(env, expiry, at + 1, left - Progress(env(at), expiry, left), n - 1);
  }

  /** With nothing to send the loop is not entered. */
  lemma NothingToSend(env: Script, expiry: int, at: nat)
    ensures SendReturns(env, expiry, at, 0)
  {
    assert EndsAfter(env, expiry, at, 0, 0);
  }

  /** Fairness is enough for the loop to end, whatever the number of characters: it ends if every
      blocked round is followed by one that is not. */
  lemma {:induction false} FairReturns(env: Script, expiry: int, at: nat, left: nat)
    requires forall k: nat :: at <= k ==> UsefulFrom(SendBlocked(env, expiry), k)
    ensures SendReturns(env, expiry, at, left)
    decreases left, Next(SendBlocked(env, expiry), at) - at
  {
    var blocked := SendBlocked(env, expiry);
    if left == 0 {
      NothingToSend(env, expiry, at);
    } else if GivesUp(env(at), expiry) {
      assert EndsAfter(env, expiry, at, left, 0);
    } else {
      if blocked(at) {
        NextCloser(blocked, at);
      }
      var less := left - Progress(env(at), expiry, left);
      FairReturns(env, expiry, at + 1, less);
      var n: nat :| EndsAfter(env, expiry, at + 1, less, n);
      assert EndsAfter(env, expiry, at, left, n + 1);
    }
  }

  /** On a script that blocks for ever from round `at` on, no number of passes transfers a character
      or gives up: the loop does not end. */
  lemma {:induction false} BlockedForeverNeverLeaves(env: Script, expiry: int, at: nat, left: nat)
    requires left > 0 && !UsefulFrom(SendBlocked(env, expiry), at)
    ensures forall n: nat :: Transferred(env, expiry, at, left, n) == 0
    ensures !SendReturns(env, expiry, at, left)
  {
    forall n: nat ensures Transferred(env, expiry, at, left, n) == 0 && !GivesUp(env(at + n), expiry) {
      BlockedTransfersNothing(env, expiry, at, left, n);
      assert SendBlocked(env, expiry)(at + n);
    }
  }

  lemma {:induction false} BlockedTransfersNothing(env: Script, expiry: int, at: nat, left: nat, n: nat)
    requires !UsefulFrom(SendBlocked(env, expiry), at)
    ensures Transferred(env, expiry, at, left, n) == 0
    decreases n
  {
    if n > 0 {
      assert SendBlocked(env, expiry)(at);
      BlockedTransfersNothing(env, expiry, at + 1, left, n - 1);
    }
  }

  /** How the send loop ended: `ok` if everything went out, how many characters went out, the next
      round of the script, and the error code it leaves. */
  datatype SendResult = SendResult(ok: bool, count: nat, at: nat, ec: ErrorCode)

  ghost function SendAll(env: Script, expiry: int, at: nat, out: seq<byte>, ec: ErrorCode): (r: SendResult)
    requires SendReturns(env, expiry, at, |out|)
    ensures r.count <= |out|
    decreases Passes(env, expiry, at, |out|)
  {
    if out == [] then SendResult(true, 0, at, ec)
    else
      var round := env(at);
      if expiry < round.now then SendResult(false, 0, at + 1, TimedOut)
      else match round.send
        case Sent(n) =>
          if n == 0 then SendResult(false, 0, at + 1, Success)
          else
            var k := Min(n, |out|);
            PassesCloser(env, expiry, at, |out|);
            var rest := SendAll(env, expiry, at + 1, out[k..], Success);
            rest.(count := k + rest.count)
        case SendFailed(e) =>
          if !Retriable(e) then SendResult(false, 0, at + 1, e)
          else match round.poll
            case PollFailed(p) => SendResult(false, 0, at + 1, p)
            case Woken =>
              PassesCloser(env, expiry, at, |out|);
              SendAll(env, expiry, at + 1, out, Success)
  }

  /** None of the rounds `at..at + n` makes the loop give up. */
  predicate NoneGivesUp(env: Script, expiry: int, at: nat, n: nat) {
    forall i: nat :: at <= i < at + n ==> !GivesUp(env(i), expiry)
  }

  /** The first `n` passes transfer everything, and none of them gives up. */
  predicate SentIn(env: Script, expiry: int, at: nat, left: nat, n: nat) {
    Transferred(env, expiry, at, left, n) == left && NoneGivesUp(env, expiry, at, n)
  }

  /** The loop reports success exactly when some number of passes transfers everything before a round
      gives up; it always says how much it transferred, and leaves the error code of the round it gave
      up on. With nothing to send it looks at no round. */
  lemma SendAllOk(env: Script, expiry: int, at: nat, out: seq<byte>, ec: ErrorCode)
    requires SendReturns(env, expiry, at, |out|)
    ensures var r := SendAll(env, expiry, at, out, ec);
      && (r.ok <==> exists n: nat :: SentIn(env, expiry, at, |out|, n))
      && (r.ok <==> r.count == |out|)
      && at <= r.at && r.count == Transferred(env, expiry, at, |out|, r.at - at)
      && (!r.ok ==> at < r.at && GivesUp(env(r.at - 1), expiry) && NoneGivesUp(env, expiry, at, r.at - 1 - at)
                    && r.ec == GiveUpCode(env(r.at - 1), expiry))
      && (r.ok ==> r.ec == if out == [] then ec else Success)
      && (out == [] ==> r.at == at)
  {
    var r := SendAll(env, expiry, at, out, ec);
    SendAllEnds(env, expiry, at, out, ec);
    if r.ok {
      assert SentIn(env, expiry, at, |out|, r.at - at);
    } else if n: nat :| SentIn(env, expiry, at, |out|, n) {
      TransferredGrows(env, expiry, at, |out|, n, r.at - at);
    }
  }

  lemma {:induction false} SendAllEnds(env: Script, expiry: int, at: nat, out: seq<byte>, ec: ErrorCode)
    requires SendReturns(env, expiry, at, |out|)
    ensures var r := SendAll(env, expiry, at, out, ec);
      && at <= r.at && r.count == Transferred(env, expiry, at, |out|, r.at - at)
      && (r.ok <==> r.count == |out|)
      && (r.ok ==> NoneGivesUp(env, expiry, at, r.at - at))
      && (!r.ok ==> at < r.at && GivesUp(env(r.at - 1), expiry) && NoneGivesUp(env, expiry, at, r.at - 1 - at)
                    && r.ec == GiveUpCode(env(r.at - 1), expiry))
      && (r.ok ==> r.ec == if out == [] then ec else Success)
    decreases Passes(env, expiry, at, |out|)
  {
    hide SendReturns, Passes;
    if out != [] {
      var r := SendAll(env, expiry, at, out, ec);
      if GivesUp(env(at), expiry) {
        assert Transferred(env, expiry, at, |out|, 1) == 0;
      } else {
        var rest := SendAllNext(env, expiry, at, out, ec);
        assert |rest| == |out| - Progress(env(at), expiry, |out|);
        SendAllEnds(env, expiry, at + 1, rest, Success);
      }
    }
  }

  /** After a round that does not give up, the loop goes on with what is left. */
  lemma SendAllNext(env: Script, expiry: int, at: nat, out: seq<byte>, ec: ErrorCode) returns (rest: seq<byte>)
    requires SendReturns(env, expiry, at, |out|) && out != [] && !GivesUp(env(at), expiry)
    ensures rest == if env(at).send.Sent? then out[Min(env(at).send.count, |out|)..] else out
    ensures SendReturns(env, expiry, at + 1, |rest|)
    ensures Passes(env, expiry, at + 1, |rest|) < Passes(env, expiry, at, |out|)
    ensures var r, q := SendAll(env, expiry, at, out, ec), SendAll(env, expiry, at + 1, rest, Success);
      r == q.(count := |out| - |rest| + q.count)
  {
    hide SendReturns, Passes;
    PassesCloser(env, expiry, at, |out|);
    rest := out[Progress(env(at), expiry, |out|)..];
    if env(at).send.SendFailed? {
      assert rest == out;
    }
  }

  lemma {:induction false} TransferredGrows(env: Script, expiry: int, at: nat, left: nat, m: nat, n: nat)
    requires m <= n
    ensures Transferred(env, expiry, at, left, m) <= Transferred(env, expiry, at, left, n)
    decreases n
  {
    if m > 0 {
      TransferredGrows(env, expiry, at + 1, left - Progress(env(at), expiry, left), m - 1, n - 1);
    }
  }

  /** The loop has sent `from` of `all`; going on from here it ends as `goal` says. */
  ghost predicate Sending(env: Script, expiry: int, goal: SendResult, all: seq<byte>, from: nat, at: nat, ec: ErrorCode)
    requires from <= |all| && SendReturns(env, expiry, at, |all| - from)
  {
    var rest := SendAll(env, expiry, at, all[from..], ec);
    goal == rest.(count := from + rest.count)
  }

  lemma SendingStarts(env: Script, expiry: int, at: nat, all: seq<byte>, ec: ErrorCode)
    requires SendReturns(env, expiry, at, |all|)
    ensures Sending(env, expiry, SendAll(env, expiry, at, all, ec), all, 0, at, ec)
  {
    assert all[0..] == all;
  }

  /** One pass: it gives up with the code of its round, or goes on after what it transferred. */
  lemma SendingStep(env: Script, expiry: int, goal: SendResult, all: seq<byte>, from: nat, at: nat, ec: ErrorCode)
    requires from < |all| && SendReturns(env, expiry, at, |all| - from)
    requires Sending(env, expiry, goal, all, from, at, ec)
    ensures GivesUp(env(at), expiry) ==> goal == SendResult(false, from, at + 1, GiveUpCode(env(at), expiry))
    ensures !GivesUp(env(at), expiry) ==>
      var next := from + Progress(env(at), expiry, |all| - from);
      && SendReturns(env, expiry, at + 1, |all| - next)
      && Sending(env, expiry, goal, all, next, at + 1, Success)
      && Passes(env, expiry, at + 1, |all| - next) < Passes(env, expiry, at, |all| - from)
  {
    hide SendReturns, Passes;
    if !GivesUp(env(at), expiry) {
      var rest := SendAllNext(env, expiry, at, all[from..], ec);
      assert rest == all[|all| - |rest|..];
    }
  }

  lemma SendingDone(env: Script, expiry: int, goal: SendResult, all: seq<byte>, at: nat, ec: ErrorCode)
    requires SendReturns(env, expiry, at, 0) && Sending(env, expiry, goal, all, |all|, at, ec)
    ensures goal == SendResult(true, |all|, at, ec)
  {
  }

  // ---------------------------------------------------------------- receiving

  /** How the receive loop ended: the characters it read (none means end of file or failure). */
  datatype RecvResult = RecvResult(data: seq<byte>, at: nat, ec: ErrorCode)

  ghost function ReceiveSome(env: Script, expiry: int, at: nat, room: nat): (r: RecvResult)
    requires UsefulFrom(RecvBlocked(env, expiry), at)
    ensures |r.data| <= room
    decreases Next(RecvBlocked(env, expiry), at) - at
  {
    var round := env(at);
    if expiry < round.now then RecvResult([], at + 1, TimedOut)
    else match round.recv
      case Received(data) =>
        var chunk := data[..Min(|data|, room)];
        RecvResult(chunk, at + 1, if chunk != [] then Success else Eof)
      case RecvFailed(e) =>
        if !Retriable(e) then RecvResult([], at + 1, e)
        else match round.poll
          case PollFailed(p) => RecvResult([], at + 1, p)
          case Woken =>
            NextCloser(RecvBlocked(env, expiry), at);
            ReceiveSome(env, expiry, at + 1, room)
  }

  /** The error code of a round that ends the receive loop, which got something or did not. */
  function RecvCode(r: Round, expiry: int, got: bool): ErrorCode
    requires r.now <= expiry && r.recv.RecvFailed? && Retriable(r.recv.ec) ==> r.poll.PollFailed?
  {
    if expiry < r.now then TimedOut
    else if r.recv.Received? then (if got then Success else Eof)
    else if Retriable(r.recv.ec) then r.poll.ec
    else r.recv.ec
  }

  /** The receive loop skips exactly the blocked rounds: it answers from the next useful one, with what
      that hands over and with its error code. */
  lemma {:induction false} ReceivesFromNext(env: Script, expiry: int, at: nat, room: nat)
    requires UsefulFrom(RecvBlocked(env, expiry), at)
    ensures var j, r := Next(RecvBlocked(env, expiry), at), ReceiveSome(env, expiry, at, room);
      && r.at == j + 1
      && r.data == (if env(j).now <= expiry && env(j).recv.Received?
                    then env(j).recv.data[..Min(|env(j).recv.data|, room)] else [])
      && r.ec == RecvCode(env(j), expiry, r.data != [])
    decreases Next(RecvBlocked(env, expiry), at) - at
  {
    if RecvBlocked(env, expiry)(at) {
      NextCloser(RecvBlocked(env, expiry), at);
      ReceivesFromNext(env, expiry, at + 1, room);
    }
  }
}
