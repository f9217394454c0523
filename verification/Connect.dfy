/** The loop of `basic_socket_streambuf` that tries a list of endpoints in order. */
module Connect {
  import opened Common
  import opened SocketIo

  /** A system call that fails never leaves the error code clear. */
  type Failure = ec: ErrorCode | ec != Success witness TimedOut

  datatype PollResult = PollError(failure: Failure) | PollTimeout | PollReady

  /** The answer to reading the socket's pending error: the call fails, or yields a code that is
      clear if there is none. */
  datatype PendingError = QueryFailed(failure: Failure) | Code(ec: ErrorCode)

  /** What the operating system answers for one endpoint, and whether the socket is in fact
      connected to it afterwards. */
  datatype Attempt = Attempt(now: int, open: ErrorCode, connect: ErrorCode, poll: PollResult,
                             pending: PendingError, connected: bool)

  /** What one pass of the loop does: leave it, with an error code, or go on to the next endpoint. */
  datatype Verdict = Leave(ec: ErrorCode) | TryNext(ec: ErrorCode)

  function Try(a: Attempt, expiry: int): Verdict {
    if expiry < a.now then Leave(TimedOut)
    else if a.open != Success then TryNext(a.open)
    else if a.connect == Success then Leave(Success)
    else if a.connect != InProgress && a.connect != WouldBlock then TryNext(a.connect)
    else match a.poll
      case PollError(ec) => TryNext(ec)
      case _ =>
        match a.pending
        case QueryFailed(ec) => Leave(ec)
        case Code(ec) => if ec == Success then Leave(Success) else TryNext(ec)
  }

  /** The kernel's word: an attempt that completes at once, or that is ready with no pending
      error, has connected. A poll that merely timed out says nothing. */
  predicate Truthful(a: Attempt) {
    a.connect == Success || (a.poll.PollReady? && a.pending == Code(Success)) ==> a.connected
  }

  /** The error code the loop ends with, and the index of the endpoint it stopped at (the length of
      the list if it ran off the end). */
  function Outcome(attempts: seq<Attempt>, expiry: int, from: nat, ec: ErrorCode): (ErrorCode, nat)
    requires from <= |attempts|
    decreases |attempts| - from
  {
    if from == |attempts| then (ec, from)
    else match Try(attempts[from], expiry)
      case Leave(e) => (e, from)
      case TryNext(e) => Outcome(attempts, expiry, from + 1, e)
  }

  // ---------------------------------------------------------------- what the system's answers mean

  predicate PastExpiry(a: Attempt, expiry: int) {
    expiry < a.now
  }

  /** The connection is being set up, and waiting for it did not fail. */
  predicate Waited(a: Attempt) {
    a.open == Success && (a.connect == InProgress || a.connect == WouldBlock) && !a.poll.PollError?
  }

  /** The endpoint is reported connected: at once, or by a clear pending error after the wait. */
  predicate Reached(a: Attempt) {
    || (a.open == Success && a.connect == Success)
    || (Waited(a) && a.pending == Code(Success))
  }

  /** The socket cannot even be asked what became of the attempt. */
  predicate QueryBroke(a: Attempt) {
    Waited(a) && a.pending.QueryFailed?
  }

  /** The attempt failed for this endpoint alone, with code `e`: opening, connecting, or waiting failed,
      or the pending error says that connecting did. */
  predicate FailedWith(a: Attempt, e: ErrorCode) {
    && e != Success
    && (|| e == a.open
        || (a.open == Success && a.connect != InProgress && a.connect != WouldBlock && e == a.connect)
        || (a.open == Success && (a.connect == InProgress || a.connect == WouldBlock)
            && a.poll.PollError? && e == a.poll.failure)
        || (Waited(a) && a.pending == Code(e)))
  }

  /** The first `k` endpoints were all tried in time and failed, each for itself. */
  ghost predicate AllFailed(attempts: seq<Attempt>, expiry: int, k: nat) {
    k <= |attempts| && forall j :: 0 <= j < k ==> FailedInTime(attempts[j], expiry)
  }

  ghost predicate FailedInTime(a: Attempt, expiry: int) {
    !PastExpiry(a, expiry) && exists e :: FailedWith(a, e)
  }

  /** The loop may end with code `e` at endpoint `i`: all before it failed, and it is past the expiry
      time, or reached, or cannot be asked; or there is none left, and `e` is the last failure. */
  ghost predicate EndsAt(attempts: seq<Attempt>, expiry: int, e: ErrorCode, i: nat) {
    && AllFailed(attempts, expiry, i)
    && if i == 0 == |attempts| then e == NotFound
       else if i == |attempts| then FailedWith(attempts[i - 1], e)
       else EndsLoop(attempts[i], expiry, e)
  }

  predicate EndsLoop(a: Attempt, expiry: int, e: ErrorCode) {
    if PastExpiry(a, expiry) then e == TimedOut
    else if Reached(a) then e == Success
    else QueryBroke(a) && e == a.pending.failure
  }

  /** Endpoint `k` is reached in time, and every earlier one failed for itself. */
  ghost predicate FirstReached(attempts: seq<Attempt>, expiry: int, k: nat) {
    k < |attempts| && AllFailed(attempts, expiry, k) && !PastExpiry(attempts[k], expiry) && Reached(attempts[k])
  }

  // ---------------------------------------------------------------- the loop

  /** An attempt in time is reached, or fails for itself with one code, or breaks the loop. */
  lemma AttemptCases(a: Attempt)
    ensures Reached(a) ==> !QueryBroke(a) && forall e :: !FailedWith(a, e)
    ensures QueryBroke(a) ==> forall e :: !FailedWith(a, e)
    ensures forall d, e :: FailedWith(a, d) && FailedWith(a, e) ==> d == e
  {
  }

  /** There is only one way for the loop to end. */
  lemma EndsOnce(attempts: seq<Attempt>, expiry: int, d: ErrorCode, i: nat, e: ErrorCode, k: nat)
    requires EndsAt(attempts, expiry, d, i) && EndsAt(attempts, expiry, e, k)
    ensures i == k && d == e
  {
    if i < |attempts| {
      EndIsNoFailure(attempts[i], expiry, d);
    }
    if k < |attempts| {
      EndIsNoFailure(attempts[k], expiry, e);
    }
    if 0 < i == k == |attempts| {
      AttemptCases(attempts[i - 1]);
    }
  }

  lemma EndIsNoFailure(a: Attempt, expiry: int, e: ErrorCode)
    requires EndsLoop(a, expiry, e)
    ensures !FailedInTime(a, expiry)
  {
    AttemptCases(a);
  }

  /** From any endpoint whose predecessors all failed, the loop ends as the answers demand. */
  lemma {:induction false} OutcomeFrom(attempts: seq<Attempt>, expiry: int, from: nat, ec: ErrorCode)
    requires from <= |attempts| && AllFailed(attempts, expiry, from)
    requires if from == 0 then ec == NotFound else FailedWith(attempts[from - 1], ec)
    ensures var (e, i) := Outcome(attempts, expiry, from, ec); EndsAt(attempts, expiry, e, i)
    decreases |attempts| - from
  {
    if from < |attempts| && Try(attempts[from], expiry).TryNext? {
      var e := Try(attempts[from], expiry).ec;
      assert FailedWith(attempts[from], e);
      OutcomeFrom(attempts, expiry, from + 1, e);
    }
  }

  /** The loop ends as the answers of the operating system demand. It is free of error exactly when some
      endpoint is reached and every earlier one was tried in time and failed for itself; a first attempt
      past the expiry time, or one that cannot be asked, ends it with `TimedOut` or the code of the
      query. An empty list gives `NotFound`, one that runs out the failure of its last endpoint. If what
      the kernel says is true, success means connected, or that the poll of the attempt timed out. */
  lemma ConnectsToFirst(attempts: seq<Attempt>, expiry: int)
    requires forall a :: a in attempts ==> Truthful(a)
    ensures var (e, i) := Outcome(attempts, expiry, 0, NotFound);
      && EndsAt(attempts, expiry, e, i)
      && (forall d, k :: EndsAt(attempts, expiry, d, k) ==> d == e && k == i)
      && (e == Success <==> exists k :: FirstReached(attempts, expiry, k))
      && (e == Success ==> FirstReached(attempts, expiry, i))
      && (e == Success ==> attempts[i].connected || (attempts[i].connect != Success && attempts[i].poll.PollTimeout?))
  {
    OutcomeFrom(attempts, expiry, 0, NotFound);
    var (e, i) := Outcome(attempts, expiry, 0, NotFound);
    forall d, k | EndsAt(attempts, expiry, d, k) ensures d == e && k == i {
      EndsOnce(attempts, expiry, d, k, e, i);
    }
    forall k | FirstReached(attempts, expiry, k) ensures e == Success {
      assert EndsAt(attempts, expiry, Success, k);
    }
    if e == Success {
      assert attempts[i] in attempts && Reached(attempts[i]);
      assert FirstReached(attempts, expiry, i);
    }
  }

  /** When a reported success is one: what an attempt answered vouches for the connection exactly if it
      completed at once or its poll found the socket ready. */
  lemma SuccessMeansConnected(a: Attempt)
    requires Reached(a)
    ensures (forall connected: bool :: Truthful(a.(connected := connected)) ==> connected)
      <==> a.connect == Success || a.poll.PollReady?
  {
    if a.connect != Success && !a.poll.PollReady? {
      assert Truthful(a.(connected := false));
    }
  }

  /** A poll that times out is taken for success if the socket has no pending error: the loop may end
      without an error on a socket that is still connecting. */
  lemma TimedOutPollLooksConnected(now: int, expiry: int, ec: ErrorCode)
    requires now <= expiry
    ensures var a := Attempt(now, Success, InProgress, PollTimeout, Code(Success), false);
      Truthful(a) && Outcome([a], expiry, 0, ec) == (Success, 0) && !a.connected
  {
  }
}
