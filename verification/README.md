# Verified model of the LuaAsio event loop and its asio stream buffers

Three state machines of this repository are modelled here, and properties of all their runs are proved.

1. **`basic_streambuf`** (`Streambuf.dfy`, `StreambufRuns.dfy`): a queue of characters kept in one array with
   five cursors. Room is made by shifting the characters down in place or by growing the array, up to a cap, and
   the end of the get area is refreshed lazily. The main result is that over whole runs the object cannot be told
   from a plain list, together with the exact conditions under which a call fails, what a failed call leaves
   behind, and what the shifting costs.
2. **`basic_socket_streambuf`** (`SocketIo.dfy`, `SocketStreambuf.dfy`, `SocketRuns.dfy`, `Channel.dfy`,
   `Connect.dfy`): a buffered reader and writer over a non-blocking socket. The operating system is an endless
   script that decides the clock, how much each send and receive moves, when they would block, and what fails. The
   main results are that no accepted character is ever lost and none is sent twice before the first failure, that
   buffering cannot be seen on the wire, and that two such objects joined by an ordered connection deliver a prefix
   of what was written, whatever the script says.
3. **The event protocol of `luaAsio.cpp`** (`EventLoop.dfy`, `EventInvariants.dfy`, `EventSteps.dfy`,
   `EventHandlers.dfy`, `EventRuns.dfy`, `EventEffects.dfy`, `EventCalls.dfy`, `EventProgress.dfy`, `LuaAsio.dfy`):
   connects, reads, writes, sleeps and accepts are started, finished by the operating system in any order, and turned
   into events that `asio_get` hands out. The main results are that every call is answered once, with the `destId`
   and the other arguments it was made with, in an unbroken stretch of results, and after no more calls of `asio_get`
   that pick it than it has bytes to transfer; that the data handed out is a prefix of the peer's stream; that a
   deleted handle never comes back and its object is freed with its last operation; and that no handler runs on a
   freed object.

Each machine is written twice. Functions on snapshots say what every call does, branch by branch; the theorems
are about them. Classes (`BasicStreambuf`, `BasicSocketStreambuf`, `Process`) hold the fields that the source
updates in place, with its loops, and every method is proved to take the object from one snapshot to the next. A
handler of `Process` also says what it achieves on every reachable state: which events it queues, with which bytes
of the peer's stream, which sockets are closed, which objects freed, and what it leaves alone.

## What the code does and does not keep

Some promises hold only under a condition. Where this says "exactly", the condition is proved to be both sufficient
and necessary. The room asked for by `SlowWritesAmortised` is only a sufficient condition.

- `commit(n)` and `consume(n)` narrow a length to `int`. They do what they promise exactly when the length they
  move is at most 2147483647 (`CommitAppends`, `ConsumeDrops`); longer ones can be reached (`NarrowingBreaks`).
- A `prepare` that throws has already shifted the characters but not the cursors. The reader then sees the queue
  displaced by the offset of `gptr`; it is the same queue exactly when it repeats with that period, so always when
  nothing has been read yet or when at least as much has been read as is left (`FailedReserveDisplaces`,
  `DisplacedIsSame`, `FailedPrepareCorrupts`).
- 128 writes pay for one slow write as long as a whole step of room is left below the cap. At the cap every single
  character shifts the whole buffer (`SlowWritesAmortised`, `NoAmortisationAtCap`).
- A failed flush keeps its whole put area, so a retry sends again what had gone out (`RetryResends`). A caller may
  count on every character going out once, whatever the operating system does, exactly when at most one is pending
  (`RetryIsExact`); with two pending, a system that takes one character and then fails makes the retry send the first
  one twice (`RetryDuplicates`). No failure loses a character (`RunConserves`).
- After `close`, successful or not, nothing passes through the socket any more (`NothingAfterClose`). But `close`
  ignores the result of its flush: it can succeed and drop pending output (`CloseMayLoseOutput`). It loses
  nothing, whatever the operating system does, exactly when nothing is pending (`CloseIsLossless`); on a connection
  that is gone it loses everything pending and still succeeds (`CloseLoses`).
- Moving a socket stream buffer starts the new put area at the old `pptr`: unread input moves along, pending output
  moves along exactly when there is none (`MoveKeepsInput`).
- The connect loop takes a poll that merely timed out for readiness. If the socket has no pending error it then
  reports success while the socket is still connecting (`TimedOutPollLooksConnected`). Success vouches for a
  connection exactly if the attempt completed at once or its poll found the socket ready (`SuccessMeansConnected`,
  `ConnectsToFirst`). `poll_connect` returns 0 without an error on a timeout
  (asio-1.24.0/asio/detail/impl/socket_ops.ipp:2363-2406).
- The documentation of the expiry time names `operation_aborted` as the error of an operation past it
  (asio-1.24.0/asio/basic_socket_streambuf.hpp:360-363); the code reports `timed_out`, and so does the model
  (`SendAllOk`, `ReceivesFromNext`).
- The documentation of `basic_streambuf` gives `size() <= max_size()` as the invariant. It is not inductive; the end of
  the put area has to stay at or below the cap (`Streambuf.Inv`).

## Assumptions

- One thread. A handler never runs inside the call that starts its operation
  (asio-1.24.0/asio/basic_stream_socket.hpp:1062-1065), and only `asio_get` runs handlers.
- Closing an open socket aborts the operations the kernel still has of it (asio-1.24.0/asio/basic_socket.hpp:503-505);
  closing does not throw. A transfer of nothing, or on a closed socket, is done at once
  (asio-1.24.0/asio/detail/impl/reactive_socket_service_base.ipp:236-255).
- A successful receive, send or finished transfer moves at least one byte; end of file is an error to an
  asynchronous read. A send or receive that succeeds clears the error code, and a system call that fails sets one
  (asio-1.24.0/asio/detail/impl/socket_ops.ipp:76-93).
- At most one read is outstanding on a connection (README.md:57 of the repository: each light thread waits for its
  operation). asio asks for this: no other read of a stream while a composed read runs
  (asio-1.24.0/asio/read.hpp:735-737), and buffers that stay valid until the handler is called
  (asio-1.24.0/asio/basic_stream_socket.hpp:1044-1047). `SecondReadSpoils` shows what a second read does to the first.
- A server is not deleted while a connection it has accepted waits for its handler, which would run on the freed
  server; `DeletionIsSafe` shows that this is exactly what the handlers need.
- A call that enters a retry loop returns only if the loop comes to an end. This is a premise of that one call, and
  only of calls that enter a loop: writing into free room, reading what is buffered, `setbuf` and setting the expiry
  time need nothing (`Returns`). A send ends exactly if some number of passes transfers everything or reaches a round
  that gives up (`SendReturns`), for which it is enough that not every round blocks (`FairReturns`,
  `BlockedForeverNeverLeaves`). At the end of a connection, a read with nothing in flight returns as a call made later,
  after the peer has sent something; every other turn needs only the operating system (`TurnReturns`).

## Model

| member | source | states |
|---|---|---|
| Streambuf.ReserveMakesRoom | asio-1.24.0/asio/basic_streambuf.hpp:308-346 | on every path `reserve(n)` throws if and only if `size() + n > max_size()`; on success there is room for `n`, the queue is unchanged, the put area has grown no further than it had to, and nothing is touched if there was room; on failure no cursor moved |
| Streambuf.FailedReserveDisplaces | asio-1.24.0/asio/basic_streambuf.hpp:321-340 | after a throwing `reserve` the reader sees the queue displaced by the offset of `gptr` |
| Streambuf.DisplacedIsSame | asio-1.24.0/asio/basic_streambuf.hpp:321-340 | the displaced queue equals the queue exactly when it repeats with period `gptr`; sufficient: nothing read, or at least as much read as left |
| Streambuf.CommitAppends | asio-1.24.0/asio/basic_streambuf.hpp:233-238 | `commit(n)` keeps the invariant and appends the first `min(n, room)` characters of the put area if and only if that number fits in an `int` |
| Streambuf.ConsumeDrops | asio-1.24.0/asio/basic_streambuf.hpp:247-254 | `consume(n)` keeps the invariant and drops the first `min(n, size())` characters if and only if that number fits in an `int` |
| Streambuf.NarrowingBreaks | asio-1.24.0/asio/basic_streambuf.hpp:233-254 | a new object reaches a state in which `commit` of 2147483648 characters breaks the invariant, and one in which `consume` of as many does |
| Streambuf.SputcAppends | asio-1.24.0/asio/basic_streambuf.hpp:283-306 | writing a character throws if and only if the queue is full, then nothing has changed; otherwise the character is appended, and only a full put area grows, by at most 128 |
| Streambuf.ReadsFront | asio-1.24.0/asio/basic_streambuf.hpp:263-274 | `sgetc` and `sbumpc` return the front of the queue, or end of file exactly if it is empty; only `sbumpc` removes it; the lazy end of the get area hides nothing |
| Streambuf.FillThenCommit | asio-1.24.0/asio/basic_streambuf.hpp:214-238 | filling the prepared region and committing `k` appends the first `k` characters written |
| Streambuf.ReadSizeIsSafe | asio-1.24.0/asio/basic_streambuf.hpp:353-359 | the preferred read size is the largest that fits the limit, the room below the cap and the larger of 512 and the spare capacity; preparing it never throws; it is 0 if and only if the limit is 0 or the queue is full |
| Streambuf.BasicStreambuf.constructor | asio-1.24.0/asio/basic_streambuf.hpp:131-141 | a valid object with an empty queue |
| Streambuf.BasicStreambuf.GetSize | asio-1.24.0/asio/basic_streambuf.hpp:158-161 | the length of the queue, never above the cap |
| Streambuf.BasicStreambuf.Data | asio-1.24.0/asio/basic_streambuf.hpp:192-196 | the whole queue |
| Streambuf.BasicStreambuf.Prepare | asio-1.24.0/asio/basic_streambuf.hpp:214-219 | throws if and only if `size() + n > max_size()`; otherwise room for `n` and the same queue; the new snapshot is that of `reserve` |
| Streambuf.BasicStreambuf.FillPrepared | asio-1.24.0/asio/basic_streambuf.hpp:214-219 | the caller's writes into the prepared region change nothing else |
| Streambuf.BasicStreambuf.CommitOutput | asio-1.24.0/asio/basic_streambuf.hpp:233-238 | the in-place `commit` |
| Streambuf.BasicStreambuf.ConsumeInput | asio-1.24.0/asio/basic_streambuf.hpp:247-254 | the in-place `consume` |
| Streambuf.BasicStreambuf.UnderflowInPlace | asio-1.24.0/asio/basic_streambuf.hpp:263-274 | the in-place `underflow` |
| Streambuf.BasicStreambuf.OverflowInPlace | asio-1.24.0/asio/basic_streambuf.hpp:283-306 | the in-place `overflow`, end of file included |
| Streambuf.BasicStreambuf.Write | asio-1.24.0/asio/basic_streambuf.hpp:277-306 | `sputc`: throws if and only if full and then changes nothing; otherwise appends |
| Streambuf.BasicStreambuf.Peek | asio-1.24.0/asio/basic_streambuf.hpp:263-274 | `sgetc`: the front, the queue unchanged |
| Streambuf.BasicStreambuf.Read | asio-1.24.0/asio/basic_streambuf.hpp:263-274 | `sbumpc`: what is returned followed by what is left is the old queue |
| Streambuf.BasicStreambuf.PreferredReadSize | asio-1.24.0/asio/basic_streambuf.hpp:353-359 | the largest size worth reading at once, within the limit and the room below the cap |
| Streambuf.BasicStreambuf.ReserveInPlace | asio-1.24.0/asio/basic_streambuf.hpp:308-346 | the in-place `reserve`: early return, shift, growth, failure |
| Streambuf.BasicStreambuf.MoveDown | asio-1.24.0/asio/basic_streambuf.hpp:325 | the overlapping copy loop moves the characters down and touches nothing behind them |
| Streambuf.BasicStreambuf.ResizeBuffer | asio-1.24.0/asio/basic_streambuf.hpp:334 | a longer array with the same characters in front |
| StreambufRuns.StepRefines | asio-1.24.0/asio/basic_streambuf.hpp:209-306 | every call answers as a list of at most `max_size()` characters does and leaves the list's queue, except that a throwing `prepare` displaces it |
| StreambufRuns.Run | asio-1.24.0/asio/basic_streambuf.hpp:62-68 | any run, throwing calls included, keeps the invariant, hence `size() <= max_size()` |
| StreambufRuns.RunRefines | asio-1.24.0/asio/basic_streambuf.hpp:214-346 | over any run without a throwing `prepare` all replies and the queue are the list's |
| StreambufRuns.FreshRunRefines | asio-1.24.0/asio/basic_streambuf.hpp:131-346 | the same from the constructor, against a list that starts empty |
| StreambufRuns.FailedPrepareCorrupts | asio-1.24.0/asio/basic_streambuf.hpp:321-345 | a concrete queue that a caught length error changes |
| StreambufRuns.FullQueueReachable | asio-1.24.0/asio/basic_streambuf.hpp:214-238 | prepare, fill and commit take a new object of cap `n` to any queue of `n` characters, so the queue of `FailedPrepareCorrupts` is reachable |
| StreambufRuns.SlowWritesBounded | asio-1.24.0/asio/basic_streambuf.hpp:283-346 | the room in the put area is a potential for slow writes, from any state |
| StreambufRuns.SlowWritesAmortised | asio-1.24.0/asio/basic_streambuf.hpp:283-346 | with a whole step of room below the cap at each full put area, 128 times the slow writes is at most the writes |
| StreambufRuns.NoAmortisationAtCap | asio-1.24.0/asio/basic_streambuf.hpp:290-346 | a full queue used one character at a time makes every write slow |
| SocketIo.SendAllOk | asio-1.24.0/asio/basic_socket_streambuf.hpp:490-523 | the send loop reports success if and only if some number of passes transfers everything before a round gives up; the number of characters it reports is what those passes transfer; it gives up only on its last round, with that round's error code, `timed_out` past the expiry time; with nothing to send it looks at no round |
| SocketIo.PassesCloser | asio-1.24.0/asio/basic_socket_streambuf.hpp:490-523 | a pass that does not end the send loop leaves fewer passes to go: its termination measure, on any script on which it ends |
| SocketIo.FairReturns | asio-1.24.0/asio/basic_socket_streambuf.hpp:490-523 | the send loop ends, whatever it has to send, if no round is the start of blocked rounds only |
| SocketIo.NextCloser | asio-1.24.0/asio/basic_socket_streambuf.hpp:423-464 | a blocked round brings the receive loop closer to the next useful one: its termination measure |
| SocketIo.BlockedForeverNeverLeaves | asio-1.24.0/asio/basic_socket_streambuf.hpp:490-523 | on a script that blocks for ever no number of passes sends anything, and the loop does not end |
| SocketIo.ReceivesFromNext | asio-1.24.0/asio/basic_socket_streambuf.hpp:423-464 | if some round from here on is not blocked, the receive loop skips exactly the blocked rounds and answers from the next one, with its error code: `timed_out` past the expiry time, `eof` for an empty receive, that of a failed receive or poll |
| SocketStreambuf.OverflowConserves | asio-1.24.0/asio/basic_socket_streambuf.hpp:468-540 | a flush that returns and succeeds moves characters from pending to sent and takes the new one; one that fails sends a proper prefix and keeps everything pending |
| SocketStreambuf.FlushOutcome | asio-1.24.0/asio/basic_socket_streambuf.hpp:468-545 | a flush succeeds if and only if some number of passes sends everything before a round gives up; it has sent what those passes transfer, is left with the error code of the round given up on or none, and after a success has its whole put area free but for the new character |
| SocketStreambuf.SputcConserves | asio-1.24.0/asio/basic_socket_streambuf.hpp:468-540 | the same for `sputc`: into free room it always succeeds, sends nothing and asks for nothing; otherwise it succeeds exactly as the flush does |
| SocketStreambuf.SetBufConserves | asio-1.24.0/asio/basic_socket_streambuf.hpp:547-558 | `setbuf` is accepted exactly for a null buffer on an empty put area, and sends, loses and duplicates nothing; it always returns |
| SocketStreambuf.RetryResends | asio-1.24.0/asio/basic_socket_streambuf.hpp:486-527 | a successful retry after a failed flush sends everything pending, behind what the failed flush had sent |
| SocketStreambuf.RetryIsExact | asio-1.24.0/asio/basic_socket_streambuf.hpp:486-527 | a failed flush followed by a successful one puts everything pending on the wire once, whatever the operating system does, if and only if at most one character was pending |
| SocketStreambuf.RetryDuplicates | asio-1.24.0/asio/basic_socket_streambuf.hpp:486-527 | with two or more pending, a system that takes one character and then fails makes the retry send the first one twice |
| SocketStreambuf.CloseMayLoseOutput | asio-1.24.0/asio/basic_socket_streambuf.hpp:299-306 | `close` succeeds if and only if the socket closed, and then keeps nothing; when it fails it keeps the unread input, and the pending output if the flush failed; everything accepted is sent if and only if the flush inside it succeeded; either way the socket is gone and the error code is that of closing |
| SocketStreambuf.CloseIsLossless | asio-1.24.0/asio/basic_socket_streambuf.hpp:299-306 | `close` loses nothing, whatever the operating system does, if and only if nothing is pending |
| SocketStreambuf.CloseLoses | asio-1.24.0/asio/basic_socket_streambuf.hpp:299-306 | on a connection that is gone `close` sends nothing, keeps nothing, and succeeds if the socket closes |
| SocketStreambuf.MoveKeepsInput | asio-1.24.0/asio/basic_socket_streambuf.hpp:211-224 | a move takes along the socket, the expiry time, the error code and the unread input, and pending output if and only if there is none |
| SocketStreambuf.MoveLeavesNew | asio-1.24.0/asio/basic_socket_streambuf.hpp:211-243 | what a move leaves behind has whole empty areas, no error, no expiry time and no socket |
| SocketStreambuf.GoneFlush | asio-1.24.0/asio/basic_socket_streambuf.hpp:490-513 | without a socket a flush returns at once, sends nothing, keeps everything pending, and fails with `bad_descriptor` (or `timed_out`) if there is anything to send |
| SocketStreambuf.GoneRead | asio-1.24.0/asio/basic_socket_streambuf.hpp:423-464 | without a socket a read returns at once with what is unread, or with end of file and `bad_descriptor` (or `timed_out`) |
| SocketStreambuf.ReadConserves | asio-1.24.0/asio/basic_socket_streambuf.hpp:414-466 | reading returns the next unread or newly received character, fails only if there is none, and keeps read plus unread equal to received; reading what is buffered needs nothing of the operating system |
| SocketStreambuf.ReceivesWhatArrives | asio-1.24.0/asio/basic_socket_streambuf.hpp:414-466 | a read asks for input exactly if nothing is unread, takes what the next useful round hands over, up to 504 characters, behind the putback area, and leaves that round's error code |
| SocketStreambuf.UnderflowReceives | asio-1.24.0/asio/basic_socket_streambuf.hpp:414-466 | `underflow` receives into an empty get area and returns its first character; on any other it changes nothing and is at end of file |
| SocketStreambuf.BasicSocketStreambuf.constructor | asio-1.24.0/asio/basic_socket_streambuf.hpp:192-198 | a valid object with nothing pending or unread, 512 characters of room, no error and no expiry time |
| SocketStreambuf.BasicSocketStreambuf.MoveFrom | asio-1.24.0/asio/basic_socket_streambuf.hpp:211-224 | move construction: buffers, socket, expiry time and error code change hands, the source is as new and has no socket |
| SocketStreambuf.BasicSocketStreambuf.MoveAssign | asio-1.24.0/asio/basic_socket_streambuf.hpp:227-243 | move assignment: the target is closed first, which returns if its flush does, then takes over; the source gets the target's buffers at full size and has no socket |
| SocketStreambuf.BasicSocketStreambuf.InitBuffersInPlace | asio-1.24.0/asio/basic_socket_streambuf.hpp:566-576 | both areas empty, for a buffered and an unbuffered object |
| SocketStreambuf.BasicSocketStreambuf.CloseSocket | asio-1.24.0/asio/basic_socket_streambuf.hpp:299-306 | the in-place `close`: every later send and receive fails; everything accepted is sent if and only if the flush succeeded |
| SocketStreambuf.BasicSocketStreambuf.UnderflowInPlace | asio-1.24.0/asio/basic_socket_streambuf.hpp:414-466 | the in-place `underflow` |
| SocketStreambuf.BasicSocketStreambuf.RecvLoop | asio-1.24.0/asio/basic_socket_streambuf.hpp:423-464 | the receive loop ends as its specification does, on every script on which it ends |
| SocketStreambuf.BasicSocketStreambuf.Receive | asio-1.24.0/asio/basic_socket_streambuf.hpp:441-446 | the chunk lies behind the eight putback characters and is the get area |
| SocketStreambuf.BasicSocketStreambuf.OverflowInPlace | asio-1.24.0/asio/basic_socket_streambuf.hpp:468-540 | the in-place `overflow` |
| SocketStreambuf.BasicSocketStreambuf.SendLoop | asio-1.24.0/asio/basic_socket_streambuf.hpp:490-523 | the send loop ends as its specification does, on every script on which it ends |
| SocketStreambuf.BasicSocketStreambuf.SyncBuffer | asio-1.24.0/asio/basic_socket_streambuf.hpp:542-545 | a successful `sync` has sent everything pending |
| SocketStreambuf.BasicSocketStreambuf.SetBuffer | asio-1.24.0/asio/basic_socket_streambuf.hpp:547-558 | the in-place `setbuf` |
| SocketStreambuf.BasicSocketStreambuf.WriteChar | asio-1.24.0/asio/basic_socket_streambuf.hpp:468-540 | an accepted character ends what is sent plus pending |
| SocketStreambuf.BasicSocketStreambuf.Peek | asio-1.24.0/asio/basic_socket_streambuf.hpp:414-466 | `sgetc` removes nothing |
| SocketStreambuf.BasicSocketStreambuf.Read | asio-1.24.0/asio/basic_socket_streambuf.hpp:414-466 | `sbumpc` removes what it returns |
| SocketStreambuf.BasicSocketStreambuf.ConnectToEndpoints | asio-1.24.0/asio/basic_socket_streambuf.hpp:597-657 | the connect loop ends as the answers of the operating system demand (`Connect.EndsAt`); an error left by the resolver stops it first |
| SocketRuns.StepBalances | asio-1.24.0/asio/basic_socket_streambuf.hpp:414-558 | every call that returns, failing or not, keeps the books: read plus unread is received; settled plus pending is accepted; settled is on the wire in order, and exactly that until a flush fails; a read takes the first unread or arriving character |
| SocketRuns.RunConserves | asio-1.24.0/asio/basic_socket_streambuf.hpp:414-558 | over any run of calls that return, from a new object, nothing accepted is missing from sent plus pending, and before the first failure they are equal; read plus unread is received |
| SocketRuns.NothingAfterClose | asio-1.24.0/asio/basic_socket_streambuf.hpp:299-306 | for every stream, every result of closing and every run of calls after `close`: all return, none sends or receives anything, a flush with something to send fails, and a read with nothing unread is at end of file |
| SocketRuns.WriteAllAccepts | asio-1.24.0/asio/basic_socket_streambuf.hpp:468-545 | writing characters and a sync without failure accepts exactly these and leaves nothing pending |
| SocketRuns.BufferingIsInvisible | asio-1.24.0/asio/basic_socket_streambuf.hpp:468-558 | a buffered and an unbuffered stream put the same bytes on the wire for the same characters and a sync, under any two scripts without failures |
| Channel.ReceivesInOrder | asio-1.24.0/asio/basic_socket_streambuf.hpp:423-464 | a receive takes the next characters off the connection |
| Channel.TurnReturns | asio-1.24.0/asio/basic_socket_streambuf.hpp:414-545 | a call at one end returns if no send blocks for ever, or, for one that reads, if something is unread, or in flight and receivable |
| Channel.EndStepKeepsLink | asio-1.24.0/asio/basic_socket_streambuf.hpp:414-545 | no call at one end receives what was not sent at the other; a write that does not fail is accepted, a flush that does not fail leaves nothing pending |
| Channel.ReadTakesNext | asio-1.24.0/asio/basic_socket_streambuf.hpp:414-466 | a read with nothing unread takes the first character in flight as soon as the operating system hands anything over |
| Channel.LinkRunLossless | asio-1.24.0/asio/basic_socket_streambuf.hpp:414-545 | over any interleaving of calls at both ends the books stay balanced and the connection stays in order |
| Channel.ReadsWhatWasWritten | asio-1.24.0/asio/basic_socket_streambuf.hpp:414-545 | read is a prefix of accepted; equal if and only if nothing is pending, in flight or unread |
| Channel.ChannelDelivers | asio-1.24.0/asio/basic_socket_streambuf.hpp:414-545 | from two new ends, in both directions, for every script and every run of calls that return on it: read is a prefix of accepted until the writer fails |
| Channel.SyncedStays | asio-1.24.0/asio/basic_socket_streambuf.hpp:414-558 | once nothing is pending and nothing has failed at an end, every call but a write keeps it so and sends nothing |
| Channel.DrainedAfterSync | asio-1.24.0/asio/basic_socket_streambuf.hpp:414-545 | after a successful sync at one end, however much it sent, and any run in which that end writes no more: what the other end has read is a prefix of what was accepted, and all of it if and only if it has drained the connection and its get area |
| Connect.OutcomeFrom | asio-1.24.0/asio/basic_socket_streambuf.hpp:605-655 | from any point the loop ends as the answers demand: at the first attempt that is past the expiry time (`timed_out`), reached (no error) or cannot be asked (the code of the query), all before it having failed for their endpoints; or with the last failure |
| Connect.EndsOnce | asio-1.24.0/asio/basic_socket_streambuf.hpp:605-655 | the answers of the operating system allow one end of the loop only |
| Connect.ConnectsToFirst | asio-1.24.0/asio/basic_socket_streambuf.hpp:597-657 | error-free if and only if some endpoint is reached in time after all earlier ones were tried in time and failed; it is then connected, or its poll timed out; an empty list gives not_found, a list that runs out the last failure |
| Connect.SuccessMeansConnected | asio-1.24.0/asio/basic_socket_streambuf.hpp:621-654 | an attempt reported as a success vouches for the connection if and only if it completed at once or its poll found the socket ready |
| Connect.TimedOutPollLooksConnected | asio-1.24.0/asio/basic_socket_streambuf.hpp:638-654 | a timed-out poll without a pending error is reported as success on an unconnected socket |
| EventHandlers.PushAllAppends | luaAsio.cpp:54-65 | below the limit of 10240 `push_event` only appends |
| EventHandlers.NewestSurvive | luaAsio.cpp:54-65 | however much is pushed, the newest 10240 events survive, in order |
| EventHandlers.HandlersCanRun | luaAsio.cpp:124-173 | the handler of any finished operation finds its connection, buffer and server alive |
| EventHandlers.ReadHandled | luaAsio.cpp:139-154 | a finished round of a read asks for the missing bytes, with the kernel if the socket is open; or answers with exactly the `size` bytes of the peer's stream taken last; or closes and answers with the message; nothing else is touched and the invariant holds after it |
| EventHandlers.ReadSomeHandled | luaAsio.cpp:156-173 | a finished `read_some` answers with the bytes just taken of the peer's stream, at least one, or closes and answers with what had come and the message; nothing else is touched and the invariant holds after it |
| EventHandlers.WriteHandled | luaAsio.cpp:124-137 | a finished round of a write asks to send the rest, or answers once all its data is handed over, or closes and answers with the message; nothing else is touched and the invariant holds after it |
| EventHandlers.ConnectHandled | luaAsio.cpp:98-107 | a finished connect answers with one event, which carries the connection if and only if there was no error; nothing else changes and the invariant holds after it |
| EventHandlers.SleepHandled | luaAsio.cpp:455-463 | a finished sleep answers with one event, empty or the message of an error; nothing else changes and the invariant holds after it |
| EventHandlers.AcceptHandled | luaAsio.cpp:205-218 | a finished accept gives the connection an object, announces it and leaves the server waiting for one new accept alone; it waits again after an error, or stops when aborted; every other operation is as it was and the invariant holds after it |
| EventHandlers.ClosedForGood | luaAsio.cpp:175-177 | closing leaves no operation on the socket with the kernel, touches nothing else, keeps the invariant, and does nothing the second time |
| EventHandlers.RunHandled | luaAsio.cpp:98-218 | any handler has the outcome of its kind of operation, completes at most one operation, appends exactly its answer to the queue, and keeps the invariant |
| EventRuns.StepKeepsInv | luaAsio.cpp:54-510 | every call, completion and arrival keeps the invariant; only `asio_get` queues or hands out events |
| EventRuns.RunKeepsInv | luaAsio.cpp:481-510 | over any run at most one event is queued between calls, and handed out followed by queued is pushed |
| EventRuns.NeverTrimmed | luaAsio.cpp:62-64 | inside a call at most two events are queued, all of one operation: the trimming loop never fires |
| EventRuns.CompletesOnce | luaAsio.cpp:98-173 | every operation ever started is outstanding or has completed, exactly one of them, at one place, with the answer to the operation recorded there |
| EventRuns.AnswersUnbroken | luaAsio.cpp:481-510 | the events of one operation are consecutive results of `asio_get`, in completion order |
| EventRuns.EveryResultAnswers | luaAsio.cpp:481-510 | every result of `asio_get` belongs to the answer of one completed operation and carries the `destId` recorded with it |
| EventRuns.QueuedIsNext | luaAsio.cpp:481-510 | a queued event, such as the second of a failed `read_some`, is the next result whatever is called in between, and no handler runs first |
| EventRuns.DataIsPrefix | luaAsio.cpp:139-173 | the data of the read events among the results of `asio_get` is, put together, a prefix of what the peer sent |
| EventRuns.TakenIsData | luaAsio.cpp:139-173 | the data of all read events pushed for a connection, put together, is what the completions of its reads passed on |
| EventRuns.SecondReadSpoils | luaAsio.cpp:139-154 | starting a second read of another length makes the answer of a finished first one that long |
| EventRuns.SilentAfterFailure | luaAsio.cpp:132-170 | after a failed read or write nothing started later on that connection hands out data, over any further run |
| EventRuns.LiveWhileReferenced | luaAsio.cpp:124-173 | a connection object is live if and only if its handle exists or a read or write on it is outstanding |
| EventRuns.OneAcceptOutstanding | luaAsio.cpp:205-218 | the outstanding accepts of a live server are exactly the one it waits for |
| EventRuns.DeletionIsSafe | luaAsio.cpp:205-218 | deleting a server leaves every waiting handler able to run if and only if no accept of it has finished without being aborted |
| EventRuns.ServersStayArmed | luaAsio.cpp:205-218 | over any run from a state in which each live server waits for an accept or has had one aborted, this stays so; `FromTheStart` gives it for every run from the start |
| EventRuns.AnnouncedInOrder | luaAsio.cpp:205-218 | the results of `asio_get` announce the connections accepted for a server, each once, in acceptance order; all announcements are handed out once the queue is empty, and at most the last connection is still unannounced |
| EventEffects.CallStarts | luaAsio.cpp:98-464 | a call starts exactly the operation it asks for and touches nothing else; a transfer is with the kernel if and only if the socket is open and there is something to transfer, done without an error if and only if there is nothing, and failed only on a closed socket |
| EventEffects.CloseShuts | luaAsio.cpp:175-177 | closing leaves no operation on the socket with the kernel and touches nothing else |
| EventEffects.DeleteGivesUp | luaAsio.cpp:317-320 | deleting a connection drops the handle and nothing else while an operation owns the object; if none does, the object is freed and its socket closed |
| EventEffects.DeleteRemovesServer | luaAsio.cpp:291-294 | deleting a server aborts its accept and touches nothing else |
| EventEffects.FinishFinishes | luaAsio.cpp:98-218 | what the operating system finishes is ready with that outcome; a read has taken the next bytes of the peer's stream, an accepted connection is on record, and nothing else is touched |
| EventEffects.GetDoes | luaAsio.cpp:481-510 | `asio_get` hands out the front of the queue and does nothing else; with nothing queued it first runs the handler of the picked operation; with nothing picked it does nothing |
| EventEffects.GetProgresses | luaAsio.cpp:481-510 | with nothing queued and a finished operation picked, `asio_get` logs its completion and returns the first event of its answer, none only for an accept that ended with an error; or, if more is to be transferred, the read or write has come further |
| EventEffects.StepEffect | luaAsio.cpp:54-510 | each call and each act of the operating system has exactly its effect, on the whole state |
| EventProgress.StepAges | luaAsio.cpp:67-320 | in no step does a handle come back, an object go with its socket open, or a freed object return |
| EventProgress.DeletedForGood | luaAsio.cpp:317-320 | over any run after a handle is deleted it is never held again; the object is live if and only if a read or write on it is outstanding; then it is gone, its socket closed, and nothing on it with the kernel |
| EventProgress.PickedIsAnswered | luaAsio.cpp:481-510 | over any run each `asio_get` that picks an operation answers it or brings it further, and no other step does; so it is answered before it has been picked more often than it had bytes left, any but a composed read or write the first time |
| EventProgress.ReadRoundTrip | luaAsio.cpp:139-154 | from every reachable state a read on an open connection, finished by the operating system, comes back from `asio_get` with exactly the next `size` bytes of the peer's stream and the caller's `destId` |
| EventProgress.ReadSomeRoundTrip | luaAsio.cpp:156-173 | the same for `read_some`, with the bytes moved |
| EventProgress.WriteRoundTrip | luaAsio.cpp:124-137 | the same for a write: the connection and the caller's `destId` |
| EventProgress.ConnectRoundTrip | luaAsio.cpp:98-107 | the same for a connect: the new connection and the caller's `destId` |
| EventProgress.SleepRoundTrip | luaAsio.cpp:449-464 | the same for a sleep: an empty event with the caller's `destId` |
| EventProgress.ServeRoundTrip | luaAsio.cpp:205-218 | the same for a server: the first connection accepted is announced with the server's port |
| EventCalls.StepStarts | luaAsio.cpp:98-218 | a call starts exactly the operation it asks for, with its arguments; no other step starts one, but for a server's next accept, which repeats its last |
| EventCalls.RunMatches | luaAsio.cpp:54-510 | over any run the operations outstanding or completed are those asked for, one for one, with their arguments unchanged |
| EventCalls.CallsAnsweredOnce | luaAsio.cpp:98-173 | in a run from the start every call is outstanding just as it was asked for, or answered exactly once, every event of the answer with the `destId` of the call; no two calls are the same operation |
| EventCalls.ResultsAnswerCalls | luaAsio.cpp:481-510 | in a run from the start every result of `asio_get` is part of the answer to one call and carries its `destId`, or the port of the server it made |
| EventCalls.FromTheStart | luaAsio.cpp:54-510 | after any run from the start: at most one queued event, handed out plus queued is pushed, data is a prefix of each peer's stream, servers wait unless aborted, announcements are in acceptance order |
| LuaAsio.Process.PushEvent | luaAsio.cpp:54-65 | the event is appended, and the trimming loop keeps the newest 10240 |
| LuaAsio.Process.CloseConnection | luaAsio.cpp:175-177 | no operation on the socket is left with the kernel, nothing but the connection and its operations is touched, and the invariant is kept |
| LuaAsio.Process.OnRead | luaAsio.cpp:144-153 | the in-place handler of a read: on every reachable state it has the outcome of `ReadHandled` and keeps the invariant |
| LuaAsio.Process.OnReadSome | luaAsio.cpp:160-172 | the in-place handler of a `read_some`, the buffer cut before the event is pushed: it has the outcome of `ReadSomeHandled` and keeps the invariant |
| LuaAsio.Process.OnReadSomeFailed | luaAsio.cpp:166-171 | its error branch: close, cut the buffer, two events, the second the message |
| LuaAsio.Process.OnWrite | luaAsio.cpp:127-136 | the in-place handler of a write: on every reachable state it has the outcome of `WriteHandled` and keeps the invariant |
| LuaAsio.Process.OnFailure | luaAsio.cpp:132-135 | the error branch of reads and writes: the answer is the message alone, the socket is closed, its other operations are aborted, the object stays as long as something refers to it, and the invariant is kept |
| LuaAsio.Process.OnConnect | luaAsio.cpp:98-107 | the in-place handler of a connect: one event, which carries the connection if and only if there was no error; nothing else changes and the invariant is kept |
| LuaAsio.Process.OnTimer | luaAsio.cpp:455-463 | the in-place handler of a sleep: one event, empty, or the message of an error; nothing else changes and the invariant is kept |
| LuaAsio.Process.OnAccept | luaAsio.cpp:205-218 | the in-place handler of an accept: on every reachable state it has the outcome of `AcceptHandled` and keeps the invariant |
| LuaAsio.Process.DoAccept | luaAsio.cpp:205-206 | a server that waits for nothing waits for one new accept, and for that alone; the invariant is kept |
| LuaAsio.Process.AsioGet | luaAsio.cpp:481-510 | hands out the front of the queue; with nothing queued it runs the handler of the picked operation, which is answered, or has come further if more is to be transferred; keeps the invariant |
| LuaAsio.Process.AsioNewConnect | luaAsio.cpp:323-342 | a new connection object, held by the caller, with a connect in the kernel that carries the caller's `destId`; nothing else is touched |
| LuaAsio.Process.AsioNewServer | luaAsio.cpp:297-312 | a new live server that waits for one accept alone, and nothing else is touched; or nothing at all if the address is bad or the acceptor cannot be opened on it |
| LuaAsio.Process.AsioDeleteServer | luaAsio.cpp:291-294 | the server is gone, every accept of it is aborted, and nothing else is touched |
| LuaAsio.Process.AsioSleep | luaAsio.cpp:449-464 | a timer is with the kernel that carries the caller's `destId`; nothing else is touched |
| LuaAsio.Process.AsioConnRead | luaAsio.cpp:139-154 | the buffer has the size asked for, and a read with the caller's arguments is outstanding that keeps the connection alive: with the kernel if the socket is open and the size is not 0, done if it is 0, failed only on a closed socket; nothing else is touched |
| LuaAsio.Process.AsioConnReadSome | luaAsio.cpp:156-173 | the same for `read_some`, with a buffer of 10240 |
| LuaAsio.Process.AsioConnWrite | luaAsio.cpp:124-137 | the same for a write with the caller's data |
| LuaAsio.Process.AsioConnClose | luaAsio.cpp:431-434 | the socket is closed, none of its operations is left with the kernel, and nothing else is touched |
| LuaAsio.Process.AsioDeleteConnection | luaAsio.cpp:317-320 | the caller no longer holds the handle; the object and all else stay as they are while an operation owns it, otherwise the object is freed and its socket closed |

## Left out

- Connection and server objects of the event loop are records in maps of live objects rather than class instances, because
  whether an object has been freed is part of the state. Aliasing between two handles of one object is not modelled.
- Sockets, polling, the resolver, acceptor setup and native handles: operating-system calls. Their results and the bytes
  they move are the script, the `DoFinish` and `DoArrive` actions, and the `opens` of `AsioNewServer`.
- The content of writes on the wire: a successful write is shown to have handed over all its bytes, but not in which order
  two writes outstanding on one connection interleave.
- LuaAsio.Process.AsioConnRead: does not model a second read outstanding on one connection. Both would share one buffer,
  which asio forbids (asio-1.24.0/asio/read.hpp:735-737); `SecondReadSpoils` shows the damage.
- LuaAsio.Process.AsioConnReadSome: the same; the resize would move the buffer of a read the kernel still has
  (asio-1.24.0/asio/basic_stream_socket.hpp:1044-1047).
- LuaAsio.Process.AsioDeleteServer: does not model deleting a server whose finished accept waits for its handler, which
  captures the server (luaAsio.cpp:206-216) and would use it after it is freed (`DeletionIsSafe`).
- The order in time of a read that waits and what its peer does meanwhile: each call of a socket stream buffer is one turn,
  a waiting read being the turn in which it returns.
- `io_context` stop and restart, and the Lua side (`asio.lua`): the flag only decides when `asio.run()` returns.
- Exceptions thrown by handlers, which `asio_get` would catch, and a resolver that throws in `asio_new_connect`.
- The static return buffers and foreign-call plumbing of `asio_get`, address conversion, `get_original_dst`, the
  float-to-millisecond conversion of `asio_sleep` and the clamping of `timeout()`.
- Address arithmetic that overflows in `consume` (`gptr() + n` for huge `n`): offsets are unbounded here.
- Vector capacity beyond `capacity() >= size()`, allocation failure, putback, and the reads and writes of whole strings
  that the standard library builds from single characters.
- The Windows branches, setting the native non-blocking mode, and the error codes only that call sets.
- The destructor of the socket stream buffer: it is the flush of `sync`, done if something is pending.
- The rest of asio: thin forwarding to services, or compile-time dispatch.
