/** The growable character queue of `basic_streambuf`: one array, five cursors.
    The first half defines what each member function does to a snapshot of the object;
    the class at the end is the in-place code, each method proved to do exactly that. */
module Streambuf {
  import opened Common

  const BUFFER_DELTA: nat := 128
  const INT_MAX: nat := 0x7fff_ffff

  /** A snapshot of the object: cursors are offsets into the character array. `eback` is
      always 0 and `pbase` is never read, so neither is kept. */
  datatype State = State(buf: seq<byte>, gptr: int, egptr: int, pptr: int, epptr: int, maxSize: nat)

  /** What a member function that may throw `std::length_error` leaves behind. */
  datatype Attempt = Done(state: State) | LengthError(state: State)

  /** The invariant of every reachable object. The documented `size() <= max_size()` is not
      inductive: it is the end of the put area that has to stay below the cap. */
  ghost predicate Inv(s: State) {
    && 0 <= s.gptr <= s.egptr <= s.pptr <= s.epptr <= s.maxSize
    && |s.buf| == Max(s.epptr, 1)
  }

  /** The queue the object stands for: the characters from `gptr` up to `pptr`. */
  ghost function Content(s: State): (q: seq<byte>)
    requires Inv(s)
    ensures |q| == Size(s) <= s.maxSize
  {
    s.buf[s.gptr..s.pptr]
  }

  function Size(s: State): int {
    s.pptr - s.gptr
  }

  /** `static_cast<int>` of a `size_t`: the low 32 bits, read as two's complement. */
  function NarrowToInt(n: nat): int {
    var low := n % 0x1_0000_0000;
    if low <= INT_MAX then low else low - 0x1_0000_0000
  }

  function Fresh(maxSize: nat): State {
    var pend := Min(maxSize, BUFFER_DELTA);
    State(seq(Max(pend, 1), _ => 0), 0, 0, 0, pend, maxSize)
  }

  /** `memmove` of `k` characters from offset `g` down to offset 0. */
  function Shift(buf: seq<byte>, g: nat, k: nat): (r: seq<byte>)
    requires g + k <= |buf|
    ensures |r| == |buf|
  {
    buf[g..g + k] + buf[k..]
  }

  ghost function Reserve(s: State, n: nat): Attempt
    requires Inv(s)
  {
    if n <= s.epptr - s.pptr then Done(s)
    else
      var pnext := s.pptr - s.gptr;
      var shifted := if s.gptr > 0 then Shift(s.buf, s.gptr, pnext) else s.buf;
      if n <= s.epptr - pnext then
        Done(s.(buf := shifted, gptr := 0, egptr := pnext, pptr := pnext))
      else if n <= s.maxSize && pnext <= s.maxSize - n then
        Done(State(Resize(shifted, Max(pnext + n, 1)), 0, pnext, pnext, pnext + n, s.maxSize))
      else
        LengthError(s.(buf := shifted))
  }

  ghost function Commit(s: State, n: nat): State
    requires Inv(s)
  {
    var pptr := s.pptr + NarrowToInt(Min(n, s.epptr - s.pptr));
    s.(pptr := pptr, egptr := pptr)
  }

  ghost function Consume(s: State, n: nat): State
    requires Inv(s)
  {
    var m := if s.gptr + n > s.pptr then s.pptr - s.gptr else n;
    s.(egptr := if s.egptr < s.pptr then s.pptr else s.egptr, gptr := s.gptr + NarrowToInt(m))
  }

  ghost function Underflow(s: State): (State, Option<byte>)
    requires Inv(s)
  {
    if s.gptr < s.pptr then (s.(egptr := s.pptr), Some(s.buf[s.gptr])) else (s, None)
  }

  /** Store one character at `pptr` and step over it. */
  ghost function Put(s: State, c: byte): State
    requires Inv(s) && s.pptr < s.epptr
  {
    s.(buf := s.buf[s.pptr := c], pptr := s.pptr + 1)
  }

  /** The room `overflow` asks for: a full step, or what is left below the cap. */
  ghost function Demand(s: State): nat
    requires Inv(s)
  {
    if Size(s) < s.maxSize && s.maxSize - Size(s) < BUFFER_DELTA then s.maxSize - Size(s) else BUFFER_DELTA
  }

  /** `overflow(c)`; `None` is the end-of-file argument, which changes nothing. */
  ghost function Overflow(s: State, c: Option<byte>): Attempt
    requires Inv(s)
  {
    match c
    case None => Done(s)
    case Some(ch) =>
      if s.pptr < s.epptr then Done(Put(s, ch))
      else
        ReserveMakesRoom(s, Demand(s));
        match Reserve(s, Demand(s))
        case Done(t) => Done(Put(t, ch))
        case LengthError(t) => LengthError(t)
  }

  /** `sputc`: the put area if it has room, `overflow` otherwise. */
  ghost function Sputc(s: State, c: byte): Attempt
    requires Inv(s)
  {
    if s.pptr < s.epptr then Done(Put(s, c)) else Overflow(s, Some(c))
  }

  /** `sgetc`: the get area if it has a character, `underflow` otherwise. */
  ghost function Sgetc(s: State): (State, Option<byte>)
    requires Inv(s)
  {
    if s.gptr < s.egptr then (s, Some(s.buf[s.gptr])) else Underflow(s)
  }

  /** `sbumpc`: as `sgetc`, then step over the character if there is one. */
  ghost function Sbumpc(s: State): (State, Option<byte>)
    requires Inv(s)
  {
    var (t, c) := Sgetc(s);
    (if c.Some? then t.(gptr := t.gptr + 1) else t, c)
  }

  /** The caller writes into the region that `prepare` returned. */
  ghost function Fill(s: State, data: seq<byte>): State
    requires Inv(s) && |data| <= s.epptr - s.pptr
  {
    s.(buf := s.buf[..s.pptr] + data + s.buf[s.pptr + |data|..])
  }

  ghost function ReadSizeHelper(s: State, capacity: nat, limit: nat): int
    requires Inv(s) && |s.buf| <= capacity
  {
    Min(Max(512, capacity - Size(s)), Min(limit, s.maxSize - Size(s)))
  }

  // ---------------------------------------------------------------- reserve

  /** Whatever path `reserve` takes, it fails exactly when `size() + n` exceeds the cap.
      If it succeeds there is room for `n`, the queue is what it was, and the put area has grown no
      further than it had to; it touches nothing if there was room. If it fails no cursor moved. */
  lemma ReserveMakesRoom(s: State, n: nat)
    requires Inv(s)
    ensures var r := Reserve(s, n);
      && Inv(r.state) && r.state.maxSize == s.maxSize
      && (r.LengthError? <==> Size(s) + n > s.maxSize)
      && (r.Done? ==> r.state.epptr - r.state.pptr >= n && Content(r.state) == Content(s))
      && (r.Done? ==> r.state.epptr == Max(s.epptr, Size(s) + n))
      && (n <= s.epptr - s.pptr ==> r.state == s)
      && (r.LengthError? ==> r.state == s.(buf := r.state.buf))
  {
  }

  /** A queue as seen by a reader who is still at offset `g` after its characters moved down by `g`. */
  function Displaced(q: seq<byte>, g: nat): seq<byte> {
    if g < |q| then q[g..] + q[|q| - g..] else q
  }

  /** What a failed `reserve` does to the queue: the shift has run but `gptr` has not moved. */
  lemma FailedReserveDisplaces(s: State, n: nat)
    requires Inv(s) && Reserve(s, n).LengthError?
    ensures Content(Reserve(s, n).state) == Displaced(Content(s), s.gptr)
  {
    ShiftedWindow(s.buf, s.gptr, Size(s));
  }

  /** The window `[g, g + k)` of a buffer whose own contents were moved down by `g`. */
  lemma ShiftedWindow(buf: seq<byte>, g: nat, k: nat)
    requires g + k <= |buf|
    ensures Shift(buf, g, k)[g..g + k] == Displaced(buf[g..g + k], g)
  {
  }

  /** The displaced queue is the queue exactly when it repeats with period `g`; in particular when
      nothing was read yet, or at least as much has been read as is left. */
  lemma DisplacedIsSame(q: seq<byte>, g: nat)
    ensures Displaced(q, g) == q <==> forall i :: 0 <= i < |q| - g ==> q[i] == q[i + g]
    ensures g == 0 || |q| <= g ==> Displaced(q, g) == q
  {
    var r := Displaced(q, g);
    if g < |q| {
      assert forall i :: 0 <= i < |q| - g ==> r[i] == q[i + g];
      assert forall i :: |q| - g <= i < |q| ==> r[i] == q[i];
    }
  }

  // ---------------------------------------------------------------- single calls

  /** The cast keeps exactly the lengths an `int` can hold; any other becomes smaller. */
  lemma NarrowKeeps(n: nat)
    ensures NarrowToInt(n) == n <==> n <= INT_MAX
    ensures n > INT_MAX ==> NarrowToInt(n) < n
  {
    if n <= INT_MAX {
      assert n % 0x1_0000_0000 == n;
    }
  }

  /** `commit` moves the first `min(n, room)` characters of the put area onto the queue exactly
      when that number survives the narrowing to `int`. */
  lemma CommitAppends(s: State, n: nat)
    requires Inv(s)
    ensures var m, t := Min(n, s.epptr - s.pptr), Commit(s, n);
      (Inv(t) && Content(t) == Content(s) + s.buf[s.pptr..s.pptr + m]) <==> m <= INT_MAX
  {
    hide NarrowToInt;
    var m, t := Min(n, s.epptr - s.pptr), Commit(s, n);
    NarrowKeeps(m);
    if m <= INT_MAX {
      assert Content(t) == Content(s) + s.buf[s.pptr..s.pptr + m];
    }
  }

  /** `consume` drops the first `min(n, size())` characters exactly when that number survives
      the narrowing to `int`. */
  lemma ConsumeDrops(s: State, n: nat)
    requires Inv(s)
    ensures var m, t := Min(n, Size(s)), Consume(s, n);
      (Inv(t) && Content(t) == Content(s)[m..]) <==> m <= INT_MAX
  {
    hide NarrowToInt;
    var m, t := Min(n, Size(s)), Consume(s, n);
    NarrowKeeps(m);
    if m <= INT_MAX {
      assert Content(t) == Content(s)[m..];
    } else {
      assert Inv(t) ==> Size(t) != |Content(s)[m..]|;
    }
  }

  /** Lengths that do not survive the narrowing can be reached: a new object prepares room for `2^31`
      characters; committing them at once breaks it, and so does consuming them at once after they have
      been committed in two pieces. */
  lemma NarrowingBreaks()
    ensures var n := INT_MAX + 1;
      && Reserve(Fresh(n), n).Done?
      && var s := Reserve(Fresh(n), n).state;
         && Inv(s) && !Inv(Commit(s, n))
         && var full := Commit(Commit(s, INT_MAX), 1);
            Inv(full) && Size(full) == n && !Inv(Consume(full, n))
  {
    var n := INT_MAX + 1;
    assert NarrowToInt(n) == -n && NarrowToInt(INT_MAX) == INT_MAX && NarrowToInt(1) == 1;
    hide NarrowToInt;
    ReserveMakesRoom(Fresh(n), n);
    var s := Reserve(Fresh(n), n).state;
    assert Size(s) == 0 && s.pptr == 0;
    CommitAppends(s, INT_MAX);
    CommitAppends(Commit(s, INT_MAX), 1);
  }

  /** Writing a character throws exactly when the queue is full; then nothing at all has changed,
      because a full queue starts at offset 0. Otherwise the character is appended, and only a full
      put area grows, by at most a step. */
  lemma SputcAppends(s: State, c: byte)
    requires Inv(s)
    ensures var r := Sputc(s, c);
      && Inv(r.state) && r.state.maxSize == s.maxSize
      && (r.LengthError? <==> Size(s) == s.maxSize)
      && (r.LengthError? ==> r.state == s)
      && (r.Done? ==> Content(r.state) == Content(s) + [c])
      && r.state.epptr <= (if s.pptr < s.epptr then s.epptr else Max(s.epptr, Size(s) + BUFFER_DELTA))
  {
    ReserveMakesRoom(s, Demand(s));
    PutAppends(s, c);
    if s.pptr == s.epptr && Reserve(s, Demand(s)).Done? {
      PutAppends(Reserve(s, Demand(s)).state, c);
    }
  }

  lemma PutAppends(s: State, c: byte)
    requires Inv(s)
    ensures s.pptr < s.epptr ==> Inv(Put(s, c)) && Content(Put(s, c)) == Content(s) + [c]
  {
    if s.pptr < s.epptr {
      assert Content(Put(s, c)) == Content(s) + [c];
    }
  }

  /** Reading returns the front of the queue; only `sbumpc` removes it. The lazily refreshed end
      of the get area never hides a character. */
  lemma ReadsFront(s: State)
    requires Inv(s)
    ensures var q, (t, c), (u, d) := Content(s), Sgetc(s), Sbumpc(s);
      && Inv(t) && Inv(u) && t.maxSize == u.maxSize == s.maxSize
      && c == d == (if q == [] then None else Some(q[0]))
      && Content(t) == q
      && Content(u) == (if q == [] then [] else q[1..])
  {
    var q, u := Content(s), Sbumpc(s).0;
    if q != [] {
      assert Content(u) == q[1..];
    }
  }

  /** `prepare(n)`, filling the returned region and `commit(k)` appends the first `k` characters. */
  lemma FillThenCommit(s: State, data: seq<byte>, k: nat)
    requires Inv(s) && k <= |data| <= s.epptr - s.pptr && k <= INT_MAX
    ensures Inv(Fill(s, data)) && Inv(Commit(Fill(s, data), k))
    ensures Content(Commit(Fill(s, data), k)) == Content(s) + data[..k]
  {
    var t := Fill(s, data);
    assert Content(t) == Content(s);
    CommitAppends(t, k);
    assert t.buf[t.pptr..t.pptr + k] == data[..k];
  }

  /** `k` characters fit the caller's limit and the room below the cap, and either the spare capacity
      or 512. */
  predicate WorthReading(s: State, capacity: nat, limit: nat, k: nat) {
    k <= limit && Size(s) + k <= s.maxSize && (k <= 512 || Size(s) + k <= capacity)
  }

  /** The preferred read size never makes `prepare` throw, and is 0 only if the caller's limit is
      0 or the queue is full, so a loop reading until full always has room to progress. It is the
      largest size worth reading at once. */
  lemma ReadSizeIsSafe(s: State, capacity: nat, limit: nat)
    requires Inv(s) && |s.buf| <= capacity
    ensures var m := ReadSizeHelper(s, capacity, limit);
      && 0 <= m <= limit
      && Reserve(s, m).Done?
      && (m == 0 <==> limit == 0 || Size(s) == s.maxSize)
      && (forall k: nat :: WorthReading(s, capacity, limit, k) <==> k <= m)
  {
    ReserveMakesRoom(s, ReadSizeHelper(s, capacity, limit));
  }

  // ---------------------------------------------------------------- the in-place code

  class BasicStreambuf {
    const maxSize: nat
    var buffer: array<byte>
    var gptr: int
    var egptr: int
    var pptr: int
    var epptr: int

    ghost function View(): State
      reads this, buffer
    {
      State(buffer[..], gptr, egptr, pptr, epptr, maxSize)
    }

    ghost predicate Valid()
      reads this, buffer
    {
      Inv(View())
    }

    constructor (maximumSize: nat)
      ensures View() == Fresh(maximumSize) && Valid() && fresh(buffer)
      ensures Content(View()) == []
    {
      var pend := Min(maximumSize, BUFFER_DELTA);
      maxSize := maximumSize;
      buffer := new byte[Max(pend, 1)](_ => 0);
      gptr, egptr := 0, 0;
      pptr, epptr := 0, pend;
      new;
      assert buffer[..] == Fresh(maximumSize).buf;
    }

    method GetSize() returns (n: int)
      requires Valid()
      ensures n == |Content(View())| <= maxSize
    {
      n := pptr - gptr;
    }

    /** The input sequence as one buffer. */
    method Data() returns (q: seq<byte>)
      requires Valid()
      ensures q == Content(View())
    {
      q := buffer[gptr..pptr];
    }

    /** Ensures room for `n` characters; the region returned starts at offset `pptr`. */
    method Prepare(n: nat) returns (thrown: bool)
      requires Valid()
      modifies this, buffer
      ensures Valid() && (buffer == old(buffer) || fresh(buffer))
      ensures thrown <==> old(Size(View())) + n > maxSize
      ensures View() == old(Reserve(View(), n)).state
      ensures !thrown ==> n <= epptr - pptr && Content(View()) == old(Content(View()))
    {
      thrown := ReserveInPlace(n);
    }

    /** The caller's writes into the region `Prepare` returned. */
    method FillPrepared(data: seq<byte>)
      requires Valid() && |data| <= epptr - pptr
      modifies buffer
      ensures View() == old(Fill(View(), data)) && Valid()
    {
      ghost var before, after := buffer[..], Fill(View(), data).buf;
      for i := 0 to |data|
        invariant forall j :: 0 <= j < buffer.Length ==>
          buffer[j] == if j < pptr + i then after[j] else before[j]
      {
        buffer[pptr + i] := data[i];
      }
      assert buffer[..] == after;
    }

    method CommitOutput(n: nat)
      requires Valid()
      modifies this`pptr, this`egptr
      ensures View() == old(Commit(View(), n))
      ensures Min(n, old(epptr - pptr)) <= INT_MAX ==> Valid()
    {
      var m := Min(n, epptr - pptr);
      pptr := pptr + NarrowToInt(m);
      egptr := pptr;
      CommitAppends(old(View()), n);
    }

    method ConsumeInput(n: nat)
      requires Valid()
      modifies this`gptr, this`egptr
      ensures View() == old(Consume(View(), n))
      ensures Min(n, old(Size(View()))) <= INT_MAX ==> Valid()
    {
      var m := n;
      if egptr < pptr {
        egptr := pptr;
      }
      if gptr + m > pptr {
        m := pptr - gptr;
      }
      gptr := gptr + NarrowToInt(m);
      ConsumeDrops(old(View()), n);
    }

    method UnderflowInPlace() returns (c: Option<byte>)
      requires Valid()
      modifies this`egptr
      ensures (View(), c) == old(Underflow(View())) && Valid()
    {
      if gptr < pptr {
        egptr := pptr;
        c := Some(buffer[gptr]);
      } else {
        c := None;
      }
    }

    method OverflowInPlace(c: Option<byte>) returns (thrown: bool)
      requires Valid()
      modifies this, buffer
      ensures Valid() && (buffer == old(buffer) || fresh(buffer))
      ensures thrown == old(Overflow(View(), c)).LengthError?
      ensures View() == old(Overflow(View(), c)).state
    {
      thrown := false;
      if c.Some? {
        if pptr == epptr {
          thrown := MakeRoom();
        }
        if !thrown {
          PutInPlace(c.value);
        }
      }
    }

    /** The choice of `overflow` on a full put area: a whole step, or what is left below the cap. */
    method MakeRoom() returns (thrown: bool)
      requires Valid() && pptr == epptr
      modifies this, buffer
      ensures Valid() && (buffer == old(buffer) || fresh(buffer))
      ensures thrown == old(Reserve(View(), Demand(View()))).LengthError?
      ensures View() == old(Reserve(View(), Demand(View()))).state
      ensures !thrown ==> pptr < epptr
    {
      var size := pptr - gptr;
      if size < maxSize && maxSize - size < BUFFER_DELTA {
        thrown := ReserveInPlace(maxSize - size);
      } else {
        thrown := ReserveInPlace(BUFFER_DELTA);
      }
    }

    method PutInPlace(c: byte)
      requires Valid() && pptr < epptr
      modifies this`pptr, buffer
      ensures View() == old(Put(View(), c)) && Valid()
    {
      buffer[pptr] := c;
      pptr := pptr + 1;
    }

    method Write(c: byte) returns (thrown: bool)
      requires Valid()
      modifies this, buffer
      ensures Valid() && (buffer == old(buffer) || fresh(buffer))
      ensures thrown <==> old(Size(View())) == maxSize
      ensures View() == old(Sputc(View(), c)).state
      ensures thrown ==> View() == old(View())
      ensures !thrown ==> Content(View()) == old(Content(View())) + [c]
    {
      SputcAppends(View(), c);
      if pptr < epptr {
        PutInPlace(c);
        thrown := false;
      } else {
        thrown := OverflowInPlace(Some(c));
      }
    }

    method Peek() returns (c: Option<byte>)
      requires Valid()
      modifies this`egptr
      ensures (View(), c) == old(Sgetc(View())) && Valid()
      ensures Content(View()) == old(Content(View()))
      ensures c == (if Content(View()) == [] then None else Some(Content(View())[0]))
    {
      if gptr < egptr {
        c := Some(buffer[gptr]);
      } else {
        c := UnderflowInPlace();
      }
    }

    method Read() returns (c: Option<byte>)
      requires Valid()
      modifies this`gptr, this`egptr
      ensures (View(), c) == old(Sbumpc(View())) && Valid()
      ensures old(Content(View())) == (if c.Some? then [c.value] else []) + Content(View())
      ensures c.None? ==> Content(View()) == []
    {
      ReadsFront(View());
      c := Peek();
      if c.Some? {
        gptr := gptr + 1;
      }
    }

    method PreferredReadSize(capacity: nat, limit: nat) returns (m: int)
      requires Valid() && buffer.Length <= capacity
      ensures m == ReadSizeHelper(View(), capacity, limit)
      ensures 0 <= m <= limit && |Content(View())| + m <= maxSize
      ensures forall k: nat :: WorthReading(View(), capacity, limit, k) <==> k <= m
    {
      ReadSizeIsSafe(View(), capacity, limit);
      m := Min(Max(512, capacity - (pptr - gptr)), Min(limit, maxSize - (pptr - gptr)));
    }

    method ReserveInPlace(n: nat) returns (thrown: bool)
      requires Valid()
      modifies this, buffer
      ensures Valid() && (buffer == old(buffer) || fresh(buffer))
      ensures thrown == old(Reserve(View(), n)).LengthError?
      ensures View() == old(Reserve(View(), n)).state
      ensures thrown <==> old(Size(View())) + n > maxSize
      ensures !thrown ==> n <= epptr - pptr && Content(View()) == old(Content(View()))
    {
      hide Shift, Resize;
      ReserveMakesRoom(View(), n);
      var gnext, pnext, pend := gptr, pptr, epptr;
      if n <= pend - pnext {
        return false;
      }
      if gnext > 0 {
        pnext := pnext - gnext;
        MoveDown(gnext, pnext);
      }
      if n > pend - pnext {
        if n <= maxSize && pnext <= maxSize - n {
          pend := pnext + n;
          ResizeBuffer(Max(pend, 1));
        } else {
          return true;
        }
      }
      gptr, egptr := 0, pnext;
      pptr, epptr := pnext, pend;
      return false;
    }

    /** The overlapping copy, lowest address first. */
    method MoveDown(g: nat, k: nat)
      requires 0 < g && g + k <= buffer.Length
      modifies buffer
      ensures buffer[..] == old(Shift(buffer[..], g, k))
    {
      ghost var before, after := buffer[..], Shift(buffer[..], g, k);
      for i := 0 to k
        invariant forall j :: 0 <= j < buffer.Length ==> buffer[j] == if j < i then after[j] else before[j]
      {
        buffer[i] := buffer[g + i];
      }
      assert buffer[..] == after;
    }

    /** `std::vector::resize`: a longer array with the old characters in front. */
    method ResizeBuffer(n: nat)
      requires buffer.Length <= n
      modifies this`buffer
      ensures fresh(buffer) && buffer[..] == old(Resize(buffer[..], n))
    {
      var smaller, larger := buffer, new byte[n](_ => 0);
      for i := 0 to smaller.Length
        invariant forall j :: 0 <= j < n ==> larger[j] == if j < i then smaller[j] else 0
      {
        larger[i] := smaller[i];
      }
      assert larger[..] == Resize(smaller[..], n);
      buffer := larger;
    }
  }
}
