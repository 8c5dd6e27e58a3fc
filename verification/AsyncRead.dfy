/** `IntoAsyncRead`: a stream of byte chunks read as a byte stream. */
module AsyncRead {
  import opened Types
  import opened Source

  type Bytes = seq<bv8>

  datatype ReadState = Chunk(bytes: Bytes, start: nat) | PendingChunk | Eof

  /** The script is the rest of the (unfused) source. */
  datatype Reader<E> = Reader(script: seq<TryAnswer<Bytes, E>>, state: ReadState)

  /** A chunk in hand always has unread bytes. */
  predicate Valid(st: ReadState) {
    st.Chunk? ==> st.start < |st.bytes|
  }

  // -------------------------------------------------------- reference definition

  predicate IsEmptyChunk<E>(a: TryAnswer<Bytes, E>) {
    a.Ready? && a.value.Some? && a.value.value.Ok? && a.value.value.value == []
  }

  /** The empty chunks at the head of the script, which are passed over. */
  function EmptyChunks<E>(script: seq<TryAnswer<Bytes, E>>): (n: nat)
    ensures n <= |script|
    ensures forall i :: 0 <= i < n ==> IsEmptyChunk(script[i])
    ensures n < |script| ==> !IsEmptyChunk(script[n])
  {
    if script == [] || !IsEmptyChunk(script[0]) then 0 else 1 + EmptyChunks(script[1..])
  }

  lemma EmptyChunksUnique<E>(script: seq<TryAnswer<Bytes, E>>, n: nat)
    requires n <= |script|
    requires forall i :: 0 <= i < n ==> IsEmptyChunk(script[i])
    requires n < |script| ==> !IsEmptyChunk(script[n])
    ensures n == EmptyChunks(script)
  {
  }

  /** The next answer that is not an empty chunk, taken from the source. */
  function Fill<E>(r: Reader<E>): (Poll<Result<(), E>>, Reader<E>) {
    if !r.state.PendingChunk? then (Ready(Ok(())), r) else
    var (rest: seq<TryAnswer<Bytes, E>>, a: TryAnswer<Bytes, E>) := Next(r.script[EmptyChunks(r.script)..]);
    match a
    case Pending => (Pending, Reader(rest, PendingChunk))
    case Ready(None) => (Ready(Ok(())), Reader(rest, Eof))
    case Ready(Some(Err(e))) => (Ready(Err(e)), Reader(rest, Eof))
    case Ready(Some(Ok(bytes))) => (Ready(Ok(())), Reader(rest, Chunk(bytes, 0)))
  }

  function Unread(st: ReadState): Bytes
    requires Valid(st)
  {
    if st.Chunk? then st.bytes[st.start..] else []
  }

  /** The state once the first `n` unread bytes are gone. */
  function Advance(st: ReadState, n: nat): ReadState
    requires Valid(st) && n <= |Unread(st)|
  {
    if !st.Chunk? then st
    else if st.start + n == |st.bytes| then PendingChunk
    else Chunk(st.bytes, st.start + n)
  }

  function Min(a: nat, b: nat): nat {
    if a < b then a else b
  }

  lemma FillIsValid<E>(r: Reader<E>)
    requires Valid(r.state)
    ensures Valid(Fill(r).1.state)
  {
  }

  /** What a user of the reader does; `Take(n)` is a `consume`. */
  datatype Op = Read(room: nat) | FillBuf | Take(amount: nat)

  datatype Effect<E> = Effect(reader: Reader<E>, delivered: Bytes, answer: Poll<Result<Bytes, E>>)

  predicate InRange<E>(r: Reader<E>, op: Op) {
    Valid(r.state) && (op.Take? ==> op.amount <= |Unread(r.state)|)
  }

  /** The effect of one operation, which each method has.  A `Read` answers the bytes
      it puts, a `FillBuf` shows the unread bytes without delivering them. */
  function Do<E>(r: Reader<E>, op: Op): Effect<E>
    requires InRange(r, op)
  {
    FillIsValid(r);
    var (f, v) := Fill(r);
    match op
    case Take(n) => Effect(r.(state := Advance(r.state, n)), Unread(r.state)[..n], Ready(Ok(Unread(r.state)[..n])))
    case FillBuf =>
      Effect(v, [], match f
                    case Pending => Pending
                    case Ready(Err(e)) => Ready(Err(e))
                    case _ => Ready(Ok(Unread(v.state))))
    case Read(room) =>
      var n := Min(room, |Unread(v.state)|);
      match f
      case Pending => Effect(v, [], Pending)
      case Ready(Err(e)) => Effect(v, [], Ready(Err(e)))
      case _ => Effect(v.(state := Advance(v.state, n)), Unread(v.state)[..n], Ready(Ok(Unread(v.state)[..n])))
  }

  // ------------------------------------------------------------------ the reader

  /** The caller's buffer: `room` bytes may still be put. */
  class ReadBuf {
    var filled: Bytes
    var room: nat

    constructor (room: nat)
      ensures filled == [] && this.room == room
    {
      filled, this.room := [], room;
    }

    method PutSlice(bytes: Bytes)
      requires |bytes| <= room
      modifies this
      ensures filled == old(filled) + bytes && room == old(room) - |bytes|
    {
      filled, room := filled + bytes, room - |bytes|;
    }
  }

  class IntoAsyncRead<E> {
    const stream: Stream<Result<Bytes, E>>
    var state: ReadState

    constructor (source: Stream<Result<Bytes, E>>)
      ensures stream == source && state == PendingChunk
    {
      stream, state := source, PendingChunk;
    }

    function View(): Reader<E>
      reads this, stream
    {
      Reader(stream.script, state)
    }

    method PollRead(buf: ReadBuf) returns (r: Poll<Result<(), E>>)
      requires Valid(state)
      modifies this, stream, buf
      ensures Valid(state)
      ensures var e := Do(old(View()), Read(old(buf.room)));
              && View() == e.reader
              && buf.filled == old(buf.filled) + e.delivered && buf.room == old(buf.room) - |e.delivered|
              && r == match e.answer
                      case Pending => Pending
                      case Ready(Err(error)) => Ready(Err(error))
                      case Ready(Ok(_)) => Ready(Ok(()))
    {
      ghost var v := View();
      ghost var k := 0;
      while true
        invariant Valid(state) && buf.filled == old(buf.filled) && buf.room == old(buf.room)
        invariant k <= |v.script| && (!v.state.PendingChunk? ==> k == 0 && state == v.state)
        invariant stream.script == v.script[k..]
        invariant state.PendingChunk? ==> forall i :: 0 <= i < k ==> IsEmptyChunk(v.script[i])
        invariant !state.PendingChunk? ==> Fill(v) == (Ready(Ok(())), View())
        decreases |stream.script|, state.PendingChunk?
      {
        match state
        case Chunk(bytes, start) =>
          var available := bytes[start..];
          var len := Min(buf.room, |available|);
          buf.PutSlice(available[..len]);
          state := Chunk(bytes, start + len);
          if |bytes| == start + len {
            state := PendingChunk;
          }
          return Ready(Ok(()));
        case PendingChunk =>
          assert stream.script != [] ==> stream.script[1..] == v.script[k + 1..];
          var a := stream.PollNext();
          if !IsEmptyChunk(a) { EmptyChunksUnique(v.script, k); }
          match a {
          case Pending => return Pending;
          case Ready(Some(Ok(chunk))) =>
            k := k + 1;
            if chunk != [] {
              state := Chunk(chunk, 0);
            }
          case Ready(Some(Err(e))) =>
            state := Eof;
            return Ready(Err(e));
          case Ready(None) =>
            state := Eof;
            return Ready(Ok(()));
          }
        case Eof =>
          return Ready(Ok(()));
      }
    }

    method PollFillBuf() returns (r: Poll<Result<Bytes, E>>)
      requires Valid(state)
      modifies this, stream
      ensures Valid(state)
      ensures var e := Do(old(View()), FillBuf); View() == e.reader && r == e.answer && e.delivered == []
    {
      ghost var v := View();
      ghost var k := 0;
      while state.PendingChunk?
        invariant Valid(state)
        invariant k <= |v.script| && (!v.state.PendingChunk? ==> k == 0 && state == v.state)
        invariant stream.script == v.script[k..]
        invariant state.PendingChunk? ==> forall i :: 0 <= i < k ==> IsEmptyChunk(v.script[i])
        invariant !state.PendingChunk? ==> Fill(v) == (Ready(Ok(())), View())
        decreases |stream.script|, state.PendingChunk?
      {
        assert stream.script != [] ==> stream.script[1..] == v.script[k + 1..];
        var a := stream.PollNext();
        if !IsEmptyChunk(a) { EmptyChunksUnique(v.script, k); }
        match a
        case Ready(Some(Ok(chunk))) =>
          k := k + 1;
          if chunk != [] {
            state := Chunk(chunk, 0);
          }
        case Ready(Some(Err(e))) =>
          state := Eof;
          return Ready(Err(e));
        case Ready(None) =>
          state := Eof;
          return Ready(Ok([]));
        case Pending => return Pending;
      }
      match state
      case Chunk(bytes, start) => return Ready(Ok(bytes[start..]));
      case Eof => return Ready(Ok([]));
    }

    /** The debug assertions of the source are the callers' obligation. */
    method Consume(amount: nat)
      requires Valid(state) && amount <= |Unread(state)|
      modifies this
      ensures Valid(state)
      ensures View() == Do(old(View()), Take(amount)).reader
    {
      if amount == 0 {
        return;
      }
      if state.Chunk? {
        state := state.(start := state.start + amount);
        if state.start >= |state.bytes| {
          state := PendingChunk;
        }
      }
    }
  }

  // -------------------------------------------------------------- what it means

  /** The bytes of the chunks before the first error or end. */
  function BytesAhead<E>(script: seq<TryAnswer<Bytes, E>>): Bytes {
    if script == [] then [] else
    match script[0]
    case Pending => BytesAhead(script[1..])
    case Ready(Some(Ok(bytes))) => bytes + BytesAhead(script[1..])
    case _ => []
  }

  /** All bytes still to be delivered. */
  function Remaining<E>(r: Reader<E>): Bytes
    requires Valid(r.state)
  {
    Unread(r.state) + if r.state.Eof? then [] else BytesAhead(r.script)
  }

  lemma SkipEmpty<E>(script: seq<TryAnswer<Bytes, E>>, n: nat)
    requires n <= |script| && forall i :: 0 <= i < n ==> IsEmptyChunk(script[i])
    ensures BytesAhead(script) == BytesAhead(script[n..])
  {
    if n == 0 {
      assert script[0..] == script;
    } else {
      assert IsEmptyChunk(script[0]);
      SkipEmpty(script[1..], n - 1);
      assert script[1..][n - 1..] == script[n..];
    }
  }

  /** Taking an answer from the source neither loses nor adds a byte. */
  lemma FillKeepsBytes<E>(r: Reader<E>)
    requires Valid(r.state)
    ensures var (f, r') := Fill(r);
            && Valid(r'.state)
            && Remaining(r') == Remaining(r)
            && (f == Ready(Ok(())) ==> !r'.state.PendingChunk?)
            && (f.Pending? ==> r'.state.PendingChunk?)
            && (f.Ready? && f.value.Err? ==> r'.state.Eof?)
  {
    if r.state.PendingChunk? {
      var n := EmptyChunks(r.script);
      SkipEmpty(r.script, n);
      if n < |r.script| {
        assert r.script[n..][0] == r.script[n];
      }
    }
  }

  lemma AdvanceDelivers(st: ReadState, n: nat)
    requires Valid(st) && n <= |Unread(st)|
    ensures Valid(Advance(st, n))
    ensures Unread(st) == Unread(st)[..n] + Unread(Advance(st, n))
    ensures st.Eof? <==> Advance(st, n).Eof?
  {
  }

  // ------------------------------------------------------- what an operation answers

  /** The answer of the source that decides the operation: the first one that is not an
      empty chunk, or `Pending` if there is none. */
  function Deciding<E>(script: seq<TryAnswer<Bytes, E>>): TryAnswer<Bytes, E> {
    var k := EmptyChunks(script);
    if k < |script| then script[k] else Pending
  }

  /** An operation is pending, or answers an error, exactly if it has to ask the source and
      that answers so; and it reaches the end of file exactly with an end or an error. */
  lemma SourceDecides<E>(r: Reader<E>, op: Op)
    requires InRange(r, op) && !op.Take?
    ensures var e, a := Do(r, op), Deciding(r.script);
            && (e.answer == Pending <==> r.state.PendingChunk? && a == Pending)
            && (forall error: E ::
                  e.answer == Ready(Err(error)) <==> r.state.PendingChunk? && a == Ready(Some(Err(error))))
            && (e.reader.state.Eof? <==>
                  r.state.Eof? || (r.state.PendingChunk? && a.Ready? && (a.value.None? || a.value.value.Err?)))
  {
    FillKeepsBytes(r);
  }

  /** Outside `PendingChunk` the source is left alone; within it, it is asked up to that
      answer. */
  lemma SourceIsAsked<E>(r: Reader<E>, op: Op)
    requires InRange(r, op)
    ensures var k := EmptyChunks(r.script);
            Do(r, op).reader.script ==
              if op.Take? || !r.state.PendingChunk? then r.script
              else if k < |r.script| then r.script[k + 1..]
              else []
  {
    var k := EmptyChunks(r.script);
    if k < |r.script| { assert r.script[k..][1..] == r.script[k + 1..]; }
  }

  /** What a `FillBuf` shows is the head of what is to be delivered: nothing at the end of
      file, and otherwise all that is unread of a chunk, which is something. */
  lemma FillBufShows<E>(r: Reader<E>)
    requires InRange(r, FillBuf)
    ensures var e := Do(r, FillBuf);
            && e.delivered == [] && Remaining(e.reader) == Remaining(r)
            && (e.answer.Ready? && e.answer.value.Ok? ==>
                  && e.answer.value.value <= Remaining(r)
                  && match e.reader.state
                     case Chunk(bytes, start) => start < |bytes| && e.answer.value.value == bytes[start..]
                     case Eof => e.answer.value.value == []
                     case PendingChunk => false)
  {
    hide BytesAhead;
    FillKeepsBytes(r);
  }

  /** A successful `Read` delivers as many of the bytes that a `FillBuf` would show as fit. */
  lemma ReadFits<E>(r: Reader<E>, room: nat)
    requires InRange(r, Read(room))
    ensures var e, shown := Do(r, Read(room)), Do(r, FillBuf).answer;
            if shown.Ready? && shown.value.Ok? then
              var view := shown.value.value;
              var n := if room < |view| then room else |view|;
              e.answer == Ready(Ok(view[..n])) && e.delivered == view[..n]
            else
              e.answer == shown && e.delivered == []
  {
    FillKeepsBytes(r);
  }

  /** A `Take` of `n` bytes drops the next `n` bytes and asks the source for nothing. */
  lemma TakeDrops<E>(r: Reader<E>, n: nat)
    requires InRange(r, Take(n))
    ensures var e := Do(r, Take(n));
            && |Remaining(e.reader)| == |Remaining(r)| - n
            && n <= |Remaining(r)| && Remaining(e.reader) == Remaining(r)[n..] && e.delivered == Remaining(r)[..n]
  {
    hide BytesAhead, Fill;
    OpConserves(r, Take(n));
    var e := Do(r, Take(n));
    assert |e.delivered| == n && Remaining(r) == e.delivered + Remaining(e.reader);
  }

  // ------------------------------------------------------------------------ runs

  lemma OpConserves<E>(r: Reader<E>, op: Op)
    requires InRange(r, op)
    ensures var e := Do(r, op);
            && Valid(e.reader.state)
            && Remaining(r) == e.delivered + Remaining(e.reader)
  {
    hide Fill, BytesAhead;
    FillKeepsBytes(r);
    match op
    case Take(n) => AdvanceKeepsBytes(r, n);
    case FillBuf =>
    case Read(room) => AdvanceKeepsBytes(Fill(r).1, Min(room, |Unread(Fill(r).1.state)|));
  }

  lemma AdvanceKeepsBytes<E>(r: Reader<E>, n: nat)
    requires Valid(r.state) && n <= |Unread(r.state)|
    ensures Valid(Advance(r.state, n))
    ensures Remaining(r) == Unread(r.state)[..n] + Remaining(r.(state := Advance(r.state, n)))
  {
    hide BytesAhead;
    AdvanceDelivers(r.state, n);
  }

  ghost predicate AllInRange<E>(r: Reader<E>, ops: seq<Op>)
    decreases ops
  {
    ops != [] ==> InRange(r, ops[0]) && AllInRange(Do(r, ops[0]).reader, ops[1..])
  }

  ghost function Delivered<E>(r: Reader<E>, ops: seq<Op>): Bytes
    requires AllInRange(r, ops)
    decreases ops
  {
    if ops == [] then [] else Do(r, ops[0]).delivered + Delivered(Do(r, ops[0]).reader, ops[1..])
  }

  ghost function After<E>(r: Reader<E>, ops: seq<Op>): Reader<E>
    requires AllInRange(r, ops)
    decreases ops
  {
    if ops == [] then r else After(Do(r, ops[0]).reader, ops[1..])
  }

  /** Fidelity: for any chunking, pending pattern, buffer sizes and mix of operations,
      the bytes delivered and those still to come are exactly the bytes of the chunks
      before the first error or end. */
  lemma {:induction false} ByteStreamFidelity<E>(r: Reader<E>, ops: seq<Op>)
    requires Valid(r.state) && AllInRange(r, ops)
    ensures Valid(After(r, ops).state)
    ensures Remaining(r) == Delivered(r, ops) + Remaining(After(r, ops))
    decreases ops
  {
    if ops != [] {
      hide Do, Remaining, InRange;
      OpConserves(r, ops[0]);
      ByteStreamFidelity(Do(r, ops[0]).reader, ops[1..]);
    }
  }

  lemma DeliveredIsAPrefix<E>(script: seq<TryAnswer<Bytes, E>>, ops: seq<Op>)
    requires AllInRange(Reader(script, PendingChunk), ops)
    ensures Delivered(Reader(script, PendingChunk), ops) <= BytesAhead(script)
  {
    hide Delivered, After, AllInRange;
    ByteStreamFidelity(Reader(script, PendingChunk), ops);
    assert Remaining(Reader(script, PendingChunk)) == BytesAhead(script);
  }

  /** An empty successful read into a buffer with room means end of file, and so does an
      empty view of the buffer. */
  lemma EmptyMeansEof<E>(r: Reader<E>, op: Op)
    requires InRange(r, op) && !op.Take? && (op.Read? ==> op.room > 0)
    ensures Do(r, op).answer == Ready(Ok([])) <==>
      Do(r, op).reader.state.Eof? && (Do(r, op).answer.Ready? ==> Do(r, op).answer.value.Ok?)
  {
    FillKeepsBytes(r);
  }

  /** End of file is permanent, and the source is not polled any more. */
  lemma {:induction false} EofIsPermanent<E>(r: Reader<E>, ops: seq<Op>)
    requires r.state.Eof? && AllInRange(r, ops)
    ensures After(r, ops) == r && Delivered(r, ops) == []
    decreases ops
  {
    if ops != [] {
      assert Do(r, ops[0]).reader == r;
      EofIsPermanent(r, ops[1..]);
    }
  }

  /** The error of the source, if one comes before its end. */
  function ErrorAhead<E>(script: seq<TryAnswer<Bytes, E>>): seq<E> {
    if script == [] then [] else
    match script[0]
    case Ready(Some(Err(e))) => [e]
    case Ready(None) => []
    case _ => ErrorAhead(script[1..])
  }

  /** The errors still to be reported: none at the end of file. */
  function ErrorsAhead<E>(r: Reader<E>): seq<E> {
    if r.state.Eof? then [] else ErrorAhead(r.script)
  }

  function ErrorOf<E>(e: Effect<E>): seq<E> {
    if e.answer.Ready? && e.answer.value.Err? then [e.answer.value.error] else []
  }

  ghost function Reported<E>(r: Reader<E>, ops: seq<Op>): seq<E>
    requires AllInRange(r, ops)
    decreases ops
  {
    if ops == [] then [] else ErrorOf(Do(r, ops[0])) + Reported(Do(r, ops[0]).reader, ops[1..])
  }

  lemma ErrorAfter<E>(script: seq<TryAnswer<Bytes, E>>, n: nat)
    requires n <= |script| && forall i :: 0 <= i < n ==> IsEmptyChunk(script[i])
    ensures ErrorAhead(script) == ErrorAhead(script[n..])
  {
    if n == 0 {
      assert script[0..] == script;
    } else {
      assert IsEmptyChunk(script[0]);
      ErrorAfter(script[1..], n - 1);
      assert script[1..][n - 1..] == script[n..];
    }
  }

  lemma OpReports<E>(r: Reader<E>, op: Op)
    requires InRange(r, op)
    ensures ErrorsAhead(r) == ErrorOf(Do(r, op)) + ErrorsAhead(Do(r, op).reader)
  {
    var k := EmptyChunks(r.script);
    ErrorAfter(r.script, k);
    SourceIsAsked(r, op);
    if !op.Take? {
      SourceDecides(r, op);
      hide Do, EmptyChunks;
      if r.state.PendingChunk? && k < |r.script| { assert r.script[k..][1..] == r.script[k + 1..]; }
      assert Do(r, op).answer.Ready? && Do(r, op).answer.value.Err? ==>
        Do(r, op).answer == Ready(Err(Do(r, op).answer.value.error));
    }
  }

  lemma Regroup<E>(a: seq<E>, b: seq<E>, c: seq<E>)
    ensures a + (b + c) == (a + b) + c
  {
  }

  /** No error is lost and none is invented: over any operations the errors reported and
      the one still to come are the one that the source gives before its end. */
  lemma {:induction false} ErrorsAreReported<E>(r: Reader<E>, ops: seq<Op>)
    requires Valid(r.state) && AllInRange(r, ops)
    ensures ErrorsAhead(r) == Reported(r, ops) + ErrorsAhead(After(r, ops))
    decreases ops
  {
    if ops != [] {
      OpConserves(r, ops[0]);
      hide Do, ErrorsAhead, InRange, ErrorOf, Remaining;
      OpReports(r, ops[0]);
      ErrorsAreReported(Do(r, ops[0]).reader, ops[1..]);
      Regroup(ErrorOf(Do(r, ops[0])), Reported(Do(r, ops[0]).reader, ops[1..]), ErrorsAhead(After(r, ops)));
    }
  }

  /** At the end of file everything has come out: the bytes before the first error or end,
      and the error, if that is what ended the source.  So an empty success means a clean
      end, or an error reported before. */
  lemma EofMeansAllDelivered<E>(script: seq<TryAnswer<Bytes, E>>, ops: seq<Op>)
    requires AllInRange(Reader(script, PendingChunk), ops)
    requires After(Reader(script, PendingChunk), ops).state.Eof?
    ensures Reported(Reader(script, PendingChunk), ops) == ErrorAhead(script)
    ensures Delivered(Reader(script, PendingChunk), ops) == BytesAhead(script)
  {
    hide Delivered, After, AllInRange, Reported;
    var r := Reader(script, PendingChunk);
    ErrorsAreReported(r, ops);
    ByteStreamFidelity(r, ops);
    assert Remaining(r) == BytesAhead(script);
    assert Delivered(r, ops) + [] == Delivered(r, ops) && Reported(r, ops) + [] == Reported(r, ops);
  }
}
