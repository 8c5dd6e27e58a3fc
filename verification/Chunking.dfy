/** `TryChunks` and `TryReadyChunks`: grouping the successful items of a stream. */
module Chunking {
  import opened Types
  import opened Source

  /** `TryChunksError` and `TryReadyChunksError`. */
  datatype ChunkError<T, E> = ChunkError(items: seq<T>, error: E)

  type Output<T, E> = TryAnswer<seq<T>, ChunkError<T, E>>

  /** What is left of the source, whether it has ended, and a stashed error. */
  datatype Chunker<T, E> = Chunker(script: seq<TryAnswer<T, E>>, terminated: bool, stash: Option<E>)

  // -------------------------------------------------------- reference definition

  function EmitItems<T, E>(xs: seq<T>, otherwise: Output<T, E>): Output<T, E> {
    if xs == [] then otherwise else Ready(Some(Ok(xs)))
  }

  /** One poll: the run of successful items up to `cap`, cut short by whatever the
      source answers next; an error that cuts a run short is stashed. */
  function Step<T, E>(cap: nat, s: Chunker<T, E>): (Output<T, E>, Chunker<T, E>) {
    if s.stash.Some? then (Ready(Some(Err(ChunkError([], s.stash.value)))), s.(stash := None))
    else if s.terminated then (Ready(None), s)
    else
      var n := LeadingOks(s.script, cap);
      var xs := Items(s.script, n);
      if n == cap then (Ready(Some(Ok(xs))), s.(script := s.script[n..]))
      else
        var (rest: seq<TryAnswer<T, E>>, stop: TryAnswer<T, E>) := Next(s.script[n..]);
        match stop
        case Pending => (EmitItems(xs, Pending), s.(script := rest))
        case Ready(None) => (EmitItems(xs, Ready(None)), s.(script := rest, terminated := true))
        case Ready(Some(Err(e))) =>
          if xs == [] then (Ready(Some(Err(ChunkError([], e)))), s.(script := rest))
          else (Ready(Some(Ok(xs))), s.(script := rest, stash := Some(e)))
        case Ready(Some(Ok(_))) => (Ready(Some(Ok(xs))), s)
  }

  // ----------------------------------------------------------------- the machines

  class TryChunks<T, E> {
    const stream: FusedStream<Result<T, E>>
    const cap: nat
    var items: seq<T>
    var pendingError: Option<E>

    ghost predicate Valid()
      reads this, stream
    {
      cap > 0 && items == [] && (pendingError.Some? ==> !stream.terminated)
    }

    function View(): Chunker<T, E>
      reads this, stream, stream.stream
    {
      Chunker(stream.Script(), stream.terminated, pendingError)
    }

    constructor (source: FusedStream<Result<T, E>>, capacity: nat)
      requires capacity > 0 && !source.terminated
      ensures Valid() && stream == source && cap == capacity && pendingError == None
    {
      stream, cap, items, pendingError := source, capacity, [], None;
    }

    method PollNext() returns (r: Output<T, E>)
      requires Valid()
      modifies this, stream, stream.stream
      ensures Valid()
      ensures (r, View()) == Step(cap, old(View()))
    {
      if pendingError.Some? {
        var e := pendingError.value;
        pendingError := None;
        return Ready(Some(Err(ChunkError([], e))));
      }
      ghost var s := View();
      while true
        invariant pendingError == None && stream.terminated == s.terminated
        invariant |items| < cap && |items| <= |s.script| && (s.terminated ==> items == [])
        invariant forall i :: 0 <= i < |items| ==> IsOk(s.script[i])
        invariant items == Items(s.script, |items|) && stream.Script() == s.script[|items|..]
        decreases cap - |items|
      {
        assert stream.Script() != [] ==> stream.Script()[1..] == s.script[|items| + 1..];
        var a := stream.PollNext();
        if !s.terminated && !IsOk(a) { LeadingOksUnique(s.script, cap, |items|); }
        match a
        case Ready(Some(Ok(item))) =>
          items := items + [item];
          if |items| >= cap {
            LeadingOksUnique(s.script, cap, cap);
            r, items := Ready(Some(Ok(items))), [];
            return;
          }
        case Ready(Some(Err(e))) =>
          if items == [] {
            return Ready(Some(Err(ChunkError([], e))));
          } else {
            pendingError := Some(e);
            r, items := Ready(Some(Ok(items))), [];
            return;
          }
        case Ready(None) =>
          r, items := if items == [] then Ready(None) else Ready(Some(Ok(items))), [];
          return;
        case Pending =>
          if items == [] {
            return Pending;
          } else {
            r, items := Ready(Some(Ok(items))), [];
            return;
          }
      }
    }

    predicate IsTerminated()
      reads this, stream
    {
      stream.IsTerminated() && items == []
    }
  }

  class TryReadyChunks<T, E> {
    const stream: FusedStream<Result<T, E>>
    const cap: nat
    var pendingError: Option<E>

    ghost predicate Valid()
      reads this, stream
    {
      cap > 0 && (pendingError.Some? ==> !stream.terminated)
    }

    function View(): Chunker<T, E>
      reads this, stream, stream.stream
    {
      Chunker(stream.Script(), stream.terminated, pendingError)
    }

    constructor (source: FusedStream<Result<T, E>>, capacity: nat)
      requires capacity > 0 && !source.terminated
      ensures Valid() && stream == source && cap == capacity && pendingError == None
    {
      stream, cap, pendingError := source, capacity, None;
    }

    method PollNext() returns (r: Output<T, E>)
      requires Valid()
      modifies this, stream, stream.stream
      ensures Valid()
      ensures (r, View()) == Step(cap, old(View()))
    {
      if pendingError.Some? {
        var e := pendingError.value;
        pendingError := None;
        return Ready(Some(Err(ChunkError([], e))));
      }
      var items: seq<T> := [];
      ghost var s := View();
      while true
        invariant pendingError == None && stream.terminated == s.terminated
        invariant |items| < cap && |items| <= |s.script| && (s.terminated ==> items == [])
        invariant forall i :: 0 <= i < |items| ==> IsOk(s.script[i])
        invariant items == Items(s.script, |items|) && stream.Script() == s.script[|items|..]
        decreases cap - |items|
      {
        assert stream.Script() != [] ==> stream.Script()[1..] == s.script[|items| + 1..];
        var a := stream.PollNext();
        if !s.terminated && !IsOk(a) { LeadingOksUnique(s.script, cap, |items|); }
        match a
        case Pending =>
          return if items == [] then Pending else Ready(Some(Ok(items)));
        case Ready(Some(Ok(item))) =>
          items := items + [item];
          if |items| >= cap {
            LeadingOksUnique(s.script, cap, cap);
            return Ready(Some(Ok(items)));
          }
        case Ready(Some(Err(e))) =>
          if items == [] {
            return Ready(Some(Err(ChunkError(items, e))));
          } else {
            pendingError := Some(e);
            return Ready(Some(Ok(items)));
          }
        case Ready(None) =>
          return if items == [] then Ready(None) else Ready(Some(Ok(items)));
      }
    }

    predicate IsTerminated()
      reads stream
    {
      stream.IsTerminated()
    }
  }

  // ------------------------------------------------------------------- what it means

  function Oks<T, E>(xs: seq<T>): seq<Result<T, E>> {
    seq(|xs|, i requires 0 <= i < |xs| => Ok(xs[i]))
  }

  /** The source values that an output stands for. */
  function Unchunk<T, E>(out: Output<T, E>): seq<Result<T, E>> {
    match out
    case Ready(Some(Ok(xs))) => Oks(xs)
    case Ready(Some(Err(e))) => Oks(e.items) + [Err(e.error)]
    case _ => []
  }

  function Held<T, E>(s: Chunker<T, E>): seq<Result<T, E>> {
    if s.stash.Some? then [Err(s.stash.value)] else []
  }

  ghost predicate Sound<T, E>(s: Chunker<T, E>) {
    s.stash.Some? ==> !s.terminated
  }

  lemma ValuesOfItems<T, E>(script: seq<TryAnswer<T, E>>, n: nat)
    requires n <= |script| && forall i :: 0 <= i < n ==> IsOk(script[i])
    ensures Values(script[..n]) == Oks(Items(script, n))
  {
    if n > 0 {
      ValuesOfItems(script, n - 1);
      assert script[..n] == script[..n - 1] + [script[n - 1]];
      ValuesAppend(script[..n - 1], [script[n - 1]]);
      assert Values([script[n - 1]]) == [script[n - 1].value.value];
    }
  }

  /** How many answers one poll takes from the source. */
  function Taken<T, E>(cap: nat, s: Chunker<T, E>): (k: nat)
    ensures k <= |s.script|
  {
    if s.stash.Some? || s.terminated then 0 else
    var n := LeadingOks(s.script, cap);
    if n == cap || n == |s.script| then n else n + 1
  }

  lemma StepTakes<T, E>(cap: nat, s: Chunker<T, E>)
    requires cap > 0 && Sound(s)
    ensures Sound(Step(cap, s).1)
    ensures Step(cap, s).1.script == s.script[Taken(cap, s)..]
  {
    var n := LeadingOks(s.script, cap);
    if n < |s.script| {
      assert s.script[n..][1..] == s.script[n + 1..];
    }
  }

  /** One poll neither loses nor invents nor reorders a value. */
  lemma StepConserves<T, E>(cap: nat, s: Chunker<T, E>)
    requires cap > 0 && Sound(s)
    ensures var (out, s') := Step(cap, s);
            Held(s) + Values(s.script[..Taken(cap, s)]) == Unchunk(out) + Held(s')
  {
    if s.stash == None && !s.terminated {
      var n := LeadingOks(s.script, cap);
      ValuesOfItems(s.script, n);
      assert n > 0 ==> Items(s.script, n) != [];
      if n < cap && n < |s.script| {
        StopConserves(cap, s, n);
      }
    }
  }

  lemma StopConserves<T, E>(cap: nat, s: Chunker<T, E>, n: nat)
    requires s.stash == None && !s.terminated && n == LeadingOks(s.script, cap) && n < cap && n < |s.script|
    requires Values(s.script[..n]) == Oks(Items(s.script, n)) && (n > 0 ==> Items(s.script, n) != [])
    ensures var (out, s') := Step(cap, s);
            Values(s.script[..n + 1]) == Unchunk(out) + Held(s')
  {
    var stop := s.script[n];
    assert s.script[..n + 1] == s.script[..n] + [stop];
    ValuesAppend(s.script[..n], [stop]);
    assert Values([stop]) == if stop.Ready? && stop.value.Some? then [stop.value.value] else [];
    assert Next(s.script[n..]).1 == stop;
  }

  /** Every chunk has between 1 and `cap` items; an error carries no items; `Pending`
      and the end are answered only with nothing held back. */
  lemma OutputShape<T, E>(cap: nat, s: Chunker<T, E>)
    requires cap > 0 && Sound(s)
    ensures var (out, s') := Step(cap, s);
            match out
            case Ready(Some(Ok(xs))) => 1 <= |xs| <= cap
            case Ready(Some(Err(e))) => e.items == [] && Held(s') == []
            case Ready(None) => s'.terminated && Held(s') == []
            case Pending => !s'.terminated && Held(s') == []
  {
  }

  /** What a poll answers, by the answers of the source alone.  A stash comes first and asks
      the source for nothing, and neither does a source that has ended.  Otherwise a chunk
      is a run of items, cut off only by `cap` or by the next answer; and each other answer
      is the first one of the source.  The source has ended exactly if the last answer
      taken is the end. */
  lemma StepExactly<T, E>(cap: nat, s: Chunker<T, E>)
    requires cap > 0 && Sound(s)
    ensures var (out, s') := Step(cap, s);
            var first: TryAnswer<T, E> := if s.script == [] then Pending else s.script[0];
            if s.stash.Some? then
              out == Ready(Some(Err(ChunkError([], s.stash.value)))) && s' == Chunker(s.script, s.terminated, None)
            else if s.terminated then
              out == Ready(None) && s' == s
            else
              && (out == Pending <==> first == Pending)
              && (out == Ready(None) <==> first == Ready(None))
              && (forall e: ChunkError<T, E> ::
                    out == Ready(Some(Err(e))) <==> e.items == [] && first == Ready(Some(Err(e.error))))
              && (out.Ready? && out.value.Some? && out.value.value.Ok? ==>
                    var xs := out.value.value.value;
                    && 1 <= |xs| <= cap && |xs| <= |s.script|
                    && (forall i :: 0 <= i < |xs| ==> s.script[i] == Ready(Some(Ok(xs[i]))))
                    && (|xs| == cap || |xs| == |s.script| || !IsOk(s.script[|xs|]))
                    && (s'.stash.Some? <==>
                          |xs| < cap && |xs| < |s.script| && s.script[|xs|].Ready? && s.script[|xs|].value.Some?)
                    && (s'.stash.Some? ==> s.script[|xs|] == Ready(Some(Err(s'.stash.value)))))
              && var k := Taken(cap, s);
                 (s'.terminated <==> k > 0 && s.script[k - 1] == Ready(None))
  {
    hide Items, LeadingOks;
    var n := LeadingOks(s.script, cap);
    if s.stash.None? && !s.terminated && n < |s.script| {
      assert s.script[n..][0] == s.script[n];
      assert n > 0 ==> IsOk(s.script[0]) && IsOk(s.script[n - 1]);
    }
  }

  /** The outputs of the first `n` polls, and the state after them. */
  function Run<T, E>(cap: nat, s: Chunker<T, E>, n: nat): (seq<Output<T, E>>, Chunker<T, E>)
    decreases n
  {
    if n == 0 then ([], s) else
    var (out, s') := Step(cap, s);
    var (outs, last) := Run(cap, s', n - 1);
    ([out] + outs, last)
  }

  function UnchunkAll<T, E>(outs: seq<Output<T, E>>): seq<Result<T, E>> {
    if outs == [] then [] else Unchunk(outs[0]) + UnchunkAll(outs[1..])
  }

  /** How many answers `n` polls take from the source. */
  function TakenBy<T, E>(cap: nat, s: Chunker<T, E>, n: nat): nat
    decreases n
  {
    if n == 0 then 0 else Taken(cap, s) + TakenBy(cap, Step(cap, s).1, n - 1)
  }

  lemma RunTakes<T, E>(cap: nat, s: Chunker<T, E>, n: nat)
    requires cap > 0 && Sound(s)
    ensures Sound(Run(cap, s, n).1)
    ensures TakenBy(cap, s, n) <= |s.script|
    ensures Run(cap, s, n).1.script == s.script[TakenBy(cap, s, n)..]
    decreases n
  {
    if n > 0 {
      StepTakes(cap, s);
      RunTakes(cap, Step(cap, s).1, n - 1);
    }
  }

  /** Chunking is undone by flattening: over any number of polls, the chunks replaced
      by their items, with the errors in place, are exactly the values the source has
      given, except for an error still stashed. */
  lemma {:induction false} FlatteningUndoesChunking<T, E>(cap: nat, s: Chunker<T, E>, n: nat)
    requires cap > 0 && Sound(s)
    ensures TakenBy(cap, s, n) <= |s.script|
    ensures var (outs, last) := Run(cap, s, n);
            Held(s) + Values(s.script[..TakenBy(cap, s, n)]) == UnchunkAll(outs) + Held(last)
    decreases n
  {
    hide Step, Taken, Values, Held, Unchunk, Sound;
    if n == 0 {
      NoPoll(cap, s);
    } else {
      StepTakes(cap, s);
      StepConserves(cap, s);
      FlatteningUndoesChunking(cap, Step(cap, s).1, n - 1);
      OneMorePoll(cap, s, n);
    }
  }

  lemma NoPoll<T, E>(cap: nat, s: Chunker<T, E>)
    ensures TakenBy(cap, s, 0) == 0 && Run(cap, s, 0) == ([], s)
    ensures Held(s) + Values(s.script[..0]) == UnchunkAll(Run(cap, s, 0).0) + Held(s)
  {
    assert s.script[..0] == [];
    assert Held(s) + [] == [] + Held(s);
  }

  lemma OneMorePoll<T, E>(cap: nat, s: Chunker<T, E>, n: nat)
    requires n > 0
    requires var (out, s') := Step(cap, s);
             && s'.script == s.script[Taken(cap, s)..]
             && TakenBy(cap, s', n - 1) <= |s'.script|
             && Held(s) + Values(s.script[..Taken(cap, s)]) == Unchunk(out) + Held(s')
             && Held(s') + Values(s'.script[..TakenBy(cap, s', n - 1)])
                == UnchunkAll(Run(cap, s', n - 1).0) + Held(Run(cap, s', n - 1).1)
    ensures TakenBy(cap, s, n) <= |s.script|
    ensures Held(s) + Values(s.script[..TakenBy(cap, s, n)]) == UnchunkAll(Run(cap, s, n).0) + Held(Run(cap, s, n).1)
  {
    hide Step, Taken, Values, Held, Unchunk;
    var (out, s') := Step(cap, s);
    var k, m := Taken(cap, s), TakenBy(cap, s', n - 1);
    var (outs, last) := Run(cap, s', n - 1);
    assert Run(cap, s, n) == ([out] + outs, last) && TakenBy(cap, s, n) == k + m;
    assert UnchunkAll([out] + outs) == Unchunk(out) + UnchunkAll(outs) by { assert ([out] + outs)[1..] == outs; }
    assert s.script[..k + m] == s.script[..k] + s'.script[..m];
    ValuesAppend(s.script[..k], s'.script[..m]);
    Regroup(Held(s), Values(s.script[..k]), Values(s'.script[..m]),
            Unchunk(out), Held(s'), UnchunkAll(outs), Held(last));
  }

  lemma Regroup<T>(h: seq<T>, a: seq<T>, b: seq<T>, u: seq<T>, h': seq<T>, v: seq<T>, l: seq<T>)
    requires h + a == u + h' && h' + b == v + l
    ensures h + (a + b) == (u + v) + l
  {
    assert h + (a + b) == (h + a) + b == u + (h' + b);
  }

  /** When the source has ended, everything it gave before has come out. */
  lemma NothingIsStranded<T, E>(cap: nat, s: Chunker<T, E>, n: nat)
    requires cap > 0 && s.stash == None && Run(cap, s, n).1.terminated
    ensures TakenBy(cap, s, n) <= |s.script|
    ensures UnchunkAll(Run(cap, s, n).0) == Values(s.script[..TakenBy(cap, s, n)])
  {
    hide Run, TakenBy;
    RunTakes(cap, s, n);
    FlatteningUndoesChunking(cap, s, n);
    var (outs, last) := Run(cap, s, n);
    assert Held(last) == [] && UnchunkAll(outs) + [] == UnchunkAll(outs);
  }
}
