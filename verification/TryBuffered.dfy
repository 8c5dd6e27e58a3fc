/** `TryBuffered`: futures from a fused source, run concurrently, results in order. */
module TryBuffered {
  import opened Types
  import opened Source
  import opened FuturesOrdered

  /** A future of a fallible value, as the source yields it. */
  type TryFuture<V, E> = Future<Result<V, E>>

  function Outputs<V, E>(fs: seq<TryFuture<V, E>>): (os: seq<Result<V, E>>)
    ensures |os| == |fs|
    ensures forall i :: 0 <= i < |fs| ==> os[i] == fs[i].output
  {
    if fs == [] then [] else Outputs(fs[..|fs| - 1]) + [fs[|fs| - 1].output]
  }

  predicate HasRoom(max: Option<nat>, len: nat) {
    max.None? || len < max.value
  }

  /** How many futures one poll takes from the source: all that it yields in a row.
      `room` is decided once, before the loop: the length is not read again. */
  function FuturesTaken<V, E>(room: bool, terminated: bool, script: seq<TryAnswer<TryFuture<V, E>, E>>): (n: nat)
    ensures n <= |script| && forall i :: 0 <= i < n ==> IsOk(script[i])
    ensures room && !terminated ==> n == |script| || !IsOk(script[n])
    ensures !room || terminated ==> n == 0
  {
    if room && !terminated then LeadingOks(script, |script|) else 0
  }

  /** The outputs of the futures among the answers of a source, and its errors. */
  function OutputsIn<V, E>(answers: seq<TryAnswer<TryFuture<V, E>, E>>): seq<Result<V, E>> {
    if answers == [] then []
    else
      var last := |answers| - 1;
      OutputsIn(answers[..last]) + if IsOk(answers[last]) then [answers[last].value.value.value.output] else []
  }

  function ErrorsIn<V, E>(answers: seq<TryAnswer<TryFuture<V, E>, E>>): seq<E> {
    if answers == [] then []
    else
      var last := |answers| - 1;
      ErrorsIn(answers[..last]) + if IsErr(answers[last]) then [answers[last].value.value.error] else []
  }

  predicate IsErr<T, E>(a: TryAnswer<T, E>) {
    a.Ready? && a.value.Some? && a.value.value.Err?
  }

  lemma OneMoreTaken<V, E>(answers: seq<TryAnswer<TryFuture<V, E>, E>>, a: TryAnswer<TryFuture<V, E>, E>)
    ensures OutputsIn(answers + [a]) == OutputsIn(answers) + if IsOk(a) then [a.value.value.value.output] else []
    ensures ErrorsIn(answers + [a]) == ErrorsIn(answers) + if IsErr(a) then [a.value.value.error] else []
  {
    assert (answers + [a])[..|answers|] == answers;
  }

  lemma NoFuture<V, E>(script: seq<TryAnswer<TryFuture<V, E>, E>>)
    ensures Items(script, 0) == [] && Outputs<V, E>([]) == []
  {
  }

  lemma OneMoreFuture<V, E>(script: seq<TryAnswer<TryFuture<V, E>, E>>, n: nat, f: TryFuture<V, E>)
    requires n < |script| && script[n] == Ready(Some(Ok(f)))
    requires forall i :: 0 <= i < n ==> IsOk(script[i])
    ensures forall i :: 0 <= i < n + 1 ==> IsOk(script[i])
    ensures Outputs(Items(script, n + 1)) == Outputs(Items(script, n)) + [f.output]
  {
    assert IsOk(script[n]) && Items(script, n + 1) == Items(script, n) + [f];
    assert Items(script, n + 1)[..n] == Items(script, n);
  }

  lemma NoOutputs<V, E>(fs: seq<TryFuture<V, E>>)
    ensures Outputs(fs) == [] <==> fs == []
  {
  }

  /** The answer of the source with which the fill loop ends, if it starts at all. */
  ghost predicate StopsAt<V, E>(room: bool, terminated: bool, script: seq<TryAnswer<TryFuture<V, E>, E>>, n: nat,
                                stop: Option<TryAnswer<TryFuture<V, E>, E>>) {
    if !room then stop == None
    else if terminated then stop == Some(Ready(None))
    else if n < |script| then stop == Some(script[n])
    else stop == Some(Pending)
  }

  class TryBuffered<V(==), E(==)> {
    const stream: FusedStream<Result<TryFuture<V, E>, E>>
    const queue: FuturesOrdered<Result<V, E>>
    const max: Option<nat>

    /** What the source would answer, and what it has answered; the outputs of all futures
        taken from it, those yielded, and the source errors yielded. */
    ghost const source: seq<TryAnswer<TryFuture<V, E>, E>>
    ghost var taken: seq<TryAnswer<TryFuture<V, E>, E>>
    ghost var accepted: seq<Result<V, E>>
    ghost var yielded: seq<Result<V, E>>
    ghost var reported: seq<E>

    /** Between polls. */
    ghost predicate Valid()
      reads this, stream, stream.stream, queue, queue.Repr
    {
      Filling() && reported == ErrorsIn(taken)
    }

    ghost predicate Filling()
      reads `taken, `accepted, `yielded, stream, stream.stream, queue, queue.Repr
    {
      && queue.Repr == {queue, queue.inProgress, queue.inProgress.pool, queue.queued}
      && queue.Valid()
      && (max.Some? ==> max.value > 0)
      && stream as object !in queue.Repr && stream.stream as object !in queue.Repr
      && source == taken + stream.Script()
      && accepted == OutputsIn(taken) == yielded + queue.deque
    }

    /** A limit of zero means no limit. */
    constructor (source: FusedStream<Result<TryFuture<V, E>, E>>, n: Option<nat>)
      ensures Valid() && stream == source && queue.deque == [] && taken == []
      ensures this.source == source.Script()
      ensures fresh(queue.Repr)
      ensures max == if n == Some(0) then None else n
    {
      hide Represents, InProgress.Valid, InProgress.Elems;
      stream := source;
      this.source := source.Script();
      queue := new FuturesOrdered();
      max := if n == Some(0) then None else n;
      taken, accepted, yielded, reported := [], [], [], [];
    }

    /** One answer is taken from the source. */
    method Take() returns (a: TryAnswer<TryFuture<V, E>, E>)
      requires Filling()
      modifies this`taken, this`accepted, stream, stream.stream, queue.Repr
      ensures Filling()
      ensures a == if old(stream.terminated) then Ready(None) else Next(old(stream.Script())).1
      ensures stream.Script() == if old(stream.terminated) then old(stream.Script()) else Next(old(stream.Script())).0
      ensures stream.terminated <==> old(stream.terminated) || a == Ready(None)
      ensures old(stream.terminated) || old(stream.Script()) == [] ==> taken == old(taken)
      ensures !(old(stream.terminated) || old(stream.Script()) == []) ==> taken == old(taken) + [a]
      ensures queue.deque == old(queue.deque) + if IsOk(a) then [a.value.value.value.output] else []
      ensures queue.inProgress.pool.polls == old(queue.inProgress.pool.polls)
      ensures !IsOk(a) ==>
        && queue.inProgress.NothingInFlight() == old(queue.inProgress.NothingInFlight())
        && queue.inProgress.NeverPushed() == old(queue.inProgress.NeverPushed())
    {
      hide Represents, InProgress.Valid, InProgress.Elems, InProgress.NothingInFlight, InProgress.NeverPushed;
      hide OutputsIn;
      ghost var script := stream.Script();
      a := stream.PollNext();
      OneMoreTaken(taken, a);
      if !old(stream.terminated) && script != [] {
        assert script == [a] + stream.Script();
        assert taken + ([a] + stream.Script()) == (taken + [a]) + stream.Script();
        taken := taken + [a];
      }
      if IsOk(a) {
        queue.PushBack(a.value.value.value);
        accepted := accepted + [a.value.value.value.output];
      }
    }

    /** The fill loop: takes the futures that the source gives in a row, and the answer
        after them. */
    method FillQueue(room: bool) returns (stop: Option<TryAnswer<TryFuture<V, E>, E>>)
      requires Valid()
      modifies this`taken, this`accepted, stream, stream.stream, queue.Repr
      ensures Filling()
      ensures var script, terminated := old(stream.Script()), old(stream.terminated);
              var n := FuturesTaken(room, terminated, script);
              && StopsAt(room, terminated, script, n, stop)
              && queue.deque == old(queue.deque) + Outputs(Items(script, n))
              && stream.Script() == (if room && !terminated && n < |script| then script[n + 1..] else script[n..])
              && (n == 0 ==>
                    && queue.inProgress.NothingInFlight() == old(queue.inProgress.NothingInFlight())
                    && queue.inProgress.NeverPushed() == old(queue.inProgress.NeverPushed()))
      ensures stream.terminated <==> old(stream.terminated) || stop == Some(Ready(None))
      ensures queue.inProgress.pool.polls == old(queue.inProgress.pool.polls)
      ensures ErrorsIn(taken) ==
              reported + if stop.Some? && IsErr(stop.value) then [stop.value.value.value.error] else []
    {
      hide Represents, Outputs, Items, InProgress.Valid, InProgress.Elems, OutputsIn, ErrorsIn;
      hide InProgress.NothingInFlight, InProgress.NeverPushed;
      ghost var script, terminated := stream.Script(), stream.terminated;
      NoFuture(script);
      ghost var n := 0;
      while room
        invariant Filling() && ErrorsIn(taken) == reported
        invariant !room ==> n == 0
        invariant queue.inProgress.pool.polls == old(queue.inProgress.pool.polls)
        invariant n == 0 ==>
          && queue.inProgress.NothingInFlight() == old(queue.inProgress.NothingInFlight())
          && queue.inProgress.NeverPushed() == old(queue.inProgress.NeverPushed())
        invariant n <= |script| && (terminated ==> n == 0) && stream.terminated == terminated
        invariant stream.Script() == script[n..]
        invariant forall i :: 0 <= i < n ==> IsOk(script[i])
        invariant queue.deque == old(queue.deque) + Outputs(Items(script, n))
        decreases |stream.Script()|
      {
        assert stream.Script() != [] ==> stream.Script()[1..] == script[n + 1..] && stream.Script()[0] == script[n];
        ghost var before := taken;
        var a := Take();
        OneMoreTaken(before, a);
        if !terminated && !IsOk(a) { LeadingOksUnique(script, |script|, n); }
        match a {
          case Ready(Some(Ok(future))) =>
            OneMoreFuture(script, n, future);
            n := n + 1;
          case Ready(Some(Err(e))) => return Some(a);
          case Ready(None) => return Some(a);
          case Pending => return Some(a);
        }
      }
      assert queue.deque + [] == queue.deque;
      return None;
    }

    /** One poll.  A source error comes out at once and loses none of the futures.  With
        nothing outstanding it answers that it has ended, or `Pending` if the source has
        just been pending; it is `Pending` at the end only if the set below is half-linked,
        and not if nothing is in flight there, or nothing was ever pushed. */
    method PollNext() returns (r: TryAnswer<V, E>)
      requires Valid()
      modifies this`taken, this`accepted, this`yielded, this`reported, stream, stream.stream, queue.Repr
      ensures Valid()
      ensures var script, terminated := old(stream.Script()), old(stream.terminated);
              var room := max.None? || |old(queue.deque)| < max.value;
              var n := FuturesTaken(room, terminated, script);
              var all := old(queue.deque) + Outputs(Items(script, n));
              && stream.Script() == (if room && !terminated && n < |script| then script[n + 1..] else script[n..])
              && (stream.terminated <==> terminated || (room && n < |script| && script[n] == Ready(None)))
              && if room && !terminated && n < |script| && IsErr(script[n]) then
                   && r == Ready(Some(Err(script[n].value.value.error)))
                   && reported == old(reported) + [r.value.value.error]
                   && queue.deque == all && yielded == old(yielded)
                 else
                   && reported == old(reported)
                   && if all == [] then
                        && queue.deque == [] && yielded == old(yielded)
                        && r == (if stream.terminated && !queue.inProgress.HalfLinked() then Ready(None) else Pending)
                        && (r.Pending? && !stream.terminated ==> n == |script| || script[n] == Pending)
                        && (old(queue.inProgress.NothingInFlight()) || old(queue.inProgress.NeverPushed()) ==>
                              r == if stream.terminated then Ready(None) else Pending)
                      else match r
                        case Ready(Some(v)) => v == all[0] && queue.deque == all[1..] && yielded == old(yielded) + [v]
                        case Ready(None) => false
                        case Pending =>
                          && queue.deque == all && yielded == old(yielded)
                          && queue.inProgress.Waits(old(queue.inProgress.pool.polls))
    {
      hide Outputs, Represents, QueuedAt, ErrorsIn, OutputsIn, Items, LeadingOks, FuturesTaken;
      hide InProgress.Valid, InProgress.Elems, InProgress.HalfLinked;
      hide InProgress.NothingInFlight, InProgress.NeverPushed;
      var len := queue.Len();
      var room := HasRoom(max, len);
      var stop := FillQueue(room);
      if stop.Some? && stop.value.Ready? && stop.value.value.Some? {
        var failed := stop.value.value.value;
        reported := reported + [failed.error];
        return Ready(Some(Err(failed.error)));
      }
      NoOutputs(Items(old(stream.Script()), FuturesTaken(room, old(stream.terminated), old(stream.Script()))));
      var x := queue.PollNext();
      if x != Ready(None) {
        if x.Ready? {
          yielded := yielded + [x.value.value];
        }
        return x;
      }
      if stream.IsTerminated() {
        return Ready(None);
      } else {
        return Pending;
      }
    }

    method IsTerminated() returns (t: bool)
      requires Valid()
      ensures t <==> stream.terminated && queue.deque == []
    {
      var e := queue.IsEmpty();
      return stream.IsTerminated() && e;
    }
  }

  /** The documented bound of `max` buffered futures is not kept by one poll: the length
      is read once, and the loop then takes every future that is ready. */
  lemma MaxIsNotKept(f: TryFuture<int, int>, g: TryFuture<int, int>)
    ensures var script: seq<TryAnswer<TryFuture<int, int>, int>> := [Ready(Some(Ok(f))), Ready(Some(Ok(g)))];
            FuturesTaken(HasRoom(Some(1), 0), false, script) == 2
  {
    var script: seq<TryAnswer<TryFuture<int, int>, int>> := [Ready(Some(Ok(f))), Ready(Some(Ok(g)))];
    LeadingOksUnique(script, 2, 2);
  }

  /** From within the bound, one poll keeps it exactly when the queue is full, or the
      source has ended, or has no more futures ready in a row than there is room for. */
  lemma MaxIsKeptIff<V, E>(max: nat, len: nat, terminated: bool, script: seq<TryAnswer<TryFuture<V, E>, E>>)
    requires len <= max
    ensures len + FuturesTaken(HasRoom(Some(max), len), terminated, script) <= max <==>
      len == max || terminated || LeadingOks(script, max - len + 1) <= max - len
  {
    var n, k := LeadingOks(script, |script|), LeadingOks(script, max - len + 1);
    if n <= max - len {
      LeadingOksUnique(script, max - len + 1, n);
    }
  }
}
