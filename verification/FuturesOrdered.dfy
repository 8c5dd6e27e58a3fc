/** `FuturesOrdered`: submission order restored over an arbitrary completion order. */
module FuturesOrdered {
  import opened Types
  import opened Maps
  import U = FuturesUnordered
  import T = TaskSet
  import Q = ReadyQueue

  /** A future, by its identity, and the output it completes with. */
  datatype Future<O> = Future(id: nat, output: O)

  /** A future or its output, with its place in the queue. */
  datatype Ordered<T> = Ordered(data: T, index: int)

  // ---------------------------------------------------------- the parts it stands on

  function ReadyAfter<O>(pendings: nat, x: O): (script: seq<Poll<O>>)
    ensures U.Comes(script) == Some(x)
  {
    if pendings == 0 then [Ready(x)] else [Pending] + ReadyAfter(pendings - 1, x)
  }

  ghost predicate AllCome<O>(futures: map<T.Tid, seq<Poll<O>>>, outputs: map<T.Tid, O>) {
    forall t :: t in outputs ==> t in futures && U.Comes(futures[t]) == Some(outputs[t])
  }

  /** The futures in progress: a `FuturesUnordered` whose futures come to distinct things,
      which are its elements. */
  class InProgress<O(==)> {
    const pool: U.FuturesUnordered<O>
    ghost var outputs: map<T.Tid, O>

    ghost function Elems(): set<O>
      reads this
    {
      outputs.Values
    }

    ghost predicate Valid()
      reads this, pool
    {
      pool.Valid() && outputs.Keys == pool.list && AllCome(pool.futures, outputs) && Injective(outputs)
    }

    /** No thread is in the middle of enqueueing a task. */
    ghost predicate NothingInFlight()
      reads pool
    {
      pool.queue.inflight == map[]
    }

    ghost predicate NeverPushed()
      reads pool
    {
      pool.tasks == map[]
    }

    /** The set has been polled since, and was pending. */
    ghost predicate Waits(before: nat)
      reads pool
    {
      pool.polls > before && pool.owner == T.Idle(T.Pending)
    }

    /** The last dequeue found a task with a successor that was not linked to it yet. */
    ghost predicate HalfLinked()
      reads pool
    {
      Q.HalfLinked(pool.queue)
    }

    constructor ()
      ensures Valid() && Elems() == {} && NeverPushed() && fresh(pool)
    {
      pool := new U.FuturesUnordered();
      outputs := map[];
    }

    method Len() returns (n: nat)
      requires Valid()
      ensures n == |Elems()|
    {
      n := |pool.list|;
      SizeOfValues(outputs);
    }

    method IsEmpty() returns (e: bool)
      requires Valid()
      ensures e <==> Elems() == {}
    {
      e := pool.list == {};
      SizeOfValues(outputs);
    }

    /** The future is pending any number of times before it is ready. */
    method Push(x: O)
      requires Valid() && x !in Elems()
      modifies this, pool
      ensures Valid() && Elems() == old(Elems()) + {x} && pool.polls == old(pool.polls)
    {
      var pendings: int := *;
      var t := pool.Push(ReadyAfter(if pendings < 0 then 0 else pendings, x));
      ValuesWith(outputs, t, x);
      outputs := outputs[t := x];
    }

    /** The futures still in the pool come to their outputs. */
    lemma OutputsKept(before: map<T.Tid, seq<Poll<O>>>, left: map<T.Tid, O>)
      requires AllCome(before, outputs) && U.SameOutputs(before, pool.futures, pool.list) && left.Keys == pool.list
      requires forall t :: t in left ==> t in outputs && left[t] == outputs[t]
      ensures AllCome(pool.futures, left)
    {
    }

    /** A poll of the pool, and what it means for an empty one. */
    method PollPool() returns (answer: Answer<(T.Tid, O)>)
      requires Valid()
      modifies pool
      ensures pool.Valid() && U.SameOutputs(old(pool.futures), pool.futures, pool.list)
      ensures pool.polls > old(pool.polls)
      ensures |pool.log| >= |old(pool.log)| && pool.log[..|old(pool.log)|] == old(pool.log)
      ensures U.AnsweredWith(pool.log[|old(pool.log)|..],
                             if U.HasOutput(answer) then Some(answer.value.value.1) else None)
      ensures answer.Pending? ==> pool.list == old(pool.list) && Waits(old(pool.polls))
      ensures answer == Ready(None) ==> pool.list == old(pool.list) == {}
      ensures U.HasOutput(answer) ==>
        var (t, output) := answer.value.value;
        t in outputs && outputs[t] == output && pool.list == old(pool.list) - {t}
      ensures old(pool.list) == {} ==> answer == if HalfLinked() then Pending else Ready(None)
      ensures old(pool.list) == {} && (old(NothingInFlight()) || old(NeverPushed())) ==> answer == Ready(None)
    {
      if pool.tasks == map[] { pool.NothingPushedNothingInFlight(); }
      hide U.Comes, U.AllPlay, U.Plays, U.Answered, U.AnswersOf, Injective, Q.HalfLinked, Q.FoundEmpty;
      hide T.LiveInQueue, T.SomeoneHolds, T.SomeoneWillWake, U.SameOutputs;
      hide U.FuturesUnordered.Valid, U.FuturesUnordered.View, U.FuturesUnordered.Yielded;
      ghost var before, log := pool.futures, pool.log;
      answer := pool.PollNext();
      U.HalfLinkedIsNoStub(pool.queue);
      U.CallKeepsOutputs(before, pool.log[|log|..], pool.futures, pool.list,
                         if U.HasOutput(answer) then answer.value else None);
      assert pool.owner == T.Idle(pool.owner.last);
    }

    /** The task that has finished leaves the set. */
    method Forget(ghost before: map<T.Tid, seq<Poll<O>>>, t: T.Tid)
      requires pool.Valid() && t in outputs && Injective(outputs) && pool.list == outputs.Keys - {t}
      requires AllCome(before, outputs) && U.SameOutputs(before, pool.futures, pool.list)
      modifies this
      ensures Valid() && outputs == old(outputs) - {t} && Elems() == old(Elems()) - {old(outputs)[t]}
    {
      hide AllCome, Injective, U.FuturesUnordered.Valid, U.SameOutputs;
      ValuesWithout(outputs, t);
      OutputsKept(before, outputs - {t});
      outputs := outputs - {t};
    }

    method PollNext() returns (r: Answer<O>)
      requires Valid()
      modifies this, pool
      ensures Valid()
      ensures pool.polls > old(pool.polls)
      ensures |pool.log| >= |old(pool.log)| && pool.log[..|old(pool.log)|] == old(pool.log)
      ensures U.AnsweredWith(pool.log[|old(pool.log)|..], if U.HasOutput(r) then r.value else None)
      ensures r.Pending? ==> Elems() == old(Elems()) && Waits(old(pool.polls))
      ensures r == Ready(None) ==> Elems() == old(Elems()) == {}
      ensures r.Ready? && r.value.Some? ==> r.value.value in old(Elems()) && Elems() == old(Elems()) - {r.value.value}
      ensures old(Elems()) == {} ==> r == if HalfLinked() then Pending else Ready(None)
      ensures old(Elems()) == {} && (old(NothingInFlight()) || old(NeverPushed())) ==> r == Ready(None)
    {
      SizeOfValues(outputs);
      hide AllCome, Injective, U.FuturesUnordered.Valid, U.SameOutputs, U.AnsweredWith;
      hide HalfLinked, NothingInFlight, NeverPushed, Waits;
      ghost var before := pool.futures;
      var answer := PollPool();
      if U.HasOutput(answer) {
        var (t, output) := answer.value.value;
        Forget(before, t);
        return Ready(Some(output));
      }
      OutputsKept(before, outputs);
      return if answer.Pending? then Pending else Ready(None);
    }
  }

  /** The order of `Ordered` is reversed, as the binary heap puts the greatest on top. */
  predicate Less<T>(a: Ordered<T>, b: Ordered<T>) {
    b.index < a.index
  }

  class BinaryHeap<T(==)> {
    var items: set<Ordered<T>>

    constructor ()
      ensures items == {}
    {
      items := {};
    }

    /** `peek`: the greatest item. */
    method Peek() returns (r: Option<Ordered<T>>)
      ensures r.None? <==> items == {}
      ensures r.Some? ==> r.value in items && forall x :: x in items ==> !Less(r.value, x)
    {
      if items == {} {
        return None;
      }
      var top :| top in items;
      var rest := items - {top};
      while rest != {}
        invariant top in items && rest <= items
        invariant forall x :: x in items && x !in rest ==> !Less(top, x)
        decreases rest
      {
        var x :| x in rest;
        if Less(top, x) {
          top := x;
        }
        rest := rest - {x};
      }
      return Some(top);
    }

    method Push(x: Ordered<T>)
      modifies this
      ensures items == old(items) + {x}
    {
      items := items + {x};
    }

    method Remove(x: Ordered<T>)
      modifies this
      ensures items == old(items) - {x}
    {
      items := items - {x};
    }
  }

  // ------------------------------------------------------------------- refinement

  /** The fields of the queue: futures in progress, early results, the two indices. */
  datatype State<O(==)> = State(
    inProgress: set<Ordered<Future<O>>>,
    queued: set<Ordered<O>>,
    incoming: int,
    outgoing: int)

  ghost predicate InProgressAt<O>(s: State<O>, i: int) {
    exists x :: x in s.inProgress && x.index == i
  }

  ghost predicate QueuedAt<O>(s: State<O>, i: int) {
    exists x :: x in s.queued && x.index == i
  }

  /** The state stands for the deque `d` of outputs still to be yielded, front first:
      the indices in progress and in the heap together are exactly the integers from
      `outgoing` up to `incoming`, each once, and carry the outputs in order. */
  ghost predicate Represents<O>(s: State<O>, d: seq<O>) {
    && HoldsOutputs(s, d)
    && (forall i :: s.outgoing <= i < s.incoming ==> InProgressAt(s, i) != QueuedAt(s, i))
    && OncePerIndex(s.inProgress) && OncePerIndex(s.queued)
  }

  ghost predicate HoldsOutputs<O>(s: State<O>, d: seq<O>) {
    && s.outgoing + |d| == s.incoming
    && (forall x :: x in s.inProgress ==>
          s.outgoing <= x.index < s.incoming && x.data.output == d[x.index - s.outgoing])
    && (forall x :: x in s.queued ==> s.outgoing <= x.index < s.incoming && x.data == d[x.index - s.outgoing])
  }

  ghost predicate OncePerIndex<T>(xs: set<Ordered<T>>) {
    forall x, y :: x in xs && y in xs && x.index == y.index ==> x == y
  }

  lemma OneMoreIndex<T>(xs: set<Ordered<T>>, x: Ordered<T>)
    requires OncePerIndex(xs) && forall y :: y in xs ==> y.index != x.index
    ensures OncePerIndex(xs + {x})
  {
  }

  lemma OneLessIndex<T>(xs: set<Ordered<T>>, x: Ordered<T>)
    requires OncePerIndex(xs) && x in xs
    ensures OncePerIndex(xs - {x}) && forall y :: y in xs - {x} ==> y.index != x.index
  {
  }

  ghost function PushedBack<O>(s: State<O>, f: Future<O>): State<O> {
    s.(inProgress := s.inProgress + {Ordered(f, s.incoming)}, incoming := s.incoming + 1)
  }

  ghost function PushedFront<O>(s: State<O>, f: Future<O>): State<O> {
    s.(inProgress := s.inProgress + {Ordered(f, s.outgoing - 1)}, outgoing := s.outgoing - 1)
  }

  /** The result of a completed future that is not next is kept in the heap. */
  ghost function Stored<O>(s: State<O>, x: Ordered<Future<O>>): State<O> {
    s.(inProgress := s.inProgress - {x}, queued := s.queued + {Ordered(x.data.output, x.index)})
  }

  ghost function TakenFromProgress<O>(s: State<O>, x: Ordered<Future<O>>): State<O> {
    s.(inProgress := s.inProgress - {x}, outgoing := s.outgoing + 1)
  }

  ghost function TakenFromHeap<O>(s: State<O>, x: Ordered<O>): State<O> {
    s.(queued := s.queued - {x}, outgoing := s.outgoing + 1)
  }

  /** A step that moves the future or output with index `k` only, keeps the others. */
  lemma Elsewhere<O>(s: State<O>, s': State<O>, k: int)
    requires forall x :: x in s.inProgress && x.index != k ==> x in s'.inProgress
    requires forall x :: x in s'.inProgress && x.index != k ==> x in s.inProgress
    requires forall x :: x in s.queued && x.index != k ==> x in s'.queued
    requires forall x :: x in s'.queued && x.index != k ==> x in s.queued
    ensures forall i :: i != k ==>
      (InProgressAt(s', i) <==> InProgressAt(s, i)) && (QueuedAt(s', i) <==> QueuedAt(s, i))
  {
  }

  lemma PushBackRefines<O>(s: State<O>, d: seq<O>, f: Future<O>)
    requires Represents(s, d)
    ensures Ordered(f, s.incoming) !in s.inProgress
    ensures Represents(PushedBack(s, f), d + [f.output])
  {
    var s' := PushedBack(s, f);
    OneMoreIndex(s.inProgress, Ordered(f, s.incoming));
    hide OncePerIndex;
    assert Ordered(f, s.incoming) in s'.inProgress;
    Elsewhere(s, s', s.incoming);
  }

  lemma PushFrontRefines<O>(s: State<O>, d: seq<O>, f: Future<O>)
    requires Represents(s, d)
    ensures Ordered(f, s.outgoing - 1) !in s.inProgress
    ensures Represents(PushedFront(s, f), [f.output] + d)
  {
    var s' := PushedFront(s, f);
    OneMoreIndex(s.inProgress, Ordered(f, s.outgoing - 1));
    hide OncePerIndex;
    assert Ordered(f, s.outgoing - 1) in s'.inProgress;
    Elsewhere(s, s', s.outgoing - 1);
  }

  lemma StoreRefines<O>(s: State<O>, d: seq<O>, x: Ordered<Future<O>>)
    requires Represents(s, d) && x in s.inProgress
    ensures Represents(Stored(s, x), d)
  {
    var s' := Stored(s, x);
    assert Ordered(x.data.output, x.index) in s'.queued;
    assert InProgressAt(s, x.index) && !QueuedAt(s, x.index);
    OneLessIndex(s.inProgress, x);
    OneMoreIndex(s.queued, Ordered(x.data.output, x.index));
    hide OncePerIndex;
    Elsewhere(s, s', x.index);
  }

  lemma StoredElsewhere<O>(s: State<O>, x: Ordered<Future<O>>, i: int)
    requires x.index != i && !QueuedAt(s, i)
    ensures !QueuedAt(Stored(s, x), i)
  {
  }

  lemma TakeFromProgressRefines<O>(s: State<O>, d: seq<O>, x: Ordered<Future<O>>)
    requires Represents(s, d) && x in s.inProgress && x.index == s.outgoing
    ensures |d| > 0 && x.data.output == d[0] && Represents(TakenFromProgress(s, x), d[1..])
  {
    var s' := TakenFromProgress(s, x);
    OneLessIndex(s.inProgress, x);
    hide OncePerIndex;
    assert InProgressAt(s, x.index);
    Elsewhere(s, s', x.index);
  }

  lemma TakeFromHeapRefines<O>(s: State<O>, d: seq<O>, x: Ordered<O>)
    requires Represents(s, d) && x in s.queued && x.index == s.outgoing
    ensures |d| > 0 && x.data == d[0] && Represents(TakenFromHeap(s, x), d[1..])
  {
    var s' := TakenFromHeap(s, x);
    OneLessIndex(s.queued, x);
    hide OncePerIndex;
    assert QueuedAt(s, x.index);
    Elsewhere(s, s', x.index);
  }

  /** The top of the heap is the next output if the heap holds that output at all. */
  lemma TopDecides<O>(s: State<O>, d: seq<O>, top: Ordered<O>)
    requires Represents(s, d) && top in s.queued && forall x :: x in s.queued ==> !Less(top, x)
    ensures top.index == s.outgoing <==> QueuedAt(s, s.outgoing)
  {
  }

  /** With nothing in progress and the next output not in the heap, nothing is left. */
  lemma NothingLeft<O>(s: State<O>, d: seq<O>)
    requires Represents(s, d) && s.inProgress == {} && !QueuedAt(s, s.outgoing)
    ensures d == [] && s.queued == {}
  {
    assert s.outgoing < s.incoming ==> InProgressAt(s, s.outgoing) != QueuedAt(s, s.outgoing);
  }

  lemma EmptyDeque<O>(s: State<O>)
    requires Represents(s, [])
    ensures s.inProgress == {} && s.queued == {}
  {
  }

  ghost function Indices<T>(xs: set<Ordered<T>>): set<int> {
    set x | x in xs :: x.index
  }

  lemma IndicesSize<T>(xs: set<Ordered<T>>)
    requires OncePerIndex(xs)
    ensures |Indices(xs)| == |xs|
  {
    if xs != {} {
      var x :| x in xs;
      IndicesSize(xs - {x});
      assert Indices(xs) == Indices(xs - {x}) + {x.index};
    }
  }

  function Range(lo: int, n: nat): (r: set<int>)
    ensures |r| == n
    ensures forall i :: i in r <==> lo <= i < lo + n
  {
    if n == 0 then {} else Range(lo, n - 1) + {lo + n - 1}
  }

  /** `len` is the length of the deque. */
  lemma LenIsDequeLength<O>(s: State<O>, d: seq<O>)
    requires Represents(s, d)
    ensures |s.inProgress| + |s.queued| == |d|
  {
    hide Indices;
    IndicesSize(s.inProgress);
    IndicesSize(s.queued);
    IndicesPartition(s, d);
  }

  /** The indices in progress and in the heap split the range of the deque. */
  lemma IndicesPartition<O>(s: State<O>, d: seq<O>)
    requires Represents(s, d)
    ensures Indices(s.inProgress) + Indices(s.queued) == Range(s.outgoing, |d|)
    ensures Indices(s.inProgress) !! Indices(s.queued)
  {
    hide Represents;
    var range := Range(s.outgoing, |d|);
    forall i ensures i in Indices(s.inProgress) + Indices(s.queued) <==> i in range {
      IndexOf(s, d, i);
    }
    forall i | i in Indices(s.inProgress) ensures i !in Indices(s.queued) {
      IndexOf(s, d, i);
    }
  }

  lemma IndexOf<O>(s: State<O>, d: seq<O>, i: int)
    requires Represents(s, d)
    ensures i in Indices(s.inProgress) <==> InProgressAt(s, i)
    ensures i in Indices(s.queued) <==> QueuedAt(s, i)
    ensures InProgressAt(s, i) || QueuedAt(s, i) <==> s.outgoing <= i < s.outgoing + |d|
    ensures !(InProgressAt(s, i) && QueuedAt(s, i))
  {
  }

  // -------------------------------------------------------------------- the queue

  class FuturesOrdered<O(==)> {
    const inProgress: InProgress<Ordered<Future<O>>>
    const queued: BinaryHeap<O>
    var nextIncoming: int
    var nextOutgoing: int
    ghost var deque: seq<O>

    ghost const Repr: set<object> := {this, inProgress, inProgress.pool, queued}

    ghost function View(): State<O>
      reads this, inProgress, queued
    {
      State(inProgress.Elems(), queued.items, nextIncoming, nextOutgoing)
    }

    ghost predicate Valid()
      reads this, inProgress, inProgress.pool, queued
    {
      inProgress.Valid() && Represents(View(), deque)
    }

    constructor ()
      ensures Valid() && deque == [] && inProgress.NeverPushed() && fresh(Repr)
    {
      inProgress := new InProgress();
      queued := new BinaryHeap();
      nextIncoming, nextOutgoing, deque := 0, 0, [];
    }

    method Len() returns (n: nat)
      requires Valid()
      ensures n == |deque|
    {
      LenIsDequeLength(View(), deque);
      var m := inProgress.Len();
      n := m + |queued.items|;
    }

    method IsEmpty() returns (e: bool)
      requires Valid()
      ensures e <==> deque == []
    {
      LenIsDequeLength(View(), deque);
      e := inProgress.IsEmpty();
      e := e && queued.items == {};
    }

    method PushBack(future: Future<O>)
      requires Valid()
      modifies Repr
      ensures Valid() && deque == old(deque) + [future.output]
      ensures inProgress.pool.polls == old(inProgress.pool.polls)
    {
      hide Represents, InProgress.Valid, InProgress.Elems;
      PushBackRefines(View(), deque, future);
      var wrapped := Ordered(future, nextIncoming);
      nextIncoming := nextIncoming + 1;
      inProgress.Push(wrapped);
      deque := deque + [future.output];
    }

    method PushFront(future: Future<O>)
      requires Valid()
      modifies Repr
      ensures Valid() && deque == [future.output] + old(deque)
      ensures inProgress.pool.polls == old(inProgress.pool.polls)
    {
      hide Represents, InProgress.Valid, InProgress.Elems;
      PushFrontRefines(View(), deque, future);
      var wrapped := Ordered(future, nextOutgoing - 1);
      nextOutgoing := nextOutgoing - 1;
      inProgress.Push(wrapped);
      deque := [future.output] + deque;
    }

    /** The next output, if it is in the heap already. */
    method TakeQueued() returns (next: Option<O>)
      requires Valid()
      modifies this`nextOutgoing, this`deque, queued
      ensures Valid()
      ensures next.None? ==>
        && deque == old(deque) && nextOutgoing == old(nextOutgoing) && View() == old(View())
        && !QueuedAt(View(), nextOutgoing)
      ensures next.Some? ==> |old(deque)| > 0 && next.value == old(deque)[0] && deque == old(deque)[1..]
    {
      hide Represents;
      hide InProgress.Valid, InProgress.Elems;
      var top := queued.Peek();
      if top.Some? {
        TopDecides(View(), deque, top.value);
        if top.value.index == nextOutgoing {
          TakeFromHeapRefines(View(), deque, top.value);
          nextOutgoing := nextOutgoing + 1;
          queued.Remove(top.value);
          deque := deque[1..];
          return Some(top.value.data);
        }
      }
      return None;
    }

    /** Every future that was ready since the log was `before` gave its output: it is in the
        heap, or is the next one and the answer `r`. */
    ghost predicate Kept(before: nat, next: int, r: Answer<O>)
      reads inProgress.pool, queued
    {
      forall i :: before <= i < |inProgress.pool.log| && inProgress.pool.log[i].answer.Ready? ==>
        var x := inProgress.pool.log[i].answer.value;
        || Ordered(x.data.output, x.index) in queued.items
        || (x.index == next && r == Ready(Some(x.data.output)))
    }

    /** Polls the futures in progress until the next output, and keeps those that come early. */
    method PollInProgress() returns (r: Answer<O>)
      requires Valid() && !QueuedAt(View(), nextOutgoing)
      modifies Repr
      ensures Valid()
      ensures r.Pending? ==> deque == old(deque) && inProgress.Waits(old(inProgress.pool.polls))
      ensures r.Pending? ==> !QueuedAt(View(), nextOutgoing)
      ensures Kept(|old(inProgress.pool.log)|, old(nextOutgoing), r)
      ensures r == Ready(None) ==> deque == old(deque) == []
      ensures r.Ready? && r.value.Some? ==>
        |old(deque)| > 0 && r.value.value == old(deque)[0] && deque == old(deque)[1..]
      ensures old(inProgress.Elems()) == {} ==> r == if inProgress.HalfLinked() then Pending else Ready(None)
      ensures old(inProgress.Elems()) == {} && (old(inProgress.NothingInFlight()) || old(inProgress.NeverPushed())) ==>
        r == Ready(None)
    {
      hide Represents, QueuedAt;
      hide InProgress.Valid, InProgress.Elems, InProgress.HalfLinked;
      hide InProgress.NothingInFlight, InProgress.NeverPushed;
      ghost var first := true;
      while true
        invariant Valid() && deque == old(deque) && nextOutgoing == old(nextOutgoing)
        invariant !QueuedAt(View(), nextOutgoing)
        invariant inProgress.pool.polls >= old(inProgress.pool.polls)
        invariant |inProgress.pool.log| >= |old(inProgress.pool.log)|
        invariant Kept(|old(inProgress.pool.log)|, old(nextOutgoing), Pending)
        invariant !first ==> old(inProgress.Elems()) != {}
        invariant first ==>
          && inProgress.Elems() == old(inProgress.Elems())
          && inProgress.NothingInFlight() == old(inProgress.NothingInFlight())
          && inProgress.NeverPushed() == old(inProgress.NeverPushed())
        decreases |inProgress.Elems()|
      {
        ghost var s := View();
        var answer := inProgress.PollNext();
        match answer {
          case Ready(Some(completed)) =>
            first := false;
            if completed.index == nextOutgoing {
              TakeFromProgressRefines(s, deque, completed);
              nextOutgoing := nextOutgoing + 1;
              deque := deque[1..];
              return Ready(Some(completed.data.output));
            } else {
              StoreRefines(s, deque, completed);
              StoredElsewhere(s, completed, nextOutgoing);
              queued.Push(Ordered(completed.data.output, completed.index));
            }
          case Pending => return Pending;
          case Ready(None) =>
            NothingLeft(s, deque);
            return Ready(None);
        }
      }
    }

    /** Yields the output of the front future whatever order the futures complete in.  An
        empty queue says that it has ended, unless it meets a half-linked task of the set
        below; it does not if nothing is in flight there, or nothing was ever pushed. */
    method PollNext() returns (r: Answer<O>)
      requires Valid()
      modifies Repr
      ensures Valid()
      ensures r.Pending? ==> deque == old(deque) && inProgress.Waits(old(inProgress.pool.polls))
      ensures r.Pending? ==> !QueuedAt(View(), nextOutgoing)
      ensures Kept(|old(inProgress.pool.log)|, old(nextOutgoing), r)
      ensures r == Ready(None) ==> deque == old(deque) == []
      ensures r.Ready? && r.value.Some? ==>
        |old(deque)| > 0 && r.value.value == old(deque)[0] && deque == old(deque)[1..]
      ensures QueuedAt(old(View()), old(nextOutgoing)) ==> r.Ready? && r.value.Some?
      ensures old(deque) == [] ==> r == if inProgress.HalfLinked() then Pending else Ready(None)
      ensures old(deque) == [] && (old(inProgress.NothingInFlight()) || old(inProgress.NeverPushed())) ==>
        r == Ready(None)
    {
      if deque == [] { EmptyDeque(View()); }
      hide Represents, QueuedAt;
      hide InProgress.Valid, InProgress.Elems, InProgress.HalfLinked;
      hide InProgress.NothingInFlight, InProgress.NeverPushed;
      var next := TakeQueued();
      if next.Some? {
        return Ready(next);
      }
      r := PollInProgress();
    }
  }
}
