/** `FlattenUnordered::poll_next` and the items that pass through it: every inner stream
    and every immediately returned item comes out whole and in its own order. */
module Flatten {
  import opened Types
  import opened Source
  import opened Maps
  import P = PollState
  import Q = ReadyQueue
  import T = TaskSet
  import U = FuturesUnordered

  // ---------------------------------------------------------------- inner streams

  /** The items of a script up to its end. */
  function ItemsAhead<I>(script: seq<Answer<I>>): seq<I> {
    if script == [] then [] else
    match script[0]
    case Pending => ItemsAhead(script[1..])
    case Ready(None) => []
    case Ready(Some(x)) => [x] + ItemsAhead(script[1..])
  }

  /** What polling a `PollStreamFut` gives: the item and a future for the rest of the
      stream; a stream that has ended is dropped. */
  datatype FutAnswer<I> = FutPending(stream: seq<Answer<I>>) | FutItem(item: I, rest: seq<Answer<I>>) | FutEnd

  function PollStreamFut<I>(stream: seq<Answer<I>>): (a: FutAnswer<I>)
    ensures match a
            case FutPending(stream') =>
              && (stream == [] || stream[0].Pending?)
              && ItemsAhead(stream') == ItemsAhead(stream)
            case FutItem(item, rest) =>
              && stream != [] && stream[0] == Ready(Some(item)) && rest == stream[1..]
              && ItemsAhead(stream) == [item] + ItemsAhead(rest)
            case FutEnd => stream != [] && stream[0] == Ready(None) && ItemsAhead(stream) == []
  {
    var (rest: seq<Answer<I>>, a: Answer<I>) := Next(stream);
    match a
    case Pending => FutPending(rest)
    case Ready(Some(x)) => FutItem(x, rest)
    case Ready(None) => FutEnd
  }

  /** A `PollStreamFut` as the script of its polls. */
  datatype FutOutput<I> = Item(item: I, rest: seq<Answer<I>>) | End

  function AsFuture<I>(stream: seq<Answer<I>>): seq<Poll<FutOutput<I>>> {
    if stream == [] then [] else
    match stream[0]
    case Pending => [Pending] + AsFuture(stream[1..])
    case Ready(Some(x)) => [Ready(Item(x, stream[1..]))]
    case Ready(None) => [Ready(End)]
  }

  /** The first answer of that script is the one `PollStreamFut` gives, and what is left of
      it after a `Pending` is the script of the stream it leaves. */
  lemma AsFutureIsFaithful<I>(stream: seq<Answer<I>>)
    ensures var script := AsFuture(stream);
            match PollStreamFut(stream)
            case FutPending(stream') => AsFuture(stream') == if script == [] then [] else script[1..]
            case FutItem(x, rest) => script == [Ready(Item(x, rest))]
            case FutEnd => script == [Ready(End)]
  {
  }

  /** The items of the stream that a future polls. */
  function FutureItems<I>(script: seq<Poll<FutOutput<I>>>): seq<I> {
    var output: Option<FutOutput<I>> := U.Comes(script);
    if output.Some? && output.value.Item? then [output.value.item] + ItemsAhead(output.value.rest) else []
  }

  lemma AsFutureKeepsItems<I>(stream: seq<Answer<I>>)
    ensures FutureItems(AsFuture(stream)) == ItemsAhead(stream)
  {
    if stream != [] && stream[0].Pending? {
      AsFutureKeepsItems(stream[1..]);
    }
  }

  datatype BucketAnswer<I> =
    | BucketPending
    | BucketEmpty
    | BucketEnd(id: nat)
    | BucketItem(id: nat, item: I, rest: seq<Answer<I>>)

  ghost predicate ItemsMatch<I>(futures: map<T.Tid, seq<Poll<FutOutput<I>>>>, ids: map<T.Tid, nat>,
                                ahead: map<nat, seq<I>>) {
    forall t :: t in ids ==> t in futures && ids[t] in ahead && FutureItems(futures[t]) == ahead[ids[t]]
  }

  lemma PushMatches<I>(futures: map<T.Tid, seq<Poll<FutOutput<I>>>>, ids: map<T.Tid, nat>, ahead: map<nat, seq<I>>,
                       t: T.Tid, script: seq<Poll<FutOutput<I>>>, id: nat)
    requires ItemsMatch(futures, ids, ahead) && t !in ids && id !in ahead
    ensures ItemsMatch(futures[t := script], ids[t := id], ahead[id := FutureItems(script)])
  {
  }

  /** The set of `PollStreamFut`s.  Each task polls one of the inner streams, by the
      number of the stream; `ahead` are the items that each stream still has. */
  class Bucket<I> {
    const pool: U.FuturesUnordered<FutOutput<I>>
    var ids: map<T.Tid, nat>
    ghost var ahead: map<nat, seq<I>>

    ghost predicate Valid()
      reads this, pool
    {
      && pool.Valid() && ids.Keys == pool.list
      && Injective(ids) && ids.Values == ahead.Keys
      && ItemsMatch(pool.futures, ids, ahead)
    }

    constructor ()
      ensures Valid() && ahead == map[] && fresh(pool)
    {
      pool := new U.FuturesUnordered();
      ids, ahead := map[], map[];
    }

    function Len(): nat
      reads pool
    {
      |pool.list|
    }

    lemma LenIsSize()
      requires Valid()
      ensures Len() == |ahead| && (Len() == 0 <==> ahead == map[])
    {
      SizeOfValues(ids);
      assert ahead.Keys == {} <==> ahead == map[];
    }

    method Push(id: nat, stream: seq<Answer<I>>)
      requires Valid() && id !in ahead
      modifies this, pool
      ensures Valid() && ahead == old(ahead)[id := ItemsAhead(stream)] && pool.polls == old(pool.polls)
    {
      AsFutureKeepsItems(stream);
      ghost var before := pool.futures;
      var t := pool.Push(AsFuture(stream));
      ValuesWith(ids, t, id);
      PushMatches(before, ids, ahead, t, AsFuture(stream), id);
      ids := ids[t := id];
      ahead := ahead[id := ItemsAhead(stream)];
    }

    /** A poll of the pool, without what it promises about wake-ups. */
    method PollPool() returns (answer: Answer<(T.Tid, FutOutput<I>)>)
      requires pool.Valid()
      modifies pool
      ensures pool.Valid() && U.SameOutputs(old(pool.futures), pool.futures, pool.list)
      ensures pool.polls == old(pool.polls) + 1
      ensures |pool.log| >= |old(pool.log)| && pool.log[..|old(pool.log)|] == old(pool.log)
      ensures U.Answered(pool.log[|old(pool.log)|..], if U.HasOutput(answer) then answer.value else None)
      ensures !U.HasOutput(answer) ==>
        && pool.list == old(pool.list)
        && pool.owner == T.Idle(if answer.Pending? then T.Pending else T.Ended)
        && (answer.Ready? ==> pool.list == {})
      ensures U.HasOutput(answer) ==>
        var (t, output) := answer.value.value;
        && t in old(pool.list) && pool.list == old(pool.list) - {t}
        && t in old(pool.futures) && U.Comes(old(pool.futures)[t]) == Some(output)
    {
      hide U.Comes, U.AllPlay, U.Plays, U.Answered, U.AnswersOf, Q.HalfLinked, Q.FoundEmpty, U.SameOutputs;
      hide T.LiveInQueue, T.SomeoneHolds, T.SomeoneWillWake, U.FuturesUnordered.View, U.FuturesUnordered.Yielded;
      ghost var before, log := pool.futures, pool.log;
      answer := pool.PollNext();
      U.CallKeepsOutputs(before, pool.log[|log|..], pool.futures, pool.list,
                         if U.HasOutput(answer) then answer.value else None);
      assert pool.owner == T.Idle(pool.owner.last);
    }

    /** The bucket has been polled since, and was pending or empty. */
    ghost predicate Waits(before: nat)
      reads pool
    {
      pool.polls > before && (pool.owner == T.Idle(T.Pending) || pool.owner == T.Idle(T.Ended))
    }

    method PollNext() returns (r: BucketAnswer<I>)
      requires Valid()
      modifies this, pool
      ensures Valid()
      ensures r.BucketPending? ==> ahead == old(ahead)
      ensures r.BucketEmpty? ==> ahead == old(ahead) == map[]
      ensures r.BucketPending? || r.BucketEmpty? ==> Waits(old(pool.polls))
      ensures r.BucketEnd? || r.BucketItem? ==>
        && r.id in old(ahead) && ahead == old(ahead) - {r.id}
        && old(ahead)[r.id] == if r.BucketEnd? then [] else [r.item] + ItemsAhead(r.rest)
      // no future was ready but the one whose output is answered
      ensures pool.polls == old(pool.polls) + 1
      ensures |pool.log| >= |old(pool.log)| && pool.log[..|old(pool.log)|] == old(pool.log)
      ensures U.AnsweredWith(pool.log[|old(pool.log)|..],
                             match r
                             case BucketItem(_, x, rest) => Some(Item(x, rest))
                             case BucketEnd(_) => Some(End)
                             case _ => None)
    {
      LenIsSize();
      ghost var before := pool.futures;
      hide U.Comes, U.AnsweredWith, U.SameOutputs, Injective, ItemsMatch, ItemsAhead;
      hide U.FuturesUnordered.Valid;
      var answer := PollPool();
      if U.HasOutput(answer) {
        var (t, output) := answer.value.value;
        var id := Forget(before, t);
        return match output case Item(x, rest) => BucketItem(id, x, rest) case End => BucketEnd(id);
      }
      StillMatches(before);
      return if answer.Pending? then BucketPending else BucketEmpty;
    }

    /** The task that has finished leaves the bucket. */
    method Forget(ghost before: map<T.Tid, seq<Poll<FutOutput<I>>>>, t: T.Tid) returns (id: nat)
      requires pool.Valid() && t in ids && ids.Keys - {t} == pool.list && Injective(ids) && ids.Values == ahead.Keys
      requires ItemsMatch(before, ids, ahead) && U.SameOutputs(before, pool.futures, pool.list)
      modifies this
      ensures Valid() && t in before
      ensures id in old(ahead) && old(ahead)[id] == FutureItems(before[t]) && ahead == old(ahead) - {id}
    {
      hide Injective, ItemsMatch, FutureItems, U.FuturesUnordered.Valid, U.SameOutputs;
      id := ids[t];
      TakenMatches(before, t);
      ValuesWithout(ids, t);
      ids, ahead := ids - {t}, ahead - {id};
    }

    lemma StillMatches(before: map<T.Tid, seq<Poll<FutOutput<I>>>>)
      requires ItemsMatch(before, ids, ahead) && U.SameOutputs(before, pool.futures, pool.list) && pool.list == ids.Keys
      ensures ItemsMatch(pool.futures, ids, ahead)
    {
      assert forall t :: t in ids ==> FutureItems(pool.futures[t]) == FutureItems(before[t]);
    }

    lemma TakenMatches(before: map<T.Tid, seq<Poll<FutOutput<I>>>>, t: T.Tid)
      requires ItemsMatch(before, ids, ahead) && Injective(ids) && t in ids
      requires U.SameOutputs(before, pool.futures, pool.list) && pool.list == ids.Keys - {t}
      ensures t in before && ids[t] in ahead && ahead[ids[t]] == FutureItems(before[t])
      ensures ItemsMatch(pool.futures, ids - {t}, ahead - {ids[t]})
    {
      assert forall u :: u in ids && u != t ==> FutureItems(pool.futures[u]) == FutureItems(before[u]);
    }
  }

  // ----------------------------------------------------------------- flow control

  /** `FlowStep`: an inner stream for the bucket, or an item to be returned at once. */
  datatype FlowStep<I> = Continue(stream: seq<Answer<I>>) | Return(item: I)

  /** An item that came out, with the inner stream it came from, or none. */
  datatype Out<I> = Out(from: Option<nat>, item: I)

  /** The items that came out of one origin, in order. */
  function From<I>(out: seq<Out<I>>, from: Option<nat>): seq<I> {
    if out == [] then []
    else From(out[..|out| - 1], from) + if out[|out| - 1].from == from then [out[|out| - 1].item] else []
  }

  function Streams<I>(steps: seq<FlowStep<I>>): seq<seq<Answer<I>>> {
    if steps == [] then []
    else
      var last := steps[|steps| - 1];
      Streams(steps[..|steps| - 1]) + if last.Continue? then [last.stream] else []
  }

  function Returns<I>(steps: seq<FlowStep<I>>): seq<I> {
    if steps == [] then []
    else
      var last := steps[|steps| - 1];
      Returns(steps[..|steps| - 1]) + if last.Return? then [last.item] else []
  }

  lemma Append<I>(steps: seq<FlowStep<I>>, s: FlowStep<I>)
    ensures Streams(steps + [s]) == Streams(steps) + if s.Continue? then [s.stream] else []
    ensures Returns(steps + [s]) == Returns(steps) + if s.Return? then [s.item] else []
  {
    assert (steps + [s])[..|steps|] == steps;
  }

  lemma AppendOut<I>(out: seq<Out<I>>, o: Out<I>)
    ensures forall k :: From(out + [o], k) == From(out, k) + if o.from == k then [o.item] else []
  {
    assert (out + [o])[..|out|] == out;
  }

  /** Conservation.  `steps` are the flow steps of the base items so far, `out` what came
      out, `bucket` the inner streams at hand, by their place among all inner streams:
      what came out of a stream and what it still has is the whole stream, and every
      item to be returned at once has been returned. */
  ghost predicate Conserved<I>(steps: seq<FlowStep<I>>, out: seq<Out<I>>, bucket: map<nat, seq<I>>) {
    && From(out, None) == Returns(steps)
    && forall k: nat :: StreamConserved(Streams(steps), out, bucket, k)
  }

  ghost predicate StreamConserved<I>(streams: seq<seq<Answer<I>>>, out: seq<Out<I>>, bucket: map<nat, seq<I>>, k: nat) {
    if k < |streams| then
      ItemsAhead(streams[k]) == From(out, Some(k)) + if k in bucket then bucket[k] else []
    else
      From(out, Some(k)) == [] && k !in bucket
  }

  lemma NothingIsConserved<I>()
    ensures Conserved<I>([], [], map[])
  {
  }

  lemma PushConserves<I>(steps: seq<FlowStep<I>>, out: seq<Out<I>>, bucket: map<nat, seq<I>>, s: FlowStep<I>)
    requires Conserved(steps, out, bucket) && s.Continue?
    ensures |Streams(steps)| !in bucket
    ensures Conserved(steps + [s], out, bucket[|Streams(steps)| := ItemsAhead(s.stream)])
  {
    hide ItemsAhead, From, Streams, Returns;
    Append(steps, s);
    var bucket' := bucket[|Streams(steps)| := ItemsAhead(s.stream)];
    forall k: nat ensures StreamConserved(Streams(steps + [s]), out, bucket', k) {
      assert StreamConserved(Streams(steps), out, bucket, k);
    }
    assert StreamConserved(Streams(steps), out, bucket, |Streams(steps)|);
  }

  lemma ReturnConserves<I>(steps: seq<FlowStep<I>>, out: seq<Out<I>>, bucket: map<nat, seq<I>>, s: FlowStep<I>)
    requires Conserved(steps, out, bucket) && s.Return?
    ensures Conserved(steps + [s], out + [Out(None, s.item)], bucket)
  {
    hide ItemsAhead, From, Streams, Returns;
    Append(steps, s);
    AppendOut(out, Out(None, s.item));
    forall k: nat ensures StreamConserved(Streams(steps + [s]), out + [Out(None, s.item)], bucket, k) {
      assert StreamConserved(Streams(steps), out, bucket, k);
    }
  }

  lemma EndConserves<I>(steps: seq<FlowStep<I>>, out: seq<Out<I>>, a: map<nat, seq<I>>, id: nat)
    requires Conserved(steps, out, a) && id in a && a[id] == []
    ensures Conserved(steps, out, a - {id})
  {
    hide ItemsAhead, From, Streams, Returns;
    forall k: nat ensures StreamConserved(Streams(steps), out, a - {id}, k) {
      assert StreamConserved(Streams(steps), out, a, k);
    }
  }

  lemma ItemConserves<I>(steps: seq<FlowStep<I>>, out: seq<Out<I>>, a: map<nat, seq<I>>, id: nat, x: I, left: seq<I>)
    requires Conserved(steps, out, a) && id in a && a[id] == [x] + left
    ensures Conserved(steps, out + [Out(Some(id), x)], a[id := left])
  {
    hide ItemsAhead, From, Streams, Returns;
    var o := Out(Some(id), x);
    AppendOut(out, o);
    var streams, out', a' := Streams(steps), out + [o], a[id := left];
    forall k: nat ensures StreamConserved(streams, out', a', k) {
      assert StreamConserved(streams, out, a, k);
    }
  }

  lemma SameSize<I>(a: map<nat, seq<I>>, b: map<nat, seq<I>>)
    requires a.Keys == b.Keys
    ensures |a| == |b|
  {
    assert |a| == |a.Keys| && |b| == |b.Keys|;
  }

  lemma OneLess<I>(a: map<nat, seq<I>>, k: nat)
    requires k in a
    ensures |a - {k}| == |a| - 1
  {
    assert (a - {k}).Keys == a.Keys - {k} && |a| == |a.Keys| && |a - {k}| == |(a - {k}).Keys|;
  }

  // --------------------------------------------------- facts about bits and answers

  /** What the wakers do to the word while the poller polls is what `Interfere` does, for
      some need bits. */
  lemma WakersObeyInterfere(s: P.State, e: P.Event)
    requires P.Inv(s) && P.Polls(s) && P.Enabled(s, e) && (e.EWake? || e.EReadCell? || e.EEndWaking? || e.ECall?)
    ensures var word := P.Apply(s, e).word;
            && P.Polls(P.Apply(s, e)) && P.Phase(word, true, false)
            && exists bits: P.Word :: word == Woken(s.word, bits)
  {
    P.ApplyKeepsInv(s, e);
    match e
    case EWake(w, k) => assert P.Apply(s, e).word == Woken(s.word, k) by { WakeIsWoken(s.word, k); }
    case EReadCell(w) => P.SectionExcludesPolling(s, w);
    case EEndWaking(w) => P.SectionExcludesPolling(s, w);
    case ECall(w) => assert s.word == Woken(s.word, P.NONE);
  }

  /** The word with some need bits set. */
  function Woken(word: P.Word, bits: P.Word): P.Word {
    word | (bits & P.NEED_TO_POLL_ALL)
  }

  lemma WakeIsWoken(v: P.Word, k: P.Word)
    requires P.Phase(v, true, false) && P.IsKind(k)
    ensures P.StartWaking(v, k).0 == Woken(v, k)
  {
  }

  /** The need bits while the poller polls are those the wakers have set. */
  lemma WokenBits(early: P.Word, late: P.Word)
    ensures Woken(Woken(P.POLLING, early), late) & P.NEED_TO_POLL_ALL == (early | late) & P.NEED_TO_POLL_ALL
  {
  }

  /** The need bits in the end are those of the poll and those of the wakers. */
  lemma EndBits(wakes: P.Word, word: P.Word, need: P.Word, next: P.Word, atLimit: bool)
    requires word & P.NEED_TO_POLL_ALL == wakes & P.NEED_TO_POLL_ALL
    requires next & P.NEED_TO_POLL_ALL == (word & P.NEED_TO_POLL_ALL) | need
    ensures P.NeedsStream(next) <==> P.NeedsStream(wakes) || P.NeedsStream(need)
    ensures P.NeedsInner(next) <==> P.NeedsInner(wakes) || P.NeedsInner(need)
    ensures P.ForceWake(need, atLimit) || word & P.NEED_TO_POLL_ALL != P.NONE <==>
      P.NeedsInner(next) || (P.NeedsStream(next) && !atLimit) || wakes & P.NEED_TO_POLL_ALL != P.NONE
  {
  }

  lemma BitsMean(v: P.Word)
    ensures P.NeedsInner(v) <==> v & P.NEED_TO_POLL_INNER_STREAMS != P.NONE
    ensures P.NeedsStream(v) <==> v & P.NEED_TO_POLL_STREAM != P.NONE
  {
  }

  lemma NothingIsAPhase()
    ensures P.Phase(P.NONE, false, false)
  {
  }

  /** The end can only be the last of some answers, and is there just if `ended`. */
  ghost predicate EndIsLast<T>(answers: seq<Answer<T>>, ended: bool) {
    && (forall i :: 0 <= i < |answers| && answers[i] == Ready(None) ==> i == |answers| - 1)
    && (ended <==> answers != [] && answers[|answers| - 1] == Ready(None))
  }

  lemma OneMoreEnd<T>(script: seq<Answer<T>>, n: nat)
    requires n < |script| && EndIsLast(script[..n], false)
    ensures EndIsLast(script[..n + 1], script[n] == Ready(None))
  {
    assert script[..n + 1] == script[..n] + [script[n]];
  }

  lemma NothingTaken<T>(script: seq<Answer<T>>, taken: seq<T>)
    ensures script[0..] == script && taken + Values(script[..0]) == taken
    ensures EndIsLast(script[..0], false)
  {
  }

  lemma InnerBitFacts(need: P.Word)
    requires need <= P.NEED_TO_POLL_ALL
    ensures need | P.NEED_TO_POLL_INNER_STREAMS <= P.NEED_TO_POLL_ALL
    ensures P.NeedsInner(need | P.NEED_TO_POLL_INNER_STREAMS)
    ensures P.NeedsStream(need | P.NEED_TO_POLL_INNER_STREAMS) <==> P.NeedsStream(need)
  {
  }

  lemma OneMoreAnswer<T>(script: seq<Answer<T>>, n: nat)
    requires n <= |script|
    ensures n == |script| ==> script[n..] == []
    ensures n < |script| ==>
      && script[n..][0] == script[n] && script[n..][1..] == script[n + 1..]
      && Values(script[..n + 1]) == Values(script[..n])
         + if script[n].Ready? && script[n].value.Some? then [script[n].value.value] else []
  {
    if n < |script| {
      assert script[..n + 1] == script[..n] + [script[n]];
      ValuesAppend(script[..n], [script[n]]);
      assert [script[n]][1..] == [];
    }
  }

  // ------------------------------------------------------------------- the stream

  class FlattenUnordered<B, I> {
    const base: Stream<B>
    const nextStep: B -> FlowStep<I>
    const limit: Option<nat>
    const bucket: Bucket<I>
    var word: P.Word
    var isStreamDone: bool

    /** The base items so far, their flow steps, everything that came out, and the number
        of inner streams put into the bucket. */
    ghost var taken: seq<B>
    ghost var steps: seq<FlowStep<I>>
    ghost var out: seq<Out<I>>
    var pushed: nat

    ghost predicate Valid()
      reads `taken, `steps, `out, `pushed, bucket, bucket.pool
    {
      && bucket.Valid()
      && |steps| == |taken| && (forall i :: 0 <= i < |taken| ==> steps[i] == nextStep(taken[i]))
      && pushed == |Streams(steps)|
      && Conserved(steps, out, bucket.ahead)
      && (limit.Some? ==> limit.value > 0 && bucket.Len() <= limit.value)
    }

    constructor (base: Stream<B>, nextStep: B -> FlowStep<I>, limit: Option<nat>)
      ensures Valid() && this.base == base && this.nextStep == nextStep && out == [] && taken == []
      ensures this.limit == if limit == Some(0) then None else limit
      ensures fresh(bucket) && fresh(bucket.pool) && word == P.NEED_TO_POLL_STREAM && !isStreamDone
    {
      hide Conserved, Bucket.Valid;
      NothingIsConserved<I>();
      this.base, this.nextStep := base, nextStep;
      this.limit := if limit == Some(0) then None else limit;
      var b := new Bucket();
      bucket := b;
      b.LenIsSize();
      word, isStreamDone, pushed := P.NEED_TO_POLL_STREAM, false, 0;
      taken, steps, out := [], [], [];
    }

    predicate IsExceededLimit()
      reads bucket, bucket.pool
    {
      limit.Some? && bucket.Len() >= limit.value
    }

    /** The wakers, during a poll, only set need bits of the word: any of them (see
        WakersObeyInterfere). */
    method Interfere(bits: P.Word)
      requires P.Phase(word, true, false)
      modifies this`word
      ensures P.Phase(word, true, false) && word == Woken(old(word), bits)
    {
      word := word | (bits & P.NEED_TO_POLL_ALL);
    }

    ghost predicate Extends(before: seq<Out<I>>, item: Option<I>)
      reads this
    {
      match item
      case None => out == before
      case Some(x) => |out| == |before| + 1 && out[..|before|] == before && out[|before|].item == x
    }

    /** What one flow step of the base stream does. */
    method TakeStep(b: B, value: P.Word, need: P.Word) returns (value': P.Word, need': P.Word, item: Option<I>)
      requires Valid() && !IsExceededLimit() && need <= P.NEED_TO_POLL_ALL
      modifies this`taken, this`steps, this`out, this`pushed, bucket, bucket.pool
      ensures Valid() && taken == old(taken) + [b] && Extends(old(out), item)
      ensures bucket.pool.polls == old(bucket.pool.polls)
      ensures need' <= P.NEED_TO_POLL_ALL
      ensures P.NeedsInner(value) || P.NeedsInner(need) || pushed > old(pushed) ==>
        P.NeedsInner(value') || P.NeedsInner(need')
      ensures item.Some? ==> P.NeedsStream(need') && !P.NeedsInner(value') && pushed == old(pushed)
      ensures item.Some? ==> (P.NeedsInner(need') <==> P.NeedsInner(need) || P.NeedsInner(value))
      ensures item.None? ==> need' == need && P.NeedsInner(value') && pushed == old(pushed) + 1
      ensures |bucket.ahead| == |old(bucket.ahead)| + pushed - old(pushed)
      ensures nextStep(b).Return? <==> item.Some?
    {
      hide Valid;
      var step := nextStep(b);
      match step {
        case Return(x) =>
          ReturnAtOnce(b, step);
          need' := need | P.NEED_TO_POLL_STREAM | (value & P.NEED_TO_POLL_INNER_STREAMS);
          value' := value & !P.NEED_TO_POLL_INNER_STREAMS;
          item := Some(x);
        case Continue(stream) =>
          AddStream(b, step);
          value', need', item := value | P.NEED_TO_POLL_INNER_STREAMS, need, None;
      }
    }

    method ReturnAtOnce(b: B, step: FlowStep<I>)
      requires Valid() && step == nextStep(b) && step.Return?
      modifies this`taken, this`steps, this`out
      ensures Valid() && taken == old(taken) + [b] && out == old(out) + [Out(None, step.item)]
    {
      hide Conserved, Bucket.Valid, From, Streams, Returns;
      ReturnConserves(steps, out, bucket.ahead, step);
      Append(steps, step);
      out := out + [Out(None, step.item)];
      taken, steps := taken + [b], steps + [step];
    }

    method AddStream(b: B, step: FlowStep<I>)
      requires Valid() && step == nextStep(b) && step.Continue? && !IsExceededLimit()
      modifies this`taken, this`steps, this`pushed, bucket, bucket.pool
      ensures Valid() && taken == old(taken) + [b] && pushed == old(pushed) + 1
      ensures bucket.pool.polls == old(bucket.pool.polls) && |bucket.ahead| == |old(bucket.ahead)| + 1
    {
      hide Conserved, Bucket.Valid, From, Streams, Returns;
      PushConserves(steps, out, bucket.ahead, step);
      Append(steps, step);
      bucket.LenIsSize();
      bucket.Push(pushed, step.stream);
      bucket.LenIsSize();
      pushed := pushed + 1;
      taken, steps := taken + [b], steps + [step];
    }

    /** The base stream has been polled since, and was pending last. */
    ghost predicate BaseWaits(before: nat)
      reads base
    {
      base.polls > before && base.last == Pending
    }

    /** The loop over the base stream; `n` counts the answers taken from it.  Whenever the
        loop stops for another reason than a `Pending` or the end, the base stream is to be
        polled again. */
    method FillBucket(value0: P.Word) returns (value: P.Word, need: P.Word, item: Option<I>, ghost n: nat)
      requires Valid()
      modifies this`taken, this`steps, this`out, this`pushed, this`isStreamDone, base, bucket, bucket.pool
      ensures Valid() && Extends(old(out), item)
      ensures n <= |old(base.script)| && base.script == old(base.script)[n..]
      ensures taken == old(taken) + Values(old(base.script)[..n])
      ensures old(isStreamDone) ==> n == 0 && isStreamDone && base.polls == old(base.polls)
      ensures isStreamDone && !old(isStreamDone) ==> base.last == Ready(None)
      ensures EndIsLast(old(base.script)[..n], !old(isStreamDone) && isStreamDone)
      ensures BaseWaits(old(base.polls)) || isStreamDone || P.NeedsStream(need)
      ensures bucket.pool.polls == old(bucket.pool.polls)
      ensures need <= P.NEED_TO_POLL_ALL
      ensures P.NeedsInner(value0) || pushed > old(pushed) ==> P.NeedsInner(value) || P.NeedsInner(need)
      ensures item.Some? ==> !P.NeedsInner(value)
      // it polls the base stream if it may, and asks for another poll only with a reason
      ensures base.polls > old(base.polls) || old(isStreamDone) || old(IsExceededLimit())
      ensures P.NeedsStream(need) ==> item.Some? || (!isStreamDone && IsExceededLimit())
      ensures P.NeedsInner(need) ==> item.Some?
      ensures P.NeedsInner(value) ==> P.NeedsInner(value0) || pushed > old(pushed)
      ensures |bucket.ahead| == |old(bucket.ahead)| + pushed - old(pushed) && pushed >= old(pushed)
    {
      hide Valid, ItemsAhead, Values, P.NeedsInner, P.NeedsStream, EndIsLast;
      ghost var script := base.script;
      value, need, item, n := value0, P.NONE, None, 0;
      NothingTaken(script, taken);
      BitsMean(P.NONE);
      while true
        invariant Valid() && item.None? && out == old(out) && need == P.NONE
        invariant base.polls >= old(base.polls) && bucket.pool.polls == old(bucket.pool.polls)
        invariant base.polls == old(base.polls) ==>
          isStreamDone == old(isStreamDone) && IsExceededLimit() == old(IsExceededLimit())
        invariant P.NeedsInner(value) ==> P.NeedsInner(value0) || pushed > old(pushed)
        invariant |bucket.ahead| == |old(bucket.ahead)| + pushed - old(pushed) && pushed >= old(pushed)
        invariant n <= |script| && base.script == script[n..]
        invariant EndIsLast(script[..n], !old(isStreamDone) && isStreamDone)
        invariant taken == old(taken) + Values(script[..n])
        invariant old(isStreamDone) ==> n == 0 && isStreamDone && base.polls == old(base.polls)
        invariant isStreamDone && !old(isStreamDone) ==> base.last == Ready(None)
        invariant P.NeedsInner(value0) || pushed > old(pushed) ==> P.NeedsInner(value) || P.NeedsInner(need)
        decreases |base.script|, !isStreamDone
      {
        if IsExceededLimit() || isStreamDone {
          if !isStreamDone {
            need := need | P.NEED_TO_POLL_STREAM;
            BitsMean(need);
          }
          return;
        }
        OneMoreAnswer(script, n);
        if n < |script| { OneMoreEnd(script, n); }
        var a := base.PollNext();
        n := if n < |script| then n + 1 else n;
        match a {
          case Ready(Some(b)) =>
            value, need, item := TakeStep(b, value, need);
            if item.Some? {
              return;
            }
          case Ready(None) => isStreamDone := true;
          case Pending => return;
        }
      }
    }

    /** The stream of an item goes back into the bucket. */
    method PutBack(id: nat, x: I, rest: seq<Answer<I>>, ghost was: map<nat, seq<I>>)
      requires bucket.Valid() && Conserved(steps, out, was)
      requires id in was && was[id] == [x] + ItemsAhead(rest) && bucket.ahead == was - {id}
      modifies this`out, bucket, bucket.pool
      ensures bucket.Valid() && Conserved(steps, out, bucket.ahead)
      ensures out == old(out) + [Out(Some(id), x)]
      ensures bucket.ahead.Keys == was.Keys && |bucket.ahead| == |was| && bucket.Len() == |was|
      ensures bucket.pool.polls == old(bucket.pool.polls)
    {
      hide ItemsAhead, Conserved, Bucket.Valid;
      ItemConserves(steps, out, was, id, x, ItemsAhead(rest));
      bucket.Push(id, rest);
      bucket.LenIsSize();
      assert bucket.ahead == was[id := ItemsAhead(rest)];
      assert bucket.ahead.Keys == was.Keys;
      SameSize(was, bucket.ahead);
      out := out + [Out(Some(id), x)];
    }

    /** The bucket is polled once; the stream of an item goes back into the bucket. */
    method PollBucket(need0: P.Word) returns (need: P.Word, item: Option<I>)
      requires Valid() && need0 <= P.NEED_TO_POLL_ALL
      modifies this`out, bucket, bucket.pool
      ensures Valid() && Extends(old(out), item)
      ensures need <= P.NEED_TO_POLL_ALL
      ensures bucket.ahead.Keys <= old(bucket.ahead.Keys)
      ensures bucket.pool.polls == old(bucket.pool.polls) + 1
      ensures item.None? ==> |bucket.ahead| <= |old(bucket.ahead)|
      ensures item.Some? ==> |bucket.ahead| == |old(bucket.ahead)|
      ensures item.None? && |bucket.ahead| == |old(bucket.ahead)| ==>
        need == need0 && bucket.Waits(old(bucket.pool.polls))
      ensures item.Some? || |bucket.ahead| < |old(bucket.ahead)| ==> need == need0 | P.NEED_TO_POLL_INNER_STREAMS
    {
      hide ItemsAhead, From, Streams, Returns, Conserved, StreamConserved, P.NeedsInner, Bucket.Valid;
      InnerBitFacts(need0);
      bucket.LenIsSize();
      hide Bucket.Len, Bucket.Waits;
      ghost var was := bucket.ahead;
      need, item := need0, None;
      var r := bucket.PollNext();
      bucket.LenIsSize();
      match r {
        case BucketItem(id, x, rest) =>
          PutBack(id, x, rest, was);
          item := Some(x);
          need := need | P.NEED_TO_POLL_INNER_STREAMS;
        case BucketEnd(id) =>
          EndConserves(steps, out, was, id);
          OneLess(was, id);
          need := need | P.NEED_TO_POLL_INNER_STREAMS;
        case BucketPending =>
        case BucketEmpty =>
      }
    }

    /** What a poll does between `start_polling` and `stop_polling`: what the word asked
        for is done.  Afterwards the base stream is to be polled again only because of an
        item or the limit, and the bucket only because of an item or a stream that ended.
        `early` and `late` are the need bits that the wakers set meanwhile. */
    method PollStreams(value0: P.Word, early: P.Word, late: P.Word)
      returns (need: P.Word, item: Option<I>, ghost n: nat)
      requires Valid() && P.Phase(word, true, false)
      modifies this`word, this`taken, this`steps, this`out, this`pushed, this`isStreamDone, base, bucket, bucket.pool
      ensures Valid() && P.Phase(word, true, false) && need <= P.NEED_TO_POLL_ALL
      ensures word == Woken(Woken(old(word), early), late)
      ensures Extends(old(out), item)
      ensures n <= |old(base.script)| && base.script == old(base.script)[n..]
      ensures taken == old(taken) + Values(old(base.script)[..n])
      ensures old(isStreamDone) ==> n == 0 && isStreamDone && base.polls == old(base.polls)
      ensures isStreamDone && !old(isStreamDone) ==> base.last == Ready(None)
      ensures EndIsLast(old(base.script)[..n], !old(isStreamDone) && isStreamDone)
      // the base stream
      ensures !P.NeedsStream(value0) ==> base.polls == old(base.polls)
      ensures P.NeedsStream(value0) ==> base.polls > old(base.polls) || old(isStreamDone) || old(IsExceededLimit())
      ensures P.NeedsStream(value0) ==> BaseWaits(old(base.polls)) || isStreamDone || P.NeedsStream(need)
      ensures P.NeedsStream(need) ==>
        item.Some? || (!isStreamDone && ReachesLimit(|old(bucket.ahead)| + pushed - old(pushed)))
      // the bucket
      ensures pushed >= old(pushed) && |bucket.ahead| <= |old(bucket.ahead)| + pushed - old(pushed)
      ensures P.NeedsInner(value0) || pushed > old(pushed) ==>
        if bucket.pool.polls == old(bucket.pool.polls) then item.Some? && P.NeedsInner(need)
        else
          && bucket.pool.polls == old(bucket.pool.polls) + 1
          && (bucket.Waits(old(bucket.pool.polls)) || P.NeedsInner(need))
      ensures P.NeedsInner(need) ==> item.Some? || |bucket.ahead| < |old(bucket.ahead)| + pushed - old(pushed)
    {
      hide Valid, Values, P.NeedsInner, P.NeedsStream, EndIsLast, P.Phase, Bucket.Waits, BaseWaits, Bucket.Valid, Woken;
      var value := value0;
      need, item := P.NONE, None;
      n := 0;
      NothingTaken(base.script, taken);
      BitsMean(value);
      BitsMean(need);
      LimitMeans();
      if value & P.NEED_TO_POLL_STREAM != P.NONE {
        value, need, item, n := FillBucket(value);
        LimitMeans();
      }
      Interfere(early);
      BitsMean(value);
      if value & P.NEED_TO_POLL_INNER_STREAMS != P.NONE {
        InnerBitFacts(need);
        need, item := PollBucket(need);
      }
      Interfere(late);
    }

    /** That many inner streams are as many as the limit allows. */
    ghost predicate ReachesLimit(n: int) {
      limit.Some? && n >= limit.value
    }

    lemma LimitMeans()
      requires Valid()
      ensures IsExceededLimit() <==> ReachesLimit(|bucket.ahead|)
      ensures bucket.Len() == 0 <==> bucket.ahead == map[]
    {
      bucket.LenIsSize();
    }

    /** `poll_next`, from the moment a `start_polling` has succeeded.  `woken` says
        whether the caller's waker is called before a `Pending` is returned; `early` and
        `late` are the need bits that the wakers set meanwhile. */
    method PollNext(early: P.Word, late: P.Word) returns (r: Answer<I>, woken: bool, ghost n: nat)
      requires Valid() && P.StartPolling(word).Some?
      modifies this`word, this`taken, this`steps, this`out, this`pushed, this`isStreamDone, base, bucket, bucket.pool
      ensures Valid()
      ensures Extends(old(out), if r.Ready? then r.value else None)
      ensures n <= |old(base.script)| && base.script == old(base.script)[n..]
      ensures taken == old(taken) + Values(old(base.script)[..n])
      ensures old(isStreamDone) ==> n == 0 && isStreamDone && base.polls == old(base.polls)
      ensures isStreamDone && !old(isStreamDone) ==> base.last == Ready(None)
      ensures EndIsLast(old(base.script)[..n], !old(isStreamDone) && isStreamDone)
      // what the word asked for is done ...
      ensures P.NeedsStream(old(word)) ==>
        base.polls > old(base.polls) || old(isStreamDone) || ReachesLimit(|old(bucket.ahead)|)
      ensures P.NeedsStream(old(word)) ==> BaseWaits(old(base.polls)) || isStreamDone || P.NeedsStream(word)
      ensures P.NeedsInner(old(word)) || pushed > old(pushed) ==>
        if bucket.pool.polls == old(bucket.pool.polls) then U.HasOutput(r) && P.NeedsInner(word)
        else
          && bucket.pool.polls == old(bucket.pool.polls) + 1
          && (bucket.Waits(old(bucket.pool.polls)) || P.NeedsInner(word))
      // ... and asked for again only by the wakers, or with an item, the limit or a stream that ended
      ensures P.NeedsStream(early | late) ==> P.NeedsStream(word)
      ensures P.NeedsInner(early | late) ==> P.NeedsInner(word)
      ensures P.NeedsStream(word) ==>
        || P.NeedsStream(early | late) || U.HasOutput(r)
        || (!isStreamDone && ReachesLimit(|old(bucket.ahead)| + pushed - old(pushed)))
      ensures P.NeedsInner(word) ==>
        || P.NeedsInner(early | late) || U.HasOutput(r)
        || |bucket.ahead| < |old(bucket.ahead)| + pushed - old(pushed)
      // the end
      ensures r == Ready(None) <==> isStreamDone && bucket.ahead == map[] && out == old(out)
      ensures r == Ready(None) ==> AllDelivered()
      // the caller is woken exactly if the word says so, a waker came, or more is to be done now
      ensures r.Pending? ==> (woken <==> word & P.WOKEN != P.NONE)
      ensures r.Pending? ==>
        (woken <==> || (early | late) & P.NEED_TO_POLL_ALL != P.NONE
                    || P.NeedsInner(word) || (P.NeedsStream(word) && !ReachesLimit(|bucket.ahead|)))
    {
      hide Valid, Values, P.NeedsInner, P.NeedsStream, EndIsLast, P.Phase, P.StartPolling;
      hide AllDelivered, BaseWaits, Bucket.Waits, Bucket.Valid, Woken, ReachesLimit, IsExceededLimit, P.ForceWake;
      var value := word;
      word := P.POLLING;
      P.StartPollingFacts(P.NONE, false) by { NothingIsAPhase(); }
      LimitMeans();
      var need: P.Word, item: Option<I>;
      need, item, n := PollStreams(value, early, late);
      WokenBits(early, late);
      LimitMeans();
      ghost var last := word;
      woken := Leave(need);
      EndBits(early | late, last, need, word, IsExceededLimit());
      OutSays(old(out), item);
      EndMeansAllDelivered();
      var isDone := isStreamDone && bucket.Len() == 0;
      if item.Some? || isDone {
        r, woken := Ready(item), false;
      } else {
        r := Pending;
      }
    }

    /** Everything has come out: each inner stream's items, in its own order, and every item
        that was to be returned at once. */
    ghost predicate AllDelivered()
      reads this
    {
      && From(out, None) == Returns(steps)
      && forall k: nat :: k < |Streams(steps)| ==> From(out, Some(k)) == ItemsAhead(Streams(steps)[k])
    }

    lemma EndMeansAllDelivered()
      requires Valid()
      ensures bucket.Len() == 0 <==> bucket.ahead == map[]
      ensures bucket.ahead == map[] ==> AllDelivered()
    {
      hide ItemsAhead, From, Streams, Returns, Bucket.Valid;
      bucket.LenIsSize();
      if bucket.ahead == map[] {
        forall k: nat | k < |Streams(steps)| ensures From(out, Some(k)) == ItemsAhead(Streams(steps)[k]) {
          assert StreamConserved(Streams(steps), out, bucket.ahead, k);
        }
      }
    }

    lemma OutSays(before: seq<Out<I>>, item: Option<I>)
      requires Extends(before, item)
      ensures item.None? <==> out == before
    {
    }

    /** `stop_polling`, and whether the caller's waker is to be called. */
    method Leave(need: P.Word) returns (wake: bool)
      requires P.Phase(word, true, false) && need <= P.NEED_TO_POLL_ALL
      modifies this`word
      ensures P.Phase(word, false, false)
      ensures word & P.NEED_TO_POLL_ALL == (old(word) & P.NEED_TO_POLL_ALL) | need
      ensures wake <==> word & P.WOKEN != P.NONE
      ensures wake <==> P.ForceWake(need, IsExceededLimit()) || old(word) & P.NEED_TO_POLL_ALL != P.NONE
    {
      var forceWake := P.ForceWake(need, IsExceededLimit());
      P.StopPollingFacts(word, need, forceWake);
      var last := word;
      word := P.StopPolling(word, need, forceWake);
      wake := forceWake || last & P.NEED_TO_POLL_ALL != P.NONE;
    }
  }

  /** How many items came out of the first `n` inner streams, and at once. */
  function PartsLength<I>(out: seq<Out<I>>, n: nat): nat {
    if n == 0 then |From(out, None)| else PartsLength(out, n - 1) + |From(out, Some(n - 1))|
  }

  /** The output is an interleaving of its origins: every item has one of them, the parts
      are what came out of each in order, and they add up to the whole. */
  lemma OutputIsAnInterleaving<I>(steps: seq<FlowStep<I>>, out: seq<Out<I>>, bucket: map<nat, seq<I>>)
    requires Conserved(steps, out, bucket)
    ensures forall i :: 0 <= i < |out| && out[i].from.Some? ==> out[i].from.value < |Streams(steps)|
    ensures PartsLength(out, |Streams(steps)|) == |out|
  {
    hide Streams, Returns, ItemsAhead, From;
    forall i | 0 <= i < |out| && out[i].from.Some? ensures out[i].from.value < |Streams(steps)| {
      assert StreamConserved(Streams(steps), out, bucket, out[i].from.value);
      ItemIsFromItsOrigin(out, i);
    }
    PartsAddUp(out, |Streams(steps)|);
  }

  lemma {:induction false} PartsAddUp<I>(out: seq<Out<I>>, n: nat)
    requires forall i :: 0 <= i < |out| && out[i].from.Some? ==> out[i].from.value < n
    ensures PartsLength(out, n) == |out|
    decreases |out|
  {
    if out == [] {
      NoParts<I>(n);
    } else {
      var last := |out| - 1;
      PartsAddUp(out[..last], n);
      OnePartGrows(out[..last], out[last], n);
      assert out[..last] + [out[last]] == out;
    }
  }

  lemma {:induction false} NoParts<I>(n: nat)
    ensures PartsLength<I>([], n) == 0
  {
    if n > 0 {
      NoParts<I>(n - 1);
    }
  }

  lemma {:induction false} OnePartGrows<I>(out: seq<Out<I>>, o: Out<I>, n: nat)
    ensures PartsLength(out + [o], n) == PartsLength(out, n) + if o.from.None? || o.from.value < n then 1 else 0
  {
    AppendOut(out, o);
    if n > 0 {
      OnePartGrows(out, o, n - 1);
    }
  }

  lemma {:induction false} ItemIsFromItsOrigin<I>(out: seq<Out<I>>, i: nat)
    requires i < |out|
    ensures out[i].item in From(out, out[i].from)
    decreases |out|
  {
    var last := |out| - 1;
    if i < last {
      ItemIsFromItsOrigin(out[..last], i);
    }
  }

  // ------------------------------------------------------- TryFlattenUnordered

  /** `EitherStream`: an inner stream, or a `Single` that holds a result or nothing. */
  datatype Either<I, E> = Left(stream: seq<TryAnswer<I, E>>) | Right(single: Option<Result<I, E>>)

  /** `NestedTryStreamIntoEither`: an error of the base becomes a single-item stream. */
  function Nest<I, E, F>(b: Result<seq<TryAnswer<I, E>>, F>, into: F -> E): Either<I, E> {
    match b
    case Ok(stream) => Left(stream)
    case Err(e) => Right(Some(Err(into(e))))
  }

  /** `PropagateBaseStreamError::next_step`. */
  function NextStep<I, E>(item: Either<I, E>): FlowStep<Result<I, E>>
    requires item.Right? ==> item.single.Some?
  {
    match item
    case Left(stream) => Continue(stream)
    case Right(single) => Return(single.value)
  }

  /** The flow controller of `TryFlattenUnordered`: the `unwrap` on a nested item never
      fails. */
  function TryStep<I, E, F>(b: Result<seq<TryAnswer<I, E>>, F>, into: F -> E): FlowStep<Result<I, E>> {
    NextStep(Nest(b, into))
  }

  function Errors<S, E, F>(bs: seq<Result<S, F>>, into: F -> E): seq<E> {
    if bs == [] then []
    else Errors(bs[..|bs| - 1], into) + if bs[|bs| - 1].Err? then [into(bs[|bs| - 1].error)] else []
  }

  function AsErr<I, E>(es: seq<E>): seq<Result<I, E>> {
    seq(|es|, i requires 0 <= i < |es| => Err(es[i]))
  }

  /** The inner streams among the base items. */
  function OkStreams<I, E, F>(bs: seq<Result<seq<TryAnswer<I, E>>, F>>): seq<seq<TryAnswer<I, E>>> {
    if bs == [] then []
    else OkStreams(bs[..|bs| - 1]) + if bs[|bs| - 1].Ok? then [bs[|bs| - 1].value] else []
  }

  /** With that controller the streams put into the bucket are exactly the inner streams of
      the base, in order and as they are. */
  lemma {:induction false} InnerStreamsArePut<I, E, F>(bs: seq<Result<seq<TryAnswer<I, E>>, F>>, into: F -> E,
                                                       steps: seq<FlowStep<Result<I, E>>>)
    requires |steps| == |bs| && forall i :: 0 <= i < |bs| ==> steps[i] == TryStep(bs[i], into)
    ensures Streams(steps) == OkStreams(bs)
    decreases |bs|
  {
    if bs != [] {
      var last := |bs| - 1;
      InnerStreamsArePut(bs[..last], into, steps[..last]);
      assert steps[last] == TryStep(bs[last], into);
    }
  }

  /** `TryFlattenUnordered` at its end: every item of every inner stream has come out, in
      its own order, and every error of the base, converted. */
  lemma TryFlattenDelivers<I, E, F>(bs: seq<Result<seq<TryAnswer<I, E>>, F>>, into: F -> E,
                                    steps: seq<FlowStep<Result<I, E>>>, out: seq<Out<Result<I, E>>>)
    requires |steps| == |bs| && forall i :: 0 <= i < |bs| ==> steps[i] == TryStep(bs[i], into)
    requires Conserved(steps, out, map[])
    ensures forall k: nat :: k < |OkStreams(bs)| ==> From(out, Some(k)) == ItemsAhead(OkStreams(bs)[k])
    ensures From(out, None) == AsErr(Errors(bs, into))
  {
    InnerStreamsArePut(bs, into, steps);
    BaseErrorsAreReturned(bs, into, steps);
    hide Streams, Returns, OkStreams, From, ItemsAhead;
    forall k: nat | k < |OkStreams(bs)| ensures From(out, Some(k)) == ItemsAhead(OkStreams(bs)[k]) {
      assert StreamConserved(Streams(steps), out, map[], k);
    }
  }

  /** With that controller the items returned at once are exactly the errors of the base
      stream, converted, in order: no base error is lost behind the inner streams. */
  lemma {:induction false} BaseErrorsAreReturned<I, E, F>(bs: seq<Result<seq<TryAnswer<I, E>>, F>>, into: F -> E,
                                                          steps: seq<FlowStep<Result<I, E>>>)
    requires |steps| == |bs| && forall i :: 0 <= i < |bs| ==> steps[i] == TryStep(bs[i], into)
    ensures Returns(steps) == AsErr(Errors(bs, into))
    decreases |bs|
  {
    if bs != [] {
      var last := |bs| - 1;
      BaseErrorsAreReturned(bs[..last], into, steps[..last]);
      assert steps[last] == TryStep(bs[last], into);
    }
  }
}
