/** The ready-to-run queue: an intrusive multi-producer single-consumer queue.

    Enqueueing a task takes three atomic steps (clear the task's own link, swap
    `head`, store the link of the previous head), and any number of producers and
    the one consumer interleave between them.  A producer is identified by the
    task it is enqueueing: nobody starts to enqueue a task that is in flight or
    already in the chain, which is what the `queued` flag guarantees one layer up
    (module TaskSet proves it). */
module ReadyQueue {
  import opened Types

  type Node = nat

  const STUB: Node := 0

  /** What the producer of an in-flight node does next. */
  datatype EnqueueStep = StoreNull | SwapHead | StoreLink(prev: Node)

  /** Where the consumer stands inside `dequeue`. */
  datatype Consumer = Idle | Skipped | CheckHead | InsertStub | Recheck

  datatype Outcome = Running | Empty | Inconsistent | Data(task: Node)

  /** `head`, `tail` and `next` are the program's fields (a key absent from `next`
      is a null link).  The rest records the run: the nodes from `tail` to `head`
      in swap order, the nodes linked since the consumer last read a link, every
      task ever swapped in, and every task handed out. */
  datatype Queue = Queue(
    head: Node,
    tail: Node,
    next: map<Node, Node>,
    inflight: map<Node, EnqueueStep>,
    consumer: Consumer,
    chain: seq<Node>,
    late: set<Node>,
    order: seq<Node>,
    out: seq<Node>)

  const NEW: Queue := Queue(STUB, STUB, map[], map[], Idle, [STUB], {}, [], [])

  // ---------------------------------------------------------------- producers

  predicate CanBegin(q: Queue, t: Node) {
    t !in q.inflight && t !in q.chain
  }

  function Begin(q: Queue, t: Node): Queue {
    q.(inflight := q.inflight[t := StoreNull])
  }

  predicate CanAdvance(q: Queue, t: Node) {
    t in q.inflight
  }

  /** The next atomic step of the producer of `t`. */
  function Advance(q: Queue, t: Node): Queue
    requires CanAdvance(q, t)
  {
    match q.inflight[t]
    case StoreNull =>
      q.(next := q.next - {t}, inflight := q.inflight[t := SwapHead])
    case SwapHead =>
      q.(head := t,
         inflight := q.inflight[t := StoreLink(q.head)],
         chain := q.chain + [t],
         order := q.order + Tasks([t]))
    case StoreLink(prev) =>
      q.(next := q.next[prev := t],
         inflight := q.inflight - {t},
         late := q.late + {t})
  }

  // ----------------------------------------------------------------- consumer

  /** Moves `tail` on to its linked successor `n`. */
  function MoveTail(q: Queue, n: Node): Queue
    requires |q.chain| > 0
  {
    q.(tail := n, chain := q.chain[1..])
  }

  /** Reads the tail's link; a linked tail is handed out. */
  function ReadLink(q: Queue, whenNull: (Queue, Outcome)): (Queue, Outcome)
    requires |q.chain| > 0
  {
    if q.tail in q.next then
      (MoveTail(q, q.next[q.tail]).(consumer := Idle, out := q.out + [q.tail]), Data(q.tail))
    else
      whenNull
  }

  ghost predicate CanConsume(q: Queue) {
    |q.chain| > 0 && (q.consumer.InsertStub? ==> STUB in q.inflight)
  }

  /** One atomic step of `dequeue`, with the local work up to the next one. */
  function Consume(q: Queue): (Queue, Outcome)
    requires CanConsume(q)
  {
    var look := (q.(consumer := CheckHead, late := {}), Running);
    match q.consumer
    case Idle =>
      if q.tail != STUB then ReadLink(q, look)
      else if STUB !in q.next then (q, Empty)
      else (MoveTail(q, q.next[STUB]).(consumer := Skipped), Running)
    case Skipped => ReadLink(q, look)
    case CheckHead =>
      if q.head != q.tail then (q.(consumer := Idle), Inconsistent)
      else (Begin(q, STUB).(consumer := InsertStub), Running)
    case InsertStub =>
      (Advance(q, STUB).(consumer := if q.inflight[STUB].StoreLink? then Recheck else InsertStub), Running)
    case Recheck => ReadLink(q, (q.(consumer := Idle, late := {}), Inconsistent))
  }

  // ---------------------------------------------------------------- invariant

  function Tasks(s: seq<Node>): seq<Node> {
    if s == [] then [] else (if s[0] == STUB then [] else [s[0]]) + Tasks(s[1..])
  }

  ghost predicate Distinct(s: seq<Node>) {
    forall i, j :: 0 <= i < j < |s| ==> s[i] != s[j]
  }

  /** The link from the i-th node of the chain to the next one is still to be
      stored, by the producer of the later node. */
  ghost predicate AboutToLink(q: Queue, i: int)
    requires 0 <= i < |q.chain| - 1
  {
    q.chain[i] !in q.next && q.chain[i + 1] in q.inflight && q.inflight[q.chain[i + 1]] == StoreLink(q.chain[i])
  }

  /** The link is stored and its producer is done, or it is about to be. */
  ghost predicate LinkInv(q: Queue, i: int)
    requires 0 <= i < |q.chain| - 1
  {
    || AboutToLink(q, i)
    || (q.chain[i] in q.next && q.next[q.chain[i]] == q.chain[i + 1] && q.chain[i + 1] !in q.inflight)
  }

  ghost predicate ChainInv(q: Queue) {
    && |q.chain| > 0
    && q.chain[0] == q.tail
    && q.chain[|q.chain| - 1] == q.head
    && Distinct(q.chain)
    && q.head !in q.next
    && forall i :: 0 <= i < |q.chain| - 1 ==> LinkInv(q, i)
  }

  ghost predicate Follows(s: seq<Node>, p: Node, t: Node) {
    exists i :: 0 <= i < |s| - 1 && s[i] == p && s[i + 1] == t
  }

  ghost predicate ProducerInv(q: Queue, t: Node)
    requires t in q.inflight
  {
    match q.inflight[t]
    case StoreNull => t !in q.chain
    case SwapHead => t !in q.chain && t !in q.next
    case StoreLink(p) => Follows(q.chain, p, t)
  }

  /** If the tail has a successor, its link store had not happened when the
      consumer read the tail's link: it is still to come, or came later. */
  ghost predicate SuccessorIsLate(q: Queue) {
    |q.chain| >= 2 ==> AboutToLink(q, 0) || q.chain[1] in q.late
  }

  /** What the consumer knows between two of its steps. */
  ghost predicate ConsumerInv(q: Queue) {
    && (q.consumer.InsertStub? <==> STUB in q.inflight)
    && (!q.consumer.Idle? ==> q.tail != STUB)
    && (q.consumer.CheckHead? ==> SuccessorIsLate(q))
    && (q.consumer.Recheck? ==> |q.chain| >= 2)
  }

  ghost predicate Inv(q: Queue) {
    && ChainInv(q)
    && (forall t :: t in q.inflight ==> ProducerInv(q, t))
    && ConsumerInv(q)
    && q.out + Tasks(q.chain) == q.order
  }

  lemma TasksAppend(a: seq<Node>, b: seq<Node>)
    ensures Tasks(a + b) == Tasks(a) + Tasks(b)
  {
    if a == [] {
      assert a + b == b;
    } else {
      assert (a + b)[1..] == a[1..] + b;
      TasksAppend(a[1..], b);
    }
  }

  lemma TasksMembers(s: seq<Node>, t: Node)
    requires t != STUB
    ensures t in Tasks(s) <==> t in s
  {
    if s != [] {
      assert s == [s[0]] + s[1..];
      TasksMembers(s[1..], t);
    }
  }

  lemma Cancel<T>(a: seq<T>, b: seq<T>, c: seq<T>)
    requires a + b == a + c
    ensures b == c
  {
    assert b == (a + b)[|a|..] && c == (a + c)[|a|..];
  }

  lemma NewInv()
    ensures Inv(NEW)
  {
    assert Tasks([STUB]) == [];
  }

  lemma BeginKeepsChain(q: Queue, t: Node)
    requires ChainInv(q) && (forall u :: u in q.inflight ==> ProducerInv(q, u)) && CanBegin(q, t)
    ensures ChainInv(Begin(q, t)) && (forall u :: u in Begin(q, t).inflight ==> ProducerInv(Begin(q, t), u))
  {
    var q' := Begin(q, t);
    forall i | 0 <= i < |q.chain| - 1 ensures LinkInv(q', i) {
      assert LinkInv(q, i);
    }
    forall u | u in q'.inflight ensures ProducerInv(q', u) {
      assert u != t ==> ProducerInv(q, u);
    }
  }

  /** `Advance` with the consumer moved on when the node is the stub. */
  function AdvanceTo(q: Queue, t: Node): Queue
    requires CanAdvance(q, t)
  {
    Advance(q, t).(consumer := if t == STUB && q.inflight[t].StoreLink? then Recheck else q.consumer)
  }

  lemma StoreNullKeepsInv(q: Queue, t: Node)
    requires Inv(q) && CanAdvance(q, t) && q.inflight[t].StoreNull?
    ensures Inv(AdvanceTo(q, t))
  {
    var q' := AdvanceTo(q, t);
    assert ProducerInv(q, t);
    forall i | 0 <= i < |q.chain| - 1 ensures LinkInv(q', i) {
      assert LinkInv(q, i);
    }
    forall u | u in q'.inflight ensures ProducerInv(q', u) {
      assert ProducerInv(q, u);
    }
    if |q.chain| >= 2 { assert LinkInv(q, 0); }
  }

  lemma SwapHeadKeepsInv(q: Queue, t: Node)
    requires Inv(q) && CanAdvance(q, t) && q.inflight[t].SwapHead?
    ensures Inv(AdvanceTo(q, t))
  {
    var q' := AdvanceTo(q, t);
    assert ProducerInv(q, t);
    var last := |q.chain| - 1;
    forall i | 0 <= i < |q'.chain| - 1 ensures LinkInv(q', i) {
      if i < last { assert LinkInv(q, i); }
    }
    assert q'.chain[last] == q.head && q'.chain[last + 1] == t;
    forall u | u in q'.inflight ensures ProducerInv(q', u) {
      assert ProducerInv(q, u);
      if u != t && q.inflight[u].StoreLink? {
        var i :| 0 <= i < |q.chain| - 1 && q.chain[i] == q.inflight[u].prev && q.chain[i + 1] == u;
        assert q'.chain[i] == q.inflight[u].prev && q'.chain[i + 1] == u;
      }
    }
    TasksAppend(q.chain, [t]);
    if |q.chain| >= 2 { assert LinkInv(q, 0); }
  }

  lemma StoreLinkKeepsInv(q: Queue, t: Node)
    requires Inv(q) && CanAdvance(q, t) && q.inflight[t].StoreLink?
    ensures Inv(AdvanceTo(q, t))
  {
    var q' := AdvanceTo(q, t);
    assert ProducerInv(q, t);
    var k :| 0 <= k < |q.chain| - 1 && q.chain[k] == q.inflight[t].prev && q.chain[k + 1] == t;
    forall i | 0 <= i < |q.chain| - 1 ensures LinkInv(q', i) {
      assert LinkInv(q, i);
    }
    forall u | u in q'.inflight ensures ProducerInv(q', u) {
      assert ProducerInv(q, u);
    }
    assert LinkInv(q, 0) && LinkInv(q, k);
  }

  lemma AdvanceKeepsInv(q: Queue, t: Node)
    requires Inv(q) && CanAdvance(q, t)
    ensures Inv(AdvanceTo(q, t))
  {
    match q.inflight[t]
    case StoreNull => StoreNullKeepsInv(q, t);
    case SwapHead => SwapHeadKeepsInv(q, t);
    case StoreLink(_) => StoreLinkKeepsInv(q, t);
  }

  /** A linked tail can be taken off the chain; nobody is about to store into it. */
  lemma MoveTailKeepsChain(q: Queue)
    requires ChainInv(q) && (forall t :: t in q.inflight ==> ProducerInv(q, t)) && q.tail in q.next
    ensures var q' := MoveTail(q, q.next[q.tail]);
            && ChainInv(q')
            && (forall t :: t in q'.inflight ==> ProducerInv(q', t))
            && Tasks(q.chain) == Tasks([q.tail]) + Tasks(q'.chain)
            && q.tail !in q'.chain
            && (forall t :: t in q'.inflight ==> q'.inflight[t] != StoreLink(q.tail) && t != q.tail)
  {
    assert |q.chain| >= 2;
    assert LinkInv(q, 0);
    var q' := MoveTail(q, q.next[q.tail]);
    forall i | 0 <= i < |q'.chain| - 1 ensures LinkInv(q', i) {
      assert LinkInv(q, i + 1);
    }
    forall t | t in q'.inflight ensures ProducerInv(q', t) && q'.inflight[t] != StoreLink(q.tail) && t != q.tail {
      assert ProducerInv(q, t);
      if q.inflight[t].StoreLink? {
        var i :| 0 <= i < |q.chain| - 1 && q.chain[i] == q.inflight[t].prev && q.chain[i + 1] == t;
        assert LinkInv(q, i);
        assert q'.chain[i - 1] == q.inflight[t].prev && q'.chain[i] == t;
      }
    }
  }

  lemma ReadLinkKeepsInv(q: Queue)
    requires Inv(q) && q.tail in q.next && q.tail != STUB && !q.consumer.InsertStub?
    ensures Inv(MoveTail(q, q.next[q.tail]).(consumer := Idle, out := q.out + [q.tail]))
  {
    MoveTailKeepsChain(q);
    var m := MoveTail(q, q.next[q.tail]);
    var q' := m.(consumer := Idle, out := q.out + [q.tail]);
    assert Tasks([q.tail]) == [q.tail];
    assert ChainInv(q') by {
      forall i | 0 <= i < |q'.chain| - 1 ensures LinkInv(q', i) { assert LinkInv(m, i); }
    }
    forall t | t in q'.inflight ensures ProducerInv(q', t) { assert ProducerInv(m, t); }
  }

  /** Moving the consumer's program counter alone keeps the chain and its producers. */
  lemma SameChainKeepsInv(q: Queue, q': Queue)
    requires ChainInv(q) && (forall t :: t in q.inflight ==> ProducerInv(q, t)) && ConsumerInv(q')
    requires q' == q.(consumer := q'.consumer, late := q'.late, out := q'.out)
    requires q'.out + Tasks(q.chain) == q.order
    ensures Inv(q')
  {
    forall i | 0 <= i < |q.chain| - 1 ensures LinkInv(q', i) { assert LinkInv(q, i); }
    forall t | t in q'.inflight ensures ProducerInv(q', t) { assert ProducerInv(q, t); }
  }

  lemma IdleKeepsInv(q: Queue)
    requires Inv(q) && CanConsume(q) && q.consumer.Idle?
    ensures Inv(Consume(q).0)
  {
    if |q.chain| >= 2 { assert LinkInv(q, 0); }
    if q.tail != STUB {
      if q.tail in q.next { ReadLinkKeepsInv(q); } else { SameChainKeepsInv(q, Consume(q).0); }
    } else if STUB in q.next {
      MoveTailKeepsChain(q);
      SameChainKeepsInv(MoveTail(q, q.next[STUB]), Consume(q).0);
    }
  }

  lemma BusyKeepsInv(q: Queue)
    requires Inv(q) && CanConsume(q) && !q.consumer.Idle?
    ensures Inv(Consume(q).0)
  {
    var q' := Consume(q).0;
    if |q.chain| >= 2 { assert LinkInv(q, 0); }
    match q.consumer
    case InsertStub => AdvanceKeepsInv(q, STUB);
    case CheckHead =>
      if q.head == q.tail {
        assert |q.chain| == 1;
        BeginKeepsChain(q, STUB);
        SameChainKeepsInv(Begin(q, STUB), q');
      } else {
        SameChainKeepsInv(q, q');
      }
    case _ =>
      if q.tail in q.next { ReadLinkKeepsInv(q); } else { SameChainKeepsInv(q, q'); }
  }

  lemma ConsumeKeepsInv(q: Queue)
    requires Inv(q)
    ensures CanConsume(q) && Inv(Consume(q).0)
    ensures Consume(q).0.order == q.order
  {
    assert Tasks([STUB]) == [];
    if q.consumer.Idle? { IdleKeepsInv(q); } else { BusyKeepsInv(q); }
  }

  // -------------------------------------------------- meaning of the outcomes

  /** Every link store still to come targets a node of the chain, so never one
      that has been handed out. */
  lemma PendingStoresStayInChain(q: Queue, t: Node)
    requires Inv(q) && t in q.inflight && q.inflight[t].StoreLink?
    ensures q.inflight[t].prev in q.chain && t in q.chain
    ensures q.inflight[t].prev !in q.next
    ensures forall u :: u in q.inflight && q.inflight[u] == q.inflight[t] ==> u == t
  {
    assert ProducerInv(q, t);
    var k :| 0 <= k < |q.chain| - 1 && q.chain[k] == q.inflight[t].prev && q.chain[k + 1] == t;
    assert LinkInv(q, k);
    forall u | u in q.inflight && q.inflight[u] == q.inflight[t] ensures u == t {
      assert ProducerInv(q, u);
      var i :| 0 <= i < |q.chain| - 1 && q.chain[i] == q.inflight[u].prev && q.chain[i + 1] == u;
    }
  }

  /** `Empty` is answered exactly when the chain is the stub alone or the stub's
      successor has a producer between its swap and its store. */
  lemma EmptyMeaning(q: Queue)
    requires Inv(q) && q.consumer.Idle?
    ensures Consume(q).1.Empty? <==> q.chain == [STUB] || (q.tail == STUB && |q.chain| >= 2 && AboutToLink(q, 0))
  {
    if |q.chain| >= 2 { assert LinkInv(q, 0); }
  }

  /** `Inconsistent` is answered only if the tail has a successor whose link store
      had not happened when the consumer last read the tail's link. */
  lemma InconsistentMeaning(q: Queue)
    requires Inv(q) && Consume(q).1.Inconsistent?
    ensures |q.chain| >= 2 && SuccessorIsLate(q)
    ensures q.consumer.Recheck? ==> AboutToLink(q, 0)
  {
    if |q.chain| >= 2 { assert LinkInv(q, 0); }
  }

  /** The tail is a task whose successor had not been linked to it when the consumer last
      read the tail's link. */
  ghost predicate HalfLinked(q: Queue) {
    q.tail != STUB && |q.chain| >= 2 && SuccessorIsLate(q)
  }

  /** The chain is the stub alone, or the stub's successor is still to be linked to it. */
  ghost predicate FoundEmpty(q: Queue) {
    q.tail == STUB && (q.chain == [STUB] || (|q.chain| >= 2 && AboutToLink(q, 0)))
  }

  /** What the queue looks like right after a dequeue that hands out nothing. */
  lemma NothingHandedOut(q: Queue)
    requires Inv(q) && CanConsume(q)
    ensures Consume(q).1.Inconsistent? ==> HalfLinked(Consume(q).0)
    ensures Consume(q).1.Empty? ==> Consume(q).0 == q && FoundEmpty(q)
  {
    if Consume(q).1.Empty? { EmptyMeaning(q); }
    if Consume(q).1.Inconsistent? {
      InconsistentMeaning(q);
      assert q.consumer.Recheck? ==> AboutToLink(Consume(q).0, 0);
    }
  }

  /** A task handed out is the next one in swap order; nothing refers to it any more. */
  lemma DataMeaning(q: Queue)
    requires Inv(q) && Consume(q).1.Data?
    ensures var (q', o) := Consume(q);
            && o.task == q.tail != STUB
            && |q.out| < |q.order| && q.order[|q.out|] == o.task
            && q'.out == q.out + [o.task] && q'.order == q.order
            && CanBegin(q', o.task)
  {
    MoveTailKeepsChain(q);
    assert Tasks([q.tail]) == [q.tail];
    var (q', o) := Consume(q);
    ConsumeKeepsInv(q);
    assert q'.out + Tasks(q'.chain) == q.order;
  }

  /** `Empty` leaves the queue as it is, and a task behind the stub is in flight. */
  lemma EmptyAnswer(q: Queue)
    requires Inv(q) && CanConsume(q) && Consume(q).1.Empty?
    ensures Consume(q).0 == q
    ensures q.chain == [STUB] || (|q.chain| >= 2 && q.chain[1] in q.inflight && q.chain[1] != STUB)
  {
    EmptyMeaning(q);
  }

  /** A producer's step never moves a node out of, or into, the queue as a whole. */
  lemma AdvanceKeepsMembers(q: Queue, t: Node)
    requires Inv(q) && CanAdvance(q, t)
    ensures var q' := Advance(q, t);
            && (forall u :: u in q'.chain || u in q'.inflight <==> u in q.chain || u in q.inflight)
            && (forall u :: u != t ==> (u in q'.inflight <==> u in q.inflight))
            && (t !in q'.inflight ==> t in q'.chain)
  {
    var q' := Advance(q, t);
    if q.inflight[t].StoreLink? { PendingStoresStayInChain(q, t); }
    if q.inflight[t].SwapHead? {
      forall u ensures u in q'.chain <==> u in q.chain || u == t {}
    }
  }

  /** The consumer moves no task but the one it hands out. */
  lemma ConsumeKeepsMembers(q: Queue)
    requires Inv(q) && CanConsume(q)
    ensures var (q', o) := Consume(q);
            && (forall u :: u != STUB ==> (u in q'.inflight <==> u in q.inflight))
            && (forall u :: u != STUB && o != Data(u) ==> (u in q'.chain <==> u in q.chain))
            && (o.Data? ==> o.task in q.chain && o.task != STUB && CanBegin(q', o.task))
            && (o.Running? <== !q'.consumer.Idle?)
            && (o.Running? ==> !q'.consumer.Idle?)
  {
    var (q', o) := Consume(q);
    if o.Data? { DataMeaning(q); }
    if q.tail in q.next { assert q.chain == [q.tail] + q.chain[1..]; }
    if q.consumer.InsertStub? { AdvanceKeepsMembers(q, STUB); }
  }

  // --------------------------------------------------------------------- runs

  datatype Event = Begins(task: Node) | Steps(task: Node) | Consumes

  ghost predicate Enabled(q: Queue, e: Event) {
    match e
    case Begins(t) => t != STUB && CanBegin(q, t)
    case Steps(t) => t != STUB && CanAdvance(q, t)
    case Consumes => CanConsume(q)
  }

  function Apply(q: Queue, e: Event): Queue
    requires Enabled(q, e)
  {
    match e
    case Begins(t) => Begin(q, t)
    case Steps(t) => Advance(q, t)
    case Consumes => Consume(q).0
  }

  ghost predicate IsRun(run: seq<Queue>, events: seq<Event>) {
    && |run| == |events| + 1
    && run[0] == NEW
    && forall i :: 0 <= i < |events| ==> Enabled(run[i], events[i]) && run[i + 1] == Apply(run[i], events[i])
  }

  lemma ApplyKeepsInv(q: Queue, e: Event)
    requires Inv(q) && Enabled(q, e)
    ensures Inv(Apply(q, e))
  {
    match e
    case Begins(t) =>
      BeginKeepsChain(q, t);
      if |q.chain| >= 2 { assert LinkInv(q, 0); }
    case Steps(t) => AdvanceKeepsInv(q, t);
    case Consumes => ConsumeKeepsInv(q);
  }

  /** In every state of every interleaving: the chain from `tail` to `head` has no
      duplicates (so the stub is in it at most once) and every two neighbours are
      linked or have one producer about to link them; and what was handed out,
      followed by the tasks still in the chain, is the swap order. */
  lemma {:induction false} EveryRunIsFifo(run: seq<Queue>, events: seq<Event>, n: nat)
    requires IsRun(run, events) && n < |run|
    ensures Inv(run[n])
    ensures run[n].out + Tasks(run[n].chain) == run[n].order
    ensures Distinct(run[n].chain)
  {
    if n == 0 {
      NewInv();
    } else {
      EveryRunIsFifo(run, events, n - 1);
      ApplyKeepsInv(run[n - 1], events[n - 1]);
    }
  }

  // -------------------------------------------------- dequeue without producers

  function Rank(q: Queue): nat {
    match q.consumer
    case Idle => 6
    case Skipped => 5
    case CheckHead => 4
    case InsertStub =>
      if STUB !in q.inflight then 0 else
      (match q.inflight[STUB] case StoreNull => 3 case SwapHead => 2 case StoreLink(_) => 1)
    case Recheck => 0
  }

  lemma ConsumeLowersRank(q: Queue)
    requires Inv(q)
    ensures CanConsume(q) && (Consume(q).1.Running? ==> Rank(Consume(q).0) < Rank(q))
  {
    ConsumeKeepsInv(q);
  }

  lemma AdvanceKeepsRank(q: Queue, t: Node)
    requires Inv(q) && CanAdvance(q, t) && t != STUB
    ensures Rank(Advance(q, t)) == Rank(q)
  {
  }

  /** `dequeue` run to its end with no other thread taking a step. */
  function Dequeue(q: Queue): (r: (Queue, Outcome))
    requires Inv(q)
    ensures Inv(r.0) && r.0.consumer.Idle? && !r.1.Running?
    ensures r.0.order == q.order
    ensures r.0.out == if r.1.Data? then q.out + [r.1.task] else q.out
    decreases Rank(q)
  {
    ConsumeKeepsInv(q);
    var (q', o) := Consume(q);
    if o.Running? then Dequeue(q') else (q', o)
  }

  ghost predicate Quiet(q: Queue) {
    Inv(q) && q.consumer.Idle? && q.inflight == map[]
  }

  /** With no producer active the tail task is handed out, re-inserting the stub
      behind it when it is the last node. */
  lemma QuietTailComesOut(q: Queue)
    requires Inv(q) && q.inflight == map[] && q.tail != STUB && (q.consumer.Idle? || q.consumer.Skipped?)
    ensures Dequeue(q).1 == Data(q.tail) && Quiet(Dequeue(q).0)
  {
    if |q.chain| >= 2 {
      assert LinkInv(q, 0);
    } else {
      ConsumeKeepsInv(q);
      var q1 := Consume(q).0;
      ConsumeKeepsInv(q1);
      var q2 := Consume(q1).0;
      ConsumeKeepsInv(q2);
      var q3 := Consume(q2).0;
      ConsumeKeepsInv(q3);
      var q4 := Consume(q3).0;
      ConsumeKeepsInv(q4);
      var q5 := Consume(q4).0;
      assert q5.consumer.Recheck? && q5.tail == q.tail && q5.next[q.tail] == STUB;
      assert Dequeue(q2) == Dequeue(q3) == Dequeue(q4) == Dequeue(q5);
    }
  }

  /** With no producer active, `dequeue` never answers `Inconsistent`: it hands out
      the first task of the chain, and answers `Empty` when there is none. */
  lemma QuietDequeue(q: Queue)
    requires Quiet(q)
    ensures var (q', o) := Dequeue(q);
            && Quiet(q')
            && !o.Inconsistent?
            && (o.Empty? <==> Tasks(q.chain) == [])
            && (o.Data? ==> Tasks(q.chain) == [o.task] + Tasks(q'.chain))
            && (o.Empty? ==> Tasks(q'.chain) == [])
  {
    hide *;
    History(q);
    var (q', o) := Dequeue(q);
    QuietKeeps(q);
    History(q');
    if o.Data? {
      assert q.out + Tasks(q.chain) == q.out + ([o.task] + Tasks(q'.chain));
      Cancel(q.out, Tasks(q.chain), [o.task] + Tasks(q'.chain));
    } else {
      StubIsNoTask();
      Cancel(q.out, Tasks(q.chain), Tasks(q'.chain));
    }
  }

  lemma StubIsNoTask()
    ensures Tasks([STUB]) == []
  {
  }

  lemma History(q: Queue)
    requires Quiet(q)
    ensures Inv(q) && q.out + Tasks(q.chain) == q.order
  {
  }

  lemma QuietKeeps(q: Queue)
    requires Quiet(q)
    ensures var (q', o) := Dequeue(q); Quiet(q') && (o.Data? || (o.Empty? && q.chain == [STUB]))
  {
    if q.tail != STUB {
      QuietTailComesOut(q);
    } else if |q.chain| >= 2 {
      assert LinkInv(q, 0);
      ConsumeKeepsInv(q);
      QuietTailComesOut(Consume(q).0);
    }
  }

  /** Nobody but the consumer, with its stub, is about to link a node. */
  ghost predicate NoProducer(q: Queue) {
    && (forall t :: t in q.inflight ==> t == STUB)
    && (q.consumer.CheckHead? ==> q.late == {})
  }

  /** While the consumer alone takes steps, no step answers `Inconsistent`. */
  lemma NoProducerNoInconsistent(q: Queue)
    requires Inv(q) && NoProducer(q)
    ensures CanConsume(q) && NoProducer(Consume(q).0) && !Consume(q).1.Inconsistent?
  {
    ConsumeKeepsInv(q);
    if |q.chain| >= 2 { assert LinkInv(q, 0); }
  }

  /** The tasks found by repeated quiet dequeues, up to the first other answer. */
  function Drain(q: Queue): (r: (seq<Node>, Outcome))
    requires Quiet(q)
    decreases |Tasks(q.chain)|
  {
    QuietDequeue(q);
    var (q', o) := Dequeue(q);
    if o.Data? then var (rest, last) := Drain(q'); ([o.task] + rest, last) else ([], o)
  }

  /** Teardown: every remaining task comes out exactly once, in order, and then the
      queue is `Empty`; the abort on `Inconsistent` is not reached. */
  lemma {:induction false} DrainsCompletely(q: Queue)
    requires Quiet(q)
    ensures Drain(q) == (Tasks(q.chain), Empty)
    decreases |Tasks(q.chain)|
  {
    QuietDequeue(q);
    var (q', o) := Dequeue(q);
    if o.Data? {
      DrainsCompletely(q');
    }
  }

  // ------------------------------------------------------- the queue in place

  datatype Dequeued = DeqData(task: Node) | DeqEmpty | DeqInconsistent

  function AsDequeued(o: Outcome): Dequeued
    requires !o.Running?
  {
    match o case Data(t) => DeqData(t) case Empty => DeqEmpty case Inconsistent => DeqInconsistent
  }

  /** What the other threads may do to the queue while the thread that owns the
      in-flight node `me` stands still; the consumer owns the stub. */
  ghost predicate Rely(a: Queue, b: Queue, me: Node) {
    && (me in a.inflight <==> me in b.inflight)
    && (me in a.inflight ==> a.inflight[me] == b.inflight[me])
    && a.order <= b.order
    && a.out <= b.out
    && (me == STUB ==> a.out == b.out && a.tail == b.tail && a.consumer == b.consumer && a.chain <= b.chain)
  }

  lemma ConsumerLeavesOthers(q: Queue, me: Node)
    requires CanConsume(q) && me != STUB
    ensures var q' := Consume(q).0;
            && (me in q.inflight <==> me in q'.inflight)
            && (me in q.inflight ==> q.inflight[me] == q'.inflight[me])
            && q.out <= q'.out
  {
  }

  lemma OthersObeyRely(q: Queue, e: Event, me: Node)
    requires Inv(q) && Enabled(q, e)
    requires if me == STUB then !e.Consumes? else (e.Consumes? || e.task != me)
    ensures Rely(q, Apply(q, e), me) && Inv(Apply(q, e))
  {
    hide Inv;
    ApplyKeepsInv(q, e);
    if e.Consumes? {
      ConsumeKeepsInv(q);
      ConsumerLeavesOthers(q, me);
    }
  }

  lemma RelyComposes(a: Queue, b: Queue, c: Queue, me: Node)
    requires Rely(a, b, me) && Rely(b, c, me)
    ensures Rely(a, c, me)
  {
  }

  lemma ConsumerFacts(q: Queue)
    requires Inv(q)
    ensures !q.consumer.Idle? ==> q.tail != STUB
  {
  }

  lemma EmptyDequeue(q: Queue)
    requires Inv(q) && q.consumer.Idle? && q.tail == STUB && STUB !in q.next
    ensures Dequeue(q) == (q, Empty)
    ensures q.chain == [STUB] || (|q.chain| >= 2 && AboutToLink(q, 0))
  {
    EmptyMeaning(q);
  }

  /** The queue as the program keeps it, with the source's own control flow.  Between
      any two shared accesses the other threads interfere. */
  class ReadyToRunQueue {
    var head: Node
    var tail: Node
    var next: map<Node, Node>
    ghost var inflight: map<Node, EnqueueStep>
    ghost var consumer: Consumer
    ghost var chain: seq<Node>
    ghost var late: set<Node>
    ghost var order: seq<Node>
    ghost var out: seq<Node>

    ghost function View(): Queue
      reads this
    {
      Queue(head, tail, next, inflight, consumer, chain, late, order, out)
    }

    constructor ()
      ensures View() == NEW && Quiet(View())
    {
      head, tail, next, inflight := STUB, STUB, map[], map[];
      consumer, chain, late, order, out := Idle, [STUB], {}, [], [];
      new;
      NewInv();
    }

    /** Stands for any number of steps of the other threads (see OthersObeyRely and
        RelyComposes): a caller knows nothing more about the new state. */
    method Interfere(me: Node, shared: bool)
      requires Inv(View())
      modifies this
      ensures Inv(View()) && Rely(old(View()), View(), me)
      ensures !shared ==> View() == old(View())
    {
    }

    method LoadNext(n: Node) returns (r: Option<Node>)
      ensures r == if n in next then Some(next[n]) else None
    {
      r := if n in next then Some(next[n]) else None;
    }

    // The three atomic steps of `enqueue`.

    method ClearLink(task: Node)
      requires Inv(View()) && task in inflight && inflight[task].StoreNull?
      modifies this
      ensures Inv(View()) && View() == AdvanceTo(old(View()), task)
      ensures task == STUB && old(consumer).InsertStub? ==> Dequeue(View()) == Dequeue(old(View()))
    {
      AdvanceKeepsInv(View(), task);
      next := next - {task};
      inflight := inflight[task := EnqueueStep.SwapHead];
    }

    method SwapHead(task: Node) returns (prev: Node)
      requires Inv(View()) && task in inflight && inflight[task].SwapHead?
      modifies this
      ensures Inv(View()) && View() == AdvanceTo(old(View()), task) && inflight[task] == EnqueueStep.StoreLink(prev)
      ensures task == STUB && old(consumer).InsertStub? ==> Dequeue(View()) == Dequeue(old(View()))
      ensures task != STUB ==> order == old(order) + [task]
    {
      AdvanceKeepsInv(View(), task);
      prev := head;
      head := task;
      inflight := inflight[task := EnqueueStep.StoreLink(prev)];
      chain, order := chain + [task], order + Tasks([task]);
      assert task != STUB ==> Tasks([task]) == [task];
    }

    method StoreLink(prev: Node, task: Node)
      requires Inv(View()) && task in inflight && inflight[task] == EnqueueStep.StoreLink(prev)
      modifies this
      ensures Inv(View()) && View() == AdvanceTo(old(View()), task)
      ensures task == STUB && old(consumer).InsertStub? ==> Dequeue(View()) == Dequeue(old(View()))
    {
      AdvanceKeepsInv(View(), task);
      next := next[prev := task];
      inflight, late := inflight - {task}, late + {task};
      consumer := if task == STUB then Recheck else consumer;
    }

    /** `enqueue` of a node whose `queued` flag its producer has just won. */
    method Enqueue(task: Node, shared: bool)
      requires Inv(View())
      requires task in inflight && inflight[task].StoreNull?
      requires task == STUB ==> consumer.InsertStub?
      modifies this
      ensures Inv(View()) && task !in inflight
      ensures old(order) <= order && old(out) <= out
      ensures task != STUB ==> task in order[|old(order)|..]
      ensures task == STUB ==> consumer.Recheck? && out == old(out) && tail == old(tail)
      ensures !shared && task == STUB ==> Dequeue(View()) == Dequeue(old(View()))
    {
      hide Inv, Dequeue;
      ghost var start := order;
      Interfere(task, shared);
      ClearLink(task);
      Interfere(task, shared);
      ghost var before := order;
      var prev := SwapHead(task);
      assert task != STUB ==> order == before + [task] && task == order[|before|];
      ghost var swapped := order;
      Interfere(task, shared);
      assert task != STUB ==> order[|before|] == task;
      StoreLink(prev, task);
    }

    // The consumer's reads and private updates.

    method SkipStub(n: Node)
      requires Inv(View()) && consumer.Idle? && tail == STUB && STUB in next && next[STUB] == n
      modifies this`tail, this`chain, this`consumer
      ensures Inv(View()) && consumer.Skipped? && tail == n
      ensures Dequeue(View()) == Dequeue(old(View()))
    {
      ConsumeKeepsInv(View());
      tail, chain, consumer := n, chain[1..], Skipped;
    }

    method TakeTail(n: Node) returns (t: Node)
      requires Inv(View()) && (consumer.Idle? || consumer.Skipped? || consumer.Recheck?)
      requires tail != STUB && tail in next && next[tail] == n
      modifies this`tail, this`chain, this`consumer, this`out
      ensures Inv(View()) && consumer.Idle?
      ensures t == old(tail) && out == old(out) + [t] && order[|old(out)|] == t && CanBegin(View(), t)
      ensures (View(), Data(t)) == Dequeue(old(View()))
    {
      ConsumeKeepsInv(View());
      DataMeaning(View());
      t := tail;
      tail, chain, out, consumer := n, chain[1..], out + [t], Idle;
    }

    ghost method SeeNull()
      requires Inv(View()) && (consumer.Idle? || consumer.Skipped?) && tail != STUB && tail !in next
      modifies this`consumer, this`late
      ensures Inv(View()) && consumer.CheckHead?
      ensures Dequeue(View()) == Dequeue(old(View()))
    {
      ConsumeKeepsInv(View());
      consumer, late := CheckHead, {};
    }

    method CheckTailIsHead() returns (last: bool)
      requires Inv(View()) && consumer.CheckHead?
      modifies this`consumer, this`inflight
      ensures Inv(View()) && last == (head == tail)
      ensures last ==>
        && consumer.InsertStub? && STUB in inflight && inflight[STUB].StoreNull?
        && Dequeue(View()) == Dequeue(old(View()))
      ensures !last ==>
        && consumer.Idle? && |chain| >= 2 && SuccessorIsLate(View())
        && (View(), Inconsistent) == Dequeue(old(View()))
    {
      ConsumeKeepsInv(View());
      last := head == tail;
      if last {
        inflight, consumer := inflight[STUB := StoreNull], InsertStub;
      } else {
        InconsistentMeaning(View());
        consumer := Idle;
      }
    }

    ghost method GiveUp()
      requires Inv(View()) && consumer.Recheck? && tail !in next
      modifies this`consumer, this`late
      ensures Inv(View()) && consumer.Idle? && |chain| >= 2 && SuccessorIsLate(View())
      ensures (View(), Inconsistent) == Dequeue(old(View()))
    {
      ConsumeKeepsInv(View());
      InconsistentMeaning(View());
      consumer, late := Idle, {};
    }

    /** The rest of `dequeue`, once the tail's link has been read as null: if the
        tail is the head, the stub goes in behind it. */
    method DequeueLastNode(shared: bool) returns (r: Dequeued)
      requires Inv(View()) && consumer.CheckHead?
      modifies this
      ensures Inv(View()) && consumer.Idle? && old(order) <= order
      ensures r.DeqData? ==>
        && r.task != STUB && out == old(out) + [r.task]
        && |old(out)| < |order| && order[|old(out)|] == r.task && CanBegin(View(), r.task)
      ensures r.DeqInconsistent? ==> out == old(out) && |chain| >= 2 && SuccessorIsLate(View())
      ensures !r.DeqEmpty?
      ensures !shared ==> (View(), r) == (Dequeue(old(View())).0, AsDequeued(Dequeue(old(View())).1))
    {
      hide Inv, Dequeue, AboutToLink, SuccessorIsLate, CanBegin, Consume;
      Interfere(STUB, shared);
      var last := CheckTailIsHead();
      if !last {
        return DeqInconsistent;
      }
      Enqueue(STUB, shared);
      Interfere(STUB, shared);
      ConsumerFacts(View());
      var n := LoadNext(tail);
      if n.Some? {
        var t := TakeTail(n.value);
        return DeqData(t);
      }
      GiveUp();
      return DeqInconsistent;
    }

    /** `dequeue`. */
    method TryDequeue(shared: bool) returns (r: Dequeued)
      requires Inv(View()) && consumer.Idle?
      modifies this
      ensures Inv(View()) && consumer.Idle? && old(order) <= order
      ensures r.DeqData? ==>
        && r.task != STUB && out == old(out) + [r.task]
        && |old(out)| < |order| && order[|old(out)|] == r.task && CanBegin(View(), r.task)
      ensures !r.DeqData? ==> out == old(out)
      ensures r.DeqEmpty? ==> chain == [STUB] || (tail == STUB && |chain| >= 2 && AboutToLink(View(), 0))
      ensures r.DeqInconsistent? ==> |chain| >= 2 && SuccessorIsLate(View())
      ensures !shared ==> (View(), r) == (Dequeue(old(View())).0, AsDequeued(Dequeue(old(View())).1))
    {
      hide Inv, Dequeue, AboutToLink, SuccessorIsLate, CanBegin, Consume;
      Interfere(STUB, shared);
      var t := tail;
      var n := LoadNext(t);
      if t == STUB {
        if n.None? {
          EmptyDequeue(View());
          return DeqEmpty;
        }
        t := n.value;
        SkipStub(t);
        Interfere(STUB, shared);
        ConsumerFacts(View());
        n := LoadNext(t);
      }
      if n.Some? {
        t := TakeTail(n.value);
        return DeqData(t);
      }
      SeeNull();
      r := DequeueLastNode(shared);
    }

    /** `Drop`: with the last reference gone no producer is active. */
    method Drop() returns (freed: seq<Node>)
      requires Quiet(View())
      modifies this
      ensures freed == Tasks(old(chain))
      ensures Quiet(View()) && Tasks(chain) == []
    {
      hide Inv, Dequeue, Consume, Tasks, AboutToLink, SuccessorIsLate, CanBegin;
      freed := [];
      while true
        invariant Quiet(View())
        invariant freed + Tasks(chain) == Tasks(old(chain))
        decreases |Tasks(chain)|
      {
        QuietDequeue(View());
        var d := TryDequeue(false);
        match d
        case DeqEmpty => return;
        case DeqInconsistent => assert false;
        case DeqData(t) =>
          assert freed + ([t] + Tasks(chain)) == freed + [t] + Tasks(chain);
          freed := freed + [t];
      }
    }
  }
}
