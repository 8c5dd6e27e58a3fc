/** Concurrent `push`: several threads link nodes at the head of the list of all tasks,
    each in four shared steps (swap the head, read the old head's length once that node
    is published, publish the own link, store the old head's back link), while others
    read the length or walk the list.  Nothing is unlinked meanwhile: that needs
    exclusive access. */
module ConcurrentLink {
  import opened Types

  type Node = nat

  /** Where the thread that links a node stands; `next` is the old head it swapped out. */
  datatype Stage = Swapped(next: Option<Node>) | Measured(next: Option<Node>) | Published(next: Option<Node>)

  /** A node absent from `nextAll` is pending.  `order` is the list from its head, in
      the order of the swaps; `base` is the length of the list when linking began. */
  datatype List = List(
    head: Option<Node>,
    nextAll: map<Node, Option<Node>>,
    prevAll: map<Node, Node>,
    lenAll: map<Node, nat>,
    linking: map<Node, Stage>,
    order: seq<Node>,
    base: nat)

  datatype Event = Swap(n: Node) | Measure(n: Node) | Publish(n: Node) | Back(n: Node)

  predicate Enabled(s: List, e: Event) {
    match e
    case Swap(n) => n !in s.order && n !in s.linking && n !in s.nextAll && n !in s.prevAll
    case Measure(n) =>
      n in s.linking && s.linking[n].Swapped? &&
      (s.linking[n].next.Some? ==> s.linking[n].next.value in s.nextAll && s.linking[n].next.value in s.lenAll)
    case Publish(n) => n in s.linking && s.linking[n].Measured?
    case Back(n) => n in s.linking && s.linking[n].Published?
  }

  function Apply(s: List, e: Event): List
    requires Enabled(s, e)
  {
    match e
    case Swap(n) =>
      s.(head := Some(n), linking := s.linking[n := Swapped(s.head)], order := [n] + s.order)
    case Measure(n) =>
      var next := s.linking[n].next;
      s.(lenAll := s.lenAll[n := if next.None? then 1 else s.lenAll[next.value] + 1],
         linking := s.linking[n := Measured(next)])
    case Publish(n) =>
      s.(nextAll := s.nextAll[n := s.linking[n].next], linking := s.linking[n := Published(s.linking[n].next)])
    case Back(n) =>
      var next := s.linking[n].next;
      s.(prevAll := if next.Some? then s.prevAll[next.value := n] else s.prevAll, linking := s.linking - {n})
  }

  // ------------------------------------------------------------------ invariant

  function At(order: seq<Node>, i: int): Option<Node> {
    if 0 <= i < |order| then Some(order[i]) else None
  }

  /** The nodes from the `i`-th one onward. */
  function Onward(s: List, i: int): int {
    |s.order| - i
  }

  ghost predicate NodeInv(s: List, i: int)
    requires 0 <= i < |s.order|
  {
    var n := s.order[i];
    && (n in s.linking ==> s.linking[n].next == At(s.order, i + 1) && Onward(s, i) > s.base)
    && (n in s.nextAll <==> n !in s.linking || s.linking[n].Published?)
    && (n in s.nextAll ==> s.nextAll[n] == At(s.order, i + 1))
    && (n in s.nextAll || s.linking[n].Measured? ==>
          n in s.lenAll && s.lenAll[n] >= Onward(s, i) && (Onward(s, i) >= s.base ==> s.lenAll[n] == Onward(s, i)))
    && (i == 0 || s.order[i - 1] in s.linking ==> n !in s.prevAll)
    && (i > 0 && s.order[i - 1] !in s.linking ==> n in s.prevAll && s.prevAll[n] == s.order[i - 1])
  }

  ghost predicate Inv(s: List) {
    && s.head == At(s.order, 0)
    && (forall i, j :: 0 <= i < j < |s.order| ==> s.order[i] != s.order[j])
    && (forall n :: n in s.linking ==> n in s.order)
    && (forall i :: 0 <= i < |s.order| ==> NodeInv(s, i))
    && s.base <= |s.order|
  }

  /** A list at rest is a well-formed doubly linked list with an exact length at its head. */
  ghost predicate AtRest(s: List) {
    && Inv(s) && s.linking == map[]
  }

  lemma SwapKeepsInv(s: List, n: Node)
    requires Inv(s) && Enabled(s, Swap(n))
    ensures Inv(Apply(s, Swap(n)))
  {
    var s' := Apply(s, Swap(n));
    forall i | 0 <= i < |s'.order| ensures NodeInv(s', i) {
      if i > 0 {
        assert s'.order[i] == s.order[i - 1];
        assert NodeInv(s, i - 1);
      }
    }
  }

  lemma MeasureKeepsInv(s: List, n: Node)
    requires Inv(s) && Enabled(s, Measure(n))
    ensures Inv(Apply(s, Measure(n)))
  {
    var s' := Apply(s, Measure(n));
    forall i | 0 <= i < |s'.order| ensures NodeInv(s', i) {
      assert NodeInv(s, i);
      if s.order[i] == n && i + 1 < |s.order| {
        assert NodeInv(s, i + 1);
      }
    }
  }

  lemma PublishKeepsInv(s: List, n: Node)
    requires Inv(s) && Enabled(s, Publish(n))
    ensures Inv(Apply(s, Publish(n)))
  {
    var s' := Apply(s, Publish(n));
    forall i | 0 <= i < |s'.order| ensures NodeInv(s', i) {
      assert NodeInv(s, i);
    }
  }

  lemma BackKeepsInv(s: List, n: Node)
    requires Inv(s) && Enabled(s, Back(n))
    ensures Inv(Apply(s, Back(n)))
  {
    var s' := Apply(s, Back(n));
    var k :| 0 <= k < |s.order| && s.order[k] == n;
    assert NodeInv(s, k);
    forall i | 0 <= i < |s'.order| ensures NodeInv(s', i) {
      assert NodeInv(s, i);
    }
  }

  lemma ApplyKeepsInv(s: List, e: Event)
    requires Inv(s) && Enabled(s, e)
    ensures Inv(Apply(s, e))
    ensures Apply(s, e).base == s.base
  {
    match e
    case Swap(n) => SwapKeepsInv(s, n);
    case Measure(n) => MeasureKeepsInv(s, n);
    case Publish(n) => PublishKeepsInv(s, n);
    case Back(n) => BackKeepsInv(s, n);
  }

  // ----------------------------------------------------------------------- runs

  /** Runs start from a list at rest whose length at the head is exact. */
  ghost predicate IsRun(run: seq<List>, events: seq<Event>) {
    && |run| == |events| + 1
    && AtRest(run[0]) && run[0].base == |run[0].order|
    && forall i :: 0 <= i < |events| ==> Enabled(run[i], events[i]) && run[i + 1] == Apply(run[i], events[i])
  }

  lemma {:induction false} EveryStateInv(run: seq<List>, events: seq<Event>, n: nat)
    requires IsRun(run, events) && n < |run|
    ensures Inv(run[n])
  {
    if n > 0 {
      EveryStateInv(run, events, n - 1);
      hide Inv, Enabled, Apply;
      ApplyKeepsInv(run[n - 1], events[n - 1]);
    }
  }

  ghost predicate EndsWith(s: seq<Node>, t: seq<Node>) {
    |t| <= |s| && s[|s| - |t|..] == t
  }

  /** The list only grows at its head. */
  lemma {:induction false} ListGrowsAtTheHead(run: seq<List>, events: seq<Event>, i: nat, j: nat)
    requires IsRun(run, events) && i <= j < |run|
    ensures EndsWith(run[j].order, run[i].order) && run[j].base == run[i].base
    decreases j - i
  {
    if i < j {
      ListGrowsAtTheHead(run, events, i, j - 1);
      var a, b := run[j - 1].order, run[j].order;
      assert b == a || b == [b[0]] + a;
      assert b[|b| - |run[i].order|..] == a[|a| - |run[i].order|..];
    }
  }

  /** A thread that loads the head, waits for that node to be published and reads its
      cached length, gets the number of tasks in the list when it loaded the head. */
  lemma LenIsTheLengthAtTheLoad(run: seq<List>, events: seq<Event>, i: nat, j: nat)
    requires IsRun(run, events) && i <= j < |run|
    requires run[i].head.Some? && run[i].head.value in run[j].nextAll
    ensures run[i].head.value in run[j].lenAll && run[j].lenAll[run[i].head.value] == |run[i].order|
  {
    EveryStateInv(run, events, i);
    EveryStateInv(run, events, j);
    ListGrowsAtTheHead(run, events, i, j);
    BaseIsKept(run, events, i);
    var at := |run[j].order| - |run[i].order|;
    assert run[j].order[at] == run[j].order[at..][0];
    assert NodeInv(run[j], at);
  }

  lemma {:induction false} BaseIsKept(run: seq<List>, events: seq<Event>, i: nat)
    requires IsRun(run, events) && i < |run|
    ensures run[i].base <= |run[i].order|
  {
    EveryStateInv(run, events, i);
  }

  /** An iterator that loaded the head in state `i` visits exactly the tasks linked then,
      in order, whatever is linked meanwhile: the link it reads from the `k`-th of them
      in any later state, once published, leads to the next of them. */
  lemma IteratorVisitsTheListAtTheLoad(run: seq<List>, events: seq<Event>, i: nat, j: nat, k: nat)
    requires IsRun(run, events) && i <= j < |run| && k < |run[i].order|
    requires run[i].order[k] in run[j].nextAll
    ensures run[j].nextAll[run[i].order[k]] == At(run[i].order, k + 1)
  {
    EveryStateInv(run, events, j);
    ListGrowsAtTheHead(run, events, i, j);
    var at := |run[j].order| - |run[i].order|;
    assert run[j].order[at..][k] == run[j].order[at + k];
    if k + 1 < |run[i].order| {
      assert run[j].order[at..][k + 1] == run[j].order[at + k + 1];
    }
    assert NodeInv(run[j], at + k);
  }

  /** The oldest of the nodes being linked is never blocked. */
  lemma OldestCanStep(s: List, i: nat)
    requires Inv(s) && i < |s.order| && s.order[i] in s.linking
    requires forall j :: i < j < |s.order| ==> s.order[j] !in s.linking
    ensures var n := s.order[i]; Enabled(s, Measure(n)) || Enabled(s, Publish(n)) || Enabled(s, Back(n))
  {
    assert NodeInv(s, i);
    if i + 1 < |s.order| {
      assert NodeInv(s, i + 1);
    }
  }

  /** No cyclic waiting on pending links: while some node is being linked, some thread
      that links a node can take its next step. */
  lemma SomeoneCanStep(s: List)
    requires Inv(s) && s.linking != map[]
    ensures exists n :: n in s.linking && (Enabled(s, Measure(n)) || Enabled(s, Publish(n)) || Enabled(s, Back(n)))
  {
    var m :| m in s.linking;
    var k :| 0 <= k < |s.order| && s.order[k] == m;
    var i := LastLinking(s, k, |s.order|);
    OldestCanStep(s, i);
  }

  lemma {:induction false} LastLinking(s: List, k: nat, hi: nat) returns (i: nat)
    requires k < hi <= |s.order| && s.order[k] in s.linking
    requires forall j :: hi <= j < |s.order| ==> s.order[j] !in s.linking
    ensures i < |s.order| && s.order[i] in s.linking
    ensures forall j :: i < j < |s.order| ==> s.order[j] !in s.linking
    decreases hi
  {
    if s.order[hi - 1] in s.linking {
      i := hi - 1;
    } else {
      i := LastLinking(s, k, hi - 1);
    }
  }

  /** Once all threads are done the list is doubly linked in swap order and the length
      at its head is exact. */
  lemma RestIsWellFormed(run: seq<List>, events: seq<Event>, n: nat, i: nat)
    requires IsRun(run, events) && n < |run| && run[n].linking == map[] && i < |run[n].order|
    ensures var s := run[n];
            && s.order[i] in s.nextAll && s.nextAll[s.order[i]] == At(s.order, i + 1)
            && (if i == 0 then s.order[0] !in s.prevAll
                else s.order[i] in s.prevAll && s.prevAll[s.order[i]] == s.order[i - 1])
            && s.order[i] in s.lenAll && s.lenAll[s.order[i]] >= |s.order| - i
            && s.order[0] in s.lenAll && s.lenAll[s.order[0]] == |s.order|
  {
    EveryStateInv(run, events, n);
    assert NodeInv(run[n], i) && NodeInv(run[n], 0);
  }
}
