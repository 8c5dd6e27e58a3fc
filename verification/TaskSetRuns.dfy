/** Runs of the set of futures that show what is not promised: an empty set that answers
    `Pending`. */
module TaskSetRuns {
  import opened TaskSet
  import opened TaskSetProofs
  import Q = ReadyQueue

  /** The tasks pushed, and those that finished, in the order in which they did. */
  datatype Log = Log(pushed: seq<Tid>, finished: seq<Tid>)

  const NOTHING: Log := Log([], [])

  ghost function Extend(h: Log, s: State, e: Event): Log {
    match e
    case EPush(_, t) => h.(pushed := h.pushed + [t])
    case EChildReady => if s.owner.Polling? then h.(finished := h.finished + [s.owner.task]) else h
    case _ => h
  }

  ghost function History(run: seq<State>, events: seq<Event>): Log
    requires |events| <= |run|
    decreases |events|
  {
    if events == [] then NOTHING
    else
      var last := |events| - 1;
      Extend(History(run[..last], events[..last]), run[last], events[last])
  }

  /** Some run ends in the state, with that history. */
  ghost predicate Reached(s: State, h: Log) {
    exists run: seq<State>, events: seq<Event> :: IsRunTo(run, events, s, h)
  }

  ghost predicate IsRunTo(run: seq<State>, events: seq<Event>, s: State, h: Log) {
    IsRun(run, events) && run[|events|] == s && History(run, events) == h
  }

  lemma HistoryGrows(run: seq<State>, events: seq<Event>, s: State, e: Event)
    requires IsRun(run, events)
    ensures History(run + [s], events + [e]) == Extend(History(run, events), run[|events|], e)
  {
    hide Extend, Enabled, Apply;
    var run', events' := run + [s], events + [e];
    assert run'[..|events|] == run[..|events|] && events'[..|events|] == events;
    SameHistory(run[..|events|], run, events);
  }

  /** The last state does not matter. */
  lemma {:induction false} SameHistory(a: seq<State>, b: seq<State>, events: seq<Event>)
    requires |events| <= |a| <= |b| && b[..|a|] == a
    ensures History(a, events) == History(b, events)
    decreases |events|
  {
    hide Extend;
    if events != [] {
      var last := |events| - 1;
      assert a[..last] == b[..last];
    }
  }

  lemma Go(s: State, h: Log, e: Event) returns (s': State)
    requires Reached(s, h) && Enabled(s, e)
    ensures s' == Apply(s, e) && Reached(s', Extend(h, s, e))
  {
    hide Enabled, Apply, Extend, History;
    var run: seq<State>, events: seq<Event> :| IsRunTo(run, events, s, h);
    s' := Apply(s, e);
    HistoryGrows(run, events, s', e);
    assert IsRunTo(run + [s'], events + [e], s', Extend(h, s, e));
  }

  lemma Start()
    ensures Reached(NEW, NOTHING)
  {
    assert IsRunTo([NEW], [], NEW, NOTHING);
  }

  /** A push, run to its end. */
  lemma Pushed(s: State, h: Log, w: Tidx, t: Tid) returns (s': State)
    requires Reached(s, h) && Enabled(s, EPush(w, t)) && Q.CanBegin(s.q, t)
    ensures Reached(s', h.(pushed := h.pushed + [t])) && Pc(s', w).Off? && s'.threads.Keys == s.threads.Keys + {w}
    ensures forall v :: v != w ==> Pc(s', v) == Pc(s, v)
    ensures s'.tasks == s.tasks[t := Task(true, true, false)] && s'.list == s.list + {t} && s'.owner == Idle(Fresh)
    ensures s'.q.inflight == s.q.inflight && s'.q.head == t && s'.q.tail == s.q.tail && s'.q.consumer == s.q.consumer
    ensures s'.q.next == (s.q.next - {t})[s.q.head := t] && s'.q.chain == s.q.chain + [t]
  {
    hide Reached;
    var s1 := Go(s, h, EPush(w, t));
    var s2 := Go(s1, h.(pushed := h.pushed + [t]), EEnqueue(w));
    var s3 := Go(s2, h.(pushed := h.pushed + [t]), EEnqueue(w));
    s' := Go(s3, h.(pushed := h.pushed + [t]), EEnqueue(w));
    assert s'.q.inflight == s.q.inflight;
  }

  /** A wake wins the `queued` flag. */
  lemma WakeWins(s: State, h: Log, w: Tidx, t: Tid) returns (s': State)
    requires Reached(s, h) && Pc(s, w).Off? && t in s.tasks && !s.tasks[t].queued && !s.owner.Gone?
    ensures Reached(s', h) && Pc(s', w) == Enqueueing(t, true) && forall v :: v != w ==> Pc(s', v) == Pc(s, v)
    ensures s'.tasks == s.tasks[t := Task(s.tasks[t].alive, true, true)]
    ensures s'.list == s.list && s'.owner == s.owner && s'.q == Q.Begin(s.q, t)
    ensures s'.registered == s.registered && s'.notified == s.notified && s'.polls == s.polls
  {
    hide Reached, Q.Begin;
    var s1 := Go(s, h, EUpgrade(w, t));
    var s2 := Go(s1, h, EMark(w));
    s' := Go(s2, h, ESwap(w));
  }

  /** It goes on up to the swap of the queue's head: the link of the previous head is
      still to be stored. */
  lemma WakeBegun(s: State, h: Log, w: Tidx, t: Tid) returns (s': State)
    requires Reached(s, h) && Pc(s, w).Off? && t in s.tasks && !s.tasks[t].queued && !s.owner.Gone?
    ensures Reached(s', h) && Pc(s', w) == Enqueueing(t, true) && forall v :: v != w ==> Pc(s', v) == Pc(s, v)
    ensures NobodyPushes(s) ==> NobodyPushes(s')
    ensures s'.tasks == s.tasks[t := Task(s.tasks[t].alive, true, true)]
    ensures s'.list == s.list && s'.owner == s.owner
    ensures s'.registered == s.registered && s'.notified == s.notified && s'.polls == s.polls
    ensures s'.q.inflight == s.q.inflight[t := Q.StoreLink(s.q.head)]
    ensures s'.q.head == t && s'.q.tail == s.q.tail && s'.q.consumer == s.q.consumer
    ensures s'.q.next == s.q.next - {t} && s'.q.chain == s.q.chain + [t]
  {
    hide Reached;
    var s1 := WakeWins(s, h, w, t);
    var s2 := Go(s1, h, EEnqueue(w));
    s' := Go(s2, h, EEnqueue(w));
    assert forall v :: v in s'.threads && v != w ==> s'.threads[v] == Pc(s, v);
  }

  lemma WakeLinked(s: State, h: Log, w: Tidx, t: Tid) returns (s': State)
    requires Reached(s, h) && Pc(s, w) == Enqueueing(t, true) && t in s.q.inflight && s.q.inflight[t].StoreLink?
    ensures Reached(s', h) && Pc(s', w) == Waking && forall v :: v != w ==> Pc(s', v) == Pc(s, v)
    ensures NobodyPushes(s) ==> NobodyPushes(s')
    ensures s'.tasks == s.tasks && s'.list == s.list && s'.owner == s.owner
    ensures s'.registered == s.registered && s'.notified == s.notified && s'.polls == s.polls
    ensures s'.q.inflight == s.q.inflight - {t} && s'.q.head == s.q.head && s'.q.tail == s.q.tail
    ensures s'.q.consumer == s.q.consumer && s'.q.chain == s.q.chain
    ensures s'.q.next == s.q.next[s.q.inflight[t].prev := t]
  {
    hide Reached;
    s' := Go(s, h, EEnqueue(w));
  }

  ghost predicate TwoQueued(s: State) {
    && Reached(s, Log([1, 2], [])) && s.owner.Idle? && NobodyPushes(s)
    && s.q.tail == 0 && s.q.head == 2 && s.q.next == map[0 := 1, 1 := 2] && s.q.inflight == map[] && s.q.consumer.Idle?
    && s.q.chain == [0, 1, 2]
    && s.list == {1, 2} && s.tasks.Keys == {1, 2} && s.tasks[1].alive && s.tasks[2].alive
    && Pc(s, 1).Off? && Pc(s, 2).Off?
  }

  lemma TwoPushed() returns (s: State)
    ensures TwoQueued(s)
  {
    hide Reached;
    Start();
    assert [] + [1] == [1] && [1] + [2] == [1, 2];
    var s1 := Pushed(NEW, NOTHING, 0, 1);
    s := Pushed(s1, Log([1], []), 0, 2);
    assert Pc(s, 0).Off?;
  }

  /** The owner takes a linked task out of the queue and clears its flag. */
  lemma Taken(s: State, h: Log, t: Tid) returns (s': State)
    requires Reached(s, h) && s.owner.Dequeuing? && t != Q.STUB && s.q.tail == t && t in s.q.next && Q.CanConsume(s.q)
    requires s.q.consumer.Idle? || s.q.consumer.Skipped?
    requires t in s.tasks && s.tasks[t].alive
    ensures Reached(s', h) && s'.owner == Resetting(t, s.owner.locals) && s'.threads == s.threads
    ensures s'.tasks == s.tasks[t := s.tasks[t].(queued := false)] && s'.list == s.list - {t}
    ensures s'.q.inflight == s.q.inflight && s'.q.head == s.q.head && s'.q.tail == s.q.next[t]
    ensures s'.q.consumer.Idle? && s'.q.chain == s.q.chain[1..] && s'.q.next == s.q.next
  {
    hide Reached;
    var s1 := Go(s, h, EDequeue);
    s' := Go(s1, h, ETake);
  }

  /** The child's poll ends with its output; the task is in the queue again by then. */
  lemma Finished(s: State, h: Log, t: Tid) returns (s': State)
    requires Reached(s, h) && s.owner.Resetting? && s.owner.task == t && t in s.tasks && s.tasks[t].queued
    ensures NobodyPushes(s) ==> NobodyPushes(s')
    ensures Reached(s', h.(finished := h.finished + [t])) && s'.owner == Idle(Ready) && s'.threads == s.threads
    ensures s'.q == s.q && s'.list == s.list
    ensures s'.tasks == s.tasks[t := Task(false, true, false)]
  {
    hide Reached;
    var s1 := Go(s, h, EResetWoken);
    s' := Go(s1, h, EChildReady);
  }

  ghost predicate OneQueuedBehindIt(s: State) {
    && Reached(s, Log([1, 2], [1])) && s.owner.Idle? && NobodyPushes(s)
    && s.q.tail == 2 && s.q.head == 1 && 2 in s.q.next && s.q.next[2] == 1 && 1 !in s.q.next
    && s.q.inflight == map[] && s.q.consumer.Idle? && s.q.chain == [2, 1]
    && s.list == {2} && s.tasks.Keys == {1, 2} && s.tasks[2].alive
    && Pc(s, 2).Off?
  }

  lemma FirstTaken(s: State) returns (s': State)
    requires TwoQueued(s)
    ensures Reached(s', Log([1, 2], [])) && NobodyPushes(s') && s'.owner == Resetting(1, Loop(2, 0, 0))
    ensures s'.list == {2}
    ensures s'.tasks.Keys == {1, 2} && s'.tasks[1].alive && !s'.tasks[1].queued && s'.tasks[2].alive
    ensures s'.q.tail == 2 && s'.q.head == 2 && s'.q.next == map[0 := 1, 1 := 2] && s'.q.inflight == map[]
    ensures s'.q.consumer.Idle? && s'.q.chain == [2] && Pc(s', 1).Off? && Pc(s', 2).Off?
  {
    hide Reached;
    var s1 := Go(s, Log([1, 2], []), EStartPoll);
    var s2 := Go(s1, Log([1, 2], []), EDequeue);
    assert s2.owner.locals == Loop(2, 0, 0);
    s' := Taken(s2, Log([1, 2], []), 1);
    assert s'.q.chain == [2] && s'.tasks.Keys == {1, 2} && s'.list == {2};
  }

  /** The first child is woken while it is polled, and finishes. */
  lemma FirstFinished(s: State) returns (s': State)
    requires TwoQueued(s)
    ensures OneQueuedBehindIt(s')
  {
    var s3 := FirstTaken(s);
    hide Reached, TwoQueued;
    var s4 := WakeBegun(s3, Log([1, 2], []), 1, 1);
    var s5 := WakeLinked(s4, Log([1, 2], []), 1, 1);
    assert Pc(s5, 2) == Pc(s4, 2) == Pc(s3, 2);
    hide Reached, NobodyPushes;
    s' := Finished(s5, Log([1, 2], []), 1);
    assert [] + [1] == [1] && Pc(s', 2) == Pc(s5, 2);
    assert s'.q.chain == [2, 1] && s'.q.inflight == map[] && s'.tasks.Keys == {1, 2};
  }

  ghost predicate EmptyBehindALateLink(s: State) {
    && Reached(s, Log([1, 2], [1, 2])) && s.owner.Idle? && NobodyPushes(s)
    && s.q.tail == 1 && s.q.head == 2 && 1 !in s.q.next && s.q.consumer.Idle?
    && s.q.chain == [1, 2] && 2 in s.q.inflight && s.q.inflight[2] == Q.StoreLink(1)
    && s.list == {}
  }

  /** The second child is woken while it is polled, and finishes before the producer of
      its task has stored its link. */
  lemma SecondFinished(s: State) returns (s': State)
    requires OneQueuedBehindIt(s)
    ensures EmptyBehindALateLink(s')
  {
    hide Reached;
    var s1 := Go(s, Log([1, 2], [1]), EStartPoll);
    var s2 := Taken(s1, Log([1, 2], [1]), 2);
    var s3 := WakeBegun(s2, Log([1, 2], [1]), 2, 2);
    s' := Finished(s3, Log([1, 2], [1]), 2);
    assert [1] + [2] == [1, 2] && s'.q.chain == [1, 2];
  }

  /** Some run with that history ends in state `s`, in a poll that began with no future
      left or at its end. */
  ghost predicate EmptyPoll(s: State, h: Log) {
    exists run: seq<State>, events: seq<Event>, i: nat :: EmptyPollIn(run, events, i, s, h)
  }

  ghost predicate EmptyPollIn(run: seq<State>, events: seq<Event>, i: nat, s: State, h: Log) {
    && IsRunTo(run, events, s, h)
    && i < |events| && events[i].EStartPoll? && run[i].list == {}
    && forall k :: i < k < |events| ==> InPoll(run[k])
  }

  lemma BeginEmptyPoll(s: State, h: Log) returns (s': State)
    requires Reached(s, h) && Enabled(s, EStartPoll) && s.list == {}
    ensures s' == Apply(s, EStartPoll) && EmptyPoll(s', h)
  {
    var run: seq<State>, events: seq<Event> :| IsRunTo(run, events, s, h);
    s' := Apply(s, EStartPoll);
    hide Enabled, Apply, History;
    HistoryGrows(run, events, s', EStartPoll);
    assert EmptyPollIn(run + [s'], events + [EStartPoll], |events|, s', h);
  }

  lemma GoOn(s: State, h: Log, e: Event) returns (s': State)
    requires EmptyPoll(s, h) && InPoll(s) && Enabled(s, e) && Extend(h, s, e) == h
    ensures s' == Apply(s, e) && EmptyPoll(s', h)
  {
    hide Enabled, Apply, InPoll, Extend, History;
    var run: seq<State>, events: seq<Event>, i: nat :| EmptyPollIn(run, events, i, s, h);
    s' := Apply(s, e);
    HistoryGrows(run, events, s', e);
    assert EmptyPollIn(run + [s'], events + [e], i, s', h);
  }

  /** An empty set need not answer that it has ended: in some run two futures are pushed
      and finish in that order, and the next poll, which starts with no future left,
      answers `Pending`, as both tasks are in the ready queue again and the link between
      them has yet to be stored. */
  lemma EmptySetCanBePending()
    ensures exists s ::
      && EmptyPoll(s, Log([1, 2], [1, 2])) && s.owner == Idle(Pending) && s.list == {}
      && s.q.tail != Q.STUB && |s.q.chain| >= 2 && Q.AboutToLink(s.q, 0)
  {
    hide EmptyPoll, Reached;
    var s0 := TwoPushed();
    var s1 := FirstFinished(s0);
    var s2 := SecondFinished(s1);
    hide TwoQueued, OneQueuedBehindIt;
    var h := Log([1, 2], [1, 2]);
    var s3 := BeginEmptyPoll(s2, h);
    var s4 := GoOn(s3, h, EDequeue);
    var s5 := GoOn(s4, h, EDequeue);
    var s6 := GoOn(s5, h, EWakeSelf);
    assert s6.q.chain == s2.q.chain && s6.q.inflight == s2.q.inflight;
  }

  // ------------------------------------------------- who owes the caller its wake-up

  ghost predicate FirstWaits(s: State) {
    && Reached(s, Log([1, 2], [])) && NobodyPushes(s) && s.owner == Dequeuing(Loop(2, 1, 0)) && s.list == {1, 2}
    && s.tasks.Keys == {1, 2} && s.tasks[1] == Task(true, false, false) && s.tasks[2].alive
    && s.q.tail == 2 && s.q.head == 2 && 2 !in s.q.next && s.q.inflight == map[]
    && s.q.consumer.Idle? && s.q.chain == [2]
    && Pc(s, 1).Off? && Pc(s, 2).Off?
  }

  lemma FirstPolled(s: State) returns (s': State)
    requires TwoQueued(s)
    ensures FirstWaits(s')
  {
    hide Reached;
    var s3 := FirstTaken(s);
    var s4 := Go(s3, Log([1, 2], []), EResetWoken);
    s' := Go(s4, Log([1, 2], []), EChildPending);
    assert s'.tasks.Keys == {1, 2} && s'.list == {1, 2};
  }

  ghost predicate LastOneOut(s: State) {
    && Reached(s, Log([1, 2], [])) && NobodyPushes(s) && s.owner == Got(2, Loop(2, 1, 0)) && s.list == {1, 2}
    && s.tasks.Keys == {1, 2} && s.tasks[1] == Task(true, false, false) && s.tasks[2].alive
    && s.q.tail == Q.STUB && s.q.head == Q.STUB && Q.STUB !in s.q.next && s.q.inflight == map[] && s.q.consumer.Idle?
    && s.q.chain == [Q.STUB]
    && Pc(s, 1).Off? && Pc(s, 2).Off?
  }

  lemma StubBegins(s: State) returns (s': State)
    requires FirstWaits(s)
    ensures Reached(s', Log([1, 2], [])) && s'.owner == s.owner && s'.list == s.list && s'.tasks == s.tasks
    ensures s'.threads == s.threads && s'.q.consumer.InsertStub? && s'.q.chain == [2]
    ensures s'.q.tail == 2 && s'.q.head == 2 && s'.q.inflight == map[Q.STUB := Q.SwapHead]
    ensures 2 !in s'.q.next && Q.STUB !in s'.q.next
  {
    hide Reached;
    var s1 := Go(s, Log([1, 2], []), EDequeue);
    var s2 := Go(s1, Log([1, 2], []), EDequeue);
    s' := Go(s2, Log([1, 2], []), EDequeue);
    assert s'.q.inflight == map[Q.STUB := Q.SwapHead];
  }

  /** The last task of the queue: the stub goes in behind it. */
  lemma SecondDequeued(s: State) returns (s': State)
    requires FirstWaits(s)
    ensures LastOneOut(s')
  {
    hide Reached;
    var s3 := StubBegins(s);
    var s4 := Go(s3, Log([1, 2], []), EDequeue);
    var s5 := Go(s4, Log([1, 2], []), EDequeue);
    s' := Go(s5, Log([1, 2], []), EDequeue);
    assert s'.q.chain == [Q.STUB] && s'.q.inflight == map[];
  }

  ghost predicate BothWait(s: State) {
    && Reached(s, Log([1, 2], [])) && s.owner == Idle(Pending) && s.registered && !s.notified && s.list == {1, 2}
    && s.tasks == map[1 := Task(true, false, false), 2 := Task(true, false, false)]
    && s.q.head == Q.STUB && s.q.inflight == map[] && s.q.chain == [Q.STUB]
    && Pc(s, 1).Off? && Pc(s, 2).Off?
  }

  /** The budget is used up; a second poll finds nothing to do. */
  lemma BothPolled(s: State) returns (s': State)
    requires LastOneOut(s)
    ensures BothWait(s')
  {
    hide Reached;
    var s4 := BudgetUsedUp(s);
    hide LastOneOut;
    var s5 := Go(s4, Log([1, 2], []), EStartPoll);
    s' := Go(s5, Log([1, 2], []), EDequeue);
  }

  lemma BudgetUsedUp(s: State) returns (s': State)
    requires LastOneOut(s)
    ensures Reached(s', Log([1, 2], [])) && NobodyPushes(s') && s'.owner == Idle(Pending) && s'.list == {1, 2}
    ensures s'.q == s.q
    ensures s'.tasks == map[1 := Task(true, false, false), 2 := Task(true, false, false)]
    ensures s'.threads == s.threads
  {
    hide Reached;
    var s1 := Go(s, Log([1, 2], []), ETake);
    var s2 := Go(s1, Log([1, 2], []), EResetWoken);
    var s3 := Go(s2, Log([1, 2], []), EChildPending);
    s' := Go(s3, Log([1, 2], []), EWakeSelf);
    assert s'.list == {1, 2};
  }

  /** The thread that has enqueued a task need not be the one that owes the caller its
      wake-up: in some reachable state after a `Pending`, a live task waits in the queue,
      the caller has not been notified, nobody is about to take the caller's waker, and
      all that is left is another thread that took it for another task. */
  lemma EnqueuerNeedNotOweTheWake()
    ensures exists s, t ::
      && Reached(s, Log([1, 2], [])) && s.owner == Idle(Pending) && !s.notified && !s.registered
      && t in s.tasks && s.tasks[t].alive && t in s.q.chain && t !in s.q.inflight
      && Pc(s, t).Off? && Pc(s, 1) == Holding(s.polls) && t != 1
  {
    hide Reached;
    var s0 := TwoPushed();
    var s1 := FirstPolled(s0);
    var s2 := SecondDequeued(s1);
    var s3 := BothPolled(s2);
    var s4 := WakeBegun(s3, Log([1, 2], []), 1, 1);
    var s5 := WakeLinked(s4, Log([1, 2], []), 1, 1);
    var s6 := Go(s5, Log([1, 2], []), ETakeWaker(1));
    var s7 := WakeBegun(s6, Log([1, 2], []), 2, 2);
    var s8 := WakeLinked(s7, Log([1, 2], []), 2, 2);
    var s9 := Go(s8, Log([1, 2], []), ETakeWaker(2));
    assert Pc(s9, 1) == Pc(s8, 1) == Pc(s7, 1) == Pc(s6, 1) == Holding(s9.polls);
    assert 2 in s9.tasks && Pc(s9, 2).Off?;
  }
}
