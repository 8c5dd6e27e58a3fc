/** Every step of the task-set machine keeps its invariant. */
module TaskSetProofs {
  import Q = ReadyQueue
  import opened TaskSet

  lemma NewInv()
    ensures Inv(NEW)
  {
    Q.NewInv();
  }

  // ------------------------------------------------------------------- framing

  ghost predicate OnlyThread(s: State, s': State, w: Tidx) {
    s' == s || s'.threads == s.threads[w := Pc(s', w)]
  }

  /** A thread moves, and is outside `enqueue` before and after. */
  lemma ThreadMoves(s: State, s': State, w: Tidx)
    requires ThreadsInv(s) && s'.q == s.q && s'.owner == s.owner && s'.tasks.Keys == s.tasks.Keys
    requires OnlyThread(s, s', w)
    requires !Pc(s, w).Enqueueing? && !Pc(s', w).Enqueueing?
    requires (Pc(s', w).Upgraded? || Pc(s', w).Marked?) ==> Pc(s', w).task in s.tasks
    ensures ThreadsInv(s')
  {
    forall v | v in s'.threads ensures ThreadInv(s', v) {
      if v != w || s' == s { assert ThreadInv(s, v); }
    }
    forall t | t in s'.q.inflight && t != Q.STUB ensures exists v :: Enqueues(s', v, t) {
      var v :| Enqueues(s, v, t);
      assert Enqueues(s', v, t);
    }
    forall v, u, t | Enqueues(s', v, t) && Enqueues(s', u, t) ensures v == u {
      assert Enqueues(s, v, t) && Enqueues(s, u, t);
    }
  }

  /** A thread moves; what the other threads owe the caller stays owed. */
  lemma OthersKeepWakes(s: State, s': State, w: Tidx)
    requires OnlyThread(s, s', w) && s'.polls == s.polls
    ensures SomeoneHolds(s) && Pc(s, w) != Holding(s.polls) ==> SomeoneHolds(s')
    ensures SomeoneWillWake(s) && !Pc(s, w).Waking? && !Pc(s, w).Enqueueing? ==> SomeoneWillWake(s')
  {
    if SomeoneHolds(s) && Pc(s, w) != Holding(s.polls) {
      var v :| v in s.threads && s.threads[v] == Holding(s.polls);
      assert v in s'.threads && s'.threads[v] == s.threads[v];
    }
    if SomeoneWillWake(s) && !Pc(s, w).Waking? && !Pc(s, w).Enqueueing? {
      var v :| v in s.threads && (s.threads[v].Waking? || (s.threads[v].Enqueueing? && s.threads[v].wakes));
      assert v in s'.threads && s'.threads[v] == s.threads[v];
    }
  }

  /** A thread moves that neither holds nor owes the caller a wake-up. */
  lemma WakeKept(s: State, s': State, w: Tidx)
    requires WakeInv(s) && OnlyThread(s, s', w)
    requires s'.owner == s.owner && s'.polls == s.polls && s'.registered == s.registered && s'.notified == s.notified
    requires s'.waited == s.waited && s'.list == s.list
    requires !Pc(s, w).Waking? && !Pc(s, w).Holding? && !Pc(s, w).Enqueueing?
    requires Pc(s', w).Enqueueing? ==> Pc(s', w).wakes
    requires WaitedInQueue(s') ==> WaitedInQueue(s) || Pc(s', w).Enqueueing?
    ensures WakeInv(s')
  {
    OthersKeepWakes(s, s', w);
    if Pc(s', w).Enqueueing? {
      assert w in s'.threads && s'.threads[w].wakes;
    }
  }

  /** A step that changes neither flags, nor references, nor the queue's members. */
  lemma SameTasks(s: State, s': State)
    requires TasksInv(s) && s'.tasks.Keys == s.tasks.Keys
    requires forall t :: t in s.tasks ==>
      s'.tasks[t].alive == s.tasks[t].alive && s'.tasks[t].queued == s.tasks[t].queued
    requires s'.list == s.list && s'.released == s.released && s'.dropped == s.dropped && s'.fired == s.fired
    requires forall t :: InQueue(s', t) <==> InQueue(s, t)
    requires forall t :: Carried(s', t) <==> Carried(s, t)
    ensures TasksInv(s')
  {
    hide InQueue, Carried;
    forall t | t in s'.tasks ensures TaskInv(s', t) { assert TaskInv(s, t); }
  }

  // ------------------------------------------------------------ thread by thread

  lemma UpgradeKeepsInv(s: State, w: Tidx, t: Tid)
    requires Inv(s) && Enabled(s, EUpgrade(w, t))
    ensures Inv(Upgrade(s, w, t))
  {
    hide Q.Inv, TasksInv, ThreadsInv;
    var s' := Upgrade(s, w, t);
    ThreadMoves(s, s', w);
    WakeKept(s, s', w);
    SameTasks(s, s');
  }

  lemma MarkKeepsInv(s: State, w: Tidx)
    requires Inv(s) && Enabled(s, EMark(w))
    ensures Inv(MarkWoken(s, w))
  {
    hide Q.Inv, TasksInv, ThreadsInv;
    var s' := MarkWoken(s, w);
    ThreadMoves(s, s', w);
    WakeKept(s, s', w);
    SameTasks(s, s');
  }

  lemma SwapKeepsInv(s: State, w: Tidx)
    requires Inv(s) && Enabled(s, ESwap(w))
    ensures Inv(SwapQueued(s, w))
  {
    hide Q.Inv, TasksInv, ThreadsInv, WakeInv;
    SwapKeepsTasks(s, w);
    SwapKeepsThreads(s, w);
    SwapKeepsOwner(s, w);
  }

  lemma SwapKeepsOwner(s: State, w: Tidx)
    requires Inv(s) && Enabled(s, ESwap(w))
    ensures DomainInv(SwapQueued(s, w)) && OwnerInv(SwapQueued(s, w)) && LoopInv(SwapQueued(s, w))
  {
    hide Q.Inv, TasksInv, ThreadsInv, WakeInv;
    FlagsOfTask(s, Pc(s, w).task);
  }

  /** An unqueued task is nowhere in the ready queue; a queued live one is. */
  lemma FlagsOfTask(s: State, t: Tid)
    requires TasksInv(s) && t in s.tasks
    ensures t != Q.STUB
    ensures InQueue(s, t) ==> s.tasks[t].queued
    ensures s.tasks[t].alive && s.tasks[t].queued ==> InQueue(s, t)
  {
    assert TaskInv(s, t);
  }

  lemma SwapKeepsTasks(s: State, w: Tidx)
    requires Inv(s) && Enabled(s, ESwap(w))
    ensures TasksInv(SwapQueued(s, w))
  {
    hide Q.Inv, ThreadsInv, WakeInv, TaskInv;
    forall u | u in SwapQueued(s, w).tasks ensures TaskInv(SwapQueued(s, w), u) { SwapKeepsTask(s, w, u); }
  }

  lemma SwapKeepsTask(s: State, w: Tidx, u: Tid)
    requires Enabled(s, ESwap(w)) && u in s.tasks && TaskInv(s, u)
    ensures TaskInv(SwapQueued(s, w), u)
  {
    hide SwapQueued, InQueue, Holders, Carried;
    SwapFacts(s, w, u);
  }

  lemma SwapFacts(s: State, w: Tidx, u: Tid)
    requires Enabled(s, ESwap(w)) && u in s.tasks
    ensures var s', t := SwapQueued(s, w), Pc(s, w).task;
            && u in s'.tasks && s'.tasks[u] == s.tasks[u].(queued := s.tasks[u].queued || u == t)
            && (InQueue(s', u) <==> InQueue(s, u) || (u == t && !s.tasks[t].queued))
            && s'.fired == s.fired + {t} && s'.list == s.list && s'.released == s.released
            && Holders(s', u) == Holders(s, u) && (Carried(s', u) <==> Carried(s, u))
  {
  }

  lemma SwapKeepsThreads(s: State, w: Tidx)
    requires Inv(s) && Enabled(s, ESwap(w))
    ensures Q.Inv(SwapQueued(s, w).q) && ThreadsInv(SwapQueued(s, w)) && WakeInv(SwapQueued(s, w))
  {
    hide Q.Inv, TasksInv;
    var s' := SwapQueued(s, w);
    if s.tasks[Pc(s, w).task].queued {
      ThreadMoves(s, s', w);
    } else {
      SwapWins(s, w);
    }
    WakeKept(s, s', w);
  }

  /** Winning the `queued` flag makes the thread the one producer of its task. */
  lemma SwapWins(s: State, w: Tidx)
    requires Inv(s) && Enabled(s, ESwap(w)) && !s.tasks[Pc(s, w).task].queued
    ensures Q.CanBegin(s.q, Pc(s, w).task)
    ensures Q.Inv(SwapQueued(s, w).q) && ThreadsInv(SwapQueued(s, w))
  {
    hide Q.Inv;
    var s', t := SwapQueued(s, w), Pc(s, w).task;
    assert TaskInv(s, t);
    Q.ApplyKeepsInv(s.q, Q.Begins(t));
    forall v | v in s'.threads ensures ThreadInv(s', v) {
      assert v != w ==> ThreadInv(s, v);
    }
    forall u | u in s'.q.inflight && u != Q.STUB ensures exists v :: Enqueues(s', v, u) {
      if u == t { assert Enqueues(s', w, u); } else {
        var v :| Enqueues(s, v, u);
        assert Enqueues(s', v, u);
      }
    }
    forall v, x, u | Enqueues(s', v, u) && Enqueues(s', x, u) ensures v == x {
      if v != w { assert Enqueues(s, v, u) && ThreadInv(s, v); }
      if x != w { assert Enqueues(s, x, u) && ThreadInv(s, x); }
    }
  }

  lemma EnqueueKeepsInv(s: State, w: Tidx)
    requires Inv(s) && Enabled(s, EEnqueue(w))
    ensures Inv(EnqueueStep(s, w))
  {
    hide Q.Inv, TasksInv, WakeInv;
    assert ThreadInv(s, w);
    Q.AdvanceKeepsMembers(s.q, Pc(s, w).task);
    Q.ApplyKeepsInv(s.q, Q.Steps(Pc(s, w).task));
    EnqueueKeepsTasks(s, w);
    EnqueueKeepsThreads(s, w);
    EnqueueKeepsWake(s, w);
  }

  lemma EnqueueKeepsTasks(s: State, w: Tidx)
    requires Inv(s) && Enabled(s, EEnqueue(w))
    ensures TasksInv(EnqueueStep(s, w))
  {
    hide Q.Inv, ThreadsInv, WakeInv;
    var s' := EnqueueStep(s, w);
    Q.AdvanceKeepsMembers(s.q, Pc(s, w).task);
    forall u | u in s'.tasks ensures TaskInv(s', u) { assert TaskInv(s, u); }
  }

  lemma EnqueueKeepsThreads(s: State, w: Tidx)
    requires Inv(s) && Enabled(s, EEnqueue(w))
    ensures ThreadsInv(EnqueueStep(s, w))
  {
    hide Q.Inv, Q.Advance, TasksInv, DomainInv, WakeInv;
    var s', t := EnqueueStep(s, w), Pc(s, w).task;
    assert ThreadInv(s, w);
    Q.AdvanceKeepsMembers(s.q, t);
    forall v | v in s'.threads ensures ThreadInv(s', v) {
      assert v != w ==> ThreadInv(s, v);
      if v != w && s.threads[v].Enqueueing? { assert Enqueues(s, v, s.threads[v].task) && Enqueues(s, w, t); }
    }
    forall u | u in s'.q.inflight && u != Q.STUB ensures exists v :: Enqueues(s', v, u) {
      var v :| Enqueues(s, v, u);
      assert Enqueues(s', v, u);
    }
    forall v, x, u | Enqueues(s', v, u) && Enqueues(s', x, u) ensures v == x {
      assert Enqueues(s, v, u) && Enqueues(s, x, u);
    }
  }

  lemma EnqueueKeepsWake(s: State, w: Tidx)
    requires Inv(s) && Enabled(s, EEnqueue(w))
    ensures WakeInv(EnqueueStep(s, w))
  {
    hide Q.Inv, TasksInv, DomainInv, OwnerInv, ThreadsInv;
    var s', t := EnqueueStep(s, w), Pc(s, w).task;
    Q.AdvanceKeepsMembers(s.q, t);
    if SomeoneHolds(s) {
      var v :| v in s.threads && s.threads[v] == Holding(s.polls);
      assert v in s'.threads && s'.threads[v] == s.threads[v];
    }
    if SomeoneWillWake(s) {
      var v :| v in s.threads && (s.threads[v].Waking? || (s.threads[v].Enqueueing? && s.threads[v].wakes));
      assert v in s'.threads && (s'.threads[v] == s.threads[v] || s'.threads[v].Waking?);
    }
    if WaitedInQueue(s') {
      var u :| u in s'.waited && u in s'.tasks && s'.tasks[u].alive && InQueue(s', u);
      assert u in s.waited && InQueue(s, u);
    }
  }

  lemma TakeWakerKeepsInv(s: State, w: Tidx)
    requires Inv(s) && Enabled(s, ETakeWaker(w))
    ensures Inv(TakeWaker(s, w))
  {
    hide Q.Inv, TasksInv, ThreadsInv;
    var s' := TakeWaker(s, w);
    ThreadMoves(s, s', w);
    SameTasks(s, s');
    assert w in s'.threads;
    if SomeoneHolds(s) {
      var v :| v in s.threads && s.threads[v] == Holding(s.polls);
      assert v in s'.threads && s'.threads[v] == s.threads[v];
    }
  }

  lemma CallParentKeepsInv(s: State, w: Tidx)
    requires Inv(s) && Enabled(s, ECallParent(w))
    ensures Inv(CallParent(s, w))
  {
    hide Q.Inv, TasksInv, ThreadsInv;
    var s' := CallParent(s, w);
    ThreadMoves(s, s', w);
    SameTasks(s, s');
    OthersKeepWakes(s, s', w);
  }

  lemma PushKeepsInv(s: State, w: Tidx, t: Tid)
    requires Inv(s) && Enabled(s, EPush(w, t))
    ensures Inv(Push(s, w, t))
  {
    hide Q.Inv, TasksInv, ThreadsInv;
    var s' := Push(s, w, t);
    Q.ApplyKeepsInv(s.q, Q.Begins(t));
    PushKeepsThreads(s, w, t);
    PushKeepsTasks(s, w, t);
    OthersKeepWakes(s, s', w);
    if WaitedInQueue(s') { PushedIsNotWaited(s, w, t); }
  }

  lemma PushedIsNotWaited(s: State, w: Tidx, t: Tid)
    requires Inv(s) && Enabled(s, EPush(w, t)) && WaitedInQueue(Push(s, w, t))
    ensures WaitedInQueue(s)
  {
    hide Q.Inv, TasksInv, ThreadsInv;
    var s' := Push(s, w, t);
    var u :| u in s'.waited && u in s'.tasks && s'.tasks[u].alive && InQueue(s', u);
    assert u in s.waited && u in s.tasks && u != t && InQueue(s, u);
  }

  lemma PushKeepsTasks(s: State, w: Tidx, t: Tid)
    requires Inv(s) && Enabled(s, EPush(w, t))
    ensures TasksInv(Push(s, w, t)) && Q.CanBegin(s.q, t)
  {
    hide Q.Inv, ThreadsInv, WakeInv;
    var s' := Push(s, w, t);
    forall u | u in s'.tasks ensures TaskInv(s', u) { if u != t { assert TaskInv(s, u); } }
  }

  lemma PushKeepsThreads(s: State, w: Tidx, t: Tid)
    requires Inv(s) && Enabled(s, EPush(w, t))
    ensures ThreadsInv(Push(s, w, t))
  {
    hide Q.Inv;
    var s' := Push(s, w, t);
    forall v | v in s'.threads ensures ThreadInv(s', v) {
      assert v != w ==> ThreadInv(s, v);
    }
    forall u | u in s'.q.inflight && u != Q.STUB ensures exists v :: Enqueues(s', v, u) {
      if u == t { assert Enqueues(s', w, u); } else {
        var v :| Enqueues(s, v, u);
        assert Enqueues(s', v, u);
      }
    }
    forall v, x, u | Enqueues(s', v, u) && Enqueues(s', x, u) ensures v == x {
      if v != w { assert Enqueues(s, v, u) && ThreadInv(s, v); }
      if x != w { assert Enqueues(s, x, u) && ThreadInv(s, x); }
    }
  }

  // ----------------------------------------------------------- steps of the owner

  /** Outside its dequeues the owner touches neither the queue nor the threads. */
  lemma OwnerMoves(s: State, s': State)
    requires ThreadsInv(s) && NobodyPushes(s)
    requires s'.q == s.q && s'.threads == s.threads && s.tasks.Keys <= s'.tasks.Keys
    ensures ThreadsInv(s') && NobodyPushes(s')
  {
    forall v | v in s'.threads ensures ThreadInv(s', v) { assert ThreadInv(s, v); }
    forall t | t in s'.q.inflight && t != Q.STUB ensures exists v :: Enqueues(s', v, t) {
      var v :| Enqueues(s, v, t);
      assert Enqueues(s', v, t);
    }
    forall v, u, t | Enqueues(s', v, t) && Enqueues(s', u, t) ensures v == u {
      assert Enqueues(s, v, t) && Enqueues(s, u, t);
    }
  }

  lemma OwnerKeepsWake(s: State, s': State)
    requires WakeInv(s) && NobodyPushes(s) && s'.threads == s.threads
    requires s'.polls == s.polls && s'.registered == s.registered && (s.notified ==> s'.notified)
    requires InPoll(s') || s'.owner == Idle(Pending) || s'.waited != {} ==> s.polls > 0
    requires InPoll(s') ==> s'.waited == {}
    requires s'.owner == Idle(Pending) ==> s'.waited == s'.list
    requires WaitedInQueue(s') ==> s'.notified || SomeoneHolds(s) || SomeoneWillWake(s)
    ensures WakeInv(s')
  {
    if SomeoneHolds(s) {
      var v :| v in s.threads && s.threads[v] == Holding(s.polls);
      assert v in s'.threads && s'.threads[v] == s.threads[v];
    }
    if SomeoneWillWake(s) {
      var v :| v in s.threads && (s.threads[v].Waking? || (s.threads[v].Enqueueing? && s.threads[v].wakes));
      assert v in s'.threads && s'.threads[v] == s.threads[v];
    }
  }

  lemma StartPollKeepsInv(s: State)
    requires Inv(s) && Enabled(s, EStartPoll)
    ensures Inv(StartPoll(s))
  {
    hide Q.Inv, TasksInv, ThreadsInv;
    var s' := StartPoll(s);
    OwnerMoves(s, s');
    SameTasks(s, s');
  }

  lemma TakeKeepsInv(s: State)
    requires Inv(s) && Enabled(s, ETake)
    ensures Inv(Take(s))
  {
    hide Q.Inv, TasksInv, ThreadsInv, WakeInv, NobodyPushes;
    TakeKeepsOthers(s);
    TakeKeepsTasks(s);
  }

  lemma TakeKeepsOthers(s: State)
    requires Inv(s) && Enabled(s, ETake)
    ensures ThreadsInv(Take(s)) && WakeInv(Take(s))
  {
    hide Q.Inv, TasksInv, ThreadsInv, DomainInv, OwnerInv, LoopInv;
    OwnerMoves(s, Take(s));
    OwnerKeepsWake(s, Take(s));
  }

  lemma TakeKeepsTasks(s: State)
    requires Inv(s) && Enabled(s, ETake)
    ensures TasksInv(Take(s))
    ensures s.tasks[s.owner.task].queued
    ensures s.tasks[s.owner.task].alive <==> s.owner.task in s.list
  {
    hide Q.Inv, ThreadsInv, WakeInv;
    var s' := Take(s);
    assert TaskInv(s, s.owner.task);
    forall u | u in s'.tasks ensures TaskInv(s', u) { assert TaskInv(s, u); }
  }

  lemma ResetKeepsInv(s: State)
    requires Inv(s) && Enabled(s, EResetWoken)
    ensures Inv(ResetWoken(s))
  {
    hide Q.Inv, TasksInv, ThreadsInv;
    var s' := ResetWoken(s);
    OwnerMoves(s, s');
    OwnerKeepsWake(s, s');
    SameTasks(s, s');
  }

  lemma ChildPendingKeepsInv(s: State)
    requires Inv(s) && Enabled(s, EChildPending)
    ensures Inv(ChildPending(s))
  {
    hide Q.Inv, TasksInv, ThreadsInv;
    var s' := ChildPending(s);
    OwnerMoves(s, s');
    OwnerKeepsWake(s, s');
    ChildPendingKeepsTasks(s);
  }

  lemma ChildPendingKeepsTasks(s: State)
    requires Inv(s) && Enabled(s, EChildPending)
    ensures TasksInv(ChildPending(s)) && s.owner.task !in s.list
  {
    hide Q.Inv, ThreadsInv, WakeInv;
    var s' := ChildPending(s);
    assert TaskInv(s, s.owner.task);
    forall u | u in s'.tasks ensures TaskInv(s', u) { assert TaskInv(s, u); }
  }

  lemma ReleaseKeepsTasks(s: State, s': State, t: Tid)
    requires TasksInv(s) && t in s.tasks && s'.owner == Idle(Ready)
    requires Carried(s, t)
    requires s' == Release(s, t).(owner := s'.owner)
    ensures TasksInv(s')
  {
    assert TaskInv(s, t);
    forall u | u in s'.tasks ensures TaskInv(s', u) { assert TaskInv(s, u); }
  }

  lemma ChildReadyKeepsInv(s: State)
    requires Inv(s) && Enabled(s, EChildReady)
    ensures Inv(ChildReady(s))
  {
    hide Q.Inv, TasksInv, ThreadsInv;
    var s' := ChildReady(s);
    OwnerMoves(s, s');
    OwnerKeepsWake(s, s');
    ReleaseKeepsTasks(s, s', s.owner.task);
  }

  lemma WakeSelfKeepsInv(s: State)
    requires Inv(s) && Enabled(s, EWakeSelf)
    ensures Inv(WakeSelf(s))
  {
    hide Q.Inv, TasksInv, ThreadsInv;
    var s' := WakeSelf(s);
    OwnerMoves(s, s');
    OwnerKeepsWake(s, s');
    SameTasks(s, s');
  }

  /** Starting and ending the drop of the set change nothing but the owner. */
  lemma DropKeepsInv(s: State, last: bool)
    requires Inv(s) && Enabled(s, if last then EDropEnd else EDropStart)
    ensures Inv(s.(owner := if last then Gone else Dropping))
  {
    hide Q.Inv, TasksInv, ThreadsInv;
    var s' := s.(owner := if last then Gone else Dropping);
    DropHasNoPushes(s, last);
    OwnerMoves(s, s');
    assert WaitedInQueue(s') ==> WaitedInQueue(s);
    OwnerKeepsWake(s, s');
    DropKeepsTasks(s, s');
  }

  lemma DropHasNoPushes(s: State, last: bool)
    requires Inv(s) && Enabled(s, if last then EDropEnd else EDropStart)
    ensures NobodyPushes(s)
  {
    hide Q.Inv, TasksInv, ThreadsInv;
  }

  lemma DropKeepsTasks(s: State, s': State)
    requires TasksInv(s) && s' == s.(owner := s'.owner)
    requires (s.owner.Idle? || s.owner.Dropping?) && (s'.owner.Dropping? || s'.owner.Gone?)
    ensures TasksInv(s')
  {
    SameTasks(s, s');
  }

  lemma DropOneKeepsInv(s: State, t: Tid)
    requires Inv(s) && Enabled(s, EDropOne(t))
    ensures Inv(DropOne(s, t))
  {
    hide Q.Inv, TasksInv, ThreadsInv;
    var s' := DropOne(s, t);
    OwnerMoves(s, s');
    OwnerKeepsWake(s, s');
    DropOneKeepsTasks(s, t);
  }

  lemma DropOneKeepsTasks(s: State, t: Tid)
    requires TasksInv(s) && Enabled(s, EDropOne(t))
    ensures TasksInv(DropOne(s, t))
  {
    var s' := DropOne(s, t);
    assert TaskInv(s, t);
    forall u | u in s'.tasks ensures TaskInv(s', u) { assert TaskInv(s, u); }
  }

  lemma DequeueKeepsInv(s: State)
    requires Inv(s) && Enabled(s, EDequeue)
    ensures Inv(DequeueStep(s))
  {
    hide Q.Inv;
    Q.ConsumeKeepsInv(s.q);
    Q.ConsumeKeepsMembers(s.q);
    DequeueKeepsTasks(s);
    DequeueKeepsThreads(s);
    DequeueKeepsWake(s);
  }

  lemma DequeueKeepsTasks(s: State)
    requires Inv(s) && Enabled(s, EDequeue)
    ensures TasksInv(DequeueStep(s))
  {
    hide Q.Inv, Q.Consume, ThreadsInv, WakeInv;
    Q.ConsumeKeepsMembers(s.q);
    var s' := DequeueStep(s);
    forall u | u in s'.tasks ensures TaskInv(s', u) { assert TaskInv(s, u); }
  }

  lemma DequeueKeepsThreads(s: State)
    requires Inv(s) && Enabled(s, EDequeue)
    ensures ThreadsInv(DequeueStep(s))
  {
    hide Q.Inv, Q.Consume, TasksInv;
    Q.ConsumeKeepsMembers(s.q);
    var s' := DequeueStep(s);
    forall v | v in s'.threads ensures ThreadInv(s', v) { assert ThreadInv(s, v); }
    forall t | t in s'.q.inflight && t != Q.STUB ensures exists v :: Enqueues(s', v, t) {
      var v :| Enqueues(s, v, t);
      assert Enqueues(s', v, t);
    }
    forall v, u, t | Enqueues(s', v, t) && Enqueues(s', u, t) ensures v == u {
      assert Enqueues(s, v, t) && Enqueues(s, u, t);
    }
  }

  /** `Empty` leaves a live task behind only if a thread is still enqueueing one. */
  lemma DequeueKeepsWake(s: State)
    requires Inv(s) && Enabled(s, EDequeue)
    ensures WakeInv(DequeueStep(s))
  {
    hide Q.Inv, Q.Consume, TasksInv;
    Q.ConsumeKeepsMembers(s.q);
    var s' := DequeueStep(s);
    if WaitedInQueue(s') {
      Q.ConsumeKeepsInv(s.q);
      assert Q.Consume(s.q).1.Empty?;
      EmptyLeavesAProducer(s);
    }
    OwnerKeepsWake(s, s');
  }

  lemma EmptyLeavesAProducer(s: State)
    requires Inv(s) && Enabled(s, EDequeue) && Q.Consume(s.q).1.Empty? && WaitedInQueue(DequeueStep(s))
    ensures SomeoneWillWake(s)
  {
    hide Q.Inv, Q.Consume;
    Q.EmptyAnswer(s.q);
    var s' := DequeueStep(s);
    var u :| u in s'.waited && u in s'.tasks && s'.tasks[u].alive && InQueue(s', u);
    assert TaskInv(s, u);
    var t := if s.q.chain == [Q.STUB] then u else s.q.chain[1];
    assert t in s.q.inflight && t != Q.STUB;
    var v :| Enqueues(s, v, t);
    assert s.threads[v].wakes;
  }

  // -------------------------------------------------------------------- any run

  lemma ApplyKeepsInv(s: State, e: Event)
    requires Inv(s) && Enabled(s, e)
    ensures Inv(Apply(s, e))
  {
    hide Inv;
    match e
    case EUpgrade(w, t) => UpgradeKeepsInv(s, w, t);
    case EMark(w) => MarkKeepsInv(s, w);
    case ESwap(w) => SwapKeepsInv(s, w);
    case EEnqueue(w) => EnqueueKeepsInv(s, w);
    case ETakeWaker(w) => TakeWakerKeepsInv(s, w);
    case ECallParent(w) => CallParentKeepsInv(s, w);
    case EPush(w, t) => PushKeepsInv(s, w, t);
    case EStartPoll => StartPollKeepsInv(s);
    case EDequeue => DequeueKeepsInv(s);
    case ETake => TakeKeepsInv(s);
    case EResetWoken => ResetKeepsInv(s);
    case EChildPending => ChildPendingKeepsInv(s);
    case EChildReady => ChildReadyKeepsInv(s);
    case EWakeSelf => WakeSelfKeepsInv(s);
    case EDropStart => DropKeepsInv(s, false);
    case EDropOne(t) => DropOneKeepsInv(s, t);
    case EDropEnd => DropKeepsInv(s, true);
  }

  ghost predicate IsRun(run: seq<State>, events: seq<Event>) {
    && |run| == |events| + 1
    && run[0] == NEW
    && forall i :: 0 <= i < |events| ==> Enabled(run[i], events[i]) && run[i + 1] == Apply(run[i], events[i])
  }

  lemma {:induction false} EveryStateInv(run: seq<State>, events: seq<Event>, n: nat)
    requires IsRun(run, events) && n < |run|
    ensures Inv(run[n])
  {
    if n == 0 {
      NewInv();
    } else {
      EveryStateInv(run, events, n - 1);
      hide Inv;
      ApplyKeepsInv(run[n - 1], events[n - 1]);
    }
  }

  // ------------------------------------------------------------- main theorems

  /** Single ownership, in every state of every run: the set's reference to a task is
      held by exactly one of the list, the poll in progress and (for a released task)
      the ready queue, or was given up exactly once; and a task is in the ready queue
      at most once, counting the enqueue in flight. */
  lemma SingleOwnership(run: seq<State>, events: seq<Event>, n: nat, t: Tid)
    requires IsRun(run, events) && n < |run| && t in run[n].tasks
    ensures Holders(run[n], t) == 1
    ensures t in run[n].dropped ==> !run[n].tasks[t].alive
    ensures t in run[n].released ==> !run[n].tasks[t].alive && InQueue(run[n], t)
    ensures forall i, j :: 0 <= i < j < |run[n].q.chain| ==> run[n].q.chain[i] != run[n].q.chain[j]
    ensures run[n].owner.Got? && run[n].owner.task == t ==> t !in run[n].q.chain && t !in run[n].q.inflight
  {
    EveryStateInv(run, events, n);
    assert TaskInv(run[n], t);
  }

  /** The assertions of the source hold in every run: a task taken for polling had its
      `queued` flag set and was linked, one that is only cleaned up had been unlinked,
      one that is released by a poll is unlinked, and a wake that wins the flag finds
      the task nowhere in the queue. */
  lemma AssertionsHold(run: seq<State>, events: seq<Event>, n: nat)
    requires IsRun(run, events) && n < |events|
    ensures events[n].ETake? ==>
      var k := run[n].tasks[run[n].owner.task];
      k.queued && (k.alive <==> run[n].owner.task in run[n].list)
    ensures events[n].EChildReady? ==> run[n].owner.task !in run[n].list
    ensures events[n].ESwap? ==>
      var t := Pc(run[n], events[n].w).task;
      !run[n].tasks[t].queued ==> Q.CanBegin(run[n].q, t) && run[n].tasks[t].alive
  {
    EveryStateInv(run, events, n);
    if events[n].ETake? { TakeKeepsTasks(run[n]); }
    if events[n].EChildReady? { assert TaskInv(run[n], run[n].owner.task); }
    if events[n].ESwap? { assert TaskInv(run[n], Pc(run[n], events[n].w).task); }
  }

  /** A live task that was pushed or whose waker fired, and whose flag has not been cleared
      since, is in the ready queue, or being enqueued by a thread, or in the owner's hands
      about to be polled. */
  lemma WakesReachTheQueue(run: seq<State>, events: seq<Event>, n: nat, t: Tid)
    requires IsRun(run, events) && n < |run|
    requires t in run[n].tasks && run[n].tasks[t].alive && (t in run[n].fired || run[n].tasks[t].queued)
    ensures var s := run[n];
            || t in s.q.chain
            || (exists w :: Enqueues(s, w, t))
            || (s.owner.Got? && s.owner.task == t)
  {
    EveryStateInv(run, events, n);
    assert TaskInv(run[n], t);
  }

  /** A pushed task is in the ready queue, or on its way in, until the owner takes it. */
  lemma PushReachesTheQueue(run: seq<State>, events: seq<Event>, i: nat, n: nat, w: Tidx, t: Tid)
    requires IsRun(run, events) && i < n < |run| && events[i] == EPush(w, t)
    requires forall k :: i < k < n ==> !Takes(run[k], events[k], t)
    ensures t in run[n].tasks && (run[n].tasks[t].alive ==> InQueue(run[n], t))
  {
    assert Enabled(run[i], events[i]) && run[i + 1] == Apply(run[i], events[i]);
    QueuedUntilTaken(run, events, i + 1, n, t);
    EveryStateInv(run, events, n);
    assert TaskInv(run[n], t);
  }

  /** The owner takes the task to poll it. */
  predicate Takes(s: State, e: Event, t: Tid) {
    e.ETake? && s.owner.Got? && s.owner.task == t
  }

  lemma {:induction false} QueuedUntilTaken(run: seq<State>, events: seq<Event>, i: nat, n: nat, t: Tid)
    requires IsRun(run, events) && i <= n < |run| && t in run[i].tasks && run[i].tasks[t].queued
    requires forall k :: i <= k < n ==> !Takes(run[k], events[k], t)
    ensures t in run[n].tasks && run[n].tasks[t].queued
    decreases n - i
  {
    if i < n {
      QueuedUntilTaken(run, events, i, n - 1, t);
      hide Apply, Enabled, Takes;
      QueuedStays(run[n - 1], events[n - 1], t);
    }
  }

  lemma QueuedStays(s: State, e: Event, t: Tid)
    requires Enabled(s, e) && t in s.tasks && s.tasks[t].queued && !Takes(s, e, t)
    ensures t in Apply(s, e).tasks && Apply(s, e).tasks[t].queued
  {
    hide Apply, Enabled, Takes;
    if IsOwnerEvent(e) { OwnerLeavesQueued(s, e, t); } else { OthersLeaveQueued(s, e, t); }
  }

  lemma OwnerLeavesQueued(s: State, e: Event, t: Tid)
    requires Enabled(s, e) && IsOwnerEvent(e) && t in s.tasks && s.tasks[t].queued && !Takes(s, e, t)
    ensures t in Apply(s, e).tasks && Apply(s, e).tasks[t].queued
  {
    hide Q.Consume, Q.CanConsume;
  }

  lemma OthersLeaveQueued(s: State, e: Event, t: Tid)
    requires Enabled(s, e) && !IsOwnerEvent(e) && t in s.tasks && s.tasks[t].queued
    ensures t in Apply(s, e).tasks && Apply(s, e).tasks[t].queued
  {
    hide Q.Advance, Q.Begin;
  }

  /** A wake of a task of a set that is still there is not dropped: once the thread has
      done its swap, the task is in the ready queue or on its way in until the owner takes
      it. */
  lemma WakeReachesTheQueue(run: seq<State>, events: seq<Event>, i: nat, k: nat, n: nat, w: Tidx, t: Tid)
    requires IsRun(run, events) && i < k < n < |run|
    requires events[i] == EUpgrade(w, t) && !run[i].owner.Gone? && events[k] == ESwap(w)
    requires forall j :: i < j < k ==> events[j] != ESwap(w)
    requires forall j :: k < j < n ==> !Takes(run[j], events[j], t)
    ensures t in run[k + 1].fired
    ensures t in run[n].tasks && (run[n].tasks[t].alive ==> InQueue(run[n], t))
  {
    WakeStage(run, events, i, k, w, t);
    SwapQueues(run[k], w);
    QueuedUntilTaken(run, events, k + 1, n, t);
    EveryStateInv(run, events, n);
    assert TaskInv(run[n], t);
  }

  lemma SwapQueues(s: State, w: Tidx)
    requires Enabled(s, ESwap(w))
    ensures var s', t := Apply(s, ESwap(w)), Pc(s, w).task; t in s'.fired && t in s'.tasks && s'.tasks[t].queued
  {
  }

  lemma {:induction false} WakeStage(run: seq<State>, events: seq<Event>, i: nat, j: nat, w: Tidx, t: Tid)
    requires IsRun(run, events) && i < j < |run|
    requires events[i] == EUpgrade(w, t) && !run[i].owner.Gone?
    requires forall k :: i < k < j ==> events[k] != ESwap(w)
    ensures Pc(run[j], w) == Upgraded(t) || Pc(run[j], w) == Marked(t)
    decreases j - i
  {
    hide Apply, Enabled;
    if i + 1 == j {
      UpgradeStep(run[i], w, t);
    } else {
      WakeStage(run, events, i, j - 1, w, t);
      WakeStageStep(run[j - 1], events[j - 1], w, t);
    }
  }

  lemma UpgradeStep(s: State, w: Tidx, t: Tid)
    requires Enabled(s, EUpgrade(w, t)) && !s.owner.Gone?
    ensures Pc(Apply(s, EUpgrade(w, t)), w) == Upgraded(t)
  {
  }

  lemma WakeStageStep(s: State, e: Event, w: Tidx, t: Tid)
    requires Enabled(s, e) && e != ESwap(w) && (Pc(s, w) == Upgraded(t) || Pc(s, w) == Marked(t))
    ensures Pc(Apply(s, e), w) == Upgraded(t) || Pc(Apply(s, e), w) == Marked(t)
  {
    hide Q.Advance, Q.Begin, Q.Consume;
  }

  /** A task is found woken after its poll exactly if some thread has marked it since the
      flag was reset. */
  lemma {:induction false} WokenSinceReset(run: seq<State>, events: seq<Event>, i: nat, n: nat, t: Tid)
    requires IsRun(run, events) && i < n < |run|
    requires Resets(run[i], events[i], t) && forall k :: i < k < n ==> !Resets(run[k], events[k], t)
    ensures t in run[n].tasks
    ensures run[n].tasks[t].woken <==> exists k :: i < k < n && Marks(run[k], events[k], t)
    decreases n - i
  {
    hide Apply, Enabled, Resets, Marks;
    if i + 1 == n {
      ResetStep(run[i], events[i], t);
    } else {
      WokenSinceReset(run, events, i, n - 1, t);
      WokenStep(run[n - 1], events[n - 1], t);
    }
  }

  /** The owner is about to poll the task and resets its flag; a thread sets it. */
  predicate Resets(s: State, e: Event, t: Tid) {
    e.EResetWoken? && s.owner.Resetting? && s.owner.task == t
  }

  predicate Marks(s: State, e: Event, t: Tid) {
    e.EMark? && Pc(s, e.w).Upgraded? && Pc(s, e.w).task == t
  }

  lemma ResetStep(s: State, e: Event, t: Tid)
    requires Enabled(s, e) && Resets(s, e, t)
    ensures t in Apply(s, e).tasks && !Apply(s, e).tasks[t].woken
  {
  }

  lemma WokenStep(s: State, e: Event, t: Tid)
    requires Enabled(s, e) && t in s.tasks && !Resets(s, e, t)
    ensures t in Apply(s, e).tasks
    ensures Apply(s, e).tasks[t].woken <==> s.tasks[t].woken || Marks(s, e, t)
  {
    hide Apply, Enabled, Resets, Marks;
    if IsOwnerEvent(e) { OwnerLeavesWoken(s, e, t); } else { OthersMark(s, e, t); }
  }

  lemma OwnerLeavesWoken(s: State, e: Event, t: Tid)
    requires Enabled(s, e) && IsOwnerEvent(e) && t in s.tasks && !Resets(s, e, t)
    ensures t in Apply(s, e).tasks && Apply(s, e).tasks[t].woken == s.tasks[t].woken && !Marks(s, e, t)
  {
    hide Q.Consume, Q.CanConsume;
  }

  lemma OthersMark(s: State, e: Event, t: Tid)
    requires Enabled(s, e) && !IsOwnerEvent(e) && t in s.tasks
    ensures t in Apply(s, e).tasks && (Apply(s, e).tasks[t].woken <==> s.tasks[t].woken || Marks(s, e, t))
  {
    hide Q.Advance, Q.Begin;
  }

  lemma PendingIsCovered(s: State)
    requires Inv(s) && s.owner == Idle(Pending) && LiveInQueue(s)
    ensures s.notified || SomeoneHolds(s) || (s.registered && SomeoneWillWake(s))
  {
    hide Q.Inv, ThreadsInv, DomainInv, OwnerInv;
    var t :| t in s.tasks && s.tasks[t].alive && InQueue(s, t);
    assert TaskInv(s, t) && t in s.waited;
  }

  lemma LiveIsListed(s: State)
    requires Inv(s) && s.owner.Idle? && LiveInQueue(s)
    ensures s.list != {} && s.owner != Idle(Ended)
  {
    hide Q.Inv, ThreadsInv, DomainInv, WakeInv;
    var t :| t in s.tasks && s.tasks[t].alive && InQueue(s, t);
    assert TaskInv(s, t);
  }

  /** Once a poll has answered `Pending`, and for as long as the set is not polled again,
      whatever is pushed meanwhile: a task that was in the set then, is still alive and
      has been woken implies that the waker of that very poll has been called, or that a
      thread has taken it and is about to call it, or that it is still registered and a
      thread is on its way to take it. */
  lemma PendingWakesTheCaller(run: seq<State>, events: seq<Event>, i: nat, n: nat, t: Tid)
    requires IsRun(run, events) && i <= n < |run| && run[i].owner == Idle(Pending) && t in run[i].list
    requires forall k :: i <= k < n ==> !events[k].EStartPoll?
    requires t in run[n].tasks && run[n].tasks[t].alive && (t in run[n].fired || InQueue(run[n], t))
    ensures var s := run[n];
            && s.polls == run[i].polls
            && (s.notified || SomeoneHolds(s) || (s.registered && SomeoneWillWake(s)))
  {
    EveryStateInv(run, events, n);
    WaitedStays(run, events, i, n);
    WaitedIsCovered(run[n], t);
  }

  lemma WaitedIsCovered(s: State, t: Tid)
    requires Inv(s) && t in s.waited && t in s.tasks && s.tasks[t].alive && (t in s.fired || InQueue(s, t))
    ensures s.notified || SomeoneHolds(s) || (s.registered && SomeoneWillWake(s))
  {
    assert TaskInv(s, t) && InQueue(s, t);
    hide Q.Inv, TasksInv, ThreadsInv, DomainInv, OwnerInv;
  }

  /** Until the next poll the caller waits for the tasks the set held when it answered. */
  lemma {:induction false} WaitedStays(run: seq<State>, events: seq<Event>, i: nat, n: nat)
    requires IsRun(run, events) && i <= n < |run| && run[i].owner == Idle(Pending)
    requires forall k :: i <= k < n ==> !events[k].EStartPoll?
    ensures run[n].waited == run[i].list && run[n].polls == run[i].polls && !InPoll(run[n])
    decreases n - i
  {
    if i == n {
      EveryStateInv(run, events, i);
      hide TasksInv, ThreadsInv, Q.Inv;
    } else {
      WaitedStays(run, events, i, n - 1);
      hide Inv;
      NoPollKeepsWaited(run[n - 1], events[n - 1]);
    }
  }

  lemma NoPollKeepsWaited(s: State, e: Event)
    requires Enabled(s, e) && !InPoll(s) && !e.EStartPoll?
    ensures var s' := Apply(s, e); s'.waited == s.waited && s'.polls == s.polls && !InPoll(s')
  {
    hide Q.Advance, Q.Begin, Q.Consume;
  }

  /** `poll_next` answers that the set has ended only when no future is left. */
  lemma EndedMeansEmpty(run: seq<State>, events: seq<Event>, n: nat, t: Tid)
    requires IsRun(run, events) && n < |events|
    requires run[n + 1].owner == Idle(Ended) && events[n].EDequeue? && t in run[n + 1].tasks
    ensures !run[n + 1].tasks[t].alive
  {
    EveryStateInv(run, events, n + 1);
    assert TaskInv(run[n + 1], t);
  }

  // -------------------------------------------------------- budget, termination

  /** A bound on the steps the owner can still take before `poll_next` returns. */
  function Measure(s: State): nat {
    match s.owner
    case Dequeuing(l) => Work(l, s.released) + 10 + Q.Rank(s.q)
    case Got(_, l) => Work(l, s.released) + 9
    case Resetting(_, l) => Work(l, s.released) + 8
    case Polling(_, l) => Work(l, s.released) + 7
    case SelfWake => 1
    case _ => 0
  }

  /** Child polls left in the budget, and released tasks still to be cleaned up. */
  function Work(l: Loop, released: set<Tid>): nat {
    20 * ((if l.polled < l.len then l.len - l.polled else 0) + |released|)
  }

  /** No step of another thread adds to the owner's work: a released task is never
      enqueued again, and re-enqueued live tasks are covered by the budget. */
  lemma OthersKeepMeasure(s: State, e: Event)
    requires Inv(s) && Enabled(s, e) && !IsOwnerEvent(e) && InPoll(s)
    ensures Measure(Apply(s, e)) == Measure(s)
  {
    hide Q.Inv, TasksInv, WakeInv;
    match e
    case EEnqueue(w) =>
      assert ThreadInv(s, w);
      Q.AdvanceKeepsRank(s.q, Pc(s, w).task);
    case ESwap(w) => SwapKeepsMeasure(s, w);
    case _ =>
  }

  lemma SwapKeepsMeasure(s: State, w: Tidx)
    requires Inv(s) && Enabled(s, ESwap(w)) && InPoll(s)
    ensures Measure(SwapQueued(s, w)) == Measure(s)
  {
    hide Q.Inv, TasksInv, WakeInv, ThreadsInv;
    FlagsOfTask(s, Pc(s, w).task);
  }

  lemma DequeueLowersMeasure(s: State)
    requires Inv(s) && Enabled(s, EDequeue)
    ensures Measure(DequeueStep(s)) < Measure(s)
  {
    hide Q.Inv, Q.Consume, TasksInv, ThreadsInv, WakeInv, DomainInv;
    Q.ConsumeLowersRank(s.q);
  }

  lemma TakeLowersMeasure(s: State)
    requires Inv(s) && Enabled(s, ETake)
    ensures Measure(Take(s)) < Measure(s)
  {
    hide Q.Inv, ThreadsInv, WakeInv, DomainInv;
    assert TaskInv(s, s.owner.task);
    assert s.q.consumer.Idle?;
    if !s.tasks[s.owner.task].alive { assert |s.released - {s.owner.task}| == |s.released| - 1; }
  }

  lemma OwnerLowersMeasure(s: State, e: Event)
    requires Inv(s) && Enabled(s, e) && IsOwnerEvent(e) && InPoll(s)
    ensures Measure(Apply(s, e)) < Measure(s)
    ensures InPoll(Apply(s, e)) || Apply(s, e).owner.Idle?
  {
    hide Q.Inv, Q.Consume, TasksInv, ThreadsInv, WakeInv, DomainInv;
    if e.EDequeue? { DequeueLowersMeasure(s); }
    if e.ETake? { TakeLowersMeasure(s); }
  }

  function Count(events: seq<Event>, i: nat, j: nat, p: Event -> bool): nat
    requires i <= j <= |events|
    decreases j - i
  {
    if i == j then 0 else Count(events, i, j - 1, p) + if p(events[j - 1]) then 1 else 0
  }

  lemma StepKeepsMeasure(s: State, e: Event)
    requires Inv(s) && Enabled(s, e) && InPoll(s)
    ensures Measure(Apply(s, e)) + (if IsOwnerEvent(e) then 1 else 0) <= Measure(s)
  {
    hide Inv, Measure, InPoll, Enabled, Apply;
    if IsOwnerEvent(e) { OwnerLowersMeasure(s, e); } else { OthersKeepMeasure(s, e); }
  }

  /** Termination: within one call the owner takes at most Measure-many steps, however
      the other threads interleave and re-enqueue tasks. */
  lemma {:induction false} PollTerminates(run: seq<State>, events: seq<Event>, i: nat, j: nat)
    requires IsRun(run, events) && i <= j <= |events|
    requires forall k :: i <= k < j ==> InPoll(run[k])
    ensures Count(events, i, j, IsOwnerEvent) + Measure(run[j]) <= Measure(run[i])
    decreases j - i
  {
    if i < j {
      hide Inv, Measure, InPoll, Enabled, Apply, IsOwnerEvent;
      PollTerminates(run, events, i, j - 1);
      EveryStateInv(run, events, j - 1);
      var s, e := run[j - 1], events[j - 1];
      StepKeepsMeasure(s, e);
    }
  }

  predicate IsChildPoll(e: Event) {
    e.EChildPending? || e.EChildReady?
  }

  /** What the loop's own counter says about the polls since the call began. */
  ghost predicate Counted(s: State, len: nat, polls: nat) {
    && polls <= len
    && match s.owner
       case Dequeuing(l) => l.polled == polls && l.len == len
       case Got(_, l) => l.polled == polls && l.len == len
       case Resetting(_, l) => l.polled == polls && l.len == len
       case Polling(_, l) => l.polled == polls && l.len == len
       case _ => true
  }

  lemma StepKeepsCount(s: State, e: Event, len: nat, polls: nat)
    requires Inv(s) && Enabled(s, e) && InPoll(s) && Counted(s, len, polls)
    ensures Counted(Apply(s, e), len, polls + if IsChildPoll(e) then 1 else 0)
  {
    hide Q.Inv, Q.Consume, Q.Advance, TasksInv, ThreadsInv, WakeInv, DomainInv;
  }

  /** Budget: one `poll_next` call polls at most as many child futures as the set held
      when the call began. */
  lemma {:induction false} PollBudget(run: seq<State>, events: seq<Event>, i: nat, j: nat)
    requires IsRun(run, events) && i < j <= |events| && events[i].EStartPoll?
    requires forall k :: i < k < j ==> InPoll(run[k])
    ensures Count(events, i, j, IsChildPoll) <= |run[i].list|
    ensures Counted(run[j], |run[i].list|, Count(events, i, j, IsChildPoll))
    decreases j - i
  {
    hide Inv, Counted, InPoll, Apply;
    if i + 1 == j {
      StartCounted(run[i]);
      assert Count(events, i, i, IsChildPoll) == 0;
    } else {
      PollBudget(run, events, i, j - 1);
      EveryStateInv(run, events, j - 1);
      StepKeepsCount(run[j - 1], events[j - 1], |run[i].list|, Count(events, i, j - 1, IsChildPoll));
      CountedBound(run[j], |run[i].list|, Count(events, i, j, IsChildPoll));
    }
  }

  lemma StartCounted(s: State)
    requires Enabled(s, EStartPoll)
    ensures Counted(Apply(s, EStartPoll), |s.list|, 0)
  {
  }

  lemma CountedBound(s: State, len: nat, polls: nat)
    requires Counted(s, len, polls)
    ensures polls <= len
  {
  }

  /** A child that was woken while it was being polled. */
  predicate Yields(s: State, e: Event) {
    e.EChildPending? && s.owner.Polling? && s.owner.task in s.tasks && s.tasks[s.owner.task].woken
  }

  function YieldCount(run: seq<State>, events: seq<Event>, i: nat, j: nat): nat
    requires i <= j <= |events| <= |run|
    decreases j - i
  {
    if i == j then 0 else YieldCount(run, events, i, j - 1) + if Yields(run[j - 1], events[j - 1]) then 1 else 0
  }

  ghost predicate YieldsCounted(s: State, woken: nat) {
    match s.owner
    case Dequeuing(l) => l.yielded == woken < 2
    case Got(_, l) => l.yielded == woken < 2
    case Resetting(_, l) => l.yielded == woken < 2
    case Polling(_, l) => l.yielded == woken < 2
    case _ => woken <= 2
  }

  lemma StepKeepsYields(s: State, e: Event, woken: nat)
    requires Inv(s) && Enabled(s, e) && InPoll(s) && YieldsCounted(s, woken)
    ensures YieldsCounted(Apply(s, e), woken + if Yields(s, e) then 1 else 0)
  {
    hide Q.Inv, Q.Consume, Q.Advance, TasksInv, ThreadsInv, WakeInv, DomainInv;
  }

  lemma StartYields(s: State)
    requires Enabled(s, EStartPoll)
    ensures !Yields(s, EStartPoll) && YieldsCounted(Apply(s, EStartPoll), 0)
  {
  }

  lemma YieldBound(s: State, woken: nat)
    ensures YieldsCounted(s, woken) ==> woken <= 2 && (s.owner.Dequeuing? || s.owner.Polling? ==> woken < 2)
  {
  }

  /** Cooperation: in one `poll_next` call at most two child polls end with the child
      having been woken meanwhile, and the call goes on only while fewer than two did. */
  lemma {:induction false} YieldBudget(run: seq<State>, events: seq<Event>, i: nat, j: nat)
    requires IsRun(run, events) && i < j <= |events| && events[i].EStartPoll?
    requires forall k :: i < k < j ==> InPoll(run[k])
    ensures YieldCount(run, events, i, j) <= 2
    ensures run[j].owner.Dequeuing? || run[j].owner.Polling? ==> YieldCount(run, events, i, j) < 2
    ensures YieldsCounted(run[j], YieldCount(run, events, i, j))
    decreases j - i
  {
    hide Inv, YieldsCounted, InPoll, Apply, Yields;
    YieldBound(run[j], YieldCount(run, events, i, j));
    if i + 1 == j {
      StartYields(run[i]);
      assert YieldCount(run, events, i, i) == 0;
    } else {
      YieldBudget(run, events, i, j - 1);
      EveryStateInv(run, events, j - 1);
      StepKeepsYields(run[j - 1], events[j - 1], YieldCount(run, events, i, j - 1));
    }
  }

  // ----------------------------------------------------------- polls of an empty set

  /** A step of `dequeue` that answers `Inconsistent`. */
  ghost predicate FindsInconsistent(s: State, e: Event) {
    e.EDequeue? && Q.CanConsume(s.q) && Q.Consume(s.q).1.Inconsistent?
  }

  ghost predicate EmptyStage(s: State, found: bool) {
    s.list == {} &&
    match s.owner
    case Dequeuing(_) => !found
    case Got(t, _) => !found && t in s.tasks && !s.tasks[t].alive
    case SelfWake => found
    case Idle(last) => if found then last.Pending? else last.Ended?
    case _ => false
  }

  lemma EmptyStageStep(s: State, e: Event, found: bool)
    requires Inv(s) && Enabled(s, e) && InPoll(s) && EmptyStage(s, found)
    ensures EmptyStage(Apply(s, e), found || FindsInconsistent(s, e))
    ensures FindsInconsistent(s, e) ==> |s.q.chain| >= 2 && Q.SuccessorIsLate(s.q)
  {
    hide Inv, EmptyStage, FindsInconsistent, InPoll, Enabled;
    match e
    case EDequeue => EmptyDequeue(s, found);
    case _ => EmptyOtherwise(s, e, found);
  }

  lemma EmptyOtherwise(s: State, e: Event, found: bool)
    requires Enabled(s, e) && !e.EDequeue? && InPoll(s) && EmptyStage(s, found)
    ensures EmptyStage(Apply(s, e), found) && !FindsInconsistent(s, e)
  {
    hide Q.Advance, Q.Begin, Q.Consume;
  }

  lemma EmptyDequeue(s: State, found: bool)
    requires Inv(s) && Enabled(s, EDequeue) && EmptyStage(s, found)
    ensures EmptyStage(DequeueStep(s), found || FindsInconsistent(s, EDequeue))
    ensures FindsInconsistent(s, EDequeue) ==> |s.q.chain| >= 2 && Q.SuccessorIsLate(s.q)
  {
    hide Q.Inv, Q.Consume, ThreadsInv, WakeInv, TasksInv;
    if Q.Consume(s.q).1.Inconsistent? { Q.InconsistentMeaning(s.q); }
    if Q.Consume(s.q).1.Data? { DequeuedIsDead(s); }
  }

  /** With no future left, whatever comes out of the queue was released before. */
  lemma DequeuedIsDead(s: State)
    requires Inv(s) && Enabled(s, EDequeue) && s.list == {} && Q.Consume(s.q).1.Data?
    ensures var t := Q.Consume(s.q).1.task; t in s.tasks && !s.tasks[t].alive
  {
    hide Q.Inv, Q.Consume, ThreadsInv, WakeInv;
    Q.ConsumeKeepsMembers(s.q);
    assert TaskInv(s, Q.Consume(s.q).1.task);
  }

  ghost predicate Found(run: seq<State>, events: seq<Event>, i: nat, j: nat)
    requires j <= |events| <= |run|
  {
    exists k :: i < k < j && FindsInconsistent(run[k], events[k])
  }

  lemma {:induction false} EmptyStages(run: seq<State>, events: seq<Event>, i: nat, j: nat)
    requires IsRun(run, events) && i < j <= |events| && events[i].EStartPoll? && run[i].list == {}
    requires forall k :: i < k < j ==> InPoll(run[k])
    ensures EmptyStage(run[j], Found(run, events, i, j))
    ensures forall k :: i < k < j && FindsInconsistent(run[k], events[k]) ==>
      |run[k].q.chain| >= 2 && Q.SuccessorIsLate(run[k].q)
    decreases j - i
  {
    hide Inv, InPoll, FindsInconsistent, EmptyStage, Apply;
    if i + 1 == j {
      EmptyStart(run[i]);
    } else {
      EmptyStages(run, events, i, j - 1);
      EveryStateInv(run, events, j - 1);
      EmptyStageStep(run[j - 1], events[j - 1], Found(run, events, i, j - 1));
      assert Found(run, events, i, j) <==> Found(run, events, i, j - 1) || FindsInconsistent(run[j - 1], events[j - 1]);
    }
  }

  lemma EmptyStart(s: State)
    requires Enabled(s, EStartPoll) && s.list == {}
    ensures EmptyStage(Apply(s, EStartPoll), false)
  {
  }

  /** What a poll of an empty set answers: that the set has ended, unless `dequeue` met a
      task whose successor's link had not been stored when the consumer read it; then,
      and only then, it is `Pending`. */
  lemma EmptySetAnswers(run: seq<State>, events: seq<Event>, i: nat, j: nat)
    requires IsRun(run, events) && i < j <= |events| && events[i].EStartPoll? && run[i].list == {}
    requires (forall k :: i < k < j ==> InPoll(run[k])) && run[j].owner.Idle?
    ensures run[j].owner == Idle(Pending) <==> Found(run, events, i, j)
    ensures run[j].owner == Idle(Ended) <==> !Found(run, events, i, j)
    ensures forall k :: i < k < j && FindsInconsistent(run[k], events[k]) ==>
      |run[k].q.chain| >= 2 && Q.SuccessorIsLate(run[k].q)
  {
    hide FindsInconsistent, InPoll, IsRun;
    assert |run| == |events| + 1 by { RunLength(run, events); }
    EmptyStages(run, events, i, j);
  }

  lemma RunLength(run: seq<State>, events: seq<Event>)
    requires IsRun(run, events)
    ensures |run| == |events| + 1
  {
  }

  /** With no enqueue in flight when the poll begins, an empty set answers that it has
      ended, whatever the other threads do: none of its tasks can be enqueued again. */
  lemma QuietEmptySetEnds(run: seq<State>, events: seq<Event>, i: nat, j: nat)
    requires IsRun(run, events) && i < j <= |events| && events[i].EStartPoll? && run[i].list == {}
    requires (forall k :: i < k < j ==> InPoll(run[k])) && run[j].owner.Idle?
    requires run[i].q.inflight == map[]
    ensures run[j].owner == Idle(Ended)
  {
    hide FindsInconsistent, InPoll, EmptyAndQuiet;
    EmptySetAnswers(run, events, i, j);
    forall k | i < k < j ensures !FindsInconsistent(run[k], events[k]) {
      StaysQuiet(run, events, i, k);
      EveryStateInv(run, events, k);
      QuietFinds(run[k], events[k]);
    }
  }

  lemma QuietFinds(s: State, e: Event)
    requires Inv(s) && EmptyAndQuiet(s)
    ensures !FindsInconsistent(s, e)
  {
    Q.NoProducerNoInconsistent(s.q);
  }

  /** The set has no future left and nobody is enqueueing one of its tasks. */
  ghost predicate EmptyAndQuiet(s: State) {
    s.list == {} && !s.owner.Resetting? && !s.owner.Polling? && Q.NoProducer(s.q)
  }

  lemma {:induction false} StaysQuiet(run: seq<State>, events: seq<Event>, i: nat, j: nat)
    requires IsRun(run, events) && i < j <= |events| && events[i].EStartPoll? && run[i].list == {}
    requires run[i].q.inflight == map[] && forall k :: i < k < j ==> InPoll(run[k])
    ensures EmptyAndQuiet(run[j])
    decreases j - i
  {
    hide Inv, EmptyAndQuiet, Apply, InPoll;
    if i + 1 == j {
      EveryStateInv(run, events, i);
      QuietStart(run[i]);
    } else {
      StaysQuiet(run, events, i, j - 1);
      EveryStateInv(run, events, j - 1);
      PollExcludesPush(run[j - 1], events[j - 1]);
      QuietStep(run[j - 1], events[j - 1]);
    }
  }

  lemma QuietStart(s: State)
    requires Inv(s) && Enabled(s, EStartPoll) && s.list == {} && s.q.inflight == map[]
    ensures EmptyAndQuiet(Apply(s, EStartPoll))
  {
  }

  lemma PollExcludesPush(s: State, e: Event)
    requires Enabled(s, e) && InPoll(s)
    ensures !e.EPush?
  {
  }

  /** No wake can win the flag of a task of an empty set. */
  lemma QuietStep(s: State, e: Event)
    requires Inv(s) && Enabled(s, e) && EmptyAndQuiet(s) && !e.EPush?
    ensures EmptyAndQuiet(Apply(s, e))
  {
    hide Inv, EmptyAndQuiet, Enabled, Apply;
    match e
    case EDequeue => QuietDequeue(s);
    case EEnqueue(w) => NoProducerEnqueues(s, w); QuietMeans(s);
    case _ => QuietOtherwise(s, e);
  }

  lemma QuietMeans(s: State)
    requires EmptyAndQuiet(s)
    ensures Q.NoProducer(s.q)
  {
  }

  lemma QuietDequeue(s: State)
    requires Inv(s) && Enabled(s, EDequeue) && EmptyAndQuiet(s)
    ensures EmptyAndQuiet(Apply(s, EDequeue))
  {
    hide Q.Inv, Q.Consume, Q.NoProducer, TasksInv, ThreadsInv, WakeInv;
    Q.NoProducerNoInconsistent(s.q);
  }

  lemma QuietOtherwise(s: State, e: Event)
    requires Inv(s) && Enabled(s, e) && EmptyAndQuiet(s) && !e.EPush? && !e.EDequeue? && !e.EEnqueue?
    ensures EmptyAndQuiet(Apply(s, e))
  {
    hide Q.Inv, Q.Consume, Q.Advance, ThreadsInv, WakeInv;
    match e
    case ETake => TakeKeepsTasks(s);
    case ESwap(w) => assert TaskInv(s, Pc(s, w).task);
    case _ =>
  }

  lemma NoProducerEnqueues(s: State, w: Tidx)
    requires Inv(s) && Enabled(s, EEnqueue(w))
    ensures !Q.NoProducer(s.q)
  {
    assert ThreadInv(s, w);
  }

  // ------------------------------------------------------------------- teardown

  /** When the set is gone and every thread has finished its wake, the queue is quiet
      and holds exactly the released tasks: draining it (ReadyQueue.DrainsCompletely)
      gives up each of their references once, and none still has a future. */
  lemma TeardownFreesTheReleased(run: seq<State>, events: seq<Event>, n: nat, t: Tid)
    requires IsRun(run, events) && n < |run| && run[n].owner.Gone?
    requires forall w :: w in run[n].threads ==> run[n].threads[w].Off?
    requires t in run[n].tasks
    ensures Q.Quiet(run[n].q)
    ensures !run[n].tasks[t].alive
    ensures t in Q.Drain(run[n].q).0 <==> t in run[n].released
    ensures t in Q.Drain(run[n].q).0 <==> t !in run[n].dropped
    ensures Q.Drain(run[n].q).1.Empty?
  {
    var s := run[n];
    EveryStateInv(run, events, n);
    assert TaskInv(s, t);
    NoThreadNoProducer(s);
    Q.DrainsCompletely(s.q);
    Q.TasksMembers(s.q.chain, t);
  }

  lemma NoThreadNoProducer(s: State)
    requires Inv(s) && s.owner.Gone? && forall w :: w in s.threads ==> s.threads[w].Off?
    ensures Q.Quiet(s.q)
  {
    forall t ensures t !in s.q.inflight {
      assert forall w :: !Enqueues(s, w, t);
    }
  }
}
