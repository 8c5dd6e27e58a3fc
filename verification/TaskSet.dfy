/** The set of futures as a concurrent machine: one owner that polls (or drops) the
    set, and any number of threads that wake tasks or push futures.  Every shared
    access is one step, so all interleavings are runs of this machine.

    The ready queue is the machine of module ReadyQueue; the linked list of all
    tasks is a set here (modules AllList and ConcurrentLink treat its links). */
module TaskSet {
  import Q = ReadyQueue

  type Tid = Q.Node
  type Tidx = nat

  datatype Task = Task(alive: bool, queued: bool, woken: bool)

  /** Where a thread stands in `wake_by_ref` or in `push`.  A thread that holds a caller's
      waker has taken the one registered by the poll of that number. */
  datatype Thread =
    | Off
    | Upgraded(task: Tid)
    | Marked(task: Tid)
    | Enqueueing(task: Tid, wakes: bool)
    | Waking
    | Holding(poll: nat)

  /** The locals of `poll_next`. */
  datatype Loop = Loop(len: nat, polled: nat, yielded: nat)

  datatype Last = Fresh | Pending | Ended | Ready

  /** Where the owner stands. */
  datatype Owner =
    | Idle(last: Last)
    | Dequeuing(locals: Loop)
    | Got(task: Tid, locals: Loop)
    | Resetting(task: Tid, locals: Loop)
    | Polling(task: Tid, locals: Loop)
    | SelfWake
    | Dropping
    | Gone

  /** `list` is the set of linked tasks.  `released` are the tasks whose reference
      the ready queue owns, `dropped` counts how often the set's reference to a task
      was given up, `fired` are the tasks woken since their flag was last cleared.
      `polls` numbers the polls, each of which registers the waker of its own caller;
      `registered` says that the atomic waker holds it, `notified` that the waker of the
      latest poll has been called.  `waited` are the tasks that were in the set when the
      latest poll answered `Pending`: whoever polled is waiting for them. */
  datatype State = State(
    q: Q.Queue,
    tasks: map<Tid, Task>,
    list: set<Tid>,
    released: set<Tid>,
    dropped: multiset<Tid>,
    fired: set<Tid>,
    threads: map<Tidx, Thread>,
    owner: Owner,
    polls: nat,
    registered: bool,
    notified: bool,
    waited: set<Tid>)

  const NEW: State :=
    State(Q.NEW, map[], {}, {}, multiset{}, {}, map[], Idle(Fresh), 0, false, false, {})

  function Pc(s: State, w: Tidx): Thread {
    if w in s.threads then s.threads[w] else Off
  }

  function SetPc(s: State, w: Tidx, p: Thread): State {
    s.(threads := s.threads[w := p])
  }

  function SetTask(s: State, t: Tid, k: Task): State {
    s.(tasks := s.tasks[t := k])
  }

  // ------------------------------------------------------- steps of the threads

  /** The queue is kept alive by the set and by every thread inside a wake. */
  ghost predicate Strong(s: State) {
    !s.owner.Gone? || exists w :: w in s.threads && !s.threads[w].Off?
  }

  ghost function Upgrade(s: State, w: Tidx, t: Tid): State {
    if Strong(s) then SetPc(s, w, Upgraded(t)) else s
  }

  ghost function MarkWoken(s: State, w: Tidx): State
    requires Pc(s, w).Upgraded? && Pc(s, w).task in s.tasks
  {
    var t := Pc(s, w).task;
    SetPc(SetTask(s, t, s.tasks[t].(woken := true)), w, Marked(t))
  }

  ghost function SwapQueued(s: State, w: Tidx): State
    requires Pc(s, w).Marked? && Pc(s, w).task in s.tasks
  {
    var t := Pc(s, w).task;
    var s' := s.(fired := s.fired + {t});
    if s.tasks[t].queued then SetPc(s', w, Off)
    else SetPc(SetTask(s'.(q := Q.Begin(s.q, t)), t, s.tasks[t].(queued := true)), w, Enqueueing(t, true))
  }

  ghost function EnqueueStep(s: State, w: Tidx): State
    requires Pc(s, w).Enqueueing? && Pc(s, w).task in s.q.inflight
  {
    var t := Pc(s, w).task;
    var s' := s.(q := Q.Advance(s.q, t));
    if t in s'.q.inflight then s' else SetPc(s', w, if Pc(s, w).wakes then Waking else Off)
  }

  ghost function TakeWaker(s: State, w: Tidx): State {
    SetPc(s.(registered := false), w, if s.registered then Holding(s.polls) else Off)
  }

  /** The waker of an earlier poll is none of the latest caller's. */
  ghost function CallParent(s: State, w: Tidx): State
    requires Pc(s, w).Holding?
  {
    SetPc(s.(notified := s.notified || Pc(s, w).poll == s.polls), w, Off)
  }

  ghost function Push(s: State, w: Tidx, t: Tid): State {
    SetPc(SetTask(s.(q := Q.Begin(s.q, t), list := s.list + {t}, owner := Idle(Fresh)), t, Task(true, true, false)),
          w, Enqueueing(t, false))
  }

  // --------------------------------------------------------- steps of the owner

  ghost function StartPoll(s: State): State {
    s.(owner := Dequeuing(Loop(|s.list|, 0, 0)), polls := s.polls + 1,
       registered := true, notified := false, waited := {})
  }

  ghost function DequeueStep(s: State): State
    requires s.owner.Dequeuing? && Q.CanConsume(s.q)
  {
    var (q', o) := Q.Consume(s.q);
    s.(q := q',
       owner := match o
                case Running => s.owner
                case Empty => Idle(if s.list == {} then Ended else Pending)
                case Inconsistent => SelfWake
                case Data(t) => Got(t, s.owner.locals),
       waited := if o.Empty? then s.list else s.waited)
  }

  /** A dequeued task without a future is only cleaned up; a live one is unlinked
      and its `queued` flag cleared. */
  ghost function Take(s: State): State
    requires s.owner.Got? && s.owner.task in s.tasks
  {
    var t := s.owner.task;
    if !s.tasks[t].alive then
      s.(released := s.released - {t}, dropped := s.dropped + multiset{t}, owner := Dequeuing(s.owner.locals))
    else
      SetTask(s.(list := s.list - {t}, fired := s.fired - {t}, owner := Resetting(t, s.owner.locals)),
              t, s.tasks[t].(queued := false))
  }

  ghost function ResetWoken(s: State): State
    requires s.owner.Resetting? && s.owner.task in s.tasks
  {
    var t := s.owner.task;
    SetTask(s.(owner := Polling(t, s.owner.locals)), t, s.tasks[t].(woken := false))
  }

  ghost function ChildPending(s: State): State
    requires s.owner.Polling? && s.owner.task in s.tasks
  {
    var t, l := s.owner.task, s.owner.locals;
    var l' := Loop(l.len, l.polled + 1, l.yielded + if s.tasks[t].woken then 1 else 0);
    s.(list := s.list + {t}, owner := if l'.yielded >= 2 || l'.polled == l'.len then SelfWake else Dequeuing(l'))
  }

  /** `release_task`. */
  ghost function Release(s: State, t: Tid): State
    requires t in s.tasks
  {
    var s' := SetTask(s, t, s.tasks[t].(alive := false, queued := true));
    if s.tasks[t].queued then s'.(released := s.released + {t})
    else s'.(dropped := s.dropped + multiset{t})
  }

  ghost function ChildReady(s: State): State
    requires s.owner.Polling? && s.owner.task in s.tasks
  {
    Release(s, s.owner.task).(owner := Idle(Ready))
  }

  ghost function WakeSelf(s: State): State {
    s.(notified := true, owner := Idle(Pending), waited := s.list)
  }

  ghost function DropOne(s: State, t: Tid): State
    requires t in s.tasks
  {
    Release(s.(list := s.list - {t}), t)
  }

  // --------------------------------------------------------------------- events

  datatype Event =
    | EUpgrade(w: Tidx, t: Tid)
    | EMark(w: Tidx)
    | ESwap(w: Tidx)
    | EEnqueue(w: Tidx)
    | ETakeWaker(w: Tidx)
    | ECallParent(w: Tidx)
    | EPush(w: Tidx, t: Tid)
    | EStartPoll
    | EDequeue
    | ETake
    | EResetWoken
    | EChildPending
    | EChildReady
    | EWakeSelf
    | EDropStart
    | EDropOne(t: Tid)
    | EDropEnd

  predicate IsOwnerEvent(e: Event) {
    !(e.EUpgrade? || e.EMark? || e.ESwap? || e.EEnqueue? || e.ETakeWaker? || e.ECallParent? || e.EPush?)
  }

  ghost predicate NobodyPushes(s: State) {
    forall w :: w in s.threads && s.threads[w].Enqueueing? ==> s.threads[w].wakes
  }

  ghost predicate Enabled(s: State, e: Event) {
    match e
    case EUpgrade(w, t) => Pc(s, w).Off? && t in s.tasks
    case EMark(w) => Pc(s, w).Upgraded? && Pc(s, w).task in s.tasks
    case ESwap(w) => Pc(s, w).Marked? && Pc(s, w).task in s.tasks
    case EEnqueue(w) => Pc(s, w).Enqueueing? && Pc(s, w).task in s.q.inflight
    case ETakeWaker(w) => Pc(s, w).Waking?
    case ECallParent(w) => Pc(s, w).Holding?
    case EPush(w, t) => Pc(s, w).Off? && s.owner.Idle? && t !in s.tasks && t != Q.STUB
    case EStartPoll => s.owner.Idle? && NobodyPushes(s)
    case EDequeue => s.owner.Dequeuing? && Q.CanConsume(s.q)
    case ETake => s.owner.Got? && s.owner.task in s.tasks
    case EResetWoken => s.owner.Resetting? && s.owner.task in s.tasks
    case EChildPending => s.owner.Polling? && s.owner.task in s.tasks
    case EChildReady => s.owner.Polling? && s.owner.task in s.tasks
    case EWakeSelf => s.owner.SelfWake?
    case EDropStart => s.owner.Idle? && NobodyPushes(s)
    case EDropOne(t) => s.owner.Dropping? && t in s.list && t in s.tasks
    case EDropEnd => s.owner.Dropping? && s.list == {}
  }

  ghost function Apply(s: State, e: Event): State
    requires Enabled(s, e)
  {
    match e
    case EUpgrade(w, t) => Upgrade(s, w, t)
    case EMark(w) => MarkWoken(s, w)
    case ESwap(w) => SwapQueued(s, w)
    case EEnqueue(w) => EnqueueStep(s, w)
    case ETakeWaker(w) => TakeWaker(s, w)
    case ECallParent(w) => CallParent(s, w)
    case EPush(w, t) => Push(s, w, t)
    case EStartPoll => StartPoll(s)
    case EDequeue => DequeueStep(s)
    case ETake => Take(s)
    case EResetWoken => ResetWoken(s)
    case EChildPending => ChildPending(s)
    case EChildReady => ChildReady(s)
    case EWakeSelf => WakeSelf(s)
    case EDropStart => s.(owner := Dropping)
    case EDropOne(t) => DropOne(s, t)
    case EDropEnd => s.(owner := Gone)
  }

  // ------------------------------------------------------------------ invariant

  /** The task is in the ready queue, on its way in, or just taken out of it. */
  ghost predicate InQueue(s: State, t: Tid) {
    t in s.q.chain || t in s.q.inflight || (s.owner.Got? && s.owner.task == t)
  }

  ghost predicate Carried(s: State, t: Tid) {
    (s.owner.Resetting? || s.owner.Polling?) && s.owner.task == t
  }

  /** Who holds the set's own reference to the task. */
  ghost function Holders(s: State, t: Tid): nat {
    (if t in s.list then 1 else 0) + (if Carried(s, t) then 1 else 0)
    + (if t in s.released then 1 else 0) + s.dropped[t]
  }

  ghost predicate TaskInv(s: State, t: Tid)
    requires t in s.tasks
  {
    var k := s.tasks[t];
    && t != Q.STUB
    && (InQueue(s, t) ==> k.queued)
    && (k.alive && k.queued ==> InQueue(s, t))
    && (t in s.fired ==> k.queued)
    && Holders(s, t) == 1
    && (k.alive <==> t in s.list || Carried(s, t))
    && (!k.alive ==> k.queued && (t in s.released <==> InQueue(s, t)))
  }

  ghost predicate TasksInv(s: State) {
    forall t :: t in s.tasks ==> TaskInv(s, t)
  }

  /** Only known tasks appear anywhere. */
  ghost predicate DomainInv(s: State) {
    && s.list <= s.tasks.Keys && s.waited <= s.tasks.Keys
    && (forall t :: (t in s.released || t in s.dropped || t in s.fired) ==> t in s.tasks)
    && (forall t :: (t in s.q.chain || t in s.q.inflight) && t != Q.STUB ==> t in s.tasks)
  }

  ghost predicate OwnerInv(s: State) {
    && (!s.owner.Dequeuing? ==> s.q.consumer.Idle?)
    && (s.owner.Got? || s.owner.Resetting? || s.owner.Polling? ==> s.owner.task in s.tasks)
    && (s.owner.Got? ==> Q.CanBegin(s.q, s.owner.task))
    && (s.owner.Gone? || s.owner == Idle(Ended) ==> s.list == {})
  }

  ghost predicate ThreadInv(s: State, w: Tidx)
    requires w in s.threads
  {
    match s.threads[w]
    case Upgraded(t) => t in s.tasks
    case Marked(t) => t in s.tasks
    case Enqueueing(t, wakes) => t in s.q.inflight && t != Q.STUB && (!wakes ==> s.owner.Idle?)
    case _ => true
  }

  ghost predicate Enqueues(s: State, w: Tidx, t: Tid) {
    w in s.threads && s.threads[w].Enqueueing? && s.threads[w].task == t
  }

  /** Every in-flight task is enqueued by exactly one thread. */
  ghost predicate ThreadsInv(s: State) {
    && (forall w :: w in s.threads ==> ThreadInv(s, w))
    && (forall t :: t in s.q.inflight && t != Q.STUB ==> exists w :: Enqueues(s, w, t))
    && (forall v, w, t :: Enqueues(s, v, t) && Enqueues(s, w, t) ==> v == w)
  }

  /** Some thread is about to call the waker of the latest poll. */
  ghost predicate SomeoneHolds(s: State) {
    exists w :: w in s.threads && s.threads[w] == Holding(s.polls)
  }

  /** Some thread has enqueued, or is enqueueing, and will then wake the caller. */
  ghost predicate SomeoneWillWake(s: State) {
    exists w :: w in s.threads && (s.threads[w].Waking? || (s.threads[w].Enqueueing? && s.threads[w].wakes))
  }

  ghost predicate LiveInQueue(s: State) {
    exists t :: t in s.tasks && s.tasks[t].alive && InQueue(s, t)
  }

  /** A task that the latest caller waits for is ready. */
  ghost predicate WaitedInQueue(s: State) {
    exists t :: t in s.waited && t in s.tasks && s.tasks[t].alive && InQueue(s, t)
  }

  ghost predicate InPoll(s: State) {
    !s.owner.Idle? && !s.owner.Dropping? && !s.owner.Gone?
  }

  ghost predicate WakeInv(s: State) {
    && (s.polls > 0 ==> s.registered || s.notified || SomeoneHolds(s))
    && (InPoll(s) || s.waited != {} ==> s.polls > 0)
    && (InPoll(s) ==> s.waited == {})
    && (s.owner == Idle(Pending) ==> s.waited == s.list && s.polls > 0)
    && (WaitedInQueue(s) ==> s.notified || SomeoneHolds(s) || SomeoneWillWake(s))
    && (!s.owner.Idle? ==> NobodyPushes(s))
  }

  /** The length at entry bounds the child polls of one `poll_next` call. */
  ghost predicate LoopInv(s: State) {
    match s.owner
    case Dequeuing(l) => |s.list| == l.len && (l.polled < l.len || l.len == 0)
    case Got(_, l) => |s.list| == l.len && (l.polled < l.len || l.len == 0)
    case Resetting(_, l) => |s.list| + 1 == l.len && l.polled < l.len
    case Polling(_, l) => |s.list| + 1 == l.len && l.polled < l.len
    case _ => true
  }

  ghost predicate Inv(s: State) {
    Q.Inv(s.q) && TasksInv(s) && DomainInv(s) && OwnerInv(s) && ThreadsInv(s) && WakeInv(s) && LoopInv(s)
  }
}
