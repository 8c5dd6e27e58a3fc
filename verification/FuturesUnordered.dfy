/** `FuturesUnordered::poll_next` with the source's own control flow, over the machine
    of module TaskSet: each method below is one step of that machine on the fields of
    the set, and between any two steps the other threads interfere. */
module FuturesUnordered {
  import opened Types
  import Q = ReadyQueue
  import T = TaskSet
  import P = TaskSetProofs

  /** What a future comes to, if its script says so: the first output in it. */
  function Comes<O>(script: seq<Poll<O>>): Option<O> {
    if script == [] then None else if script[0].Ready? then Some(script[0].value) else Comes(script[1..])
  }

  /** The `j`-th answer of a script, and what is left of it after `n` answers. */
  function AnswerAt<O>(script: seq<Poll<O>>, j: nat): Poll<O> {
    if j < |script| then script[j] else Pending
  }

  function After<O>(script: seq<Poll<O>>, n: nat): seq<Poll<O>> {
    if n <= |script| then script[n..] else []
  }

  /** A poll of the future of a task, its answer, and whether the task was woken in it. */
  datatype ChildPoll<+O> = ChildPoll(task: T.Tid, answer: Poll<O>, woken: bool)

  /** What the polls did to the futures of a set: the poll takes the next answer. */
  ghost predicate Polled<O>(before: map<T.Tid, seq<Poll<O>>>, p: ChildPoll<O>, after: map<T.Tid, seq<Poll<O>>>) {
    && p.task in before && p.answer == AnswerAt(before[p.task], 0)
    && after == if p.answer.Ready? then before - {p.task} else before[p.task := After(before[p.task], 1)]
  }

  /** What a task's future has answered, in order. */
  function AnswersOf<O>(log: seq<ChildPoll<O>>, t: T.Tid): seq<Poll<O>> {
    if log == [] then []
    else
      var last := |log| - 1;
      AnswersOf(log[..last], t) + if log[last].task == t then [log[last].answer] else []
  }

  function Yields<O>(log: seq<ChildPoll<O>>): nat {
    if log == [] then 0
    else
      var last := |log| - 1;
      Yields(log[..last]) + if log[last].answer.Pending? && log[last].woken then 1 else 0
  }

  /** The answers are the first ones of the script, each given once. */
  ghost predicate Plays<O>(script: seq<Poll<O>>, answers: seq<Poll<O>>) {
    forall j :: 0 <= j < |answers| ==> answers[j] == AnswerAt(script, j)
  }

  ghost predicate AllPlay<O>(before: map<T.Tid, seq<Poll<O>>>, log: seq<ChildPoll<O>>, after: map<T.Tid, seq<Poll<O>>>,
                             ts: set<T.Tid>) {
    forall t :: t in ts ==>
      && t in before && t in after
      && Plays(before[t], AnswersOf(log, t)) && after[t] == After(before[t], |AnswersOf(log, t)|)
  }

  /** The polls of one call: all were pending, but for the last if the call has an output,
      which is that of the last. */
  ghost predicate AnsweredWith<O>(log: seq<ChildPoll<O>>, output: Option<O>) {
    match output
    case None => forall i :: 0 <= i < |log| ==> log[i].answer.Pending?
    case Some(o) =>
      && |log| > 0 && log[|log| - 1].answer == Ready(o)
      && forall i :: 0 <= i < |log| - 1 ==> log[i].answer.Pending?
  }

  ghost predicate Answered<O>(log: seq<ChildPoll<O>>, output: Option<(T.Tid, O)>) {
    match output
    case None => AnsweredWith(log, None)
    case Some((t, o)) => AnsweredWith(log, Some(o)) && log[|log| - 1].task == t
  }

  /** The futures come to what they came to before. */
  ghost predicate SameOutputs<O>(before: map<T.Tid, seq<Poll<O>>>, after: map<T.Tid, seq<Poll<O>>>, ts: set<T.Tid>) {
    forall t :: t in ts ==> t in before && t in after && Comes(after[t]) == Comes(before[t])
  }

  lemma PendingKeepsOutput<O>(script: seq<Poll<O>>, n: nat)
    requires forall j :: 0 <= j < n ==> AnswerAt(script, j).Pending?
    ensures Comes(After(script, n)) == Comes(script)
    decreases n
  {
    if n > 0 && script != [] {
      assert AnswerAt(script, 0).Pending?;
      forall j | 0 <= j < n - 1 ensures AnswerAt(script[1..], j).Pending? {
        assert AnswerAt(script, j + 1).Pending?;
      }
      PendingKeepsOutput(script[1..], n - 1);
      assert After(script, n) == After(script[1..], n - 1);
    }
  }

  lemma {:induction false} AnswersPending<O>(log: seq<ChildPoll<O>>, t: T.Tid)
    requires forall i :: 0 <= i < |log| && log[i].task == t ==> log[i].answer.Pending?
    ensures forall j :: 0 <= j < |AnswersOf(log, t)| ==> AnswersOf(log, t)[j].Pending?
    decreases |log|
  {
    if log != [] {
      AnswersPending(log[..|log| - 1], t);
    }
  }

  /** A call gives the first output its task's future comes to, and leaves the others
      theirs. */
  lemma CallKeepsOutputs<O>(before: map<T.Tid, seq<Poll<O>>>, log: seq<ChildPoll<O>>, after: map<T.Tid, seq<Poll<O>>>,
                            ts: set<T.Tid>, output: Option<(T.Tid, O)>)
    requires AllPlay(before, log, after, ts) && Answered(log, output)
    requires output.Some? ==>
      output.value.0 !in ts && output.value.0 in before && Plays(before[output.value.0], AnswersOf(log, output.value.0))
    ensures SameOutputs(before, after, ts)
    ensures output.Some? ==> Comes(before[output.value.0]) == Some(output.value.1)
  {
    hide AnswersOf;
    forall t | t in ts ensures t in before && t in after && Comes(after[t]) == Comes(before[t]) {
      AnswersPending(log, t);
      PendingKeepsOutput(before[t], |AnswersOf(log, t)|);
    }
    if output.Some? {
      LastAnswerIsOutput(before[output.value.0], log, output.value.0, output.value.1);
    }
  }

  lemma LastAnswerIsOutput<O>(script: seq<Poll<O>>, log: seq<ChildPoll<O>>, t: T.Tid, o: O)
    requires Answered(log, Some((t, o))) && Plays(script, AnswersOf(log, t))
    ensures Comes(script) == Some(o)
  {
    var rest := log[..|log| - 1];
    AnswersPending(rest, t);
    AppendLog(rest, log[|log| - 1]);
    assert rest + [log[|log| - 1]] == log;
    hide AnswersOf;
    var n := |AnswersOf(rest, t)|;
    assert forall j :: 0 <= j < n ==> AnswersOf(log, t)[j] == AnswersOf(rest, t)[j];
    PendingKeepsOutput(script, n);
    assert AnswersOf(log, t)[n] == Ready(o) == AnswerAt(script, n);
  }

  lemma AppendLog<O>(log: seq<ChildPoll<O>>, p: ChildPoll<O>)
    ensures forall t :: AnswersOf(log + [p], t) == AnswersOf(log, t) + if p.task == t then [p.answer] else []
    ensures Yields(log + [p]) == Yields(log) + if p.answer.Pending? && p.woken then 1 else 0
  {
    assert (log + [p])[..|log|] == log;
  }

  /** One more poll plays on. */
  lemma PlayOn<O>(before: map<T.Tid, seq<Poll<O>>>, log: seq<ChildPoll<O>>, mid: map<T.Tid, seq<Poll<O>>>,
                  p: ChildPoll<O>, after: map<T.Tid, seq<Poll<O>>>, ts: set<T.Tid>)
    requires AllPlay(before, log, mid, ts) && p.task in ts && Polled(mid, p, after)
    ensures Plays(before[p.task], AnswersOf(log + [p], p.task))
    ensures AllPlay(before, log + [p], after, if p.answer.Ready? then ts - {p.task} else ts)
  {
    AppendLog(log, p);
    hide AnswersOf;
  }

  predicate HasOutput<T>(r: Answer<T>) {
    r.Ready? && r.value.Some?
  }

  /** One future of the list was polled, and its output, if any, is the answer. */
  ghost predicate OnePoll<O>(list: set<T.Tid>, before: map<T.Tid, seq<Poll<O>>>, log: seq<ChildPoll<O>>, yielded: nat,
                             after: map<T.Tid, seq<Poll<O>>>, log': seq<ChildPoll<O>>, yielded': nat,
                             r: Option<Answer<(T.Tid, O)>>) {
    && |log'| == |log| + 1 && log'[..|log|] == log
    && var p := log'[|log|];
       && p.task in list && Polled(before, p, after)
       && yielded' == (yielded + if p.answer.Pending? && p.woken then 1 else 0)
       && match p.answer
          case Ready(output) => r == Some(Ready(Some((p.task, output))))
          case Pending => r.None? || r == Some(Pending)
  }

  /** The polls of one call so far: `output` is the one with which it ends. */
  ghost predicate Played<O>(list: set<T.Tid>, before: map<T.Tid, seq<Poll<O>>>, log: seq<ChildPoll<O>>,
                            after: map<T.Tid, seq<Poll<O>>>, yielded: nat, output: Option<(T.Tid, O)>) {
    && (forall p :: p in log ==> p.task in list)
    && yielded == Yields(log)
    && Answered(log, output)
    && AllPlay(before, log, after, if output.Some? then list - {output.value.0} else list)
    && (output.Some? ==> output.value.0 in before && Plays(before[output.value.0], AnswersOf(log, output.value.0)))
  }

  function OutputOf<T>(r: Option<Answer<T>>): Option<T> {
    if r.Some? && HasOutput(r.value) then r.value.value else None
  }

  lemma NothingPlayed<O>(list: set<T.Tid>, futures: map<T.Tid, seq<Poll<O>>>)
    requires list <= futures.Keys
    ensures Played(list, futures, [], futures, 0, None)
  {
  }

  lemma OnePollPlays<O>(list: set<T.Tid>, before: map<T.Tid, seq<Poll<O>>>, start: nat,
                        mid: map<T.Tid, seq<Poll<O>>>, log: seq<ChildPoll<O>>, yielded: nat,
                        after: map<T.Tid, seq<Poll<O>>>, log': seq<ChildPoll<O>>, yielded': nat,
                        r: Option<Answer<(T.Tid, O)>>)
    requires start <= |log| && Played(list, before, log[start..], mid, yielded, None)
    requires OnePoll(list, mid, log, yielded, after, log', yielded', r)
    ensures |log'| == |log| + 1 && log'[..start] == log[..start]
    ensures Played(list, before, log'[start..], after, yielded', OutputOf(r))
  {
    OnePollMeans(list, mid, log, yielded, after, log', yielded', r);
    hide AllPlay, Plays, Polled, AnswersOf, Yields, Answered, OnePoll;
    var since, p := log[start..], log'[|log|];
    assert log'[start..] == since + [p];
    PlayOn(before, since, mid, p, after, list);
    AppendLog(since, p);
    AnsweredOn(since, p);
  }

  lemma AnsweredOn<O>(log: seq<ChildPoll<O>>, p: ChildPoll<O>)
    requires Answered(log, None)
    ensures Answered(log + [p], if p.answer.Ready? then Some((p.task, p.answer.value)) else None)
  {
  }

  lemma OnePollMeans<O>(list: set<T.Tid>, before: map<T.Tid, seq<Poll<O>>>, log: seq<ChildPoll<O>>, yielded: nat,
                        after: map<T.Tid, seq<Poll<O>>>, log': seq<ChildPoll<O>>, yielded': nat,
                        r: Option<Answer<(T.Tid, O)>>)
    requires OnePoll(list, before, log, yielded, after, log', yielded', r)
    ensures |log'| == |log| + 1 && log'[..|log|] == log
    ensures var p := log'[|log|];
            && p.task in list && Polled(before, p, after) && p.task in before
            && yielded' == (yielded + if p.answer.Pending? && p.woken then 1 else 0)
            && OutputOf(r) == if p.answer.Ready? then Some((p.task, p.answer.value)) else None
  {
  }

  // ------------------------------------------------------------------ interference

  /** No other thread than `me` is inside a push. */
  ghost predicate OnlyPusher(s: T.State, me: Option<T.Tidx>) {
    forall w :: w in s.threads && s.threads[w].Enqueueing? && me != Some(w) ==> s.threads[w].wakes
  }

  /** Thread `w` and the enqueue it is in have not moved. */
  ghost predicate Stands(a: T.State, b: T.State, w: T.Tidx) {
    && T.Pc(b, w) == T.Pc(a, w)
    && (T.Pc(a, w).Enqueueing? && T.Pc(a, w).task in a.q.inflight ==>
          T.Pc(a, w).task in b.q.inflight && b.q.inflight[T.Pc(a, w).task] == a.q.inflight[T.Pc(a, w).task])
  }

  /** What the wakes of other threads may do while the owner, or the thread `me` that
      pushes, stands still. */
  ghost predicate Rely(a: T.State, b: T.State, me: Option<T.Tidx>) {
    && b.owner == a.owner && b.list == a.list && b.released == a.released && b.dropped == a.dropped
    && b.polls == a.polls && b.waited == a.waited
    && b.tasks.Keys == a.tasks.Keys
    && (forall t :: t in a.tasks ==> b.tasks[t].alive == a.tasks[t].alive && (a.tasks[t].queued ==> b.tasks[t].queued))
    && (a.notified ==> b.notified)
    && P.Measure(b) == P.Measure(a)
    && (P.EmptyAndQuiet(a) ==> P.EmptyAndQuiet(b))
    && (OnlyPusher(a, me) ==> OnlyPusher(b, me))
    && (me.Some? ==> Stands(a, b, me.value))
  }

  lemma OthersObeyRely(s: T.State, e: T.Event, me: Option<T.Tidx>)
    requires T.Inv(s) && T.Enabled(s, e) && !T.IsOwnerEvent(e) && !e.EPush? && me != Some(e.w)
    ensures Rely(s, T.Apply(s, e), me) && T.Inv(T.Apply(s, e))
  {
    hide T.Inv, T.Enabled, T.Apply, T.InPoll, OnlyPusher, P.Measure, P.EmptyAndQuiet, Stands;
    P.ApplyKeepsInv(s, e);
    OthersKeepTheRest(s, e);
    OnlyPusherStays(s, e, me);
    if T.InPoll(s) { P.OthersKeepMeasure(s, e); } else { NoMeasure(s, T.Apply(s, e)); }
    if P.EmptyAndQuiet(s) { P.QuietStep(s, e); }
    if me.Some? { OthersLetStand(s, e, me.value); }
  }

  lemma OthersKeepTheRest(s: T.State, e: T.Event)
    requires T.Enabled(s, e) && !T.IsOwnerEvent(e) && !e.EPush?
    ensures var s' := T.Apply(s, e);
            && s'.owner == s.owner && s'.list == s.list && s'.released == s.released && s'.dropped == s.dropped
            && s'.polls == s.polls && s'.waited == s.waited && s'.tasks.Keys == s.tasks.Keys
            && (forall t :: t in s.tasks ==>
                  s'.tasks[t].alive == s.tasks[t].alive && (s.tasks[t].queued ==> s'.tasks[t].queued))
            && (s.notified ==> s'.notified)
  {
    hide Q.Advance, Q.Begin;
  }

  lemma OnlyPusherStays(s: T.State, e: T.Event, me: Option<T.Tidx>)
    requires T.Enabled(s, e) && !T.IsOwnerEvent(e) && !e.EPush?
    ensures OnlyPusher(s, me) ==> OnlyPusher(T.Apply(s, e), me)
  {
    hide Q.Advance, Q.Begin;
  }

  lemma NoMeasure(a: T.State, b: T.State)
    requires !T.InPoll(a) && b.owner == a.owner
    ensures P.Measure(b) == P.Measure(a)
  {
  }

  lemma OthersLetStand(s: T.State, e: T.Event, w: T.Tidx)
    requires T.Inv(s) && T.Enabled(s, e) && !T.IsOwnerEvent(e) && !e.EPush? && e.w != w
    ensures Stands(s, T.Apply(s, e), w)
  {
    match e
    case EEnqueue(v) => EnqueueLetsStand(s, v, w);
    case ESwap(v) => SwapLetsStand(s, v, w);
    case _ => hide T.Inv;
  }

  lemma EnqueueLetsStand(s: T.State, v: T.Tidx, w: T.Tidx)
    requires T.Inv(s) && T.Enabled(s, T.EEnqueue(v)) && v != w
    ensures Stands(s, T.EnqueueStep(s, v), w)
  {
    hide Q.Inv, T.TasksInv, T.WakeInv, T.DomainInv;
    if T.Pc(s, w).Enqueueing? { assert T.Enqueues(s, v, T.Pc(s, v).task) && T.Enqueues(s, w, T.Pc(s, w).task); }
  }

  lemma SwapLetsStand(s: T.State, v: T.Tidx, w: T.Tidx)
    requires T.Inv(s) && T.Enabled(s, T.ESwap(v)) && v != w
    ensures Stands(s, T.SwapQueued(s, v), w)
  {
    hide T.Inv;
    if T.Pc(s, w).Enqueueing? && T.Pc(s, w).task in s.q.inflight { SwapTakesAnother(s, v, T.Pc(s, w).task); }
  }

  /** A task in flight has its flag set. */
  lemma SwapTakesAnother(s: T.State, v: T.Tidx, t: T.Tid)
    requires T.Inv(s) && T.Enabled(s, T.ESwap(v)) && t in s.q.inflight
    ensures T.Pc(s, v).task == t ==> s.tasks[t].queued
  {
    assert T.TaskInv(s, T.Pc(s, v).task);
  }

  lemma RelyComposes(a: T.State, b: T.State, c: T.State, me: Option<T.Tidx>)
    requires Rely(a, b, me) && Rely(b, c, me)
    ensures Rely(a, c, me)
  {
    hide P.Measure, P.EmptyAndQuiet, OnlyPusher;
  }

  /** What every step within one poll keeps. */
  ghost predicate Within(a: T.State, b: T.State) {
    b.polls == a.polls && b.tasks.Keys == a.tasks.Keys && T.NobodyPushes(b)
  }

  lemma StepFacts(s: T.State, e: T.Event)
    requires T.Inv(s) && T.Enabled(s, e) && T.IsOwnerEvent(e) && T.InPoll(s)
    ensures var s' := T.Apply(s, e); T.Inv(s') && Within(s, s') && P.Measure(s') < P.Measure(s)
  {
    P.ApplyKeepsInv(s, e);
    P.OwnerLowersMeasure(s, e);
    OwnerStaysWithin(s, e);
  }

  lemma OwnerStaysWithin(s: T.State, e: T.Event)
    requires T.Inv(s) && T.Enabled(s, e) && T.IsOwnerEvent(e) && T.InPoll(s)
    ensures Within(s, T.Apply(s, e))
  {
    hide Q.Inv, Q.Consume, T.TasksInv, T.ThreadsInv, T.DomainInv;
  }

  lemma PushFacts(s: T.State, w: T.Tidx, t: T.Tid)
    requires T.Inv(s) && T.Enabled(s, T.EPush(w, t)) && T.NobodyPushes(s)
    ensures var s' := T.Push(s, w, t);
            && T.Inv(s') && OnlyPusher(s', Some(w)) && T.Pc(s', w) == T.Enqueueing(t, false)
            && t in s'.q.inflight && s'.q.inflight[t] == Q.StoreNull
  {
    hide T.Inv;
    P.ApplyKeepsInv(s, T.EPush(w, t));
  }

  lemma StartFacts(s: T.State)
    requires T.Inv(s) && s.owner.Idle? && T.NobodyPushes(s)
    ensures T.Inv(T.StartPoll(s)) && T.NobodyPushes(T.StartPoll(s))
    ensures s.list == {} && s.q.inflight == map[] ==> P.EmptyAndQuiet(T.StartPoll(s))
  {
    hide T.Inv, P.EmptyAndQuiet;
    P.ApplyKeepsInv(s, T.EStartPoll);
    if s.list == {} && s.q.inflight == map[] { P.QuietStart(s); }
  }

  lemma ConsumeFacts(s: T.State)
    requires T.Inv(s) && s.owner.Dequeuing?
    ensures T.Enabled(s, T.EDequeue)
    ensures var s', o := T.DequeueStep(s), Q.Consume(s.q).1;
            && T.Inv(s') && Within(s, s') && P.Measure(s') < P.Measure(s)
            && (P.EmptyAndQuiet(s) ==> P.EmptyAndQuiet(s') && !o.Inconsistent?)
            && (o.Inconsistent? ==> Q.HalfLinked(s'.q))
            && (o.Empty? ==> Q.FoundEmpty(s'.q))
  {
    Q.ConsumeKeepsInv(s.q);
    hide T.Inv, P.Measure, Within, Q.HalfLinked, Q.FoundEmpty, Q.Consume;
    StepFacts(s, T.EDequeue);
    Q.NothingHandedOut(s.q) by { QueueInv(s); }
    if P.EmptyAndQuiet(s) {
      P.QuietStep(s, T.EDequeue);
      Q.NoProducerNoInconsistent(s.q) by { QueueInv(s); }
    }
  }

  lemma QueueInv(s: T.State)
    requires T.Inv(s)
    ensures Q.Inv(s.q)
  {
  }

  /** Some thread is doing nothing. */
  lemma IdleThread(threads: map<T.Tidx, T.Thread>) returns (w: T.Tidx)
    ensures w !in threads
    decreases threads.Keys
  {
    if threads == map[] {
      w := 0;
    } else {
      w := Above(threads.Keys);
    }
  }

  lemma Above(ws: set<T.Tidx>) returns (w: T.Tidx)
    ensures forall v :: v in ws ==> v < w
  {
    w := 0;
    if ws != {} {
      var v :| v in ws;
      var w' := Above(ws - {v});
      w := if v < w' then w' else v + 1;
      forall u | u in ws ensures u < w { assert u != v ==> u in ws - {v}; }
    }
  }

  /** The tasks allocated so far. */
  ghost predicate Below(ts: set<T.Tid>, next: T.Tid) {
    next > 0 && forall t :: t in ts ==> t < next
  }

  lemma HalfLinkedIsNoStub(q: Q.Queue)
    ensures Q.HalfLinked(q) ==> q.tail != Q.STUB
    ensures Q.FoundEmpty(q) ==> q.tail == Q.STUB
  {
  }

  // ----------------------------------------------------------------------- the set

  class FuturesUnordered<O> {
    var queue: Q.Queue
    var tasks: map<T.Tid, T.Task>
    var list: set<T.Tid>
    var registered: bool
    var notified: bool
    /** What the future of each linked task still answers, and the next free task. */
    var futures: map<T.Tid, seq<Poll<O>>>
    var nextTask: T.Tid
    /** All polls of futures so far. */
    ghost var log: seq<ChildPoll<O>>
    ghost var released: set<T.Tid>
    ghost var dropped: multiset<T.Tid>
    ghost var fired: set<T.Tid>
    ghost var threads: map<T.Tidx, T.Thread>
    ghost var owner: T.Owner
    ghost var polls: nat
    ghost var waited: set<T.Tid>

    ghost function View(): T.State
      reads `queue, `tasks, `list, `registered, `notified, `released,
        `dropped, `fired, `threads, `owner, `polls, `waited
    {
      T.State(queue, tasks, list, released, dropped, fired, threads, owner, polls, registered, notified, waited)
    }

    /** The machine's invariant, with no push under way. */
    ghost predicate Safe()
      reads `queue, `tasks, `list, `registered, `notified, `released,
        `dropped, `fired, `threads, `owner, `polls, `waited
    {
      T.Inv(View()) && T.NobodyPushes(View())
    }

    ghost function Left(): nat
      reads `queue, `tasks, `list, `registered, `notified, `released,
        `dropped, `fired, `threads, `owner, `polls, `waited
    {
      P.Measure(View())
    }

    ghost predicate Quiet()
      reads `queue, `tasks, `list, `registered, `notified, `released,
        `dropped, `fired, `threads, `owner, `polls, `waited
    {
      P.EmptyAndQuiet(View())
    }

    /** Between calls. */
    ghost predicate Valid()
      reads this
    {
      && Safe() && owner.Idle?
      && list <= futures.Keys
      && Below(tasks.Keys, nextTask)
    }

    constructor ()
      ensures Valid() && View() == T.NEW && futures == map[]
    {
      queue, tasks, list, registered, notified := Q.NEW, map[], {}, false, false;
      futures, nextTask, log := map[], 1, [];
      released, dropped, fired, threads, owner, polls, waited := {}, multiset{}, {}, map[], T.Idle(T.Fresh), 0, {};
      new;
      P.NewInv();
    }

    /** Stands for any number of steps of the other threads (see OthersObeyRely and
        RelyComposes): a caller knows nothing more about the new state. */
    method Interfere(ghost me: Option<T.Tidx>)
      requires T.Inv(View())
      modifies this`queue, this`tasks, this`registered, this`notified, this`fired, this`threads
      ensures T.Inv(View()) && Rely(old(View()), View(), me)
    {
    }

    // ----------------------------------------------------------------------- push

    ghost predicate Pushing(w: T.Tidx, t: T.Tid)
      reads this
    {
      && T.Inv(View()) && owner == T.Idle(T.Fresh) && OnlyPusher(View(), Some(w))
      && T.Pc(View(), w) == T.Enqueueing(t, false) && t in queue.inflight
    }

    method LinkNew(t: T.Tid, ghost w: T.Tidx)
      requires Safe() && owner.Idle? && T.Pc(View(), w).Off? && t !in tasks && t != Q.STUB
      modifies this`queue, this`tasks, this`list, this`threads, this`owner
      ensures View() == T.Push(old(View()), w, t) && Pushing(w, t) && t in queue.inflight
      ensures queue.inflight[t] == Q.StoreNull
      ensures tasks == old(tasks)[t := T.Task(true, true, false)] && list == old(list) + {t} && owner == T.Idle(T.Fresh)
    {
      hide T.Inv, Q.Begin, OnlyPusher, T.NobodyPushes;
      PushFacts(View(), w, t);
      queue := Q.Begin(queue, t);
      list := list + {t};
      tasks := tasks[t := T.Task(true, true, false)];
      owner, threads := T.Idle(T.Fresh), threads[w := T.Enqueueing(t, false)];
    }

    /** One atomic step of `enqueue`. */
    method EnqueueStep(t: T.Tid, ghost w: T.Tidx)
      requires Pushing(w, t) && t in queue.inflight
      modifies this`queue, this`threads
      ensures View() == T.EnqueueStep(old(View()), w)
      ensures OnlyPusher(View(), Some(w))
      ensures !old(queue.inflight[t]).StoreLink? ==>
        && Pushing(w, t) && t in queue.inflight
        && queue.inflight[t].SwapHead? == old(queue.inflight[t]).StoreNull?
        && queue.inflight[t].StoreLink? == old(queue.inflight[t]).SwapHead?
      ensures old(queue.inflight[t]).StoreLink? ==> T.Pc(View(), w).Off?
      ensures T.Inv(View())
    {
      hide T.Inv;
      P.ApplyKeepsInv(View(), T.EEnqueue(w));
      ghost var s' := T.EnqueueStep(View(), w);
      queue := Q.Advance(queue, t);
      threads := s'.threads;
    }

    /** Other threads' steps, then one of the push. */
    method MoveOn(t: T.Tid, ghost w: T.Tidx)
      requires Pushing(w, t) && t in queue.inflight
      modifies this`queue, this`tasks, this`registered, this`notified, this`fired, this`threads
      ensures !old(queue.inflight[t]).StoreLink? ==>
        && Pushing(w, t) && t in queue.inflight
        && queue.inflight[t].SwapHead? == old(queue.inflight[t]).StoreNull?
        && queue.inflight[t].StoreLink? == old(queue.inflight[t]).SwapHead?
      ensures old(queue.inflight[t]).StoreLink? ==> Safe()
      ensures tasks.Keys == old(tasks.Keys)
      ensures t in tasks ==> tasks[t].alive == old(tasks)[t].alive && (old(tasks)[t].queued ==> tasks[t].queued)
      ensures old(notified) ==> notified
    {
      hide T.Inv, P.Measure, P.EmptyAndQuiet;
      Interfere(Some(w));
      EnqueueStep(t, w);
    }

    /** `enqueue` of the pushed task: three atomic steps. */
    method Enqueue(t: T.Tid, ghost w: T.Tidx)
      requires Pushing(w, t) && t in queue.inflight && queue.inflight[t].StoreNull?
      modifies this`queue, this`tasks, this`registered, this`notified, this`fired, this`threads
      ensures Safe()
      ensures tasks.Keys == old(tasks.Keys)
      ensures t in tasks ==> tasks[t].alive == old(tasks)[t].alive && (old(tasks)[t].queued ==> tasks[t].queued)
      ensures old(notified) ==> notified
    {
      hide Safe, Pushing;
      MoveOn(t, w);
      MoveOn(t, w);
      MoveOn(t, w);
    }

    lemma ListIsKnown()
      requires Safe()
      ensures list <= tasks.Keys
    {
    }

    lemma SomeIdleThread() returns (w: T.Tidx)
      ensures T.Pc(View(), w).Off?
    {
      w := IdleThread(threads);
    }

    lemma QueuedIsInQueue(t: T.Tid)
      requires Safe() && t in tasks && tasks[t].alive && tasks[t].queued
      ensures T.InQueue(View(), t)
    {
      P.FlagsOfTask(View(), t);
    }

    method Insert(t: T.Tid)
      requires Safe() && owner.Idle? && t !in tasks && t != Q.STUB
      modifies this`queue, this`tasks, this`list, this`registered, this`notified, this`fired, this`threads, this`owner
      ensures Safe() && owner == T.Idle(T.Fresh)
      ensures tasks.Keys == old(tasks.Keys) + {t} && tasks[t].alive && tasks[t].queued
      ensures list == old(list) + {t} && t !in old(list)
      ensures old(notified) ==> notified
    {
      hide View, Safe, Pushing, T.Push, T.Pc;
      ListIsKnown();
      ghost var w := SomeIdleThread();
      LinkNew(t, w);
      Enqueue(t, w);
    }

    /** `push`, by a caller that alone pushes. */
    method Push(script: seq<Poll<O>>) returns (t: T.Tid)
      requires Valid()
      modifies this
      ensures Valid() && owner == T.Idle(T.Fresh)
      ensures t !in old(tasks) && t in tasks && tasks[t].alive && tasks.Keys == old(tasks.Keys) + {t}
      ensures list == old(list) + {t} && t !in old(list)
      ensures futures == old(futures)[t := script] && log == old(log)
      ensures polls == old(polls) && waited == old(waited) && (old(notified) ==> notified)
      ensures T.InQueue(View(), t)
    {
      hide Safe, View, T.InQueue;
      t := nextTask;
      nextTask := nextTask + 1;
      futures := futures[t := script];
      Insert(t);
      QueuedIsInQueue(t);
    }

    // ------------------------------------------------------------------- poll_next

    /** The steps of the other threads as the owner sees them within a poll. */
    method OthersWake()
      requires Safe()
      modifies this`queue, this`tasks, this`registered, this`notified, this`fired, this`threads
      ensures Safe() && polls == old(polls) && tasks.Keys == old(tasks.Keys)
      ensures forall t :: t in old(tasks) ==> t in tasks && tasks[t].alive == old(tasks)[t].alive
      ensures Left() == old(Left())
      ensures old(Quiet()) ==> Quiet()
    {
      hide T.Inv, P.Measure, P.EmptyAndQuiet;
      Interfere(None);
    }

    method Register()
      requires Safe() && owner.Idle?
      modifies this`registered, this`notified, this`polls, this`waited, this`owner
      ensures Safe() && View() == T.StartPoll(old(View()))
      ensures owner == T.Dequeuing(T.Loop(|list|, 0, 0)) && polls == old(polls) + 1
      ensures list == {} && queue.inflight == map[] ==> Quiet()
    {
      hide T.Inv, P.EmptyAndQuiet, T.NobodyPushes, T.SomeoneHolds;
      StartFacts(View());
      registered := true;
      polls, waited := polls + 1, {};
      notified, owner := false, T.Dequeuing(T.Loop(|list|, 0, 0));
    }

    method ConsumeStep() returns (o: Q.Outcome)
      requires Safe() && owner.Dequeuing?
      modifies this`queue, this`owner, this`waited
      ensures Safe() && T.Enabled(old(View()), T.EDequeue)
      ensures View() == T.DequeueStep(old(View())) && o == Q.Consume(old(queue)).1
      ensures owner == match o
                       case Running => old(owner)
                       case Data(t) => T.Got(t, old(owner).locals)
                       case Inconsistent => T.SelfWake
                       case Empty => T.Idle(if list == {} then T.Ended else T.Pending)
      ensures polls == old(polls) && tasks.Keys == old(tasks.Keys) && Left() < old(Left())
      ensures old(Quiet()) ==> Quiet() && !o.Inconsistent?
      ensures o.Inconsistent? ==> Q.HalfLinked(queue)
      ensures o.Empty? ==> Q.FoundEmpty(queue)
    {
      hide T.Inv, P.Measure, P.EmptyAndQuiet, Q.HalfLinked, Q.FoundEmpty, Q.Consume, T.NobodyPushes;
      ConsumeFacts(View());
      ghost var s' := T.DequeueStep(View());
      var (q, outcome) := Q.Consume(queue);
      queue, o, owner, waited := q, outcome, s'.owner, s'.waited;
    }

    /** `dequeue`, up to the answer. */
    method Dequeue() returns (o: Q.Outcome)
      requires Safe() && owner.Dequeuing?
      modifies this`queue, this`tasks, this`registered, this`notified, this`fired, this`threads, this`owner, this`waited
      ensures Safe() && !o.Running? && tasks.Keys == old(tasks.Keys)
      ensures owner == match o
                       case Data(t) => T.Got(t, old(owner).locals)
                       case Inconsistent => T.SelfWake
                       case _ => T.Idle(if list == {} then T.Ended else T.Pending)
      ensures Left() < old(Left())
      ensures old(Quiet()) ==> Quiet() && !o.Inconsistent?
      ensures o.Inconsistent? ==> Q.HalfLinked(queue)
      ensures o.Empty? ==> Q.FoundEmpty(queue)
    {
      hide Safe, Left, Quiet, Q.HalfLinked, Q.FoundEmpty, T.DequeueStep;
      o := Q.Running;
      while o.Running?
        invariant Safe() && tasks.Keys == old(tasks.Keys)
        invariant o.Running? ==> owner == old(owner) && Left() <= old(Left())
        invariant !o.Running? ==> Left() < old(Left())
        invariant !o.Running? ==>
          owner == match o
                   case Data(t) => T.Got(t, old(owner).locals)
                   case Inconsistent => T.SelfWake
                   case _ => T.Idle(if list == {} then T.Ended else T.Pending)
        invariant old(Quiet()) ==> Quiet() && !o.Inconsistent?
        invariant o.Inconsistent? ==> Q.HalfLinked(queue)
        invariant o.Empty? ==> Q.FoundEmpty(queue)
        decreases Left(), o.Running?
      {
        OthersWake();
        o := ConsumeStep();
      }
    }

    /** A task without a future is only cleaned up. */
    method CleanUp(t: T.Tid)
      requires Safe() && owner.Got? && owner.task == t && t in tasks && !tasks[t].alive
      modifies this`released, this`dropped, this`owner
      ensures Safe() && View() == T.Take(old(View()))
      ensures owner == T.Dequeuing(old(owner).locals)
      ensures polls == old(polls) && tasks.Keys == old(tasks.Keys) && Left() < old(Left())
      ensures old(Quiet()) ==> Quiet()
    {
      hide T.Inv, P.Measure, T.NobodyPushes, P.EmptyAndQuiet;
      StepFacts(View(), T.ETake);
      if Quiet() { P.QuietStep(View(), T.ETake); }
      released, dropped, owner := released - {t}, dropped + multiset{t}, T.Dequeuing(owner.locals);
    }

    /** `unlink`, then the swap of the `queued` flag, whose old value it returns. */
    method UnlinkAndClear(t: T.Tid) returns (prev: bool)
      requires Safe() && owner.Got? && owner.task == t && t in tasks && tasks[t].alive
      modifies this`list, this`tasks, this`fired, this`owner
      ensures Safe() && View() == T.Take(old(View()))
      ensures prev && t in old(list) && list == old(list) - {t} && owner == T.Resetting(t, old(owner).locals)
      ensures polls == old(polls) && tasks.Keys == old(tasks.Keys) && Left() < old(Left())
    {
      hide T.Inv, P.Measure, T.NobodyPushes;
      StepFacts(View(), T.ETake);
      P.TakeKeepsTasks(View());
      list := list - {t};
      prev := tasks[t].queued;
      tasks := tasks[t := tasks[t].(queued := false)];
      fired, owner := fired - {t}, T.Resetting(t, owner.locals);
    }

    method ResetWoken(t: T.Tid)
      requires Safe() && owner.Resetting? && owner.task == t && t in tasks
      modifies this`tasks, this`owner
      ensures Safe() && View() == T.ResetWoken(old(View()))
      ensures owner == T.Polling(t, old(owner).locals)
      ensures polls == old(polls) && tasks.Keys == old(tasks.Keys) && Left() < old(Left())
    {
      hide T.Inv, P.Measure, T.NobodyPushes;
      StepFacts(View(), T.EResetWoken);
      tasks := tasks[t := tasks[t].(woken := false)];
      owner := T.Polling(t, owner.locals);
    }

    /** After a child answered `Pending`: reads `woken`, links the task again; `again`
        says that the loop goes on. */
    method LinkAgain(t: T.Tid, len: nat, polled: nat, yielded: nat) returns (yielded': nat, again: bool)
      requires Safe() && owner == T.Polling(t, T.Loop(len, polled, yielded)) && t in tasks
      modifies this`list, this`owner
      ensures Safe() && View() == T.ChildPending(old(View()))
      ensures yielded' == yielded + if tasks[t].woken then 1 else 0
      ensures again <==> yielded' < 2 && polled + 1 != len
      ensures list == old(list) + {t}
      ensures owner == if again then T.Dequeuing(T.Loop(len, polled + 1, yielded')) else T.SelfWake
      ensures polls == old(polls) && tasks.Keys == old(tasks.Keys) && Left() < old(Left())
    {
      hide T.Inv, P.Measure, T.NobodyPushes;
      StepFacts(View(), T.EChildPending);
      yielded' := yielded + if tasks[t].woken then 1 else 0;
      list := list + {t};
      again := !(yielded' >= 2 || polled + 1 == len);
      owner := if again then T.Dequeuing(T.Loop(len, polled + 1, yielded')) else T.SelfWake;
    }

    /** `release_task` after the child has finished. */
    method ReleaseTask(t: T.Tid)
      requires Safe() && owner.Polling? && owner.task == t && t in tasks
      modifies this`tasks, this`released, this`dropped, this`owner
      ensures Safe() && View() == T.ChildReady(old(View()))
      ensures owner == T.Idle(T.Ready) && t in tasks && !tasks[t].alive
      ensures polls == old(polls) && tasks.Keys == old(tasks.Keys)
    {
      hide T.Inv, P.Measure, T.NobodyPushes;
      StepFacts(View(), T.EChildReady);
      var prev := tasks[t].queued;
      tasks := tasks[t := tasks[t].(queued := true, alive := false)];
      if prev {
        released := released + {t};
      } else {
        dropped := dropped + multiset{t};
      }
      owner := T.Idle(T.Ready);
    }

    /** Wakes the caller: this poll wants to be polled again. */
    method WakeCaller()
      requires Safe() && owner.SelfWake?
      modifies this`notified, this`owner, this`waited
      ensures Safe() && View() == T.WakeSelf(old(View()))
      ensures owner == T.Idle(T.Pending) && notified && polls == old(polls) && tasks.Keys == old(tasks.Keys)
    {
      hide T.Inv, P.Measure, T.NobodyPushes;
      StepFacts(View(), T.EWakeSelf);
      notified := true;
      owner, waited := T.Idle(T.Pending), list;
    }

    lemma TaskIsKnown()
      requires Safe() && (owner.Got? || owner.Resetting? || owner.Polling?)
      ensures owner.task in tasks
      ensures owner.Polling? ==> owner.task !in list && owner.locals.polled < owner.locals.len
    {
      if owner.Polling? { P.ChildPendingKeepsTasks(View()); }
    }

    /** After a child answered `Pending`: the call goes on, or the caller is notified. */
    method GoOnOrYield(task: T.Tid, len: nat, polled: nat, yielded: nat) returns (yielded': nat, over: bool)
      requires Safe() && owner == T.Polling(task, T.Loop(len, polled, yielded)) && task in tasks
      modifies this`list, this`owner, this`notified, this`waited
      ensures Safe() && polls == old(polls)
      ensures yielded' == yielded + if tasks[task].woken then 1 else 0
      ensures over <==> yielded' >= 2 || polled + 1 == len
      ensures over ==> notified
      ensures list == old(list) + {task}
      ensures owner == if over then T.Idle(T.Pending) else T.Dequeuing(T.Loop(len, polled + 1, yielded'))
      ensures !over ==> Left() < old(Left())
    {
      hide View, Safe, Left, T.ChildPending, T.WakeSelf;
      var again: bool;
      yielded', again := LinkAgain(task, len, polled, yielded);
      over := !again;
      if over {
        WakeCaller();
      }
    }

    /** The poll of the future, and what follows its answer. */
    method FinishTask(task: T.Tid, len: nat, polled: nat, yielded: nat)
      returns (yielded': nat, over: bool, output: Option<O>)
      requires Safe() && owner == T.Polling(task, T.Loop(len, polled, yielded)) && task in tasks
      requires task in futures
      modifies this`tasks, this`list, this`released, this`dropped, this`owner, this`notified, this`waited, this`futures,
        this`log
      ensures Safe() && polls == old(polls) && tasks.Keys == old(tasks.Keys)
      ensures log ==
              old(log)
              + [ChildPoll(task, if output.Some? then Ready(output.value) else Pending, old(tasks)[task].woken)]
      ensures output.Some? <==> old(futures)[task] != [] && old(futures)[task][0].Ready?
      ensures output.Some? ==>
        && over && old(futures)[task][0] == Ready(output.value) && futures == old(futures) - {task}
        && yielded' == yielded
        && list == old(list) && owner == T.Idle(T.Ready) && task in tasks && !tasks[task].alive
      ensures output.None? ==>
        && futures == old(futures)[task := if old(futures)[task] == [] then [] else old(futures)[task][1..]]
        && list == old(list) + {task} && tasks == old(tasks)
        && yielded' == (yielded + if tasks[task].woken then 1 else 0)
        && (over <==> yielded' >= 2 || polled + 1 == len) && (over ==> notified)
        && owner == (if over then T.Idle(T.Pending) else T.Dequeuing(T.Loop(len, polled + 1, yielded')))
      ensures !over ==> Left() < old(Left())
    {
      hide View, Safe, Left, T.ChildReady;
      var script := futures[task];
      if script != [] && script[0].Ready? {
        log := log + [ChildPoll(task, script[0], tasks[task].woken)];
        futures := futures - {task};
        ReleaseTask(task);
        return yielded, true, Some(script[0].value);
      }
      log := log + [ChildPoll(task, Pending, tasks[task].woken)];
      futures := futures[task := if script == [] then [] else script[1..]];
      yielded', over := GoOnOrYield(task, len, polled, yielded);
      output := None;
    }

    /** What comes before the future's poll; during the poll other threads, and the future
        itself, may wake tasks. */
    method PrepareTask(task: T.Tid, len: nat, polled: nat, yielded: nat)
      requires Safe() && owner == T.Got(task, T.Loop(len, polled, yielded)) && task in tasks && tasks[task].alive
      modifies this`queue, this`tasks, this`list, this`registered, this`notified, this`fired, this`threads, this`owner
      ensures Safe() && owner == T.Polling(task, T.Loop(len, polled, yielded)) && polled < len
      ensures task in old(list) && list == old(list) - {task} && tasks.Keys == old(tasks.Keys) && task in tasks
      ensures Left() < old(Left())
    {
      hide View, Safe, Left, Quiet, T.Take, T.ResetWoken;
      var prev := UnlinkAndClear(task);
      assert prev;
      OthersWake();
      TaskIsKnown();
      ResetWoken(task);
      OthersWake();
      TaskIsKnown();
    }

    /** The part of the loop that polls one live task: its outcome is whether the call is
        over, and an output. */
    method PollTask(task: T.Tid, len: nat, polled: nat, yielded: nat)
      returns (yielded': nat, over: bool, output: Option<O>)
      requires Safe() && owner == T.Got(task, T.Loop(len, polled, yielded))
      requires task in tasks && tasks[task].alive && list <= futures.Keys
      modifies this
      ensures Safe() && polls == old(polls) && tasks.Keys == old(tasks.Keys) && nextTask == old(nextTask)
      ensures polled < len && task in old(list)
      ensures |log| == |old(log)| + 1 && log[..|old(log)|] == old(log)
      ensures var p := log[|old(log)|];
              && p.task == task && p.answer == (if output.Some? then Ready(output.value) else Pending)
              && (p.answer.Pending? ==> task in tasks && p.woken == tasks[task].woken)
              && yielded' == yielded + if p.answer.Pending? && p.woken then 1 else 0
      ensures output.Some? <==> old(futures)[task] != [] && old(futures)[task][0].Ready?
      ensures output.Some? ==>
        && over && old(futures)[task][0] == Ready(output.value) && futures == old(futures) - {task}
        && list == old(list) - {task} && owner == T.Idle(T.Ready) && task in tasks && !tasks[task].alive
      ensures output.None? ==>
        && futures == old(futures)[task := if old(futures)[task] == [] then [] else old(futures)[task][1..]]
        && list == old(list)
        && (over <==> yielded' >= 2 || polled + 1 == len) && (over ==> notified)
        && owner == (if over then T.Idle(T.Pending) else T.Dequeuing(T.Loop(len, polled + 1, yielded')))
      ensures !over ==> Left() < old(Left())
    {
      hide View, Safe, Left, Quiet;
      PrepareTask(task, len, polled, yielded);
      yielded', over, output := FinishTask(task, len, polled, yielded);
    }

    lemma CallerIsCovered()
      requires Safe()
      ensures owner == T.Idle(T.Pending) ==> waited == list
      ensures owner == T.Idle(T.Pending) && T.LiveInQueue(View()) ==>
        notified || T.SomeoneHolds(View()) || (registered && T.SomeoneWillWake(View()))
    {
      if owner == T.Idle(T.Pending) && T.LiveInQueue(View()) { P.PendingIsCovered(View()); }
    }

    lemma QuietIsEmpty()
      ensures Quiet() ==> list == {}
    {
    }

    /** One round of the loop: `r` is the answer of the whole call, or none while it goes on. */
    method Round(len: nat, polled: nat, yielded: nat)
      returns (yielded': nat, polled': nat, r: Option<Answer<(T.Tid, O)>>)
      requires Safe() && owner == T.Dequeuing(T.Loop(len, polled, yielded)) && list <= futures.Keys
      requires polled <= len && yielded < 2
      modifies this
      ensures Safe() && polls == old(polls) && tasks.Keys == old(tasks.Keys) && nextTask == old(nextTask)
      ensures polled' <= len && list <= futures.Keys && list <= old(list)
      ensures list == if OutputOf(r).Some? then old(list) - {OutputOf(r).value.0} else old(list)
      ensures if polled' == polled then
                log == old(log) && futures == old(futures) && yielded' == yielded && (r.Some? ==> !HasOutput(r.value))
              else
                polled' == polled + 1 && OnePoll(old(list), old(futures), old(log), yielded, futures, log, yielded', r)
      ensures r.None? ==>
        && list == old(list) && owner == T.Dequeuing(T.Loop(len, polled', yielded')) && yielded' < 2
        && Left() < old(Left()) && (old(Quiet()) ==> Quiet())
      ensures r.Some? ==> owner.Idle?
      ensures r == Some(Pending) ==>
        && list == old(list) && owner == T.Idle(T.Pending)
        && (Q.FoundEmpty(queue) || (notified && (Q.HalfLinked(queue) || polled' == len || Yielded(yielded'))))
        && (list == {} ==> Q.HalfLinked(queue) && !old(Quiet()))
      ensures r == Some(Ready(None)) ==> list == old(list) == {} && owner == T.Idle(T.Ended) && Q.FoundEmpty(queue)
      ensures r.Some? && HasOutput(r.value) ==>
        var (t, output) := r.value.value.value;
        && t in old(list) && list == old(list) - {t} && owner == T.Idle(T.Ready)
        && t in tasks && !tasks[t].alive
    {
      hide View, Safe, Left, Quiet, Q.HalfLinked, Q.FoundEmpty, OnePoll, Yielded, T.Take, T.WakeSelf;
      QuietIsEmpty();
      yielded', polled' := yielded, polled;
      var d := Dequeue();
      match d {
        case Empty => r := Some(if list == {} then Ready(None) else Pending);
        case Inconsistent =>
          WakeCaller();
          r := Some(Pending);
        case Data(task) =>
          OthersWake();
          TaskIsKnown();
          if !tasks[task].alive {
            CleanUp(task);
            r := None;
          } else {
            yielded', polled', r := PollLive(task, len, polled, yielded);
          }
      }
    }

    /** The last future polled was woken meanwhile, and was not the first. */
    ghost predicate Yielded(yielded: nat)
      reads `log, `tasks
    {
      yielded >= 2 && |log| > 0 && log[|log| - 1].task in tasks && tasks[log[|log| - 1].task].woken
    }

    method PollLive(task: T.Tid, len: nat, polled: nat, yielded: nat)
      returns (yielded': nat, polled': nat, r: Option<Answer<(T.Tid, O)>>)
      requires Safe() && owner == T.Got(task, T.Loop(len, polled, yielded))
      requires task in tasks && tasks[task].alive && list <= futures.Keys && yielded < 2
      modifies this
      ensures Safe() && polls == old(polls) && tasks.Keys == old(tasks.Keys) && nextTask == old(nextTask)
      ensures polled' == polled + 1 <= len
      ensures OnePoll(old(list), old(futures), old(log), yielded, futures, log, yielded', r)
      ensures list <= futures.Keys && list <= old(list) && task in old(list)
      ensures r != Some(Ready(None)) && (r.Some? ==> owner.Idle?)
      ensures list == if OutputOf(r).Some? then old(list) - {OutputOf(r).value.0} else old(list)
      ensures r.None? ==>
        && list == old(list) && owner == T.Dequeuing(T.Loop(len, polled', yielded')) && Left() < old(Left())
        && yielded' < 2
      ensures r == Some(Pending) ==>
        && list == old(list) && owner == T.Idle(T.Pending)
        && notified && (polled' == len || Yielded(yielded'))
      ensures r.Some? && HasOutput(r.value) ==>
        && r.value.value.value.0 == task
        && list == old(list) - {task} && owner == T.Idle(T.Ready) && task in tasks && !tasks[task].alive
    {
      hide View, Safe, Left;
      var over, output;
      yielded', over, output := PollTask(task, len, polled, yielded);
      polled' := polled + 1;
      r := if !over then None
           else if output.Some? then Some(Ready(Some((task, output.value))))
           else Some(Pending);
    }

    /** A set nothing was ever pushed to: whatever the other threads do, there is nothing to
        enqueue. */
    lemma NothingPushedNothingInFlight()
      requires Valid() && tasks == map[]
      ensures queue.inflight == map[] && list == {}
    {
      forall t ensures t !in queue.inflight {
        QueueInv(View());
      }
    }

    lemma ItIsValid()
      requires Safe() && owner.Idle? && list <= futures.Keys && Below(tasks.Keys, nextTask)
      ensures Valid()
    {
    }

    /** The polls since the log was `before`. */
    ghost function Since(before: seq<ChildPoll<O>>): seq<ChildPoll<O>>
      requires |before| <= |log|
      reads `log
    {
      log[|before|..]
    }

    lemma PlayedMeans(list0: set<T.Tid>, before: map<T.Tid, seq<Poll<O>>>, since: seq<ChildPoll<O>>, yielded: nat,
                      output: Option<(T.Tid, O)>)
      requires Played(list0, before, since, futures, yielded, output)
      requires list == if output.Some? then list0 - {output.value.0} else list0
      ensures (forall p :: p in since ==> p.task in list0) && yielded == Yields(since) && Answered(since, output)
      ensures AllPlay(before, since, futures, list)
      ensures output.Some? ==>
        output.value.0 in before && Plays(before[output.value.0], AnswersOf(since, output.value.0))
    {
    }

    /** `poll_next`. */
    method PollNext() returns (r: Answer<(T.Tid, O)>)
      requires Valid()
      modifies this
      ensures Valid() && polls == old(polls) + 1 && nextTask == old(nextTask) && tasks.Keys == old(tasks.Keys)
      // the futures polled, and what they answered
      ensures |old(log)| <= |log| <= |old(log)| + |old(list)| && log[..|old(log)|] == old(log)
      ensures forall p :: p in Since(old(log)) ==> p.task in old(list)
      ensures AllPlay(old(futures), Since(old(log)), futures, list)
      ensures Answered(Since(old(log)), if HasOutput(r) then r.value else None)
      ensures HasOutput(r) ==>
        var (t, output) := r.value.value;
        && t in old(list) && list == old(list) - {t} && owner.last.Ready?
        && t in tasks && !tasks[t].alive
        && t in old(futures) && Plays(old(futures)[t], AnswersOf(Since(old(log)), t))
      // why it is pending, and who will wake the caller
      ensures r.Pending? ==> list == old(list) == waited && owner.last.Pending?
      ensures r.Pending? ==>
        || Q.FoundEmpty(queue)
        || (notified && (Q.HalfLinked(queue) || |log| == |old(log)| + |old(list)| || Yielded(Yields(Since(old(log))))))
      ensures r.Pending? && T.LiveInQueue(View()) ==>
        notified || T.SomeoneHolds(View()) || (registered && T.SomeoneWillWake(View()))
      // the end
      ensures r == Ready(None) ==> list == old(list) == {} && owner.last.Ended?
      ensures old(list) == {} ==> (r == Ready(None) <==> queue.tail == Q.STUB)
      ensures old(list) == {} && r.Pending? ==> Q.HalfLinked(queue)
      ensures old(list) == {} && old(queue.inflight) == map[] ==> r == Ready(None)
    {
      hide View, Safe, Left, Quiet, Below, AllPlay, Plays, Answered, AnswersOf, Yields, OnePoll, Played, Yielded;
      hide Q.HalfLinked, Q.FoundEmpty, T.LiveInQueue, T.SomeoneHolds, T.SomeoneWillWake, T.StartPoll;
      var len := |list|;
      var polled: nat, yielded: nat := 0, 0;
      NothingPlayed(list, futures);
      assert Since(log) == [];
      hide Valid;
      Register();
      var answer: Option<Answer<(T.Tid, O)>> := None;
      while answer.None?
        invariant Safe() && nextTask == old(nextTask) && list <= futures.Keys && list <= old(list)
        invariant polls == old(polls) + 1 && tasks.Keys == old(tasks.Keys)
        invariant |log| == |old(log)| + polled && polled <= len && log[..|old(log)|] == old(log)
        invariant Played(old(list), old(futures), log[|old(log)|..], futures, yielded, OutputOf(answer))
        invariant answer.None? ==>
          && list == old(list) && owner == T.Dequeuing(T.Loop(len, polled, yielded)) && yielded < 2
          && (old(list) == {} && old(queue.inflight) == map[] ==> Quiet())
        invariant answer.Some? ==> owner.Idle?
        invariant list == if OutputOf(answer).Some? then old(list) - {OutputOf(answer).value.0} else old(list)
        invariant answer == Some(Pending) ==>
          && list == old(list) && owner == T.Idle(T.Pending)
          && (Q.FoundEmpty(queue) || (notified && (Q.HalfLinked(queue) || polled == len || Yielded(yielded))))
          && (list == {} ==> Q.HalfLinked(queue) && old(queue.inflight) != map[])
        invariant answer == Some(Ready(None)) ==>
          list == old(list) == {} && owner == T.Idle(T.Ended) && Q.FoundEmpty(queue)
        invariant answer.Some? && HasOutput(answer.value) ==>
          var (t, output) := answer.value.value.value;
          && t in old(list) && list == old(list) - {t} && owner == T.Idle(T.Ready)
          && t in tasks && !tasks[t].alive
        decreases answer.None?, Left()
      {
        ghost var mid, logMid, yieldedMid, polledMid := futures, log, yielded, polled;
        yielded, polled, answer := Round(len, polled, yielded);
        if polled != polledMid {
          OnePollPlays(old(list), old(futures), |old(log)|, mid, logMid, yieldedMid, futures, log, yielded, answer);
        }
      }
      CallerIsCovered();
      HalfLinkedIsNoStub(queue);
      PlayedMeans(old(list), old(futures), Since(old(log)), yielded, OutputOf(answer));
      ItIsValid();
      return answer.value;
    }
  }
}
