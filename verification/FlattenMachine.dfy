/** `FlattenUnordered` as a whole: the poll-state word (module PollState) on top of the
    bucket of inner streams (module TaskSet), whose atomic waker holds the wrapped
    waker of kind NEED_TO_POLL_INNER_STREAMS.

    A thread that calls the bucket's caller (TaskSet) thereby wakes the word
    (PollState); everything else interleaves freely. */
module FlattenMachine {
  import opened Types
  import P = PollState
  import T = TaskSet
  import TP = TaskSetProofs

  const INNER: P.Word := P.NEED_TO_POLL_INNER_STREAMS
  const STREAM: P.Word := P.NEED_TO_POLL_STREAM

  /** Where `poll_next` stands. */
  datatype Stage = Outside | Entered | BaseLoop | Inner | Bucket | Finish

  /** `value` and `need` are the locals `poll_state_value` and `need_to_poll_next`,
      `item` says that an item has been taken, `done` is `is_stream_done`. */
  datatype State = State(
    p: P.State,
    b: T.State,
    stage: Stage,
    value: P.Word,
    need: P.Word,
    item: bool,
    done: bool,
    limit: Option<nat>)

  function Initial(limit: Option<nat>): State {
    State(P.NEW, T.NEW, Outside, 0, 0, false, false, limit)
  }

  /** `is_exceeded_limit`. */
  predicate AtLimit(s: State) {
    s.limit.Some? && |s.b.list| >= s.limit.value
  }

  datatype Event =
    | FThread(te: T.Event)
    | FNotify(w: nat)
    | FBaseWake(w: nat)
    | FWaker(pe: P.Event)
    | FEnter
    | FReplace
    | FBasePush(w: nat, t: T.Tid)
    | FBaseReturn
    | FBaseDone
    | FBaseStop
    | FBucketStart
    | FBucket(te: T.Event)
    | FBucketSelfWake(w: nat)
    | FBucketItem(w: nat, t: T.Tid)
    | FBucketStreamEnd
    | FBucketStop
    | FLeave
    | FReturn

  ghost predicate CanPollBase(s: State) {
    s.stage.BaseLoop? && !s.done && !AtLimit(s)
  }

  ghost predicate Enabled(s: State, e: Event) {
    match e
    case FThread(te) => (te.EUpgrade? || te.EMark? || te.ESwap? || te.EEnqueue? || te.ETakeWaker?) && T.Enabled(s.b, te)
    case FNotify(w) => T.Enabled(s.b, T.ECallParent(w)) && P.Enabled(s.p, P.EWake(w, INNER))
    case FBaseWake(w) => P.Enabled(s.p, P.EWake(w, STREAM))
    case FWaker(pe) => (pe.EReadCell? || pe.EEndWaking? || pe.ECall?) && P.Enabled(s.p, pe)
    case FEnter => s.stage.Outside? && P.Enabled(s.p, P.EEnter)
    case FReplace => s.stage.Entered? && P.Enabled(s.p, P.EReplace)
    case FBasePush(w, t) => CanPollBase(s) && T.Enabled(s.b, T.EPush(w, t))
    case FBaseReturn => CanPollBase(s)
    case FBaseDone => CanPollBase(s)
    case FBaseStop => s.stage.BaseLoop?
    case FBucketStart => s.stage.Inner? && T.Enabled(s.b, T.EStartPoll)
    case FBucket(te) =>
      && s.stage.Bucket? && T.Enabled(s.b, te)
      && (te.EDequeue? || te.ETake? || te.EResetWoken? || te.EChildPending? || te.EChildReady?)
    case FBucketSelfWake(w) => s.stage.Bucket? && T.Enabled(s.b, T.EWakeSelf) && P.Enabled(s.p, P.EWake(w, INNER))
    case FBucketItem(w, t) => s.stage.Bucket? && s.b.owner == T.Idle(T.Ready) && T.Enabled(s.b, T.EPush(w, t))
    case FBucketStreamEnd => s.stage.Bucket? && s.b.owner == T.Idle(T.Ready)
    case FBucketStop => s.stage.Bucket? && s.b.owner.Idle? && !s.b.owner.last.Ready?
    case FLeave => s.stage.Finish? && s.p.poller.InPoll? && T.NobodyPushes(s.b) && s.need <= P.NEED_TO_POLL_ALL
    case FReturn => s.stage.Outside? && P.Enabled(s.p, P.EReturn)
  }

  ghost function Apply(s: State, e: Event): State
    requires Enabled(s, e)
  {
    match e
    case FThread(te) => s.(b := T.Apply(s.b, te))
    case FNotify(w) => s.(b := T.CallParent(s.b, w), p := P.Wake(s.p, w, INNER))
    case FBaseWake(w) => s.(p := P.Wake(s.p, w, STREAM))
    case FWaker(pe) => s.(p := P.Apply(s.p, pe))
    case FEnter => Enter(s)
    case FReplace =>
      s.(p := P.ReplaceWakers(s.p), need := P.NONE, item := false,
         stage := if s.value & STREAM != P.NONE then BaseLoop else Inner)
    case FBasePush(w, t) => s.(b := T.Push(s.b, w, t), value := s.value | INNER)
    case FBaseReturn =>
      s.(need := s.need | STREAM | (s.value & INNER), value := s.value & !INNER, item := true, stage := Inner)
    case FBaseDone => s.(done := true)
    case FBaseStop =>
      s.(need := if AtLimit(s) && !s.done then s.need | STREAM else s.need, stage := Inner)
    case FBucketStart =>
      if s.value & INNER != P.NONE then s.(b := T.StartPoll(s.b), stage := Bucket) else s.(stage := Finish)
    case FBucket(te) => s.(b := T.Apply(s.b, te))
    case FBucketSelfWake(w) => s.(b := T.WakeSelf(s.b), p := P.Wake(s.p, w, INNER))
    case FBucketItem(w, t) => s.(b := T.Push(s.b, w, t), need := s.need | INNER, item := true, stage := Finish)
    case FBucketStreamEnd => s.(need := s.need | INNER, stage := Finish)
    case FBucketStop => s.(stage := Finish)
    case FLeave =>
      s.(p := P.Leave(s.p, s.need, AtLimit(s), s.item || (s.done && s.b.list == {})), stage := Outside)
    case FReturn => s.(p := P.Return(s.p))
  }

  ghost function Enter(s: State): State {
    var p' := P.Enter(s.p);
    if p'.poller.Entered? then s.(p := p', value := s.p.word, stage := Entered) else s.(p := p')
  }

  // ------------------------------------------------------------------ invariant

  /** The need to poll the inner streams is on record: in the word, or in a local of
      the running poll that is still to be used. */
  predicate Recorded(s: State) {
    || P.NeedsInner(s.p.word)
    || ((s.stage.Entered? || s.stage.BaseLoop? || s.stage.Inner?) && P.NeedsInner(s.value))
    || ((s.stage.BaseLoop? || s.stage.Inner? || s.stage.Bucket? || s.stage.Finish?) && P.NeedsInner(s.need))
  }

  ghost predicate StageInv(s: State) {
    && (s.stage.Outside? <==> !P.Polls(s.p))
    && (s.stage.Entered? <==> s.p.poller.Entered?)
    && (!s.stage.Bucket? ==> s.b.owner.Idle?)
    && !s.b.owner.Gone? && !s.b.owner.Dropping?
    && s.need <= P.NEED_TO_POLL_ALL
    && (HasPolled(s) ==> s.p.atLimit == AtLimit(s))
  }

  /** A poll has ended, and none has begun since. */
  predicate HasPolled(s: State) {
    s.p.poller.Leaving? || s.p.poller == P.Out(P.WasPending) || s.p.poller == P.Out(P.WasReady)
  }

  ghost predicate RecordInv(s: State) {
    && (s.b.notified ==> Recorded(s))
    && (s.b.owner == T.Idle(T.Fresh) && s.b.list != {} ==> Recorded(s))
    && (s.b.owner == T.Idle(T.Ready) && !s.stage.Bucket? ==> Recorded(s))
  }

  /** Inner streams in the bucket, counting the one being polled and the one whose item
      has just been taken out of the bucket. */
  function Size(s: State): nat {
    |s.b.list| + (if s.b.owner.Resetting? || s.b.owner.Polling? then 1 else 0)
    + (if s.stage.Bucket? && s.b.owner == T.Idle(T.Ready) then 1 else 0)
  }

  ghost predicate Inv(s: State) {
    && P.Inv(s.p) && T.Inv(s.b)
    && StageInv(s) && RecordInv(s)
    && (s.limit.Some? ==> Size(s) <= s.limit.value)
  }

  // -------------------------------------------------------- facts about the bits

  lemma WakeBits(v: P.Word, k: P.Word)
    requires P.IsKind(k)
    ensures P.NeedsInner(v) ==> P.NeedsInner(P.StartWaking(v, k).0)
    ensures P.NeedsInner(P.StartWaking(v, INNER).0)
  {
  }

  lemma ReturnBits(value: P.Word, need: P.Word)
    requires need <= P.NEED_TO_POLL_ALL
    ensures need | STREAM | (value & INNER) <= P.NEED_TO_POLL_ALL
    ensures P.NeedsInner(value) || P.NeedsInner(need) ==> P.NeedsInner(need | STREAM | (value & INNER))
  {
  }

  lemma NeedBits(value: P.Word, need: P.Word)
    requires need <= P.NEED_TO_POLL_ALL
    ensures need | STREAM <= P.NEED_TO_POLL_ALL && need | INNER <= P.NEED_TO_POLL_ALL
    ensures P.NeedsInner(need) ==> P.NeedsInner(need | STREAM)
    ensures P.NeedsInner(need | INNER) && P.NeedsInner(value | INNER)
  {
  }

  lemma LeaveBits(v: P.Word, need: P.Word, force: bool)
    requires need <= P.NEED_TO_POLL_ALL
    ensures P.NeedsInner(v) || P.NeedsInner(need) ==> P.NeedsInner(P.StopPolling(v, need, force))
  {
  }

  lemma StopBits(v: P.Word)
    ensures P.NeedsInner(v) ==> P.NeedsInner(P.StopWaking(v))
  {
  }

  // ------------------------------------------------------ every step keeps it

  lemma InitialInv(limit: Option<nat>)
    ensures Inv(Initial(limit))
  {
    P.NewInv();
    TP.NewInv();
  }

  /** Steps of other threads inside the bucket. */
  lemma ThreadKeepsInv(s: State, te: T.Event)
    requires Inv(s) && Enabled(s, FThread(te))
    ensures Inv(Apply(s, FThread(te)))
  {
    hide T.Inv, P.Inv;
    TP.ApplyKeepsInv(s.b, te);
  }

  /** A child of the bucket notifies the poll-state word. */
  lemma NotifyKeepsInv(s: State, w: nat)
    requires Inv(s) && Enabled(s, FNotify(w))
    ensures Inv(Apply(s, FNotify(w)))
  {
    hide T.Inv, P.Inv, P.StartWaking, P.NeedsInner;
    TP.ApplyKeepsInv(s.b, T.ECallParent(w));
    P.ApplyKeepsInv(s.p, P.EWake(w, INNER));
    WakeBits(s.p.word, INNER);
  }

  /** The base stream's waker sets its bit. */
  lemma BaseWakeKeepsInv(s: State, w: nat)
    requires Inv(s) && Enabled(s, FBaseWake(w))
    ensures Inv(Apply(s, FBaseWake(w)))
  {
    hide T.Inv, P.Inv, P.StartWaking, P.NeedsInner;
    P.ApplyKeepsInv(s.p, P.EWake(w, STREAM));
    WakeBits(s.p.word, STREAM);
  }

  /** The further steps of wakers on the word. */
  lemma WakerKeepsInv(s: State, pe: P.Event)
    requires Inv(s) && Enabled(s, FWaker(pe))
    ensures Inv(Apply(s, FWaker(pe)))
  {
    hide T.Inv, P.Inv, P.StopWaking, P.NeedsInner;
    P.ApplyKeepsInv(s.p, pe);
    StopBits(s.p.word);
  }

  /** Steps of the poller on the word and on its base stream. */
  lemma PollerKeepsInv(s: State, e: Event)
    requires Inv(s) && Enabled(s, e)
    requires e.FEnter? || e.FReplace? || e.FBaseReturn? || e.FBaseDone? || e.FBaseStop? || e.FReturn?
    ensures Inv(Apply(s, e))
  {
    hide T.Inv, P.Inv, P.NeedsInner;
    match e
    case FEnter => P.ApplyKeepsInv(s.p, P.EEnter); P.EnterKeepsInv(s.p);
    case FReplace => P.ApplyKeepsInv(s.p, P.EReplace);
    case FBaseReturn => ReturnBits(s.value, s.need);
    case FBaseStop => NeedBits(s.value, s.need);
    case FReturn => P.ApplyKeepsInv(s.p, P.EReturn);
    case _ =>
  }

  lemma LeaveKeepsInv(s: State)
    requires Inv(s) && Enabled(s, FLeave)
    ensures Inv(Apply(s, FLeave))
  {
    hide T.Inv, P.Inv, P.NeedsInner, P.StopPolling;
    P.ApplyKeepsInv(s.p, P.ELeave(s.need, AtLimit(s), s.item || (s.done && s.b.list == {})));
    LeaveBits(s.p.word, s.need, P.ForceWake(s.need, AtLimit(s)));
  }

  lemma PushKeepsInv(s: State, e: Event)
    requires Inv(s) && Enabled(s, e) && (e.FBasePush? || e.FBucketItem?)
    ensures Inv(Apply(s, e))
  {
    hide T.Inv, P.Inv, P.NeedsInner;
    TP.ApplyKeepsInv(s.b, T.EPush(e.w, e.t));
    NeedBits(s.value, s.need);
  }

  lemma BucketKeepsInv(s: State, e: Event)
    requires Inv(s) && Enabled(s, e)
    requires e.FBucketStart? || e.FBucketStreamEnd? || e.FBucketStop?
    ensures Inv(Apply(s, e))
  {
    hide T.Inv, P.Inv, P.NeedsInner;
    match e
    case FBucketStart =>
      TP.ApplyKeepsInv(s.b, T.EStartPoll);
      NeedsInnerMeans(s.value);
    case FBucketStreamEnd => NeedBits(s.value, s.need);
    case FBucketStop =>
  }

  lemma SelfWakeKeepsInv(s: State, w: nat)
    requires Inv(s) && Enabled(s, FBucketSelfWake(w))
    ensures Inv(Apply(s, FBucketSelfWake(w)))
  {
    hide T.Inv, P.Inv, P.NeedsInner, P.StartWaking;
    TP.ApplyKeepsInv(s.b, T.EWakeSelf);
    P.ApplyKeepsInv(s.p, P.EWake(w, INNER));
    WakeBits(s.p.word, INNER);
  }

  lemma NeedsInnerMeans(v: P.Word)
    ensures P.NeedsInner(v) <==> v & INNER != P.NONE
  {
  }

  lemma BucketStepKeepsInv(s: State, te: T.Event)
    requires Inv(s) && Enabled(s, FBucket(te))
    ensures Inv(Apply(s, FBucket(te)))
  {
    hide T.Inv, P.Inv, P.NeedsInner, Size, T.Apply;
    TP.ApplyKeepsInv(s.b, te);
    BucketStepFacts(s, te);
  }

  lemma BucketStepFacts(s: State, te: T.Event)
    requires T.Inv(s.b) && Enabled(s, FBucket(te))
    ensures var s' := Apply(s, FBucket(te));
            && Size(s') <= Size(s)
            && s'.b.notified == s.b.notified
            && s'.b.owner != T.Idle(T.Fresh) && !s'.b.owner.Gone? && !s'.b.owner.Dropping?
  {
    match te
    case ETake => hide *; TakeFacts(s);
    case EDequeue => hide *; DequeueFacts(s);
    case _ => hide T.Inv;
  }

  lemma TakeFacts(s: State)
    requires T.Inv(s.b) && Enabled(s, FBucket(T.ETake))
    ensures var s' := Apply(s, FBucket(T.ETake));
            && Size(s') <= Size(s)
            && s'.b.notified == s.b.notified
            && s'.b.owner != T.Idle(T.Fresh) && !s'.b.owner.Gone? && !s'.b.owner.Dropping?
  {
    hide T.Inv;
    TP.TakeKeepsTasks(s.b);
    var t := s.b.owner.task;
    if t in s.b.list { assert |s.b.list - {t}| == |s.b.list| - 1; }
  }

  lemma DequeueFacts(s: State)
    requires Enabled(s, FBucket(T.EDequeue))
    ensures var s' := Apply(s, FBucket(T.EDequeue));
            && Size(s') <= Size(s)
            && s'.b.notified == s.b.notified
            && s'.b.owner != T.Idle(T.Fresh) && !s'.b.owner.Gone? && !s'.b.owner.Dropping?
  {
    hide T.Q.Consume;
  }

  lemma ApplyKeepsInv(s: State, e: Event)
    requires Inv(s) && Enabled(s, e)
    ensures Inv(Apply(s, e))
  {
    hide Inv, Enabled;
    match e
    case FThread(te) => ThreadKeepsInv(s, te);
    case FBucket(te) => BucketStepKeepsInv(s, te);
    case FLeave => LeaveKeepsInv(s);
    case FNotify(w) => NotifyKeepsInv(s, w);
    case FBaseWake(w) => BaseWakeKeepsInv(s, w);
    case FWaker(pe) => WakerKeepsInv(s, pe);
    case FBasePush(_, _) => PushKeepsInv(s, e);
    case FBucketItem(_, _) => PushKeepsInv(s, e);
    case FBucketStart => BucketKeepsInv(s, e);
    case FBucketSelfWake(w) => SelfWakeKeepsInv(s, w);
    case FBucketStreamEnd => BucketKeepsInv(s, e);
    case FBucketStop => BucketKeepsInv(s, e);
    case _ => PollerKeepsInv(s, e);
  }

  // ------------------------------------------------------------- main theorems

  ghost predicate IsRun(run: seq<State>, events: seq<Event>) {
    && |run| == |events| + 1
    && run[0] == Initial(run[0].limit)
    && forall i :: 0 <= i < |events| ==> Enabled(run[i], events[i]) && run[i + 1] == Apply(run[i], events[i])
  }

  lemma {:induction false} EveryStateInv(run: seq<State>, events: seq<Event>, n: nat)
    requires IsRun(run, events) && n < |run|
    ensures Inv(run[n])
  {
    hide Inv, Enabled, Apply;
    if n == 0 {
      InitialInv(run[0].limit);
    } else {
      EveryStateInv(run, events, n - 1);
      ApplyKeepsInv(run[n - 1], events[n - 1]);
    }
  }

  /** No ready inner stream is forgotten: outside a poll, if a live task is in the
      bucket's ready queue then NEED_TO_POLL_INNER_STREAMS is set, or a thread holds
      the bucket's waker and has yet to set it, or that waker is still registered and a
      thread that enqueued a task is on its way to take it. */
  lemma NoReadyInnerStreamForgotten(run: seq<State>, events: seq<Event>, n: nat)
    requires IsRun(run, events) && n < |run| && run[n].stage.Outside?
    requires T.LiveInQueue(run[n].b)
    ensures var s := run[n];
            || s.p.word & INNER != P.NONE
            || T.SomeoneHolds(s.b)
            || (s.b.registered && T.SomeoneWillWake(s.b))
  {
    EveryStateInv(run, events, n);
    LiveIsCovered(run[n]);
  }

  lemma LiveIsCovered(s: State)
    requires Inv(s) && s.stage.Outside? && T.LiveInQueue(s.b)
    ensures || s.p.word & INNER != P.NONE
            || T.SomeoneHolds(s.b)
            || (s.b.registered && T.SomeoneWillWake(s.b))
  {
    hide P.Inv, T.Inv;
    TP.LiveIsListed(s.b);
    assert s.b.owner == T.Idle(s.b.owner.last);
    match s.b.owner.last
    case Pending => TP.PendingIsCovered(s.b);
    case _ =>
  }

  /** End to end: after a poll that answered `Pending`, a live task in the bucket's
      ready queue means that the caller's waker has been called since, or that some
      thread is on its way to calling it. */
  lemma ReadyInnerStreamWakesTheCaller(run: seq<State>, events: seq<Event>, n: nat)
    requires IsRun(run, events) && n < |run| && run[n].p.poller == P.Out(P.WasPending)
    requires T.LiveInQueue(run[n].b)
    ensures var s := run[n];
            || s.p.polls in s.p.woken
            || P.SomeoneCalls(s.p, s.p.polls)
            || P.SomeoneInSection(s.p)
            || T.SomeoneHolds(s.b)
            || (s.b.registered && T.SomeoneWillWake(s.b))
  {
    EveryStateInv(run, events, n);
    LiveIsCovered(run[n]);
    hide T.Inv;
    if run[n].p.word & INNER != P.NONE { InnerBitIsCovered(run[n].p); }
  }

  lemma InnerBitIsCovered(p: P.State)
    requires P.Inv(p) && p.poller == P.Out(P.WasPending) && p.word & INNER != P.NONE
    ensures p.polls in p.woken || P.SomeoneCalls(p, p.polls) || P.SomeoneInSection(p)
  {
    assert P.NeedIsCovered(p);
    assert p.word & P.WOKEN != P.NONE || p.word & P.WAKING != P.NONE;
  }

  /** Between polls a need bit has a wake-up behind it, unless it only asks for the base
      stream and the bucket is at its limit. */
  lemma NeedHasAWakeUp(run: seq<State>, events: seq<Event>, n: nat)
    requires IsRun(run, events) && n < |run| && HasPolled(run[n])
    ensures var s := run[n];
            || s.p.word & P.NEED_TO_POLL_ALL == P.NONE
            || s.p.word & (P.WOKEN | P.WAKING) != P.NONE
            || (s.p.word & P.NEED_TO_POLL_ALL == STREAM && AtLimit(s))
  {
    EveryStateInv(run, events, n);
    hide T.Inv;
    assert P.NeedIsCovered(run[n].p);
  }

  /** And a wake-up that is there once `Pending` has been answered reaches the caller. */
  lemma NeedWakesTheCaller(run: seq<State>, events: seq<Event>, n: nat)
    requires IsRun(run, events) && n < |run| && run[n].p.poller == P.Out(P.WasPending)
    requires P.NeedsInner(run[n].p.word) || (P.NeedsStream(run[n].p.word) && !AtLimit(run[n]))
    ensures var p := run[n].p; p.polls in p.woken || P.SomeoneCalls(p, p.polls) || P.SomeoneInSection(p)
  {
    NeedHasAWakeUp(run, events, n);
    EveryStateInv(run, events, n);
    hide T.Inv;
    NeedBitsMean(run[n].p.word);
  }

  lemma NeedBitsMean(v: P.Word)
    ensures P.NeedsInner(v) ==> v & P.NEED_TO_POLL_ALL != P.NONE && v & P.NEED_TO_POLL_ALL != STREAM
    ensures P.NeedsStream(v) ==> v & P.NEED_TO_POLL_ALL != P.NONE
    ensures v & (P.WOKEN | P.WAKING) != P.NONE ==> v & P.WOKEN != P.NONE || v & P.WAKING != P.NONE
  {
  }

  /** With a limit, the bucket never holds more inner streams than that. */
  lemma LimitIsKept(run: seq<State>, events: seq<Event>, n: nat)
    requires IsRun(run, events) && n < |run| && run[n].limit.Some?
    ensures Size(run[n]) <= run[n].limit.value
  {
    EveryStateInv(run, events, n);
  }
}
