/** The poll-state word of `FlattenUnordered`: one poller and any number of wakers
    arbitrate through a five-bit atomic word.  Every `fetch_update`, `swap` and cell
    access is one step of the machine. */
module PollState {
  import opened Types

  type Word = bv8
  type Tidx = nat

  const NONE: Word := 0
  const NEED_TO_POLL_INNER_STREAMS: Word := 1
  const NEED_TO_POLL_STREAM: Word := 2
  const NEED_TO_POLL_ALL: Word := 3
  const POLLING: Word := 4
  const WAKING: Word := 8
  const WOKEN: Word := 16

  /** The word asks for a poll of the inner streams, or of the base stream. */
  predicate NeedsInner(v: Word) {
    v & NEED_TO_POLL_INNER_STREAMS != NONE
  }

  predicate NeedsStream(v: Word) {
    v & NEED_TO_POLL_STREAM != NONE
  }

  // -------------------------------------------- the five transitions of the word

  /** `start_polling`: `None` while a waker is waking. */
  function StartPolling(value: Word): Option<Word> {
    if value & WAKING == NONE then Some(POLLING) else None
  }

  /** `start_waking`: the new word, and whether the waking process starts. */
  function StartWaking(value: Word, toPoll: Word): (Word, bool) {
    var next := value | toPoll | if value & (WOKEN | POLLING) == NONE then WAKING else NONE;
    (next, next != value && value & (WOKEN | POLLING | WAKING) == NONE)
  }

  function StopPolling(value: Word, toPoll: Word, willBeWoken: bool): Word {
    var kept := value & NEED_TO_POLL_ALL;
    (toPoll | (if kept != NONE || willBeWoken then WOKEN else NONE) | kept) & !POLLING & !WAKING
  }

  function StopWaking(value: Word): Word {
    (value & !WAKING) | WOKEN
  }

  const RESET: Word := NEED_TO_POLL_ALL

  // -------------------------------------------------------------------- machine

  datatype Last = Never | WasPending | WasReady | Panicked

  datatype Poller =
    | Out(last: Last)
    | Entered(value: Word)
    | InPoll(value: Word)
    | Leaving(ready: bool, wake: bool)

  /** A waker inside `wake_by_ref`; `Section` and `Cloned` are its critical section. */
  datatype Waker = Off | Section | Cloned(inner: Option<nat>) | Calling(context: nat)

  /** `polls` numbers the contexts; `cell` is the context stored in the inner-waker
      cells, `woken` the contexts whose waker has been called, `atLimit` whether the
      bucket was at its limit when the last poll ended. */
  datatype State = State(
    word: Word,
    poller: Poller,
    wakers: map<Tidx, Waker>,
    cell: Option<nat>,
    polls: nat,
    woken: set<nat>,
    atLimit: bool)

  const NEW: State := State(NEED_TO_POLL_STREAM, Out(Never), map[], None, 0, {}, false)

  function Pc(s: State, w: Tidx): Waker {
    if w in s.wakers then s.wakers[w] else Off
  }

  function SetPc(s: State, w: Tidx, p: Waker): State {
    s.(wakers := s.wakers[w := p])
  }

  predicate IsKind(k: Word) {
    k == NEED_TO_POLL_INNER_STREAMS || k == NEED_TO_POLL_STREAM
  }

  /** A wrapped waker of kind `k` is woken by thread `w`. */
  function Wake(s: State, w: Tidx, k: Word): State {
    var (next, started) := StartWaking(s.word, k);
    if started then SetPc(s.(word := next), w, Section) else s.(word := next)
  }

  function ReadCell(s: State, w: Tidx): State {
    SetPc(s, w, Cloned(s.cell))
  }

  function EndWaking(s: State, w: Tidx): State
    requires Pc(s, w).Cloned?
  {
    SetPc(s.(word := StopWaking(s.word)), w,
          match Pc(s, w).inner case Some(c) => Calling(c) case None => Off)
  }

  function Call(s: State, w: Tidx): State
    requires Pc(s, w).Calling?
  {
    SetPc(s.(woken := s.woken + {Pc(s, w).context}), w, Off)
  }

  /** One attempt of the loop around `start_polling`. */
  function Enter(s: State): State {
    match StartPolling(s.word)
    case None => s
    case Some(next) => s.(word := next, poller := Entered(s.word), polls := s.polls + 1)
  }

  function ReplaceWakers(s: State): State
    requires s.poller.Entered?
  {
    s.(cell := Some(s.polls), poller := InPoll(s.poller.value))
  }

  predicate ForceWake(need: Word, atLimit: bool) {
    (need & NEED_TO_POLL_STREAM != NONE && !atLimit) || need & NEED_TO_POLL_INNER_STREAMS != NONE
  }

  function Leave(s: State, need: Word, atLimit: bool, ready: bool): State {
    var force := ForceWake(need, atLimit);
    s.(word := StopPolling(s.word, need, force),
       poller := Leaving(ready, force || s.word & NEED_TO_POLL_ALL != NONE),
       atLimit := atLimit)
  }

  function Return(s: State): State
    requires s.poller.Leaving?
  {
    if s.poller.ready then s.(poller := Out(WasReady))
    else s.(poller := Out(WasPending), woken := if s.poller.wake then s.woken + {s.polls} else s.woken)
  }

  /** The bomb goes off when a poll panics. */
  function Reset(s: State): State {
    s.(word := RESET, poller := Out(Panicked))
  }

  datatype Event =
    | EWake(w: Tidx, kind: Word)
    | EReadCell(w: Tidx)
    | EEndWaking(w: Tidx)
    | ECall(w: Tidx)
    | EEnter
    | EReplace
    | ELeave(need: Word, atLimit: bool, ready: bool)
    | EReturn
    | EReset

  /** A wrapped waker exists once the cells have been filled. */
  predicate Enabled(s: State, e: Event) {
    match e
    case EWake(w, k) => Pc(s, w).Off? && IsKind(k) && s.cell.Some?
    case EReadCell(w) => Pc(s, w).Section?
    case EEndWaking(w) => Pc(s, w).Cloned?
    case ECall(w) => Pc(s, w).Calling?
    case EEnter => s.poller.Out?
    case EReplace => s.poller.Entered?
    case ELeave(need, _, _) => s.poller.InPoll? && need <= NEED_TO_POLL_ALL
    case EReturn => s.poller.Leaving?
    case EReset => s.poller.InPoll?
  }

  function Apply(s: State, e: Event): State
    requires Enabled(s, e)
  {
    match e
    case EWake(w, k) => Wake(s, w, k)
    case EReadCell(w) => ReadCell(s, w)
    case EEndWaking(w) => EndWaking(s, w)
    case ECall(w) => Call(s, w)
    case EEnter => Enter(s)
    case EReplace => ReplaceWakers(s)
    case ELeave(need, atLimit, ready) => Leave(s, need, atLimit, ready)
    case EReturn => Return(s)
    case EReset => Reset(s)
  }

  // ------------------------------------------------------------------ invariant

  predicate InSection(p: Waker) {
    p.Section? || p.Cloned?
  }

  /** The word is need bits plus at most one phase. */
  predicate Phase(word: Word, polling: bool, waking: bool) {
    && word < 32
    && (word & POLLING != NONE <==> polling)
    && (word & WAKING != NONE <==> waking)
    && (polling ==> !waking)
    && (polling || waking ==> word & WOKEN == NONE)
  }

  predicate Polls(s: State) {
    s.poller.Entered? || s.poller.InPoll?
  }

  ghost predicate SomeoneInSection(s: State) {
    exists w :: w in s.wakers && InSection(s.wakers[w])
  }

  ghost predicate SomeoneCalls(s: State, c: nat) {
    exists w :: w in s.wakers && s.wakers[w] == Calling(c)
  }

  ghost predicate ExclusionInv(s: State) {
    && Phase(s.word, Polls(s), SomeoneInSection(s))
    && (forall v, w :: v in s.wakers && w in s.wakers && InSection(s.wakers[v]) && InSection(s.wakers[w]) ==> v == w)
  }

  /** The cells hold the context of the last poll that got as far as filling them. */
  ghost predicate CellInv(s: State) {
    && (s.polls > 0 && !s.poller.Entered? ==> s.cell == Some(s.polls))
    && (s.polls == 0 ==> s.cell == None && s.poller == Out(Never))
    && (s.poller == Out(Never) ==> s.polls == 0 && s.word == NEED_TO_POLL_STREAM)
    && (forall w :: w in s.wakers && s.wakers[w].Cloned? ==> s.wakers[w].inner == Some(s.polls))
  }

  /** Outside a poll, a word that says `WOKEN` has a wake-up of the last caller behind
      it, and a need bit without one can only ask for the base stream at the limit. */
  ghost predicate WokenInv(s: State) {
    && (s.poller == Out(WasPending) && s.word & WOKEN != NONE ==> s.polls in s.woken || SomeoneCalls(s, s.polls))
    && (s.poller.Leaving? && s.word & WOKEN != NONE ==> s.poller.wake || s.polls in s.woken || SomeoneCalls(s, s.polls))
    && (s.poller.Leaving? || s.poller == Out(WasPending) || s.poller == Out(WasReady) ==> NeedIsCovered(s))
  }

  predicate NeedIsCovered(s: State) {
    || s.word & NEED_TO_POLL_ALL == NONE
    || s.word & (WOKEN | WAKING) != NONE
    || (s.word & NEED_TO_POLL_ALL == NEED_TO_POLL_STREAM && s.atLimit)
  }

  ghost predicate Inv(s: State) {
    ExclusionInv(s) && CellInv(s) && WokenInv(s)
  }

  // -------------------------------------------------------- facts about the word

  lemma StartWakingFacts(v: Word, k: Word, polling: bool, waking: bool)
    requires Phase(v, polling, waking) && IsKind(k)
    ensures var (next, started) := StartWaking(v, k);
            && Phase(next, polling, waking || started)
            && (started ==> !polling && !waking && v & WOKEN == NONE)
            && (next & WOKEN == v & WOKEN)
            && next & NEED_TO_POLL_ALL == (v & NEED_TO_POLL_ALL) | k
            && (polling || next & (WOKEN | WAKING) != NONE)
  {
  }

  lemma StopPollingFacts(v: Word, need: Word, force: bool)
    requires Phase(v, true, false) && need <= NEED_TO_POLL_ALL
    ensures var next := StopPolling(v, need, force);
            && Phase(next, false, false)
            && next & NEED_TO_POLL_ALL == (v & NEED_TO_POLL_ALL) | need
            && (next & WOKEN != NONE <==> force || v & NEED_TO_POLL_ALL != NONE)
  {
  }

  lemma StopWakingFacts(v: Word)
    requires Phase(v, false, true)
    ensures v & (WOKEN | POLLING | WAKING) == WAKING
    ensures var next := StopWaking(v);
            && Phase(next, false, false)
            && next & WOKEN != NONE
            && next & NEED_TO_POLL_ALL == v & NEED_TO_POLL_ALL
  {
  }

  lemma StartPollingFacts(v: Word, waking: bool)
    requires Phase(v, false, waking)
    ensures StartPolling(v).Some? <==> !waking
    ensures Phase(POLLING, true, false)
  {
  }

  // ------------------------------------------------------ every step keeps it

  lemma SectionFrame(s: State, s': State, w: Tidx)
    requires ExclusionInv(s) && s'.wakers == s.wakers[w := Pc(s', w)]
    requires InSection(Pc(s', w)) ==> InSection(Pc(s, w)) || !SomeoneInSection(s)
    ensures forall v, u :: v in s'.wakers && u in s'.wakers && InSection(s'.wakers[v]) && InSection(s'.wakers[u]) ==>
      v == u
    ensures SomeoneInSection(s') <==> InSection(Pc(s', w)) || (SomeoneInSection(s) && !InSection(Pc(s, w)))
  {
    if SomeoneInSection(s) && !InSection(Pc(s, w)) {
      var v :| v in s.wakers && InSection(s.wakers[v]);
      assert v in s'.wakers && InSection(s'.wakers[v]);
    }
    if InSection(Pc(s', w)) {
      assert w in s'.wakers;
    }
  }

  /** A thread that was not calling leaves every pending call in place. */
  lemma CallsFrame(s: State, s': State, w: Tidx, c: nat)
    requires s'.wakers == s.wakers[w := Pc(s', w)] && Pc(s, w) != Calling(c)
    ensures SomeoneCalls(s, c) ==> SomeoneCalls(s', c)
    ensures Pc(s', w) == Calling(c) ==> SomeoneCalls(s', c)
  {
    if SomeoneCalls(s, c) {
      var v :| v in s.wakers && s.wakers[v] == Calling(c);
      assert v in s'.wakers && s'.wakers[v] == Calling(c);
    }
    if Pc(s', w) == Calling(c) {
      assert w in s'.wakers;
    }
  }

  lemma WakeKeepsInv(s: State, w: Tidx, k: Word)
    requires Inv(s) && Enabled(s, EWake(w, k))
    ensures Inv(Wake(s, w, k))
  {
    hide Phase, StartWaking;
    StartWakingFacts(s.word, k, Polls(s), SomeoneInSection(s));
    var s' := Wake(s, w, k);
    if StartWaking(s.word, k).1 {
      SectionFrame(s, s', w);
      CallsFrame(s, s', w, s.polls);
    }
  }

  lemma ReadCellKeepsInv(s: State, w: Tidx)
    requires Inv(s) && Enabled(s, EReadCell(w))
    ensures Inv(ReadCell(s, w))
    ensures !Polls(s) && s.cell == Some(s.polls)
  {
    var s' := ReadCell(s, w);
    assert w in s.wakers && SomeoneInSection(s);
    SectionFrame(s, s', w);
    CallsFrame(s, s', w, s.polls);
  }

  /** The assertion in `stop_waking` holds. */
  lemma EndWakingKeepsInv(s: State, w: Tidx)
    requires Inv(s) && Enabled(s, EEndWaking(w))
    ensures Inv(EndWaking(s, w))
    ensures s.word & (WOKEN | POLLING | WAKING) == WAKING
  {
    hide Phase, StopWaking;
    var s' := EndWaking(s, w);
    assert w in s.wakers && SomeoneInSection(s);
    SectionFrame(s, s', w);
    assert !Polls(s) by { PhaseExcludes(s.word, Polls(s), true); }
    StopWakingFacts(s.word);
    CallsFrame(s, s', w, s.polls);
  }

  lemma SectionExcludesPolling(s: State, w: Tidx)
    requires ExclusionInv(s) && InSection(Pc(s, w))
    ensures !Polls(s)
  {
    assert w in s.wakers && SomeoneInSection(s);
  }

  lemma PhaseExcludes(v: Word, polling: bool, waking: bool)
    requires Phase(v, polling, waking)
    ensures !(polling && waking)
  {
  }

  lemma CallKeepsInv(s: State, w: Tidx)
    requires Inv(s) && Enabled(s, ECall(w))
    ensures Inv(Call(s, w))
  {
    hide Phase;
    var s', c := Call(s, w), Pc(s, w).context;
    SectionFrame(s, s', w);
    if s.polls != c {
      CallsFrame(s, s', w, s.polls);
    }
  }

  lemma EnterKeepsInv(s: State)
    requires Inv(s) && Enabled(s, EEnter)
    ensures Inv(Enter(s))
    ensures Enter(s).poller.Entered? ==> Enter(s).poller.value == s.word && !SomeoneInSection(s)
  {
    hide Phase, StartPolling;
    StartPollingFacts(s.word, SomeoneInSection(s));
    var s' := Enter(s);
    assert StartPolling(s.word) == None || StartPolling(s.word) == Some(POLLING) by { EnterGivesPolling(s.word); }
    assert SomeoneInSection(s') <==> SomeoneInSection(s);
  }

  lemma EnterGivesPolling(v: Word)
    ensures StartPolling(v) == None || StartPolling(v) == Some(POLLING)
  {
  }

  lemma LeaveKeepsInv(s: State, need: Word, atLimit: bool, ready: bool)
    requires Inv(s) && Enabled(s, ELeave(need, atLimit, ready))
    ensures Inv(Leave(s, need, atLimit, ready))
  {
    hide StopPolling;
    StopPollingFacts(s.word, need, ForceWake(need, atLimit));
    var s' := Leave(s, need, atLimit, ready);
    assert SomeoneInSection(s') <==> SomeoneInSection(s);
    NeedFacts(s.word, need, atLimit);
  }

  lemma NeedFacts(v: Word, need: Word, atLimit: bool)
    requires need <= NEED_TO_POLL_ALL
    ensures !ForceWake(need, atLimit) && v & NEED_TO_POLL_ALL == NONE ==>
      var kept := (v & NEED_TO_POLL_ALL) | need;
      kept == NONE || (kept == NEED_TO_POLL_STREAM && atLimit)
  {
  }

  lemma ApplyKeepsInv(s: State, e: Event)
    requires Inv(s) && Enabled(s, e)
    ensures Inv(Apply(s, e))
  {
    hide Inv, Enabled;
    match e
    case EWake(w, k) => WakeKeepsInv(s, w, k);
    case EReadCell(w) => ReadCellKeepsInv(s, w);
    case EEndWaking(w) => EndWakingKeepsInv(s, w);
    case ECall(w) => CallKeepsInv(s, w);
    case EEnter => EnterKeepsInv(s);
    case ELeave(need, atLimit, ready) => LeaveKeepsInv(s, need, atLimit, ready);
    case _ => PollerMoves(s, e);
  }

  /** The steps of the poller that touch no waker. */
  lemma PollerMoves(s: State, e: Event)
    requires Inv(s) && Enabled(s, e) && (e.EReplace? || e.EReturn? || e.EReset?)
    ensures Inv(Apply(s, e))
  {
    var s' := Apply(s, e);
    assert SomeoneInSection(s') <==> SomeoneInSection(s);
    assert SomeoneCalls(s', s.polls) <==> SomeoneCalls(s, s.polls);
  }

  // ------------------------------------------------------------- main theorems

  ghost predicate IsRun(run: seq<State>, events: seq<Event>) {
    && |run| == |events| + 1
    && run[0] == NEW
    && forall i :: 0 <= i < |events| ==> Enabled(run[i], events[i]) && run[i + 1] == Apply(run[i], events[i])
  }

  lemma NewInv()
    ensures Inv(NEW)
  {
  }

  lemma {:induction false} EveryStateInv(run: seq<State>, events: seq<Event>, n: nat)
    requires IsRun(run, events) && n < |run|
    ensures Inv(run[n])
  {
    if n == 0 {
      NewInv();
    } else {
      EveryStateInv(run, events, n - 1);
      hide Inv, Apply, Enabled;
      ApplyKeepsInv(run[n - 1], events[n - 1]);
    }
  }

  /** In every state of every run at most one of `POLLING`, `WAKING` and `WOKEN` is
      set; `WAKING` is set exactly while a waker is inside its critical section, which
      is then the only one; and `POLLING` exactly while the poller polls. */
  lemma Exclusion(run: seq<State>, events: seq<Event>, n: nat)
    requires IsRun(run, events) && n < |run|
    ensures var s := run[n];
            && s.word & (POLLING | WAKING | WOKEN) in {NONE, POLLING, WAKING, WOKEN}
            && (s.word & POLLING != NONE <==> Polls(s))
            && (s.word & WAKING != NONE <==> SomeoneInSection(s))
            && (forall v, w :: v in s.wakers && w in s.wakers ==>
                  InSection(s.wakers[v]) && InSection(s.wakers[w]) ==> v == w)
  {
    EveryStateInv(run, events, n);
    PhaseBits(run[n].word, Polls(run[n]), SomeoneInSection(run[n]));
  }

  lemma PhaseBits(v: Word, polling: bool, waking: bool)
    requires Phase(v, polling, waking)
    ensures v & (POLLING | WAKING | WOKEN) in {NONE, POLLING, WAKING, WOKEN}
  {
  }

  /** No waker reads an inner-waker cell while the poller may write it, the cell read
      is that of the latest poll, and the assertion of `stop_waking` holds. */
  lemma CellAccessIsSafe(run: seq<State>, events: seq<Event>, n: nat)
    requires IsRun(run, events) && n < |events|
    ensures events[n].EReplace? ==> !SomeoneInSection(run[n])
    ensures events[n].EReadCell? ==> !Polls(run[n]) && run[n].cell == Some(run[n].polls)
    ensures events[n].EEndWaking? ==> run[n].word & (WOKEN | POLLING | WAKING) == WAKING
  {
    EveryStateInv(run, events, n);
    match events[n]
    case EReadCell(w) => ReadCellKeepsInv(run[n], w);
    case EEndWaking(w) => EndWakingKeepsInv(run[n], w);
    case EReplace => PhaseExcludes(run[n].word, Polls(run[n]), SomeoneInSection(run[n]));
    case _ =>
  }

  /** The event is a `start_polling` that takes the word. */
  predicate Consumes(s: State, e: Event) {
    e.EEnter? && StartPolling(s.word).Some?
  }

  lemma StepKeepsBit(s: State, e: Event, k: Word)
    requires Inv(s) && Enabled(s, e) && IsKind(k) && s.word & k != NONE
    ensures Consumes(s, e) ==> Apply(s, e).poller == Entered(s.word)
    ensures !Consumes(s, e) ==> Apply(s, e).word & k != NONE
  {
    match e
    case EWake(w, k') => KeepsBitWaking(s.word, k', k);
    case EEndWaking(w) => KeepsBitStopWaking(s.word, k);
    case ELeave(need, atLimit, ready) => KeepsBitStopPolling(s.word, need, ForceWake(need, atLimit), k);
    case _ =>
  }

  lemma KeepsBitWaking(v: Word, k': Word, k: Word)
    requires v & k != NONE
    ensures StartWaking(v, k').0 & k != NONE
    ensures IsKind(k') ==> StartWaking(v, k').0 & k' != NONE
  {
  }

  lemma KeepsBitStopWaking(v: Word, k: Word)
    requires v & k != NONE && IsKind(k)
    ensures StopWaking(v) & k != NONE
  {
  }

  lemma KeepsBitStopPolling(v: Word, need: Word, force: bool, k: Word)
    requires v & k != NONE && IsKind(k)
    ensures StopPolling(v, need, force) & k != NONE
  {
  }

  /** Conservation: a need bit set by a waker stays set, whatever the other threads do
      and even if it was set during a poll, until a `start_polling` returns it. */
  lemma {:induction false} BitsAreConserved(run: seq<State>, events: seq<Event>, i: nat, j: nat, k: Word)
    requires IsRun(run, events) && i < j <= |events| && IsKind(k)
    requires events[i].EWake? && events[i].kind == k
    requires forall n :: i < n < j ==> !Consumes(run[n], events[n])
    ensures run[j].word & k != NONE
    decreases j - i
  {
    hide Inv, Apply, Consumes, Enabled;
    if i + 1 == j {
      WakingSetsBit(run[i], events[i]);
    } else {
      EveryStateInv(run, events, j - 1);
      BitsAreConserved(run, events, i, j - 1, k);
      StepKeepsBit(run[j - 1], events[j - 1], k);
    }
  }

  /** ... and the next `start_polling` does return it. */
  lemma BitsReachThePoller(run: seq<State>, events: seq<Event>, i: nat, j: nat, k: Word)
    requires IsRun(run, events) && i < j < |events| && IsKind(k)
    requires events[i].EWake? && events[i].kind == k
    requires forall n :: i < n < j ==> !Consumes(run[n], events[n])
    requires Consumes(run[j], events[j])
    ensures run[j + 1].poller.Entered? && run[j + 1].poller.value & k != NONE
  {
    hide Inv, Apply, Consumes, Enabled, Polls;
    BitsAreConserved(run, events, i, j, k);
    EveryStateInv(run, events, j);
    StepKeepsBit(run[j], events[j], k);
  }

  lemma WakingSetsBit(s: State, e: Event)
    requires Enabled(s, e) && e.EWake?
    ensures Apply(s, e).word & e.kind != NONE
  {
  }

  /** After the first poll and absent a panic, whenever `POLLING` is not set, a need bit
      either comes with `WOKEN` or `WAKING`, or only asks for the base stream while the
      bucket was at its limit at the end of that poll. */
  lemma NeedHasAWakeUp(run: seq<State>, events: seq<Event>, n: nat)
    requires IsRun(run, events) && n < |run|
    requires run[n].poller.Leaving? || run[n].poller == Out(WasPending) || run[n].poller == Out(WasReady)
    ensures NeedIsCovered(run[n])
  {
    EveryStateInv(run, events, n);
  }

  /** After a poll that returned `Pending`, a word that says `WOKEN` means that the
      caller's waker has been called, or that a thread holds it and is about to. */
  lemma WokenMeansCalled(run: seq<State>, events: seq<Event>, n: nat)
    requires IsRun(run, events) && n < |run|
    requires run[n].poller == Out(WasPending) && run[n].word & WOKEN != NONE
    ensures run[n].polls in run[n].woken || SomeoneCalls(run[n], run[n].polls)
  {
    EveryStateInv(run, events, n);
  }

  /** `start_polling` takes the word exactly if no waker is in its critical section, and
      gives all of it to the poll. */
  lemma StartPollingSucceeds(run: seq<State>, events: seq<Event>, n: nat)
    requires IsRun(run, events) && n < |events| && events[n].EEnter?
    ensures if SomeoneInSection(run[n]) then run[n + 1] == run[n]
            else run[n + 1].poller == Entered(run[n].word) && run[n + 1].word == POLLING
  {
    EveryStateInv(run, events, n);
    StartPollingFacts(run[n].word, SomeoneInSection(run[n]));
    EnterGivesPolling(run[n].word);
  }

  /** `stop_polling` sets `WOKEN` exactly when the poll goes on to call its own waker
      if it is to answer `Pending`: if it asks for another poll of the bucket, or of the
      base stream below the limit, or if a waker has set a need bit meanwhile. */
  lemma LeaveWakesIffWoken(s: State, need: Word, atLimit: bool, ready: bool)
    requires Inv(s) && Enabled(s, ELeave(need, atLimit, ready))
    ensures var s' := Leave(s, need, atLimit, ready);
            && (s'.word & WOKEN != NONE <==> s'.poller.wake)
            && (s'.poller.wake <==>
                  || (need & NEED_TO_POLL_STREAM != NONE && !atLimit)
                  || need & NEED_TO_POLL_INNER_STREAMS != NONE
                  || s.word & NEED_TO_POLL_ALL != NONE)
            && (s'.word & NEED_TO_POLL_ALL == NONE ==> !s'.poller.wake)
            && (!ready && s'.word & WOKEN != NONE ==> s'.polls in Return(s').woken)
  {
    assert Polls(s);
    assert !SomeoneInSection(s) by { PhaseExcludes(s.word, true, SomeoneInSection(s)); }
    StopPollingFacts(s.word, need, ForceWake(need, atLimit));
  }
}
