/** A run of `FuturesOrdered` over the set of futures that shows what it does not promise:
    an empty queue that answers `Pending`. */
module OrderedRuns {
  import opened Types
  import opened FuturesOrdered
  import Q = ReadyQueue
  import T = TaskSet
  import R = TaskSetRuns

  /** The fields once the futures of these tasks have been pushed at the back. */
  ghost function Pushed(tasks: seq<T.Tid>): State<T.Tid> {
    if tasks == [] then State({}, {}, 0, 0)
    else
      var last := |tasks| - 1;
      PushedBack(Pushed(tasks[..last]), Future(tasks[last], tasks[last]))
  }

  /** The fields once they have finished in that order: each output is yielded if it is
      the next one and kept otherwise. */
  ghost function Finished(s: State<T.Tid>, tasks: seq<T.Tid>): State<T.Tid>
    decreases |tasks|
  {
    if tasks == [] then s
    else if exists x :: x in s.inProgress && x.data.id == tasks[0] then
      var x :| x in s.inProgress && x.data.id == tasks[0];
      Finished(if x.index == s.outgoing then TakenFromProgress(s, x) else Stored(s, x), tasks[1..])
    else s
  }

  lemma TwoInOrder()
    ensures var s := Finished(Pushed([1, 2]), [1, 2]);
            s.inProgress == {} && s.queued == {} && Represents(s, [])
  {
    var x, y := Ordered(Future(1, 1), 0), Ordered(Future(2, 2), 1);
    var s0: State<T.Tid> := State({}, {}, 0, 0);
    assert Represents(s0, []);
    var s1 := PushedBack(s0, x.data);
    var s2 := PushedBack(s1, y.data);
    assert [1][..0] == [] && [1, 2][..1] == [1];
    assert Pushed([]) == s0 && Pushed([1]) == s1 && Pushed([1, 2]) == s2;
    assert x in s2.inProgress && y in s2.inProgress;
    var s3 := TakenFromProgress(s2, x);
    var s4 := TakenFromProgress(s3, y);
    assert y in s3.inProgress && x !in s3.inProgress;
    assert [1, 2][1..] == [2] && [2][1..] == [];
    assert Finished(s4, []) == s4;
    assert Finished(s3, [2]) == s4;
    assert Finished(s2, [1, 2]) == s4;
    assert s4.inProgress == {} && s4.queued == {};
  }

  /** Two futures are pushed at the back, finish in that order, and so are both yielded;
      the set below is then polled with nothing left in the queue, and answers `Pending`
      at a half-linked task, and so does `poll_next`. */
  lemma EmptyQueueCanBePending()
    ensures exists s, h ::
      && R.EmptyPoll(s, h) && s.owner == T.Idle(T.Pending) && Q.HalfLinked(s.q)
      && |h.finished| == 2 && Represents(Finished(Pushed(h.pushed), h.finished), [])
  {
    R.EmptySetCanBePending();
    var h := R.Log([1, 2], [1, 2]);
    var s :|
      && R.EmptyPoll(s, h) && s.owner == T.Idle(T.Pending)
      && s.q.tail != Q.STUB && |s.q.chain| >= 2 && Q.AboutToLink(s.q, 0);
    TwoInOrder();
    hide R.EmptyPoll, Represents, Pushed, Finished;
    assert Q.HalfLinked(s.q);
    assert R.EmptyPoll(s, h) && |h.finished| == 2 && Represents(Finished(Pushed(h.pushed), h.finished), []);
  }
}
