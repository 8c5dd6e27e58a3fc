/** A source stream as a script of the answers it will give.  After the end of the
    script it is pending for ever, so that every finite part of the behaviour of any
    stream is some script; an unfused stream may well answer after its end. */
module Source {
  import opened Types

  class Stream<T> {
    var script: seq<Answer<T>>

    /** How often it has been polled, and what it answered last. */
    ghost var polls: nat
    ghost var last: Answer<T>

    constructor (script: seq<Answer<T>>)
      ensures this.script == script && polls == 0
    {
      this.script := script;
      polls, last := 0, Pending;
    }

    method PollNext() returns (a: Answer<T>)
      modifies this
      ensures (script, a) == Next(old(script))
      ensures polls == old(polls) + 1 && last == a
    {
      a := Pending;
      if script != [] {
        a, script := script[0], script[1..];
      }
      polls, last := polls + 1, a;
    }
  }

  function Next<T>(script: seq<Answer<T>>): (seq<Answer<T>>, Answer<T>) {
    if script == [] then ([], Pending) else (script[1..], script[0])
  }

  /** The values among some answers, errors included. */
  function Values<T>(answers: seq<Answer<T>>): seq<T> {
    if answers == [] then []
    else (if answers[0].Ready? && answers[0].value.Some? then [answers[0].value.value] else []) + Values(answers[1..])
  }

  lemma ValuesAppend<T>(a: seq<Answer<T>>, b: seq<Answer<T>>)
    ensures Values(a + b) == Values(a) + Values(b)
  {
    if a == [] {
      assert a + b == b;
    } else {
      assert (a + b)[1..] == a[1..] + b;
      ValuesAppend(a[1..], b);
    }
  }

  predicate IsOk<T, E>(a: TryAnswer<T, E>) {
    a.Ready? && a.value.Some? && a.value.value.Ok?
  }

  /** How many successful items the source gives in a row, up to `cap`. */
  function LeadingOks<T, E>(script: seq<TryAnswer<T, E>>, cap: nat): (n: nat)
    ensures n <= cap && n <= |script|
    ensures forall i :: 0 <= i < n ==> IsOk(script[i])
    ensures n == cap || n == |script| || !IsOk(script[n])
  {
    if cap == 0 || script == [] || !IsOk(script[0]) then 0 else 1 + LeadingOks(script[1..], cap - 1)
  }

  function Items<T, E>(script: seq<TryAnswer<T, E>>, n: nat): (xs: seq<T>)
    requires n <= |script| && forall i :: 0 <= i < n ==> IsOk(script[i])
    ensures |xs| == n
    ensures forall i :: 0 <= i < n ==> script[i] == Ready(Some(Ok(xs[i])))
  {
    if n == 0 then [] else
    assert IsOk(script[n - 1]);
    Items(script, n - 1) + [script[n - 1].value.value.value]
  }

  lemma LeadingOksUnique<T, E>(script: seq<TryAnswer<T, E>>, cap: nat, n: nat)
    requires n <= cap && n <= |script|
    requires forall i :: 0 <= i < n ==> IsOk(script[i])
    requires n == cap || n == |script| || !IsOk(script[n])
    ensures n == LeadingOks(script, cap)
  {
  }

  /** `IntoFuseStream`: does not poll the source any more once it has ended. */
  class FusedStream<T> {
    const stream: Stream<T>
    var terminated: bool

    constructor (stream: Stream<T>)
      ensures this.stream == stream && !terminated
    {
      this.stream := stream;
      terminated := false;
    }

    function Script(): seq<Answer<T>>
      reads this, stream
    {
      stream.script
    }

    method PollNext() returns (a: Answer<T>)
      modifies this, stream
      ensures old(terminated) ==> a == Ready(None) && terminated && Script() == old(Script())
      ensures stream.polls == old(stream.polls) + if old(terminated) then 0 else 1
      ensures !old(terminated) ==>
        (Script(), a) == Next(old(Script())) && (terminated <==> a == Ready(None))
    {
      if terminated {
        return Ready(None);
      }
      a := stream.PollNext();
      if a == Ready(None) {
        terminated := true;
      }
    }

    predicate IsTerminated()
      reads this
    {
      terminated
    }
  }
}
