/** Value-level specification of the bounded queue behind `Fifo<T>`:
    a push that fails instead of blocking when the queue is full, and a
    pull that fails and leaves its out-parameter alone when it is empty. */
module Queues {

  /** What `push` reports and the queue it leaves behind. */
  datatype PushOutcome<T> = PushOutcome(ok: bool, queue: seq<T>)

  /** What `pull` reports, the value its out-parameter then holds, and the queue it leaves behind. */
  datatype PullOutcome<T> = PullOutcome(ok: bool, item: T, queue: seq<T>)

  function Min(a: int, b: int): int { if a <= b then a else b }

  /** Offer `x` to a queue that can hold at most `usable` items. */
  function Push<T>(q: seq<T>, usable: nat, x: T): PushOutcome<T>
  {
    if |q| < usable then PushOutcome(true, q + [x]) else PushOutcome(false, q)
  }

  /** Take the oldest item; `t` is the out-parameter's value before the call. */
  function Pull<T>(q: seq<T>, t: T): PullOutcome<T>
  {
    if |q| > 0 then PullOutcome(true, q[0], q[1..]) else PullOutcome(false, t, q)
  }

  /** The queue after offering every item of `xs` in turn, with no pull in between. */
  function PushEach<T>(q: seq<T>, usable: nat, xs: seq<T>): seq<T>
    decreases |xs|
  {
    if xs == [] then q else Push(PushEach(q, usable, xs[..|xs| - 1]), usable, xs[|xs| - 1]).queue
  }

  /** The items a consumer obtains by pulling until a pull fails. */
  function Drain<T>(q: seq<T>, t: T): seq<T>
    decreases |q|
  {
    var r := Pull(q, t);
    if r.ok then [r.item] + Drain(r.queue, t) else []
  }

  /** A push onto an empty queue followed by a pull hands the item back and empties the queue. */
  lemma PushThenPull<T>(usable: nat, x: T, t: T)
    requires usable >= 1
    ensures Push([], usable, x).ok
    ensures Pull(Push([], usable, x).queue, t) == PullOutcome(true, x, [])
  {
  }

  /** A push on a full queue fails and leaves the queue as it was. */
  lemma PushWhenFull<T>(q: seq<T>, usable: nat, x: T)
    requires |q| >= usable
    ensures Push(q, usable, x) == PushOutcome(false, q)
  {
  }

  /** A pull on an empty queue fails and leaves the out-parameter untouched. */
  lemma PullWhenEmpty<T>(t: T)
    ensures Pull([], t) == PullOutcome(false, t, [])
  {
  }

  /** A successful push adds exactly one item and a successful pull removes exactly one. */
  lemma CountsMoveByOne<T>(q: seq<T>, usable: nat, x: T, t: T)
    ensures Push(q, usable, x).ok <==> |q| < usable
    ensures Push(q, usable, x).ok ==> |Push(q, usable, x).queue| == |q| + 1
    ensures Pull(q, t).ok <==> |q| > 0
    ensures Pull(q, t).ok ==> |Pull(q, t).queue| == |q| - 1
  {
  }

  /** Offering a run of items keeps the old queue in front and admits the
      longest prefix of the run that fits; the rest is dropped. */
  lemma {:induction false} PushEachAdmitsPrefix<T>(q: seq<T>, usable: nat, xs: seq<T>)
    requires |q| <= usable
    ensures PushEach(q, usable, xs) == q + xs[..Min(|xs|, usable - |q|)]
    decreases |xs|
  {
    if xs != [] {
      var init := xs[..|xs| - 1];
      PushEachAdmitsPrefix(q, usable, init);
      assert init[..Min(|init|, usable - |q|)] == xs[..Min(|init|, usable - |q|)];
      if |init| < usable - |q| {
        assert xs[..Min(|init|, usable - |q|)] + [xs[|xs| - 1]] == xs[..Min(|xs|, usable - |q|)];
      }
    }
  }

  /** Pulling until empty yields the queued items oldest first. */
  lemma {:induction false} DrainInOrder<T>(q: seq<T>, t: T)
    ensures Drain(q, t) == q
    decreases |q|
  {
    if |q| > 0 {
      DrainInOrder(q[1..], t);
    }
  }

  /** First in, first out: what is pulled from an empty queue after a run of
      pushes is the run itself, up to the queue's bound. */
  lemma FirstInFirstOut<T>(usable: nat, xs: seq<T>, t: T)
    ensures Drain(PushEach([], usable, xs), t) == xs[..Min(|xs|, usable)]
  {
    PushEachAdmitsPrefix([], usable, xs);
    DrainInOrder(PushEach([], usable, xs), t);
  }
}
