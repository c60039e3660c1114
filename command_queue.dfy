/**
 * The bounded command queue a handle pushes onto and the audio thread drains.
 * Only the producer side is modelled: a push either appends or fails.
 */
module CommandQueues {

  /**
   * What one push does to a queue of `capacity` holding `before`: it succeeds
   * exactly when there is room, and then appends `c`; otherwise the queue is
   * left as it was.
   */
  ghost predicate Pushed<T>(before: seq<T>, after: seq<T>, capacity: nat, c: T, ok: bool)
  {
    && ok == (|before| < capacity)
    && after == if ok then before + [c] else before
  }

  /** A fixed-capacity queue of commands, oldest first. */
  class BoundedQueue<T> {
    const capacity: nat
    var contents: seq<T>

    ghost predicate Valid()
      reads this
    {
      |contents| <= capacity
    }

    /** An empty queue with room for `capacity` commands. */
    constructor (capacity: nat)
      ensures Valid() && this.capacity == capacity && contents == []
    {
      this.capacity := capacity;
      contents := [];
    }

    /** Appends `c` if there is room; never blocks. */
    method Push(c: T) returns (ok: bool)
      requires Valid()
      modifies this
      ensures Valid()
      ensures Pushed(old(contents), contents, capacity, c, ok)
    {
      ok := |contents| < capacity;
      if ok {
        contents := contents + [c];
      }
    }
  }

  /**
   * Pushes keep landing until the queue is full, and from then on every push
   * fails and changes nothing: after `k` successful pushes into a queue with
   * room for exactly `k` more, the next one fails.
   */
  method FillThenOverflow<T>(q: BoundedQueue<T>, cs: seq<T>, extra: T) returns (oks: seq<bool>, last: bool)
    requires q.Valid() && |q.contents| + |cs| == q.capacity
    modifies q
    ensures q.Valid()
    ensures |oks| == |cs| && forall i :: 0 <= i < |oks| ==> oks[i]
    ensures q.contents == old(q.contents) + cs
    ensures !last
  {
    oks := [];
    var i := 0;
    while i < |cs|
      invariant 0 <= i <= |cs| && |oks| == i
      invariant q.Valid()
      invariant forall j :: 0 <= j < i ==> oks[j]
      invariant q.contents == old(q.contents) + cs[..i]
    {
      var ok := q.Push(cs[i]);
      oks := oks + [ok];
      i := i + 1;
    }
    last := q.Push(extra);
  }
}
