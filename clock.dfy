/**
 * The clock tick scheduler: a clock turns elapsed time, at a tick rate, into
 * whole tick crossings, numbers each tick, and publishes its progress in a
 * shared cell that clock handles read.
 */
module Clocks {
  import opened Wrappers

  /** Progress marker of a clock: no tick yet, or the number of the last tick. */
  datatype ClockState = NotStarted | Started(ticks: nat)

  /** The tick count a state publishes: 0 while no tick has happened. */
  function Published(s: ClockState): nat
  {
    match s
    case NotStarted => 0
    case Started(k) => k
  }

  /** The number the next tick will carry: 0 for the first one, then one more than the last. */
  function FirstTick(s: ClockState): nat
  {
    match s
    case NotStarted => 0
    case Started(k) => k + 1
  }

  /** The progress marker after one tick crossing. */
  function NextState(s: ClockState): (r: ClockState)
    ensures r.Started? && Published(r) == FirstTick(s)
  {
    match s
    case NotStarted => Started(0)
    case Started(k) => Started(k + 1)
  }

  /** The progress marker after `n` tick crossings. */
  function Advance(s: ClockState, n: nat): ClockState
  {
    if n == 0 then s else NextState(Advance(s, n - 1))
  }

  /** The tick numbers reported, in order, by `n` tick crossings starting from `s`. */
  function Emitted(s: ClockState, n: nat): seq<nat>
  {
    if n == 0 then [] else Emitted(s, n - 1) + [Published(Advance(s, n))]
  }

  /** Termination measure of the tick loop: how far below zero the timer is, in whole ticks. */
  function Deficit(t: real): nat
  {
    if t > 0.0 then 0 else (-t).Floor + 1
  }

  /**
   * How many times the tick loop adds 1.0 to a timer that starts at `t`
   * before the timer is above zero.
   */
  function Crossings(t: real): nat
    decreases Deficit(t)
  {
    if t > 0.0 then 0 else 1 + Crossings(t + 1.0)
  }

  /** The crossing count is the least number of whole steps that lift `t` above zero. */
  lemma {:induction false} CrossingsLeast(t: real)
    ensures t + Crossings(t) as real > 0.0
    ensures Crossings(t) > 0 ==> t + (Crossings(t) - 1) as real <= 0.0
    decreases Deficit(t)
  {
    if t <= 0.0 {
      CrossingsLeast(t + 1.0);
    }
  }

  /** No smaller number of whole steps lifts `t` above zero. */
  lemma CrossingsMinimal(t: real, m: nat)
    requires t + m as real > 0.0
    ensures Crossings(t) <= m
  {
    CrossingsLeast(t);
  }

  /** The crossing count in closed form: none for a positive timer, one more than the whole deficit otherwise. */
  lemma {:induction false} CrossingsClosedForm(t: real)
    ensures Crossings(t) == if t > 0.0 then 0 else (-t).Floor + 1
    decreases Deficit(t)
  {
    if t <= 0.0 {
      CrossingsClosedForm(t + 1.0);
    }
  }

  /** A timer in (0, 1] that loses exactly one tick's worth of time crosses once and comes back to where it was. */
  lemma SteadyRate(t: real, rate: real, dt: real)
    requires 0.0 < t <= 1.0 && rate * dt == 1.0
    ensures Crossings(t - rate * dt) == 1
    ensures t - rate * dt + 1.0 == t
  {
  }

  /** After `n > 0` crossings the clock has started, and its count is the number of the last tick. */
  lemma {:induction false} AdvanceClosedForm(s: ClockState, n: nat)
    requires n > 0
    ensures Advance(s, n) == Started(FirstTick(s) + n - 1)
  {
    if n > 1 {
      AdvanceClosedForm(s, n - 1);
    }
  }

  /**
   * Tick numbering: the i-th reported tick is FirstTick(s) + i, so the first
   * tick after NotStarted is 0 and every tick is the previous one plus 1.
   */
  lemma {:induction false} TickNumbering(s: ClockState, n: nat)
    ensures |Emitted(s, n)| == n
    ensures forall i :: 0 <= i < n ==> Emitted(s, n)[i] == FirstTick(s) + i
  {
    if n > 0 {
      TickNumbering(s, n - 1);
      AdvanceClosedForm(s, n);
    }
  }

  /** Consecutive reported ticks differ by exactly one. */
  lemma ConsecutiveTicks(s: ClockState, n: nat, i: nat)
    requires i + 1 < n
    ensures |Emitted(s, n)| == n && Emitted(s, n)[i + 1] == Emitted(s, n)[i] + 1
  {
    TickNumbering(s, n);
  }

  /**
   * Crossings in two batches (two calls of Update) report the same ticks as
   * the same crossings in one: numbering continues across calls.
   */
  lemma {:induction false} EmittedConcat(s: ClockState, m: nat, n: nat)
    ensures Advance(Advance(s, m), n) == Advance(s, m + n)
    ensures Emitted(s, m + n) == Emitted(s, m) + Emitted(Advance(s, m), n)
  {
    if n > 0 {
      EmittedConcat(s, m, n - 1);
    }
  }

  /** The shared cell a clock publishes to and its handles read. */
  class ClockShared {
    var ticking: bool
    var ticks: nat
    var removed: bool
    /** Every value ever stored into `ticks`, oldest first. */
    ghost var history: seq<nat>

    /** The tick count holds the value stored last, or 0 if none was stored yet. */
    ghost predicate Valid()
      reads this
    {
      ticks == if history == [] then 0 else history[|history| - 1]
    }

    /** A fresh cell: not ticking, no ticks, not marked for removal. */
    constructor ()
      ensures Valid() && history == []
      ensures !Ticking() && Ticks() == 0 && !IsMarkedForRemoval()
    {
      ticking := false;
      ticks := 0;
      removed := false;
      history := [];
    }

    /** Whether the clock is ticking, as last published. */
    function Ticking(): (b: bool)
      reads this
      ensures b == ticking
    {
      ticking
    }

    /** The tick count stored last by the clock, or 0 if it has stored none. */
    function Ticks(): (n: nat)
      requires Valid()
      reads this
      ensures n == if history == [] then 0 else history[|history| - 1]
    {
      ticks
    }

    /** Whether the clock has been marked for removal. */
    function IsMarkedForRemoval(): (b: bool)
      reads this
      ensures b == removed
    {
      removed
    }

    /** Marks the clock for removal; the other fields keep their values. */
    method MarkForRemoval()
      requires Valid()
      modifies this
      ensures Valid() && IsMarkedForRemoval()
      ensures Ticking() == old(Ticking()) && Ticks() == old(Ticks()) && history == old(history)
    {
      removed := true;
    }
  }

  /** A clock on the audio thread. Its tick rate is handed to Update. */
  class Clock {
    const shared: ClockShared
    var ticking: bool
    var state: ClockState
    var tickTimer: real

    /**
     * What every clock keeps: the sub-tick timer is positive, and the shared
     * cell shows the clock's own ticking flag and its last tick number.
     */
    ghost predicate Valid()
      reads this, shared
    {
      && tickTimer > 0.0
      && shared.Valid()
      && shared.ticking == ticking
      && shared.ticks == Published(state)
    }

    /** A new clock: not started, not ticking, a full tick to go, with a fresh shared cell. */
    constructor ()
      ensures Valid() && fresh(shared)
      ensures !ticking && state == NotStarted && tickTimer == 1.0
      ensures !shared.Ticking() && shared.Ticks() == 0 && !shared.IsMarkedForRemoval()
      ensures shared.history == []
    {
      shared := new ClockShared();
      ticking := false;
      state := NotStarted;
      tickTimer := 1.0;
    }

    /** Starts (or resumes) ticking; the tick count carries on from where it was. */
    method Start()
      requires Valid()
      modifies this, shared
      ensures Valid()
      ensures ticking && shared.Ticking()
      ensures state == old(state) && tickTimer == old(tickTimer)
      ensures shared.Ticks() == old(shared.Ticks()) && shared.history == old(shared.history)
      ensures shared.IsMarkedForRemoval() == old(shared.IsMarkedForRemoval())
    {
      ticking := true;
      shared.ticking := true;
    }

    /** Stops ticking without resetting the tick count. */
    method Pause()
      requires Valid()
      modifies this, shared
      ensures Valid()
      ensures !ticking && !shared.Ticking()
      ensures state == old(state) && tickTimer == old(tickTimer)
      ensures shared.Ticks() == old(shared.Ticks()) && shared.history == old(shared.history)
      ensures shared.IsMarkedForRemoval() == old(shared.IsMarkedForRemoval())
    {
      ticking := false;
      shared.ticking := false;
    }

    /** Stops ticking and resets the tick count; the sub-tick timer is kept. */
    method Stop()
      requires Valid()
      modifies this, shared
      ensures Valid()
      ensures !ticking && !shared.Ticking()
      ensures state == NotStarted && shared.Ticks() == 0
      ensures shared.history == old(shared.history) + [0]
      ensures tickTimer == old(tickTimer)
      ensures shared.IsMarkedForRemoval() == old(shared.IsMarkedForRemoval())
    {
      Pause();
      state := NotStarted;
      shared.ticks := 0;
      shared.history := shared.history + [0];
    }

    /**
     * Advances the clock by `dt` seconds at `rate` ticks per second. A
     * clock that is not ticking does nothing and reports None. A ticking
     * clock takes `rate * dt` off its timer, then adds 1.0 back and reports
     * one tick per crossing until the timer is above zero again; the shared
     * count is stored after each tick (`emitted` lists the reported ticks,
     * and the shared cell's store history grows by exactly that list), and
     * the result is the last tick, or None if none crossed.
     */
    method Update(dt: real, rate: real) returns (r: Option<nat>, ghost emitted: seq<nat>)
      requires Valid()
      modifies this, shared
      ensures Valid()
      ensures ticking == old(ticking)
      ensures shared.IsMarkedForRemoval() == old(shared.IsMarkedForRemoval())
      ensures !old(ticking) ==>
                && r == None && emitted == []
                && state == old(state) && tickTimer == old(tickTimer)
                && shared.Ticks() == old(shared.Ticks())
      ensures shared.history == old(shared.history) + emitted
      ensures old(ticking) ==>
                var n := Crossings(old(tickTimer) - rate * dt);
                && tickTimer == old(tickTimer) - rate * dt + n as real
                && state == Advance(old(state), n)
                && emitted == Emitted(old(state), n)
                && r == (if n == 0 then None else Some(Published(state)))
      ensures r.Some? <==> emitted != []
      ensures r.Some? ==> r.value == emitted[|emitted| - 1] == shared.Ticks()
      ensures old(tickTimer) <= 1.0 && rate * dt >= 0.0 ==> tickTimer <= 1.0
    {
      r, emitted := None, [];
      if !ticking {
        return;
      }
      ghost var s0 := state;
      ghost var t0 := tickTimer - rate * dt;
      tickTimer := tickTimer - rate * dt;
      while tickTimer <= 0.0
        invariant tickTimer == t0 + |emitted| as real
        invariant Crossings(t0) == |emitted| + Crossings(tickTimer)
        invariant state == Advance(s0, |emitted|)
        invariant emitted == Emitted(s0, |emitted|)
        invariant r == (if emitted == [] then None else Some(Published(state)))
        invariant emitted != [] ==> shared.ticks == Published(state)
        invariant emitted == [] ==> shared.ticks == old(shared.ticks) && state == old(state)
        invariant shared.history == old(shared.history) + emitted
        invariant shared.Valid()
        invariant ticking && shared.ticking
        invariant shared.removed == old(shared.removed)
        decreases Crossings(tickTimer)
      {
        tickTimer := tickTimer + 1.0;
        var tickCount: nat;
        match state {
          case NotStarted =>
            state := Started(0);
            tickCount := 0;
          case Started(k) =>
            state := Started(k + 1);
            tickCount := k + 1;
        }
        shared.ticks := tickCount;
        shared.history := shared.history + [tickCount];
        emitted := emitted + [tickCount];
        r := Some(tickCount);
      }
      CrossingsLeast(t0);
    }
  }

  /**
   * Stopping and starting a clock restarts its numbering: the first tick
   * reported by the next update is tick 0.
   */
  method StopStartRestartsNumbering(c: Clock, dt: real, rate: real) returns (r: Option<nat>, ghost emitted: seq<nat>)
    requires c.Valid()
    modifies c, c.shared
    ensures c.Valid()
    ensures r.Some? <==> emitted != []
    ensures emitted != [] ==> emitted[0] == 0
    ensures forall i :: 0 < i < |emitted| ==> emitted[i] == emitted[i - 1] + 1
  {
    c.Stop();
    c.Start();
    r, emitted := c.Update(dt, rate);
    ghost var n := Crossings(old(c.tickTimer) - rate * dt);
    TickNumbering(NotStarted, n);
  }
}
