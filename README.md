# Kira clock scheduler, sound handles and track settings in Dafny

This project models four pieces of the Kira audio engine.

- **The clock** (`clock.dfy`, module `Clocks`) runs on the audio thread. It
  turns elapsed time into whole, numbered ticks. It has a ticking flag, a
  progress marker (`NotStarted` or `Started(ticks)`) and a sub-tick timer
  `tickTimer`. It publishes its flag and tick count in a `ClockShared` cell,
  which also carries a removal mark. `Update(dt, rate)` takes `rate * dt`
  off the timer. It then adds 1.0 back and reports one tick per crossing
  until the timer is above zero again. The shared count is stored after
  every tick.
  - The loop is proved against `Crossings(t)`, the number of steps the loop
    takes from timer `t`, and against `Advance` and `Emitted`, the marker
    and tick numbers after `n` crossings.
  - Lemmas show three things about those functions. `Crossings` is the least
    number of whole steps that lifts the timer above zero. Ticks are
    numbered 0, 1, 2, … from `NotStarted`. Numbering continues across calls.
  - The class invariant `Valid()` ties the shared cell to the clock. The
    timer stays positive, and the shared flag and count match the clock's
    own.
- **The command queue** (`command_queue.dfy`, module `CommandQueues`) is the
  bounded queue every handle pushes onto. A push appends when there is room
  and otherwise fails and changes nothing (predicate `Pushed`).
- **The streaming-sound handle** (`streaming_handle.dfy`, module
  `StreamingSound`). Each mutator pushes exactly one `Command` carrying its
  argument. It reports a failed push as `CommandQueueFull`. `Position`
  reads the shared state and queues nothing.
- **The sound handle** (`sound_handle.dfy`, module `Sounds`). It copies five
  metadata fields from the sound when it is made. The ghost constant `sound`
  records that sound, and `Captured()` says the copies match it. The fields
  are constants, so no method can change them. `Play`, `Pause`, `Resume`
  and `Stop` push one instance command naming this sound. `Play` returns a
  handle to the new instance only when its push lands.
- **Track settings** (`track_settings.dfy`, module `Tracks`) is a pure
  builder. It has fixed defaults, and each setter replaces exactly one field.

Times, rates, durations and positions are Dafny `real`s. Tick counts are
`nat`s.

`Stop` keeps the sub-tick timer (`crates/kira/src/clock.rs:100-104`):
`Clock.Stop` ensures `tickTimer == old(tickTimer)`. Because the timer stays
in (0, 1] for a non-negative rate, the first tick after a restart still
arrives within one tick's worth of time, and it is still numbered 0.

Every store into the shared tick count is recorded in the ghost sequence
`ClockShared.history`. `Update` grows it by exactly the ticks it reports,
one entry per tick, and `Stop` appends 0. So the contracts say the count is
published after each individual tick, not once per update.

## Model

| member | source | states |
|---|---|---|
| `Clocks.ClockShared.constructor` | crates/kira/src/clock.rs:33-39 | A new cell reads not ticking, 0 ticks and not marked for removal, with no stores recorded yet. |
| `Clocks.ClockShared.Ticking` | crates/kira/src/clock.rs:41-43 | Returns the published ticking flag. |
| `Clocks.ClockShared.Ticks` | crates/kira/src/clock.rs:45-47 | Returns the tick count stored last, or 0 if none has been stored. |
| `Clocks.ClockShared.IsMarkedForRemoval` | crates/kira/src/clock.rs:49-51 | Returns the removal mark. |
| `Clocks.ClockShared.MarkForRemoval` | crates/kira/src/clock.rs:53-55 | Afterwards `IsMarkedForRemoval()` is true. The ticking flag, tick count and store history are unchanged. |
| `Clocks.Clock.constructor` | crates/kira/src/clock.rs:72-80 | A new clock is `NotStarted` and not ticking, with `tickTimer == 1.0`. Its fresh shared cell reads false, 0 and not removed. It satisfies `Valid()`. |
| `Clocks.Clock.Start` | crates/kira/src/clock.rs:90-93 | Both the clock's flag and the shared flag become true. Marker, timer, shared count, store history and removal mark are unchanged, so the count continues. |
| `Clocks.Clock.Pause` | crates/kira/src/clock.rs:95-98 | Both flags become false. Marker, timer, shared count, store history and removal mark are unchanged. |
| `Clocks.Clock.Stop` | crates/kira/src/clock.rs:100-104 | The clock is not ticking, its marker is `NotStarted` and the shared count is 0, with one store of 0 added to the history. The timer and removal mark are unchanged. |
| `Clocks.Clock.Update` | crates/kira/src/clock.rs:106-129 | On a paused clock it returns `None` and changes nothing. On a ticking clock with `n = Crossings(old timer - rate*dt)` it does four things. The timer becomes `old timer - rate*dt + n`, which is positive by `Valid()`. The marker becomes `Advance(old, n)`. The reported ticks are `Emitted(old, n)`, and the shared store history grows by exactly that sequence, one store per tick. It returns `Some` of the last tick, which equals the shared count, exactly when `n > 0`. The flag and removal mark are unchanged. The timer stays at most 1 when the rate is not negative. |
| `Clocks.NextState` | crates/kira/src/clock.rs:115-124 | One crossing starts the clock. The new published count is the next tick number: 0 from `NotStarted`, otherwise the previous count plus 1. |
| `Clocks.CrossingsLeast` | crates/kira/src/clock.rs:112-114 | `t + Crossings(t) > 0`. When at least one step is taken, one step fewer leaves `t` at or below zero. |
| `Clocks.CrossingsMinimal` | crates/kira/src/clock.rs:112-114 | Any whole number of steps that lifts `t` above zero is at least `Crossings(t)`. |
| `Clocks.CrossingsClosedForm` | crates/kira/src/clock.rs:112-114 | `Crossings(t)` is 0 for a positive timer. Otherwise it is `floor(-t) + 1`. |
| `Clocks.SteadyRate` | crates/kira/src/clock.rs:112-114 | A timer in (0, 1] updated with `rate*dt == 1` crosses exactly once and returns to the same value. |
| `Clocks.AdvanceClosedForm` | crates/kira/src/clock.rs:115-124 | After `n > 0` crossings the marker is `Started(FirstTick(s) + n - 1)`. |
| `Clocks.TickNumbering` | crates/kira/src/clock.rs:115-126 | The i-th tick reported by `n` crossings is `FirstTick(s) + i`. So the first tick after `NotStarted` is 0, and each later tick is the previous one plus 1. |
| `Clocks.ConsecutiveTicks` | crates/kira/src/clock.rs:120-123 | Consecutive reported ticks differ by exactly one. |
| `Clocks.EmittedConcat` | crates/kira/src/clock.rs:113-127 | Splitting crossings over two updates reports the same ticks as doing them in one, so numbering continues across calls. |
| `Clocks.StopStartRestartsNumbering` | crates/kira/src/clock.rs:100-124 | After `Stop` then `Start`, the next update reports ticks 0, 1, 2, … in order. |
| `CommandQueues.BoundedQueue.Push` | crates/kira-streaming/src/handle.rs:29-33 | A push succeeds exactly when the queue has room. It then appends the command; otherwise the queue is unchanged. |
| `CommandQueues.FillThenOverflow` | crates/kira-streaming/src/handle.rs:29-78 | A property of the queue every mutator pushes onto: pushes into a queue with room for exactly that many all succeed, in order, and the next push fails. |
| `StreamingSound.StreamingSoundHandle.Position` | crates/kira-streaming/src/handle.rs:25-27 | Returns the position in the shared state. It is a function, so it queues nothing. |
| `StreamingSound.StreamingSoundHandle.SetVolume` | crates/kira-streaming/src/handle.rs:29-33 | Pushes exactly `SetVolume(volume)`. Returns `Ok(())` when the push lands and `Err(CommandQueueFull)` otherwise, with the queue unchanged. |
| `StreamingSound.StreamingSoundHandle.SetPlaybackRate` | crates/kira-streaming/src/handle.rs:35-42 | Pushes exactly `SetPlaybackRate(rate)`. A failed push is reported as `CommandQueueFull`. |
| `StreamingSound.StreamingSoundHandle.SetPanning` | crates/kira-streaming/src/handle.rs:44-48 | Pushes exactly `SetPanning(panning)`. A failed push is reported as `CommandQueueFull`. |
| `StreamingSound.StreamingSoundHandle.Pause` | crates/kira-streaming/src/handle.rs:50-54 | Pushes exactly `Pause(tween)` with the tween unchanged. A failed push is reported as `CommandQueueFull`. |
| `StreamingSound.StreamingSoundHandle.Resume` | crates/kira-streaming/src/handle.rs:56-60 | Pushes exactly `Resume(tween)` with the tween unchanged. A failed push is reported as `CommandQueueFull`. |
| `StreamingSound.StreamingSoundHandle.Stop` | crates/kira-streaming/src/handle.rs:62-66 | Pushes exactly `Stop(tween)` with the tween unchanged. A failed push is reported as `CommandQueueFull`. |
| `StreamingSound.StreamingSoundHandle.SeekTo` | crates/kira-streaming/src/handle.rs:68-72 | Pushes exactly `SeekTo(position)`. A failed push is reported as `CommandQueueFull`. |
| `StreamingSound.StreamingSoundHandle.SeekBy` | crates/kira-streaming/src/handle.rs:74-78 | Pushes exactly `SeekBy(amount)`, with the relative amount unconverted. A failed push is reported as `CommandQueueFull`. |
| `StreamingSound.QueueFullErrorsEqual` | crates/kira-streaming/src/handle.rs:8-9 | Any two errors a handle returns are equal. |
| `Sounds.SoundHandle.constructor` | kira/src/sound/handle.rs:29-38 | The handle records the sound, copies its five metadata fields (`Captured()`) and keeps the given sender. |
| `Sounds.SoundHandle.Id` | kira/src/sound/handle.rs:41-43 | Returns the id of the sound the handle was made from. |
| `Sounds.SoundHandle.Duration` | kira/src/sound/handle.rs:46-48 | Returns that sound's duration. |
| `Sounds.SoundHandle.DefaultTrack` | kira/src/sound/handle.rs:52-54 | Returns that sound's default track. |
| `Sounds.SoundHandle.SemanticDuration` | kira/src/sound/handle.rs:58-60 | Returns that sound's semantic duration. |
| `Sounds.SoundHandle.DefaultLoopStart` | kira/src/sound/handle.rs:65-67 | Returns that sound's default loop start. |
| `Sounds.SoundHandle.NewInstance` | kira/src/sound/handle.rs:74-80 | The instance `Play` sends is built from the sound's id, duration, default loop start and default track, with no owning sequence. |
| `Sounds.SoundHandle.Play` | kira/src/sound/handle.rs:70-85 | Pushes exactly `Play(settings.id, NewInstance(settings))`. On success it returns a handle whose id is `settings.id` and which shares the same queue. If the push fails it returns the error, produces no handle and leaves the queue unchanged. |
| `Sounds.SoundHandle.Pause` | kira/src/sound/handle.rs:88-91 | Pushes exactly `PauseInstancesOf(this sound, settings)`. Fails exactly when the queue is full. |
| `Sounds.SoundHandle.Resume` | kira/src/sound/handle.rs:94-97 | Pushes exactly `ResumeInstancesOf(this sound, settings)`. Fails exactly when the queue is full. |
| `Sounds.SoundHandle.Stop` | kira/src/sound/handle.rs:100-103 | Pushes exactly `StopInstancesOf(this sound, settings)`. Fails exactly when the queue is full. |
| `Tracks.TrackSettings.New` | kira/src/track/settings.rs:12-18 | Volume `Fixed(1.0)`, panning `Fixed(0.5)` and `NoRoutes`, the route set taken for `TrackRoutes::new()`. |
| `Tracks.TrackSettings.Default` | kira/src/track/settings.rs:39-43 | The default equals `New()`. |
| `Tracks.TrackSettings.WithVolume` | kira/src/track/settings.rs:20-25 | Replaces the volume. Panning and routes are unchanged. |
| `Tracks.TrackSettings.WithPanning` | kira/src/track/settings.rs:27-32 | Replaces the panning. Volume and routes are unchanged. |
| `Tracks.TrackSettings.WithRoutes` | kira/src/track/settings.rs:34-36 | Replaces the routes. Volume and panning are unchanged. |
| `Tracks.SetterLastWins` | kira/src/track/settings.rs:20-36 | Setting the same field twice keeps the second value. |
| `Tracks.SettersCommute` | kira/src/track/settings.rs:20-36 | Setters of different fields commute. |

`Clock.shared` is a constant field, so every clone of the shared
cell is the same object (`crates/kira/src/clock.rs:82-84`).

## Left out

- Concurrency: `ClockShared` and the streaming shared state are plain
  fields, updated in the same step as the clock. Atomic orderings, `Arc`
  reference counting and cross-thread visibility are not modelled.
- `Clock.set_speed` and `Clock.on_clock_tick` only hand their arguments to
  the clock's speed tweener. The tweener is not part of this model.
  `Update` instead receives the tick rate the tweener would report after
  advancing by `dt`, and the tweener's own advance in `update` is not
  modelled.
- `Clocks.Clock.Update`: tick counts are unbounded `nat`s, so the wrap-around
  of the `u64` count after 2^64 ticks is not modelled.
- IEEE `f64` rounding is not modelled. The timer, rates, durations and
  positions are exact reals, so NaN and infinities do not arise. The proof
  that the tick loop ends holds only for reals. With `f64`, the loop at
  `crates/kira/src/clock.rs:113-127` never ends once `rate * dt` is
  infinite, or once the timer is so far below zero (beyond -2^53) that
  adding 1.0 no longer changes it.
- The ring buffer behind `command_producer` and the engine's
  `CommandProducer` are modelled by `BoundedQueue`, whose push either
  appends or fails. The consumer side and a torn-down channel are not
  modelled.
- The engine's `CommandProducerError` is not shown. The model's has one
  value, `CommandQueueFull`, so any other failure of the engine's producer
  is not modelled.
- `TrackRoutes::new()` is not shown. It is taken to be the empty route set
  (`Tracks.NoRoutes`).
- `impl Into<Value>` conversions happen before the handle is called. The
  handle methods take the converted `Value`.
- `Instance::new`, `InstanceSettings::into_internal`, `InstanceHandle::new`
  and `public_state` are opaque constructors. They are records of their
  arguments; the instance's public state is not carried in the handle.
- `Value`, `Tween`, `TrackRoutes` and the pause/resume/stop instance
  settings are opaque. Only `Value::Fixed`, a map of routes and the fields
  named above are represented.
- The `Display` and `Error` implementations of `CommandQueueFull` only
  format a message.
- The `Decoder` trait and the three-variant `Command` enum in
  `crates/kira-streaming/src/lib.rs` are not modelled. `StreamingSound.Command`
  has every variant the handle uses.
