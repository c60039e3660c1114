/** The handle a program uses to control a streaming sound. */
module StreamingSound {
  import opened Wrappers
  import opened Types
  import opened CommandQueues

  /** Every request a streaming-sound handle sends to the audio thread. */
  datatype Command =
    | SetVolume(volume: Value)
    | SetPlaybackRate(playbackRate: Value)
    | SetPanning(panning: Value)
    | Pause(pauseTween: Tween)
    | Resume(resumeTween: Tween)
    | Stop(stopTween: Tween)
    | SeekTo(position: real)
    | SeekBy(amount: real)

  /** The one error a mutator reports: its command could not be queued. */
  datatype CommandQueueFull = CommandQueueFull

  /** The state the streaming sound publishes for its handles. */
  class Shared {
    var position: real

    constructor (position: real)
      ensures this.position == position
    {
      this.position := position;
    }
  }

  /** A handle to one streaming sound. */
  class StreamingSoundHandle {
    const shared: Shared
    const commandProducer: BoundedQueue<Command>

    constructor (shared: Shared, commandProducer: BoundedQueue<Command>)
      ensures this.shared == shared && this.commandProducer == commandProducer
    {
      this.shared := shared;
      this.commandProducer := commandProducer;
    }

    /** The playback position the sound last published; queues nothing. */
    function Position(): (p: real)
      reads this, shared
      ensures p == shared.position
    {
      shared.position
    }

    /** Pushes `c`, reporting a failed push as CommandQueueFull. */
    method Send(c: Command) returns (r: Result<(), CommandQueueFull>)
      requires commandProducer.Valid()
      modifies commandProducer
      ensures commandProducer.Valid()
      ensures Pushed(old(commandProducer.contents), commandProducer.contents, commandProducer.capacity, c, r.Ok?)
    {
      var ok := commandProducer.Push(c);
      r := if ok then Ok(()) else Err(CommandQueueFull);
    }

    method SetVolume(volume: Value) returns (r: Result<(), CommandQueueFull>)
      requires commandProducer.Valid()
      modifies commandProducer
      ensures commandProducer.Valid()
      ensures Pushed(old(commandProducer.contents), commandProducer.contents, commandProducer.capacity, Command.SetVolume(volume), r.Ok?)
    {
      r := Send(Command.SetVolume(volume));
    }

    method SetPlaybackRate(playbackRate: Value) returns (r: Result<(), CommandQueueFull>)
      requires commandProducer.Valid()
      modifies commandProducer
      ensures commandProducer.Valid()
      ensures Pushed(old(commandProducer.contents), commandProducer.contents, commandProducer.capacity, Command.SetPlaybackRate(playbackRate), r.Ok?)
    {
      r := Send(Command.SetPlaybackRate(playbackRate));
    }

    method SetPanning(panning: Value) returns (r: Result<(), CommandQueueFull>)
      requires commandProducer.Valid()
      modifies commandProducer
      ensures commandProducer.Valid()
      ensures Pushed(old(commandProducer.contents), commandProducer.contents, commandProducer.capacity, Command.SetPanning(panning), r.Ok?)
    {
      r := Send(Command.SetPanning(panning));
    }

    method Pause(tween: Tween) returns (r: Result<(), CommandQueueFull>)
      requires commandProducer.Valid()
      modifies commandProducer
      ensures commandProducer.Valid()
      ensures Pushed(old(commandProducer.contents), commandProducer.contents, commandProducer.capacity, Command.Pause(tween), r.Ok?)
    {
      r := Send(Command.Pause(tween));
    }

    method Resume(tween: Tween) returns (r: Result<(), CommandQueueFull>)
      requires commandProducer.Valid()
      modifies commandProducer
      ensures commandProducer.Valid()
      ensures Pushed(old(commandProducer.contents), commandProducer.contents, commandProducer.capacity, Command.Resume(tween), r.Ok?)
    {
      r := Send(Command.Resume(tween));
    }

    method Stop(tween: Tween) returns (r: Result<(), CommandQueueFull>)
      requires commandProducer.Valid()
      modifies commandProducer
      ensures commandProducer.Valid()
      ensures Pushed(old(commandProducer.contents), commandProducer.contents, commandProducer.capacity, Command.Stop(tween), r.Ok?)
    {
      r := Send(Command.Stop(tween));
    }

    /** Asks the sound to jump to the absolute `position`. */
    method SeekTo(position: real) returns (r: Result<(), CommandQueueFull>)
      requires commandProducer.Valid()
      modifies commandProducer
      ensures commandProducer.Valid()
      ensures Pushed(old(commandProducer.contents), commandProducer.contents, commandProducer.capacity, Command.SeekTo(position), r.Ok?)
    {
      r := Send(Command.SeekTo(position));
    }

    /** Asks the sound to move by `amount`; the relative amount is sent as it is. */
    method SeekBy(amount: real) returns (r: Result<(), CommandQueueFull>)
      requires commandProducer.Valid()
      modifies commandProducer
      ensures commandProducer.Valid()
      ensures Pushed(old(commandProducer.contents), commandProducer.contents, commandProducer.capacity, Command.SeekBy(amount), r.Ok?)
    {
      r := Send(Command.SeekBy(amount));
    }
  }

  /** The error carries no data: every failure a handle reports is the same value. */
  lemma QueueFullErrorsEqual(a: Result<(), CommandQueueFull>, b: Result<(), CommandQueueFull>)
    requires a.Err? && b.Err?
    ensures a == b
  {
    assert a.error.CommandQueueFull? && b.error.CommandQueueFull?;
  }
}
