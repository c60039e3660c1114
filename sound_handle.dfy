/** The handle a program uses to play a loaded sound and control its instances. */
module Sounds {
  import opened Wrappers
  import opened Types
  import opened CommandQueues

  datatype SoundId = SoundId(key: nat)
  datatype InstanceId = InstanceId(key: nat)

  /** Anything instances can be played from; a sound id converts into one. */
  datatype PlayableId = PlayableSound(sound: SoundId)

  /** The metadata of a loaded sound that its handle copies. */
  datatype Sound = Sound(
    id: SoundId,
    duration: real,
    defaultTrack: TrackIndex,
    semanticDuration: Option<real>,
    defaultLoopStart: Option<real>)

  /** Settings for playing one instance; only the id it will be known by is modelled. */
  datatype InstanceSettings = InstanceSettings(id: InstanceId)

  /** Instance settings completed with the sound's defaults (the conversion itself is not modelled). */
  datatype InternalInstanceSettings = InternalInstanceSettings(
    settings: InstanceSettings,
    duration: real,
    defaultLoopStart: Option<real>,
    defaultTrack: TrackIndex)

  /** A playing instance as the audio thread receives it; `sequence` is its owning sequence instance, if any. */
  datatype Instance = Instance(
    playable: PlayableId,
    duration: real,
    sequence: Option<nat>,
    settings: InternalInstanceSettings)

  datatype PauseInstanceSettings = PauseInstanceSettings(fadeTween: Option<Tween>)
  datatype ResumeInstanceSettings = ResumeInstanceSettings(fadeTween: Option<Tween>)
  datatype StopInstanceSettings = StopInstanceSettings(fadeTween: Option<Tween>)

  /** Requests about instances, sent to the audio thread. */
  datatype InstanceCommand =
    | Play(instanceId: InstanceId, instance: Instance)
    | PauseInstancesOf(pausePlayable: PlayableId, pauseSettings: PauseInstanceSettings)
    | ResumeInstancesOf(resumePlayable: PlayableId, resumeSettings: ResumeInstanceSettings)
    | StopInstancesOf(stopPlayable: PlayableId, stopSettings: StopInstanceSettings)

  /** The engine's command type; instance commands convert into it. */
  datatype EngineCommand = InstanceCmd(command: InstanceCommand)

  /** Why a push onto the engine's command queue failed. */
  datatype CommandProducerError = CommandQueueFull

  /** A handle to a playing instance: its id and a clone of the sender, sharing the same queue. */
  datatype InstanceHandle = InstanceHandle(id: InstanceId, sender: BoundedQueue<EngineCommand>)

  class SoundHandle {
    /** The sound this handle was made from. */
    ghost const sound: Sound
    const id: SoundId
    const duration: real
    const defaultTrack: TrackIndex
    const semanticDuration: Option<real>
    const defaultLoopStart: Option<real>
    const commandSender: BoundedQueue<EngineCommand>

    /** The five metadata fields are those of the sound; being constants, no method changes them. */
    ghost predicate Captured()
    {
      && id == sound.id
      && duration == sound.duration
      && defaultTrack == sound.defaultTrack
      && semanticDuration == sound.semanticDuration
      && defaultLoopStart == sound.defaultLoopStart
    }

    /** Copies the sound's metadata and keeps the command sender. */
    constructor (sound: Sound, commandSender: BoundedQueue<EngineCommand>)
      ensures this.sound == sound && Captured()
      ensures this.commandSender == commandSender
    {
      this.sound := sound;
      id := sound.id;
      duration := sound.duration;
      defaultTrack := sound.defaultTrack;
      semanticDuration := sound.semanticDuration;
      defaultLoopStart := sound.defaultLoopStart;
      this.commandSender := commandSender;
    }

    function Id(): (r: SoundId)
      requires Captured()
      ensures r == sound.id
    {
      id
    }

    /** The duration of the sound, in seconds. */
    function Duration(): (r: real)
      requires Captured()
      ensures r == sound.duration
    {
      duration
    }

    /** The track instances of this sound play on unless told otherwise. */
    function DefaultTrack(): (r: TrackIndex)
      requires Captured()
      ensures r == sound.defaultTrack
    {
      defaultTrack
    }

    /** The musical length of the sound, if it has one. */
    function SemanticDuration(): (r: Option<real>)
      requires Captured()
      ensures r == sound.semanticDuration
    {
      semanticDuration
    }

    /** Where instances loop back to when they reach the end, if anywhere. */
    function DefaultLoopStart(): (r: Option<real>)
      requires Captured()
      ensures r == sound.defaultLoopStart
    {
      defaultLoopStart
    }

    /** The instance `Play` sends: built from this sound's id, duration, loop start and track. */
    function NewInstance(settings: InstanceSettings): (i: Instance)
      requires Captured()
      ensures i.playable == PlayableSound(sound.id) && i.duration == sound.duration && i.sequence == None
      ensures i.settings == InternalInstanceSettings(settings, sound.duration, sound.defaultLoopStart, sound.defaultTrack)
    {
      Instance(
        PlayableSound(id),
        duration,
        None,
        InternalInstanceSettings(settings, duration, defaultLoopStart, defaultTrack))
    }

    /**
     * Plays the sound: pushes a Play command for a new instance under
     * `settings.id` and, if the push lands, returns a handle to that
     * instance; a failed push is returned as the error and no handle is made.
     */
    method Play(settings: InstanceSettings) returns (r: Result<InstanceHandle, CommandProducerError>)
      requires Captured() && commandSender.Valid()
      modifies commandSender
      ensures commandSender.Valid()
      ensures Pushed(old(commandSender.contents), commandSender.contents, commandSender.capacity,
                     InstanceCmd(InstanceCommand.Play(settings.id, NewInstance(settings))), r.Ok?)
      ensures r.Ok? ==> r.value.id == settings.id && r.value.sender == commandSender
    {
      var instance := NewInstance(settings);
      var handle := InstanceHandle(settings.id, commandSender);
      var ok := commandSender.Push(InstanceCmd(InstanceCommand.Play(settings.id, instance)));
      r := if ok then Ok(handle) else Err(CommandQueueFull);
    }

    /** Pauses every instance of this sound. */
    method Pause(settings: PauseInstanceSettings) returns (r: Result<(), CommandProducerError>)
      requires Captured() && commandSender.Valid()
      modifies commandSender
      ensures commandSender.Valid()
      ensures Pushed(old(commandSender.contents), commandSender.contents, commandSender.capacity,
                     InstanceCmd(InstanceCommand.PauseInstancesOf(PlayableSound(sound.id), settings)), r.Ok?)
    {
      var ok := commandSender.Push(InstanceCmd(InstanceCommand.PauseInstancesOf(PlayableSound(id), settings)));
      r := if ok then Ok(()) else Err(CommandQueueFull);
    }

    /** Resumes every instance of this sound. */
    method Resume(settings: ResumeInstanceSettings) returns (r: Result<(), CommandProducerError>)
      requires Captured() && commandSender.Valid()
      modifies commandSender
      ensures commandSender.Valid()
      ensures Pushed(old(commandSender.contents), commandSender.contents, commandSender.capacity,
                     InstanceCmd(InstanceCommand.ResumeInstancesOf(PlayableSound(sound.id), settings)), r.Ok?)
    {
      var ok := commandSender.Push(InstanceCmd(InstanceCommand.ResumeInstancesOf(PlayableSound(id), settings)));
      r := if ok then Ok(()) else Err(CommandQueueFull);
    }

    /** Stops every instance of this sound. */
    method Stop(settings: StopInstanceSettings) returns (r: Result<(), CommandProducerError>)
      requires Captured() && commandSender.Valid()
      modifies commandSender
      ensures commandSender.Valid()
      ensures Pushed(old(commandSender.contents), commandSender.contents, commandSender.capacity,
                     InstanceCmd(InstanceCommand.StopInstancesOf(PlayableSound(sound.id), settings)), r.Ok?)
    {
      var ok := commandSender.Push(InstanceCmd(InstanceCommand.StopInstancesOf(PlayableSound(id), settings)));
      r := if ok then Ok(()) else Err(CommandQueueFull);
    }
  }
}
