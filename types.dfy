/** Plain values shared by the handles and the track settings. */
module Types {

  /**
   * A parameter value. Only a constant is needed here; every other kind of
   * value is represented by a tag whose meaning is not part of this model.
   */
  datatype Value = Fixed(x: real) | Dynamic(tag: nat)

  /**
   * A timed transition handed unchanged to the audio thread. Its easing and
   * start time are not part of this model.
   */
  datatype Tween = Tween(duration: real)

  /** The mixer track an instance plays on. */
  datatype TrackIndex = TrackIndex(index: nat)
}
