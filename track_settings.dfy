/** Settings for a new mixer track: a value built with a constructor and setters. */
module Tracks {
  import opened Types

  /** Where a track sends its output, and how much. */
  datatype TrackRoutes = TrackRoutes(routes: map<TrackIndex, Value>)

  /** The route set a new track starts with, taken to be empty. */
  const NoRoutes: TrackRoutes := TrackRoutes(map[])

  datatype TrackSettings = TrackSettings(volume: Value, panning: Value, routes: TrackRoutes)
  {
    /** Full volume, centred, and the starting route set. */
    static function New(): (s: TrackSettings)
      ensures s.volume == Fixed(1.0) && s.panning == Fixed(0.5) && s.routes == NoRoutes
    {
      TrackSettings(Fixed(1.0), Fixed(0.5), NoRoutes)
    }

    /** The default settings are the ones `New` gives. */
    static function Default(): (s: TrackSettings)
      ensures s == New()
    {
      New()
    }

    /** These settings with the volume replaced. */
    function WithVolume(volume: Value): (s: TrackSettings)
      ensures s.volume == volume && s.panning == panning && s.routes == routes
    {
      this.(volume := volume)
    }

    /** These settings with the panning replaced. */
    function WithPanning(panning: Value): (s: TrackSettings)
      ensures s.panning == panning && s.volume == volume && s.routes == routes
    {
      this.(panning := panning)
    }

    /** These settings with the routes replaced. */
    function WithRoutes(routes: TrackRoutes): (s: TrackSettings)
      ensures s.routes == routes && s.volume == volume && s.panning == panning
    {
      this.(routes := routes)
    }
  }

  /** Setting the same field twice keeps the second value. */
  lemma SetterLastWins(s: TrackSettings, v1: Value, v2: Value, r1: TrackRoutes, r2: TrackRoutes)
    ensures s.WithVolume(v1).WithVolume(v2) == s.WithVolume(v2)
    ensures s.WithPanning(v1).WithPanning(v2) == s.WithPanning(v2)
    ensures s.WithRoutes(r1).WithRoutes(r2) == s.WithRoutes(r2)
  {
  }

  /** Setters of different fields commute. */
  lemma SettersCommute(s: TrackSettings, v: Value, p: Value, r: TrackRoutes)
    ensures s.WithVolume(v).WithPanning(p) == s.WithPanning(p).WithVolume(v)
    ensures s.WithVolume(v).WithRoutes(r) == s.WithRoutes(r).WithVolume(v)
    ensures s.WithPanning(p).WithRoutes(r) == s.WithRoutes(r).WithPanning(p)
  {
  }
}
