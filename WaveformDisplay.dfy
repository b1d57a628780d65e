/** The deck's waveform view: whether a thumbnail is loaded and where the
    playhead marker is drawn, as a fraction of the track. */
module Waveform {

  /** Where the marker is after being told p: a positive p is taken, anything
      else leaves the marker where it was. */
  function PlayheadAfter(current: real, p: real): (next: real)
    ensures p > 0.0 ==> next == p
    ensures p <= 0.0 ==> next == current
  {
    if p != current && p > 0.0 then p else current
  }

  /** Telling the marker the same position twice is the same as telling it once. */
  lemma PlayheadIdempotent(current: real, p: real)
    ensures PlayheadAfter(PlayheadAfter(current, p), p) == PlayheadAfter(current, p)
  {
  }

  /** Once the marker is positive, no update brings it back to 0. */
  lemma PlayheadStaysPositive(current: real, p: real)
    requires current > 0.0
    ensures PlayheadAfter(current, p) > 0.0
  {
  }

  class WaveformDisplay {
    var fileLoaded: bool
    var position: real

    constructor ()
      ensures !fileLoaded && position == 0.0
    {
      fileLoaded := false;
      position := 0.0;
    }

    /** thumbnailSet is what AudioThumbnail::setSource reports for the file. */
    method LoadURL(thumbnailSet: bool)
      modifies this
      ensures fileLoaded == thumbnailSet
      ensures position == old(position)
    {
      fileLoaded := thumbnailSet;
    }

    method SetPositionRelative(p: real)
      modifies this
      ensures position == PlayheadAfter(old(position), p)
      ensures fileLoaded == old(fileLoaded)
    {
      if p != position && p > 0.0 {
        position := p;
      }
    }
  }
}
