/** One deck's audio player: the control state of its transport (gain,
    resampling ratio, playhead and track length, all in seconds or plain
    ratios) and the isPlaying flag the deck reads back. */
module Player {
  import opened Media

  /** The gains setGain accepts: 0 to 1, both ends included. */
  predicate GainAccepted(g: real) {
    0.0 <= g <= 1.0
  }

  /** The resampling ratios setSpeed accepts: 0 to 2, both ends included. */
  predicate SpeedAccepted(r: real) {
    0.0 <= r <= 2.0
  }

  /** The playhead as a fraction of the track: 0 for a track of length 0. */
  function RelativePosition(position: real, length: real): (rel: real)
    ensures length == 0.0 ==> rel == 0.0
    ensures length != 0.0 ==> rel * length == position
  {
    if length == 0.0 then 0.0 else position / length
  }

  /** A relative seek into a track of positive length reads back as itself. */
  lemma RelativeSeekRoundTrip(length: real, p: real)
    requires length > 0.0 && 0.0 <= p <= 1.0
    ensures RelativePosition(length * p, length) == p
  {
  }

  class DJAudioPlayer {
    var gain: real
    var ratio: real
    var position: real
    var length: real
    var isPlaying: bool

    ghost predicate Valid()
      reads this
    {
      length >= 0.0
    }

    /** A new player has no track and is not playing; gain and ratio start at 1. */
    constructor ()
      ensures Valid()
      ensures !isPlaying
      ensures gain == 1.0 && ratio == 1.0 && position == 0.0 && length == 0.0
    {
      gain, ratio, position, length := 1.0, 1.0, 0.0, 0.0;
      isPlaying := false;
    }

    /** Load is all-or-nothing on creating a reader: with none, nothing changes;
        with one, the new track is current from its start. isPlaying is never
        touched. */
    method LoadURL(reader: Option<Reader>)
      requires Valid()
      modifies this
      ensures Valid()
      ensures reader.None? ==> unchanged(this)
      ensures reader.Some? ==> length == LengthInSeconds(reader.value) && position == 0.0
      ensures gain == old(gain) && ratio == old(ratio) && isPlaying == old(isPlaying)
    {
      match reader
      case None =>
      case Some(r) =>
        length := LengthInSeconds(r);
        position := 0.0;
    }

    method SetGain(g: real)
      requires Valid()
      modifies this
      ensures Valid()
      ensures gain == (if GainAccepted(g) then g else old(gain))
      ensures ratio == old(ratio) && position == old(position) && length == old(length)
      ensures isPlaying == old(isPlaying)
    {
      if g < 0.0 || g > 1.0 {
      } else {
        gain := g;
      }
    }

    method SetSpeed(r: real)
      requires Valid()
      modifies this
      ensures Valid()
      ensures ratio == (if SpeedAccepted(r) then r else old(ratio))
      ensures gain == old(gain) && position == old(position) && length == old(length)
      ensures isPlaying == old(isPlaying)
    {
      if r < 0.0 || r > 2.0 {
      } else {
        ratio := r;
      }
    }

    /** The transport stores the position it is given, without clamping. */
    method SetPosition(posInSecs: real)
      requires Valid()
      modifies this
      ensures Valid()
      ensures position == posInSecs
      ensures gain == old(gain) && ratio == old(ratio) && length == old(length)
      ensures isPlaying == old(isPlaying)
    {
      position := posInSecs;
    }

    /** Fractions outside [0, 1] are ignored; otherwise the playhead moves to
        that fraction of the track. */
    method SetPositionRelative(p: real)
      requires Valid()
      modifies this
      ensures Valid()
      ensures position == (if 0.0 <= p <= 1.0 then length * p else old(position))
      ensures 0.0 <= p <= 1.0 && length > 0.0 ==> PositionRelative() == p
      ensures gain == old(gain) && ratio == old(ratio) && length == old(length)
      ensures isPlaying == old(isPlaying)
    {
      if p < 0.0 || p > 1.0 {
      } else {
        var posInSecs := length * p;
        SetPosition(posInSecs);
        if length > 0.0 {
          RelativeSeekRoundTrip(length, p);
        }
      }
    }

    method Start()
      requires Valid()
      modifies this
      ensures Valid()
      ensures isPlaying
      ensures gain == old(gain) && ratio == old(ratio)
      ensures position == old(position) && length == old(length)
    {
      isPlaying := true;
    }

    method Stop()
      requires Valid()
      modifies this
      ensures Valid()
      ensures !isPlaying
      ensures gain == old(gain) && ratio == old(ratio)
      ensures position == old(position) && length == old(length)
    {
      isPlaying := false;
    }

    function PositionRelative(): real
      reads this
    {
      RelativePosition(position, length)
    }
  }
}
