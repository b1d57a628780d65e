/** The crossfader: one slider value in [0, 1] mapped linearly onto the two
    decks' gains, with a dead zone at exactly 0.5 where neither gain is set. */
module Crossfade {
  import opened Player

  /** The gains the slider pushes into deck 1 and deck 2, if any. */
  datatype GainPush = Untouched | Push(deck1: real, deck2: real)

  function CrossfadeLaw(v: real): (g: GainPush)
    ensures g.Untouched? <==> v == 0.5
    ensures g.Push? ==> g.deck2 == v && g.deck1 + g.deck2 == 1.0
  {
    if v < 0.5 then Push(1.0 - v, v)
    else if v > 0.5 then Push(1.0 - v, v)
    else Untouched
  }

  /** Over the slider's range both pushed gains are ones setGain accepts. */
  lemma CrossfadeGainsAccepted(v: real)
    requires 0.0 <= v <= 1.0 && v != 0.5
    ensures GainAccepted(CrossfadeLaw(v).deck1) && GainAccepted(CrossfadeLaw(v).deck2)
  {
  }

  /** Below the middle deck 1 is the louder deck; above it, deck 2. */
  lemma CrossfadeSides(v: real)
    ensures v < 0.5 ==> CrossfadeLaw(v).deck1 > CrossfadeLaw(v).deck2
    ensures v > 0.5 ==> CrossfadeLaw(v).deck2 > CrossfadeLaw(v).deck1
  {
  }

  lemma CrossfadeEnds()
    ensures CrossfadeLaw(0.0) == Push(1.0, 0.0)
    ensures CrossfadeLaw(1.0) == Push(0.0, 1.0)
  {
  }

  class Crossfader {
    const player1: DJAudioPlayer
    const player2: DJAudioPlayer
    var value: real

    ghost predicate Valid()
      reads this, player1, player2
    {
      player1 != player2 && player1.Valid() && player2.Valid()
    }

    constructor (player1: DJAudioPlayer, player2: DJAudioPlayer)
      requires player1 != player2 && player1.Valid() && player2.Valid()
      ensures Valid()
      ensures this.player1 == player1 && this.player2 == player2 && value == 0.5
    {
      this.player1 := player1;
      this.player2 := player2;
      value := 0.5;
    }

    /** Moving the slider to v pushes the law's gains through setGain; at 0.5
        both players keep the gains their own volume sliders gave them. */
    method SliderValueChanged(v: real)
      requires Valid()
      modifies this, player1, player2
      ensures Valid()
      ensures value == v
      ensures CrossfadeLaw(v).Untouched? ==> player1.gain == old(player1.gain) && player2.gain == old(player2.gain)
      ensures CrossfadeLaw(v).Push? ==>
                && player1.gain == (if GainAccepted(CrossfadeLaw(v).deck1) then CrossfadeLaw(v).deck1 else old(player1.gain))
                && player2.gain == (if GainAccepted(CrossfadeLaw(v).deck2) then CrossfadeLaw(v).deck2 else old(player2.gain))
      ensures player1.ratio == old(player1.ratio) && player1.position == old(player1.position)
      ensures player1.length == old(player1.length) && player1.isPlaying == old(player1.isPlaying)
      ensures player2.ratio == old(player2.ratio) && player2.position == old(player2.position)
      ensures player2.length == old(player2.length) && player2.isPlaying == old(player2.isPlaying)
    {
      value := v;
      if v < 0.5 {
        player1.SetGain(1.0 - v);
        player2.SetGain(v);
      } else if v > 0.5 {
        player2.SetGain(v);
        player1.SetGain(1.0 - v);
      }
    }
  }
}
