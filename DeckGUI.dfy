/** One deck: the command handlers of its buttons and sliders, the periodic
    tick that follows the playhead and decides what happens at the end of a
    track, and the "mm:ss" text of a time in seconds. */
module Deck {
  import opened Text
  import opened Media
  import opened Seqs
  import opened Tracks
  import opened Player
  import opened Waveform
  import opened Queue

  const PlayText: string := "PLAY"
  const PauseText: string := "PAUSE"

  /** A time in seconds as "mm:ss": the int cast truncates toward zero and the
      minutes and seconds are C++ quotient and remainder by 60, so a negative
      time prints with '-' signs. A one-character part gets a leading zero. */
  function LengthInString(time: real): (text: string)
    ensures time >= 0.0 ==> text == FormatMinSec(Truncate(time))
  {
    var totalTime := Truncate(time);
    var mins := PadTwo(IntToString(CDiv(totalTime, 60)));
    var secs := PadTwo(IntToString(CMod(totalTime, 60)));
    mins + ":" + secs
  }

  /** For whole seconds the deck's formatter and the library's agree. */
  lemma LengthInStringMatchesTrackLength(s: nat)
    ensures LengthInString(s as real) == FormatMinSec(s)
  {
  }

  /** A playhead moved before the start, -3 s, prints with a sign in the
      seconds field and is not padded. */
  lemma LengthInStringNegative()
    ensures LengthInString(-3.0) == "00:-3"
  {
    assert Truncate(-3.0) == -3;
    assert CDiv(-3, 60) == 0 && CMod(-3, 60) == -3;
    assert NatToString(0) == "0" && NatToString(3) == "3";
    assert IntToString(0) == "0" && IntToString(-3) == "-3";
    assert PadTwo("0") == "00" && PadTwo("-3") == "-3";
  }

  /** The guard `!pos <= 0` as C++ evaluates it: `!pos` is a bool, true exactly
      when pos is 0, and it is compared with 0 as the int 0 or 1. */
  function SkipBackGuard(pos: real): (apply: bool)
    ensures apply <==> pos != 0.0
  {
    var notPos: int := if pos == 0.0 then 1 else 0;
    notPos <= 0
  }

  /** The guard the comment beside it describes: apply the new position only
      if it is not less than 0. */
  function SkipBackGuardIntended(pos: real): (apply: bool)
  {
    !(pos < 0.0)
  }

  /** The guard as written lets skip-back put the playhead before the start:
      at 3 s it moves to -2 s, and at 5 s it refuses to move to 0. */
  lemma SkipBackGuardAdmitsNegative()
    ensures SkipBackGuard(3.0 - 5.0) && 3.0 - 5.0 < 0.0
    ensures !SkipBackGuard(5.0 - 5.0)
  {
  }

  /** With the intended guard, skip-back never makes a non-negative playhead
      negative, and a target of exactly 0 is applied. */
  lemma SkipBackIntendedKeepsNonNegative(position: real)
    requires position >= 0.0
    ensures (if SkipBackGuardIntended(position - 5.0) then position - 5.0 else position) >= 0.0
    ensures SkipBackGuardIntended(position - 5.0) <==> position >= 5.0
  {
  }

  /** What the tick does once it has refreshed the waveform and the clock. */
  datatype TickAction = Restart | Advance | Idle

  function TickDecision(isLooping: bool, position: real, length: real,
                        playQueueOn: bool, queued: nat): (a: TickAction)
    ensures a == Restart <==> isLooping && position >= length
    ensures a == Advance <==> !isLooping && position >= length && playQueueOn && queued > 0
  {
    if isLooping then
      if position >= length then Restart else Idle
    else if position >= length && playQueueOn && queued > 0 then Advance
    else Idle
  }

  /** Looping is tested before the queue, and an empty deck (length 0,
      playhead 0) already counts as at its end. */
  lemma TickDecisionCases(position: real, length: real, playQueueOn: bool, queued: nat)
    ensures TickDecision(true, 0.0, 0.0, playQueueOn, queued) == Restart
    ensures position < length ==> TickDecision(true, position, length, playQueueOn, queued) == Idle
    ensures position < length ==> TickDecision(false, position, length, playQueueOn, queued) == Idle
    ensures !playQueueOn ==> TickDecision(false, position, length, playQueueOn, queued) == Idle
    ensures TickDecision(false, position, length, playQueueOn, 0) == Idle
  {
  }

  /** Every handler's modifies clause names exactly the deck fields it writes
      (this`field); every other field of the deck keeps its value. */
  class DeckGUI {
    const player: DJAudioPlayer
    const waveform: WaveformDisplay
    const queue: QueueComponent

    var isLoaded: bool
    var isLooping: bool
    // toggle states of the mute, 2x and loop buttons
    var muteOn: bool
    var twoTimesOn: bool
    var loopOn: bool
    // values of the volume and speed sliders
    var volume: real
    var speed: real
    var playPauseText: string
    var trackName: string
    var trackLength: string
    var movingTrackLength: string

    ghost predicate Valid()
      reads this, player
    {
      player.Valid() && isLooping == loopOn
    }

    constructor (player: DJAudioPlayer, queue: QueueComponent)
      requires player.Valid()
      ensures Valid()
      ensures this.player == player && this.queue == queue && fresh(waveform)
      ensures !waveform.fileLoaded && waveform.position == 0.0
      ensures !isLoaded && !isLooping && !muteOn && !twoTimesOn && !loopOn
      ensures volume == 0.5 && speed == 1.0 && playPauseText == PlayText
    {
      this.player := player;
      this.queue := queue;
      waveform := new WaveformDisplay();
      isLoaded, isLooping := false, false;
      muteOn, twoTimesOn, loopOn := false, false, false;
      volume, speed := 0.5, 1.0;
      playPauseText := PlayText;
      trackName, trackLength, movingTrackLength := "", "", "";
    }

    /** Play when stopped, stop when playing; gain, ratio and playhead stay. */
    method ClickPlayPause()
      requires Valid()
      modifies this`playPauseText, player
      ensures Valid()
      ensures player.isPlaying == !old(player.isPlaying)
      ensures playPauseText == (if player.isPlaying then PauseText else PlayText)
      ensures player.gain == old(player.gain) && player.ratio == old(player.ratio)
      ensures player.position == old(player.position) && player.length == old(player.length)
      ensures isLooping == old(isLooping) && muteOn == old(muteOn) && twoTimesOn == old(twoTimesOn)
    {
      if !player.isPlaying {
        player.Start();
        playPauseText := PauseText;
      } else {
        player.Stop();
        playPauseText := PlayText;
      }
    }

    /** Back to the start, keeping the play state. */
    method ClickReset()
      requires Valid()
      modifies player
      ensures Valid()
      ensures player.position == 0.0
      ensures player.isPlaying == old(player.isPlaying)
      ensures player.gain == old(player.gain) && player.ratio == old(player.ratio)
      ensures player.length == old(player.length)
    {
      if player.isPlaying {
        player.SetPosition(0.0);
        player.Start();
      } else {
        player.SetPosition(0.0);
        player.Stop();
      }
    }

    /** Mute on silences the deck; mute off restores the volume slider's value. */
    method ClickMute()
      requires Valid()
      modifies this`muteOn, player
      ensures Valid()
      ensures muteOn == !old(muteOn)
      ensures player.gain == (if muteOn then 0.0
                              else if GainAccepted(volume) then volume else old(player.gain))
      ensures volume == old(volume) && twoTimesOn == old(twoTimesOn) && isLooping == old(isLooping)
      ensures player.ratio == old(player.ratio) && player.position == old(player.position)
      ensures player.length == old(player.length) && player.isPlaying == old(player.isPlaying)
    {
      muteOn := !muteOn;
      if muteOn {
        player.SetGain(0.0);
      } else {
        player.SetGain(volume);
      }
    }

    /** 2x on doubles the speed; 2x off restores the speed slider's value. */
    method ClickTwoTimes()
      requires Valid()
      modifies this`twoTimesOn, player
      ensures Valid()
      ensures twoTimesOn == !old(twoTimesOn)
      ensures player.ratio == (if twoTimesOn then 2.0
                               else if SpeedAccepted(speed) then speed else old(player.ratio))
      ensures speed == old(speed) && muteOn == old(muteOn) && isLooping == old(isLooping)
      ensures player.gain == old(player.gain) && player.position == old(player.position)
      ensures player.length == old(player.length) && player.isPlaying == old(player.isPlaying)
    {
      twoTimesOn := !twoTimesOn;
      if twoTimesOn {
        player.SetSpeed(2.0);
      } else {
        player.SetSpeed(speed);
      }
    }

    method ClickLoop()
      requires Valid()
      modifies this`loopOn, this`isLooping
      ensures Valid()
      ensures isLooping == !old(isLooping)
      ensures muteOn == old(muteOn) && twoTimesOn == old(twoTimesOn)
    {
      loopOn := !loopOn;
      isLooping := loopOn;
    }

    method ClickSkipForward()
      requires Valid()
      modifies player
      ensures Valid()
      ensures player.position == old(player.position) + 5.0
      ensures player.gain == old(player.gain) && player.ratio == old(player.ratio)
      ensures player.length == old(player.length) && player.isPlaying == old(player.isPlaying)
    {
      player.SetPosition(player.position + 5.0);
    }

    /** Five seconds back, applied whenever the target is not exactly 0 --
        including targets before the start of the track. */
    method ClickSkipBack()
      requires Valid()
      modifies player
      ensures Valid()
      ensures player.position == (if old(player.position) - 5.0 != 0.0
                                  then old(player.position) - 5.0 else old(player.position))
      ensures player.gain == old(player.gain) && player.ratio == old(player.ratio)
      ensures player.length == old(player.length) && player.isPlaying == old(player.isPlaying)
    {
      var pos := player.position - 5.0;
      if SkipBackGuard(pos) {
        player.SetPosition(pos);
      }
    }

    /** The volume slider sets the gain only while mute is off. */
    method MoveVolumeSlider(v: real)
      requires Valid()
      modifies this`volume, player
      ensures Valid()
      ensures volume == v
      ensures player.gain == (if !muteOn && GainAccepted(v) then v else old(player.gain))
      ensures muteOn == old(muteOn) && speed == old(speed)
      ensures player.ratio == old(player.ratio) && player.position == old(player.position)
      ensures player.length == old(player.length) && player.isPlaying == old(player.isPlaying)
    {
      volume := v;
      if !muteOn {
        player.SetGain(v);
      }
    }

    /** The speed slider sets the ratio only while 2x is off. */
    method MoveSpeedSlider(v: real)
      requires Valid()
      modifies this`speed, player
      ensures Valid()
      ensures speed == v
      ensures player.ratio == (if !twoTimesOn && SpeedAccepted(v) then v else old(player.ratio))
      ensures twoTimesOn == old(twoTimesOn) && volume == old(volume)
      ensures player.gain == old(player.gain) && player.position == old(player.position)
      ensures player.length == old(player.length) && player.isPlaying == old(player.isPlaying)
    {
      speed := v;
      if !twoTimesOn {
        player.SetSpeed(v);
      }
    }

    method MovePositionSlider(v: real)
      requires Valid()
      modifies player
      ensures Valid()
      ensures player.position == (if 0.0 <= v <= 1.0 then player.length * v else old(player.position))
      ensures player.gain == old(player.gain) && player.ratio == old(player.ratio)
      ensures player.length == old(player.length) && player.isPlaying == old(player.isPlaying)
    {
      player.SetPositionRelative(v);
    }

    /** The deck shows the file's name and the player's length, and counts as
        loaded, whether or not the player could open the file. */
    method SetNameAndLength(file: Path, fs: FileSystem)
      requires Valid()
      modifies this`trackName, this`trackLength, this`isLoaded
      ensures Valid()
      ensures trackName == fs.stem(file) && trackLength == LengthInString(player.length)
      ensures isLoaded
      ensures isLooping == old(isLooping) && playPauseText == old(playPauseText)
      ensures muteOn == old(muteOn) && twoTimesOn == old(twoTimesOn)
      ensures volume == old(volume) && speed == old(speed)
      ensures movingTrackLength == old(movingTrackLength)
    {
      trackName := fs.stem(file);
      trackLength := LengthInString(player.length);
      isLoaded := true;
    }

    /** Loading a file into the deck (load button, a dropped file, or a row
        dragged from the library): the player, the waveform and the labels. */
    method LoadTrack(file: Path, fs: FileSystem)
      requires Valid()
      modifies this`trackName, this`trackLength, this`isLoaded, player, waveform
      ensures Valid()
      ensures fs.open(file).None? ==> unchanged(player)
      ensures fs.open(file).Some? ==>
                player.length == LengthInSeconds(fs.open(file).value) && player.position == 0.0
      ensures player.gain == old(player.gain) && player.ratio == old(player.ratio)
      ensures player.isPlaying == old(player.isPlaying)
      ensures waveform.fileLoaded == fs.thumbnail(file) && waveform.position == old(waveform.position)
      ensures trackName == fs.stem(file) && trackLength == LengthInString(player.length) && isLoaded
      ensures isLooping == old(isLooping) && playPauseText == old(playPauseText)
      ensures muteOn == old(muteOn) && twoTimesOn == old(twoTimesOn)
      ensures volume == old(volume) && speed == old(speed)
      ensures movingTrackLength == old(movingTrackLength)
    {
      player.LoadURL(fs.open(file));
      waveform.LoadURL(fs.thumbnail(file));
      SetNameAndLength(file, fs);
    }

    /** The queue branch of the tick: load the front entry, play it from its
        start, and remove exactly that entry from the queue. */
    method PlayFrontOfQueue(fs: FileSystem)
      requires Valid() && |queue.queuedTracks| > 0
      modifies this`trackName, this`trackLength, this`isLoaded, this`playPauseText
      modifies player, waveform, queue`queuedTracks
      ensures Valid()
      ensures var file := old(queue.queuedTracks)[0].file;
              && player.length == (if fs.open(file).Some? then LengthInSeconds(fs.open(file).value)
                                   else old(player.length))
              && waveform.fileLoaded == fs.thumbnail(file)
              && trackName == fs.stem(file)
      ensures trackLength == LengthInString(player.length)
      ensures player.position == 0.0 && player.isPlaying && isLoaded && playPauseText == PauseText
      ensures queue.queuedTracks == old(queue.queuedTracks)[1..]
      ensures waveform.position == old(waveform.position)
      ensures player.gain == old(player.gain) && player.ratio == old(player.ratio)
      ensures queue.playQueueOn == old(queue.playQueueOn) && queue.playQueueText == old(queue.playQueueText)
      ensures isLooping == old(isLooping) && muteOn == old(muteOn) && twoTimesOn == old(twoTimesOn)
      ensures volume == old(volume) && speed == old(speed)
      ensures movingTrackLength == old(movingTrackLength)
    {
      var file := queue.queuedTracks[0].file;
      LoadTrack(file, fs);
      player.SetPosition(0.0);
      player.Start();
      playPauseText := PauseText;
      queue.queuedTracks := RemoveAt(queue.queuedTracks, 0);
    }

    /** The timer tick, taken as one step. It moves the waveform marker and
        the running clock, then restarts a looping deck that reached its end,
        or takes the front of the queue into a non-looping deck that reached
        its end while the queue is switched on. Otherwise it changes nothing:
        in particular it never stops the player. */
    method TimerCallback(fs: FileSystem)
      requires Valid()
      modifies this`movingTrackLength, this`trackName, this`trackLength, this`isLoaded
      modifies this`playPauseText, player, waveform, queue`queuedTracks
      ensures Valid()
      ensures movingTrackLength == LengthInString(old(player.position))
      ensures waveform.position == PlayheadAfter(old(waveform.position), old(player.PositionRelative()))
      ensures old(TickDecision(isLooping, player.position, player.length,
                               queue.playQueueOn, |queue.queuedTracks|)) == Restart ==>
                && player.position == 0.0 && player.isPlaying
                && player.length == old(player.length)
                && waveform.fileLoaded == old(waveform.fileLoaded)
                && queue.queuedTracks == old(queue.queuedTracks)
                && trackName == old(trackName) && trackLength == old(trackLength)
                && isLoaded == old(isLoaded) && playPauseText == old(playPauseText)
      ensures old(TickDecision(isLooping, player.position, player.length,
                               queue.playQueueOn, |queue.queuedTracks|)) == Advance ==>
                var file := old(queue.queuedTracks)[0].file;
                && player.position == 0.0 && player.isPlaying
                && player.length == (if fs.open(file).Some? then LengthInSeconds(fs.open(file).value)
                                     else old(player.length))
                && waveform.fileLoaded == fs.thumbnail(file)
                && trackName == fs.stem(file) && trackLength == LengthInString(player.length)
                && isLoaded && playPauseText == PauseText
                && queue.queuedTracks == old(queue.queuedTracks)[1..]
      ensures old(TickDecision(isLooping, player.position, player.length,
                               queue.playQueueOn, |queue.queuedTracks|)) == Idle ==>
                && player.position == old(player.position)
                && player.isPlaying == old(player.isPlaying)
                && player.length == old(player.length)
                && waveform.fileLoaded == old(waveform.fileLoaded)
                && queue.queuedTracks == old(queue.queuedTracks)
                && trackName == old(trackName) && trackLength == old(trackLength)
                && isLoaded == old(isLoaded) && playPauseText == old(playPauseText)
      ensures player.gain == old(player.gain) && player.ratio == old(player.ratio)
      ensures queue.playQueueOn == old(queue.playQueueOn) && queue.playQueueText == old(queue.playQueueText)
      ensures isLooping == old(isLooping) && muteOn == old(muteOn) && twoTimesOn == old(twoTimesOn)
      ensures volume == old(volume) && speed == old(speed)
    {
      waveform.SetPositionRelative(player.PositionRelative());
      movingTrackLength := LengthInString(player.position);

      if isLooping {
        if player.position >= player.length {
          player.SetPosition(0.0);
          player.Start();
        }
      } else {
        if player.position >= player.length {
          if queue.playQueueOn && |queue.queuedTracks| > 0 {
            PlayFrontOfQueue(fs);
          }
        }
      }
    }
  }
}
