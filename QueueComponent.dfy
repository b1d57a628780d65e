/** The play queue shared by both decks: the queued tracks in order and the
    "Play Queue" toggle that lets a deck take the next track at end of track. */
module Queue {
  import opened Seqs
  import opened Tracks

  const PlayQueueText: string := "Play Queue"
  const PlayingQueueText: string := "Playing Queue"

  class QueueComponent {
    var queuedTracks: seq<TrackInfo>
    var playQueueOn: bool
    var playQueueText: string

    constructor ()
      ensures queuedTracks == [] && !playQueueOn && playQueueText == PlayQueueText
    {
      queuedTracks := [];
      playQueueOn := false;
      playQueueText := PlayQueueText;
    }

    function NumRows(): (n: int)
      reads this
      ensures n == |queuedTracks|
    {
      |queuedTracks|
    }

    /** "Clear Queue" empties the queue; on an empty queue nothing changes. */
    method ClickClearQueue()
      modifies this
      ensures queuedTracks == []
      ensures old(queuedTracks) == [] ==> unchanged(this)
      ensures playQueueOn == old(playQueueOn) && playQueueText == old(playQueueText)
    {
      if queuedTracks != [] {
        queuedTracks := [];
      }
    }

    /** The button flips its toggle state before the listener runs; the
        listener only relabels it. The queue itself is not touched. */
    method ClickPlayQueue()
      modifies this
      ensures playQueueOn == !old(playQueueOn)
      ensures playQueueText == (if playQueueOn then PlayingQueueText else PlayQueueText)
      ensures queuedTracks == old(queuedTracks)
    {
      playQueueOn := !playQueueOn;
      playQueueText := if playQueueOn then PlayingQueueText else PlayQueueText;
    }

    /** The "x" button of row id removes exactly that entry. */
    method ClickDeleteRow(id: nat)
      requires id < |queuedTracks|
      modifies this
      ensures queuedTracks == RemoveAt(old(queuedTracks), id)
      ensures playQueueOn == old(playQueueOn) && playQueueText == old(playQueueText)
    {
      queuedTracks := queuedTracks[..id] + queuedTracks[id + 1..];
    }
  }
}
