# audioMix control logic in Dafny

audioMix is a two-deck DJ mixer built on JUCE. Each deck has an audio player
(gain, playback speed, playhead, start/stop), buttons for play/pause, reset,
mute, double speed, loop and five-second skips, and volume, speed and
position sliders. A timer tick follows the playhead and decides what happens
at the end of a track. A crossfader splits the volume between the two decks.
A play queue feeds tracks into a deck. A track library holds the added
files without duplicates. It can be searched by title, emptied by "Remove
All" (either entirely or only the search results), and it is saved as one
path per line.

This project models that control logic and proves properties about it:

- `Text`: C++ integer division and remainder, the double-to-int cast, and
  decimal printing.
- `Seqs`: erasing an element of a vector, and subsequences.
- `Media`: readers, and the file system as abstract functions.
- `Tracks`: the library record and its "mm:ss" length.
- `Player`: the deck's audio player.
- `Waveform`: the waveform display's playhead marker.
- `Queue`: the play queue.
- `Deck`: the deck's handlers and timer tick.
- `Crossfade`: the crossfader.
- `Playlist`: the track library.

Objects that the source updates in place are classes with `modifies`
clauses. Pure computations are functions, and the properties are lemmas.

Seconds, gains and ratios are `real`. The transport's getters
`getPosition` and `getLengthInSeconds` are the player's `position` and
`length` fields, read directly.

`setSpeed` (audioMix/Source/DJAudioPlayer.cpp:72) rejects only
`ratio < 0 || ratio > 2.0`, so it accepts a ratio of 0. Only the speed
slider's range, 0.1 to 2.0 (audioMix/Source/DeckGUI.cpp:70), keeps 0 out.
The model follows the code: `Player.SpeedAccepted` admits 0.

## Model

| member | source | states |
|---|---|---|
| Text.Truncate | audioMix/Source/DeckGUI.cpp:420 | `(int)` of a double truncates toward zero: the result is the integer between 0 and x that is less than 1 away from x |
| Text.CDiv | audioMix/Source/DeckGUI.cpp:422 | C++ `/` truncates toward zero: b*q lies between 0 and the dividend, less than b away from it, for either sign |
| Text.CMod | audioMix/Source/DeckGUI.cpp:423 | C++ `%` satisfies a == b*(a/b) + a%b and takes the dividend's sign |
| Text.IntToString | audioMix/Source/DeckGUI.cpp:422-423 | `juce::String(int)` prints the digits of the value, with a '-' before a negative value |
| Text.NatToString | audioMix/Source/TrackInfo.cpp:34-35 | `std::to_string` of a non-negative int is a digit string that is one character long exactly for values below 10 |
| Text.PadTwo | audioMix/Source/TrackInfo.cpp:38-43 | one leading "0" before a one-character field, nothing otherwise |
| Seqs.RemoveAt | audioMix/Source/QueueComponent.cpp:117 | `vector::erase(begin()+i)` removes exactly element i: one element shorter, the elements before i unchanged, the ones after moved down by one, and the multiset minus that element |
| Media.LengthInSeconds | audioMix/Source/TrackInfo.cpp:30-31 | a reader's length in seconds is non-negative and times the sample rate gives the length in samples |
| Tracks.WholeSeconds | audioMix/Source/TrackInfo.cpp:31 | whole seconds are the truncated samples/rate: at most the exact length and more than it minus 1 |
| Tracks.FormatMinSec | audioMix/Source/TrackInfo.cpp:34-46 | minutes ":" seconds: at least 5 characters, with the ':' third from the end, so the seconds field is exactly two characters |
| Tracks.FormatMinSecFields | audioMix/Source/TrackInfo.cpp:34-46 | both fields are all digits; the seconds field reads s % 60, below 60, and the minutes field reads s / 60 |
| Tracks.TrackLength | audioMix/Source/TrackInfo.cpp:22-48 | "" when no reader can be created; otherwise the "mm:ss" text of the track's whole seconds, which parses back to them |
| Tracks.PaddedParse | audioMix/Source/TrackInfo.cpp:38-43 | the padded field of n is all digits and reads back as n |
| Tracks.TrackLengthRoundTrip | audioMix/Source/TrackInfo.cpp:34-46 | a strict parse of the "mm:ss" text (digits, one ':', exactly two digits below 60 after it) reads minutes*60 + seconds back as the whole seconds |
| Tracks.TrackInfoOf | audioMix/Source/TrackInfo.cpp:14-19 | the record keeps the file, takes its name without extension as the title, and its length text is "" without a reader, else the "mm:ss" text of the whole seconds |
| Player.RelativePosition | audioMix/Source/DJAudioPlayer.cpp:110-115 | 0 for a track of length 0, otherwise the fraction that times the length gives the position |
| Player.RelativeSeekRoundTrip | audioMix/Source/DJAudioPlayer.cpp:86-95 | with a positive length, the relative position of length*p is p again |
| Player.DJAudioPlayer.constructor | audioMix/Source/DJAudioPlayer.cpp:13-17 | a new player is not playing and has no track |
| Player.DJAudioPlayer.LoadURL | audioMix/Source/DJAudioPlayer.cpp:40-58 | no reader leaves the player unchanged; a reader makes its track current from 0 s; gain, ratio and isPlaying are never touched |
| Player.DJAudioPlayer.SetGain | audioMix/Source/DJAudioPlayer.cpp:61-68 | the gain becomes g exactly when 0 <= g <= 1 and stays otherwise; nothing else changes |
| Player.DJAudioPlayer.SetSpeed | audioMix/Source/DJAudioPlayer.cpp:71-78 | the ratio becomes r exactly when 0 <= r <= 2, 0 included, and stays otherwise; nothing else changes |
| Player.DJAudioPlayer.SetPosition | audioMix/Source/DJAudioPlayer.cpp:81-83 | the playhead becomes the given time, unclamped; nothing else changes |
| Player.DJAudioPlayer.SetPositionRelative | audioMix/Source/DJAudioPlayer.cpp:86-95 | a fraction outside [0, 1] is ignored, otherwise the playhead becomes length*p, and then the relative position reads back p for a non-empty track |
| Player.DJAudioPlayer.Start | audioMix/Source/DJAudioPlayer.cpp:98-101 | playing afterwards; gain, ratio, position and length unchanged |
| Player.DJAudioPlayer.Stop | audioMix/Source/DJAudioPlayer.cpp:104-107 | not playing afterwards; gain, ratio, position and length unchanged |
| Waveform.PlayheadAfter | audioMix/Source/WaveformDisplay.cpp:76-82 | the marker becomes p when p > 0 and stays when p <= 0 |
| Waveform.PlayheadIdempotent | audioMix/Source/WaveformDisplay.cpp:76-82 | applying the same relative position twice is the same as once |
| Waveform.PlayheadStaysPositive | audioMix/Source/WaveformDisplay.cpp:78 | a positive marker never goes back to 0 or below |
| Waveform.WaveformDisplay.constructor | audioMix/Source/WaveformDisplay.cpp:15-22 | a new display has no file loaded and the marker at 0 |
| Waveform.WaveformDisplay.LoadURL | audioMix/Source/WaveformDisplay.cpp:62-73 | fileLoaded becomes the thumbnail's setSource result; the marker does not move |
| Waveform.WaveformDisplay.SetPositionRelative | audioMix/Source/WaveformDisplay.cpp:76-82 | the marker follows PlayheadAfter; fileLoaded is unchanged |
| Queue.QueueComponent.constructor | audioMix/Source/QueueComponent.cpp:15-35 | a new queue is empty with the play-queue toggle off and labelled "Play Queue" |
| Queue.QueueComponent.NumRows | audioMix/Source/QueueComponent.cpp:59-62 | the row count is the queue length |
| Queue.QueueComponent.ClickClearQueue | audioMix/Source/QueueComponent.cpp:96-102 | the queue is empty afterwards, and clearing an empty queue changes nothing |
| Queue.QueueComponent.ClickPlayQueue | audioMix/Source/QueueComponent.cpp:104-108 | the toggle flips, the label is "Playing Queue" when on and "Play Queue" when off, and the queue is untouched |
| Queue.QueueComponent.ClickDeleteRow | audioMix/Source/QueueComponent.cpp:110-120 | exactly entry id is removed; the others keep their order; the toggle is untouched |
| Deck.LengthInString | audioMix/Source/DeckGUI.cpp:419-434 | for a non-negative time, the "mm:ss" text of its truncated whole seconds |
| Deck.LengthInStringMatchesTrackLength | audioMix/Source/DeckGUI.cpp:419-434 | for whole seconds the deck's formatter gives the same text as the library's |
| Deck.LengthInStringNegative | audioMix/Source/DeckGUI.cpp:419-434 | a playhead at -3 s prints as "00:-3" |
| Deck.SkipBackGuard | audioMix/Source/DeckGUI.cpp:314-319 | `!pos <= 0` holds exactly when pos != 0 |
| Deck.SkipBackGuardAdmitsNegative | audioMix/Source/DeckGUI.cpp:317 | skipping back from 3 s applies -2 s, and skipping back from 5 s refuses 0 s |
| Deck.SkipBackIntendedKeepsNonNegative | audioMix/Source/DeckGUI.cpp:316-319 | with the guard `pos >= 0`, a non-negative playhead stays non-negative, and the skip is applied exactly from 5 s on |
| Deck.TickDecision | audioMix/Source/DeckGUI.cpp:363-391 | restart exactly when looping and position >= length; advance the queue exactly when not looping, at the end, toggle on and the queue non-empty |
| Deck.TickDecisionCases | audioMix/Source/DeckGUI.cpp:363-391 | an empty looping deck (0 s of 0 s) restarts; before the end, with the toggle off, or with an empty queue, nothing happens |
| Deck.DeckGUI.constructor | audioMix/Source/DeckGUI.cpp:15-92 | a new deck is not loaded or looping, the toggles are off, volume 0.5, speed 1, label "PLAY", and its waveform is new and empty |
| Deck.DeckGUI.ClickPlayPause | audioMix/Source/DeckGUI.cpp:206-220 | stopped becomes playing with label "PAUSE"; playing becomes stopped with label "PLAY"; no other deck field and no other player field changes |
| Deck.DeckGUI.ClickReset | audioMix/Source/DeckGUI.cpp:223-239 | the playhead goes to 0 and the play state is kept |
| Deck.DeckGUI.ClickMute | audioMix/Source/DeckGUI.cpp:254-267 | the toggle flips; on: gain 0; off: gain is the volume slider's value when setGain accepts it; no other deck field and no other player field changes |
| Deck.DeckGUI.ClickTwoTimes | audioMix/Source/DeckGUI.cpp:270-283 | the toggle flips; on: ratio 2; off: ratio is the speed slider's value when setSpeed accepts it; no other deck field and no other player field changes |
| Deck.DeckGUI.ClickLoop | audioMix/Source/DeckGUI.cpp:286-299 | the toggle flips and isLooping follows it; nothing else changes |
| Deck.DeckGUI.ClickSkipForward | audioMix/Source/DeckGUI.cpp:302-307 | the playhead moves 5 s forward, unclamped |
| Deck.DeckGUI.ClickSkipBack | audioMix/Source/DeckGUI.cpp:310-320 | as written: the playhead moves to position-5 exactly when that is not 0, negative targets included |
| Deck.DeckGUI.MoveVolumeSlider | audioMix/Source/DeckGUI.cpp:326-328 | the slider value is kept and becomes the gain only while mute is off; no other deck field and no other player field changes |
| Deck.DeckGUI.MoveSpeedSlider | audioMix/Source/DeckGUI.cpp:331-333 | the slider value is kept and becomes the ratio only while 2x is off; no other deck field and no other player field changes |
| Deck.DeckGUI.MovePositionSlider | audioMix/Source/DeckGUI.cpp:335-337 | the slider value seeks relatively, following SetPositionRelative |
| Deck.DeckGUI.SetNameAndLength | audioMix/Source/DeckGUI.cpp:410-415 | name from the file, length text from the player's length, and loaded, even when the load failed |
| Deck.DeckGUI.LoadTrack | audioMix/Source/DeckGUI.cpp:242-251 | player, waveform and labels load the file; gain, ratio, isPlaying, toggles and sliders are untouched |
| Deck.DeckGUI.PlayFrontOfQueue | audioMix/Source/DeckGUI.cpp:374-389 | the front entry is loaded and played from 0 s with label "PAUSE" and its name and length shown, and exactly that entry leaves the queue; gain, ratio, toggles, sliders, clock and the queue's toggle and label are untouched |
| Deck.DeckGUI.TimerCallback | audioMix/Source/DeckGUI.cpp:357-392 | waveform marker and running clock follow the old playhead; then restart (labels untouched), advance (the new track's name and length shown) or nothing, as TickDecision says; the player is never stopped; gain, ratio, toggles, sliders and the queue's toggle and label never change |
| Crossfade.CrossfadeLaw | audioMix/Source/Crossfader.cpp:51-66 | nothing is pushed exactly at 0.5; otherwise deck 2 gets v and deck 1 gets 1-v |
| Crossfade.CrossfadeGainsAccepted | audioMix/Source/Crossfader.cpp:23-64 | for slider values in [0, 1] both pushed gains pass setGain's check |
| Crossfade.CrossfadeSides | audioMix/Source/Crossfader.cpp:53-64 | below 0.5 deck 1 is louder, above 0.5 deck 2 is louder |
| Crossfade.CrossfadeEnds | audioMix/Source/Crossfader.cpp:55-64 | 0 gives gains (1, 0) and 1 gives (0, 1) |
| Crossfade.Crossfader.constructor | audioMix/Source/Crossfader.cpp:15-27 | the slider starts at 0.5 |
| Crossfade.Crossfader.SliderValueChanged | audioMix/Source/Crossfader.cpp:51-66 | both players' gains are set by the law, or both kept at 0.5; nothing else in either player changes |
| Playlist.AddIfAbsentKeepsDistinct | audioMix/Source/PlaylistComponent.cpp:300-313 | a file is appended exactly when no entry has it; a library without duplicate files keeps none, and holds the file afterwards |
| Playlist.AddAllKeepsDistinct | audioMix/Source/PlaylistComponent.cpp:298-326 | adding several files keeps the old entries in front, holds every added file, and stays free of duplicate files |
| Playlist.Matching | audioMix/Source/PlaylistComponent.cpp:427-432 | the results hold exactly the library entries whose title contains the keyword |
| Playlist.MatchingIsSubsequence | audioMix/Source/PlaylistComponent.cpp:428-431 | the results keep library order |
| Playlist.SearchResultsSpec | audioMix/Source/PlaylistComponent.cpp:422-435 | an empty keyword gives no results; otherwise exactly the matching entries, as a subsequence of the library |
| Playlist.Unmatching | audioMix/Source/PlaylistComponent.cpp:404-417 | the entries whose title does not contain the keyword, which is what "Remove All" over a search should leave |
| Playlist.EraseTitle | audioMix/Source/PlaylistComponent.cpp:409-413 | the inner erase loop computes one skipping pass, EraseSkipping |
| Playlist.EraseStep | audioMix/Source/PlaylistComponent.cpp:410-412 | erasing at i and then incrementing i is one step of the pass |
| Playlist.KeepStep | audioMix/Source/PlaylistComponent.cpp:409-413 | moving past an entry of another title is one step of the pass |
| Playlist.EraseSkippingIsSubsequence | audioMix/Source/PlaylistComponent.cpp:409-413 | a pass only deletes: what is left is a subsequence |
| Playlist.EraseSkippingCounts | audioMix/Source/PlaylistComponent.cpp:409-413 | a pass keeps every other title's entries and removes at least one entry of its own title when there is one |
| Playlist.ErasePassesCount | audioMix/Source/PlaylistComponent.cpp:407-414 | each result of a title removes at least one remaining entry of that title |
| Playlist.ErasePassesMembers | audioMix/Source/PlaylistComponent.cpp:407-414 | every entry left by the passes was in the library |
| Playlist.EraseSkippingKeepsUnmatching | audioMix/Source/PlaylistComponent.cpp:409-413 | a pass for a matching title leaves the non-matching entries as they were |
| Playlist.ErasePassesKeepsUnmatching | audioMix/Source/PlaylistComponent.cpp:407-414 | passes for matching titles leave the non-matching entries as they were |
| Playlist.MatchingCount | audioMix/Source/PlaylistComponent.cpp:427-432 | the results hold as many entries of a matching title as the library |
| Playlist.RemoveAllAfterFreshSearch | audioMix/Source/PlaylistComponent.cpp:404-417 | right after a search, "Remove All" leaves exactly the non-matching entries in library order |
| Playlist.NoMatchLeft | audioMix/Source/PlaylistComponent.cpp:407-414 | after a fresh search, no entry whose title contains the keyword survives the passes |
| Playlist.EraseResultTitles | audioMix/Source/PlaylistComponent.cpp:407-413 | corrected removal: exactly the entries whose title is no result's title remain, in library order |
| Playlist.EraseResultTitlesAfterFreshSearch | audioMix/Source/PlaylistComponent.cpp:404-417 | on the results of a search the loops as written and the corrected removal agree |
| Playlist.StaleResultsLeaveTrack | audioMix/Source/PlaylistComponent.cpp:407-413 | with library [a, b, c] of one title and stale results [a], the loops as written leave [b]: not [b, c] (the result entries removed) and not [] (the corrected removal by title) |
| Playlist.ShownTrack | audioMix/Source/PlaylistComponent.cpp:144-151 | the track a row shows, as paintCell draws it and the deck buttons (lines 246-259, 267-280) load it: library entry `row` with an empty search box, result `row` otherwise |
| Playlist.ShownTrackMatches | audioMix/Source/PlaylistComponent.cpp:225-236 | corrected add-to-queue: after a search the shown row is a library track that matches |
| Playlist.AddToQueueTakesHiddenTrack | audioMix/Source/PlaylistComponent.cpp:229-233 | as written, selecting row 0 of the results [y] queues the library's x, which is neither shown nor matching |
| Playlist.TracksOf | audioMix/Source/PlaylistComponent.cpp:456-459 | one record per line read, holding exactly those paths in that order |
| Playlist.SplitSerialize | audioMix/Source/PlaylistComponent.cpp:438-465 | reading the saved text back gives the saved paths when none contains '\n' |
| Playlist.SaveLoadRoundTrip | audioMix/Source/PlaylistComponent.cpp:438-465 | save then load into an empty library reproduces the path sequence when no path contains '\n' |
| Playlist.ReadLine | audioMix/Source/PlaylistComponent.cpp:456-459 | one getline call yields the first line's record followed by the records of the rest |
| Playlist.PlaylistComponent.constructor | audioMix/Source/PlaylistComponent.cpp:15-20 | a new library, result list and search text are empty |
| Playlist.PlaylistComponent.NumRows | audioMix/Source/PlaylistComponent.cpp:122-126 | the library size with an empty search box, else the result count |
| Playlist.PlaylistComponent.AddFile | audioMix/Source/PlaylistComponent.cpp:300-313 | the scan finds whether an entry has the file, and the file is appended exactly when none does |
| Playlist.PlaylistComponent.AddFiles | audioMix/Source/PlaylistComponent.cpp:298-326 | the files are added one after the other, each de-duplicated |
| Playlist.PlaylistComponent.AddToLibrary | audioMix/Source/PlaylistComponent.cpp:293-328 | a cancelled chooser changes nothing; otherwise each chosen file is added unless present |
| Playlist.PlaylistComponent.FilesDropped | audioMix/Source/PlaylistComponent.cpp:336-369 | each dropped file is added unless present |
| Playlist.PlaylistComponent.RemoveTrack | audioMix/Source/PlaylistComponent.cpp:372-377 | with an empty search box, exactly entry id is removed and the order of the rest kept; index size pops the last |
| Playlist.PlaylistComponent.ClickRemoveRow | audioMix/Source/PlaylistComponent.cpp:283-287 | the "X" button removes its row (index size pops the last entry), and does nothing in an empty library |
| Playlist.PlaylistComponent.RemoveAllTracks | audioMix/Source/PlaylistComponent.cpp:395-419 | an empty search box clears the library; otherwise one skipping pass per result, then the results are cleared |
| Playlist.PlaylistComponent.Search | audioMix/Source/PlaylistComponent.cpp:422-435 | the results become SearchResults of the library; the library is untouched |
| Playlist.PlaylistComponent.TypeInSearchBox | audioMix/Source/PlaylistComponent.cpp:63-65 | every change of the search text runs search on the new text |
| Playlist.PlaylistComponent.ClickAddToQueue | audioMix/Source/PlaylistComponent.cpp:225-236 | with a row selected, the library entry at that index joins the end of the queue, also while results are shown; otherwise nothing changes |
| Playlist.PlaylistComponent.SaveLibrary | audioMix/Source/PlaylistComponent.cpp:438-446 | the text written is each path followed by '\n', in library order |
| Playlist.PlaylistComponent.AddSavedLibrary | audioMix/Source/PlaylistComponent.cpp:449-465 | an unreadable file changes nothing; otherwise one record per line is appended, with no de-duplication |

## Left out

- Rendering and layout: painting, bounds, colours, look-and-feel, button
  labels other than play/pause and the queue toggle, the "2.0x" label text,
  and the warning text of the duplicate-file message box.
- Sample-level audio: `prepareToPlay`, `getNextAudioBlock`,
  `releaseResources` and the mixer. They run on the audio thread inside
  JUCE classes whose code is not part of this model.
- MainComponent.cpp is not part of this model. It is permissions and
  wiring.
- Foreign calls are parameters:
  - `createReaderFor`, the thumbnail's `setSource` and
    `getFileNameWithoutExtension` are the three functions of
    `Media.FileSystem`;
  - `containsIgnoreCase` is a function argument of the search.
  
  The file system is taken as fixed: the same path always gives the same
  reader and name.
- File I/O and dialogs: the chooser is an optional list of paths, and the
  library file is an optional text. Only the line format is modelled.
- The constructor of `PlaylistComponent` runs `addSavedLibrary`, and the
  destructor runs `saveLibrary`. The model keeps these as separate calls:
  `Playlist.PlaylistComponent.constructor` starts empty.
- `removeTrack` with a search active erases from the library inside a
  range-for over the same library, which is undefined behaviour. So
  `Playlist.PlaylistComponent.RemoveTrack` requires an empty search box.
- Row ids parsed with `stoi` are taken as valid indices (a precondition).
- The "DECK 1" / "DECK 2" row buttons (audioMix/Source/PlaylistComponent.cpp:242-281)
  and `getDragSourceDescription` connect the library to a deck. The
  buttons are not modelled as members. Their choice of file follows
  `Playlist.ShownTrack`. They load the file as `Deck.DeckGUI.LoadTrack`
  does, and then also call
  `waveformdisplay.setPositionRelative(player->getPositionRelative())`
  (lines 249, 256, 270 and 277), which moves the marker as
  `Waveform.WaveformDisplay.SetPositionRelative` does. `LoadTrack` alone
  leaves the marker where it was.
- The deck's `filesDropped` and `itemDropped` load one file the way
  `Deck.DeckGUI.LoadTrack` does.
- Timer cadence: each tick is one atomic step.
- Playback itself: the audio thread advances the playhead while a deck
  plays. The model has no step for that; `position` changes only through
  the handlers, seeks and loads.
- Asynchronous slider notifications are not modelled:
  - setting the volume and speed sliders in the deck constructor;
  - setting the position slider during a tick.
- IEEE doubles and slider step rounding: values are exact reals.
- Playlist.AddIfAbsentKeepsDistinct: paths are compared with case-sensitive
  string equality. `juce::File::operator==` ignores case on Windows and
  macOS, so there two paths that differ only in case count as one file. The
  de-duplication proved here holds for case-sensitive file systems. The
  same holds for `Playlist.HasFile`.
- Deck.LengthInString: the overflow of the `(int)` cast for times beyond
  the int range is not modelled.
- Deck.DeckGUI.LoadTrack: JUCE's `setSource` also stops the transport. The
  model leaves `isPlaying` unchanged, as the code's own flag does.
- Tracks.WholeSeconds: the overflow of the `(int)` cast for tracks longer
  than the int range is not modelled.
- Playlist.PlaylistComponent.Search: a result is the record built again from
  the entry's file. The model proves it equal to the library entry, because
  every entry was built from its file with the same file system.

## Findings

| source | as written | input that shows it | evidently intended | confidence | as-written member | corrected member |
|---|---|---|---|---|---|---|
| audioMix/Source/DeckGUI.cpp:317 | `!pos <= 0` compares the bool `!pos` with 0, so the new position is applied exactly when it is not 0 | at 3 s skip-back moves to -2 s; at 5 s it refuses to move to 0 s | apply the position when it is not less than 0, as the comment on line 316 says | not executed | Deck.SkipBackGuardAdmitsNegative | Deck.SkipBackIntendedKeepsNonNegative |
| audioMix/Source/PlaylistComponent.cpp:409-413 | after erasing at index i the loop still increments i, so the entry that moved into index i is never examined | search "song" with library [/music/a/song.mp3], add /music/b/song.mp3 and /music/c/song.mp3, press "Remove All": b stays and c is erased | erase every library entry whose title equals a result's title, which is what the title comparison on line 410 aims at | not executed | Playlist.StaleResultsLeaveTrack | Playlist.EraseResultTitles |
| audioMix/Source/PlaylistComponent.cpp:233 | the selected row indexes the library even while the table shows search results | library [x, y], search "y" shows [y], select row 0, add to queue: x is queued | queue the track the selected row shows, as the deck buttons on lines 246-258 choose it | not executed | Playlist.AddToQueueTakesHiddenTrack | Playlist.ShownTrackMatches |

The deck, library and queue classes follow the code as written. The
corrected definitions stand beside them with their properties proved.
