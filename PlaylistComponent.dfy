/** The track library: the list of added tracks, the results of the current
    search, and the one-path-per-line text the library is saved as. */
module Playlist {
  import opened Text
  import opened Media
  import opened Seqs
  import opened Tracks
  import opened Queue

  // ---------------------------------------------------------------------
  // Adding files without duplicates

  /** Some entry has the file: `track.file == file`, with paths compared
      case-sensitively. */
  predicate HasFile(lib: seq<TrackInfo>, file: Path) {
    exists i :: 0 <= i < |lib| && lib[i].file == file
  }

  predicate NoDuplicateFiles(lib: seq<TrackInfo>) {
    forall i, j :: 0 <= i < j < |lib| ==> lib[i].file != lib[j].file
  }

  /** One step of adding a file: append its record unless an entry already
      has that file. */
  function AddIfAbsent(lib: seq<TrackInfo>, file: Path, fs: FileSystem): seq<TrackInfo> {
    if HasFile(lib, file) then lib else lib + [TrackInfoOf(file, fs)]
  }

  /** Adding the chosen or dropped files one after the other. */
  function AddAll(lib: seq<TrackInfo>, files: seq<Path>, fs: FileSystem): seq<TrackInfo>
    decreases |files|
  {
    if files == [] then lib else AddAll(AddIfAbsent(lib, files[0], fs), files[1..], fs)
  }

  /** A file is appended exactly when no entry has it, and a library without
      duplicate files stays without them. */
  lemma AddIfAbsentKeepsDistinct(lib: seq<TrackInfo>, file: Path, fs: FileSystem)
    requires NoDuplicateFiles(lib)
    ensures NoDuplicateFiles(AddIfAbsent(lib, file, fs))
    ensures HasFile(AddIfAbsent(lib, file, fs), file)
    ensures |AddIfAbsent(lib, file, fs)| == if HasFile(lib, file) then |lib| else |lib| + 1
  {
    var r := AddIfAbsent(lib, file, fs);
    if !HasFile(lib, file) {
      assert r[|lib|].file == file;
    }
  }

  /** Adding several files keeps the old entries in front, holds every added
      file afterwards, and keeps the library free of duplicate files. */
  lemma {:induction false} AddAllKeepsDistinct(lib: seq<TrackInfo>, files: seq<Path>, fs: FileSystem)
    requires NoDuplicateFiles(lib)
    ensures NoDuplicateFiles(AddAll(lib, files, fs))
    ensures |AddAll(lib, files, fs)| >= |lib| && AddAll(lib, files, fs)[..|lib|] == lib
    ensures forall f :: f in files ==> HasFile(AddAll(lib, files, fs), f)
    decreases |files|
  {
    if files != [] {
      var next := AddIfAbsent(lib, files[0], fs);
      AddIfAbsentKeepsDistinct(lib, files[0], fs);
      AddAllKeepsDistinct(next, files[1..], fs);
      var r := AddAll(next, files[1..], fs);
      assert r == AddAll(lib, files, fs);
      assert next[..|lib|] == lib;
      assert r[..|lib|] == r[..|next|][..|lib|];
      forall f | f in files
        ensures HasFile(r, f)
      {
        if f == files[0] {
          var i :| 0 <= i < |next| && next[i].file == f;
          assert r[i] == next[i];
        } else {
          assert f in files[1..];
        }
      }
    }
  }

  // ---------------------------------------------------------------------
  // Searching

  /** The entries whose title contains the keyword, in library order.
      containsIgnoreCase stands for juce::String::containsIgnoreCase. */
  function Matching(lib: seq<TrackInfo>, keyword: string,
                    containsIgnoreCase: (string, string) -> bool): (r: seq<TrackInfo>)
    ensures |r| <= |lib|
    ensures forall t :: t in r <==> t in lib && containsIgnoreCase(t.trackTitle, keyword)
    decreases |lib|
  {
    if lib == [] then []
    else if containsIgnoreCase(lib[0].trackTitle, keyword) then [lib[0]] + Matching(lib[1..], keyword, containsIgnoreCase)
    else Matching(lib[1..], keyword, containsIgnoreCase)
  }

  /** The entries whose title does not contain the keyword, in library order. */
  function Unmatching(lib: seq<TrackInfo>, keyword: string,
                      containsIgnoreCase: (string, string) -> bool): (r: seq<TrackInfo>)
    ensures forall t :: t in r <==> t in lib && !containsIgnoreCase(t.trackTitle, keyword)
    decreases |lib|
  {
    if lib == [] then []
    else if containsIgnoreCase(lib[0].trackTitle, keyword) then Unmatching(lib[1..], keyword, containsIgnoreCase)
    else [lib[0]] + Unmatching(lib[1..], keyword, containsIgnoreCase)
  }

  /** What search(keyword) leaves in the results: nothing for an empty keyword. */
  function SearchResults(lib: seq<TrackInfo>, keyword: string,
                         containsIgnoreCase: (string, string) -> bool): seq<TrackInfo>
  {
    if keyword == "" then [] else Matching(lib, keyword, containsIgnoreCase)
  }

  /** The results keep library order: they are a subsequence of the library. */
  lemma {:induction false} MatchingIsSubsequence(lib: seq<TrackInfo>, keyword: string,
                                                 containsIgnoreCase: (string, string) -> bool)
    ensures IsSubsequence(Matching(lib, keyword, containsIgnoreCase), lib)
    decreases |lib|
  {
    if lib != [] {
      MatchingIsSubsequence(lib[1..], keyword, containsIgnoreCase);
      var rest := Matching(lib[1..], keyword, containsIgnoreCase);
      assert [lib[0]] + lib[1..] == lib;
      if containsIgnoreCase(lib[0].trackTitle, keyword) {
        SubsequenceCons(lib[0], rest, lib[1..]);
      } else {
        SubsequenceSkip(lib[0], rest, lib[1..]);
      }
    }
  }

  /** search(k): empty results for an empty k; otherwise exactly the entries
      whose title contains k, in library order. */
  lemma SearchResultsSpec(lib: seq<TrackInfo>, keyword: string,
                          containsIgnoreCase: (string, string) -> bool)
    ensures keyword == "" ==> SearchResults(lib, keyword, containsIgnoreCase) == []
    ensures keyword != "" ==>
              forall t :: t in SearchResults(lib, keyword, containsIgnoreCase) <==>
                            t in lib && containsIgnoreCase(t.trackTitle, keyword)
    ensures IsSubsequence(SearchResults(lib, keyword, containsIgnoreCase), lib)
  {
    if keyword == "" {
      SubsequenceRefl<TrackInfo>([]);
      assert IsSubsequence<TrackInfo>([], lib);
    } else {
      MatchingIsSubsequence(lib, keyword, containsIgnoreCase);
    }
  }

  // ---------------------------------------------------------------------
  // Removing all tracks while a search is shown

  function CountTitle(s: seq<TrackInfo>, title: string): nat
    decreases |s|
  {
    if s == [] then 0
    else (if s[0].trackTitle == title then 1 else 0) + CountTitle(s[1..], title)
  }

  /** One pass of the inner loop of removeAllTracks for one result title:
      after erasing the entry at index i the loop still increments i, so the
      entry that moved into index i is never examined. */
  function EraseSkipping(s: seq<TrackInfo>, title: string): seq<TrackInfo>
    decreases |s|
  {
    if s == [] then []
    else if s[0].trackTitle == title then
      (if |s| == 1 then [] else [s[1]] + EraseSkipping(s[2..], title))
    else [s[0]] + EraseSkipping(s[1..], title)
  }

  /** The outer loop: one pass per search result, in result order. */
  function ErasePasses(s: seq<TrackInfo>, results: seq<TrackInfo>): seq<TrackInfo>
    decreases |results|
  {
    if results == [] then s else ErasePasses(EraseSkipping(s, results[0].trackTitle), results[1..])
  }

  /** The state of the inner loop as a whole pass: the entries before index
      i are settled, the pass still runs over the rest; past the end, the
      loop is done. */
  function PassFrom(lib: seq<TrackInfo>, i: nat, title: string): seq<TrackInfo> {
    if i <= |lib| then lib[..i] + EraseSkipping(lib[i..], title) else lib
  }

  /** Erasing at i and stepping past i is one step of the pass. */
  lemma EraseStep(lib: seq<TrackInfo>, i: nat, title: string)
    requires i < |lib| && lib[i].trackTitle == title
    ensures PassFrom(RemoveAt(lib, i), i + 1, title) == PassFrom(lib, i, title)
  {
    var next := RemoveAt(lib, i);
    assert lib[i..][1..] == lib[i + 1..];
    if i + 1 < |lib| {
      assert lib[i + 1..][1..] == lib[i + 2..];
      assert next[..i + 1] == lib[..i] + [lib[i + 1]];
      assert next[i + 1..] == lib[i + 2..];
    } else {
      assert next == lib[..i];
    }
  }

  /** Keeping the entry at i and stepping past it is one step of the pass. */
  lemma KeepStep(lib: seq<TrackInfo>, i: nat, title: string)
    requires i < |lib| && lib[i].trackTitle != title
    ensures PassFrom(lib, i + 1, title) == PassFrom(lib, i, title)
  {
    assert lib[i..][1..] == lib[i + 1..];
    assert lib[..i + 1] == lib[..i] + [lib[i]];
  }

  /** The inner loop of removeAllTracks for one result's title: erase at
      index i and then step i on, which passes over the entry that moved
      into index i. */
  method EraseTitle(lib0: seq<TrackInfo>, title: string) returns (lib: seq<TrackInfo>)
    ensures lib == EraseSkipping(lib0, title)
  {
    lib := lib0;
    var i := 0;
    assert lib[..0] + lib[0..] == lib;
    while i < |lib|
      invariant 0 <= i <= |lib| + 1
      invariant PassFrom(lib, i, title) == EraseSkipping(lib0, title)
      decreases |lib| + 1 - i
    {
      if title == lib[i].trackTitle {
        EraseStep(lib, i, title);
        lib := RemoveAt(lib, i);
      } else {
        KeepStep(lib, i, title);
      }
      i := i + 1;
    }
    if i == |lib| {
      assert lib[..i] == lib && lib[i..] == [];
    }
  }

  /** A pass only deletes: what is left is a subsequence of the library. */
  lemma {:induction false} EraseSkippingIsSubsequence(s: seq<TrackInfo>, title: string)
    ensures IsSubsequence(EraseSkipping(s, title), s)
    decreases |s|
  {
    if s == [] {
    } else if s[0].trackTitle == title {
      if |s| == 1 {
        assert IsSubsequence<TrackInfo>([], s);
      } else {
        EraseSkippingIsSubsequence(s[2..], title);
        SubsequenceCons(s[1], EraseSkipping(s[2..], title), s[2..]);
        assert [s[1]] + s[2..] == s[1..];
        SubsequenceSkip(s[0], [s[1]] + EraseSkipping(s[2..], title), s[1..]);
        assert [s[0]] + s[1..] == s;
      }
    } else {
      EraseSkippingIsSubsequence(s[1..], title);
      SubsequenceCons(s[0], EraseSkipping(s[1..], title), s[1..]);
      assert [s[0]] + s[1..] == s;
    }
  }

  /** A pass for one title leaves the entries of every other title alone, and
      removes at least the first entry with its own title. */
  lemma {:induction false} EraseSkippingCounts(s: seq<TrackInfo>, title: string, other: string)
    ensures other != title ==> CountTitle(EraseSkipping(s, title), other) == CountTitle(s, other)
    ensures CountTitle(EraseSkipping(s, title), title) <= CountTitle(s, title)
    ensures CountTitle(s, title) > 0 ==> CountTitle(EraseSkipping(s, title), title) < CountTitle(s, title)
    decreases |s|
  {
    if s == [] {
    } else if s[0].trackTitle == title {
      if |s| > 1 {
        EraseSkippingCounts(s[2..], title, other);
        assert s[1..][1..] == s[2..];
        assert ([s[1]] + EraseSkipping(s[2..], title))[1..] == EraseSkipping(s[2..], title);
      }
    } else {
      EraseSkippingCounts(s[1..], title, other);
      assert ([s[0]] + EraseSkipping(s[1..], title))[1..] == EraseSkipping(s[1..], title);
    }
  }

  function Max0(x: int): nat {
    if x < 0 then 0 else x
  }

  /** Each result with title t removes at least one remaining entry titled t. */
  lemma {:induction false} ErasePassesCount(s: seq<TrackInfo>, results: seq<TrackInfo>, title: string)
    ensures CountTitle(ErasePasses(s, results), title) <= Max0(CountTitle(s, title) - CountTitle(results, title))
    decreases |results|
  {
    if results != [] {
      var next := EraseSkipping(s, results[0].trackTitle);
      EraseSkippingCounts(s, results[0].trackTitle, title);
      ErasePassesCount(next, results[1..], title);
    }
  }

  /** A pass for a title containing the keyword leaves the non-matching
      entries exactly as they were. */
  lemma {:induction false} EraseSkippingKeepsUnmatching(s: seq<TrackInfo>, title: string, keyword: string,
                                                        containsIgnoreCase: (string, string) -> bool)
    requires containsIgnoreCase(title, keyword)
    ensures Unmatching(EraseSkipping(s, title), keyword, containsIgnoreCase) == Unmatching(s, keyword, containsIgnoreCase)
    decreases |s|
  {
    if s == [] {
    } else if s[0].trackTitle == title {
      if |s| > 1 {
        EraseSkippingKeepsUnmatching(s[2..], title, keyword, containsIgnoreCase);
        assert s[1..][1..] == s[2..];
        assert ([s[1]] + EraseSkipping(s[2..], title))[1..] == EraseSkipping(s[2..], title);
      }
    } else {
      EraseSkippingKeepsUnmatching(s[1..], title, keyword, containsIgnoreCase);
      assert ([s[0]] + EraseSkipping(s[1..], title))[1..] == EraseSkipping(s[1..], title);
    }
  }

  lemma {:induction false} ErasePassesKeepsUnmatching(s: seq<TrackInfo>, results: seq<TrackInfo>, keyword: string,
                                                      containsIgnoreCase: (string, string) -> bool)
    requires forall r :: r in results ==> containsIgnoreCase(r.trackTitle, keyword)
    ensures Unmatching(ErasePasses(s, results), keyword, containsIgnoreCase) == Unmatching(s, keyword, containsIgnoreCase)
    decreases |results|
  {
    if results != [] {
      EraseSkippingKeepsUnmatching(s, results[0].trackTitle, keyword, containsIgnoreCase);
      ErasePassesKeepsUnmatching(EraseSkipping(s, results[0].trackTitle), results[1..], keyword, containsIgnoreCase);
    }
  }

  /** The results of a search hold every library entry of a matching title. */
  lemma {:induction false} MatchingCount(lib: seq<TrackInfo>, keyword: string,
                                         containsIgnoreCase: (string, string) -> bool, title: string)
    requires containsIgnoreCase(title, keyword)
    ensures CountTitle(Matching(lib, keyword, containsIgnoreCase), title) == CountTitle(lib, title)
    decreases |lib|
  {
    if lib != [] {
      MatchingCount(lib[1..], keyword, containsIgnoreCase, title);
      if containsIgnoreCase(lib[0].trackTitle, keyword) {
        assert ([lib[0]] + Matching(lib[1..], keyword, containsIgnoreCase))[1..]
            == Matching(lib[1..], keyword, containsIgnoreCase);
      }
    }
  }

  /** A sequence with no entry of a matching title is its own non-matching part. */
  lemma {:induction false} UnmatchingOfUnmatched(s: seq<TrackInfo>, keyword: string,
                                                 containsIgnoreCase: (string, string) -> bool)
    requires forall t :: t in s ==> !containsIgnoreCase(t.trackTitle, keyword)
    ensures Unmatching(s, keyword, containsIgnoreCase) == s
    decreases |s|
  {
    if s != [] {
      UnmatchingOfUnmatched(s[1..], keyword, containsIgnoreCase);
      assert [s[0]] + s[1..] == s;
    }
  }

  lemma {:induction false} CountTitleMember(s: seq<TrackInfo>, t: TrackInfo)
    requires t in s
    ensures CountTitle(s, t.trackTitle) > 0
    decreases |s|
  {
    if s[0] != t {
      CountTitleMember(s[1..], t);
    }
  }

  /** Right after a search, removeAllTracks leaves exactly the entries whose
      title does not contain the keyword, in library order: each title among
      the results has as many results as entries, so the repeated passes make
      up for the entries a single pass skips. */
  lemma RemoveAllAfterFreshSearch(lib: seq<TrackInfo>, keyword: string,
                                  containsIgnoreCase: (string, string) -> bool)
    ensures ErasePasses(lib, Matching(lib, keyword, containsIgnoreCase)) == Unmatching(lib, keyword, containsIgnoreCase)
  {
    var results := Matching(lib, keyword, containsIgnoreCase);
    var final := ErasePasses(lib, results);
    ErasePassesKeepsUnmatching(lib, results, keyword, containsIgnoreCase);
    forall t | t in final
      ensures !containsIgnoreCase(t.trackTitle, keyword)
    {
      NoMatchLeft(lib, keyword, containsIgnoreCase, t);
    }
    UnmatchingOfUnmatched(final, keyword, containsIgnoreCase);
  }

  /** No entry of a matching title survives the passes over a fresh search. */
  lemma NoMatchLeft(lib: seq<TrackInfo>, keyword: string,
                    containsIgnoreCase: (string, string) -> bool, t: TrackInfo)
    requires t in ErasePasses(lib, Matching(lib, keyword, containsIgnoreCase))
    ensures !containsIgnoreCase(t.trackTitle, keyword)
  {
    var results := Matching(lib, keyword, containsIgnoreCase);
    if containsIgnoreCase(t.trackTitle, keyword) {
      MatchingCount(lib, keyword, containsIgnoreCase, t.trackTitle);
      ErasePassesCount(lib, results, t.trackTitle);
      CountTitleMember(ErasePasses(lib, results), t);
      assert false;
    }
  }

  /** removeAllTracks as its comment describes it: erase from the library
      every entry whose title equals the title of some result. */
  predicate TitleAmong(title: string, results: seq<TrackInfo>) {
    exists r :: r in results && r.trackTitle == title
  }

  function EraseResultTitles(lib: seq<TrackInfo>, results: seq<TrackInfo>): (r: seq<TrackInfo>)
    ensures forall t :: t in r <==> t in lib && !TitleAmong(t.trackTitle, results)
    ensures IsSubsequence(r, lib)
    decreases |lib|
  {
    if lib == [] then []
    else if TitleAmong(lib[0].trackTitle, results) then
      var rest := EraseResultTitles(lib[1..], results);
      SubsequenceSkip(lib[0], rest, lib[1..]);
      assert [lib[0]] + lib[1..] == lib;
      rest
    else
      var rest := EraseResultTitles(lib[1..], results);
      SubsequenceCons(lib[0], rest, lib[1..]);
      assert [lib[0]] + lib[1..] == lib;
      [lib[0]] + rest
  }

  /** On fresh results the loop as written and the intended erase agree. */
  lemma EraseResultTitlesAfterFreshSearch(lib: seq<TrackInfo>, keyword: string,
                                          containsIgnoreCase: (string, string) -> bool)
    ensures EraseResultTitles(lib, Matching(lib, keyword, containsIgnoreCase))
         == ErasePasses(lib, Matching(lib, keyword, containsIgnoreCase))
  {
    var results := Matching(lib, keyword, containsIgnoreCase);
    RemoveAllAfterFreshSearch(lib, keyword, containsIgnoreCase);
    EraseResultTitlesIsUnmatching(lib, lib, keyword, containsIgnoreCase);
  }

  lemma {:induction false} EraseResultTitlesIsUnmatching(s: seq<TrackInfo>, lib: seq<TrackInfo>, keyword: string,
                                                         containsIgnoreCase: (string, string) -> bool)
    requires forall t :: t in s ==> t in lib
    ensures EraseResultTitles(s, Matching(lib, keyword, containsIgnoreCase)) == Unmatching(s, keyword, containsIgnoreCase)
    decreases |s|
  {
    var results := Matching(lib, keyword, containsIgnoreCase);
    if s != [] {
      EraseResultTitlesIsUnmatching(s[1..], lib, keyword, containsIgnoreCase);
      if containsIgnoreCase(s[0].trackTitle, keyword) {
        assert s[0] in results;
        assert TitleAmong(s[0].trackTitle, results);
      } else {
        assert !TitleAmong(s[0].trackTitle, results);
      }
    }
  }

  /** With results that went stale -- two more files of the same title were
      added after the search -- the loop as written erases a, skips b, which
      moved into a's index, and then erases c. What is left, [b], is neither
      the library without the result entries, [b, c], nor the library without
      the results' title, [], which the title comparison aims at. */
  lemma StaleResultsLeaveTrack()
    ensures var a := TrackInfo("/music/a/song.mp3", "song", "");
            var b := TrackInfo("/music/b/song.mp3", "song", "");
            var c := TrackInfo("/music/c/song.mp3", "song", "");
            && ErasePasses([a, b, c], [a]) == [b]
            && ErasePasses([a, b, c], [a]) != [b, c]
            && EraseResultTitles([a, b, c], [a]) == []
  {
    var a := TrackInfo("/music/a/song.mp3", "song", "");
    var b := TrackInfo("/music/b/song.mp3", "song", "");
    var c := TrackInfo("/music/c/song.mp3", "song", "");
    assert [a, b, c][2..] == [c];
    assert [c][1..] == [];
    assert EraseSkipping([c], "song") == [];
    assert EraseSkipping([a, b, c], "song") == [b];
    assert [a][1..] == [];
    assert TitleAmong(a.trackTitle, [a]) && TitleAmong(b.trackTitle, [a]) && TitleAmong(c.trackTitle, [a]);
    assert [a, b, c][1..] == [b, c];
    assert [b, c][1..] == [c];
    assert EraseResultTitles([c], [a]) == [];
    assert EraseResultTitles([b, c], [a]) == [];
  }

  // ---------------------------------------------------------------------
  // Which track a row stands for

  /** The track a row of the table shows: a library entry while the search
      box is empty, a search result otherwise. */
  function ShownTrack(lib: seq<TrackInfo>, results: seq<TrackInfo>, searchText: string, row: nat): (t: TrackInfo)
    requires row < if searchText == "" then |lib| else |results|
    ensures searchText == "" ==> t == lib[row]
    ensures searchText != "" ==> t == results[row]
  {
    if searchText == "" then lib[row] else results[row]
  }

  /** After a search, every row shows a library track that matches the
      keyword, so queueing the shown row queues a matching library track. */
  lemma ShownTrackMatches(lib: seq<TrackInfo>, keyword: string,
                          containsIgnoreCase: (string, string) -> bool, row: nat)
    requires keyword != "" && row < |Matching(lib, keyword, containsIgnoreCase)|
    ensures var t := ShownTrack(lib, Matching(lib, keyword, containsIgnoreCase), keyword, row);
            t in lib && containsIgnoreCase(t.trackTitle, keyword)
  {
    var results := Matching(lib, keyword, containsIgnoreCase);
    assert results[row] in results;
  }

  /** Add-to-queue indexes the library with the selected row even while the
      results are shown: with library [x, y] and the results [y] of a search
      for "y", selecting row 0 queues x, which the table does not show and
      which does not match. */
  lemma AddToQueueTakesHiddenTrack()
    ensures var x := TrackInfo("/music/x.mp3", "x", "");
            var y := TrackInfo("/music/y.mp3", "y", "");
            var equalTitle := (title: string, keyword: string) => title == keyword;
            && Matching([x, y], "y", equalTitle) == [y]
            && [x, y][0] == x
            && ShownTrack([x, y], [y], "y", 0) == y
            && !equalTitle(x.trackTitle, "y")
  {
    var x := TrackInfo("/music/x.mp3", "x", "");
    var y := TrackInfo("/music/y.mp3", "y", "");
    var equalTitle := (title: string, keyword: string) => title == keyword;
    assert [x, y][1..] == [y];
    assert [y][1..] == [];
  }

  // ---------------------------------------------------------------------
  // The saved library: one path per line

  function Files(lib: seq<TrackInfo>): (paths: seq<Path>)
    ensures |paths| == |lib|
    ensures forall i :: 0 <= i < |lib| ==> paths[i] == lib[i].file
  {
    seq(|lib|, i requires 0 <= i < |lib| => lib[i].file)
  }

  /** What saveLibrary writes: each path followed by '\n'. */
  function Serialize(paths: seq<Path>): string
    decreases |paths|
  {
    if paths == [] then "" else paths[0] + "\n" + Serialize(paths[1..])
  }

  /** What the getline loop of addSavedLibrary reads: the text up to each
      '\n', and a last line without '\n' if one is left. */
  function SplitLines(text: string): seq<string>
    decreases |text|
  {
    if text == [] then []
    else
      var i := IndexOf(text, '\n');
      if i == |text| then [text] else [text[..i]] + SplitLines(text[i + 1..])
  }

  /** The records the loaded lines become, one per line, without de-duplication. */
  function TracksOf(lines: seq<Path>, fs: FileSystem): (ts: seq<TrackInfo>)
    ensures Files(ts) == lines
    decreases |lines|
  {
    if lines == [] then [] else [TrackInfoOf(lines[0], fs)] + TracksOf(lines[1..], fs)
  }

  predicate NoNewlines(paths: seq<Path>) {
    forall i :: 0 <= i < |paths| ==> '\n' !in paths[i]
  }

  /** Reading the saved text back yields the saved paths, as long as no path
      holds a '\n'. */
  lemma {:induction false} SplitSerialize(paths: seq<Path>)
    requires NoNewlines(paths)
    ensures SplitLines(Serialize(paths)) == paths
    decreases |paths|
  {
    if paths != [] {
      var p := paths[0];
      var text := Serialize(paths);
      var rest := Serialize(paths[1..]);
      assert text == p + "\n" + rest;
      assert text[|p|] == '\n';
      assert forall j :: 0 <= j < |p| ==> text[j] == p[j];
      assert IndexOf(text, '\n') == |p|;
      assert text[..|p|] == p;
      assert text[|p| + 1..] == rest;
      SplitSerialize(paths[1..]);
    }
  }

  /** Saving a library and loading the text into an empty library gives back
      the same paths in the same order. */
  lemma SaveLoadRoundTrip(lib: seq<TrackInfo>, fs: FileSystem)
    requires NoNewlines(Files(lib))
    ensures Files(TracksOf(SplitLines(Serialize(Files(lib))), fs)) == Files(lib)
  {
    SplitSerialize(Files(lib));
  }

  /** One getline call: the records of the text are the record of its first
      line followed by the records of what follows the '\n'. */
  lemma ReadLine(text: string, i: nat, fs: FileSystem)
    requires text != [] && i == IndexOf(text, '\n')
    ensures TracksOf(SplitLines(text), fs)
         == [TrackInfoOf(text[..i], fs)] + TracksOf(SplitLines(if i < |text| then text[i + 1..] else []), fs)
  {
    var lines := SplitLines(text);
    if i == |text| {
      assert text[..i] == text;
      assert lines == [text];
      assert lines[1..] == [];
    } else {
      var rest := SplitLines(text[i + 1..]);
      assert lines == [text[..i]] + rest;
      assert lines[0] == text[..i] && lines[1..] == rest;
    }
  }

  /** Every entry is the record the TrackInfo constructor builds from its file. */
  ghost predicate BuiltFrom(lib: seq<TrackInfo>, fs: FileSystem) {
    forall t :: t in lib ==> t == TrackInfoOf(t.file, fs)
  }

  /** The passes only delete: every entry left was in the library. */
  lemma {:induction false} ErasePassesMembers(s: seq<TrackInfo>, results: seq<TrackInfo>)
    ensures forall t :: t in ErasePasses(s, results) ==> t in s
    decreases |results|
  {
    if results != [] {
      var next := EraseSkipping(s, results[0].trackTitle);
      EraseSkippingIsSubsequence(s, results[0].trackTitle);
      ErasePassesMembers(next, results[1..]);
      forall t | t in next
        ensures t in s
      {
        SubsequenceMembers(next, s, t);
      }
    }
  }

  // ---------------------------------------------------------------------
  // The component

  class PlaylistComponent {
    const queue: QueueComponent
    // the files, readers and names the component sees
    const fs: FileSystem
    var trackInfo: seq<TrackInfo>
    var searchResult: seq<TrackInfo>
    var searchText: string

    /** Every library entry is the record the TrackInfo constructor builds
        from its file. */
    ghost predicate Valid()
      reads this
    {
      BuiltFrom(trackInfo, fs)
    }

    constructor (queue: QueueComponent, fs: FileSystem)
      ensures Valid()
      ensures this.queue == queue && this.fs == fs
      ensures trackInfo == [] && searchResult == [] && searchText == ""
    {
      this.queue := queue;
      this.fs := fs;
      trackInfo, searchResult, searchText := [], [], "";
    }

    /** The library's size while the search box is empty, else the result count. */
    function NumRows(): (n: int)
      reads this
      ensures searchText == "" ==> n == |trackInfo|
      ensures searchText != "" ==> n == |searchResult|
    {
      if searchText == "" then |trackInfo| else |searchResult|
    }

    /** One file of a chooser selection or of a drop: appended unless an entry
        already has that file. */
    method AddFile(file: Path)
      requires Valid()
      modifies this
      ensures Valid()
      ensures trackInfo == AddIfAbsent(old(trackInfo), file, fs)
      ensures searchResult == old(searchResult) && searchText == old(searchText)
    {
      var found := false;
      if trackInfo != [] {
        var i := 0;
        while i < |trackInfo|
          invariant 0 <= i <= |trackInfo|
          invariant found <==> exists j :: 0 <= j < i && trackInfo[j].file == file
        {
          if trackInfo[i].file == file {
            found := true;
          }
          i := i + 1;
        }
      }
      if !found {
        trackInfo := trackInfo + [TrackInfoOf(file, fs)];
      }
    }

    method AddFiles(files: seq<Path>)
      requires Valid()
      modifies this
      ensures Valid()
      ensures trackInfo == AddAll(old(trackInfo), files, fs)
      ensures searchResult == old(searchResult) && searchText == old(searchText)
    {
      var k := 0;
      while k < |files|
        invariant 0 <= k <= |files| && Valid()
        invariant AddAll(old(trackInfo), files, fs) == AddAll(trackInfo, files[k..], fs)
        invariant searchResult == old(searchResult) && searchText == old(searchText)
      {
        assert files[k..][1..] == files[k + 1..];
        AddFile(files[k]);
        k := k + 1;
      }
    }

    /** The add button: chosen is None when the chooser is cancelled. */
    method AddToLibrary(chosen: Option<seq<Path>>)
      requires Valid()
      modifies this
      ensures Valid()
      ensures trackInfo == (if chosen.Some? then AddAll(old(trackInfo), chosen.value, fs) else old(trackInfo))
      ensures searchResult == old(searchResult) && searchText == old(searchText)
    {
      if chosen.Some? {
        AddFiles(chosen.value);
      }
    }

    method FilesDropped(files: seq<Path>)
      requires Valid()
      modifies this
      ensures Valid()
      ensures trackInfo == AddAll(old(trackInfo), files, fs)
      ensures searchResult == old(searchResult) && searchText == old(searchText)
    {
      AddFiles(files);
    }

    /** Removing row id while the search box is empty: index |trackInfo| pops
        the last entry, any other index erases exactly that entry. */
    method RemoveTrack(id: nat)
      requires Valid()
      requires searchText == "" && trackInfo != [] && id <= |trackInfo|
      modifies this
      ensures Valid()
      ensures trackInfo == (if id == |old(trackInfo)| then old(trackInfo)[..|old(trackInfo)| - 1]
                            else RemoveAt(old(trackInfo), id))
      ensures searchResult == old(searchResult) && searchText == old(searchText)
    {
      if id == |trackInfo| {
        trackInfo := trackInfo[..|trackInfo| - 1];
      } else {
        trackInfo := RemoveAt(trackInfo, id);
      }
    }

    /** The "X" button of row id: nothing happens in an empty library. */
    method ClickRemoveRow(id: nat)
      requires Valid()
      requires searchText == "" && (trackInfo != [] ==> id <= |trackInfo|)
      modifies this
      ensures Valid()
      ensures old(trackInfo) == [] ==> trackInfo == []
      ensures old(trackInfo) != [] && id < |old(trackInfo)| ==> trackInfo == RemoveAt(old(trackInfo), id)
      ensures old(trackInfo) != [] && id == |old(trackInfo)| ==> trackInfo == old(trackInfo)[..|old(trackInfo)| - 1]
      ensures searchResult == old(searchResult) && searchText == old(searchText)
    {
      if trackInfo != [] {
        RemoveTrack(id);
      }
    }

    /** "Remove All": with an empty search box the library is cleared; with a
        search shown, each result's title is erased by one skipping pass, then
        the results are cleared. */
    method RemoveAllTracks()
      requires Valid()
      modifies this
      ensures Valid()
      ensures searchText == "" ==> trackInfo == [] && searchResult == old(searchResult)
      ensures searchText != "" ==> trackInfo == ErasePasses(old(trackInfo), old(searchResult)) && searchResult == []
      ensures searchText == old(searchText)
    {
      if searchText == "" {
        if trackInfo != [] {
          trackInfo := [];
        }
      } else {
        if searchResult != [] {
          var lib0, results := trackInfo, searchResult;
          var lib := lib0;
          var k := 0;
          while k < |results|
            invariant 0 <= k <= |results|
            invariant ErasePasses(lib0, results) == ErasePasses(lib, results[k..])
            invariant unchanged(this)
          {
            assert results[k..][1..] == results[k + 1..];
            lib := EraseTitle(lib, results[k].trackTitle);
            k := k + 1;
          }
          ErasePassesMembers(lib0, results);
          trackInfo := lib;
          searchResult := [];
        }
      }
    }

    /** search(keyword): the results become the entries whose title contains
        the keyword, in library order, or nothing for an empty keyword. */
    method Search(keyword: string, containsIgnoreCase: (string, string) -> bool)
      requires Valid()
      modifies this
      ensures Valid()
      ensures searchResult == SearchResults(trackInfo, keyword, containsIgnoreCase)
      ensures trackInfo == old(trackInfo) && searchText == old(searchText)
    {
      var found: seq<TrackInfo> := [];
      if keyword != "" {
        var i := 0;
        while i < |trackInfo|
          invariant 0 <= i <= |trackInfo|
          invariant Matching(trackInfo, keyword, containsIgnoreCase)
                 == found + Matching(trackInfo[i..], keyword, containsIgnoreCase)
        {
          assert trackInfo[i..][1..] == trackInfo[i + 1..];
          assert trackInfo[i] in trackInfo;
          if containsIgnoreCase(trackInfo[i].trackTitle, keyword) {
            found := found + [TrackInfoOf(trackInfo[i].file, fs)];
          }
          i := i + 1;
        }
      }
      searchResult := found;
    }

    /** The search box's text-change callback runs search on the new text. */
    method TypeInSearchBox(text: string, containsIgnoreCase: (string, string) -> bool)
      requires Valid()
      modifies this
      ensures Valid()
      ensures searchText == text
      ensures searchResult == SearchResults(trackInfo, text, containsIgnoreCase)
      ensures trackInfo == old(trackInfo)
    {
      searchText := text;
      Search(text, containsIgnoreCase);
    }

    /** "Add to queue": the record of the selected row of the LIBRARY -- even
        while search results are shown -- goes to the end of the queue. */
    method ClickAddToQueue(selectedRow: Option<nat>)
      requires Valid()
      requires selectedRow.Some? ==> selectedRow.value < |trackInfo|
      modifies queue
      ensures selectedRow.None? ==> queue.queuedTracks == old(queue.queuedTracks)
      ensures selectedRow.Some? ==> queue.queuedTracks == old(queue.queuedTracks) + [trackInfo[selectedRow.value]]
      ensures queue.playQueueOn == old(queue.playQueueOn) && queue.playQueueText == old(queue.playQueueText)
    {
      if selectedRow.Some? {
        var row := selectedRow.value;
        queue.queuedTracks := queue.queuedTracks + [TrackInfoOf(trackInfo[row].file, fs)];
      }
    }

    /** The text saveLibrary writes to library.txt. */
    method SaveLibrary() returns (text: string)
      ensures text == Serialize(Files(trackInfo))
    {
      text := "";
      var paths := Files(trackInfo);
      var i := 0;
      while i < |trackInfo|
        invariant 0 <= i <= |trackInfo|
        invariant text + Serialize(paths[i..]) == Serialize(paths)
      {
        assert paths[i..][1..] == paths[i + 1..];
        text := text + trackInfo[i].file + "\n";
        i := i + 1;
      }
    }

    /** addSavedLibrary: saved is None when library.txt cannot be opened;
        otherwise each line read becomes one more entry, duplicates included. */
    method AddSavedLibrary(saved: Option<string>)
      requires Valid()
      modifies this
      ensures Valid()
      ensures trackInfo == (if saved.Some? then old(trackInfo) + TracksOf(SplitLines(saved.value), fs)
                            else old(trackInfo))
      ensures searchResult == old(searchResult) && searchText == old(searchText)
    {
      if saved.Some? {
        var lib0 := trackInfo;
        var lib := lib0;
        var rest := saved.value;
        while rest != []
          invariant BuiltFrom(lib, fs)
          invariant lib0 + TracksOf(SplitLines(saved.value), fs) == lib + TracksOf(SplitLines(rest), fs)
          invariant unchanged(this)
          decreases |rest|
        {
          var i := IndexOf(rest, '\n');
          var line := rest[..i];
          var next := if i < |rest| then rest[i + 1..] else [];
          ReadLine(rest, i, fs);
          var track := TrackInfoOf(line, fs);
          assert lib + TracksOf(SplitLines(rest), fs) == (lib + [track]) + TracksOf(SplitLines(next), fs);
          assert forall t :: t in lib + [track] ==> t in lib || t == track;
          lib := lib + [track];
          rest := next;
        }
        assert lib + TracksOf(SplitLines(rest), fs) == lib;
        trackInfo := lib;
      }
    }

  }
}
