/** The library's record of one track: its file, its title and its length
    as "mm:ss" text, all fixed when the record is built. */
module Tracks {
  import opened Text
  import opened Media

  datatype TrackInfo = TrackInfo(file: Path, trackTitle: string, trackLength: string)

  /** lengthInSamples / sampleRate, truncated to whole seconds by the int cast. */
  function WholeSeconds(r: Reader): (s: nat)
    ensures s as real <= LengthInSeconds(r) < s as real + 1.0
  {
    Truncate(LengthInSeconds(r))
  }

  /** Minutes and seconds of s, each padded to at least two digits, joined by
      ':'. The seconds field is exactly two digits. */
  function FormatMinSec(s: nat): (r: string)
    ensures |r| >= 5 && r[|r| - 3] == ':'
  {
    var secs := PadTwo(NatToString(s % 60));
    var mins := PadTwo(NatToString(s / 60));
    assert |secs| == 2 by {
      if s % 60 >= 10 {
        assert NatToString(s % 60) == NatToString(s % 60 / 10) + [DigitChar(s % 60 % 10)];
      }
    }
    PaddedParse(s % 60);
    PaddedParse(s / 60);
    mins + ":" + secs
  }

  /** Both fields of the formatted length are all digits, and they read back
      as the whole minutes, s / 60, and the seconds left over, s % 60, which
      lie in 0 to 59. */
  lemma {:induction false} FormatMinSecFields(s: nat)
    ensures var r := FormatMinSec(s);
            && AllDigits(r[..|r| - 3]) && AllDigits(r[|r| - 2..])
            && ParseNat(r[|r| - 2..]) == s % 60 < 60
            && ParseNat(r[..|r| - 3]) == s / 60
  {
    var secs := PadTwo(NatToString(s % 60));
    var mins := PadTwo(NatToString(s / 60));
    var r := FormatMinSec(s);
    assert r == mins + ":" + secs;
    PaddedParse(s % 60);
    PaddedParse(s / 60);
    assert r[|r| - 2..] == secs;
    assert r[..|r| - 3] == mins;
  }

  /** The length text of a track: "" when no reader can be created. */
  function TrackLength(reader: Option<Reader>): (text: string)
    ensures reader.None? ==> text == ""
    ensures reader.Some? ==> text == FormatMinSec(WholeSeconds(reader.value))
    ensures reader.Some? ==> ParseMinSec(text) == Some(WholeSeconds(reader.value))
  {
    match reader
    case None => ""
    case Some(r) =>
      TrackLengthRoundTrip(WholeSeconds(r));
      FormatMinSec(WholeSeconds(r))
  }

  /** Reads "mm:ss" text back as whole seconds: the digits before the first
      ':' are minutes, and exactly two digits after it, below 60, seconds. */
  function ParseMinSec(text: string): Option<nat>
  {
    var i := IndexOf(text, ':');
    if 0 < i && i + 3 == |text| && AllDigits(text[..i]) && AllDigits(text[i + 1..])
       && ParseNat(text[i + 1..]) < 60
    then Some(60 * ParseNat(text[..i]) + ParseNat(text[i + 1..]))
    else None
  }

  lemma {:induction false} PaddedParse(n: nat)
    ensures AllDigits(PadTwo(NatToString(n)))
    ensures ParseNat(PadTwo(NatToString(n))) == n
  {
    ParseNatToString(n);
    if |NatToString(n)| == 1 {
      ParseNatLeadingZero(NatToString(n));
    }
  }

  /** Reading the formatted length back gives 60 * minutes + seconds = s. */
  lemma {:induction false} TrackLengthRoundTrip(s: nat)
    ensures ParseMinSec(FormatMinSec(s)) == Some(s)
  {
    var secs := PadTwo(NatToString(s % 60));
    var mins := PadTwo(NatToString(s / 60));
    var text := FormatMinSec(s);
    assert text == mins + ":" + secs;
    PaddedParse(s % 60);
    PaddedParse(s / 60);
    assert text[..|mins|] == mins;
    assert text[|mins| + 1..] == secs;
    assert IndexOf(text, ':') == |mins|;
  }

  /** The TrackInfo constructor: title from the file name, length from a
      temporary reader. */
  function TrackInfoOf(file: Path, fs: FileSystem): (t: TrackInfo)
    ensures t.file == file && t.trackTitle == fs.stem(file)
    ensures fs.open(file).None? ==> t.trackLength == ""
    ensures fs.open(file).Some? ==> t.trackLength == FormatMinSec(WholeSeconds(fs.open(file).value))
  {
    TrackInfo(file, fs.stem(file), TrackLength(fs.open(file)))
  }
}
