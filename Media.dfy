/** The framework collaborators the core calls but whose code is not part of
    this model: opening a file for decoding, building a waveform thumbnail,
    and taking a file's name without its extension. */
module Media {

  datatype Option<+T> = None | Some(value: T)

  /** A file is identified by its full path name. Paths are compared as
      strings, case included, as juce::File does on case-sensitive file
      systems. */
  type Path = string

  type PositiveReal = r: real | r > 0.0 witness 1.0

  /** What an AudioFormatReader reports about a decodable file. */
  datatype Reader = Reader(lengthInSamples: nat, sampleRate: PositiveReal)

  /** The length the transport reports for a reader, in seconds. */
  function LengthInSeconds(r: Reader): (secs: real)
    ensures secs >= 0.0
    ensures secs * r.sampleRate == r.lengthInSamples as real
  {
    r.lengthInSamples as real / r.sampleRate
  }

  /** The outside world as seen from the core: createReaderFor (None when no
      reader can be created), AudioThumbnail::setSource, and
      File::getFileNameWithoutExtension. */
  datatype FileSystem = FileSystem(
    open: Path -> Option<Reader>,
    thumbnail: Path -> bool,
    stem: Path -> string)
}
