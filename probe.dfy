/**
 * Audio detection before encoding (main.py:36-49): run the probe on the
 * uploaded file, restricted to audio streams, and read the `"streams"` list of
 * its JSON output. Every exception falls back to "no audio".
 */
module Probe {
  import opened Wrappers
  import Paths

  /**
   * What running the probe and `json.loads(stdout).get("streams")` produced:
   * an exception anywhere (the tool missing, output that is not a JSON object),
   * or the value under `"streams"` (None when the key is absent), as the
   * sequence of audio stream indices.
   */
  datatype ProbeReport = Raised | Parsed(streams: Option<seq<nat>>)

  /** The fallback policy written out: a detection result, or unknown. */
  datatype AudioPresence = Detected(present: bool) | Unknown

  /** The probe's argument vector (main.py:38-45). */
  function ProbeCommand(ffprobe: string, inputPath: string): (argv: seq<string>)
    ensures |argv| == 10 && argv[0] == ffprobe && argv[9] == inputPath
    ensures argv[1] == "-v" && argv[2] == "error"
    ensures argv[3] == "-select_streams" && argv[4] == "a"
    ensures argv[5] == "-show_entries" && argv[6] == "stream=index"
    ensures argv[7] == "-of" && argv[8] == "json"
  {
    [ffprobe, "-v", "error", "-select_streams", "a", "-show_entries", "stream=index", "-of", "json", inputPath]
  }

  /**
   * `has_audio` (main.py:37-49). Reading the unbound probe name raises before
   * the probe runs; that and any exception of the run or the parse give false.
   */
  function HasAudio(ffprobe: Option<string>, report: ProbeReport): (b: bool)
    ensures b <==> ffprobe.Some? && report.Parsed? && report.streams.Some? && |report.streams.value| > 0
  {
    match ffprobe
    case None => false
    case Some(_) =>
      match report
      case Raised => false
      case Parsed(None) => false
      case Parsed(Some(indices)) => indices != []
  }

  /** The outcome of detection before the fallback is applied. */
  function Classify(ffprobe: Option<string>, report: ProbeReport): (p: AudioPresence)
    ensures p.Unknown? <==> ffprobe.None? || report.Raised?
  {
    if ffprobe.None? || report.Raised? then Unknown
    else Detected(report.streams.Some? && report.streams.value != [])
  }

  /** The fallback: an unknown presence counts as no audio. */
  function Resolve(p: AudioPresence): (b: bool)
    ensures b <==> p == Detected(true)
  {
    match p
    case Detected(present) => present
    case Unknown => false
  }

  /** `has_audio` is the explicit fallback policy applied to the detection result. */
  lemma HasAudioIsFallback(ffprobe: Option<string>, report: ProbeReport)
    ensures HasAudio(ffprobe, report) == Resolve(Classify(ffprobe, report))
  {
  }

  /** A probe failure never reports audio, whatever the binary. */
  lemma RaisedMeansNoAudio(ffprobe: Option<string>)
    ensures !HasAudio(ffprobe, Raised)
  {
  }

  /** With the probe name left unbound, as shipped, no input is ever found to have audio. */
  lemma ShippedNeverDetectsAudio(report: ProbeReport)
    ensures !HasAudio(Paths.FfprobePath, report)
  {
  }
}
