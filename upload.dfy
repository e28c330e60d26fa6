/**
 * The upload job (main.py:20-90): store the upload, make the video's
 * directory, probe for audio, run the encoder, and on success write the
 * master playlist and answer with the video's id and playlist URL. A failed
 * encode ends the request with a server error before the playlist is written.
 *
 * File writes and process runs are recorded as effects, in order; what the
 * probe and the encoder report comes in as parameters.
 */
module Upload {
  import opened Wrappers
  import opened Text
  import opened Paths
  import opened Probe
  import opened EncodePlan
  import opened Manifest

  /**
   * How the encoder run ended: exit status zero; non-zero with its captured
   * standard error (`CalledProcessError`); or the binary could not be started
   * at all (`FileNotFoundError` or another `OSError`), with the error's text.
   */
  datatype EncodeOutcome = Exited | Failed(stderr: string) | NotStarted(error: string)

  /** A side effect of the job, in the order the job performs it. */
  datatype Effect =
    | SaveUpload(path: string)
    | MakeDir(path: string)
    | RunProbe(argv: seq<string>)
    | RunEncoder(argv: seq<string>)
    | WriteFile(path: string, text: string)

  /**
   * The JSON answer, the HTTPException raised instead, or an exception the
   * handler does not catch and lets propagate to the framework.
   */
  datatype Response =
    | Answered(videoId: string, masterUrl: string)
    | HttpError(status: nat, detail: string)
    | Uncaught(error: string)

  /** `os.path.join(UPLOAD_DIR, f"{video_id}_{file.filename}")`. */
  function InputPath(videoId: string, filename: string): (p: string)
    ensures |p| > |UploadDir| + 1
    ensures p[..|UploadDir| + 1] == UploadDir + Sep && p[|UploadDir| + 1..] == videoId + "_" + filename
  {
    Join(UploadDir, videoId + "_" + filename)
  }

  /** The URL path under which the master playlist is served. */
  function MasterUrl(videoId: string): (u: string)
    ensures u == Sep + MasterPath(videoId)
  {
    "/hls/" + videoId + "/" + MasterName
  }

  /** The effects up to the probe, which runs only when the probe's name is bound. */
  function EffectsBeforeEncode(ffprobe: Option<string>, videoId: string, filename: string): seq<Effect> {
    [SaveUpload(InputPath(videoId, filename)), MakeDir(VideoDir(videoId))]
    + (if ffprobe.Some? then [RunProbe(ProbeCommand(ffprobe.value, InputPath(videoId, filename)))] else [])
  }

  /** What the job writes after the encoder ran: the master playlist, and only when the encoder succeeded. */
  function ManifestEffects(videoId: string, encode: EncodeOutcome): seq<Effect> {
    if encode.Exited? then [WriteFile(MasterPath(videoId), Render(MasterEntries()))] else []
  }

  /**
   * main.py:76-90 once the encoder has run: a failed encode becomes a 500
   * error carrying the encoder's standard error and nothing is written; an
   * encoder that could not be started raises past the `except`, which catches
   * only `CalledProcessError`, and nothing is written either; otherwise the
   * master playlist is written and the id and its URL returned.
   */
  method FinishJob(videoId: string, encode: EncodeOutcome) returns (written: seq<Effect>, response: Response)
    ensures written == ManifestEffects(videoId, encode)
    ensures encode.Failed? ==> written == [] && response == HttpError(500, "FFmpeg error: " + encode.stderr)
    ensures encode.NotStarted? ==> written == [] && response == Uncaught(encode.error)
    ensures encode.Exited? ==> written == [WriteFile(MasterPath(videoId), Render(MasterEntries()))]
                               && response == Answered(videoId, MasterUrl(videoId))
  {
    match encode {
      case NotStarted(error) =>
        written := [];
        response := Uncaught(error);
        return;
      case Failed(stderr) =>
        written := [];
        response := HttpError(500, "FFmpeg error: " + stderr);
        return;
      case Exited =>
    }
    var text := WriteMaster();
    written := [WriteFile(Join(VideoDir(videoId), MasterName), text)];
    response := Answered(videoId, MasterUrl(videoId));
  }

  /** `upload_video` for a fresh `videoId`, given what the probe and the encoder report. */
  method UploadVideo(ffprobe: Option<string>, videoId: string, filename: string, probe: ProbeReport, encode: EncodeOutcome)
    returns (effects: seq<Effect>, response: Response)
    ensures effects == EffectsBeforeEncode(ffprobe, videoId, filename)
                       + [RunEncoder(Command(InputPath(videoId, filename), VideoDir(videoId), HasAudio(ffprobe, probe)))]
                       + ManifestEffects(videoId, encode)
    ensures encode.Failed? ==> response == HttpError(500, "FFmpeg error: " + encode.stderr)
    ensures encode.NotStarted? ==> response == Uncaught(encode.error)
    ensures encode.Exited? ==> response == Answered(videoId, MasterUrl(videoId))
  {
    var inputPath := InputPath(videoId, filename);
    effects := [SaveUpload(inputPath)];
    var outputDir := VideoDir(videoId);
    effects := effects + [MakeDir(outputDir)];

    var hasAudio: bool;
    if ffprobe.None? {
      // reading the unbound name raises before the probe runs
      hasAudio := false;
    } else {
      effects := effects + [RunProbe(ProbeCommand(ffprobe.value, inputPath))];
      match probe {
        case Raised => hasAudio := false;
        case Parsed(streams) => hasAudio := streams.Some? && streams.value != [];
      }
    }
    assert effects == EffectsBeforeEncode(ffprobe, videoId, filename);
    assert hasAudio == HasAudio(ffprobe, probe);

    var command := Command(inputPath, outputDir, hasAudio);
    effects := effects + [RunEncoder(command)];
    var written;
    written, response := FinishJob(videoId, encode);
    effects := effects + written;
  }

  /** The master playlist is written exactly when the encoder succeeded. */
  lemma ManifestOnlyAfterSuccess(videoId: string, encode: EncodeOutcome)
    ensures (exists k :: 0 <= k < |ManifestEffects(videoId, encode)| && ManifestEffects(videoId, encode)[k].WriteFile?)
        <==> encode.Exited?
  {
    if encode.Exited? {
      assert ManifestEffects(videoId, encode)[0].WriteFile?;
    }
  }

  /**
   * As shipped the probe's name is unbound: the probe never runs, and the
   * encoder command holds neither `-c:a` nor the audio map target `a`.
   */
  lemma ShippedCommandHasNoAudio(videoId: string, filename: string, probe: ProbeReport)
    ensures EffectsBeforeEncode(FfprobePath, videoId, filename)
         == [SaveUpload(InputPath(videoId, filename)), MakeDir(VideoDir(videoId))]
    ensures var cmd := Command(InputPath(videoId, filename), VideoDir(videoId), HasAudio(FfprobePath, probe));
            "-c:a" !in cmd && "a" !in cmd
  {
    var input := InputPath(videoId, filename);
    var cmd := Command(input, VideoDir(videoId), false);
    assert |input| > 4;
    CommandAudioOccurrences(input, VideoDir(videoId), false, "-c:a");
    CommandAudioOccurrences(input, VideoDir(videoId), false, "a");
    OccurrencesAbsent(cmd, "-c:a");
    OccurrencesAbsent(cmd, "a");
  }

  /** With audio detected, the command holds the audio arguments exactly three times. */
  lemma DetectedAudioInEveryLeg(ffprobe: string, videoId: string, filename: string, indices: seq<nat>)
    requires indices != []
    ensures var cmd := Command(InputPath(videoId, filename), VideoDir(videoId), HasAudio(Some(ffprobe), Parsed(Some(indices))));
            Occurrences(cmd, "-c:a") == 3 && Occurrences(cmd, "a") == 3
  {
    var input := InputPath(videoId, filename);
    assert |input| > 4;
    CommandAudioOccurrences(input, VideoDir(videoId), true, "-c:a");
    CommandAudioOccurrences(input, VideoDir(videoId), true, "a");
  }

  /** The playlist URL names the file the job writes, and that file is where the encoder's playlists are. */
  lemma MasterUrlNamesWrittenFile(videoId: string)
    ensures MasterUrl(videoId) == "/hls/" + videoId + "/master.m3u8"
    ensures MasterPath(videoId) == Join(VideoDir(videoId), "master.m3u8")
    ensures forall j :: 0 <= j < 3 ==>
              Join(VideoDir(videoId), MasterEntries()[j].uri) == PlaylistPath(VideoDir(videoId), LegOrder[2 - j])
  {
  }
}
