/**
 * The encoder invocation (main.py:51-74): one process that decodes the input
 * once, splits it three ways, scales each copy and writes three HLS renditions,
 * with the audio mapping spliced into every leg when the input has audio.
 *
 * `Command` is the argument vector as written. `Plan` builds the same vector
 * from the table of renditions, and the lemmas below state the shape of the
 * command through it.
 */
module EncodePlan {
  import opened Text
  import opened Paths

  /**
   * One target rendition: the stem of its playlist and segment names, its
   * frame size, its video bitrate in kbit/s (`-b:v`) and the BANDWIDTH the
   * master playlist announces for it, in bit/s.
   */
  datatype Rendition = Rendition(name: string, width: nat, height: nat, bitrateK: nat, bandwidth: nat)

  const R480: Rendition := Rendition("480p", 854, 480, 1400, 1400000)
  const R360: Rendition := Rendition("360p", 640, 360, 800, 800000)
  const R240: Rendition := Rendition("240p", 426, 240, 400, 400000)

  /** The renditions in the order of the command's output legs; leg k reads `[v<k+1>out]`. */
  const LegOrder: seq<Rendition> := [R480, R360, R240]

  /** The five arguments before the first output leg. */
  const HeaderSize: nat := 5

  function PlaylistName(r: Rendition): string {
    r.name + ".m3u8"
  }

  function SegmentName(r: Rendition): string {
    r.name + "_%03d.ts"
  }

  function PlaylistPath(outputDir: string, r: Rendition): string {
    Join(outputDir, PlaylistName(r))
  }

  function SegmentPattern(outputDir: string, r: Rendition): string {
    Join(outputDir, SegmentName(r))
  }

  /** `audio_map_args()` (main.py:51-52): map the input's audio and encode it as AAC, or nothing. */
  function AudioMapArgs(hasAudio: bool): (args: seq<string>)
    ensures hasAudio ==> args == ["-map", "a", "-c:a", "aac"]
    ensures !hasAudio ==> args == []
  {
    if hasAudio then ["-map", "a", "-c:a", "aac"] else []
  }

  /** The command list exactly as written at main.py:54-74, with `ffmpeg_path` from main.py:17. */
  function Command(inputPath: string, outputDir: string, hasAudio: bool): (cmd: seq<string>)
    ensures |cmd| == 50 + 3 * |AudioMapArgs(hasAudio)|
    ensures cmd[0] == FfmpegPath && cmd[1] == "-i" && cmd[2] == inputPath && cmd[3] == "-filter_complex"
  {
    var p240 := Join(outputDir, "240p.m3u8");
    var p360 := Join(outputDir, "360p.m3u8");
    var p480 := Join(outputDir, "480p.m3u8");
    [FfmpegPath,
     "-i", inputPath,
     "-filter_complex",
     "[0:v]split=3[v1][v2][v3];"
     + "[v1]scale=w=854:h=480[v1out];"
     + "[v2]scale=w=640:h=360[v2out];"
     + "[v3]scale=w=426:h=240[v3out]"]
    + ["-map", "[v1out]"] + AudioMapArgs(hasAudio) + ["-c:v", "h264", "-b:v", "1400k", "-f", "hls",
       "-hls_time", "5", "-hls_playlist_type", "vod",
       "-hls_segment_filename", Join(outputDir, "480p_%03d.ts"), p480]
    + ["-map", "[v2out]"] + AudioMapArgs(hasAudio) + ["-c:v", "h264", "-b:v", "800k", "-f", "hls",
       "-hls_time", "5", "-hls_playlist_type", "vod",
       "-hls_segment_filename", Join(outputDir, "360p_%03d.ts"), p360]
    + ["-map", "[v3out]"] + AudioMapArgs(hasAudio) + ["-c:v", "h264", "-b:v", "400k", "-f", "hls",
       "-hls_time", "5", "-hls_playlist_type", "vod",
       "-hls_segment_filename", Join(outputDir, "240p_%03d.ts"), p240]
  }

  // ---------------------------------------------------------------------------
  // The same command, built from the rendition table

  /** The filter-graph name of the k-th split output (0-based k). */
  function StreamLabel(k: nat): string {
    "v" + Decimal(k + 1)
  }

  function OutLabel(k: nat): string {
    "[" + StreamLabel(k) + "out]"
  }

  function SplitLabels(from: nat, n: nat): string
    decreases n
  {
    if n == 0 then "" else "[" + StreamLabel(from) + "]" + SplitLabels(from + 1, n - 1)
  }

  /** Scales split output k to the rendition's frame size. */
  function ScaleClause(k: nat, r: Rendition): string {
    "[" + StreamLabel(k) + "]scale=w=" + Decimal(r.width) + ":h=" + Decimal(r.height) + OutLabel(k)
  }

  function ScaleClauses(rs: seq<Rendition>, from: nat): string
    decreases |rs|
  {
    if rs == [] then "" else ";" + ScaleClause(from, rs[0]) + ScaleClauses(rs[1..], from + 1)
  }

  /** One decode split into |rs| copies, copy k scaled to rs[k]. */
  function FilterGraph(rs: seq<Rendition>): string {
    "[0:v]split=" + Decimal(|rs|) + SplitLabels(0, |rs|) + ScaleClauses(rs, 0)
  }

  function LegSize(hasAudio: bool): nat {
    15 + |AudioMapArgs(hasAudio)|
  }

  /** Output leg k: map scaled copy k (and the audio), encode, and package as an HLS playlist. */
  function Leg(k: nat, r: Rendition, outputDir: string, hasAudio: bool): (leg: seq<string>)
    ensures |leg| == LegSize(hasAudio)
  {
    ["-map", OutLabel(k)] + AudioMapArgs(hasAudio)
    + ["-c:v", "h264", "-b:v", Decimal(r.bitrateK) + "k", "-f", "hls",
       "-hls_time", "5", "-hls_playlist_type", "vod",
       "-hls_segment_filename", SegmentPattern(outputDir, r), PlaylistPath(outputDir, r)]
  }

  /** The legs for rs, numbered from `from`. */
  function LegList(rs: seq<Rendition>, from: nat, outputDir: string, hasAudio: bool): (legs: seq<seq<string>>)
    ensures |legs| == |rs|
    ensures forall i :: 0 <= i < |rs| ==> legs[i] == Leg(from + i, rs[i], outputDir, hasAudio)
  {
    seq(|rs|, i requires 0 <= i < |rs| => Leg(from + i, rs[i], outputDir, hasAudio))
  }

  /** The legs for rs, one after the other. */
  function Legs(rs: seq<Rendition>, from: nat, outputDir: string, hasAudio: bool): seq<string> {
    Flatten(LegList(rs, from, outputDir, hasAudio))
  }

  function Header(inputPath: string, graph: string): (h: seq<string>)
    ensures |h| == HeaderSize
  {
    [FfmpegPath, "-i", inputPath, "-filter_complex", graph]
  }

  /** The encoder command for an arbitrary table of renditions. */
  function Plan(rs: seq<Rendition>, inputPath: string, outputDir: string, hasAudio: bool): seq<string> {
    Header(inputPath, FilterGraph(rs)) + Legs(rs, 0, outputDir, hasAudio)
  }

  // ---------------------------------------------------------------------------
  // Lemmas

  /** The decimal texts of the fixed table, one number at a time. */
  lemma Digits854() ensures Decimal(854) == "854" {
    assert Decimal(8) == "8" && Decimal(85) == "85";
  }

  lemma Digits480() ensures Decimal(480) == "480" {
    assert Decimal(4) == "4" && Decimal(48) == "48";
  }

  lemma Digits640() ensures Decimal(640) == "640" {
    assert Decimal(6) == "6" && Decimal(64) == "64";
  }

  lemma Digits360() ensures Decimal(360) == "360" {
    assert Decimal(3) == "3" && Decimal(36) == "36";
  }

  lemma Digits426() ensures Decimal(426) == "426" {
    assert Decimal(4) == "4" && Decimal(42) == "42";
  }

  lemma Digits240() ensures Decimal(240) == "240" {
    assert Decimal(2) == "2" && Decimal(24) == "24";
  }

  lemma Digits1400() ensures Decimal(1400) == "1400" {
    assert Decimal(1) == "1" && Decimal(14) == "14" && Decimal(140) == "140";
  }

  lemma Digits800() ensures Decimal(800) == "800" {
    assert Decimal(8) == "8" && Decimal(80) == "80";
  }

  lemma Digits400() ensures Decimal(400) == "400" {
    assert Decimal(4) == "4" && Decimal(40) == "40";
  }

  lemma LabelAsWritten(k: nat, n: string)
    requires Decimal(k + 1) == n
    ensures StreamLabel(k) == "v" + n && OutLabel(k) == "[v" + n + "out]"
  {
  }

  lemma SplitLabelsAsWritten()
    ensures SplitLabels(0, 3) == "[v1][v2][v3]"
  {
    assert Decimal(3) == "3";
    LabelAsWritten(2, "3");
    assert SplitLabels(2, 1) == "[v3]";
    assert Decimal(2) == "2";
    LabelAsWritten(1, "2");
    assert SplitLabels(1, 2) == "[v2][v3]";
    assert Decimal(1) == "1";
    LabelAsWritten(0, "1");
  }

  lemma SplitAsWritten()
    ensures "[0:v]split=" + Decimal(|LegOrder|) + SplitLabels(0, |LegOrder|) == "[0:v]split=3[v1][v2][v3]"
  {
    assert Decimal(3) == "3";
    SplitLabelsAsWritten();
  }

  lemma ScaleAsWritten(k: nat, r: Rendition, n: string, w: string, h: string)
    requires Decimal(k + 1) == n && Decimal(r.width) == w && Decimal(r.height) == h
    ensures ScaleClause(k, r) == "[v" + n + "]scale=w=" + w + ":h=" + h + "[v" + n + "out]"
  {
    LabelAsWritten(k, n);
  }

  // The literal clauses are reached a few pieces at a time, which keeps the
  // character-by-character comparisons small.

  lemma Scale480() ensures ScaleClause(0, R480) == "[v1]scale=w=854:h=480[v1out]" {
    assert Decimal(1) == "1";
    Digits854();
    Digits480();
    ScaleAsWritten(0, R480, "1", "854", "480");
    assert "[v" + "1" + "]scale=w=" == "[v1]scale=w=";
    assert "[v1]scale=w=" + "854" + ":h=" == "[v1]scale=w=854:h=";
    assert "[v1]scale=w=854:h=" + "480" + "[v" == "[v1]scale=w=854:h=480[v";
  }

  lemma Scale360() ensures ScaleClause(1, R360) == "[v2]scale=w=640:h=360[v2out]" {
    assert Decimal(2) == "2";
    Digits640();
    Digits360();
    ScaleAsWritten(1, R360, "2", "640", "360");
    assert "[v" + "2" + "]scale=w=" == "[v2]scale=w=";
    assert "[v2]scale=w=" + "640" + ":h=" == "[v2]scale=w=640:h=";
    assert "[v2]scale=w=640:h=" + "360" + "[v" == "[v2]scale=w=640:h=360[v";
  }

  lemma Scale240() ensures ScaleClause(2, R240) == "[v3]scale=w=426:h=240[v3out]" {
    assert Decimal(3) == "3";
    Digits426();
    Digits240();
    ScaleAsWritten(2, R240, "3", "426", "240");
    assert "[v" + "3" + "]scale=w=" == "[v3]scale=w=";
    assert "[v3]scale=w=" + "426" + ":h=" == "[v3]scale=w=426:h=";
    assert "[v3]scale=w=426:h=" + "240" + "[v" == "[v3]scale=w=426:h=240[v";
  }

  lemma ScaleClausesOfThree(a: Rendition, b: Rendition, c: Rendition)
    ensures ScaleClauses([a, b, c], 0) == ";" + ScaleClause(0, a) + ";" + ScaleClause(1, b) + ";" + ScaleClause(2, c)
  {
    assert [a, b, c][1..] == [b, c] && [b, c][1..] == [c];
    assert ScaleClauses([c], 2) == ";" + ScaleClause(2, c);
  }

  /** The graph built from the table is the literal of main.py:58-61. */
  lemma FilterGraphAsWritten()
    ensures FilterGraph(LegOrder) ==
      "[0:v]split=3[v1][v2][v3];"
      + "[v1]scale=w=854:h=480[v1out];"
      + "[v2]scale=w=640:h=360[v2out];"
      + "[v3]scale=w=426:h=240[v3out]"
  {
    SplitAsWritten();
    ScaleClausesOfThree(R480, R360, R240);
    Scale480();
    Scale360();
    Scale240();
  }

  lemma LegAsWritten(k: nat, r: Rendition, outputDir: string, hasAudio: bool, n: string, bits: string)
    requires Decimal(k + 1) == n && Decimal(r.bitrateK) == bits
    ensures Leg(k, r, outputDir, hasAudio)
         == ["-map", "[v" + n + "out]"] + AudioMapArgs(hasAudio)
            + ["-c:v", "h264", "-b:v", bits + "k", "-f", "hls",
               "-hls_time", "5", "-hls_playlist_type", "vod",
               "-hls_segment_filename", Join(outputDir, r.name + "_%03d.ts"), Join(outputDir, r.name + ".m3u8")]
  {
    LabelAsWritten(k, n);
  }

  /** The legs of the table, spelled as at main.py:63-73. */
  lemma Leg480(outputDir: string, hasAudio: bool)
    ensures Leg(0, R480, outputDir, hasAudio)
         == ["-map", "[v1out]"] + AudioMapArgs(hasAudio)
            + ["-c:v", "h264", "-b:v", "1400k", "-f", "hls", "-hls_time", "5", "-hls_playlist_type", "vod",
               "-hls_segment_filename", Join(outputDir, "480p_%03d.ts"), Join(outputDir, "480p.m3u8")]
  {
    assert Decimal(1) == "1";
    Digits1400();
    LegAsWritten(0, R480, outputDir, hasAudio, "1", "1400");
    assert "[v" + "1" + "out]" == "[v1out]" && "1400" + "k" == "1400k";
    assert R480.name + "_%03d.ts" == "480p_%03d.ts" && R480.name + ".m3u8" == "480p.m3u8";
  }

  lemma Leg360(outputDir: string, hasAudio: bool)
    ensures Leg(1, R360, outputDir, hasAudio)
         == ["-map", "[v2out]"] + AudioMapArgs(hasAudio)
            + ["-c:v", "h264", "-b:v", "800k", "-f", "hls", "-hls_time", "5", "-hls_playlist_type", "vod",
               "-hls_segment_filename", Join(outputDir, "360p_%03d.ts"), Join(outputDir, "360p.m3u8")]
  {
    assert Decimal(2) == "2";
    Digits800();
    LegAsWritten(1, R360, outputDir, hasAudio, "2", "800");
    assert "[v" + "2" + "out]" == "[v2out]" && "800" + "k" == "800k";
    assert R360.name + "_%03d.ts" == "360p_%03d.ts" && R360.name + ".m3u8" == "360p.m3u8";
  }

  lemma Leg240(outputDir: string, hasAudio: bool)
    ensures Leg(2, R240, outputDir, hasAudio)
         == ["-map", "[v3out]"] + AudioMapArgs(hasAudio)
            + ["-c:v", "h264", "-b:v", "400k", "-f", "hls", "-hls_time", "5", "-hls_playlist_type", "vod",
               "-hls_segment_filename", Join(outputDir, "240p_%03d.ts"), Join(outputDir, "240p.m3u8")]
  {
    assert Decimal(3) == "3";
    Digits400();
    LegAsWritten(2, R240, outputDir, hasAudio, "3", "400");
    assert "[v" + "3" + "out]" == "[v3out]" && "400" + "k" == "400k";
    assert R240.name + "_%03d.ts" == "240p_%03d.ts" && R240.name + ".m3u8" == "240p.m3u8";
  }

  lemma LegsOfTable(outputDir: string, hasAudio: bool)
    ensures Legs(LegOrder, 0, outputDir, hasAudio)
         == Leg(0, R480, outputDir, hasAudio) + Leg(1, R360, outputDir, hasAudio) + Leg(2, R240, outputDir, hasAudio)
  {
    var l0, l1, l2 := Leg(0, R480, outputDir, hasAudio), Leg(1, R360, outputDir, hasAudio), Leg(2, R240, outputDir, hasAudio);
    assert LegList(LegOrder, 0, outputDir, hasAudio) == [l0, l1, l2];
    assert [l0, l1, l2][1..] == [l1, l2] && [l1, l2][1..] == [l2];
    assert Flatten([l2]) == l2;
    assert Flatten([l1, l2]) == l1 + l2;
    assert Flatten([l0, l1, l2]) == l0 + (l1 + l2);
  }

  /** The command as written is the plan of the rendition table. */
  lemma CommandIsPlan(inputPath: string, outputDir: string, hasAudio: bool)
    ensures Command(inputPath, outputDir, hasAudio) == Plan(LegOrder, inputPath, outputDir, hasAudio)
  {
    FilterGraphAsWritten();
    Leg480(outputDir, hasAudio);
    Leg360(outputDir, hasAudio);
    Leg240(outputDir, hasAudio);
    LegsOfTable(outputDir, hasAudio);
  }

  /** Leg k of a run of legs sits at offset k times the leg size. */
  lemma LegsSlice(rs: seq<Rendition>, from: nat, outputDir: string, hasAudio: bool, k: nat)
    requires k < |rs|
    ensures |Legs(rs, from, outputDir, hasAudio)| == |rs| * LegSize(hasAudio)
    ensures (k + 1) * LegSize(hasAudio) <= |Legs(rs, from, outputDir, hasAudio)|
    ensures Legs(rs, from, outputDir, hasAudio)[k * LegSize(hasAudio)..(k + 1) * LegSize(hasAudio)]
         == Leg(from + k, rs[k], outputDir, hasAudio)
  {
    FlattenSlice(LegList(rs, from, outputDir, hasAudio), LegSize(hasAudio), k);
  }

  /** The arguments of output leg k of a command. */
  function LegAt(cmd: seq<string>, k: nat, hasAudio: bool): seq<string>
    requires HeaderSize + (k + 1) * LegSize(hasAudio) <= |cmd|
  {
    cmd[HeaderSize + k * LegSize(hasAudio)..HeaderSize + (k + 1) * LegSize(hasAudio)]
  }

  /**
   * Output leg k for rendition r: map `[v<k+1>out]`, then the audio fragment,
   * then h264 at r's bitrate as VOD HLS with 5-second segments, then the
   * segment pattern and the playlist named after r's stem under the output
   * directory.
   */
  lemma LegShape(k: nat, r: Rendition, outputDir: string, hasAudio: bool)
    ensures var leg := Leg(k, r, outputDir, hasAudio);
            var a := |AudioMapArgs(hasAudio)|;
            && leg[..2] == ["-map", "[v" + Decimal(k + 1) + "out]"]
            && leg[2..2 + a] == AudioMapArgs(hasAudio)
            && leg[2 + a..13 + a] == ["-c:v", "h264", "-b:v", Decimal(r.bitrateK) + "k", "-f", "hls",
                                      "-hls_time", "5", "-hls_playlist_type", "vod", "-hls_segment_filename"]
            && leg[13 + a] == Join(outputDir, r.name + "_%03d.ts")
            && leg[14 + a] == Join(outputDir, r.name + ".m3u8")
  {
    LabelAsWritten(k, Decimal(k + 1));
  }

  /** A plan is its header followed by one leg per rendition, leg k built from rs[k]. */
  lemma PlanLayout(rs: seq<Rendition>, inputPath: string, outputDir: string, hasAudio: bool, k: nat)
    requires k < |rs|
    ensures |Plan(rs, inputPath, outputDir, hasAudio)| == HeaderSize + |rs| * LegSize(hasAudio)
    ensures Plan(rs, inputPath, outputDir, hasAudio)[..HeaderSize]
         == [FfmpegPath, "-i", inputPath, "-filter_complex", FilterGraph(rs)]
    ensures HeaderSize + (k + 1) * LegSize(hasAudio) <= |Plan(rs, inputPath, outputDir, hasAudio)|
    ensures LegAt(Plan(rs, inputPath, outputDir, hasAudio), k, hasAudio) == Leg(k, rs[k], outputDir, hasAudio)
  {
    var hd := Header(inputPath, FilterGraph(rs));
    var legs := Legs(rs, 0, outputDir, hasAudio);
    LegsSlice(rs, 0, outputDir, hasAudio, k);
    SliceAfter(hd, legs, HeaderSize + k * LegSize(hasAudio), HeaderSize + (k + 1) * LegSize(hasAudio));
  }

  /**
   * The shipped command: the encoder, the input, the three-way split graph,
   * then exactly three output legs, leg k built from row k of the table.
   */
  lemma CommandLayout(inputPath: string, outputDir: string, hasAudio: bool, k: nat)
    requires k < 3
    ensures |Command(inputPath, outputDir, hasAudio)| == HeaderSize + 3 * LegSize(hasAudio)
    ensures Command(inputPath, outputDir, hasAudio)[..HeaderSize]
         == [FfmpegPath, "-i", inputPath, "-filter_complex", FilterGraph(LegOrder)]
    ensures LegAt(Command(inputPath, outputDir, hasAudio), k, hasAudio) == Leg(k, LegOrder[k], outputDir, hasAudio)
  {
    CommandIsPlan(inputPath, outputDir, hasAudio);
    PlanLayout(LegOrder, inputPath, outputDir, hasAudio, k);
  }

  /** With audio, every leg equals the audio-less leg with the fragment inserted after its map pair. */
  lemma AudioSplicedIntoLeg(k: nat, r: Rendition, outputDir: string)
    ensures Leg(k, r, outputDir, true)
         == Leg(k, r, outputDir, false)[..2] + ["-map", "a", "-c:a", "aac"] + Leg(k, r, outputDir, false)[2..]
  {
  }

  /** Audio adds exactly twelve arguments to the shipped command: four per leg. */
  lemma AudioAddsTwelve(inputPath: string, outputDir: string)
    ensures |Command(inputPath, outputDir, true)| == |Command(inputPath, outputDir, false)| + 12
    ensures |Command(inputPath, outputDir, false)| == 50
  {
    CommandLayout(inputPath, outputDir, true, 0);
    CommandLayout(inputPath, outputDir, false, 0);
  }

  lemma AudioArgsOccurrences(hasAudio: bool, x: string)
    requires x == "-c:a" || x == "a"
    ensures Occurrences(AudioMapArgs(hasAudio), x) == if hasAudio then 1 else 0
  {
    if hasAudio {
      var args := AudioMapArgs(true);
      assert args == ["-map", "a"] + ["-c:a", "aac"];
      OccurrencesAppend(["-map", "a"], ["-c:a", "aac"], x);
      assert ["-map", "a"][1..] == ["a"] && ["a"][1..] == [];
      assert ["-c:a", "aac"][1..] == ["aac"] && ["aac"][1..] == [];
    }
  }

  /** A leg names `-c:a` once with audio and never without, likewise the audio map target `a`. */
  lemma LegAudioOccurrences(k: nat, r: Rendition, outputDir: string, hasAudio: bool, x: string)
    requires x == "-c:a" || x == "a"
    ensures Occurrences(Leg(k, r, outputDir, hasAudio), x) == if hasAudio then 1 else 0
  {
    var front := ["-map", OutLabel(k)];
    var audio := AudioMapArgs(hasAudio);
    var bits := Decimal(r.bitrateK) + "k";
    var seg := SegmentPattern(outputDir, r);
    var pl := PlaylistPath(outputDir, r);
    var back := ["-c:v", "h264", "-b:v", bits, "-f", "hls",
                 "-hls_time", "5", "-hls_playlist_type", "vod",
                 "-hls_segment_filename", seg, pl];
    assert Leg(k, r, outputDir, hasAudio) == front + audio + back;
    assert bits[|bits| - 1] == 'k';
    assert seg[|seg| - 1] == 's';
    assert pl[|pl| - 1] == '8';
    assert x !in front;
    assert x !in back;
    OccurrencesAbsent(front, x);
    OccurrencesAbsent(back, x);
    AudioArgsOccurrences(hasAudio, x);
    OccurrencesAppend(front, audio, x);
    OccurrencesAppend(front + audio, back, x);
  }

  lemma LegsAudioOccurrences(rs: seq<Rendition>, from: nat, outputDir: string, hasAudio: bool, x: string)
    requires x == "-c:a" || x == "a"
    ensures Occurrences(Legs(rs, from, outputDir, hasAudio), x) == if hasAudio then |rs| else 0
  {
    var legs := LegList(rs, from, outputDir, hasAudio);
    forall i | 0 <= i < |legs|
      ensures Occurrences(legs[i], x) == if hasAudio then 1 else 0
    {
      LegAudioOccurrences(from + i, rs[i], outputDir, hasAudio, x);
    }
    OccurrencesFlatten(legs, x, if hasAudio then 1 else 0);
  }

  /**
   * Apart from the caller's input path, the shipped command contains `-c:a`
   * and the audio map target `a` three times each with audio and never
   * without.
   */
  lemma CommandAudioOccurrences(inputPath: string, outputDir: string, hasAudio: bool, x: string)
    requires x == "-c:a" || x == "a"
    ensures Occurrences(Command(inputPath, outputDir, hasAudio), x)
         == (if inputPath == x then 1 else 0) + (if hasAudio then 3 else 0)
  {
    CommandIsPlan(inputPath, outputDir, hasAudio);
    FilterGraphAsWritten();
    var hd := Header(inputPath, FilterGraph(LegOrder));
    LegsAudioOccurrences(LegOrder, 0, outputDir, hasAudio, x);
    OccurrencesAppend(hd, Legs(LegOrder, 0, outputDir, hasAudio), x);
    var before, after := [FfmpegPath, "-i"], ["-filter_complex", FilterGraph(LegOrder)];
    assert hd == before + [inputPath] + after;
    OccurrencesAppend(before, [inputPath], x);
    OccurrencesAppend(before + [inputPath], after, x);
    OccurrencesAbsent(before, x);
    OccurrencesAbsent(after, x);
    assert [inputPath][1..] == [];
  }

  /** The table: bandwidth falls strictly along the legs and is the video bitrate in bit/s. */
  lemma LegOrderTable()
    ensures |LegOrder| == 3
    ensures forall i, j :: 0 <= i < j < |LegOrder| ==> LegOrder[i].bandwidth > LegOrder[j].bandwidth
    ensures forall i :: 0 <= i < |LegOrder| ==> LegOrder[i].bandwidth == LegOrder[i].bitrateK * 1000
    ensures forall i, j :: 0 <= i < j < |LegOrder| ==> LegOrder[i].name != LegOrder[j].name
  {
  }
}
