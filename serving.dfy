/**
 * Serving a video's files (main.py:112-123): a missing file is a 404; a
 * playlist is sent as HLS, a segment as MPEG-TS, anything else as a plain file
 * response. The set of paths that exist stands for the file system.
 */
module Serving {
  import opened Text
  import opened Paths
  import opened EncodePlan
  import opened Manifest

  const HlsMime: string := "application/vnd.apple.mpegurl"
  const TsMime: string := "video/MP2T"

  /** The answer: the 404 HTTPException, the file's bytes with a media type, or a FileResponse. */
  datatype ServeResponse =
    | NotFound(status: nat, detail: string)
    | Bytes(path: string, mediaType: string)
    | PlainFile(path: string)

  /** `os.path.join(HLS_DIR, video_id, filename)`; nothing keeps the result inside the video's directory. */
  function ServePath(videoId: string, filename: string): (p: string)
    ensures |p| >= |VideoDir(videoId)| + 1
    ensures p[..|VideoDir(videoId)| + 1] == VideoDir(videoId) + Sep && p[|VideoDir(videoId)| + 1..] == filename
    ensures filename == MasterName ==> p == MasterPath(videoId)
  {
    Join(VideoDir(videoId), filename)
  }

  /** `serve_hls`: existence first, then the suffix decides the media type. */
  function ServeHls(existing: set<string>, videoId: string, filename: string): (r: ServeResponse)
    ensures r.NotFound? <==> ServePath(videoId, filename) !in existing
    ensures r.NotFound? ==> r == NotFound(404, "File not found")
    ensures !r.NotFound? ==> (r.Bytes? || r.PlainFile?) && r.path == ServePath(videoId, filename)
    ensures r.Bytes? && r.mediaType == HlsMime <==> !r.NotFound? && EndsWith(filename, ".m3u8")
    ensures r.Bytes? && r.mediaType == TsMime <==> !r.NotFound? && EndsWith(filename, ".ts")
    ensures r.PlainFile? <==> !r.NotFound? && !EndsWith(filename, ".m3u8") && !EndsWith(filename, ".ts")
  {
    var path := ServePath(videoId, filename);
    if path !in existing then NotFound(404, "File not found")
    else if EndsWith(filename, ".m3u8") then
      EndsWithExclusive(filename, ".m3u8", ".ts");
      Bytes(path, HlsMime)
    else if EndsWith(filename, ".ts") then
      EndsWithExclusive(filename, ".ts", ".m3u8");
      Bytes(path, TsMime)
    else PlainFile(path)
  }

  /** The master playlist a successful upload writes is served as HLS under its URL's file name. */
  lemma MasterServedAsHls(existing: set<string>, videoId: string)
    requires MasterPath(videoId) in existing
    ensures ServeHls(existing, videoId, MasterName) == Bytes(MasterPath(videoId), HlsMime)
  {
    EndsWithAppend("master", ".m3u8");
    assert "master" + ".m3u8" == MasterName;
  }

  /**
   * Every URI of the master playlist resolves to the playlist the encoder wrote
   * for that rendition, and once that file exists it is served as HLS.
   */
  lemma ManifestUrisServedAsHls(existing: set<string>, videoId: string, j: nat)
    requires j < |MasterEntries()|
    requires PlaylistPath(VideoDir(videoId), LegOrder[2 - j]) in existing
    ensures ServeHls(existing, videoId, MasterEntries()[j].uri)
         == Bytes(PlaylistPath(VideoDir(videoId), LegOrder[2 - j]), HlsMime)
  {
    var r := LegOrder[2 - j];
    assert MasterEntries()[j].uri == PlaylistName(r);
    EndsWithAppend(r.name, ".m3u8");
  }

  /** A segment of any rendition, numbered by any digits, is served as MPEG-TS once it exists. */
  lemma SegmentsServedAsTs(existing: set<string>, videoId: string, r: Rendition, number: string)
    requires ServePath(videoId, r.name + "_" + number + ".ts") in existing
    ensures ServeHls(existing, videoId, r.name + "_" + number + ".ts")
         == Bytes(ServePath(videoId, r.name + "_" + number + ".ts"), TsMime)
  {
    var f := r.name + "_" + number + ".ts";
    EndsWithAppend(r.name + "_" + number, ".ts");
    EndsWithExclusive(f, ".ts", ".m3u8");
  }
}
