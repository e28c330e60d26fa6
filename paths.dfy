/**
 * The fixed names of the server: the upload and HLS directories (main.py:11-12),
 * the encoder binary (main.py:17), the probe binary, which the shipped file leaves
 * commented out (main.py:18), and path joining.
 */
module Paths {
  import opened Wrappers

  const UploadDir: string := "uploads"
  const HlsDir: string := "hls"

  /** The encoder binary named at main.py:17. */
  const FfmpegPath: string := "C:\\Program Files\\ffmpeg\\bin\\ffmpeg.exe"

  /** The probe binary. Its assignment is commented out, so the name is unbound. */
  const FfprobePath: Option<string> := None

  /** The one path separator of the model. */
  const Sep: string := "/"

  /** `os.path.join(a, b)` for a relative `b`, with a fixed separator. */
  function Join(a: string, b: string): string {
    a + Sep + b
  }

  /** The master playlist's file name inside a video's directory. */
  const MasterName: string := "master.m3u8"

  /** `os.path.join(HLS_DIR, video_id)`: where one video's renditions live. */
  function VideoDir(videoId: string): string {
    Join(HlsDir, videoId)
  }

  /** `os.path.join(HLS_DIR, video_id, "master.m3u8")`. */
  function MasterPath(videoId: string): string {
    Join(VideoDir(videoId), MasterName)
  }

  /** The name that follows the last separator of a path. */
  function BaseName(p: string): (b: string)
    ensures Sep[0] !in b
    ensures |b| <= |p| && b == p[|p| - |b|..]
    decreases |p|
  {
    if p == [] then []
    else if p[|p| - 1] == Sep[0] then []
    else BaseName(p[..|p| - 1]) + [p[|p| - 1]]
  }

  lemma {:induction false} BaseNameOfJoin(a: string, b: string)
    requires Sep[0] !in b
    ensures BaseName(Join(a, b)) == b
  {
    BaseNameSuffix(a + Sep, b);
  }

  lemma {:induction false} BaseNameSuffix(a: string, b: string)
    requires |a| > 0 && a[|a| - 1] == Sep[0]
    requires Sep[0] !in b
    ensures BaseName(a + b) == b
    decreases |b|
  {
    if b == [] {
      assert a + b == a;
    } else {
      var c := b[..|b| - 1];
      assert (a + b)[..|a + b| - 1] == a + c;
      BaseNameSuffix(a, c);
      assert c + [b[|b| - 1]] == b;
    }
  }
}
