# testhls: a Dafny model of the HLS transcoding server

The server is a single file, `main.py`. It accepts an uploaded video and
stores it under `uploads/`. It probes the file for an audio stream, then runs
one encoder process. That process splits the video three ways and writes
three HLS renditions (480p, 360p and 240p) under `hls/<video id>/`. When the
encode succeeds, the server writes a master playlist that points at the three
rendition playlists and answers with the playlist's URL. Two more routes exist:
one lists the videos that have a master playlist, and one serves any file of a
video with a media type chosen by its suffix.

The model has one module per concern:

- `Paths`: the fixed directory names, the encoder binary, the probe binary
  (which the shipped file leaves unbound), and path joining.
- `Text`: decimal rendering and parsing, newline-terminated records,
  suffixes, and counting occurrences.
- `Probe`: the probe's argument vector, and how `has_audio` follows from what
  the probe and the JSON parse report.
- `EncodePlan`: the encoder command, written once exactly as in the source
  (`Command`) and once built from a table of renditions (`Plan`). A lemma
  shows the two are equal, and the shape of the command is proved through the
  table form.
- `Manifest`: the master playlist. `WriteMaster` performs the four writes.
  `MasterText` is the text they produce. `Render` builds a playlist from its
  entries and `Parse` reads one back.
- `Upload`: the upload job as an ordered list of effects (file writes and
  process runs) together with the HTTP answer. What the probe and the encoder
  report comes in as parameters.
- `Serving`: `serve_hls`, over the set of paths that exist.
- `Listing`: `list_hls_videos`, a loop over the directory listing.

As shipped, audio detection never takes effect. The assignment of
`ffprobe_path` (main.py:18) is commented out, so building the probe command
raises `NameError`. The `except Exception` branch catches it, and `has_audio`
is always false, even for an input that has an audio stream. The model
follows the code: `Paths.FfprobePath` is `None`, and
`Probe.ShippedNeverDetectsAudio` and `Upload.ShippedCommandHasNoAudio` state
the consequence. `Probe.HasAudio` and `Upload.UploadVideo` take the probe
binary as a parameter, so the behaviour with a bound name is modelled too
(`Upload.DetectedAudioInEveryLeg`).

## Model

| member | source | states |
|---|---|---|
| Probe.ProbeCommand | main.py:38-45 | the probe's ten arguments: the binary first, errors only (`-v error`), audio streams only (`-select_streams a`), only their indices (`-show_entries stream=index`), JSON output, the input path last |
| Probe.HasAudio | main.py:37-49 | `has_audio` holds exactly when the probe name is bound, neither the run nor the JSON parse raised, and `"streams"` is present and non-empty |
| Probe.Classify | main.py:37-49 | detection is unknown exactly when the probe name is unbound or an exception was raised |
| Probe.Resolve | main.py:48-49 | the fallback: an unknown result counts as no audio, and a detection counts as itself |
| Probe.HasAudioIsFallback | main.py:37-49 | `has_audio` is the fallback policy applied to the detection result |
| Probe.RaisedMeansNoAudio | main.py:48-49 | a probe that raises never reports audio, whatever the binary |
| Probe.ShippedNeverDetectsAudio | main.py:37-49 | with the probe name left unbound (main.py:18), no probe report yields audio |
| EncodePlan.Command | main.py:54-74 | the encoder command has 50 arguments plus 4 per leg when there is audio; it starts with the encoder binary, `-i`, the input path and `-filter_complex` |
| EncodePlan.AudioMapArgs | main.py:51-52 | the audio fragment is `-map a -c:a aac` with audio and empty without it |
| EncodePlan.FilterGraphAsWritten | main.py:58-61 | the filter graph built from the rendition table is the graph literal: split three ways, copy k scaled to row k's frame size |
| EncodePlan.Leg480 | main.py:63-65 | the first leg built from the table is the 480p leg as written: `[v1out]`, 1400k, `480p_%03d.ts`, `480p.m3u8` |
| EncodePlan.Leg360 | main.py:67-69 | the second leg built from the table is the 360p leg as written |
| EncodePlan.Leg240 | main.py:71-73 | the third leg built from the table is the 240p leg as written |
| EncodePlan.CommandIsPlan | main.py:54-74 | the command as written equals the plan of the rendition table: header, graph, then one leg per row in table order |
| EncodePlan.PlanLayout | main.py:54-74 | a plan for any table has the five header arguments, then exactly one fixed-size leg per rendition, leg k built from row k |
| EncodePlan.CommandLayout | main.py:54-74 | the shipped command has 5 + 3 legs of arguments; its header is encoder, `-i`, input, `-filter_complex`, graph; leg k is built from row k |
| EncodePlan.LegShape | main.py:63-73 | every leg maps `[v<k+1>out]`, then the audio fragment, then h264 at the row's bitrate as VOD HLS with 5-second segments, then the segment pattern and the playlist, both named after the rendition under the output directory |
| EncodePlan.AudioSplicedIntoLeg | main.py:63-73 | a leg with audio is the leg without audio with `-map a -c:a aac` inserted right after its video map |
| EncodePlan.AudioAddsTwelve | main.py:54-74 | the command has 50 arguments without audio and 62 with it: four more per leg |
| EncodePlan.CommandAudioOccurrences | main.py:54-74 | apart from an input path that happens to be spelled the same, `-c:a` and the map target `a` each occur three times with audio and never without |
| EncodePlan.LegOrderTable | main.py:63-85 | the legs run 480p, 360p, 240p with strictly falling, distinct bandwidths, each bandwidth being the leg's video bitrate in bit/s |
| Manifest.WriteMaster | main.py:81-85 | the four writes to the emptied file leave the rendering of the three entries (240p, 360p, 480p) |
| Manifest.MasterAsWritten | main.py:82-85 | rendering the three entries gives exactly the text written: the header, then per entry a stream-info line and a URI line, each ending in a newline |
| Manifest.Record240 | main.py:83 | the 240p entry renders as the second write: its stream-info line (BANDWIDTH 400000, 426x240) and `240p.m3u8` |
| Manifest.Record360 | main.py:84 | the 360p entry renders as the third write: BANDWIDTH 800000, 640x360, `360p.m3u8` |
| Manifest.Record480 | main.py:85 | the 480p entry renders as the fourth write: BANDWIDTH 1400000, 854x480, `480p.m3u8` |
| Manifest.ParseInfoLine | main.py:83-85 | a stream-info line reads back as its BANDWIDTH, width and height |
| Manifest.RenderThenParse | main.py:81-85 | round trip: any list of entries whose URIs hold no newline renders to a playlist that parses back to the same entries, in order |
| Manifest.MasterRoundTrip | main.py:81-85 | the text as written parses back to the three entries |
| Manifest.MasterEntriesMatchLegs | main.py:58-85 | three entries in strictly ascending BANDWIDTH (400000, 800000, 1400000 for RFC 8216's `#EXT-X-STREAM-INF`); entry j has the bandwidth and frame size of encoder leg 2 - j, and its URI is the bare file name of that leg's playlist in the same directory |
| Upload.InputPath | main.py:23 | the upload is saved under `uploads/` as `<id>_<filename>` |
| Upload.MasterUrl | main.py:89 | the answered URL path is `/` followed by the path of the master playlist the job writes; this match relies on the separator being `/` |
| Upload.FinishJob | main.py:76-90 | a failed encode answers 500 with `FFmpeg error: ` followed by the captured stderr and writes nothing; an encoder that cannot be started writes nothing and its exception propagates uncaught; a successful one writes the master playlist at `hls/<id>/master.m3u8` and answers with the id and `/hls/<id>/master.m3u8` |
| Upload.UploadVideo | main.py:20-90 | the job saves the upload, creates the video directory, runs the probe only when its name is bound, runs the encoder with the command for the derived `has_audio`, then writes the master playlist only on success; the answer is as in `FinishJob`, including an uncaught exception when the encoder cannot be started |
| Upload.ManifestOnlyAfterSuccess | main.py:76-85 | the master playlist is written exactly when the encoder succeeded |
| Upload.ShippedCommandHasNoAudio | main.py:37-74 | as shipped, the probe never runs and the encoder command holds neither `-c:a` nor the map target `a`, for any file name and probe report |
| Upload.DetectedAudioInEveryLeg | main.py:51-74 | with a bound probe that reports audio streams, the command holds `-c:a` and the map target `a` exactly three times each |
| Upload.MasterUrlNamesWrittenFile | main.py:31-89 | the answered URL ends in the file name the job writes; every URI of the master playlist, joined to the video directory, is the playlist path the encoder was given |
| Serving.ServePath | main.py:114 | the served path is the video's directory, a separator and the requested name (a name such as `..` leaves the directory); the master playlist's name gives the master playlist's path |
| Serving.ServeHls | main.py:112-123 | 404 `File not found` exactly when the joined path is missing; otherwise the file at that path, as `application/vnd.apple.mpegurl` exactly for `.m3u8` names, as `video/MP2T` exactly for `.ts` names, and as a plain file response for any other name |
| Serving.MasterServedAsHls | main.py:112-119 | a written master playlist is served as HLS under its URL's file name |
| Serving.ManifestUrisServedAsHls | main.py:112-119 | every URI in the master playlist, once the encoder wrote it, is served as HLS from that rendition's playlist path |
| Serving.SegmentsServedAsTs | main.py:120-121 | every existing segment of a rendition, whatever its number, is served as MPEG-TS |
| Listing.Subdirectories | main.py:97 | `video_ids` holds exactly the listed names that are directories under `hls/`, in listing order |
| Listing.EntryOf | main.py:104-107 | a listed video carries its id and the base URL followed by the URL the upload answered with |
| Listing.Listed | main.py:101-107 | no more entries than ids; every entry has an existing master playlist and carries the URL of `EntryOf` |
| Listing.ListHlsVideos | main.py:94-110 | a failed listing answers 500 with the exception's text; otherwise the loop collects the videos of the subdirectories whose master playlist exists |
| Listing.ListedExactly | main.py:101-107 | an id is listed exactly when it is among the ids and its master playlist exists, and its URL is the base URL plus `/hls/<id>/master.m3u8` |
| Listing.ListedInOrder | main.py:101-107 | the listed ids keep the order of `video_ids` |
| Listing.ListingOfDirectory | main.py:97-107 | over the directory listing itself: the listed ids keep the listing's order, and a video is listed exactly when its name was listed, it is a directory under `hls/` and its master playlist exists |
| Listing.FailedUploadNotListed | main.py:101-107 | a video without a master playlist, such as one whose encode failed, is never listed |
| Listing.ListedVideosServable | main.py:101-119 | each listed URL is the base URL followed by the URL the upload answered with, and the playlist behind it is served as HLS |
| Text.ParseDecimalOfDecimal | main.py:83-85 | decimal rendering of a natural number parses back to the same number |
| Paths.BaseNameOfJoin | main.py:31-34 | the file name after the last separator of `join(dir, name)` is `name`, for a name without a separator |

## Left out

- HTTP machinery: FastAPI routing, request parsing and JSON serialisation are not modelled. Answers are datatypes holding the status and detail, or the path and media type.
- File contents: the upload copy (main.py:25-26), file reads in `serve_hls` and the encoder's output files are recorded as effects or paths only. The file system is a set of existing paths plus a set of directories.
- The directory creation at import time (main.py:14-15) is not modelled.
- Processes: the probe and the encoder are recorded as argument vectors. Their results are parameters: a `ProbeReport`, and an `EncodeOutcome` that is a clean exit, a non-zero exit with its stderr, or a launch failure.
- Upload.UploadVideo: an uncaught exception (`Uncaught`, such as the encoder binary not being found) is where the model stops. FastAPI's turning it into a generic 500 answer is not modelled.
- Identifiers: `uuid.uuid4()` is not modelled. The video id is a parameter and is assumed fresh.
- `os.path.join` always uses `/`. The encoder path points at a Windows install, where the separator would be `\`, but a separator is one constant here. Absolute second arguments, which make `join` discard the first part, are not modelled.
- `json.loads(...).get("streams")` is modelled as absent, a list of stream indices, or an exception. Other JSON values under `"streams"` (a non-empty object or string, say, which `bool` also treats as true) are not modelled.
- The base URL (main.py:99) is a parameter. Its derivation from the request URL by string replacement is not modelled.
- Listing.ListHlsVideos: only a failing directory listing is modelled as the exception path. Exceptions raised later in the `try` block (by `isdir` or `exists`) are not.
- Upload.UploadVideo: failures other than the encoder's exit or launch are not modelled. This covers failures saving the upload, creating the directory or writing the master playlist, which would surface as server errors.
- Serving.ServeHls: path traversal is not excluded. A requested name such as `..`, or on Windows `..\..\main.py`, makes the joined path leave the video's directory, and the model, like the code, serves whatever exists there.
- Upload.MasterUrl: the URL always uses `/`, while the written path uses the platform separator. The two agree only because the model fixes the separator to `/`. On the Windows install the encoder path points at, the file is `hls\<id>\master.m3u8`.
- Encoder semantics: the model states what arguments the encoder receives. What ffmpeg makes of them (segment lengths, codec behaviour) is out of scope.
- Concurrency: `upload_video` is `async` but never awaits. Within one process an upload, encode included, therefore runs to completion before another request is dispatched, and jobs interleave only across worker processes. Every job is modelled in isolation.
