/**
 * The video list (main.py:94-110): the entries of the HLS directory that are
 * directories, in listing order, keeping those whose master playlist exists,
 * each with the playlist's absolute URL. A failure to list the directory is a
 * server error carrying the exception's text.
 *
 * The directory listing, the set of directories and the set of existing paths
 * stand for the file system; the base URL is given.
 */
module Listing {
  import opened Wrappers
  import opened Paths
  import Upload
  import Serving

  datatype VideoEntry = VideoEntry(videoId: string, masterUrl: string)

  /** The JSON list, or the HTTPException raised instead. */
  datatype ListResponse = Videos(videos: seq<VideoEntry>) | ListError(status: nat, detail: string)

  /** The entry reported for a video with a master playlist. */
  function EntryOf(baseUrl: string, videoId: string): (v: VideoEntry)
    ensures v.videoId == videoId && v.masterUrl == baseUrl + Upload.MasterUrl(videoId)
  {
    VideoEntry(videoId, baseUrl + "/hls/" + videoId + "/" + MasterName)
  }

  /** `video_ids` (main.py:97): the listed names whose path under the HLS directory is a directory. */
  function Subdirectories(names: seq<string>, dirs: set<string>): (ids: seq<string>)
    ensures forall i :: 0 <= i < |ids| ==> ids[i] in names && Join(HlsDir, ids[i]) in dirs
    ensures forall d :: d in names && Join(HlsDir, d) in dirs ==> d in ids
    ensures IsSubsequence(ids, names)
    decreases |names|
  {
    if names == [] then []
    else
      var rest := Subdirectories(names[1..], dirs);
      assert forall d :: d in names[1..] ==> d in names;
      if Join(HlsDir, names[0]) in dirs then
        assert IsSubsequence([names[0]] + rest, names) by {
          assert ([names[0]] + rest)[1..] == rest;
        }
        [names[0]] + rest
      else rest
  }

  /** `xs` keeps some of the elements of `ys`, in their order. */
  predicate IsSubsequence<T(==)>(xs: seq<T>, ys: seq<T>)
    decreases |ys|
  {
    if xs == [] then true
    else if ys == [] then false
    else if xs[0] == ys[0] then IsSubsequence(xs[1..], ys[1..])
    else IsSubsequence(xs, ys[1..])
  }

  /** The videos the loop of main.py:101-107 collects from `ids`. */
  function Listed(ids: seq<string>, existing: set<string>, baseUrl: string): (vs: seq<VideoEntry>)
    ensures |vs| <= |ids|
    ensures forall k :: 0 <= k < |vs| ==> MasterPath(vs[k].videoId) in existing && vs[k] == EntryOf(baseUrl, vs[k].videoId)
    decreases |ids|
  {
    if ids == [] then []
    else
      var last := ids[|ids| - 1];
      Listed(ids[..|ids| - 1], existing, baseUrl)
      + (if MasterPath(last) in existing then [EntryOf(baseUrl, last)] else [])
  }

  function Ids(vs: seq<VideoEntry>): (ids: seq<string>)
    ensures |ids| == |vs| && forall i :: 0 <= i < |vs| ==> ids[i] == vs[i].videoId
  {
    seq(|vs|, i requires 0 <= i < |vs| => vs[i].videoId)
  }

  /** `list_hls_videos`: the directory listing, or the exception text when listing failed. */
  method ListHlsVideos(listing: Result<seq<string>, string>, dirs: set<string>, existing: set<string>, baseUrl: string)
    returns (response: ListResponse)
    ensures listing.Err? ==> response == ListError(500, listing.error)
    ensures listing.Ok? ==> response == Videos(Listed(Subdirectories(listing.value, dirs), existing, baseUrl))
  {
    if listing.Err? {
      response := ListError(500, listing.error);
      return;
    }
    var videoIds := Subdirectories(listing.value, dirs);
    var videos: seq<VideoEntry> := [];
    for i := 0 to |videoIds|
      invariant videos == Listed(videoIds[..i], existing, baseUrl)
    {
      var videoId := videoIds[i];
      assert videoIds[..i + 1][..i] == videoIds[..i];
      if MasterPath(videoId) in existing {
        videos := videos + [EntryOf(baseUrl, videoId)];
      }
    }
    assert videoIds[..|videoIds|] == videoIds;
    response := Videos(videos);
  }

  /** Exactly the ids whose master playlist exists are listed, each with its URL. */
  lemma {:induction false} ListedExactly(ids: seq<string>, existing: set<string>, baseUrl: string)
    ensures forall k :: 0 <= k < |Listed(ids, existing, baseUrl)| ==>
              var v := Listed(ids, existing, baseUrl)[k];
              v.videoId in ids && MasterPath(v.videoId) in existing && v == EntryOf(baseUrl, v.videoId)
    ensures forall id :: id in ids && MasterPath(id) in existing ==> EntryOf(baseUrl, id) in Listed(ids, existing, baseUrl)
    decreases |ids|
  {
    if ids != [] {
      var init := ids[..|ids| - 1];
      ListedExactly(init, existing, baseUrl);
      assert ids == init + [ids[|ids| - 1]];
      assert forall id :: id in init ==> id in ids;
    }
  }

  lemma {:induction false} SubsequenceAppend<T>(xs: seq<T>, ys: seq<T>, y: T, keep: bool)
    requires IsSubsequence(xs, ys)
    ensures IsSubsequence(xs + (if keep then [y] else []), ys + [y])
    decreases |ys|
  {
    if xs == [] {
      if keep {
        SubsequenceOfAny([y], ys + [y]);
        assert xs + [y] == [y];
      }
    } else {
      assert (xs + (if keep then [y] else []))[0] == xs[0];
      assert (ys + [y])[1..] == ys[1..] + [y];
      if xs[0] == ys[0] {
        assert (xs + (if keep then [y] else []))[1..] == xs[1..] + (if keep then [y] else []);
        SubsequenceAppend(xs[1..], ys[1..], y, keep);
      } else {
        SubsequenceAppend(xs, ys[1..], y, keep);
      }
    }
  }

  lemma {:induction false} SubsequenceOfAny<T>(xs: seq<T>, ys: seq<T>)
    requires |xs| == 1 && |ys| > 0 && ys[|ys| - 1] == xs[0]
    ensures IsSubsequence(xs, ys)
    decreases |ys|
  {
    if xs[0] != ys[0] {
      SubsequenceOfAny(xs, ys[1..]);
    } else {
      assert xs[1..] == [];
    }
  }

  /** The listed ids keep the listing's order. */
  lemma {:induction false} ListedInOrder(ids: seq<string>, existing: set<string>, baseUrl: string)
    ensures IsSubsequence(Ids(Listed(ids, existing, baseUrl)), ids)
    decreases |ids|
  {
    if ids != [] {
      var init := ids[..|ids| - 1];
      var last := ids[|ids| - 1];
      var keep := MasterPath(last) in existing;
      ListedInOrder(init, existing, baseUrl);
      var before := Listed(init, existing, baseUrl);
      var vs := Listed(ids, existing, baseUrl);
      assert vs == before + (if keep then [EntryOf(baseUrl, last)] else []);
      assert Ids(vs) == Ids(before) + (if keep then [last] else []);
      SubsequenceAppend(Ids(before), init, last, keep);
      assert init + [last] == ids;
    }
  }

  /** Dropping the first element of `xs` keeps it a subsequence of `ys`. */
  lemma {:induction false} SubsequenceDropHead<T>(xs: seq<T>, ys: seq<T>)
    requires xs != [] && IsSubsequence(xs, ys)
    ensures IsSubsequence(xs[1..], ys)
    decreases |ys|, 1
  {
    if xs[0] == ys[0] {
      SubsequenceCons(xs[1..], ys);
    } else {
      SubsequenceDropHead(xs, ys[1..]);
      SubsequenceCons(xs[1..], ys);
    }
  }

  /** A subsequence of the tail of `ys` is a subsequence of `ys`. */
  lemma {:induction false} SubsequenceCons<T>(xs: seq<T>, ys: seq<T>)
    requires ys != [] && IsSubsequence(xs, ys[1..])
    ensures IsSubsequence(xs, ys)
    decreases |ys|, 0
  {
    if xs != [] && xs[0] == ys[0] {
      SubsequenceDropHead(xs, ys[1..]);
    }
  }

  lemma {:induction false} SubsequenceTransitive<T>(xs: seq<T>, ys: seq<T>, zs: seq<T>)
    requires IsSubsequence(xs, ys) && IsSubsequence(ys, zs)
    ensures IsSubsequence(xs, zs)
    decreases |zs|
  {
    if xs != [] {
      assert ys != [] && zs != [];
      if ys[0] == zs[0] {
        if xs[0] == ys[0] {
          SubsequenceTransitive(xs[1..], ys[1..], zs[1..]);
        } else {
          SubsequenceTransitive(xs, ys[1..], zs[1..]);
        }
      } else {
        SubsequenceTransitive(xs, ys, zs[1..]);
        SubsequenceCons(xs, zs);
      }
    }
  }

  /**
   * End to end over the directory listing: the listed ids keep the listing's
   * order, and a video is listed exactly when its name was listed, it is a
   * directory under the HLS directory, and its master playlist exists.
   */
  lemma ListingOfDirectory(names: seq<string>, dirs: set<string>, existing: set<string>, baseUrl: string)
    ensures var vs := Listed(Subdirectories(names, dirs), existing, baseUrl);
            IsSubsequence(Ids(vs), names)
    ensures var vs := Listed(Subdirectories(names, dirs), existing, baseUrl);
            forall id :: EntryOf(baseUrl, id) in vs <==> id in names && Join(HlsDir, id) in dirs && MasterPath(id) in existing
  {
    var ids := Subdirectories(names, dirs);
    var vs := Listed(ids, existing, baseUrl);
    ListedInOrder(ids, existing, baseUrl);
    SubsequenceTransitive(Ids(vs), ids, names);
    ListedExactly(ids, existing, baseUrl);
  }

  /** A video whose encode failed never got a master playlist and is not listed. */
  lemma FailedUploadNotListed(ids: seq<string>, existing: set<string>, baseUrl: string, videoId: string)
    requires MasterPath(videoId) !in existing
    ensures forall k :: 0 <= k < |Listed(ids, existing, baseUrl)| ==> Listed(ids, existing, baseUrl)[k].videoId != videoId
  {
    ListedExactly(ids, existing, baseUrl);
  }

  /**
   * Each listed video's URL is the base URL followed by the URL the upload
   * answered with, and its master playlist is served as HLS.
   */
  lemma ListedVideosServable(ids: seq<string>, existing: set<string>, baseUrl: string, k: nat)
    requires k < |Listed(ids, existing, baseUrl)|
    ensures var v := Listed(ids, existing, baseUrl)[k];
            && v.masterUrl == baseUrl + Upload.MasterUrl(v.videoId)
            && Serving.ServeHls(existing, v.videoId, MasterName) == Serving.Bytes(MasterPath(v.videoId), Serving.HlsMime)
  {
    ListedExactly(ids, existing, baseUrl);
    var v := Listed(ids, existing, baseUrl)[k];
    Serving.MasterServedAsHls(existing, v.videoId);
  }
}
