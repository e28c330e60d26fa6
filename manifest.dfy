/**
 * The master playlist written after a successful encode (main.py:81-85): the
 * `#EXTM3U` header of section 4.3.1.1 of RFC 8216, then one
 * `#EXT-X-STREAM-INF` tag (section 4.3.4.2 of RFC 8216) per rendition in
 * ascending bandwidth, each followed by the relative URI of that rendition's
 * playlist. Every record ends in a newline.
 *
 * `MasterText` is the text as written; `Render` produces a playlist from its
 * entries and `Parse` reads one back.
 */
module Manifest {
  import opened Wrappers
  import opened Text
  import opened Paths
  import opened EncodePlan

  /** One variant stream: BANDWIDTH, RESOLUTION (width x height) and its URI line. */
  datatype StreamInf = StreamInf(bandwidth: nat, width: nat, height: nat, uri: string)

  const HeaderTag: string := "#EXTM3U"
  const InfPrefix: string := "#EXT-X-STREAM-INF:BANDWIDTH="
  const ResolutionAttr: string := ",RESOLUTION="

  /** The master playlist as the four writes of main.py:82-85 leave it. */
  const MasterText: string :=
    "#EXTM3U\n"
    + "#EXT-X-STREAM-INF:BANDWIDTH=400000,RESOLUTION=426x240\n240p.m3u8\n"
    + "#EXT-X-STREAM-INF:BANDWIDTH=800000,RESOLUTION=640x360\n360p.m3u8\n"
    + "#EXT-X-STREAM-INF:BANDWIDTH=1400000,RESOLUTION=854x480\n480p.m3u8\n"

  /** The entry announcing a rendition: its bandwidth, its frame size and its playlist's file name. */
  function EntryFor(r: Rendition): StreamInf {
    StreamInf(r.bandwidth, r.width, r.height, PlaylistName(r))
  }

  /** The entries in the order they are written: the encoder's legs from last to first. */
  function MasterEntries(): seq<StreamInf> {
    [EntryFor(R240), EntryFor(R360), EntryFor(R480)]
  }

  function InfoLine(e: StreamInf): string {
    InfPrefix + Decimal(e.bandwidth) + ResolutionAttr + Decimal(e.width) + "x" + Decimal(e.height)
  }

  function EntryLines(es: seq<StreamInf>): (lines: seq<string>)
    ensures |lines| == 2 * |es|
    decreases |es|
  {
    if es == [] then [] else [InfoLine(es[0]), es[0].uri] + EntryLines(es[1..])
  }

  /** A master playlist with the given entries, in the given order. */
  function Render(es: seq<StreamInf>): string {
    JoinLines([HeaderTag] + EntryLines(es))
  }

  predicate StartsWith(s: string, prefix: string) {
    |prefix| <= |s| && s[..|prefix|] == prefix
  }

  /** Reads BANDWIDTH, width and height from an `#EXT-X-STREAM-INF` line of the form written here. */
  function ParseInfo(line: string): Option<(nat, nat, nat)> {
    if !StartsWith(line, InfPrefix) then None
    else
      var rest := line[|InfPrefix|..];
      var i := IndexOf(rest, ',');
      var tail := rest[i..];
      if !StartsWith(tail, ResolutionAttr) then None
      else
        var size := tail[|ResolutionAttr|..];
        var j := IndexOf(size, 'x');
        if j == |size| then None
        else
          match (ParseDecimal(rest[..i]), ParseDecimal(size[..j]), ParseDecimal(size[j + 1..]))
          case (Some(bw), Some(w), Some(h)) => Some((bw, w, h))
          case _ => None
  }

  /** Reads tag/URI line pairs. */
  function ParseEntries(lines: seq<string>): Option<seq<StreamInf>>
    decreases |lines|
  {
    if lines == [] then Some([])
    else if |lines| == 1 then None
    else
      match (ParseInfo(lines[0]), ParseEntries(lines[2..]))
      case (Some((bw, w, h)), Some(es)) => Some([StreamInf(bw, w, h, lines[1])] + es)
      case _ => None
  }

  /** Reads a master playlist: the header line, then the entries. */
  function Parse(text: string): Option<seq<StreamInf>> {
    var lines := SplitLines(text);
    if lines == [] || lines[0] != HeaderTag then None else ParseEntries(lines[1..])
  }

  /**
   * The master playlist method: the file is opened for writing, which empties
   * it, and receives four writes in a row (main.py:81-85).
   */
  method WriteMaster() returns (text: string)
    ensures text == Render(MasterEntries())
  {
    text := "";
    text := text + "#EXTM3U\n";
    assert text == "#EXTM3U\n";
    text := text + "#EXT-X-STREAM-INF:BANDWIDTH=400000,RESOLUTION=426x240\n240p.m3u8\n";
    text := text + "#EXT-X-STREAM-INF:BANDWIDTH=800000,RESOLUTION=640x360\n360p.m3u8\n";
    text := text + "#EXT-X-STREAM-INF:BANDWIDTH=1400000,RESOLUTION=854x480\n480p.m3u8\n";
    assert text == MasterText;
    MasterAsWritten();
  }

  // ---------------------------------------------------------------------------
  // Lemmas

  lemma InfoLineNoNewline(e: StreamInf)
    ensures '\n' !in InfoLine(e)
  {
    DecimalAvoids(e.bandwidth, '\n');
    DecimalAvoids(e.width, '\n');
    DecimalAvoids(e.height, '\n');
  }

  /** The text after a separator that `a` does not contain, and the text before it. */
  lemma SplitAtFirst(a: string, c: char, b: string)
    requires c !in a
    ensures IndexOf(a + [c] + b, c) == |a|
    ensures (a + [c] + b)[..|a|] == a && (a + [c] + b)[|a|..] == [c] + b && (a + [c] + b)[|a| + 1..] == b
  {
    IndexOfAfter(a, c, b);
  }

  /** The BANDWIDTH text stops at the first comma, where the RESOLUTION attribute starts. */
  lemma InfoRest(b: string, size: string)
    requires ',' !in b
    ensures var line := InfPrefix + b + ResolutionAttr + size;
            var rest := line[|InfPrefix|..];
            && StartsWith(line, InfPrefix)
            && IndexOf(rest, ',') == |b|
            && rest[..|b|] == b
            && rest[|b|..] == ResolutionAttr + size
  {
    var line := InfPrefix + b + ResolutionAttr + size;
    assert line == InfPrefix + (b + ResolutionAttr + size);
    assert line[|InfPrefix|..] == b + [','] + (ResolutionAttr + size)[1..];
    SplitAtFirst(b, ',', (ResolutionAttr + size)[1..]);
  }

  /** The frame size splits at its first `x`. */
  lemma SizeFields(w: string, h: string)
    requires 'x' !in w
    ensures var size := w + ['x'] + h;
            IndexOf(size, 'x') == |w| < |size| && size[..|w|] == w && size[|w| + 1..] == h
  {
    SplitAtFirst(w, 'x', h);
  }

  /** An info line reads back as the numbers its three fields spell. */
  lemma ParseInfoFields(b: string, w: string, h: string)
    requires ',' !in b && 'x' !in w
    ensures ParseInfo(InfPrefix + b + ResolutionAttr + w + ['x'] + h)
         == match (ParseDecimal(b), ParseDecimal(w), ParseDecimal(h))
            case (Some(bw), Some(wd), Some(ht)) => Some((bw, wd, ht))
            case _ => None
  {
    var size := w + ['x'] + h;
    var line := InfPrefix + b + ResolutionAttr + size;
    assert InfPrefix + b + ResolutionAttr + w + ['x'] + h == line;
    InfoRest(b, size);
    var rest := line[|InfPrefix|..];
    var tail := rest[IndexOf(rest, ',')..];
    assert tail == ResolutionAttr + size;
    assert StartsWith(tail, ResolutionAttr) && tail[|ResolutionAttr|..] == size;
    SizeFields(w, h);
  }

  /** An info line reads back as its bandwidth and resolution. */
  lemma ParseInfoLine(e: StreamInf)
    ensures ParseInfo(InfoLine(e)) == Some((e.bandwidth, e.width, e.height))
  {
    var b, w, h := Decimal(e.bandwidth), Decimal(e.width), Decimal(e.height);
    assert InfoLine(e) == InfPrefix + b + ResolutionAttr + w + ['x'] + h;
    DecimalAvoids(e.bandwidth, ',');
    DecimalAvoids(e.width, 'x');
    ParseInfoFields(b, w, h);
    ParseDecimalOfDecimal(e.bandwidth);
    ParseDecimalOfDecimal(e.width);
    ParseDecimalOfDecimal(e.height);
  }

  predicate SingleLineUris(es: seq<StreamInf>) {
    forall k :: 0 <= k < |es| ==> '\n' !in es[k].uri
  }

  lemma {:induction false} EntryLinesNoNewline(es: seq<StreamInf>)
    requires SingleLineUris(es)
    ensures NoNewline(EntryLines(es))
    decreases |es|
  {
    if es != [] {
      InfoLineNoNewline(es[0]);
      EntryLinesNoNewline(es[1..]);
      var lines := EntryLines(es);
      forall k | 0 <= k < |lines| ensures '\n' !in lines[k] {
        if k >= 2 {
          assert lines[k] == EntryLines(es[1..])[k - 2];
        }
      }
    }
  }

  lemma ParseEntriesCons(info: string, e: StreamInf, rest: seq<string>, es: seq<StreamInf>)
    requires ParseInfo(info) == Some((e.bandwidth, e.width, e.height))
    requires ParseEntries(rest) == Some(es)
    ensures ParseEntries([info, e.uri] + rest) == Some([e] + es)
  {
    var lines := [info, e.uri] + rest;
    assert lines[0] == info && lines[1] == e.uri && lines[2..] == rest;
  }

  lemma {:induction false} ParseEntryLines(es: seq<StreamInf>)
    ensures ParseEntries(EntryLines(es)) == Some(es)
    decreases |es|
  {
    if es != [] {
      var info, tail := InfoLine(es[0]), EntryLines(es[1..]);
      ParseInfoLine(es[0]);
      ParseEntryLines(es[1..]);
      ParseEntriesCons(info, es[0], tail, es[1..]);
      assert EntryLines(es) == [info, es[0].uri] + tail;
      assert [es[0]] + es[1..] == es;
    }
  }

  /** Round trip: a rendered playlist parses back to its entries, in order. */
  lemma RenderThenParse(es: seq<StreamInf>)
    requires SingleLineUris(es)
    ensures Parse(Render(es)) == Some(es)
  {
    var lines := [HeaderTag] + EntryLines(es);
    EntryLinesNoNewline(es);
    assert NoNewline(lines) by {
      forall k | 0 <= k < |lines| ensures '\n' !in lines[k] {
        if k > 0 {
          assert lines[k] == EntryLines(es)[k - 1];
        }
      }
    }
    SplitJoinLines(lines);
    assert lines[1..] == EntryLines(es);
    ParseEntryLines(es);
  }

  lemma Digits400000() ensures Decimal(400000) == "400000" {
    assert Decimal(4) == "4" && Decimal(40) == "40" && Decimal(400) == "400";
    assert Decimal(4000) == "4000" && Decimal(40000) == "40000";
  }

  lemma Digits800000() ensures Decimal(800000) == "800000" {
    assert Decimal(8) == "8" && Decimal(80) == "80" && Decimal(800) == "800";
    assert Decimal(8000) == "8000" && Decimal(80000) == "80000";
  }

  lemma Digits1400000() ensures Decimal(1400000) == "1400000" {
    assert Decimal(1) == "1" && Decimal(14) == "14" && Decimal(140) == "140";
    assert Decimal(1400) == "1400" && Decimal(14000) == "14000" && Decimal(140000) == "140000";
  }

  lemma InfoAsWritten(e: StreamInf, b: string, w: string, h: string)
    requires Decimal(e.bandwidth) == b && Decimal(e.width) == w && Decimal(e.height) == h
    ensures InfoLine(e) == "#EXT-X-STREAM-INF:BANDWIDTH=" + b + ",RESOLUTION=" + w + "x" + h
  {
  }

  lemma Info240(e: StreamInf)
    requires e == EntryFor(R240)
    ensures InfoLine(e) == "#EXT-X-STREAM-INF:BANDWIDTH=400000,RESOLUTION=426x240"
  {
    Digits400000();
    Digits426();
    Digits240();
    InfoAsWritten(e, "400000", "426", "240");
  }

  lemma Info360(e: StreamInf)
    requires e == EntryFor(R360)
    ensures InfoLine(e) == "#EXT-X-STREAM-INF:BANDWIDTH=800000,RESOLUTION=640x360"
  {
    Digits800000();
    Digits640();
    Digits360();
    InfoAsWritten(e, "800000", "640", "360");
  }

  lemma Info480(e: StreamInf)
    requires e == EntryFor(R480)
    ensures InfoLine(e) == "#EXT-X-STREAM-INF:BANDWIDTH=1400000,RESOLUTION=854x480"
  {
    Digits1400000();
    Digits854();
    Digits480();
    InfoAsWritten(e, "1400000", "854", "480");
  }

  lemma RenderThree(a: StreamInf, b: StreamInf, c: StreamInf)
    ensures Render([a, b, c])
         == HeaderTag + "\n"
          + (InfoLine(a) + "\n" + a.uri + "\n")
          + (InfoLine(b) + "\n" + b.uri + "\n")
          + (InfoLine(c) + "\n" + c.uri + "\n")
  {
    var la := [InfoLine(a), a.uri];
    var lb := [InfoLine(b), b.uri];
    var lc := [InfoLine(c), c.uri];
    assert [a, b, c][1..] == [b, c] && [b, c][1..] == [c];
    assert EntryLines([c]) == lc;
    assert EntryLines([a, b, c]) == la + lb + lc;
    JoinLinesAppend([HeaderTag], la + lb + lc);
    JoinLinesAppend(la, lb + lc);
    JoinLinesAppend(lb, lc);
    assert la + lb + lc == la + (lb + lc);
    assert JoinLines([HeaderTag]) == HeaderTag + "\n";
    assert JoinLines(la) == InfoLine(a) + "\n" + a.uri + "\n";
    assert JoinLines(lb) == InfoLine(b) + "\n" + b.uri + "\n";
    assert JoinLines(lc) == InfoLine(c) + "\n" + c.uri + "\n";
  }

  /** The 240p entry's two records are the write at main.py:83. */
  lemma Record240()
    ensures InfoLine(EntryFor(R240)) + "\n" + EntryFor(R240).uri + "\n" == "#EXT-X-STREAM-INF:BANDWIDTH=400000,RESOLUTION=426x240\n240p.m3u8\n"
  {
    assert "#EXT-X-STREAM-INF:BANDWIDTH=400000,RESOLUTION=426x240" + "\n" + "240p.m3u8" + "\n" == "#EXT-X-STREAM-INF:BANDWIDTH=400000,RESOLUTION=426x240\n240p.m3u8\n";
    var e := EntryFor(R240);
    Info240(e);
    assert e.uri == "240p.m3u8";
  }

  /** The 360p entry's two records are the write at main.py:84. */
  lemma Record360()
    ensures InfoLine(EntryFor(R360)) + "\n" + EntryFor(R360).uri + "\n" == "#EXT-X-STREAM-INF:BANDWIDTH=800000,RESOLUTION=640x360\n360p.m3u8\n"
  {
    assert "#EXT-X-STREAM-INF:BANDWIDTH=800000,RESOLUTION=640x360" + "\n" + "360p.m3u8" + "\n" == "#EXT-X-STREAM-INF:BANDWIDTH=800000,RESOLUTION=640x360\n360p.m3u8\n";
    var e := EntryFor(R360);
    Info360(e);
    assert e.uri == "360p.m3u8";
  }

  /** The 480p entry's two records are the write at main.py:85. */
  lemma Record480()
    ensures InfoLine(EntryFor(R480)) + "\n" + EntryFor(R480).uri + "\n" == "#EXT-X-STREAM-INF:BANDWIDTH=1400000,RESOLUTION=854x480\n480p.m3u8\n"
  {
    assert "#EXT-X-STREAM-INF:BANDWIDTH=1400000,RESOLUTION=854x480" + "\n" + "480p.m3u8" + "\n" == "#EXT-X-STREAM-INF:BANDWIDTH=1400000,RESOLUTION=854x480\n480p.m3u8\n";
    var e := EntryFor(R480);
    Info480(e);
    assert e.uri == "480p.m3u8";
  }

  /** Three entries whose records are the three writes render to the master text. */
  lemma MasterFromEntries(a: StreamInf, b: StreamInf, c: StreamInf)
    requires InfoLine(a) + "\n" + a.uri + "\n" == "#EXT-X-STREAM-INF:BANDWIDTH=400000,RESOLUTION=426x240\n240p.m3u8\n"
    requires InfoLine(b) + "\n" + b.uri + "\n" == "#EXT-X-STREAM-INF:BANDWIDTH=800000,RESOLUTION=640x360\n360p.m3u8\n"
    requires InfoLine(c) + "\n" + c.uri + "\n" == "#EXT-X-STREAM-INF:BANDWIDTH=1400000,RESOLUTION=854x480\n480p.m3u8\n"
    ensures Render([a, b, c]) == MasterText
  {
    RenderThree(a, b, c);
    assert HeaderTag + "\n" == "#EXTM3U\n";
  }

  /** The text as written is the rendering of the entries. */
  lemma MasterAsWritten()
    ensures Render(MasterEntries()) == MasterText
  {
    var es := MasterEntries();
    Record240();
    Record360();
    Record480();
    MasterFromEntries(es[0], es[1], es[2]);
    assert es == [es[0], es[1], es[2]];
  }

  /** The shipped text reads back as the three entries. */
  lemma MasterRoundTrip()
    ensures Parse(MasterText) == Some(MasterEntries())
  {
    MasterAsWritten();
    EntriesSingleLine();
    RenderThenParse(MasterEntries());
  }

  lemma EntriesSingleLine()
    ensures SingleLineUris(MasterEntries())
  {
    assert PlaylistName(R240) == "240p.m3u8" && PlaylistName(R360) == "360p.m3u8" && PlaylistName(R480) == "480p.m3u8";
  }

  /** Entry j of the master playlist describes the rendition of the encoder's leg 2 - j. */
  lemma EntryMatchesLeg(outputDir: string, j: nat)
    requires j < 3
    ensures var e, r := MasterEntries()[j], LegOrder[2 - j];
            && e.bandwidth == r.bandwidth && e.width == r.width && e.height == r.height
            && e.uri == BaseName(PlaylistPath(outputDir, r))
            && Sep[0] !in e.uri
  {
    var r := LegOrder[2 - j];
    assert MasterEntries()[j] == EntryFor(r);
    assert Sep[0] !in PlaylistName(r);
    BaseNameOfJoin(outputDir, PlaylistName(r));
  }

  /**
   * The entries: three, in strictly ascending BANDWIDTH; entry j describes the
   * rendition of the encoder's leg 2 - j, so its RESOLUTION is that leg's scale
   * size, and its URI is the bare file name of that leg's playlist under any
   * output directory.
   */
  lemma MasterEntriesMatchLegs(outputDir: string)
    ensures |MasterEntries()| == |LegOrder| == 3
    ensures forall i, j :: 0 <= i < j < 3 ==> MasterEntries()[i].bandwidth < MasterEntries()[j].bandwidth
    ensures forall j :: 0 <= j < 3 ==>
              var r := LegOrder[2 - j];
              && MasterEntries()[j].bandwidth == r.bandwidth
              && MasterEntries()[j].width == r.width
              && MasterEntries()[j].height == r.height
              && MasterEntries()[j].uri == BaseName(PlaylistPath(outputDir, r))
              && Sep[0] !in MasterEntries()[j].uri
  {
    forall j | 0 <= j < 3
      ensures var r := LegOrder[2 - j];
              && MasterEntries()[j].bandwidth == r.bandwidth
              && MasterEntries()[j].width == r.width
              && MasterEntries()[j].height == r.height
              && MasterEntries()[j].uri == BaseName(PlaylistPath(outputDir, r))
              && Sep[0] !in MasterEntries()[j].uri
    {
      EntryMatchesLeg(outputDir, j);
    }
  }
}
