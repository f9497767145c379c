/**
 * The media helpers of src/lib/storage.ts: the `m:ss` duration formatter and the YouTube
 * URL helpers (video id extraction, embed-URL normalisation, thumbnail URL).
 */
module Storage {
  import opened JsString
  import opened Optional

  // ---------------------------------------------------------------------------------------
  // Durations

  /** JavaScript's `%` on integers: the remainder takes the sign of the dividend. */
  function JsRemainder(a: int, b: int): (r: int)
    requires b > 0
    ensures -b < r < b
    ensures a >= 0 ==> r == a % b
    ensures a < 0 ==> r <= 0 && -r == (-a) % b
  {
    if a >= 0 then a % b else -((-a) % b)
  }

  /** `formatDuration(seconds)`: whole minutes, a colon, and the seconds padded to two
      places. `Math.floor(seconds / 60)` is Dafny's `/`, which rounds down for a positive
      divisor; `Math.floor(seconds % 60)` is JavaScript's truncating remainder. */
  function FormatDuration(seconds: int): string {
    var mins := seconds / 60;
    var secs := JsRemainder(seconds, 60);
    IntToString(mins) + ":" + PadStart(IntToString(secs), 2, '0')
  }

  /** A non-negative count of `mins` whole minutes and `secs` seconds below 60 is shown as
      the minute count, a colon and exactly two digits: the tens and units of `secs`. */
  lemma FormatDurationDigits(seconds: nat, mins: nat, secs: nat)
    requires secs < 60 && seconds == 60 * mins + secs
    ensures FormatDuration(seconds) == NatToString(mins) + ":" + [DigitChar(secs / 10), DigitChar(secs % 10)]
  {
    assert seconds / 60 == mins && seconds % 60 == secs;
    assert JsRemainder(seconds, 60) == secs;
    assert IntToString(mins) == NatToString(mins);
    assert IntToString(secs) == NatToString(secs);
    PadTwoDigits(secs);
    assert FormatDuration(seconds) == NatToString(mins) + ":" + PadStart(NatToString(secs), 2, '0');
  }

  /** A number below 100, padded to two places, is its tens digit then its units digit. */
  lemma PadTwoDigits(n: nat)
    requires n < 100
    ensures PadStart(NatToString(n), 2, '0') == [DigitChar(n / 10), DigitChar(n % 10)]
  {
    var d0 := DigitChar(n % 10);
    if n < 10 {
      assert NatToString(n) == [d0];
      assert seq(1, _ => '0') == ['0'];
      assert PadStart([d0], 2, '0') == ['0', d0];
    } else {
      var d1 := DigitChar(n / 10);
      assert NatToString(n / 10) == [d1];
      assert NatToString(n) == [d1, d0];
    }
  }

  /** The inverse of `FormatDuration` on its `m:ss` outputs: minutes, a colon, exactly two
      digits below 60. Anything else reads as `None`. */
  function ParseDuration(t: string): (r: Option<nat>)
    ensures r.Some? ==> Includes(t, ":")
  {
    var i := IndexOf(t, ":");
    if i < 0 then None
    else
      var mins, secs := t[..i], t[i + 1..];
      if mins == [] || !AllDigits(mins) || |secs| != 2 || !AllDigits(secs) || ParseNat(secs) >= 60 then None
      else Some(ParseNat(mins) * 60 + ParseNat(secs))
  }

  /** Two digits read back as the number below 100 they were made from. */
  lemma ParseTwoDigits(n: nat)
    requires n < 100
    ensures AllDigits([DigitChar(n / 10), DigitChar(n % 10)])
    ensures ParseNat([DigitChar(n / 10), DigitChar(n % 10)]) == n
  {
    var ss := [DigitChar(n / 10), DigitChar(n % 10)];
    assert DigitValue(DigitChar(n / 10)) == n / 10;
    assert DigitValue(DigitChar(n % 10)) == n % 10;
    assert ss[..1] == [DigitChar(n / 10)];
    assert [DigitChar(n / 10)][..0] == [];
    assert ParseNat([DigitChar(n / 10)]) == n / 10;
  }

  /** Minutes in digits, a colon and two digits below 60 read back as their seconds. */
  lemma {:induction false} ParseDurationOf(m: string, ss: string)
    requires |m| > 0 && AllDigits(m) && |ss| == 2 && AllDigits(ss) && ParseNat(ss) < 60
    ensures ParseDuration(m + ":" + ss) == Some(ParseNat(m) * 60 + ParseNat(ss))
  {
    var t := m + ":" + ss;
    assert ':' !in m by {
      forall k | 0 <= k < |m|
        ensures m[k] != ':'
      {
        assert IsDigit(m[k]);
      }
    }
    IndexOfFirstChar(m, ':', ss);
    assert t == m + [':'] + ss;
    assert t[..|m|] == m && t[|m| + 1..] == ss;
  }

  /** The text of `mins` minutes and `secs` seconds below 60 reads back as their total. */
  lemma {:induction false} ParseMinutesSeconds(seconds: nat, mins: nat, secs: nat)
    requires secs < 60 && seconds == 60 * mins + secs
    ensures ParseDuration(NatToString(mins) + ":" + [DigitChar(secs / 10), DigitChar(secs % 10)])
            == Some(seconds)
  {
    ParseNatToString(mins);
    ParseTwoDigits(secs);
    ParseDurationOf(NatToString(mins), [DigitChar(secs / 10), DigitChar(secs % 10)]);
  }

  /** Reading back a formatted duration gives the number of seconds it was made from. */
  lemma {:induction false} FormatDurationRoundTrip(seconds: nat)
    ensures ParseDuration(FormatDuration(seconds)) == Some(seconds)
  {
    var mins, secs := seconds / 60, seconds % 60;
    FormatDurationDigits(seconds, mins, secs);
    ParseMinutesSeconds(seconds, mins, secs);
  }

  // ---------------------------------------------------------------------------------------
  // YouTube URLs

  const WatchUrl := "youtube.com/watch?v="
  const WatchMarker := "watch?v="
  const ShortUrl := "youtu.be/"
  const VUrl := "youtube.com/v/"
  const EmbedUrl := "youtube.com/embed/"

  /** The id as cut from the first recognised URL shape, before the empty-id check;
      the empty string when no shape is recognised. */
  function CutVideoId(url: string): string {
    if Includes(url, WatchUrl) then
      assert WatchUrl == "youtube.com/" + WatchMarker;
      IncludesSuffix(url, "youtube.com/", WatchMarker);
      SplitFirst(SplitSecond(url, WatchMarker), "&")
    else if Includes(url, ShortUrl) then
      SplitFirst(SplitSecond(url, ShortUrl), "?")
    else if Includes(url, VUrl) then
      SplitFirst(SplitSecond(url, VUrl), "&")
    else if Includes(url, EmbedUrl) then
      SplitFirst(SplitSecond(url, EmbedUrl), "?")
    else
      ""
  }

  /** `extractYouTubeVideoId(url)`: `None` for the empty URL, for an unrecognised URL and
      for an empty cut; never an empty id. */
  function ExtractYouTubeVideoId(url: string): (r: Option<string>)
    ensures url == [] ==> r == None
    ensures r.Some? ==> r.value != []
    ensures (!Includes(url, WatchUrl) && !Includes(url, ShortUrl) && !Includes(url, VUrl)
             && !Includes(url, EmbedUrl)) ==> r == None
  {
    if url == [] then None
    else
      var videoId := CutVideoId(url);
      if videoId == [] then None else Some(videoId)
  }

  /** `id` is what `url.split(marker)[1].split(stop)[0]` gives: the text that starts right
      after the first `marker` and runs, holding no `stop` and no start of another
      `marker`, up to the first `stop`, the next `marker` or the end of `url`. */
  ghost predicate IsCut(url: string, marker: string, stop: char, id: string) {
    Includes(url, marker) && IsCutFrom(url, IndexOf(url, marker) + |marker|, marker, stop, id)
  }

  /** `id` starts at `start` in `url` and runs, holding no `stop` and no start of a
      `marker`, up to the first `stop`, the next `marker` or the end of `url`. */
  ghost predicate IsCutFrom(url: string, start: int, marker: string, stop: char, id: string) {
    var e := start + |id|;
    && 0 <= start && e <= |url| && url[start..e] == id
    && (e == |url| || url[e] == stop || OccursAt(url, marker, e))
    && forall k :: start <= k < e ==> url[k] != stop && !OccursAt(url, marker, k)
  }

  /** At most one text is the cut after a marker up to a stop character. */
  lemma {:induction false} CutUnique(url: string, marker: string, stop: char, a: string, b: string)
    requires IsCut(url, marker, stop, a) && IsCut(url, marker, stop, b)
    ensures a == b
  {
  }

  /** The part of a segment up to its first `stop` is a cut, when the segment runs from
      `start` up to the next `marker` or the end of `url`. */
  lemma {:induction false} CutOfSegment(url: string, marker: string, stop: char, start: int,
                                         seg: string, id: string)
    requires 0 <= start && start + |seg| <= |url| && seg == url[start..start + |seg|]
    requires start + |seg| == |url| || OccursAt(url, marker, start + |seg|)
    requires forall k :: start <= k < start + |seg| ==> !OccursAt(url, marker, k)
    requires |id| <= |seg| && id == seg[..|id|] && stop !in id
    requires id == seg || seg[|id|] == stop
    ensures IsCutFrom(url, start, marker, stop, id)
  {
    var e := start + |id|;
    assert url[start..e] == id;
    forall k | start <= k < e
      ensures url[k] != stop
    {
      assert url[k] == seg[k - start] == id[k - start];
    }
    if id != seg {
      assert url[e] == seg[|id|];
    }
  }

  /** `split(marker)[1].split(stop)[0]` of a URL that includes `marker` is its cut. */
  lemma {:induction false} CutFollowsMarker(url: string, marker: string, stop: char)
    requires |marker| > 0 && Includes(url, marker)
    ensures IsCut(url, marker, stop, SplitFirst(SplitSecond(url, marker), [stop]))
  {
    var seg := SplitSecond(url, marker);
    var id := SplitFirst(seg, [stop]);
    IncludesChar(id, stop);
    if id != seg {
      assert seg[|id|] == seg[|id|..|id| + 1][0];
    }
    CutOfSegment(url, marker, stop, IndexOf(url, marker) + |marker|, seg, id);
  }

  /** Where the id comes from, shape by shape and in the order the shapes are tried: the cut
      after the first `watch?v=` up to a `&`, after the first `youtu.be/` up to a `?`, after
      the first `youtube.com/v/` up to a `&`, after the first `youtube.com/embed/` up to a
      `?`. The result is that cut when it is non-empty and `None` when it is empty; a
      non-empty URL of none of these shapes has no id. */
  lemma ExtractYouTubeVideoIdShapes(url: string)
    requires url != []
    ensures var r := ExtractYouTubeVideoId(url);
      var id := if r.Some? then r.value else [];
      if Includes(url, WatchUrl) then IsCut(url, WatchMarker, '&', id)
      else if Includes(url, ShortUrl) then IsCut(url, ShortUrl, '?', id)
      else if Includes(url, VUrl) then IsCut(url, VUrl, '&', id)
      else if Includes(url, EmbedUrl) then IsCut(url, EmbedUrl, '?', id)
      else r == None
  {
    if Includes(url, WatchUrl) {
      assert WatchUrl == "youtube.com/" + WatchMarker;
      IncludesSuffix(url, "youtube.com/", WatchMarker);
      CutFollowsMarker(url, WatchMarker, '&');
    } else if Includes(url, ShortUrl) {
      CutFollowsMarker(url, ShortUrl, '?');
    } else if Includes(url, VUrl) {
      CutFollowsMarker(url, VUrl, '&');
    } else if Includes(url, EmbedUrl) {
      CutFollowsMarker(url, EmbedUrl, '?');
    }
  }

  /** A URL that matches a shape and has a non-empty cut yields that cut as its id. */
  lemma {:induction false} NonEmptyCutIsId(url: string, id: string)
    requires id != []
    requires
      if Includes(url, WatchUrl) then IsCut(url, WatchMarker, '&', id)
      else if Includes(url, ShortUrl) then IsCut(url, ShortUrl, '?', id)
      else if Includes(url, VUrl) then IsCut(url, VUrl, '&', id)
      else Includes(url, EmbedUrl) && IsCut(url, EmbedUrl, '?', id)
    ensures ExtractYouTubeVideoId(url) == Some(id)
  {
    assert url != [];
    ExtractYouTubeVideoIdShapes(url);
    var r := ExtractYouTubeVideoId(url);
    var cut := if r.Some? then r.value else [];
    if Includes(url, WatchUrl) {
      CutUnique(url, WatchMarker, '&', id, cut);
    } else if Includes(url, ShortUrl) {
      CutUnique(url, ShortUrl, '?', id, cut);
    } else if Includes(url, VUrl) {
      CutUnique(url, VUrl, '&', id, cut);
    } else {
      CutUnique(url, EmbedUrl, '?', id, cut);
    }
  }

  const EmbedParams := "?rel=0&modestbranding=1"
  const EmbedPrefix := "https://www.youtube.com/embed/"
  const EmbedSuffix := "?rel=0&modestbranding=1&enablejsapi=1"

  /** `convertYouTubeUrl(url)`: an embed URL keeps its parameters or, without any, gets
      `?rel=0&modestbranding=1`; another URL with an id becomes the canonical embed URL of
      that id; everything else, the empty URL included, is returned unchanged. Every URL it
      changes becomes an embed URL with a query. */
  function ConvertYouTubeUrl(url: string): (r: string)
    ensures url == [] ==> r == url
    ensures r == url || (Includes(r, EmbedUrl) && Includes(r, "?"))
    ensures Includes(url, EmbedUrl) ==> r == if Includes(url, "?") then url else url + EmbedParams
    ensures !Includes(url, EmbedUrl) && url != [] ==>
      match ExtractYouTubeVideoId(url)
      case Some(id) => r == EmbedPrefix + id + EmbedSuffix
      case None => r == url
  {
    if url == [] then url
    else if Includes(url, EmbedUrl) then
      if !Includes(url, "?") then
        EmbeddedParamsKeepShape(url);
        url + EmbedParams
      else
        url
    else
      match ExtractYouTubeVideoId(url)
      case Some(videoId) =>
        CanonicalEmbedShape(videoId);
        EmbedPrefix + videoId + EmbedSuffix
      case None => url
  }

  /** Appending the default parameters to an embed URL keeps it an embed URL and gives it a query. */
  lemma EmbeddedParamsKeepShape(url: string)
    requires Includes(url, EmbedUrl)
    ensures Includes(url + EmbedParams, EmbedUrl) && Includes(url + EmbedParams, "?")
  {
    OccursInPrefix(url, EmbedParams, EmbedUrl, IndexOf(url, EmbedUrl));
    IndexOfAtMost(url + EmbedParams, EmbedUrl, IndexOf(url, EmbedUrl));
    assert (url + EmbedParams)[|url|] == '?';
    assert (url + EmbedParams)[|url|..|url| + 1] == "?";
    IndexOfAtMost(url + EmbedParams, "?", |url|);
  }

  /** The canonical embed URL of any id is an embed URL with a query. */
  lemma CanonicalEmbedShape(id: string)
    ensures Includes(EmbedPrefix + id + EmbedSuffix, EmbedUrl)
    ensures Includes(EmbedPrefix + id + EmbedSuffix, "?")
  {
    var s := EmbedPrefix + id + EmbedSuffix;
    assert EmbedPrefix[12..] == EmbedUrl;
    assert s[..|EmbedPrefix|] == EmbedPrefix;
    assert s[12..12 + |EmbedUrl|] == EmbedUrl;
    IndexOfAtMost(s, EmbedUrl, 12);
    assert s[|EmbedPrefix| + |id|] == EmbedSuffix[0] == '?';
    assert s[|EmbedPrefix| + |id|..|EmbedPrefix| + |id| + 1] == "?";
    IndexOfAtMost(s, "?", |EmbedPrefix| + |id|);
  }

  /** Converting an already converted URL changes nothing. */
  lemma ConvertYouTubeUrlIdempotent(url: string)
    ensures ConvertYouTubeUrl(ConvertYouTubeUrl(url)) == ConvertYouTubeUrl(url)
  {
  }

  // ---------------------------------------------------------------------------------------
  // Thumbnails

  /** The `quality` argument of `getYouTubeThumbnail`. */
  datatype Quality = Default | Medium | High | MaxRes

  function QualityName(q: Quality): string {
    match q
    case Default => "default"
    case Medium => "medium"
    case High => "high"
    case MaxRes => "maxres"
  }

  const ThumbnailHost := "https://img.youtube.com/vi/"

  /** The thumbnail file name as written: the quality's name (`maxresdefault` for
      `maxres`) followed by `default.jpg`. */
  function WrittenThumbnailFile(q: Quality): string {
    (if q == MaxRes then "maxresdefault" else QualityName(q)) + "default.jpg"
  }

  /** `getYouTubeThumbnail(url, quality)`, as written: the id's directory on the thumbnail
      host, then the written file name. */
  function GetYouTubeThumbnail(url: string, quality: Quality := MaxRes): (r: Option<string>)
    ensures r.None? <==> ExtractYouTubeVideoId(url).None?
    ensures r.Some? ==> r.value == ThumbnailHost + ExtractYouTubeVideoId(url).value + "/" + WrittenThumbnailFile(quality)
  {
    match ExtractYouTubeVideoId(url)
    case None => None
    case Some(videoId) =>
      var dir := ThumbnailHost + videoId + "/";
      assert (dir + WrittenThumbnailFile(quality))[..|dir|] == dir;
      Some(dir + WrittenThumbnailFile(quality))
  }

  /** As written, the default `maxres` thumbnail is named `maxresdefaultdefault.jpg`, a file
      YouTube does not serve. */
  lemma {:induction false} ThumbnailMaxResDoubled(url: string, id: string)
    requires ExtractYouTubeVideoId(url) == Some(id)
    ensures GetYouTubeThumbnail(url).value == ThumbnailHost + id + "/" + "maxresdefaultdefault.jpg"
  {
    WrittenThumbnailNames();
  }

  /** The written file names of the four qualities. */
  lemma WrittenThumbnailNames()
    ensures WrittenThumbnailFile(Default) == "defaultdefault.jpg"
    ensures WrittenThumbnailFile(Medium) == "mediumdefault.jpg"
    ensures WrittenThumbnailFile(High) == "highdefault.jpg"
    ensures WrittenThumbnailFile(MaxRes) == "maxresdefaultdefault.jpg"
  {
  }

  /** The file names YouTube serves for the four thumbnail qualities. */
  function ThumbnailFile(q: Quality): string {
    match q
    case Default => "default.jpg"
    case Medium => "mqdefault.jpg"
    case High => "hqdefault.jpg"
    case MaxRes => "maxresdefault.jpg"
  }

  /** The thumbnail URL as intended, the reference definition the written one is compared
      with: the id's directory and the quality's own file name. */
  function YouTubeThumbnail(url: string, quality: Quality := MaxRes): (r: Option<string>)
    ensures r.None? <==> ExtractYouTubeVideoId(url).None?
    ensures r.Some? ==> r.value == ThumbnailHost + ExtractYouTubeVideoId(url).value + "/" + ThumbnailFile(quality)
  {
    match ExtractYouTubeVideoId(url)
    case None => None
    case Some(videoId) => Some(ThumbnailHost + videoId + "/" + ThumbnailFile(quality))
  }

  /** For every quality, the written thumbnail URL of a video differs from the intended one:
      both exist exactly when an id does, and then the file names differ. */
  lemma {:induction false} WrittenThumbnailMisnamed(url: string, quality: Quality)
    ensures GetYouTubeThumbnail(url, quality).None? <==> YouTubeThumbnail(url, quality).None?
    ensures GetYouTubeThumbnail(url, quality).Some? ==>
      GetYouTubeThumbnail(url, quality) != YouTubeThumbnail(url, quality)
  {
    WrittenThumbnailNames();
    if ExtractYouTubeVideoId(url).Some? {
      var dir := ThumbnailHost + ExtractYouTubeVideoId(url).value + "/";
      var w, t := dir + WrittenThumbnailFile(quality), dir + ThumbnailFile(quality);
      assert w[|dir|..] == WrittenThumbnailFile(quality) && t[|dir|..] == ThumbnailFile(quality);
      assert WrittenThumbnailFile(quality) != ThumbnailFile(quality);
    }
  }
}
