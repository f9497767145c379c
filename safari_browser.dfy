/** The Safari window: the shared controller with at least 500×400, 700×550 by default,
    centred then shifted by (50, -20), and the choice of player for a video post's media. */
module SafariBrowser {
  import opened Optional
  import opened JsString
  import opened Storage
  import opened WindowGeometry

  const MinWidth: real := 500.0
  const MinHeight: real := 400.0
  const DefaultSize: Size := Size(700.0, 550.0)
  const CentreOffset: Point := Point(50.0, -20.0)

  /** The window as first mounted: closed, with the Safari constants. */
  method NewSafariWindow() returns (w: FloatingWindow)
    ensures fresh(w) && w.Valid() && w.Mounted()
    ensures w.minWidth == MinWidth && w.minHeight == MinHeight
    ensures w.defaultSize == DefaultSize && w.centreOffset == CentreOffset
  {
    w := new FloatingWindow(MinWidth, MinHeight, DefaultSize, CentreOffset);
  }

  /** What the video block of a post shows: nothing, an embedded YouTube player, or a
      plain video element. */
  datatype MediaView = NoMedia | Embedded(src: string) | VideoFile(src: string)

  /** The video block of a blog post with the given `type` and optional `media`: shown only
      for a video post with non-empty media; YouTube media (any URL mentioning
      `youtube.com` or `youtu.be`) goes to an embedded player at the converted URL, any
      other media to a video element at the URL as given. */
  function VideoBlock(postType: string, media: Option<string>): (r: MediaView)
    ensures r.NoMedia? <==> postType != "video" || media.None? || media.value == []
    ensures r.Embedded? <==>
      !r.NoMedia? && (Includes(media.value, "youtube.com") || Includes(media.value, "youtu.be"))
    ensures r.VideoFile? ==> r.src == media.value
    ensures r.Embedded? ==> r.src == ConvertYouTubeUrl(media.value)
  {
    if postType == "video" && media.Some? && media.value != [] then
      var m := media.value;
      if Includes(m, "youtube.com") || Includes(m, "youtu.be") then Embedded(ConvertYouTubeUrl(m))
      else VideoFile(m)
    else
      NoMedia
  }

  /** Each of the four URL shapes the id extractor looks for mentions `youtube.com` or
      `youtu.be`. */
  lemma ShapesMentionYouTube(m: string)
    ensures Includes(m, WatchUrl) ==> Includes(m, "youtube.com")
    ensures Includes(m, ShortUrl) ==> Includes(m, "youtu.be")
    ensures Includes(m, VUrl) ==> Includes(m, "youtube.com")
    ensures Includes(m, EmbedUrl) ==> Includes(m, "youtube.com")
  {
    assert WatchUrl == "youtube.com" + "/watch?v=";
    if Includes(m, WatchUrl) {
      IncludesPrefix(m, "youtube.com", "/watch?v=");
    }
    assert ShortUrl == "youtu.be" + "/";
    if Includes(m, ShortUrl) {
      IncludesPrefix(m, "youtu.be", "/");
    }
    assert VUrl == "youtube.com" + "/v/";
    if Includes(m, VUrl) {
      IncludesPrefix(m, "youtube.com", "/v/");
    }
    assert EmbedUrl == "youtube.com" + "/embed/";
    if Includes(m, EmbedUrl) {
      IncludesPrefix(m, "youtube.com", "/embed/");
    }
  }

  /** Every URL the id extractor recognises is routed to the embedded player; unless it is
      already an embed URL, the player gets the canonical embed URL of its id. */
  lemma {:induction false} RecognisedVideosEmbed(m: string, id: string)
    requires ExtractYouTubeVideoId(m) == Some(id)
    ensures VideoBlock("video", Some(m)).Embedded?
    ensures !Includes(m, EmbedUrl) ==> VideoBlock("video", Some(m)).src == EmbedPrefix + id + EmbedSuffix
  {
    ShapesMentionYouTube(m);
  }

  /** A session in a 1920×1080 viewport: the window opens at (660, 245), and a drag by the
      title bar moves it with the pointer. */
  method Session() returns (centred: Point, dragged: Point)
    ensures centred == Point(660.0, 245.0)
    ensures dragged == Point(760.0, 345.0)
  {
    var viewport := Size(1920.0, 1080.0);
    var w := NewSafariWindow();
    w.Open(viewport);
    centred := w.position;
    w.MouseDown(Point(700.0, 255.0), Rect(660.0, 245.0, 700.0, 550.0));
    w.MouseMove(Point(800.0, 355.0));
    w.MouseUp();
    dragged := w.position;
  }

}
