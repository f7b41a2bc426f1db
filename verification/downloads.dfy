/**
 * The download actions. Each builds the navigation target the handler would
 * assign to `window.location.href`, or `None` when the handler refuses (the
 * handler then shows an alert and navigates nowhere).
 */
module Downloads {
  import opened Wrappers
  import opened Urls
  import opened Session

  /**
   * `handleDownloadFormat`: needs a link and a format id. The link is
   * percent-encoded; the format id is inserted as it is.
   */
  function DownloadFormat(s: State, formatId: string, enc: string -> string): (r: Option<Target>)
    ensures r.Some? <==> s.link != "" && formatId != ""
    ensures r.Some? ==> r.value.endpoint == Download
    ensures r.Some? ==> r.value.query == [Param("url", enc(s.link)), Param("format", formatId)]
    ensures r.Some? ==> Render(r.value) == Origin + "/download?url=" + enc(s.link) + "&format=" + formatId
  {
    if s.link == "" then None
    else if formatId == "" then None
    else
      var url, format := Param("url", enc(s.link)), Param("format", formatId);
      RenderTwo(Download, url, format);
      Some(Target(Download, [url, format]))
  }

  /** The download route of each Instagram kind: posts and reels share one, stories have their own. */
  function RouteOf(t: IgType): Endpoint {
    match t
    case Post => ReelDownload
    case Reel => ReelDownload
    case Story => StoryDownload
  }

  /**
   * `handleDownloadInstagram`: needs a link; the route is chosen by the
   * Instagram kind, and the whole post or story is downloaded as one unit.
   */
  function DownloadInstagram(s: State, enc: string -> string): (r: Option<Target>)
    ensures r.Some? <==> s.link != ""
    ensures r.Some? ==> r.value.query == [Param("url", enc(s.link))]
    ensures r.Some? ==> (r.value.endpoint == StoryDownload <==> s.igType == Story)
    ensures r.Some? ==> (r.value.endpoint == ReelDownload <==> s.igType == Post || s.igType == Reel)
    ensures r.Some? && s.igType != Story ==>
      Render(r.value) == Origin + "/instagram-reel-instaloader?url=" + enc(s.link)
    ensures r.Some? && s.igType == Story ==>
      Render(r.value) == Origin + "/instagram-stories-instaloader?url=" + enc(s.link)
  {
    if s.link == "" then None
    else
      var url := Param("url", enc(s.link));
      RenderOne(RouteOf(s.igType), url);
      Some(Target(RouteOf(s.igType), [url]))
  }

  /** Nothing starts and nothing downloads without a link: the state stays as it was. */
  lemma EmptyLinkBlocksEverything(s: State, formatId: string, enc: string -> string)
    requires s.link == ""
    ensures StartYoutube(s) == s && YoutubeInfoRequest(s, enc) == None
    ensures StartInstagram(s) == s && InstagramInfoRequest(s, enc) == None
    ensures DownloadFormat(s, formatId, enc) == None
    ensures DownloadInstagram(s, enc) == None
  {
  }

  /** The link test is JavaScript truthiness: a link of blanks is not empty and goes through. */
  lemma BlankLinkIsAccepted(s: State, enc: string -> string)
    requires s.link == " "
    ensures StartYoutube(s).loading && YoutubeInfoRequest(s, enc).Some?
    ensures StartInstagram(s).loading && InstagramInfoRequest(s, enc).Some?
    ensures DownloadInstagram(s, enc).Some?
  {
  }

  /**
   * The Instagram target depends on the link and the kind only: the carousel
   * position, the received data and everything else play no part.
   */
  lemma InstagramTargetIgnoresCarousel(s: State, t: State, enc: string -> string)
    requires s.link == t.link && s.igType == t.igType
    ensures DownloadInstagram(s, enc) == DownloadInstagram(t, enc)
  {
  }

  /**
   * The format download depends on the link and the format id only: neither
   * the Video/Audio toggle nor the list the id was shown in matters.
   */
  lemma FormatTargetIgnoresSelection(s: State, t: State, formatId: string, enc: string -> string)
    requires s.link == t.link
    ensures DownloadFormat(s, formatId, enc) == DownloadFormat(t, formatId, enc)
  {
  }

  /**
   * When neither the encoded link nor the format id contains `&`, the
   * download URL reads back as exactly the two intended parameters.
   */
  lemma FormatTargetReadsBack(s: State, formatId: string, enc: string -> string)
    requires s.link != "" && formatId != ""
    requires '&' !in enc(s.link) && '&' !in formatId
    ensures ParseTarget(Render(DownloadFormat(s, formatId, enc).value))
         == Some(Target(Download, [Param("url", enc(s.link)), Param("format", formatId)]))
  {
    var t := DownloadFormat(s, formatId, enc).value;
    assert ParamOk(t.query[0]) && ParamOk(t.query[1]);
    ParseRender(t);
  }

  /**
   * The format id is not percent-encoded, so an id containing `&` ends the
   * `format` parameter early and the rest reads as further parameters.
   */
  lemma UnencodedFormatIdSplitsQuery(s: State, enc: string -> string)
    requires s.link != "" && '&' !in enc(s.link)
    ensures ParseTarget(Render(DownloadFormat(s, "18&x=1", enc).value))
         == Some(Target(Download, [Param("url", enc(s.link)), Param("format", "18"), Param("x", "1")]))
  {
    var u := enc(s.link);
    var q := "url=" + u + "&format=" + "18&x=1";
    assert Render(DownloadFormat(s, "18&x=1", enc).value) == Origin + PathOf(Download) + "?" + q;
    ParseWithPath(PathOf(Download), Download, q);
    ThreeParams(u);
  }

  lemma ThreeParams(u: string)
    requires '&' !in u
    ensures ParseQuery("url=" + u + "&format=" + "18&x=1")
         == [Param("url", u), Param("format", "18"), Param("x", "1")]
  {
    var ps := [Param("url", u), Param("format", "18"), Param("x", "1")];
    var parts := RenderedParams(ps);
    assert parts[1..][1..] == [RenderParam(ps[2])];
    assert JoinOn(parts[1..], '&') == RenderParam(ps[1]) + ['&'] + RenderParam(ps[2]);
    assert JoinOn(parts, '&') == RenderParam(ps[0]) + ['&'] + (RenderParam(ps[1]) + ['&'] + RenderParam(ps[2]));
    assert JoinOn(parts, '&') == "url=" + u + "&format=" + "18&x=1";
    assert ParamOk(ps[0]) && ParamOk(ps[1]) && ParamOk(ps[2]);
    ParseRenderQuery(ps);
  }

  /**
   * The story example: with the kind set to `story`, the download uses the
   * story route, never the reel route. No reachable state has that kind
   * (`Machine.StoryRouteUnreachable`).
   */
  lemma StoryExample(s: State, enc: string -> string)
    requires s.link == "https://instagram.com/stories/u/1" && s.igType == Story
    ensures DownloadInstagram(s, enc).Some?
    ensures DownloadInstagram(s, enc).value.endpoint == StoryDownload
  {
  }
}
