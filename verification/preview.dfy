/**
 * What the Instagram section previews: the current carousel item, the
 * thumbnail chosen by the fallback chain preview, url, set thumbnail, and the
 * proxied source handed to the `<img>` or `<video>` element. Media bytes are
 * only ever requested through the backend's proxy endpoints.
 */
module Preview {
  import opened Wrappers
  import opened Urls
  import opened Session

  /** `current`: the item under the cursor, or `null` when the index is outside the items. */
  function Current(s: State): (r: Option<Media>)
    ensures r.Some? <==> 0 <= s.igIndex < |Medias(s)|
    ensures r.Some? ==> r.value == Medias(s)[s.igIndex]
  {
    if 0 <= s.igIndex < |Medias(s)| then Some(Medias(s)[s.igIndex]) else None
  }

  /** JavaScript's `a || b || …` over strings: the first non-empty candidate, else "". */
  function FirstNonEmpty(cs: seq<string>): (r: string)
    ensures r == "" <==> forall i :: 0 <= i < |cs| ==> cs[i] == ""
    ensures r != "" ==> exists k :: 0 <= k < |cs| && cs[k] == r && forall j :: 0 <= j < k ==> cs[j] == ""
  {
    if |cs| == 0 then ""
    else if cs[0] != "" then cs[0]
    else FirstNonEmpty(cs[1..])
  }

  /** The candidates of the thumbnail chain, in priority order; absent values are "". */
  function ThumbCandidates(s: State): seq<string> {
    var cur := Current(s);
    [ if cur.Some? then cur.value.preview else "",
      if cur.Some? then cur.value.url else "",
      if s.igData.Some? then s.igData.value.thumbnail else "" ]
  }

  /** `rawThumb`: the item's preview, else its url, else the set's thumbnail, else "". */
  function RawThumb(s: State): (r: string)
    ensures Current(s).Some? && Current(s).value.preview != "" ==> r == Current(s).value.preview
    ensures Current(s).Some? && Current(s).value.preview == "" && Current(s).value.url != "" ==>
      r == Current(s).value.url
    ensures (Current(s).None? || (Current(s).value.preview == "" && Current(s).value.url == "")) ==>
      r == (if s.igData.Some? then s.igData.value.thumbnail else "")
    ensures r == "" <==>
      && (Current(s).None? || (Current(s).value.preview == "" && Current(s).value.url == ""))
      && (s.igData.None? || s.igData.value.thumbnail == "")
  {
    var cs := ThumbCandidates(s);
    var r := FirstNonEmpty(cs);
    assert r == "" <==> cs[0] == "" && cs[1] == "" && cs[2] == "";
    r
  }

  /** The request target that proxies `url` through the backend. */
  function Proxied(e: Endpoint, url: string, enc: string -> string): Target {
    Target(e, [Param("url", enc(url))])
  }

  lemma ProxiedUrl(e: Endpoint, url: string, enc: string -> string)
    ensures Render(Proxied(e, url, enc)) == (Origin + PathOf(e) + "?url=") + enc(url)
    ensures Render(Proxied(e, url, enc)) != ""
  {
    RenderOne(e, Param("url", enc(url)));
    assert Origin + PathOf(e) + "?" + "url" + "=" + enc(url) == (Origin + PathOf(e) + "?url=") + enc(url);
  }

  /** `thumbSrc`: "" when there is nothing to show, else the thumbnail through the image proxy. */
  function ThumbSrc(s: State, enc: string -> string): (r: string)
    ensures r == "" <==> RawThumb(s) == ""
    ensures r != "" ==> r == Render(Proxied(ProxyImage, RawThumb(s), enc))
    ensures r != "" ==> r == (Origin + "/proxy-image?url=") + enc(RawThumb(s))
  {
    var raw := RawThumb(s);
    if raw == "" then ""
    else
      ProxiedUrl(ProxyImage, raw, enc);
      Render(Proxied(ProxyImage, raw, enc))
  }

  datatype PreviewSource = NoPreview | VideoPreview(src: string) | ImagePreview(src: string)

  /**
   * The preview element of the Instagram section: shown only on the Instagram
   * platform, once data has arrived and nothing is loading, and only when
   * there is a current item. A video item plays its own url through the video
   * proxy; any other item shows `thumbSrc`.
   */
  function PreviewOf(s: State, enc: string -> string): (r: PreviewSource)
    ensures r != NoPreview <==>
      s.platform == Instagram && s.igData.Some? && !s.loading && Current(s).Some?
    ensures r.VideoPreview? <==> r != NoPreview && Current(s).value.kind == VideoItem
    ensures r.VideoPreview? ==> r.src == Render(Proxied(ProxyVideo, Current(s).value.url, enc))
    ensures r.ImagePreview? ==> r.src == ThumbSrc(s, enc)
  {
    if s.platform != Instagram || s.igData.None? || s.loading then NoPreview
    else
      match Current(s)
      case None => NoPreview
      case Some(cur) =>
        if cur.kind == VideoItem then VideoPreview(Render(Proxied(ProxyVideo, cur.url, enc)))
        else ImagePreview(ThumbSrc(s, enc))
  }

  predicate StartsWith(s: string, prefix: string) {
    |prefix| <= |s| && s[..|prefix|] == prefix
  }

  /** Every preview the section shows is fetched through one of the backend's proxies. */
  lemma PreviewGoesThroughProxy(s: State, enc: string -> string)
    ensures PreviewOf(s, enc).VideoPreview? ==> StartsWith(PreviewOf(s, enc).src, Origin + "/proxy-video?url=")
    ensures PreviewOf(s, enc).ImagePreview? && PreviewOf(s, enc).src != "" ==>
      StartsWith(PreviewOf(s, enc).src, Origin + "/proxy-image?url=")
  {
    var r := PreviewOf(s, enc);
    if r.VideoPreview? {
      var u := enc(Current(s).value.url);
      ProxiedUrl(ProxyVideo, Current(s).value.url, enc);
      assert r.src == (Origin + "/proxy-video?url=") + u;
      assert r.src[..|Origin + "/proxy-video?url="|] == Origin + "/proxy-video?url=";
    } else if r.ImagePreview? && r.src != "" {
      var p := Origin + "/proxy-image?url=";
      assert r.src == p + enc(RawThumb(s));
      assert r.src[..|p|] == p;
    }
  }
}
