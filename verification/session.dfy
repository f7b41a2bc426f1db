/**
 * The client's session state (the `useState` hooks of `App`) as one immutable
 * record, and the transitions its event handlers make: the platform switch,
 * link and media-type edits, and the start and resolution of a metadata fetch
 * for either platform.
 *
 * A fetch is split into two transitions: `StartYoutube`/`StartInstagram` (the
 * synchronous part before the first `await`) and `ResolveYoutube`/
 * `ResolveInstagram` (everything after the network answered). The resolution
 * is applied to whatever the state is when the answer arrives: the client
 * keeps no request token, so nothing ties an answer to the fetch that asked.
 */
module Session {
  import opened Wrappers
  import opened Urls

  datatype Platform = YouTube | Instagram
  datatype MediaType = Video | Audio
  datatype IgType = Post | Reel | Story

  /** One downloadable encoding; only `id` takes part in the session logic. */
  datatype Format = Format(id: string, ext: string)

  /** Body of a `/info` answer. A missing or falsy `error` is "". */
  datatype YtData = YtData(
    error: string,
    title: string,
    thumbnail: string,
    videoFormats: Option<seq<Format>>,
    audioFormats: Option<seq<Format>>)

  datatype MediaKind = VideoItem | ImageItem

  /** One carousel item; a missing `url` or `preview` is "". */
  datatype Media = Media(kind: MediaKind, url: string, preview: string)

  /** Body of an `/instagram-info` answer. `count` is display-only. */
  datatype IgData = IgData(
    error: string,
    title: string,
    count: int,
    thumbnail: string,
    medias: Option<seq<Media>>)

  /**
   * How a fetch ended: a response whose `ok` is false, a parsed JSON body, or
   * an exception thrown by `fetch`, `res.text()` or `res.json()`.
   */
  datatype Response<D> = HttpNotOk | Json(body: D) | Failed

  datatype State = State(
    platform: Platform,
    link: string,
    loading: bool,
    error: string,
    ytInfo: Option<YtData>,
    ytVideoFormats: seq<Format>,
    ytAudioFormats: seq<Format>,
    mediaType: MediaType,
    igType: IgType,
    igData: Option<IgData>,
    igIndex: int)

  /** The state the component mounts with. */
  const Initial: State :=
    State(YouTube, "", false, "", None, [], [], Video, Post, None, 0)

  const YtServerError: string := "Server error while fetching YouTube info"
  const YtFetchFailed: string := "Failed to fetch video info"
  const IgServerError: string := "Server error while fetching Instagram media"
  const IgFetchFailed: string := "Failed to fetch Instagram media"

  function IgTypeName(t: IgType): string {
    match t
    case Post => "post"
    case Reel => "reel"
    case Story => "story"
  }

  /** The carousel items on display: `igData?.medias || []`. */
  function Medias(s: State): (r: seq<Media>)
    ensures s.igData.None? ==> r == []
    ensures s.igData.Some? && s.igData.value.medias.None? ==> r == []
    ensures s.igData.Some? && s.igData.value.medias.Some? ==> r == s.igData.value.medias.value
  {
    if s.igData.Some? then s.igData.value.medias.GetOr([]) else []
  }

  /** Every field outside the two result groups and the request status. */
  predicate SameSettings(s: State, r: State) {
    && r.platform == s.platform
    && r.link == s.link
    && r.mediaType == s.mediaType
    && r.igType == s.igType
  }

  // ------------------------------------------------------------ user edits

  /** Choosing a platform in the navbar: a hard reset of everything else. */
  function SwitchPlatform(s: State, p: Platform): (r: State)
    ensures r.platform == p
    ensures r.link == "" && r.error == "" && !r.loading
    ensures r.ytInfo == None && r.ytVideoFormats == [] && r.ytAudioFormats == []
    ensures r.mediaType == Video
    ensures r.igType == Post && r.igData == None && r.igIndex == 0
  {
    State(p, "", false, "", None, [], [], Video, Post, None, 0)
  }

  /** Typing in the link field. */
  function EditLink(s: State, v: string): (r: State)
    ensures r.link == v
    ensures r.(link := s.link) == s
  {
    s.(link := v)
  }

  /** The Video / Audio toggle: it only chooses which list is displayed. */
  function ChooseMediaType(s: State, m: MediaType): (r: State)
    ensures r.mediaType == m
    ensures r.(mediaType := s.mediaType) == s
  {
    s.(mediaType := m)
  }

  // ------------------------------------------------------------ YouTube fetch

  /** The synchronous start of a YouTube fetch; blocked (no change) on an empty link. */
  function StartYoutube(s: State): (r: State)
    ensures s.link == "" ==> r == s
    ensures s.link != "" ==>
      && r.loading && r.error == ""
      && r.ytInfo == None && r.ytVideoFormats == [] && r.ytAudioFormats == []
      && SameSettings(s, r) && r.igData == s.igData && r.igIndex == s.igIndex
  {
    if s.link == "" then s
    else s.(loading := true, error := "", ytInfo := None, ytVideoFormats := [], ytAudioFormats := [])
  }

  /** The request a YouTube fetch issues, if it issues one. */
  function YoutubeInfoRequest(s: State, enc: string -> string): (r: Option<Target>)
    ensures r.Some? <==> s.link != ""
    ensures r.Some? ==> r.value.endpoint == Info && r.value.query == [Param("url", enc(s.link))]
    ensures r.Some? ==> Render(r.value) == Origin + "/info?url=" + enc(s.link)
  {
    if s.link == "" then None else Some(Target(Info, [Param("url", enc(s.link))]))
  }

  /** The continuation of a YouTube fetch once the network answered. */
  function ResolveYoutube(s: State, resp: Response<YtData>): (r: State)
    ensures !r.loading
    ensures SameSettings(s, r) && r.igData == s.igData && r.igIndex == s.igIndex
    ensures resp.HttpNotOk? ==> r == s.(loading := false, error := YtServerError)
    ensures resp.Failed? ==> r == s.(loading := false, error := YtFetchFailed)
    ensures resp.Json? && resp.body.error != "" ==> r == s.(loading := false, error := resp.body.error)
    ensures resp.Json? && resp.body.error == "" ==>
      && r.ytInfo == Some(resp.body) && r.error == s.error
      && r.ytVideoFormats == (if resp.body.videoFormats.Some? then resp.body.videoFormats.value else [])
      && r.ytAudioFormats == (if resp.body.audioFormats.Some? then resp.body.audioFormats.value else [])
  {
    match resp
    case HttpNotOk => s.(loading := false, error := YtServerError)
    case Failed => s.(loading := false, error := YtFetchFailed)
    case Json(data) =>
      if data.error != "" then s.(loading := false, error := data.error)
      else s.(loading := false, ytInfo := Some(data),
              ytVideoFormats := data.videoFormats.GetOr([]),
              ytAudioFormats := data.audioFormats.GetOr([]))
  }

  // ------------------------------------------------------------ Instagram fetch

  /** The synchronous start of an Instagram fetch; blocked (no change) on an empty link. */
  function StartInstagram(s: State): (r: State)
    ensures s.link == "" ==> r == s
    ensures s.link != "" ==>
      && r.loading && r.error == "" && r.igData == None
      && SameSettings(s, r) && r.igIndex == s.igIndex
      && r.ytInfo == s.ytInfo && r.ytVideoFormats == s.ytVideoFormats && r.ytAudioFormats == s.ytAudioFormats
  {
    if s.link == "" then s
    else s.(loading := true, error := "", igData := None)
  }

  /** The request an Instagram fetch issues, if it issues one. */
  function InstagramInfoRequest(s: State, enc: string -> string): (r: Option<Target>)
    ensures r.Some? <==> s.link != ""
    ensures r.Some? ==>
      && r.value.endpoint == InstagramInfo
      && r.value.query == [Param("url", enc(s.link)), Param("type", IgTypeName(s.igType))]
    ensures r.Some? ==>
      Render(r.value) == Origin + "/instagram-info?url=" + enc(s.link) + "&type=" + IgTypeName(s.igType)
  {
    if s.link == "" then None
    else
      var url, kind := Param("url", enc(s.link)), Param("type", IgTypeName(s.igType));
      RenderTwo(InstagramInfo, url, kind);
      Some(Target(InstagramInfo, [url, kind]))
  }

  /** The continuation of an Instagram fetch once the network answered. */
  function ResolveInstagram(s: State, resp: Response<IgData>): (r: State)
    ensures !r.loading
    ensures SameSettings(s, r)
    ensures r.ytInfo == s.ytInfo && r.ytVideoFormats == s.ytVideoFormats && r.ytAudioFormats == s.ytAudioFormats
    ensures resp.HttpNotOk? ==> r == s.(loading := false, error := IgServerError)
    ensures resp.Failed? ==> r == s.(loading := false, error := IgFetchFailed)
    ensures resp.Json? && resp.body.error != "" ==> r == s.(loading := false, error := resp.body.error)
    ensures resp.Json? && resp.body.error == "" ==>
      r.igData == Some(resp.body) && r.igIndex == 0 && r.error == s.error
  {
    match resp
    case HttpNotOk => s.(loading := false, error := IgServerError)
    case Failed => s.(loading := false, error := IgFetchFailed)
    case Json(data) =>
      if data.error != "" then s.(loading := false, error := data.error)
      else s.(loading := false, igData := Some(data), igIndex := 0)
  }
}
