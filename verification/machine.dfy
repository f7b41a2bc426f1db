/**
 * The component as a state machine: every event its handlers react to, the
 * step each one takes, and what holds in every state reachable from the
 * mount state. Fetch resolutions are events of their own and may arrive at
 * any time, in any order, as many as the network delivers.
 */
module Machine {
  import opened Wrappers
  import opened Urls
  import opened Session
  import opened Carousel
  import opened Preview
  import opened Downloads

  datatype Event =
    | SwitchTo(p: Platform)
    | TypeLink(v: string)
    | ToggleMedia(m: MediaType)
    | FetchYoutube
    | YoutubeAnswer(yt: Response<YtData>)
    | FetchInstagram
    | InstagramAnswer(ig: Response<IgData>)
    | PrevItem
    | NextItem
    | Dot(i: int)

  /**
   * The wiring of the controls to the handlers. No control sets the
   * Instagram kind, so it can only stay or be reset to `post`.
   */
  function Step(s: State, e: Event): (r: State)
    ensures r.igType == s.igType || r.igType == Post
    ensures r.platform != s.platform ==> e.SwitchTo?
    ensures r.link != s.link ==> e.TypeLink? || e.SwitchTo?
    ensures r.loading != s.loading ==>
      e.SwitchTo? || e.FetchYoutube? || e.FetchInstagram? || e.YoutubeAnswer? || e.InstagramAnswer?
    ensures r.igIndex != s.igIndex ==>
      e.SwitchTo? || e.InstagramAnswer? || e.PrevItem? || e.NextItem? || e.Dot?
  {
    match e
    case SwitchTo(p) => SwitchPlatform(s, p)
    case TypeLink(v) => EditLink(s, v)
    case ToggleMedia(m) => ChooseMediaType(s, m)
    case FetchYoutube => StartYoutube(s)
    case YoutubeAnswer(resp) => ResolveYoutube(s, resp)
    case FetchInstagram => StartInstagram(s)
    case InstagramAnswer(resp) => ResolveInstagram(s, resp)
    case PrevItem => GoPrev(s)
    case NextItem => GoNext(s)
    case Dot(i) => JumpTo(s, i)
  }

  function Run(s: State, es: seq<Event>): State
    decreases |es|
  {
    if |es| == 0 then s else Run(Step(s, es[0]), es[1..])
  }

  /**
   * What every reachable state satisfies: the cursor is a valid index into
   * the received items (or anything non-negative while there are none), no
   * format list outlives the info it came with, and the Instagram kind is
   * `post`, because no control of the component ever sets another one.
   */
  predicate Inv(s: State) {
    && 0 <= s.igIndex
    && (|Medias(s)| == 0 || s.igIndex < |Medias(s)|)
    && (s.ytInfo == None ==> s.ytVideoFormats == [] && s.ytAudioFormats == [])
    && s.igType == Post
  }

  lemma StepKeepsInv(s: State, e: Event)
    requires Inv(s)
    ensures Inv(Step(s, e))
  {
  }

  lemma {:induction false} RunKeepsInv(s: State, es: seq<Event>)
    requires Inv(s)
    ensures Inv(Run(s, es))
    decreases |es|
  {
    if |es| > 0 {
      StepKeepsInv(s, es[0]);
      RunKeepsInv(Step(s, es[0]), es[1..]);
    }
  }

  /** Five events, one after the other. */
  lemma RunFive(s: State, es: seq<Event>)
    requires |es| == 5
    ensures Run(s, es) == Step(Step(Step(Step(Step(s, es[0]), es[1]), es[2]), es[3]), es[4])
  {
    var s1 := Step(s, es[0]);
    var s2 := Step(s1, es[1]);
    var s3 := Step(s2, es[2]);
    var s4 := Step(s3, es[3]);
    assert Run(s, es) == Run(s1, es[1..]);
    assert Run(s1, es[1..]) == Run(s2, es[2..]);
    assert Run(s2, es[2..]) == Run(s3, es[3..]);
    assert Run(s3, es[3..]) == Run(s4, es[4..]);
    assert Run(s4, es[4..]) == Run(Step(s4, es[4]), []);
  }

  /** Every state the component can reach satisfies the invariant. */
  lemma ReachableInv(es: seq<Event>)
    ensures Inv(Run(Initial, es))
  {
    RunKeepsInv(Initial, es);
  }

  /** Whenever the carousel has items, there is a current item to preview. */
  lemma CarouselAlwaysHasCurrent(es: seq<Event>)
    ensures |Medias(Run(Initial, es))| > 0 ==> Current(Run(Initial, es)).Some?
  {
    ReachableInv(es);
  }

  /**
   * No reachable state downloads through the story route: the kind is never
   * changed from `post`, so every Instagram download goes to the reel route.
   */
  lemma StoryRouteUnreachable(es: seq<Event>, enc: string -> string)
    ensures DownloadInstagram(Run(Initial, es), enc).Some? ==>
      DownloadInstagram(Run(Initial, es), enc).value.endpoint == ReelDownload
  {
    ReachableInv(es);
  }

  /** Switching platform keeps nothing of the past: any two states switch to the same state. */
  lemma SwitchForgetsHistory(s: State, t: State, p: Platform)
    ensures SwitchPlatform(s, p) == SwitchPlatform(t, p)
    ensures SwitchPlatform(s, YouTube) == Initial
  {
  }

  /**
   * A YouTube fetch started from any state with a link and then answered:
   * loading has ended, an error shows exactly when no info does, and the
   * format lists are the answer's lists in order (empty when absent).
   */
  lemma YoutubeFetchCycle(s: State, resp: Response<YtData>)
    requires s.link != ""
    ensures var r := ResolveYoutube(StartYoutube(s), resp);
      && !r.loading
      && (r.ytInfo.Some? <==> resp.Json? && resp.body.error == "")
      && (r.error == "" <==> r.ytInfo.Some?)
      && (r.ytInfo.None? ==> r.ytVideoFormats == [] && r.ytAudioFormats == [])
      && (r.ytInfo.Some? ==> r.ytVideoFormats == resp.body.videoFormats.GetOr([]))
      && (r.ytInfo.Some? ==> r.ytAudioFormats == resp.body.audioFormats.GetOr([]))
      && (resp.HttpNotOk? ==> r.error == YtServerError)
      && (resp.Failed? ==> r.error == YtFetchFailed)
  {
  }

  /**
   * An Instagram fetch started from any state with a link and then answered:
   * loading has ended, an error shows exactly when no data does, and a
   * success shows its first item.
   */
  lemma InstagramFetchCycle(s: State, resp: Response<IgData>)
    requires s.link != ""
    ensures var r := ResolveInstagram(StartInstagram(s), resp);
      && !r.loading
      && (r.igData.Some? <==> resp.Json? && resp.body.error == "")
      && (r.error == "" <==> r.igData.Some?)
      && (r.igData.Some? ==> r.igIndex == 0)
      && (r.igData.Some? && |Medias(r)| > 0 ==> Current(r) == Some(Medias(r)[0]))
      && (resp.HttpNotOk? ==> r.error == IgServerError)
      && (resp.Failed? ==> r.error == IgFetchFailed)
  {
  }

  /**
   * There is no request token: when two YouTube fetches overlap and the
   * earlier one answers last, its answer is what stays on screen.
   */
  lemma EarlierAnswerOverwritesLater(s: State, l2: string, first: YtData, second: YtData)
    requires s.link != "" && l2 != ""
    requires first.error == "" && second.error == ""
    ensures Run(s, [FetchYoutube, TypeLink(l2), FetchYoutube,
                    YoutubeAnswer(Json(second)), YoutubeAnswer(Json(first))]).ytInfo == Some(first)
  {
    var es := [FetchYoutube, TypeLink(l2), FetchYoutube, YoutubeAnswer(Json(second)), YoutubeAnswer(Json(first))];
    RunFive(s, es);
  }

  /**
   * An answer is applied to whatever the state is when it arrives: an
   * Instagram answer landing after a switch to YouTube ends the loading of a
   * YouTube fetch that is still in flight.
   */
  lemma LateAnswerEndsOtherLoading(s: State, l: string, d: IgData)
    requires s.link != "" && l != ""
    ensures var r := Run(s, [FetchInstagram, SwitchTo(YouTube), TypeLink(l), FetchYoutube, InstagramAnswer(Json(d))]);
      r.platform == YouTube && !r.loading
  {
    var es := [FetchInstagram, SwitchTo(YouTube), TypeLink(l), FetchYoutube, InstagramAnswer(Json(d))];
    RunFive(s, es);
  }

  /**
   * The YouTube example: an answer with one video format `f1` shows one
   * format, and downloading it asks for `f1` on the encoded link.
   */
  lemma YoutubeExample(s: State, d: YtData, enc: string -> string)
    requires s.link == "https://y/x"
    requires d.error == "" && d.title == "T"
    requires d.videoFormats == Some([Format("f1", "mp4")]) && d.audioFormats == Some([])
    ensures var r := ResolveYoutube(StartYoutube(s), Json(d));
      && |r.ytVideoFormats| == 1
      && DownloadFormat(r, r.ytVideoFormats[0].id, enc).Some?
      && DownloadFormat(r, r.ytVideoFormats[0].id, enc).value.query
         == [Param("url", enc("https://y/x")), Param("format", "f1")]
  {
  }

  /** A server error shows the generic message, whatever the body said. */
  lemma ServerErrorExample(s: State)
    requires s.link != ""
    ensures ResolveYoutube(StartYoutube(s), HttpNotOk).error == "Server error while fetching YouTube info"
  {
  }
}
