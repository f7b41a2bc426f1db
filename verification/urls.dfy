/**
 * Request and navigation targets of the client: an endpoint of the backend plus
 * a query string, rendered the way the client's template literals build them
 * (`<origin><path>?k1=v1&k2=v2`), and a parser that reads such a string back.
 * The parser is the partner of the renderer: rendering is injective on
 * targets whose keys and values cannot be confused with the separators.
 */
module Urls {
  import opened Wrappers

  /** The backend origin every request and navigation of the client goes to. */
  const Origin: string := "http://localhost:5000"

  datatype Endpoint =
    | Info            // YouTube metadata
    | Download        // YouTube format download
    | InstagramInfo   // Instagram metadata
    | ReelDownload    // Instagram post/reel download
    | StoryDownload   // Instagram story download
    | ProxyImage      // same-origin image proxy
    | ProxyVideo      // same-origin video proxy

  function PathOf(e: Endpoint): string {
    match e
    case Info => "/info"
    case Download => "/download"
    case InstagramInfo => "/instagram-info"
    case ReelDownload => "/instagram-reel-instaloader"
    case StoryDownload => "/instagram-stories-instaloader"
    case ProxyImage => "/proxy-image"
    case ProxyVideo => "/proxy-video"
  }

  /** The endpoint served at `path`, if any. */
  function EndpointAt(path: string): (r: Option<Endpoint>)
    ensures r.Some? ==> PathOf(r.value) == path
  {
    if path == "/info" then Some(Info)
    else if path == "/download" then Some(Download)
    else if path == "/instagram-info" then Some(InstagramInfo)
    else if path == "/instagram-reel-instaloader" then Some(ReelDownload)
    else if path == "/instagram-stories-instaloader" then Some(StoryDownload)
    else if path == "/proxy-image" then Some(ProxyImage)
    else if path == "/proxy-video" then Some(ProxyVideo)
    else None
  }

  datatype Param = Param(key: string, value: string)

  datatype Target = Target(endpoint: Endpoint, query: seq<Param>)

  // ---------------------------------------------------------------- splitting

  /** Position of the first `c` in `s`, or `|s|` when there is none. */
  function IndexOf(s: string, c: char): (k: nat)
    ensures k <= |s|
    ensures k < |s| ==> s[k] == c
    ensures forall j :: 0 <= j < k ==> s[j] != c
  {
    if |s| == 0 then 0
    else if s[0] == c then 0
    else 1 + IndexOf(s[1..], c)
  }

  lemma IndexOfFirst(a: string, c: char, b: string)
    requires c !in a
    ensures IndexOf(a + [c] + b, c) == |a|
  {
    var s := a + [c] + b;
    var k := IndexOf(s, c);
    assert s[|a|] == c;
    assert s[..|a|] == a;
  }

  /** The pieces of `s` between occurrences of `c`. */
  function SplitOn(s: string, c: char): (parts: seq<string>)
    ensures |parts| >= 1
    ensures forall i :: 0 <= i < |parts| ==> c !in parts[i]
    decreases |s|
  {
    var k := IndexOf(s, c);
    if k == |s| then [s]
    else [s[..k]] + SplitOn(s[k + 1..], c)
  }

  /** The pieces joined with `c` between consecutive ones. */
  function JoinOn(parts: seq<string>, c: char): (s: string)
    requires |parts| >= 1
    ensures |s| >= |parts[0]|
  {
    if |parts| == 1 then parts[0]
    else parts[0] + [c] + JoinOn(parts[1..], c)
  }

  /** Splitting undoes joining when no piece contains the separator. */
  lemma {:induction false} SplitJoin(parts: seq<string>, c: char)
    requires |parts| >= 1
    requires forall i :: 0 <= i < |parts| ==> c !in parts[i]
    ensures SplitOn(JoinOn(parts, c), c) == parts
  {
    if |parts| == 1 {
      assert IndexOf(parts[0], c) == |parts[0]|;
    } else {
      var tail := parts[1..];
      assert forall i :: 0 <= i < |tail| ==> tail[i] == parts[i + 1];
      SplitFirst(parts[0], c, JoinOn(tail, c));
      SplitJoin(tail, c);
      assert [parts[0]] + tail == parts;
    }
  }

  /** A piece free of the separator is split off whole. */
  lemma SplitFirst(a: string, c: char, rest: string)
    requires c !in a
    ensures SplitOn(a + [c] + rest, c) == [a] + SplitOn(rest, c)
  {
    var s := a + [c] + rest;
    IndexOfFirst(a, c, rest);
    assert s[..|a|] == a;
    assert s[|a| + 1..] == rest;
  }

  // ---------------------------------------------------------------- rendering

  function RenderParam(p: Param): string {
    p.key + "=" + p.value
  }

  function RenderedParams(ps: seq<Param>): (r: seq<string>)
    ensures |r| == |ps|
    ensures forall i :: 0 <= i < |ps| ==> r[i] == RenderParam(ps[i])
  {
    seq(|ps|, i requires 0 <= i < |ps| => RenderParam(ps[i]))
  }

  function RenderQuery(ps: seq<Param>): string {
    if |ps| == 0 then "" else JoinOn(RenderedParams(ps), '&')
  }

  /** The URL string of a target, as the client's template literals spell it. */
  function Render(t: Target): (r: string)
    ensures |Origin| <= |r| && r[..|Origin|] == Origin
  {
    Origin + PathOf(t.endpoint) + "?" + RenderQuery(t.query)
  }

  /** The URL of a one-parameter target, spelled out. */
  lemma RenderOne(e: Endpoint, p: Param)
    ensures Render(Target(e, [p])) == Origin + PathOf(e) + "?" + p.key + "=" + p.value
  {
  }

  /** The URL of a two-parameter target, spelled out. */
  lemma RenderTwo(e: Endpoint, p1: Param, p2: Param)
    ensures Render(Target(e, [p1, p2]))
         == Origin + PathOf(e) + "?" + p1.key + "=" + p1.value + "&" + p2.key + "=" + p2.value
  {
    var rs := RenderedParams([p1, p2]);
    assert rs == [RenderParam(p1), RenderParam(p2)];
    assert rs[1..] == [RenderParam(p2)];
    assert JoinOn(rs, '&') == RenderParam(p1) + ['&'] + RenderParam(p2);
    assert RenderQuery([p1, p2]) == p1.key + "=" + p1.value + "&" + p2.key + "=" + p2.value;
  }

  // ---------------------------------------------------------------- parsing

  /** A `key=value` pair split at its first `=`; a piece without `=` is a key with an empty value. */
  function ParseParam(s: string): Param {
    var k := IndexOf(s, '=');
    if k == |s| then Param(s, "") else Param(s[..k], s[k + 1..])
  }

  function ParseQuery(q: string): (ps: seq<Param>)
    ensures q == "" <==> |ps| == 0
  {
    if q == "" then []
    else
      var parts := SplitOn(q, '&');
      seq(|parts|, i requires 0 <= i < |parts| => ParseParam(parts[i]))
  }

  /** Reads a URL back into its endpoint and query parameters. */
  function ParseTarget(s: string): Option<Target> {
    if |s| < |Origin| || s[..|Origin|] != Origin then None
    else
      var rest := s[|Origin|..];
      var k := IndexOf(rest, '?');
      if k == |rest| then None
      else
        match EndpointAt(rest[..k])
        case None => None
        case Some(e) => Some(Target(e, ParseQuery(rest[k + 1..])))
  }

  /** A parameter that cannot be confused with the query-string separators. */
  predicate ParamOk(p: Param) {
    '&' !in p.key && '=' !in p.key && '&' !in p.value
  }

  predicate WellFormed(t: Target) {
    forall i :: 0 <= i < |t.query| ==> ParamOk(t.query[i])
  }

  lemma ParseRenderParam(p: Param)
    requires ParamOk(p)
    ensures ParseParam(RenderParam(p)) == p
  {
    IndexOfFirst(p.key, '=', p.value);
    var s := p.key + ['='] + p.value;
    assert RenderParam(p) == s;
    assert s[..|p.key|] == p.key;
    assert s[|p.key| + 1..] == p.value;
  }

  lemma ParseRenderQuery(ps: seq<Param>)
    requires forall i :: 0 <= i < |ps| ==> ParamOk(ps[i])
    ensures ParseQuery(RenderQuery(ps)) == ps
  {
    if |ps| > 0 {
      var rs := RenderedParams(ps);
      forall i | 0 <= i < |rs|
        ensures '&' !in rs[i]
      {
        assert rs[i] == ps[i].key + "=" + ps[i].value;
      }
      SplitJoin(rs, '&');
      var q := RenderQuery(ps);
      assert |rs[0]| > 0;
      assert q != "";
      var parsed := ParseQuery(q);
      forall i | 0 <= i < |ps|
        ensures parsed[i] == ps[i]
      {
        ParseRenderParam(ps[i]);
      }
    }
  }

  lemma PathHasNoQuestionMark(e: Endpoint)
    ensures '?' !in PathOf(e)
  {
  }

  lemma EndpointAtPathOf(e: Endpoint)
    ensures EndpointAt(PathOf(e)) == Some(e)
  {
    match e
    case Info =>
    case Download =>
    case InstagramInfo =>
    case ReelDownload =>
    case StoryDownload =>
    case ProxyImage =>
    case ProxyVideo =>
  }

  lemma ParseWithPath(path: string, e: Endpoint, q: string)
    requires path == PathOf(e)
    ensures ParseTarget(Origin + path + "?" + q) == Some(Target(e, ParseQuery(q)))
  {
    var s := Origin + path + "?" + q;
    assert s == Origin + (path + ['?'] + q);
    assert s[..|Origin|] == Origin;
    var rest := s[|Origin|..];
    assert rest == path + ['?'] + q;
    PathHasNoQuestionMark(e);
    IndexOfFirst(path, '?', q);
    assert rest[..|path|] == path;
    assert rest[|path| + 1..] == q;
    EndpointAtPathOf(e);
  }

  /** Parsing recovers every well-formed target from its rendering. */
  lemma ParseRender(t: Target)
    requires WellFormed(t)
    ensures ParseTarget(Render(t)) == Some(t)
  {
    ParseWithPath(PathOf(t.endpoint), t.endpoint, RenderQuery(t.query));
    ParseRenderQuery(t.query);
  }

  /** Two well-formed targets with the same URL are the same target. */
  lemma RenderInjective(t1: Target, t2: Target)
    requires WellFormed(t1) && WellFormed(t2)
    requires Render(t1) == Render(t2)
    ensures t1 == t2
  {
    ParseRender(t1);
    ParseRender(t2);
  }
}
