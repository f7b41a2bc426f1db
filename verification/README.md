# Downloadables client session — a Dafny model

Downloadables is a single-page client: the user picks a platform (YouTube or
Instagram), pastes a link, fetches the link's metadata from a local backend,
browses what came back (a list of video and audio formats, or a carousel of
Instagram items) and starts a download by navigating to a backend URL.

This project models the session logic inside the `App` component
(`src/App.jsx`) as one immutable `State` record and one pure function per
event:

- `wrappers.dfy` — `Option`, the model's `null`.
- `urls.dfy` — backend endpoints, the URL strings the client builds
  (`Render`), and a parser (`ParseTarget`) proved to read every well-formed
  URL back (`ParseRender`), so that rendering is injective.
- `session.dfy` — the state record, the platform switch, link and media-type
  edits, and both metadata fetches, each split into a start (before the
  `await`) and a resolution (after the network answered).
- `carousel.dfy` — the wrap-around cursor with JavaScript's `%`, and the dot
  buttons.
- `preview.dfy` — the current item, the thumbnail fallback chain and the
  proxied preview sources.
- `downloads.dfy` — the two download actions, returning the navigation
  target instead of assigning `window.location.href`.
- `machine.dfy` — all events as one step function, runs of events, and the
  invariant every reachable state keeps. Events are not restricted to the
  section on screen, and an answer may arrive without a pending fetch. The
  reachable states are therefore a superset of the real ones, and the
  invariant holds even so.

`encodeURIComponent` is a parameter `enc: string -> string` of every
builder. Nothing is assumed about it except where a lemma says so, for
example that its output contains no `&`. A missing or falsy string field of a
response is modelled as `""`, because the code only ever tests such fields
for truthiness. `x || []` on an array is `Option.GetOr([])`: an empty array is
truthy in JavaScript.

A fetch ends in one of three ways (`Response`): `HttpNotOk` is a response
whose `ok` is false. `Json(body)` is a parsed body. `Failed` is an exception
from `fetch`, `res.text()` or `res.json()`. Whether a body is an error is
decided as the code decides it: by a non-empty `error` field.

## Behaviour worth knowing

In each case below, the model states what the code does. Where that differs
from what a reader would expect, the expected behaviour is also stated.

- **No supersession.** A request-token scheme would discard the answers of
  superseded requests. The code keeps no token, so a resolution is applied to
  whatever the state is when it arrives.
  `Machine.EarlierAnswerOverwritesLater` shows an earlier fetch's late answer
  replacing the later fetch's data. `Machine.LateAnswerEndsOtherLoading`
  shows an Instagram answer ending the loading state of a YouTube fetch that
  is still in flight.
- **Blank links pass the gate.** A whitespace-only link is not rejected.
  The code tests `!link`, so only `""` is rejected (`Downloads.BlankLinkIsAccepted`).
- **The format id is not encoded.** One would expect both the link and the
  format id to be query-encoded. The code encodes only the link.
  `Downloads.UnencodedFormatIdSplitsQuery` shows an id containing `&` turning
  into extra query parameters.
- **The Instagram kind cannot be chosen.** The download routes cover post,
  reel and story, but the component has no control that sets `igType`;
  it is only ever reset to `"post"`. `Machine.StoryRouteUnreachable` proves
  that no reachable state downloads through the story route.
- **The cursor is not cleared when the items go.** The index is not reset to
  0 when the list empties. The code leaves `igIndex` alone when an
  Instagram fetch starts or fails. Only a successful fetch and a platform
  switch reset it. The invariant that does hold is weaker: the index is
  non-negative, and it is in range whenever there are items (`Machine.Inv`).
- **No explicit status.** There is no `idle | loading | success | error`
  field. The status is the pair `loading` / `error` plus the presence of
  result data.

## Model

| member | source | states |
|---|---|---|
| Session.SwitchPlatform | src/App.jsx:23-40 | choosing a platform sets that platform and puts every other field back to its mount value: empty link and error, not loading, no info, empty format lists, video, post, no Instagram data, index 0 |
| Machine.SwitchForgetsHistory | src/App.jsx:23-40 | the switch is a hard reset: any two states switch to the same state, even when the platform does not change, and switching to YouTube gives exactly the mount state |
| Session.EditLink | src/App.jsx:177 | typing replaces the link and changes nothing else |
| Session.ChooseMediaType | src/App.jsx:215-228 | the Video/Audio toggle changes only which list is shown |
| Session.StartYoutube | src/App.jsx:43-53 | without a link nothing changes; otherwise loading starts, the error is cleared, the YouTube info and both lists are cleared, and the Instagram data, cursor and settings are kept |
| Session.YoutubeInfoRequest | src/App.jsx:56-58 | a request is issued exactly when there is a link, to `/info` with the encoded link as `url` |
| Session.ResolveYoutube | src/App.jsx:60-82 | every outcome ends loading and leaves Instagram state and settings alone; a non-ok response shows the fixed server-error message; an exception shows the fixed fetch-failed message; a body error is shown verbatim; a good body becomes the info and its lists, or empty lists when absent, without touching the error |
| Machine.YoutubeFetchCycle | src/App.jsx:43-83 | after start and any answer: not loading, info present exactly for a good body, an error shown exactly when no info is, lists equal to the answer's lists in order or empty |
| Session.StartInstagram | src/App.jsx:100-108 | without a link nothing changes; otherwise loading starts, the error and the Instagram data are cleared, and the YouTube results, cursor and settings are kept |
| Session.InstagramInfoRequest | src/App.jsx:111-115 | a request is issued exactly when there is a link, to `/instagram-info` with the encoded link and the kind name as `type` |
| Session.ResolveInstagram | src/App.jsx:117-138 | every outcome ends loading and leaves the YouTube results and settings alone; fixed messages for a non-ok response and an exception, a body error verbatim, and a good body stored with the cursor back on the first item |
| Machine.InstagramFetchCycle | src/App.jsx:100-139 | after start and any answer: not loading, data present exactly for a good body, an error shown exactly when no data is, and a good body with items shows its first item |
| Carousel.Next | src/App.jsx:317-320 | a no-op on an empty list; otherwise the result is an index into the list |
| Carousel.Prev | src/App.jsx:312-315 | a no-op on an empty list; otherwise the result is an index into the list |
| Carousel.WrapAround | src/App.jsx:312-320 | from the first item `prev` gives the last, and from the last `next` gives the first |
| Carousel.PrevNextInverse | src/App.jsx:312-320 | `prev` undoes `next` and `next` undoes `prev` on every valid index |
| Carousel.NextFullCycle | src/App.jsx:317-320 | pressing `next` once per item returns to the starting item |
| Carousel.ThreeItems | src/App.jsx:312-320 | with three items, `prev` from 0 gives 2 and `next` from 2 gives 0 |
| Carousel.GoPrev | src/App.jsx:312-315 | the cursor moves one item back with wrap-around over the received items (`Prev`); nothing else changes, nothing at all without items, and the cursor stays within the items |
| Carousel.GoNext | src/App.jsx:317-320 | the cursor moves one item forward with wrap-around over the received items (`Next`); nothing else changes, nothing at all without items, and the cursor stays within the items |
| Carousel.JsRem | src/App.jsx:314-319 | JavaScript's `%` for a positive divisor: a non-negative dividend gives a remainder in `[0, n)`, and one already below `n` is returned unchanged |
| Session.Medias | src/App.jsx:296 | the carousel items are the received `medias`, and empty when there is no data or no `medias` |
| Urls.Render | src/App.jsx:94-96 | every URL the client builds starts with the backend origin; the `?`-query form shared by all template literals reads back through `ParseRender` |
| Machine.Step | src/App.jsx:169-451 | the controls' wiring: no event sets the Instagram kind to anything but `post`, only the navbar changes the platform, only typing and the navbar change the link, only fetches, answers and the navbar change loading, and only the navbar, Instagram answers and the carousel controls move the cursor |
| Carousel.NavigationIgnoresCount | src/App.jsx:312-320 | the announced `count` has no influence on navigation; only the received items bound it |
| Carousel.JumpTo | src/App.jsx:408-413 | a dot moves the cursor to its own item; an index with no dot changes nothing |
| Preview.Current | src/App.jsx:296-298 | the current item is the received item under the cursor, and there is none exactly when the cursor is outside the items |
| Preview.FirstNonEmpty | src/App.jsx:300-304 | a chain of string `||`: empty exactly when every candidate is, otherwise the first non-empty candidate |
| Preview.RawThumb | src/App.jsx:300-304 | the thumbnail is the item's preview, else its url, else the set thumbnail, and it is empty exactly when all three are |
| Preview.ThumbSrc | src/App.jsx:306-310 | empty exactly when the thumbnail is, otherwise the image proxy with the encoded thumbnail as `url` |
| Preview.PreviewOf | src/App.jsx:369-385 | a preview is shown exactly on the Instagram page with data, not loading, and a current item; a video item plays its url through the video proxy, any other item shows the thumbnail source |
| Preview.PreviewGoesThroughProxy | src/App.jsx:369-385 | every non-empty preview source is a URL of one of the backend's proxy endpoints |
| Downloads.DownloadFormat | src/App.jsx:85-97 | a target exists exactly when both the link and the format id are non-empty; it is `/download` with the encoded link as `url` and the raw id as `format` |
| Downloads.FormatTargetIgnoresSelection | src/App.jsx:85-97 | the format download depends on the link and the id only, not on the toggle or any other state |
| Downloads.FormatTargetReadsBack | src/App.jsx:94-96 | when neither the encoded link nor the id contains `&`, the download URL reads back as exactly the `url` and `format` parameters |
| Downloads.UnencodedFormatIdSplitsQuery | src/App.jsx:94-96 | an id `18&x=1` reads back as format `18` plus an extra parameter `x=1` |
| Downloads.DownloadInstagram | src/App.jsx:142-165 | a target exists exactly when there is a link; posts and reels go to the reel route, stories to the story route, always with the encoded link as the only parameter |
| Downloads.InstagramTargetIgnoresCarousel | src/App.jsx:142-165 | two states with the same link and kind download the same target, wherever the cursor is and whatever data is shown |
| Downloads.StoryExample | src/App.jsx:157-164 | with the kind set to `story`, the download uses the story route; no reachable state has that kind |
| Downloads.EmptyLinkBlocksEverything | src/App.jsx:43-146 | with an empty link neither fetch changes the state or issues a request, and neither download produces a target |
| Downloads.BlankLinkIsAccepted | src/App.jsx:44-47 | a link of one blank is accepted by both fetches and by the Instagram download |
| Urls.ParseRender | src/App.jsx:94-96 | every URL the client builds from separator-free parameters reads back as its endpoint and parameters |
| Urls.RenderInjective | src/App.jsx:94-96 | two well-formed targets with the same URL are the same target |
| Machine.RunKeepsInv | src/App.jsx:23-165 | every event keeps the invariant: cursor non-negative and within the items when there are any, no format list without its info, kind `post` |
| Machine.ReachableInv | src/App.jsx:5-20 | every state reachable from the mount state satisfies the invariant |
| Machine.CarouselAlwaysHasCurrent | src/App.jsx:296-298 | in every reachable state with items there is a current item |
| Machine.StoryRouteUnreachable | src/App.jsx:157-164 | no reachable state downloads through the story route |
| Machine.EarlierAnswerOverwritesLater | src/App.jsx:55-76 | with two overlapping YouTube fetches, the earlier fetch's answer arriving last is what stays |
| Machine.LateAnswerEndsOtherLoading | src/App.jsx:125-138 | an Instagram answer arriving after a switch to YouTube ends the loading of the YouTube fetch still in flight |
| Machine.YoutubeExample | src/App.jsx:68-96 | an answer with one video format `f1` shows one format, and downloading it asks for `f1` on the encoded link |
| Machine.ServerErrorExample | src/App.jsx:60-66 | a non-ok response shows the generic server-error message |

## Left out

- Network I/O. `fetch`, `res.text()`, `res.json()` and the `async`/`await` plumbing become the `Response` value given to a resolution.
- Side effects. `window.location.href` is not assigned: the download functions return the target. `alert` and `console.error` are dropped; a blocked action returns `None` and leaves the state unchanged.
- Percent-encoding. `encodeURIComponent` is a foreign function, so it is the opaque parameter `enc`.
- Rendering. The JSX, CSS classes, hero, footer, `new Date().getFullYear()` and the caption capitalisation are presentation. The only rendered parts modelled are the preview element and the dot buttons.
- The filesize display. `(f.filesize / 1024 / 1024).toFixed(1)` is floating-point formatting.
- Non-string JSON values. An `error` field that is not a string, a format id that is a number, or a body that is `null` are not modelled. Fields are strings, and a missing string is `""`.
- A missing item `url` on a video item. The code would encode `undefined` as the text `"undefined"`; the model encodes `""`.
- Non-integer indexes. JavaScript numbers are modelled as integers.
- Request supersession and timeouts. The code implements neither.
