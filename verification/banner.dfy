/**
 The FullScreenYouTube class: its constructor (argument defaults, the fixed
 aspect ratio and the argument check that decides whether the video loads)
 and `resizeVideoToContainer`, which sizes the player element once and again
 on every resize or orientation change.
 */
module Banner {
  import opened JsValues
  import CoverFit

  /** The two errors the argument check throws, each with its fixed message. */
  datatype ConstructionError = NoValidVideoUrl | NoValidElementId
  {
    function Message(): string
    {
      match this
      case NoValidVideoUrl => "[YouTubeBanner] No valid video URL was provided"
      case NoValidElementId => "[YouTubeBanner] you did not provide a valid ID for the element"
    }
  }

  /** A value, or the error that was thrown instead. */
  datatype Result<T> = Success(value: T) | Failure(error: ConstructionError)

  /** Element id used when no selector is given. */
  const DefaultSelector: string := "video"

  /** The fields a constructed banner holds. */
  datatype FullScreenYouTube = FullScreenYouTube(url: JsValue, selector: JsValue, container: JsValue, aspectRatio: real)

  /** What a banner that went on to load its video looks like: a truthy video id,
      a non-empty string element id, and the ratio 16/9. */
  predicate Loading(banner: FullScreenYouTube)
  {
    && Truthy(banner.url)
    && banner.selector.Str? && |banner.selector.s| > 0
    && banner.aspectRatio == CoverFit.AspectRatio
  }

  /** `_checkElementExists`. Its first guard, which throws the URL message,
      tests whether the url is truthy and whether the SELECTOR is a string; the
      type of the url is never examined. The second guard throws the element
      message for a selector that is falsy or not a string. `Success` means it
      goes on to load the video. */
  function CheckElementExists(url: JsValue, selector: JsValue): (r: Result<()>)
    ensures r.Success? <==> Truthy(url) && selector.Str? && |selector.s| > 0
    ensures r == Failure(NoValidVideoUrl) <==> !Truthy(url) || !selector.Str?
    ensures r == Failure(NoValidElementId) <==> Truthy(url) && selector == Str("")
  {
    if !Truthy(url) || !(TypeOf(selector) == "string") then
      Failure(NoValidVideoUrl)
    else if !Truthy(selector) || !(TypeOf(selector) == "string") then
      Failure(NoValidElementId)
    else
      Success(())
  }

  /** The constructor. An omitted argument is `Undefined`. The selector defaults
      to "video" and the container to `false`, each only when its argument is
      `undefined`; the ratio is fixed at 16/9; then the check runs. */
  function Construct(url: JsValue, selector: JsValue, container: JsValue): (r: Result<FullScreenYouTube>)
    ensures r.Success? <==> Truthy(url) && (selector == Undefined || (selector.Str? && |selector.s| > 0))
    ensures r == Failure(NoValidVideoUrl) <==> !Truthy(url) || (selector != Undefined && !selector.Str?)
    ensures r == Failure(NoValidElementId) <==> Truthy(url) && selector == Str("")
    ensures r.Success? ==> Loading(r.value) && r.value.url == url
    ensures r.Success? && selector == Undefined ==> r.value.selector == Str(DefaultSelector)
    ensures r.Success? && selector != Undefined ==> r.value.selector == selector
    ensures r.Success? && container == Undefined ==> r.value.container == Bool(false)
    ensures r.Success? && container != Undefined ==> r.value.container == container
  {
    var banner := FullScreenYouTube(
      url, WithDefault(selector, Str(DefaultSelector)), WithDefault(container, Bool(false)), CoverFit.AspectRatio);
    match CheckElementExists(banner.url, banner.selector)
    case Success(_) => Success(banner)
    case Failure(e) => Failure(e)
  }

  /** A selector that is not a string yields the URL message whatever the url,
      even a valid video id. */
  lemma NonStringSelectorGivesUrlError(url: JsValue, selector: JsValue)
    requires !selector.Str?
    ensures CheckElementExists(url, selector) == Failure(NoValidVideoUrl)
    ensures CheckElementExists(url, selector).error.Message() == "[YouTubeBanner] No valid video URL was provided"
  {
  }

  /** The URL message wins when both the url and the selector are bad. */
  lemma UrlErrorTakesPrecedence(url: JsValue, selector: JsValue)
    requires !Truthy(url)
    ensures CheckElementExists(url, selector) == Failure(NoValidVideoUrl)
  {
  }

  /** The url's type is never checked: any two truthy urls, a number as well as
      a string, get the same verdict, and with a good selector both pass. */
  lemma UrlTypeIgnored(url: JsValue, other: JsValue, selector: JsValue)
    requires Truthy(url) && Truthy(other)
    ensures CheckElementExists(url, selector) == CheckElementExists(other, selector)
    ensures selector == Str(DefaultSelector) ==> CheckElementExists(Num(42.0), selector).Success?
  {
  }

  /** An explicit `null` selector is not replaced by the default, so it is
      rejected with the URL message; an omitted one becomes "video". */
  lemma NullSelectorIsNotDefaulted(url: JsValue, container: JsValue)
    ensures Construct(url, Null, container) == Failure(NoValidVideoUrl)
    ensures Truthy(url) ==> Construct(url, Undefined, container).Success?
  {
  }

  /** A snapshot of the two boxes `resizeElement` can measure: the window's
      inner size and the container's offset size. */
  datatype Layout = Layout(innerWidth: real, innerHeight: real, offsetWidth: real, offsetHeight: real)

  /** Sizes a browser reports are never negative. */
  predicate Measured(layout: Layout)
  {
    && layout.innerWidth >= 0.0 && layout.innerHeight >= 0.0
    && layout.offsetWidth >= 0.0 && layout.offsetHeight >= 0.0
  }

  /** The box `resizeElement` reads as (width, height): the window for any
      falsy container (the default `false`, but also `null`, `0` or ""), the
      container otherwise. */
  function OuterBox(banner: FullScreenYouTube, layout: Layout): (box: (real, real))
    ensures !Truthy(banner.container) ==> box == (layout.innerWidth, layout.innerHeight)
    ensures Truthy(banner.container) ==> box == (layout.offsetWidth, layout.offsetHeight)
    ensures banner.container == Bool(false) ==> box == (layout.innerWidth, layout.innerHeight)
  {
    if !Truthy(banner.container) then (layout.innerWidth, layout.innerHeight)
    else (layout.offsetWidth, layout.offsetHeight)
  }

  /** One run of `resizeElement` for the banner in the given layout. */
  function Fit(banner: FullScreenYouTube, layout: Layout): CoverFit.Placement
    requires Loading(banner) && Measured(layout)
  {
    CoverFit.ResizeElement(OuterBox(banner, layout).0, OuterBox(banner, layout).1, banner.aspectRatio)
  }

  /** `resizeVideoToContainer`: `resizeElement` runs once in the initial layout,
      then once per resize or orientation-change event, each run overwriting all
      four numbers. The final placement depends only on the last layout seen and
      covers, at the banner's ratio and edge to edge, that layout's window when
      the container is falsy and the container otherwise. */
  method ResizeVideoToContainer(banner: FullScreenYouTube, initial: Layout, events: seq<Layout>)
    returns (style: CoverFit.Placement)
    requires Loading(banner) && Measured(initial)
    requires forall i :: 0 <= i < |events| ==> Measured(events[i])
    ensures var last := if |events| == 0 then initial else events[|events| - 1];
      && style == Fit(banner, last)
      && style.width == CoverFit.AspectRatio * style.height
      && (!Truthy(banner.container) ==> style.width >= last.innerWidth && style.height >= last.innerHeight)
      && (Truthy(banner.container) ==> style.width >= last.offsetWidth && style.height >= last.offsetHeight)
    ensures var last := if |events| == 0 then initial else events[|events| - 1];
      && style.left <= 0.0 && style.top <= 0.0
      && (!Truthy(banner.container) ==>
            style.left + style.width >= last.innerWidth && style.top + style.height >= last.innerHeight)
      && (Truthy(banner.container) ==>
            style.left + style.width >= last.offsetWidth && style.top + style.height >= last.offsetHeight)
  {
    style := Fit(banner, initial);
    var i := 0;
    while i < |events|
      invariant 0 <= i <= |events|
      invariant style == Fit(banner, if i == 0 then initial else events[i - 1])
    {
      style := Fit(banner, events[i]);
      i := i + 1;
    }
    var last := if |events| == 0 then initial else events[|events| - 1];
    CoverFit.ResizeCoversBox(OuterBox(banner, last).0, OuterBox(banner, last).1, banner.aspectRatio);
    CoverFit.ResizeKeepsAspectRatio(OuterBox(banner, last).0, OuterBox(banner, last).1, banner.aspectRatio);
    CoverFit.ResizeOffsetsNonPositive(OuterBox(banner, last).0, OuterBox(banner, last).1, banner.aspectRatio);
    CoverFit.ResizeFarEdgesCover(OuterBox(banner, last).0, OuterBox(banner, last).1, banner.aspectRatio);
  }
}
