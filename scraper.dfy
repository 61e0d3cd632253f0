/**
 * The media extraction rules of the scraper service
 * (backend/src/services/scraper.js).
 *
 * The fetched and parsed page is abstracted as the list, in document order, of
 * the elements the three selectors look at: `img`, `video` and `source` inside a
 * `video`, and `iframe`. Every attribute is either absent or a string. The
 * WHATWG URL parser used by `normalizeUrl` is a parameter `resolve` that either
 * returns the resolved `href` or reports that the constructor threw.
 */
module Scraper {
  import opened Wrappers
  import opened Media

  /** The value `$(el).attr(name)` returns: None when the attribute is absent. */
  type Attr = Option<string>

  datatype Element =
    | ImgTag(src: Attr, dataSrc: Attr, alt: Attr)
    | VideoTag(src: Attr)
    | VideoSourceTag(src: Attr)
    | IframeTag(src: Attr)

  /** One extracted reference, `{type, url, alt}`. */
  datatype MediaItem = MediaItem(kind: MediaType, url: string, alt: string)

  /** What the HTTP GET and the HTML parse produced: the page, or the message of the error thrown. */
  datatype Fetch = Fetched(page: seq<Element>) | FetchFailed(message: string)

  /** `new URL(src, base).href`, or None where the constructor throws. */
  type Resolver = (string, string) -> Option<string>

  /** `attr || ''`: the attribute's text, an absent attribute read as the empty string. */
  function Text(a: Attr): string {
    if a.Some? then a.value else ""
  }

  predicate StartsWith(s: string, prefix: string) {
    prefix <= s
  }

  /** `part` occurs in `s` starting at index `i`. */
  predicate OccursAt(s: string, part: string, i: int) {
    0 <= i && i + |part| <= |s| && s[i..i + |part|] == part
  }

  /** JavaScript's `s.includes(part)`: `part` starts `s` or occurs in its tail. */
  predicate Contains(s: string, part: string)
    decreases |s|
  {
    StartsWith(s, part) || (s != [] && Contains(s[1..], part))
  }

  /** `Contains` means an occurrence at some index. */
  lemma {:induction false} ContainsOccurs(s: string, part: string)
    ensures Contains(s, part) <==> exists i :: 0 <= i <= |s| && OccursAt(s, part, i)
    decreases |s|
  {
    assert OccursAt(s, part, 0) <==> StartsWith(s, part);
    if s != [] {
      var tail := s[1..];
      ContainsOccurs(tail, part);
      forall i | 0 < i <= |s|
        ensures OccursAt(s, part, i) <==> OccursAt(tail, part, i - 1)
      {
        if i + |part| <= |s| {
          assert s[i..i + |part|] == tail[i - 1..i - 1 + |part|];
        }
      }
      if Contains(tail, part) {
        var i :| 0 <= i <= |tail| && OccursAt(tail, part, i);
        assert OccursAt(s, part, i + 1);
      }
    }
  }

  /**
   * JavaScript's `s.length`: the number of UTF-16 code units, two for a
   * character outside the Basic Multilingual Plane.
   */
  function Utf16Length(s: string): nat {
    if s == [] then 0
    else Utf16Length(s[..|s| - 1]) + (if s[|s| - 1] as int > 0xFFFF then 2 else 1)
  }

  /** Every character takes one or two code units. */
  lemma {:induction false} Utf16LengthBounds(s: string)
    ensures |s| <= Utf16Length(s) <= 2 * |s|
  {
    if s != [] {
      Utf16LengthBounds(s[..|s| - 1]);
    }
  }

  /** `isValidUrl(src, baseUrl)`: rejects empty, `data:` and near-empty sources; the base is unused. */
  function IsValidUrl(src: string, baseUrl: string): (valid: bool)
    ensures valid <==> 5 <= Utf16Length(src) && !StartsWith(src, "data:")
  {
    if src == "" then false
    else if StartsWith(src, "data:") then false
    else if Utf16Length(src) < 5 then false
    else true
  }

  /** Characters outside the Basic Multilingual Plane count twice: two emoji and a letter make a valid source. */
  lemma AstralCharactersCountTwice()
    ensures IsValidUrl("\U{1F600}\U{1F600}a", "")
  {
    var s := "\U{1F600}\U{1F600}a";
    assert s[..1][..0] == [] && Utf16Length(s[..1]) == 2;
    assert s[..2][..1] == s[..1] && Utf16Length(s[..2]) == 4;
    assert s[..|s| - 1] == s[..2] && Utf16Length(s) == 5;
  }

  /** `normalizeUrl(src, baseUrl)`: the resolved absolute URL, or `src` itself when resolution fails. */
  function NormalizeUrl(resolve: Resolver, src: string, baseUrl: string): (url: string)
    ensures resolve(src, baseUrl).Some? ==> url == resolve(src, baseUrl).value
    ensures resolve(src, baseUrl).None? ==> url == src
  {
    match resolve(src, baseUrl)
    case Some(href) => href
    case None => src
  }

  /** `attr('src') || attr('data-src')`, read as text. */
  function ImageSource(src: Attr, dataSrc: Attr): string {
    if Text(src) != "" then Text(src) else Text(dataSrc)
  }

  /** The loose embedded-player heuristic applied to an iframe's `src`. */
  predicate IsPlayerFrame(src: string) {
    Contains(src, "youtube.com") || Contains(src, "vimeo.com") || Contains(src, "player")
  }

  /** The three scans of the page, in the order the service runs them. */
  datatype Pass = Images | Videos | Iframes

  /** The record one scan pushes for one element, if any. */
  function Emit(pass: Pass, e: Element, pageUrl: string, resolve: Resolver): Option<MediaItem> {
    match pass
    case Images =>
      if e.ImgTag? then
        var src := ImageSource(e.src, e.dataSrc);
        if src != "" && IsValidUrl(src, pageUrl)
        then Some(MediaItem(Image, NormalizeUrl(resolve, src, pageUrl), Text(e.alt)))
        else None
      else None
    case Videos =>
      if e.VideoTag? || e.VideoSourceTag? then
        var src := Text(e.src);
        if src != "" && IsValidUrl(src, pageUrl)
        then Some(MediaItem(Video, NormalizeUrl(resolve, src, pageUrl), ""))
        else None
      else None
    case Iframes =>
      if e.IframeTag? then
        var src := Text(e.src);
        if IsPlayerFrame(src) then Some(MediaItem(Video, src, "")) else None
      else None
  }

  function Emitted(o: Option<MediaItem>): seq<MediaItem> {
    if o.Some? then [o.value] else []
  }

  /** What one scan pushes over the whole page, in document order. */
  function Scan(pass: Pass, page: seq<Element>, pageUrl: string, resolve: Resolver): seq<MediaItem>
    decreases |page|
  {
    if page == [] then []
    else Scan(pass, page[..|page| - 1], pageUrl, resolve)
         + Emitted(Emit(pass, page[|page| - 1], pageUrl, resolve))
  }

  /** The list `scrapeUrl` returns for a page: images, then videos, then player frames. */
  function Extract(page: seq<Element>, pageUrl: string, resolve: Resolver): seq<MediaItem> {
    Scan(Images, page, pageUrl, resolve) + Scan(Videos, page, pageUrl, resolve)
    + Scan(Iframes, page, pageUrl, resolve)
  }

  /** The body of `scrapeUrl` after the parse: three passes pushing onto the local `media` list. */
  method ExtractMedia(page: seq<Element>, url: string, resolve: Resolver) returns (media: seq<MediaItem>)
    ensures media == Extract(page, url, resolve)
  {
    media := [];
    media := PushImages(page, url, resolve, media);
    media := PushVideos(page, url, resolve, media);
    media := PushFrames(page, url, resolve, media);
  }

  /** `$('img').each(...)`: pushes one image record per `img` with a valid source. */
  method PushImages(page: seq<Element>, url: string, resolve: Resolver, media0: seq<MediaItem>)
    returns (media: seq<MediaItem>)
    ensures media == media0 + Scan(Images, page, url, resolve)
  {
    media := media0;
    var i := 0;
    while i < |page|
      invariant 0 <= i <= |page|
      invariant media == media0 + Scan(Images, page[..i], url, resolve)
    {
      var el := page[i];
      if el.ImgTag? {
        var src := if Text(el.src) != "" then Text(el.src) else Text(el.dataSrc);
        var alt := Text(el.alt);
        if src != "" && IsValidUrl(src, url) {
          media := media + [MediaItem(Image, NormalizeUrl(resolve, src, url), alt)];
        }
      }
      ScanStep(Images, page, i, url, resolve);
      assert media0 + Scan(Images, page[..i + 1], url, resolve)
             == media0 + Scan(Images, page[..i], url, resolve) + Emitted(Emit(Images, el, url, resolve));
      i := i + 1;
    }
    assert page[..|page|] == page;
  }

  /** `$('video source, video').each(...)`: pushes one video record per element with a valid `src`. */
  method PushVideos(page: seq<Element>, url: string, resolve: Resolver, media0: seq<MediaItem>)
    returns (media: seq<MediaItem>)
    ensures media == media0 + Scan(Videos, page, url, resolve)
  {
    media := media0;
    var i := 0;
    while i < |page|
      invariant 0 <= i <= |page|
      invariant media == media0 + Scan(Videos, page[..i], url, resolve)
    {
      var el := page[i];
      if el.VideoTag? || el.VideoSourceTag? {
        var src := Text(el.src);
        if src != "" && IsValidUrl(src, url) {
          media := media + [MediaItem(Video, NormalizeUrl(resolve, src, url), "")];
        }
      }
      ScanStep(Videos, page, i, url, resolve);
      assert media0 + Scan(Videos, page[..i + 1], url, resolve)
             == media0 + Scan(Videos, page[..i], url, resolve) + Emitted(Emit(Videos, el, url, resolve));
      i := i + 1;
    }
    assert page[..|page|] == page;
  }

  /** `$('iframe').each(...)`: pushes the raw `src` of every frame that looks like a video player. */
  method PushFrames(page: seq<Element>, url: string, resolve: Resolver, media0: seq<MediaItem>)
    returns (media: seq<MediaItem>)
    ensures media == media0 + Scan(Iframes, page, url, resolve)
  {
    media := media0;
    var i := 0;
    while i < |page|
      invariant 0 <= i <= |page|
      invariant media == media0 + Scan(Iframes, page[..i], url, resolve)
    {
      var el := page[i];
      if el.IframeTag? {
        var src := Text(el.src);
        if Contains(src, "youtube.com") || Contains(src, "vimeo.com") || Contains(src, "player") {
          media := media + [MediaItem(Video, src, "")];
        }
      }
      ScanStep(Iframes, page, i, url, resolve);
      assert media0 + Scan(Iframes, page[..i + 1], url, resolve)
             == media0 + Scan(Iframes, page[..i], url, resolve) + Emitted(Emit(Iframes, el, url, resolve));
      i := i + 1;
    }
    assert page[..|page|] == page;
  }

  /** `scrapeUrl(url)`: the extracted list, or one error naming the URL; never a partial list. */
  method ScrapeUrl(url: string, fetch: Fetch, resolve: Resolver) returns (r: Result<seq<MediaItem>, string>)
    ensures fetch.Fetched? ==> r == Success(Extract(fetch.page, url, resolve))
    ensures fetch.FetchFailed? ==> r == Failure("Failed to scrape " + url + ": " + fetch.message)
  {
    match fetch
    case FetchFailed(message) =>
      r := Failure("Failed to scrape " + url + ": " + message);
    case Fetched(page) =>
      var media := ExtractMedia(page, url, resolve);
      r := Success(media);
  }

  // ---------------------------------------------------------------------------
  // Properties of the extraction rules

  /** One step of a scan: the element at `i` adds what it emits after the records of the elements before it. */
  lemma ScanStep(pass: Pass, page: seq<Element>, i: nat, pageUrl: string, resolve: Resolver)
    requires i < |page|
    ensures Scan(pass, page[..i + 1], pageUrl, resolve)
            == Scan(pass, page[..i], pageUrl, resolve) + Emitted(Emit(pass, page[i], pageUrl, resolve))
  {
    assert page[..i + 1][..i] == page[..i];
  }

  lemma ScanSingle(pass: Pass, e: Element, pageUrl: string, resolve: Resolver)
    ensures Scan(pass, [e], pageUrl, resolve) == Emitted(Emit(pass, e, pageUrl, resolve))
  {
    assert [e][..0] == [];
  }

  /** A nonempty page scans as its prefix followed by its last element. */
  lemma ScanLast(pass: Pass, page: seq<Element>, pageUrl: string, resolve: Resolver)
    requires page != []
    ensures Scan(pass, page, pageUrl, resolve)
            == Scan(pass, page[..|page| - 1], pageUrl, resolve) + Emitted(Emit(pass, page[|page| - 1], pageUrl, resolve))
  {
  }

  lemma AppendAssoc(x: seq<MediaItem>, y: seq<MediaItem>, z: seq<MediaItem>)
    ensures x + y + z == x + (y + z)
  {
  }

  /** A scan keeps document order: scanning two parts of a page is scanning each in turn. */
  lemma {:induction false} ScanAppend(pass: Pass, a: seq<Element>, b: seq<Element>, pageUrl: string, resolve: Resolver)
    ensures Scan(pass, a + b, pageUrl, resolve) == Scan(pass, a, pageUrl, resolve) + Scan(pass, b, pageUrl, resolve)
    decreases |b|
  {
    if b == [] {
      assert a + b == a;
    } else {
      var b' := b[..|b| - 1];
      ScanAppend(pass, a, b', pageUrl, resolve);
      assert (a + b)[..|a + b| - 1] == a + b';
      assert (a + b)[|a + b| - 1] == b[|b| - 1];
      ScanLast(pass, a + b, pageUrl, resolve);
      ScanLast(pass, b, pageUrl, resolve);
      AppendAssoc(Scan(pass, a, pageUrl, resolve), Scan(pass, b', pageUrl, resolve),
                  Emitted(Emit(pass, b[|b| - 1], pageUrl, resolve)));
    }
  }

  /** A record is in a scan's output exactly when some element of the page emits it. */
  lemma {:induction false} ScanMembers(pass: Pass, page: seq<Element>, pageUrl: string, resolve: Resolver)
    ensures forall m :: m in Scan(pass, page, pageUrl, resolve) <==>
      exists e :: e in page && Emit(pass, e, pageUrl, resolve) == Some(m)
    decreases |page|
  {
    if page != [] {
      var init := page[..|page| - 1];
      ScanMembers(pass, init, pageUrl, resolve);
      assert page == init + [page[|page| - 1]];
      forall e | e in page
        ensures e in init || e == page[|page| - 1]
      {
      }
    }
  }

  /** Image records: kind image, source `src` or else `data-src`, only valid sources, alt or ''. */
  lemma {:induction false} ImagesEmitted(page: seq<Element>, pageUrl: string, resolve: Resolver)
    ensures forall m :: m in Scan(Images, page, pageUrl, resolve) <==>
      exists e :: e in page && e.ImgTag? && IsValidUrl(ImageSource(e.src, e.dataSrc), pageUrl) &&
        m == MediaItem(Image, NormalizeUrl(resolve, ImageSource(e.src, e.dataSrc), pageUrl), Text(e.alt))
  {
    ScanMembers(Images, page, pageUrl, resolve);
  }

  /** Video records: one per `video` or `video source` whose `src` is valid, normalised, alt ''. */
  lemma {:induction false} VideosEmitted(page: seq<Element>, pageUrl: string, resolve: Resolver)
    ensures forall m :: m in Scan(Videos, page, pageUrl, resolve) <==>
      exists e :: e in page && (e.VideoTag? || e.VideoSourceTag?) && IsValidUrl(Text(e.src), pageUrl) &&
        m == MediaItem(Video, NormalizeUrl(resolve, Text(e.src), pageUrl), "")
  {
    ScanMembers(Videos, page, pageUrl, resolve);
  }

  /** Player-frame records: one per iframe whose `src` matches the heuristic, with that literal `src`. */
  lemma {:induction false} IframesEmitted(page: seq<Element>, pageUrl: string, resolve: Resolver)
    ensures forall m :: m in Scan(Iframes, page, pageUrl, resolve) <==>
      exists e :: e in page && e.IframeTag? && IsPlayerFrame(Text(e.src)) &&
        m == MediaItem(Video, Text(e.src), "")
    ensures !IsPlayerFrame("")
  {
    ScanMembers(Iframes, page, pageUrl, resolve);
  }

  /** The kind of every record a pass pushes. */
  function PassKind(pass: Pass): MediaType {
    if pass == Images then Image else Video
  }

  /** Every record of the image pass is an image; every record of the other two is a video. */
  lemma {:induction false} ScanKinds(pass: Pass, page: seq<Element>, pageUrl: string, resolve: Resolver)
    ensures forall m :: m in Scan(pass, page, pageUrl, resolve) ==> m.kind == PassKind(pass)
    decreases |page|
  {
    if page != [] {
      ScanKinds(pass, page[..|page| - 1], pageUrl, resolve);
    }
  }

  /** The output lists every image record before every video record. */
  lemma ExtractOrder(page: seq<Element>, pageUrl: string, resolve: Resolver)
    ensures var out := Extract(page, pageUrl, resolve);
      forall i, j :: 0 <= i < j < |out| && out[i].kind == Video ==> out[j].kind == Video
  {
    var images := Scan(Images, page, pageUrl, resolve);
    var rest := Scan(Videos, page, pageUrl, resolve) + Scan(Iframes, page, pageUrl, resolve);
    ScanKinds(Images, page, pageUrl, resolve);
    ScanKinds(Videos, page, pageUrl, resolve);
    ScanKinds(Iframes, page, pageUrl, resolve);
    var out := images + rest;
    assert out == Extract(page, pageUrl, resolve);
    forall k | 0 <= k < |out|
      ensures out[k].kind == Image <==> k < |images|
    {
      if k < |images| {
        assert out[k] == images[k];
      } else {
        assert out[k] == rest[k - |images|] && rest[k - |images|] in rest;
      }
    }
  }

  /** Each scanned element yields at most one record, so the output is no longer than the page. */
  lemma {:induction false} ExtractLength(page: seq<Element>, pageUrl: string, resolve: Resolver)
    ensures |Extract(page, pageUrl, resolve)| <= |page|
  {
    ScanLengths(page, pageUrl, resolve);
  }

  lemma {:induction false} ScanLengths(page: seq<Element>, pageUrl: string, resolve: Resolver)
    ensures |Scan(Images, page, pageUrl, resolve)| + |Scan(Videos, page, pageUrl, resolve)|
            + |Scan(Iframes, page, pageUrl, resolve)| <= |page|
    decreases |page|
  {
    if page != [] {
      ScanLengths(page[..|page| - 1], pageUrl, resolve);
    }
  }

  /**
   * The iframe rule skips the validity filter: a `data:` source that mentions
   * "player" is emitted as a video, raw.
   */
  lemma DataFrameEmitted(pageUrl: string, resolve: Resolver)
    ensures Extract([IframeTag(Some("data:text/html,player"))], pageUrl, resolve)
            == [MediaItem(Video, "data:text/html,player", "")]
  {
    var src := "data:text/html,player";
    assert OccursAt(src, "player", 15);
    ContainsOccurs(src, "player");
  }

  /** A three-element page yields what its elements emit, in order. */
  lemma ScanThree(pass: Pass, a: Element, b: Element, f: Element, pageUrl: string, resolve: Resolver)
    ensures Scan(pass, [a, b, f], pageUrl, resolve)
            == Emitted(Emit(pass, a, pageUrl, resolve)) + Emitted(Emit(pass, b, pageUrl, resolve))
               + Emitted(Emit(pass, f, pageUrl, resolve))
  {
    assert [a] + [b] == [a, b] && [a, b] + [f] == [a, b, f];
    ScanAppend(pass, [a], [b], pageUrl, resolve);
    ScanAppend(pass, [a, b], [f], pageUrl, resolve);
    ScanSingle(pass, a, pageUrl, resolve);
    ScanSingle(pass, b, pageUrl, resolve);
    ScanSingle(pass, f, pageUrl, resolve);
  }

  /** The player frame of the worked example below is emitted by the frame pass only. */
  lemma VimeoFrameEmitted(pageUrl: string, resolve: Resolver)
    ensures var frame := "https://vimeo.com/123";
      && Emit(Iframes, IframeTag(Some(frame)), pageUrl, resolve) == Some(MediaItem(Video, frame, ""))
      && Emit(Images, IframeTag(Some(frame)), pageUrl, resolve) == None
      && Emit(Videos, IframeTag(Some(frame)), pageUrl, resolve) == None
  {
    var frame := "https://vimeo.com/123";
    assert OccursAt(frame, "vimeo.com", 8);
    ContainsOccurs(frame, "vimeo.com");
  }

  /**
   * The two images of the worked example below: one with an absolute `src`
   * and an alt, one with only a relative `data-src`. Each is emitted, normalised,
   * by the image pass only.
   */
  lemma ExampleImagesEmitted(resolve: Resolver)
    ensures var pageUrl := "https://x.test/page";
      var a := ImgTag(Some("https://x.test/a.png"), None, Some("logo"));
      var b := ImgTag(None, Some("/img/a.png"), None);
      && Emit(Images, a, pageUrl, resolve)
         == Some(MediaItem(Image, NormalizeUrl(resolve, "https://x.test/a.png", pageUrl), "logo"))
      && Emit(Images, b, pageUrl, resolve) == Some(MediaItem(Image, NormalizeUrl(resolve, "/img/a.png", pageUrl), ""))
      && Emit(Videos, a, pageUrl, resolve) == None && Emit(Iframes, a, pageUrl, resolve) == None
      && Emit(Videos, b, pageUrl, resolve) == None && Emit(Iframes, b, pageUrl, resolve) == None
  {
    assert "https://x.test/a.png"[0] != "data:"[0];
    assert "/img/a.png"[0] != "data:"[0];
    Utf16LengthBounds("https://x.test/a.png");
    Utf16LengthBounds("/img/a.png");
  }

  /**
   * A page with an absolute and a relative image and a Vimeo player frame yields
   * exactly three records: both images, normalised, then the frame's literal URL.
   */
  lemma TwoImagesAndAFrame(resolve: Resolver)
    ensures var pageUrl := "https://x.test/page";
      Extract([ImgTag(Some("https://x.test/a.png"), None, Some("logo")),
               ImgTag(None, Some("/img/a.png"), None),
               IframeTag(Some("https://vimeo.com/123"))], pageUrl, resolve)
      == [MediaItem(Image, NormalizeUrl(resolve, "https://x.test/a.png", pageUrl), "logo"),
          MediaItem(Image, NormalizeUrl(resolve, "/img/a.png", pageUrl), ""),
          MediaItem(Video, "https://vimeo.com/123", "")]
  {
    var pageUrl := "https://x.test/page";
    var a := ImgTag(Some("https://x.test/a.png"), None, Some("logo"));
    var b := ImgTag(None, Some("/img/a.png"), None);
    var f := IframeTag(Some("https://vimeo.com/123"));
    ExampleImagesEmitted(resolve);
    VimeoFrameEmitted(pageUrl, resolve);
    ScanThree(Images, a, b, f, pageUrl, resolve);
    ScanThree(Videos, a, b, f, pageUrl, resolve);
    ScanThree(Iframes, a, b, f, pageUrl, resolve);
  }
}
