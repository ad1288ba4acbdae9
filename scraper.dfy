/**
 * research/scraper.py: the path filter, the per-page scrape with its browser
 * page opened and closed around it, and the rate-limited collection loop.
 * The browser is a class that records what is done to it; what a page
 * yields when loaded comes from a function parameter.
 */
module Scraper {
  import opened Common
  import opened Text

  const BaseUrl: string := "https://www.bokio.se"
  /** `delay_between_requests`, in seconds. */
  const DelayBetweenRequests: nat := 3
  /** The pause after navigation for lazy-loaded content, in seconds. */
  const LazyLoadWait: nat := 2
  const MainTextLimit: nat := 2000

  const PagesToScrape: seq<string> := ["/", "/priser", "/funktioner", "/om-bokio", "/support"]
  const KnownDisallowed: seq<string> := ["/bin/", "/config/", "/umbraco/", "/views/", "/sbf-back-office/"]

  // ---------------------------------------------------------------------
  // check_can_fetch
  // ---------------------------------------------------------------------

  /** The `for disallowed in ...` loop: false at the first listed prefix of `path`. */
  function NotDisallowed(disallowed: seq<string>, path: string): (ok: bool)
    ensures ok <==> forall i :: 0 <= i < |disallowed| ==> !StartsWith(path, disallowed[i])
  {
    if disallowed == [] then true
    else if StartsWith(path, disallowed[0]) then false
    else
      assert forall i :: 1 <= i < |disallowed| ==> disallowed[i] == disallowed[1..][i - 1];
      NotDisallowed(disallowed[1..], path)
  }

  /** `check_can_fetch(path)`. */
  function CheckCanFetch(path: string): (ok: bool)
    ensures !ok <==>
              (exists i :: 0 <= i < |KnownDisallowed| && StartsWith(path, KnownDisallowed[i]))
              || StartsWith(path, "/login") || StartsWith(path, "/dashboard")
  {
    if !NotDisallowed(KnownDisallowed, path) then false
    else if StartsWith(path, "/login") || StartsWith(path, "/dashboard") then false
    else true
  }

  /** Every configured page passes the filter. */
  lemma ConfiguredPagesAllowed()
    ensures forall i :: 0 <= i < |PagesToScrape| ==> CheckCanFetch(PagesToScrape[i])
  {
    forall i | 0 <= i < |PagesToScrape| ensures CheckCanFetch(PagesToScrape[i]) {
      var p := PagesToScrape[i];
      forall j | 0 <= j < |KnownDisallowed| ensures !StartsWith(p, KnownDisallowed[j]) {
        var d := KnownDisallowed[j];
        if |d| <= |p| {
          assert p[..|d|][1] != d[1] || p[..|d|][2] != d[2];
        }
      }
      assert !StartsWith(p, "/login") by {
        if |p| >= 6 { assert p[..6][1] != 'l'; }
      }
      assert !StartsWith(p, "/dashboard") by {
        if |p| >= 10 { assert p[..10][1] != 'd'; }
      }
    }
  }

  // ---------------------------------------------------------------------
  // The browser and what a page yields
  // ---------------------------------------------------------------------

  /** What the browser is asked to do, in order. */
  datatype Event =
    | OpenPage(path: string)
    | Goto(url: string)
    | Sleep(seconds: nat)
    | Screenshot(file: string)
    | ClosePage(path: string)
    | CloseBrowser

  /** The main-content element: missing, or present with its text. */
  datatype MainContent = NoMain | MainText(text: string)

  /**
   * What loading a page does: navigation raises, reading the page raises,
   * the screenshot raises after the page was read, or the page is read and
   * its screenshot taken.
   */
  datatype LoadOutcome =
    | GotoFailed
    | ExtractFailed
    | ScreenshotFailed
    | Loaded(title: string, metaDescription: Option<string>, h1: seq<string>, h2: seq<string>, main: MainContent)

  datatype PageData = PageData(
    url: string, path: string, title: string, metaDescription: Option<string>,
    h1: seq<string>, h2: seq<string>, mainText: Option<string>, screenshot: string)

  class Browser {
    var trace: seq<Event>
    var openPages: nat

    constructor()
      ensures trace == [] && openPages == 0
    {
      trace := [];
      openPages := 0;
    }

    method NewPage(path: string)
      modifies this
      ensures trace == old(trace) + [OpenPage(path)] && openPages == old(openPages) + 1
    {
      trace := trace + [OpenPage(path)];
      openPages := openPages + 1;
    }

    method Navigate(url: string)
      modifies this
      ensures trace == old(trace) + [Goto(url)] && openPages == old(openPages)
    {
      trace := trace + [Goto(url)];
    }

    method Wait(seconds: nat)
      modifies this
      ensures trace == old(trace) + [Sleep(seconds)] && openPages == old(openPages)
    {
      trace := trace + [Sleep(seconds)];
    }

    method TakeScreenshot(file: string)
      modifies this
      ensures trace == old(trace) + [Screenshot(file)] && openPages == old(openPages)
    {
      trace := trace + [Screenshot(file)];
    }

    method ReleasePage(path: string)
      requires openPages > 0
      modifies this
      ensures trace == old(trace) + [ClosePage(path)] && openPages == old(openPages) - 1
    {
      trace := trace + [ClosePage(path)];
      openPages := openPages - 1;
    }

    method Close()
      modifies this
      ensures trace == old(trace) + [CloseBrowser] && openPages == old(openPages)
    {
      trace := trace + [CloseBrowser];
    }
  }

  // ---------------------------------------------------------------------
  // scrape_page
  // ---------------------------------------------------------------------

  /** `f"screenshot{path.replace('/', '_')}.png"` (the output directory in front is not modelled). */
  function ScreenshotName(path: string): (name: string)
    ensures |name| == |path| + 14
    ensures '/' !in name
    ensures name[..10] == "screenshot" && name[|name| - 4..] == ".png"
    ensures forall i :: 0 <= i < |path| ==> name[10 + i] == if path[i] == '/' then '_' else path[i]
  {
    var middle := ReplaceChar(path, '/', '_');
    assert '/' !in middle;
    var name := "screenshot" + middle + ".png";
    assert forall i :: 0 <= i < |path| ==> name[10 + i] == middle[i];
    name
  }

  lemma RootScreenshotName()
    ensures ScreenshotName("/") == "screenshot_.png"
  {
    assert ReplaceChar("/", '/', '_') == "_";
  }

  /** `text[:2000]` */
  function Truncate(text: string): (r: string)
    ensures |r| == Min(|text|, MainTextLimit)
    ensures |text| <= MainTextLimit ==> r == text
    ensures r == text[..|r|]
  {
    if |text| <= MainTextLimit then text else text[..MainTextLimit]
  }

  /** The record `scrape_page` returns for a page that loaded. */
  function PageRecord(path: string, outcome: LoadOutcome): (d: PageData)
    requires outcome.Loaded?
    ensures d.path == path && d.url == BaseUrl + path
    ensures d.mainText.Some? <==> outcome.main.MainText?
    ensures d.mainText == match outcome.main case NoMain => None case MainText(t) => Some(Truncate(t))
    ensures d.mainText.Some? ==> |d.mainText.value| <= MainTextLimit
    ensures d.title == outcome.title && d.metaDescription == outcome.metaDescription
    ensures d.h1 == outcome.h1 && d.h2 == outcome.h2
    ensures d.screenshot == ScreenshotName(path)
  {
    PageData(BaseUrl + path, path, outcome.title, outcome.metaDescription, outcome.h1, outcome.h2,
             match outcome.main case NoMain => None case MainText(t) => Some(Truncate(t)),
             ScreenshotName(path))
  }

  /** What `scrape_page` returns. */
  function ScrapeResult(path: string, outcome: LoadOutcome): Option<PageData> {
    if !CheckCanFetch(path) then None
    else if outcome.Loaded? then Some(PageRecord(path, outcome))
    else None
  }

  /** What `scrape_page` does to the browser. */
  function PageEvents(path: string, outcome: LoadOutcome): seq<Event> {
    if !CheckCanFetch(path) then []
    else
      [OpenPage(path), Goto(BaseUrl + path)] + Middle(path, outcome) + [ClosePage(path)]
  }

  /** How many events of a kind a trace holds. */
  function Count(events: seq<Event>, kind: Event -> bool): nat {
    if events == [] then 0 else (if kind(events[0]) then 1 else 0) + Count(events[1..], kind)
  }

  lemma {:induction false} CountAppend(a: seq<Event>, b: seq<Event>, kind: Event -> bool)
    ensures Count(a + b, kind) == Count(a, kind) + Count(b, kind)
    decreases |a|
  {
    if a != [] {
      assert (a + b)[1..] == a[1..] + b;
      CountAppend(a[1..], b, kind);
    } else {
      assert a + b == b;
    }
  }

  predicate IsOpen(e: Event) { e.OpenPage? }
  predicate IsClose(e: Event) { e.ClosePage? }
  predicate IsDelay(e: Event) { e == Sleep(DelayBetweenRequests) }

  /** The events between navigating and closing the page. */
  function Middle(path: string, outcome: LoadOutcome): seq<Event> {
    match outcome
    case GotoFailed => []
    case ExtractFailed => [Sleep(LazyLoadWait)]
    case ScreenshotFailed | Loaded(_, _, _, _, _) => [Sleep(LazyLoadWait), Screenshot(ScreenshotName(path))]
  }

  lemma MiddleCounts(path: string, outcome: LoadOutcome)
    ensures Count(Middle(path, outcome), IsOpen) == 0
    ensures Count(Middle(path, outcome), IsClose) == 0
    ensures Count(Middle(path, outcome), IsDelay) == 0
  {
    var m := Middle(path, outcome);
    match outcome {
      case GotoFailed =>
      case ExtractFailed =>
        assert m[1..] == [];
      case ScreenshotFailed | Loaded(_, _, _, _, _) =>
        var shot := Screenshot(ScreenshotName(path));
        assert m == [Sleep(LazyLoadWait)] + [shot];
        CountAppend([Sleep(LazyLoadWait)], [shot], IsOpen);
        CountAppend([Sleep(LazyLoadWait)], [shot], IsClose);
        CountAppend([Sleep(LazyLoadWait)], [shot], IsDelay);
    }
  }

  /**
   * A rejected path never opens a page; otherwise the page is opened first,
   * closed last, and opened and closed exactly once whatever the outcome.
   */
  lemma PageOpenedAndClosedOnce(path: string, outcome: LoadOutcome)
    ensures !CheckCanFetch(path) ==> PageEvents(path, outcome) == []
    ensures CheckCanFetch(path) ==>
              var e := PageEvents(path, outcome);
              && e[0] == OpenPage(path) && e[|e| - 1] == ClosePage(path)
              && Count(e, IsOpen) == 1 && Count(e, IsClose) == 1
  {
    if CheckCanFetch(path) {
      var front: seq<Event> := [OpenPage(path), Goto(BaseUrl + path)];
      var m := Middle(path, outcome);
      EventCounts(front, m, [ClosePage(path)], path, outcome);
    }
  }

  lemma EventCounts(front: seq<Event>, m: seq<Event>, back: seq<Event>, path: string, outcome: LoadOutcome)
    requires front == [OpenPage(path), Goto(BaseUrl + path)] && m == Middle(path, outcome)
    requires back == [ClosePage(path)]
    ensures Count(front + m + back, IsOpen) == 1 && Count(front + m + back, IsClose) == 1
    ensures Count(front + m + back, IsDelay) == 0
  {
    MiddleCounts(path, outcome);
    CountAppend(front + m, back, IsOpen);
    CountAppend(front, m, IsOpen);
    CountAppend(front + m, back, IsClose);
    CountAppend(front, m, IsClose);
    CountAppend(front + m, back, IsDelay);
    CountAppend(front, m, IsDelay);
    assert front[1..][1..] == [];
  }

  /**
   * The part of `scrape_page`'s `try` after navigation: the lazy-load wait,
   * reading the page and the screenshot, each of which may raise.
   */
  method ReadPage(browser: Browser, path: string, outcome: LoadOutcome) returns (result: Option<PageData>)
    modifies browser
    ensures result == if outcome.Loaded? then Some(PageRecord(path, outcome)) else None
    ensures browser.trace == old(browser.trace) + Middle(path, outcome)
    ensures browser.openPages == old(browser.openPages)
  {
    result := None;
    if outcome.GotoFailed? {
      return;
    }
    browser.Wait(LazyLoadWait);
    if outcome.ExtractFailed? {
      return;
    }
    browser.TakeScreenshot(ScreenshotName(path));
    if outcome.Loaded? {
      result := Some(PageRecord(path, outcome));
    }
  }

  /** `scrape_page(browser, path)`, with `load` standing for the page's navigation and extraction. */
  method ScrapePage(browser: Browser, path: string, load: string -> LoadOutcome) returns (result: Option<PageData>)
    modifies browser
    ensures result == ScrapeResult(path, load(path))
    ensures browser.trace == old(browser.trace) + PageEvents(path, load(path))
    ensures browser.openPages == old(browser.openPages)
  {
    if !CheckCanFetch(path) {
      return None;
    }
    var outcome := load(path);
    ghost var start := browser.trace;
    browser.NewPage(path);
    browser.Navigate(BaseUrl + path);
    ghost var navigated := browser.trace;
    result := ReadPage(browser, path, outcome);
    ghost var read := browser.trace;
    browser.ReleasePage(path);
    assert navigated == start + [OpenPage(path), Goto(BaseUrl + path)];
    assert read == navigated + Middle(path, outcome);
  }

  // ---------------------------------------------------------------------
  // run
  // ---------------------------------------------------------------------

  /** The results `run` collects from the first pages: every page that produced a record. */
  function Collected(pages: seq<string>, load: string -> LoadOutcome): seq<PageData> {
    if pages == [] then []
    else
      var last := pages[|pages| - 1];
      Collected(pages[..|pages| - 1], load) +
      (match ScrapeResult(last, load(last)) case None => [] case Some(d) => [d])
  }

  /** The browser events of `run`'s loop: a delay before every page but the first. */
  function LoopEvents(pages: seq<string>, load: string -> LoadOutcome): seq<Event> {
    if pages == [] then []
    else
      var last := pages[|pages| - 1];
      LoopEvents(pages[..|pages| - 1], load) +
      (if |pages| > 1 then [Sleep(DelayBetweenRequests)] else []) +
      PageEvents(last, load(last))
  }

  /** One more page: what the loop adds to the results and to the trace. */
  lemma LoopStep(pages: seq<string>, i: nat, load: string -> LoadOutcome)
    requires i < |pages|
    ensures Collected(pages[..i + 1], load) ==
            Collected(pages[..i], load) + (match ScrapeResult(pages[i], load(pages[i])) case None => [] case Some(d) => [d])
    ensures LoopEvents(pages[..i + 1], load) ==
            LoopEvents(pages[..i], load) + (if i > 0 then [Sleep(DelayBetweenRequests)] else []) + PageEvents(pages[i], load(pages[i]))
  {
    assert pages[..i + 1][..i] == pages[..i];
  }

  /** `run()`: scrape each configured page in turn, pausing between requests, then close the browser. */
  method Run(browser: Browser, load: string -> LoadOutcome) returns (results: seq<PageData>)
    modifies browser
    ensures results == Collected(PagesToScrape, load)
    ensures browser.trace == old(browser.trace) + LoopEvents(PagesToScrape, load) + [CloseBrowser]
    ensures browser.openPages == old(browser.openPages)
  {
    results := ScrapeAll(browser, PagesToScrape, load);
    browser.Close();
  }

  /** The loop of `run`, over the pages it is given. */
  method ScrapeAll(browser: Browser, pages: seq<string>, load: string -> LoadOutcome) returns (results: seq<PageData>)
    modifies browser
    ensures results == Collected(pages, load)
    ensures browser.trace == old(browser.trace) + LoopEvents(pages, load)
    ensures browser.openPages == old(browser.openPages)
  {
    results := [];
    ghost var start := browser.trace;
    for i := 0 to |pages|
      invariant results == Collected(pages[..i], load)
      invariant browser.trace == start + LoopEvents(pages[..i], load)
      invariant browser.openPages == old(browser.openPages)
    {
      LoopStep(pages, i, load);
      ghost var gap: seq<Event> := if i > 0 then [Sleep(DelayBetweenRequests)] else [];
      ghost var events := PageEvents(pages[i], load(pages[i]));
      if i > 0 {
        browser.Wait(DelayBetweenRequests);
      }
      assert browser.trace == start + LoopEvents(pages[..i], load) + gap;
      var result := ScrapePage(browser, pages[i], load);
      EventsAssociate(start, LoopEvents(pages[..i], load), gap, events);
      if result.Some? {
        results := results + [result.value];
      }
      assert results == Collected(pages[..i + 1], load);
    }
    assert pages[..|pages|] == pages;
  }

  /** Appending the trace of one more step regroups freely. */
  lemma EventsAssociate(start: seq<Event>, done: seq<Event>, gap: seq<Event>, events: seq<Event>)
    ensures start + done + gap + events == start + (done + gap + events)
  {
  }

  /** The results listed front to back: the pages that produced a record, in configured order. */
  function Successes(pages: seq<string>, load: string -> LoadOutcome): seq<PageData> {
    if pages == [] then []
    else
      (match ScrapeResult(pages[0], load(pages[0])) case None => [] case Some(d) => [d]) +
      Successes(pages[1..], load)
  }

  lemma {:induction false} SuccessesAppend(a: seq<string>, b: seq<string>, load: string -> LoadOutcome)
    ensures Successes(a + b, load) == Successes(a, load) + Successes(b, load)
    decreases |a|
  {
    if a != [] {
      assert (a + b)[1..] == a[1..] + b;
      SuccessesAppend(a[1..], b, load);
    } else {
      assert a + b == b;
    }
  }

  /**
   * `run` keeps the successful pages in configured order and drops the
   * rejected and failed ones.
   */
  lemma {:induction false} CollectedInOrder(pages: seq<string>, load: string -> LoadOutcome)
    ensures Collected(pages, load) == Successes(pages, load)
    ensures forall k :: 0 <= k < |Collected(pages, load)| ==> CheckCanFetch(Collected(pages, load)[k].path)
    decreases |pages|
  {
    if pages != [] {
      var init, last := pages[..|pages| - 1], pages[|pages| - 1];
      CollectedInOrder(init, load);
      assert pages == init + [last];
      SuccessesAppend(init, [last], load);
      assert [last][1..] == [];
    }
  }

  lemma NoDelayInPage(path: string, outcome: LoadOutcome)
    ensures Count(PageEvents(path, outcome), IsDelay) == 0
  {
    if CheckCanFetch(path) {
      EventCounts([OpenPage(path), Goto(BaseUrl + path)], Middle(path, outcome), [ClosePage(path)], path, outcome);
    }
  }

  /** Requests are spaced: `n` pages see `n - 1` delays. */
  lemma {:induction false} DelaysBetweenPages(pages: seq<string>, load: string -> LoadOutcome)
    ensures Count(LoopEvents(pages, load), IsDelay) == if pages == [] then 0 else |pages| - 1
    decreases |pages|
  {
    if pages != [] {
      var init, last := pages[..|pages| - 1], pages[|pages| - 1];
      DelaysBetweenPages(init, load);
      var gap: seq<Event> := if |pages| > 1 then [Sleep(DelayBetweenRequests)] else [];
      CountAppend(LoopEvents(init, load), gap, IsDelay);
      CountAppend(LoopEvents(init, load) + gap, PageEvents(last, load(last)), IsDelay);
      NoDelayInPage(last, load(last));
    }
  }
}
