/**
 * The Wildberries search-result parser: the card matcher that finds an article
 * among the product cards of one result page, and the pagination loop that
 * walks pages 1, 2, 3, ... keeping a running item offset.
 *
 * The headless browser is not modelled. Each result page is an abstract
 * observation: the page said "nothing found", the page held product cards
 * (the sequence of their `data-nm-id` attributes, `None` where a card has
 * none), or loading the page raised a timeout or another error.
 */
module Parser {
  import opened Wrappers

  /** The `data-nm-id` attribute of one product card, `None` when absent. */
  type CardId = Option<string>

  /** What one visit of a search-result page shows. */
  datatype PageObservation =
    | NoResults                 // one of the "nothing found" messages is on the page
    | Cards(ids: seq<CardId>)   // the product cards, in page order
    | Timeout                   // the page raised the browser's timeout error
    | Failure                   // the page raised some other error

  /** Safe-search settings: whether the page cap applies, and the cap. */
  datatype Limits = Limits(safeSearch: bool, maxSafeSearch: int)

  /**
   * What `search_article_position` hands back: the pair
   * (position or None, timestamp), or the bare `None` that falls out of the
   * function after the safe-search `break`.
   */
  datatype SearchReturn = Pair(position: Option<nat>, timestamp: string) | NoneValue

  /** A call either returns a value or raises an exception with a message. */
  datatype Completion = Returned(value: SearchReturn) | Raised(message: string)

  /**
   * A run of the pagination loop over a finite sequence of observations:
   * either the source's loop has finished, or every observed page was passed
   * over and the loop would go on to a page that was not observed.
   */
  datatype Run = Finished(completion: Completion) | OutOfPages

  /** What the parser does to its browser session, in order. */
  datatype SessionEvent =
    | Launch                                  // the browser is launched
    | NewContext                              // a browsing context is created
    | NewPage                                 // a tab is opened
    | Goto(searchQuery: string, pageNum: nat) // the search URL for pageNum is opened
    | Extract(pageNum: nat)                   // the cards of the rendered page are read
    | CloseCalled                             // the parser's close() is called
    | BrowserClosed                           // the browser itself is closed

  /** Which step of `initialize` raises, if any. */
  datatype InitFault =
    | InitOk
    | LaunchFails(message: string)   // starting Playwright or launching Chromium raises
    | ContextFails(message: string)  // creating the context raises
    | PageFails(message: string)     // opening the tab raises

  /** The result of a run together with the session events it produced. */
  datatype ScanResult = ScanResult(run: Run, events: seq<SessionEvent>)

  // ---------------------------------------------------------------------
  // The card matcher
  // ---------------------------------------------------------------------

  /**
   * The 1-based index of the first card whose id is the article, or None.
   * A card with no id never matches.
   */
  function FirstIndexOf(cards: seq<CardId>, article: string): (p: Option<nat>)
    ensures p.Some? ==> 1 <= p.value <= |cards| && cards[p.value - 1] == Some(article)
    ensures p.Some? ==> forall j :: 0 <= j < p.value - 1 ==> cards[j] != Some(article)
    ensures p.None? <==> forall j :: 0 <= j < |cards| ==> cards[j] != Some(article)
  {
    if |cards| == 0 then None
    else if cards[0] == Some(article) then Some(1)
    else
      match FirstIndexOf(cards[1..], article)
      case None => None
      case Some(q) => Some(q + 1)
  }

  /** A page that shows cards, none of which is the article. */
  predicate Unmatched(page: PageObservation, article: string) {
    page.Cards? && FirstIndexOf(page.ids, article).None?
  }

  /** The number of cards on a page (zero on a page that shows none). */
  function ItemCount(page: PageObservation): nat {
    if page.Cards? then |page.ids| else 0
  }

  /** The total number of cards on the pages before index k. */
  function ItemsBefore(pages: seq<PageObservation>, k: nat): nat
    requires k <= |pages|
  {
    if k == 0 then 0 else ItemsBefore(pages, k - 1) + ItemCount(pages[k - 1])
  }

  // ---------------------------------------------------------------------
  // The pagination loop, as a function of the observed pages
  // ---------------------------------------------------------------------

  /**
   * The loop from the page at index k (page number k + 1) on, with `offset`
   * items already passed over. After an unmatched page the page number goes
   * up by one, and with safe search on the loop breaks once it exceeds the cap.
   */
  function ScanFrom(pages: seq<PageObservation>, searchQuery: string, article: string,
                    timestamp: string, limits: Limits, k: nat, offset: nat): ScanResult
    decreases |pages| - k
  {
    if k >= |pages| then ScanResult(OutOfPages, [])
    else
      var pageNum := k + 1;
      match pages[k]
      case NoResults => ScanResult(Finished(Returned(Pair(None, timestamp))), [Goto(searchQuery, pageNum)])
      case Timeout => ScanResult(Finished(Returned(Pair(None, timestamp))), [Goto(searchQuery, pageNum)])
      case Failure => ScanResult(Finished(Returned(Pair(None, timestamp))), [Goto(searchQuery, pageNum)])
      case Cards(ids) =>
        var visit := [Goto(searchQuery, pageNum), Extract(pageNum)];
        var position := FirstIndexOf(ids, article);
        if position.Some? then
          ScanResult(Finished(Returned(Pair(Some(position.value + offset), timestamp))), visit)
        else if limits.safeSearch && pageNum + 1 > limits.maxSafeSearch then
          ScanResult(Finished(Returned(NoneValue)), visit)
        else
          var rest := ScanFrom(pages, searchQuery, article, timestamp, limits, k + 1, offset + |ids|);
          ScanResult(rest.run, visit + rest.events)
  }

  /** Passing over one unmatched page below the cap: its visit, then the loop from the next page. */
  lemma PassOver(pages: seq<PageObservation>, searchQuery: string, article: string,
                 timestamp: string, limits: Limits, k: nat, offset: nat)
    requires k < |pages| && Unmatched(pages[k], article)
    requires !(limits.safeSearch && k + 2 > limits.maxSafeSearch)
    ensures var here := ScanFrom(pages, searchQuery, article, timestamp, limits, k, offset);
            var next := ScanFrom(pages, searchQuery, article, timestamp, limits, k + 1, offset + ItemCount(pages[k]));
            here.run == next.run && here.events == [Goto(searchQuery, k + 1), Extract(k + 1)] + next.events
  {
  }

  /** The whole loop: from page 1 with no items passed over. */
  function Scan(pages: seq<PageObservation>, searchQuery: string, article: string,
                timestamp: string, limits: Limits): ScanResult
  {
    ScanFrom(pages, searchQuery, article, timestamp, limits, 0, 0)
  }

  /**
   * The session events of `initialize`: the steps that ran, then, when one
   * raised and a browser is set, closing that browser.
   */
  function InitEvents(fault: InitFault, hadBrowser: bool): seq<SessionEvent> {
    match fault
    case InitOk => [Launch, NewContext, NewPage]
    case LaunchFails(_) => if hadBrowser then [BrowserClosed] else []
    case ContextFails(_) => [Launch, BrowserClosed]
    case PageFails(_) => [Launch, NewContext, BrowserClosed]
  }

  /**
   * `search_article_position` as a whole: when no tab is open it first calls
   * `initialize`, whose error escapes the search; then it runs the loop.
   */
  function SearchSpec(hadPage: bool, hadBrowser: bool, init: InitFault, pages: seq<PageObservation>,
                      searchQuery: string, article: string, timestamp: string, limits: Limits): ScanResult
  {
    var scan := Scan(pages, searchQuery, article, timestamp, limits);
    if hadPage then scan
    else if init.InitOk? then ScanResult(scan.run, InitEvents(init, hadBrowser) + scan.events)
    else ScanResult(Finished(Raised(init.message)), InitEvents(init, hadBrowser))
  }

  // ---------------------------------------------------------------------
  // The parser object
  // ---------------------------------------------------------------------

  /**
   * The parser holds its browser, context and tab; each field is modelled by
   * whether it is set. `log` records what the parser does to the session.
   */
  class WildberriesParser {
    var browser: bool
    var context: bool
    var page: bool
    var log: seq<SessionEvent>

    constructor ()
      ensures !browser && !context && !page && log == []
    {
      browser, context, page := false, false, false;
      log := [];
    }

    /**
     * Launches the browser, creates a context and opens a tab. When a step
     * raises, a browser that is set is closed and the error is re-raised.
     */
    method Initialize(fault: InitFault) returns (raised: Option<string>)
      modifies this
      ensures raised.None? <==> fault.InitOk?
      ensures raised.Some? ==> raised.value == fault.message
      ensures browser == (old(browser) || !fault.LaunchFails?)
      ensures context == (old(context) || fault.InitOk? || fault.PageFails?)
      ensures page == (old(page) || fault.InitOk?)
      ensures log == old(log) + InitEvents(fault, old(browser))
    {
      raised := None;
      if fault.LaunchFails? {
        raised := Some(fault.message);
      } else {
        browser := true;
        log := log + [Launch];
        if fault.ContextFails? {
          raised := Some(fault.message);
        } else {
          context := true;
          log := log + [NewContext];
          if fault.PageFails? {
            raised := Some(fault.message);
          } else {
            page := true;
            log := log + [NewPage];
          }
        }
      }
      if raised.Some? && browser {
        log := log + [BrowserClosed];
      }
    }

    /** Closes the browser if one is set; the field itself stays set. */
    method Close()
      modifies this`log
      ensures log == old(log) + [CloseCalled] + (if browser then [BrowserClosed] else [])
    {
      log := log + [CloseCalled];
      if browser {
        log := log + [BrowserClosed];
      }
    }

    /**
     * The card matcher: the 1-based position of the first card whose id is
     * the article, with the number of cards on the page in either case.
     */
    static method FindArticlePosition(cards: seq<CardId>, article: string)
      returns (position: Option<nat>, itemsCount: nat)
      ensures itemsCount == |cards|
      ensures position == FirstIndexOf(cards, article)
    {
      itemsCount := |cards|;
      var i := 0;
      while i < |cards|
        invariant 0 <= i <= |cards|
        invariant forall j :: 0 <= j < i ==> cards[j] != Some(article)
      {
        if cards[i] == Some(article) {
          return Some(i + 1), itemsCount;
        }
        i := i + 1;
      }
      return None, itemsCount;
    }

    /**
     * Visits the result pages in order until the article is found, a page
     * says there is nothing, a page raises, or the safe-search cap is passed.
     */
    method SearchArticlePosition(init: InitFault, pages: seq<PageObservation>, searchQuery: string,
                                 article: string, timestamp: string, limits: Limits)
      returns (run: Run)
      modifies this
      ensures var spec := SearchSpec(old(page), old(browser), init, pages, searchQuery, article, timestamp, limits);
              run == spec.run && log == old(log) + spec.events
      ensures old(page) ==> browser == old(browser) && context == old(context) && page
      ensures !old(page) ==> (browser == (old(browser) || !init.LaunchFails?)
                              && context == (old(context) || init.InitOk? || init.PageFails?)
                              && page == init.InitOk?)
    {
      if !page {
        var raised := Initialize(init);
        if raised.Some? {
          run := Finished(Raised(raised.value));
          return;
        }
      }
      run := ScanPages(pages, searchQuery, article, timestamp, limits);
    }

    /**
     * The loop of `search_article_position`: page numbers 1, 2, 3, ... and the
     * running count of items on the pages passed over.
     */
    method ScanPages(pages: seq<PageObservation>, searchQuery: string, article: string,
                     timestamp: string, limits: Limits)
      returns (run: Run)
      modifies this`log
      ensures var scan := Scan(pages, searchQuery, article, timestamp, limits);
              run == scan.run && log == old(log) + scan.events
    {
      ghost var scan := Scan(pages, searchQuery, article, timestamp, limits);
      ghost var rest := scan;
      var pageNum: nat := 1;
      var totalItemsProcessed: nat := 0;
      var capReached := false;
      while pageNum <= |pages|
        invariant 1 <= pageNum <= |pages| + 1
        invariant !capReached
        invariant rest == ScanFrom(pages, searchQuery, article, timestamp, limits, pageNum - 1, totalItemsProcessed)
        invariant scan.run == rest.run && old(log) + scan.events == log + rest.events
        decreases |pages| - pageNum
      {
        ghost var logBefore := log;
        log := log + [Goto(searchQuery, pageNum)];
        if !pages[pageNum - 1].Cards? {
          // a "nothing found" page, a timeout and any other error all return (None, timestamp)
          run := Finished(Returned(Pair(None, timestamp)));
          return;
        }
        var ids := pages[pageNum - 1].ids;
        log := log + [Extract(pageNum)];
        var position, itemsOnPage := FindArticlePosition(ids, article);
        if position.Some? {
          run := Finished(Returned(Pair(Some(position.value + totalItemsProcessed), timestamp)));
          return;
        }
        ghost var k, offset := pageNum - 1, totalItemsProcessed;
        totalItemsProcessed := totalItemsProcessed + itemsOnPage;
        pageNum := pageNum + 1;
        if limits.safeSearch && pageNum > limits.maxSafeSearch {
          capReached := true;
          break;
        }
        PassOver(pages, searchQuery, article, timestamp, limits, k, offset);
        rest := ScanFrom(pages, searchQuery, article, timestamp, limits, k + 1, offset + ItemCount(pages[k]));
        assert log == logBefore + [Goto(searchQuery, k + 1), Extract(k + 1)];
      }
      if capReached {
        run := Finished(Returned(NoneValue));
      } else {
        run := OutOfPages;
      }
    }
  }
}
