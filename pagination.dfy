/**
 * Paging through the catalog (`collectAllSongs` in content.js). The page-size
 * `<select>` is an optional string value; the pages are given by `Pages`.
 */
module Pagination {
  import opened Wrappers
  import opened Songs
  import opened Pages

  /** Regrouping a concatenation; stated apart so that the paging loop's
      proof does not have to rediscover it. */
  lemma AppendAssociative(a: seq<Song>, b: seq<Song>, c: seq<Song>)
    ensures (a + b) + c == a + (b + c)
  {
  }

  /** The loop of `collectAllSongs` over the pages from the one on screen:
      scrape the page, stop if its "next" control is missing or disabled,
      otherwise click it. Yields the records and the number of clicks. */
  method ScrapePages(pages: seq<Page>) returns (all: seq<Song>, clicks: nat)
    requires HasLastPage(pages)
    ensures clicks == LastPage(pages)
    ensures all == SongsOf(Visited(pages))
  {
    clicks := 0;
    all := [];
    while true
      invariant clicks <= LastPage(pages)
      invariant HasLastPage(pages[clicks..])
      invariant all + SongsOf(Visited(pages[clicks..])) == SongsOf(Visited(pages))
      decreases LastPage(pages) - clicks
    {
      var page := pages[clicks];
      var pageSongs := ScrapeSongsFromPage(page.rows);
      VisitedStep(pages, clicks);
      if !page.nextEnabled {
        all := all + pageSongs;
        break;
      }
      AppendAssociative(all, pageSongs, SongsOf(Visited(pages[clicks + 1..])));
      all := all + pageSongs;
      clicks := clicks + 1;
    }
  }

  /** The page size the enumeration asks for. */
  const MaxPageSize := "100"

  /** The song list page as far as enumeration sees it. */
  class CatalogView {
    /** The value of the page-size control; None when the page has none. */
    var perPage: Option<string>
    /** The values a "change" event was dispatched for, in order. */
    var changeEvents: seq<string>
    /** The pages of the listing, as they read once the page size is settled. */
    const pages: seq<Page>
    /** The index of the page on screen. */
    var shown: nat

    constructor (perPage: Option<string>, pages: seq<Page>)
      ensures this.perPage == perPage && this.pages == pages
      ensures changeEvents == [] && shown == 0
    {
      this.perPage := perPage;
      this.pages := pages;
      changeEvents := [];
      shown := 0;
    }

    /** The model of `collectAllSongs`: raise the page size to the maximum,
        page through the listing, then put the page size back. */
    method CollectAllSongs() returns (all: seq<Song>)
      requires shown < |pages| && HasLastPage(pages[shown..])
      modifies this
      ensures shown == old(shown) + LastPage(pages[old(shown)..])
      ensures all == SongsOf(Visited(pages[old(shown)..]))
      // the page size ends as it began unless it began empty, an empty value being falsy
      ensures perPage == if old(perPage) == Some("") then Some(MaxPageSize) else old(perPage)
      ensures changeEvents == old(changeEvents) +
        (if old(perPage).None? || old(perPage) == Some(MaxPageSize) then []
         else if old(perPage) == Some("") then [MaxPageSize]
         else [MaxPageSize, old(perPage).value])
    {
      var original := perPage;
      if perPage.Some? && perPage.value != MaxPageSize {
        perPage := Some(MaxPageSize);
        changeEvents := changeEvents + [MaxPageSize];
      }

      var clicks;
      all, clicks := ScrapePages(pages[shown..]);
      shown := shown + clicks;

      if perPage.Some? && original.value != "" && perPage.value != original.value {
        perPage := original;
        changeEvents := changeEvents + [original.value];
      }
    }
  }
}
