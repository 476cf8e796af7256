/**
 * The song records scraped from the catalog table (`scrapeSongsFromPage` in
 * content.js). A row of the table is abstracted into the values the scraper
 * reads from it.
 */
module Songs {
  import opened Wrappers
  import opened Text

  /** One `a.song-item` row: the text of its `.title` element (None when absent),
      its `href` attribute (None when absent) and its "Has Lyrics" link
      (None when absent; Some(None) when the link has no `href`). */
  datatype Row = Row(titleText: Option<string>, href: Option<string>, lyricsLink: Option<Option<string>>)

  /** The record built for a row. */
  datatype Song = Song(title: string, lyricsUrl: Option<string>, hasLyricsLink: bool)

  const UnknownTitle := "Unknown Title"
  const ViewLyrics := "/viewlyrics"

  /** `href.replace(/\/$/, "") + "/viewlyrics"`: at most one trailing slash is dropped. */
  function ViewLyricsUrl(href: string): (url: string)
    ensures EndsWith(url, ViewLyrics)
    ensures href != [] && href[|href| - 1] == '/' ==> url == href[..|href| - 1] + ViewLyrics
    ensures href == [] || href[|href| - 1] != '/' ==> url == href + ViewLyrics
  {
    var base := if href != [] && href[|href| - 1] == '/' then href[..|href| - 1] else href;
    assert (base + ViewLyrics)[|base + ViewLyrics| - |ViewLyrics|..] == ViewLyrics;
    base + ViewLyrics
  }

  /** An address without a trailing slash gets "/viewlyrics" appended, and one
      trailing slash makes no difference ... */
  lemma TrailingSlashIgnored(href: string)
    requires href == [] || href[|href| - 1] != '/'
    ensures ViewLyricsUrl(href) == href + ViewLyrics
    ensures ViewLyricsUrl(href + "/") == href + ViewLyrics
  {
    assert (href + "/")[..|href|] == href;
  }

  /** ... and a second one is kept. */
  lemma OnlyOneSlashDropped(href: string)
    ensures ViewLyricsUrl(href + "//") == href + "/" + ViewLyrics
  {
    assert (href + "//")[..|href| + 1] == href + "/";
  }

  /** The record for one row (the body of the loop in `scrapeSongsFromPage`). */
  function SongOfRow(row: Row): (s: Song)
    ensures row.titleText.Some? ==> s.title == Trim(row.titleText.value)
    ensures row.titleText.None? ==> s.title == UnknownTitle
    ensures s.hasLyricsLink <==> row.lyricsLink.Some?
    ensures row.lyricsLink.Some? ==> s.lyricsUrl == row.lyricsLink.value
    ensures row.lyricsLink.None? ==>
      (s.lyricsUrl.Some? <==> row.href.Some? && row.href.value != "") &&
      (s.lyricsUrl.Some? ==> s.lyricsUrl.value == ViewLyricsUrl(row.href.value))
  {
    var title := match row.titleText
      case Some(text) => Trim(text)
      case None => UnknownTitle;
    var url := match row.lyricsLink
      case Some(linkHref) => linkHref
      case None =>
        // an empty `href` is falsy, so it gives no fallback address
        if row.href.Some? && row.href.value != "" then Some(ViewLyricsUrl(row.href.value)) else None;
    Song(title, url, row.lyricsLink.Some?)
  }

  /** A row whose "Has Lyrics" link is missing is still flagged as having none
      even though it receives a fallback address. */
  lemma FallbackUrlWithoutLink(title: Option<string>, href: string)
    requires href != ""
    ensures var s := SongOfRow(Row(title, Some(href), None));
      !s.hasLyricsLink && s.lyricsUrl == Some(ViewLyricsUrl(href))
  {
  }

  /** A "Has Lyrics" link without an `href` yields a record that has a link but
      no address, so such a record is scheduled with a null address. */
  lemma LinkWithoutHref(title: Option<string>, href: Option<string>)
    ensures var s := SongOfRow(Row(title, href, Some(None)));
      s.hasLyricsLink && s.lyricsUrl.None?
  {
  }

  /** A `.title` element holding only spaces gives an empty title, not the default. */
  lemma BlankTitleIsEmpty(text: string, href: Option<string>, link: Option<Option<string>>)
    requires forall i :: 0 <= i < |text| ==> IsSpace(text[i])
    ensures SongOfRow(Row(Some(text), href, link)).title == ""
  {
    TrimIsSlice(text);
  }

  /** The records of a run of rows, one per row and in the same order. */
  function SongsOf(rows: seq<Row>): (songs: seq<Song>)
    ensures |songs| == |rows|
    ensures forall i :: 0 <= i < |rows| ==> songs[i] == SongOfRow(rows[i])
  {
    if rows == [] then []
    else
      var init, last := SongsOf(rows[..|rows| - 1]), SongOfRow(rows[|rows| - 1]);
      MapStep(rows, init, last, SongOfRow);
      init + [last]
  }

  /** One step of a map over a sequence: the images of all elements but the
      last, then the last one's image, are the images of all elements. Stated
      for any `f` so that the records' own contract stays out of the step. */
  lemma MapStep<A, B>(xs: seq<A>, init: seq<B>, last: B, f: A -> B)
    requires xs != [] && |init| == |xs| - 1
    requires forall i :: 0 <= i < |init| ==> init[i] == f(xs[..|xs| - 1][i])
    requires last == f(xs[|xs| - 1])
    ensures forall i :: 0 <= i < |xs| ==> (init + [last])[i] == f(xs[i])
  {
    forall i | 0 <= i < |xs|
      ensures (init + [last])[i] == f(xs[i])
    {
      if i < |init| {
        assert xs[..|xs| - 1][i] == xs[i];
      }
    }
  }

  /** The model of `scrapeSongsFromPage`: one record per row, in document order. */
  method ScrapeSongsFromPage(rows: seq<Row>) returns (songs: seq<Song>)
    ensures songs == SongsOf(rows)
  {
    songs := [];
    for i := 0 to |rows|
      invariant songs == SongsOf(rows[..i])
    {
      assert rows[..i + 1][..i] == rows[..i];
      songs := songs + [SongOfRow(rows[i])];
    }
    assert rows[..|rows|] == rows;
  }

  lemma SongsOfAppend(a: seq<Row>, b: seq<Row>)
    ensures SongsOf(a + b) == SongsOf(a) + SongsOf(b)
  {
    var l, r := SongsOf(a + b), SongsOf(a) + SongsOf(b);
    assert |l| == |r|;
    forall i | 0 <= i < |l|
      ensures l[i] == r[i]
    {
      if i < |a| {
        assert (a + b)[i] == a[i];
      } else {
        assert (a + b)[i] == b[i - |a|];
      }
    }
  }
}
