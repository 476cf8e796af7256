/**
 * The pages of the catalog and which of them the pagination loop of
 * `collectAllSongs` (content.js) reads. A page of the table is its rows plus
 * whether its "next" control is usable.
 */
module Pages {
  import opened Songs

  /** A page of the song table: its rows, and whether the "next page" control
      exists and is neither `disabled` nor of class `disabled`. */
  datatype Page = Page(rows: seq<Row>, nextEnabled: bool)

  predicate HasLastPage(pages: seq<Page>) {
    exists i :: 0 <= i < |pages| && !pages[i].nextEnabled
  }

  /** The index of the first page without a usable "next" control. */
  function LastPage(pages: seq<Page>): (k: nat)
    requires HasLastPage(pages)
    ensures k < |pages| && !pages[k].nextEnabled
    ensures forall i :: 0 <= i < k ==> pages[i].nextEnabled
  {
    if !pages[0].nextEnabled then 0
    else
      assert HasLastPage(pages[1..]) by {
        var i :| 0 <= i < |pages| && !pages[i].nextEnabled;
        assert pages[1..][i - 1] == pages[i];
      }
      var k := LastPage(pages[1..]);
      assert forall i :: 1 <= i <= k ==> pages[i] == pages[1..][i - 1];
      k + 1
  }

  /** The rows of all the given pages, in order. */
  function Rows(pages: seq<Page>): seq<Row> {
    if pages == [] then [] else Rows(pages[..|pages| - 1]) + pages[|pages| - 1].rows
  }

  lemma {:induction false} RowsCons(p: Page, pages: seq<Page>)
    ensures Rows([p] + pages) == p.rows + Rows(pages)
    decreases |pages|
  {
    if pages != [] {
      var init := pages[..|pages| - 1];
      assert ([p] + pages)[..|pages|] == [p] + init;
      RowsCons(p, init);
    }
  }

  /** The rows the pagination loop reads: a page, then the rest if its "next"
      control is usable. The page on screen is always read. */
  function Visited(pages: seq<Page>): (r: seq<Row>)
    requires HasLastPage(pages)
    ensures |pages[0].rows| <= |r|
    decreases |pages|
  {
    if !pages[0].nextEnabled then pages[0].rows
    else
      assert HasLastPage(pages[1..]) by {
        var i :| 0 <= i < |pages| && !pages[i].nextEnabled;
        assert pages[1..][i - 1] == pages[i];
      }
      pages[0].rows + Visited(pages[1..])
  }

  /** The visited rows are those of the pages up to and including the first
      one without a usable "next" control; later pages are never read. */
  lemma {:induction false} VisitedUpToLastPage(pages: seq<Page>)
    requires HasLastPage(pages)
    ensures Visited(pages) == Rows(pages[..LastPage(pages) + 1])
    decreases |pages|
  {
    var k := LastPage(pages);
    if pages[0].nextEnabled {
      var rest := pages[1..];
      assert HasLastPage(rest) by {
        assert rest[k - 1] == pages[k];
      }
      VisitedUpToLastPage(rest);
      assert LastPage(rest) == k - 1;
      assert pages[..k + 1] == [pages[0]] + rest[..k];
      RowsCons(pages[0], rest[..k]);
    } else {
      assert pages[..1] == [pages[0]];
      assert Rows(pages[..1]) == Rows([]) + pages[0].rows;
    }
  }

  /** One iteration of the pagination loop: the rows still to be read are
      those of page `j`, then, if its "next" control is usable, those after it. */
  lemma VisitedStep(ps: seq<Page>, j: nat)
    requires HasLastPage(ps) && j <= LastPage(ps)
    ensures HasLastPage(ps[j..])
    ensures ps[j].nextEnabled <==> j < LastPage(ps)
    ensures !ps[j].nextEnabled ==> Visited(ps[j..]) == ps[j].rows
    ensures ps[j].nextEnabled ==>
      HasLastPage(ps[j + 1..]) && Visited(ps[j..]) == ps[j].rows + Visited(ps[j + 1..])
    ensures ps[j].nextEnabled ==>
      SongsOf(Visited(ps[j..])) == SongsOf(ps[j].rows) + SongsOf(Visited(ps[j + 1..]))
  {
    var k := LastPage(ps);
    assert ps[j..][k - j] == ps[k];
    assert ps[j..][0] == ps[j];
    if ps[j].nextEnabled {
      assert ps[j..][1..] == ps[j + 1..];
      assert ps[j + 1..][k - j - 1] == ps[k];
      SongsOfAppend(ps[j].rows, Visited(ps[j + 1..]));
    }
  }
}
