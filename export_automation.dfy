/**
 * The script injected into the lyrics page (lyrics-content.js). Loaded inside
 * the hidden frame, it polls every 500 ms for the Export button, clicks it
 * once, clicks Download 800 ms later and reports success 1000 ms after that;
 * it reports a failure when the Export button never shows within 40 ticks or
 * the Download button is missing. Loaded as a top-level page it does nothing.
 *
 * Timers become method calls: `Tick` is one firing of the interval,
 * `AfterMenuDelay` the 800 ms follow-up, `AfterReportDelay` the 1000 ms one.
 * What the page's document contains at each moment is a parameter.
 */
module ExportAutomation {
  import opened Wrappers
  import opened Protocol

  const MaxAttempts := 40
  const ExportTimeout := "Timeout: could not find Export button"
  const NoDownloadButton := "Could not find Download button in Export menu"

  function Failure(url: string, error: string): Message {
    Message(ResultType, false, url, Some(error))
  }

  function Success(url: string): Message {
    Message(ResultType, true, url, None)
  }

  class Poller {
    /** `window.location.href` of the lyrics page. */
    const url: string
    var attempts: nat
    var clickedExport: bool
    /** The 500 ms interval is running. */
    var polling: bool
    /** The 800 ms follow-up after the Export click is scheduled. */
    var menuPending: bool
    /** The 1000 ms follow-up after the Download click is scheduled. */
    var reportPending: bool
    var exportClicks: nat
    var downloadClicks: nat
    /** Messages posted to the parent window, in order. */
    var posted: seq<Message>

    /** At most one click of each button and at most one message, always a
        result message for this page; success is only ever reported after
        Download was clicked; once a message is posted nothing is scheduled. */
    ghost predicate Valid()
      reads this
    {
      exportClicks <= 1 && downloadClicks <= 1 && |posted| <= 1 &&
      (clickedExport <==> exportClicks == 1) &&
      (downloadClicks == 1 ==> clickedExport) &&
      (polling ==> !clickedExport && posted == [] && attempts <= MaxAttempts) &&
      (menuPending ==> clickedExport && !polling && !reportPending && downloadClicks == 0 && posted == []) &&
      (reportPending ==> downloadClicks == 1 && !polling && posted == []) &&
      (posted != [] ==> !polling && !menuPending && !reportPending) &&
      (forall i :: 0 <= i < |posted| ==> posted[i].kind == ResultType && posted[i].url == url) &&
      (forall i :: 0 <= i < |posted| ==> posted[i].success ==> downloadClicks == 1)
    }

    /** The script starts: inside a frame it starts polling, as a top-level
        page it returns at once and never acts. */
    constructor (inFrame: bool, url: string)
      ensures Valid() && this.url == url
      ensures polling == inFrame && attempts == 0 && !clickedExport
      ensures !menuPending && !reportPending
      ensures exportClicks == 0 && downloadClicks == 0 && posted == []
    {
      this.url := url;
      attempts, clickedExport, polling := 0, false, inFrame;
      menuPending, reportPending := false, false;
      exportClicks, downloadClicks, posted := 0, 0, [];
    }

    /** One firing of the interval; `exportFound` says whether the page shows
        the Export button at that moment. */
    method Tick(exportFound: bool)
      requires Valid() && polling
      modifies this
      ensures Valid() && attempts == old(attempts) + 1
      ensures attempts > MaxAttempts ==>
        !polling && posted == [Failure(url, ExportTimeout)] && exportClicks == 0 && !menuPending
      ensures attempts <= MaxAttempts && !exportFound ==>
        polling && posted == [] && exportClicks == 0 && !menuPending
      ensures attempts <= MaxAttempts && exportFound ==>
        !polling && posted == [] && exportClicks == 1 && clickedExport && menuPending
      ensures downloadClicks == old(downloadClicks) && !reportPending
    {
      attempts := attempts + 1;
      if attempts > MaxAttempts {
        polling := false;
        posted := posted + [Failure(url, ExportTimeout)];
        return;
      }
      if !clickedExport {
        if !exportFound {
          return;
        }
        exportClicks := exportClicks + 1;
        clickedExport := true;
        polling := false;
        menuPending := true;
      }
    }

    /** 800 ms after the Export click; `downloadFound` says whether the menu
        holds the Download button. */
    method AfterMenuDelay(downloadFound: bool)
      requires Valid() && menuPending
      modifies this
      ensures Valid() && !menuPending && !polling && exportClicks == old(exportClicks)
      ensures attempts == old(attempts) && clickedExport == old(clickedExport)
      ensures downloadFound ==> downloadClicks == 1 && reportPending && posted == []
      ensures !downloadFound ==>
        downloadClicks == 0 && !reportPending && posted == [Failure(url, NoDownloadButton)]
    {
      menuPending := false;
      if downloadFound {
        downloadClicks := downloadClicks + 1;
        reportPending := true;
      } else {
        posted := posted + [Failure(url, NoDownloadButton)];
      }
    }

    /** 1000 ms after the Download click: report success. */
    method AfterReportDelay()
      requires Valid() && reportPending
      modifies this
      ensures Valid() && !reportPending && !polling && !menuPending
      ensures posted == [Success(url)]
      ensures exportClicks == old(exportClicks) && downloadClicks == old(downloadClicks)
      ensures attempts == old(attempts) && clickedExport == old(clickedExport)
    {
      reportPending := false;
      posted := posted + [Success(url)];
    }
  }

  /** The first tick, counted from `from`, at which the Export button shows
      among the ticks that look for it (the first `MaxAttempts`). */
  function FirstExport(seen: seq<bool>, from: nat): (k: Option<nat>)
    decreases MaxAttempts - from
    ensures k.Some? ==> from <= k.value < |seen| && k.value < MaxAttempts && seen[k.value]
    ensures k.Some? ==> forall j :: from <= j < k.value ==> !seen[j]
    ensures k.None? ==> forall j :: from <= j < |seen| && j < MaxAttempts ==> !seen[j]
  {
    if from >= |seen| || from >= MaxAttempts then None
    else if seen[from] then Some(from)
    else FirstExport(seen, from + 1)
  }

  /** What the parent window receives when the page shows the Export button
      at the ticks marked in `seen` and the menu holds Download or not. */
  function ExpectedPosts(inFrame: bool, url: string, seen: seq<bool>, downloadFound: bool): seq<Message> {
    if !inFrame then []
    else if FirstExport(seen, 0).Some? then
      (if downloadFound then [Success(url)] else [Failure(url, NoDownloadButton)])
    else if |seen| > MaxAttempts then [Failure(url, ExportTimeout)]
    else []
  }

  /** The whole script: tick while polling and ticks remain, then run the
      follow-ups that were scheduled. Returns what was posted, how many of
      the ticks fired and how often each button was clicked. */
  method Run(inFrame: bool, url: string, seen: seq<bool>, downloadFound: bool)
    returns (posted: seq<Message>, ticks: nat, exportClicks: nat, downloadClicks: nat)
    ensures posted == ExpectedPosts(inFrame, url, seen, downloadFound)
    ensures ticks <= |seen| && ticks <= MaxAttempts + 1
    ensures exportClicks == (if inFrame && FirstExport(seen, 0).Some? then 1 else 0)
    ensures downloadClicks == (if exportClicks == 1 && downloadFound then 1 else 0)
    ensures inFrame && FirstExport(seen, 0).Some? ==> ticks == FirstExport(seen, 0).value + 1
  {
    var p := new Poller(inFrame, url);
    var i := 0;
    while p.polling && i < |seen|
      invariant p.Valid() && p.url == url && p.attempts == i && i <= |seen|
      invariant !p.reportPending && p.downloadClicks == 0
      invariant !inFrame ==> !p.polling && !p.menuPending && p.posted == [] && i == 0 && p.exportClicks == 0
      invariant inFrame ==>
        (p.polling && p.posted == [] && p.exportClicks == 0 && i <= MaxAttempts &&
          forall j :: 0 <= j < i ==> !seen[j]) ||
        (!p.polling && p.menuPending && p.exportClicks == 1 && 1 <= i <= MaxAttempts &&
          seen[i - 1] && forall j :: 0 <= j < i - 1 ==> !seen[j]) ||
        (!p.polling && !p.menuPending && i == MaxAttempts + 1 && p.exportClicks == 0 &&
          p.posted == [Failure(url, ExportTimeout)] && forall j :: 0 <= j < MaxAttempts ==> !seen[j])
      decreases |seen| - i
    {
      p.Tick(seen[i]);
      i := i + 1;
    }
    ticks := i;
    if p.menuPending {
      p.AfterMenuDelay(downloadFound);
      if p.reportPending {
        p.AfterReportDelay();
      }
    }
    posted, exportClicks, downloadClicks := p.posted, p.exportClicks, p.downloadClicks;
  }

  /** However the page behaves, the parent gets at most one message, always
      a result message for this page, and success only when Download exists. */
  lemma AtMostOneReport(inFrame: bool, url: string, seen: seq<bool>, downloadFound: bool)
    ensures |ExpectedPosts(inFrame, url, seen, downloadFound)| <= 1
    ensures forall m :: m in ExpectedPosts(inFrame, url, seen, downloadFound) ==>
      m.kind == ResultType && m.url == url && (m.success ==> downloadFound)
  {
  }

  /** The Export button showing only from the 41st tick on is too late. */
  lemma LateButtonIgnored(url: string, seen: seq<bool>, downloadFound: bool)
    requires |seen| > MaxAttempts
    requires forall j :: 0 <= j < MaxAttempts ==> !seen[j]
    ensures ExpectedPosts(true, url, seen, downloadFound) == [Failure(url, ExportTimeout)]
  {
  }
}
