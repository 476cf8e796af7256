/**
 * `downloadAll` in content.js: collect the songs, split off those without
 * lyrics, ask for the folder, drop the songs already in it, then download
 * the rest one by one with a single retry, reporting progress after each
 * song and a summary at the end.
 *
 * Each call of `triggerLyricsDownload` is given by `attempt(i, n)`: what the
 * n-th attempt (0 first, 1 retry) for the i-th song of the queue resolves
 * with. The Session module models how one attempt settles.
 */
module Orchestration {
  import opened Wrappers
  import opened Text
  import opened Protocol
  import opened Songs
  import opened FolderScan
  import opened Pages
  import opened Pagination
  import opened Batch

  /** The dedup loop: songs already in the folder are counted, the rest kept. */
  method Dedup(withLyrics: seq<Song>, existing: seq<string>) returns (toDownload: seq<Song>, skipped: nat)
    ensures toDownload == Filter(withLyrics, Absent(existing))
    ensures skipped + |toDownload| == |withLyrics|
  {
    toDownload, skipped := [], 0;
    for i := 0 to |withLyrics|
      invariant toDownload == Filter(withLyrics[..i], Absent(existing))
      invariant skipped + |toDownload| == i
    {
      assert withLyrics[..i + 1][..i] == withLyrics[..i];
      if SongAlreadyExists(withLyrics[i].title, existing) {
        skipped := skipped + 1;
      } else {
        toDownload := toDownload + [withLyrics[i]];
      }
    }
    assert withLyrics[..|withLyrics|] == withLyrics;
  }

  /** One song of the queue at `index`: the first attempt, and the retry
      when the first attempt failed. Returns the song's result and the calls
      made for it. */
  method DownloadSong(title: string, index: nat, attempt: (nat, nat) -> Outcome)
    returns (r: SongResult, calls: seq<Call>)
    ensures r == SongOutcome(title, index, attempt)
    ensures calls == SongCalls(index, attempt)
  {
    var result := attempt(index, 0);
    calls := [Call(index, 0)];
    if result.success {
      r := Downloaded(title, false);
    } else {
      var retry := attempt(index, 1);
      calls := calls + [Call(index, 1)];
      if retry.success {
        r := Downloaded(title, true);
      } else {
        r := GaveUp(title, ErrorText(retry.error));
      }
    }
  }

  /** The download loop over the queue. Returns the counters, one result per
      song, the calls made and the progress reports `(current, total)`,
      the first one made before any song. */
  method RunDownloads(queue: seq<Song>, attempt: (nat, nat) -> Outcome)
    returns (completed: nat, failed: nat, results: seq<SongResult>, calls: seq<Call>, progress: seq<(nat, nat)>)
    ensures results == Outcomes(queue, attempt, |queue|)
    ensures calls == CallsOf(attempt, |queue|)
    ensures completed == Downloads(results) && failed == GiveUps(results)
    ensures completed + failed == |queue|
    ensures progress == Reports(|queue|, |queue|)
  {
    var total := |queue|;
    completed, failed, results, calls := 0, 0, [], [];
    progress := [(0, total)];
    for k := 0 to total
      invariant Tally(completed, failed, results, calls) == TallyOf(queue, attempt, k)
      invariant completed + failed == k
      invariant progress == Reports(total, k)
    {
      TallyCounts(queue, attempt, k);
      var r, songCalls := DownloadSong(queue[k].title, k, attempt);
      calls := calls + songCalls;
      results := results + [r];
      if r.Downloaded? {
        completed := completed + 1;
      } else {
        failed := failed + 1;
      }
      progress := progress + [(completed + failed, total)];
    }
    TallyRecords(queue, attempt, total);
    TallyCounts(queue, attempt, total);
  }

  /** What the final summary reports. */
  datatype Report = Report(
    completed: nat, failed: nat, skipped: nat, withoutLyrics: nat,
    results: seq<SongResult>, calls: seq<Call>, progress: seq<(nat, nat)>,
    closing: Closing)

  /** How a run ends: each early return of `downloadAll`, the caught error,
      or the completed batch. */
  datatype Run =
    | NoSongsFound
    | NoSongsWithLyrics(withoutLyrics: nat)
    | FolderCancelled
    | Errored(message: string)
    | AllExisting(skipped: nat, withoutLyrics: nat)
    | Complete(report: Report)

  /** The batch once the folder's keys are known: drop the songs already
      there, download the rest and summarise. */
  method DownloadNew(withLyrics: seq<Song>, withoutLyrics: nat, existing: seq<string>, attempt: (nat, nat) -> Outcome)
    returns (run: Run)
    ensures run.AllExisting? || run.Complete?
    ensures run.AllExisting? <==> Filter(withLyrics, Absent(existing)) == []
    ensures run.AllExisting? ==> run.skipped == |withLyrics| && run.withoutLyrics == withoutLyrics
    ensures run.Complete? ==>
      run.report.completed + run.report.failed + run.report.skipped == |withLyrics| &&
      run.report.skipped + |Filter(withLyrics, Absent(existing))| == |withLyrics| &&
      run.report.withoutLyrics == withoutLyrics
    ensures run.Complete? ==>
      run.report.results == Outcomes(Filter(withLyrics, Absent(existing)), attempt, |Filter(withLyrics, Absent(existing))|)
    ensures run.Complete? ==>
      run.report.completed == Downloads(run.report.results) &&
      run.report.failed == GiveUps(run.report.results)
    ensures run.Complete? ==> run.report.calls == CallsOf(attempt, |run.report.results|)
    ensures run.Complete? ==> run.report.progress == Reports(|run.report.results|, |run.report.results|)
    ensures run.Complete? ==>
      run.report.closing == CloseRun(run.report.completed, run.report.skipped, run.report.failed, withoutLyrics)
  {
    var toDownload, skipped := Dedup(withLyrics, existing);
    if |toDownload| == 0 {
      return AllExisting(skipped, withoutLyrics);
    }
    var completed, failed, results, calls, progress := RunDownloads(toDownload, attempt);
    run := Complete(Report(completed, failed, skipped, withoutLyrics,
      results, calls, progress, CloseRun(completed, skipped, failed, withoutLyrics)));
  }

  /** What a completed run reports when `queue` was downloaded out of
      `withLyrics`, with `withoutLyrics` songs lacking a lyrics link: the
      counters count the results, which are the queue's outcomes, the calls
      and progress reports are those of the queue, and the closing summarises
      those counters. */
  predicate Reported(r: Report, withLyrics: seq<Song>, withoutLyrics: nat, queue: seq<Song>, attempt: (nat, nat) -> Outcome) {
    r.results == Outcomes(queue, attempt, |queue|) &&
    r.completed == Downloads(r.results) && r.failed == GiveUps(r.results) &&
    r.skipped == |withLyrics| - |queue| && r.withoutLyrics == withoutLyrics &&
    r.calls == CallsOf(attempt, |queue|) &&
    r.progress == Reports(|queue|, |queue|) &&
    r.closing == CloseRun(r.completed, r.skipped, r.failed, r.withoutLyrics)
  }

  /** What processing the collected `songs` ends in: each early return of
      `downloadAll` holds exactly in its case, and a completed run accounts
      for every song. */
  predicate ProcessedAs(songs: seq<Song>, picker: Picker, attempt: (nat, nat) -> Outcome, run: Run) {
    var withLyrics := Filter(songs, HasLink(true));
    var withoutLyrics := Filter(songs, HasLink(false));
    (run.NoSongsFound? <==> songs == []) &&
    (run.NoSongsWithLyrics? <==> songs != [] && withLyrics == []) &&
    (run.NoSongsWithLyrics? ==> run.withoutLyrics == |songs|) &&
    (run.FolderCancelled? <==> withLyrics != [] && picker == Refused(AbortError)) &&
    (run.Errored? <==> withLyrics != [] && picker.Refused? && picker.error.OtherError?) &&
    (run.Errored? ==> run.message == picker.error.message) &&
    (run.AllExisting? || run.Complete? ==> withLyrics != [] && picker.Granted?) &&
    (picker.Granted? ==>
      var queue := Filter(withLyrics, Absent(KeysOf(picker.entries)));
      (run.AllExisting? <==> withLyrics != [] && queue == []) &&
      (run.AllExisting? ==> run.skipped == |withLyrics| && run.withoutLyrics == |withoutLyrics|) &&
      (run.AllExisting? ==>
        forall s :: s in songs && s.hasLyricsLink ==> SongAlreadyExists(s.title, KeysOf(picker.entries))) &&
      (run.Complete? ==> queue != [] && Reported(run.report, withLyrics, |withoutLyrics|, queue, attempt))) &&
    (run.Complete? ==>
      run.report.completed + run.report.failed + run.report.skipped + run.report.withoutLyrics == |songs|)
  }

  /** Everything after the collection of `songs`. */
  method Process(songs: seq<Song>, picker: Picker, attempt: (nat, nat) -> Outcome) returns (run: Run)
    ensures ProcessedAs(songs, picker, attempt, run)
  {
    if |songs| == 0 {
      return NoSongsFound;
    }
    var withLyrics := Filter(songs, HasLink(true));
    var withoutLyrics := Filter(songs, HasLink(false));
    PartitionSizes(songs);
    if |withLyrics| == 0 {
      return NoSongsWithLyrics(|withoutLyrics|);
    }
    var scan := ScanExistingFiles(picker);
    match scan {
      case Cancelled =>
        return FolderCancelled;
      case Thrown(message) =>
        return Errored(message);
      case Keys(existing) =>
        run := DownloadNew(withLyrics, |withoutLyrics|, existing, attempt);
        if run.AllExisting? {
          forall s | s in songs && s.hasLyricsLink
            ensures SongAlreadyExists(s.title, existing)
          {
            FilterMembers(songs, HasLink(true));
            assert s in withLyrics;
            FilterMembers(withLyrics, Absent(existing));
            assert s !in Filter(withLyrics, Absent(existing));
          }
        }
    }
  }

  /** The button's handler: collect every page of the view (which changes
      its page size and current page), then process the songs. */
  method DownloadAll(view: CatalogView, picker: Picker, attempt: (nat, nat) -> Outcome) returns (run: Run)
    requires view.shown < |view.pages| && HasLastPage(view.pages[view.shown..])
    modifies view
    ensures view.shown == old(view.shown) + LastPage(view.pages[old(view.shown)..])
    ensures view.perPage == if old(view.perPage) == Some("") then Some(MaxPageSize) else old(view.perPage)
    ensures view.changeEvents == old(view.changeEvents) +
      (if old(view.perPage).None? || old(view.perPage) == Some(MaxPageSize) then []
       else if old(view.perPage) == Some("") then [MaxPageSize]
       else [MaxPageSize, old(view.perPage).value])
    ensures ProcessedAs(SongsOf(Visited(view.pages[old(view.shown)..])), picker, attempt, run)
    ensures run.Complete? ==>
      run.report.completed + run.report.failed + run.report.skipped + run.report.withoutLyrics
        == |Visited(view.pages[old(view.shown)..])|
  {
    var songs := view.CollectAllSongs();
    run := Process(songs, picker, attempt);
  }
}
