/**
 * The decisions `downloadAll` in content.js takes once the songs are
 * collected: which songs have lyrics, which are already in the folder, how
 * each remaining song is attempted (once, and once more on failure), and
 * the summary it ends with. The functions here specify the loops in the
 * Orchestration module.
 */
module Batch {
  import opened Wrappers
  import opened Text
  import opened Protocol
  import opened Songs
  import opened FolderScan

  /** The elements of `xs` that `keep` accepts, in their order
      (`Array.prototype.filter`, and the loop that fills `toDownload`). */
  function Filter<T>(xs: seq<T>, keep: T -> bool): (r: seq<T>)
    ensures |r| <= |xs|
    ensures forall i :: 0 <= i < |r| ==> keep(r[i])
  {
    if xs == [] then []
    else
      var init := Filter(xs[..|xs| - 1], keep);
      if keep(xs[|xs| - 1]) then init + [xs[|xs| - 1]] else init
  }

  /** The elements kept are exactly those `keep` accepts. */
  lemma {:induction false} FilterMembers<T>(xs: seq<T>, keep: T -> bool)
    ensures forall x :: x in Filter(xs, keep) <==> x in xs && keep(x)
  {
    if xs != [] {
      var init := xs[..|xs| - 1];
      assert xs == init + [xs[|xs| - 1]];
      FilterMembers(init, keep);
    }
  }

  /** Filtering keeps the order: filtering a concatenation filters each part
      and concatenates the results. */
  lemma {:induction false} FilterAppend<T>(a: seq<T>, b: seq<T>, keep: T -> bool)
    ensures Filter(a + b, keep) == Filter(a, keep) + Filter(b, keep)
    decreases |b|
  {
    if b == [] {
      assert a + b == a;
    } else {
      var b' := b[..|b| - 1];
      assert (a + b)[..|a + b| - 1] == a + b';
      FilterAppend(a, b', keep);
    }
  }

  /** Filtering twice with the same test removes nothing more. */
  lemma {:induction false} FilterIdempotent<T>(xs: seq<T>, keep: T -> bool)
    ensures Filter(Filter(xs, keep), keep) == Filter(xs, keep)
  {
    if xs != [] {
      var r := Filter(xs[..|xs| - 1], keep);
      FilterIdempotent(xs[..|xs| - 1], keep);
      if keep(xs[|xs| - 1]) {
        var rr := r + [xs[|xs| - 1]];
        assert rr[..|rr| - 1] == r;
      }
    }
  }

  /** The test of `songs.filter(...)`: the song has a lyrics link, or has none. */
  function HasLink(flag: bool): Song -> bool {
    (s: Song) => s.hasLyricsLink == flag
  }

  /** The test of the dedup loop: the song is not yet in the folder. */
  function Absent(existing: seq<string>): Song -> bool {
    (s: Song) => !SongAlreadyExists(s.title, existing)
  }

  /** The two halves of the split account for every song exactly once. */
  lemma {:induction false} PartitionSizes(songs: seq<Song>)
    ensures |Filter(songs, HasLink(true))| + |Filter(songs, HasLink(false))| == |songs|
    ensures multiset(Filter(songs, HasLink(true))) + multiset(Filter(songs, HasLink(false))) == multiset(songs)
  {
    if songs != [] {
      var init := songs[..|songs| - 1];
      assert songs == init + [songs[|songs| - 1]];
      PartitionSizes(init);
    }
  }

  /** Deduplicating twice against the same folder removes nothing more. */
  lemma DedupIdempotent(songs: seq<Song>, existing: seq<string>)
    ensures Filter(Filter(songs, Absent(existing)), Absent(existing)) == Filter(songs, Absent(existing))
  {
    FilterIdempotent(songs, Absent(existing));
  }

  /** One call of `triggerLyricsDownload`: which song of the queue, and
      whether it is the first attempt (0) or the retry (1). */
  datatype Call = Call(song: nat, attempt: nat)

  /** What happened to one song: downloaded (on the retry or not), or given
      up with the reason logged. */
  datatype SongResult =
    | Downloaded(title: string, onRetry: bool)
    | GaveUp(title: string, reason: string)

  const UnknownError := "unknown error"

  /** `retry.error || "unknown error"`: an absent or empty error is unknown. */
  function ErrorText(error: Option<string>): (text: string)
    ensures text != ""
    ensures error.Some? && error.value != "" ==> text == error.value
    ensures !(error.Some? && error.value != "") ==> text == UnknownError
  {
    if error.Some? && error.value != "" then error.value else UnknownError
  }

  /** The fate of the song at `index` of the queue, given what each attempt
      resolves with. */
  function SongOutcome(title: string, index: nat, attempt: (nat, nat) -> Outcome): (r: SongResult)
    ensures r.title == title
    ensures r.Downloaded? <==> attempt(index, 0).success || attempt(index, 1).success
    ensures r.Downloaded? ==> (r.onRetry <==> !attempt(index, 0).success)
    ensures r.GaveUp? ==> r.reason == ErrorText(attempt(index, 1).error)
  {
    if attempt(index, 0).success then Downloaded(title, false)
    else if attempt(index, 1).success then Downloaded(title, true)
    else GaveUp(title, ErrorText(attempt(index, 1).error))
  }

  /** The results of the first `k` songs of the queue, one per song in order. */
  function Outcomes(queue: seq<Song>, attempt: (nat, nat) -> Outcome, k: nat): (r: seq<SongResult>)
    requires k <= |queue|
    ensures |r| == k
    ensures forall i :: 0 <= i < k ==> r[i] == SongOutcome(queue[i].title, i, attempt)
  {
    if k == 0 then []
    else Outcomes(queue, attempt, k - 1) + [SongOutcome(queue[k - 1].title, k - 1, attempt)]
  }

  /** The calls made for the first `k` songs, in the order they are made. */
  function CallsOf(attempt: (nat, nat) -> Outcome, k: nat): seq<Call> {
    if k == 0 then []
    else
      CallsOf(attempt, k - 1) + [Call(k - 1, 0)] +
      (if attempt(k - 1, 0).success then [] else [Call(k - 1, 1)])
  }

  /** Every song is attempted, a second time exactly when the first attempt
      failed, and never a third time. */
  lemma {:induction false} CallsExactly(attempt: (nat, nat) -> Outcome, k: nat)
    ensures forall c :: c in CallsOf(attempt, k) <==>
      c.song < k && (c.attempt == 0 || (c.attempt == 1 && !attempt(c.song, 0).success))
  {
    if k > 0 {
      CallsExactly(attempt, k - 1);
    }
  }

  /** Whether call `a` comes strictly before call `b`: an earlier song, or the
      same song and an earlier attempt. */
  predicate Before(a: Call, b: Call) {
    a.song < b.song || (a.song == b.song && a.attempt < b.attempt)
  }

  /** Calls are made song after song, the first attempt before the retry
      (so no call is made twice). */
  lemma {:induction false} CallsInOrder(attempt: (nat, nat) -> Outcome, k: nat)
    ensures forall c :: c in CallsOf(attempt, k) ==> c.song < k
    ensures forall i, j :: 0 <= i < j < |CallsOf(attempt, k)| ==>
      Before(CallsOf(attempt, k)[i], CallsOf(attempt, k)[j])
  {
    if k > 0 {
      CallsInOrder(attempt, k - 1);
      var prev := CallsOf(attempt, k - 1);
      var tail := [Call(k - 1, 0)] + (if attempt(k - 1, 0).success then [] else [Call(k - 1, 1)]);
      assert CallsOf(attempt, k) == prev + tail;
      forall i, j | 0 <= i < j < |prev + tail|
        ensures Before((prev + tail)[i], (prev + tail)[j])
      {
        if j >= |prev| && i < |prev| {
          assert prev[i] in prev;
        }
      }
    }
  }

  /** How many of the results are downloads. */
  function Downloads(rs: seq<SongResult>): nat {
    if rs == [] then 0
    else Downloads(rs[..|rs| - 1]) + (if rs[|rs| - 1].Downloaded? then 1 else 0)
  }

  /** How many of the results are failures. */
  function GiveUps(rs: seq<SongResult>): nat {
    if rs == [] then 0
    else GiveUps(rs[..|rs| - 1]) + (if rs[|rs| - 1].GaveUp? then 1 else 0)
  }

  /** Appending one result adds it to exactly one of the two counts. */
  lemma CountStep(rs: seq<SongResult>, r: SongResult)
    ensures Downloads(rs + [r]) == Downloads(rs) + (if r.Downloaded? then 1 else 0)
    ensures GiveUps(rs + [r]) == GiveUps(rs) + (if r.GaveUp? then 1 else 0)
  {
    assert (rs + [r])[..|rs|] == rs;
  }

  /** Every result is either a download or a failure. */
  lemma {:induction false} CountsCover(rs: seq<SongResult>)
    ensures Downloads(rs) + GiveUps(rs) == |rs|
  {
    if rs != [] {
      CountsCover(rs[..|rs| - 1]);
    }
  }

  /** The calls made for the song at `index`. */
  function SongCalls(index: nat, attempt: (nat, nat) -> Outcome): seq<Call> {
    [Call(index, 0)] + (if attempt(index, 0).success then [] else [Call(index, 1)])
  }

  /** What the download loop has accumulated: the two counters, the
      results and the calls. */
  datatype Tally = Tally(completed: nat, failed: nat, results: seq<SongResult>, calls: seq<Call>)

  /** The tally after the first `k` songs of the queue. */
  function TallyOf(queue: seq<Song>, attempt: (nat, nat) -> Outcome, k: nat): Tally
    requires k <= |queue|
  {
    if k == 0 then Tally(0, 0, [], [])
    else
      var t := TallyOf(queue, attempt, k - 1);
      var r := SongOutcome(queue[k - 1].title, k - 1, attempt);
      Tally(t.completed + (if r.Downloaded? then 1 else 0), t.failed + (if r.GaveUp? then 1 else 0),
        t.results + [r], t.calls + SongCalls(k - 1, attempt))
  }

  /** The tally's results are the songs' outcomes in queue order, and its
      calls are the calls made for them. */
  lemma {:induction false} TallyRecords(queue: seq<Song>, attempt: (nat, nat) -> Outcome, k: nat)
    requires k <= |queue|
    ensures TallyOf(queue, attempt, k).results == Outcomes(queue, attempt, k)
    ensures TallyOf(queue, attempt, k).calls == CallsOf(attempt, k)
  {
    if k > 0 {
      TallyRecords(queue, attempt, k - 1);
    }
  }

  /** The counters count the downloads and the failures among the tally's
      results, and together they count every song handled. */
  lemma {:induction false} TallyCounts(queue: seq<Song>, attempt: (nat, nat) -> Outcome, k: nat)
    requires k <= |queue|
    ensures TallyOf(queue, attempt, k).completed == Downloads(TallyOf(queue, attempt, k).results)
    ensures TallyOf(queue, attempt, k).failed == GiveUps(TallyOf(queue, attempt, k).results)
    ensures TallyOf(queue, attempt, k).completed + TallyOf(queue, attempt, k).failed == k
  {
    if k > 0 {
      TallyCounts(queue, attempt, k - 1);
      var t := TallyOf(queue, attempt, k - 1);
      var r := SongOutcome(queue[k - 1].title, k - 1, attempt);
      CountStep(t.results, r);
      assert (if r.Downloaded? then 1 else 0) + (if r.GaveUp? then 1 else 0) == 1;
    }
  }

  /** The progress reports `(current, total)` made once `k` songs are
      handled: one before the first song, then one after each. */
  function Reports(total: nat, k: nat): (p: seq<(nat, nat)>)
    ensures |p| == k + 1
    ensures forall j :: 0 <= j <= k ==> p[j] == (j, total)
  {
    if k == 0 then [(0, total)] else Reports(total, k - 1) + [(k, total)]
  }

  /** One part of the final summary line. */
  datatype Part =
    | DownloadedPart(n: nat)
    | ExistedPart(n: nat)
    | FailedPart(n: nat)
    | NoLyricsPart(n: nat)

  /** The position a part takes in the summary. */
  function Rank(p: Part): nat {
    match p
    case DownloadedPart(_) => 0
    case ExistedPart(_) => 1
    case FailedPart(_) => 2
    case NoLyricsPart(_) => 3
  }

  /** The summary parts: the download count always comes first, and each
      other count appears, in a fixed order, exactly when it is not zero. */
  function SummaryParts(completed: nat, skipped: nat, failed: nat, withoutLyrics: nat): (parts: seq<Part>)
    ensures |parts| >= 1 && parts[0] == DownloadedPart(completed)
    ensures ExistedPart(skipped) in parts <==> skipped > 0
    ensures FailedPart(failed) in parts <==> failed > 0
    ensures NoLyricsPart(withoutLyrics) in parts <==> withoutLyrics > 0
    ensures forall i :: 0 < i < |parts| ==> parts[i].n > 0
    ensures forall p :: p in parts ==>
      p in [DownloadedPart(completed), ExistedPart(skipped), FailedPart(failed), NoLyricsPart(withoutLyrics)]
    ensures forall i, j :: 0 <= i < j < |parts| ==> Rank(parts[i]) < Rank(parts[j])
  {
    [DownloadedPart(completed)] +
    (if skipped > 0 then [ExistedPart(skipped)] else []) +
    (if failed > 0 then [FailedPart(failed)] else []) +
    (if withoutLyrics > 0 then [NoLyricsPart(withoutLyrics)] else [])
  }

  /** The text of one part: the count, then what it counts. */
  function RenderPart(p: Part): (s: string)
    ensures StartsWith(s, Decimal(p.n) + " ")
  {
    match p
    case DownloadedPart(n) => Decimal(n) + " downloaded"
    case ExistedPart(n) => Decimal(n) + " already existed"
    case FailedPart(n) => Decimal(n) + " failed"
    case NoLyricsPart(n) => Decimal(n) + " no lyrics"
  }

  /** What a part's text ends with tells its kind apart: a download count
      ends in " downloaded", a failure count in " failed". */
  lemma RenderedKind(p: Part)
    ensures EndsWith(RenderPart(p), " downloaded") <==> p.DownloadedPart?
    ensures EndsWith(RenderPart(p), " failed") <==> p.FailedPart?
  {
    var s := RenderPart(p);
    var tail := s[|s| - 7..];
    assert EndsWith(s, " downloaded") ==> tail == " downloaded"[4..];
    assert EndsWith(s, " failed") ==> tail == " failed";
    match p
    case DownloadedPart(_) =>
      assert tail == " downloaded"[4..];
    case ExistedPart(_) =>
      assert tail == " already existed"[9..];
    case FailedPart(_) =>
      assert tail == " failed";
    case NoLyricsPart(_) =>
      assert tail == " no lyrics"[3..];
  }

  /** `parts.join(", ")`. */
  function Join(parts: seq<Part>): (s: string)
    ensures parts != [] ==> StartsWith(s, RenderPart(parts[0]))
  {
    if parts == [] then ""
    else if |parts| == 1 then RenderPart(parts[0])
    else RenderPart(parts[0]) + ", " + Join(parts[1..])
  }

  /** `Done! <parts>.`: it always opens with the number of downloads. */
  function SummaryLine(parts: seq<Part>): (line: string)
    requires parts != []
    ensures StartsWith(line, "Done! " + RenderPart(parts[0]))
    ensures EndsWith(line, ".")
  {
    var body := Join(parts);
    assert ("Done! " + body)[..|"Done! " + RenderPart(parts[0])|]
      == "Done! " + body[..|RenderPart(parts[0])|];
    "Done! " + body + "."
  }

  /** A summary whose first part is the download count opens with it. */
  lemma OpensWithDownloads(parts: seq<Part>, completed: nat)
    requires parts != [] && parts[0] == DownloadedPart(completed)
    ensures StartsWith(SummaryLine(parts), "Done! " + Decimal(completed) + " downloaded")
  {
    var head := "Done! " + RenderPart(parts[0]);
    assert RenderPart(parts[0]) == Decimal(completed) + " downloaded";
    assert head == "Done! " + Decimal(completed) + " downloaded";
  }

  /** How the run is closed: the summary parts, the summary line and whether
      the line is shown in the success style. */
  datatype Closing = Closing(parts: seq<Part>, line: string, successStyle: bool)

  /** The closing of a completed run: the line opens with the number of
      downloads, and the success style is used exactly when nothing failed. */
  function CloseRun(completed: nat, skipped: nat, failed: nat, withoutLyrics: nat): (c: Closing)
    ensures c.parts == SummaryParts(completed, skipped, failed, withoutLyrics)
    ensures StartsWith(c.line, "Done! " + Decimal(completed) + " downloaded")
    ensures c.successStyle <==> failed == 0
  {
    var parts := SummaryParts(completed, skipped, failed, withoutLyrics);
    OpensWithDownloads(parts, completed);
    Closing(parts, SummaryLine(parts), failed == 0)
  }
}
