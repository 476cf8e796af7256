# SongSelect lyrics bulk download — a verified model of its decision core

The browser extension adds a "Download All Lyrics" button to the SongSelect
song list. The button does the following:
- It raises the page size to 100 and pages through the catalogue, reading one
  record per song row. Afterwards it puts the page size back.
- It splits off the songs without a "Has Lyrics" link.
- It asks for the folder that already holds lyric files, and skips every song
  whose normalised title starts one of the file names there.
- It downloads the remaining songs one at a time, through a hidden frame that
  loads the song's lyrics page. Each song gets one retry.
- It finishes with a summary line.

Inside the frame a second script polls for the page's Export button, clicks
it, clicks Download in the menu that opens, and reports the result to the
song list page.

This project models those decisions in Dafny. Every browser fact becomes an
input value:
- a table row is the texts and attributes the scraper reads;
- a page is its rows plus whether its "next" control is usable;
- the folder picker either grants a listing or refuses with an error;
- each download attempt's outcome is a parameter;
- each timer firing or message arrival is a method call.

Modules, one file each:

- `Wrappers` (`wrappers.dfy`): `Option`.
- `Text` (`text.dfy`): ASCII lowercasing, JavaScript `trim` over its full
  whitespace set, prefixes and suffixes, decimal numerals.
- `FolderScan` (`folder_scan.dfy`): `scanExistingFiles` and `songAlreadyExists`.
- `Songs` (`songs.dfy`): `scrapeSongsFromPage`, a row into a record.
- `TotalItems` (`total_items.dfy`): `parseTotalItems` and its regular
  expression `/of\s+([\d,]+)\s+items?/i`.
- `Pages`, `Pagination` (`pages.dfy`, `pagination.dfy`): the paging loop of
  `collectAllSongs` and the page-size negotiation, as the class `CatalogView`.
- `Protocol` (`protocol.dfy`): the result message and the attempt outcome.
- `Session` (`session.dfy`): `triggerLyricsDownload`, as the class
  `DownloadSession` guarded by `done`.
- `Batch`, `Orchestration` (`batch.dfy`, `orchestration.dfy`): `downloadAll`.
  This covers the partition, the dedup loop, the retry loop with its counters
  and progress reports, and the summary.
- `ExportAutomation` (`export_automation.dfy`): lyrics-content.js, as the tick
  driven class `Poller`.

In these places the code does something a reader may not expect, and the
model follows the code:
- A `.title` element that holds only white space gives an empty title, not
  "Unknown Title" (`Songs.BlankTitleIsEmpty`).
- A row without a "Has Lyrics" link still gets a fallback address made from
  its `href`, while `hasLyricsLink` stays false (`Songs.FallbackUrlWithoutLink`).
- A "Has Lyrics" link without an `href` gives a record that has a link but a
  null address. Such a record is still scheduled for download
  (`Songs.LinkWithoutHref`).
- The page size is put back only when the original value was non-empty. An
  empty original is raised to 100 and stays there
  (`Pagination.CatalogView.CollectAllSongs`).
- The `.txt` extension is recognised in any letter case, because the name is
  lowercased before the test (`FolderScan.KeyOf`).

Prefix matching is the documented dedup rule and is kept as it is: a title
that is a prefix of another song's file counts as present. An empty
normalised title matches any non-empty folder
(`FolderScan.BlankTitleMatchesAnyKey`).

## Model

| member | source | states |
|---|---|---|
| Text.LowerChar | content.js:223 | a capital A to Z becomes the small letter at the same place in the alphabet; every other character is left alone; the result is never a capital |
| Text.Lower | content.js:209 | lowercasing keeps the length and lowercases each character in place |
| Text.LowerIdempotent | content.js:209-211 | lowercasing twice is lowercasing once |
| Text.Trim | content.js:223 | the result is no longer than the input, and neither of its ends is white space |
| Text.TrimLowerCommute | content.js:223 | trimming then lowercasing gives the same text as lowercasing then trimming |
| Text.TrimStart | content.js:223 | the result is a suffix of the input, what is dropped is white space, and the result is empty or starts with a non-space |
| Text.TrimEnd | content.js:223 | the result is a prefix of the input, what is dropped is white space, and the result is empty or ends with a non-space |
| Text.TrimIsSlice | content.js:109 | a trimmed string is a slice of the input, with only white space outside it and non-space characters at both ends |
| Text.TrimIdempotent | content.js:223 | trimming twice is trimming once |
| Text.Decimal | content.js:380 | a number's numeral is a non-empty run of digits, without a leading zero unless the number is zero |
| Text.DecimalValue | content.js:134 | the value read from a run of digits is zero exactly when every digit is '0' |
| Text.DecimalRoundTrip | content.js:134 | reading back a number's numeral gives the number |
| FolderScan.KeyOf | content.js:209-211 | an entry gives a key exactly when it is a file whose lowercased name ends in ".txt", and the key plus ".txt" is that lowercased name |
| FolderScan.KeysOf | content.js:207-214 | the listing gives at most one key per entry, and each key is held once, as a Set holds it |
| FolderScan.KeysOfExactly | content.js:207-214 | the keys are exactly those some entry of the listing gives |
| FolderScan.ScanExistingFiles | content.js:198-215 | a user cancel gives null, any other picker error is thrown with its message, and a granted folder gives the keys of its listing |
| FolderScan.Normalize | content.js:223 | the title compared is the lowercased, trimmed title, the same as the trimmed, lowercased title, and neither of its ends is white space |
| FolderScan.AnyStartsWith | content.js:224-229 | the search succeeds exactly when some key starts with the title |
| FolderScan.SongAlreadyExists | content.js:222-230 | true exactly when some key starts with the lowercased, trimmed title |
| FolderScan.ExactKeyMatches | content.js:225 | a key equal to the normalised title is a match |
| FolderScan.BlankTitleMatchesAnyKey | content.js:223-229 | a title that normalises to "" matches exactly when the folder holds any key |
| FolderScan.OnlyMembershipMatters | content.js:224-229 | the answer depends only on which keys are present, not on their order |
| FolderScan.SuffixedFileIsRecognised | content.js:217-229 | a file named after the title plus any suffix, such as "-lyrics", with a ".txt" extension gives a key that marks the song as present |
| Songs.ViewLyricsUrl | content.js:117-118 | the address ends in "/viewlyrics"; an href ending in a slash loses that one slash before "/viewlyrics", and any other href is kept whole |
| Songs.TrailingSlashIgnored | content.js:118 | an href and the same href with one trailing slash give the same address |
| Songs.OnlyOneSlashDropped | content.js:118 | of two trailing slashes only one is dropped |
| Songs.SongOfRow | content.js:108-125 | the title is the trimmed title text, or "Unknown Title" when the element is absent; the record has a lyrics link exactly when the row has one; the address is the link's href, or else the fallback made from a non-empty href |
| Songs.FallbackUrlWithoutLink | content.js:114-124 | a row without a lyrics link but with an href gets the fallback address and is not flagged as having a link |
| Songs.LinkWithoutHref | content.js:115-116 | a lyrics link without an href gives a record flagged as having a link but with no address |
| Songs.BlankTitleIsEmpty | content.js:108-109 | a title element holding only white space gives the empty title |
| Songs.SongsOf | content.js:107-126 | one record per row, each the record of the row at the same position |
| Songs.ScrapeSongsFromPage | content.js:104-128 | the scraper yields the records of the rows, in document order |
| Songs.SongsOfAppend | content.js:170 | the records of two row runs, concatenated, are the records of the concatenated runs |
| TotalItems.MatchAt | content.js:133 | a match starts with "of" in either case, and its group is a non-empty run of digits and commas |
| TotalItems.MatchAtSound | content.js:133 | a match found by the scanner is a way for the regular expression to match there, and its group is the text between |
| TotalItems.MatchAtComplete | content.js:133 | wherever the regular expression can match, the scanner finds that match with the same group |
| TotalItems.SplitRuns | content.js:133 | any way to match is made of the maximal runs of spaces, of digits and commas, and of spaces, so backtracking finds no other |
| TotalItems.FirstMatch | content.js:133 | the position found is the leftmost at which the pattern matches, and no position matches when none is found |
| TotalItems.RemoveCommas | content.js:134 | the result holds no comma; a character other than a comma is in the result exactly when it is in the input; text without commas is unchanged |
| TotalItems.RemoveCommasAppend | content.js:134 | commas are removed piece by piece, so what remains keeps its order |
| TotalItems.ParseTotalItems | content.js:130-136 | no status element, or no match anywhere in its text, gives null; otherwise the leftmost match's group, without its commas, is read in decimal, NaN when nothing is left |
| TotalItems.CountRoundTrip | content.js:130-135 | the status text "of N items" reads back as N |
| TotalItems.ThousandsSeparator | content.js:133-134 | the status text "of 1,234 items" reads as 1234 |
| Pages.LastPage | content.js:172-175 | the page found is the first without a usable "next" control, and every page before it has one |
| Pages.Visited | content.js:163-181 | the rows read include at least those of the page on screen |
| Pages.VisitedUpToLastPage | content.js:163-181 | the rows read are those of the pages up to and including the first page without a usable "next" control; later pages are never read |
| Pages.VisitedStep | content.js:169-180 | one pass of the loop reads the current page, then continues with the next page exactly when the current page's control is usable |
| Pagination.ScrapePages | content.js:160-181 | the loop clicks "next" once per page before the last one, and accumulates the records of every page it reads, in order |
| Pagination.CatalogView.CollectAllSongs | content.js:138-189 | the view moves to the last page and the records of all pages read are returned; a change event is sent for "100" if the size was not 100; the original size is restored, with a second event, when it was non-empty and differs |
| Batch.Filter | content.js:294-331 | the songs kept are no more than the songs given, and each kept song passes the test |
| Batch.FilterMembers | content.js:294-331 | the songs kept are exactly those the test accepts: those with (or without) a lyrics link, and those not yet in the folder |
| Batch.FilterAppend | content.js:294-295 | filtering keeps the order: filtering a concatenation concatenates the filtered parts |
| Batch.FilterIdempotent | content.js:294-295 | filtering twice with the same test keeps the same songs |
| Batch.PartitionSizes | content.js:294-295 | the songs with and without lyrics together are all the songs, each exactly once |
| Batch.DedupIdempotent | content.js:321-331 | deduplicating twice against the same folder removes nothing more |
| Batch.ErrorText | content.js:366 | the logged reason is the retry's error when it is present and non-empty, and "unknown error" when it is absent or empty |
| Batch.SongOutcome | content.js:352-368 | a song is downloaded exactly when its first or second attempt succeeds, on the retry exactly when the first failed; otherwise it is given up with the retry's reason |
| Batch.Outcomes | content.js:351-375 | one result per handled song, each that song's outcome, in queue order |
| Batch.CallsExactly | content.js:351-368 | every song is attempted, a second time exactly when the first attempt failed, and never a third time |
| Batch.CallsInOrder | content.js:351-368 | the calls are made song by song, the first attempt before the retry, and none is made twice |
| Batch.CountsCover | content.js:344-371 | every result is either a download or a failure |
| Batch.TallyRecords | content.js:351-375 | the loop's results are the songs' outcomes and its calls are the calls made for them |
| Batch.TallyCounts | content.js:344-371 | `completed` counts the downloads, `failed` counts the failures, and together they count the songs handled |
| Batch.Reports | content.js:348-371 | progress is reported once before the first song and after each song, as (songs handled, total) |
| Batch.SummaryParts | content.js:380-383 | the download count always comes first; the already-existed, failed and no-lyrics counts each appear, in that order, exactly when they are not zero; no part carries any other number |
| Batch.RenderPart | content.js:380-383 | a part's text opens with its count and a space |
| Batch.RenderedKind | content.js:380-383 | a part's text ends in " downloaded" exactly when it is the download count, and in " failed" exactly when it is the failure count |
| Batch.Join | content.js:385 | the joined text opens with the first part |
| Batch.SummaryLine | content.js:384-387 | the line opens with "Done! " and the first part, and ends with a full stop |
| Batch.CloseRun | content.js:378-387 | the summary opens with "Done! <completed> downloaded", and the success style is used exactly when nothing failed |
| Orchestration.Dedup | content.js:321-331 | the queue is the songs not in the folder, and skipped plus queued is the number of songs with lyrics |
| Orchestration.DownloadSong | content.js:352-368 | one song is attempted once, and once more when the first attempt failed; its result is the song's outcome |
| Orchestration.RunDownloads | content.js:344-375 | the results are `Batch.Outcomes`, the calls are `Batch.CallsOf`, the counters are `Batch.Downloads` and `Batch.GiveUps` of the results, the progress reports are `Batch.Reports`, and `completed + failed` equals the queue length |
| Orchestration.DownloadNew | content.js:321-387 | nothing is downloaded when every song is present; otherwise every song with lyrics is skipped, downloaded or failed, with the summary of those counts; skipped plus queued is the number of songs with lyrics |
| Orchestration.Process | content.js:284-393 | `Orchestration.ProcessedAs`: each early exit happens exactly in its case (no songs, none with lyrics, cancelled folder, picker error, every song with lyrics already present); a completed run has a non-empty queue, its results are the queue's outcomes, `completed` and `failed` count the downloads and failures, `skipped` is the songs with lyrics minus the queue, `withoutLyrics` the songs without a link, the calls and progress reports are those of the queue, and the four counters add up to the songs collected |
| Orchestration.DownloadAll | content.js:278-394 | the view ends on the last page, with the page size and change events of `collectAllSongs`; the records of the pages read end exactly as `Orchestration.ProcessedAs` states for `Orchestration.Process`, and a completed run accounts for every row read |
| Session.DownloadSession.constructor | content.js:247-272 | an attempt starts unsettled, with the timer, the listener and the frame in place |
| Session.DownloadSession.Finish | content.js:254-261 | a second call changes nothing; the first settles the attempt with the given outcome and removes the timer, the listener and the frame |
| Session.DownloadSession.OnTimeout | content.js:249-252 | a timeout settles an unsettled attempt as a failure, "Timeout (30s)" |
| Session.DownloadSession.OnMessage | content.js:263-268 | only a result message from the attempt's own frame settles it, with that message's success and error; anything else changes nothing |
| Session.Attempt | content.js:247-268 | whatever the order of events, the attempt settles at most once, with the first timeout or trusted result message, and leaves nothing behind once settled |
| Session.MessageThenTimeout | content.js:250-255 | a timer firing after a result message does not change the outcome |
| Session.TimeoutThenMessage | content.js:264 | a result message arriving after the timeout does not change the outcome |
| Session.StrayMessagesIgnored | content.js:265-266 | messages from another source or of another type never settle an attempt |
| Session.TimerAlwaysSettles | content.js:249-252 | once the timer has fired the attempt is settled, by the timer if nothing settled it before |
| ExportAutomation.Poller.constructor | lyrics-content.js:5-24 | inside a frame the script starts polling; as a top-level page it never acts |
| ExportAutomation.Poller.Tick | lyrics-content.js:24-49 | each tick counts one attempt; the 41st reports "Timeout: could not find Export button" and stops; earlier ticks click Export when it is there, and then stop polling |
| ExportAutomation.Poller.AfterMenuDelay | lyrics-content.js:54-80 | after the Export click, Download is clicked when it is there; otherwise "Could not find Download button in Export menu" is reported; the attempt counter is unchanged |
| ExportAutomation.Poller.AfterReportDelay | lyrics-content.js:59-68 | success is reported only after Download was clicked; the attempt counter is unchanged |
| ExportAutomation.FirstExport | lyrics-content.js:25-45 | the tick found is the first of the 40 looking ticks at which Export shows |
| ExportAutomation.Run | lyrics-content.js:19-83 | the page posts `ExportAutomation.ExpectedPosts`; Export is clicked once exactly when it shows within 40 ticks, Download at most once and only after Export |
| ExportAutomation.AtMostOneReport | lyrics-content.js:27-77 | at most one message is posted; it is a result message carrying the page address, and it reports success only when Download was found |
| ExportAutomation.LateButtonIgnored | lyrics-content.js:25-45 | an Export button that first shows after the 40th tick comes too late: the timeout is reported |

## Left out

- The overlay, status texts, log lines and the button's disabled state
  (content.js:6-66) are not modelled. The download loop's results carry what
  the log reports for each song. The progress bar's percentage width is not
  modelled.
- `sleep` and `waitForTableUpdate` (content.js:70-100) are not modelled. The
  only thing kept from every timer is the order of events, not its duration.
- The folder picker and the asynchronous listing of the folder are inputs. An
  error raised in the middle of the listing is not modelled.
- `new URL(song.lyricsUrl, window.location.origin)` (content.js:240) is not
  modelled. Address resolution is treated as opaque.
- Creating the frame, `postMessage` and the listener wiring are not modelled.
  A message is given as the flag "sent by this attempt's frame" plus its
  payload.
- `waitForReady` (lyrics-content.js:9-17) is not modelled. The poller starts
  once the document is ready.
- An exception thrown while collecting songs, or thrown by
  `new URL(song.lyricsUrl, ...)` at content.js:240 for an address it cannot
  resolve, is not modelled. In the source either one ends the whole run
  through the catch at content.js:389-393. In the model `Errored` comes only
  from the folder picker, and every download attempt resolves.
- Text.Lower: lowercases only the ASCII letters A to Z. JavaScript's
  `toLowerCase` also maps other letters.
- TotalItems.ParseTotalItems: returns the exact count. `parseInt` loses
  precision beyond 2^53. Its result feeds only the status text, so it has no
  effect on the songs collected.
- Pagination.CatalogView.CollectAllSongs: requires some page, from the one on
  screen onward, without a usable "next" control. The source would loop
  forever otherwise.
- Pagination.CatalogView.CollectAllSongs: the pages are given as they read
  once the page size is settled. The model assumes the select accepts the
  value "100".
- Pagination.ScrapePages: the paging loop is a module-level method that the
  class calls with the pages from the one on screen onward. The class then
  advances `shown` by the number of clicks.
- Orchestration.RunDownloads: the outcome of each call of
  `triggerLyricsDownload` is given by `attempt(song, attemptNumber)`, not
  computed from a `DownloadSession`. `Session.TimerAlwaysSettles` shows that
  such an outcome always exists.
- Session.DownloadSession.OnMessage: takes the payload (`Option<Message>`) in
  place of a precomputed "type matches" flag, so the test for a missing
  payload and for the type is part of the model.
- ExportAutomation.Poller.Tick: requires the interval to be running. A cleared
  interval never fires again. `ExportAutomation.Run` ends when the given ticks
  run out.
