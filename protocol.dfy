/**
 * The message the lyrics page, loaded in a hidden frame, posts to the song
 * list page, and the outcome one export attempt resolves with.
 */
module Protocol {
  import opened Wrappers

  /** The `type` every result message carries. */
  const ResultType := "SSLD_LYRICS_RESULT"

  /** `{type, success, url, error}` as posted with `postMessage`. */
  datatype Message = Message(kind: string, success: bool, url: string, error: Option<string>)

  /** `{success, error}`, the value `triggerLyricsDownload` resolves with. */
  datatype Outcome = Outcome(success: bool, error: Option<string>)

  /** Whether a message is a result message: present and of the result type. */
  predicate IsResult(data: Option<Message>) {
    data.Some? && data.value.kind == ResultType
  }
}
