/**
 * One export attempt (`triggerLyricsDownload` in content.js): a hidden frame
 * loads the lyrics page, a message listener waits for that frame's result and
 * a 30-second timer bounds the wait; `finish`, guarded by `done`, tears all
 * three down and settles the promise.
 *
 * Creating the frame, resolving its address, the listener wiring and the
 * clock are browser facilities; the model keeps whether each is in place and
 * takes the timer firing and each arriving message as method calls.
 */
module Session {
  import opened Wrappers
  import opened Protocol

  const TimeoutError := "Timeout (30s)"

  class DownloadSession {
    var done: bool
    var listenerAttached: bool
    var iframePresent: bool
    var timerActive: bool
    /** The value the promise was resolved with. */
    var result: Option<Outcome>
    /** How many times `resolve` was called. */
    var resolutions: nat

    /** Before `finish` everything is in place and nothing is settled; after
        it, the promise is settled once and nothing is left behind. */
    ghost predicate Valid()
      reads this
    {
      resolutions <= 1 &&
      (done <==> resolutions == 1) && (done <==> result.Some?) &&
      (done ==> !listenerAttached && !iframePresent && !timerActive) &&
      (!done ==> listenerAttached && iframePresent && timerActive)
    }

    /** Start the timer, attach the listener, add the frame. */
    constructor ()
      ensures Valid() && !done && resolutions == 0
    {
      done, result, resolutions := false, None, 0;
      timerActive := true;
      listenerAttached := true;
      iframePresent := true;
    }

    /** `finish(success, error)`: does nothing once done; otherwise clears the
        timer, removes the listener and the frame, and resolves. */
    method Finish(success: bool, error: Option<string>)
      requires Valid()
      modifies this
      ensures Valid() && done
      ensures old(done) ==> unchanged(this)
      ensures !old(done) ==> result == Some(Outcome(success, error))
    {
      if done {
        return;
      }
      done := true;
      timerActive := false;
      listenerAttached := false;
      iframePresent := false;
      result := Some(Outcome(success, error));
      resolutions := resolutions + 1;
    }

    /** The 30-second timer fires. */
    method OnTimeout()
      requires Valid()
      modifies this
      ensures Valid() && done
      ensures old(done) ==> unchanged(this)
      ensures !old(done) ==> result == Some(Outcome(false, Some(TimeoutError)))
    {
      if done {
        return;
      }
      Finish(false, Some(TimeoutError));
    }

    /** A message arrives at the window: `fromOwnFrame` says whether its
        source is this attempt's frame, `data` is its payload (None when
        absent). Only a result message from the own frame settles the attempt. */
    method OnMessage(fromOwnFrame: bool, data: Option<Message>)
      requires Valid()
      modifies this
      ensures Valid()
      ensures old(done) || !fromOwnFrame || !IsResult(data) ==> unchanged(this)
      ensures !old(done) && fromOwnFrame && IsResult(data) ==>
        done && result == Some(Outcome(data.value.success, data.value.error))
    {
      if done {
        return;
      }
      if !fromOwnFrame {
        return;
      }
      if !IsResult(data) {
        return;
      }
      Finish(data.value.success, data.value.error);
    }
  }

  /** Something that reaches an attempt: the timer firing, or a message. */
  datatype Event = Timeout | Arrival(fromOwnFrame: bool, data: Option<Message>)

  /** The outcome the first settling event gives, if any event settles. */
  function Settle(events: seq<Event>): Option<Outcome> {
    if events == [] then None
    else match events[0]
      case Timeout => Some(Outcome(false, Some(TimeoutError)))
      case Arrival(own, data) =>
        if own && IsResult(data) then Some(Outcome(data.value.success, data.value.error))
        else Settle(events[1..])
  }

  /** One attempt exposed to `events` in order: it settles exactly once, with
      the first timeout or trusted result message, whatever follows; and it
      leaves no timer, listener or frame behind once settled. */
  method Attempt(events: seq<Event>) returns (result: Option<Outcome>, resolutions: nat, leftovers: bool)
    ensures result == Settle(events)
    ensures resolutions == if result.Some? then 1 else 0
    ensures result.Some? ==> !leftovers
  {
    var s := new DownloadSession();
    var i := 0;
    while i < |events|
      invariant i <= |events| && s.Valid()
      invariant !s.done ==> Settle(events) == Settle(events[i..])
      invariant s.done ==> s.result == Settle(events)
    {
      assert events[i..][1..] == events[i + 1..];
      match events[i] {
        case Timeout => s.OnTimeout();
        case Arrival(own, data) => s.OnMessage(own, data);
      }
      i := i + 1;
    }
    result, resolutions := s.result, s.resolutions;
    leftovers := s.timerActive || s.listenerAttached || s.iframePresent;
  }

  /** A result message followed by the timer still gives the message's outcome, once. */
  lemma MessageThenTimeout(success: bool, error: Option<string>, url: string)
    ensures Settle([Arrival(true, Some(Message(ResultType, success, url, error))), Timeout])
      == Some(Outcome(success, error))
  {
  }

  /** The timer followed by a late result message still gives the timeout. */
  lemma TimeoutThenMessage(success: bool, error: Option<string>, url: string)
    ensures Settle([Timeout, Arrival(true, Some(Message(ResultType, success, url, error)))])
      == Some(Outcome(false, Some(TimeoutError)))
  {
  }

  /** Messages from another source, or of another type, settle nothing. */
  lemma {:induction false} StrayMessagesIgnored(events: seq<Event>)
    requires forall i :: 0 <= i < |events| ==>
      events[i].Arrival? && !(events[i].fromOwnFrame && IsResult(events[i].data))
    ensures Settle(events) == None
  {
    if events != [] {
      assert forall i :: 0 <= i < |events| - 1 ==> events[1..][i] == events[i + 1];
      StrayMessagesIgnored(events[1..]);
    }
  }

  /** The timer bounds every attempt: once it has fired the attempt is
      settled, by it or by an earlier trusted result message. */
  lemma {:induction false} TimerAlwaysSettles(events: seq<Event>)
    ensures Settle(events + [Timeout]).Some?
    ensures Settle(events) == None ==> Settle(events + [Timeout]) == Some(Outcome(false, Some(TimeoutError)))
  {
    if events != [] {
      assert (events + [Timeout])[1..] == events[1..] + [Timeout];
      TimerAlwaysSettles(events[1..]);
    }
  }
}
