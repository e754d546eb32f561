/**
 * The boundary between the background worker and the content script running in the Grok
 * tab. Everything the content script does on the page is outside this model; what remains
 * is the normalised outcome of each `sendToContentScript` call, and the popup commands that
 * can arrive while such a call is awaited.
 */
module Messaging {
  import opened Wrappers

  /**
   * The fields of a content-script response the background reads. A field the script did
   * not send is its falsy value: `false`, the empty string, or `None` for the thumbnail list.
   * A thumbnail is represented by its `src`.
   */
  datatype Response = Response(
    success: bool,
    error: string,
    videoUrl: string,
    inEditMode: bool,
    thumbnails: Option<seq<string>>,
    dataUrl: string)

  /** `{ success: true }`, what an empty reply resolves to. */
  const EmptyReply := Response(true, "", "", false, None, "")

  /** A settled `sendToContentScript` promise: resolved with a response, or rejected with a message. */
  datatype Outcome = Ok(response: Response) | Err(message: string)

  /**
   * The result mapping of `sendToContentScript`: a transport error rejects with its message;
   * a reply carrying a (non-empty) `error` rejects with that error; any other reply resolves,
   * and a missing reply resolves to `{ success: true }`.
   */
  function SendResult(lastError: Option<string>, reply: Option<Response>): (r: Outcome)
    ensures r.Err? <==> lastError.Some? || (reply.Some? && reply.value.error != [])
    ensures lastError.Some? ==> r == Err(lastError.value)
    ensures lastError.None? && reply.Some? && reply.value.error != [] ==> r == Err(reply.value.error)
    ensures r.Ok? ==> r.response.error == [] && r.response == reply.GetOr(EmptyReply)
  {
    if lastError.Some? then Err(lastError.value)
    else if reply.Some? && reply.value.error != [] then Err(reply.value.error)
    else Ok(reply.GetOr(EmptyReply))
  }

  /** What `sendToContentScript` can resolve with: a reply without an error. */
  predicate IsSettled(o: Outcome) {
    o.Ok? ==> o.response.error == []
  }

  /** Every outcome the mapping produces is settled, and every settled outcome is produced by it. */
  lemma SendResultRange(o: Outcome)
    ensures IsSettled(o) <==> exists e, reply :: SendResult(e, reply) == o
  {
    if IsSettled(o) {
      match o
      case Ok(resp) => assert SendResult(None, Some(resp)) == o;
      case Err(m) => assert SendResult(Some(m), None) == o;
    }
  }

  /** `!!tabId`: a tab id is set and is not 0. */
  predicate HasTab(tab: Option<int>) {
    tab.Some? && tab.value != 0
  }

  /** A popup command handled while the background awaits the content script. */
  datatype Control = PauseCommand | StopCommand
}
