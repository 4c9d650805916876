/**
 * The answer-request hook (src/hooks/useAIAnswer.js). `requestAnswer(utterance, fullContext)` trims
 * its arguments, gives up at once when there is no bridge or nothing to ask about, lets the
 * utterance and the context stand in for each other, and maps the main process's reply to a value
 * or an error. The single `getAIAnswer` call is a function parameter; its result is `None` when the
 * reply is `null` or `undefined`.
 */
module AIAnswer {
  import opened Wrappers
  import opened Text
  import opened Json
  import opened AnswerParsing

  /** How many characters of the context are sent when there is no utterance (`slice(-500)`). */
  const ContextTail: nat := 500

  const NotReadyMessage: string := "App not ready"
  const DefaultFailureMessage: string := "Answer request failed"

  /** The argument of `getAIAnswer`. */
  datatype AnswerRequest = AnswerRequest(utterance: string, fullContext: string)

  /**
   * What `requestAnswer` settles with: the `{ error }` object it returns without a bridge, `null`,
   * the parsed answer, or an `Error` it throws with the given message.
   */
  datatype Outcome = ErrorObject(error: string) | NullResult | Answer(data: Parsed) | Thrown(message: string)

  /** `String(v || '').trim()`: the trimmed text of a truthy value, otherwise the empty string. */
  function TrimmedText(v: Json): (r: string)
    ensures !Truthy(v) ==> r == ""
    ensures Truthy(v) ==> r == Trim(ToText(v))
  {
    if Truthy(v) then Trim(ToText(v)) else ""
  }

  /** The request sent for a trimmed utterance and a trimmed context: each fills in for the other when empty. */
  function RequestFor(trimmed: string, context: string): (r: AnswerRequest)
    ensures trimmed != "" ==> r.utterance == trimmed
    ensures trimmed == "" ==> |r.utterance| <= ContextTail && |r.utterance| <= |context| && r.utterance == context[|context| - |r.utterance|..]
    ensures trimmed == "" && |context| <= ContextTail ==> r.utterance == context
    ensures trimmed == "" && |context| > ContextTail ==> |r.utterance| == ContextTail
    ensures context != "" ==> r.fullContext == context
    ensures context == "" ==> r.fullContext == trimmed
    ensures trimmed != "" || context != "" ==> r.utterance != "" && r.fullContext != ""
  {
    AnswerRequest(
      if trimmed != "" then trimmed else TakeLast(context, ContextTail),
      if context != "" then context else trimmed)
  }

  /** How the reply is mapped: a successful reply's data is returned, a failure is thrown, anything else is `null`. */
  function Settle(reply: Option<IpcReply<Parsed>>): (r: Outcome)
    ensures r.Thrown? ==> r.message != ""
  {
    match reply
    case Some(Success(data)) => Answer(data)
    case Some(Failure(e)) => Thrown(if e != "" then e else DefaultFailureMessage)
    case None => NullResult
  }

  /**
   * `requestAnswer(utterance, fullContext)`: the outcome, and the requests handed to `getAIAnswer`
   * (none or one).
   */
  function RequestAnswer(apiAvailable: bool, utterance: Json, fullContext: Json,
                         getAIAnswer: AnswerRequest -> Option<IpcReply<Parsed>>): (r: (Outcome, seq<AnswerRequest>))
    ensures |r.1| <= 1
    ensures r.1 != [] ==> r.0 == Settle(getAIAnswer(r.1[0]))
    ensures !apiAvailable ==> r == (ErrorObject(NotReadyMessage), [])
  {
    if !apiAvailable then (ErrorObject(NotReadyMessage), [])
    else
      var trimmed := TrimmedText(utterance);
      var context := TrimmedText(fullContext);
      if trimmed == "" && context == "" then (NullResult, [])
      else
        var req := RequestFor(trimmed, context);
        (Settle(getAIAnswer(req)), [req])
  }

  /** A request is made exactly when the bridge exists and the utterance or the context has content; otherwise the result is `null`. */
  lemma NoRequestIffNothingToAsk(apiAvailable: bool, utterance: Json, fullContext: Json,
                                 getAIAnswer: AnswerRequest -> Option<IpcReply<Parsed>>)
    requires apiAvailable
    ensures var r := RequestAnswer(apiAvailable, utterance, fullContext, getAIAnswer);
      (r.1 == []) <==> AllSpace(TrimmedText(utterance)) && AllSpace(TrimmedText(fullContext))
    ensures var r := RequestAnswer(apiAvailable, utterance, fullContext, getAIAnswer);
      r.1 == [] ==> r.0 == NullResult
  {
    TrimIdempotentText(utterance);
    TrimIdempotentText(fullContext);
  }

  /** The text `TrimmedText` yields is empty exactly when it is all white space (it is already trimmed). */
  lemma TrimIdempotentText(v: Json)
    ensures TrimmedText(v) == "" <==> AllSpace(TrimmedText(v))
  {
    if Truthy(v) {
      TrimIdempotent(ToText(v));
    }
  }

  /**
   * The sent utterance is the trimmed utterance, or the tail of at most 500 characters of the trimmed
   * context when the utterance is blank; the sent context is the trimmed context, or the trimmed
   * utterance when the context is blank. Neither field is ever empty.
   */
  lemma {:induction false} SentRequestFallbacks(apiAvailable: bool, utterance: Json, fullContext: Json,
                             getAIAnswer: AnswerRequest -> Option<IpcReply<Parsed>>)
    requires RequestAnswer(apiAvailable, utterance, fullContext, getAIAnswer).1 != []
    ensures var req := RequestAnswer(apiAvailable, utterance, fullContext, getAIAnswer).1[0];
      var trimmed, context := TrimmedText(utterance), TrimmedText(fullContext);
      && (trimmed != "" ==> req.utterance == trimmed)
      && (trimmed == "" ==> |req.utterance| == (if |context| < ContextTail then |context| else ContextTail)
                            && context == context[..|context| - |req.utterance|] + req.utterance)
      && (context != "" ==> req.fullContext == context)
      && (context == "" ==> req.fullContext == trimmed)
      && req.utterance != "" && req.fullContext != ""
  {
    var trimmed, context := TrimmedText(utterance), TrimmedText(fullContext);
    assert RequestAnswer(apiAvailable, utterance, fullContext, getAIAnswer).1 == [RequestFor(trimmed, context)];
    if trimmed == "" {
      assert RequestFor(trimmed, context).utterance == TakeLast(context, ContextTail);
    }
  }

  /**
   * The reply mapping: a success returns its data; a failure throws its own message, or the default
   * one when the message is empty; an absent reply gives `null`. No mapping yields the `{ error }` object.
   */
  lemma SettleCases(reply: Option<IpcReply<Parsed>>)
    ensures Settle(reply).Answer? <==> reply.Some? && reply.value.Success?
    ensures Settle(reply).Answer? ==> Settle(reply).data == reply.value.data
    ensures Settle(reply).Thrown? <==> reply.Some? && reply.value.Failure?
    ensures Settle(reply).Thrown? && reply.value.error != "" ==> Settle(reply).message == reply.value.error
    ensures Settle(reply).Thrown? && reply.value.error == "" ==> Settle(reply).message == DefaultFailureMessage
    ensures Settle(reply).NullResult? <==> reply.None?
    ensures !Settle(reply).ErrorObject?
  {
  }
}
