/**
 * The decision logic of `AIEvaluator.analyzeSpeech`: the credential checks
 * before the model call and the classification of caught errors into failure
 * results. The network call, the audio encoding and the JSON parsing are
 * given as an input (`CallOutcome`).
 */
module Gemini {
  import opened Wrappers
  import opened Types
  import opened Text

  /** The reserved `transcribed` value of a failure result. */
  const FailureMarker: string := "[분석 실패]"

  // Each key message is written as "API" followed by the rest of the literal, so that
  // the verifier can see its first three characters (it does not index long literals).

  /** Feedback when no key is injected and the platform dialog has none selected. */
  const KeyNotSetMessage: string := "API" + " 키가 설정되지 않았습니다. 상단 또는 팝업에서 키를 선택한 후 다시 시도해주세요."
  /** Feedback when no key is injected and the dialog cannot supply one. */
  const KeyNotFoundMessage: string := "API" + " 키를 찾을 수 없습니다. 환경 설정을 확인하거나 키를 선택해주세요."
  /** Feedback when the call failed with a key-related error. */
  const KeyInvalidMessage: string := "API" + " 키가 유효하지 않거나 만료되었습니다. 키를 다시 선택해주세요."
  /** Feedback for every other failure of the call. */
  const GenericMessage: string := "분석 중 오류가 발생했습니다. 잠시 후 다시 시도해 주세요."
  /** The message of the error thrown when the model's reply has no text. */
  const EmptyReplyMessage: string := "No response text from Gemini"

  /** The feedback values a failure result can carry. */
  predicate IsSentinelMessage(m: string)
  {
    m == KeyNotSetMessage || m == KeyNotFoundMessage || m == KeyInvalidMessage || m == GenericMessage
  }

  /** The host platform's key-selection dialog, if the page runs inside one. */
  datatype Platform = NoDialog | Dialog(hasSelectedKey: bool)

  /**
   * What happens inside the guarded block once a key is present: either the
   * model replies with `text`, which parses to `parsed`, or some step (client
   * construction, reading the audio, the request, parsing a malformed reply)
   * throws an error whose `message` may be absent. A reply whose text is
   * non-empty but does not parse (whitespace only, say) is a `Thrown` with
   * the parser's message, not a `Reply`.
   */
  datatype CallOutcome =
    | Reply(text: string, parsed: EvaluationResult)
    | Thrown(message: Option<string>)

  /** An injected key counts only when it is a non-empty string. */
  predicate HasKey(apiKey: Option<string>)
    ensures HasKey(apiKey) <==> apiKey.Some? && |apiKey.value| > 0
  {
    apiKey.Some? && apiKey.value != ""
  }

  /** A result built by `getErrorResult`: zero scores and the failure marker. */
  predicate IsFailure(r: EvaluationResult)
  {
    r.accuracy == 0.0 && r.intonation == 0.0 && r.fluency == 0.0 && r.transcribed == FailureMarker
  }

  /** `getErrorResult`: the failure result carrying `message` as its feedback. */
  function ErrorResult(message: string): (r: EvaluationResult)
    ensures IsFailure(r) && r.feedback == message
  {
    EvaluationResult(0.0, 0.0, 0.0, FailureMarker, message)
  }

  /** A failure result is determined by its feedback alone. */
  lemma FailureDeterminedByFeedback(r: EvaluationResult)
    requires IsFailure(r)
    ensures r == ErrorResult(r.feedback)
  {
  }

  /** The error the guarded block throws, if any: an empty reply text throws too. */
  function Caught(call: CallOutcome): (e: Option<Option<string>>)
    ensures e.None? <==> call.Reply? && call.text != ""
    // an empty reply throws the fixed message
    ensures call.Reply? && call.text == "" ==> e == Some(Some(EmptyReplyMessage))
    // a thrown error is caught with its own message, which is then inspected
    ensures call.Thrown? ==> e == Some(call.message)
  {
    match call
    case Reply(text, _) => if text == "" then Some(Some(EmptyReplyMessage)) else None
    case Thrown(message) => Some(message)
  }

  /** A caught error whose message mentions "API key" or "not found" is about the key. */
  predicate IsKeyError(message: Option<string>)
    ensures IsKeyError(message) <==>
      message.Some? &&
      ((exists i :: OccursAt(message.value, "API key", i)) || (exists i :: OccursAt(message.value, "not found", i)))
  {
    match message
    case None => false
    case Some(m) =>
      IncludesIffOccurs(m, "API key");
      IncludesIffOccurs(m, "not found");
      Includes(m, "API key") || Includes(m, "not found")
  }

  /** A message without the letters 'A' and 'u' is never taken for a key error. */
  lemma NotKeyErrorWithout(message: string)
    requires 'A' !in message && 'u' !in message
    ensures !IsKeyError(Some(message))
  {
    MissingCharExcludes(message, "API key", 'A');
    MissingCharExcludes(message, "not found", 'u');
  }

  /** An empty reply is classified as a generic failure, not a key failure. */
  lemma EmptyReplyIsGeneric()
    ensures !IsKeyError(Some(EmptyReplyMessage))
    ensures forall p: EvaluationResult :: !IsKeyError(Caught(Reply("", p)).value)
  {
    NotKeyErrorWithout(EmptyReplyMessage);
  }

  /**
   * `analyzeSpeech`. Returns the evaluation, whether the guarded block that
   * calls the model was entered, and whether the key-selection dialog was opened.
   */
  method AnalyzeSpeech(apiKey: Option<string>, platform: Platform, call: CallOutcome)
    returns (r: EvaluationResult, attempted: bool, openedSelector: bool)
    // no key, and the dialog has none selected: open it and report "not set"
    ensures !HasKey(apiKey) && platform == Dialog(false) ==>
      r == ErrorResult(KeyNotSetMessage) && openedSelector
    // no key in any other case: report "not found" without opening anything
    ensures !HasKey(apiKey) && platform != Dialog(false) ==>
      r == ErrorResult(KeyNotFoundMessage) && !openedSelector
    // the guarded block (client, audio, model call) is entered exactly when a key is present
    ensures attempted <==> HasKey(apiKey)
    // a non-empty reply is returned as parsed
    ensures HasKey(apiKey) && Caught(call).None? ==> r == call.parsed && !openedSelector
    // a key-related error: reopen the dialog if there is one, report "invalid"
    ensures HasKey(apiKey) && Caught(call).Some? && IsKeyError(Caught(call).value) ==>
      r == ErrorResult(KeyInvalidMessage) && (openedSelector <==> platform.Dialog?)
    // any other error, an empty reply included: the generic failure
    ensures HasKey(apiKey) && Caught(call).Some? && !IsKeyError(Caught(call).value) ==>
      r == ErrorResult(GenericMessage) && !openedSelector
    // every result is the model's own reply or a failure with a known message
    ensures (IsFailure(r) && IsSentinelMessage(r.feedback)) || (HasKey(apiKey) && r == call.parsed)
  {
    attempted, openedSelector := false, false;
    if !HasKey(apiKey) && platform.Dialog? {
      if !platform.hasSelectedKey {
        openedSelector := true;
        r := ErrorResult(KeyNotSetMessage);
        return;
      }
    }

    if !HasKey(apiKey) {
      r := ErrorResult(KeyNotFoundMessage);
      return;
    }

    attempted := true;
    var message: Option<string>;
    match call {
      case Reply(text, parsed) =>
        if text != "" {
          r := parsed;
          return;
        }
        message := Some(EmptyReplyMessage);
      case Thrown(m) =>
        message := m;
    }

    if message.Some? && (Includes(message.value, "API key") || Includes(message.value, "not found")) {
      if platform.Dialog? {
        openedSelector := true;
      }
      r := ErrorResult(KeyInvalidMessage);
      return;
    }

    r := ErrorResult(GenericMessage);
  }

  /** The three key-related messages mention "API"; the generic one does not. */
  lemma KeyMessagesMentionApi()
    ensures Includes(KeyNotSetMessage, "API")
    ensures Includes(KeyNotFoundMessage, "API")
    ensures Includes(KeyInvalidMessage, "API")
    ensures !Includes(GenericMessage, "API")
  {
    IncludesPrefix("API", KeyNotSetMessage[3..]);
    IncludesPrefix("API", KeyNotFoundMessage[3..]);
    IncludesPrefix("API", KeyInvalidMessage[3..]);
    MissingCharExcludes(GenericMessage, "API", 'A');
  }
}
