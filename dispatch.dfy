/**
 * The chat reply paths of app.py: the browser route `/get` with its mode
 * router and the two post-filters of the `problem` mode, and the JSON route
 * `/api/chat`, which validates its body, defaults the mode and skips both
 * post-filters. Every collaborator the routes call (the intent classifier,
 * the retrieval answer, the generated answer) is a parameter.
 */
module Dispatch {
  import opened Wrappers
  import opened Http
  import opened PyStr

  /** The catalog reply that asks for the user's name; `/get` answers it with the intake form. */
  const NamePrompt: string := "Dạ bạn cho mình xin họ và tên ạ"

  /** The opening of the generic "tell me more" replies. */
  const DetailPrefix: string := "bạn có thể"

  /** The fixed request for more detail that replaces such a reply on a short message. */
  const Clarification: string :=
    "mình chưa rõ lắm, " + "bạn có thể cho mình xin thêm thông tin về vấn đề bạn đang gặp phải không ạ"

  /** A message split on commas into fewer pieces than this counts as short. */
  const MinPieces: nat := 3

  /** The text of the `AttributeError` raised by `None.split(',')`. */
  const NoneHasNoSplit: string := "'NoneType' object has no attribute 'split'"

  /** The text of the `IndexError` raised by indexing past the end of a list. */
  const IndexOutOfRange: string := "list index out of range"

  /** The error text `/api/chat` sends when the body has no message. */
  const MissingMessage: string := "Missing message field"

  /** The answer text and confidence that `disease_response` returns. */
  datatype Classification = Classification(answer: string, confidence: real)

  /**
   * The collaborators the routes call, each on the message exactly as the
   * route received it. A `Failure(e)` is a call that raised, `e` its text.
   * - classify: `disease_response` (segmenter, tokenizer, classifier, catalog);
   * - detectIntent: segmentation, encoding and arg-max of the classifier
   *   output, giving the index into `tags_set`;
   * - retrieve: `problem_response` over the retrieval index;
   * - generate: `chatgpt_response`, the external generation service.
   */
  datatype Services = Services(
    classify: Json -> Result<Classification, string>,
    detectIntent: Json -> Result<nat, string>,
    retrieve: Json -> Result<string, string>,
    generate: Json -> Result<string, string>)

  /** What `/get` sends back. */
  datatype Reply =
    | RedirectToForm        // a redirect to the intake form
    | Text(body: string)    // a plain-text reply
    | NoReply               // the view returns None
    | Raised(error: string) // the view raised; Flask answers 500

  /** A query argument as the collaborators receive it: the string, or Python's `None`. */
  function Arg(v: Option<string>): Json
  {
    match v
    case Some(t) => JStr(t)
    case None => JNull
  }

  /** A collaborator's answer as a `/get` reply. */
  function ReplyOf(r: Result<string, string>): Reply
  {
    match r
    case Success(t) => Text(t)
    case Failure(e) => Raised(e)
  }

  /** True when the classifier answers `msg` with exactly `answer`. */
  predicate Answers(svc: Services, msg: Json, answer: string)
  {
    svc.classify(msg).Success? && svc.classify(msg).value.answer == answer
  }

  /** The three modes `/get` recognises. */
  predicate KnownMode(mode: Option<string>)
  {
    mode == Some("problem") || mode == Some("thongtin") || mode == Some("chatgpt")
  }

  /**
   * The post-filters of the `problem` mode: the name prompt becomes a redirect;
   * a "tell me more" answer to a message of fewer than three comma-separated
   * pieces becomes the fixed clarification; anything else passes unchanged.
   */
  function ProblemFilter(answer: string, userText: Option<string>): (r: Reply)
    ensures r == RedirectToForm <==> answer == NamePrompt
    ensures r.Text? ==> r.body == answer || r.body == Clarification
    ensures r.Raised? <==> userText == None && answer != NamePrompt && StartsWith(answer, DetailPrefix)
    ensures r.Raised? ==> r.error == NoneHasNoSplit
  {
    if answer == NamePrompt then RedirectToForm
    else if StartsWith(answer, DetailPrefix) then
      match userText
      case None => Raised(NoneHasNoSplit)
      case Some(t) => if |Split(t, ',')| < MinPieces then Text(Clarification) else Text(answer)
    else Text(answer)
  }

  /**
   * The `/get` view for query arguments `msg` and `mode`. The classifier runs
   * first, whatever the mode; then the mode picks the reply.
   */
  function GetBotResponse(msg: Option<string>, mode: Option<string>, svc: Services): (r: Reply)
    ensures r == RedirectToForm <==> mode == Some("problem") && Answers(svc, Arg(msg), NamePrompt)
    ensures r == NoReply <==> svc.classify(Arg(msg)).Success? && !KnownMode(mode)
    ensures svc.classify(Arg(msg)).Failure? ==> r == Raised(svc.classify(Arg(msg)).error)
  {
    match svc.classify(Arg(msg))
    case Failure(e) => Raised(e)
    case Success(c) =>
      if mode == Some("problem") then ProblemFilter(c.answer, msg)
      else if mode == Some("thongtin") then ReplyOf(svc.retrieve(Arg(msg)))
      else if mode == Some("chatgpt") then ReplyOf(svc.generate(Arg(msg)))
      else NoReply
  }

  /** The JSON object `/api/chat` returns on success. */
  datatype ChatReply = ChatReply(response: string, confidence: real, intent: string, mode: Json)

  /** The mode `/api/chat` acts on: the body's `mode`, `"problem"` when the key is absent. */
  function ChatMode(data: map<string, Json>): Json
  {
    Get(data, "mode", JStr("problem"))
  }

  /**
   * The `/api/chat` view for the parsed JSON body `body` (None when there is
   * none) and the intent labels `tags` (`tags_set`). The classifier and the
   * intent detector both run before the mode is looked at; any exception they
   * or the chosen collaborator raise becomes a 500 carrying its text.
   */
  function ApiChat(body: Option<map<string, Json>>, tags: seq<string>, svc: Services): (r: Result<ChatReply, ApiError>)
    ensures r == Failure(ApiError(400, MissingMessage)) <==> body == None || "message" !in body.value
    ensures r.Failure? ==> r.error.status == 400 || r.error.status == 500
    ensures r.Success? ==> body.Some? && r.value.mode == ChatMode(body.value)
    ensures r.Success? ==> r.value.intent in tags
    ensures (body.Some? && "message" in body.value && svc.classify(body.value["message"]).Failure?)
              ==> r == Failure(ApiError(500, svc.classify(body.value["message"]).error))
    ensures (body.Some? && "message" in body.value && svc.classify(body.value["message"]).Success?
             && svc.detectIntent(body.value["message"]).Failure?)
              ==> r == Failure(ApiError(500, svc.detectIntent(body.value["message"]).error))
  {
    // An empty object fails `not data` and the key test alike.
    if body == None || "message" !in body.value then Failure(ApiError(400, MissingMessage))
    else
      var message := body.value["message"];
      var mode := ChatMode(body.value);
      match svc.classify(message)
      case Failure(e) => Failure(ApiError(500, e))
      case Success(c) =>
        match svc.detectIntent(message)
        case Failure(e) => Failure(ApiError(500, e))
        case Success(k) =>
          if k >= |tags| then Failure(ApiError(500, IndexOutOfRange))
          else
            var answer :=
              if mode == JStr("thongtin") then svc.retrieve(message)
              else if mode == JStr("chatgpt") then svc.generate(message)
              else Success(c.answer);
            match answer
            case Failure(e) => Failure(ApiError(500, e))
            case Success(text) => Success(ChatReply(text, c.confidence, tags[k], mode))
  }

  // ---- `/get`, mode "problem" ----

  /**
   * A "tell me more" answer to a message with at most one comma (so fewer than
   * three comma-separated pieces) is replaced by the fixed clarification.
   */
  lemma ShortMessageClarified(t: string, svc: Services, answer: string)
    requires Answers(svc, JStr(t), answer)
    requires answer != NamePrompt && StartsWith(answer, DetailPrefix)
    requires Count(t, ',') <= 1
    ensures GetBotResponse(Some(t), Some("problem"), svc) == Text(Clarification)
  {
  }

  /**
   * Any other answer is sent unchanged: one that does not start with the
   * "tell me more" opening, or one given to a message with two or more commas.
   */
  lemma OtherAnswersUnchanged(msg: Option<string>, svc: Services, answer: string)
    requires Answers(svc, Arg(msg), answer) && answer != NamePrompt
    requires !StartsWith(answer, DetailPrefix) || (msg.Some? && Count(msg.value, ',') >= 2)
    ensures GetBotResponse(msg, Some("problem"), svc) == Text(answer)
  {
  }

  /** The name prompt is recognised before the comma test: it redirects whatever the message. */
  lemma NamePromptRedirects(msg: Option<string>, svc: Services)
    requires Answers(svc, Arg(msg), NamePrompt)
    ensures GetBotResponse(msg, Some("problem"), svc) == RedirectToForm
  {
  }

  // ---- `/get`, the delegated modes ----

  /** Mode "thongtin" sends the retrieval answer as it is, with neither post-filter. */
  lemma RetrievalModeUnfiltered(msg: Option<string>, svc: Services)
    requires svc.classify(Arg(msg)).Success?
    ensures svc.retrieve(Arg(msg)).Success? ==>
              GetBotResponse(msg, Some("thongtin"), svc) == Text(svc.retrieve(Arg(msg)).value)
    ensures svc.retrieve(Arg(msg)).Failure? ==>
              GetBotResponse(msg, Some("thongtin"), svc) == Raised(svc.retrieve(Arg(msg)).error)
  {
  }

  /** Mode "chatgpt" sends the generated answer as it is, with neither post-filter. */
  lemma GenerationModeUnfiltered(msg: Option<string>, svc: Services)
    requires svc.classify(Arg(msg)).Success?
    ensures svc.generate(Arg(msg)).Success? ==>
              GetBotResponse(msg, Some("chatgpt"), svc) == Text(svc.generate(Arg(msg)).value)
    ensures svc.generate(Arg(msg)).Failure? ==>
              GetBotResponse(msg, Some("chatgpt"), svc) == Raised(svc.generate(Arg(msg)).error)
  {
  }

  // ---- `/api/chat` ----

  /** A body without a message is refused before any collaborator is called. */
  lemma MissingMessageRefused(body: Option<map<string, Json>>, tags: seq<string>, svc1: Services, svc2: Services)
    requires body == None || "message" !in body.value
    ensures ApiChat(body, tags, svc1) == ApiChat(body, tags, svc2) == Failure(ApiError(400, MissingMessage))
  {
  }

  /** Leaving `mode` out of the body is the same as sending `"problem"`. */
  lemma ChatModeDefaultsToProblem(data: map<string, Json>, tags: seq<string>, svc: Services)
    requires "mode" !in data
    ensures ApiChat(Some(data), tags, svc) == ApiChat(Some(data["mode" := JStr("problem")]), tags, svc)
  {
  }

  /**
   * Every mode but "thongtin" and "chatgpt" (an unknown one, `null`, "problem")
   * gets the classifier's answer as it is: no redirect and no comma test.
   */
  lemma ChatSkipsPostFilters(data: map<string, Json>, tags: seq<string>, svc: Services, c: Classification, k: nat)
    requires "message" in data
    requires svc.classify(data["message"]) == Success(c)
    requires svc.detectIntent(data["message"]) == Success(k) && k < |tags|
    requires ChatMode(data) != JStr("thongtin") && ChatMode(data) != JStr("chatgpt")
    ensures ApiChat(Some(data), tags, svc) == Success(ChatReply(c.answer, c.confidence, tags[k], ChatMode(data)))
  {
  }

  /** In modes "thongtin" and "chatgpt" the response is the collaborator's text, or its error. */
  lemma ChatDelegatedModes(data: map<string, Json>, tags: seq<string>, svc: Services, c: Classification, k: nat)
    requires "message" in data
    requires svc.classify(data["message"]) == Success(c)
    requires svc.detectIntent(data["message"]) == Success(k) && k < |tags|
    ensures ChatMode(data) == JStr("thongtin") ==>
              ApiChat(Some(data), tags, svc) == ChatOutcome(svc.retrieve(data["message"]), c, tags[k], ChatMode(data))
    ensures ChatMode(data) == JStr("chatgpt") ==>
              ApiChat(Some(data), tags, svc) == ChatOutcome(svc.generate(data["message"]), c, tags[k], ChatMode(data))
  {
  }

  /** The `/api/chat` result for a collaborator answer `text`. */
  function ChatOutcome(text: Result<string, string>, c: Classification, intent: string, mode: Json): Result<ChatReply, ApiError>
  {
    match text
    case Success(t) => Success(ChatReply(t, c.confidence, intent, mode))
    case Failure(e) => Failure(ApiError(500, e))
  }

  /** An intent index past the end of `tags_set` is an `IndexError`, answered with 500. */
  lemma ChatIntentOutOfRange(data: map<string, Json>, tags: seq<string>, svc: Services, k: nat)
    requires "message" in data
    requires svc.classify(data["message"]).Success?
    requires svc.detectIntent(data["message"]) == Success(k) && k >= |tags|
    ensures ApiChat(Some(data), tags, svc) == Failure(ApiError(500, IndexOutOfRange))
  {
  }

  // ---- How the two routes differ on the same message ----

  /** The body `{"message": t}`, whose mode defaults to "problem". */
  function MessageOnly(t: string): map<string, Json>
  {
    map["message" := JStr(t)]
  }

  /** The name prompt: `/get` redirects to the form, `/api/chat` returns the prompt as text. */
  lemma RoutesDifferOnNamePrompt(t: string, tags: seq<string>, svc: Services, k: nat)
    requires Answers(svc, JStr(t), NamePrompt)
    requires svc.detectIntent(JStr(t)) == Success(k) && k < |tags|
    ensures GetBotResponse(Some(t), Some("problem"), svc) == RedirectToForm
    ensures ApiChat(Some(MessageOnly(t)), tags, svc)
         == Success(ChatReply(NamePrompt, svc.classify(JStr(t)).value.confidence, tags[k], JStr("problem")))
  {
  }

  /**
   * A "tell me more" answer to a short message: `/get` sends the clarification,
   * `/api/chat` the answer itself, which differs from the clarification.
   */
  lemma RoutesDifferOnShortMessage(t: string, tags: seq<string>, svc: Services, answer: string, k: nat)
    requires Answers(svc, JStr(t), answer)
    requires answer != NamePrompt && StartsWith(answer, DetailPrefix)
    requires Count(t, ',') <= 1
    requires svc.detectIntent(JStr(t)) == Success(k) && k < |tags|
    ensures GetBotResponse(Some(t), Some("problem"), svc) == Text(Clarification)
    ensures ApiChat(Some(MessageOnly(t)), tags, svc).Success?
    ensures ApiChat(Some(MessageOnly(t)), tags, svc).value.response == answer != Clarification
  {
    ShortMessageClarified(t, svc, answer);
    var data := MessageOnly(t);
    assert "message" in data && data["message"] == JStr(t);
    assert ChatMode(data) == JStr("problem");
    ChatSkipsPostFilters(data, tags, svc, svc.classify(JStr(t)).value, k);
    PrefixedIsNotClarification(answer);
  }

  /** The clarification does not itself open with "bạn có thể". */
  lemma PrefixedIsNotClarification(answer: string)
    requires StartsWith(answer, DetailPrefix)
    ensures answer != Clarification
  {
    assert answer[0] == DetailPrefix[0] == 'b';
    assert Clarification[0] == 'm';
  }

  /** A mode neither route knows: `/get` gives no reply, `/api/chat` the classifier's answer. */
  lemma RoutesDifferOnUnknownMode(t: string, m: string, tags: seq<string>, svc: Services, c: Classification, k: nat)
    requires m != "problem" && m != "thongtin" && m != "chatgpt"
    requires svc.classify(JStr(t)) == Success(c)
    requires svc.detectIntent(JStr(t)) == Success(k) && k < |tags|
    ensures GetBotResponse(Some(t), Some(m), svc) == NoReply
    ensures ApiChat(Some(MessageOnly(t)["mode" := JStr(m)]), tags, svc)
         == Success(ChatReply(c.answer, c.confidence, tags[k], JStr(m)))
  {
  }

  /** In the delegated modes the two routes send the same text. */
  lemma RoutesAgreeOnDelegatedModes(t: string, m: string, tags: seq<string>, svc: Services, k: nat)
    requires m == "thongtin" || m == "chatgpt"
    requires svc.classify(JStr(t)).Success?
    requires svc.detectIntent(JStr(t)) == Success(k) && k < |tags|
    ensures var get := GetBotResponse(Some(t), Some(m), svc);
            var chat := ApiChat(Some(MessageOnly(t)["mode" := JStr(m)]), tags, svc);
            && (get.Text? <==> chat.Success?) && (get.Text? ==> get.body == chat.value.response)
            && (get.Raised? <==> chat.Failure?) && (get.Raised? ==> chat.error == ApiError(500, get.error))
  {
  }
}
