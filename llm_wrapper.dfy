/**
 * The pure parts of the LLM call: the model-name guard, the request that
 * would be sent, reading the content out of either reply envelope, the
 * two-tier JSON recovery, and the mapping of failures to messages. The
 * POST itself is the parameter `post`; `json.loads` is `decode`.
 */
module LlmWrapper {
  import opened Text
  import opened Values
  import PromptBuilder

  const DefaultEndpoint := "http://localhost:11434"
  const ChatPath := "/api/chat"
  const NumPredict := 700

  const ModelNotSetError := "OLLAMA_MODEL environment variable not set"
  const EmptyContentError := "Empty LLM response content"
  const ParseFailureError := "Failed to parse LLM response as JSON"
  const TimeoutError := "LLM request timed out"
  const ConnectivityError := "LLM connectivity error"
  const OtherError := "LLM error"

  /** The values of OLLAMA_ENDPOINT and OLLAMA_MODEL, None when unset. */
  datatype Config = Config(endpoint: Option<string>, model: Option<string>)

  datatype Request = Request(url: string, payload: Json)

  /**
   * How the POST (with `raise_for_status` and `response.json()`) ended: a
   * decoded reply body, a timeout, any other requests exception (connection,
   * HTTP status, body decoding), or some other exception.
   */
  datatype HttpOutcome = Reply(body: Json) | TimedOut | RequestFailed | Crashed

  /** `os.getenv("OLLAMA_ENDPOINT", default)`: a set variable wins, even when empty. */
  function EndpointOf(cfg: Config): string
  {
    match cfg.endpoint
    case Some(e) => e
    case None => DefaultEndpoint
  }

  /** The chat request: POST to the endpoint's /api/chat, non-streaming, at most 700 tokens. */
  function ChatRequest(endpoint: string, model: string, turns: seq<PromptBuilder.Turn>): (req: Request)
    ensures req.url == endpoint + "/api/chat"
    ensures req.payload.JObj? && |req.payload.fields| == 4
    ensures Get(req.payload.fields, "model") == Some(JStr(model))
    ensures Get(req.payload.fields, "stream") == Some(JBool(false))
    ensures Get(req.payload.fields, "options") == Some(JObj([("num_predict", JInt(700))]))
    ensures Get(req.payload.fields, "messages") ==
      Some(JArr(seq(|turns|, i requires 0 <= i < |turns| => PromptBuilder.TurnJson(turns[i]))))
  {
    var fields := [("model", JStr(model)),
                   ("messages", JArr(seq(|turns|, i requires 0 <= i < |turns| => PromptBuilder.TurnJson(turns[i])))),
                   ("options", JObj([("num_predict", JInt(NumPredict))])),
                   ("stream", JBool(false))];
    assert Get(fields[1..][1..], "options") == Some(fields[2].1);
    assert Get(fields[1..][1..][1..], "stream") == Some(JBool(false));
    Request(endpoint + ChatPath, JObj(fields))
  }

  /** `m.get("content", "").strip()`, or None where Python raises (m not a dict, content not a string). */
  function ContentOf(m: Json): Option<string>
  {
    if !m.JObj? then None
    else match GetOr(m.fields, "content", JStr(""))
      case JStr(s) => Some(Strip(s))
      case _ => None
  }

  /**
   * The content read from the reply body: from `message` when the body has
   * that key, else from the first element of a non-empty `messages`, else "".
   * None stands for an exception raised while reading it.
   */
  function ExtractContent(data: Json): Option<string>
  {
    if !Container(data) then None
    else if Member("message", data) then
      if data.JObj? then ContentOf(Get(data.fields, "message").value) else None
    else if Member("messages", data) then
      if !data.JObj? then None
      else
        var ms := Get(data.fields, "messages").value;
        match Len(ms)
        case None => None
        case Some(n) =>
          if n == 0 then Some("")
          else if ms.JArr? then ContentOf(ms.items[0])
          else None
    else Some("")
  }

  /** `content[content.find('{'):content.rfind('}') + 1]`, given both braces occur. */
  function BraceSpan(content: string): string
    requires '{' in content && '}' in content
  {
    Slice(content, Find(content, '{'), RFind(content, '}') + 1)
  }

  /** Strict decoding first; failing that, the span from the first '{' to the last '}'. */
  function RecoverJson(content: string, decode: string -> Option<Json>): Option<Json>
  {
    match decode(content)
    case Some(v) => Some(v)
    case None =>
      if Find(content, '{') == -1 || RFind(content, '}') == -1 then None
      else decode(BraceSpan(content))
  }

  /** `ollama_classify(messages)` with the environment and the network as parameters. */
  function OllamaClassify(cfg: Config, turns: seq<PromptBuilder.Turn>, post: Request -> HttpOutcome,
                          decode: string -> Option<Json>): Result<Json, string>
  {
    if cfg.model.None? || cfg.model.value == "" then Err(ModelNotSetError)
    else
      match post(ChatRequest(EndpointOf(cfg), cfg.model.value, turns))
      case TimedOut => Err(TimeoutError)
      case RequestFailed => Err(ConnectivityError)
      case Crashed => Err(OtherError)
      case Reply(data) =>
        match ExtractContent(data)
        case None => Err(OtherError)
        case Some(content) =>
          if content == "" then Err(EmptyContentError)
          else match RecoverJson(content, decode)
            case None => Err(ParseFailureError)
            case Some(v) => Ok(v)
  }

  /** An unset or empty model name is refused, and whatever the network would do is irrelevant. */
  lemma ModelCheckedBeforeSending(cfg: Config, turns: seq<PromptBuilder.Turn>,
                                  p1: Request -> HttpOutcome, p2: Request -> HttpOutcome,
                                  decode: string -> Option<Json>)
    requires cfg.model.None? || cfg.model == Some("")
    ensures OllamaClassify(cfg, turns, p1, decode) == Err(ModelNotSetError)
    ensures OllamaClassify(cfg, turns, p1, decode) == OllamaClassify(cfg, turns, p2, decode)
  {
  }

  /** Without OLLAMA_ENDPOINT the request goes to "http://localhost:11434/api/chat", whatever the model. */
  lemma DefaultUrl(model: string, turns: seq<PromptBuilder.Turn>)
    ensures ChatRequest(EndpointOf(Config(None, Some(model))), model, turns).url == "http://localhost:11434/api/chat"
  {
    DefaultUrlText();
  }

  lemma DefaultUrlText()
    ensures DefaultEndpoint + ChatPath == "http://localhost:11434/api/chat"
  {
  }

  /** Transport failures map to three messages, by kind. */
  lemma FailureKinds(cfg: Config, turns: seq<PromptBuilder.Turn>, post: Request -> HttpOutcome,
                     decode: string -> Option<Json>)
    requires cfg.model.Some? && cfg.model.value != ""
    ensures var o := post(ChatRequest(EndpointOf(cfg), cfg.model.value, turns));
      var r := OllamaClassify(cfg, turns, post, decode);
      (o == TimedOut ==> r == Err(TimeoutError)) &&
      (o == RequestFailed ==> r == Err(ConnectivityError)) &&
      (o == Crashed ==> r == Err(OtherError))
  {
  }

  /** `message.content` is read when the body has `message`, wherever that key sits and whatever else the body holds. */
  lemma MessageEnvelope(data: Dict)
    requires HasKey(data, "message")
    ensures ExtractContent(JObj(data)) == ContentOf(Get(data, "message").value)
  {
  }

  /** Without `message`, the first element of a non-empty `messages` list is read. */
  lemma MessagesEnvelope(data: Dict, first: Json, more: seq<Json>)
    requires !HasKey(data, "message") && Get(data, "messages") == Some(JArr([first] + more))
    ensures ExtractContent(JObj(data)) == ContentOf(first)
  {
    var ms := JArr([first] + more);
    assert !Member("message", JObj(data)) && Member("messages", JObj(data));
    assert Len(ms) == Some(1 + |more|) && ms.items[0] == first;
  }

  /** A body with neither key, or with an empty `messages` list, yields empty content. */
  lemma NoContentEnvelope(data: Dict)
    requires !HasKey(data, "message")
    requires !HasKey(data, "messages") || Get(data, "messages") == Some(JArr([]))
    ensures ExtractContent(JObj(data)) == Some("")
  {
  }

  /** Missing content reads as "", and content is whitespace-stripped. */
  lemma ContentStripped(m: Dict)
    ensures !HasKey(m, "content") ==> ContentOf(JObj(m)) == Some("")
    ensures forall s :: Get(m, "content") == Some(JStr(s)) ==> ContentOf(JObj(m)) == Some(Strip(s))
  {
  }

  /**
   * A message's content reads as empty exactly when it has no `content`, or
   * its content is a string of whitespace only.
   */
  lemma EmptyContentIff(m: Dict)
    ensures ContentOf(JObj(m)) == Some("") <==>
      !HasKey(m, "content") ||
      (Get(m, "content").value.JStr? &&
       forall k :: 0 <= k < |Get(m, "content").value.s| ==> IsSpace(Get(m, "content").value.s[k]))
  {
    if HasKey(m, "content") && Get(m, "content").value.JStr? {
      StripSpec(Get(m, "content").value.s);
    }
  }

  /**
   * Whatever the envelope (`message`, the first of `messages`, an empty
   * list, or neither key), content that reads as empty is refused as empty.
   */
  lemma BlankContentRejected(cfg: Config, turns: seq<PromptBuilder.Turn>, post: Request -> HttpOutcome,
                             decode: string -> Option<Json>, data: Json)
    requires cfg.model.Some? && cfg.model.value != ""
    requires post(ChatRequest(EndpointOf(cfg), cfg.model.value, turns)) == Reply(data)
    requires ExtractContent(data) == Some("")
    ensures OllamaClassify(cfg, turns, post, decode) == Err(EmptyContentError)
  {
  }

  /** Strict decoding wins whenever it succeeds. */
  lemma StrictFirst(content: string, decode: string -> Option<Json>)
    requires decode(content).Some?
    ensures RecoverJson(content, decode) == decode(content)
  {
  }

  /**
   * Otherwise, with both braces present and the first '{' before the last
   * '}', the result is the decode of that span, which starts with '{', ends
   * with '}', and has no '{' before it and no '}' after it in the content.
   */
  lemma {:induction false} BraceRecovery(content: string, decode: string -> Option<Json>)
    requires decode(content).None?
    requires '{' in content && '}' in content
    requires Find(content, '{') <= RFind(content, '}')
    ensures var i, j := Find(content, '{'), RFind(content, '}');
      var span := content[i..j + 1];
      RecoverJson(content, decode) == decode(span) &&
      span[0] == '{' && span[|span| - 1] == '}' &&
      '{' !in content[..i] && '}' !in content[j + 1..]
  {
    var i, j := Find(content, '{'), RFind(content, '}');
    assert BraceSpan(content) == content[i..j + 1];
  }

  /**
   * Recovery fails with no '{', with no '}', or when the last '}' comes
   * before the first '{' (the span is then empty, which `json.loads` refuses).
   */
  lemma RecoveryFails(content: string, decode: string -> Option<Json>)
    requires decode(content).None? && decode("").None?
    requires '{' !in content || '}' !in content || RFind(content, '}') < Find(content, '{')
    ensures RecoverJson(content, decode).None?
  {
  }

  /**
   * With model and reply in place, the wrapper returns exactly what recovery
   * finds in the stripped content, or the parse failure.
   */
  lemma ReplyOutcome(cfg: Config, turns: seq<PromptBuilder.Turn>, post: Request -> HttpOutcome,
                     decode: string -> Option<Json>, data: Json)
    requires cfg.model.Some? && cfg.model.value != ""
    requires post(ChatRequest(EndpointOf(cfg), cfg.model.value, turns)) == Reply(data)
    requires ExtractContent(data).Some? && ExtractContent(data).value != ""
    ensures var r := OllamaClassify(cfg, turns, post, decode);
      var found := RecoverJson(ExtractContent(data).value, decode);
      (found.Some? ==> r == Ok(found.value)) && (found.None? ==> r == Err(ParseFailureError))
  {
  }
}
