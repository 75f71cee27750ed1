/**
 * The API entry point: validates the request, then runs aggregation, prompt
 * construction, the LLM call and classification parsing, returning the
 * first stage's error record or the request with its classification added.
 */
module Api {
  import opened Text
  import opened Values
  import Aggregator
  import PromptBuilder
  import LlmWrapper
  import Classifier

  const NotObjectError := "Invalid input: not a JSON object"
  const MissingConversationNumberError := "Missing required field: conversation_number"
  const MessagesListError := "Messages must be a non-empty list"
  const MessageShapeError := "Each message must be a dict with sender and text fields"
  const TweetsListError := "Tweets must be a non-empty list"
  const TweetShapeError := "Each tweet must be a dict with role and text fields"
  const MissingCollectionError := "Missing required fields: messages or tweets"
  const NoTurnsError := "Prompt builder did not return a valid message list"

  /** `k in d and d[k] is not None`. */
  predicate Present(d: Dict, k: string)
  {
    HasKey(d, k) && Get(d, k).value != JNull
  }

  /** A message entry the validator accepts: a dict with `sender` and `text` keys. */
  predicate MessageShaped(m: Json)
  {
    m.JObj? && HasKey(m.fields, "sender") && HasKey(m.fields, "text")
  }

  /** A tweet entry the validator accepts: a dict with `role` and `text` keys. */
  predicate TweetShaped(t: Json)
  {
    t.JObj? && HasKey(t.fields, "role") && HasKey(t.fields, "text")
  }

  /** The validator's verdict on a list of entries under the given shape. */
  function CheckList(v: Json, shaped: Json -> bool, listError: string, shapeError: string): Option<string>
  {
    if !v.JArr? || |v.items| == 0 then Some(listError)
    else if exists i :: 0 <= i < |v.items| && !shaped(v.items[i]) then Some(shapeError)
    else None
  }

  /**
   * The input checks before any stage runs, in order: a dict, with a
   * conversation_number key, then `messages` when it is present and not
   * None, else `tweets` under the same condition.
   */
  function ValidateRequest(request: Json): Option<string>
  {
    if !request.JObj? then Some(NotObjectError)
    else
      var d := request.fields;
      if !HasKey(d, "conversation_number") then Some(MissingConversationNumberError)
      else if Present(d, "messages") then
        CheckList(Get(d, "messages").value, MessageShaped, MessagesListError, MessageShapeError)
      else if Present(d, "tweets") then
        CheckList(Get(d, "tweets").value, TweetShaped, TweetsListError, TweetShapeError)
      else Some(MissingCollectionError)
  }

  /** What the pipeline does once the LLM has returned `v`: pass an error dict on, else parse. */
  function AfterLlm(d: Dict, v: Json, decode: string -> Option<Json>): Json
  {
    if IsErrorDict(v) then v
    else match Classifier.ParseClassification(v, decode)
      case Err(e) => ErrorResponse(e)
      case Ok(c) => if IsErrorDict(c) then c else JObj(Put(d, "classification", c))
  }

  /** What `classify_conversation` returns. */
  function Classify(request: Json, cfg: LlmWrapper.Config, post: LlmWrapper.Request -> LlmWrapper.HttpOutcome,
                    decode: string -> Option<Json>, serialize: Json -> string): Json
  {
    match ValidateRequest(request)
    case Some(e) => ErrorResponse(e)
    case None =>
      var d := request.fields;
      match Aggregator.Aggregation(d)
      case Err(e) => ErrorResponse(e)
      case Ok(agg) =>
        match PromptBuilder.Prompt(GetOr(d, "conversation_number", JNull), agg.aggregatedText, serialize)
        case Err(e) => ErrorResponse(e)
        case Ok(turns) =>
          if |turns| == 0 then ErrorResponse(NoTurnsError)
          else match LlmWrapper.OllamaClassify(cfg, turns, post, decode)
            case Err(e) => ErrorResponse(e)
            case Ok(v) => AfterLlm(d, v, decode)
  }

  /**
   * The validation block of `classify_conversation`: the type and key
   * checks, then a loop over the entries of whichever list is checked,
   * stopping at the first entry of the wrong shape.
   */
  method CheckInput(request: Json) returns (err: Option<string>)
    ensures err == ValidateRequest(request)
  {
    if !request.JObj? {
      return Some(NotObjectError);
    }
    var d := request.fields;
    if !HasKey(d, "conversation_number") {
      return Some(MissingConversationNumberError);
    }
    if Present(d, "messages") {
      var ms := Get(d, "messages").value;
      if !ms.JArr? || |ms.items| == 0 {
        return Some(MessagesListError);
      }
      var i := 0;
      while i < |ms.items|
        invariant 0 <= i <= |ms.items|
        invariant forall j :: 0 <= j < i ==> MessageShaped(ms.items[j])
      {
        if !MessageShaped(ms.items[i]) {
          return Some(MessageShapeError);
        }
        i := i + 1;
      }
    } else if Present(d, "tweets") {
      var ts := Get(d, "tweets").value;
      if !ts.JArr? || |ts.items| == 0 {
        return Some(TweetsListError);
      }
      var i := 0;
      while i < |ts.items|
        invariant 0 <= i <= |ts.items|
        invariant forall j :: 0 <= j < i ==> TweetShaped(ts.items[j])
      {
        if !TweetShaped(ts.items[i]) {
          return Some(TweetShapeError);
        }
        i := i + 1;
      }
    } else {
      return Some(MissingCollectionError);
    }
    err := None;
  }

  /**
   * `classify_conversation`: validation, then the stage calls in order with
   * an early return on each error, and finally a copy of the request with
   * `classification` set.
   */
  method ClassifyConversation(request: Json, cfg: LlmWrapper.Config,
                              post: LlmWrapper.Request -> LlmWrapper.HttpOutcome,
                              decode: string -> Option<Json>, serialize: Json -> string)
    returns (r: Json)
    ensures r == Classify(request, cfg, post, decode, serialize)
  {
    var err := CheckInput(request);
    if err.Some? {
      return ErrorResponse(err.value);
    }
    var d := request.fields;
    var agg := Aggregator.AggregateConversation(d);
    if agg.Err? {
      return ErrorResponse(agg.error);
    }
    var prompt := PromptBuilder.BuildPrompt(GetOr(d, "conversation_number", JNull), agg.value.aggregatedText, serialize);
    if prompt.Err? {
      return ErrorResponse(prompt.error);
    }
    var turns := prompt.value;
    if |turns| == 0 {
      return ErrorResponse(NoTurnsError);
    }
    var llm := LlmWrapper.OllamaClassify(cfg, turns, post, decode);
    if llm.Err? {
      return ErrorResponse(llm.error);
    }
    if IsErrorDict(llm.value) {
      return llm.value;
    }
    var classification := Classifier.ParseClassification(llm.value, decode);
    if classification.Err? {
      return ErrorResponse(classification.error);
    }
    if IsErrorDict(classification.value) {
      return classification.value;
    }
    var response := d;
    response := Put(response, "classification", classification.value);
    r := JObj(response);
  }

  /** A request that fails validation gets that error, and the LLM endpoint is never asked. */
  lemma InputErrorsOffline(request: Json, cfg: LlmWrapper.Config,
                           p1: LlmWrapper.Request -> LlmWrapper.HttpOutcome,
                           p2: LlmWrapper.Request -> LlmWrapper.HttpOutcome,
                           decode: string -> Option<Json>, serialize: Json -> string)
    requires ValidateRequest(request).Some?
    ensures Classify(request, cfg, p1, decode, serialize) == ErrorResponse(ValidateRequest(request).value)
    ensures Classify(request, cfg, p1, decode, serialize) == Classify(request, cfg, p2, decode, serialize)
  {
  }

  /** The checks run in order: not a dict first, then a missing conversation_number, whatever else is wrong. */
  lemma CheckOrder(request: Json)
    ensures !request.JObj? ==> ValidateRequest(request) == Some(NotObjectError)
    ensures request.JObj? && !HasKey(request.fields, "conversation_number") ==>
      ValidateRequest(request) == Some(MissingConversationNumberError)
  {
  }

  /**
   * With neither collection present (absent or None) the request is refused
   * as missing both; a None `messages` falls through to `tweets`.
   */
  lemma CollectionRequired(d: Dict)
    requires HasKey(d, "conversation_number")
    ensures !Present(d, "messages") && !Present(d, "tweets") ==>
      ValidateRequest(JObj(d)) == Some(MissingCollectionError)
    ensures !Present(d, "messages") && Present(d, "tweets") ==>
      ValidateRequest(JObj(d)) == CheckList(Get(d, "tweets").value, TweetShaped, TweetsListError, TweetShapeError)
  {
  }

  /** When `messages` is present, whatever `tweets` holds does not change the validation verdict. */
  lemma MessagesTakePriority(d: Dict, t: Json)
    requires Present(d, "messages")
    ensures ValidateRequest(JObj(Put(d, "tweets", t))) == ValidateRequest(JObj(d))
  {
    var d' := Put(d, "tweets", t);
    assert Get(d', "messages") == Get(d, "messages");
    assert HasKey(d', "conversation_number") == HasKey(d, "conversation_number");
    assert Present(d', "messages");
  }

  /** The aggregator reads only `messages` and `conversation_number`: `tweets` never matters to it. */
  lemma AggregationIgnoresTweets(d: Dict, t: Json)
    ensures Aggregator.Aggregation(Put(d, "tweets", t)) == Aggregator.Aggregation(d)
  {
    var d' := Put(d, "tweets", t);
    assert Aggregator.MessagesOf(d') == Aggregator.MessagesOf(d);
    assert GetOr(d', "conversation_number", JNull) == GetOr(d, "conversation_number", JNull);
  }

  /**
   * A request that passes validation through `tweets` alone always fails:
   * the aggregator reads only `messages`, so it reports that list as missing.
   */
  lemma TweetsOnlyFails(d: Dict, cfg: LlmWrapper.Config, post: LlmWrapper.Request -> LlmWrapper.HttpOutcome,
                        decode: string -> Option<Json>, serialize: Json -> string)
    requires ValidateRequest(JObj(d)).None? && !Present(d, "messages")
    ensures Present(d, "tweets")
    ensures Classify(JObj(d), cfg, post, decode, serialize) == ErrorResponse(Aggregator.NonEmptyListError)
  {
  }

  /** A validated request whose aggregation fails gets the aggregator's error record. */
  lemma AggregationErrorReported(d: Dict, cfg: LlmWrapper.Config, post: LlmWrapper.Request -> LlmWrapper.HttpOutcome,
                                 decode: string -> Option<Json>, serialize: Json -> string)
    requires ValidateRequest(JObj(d)).None? && Aggregator.Aggregation(d).Err?
    ensures Classify(JObj(d), cfg, post, decode, serialize) == ErrorResponse(Aggregator.Aggregation(d).error)
  {
  }

  /**
   * After validation through `messages` the aggregator can no longer report
   * a non-dict entry: its only possible errors are a falsy text or a text
   * that is not a string.
   */
  lemma ValidatedMessagesAggregation(d: Dict)
    requires ValidateRequest(JObj(d)).None? && Present(d, "messages")
    ensures var a := Aggregator.Aggregation(d);
      var k := Aggregator.FirstMalformed(Get(d, "messages").value.items);
      a.Err? ==> a.error == Aggregator.MissingTextError(k) || a.error == Aggregator.JoinError
  {
    var ms := Get(d, "messages").value.items;
    var k := Aggregator.FirstMalformed(ms);
    if k < |ms| {
      assert MessageShaped(ms[k]);
    }
  }

  /**
   * Once aggregation has succeeded the prompt is refused exactly when the
   * conversation number is falsy; otherwise the LLM receives the ten turns
   * built from the aggregated text.
   */
  lemma PromptStage(d: Dict, serialize: Json -> string)
    requires ValidateRequest(JObj(d)).None? && Aggregator.Aggregation(d).Ok?
    ensures var cn := GetOr(d, "conversation_number", JNull);
      var p := PromptBuilder.Prompt(cn, Aggregator.Aggregation(d).value.aggregatedText, serialize);
      (p.Err? <==> !Truthy(cn)) &&
      (p.Ok? ==> (|p.value| == 10 &&
        p.value == PromptBuilder.PromptTurns(Aggregator.Aggregation(d).value.aggregatedText, serialize)))
  {
    Aggregator.SuccessTextNonEmpty(d);
    PromptBuilder.PromptShape(Aggregator.Aggregation(d).value.aggregatedText, serialize);
  }

  /**
   * A validated, aggregated request whose conversation number is falsy gets
   * the prompt builder's refusal, and the LLM endpoint is never asked.
   */
  lemma PromptErrorReported(d: Dict, cfg: LlmWrapper.Config, post: LlmWrapper.Request -> LlmWrapper.HttpOutcome,
                            decode: string -> Option<Json>, serialize: Json -> string)
    requires ValidateRequest(JObj(d)).None? && Aggregator.Aggregation(d).Ok?
    requires !Truthy(GetOr(d, "conversation_number", JNull))
    ensures Classify(JObj(d), cfg, post, decode, serialize) == ErrorResponse(PromptBuilder.InvalidInputError)
  {
  }

  /**
   * Once the ten turns are built they go to the wrapper: its error becomes
   * the error record, and its value is handed on to the post-LLM checks.
   */
  lemma LlmOutcomeReported(d: Dict, cfg: LlmWrapper.Config, post: LlmWrapper.Request -> LlmWrapper.HttpOutcome,
                           decode: string -> Option<Json>, serialize: Json -> string)
    requires ValidateRequest(JObj(d)).None? && Aggregator.Aggregation(d).Ok?
    requires Truthy(GetOr(d, "conversation_number", JNull))
    ensures var turns := PromptBuilder.PromptTurns(Aggregator.Aggregation(d).value.aggregatedText, serialize);
      var o := LlmWrapper.OllamaClassify(cfg, turns, post, decode);
      var r := Classify(JObj(d), cfg, post, decode, serialize);
      (o.Err? ==> r == ErrorResponse(o.error)) && (o.Ok? ==> r == AfterLlm(d, o.value, decode))
  {
    PromptStage(d, serialize);
  }

  /**
   * A result that is not an error record is the request with every original
   * key kept, plus `classification` holding an object that has intent,
   * topic and sentiment.
   */
  lemma SuccessShape(request: Json, cfg: LlmWrapper.Config, post: LlmWrapper.Request -> LlmWrapper.HttpOutcome,
                     decode: string -> Option<Json>, serialize: Json -> string)
    requires !IsErrorDict(Classify(request, cfg, post, decode, serialize))
    ensures var r := Classify(request, cfg, post, decode, serialize);
      request.JObj? && ValidateRequest(request).None? && r.JObj? &&
      (forall k :: k != "classification" ==> Get(r.fields, k) == Get(request.fields, k)) &&
      Get(r.fields, "classification").Some? &&
      var c := Get(r.fields, "classification").value;
      Container(c) && Member("intent", c) && Member("topic", c) && Member("sentiment", c)
    ensures var r := Classify(request, cfg, post, decode, serialize);
      var text := Aggregator.Aggregation(request.fields).value.aggregatedText;
      var o := LlmWrapper.OllamaClassify(cfg, PromptBuilder.PromptTurns(text, serialize), post, decode);
      Aggregator.Aggregation(request.fields).Ok? && o.Ok? &&
      Classifier.ParseClassification(o.value, decode).Ok? &&
      r == JObj(Put(request.fields, "classification", Classifier.ParseClassification(o.value, decode).value))
  {
    var r := Classify(request, cfg, post, decode, serialize);
    assert request.JObj? && ValidateRequest(request).None?;
    var d := request.fields;
    assert Aggregator.Aggregation(d).Ok?;
    var agg := Aggregator.Aggregation(d).value;
    var p := PromptBuilder.Prompt(GetOr(d, "conversation_number", JNull), agg.aggregatedText, serialize);
    assert p.Ok? && |p.value| > 0;
    var o := LlmWrapper.OllamaClassify(cfg, p.value, post, decode);
    assert o.Ok? && !IsErrorDict(o.value);
    var c := Classifier.ParseClassification(o.value, decode);
    assert c.Ok? && r == JObj(Put(d, "classification", c.value));
    Classifier.SuccessHasRequiredFields(o.value, decode);
  }

  /**
   * Errors reported by the LLM wrapper or the parser reach the caller as
   * `{"error": msg}`; an LLM result that is itself an error dict is passed
   * on unchanged, without parsing.
   */
  lemma LaterStageErrors(d: Dict, v: Json, decode: string -> Option<Json>)
    ensures IsErrorDict(v) ==> AfterLlm(d, v, decode) == v
    ensures !IsErrorDict(v) && Classifier.ParseClassification(v, decode).Err? ==>
      AfterLlm(d, v, decode) == ErrorResponse(Classifier.ParseClassification(v, decode).error)
    ensures var c := Classifier.ParseClassification(v, decode);
      !IsErrorDict(v) && c.Ok? && !IsErrorDict(c.value) ==>
      AfterLlm(d, v, decode) == JObj(Put(d, "classification", c.value))
  {
  }
}
