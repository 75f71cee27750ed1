# customer-support-triad: the classification pipeline in Dafny

This project models the request pipeline of the customer-support query
classifier. A conversation arrives as a JSON body at `POST /classify`. It is
type-checked into a `ConversationRequest` and converted to a dict. It then
passes through five stages in a fixed order:

1. input validation in `classify_conversation`;
2. the conversation aggregator, which joins the message texts with single spaces;
3. the prompt builder, which produces a system turn, four few-shot user/assistant pairs and the query;
4. the LLM wrapper, which sends the turns to an Ollama `/api/chat` endpoint and recovers a JSON object from the reply;
5. the classification parser, which checks for `intent`, `topic` and `sentiment`.

Each stage returns either its result or a one-entry `{"error": msg}` record.
The first error record stops the pipeline. On success, the reply is the
request with `classification` added. The HTTP handler then picks 200, 400,
502 or 500 by case-insensitive substring tests on the error text.

Modules, one per source file plus two shared ones:

- `Text`: strings as Python treats them (join, `in`, `lower`, `strip`, `find`, `rfind`, slices, integer formatting).
- `Values`: Python values as a `Json` datatype, with dict lookup and update, truthiness, the `in` operator and the error record.
- `Aggregator`: `aggregate_conversation`.
- `PromptBuilder`: `build_prompt` and the few-shot exemplars.
- `Classifier`: `parse_classification`.
- `LlmWrapper`: `ollama_classify`.
- `Api`: `classify_conversation`.
- `HttpServer`: the request model, its `at_least_one` validator and the status rule of `main.py`.

The stages that work by appending in loops are methods. Each method is
proved equal to a function that states what the stage returns:
- `Aggregator.AggregateConversation`;
- `PromptBuilder.BuildPrompt` and its few-shot loop `AppendExemplars`;
- `Api.CheckInput` and `Api.ClassifyConversation`.

The lemmas are stated about those functions.

External effects are parameters:
- The POST is a function `post` from the request to an `HttpOutcome`: a decoded reply body, a timeout, another requests failure, or another exception.
- `json.loads` is `decode`, a partial function to `Json`.
- `json.dumps` is `serialize`.
- The two environment variables are a `Config`.

"No request is sent" is stated as "the result does not depend on `post`".

Where the repository's README, its code comments (such as "handles both
formats" at `api.py:46`) or its tests disagree with the code, the model
follows the code:
- There is no tweet aggregation and no role normaliser. A body that carries only tweets passes validation and is then always refused by the aggregator, which reads only `messages`.
- `api.py:25` reports "Missing required field: conversation_number", whatever the tests expect.
- `build_prompt` returns a turn list, not a `prompt` string.

## Model

| member | source | states |
|---|---|---|
| Values.Get | api.py:23-34 | `d[k]` as lookup: a value is found exactly when some entry has key k, and the entry (k, value) is in the dict |
| Values.Truthy | aggregator.py:24 | `not v`: None, False, zero, and empty strings, lists and dicts are falsy, everything else truthy |
| Values.HasKey | api.py:23 | `k in d` for a dict: some entry has key k, so the lookup finds a value |
| Values.GetOr | aggregator.py:14 | `d.get(k, default)`: the value stored under k when k is present, else the default |
| Values.Put | api.py:72-73 | `response[k] = v`: afterwards k maps to v, every other key keeps its value, entry order is kept, and one entry is added only when k was new |
| Values.Container | classifier.py:28 | the values `in` accepts on its right: a dict, a string or a list; on any other value Python raises TypeError |
| Values.Member | classifier.py:28-33 | `needle in v`: a key of a dict, a substring of a string (`Text.Contains`), an element of a list |
| Values.Len | llm_wrapper.py:39 | `len(v)` for a string, list or dict; None where Python raises TypeError |
| Values.ErrorResponse | tests/test_error_handler.py:8-13 | the error record holds exactly one entry, `error`, set to the message |
| Values.IsErrorDict | api.py:63 | `isinstance(v, dict) and "error" in v`, the failure test used at api.py:63 and :68 and main.py:47 |
| Text.Strip | llm_wrapper.py:38-40 | `strip()`: the text without its leading and trailing whitespace; its meaning is stated by `StripSpec` |
| Text.StripSpec | llm_wrapper.py:38-40 | `strip()` yields a contiguous block `s[i..j]` where everything before i and from j on is whitespace and the block neither starts nor ends with whitespace; it is empty exactly when the text is all whitespace |
| Text.Lower | main.py:48 | `lower()`: same length, each position lower-cased on its own (ASCII letters) |
| Text.Join | aggregator.py:28 | `sep.join(parts)`: the parts with one separator between neighbours; `JoinLength` gives its length |
| Text.Contains | main.py:49-51 | `t in s` on strings: t occurs in s as a contiguous block; `ContainsIffOccurs` gives its positional meaning |
| Text.ContainsIffOccurs | main.py:49-51 | both directions: `t in s` holds exactly when `s[i:i+len(t)] == t` for some index i |
| Text.IsSpace | llm_wrapper.py:38 | `str.isspace()` for one character, by code point: 9-13, 28-32, U+0085, U+00A0, U+1680, U+2000-U+200A, U+2028, U+2029, U+202F, U+205F, U+3000 |
| Text.LStrip | llm_wrapper.py:38 | `lstrip()`: the text from its first non-whitespace character on |
| Text.RStrip | llm_wrapper.py:38 | `rstrip()`: the text up to and including its last non-whitespace character |
| Text.Find | llm_wrapper.py:51 | `find(c)`: -1 exactly when c is absent, otherwise an index holding c with no c before it |
| Text.RFind | llm_wrapper.py:51 | `rfind(c)`: -1 exactly when c is absent, otherwise an index holding c with no c after it |
| Text.Slice | llm_wrapper.py:54 | `s[i:j]` for non-negative bounds: exactly `s[i..j]` when i <= j <= len(s), empty when j <= i |
| Text.NatToString | aggregator.py:21-26 | `str(idx)`: non-empty decimal digits with no leading zero |
| Text.LowerIdempotent | main.py:48 | lower-casing twice is lower-casing once |
| Text.JoinLength | aggregator.py:28 | `" ".join` of n texts has their total length plus n - 1 |
| Text.NatToStringRoundTrip | aggregator.py:21-26 | the decimal rendering of an index reads back as that index |
| Aggregator.Aggregation | aggregator.py:13-37 | what `aggregate_conversation` returns, case by case: the list error, the first bad entry's error, "Aggregation error" for a text that is not a string, or the record; its properties are the lemmas below |
| Aggregator.MessagesOf | aggregator.py:14 | `request_json.get("messages", [])`: the stored value, or the empty list when the key is absent |
| Aggregator.TextOf | aggregator.py:23 | `msg.get("text")` for a dict entry: its text, or None when the key is absent |
| Aggregator.WellFormed | aggregator.py:20-26 | an entry the loop accepts: a dict whose `text` is truthy |
| Aggregator.EntryError | aggregator.py:20-26 | the message for a rejected entry at index i: "not a dict" when it is not a dict, otherwise the missing-text message |
| Aggregator.NotADictError | aggregator.py:22 | "Message at index " + str(i) + " is not a dict" |
| Aggregator.MissingTextError | aggregator.py:26 | "Missing text in message at index " + str(i) |
| Aggregator.FirstMalformed | aggregator.py:19-27 | the index of the first entry that is not a dict with truthy text; every earlier entry is one |
| Aggregator.TextsOf | aggregator.py:23-27 | the collected texts are the entries' `text` values, one per entry, in order |
| Aggregator.Strings | aggregator.py:28 | joining fails exactly when some collected text is not a string; otherwise the strings are the texts in order |
| Aggregator.AggregateConversation | aggregator.py:13-34 | the loop over the entries returns exactly what the aggregation function states |
| Aggregator.NonListOrEmptyRejected | aggregator.py:14-17 | a missing, non-list or empty `messages` gives "Messages must be a non-empty list" |
| Aggregator.ReportsFirstBadIndex | aggregator.py:19-27 | the error names entry i exactly when entry i is bad and all entries before it are good; no later entry matters |
| Aggregator.EntryErrorNamesIndex | aggregator.py:21-26 | different indices give different messages |
| Aggregator.DictCheckBeforeTextCheck | aggregator.py:20-26 | a non-dict entry is reported as "not a dict", never as missing text |
| Aggregator.SuccessRecord | aggregator.py:27-34 | on success: the input list unchanged, the conversation number as given (None when absent), the texts joined by " ", length = sum of text lengths + n - 1 |
| Aggregator.SuccessTextNonEmpty | aggregator.py:27-28 | a successful aggregated text starts with the first message's text and is never empty |
| Aggregator.SuccessIff | aggregator.py:19-28 | for a non-empty list, success holds exactly when every entry is a dict whose text is a non-empty string |
| PromptBuilder.Prompt | prompt_builder.py:67-112 | what `build_prompt` returns: the fixed refusal when the conversation number or the text is falsy, else the turn list; see `GuardRejects` and `PromptShape` |
| PromptBuilder.PromptTurns | prompt_builder.py:76-111 | the system turn, the exemplar turns, then the query turn; the system text is the constant `SystemPrompt`, the text of prompt_builder.py:76-93 with the option lists printed by `ListRepr`; see `Layout` and `PromptShape` |
| PromptBuilder.ExemplarTurns | prompt_builder.py:98-108 | a user turn and an assistant turn per exemplar, in order; see `ExemplarTurnsLength` and `ExemplarTurnsAt` |
| PromptBuilder.TurnJson | prompt_builder.py:94-111 | the dict `{"role": r, "content": c}` each turn is built as, with r one of "system", "user", "assistant" |
| PromptBuilder.ListRepr | prompt_builder.py:88-90 | how the f-string prints a list of strings: "[", the items each in single quotes and joined by ", ", then "]" (exact for items without quotes or backslashes, as the three option lists are) |
| PromptBuilder.Line | prompt_builder.py:102-105 | the line one exemplar message adds: "Customer: t" for sender customer, "Agent: t" for sender agent, none for any other sender |
| PromptBuilder.RenderLines | prompt_builder.py:100-105 | the `user_msgs` list: the messages' lines, in message order |
| PromptBuilder.RenderExemplar | prompt_builder.py:106 | the exemplar's user turn: its lines joined by "\n" |
| PromptBuilder.QueryContent | prompt_builder.py:110 | the last user turn: "Customer Query:\n" + the aggregated text + "\nReturn ONLY JSON:" |
| PromptBuilder.BuildPrompt | prompt_builder.py:67-112 | the guard and the appends return exactly the specified turn list (or the guard's error) |
| PromptBuilder.AppendExemplars | prompt_builder.py:98-108 | the nested loops append, per exemplar in order, its rendered user turn and its serialized assistant turn |
| PromptBuilder.ExemplarTurnsLength | prompt_builder.py:98-108 | two turns per exemplar |
| PromptBuilder.ExemplarTurnsAt | prompt_builder.py:98-108 | exemplar i gives turn 2i (user, its rendering) and 2i + 1 (assistant, its serialized output) |
| PromptBuilder.Layout | prompt_builder.py:94-111 | the first turn, the exemplar turns and the last turn land at positions 0, 1..2n and 2n + 1 |
| PromptBuilder.PromptShape | prompt_builder.py:94-111 | a valid query gives 1 + 2 * 4 + 1 = 10 turns: system, then user/assistant per exemplar in order, then "Customer Query:\n" + text + "\nReturn ONLY JSON:" |
| PromptBuilder.RenderLinesAppend | prompt_builder.py:100-105 | rendering a concatenation renders each part in turn |
| PromptBuilder.UnknownSenderSkipped | prompt_builder.py:100-105 | a message whose sender is neither customer nor agent contributes no line |
| PromptBuilder.KnownSendersRendered | prompt_builder.py:100-105 | with known senders only, one "Customer: t" or "Agent: t" line per message, in order |
| PromptBuilder.RenderCustomerAgent | prompt_builder.py:100-106 | a customer then agent message renders as the two labelled lines joined by "\n" |
| PromptBuilder.FewShotRendering | prompt_builder.py:16-65 | the constant `FewShots` holds the four exemplars of prompt_builder.py:16-65; each is one customer and one agent message, rendered as two labelled lines |
| PromptBuilder.ConversationNumberOnlyGuards | prompt_builder.py:74-112 | past the guard the turns do not depend on the conversation number |
| PromptBuilder.GuardRejects | prompt_builder.py:74-75 | refused exactly when the conversation number or the text is falsy, with the fixed message |
| Classifier.ParseClassification | classifier.py:6-43 | what `parse_classification` returns, with the decode as a parameter and Python's exceptions as the messages of its `except` clauses; its properties are the lemmas below |
| Classifier.TopLevel | classifier.py:19-25 | a string goes through `json.loads` (failure: "Failed to parse LLM response as JSON"), a dict is taken as it is, anything else gives "Invalid response type" |
| Classifier.ObjectOfRecord | classifier.py:28-31 | the nested `classification` value when a dict has that key, the value itself when `"classification" in` is false, and "Parsing error" where `in` or the subscript raises TypeError |
| Classifier.MissingFieldError | classifier.py:35 | "Missing field in classification: " + the field name |
| Classifier.FirstMissing | classifier.py:32-35 | none is missing exactly when all fields are present; otherwise the named field is the first absent one in list order |
| Classifier.FalsyRejected | classifier.py:15-17 | a falsy response gives "Empty LLM response" |
| Classifier.WrongTypeRejected | classifier.py:19-25 | a truthy value that is neither string nor dict gives "Invalid response type" |
| Classifier.DictNotDecoded | classifier.py:21-22 | a dict is taken as it is: the decoder plays no part |
| Classifier.UndecodableStringRejected | classifier.py:19-40 | a string that fails strict decoding gives "Failed to parse LLM response as JSON", with no substring recovery |
| Classifier.DecodedStringLikeDict | classifier.py:19-22 | a string decoding to a non-empty dict is judged exactly as that dict |
| Classifier.DictOutcome | classifier.py:27-37 | the checked object is the nested `classification` value when present; the first missing field of intent, topic, sentiment is named; success returns the object unchanged |
| Classifier.FirstMissingOfRequired | classifier.py:27-35 | the fixed field order is intent, then topic, then sentiment |
| Classifier.SuccessHasRequiredFields | classifier.py:32-37 | any success carries intent, topic and sentiment |
| LlmWrapper.OllamaClassify | llm_wrapper.py:7-68 | what `ollama_classify` returns, with the environment as `Config` and the POST as `post`; its properties are the lemmas below |
| LlmWrapper.ExtractContent | llm_wrapper.py:36-40 | the content read from the reply body by the `message` / `messages` branches, or None where Python raises |
| LlmWrapper.RecoverJson | llm_wrapper.py:44-59 | strict decoding, then the brace span; see `StrictFirst`, `BraceRecovery`, `RecoveryFails` |
| LlmWrapper.EndpointOf | llm_wrapper.py:19 | OLLAMA_ENDPOINT when it is set, even to "", otherwise "http://localhost:11434" |
| LlmWrapper.ContentOf | llm_wrapper.py:38 | `m.get("content", "").strip()`: the stripped content, "" when the key is absent, None where Python raises (m not a dict, content not a string); see `ContentStripped` and `EmptyContentIff` |
| LlmWrapper.BraceSpan | llm_wrapper.py:51-54 | `content[content.find("{"):content.rfind("}") + 1]` once both braces occur; see `BraceRecovery` |
| LlmWrapper.ChatRequest | llm_wrapper.py:24-30 | URL is endpoint + "/api/chat"; the payload holds exactly four keys: the model, the turns as role/content dicts, `options` with `num_predict` 700, and `stream` false |
| LlmWrapper.ModelCheckedBeforeSending | llm_wrapper.py:20-23 | an unset or empty model gives "OLLAMA_MODEL environment variable not set", whatever the network would do |
| LlmWrapper.DefaultUrl | llm_wrapper.py:19-24 | without OLLAMA_ENDPOINT the URL is "http://localhost:11434/api/chat", for every model name |
| LlmWrapper.FailureKinds | llm_wrapper.py:60-68 | timeout, other requests failure and anything else map to the three fixed messages |
| LlmWrapper.MessageEnvelope | llm_wrapper.py:37-38 | whenever the body has a `message` key, at any position and whatever else it holds, the content is that message's stripped `content` |
| LlmWrapper.MessagesEnvelope | llm_wrapper.py:39-40 | otherwise the first element of a non-empty `messages` is read |
| LlmWrapper.NoContentEnvelope | llm_wrapper.py:36-40 | with neither key, or an empty `messages`, the content is "" |
| LlmWrapper.ContentStripped | llm_wrapper.py:38-40 | missing content is "", and content is whitespace-stripped |
| LlmWrapper.EmptyContentIff | llm_wrapper.py:38-41 | a message's content reads as empty exactly when `content` is missing or is a string of whitespace only |
| LlmWrapper.BlankContentRejected | llm_wrapper.py:36-43 | any reply whose extracted content is empty, whatever its envelope, gives "Empty LLM response content" |
| LlmWrapper.StrictFirst | llm_wrapper.py:44-47 | when strict decoding succeeds its value is the result |
| LlmWrapper.BraceRecovery | llm_wrapper.py:48-56 | otherwise the decode of content[find('{')..rfind('}')] inclusive, a span that starts with '{', ends with '}', with no '{' before it and no '}' after it |
| LlmWrapper.RecoveryFails | llm_wrapper.py:51-59 | no '{', no '}', or the last '}' before the first '{' gives no value |
| LlmWrapper.ReplyOutcome | llm_wrapper.py:36-59 | with a model and a non-empty content, the result is what recovery finds, else "Failed to parse LLM response as JSON" |
| Api.Classify | api.py:6-75 | what `classify_conversation` returns: the first stage error as a record, else the request with `classification` added; its properties are the lemmas below |
| Api.ValidateRequest | api.py:19-44 | the input checks in order, as stated by `CheckOrder`, `CollectionRequired` and `MessagesTakePriority` |
| Api.AfterLlm | api.py:62-75 | the steps after the LLM call: an error dict passed on, the parser's error as a record, or the request with `classification`; see `LaterStageErrors` |
| Api.Present | api.py:26 | `k in d and d[k] is not None` |
| Api.MessageShaped | api.py:31 | a message entry the validator accepts: a dict with `sender` and `text` keys |
| Api.TweetShaped | api.py:39 | a tweet entry the validator accepts: a dict with `role` and `text` keys |
| Api.CheckList | api.py:27-33 | the list check, then the per-entry check: the list error for a non-list or an empty list, the shape error when some entry is not shaped, else none; used for `messages` (api.py:27-33) and `tweets` (api.py:35-41) |
| Api.CheckInput | api.py:19-44 | the validation block, loops included, returns exactly the validation verdict |
| Api.ClassifyConversation | api.py:6-75 | the staged calls with early returns give exactly the specified pipeline result |
| Api.InputErrorsOffline | api.py:19-44 | a validation failure is returned as the error record, and the LLM endpoint plays no part |
| Api.CheckOrder | api.py:20-25 | not-a-dict is reported first, then a missing conversation_number |
| Api.CollectionRequired | api.py:34-44 | with neither list present (absent or None) "Missing required fields: messages or tweets"; a None `messages` falls through to `tweets` |
| Api.MessagesTakePriority | api.py:26-41 | with `messages` present, `tweets` does not change the verdict |
| Api.AggregationIgnoresTweets | aggregator.py:14-34 | the aggregator's result does not depend on `tweets` |
| Api.TweetsOnlyFails | api.py:34-49 | a request valid through `tweets` alone always ends with "Messages must be a non-empty list" |
| Api.AggregationErrorReported | api.py:47-49 | an aggregation error is returned as the result |
| Api.ValidatedMessagesAggregation | api.py:26-49 | after validation through `messages`, the aggregator can only report a missing text or a join failure |
| Api.PromptStage | api.py:50-59 | after aggregation, the prompt is refused exactly when the conversation number is falsy; otherwise the ten turns for the aggregated text |
| Api.PromptErrorReported | api.py:53-55 | a validated, aggregated request with a falsy conversation number gets the prompt builder's refusal, for every `post` |
| Api.LlmOutcomeReported | api.py:61-64 | the ten turns go to the wrapper; its error becomes the error record, and its value goes on to the post-LLM steps |
| Api.SuccessShape | api.py:61-75 | a non-error result is the request with every other key kept and `classification` set to the parser's result on the wrapper's value for the ten turns of the aggregated text, an object with intent, topic and sentiment |
| Api.LaterStageErrors | api.py:61-75 | an LLM error record is passed on unparsed; a parser error becomes the error record; a parsed classification that is not an error record is put into the request under `classification` |
| HttpServer.AtLeastOne | main.py:36-40 | the `at_least_one` validator; see `AtLeastOneIff` |
| HttpServer.Given | main.py:38 | the truthiness of an optional list: not None and not empty |
| HttpServer.ErrorStatus | main.py:47-54 | the status chosen from the lower-cased error text; see `StatusRule` |
| HttpServer.ReplyFor | main.py:45-57 | 200 with the result unless it is an error record, else the status of its text; see `SuccessIs200` |
| HttpServer.HandleClassify | main.py:42-57 | POST /classify: the validator's refusal, or the reply for the pipeline's result on `request.dict()`; see `AcceptedBody` |
| HttpServer.MessageJson | main.py:45 | `.dict()` of a typed message: `sender` and `text`, both strings; see `MessageJsonShaped` |
| HttpServer.TweetIdJson | main.py:24 | the `Union[int, str]` tweet id as an int or a string |
| HttpServer.TweetJson | main.py:45 | `.dict()` of a typed tweet: its six fields in declaration order; see `TweetJsonShaped` |
| HttpServer.ListJson | main.py:45 | `.dict()` of an optional list: None, or the list of each element's dict in order |
| HttpServer.RequestDict | main.py:45 | `request.dict()` holds exactly three keys, conversation_number, messages and tweets, an omitted list as None |
| HttpServer.AtLeastOneIff | main.py:36-40 | the validator refuses exactly when both lists are None or empty, with the fixed message |
| HttpServer.ErrorStatusCaseInsensitive | main.py:48-54 | the status depends only on the lower-cased text and is one of 400, 502, 500 |
| HttpServer.ClientStatus | main.py:49-50 | an error text with "input", "message", "conversation_number" or "aggregated_text" (any case) gives 400, whatever else it says |
| HttpServer.GatewayStatus | main.py:51-52 | when none of the four client words occurs, "llm connectivity" or "timed out" (any case) gives 502 |
| HttpServer.StatusRule | main.py:48-54 | both directions: 400 exactly when a client word occurs, 502 exactly when none does and a gateway word does, 500 exactly when none of the six words occurs |
| HttpServer.GatewayStatusByLetters | main.py:49-52 | a gateway word in a text that lacks, in both cases, one letter of each client word gives 502 |
| HttpServer.ServerStatusByLetters | main.py:49-54 | a text that lacks, in both cases, one letter of each of the six words gives 500 |
| HttpServer.NoMessageWithoutAG | main.py:49 | "message" has an "a" right before its "g", so a text in which no "a" (either case) directly precedes a "g" (either case) does not contain it after lower-casing |
| HttpServer.ServerStatusByLettersAndPair | main.py:49-54 | a text that lacks "u", "x" and "v" in both cases and has no "a" right before a "g" gives 500 |
| HttpServer.NotObjectStatus | main.py:49-50 | "Invalid input: not a JSON object" gives 400 |
| HttpServer.MissingConversationNumberStatus | main.py:49-50 | "Missing required field: conversation_number" gives 400 |
| HttpServer.MessagesListStatus | main.py:49-50 | "Messages must be a non-empty list" gives 400 |
| HttpServer.MissingCollectionStatus | main.py:49-50 | "Missing required fields: messages or tweets" gives 400 |
| HttpServer.PromptGuardStatus | main.py:49-50 | the prompt builder's invalid-input message gives 400 |
| HttpServer.NoTurnsStatus | main.py:49-50 | "Prompt builder did not return a valid message list" gives 400, via "message" |
| HttpServer.NotADictStatus | main.py:49-50 | "Message at index i is not a dict" gives 400 for every i |
| HttpServer.MissingTextStatus | main.py:49-50 | "Missing text in message at index i" gives 400 for every i |
| HttpServer.TimeoutStatus | main.py:51-52 | "LLM request timed out" gives 502 |
| HttpServer.ConnectivityStatus | main.py:51-52 | "LLM connectivity error" gives 502 |
| HttpServer.ModelNotSetStatus | main.py:53-54 | "OLLAMA_MODEL environment variable not set" gives 500 |
| HttpServer.EmptyContentStatus | main.py:53-54 | "Empty LLM response content" gives 500 |
| HttpServer.ParseFailureStatus | main.py:53-54 | "Failed to parse LLM response as JSON" gives 500 |
| HttpServer.LlmErrorStatus | main.py:53-54 | "LLM error" gives 500 |
| HttpServer.EmptyResponseStatus | main.py:53-54 | "Empty LLM response" gives 500 |
| HttpServer.InvalidTypeStatus | main.py:53-54 | "Invalid response type" gives 500 |
| HttpServer.ParsingErrorStatus | main.py:53-54 | "Parsing error" gives 500 |
| HttpServer.AggregationErrorStatus | main.py:53-54 | "Aggregation error" gives 500 |
| HttpServer.MissingFieldStatus | main.py:53-54 | "Missing field in classification: f" gives 500 for f each of intent, topic and sentiment |
| HttpServer.SuccessIs200 | main.py:47-56 | 200 with the result itself exactly when the result is not an error record; otherwise the status its text selects |
| HttpServer.ErrorReply | main.py:47-57 | an error record is answered with the status of its text, the record as body |
| HttpServer.AcceptedBody | main.py:42-57 | a body the validator accepts is answered from the pipeline's result on its dict |
| HttpServer.MessageJsonShaped | main.py:19-21 | a typed message always has `sender` and a string `text` |
| HttpServer.TweetJsonShaped | main.py:23-29 | a typed tweet always has `role` and `text` |
| HttpServer.TypedBodyValidates | main.py:31-45 | a typed body with non-empty messages, or no messages and non-empty tweets, passes every input check of the API |
| HttpServer.TweetsOnlyRequestRefused | main.py:42-57 | a body with tweets and no messages is answered 400 "Messages must be a non-empty list" |
| HttpServer.EmptyMessagesValidation | api.py:26-29 | an empty typed message list is present, not None, and is refused as an empty list |
| HttpServer.EmptyMessagesWithTweetsRefused | main.py:36-57 | an empty message list beside non-empty tweets passes the validator but is answered 400 "Messages must be a non-empty list" |
| HttpServer.MessagesOfRequest | aggregator.py:14 | on `request.dict()` of a body with messages, `get("messages", [])` gives the typed messages' dicts |
| HttpServer.EmptyTextAggregation | aggregator.py:23-26 | on typed messages the aggregator stops at the first empty text and names its index |
| HttpServer.EmptyTextRequestRefused | main.py:42-57 | a typed body whose first empty text is at index k is answered 400 "Missing text in message at index k" |

## Left out

- The POST, `raise_for_status` and `response.json()` (llm_wrapper.py:32-34) are network I/O. Their outcome is the `post` parameter.
- The POST is sent with `timeout=None` (llm_wrapper.py:32), so it can wait forever. That unbounded wait is not modelled: `post` is a total function and `Request` carries no timeout. `TimedOut` is kept only as an outcome that `post` may return.
- The JSON grammar: `json.loads` and `json.dumps` are the parameters `decode` and `serialize`. `ensure_ascii=False` is part of `serialize`.
- Logging (logger.py and every `logger` call) and the debug print of prompt_builder.py:4 do not affect results.
- `os.getenv` reads are the `Config` value. `load_dotenv` is not modelled.
- The `error_handler` module is not part of this model. Only its contract `error_response(msg) == {"error": msg}` is used.
- FastAPI, pydantic and uvicorn plumbing: type coercion of the body is assumed done, so the typed request is a datatype. The 422 reply is `Unprocessable` with the validator's message, not the framework's body format. A handler exception is `ServerFault`, standing for the framework's bare 500.
- `copy.deepcopy`: values are immutable here, so "the request is not mutated" holds by construction and is not stated.
- `build_prompt`'s `except` branch ("Prompt construction error") is not modelled. Nothing in the guarded code raises for the inputs modelled.
- The remaining generic `except Exception` fallbacks are modelled only where a value of the model reaches them:
  - "Aggregation error": a text that is not a string;
  - "Parsing error": `in` or indexing on a value that does not support it;
  - "LLM error": reading content from a body of the wrong shape.
- Floats are `JFloat(real)`; NaN and rounding are not modelled.
- `lower()` covers ASCII letters only, and `strip()` uses Python's whitespace set by code point.
- HttpServer and three shape-check messages: the status of "Each message must be a dict with sender and text fields" (400), "Tweets must be a non-empty list" and "Each tweet must be a dict with role and text fields" (500 each) is not proved. No typed body reaches them (`TypedBodyValidates`, `AtLeastOneIff`). `StatusRule` reduces their status to showing which of the six words occur, which the model does not do for these three texts.
- api_client.py, api_client_production.py and tests/performance_test.py are client scripts, file I/O and timing, outside the pipeline.
