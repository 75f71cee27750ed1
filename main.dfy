/**
 * The HTTP front end: the typed request body with its at-least-one
 * validator, its conversion to the dict the API takes, and the rule that
 * picks the status code from the error text.
 */
module HttpServer {
  import opened Text
  import opened Values
  import Aggregator
  import PromptBuilder
  import LlmWrapper
  import Classifier
  import Api

  const NeitherCollectionError := "Either messages or tweets must be provided"

  const Ok200 := 200
  const BadRequest400 := 400
  const InternalError500 := 500
  const BadGateway502 := 502

  datatype Message = Message(sender: string, text: string)

  /** `Union[int, str]`. */
  datatype TweetId = IntId(n: int) | StrId(s: string)

  datatype Tweet = Tweet(tweetId: TweetId, authorId: string, role: string, inbound: bool,
                         createdAt: string, text: string)

  /** The request body after type validation; an omitted list is None. */
  datatype ConversationRequest =
    ConversationRequest(conversationNumber: string, messages: Option<seq<Message>>, tweets: Option<seq<Tweet>>)

  /**
   * What the endpoint answers: the framework's 422 reply when the model
   * validator raises, the framework's bare 500 when the handler itself
   * raises, or the handler's status code with the pipeline's result.
   */
  datatype HttpReply = Unprocessable(detail: string) | ServerFault | Responded(status: int, body: Json)

  /** An optional list is falsy when it is None or empty. */
  predicate Given<T>(xs: Option<seq<T>>)
  {
    xs.Some? && |xs.value| > 0
  }

  /** The `at_least_one` model validator. */
  function AtLeastOne(req: ConversationRequest): Result<ConversationRequest, string>
  {
    if !Given(req.messages) && !Given(req.tweets) then Err(NeitherCollectionError) else Ok(req)
  }

  function MessageJson(m: Message): Json
  {
    JObj([("sender", JStr(m.sender)), ("text", JStr(m.text))])
  }

  function TweetIdJson(id: TweetId): Json
  {
    match id
    case IntId(n) => JInt(n)
    case StrId(s) => JStr(s)
  }

  function TweetJson(t: Tweet): Json
  {
    JObj([("tweet_id", TweetIdJson(t.tweetId)), ("author_id", JStr(t.authorId)), ("role", JStr(t.role)),
          ("inbound", JBool(t.inbound)), ("created_at", JStr(t.createdAt)), ("text", JStr(t.text))])
  }

  function ListJson<T>(xs: Option<seq<T>>, f: T -> Json): Json
  {
    match xs
    case None => JNull
    case Some(s) => JArr(seq(|s|, i requires 0 <= i < |s| => f(s[i])))
  }

  /** `request.dict()`: every field of the model, an omitted list as None. */
  function RequestDict(req: ConversationRequest): (r: Json)
    ensures r.JObj?
    ensures Get(r.fields, "conversation_number") == Some(JStr(req.conversationNumber))
    ensures Get(r.fields, "messages") == Some(ListJson(req.messages, MessageJson))
    ensures Get(r.fields, "tweets") == Some(ListJson(req.tweets, TweetJson))
    ensures |r.fields| == 3
  {
    var fields := [("conversation_number", JStr(req.conversationNumber)),
                   ("messages", ListJson(req.messages, MessageJson)),
                   ("tweets", ListJson(req.tweets, TweetJson))];
    assert Get(fields[1..][1..], "tweets") == Some(fields[2].1);
    JObj(fields)
  }

  /** The status for an error text, matched case-insensitively: client errors first, then gateway errors. */
  function ErrorStatus(error: string): int
  {
    var err := Lower(error);
    if Contains(err, "input") || Contains(err, "message") || Contains(err, "conversation_number") ||
       Contains(err, "aggregated_text") then BadRequest400
    else if Contains(err, "llm connectivity") || Contains(err, "timed out") then BadGateway502
    else InternalError500
  }

  /** The reply for a pipeline result: 200 unless it is an error dict; a non-string error makes the handler raise. */
  function ReplyFor(result: Json): HttpReply
  {
    if !IsErrorDict(result) then Responded(Ok200, result)
    else match Get(result.fields, "error").value
      case JStr(e) => Responded(ErrorStatus(e), result)
      case _ => ServerFault
  }

  /** POST /classify. */
  function HandleClassify(req: ConversationRequest, cfg: LlmWrapper.Config,
                          post: LlmWrapper.Request -> LlmWrapper.HttpOutcome,
                          decode: string -> Option<Json>, serialize: Json -> string): HttpReply
  {
    match AtLeastOne(req)
    case Err(e) => Unprocessable(e)
    case Ok(r) => ReplyFor(Api.Classify(RequestDict(r), cfg, post, decode, serialize))
  }

  /** The validator refuses exactly the requests whose two lists are both None or empty. */
  lemma AtLeastOneIff(req: ConversationRequest)
    ensures AtLeastOne(req).Err? <==>
      (req.messages.None? || req.messages.value == []) && (req.tweets.None? || req.tweets.value == [])
    ensures AtLeastOne(req).Ok? ==> AtLeastOne(req).value == req
    ensures AtLeastOne(req).Err? ==> AtLeastOne(req).error == NeitherCollectionError
  {
  }

  /** The status is one of three, and depends only on the lower-cased text. */
  lemma ErrorStatusCaseInsensitive(error: string)
    ensures ErrorStatus(Lower(error)) == ErrorStatus(error)
    ensures ErrorStatus(error) in {BadRequest400, BadGateway502, InternalError500}
  {
    LowerIdempotent(error);
  }

  /** A word found (after lower-casing) at a known position is contained in the lower-cased text. */
  lemma {:induction false} LowerContainsAt(s: string, i: nat, word: string)
    requires i + |word| <= |s|
    requires forall k :: 0 <= k < |word| ==> LowerChar(s[i + k]) == word[k]
    ensures Contains(Lower(s), word)
  {
    assert Lower(s)[i..i + |word|] == word;
    assert OccursAt(Lower(s), word, i);
    ContainsIffOccurs(Lower(s), word);
  }

  /** An error text with a client-error word in it gets 400, whatever else it says. */
  lemma ClientStatus(s: string, i: nat, word: string)
    requires word == "input" || word == "message" || word == "conversation_number" || word == "aggregated_text"
    requires i + |word| <= |s|
    requires forall k :: 0 <= k < |word| ==> LowerChar(s[i + k]) == word[k]
    ensures ErrorStatus(s) == BadRequest400
  {
    LowerContainsAt(s, i, word);
  }

  /** A letter of `needle` that the text lacks in both cases rules the needle out. */
  lemma AbsentLetter(s: string, needle: string, c: char)
    requires 'a' <= c <= 'z' && c in needle
    requires c !in s && (c as int - 32) as char !in s
    ensures !Contains(Lower(s), needle)
  {
    LowerKeepsAbsentLetter(s, c);
    MissingCharNotContained(Lower(s), needle, c);
  }

  /** c is a lower-case letter of `needle`, and cs holds it in both cases. */
  predicate Covers(cs: string, needle: string, c: char)
  {
    'a' <= c <= 'z' && c in needle && c in cs && (c as int - 32) as char in cs
  }

  /** No client-error word occurs in a text that avoids one letter of each word, in both cases. */
  lemma NoClientWord(s: string, cs: string, c1: char, c2: char, c3: char, c4: char)
    requires Avoids(s, cs)
    requires Covers(cs, "input", c1) && Covers(cs, "message", c2)
    requires Covers(cs, "conversation_number", c3) && Covers(cs, "aggregated_text", c4)
    ensures !Contains(Lower(s), "input") && !Contains(Lower(s), "message")
    ensures !Contains(Lower(s), "conversation_number") && !Contains(Lower(s), "aggregated_text")
  {
    AbsentLetter(s, "input", c1);
    AbsentLetter(s, "message", c2);
    AbsentLetter(s, "conversation_number", c3);
    AbsentLetter(s, "aggregated_text", c4);
  }

  /** None of the four words of the 400 test occurs in the lower-cased text. */
  predicate NoClientWords(s: string)
  {
    !Contains(Lower(s), "input") && !Contains(Lower(s), "message") &&
    !Contains(Lower(s), "conversation_number") && !Contains(Lower(s), "aggregated_text")
  }

  /** Neither word of the 502 test occurs in the lower-cased text. */
  predicate NoGatewayWords(s: string)
  {
    !Contains(Lower(s), "llm connectivity") && !Contains(Lower(s), "timed out")
  }

  /** Without a client-error word, a gateway word gives 502. */
  lemma GatewayStatus(s: string, i: nat, word: string)
    requires NoClientWords(s)
    requires word == "llm connectivity" || word == "timed out"
    requires i + |word| <= |s|
    requires forall k :: 0 <= k < |word| ==> LowerChar(s[i + k]) == word[k]
    ensures ErrorStatus(s) == BadGateway502
  {
    LowerContainsAt(s, i, word);
  }

  /** A gateway word in a text that avoids, in both cases, one letter of each client word gives 502. */
  lemma GatewayStatusByLetters(s: string, cs: string, c1: char, c2: char, c3: char, c4: char, i: nat, word: string)
    requires Avoids(s, cs)
    requires Covers(cs, "input", c1) && Covers(cs, "message", c2)
    requires Covers(cs, "conversation_number", c3) && Covers(cs, "aggregated_text", c4)
    requires word == "llm connectivity" || word == "timed out"
    requires i + |word| <= |s|
    requires forall k :: 0 <= k < |word| ==> LowerChar(s[i + k]) == word[k]
    ensures ErrorStatus(s) == BadGateway502
  {
    NoClientWord(s, cs, c1, c2, c3, c4);
    GatewayStatus(s, i, word);
  }

  /**
   * The rule as a whole, in both directions: 400 exactly when a client word
   * occurs, 502 exactly when none does and a gateway word does, 500 exactly
   * when none of the six words occurs (all after lower-casing).
   */
  lemma StatusRule(s: string)
    ensures ErrorStatus(s) == BadRequest400 <==> !NoClientWords(s)
    ensures ErrorStatus(s) == BadGateway502 <==> NoClientWords(s) && !NoGatewayWords(s)
    ensures ErrorStatus(s) == InternalError500 <==> NoClientWords(s) && NoGatewayWords(s)
  {
  }

  /** A text that avoids, in both cases, one letter of each of the six words gets 500. */
  lemma ServerStatusByLetters(s: string, cs: string, c1: char, c2: char, c3: char, c4: char, c5: char, c6: char)
    requires Avoids(s, cs)
    requires Covers(cs, "input", c1) && Covers(cs, "message", c2)
    requires Covers(cs, "conversation_number", c3) && Covers(cs, "aggregated_text", c4)
    requires Covers(cs, "llm connectivity", c5) && Covers(cs, "timed out", c6)
    ensures ErrorStatus(s) == InternalError500
  {
    NoClientWord(s, cs, c1, c2, c3, c4);
    AbsentLetter(s, "llm connectivity", c5);
    AbsentLetter(s, "timed out", c6);
    StatusRule(s);
  }

  lemma NotObjectStatus(s: string)
    requires s == Api.NotObjectError
    ensures ErrorStatus(s) == BadRequest400
  {
    ClientStatus(s, 8, "input");
  }

  lemma MissingConversationNumberStatus(s: string)
    requires s == Api.MissingConversationNumberError
    ensures ErrorStatus(s) == BadRequest400
  {
    ClientStatus(s, 24, "conversation_number");
  }

  lemma MessagesListStatus(s: string)
    requires s == Aggregator.NonEmptyListError
    ensures ErrorStatus(s) == BadRequest400
  {
    ClientStatus(s, 0, "message");
  }

  lemma MissingCollectionStatus(s: string)
    requires s == Api.MissingCollectionError
    ensures ErrorStatus(s) == BadRequest400
  {
    ClientStatus(s, 25, "message");
  }

  lemma PromptGuardStatus(s: string)
    requires s == PromptBuilder.InvalidInputError
    ensures ErrorStatus(s) == BadRequest400
  {
    ClientStatus(s, 39, "aggregated_text");
  }

  lemma NoTurnsStatus(s: string)
    requires s == Api.NoTurnsError
    ensures ErrorStatus(s) == BadRequest400
  {
    ClientStatus(s, 38, "message");
  }

  /** The not-a-dict message is a client error, for every index. */
  lemma NotADictStatus(i: nat)
    ensures ErrorStatus(Aggregator.NotADictError(i)) == BadRequest400
  {
    ClientStatus(Aggregator.NotADictError(i), 0, "message");
  }

  /** The missing-text message is a client error, for every index. */
  lemma MissingTextStatus(i: nat)
    ensures ErrorStatus(Aggregator.MissingTextError(i)) == BadRequest400
  {
    ClientStatus(Aggregator.MissingTextError(i), 16, "message");
  }

  lemma TimeoutLetters(s: string)
    requires s == LlmWrapper.TimeoutError
    ensures Avoids(s, "pPaA")
    ensures 12 + |"timed out"| <= |s| && forall k :: 0 <= k < |"timed out"| ==> LowerChar(s[12 + k]) == "timed out"[k]
  {
  }

  lemma TimeoutStatus(s: string)
    requires s == LlmWrapper.TimeoutError
    ensures ErrorStatus(s) == BadGateway502
  {
    TimeoutLetters(s);
    GatewayStatusByLetters(s, "pPaA", 'p', 'a', 'a', 'a', 12, "timed out");
  }

  lemma ConnectivityLetters(s: string)
    requires s == LlmWrapper.ConnectivityError
    ensures Avoids(s, "pPaA")
    ensures 0 + |"llm connectivity"| <= |s| && forall k :: 0 <= k < |"llm connectivity"| ==> LowerChar(s[0 + k]) == "llm connectivity"[k]
  {
  }

  lemma ConnectivityStatus(s: string)
    requires s == LlmWrapper.ConnectivityError
    ensures ErrorStatus(s) == BadGateway502
  {
    ConnectivityLetters(s);
    GatewayStatusByLetters(s, "pPaA", 'p', 'a', 'a', 'a', 0, "llm connectivity");
  }

  lemma ModelNotSetLetters(s: string)
    requires s == LlmWrapper.ModelNotSetError
    ensures Avoids(s, "uUgGcC")
  {
  }

  lemma ModelNotSetStatus(s: string)
    requires s == LlmWrapper.ModelNotSetError
    ensures ErrorStatus(s) == InternalError500
  {
    ModelNotSetLetters(s);
    ServerStatusByLetters(s, "uUgGcC", 'u', 'g', 'u', 'g', 'c', 'u');
  }

  lemma EmptyContentLetters(s: string)
    requires s == LlmWrapper.EmptyContentError
    ensures Avoids(s, "iIaA")
  {
  }

  lemma EmptyContentStatus(s: string)
    requires s == LlmWrapper.EmptyContentError
    ensures ErrorStatus(s) == InternalError500
  {
    EmptyContentLetters(s);
    ServerStatusByLetters(s, "iIaA", 'i', 'a', 'a', 'a', 'i', 'i');
  }

  lemma ParseFailureLetters(s: string)
    requires s == LlmWrapper.ParseFailureError
    ensures Avoids(s, "uUgGcC")
  {
  }

  lemma ParseFailureStatus(s: string)
    requires s == LlmWrapper.ParseFailureError
    ensures ErrorStatus(s) == InternalError500
  {
    ParseFailureLetters(s);
    ServerStatusByLetters(s, "uUgGcC", 'u', 'g', 'u', 'g', 'c', 'u');
  }

  lemma LlmErrorLetters(s: string)
    requires s == LlmWrapper.OtherError
    ensures Avoids(s, "iIaAcCtT")
  {
  }

  lemma LlmErrorStatus(s: string)
    requires s == LlmWrapper.OtherError
    ensures ErrorStatus(s) == InternalError500
  {
    LlmErrorLetters(s);
    ServerStatusByLetters(s, "iIaAcCtT", 'i', 'a', 'a', 'a', 'c', 't');
  }

  lemma EmptyResponseLetters(s: string)
    requires s == Classifier.EmptyResponseError
    ensures Avoids(s, "iIaA")
  {
  }

  lemma EmptyResponseStatus(s: string)
    requires s == Classifier.EmptyResponseError
    ensures ErrorStatus(s) == InternalError500
  {
    EmptyResponseLetters(s);
    ServerStatusByLetters(s, "iIaA", 'i', 'a', 'a', 'a', 'i', 'i');
  }

  lemma InvalidTypeLetters(s: string)
    requires s == Classifier.InvalidTypeError
    ensures Avoids(s, "uUmMgG")
  {
  }

  lemma InvalidTypeStatus(s: string)
    requires s == Classifier.InvalidTypeError
    ensures ErrorStatus(s) == InternalError500
  {
    InvalidTypeLetters(s);
    ServerStatusByLetters(s, "uUmMgG", 'u', 'm', 'm', 'g', 'm', 'm');
  }

  lemma ParsingErrorLetters(s: string)
    requires s == Classifier.ParsingError
    ensures Avoids(s, "uUmMxXlLtT")
  {
  }

  lemma ParsingErrorStatus(s: string)
    requires s == Classifier.ParsingError
    ensures ErrorStatus(s) == InternalError500
  {
    ParsingErrorLetters(s);
    ServerStatusByLetters(s, "uUmMxXlLtT", 'u', 'm', 'm', 'x', 'l', 't');
  }

  lemma AggregationErrorLetters(s: string)
    requires s == Aggregator.JoinError
    ensures Avoids(s, "uUmMxXlL")
  {
  }

  lemma AggregationErrorStatus(s: string)
    requires s == Aggregator.JoinError
    ensures ErrorStatus(s) == InternalError500
  {
    AggregationErrorLetters(s);
    ServerStatusByLetters(s, "uUmMxXlL", 'u', 'm', 'm', 'x', 'l', 'm');
  }

  /** A needle with the letters x then y at positions p and p + 1 is absent from a text where no x directly precedes a y. */
  lemma {:induction false} PairAbsentNotContained(l: string, w: string, p: nat)
    requires p + 1 < |w|
    requires forall k :: 0 < k < |l| && l[k] == w[p + 1] ==> l[k - 1] != w[p]
    ensures !Contains(l, w)
  {
    forall i ensures !OccursAt(l, w, i) {
      if 0 <= i <= |l| - |w| {
        assert l[i..i + |w|][p] == l[i + p] && l[i..i + |w|][p + 1] == l[i + p + 1];
      }
    }
    ContainsIffOccurs(l, w);
  }

  /** No 'a' or 'A' directly precedes a 'g' or 'G'. */
  predicate NoAThenG(s: string)
  {
    forall k :: 0 < k < |s| && (s[k] == 'g' || s[k] == 'G') ==> s[k - 1] != 'a' && s[k - 1] != 'A'
  }

  /** "message" has an 'a' right before its 'g', so a text with no 'a' directly before a 'g' lacks it. */
  lemma NoMessageWithoutAG(s: string)
    requires NoAThenG(s)
    ensures !Contains(Lower(s), "message")
  {
    var l := Lower(s);
    var w := "message";
    assert w[4] == 'a' && w[5] == 'g';
    forall k | 0 < k < |l| && l[k] == w[5] ensures l[k - 1] != w[4] {
      assert l[k] == LowerChar(s[k]) && l[k - 1] == LowerChar(s[k - 1]);
    }
    PairAbsentNotContained(l, w, 4);
  }

  /** A piece of text with no 'u', 'x' or 'v' in either case, no 'a' right before a 'g', and no 'a' at its end. */
  predicate PlainPiece(s: string)
  {
    Avoids(s, "uUxXvV") && NoAThenG(s) && (|s| == 0 || (s[|s| - 1] != 'a' && s[|s| - 1] != 'A'))
  }

  /** Two plain pieces joined make one: the left piece does not end in 'a', so the seam adds no 'a' before a 'g'. */
  lemma AppendPlainPieces(a: string, b: string)
    requires PlainPiece(a) && PlainPiece(b)
    ensures PlainPiece(a + b)
  {
    var s := a + b;
    forall k | 0 <= k < |s| ensures s[k] !in "uUxXvV" {
      if k < |a| {
        assert s[k] == a[k];
      } else {
        assert s[k] == b[k - |a|];
      }
    }
    forall k | 0 < k < |s| && (s[k] == 'g' || s[k] == 'G') ensures s[k - 1] != 'a' && s[k - 1] != 'A' {
      if k < |a| {
        assert s[k] == a[k] && s[k - 1] == a[k - 1];
      } else if k == |a| {
        assert s[k - 1] == a[|a| - 1];
      } else {
        assert s[k] == b[k - |a|] && s[k - 1] == b[k - 1 - |a|];
      }
    }
    if |b| > 0 {
      assert s[|s| - 1] == b[|b| - 1];
    } else {
      assert s == a;
    }
  }

  lemma MissingChunk(s: string)
    requires s == "Missing "
    ensures PlainPiece(s)
  {
  }

  lemma FieldInChunk(s: string)
    requires s == "field in "
    ensures PlainPiece(s)
  {
  }

  lemma ClassificationChunk(s: string)
    requires s == "classification: "
    ensures PlainPiece(s)
  {
  }

  lemma RequiredFieldPiece(f: string)
    requires f in Classifier.RequiredFields
    ensures PlainPiece(f)
  {
  }

  /** The missing-field text is plain, checked piece by piece and joined with AppendPlainPieces. */
  lemma MissingFieldPieces(a: string, b: string, c: string, f: string)
    requires a == "Missing " && b == "field in " && c == "classification: "
    requires f in Classifier.RequiredFields
    ensures PlainPiece(a + b + c + f)
  {
    MissingChunk(a);
    FieldInChunk(b);
    ClassificationChunk(c);
    RequiredFieldPiece(f);
    AppendPlainPieces(a, b);
    AppendPlainPieces(a + b, c);
    AppendPlainPieces(a + b + c, f);
  }

  lemma MissingFieldSplit(f: string)
    ensures Classifier.MissingFieldError(f) == "Missing " + "field in " + "classification: " + f
  {
  }

  /**
   * A text that lacks 'u', 'x' and 'v' in both cases and has no 'a' right
   * before a 'g' gets 500: one of those letters is missing from each of
   * five words, and "message" is ruled out by its "ag".
   */
  lemma ServerStatusByLettersAndPair(s: string)
    requires Avoids(s, "uUxXvV") && NoAThenG(s)
    ensures ErrorStatus(s) == InternalError500
  {
    AbsentLetter(s, "input", 'u');
    NoMessageWithoutAG(s);
    AbsentLetter(s, "conversation_number", 'u');
    AbsentLetter(s, "aggregated_text", 'x');
    AbsentLetter(s, "llm connectivity", 'v');
    AbsentLetter(s, "timed out", 'u');
    StatusRule(s);
  }

  /** "Missing field in classification: f" gets 500 for each of intent, topic and sentiment. */
  lemma MissingFieldStatus(f: string)
    requires f in Classifier.RequiredFields
    ensures ErrorStatus(Classifier.MissingFieldError(f)) == InternalError500
  {
    MissingFieldPieces("Missing ", "field in ", "classification: ", f);
    MissingFieldSplit(f);
    ServerStatusByLettersAndPair(Classifier.MissingFieldError(f));
  }

  /** The handler answers 200 with the result itself exactly when the result is not an error dict. */
  lemma SuccessIs200(result: Json)
    ensures ReplyFor(result) == Responded(Ok200, result) <==> !IsErrorDict(result)
    ensures IsErrorDict(result) && Get(result.fields, "error").value.JStr? ==>
      ReplyFor(result) == Responded(ErrorStatus(Get(result.fields, "error").value.s), result)
  {
  }

  /** A typed tweet always has the `role` and `text` keys the API checks for. */
  lemma TweetJsonShaped(t: Tweet)
    ensures Api.TweetShaped(TweetJson(t))
  {
    var f := TweetJson(t).fields;
    assert Get(f[1..][1..], "role").Some?;
    assert Get(f[1..][1..][1..][1..][1..], "text").Some?;
  }

  /** A typed message always has `sender` and `text`, and its text is a string. */
  lemma MessageJsonShaped(m: Message)
    ensures Api.MessageShaped(MessageJson(m)) && Aggregator.TextOf(MessageJson(m)) == JStr(m.text)
  {
    assert Get(MessageJson(m).fields[1..], "text") == Some(JStr(m.text));
  }

  /**
   * A typed body passes every API input check when it has a non-empty
   * message list, or no message list and a non-empty tweet list.
   */
  lemma TypedBodyValidates(req: ConversationRequest)
    requires Given(req.messages) || (req.messages.None? && Given(req.tweets))
    ensures Api.ValidateRequest(RequestDict(req)).None?
  {
    var d := RequestDict(req).fields;
    if Given(req.messages) {
      var ms := req.messages.value;
      assert Get(d, "messages").value.items == seq(|ms|, i requires 0 <= i < |ms| => MessageJson(ms[i]));
      forall i | 0 <= i < |ms| ensures Api.MessageShaped(MessageJson(ms[i])) {
        MessageJsonShaped(ms[i]);
      }
    } else {
      var ts := req.tweets.value;
      assert Get(d, "tweets").value.items == seq(|ts|, i requires 0 <= i < |ts| => TweetJson(ts[i]));
      forall i | 0 <= i < |ts| ensures Api.TweetShaped(TweetJson(ts[i])) {
        TweetJsonShaped(ts[i]);
      }
    }
  }

  /** An error record answers with the status its text selects, and carries the record as body. */
  lemma ErrorReply(e: string)
    ensures ReplyFor(ErrorResponse(e)) == Responded(ErrorStatus(e), ErrorResponse(e))
  {
  }

  /** A body the validator accepts is answered by the pipeline's result on its dict. */
  lemma AcceptedBody(req: ConversationRequest, cfg: LlmWrapper.Config,
                     post: LlmWrapper.Request -> LlmWrapper.HttpOutcome,
                     decode: string -> Option<Json>, serialize: Json -> string)
    requires Given(req.messages) || Given(req.tweets)
    ensures HandleClassify(req, cfg, post, decode, serialize) ==
      ReplyFor(Api.Classify(RequestDict(req), cfg, post, decode, serialize))
  {
  }

  /**
   * A body with tweets and no messages passes the validators but is refused
   * by the aggregator, which reads only `messages`: 400, "Messages must be a
   * non-empty list".
   */
  lemma TweetsOnlyRequestRefused(req: ConversationRequest, cfg: LlmWrapper.Config,
                                 post: LlmWrapper.Request -> LlmWrapper.HttpOutcome,
                                 decode: string -> Option<Json>, serialize: Json -> string)
    requires req.messages.None? && Given(req.tweets)
    ensures HandleClassify(req, cfg, post, decode, serialize) ==
      Responded(BadRequest400, ErrorResponse(Aggregator.NonEmptyListError))
  {
    AcceptedBody(req, cfg, post, decode, serialize);
    TypedBodyValidates(req);
    Api.TweetsOnlyFails(RequestDict(req).fields, cfg, post, decode, serialize);
    ErrorReply(Aggregator.NonEmptyListError);
    MessagesListStatus(Aggregator.NonEmptyListError);
  }

  /** An empty typed message list is present (not None), so the API refuses it as an empty list. */
  lemma EmptyMessagesValidation(req: ConversationRequest)
    requires req.messages == Some([])
    ensures Api.ValidateRequest(RequestDict(req)) == Some(Api.MessagesListError)
  {
    assert ListJson(req.messages, MessageJson).items == [];
  }

  /**
   * An empty message list next to a non-empty tweet list passes the
   * validator (the tweets are truthy) but the API checks `messages` first:
   * 400, "Messages must be a non-empty list".
   */
  lemma EmptyMessagesWithTweetsRefused(req: ConversationRequest, cfg: LlmWrapper.Config,
                                       post: LlmWrapper.Request -> LlmWrapper.HttpOutcome,
                                       decode: string -> Option<Json>, serialize: Json -> string)
    requires req.messages == Some([]) && Given(req.tweets)
    ensures HandleClassify(req, cfg, post, decode, serialize) ==
      Responded(BadRequest400, ErrorResponse(Api.MessagesListError))
  {
    AcceptedBody(req, cfg, post, decode, serialize);
    EmptyMessagesValidation(req);
    Api.InputErrorsOffline(RequestDict(req), cfg, post, post, decode, serialize);
    ErrorReply(Api.MessagesListError);
    MessagesListStatus(Api.MessagesListError);
  }

  /** The aggregator reads the typed message list from the request dict. */
  lemma MessagesOfRequest(req: ConversationRequest)
    requires req.messages.Some?
    ensures Aggregator.MessagesOf(RequestDict(req).fields) == ListJson(req.messages, MessageJson)
  {
  }

  /** The aggregator, on a typed message list, stops at the first empty text and names its index. */
  lemma EmptyTextAggregation(req: ConversationRequest, k: nat)
    requires Given(req.messages)
    requires k < |req.messages.value| && req.messages.value[k].text == ""
    requires forall j :: 0 <= j < k ==> req.messages.value[j].text != ""
    ensures Aggregator.Aggregation(RequestDict(req).fields) == Err(Aggregator.MissingTextError(k))
  {
    var d := RequestDict(req).fields;
    var ms := req.messages.value;
    var items := seq(|ms|, i requires 0 <= i < |ms| => MessageJson(ms[i]));
    MessagesOfRequest(req);
    forall i | 0 <= i < |ms| ensures items[i].JObj? && Aggregator.TextOf(items[i]) == JStr(ms[i].text) {
      MessageJsonShaped(ms[i]);
    }
    assert !Aggregator.WellFormed(items[k]);
    assert forall j :: 0 <= j < k ==> Aggregator.WellFormed(items[j]);
    Aggregator.ReportsFirstBadIndex(d, k);
    assert Aggregator.EntryError(items[k], k) == Aggregator.MissingTextError(k);
  }

  /**
   * Typed messages always pass the API's shape checks, so a body with
   * messages fails at the aggregator only when some text is empty; it is
   * then 400, naming the first such index.
   */
  lemma EmptyTextRequestRefused(req: ConversationRequest, cfg: LlmWrapper.Config,
                                post: LlmWrapper.Request -> LlmWrapper.HttpOutcome,
                                decode: string -> Option<Json>, serialize: Json -> string, k: nat)
    requires Given(req.messages)
    requires k < |req.messages.value| && req.messages.value[k].text == ""
    requires forall j :: 0 <= j < k ==> req.messages.value[j].text != ""
    ensures HandleClassify(req, cfg, post, decode, serialize) ==
      Responded(BadRequest400, ErrorResponse(Aggregator.MissingTextError(k)))
  {
    AcceptedBody(req, cfg, post, decode, serialize);
    TypedBodyValidates(req);
    EmptyTextAggregation(req, k);
    Api.AggregationErrorReported(RequestDict(req).fields, cfg, post, decode, serialize);
    ErrorReply(Aggregator.MissingTextError(k));
    MissingTextStatus(k);
  }
}
