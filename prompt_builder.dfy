/**
 * The prompt builder: from the aggregated text, a fixed list of role-tagged
 * turns — one system turn, a user/assistant pair per few-shot exemplar, and
 * the real query last.
 */
module PromptBuilder {
  import opened Text
  import opened Values

  datatype Role = System | User | Assistant

  /** One chat turn, `{"role": ..., "content": ...}`. */
  datatype Turn = Turn(role: Role, content: string)

  function RoleName(r: Role): string
  {
    match r
    case System => "system"
    case User => "user"
    case Assistant => "assistant"
  }

  /** The dict the turn becomes in the request payload. */
  function TurnJson(t: Turn): Json
  {
    JObj([("role", JStr(RoleName(t.role))), ("content", JStr(t.content))])
  }

  datatype ExampleMessage = ExampleMessage(sender: string, text: string)

  /** A few-shot exemplar: a short conversation and the classification expected for it. */
  datatype Exemplar = Exemplar(messages: seq<ExampleMessage>, output: Json)

  const IntentOptions: seq<string> := [
    "Order Status", "Cancel Order", "Return/Refund", "Product Inquiry", "Technical Support",
    "Complaint", "Feedback", "Account/Billing", "Shipping", "Shipping/Delivery", "Other"]

  const TopicOptions: seq<string> := [
    "Orders", "Payments", "Shipping/Delivery", "Shipping", "Returns", "Refunds", "Warranty",
    "Product Info", "Account", "Technical", "General"]

  const SentimentOptions: seq<string> := ["Positive", "Neutral", "Negative"]

  /** Python's `repr` of a list of strings that hold no quote or backslash, as an f-string prints it. */
  function ListRepr(xs: seq<string>): string
  {
    "[" + Join(", ", seq(|xs|, i requires 0 <= i < |xs| => "'" + xs[i] + "'")) + "]"
  }

  /** The system turn's text, with the three option lists printed as Python lists. */
  const SystemPrompt: string :=
    "You are a highly accurate customer-support query classifier.\n" +
    "Your task is to classify the conversation into a short description, intent, topic, and sentiment.\n" +
    "IMPORTANT:\n" +
    "1. Use the **entire conversation** to determine intent and topic.\n" +
    "2. Determine sentiment **ONLY from the customer's messages**.\n" +
    "   - Positive: satisfaction, happiness, appreciation.\n" +
    "   - Neutral: questions, clarifications, factual statements.\n" +
    "   - Negative: frustration, anger, disappointment, urgency.\n" +
    "3. Completely ignore the agent's tone for sentiment.\n" +
    "4. Return a SINGLE JSON object **exactly** matching this schema:\n" +
    "   - categorization: short descriptive summary of the customer issue.\n" +
    "   - intent: one of " + ListRepr(IntentOptions) + "\n" +
    "   - topic: one of " + ListRepr(TopicOptions) + "\n" +
    "   - sentiment: one of " + ListRepr(SentimentOptions) + "\n" +
    "5. NO extra keys, NO explanations, NO commentary, ONLY JSON.\n" +
    "6. If unsure, make the best judgment based on customer words."

  function Expected(categorization: string, intent: string, topic: string, sentiment: string): Json
  {
    JObj([("categorization", JStr(categorization)), ("intent", JStr(intent)),
          ("topic", JStr(topic)), ("sentiment", JStr(sentiment))])
  }

  /** The four few-shot exemplars, in order. */
  const FewShots: seq<Exemplar> := [
    Exemplar(
      [ExampleMessage("customer", "I want to cancel my subscription."),
       ExampleMessage("agent", "I can help you with that.")],
      Expected("Request to cancel subscription", "Cancel Order", "Account/Billing", "Neutral")),
    Exemplar(
      [ExampleMessage("customer", "My internet is down since morning."),
       ExampleMessage("agent", "Let me check your connection status.")],
      Expected("Internet connectivity issue", "Technical Support", "Technical", "Negative")),
    Exemplar(
      [ExampleMessage("customer", "Where is my order?"),
       ExampleMessage("agent", "Let me check for you.")],
      Expected("Requesting shipping status", "Order Status", "Shipping/Delivery", "Neutral")),
    Exemplar(
      [ExampleMessage("customer", "I received a damaged product."),
       ExampleMessage("agent", "I'm sorry to hear that. Would you like a replacement or refund?")],
      Expected("Product received damaged", "Return/Refund", "Returns", "Negative"))
  ]

  const InvalidInputError := "Invalid input: conversation_number and aggregated_text are required"

  /** The line an exemplar message contributes: none for a sender other than customer or agent. */
  function Line(m: ExampleMessage): seq<string>
  {
    if m.sender == "customer" then ["Customer: " + m.text]
    else if m.sender == "agent" then ["Agent: " + m.text]
    else []
  }

  function RenderLines(ms: seq<ExampleMessage>): seq<string>
  {
    if |ms| == 0 then [] else RenderLines(ms[..|ms| - 1]) + Line(ms[|ms| - 1])
  }

  /** The exemplar's user turn: its lines joined by newlines. */
  function RenderExemplar(ex: Exemplar): string
  {
    Join("\n", RenderLines(ex.messages))
  }

  function QueryContent(aggregatedText: string): string
  {
    "Customer Query:\n" + aggregatedText + "\nReturn ONLY JSON:"
  }

  /** The user/assistant pairs for the exemplars, in order; the assistant turn is `json.dumps(output)`. */
  function ExemplarTurns(exs: seq<Exemplar>, serialize: Json -> string): seq<Turn>
  {
    if |exs| == 0 then []
    else
      var ex := exs[|exs| - 1];
      ExemplarTurns(exs[..|exs| - 1], serialize) +
        [Turn(User, RenderExemplar(ex)), Turn(Assistant, serialize(ex.output))]
  }

  /** The turn list built for a valid query. */
  function PromptTurns(aggregatedText: string, serialize: Json -> string): seq<Turn>
  {
    [Turn(System, SystemPrompt)] + ExemplarTurns(FewShots, serialize) + [Turn(User, QueryContent(aggregatedText))]
  }

  /** What `build_prompt` returns. */
  function Prompt(conversationNumber: Json, aggregatedText: string, serialize: Json -> string): Result<seq<Turn>, string>
  {
    if !Truthy(conversationNumber) || aggregatedText == "" then Err(InvalidInputError)
    else Ok(PromptTurns(aggregatedText, serialize))
  }

  /**
   * `build_prompt`: after the guard, the system turn, then the few-shot
   * turns appended one exemplar at a time, then the query.
   */
  method BuildPrompt(conversationNumber: Json, aggregatedText: string, serialize: Json -> string)
    returns (r: Result<seq<Turn>, string>)
    ensures r == Prompt(conversationNumber, aggregatedText, serialize)
  {
    if !Truthy(conversationNumber) || aggregatedText == "" {
      return Err(InvalidInputError);
    }
    var messages := [Turn(System, SystemPrompt)];
    messages := AppendExemplars(messages, FewShots, serialize);
    messages := messages + [Turn(User, QueryContent(aggregatedText))];
    r := Ok(messages);
  }

  /**
   * The few-shot loop of `build_prompt`: for each exemplar, an inner loop
   * collects the lines of its customer and agent messages, and the joined
   * lines and the serialized output are appended as a user/assistant pair.
   */
  method AppendExemplars(start: seq<Turn>, exs: seq<Exemplar>, serialize: Json -> string)
    returns (messages: seq<Turn>)
    ensures messages == start + ExemplarTurns(exs, serialize)
  {
    messages := start;
    var e := 0;
    while e < |exs|
      invariant 0 <= e <= |exs|
      invariant messages == start + ExemplarTurns(exs[..e], serialize)
    {
      var ex := exs[e];
      var userMsgs: seq<string> := [];
      var j := 0;
      while j < |ex.messages|
        invariant 0 <= j <= |ex.messages|
        invariant userMsgs == RenderLines(ex.messages[..j])
      {
        var msg := ex.messages[j];
        if msg.sender == "customer" {
          userMsgs := userMsgs + ["Customer: " + msg.text];
        } else if msg.sender == "agent" {
          userMsgs := userMsgs + ["Agent: " + msg.text];
        }
        assert ex.messages[..j + 1][..j] == ex.messages[..j];
        j := j + 1;
      }
      assert ex.messages[..j] == ex.messages;
      var userContent := Join("\n", userMsgs);
      messages := messages + [Turn(User, userContent)];
      messages := messages + [Turn(Assistant, serialize(ex.output))];
      assert exs[..e + 1][..e] == exs[..e];
      e := e + 1;
    }
    assert exs[..e] == exs;
  }

  /** Exemplar i gives turns 2i (user, its rendering) and 2i + 1 (assistant, its serialized output). */
  lemma {:induction false} ExemplarTurnsAt(exs: seq<Exemplar>, serialize: Json -> string, i: nat)
    requires i < |exs|
    ensures |ExemplarTurns(exs, serialize)| == 2 * |exs|
    ensures ExemplarTurns(exs, serialize)[2 * i] == Turn(User, RenderExemplar(exs[i]))
    ensures ExemplarTurns(exs, serialize)[2 * i + 1] == Turn(Assistant, serialize(exs[i].output))
  {
    ExemplarTurnsLength(exs[..|exs| - 1], serialize);
    if i < |exs| - 1 {
      ExemplarTurnsAt(exs[..|exs| - 1], serialize, i);
    }
  }

  lemma {:induction false} ExemplarTurnsLength(exs: seq<Exemplar>, serialize: Json -> string)
    ensures |ExemplarTurns(exs, serialize)| == 2 * |exs|
  {
    if |exs| > 0 {
      ExemplarTurnsLength(exs[..|exs| - 1], serialize);
    }
  }

  /** A head turn, the exemplar turns, and a last turn: where each turn lands. */
  lemma Layout(head: Turn, exs: seq<Exemplar>, last: Turn, serialize: Json -> string)
    ensures var turns := [head] + ExemplarTurns(exs, serialize) + [last];
      |turns| == 2 + 2 * |exs| && turns[0] == head && turns[|turns| - 1] == last &&
      forall i :: 0 <= i < |exs| ==>
        turns[1 + 2 * i] == Turn(User, RenderExemplar(exs[i])) &&
        turns[2 + 2 * i] == Turn(Assistant, serialize(exs[i].output))
  {
    var et := ExemplarTurns(exs, serialize);
    ExemplarTurnsLength(exs, serialize);
    forall i | 0 <= i < |exs|
      ensures et[2 * i] == Turn(User, RenderExemplar(exs[i]))
      ensures et[2 * i + 1] == Turn(Assistant, serialize(exs[i].output))
    {
      ExemplarTurnsAt(exs, serialize, i);
    }
  }

  /**
   * A valid query yields 1 + 2 * 4 + 1 = 10 turns: system first, then user and
   * assistant alternating over the exemplars in their order, then the query.
   */
  lemma PromptShape(aggregatedText: string, serialize: Json -> string)
    ensures var turns := PromptTurns(aggregatedText, serialize);
      |turns| == 1 + 2 * |FewShots| + 1 == 10 &&
      turns[0] == Turn(System, SystemPrompt) &&
      (forall i :: 0 <= i < |FewShots| ==>
        turns[1 + 2 * i] == Turn(User, RenderExemplar(FewShots[i])) &&
        turns[2 + 2 * i] == Turn(Assistant, serialize(FewShots[i].output))) &&
      turns[9] == Turn(User, "Customer Query:\n" + aggregatedText + "\nReturn ONLY JSON:")
  {
    Layout(Turn(System, SystemPrompt), FewShots, Turn(User, QueryContent(aggregatedText)), serialize);
  }

  /** Rendering a concatenation renders each part in turn. */
  lemma {:induction false} RenderLinesAppend(a: seq<ExampleMessage>, b: seq<ExampleMessage>)
    ensures RenderLines(a + b) == RenderLines(a) + RenderLines(b)
    decreases |b|
  {
    if |b| == 0 {
      assert a + b == a;
    } else {
      assert (a + b)[..|a + b| - 1] == a + b[..|b| - 1];
      RenderLinesAppend(a, b[..|b| - 1]);
    }
  }

  /** A message whose sender is neither "customer" nor "agent" contributes no line, wherever it stands. */
  lemma UnknownSenderSkipped(a: seq<ExampleMessage>, m: ExampleMessage, b: seq<ExampleMessage>)
    requires m.sender != "customer" && m.sender != "agent"
    ensures RenderLines(a + [m] + b) == RenderLines(a + b)
  {
    RenderLinesAppend(a + [m], b);
    RenderLinesAppend(a, b);
    assert (a + [m])[..|a + [m]| - 1] == a;
  }

  /** With only customer and agent senders there is one line per message, labelled by its sender. */
  lemma {:induction false} KnownSendersRendered(ms: seq<ExampleMessage>)
    requires forall i :: 0 <= i < |ms| ==> ms[i].sender == "customer" || ms[i].sender == "agent"
    ensures |RenderLines(ms)| == |ms|
    ensures forall i :: 0 <= i < |ms| ==>
      RenderLines(ms)[i] == (if ms[i].sender == "customer" then "Customer: " else "Agent: ") + ms[i].text
  {
    if |ms| > 0 {
      KnownSendersRendered(ms[..|ms| - 1]);
    }
  }

  /** A customer line followed by an agent line renders as the two labelled lines. */
  lemma RenderCustomerAgent(ex: Exemplar)
    requires |ex.messages| == 2
    requires ex.messages[0].sender == "customer" && ex.messages[1].sender == "agent"
    ensures RenderExemplar(ex) == "Customer: " + ex.messages[0].text + "\nAgent: " + ex.messages[1].text
  {
    var ms := ex.messages;
    var c, a := ms[0].text, ms[1].text;
    assert ms[..1][..0] == [];
    assert RenderLines(ms[..1]) == ["Customer: " + c];
    assert RenderLines(ms) == RenderLines(ms[..1]) + ["Agent: " + a];
    var lines := ["Customer: " + c, "Agent: " + a];
    assert lines[1..] == ["Agent: " + a];
    assert RenderLines(ms) == lines;
    assert Join("\n", lines) == lines[0] + "\n" + Join("\n", lines[1..]);
  }

  /** Every exemplar is one customer message then one agent message, rendered as two labelled lines. */
  lemma FewShotRendering()
    ensures forall i :: 0 <= i < |FewShots| ==>
      var ms := FewShots[i].messages;
      |ms| == 2 && ms[0].sender == "customer" && ms[1].sender == "agent" &&
      RenderExemplar(FewShots[i]) == "Customer: " + ms[0].text + "\nAgent: " + ms[1].text
  {
    forall i | 0 <= i < |FewShots|
      ensures |FewShots[i].messages| == 2
      ensures FewShots[i].messages[0].sender == "customer" && FewShots[i].messages[1].sender == "agent"
    {
      assert i == 0 || i == 1 || i == 2 || i == 3;
    }
    forall i | 0 <= i < |FewShots|
      ensures RenderExemplar(FewShots[i]) ==
        "Customer: " + FewShots[i].messages[0].text + "\nAgent: " + FewShots[i].messages[1].text
    {
      RenderCustomerAgent(FewShots[i]);
    }
  }

  /** Apart from the guard the turns do not depend on the conversation number. */
  lemma ConversationNumberOnlyGuards(n1: Json, n2: Json, aggregatedText: string, serialize: Json -> string)
    requires Truthy(n1) && Truthy(n2)
    ensures Prompt(n1, aggregatedText, serialize) == Prompt(n2, aggregatedText, serialize)
    ensures aggregatedText != "" ==> Prompt(n1, aggregatedText, serialize) == Ok(PromptTurns(aggregatedText, serialize))
  {
  }

  /** A falsy conversation number or an empty text is refused with the fixed message. */
  lemma GuardRejects(conversationNumber: Json, aggregatedText: string, serialize: Json -> string)
    ensures Prompt(conversationNumber, aggregatedText, serialize).Err? <==>
      !Truthy(conversationNumber) || aggregatedText == ""
    ensures Prompt(conversationNumber, aggregatedText, serialize).Err? ==>
      Prompt(conversationNumber, aggregatedText, serialize).error == InvalidInputError
  {
  }
}
