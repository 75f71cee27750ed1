/**
 * The conversation aggregator: checks the request's `messages` list entry
 * by entry, stopping at the first bad entry, and joins the message texts
 * with single spaces.
 */
module Aggregator {
  import opened Text
  import opened Values

  const NonEmptyListError := "Messages must be a non-empty list"

  /** Raised by `" ".join` when a collected text is not a string. */
  const JoinError := "Aggregation error"

  function NotADictError(i: nat): string
  {
    "Message at index " + NatToString(i) + " is not a dict"
  }

  function MissingTextError(i: nat): string
  {
    "Missing text in message at index " + NatToString(i)
  }

  /** The aggregator's success record. */
  datatype Aggregated = Aggregated(conversationNumber: Json, aggregatedText: string, messages: seq<Json>)

  /** `request_json.get("messages", [])`. */
  function MessagesOf(request: Dict): Json
  {
    GetOr(request, "messages", JArr([]))
  }

  /** `msg.get("text")` for a message that is a dict (None for anything else). */
  function TextOf(msg: Json): Json
  {
    if msg.JObj? then GetOr(msg.fields, "text", JNull) else JNull
  }

  /** An entry the loop accepts: a dict whose text is truthy. */
  predicate WellFormed(msg: Json)
  {
    msg.JObj? && Truthy(TextOf(msg))
  }

  /** What the loop reports for a rejected entry at index i: the dict check comes first. */
  function EntryError(msg: Json, i: nat): string
  {
    if !msg.JObj? then NotADictError(i) else MissingTextError(i)
  }

  /** The index of the first entry that is not well formed, or |ms| when there is none. */
  function FirstMalformed(ms: seq<Json>): (k: nat)
    ensures k <= |ms|
    ensures forall j :: 0 <= j < k ==> WellFormed(ms[j])
    ensures k < |ms| ==> !WellFormed(ms[k])
  {
    if |ms| == 0 then 0
    else if !WellFormed(ms[0]) then 0
    else 1 + FirstMalformed(ms[1..])
  }

  /** The texts of the entries, in order. */
  function TextsOf(ms: seq<Json>): (ts: seq<Json>)
    ensures |ts| == |ms|
    ensures forall j :: 0 <= j < |ms| ==> ts[j] == TextOf(ms[j])
  {
    if |ms| == 0 then [] else TextsOf(ms[..|ms| - 1]) + [TextOf(ms[|ms| - 1])]
  }

  /** The strings inside a list of values, or None when one of them is not a string. */
  function Strings(vs: seq<Json>): (r: Option<seq<string>>)
    ensures r.None? <==> exists j :: 0 <= j < |vs| && !vs[j].JStr?
    ensures r.Some? ==> |r.value| == |vs| && forall j :: 0 <= j < |vs| ==> vs[j] == JStr(r.value[j])
  {
    if |vs| == 0 then Some([])
    else if !vs[0].JStr? then None
    else match Strings(vs[1..])
      case None => None
      case Some(rest) => Some([vs[0].s] + rest)
  }

  /** What `aggregate_conversation` returns for a request dict. */
  function Aggregation(request: Dict): Result<Aggregated, string>
  {
    var v := MessagesOf(request);
    if !v.JArr? || |v.items| == 0 then Err(NonEmptyListError)
    else
      var k := FirstMalformed(v.items);
      if k < |v.items| then Err(EntryError(v.items[k], k))
      else match Strings(TextsOf(v.items))
        case None => Err(JoinError)
        case Some(texts) =>
          Ok(Aggregated(GetOr(request, "conversation_number", JNull), Join(" ", texts), v.items))
  }

  /**
   * `aggregate_conversation`: one pass over the entries that collects the
   * texts and returns at the first entry that is not a dict or has no text.
   */
  method AggregateConversation(request: Dict) returns (r: Result<Aggregated, string>)
    ensures r == Aggregation(request)
  {
    var messages := MessagesOf(request);
    if !messages.JArr? || |messages.items| == 0 {
      return Err(NonEmptyListError);
    }
    var ms := messages.items;
    var aggregatedTexts: seq<Json> := [];
    var idx := 0;
    while idx < |ms|
      invariant 0 <= idx <= |ms|
      invariant forall j :: 0 <= j < idx ==> WellFormed(ms[j])
      invariant aggregatedTexts == TextsOf(ms[..idx])
    {
      var msg := ms[idx];
      if !msg.JObj? {
        return Err(NotADictError(idx));
      }
      var text := GetOr(msg.fields, "text", JNull);
      if !Truthy(text) {
        return Err(MissingTextError(idx));
      }
      assert ms[..idx + 1][..idx] == ms[..idx];
      aggregatedTexts := aggregatedTexts + [text];
      idx := idx + 1;
    }
    assert ms[..idx] == ms;
    var texts := Strings(aggregatedTexts);
    if texts.None? {
      return Err(JoinError);
    }
    r := Ok(Aggregated(GetOr(request, "conversation_number", JNull), Join(" ", texts.value), ms));
  }

  /** A missing, non-list or empty `messages` value is reported as such, whatever else the request holds. */
  lemma NonListOrEmptyRejected(request: Dict)
    requires !MessagesOf(request).JArr? || MessagesOf(request).items == []
    ensures Aggregation(request) == Err(NonEmptyListError)
  {
  }

  /**
   * Index errors name the smallest offending index: the error is the one for
   * entry i exactly when every earlier entry is a dict with text and entry i
   * is not.
   */
  lemma {:induction false} ReportsFirstBadIndex(request: Dict, i: nat)
    requires MessagesOf(request).JArr?
    requires i < |MessagesOf(request).items|
    ensures var ms := MessagesOf(request).items;
      Aggregation(request) == Err(EntryError(ms[i], i)) <==>
        (!WellFormed(ms[i]) && forall j :: 0 <= j < i ==> WellFormed(ms[j]))
  {
    var ms := MessagesOf(request).items;
    var k := FirstMalformed(ms);
    if Aggregation(request) == Err(EntryError(ms[i], i)) {
      assert k < |ms| && EntryError(ms[k], k) == EntryError(ms[i], i);
      EntryErrorNamesIndex(ms[k], k, ms[i], i);
    }
  }

  /** Different indices give different messages, so the message identifies the entry. */
  lemma EntryErrorNamesIndex(m1: Json, i1: nat, m2: Json, i2: nat)
    requires EntryError(m1, i1) == EntryError(m2, i2)
    ensures i1 == i2
  {
    var p1 := "Message at index ";
    var p2 := "Missing text in message at index ";
    var s := " is not a dict";
    var n1, n2 := NatToString(i1), NatToString(i2);
    // The second character tells the two message kinds apart.
    assert EntryError(m1, i1)[1] == (if m1.JObj? then 'i' else 'e');
    assert EntryError(m2, i2)[1] == (if m2.JObj? then 'i' else 'e');
    if !m1.JObj? {
      assert (p1 + n1 + s)[|p1|..|p1| + |n1|] == n1;
      assert (p1 + n2 + s)[|p1|..|p1| + |n2|] == n2;
      assert n1 == n2;
    } else {
      assert (p2 + n1)[|p2|..] == n1;
      assert (p2 + n2)[|p2|..] == n2;
      assert n1 == n2;
    }
    NatToStringRoundTrip(i1);
    NatToStringRoundTrip(i2);
  }

  /** A non-dict entry is reported as not a dict even when it also lacks text. */
  lemma DictCheckBeforeTextCheck(msg: Json, i: nat)
    requires !msg.JObj?
    ensures !WellFormed(msg) && EntryError(msg, i) == NotADictError(i)
  {
  }

  /**
   * On success the record holds the input list unchanged, the conversation
   * number as given (None when absent), and the texts joined by single
   * spaces, so its length is the sum of the text lengths plus n - 1.
   */
  lemma SuccessRecord(request: Dict)
    requires Aggregation(request).Ok?
    ensures var a := Aggregation(request).value;
      var ms := MessagesOf(request).items;
      MessagesOf(request).JArr? && a.messages == ms && |ms| > 0 &&
      (forall j :: 0 <= j < |ms| ==> WellFormed(ms[j]) && TextOf(ms[j]).JStr?) &&
      a.conversationNumber == GetOr(request, "conversation_number", JNull) &&
      a.aggregatedText == Join(" ", seq(|ms|, j requires 0 <= j < |ms| => TextOf(ms[j]).s)) &&
      |a.aggregatedText| == TotalLength(seq(|ms|, j requires 0 <= j < |ms| => TextOf(ms[j]).s)) + |ms| - 1
  {
    var ms := MessagesOf(request).items;
    var texts := Strings(TextsOf(ms)).value;
    assert texts == seq(|ms|, j requires 0 <= j < |ms| => TextOf(ms[j]).s);
    JoinLength(" ", texts);
  }

  /** A successful aggregation never yields an empty text: it starts with the first message's text. */
  lemma SuccessTextNonEmpty(request: Dict)
    requires Aggregation(request).Ok?
    ensures var ms := MessagesOf(request).items;
      |ms| > 0 && TextOf(ms[0]).JStr? &&
      Aggregation(request).value.aggregatedText[..|TextOf(ms[0]).s|] == TextOf(ms[0]).s &&
      Aggregation(request).value.aggregatedText != ""
  {
    var ms := MessagesOf(request).items;
    var texts := Strings(TextsOf(ms)).value;
    assert texts[0] == TextOf(ms[0]).s;
    assert Truthy(TextOf(ms[0]));
  }

  /** The aggregator succeeds exactly when every entry is a dict whose text is a non-empty string. */
  lemma SuccessIff(request: Dict)
    requires MessagesOf(request).JArr? && |MessagesOf(request).items| > 0
    ensures var ms := MessagesOf(request).items;
      Aggregation(request).Ok? <==>
        forall j :: 0 <= j < |ms| ==> ms[j].JObj? && TextOf(ms[j]).JStr? && TextOf(ms[j]).s != ""
  {
    var ms := MessagesOf(request).items;
    var k := FirstMalformed(ms);
    var ts := TextsOf(ms);
    if Aggregation(request).Ok? {
      assert k == |ms| && Strings(ts).Some?;
      forall j | 0 <= j < |ms| ensures ms[j].JObj? && TextOf(ms[j]).JStr? && TextOf(ms[j]).s != "" {
        assert WellFormed(ms[j]) && ts[j] == TextOf(ms[j]);
      }
    }
    if forall j :: 0 <= j < |ms| ==> ms[j].JObj? && TextOf(ms[j]).JStr? && TextOf(ms[j]).s != "" {
      assert forall j :: 0 <= j < |ms| ==> WellFormed(ms[j]);
      assert forall j :: 0 <= j < |ts| ==> ts[j].JStr?;
    }
  }
}
