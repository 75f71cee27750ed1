/**
 * The classification parser: turns the LLM result into the classification
 * object, decoding it when it is a string, unwrapping an optional nested
 * `classification` entry and checking the required fields in order.
 */
module Classifier {
  import opened Text
  import opened Values

  const EmptyResponseError := "Empty LLM response"
  const InvalidTypeError := "Invalid response type"
  const ParseFailureError := "Failed to parse LLM response as JSON"

  /** Any other exception: here, a TypeError from `in` or from indexing a non-dict by a string. */
  const ParsingError := "Parsing error"

  const RequiredFields: seq<string> := ["intent", "topic", "sentiment"]

  function MissingFieldError(field: string): string
  {
    "Missing field in classification: " + field
  }

  /** The first field (in list order) that `obj` lacks, if any. */
  function FirstMissing(obj: Json, fields: seq<string>): (r: Option<string>)
    requires Container(obj)
    ensures r.None? <==> forall j :: 0 <= j < |fields| ==> Member(fields[j], obj)
    ensures r.Some? ==> exists i :: (0 <= i < |fields| && fields[i] == r.value && !Member(fields[i], obj) &&
      forall j :: 0 <= j < i ==> Member(fields[j], obj))
  {
    if |fields| == 0 then None
    else if !Member(fields[0], obj) then Some(fields[0])
    else match FirstMissing(obj, fields[1..])
      case None => None
      case Some(f) =>
        assert forall j :: 1 <= j < |fields| ==> fields[j] == fields[1..][j - 1];
        Some(f)
  }

  /** The decoded top level: a string goes through `json.loads`, a dict is taken as it is. */
  function TopLevel(response: Json, decode: string -> Option<Json>): Result<Json, string>
  {
    if response.JStr? then
      match decode(response.s)
      case None => Err(ParseFailureError)
      case Some(v) => Ok(v)
    else if response.JObj? then Ok(response)
    else Err(InvalidTypeError)
  }

  /** The object whose fields are checked: the nested `classification` value when there is one. */
  function ObjectOfRecord(top: Json): Result<Json, string>
  {
    if !Container(top) then Err(ParsingError)
    else if !Member("classification", top) then Ok(top)
    else if top.JObj? then Ok(Get(top.fields, "classification").value)
    else Err(ParsingError)
  }

  /** `parse_classification(response)`. */
  function ParseClassification(response: Json, decode: string -> Option<Json>): Result<Json, string>
  {
    if !Truthy(response) then Err(EmptyResponseError)
    else match TopLevel(response, decode)
      case Err(e) => Err(e)
      case Ok(top) =>
        match ObjectOfRecord(top)
        case Err(e) => Err(e)
        case Ok(obj) =>
          if !Container(obj) then Err(ParsingError)
          else match FirstMissing(obj, RequiredFields)
            case Some(f) => Err(MissingFieldError(f))
            case None => Ok(obj)
  }

  /** A falsy response (empty string, empty dict, None, ...) is refused before anything else. */
  lemma FalsyRejected(response: Json, decode: string -> Option<Json>)
    requires !Truthy(response)
    ensures ParseClassification(response, decode) == Err(EmptyResponseError)
  {
  }

  /** A truthy value that is neither a string nor a dict is refused as a bad type. */
  lemma WrongTypeRejected(response: Json, decode: string -> Option<Json>)
    requires Truthy(response) && !response.JStr? && !response.JObj?
    ensures ParseClassification(response, decode) == Err(InvalidTypeError)
  {
  }

  /** A dict is used as it is: the decoder is never consulted. */
  lemma DictNotDecoded(response: Json, d1: string -> Option<Json>, d2: string -> Option<Json>)
    requires response.JObj?
    ensures ParseClassification(response, d1) == ParseClassification(response, d2)
  {
  }

  /**
   * A string that fails strict decoding is refused, even when some part of it
   * would decode: this function does no substring recovery.
   */
  lemma UndecodableStringRejected(s: string, decode: string -> Option<Json>)
    requires s != "" && decode(s).None?
    ensures ParseClassification(JStr(s), decode) == Err(ParseFailureError)
  {
  }

  /** A string that decodes to a non-empty dict is checked exactly as that dict would be. */
  lemma DecodedStringLikeDict(s: string, top: Dict, decode: string -> Option<Json>)
    requires s != "" && top != [] && decode(s) == Some(JObj(top))
    ensures ParseClassification(JStr(s), decode) == ParseClassification(JObj(top), decode)
  {
  }

  /**
   * For a dict: the checked object is the nested `classification` value when
   * the key is present, the dict itself otherwise; the first of intent,
   * topic, sentiment it lacks is named; and on success it is returned
   * unchanged, extra keys included.
   */
  lemma {:induction false} DictOutcome(top: Dict, decode: string -> Option<Json>)
    requires top != []
    ensures var obj := if HasKey(top, "classification") then Get(top, "classification").value else JObj(top);
      var r := ParseClassification(JObj(top), decode);
      (!Container(obj) ==> r == Err(ParsingError)) &&
      (Container(obj) ==>
        (r == Ok(obj) <==> Member("intent", obj) && Member("topic", obj) && Member("sentiment", obj)) &&
        (!Member("intent", obj) ==> r == Err(MissingFieldError("intent"))) &&
        (Member("intent", obj) && !Member("topic", obj) ==> r == Err(MissingFieldError("topic"))) &&
        (Member("intent", obj) && Member("topic", obj) && !Member("sentiment", obj) ==>
          r == Err(MissingFieldError("sentiment"))))
  {
    var obj := if HasKey(top, "classification") then Get(top, "classification").value else JObj(top);
    assert ObjectOfRecord(JObj(top)) == Ok(obj);
    if Container(obj) {
      FirstMissingOfRequired(obj);
    }
  }

  /** The fixed field list unfolded: intent first, then topic, then sentiment. */
  lemma FirstMissingOfRequired(obj: Json)
    requires Container(obj)
    ensures FirstMissing(obj, RequiredFields) ==
      if !Member("intent", obj) then Some("intent")
      else if !Member("topic", obj) then Some("topic")
      else if !Member("sentiment", obj) then Some("sentiment")
      else None
  {
    var f0 := RequiredFields;
    var f1 := ["topic", "sentiment"];
    var f2 := ["sentiment"];
    assert f0[1..] == f1 && f1[1..] == f2 && f2[1..] == [];
    assert FirstMissing(obj, f2) == if !Member("sentiment", obj) then Some("sentiment") else None;
    assert FirstMissing(obj, f1) == if !Member("topic", obj) then Some("topic") else FirstMissing(obj, f2);
  }

  /** Whatever the input, a success carries all three required fields. */
  lemma SuccessHasRequiredFields(response: Json, decode: string -> Option<Json>)
    requires ParseClassification(response, decode).Ok?
    ensures var obj := ParseClassification(response, decode).value;
      Container(obj) && Member("intent", obj) && Member("topic", obj) && Member("sentiment", obj)
  {
    var obj := ParseClassification(response, decode).value;
    FirstMissingOfRequired(obj);
  }
}
