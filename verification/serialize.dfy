/** The JSON form of a damage estimate, as `NextResponse.json` writes it
    and `response.json()` reads it back: `undefined` fields are omitted and
    NaN is written as null. */
module Serialize {
  import opened Wrappers
  import opened JsValues
  import opened Sanitizer

  /** A number reads back as itself; NaN is written as `null`, which is
      falsy and reads back as 0, so NaN does not survive the trip. */
  function EncodeNumber(x: JsNumber): (j: Json)
    ensures x.Num? ==> NumberOf(Some(j)) == x
    ensures x.NaN? ==> !Truthy(Some(j)) && NumberOf(Some(j)) == Num(0.0)
  {
    match x
    case NaN => JNull
    case Num(v) => JNum(v)
  }

  /** Reading the fields of a written damage gives back what it holds:
      type, description and location as stored (an absent location stays
      absent), the severity's name, and the cost under `Number(x) || 0`. */
  function EncodeItem(item: DamageItem): (j: Json)
    ensures !j.JNull?
    ensures Prop(j, "type") == Some(item.damageType)
    ensures Prop(j, "description") == Some(item.description)
    ensures Prop(j, "location") == item.location
    ensures Prop(j, "severity") == Some(JStr(item.severity.Name()))
    ensures NumberOrZero(Prop(j, "estimatedCost")) == item.estimatedCost
  {
    var fields := map[
      "type" := item.damageType,
      "severity" := JStr(item.severity.Name()),
      "estimatedCost" := JNum(item.estimatedCost),
      "description" := item.description];
    JObj(if item.location.Some? then fields["location" := item.location.value] else fields)
  }

  function EncodeItems(items: seq<DamageItem>): (js: seq<Json>)
    ensures |js| == |items|
    ensures forall i :: 0 <= i < |items| ==> js[i] == EncodeItem(items[i])
  {
    seq(|items|, i requires 0 <= i < |items| => EncodeItem(items[i]))
  }

  /** Reading the fields of a written estimate gives back what it holds;
      `summary` and `recommendations` are absent exactly when they are None. */
  function EncodeEstimate(e: DamageEstimate): (j: Json)
    ensures !j.JNull?
    ensures Prop(j, "damages") == Some(JArr(EncodeItems(e.damages)))
    ensures NumberOrZero(Prop(j, "laborHours")) == e.laborHours
    ensures Prop(j, "partsNeeded") == Some(JArr(e.partsNeeded))
    ensures Prop(j, "confidence") == Some(EncodeNumber(e.confidence))
    ensures Prop(j, "totalCost") == Some(EncodeNumber(e.totalCost))
    ensures Prop(j, "summary") == e.summary
    ensures IsArray(Prop(j, "recommendations")) <==> e.recommendations.Some?
    ensures e.recommendations.None? ==> Prop(j, "recommendations") == None
    ensures e.recommendations.Some? ==> Prop(j, "recommendations") == Some(JArr(e.recommendations.value))
  {
    var fields := map[
      "damages" := JArr(EncodeItems(e.damages)),
      "laborHours" := JNum(e.laborHours),
      "partsNeeded" := JArr(e.partsNeeded),
      "confidence" := EncodeNumber(e.confidence),
      "totalCost" := EncodeNumber(e.totalCost)];
    var withSummary := if e.summary.Some? then fields["summary" := e.summary.value] else fields;
    JObj(if e.recommendations.Some? then withSummary["recommendations" := JArr(e.recommendations.value)] else withSummary)
  }
}
