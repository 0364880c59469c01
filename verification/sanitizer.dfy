/** `sanitizeEstimate`: turns the parsed, untrusted reply of the vision model
    into a damage estimate, filling defaults, coercing severities and numbers
    and rebuilding the total. It is not total: reading a property of null
    and lower-casing a non-string severity throw, and both are modelled as
    a Failure carrying the TypeError's message. */
module Sanitizer {
  import opened Wrappers
  import opened JsValues
  import opened Validators

  /** Hourly labour rate used to rebuild a missing total. */
  const AVERAGE_LABOR_RATE: real := 100.0
  const UNKNOWN_DAMAGE: string := "Unknown Damage"
  const NO_DESCRIPTION: string := "No description provided"
  const DEFAULT_SEVERITY: string := "moderate"

  /** One repaired damage. `damageType` and `description` keep whatever truthy
      value the model sent (not necessarily a string); `location` is copied,
      None standing for `undefined`. */
  datatype DamageItem = DamageItem(
    damageType: Json,
    severity: Severity,
    estimatedCost: real,
    description: Json,
    location: Option<Json>)

  /** The sanitised estimate. `confidence` and `totalCost` are JavaScript
      numbers and can be NaN when the model sent a truthy non-numeric value;
      `summary` and `recommendations` are None when absent. */
  datatype DamageEstimate = DamageEstimate(
    damages: seq<DamageItem>,
    laborHours: real,
    partsNeeded: seq<Json>,
    confidence: JsNumber,
    totalCost: JsNumber,
    summary: Option<Json>,
    recommendations: Option<seq<Json>>)

  // ---------------------------------------------------------------------
  // Rounding to cents
  // ---------------------------------------------------------------------

  /** At most two decimals: a whole number of cents. */
  predicate TwoDecimals(x: real) {
    (x * 100.0).Floor as real == x * 100.0
  }

  /** `Math.round(x * 100) / 100`: halves round towards +infinity. */
  function Round2(x: real): (r: real)
    ensures TwoDecimals(r)
    ensures x - 0.005 < r <= x + 0.005
  {
    var cents := (x * 100.0 + 0.5).Floor;
    assert cents as real / 100.0 * 100.0 == cents as real;
    cents as real / 100.0
  }

  /** The rounded value is the only whole number of cents in (x - 0.005, x + 0.005]. */
  lemma Round2Unique(x: real, y: real)
    requires TwoDecimals(y)
    requires x - 0.005 < y <= x + 0.005
    ensures y == Round2(x)
  {
    var r := Round2(x);
    var m := (y * 100.0).Floor;
    var k := (r * 100.0).Floor;
    assert m as real == y * 100.0 && k as real == r * 100.0;
    assert -1.0 < (m - k) as real < 1.0;
    assert m == k;
  }

  /** Rounding a rounded value changes nothing. */
  lemma Round2Idempotent(x: real)
    ensures Round2(Round2(x)) == Round2(x)
  {
    Round2Unique(Round2(x), Round2(x));
  }

  /** Rounding lifted to JavaScript numbers. */
  function RoundCents(x: JsNumber): JsNumber {
    match x
    case NaN => NaN
    case Num(a) => Num(Round2(a))
  }

  // ---------------------------------------------------------------------
  // One damage
  // ---------------------------------------------------------------------

  /** The element makes the per-damage repair throw: it is null, or its
      severity is truthy but not a string. */
  predicate ItemThrows(d: Json) {
    d.JNull? || (Truthy(Prop(d, "severity")) && !Prop(d, "severity").value.JStr?)
  }

  /** The repair of one element of `damages`. */
  function RepairItem(d: Json): (r: Result<DamageItem, string>)
    ensures r.Failure? <==> ItemThrows(d)
    ensures d.JNull? ==> r == Failure(NullRead("type"))
    ensures !d.JNull? && r.Failure? ==> r.error == SEVERITY_NOT_STRING
    ensures r.Success? ==>
      && Truthy(Some(r.value.damageType))
      && Truthy(Some(r.value.description))
      && r.value.location == Prop(d, "location")
      && (Truthy(Prop(d, "type")) ==> r.value.damageType == Prop(d, "type").value)
      && (!Truthy(Prop(d, "type")) ==> r.value.damageType == JStr(UNKNOWN_DAMAGE))
      && (Truthy(Prop(d, "description")) ==> r.value.description == Prop(d, "description").value)
      && (!Truthy(Prop(d, "description")) ==> r.value.description == JStr(NO_DESCRIPTION))
      && (r.value.estimatedCost != 0.0 <==> NumberOf(Prop(d, "estimatedCost")).Num? && NumberOf(Prop(d, "estimatedCost")).value != 0.0)
      && (r.value.estimatedCost != 0.0 ==> NumberOf(Prop(d, "estimatedCost")) == Num(r.value.estimatedCost))
      && (Truthy(Prop(d, "severity")) ==> r.value.severity == ValidateSeverity(Prop(d, "severity").value.s))
      && (!Truthy(Prop(d, "severity")) ==> r.value.severity == Moderate)
  {
    var kind :- Get(d, "type");
    var severityField := Prop(d, "severity");
    var severity :- ValidateSeverityValue(Or(severityField, JStr(DEFAULT_SEVERITY)));
    assert !Truthy(severityField) ==> severity == Moderate by {
      SeverityNameRoundTrip(Moderate);
    }
    Success(DamageItem(
      Or(kind, JStr(UNKNOWN_DAMAGE)),
      severity,
      NumberOrZero(Prop(d, "estimatedCost")),
      Or(Prop(d, "description"), JStr(NO_DESCRIPTION)),
      Prop(d, "location")))
  }

  /** Element `i` is the first one whose repair throws. */
  predicate FirstThrowing(ds: seq<Json>, i: int) {
    && 0 <= i < |ds|
    && ItemThrows(ds[i])
    && forall j :: 0 <= j < i ==> !ItemThrows(ds[j])
  }

  /** `damages.map(repair)`: every element repaired in order, the first
      throwing element's error ending the whole map. */
  function RepairAll(ds: seq<Json>): (r: Result<seq<DamageItem>, string>)
    ensures r.Failure? <==> exists i :: 0 <= i < |ds| && ItemThrows(ds[i])
    ensures r.Failure? ==> exists i :: FirstThrowing(ds, i) && r.error == RepairItem(ds[i]).error
    ensures r.Success? ==> |r.value| == |ds|
    ensures r.Success? ==> forall i :: 0 <= i < |ds| ==> RepairItem(ds[i]) == Success(r.value[i])
  {
    if |ds| == 0 then Success([])
    else
      var head :- RepairItem(ds[0]);
      var tail := RepairAll(ds[1..]);
      if tail.Failure? then
        var k :| FirstThrowing(ds[1..], k) && tail.error == RepairItem(ds[1..][k]).error;
        assert FirstThrowing(ds, k + 1);
        Failure(tail.error)
      else
        assert forall i :: 1 <= i < |ds| ==> ds[i] == ds[1..][i - 1];
        Success([head] + tail.value)
  }

  /** `damages.reduce((sum, d) => sum + d.estimatedCost, 0)`: the sum of
      the first `n - 1` costs, plus the last. */
  function CostSum(items: seq<DamageItem>): real {
    if |items| == 0 then 0.0 else CostSum(items[..|items| - 1]) + items[|items| - 1].estimatedCost
  }

  // ---------------------------------------------------------------------
  // The whole estimate
  // ---------------------------------------------------------------------

  /** `sanitizeEstimate` throws: the root is null, or `damages` is an array
      holding an element whose repair throws. */
  predicate SanitizeThrows(raw: Json) {
    || raw.JNull?
    || (var damages := Prop(raw, "damages");
        IsArray(damages) && exists i :: 0 <= i < |damages.value.items| && ItemThrows(damages.value.items[i]))
  }

  /** What holds of every estimate `sanitizeEstimate` returns. */
  predicate WellFormed(e: DamageEstimate) {
    && (forall i :: 0 <= i < |e.damages| ==> Truthy(Some(e.damages[i].damageType)) && Truthy(Some(e.damages[i].description)))
    && (e.confidence.Num? ==> e.confidence.value >= 0.0)
    && (e.totalCost.Num? ==> TwoDecimals(e.totalCost.value))
  }

  /** `(rawEstimate.laborHours || 0) * AVERAGE_LABOR_RATE`: the multiplication
      converts a truthy value with `Number`, so a non-numeric one gives NaN. */
  function LaborCost(laborHours: Option<Json>): JsNumber {
    if !Truthy(laborHours) then Num(0.0)
    else
      match ToNumber(laborHours.value)
      case NaN => NaN
      case Num(hours) => Num(hours * AVERAGE_LABOR_RATE)
  }

  /** `Math.round((rawEstimate.totalCost || damagesCost + laborCost) * 100) / 100`:
      a NaN labour cost makes the sum, and so the total, NaN. */
  function TotalOf(total: Option<Json>, damagesCost: real, laborHours: Option<Json>): (t: JsNumber)
    ensures t.Num? ==> TwoDecimals(t.value)
  {
    if Truthy(total) then RoundCents(ToNumber(total.value))
    else
      match LaborCost(laborHours)
      case NaN => NaN
      case Num(laborCost) => Num(Round2(damagesCost + laborCost))
  }

  /** The confidence: `normalizeConfidence(rawEstimate.confidence || 0)`,
      the comparison and arithmetic inside converting the value with `Number`. */
  function ConfidenceOf(confidence: Option<Json>): (r: JsNumber)
    ensures !Truthy(confidence) ==> r == Num(0.0)
    ensures Truthy(confidence) && ToNumber(confidence.value).Num? ==>
              r == Num(NormalizeConfidence(ToNumber(confidence.value).value))
    ensures r.NaN? <==> Truthy(confidence) && ToNumber(confidence.value).NaN?
  {
    if !Truthy(confidence) then Num(NormalizeConfidence(0.0))
    else
      match ToNumber(confidence.value)
      case NaN => NaN
      case Num(c) => Num(NormalizeConfidence(c))
  }

  /** The repaired `damages` of a non-null root: `[]` unless it is an array. */
  function RepairDamages(raw: Json): (r: Result<seq<DamageItem>, string>)
    requires !raw.JNull?
    ensures r.Failure? <==> SanitizeThrows(raw)
    ensures r.Failure? ==>
      var ds := Prop(raw, "damages").value.items;
      exists i :: FirstThrowing(ds, i) && r.error == RepairItem(ds[i]).error
    ensures r.Success? ==> forall i :: 0 <= i < |r.value| ==>
      Truthy(Some(r.value[i].damageType)) && Truthy(Some(r.value[i].description))
    ensures r.Success? ==>
      var damages := Prop(raw, "damages");
      && (!IsArray(damages) ==> r.value == [])
      && (IsArray(damages) ==>
            && |r.value| == |damages.value.items|
            && forall i :: 0 <= i < |damages.value.items| ==>
                 RepairItem(damages.value.items[i]) == Success(r.value[i]))
  {
    var damages := Prop(raw, "damages");
    if IsArray(damages) then RepairAll(damages.value.items) else Success([])
  }

  /** The fields of `e` other than the damages are the ones `sanitizeEstimate`
      derives from the root: the labour hours are `Number(x) || 0`, parts and
      recommendations are kept only as arrays, the summary is copied, the
      confidence is normalised, and a falsy total is rebuilt from the damage
      costs plus the labour cost (NaN when the labour cost is NaN). */
  predicate FieldsFrom(raw: Json, e: DamageEstimate)
    requires !raw.JNull?
  {
    var laborHours := NumberOf(Prop(raw, "laborHours"));
    var parts := Prop(raw, "partsNeeded");
    var recommendations := Prop(raw, "recommendations");
    var total := Prop(raw, "totalCost");
    var laborCost := LaborCost(Prop(raw, "laborHours"));
    && (e.laborHours != 0.0 <==> laborHours.Num? && laborHours.value != 0.0)
    && (e.laborHours != 0.0 ==> laborHours == Num(e.laborHours))
    && e.partsNeeded == (if IsArray(parts) then parts.value.items else [])
    && e.recommendations == (if IsArray(recommendations) then Some(recommendations.value.items) else None)
    && e.summary == Prop(raw, "summary")
    && e.confidence == ConfidenceOf(Prop(raw, "confidence"))
    && (Truthy(total) ==> e.totalCost == RoundCents(ToNumber(total.value)))
    && (!Truthy(total) && laborCost.NaN? ==> e.totalCost == NaN)
    && (!Truthy(total) && laborCost.Num? ==> e.totalCost == Num(Round2(CostSum(e.damages) + laborCost.value)))
  }

  /** The estimate built from a non-null root and its repaired damages. */
  function Assemble(raw: Json, damages: seq<DamageItem>): (e: DamageEstimate)
    requires !raw.JNull?
    ensures e.damages == damages
    ensures FieldsFrom(raw, e)
    ensures e.confidence.Num? ==> e.confidence.value >= 0.0
    ensures e.totalCost.Num? ==> TwoDecimals(e.totalCost.value)
  {
    var laborHoursField := Prop(raw, "laborHours");
    var partsField := Prop(raw, "partsNeeded");
    var recommendationsField := Prop(raw, "recommendations");
    DamageEstimate(
      damages,
      NumberOrZero(laborHoursField),
      if IsArray(partsField) then partsField.value.items else [],
      ConfidenceOf(Prop(raw, "confidence")),
      TotalOf(Prop(raw, "totalCost"), CostSum(damages), laborHoursField),
      Prop(raw, "summary"),
      if IsArray(recommendationsField) then Some(recommendationsField.value.items) else None)
  }

  /** `sanitizeEstimate`. */
  function Sanitize(raw: Json): (r: Result<DamageEstimate, string>)
    ensures r.Failure? <==> SanitizeThrows(raw)
    ensures raw.JNull? ==> r == Failure(NullRead("damages"))
    ensures r.Success? ==> WellFormed(r.value)
    ensures r.Success? ==>
      var damages := Prop(raw, "damages");
      && (!IsArray(damages) ==> r.value.damages == [])
      && (IsArray(damages) ==>
            && |r.value.damages| == |damages.value.items|
            && forall i :: 0 <= i < |damages.value.items| ==>
                 RepairItem(damages.value.items[i]) == Success(r.value.damages[i]))
    ensures r.Failure? && !raw.JNull? ==>
      var ds := Prop(raw, "damages").value.items;
      exists i :: FirstThrowing(ds, i) && r.error == RepairItem(ds[i]).error
    ensures r.Success? ==> FieldsFrom(raw, r.value)
  {
    if raw.JNull? then Failure(NullRead("damages"))
    else
      match RepairDamages(raw)
      case Failure(err) => Failure(err)
      case Success(damages) => Success(Assemble(raw, damages))
  }
}
