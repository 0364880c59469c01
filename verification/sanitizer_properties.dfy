/** Properties of `sanitizeEstimate` that relate several calls or pin down
    concrete inputs: the total reconciliation, when re-sanitising a
    serialised estimate gives it back, and where the function throws. */
module SanitizerProperties {
  import opened Wrappers
  import opened JsValues
  import opened Validators
  import opened Sanitizer
  import opened Serialize

  /** Without a truthy raw total, and with a labour value that is falsy or
      numeric, the total is the rounded sum of the repaired item costs plus
      the output labour hours at the average rate. */
  lemma TotalCostReconciled(raw: Json)
    requires !SanitizeThrows(raw)
    requires !Truthy(Prop(raw, "totalCost"))
    requires var hours := Prop(raw, "laborHours"); !Truthy(hours) || ToNumber(hours.value).Num?
    ensures var e := Sanitize(raw).value;
      e.totalCost == Num(Round2(CostSum(e.damages) + e.laborHours * AVERAGE_LABOR_RATE))
  {
    SanitizedFields(raw);
    FieldsReconcile(raw, Sanitize(raw).value);
  }

  /** An input that does not throw gives an estimate whose fields are
      derived from the root. */
  lemma SanitizedFields(raw: Json)
    requires !SanitizeThrows(raw)
    ensures !raw.JNull? && Sanitize(raw).Success? && FieldsFrom(raw, Sanitize(raw).value)
  {
  }

  /** The reconciliation for any estimate whose fields are derived from
      `raw` as `sanitizeEstimate` derives them. */
  lemma FieldsReconcile(raw: Json, e: DamageEstimate)
    requires !raw.JNull? && FieldsFrom(raw, e)
    requires !Truthy(Prop(raw, "totalCost"))
    requires var hours := Prop(raw, "laborHours"); !Truthy(hours) || ToNumber(hours.value).Num?
    ensures e.totalCost == Num(Round2(CostSum(e.damages) + e.laborHours * AVERAGE_LABOR_RATE))
  {
    var hours := Prop(raw, "laborHours");
    LaborCostMatchesHours(hours);
    assert e.laborHours == NumberOrZero(hours);
  }

  /** The labour cost inside the total is the output labour hours at the
      average rate, unless the raw value is truthy and not numeric. */
  lemma LaborCostMatchesHours(hours: Option<Json>)
    requires !Truthy(hours) || ToNumber(hours.value).Num?
    ensures LaborCost(hours) == Num(NumberOrZero(hours) * AVERAGE_LABOR_RATE)
  {
    if !Truthy(hours) && hours.Some? {
      assert ToNumber(hours.value) == Num(0.0);
    }
  }

  /** A truthy labour value that does not convert to a number leaves
      `laborHours` at 0 yet makes the rebuilt total NaN. */
  lemma NonNumericLaborPoisonsTotal(raw: Json)
    requires !SanitizeThrows(raw)
    requires !Truthy(Prop(raw, "totalCost"))
    requires var hours := Prop(raw, "laborHours"); Truthy(hours) && ToNumber(hours.value).NaN?
    ensures Sanitize(raw).value.laborHours == 0.0
    ensures Sanitize(raw).value.totalCost == NaN
  {
  }

  // ---------------------------------------------------------------------
  // Re-sanitising a serialised estimate
  // ---------------------------------------------------------------------

  /** A repaired item survives a second repair of its JSON form. */
  lemma RepairItemRoundTrip(item: DamageItem)
    requires Truthy(Some(item.damageType)) && Truthy(Some(item.description))
    ensures RepairItem(EncodeItem(item)) == Success(item)
  {
    var j := EncodeItem(item);
    assert Prop(j, "type") == Some(item.damageType);
    assert Prop(j, "severity") == Some(JStr(item.severity.Name()));
    assert Prop(j, "estimatedCost") == Some(JNum(item.estimatedCost));
    assert Prop(j, "description") == Some(item.description);
    assert Prop(j, "location") == item.location;
    SeverityNameRoundTrip(item.severity);
  }

  lemma RepairAllRoundTrip(items: seq<DamageItem>)
    requires forall i :: 0 <= i < |items| ==>
      Truthy(Some(items[i].damageType)) && Truthy(Some(items[i].description))
    ensures RepairAll(EncodeItems(items)) == Success(items)
  {
    var js := EncodeItems(items);
    forall i | 0 <= i < |items| ensures RepairItem(js[i]) == Success(items[i]) {
      RepairItemRoundTrip(items[i]);
    }
    assert !exists i :: 0 <= i < |js| && ItemThrows(js[i]);
    assert RepairAll(js).Success?;
    var r := RepairAll(js).value;
    assert |r| == |items|;
    assert forall i :: 0 <= i < |items| ==> r[i] == items[i];
    assert r == items;
  }

  /** The conditions under which a serialised estimate is a fixed point of
      sanitisation: a numeric confidence that is already a fraction, and a
      numeric total that is either nonzero or equal to the rebuilt total. */
  predicate Resanitizable(e: DamageEstimate) {
    ConfidenceStable(e.confidence) && TotalStable(e.totalCost, CostSum(e.damages), e.laborHours)
  }

  predicate ConfidenceStable(c: JsNumber) {
    c.Num? && c.value <= MAX_CONFIDENCE
  }

  predicate TotalStable(t: JsNumber, damagesCost: real, hours: real) {
    t.Num? && (t.value != 0.0 || Round2(damagesCost + hours * AVERAGE_LABOR_RATE) == 0.0)
  }

  /** A confidence read back from its JSON form is unchanged exactly when
      it is a numeric fraction. */
  lemma ConfidenceFixedPoint(c: JsNumber)
    requires c.Num? ==> c.value >= 0.0
    ensures ConfidenceOf(Some(EncodeNumber(c))) == c <==> ConfidenceStable(c)
  {
    if c.Num? && c.value > MAX_CONFIDENCE {
      assert NormalizeConfidence(c.value) * 100.0 == c.value;
    }
  }

  /** A total read back from its JSON form is unchanged exactly when it is a
      nonzero number of cents, or zero with a rebuilt total of zero. */
  lemma TotalFixedPoint(t: JsNumber, damagesCost: real, hours: real)
    requires t.Num? ==> TwoDecimals(t.value)
    ensures TotalOf(Some(EncodeNumber(t)), damagesCost, Some(JNum(hours))) == t
            <==> TotalStable(t, damagesCost, hours)
  {
    assert LaborCost(Some(JNum(hours))) == Num(hours * AVERAGE_LABOR_RATE);
    if t.Num? && t.value != 0.0 {
      Round2Unique(t.value, t.value);
    }
  }

  /** For every estimate of the shape `sanitizeEstimate` returns, feeding its
      JSON form back in gives it back exactly when it is Resanitizable. */
  lemma ResanitizeFixedPointIff(e: DamageEstimate)
    requires WellFormed(e)
    ensures Sanitize(EncodeEstimate(e)) == Success(e) <==> Resanitizable(e)
  {
    var j := EncodeEstimate(e);
    assert Prop(j, "damages") == Some(JArr(EncodeItems(e.damages)));
    assert Prop(j, "laborHours") == Some(JNum(e.laborHours));
    assert Prop(j, "partsNeeded") == Some(JArr(e.partsNeeded));
    assert Prop(j, "confidence") == Some(EncodeNumber(e.confidence));
    assert Prop(j, "totalCost") == Some(EncodeNumber(e.totalCost));
    assert Prop(j, "summary") == e.summary;
    assert e.recommendations.Some? ==> Prop(j, "recommendations") == Some(JArr(e.recommendations.value));
    assert e.recommendations.None? ==> Prop(j, "recommendations") == None;
    RepairAllRoundTrip(e.damages);
    assert RepairDamages(j) == Success(e.damages);
    var r := Assemble(j, e.damages);
    assert Sanitize(j) == Success(r);
    assert NumberOrZero(Some(JNum(e.laborHours))) == e.laborHours;
    assert r == e.(confidence := r.confidence, totalCost := r.totalCost);
    assert r.confidence == ConfidenceOf(Some(EncodeNumber(e.confidence)));
    assert r.totalCost == TotalOf(Some(EncodeNumber(e.totalCost)), CostSum(e.damages), Some(JNum(e.laborHours)));
    ConfidenceFixedPoint(e.confidence);
    TotalFixedPoint(e.totalCost, CostSum(e.damages), e.laborHours);
    assert r == e <==> r.confidence == e.confidence && r.totalCost == e.totalCost;
    assert r == e <==> Resanitizable(e);
    assert Sanitize(j) == Success(e) <==> r == e;
  }

  /** Sanitising the serialised output of a sanitisation gives the same
      estimate exactly when that output is Resanitizable; a confidence above
      100 or a truthy total that rounds to 0 breaks it. */
  lemma SanitizeIdempotentIff(raw: Json)
    requires !SanitizeThrows(raw)
    ensures Sanitize(EncodeEstimate(Sanitize(raw).value)) == Sanitize(raw)
            <==> Resanitizable(Sanitize(raw).value)
  {
    ResanitizeFixedPointIff(Sanitize(raw).value);
  }

  // ---------------------------------------------------------------------
  // Concrete inputs
  // ---------------------------------------------------------------------

  /** One damage costing 300 and five labour hours with no total: 300 + 5 * 100. */
  lemma ReconciliationExample()
    ensures var raw := JObj(map[
              "damages" := JArr([JObj(map["estimatedCost" := JNum(300.0)])]),
              "laborHours" := JNum(5.0)]);
      Sanitize(raw) == Success(DamageEstimate(
        [DamageItem(JStr(UNKNOWN_DAMAGE), Moderate, 300.0, JStr(NO_DESCRIPTION), None)],
        5.0, [], Num(0.0), Num(800.0), None, None))
  {
    var item := JObj(map["estimatedCost" := JNum(300.0)]);
    var raw := JObj(map["damages" := JArr([item]), "laborHours" := JNum(5.0)]);
    CostOnlyItem(300.0);
    RepairOne(item);
    ExampleAssembles(JArr([item]), DamageItem(JStr(UNKNOWN_DAMAGE), Moderate, 300.0, JStr(NO_DESCRIPTION), None));
  }

  /** The fields the example's root contributes besides its damages. */
  lemma ExampleAssembles(damages: Json, repaired: DamageItem)
    requires repaired.estimatedCost == 300.0
    ensures Assemble(JObj(map["damages" := damages, "laborHours" := JNum(5.0)]), [repaired]) ==
      DamageEstimate([repaired], 5.0, [], Num(0.0), Num(800.0), None, None)
  {
    assert CostSum([repaired]) == 300.0 by {
      assert [repaired][..0] == [];
    }
    Round2Unique(800.0, 800.0);
  }

  /** A one-element `damages` array repairs to its one repaired element. */
  lemma RepairOne(d: Json)
    requires !ItemThrows(d)
    ensures RepairAll([d]) == Success([RepairItem(d).value])
  {
    assert [d][1..] == [] && RepairAll([]) == Success([]);
    assert [d][0] == d;
    assert [RepairItem(d).value] + [] == [RepairItem(d).value];
  }

  /** An element holding only a cost gets every default but keeps the cost. */
  lemma CostOnlyItem(cost: real)
    ensures RepairItem(JObj(map["estimatedCost" := JNum(cost)])) ==
      Success(DamageItem(JStr(UNKNOWN_DAMAGE), Moderate, cost, JStr(NO_DESCRIPTION), None))
  {
    SeverityNameRoundTrip(Moderate);
  }

  /** An empty object sanitises to the all-zero estimate. */
  lemma EmptyObjectExample()
    ensures Sanitize(JObj(map[])) == Success(DamageEstimate([], 0.0, [], Num(0.0), Num(0.0), None, None))
  {
    Round2Unique(0.0, 0.0);
  }

  /** The function is not total on JSON objects: a null damage or a numeric
      severity throws. */
  lemma ThrowingObjects()
    ensures Sanitize(JObj(map["damages" := JArr([JNull])])) == Failure(NullRead("type"))
    ensures Sanitize(JObj(map["damages" := JArr([JObj(map["severity" := JNum(3.0)])])])) == Failure(SEVERITY_NOT_STRING)
  {
    assert FirstThrowing([JNull], 0);
    var bad := JObj(map["severity" := JNum(3.0)]);
    assert FirstThrowing([bad], 0);
  }
}
