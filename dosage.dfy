/**
 * The pesticide rule engine: a first-match-wins decision from a
 * classification (label, confidence) and a field area to a spray
 * recommendation with a dosage in millilitres.
 */
module DosageRules {
  import opened Rounding

  type Label = string

  const HealthyLabel: Label := "Healthy"

  /** What the frame analyzer hands to the rule engine. */
  datatype AnalysisResult = AnalysisResult(prediction: Label, confidence: real)

  /**
   * Why a recommendation was made; the printed reason string is a
   * rendering of this tag.
   */
  datatype Reason =
    | BelowThreshold(confidence: real)
    | PlantHealthy
    | PestDetected(name: Label, confidence: real)
    | DiseaseDetected(name: Label, confidence: real)

  datatype Recommendation = Recommendation(sprayRecommended: bool, reason: Reason, amountMl: real)

  /** The explicit three-way taxonomy behind the rule engine's checks. */
  datatype Category = Healthy | Pest(name: Label) | Disease(name: Label)

  /** The rules fixed when the engine is constructed; dosages are per 1000 sqm. */
  datatype RuleEngine = RuleEngine(
    pestClasses: seq<Label>,
    minConfidence: real,
    baseMlPer1000Sqm: real,
    diseaseMultiplier: real,
    pestMultiplier: real,
    maxMlPer1000Sqm: real)
  {
    /** Dosage constants are never negative and Healthy is not a pest. */
    predicate WellFormed() {
      0.0 <= baseMlPer1000Sqm && 0.0 <= diseaseMultiplier && 0.0 <= pestMultiplier
      && 0.0 <= maxMlPer1000Sqm && HealthyLabel !in pestClasses
    }

    predicate IsPest(name: Label) {
      name in pestClasses
    }

    /** Every label falls in exactly one group: Healthy, a named pest, or else a disease. */
    function Classify(name: Label): Category {
      if name == HealthyLabel then Healthy
      else if IsPest(name) then Pest(name)
      else Disease(name)
    }

    /** The per-1000-sqm dose for a finding of the given group. */
    function DoseFor(c: Category): real {
      match c
      case Healthy => 0.0
      case Pest(_) => baseMlPer1000Sqm * pestMultiplier
      case Disease(_) => baseMlPer1000Sqm * diseaseMultiplier
    }

    /**
     * `calculate_dosage`, in the order `calculate_dosage` checks them: the confidence
     * threshold first, then Healthy, then the pest-set membership.
     */
    function CalculateDosage(result: AnalysisResult, fieldAreaSqm: real): (rec: Recommendation)
      ensures result.confidence < minConfidence ==>
        rec == Recommendation(false, BelowThreshold(result.confidence), 0.0)
      ensures minConfidence <= result.confidence ==>
        match Classify(result.prediction)
        case Healthy => rec == Recommendation(false, PlantHealthy, 0.0)
        case Pest(l) =>
          rec.sprayRecommended && rec.reason == PestDetected(l, result.confidence)
          && rec.amountMl == Round2(Min(ToArea(DoseFor(Pest(l)), fieldAreaSqm), ToArea(maxMlPer1000Sqm, fieldAreaSqm)))
        case Disease(l) =>
          rec.sprayRecommended && rec.reason == DiseaseDetected(l, result.confidence)
          && rec.amountMl == Round2(Min(ToArea(DoseFor(Disease(l)), fieldAreaSqm), ToArea(maxMlPer1000Sqm, fieldAreaSqm)))
      ensures rec.sprayRecommended <==> minConfidence <= result.confidence && result.prediction != HealthyLabel
      ensures rec.reason.PestDetected? <==> rec.sprayRecommended && IsPest(result.prediction)
    {
      var prediction := result.prediction;
      var confidence := result.confidence;
      if confidence < minConfidence then
        Recommendation(false, BelowThreshold(confidence), 0.0)
      else if prediction == HealthyLabel then
        Recommendation(false, PlantHealthy, 0.0)
      else
        var isPest := IsPest(prediction);
        var multiplier := if isPest then pestMultiplier else diseaseMultiplier;
        var calculatedAmount := baseMlPer1000Sqm * multiplier;
        var scaledDosage := ToArea(calculatedAmount, fieldAreaSqm);
        var maxDosage := ToArea(maxMlPer1000Sqm, fieldAreaSqm);
        var finalAmount := Min(scaledDosage, maxDosage);
        var reason := if isPest then PestDetected(prediction, confidence) else DiseaseDetected(prediction, confidence);
        assert calculatedAmount == DoseFor(Classify(prediction));
        assert finalAmount == Min(ToArea(DoseFor(Classify(prediction)), fieldAreaSqm), maxDosage);
        Recommendation(true, reason, Round2(finalAmount))
    }
  }

  /** Python's `min` on two numbers. */
  function Min(a: real, b: real): (r: real)
    ensures r <= a && r <= b
    ensures r == a || r == b
  {
    if a <= b then a else b
  }

  /** A per-1000-sqm quantity scaled to a field of the given area. */
  function ToArea(perThousandSqm: real, fieldAreaSqm: real): (r: real)
    ensures fieldAreaSqm == 1000.0 ==> r == perThousandSqm
    ensures 0.0 <= perThousandSqm && 0.0 <= fieldAreaSqm ==> 0.0 <= r
  {
    perThousandSqm / 1000.0 * fieldAreaSqm
  }

  /**
   * `PesticideRuleEngine.__init__`: the three named pests, and dosage
   * constants under which a pest is dosed more heavily than a disease and
   * neither reaches the cap.
   */
  function NewRuleEngine(): (e: RuleEngine)
    ensures e.WellFormed()
    ensures forall name :: e.IsPest(name) <==> name == "Aphid" || name == "Mite" || name == "Stem fly"
    ensures e.diseaseMultiplier < e.pestMultiplier
    ensures e.baseMlPer1000Sqm * e.pestMultiplier <= e.maxMlPer1000Sqm
    ensures e.baseMlPer1000Sqm * e.diseaseMultiplier <= e.maxMlPer1000Sqm
  {
    RuleEngine(["Aphid", "Mite", "Stem fly"], 0.80, 400.0, 1.5, 2.0, 2500.0)
  }

  /** The engine the live loop constructs. */
  const DefaultEngine: RuleEngine := NewRuleEngine()

  /** The area the live loop always passes. */
  const DefaultFieldAreaSqm: real := 1000.0

  /**
   * When the rules say spray, the dose is the base times the pest
   * multiplier exactly for names in the pest set, and the base times the
   * disease multiplier for every other non-Healthy name.
   */
  lemma MultiplierByPestSet(e: RuleEngine, result: AnalysisResult, fieldAreaSqm: real)
    requires e.minConfidence <= result.confidence && result.prediction != HealthyLabel
    ensures var rec := e.CalculateDosage(result, fieldAreaSqm);
      rec.sprayRecommended
      && (e.IsPest(result.prediction) ==>
            rec.reason == PestDetected(result.prediction, result.confidence)
            && rec.amountMl == Round2(Min(ToArea(e.baseMlPer1000Sqm * e.pestMultiplier, fieldAreaSqm),
                                          ToArea(e.maxMlPer1000Sqm, fieldAreaSqm))))
      && (!e.IsPest(result.prediction) ==>
            rec.reason == DiseaseDetected(result.prediction, result.confidence)
            && rec.amountMl == Round2(Min(ToArea(e.baseMlPer1000Sqm * e.diseaseMultiplier, fieldAreaSqm),
                                          ToArea(e.maxMlPer1000Sqm, fieldAreaSqm))))
  {
    if e.IsPest(result.prediction) {
      assert e.Classify(result.prediction) == Pest(result.prediction);
    } else {
      assert e.Classify(result.prediction) == Disease(result.prediction);
    }
  }

  lemma ToAreaMonotone(c: real, a1: real, a2: real)
    requires 0.0 <= c && a1 <= a2
    ensures ToArea(c, a1) <= ToArea(c, a2)
  {
    assert ToArea(c, a2) - ToArea(c, a1) == c / 1000.0 * (a2 - a1);
  }

  /** On a larger field, the recommended amount is never smaller. */
  lemma AmountMonotoneInArea(e: RuleEngine, result: AnalysisResult, a1: real, a2: real)
    requires e.WellFormed()
    requires a1 <= a2
    ensures e.CalculateDosage(result, a1).amountMl <= e.CalculateDosage(result, a2).amountMl
  {
    if e.minConfidence <= result.confidence && result.prediction != HealthyLabel {
      var c := e.Classify(result.prediction);
      assert 0.0 <= e.DoseFor(c) by {
        assert 0.0 <= e.baseMlPer1000Sqm * e.pestMultiplier;
        assert 0.0 <= e.baseMlPer1000Sqm * e.diseaseMultiplier;
      }
      ToAreaMonotone(e.DoseFor(c), a1, a2);
      ToAreaMonotone(e.maxMlPer1000Sqm, a1, a2);
      Round2Monotone(Min(ToArea(e.DoseFor(c), a1), ToArea(e.maxMlPer1000Sqm, a1)),
                     Min(ToArea(e.DoseFor(c), a2), ToArea(e.maxMlPer1000Sqm, a2)));
    }
  }

  /**
   * With the constructed constants the cap (2500 per 1000 sqm) never
   * binds: a spray amount is the rounded 400-based dose alone.
   */
  lemma DefaultCapNeverBinds(result: AnalysisResult, fieldAreaSqm: real)
    requires 0.0 <= fieldAreaSqm
    requires DefaultEngine.CalculateDosage(result, fieldAreaSqm).sprayRecommended
    ensures DefaultEngine.CalculateDosage(result, fieldAreaSqm).amountMl
      == Round2((if DefaultEngine.IsPest(result.prediction) then 800.0 else 600.0) / 1000.0 * fieldAreaSqm)
  {
    var e := DefaultEngine;
    assert e == RuleEngine(["Aphid", "Mite", "Stem fly"], 0.80, 400.0, 1.5, 2.0, 2500.0);
    var dose := if e.IsPest(result.prediction) then 800.0 else 600.0;
    assert e.DoseFor(e.Classify(result.prediction)) == dose;
    assert ToArea(dose, fieldAreaSqm) <= ToArea(2500.0, fieldAreaSqm);
  }

  /** With the constructed constants, an amount for a field is within [0, the scaled cap]. */
  lemma DefaultAmountWithinCap(result: AnalysisResult, fieldAreaSqm: real)
    requires 0.0 <= fieldAreaSqm
    ensures 0.0 <= DefaultEngine.CalculateDosage(result, fieldAreaSqm).amountMl
              <= ToArea(DefaultEngine.maxMlPer1000Sqm, fieldAreaSqm)
  {
    var rec := DefaultEngine.CalculateDosage(result, fieldAreaSqm);
    if rec.sprayRecommended {
      var raw := (if DefaultEngine.IsPest(result.prediction) then 800.0 else 600.0) / 1000.0 * fieldAreaSqm;
      DefaultCapNeverBinds(result, fieldAreaSqm);
      Round2NonNegative(raw);
      if raw < 0.005 {
        Round2OfTiny(raw);
      }
    }
  }

  /** Healthy at 95%: no spray. */
  lemma ScenarioHealthy()
    ensures DefaultEngine.CalculateDosage(AnalysisResult("Healthy", 0.95), DefaultFieldAreaSqm)
         == Recommendation(false, PlantHealthy, 0.0)
  {
  }

  /** Aphid at 85% on 1000 sqm: a pest, 400 * 2.0 = 800 ml. */
  lemma ScenarioAphid()
    ensures DefaultEngine.CalculateDosage(AnalysisResult("Aphid", 0.85), 1000.0)
         == Recommendation(true, PestDetected("Aphid", 0.85), 800.0)
  {
    Round2OfHundredths(80000);
  }

  /** Rust at exactly 80% on 2000 sqm: a disease, 400 * 1.5 scaled to 1200 ml. */
  lemma ScenarioRust()
    ensures DefaultEngine.CalculateDosage(AnalysisResult("Rust", 0.80), 2000.0)
         == Recommendation(true, DiseaseDetected("Rust", 0.80), 1200.0)
  {
    Round2OfHundredths(120000);
  }

  /** A disease on 1000 sqm: 600 ml. */
  lemma ScenarioDiseaseDefaultArea(name: Label, confidence: real)
    requires 0.80 <= confidence
    requires name != HealthyLabel && !DefaultEngine.IsPest(name)
    ensures DefaultEngine.CalculateDosage(AnalysisResult(name, confidence), 1000.0)
         == Recommendation(true, DiseaseDetected(name, confidence), 600.0)
  {
    Round2OfHundredths(60000);
  }

  /** Mite at 50%: below the threshold, so no spray even though Mite is a pest. */
  lemma ScenarioMiteLowConfidence()
    ensures DefaultEngine.CalculateDosage(AnalysisResult("Mite", 0.50), DefaultFieldAreaSqm)
         == Recommendation(false, BelowThreshold(0.50), 0.0)
  {
  }
}
