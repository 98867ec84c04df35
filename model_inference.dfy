/**
 * Post-processing of the spoilage model's output (ModelService in
 * backend/services/model_inference.py): clamping the score, the linear
 * days-remaining estimate, the three-band status and the two error results.
 * The trained model itself is an oracle whose answer is a parameter.
 */
module ModelInference {
  import opened Wrappers

  /** The status bands, in increasing severity. */
  datatype Status = Safe | Warning | Critical

  /** The label the service writes into the result dictionary. */
  function StatusName(s: Status): (name: string)
    ensures name in {"Safe", "Warning", "Critical"}
  {
    match s
    case Safe => "Safe"
    case Warning => "Warning"
    case Critical => "Critical"
  }

  /** Severity rank used to compare bands. */
  function Severity(s: Status): (rank: nat)
    ensures rank <= 2
  {
    match s
    case Safe => 0
    case Warning => 1
    case Critical => 2
  }

  lemma StatusNameInjective(s: Status, t: Status)
    ensures StatusName(s) == StatusName(t) <==> s == t
  {
  }

  /** `min(max(score, 0.0), 1.0)`. */
  function Clamp(score: real): (r: real)
    ensures 0.0 <= r <= 1.0
    ensures 0.0 <= score <= 1.0 ==> r == score
    ensures score < 0.0 ==> r == 0.0
    ensures score > 1.0 ==> r == 1.0
  {
    var lower := if score > 0.0 then score else 0.0;
    if lower < 1.0 then lower else 1.0
  }

  /** `10 * (1.0 - risk)`: ten days at no risk, none at certain spoilage. */
  function DaysRemaining(risk: real): (days: real)
    ensures 0.0 <= risk <= 1.0 ==> 0.0 <= days <= 10.0
    ensures risk == 0.0 ==> days == 10.0
    ensures risk == 1.0 ==> days == 0.0
  {
    10.0 * (1.0 - risk)
  }

  lemma DaysRemainingAntitone(r1: real, r2: real)
    requires r1 <= r2
    ensures DaysRemaining(r2) <= DaysRemaining(r1)
  {
  }

  /** The conditional expression `"Critical" if r > 0.7 else "Warning" if r > 0.3 else "Safe"`. */
  function StatusOf(risk: real): (s: Status)
    ensures s == Critical <==> risk > 0.7
    ensures s == Warning <==> 0.3 < risk <= 0.7
    ensures s == Safe <==> risk <= 0.3
  {
    if risk > 0.7 then Critical else if risk > 0.3 then Warning else Safe
  }

  /** A higher risk never yields a less severe band. */
  lemma StatusMonotone(r1: real, r2: real)
    requires r1 <= r2
    ensures Severity(StatusOf(r1)) <= Severity(StatusOf(r2))
  {
  }

  lemma StatusBoundaries()
    ensures StatusOf(0.7) == Warning && StatusOf(0.3) == Safe
    ensures StatusOf(0.0) == Safe && StatusOf(1.0) == Critical
  {
  }

  /**
   * Vapour pressure deficit `es - es * (humidity / 100)`, with the saturation
   * pressure `es = 0.6108 * exp(17.27 * T / (T + 237.3))` supplied by the caller.
   */
  function Vpd(es: real, humidity: real): (vpd: real)
    ensures vpd == es - es * (humidity / 100.0)
    ensures es > 0.0 ==> (vpd == 0.0 <==> humidity == 100.0)
    ensures es > 0.0 ==> (vpd > 0.0 <==> humidity < 100.0)
    ensures es > 0.0 ==> (vpd < 0.0 <==> humidity > 100.0)
  {
    var actual := es * (humidity / 100.0);
    VpdSign(es, humidity);
    es - actual
  }

  lemma VpdSign(es: real, humidity: real)
    ensures es > 0.0 && humidity < 100.0 ==> es * (humidity / 100.0) < es
    ensures humidity == 100.0 ==> es * (humidity / 100.0) == es
    ensures es > 0.0 && humidity > 100.0 ==> es * (humidity / 100.0) > es
  {
    var f := humidity / 100.0;
    assert es - es * f == es * (1.0 - f);
    if es <= 0.0 {
    } else if humidity < 100.0 {
      assert f < 1.0;
      assert es * (1.0 - f) > 0.0;
    } else if humidity > 100.0 {
      assert f > 1.0;
      assert es * (f - 1.0) > 0.0;
    }
  }

  /** What `self.model.predict(frame)[0]` did: returned a score, or raised. */
  datatype ModelCall = Returned(score: real) | Raised(message: string)

  /**
   * The result dictionary. A key the source leaves out is `None`:
   * the "error" key appears only on failure, "days_remaining" and
   * "calculated_vpd" only on success, "status" on success and when no
   * model is loaded.
   */
  datatype Prediction = Prediction(
    error: Option<string>,
    spoilageRisk: real,
    daysRemaining: Option<real>,
    status: Option<string>,
    calculatedVpd: Option<real>)

  /**
   * `predict_spoilage`. `loaded` says whether `self.model` is set, `es` is the
   * saturation pressure for the temperature, `call` the model's answer.
   */
  function PredictSpoilage(loaded: bool, es: real, humidity: real, call: ModelCall): (p: Prediction)
    ensures !loaded ==>
      p == Prediction(Some("Model not loaded"), 0.0, None, Some("Unknown"), None)
    ensures loaded && call.Raised? ==>
      p == Prediction(Some(call.message), 0.0, None, None, None)
    ensures loaded && call.Returned? ==>
      && p.error == None
      && 0.0 <= p.spoilageRisk <= 1.0
      && p.spoilageRisk == Clamp(call.score)
      && (0.0 <= call.score <= 1.0 ==> p.spoilageRisk == call.score)
      && p.daysRemaining.Some?
      && 0.0 <= p.daysRemaining.value <= 10.0
      && p.daysRemaining.value + 10.0 * p.spoilageRisk == 10.0
      && p.status == Some(StatusName(StatusOf(p.spoilageRisk)))
      && p.calculatedVpd == Some(Vpd(es, humidity))
  {
    if !loaded then
      Prediction(Some("Model not loaded"), 0.0, None, Some("Unknown"), None)
    else
      var vpd := Vpd(es, humidity);
      match call
      case Raised(msg) => Prediction(Some(msg), 0.0, None, None, None)
      case Returned(score) =>
        var risk := Clamp(score);
        Prediction(None, risk, Some(DaysRemaining(risk)), Some(StatusName(StatusOf(risk))), Some(vpd))
  }

  /** A successful prediction never reports status "Unknown"; only the unloaded model does. */
  lemma UnknownOnlyWhenUnloaded(loaded: bool, es: real, humidity: real, call: ModelCall)
    ensures PredictSpoilage(loaded, es, humidity, call).status == Some("Unknown") <==> !loaded
  {
  }
}
