/** The three-class conversion used when evaluating the model (`to_class` in test_model.py). */
module Evaluation {
  import ModelInference

  /** `to_class`: an if-chain from a risk value to its class label. */
  function ToClass(v: real): (c: string)
    ensures c == "Safe" || c == "Warning" || c == "Critical"
    ensures c == "Critical" <==> v > 0.7
    ensures c == "Warning" <==> 0.3 < v <= 0.7
    ensures c == "Safe" <==> v <= 0.3
  {
    if v > 0.7 then "Critical"
    else if v > 0.3 then "Warning"
    else "Safe"
  }

  /** The evaluation script and the service classify every value alike. */
  lemma ToClassAgreesWithService(v: real)
    ensures ToClass(v) == ModelInference.StatusName(ModelInference.StatusOf(v))
  {
  }

  /** `[to_class(v) for v in values]`. */
  function ToClasses(values: seq<real>): (labels: seq<string>)
    ensures |labels| == |values|
    ensures forall i :: 0 <= i < |values| ==> labels[i] == ToClass(values[i])
  {
    seq(|values|, i requires 0 <= i < |values| => ToClass(values[i]))
  }

  /** Labelling distributes over concatenation, so order is preserved. */
  lemma ToClassesAppend(a: seq<real>, b: seq<real>)
    ensures ToClasses(a + b) == ToClasses(a) + ToClasses(b)
  {
  }
}
