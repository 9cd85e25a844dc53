/**
 * Scaling and prediction on the aligned vector (app.py:72-75). The fitted
 * scaler and regression model are opaque: they are given as functions,
 * together with the width they were fitted on and the column manifest saved
 * beside them (app.py:11-18).
 */
module Prediction {
  import opened Form
  import opened Alignment

  /** A fitted scaler has seen at least one column. */
  type Width = n: nat | 0 < n witness 1

  /** The loaded artefacts: fitted scaler and model, their input width, and the manifest. */
  datatype Assets = Assets(
    scale: seq<int> -> seq<real>,
    predict: seq<real> -> real,
    fittedWidth: Width,
    features: seq<string>)

  /** A salary estimate, or the shape error the scaler raises on a vector of the wrong width. */
  datatype Outcome = Estimated(salary: real) | ShapeMismatch(expected: Width, actual: nat)

  /**
   * Scale, then predict. An estimate comes back exactly when the vector has
   * the fitted width; otherwise the error names both widths.
   */
  function Predict(assets: Assets, vector: seq<int>): (o: Outcome)
    ensures o.Estimated? <==> |vector| == assets.fittedWidth
    ensures o.Estimated? ==> o.salary == assets.predict(assets.scale(vector))
    ensures o.ShapeMismatch? ==> o.expected == assets.fittedWidth && o.actual == |vector|
  {
    if |vector| == assets.fittedWidth then Estimated(assets.predict(assets.scale(vector)))
    else ShapeMismatch(assets.fittedWidth, |vector|)
  }

  /**
   * One form submission: preprocess against the loaded manifest, then
   * predict. Whatever the record, it yields an estimate exactly when the
   * manifest is as long as the fitted width, and the estimate is the model's
   * answer on the reference alignment.
   */
  method Submit(assets: Assets, r: InputRecord) returns (o: Outcome)
    ensures o == Predict(assets, Align(r, assets.features))
    ensures o.Estimated? <==> |assets.features| == assets.fittedWidth
    ensures o.Estimated? ==> o.salary == assets.predict(assets.scale(Align(r, assets.features)))
  {
    var row := Preprocess(r, assets.features);
    o := Predict(assets, row.values);
  }
}
