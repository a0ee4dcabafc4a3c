/**
 * MLModelPredictiveOlives.py: the feature schema, the random-forest regressor
 * trained once when the module is imported, and `calcola_predizione`, which
 * turns five numbers into one predicted olive-oil yield (litres per hectare).
 *
 * The forest itself is opaque. Fitting is a `Trainer` handed in by the caller
 * (it may fail, as scikit-learn's `fit` may raise); what it yields is a
 * `Forest`, a possibly failing function from one feature row to one
 * prediction. What the model does keep from scikit-learn is that a fitted
 * regressor remembers the column names it was trained on and refuses a
 * prediction table whose columns differ, and that an unfitted one refuses
 * every prediction.
 */
module OliveModel {
  import opened Wrappers
  import opened Dataset

  /** `features` in `carica_modello`: the training columns, in training order. */
  const Features: seq<string> :=
    ["Temperatura (°C)", "Umidità (%)", "Precipitazioni (mm)", "Alberi_Ripiantati", "Alberi_Infetti"]

  /** `target` in `carica_modello`. */
  const Target: string := "Produzione_Olio"

  /** The configuration `carica_modello` builds the regressor with. */
  const NEstimators: nat := 100
  const RandomState: int := 42

  /** What `calcola_predizione` puts in front of the message of any failure. */
  const ErrorPrefix: string := "Errore nel calcolo della predizione: "

  /** Abbreviated texts of scikit-learn's own refusals. */
  const NotFittedMessage: string := "This RandomForestRegressor instance is not fitted yet."
  const FeatureNamesMessage: string := "The feature names should match those that were passed during fit."

  /** A numeric pandas DataFrame: its column headers and its rows, cell k of a
      row being the value under `columns[k]`. */
  datatype Frame = Frame(columns: seq<string>, rows: seq<seq<real>>)

  /** The fitted ensemble, seen from outside: one row in, one value or an error out. */
  type Forest = seq<real> -> Result<real, string>

  /** `RandomForestRegressor.fit` seen from outside: feature rows, targets,
      `n_estimators` and `random_state` in, a forest or an error out. */
  type Trainer = (seq<seq<real>>, seq<real>, nat, int) -> Result<Forest, string>

  /** Position of the first occurrence of `name` in `names`. */
  function IndexOf(names: seq<string>, name: string): (r: Option<nat>)
    ensures r.None? <==> name !in names
    ensures r.Some? ==> r.value < |names| && names[r.value] == name
    ensures r.Some? ==> forall j :: 0 <= j < r.value ==> names[j] != name
  {
    if |names| == 0 then None
    else if names[0] == name then Some(0)
    else match IndexOf(names[1..], name)
      case None => None
      case Some(k) => Some(k + 1)
  }

  /** The value in row `i` under the header `name` (`df[name][i]`). */
  function Cell(f: Frame, i: nat, name: string): Option<real>
  {
    match IndexOf(f.columns, name)
    case None => None
    case Some(k) => if i < |f.rows| && k < |f.rows[i]| then Some(f.rows[i][k]) else None
  }

  /** `pd.DataFrame({name0: [v0], name1: [v1], ...})`: one row, the columns in
      the order the dictionary lists them. */
  function SingleRowFrame(cells: seq<(string, real)>): (f: Frame)
    ensures |f.columns| == |cells| && |f.rows| == 1 && |f.rows[0]| == |cells|
    ensures forall k :: 0 <= k < |cells| ==> f.columns[k] == cells[k].0 && f.rows[0][k] == cells[k].1
  {
    if |cells| == 0 then Frame([], [[]])
    else
      var rest := SingleRowFrame(cells[1..]);
      Frame([cells[0].0] + rest.columns, [[cells[0].1] + rest.rows[0]])
  }

  /** `simulated_data[features]`: each record's feature columns, looked up by header. */
  function TrainingFrame(data: seq<Record>): (X: Frame)
    ensures X.columns == Features && |X.rows| == |data|
    ensures forall i :: 0 <= i < |data| ==>
      X.rows[i] == [data[i].temperatura, data[i].umidita, data[i].precipitazioni,
                    data[i].alberiRipiantati as real, data[i].alberiInfetti as real]
  {
    assert forall k :: 0 <= k < |Features| ==> Features[k] in NumericColumns;
    Frame(Features, seq(|data|, i requires 0 <= i < |data| =>
      seq(|Features|, k requires 0 <= k < |Features| => Column(data[i], Features[k]).value)))
  }

  /** `simulated_data[target]`. */
  function Targets(data: seq<Record>): (y: seq<real>)
    ensures |y| == |data|
    ensures forall i :: 0 <= i < |data| ==> y[i] == data[i].produzioneOlio
  {
    assert Target in NumericColumns;
    seq(|data|, i requires 0 <= i < |data| => Column(data[i], Target).value)
  }

  /** The forest applied to each row in turn; the first row it fails on decides the error. */
  function PredictRows(forest: Forest, rows: seq<seq<real>>): (r: Result<seq<real>, string>)
    ensures r.Ok? <==> forall i :: 0 <= i < |rows| ==> forest(rows[i]).Ok?
    ensures r.Ok? ==> |r.value| == |rows| && forall i :: 0 <= i < |rows| ==> forest(rows[i]) == Ok(r.value[i])
    ensures r.Err? ==> exists i :: 0 <= i < |rows| && forest(rows[i]) == Err(r.error)
  {
    if |rows| == 0 then Ok([])
    else match forest(rows[0])
      case Err(e) => Err(e)
      case Ok(v) =>
        match PredictRows(forest, rows[1..])
        case Err(e) =>
          assert exists i :: 0 <= i < |rows[1..]| && forest(rows[1..][i]) == Err(e);
          var i :| 0 <= i < |rows[1..]| && forest(rows[1..][i]) == Err(e);
          assert forest(rows[i + 1]) == Err(e);
          Err(e)
        case Ok(vs) =>
          assert forall i :: 1 <= i < |rows| ==> forest(rows[i]) == Ok(vs[i - 1]) by {
            forall i | 1 <= i < |rows| ensures forest(rows[i]) == Ok(vs[i - 1]) {
              assert rows[i] == rows[1..][i - 1];
            }
          }
          Ok([v] + vs)
  }

  /** `RandomForestRegressor(n_estimators, random_state)`, unfitted until `Fit` succeeds. */
  class RandomForestRegressor {
    const nEstimators: nat
    const randomState: int
    /** The columns of the table it was fitted on; `None` while unfitted. */
    var featureNames: Option<seq<string>>
    var forest: Forest

    constructor (nEstimators: nat, randomState: int)
      ensures this.nEstimators == nEstimators && this.randomState == randomState
      ensures featureNames == None
    {
      this.nEstimators := nEstimators;
      this.randomState := randomState;
      featureNames := None;
      forest := (row: seq<real>) => Err(NotFittedMessage);
    }

    /** `model.fit(X, y)`: on success the regressor remembers `X`'s columns and
        the forest the trainer built; on failure it is left as it was. */
    method Fit(X: Frame, y: seq<real>, train: Trainer) returns (err: Option<string>)
      modifies this
      ensures train(X.rows, y, nEstimators, randomState).Ok? ==>
        err == None && featureNames == Some(X.columns) &&
        forest == train(X.rows, y, nEstimators, randomState).value
      ensures train(X.rows, y, nEstimators, randomState).Err? ==>
        err == Some(train(X.rows, y, nEstimators, randomState).error) &&
        featureNames == old(featureNames) && forest == old(forest)
    {
      match train(X.rows, y, nEstimators, randomState)
      case Err(e) =>
        err := Some(e);
      case Ok(f) =>
        featureNames := Some(X.columns);
        forest := f;
        err := None;
    }

    /** `model.predict(X)`: one value per row, provided the regressor is fitted
        on exactly `X`'s columns (same names, same order) and the forest
        accepts every row. */
    function Predict(X: Frame): (r: Result<seq<real>, string>)
      reads this
      ensures r.Ok? <==> featureNames == Some(X.columns) && forall i :: 0 <= i < |X.rows| ==> forest(X.rows[i]).Ok?
      ensures r.Ok? ==> |r.value| == |X.rows| && forall i :: 0 <= i < |X.rows| ==> forest(X.rows[i]) == Ok(r.value[i])
      ensures featureNames.None? ==> r == Err(NotFittedMessage)
      ensures featureNames.Some? && featureNames.value != X.columns ==> r == Err(FeatureNamesMessage)
    {
      match featureNames
      case None => Err(NotFittedMessage)
      case Some(names) =>
        if names != X.columns then Err(FeatureNamesMessage)
        else PredictRows(forest, X.rows)
    }
  }

  /** `carica_modello`: a regressor with the fixed configuration, fitted on the
      feature columns and target of the whole dataset. Its exception, when
      fitting fails, is the `Err`. */
  method CaricaModello(data: seq<Record>, train: Trainer) returns (r: Result<RandomForestRegressor, string>)
    ensures r.Ok? <==> train(TrainingFrame(data).rows, Targets(data), NEstimators, RandomState).Ok?
    ensures r.Err? ==> r.error == train(TrainingFrame(data).rows, Targets(data), NEstimators, RandomState).error
    ensures r.Ok? ==> (fresh(r.value) &&
      r.value.nEstimators == NEstimators && r.value.randomState == RandomState &&
      r.value.featureNames == Some(Features) &&
      r.value.forest == train(TrainingFrame(data).rows, Targets(data), NEstimators, RandomState).value)
  {
    var X := TrainingFrame(data);
    var y := Targets(data);
    var model := new RandomForestRegressor(NEstimators, RandomState);
    var err := model.Fit(X, y, train);
    match err
    case Some(e) => r := Err(e);
    case None => r := Ok(model);
  }

  /** The module's global state: `model = carica_modello()` runs once, when
      the module is imported, and the field can never be assigned again. An
      import whose training fails raises, so no such object comes to exist;
      `CaricaModello`'s `Err` is that case. */
  class PredictiveModule {
    const model: RandomForestRegressor

    constructor Import(data: seq<Record>, train: Trainer)
      requires train(TrainingFrame(data).rows, Targets(data), NEstimators, RandomState).Ok?
      ensures fresh(model)
      ensures model.nEstimators == NEstimators && model.randomState == RandomState
      ensures model.featureNames == Some(Features)
      ensures model.forest == train(TrainingFrame(data).rows, Targets(data), NEstimators, RandomState).value
    {
      var loaded := CaricaModello(data, train);
      model := loaded.value;
    }
  }

  /** The one-row table `calcola_predizione` builds from its five arguments. */
  function InputFrame(temp: real, umid: real, precipitazioni: real, ripiantati: real, infetti: real): (X: Frame)
    ensures X.columns == Features
    ensures |X.rows| == 1
    ensures X.rows[0] == [temp, umid, precipitazioni, ripiantati, infetti]
  {
    SingleRowFrame([
      ("Temperatura (°C)", temp),
      ("Umidità (%)", umid),
      ("Precipitazioni (mm)", precipitazioni),
      ("Alberi_Ripiantati", ripiantati),
      ("Alberi_Infetti", infetti)])
  }

  /** `calcola_predizione`: the model's prediction for the one-row table, or
      the failure re-raised as `ValueError` with `ErrorPrefix` in front. The
      regressor is only read. */
  function CalcolaPredizione(model: RandomForestRegressor, temp: real, umid: real, precipitazioni: real,
                             ripiantati: real, infetti: real): (r: Result<real, string>)
    reads model
    ensures r.Err? ==> |ErrorPrefix| <= |r.error| && r.error[..|ErrorPrefix|] == ErrorPrefix
    ensures model.featureNames != Some(Features) ==> r.Err?
    ensures model.featureNames == Some(Features) ==>
      match model.forest([temp, umid, precipitazioni, ripiantati, infetti])
      case Ok(v) => r == Ok(v)
      case Err(e) => r == Err(ErrorPrefix + e)
  {
    var X := InputFrame(temp, umid, precipitazioni, ripiantati, infetti);
    match model.Predict(X)
    case Ok(predictions) => Ok(predictions[0])
    case Err(e) => Err(ErrorPrefix + e)
  }

  /** No header occurs twice. */
  predicate Distinct(names: seq<string>)
  {
    forall i, j :: 0 <= i < j < |names| ==> names[i] != names[j]
  }

  /** The training columns have distinct headers. */
  lemma FeaturesDistinct()
    ensures Distinct(Features)
  {
  }

  /** In a list of distinct headers, looking a header up finds its own position. */
  lemma IndexOfDistinct(names: seq<string>, k: nat)
    requires Distinct(names) && k < |names|
    ensures IndexOf(names, names[k]) == Some(k)
  {
  }

  /** Parameter k of `calcola_predizione` is the value of the table under the
      header of training feature k. */
  lemma InputFrameByName(temp: real, umid: real, precipitazioni: real, ripiantati: real, infetti: real)
    ensures forall k :: 0 <= k < |Features| ==>
      Cell(InputFrame(temp, umid, precipitazioni, ripiantati, infetti), 0, Features[k]) ==
      Some([temp, umid, precipitazioni, ripiantati, infetti][k])
  {
    FeaturesDistinct();
    forall k | 0 <= k < |Features| {
      IndexOfDistinct(Features, k);
    }
  }

  /** Training and prediction agree on the schema: a prediction asked for the
      measurements of a dataset record reaches the forest as exactly the row
      the forest was trained on for that record. */
  lemma PredictionUsesTrainingLayout(model: RandomForestRegressor, data: seq<Record>, i: nat)
    requires i < |data|
    requires model.featureNames == Some(Features)
    ensures var r := data[i];
      var p := CalcolaPredizione(model, r.temperatura, r.umidita, r.precipitazioni,
                                 r.alberiRipiantati as real, r.alberiInfetti as real);
      match model.forest(TrainingFrame(data).rows[i])
      case Ok(v) => p == Ok(v)
      case Err(e) => p == Err(ErrorPrefix + e)
  {
  }
}
