# Xylella dashboard for Apulia: verified model of the aggregation and prediction core

This project is a Dafny model of the decision and aggregation logic of a small Dash application. The application monitors *Xylella fastidiosa* infections in the olive groves of the six provinces of Apulia and predicts olive-oil yield per hectare. The model covers two pieces.

- **The map and chart callback** (`update_dashboard` in `Dashboard.py`):
  - it keeps the dataset rows of the selected province;
  - it averages `Alberi_Infetti` (infected trees) per `Provincia` over the whole dataset;
  - it builds one map marker per province, coloured by `crea_marker`: red when the mean is strictly above 50, green otherwise.
- **The prediction path** (`aggiorna_predizione` in `Dashboard.py`, plus `MLModelPredictiveOlives.py`):
  - the callback refuses to predict before the first click, or while any of the five form fields is empty;
  - otherwise it passes the five fields, in form order, to `calcola_predizione`;
  - `calcola_predizione` builds a one-row table whose columns are the training features in training order, asks the random forest trained once at import, and re-raises any failure as `ValueError("Errore nel calcolo della predizione: " + message)`;
  - the callback turns success and failure into a message, so no exception leaves it.

Files:

- `wrappers.dfy`: `Option` and `Result`, standing for Python's `None` and for raised exceptions.
- `dataset.dfy`: one CSV row (`Record`) and looking a numeric column up by its header.
- `string_order.dfy`: Python's ordering of `str` values, and the sorted, duplicate-free key sequence a pandas `groupby` produces. Marker order depends on it.
- `olive_model.dfy` (module `OliveModel`): the feature schema and the regressor.
  - `RandomForestRegressor` is a class whose `Fit` records the training columns and the fitted forest.
  - The fitting algorithm is a `Trainer` function and the fitted forest a `Forest` function. Both are opaque and may fail.
  - The regressor keeps the behaviour that makes the column order matter: `Predict` refuses a table whose columns differ from the fit-time columns, and an unfitted regressor refuses every prediction.
  - The module-level global `model` becomes `PredictiveModule.model`, a `const` set once by the `Import` constructor. `CalcolaPredizione` takes the regressor as a parameter and may only read it (`reads model`).
- `dashboard.dfy` (module `Dashboard`): the two callbacks with the layout, the figures and the marker styling removed.

Facts about the code that shape the model:

- `aggiorna_predizione` checks its input only through `n_clicks == 0` or a `None` field, then passes the five values by position.
- `carica_modello` sets no minimum number of training records, so what `fit` does with zero or one record is left to the opaque `Trainer`.
- `crea_marker` uses exactly two colours, `'red'` and `'green'`.

## Model

| member | source | states |
|---|---|---|
| `OliveModel.TrainingFrame` | MLModelPredictiveOlives.py:12-14 | `X = simulated_data[features]`: the columns are exactly the feature list. Row i holds record i's temperature, humidity, precipitation, replanted trees and infected trees in that order. The row is read through the CSV headers. |
| `OliveModel.Targets` | MLModelPredictiveOlives.py:13-15 | `y = simulated_data[target]`: one target per record, its `Produzione_Olio`. |
| `OliveModel.FeaturesDistinct` | MLModelPredictiveOlives.py:12 | The five feature headers are pairwise different, so a lookup by header is unambiguous. |
| `OliveModel.SingleRowFrame` | MLModelPredictiveOlives.py:29-35 | `pd.DataFrame({name: [value], ...})` has one row. Its columns follow the dictionary order, and column k holds value k. |
| `OliveModel.InputFrame` | MLModelPredictiveOlives.py:29-35 | The inference table's columns equal the training feature list, in training order. It has exactly one row, holding the five arguments in parameter order. |
| `OliveModel.InputFrameByName` | MLModelPredictiveOlives.py:27-35 | Parameter k of `calcola_predizione` is the table's value under the header of training feature k. |
| `OliveModel.PredictRows` | MLModelPredictiveOlives.py:37 | The forest is applied to every row. The result is Ok iff every row succeeds, and then holds one value per row, in row order. On failure the error is one produced by some row. |
| `OliveModel.RandomForestRegressor.constructor` | MLModelPredictiveOlives.py:17 | A new regressor keeps its `n_estimators` and `random_state` and starts unfitted. |
| `OliveModel.RandomForestRegressor.Fit` | MLModelPredictiveOlives.py:18 | When training succeeds, the regressor remembers the table's columns and the trained forest. When it fails, the error is returned and nothing changes. |
| `OliveModel.RandomForestRegressor.Predict` | MLModelPredictiveOlives.py:37 | The result is Ok iff the regressor was fitted on exactly these column names, in this order, and the forest accepts every row; then it holds one prediction per row. An unfitted regressor or a column mismatch gives its own error. |
| `OliveModel.CaricaModello` | MLModelPredictiveOlives.py:8-20 | The result is Ok iff training on the dataset's features and target succeeds. The fresh regressor has `n_estimators` 100, `random_state` 42, training columns equal to the feature list, and the trained forest. Otherwise the training error is returned. |
| `OliveModel.PredictiveModule.Import` | MLModelPredictiveOlives.py:22-23 | The global model is built once at import, fitted on the feature list with the fixed configuration. Being a `const`, it is never replaced. |
| `OliveModel.CalcolaPredizione` | MLModelPredictiveOlives.py:27-40 | With the model fitted on the feature list, the result is the forest's value for (temp, umid, precipitazioni, ripiantati, infetti). A failure becomes the fixed prefix followed by the original message. With any other fit state the result is an error. Every error starts with the prefix. The model is only read. |
| `OliveModel.PredictionUsesTrainingLayout` | MLModelPredictiveOlives.py:12-14 | Predicting from the measurements of dataset record i hands the forest exactly training row i, so training and inference share one schema. |
| `Dashboard.CreaMarker` | Dashboard.py:24-28 | The colour is red iff the mean is strictly greater than 50, and green iff it is at most 50. Exactly one of the two holds for every mean. The marker keeps its province, centre and mean. |
| `Dashboard.ColorMonotone` | Dashboard.py:25 | A larger mean never turns a red province green. |
| `Dashboard.ThresholdBoundary` | Dashboard.py:25 | A mean of exactly 50 is green; 50.01 is red. |
| `Dashboard.FilterByProvince` | Dashboard.py:86 | A row is in the filtered rows iff it is in the data and belongs to the selected province. |
| `Dashboard.FilterByProvinceCounts` | Dashboard.py:86 | Each row of the selected province is kept as many times as the data holds it; every other row is dropped. |
| `Dashboard.FilterByProvinceConcat` | Dashboard.py:86 | Filtering a concatenation gives the concatenation of the filtered parts, so the original row order is kept. |
| `Dashboard.MeanInfectedByProvince` | Dashboard.py:93 | The keys of the per-province means are exactly the distinct provinces of the data. |
| `Dashboard.MeanOfGroup` | Dashboard.py:93 | A province's entry is sum/count of `Alberi_Infetti` over all of its rows in the whole dataset, and that group is never empty. |
| `Dashboard.MeanWithinGroupBounds` | Dashboard.py:93 | A province's mean lies between any lower and upper bound of its rows' infected counts. |
| `Dashboard.MeanMonotone` | Dashboard.py:93 | A province whose rows are all at most c has a mean no larger than that of a province whose rows are all at least c. |
| `Dashboard.MeansIndependentOfRowOrder` | Dashboard.py:93 | Two datasets holding the same rows, in any order, give the same per-province means. |
| `Dashboard.SortedProvinces` | Dashboard.py:93-94 | The order in which the dictionary yields its items is the distinct provinces in ascending string order, without repetition. |
| `Dashboard.BuildMarkers` | Dashboard.py:94 | The result is Ok iff every key has coordinates; then it holds one `crea_marker` per key, in key order. Otherwise it is the `KeyError` of the first key without coordinates. |
| `Dashboard.FirstMissingKey` | Dashboard.py:94 | Over sorted keys, the `KeyError` names a key without coordinates, and every smaller key has coordinates. |
| `Dashboard.Markers` | Dashboard.py:93-94 | The result is Ok iff every province of the data has coordinates. The marker provinces are then the sorted distinct provinces. Each marker carries its province's mean and coordinates, and is red iff that mean exceeds 50. An error names the first province of the data, in ascending order, that has no coordinates: every smaller province has coordinates. |
| `Dashboard.UpdateDashboard` | Dashboard.py:85-96 | The rows returned are the selected province's rows, or none for a cleared selection. The markers are those of the whole dataset. The callback fails exactly when building the markers does. |
| `Dashboard.OneMarkerPerProvince` | Dashboard.py:93-94 | Every province of the data has exactly one marker. |
| `Dashboard.MarkersIgnoreSelection` | Dashboard.py:85-96 | The markers, and whether the callback succeeds, do not depend on the selected province. |
| `Dashboard.LecceExample` | Dashboard.py:25 | A province whose rows have 10, 20 and 90 infected trees averages 40 and is drawn green. |
| `Dashboard.AggiornaPredizione` | Dashboard.py:107-115 | The result is the fill-in warning iff there has been no click or some field is `None`. Otherwise, with the model fitted on the feature list, it is the estimate when the forest succeeds on (temp, umid, precipitazioni, ripiantati, infetti), and the error message (prefix plus cause) when the forest fails. With any other fit state it is an error message. The result is always one of the three messages: no exception escapes. |

## Left out

- Reading `dati_simulati_xylella.csv`: the dataset is an immutable `seq<Record>` parameter. Missing files or columns are not modelled.
- `GenerateRandomData.py`, which writes the dataset: random sampling, CSV export and printing, with no deterministic contract.
- The random forest's fitting and prediction algorithm. Fitting is the opaque, possibly failing `Trainer`; the fitted forest is the opaque, possibly failing `Forest`, applied row by row. The texts of scikit-learn's own errors are abbreviated.
- Floating point. Means and measurements are `real`, so pandas' float rounding and NaN handling are not modelled.
- The Dash layout, callback wiring, plotly figures, marker radius, opacity and tooltip. `DashboardView.rows` is the data the three figures plot.
- The message texts, with their emoji, and the `:.2f` formatting of the estimate. `PredictionMessage` is the tagged outcome; `PredictionError` carries `str(e)`.
- An exception escaping `update_dashboard` (`KeyError`) is returned as `Err`. What Dash then does with the failed callback is not modelled.
- `n_clicks` is a natural number. The button is created with `n_clicks=0`, so the callback never receives `None` there.
- `Dashboard.MeanInfectedByProvince`: its contract states only the key set; the value of each entry is stated by the lemma `Dashboard.MeanOfGroup`.
