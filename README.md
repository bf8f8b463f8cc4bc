# Crop classification for Indian regions — a verified model of the analysis pipeline

The web application lets a user pick a region of India, fetches (or simulates)
Sentinel-2 NDVI statistics for it through Google Earth Engine, classifies the
land cover into four crop classes (Paddy/Rice, Millet/Pulses, Cash Crops,
Fallow/Barren), simulates how the region's area is split over the classes, and
exports the result as CSV or as a GeoJSON Feature.

This Dafny project models the deterministic data shaping of that pipeline:

- `common.dfy` (`Common`): optional dictionary entries, the request geometry,
  JSON documents, exact sums of reals and the lemmas about them.
- `model_predictor.dfy` (`ModelPredictor`): the class tables, the result
  shaping of `predict_crop` around the trained model (an oracle), the demo
  prediction, and the simulated area distribution of
  `predict_area_distribution`: the NDVI bucket, the base distributions, the
  clamped perturbation, the normalisation and the per-class entries.
- `gee_handler.dfy` (`Gee`): the `GeeHandler` class with its `initialized`
  field, the credential choice, the geometry dispatch, the demo record, the
  fallback chain of the live record, and the six-element feature vector.
- `map_generator.dfy` (`MapGenerator`): the GeoJSON Feature (section 3.2 of
  RFC 7946), the CSV rows, and the layers of the results map (a map is its
  list of layers).
- `app.dfy` (`App`): `analyze_region` (validation, defaults, merge of the
  demo flags, the warning) and the two export handlers.

Every random draw, clock reading and Earth Engine answer is a parameter:
`DemoDraw` and `AreaDraw` carry the draws, with their `random.uniform` /
`random.randint` bounds as preconditions; `Option<LiveStats>` is what the
Earth Engine queries returned (`None` when one of them raised);
`Classifier.run` is the scaler plus random forest (`None` when they raised).
Values are exact `real`s and the model states everything before `round(x, 2)`.

The model follows these details of the code:

- The response's `dominant_crop` is the classifier's prediction (app.py:77),
  while `crop_distribution` comes from the NDVI bucket; the two may name
  different classes (the demo prediction always says Paddy/Rice).
- Inside the area distribution the dominant crop is the bucket's class, not an
  argmax with a first-declared tie-break. `DominantShare` proves its share is
  never smaller than another's; `TieAtExtremeVariation` shows a tie in which
  the earlier-declared Millet/Pulses equals the reported Cash Crops.
- The area is a random draw in [10000, 50000] hectares, not computed from the
  geometry.
- The demo-mode warning (app.py:87) asks for GEE credentials to be
  configured, but missing credential variables do not by themselves mean demo
  mode: the handler then tries the default credentials. Demo mode is entered when
  `ee.Initialize` fails, when the geometry cannot be converted, when a query
  raises, or when the classifier is missing or raises (`DemoModeExactly`).
- A classifier that cannot be used is not fatal: `predict_crop` falls back to
  the demo prediction on every request.

## Model

| member | source | states |
|---|---|---|
| ModelPredictor.DemoPrediction | utils/model_predictor.py:131-145 | the demo prediction is tagged `demo_mode`, has class id 0 with its label and colour, one entry per class in class order with that class's colour, its confidence is class 0's probability and the largest, and the probabilities sum to 1 |
| ModelPredictor.ProbabilityTable | utils/model_predictor.py:112-117 | `all_probabilities` has one entry per label, in label order, carrying that label's colour and the probability at its index |
| ModelPredictor.CropPrediction | utils/model_predictor.py:102-129 | no model, a raising model, a probability vector shorter than four, or a class index Python cannot use gives exactly the demo prediction (and only then `demo_mode`); otherwise label, colour and class id come from the predicted index (with Python's negative indexing), the confidence is the probability at that index, and the features are echoed |
| ModelPredictor.PredictionIndexConsistent | utils/model_predictor.py:119-125 | when the model predicts one of the four classes with a probability per class, `predicted_crop`, `color` and `confidence` all belong to the same class id, live or demo |
| ModelPredictor.PredictCrop | utils/model_predictor.py:92-129 | the loop-built prediction equals `CropPrediction` for the same model and features |
| ModelPredictor.Bucket | utils/model_predictor.py:155-168 | mean > 0.65 gives class 0, 0.5 < mean <= 0.65 class 2, 0.35 < mean <= 0.5 class 1, otherwise class 3, each an if-and-only-if |
| ModelPredictor.BaseDistribution | utils/model_predictor.py:157-168 | each base distribution has four positive shares summing to 1, and the bucket's own class leads every other class by at least 0.1 |
| ModelPredictor.Perturbed | utils/model_predictor.py:170-171 | every perturbed share is at least 0.01 and at least base plus variation, and equals one of the two |
| ModelPredictor.Normalized | utils/model_predictor.py:173-174 | each share is the element divided by the total, and the shares sum to 1 |
| ModelPredictor.Shares | utils/model_predictor.py:170-174 | after perturbation and normalisation all four shares are positive and sum to 1 |
| ModelPredictor.DominantShare | utils/model_predictor.py:157-174 | with every variation in [-0.05, 0.05] the bucket's class has a share at least as large as every other class |
| ModelPredictor.StrictlyDominantShare | utils/model_predictor.py:157-174 | with every variation strictly inside (-0.05, 0.05) the bucket's class has the unique largest share |
| ModelPredictor.TieAtExtremeVariation | utils/model_predictor.py:160-174 | at the extreme variations (+0.05 on Millet/Pulses, -0.05 on Cash Crops) the Cash Crops bucket gives both classes the same share |
| ModelPredictor.AreaDistributionOf | utils/model_predictor.py:147-192 | the total area is the drawn estimate in [10000, 50000]; the dominant crop is the bucket's label (Millet/Pulses when `mean_ndvi` is missing); the entries are those of the bucket's class shares under the drawn variations, in class order |
| ModelPredictor.AreaDistributionEntries | utils/model_predictor.py:176-190 | four entries, each with its label and colour by index, `area_ha` = share × total area, `percentage` = share × 100, and a confidence in [0.75, 0.95] |
| ModelPredictor.AreaDistributionBounds | utils/model_predictor.py:184-190 | every class gets a positive area of at most the total and a positive percentage of at most 100 |
| ModelPredictor.AreaDistributionTotals | utils/model_predictor.py:176-190 | the areas sum to the area estimate and the percentages to 100 |
| ModelPredictor.DominantCropHasLargestShare | utils/model_predictor.py:157-190 | the entry labelled with the dominant crop has the largest percentage and the largest area |
| ModelPredictor.PredictAreaDistribution | utils/model_predictor.py:147-192 | the loop-filled distribution equals `AreaDistributionOf` for the same mean and draws |
| Gee.ChooseCredentials | utils/gee_handler.py:16-27 | service-account credentials are used exactly when both environment variables are set and non-empty, with their values; otherwise the default credentials |
| Gee.ConvertToEeGeometry | utils/gee_handler.py:110-119 | a Polygon uses only its first (exterior) ring, a Point its coordinates, any other type name its `bbox` defaulting to [0,0,1,1]; among the modelled geometries only a Polygon without rings fails |
| Gee.DemoNdviData | utils/gee_handler.py:121-138 | the demo record is tagged `demo_mode`; mean = median = the draw; p25 = max(0.1, base-0.15) >= 0.1; p75 = min(0.9, base+0.15) <= 0.9; p25 <= p50 <= p75; image count in 5..15; dated today and 90 days back |
| Gee.LiveNdviData | utils/gee_handler.py:92-105 | mean defaults to 0.5; p25 is `NDVI_p25`, else `NDVI`, else mean-0.15; p75 is `NDVI_p75`, else `NDVI`, else mean+0.15; the median is the mean; no `demo_mode` key |
| Gee.FeatureVector | utils/gee_handler.py:144-151 | six features: mean, p25, p50, p75, p75-p25 and image count / 10, which is 1.0 when the count is missing |
| Gee.DemoFeaturesInTrainingRange | utils/gee_handler.py:126-151 | for a demo record the quartile features are ordered, the range feature is exactly 0.3 and the count feature lies in [0.5, 1.5] |
| Gee.GeeHandler.constructor | utils/gee_handler.py:9-11 | a new handler is initialised exactly when `ee.Initialize` succeeds with the chosen credentials |
| Gee.GeeHandler.InitializeGee | utils/gee_handler.py:13-31 | `initialized` becomes whether `ee.Initialize` succeeded with the chosen credentials |
| Gee.GeeHandler.GetSentinel2Ndvi | utils/gee_handler.py:33-108 | the record is the demo one, tagged `demo_mode`, exactly when the handler is uninitialised, the geometry cannot be converted or a query raised; otherwise it is the live record over the given dates or the 90-day default window |
| Gee.GeeHandler.GetNdviFeatures | utils/gee_handler.py:140-153 | returns the feature vector of the record it fetched, and that record unchanged |
| Gee.UninitializedHandlerUsesDemoData | utils/gee_handler.py:45-46 | an uninitialised handler always yields the demo record, tagged `demo_mode`, and its features |
| MapGenerator.GenerateGeojson | utils/map_generator.py:68-75 | the result is an object whose `type` is `Feature`, whose `geometry` is the input geometry and whose `properties` are the input properties |
| MapGenerator.GeojsonRoundTrip | utils/map_generator.py:68-75 | reading the Feature back returns the geometry and properties unchanged |
| MapGenerator.CsvTable | utils/map_generator.py:86-94 | the header is exactly Crop Type, Area (Hectares), Percentage, Confidence, followed by one row per entry |
| MapGenerator.ExportToCsv | utils/map_generator.py:77-96 | the loop-written rows equal `CsvTable` of the distribution |
| MapGenerator.CsvRoundTrip | utils/map_generator.py:86-94 | reading the rows back gives every entry's name, area, percentage and confidence in iteration order, with 0 for each missing value |
| MapGenerator.AddCropLayer | utils/map_generator.py:29-44 | a Polygon gets one more layer with the crop's name, colour and area (0 when missing); any other geometry leaves the map unchanged |
| MapGenerator.ResultLayersMembers | utils/map_generator.py:46-54 | a layer is on the results map exactly when the geometry is a Polygon and the layer belongs to an entry whose percentage is strictly greater than 5 |
| MapGenerator.CreateResultsMap | utils/map_generator.py:46-58 | fails with a KeyError exactly when some entry lacks a percentage, or has one above 5 and no colour; otherwise yields the layers of `ResultLayers` |
| App.AssembleResult | app.py:72-87 | `dominant_crop`, `confidence`, `all_probabilities` come from the prediction, `total_area_ha` and `crop_distribution` from the area distribution; `demo_mode` is the OR of both flags (each false when missing); `warning` is present exactly when `demo_mode` is true |
| App.AnalyzeRegion | app.py:52-89 | a missing or empty geometry gives status 400 with "No geometry provided" and nothing else; otherwise the result of `AnalysisOf`, with `center` defaulting to [20.5937, 78.9629] and `region_name` to 'Selected Region' |
| App.DemoModeExactly | app.py:83-87 | the response is in demo mode, and carries the warning, exactly when the handler is uninitialised, the geometry cannot be converted, an Earth Engine query raised, or the prediction fell back to the demo one |
| App.AnalysisTotals | app.py:70-81 | the response's areas add up to its total area, which lies in [10000, 50000], and its percentages add up to 100 |
| App.ReplaceSpaces | app.py:103 | same length; every space becomes '_' and every other character is kept |
| App.ExportFilename | app.py:103 | the name is the region name with spaces replaced, '_', the timestamp and '.csv'; a timestamp without spaces gives a name without spaces |
| App.ExportCsv | app.py:95-106 | the file name uses the region name (default 'analysis') and the rows are the CSV table of the distribution (default empty) |
| App.ExportGeojson | app.py:111-121 | a missing geometry is exported as null and missing properties as an empty object, both unchanged otherwise |
| App.AnalysisCsvExport | app.py:95-104 | an export request that lists the analysis entries in class order is written in that order, each class with its own area, percentage and confidence (no default is used) |
| App.AnalysisMapLayers | utils/map_generator.py:46-54 | an analysis distribution never makes the results map raise, and for a Polygon exactly the classes above 5 percent get a layer in their own colour |

## Left out

- Model training and loading (`create_pretrained_model`, `load_or_create_model`, `RandomForestClassifier`, `StandardScaler`, `joblib`): foreign library calls; the trained model is the `Classifier` oracle.
- Seeding and drawing random numbers (`random.seed(hash(str(geometry)) % 1000)`, `random.uniform`, `random.randint`): the draws are parameters with their bounds as preconditions; Python's salted string hash makes the seed irreproducible anyway.
- ModelPredictor.AreaDistributionOf: states `total_area_ha`, `area_ha`, `percentage` and `confidence` before `round(x, 2)`; after rounding the sums hold only approximately.
- Floating point: all numbers are exact reals, so the thresholds 0.65, 0.5, 0.35 and the sums are exact.
- Earth Engine: `ee.Initialize`, the image collection, the NDVI band math, `reduceRegion` and `getInfo` are remote calls; their outcome is a parameter. Statistics whose value is null are not modelled (the dictionaries map names to numbers).
- Wall clock: `datetime.now()` and the 90-day window are given as strings (`Clock`, `analysisDate`, the export timestamp).
- Flask: routing, `request.get_json()` on a body that is not a JSON object, `jsonify`, `send_file`, CORS, the 500 responses of the outer `except` blocks, the `/`, `/api/regions`, `/api/crop-types` and `/api/health` routes, and loading the JSON data files.
- Rendering and files: `create_base_map`, `save_map_html`, the layer style and the layer control of the folium map, the tooltip text formatting, and the directory creation, file writing and quoting of `export_to_csv`.
- All `print` output.
- Gee.ConvertToEeGeometry: does not cover malformed request geometries. A geometry without a `type` member, a Polygon or Point without `coordinates`, and coordinates that `ee.Geometry` refuses are not represented (`Geometry` has one constructor per well-formed case, and `OtherGeometry` cannot carry the type names Polygon or Point). The source sends each of them to the demo NDVI record through the `except` of `get_sentinel2_ndvi`.
- MapGenerator.CreateResultsMap: does not cover a geometry without a `type` member either; for one, `add_crop_layer` raises a KeyError (utils/map_generator.py:31) as soon as some entry is above 5 percent, while the model's `Geometry` always has a type.
- Key order of `jsonify`: the response (app.py:89) is serialised with its keys sorted, so a `crop_distribution` sent back unchanged arrives in the order Cash Crops, Fallow/Barren, Millet/Pulses, Paddy/Rice. The model's JSON objects keep their insertion order, and App.AnalysisCsvExport speaks of a request listing the entries in class order.
- Explicit JSON `null` values in a request: `Option` models a missing key only. With `"region_name": null` or `"center": null` the source returns `None` from `data.get`, and `export_csv` then raises on `.replace`; these paths are not modelled.
- Repeated crop names in a distribution: `Distribution` is a sequence of pairs, which may repeat a name, while a Python dictionary cannot. For a repeated name the model writes one CSV row and one map layer per occurrence; every distribution the analysis produces has four distinct names.
