/** The request handlers of the web application: the region analysis, and the
    CSV and GeoJSON exports. The module-level handlers are parameters, and so
    is everything the clock, the random generator and Earth Engine provide. */
module App {
  import opened Common
  import opened Gee
  import opened ModelPredictor
  import opened MapGenerator

  const DEFAULT_CENTER: seq<real> := [20.5937, 78.9629]
  const DEFAULT_REGION_NAME: string := "Selected Region"
  const DEFAULT_EXPORT_NAME: string := "analysis"
  const NO_GEOMETRY: string := "No geometry provided"
  const DEMO_WARNING: string := "Demo mode: Using simulated data. Configure GEE credentials for real satellite analysis."

  /** The JSON body of an analysis request; every key may be missing, and a
      missing, null or empty geometry is `None`. */
  datatype AnalyzeRequest = AnalyzeRequest(
    geometry: Option<Geometry>,
    center: Option<seq<real>>,
    startDate: Option<string>,
    endDate: Option<string>,
    regionName: Option<string>)

  /** What the outside world provides during one analysis: the clock, the
      Earth Engine answers (`None` when a query raised) and the random draws. */
  datatype Environment = Environment(
    clock: Clock,
    analysisDate: string,
    live: Option<LiveStats>,
    demoDraw: DemoDraw,
    areaDraw: AreaDraw)

  predicate ValidEnvironment(env: Environment) {
    ValidDemoDraw(env.demoDraw) && ValidAreaDraw(env.areaDraw)
  }

  /** The analysis response; `warning` is a key only a demo response carries. */
  datatype AnalysisResult = AnalysisResult(
    success: bool,
    regionName: string,
    analysisDate: string,
    ndviData: NdviRecord,
    dominantCrop: string,
    confidence: real,
    totalAreaHa: real,
    cropDistribution: seq<CropArea>,
    allProbabilities: seq<ClassProbability>,
    center: seq<real>,
    demoMode: bool,
    warning: Option<string>)

  datatype AnalyzeResponse = Analysis(result: AnalysisResult) | ClientError(status: int, message: string)

  /** The response dictionary of `analyze_region`, warning included. */
  function AssembleResult(
    regionName: string, analysisDate: string, ndvi: NdviRecord,
    prediction: Prediction, area: AreaDistribution, center: seq<real>): (r: AnalysisResult)
    ensures r.success && r.regionName == regionName && r.analysisDate == analysisDate && r.center == center
    ensures r.ndviData == ndvi
    ensures r.dominantCrop == prediction.predictedCrop && r.confidence == prediction.confidence
    ensures r.allProbabilities == prediction.allProbabilities
    ensures r.totalAreaHa == area.totalAreaHa && r.cropDistribution == area.cropDistribution
    ensures r.demoMode <==> ndvi.demoMode.GetOr(false) || prediction.demoMode.GetOr(false)
    ensures r.warning.Some? <==> r.demoMode
    ensures r.warning.Some? ==> r.warning.value == DEMO_WARNING
  {
    var demoMode := ndvi.demoMode.GetOr(false) || prediction.demoMode.GetOr(false);
    AnalysisResult(
      true, regionName, analysisDate, ndvi, prediction.predictedCrop, prediction.confidence,
      area.totalAreaHa, area.cropDistribution, prediction.allProbabilities, center, demoMode,
      if demoMode then Some(DEMO_WARNING) else None)
  }

  /** The analysis result for a request with a geometry. */
  function AnalysisOf(gee: GeeHandler, model: Option<Classifier>, geometry: Geometry, req: AnalyzeRequest, env: Environment): AnalysisResult
    reads gee
    requires ValidEnvironment(env)
  {
    var ndvi := gee.GetSentinel2Ndvi(geometry, req.startDate, req.endDate, env.clock, env.live, env.demoDraw);
    AssembleResult(
      req.regionName.GetOr(DEFAULT_REGION_NAME), env.analysisDate, ndvi,
      CropPrediction(model, FeatureVector(ndvi)),
      AreaDistributionOf(Some(ndvi.meanNdvi), env.areaDraw),
      req.center.GetOr(DEFAULT_CENTER))
  }

  /** `analyze_region`: a client error without a geometry; otherwise the NDVI
      record, the prediction from its features and the area distribution from
      its mean, assembled with the defaults for the region name and centre. */
  method AnalyzeRegion(gee: GeeHandler, model: Option<Classifier>, req: AnalyzeRequest, env: Environment)
    returns (resp: AnalyzeResponse)
    requires ValidEnvironment(env)
    ensures resp.ClientError? <==> req.geometry.None?
    ensures resp.ClientError? ==> resp == ClientError(400, NO_GEOMETRY)
    ensures resp.Analysis? ==> resp.result == AnalysisOf(gee, model, req.geometry.value, req, env)
  {
    var center := req.center.GetOr(DEFAULT_CENTER);
    var regionName := req.regionName.GetOr(DEFAULT_REGION_NAME);
    if req.geometry.None? {
      return ClientError(400, NO_GEOMETRY);
    }
    var (features, ndvi) := gee.GetNdviFeatures(req.geometry.value, req.startDate, req.endDate, env.clock, env.live, env.demoDraw);
    var prediction := PredictCrop(model, features);
    var area := PredictAreaDistribution(Some(ndvi.meanNdvi), env.areaDraw);
    var result := AnalysisResult(
      true, regionName, env.analysisDate, ndvi, prediction.predictedCrop, prediction.confidence,
      area.totalAreaHa, area.cropDistribution, prediction.allProbabilities, center,
      ndvi.demoMode.GetOr(false) || prediction.demoMode.GetOr(false), None);
    if result.demoMode {
      result := result.(warning := Some(DEMO_WARNING));
    }
    return Analysis(result);
  }

  /** A response is marked as demo data, with the warning, exactly when the
      handler is not initialised, the geometry cannot be converted, an Earth
      Engine query raised, or the classifier could not be used. */
  lemma DemoModeExactly(gee: GeeHandler, model: Option<Classifier>, geometry: Geometry, req: AnalyzeRequest, env: Environment)
    requires ValidEnvironment(env)
    ensures var r := AnalysisOf(gee, model, geometry, req, env);
      var ndvi := gee.GetSentinel2Ndvi(geometry, req.startDate, req.endDate, env.clock, env.live, env.demoDraw);
      && (r.demoMode <==>
           !gee.initialized || ConvertToEeGeometry(geometry).None? || env.live.None? ||
           PredictionFails(model, FeatureVector(ndvi)))
      && (r.warning == if r.demoMode then Some(DEMO_WARNING) else None)
  {
  }

  /** An analysis reports a distribution whose areas add up to the reported
      total and whose percentages add up to 100, and whose areas are derived
      from the NDVI record the response carries. */
  lemma AnalysisTotals(gee: GeeHandler, model: Option<Classifier>, geometry: Geometry, req: AnalyzeRequest, env: Environment)
    requires ValidEnvironment(env)
    ensures var r := AnalysisOf(gee, model, geometry, req, env);
      && Sum(Areas(r.cropDistribution)) == r.totalAreaHa
      && Sum(Percentages(r.cropDistribution)) == 100.0
      && 10000.0 <= r.totalAreaHa <= 50000.0
  {
    var ndvi := gee.GetSentinel2Ndvi(geometry, req.startDate, req.endDate, env.clock, env.live, env.demoDraw);
    AreaDistributionTotals(Some(ndvi.meanNdvi), env.areaDraw);
  }

  // ---------------------------------------------------------------------
  // Exports
  // ---------------------------------------------------------------------

  /** `str.replace(' ', '_')`. */
  function ReplaceSpaces(s: string): (r: string)
    ensures |r| == |s|
    ensures forall i :: 0 <= i < |s| ==> r[i] == if s[i] == ' ' then '_' else s[i]
  {
    if |s| == 0 then ""
    else [if s[0] == ' ' then '_' else s[0]] + ReplaceSpaces(s[1..])
  }

  /** The download name of a CSV export: the region name with its spaces
      replaced by underscores, an underscore, the timestamp and `.csv`. */
  function ExportFilename(regionName: string, timestamp: string): (f: string)
    ensures |f| == |regionName| + 1 + |timestamp| + 4
    ensures f[..|regionName|] == ReplaceSpaces(regionName)
    ensures f[|regionName|] == '_' && f[|regionName| + 1..|f| - 4] == timestamp
    ensures f[|f| - 4..] == ".csv"
    ensures ' ' !in timestamp ==> ' ' !in f
  {
    var f := ReplaceSpaces(regionName) + "_" + timestamp + ".csv";
    assert forall i :: 0 <= i < |f| ==> f[i] != ' ' || (|regionName| < i && f[i] == timestamp[i - |regionName| - 1]);
    f
  }

  /** The JSON body of a CSV export request. */
  datatype ExportRequest = ExportRequest(cropDistribution: Option<Distribution>, regionName: Option<string>)

  /** `export_csv`: the download name and the rows of the file. */
  method ExportCsv(req: ExportRequest, timestamp: string) returns (filename: string, rows: seq<seq<Cell>>)
    ensures filename == ExportFilename(req.regionName.GetOr(DEFAULT_EXPORT_NAME), timestamp)
    ensures rows == CsvTable(req.cropDistribution.GetOr([]))
  {
    var dist := req.cropDistribution.GetOr([]);
    var regionName := req.regionName.GetOr(DEFAULT_EXPORT_NAME);
    filename := ExportFilename(regionName, timestamp);
    rows := ExportToCsv(dist);
  }

  /** `export_geojson`: a missing geometry is exported as null and missing
      properties as an empty object. */
  function ExportGeojson(geometry: Option<Json>, properties: Option<Json>): (f: Json)
    ensures FeatureParts(f) == Some((geometry.GetOr(JNull), properties.GetOr(JObject([]))))
  {
    GeojsonRoundTrip(geometry.GetOr(JNull), properties.GetOr(JObject([])));
    GenerateGeojson(geometry.GetOr(JNull), properties.GetOr(JObject([])))
  }

  /** An export request that lists the entries of an analysis distribution
      in class order, each with all four of its values. */
  function ToExportDistribution(d: seq<CropArea>): (r: Distribution)
    ensures |r| == |d|
  {
    seq(|d|, i requires 0 <= i < |d| => (d[i].crop, CropInfo(Some(d[i].areaHa), Some(d[i].percentage), Some(d[i].color), Some(d[i].confidence))))
  }

  /** An export request that lists the analysis entries in class order is
      written in that order, each class with its own area, percentage and
      confidence (no default is used). */
  lemma AnalysisCsvExport(meanNdvi: Option<real>, draw: AreaDraw)
    requires ValidAreaDraw(draw)
    ensures var d := AreaDistributionOf(meanNdvi, draw).cropDistribution;
      ParseCsv(CsvTable(ToExportDistribution(d))) ==
        Some(seq(|d|, i requires 0 <= i < |d| => (CROP_LABELS[i], d[i].areaHa, d[i].percentage, d[i].confidence)))
  {
    var d := AreaDistributionOf(meanNdvi, draw).cropDistribution;
    var e := ToExportDistribution(d);
    CsvRoundTrip(e);
    assert seq(|e|, i requires 0 <= i < |e| => ExportedValues(e[i])) ==
      seq(|d|, i requires 0 <= i < |d| => (CROP_LABELS[i], d[i].areaHa, d[i].percentage, d[i].confidence));
  }

  /** The map of an analysis distribution can always be built: every entry
      has a percentage and a colour, and a layer is drawn for exactly the
      classes above 5 percent (for a Polygon). */
  lemma AnalysisMapLayers(meanNdvi: Option<real>, draw: AreaDraw, geometry: Geometry, layer: Layer)
    requires ValidAreaDraw(draw)
    ensures var d := AreaDistributionOf(meanNdvi, draw).cropDistribution;
      && (forall i :: 0 <= i < |d| ==> !RaisesKeyError(ToExportDistribution(d)[i].1))
      && (layer in ResultLayers(geometry, ToExportDistribution(d)) <==>
           geometry.Polygon? &&
           exists i :: 0 <= i < |d| && d[i].percentage > 5.0 &&
             layer == Layer(CROP_LABELS[i], CROP_COLORS[i], geometry, d[i].areaHa))
  {
    var d := AreaDistributionOf(meanNdvi, draw).cropDistribution;
    var e := ToExportDistribution(d);
    assert forall i :: 0 <= i < |e| ==>
      && (Drawn(e[i].1) <==> d[i].percentage > 5.0)
      && Layer(e[i].0, e[i].1.color.GetOr(""), geometry, e[i].1.areaHa.GetOr(0.0)) == Layer(CROP_LABELS[i], CROP_COLORS[i], geometry, d[i].areaHa);
    ResultLayersMembers(geometry, e, layer);
  }
}
