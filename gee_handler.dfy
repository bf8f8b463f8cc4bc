/** The Earth Engine handler: credential choice, the `initialized` guard, the
    demo NDVI record, the fallback chain of the live record, the geometry
    dispatch and the six-element feature vector. The remote calls themselves
    are parameters: what they returned, or `None` when one of them raised. */
module Gee {
  import opened Common

  /** The credentials `initialize_gee` hands to `ee.Initialize`. */
  datatype Credentials = ServiceAccountCredentials(account: string, key: string) | DefaultCredentials

  /** The Earth Engine geometry a request geometry is converted to. */
  datatype EeGeometry = EePolygon(ring: seq<Position>) | EePoint(position: Position) | EeRectangle(coords: seq<real>)

  /** Today's date and the date 90 days earlier, as `YYYY-MM-DD` strings. */
  datatype Clock = Clock(today: string, ninetyDaysAgo: string)

  /** The draws of `_generate_demo_ndvi_data`: `random.uniform(0.4, 0.7)` and `random.randint(5, 15)`. */
  datatype DemoDraw = DemoDraw(base: real, imageCount: int)

  predicate ValidDemoDraw(d: DemoDraw) {
    0.4 <= d.base <= 0.7 && 5 <= d.imageCount <= 15
  }

  /** What the three `reduceRegion(...).getInfo()` calls and the collection
      size returned. */
  datatype LiveStats = LiveStats(median: map<string, real>, lower: map<string, real>, upper: map<string, real>, imageCount: int)

  /** The NDVI dictionary; `demo_mode` is a key only the demo record carries. */
  datatype NdviRecord = NdviRecord(
    success: bool,
    demoMode: Option<bool>,
    meanNdvi: real,
    percentile25: real,
    percentile50: real,
    percentile75: real,
    imageCount: Option<int>,
    startDate: string,
    endDate: string)

  const DEFAULT_BBOX: seq<real> := [0.0, 0.0, 1.0, 1.0]

  /** A service account is used exactly when both environment variables are
      set and non-empty; otherwise the default credentials are. */
  function ChooseCredentials(serviceAccount: Option<string>, privateKey: Option<string>): (c: Credentials)
    ensures c.ServiceAccountCredentials? <==> Truthy(serviceAccount) && Truthy(privateKey)
    ensures c.ServiceAccountCredentials? ==> c.account == serviceAccount.value && c.key == privateKey.value
  {
    if Truthy(serviceAccount) && Truthy(privateKey) then ServiceAccountCredentials(serviceAccount.value, privateKey.value)
    else DefaultCredentials
  }

  /** `_convert_to_ee_geometry`: a Polygon keeps only its first (exterior)
      ring, a Point its position, anything else becomes its `bbox` rectangle
      (by default the unit square). A Polygon without rings raises. */
  function ConvertToEeGeometry(g: Geometry): (r: Option<EeGeometry>)
    ensures r.None? <==> g.Polygon? && |g.rings| == 0
    ensures r.Some? && g.Polygon? ==> r.value == EePolygon(g.rings[0])
    ensures g.Point? ==> r == Some(EePoint(g.position))
    ensures g.OtherGeometry? ==> r == Some(EeRectangle(g.bbox.GetOr(DEFAULT_BBOX)))
  {
    match g
    case Polygon(rings) => if |rings| == 0 then None else Some(EePolygon(rings[0]))
    case Point(position) => Some(EePoint(position))
    case OtherGeometry(_, bbox) => Some(EeRectangle(bbox.GetOr(DEFAULT_BBOX)))
  }

  /** `_generate_demo_ndvi_data`: a record tagged as demo data, with the
      quartiles 0.15 either side of the drawn mean, clamped to [0.1, 0.9],
      dated over the last 90 days whatever window was asked for. */
  function DemoNdviData(draw: DemoDraw, clock: Clock): (r: NdviRecord)
    requires ValidDemoDraw(draw)
    ensures r.success && r.demoMode == Some(true)
    ensures r.meanNdvi == r.percentile50 == draw.base
    ensures r.percentile25 == Max(0.1, draw.base - 0.15) >= 0.1
    ensures r.percentile75 == Min(0.9, draw.base + 0.15) <= 0.9
    ensures r.percentile25 <= r.percentile50 <= r.percentile75
    ensures r.imageCount.Some? && 5 <= r.imageCount.value <= 15
    ensures r.startDate == clock.ninetyDaysAgo && r.endDate == clock.today
  {
    NdviRecord(
      true, Some(true), draw.base, Max(0.1, draw.base - 0.15), draw.base, Min(0.9, draw.base + 0.15),
      Some(draw.imageCount), clock.ninetyDaysAgo, clock.today)
  }

  /** `dict.get(key, default)` on a statistics dictionary. */
  function Get(m: map<string, real>, key: string, default: real): real {
    if key in m then m[key] else default
  }

  /** The live record: the mean defaults to 0.5; each quartile is its
      percentile band, else the plain `NDVI` band, else the mean -/+ 0.15;
      the median is reported as the mean. */
  function LiveNdviData(stats: LiveStats, startDate: string, endDate: string): (r: NdviRecord)
    ensures r.success && r.demoMode.None?
    ensures r.meanNdvi == (if "NDVI" in stats.median then stats.median["NDVI"] else 0.5)
    ensures r.percentile50 == r.meanNdvi
    ensures r.percentile25 ==
      if "NDVI_p25" in stats.lower then stats.lower["NDVI_p25"]
      else if "NDVI" in stats.lower then stats.lower["NDVI"]
      else r.meanNdvi - 0.15
    ensures r.percentile75 ==
      if "NDVI_p75" in stats.upper then stats.upper["NDVI_p75"]
      else if "NDVI" in stats.upper then stats.upper["NDVI"]
      else r.meanNdvi + 0.15
    ensures r.imageCount == Some(stats.imageCount)
    ensures r.startDate == startDate && r.endDate == endDate
  {
    var mean := Get(stats.median, "NDVI", 0.5);
    var p25 := Get(stats.lower, "NDVI_p25", Get(stats.lower, "NDVI", mean - 0.15));
    var p75 := Get(stats.upper, "NDVI_p75", Get(stats.upper, "NDVI", mean + 0.15));
    NdviRecord(true, None, mean, p25, mean, p75, Some(stats.imageCount), startDate, endDate)
  }

  /** `get_ndvi_features`: mean, the three quartiles, the interquartile
      range, and the image count in tens (10 images when the count is missing). */
  function FeatureVector(ndvi: NdviRecord): (f: seq<real>)
    ensures |f| == 6
    ensures f[0] == ndvi.meanNdvi && f[1] == ndvi.percentile25 && f[2] == ndvi.percentile50 && f[3] == ndvi.percentile75
    ensures f[4] == f[3] - f[1]
    ensures ndvi.imageCount.None? ==> f[5] == 1.0
    ensures ndvi.imageCount.Some? ==> f[5] * 10.0 == ndvi.imageCount.value as real
  {
    [ ndvi.meanNdvi,
      ndvi.percentile25,
      ndvi.percentile50,
      ndvi.percentile75,
      ndvi.percentile75 - ndvi.percentile25,
      ndvi.imageCount.GetOr(10) as real / 10.0 ]
  }

  /** The demo features fall in the ranges the classifier is trained on:
      quartiles ordered, an interquartile range of exactly 0.3, and an
      image-count feature within [0.5, 1.5]. */
  lemma DemoFeaturesInTrainingRange(draw: DemoDraw, clock: Clock)
    requires ValidDemoDraw(draw)
    ensures var f := FeatureVector(DemoNdviData(draw, clock));
      && f[1] <= f[2] <= f[3]
      && f[4] == 0.3
      && 0.5 <= f[5] <= 1.5
  {
    var f := FeatureVector(DemoNdviData(draw, clock));
    assert f[5] * 10.0 == draw.imageCount as real;
  }

  class GeeHandler {
    var initialized: bool

    /** Starts uninitialised, then runs `initialize_gee`. */
    constructor (serviceAccount: Option<string>, privateKey: Option<string>, eeInitialize: Credentials -> bool)
      ensures initialized == eeInitialize(ChooseCredentials(serviceAccount, privateKey))
    {
      initialized := false;
      new;
      InitializeGee(serviceAccount, privateKey, eeInitialize);
    }

    /** `eeInitialize(c)` tells whether `ee.Initialize` with credentials `c`
        succeeded; the handler is initialised exactly then. */
    method InitializeGee(serviceAccount: Option<string>, privateKey: Option<string>, eeInitialize: Credentials -> bool)
      modifies this
      ensures initialized == eeInitialize(ChooseCredentials(serviceAccount, privateKey))
    {
      var credentials := ChooseCredentials(serviceAccount, privateKey);
      initialized := eeInitialize(credentials);
    }

    /** `get_sentinel2_ndvi`. `live` is what the Earth Engine queries gave,
        `None` when one of them raised. The demo record is returned when the
        handler is not initialised, when the geometry cannot be converted, or
        when a query raised; and only then is the record tagged as demo. */
    function GetSentinel2Ndvi(
      geometry: Geometry, startDate: Option<string>, endDate: Option<string>,
      clock: Clock, live: Option<LiveStats>, demo: DemoDraw): (r: NdviRecord)
      reads this
      requires ValidDemoDraw(demo)
      ensures r.demoMode.Some? <==> !initialized || ConvertToEeGeometry(geometry).None? || live.None?
      ensures !initialized ==> r == DemoNdviData(demo, clock)
      ensures r.demoMode.Some? ==> r == DemoNdviData(demo, clock) && r.demoMode == Some(true)
      ensures r.demoMode.None? ==> r == LiveNdviData(
        live.value,
        if Truthy(startDate) then startDate.value else clock.ninetyDaysAgo,
        if Truthy(endDate) then endDate.value else clock.today)
    {
      if !initialized then DemoNdviData(demo, clock)
      else
        var end := if Truthy(endDate) then endDate.value else clock.today;
        var start := if Truthy(startDate) then startDate.value else clock.ninetyDaysAgo;
        match ConvertToEeGeometry(geometry)
        case None => DemoNdviData(demo, clock)
        case Some(_) =>
          match live
          case None => DemoNdviData(demo, clock)
          case Some(stats) => LiveNdviData(stats, start, end)
    }

    /** `get_ndvi_features`: the feature vector of the record it fetched,
        and that record unchanged. */
    function GetNdviFeatures(
      geometry: Geometry, startDate: Option<string>, endDate: Option<string>,
      clock: Clock, live: Option<LiveStats>, demo: DemoDraw): (r: (seq<real>, NdviRecord))
      reads this
      requires ValidDemoDraw(demo)
      ensures r.1 == GetSentinel2Ndvi(geometry, startDate, endDate, clock, live, demo)
      ensures r.0 == FeatureVector(r.1)
    {
      var ndvi := GetSentinel2Ndvi(geometry, startDate, endDate, clock, live, demo);
      (FeatureVector(ndvi), ndvi)
    }
  }

  /** An uninitialised handler always yields the demo record, and its features
      are the demo features. */
  lemma UninitializedHandlerUsesDemoData(
    h: GeeHandler, geometry: Geometry, startDate: Option<string>, endDate: Option<string>,
    clock: Clock, live: Option<LiveStats>, demo: DemoDraw)
    requires ValidDemoDraw(demo) && !h.initialized
    ensures var r := h.GetNdviFeatures(geometry, startDate, endDate, clock, live, demo);
      && r.1.demoMode == Some(true)
      && r.1 == DemoNdviData(demo, clock)
      && r.0 == FeatureVector(DemoNdviData(demo, clock))
  {
  }
}
