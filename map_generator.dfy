/** The map generator: the GeoJSON Feature export (section 3.2 of RFC 7946),
    the rows of the CSV export, and the choice of crop layers for the results
    map. Drawing and files are not modelled: the map is its list of layers,
    the CSV file its list of rows. */
module MapGenerator {
  import opened Common

  /** A `crop_distribution` entry as an export request carries it; any key may be missing. */
  datatype CropInfo = CropInfo(areaHa: Option<real>, percentage: Option<real>, color: Option<string>, confidence: Option<real>)

  /** A `crop_distribution` dictionary, in iteration order. */
  type Distribution = seq<(string, CropInfo)>

  // ---------------------------------------------------------------------
  // GeoJSON export
  // ---------------------------------------------------------------------

  /** `generate_geojson`: a Feature object around the geometry and the properties. */
  function GenerateGeojson(geometry: Json, properties: Json): (f: Json)
    ensures f.JObject?
    ensures Lookup(f.members, "type") == Some(JString("Feature"))
    ensures Lookup(f.members, "geometry") == Some(geometry)
    ensures Lookup(f.members, "properties") == Some(properties)
  {
    var members := [("type", JString("Feature")), ("geometry", geometry), ("properties", properties)];
    assert Lookup(members[1..][1..], "properties") == Some(properties);
    assert Lookup(members[1..], "properties") == Some(properties);
    JObject(members)
  }

  /** Reads a Feature object back: its geometry and properties, or `None`
      when the document is not an object of type Feature carrying both members. */
  function FeatureParts(f: Json): Option<(Json, Json)> {
    if !f.JObject? || Lookup(f.members, "type") != Some(JString("Feature")) then None
    else
      match (Lookup(f.members, "geometry"), Lookup(f.members, "properties"))
      case (Some(g), Some(p)) => Some((g, p))
      case _ => None
  }

  /** Reading the Feature back gives the geometry and the properties unchanged. */
  lemma GeojsonRoundTrip(geometry: Json, properties: Json)
    ensures FeatureParts(GenerateGeojson(geometry, properties)) == Some((geometry, properties))
  {
  }

  // ---------------------------------------------------------------------
  // CSV export
  // ---------------------------------------------------------------------

  /** A CSV cell before it is written out. */
  datatype Cell = Text(text: string) | Number(number: real)

  const CSV_HEADER: seq<Cell> := [Text("Crop Type"), Text("Area (Hectares)"), Text("Percentage"), Text("Confidence")]

  /** The row of one entry; a missing value is written as 0. */
  function CsvRow(name: string, info: CropInfo): seq<Cell> {
    [Text(name), Number(info.areaHa.GetOr(0.0)), Number(info.percentage.GetOr(0.0)), Number(info.confidence.GetOr(0.0))]
  }

  /** The rows `export_to_csv` writes: the header, then one row per entry in order. */
  function CsvTable(dist: Distribution): (rows: seq<seq<Cell>>)
    ensures |rows| == |dist| + 1 && rows[0] == CSV_HEADER
  {
    [CSV_HEADER] + seq(|dist|, i requires 0 <= i < |dist| => CsvRow(dist[i].0, dist[i].1))
  }

  /** `export_to_csv` writes the rows in a loop over the distribution. */
  method ExportToCsv(dist: Distribution) returns (rows: seq<seq<Cell>>)
    ensures rows == CsvTable(dist)
  {
    rows := [CSV_HEADER];
    for i := 0 to |dist|
      invariant |rows| == i + 1 && rows[0] == CSV_HEADER
      invariant forall j :: 0 <= j < i ==> rows[j + 1] == CsvRow(dist[j].0, dist[j].1)
    {
      var (name, info) := dist[i];
      rows := rows + [CsvRow(name, info)];
    }
  }

  /** A CSV body row read back as crop name, area, percentage and confidence. */
  function ParseCsvRow(row: seq<Cell>): Option<(string, real, real, real)> {
    if |row| == 4 && row[0].Text? && row[1].Number? && row[2].Number? && row[3].Number?
    then Some((row[0].text, row[1].number, row[2].number, row[3].number))
    else None
  }

  function ParseCsvBody(rows: seq<seq<Cell>>): Option<seq<(string, real, real, real)>> {
    if |rows| == 0 then Some([])
    else
      match (ParseCsvRow(rows[0]), ParseCsvBody(rows[1..]))
      case (Some(r), Some(rest)) => Some([r] + rest)
      case _ => None
  }

  /** Reads an exported CSV back: the header, then the body rows. */
  function ParseCsv(rows: seq<seq<Cell>>): Option<seq<(string, real, real, real)>> {
    if |rows| == 0 || rows[0] != CSV_HEADER then None else ParseCsvBody(rows[1..])
  }

  /** The values an entry is exported with. */
  function ExportedValues(entry: (string, CropInfo)): (string, real, real, real) {
    (entry.0, entry.1.areaHa.GetOr(0.0), entry.1.percentage.GetOr(0.0), entry.1.confidence.GetOr(0.0))
  }

  /** Reading the CSV back gives every entry's name and values, in order,
      with 0 for each missing value. */
  lemma CsvRoundTrip(dist: Distribution)
    ensures ParseCsv(CsvTable(dist)) == Some(seq(|dist|, i requires 0 <= i < |dist| => ExportedValues(dist[i])))
  {
    CsvBodyRoundTrip(dist);
    assert CsvTable(dist)[1..] == seq(|dist|, i requires 0 <= i < |dist| => CsvRow(dist[i].0, dist[i].1));
  }

  lemma {:induction false} CsvBodyRoundTrip(dist: Distribution)
    ensures ParseCsvBody(seq(|dist|, i requires 0 <= i < |dist| => CsvRow(dist[i].0, dist[i].1)))
         == Some(seq(|dist|, i requires 0 <= i < |dist| => ExportedValues(dist[i])))
  {
    var body := seq(|dist|, i requires 0 <= i < |dist| => CsvRow(dist[i].0, dist[i].1));
    var values := seq(|dist|, i requires 0 <= i < |dist| => ExportedValues(dist[i]));
    if |dist| == 0 {
      assert values == [];
    } else {
      var rest := dist[1..];
      CsvBodyRoundTrip(rest);
      assert ParseCsvRow(body[0]) == Some(ExportedValues(dist[0]));
      assert body[1..] == seq(|rest|, i requires 0 <= i < |rest| => CsvRow(rest[i].0, rest[i].1));
      assert values == [ExportedValues(dist[0])] + seq(|rest|, i requires 0 <= i < |rest| => ExportedValues(rest[i]));
    }
  }

  // ---------------------------------------------------------------------
  // Results map layers
  // ---------------------------------------------------------------------

  /** A `folium.GeoJson` layer: its name, its colour, the geometry it draws
      and the area its tooltip shows. */
  datatype Layer = Layer(name: string, color: string, geometry: Geometry, tooltipAreaHa: real)

  /** `add_crop_layer`: one layer more for a Polygon, the map unchanged otherwise. */
  function AddCropLayer(layers: seq<Layer>, geometry: Geometry, info: CropInfo, name: string, color: string): (r: seq<Layer>)
    ensures geometry.Polygon? ==> r == layers + [Layer(name, color, geometry, info.areaHa.GetOr(0.0))]
    ensures !geometry.Polygon? ==> r == layers
  {
    if geometry.Polygon? then layers + [Layer(name, color, geometry, info.areaHa.GetOr(0.0))] else layers
  }

  /** The loop of `create_results_map` raises a KeyError on this entry: it
      has no percentage, or it has one above 5 and no colour. */
  predicate RaisesKeyError(info: CropInfo) {
    info.percentage.None? || (info.percentage.value > 5.0 && info.color.None?)
  }

  /** An entry is drawn when its percentage is strictly above 5. */
  predicate Drawn(info: CropInfo) {
    info.percentage.Some? && info.percentage.value > 5.0
  }

  /** The layers of the results map, as a filter over the distribution: for a
      Polygon one layer per drawn entry, in order; none for other geometries. */
  function ResultLayers(geometry: Geometry, dist: Distribution): seq<Layer> {
    if |dist| == 0 then []
    else
      var (name, info) := dist[0];
      (if geometry.Polygon? && Drawn(info) then [Layer(name, info.color.GetOr(""), geometry, info.areaHa.GetOr(0.0))] else [])
      + ResultLayers(geometry, dist[1..])
  }

  lemma {:induction false} ResultLayersAppend(geometry: Geometry, dist: Distribution, entry: (string, CropInfo))
    ensures ResultLayers(geometry, dist + [entry]) ==
      ResultLayers(geometry, dist) +
      (if geometry.Polygon? && Drawn(entry.1) then [Layer(entry.0, entry.1.color.GetOr(""), geometry, entry.1.areaHa.GetOr(0.0))] else [])
  {
    if |dist| > 0 {
      assert (dist + [entry])[1..] == dist[1..] + [entry];
      ResultLayersAppend(geometry, dist[1..], entry);
    }
  }

  /** A layer is on the results map exactly when the geometry is a Polygon
      and the layer is that of a drawn entry. */
  lemma {:induction false} ResultLayersMembers(geometry: Geometry, dist: Distribution, layer: Layer)
    ensures layer in ResultLayers(geometry, dist) <==>
      geometry.Polygon? &&
      exists i :: 0 <= i < |dist| && Drawn(dist[i].1) &&
        layer == Layer(dist[i].0, dist[i].1.color.GetOr(""), geometry, dist[i].1.areaHa.GetOr(0.0))
  {
    if |dist| > 0 {
      ResultLayersMembers(geometry, dist[1..], layer);
      if geometry.Polygon? && layer in ResultLayers(geometry, dist[1..]) {
        var i :| 0 <= i < |dist[1..]| && Drawn(dist[1..][i].1) &&
          layer == Layer(dist[1..][i].0, dist[1..][i].1.color.GetOr(""), geometry, dist[1..][i].1.areaHa.GetOr(0.0));
        assert dist[i + 1] == dist[1..][i];
      }
      if geometry.Polygon? &&
         exists i :: 0 <= i < |dist| && Drawn(dist[i].1) &&
           layer == Layer(dist[i].0, dist[i].1.color.GetOr(""), geometry, dist[i].1.areaHa.GetOr(0.0))
      {
        var i :| 0 <= i < |dist| && Drawn(dist[i].1) &&
          layer == Layer(dist[i].0, dist[i].1.color.GetOr(""), geometry, dist[i].1.areaHa.GetOr(0.0));
        if i > 0 {
          assert dist[1..][i - 1] == dist[i];
        }
      }
    }
  }

  /** `create_results_map`: the crop layers it adds, or the KeyError its loop
      raises on the first entry without the keys it reads. */
  method CreateResultsMap(geometry: Geometry, dist: Distribution) returns (r: Result<seq<Layer>>)
    ensures r.Failure? <==> exists i :: 0 <= i < |dist| && RaisesKeyError(dist[i].1)
    ensures r.Success? ==> r.value == ResultLayers(geometry, dist)
  {
    var layers: seq<Layer> := [];
    for i := 0 to |dist|
      invariant forall j :: 0 <= j < i ==> !RaisesKeyError(dist[j].1)
      invariant layers == ResultLayers(geometry, dist[..i])
    {
      var (name, info) := dist[i];
      if info.percentage.None? {
        return Failure("KeyError: 'percentage'");
      }
      if info.percentage.value > 5.0 {
        if info.color.None? {
          return Failure("KeyError: 'color'");
        }
        layers := AddCropLayer(layers, geometry, info, name, info.color.value);
      }
      assert dist[..i + 1] == dist[..i] + [dist[i]];
      ResultLayersAppend(geometry, dist[..i], dist[i]);
    }
    assert dist[..|dist|] == dist;
    r := Success(layers);
  }
}
