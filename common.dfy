/** Value types shared by the handlers: optional dictionary entries, the
    GeoJSON geometry a request carries, JSON documents, and exact sums of reals. */
module Common {

  /** A dictionary entry that may be absent. */
  datatype Option<+T> = None | Some(value: T) {
    /** The entry, or `default` when it is absent (Python's `dict.get(key, default)`). */
    function GetOr(default: T): T {
      match this
      case Some(v) => v
      case None => default
    }
  }

  /** A computation that either yields a value or raises. */
  datatype Result<+R> = Success(value: R) | Failure(error: string)

  /** Python truthiness of an optional string: present and not empty. */
  predicate Truthy(s: Option<string>) {
    s.Some? && s.value != ""
  }

  function Max(a: real, b: real): real {
    if a >= b then a else b
  }

  function Min(a: real, b: real): real {
    if a <= b then a else b
  }

  /** A GeoJSON position: longitude, latitude and optional further numbers. */
  type Position = seq<real>

  /** A GeoJSON `type` name other than the two the handlers dispatch on. */
  type OtherKind = k: string | k != "Polygon" && k != "Point" witness "LineString"

  /** A GeoJSON geometry as the analysis request carries it. The handlers
      only tell a Polygon and a Point apart; every other `type` name is kept
      with the optional `bbox` member. */
  datatype Geometry =
    | Polygon(rings: seq<seq<Position>>)
    | Point(position: Position)
    | OtherGeometry(kind: OtherKind, bbox: Option<seq<real>>)

  /** A JSON document; an object keeps its members in insertion order. */
  datatype Json =
    | JNull
    | JBool(b: bool)
    | JNumber(n: real)
    | JString(s: string)
    | JArray(items: seq<Json>)
    | JObject(members: seq<(string, Json)>)

  /** The value of the first member called `key`. */
  function Lookup(members: seq<(string, Json)>, key: string): (r: Option<Json>)
    ensures r.Some? <==> exists i :: 0 <= i < |members| && members[i].0 == key
  {
    if |members| == 0 then None
    else if members[0].0 == key then Some(members[0].1)
    else Lookup(members[1..], key)
  }

  function Sum(s: seq<real>): real {
    if |s| == 0 then 0.0 else s[0] + Sum(s[1..])
  }

  /** Every element multiplied by `k`. */
  function Scale(s: seq<real>, k: real): (r: seq<real>)
    ensures |r| == |s|
  {
    if |s| == 0 then [] else [s[0] * k] + Scale(s[1..], k)
  }

  /** Element `i` of the scaled sequence is element `i` times `k`. */
  lemma {:induction false} ScaleIndex(s: seq<real>, k: real, i: nat)
    requires i < |s|
    ensures Scale(s, k)[i] == s[i] * k
  {
    if i > 0 {
      ScaleIndex(s[1..], k, i - 1);
    }
  }

  /** Scaling every element scales the sum. */
  lemma {:induction false} SumScale(s: seq<real>, k: real)
    ensures Sum(Scale(s, k)) == Sum(s) * k
  {
    if |s| > 0 {
      SumScale(s[1..], k);
      assert Scale(s, k)[1..] == Scale(s[1..], k);
    }
  }

  /** Dividing every element by `d` divides the sum by `d`. */
  lemma {:induction false} SumDivided(s: seq<real>, t: seq<real>, d: real)
    requires d != 0.0
    requires |t| == |s|
    requires forall i :: 0 <= i < |s| ==> t[i] == s[i] / d
    ensures Sum(t) == Sum(s) / d
  {
    if |s| > 0 {
      SumDivided(s[1..], t[1..], d);
      assert t[0] + Sum(s[1..]) / d == (s[0] + Sum(s[1..])) / d;
    }
  }

  /** A non-empty sequence of positive reals has a positive sum. */
  lemma {:induction false} SumPositive(s: seq<real>)
    requires |s| > 0
    requires forall i :: 0 <= i < |s| ==> s[i] > 0.0
    ensures Sum(s) > 0.0
  {
    if |s| > 1 {
      SumPositive(s[1..]);
    }
  }
}
