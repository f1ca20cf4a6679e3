/**
  The geometry, camera, symbol, indoor and line-string conversions of
  `MapTypeConverter.swift`. The map SDK's record types appear here as plain
  datatypes holding exactly the fields the converter reads and writes; their
  numbers are copied, never computed with.
 */
module Objects {
  import opened Values

  /* ---------- Points ---------- */

  datatype LatLng = LatLng(lat: real, lng: real)

  /**
    `asLatLng`: a dictionary of doubles holding `lat` and `lng`. Any other key is
    allowed but must also hold a double; a missing key is a failure.
   */
  function AsLatLng(v: Value): (r: Result<LatLng>)
    ensures r.Ok? <==>
      && v.Dict?
      && (forall k | k in v.entries :: v.entries[k].Double?)
      && "lat" in v.entries && "lng" in v.entries
    ensures r.Ok? ==> r.value == LatLng(v.entries["lat"].d, v.entries["lng"].d)
  {
    var d :- AsDictOf(v, AsDouble);
    var lat :- Lookup(d, "lat");
    var lng :- Lookup(d, "lng");
    Ok(LatLng(lat, lng))
  }

  /** `NMGLatLng.toDict`. */
  function LatLngToDict(p: LatLng): (r: map<string, Value>)
    ensures r.Keys == {"lat", "lng"}
  {
    map["lat" := Double(p.lat), "lng" := Double(p.lng)]
  }

  lemma LatLngRoundTrip(p: LatLng)
    ensures AsLatLng(Dict(LatLngToDict(p))) == Ok(p)
  {
  }

  /** A dictionary without `lat` or without `lng` does not decode to any point. */
  lemma LatLngMissingKey(entries: map<string, Value>)
    requires "lat" !in entries || "lng" !in entries
    ensures AsLatLng(Dict(entries)).Err?
  {
  }

  /* ---------- Bounds ---------- */

  datatype LatLngBounds = LatLngBounds(southWest: LatLng, northEast: LatLng)

  /** `asLatLngBounds`: every value must be a point; `southWest` and `northEast` are required. */
  function AsLatLngBounds(v: Value): (r: Result<LatLngBounds>)
    ensures r.Ok? <==>
      && v.Dict?
      && (forall k | k in v.entries :: AsLatLng(v.entries[k]).Ok?)
      && "southWest" in v.entries && "northEast" in v.entries
    ensures r.Ok? ==>
      && Ok(r.value.southWest) == AsLatLng(v.entries["southWest"])
      && Ok(r.value.northEast) == AsLatLng(v.entries["northEast"])
  {
    var d :- AsDictOf(v, AsLatLng);
    var sw :- Lookup(d, "southWest");
    var ne :- Lookup(d, "northEast");
    Ok(LatLngBounds(sw, ne))
  }

  /** `NMGLatLngBounds.toDict`. */
  function BoundsToDict(b: LatLngBounds): (r: map<string, Value>)
    ensures r.Keys == {"southWest", "northEast"}
  {
    map["southWest" := Dict(LatLngToDict(b.southWest)), "northEast" := Dict(LatLngToDict(b.northEast))]
  }

  lemma BoundsRoundTrip(b: LatLngBounds)
    ensures AsLatLngBounds(Dict(BoundsToDict(b))) == Ok(b)
  {
  }

  lemma BoundsMissingKey(entries: map<string, Value>)
    requires "southWest" !in entries || "northEast" !in entries
    ensures AsLatLngBounds(Dict(entries)).Err?
  {
  }

  /* ---------- Camera position ---------- */

  /** `NMFCameraPosition`; the SDK calls the bearing `heading`. */
  datatype CameraPosition = CameraPosition(target: LatLng, zoom: real, tilt: real, heading: real)

  /** `asCameraPosition`: `target`, `zoom`, `tilt` and `bearing` are all required. */
  function AsCameraPosition(v: Value): (r: Result<CameraPosition>)
    ensures r.Ok? <==>
      && v.Dict?
      && "target" in v.entries && AsLatLng(v.entries["target"]).Ok?
      && "zoom" in v.entries && v.entries["zoom"].Double?
      && "tilt" in v.entries && v.entries["tilt"].Double?
      && "bearing" in v.entries && v.entries["bearing"].Double?
    ensures r.Ok? ==>
      && Ok(r.value.target) == AsLatLng(v.entries["target"])
      && r.value.zoom == v.entries["zoom"].d
      && r.value.tilt == v.entries["tilt"].d
      && r.value.heading == v.entries["bearing"].d
  {
    var d :- AsDict(v);
    var t :- Lookup(d, "target");
    var target :- AsLatLng(t);
    var z :- Lookup(d, "zoom");
    var zoom :- AsDouble(z);
    var tl :- Lookup(d, "tilt");
    var tilt :- AsDouble(tl);
    var h :- Lookup(d, "bearing");
    var heading :- AsDouble(h);
    Ok(CameraPosition(target, zoom, tilt, heading))
  }

  /** `NMFCameraPosition.toDict`: the heading travels under the key `bearing`. */
  function CameraToDict(c: CameraPosition): (r: map<string, Value>)
    ensures r.Keys == {"target", "zoom", "tilt", "bearing"}
    ensures "heading" !in r
  {
    map[
      "target" := Dict(LatLngToDict(c.target)),
      "zoom" := Double(c.zoom),
      "tilt" := Double(c.tilt),
      "bearing" := Double(c.heading)
    ]
  }

  lemma CameraRoundTrip(c: CameraPosition)
    ensures AsCameraPosition(Dict(CameraToDict(c))) == Ok(c)
  {
  }

  lemma CameraMissingKey(entries: map<string, Value>)
    requires "target" !in entries || "zoom" !in entries || "tilt" !in entries || "bearing" !in entries
    ensures AsCameraPosition(Dict(entries)).Err?
  {
  }

  /* ---------- Symbol ---------- */

  /** `NMFSymbol`; `hash` is the SDK object's opaque identity. */
  datatype Symbol = Symbol(caption: Option<string>, position: LatLng, hash: int)

  /** The caption as sent: an absent caption becomes the empty string. */
  function CaptionText(s: Symbol): string {
    match s.caption
    case Some(c) => c
    case None => ""
  }

  /** `NMFSymbol.toDict`. */
  function SymbolToDict(s: Symbol): (r: map<string, Value>)
    ensures r.Keys == {"caption", "position", "hashCode"}
    ensures s.caption.None? ==> r["caption"] == Str("")
    ensures s.caption.Some? ==> r["caption"] == Str(s.caption.value)
    ensures AsLatLng(r["position"]) == Ok(s.position)
    ensures r["hashCode"] == Int(s.hash)
  {
    LatLngRoundTrip(s.position);
    map["caption" := Str(CaptionText(s)), "position" := Dict(LatLngToDict(s.position)), "hashCode" := Int(s.hash)]
  }

  /**
    Two symbols encode alike exactly when they agree on position, identity and
    caption text: the encoding loses only the difference between an absent
    caption and an empty one.
   */
  lemma SymbolToDictEqual(a: Symbol, b: Symbol)
    ensures SymbolToDict(a) == SymbolToDict(b) <==>
      CaptionText(a) == CaptionText(b) && a.position == b.position && a.hash == b.hash
  {
  }

  lemma SymbolAbsentCaptionIsEmpty(p: LatLng, h: int)
    ensures SymbolToDict(Symbol(None, p, h)) == SymbolToDict(Symbol(Some(""), p, h))
  {
  }

  /* ---------- Indoor maps ---------- */

  /** `NMFIndoorLevel`; `hash` is the SDK object's opaque identity. */
  datatype IndoorLevel = IndoorLevel(name: string, hash: int)

  datatype IndoorZone = IndoorZone(zoneId: string, defaultLevelIndex: int, levels: seq<IndoorLevel>)

  datatype IndoorRegion = IndoorRegion(zones: seq<IndoorZone>)

  datatype IndoorSelection = IndoorSelection(levelIndex: int, zoneIndex: int, region: IndoorRegion)

  /** `NMFIndoorLevel.toDict`. */
  function LevelToDict(l: IndoorLevel): (r: map<string, Value>)
    ensures r.Keys == {"name", "hashCode"}
    ensures r["name"] == Str(l.name) && r["hashCode"] == Int(l.hash)
  {
    map["name" := Str(l.name), "hashCode" := Int(l.hash)]
  }

  /** `NMFIndoorZone.toDict`: one level dictionary per level, in order. */
  function ZoneToDict(z: IndoorZone): (r: map<string, Value>)
    ensures r.Keys == {"id", "defaultLevelIndex", "levels"}
    ensures r["id"] == Str(z.zoneId) && r["defaultLevelIndex"] == Int(z.defaultLevelIndex)
    ensures r["levels"].Arr? && |r["levels"].items| == |z.levels|
    ensures forall i | 0 <= i < |z.levels| :: r["levels"].items[i] == Dict(LevelToDict(z.levels[i]))
  {
    map[
      "id" := Str(z.zoneId),
      "defaultLevelIndex" := Int(z.defaultLevelIndex),
      "levels" := Arr(seq(|z.levels|, i requires 0 <= i < |z.levels| => Dict(LevelToDict(z.levels[i]))))
    ]
  }

  /** `NMFIndoorRegion.toDict`: one zone dictionary per zone, in order. */
  function RegionToDict(g: IndoorRegion): (r: map<string, Value>)
    ensures r.Keys == {"zones"}
    ensures r["zones"].Arr? && |r["zones"].items| == |g.zones|
    ensures forall i | 0 <= i < |g.zones| :: r["zones"].items[i] == Dict(ZoneToDict(g.zones[i]))
  {
    map["zones" := Arr(seq(|g.zones|, i requires 0 <= i < |g.zones| => Dict(ZoneToDict(g.zones[i]))))]
  }

  /** `NMFIndoorSelection.toDict`. */
  function SelectionToDict(s: IndoorSelection): (r: map<string, Value>)
    ensures r.Keys == {"levelIndex", "zoneIndex", "region"}
    ensures r["levelIndex"] == Int(s.levelIndex) && r["zoneIndex"] == Int(s.zoneIndex)
    ensures r["region"] == Dict(RegionToDict(s.region))
  {
    map["levelIndex" := Int(s.levelIndex), "zoneIndex" := Int(s.zoneIndex), "region" := Dict(RegionToDict(s.region))]
  }

  /** The level encoding loses nothing: distinct levels give distinct dictionaries. */
  lemma LevelToDictInjective(a: IndoorLevel, b: IndoorLevel)
    requires LevelToDict(a) == LevelToDict(b)
    ensures a == b
  {
  }

  lemma ZoneToDictInjective(a: IndoorZone, b: IndoorZone)
    requires ZoneToDict(a) == ZoneToDict(b)
    ensures a == b
  {
  }

  lemma RegionToDictInjective(a: IndoorRegion, b: IndoorRegion)
    requires RegionToDict(a) == RegionToDict(b)
    ensures a == b
  {
    assert RegionToDict(a)["zones"] == RegionToDict(b)["zones"];
    forall i | 0 <= i < |a.zones|
      ensures a.zones[i] == b.zones[i]
    {
      ZoneToDictInjective(a.zones[i], b.zones[i]);
    }
  }

  lemma SelectionToDictInjective(a: IndoorSelection, b: IndoorSelection)
    requires SelectionToDict(a) == SelectionToDict(b)
    ensures a == b
  {
    assert SelectionToDict(a)["levelIndex"] == SelectionToDict(b)["levelIndex"];
    assert SelectionToDict(a)["zoneIndex"] == SelectionToDict(b)["zoneIndex"];
    assert SelectionToDict(a)["region"] == SelectionToDict(b)["region"];
    RegionToDictInjective(a.region, b.region);
  }

  /* ---------- Line string ---------- */

  datatype LineString = LineString(points: seq<LatLng>)

  /** `asNMGLineString`: an array of points, decoded in order. */
  function AsLineString(v: Value): (r: Result<LineString>)
    ensures r.Ok? <==> v.Arr? && forall i | 0 <= i < |v.items| :: AsLatLng(v.items[i]).Ok?
    ensures r.Ok? ==> |r.value.points| == |v.items|
    ensures r.Ok? ==> forall i | 0 <= i < |v.items| :: AsLatLng(v.items[i]) == Ok(r.value.points[i])
  {
    var points :- AsArrOf(v, AsLatLng);
    Ok(LineString(points))
  }

  /** `latLngPoints`: the points of the line string, in order. */
  function LatLngPoints(l: LineString): (r: seq<LatLng>)
    ensures |r| == |l.points|
    ensures forall i | 0 <= i < |r| :: r[i] == l.points[i]
  {
    l.points
  }

  lemma EmptyLineString()
    ensures AsLineString(Arr([])) == Ok(LineString([]))
  {
  }

  /** Sending points as an array of point dictionaries gives them back, in order. */
  lemma LineStringRoundTrip(points: seq<LatLng>)
    ensures var v := Arr(seq(|points|, i requires 0 <= i < |points| => Dict(LatLngToDict(points[i]))));
      AsLineString(v).Ok? && LatLngPoints(AsLineString(v).value) == points
  {
  }
}
