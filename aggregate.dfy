/**
 * The body of the pipeline: clip every collected road to the disk piece by piece, sum
 * the road surface, accumulate building area per type, and assemble the metrics record.
 */
module Aggregate {
  import opened Wrappers
  import opened Seqs
  import opened Projection
  import opened Features

  // ---------------------------------------------------------------------------
  // Road clipping

  /** One entry of the road details list: one clipped piece of a road, carrying the
      road's width, the source label shown for it, its class and its name. */
  datatype RoadDetail = RoadDetail(length: NonNeg, width: real, source: WidthSource,
                                   highway: string, name: string)

  /** The label shown for a clipped piece: a width that is at least 3 m but came from
      the class table is shown as "osm". */
  function PromoteSource(source: WidthSource, width: real): (s: WidthSource)
    ensures s == Lanes <==> source == Lanes
    ensures s == Fallback <==> source == Fallback && width < MinTaggedWidth
    ensures s == Osm <==> source == Osm || (source == Fallback && width >= MinTaggedWidth)
  {
    match source
    case Osm => Osm
    case Lanes => Lanes
    case Fallback => if width >= MinTaggedWidth then Osm else Fallback
  }

  /** `clipped.is_empty or clipped.length < 1`: less than a metre of the road lies
      inside the disk, so the road is skipped. */
  predicate ClippedAway(road: Road): (r: bool)
    ensures r <==> Sum(road.pieces) < 1.0
  {
    |road.pieces| == 0 || Sum(road.pieces) < 1.0
  }

  /** The clipped length of a road, the sum of its pieces, is never negative, so a
      skipped road lies less than a metre inside the disk and a kept one at least a metre. */
  lemma ClippedLength(road: Road)
    ensures 0.0 <= Sum(road.pieces)
    ensures ClippedAway(road) <==> Sum(road.pieces) < 1.0
  {
    SumNonNegative(road.pieces);
  }

  /** The detail record for one clipped piece of `road`. */
  function PieceDetail(road: Road, piece: NonNeg): RoadDetail {
    RoadDetail(piece, road.width.metres, PromoteSource(road.width.source, road.width.metres),
               road.highway, road.name)
  }

  /** The detail records for the given pieces of `road`, in order. */
  function PieceDetails(road: Road, pieces: seq<NonNeg>): (ds: seq<RoadDetail>)
    ensures |ds| == |pieces|
  {
    if pieces == [] then []
    else PieceDetails(road, pieces[..|pieces| - 1]) + [PieceDetail(road, pieces[|pieces| - 1])]
  }

  /** The surface the road loop adds for the given pieces: `seg_len * width` for each
      piece, skipped when the width is 0 or the piece has no length. */
  function PiecesArea(pieces: seq<NonNeg>, width: real): real {
    if pieces == [] then 0.0
    else
      var seg := pieces[|pieces| - 1];
      PiecesArea(pieces[..|pieces| - 1], width) + (if width != 0.0 && seg > 0.0 then seg * width else 0.0)
  }

  /** The detail records one road contributes. */
  function RoadDetails(road: Road): seq<RoadDetail> {
    if ClippedAway(road) then [] else PieceDetails(road, road.pieces)
  }

  /** The road surface one road contributes. */
  function RoadSurface(road: Road): real {
    if ClippedAway(road) then 0.0 else PiecesArea(road.pieces, road.width.metres)
  }

  /** `road_details` after the loop over `roads`. */
  function Details(roads: seq<Road>): seq<RoadDetail> {
    if roads == [] then [] else Details(roads[..|roads| - 1]) + RoadDetails(roads[|roads| - 1])
  }

  /** `road_area_total` after the loop over `roads`. */
  function RoadArea(roads: seq<Road>): real {
    if roads == [] then 0.0 else RoadArea(roads[..|roads| - 1]) + RoadSurface(roads[|roads| - 1])
  }

  /** The inner loop over the pieces of one clipped road: each piece adds its surface
      to the running total and appends one detail record. */
  method AddPieces(road: Road, areaSoFar: real, detailsSoFar: seq<RoadDetail>)
    returns (roadArea: real, details: seq<RoadDetail>)
    ensures roadArea == areaSoFar + PiecesArea(road.pieces, road.width.metres)
    ensures details == detailsSoFar + PieceDetails(road, road.pieces)
  {
    var width := road.width.metres;
    var source := road.width.source;
    var segments := road.pieces;
    roadArea, details := areaSoFar, detailsSoFar;
    for j := 0 to |segments|
      invariant roadArea == areaSoFar + PiecesArea(segments[..j], width)
      invariant details == detailsSoFar + PieceDetails(road, segments[..j])
    {
      assert segments[..j + 1][..j] == segments[..j];
      var segLen := segments[j];
      if width != 0.0 && segLen > 0.0 {
        roadArea := roadArea + segLen * width;
      }
      var finalSource := PromoteSource(source, width);
      details := details + [RoadDetail(segLen, width, finalSource, road.highway, road.name)];
    }
    assert segments[..|segments|] == segments;
  }

  /** The road clipping loop: every road still present after clipping yields one detail
      record per piece, and its pieces add their surface to the total. */
  method ClipRoads(roads: seq<Road>) returns (roadArea: real, details: seq<RoadDetail>)
    ensures roadArea == RoadArea(roads)
    ensures details == Details(roads)
  {
    roadArea := 0.0;
    details := [];
    for i := 0 to |roads|
      invariant roadArea == RoadArea(roads[..i])
      invariant details == Details(roads[..i])
    {
      assert roads[..i + 1][..i] == roads[..i];
      var rd := roads[i];
      if |rd.pieces| == 0 || Sum(rd.pieces) < 1.0 {
        continue;
      }
      roadArea, details := AddPieces(rd, roadArea, details);
    }
    assert roads[..|roads|] == roads;
  }

  /** The surface of a list of detail records: length times width, summed. */
  function DetailArea(details: seq<RoadDetail>): real {
    if details == [] then 0.0
    else DetailArea(details[..|details| - 1]) + details[|details| - 1].length * details[|details| - 1].width
  }

  lemma {:induction false} DetailAreaAppend(a: seq<RoadDetail>, b: seq<RoadDetail>)
    ensures DetailArea(a + b) == DetailArea(a) + DetailArea(b)
  {
    if b == [] {
      assert a + b == a;
    } else {
      var b' := b[..|b| - 1];
      assert (a + b)[..|a + b| - 1] == a + b';
      assert (a + b)[|a + b| - 1] == b[|b| - 1];
      DetailAreaAppend(a, b');
    }
  }

  lemma {:induction false} PiecesAreaIsDetailArea(road: Road, pieces: seq<NonNeg>)
    ensures PiecesArea(pieces, road.width.metres) == DetailArea(PieceDetails(road, pieces))
  {
    if pieces != [] {
      var p := pieces[..|pieces| - 1];
      PiecesAreaIsDetailArea(road, p);
      var ds := PieceDetails(road, pieces);
      assert ds[..|ds| - 1] == PieceDetails(road, p);
    }
  }

  /** The road surface total is exactly the sum of length times width over the detail
      records: pieces the loop skips for having no length would add nothing anyway. */
  lemma {:induction false} RoadAreaIsDetailArea(roads: seq<Road>)
    ensures RoadArea(roads) == DetailArea(Details(roads))
  {
    if roads != [] {
      var rs := roads[..|roads| - 1];
      var last := roads[|roads| - 1];
      RoadAreaIsDetailArea(rs);
      DetailAreaAppend(Details(rs), RoadDetails(last));
      if !ClippedAway(last) {
        PiecesAreaIsDetailArea(last, last.pieces);
      }
    }
  }

  /** Every piece of one road carries that road's width, class and name, with the
      road's source label after promotion. */
  lemma {:induction false} PieceDetailsOfRoad(road: Road, pieces: seq<NonNeg>)
    ensures forall k :: 0 <= k < |pieces| ==>
      PieceDetails(road, pieces)[k] == PieceDetail(road, pieces[k])
  {
    if pieces != [] {
      var p := pieces[..|pieces| - 1];
      PieceDetailsOfRoad(road, p);
    }
  }

  /** A road that survives clipping yields exactly one detail per piece, whose lengths
      add up to the clipped length. */
  lemma RoadDetailsPerPiece(road: Road)
    requires !ClippedAway(road)
    ensures |RoadDetails(road)| == |road.pieces|
    ensures forall k :: 0 <= k < |road.pieces| ==>
      RoadDetails(road)[k] == PieceDetail(road, road.pieces[k])
    ensures DetailLength(RoadDetails(road)) == Sum(road.pieces)
  {
    PieceDetailsOfRoad(road, road.pieces);
    DetailLengthOfPieces(road, road.pieces);
  }

  /** Total length of a list of detail records. */
  function DetailLength(details: seq<RoadDetail>): real {
    if details == [] then 0.0
    else DetailLength(details[..|details| - 1]) + details[|details| - 1].length
  }

  lemma {:induction false} DetailLengthOfPieces(road: Road, pieces: seq<NonNeg>)
    ensures DetailLength(PieceDetails(road, pieces)) == Sum(pieces)
  {
    if pieces != [] {
      var p := pieces[..|pieces| - 1];
      DetailLengthOfPieces(road, p);
      var ds := PieceDetails(road, pieces);
      assert ds[..|ds| - 1] == PieceDetails(road, p);
    }
  }

  /** A detail record at least 3 m wide whose width label is "osm" or "lanes", so the
      map shows its width. */
  predicate Shown(d: RoadDetail) {
    d.width >= MinTaggedWidth && d.source != Fallback
  }

  /** When every road is at least 3 m wide, as every collected road is, no detail
      record is labelled "fallback". */
  lemma {:induction false} NoFallbackDetails(roads: seq<Road>)
    requires forall i :: 0 <= i < |roads| ==> roads[i].width.metres >= MinTaggedWidth
    ensures forall k :: 0 <= k < |Details(roads)| ==> Shown(Details(roads)[k])
  {
    if roads != [] {
      var rs := roads[..|roads| - 1];
      var last := roads[|roads| - 1];
      NoFallbackDetails(rs);
      if !ClippedAway(last) {
        PieceDetailsOfRoad(last, last.pieces);
      }
      var ds := Details(roads);
      assert ds == Details(rs) + RoadDetails(last);
      forall k | 0 <= k < |ds|
        ensures Shown(ds[k])
      {
        if k >= |Details(rs)| {
          assert ds[k] == RoadDetails(last)[k - |Details(rs)|];
        }
      }
    }
  }

  // ---------------------------------------------------------------------------
  // Building area per type

  /** One entry of the building-type dictionary. */
  datatype TypeArea = TypeArea(btype: string, area: real)

  /** The building-type dictionary as its entries in insertion order, which is the order
      Python's dict keeps and the order later ties are broken in. */
  type TypeAreas = seq<TypeArea>

  function Keys(d: TypeAreas): set<string> {
    if d == [] then {} else {d[0].btype} + Keys(d[1..])
  }

  /** No key occurs twice. */
  predicate DistinctKeys(d: TypeAreas) {
    d == [] || (d[0].btype !in Keys(d[1..]) && DistinctKeys(d[1..]))
  }

  /** `d.get(k, 0)`. */
  function Lookup(d: TypeAreas, k: string): (v: real)
    ensures k !in Keys(d) ==> v == 0.0
  {
    if d == [] then 0.0
    else if d[0].btype == k then d[0].area
    else Lookup(d[1..], k)
  }

  /** `d[k] = v`: overwrites in place when the key is present, appends otherwise. */
  function Store(d: TypeAreas, k: string, v: real): (r: TypeAreas)
    ensures |d| <= |r| <= |d| + 1
  {
    if d == [] then [TypeArea(k, v)]
    else if d[0].btype == k then [TypeArea(k, v)] + d[1..]
    else [d[0]] + Store(d[1..], k, v)
  }

  /** Storing adds the key to the key set; a new key goes at the end and a known key
      keeps its place. */
  lemma {:induction false} StoreShape(d: TypeAreas, k: string, v: real)
    ensures Keys(Store(d, k, v)) == Keys(d) + {k}
    ensures k !in Keys(d) ==> Store(d, k, v) == d + [TypeArea(k, v)]
    ensures k in Keys(d) ==> |Store(d, k, v)| == |d|
  {
    if d != [] {
      var r := Store(d, k, v);
      if d[0].btype == k {
        assert r[1..] == d[1..];
      } else {
        StoreShape(d[1..], k, v);
        assert r[1..] == Store(d[1..], k, v);
        assert d == [d[0]] + d[1..];
      }
    }
  }

  /** The key of every entry is among the keys. */
  lemma {:induction false} EntryKey(d: TypeAreas, e: TypeArea)
    requires e in d
    ensures e.btype in Keys(d)
  {
    if d[0] != e {
      EntryKey(d[1..], e);
    }
  }

  /** With distinct keys, an entry is known by its key. */
  lemma {:induction false} KeyDetermines(d: TypeAreas, e1: TypeArea, e2: TypeArea)
    requires DistinctKeys(d) && e1 in d && e2 in d && e1.btype == e2.btype
    ensures e1 == e2
  {
    if e1 == d[0] && e2 != d[0] {
      EntryKey(d[1..], e2);
    } else if e1 != d[0] && e2 == d[0] {
      EntryKey(d[1..], e1);
    } else if e1 != d[0] {
      KeyDetermines(d[1..], e1, e2);
    }
  }

  /** With distinct keys, no entry occurs twice. */
  lemma {:induction false} DistinctKeysOnce(d: TypeAreas, e: TypeArea)
    requires DistinctKeys(d)
    ensures multiset(d)[e] <= 1
  {
    if d != [] {
      assert d == [d[0]] + d[1..];
      DistinctKeysOnce(d[1..], e);
      if e == d[0] && e in d[1..] {
        EntryKey(d[1..], e);
      }
    }
  }

  /** With distinct keys, storing under a known key rewrites that key's entry in its
      place and leaves every other entry where it was. */
  lemma {:induction false} StoreInPlace(d: TypeAreas, k: string, v: real)
    requires DistinctKeys(d) && k in Keys(d)
    ensures |Store(d, k, v)| == |d|
    ensures forall i :: 0 <= i < |d| ==>
      Store(d, k, v)[i] == if d[i].btype == k then TypeArea(k, v) else d[i]
  {
    var r := Store(d, k, v);
    if d[0].btype == k {
      forall i | 0 < i < |d|
        ensures d[i].btype != k
      {
        EntryKey(d[1..], d[i]);
      }
    } else {
      StoreInPlace(d[1..], k, v);
      assert r == [d[0]] + Store(d[1..], k, v);
    }
  }

  /** Storing keeps the keys distinct, sets the stored key and leaves every other key's
      value as it was. */
  lemma {:induction false} StoreLookup(d: TypeAreas, k: string, v: real)
    requires DistinctKeys(d)
    ensures DistinctKeys(Store(d, k, v))
    ensures Lookup(Store(d, k, v), k) == v
    ensures forall k' :: k' != k ==> Lookup(Store(d, k, v), k') == Lookup(d, k')
  {
    if d != [] && d[0].btype != k {
      StoreLookup(d[1..], k, v);
      StoreShape(d[1..], k, v);
      assert Store(d, k, v)[1..] == Store(d[1..], k, v);
    } else if d != [] {
      assert Store(d, k, v)[1..] == d[1..];
    }
  }

  /** Sum of the dictionary's values. */
  function Total(d: TypeAreas): real {
    if d == [] then 0.0 else d[0].area + Total(d[1..])
  }

  /** Overwriting one entry changes the total by the difference. */
  lemma {:induction false} StoreTotal(d: TypeAreas, k: string, v: real)
    requires DistinctKeys(d)
    ensures Total(Store(d, k, v)) == Total(d) - Lookup(d, k) + v
  {
    if d != [] && d[0].btype != k {
      StoreTotal(d[1..], k, v);
      assert Store(d, k, v)[1..] == Store(d[1..], k, v);
    } else if d != [] {
      assert Store(d, k, v)[1..] == d[1..];
    }
  }

  /** `type_areas` after adding every building's area under its type. */
  function TypeAreasOf(buildings: seq<Building>): TypeAreas {
    if buildings == [] then []
    else
      var d := TypeAreasOf(buildings[..|buildings| - 1]);
      var b := buildings[|buildings| - 1];
      Store(d, b.btype, Lookup(d, b.btype) + b.area)
  }

  /** The loop that fills `type_areas`. */
  method AccumulateTypeAreas(buildings: seq<Building>) returns (typeAreas: TypeAreas)
    ensures typeAreas == TypeAreasOf(buildings)
  {
    typeAreas := [];
    for i := 0 to |buildings|
      invariant typeAreas == TypeAreasOf(buildings[..i])
    {
      var b := buildings[i];
      assert buildings[..i + 1] == buildings[..i] + [b];
      var area := b.area;
      typeAreas := Store(typeAreas, b.btype, Lookup(typeAreas, b.btype) + area);
    }
    assert buildings[..|buildings|] == buildings;
  }

  /** `sum(p.area for p, _ in buildings)`. */
  function BuildingArea(buildings: seq<Building>): (r: real)
    ensures r >= 0.0
  {
    if buildings == [] then 0.0
    else BuildingArea(buildings[..|buildings| - 1]) + buildings[|buildings| - 1].area
  }

  /** The types that occur among the buildings. */
  function TypesOf(buildings: seq<Building>): set<string> {
    if buildings == [] then {}
    else TypesOf(buildings[..|buildings| - 1]) + {buildings[|buildings| - 1].btype}
  }

  /** Summed area of the buildings of one type. */
  function AreaOfType(buildings: seq<Building>, t: string): real {
    if buildings == [] then 0.0
    else
      var b := buildings[|buildings| - 1];
      AreaOfType(buildings[..|buildings| - 1], t) + (if b.btype == t then b.area else 0.0)
  }

  /** The dictionary has one key per building type that occurs and no other. */
  lemma {:induction false} TypeAreasKeys(buildings: seq<Building>)
    ensures DistinctKeys(TypeAreasOf(buildings))
    ensures Keys(TypeAreasOf(buildings)) == TypesOf(buildings)
  {
    if buildings != [] {
      var prefix := buildings[..|buildings| - 1];
      var b := buildings[|buildings| - 1];
      TypeAreasKeys(prefix);
      var d := TypeAreasOf(prefix);
      var v := Lookup(d, b.btype) + b.area;
      assert TypeAreasOf(buildings) == Store(d, b.btype, v);
      assert TypesOf(buildings) == TypesOf(prefix) + {b.btype};
      StoreLookup(d, b.btype, v);
      StoreShape(d, b.btype, v);
    }
  }

  /** Each key holds the summed area of the buildings of that type. */
  lemma {:induction false} TypeAreasLookup(buildings: seq<Building>, t: string)
    ensures Lookup(TypeAreasOf(buildings), t) == AreaOfType(buildings, t)
  {
    if buildings != [] {
      var prefix := buildings[..|buildings| - 1];
      var b := buildings[|buildings| - 1];
      TypeAreasKeys(prefix);
      TypeAreasLookup(prefix, t);
      var d := TypeAreasOf(prefix);
      var v := Lookup(d, b.btype) + b.area;
      assert TypeAreasOf(buildings) == Store(d, b.btype, v);
      assert AreaOfType(buildings, t) ==
        AreaOfType(prefix, t) + (if b.btype == t then b.area else 0.0);
      StoreLookup(d, b.btype, v);
      if b.btype == t {
        assert Lookup(TypeAreasOf(buildings), t) == v;
      } else {
        assert Lookup(TypeAreasOf(buildings), t) == Lookup(d, t);
      }
    }
  }

  /** The dictionary's values add up to the total building area. */
  lemma {:induction false} TypeAreasTotal(buildings: seq<Building>)
    ensures Total(TypeAreasOf(buildings)) == BuildingArea(buildings)
  {
    if buildings != [] {
      var prefix := buildings[..|buildings| - 1];
      var b := buildings[|buildings| - 1];
      TypeAreasKeys(prefix);
      TypeAreasTotal(prefix);
      var d := TypeAreasOf(prefix);
      StoreTotal(d, b.btype, Lookup(d, b.btype) + b.area);
    }
  }

  // ---------------------------------------------------------------------------
  // Metrics

  /** `np.pi` as a double. */
  const Pi: real := 3.141592653589793

  /** `np.pi * radius ** 2`, the area of the analysis disk. */
  function DiskArea(radius: int): (a: real)
    ensures radius != 0 ==> a > 0.0
    ensures a >= 0.0
  {
    Pi * (radius * radius) as real
  }

  /** The metrics record returned to the presentation layer. */
  datatype Metrics = Metrics(
    analysisArea: real,
    totalBuildingArea: real,
    buildingCoverageRatio: real,
    totalRoadArea: real,
    roadAreaCoverage: real,
    waterArea: real,
    waterCoverageRatio: real,
    trueOpenSpace: real,
    trueOpenSpaceRatio: real,
    detectedBuildings: nat,
    buildingTypesArea: TypeAreas)

  /** The metrics record. Open space is what the disk leaves after buildings, roads and
      water, not clamped; each ratio is an area over the disk area, not clamped either. */
  function MetricsOf(radius: int, buildings: seq<Building>, roadArea: real, waterArea: real,
                     typeAreas: TypeAreas): (m: Metrics)
    requires radius != 0
    ensures m.analysisArea > 0.0
    ensures m.totalBuildingArea + m.totalRoadArea + m.waterArea + m.trueOpenSpace == m.analysisArea
    ensures m.buildingCoverageRatio * m.analysisArea == m.totalBuildingArea
    ensures m.roadAreaCoverage * m.analysisArea == m.totalRoadArea
    ensures m.waterCoverageRatio * m.analysisArea == m.waterArea
    ensures m.trueOpenSpaceRatio * m.analysisArea == m.trueOpenSpace
    ensures m.buildingCoverageRatio + m.roadAreaCoverage + m.waterCoverageRatio
            + m.trueOpenSpaceRatio == 1.0
    ensures m.detectedBuildings == |buildings|
  {
    var area := DiskArea(radius);
    var building := BuildingArea(buildings);
    var openSpace := area - building - roadArea - waterArea;
    var m := Metrics(area, building, building / area, roadArea, roadArea / area, waterArea,
                     waterArea / area, openSpace, openSpace / area, |buildings|, typeAreas);
    assert m.buildingCoverageRatio + m.roadAreaCoverage + m.waterCoverageRatio + m.trueOpenSpaceRatio
        == (building + roadArea + waterArea + openSpace) / area;
    m
  }

  // ---------------------------------------------------------------------------
  // The pipeline

  /** Everything the pipeline hands to the presentation layer that the model keeps:
      the metrics, the clipped buildings with their types, the road details, the UTM
      frame and the clipped water polygons. */
  datatype Analysis = Analysis(metrics: Metrics, buildings: seq<Building>,
                               roadDetails: seq<RoadDetail>, frame: Utm,
                               waterPolygons: seq<Region>)

  /** What one query yields for the given response elements; None where the source
      raises ZeroDivisionError because the disk has no area. */
  function Analyze(lat: real, lng: real, radius: int, elements: seq<Element>): Option<Analysis> {
    if radius == 0 then None
    else
      var buildings := Buildings(elements);
      var roads := Roads(elements);
      var waters := WaterPolygons(elements);
      Some(Analysis(
        MetricsOf(radius, buildings, RoadArea(roads), RegionArea(waters), TypeAreasOf(buildings)),
        buildings, Details(roads), Projector(lat, lng), waters))
  }

  /** `get_congestion_features`, given the `elements` the data fetch returned for the
      query's box. */
  method GetCongestionFeatures(lat: real, lng: real, radius: int, elements: seq<Element>)
    returns (result: Option<Analysis>)
    ensures result == Analyze(lat, lng, radius, elements)
  {
    var frame := Projector(lat, lng);
    var buildings := CollectBuildings(elements);
    var roads := CollectRoads(elements);
    var waterArea := CollectWater(elements);
    var waterPolygons := CollectWaterPolygons(elements);
    var roadArea, details := ClipRoads(roads);
    var typeAreas := AccumulateTypeAreas(buildings);
    if radius == 0 {
      return None;
    }
    var metrics := MetricsOf(radius, buildings, roadArea, waterArea, typeAreas);
    result := Some(Analysis(metrics, buildings, details, frame, waterPolygons));
  }

  /** The invariants of one query's result: the area identity, the building count, the
      water total matching the polygons, the road total matching the details, no detail
      labelled "fallback", and the per-type areas partitioning the building area. */
  lemma AnalysisFacts(lat: real, lng: real, radius: int, elements: seq<Element>)
    requires radius != 0
    ensures Analyze(lat, lng, radius, elements).Some?
    ensures var a := Analyze(lat, lng, radius, elements).value; var m := a.metrics;
      && m.totalBuildingArea + m.totalRoadArea + m.waterArea + m.trueOpenSpace == DiskArea(radius)
      && m.detectedBuildings == |a.buildings| <= |elements|
      && m.waterArea == RegionArea(a.waterPolygons) >= 0.0
      && m.totalRoadArea == DetailArea(a.roadDetails)
      && (forall k :: 0 <= k < |a.roadDetails| ==> Shown(a.roadDetails[k]))
      && DistinctKeys(m.buildingTypesArea)
      && Keys(m.buildingTypesArea) == TypesOf(a.buildings)
      && Total(m.buildingTypesArea) == m.totalBuildingArea
      && (forall j :: 0 <= j < |a.buildings| ==> Typed(a.buildings[j].btype))
  {
    var roads := Roads(elements);
    RoadsWideEnough(elements);
    NoFallbackDetails(roads);
    RoadAreaIsDetailArea(roads);
    RegionAreaNonNegative(WaterPolygons(elements));
    TypeAreasKeys(Buildings(elements));
    TypeAreasTotal(Buildings(elements));
    BuildingsTyped(elements);
  }
}
