/**
 * The feature classifier: turns the raw OSM ways of one query into buildings (clipped
 * area and normalised type), roads (width estimate with its evidence source) and water
 * polygons.
 *
 * shapely's answers are inputs here: each element carries what shapely reports about its
 * geometry, already measured against the analysis disk (see Shape).
 */
module Features {
  import opened Wrappers
  import opened Text
  import opened Seqs

  /** Lengths and areas as shapely reports them: never negative. */
  type NonNeg = r: real | 0.0 <= r

  /** An element's `tags` dictionary. */
  type Tags = map<string, string>

  /** What shapely reports about one way's geometry against the analysis disk. The
      polygon fields describe the polygon built from the points and, after the repair
      step, its intersection with the disk; the line fields describe the polyline. */
  datatype Shape = Shape(
    raises: bool,             // shapely raises inside the polygon try-block
    valid: bool,              // Polygon(points).is_valid
    repairedValid: bool,      // make_valid(polygon).is_valid
    clipEmpty: bool,          // polygon.intersection(disk).is_empty
    clipValid: bool,          // intersection.is_valid
    clipRepairedValid: bool,  // make_valid(intersection).is_valid
    clipArea: NonNeg,         // intersection.area
    repairedClipArea: NonNeg, // make_valid(intersection).area
    lineLength: NonNeg,       // LineString(points).length
    pieces: seq<NonNeg>)      // lengths of the parts of line.intersection(disk)

  /** One entry of the response's `elements` list: its `type` ("" when absent), its tags,
      the number of points in its `geometry` (0 when absent) and its shapely facts. */
  datatype Element = Element(kind: string, tags: Tags, points: nat, shape: Shape)

  /** `tags.get(key)`. */
  function Get(tags: Tags, key: string): Option<string> {
    if key in tags then Some(tags[key]) else None
  }

  /** `tags.get(key)` is truthy: the key is present with a non-empty value. */
  predicate Truthy(tags: Tags, key: string) {
    key in tags && tags[key] != ""
  }

  // ---------------------------------------------------------------------------
  // Buildings

  const NoBuilding := "None"
  const BuildingPrefix := "building="
  const GenericBuilding := "building=yes"

  /** The values that all mean "some building" once cleaned up. */
  predicate IsGenericValue(v: string) {
    v == "yes" || v == "1" || v == "true"
  }

  /** A shown building type: "building=" followed by a value. */
  predicate Typed(t: string) {
    t != NoBuilding && |t| >= 9 && t[..9] == BuildingPrefix
  }

  lemma PrefixSplit(v: string)
    ensures Typed(BuildingPrefix + v) && (BuildingPrefix + v)[9..] == v
  {
  }

  lemma YesIsNormal()
    ensures IsNormal("yes")
  {
    var y := "yes";
    assert y[0] == 'y' && y[1] == 'e' && y[2] == 's';
    assert !IsSpace('y') && !IsSpace('s');
    assert forall i :: 0 <= i < |y| ==> !IsUpper(y[i]);
  }

  /** The building type shown for a way: "None" without a building tag, otherwise
      "building=" followed by the cleaned tag value, the generic values becoming "yes". */
  function BuildingType(tags: Tags): (t: string)
    ensures t == NoBuilding <==> !Truthy(tags, "building")
    ensures t != NoBuilding ==> Typed(t) && IsNormal(t[9..])
    ensures t == GenericBuilding <==>
      Truthy(tags, "building") && IsGenericValue(Normalize(tags["building"]))
    ensures Truthy(tags, "building") && !IsGenericValue(Normalize(tags["building"])) ==>
      t == BuildingPrefix + Normalize(tags["building"])
  {
    if !Truthy(tags, "building") then NoBuilding
    else
      NormalizeIsNormal(tags["building"]);
      TypeOfValue(Normalize(tags["building"]))
  }

  /** The type shown for a cleaned tag value `b`. */
  function TypeOfValue(b: string): (t: string)
    ensures Typed(t)
    ensures t == GenericBuilding <==> IsGenericValue(b)
    ensures !IsGenericValue(b) ==> t == BuildingPrefix + b
    ensures IsNormal(b) ==> IsNormal(t[9..])
  {
    assert GenericBuilding[9..] == "yes" && Typed(GenericBuilding);
    if IsGenericValue(b) then
      YesIsNormal();
      GenericBuilding
    else
      PrefixSplit(b);
      BuildingPrefix + b
  }

  /** A building as the collector keeps it: its clipped polygon, known by its area,
      and its type. */
  datatype Building = Building(area: NonNeg, btype: string)

  /** What the building loop does with one element: None where it `continue`s. */
  function ClipBuilding(e: Element): (b: Option<Building>)
    ensures b.Some? <==>
      && Truthy(e.tags, "building")
      && e.points >= 3
      && !e.shape.raises
      && (e.shape.valid || e.shape.repairedValid)
      && !e.shape.clipEmpty
      && (e.shape.clipValid || e.shape.clipRepairedValid)
    ensures b.Some? ==> b.value.btype == BuildingType(e.tags) && Typed(b.value.btype)
  {
    if !Truthy(e.tags, "building") then None
    else if e.points < 3 then None
    else if e.shape.raises then None
    else if !e.shape.valid && !e.shape.repairedValid then None
    else if e.shape.clipEmpty then None
    else if !e.shape.clipValid && !e.shape.clipRepairedValid then None
    else
      var area := if e.shape.clipValid then e.shape.clipArea else e.shape.repairedClipArea;
      Some(Building(area, BuildingType(e.tags)))
  }

  function Buildings(elements: seq<Element>): seq<Building> {
    FilterMap(elements, ClipBuilding)
  }

  /** `_collect_buildings`: every building way that survives the guards, clipped to the
      disk, in input order. */
  method CollectBuildings(elements: seq<Element>) returns (buildings: seq<Building>)
    ensures buildings == Buildings(elements)
  {
    buildings := [];
    for i := 0 to |elements|
      invariant buildings == Buildings(elements[..i])
    {
      assert elements[..i + 1][..i] == elements[..i];
      var el := elements[i];
      var tags := el.tags;
      if !Truthy(tags, "building") {
        continue;
      }
      if el.points < 3 {
        continue;
      }
      var shape := el.shape;
      if shape.raises {
        continue;
      }
      var valid := shape.valid;
      if !valid {
        valid := shape.repairedValid;
      }
      if !valid {
        continue;
      }
      if shape.clipEmpty {
        continue;
      }
      var area := shape.clipArea;
      var interValid := shape.clipValid;
      if !interValid {
        interValid := shape.clipRepairedValid;
        area := shape.repairedClipArea;
      }
      if !interValid {
        continue;
      }
      var btype := BuildingType(tags);
      buildings := buildings + [Building(area, btype)];
    }
    assert elements[..|elements|] == elements;
  }

  /** Every collected building has a real type and a non-negative area, and the
      collector never yields more buildings than it was given elements. */
  lemma BuildingsTyped(elements: seq<Element>)
    ensures |Buildings(elements)| <= |elements|
    ensures forall j :: 0 <= j < |Buildings(elements)| ==> Typed(Buildings(elements)[j].btype)
  {
    FilterMapAll(elements, ClipBuilding, (b: Building) => Typed(b.btype));
  }

  /** Survivors keep input order: collecting two lists one after the other gives the
      buildings of the first, then those of the second. */
  lemma BuildingsConcat(first: seq<Element>, second: seq<Element>)
    ensures Buildings(first + second) == Buildings(first) + Buildings(second)
  {
    FilterMapAppend(first, second, ClipBuilding);
  }

  /** Overlapping or repeated ways are not merged: a list given twice yields every
      building twice. */
  lemma BuildingsRepeat(elements: seq<Element>)
    ensures Buildings(elements + elements) == Buildings(elements) + Buildings(elements)
  {
    FilterMapAppend(elements, elements, ClipBuilding);
  }

  // ---------------------------------------------------------------------------
  // Roads

  /** Which tag evidence a road width comes from. */
  datatype WidthSource = Osm | Lanes | Fallback

  datatype Width = Width(metres: real, source: WidthSource)

  /** Width per lane (the Indian road standard). */
  const LaneWidth: real := 3.5
  /** Floor on a width taken from the `width` tag. */
  const MinTaggedWidth: real := 3.0
  /** Floor on a width derived from the `lanes` tag. */
  const MinLanesWidth: real := 7.0
  /** Width for highway classes missing from the table. */
  const UnknownClassWidth: real := 7.0

  /** Typical carriageway width per highway class. */
  const DefaultWidths: map<string, real> := map[
    "motorway" := 24.0, "trunk" := 22.0, "primary" := 18.0, "secondary" := 14.0,
    "tertiary" := 10.0, "residential" := 7.0, "unclassified" := 7.0, "service" := 6.0]

  /** `DEFAULT_WIDTHS.get(highway, 7)`. */
  function DefaultWidth(highway: Option<string>): (w: real)
    ensures w >= 6.0
    ensures highway.None? || highway.value !in DefaultWidths ==> w == UnknownClassWidth
  {
    if highway.Some? && highway.value in DefaultWidths then
      var h := highway.value;
      assert h == "motorway" || h == "trunk" || h == "primary" || h == "secondary" ||
             h == "tertiary" || h == "residential" || h == "unclassified" || h == "service";
      DefaultWidths[h]
    else UnknownClassWidth
  }

  function Max(a: real, b: real): real {
    if a >= b then a else b
  }

  /** `float(str(v).split()[0])`, or None where that raises. */
  function LeadingNumber(v: string): (r: Option<real>)
    ensures AllSpace(v) ==> r.None?
  {
    match FirstToken(v)
    case None => None
    case Some(token) => ParseNumber(token)
  }

  /** The leading number of a tag, or None when the tag is absent or does not parse. */
  function TagNumber(tags: Tags, key: string): Option<real> {
    if key in tags then LeadingNumber(tags[key]) else None
  }

  /** The width chain: start with no width, let the `width` tag set it, let the `lanes`
      tag set it if still unset, and fall back on the class table otherwise. */
  function RoadWidth(tags: Tags): (w: Width)
    ensures w.metres >= MinTaggedWidth
    ensures w.source == Osm <==> TagNumber(tags, "width").Some?
    ensures w.source == Lanes <==>
      TagNumber(tags, "width").None? && TagNumber(tags, "lanes").Some?
    ensures w.source == Osm ==> w.metres == Max(MinTaggedWidth, TagNumber(tags, "width").value)
    ensures w.source == Lanes ==>
      w.metres == Max(MinLanesWidth, TagNumber(tags, "lanes").value * LaneWidth)
    ensures w.source == Fallback ==> w.metres == DefaultWidth(Get(tags, "highway"))
  {
    var fromWidth: Option<Width> :=
      if "width" in tags then
        match LeadingNumber(tags["width"])
        case Some(n) => Some(Width(Max(MinTaggedWidth, n), Osm))
        case None => None
      else None;
    var fromLanes: Option<Width> :=
      if fromWidth.None? && "lanes" in tags then
        match LeadingNumber(tags["lanes"])
        case Some(lanes) => Some(Width(Max(MinLanesWidth, lanes * LaneWidth), Lanes))
        case None => None
      else fromWidth;
    match fromLanes
    case Some(found) => found
    case None => Width(DefaultWidth(Get(tags, "highway")), Fallback)
  }

  /** Without width or lanes tags the class table decides. */
  lemma FallbackExample()
    ensures RoadWidth(map["highway" := "residential"]) == Width(7.0, Fallback)
  {
    var t: Tags := map["highway" := "residential"];
    assert "width" !in t && "lanes" !in t;
    assert Get(t, "highway") == Some("residential");
    assert DefaultWidths["residential"] == 7.0;
  }

  /** A width with a unit after it is read from its leading number. */
  lemma TaggedWidthExample()
    ensures RoadWidth(map["highway" := "primary", "width" := "8.5 m"]) == Width(8.5, Osm)
  {
    EightAndAHalf();
  }

  /** A blank width falls through to the lane count: four lanes of 3.5 m. */
  lemma LanesExample()
    ensures RoadWidth(map["highway" := "primary", "width" := " ", "lanes" := "4"])
      == Width(14.0, Lanes)
  {
    var t: Tags := map["highway" := "primary", "width" := " ", "lanes" := "4"];
    LanesWidth(t);
  }

  lemma LanesWidth(t: Tags)
    requires "width" in t && t["width"] == " " && "lanes" in t && t["lanes"] == "4"
    ensures RoadWidth(t) == Width(14.0, Lanes)
  {
    BlankAndFour();
    assert TagNumber(t, "width").None? && TagNumber(t, "lanes") == Some(4.0);
  }

  /** A blank tag has no leading number; "4" reads as 4. */
  lemma BlankAndFour()
    ensures LeadingNumber(" ") == None
    ensures LeadingNumber("4") == Some(4.0)
  {
    BlankHasNoNumber();
    FourIsFour();
  }

  lemma BlankHasNoNumber()
    ensures LeadingNumber(" ") == None
  {
    assert " "[0] == ' ';
    assert FirstToken(" ") == None;
  }

  lemma FourIsFour()
    ensures LeadingNumber("4") == Some(4.0)
  {
    assert NatString(4) == "4";
    ParseNatString(4);
    assert !IsSpace('4');
    FirstTokenOfWord("4", "");
    assert "4" + "" == "4";
  }

  /** `float("8.5 m".split()[0])` is 8.5. */
  lemma EightAndAHalf()
    ensures LeadingNumber("8.5 m") == Some(8.5)
  {
    var w := "8.5";
    assert w[0] == '8' && w[1] == '.' && w[2] == '5';
    assert NoSpace(w);
    assert " m"[0] == ' ';
    FirstTokenOfWord(w, " m");
    assert w + " m" == "8.5 m";
    ParseEightAndAHalf();
  }

  lemma ParseEightAndAHalf()
    ensures ParseNumber("8.5") == Some(8.5)
  {
    DecimalValue("8", "5");
    assert "8" + "." + "5" == "8.5";
    assert DigitsValue("8") == 8;
    assert FractionValue("5") == 0.5;
    assert IsDigit("8.5"[0]);
  }

  /** A road as the collector keeps it. The polyline is known by its length and by the
      lengths of the pieces it splits into when clipped to the disk. */
  datatype Road = Road(length: NonNeg, pieces: seq<NonNeg>, width: Width,
                       highway: string, name: string)

  /** What the road loop does with one element: None where it `continue`s. */
  function RoadOf(e: Element): (r: Option<Road>)
    ensures r.Some? <==>
      e.kind == "way" && "highway" in e.tags && e.points >= 2 && e.shape.lineLength >= 1.0
    ensures r.Some? ==> r.value.width == RoadWidth(e.tags) && r.value.highway == e.tags["highway"]
    ensures r.Some? ==> r.value.width.metres >= MinTaggedWidth && r.value.length >= 1.0
  {
    if e.kind != "way" then None
    else if "highway" !in e.tags then None
    else if e.points < 2 then None
    else if e.shape.lineLength < 1.0 then None
    else
      Some(Road(e.shape.lineLength, e.shape.pieces, RoadWidth(e.tags),
                e.tags["highway"], Get(e.tags, "name").GetOr("")))
  }

  function Roads(elements: seq<Element>): seq<Road> {
    FilterMap(elements, RoadOf)
  }

  /** `_collect_roads`: every highway way of at least a metre, with its width estimate. */
  method CollectRoads(elements: seq<Element>) returns (roads: seq<Road>)
    ensures roads == Roads(elements)
  {
    roads := [];
    for i := 0 to |elements|
      invariant roads == Roads(elements[..i])
    {
      assert elements[..i + 1][..i] == elements[..i];
      var el := elements[i];
      if el.kind != "way" {
        continue;
      }
      var tags := el.tags;
      if "highway" !in tags {
        continue;
      }
      if el.points < 2 {
        continue;
      }
      var line := el.shape;
      if line.lineLength < 1.0 {
        continue;
      }
      var width := RoadWidth(tags);
      roads := roads + [Road(line.lineLength, line.pieces, width, tags["highway"],
                             Get(tags, "name").GetOr(""))];
    }
    assert elements[..|elements|] == elements;
  }

  /** Every collected road is at least 3 m wide, whatever evidence its width came from. */
  lemma RoadsWideEnough(elements: seq<Element>)
    ensures forall j :: 0 <= j < |Roads(elements)| ==>
      Roads(elements)[j].width.metres >= MinTaggedWidth
  {
    FilterMapAll(elements, RoadOf, (r: Road) => r.width.metres >= MinTaggedWidth);
  }

  // ---------------------------------------------------------------------------
  // Water

  /** `natural=water` or `waterway=riverbank`. */
  predicate IsWater(tags: Tags) {
    Get(tags, "natural") == Some("water") || Get(tags, "waterway") == Some("riverbank")
  }

  /** A clipped polygon, known by its area. */
  datatype Region = Region(area: NonNeg)

  /** What both water loops do with one element: None where they `continue` or find an
      empty intersection. */
  function ClipWater(e: Element): (w: Option<Region>)
    ensures w.Some? <==>
      IsWater(e.tags) && e.points >= 3 && !e.shape.raises &&
      (e.shape.valid || e.shape.repairedValid) && !e.shape.clipEmpty
    ensures w.Some? ==> w.value.area == e.shape.clipArea
  {
    if !IsWater(e.tags) then None
    else if e.points < 3 then None
    else if e.shape.raises then None
    else if !e.shape.valid && !e.shape.repairedValid then None
    else if e.shape.clipEmpty then None
    else Some(Region(e.shape.clipArea))
  }

  function WaterPolygons(elements: seq<Element>): seq<Region> {
    FilterMap(elements, ClipWater)
  }

  /** Total area of a list of clipped polygons. */
  function RegionArea(regions: seq<Region>): real {
    if regions == [] then 0.0
    else RegionArea(regions[..|regions| - 1]) + regions[|regions| - 1].area
  }

  /** `_collect_water`: the running total of clipped water area. */
  method CollectWater(elements: seq<Element>) returns (waterArea: real)
    ensures waterArea == RegionArea(WaterPolygons(elements))
  {
    waterArea := 0.0;
    for i := 0 to |elements|
      invariant waterArea == RegionArea(WaterPolygons(elements[..i]))
    {
      assert elements[..i + 1][..i] == elements[..i];
      var el := elements[i];
      var tags := el.tags;
      if Get(tags, "natural") != Some("water") && Get(tags, "waterway") != Some("riverbank") {
        continue;
      }
      if el.points < 3 {
        continue;
      }
      var shape := el.shape;
      if shape.raises {
        continue;
      }
      var valid := shape.valid;
      if !valid {
        valid := shape.repairedValid;
      }
      if !valid {
        continue;
      }
      if !shape.clipEmpty {
        ghost var before := WaterPolygons(elements[..i]);
        assert (before + [Region(shape.clipArea)])[..|before|] == before;
        waterArea := waterArea + shape.clipArea;
      }
    }
    assert elements[..|elements|] == elements;
  }

  /** `_collect_water_polygons`: the clipped water polygons, in input order. */
  method CollectWaterPolygons(elements: seq<Element>) returns (waters: seq<Region>)
    ensures waters == WaterPolygons(elements)
  {
    waters := [];
    for i := 0 to |elements|
      invariant waters == WaterPolygons(elements[..i])
    {
      assert elements[..i + 1][..i] == elements[..i];
      var el := elements[i];
      var tags := el.tags;
      if Get(tags, "natural") != Some("water") && Get(tags, "waterway") != Some("riverbank") {
        continue;
      }
      if el.points < 3 {
        continue;
      }
      var shape := el.shape;
      if shape.raises {
        continue;
      }
      var valid := shape.valid;
      if !valid {
        valid := shape.repairedValid;
      }
      if !valid {
        continue;
      }
      if !shape.clipEmpty {
        waters := waters + [Region(shape.clipArea)];
      }
    }
    assert elements[..|elements|] == elements;
  }

  /** Water area is never negative. */
  lemma {:induction false} RegionAreaNonNegative(regions: seq<Region>)
    ensures RegionArea(regions) >= 0.0
  {
    if regions != [] {
      RegionAreaNonNegative(regions[..|regions| - 1]);
    }
  }
}
