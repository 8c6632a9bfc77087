# Urban congestion features — Dafny model

The system estimates how built-up the land around a point is. It fetches the
OpenStreetMap ways inside a box around the point. It clips buildings, roads and water
to a disk of the given radius, using a local UTM frame. From what remains it computes:

- building area, in total and per building type;
- road surface, as clipped length times an estimated width;
- water area;
- the open space left over.

A presentation script turns these into a water-excluded built-up ratio, a 0–10
congestion score with a HIGH/MEDIUM/LOW level, the top ten building types and their
legend colours, and a percentage for each of the top ten types.

This project models that logic and proves what it promises:

- `projection.dfy` (module `Projection`): the UTM zone and hemisphere chosen for a
  query, and the fetch box.
- `text.dfy` (module `Text`): the Python string operations applied to tag values.
  These are `strip()`, `lower()`, `split()[0]`, and `float()` restricted to decimal
  numerals.
- `seqs.dfy` (module `Seqs`): `FilterMap`, the list that a `for` loop with `continue`
  guards and `append` builds, and `Sum`.
- `features.dfy` (module `Features`):
  - the building-type clean-up;
  - the `DEFAULT_WIDTHS` table;
  - the three-tier road-width rule with its source label;
  - the four collectors, written as loop methods proved equal to `FilterMap`
    specifications.
- `aggregate.dfy` (module `Aggregate`):
  - the road clipping loop, with its nested loop over clipped pieces;
  - the promotion of the width label;
  - the per-type dictionary, kept as an insertion-ordered list of entries;
  - the metrics record;
  - the whole pipeline, as a method proved equal to a specification function.
- `score.dfy` (module `Score`): effective land area, clamped z-score, rounded score
  and level, a stable descending sort with the top-ten cut, the colour map, and the
  per-type percentage guard.
- `wrappers.dfy` (module `Wrappers`): `Option`.

Geometry is not computed. Each element carries what shapely reports about it: whether
the polygon and its repair are valid, whether the clip is empty or valid, the clipped
area, the line length, and the lengths of the clipped pieces. Lengths and areas are
non-negative reals. All arithmetic is on exact reals.

Two facts fall out of the proofs:

- Every table width is at least 6 m, and every collected width is at least 3 m. So the
  label promotion in the clipping loop relabels every table width as "osm", and no
  road detail is ever labelled "fallback" (`Aggregate.NoFallbackDetails`).
- Buildings are not de-duplicated: repeated or overlapping ways are counted each time
  (`Features.BuildingsRepeat`).

## Model

| member | source | states |
|---|---|---|
| Projection.UtmZone | congestion_features.py:25 | the zone number lies in 1..60 for every real longitude, including values outside [-180, 180] |
| Projection.Projector | congestion_features.py:25-27 | the frame's zone lies in 1..60, and the "south" variant is chosen exactly when the latitude is negative |
| Projection.ZoneBand | congestion_features.py:25 | for a longitude in [-180, 180) the zone is the 6-degree band that contains it |
| Projection.ZonePeriodic | congestion_features.py:25 | longitudes 360 degrees apart get the same zone |
| Projection.ZoneEdges | congestion_features.py:25 | -180 and 180 both give zone 1, and 179.5 gives zone 60 |
| Projection.FetchBox | congestion_features.py:194-195 | the box is square, 4r/111000 degrees on a side, centred on the query point, and contains it when r > 0 |
| Text.TrimStart | congestion_features.py:58 | the result is a suffix of the input, the part removed is all whitespace, and the result does not start with whitespace |
| Text.TrimEnd | congestion_features.py:58 | the result is a prefix of the input, the part removed is all whitespace, and the result does not end with whitespace |
| Text.LeadingSpace | congestion_features.py:58 | the count of leading characters is within the length, they are all whitespace, and the next character is not whitespace |
| Text.Strip | congestion_features.py:58 | the result is no longer than the input, and neither end of it is whitespace |
| Text.StripSlice | congestion_features.py:58 | the result is the slice of the input that starts right after the leading whitespace |
| Text.StripMargins | congestion_features.py:58 | everything after that slice is whitespace, so the input is whitespace, the result, then whitespace |
| Text.StripEmpty | congestion_features.py:58 | the result is empty exactly when the input is all whitespace |
| Text.TrimStartEmpty | congestion_features.py:58 | the left strip leaves nothing exactly when the input is all whitespace |
| Text.LowerChar | congestion_features.py:58 | an upper-case ASCII letter becomes the lower-case letter at the same place in the alphabet; any other character is unchanged; the result is not upper case, and it is whitespace exactly when the original was |
| Text.Lower | congestion_features.py:58 | length is kept and every character is lower-cased in its place, so no upper-case letter remains and whitespace positions are unchanged |
| Text.Normalize | congestion_features.py:58 | the cleaned-up value is no longer than the raw one; that it is clean is Text.NormalizeIsNormal and that cleaning is idempotent is Text.NormalizeIdempotent |
| Text.NormalizeIsNormal | congestion_features.py:58 | a stripped and lower-cased value has no surrounding whitespace and no upper-case letter |
| Text.TrimStartNoop | congestion_features.py:58 | a value that does not start with whitespace is left alone by the left strip |
| Text.TrimEndNoop | congestion_features.py:58 | a value that does not end with whitespace is left alone by the right strip |
| Text.LowerNoop | congestion_features.py:58 | a value without upper-case letters is left alone by lower-casing |
| Text.NormalIsFixed | congestion_features.py:58 | cleaning up an already clean value returns it unchanged |
| Text.NormalizeIdempotent | congestion_features.py:58 | cleaning up twice gives the same as cleaning up once |
| Text.TakeWord | congestion_features.py:121 | the result is the longest whitespace-free prefix: it is followed by whitespace or by the end |
| Text.FirstToken | congestion_features.py:121 | None (the IndexError path) exactly when the value is all whitespace; otherwise a non-empty whitespace-free token that starts the left-stripped value and ends at whitespace or at the end |
| Text.FirstTokenOfWord | congestion_features.py:121 | a word followed by nothing or by whitespace is the first token |
| Text.DigitValue | congestion_features.py:121 | a digit's value is below 10 |
| Text.FractionValue | congestion_features.py:121 | digits after the decimal point are worth at least 0 and less than 1 |
| Text.DotIndex | congestion_features.py:121 | the index is the first '.', or the length when there is none |
| Text.ParseUnsigned | congestion_features.py:121 | a parsed unsigned numeral is non-negative and contains a digit |
| Text.WholeValue | congestion_features.py:121 | a non-empty run of digits parses as its integer value |
| Text.DecimalValue | congestion_features.py:121 | digits, a point and digits, with at least one digit, parse as the whole part plus the fraction |
| Text.UnsignedForms | congestion_features.py:121 | only those two forms parse: every other token is the ValueError case |
| Text.ParseNumber | congestion_features.py:121 | a leading '-' negates the unsigned value and keeps a failure a failure; a leading '+' is dropped; any other token is read unsigned; a token that parses contains a digit |
| Text.NatString | congestion_features.py:121 | a printed natural number is a non-empty string of digits |
| Text.NatStringValue | congestion_features.py:121 | the digits of a printed natural number have that number as their value |
| Text.ParseNatString | congestion_features.py:121 | parsing a printed natural number gives that number back |
| Text.ParseSigned | congestion_features.py:121 | a leading '-' negates the parsed value, and a leading '+' leaves it unchanged |
| Seqs.FilterMap | congestion_features.py:63-94 | a guarded append loop never outputs more records than it reads |
| Seqs.FilterMapAppend | congestion_features.py:65 | running the loop over two lists in turn concatenates the two outputs, so input order is kept |
| Seqs.FilterMapAll | congestion_features.py:91 | a property of every appended value holds of every output record |
| Seqs.SumNonNegative | congestion_features.py:227 | a sum of non-negative values is non-negative |
| Features.PrefixSplit | congestion_features.py:61 | "building=" followed by a value is a typed tag whose value part is that value |
| Features.YesIsNormal | congestion_features.py:59-60 | "yes" is already a clean value |
| Features.BuildingType | congestion_features.py:53-61 | "None" exactly when the tag is missing or empty; "building=yes" exactly when the cleaned value is "yes", "1" or "true"; otherwise "building=" followed by the cleaned value; every typed result has a clean value part |
| Features.TypeOfValue | congestion_features.py:59-61 | the type is "building=" plus a value; it is "building=yes" exactly for the generic values "yes", "1" and "true", otherwise "building=" followed by the value itself; a clean value gives a clean value part |
| Features.ClipBuilding | congestion_features.py:65-91 | a building is kept exactly when its tag is non-empty, it has at least 3 points, nothing raises, the polygon or its repair is valid, and the clip is non-empty with the clip or its repair valid; a kept building has the cleaned type of its tag, which is typed |
| Features.CollectBuildings | congestion_features.py:63-94 | the loop returns exactly the filtered list of kept buildings, in input order |
| Features.BuildingsTyped | congestion_features.py:63-94 | there are no more buildings than elements, and every building has a "building=" type |
| Features.BuildingsConcat | congestion_features.py:65-91 | the buildings of two lists in turn are those of the first followed by those of the second |
| Features.BuildingsRepeat | congestion_features.py:91 | no de-duplication: a list given twice yields every building twice |
| Features.DefaultWidth | congestion_features.py:18-21 | a table width is at least 6 m, and a missing or unknown class gets 7 m |
| Features.LeadingNumber | congestion_features.py:120-129 | a blank tag value has no leading number (the IndexError path); what the number is for a given value is Features.EightAndAHalf, and how it feeds the width chain is Features.RoadWidth |
| Features.RoadWidth | congestion_features.py:115-139 | the width is at least 3 m; it is "osm" exactly when the width tag's leading token parses, and then equals max(3, n); it is "lanes" exactly when the width tag does not parse and the lanes tag does, and then equals max(7, 3.5 × lanes); otherwise it is the table width, labelled "fallback" |
| Features.FallbackExample | congestion_features.py:136-139 | a residential road with no width or lanes tag is 7 m, labelled "fallback" |
| Features.TaggedWidthExample | congestion_features.py:119-122 | width "8.5 m" gives 8.5 m, labelled "osm" |
| Features.EightAndAHalf | congestion_features.py:121 | the leading number of "8.5 m" is 8.5 |
| Features.ParseEightAndAHalf | congestion_features.py:121 | "8.5" parses as 8.5 |
| Features.LanesExample | congestion_features.py:119-131 | a blank width tag falls through to lanes "4", giving 14 m labelled "lanes" |
| Features.BlankAndFour | congestion_features.py:121-129 | a blank tag has no leading number, and "4" reads as 4 |
| Features.RoadOf | congestion_features.py:98-147 | a road is kept exactly when its type is "way", it has a highway tag, at least 2 points and a line length of at least 1 m; a kept road has the three-tier width of its tags and its highway class, and is at least 3 m wide |
| Features.CollectRoads | congestion_features.py:96-148 | the loop returns exactly the filtered list of kept roads, in input order |
| Features.RoadsWideEnough | congestion_features.py:115-139 | every collected road is at least 3 m wide, whatever the evidence for its width |
| Features.ClipWater | congestion_features.py:153-168 | water is counted exactly when it is tagged natural=water or waterway=riverbank, has at least 3 points, nothing raises, the polygon or its repair is valid, and the clip is non-empty; its area is the clipped area |
| Features.CollectWater | congestion_features.py:151-169 | the running total equals the total area of the collected water polygons |
| Features.CollectWaterPolygons | congestion_features.py:171-189 | the loop returns exactly the filtered list of clipped water polygons, in input order |
| Features.RegionAreaNonNegative | congestion_features.py:151-169 | the water area is never negative |
| Aggregate.PromoteSource | congestion_features.py:237-245 | the label is "lanes" exactly when the source is; "fallback" exactly when the source is and the width is under 3 m; "osm" otherwise |
| Aggregate.PieceDetails | congestion_features.py:232-253 | one detail record for each clipped piece |
| Aggregate.AddPieces | congestion_features.py:232-253 | the inner loop adds the pieces' surface to the total and appends their detail records |
| Aggregate.ClipRoads | congestion_features.py:218-253 | the clipping loop's total and detail list equal the road-area and details specifications |
| Aggregate.DetailAreaAppend | congestion_features.py:235 | the surface of concatenated detail lists is the sum of their surfaces |
| Aggregate.PiecesAreaIsDetailArea | congestion_features.py:232-235 | the surface one road adds equals length × width summed over its detail records |
| Aggregate.RoadAreaIsDetailArea | congestion_features.py:218-253 | road_area_total is exactly length × width summed over road_details |
| Aggregate.PieceDetailsOfRoad | congestion_features.py:247-253 | each detail carries its road's width, class, name and promoted label |
| Aggregate.ClippedAway | congestion_features.py:227 | a road is skipped exactly when its clipped length, the sum of its pieces, is under a metre (an empty clip has length 0) |
| Aggregate.ClippedLength | congestion_features.py:227 | the clipped length is never negative, so a skipped road lies between 0 and 1 m inside the disk |
| Aggregate.RoadDetailsPerPiece | congestion_features.py:226-253 | a road that survives clipping yields exactly one detail per piece, and their lengths add up to the clipped length |
| Aggregate.DetailLengthOfPieces | congestion_features.py:233 | the detail lengths of a road add up to its pieces' lengths |
| Aggregate.NoFallbackDetails | congestion_features.py:238-245 | when every road is at least 3 m wide, no detail is labelled "fallback" |
| Aggregate.Lookup | congestion_features.py:263 | an absent type reads as 0 |
| Aggregate.Store | congestion_features.py:263 | one dictionary assignment grows the list by at most one entry; its key set, place and lookups are Aggregate.StoreShape, Aggregate.StoreInPlace and Aggregate.StoreLookup |
| Aggregate.StoreShape | congestion_features.py:263 | storing adds the key; a new key is appended at the end, and a known key leaves the length unchanged (its place is stated by Aggregate.StoreInPlace) |
| Aggregate.EntryKey | congestion_features.py:263 | an entry's tag is a key of the dictionary |
| Aggregate.KeyDetermines | congestion_features.py:263 | with distinct keys, two entries with the same tag are the same entry |
| Aggregate.DistinctKeysOnce | congestion_features.py:263 | with distinct keys, no entry occurs twice |
| Aggregate.StoreInPlace | congestion_features.py:263 | with distinct keys, storing under a known key rewrites that key's entry where it stands and leaves every other entry at its index |
| Aggregate.StoreLookup | congestion_features.py:263 | storing keeps keys distinct, reads back the stored value and leaves the other keys unchanged |
| Aggregate.StoreTotal | congestion_features.py:263 | storing changes the sum of values by the new value minus the old one |
| Aggregate.AccumulateTypeAreas | congestion_features.py:260-263 | the dictionary loop builds exactly the per-type specification |
| Aggregate.TypeAreasKeys | congestion_features.py:260-263 | the dictionary's keys are distinct and are exactly the building types that occur |
| Aggregate.TypeAreasLookup | congestion_features.py:260-263 | each type's value is the summed area of the buildings of that type |
| Aggregate.BuildingArea | congestion_features.py:256 | the total building area is never negative; that the per-type values add up to it is Aggregate.TypeAreasTotal |
| Aggregate.TypeAreasTotal | congestion_features.py:256-263 | the values add up to the total building area |
| Aggregate.DiskArea | congestion_features.py:255 | the disk area is non-negative, and positive for a non-zero radius |
| Aggregate.MetricsOf | congestion_features.py:255-278 | buildings + roads + water + open space = π r²; each ratio times π r² is its area, with no clamping; the four ratios sum to 1; detected_buildings is the number of buildings |
| Aggregate.GetCongestionFeatures | congestion_features.py:191-288 | the pipeline method returns exactly the analysis specification |
| Aggregate.AnalysisFacts | congestion_features.py:208-278 | for a non-zero radius, the result satisfies: the area identity; count ≤ elements; water area = area of the water polygons ≥ 0; road total = length × width over the details; no "fallback" detail; distinct type keys equal to the occurring types; type areas adding up to the building area; every building typed |
| Score.Clamp | app.py:79-81 | the result lies in [lo, hi], equals x inside it, and equals the bound that x passes |
| Score.RoundTenth | app.py:81 | the result is a whole number of tenths, within 0.05 of x |
| Score.RoundTenthMonotone | app.py:81 | rounding never reverses order |
| Score.RoundTenthExact | app.py:81 | a whole number of tenths rounds to itself |
| Score.ZScore | app.py:78-79 | z lies in [-2, 2]; for a ratio in [0, 1] only the upper clamp can act |
| Score.CongestionScore | app.py:78-81 | the score lies in [0, 10] |
| Score.LevelOf | app.py:82 | HIGH iff score > 7, MEDIUM iff 4 < score ≤ 7, LOW iff score ≤ 4 |
| Score.BaselineScore | app.py:78-82 | a used ratio of 0.30 scores 5, MEDIUM |
| Score.SaturatedHigh | app.py:78-82 | a used ratio of 0.55 or more scores 10, HIGH |
| Score.SaturatedLow | app.py:78-82 | a used ratio of 0.05 or less scores 0, LOW |
| Score.ScoreMonotone | app.py:78-81 | the score never decreases as the used ratio grows |
| Score.EffectiveLandArea | app.py:69 | the result is at least 1, and equals area − water whenever that is at least 1 |
| Score.Assess | app.py:63-82 | effective land ≥ 1, and equals π r² − water when that is ≥ 1; used ratio × effective land = buildings + roads; buildings + roads + open space = effective land; score in [0, 10]; the three level conditions |
| Score.Insert | app.py:89 | inserting makes the list one longer and puts either the new entry or the old head first |
| Score.InsertSorted | app.py:89 | inserting into a list sorted by non-increasing area keeps it sorted |
| Score.InsertCount | app.py:89 | inserting adds exactly the one entry and loses none |
| Score.SortByArea | app.py:89 | the result is sorted by non-increasing area and is a permutation of the dictionary's entries |
| Score.TopEntries | app.py:89 | keeps min(10, size) entries, sorted by non-increasing area, each taken from the dictionary and none more often than it occurs there |
| Score.TopEntriesAreLargest | app.py:89 | no entry left out of the top ten has a larger area than an entry in it |
| Score.TopTags | app.py:89 | at most 10 tags, each the tag of the corresponding top entry and a key of the dictionary |
| Score.TopTagsDistinct | app.py:89 | with distinct dictionary keys, no tag is listed twice among the top ten |
| Score.Colours | app.py:98 | the map's keys are exactly the top tags |
| Score.ColoursByRank | app.py:98 | a tag gets the fixed colour for its type, else the palette colour for its rank |
| Score.ColourMap | app.py:91-99 | keys are the top tags plus "Other"; "Other" is grey; every other tag not repeated later has the colour for its rank |
| Score.TopColours | app.py:88-99 | for a dictionary with distinct keys, every top tag other than "Other" gets the colour for its rank |
| Score.TypeShare | app.py:317 | 0 when the total building area is 0 or less; otherwise share × total = area × 100, and it lies in [0, 100] when 0 ≤ area ≤ total |
| Score.SharesScale | app.py:315-317 | the shares summed, times the total, equal the dictionary's total times 100 |
| Score.SharesSumTo100 | app.py:315-317 | over the whole dictionary, the shares against its own total add up to 100 |

## Left out

- The default radius of 500 m (congestion_features.py:191): callers pass the radius,
  and Python's default arguments have no counterpart here.
- `_overpass` (congestion_features.py:37-50): it is network I/O with retries and sleeps.
  The response's `elements` list is an input of the pipeline.
- The Overpass query text (congestion_features.py:197-206): only the fetch box it is
  built from is modelled.
- pyproj: building the CRS and the transformers, and transforming points. Only the
  choice of zone and hemisphere is modelled; `Projector` returns that choice.
- shapely: polygon and line construction, `buffer`, `intersection`, `make_valid`,
  `.area` and `.length`. Their answers are per-element inputs in `Shape`.
  - An exception raised by shapely inside a building or water try-block is one flag
    (`raises`). It is not tied to a particular call.
  - The road loop has no try-block, so a shapely error there is not modelled.
- Text.ParseNumber: accepts only an optional sign followed by digits with at most one
  decimal point. Python's `float()` also accepts exponents, `inf`, `nan`, underscores
  between digits and non-ASCII digits. Those tokens are treated as the ValueError case.
- Text.Lower: maps only the ASCII letters A-Z. Python's `str.lower()` also maps
  non-ASCII letters.
- Score.RoundTenth: rounds halves up, on exact reals. Python's `round(x, 1)` works on
  binary doubles with round-half-even. Only the [0, 10] clamp is relied on for bounds.
- Floating point: all arithmetic is on exact reals. `np.pi` is the decimal literal of
  the double it denotes. `math.floor` at congestion_features.py:25 raises on a NaN or
  infinite longitude; reals have neither, so Projection.UtmZone is proved for finite
  longitudes only.
- Aggregate.Analyze: a zero radius gives None. The source raises ZeroDivisionError at
  the first ratio.
- Aggregate.Analysis: the buffer polygon and the two transformers in the returned
  tuple are left out. They are shapely and pyproj objects.
- Score.SortByArea: stability is built into `Insert`, but no separate lemma states it.
- Rendering in app.py: Streamlit, folium, plotly, `_geom_to_coords`, the map layers,
  the legend HTML, the pie charts and the caption.
