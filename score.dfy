/**
 * The numbers the presentation script derives from the metrics: the water-excluded
 * land area, the built-up ratio, the clamped z-score, the 0-10 congestion score and its
 * level, the top-10 building types with their colours, and the per-type percentage.
 */
module Score {
  import opened Features
  import opened Aggregate

  // ---------------------------------------------------------------------------
  // Congestion score

  datatype Level = High | Medium | Low

  /** Built-up ratio that scores 5. */
  const BaselineRatio: real := 0.30
  /** Change in built-up ratio worth one unit of z. */
  const RatioSpread: real := 0.25

  function Min(a: real, b: real): real {
    if a <= b then a else b
  }

  /** `max(lo, min(hi, x))`. */
  function Clamp(lo: real, hi: real, x: real): (r: real)
    requires lo <= hi
    ensures lo <= r <= hi
    ensures lo <= x <= hi ==> r == x
    ensures x <= lo ==> r == lo
    ensures x >= hi ==> r == hi
  {
    Max(lo, Min(hi, x))
  }

  /** `round(x, 1)`: the nearest whole number of tenths, halves rounded up. */
  function RoundTenth(x: real): (r: real)
    ensures x - 0.05 < r <= x + 0.05
    ensures (r * 10.0).Floor as real == r * 10.0
  {
    var n := (x * 10.0 + 0.5).Floor;
    assert n as real <= x * 10.0 + 0.5 < n as real + 1.0;
    (n as real) / 10.0
  }

  lemma RoundTenthMonotone(x: real, y: real)
    requires x <= y
    ensures RoundTenth(x) <= RoundTenth(y)
  {
    var a := (x * 10.0 + 0.5).Floor;
    var b := (y * 10.0 + 0.5).Floor;
    assert a as real <= x * 10.0 + 0.5 <= y * 10.0 + 0.5 < b as real + 1.0;
    assert a <= b;
  }

  /** A whole number of tenths rounds to itself. */
  lemma RoundTenthExact(n: int)
    ensures RoundTenth(n as real / 10.0) == n as real / 10.0
  {
    assert (n as real / 10.0) * 10.0 + 0.5 == n as real + 0.5;
    assert (n as real + 0.5).Floor == n;
  }

  /** `(used - 0.30) / 0.25`, clamped to [-2, 2]. */
  function ZScore(usedRatio: real): (z: real)
    ensures -2.0 <= z <= 2.0
    ensures 0.0 <= usedRatio <= 1.0 ==> z == Min(2.0, (usedRatio - BaselineRatio) / RatioSpread)
  {
    Clamp(-2.0, 2.0, (usedRatio - BaselineRatio) / RatioSpread)
  }

  /** `max(0, min(10, round(z * 5 + 5, 1)))`. */
  function CongestionScore(usedRatio: real): (score: real)
    ensures 0.0 <= score <= 10.0
  {
    var raw := ZScore(usedRatio) * 5.0 + 5.0;
    Clamp(0.0, 10.0, RoundTenth(raw))
  }

  /** HIGH above 7, MEDIUM above 4, LOW otherwise. */
  function LevelOf(score: real): (level: Level)
    ensures level == High <==> score > 7.0
    ensures level == Medium <==> 4.0 < score <= 7.0
    ensures level == Low <==> score <= 4.0
  {
    if score > 7.0 then High else if score > 4.0 then Medium else Low
  }

  /** The baseline ratio scores exactly 5, a MEDIUM level. */
  lemma BaselineScore()
    ensures CongestionScore(BaselineRatio) == 5.0
    ensures LevelOf(CongestionScore(BaselineRatio)) == Medium
  {
    assert ZScore(BaselineRatio) == 0.0;
    RoundTenthExact(50);
  }

  /** A built-up ratio of 0.55 or more saturates the score at 10 (HIGH). */
  lemma SaturatedHigh(usedRatio: real)
    requires usedRatio >= 0.55
    ensures CongestionScore(usedRatio) == 10.0
    ensures LevelOf(CongestionScore(usedRatio)) == High
  {
    var raw := ZScore(usedRatio) * 5.0 + 5.0;
    assert raw >= 10.0;
    RoundTenthExact(100);
    RoundTenthMonotone(10.0, raw);
  }

  /** A built-up ratio of 0.05 or less bottoms the score out at 0 (LOW). */
  lemma SaturatedLow(usedRatio: real)
    requires usedRatio <= 0.05
    ensures CongestionScore(usedRatio) == 0.0
    ensures LevelOf(CongestionScore(usedRatio)) == Low
  {
    var raw := ZScore(usedRatio) * 5.0 + 5.0;
    assert raw <= 0.0;
    RoundTenthExact(0);
    RoundTenthMonotone(raw, 0.0);
  }

  /** More built-up land never lowers the score. */
  lemma ScoreMonotone(u: real, v: real)
    requires u <= v
    ensures CongestionScore(u) <= CongestionScore(v)
  {
    var zu := (u - BaselineRatio) / RatioSpread;
    var zv := (v - BaselineRatio) / RatioSpread;
    assert zu <= zv;
    assert ZScore(u) <= ZScore(v);
    RoundTenthMonotone(ZScore(u) * 5.0 + 5.0, ZScore(v) * 5.0 + 5.0);
  }

  /** What the script shows for one analysis. */
  datatype Assessment = Assessment(totalArea: real, effectiveLandArea: real,
                                   usedAreaRatio: real, trueOpenSpace: real,
                                   score: real, level: Level)

  /** Disk area minus water, floored at 1 square metre. */
  function EffectiveLandArea(totalArea: real, waterArea: real): (e: real)
    ensures e >= 1.0 && e >= totalArea - waterArea
    ensures totalArea - waterArea >= 1.0 ==> e == totalArea - waterArea
    ensures totalArea - waterArea < 1.0 ==> e == 1.0
  {
    Max(totalArea - waterArea, 1.0)
  }

  /** The congestion assessment for a query of the given radius and its metrics. */
  function Assess(radius: int, m: Metrics): (a: Assessment)
    ensures a.totalArea == DiskArea(radius)
    ensures a.effectiveLandArea >= 1.0
    ensures a.totalArea - m.waterArea >= 1.0 ==> a.effectiveLandArea == a.totalArea - m.waterArea
    ensures a.usedAreaRatio * a.effectiveLandArea == m.totalBuildingArea + m.totalRoadArea
    ensures m.totalBuildingArea + m.totalRoadArea + a.trueOpenSpace == a.effectiveLandArea
    ensures 0.0 <= a.score <= 10.0
    ensures a.level == High <==> a.score > 7.0
    ensures a.level == Medium <==> 4.0 < a.score <= 7.0
    ensures a.level == Low <==> a.score <= 4.0
  {
    var total := DiskArea(radius);
    var land := EffectiveLandArea(total, m.waterArea);
    var used := (m.totalBuildingArea + m.totalRoadArea) / land;
    var openSpace := land - m.totalBuildingArea - m.totalRoadArea;
    var score := CongestionScore(used);
    Assessment(total, land, used, openSpace, score, LevelOf(score))
  }

  // ---------------------------------------------------------------------------
  // Top building types

  /** Entries in order of non-increasing area. */
  predicate ByAreaDesc(s: TypeAreas) {
    forall i, j :: 0 <= i < j < |s| ==> s[i].area >= s[j].area
  }

  /** Places `e` before the first entry whose area is not larger, so that among equal
      areas the earlier entry of the dictionary stays first. */
  function Insert(e: TypeArea, s: TypeAreas): (r: TypeAreas)
    ensures |r| == |s| + 1
    ensures r[0] == e || (s != [] && r[0] == s[0])
  {
    if s == [] || s[0].area <= e.area then [e] + s
    else [s[0]] + Insert(e, s[1..])
  }

  /** Inserting into a list sorted by non-increasing area keeps it sorted. */
  lemma {:induction false} InsertSorted(e: TypeArea, s: TypeAreas)
    requires ByAreaDesc(s)
    ensures ByAreaDesc(Insert(e, s))
  {
    if s != [] && s[0].area > e.area {
      var rest := Insert(e, s[1..]);
      InsertSorted(e, s[1..]);
      assert rest[0].area <= s[0].area;
      var r := [s[0]] + rest;
      assert r == Insert(e, s);
      assert forall j :: 0 < j < |r| ==> r[j] == rest[j - 1];
    }
  }

  /** Inserting adds exactly the one entry and loses none. */
  lemma {:induction false} InsertCount(e: TypeArea, s: TypeAreas)
    ensures multiset(Insert(e, s)) == multiset(s) + multiset{e}
  {
    if s != [] && s[0].area > e.area {
      InsertCount(e, s[1..]);
      assert Insert(e, s) == [s[0]] + Insert(e, s[1..]);
      assert s == [s[0]] + s[1..];
    }
  }

  /** `sorted(d.items(), key=area, reverse=True)`: a stable sort by non-increasing area. */
  function SortByArea(d: TypeAreas): (r: TypeAreas)
    ensures ByAreaDesc(r)
    ensures multiset(r) == multiset(d)
  {
    if d == [] then []
    else
      assert d == [d[0]] + d[1..];
      InsertSorted(d[0], SortByArea(d[1..]));
      InsertCount(d[0], SortByArea(d[1..]));
      Insert(d[0], SortByArea(d[1..]))
  }

  /** Number of building types the legend lists. */
  const TopCount: nat := 10

  /** The first ten entries of the sorted dictionary. */
  function TopEntries(d: TypeAreas): (top: TypeAreas)
    ensures |top| == if |d| < TopCount then |d| else TopCount
    ensures ByAreaDesc(top)
    ensures forall e :: e in top ==> e in d
    ensures multiset(top) <= multiset(d)
  {
    var s := SortByArea(d);
    var top := s[..if |s| < TopCount then |s| else TopCount];
    PrefixEntries(s, d, |top|);
    top
  }

  /** A prefix of a permutation of `d` holds no entry more often than `d` does. */
  lemma PrefixEntries(s: TypeAreas, d: TypeAreas, n: nat)
    requires n <= |s| && multiset(s) == multiset(d)
    ensures |s| == |d|
    ensures multiset(s[..n]) <= multiset(d)
    ensures forall e :: e in s[..n] ==> e in d
  {
    assert |s| == |multiset(s)| == |multiset(d)| == |d|;
    assert s == s[..n] + s[n..];
    forall e | e in s[..n]
      ensures e in d
    {
      assert e in multiset(s);
    }
  }

  /** Every entry left out of the top ten has an area no larger than any entry in it. */
  lemma TopEntriesAreLargest(d: TypeAreas)
    ensures forall e, t :: e in d && e !in TopEntries(d) && t in TopEntries(d) ==> e.area <= t.area
  {
    var s := SortByArea(d);
    var top := TopEntries(d);
    assert top == s[..|top|];
    forall e, t | e in d && e !in top && t in top
      ensures e.area <= t.area
    {
      assert e in multiset(d);
      assert e in s;
      var j :| 0 <= j < |s| && s[j] == e;
      var i :| 0 <= i < |top| && top[i] == t;
      assert forall k :: 0 <= k < |top| ==> top[k] == s[k];
      assert j >= |top|;
      assert s[i] == t;
    }
  }

  /** The tags of the top entries. */
  function TopTags(d: TypeAreas): (tags: seq<string>)
    ensures |tags| <= TopCount
    ensures |tags| == |TopEntries(d)|
    ensures forall i :: 0 <= i < |tags| ==> tags[i] == TopEntries(d)[i].btype
    ensures forall i :: 0 <= i < |tags| ==> tags[i] in Keys(d)
  {
    var top := TopEntries(d);
    forall i | 0 <= i < |top|
      ensures top[i].btype in Keys(d)
    {
      EntryKey(d, top[i]);
    }
    seq(|top|, i requires 0 <= i < |top| => top[i].btype)
  }

  /** Two places holding the same entry make it occur twice. */
  lemma Twice(s: TypeAreas, i: nat, j: nat)
    requires i < j < |s| && s[i] == s[j]
    ensures multiset(s)[s[i]] >= 2
  {
    assert s == s[..j] + s[j..];
    assert s[i] in s[..j];
    assert s[j..] == [s[j]] + s[j + 1..];
  }

  /** The dictionary's keys are distinct, so no tag is listed twice among the top ten. */
  lemma TopTagsDistinct(d: TypeAreas)
    requires DistinctKeys(d)
    ensures forall i, j :: 0 <= i < j < |TopTags(d)| ==> TopTags(d)[i] != TopTags(d)[j]
  {
    var top := TopEntries(d);
    forall i, j | 0 <= i < j < |top| && top[i].btype == top[j].btype
      ensures false
    {
      KeyDetermines(d, top[i], top[j]);
      Twice(top, i, j);
      DistinctKeysOnce(d, top[i]);
    }
  }

  // ---------------------------------------------------------------------------
  // Colours

  /** Colours for the common building types. */
  const FixedColours: map<string, string> := map[
    "building=house" := "#d32f2f", "building=yes" := "#1976d2",
    "building=apartments" := "#388e3c", "building=residential" := "#7b1fa2",
    "building=roof" := "#f57c00", "building=garage" := "#fbc02d",
    "building=commercial" := "#c2185b", "building=retail" := "#00897b",
    "building=industrial" := "#455a64", "building=shed" := "#5d4037"]

  /** Colours handed out by rank to the other types. */
  const Palette: seq<string> := [
    "#8e44ad", "#3498db", "#e74c3c", "#2ecc71", "#f1c40f",
    "#e67e22", "#1abc9c", "#34495e", "#9b59b6", "#16a085"]

  const OtherTag := "Other"
  const OtherColour := "#95a5a6"

  /** The colour of the tag at rank `i`: its fixed colour, else the palette's. */
  function TagColour(tag: string, i: nat): string {
    if tag in FixedColours then FixedColours[tag] else Palette[i % |Palette|]
  }

  /** `{tag: colour(tag, i) for i, tag in enumerate(tags)}`. */
  function Colours(tags: seq<string>): (m: map<string, string>)
    ensures m.Keys == set t | t in tags
  {
    if tags == [] then map[]
    else
      var prefix := tags[..|tags| - 1];
      var m := Colours(prefix)[tags[|tags| - 1] := TagColour(tags[|tags| - 1], |tags| - 1)];
      assert tags == prefix + [tags[|tags| - 1]];
      m
  }

  lemma {:induction false} ColoursByRank(tags: seq<string>, i: nat)
    requires i < |tags|
    requires forall j :: i < j < |tags| ==> tags[j] != tags[i]
    ensures Colours(tags)[tags[i]] == TagColour(tags[i], i)
  {
    if i < |tags| - 1 {
      var prefix := tags[..|tags| - 1];
      ColoursByRank(prefix, i);
    }
  }

  /** The colour map of the legend: one colour per top tag, and "Other" always mapped
      to grey. */
  function ColourMap(top: seq<string>): (m: map<string, string>)
    ensures m.Keys == (set t | t in top) + {OtherTag}
    ensures m[OtherTag] == OtherColour
    ensures forall i :: (0 <= i < |top| && top[i] != OtherTag &&
      (forall j :: i < j < |top| ==> top[j] != top[i])) ==> m[top[i]] == TagColour(top[i], i)
  {
    forall i | 0 <= i < |top| && (forall j :: i < j < |top| ==> top[j] != top[i])
      ensures Colours(top)[top[i]] == TagColour(top[i], i)
    {
      ColoursByRank(top, i);
    }
    Colours(top)[OtherTag := OtherColour]
  }

  /** In the legend of a query's top ten, every type other than "Other" gets the colour
      of its rank: its fixed colour, else the palette colour at its position. */
  lemma TopColours(d: TypeAreas)
    requires DistinctKeys(d)
    ensures var tags := TopTags(d);
      forall i :: 0 <= i < |tags| && tags[i] != OtherTag ==>
        ColourMap(tags)[tags[i]] == TagColour(tags[i], i)
  {
    TopTagsDistinct(d);
  }

  // ---------------------------------------------------------------------------
  // Per-type percentage

  /** `area / total * 100 if total > 0 else 0`. */
  function TypeShare(area: real, total: real): (pct: real)
    ensures total <= 0.0 ==> pct == 0.0
    ensures total > 0.0 ==> pct * total == area * 100.0
    ensures total > 0.0 && 0.0 <= area <= total ==> 0.0 <= pct <= 100.0
  {
    if total > 0.0 then
      var q := area / total;
      assert q * total == area;
      assert 0.0 <= area <= total ==> 0.0 <= q <= 1.0;
      q * 100.0
    else 0.0
  }

  /** Sum of the shares of the dictionary's entries against `total`. */
  function Shares(d: TypeAreas, total: real): real {
    if d == [] then 0.0 else TypeShare(d[0].area, total) + Shares(d[1..], total)
  }

  lemma {:induction false} SharesScale(d: TypeAreas, total: real)
    requires total > 0.0
    ensures Shares(d, total) * total == Total(d) * 100.0
  {
    if d != [] {
      SharesScale(d[1..], total);
      calc {
        Shares(d, total) * total;
        TypeShare(d[0].area, total) * total + Shares(d[1..], total) * total;
        d[0].area * 100.0 + Total(d[1..]) * 100.0;
      }
    }
  }

  /** Over the whole dictionary the shares add up to 100 percent. */
  lemma SharesSumTo100(d: TypeAreas)
    requires Total(d) > 0.0
    ensures Shares(d, Total(d)) == 100.0
  {
    var total := Total(d);
    SharesScale(d, total);
    CancelFactor(Shares(d, total), 100.0, total);
  }

  /** A positive factor common to both sides of an equation cancels. */
  lemma CancelFactor(a: real, b: real, t: real)
    requires t > 0.0 && a * t == b * t
    ensures a == b
  {
    assert (a - b) * t == 0.0;
  }
}
