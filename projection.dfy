/**
 * Choice of the planar frame for one query: the UTM zone from the longitude and the
 * north/south variant from the latitude, plus the square box the data fetch asks for.
 * The map projection itself (building the CRS and transforming points) is not modelled.
 */
module Projection {

  datatype Hemisphere = North | South

  /** The UTM frame used for the query: zone number and hemisphere variant. */
  datatype Utm = Utm(zone: int, hemisphere: Hemisphere)

  /** Zone index `floor((lng + 180) / 6) % 60 + 1`, for any real longitude. */
  function UtmZone(lng: real): (zone: int)
    ensures 1 <= zone <= 60
  {
    ((lng + 180.0) / 6.0).Floor % 60 + 1
  }

  /** The frame the projector builds for (lat, lng); "south" exactly when lat < 0. */
  function Projector(lat: real, lng: real): (u: Utm)
    ensures 1 <= u.zone <= 60
    ensures u.hemisphere == South <==> lat < 0.0
  {
    Utm(UtmZone(lng), if lat < 0.0 then South else North)
  }

  /** Inside [-180, 180) the zone is the 6-degree band that holds the longitude. */
  lemma ZoneBand(lng: real)
    requires -180.0 <= lng < 180.0
    ensures var z := UtmZone(lng);
      -180.0 + 6.0 * (z - 1) as real <= lng < -180.0 + 6.0 * z as real
  {
    var f := ((lng + 180.0) / 6.0).Floor;
    assert 0 <= f < 60 by {
      assert 0.0 <= (lng + 180.0) / 6.0 < 60.0;
    }
    assert f % 60 == f;
    assert f as real <= (lng + 180.0) / 6.0 < f as real + 1.0;
  }

  /** Longitudes a full turn apart fall in the same zone. */
  lemma ZonePeriodic(lng: real)
    ensures UtmZone(lng + 360.0) == UtmZone(lng)
  {
    var f := ((lng + 180.0) / 6.0).Floor;
    var g := ((lng + 360.0 + 180.0) / 6.0).Floor;
    assert (lng + 360.0 + 180.0) / 6.0 == (lng + 180.0) / 6.0 + 60.0;
    assert g == f + 60;
  }

  /** Both ends of the date line fall in zone 1; the last band is zone 60. */
  lemma ZoneEdges()
    ensures UtmZone(-180.0) == 1 && UtmZone(180.0) == 1
    ensures UtmZone(179.5) == 60
  {
    assert (360.0 / 6.0).Floor == 60;
    assert (359.5 / 6.0).Floor == 59;
  }

  /** The (south, west, north, east) box of the data fetch. */
  datatype BoundingBox = BoundingBox(south: real, west: real, north: real, east: real)

  /** Half-width of the fetch box in degrees: the radius at about 111 km per degree,
      doubled as a safety margin. */
  function FetchMargin(radius: int): real {
    radius as real / 111000.0 * 2.0
  }

  /** The box around the query point that the fetch covers. */
  function FetchBox(lat: real, lng: real, radius: int): (b: BoundingBox)
    ensures b.north - b.south == b.east - b.west == 4.0 * radius as real / 111000.0
    ensures radius > 0 ==> b.south < lat < b.north && b.west < lng < b.east
    ensures (b.south + b.north) / 2.0 == lat && (b.west + b.east) / 2.0 == lng
  {
    var delta := FetchMargin(radius);
    BoundingBox(lat - delta, lng - delta, lat + delta, lng + delta)
  }
}
