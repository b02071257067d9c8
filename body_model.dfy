/**
 * The unfolded 2-D body map: five landmarks, the ordered table of zones where a node may be
 * placed, and the point classifier built on it (src/body_model.py).
 */
module BodyModel {
  import opened Wrappers
  import opened Numerics

  /** The rectangle [xMin, xMax] x [yMin, yMax], in centimetres. */
  datatype Rect = Rect(xMin: real, xMax: real, yMin: real, yMax: real) {
    /** Containment with inclusive bounds on all four sides. */
    predicate Contains(x: real, y: real) {
      xMin <= x <= xMax && yMin <= y <= yMax
    }
  }

  /** A named zone with its propagation class ("Torso", "LOS" or "NLOS"). */
  datatype Zone = Zone(name: string, bounds: Rect, ptype: string)

  /** What the classifier reports: a zone name and its class, or (None, None). */
  datatype ZoneInfo = OffBody | OnBody(name: string, ptype: string)

  // Landmarks of the map (the centres of the zones of interest).
  const Chest := Point(36.0, 35.0)
  const Navel := Point(40.0, 54.0)
  const WristL := Point(15.0, 54.0)
  const AnkleL := Point(21.0, 109.0)
  const Back := Point(70.0, 35.0)

  /** The allowed zones, in the declaration order that the classifier scans. */
  const AllowedZones: seq<Zone> := [
    Zone("TORSO_FRONT", Rect(25.0, 50.0, 20.0, 60.0), "Torso"),
    Zone("BACK_ZONE", Rect(60.0, 85.0, 20.0, 60.0), "LOS"),
    Zone("ARM_LEFT", Rect(5.0, 20.0, 40.0, 70.0), "NLOS"),
    Zone("LEG_LEFT", Rect(10.0, 30.0, 80.0, 120.0), "NLOS")
  ]

  /** The scan of the classifier: the first zone, at index `from` or later, that contains (x, y). */
  function FirstContainingZone(zones: seq<Zone>, x: real, y: real, from: nat): (r: Option<nat>)
    requires from <= |zones|
    ensures r.Some? ==> from <= r.value < |zones| && zones[r.value].bounds.Contains(x, y)
    ensures r.Some? ==> forall j :: from <= j < r.value ==> !zones[j].bounds.Contains(x, y)
    ensures r.None? <==> forall j :: from <= j < |zones| ==> !zones[j].bounds.Contains(x, y)
    decreases |zones| - from
  {
    if from == |zones| then None
    else if zones[from].bounds.Contains(x, y) then Some(from)
    else FirstContainingZone(zones, x, y, from + 1)
  }

  /** The zone of (x, y): the first allowed zone containing it, or OffBody when there is none. */
  function GetZoneInfo(x: real, y: real): (info: ZoneInfo)
    ensures info.OnBody? ==>
      exists i :: 0 <= i < |AllowedZones| && AllowedZones[i].bounds.Contains(x, y)
        && info == OnBody(AllowedZones[i].name, AllowedZones[i].ptype)
        && forall j :: 0 <= j < i ==> !AllowedZones[j].bounds.Contains(x, y)
    ensures info.OffBody? <==> forall i :: 0 <= i < |AllowedZones| ==> !AllowedZones[i].bounds.Contains(x, y)
  {
    match FirstContainingZone(AllowedZones, x, y, 0)
    case None => OffBody
    case Some(i) => OnBody(AllowedZones[i].name, AllowedZones[i].ptype)
  }

  /** A point is a valid placement when some allowed zone contains it. */
  function IsValidPosition(x: real, y: real): (valid: bool)
    ensures valid <==> exists i :: 0 <= i < |AllowedZones| && AllowedZones[i].bounds.Contains(x, y)
  {
    GetZoneInfo(x, y).OnBody?
  }

  /** `random.uniform(a, b)` given the draw `u` of `random.random()`. */
  function Uniform(a: real, b: real, u: real): (r: real)
    requires a <= b && 0.0 <= u <= 1.0
    ensures a <= r <= b
  {
    var width := b - a;
    ScaledFraction(width, u);
    a + width * u
  }

  lemma ScaledFraction(w: real, u: real)
    requires 0.0 <= w && 0.0 <= u <= 1.0
    ensures 0.0 <= w * u <= w
  {
    NonNegativeProduct(w, u);
    NonNegativeProduct(w, 1.0 - u);
    assert w * (1.0 - u) == w - w * u;
  }

  /**
   * A random valid position, given the draws: `zoneChoice` is the index `random.choice` picks
   * among the zones, `u` and `v` the numbers in [0, 1] behind the two `random.uniform` calls.
   */
  function GetRandomValidPosition(zoneChoice: nat, u: real, v: real): (p: Point)
    requires zoneChoice < |AllowedZones| && 0.0 <= u <= 1.0 && 0.0 <= v <= 1.0
    ensures AllowedZones[zoneChoice].bounds.Contains(p.x, p.y)
    ensures GetZoneInfo(p.x, p.y) == OnBody(AllowedZones[zoneChoice].name, AllowedZones[zoneChoice].ptype)
    ensures IsValidPosition(p.x, p.y)
  {
    var b := AllowedZones[zoneChoice].bounds;
    var p := Point(Uniform(b.xMin, b.xMax, u), Uniform(b.yMin, b.yMax, v));
    ClassifiedByContainingZone(zoneChoice, p.x, p.y);
    p
  }

  /** The hub sits at the navel, which is on the front of the torso. */
  function GetHubPosition(): (p: Point)
    ensures p == Navel
    ensures GetZoneInfo(p.x, p.y) == OnBody("TORSO_FRONT", "Torso") && IsValidPosition(p.x, p.y)
  {
    ClassifiedByContainingZone(0, Navel.x, Navel.y);
    Navel
  }

  /** No point lies in two allowed zones. */
  lemma ZonesPairwiseDisjoint(i: nat, j: nat, x: real, y: real)
    requires i < j < |AllowedZones|
    ensures !(AllowedZones[i].bounds.Contains(x, y) && AllowedZones[j].bounds.Contains(x, y))
  {
  }

  /** Because the zones are disjoint, a point is classified by the one zone that contains it. */
  lemma ClassifiedByContainingZone(i: nat, x: real, y: real)
    requires i < |AllowedZones| && AllowedZones[i].bounds.Contains(x, y)
    ensures GetZoneInfo(x, y) == OnBody(AllowedZones[i].name, AllowedZones[i].ptype)
  {
    var r := FirstContainingZone(AllowedZones, x, y, 0);
    assert r.Some?;
    if r.value < i {
      ZonesPairwiseDisjoint(r.value, i, x, y);
    }
  }

  /** The landmarks and a corner point classify as the source's checks expect. */
  lemma LandmarkZones()
    ensures GetZoneInfo(Back.x, Back.y) == OnBody("BACK_ZONE", "LOS")
    ensures GetZoneInfo(Chest.x, Chest.y) == OnBody("TORSO_FRONT", "Torso")
    ensures GetZoneInfo(Navel.x, Navel.y) == OnBody("TORSO_FRONT", "Torso")
    ensures GetZoneInfo(WristL.x, WristL.y) == OnBody("ARM_LEFT", "NLOS")
    ensures GetZoneInfo(AnkleL.x, AnkleL.y) == OnBody("LEG_LEFT", "NLOS")
    ensures GetZoneInfo(25.0, 20.0) == OnBody("TORSO_FRONT", "Torso")
  {
    ClassifiedByContainingZone(1, Back.x, Back.y);
    ClassifiedByContainingZone(0, Chest.x, Chest.y);
    ClassifiedByContainingZone(0, Navel.x, Navel.y);
    ClassifiedByContainingZone(2, WristL.x, WristL.y);
    ClassifiedByContainingZone(3, AnkleL.x, AnkleL.y);
    ClassifiedByContainingZone(0, 25.0, 20.0);
  }

  /** Every name and class the classifier reports comes from the zone table. */
  lemma ClassifiedNamesFromTable(x: real, y: real)
    ensures var info := GetZoneInfo(x, y);
      info.OnBody? ==>
        && info.name in {"TORSO_FRONT", "BACK_ZONE", "ARM_LEFT", "LEG_LEFT"}
        && info.ptype in {"Torso", "LOS", "NLOS"}
  {
    var r := FirstContainingZone(AllowedZones, x, y, 0);
    if r.Some? {
      assert r.value in {0, 1, 2, 3};
    }
  }
}
