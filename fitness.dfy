/**
 * The optimisation problem (src/fitness.py): a candidate solution is a flat vector of relay
 * coordinates; its fitness is the off-body penalty when a relay lies off the body, and otherwise
 * the energy of one cycle in which every fixed sensor sends its packets over its cheapest route
 * to the hub, either direct or through one relay.
 */
module Fitness {
  import opened Wrappers
  import opened Numerics
  import opened BodyModel
  import opened Physics

  /** A fixed data source: where it sits and how many packets it sends per cycle. */
  datatype Sensor = Sensor(name: string, pos: Point, dataRate: int)

  const FixedSensors: seq<Sensor> := [
    Sensor("ECG_Monitor", Chest, 500),
    Sensor("Activity_L", WristL, 100),
    Sensor("Activity_Leg", AnkleL, 100),
    Sensor("Temp_Sensor", Back, 10)
  ]

  const HubPos := Navel

  /** The fitness of a solution with a relay off the body (in joules, far above any real cost). */
  const PenaltyOffBody := 1.0

  /** A sensor's route to the hub: direct, or two hops through the relay at `index`. */
  datatype Route = Direct | ViaRelay(index: nat)

  // ---------------------------------------------------------------------------------------
  // Location types of the hops

  /**
   * The location type the source passes for a hop that starts at a sensor:
   * `s_zone[1] if s_zone else 'General'`, i.e. the second CHARACTER of the sensor's zone name.
   * (A one-letter zone name would raise an index error there; no zone has one.)
   */
  function SensorHopClass(zone: ZoneInfo): string
    requires zone.OnBody? ==> |zone.name| != 1
  {
    if zone.OffBody? || zone.name == "" then "General" else [zone.name[1]]
  }

  /** The location type of the hop from a relay to the hub: `r_type if r_zone else 'General'`. */
  function RelayHopClass(zone: ZoneInfo): string {
    if zone.OffBody? || zone.name == "" then "General" else zone.ptype
  }

  /** The sensor-side location type of sensor `s`. */
  function SensorClass(s: Sensor): string {
    ClassifiedNamesFromTable(s.pos.x, s.pos.y);
    SensorHopClass(GetZoneInfo(s.pos.x, s.pos.y))
  }

  /** The location type of the hop from relay `r` to the hub. */
  function RelayClass(r: Point): string {
    RelayHopClass(GetZoneInfo(r.x, r.y))
  }

  // ---------------------------------------------------------------------------------------
  // Route costs

  /** Energy of one packet sent straight from the sensor to the hub. */
  function DirectCost(m: MathLib, s: Sensor): real {
    EnergyConsumption(m, s.pos, HubPos, SensorClass(s), DefaultPacketBits)
  }

  /** Energy of one packet sent from the sensor to relay `r` and from there to the hub. */
  function TwoHopCost(m: MathLib, s: Sensor, r: Point): real {
    var hop1 := EnergyConsumption(m, s.pos, r, SensorClass(s), DefaultPacketBits);
    var hop2 := EnergyConsumption(m, r, HubPos, RelayClass(r), DefaultPacketBits);
    hop1 + hop2
  }

  /**
   * The route scan over plain costs: `direct` is the cost of the direct route and `viaRelay[i]`
   * that of the route through relay i. After the first k relays, the held route is the direct
   * one unless a relay was strictly cheaper than the route held when it was reached.
   */
  function ScanRoute(direct: real, viaRelay: seq<real>, k: nat): (route: Route)
    requires k <= |viaRelay|
    ensures route.ViaRelay? ==> route.index < k
  {
    if k == 0 then Direct
    else
      var held := ScanRoute(direct, viaRelay, k - 1);
      if viaRelay[k - 1] < CostOf(direct, viaRelay, held) then ViaRelay(k - 1) else held
  }

  /**
   * One step of the scan: with `c` the next relay's cost and `held` the cost held so far, the
   * held cost becomes `c` exactly when `c` is strictly lower.
   */
  lemma ScanRouteStep(direct: real, viaRelay: seq<real>, k: nat, c: real, held: real)
    requires k < |viaRelay| && c == viaRelay[k]
    requires held == CostOf(direct, viaRelay, ScanRoute(direct, viaRelay, k))
    ensures CostOf(direct, viaRelay, ScanRoute(direct, viaRelay, k + 1)) == if c < held then c else held
  {
  }

  function CostOf(direct: real, viaRelay: seq<real>, route: Route): real
    requires route.ViaRelay? ==> route.index < |viaRelay|
  {
    match route
    case Direct => direct
    case ViaRelay(i) => viaRelay[i]
  }

  /** The two-hop cost through each relay, in relay order. */
  function TwoHopCosts(m: MathLib, s: Sensor, relays: seq<Point>): (costs: seq<real>)
    ensures |costs| == |relays|
    ensures forall i :: 0 <= i < |relays| ==> costs[i] == TwoHopCost(m, s, relays[i])
  {
    seq(|relays|, i requires 0 <= i < |relays| => TwoHopCost(m, s, relays[i]))
  }

  /** The route a sensor uses, and its cost per packet. */
  function BestRoute(m: MathLib, s: Sensor, relays: seq<Point>): (route: Route)
    ensures route.ViaRelay? ==> route.index < |relays|
  {
    ScanRoute(DirectCost(m, s), TwoHopCosts(m, s, relays), |relays|)
  }

  function BestCost(m: MathLib, s: Sensor, relays: seq<Point>): real {
    CostOf(DirectCost(m, s), TwoHopCosts(m, s, relays), BestRoute(m, s, relays))
  }

  /** Energy of `dataRate` packets at `cost` joules each. */
  function Weighted(cost: real, dataRate: int): real {
    cost * dataRate as real
  }

  /** Energy of one cycle: every sensor's best cost times its data rate, summed in order. */
  function SumEnergy(m: MathLib, sensors: seq<Sensor>, relays: seq<Point>): real {
    if sensors == [] then 0.0
    else
      var last := sensors[|sensors| - 1];
      SumEnergy(m, sensors[..|sensors| - 1], relays) + Weighted(BestCost(m, last, relays), last.dataRate)
  }

  lemma SumEnergyExtend(m: MathLib, sensors: seq<Sensor>, relays: seq<Point>, j: nat)
    requires j < |sensors|
    ensures SumEnergy(m, sensors[..j + 1], relays)
         == SumEnergy(m, sensors[..j], relays) + Weighted(BestCost(m, sensors[j], relays), sensors[j].dataRate)
  {
    assert sensors[..j + 1][..j] == sensors[..j];
  }

  /** The baseline in which every sensor sends straight to the hub. */
  function DirectEnergy(m: MathLib, sensors: seq<Sensor>): real {
    if sensors == [] then 0.0
    else
      var last := sensors[|sensors| - 1];
      DirectEnergy(m, sensors[..|sensors| - 1]) + Weighted(DirectCost(m, last), last.dataRate)
  }

  function TotalDataRate(sensors: seq<Sensor>): int {
    if sensors == [] then 0 else TotalDataRate(sensors[..|sensors| - 1]) + sensors[|sensors| - 1].dataRate
  }

  // ---------------------------------------------------------------------------------------
  // Decoding and evaluation

  /**
   * The relays of a flat vector [x1, y1, x2, y2, ...]: pair i is (v[2i], v[2i+1]). An odd length
   * makes the source index past the end.
   */
  function Decode(v: seq<real>): (r: Result<seq<Point>>)
    ensures r.Failure? <==> |v| % 2 == 1
    ensures r.Ok? ==> |r.value| == |v| / 2
  {
    if |v| % 2 == 1 then Failure(IndexOutOfRange)
    else Ok(seq(|v| / 2, i requires 0 <= i < |v| / 2 => Point(v[2 * i], v[2 * i + 1])))
  }

  /** The inverse of decoding: the flat coordinate vector of a list of relays. */
  function Flatten(relays: seq<Point>): (v: seq<real>)
    ensures |v| == 2 * |relays|
  {
    if relays == [] then [] else [relays[0].x, relays[0].y] + Flatten(relays[1..])
  }

  predicate AllOnBody(relays: seq<Point>) {
    forall i :: 0 <= i < |relays| ==> IsValidPosition(relays[i].x, relays[i].y)
  }

  /** The fitness of a solution vector. */
  function Evaluate(m: MathLib, v: seq<real>): Result<real> {
    match Decode(v)
    case Failure(e) => Failure(e)
    case Ok(relays) =>
      if !AllOnBody(relays) then Ok(PenaltyOffBody) else Ok(SumEnergy(m, FixedSensors, relays))
  }

  /** Python's `xs * k` on a list. */
  function Repeat<T>(xs: seq<T>, k: int): seq<T> {
    if k <= 0 then [] else xs + Repeat(xs, k - 1)
  }

  // ---------------------------------------------------------------------------------------
  // Route choice

  /**
   * The route held after the first k relays is the first cheapest one: it costs no more than the
   * direct route and no more than any of those k relay routes, and every route scanned before it
   * costs strictly more (on a tie the earlier route stays).
   */
  lemma {:induction false} ScanRouteIsFirstCheapest(direct: real, viaRelay: seq<real>, k: nat)
    requires k <= |viaRelay|
    ensures var route := ScanRoute(direct, viaRelay, k);
      var c := CostOf(direct, viaRelay, route);
      && c <= direct
      && (forall i :: 0 <= i < k ==> c <= viaRelay[i])
      && (route.ViaRelay? ==> c < direct && forall i :: 0 <= i < route.index ==> c < viaRelay[i])
  {
    if k > 0 {
      ScanRouteIsFirstCheapest(direct, viaRelay, k - 1);
    }
  }

  /** The best cost of a sensor is that of one of its routes, and no route is cheaper. */
  lemma BestCostIsMinimum(m: MathLib, s: Sensor, relays: seq<Point>)
    ensures BestCost(m, s, relays) <= DirectCost(m, s)
    ensures forall i :: 0 <= i < |relays| ==> BestCost(m, s, relays) <= TwoHopCost(m, s, relays[i])
    ensures BestCost(m, s, relays) == DirectCost(m, s)
         || exists i :: 0 <= i < |relays| && BestCost(m, s, relays) == TwoHopCost(m, s, relays[i])
  {
    ScanRouteIsFirstCheapest(DirectCost(m, s), TwoHopCosts(m, s, relays), |relays|);
  }

  /** Every sensor's best cost per packet lies between the floor and the ceiling of one hop. */
  lemma BestCostBounds(m: MathLib, s: Sensor, relays: seq<Point>)
    ensures MinPacketEnergy <= BestCost(m, s, relays) <= MaxPacketEnergy
  {
    ScanRouteIsFirstCheapest(DirectCost(m, s), TwoHopCosts(m, s, relays), |relays|);
  }

  lemma WeightedMonotone(c1: real, c2: real, dataRate: int)
    requires c1 <= c2 && 0 <= dataRate
    ensures Weighted(c1, dataRate) <= Weighted(c2, dataRate)
  {
    NonNegativeProduct(c2 - c1, dataRate as real);
    assert (c2 - c1) * dataRate as real == c2 * dataRate as real - c1 * dataRate as real;
  }

  ghost predicate NonNegativeRates(sensors: seq<Sensor>) {
    forall i :: 0 <= i < |sensors| ==> sensors[i].dataRate >= 0
  }

  /** The energy of a cycle lies between the floor and the ceiling times the total data rate. */
  lemma {:induction false} SumEnergyBounds(m: MathLib, sensors: seq<Sensor>, relays: seq<Point>)
    requires NonNegativeRates(sensors)
    ensures MinPacketEnergy * TotalDataRate(sensors) as real
         <= SumEnergy(m, sensors, relays)
         <= MaxPacketEnergy * TotalDataRate(sensors) as real
  {
    if sensors != [] {
      var last := sensors[|sensors| - 1];
      SumEnergyBounds(m, sensors[..|sensors| - 1], relays);
      BestCostBounds(m, last, relays);
      WeightedMonotone(MinPacketEnergy, BestCost(m, last, relays), last.dataRate);
      WeightedMonotone(BestCost(m, last, relays), MaxPacketEnergy, last.dataRate);
    }
  }

  /** Relays never make a cycle dearer than sending everything straight to the hub. */
  lemma {:induction false} SumEnergyAtMostDirect(m: MathLib, sensors: seq<Sensor>, relays: seq<Point>)
    requires NonNegativeRates(sensors)
    ensures SumEnergy(m, sensors, relays) <= DirectEnergy(m, sensors)
  {
    if sensors != [] {
      var last := sensors[|sensors| - 1];
      SumEnergyAtMostDirect(m, sensors[..|sensors| - 1], relays);
      BestCostIsMinimum(m, last, relays);
      WeightedMonotone(BestCost(m, last, relays), DirectCost(m, last), last.dataRate);
    }
  }

  /** Without relays every sensor sends direct. */
  lemma {:induction false} NoRelaysMeansDirect(m: MathLib, sensors: seq<Sensor>)
    ensures SumEnergy(m, sensors, []) == DirectEnergy(m, sensors)
  {
    if sensors != [] {
      NoRelaysMeansDirect(m, sensors[..|sensors| - 1]);
    }
  }

  // ---------------------------------------------------------------------------------------
  // Location types of the hops

  /** Sensor-side hops get a one-letter location type, which the exponent table falls back on. */
  lemma SensorHopsUseGeneralExponent(s: Sensor)
    ensures PathLossExponent(SensorClass(s)) == Ieee802156Exponents["General"]
  {
    ClassifiedNamesFromTable(s.pos.x, s.pos.y);
  }

  /** The relay-to-hub hop of an on-body relay uses the propagation class of the relay's zone. */
  lemma RelayHopUsesZoneClass(r: Point)
    requires IsValidPosition(r.x, r.y)
    ensures var zone := GetZoneInfo(r.x, r.y);
      && RelayHopClass(zone) == zone.ptype
      && PathLossExponent(RelayHopClass(zone)) == Ieee802156Exponents[zone.ptype]
  {
    ClassifiedNamesFromTable(r.x, r.y);
  }

  // ---------------------------------------------------------------------------------------
  // Decoding

  lemma {:induction false} FlattenAt(relays: seq<Point>, i: nat)
    requires i < |relays|
    ensures Flatten(relays)[2 * i] == relays[i].x && Flatten(relays)[2 * i + 1] == relays[i].y
  {
    if i > 0 {
      FlattenAt(relays[1..], i - 1);
    }
  }

  /** Decoding the flat vector of a list of relays gives back that list. */
  lemma DecodeFlatten(relays: seq<Point>)
    ensures Decode(Flatten(relays)) == Ok(relays)
  {
    assert |Flatten(relays)| % 2 == 0;
    var r := Decode(Flatten(relays)).value;
    forall i | 0 <= i < |relays|
      ensures r[i] == relays[i]
    {
      FlattenAt(relays, i);
    }
    assert r == relays;
  }

  /** Flattening the relays decoded from an even-length vector gives back the vector. */
  lemma FlattenDecode(v: seq<real>)
    requires |v| % 2 == 0
    ensures Flatten(Decode(v).value) == v
  {
    var relays := Decode(v).value;
    forall j | 0 <= j < |v|
      ensures Flatten(relays)[j] == v[j]
    {
      FlattenAt(relays, j / 2);
    }
  }

  // ---------------------------------------------------------------------------------------
  // Fitness

  lemma FixedSensorsTotalRate()
    ensures TotalDataRate(FixedSensors) == 710 && NonNegativeRates(FixedSensors)
  {
    var f := FixedSensors;
    assert f[..1][..0] == [] && f[..2][..1] == f[..1] && f[..3][..2] == f[..2] && f[..4][..3] == f[..3];
    assert TotalDataRate(f[..1]) == 500;
    assert TotalDataRate(f[..2]) == 600;
    assert TotalDataRate(f[..3]) == 700;
    assert f[..4] == f;
  }

  /** With all relays on the body the fitness is the energy of a cycle, far below the penalty. */
  lemma OnBodyFitnessBounds(m: MathLib, v: seq<real>)
    requires |v| % 2 == 0 && AllOnBody(Decode(v).value)
    ensures Evaluate(m, v).Ok?
    ensures 710.0 * MinPacketEnergy <= Evaluate(m, v).value <= 710.0 * MaxPacketEnergy < PenaltyOffBody
  {
    FixedSensorsTotalRate();
    SumEnergyBounds(m, FixedSensors, Decode(v).value);
  }

  /** The fitness is the off-body penalty exactly when the vector decodes and some relay is off the body. */
  lemma PenaltyExactlyWhenOffBody(m: MathLib, v: seq<real>)
    ensures Evaluate(m, v) == Ok(PenaltyOffBody) <==> |v| % 2 == 0 && !AllOnBody(Decode(v).value)
  {
    if |v| % 2 == 0 && AllOnBody(Decode(v).value) {
      OnBodyFitnessBounds(m, v);
    }
  }

  /** Relays never make the fitness of an on-body solution exceed the all-direct baseline. */
  lemma FitnessAtMostDirectBaseline(m: MathLib, v: seq<real>)
    requires |v| % 2 == 0 && AllOnBody(Decode(v).value)
    ensures Evaluate(m, v).Ok? && Evaluate(m, v).value <= DirectEnergy(m, FixedSensors)
  {
    FixedSensorsTotalRate();
    SumEnergyAtMostDirect(m, FixedSensors, Decode(v).value);
  }

  /** The module's own check, first half: one relay at (150, 150) gets the off-body penalty. */
  lemma OffBodyScenario(m: MathLib)
    ensures Evaluate(m, [150.0, 150.0]) == Ok(PenaltyOffBody)
  {
    var relays := Decode([150.0, 150.0]).value;
    assert relays[0] == Point(150.0, 150.0);
    assert !IsValidPosition(150.0, 150.0);
  }

  /** Second half: one relay at (40, 50), on the front of the torso, scores an energy below the penalty. */
  lemma OnBodyScenario(m: MathLib)
    ensures Evaluate(m, [40.0, 50.0]).Ok?
    ensures 710.0 * MinPacketEnergy <= Evaluate(m, [40.0, 50.0]).value < PenaltyOffBody
  {
    var relays := Decode([40.0, 50.0]).value;
    assert relays[0] == Point(40.0, 50.0);
    ClassifiedByContainingZone(0, 40.0, 50.0);
    assert AllOnBody(relays);
    OnBodyFitnessBounds(m, [40.0, 50.0]);
  }

  // ---------------------------------------------------------------------------------------
  // Search bounds

  /** The bounds the constructor sets: 2n zeros below, and (100, 180) repeated n times above. */
  lemma {:induction false} SearchBoundsShape(n: nat)
    ensures |Repeat([0.0], 2 * n)| == 2 * n
    ensures forall j :: 0 <= j < 2 * n ==> Repeat([0.0], 2 * n)[j] == 0.0
    ensures |Repeat([100.0, 180.0], n)| == 2 * n
    ensures forall j :: 0 <= j < 2 * n ==> Repeat([100.0, 180.0], n)[j] == if j % 2 == 0 then 100.0 else 180.0
  {
    if n > 0 {
      SearchBoundsShape(n - 1);
      assert Repeat([0.0], 2 * n) == [0.0] + ([0.0] + Repeat([0.0], 2 * (n - 1)));
      var tail := Repeat([100.0, 180.0], n - 1);
      assert Repeat([100.0, 180.0], n) == [100.0, 180.0] + tail;
      forall j | 2 <= j < 2 * n
        ensures Repeat([100.0, 180.0], n)[j] == tail[j - 2]
      {
      }
    }
  }

  // ---------------------------------------------------------------------------------------
  // The problem object

  class OptimizationProblem {
    var nRelays: int
    var problemSize: int
    var lb: seq<real>
    var ub: seq<real>
    var minmax: string

    /** A problem with `nRelays` relays: 2 * nRelays coordinates, x in [0, 100], y in [0, 180]. */
    constructor (nRelays: int := 2)
      ensures this.nRelays == nRelays && problemSize == 2 * nRelays
      ensures lb == Repeat([0.0], 2 * nRelays) && ub == Repeat([100.0, 180.0], nRelays)
      ensures minmax == "min"
    {
      this.nRelays := nRelays;
      problemSize := 2 * nRelays;
      lb := Repeat([0.0], 2 * nRelays);
      ub := Repeat([100.0, 180.0], nRelays);
      minmax := "min";
    }

    /** Splits the flat vector into relay points, pair by pair; the length is not checked. */
    method DecodeSolution(solutionVector: seq<real>) returns (r: Result<seq<Point>>)
      ensures r == Decode(solutionVector)
    {
      var v := solutionVector;
      var relays: seq<Point> := [];
      var i := 0;
      while i < |v|
        invariant 0 <= i <= |v| && i % 2 == 0
        invariant |relays| == i / 2
        invariant forall j :: 0 <= j < i / 2 ==> relays[j] == Point(v[2 * j], v[2 * j + 1])
      {
        var x := v[i];
        if i + 1 == |v| {
          return Failure(IndexOutOfRange);
        }
        var y := v[i + 1];
        relays := relays + [Point(x, y)];
        i := i + 2;
      }
      assert i == |v|;
      assert relays == Decode(v).value;
      return Ok(relays);
    }

    /**
     * The route choice of one sensor inside the fitness function: the direct cost first, then
     * each relay's two-hop cost, keeping a relay route only when it is strictly cheaper.
     */
    method CheapestRouteCost(m: MathLib, sensor: Sensor, relays: seq<Point>) returns (bestCost: real)
      ensures bestCost == BestCost(m, sensor, relays)
    {
      var costDirect := DirectCost(m, sensor);
      bestCost := costDirect;
      ghost var viaRelay := TwoHopCosts(m, sensor, relays);
      for k := 0 to |relays|
        invariant bestCost == CostOf(costDirect, viaRelay, ScanRoute(costDirect, viaRelay, k))
      {
        var totalPathCost := TwoHopCost(m, sensor, relays[k]);
        ScanRouteStep(costDirect, viaRelay, k, totalPathCost, bestCost);
        if totalPathCost < bestCost {
          bestCost := totalPathCost;
        }
      }
    }

    /** The energy of one cycle: every fixed sensor's cheapest cost times its data rate, summed. */
    method CycleEnergy(m: MathLib, relays: seq<Point>) returns (totalEnergy: real)
      ensures totalEnergy == SumEnergy(m, FixedSensors, relays)
    {
      totalEnergy := 0.0;
      for j := 0 to |FixedSensors|
        invariant totalEnergy == SumEnergy(m, FixedSensors[..j], relays)
      {
        var sensor := FixedSensors[j];
        var bestCost := CheapestRouteCost(m, sensor, relays);
        SumEnergyExtend(m, FixedSensors, relays, j);
        totalEnergy := totalEnergy + Weighted(bestCost, sensor.dataRate);
      }
      assert FixedSensors[..|FixedSensors|] == FixedSensors;
    }

    /** The fitness function: the off-body penalty, or the energy of one cycle over the best routes. */
    method FitnessFunction(m: MathLib, solutionVector: seq<real>) returns (r: Result<real>)
      ensures r == Evaluate(m, solutionVector)
    {
      var decoded := DecodeSolution(solutionVector);
      if decoded.Failure? {
        return Failure(decoded.error);
      }
      var relays := decoded.value;

      for i := 0 to |relays|
        invariant forall j :: 0 <= j < i ==> IsValidPosition(relays[j].x, relays[j].y)
      {
        if !IsValidPosition(relays[i].x, relays[i].y) {
          return Ok(PenaltyOffBody);
        }
      }

      var totalEnergy := CycleEnergy(m, relays);
      return Ok(totalEnergy);
    }
  }
}
