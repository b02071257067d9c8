/**
 * The radio model (src/physics.py): distance with a floor, log-distance path loss per
 * location type, transmit power control clamped to the radio's range, a linear current model
 * and the energy of one packet.
 */
module Physics {
  import opened Numerics

  // Radio parameters (a Nordic nRF52840-class transceiver).
  const Voltage := 3.0            // V
  const BitRate := 1000000        // bit/s
  const RxSensitivity := -96.0    // dBm
  const SystemMargin := 10.0      // dB
  const TxPowerMin := -40.0       // dBm
  const TxPowerMax := 4.0         // dBm

  // Log-distance law: reference distance d0 and the loss at d0.
  const ReferenceDistance := 0.1  // m
  const ReferencePathLoss := 35.0 // dB
  const DefaultPacketBits := 1500

  /**
   * Path-loss exponents per location type, from the on-body scenario CM3 of the IEEE 802.15.6
   * channel model with the values of Chavez et al. 2013 (the shadowing sigmas are not used).
   */
  const Ieee802156Exponents: map<string, real> :=
    map["LOS" := 2.18, "NLOS" := 3.35, "Torso" := 3.23, "General" := 3.11]

  /** The energy of a default packet sent at the lowest and at the highest transmit power. */
  const MinPacketEnergy := 1.35e-5  // J
  const MaxPacketEnergy := 3.33e-5  // J

  /** The exponent of a location type; any type missing from the table falls back to "General". */
  function PathLossExponent(locationType: string): (n: real)
    ensures locationType == "LOS" ==> n == 2.18
    ensures locationType == "NLOS" ==> n == 3.35
    ensures locationType == "Torso" ==> n == 3.23
    ensures locationType !in {"LOS", "NLOS", "Torso"} ==> n == 3.11
  {
    if locationType in Ieee802156Exponents then Ieee802156Exponents[locationType]
    else Ieee802156Exponents["General"]
  }

  function Max(a: real, b: real): real {
    if a >= b then a else b
  }

  /** Distance in metres between two points given in centimetres, never below 1 cm. */
  function DistanceM(m: MathLib, p1: Point, p2: Point): (d: real)
    ensures d >= 0.01
  {
    var distCm := Norm(m, p1.x - p2.x, p1.y - p2.y);
    Max(distCm / 100.0, 0.01)
  }

  /** Mean path loss in dB at distance `distanceM`: 35 dB up to d0, the log-distance law beyond. */
  function PathLossDb(m: MathLib, distanceM: real, locationType: string): (pl: real)
    ensures distanceM <= ReferenceDistance ==> pl == ReferencePathLoss
  {
    var n := PathLossExponent(locationType);
    if distanceM <= ReferenceDistance then ReferencePathLoss
    else ReferencePathLoss + 10.0 * n * m.log10(distanceM / ReferenceDistance)
  }

  /** `np.clip(x, lo, hi)`. */
  function Clip(x: real, lo: real, hi: real): (r: real)
    ensures lo <= hi ==> lo <= r <= hi
    ensures lo <= x <= hi ==> r == x
    ensures x < lo <= hi ==> r == lo
    ensures lo <= hi < x ==> r == hi
  {
    var raised := if x < lo then lo else x;
    if raised > hi then hi else raised
  }

  /** The power the link needs: sensitivity plus path loss plus the fading margin. */
  function RequiredTxDbm(pathLossDb: real): real {
    RxSensitivity + pathLossDb + SystemMargin
  }

  /** The transmit power actually used: the required power clamped to the radio's range. */
  function TxPowerDbm(pathLossDb: real): (tx: real)
    ensures TxPowerMin <= tx <= TxPowerMax
  {
    Clip(RequiredTxDbm(pathLossDb), TxPowerMin, TxPowerMax)
  }

  /** Linear approximation of the supply current (mA) at transmit power `txDbm`. */
  function CurrentMa(txDbm: real): (c: real)
    ensures TxPowerMin <= txDbm <= TxPowerMax ==> 3.0 <= c <= 7.4
  {
    3.0 + 0.1 * (txDbm + 40.0)
  }

  /** Energy (J) of a packet of `packetSizeBits` bits sent at transmit power `txDbm`. */
  function PacketEnergy(txDbm: real, packetSizeBits: int): real {
    var currentA := CurrentMa(txDbm) / 1000.0;
    var timeS := packetSizeBits as real / BitRate as real;
    Voltage * currentA * timeS
  }

  /** Energy of a packet over a link with the given path loss; out-of-range power is clamped. */
  function EnergyForPathLoss(pathLossDb: real, packetSizeBits: int): (e: real)
    ensures packetSizeBits == DefaultPacketBits ==> MinPacketEnergy <= e <= MaxPacketEnergy
  {
    PacketEnergy(TxPowerDbm(pathLossDb), packetSizeBits)
  }

  /** Energy (J) the sender spends on one packet from p1 to p2 across the given location type. */
  function EnergyConsumption(m: MathLib, p1: Point, p2: Point, locationType: string, packetSizeBits: int): (e: real)
    ensures packetSizeBits == DefaultPacketBits ==> MinPacketEnergy <= e <= MaxPacketEnergy
  {
    var dist := DistanceM(m, p1, p2);
    var plDb := PathLossDb(m, dist, locationType);
    EnergyForPathLoss(plDb, packetSizeBits)
  }

  // ---------------------------------------------------------------------------------------
  // Distance

  lemma DistanceSymmetric(m: MathLib, p1: Point, p2: Point)
    ensures DistanceM(m, p1, p2) == DistanceM(m, p2, p1)
  {
    assert (p1.x - p2.x) * (p1.x - p2.x) == (p2.x - p1.x) * (p2.x - p1.x);
    assert (p1.y - p2.y) * (p1.y - p2.y) == (p2.y - p1.y) * (p2.y - p1.y);
  }

  /**
   * With a true square root, the distance is the Euclidean distance in centimetres divided by
   * 100 whenever that is at least 1 cm, and exactly 0.01 m otherwise.
   */
  lemma DistanceIsEuclidean(m: MathLib, p1: Point, p2: Point)
    requires m.Valid()
    ensures var q := (p1.x - p2.x) * (p1.x - p2.x) + (p1.y - p2.y) * (p1.y - p2.y);
      var d := DistanceM(m, p1, p2);
      (q >= 1.0 ==> (100.0 * d) * (100.0 * d) == q) && (q <= 1.0 ==> d == 0.01)
  {
    var dx, dy := p1.x - p2.x, p1.y - p2.y;
    var q := dx * dx + dy * dy;
    SquareNonNegative(dx);
    SquareNonNegative(dy);
    var s := m.sqrt(q);
    assert 0.0 <= s && s * s == q;
    if q >= 1.0 {
      if s < 1.0 {
        SquareStrictlyMonotone(s, 1.0);
      }
      assert 100.0 * DistanceM(m, p1, p2) == s;
    }
    if q <= 1.0 && s > 1.0 {
      SquareStrictlyMonotone(1.0, s);
    }
  }

  // ---------------------------------------------------------------------------------------
  // Path loss

  /** Beyond the reference distance the loss is strictly above the 35 dB reference loss. */
  lemma PathLossAboveReference(m: MathLib, d: real, locationType: string)
    requires m.Valid() && d > ReferenceDistance
    ensures PathLossDb(m, d, locationType) > ReferencePathLoss
  {
    Log10Positive(m.log10, d / ReferenceDistance);
    var n := PathLossExponent(locationType);
    var l := m.log10(d / ReferenceDistance);
    PositiveProduct(10.0 * n, l);
  }

  /** For a fixed location type, path loss does not decrease with distance. */
  lemma PathLossMonotoneInDistance(m: MathLib, d1: real, d2: real, locationType: string)
    requires m.Valid() && d1 <= d2
    ensures PathLossDb(m, d1, locationType) <= PathLossDb(m, d2, locationType)
  {
    if d1 > ReferenceDistance {
      var n := PathLossExponent(locationType);
      var l1, l2 := m.log10(d1 / ReferenceDistance), m.log10(d2 / ReferenceDistance);
      Log10Monotone(m.log10, d1 / ReferenceDistance, d2 / ReferenceDistance);
      NonNegativeProduct(10.0 * n, l2 - l1);
      assert 10.0 * n * (l2 - l1) == 10.0 * n * l2 - 10.0 * n * l1;
    } else if d2 > ReferenceDistance {
      PathLossAboveReference(m, d2, locationType);
    }
  }

  /** At a fixed distance beyond d0 the loss is ordered by exponent: LOS < General < Torso < NLOS. */
  lemma PathLossOrderedByExponent(m: MathLib, d: real)
    requires m.Valid() && d > ReferenceDistance
    ensures PathLossDb(m, d, "LOS") < PathLossDb(m, d, "General")
    ensures PathLossDb(m, d, "General") < PathLossDb(m, d, "Torso")
    ensures PathLossDb(m, d, "Torso") < PathLossDb(m, d, "NLOS")
  {
    var l := m.log10(d / ReferenceDistance);
    Log10Positive(m.log10, d / ReferenceDistance);
    assert PathLossDb(m, d, "LOS") == 35.0 + 21.8 * l;
    assert PathLossDb(m, d, "General") == 35.0 + 31.1 * l;
    assert PathLossDb(m, d, "Torso") == 35.0 + 32.3 * l;
    assert PathLossDb(m, d, "NLOS") == 35.0 + 33.5 * l;
  }

  // ---------------------------------------------------------------------------------------
  // Energy

  /** More path loss never costs less energy (for a non-negative packet size). */
  lemma EnergyMonotoneInPathLoss(pl1: real, pl2: real, packetSizeBits: int)
    requires pl1 <= pl2 && packetSizeBits >= 0
    ensures EnergyForPathLoss(pl1, packetSizeBits) <= EnergyForPathLoss(pl2, packetSizeBits)
  {
    var t1, t2 := TxPowerDbm(pl1), TxPowerDbm(pl2);
    assert t1 <= t2;
    var timeS := packetSizeBits as real / BitRate as real;
    var c1, c2 := CurrentMa(t1) / 1000.0, CurrentMa(t2) / 1000.0;
    NonNegativeProduct(c2 - c1, Voltage * timeS);
    assert (c2 - c1) * (Voltage * timeS) == Voltage * c2 * timeS - Voltage * c1 * timeS;
  }

  /** The energy sits at its floor while the required power is at most -40 dBm. */
  lemma EnergyAtFloor(pl: real)
    requires RequiredTxDbm(pl) <= TxPowerMin
    ensures EnergyForPathLoss(pl, DefaultPacketBits) == MinPacketEnergy
  {
  }

  /** The energy plateaus at its ceiling once the required power reaches 4 dBm. */
  lemma EnergyAtCeiling(pl: real)
    requires RequiredTxDbm(pl) >= TxPowerMax
    ensures EnergyForPathLoss(pl, DefaultPacketBits) == MaxPacketEnergy
  {
  }

  /** For a fixed location type, a longer link never costs less energy. */
  lemma EnergyMonotoneInDistance(m: MathLib, p1: Point, p2: Point, q1: Point, q2: Point,
                                 locationType: string, packetSizeBits: int)
    requires m.Valid() && packetSizeBits >= 0
    requires DistanceM(m, p1, p2) <= DistanceM(m, q1, q2)
    ensures EnergyConsumption(m, p1, p2, locationType, packetSizeBits)
         <= EnergyConsumption(m, q1, q2, locationType, packetSizeBits)
  {
    PathLossMonotoneInDistance(m, DistanceM(m, p1, p2), DistanceM(m, q1, q2), locationType);
    EnergyMonotoneInPathLoss(PathLossDb(m, DistanceM(m, p1, p2), locationType),
                             PathLossDb(m, DistanceM(m, q1, q2), locationType), packetSizeBits);
  }

  /** Energy is linear in the packet size: the energy of one bit times the number of bits. */
  lemma EnergyLinearInPacketSize(m: MathLib, p1: Point, p2: Point, locationType: string, packetSizeBits: int)
    ensures EnergyConsumption(m, p1, p2, locationType, packetSizeBits)
         == packetSizeBits as real * EnergyConsumption(m, p1, p2, locationType, 1)
  {
    var tx := TxPowerDbm(PathLossDb(m, DistanceM(m, p1, p2), locationType));
    var c := CurrentMa(tx) / 1000.0;
    var b := packetSizeBits as real;
    assert Voltage * c * (b / 1000000.0) == b * (Voltage * c * (1.0 / 1000000.0));
  }

  /**
   * The scenario of the module's own check: over 120 cm, a LOS link needs about -27.5 dBm and a
   * Torso link about -16.1 dBm; both lie inside the radio's range, so LOS costs strictly less,
   * and the relative saving over the Torso link exceeds the 1 % the check asks for.
   */
  lemma LosCheaperThanTorsoAt120cm(m: MathLib)
    requires m.Valid()
    ensures var d := DistanceM(m, Point(0.0, 0.0), Point(0.0, 120.0));
      && d == 1.2
      && -29.2 < RequiredTxDbm(PathLossDb(m, d, "LOS")) < -18.3
      && -18.7 < RequiredTxDbm(PathLossDb(m, d, "Torso")) < -2.5
    ensures var eLos := EnergyConsumption(m, Point(0.0, 0.0), Point(0.0, 120.0), "LOS", DefaultPacketBits);
      var eTorso := EnergyConsumption(m, Point(0.0, 0.0), Point(0.0, 120.0), "Torso", DefaultPacketBits);
      && eLos < eTorso
      && 0.0 < eTorso && (eTorso - eLos) / eTorso * 100.0 > 1.0
  {
    var lg := m.log10;
    assert Norm(m, 0.0 - 0.0, 0.0 - 120.0) == m.sqrt(120.0 * 120.0);
    SqrtOfSquare(m.sqrt, 120.0);
    var d := DistanceM(m, Point(0.0, 0.0), Point(0.0, 120.0));
    assert d == 1.2;
    assert d / ReferenceDistance == 12.0;
    // 10 < 12 and 12 * 12 < 10 * 10 * 10 bound the decimal logarithm of 12 between 1 and 1.5.
    assert lg(10.0) < lg(12.0);
    assert Mul(10.0, 10.0) == 100.0 && Mul(10.0, 100.0) == 1000.0 && Mul(12.0, 12.0) == 144.0;
    assert lg(144.0) < lg(1000.0);
    var l := lg(12.0);
    assert 1.0 < l < 1.5;
    assert PathLossDb(m, d, "LOS") == 35.0 + 21.8 * l;
    assert PathLossDb(m, d, "Torso") == 35.0 + 32.3 * l;
    // Both powers are in range, so each energy is a fixed factor times a current linear in l.
    var eLos := EnergyConsumption(m, Point(0.0, 0.0), Point(0.0, 120.0), "LOS", DefaultPacketBits);
    var eTorso := EnergyConsumption(m, Point(0.0, 0.0), Point(0.0, 120.0), "Torso", DefaultPacketBits);
    assert eLos == 0.0000045 * (1.9 + 2.18 * l);
    assert eTorso == 0.0000045 * (1.9 + 3.23 * l);
    RelativeGainAboveOnePercent(eLos, eTorso);
  }

  /** A saving of more than 1 % of b: b > 0 and 99 b > 100 a. */
  lemma RelativeGainAboveOnePercent(a: real, b: real)
    requires 0.0 < b && 100.0 * a < 99.0 * b
    ensures (b - a) / b * 100.0 > 1.0
  {
    var g := (b - a) / b;
    assert g * b == b - a;
    if g * 100.0 <= 1.0 {
      NonNegativeProduct(1.0 - g * 100.0, b);
    }
  }
}
