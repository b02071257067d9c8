/**
 * The stand-alone cross-check of the energy arithmetic (verify_math.py): for a distance and a
 * path-loss exponent it recomputes path loss, required and clamped transmit power, whether the
 * link can be closed at all, and the energy of one 1500-bit packet, with its own copy of the
 * radio constants.
 */
module VerifyMath {
  import opened Numerics
  import Physics

  const Voltage := 3.0            // V
  const BitRate := 1000000        // bit/s
  const RxSensitivity := -96.0    // dBm
  const SystemMargin := 10.0      // dB
  const TxPowerMin := -40.0       // dBm
  const TxPowerMax := 4.0         // dBm
  const PacketSize := 1500        // bits

  // Path-loss exponents of IEEE 802.15.6 (the script has no "General" entry).
  const NExpLos := 2.18
  const NExpNlos := 3.35
  const NExpTorso := 3.23

  const PlD0 := 35.0              // dB at d0
  const D0 := 0.1                 // m

  /** The numbers of one report row (the scenario label and the text formatting are left out). */
  datatype CostReport = CostReport(
    distanceM: real, n: real, pathLossDb: real, reqTxDbm: real, finalTxDbm: real,
    connected: bool, energyJ: real)

  /** The log-distance path loss in dB, flat at 35 dB up to the 10 cm reference distance. */
  function PathLossDb(m: MathLib, distanceM: real, nExponent: real): real {
    if distanceM <= D0 then PlD0 else PlD0 + 10.0 * nExponent * m.log10(distanceM / D0)
  }

  /** For a non-negative exponent the loss never falls as the link gets longer. */
  lemma PathLossMonotone(m: MathLib, d1: real, d2: real, nExponent: real)
    requires m.Valid() && d1 <= d2 && 0.0 <= nExponent
    ensures PathLossDb(m, d1, nExponent) <= PathLossDb(m, d2, nExponent)
  {
    if d2 > D0 {
      var k := 10.0 * nExponent;
      var l2 := m.log10(d2 / D0);
      Log10Positive(m.log10, d2 / D0);
      NonNegativeProduct(k, l2);
      if d1 > D0 {
        var l1 := m.log10(d1 / D0);
        Log10Monotone(m.log10, d1 / D0, d2 / D0);
        NonNegativeProduct(k, l2 - l1);
        assert k * (l2 - l1) == k * l2 - k * l1;
      }
    }
  }

  /** One row of the cross-check. */
  function CalculateCost(m: MathLib, distanceM: real, nExponent: real): (r: CostReport)
    ensures distanceM <= D0 ==> r.pathLossDb == PlD0
    ensures TxPowerMin <= r.finalTxDbm <= TxPowerMax
    ensures r.connected <==> r.reqTxDbm <= TxPowerMax
    ensures !r.connected ==> r.finalTxDbm == TxPowerMax
    ensures Physics.MinPacketEnergy <= r.energyJ <= Physics.MaxPacketEnergy
  {
    var plDb := PathLossDb(m, distanceM, nExponent);
    var reqTxDbm := RxSensitivity + plDb + SystemMargin;
    var finalTxDbm := Physics.Clip(reqTxDbm, TxPowerMin, TxPowerMax);
    var isConnected := reqTxDbm <= TxPowerMax;
    var currentMa := 3.0 + 0.1 * (finalTxDbm + 40.0);
    var currentA := currentMa / 1000.0;
    var timeS := PacketSize as real / BitRate as real;
    var energyJ := Voltage * currentA * timeS;
    CostReport(distanceM, nExponent, plDb, reqTxDbm, finalTxDbm, isConnected, energyJ)
  }

  /**
   * The script's powers and energy are the radio model's for the same path loss: the required
   * power is sensitivity plus loss plus margin, the final power is that clamped to the radio's
   * range, and the energy is that of a 1500-bit packet. So "connected" means the radio model's
   * required power is at most 4 dBm.
   */
  lemma EnergyMatchesRadioModelForPathLoss(m: MathLib, distanceM: real, nExponent: real)
    ensures var r := CalculateCost(m, distanceM, nExponent);
      && r.reqTxDbm == Physics.RequiredTxDbm(r.pathLossDb)
      && r.finalTxDbm == Physics.TxPowerDbm(r.pathLossDb)
      && (r.connected <==> Physics.RequiredTxDbm(r.pathLossDb) <= Physics.TxPowerMax)
      && r.energyJ == Physics.EnergyForPathLoss(r.pathLossDb, Physics.DefaultPacketBits)
  {
  }

  /**
   * Fed the radio model's distance and exponent for a location type, the script reproduces the
   * radio model's path loss and packet energy.
   */
  lemma AgreesWithRadioModel(m: MathLib, p1: Point, p2: Point, locationType: string)
    ensures var r := CalculateCost(m, Physics.DistanceM(m, p1, p2), Physics.PathLossExponent(locationType));
      && r.pathLossDb == Physics.PathLossDb(m, Physics.DistanceM(m, p1, p2), locationType)
      && r.finalTxDbm == Physics.TxPowerDbm(Physics.PathLossDb(m, Physics.DistanceM(m, p1, p2), locationType))
      && r.energyJ == Physics.EnergyConsumption(m, p1, p2, locationType, Physics.DefaultPacketBits)
  {
  }

  /** For a fixed non-negative exponent, a longer link never costs less energy. */
  lemma EnergyMonotoneInDistance(m: MathLib, d1: real, d2: real, nExponent: real)
    requires m.Valid() && d1 <= d2 && 0.0 <= nExponent
    ensures CalculateCost(m, d1, nExponent).energyJ <= CalculateCost(m, d2, nExponent).energyJ
  {
    PathLossMonotone(m, d1, d2, nExponent);
    EnergyMatchesRadioModelForPathLoss(m, d1, nExponent);
    EnergyMatchesRadioModelForPathLoss(m, d2, nExponent);
    var r1, r2 := CalculateCost(m, d1, nExponent), CalculateCost(m, d2, nExponent);
    Physics.EnergyMonotoneInPathLoss(r1.pathLossDb, r2.pathLossDb, Physics.DefaultPacketBits);
  }

  /**
   * The reference row (10 cm, LOS): 35 dB of loss, -51 dBm required, clamped up to -40 dBm,
   * connected, and the energy floor.
   */
  lemma ReferenceRow(m: MathLib)
    ensures var r := CalculateCost(m, 0.1, NExpLos);
      && r.pathLossDb == 35.0 && r.reqTxDbm == -51.0 && r.finalTxDbm == -40.0
      && r.connected && r.energyJ == Physics.MinPacketEnergy
  {
  }

  /**
   * The script's closing questions, answered for its own rows: at 50 cm the Torso link costs
   * strictly more than the LOS link, and at 150 cm the NLOS link can still be closed (it needs
   * less than 0 dBm), so the link is reported connected.
   */
  lemma ScriptQuestions(m: MathLib)
    requires m.Valid()
    ensures CalculateCost(m, 0.5, NExpLos).energyJ < CalculateCost(m, 0.5, NExpTorso).energyJ
    ensures CalculateCost(m, 1.5, NExpNlos).connected && CalculateCost(m, 1.5, NExpNlos).reqTxDbm < 0.0
  {
    var lg := m.log10;
    // 100 < 5 * 5 * 5 puts lg(5) above 2/3; 5 < 10 puts it below 1.
    assert 0.5 / D0 == 5.0;
    assert Mul(5.0, 5.0) == 25.0 && Mul(5.0, 25.0) == 125.0 && Mul(10.0, 10.0) == 100.0;
    assert lg(100.0) < lg(125.0);
    assert lg(5.0) < lg(10.0);
    var l5 := lg(5.0);
    assert 2.0 / 3.0 < l5 < 1.0;
    // 15 * 15 < 10 * 100 puts lg(15) below 3/2.
    assert 1.5 / D0 == 15.0;
    assert Mul(15.0, 15.0) == 225.0 && Mul(10.0, 100.0) == 1000.0;
    assert lg(225.0) < lg(1000.0);
    var l15 := lg(15.0);
    assert l15 < 1.5;
  }
}
