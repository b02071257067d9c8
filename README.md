# WBAN relay placement: body map, radio model and fitness function

This project models the cost core of a Wireless Body Area Network (WBAN) relay-placement study.
Fixed sensors are worn on the body and a hub sits at the navel. An optimiser searches for where
to place K relay nodes so that one cycle of traffic costs the least energy. The model covers:

- `body_model.dfy` (module `BodyModel`). This is the unfolded 2-D body map: five landmarks, four
  rectangular zones where a node may be placed, each with a propagation class. It also holds the
  classifier, which returns the first zone in declaration order that contains a point, the
  validity test, the random placement sampler and the hub position.
- `physics.dfy` (module `Physics`). This is the radio model:
  - distance in metres, with a floor of 1 cm;
  - log-distance path loss, using the exponents of the on-body channel model of IEEE 802.15.6;
  - the required transmit power, clamped to the radio's range of -40 to +4 dBm;
  - a linear model of the supply current;
  - the energy of one packet.
- `fitness.dfy` (module `Fitness`). This is the optimisation problem.
  - A solution is a flat vector of relay coordinates.
  - If any relay is off the body, the solution scores the off-body penalty.
  - Otherwise every fixed sensor takes its cheapest route to the hub: direct, or through one
    relay. When costs tie, the earlier route is kept.
  - The score is the per-packet cost of each sensor's route times its data rate, summed over the
    sensors.
  - The problem object (`OptimizationProblem`) is a class. Its fitness method loops as the source
    does, and it is proved equal to the specification function `Evaluate`.
- `verify_math.dfy` (module `VerifyMath`). This is the stand-alone cross-check script. For a
  given distance and exponent it recomputes path loss, required and final power, whether the
  link can be closed, and the energy of one packet. It is proved to agree with the radio model.
- `numerics.dfy` and `wrappers.dfy`. These hold shared vocabulary: points, `Option` and `Result`,
  and the two transcendental functions.

The decimal logarithm and the square root have no counterpart in Dafny's `real` arithmetic. They
are passed in as a `MathLib` value. Lemmas that need their laws require `m.Valid()`:

- the logarithm of 10 is 1, the logarithm is strictly increasing, and it turns products into sums;
- the square root is non-negative and squares back to its argument.

The random draws of the sampler are parameters: the zone index `random.choice` picks, and the two
numbers in [0, 1] behind the two `random.uniform` calls.

Two behaviours of the code are modelled as written:

- **Location type of a sensor's hop.** Both hops that leave a sensor are given the location type
  `s_zone[1]`. That is the second character of the sensor's zone name (for example "O" for
  "TORSO_FRONT"), not the zone's propagation class. No such type is in the exponent table, so
  those hops always fall back to the "General" exponent 3.11 (`Fitness.SensorHopsUseGeneralExponent`).
  The relay-to-hub hop does use the relay zone's class.
- **The cross-check script's third question.** It asks whether the NLOS link at 150 cm breaks.
  Under the script's own formulas that link needs less than 0 dBm and is connected
  (`VerifyMath.ScriptQuestions`).

Some scripts elsewhere in the repository assume a different fitness class from the one in
src/fitness.py. The model follows src/fitness.py:

- The off-body penalty is 1.0 (src/fitness.py:23). run_sensitivity_analysis.py:78-79 counts a run
  as successful when its fitness is below 100, which assumes a penalty of 1000.
- run_research_study.py:77 passes `custom_sensors=` to the constructor, and
  run_research_study.py:106 calls `get_metrics_details`. The class in src/fitness.py has neither:
  its sensors are always the four fixed ones and it has no metrics report.
- There is no minimum-separation check and no collision penalty. The fitness is the energy of one
  cycle only, with no delay, link-quality or load terms.
- Decoding does not compare the vector's length with `2 * n_relays`. An odd length makes the
  source index past the end of the list. That is modelled as the `Failure(IndexOutOfRange)`
  outcome.

## Model

| member | source | states |
|---|---|---|
| BodyModel.FirstContainingZone | src/body_model.py:53-59 | the scan returns the first zone (in table order, from the given index) whose inclusive rectangle contains the point, and nothing exactly when no zone contains it |
| BodyModel.GetZoneInfo | src/body_model.py:47-59 | the reported name and class are those of the first allowed zone containing the point; the result is (None, None) exactly when no zone contains it |
| BodyModel.IsValidPosition | src/body_model.py:61-65 | a point is valid if and only if some allowed zone contains it |
| BodyModel.Uniform | src/body_model.py:78-79 | `random.uniform(a, b)` with a draw in [0, 1] lies in [a, b] |
| BodyModel.GetRandomValidPosition | src/body_model.py:67-80 | the sampled point lies in the chosen zone, is classified as that zone and is a valid position |
| BodyModel.GetHubPosition | src/body_model.py:82-86 | the hub is the navel landmark, classified as TORSO_FRONT / Torso, so it is on the body |
| BodyModel.ZonesPairwiseDisjoint | src/body_model.py:23-40 | no point lies in two of the allowed zones |
| BodyModel.ClassifiedByContainingZone | src/body_model.py:53-59 | any zone containing a point is the zone the classifier reports, so the scan order never changes the answer |
| BodyModel.LandmarkZones | src/body_model.py:104-112 | the back landmark (70, 35) is in BACK_ZONE with class LOS; chest and navel are in TORSO_FRONT, the wrist in ARM_LEFT, the ankle in LEG_LEFT; the corner (25, 20) is on the torso |
| BodyModel.ClassifiedNamesFromTable | src/body_model.py:23-40 | every reported zone name is one of the four table names and every class is Torso, LOS or NLOS |
| Physics.PathLossExponent | src/physics.py:19-30 | LOS 2.18, NLOS 3.35, Torso 3.23, and every other location type falls back to General 3.11 |
| Physics.DistanceM | src/physics.py:32-38 | the distance in metres is never below 0.01 |
| Physics.DistanceIsEuclidean | src/physics.py:33-38 | with a true square root, 100 times the distance squared is dx² + dy² when that is at least 1 cm², and the distance is 0.01 m otherwise |
| Physics.DistanceSymmetric | src/physics.py:33-38 | the distance from p1 to p2 equals the distance from p2 to p1 |
| Physics.PathLossDb | src/physics.py:40-57 | up to the 0.1 m reference distance the loss is the 35 dB reference loss |
| Physics.PathLossAboveReference | src/physics.py:51-56 | beyond 0.1 m the loss is strictly above 35 dB |
| Physics.PathLossMonotoneInDistance | src/physics.py:51-56 | for a fixed location type, path loss never decreases with distance |
| Physics.PathLossOrderedByExponent | src/physics.py:19-24 | at any distance beyond 0.1 m: LOS < General < Torso < NLOS in path loss |
| Physics.Clip | src/physics.py:72-73 | `np.clip` stays within [lo, hi]: a value below lo becomes lo, a value above hi becomes hi, and an in-range value is unchanged |
| Physics.TxPowerDbm | src/physics.py:69-73 | the transmit power used always lies in [-40, 4] dBm |
| Physics.CurrentMa | src/physics.py:75-82 | over the radio's power range the modelled current lies in [3.0, 7.4] mA |
| Physics.EnergyForPathLoss | src/physics.py:66-91 | a 1500-bit packet costs between 1.35e-5 J and 3.33e-5 J whatever the path loss |
| Physics.EnergyConsumption | src/physics.py:59-91 | a 1500-bit packet costs between 1.35e-5 J and 3.33e-5 J for any two points and any location type |
| Physics.EnergyMonotoneInPathLoss | src/physics.py:69-89 | more path loss never costs less energy |
| Physics.EnergyAtFloor | src/physics.py:72-89 | while the required power is at most -40 dBm the packet costs exactly the floor 1.35e-5 J |
| Physics.EnergyAtCeiling | src/physics.py:72-89 | once the required power reaches 4 dBm the packet costs exactly the ceiling 3.33e-5 J (clamping hides the unreachable link) |
| Physics.EnergyMonotoneInDistance | src/physics.py:59-91 | for a fixed location type a longer link never costs less |
| Physics.EnergyLinearInPacketSize | src/physics.py:84-89 | the energy of a packet is its size in bits times the energy of one bit |
| Physics.LosCheaperThanTorsoAt120cm | src/physics.py:97-116 | over 120 cm, the LOS link needs a required power in (-29.2, -18.3) dBm and the Torso link one in (-18.7, -2.5) dBm; LOS is strictly cheaper and its relative saving over Torso exceeds 1 %, the threshold of the module's self-test |
| Fitness.ScanRoute | src/fitness.py:84-107 | a relay route picked by the scan names one of the relays already scanned |
| Fitness.ScanRouteIsFirstCheapest | src/fitness.py:84-107 | the held route costs no more than the direct route and every scanned relay route; a relay route is held only when it is strictly cheaper than the direct route and every earlier relay route |
| Fitness.ScanRouteStep | src/fitness.py:105-106 | with c the next relay's cost and held the cost held so far, one step of the scan holds c exactly when c < held, and keeps held otherwise |
| Fitness.BestRoute | src/fitness.py:84-107 | the chosen route is direct or through an existing relay |
| Fitness.BestCostIsMinimum | src/fitness.py:77-107 | a sensor's cost per packet is that of one of its routes, and no route is cheaper |
| Fitness.BestCostBounds | src/fitness.py:84-107 | a sensor's cost per packet lies between the one-hop floor and ceiling |
| Fitness.SumEnergyExtend | src/fitness.py:109-111 | adding a sensor adds its best cost times its data rate to the cycle energy |
| Fitness.SumEnergyBounds | src/fitness.py:71-113 | the cycle energy lies between the floor and the ceiling times the total data rate |
| Fitness.SumEnergyAtMostDirect | src/fitness.py:71-113 | relays never make a cycle dearer than sending every packet straight to the hub |
| Fitness.NoRelaysMeansDirect | src/fitness.py:84-111 | with no relays the cycle energy is the all-direct energy |
| Fitness.SensorHopsUseGeneralExponent | src/fitness.py:80-82 | the sensor-side location type `s_zone[1]` always resolves to the General exponent |
| Fitness.RelayHopUsesZoneClass | src/fitness.py:98-101 | an on-body relay's hop to the hub uses its zone's class and that class's exponent |
| Fitness.Decode | src/fitness.py:45-54 | decoding fails exactly on an odd-length vector; otherwise it yields half as many points as coordinates |
| Fitness.DecodeFlatten | src/fitness.py:45-54 | decoding the flat vector of a list of relays gives back that list |
| Fitness.FlattenDecode | src/fitness.py:45-54 | flattening the decoded relays of an even-length vector gives back the vector |
| Fitness.FixedSensorsTotalRate | src/fitness.py:12-17 | the fixed sensors send 710 packets per cycle, none a negative number |
| Fitness.OnBodyFitnessBounds | src/fitness.py:56-113 | an on-body solution scores between 710 × 1.35e-5 and 710 × 3.33e-5 J, strictly below the penalty |
| Fitness.PenaltyExactlyWhenOffBody | src/fitness.py:64-69 | the fitness equals the penalty if and only if the vector decodes and some relay is off the body |
| Fitness.FitnessAtMostDirectBaseline | src/fitness.py:71-113 | an on-body solution never scores more than the all-direct baseline |
| Fitness.OffBodyScenario | src/fitness.py:122-125 | one relay at (150, 150) scores the off-body penalty |
| Fitness.OnBodyScenario | src/fitness.py:127-136 | one relay at (40, 50) scores a positive energy strictly below the penalty, so the self-test's check succeeds |
| Fitness.SearchBoundsShape | src/fitness.py:36-39 | the lower bounds are 2n zeros and the upper bounds alternate 100 and 180, n times |
| Fitness.OptimizationProblem.constructor | src/fitness.py:31-43 | sets the relay count, problem size 2n, the lower and upper bound vectors and "min" |
| Fitness.OptimizationProblem.DecodeSolution | src/fitness.py:45-54 | the pairwise loop gives the decoding specification `Decode`, including the failure on an odd length |
| Fitness.OptimizationProblem.CheapestRouteCost | src/fitness.py:77-107 | the loop over the relays, starting from the direct cost and keeping a relay only when strictly cheaper, ends with the sensor's best cost `BestCost` |
| Fitness.OptimizationProblem.CycleEnergy | src/fitness.py:73-111 | the loop over the fixed sensors accumulates `SumEnergy`: each sensor's best cost times its data rate |
| Fitness.OptimizationProblem.FitnessFunction | src/fitness.py:56-113 | the validity loop, the sensor loop and the route loop compute `Evaluate`: the penalty for an off-body relay, else the sum over the fixed sensors of best cost times data rate |
| VerifyMath.CalculateCost | verify_math.py:22-50 | loss is 35 dB up to 0.1 m; the final power is in [-40, 4]; connected exactly when the required power is at most 4 dBm, and the final power is 4 when not; energy in [1.35e-5, 3.33e-5] J (what the powers are is fixed by `VerifyMath.EnergyMatchesRadioModelForPathLoss`) |
| VerifyMath.PathLossMonotone | verify_math.py:25-29 | for a non-negative exponent the script's path loss never decreases with distance |
| VerifyMath.EnergyMatchesRadioModelForPathLoss | verify_math.py:31-50 | for the same path loss, the script's required power is -96 + loss + 10 dBm and its final power is that clamped to [-40, 4], both as the radio model computes them; connected exactly when that required power is at most 4 dBm; the energy is the radio model's for a 1500-bit packet |
| VerifyMath.AgreesWithRadioModel | verify_math.py:22-50 | given the radio model's distance and exponent for a location type, the script reproduces the radio model's path loss, transmit power and packet energy |
| VerifyMath.EnergyMonotoneInDistance | verify_math.py:85 | for a fixed exponent the energy does not fall as the distance grows |
| VerifyMath.ReferenceRow | verify_math.py:71 | the 10 cm LOS row has 35 dB loss, -51 dBm required, -40 dBm used, is connected and costs 1.35e-5 J |
| VerifyMath.ScriptQuestions | verify_math.py:84-87 | at 50 cm the Torso row costs strictly more than the LOS row; at 150 cm the NLOS row needs less than 0 dBm and is connected |

## Left out

- Floating point: every quantity is an exact real, so rounding in `np.log10`, `np.linalg.norm` and the energy products is not modelled.
- The decimal logarithm and the square root are parameters constrained by their laws. The model computes no digits of them; the numeric results are stated as bounds.
- Randomness: `random.choice` and `random.uniform` are replaced by their draws, passed as parameters.
- The shadowing sigmas of the exponent table are never read by the code and are not modelled.
- `PENALTY_DISCONNECTED` (src/fitness.py:24) is declared but never used by the code.
- `log_to` and the Mealpy wrapping of the problem are left out.
- Printing: the `__main__` blocks and the formatted text of the cross-check (scenario labels, the "TAK"/"NIE" strings and rounded number strings) are left out. Their checks are stated as lemmas.
- The optimiser drivers, experiments, plotting and CSV export are outside this model.
- Fitness.SensorHopClass: requires that an on-body zone name is not one letter long. On such a name the source would raise an index error, and no zone name has one letter.
- Fitness.OptimizationProblem.constructor: `n_relays` is taken as given. A negative count makes Python's list repetition empty, and `Repeat` does the same, but no lemma is stated for that case.
- Physics.DistanceM: its own contract states only the 1 cm floor. The Euclidean value needs a true square root and is stated in `Physics.DistanceIsEuclidean`.
