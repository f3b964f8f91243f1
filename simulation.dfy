/**
 * The Monte Carlo simulation of the MPRIV calculator
 * (react-app/src/components/MPRIVCalculator.tsx, `runMonteCarloSimulation`).
 *
 * Starting from a calculated result, every iteration perturbs the impacted
 * percentage by a factor in [0.9, 1.1) and IED, INT and RER by factors in
 * [0.85, 1.15), recomputes CDI and SDI with the deterministic formulas and keeps
 * the fine, floored at 0. The fines are then summarised and binned. The four
 * `Math.random()` values of an iteration are given as a `Draw`.
 */
module Simulation {
  import opened Wrappers
  import opened Catalog
  import opened Arith
  import opened Engine
  import opened Statistics

  /** The four uniform draws of one iteration, in the order the source takes them. */
  datatype Draw = Draw(pdiU: real, iedU: real, intU: real, rerU: real)

  /** `Math.random()` returns values in [0, 1). */
  predicate ValidDraw(d: Draw) {
    0.0 <= d.pdiU < 1.0 && 0.0 <= d.iedU < 1.0 && 0.0 <= d.intU < 1.0 && 0.0 <= d.rerU < 1.0
  }

  /** The PDI variation (±10%). */
  function PdiFactor(u: real): real {
    0.9 + u * 0.2
  }

  /** The variation of each SDI input (±15%). */
  function SdiFactor(u: real): real {
    0.85 + u * 0.3
  }

  /** A uniform draw gives a PDI factor in [0.9, 1.1) and an SDI factor in [0.85, 1.15); the draw 0.5 gives 1 for both. */
  lemma FactorRanges(u: real)
    requires 0.0 <= u < 1.0
    ensures 0.9 <= PdiFactor(u) < 1.1
    ensures 0.85 <= SdiFactor(u) < 1.15
    ensures PdiFactor(u) == 1.0 <==> u == 0.5
    ensures SdiFactor(u) == 1.0 <==> u == 0.5
  {
  }

  /** CDI recomputed for the percentage scaled by the draw's PDI factor. */
  function SimulatedCdi(res: CalculationResults, d: Draw): real {
    Exposure(res.severity, res.PDI * PdiFactor(d.pdiU))
  }

  /** SDI recomputed with IED, INT and RER each scaled by its own factor. */
  function SimulatedSdi(cfg: Config, res: CalculationResults, d: Draw): real {
    Sdi(cfg, res.IED * SdiFactor(d.iedU), res.INT * SdiFactor(d.intU), res.RER * SdiFactor(d.rerU))
  }

  /** The simulated fine of one iteration, floored at 0 (`Math.max(0, ...)`): never negative, and the product itself when that is not. */
  function SimulatedFine(cfg: Config, res: CalculationResults, d: Draw): (r: real)
    ensures r >= 0.0
    ensures SimulatedCdi(res, d) * SimulatedSdi(cfg, res, d) >= 0.0 ==>
              r == SimulatedCdi(res, d) * SimulatedSdi(cfg, res, d)
  {
    MaxReal(0.0, SimulatedCdi(res, d) * SimulatedSdi(cfg, res, d))
  }

  /**
   * For draws of `Math.random()` and a result with non-negative scores, the
   * perturbed exposure stays at or above the tier's lower bound and the perturbed
   * SDI is non-negative, so the floor at 0 never changes the product.
   */
  lemma SimulatedFineUnfloored(cfg: Config, res: CalculationResults, d: Draw)
    requires ValidConfig(cfg) && ValidDraw(d)
    requires res.PDI >= 0.0 && res.IED >= 0.0 && res.INT >= 0.0 && res.RER >= 0.0
    ensures SimulatedCdi(res, d) >= VDN * RdmMin(res.severity)
    ensures SimulatedSdi(cfg, res, d) >= 0.0
    ensures SimulatedFine(cfg, res, d) == SimulatedCdi(res, d) * SimulatedSdi(cfg, res, d)
  {
    FactorRanges(d.pdiU);
    FactorRanges(d.iedU);
    FactorRanges(d.intU);
    FactorRanges(d.rerU);
    ProductNonNegative(res.PDI, PdiFactor(d.pdiU));
    ProductNonNegative(res.IED, SdiFactor(d.iedU));
    ProductNonNegative(res.INT, SdiFactor(d.intU));
    ProductNonNegative(res.RER, SdiFactor(d.rerU));
    SdiNonNegative(cfg, res.IED * SdiFactor(d.iedU), res.INT * SdiFactor(d.intU), res.RER * SdiFactor(d.rerU));
    ProductNonNegative(SimulatedCdi(res, d), SimulatedSdi(cfg, res, d));
  }

  /** The fines of all iterations, in order. */
  function Fines(cfg: Config, res: CalculationResults, draws: seq<Draw>): seq<real> {
    seq(|draws|, k requires 0 <= k < |draws| => SimulatedFine(cfg, res, draws[k]))
  }

  /** One fine per iteration, none of them negative. */
  lemma FinesNonNegative(cfg: Config, res: CalculationResults, draws: seq<Draw>)
    ensures |Fines(cfg, res, draws)| == |draws|
    ensures forall f :: f in Fines(cfg, res, draws) ==> f >= 0.0
  {
  }

  /** The draw whose four factors are all 1. */
  const UnitDraw: Draw := Draw(0.5, 0.5, 0.5, 0.5)

  /**
   * With every factor equal to 1 the simulation recomputes exactly the calculated
   * CDI, SDI and fine of a result.
   */
  lemma UnitDrawReproduces(cfg: Config, act: Activity, ied: real, intPoints: real)
    requires ValidConfig(cfg) && 0.0 <= act.pdi <= 100.0 && ied >= 0.0 && intPoints >= 0.0
    ensures var res := Results(cfg, act, ied, intPoints);
            && SimulatedCdi(res, UnitDraw) == res.CDI
            && SimulatedSdi(cfg, res, UnitDraw) == res.SDI
            && SimulatedFine(cfg, res, UnitDraw) == res.multaFinal
  {
    var res := Results(cfg, act, ied, intPoints);
    ResultsBounds(cfg, act, ied, intPoints);
    assert PdiFactor(UnitDraw.pdiU) == 1.0 && SdiFactor(0.5) == 1.0;
    assert SimulatedSdi(cfg, res, UnitDraw) == Sdi(cfg, ied, intPoints, cfg.rerFixed);
    ProductEqual(SimulatedCdi(res, UnitDraw), res.CDI, SimulatedSdi(cfg, res, UnitDraw), res.SDI);
  }

  /**
   * When every draw is the unit draw, every fine is the calculated fine: all four
   * statistics equal it and every iteration lands in the last bin.
   */
  lemma UnitDrawsCollapse(cfg: Config, act: Activity, ied: real, intPoints: real, draws: seq<Draw>)
    requires ValidConfig(cfg) && 0.0 <= act.pdi <= 100.0 && ied >= 0.0 && intPoints >= 0.0
    requires |draws| > 0 && forall k :: 0 <= k < |draws| ==> draws[k] == UnitDraw
    ensures var res := Results(cfg, act, ied, intPoints);
            var out := Simulate(cfg, res, draws);
            && out.stats == SimStats(res.multaFinal, res.multaFinal, res.multaFinal, res.multaFinal)
            && out.counts == seq(Bins, i requires 0 <= i < Bins => if i == Bins - 1 then |draws| else 0)
  {
    var res := Results(cfg, act, ied, intPoints);
    var m := res.multaFinal;
    var fines := Fines(cfg, res, draws);
    UnitDrawReproduces(cfg, act, ied, intPoints);
    assert forall f :: f in fines ==> f == m;
    Statistics.AverageWithin(fines, m, m);
    SimulateDegenerate(cfg, res, draws);
  }

  /** The statistics and the histogram counts the simulation publishes. */
  datatype SimulationOutput = SimulationOutput(stats: SimStats, counts: seq<nat>)

  /**
   * The statistics of the fines and their histogram between the smallest and the
   * largest fine: the statistics are ordered and non-negative, and the 20 counts
   * add up to the number of iterations.
   */
  function Simulate(cfg: Config, res: CalculationResults, draws: seq<Draw>): (out: SimulationOutput)
    requires |draws| > 0
    ensures 0.0 <= out.stats.min <= out.stats.median <= out.stats.max
    ensures out.stats.min <= out.stats.avg <= out.stats.max
    ensures |out.counts| == Bins && SumNat(out.counts) == |draws|
  {
    var fines := Fines(cfg, res, draws);
    var stats := Summary(fines);
    FinesNonNegative(cfg, res, draws);
    SummaryNonNegative(fines);
    HistogramCoversAll(fines, stats.min, stats.max);
    SimulationOutput(stats, Histogram(fines, stats.min, stats.max))
  }

  /** When all fines are equal, every iteration lands in the last bin. */
  lemma SimulateDegenerate(cfg: Config, res: CalculationResults, draws: seq<Draw>)
    requires |draws| > 0
    ensures var out := Simulate(cfg, res, draws);
            out.stats.min == out.stats.max ==>
              out.counts == seq(Bins, i requires 0 <= i < Bins => if i == Bins - 1 then |draws| else 0)
  {
    var fines := Fines(cfg, res, draws);
    var stats := Summary(fines);
    if stats.min == stats.max {
      HistogramDegenerate(fines, stats.min);
    }
  }

  /** One iteration: the perturbed CDI and SDI and the fine floored at 0, as the source computes them. */
  method SimulateIteration(cfg: Config, res: CalculationResults, d: Draw, rdmMin: real, rdmMax: real)
    returns (finalFine: real)
    requires rdmMin == RdmMin(res.severity) && rdmMax == RdmMax(res.severity)
    ensures finalFine == SimulatedFine(cfg, res, d)
  {
    var pdiVariation := 0.9 + d.pdiU * 0.2;
    var iedVar := res.IED * (0.85 + d.iedU * 0.3);
    var intVar := res.INT * (0.85 + d.intU * 0.3);
    var rerVar := res.RER * (0.85 + d.rerU * 0.3);

    var variablePdi := (res.PDI * pdiVariation) / 100.0;
    var simulatedCdi := (VDN * rdmMin) + (variablePdi * (VDN * (rdmMax - rdmMin)));
    assert pdiVariation == PdiFactor(d.pdiU);
    ExposureFormula(res.severity, res.PDI * pdiVariation, variablePdi, rdmMin, rdmMax);

    var iedPointsVar := iedVar * 10.0;
    var intPointsVar := intVar;
    var rerPointsVar := rerVar;
    var simulatedSdi := 2.0 * (cfg.sdiWeights.IED * iedPointsVar + cfg.sdiWeights.INT * intPointsVar
                               + cfg.sdiWeights.RER * rerPointsVar);
    assert iedVar == res.IED * SdiFactor(d.iedU) && intVar == res.INT * SdiFactor(d.intU)
           && rerVar == res.RER * SdiFactor(d.rerU);
    SdiFormula(cfg, iedVar, iedPointsVar, intPointsVar, rerPointsVar);

    finalFine := MaxReal(0.0, simulatedCdi * simulatedSdi);
    ProductEqual(simulatedCdi, SimulatedCdi(res, d), simulatedSdi, SimulatedSdi(cfg, res, d));
  }

  /**
   * The simulation loop: `Math.random()` is replaced by the draws, one `Draw` per
   * iteration, so the number of iterations is `|draws|`. Returns `None` when
   * there is no calculated result.
   */
  method RunMonteCarloSimulation(cfg: Config, results: Option<CalculationResults>, draws: seq<Draw>)
    returns (out: Option<SimulationOutput>)
    requires |draws| > 0
    ensures results.None? ==> out.None?
    ensures results.Some? ==> out == Some(Simulate(cfg, results.value, draws))
  {
    if results.None? {
      return None;
    }
    var res := results.value;
    var isGrave := res.severity == Grave;
    var rdmMin := if isGrave then 0.007 else 0.001;
    var rdmMax := if isGrave then 0.010 else 0.007;

    var fines: seq<real> := [];
    var i := 0;
    while i < |draws|
      invariant 0 <= i <= |draws|
      invariant |fines| == i
      invariant forall k :: 0 <= k < i ==> fines[k] == SimulatedFine(cfg, res, draws[k])
    {
      var finalFine := SimulateIteration(cfg, res, draws[i], rdmMin, rdmMax);
      fines := fines + [finalFine];
      i := i + 1;
    }
    assert fines == Fines(cfg, res, draws);

    var sortedFines := SortAscending(fines);
    var avgFine := Sum(fines) / (|fines| as real);
    var minFine := SeqMin(fines);
    var maxFine := SeqMax(fines);
    var medianFine := sortedFines[|sortedFines| / 2];
    var stats := SimStats(minFine, avgFine, medianFine, maxFine);
    var histogram := Histogram(fines, minFine, maxFine);
    out := Some(SimulationOutput(stats, histogram));
  }
}
