/**
 * The deterministic fine estimate of the MPRIV calculator
 * (react-app/src/components/MPRIVCalculator.tsx, `calculateMPRIV`).
 *
 * The fine is `CDI * SDI`: CDI is the base exposure interpolated between the
 * severity tier's rates, SDI combines the impact score IED (built from the four
 * sub-scores TDP, TAV, NDV and TEV), the intentionality points INT and the fixed
 * recidivism term RER. `Mpriv` states the whole computation as a function of the
 * form data; `CalculateMPRIV` performs it step by step, with the source's branches
 * and constants, and is proved to return exactly `Mpriv`.
 */
module Engine {
  import opened Wrappers
  import opened Catalog
  import opened Estimation
  import opened Arith

  /** The selections of the calculator form. */
  datatype FormData = FormData(
    area: string,
    activity: string,
    titulares: map<string, real>,
    titularesSeleccionados: seq<string>,
    tieneVulnerables: bool,
    gruposVulnerables: seq<string>,
    tiposDatosSeleccionados: seq<string>,
    naturalezaVulneracion: string,
    intencionalidad: string)

  /** The result record; `INT` holds the intentionality in points (0-10). */
  datatype CalculationResults = CalculationResults(
    PDI: real,
    CDI: real,
    IED: real,
    INT: real,
    RER: real,
    SDI: real,
    multaFinal: real,
    severity: Severity,
    activityName: string)

  // ---------------------------------------------------------------------------
  // Activity lookup and base exposure (CDI)
  // ---------------------------------------------------------------------------

  /**
   * The entry of `activity` in the group of `area` of the activity catalog `acts`,
   * if both keys exist. The source reads the catalog `Catalog.activities`.
   */
  function LookupActivity(acts: map<string, map<string, Activity>>, area: string, activity: string): Option<Activity> {
    if area in acts && activity in acts[area] then Some(acts[area][activity]) else None
  }

  /** Lower exposure rate of a severity tier. */
  function RdmMin(sev: Severity): real {
    if sev == Grave then 0.007 else 0.001
  }

  /** Upper exposure rate of a severity tier. */
  function RdmMax(sev: Severity): real {
    if sev == Grave then 0.010 else 0.007
  }

  /**
   * Base exposure for an impacted-population percentage `pdi`: VDN times a rate
   * interpolated linearly between the tier's lower and upper rate.
   */
  function Exposure(sev: Severity, pdi: real): (cdi: real)
    ensures 0.0 <= pdi <= 100.0 ==> VDN * RdmMin(sev) <= cdi <= VDN * RdmMax(sev)
    ensures pdi >= 0.0 ==> cdi >= VDN * RdmMin(sev)
  {
    VDN * RdmMin(sev) + (pdi / 100.0) * (VDN * (RdmMax(sev) - RdmMin(sev)))
  }

  /** The interpolation meets the tier's bounds at 0% and 100% and never decreases in between. */
  lemma ExposureInterpolates(sev: Severity, pdi: real, pdi': real)
    requires pdi <= pdi'
    ensures Exposure(sev, 0.0) == VDN * RdmMin(sev)
    ensures Exposure(sev, 100.0) == VDN * RdmMax(sev)
    ensures Exposure(sev, pdi) <= Exposure(sev, pdi')
  {
    ScaleMonotone(pdi / 100.0, pdi' / 100.0, VDN * (RdmMax(sev) - RdmMin(sev)));
  }

  /** With VDN = 170,000,000 the grave tier spans [1,190,000, 1,700,000] and the leve tier [170,000, 1,190,000]. */
  lemma ExposureRanges(sev: Severity, pdi: real)
    requires 0.0 <= pdi <= 100.0
    ensures sev == Grave ==> 1190000.0 <= Exposure(sev, pdi) <= 1700000.0
    ensures sev == Leve ==> 170000.0 <= Exposure(sev, pdi) <= 1190000.0
  {
  }

  // ---------------------------------------------------------------------------
  // TDP: personal-data types, a sensitivity-weighted average of their triples
  // ---------------------------------------------------------------------------

  /** The first catalog entry with the given id (`Array.prototype.find`). */
  function FindTipo(catalog: seq<TipoDato>, id: string): Option<TipoDato> {
    if |catalog| == 0 then None
    else if catalog[0].id == id then Some(catalog[0])
    else FindTipo(catalog[1..], id)
  }

  /** The selected ids mapped to their catalog entries, unknown ids dropped. */
  function SelectedTipos(catalog: seq<TipoDato>, ids: seq<string>): seq<TipoDato> {
    if |ids| == 0 then []
    else
      var rest := SelectedTipos(catalog, ids[1..]);
      match FindTipo(catalog, ids[0])
      case None => rest
      case Some(t) => [t] + rest
  }

  /** `FindTipo` finds nothing exactly when no entry has the id, and otherwise the first entry with it. */
  lemma {:induction false} FindTipoFirstMatch(catalog: seq<TipoDato>, id: string)
    ensures FindTipo(catalog, id).None? <==> forall k :: 0 <= k < |catalog| ==> catalog[k].id != id
    ensures FindTipo(catalog, id).Some? ==>
              exists k :: 0 <= k < |catalog| && catalog[k] == FindTipo(catalog, id).value &&
                          FindTipo(catalog, id).value.id == id && forall j :: 0 <= j < k ==> catalog[j].id != id
  {
    if |catalog| > 0 && catalog[0].id != id {
      FindTipoFirstMatch(catalog[1..], id);
      var r := FindTipo(catalog[1..], id);
      assert forall k :: 1 <= k < |catalog| ==> catalog[k] == catalog[1..][k - 1];
      if r.Some? {
        var k :| 0 <= k < |catalog[1..]| && catalog[1..][k] == r.value && r.value.id == id &&
                 forall j :: 0 <= j < k ==> catalog[1..][j].id != id;
        assert catalog[k + 1] == r.value;
        assert forall j :: 0 <= j < k + 1 ==> catalog[j].id != id by {
          forall j | 0 <= j < k + 1
            ensures catalog[j].id != id
          {
            if j > 0 {
              assert catalog[j] == catalog[1..][j - 1];
            }
          }
        }
      }
    }
  }

  /**
   * The selection keeps only catalog entries whose id was selected, never grows
   * beyond the ids, and is empty exactly when no selected id is in the catalog.
   */
  lemma {:induction false} SelectedTiposSpec(catalog: seq<TipoDato>, ids: seq<string>)
    ensures var sel := SelectedTipos(catalog, ids);
            && |sel| <= |ids|
            && (forall t :: t in sel ==> t in catalog && t.id in ids)
            && (|sel| == 0 <==> forall k :: 0 <= k < |ids| ==> FindTipo(catalog, ids[k]).None?)
  {
    if |ids| > 0 {
      SelectedTiposSpec(catalog, ids[1..]);
      FindTipoFirstMatch(catalog, ids[0]);
      assert forall k :: 1 <= k < |ids| ==> ids[k] == ids[1..][k - 1];
      assert forall x :: x in ids[1..] ==> x in ids;
      match FindTipo(catalog, ids[0])
      case None =>
      case Some(t) =>
        var k :| 0 <= k < |catalog| && catalog[k] == t && t.id == ids[0] &&
                 forall j :: 0 <= j < k ==> catalog[j].id != ids[0];
        assert t in catalog;
    }
  }

  /** Sensitivity weight: muy_alta 4, alta 3, media 2, anything else 1. */
  function Peso(sensibilidad: string): (w: real)
    ensures 1.0 <= w <= 4.0
  {
    if sensibilidad == "muy_alta" then 4.0
    else if sensibilidad == "alta" then 3.0
    else if sensibilidad == "media" then 2.0
    else 1.0
  }

  /** Running sums of the weighted a, b, c and of the weights. */
  datatype Totals = Totals(a: real, b: real, c: real, peso: real)

  /** The sums the source accumulates over the selected types, in order. */
  function Accumulate(tipos: seq<TipoDato>): (t: Totals)
    ensures t.peso >= |tipos| as real
  {
    if |tipos| == 0 then Totals(0.0, 0.0, 0.0, 0.0)
    else
      var prev := Accumulate(tipos[..|tipos| - 1]);
      var tipo := tipos[|tipos| - 1];
      AddPoint(prev, tipo.params, Peso(tipo.sensibilidad))
  }

  /** One step of the loop: a triple added with weight `w`. */
  function AddPoint(s: Totals, t: Triple, w: real): Totals {
    Totals(s.a + t.a * w, s.b + t.b * w, s.c + t.c * w, s.peso + w)
  }

  /** The sensitivity-weighted average triple of a non-empty selection. */
  function WeightedAverage(tipos: seq<TipoDato>): Triple
    requires |tipos| > 0
  {
    Average(Accumulate(tipos))
  }

  /** The three weighted sums divided by the total weight. */
  function Average(s: Totals): Triple
    requires s.peso > 0.0
  {
    Triple(s.a / s.peso, s.b / s.peso, s.c / s.peso)
  }

  /** Every selected type's triple lies, point by point, between the bounds `lo` and `hi`. */
  predicate PointsWithin(tipos: seq<TipoDato>, lo: Triple, hi: Triple) {
    forall t :: t in tipos ==> TripleWithin(t.params, lo, hi)
  }

  /** Each point of `t` lies between the same point of `lo` and of `hi`. */
  predicate TripleWithin(t: Triple, lo: Triple, hi: Triple) {
    lo.a <= t.a <= hi.a && lo.b <= t.b <= hi.b && lo.c <= t.c <= hi.c
  }

  /** The three points of a triple, and the three weighted sums of the loop. */
  datatype Point = A | B | C

  function PointOf(t: Triple, k: Point): real {
    match k
    case A => t.a
    case B => t.b
    case C => t.c
  }

  function SumOf(s: Totals, k: Point): real {
    match k
    case A => s.a
    case B => s.b
    case C => s.c
  }

  /** A weighted sum lies between `lo` and `hi` times its total weight. */
  predicate SumBetween(sum: real, weight: real, lo: real, hi: real) {
    lo * weight <= sum <= hi * weight
  }

  /** Adding one weighted point in [lo, hi] keeps a weighted sum between lo and hi times its weight. */
  lemma AddWeighted(sum: real, weight: real, x: real, w: real, lo: real, hi: real)
    requires SumBetween(sum, weight, lo, hi) && lo <= x <= hi && w >= 0.0
    ensures SumBetween(sum + x * w, weight + w, lo, hi)
  {
    ScaleMonotone(lo, x, w);
    ScaleMonotone(x, hi, w);
  }

  /** One loop step adds the weighted point to its sum. */
  lemma SumOfAddPoint(s: Totals, t: Triple, w: real, k: Point)
    ensures SumOf(AddPoint(s, t, w), k) == SumOf(s, k) + PointOf(t, k) * w
  {
  }

  /**
   * If point `k` of every selected triple lies in [lo, hi], the weighted sum of
   * point `k` lies between lo and hi times the total weight.
   */
  lemma {:induction false} AccumulateWithin(tipos: seq<TipoDato>, k: Point, lo: real, hi: real)
    requires forall t :: t in tipos ==> lo <= PointOf(t.params, k) <= hi
    ensures SumBetween(SumOf(Accumulate(tipos), k), Accumulate(tipos).peso, lo, hi)
  {
    if |tipos| > 0 {
      var init := tipos[..|tipos| - 1];
      var tipo := tipos[|tipos| - 1];
      assert tipo in tipos;
      assert forall t :: t in init ==> t in tipos;
      AccumulateWithin(init, k, lo, hi);
      var prev := Accumulate(init);
      var w := Peso(tipo.sensibilidad);
      SumOfAddPoint(prev, tipo.params, w, k);
      AddWeighted(SumOf(prev, k), prev.peso, PointOf(tipo.params, k), w, lo, hi);
    }
  }

  /** If point `k` of every selected triple lies in [lo, hi], so does point `k` of the weighted average. */
  lemma AveragePointWithin(tipos: seq<TipoDato>, k: Point, lo: real, hi: real)
    requires |tipos| > 0 && forall t :: t in tipos ==> lo <= PointOf(t.params, k) <= hi
    ensures lo <= PointOf(WeightedAverage(tipos), k) <= hi
  {
    var s := Accumulate(tipos);
    AccumulateWithin(tipos, k, lo, hi);
    DivideWithin(SumOf(s, k), s.peso, lo, hi);
    assert PointOf(WeightedAverage(tipos), k) == SumOf(s, k) / s.peso;
  }

  /**
   * Each point of the weighted average lies within the bounds of that point over the
   * selected types: between the smallest and the largest `a`, and likewise for `b` and `c`.
   */
  lemma WeightedAverageWithin(tipos: seq<TipoDato>, lo: Triple, hi: Triple)
    requires |tipos| > 0 && PointsWithin(tipos, lo, hi)
    ensures TripleWithin(WeightedAverage(tipos), lo, hi)
  {
    AveragePointWithin(tipos, A, lo.a, hi.a);
    AveragePointWithin(tipos, B, lo.b, hi.b);
    AveragePointWithin(tipos, C, lo.c, hi.c);
  }

  /** The bounds every catalog triple keeps: each point in [0, 100]. */
  const NoPoints: Triple := Triple(0.0, 0.0, 0.0)
  const AllPoints: Triple := Triple(100.0, 100.0, 100.0)

  /** TDP contribution: the default triple (5, 10, 15) when nothing is selected, 0 when no selected id is known. */
  function TdpWeighted(cfg: Config, ids: seq<string>): (r: real)
    ensures ValidConfig(cfg) ==> 0.0 <= r <= cfg.weights.TDP
  {
    var r := if |ids| == 0 then Share(Pert(5.0, 10.0, 15.0), cfg.weights.TDP)
             else TdpOfSelection(SelectedTipos(cfg.tiposDatosPersonales, ids), cfg.weights.TDP);
    assert ValidConfig(cfg) ==> 0.0 <= r <= cfg.weights.TDP by {
      if ValidConfig(cfg) {
        if |ids| == 0 {
          ShareOfWeight(Pert(5.0, 10.0, 15.0), cfg.weights.TDP);
        } else {
          SelectedTiposValid(cfg, ids);
          TdpOfSelectionBounds(SelectedTipos(cfg.tiposDatosPersonales, ids), cfg.weights.TDP);
        }
      }
    }
    r
  }

  /** Pert of the weighted average triple, as a share of the weight `w`; 0 for an empty selection. */
  function TdpOfSelection(sel: seq<TipoDato>, w: real): real {
    if |sel| == 0 then 0.0
    else
      var avg := WeightedAverage(sel);
      Share(Pert(avg.a, avg.b, avg.c), w)
  }

  /** An empty selection falls back to pert(5,10,15) = 10, i.e. a tenth of the TDP weight. */
  lemma TdpDefault(cfg: Config, ids: seq<string>)
    requires |ids| == 0
    ensures TdpWeighted(cfg, ids) == 0.1 * cfg.weights.TDP
  {
  }

  /** A non-empty selection of unknown ids contributes nothing. */
  lemma TdpAllUnknown(cfg: Config, ids: seq<string>)
    requires |ids| > 0
    requires forall k :: 0 <= k < |ids| ==> FindTipo(cfg.tiposDatosPersonales, ids[k]).None?
    ensures TdpWeighted(cfg, ids) == 0.0
  {
    SelectedTiposSpec(cfg.tiposDatosPersonales, ids);
  }

  /** A selection whose points lie in [0, 100] contributes a share of the weight between 0 and all of it. */
  lemma TdpOfSelectionBounds(sel: seq<TipoDato>, w: real)
    requires PointsWithin(sel, NoPoints, AllPoints) && w >= 0.0
    ensures 0.0 <= TdpOfSelection(sel, w) <= w
  {
    if |sel| > 0 {
      var avg := WeightedAverage(sel);
      var e := Pert(avg.a, avg.b, avg.c);
      assert 0.0 <= e <= 100.0 by {
        WeightedAverageWithin(sel, NoPoints, AllPoints);
        PertWithin(avg.a, avg.b, avg.c, 0.0, 100.0);
      }
      ShareOfWeight(e, w);
    }
  }

  /** Every type a valid catalog yields has its points in [0, 100]. */
  lemma SelectedTiposValid(cfg: Config, ids: seq<string>)
    requires ValidConfig(cfg)
    ensures PointsWithin(SelectedTipos(cfg.tiposDatosPersonales, ids), NoPoints, AllPoints)
  {
    var sel := SelectedTipos(cfg.tiposDatosPersonales, ids);
    SelectedTiposSpec(cfg.tiposDatosPersonales, ids);
    forall t | t in sel
      ensures TripleWithin(t.params, NoPoints, AllPoints)
    {
      assert ValidTriple(t.params);
    }
  }

  // ---------------------------------------------------------------------------
  // TAV: scale of the affected population
  // ---------------------------------------------------------------------------

  /** Sum of the counts of the selected categories; a category without a count adds 0. */
  function TotalAfectados(titulares: map<string, real>, sel: seq<string>): real {
    if |sel| == 0 then 0.0
    else
      var id := sel[|sel| - 1];
      TotalAfectados(titulares, sel[..|sel| - 1]) + (if id in titulares then titulares[id] else 0.0)
  }

  /** Non-negative counts add up to a non-negative total. */
  lemma {:induction false} TotalAfectadosNonNegative(titulares: map<string, real>, sel: seq<string>)
    requires forall id :: id in titulares ==> titulares[id] >= 0.0
    ensures TotalAfectados(titulares, sel) >= 0.0
  {
    if |sel| > 0 {
      TotalAfectadosNonNegative(titulares, sel[..|sel| - 1]);
    }
  }

  /** The affected total clamped to the company's data-subject population. */
  function AfectadosValid(total: real, population: real): real {
    MinReal(total, population)
  }

  /** The clamped total as a percentage of the population; 0 when the population is 0. */
  function PorcentajeAfectados(valid: real, population: real): real {
    if population > 0.0 then (valid / population) * 100.0 else 0.0
  }

  /** The clamped total never exceeds the population, and its percentage lies in [0, 100]. */
  lemma PorcentajeBounds(total: real, population: real)
    requires total >= 0.0 && population >= 0.0
    ensures 0.0 <= AfectadosValid(total, population) <= population
    ensures population == 0.0 ==> PorcentajeAfectados(AfectadosValid(total, population), population) == 0.0
    ensures 0.0 <= PorcentajeAfectados(AfectadosValid(total, population), population) <= 100.0
  {
    var v := AfectadosValid(total, population);
    if population > 0.0 {
      DivideWithin(v, population, 0.0, 1.0);
    }
  }

  /**
   * Population tier (0 very low .. 4 very high) with the source's tests, first match:
   * each tier holds when the count OR the percentage falls in its band.
   * The count bands leave gaps between 1000 and 1001 and between 10000 and 10001.
   * This is the tier the calculation uses.
   */
  function TavTierAsWritten(count: real, pct: real): (tier: nat)
    ensures tier <= 4
    ensures tier == 0 <==> count < 100.0 || pct < 0.1
  {
    if count < 100.0 || pct < 0.1 then 0
    else if (count >= 100.0 && count <= 1000.0) || (pct >= 0.1 && pct <= 1.0) then 1
    else if (count >= 1001.0 && count <= 10000.0) || (pct >= 1.0 && pct <= 10.0) then 2
    else if (count >= 10001.0 && count <= 100000.0) || (pct >= 10.0 && pct <= 50.0) then 3
    else 4
  }

  /**
   * The corrected population tier, with gap-free count bands: (1000, 10000] and
   * (10000, 100000] take the place of [1001, 10000] and [10001, 100000]. The
   * percentage tests are the source's.
   */
  function TavTier(count: real, pct: real): (tier: nat)
    ensures tier <= 4
  {
    if count < 100.0 || pct < 0.1 then 0
    else if (count >= 100.0 && count <= 1000.0) || (pct >= 0.1 && pct <= 1.0) then 1
    else if (count > 1000.0 && count <= 10000.0) || (pct >= 1.0 && pct <= 10.0) then 2
    else if (count > 10000.0 && count <= 100000.0) || (pct >= 10.0 && pct <= 50.0) then 3
    else 4
  }

  /**
   * The tier the count alone selects with the source's bands. A count in one of the
   * gaps matches none of the count tests, so alone it would fall through to tier 4.
   */
  function CountBandAsWritten(count: real): nat {
    if count < 100.0 then 0
    else if count <= 1000.0 then 1
    else if 1001.0 <= count <= 10000.0 then 2
    else if 10001.0 <= count <= 100000.0 then 3
    else 4
  }

  /** The tier the count alone selects with the gap-free bands. */
  function CountBand(count: real): nat {
    if count < 100.0 then 0
    else if count <= 1000.0 then 1
    else if count <= 10000.0 then 2
    else if count <= 100000.0 then 3
    else 4
  }

  /** The tier the percentage alone would select. */
  function PctBand(pct: real): nat {
    if pct < 0.1 then 0
    else if pct <= 1.0 then 1
    else if pct <= 10.0 then 2
    else if pct <= 50.0 then 3
    else 4
  }

  /**
   * First match over "count OR percentage" picks the lower of the two
   * single-criterion tiers: for the source's tier with the source's count bands,
   * so a count in a gap leaves the choice to the percentage.
   */
  lemma TavTierAsWrittenIsLowerBand(count: real, pct: real)
    ensures TavTierAsWritten(count, pct) ==
            if CountBandAsWritten(count) <= PctBand(pct) then CountBandAsWritten(count) else PctBand(pct)
  {
  }

  /** The same for the corrected tier, with the gap-free count bands. */
  lemma TavTierIsLowerBand(count: real, pct: real)
    ensures TavTier(count, pct) == if CountBand(count) <= PctBand(pct) then CountBand(count) else PctBand(pct)
  {
  }

  /** The very-low corrected tier is chosen exactly when fewer than 100 subjects or less than 0.1% are affected. */
  lemma TavFirstTier(count: real, pct: real)
    ensures TavTier(count, pct) == 0 <==> count < 100.0 || pct < 0.1
  {
  }

  /** A larger affected total never lowers the corrected tier. */
  lemma TavTierMonotone(total: real, total': real, population: real)
    requires total <= total' && population >= 0.0
    ensures var v := AfectadosValid(total, population);
            var v' := AfectadosValid(total', population);
            TavTier(v, PorcentajeAfectados(v, population)) <= TavTier(v', PorcentajeAfectados(v', population))
  {
    var v := AfectadosValid(total, population);
    var v' := AfectadosValid(total', population);
    var p := PorcentajeAfectados(v, population);
    var p' := PorcentajeAfectados(v', population);
    assert v <= v';
    if population > 0.0 {
      DivideMonotone(v, v', population);
    }
    assert p <= p';
    TavTierIsLowerBand(v, p);
    TavTierIsLowerBand(v', p');
  }

  /** `x` is a whole number. */
  predicate IsWhole(x: real) {
    x == x.Floor as real
  }

  /** On whole counts the source's bands and the gap-free bands select the same tier. */
  lemma TavTierAsWrittenAgreesOnWholeCounts(count: real, pct: real)
    requires IsWhole(count)
    ensures TavTierAsWritten(count, pct) == TavTier(count, pct)
  {
    assert (count >= 1001.0) == (count > 1000.0);
    assert (count >= 10001.0) == (count > 10000.0);
  }

  /**
   * With whole affected totals and a whole population, a larger affected total
   * never lowers the source's tier.
   */
  lemma TavTierAsWrittenMonotoneOnWholeCounts(total: real, total': real, population: real)
    requires total <= total' && population >= 0.0
    requires IsWhole(total) && IsWhole(total') && IsWhole(population)
    ensures var v := AfectadosValid(total, population);
            var v' := AfectadosValid(total', population);
            TavTierAsWritten(v, PorcentajeAfectados(v, population))
            <= TavTierAsWritten(v', PorcentajeAfectados(v', population))
  {
    var v := AfectadosValid(total, population);
    var v' := AfectadosValid(total', population);
    TavTierAsWrittenAgreesOnWholeCounts(v, PorcentajeAfectados(v, population));
    TavTierAsWrittenAgreesOnWholeCounts(v', PorcentajeAfectados(v', population));
    TavTierMonotone(total, total', population);
  }

  /**
   * The source's bands are not monotone on fractional counts: with a population of
   * 5000, an affected total of 1000.5 lands in tier 3 while 1001 lands in tier 2.
   */
  lemma TavTierAsWrittenNotMonotone()
    ensures var v := AfectadosValid(1000.5, 5000.0);
            TavTierAsWritten(v, PorcentajeAfectados(v, 5000.0)) == 3
    ensures var v' := AfectadosValid(1001.0, 5000.0);
            TavTierAsWritten(v', PorcentajeAfectados(v', 5000.0)) == 2
  {
  }

  /** The triple of a tier, as fractions in [0,1]. */
  function TavParams(tier: nat): Triple {
    if tier == 0 then Triple(0.05, 0.10, 0.20)
    else if tier == 1 then Triple(0.20, 0.30, 0.40)
    else if tier == 2 then Triple(0.40, 0.50, 0.60)
    else if tier == 3 then Triple(0.60, 0.75, 0.85)
    else Triple(0.85, 0.95, 1.00)
  }

  /** TAV contribution of a tier: pert of its triple on the 0-100 scale, scaled by WEIGHTS.TAV. */
  function TavWeightedOfTier(cfg: Config, tier: nat): real {
    var p := TavParams(tier);
    Share(Pert(p.a * 100.0, p.b * 100.0, p.c * 100.0), cfg.weights.TAV)
  }

  /** A higher tier never contributes less, and every tier stays within [0, WEIGHTS.TAV]. */
  lemma TavWeightedOfTierMonotone(cfg: Config, tier: nat, tier': nat)
    requires tier <= tier' && cfg.weights.TAV >= 0.0
    ensures 0.0 <= TavWeightedOfTier(cfg, tier) <= TavWeightedOfTier(cfg, tier') <= cfg.weights.TAV
  {
    var p := TavParams(tier);
    var p' := TavParams(tier');
    var e := Pert(p.a * 100.0, p.b * 100.0, p.c * 100.0);
    var e' := Pert(p'.a * 100.0, p'.b * 100.0, p'.c * 100.0);
    assert 0.0 <= e <= e' <= 100.0;
    ShareOfWeight(e, cfg.weights.TAV);
    ShareMonotone(e, e', cfg.weights.TAV);
    ShareOfWeight(e', cfg.weights.TAV);
  }

  /** TAV contribution of the form: the tier of the clamped total and its percentage, as the source selects it. */
  function TavWeighted(cfg: Config, data: FormData): (r: real)
    ensures cfg.weights.TAV >= 0.0 ==> 0.0 <= r <= cfg.weights.TAV
  {
    var total := TotalAfectados(data.titulares, data.titularesSeleccionados);
    var valid := AfectadosValid(total, cfg.totalTitularesEmpresa);
    var tier := TavTierAsWritten(valid, PorcentajeAfectados(valid, cfg.totalTitularesEmpresa));
    assert cfg.weights.TAV >= 0.0 ==> 0.0 <= TavWeightedOfTier(cfg, tier) <= cfg.weights.TAV by {
      if cfg.weights.TAV >= 0.0 {
        TavWeightedOfTierMonotone(cfg, tier, tier);
      }
    }
    TavWeightedOfTier(cfg, tier)
  }

  /**
   * Increasing the affected counts (all else equal) never decreases the TAV
   * contribution, as long as the totals and the population are whole numbers.
   */
  lemma TavWeightedMonotone(cfg: Config, data: FormData, data': FormData)
    requires ValidConfig(cfg)
    requires TotalAfectados(data.titulares, data.titularesSeleccionados)
             <= TotalAfectados(data'.titulares, data'.titularesSeleccionados)
    requires IsWhole(TotalAfectados(data.titulares, data.titularesSeleccionados))
    requires IsWhole(TotalAfectados(data'.titulares, data'.titularesSeleccionados))
    requires IsWhole(cfg.totalTitularesEmpresa)
    ensures TavWeighted(cfg, data) <= TavWeighted(cfg, data')
  {
    var total := TotalAfectados(data.titulares, data.titularesSeleccionados);
    var total' := TotalAfectados(data'.titulares, data'.titularesSeleccionados);
    var population := cfg.totalTitularesEmpresa;
    TavTierAsWrittenMonotoneOnWholeCounts(total, total', population);
    var v := AfectadosValid(total, population);
    var v' := AfectadosValid(total', population);
    TavWeightedOfTierMonotone(cfg, TavTierAsWritten(v, PorcentajeAfectados(v, population)),
                              TavTierAsWritten(v', PorcentajeAfectados(v', population)));
  }

  // ---------------------------------------------------------------------------
  // NDV: nature of the breach
  // ---------------------------------------------------------------------------

  /** Pert of the selected option's triple; 0 for an unknown key or an option without a triple. */
  function NdvExpected(cfg: Config, key: string): real {
    if key in cfg.naturalezaVulneracionOptions && cfg.naturalezaVulneracionOptions[key].pert.Some? then
      var t := cfg.naturalezaVulneracionOptions[key].pert.value;
      Pert(t.a, t.b, t.c)
    else 0.0
  }

  /** NDV contribution: 0 without a triple, otherwise within [0, WEIGHTS.NDV] for a valid configuration. */
  function NdvWeighted(cfg: Config, key: string): (r: real)
    ensures ValidConfig(cfg) ==> 0.0 <= r <= cfg.weights.NDV
    ensures !(key in cfg.naturalezaVulneracionOptions && cfg.naturalezaVulneracionOptions[key].pert.Some?) ==> r == 0.0
  {
    assert ValidConfig(cfg) ==> 0.0 <= Share(NdvExpected(cfg, key), cfg.weights.NDV) <= cfg.weights.NDV by {
      if ValidConfig(cfg) {
        NdvExpectedWithin(cfg, key);
        ShareOfWeight(NdvExpected(cfg, key), cfg.weights.NDV);
      }
    }
    Share(NdvExpected(cfg, key), cfg.weights.NDV)
  }

  /** The expected NDV percentage lies in [0, 100], and is 0 without a triple. */
  lemma NdvExpectedWithin(cfg: Config, key: string)
    requires ValidConfig(cfg)
    ensures 0.0 <= NdvExpected(cfg, key) <= 100.0
    ensures !(key in cfg.naturalezaVulneracionOptions && cfg.naturalezaVulneracionOptions[key].pert.Some?) ==>
              NdvExpected(cfg, key) == 0.0
  {
    if key in cfg.naturalezaVulneracionOptions && cfg.naturalezaVulneracionOptions[key].pert.Some? {
      var t := cfg.naturalezaVulneracionOptions[key].pert.value;
      assert ValidTriple(t);
      PertWithin(t.a, t.b, t.c, 0.0, 100.0);
    }
  }

  // ---------------------------------------------------------------------------
  // TEV: vulnerable groups
  // ---------------------------------------------------------------------------

  /** The triple for `count` selected groups: b grows by 5 per extra group up to 100, a = b - 15, c = 100. */
  function TevTriple(count: nat): Triple
    requires count > 0
  {
    var baseB := MinReal(100.0, 85.0 + ((count - 1) as real) * 5.0);
    var baseA := MaxReal(0.0, baseB - 15.0);
    Triple(baseA, baseB, 100.0)
  }

  /** TEV contribution: 0 without vulnerable groups, otherwise between 0.85 and 0.975 of WEIGHTS.TEV. */
  function TevWeighted(cfg: Config, count: nat): (r: real)
    ensures count == 0 ==> r == 0.0
    ensures count > 0 && cfg.weights.TEV >= 0.0 ==> 0.85 * cfg.weights.TEV <= r <= 0.975 * cfg.weights.TEV
  {
    if count > 0 then
      var t := TevTriple(count);
      var e := Pert(t.a, t.b, t.c);
      assert cfg.weights.TEV >= 0.0 ==> 0.85 * cfg.weights.TEV <= Share(e, cfg.weights.TEV) <= 0.975 * cfg.weights.TEV by {
        if cfg.weights.TEV >= 0.0 {
          assert 85.0 <= e <= 97.5;
          ShareMonotone(85.0, e, cfg.weights.TEV);
          ShareMonotone(e, 97.5, cfg.weights.TEV);
        }
      }
      Share(e, cfg.weights.TEV)
    else 0.0
  }

  /** More vulnerable groups never lower TEV. */
  lemma TevMonotone(cfg: Config, count: nat, count': nat)
    requires count <= count' && cfg.weights.TEV >= 0.0
    ensures TevWeighted(cfg, count) <= TevWeighted(cfg, count')
  {
    if count > 0 {
      var t := TevTriple(count);
      var t' := TevTriple(count');
      assert t.a <= t'.a && t.b <= t'.b && t.c <= t'.c;
      PertMonotone(t.a, t.b, t.c, t'.a, t'.b, t'.c);
      ShareMonotone(Pert(t.a, t.b, t.c), Pert(t'.a, t'.b, t'.c), cfg.weights.TEV);
    }
  }

  // ---------------------------------------------------------------------------
  // IED, INT, SDI and the fine
  // ---------------------------------------------------------------------------

  /** The four sub-factor contributions to the impact score. */
  datatype Contributions = Contributions(tdp: real, tav: real, ndv: real, tev: real)

  /** The contributions the form's selections yield. */
  function ContributionsOf(cfg: Config, data: FormData): Contributions {
    Contributions(TdpWeighted(cfg, data.tiposDatosSeleccionados), TavWeighted(cfg, data),
                  NdvWeighted(cfg, data.naturalezaVulneracion), TevWeighted(cfg, |data.gruposVulnerables|))
  }

  /** Each contribution lies between 0 and its sub-factor weight. */
  predicate ContributionsWithin(cfg: Config, c: Contributions) {
    && 0.0 <= c.tdp <= cfg.weights.TDP && 0.0 <= c.tav <= cfg.weights.TAV
    && 0.0 <= c.ndv <= cfg.weights.NDV && 0.0 <= c.tev <= cfg.weights.TEV
  }

  /** Under a valid configuration every form yields contributions within their weights. */
  lemma ContributionsOfWithin(cfg: Config, data: FormData)
    requires ValidConfig(cfg)
    ensures ContributionsWithin(cfg, ContributionsOf(cfg, data))
  {
  }

  /** The composite impact: the contributions summed and normalised. */
  function Ied(cfg: Config, c: Contributions): real {
    (c.tdp + c.tav + c.ndv + c.tev) * cfg.iedNormalization
  }

  /** With contributions within their weights, IED lies in [0, IED_NORMALIZATION * (sum of the four weights)]. */
  lemma IedBounds(cfg: Config, c: Contributions)
    requires ValidConfig(cfg) && ContributionsWithin(cfg, c)
    ensures 0.0 <= Ied(cfg, c)
            <= cfg.iedNormalization * (cfg.weights.TDP + cfg.weights.TAV + cfg.weights.NDV + cfg.weights.TEV)
  {
    ScaleBetween(c.tdp + c.tav + c.ndv + c.tev, cfg.weights.TDP + cfg.weights.TAV + cfg.weights.NDV + cfg.weights.TEV,
                 cfg.iedNormalization);
  }

  /** Intentionality on the 0-100 scale: pert of the option's triple, else its `value`, else 0. */
  function IntPercent(key: string): real {
    if key in intencionalidadOptions then OptionPercent(intencionalidadOptions[key]) else 0.0
  }

  /** An option's percentage: Pert of its triple when it has one, its `value` otherwise. */
  function OptionPercent(opt: RiskOption): real {
    if opt.pert.Some? then Pert(opt.pert.value.a, opt.pert.value.b, opt.pert.value.c) else opt.value
  }

  /** No declared option has a triple, so every known key yields its `value` and INT points stay in [0.2, 0.9]. */
  lemma IntPercentFallsBackToValue(key: string)
    ensures key in intencionalidadOptions ==> IntPercent(key) == intencionalidadOptions[key].value
    ensures key in intencionalidadOptions ==> 0.2 <= IntPercent(key) / 10.0 <= 0.9
    ensures key !in intencionalidadOptions ==> IntPercent(key) == 0.0
  {
  }

  /** The severity multiplier from IED (0-1, scaled to 10 points), INT points and RER. */
  function Sdi(cfg: Config, ied: real, intPoints: real, rer: real): real {
    2.0 * (cfg.sdiWeights.IED * (ied * 10.0) + cfg.sdiWeights.INT * intPoints + cfg.sdiWeights.RER * rer)
  }

  /** SDI is non-negative for non-negative weights and factors. */
  lemma SdiNonNegative(cfg: Config, ied: real, intPoints: real, rer: real)
    requires ValidConfig(cfg) && ied >= 0.0 && intPoints >= 0.0 && rer >= 0.0
    ensures Sdi(cfg, ied, intPoints, rer) >= 0.0
  {
    ScaleMonotone(0.0, ied * 10.0, cfg.sdiWeights.IED);
    ScaleMonotone(0.0, intPoints, cfg.sdiWeights.INT);
    ScaleMonotone(0.0, rer, cfg.sdiWeights.RER);
  }

  /** True when one of the four mandatory selections is empty. */
  predicate MissingSelection(data: FormData) {
    data.area == "" || data.activity == "" || data.intencionalidad == "" || data.naturalezaVulneracion == ""
  }

  /** The result record for the looked-up activity `act`, the composite impact `ied` and the INT points. */
  function Results(cfg: Config, act: Activity, ied: real, intPoints: real): (r: CalculationResults)
    ensures r.PDI == act.pdi && r.severity == act.severity && r.activityName == act.name
    ensures r.IED == ied && r.INT == intPoints && r.RER == cfg.rerFixed
    ensures 0.0 <= act.pdi <= 100.0 ==> VDN * RdmMin(act.severity) <= r.CDI <= VDN * RdmMax(act.severity)
    ensures r.multaFinal == r.CDI * r.SDI
  {
    var cdi := Exposure(act.severity, act.pdi);
    var sdi := Sdi(cfg, ied, intPoints, cfg.rerFixed);
    CalculationResults(act.pdi, cdi, ied, intPoints, cfg.rerFixed, sdi, cdi * sdi, act.severity, act.name)
  }

  /** The result of the calculation, or `None` for an incomplete form or an unknown activity. */
  function Mpriv(cfg: Config, acts: map<string, map<string, Activity>>, data: FormData): (r: Option<CalculationResults>)
    ensures r.Some? <==> !MissingSelection(data) && data.area in acts && data.activity in acts[data.area]
    ensures r.Some? ==> && r.value.activityName == acts[data.area][data.activity].name
                        && r.value.severity == acts[data.area][data.activity].severity
                        && r.value.PDI == acts[data.area][data.activity].pdi
  {
    if MissingSelection(data) then None
    else
      match LookupActivity(acts, data.area, data.activity)
      case None => None
      case Some(act) => Some(Results(cfg, act, Ied(cfg, ContributionsOf(cfg, data)), IntPercent(data.intencionalidad) / 10.0))
  }

  /** A defined result is the record built from the catalogued activity and the form's scores. */
  lemma MprivUnfold(cfg: Config, acts: map<string, map<string, Activity>>, data: FormData)
    requires Mpriv(cfg, acts, data).Some?
    ensures LookupActivity(acts, data.area, data.activity).Some?
    ensures Mpriv(cfg, acts, data) == Some(Results(cfg, LookupActivity(acts, data.area, data.activity).value,
                                             Ied(cfg, ContributionsOf(cfg, data)), IntPercent(data.intencionalidad) / 10.0))
  {
  }

  /**
   * For an activity with a percentage in [0,100], non-negative scores and a valid
   * configuration, SDI and the fine are non-negative.
   */
  lemma ResultsBounds(cfg: Config, act: Activity, ied: real, intPoints: real)
    requires ValidConfig(cfg) && 0.0 <= act.pdi <= 100.0 && ied >= 0.0 && intPoints >= 0.0
    ensures var r := Results(cfg, act, ied, intPoints);
            r.SDI >= 0.0 && r.multaFinal >= 0.0
  {
    SdiNonNegative(cfg, ied, intPoints, cfg.rerFixed);
    ProductNonNegative(Exposure(act.severity, act.pdi), Sdi(cfg, ied, intPoints, cfg.rerFixed));
  }

  /**
   * For a catalog of activities with percentages in [0, 100], a result's exposure
   * lies between its tier's bounds, its IED within its range, and its INT, SDI and
   * fine are non-negative.
   */
  lemma MprivResultBounds(cfg: Config, acts: map<string, map<string, Activity>>, data: FormData)
    requires ValidConfig(cfg) && ValidActivities(acts) && Mpriv(cfg, acts, data).Some?
    ensures var r := Mpriv(cfg, acts, data).value;
            && VDN * RdmMin(r.severity) <= r.CDI <= VDN * RdmMax(r.severity)
            && 0.0 <= r.IED <= cfg.iedNormalization * (cfg.weights.TDP + cfg.weights.TAV + cfg.weights.NDV + cfg.weights.TEV)
            && r.INT >= 0.0 && r.SDI >= 0.0 && r.multaFinal >= 0.0
  {
    MprivUnfold(cfg, acts, data);
    var act := LookupActivity(acts, data.area, data.activity).value;
    assert PdiInRange(acts[data.area]);
    var c := ContributionsOf(cfg, data);
    ContributionsOfWithin(cfg, data);
    IedBounds(cfg, c);
    IntPointsNonNegative(data.intencionalidad);
    ResultsBounds(cfg, act, Ied(cfg, c), IntPercent(data.intencionalidad) / 10.0);
  }

  /** A larger composite impact never gives a smaller severity multiplier or a smaller fine. */
  lemma ResultsMonotoneInIed(cfg: Config, act: Activity, ied: real, ied': real, intPoints: real)
    requires ValidConfig(cfg) && 0.0 <= act.pdi <= 100.0 && 0.0 <= ied <= ied' && intPoints >= 0.0
    ensures Results(cfg, act, ied, intPoints).SDI <= Results(cfg, act, ied', intPoints).SDI
    ensures Results(cfg, act, ied, intPoints).multaFinal <= Results(cfg, act, ied', intPoints).multaFinal
  {
    ScaleMonotone(ied * 10.0, ied' * 10.0, cfg.sdiWeights.IED);
    var sdi := Sdi(cfg, ied, intPoints, cfg.rerFixed);
    var sdi' := Sdi(cfg, ied', intPoints, cfg.rerFixed);
    var cdi := Exposure(act.severity, act.pdi);
    ScaleMonotone(sdi, sdi', cdi);
    assert Results(cfg, act, ied, intPoints).multaFinal == cdi * sdi;
    assert Results(cfg, act, ied', intPoints).multaFinal == cdi * sdi';
  }

  /**
   * Raising the affected data-subject total, with every other answer of the form
   * unchanged, never lowers the fine, as long as the totals and the population are
   * whole numbers (`TavTierAsWrittenNotMonotone` shows why this is needed).
   */
  lemma MprivMonotoneInAffected(cfg: Config, acts: map<string, map<string, Activity>>, data: FormData, data': FormData)
    requires ValidConfig(cfg) && ValidActivities(acts) && Mpriv(cfg, acts, data).Some?
    requires data' == data.(titulares := data'.titulares, titularesSeleccionados := data'.titularesSeleccionados)
    requires TotalAfectados(data.titulares, data.titularesSeleccionados)
             <= TotalAfectados(data'.titulares, data'.titularesSeleccionados)
    requires IsWhole(TotalAfectados(data.titulares, data.titularesSeleccionados))
    requires IsWhole(TotalAfectados(data'.titulares, data'.titularesSeleccionados))
    requires IsWhole(cfg.totalTitularesEmpresa)
    ensures Mpriv(cfg, acts, data').Some?
    ensures Mpriv(cfg, acts, data).value.multaFinal <= Mpriv(cfg, acts, data').value.multaFinal
  {
    MprivUnfold(cfg, acts, data);
    MprivUnfold(cfg, acts, data');
    var act := acts[data.area][data.activity];
    assert PdiInRange(acts[data.area]);
    IedMonotoneInAffected(cfg, data, data');
    IntPointsNonNegative(data.intencionalidad);
    ResultsMonotoneInIed(cfg, act, Ied(cfg, ContributionsOf(cfg, data)), Ied(cfg, ContributionsOf(cfg, data')),
                         IntPercent(data.intencionalidad) / 10.0);
  }

  /** Raising a whole affected total, all else equal, never lowers the composite impact IED. */
  lemma IedMonotoneInAffected(cfg: Config, data: FormData, data': FormData)
    requires ValidConfig(cfg)
    requires data' == data.(titulares := data'.titulares, titularesSeleccionados := data'.titularesSeleccionados)
    requires TotalAfectados(data.titulares, data.titularesSeleccionados)
             <= TotalAfectados(data'.titulares, data'.titularesSeleccionados)
    requires IsWhole(TotalAfectados(data.titulares, data.titularesSeleccionados))
    requires IsWhole(TotalAfectados(data'.titulares, data'.titularesSeleccionados))
    requires IsWhole(cfg.totalTitularesEmpresa)
    ensures 0.0 <= Ied(cfg, ContributionsOf(cfg, data)) <= Ied(cfg, ContributionsOf(cfg, data'))
  {
    var c := ContributionsOf(cfg, data);
    TavWeightedMonotone(cfg, data, data');
    assert ContributionsOf(cfg, data') == c.(tav := TavWeighted(cfg, data'));
    ContributionsOfWithin(cfg, data);
    IedMonotoneInTav(cfg, c, TavWeighted(cfg, data'));
  }

  /** A larger TAV contribution, the others unchanged, never lowers IED. */
  lemma IedMonotoneInTav(cfg: Config, c: Contributions, tav': real)
    requires ValidConfig(cfg) && ContributionsWithin(cfg, c) && c.tav <= tav'
    ensures 0.0 <= Ied(cfg, c) <= Ied(cfg, c.(tav := tav'))
  {
    IedBounds(cfg, c);
    ScaleMonotone(c.tdp + c.tav + c.ndv + c.tev, c.tdp + tav' + c.ndv + c.tev, cfg.iedNormalization);
  }

  lemma IntPointsNonNegative(key: string)
    ensures IntPercent(key) / 10.0 >= 0.0
  {
    IntPercentFallsBackToValue(key);
  }

  /** The running sums of the TDP step, accumulated by a loop in selection order. */
  method SumWeightedParams(tiposSeleccionados: seq<TipoDato>) returns (totalA: real, totalB: real, totalC: real, pesoTotal: real)
    ensures Totals(totalA, totalB, totalC, pesoTotal) == Accumulate(tiposSeleccionados)
  {
    totalA, totalB, totalC, pesoTotal := 0.0, 0.0, 0.0, 0.0;
    var i := 0;
    while i < |tiposSeleccionados|
      invariant 0 <= i <= |tiposSeleccionados|
      invariant Totals(totalA, totalB, totalC, pesoTotal) == Accumulate(tiposSeleccionados[..i])
    {
      var tipo := tiposSeleccionados[i];
      var prev := Totals(totalA, totalB, totalC, pesoTotal);
      var peso := if tipo.sensibilidad == "muy_alta" then 4.0
                  else if tipo.sensibilidad == "alta" then 3.0
                  else if tipo.sensibilidad == "media" then 2.0
                  else 1.0;
      totalA := totalA + tipo.params.a * peso;
      totalB := totalB + tipo.params.b * peso;
      totalC := totalC + tipo.params.c * peso;
      pesoTotal := pesoTotal + peso;
      assert Totals(totalA, totalB, totalC, pesoTotal) == AddPoint(prev, tipo.params, peso);
      assert peso == Peso(tipo.sensibilidad);
      assert tiposSeleccionados[..i + 1][..i] == tiposSeleccionados[..i];
      i := i + 1;
    }
    assert tiposSeleccionados[..i] == tiposSeleccionados;
  }

  /** The TDP step: pert of the weighted average of the selected types, or of the default triple. */
  method ComputeTdp(cfg: Config, ids: seq<string>) returns (tdpWeighted: real)
    ensures tdpWeighted == TdpWeighted(cfg, ids)
  {
    tdpWeighted := 0.0;
    if |ids| > 0 {
      var tiposSeleccionados := SelectedTipos(cfg.tiposDatosPersonales, ids);
      if |tiposSeleccionados| > 0 {
        var totalA, totalB, totalC, pesoTotal := SumWeightedParams(tiposSeleccionados);
        var avgA := totalA / pesoTotal;
        var avgB := totalB / pesoTotal;
        var avgC := totalC / pesoTotal;
        var tdpExpected := Pert(avgA, avgB, avgC);
        tdpWeighted := (tdpExpected / 100.0) * cfg.weights.TDP;
        var avg := WeightedAverage(tiposSeleccionados);
        assert avg == Triple(avgA, avgB, avgC);
        ShareEqual(tdpExpected, Pert(avg.a, avg.b, avg.c), cfg.weights.TDP);
        assert tdpWeighted == TdpOfSelection(tiposSeleccionados, cfg.weights.TDP);
      }
    }
    if tdpWeighted == 0.0 && |ids| == 0 {
      var tdpExpected := Pert(5.0, 10.0, 15.0);
      tdpWeighted := (tdpExpected / 100.0) * cfg.weights.TDP;
      ShareEqual(tdpExpected, Pert(5.0, 10.0, 15.0), cfg.weights.TDP);
    }
  }

  /** The TAV step: the clamped total, its percentage and the first matching tier. */
  method ComputeTav(cfg: Config, data: FormData) returns (tavWeighted: real)
    ensures tavWeighted == TavWeighted(cfg, data)
  {
    var totalAfectados := TotalAfectados(data.titulares, data.titularesSeleccionados);
    var totalAfectadosValid := MinReal(totalAfectados, cfg.totalTitularesEmpresa);
    var porcentajeAfectados :=
      if cfg.totalTitularesEmpresa > 0.0 then (totalAfectadosValid / cfg.totalTitularesEmpresa) * 100.0 else 0.0;
    var tavParams;
    if totalAfectadosValid < 100.0 || porcentajeAfectados < 0.1 {
      tavParams := Triple(0.05, 0.10, 0.20);
    } else if (totalAfectadosValid >= 100.0 && totalAfectadosValid <= 1000.0)
              || (porcentajeAfectados >= 0.1 && porcentajeAfectados <= 1.0) {
      tavParams := Triple(0.20, 0.30, 0.40);
    } else if (totalAfectadosValid >= 1001.0 && totalAfectadosValid <= 10000.0)
              || (porcentajeAfectados >= 1.0 && porcentajeAfectados <= 10.0) {
      tavParams := Triple(0.40, 0.50, 0.60);
    } else if (totalAfectadosValid >= 10001.0 && totalAfectadosValid <= 100000.0)
              || (porcentajeAfectados >= 10.0 && porcentajeAfectados <= 50.0) {
      tavParams := Triple(0.60, 0.75, 0.85);
    } else {
      tavParams := Triple(0.85, 0.95, 1.00);
    }
    assert tavParams == TavParams(TavTierAsWritten(totalAfectadosValid, porcentajeAfectados));
    var tavExpected := Pert(tavParams.a * 100.0, tavParams.b * 100.0, tavParams.c * 100.0);
    tavWeighted := (tavExpected / 100.0) * cfg.weights.TAV;
    ShareEqual(tavExpected, Pert(tavParams.a * 100.0, tavParams.b * 100.0, tavParams.c * 100.0), cfg.weights.TAV);
  }

  /** The NDV step: pert of the selected nature's triple, 0 when it has none. */
  method ComputeNdv(cfg: Config, key: string) returns (ndvWeighted: real)
    ensures ndvWeighted == NdvWeighted(cfg, key)
  {
    var ndvExpected := 0.0;
    if key in cfg.naturalezaVulneracionOptions && cfg.naturalezaVulneracionOptions[key].pert.Some? {
      var t := cfg.naturalezaVulneracionOptions[key].pert.value;
      ndvExpected := Pert(t.a, t.b, t.c);
    }
    ndvWeighted := (ndvExpected / 100.0) * cfg.weights.NDV;
    ShareEqual(ndvExpected, NdvExpected(cfg, key), cfg.weights.NDV);
  }

  /** The TEV step: the triple grows with the number of vulnerable groups. */
  method ComputeTev(cfg: Config, count: nat) returns (tevWeighted: real)
    ensures tevWeighted == TevWeighted(cfg, count)
  {
    tevWeighted := 0.0;
    if count > 0 {
      var baseB := MinReal(100.0, 85.0 + ((count - 1) as real) * 5.0);
      var baseA := MaxReal(0.0, baseB - 15.0);
      var baseC := 100.0;
      var tevExpected := Pert(baseA, baseB, baseC);
      tevWeighted := (tevExpected / 100.0) * cfg.weights.TEV;
      ShareEqual(tevExpected, Pert(TevTriple(count).a, TevTriple(count).b, TevTriple(count).c), cfg.weights.TEV);
    }
  }

  /** The exposure formula written with the tier's rates and the percentage as a fraction. */
  lemma ExposureFormula(sev: Severity, pdi: real, fraction: real, rdmMin: real, rdmMax: real)
    requires fraction == pdi / 100.0 && rdmMin == RdmMin(sev) && rdmMax == RdmMax(sev)
    ensures (VDN * rdmMin) + (fraction * (VDN * (rdmMax - rdmMin))) == Exposure(sev, pdi)
  {
  }

  /** The SDI formula written with IED already scaled to points. */
  lemma SdiFormula(cfg: Config, ied: real, iedPoints: real, intPoints: real, rer: real)
    requires iedPoints == ied * 10.0
    ensures 2.0 * (cfg.sdiWeights.IED * iedPoints + cfg.sdiWeights.INT * intPoints + cfg.sdiWeights.RER * rer)
            == Sdi(cfg, ied, intPoints, rer)
  {
  }

  /** The four contribution steps, in the source's order. */
  method ComputeContributions(cfg: Config, data: FormData) returns (c: Contributions)
    ensures c == ContributionsOf(cfg, data)
  {
    var tdpWeighted := ComputeTdp(cfg, data.tiposDatosSeleccionados);
    var tavWeighted := ComputeTav(cfg, data);
    var ndvWeighted := ComputeNdv(cfg, data.naturalezaVulneracion);
    var tevWeighted := ComputeTev(cfg, |data.gruposVulnerables|);
    c := Contributions(tdpWeighted, tavWeighted, ndvWeighted, tevWeighted);
  }

  /** IED, INT, SDI and the fine for the activity `activityData`, the contributions `c` and the intentionality key. */
  method ComputeResults(cfg: Config, activityData: Activity, c: Contributions, intencionalidad: string)
    returns (res: CalculationResults)
    ensures res == Results(cfg, activityData, Ied(cfg, c), IntPercent(intencionalidad) / 10.0)
  {
    var isGrave := activityData.severity == Grave;
    var rdmMin := if isGrave then 0.007 else 0.001;
    var rdmMax := if isGrave then 0.010 else 0.007;
    var pdi := activityData.pdi / 100.0;
    var cdi := (VDN * rdmMin) + (pdi * (VDN * (rdmMax - rdmMin)));
    ExposureFormula(activityData.severity, activityData.pdi, pdi, rdmMin, rdmMax);

    var iedSum := c.tdp + c.tav + c.ndv + c.tev;
    var ied := iedSum * cfg.iedNormalization;
    var intPercent := 0.0;
    if intencionalidad in intencionalidadOptions {
      intPercent := OptionPercent(intencionalidadOptions[intencionalidad]);
    }
    assert intPercent == IntPercent(intencionalidad);
    var rer := cfg.rerFixed;

    var iedPoints := ied * 10.0;
    var intPoints := intPercent / 10.0;
    var rerPoints := rer;
    var sdi := 2.0 * (cfg.sdiWeights.IED * iedPoints + cfg.sdiWeights.INT * intPoints + cfg.sdiWeights.RER * rerPoints);
    SdiFormula(cfg, ied, iedPoints, intPoints, rerPoints);
    var multaFinal := cdi * sdi;
    ProductEqual(cdi, Exposure(activityData.severity, activityData.pdi), sdi, Sdi(cfg, ied, intPoints, rerPoints));

    res := CalculationResults(activityData.pdi, cdi, ied, intPoints, rer, sdi, multaFinal,
                              activityData.severity, activityData.name);
  }

  /**
   * The calculation step by step. Returns `None` for an incomplete form or an
   * unknown activity; otherwise the result record.
   */
  method CalculateMPRIV(cfg: Config, acts: map<string, map<string, Activity>>, data: FormData)
    returns (r: Option<CalculationResults>)
    ensures r == Mpriv(cfg, acts, data)
    ensures r.None? <==> MissingSelection(data) || !(data.area in acts && data.activity in acts[data.area])
  {
    if data.area == "" || data.activity == "" || data.intencionalidad == "" || data.naturalezaVulneracion == "" {
      return None;
    }
    var found := LookupActivity(acts, data.area, data.activity);
    if found.None? {
      return None;
    }
    var c := ComputeContributions(cfg, data);
    var res := ComputeResults(cfg, found.value, c, data.intencionalidad);
    MprivUnfold(cfg, acts, data);
    r := Some(res);
  }
}
