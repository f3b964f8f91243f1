/**
 * The reference catalog of the MPRIV calculator (react-app/src/data/mprivData.ts):
 * the business volume VDN, the treatment activities per area with their severity
 * and impacted-population percentage (PDI), the area labels and the qualitative
 * option tables.
 *
 * The calculator also imports constants and catalogs that this data module does not
 * declare (the sub-factor weights, the IED normalisation, the fixed recidivism term,
 * the total data-subject population, the SDI weights, the data-subject categories,
 * the vulnerable groups, the personal-data-type catalog and the breach-nature
 * options). Their values are unknown, so they are gathered in `Config` and passed
 * to the engine; `ValidConfig` states what the model assumes of them.
 */
module Catalog {
  import opened Wrappers

  /** Total business volume, the monetary base of every exposure. */
  const VDN: real := 170000000.0

  datatype Severity = Leve | Grave

  datatype Activity = Activity(name: string, severity: Severity, pdi: real)

  /** A three-point estimate: optimistic, most likely and pessimistic value. */
  datatype Triple = Triple(a: real, b: real, c: real)

  /**
   * An entry of a qualitative option table. The engine reads an optional `pert`
   * triple and falls back to `value`; none of the tables declared here has a triple.
   */
  datatype RiskOption = RiskOption(name: string, value: real, description: string, pert: Option<Triple>)

  /** An entry of the personal-data-type catalog. */
  datatype TipoDato = TipoDato(id: string, caption: string, sensibilidad: string, params: Triple)

  /** A data-subject category or a vulnerable group (`caption` is the source's `label`). */
  datatype Category = Category(id: string, caption: string)

  datatype Weights = Weights(TDP: real, TAV: real, NDV: real, TEV: real)

  datatype SdiWeights = SdiWeights(IED: real, INT: real, RER: real)

  /** The imported constants and catalogs whose definitions are not part of this model. */
  datatype Config = Config(
    weights: Weights,
    iedNormalization: real,
    rerFixed: real,
    totalTitularesEmpresa: real,
    sdiWeights: SdiWeights,
    titularCategories: seq<Category>,
    vulnerableGroups: seq<Category>,
    tiposDatosPersonales: seq<TipoDato>,
    naturalezaVulneracionOptions: map<string, RiskOption>)

  predicate ValidTriple(t: Triple) {
    0.0 <= t.a <= 100.0 && 0.0 <= t.b <= 100.0 && 0.0 <= t.c <= 100.0
  }

  /** Assumptions on the undeclared constants: weights are non-negative, triples lie in [0,100]. */
  predicate ValidConfig(cfg: Config) {
    && cfg.weights.TDP >= 0.0 && cfg.weights.TAV >= 0.0 && cfg.weights.NDV >= 0.0 && cfg.weights.TEV >= 0.0
    && cfg.iedNormalization >= 0.0
    && cfg.rerFixed >= 0.0
    && cfg.totalTitularesEmpresa >= 0.0
    && cfg.sdiWeights.IED >= 0.0 && cfg.sdiWeights.INT >= 0.0 && cfg.sdiWeights.RER >= 0.0
    && (forall t :: t in cfg.tiposDatosPersonales ==> ValidTriple(t.params))
    && (forall k :: k in cfg.naturalezaVulneracionOptions && cfg.naturalezaVulneracionOptions[k].pert.Some? ==>
          ValidTriple(cfg.naturalezaVulneracionOptions[k].pert.value))
  }

  const marketingActivities: map<string, Activity> := map[
    "email_marketing" := Activity("Email Marketing", Leve, 30.0),
    "publicidad_dirigida" := Activity("Publicidad Dirigida", Grave, 60.0),
    "analisis_comportamiento" := Activity("Análisis de Comportamiento", Grave, 80.0)
  ]

  const ventasActivities: map<string, Activity> := map[
    "gestion_clientes" := Activity("Gestión de Clientes (CRM)", Leve, 20.0),
    "procesamiento_pagos" := Activity("Procesamiento de Pagos", Grave, 90.0),
    "historial_compras" := Activity("Historial de Compras", Leve, 40.0)
  ]

  const rrhhActivities: map<string, Activity> := map[
    "datos_empleados" := Activity("Datos de Empleados", Grave, 50.0),
    "nomina" := Activity("Nómina y Beneficios", Grave, 70.0),
    "evaluacion_desempeno" := Activity("Evaluación de Desempeño", Leve, 30.0)
  ]

  const financieroActivities: map<string, Activity> := map[
    "facturacion" := Activity("Facturación", Leve, 40.0),
    "credito_cobranza" := Activity("Crédito y Cobranza", Grave, 80.0),
    "reportes_financieros" := Activity("Reportes Financieros", Leve, 25.0)
  ]

  const logisticaActivities: map<string, Activity> := map[
    "gestion_entregas" := Activity("Gestión de Entregas", Leve, 20.0),
    "tracking_productos" := Activity("Tracking de Productos", Leve, 35.0),
    "proveedores" := Activity("Gestión de Proveedores", Leve, 50.0)
  ]

  const ecommerceActivities: map<string, Activity> := map[
    "tienda_online" := Activity("Tienda Online", Grave, 60.0),
    "cookies_tracking" := Activity("Cookies y Tracking", Grave, 70.0),
    "integracion_redes" := Activity("Integración Redes Sociales", Grave, 55.0)
  ]

  const activities: map<string, map<string, Activity>> := map[
    "marketing" := marketingActivities,
    "ventas" := ventasActivities,
    "rrhh" := rrhhActivities,
    "financiero" := financieroActivities,
    "logistica" := logisticaActivities,
    "ecommerce" := ecommerceActivities
  ]

  const areas: map<string, string> := map[
    "marketing" := "Marketing y Publicidad",
    "ventas" := "Ventas y Atención al Cliente",
    "rrhh" := "Recursos Humanos",
    "financiero" := "Área Financiera",
    "logistica" := "Logística y Distribución",
    "ecommerce" := "E-commerce y Digital"
  ]

  const impactoDerechosOptions: map<string, RiskOption> := map[
    "minimo" := RiskOption("Impacto Mínimo (1-3)", 2.0, "Afectación menor, sin daño significativo a los titulares de datos", None),
    "bajo" := RiskOption("Impacto Bajo (4-5)", 4.5, "Afectación limitada con consecuencias menores", None),
    "moderado" := RiskOption("Impacto Moderado (6-7)", 6.5, "Afectación considerable pero controlable", None),
    "alto" := RiskOption("Impacto Alto (8-10)", 9.0, "Afectación grave a derechos fundamentales", None)
  ]

  const intencionalidadOptions: map<string, RiskOption> := map[
    "sin_intencion" := RiskOption("Sin Intención (1-3)", 2.0, "Error no intencional por desconocimiento", None),
    "negligencia_leve" := RiskOption("Negligencia Leve (4-5)", 4.5, "Descuido menor en procedimientos", None),
    "negligencia_grave" := RiskOption("Negligencia Grave (6-7)", 6.5, "Descuido grave en obligaciones conocidas", None),
    "intencion_directa" := RiskOption("Intención Directa (8-10)", 9.0, "Violación consciente e intencional", None)
  ]

  const reincidenciaOptions: map<string, RiskOption> := map[
    "ninguna" := RiskOption("No Aplica (0)", 0.0, "Primera infracción, sin antecedentes", None),
    "reiteracion_menor" := RiskOption("Reiteración Menor (1-3)", 2.0, "Conducta similar reciente de baja gravedad", None),
    "reiteracion_moderada" := RiskOption("Reiteración Moderada (4-6)", 5.0, "Repetición de conductas similares", None),
    "reincidencia" := RiskOption("Reincidencia Alta (7-10)", 8.5, "Múltiples infracciones previas graves", None)
  ]

  /** Every activity of a group has its impacted-population percentage in [0,100]. */
  predicate PdiInRange(group: map<string, Activity>) {
    forall k :: k in group ==> 0.0 <= group[k].pdi <= 100.0
  }

  /** Every activity of every area of a catalog has its percentage in [0,100]. */
  predicate ValidActivities(acts: map<string, map<string, Activity>>) {
    forall area :: area in acts ==> PdiInRange(acts[area])
  }

  /** The shipped catalog's percentages all lie in [0,100]. */
  lemma ActivitiesValid()
    ensures ValidActivities(activities)
  {
    AllAreasWellFormed();
  }

  /** Every area's group has three activities, each with a percentage in [0,100]. */
  lemma AllAreasWellFormed()
    ensures forall area :: area in activities ==> |activities[area]| == 3 && PdiInRange(activities[area])
  {
    MarketingHasThree();
    VentasHasThree();
    RrhhHasThree();
    FinancieroHasThree();
    LogisticaHasThree();
    EcommerceHasThree();
  }

  /** Every area offers exactly three activities. */
  lemma EveryAreaHasThreeActivities()
    ensures forall area :: area in activities ==> |activities[area]| == 3
  {
    AllAreasWellFormed();
  }

  lemma MarketingHasThree()
    ensures |marketingActivities| == 3 && PdiInRange(marketingActivities)
  {
    ThreeKeys(marketingActivities, "email_marketing", "publicidad_dirigida", "analisis_comportamiento");
  }

  lemma VentasHasThree()
    ensures |ventasActivities| == 3 && PdiInRange(ventasActivities)
  {
    ThreeKeys(ventasActivities, "gestion_clientes", "procesamiento_pagos", "historial_compras");
  }

  lemma RrhhHasThree()
    ensures |rrhhActivities| == 3 && PdiInRange(rrhhActivities)
  {
    ThreeKeys(rrhhActivities, "datos_empleados", "nomina", "evaluacion_desempeno");
  }

  lemma FinancieroHasThree()
    ensures |financieroActivities| == 3 && PdiInRange(financieroActivities)
  {
    ThreeKeys(financieroActivities, "facturacion", "credito_cobranza", "reportes_financieros");
  }

  lemma LogisticaHasThree()
    ensures |logisticaActivities| == 3 && PdiInRange(logisticaActivities)
  {
    ThreeKeys(logisticaActivities, "gestion_entregas", "tracking_productos", "proveedores");
  }

  lemma EcommerceHasThree()
    ensures |ecommerceActivities| == 3 && PdiInRange(ecommerceActivities)
  {
    ThreeKeys(ecommerceActivities, "tienda_online", "cookies_tracking", "integracion_redes");
  }

  lemma ThreeKeys(group: map<string, Activity>, k1: string, k2: string, k3: string)
    requires group.Keys == {k1, k2, k3}
    requires k1 != k2 && k1 != k3 && k2 != k3
    ensures |group| == 3
  {
    assert group.Keys == {k1, k2, k3};
  }

  /** The areas of the activity catalog are exactly the areas with a display label. */
  lemma ActivityAreasAreLabelledAreas()
    ensures activities.Keys == areas.Keys
  {
  }

  /** The intentionality values grow in declared order and lie in the range printed in each name. */
  lemma IntencionalidadOptionsOrdered()
    ensures 1.0 <= intencionalidadOptions["sin_intencion"].value <= 3.0
    ensures 4.0 <= intencionalidadOptions["negligencia_leve"].value <= 5.0
    ensures 6.0 <= intencionalidadOptions["negligencia_grave"].value <= 7.0
    ensures 8.0 <= intencionalidadOptions["intencion_directa"].value <= 10.0
    ensures intencionalidadOptions["sin_intencion"].value < intencionalidadOptions["negligencia_leve"].value
              < intencionalidadOptions["negligencia_grave"].value < intencionalidadOptions["intencion_directa"].value
    ensures forall k :: k in intencionalidadOptions ==> intencionalidadOptions[k].pert.None?
  {
  }

  /** The recidivism values grow in declared order and lie in the range printed in each name. */
  lemma ReincidenciaOptionsOrdered()
    ensures reincidenciaOptions["ninguna"].value == 0.0
    ensures 1.0 <= reincidenciaOptions["reiteracion_menor"].value <= 3.0
    ensures 4.0 <= reincidenciaOptions["reiteracion_moderada"].value <= 6.0
    ensures 7.0 <= reincidenciaOptions["reincidencia"].value <= 10.0
    ensures reincidenciaOptions["ninguna"].value < reincidenciaOptions["reiteracion_menor"].value
              < reincidenciaOptions["reiteracion_moderada"].value < reincidenciaOptions["reincidencia"].value
  {
  }

  /** The rights-impact values grow in declared order and lie in the range printed in each name. */
  lemma ImpactoDerechosOptionsOrdered()
    ensures 1.0 <= impactoDerechosOptions["minimo"].value <= 3.0
    ensures 4.0 <= impactoDerechosOptions["bajo"].value <= 5.0
    ensures 6.0 <= impactoDerechosOptions["moderado"].value <= 7.0
    ensures 8.0 <= impactoDerechosOptions["alto"].value <= 10.0
    ensures impactoDerechosOptions["minimo"].value < impactoDerechosOptions["bajo"].value
              < impactoDerechosOptions["moderado"].value < impactoDerechosOptions["alto"].value
  {
  }
}
