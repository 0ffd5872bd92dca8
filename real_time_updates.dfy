/**
 * The context classifiers of services/real_time_update_system.py: location
 * tables, the three risk classifiers, the analysis of the current indicators
 * and the interpretation of growth and unemployment figures.
 */
module RealTimeUpdates {
  import opened Wrappers
  import opened PyStr
  import opened JsonValue

  // ---------------------------------------------------------------------------
  // Location tables
  // ---------------------------------------------------------------------------

  datatype Coordinates = Coordinates(lat: real, lon: real)

  const KnownCoordinates: map<string, Coordinates> := map[
    "Guatemala" := Coordinates(14.6349, -90.5069),
    "Quetzaltenango" := Coordinates(14.8333, -91.5167),
    "Huehuetenango" := Coordinates(15.3197, -91.4695),
    "Alta Verapaz" := Coordinates(15.3667, -90.3333),
    "Petén" := Coordinates(16.9167, -89.8833),
    "Chiquimula" := Coordinates(14.8000, -89.5333),
    "San Marcos" := Coordinates(14.9667, -91.8000),
    "Sololá" := Coordinates(14.7667, -91.1833),
    "Quiché" := Coordinates(15.0333, -91.1500)
  ]

  /** `_get_guatemala_coordinates`: the table entry, or the capital's for an unknown location. */
  function GuatemalaCoordinates(location: string): Coordinates {
    if location in KnownCoordinates then KnownCoordinates[location] else KnownCoordinates["Guatemala"]
  }

  /** Inside Guatemala's extent: latitude 13.7 to 17.9 north, longitude 88.2 to 92.3 west. */
  predicate InGuatemala(c: Coordinates) {
    13.7 <= c.lat <= 17.9 && -92.3 <= c.lon <= -88.2
  }

  /**
   * Every location gets coordinates, those of its own table entry when it
   * has one and the capital's otherwise, and they always lie in Guatemala.
   */
  lemma GuatemalaCoordinatesSpec(location: string)
    ensures InGuatemala(GuatemalaCoordinates(location))
    ensures location in KnownCoordinates ==> GuatemalaCoordinates(location) == KnownCoordinates[location]
    ensures location !in KnownCoordinates ==> GuatemalaCoordinates(location) == Coordinates(14.6349, -90.5069)
  {
    assert forall l :: l in KnownCoordinates ==> InGuatemala(KnownCoordinates[l]);
  }

  /** A risk assessment: hazard and level, in the order the dict lists them. */
  type RiskTable = seq<(string, string)>

  const DefaultClimateRisks: RiskTable := [("drought", "medium"), ("flooding", "medium"), ("general_risk", "medium")]

  /** `_assess_climate_risks`: the location's assessment, or a fixed medium default. */
  function ClimateRisks(location: string): RiskTable {
    if location == "Guatemala" then [("drought", "medium"), ("flooding", "medium"), ("hurricanes", "medium")]
    else if location == "Quetzaltenango" then [("drought", "low"), ("flooding", "low"), ("temperature_variation", "high")]
    else if location == "Huehuetenango" then [("drought", "high"), ("flooding", "low"), ("frost", "medium")]
    else if location == "Alta Verapaz" then [("drought", "low"), ("flooding", "high"), ("landslides", "high")]
    else if location == "Petén" then [("drought", "medium"), ("deforestation", "high"), ("flooding", "medium")]
    else if location == "Chiquimula" then [("drought", "very_high"), ("water_scarcity", "high"), ("desertification", "medium")]
    else if location == "San Marcos" then [("volcanic_activity", "high"), ("landslides", "high"), ("flooding", "medium")]
    else DefaultClimateRisks
  }

  const RiskLevels: set<string> := {"low", "medium", "high", "very_high"}

  /**
   * Every assessment rates three distinct hazards, each on the level scale,
   * and an unknown location gets the medium default.
   */
  lemma ClimateRisksSpec(location: string)
    ensures |ClimateRisks(location)| == 3
    ensures forall i, j :: 0 <= i < j < 3 ==> ClimateRisks(location)[i].0 != ClimateRisks(location)[j].0
    ensures forall i :: 0 <= i < 3 ==> ClimateRisks(location)[i].1 in RiskLevels
    ensures location !in KnownCoordinates ==> ClimateRisks(location) == DefaultClimateRisks
  {
  }

  // ---------------------------------------------------------------------------
  // Risk classifiers
  // ---------------------------------------------------------------------------

  /** The shared shape of the classifiers: the high list first, then the medium list, else "low". */
  function Classify(location: string, high: seq<string>, medium: seq<string>): (level: string)
    ensures level in {"high", "medium", "low"}
  {
    if location in high then "high" else if location in medium then "medium" else "low"
  }

  const DeforestationHigh: seq<string> := ["Petén", "Alta Verapaz", "Izabal"]
  const DeforestationMedium: seq<string> := ["Huehuetenango", "San Marcos", "Quiché"]
  const WaterStressHigh: seq<string> := ["Chiquimula", "Zacapa", "El Progreso", "Jalapa"]
  const WaterStressMedium: seq<string> := ["Guatemala", "Sacatepéquez", "Escuintla"]
  const BiodiversityHigh: seq<string> := ["Petén", "Alta Verapaz", "Huehuetenango", "San Marcos"]
  const BiodiversityMedium: seq<string> := ["Baja Verapaz", "Quiché", "Izabal"]

  /** `_assess_deforestation_risk`. */
  function DeforestationRisk(location: string): string {
    Classify(location, DeforestationHigh, DeforestationMedium)
  }

  /** `_assess_water_stress`. */
  function WaterStress(location: string): string {
    Classify(location, WaterStressHigh, WaterStressMedium)
  }

  /** `_assess_biodiversity_priority`. */
  function BiodiversityPriority(location: string): string {
    Classify(location, BiodiversityHigh, BiodiversityMedium)
  }

  /**
   * A classifier says "high" exactly for its high list, "medium" exactly for
   * the rest of its medium list, and "low" for everything else.
   */
  lemma ClassifySpec(location: string, high: seq<string>, medium: seq<string>)
    ensures Classify(location, high, medium) == "high" <==> location in high
    ensures Classify(location, high, medium) == "medium" <==> location !in high && location in medium
    ensures Classify(location, high, medium) == "low" <==> location !in high && location !in medium
  {
  }

  /**
   * No location is on both lists of one classifier, so in each of the three
   * "medium" means exactly membership of the medium list, and any location
   * on neither list is "low".
   */
  lemma ClassifierListsDisjoint(location: string)
    ensures DeforestationRisk(location) == "medium" <==> location in DeforestationMedium
    ensures WaterStress(location) == "medium" <==> location in WaterStressMedium
    ensures BiodiversityPriority(location) == "medium" <==> location in BiodiversityMedium
  {
    ClassifySpec(location, DeforestationHigh, DeforestationMedium);
    ClassifySpec(location, WaterStressHigh, WaterStressMedium);
    ClassifySpec(location, BiodiversityHigh, BiodiversityMedium);
  }

  // ---------------------------------------------------------------------------
  // _analyze_current_context
  // ---------------------------------------------------------------------------

  /**
   * The indicator values the analysis reads: the "value" of GDP growth and of
   * adult literacy, the climate risks in dict order ([] when absent), and the
   * "rate" of USD to GTQ. A missing entry is Null.
   */
  datatype ContextData = ContextData(
    gdpGrowth: Value,
    adultLiteracy: Value,
    climateRisks: seq<(string, Value)>,
    usdToGtq: Value)

  datatype Analysis = Analysis(
    economicOutlook: string,
    socialChallenges: string,
    environmentalConsiderations: string,
    projectImplications: seq<string>,
    riskFactors: seq<string>,
    opportunities: seq<string>)

  const ClimateRiskLead := "La zona presenta riesgos climáticos altos en: "
  const SlowGrowthOutlook := "Guatemala presenta un crecimiento económico lento, lo que puede afectar las oportunidades de empleo e ingresos en las comunidades beneficiarias."
  const RobustGrowthOutlook := "Guatemala muestra un crecimiento económico robusto, creando un contexto favorable para iniciativas de desarrollo."
  const LiteracyChallenge := "La tasa de alfabetización adulta requiere atención prioritaria en las estrategias del proyecto."
  const IncomeImplication := "Enfatizar actividades de generación de ingresos y desarrollo económico local"
  const GrowthOpportunity := "Aprovechar el dinamismo económico para escalabilidad del proyecto"
  const LiteracyImplication := "Incorporar componentes de educación funcional y alfabetización"
  const ClimateImplication := "Integrar medidas de adaptación climática y gestión de riesgos"
  const StrongRateImplication := "Tipo de cambio favorable para proyectos financiados en USD"
  const WeakRateImplication := "Considerar fluctuaciones cambiarias en presupuesto"

  /** A numeric value below the bound; non-numbers never are. */
  predicate NumberBelow(v: Value, bound: real) {
    IsNumber(v) && NumberValue(v) < bound
  }

  /** A numeric value above the bound; non-numbers never are. */
  predicate NumberAbove(v: Value, bound: real) {
    IsNumber(v) && NumberValue(v) > bound
  }

  /** The hazards rated "high" or "very_high", in order. */
  function HighRisks(risks: seq<(string, Value)>): (r: seq<string>)
    ensures |r| <= |risks|
  {
    if risks == [] then []
    else
      var last := risks[|risks| - 1];
      HighRisks(risks[..|risks| - 1]) +
        if last.1 == Str("high") || last.1 == Str("very_high") then [last.0] else []
  }

  /** A hazard is a risk factor exactly when some entry rates it high or very high. */
  lemma {:induction false} HighRisksSpec(risks: seq<(string, Value)>)
    ensures forall h :: h in HighRisks(risks) <==>
      exists i :: 0 <= i < |risks| && risks[i].0 == h && risks[i].1 in {Str("high"), Str("very_high")}
  {
    if risks != [] {
      var init := risks[..|risks| - 1];
      HighRisksSpec(init);
      forall h
        ensures h in HighRisks(risks) <==>
          exists i :: 0 <= i < |risks| && risks[i].0 == h && risks[i].1 in {Str("high"), Str("very_high")}
      {
        if exists i :: 0 <= i < |risks| && risks[i].0 == h && risks[i].1 in {Str("high"), Str("very_high")} {
          var i :| 0 <= i < |risks| && risks[i].0 == h && risks[i].1 in {Str("high"), Str("very_high")};
          if i < |risks| - 1 {
            assert init[i] == risks[i];
          }
        }
        if h in HighRisks(risks) && h !in HighRisks(init) {
          assert risks[|risks| - 1].0 == h;
        }
      }
    }
  }

  /** The risks of an assessment as the analysis reads them. */
  function AsValues(t: RiskTable): seq<(string, Value)> {
    seq(|t|, i requires 0 <= i < |t| => (t[i].0, Str(t[i].1)))
  }

  /**
   * Fed with the location's own assessment, an unknown location yields no
   * risk factor, while Chiquimula yields drought and water scarcity.
   */
  lemma AssessedRiskFactors(location: string)
    ensures location !in KnownCoordinates ==> HighRisks(AsValues(ClimateRisks(location))) == []
    ensures HighRisks(AsValues(ClimateRisks("Chiquimula"))) == ["drought", "water_scarcity"]
  {
    if location !in KnownCoordinates {
      UnknownLocationDefault(location);
      DefaultNoHighRisks();
    }
    ChiquimulaHighRisks();
  }

  /** A location without coordinates gets the default assessment. */
  lemma UnknownLocationDefault(location: string)
    requires location !in KnownCoordinates
    ensures ClimateRisks(location) == DefaultClimateRisks
  {
    assert "Guatemala" in KnownCoordinates && "Quetzaltenango" in KnownCoordinates;
    assert "Huehuetenango" in KnownCoordinates && "Alta Verapaz" in KnownCoordinates;
    assert "Petén" in KnownCoordinates && "Chiquimula" in KnownCoordinates && "San Marcos" in KnownCoordinates;
  }

  /** The default assessment rates nothing high. */
  lemma DefaultNoHighRisks()
    ensures HighRisks(AsValues(DefaultClimateRisks)) == []
  {
    var d := AsValues(DefaultClimateRisks);
    assert d[..2][..1] == d[..1] && d[..1][..0] == [];
    assert HighRisks(d[..1]) == [];
    assert HighRisks(d[..2]) == [];
  }

  /** Chiquimula's assessment rates drought and water scarcity high. */
  lemma ChiquimulaHighRisks()
    ensures HighRisks(AsValues(ClimateRisks("Chiquimula"))) == ["drought", "water_scarcity"]
  {
    var c := AsValues(ClimateRisks("Chiquimula"));
    assert c[..3][..2] == c[..2] && c[..2][..1] == c[..1] && c[..1][..0] == [];
    assert c[..3] == c;
    assert HighRisks(c[..1]) == ["drought"];
    assert HighRisks(c[..2]) == ["drought", "water_scarcity"];
  }

  /** The list comprehension of the analysis: the high-rated hazards, in order. */
  method CollectHighRisks(risks: seq<(string, Value)>) returns (highRisks: seq<string>)
    ensures highRisks == HighRisks(risks)
  {
    highRisks := [];
    for i := 0 to |risks|
      invariant highRisks == HighRisks(risks[..i])
    {
      assert risks[..i + 1][..i] == risks[..i];
      if risks[i].1 == Str("high") || risks[i].1 == Str("very_high") {
        highRisks := highRisks + [risks[i].0];
      } else {
        assert highRisks + [] == highRisks;
      }
    }
    assert risks[..|risks|] == risks;
  }

  /** The project implications the analysis raises, in order. */
  function Implications(data: ContextData): seq<string> {
    GrowthImplications(data.gdpGrowth) + LiteracyImplications(data.adultLiteracy) +
    ClimateImplications(data.climateRisks) + RateImplications(data.usdToGtq)
  }

  function GrowthImplications(gdp: Value): seq<string> {
    if NumberBelow(gdp, 2.0) then [IncomeImplication] else []
  }

  function LiteracyImplications(literacy: Value): seq<string> {
    if NumberBelow(literacy, 80.0) then [LiteracyImplication] else []
  }

  function ClimateImplications(risks: seq<(string, Value)>): seq<string> {
    if HighRisks(risks) != [] then [ClimateImplication] else []
  }

  function RateImplications(rate: Value): seq<string> {
    if NumberAbove(rate, 8.0) then [StrongRateImplication]
    else if NumberBelow(rate, 7.5) then [WeakRateImplication] else []
  }

  /**
   * `_analyze_current_context`: each numeric indicator past its threshold
   * contributes its outlook text and one implication or opportunity, the
   * high-rated hazards become the risk factors, and non-numeric indicators
   * contribute nothing.
   */
  method AnalyzeCurrentContext(data: ContextData) returns (analysis: Analysis)
    ensures analysis.economicOutlook ==
      if NumberBelow(data.gdpGrowth, 2.0) then SlowGrowthOutlook
      else if NumberAbove(data.gdpGrowth, 4.0) then RobustGrowthOutlook else ""
    ensures analysis.socialChallenges == if NumberBelow(data.adultLiteracy, 80.0) then LiteracyChallenge else ""
    ensures analysis.riskFactors == HighRisks(data.climateRisks)
    ensures analysis.environmentalConsiderations ==
      if analysis.riskFactors == [] then ""
      else ClimateRiskLead + Join(analysis.riskFactors, ", ") + "."
    ensures analysis.projectImplications == Implications(data)
    ensures analysis.opportunities == if NumberAbove(data.gdpGrowth, 4.0) then [GrowthOpportunity] else []
  {
    var economicOutlook := "";
    var socialChallenges := "";
    var environmental := "";
    var implications: seq<string> := [];
    var riskFactors: seq<string> := [];
    var opportunities: seq<string> := [];

    var gdp := data.gdpGrowth;
    if NumberBelow(gdp, 2.0) {
      economicOutlook := SlowGrowthOutlook;
      implications := implications + [IncomeImplication];
    } else if NumberAbove(gdp, 4.0) {
      economicOutlook := RobustGrowthOutlook;
      opportunities := opportunities + [GrowthOpportunity];
    }
    assert implications == GrowthImplications(data.gdpGrowth);

    var literacy := data.adultLiteracy;
    if NumberBelow(literacy, 80.0) {
      socialChallenges := LiteracyChallenge;
      implications := implications + [LiteracyImplication];
    }
    assert implications == GrowthImplications(data.gdpGrowth) + LiteracyImplications(data.adultLiteracy);

    var highRisks := CollectHighRisks(data.climateRisks);
    if highRisks != [] {
      environmental := ClimateRiskLead + Join(highRisks, ", ") + ".";
      riskFactors := riskFactors + highRisks;
      implications := implications + [ClimateImplication];
    }
    ghost var soFar := implications;
    assert soFar == GrowthImplications(data.gdpGrowth) + LiteracyImplications(data.adultLiteracy) +
      ClimateImplications(data.climateRisks);

    var rate := data.usdToGtq;
    if NumberAbove(rate, 8.0) {
      implications := implications + [StrongRateImplication];
    } else if NumberBelow(rate, 7.5) {
      implications := implications + [WeakRateImplication];
    }
    assert implications == soFar + RateImplications(data.usdToGtq);

    analysis := Analysis(economicOutlook, socialChallenges, environmental, implications, riskFactors, opportunities);
  }

  lemma ImplicationMessagesDistinct()
    ensures IncomeImplication != LiteracyImplication && IncomeImplication != ClimateImplication
    ensures IncomeImplication != StrongRateImplication && IncomeImplication != WeakRateImplication
    ensures LiteracyImplication != ClimateImplication && LiteracyImplication != StrongRateImplication
    ensures LiteracyImplication != WeakRateImplication && ClimateImplication != StrongRateImplication
    ensures ClimateImplication != WeakRateImplication && StrongRateImplication != WeakRateImplication
  {
  }

  /**
   * Each implication is raised exactly under its own condition: slow growth
   * below 2, low literacy below 80, a high-rated hazard, a rate above 8.0,
   * a rate below 7.5. A rate in [7.5, 8.0] or a non-numeric one raises
   * none, and no more than four implications are ever raised.
   */
  lemma ImplicationsSpec(data: ContextData)
    ensures IncomeImplication in Implications(data) <==> NumberBelow(data.gdpGrowth, 2.0)
    ensures LiteracyImplication in Implications(data) <==> NumberBelow(data.adultLiteracy, 80.0)
    ensures ClimateImplication in Implications(data) <==> HighRisks(data.climateRisks) != []
    ensures StrongRateImplication in Implications(data) <==> NumberAbove(data.usdToGtq, 8.0)
    ensures WeakRateImplication in Implications(data) <==> NumberBelow(data.usdToGtq, 7.5)
    ensures (IsNumber(data.usdToGtq) ==> 7.5 <= NumberValue(data.usdToGtq) <= 8.0) ==>
      StrongRateImplication !in Implications(data) && WeakRateImplication !in Implications(data)
    ensures |Implications(data)| <= 4
  {
    ImplicationMessagesDistinct();
  }

  /** Growth in [2, 4], or a non-numeric figure, gives neither outlook, implication nor opportunity. */
  lemma ModerateGrowthNeutral(data: ContextData)
    requires IsNumber(data.gdpGrowth) ==> 2.0 <= NumberValue(data.gdpGrowth) <= 4.0
    ensures IncomeImplication !in Implications(data)
    ensures !NumberBelow(data.gdpGrowth, 2.0) && !NumberAbove(data.gdpGrowth, 4.0)
  {
    ImplicationMessagesDistinct();
  }

  // ---------------------------------------------------------------------------
  // Interpretation of indicators
  // ---------------------------------------------------------------------------

  const GrowthUnknown := "no cuenta con un dato válido más reciente"
  const GrowthContraction := "indica una contracción económica que puede afectar las oportunidades de desarrollo local"
  const GrowthSlow := "refleja un crecimiento lento que requiere impulso mediante iniciativas de desarrollo"
  const GrowthModerate := "muestra un crecimiento moderado favorable para iniciativas de desarrollo"
  const GrowthRobust := "indica un crecimiento robusto que crea oportunidades para el escalamiento del proyecto"

  /** `_interpret_gdp_growth`. */
  function InterpretGdpGrowth(gdpGrowth: Option<real>): string {
    if gdpGrowth.None? then GrowthUnknown
    else if gdpGrowth.value < 0.0 then GrowthContraction
    else if gdpGrowth.value < 2.0 then GrowthSlow
    else if gdpGrowth.value < 4.0 then GrowthModerate
    else GrowthRobust
  }

  /** The place of a growth reading on the scale contraction < slow < moderate < robust. */
  function GrowthRank(text: string): int {
    if text == GrowthContraction then 0
    else if text == GrowthSlow then 1
    else if text == GrowthModerate then 2
    else if text == GrowthRobust then 3
    else -1
  }

  lemma GrowthTextsDistinct()
    ensures GrowthContraction != GrowthSlow && GrowthContraction != GrowthModerate
    ensures GrowthContraction != GrowthRobust && GrowthSlow != GrowthModerate
    ensures GrowthSlow != GrowthRobust && GrowthModerate != GrowthRobust
  {
  }

  /**
   * A higher growth figure never reads worse, and the reading agrees with the
   * analysis: it is contraction or slow exactly when the figure is below 2,
   * the threshold of the income implication.
   */
  lemma InterpretGdpGrowthSpec(g: real, h: real)
    ensures g <= h ==> GrowthRank(InterpretGdpGrowth(Some(g))) <= GrowthRank(InterpretGdpGrowth(Some(h)))
    ensures 0 <= GrowthRank(InterpretGdpGrowth(Some(g))) <= 3
    ensures GrowthRank(InterpretGdpGrowth(Some(g))) <= 1 <==> NumberBelow(Real(g), 2.0)
    ensures GrowthRank(InterpretGdpGrowth(Some(g))) == 3 <==> g >= 4.0
  {
    GrowthTextsDistinct();
  }

  const UnemploymentUnknown := "no es concluyente con el dato disponible"
  const UnemploymentHigh := "es elevada y requiere priorizar actividades de generación de empleo"
  const UnemploymentModerate := "es moderada pero debe considerarse en las estrategias del proyecto"
  const UnemploymentLow := "es relativamente baja, indicando un mercado laboral dinámico"

  /** `_interpret_unemployment`. */
  function InterpretUnemployment(unemployment: Option<real>): string {
    if unemployment.None? then UnemploymentUnknown
    else if unemployment.value > 10.0 then UnemploymentHigh
    else if unemployment.value > 5.0 then UnemploymentModerate
    else UnemploymentLow
  }

  /** The place of an unemployment reading on the scale low < moderate < high. */
  function UnemploymentRank(text: string): int {
    if text == UnemploymentLow then 0
    else if text == UnemploymentModerate then 1
    else if text == UnemploymentHigh then 2
    else -1
  }

  /** A higher unemployment figure never reads better; 10 is still moderate and 5 still low. */
  lemma InterpretUnemploymentSpec(u: real, v: real)
    ensures u <= v ==> UnemploymentRank(InterpretUnemployment(Some(u))) <= UnemploymentRank(InterpretUnemployment(Some(v)))
    ensures 0 <= UnemploymentRank(InterpretUnemployment(Some(u))) <= 2
    ensures InterpretUnemployment(Some(10.0)) == UnemploymentModerate
    ensures InterpretUnemployment(Some(5.0)) == UnemploymentLow
  {
  }
}
