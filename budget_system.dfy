/**
 * The budget arithmetic of services/enhanced_budget_system.py: donor
 * standards and the budget totals, the personnel, equipment, travel and
 * training line-item generators, beneficiary parsing and the
 * cost-effectiveness rating, the project geography, and the category,
 * timeline, cash-flow and donor-compliance breakdowns. Money is `real`.
 */
module BudgetSystem {
  import opened Wrappers
  import opened PyStr

  // ---------------------------------------------------------------------------
  // Donor standards and budget totals
  // ---------------------------------------------------------------------------

  /** The parts of a donor's standards that the budget logic reads. */
  datatype DonorStandards = DonorStandards(
    indirectCostRate: real,
    requiredCategories: seq<string>,
    auditRequirements: string)

  const Usaid := DonorStandards(0.10,
    ["Personnel", "Fringe Benefits", "Travel", "Equipment",
     "Supplies", "Contractual", "Other Direct Costs", "Indirect Costs"],
    "Single Audit Act compliance")

  const Bid := DonorStandards(0.08,
    ["Recursos Humanos", "Consultorías", "Viajes y Viáticos",
     "Equipamiento", "Materiales e Insumos", "Servicios",
     "Gastos de Funcionamiento", "Auditorías"],
    "Auditoría externa anual obligatoria")

  const Giz := DonorStandards(0.07,
    ["Personal", "Viajes", "Material/Equipos", "Servicios Externos",
     "Costos Operativos", "Overhead Institucional"],
    "Verificación financiera GIZ")

  /** The donor table: `donor_standards.get(donor)`. */
  function DonorTable(donor: string): Option<DonorStandards> {
    if donor == "USAID" then Some(Usaid)
    else if donor == "BID" then Some(Bid)
    else if donor == "GIZ" then Some(Giz)
    else None
  }

  /**
   * The standards used for a project whose `donor` entry is `donor`
   * (None when absent): the donor defaults to "BID", and a donor the table
   * does not know falls back to the BID standards.
   */
  function StandardsFor(donor: Option<string>): (s: DonorStandards)
    ensures s == Usaid || s == Bid || s == Giz
  {
    DonorTable(donor.GetOr("BID")).GetOr(Bid)
  }

  /** Every donor's indirect rate lies between GIZ's 7% and USAID's 10%. */
  lemma StandardsRateBounds(donor: Option<string>)
    ensures 0.07 <= StandardsFor(donor).indirectCostRate <= 0.10
    ensures donor == Some("USAID") ==> StandardsFor(donor).indirectCostRate == 0.10
    ensures donor == Some("GIZ") ==> StandardsFor(donor).indirectCostRate == 0.07
  {
  }

  /** An absent donor and any donor outside the table get exactly the BID standards. */
  lemma UnknownDonorIsBid(donor: Option<string>)
    requires donor.None? || donor.value !in {"USAID", "BID", "GIZ"}
    ensures StandardsFor(donor) == Bid
    ensures StandardsFor(donor).indirectCostRate == 0.08
  {
  }

  /** The part of a cost breakdown a personnel line carries. */
  datatype CostBreakdown = CostBreakdown(baseSalary: real, benefits: real, total: real)

  /** One budget line. `subcategory` is None when the line has none. */
  datatype BudgetItem = BudgetItem(
    itemCode: string,
    activityCode: string,
    category: string,
    subcategory: Option<string>,
    description: string,
    unit: string,
    quantity: real,
    unitCost: real,
    totalCost: real,
    costBreakdown: Option<CostBreakdown>)

  function CostOf(item: BudgetItem): real { item.totalCost }

  /** The weight that counts items. */
  function One(item: BudgetItem): real { 1.0 }

  /** The weight w summed over the items. */
  function Total(items: seq<BudgetItem>, w: BudgetItem -> real): real {
    if items == [] then 0.0 else Total(items[..|items| - 1], w) + w(items[|items| - 1])
  }

  /** `sum(item['total_cost'] for item in items)`. */
  function Amount(items: seq<BudgetItem>): real {
    Total(items, CostOf)
  }

  lemma {:induction false} TotalAppend(a: seq<BudgetItem>, b: seq<BudgetItem>, w: BudgetItem -> real)
    ensures Total(a + b, w) == Total(a, w) + Total(b, w)
    decreases |b|
  {
    if b != [] {
      TotalAppend(a, b[..|b| - 1], w);
      assert (a + b)[..|a + b| - 1] == a + b[..|b| - 1];
    } else {
      assert a + b == a;
    }
  }

  lemma AmountAppend(a: seq<BudgetItem>, b: seq<BudgetItem>)
    ensures Amount(a + b) == Amount(a) + Amount(b)
  {
    TotalAppend(a, b, CostOf);
  }

  /** Counting with weight One gives the number of items. */
  lemma {:induction false} TotalOne(items: seq<BudgetItem>)
    ensures Total(items, One) == |items| as real
  {
    if items != [] {
      TotalOne(items[..|items| - 1]);
    }
  }

  /** The three totals of `generate_comprehensive_budget`. */
  datatype Totals = Totals(directCosts: real, indirectCosts: real, totalBudget: real)

  function BudgetTotals(items: seq<BudgetItem>, donor: Option<string>): (t: Totals) {
    var subtotal := Amount(items);
    var indirect := subtotal * StandardsFor(donor).indirectCostRate;
    Totals(subtotal, indirect, subtotal + indirect)
  }

  /**
   * The total is the direct costs marked up by the donor's rate, so for a
   * non-negative subtotal it exceeds the direct costs by at most 10% and at
   * least 7%; an unknown donor is charged BID's 8%.
   */
  lemma BudgetTotalsSpec(items: seq<BudgetItem>, donor: Option<string>)
    ensures BudgetTotals(items, donor).directCosts == Amount(items)
    ensures BudgetTotals(items, donor).totalBudget
      == Amount(items) * (1.0 + StandardsFor(donor).indirectCostRate)
    ensures Amount(items) >= 0.0 ==>
      Amount(items) * 1.07 <= BudgetTotals(items, donor).totalBudget <= Amount(items) * 1.10
    ensures (donor.None? || DonorTable(donor.value).None?) ==>
      BudgetTotals(items, donor).totalBudget == Amount(items) * 1.08
  {
    StandardsRateBounds(donor);
    var x := Amount(items);
    var r := StandardsFor(donor).indirectCostRate;
    assert x + x * r == x * (1.0 + r);
    if x >= 0.0 {
      assert x * 0.07 <= x * r <= x * 0.10;
    }
  }

  /** Totals are additive: the budget of two lists together is the sum of their budgets. */
  lemma BudgetTotalsAppend(a: seq<BudgetItem>, b: seq<BudgetItem>, donor: Option<string>)
    ensures BudgetTotals(a + b, donor).totalBudget
      == BudgetTotals(a, donor).totalBudget + BudgetTotals(b, donor).totalBudget
  {
    AmountAppend(a, b);
    var r := StandardsFor(donor).indirectCostRate;
    assert (Amount(a) + Amount(b)) * r == Amount(a) * r + Amount(b) * r;
  }

  // ---------------------------------------------------------------------------
  // The cost database
  // ---------------------------------------------------------------------------

  /** The market rates of the Guatemala cost database the generators read. */
  datatype CostDatabase = CostDatabase(
    coordinatorSeniorAverage: real,
    technicalSpecialistAverage: real,
    communityFacilitatorAverage: real,
    totalBenefits: real,
    perDiemGuatemalaCity: real,
    perDiemRegionalCenter: real,
    perDiemRuralArea: real,
    transportPerKm: real,
    accommodationCapital: real,
    accommodationRegional: real,
    accommodationRural: real,
    laptopStandard: real,
    projectorPortable: real,
    vehiclePickupUsed: real,
    tablet: real)

  const GuatemalaCosts := CostDatabase(
    3150.0, 2500.0, 1000.0, 0.4183,
    75.0, 65.0, 45.0, 0.35, 85.0, 55.0, 35.0,
    800.0, 650.0, 25000.0, 400.0)

  /**
   * Every line whose total is quantity times unit cost. This holds for all
   * equipment, travel and training lines and for personnel lines at 100%.
   */
  predicate Consistent(item: BudgetItem) {
    item.totalCost == item.quantity * item.unitCost
  }

  predicate AllConsistent(items: seq<BudgetItem>) {
    forall i :: 0 <= i < |items| ==> Consistent(items[i])
  }

  lemma AllConsistentAppend(a: seq<BudgetItem>, b: seq<BudgetItem>)
    requires AllConsistent(a) && AllConsistent(b)
    ensures AllConsistent(a + b)
  {
    forall i | 0 <= i < |a + b| ensures Consistent((a + b)[i]) {
      if i >= |a| {
        assert (a + b)[i] == b[i - |a|];
      }
    }
  }

  // ---------------------------------------------------------------------------
  // _generate_personnel_budget
  // ---------------------------------------------------------------------------

  /** A core team position, with its salary category already looked up. */
  datatype Position = Position(
    title: string,
    code: string,
    baseSalary: real,
    quantity: nat,
    percentageTime: real,
    months: int,
    justification: string)

  /** The three core positions; the first two span `durationMonths`. */
  function CorePositions(durationMonths: int, costs: CostDatabase): seq<Position> {
    [Position("Coordinador de Proyecto", "P001", costs.coordinatorSeniorAverage, 1, 100.0,
              durationMonths, "Coordinación general y supervisión técnica del proyecto"),
     Position("Especialista Técnico", "P002", costs.technicalSpecialistAverage, 1, 100.0,
              durationMonths, "Asesoría técnica especializada y desarrollo metodológico"),
     Position("Facilitadores Comunitarios", "P003", costs.communityFacilitatorAverage, 4, 100.0,
              20, "Trabajo directo con comunidades y organizaciones locales")]
  }

  /** The line of one position: gross monthly salary including benefits, over its months and head-count. */
  function PersonnelItem(p: Position, benefitsRate: real): BudgetItem {
    var monthlyGross := p.baseSalary * (1.0 + benefitsRate);
    var personMonths := (p.months * p.quantity) as real;
    var total := monthlyGross * p.months as real * p.quantity as real * (p.percentageTime / 100.0);
    BudgetItem(p.code, "ALL", "Personal Técnico y Profesional", Some(p.title),
      p.title + " - " + p.justification, "mes-persona", personMonths, monthlyGross, total,
      Some(CostBreakdown(p.baseSalary * personMonths, p.baseSalary * personMonths * benefitsRate, total)))
  }

  /**
   * A full-time line splits exactly into base salary plus benefits, and its
   * total is its person-months times the gross monthly salary.
   */
  lemma PersonnelItemIdentity(p: Position, benefitsRate: real)
    requires p.percentageTime == 100.0
    ensures PersonnelItem(p, benefitsRate).costBreakdown.Some?
    ensures PersonnelItem(p, benefitsRate).costBreakdown.value.baseSalary
      + PersonnelItem(p, benefitsRate).costBreakdown.value.benefits
      == PersonnelItem(p, benefitsRate).totalCost
    ensures Consistent(PersonnelItem(p, benefitsRate))
  {
    var b := p.baseSalary;
    var pm := (p.months * p.quantity) as real;
    assert pm == p.months as real * p.quantity as real;
    var g := b * (1.0 + benefitsRate);
    assert g * p.months as real * p.quantity as real * (100.0 / 100.0) == g * pm;
    assert b * pm + b * pm * benefitsRate == g * pm;
  }

  /** The lines of the positions, in order. */
  function PersonnelItems(ps: seq<Position>, benefitsRate: real): (r: seq<BudgetItem>)
    ensures |r| == |ps|
  {
    if ps == [] then []
    else PersonnelItems(ps[..|ps| - 1], benefitsRate) + [PersonnelItem(ps[|ps| - 1], benefitsRate)]
  }

  /** All full-time lines are consistent and split into salary plus benefits. */
  lemma {:induction false} PersonnelItemsIdentity(ps: seq<Position>, benefitsRate: real)
    requires forall i :: 0 <= i < |ps| ==> ps[i].percentageTime == 100.0
    ensures AllConsistent(PersonnelItems(ps, benefitsRate))
    ensures forall i :: 0 <= i < |ps| ==>
      PersonnelItems(ps, benefitsRate)[i].costBreakdown.Some? &&
      PersonnelItems(ps, benefitsRate)[i].costBreakdown.value.baseSalary
      + PersonnelItems(ps, benefitsRate)[i].costBreakdown.value.benefits
      == PersonnelItems(ps, benefitsRate)[i].totalCost
  {
    if ps != [] {
      var init := ps[..|ps| - 1];
      PersonnelItemsIdentity(init, benefitsRate);
      PersonnelItemIdentity(ps[|ps| - 1], benefitsRate);
      AllConsistentAppend(PersonnelItems(init, benefitsRate), [PersonnelItem(ps[|ps| - 1], benefitsRate)]);
    }
  }

  /** The loop of `_generate_personnel_budget` over the core positions. */
  method GeneratePersonnelBudget(durationMonths: int, costs: CostDatabase) returns (items: seq<BudgetItem>)
    ensures items == PersonnelItems(CorePositions(durationMonths, costs), costs.totalBenefits)
    ensures |items| == 3 && AllConsistent(items)
  {
    var positions := CorePositions(durationMonths, costs);
    items := [];
    for i := 0 to |positions|
      invariant items == PersonnelItems(positions[..i], costs.totalBenefits)
    {
      assert positions[..i + 1][..i] == positions[..i];
      items := items + [PersonnelItem(positions[i], costs.totalBenefits)];
    }
    assert positions[..|positions|] == positions;
    PersonnelItemsIdentity(positions, costs.totalBenefits);
  }

  // ---------------------------------------------------------------------------
  // _generate_equipment_budget
  // ---------------------------------------------------------------------------

  /** A piece of standard equipment and the share of its life the project uses. */
  datatype Equipment = Equipment(
    name: string,
    code: string,
    unitCost: real,
    quantity: nat,
    usefulLifeMonths: nat,
    depreciation: real)

  function EquipmentNeeds(costs: CostDatabase): seq<Equipment> {
    [Equipment("Laptops para equipo técnico", "E001", costs.laptopStandard, 5, 36, 0.67),
     Equipment("Tablets para trabajo de campo", "E002", costs.tablet, 8, 24, 1.0),
     Equipment("Proyector portátil", "E003", costs.projectorPortable, 2, 60, 0.40),
     Equipment("Vehículo pick-up usado", "E004", costs.vehiclePickupUsed, 1, 60, 0.40)]
  }

  /** The line of one piece: the project is charged its depreciated share. */
  function EquipmentItem(e: Equipment): BudgetItem {
    BudgetItem(e.code, "ALL", "Equipamiento, Suministros y Materiales",
      Some("Equipos de Oficina y Campo"), e.name, "unidad", e.quantity as real,
      e.unitCost * e.depreciation, e.unitCost * e.quantity as real * e.depreciation, None)
  }

  function EquipmentItems(es: seq<Equipment>): (r: seq<BudgetItem>)
    ensures |r| == |es|
    ensures AllConsistent(r)
    ensures forall i :: 0 <= i < |r| ==>
      r[i].totalCost == es[i].unitCost * es[i].quantity as real * es[i].depreciation
  {
    if es == [] then []
    else
      var init := EquipmentItems(es[..|es| - 1]);
      var e := es[|es| - 1];
      assert Consistent(EquipmentItem(e)) by {
        assert e.unitCost * e.quantity as real * e.depreciation
          == e.quantity as real * (e.unitCost * e.depreciation);
      }
      AllConsistentAppend(init, [EquipmentItem(e)]);
      init + [EquipmentItem(e)]
  }

  /** The loop of `_generate_equipment_budget`. */
  method GenerateEquipmentBudget(costs: CostDatabase) returns (items: seq<BudgetItem>)
    ensures items == EquipmentItems(EquipmentNeeds(costs))
    ensures |items| == 4 && AllConsistent(items)
  {
    var needs := EquipmentNeeds(costs);
    items := [];
    for i := 0 to |needs|
      invariant items == EquipmentItems(needs[..i])
    {
      assert needs[..i + 1][..i] == needs[..i];
      items := items + [EquipmentItem(needs[i])];
    }
    assert needs[..|needs|] == needs;
  }

  /** A share between 0 and 1 of a non-negative price lies between 0 and the price. */
  lemma ShareWithin(x: real, share: real)
    requires x >= 0.0 && 0.0 <= share <= 1.0
    ensures 0.0 <= x * share <= x
  {
    assert x * share <= x * 1.0;
  }

  /** One equipment line: its depreciated total lies between 0 and the full price. */
  lemma ItemWithinPrice(e: Equipment, total: real)
    requires e.unitCost >= 0.0 && 0.0 <= e.depreciation <= 1.0
    requires total == e.unitCost * e.quantity as real * e.depreciation
    ensures 0.0 <= total <= e.unitCost * e.quantity as real
  {
    var price := e.unitCost * e.quantity as real;
    assert price >= 0.0 by {
      assert e.quantity as real >= 0.0;
    }
    ShareWithin(price, e.depreciation);
  }

  /**
   * With non-negative prices and depreciation shares in [0, 1] (as in the
   * standard list), no equipment line costs more than the full price of its units.
   */
  lemma {:induction false} EquipmentWithinPrice(es: seq<Equipment>)
    requires forall i :: 0 <= i < |es| ==> es[i].unitCost >= 0.0 && 0.0 <= es[i].depreciation <= 1.0
    ensures forall i :: 0 <= i < |es| ==>
      0.0 <= EquipmentItems(es)[i].totalCost <= es[i].unitCost * es[i].quantity as real
  {
    var r := EquipmentItems(es);
    forall i | 0 <= i < |es|
      ensures 0.0 <= r[i].totalCost <= es[i].unitCost * es[i].quantity as real
    {
      ItemWithinPrice(es[i], r[i].totalCost);
    }
  }

  /** The standard list meets those conditions whenever the database prices are non-negative. */
  lemma EquipmentNeedsShares(costs: CostDatabase)
    requires costs.laptopStandard >= 0.0 && costs.tablet >= 0.0
    requires costs.projectorPortable >= 0.0 && costs.vehiclePickupUsed >= 0.0
    ensures forall i :: 0 <= i < |EquipmentNeeds(costs)| ==>
      EquipmentNeeds(costs)[i].unitCost >= 0.0 && 0.0 <= EquipmentNeeds(costs)[i].depreciation <= 1.0
  {
  }

  // ---------------------------------------------------------------------------
  // _analyze_project_geography and _generate_travel_budget
  // ---------------------------------------------------------------------------

  /**
   * The project locations by coverage type (default "Local"); department and
   * municipality default to "".
   */
  function ProjectGeography(coverage: Option<string>, department: Option<string>,
                            municipality: Option<string>): (r: seq<string>)
    ensures 1 <= |r| <= 4
  {
    var c := coverage.GetOr("Local");
    var d := department.GetOr("");
    var m := municipality.GetOr("");
    if c == "Nacional" then ["Guatemala City", "Quetzaltenango", "Cobán", "Puerto Barrios"]
    else if c == "Departamental" then [d, d + "_rural"]
    else if c == "Municipal" then (if m != "" then [m] else ["Location_1"])
    else [if m != "" then m else "Community_1", "Community_2"]
  }

  /** The number of locations is fixed by the coverage type alone. */
  lemma ProjectGeographyCount(coverage: Option<string>, department: Option<string>,
                              municipality: Option<string>)
    ensures coverage == Some("Nacional") ==> |ProjectGeography(coverage, department, municipality)| == 4
    ensures coverage == Some("Municipal") ==> |ProjectGeography(coverage, department, municipality)| == 1
    ensures coverage != Some("Nacional") && coverage != Some("Municipal") ==>
      |ProjectGeography(coverage, department, municipality)| == 2
    ensures coverage == Some("Municipal") && municipality.Some? && municipality.value != [] ==>
      ProjectGeography(coverage, department, municipality) == [municipality.value]
  {
  }

  /** A travel component: its days and kilometres and the daily rates that apply. */
  datatype TravelComponent = TravelComponent(
    name: string,
    code: string,
    daysTotal: int,
    perDiemRate: real,
    accommodationRate: real,
    transportKmTotal: int)

  /** Monthly supervision takes two days per location per month, 150 km per day. */
  function TravelComponents(locations: nat, durationMonths: int, costs: CostDatabase): seq<TravelComponent> {
    var supervisionDays := locations * 2 * durationMonths;
    [TravelComponent("Supervisión mensual de campo", "T001", supervisionDays,
       costs.perDiemRegionalCenter, costs.accommodationRegional, supervisionDays * 150),
     TravelComponent("Talleres de capacitación", "T002", 48,
       costs.perDiemRuralArea, costs.accommodationRural, 2400),
     TravelComponent("Reuniones de coordinación", "T003", 24,
       costs.perDiemGuatemalaCity, costs.accommodationCapital, 1200)]
  }

  /** The per-diem, lodging and transport lines of one component. */
  function TravelLines(c: TravelComponent, kmRate: real): (r: seq<BudgetItem>)
    ensures |r| == 3 && AllConsistent(r)
  {
    [BudgetItem(c.code + "_PD", "ALL", "Viajes, Transporte y Logística", Some("Viáticos"),
       "Viáticos - " + c.name, "día", c.daysTotal as real, c.perDiemRate,
       c.daysTotal as real * c.perDiemRate, None),
     BudgetItem(c.code + "_ACC", "ALL", "Viajes, Transporte y Logística", Some("Hospedaje"),
       "Hospedaje - " + c.name, "noche", c.daysTotal as real, c.accommodationRate,
       c.daysTotal as real * c.accommodationRate, None),
     BudgetItem(c.code + "_TRANS", "ALL", "Viajes, Transporte y Logística",
       Some("Combustible y Mantenimiento"), "Transporte - " + c.name, "kilómetro",
       c.transportKmTotal as real, kmRate, c.transportKmTotal as real * kmRate, None)]
  }

  /** What one component costs in all. */
  function ComponentCost(c: TravelComponent, kmRate: real): real {
    c.daysTotal as real * (c.perDiemRate + c.accommodationRate) + c.transportKmTotal as real * kmRate
  }

  function TravelItems(cs: seq<TravelComponent>, kmRate: real): (r: seq<BudgetItem>)
    ensures |r| == 3 * |cs|
    ensures AllConsistent(r)
  {
    if cs == [] then []
    else
      var init := TravelItems(cs[..|cs| - 1], kmRate);
      AllConsistentAppend(init, TravelLines(cs[|cs| - 1], kmRate));
      init + TravelLines(cs[|cs| - 1], kmRate)
  }

  function TravelCost(cs: seq<TravelComponent>, kmRate: real): real {
    if cs == [] then 0.0 else TravelCost(cs[..|cs| - 1], kmRate) + ComponentCost(cs[|cs| - 1], kmRate)
  }

  /** The travel lines add up to the days at per-diem plus lodging rates plus the kilometres at the km rate. */
  lemma {:induction false} TravelItemsAmount(cs: seq<TravelComponent>, kmRate: real)
    ensures Amount(TravelItems(cs, kmRate)) == TravelCost(cs, kmRate)
  {
    if cs != [] {
      var c := cs[|cs| - 1];
      TravelItemsAmount(cs[..|cs| - 1], kmRate);
      var lines := TravelLines(c, kmRate);
      AmountAppend(TravelItems(cs[..|cs| - 1], kmRate), lines);
      AmountOfThree(lines[0], lines[1], lines[2]);
      assert lines == [lines[0], lines[1], lines[2]];
    }
  }

  lemma AmountOfThree(a: BudgetItem, b: BudgetItem, c: BudgetItem)
    ensures Amount([a, b, c]) == a.totalCost + b.totalCost + c.totalCost
  {
    assert [a, b, c][..2] == [a, b];
    assert [a, b][..1] == [a];
    assert [a][..0] == [];
    assert Total([a], CostOf) == a.totalCost;
    assert Total([a, b], CostOf) == Total([a], CostOf) + b.totalCost;
    assert Total([a, b, c], CostOf) == Total([a, b], CostOf) + c.totalCost;
  }

  /** The loop of `_generate_travel_budget` for a project with the given locations. */
  method GenerateTravelBudget(locations: seq<string>, durationMonths: int, costs: CostDatabase)
    returns (items: seq<BudgetItem>)
    ensures items == TravelItems(TravelComponents(|locations|, durationMonths, costs), costs.transportPerKm)
    ensures |items| == 9 && AllConsistent(items)
  {
    var components := TravelComponents(|locations|, durationMonths, costs);
    items := [];
    for i := 0 to |components|
      invariant items == TravelItems(components[..i], costs.transportPerKm)
    {
      assert components[..i + 1][..i] == components[..i];
      var c := components[i];
      items := items + [TravelLines(c, costs.transportPerKm)[0]];
      items := items + [TravelLines(c, costs.transportPerKm)[1]];
      items := items + [TravelLines(c, costs.transportPerKm)[2]];
      assert items == TravelItems(components[..i], costs.transportPerKm) + TravelLines(c, costs.transportPerKm);
    }
    assert components[..|components|] == components;
  }

  /** Supervision grows with the locations: two days per location per month. */
  lemma SupervisionDays(locations: nat, durationMonths: int, costs: CostDatabase)
    ensures TravelComponents(locations, durationMonths, costs)[0].daysTotal == 2 * locations * durationMonths
    ensures TravelComponents(locations, durationMonths, costs)[0].transportKmTotal
      == 300 * locations * durationMonths
  {
  }

  // ---------------------------------------------------------------------------
  // _generate_training_budget
  // ---------------------------------------------------------------------------

  /** A training event and its unit rates. */
  datatype TrainingEvent = TrainingEvent(
    name: string,
    code: string,
    sessions: int,
    participantsPerSession: int,
    durationDays: int,
    materialsPerParticipant: real,
    facilitatorFeeDay: real,
    venueCostDay: real,
    refreshmentsPerPersonDay: real)

  const TrainingEvents := [
    TrainingEvent("Talleres de Diagnóstico Participativo", "C001", 8, 25, 2, 15.0, 200.0, 80.0, 8.0),
    TrainingEvent("Capacitación en Liderazgo Comunitario", "C002", 4, 30, 3, 25.0, 250.0, 100.0, 10.0),
    TrainingEvent("Talleres de Formulación de Proyectos", "C003", 6, 20, 2, 20.0, 200.0, 80.0, 8.0)]

  /** Facilitation, materials, venue and refreshment lines of one event. */
  function TrainingLines(e: TrainingEvent): (r: seq<BudgetItem>)
    ensures |r| == 4 && AllConsistent(r)
  {
    var participants := e.sessions * e.participantsPerSession;
    var days := (e.sessions * e.durationDays) as real;
    var personDays := (participants * e.durationDays) as real;
    var fac := BudgetItem(e.code + "_FAC", "A2.1", "Capacitación, Talleres y Eventos",
      Some("Honorarios Facilitación"), "Facilitadores - " + e.name, "día",
      days, e.facilitatorFeeDay, days * e.facilitatorFeeDay, None);
    var mat := BudgetItem(e.code + "_MAT", "A2.1", "Capacitación, Talleres y Eventos",
      Some("Materiales Didácticos"), "Materiales - " + e.name, "participante",
      participants as real, e.materialsPerParticipant,
      participants as real * e.materialsPerParticipant, None);
    var ven := BudgetItem(e.code + "_VEN", "A2.1", "Capacitación, Talleres y Eventos",
      Some("Logística y Venues"), "Alquiler de salones - " + e.name, "día",
      days, e.venueCostDay, days * e.venueCostDay, None);
    var ref := BudgetItem(e.code + "_REF", "A2.1", "Capacitación, Talleres y Eventos",
      Some("Refrigerios"), "Alimentación - " + e.name, "persona-día",
      personDays, e.refreshmentsPerPersonDay, personDays * e.refreshmentsPerPersonDay, None);
    assert Consistent(fac) && Consistent(mat) && Consistent(ven) && Consistent(ref);
    [fac, mat, ven, ref]
  }

  function TrainingItems(es: seq<TrainingEvent>): (r: seq<BudgetItem>)
    ensures |r| == 4 * |es|
    ensures AllConsistent(r)
    ensures forall i :: 0 <= i < |r| ==> r[i].activityCode == "A2.1"
  {
    if es == [] then []
    else
      var init := TrainingItems(es[..|es| - 1]);
      AllConsistentAppend(init, TrainingLines(es[|es| - 1]));
      init + TrainingLines(es[|es| - 1])
  }

  /** The loop of `_generate_training_budget`. */
  method GenerateTrainingBudget() returns (items: seq<BudgetItem>)
    ensures items == TrainingItems(TrainingEvents)
    ensures |items| == 12 && AllConsistent(items)
  {
    items := [];
    for i := 0 to |TrainingEvents|
      invariant items == TrainingItems(TrainingEvents[..i])
    {
      assert TrainingEvents[..i + 1][..i] == TrainingEvents[..i];
      var e := TrainingEvents[i];
      var lines := TrainingLines(e);
      items := items + [lines[0]] + [lines[1]] + [lines[2]] + [lines[3]];
      assert items == TrainingItems(TrainingEvents[..i]) + lines;
    }
    assert TrainingEvents[..|TrainingEvents|] == TrainingEvents;
  }

  // ---------------------------------------------------------------------------
  // _parse_beneficiaries, _calculate_cost_per_beneficiary, _assess_cost_effectiveness
  // ---------------------------------------------------------------------------

  /** `s.replace(',', '')`. */
  function RemoveCommas(s: string): (r: string)
    ensures |r| <= |s|
    ensures forall i :: 0 <= i < |r| ==> r[i] != ','
  {
    if s == [] then []
    else RemoveCommas(s[..|s| - 1]) + (if s[|s| - 1] == ',' then [] else [s[|s| - 1]])
  }

  lemma {:induction false} RemoveCommasAppend(a: string, b: string)
    ensures RemoveCommas(a + b) == RemoveCommas(a) + RemoveCommas(b)
    decreases |b|
  {
    if b == [] {
      assert a + b == a;
    } else {
      RemoveCommasAppend(a, b[..|b| - 1]);
      assert (a + b)[..|a + b| - 1] == a + b[..|b| - 1];
    }
  }

  /** A string without commas is left alone. */
  lemma {:induction false} RemoveCommasNone(s: string)
    requires forall i :: 0 <= i < |s| ==> s[i] != ','
    ensures RemoveCommas(s) == s
  {
    if s != [] {
      RemoveCommasNone(s[..|s| - 1]);
    }
  }

  /** Removing commas keeps every other character, so it adds no digit. */
  lemma {:induction false} RemoveCommasNoDigit(s: string)
    requires forall i :: 0 <= i < |s| ==> !IsAsciiDigit(s[i])
    ensures forall i :: 0 <= i < |RemoveCommas(s)| ==> !IsAsciiDigit(RemoveCommas(s)[i])
  {
    if s != [] {
      RemoveCommasNoDigit(s[..|s| - 1]);
    }
  }

  /** The index of the first ASCII digit at or after i, or |u|. */
  function FirstDigitFrom(u: string, i: nat): (k: nat)
    requires i <= |u|
    ensures i <= k <= |u| && (k == |u| || IsAsciiDigit(u[k]))
    ensures forall j :: i <= j < k ==> !IsAsciiDigit(u[j])
    decreases |u| - i
  {
    if i == |u| || IsAsciiDigit(u[i]) then i else FirstDigitFrom(u, i + 1)
  }

  /**
   * `_parse_beneficiaries`: drop the commas, then read the first run of
   * digits (leading zeros allowed), or 0 when there is none.
   */
  function ParseBeneficiaries(s: string): nat {
    var u := RemoveCommas(s);
    var k := FirstDigitFrom(u, 0);
    if k == |u| then 0 else DigitsValue(u[k..DigitRunEnd(u, k)])
  }

  /** A text without digits counts no beneficiaries. */
  lemma ParseBeneficiariesNoDigits(s: string)
    requires forall i :: 0 <= i < |s| ==> !IsAsciiDigit(s[i])
    ensures ParseBeneficiaries(s) == 0
  {
    RemoveCommasNoDigit(s);
  }

  /** Reading a text whose first digit run spans k..e gives the value of that run. */
  lemma ParseDigitsAt(u: string, k: nat, e: nat)
    requires k < e <= |u|
    requires forall j :: 0 <= j < k ==> !IsAsciiDigit(u[j])
    requires forall j :: k <= j < e ==> IsAsciiDigit(u[j])
    requires e == |u| || !IsAsciiDigit(u[e])
    ensures FirstDigitFrom(u, 0) == k
    ensures DigitRunEnd(u, k) == e
  {
    var f := FirstDigitFrom(u, 0);
    assert IsAsciiDigit(u[k]);
    DigitRunEndOver(u, k, e);
  }

  /** The commas of p + d + q go; the digits of d are kept and q still starts with its first character. */
  lemma RemoveCommasAround(p: string, d: string, q: string)
    requires forall i :: 0 <= i < |d| ==> d[i] != ','
    requires q != [] ==> q[0] != ','
    ensures RemoveCommas(p + d + q) == RemoveCommas(p) + d + RemoveCommas(q)
    ensures q != [] ==> RemoveCommas(q) != [] && RemoveCommas(q)[0] == q[0]
  {
    RemoveCommasAppend(p + d, q);
    RemoveCommasAppend(p, d);
    RemoveCommasNone(d);
    if q != [] {
      RemoveCommasHead(q);
    }
  }

  /** A string that does not start with a comma keeps its first character first. */
  lemma RemoveCommasHead(q: string)
    requires q != [] && q[0] != ','
    ensures RemoveCommas(q) != [] && RemoveCommas(q)[0] == q[0]
  {
    assert q == [q[0]] + q[1..];
    RemoveCommasAppend([q[0]], q[1..]);
    assert RemoveCommas([q[0]]) == [q[0]] by {
      assert [q[0]][..0] == [];
    }
  }

  /**
   * The number written after a digit-free prefix and before a suffix that
   * does not continue it is read back: `"aprox. 1500 familias"` gives 1500.
   */
  lemma ParseBeneficiariesReadsNumber(p: string, n: nat, q: string)
    requires forall i :: 0 <= i < |p| ==> !IsAsciiDigit(p[i])
    requires q == [] || (!IsAsciiDigit(q[0]) && q[0] != ',')
    ensures ParseBeneficiaries(p + NatToString(n) + q) == n
  {
    var d := NatToString(n);
    NatToStringAscii(n);
    RemoveCommasAround(p, d, q);
    RemoveCommasNoDigit(p);
    var pp := RemoveCommas(p);
    var u := pp + d + RemoveCommas(q);
    assert RemoveCommas(p + d + q) == u;
    assert forall j :: 0 <= j < |pp| ==> u[j] == pp[j];
    assert forall j :: |pp| <= j < |pp| + |d| ==> u[j] == d[j - |pp|];
    assert |pp| + |d| == |u| || u[|pp| + |d|] == q[0];
    ParseDigitsAt(u, |pp|, |pp| + |d|);
    assert u[|pp|..|pp| + |d|] == d;
    DigitsValueOfNatToString(n);
  }

  /** A run of digits from i to e that stops at e ends the digit run at e. */
  lemma {:induction false} DigitRunEndOver(u: string, i: nat, e: nat)
    requires i <= e <= |u|
    requires forall j :: i <= j < e ==> IsAsciiDigit(u[j])
    requires e == |u| || !IsAsciiDigit(u[e])
    ensures DigitRunEnd(u, i) == e
    decreases e - i
  {
    if i < e {
      DigitRunEndOver(u, i + 1, e);
    }
  }

  /** The five ratings, best first. */
  const CostRatings := ["Excelente", "Muy bueno", "Bueno", "Aceptable", "Requiere justificación"]

  /** `_assess_cost_effectiveness`: thresholds on the cost per beneficiary. */
  function AssessCostEffectiveness(totalBudget: real, beneficiaries: nat): string {
    if beneficiaries == 0 then "No determinado"
    else
      var cost := totalBudget / beneficiaries as real;
      if cost <= 200.0 then "Excelente"
      else if cost <= 400.0 then "Muy bueno"
      else if cost <= 600.0 then "Bueno"
      else if cost <= 1000.0 then "Aceptable"
      else "Requiere justificación"
  }

  /** The position of a rating in `CostRatings`, best first. */
  function RatingRank(rating: string): (k: nat)
    ensures k <= |CostRatings|
  {
    if rating == "Excelente" then 0
    else if rating == "Muy bueno" then 1
    else if rating == "Bueno" then 2
    else if rating == "Aceptable" then 3
    else if rating == "Requiere justificación" then 4
    else 5
  }

  /**
   * Zero beneficiaries give "No determinado"; otherwise the rating is one of
   * the five, "Excelente" exactly when each beneficiary costs at most 200,
   * and "Requiere justificación" exactly when one costs more than 1000.
   */
  lemma AssessCostEffectivenessSpec(totalBudget: real, beneficiaries: nat)
    ensures beneficiaries == 0 <==> AssessCostEffectiveness(totalBudget, beneficiaries) == "No determinado"
    ensures beneficiaries > 0 ==> AssessCostEffectiveness(totalBudget, beneficiaries) in CostRatings
    ensures beneficiaries > 0 ==>
      (AssessCostEffectiveness(totalBudget, beneficiaries) == "Excelente"
       <==> totalBudget <= 200.0 * beneficiaries as real)
    ensures beneficiaries > 0 ==>
      (AssessCostEffectiveness(totalBudget, beneficiaries) == "Requiere justificación"
       <==> totalBudget > 1000.0 * beneficiaries as real)
  {
    if beneficiaries > 0 {
      var b := beneficiaries as real;
      var cost := totalBudget / b;
      assert cost * b == totalBudget;
      assert cost <= 200.0 <==> totalBudget <= 200.0 * b;
      assert cost > 1000.0 <==> totalBudget > 1000.0 * b;
    }
  }

  /** A dearer project never gets a better rating for the same beneficiaries. */
  lemma AssessCostEffectivenessMonotone(t1: real, t2: real, beneficiaries: nat)
    requires beneficiaries > 0 && t1 <= t2
    ensures RatingRank(AssessCostEffectiveness(t1, beneficiaries))
         <= RatingRank(AssessCostEffectiveness(t2, beneficiaries))
  {
    var b := beneficiaries as real;
    assert t1 / b <= t2 / b;
  }

  /** The cost-per-beneficiary figures of `_calculate_cost_per_beneficiary`. */
  datatype CostPerBeneficiary = CostPerBeneficiary(perDirect: real, perTotal: real, rating: string)

  function CalculateCostPerBeneficiary(totalBudget: real, direct: string, indirect: string): (c: CostPerBeneficiary) {
    var d := ParseBeneficiaries(direct);
    var i := ParseBeneficiaries(indirect);
    CostPerBeneficiary(totalBudget / (if d > 1 then d else 1) as real,
                       totalBudget / (if d + i > 1 then d + i else 1) as real,
                       AssessCostEffectiveness(totalBudget, d))
  }

  /**
   * Both figures divide the budget by at least one person; the rating is
   * "Excelente" exactly when the per-direct figure is at most 200 and some
   * direct beneficiary is counted.
   */
  lemma CostPerBeneficiarySpec(totalBudget: real, direct: string, indirect: string)
    ensures var d := ParseBeneficiaries(direct);
      CalculateCostPerBeneficiary(totalBudget, direct, indirect).perDirect
        * (if d > 1 then d else 1) as real == totalBudget
    ensures var c := CalculateCostPerBeneficiary(totalBudget, direct, indirect);
      c.rating == "Excelente" <==> ParseBeneficiaries(direct) > 0 && c.perDirect <= 200.0
  {
    var d := ParseBeneficiaries(direct);
    AssessCostEffectivenessSpec(totalBudget, d);
    if d > 0 {
      var b := d as real;
      assert (totalBudget / b) * b == totalBudget;
    }
  }

  // ---------------------------------------------------------------------------
  // _generate_category_breakdown
  // ---------------------------------------------------------------------------

  function CategoryOf(item: BudgetItem): string { item.category }

  /** `item.get('subcategory', 'General')`. */
  function SubcategoryOf(item: BudgetItem): string { item.subcategory.GetOr("General") }

  /** The weight w summed over the items whose key is k. */
  function SumWhere(items: seq<BudgetItem>, key: BudgetItem -> string, k: string, w: BudgetItem -> real): real {
    if items == [] then 0.0
    else
      var x := items[|items| - 1];
      SumWhere(items[..|items| - 1], key, k, w) + (if key(x) == k then w(x) else 0.0)
  }

  /** The per-key sums added up over the keys ks. */
  function SumOverKeys(items: seq<BudgetItem>, key: BudgetItem -> string, ks: seq<string>, w: BudgetItem -> real): real {
    if ks == [] then 0.0
    else SumOverKeys(items, key, ks[..|ks| - 1], w) + SumWhere(items, key, ks[|ks| - 1], w)
  }

  predicate Distinct(ks: seq<string>) {
    forall a, b :: 0 <= a < b < |ks| ==> ks[a] != ks[b]
  }

  lemma {:induction false} SumOverKeysEmpty(key: BudgetItem -> string, ks: seq<string>, w: BudgetItem -> real)
    ensures SumOverKeys([], key, ks, w) == 0.0
  {
    if ks != [] {
      SumOverKeysEmpty(key, ks[..|ks| - 1], w);
    }
  }

  /** One more item adds its weight to the key sums exactly when its key is listed. */
  lemma {:induction false} SumOverKeysSnoc(items: seq<BudgetItem>, x: BudgetItem, key: BudgetItem -> string,
                                           ks: seq<string>, w: BudgetItem -> real)
    requires Distinct(ks)
    ensures SumOverKeys(items + [x], key, ks, w)
      == SumOverKeys(items, key, ks, w) + (if key(x) in ks then w(x) else 0.0)
  {
    if ks != [] {
      var init := ks[..|ks| - 1];
      var last := ks[|ks| - 1];
      assert Distinct(init);
      SumOverKeysSnoc(items, x, key, init, w);
      assert (items + [x])[..|items + [x]| - 1] == items;
      assert key(x) in ks <==> key(x) in init || key(x) == last by {
        assert ks == init + [last];
      }
      if key(x) == last {
        assert key(x) !in init by {
          forall j | 0 <= j < |init| ensures init[j] != last {
            assert init[j] == ks[j];
          }
        }
      }
    }
  }

  /**
   * Grouping by a key loses and duplicates nothing: the per-key sums over a
   * duplicate-free list of keys that covers every item add up to the total.
   */
  lemma {:induction false} KeyPartition(items: seq<BudgetItem>, key: BudgetItem -> string,
                                        ks: seq<string>, w: BudgetItem -> real)
    requires Distinct(ks)
    requires forall i :: 0 <= i < |items| ==> key(items[i]) in ks
    ensures SumOverKeys(items, key, ks, w) == Total(items, w)
    decreases |items|
  {
    if items == [] {
      SumOverKeysEmpty(key, ks, w);
    } else {
      var init := items[..|items| - 1];
      var x := items[|items| - 1];
      KeyPartition(init, key, ks, w);
      assert init + [x] == items;
      SumOverKeysSnoc(init, x, key, ks, w);
    }
  }

  /** The categories that occur among the items. */
  function Categories(items: seq<BudgetItem>): set<string> {
    set i | 0 <= i < |items| :: items[i].category
  }

  /** The subcategories (missing ones as "General") that occur among the items. */
  function Subcategories(items: seq<BudgetItem>): set<string> {
    set i | 0 <= i < |items| :: SubcategoryOf(items[i])
  }

  /** The items of category c, in order. */
  function OfCategory(items: seq<BudgetItem>, c: string): (r: seq<BudgetItem>)
    ensures forall i :: 0 <= i < |r| ==> r[i].category == c
  {
    if items == [] then []
    else
      var x := items[|items| - 1];
      OfCategory(items[..|items| - 1], c) + (if x.category == c then [x] else [])
  }

  /** Filtering by category and then summing is summing over that category. */
  lemma {:induction false} OfCategoryTotal(items: seq<BudgetItem>, c: string, w: BudgetItem -> real)
    ensures Total(OfCategory(items, c), w) == SumWhere(items, CategoryOf, c, w)
  {
    if items != [] {
      var init := items[..|items| - 1];
      var x := items[|items| - 1];
      OfCategoryTotal(init, c, w);
      if x.category == c {
        assert (OfCategory(init, c) + [x])[..|OfCategory(init, c)|] == OfCategory(init, c);
      } else {
        assert OfCategory(init, c) + [] == OfCategory(init, c);
      }
    }
  }

  /** One category's entry: total, count, percentage and subcategory totals. */
  datatype CategoryEntry = CategoryEntry(
    totalAmount: real,
    itemCount: nat,
    percentage: real,
    subcategories: map<string, real>)

  /** The breakdown dict: its categories in insertion order and their entries. */
  datatype CategoryBreakdown = CategoryBreakdown(order: seq<string>, entries: map<string, CategoryEntry>)

  /** e holds the tallies of category c over the items. */
  predicate EntryTallies(items: seq<BudgetItem>, c: string, e: CategoryEntry) {
    && e.totalAmount == SumWhere(items, CategoryOf, c, CostOf)
    && e.itemCount as real == SumWhere(items, CategoryOf, c, One)
    && e.subcategories.Keys == Subcategories(OfCategory(items, c))
    && forall s :: s in e.subcategories ==>
         e.subcategories[s] == SumWhere(OfCategory(items, c), SubcategoryOf, s, CostOf)
  }

  /** The dict lists each occurring category once, in `order`, with its tallies. */
  predicate Tallied(items: seq<BudgetItem>, order: seq<string>, entries: map<string, CategoryEntry>) {
    && Distinct(order)
    && (forall k :: 0 <= k < |order| ==> order[k] in entries)
    && (forall c :: c in entries ==> c in order)
    && entries.Keys == Categories(items)
    && forall c :: c in entries ==> EntryTallies(items, c, entries[c])
  }

  /** A category that has not occurred yet starts from zero. */
  lemma TallyFresh(items: seq<BudgetItem>, c: string)
    requires c !in Categories(items)
    ensures EntryTallies(items, c, CategoryEntry(0.0, 0, 0.0, map[]))
  {
    OfCategoryNonEmpty(items, c);
    OfCategoryTotal(items, c, CostOf);
    OfCategoryTotal(items, c, One);
  }

  /** Only a category that occurs has lines. */
  lemma OfCategoryNonEmpty(items: seq<BudgetItem>, c: string)
    ensures OfCategory(items, c) != [] ==> c in Categories(items)
  {
    if OfCategory(items, c) != [] {
      OfCategoryMember(items, c, OfCategory(items, c)[0]);
    }
  }

  lemma {:induction false} OfCategoryMember(items: seq<BudgetItem>, c: string, x: BudgetItem)
    requires x in OfCategory(items, c)
    ensures x.category == c && x.category in Categories(items)
  {
    var init := items[..|items| - 1];
    var last := items[|items| - 1];
    if x in OfCategory(init, c) {
      OfCategoryMember(init, c, x);
      var j :| 0 <= j < |init| && init[j].category == x.category;
      assert items[j] == init[j];
    } else {
      assert x == last;
    }
  }

  /** Another category's item leaves an entry's tallies as they were. */
  lemma TallyOther(items: seq<BudgetItem>, x: BudgetItem, c: string, e: CategoryEntry)
    requires x.category != c && EntryTallies(items, c, e)
    ensures EntryTallies(items + [x], c, e)
  {
    assert (items + [x])[..|items|] == items;
    assert OfCategory(items, c) + [] == OfCategory(items, c);
    assert OfCategory(items + [x], c) == OfCategory(items, c);
  }

  /** Adding an item to its own category's entry, as the loop body does. */
  function AddItem(e: CategoryEntry, x: BudgetItem): CategoryEntry {
    var sub := SubcategoryOf(x);
    var subs := if sub in e.subcategories then e.subcategories else e.subcategories[sub := 0.0];
    e.(totalAmount := e.totalAmount + x.totalCost,
       itemCount := e.itemCount + 1,
       subcategories := subs[sub := subs[sub] + x.totalCost])
  }

  /** An item's own category entry gains its cost, one count and its subcategory amount. */
  lemma TallyOwn(items: seq<BudgetItem>, x: BudgetItem, e: CategoryEntry)
    requires EntryTallies(items, x.category, e)
    ensures EntryTallies(items + [x], x.category, AddItem(e, x))
  {
    var c := x.category;
    var xs := items + [x];
    assert xs[..|items|] == items;
    var f := OfCategory(items, c);
    assert OfCategory(xs, c) == f + [x];
    assert (f + [x])[..|f|] == f;
    var e2 := AddItem(e, x);
    assert e2.subcategories.Keys == Subcategories(f + [x]) by {
      assert (f + [x])[|f|] == x;
      forall s | s in Subcategories(f + [x]) ensures s in e2.subcategories {
        var j :| 0 <= j < |f + [x]| && SubcategoryOf((f + [x])[j]) == s;
        if j < |f| {
          assert (f + [x])[j] == f[j];
        }
      }
      forall s | s in e2.subcategories ensures s in Subcategories(f + [x]) {
        if s != SubcategoryOf(x) {
          var j :| 0 <= j < |f| && SubcategoryOf(f[j]) == s;
          assert (f + [x])[j] == f[j];
        }
      }
    }
    forall s | s in e2.subcategories
      ensures e2.subcategories[s] == SumWhere(f + [x], SubcategoryOf, s, CostOf)
    {
      if s !in e.subcategories {
        SumWhereAbsent(f, SubcategoryOf, s, CostOf);
      }
    }
  }

  /** A key no item has sums to zero. */
  lemma {:induction false} SumWhereAbsent(items: seq<BudgetItem>, key: BudgetItem -> string, k: string,
                                          w: BudgetItem -> real)
    requires forall i :: 0 <= i < |items| ==> key(items[i]) != k
    ensures SumWhere(items, key, k, w) == 0.0
  {
    if items != [] {
      SumWhereAbsent(items[..|items| - 1], key, k, w);
    }
  }

  /** Inserting a category that is not yet listed keeps the list duplicate-free. */
  lemma DistinctSnoc(order: seq<string>, c: string)
    requires Distinct(order) && c !in order
    ensures Distinct(order + [c])
  {
    var o := order + [c];
    forall a, b | 0 <= a < b < |o| ensures o[a] != o[b] {
      assert o[a] == order[a];
      if b < |order| {
        assert o[b] == order[b];
      }
    }
  }

  /** The categories of one more item are the old ones plus its own. */
  lemma CategoriesSnoc(items: seq<BudgetItem>, x: BudgetItem)
    ensures Categories(items + [x]) == Categories(items) + {x.category}
  {
    var xs := items + [x];
    assert xs[|items|] == x;
    forall j | 0 <= j < |items| ensures xs[j] == items[j] {}
    forall d | d in Categories(xs) ensures d in Categories(items) + {x.category} {
      var j :| 0 <= j < |xs| && xs[j].category == d;
      if j < |items| {
        assert xs[j] == items[j];
      }
    }
  }

  /** The key and order part of `Tallied` after one turn of the tally loop. */
  lemma TallyStepKeys(items: seq<BudgetItem>, x: BudgetItem,
                      order0: seq<string>, entries0: map<string, CategoryEntry>,
                      order1: seq<string>, entries1: map<string, CategoryEntry>)
    requires Distinct(order0) && (forall k :: 0 <= k < |order0| ==> order0[k] in entries0)
    requires (forall c :: c in entries0 ==> c in order0) && entries0.Keys == Categories(items)
    requires x.category in entries0 ==> order1 == order0 && entries1 == entries0
    requires x.category !in entries0 ==>
      order1 == order0 + [x.category] && entries1 == entries0[x.category := CategoryEntry(0.0, 0, 0.0, map[])]
    ensures Distinct(order1) && (forall k :: 0 <= k < |order1| ==> order1[k] in entries1)
    ensures (forall c :: c in entries1 ==> c in order1) && entries1.Keys == Categories(items + [x])
  {
    CategoriesSnoc(items, x);
    if x.category !in entries0 {
      DistinctSnoc(order0, x.category);
    }
  }

  /** The tallies part of `Tallied` after one turn of the tally loop. */
  lemma TallyStepEntries(items: seq<BudgetItem>, x: BudgetItem, entries1: map<string, CategoryEntry>,
                         entries2: map<string, CategoryEntry>)
    requires x.category in entries1
    requires forall c :: c in entries1 && c != x.category ==> EntryTallies(items, c, entries1[c])
    requires EntryTallies(items, x.category, entries1[x.category])
    requires entries2 == entries1[x.category := AddItem(entries1[x.category], x)]
    ensures forall c :: c in entries2 ==> EntryTallies(items + [x], c, entries2[c])
  {
    TallyOwn(items, x, entries1[x.category]);
    forall d | d in entries1 && d != x.category ensures EntryTallies(items + [x], d, entries1[d]) {
      TallyOther(items, x, d, entries1[d]);
    }
  }

  /** One iteration of the tally loop: open the item's category if it is new, then add the item to it. */
  lemma TallyStep(items: seq<BudgetItem>, x: BudgetItem,
                  order0: seq<string>, entries0: map<string, CategoryEntry>,
                  order1: seq<string>, entries1: map<string, CategoryEntry>, entries2: map<string, CategoryEntry>)
    requires Tallied(items, order0, entries0)
    requires x.category in entries0 ==> order1 == order0 && entries1 == entries0
    requires x.category !in entries0 ==>
      order1 == order0 + [x.category] && entries1 == entries0[x.category := CategoryEntry(0.0, 0, 0.0, map[])]
    requires x.category in entries1 && entries2 == entries1[x.category := AddItem(entries1[x.category], x)]
    ensures Tallied(items + [x], order1, entries2)
  {
    TallyOpen(items, x, order0, entries0, order1, entries1);
    TallyAdd(items, x, order1, entries1, entries2);
  }

  /** The loop state once the item's category is listed, before the item is added to it. */
  predicate Opened(items: seq<BudgetItem>, x: BudgetItem, order: seq<string>, entries: map<string, CategoryEntry>) {
    && Distinct(order)
    && (forall k :: 0 <= k < |order| ==> order[k] in entries)
    && (forall c :: c in entries ==> c in order)
    && entries.Keys == Categories(items + [x])
    && forall c :: c in entries ==> EntryTallies(items, c, entries[c])
  }

  /** Listing a new category with zero tallies keeps every entry a tally of the items so far. */
  lemma TallyOpen(items: seq<BudgetItem>, x: BudgetItem,
                  order0: seq<string>, entries0: map<string, CategoryEntry>,
                  order1: seq<string>, entries1: map<string, CategoryEntry>)
    requires Tallied(items, order0, entries0)
    requires x.category in entries0 ==> order1 == order0 && entries1 == entries0
    requires x.category !in entries0 ==>
      order1 == order0 + [x.category] && entries1 == entries0[x.category := CategoryEntry(0.0, 0, 0.0, map[])]
    ensures Opened(items, x, order1, entries1)
  {
    if x.category !in entries0 {
      TallyFresh(items, x.category);
    }
    TallyStepKeys(items, x, order0, entries0, order1, entries1);
  }

  /** Adding the item to its category's entry makes every entry a tally of the items with it. */
  lemma TallyAdd(items: seq<BudgetItem>, x: BudgetItem,
                 order: seq<string>, entries1: map<string, CategoryEntry>, entries2: map<string, CategoryEntry>)
    requires Opened(items, x, order, entries1)
    requires x.category in entries1 && entries2 == entries1[x.category := AddItem(entries1[x.category], x)]
    ensures Tallied(items + [x], order, entries2)
  {
    TallyStepEntries(items, x, entries1, entries2);
    assert entries2.Keys == entries1.Keys;
  }

  /** Setting a percentage leaves the tallies alone. */
  lemma TalliedPercentage(items: seq<BudgetItem>, order: seq<string>, entries: map<string, CategoryEntry>,
                          c: string, p: real)
    requires Tallied(items, order, entries) && c in entries
    ensures Tallied(items, order, entries[c := entries[c].(percentage := p)])
  {
    var e := entries[c];
    assert EntryTallies(items, c, e.(percentage := p));
  }

  /** The category totals added up in dict order: `sum(cat['total_amount'] for cat in ...)`. */
  function SumEntryAmounts(order: seq<string>, entries: map<string, CategoryEntry>): real
    requires forall k :: 0 <= k < |order| ==> order[k] in entries
  {
    if order == [] then 0.0
    else SumEntryAmounts(order[..|order| - 1], entries) + entries[order[|order| - 1]].totalAmount
  }

  function SumEntryCounts(order: seq<string>, entries: map<string, CategoryEntry>): int
    requires forall k :: 0 <= k < |order| ==> order[k] in entries
  {
    if order == [] then 0
    else SumEntryCounts(order[..|order| - 1], entries) + entries[order[|order| - 1]].itemCount
  }

  function SumEntryPercentages(order: seq<string>, entries: map<string, CategoryEntry>): real
    requires forall k :: 0 <= k < |order| ==> order[k] in entries
  {
    if order == [] then 0.0
    else SumEntryPercentages(order[..|order| - 1], entries) + entries[order[|order| - 1]].percentage
  }

  /** The dict's sums are the per-key sums of the items over the same keys. */
  lemma {:induction false} SumEntriesAsKeys(items: seq<BudgetItem>, order: seq<string>,
                                            entries: map<string, CategoryEntry>)
    requires forall k :: 0 <= k < |order| ==> order[k] in entries
    requires forall k :: 0 <= k < |order| ==> EntryTallies(items, order[k], entries[order[k]])
    ensures SumEntryAmounts(order, entries) == SumOverKeys(items, CategoryOf, order, CostOf)
    ensures SumEntryCounts(order, entries) as real == SumOverKeys(items, CategoryOf, order, One)
  {
    if order != [] {
      SumEntriesAsKeys(items, order[..|order| - 1], entries);
    }
  }

  /** The breakdown total is the budget's total, and the counts add up to the number of items. */
  lemma TalliedSums(items: seq<BudgetItem>, order: seq<string>, entries: map<string, CategoryEntry>)
    requires Tallied(items, order, entries)
    ensures SumEntryAmounts(order, entries) == Amount(items)
    ensures SumEntryCounts(order, entries) == |items|
  {
    SumEntriesAsKeys(items, order, entries);
    forall i | 0 <= i < |items| ensures CategoryOf(items[i]) in order {
      assert items[i].category in Categories(items);
    }
    KeyPartition(items, CategoryOf, order, CostOf);
    KeyPartition(items, CategoryOf, order, One);
    TotalOne(items);
  }

  /**
   * Within a category the subcategory amounts, listed once each in any
   * order, add up to the category total.
   */
  lemma SubcategoriesSumToCategory(items: seq<BudgetItem>, c: string, e: CategoryEntry, subs: seq<string>)
    requires EntryTallies(items, c, e)
    requires Distinct(subs) && (forall s :: s in subs <==> s in e.subcategories)
    ensures SumOverKeys(OfCategory(items, c), SubcategoryOf, subs, CostOf) == e.totalAmount
  {
    var f := OfCategory(items, c);
    forall i | 0 <= i < |f| ensures SubcategoryOf(f[i]) in subs {
      assert SubcategoryOf(f[i]) in Subcategories(f);
    }
    KeyPartition(f, SubcategoryOf, subs, CostOf);
    OfCategoryTotal(items, c, CostOf);
  }

  /** With every percentage its share of t, the percentages add up to 100 times the shares. */
  lemma {:induction false} PercentagesSum(order: seq<string>, entries: map<string, CategoryEntry>, t: real)
    requires t != 0.0
    requires forall k :: 0 <= k < |order| ==> order[k] in entries
    requires forall k :: 0 <= k < |order| ==>
      entries[order[k]].percentage == entries[order[k]].totalAmount / t * 100.0
    ensures SumEntryPercentages(order, entries) == SumEntryAmounts(order, entries) / t * 100.0
  {
    if order != [] {
      var init := order[..|order| - 1];
      PercentagesSum(init, entries, t);
      var a := SumEntryAmounts(init, entries);
      var x := entries[order[|order| - 1]].totalAmount;
      assert a / t * 100.0 + x / t * 100.0 == (a + x) / t * 100.0;
    }
  }

  /** The tally loop of `_generate_category_breakdown`. */
  method TallyCategories(items: seq<BudgetItem>) returns (order: seq<string>, entries: map<string, CategoryEntry>)
    ensures Tallied(items, order, entries)
  {
    order := [];
    entries := map[];
    for i := 0 to |items|
      invariant Tallied(items[..i], order, entries)
    {
      var item := items[i];
      var order0, entries0 := order, entries;
      if item.category !in entries {
        entries := entries[item.category := CategoryEntry(0.0, 0, 0.0, map[])];
        order := order + [item.category];
      }
      var entries2 := entries[item.category := AddItem(entries[item.category], item)];
      TallyStep(items[..i], item, order0, entries0, order, entries, entries2);
      entries := entries2;
      assert items[..i + 1] == items[..i] + [item];
    }
    assert items[..|items|] == items;
  }

  /** Entries that differ from tallied ones only in their percentages are still tallied. */
  lemma TalliedPercentages(items: seq<BudgetItem>, order: seq<string>,
                           tallied: map<string, CategoryEntry>, entries: map<string, CategoryEntry>)
    requires Tallied(items, order, tallied)
    requires entries.Keys == tallied.Keys
    requires forall c :: c in entries ==> entries[c] == tallied[c].(percentage := entries[c].percentage)
    ensures Tallied(items, order, entries)
  {
    forall c | c in entries ensures EntryTallies(items, c, entries[c]) {
      assert EntryTallies(items, c, tallied[c]);
    }
  }

  /** The percentage loop of `_generate_category_breakdown`: each listed category gets its share of t. */
  method SetPercentages(order: seq<string>, tallied: map<string, CategoryEntry>, t: real)
    returns (entries: map<string, CategoryEntry>)
    requires t != 0.0
    requires forall k :: 0 <= k < |order| ==> order[k] in tallied
    ensures entries.Keys == tallied.Keys
    ensures forall c :: c in entries ==> entries[c] == tallied[c].(percentage := entries[c].percentage)
    ensures forall c :: c in order ==> c in entries && entries[c].percentage == entries[c].totalAmount / t * 100.0
  {
    entries := tallied;
    for k := 0 to |order|
      invariant entries.Keys == tallied.Keys
      invariant forall c :: c in entries ==> entries[c] == tallied[c].(percentage := entries[c].percentage)
      invariant forall c :: c in order[..k] ==>
        (c in entries && entries[c].percentage == entries[c].totalAmount / t * 100.0)
    {
      assert order[..k + 1] == order[..k] + [order[k]];
      var e := entries[order[k]];
      entries := entries[order[k] := e.(percentage := e.totalAmount / t * 100.0)];
    }
    assert order[..|order|] == order;
  }

  /**
   * `_generate_category_breakdown`: tally every item into its category and
   * subcategory, then give each category its percentage of the total. A
   * non-empty list whose costs add up to zero fails with ZeroDivisionError.
   */
  method GenerateCategoryBreakdown(items: seq<BudgetItem>) returns (r: Result<CategoryBreakdown>)
    ensures r.Err? <==> items != [] && Amount(items) == 0.0
    ensures r.Err? ==> r.error == "ZeroDivisionError"
    ensures r.Ok? ==> Tallied(items, r.value.order, r.value.entries)
    ensures r.Ok? ==> forall c :: c in r.value.entries ==>
      r.value.entries[c].percentage == r.value.entries[c].totalAmount / Amount(items) * 100.0
  {
    var order, entries := TallyCategories(items);
    TalliedSums(items, order, entries);
    var totalBudget := SumEntryAmounts(order, entries);
    if order != [] && totalBudget == 0.0 {
      return Err("ZeroDivisionError");
    }
    assert items != [] ==> order != [] by {
      if items != [] {
        assert items[0].category in Categories(items);
      }
    }
    if order == [] {
      assert items == [];
      return Ok(CategoryBreakdown([], entries));
    }
    var tallied := entries;
    entries := SetPercentages(order, entries, totalBudget);
    TalliedPercentages(items, order, tallied, entries);
    r := Ok(CategoryBreakdown(order, entries));
  }

  /** The percentages of a successful breakdown add up to 100. */
  lemma CategoryPercentagesSumTo100(items: seq<BudgetItem>, b: CategoryBreakdown)
    requires Amount(items) != 0.0
    requires Tallied(items, b.order, b.entries)
    requires forall c :: c in b.entries ==>
      b.entries[c].percentage == b.entries[c].totalAmount / Amount(items) * 100.0
    ensures SumEntryPercentages(b.order, b.entries) == 100.0
  {
    var t := Amount(items);
    TalliedSums(items, b.order, b.entries);
    assert forall k :: 0 <= k < |b.order| ==> b.order[k] in b.entries;
    PercentagesSum(b.order, b.entries, t);
    WholeShare(t);
  }

  // ---------------------------------------------------------------------------
  // _generate_timeline_breakdown
  // ---------------------------------------------------------------------------

  /** An activity's code and its months, 1-based and inclusive. */
  datatype Activity = Activity(code: string, startMonth: int, endMonth: int)

  /** `next((a for a in activities if a['code'] == code), None)`. */
  function FindActivity(acts: seq<Activity>, code: string): (r: Option<Activity>)
    ensures r.Some? ==> r.value in acts && r.value.code == code
    ensures r.None? ==> forall i :: 0 <= i < |acts| ==> acts[i].code != code
  {
    if acts == [] then None
    else if acts[0].code == code then Some(acts[0])
    else FindActivity(acts[1..], code)
  }

  /** The number of months in the timeline: `range(duration_months)` is empty for d <= 0. */
  function MonthCount(d: int): nat {
    if d > 0 then d else 0
  }

  /**
   * The exception a line raises in the timeline loop: an "ALL" line divides
   * by the duration, any other line whose activity is found divides by its
   * span and then looks up "Month_{start}", which is missing when start < 1.
   */
  function TimelineFault(item: BudgetItem, acts: seq<Activity>, d: int): Option<string> {
    if item.activityCode == "ALL" then
      (if d == 0 then Some("ZeroDivisionError") else None)
    else
      match FindActivity(acts, item.activityCode)
      case None => None
      case Some(a) =>
        if a.endMonth - a.startMonth + 1 == 0 then Some("ZeroDivisionError")
        else if a.startMonth - 1 < 0 && a.startMonth - 1 < a.endMonth then Some("KeyError")
        else None
  }

  /** The first exception raised over the items, in order. */
  function Fault(items: seq<BudgetItem>, acts: seq<Activity>, d: int): Option<string> {
    if items == [] then None
    else
      var f := Fault(items[..|items| - 1], acts, d);
      if f.Some? then f else TimelineFault(items[|items| - 1], acts, d)
  }

  /**
   * What a line adds to month m (0-based): an even share of its cost for an
   * "ALL" line, an even share over its activity's months for a matched line,
   * and nothing for a line whose activity code matches no activity.
   */
  function Contribution(item: BudgetItem, acts: seq<Activity>, d: int, m: int): real {
    if item.activityCode == "ALL" then
      (if d == 0 then 0.0 else item.totalCost / d as real)
    else
      match FindActivity(acts, item.activityCode)
      case None => 0.0
      case Some(a) =>
        var span := a.endMonth - a.startMonth + 1;
        if span != 0 && a.startMonth - 1 <= m < a.endMonth then item.totalCost / span as real else 0.0
  }

  /** Month m of the distribution: every line's contribution added up. */
  function MonthTotal(items: seq<BudgetItem>, acts: seq<Activity>, d: int, m: int): real {
    if items == [] then 0.0
    else MonthTotal(items[..|items| - 1], acts, d, m) + Contribution(items[|items| - 1], acts, d, m)
  }

  /** Spread one "ALL" line's monthly share over every month. */
  method AddEvenly(monthly: seq<real>, share: real) returns (r: seq<real>)
    ensures |r| == |monthly|
    ensures forall m :: 0 <= m < |r| ==> r[m] == monthly[m] + share
  {
    r := monthly;
    for m := 0 to |r|
      invariant |r| == |monthly|
      invariant forall k :: 0 <= k < m ==> r[k] == monthly[k] + share
      invariant forall k :: m <= k < |r| ==> r[k] == monthly[k]
    {
      r := r[m := r[m] + share];
    }
  }

  /**
   * The inner loop `for i in range(start - 1, end)` with the `i < len`
   * clip: a KeyError at the first month index below zero.
   */
  method AddOverSpan(monthly: seq<real>, start: int, end: int, share: real) returns (r: Result<seq<real>>)
    ensures r.Err? <==> start - 1 < 0 && start - 1 < end
    ensures r.Err? ==> r.error == "KeyError"
    ensures r.Ok? ==> |r.value| == |monthly|
    ensures r.Ok? ==> forall m :: 0 <= m < |monthly| ==>
      r.value[m] == monthly[m] + (if start - 1 <= m < end then share else 0.0)
  {
    var acc := monthly;
    var i := start - 1;
    while i < end
      invariant start - 1 <= i && (i <= end || i == start - 1)
      invariant start - 1 < 0 ==> i == start - 1
      invariant |acc| == |monthly|
      invariant forall m :: 0 <= m < |monthly| ==>
        acc[m] == monthly[m] + (if start - 1 <= m < i then share else 0.0)
      decreases end - i
    {
      if i < |acc| {
        if i < 0 {
          return Err("KeyError");
        }
        acc := acc[i := acc[i] + share];
      }
      i := i + 1;
    }
    r := Ok(acc);
  }

  /**
   * The monthly distribution of `_generate_timeline_breakdown`: month m
   * receives every line's contribution, or the first exception is raised.
   */
  method GenerateMonthlyDistribution(items: seq<BudgetItem>, acts: seq<Activity>, d: int)
    returns (r: Result<seq<real>>)
    ensures r.Err? <==> Fault(items, acts, d).Some?
    ensures r.Err? ==> r.error == Fault(items, acts, d).value
    ensures r.Ok? ==> |r.value| == MonthCount(d)
    ensures r.Ok? ==> forall m :: 0 <= m < MonthCount(d) ==> r.value[m] == MonthTotal(items, acts, d, m)
  {
    var monthly := seq(MonthCount(d), _ => 0.0);
    for i := 0 to |items|
      invariant |monthly| == MonthCount(d)
      invariant Fault(items[..i], acts, d).None?
      invariant forall m :: 0 <= m < MonthCount(d) ==> monthly[m] == MonthTotal(items[..i], acts, d, m)
    {
      var item := items[i];
      TimelineUnfold(items, acts, d, i);
      if item.activityCode == "ALL" {
        if d == 0 {
          FaultPrefix(items, acts, d, i + 1);
          return Err("ZeroDivisionError");
        }
        monthly := AddEvenly(monthly, item.totalCost / d as real);
      } else {
        var activity := FindActivity(acts, item.activityCode);
        if activity.Some? {
          var a := activity.value;
          var span := a.endMonth - a.startMonth + 1;
          if span == 0 {
            FaultPrefix(items, acts, d, i + 1);
            return Err("ZeroDivisionError");
          }
          var spread := AddOverSpan(monthly, a.startMonth, a.endMonth, item.totalCost / span as real);
          if spread.Err? {
            FaultPrefix(items, acts, d, i + 1);
            return Err(spread.error);
          }
          monthly := spread.value;
        }
      }
    }
    assert items[..|items|] == items;
    r := Ok(monthly);
  }

  /** One more line: its exception if none came before, and its contribution to every month. */
  lemma TimelineUnfold(items: seq<BudgetItem>, acts: seq<Activity>, d: int, i: nat)
    requires i < |items|
    ensures Fault(items[..i + 1], acts, d) ==
      (if Fault(items[..i], acts, d).Some? then Fault(items[..i], acts, d) else TimelineFault(items[i], acts, d))
    ensures forall m ::
      MonthTotal(items[..i + 1], acts, d, m) == MonthTotal(items[..i], acts, d, m) + Contribution(items[i], acts, d, m)
  {
    assert items[..i + 1][..i] == items[..i];
    assert items[..i + 1][i] == items[i];
  }

  /** Once a prefix raises, the whole list raises the same exception. */
  lemma {:induction false} FaultPrefix(items: seq<BudgetItem>, acts: seq<Activity>, d: int, k: nat)
    requires k <= |items|
    requires Fault(items[..k], acts, d).Some?
    ensures Fault(items, acts, d) == Fault(items[..k], acts, d)
    decreases |items| - k
  {
    if k < |items| {
      assert items[..k + 1][..k] == items[..k];
      FaultPrefix(items, acts, d, k + 1);
    } else {
      assert items[..k] == items;
    }
  }

  function SumSeq(s: seq<real>): real {
    if s == [] then 0.0 else SumSeq(s[..|s| - 1]) + s[|s| - 1]
  }

  lemma {:induction false} SumSeqAppend(a: seq<real>, b: seq<real>)
    ensures SumSeq(a + b) == SumSeq(a) + SumSeq(b)
    decreases |b|
  {
    if b == [] {
      assert a + b == a;
    } else {
      SumSeqAppend(a, b[..|b| - 1]);
      assert (a + b)[..|a + b| - 1] == a + b[..|b| - 1];
    }
  }

  /** One line's contributions to the first n months. */
  function ItemSpread(item: BudgetItem, acts: seq<Activity>, d: int, n: nat): real {
    if n == 0 then 0.0 else ItemSpread(item, acts, d, n - 1) + Contribution(item, acts, d, n - 1)
  }

  /** The first n months of the distribution added up. */
  function MonthsSum(items: seq<BudgetItem>, acts: seq<Activity>, d: int, n: nat): real {
    if n == 0 then 0.0 else MonthsSum(items, acts, d, n - 1) + MonthTotal(items, acts, d, n - 1)
  }

  /** The months of one more line gain exactly that line's spread. */
  lemma {:induction false} MonthsSumSnoc(items: seq<BudgetItem>, x: BudgetItem, acts: seq<Activity>, d: int, n: nat)
    ensures MonthsSum(items + [x], acts, d, n) == MonthsSum(items, acts, d, n) + ItemSpread(x, acts, d, n)
  {
    if n > 0 {
      MonthsSumSnoc(items, x, acts, d, n - 1);
      assert (items + [x])[..|items|] == items;
      assert MonthTotal(items + [x], acts, d, n - 1) == MonthTotal(items, acts, d, n - 1) + Contribution(x, acts, d, n - 1);
    }
  }

  /** An "ALL" line puts the same share into each of the first n months. */
  lemma {:induction false} ItemSpreadEven(x: BudgetItem, acts: seq<Activity>, d: int, n: nat)
    requires x.activityCode == "ALL" && d != 0
    ensures ItemSpread(x, acts, d, n) == n as real * (x.totalCost / d as real)
  {
    if n > 0 {
      ItemSpreadEven(x, acts, d, n - 1);
    }
  }

  /** The months among the first n that lie in start..end. */
  function Covered(start: int, end: int, n: nat): int {
    if n <= start - 1 then 0 else if n <= end then n - (start - 1) else end - (start - 1)
  }

  /** A matched line with a positive span puts its share into each of its months among the first n. */
  lemma {:induction false} ItemSpreadSpan(x: BudgetItem, acts: seq<Activity>, d: int, a: Activity, n: nat)
    requires x.activityCode != "ALL" && FindActivity(acts, x.activityCode) == Some(a)
    requires 1 <= a.startMonth <= a.endMonth
    ensures ItemSpread(x, acts, d, n)
      == Covered(a.startMonth, a.endMonth, n) as real * (x.totalCost / (a.endMonth - a.startMonth + 1) as real)
  {
    if n > 0 {
      ItemSpreadSpan(x, acts, d, a, n - 1);
    }
  }

  /** A line whose activity code matches no activity adds nothing to any month. */
  lemma {:induction false} ItemSpreadUnmatched(x: BudgetItem, acts: seq<Activity>, d: int, n: nat)
    requires x.activityCode != "ALL" && FindActivity(acts, x.activityCode).None?
    ensures ItemSpread(x, acts, d, n) == 0.0
  {
    if n > 0 {
      ItemSpreadUnmatched(x, acts, d, n - 1);
    }
  }

  /** The line is "ALL" or its code names an activity. */
  predicate Placed(x: BudgetItem, acts: seq<Activity>) {
    x.activityCode == "ALL" || FindActivity(acts, x.activityCode).Some?
  }

  /** The line fits the timeline: d > 0 for "ALL", and its activity's months lie within 1..d. */
  predicate FitsTimeline(x: BudgetItem, acts: seq<Activity>, d: int) {
    if x.activityCode == "ALL" then d > 0
    else match FindActivity(acts, x.activityCode)
      case None => true
      case Some(a) => 1 <= a.startMonth <= a.endMonth <= d
  }

  /** The cost of the placed lines. */
  function PlacedAmount(items: seq<BudgetItem>, acts: seq<Activity>): real {
    if items == [] then 0.0
    else
      var x := items[|items| - 1];
      PlacedAmount(items[..|items| - 1], acts) + (if Placed(x, acts) then x.totalCost else 0.0)
  }

  /** A line that fits the timeline is spread out completely over it; an unplaced one adds nothing. */
  lemma ItemSpreadWhole(x: BudgetItem, acts: seq<Activity>, d: int)
    requires FitsTimeline(x, acts, d)
    ensures ItemSpread(x, acts, d, MonthCount(d)) == if Placed(x, acts) then x.totalCost else 0.0
  {
    if x.activityCode == "ALL" {
      ItemSpreadEven(x, acts, d, d);
      assert d as real * (x.totalCost / d as real) == x.totalCost;
    } else {
      match FindActivity(acts, x.activityCode)
      case None =>
        ItemSpreadUnmatched(x, acts, d, MonthCount(d));
      case Some(a) =>
        ItemSpreadSpan(x, acts, d, a, d);
        var span := a.endMonth - a.startMonth + 1;
        assert Covered(a.startMonth, a.endMonth, d) == span;
        assert span as real * (x.totalCost / span as real) == x.totalCost;
    }
  }

  /** When every line fits the timeline, the months add up to the cost of the placed lines. */
  lemma {:induction false} DistributionConserves(items: seq<BudgetItem>, acts: seq<Activity>, d: int)
    requires forall i :: 0 <= i < |items| ==> FitsTimeline(items[i], acts, d)
    ensures MonthsSum(items, acts, d, MonthCount(d)) == PlacedAmount(items, acts)
  {
    if items == [] {
      MonthsSumEmpty(acts, d, MonthCount(d));
    } else {
      var init := items[..|items| - 1];
      var x := items[|items| - 1];
      DistributionConserves(init, acts, d);
      assert init + [x] == items;
      MonthsSumSnoc(init, x, acts, d, MonthCount(d));
      ItemSpreadWhole(x, acts, d);
    }
  }

  lemma {:induction false} MonthsSumEmpty(acts: seq<Activity>, d: int, n: nat)
    ensures MonthsSum([], acts, d, n) == 0.0
  {
    if n > 0 {
      MonthsSumEmpty(acts, d, n - 1);
    }
  }

  /** With every line placed, the placed cost is the whole budget. */
  lemma {:induction false} PlacedAmountAll(items: seq<BudgetItem>, acts: seq<Activity>)
    requires forall i :: 0 <= i < |items| ==> Placed(items[i], acts)
    ensures PlacedAmount(items, acts) == Amount(items)
  {
    if items != [] {
      PlacedAmountAll(items[..|items| - 1], acts);
    }
  }

  /** The months of a distribution that matches `MonthTotal` add up to `MonthsSum`. */
  lemma {:induction false} SumSeqMonths(monthly: seq<real>, items: seq<BudgetItem>, acts: seq<Activity>, d: int)
    requires forall m :: 0 <= m < |monthly| ==> monthly[m] == MonthTotal(items, acts, d, m)
    ensures SumSeq(monthly) == MonthsSum(items, acts, d, |monthly|)
  {
    if monthly != [] {
      SumSeqMonths(monthly[..|monthly| - 1], items, acts, d);
    }
  }

  /**
   * The distribution computed by `GenerateMonthlyDistribution` for a budget
   * that fits its timeline holds the cost of every placed line exactly once;
   * when every line is placed that is the whole budget.
   */
  lemma TimelineConservesBudget(items: seq<BudgetItem>, acts: seq<Activity>, d: int, monthly: seq<real>)
    requires |monthly| == MonthCount(d)
    requires forall m :: 0 <= m < MonthCount(d) ==> monthly[m] == MonthTotal(items, acts, d, m)
    requires forall i :: 0 <= i < |items| ==> FitsTimeline(items[i], acts, d)
    ensures SumSeq(monthly) == PlacedAmount(items, acts)
    ensures (forall i :: 0 <= i < |items| ==> Placed(items[i], acts)) ==> SumSeq(monthly) == Amount(items)
  {
    SumSeqMonths(monthly, items, acts, d);
    DistributionConserves(items, acts, d);
    if forall i :: 0 <= i < |items| ==> Placed(items[i], acts) {
      PlacedAmountAll(items, acts);
    }
  }

  /** `min(i + 3, n)`: the end of the quarter that starts at month i. */
  function QuarterEnd(i: nat, n: nat): nat {
    if i + 3 <= n then i + 3 else n
  }

  /** The quarterly loop of `_generate_timeline_breakdown`: quarter q sums months 3q up to 3q + 3. */
  method QuarterlyBreakdown(monthly: seq<real>) returns (quarters: seq<real>)
    ensures |quarters| == (|monthly| + 2) / 3
    ensures forall q :: 0 <= q < |quarters| ==>
      3 * q <= |monthly| && quarters[q] == SumSeq(monthly[3 * q..QuarterEnd(3 * q, |monthly|)])
  {
    quarters := [];
    var i := 0;
    while i < |monthly|
      invariant i == 3 * |quarters| && (i == 0 || i - 3 < |monthly|)
      invariant forall q :: 0 <= q < |quarters| ==>
        3 * q <= |monthly| && quarters[q] == SumSeq(monthly[3 * q..QuarterEnd(3 * q, |monthly|)])
      decreases |monthly| - i
    {
      quarters := quarters + [SumSeq(monthly[i..QuarterEnd(i, |monthly|)])];
      i := i + 3;
    }
  }

  /** The quarters add up to the months. */
  lemma {:induction false} QuartersSum(monthly: seq<real>, quarters: seq<real>)
    requires |quarters| == (|monthly| + 2) / 3
    requires forall q :: 0 <= q < |quarters| ==>
      3 * q <= |monthly| && quarters[q] == SumSeq(monthly[3 * q..QuarterEnd(3 * q, |monthly|)])
    ensures SumSeq(quarters) == SumSeq(monthly)
    decreases |quarters|
  {
    if quarters == [] {
      assert monthly == [];
    } else {
      var q := |quarters| - 1;
      var head := monthly[..3 * q];
      assert 3 * q < |monthly|;
      forall k | 0 <= k < q
        ensures 3 * k <= |head| && quarters[..q][k] == SumSeq(head[3 * k..QuarterEnd(3 * k, |head|)])
      {
        assert head[3 * k..QuarterEnd(3 * k, |head|)] == monthly[3 * k..QuarterEnd(3 * k, |monthly|)];
      }
      QuartersSum(head, quarters[..q]);
      assert monthly == head + monthly[3 * q..QuarterEnd(3 * q, |monthly|)];
      SumSeqAppend(head, monthly[3 * q..QuarterEnd(3 * q, |monthly|)]);
    }
  }

  // ---------------------------------------------------------------------------
  // _generate_cash_flow_projection
  // ---------------------------------------------------------------------------

  datatype CashFlowEntry = CashFlowEntry(monthlyExpense: real, cumulativeExpense: real, percentageExecuted: real)

  /**
   * The months in number order with their running total and the share of
   * the whole spent so far; a non-empty all-zero timeline fails with
   * ZeroDivisionError at its first month.
   */
  method CashFlowProjection(monthly: seq<real>) returns (r: Result<seq<CashFlowEntry>>)
    ensures r.Err? <==> monthly != [] && SumSeq(monthly) == 0.0
    ensures r.Err? ==> r.error == "ZeroDivisionError"
    ensures r.Ok? ==> |r.value| == |monthly|
    ensures r.Ok? ==> forall k :: 0 <= k < |monthly| ==>
      r.value[k] == CashFlowEntry(monthly[k], SumSeq(monthly[..k + 1]), SumSeq(monthly[..k + 1]) / SumSeq(monthly) * 100.0)
  {
    var cumulative := 0.0;
    var flow: seq<CashFlowEntry> := [];
    for k := 0 to |monthly|
      invariant |flow| == k && cumulative == SumSeq(monthly[..k])
      invariant k > 0 ==> SumSeq(monthly) != 0.0
      invariant forall j :: 0 <= j < k ==>
        flow[j] == CashFlowEntry(monthly[j], SumSeq(monthly[..j + 1]), SumSeq(monthly[..j + 1]) / SumSeq(monthly) * 100.0)
    {
      assert monthly[..k + 1][..k] == monthly[..k];
      cumulative := cumulative + monthly[k];
      var total := SumSeq(monthly);
      if total == 0.0 {
        return Err("ZeroDivisionError");
      }
      flow := flow + [CashFlowEntry(monthly[k], cumulative, cumulative / total * 100.0)];
    }
    r := Ok(flow);
  }

  /**
   * The last month's cumulative expense is the whole timeline's total and
   * its executed share is 100%.
   */
  lemma CashFlowCompletes(monthly: seq<real>, flow: seq<CashFlowEntry>)
    requires monthly != [] && SumSeq(monthly) != 0.0 && |flow| == |monthly|
    requires forall k :: 0 <= k < |monthly| ==>
      flow[k] == CashFlowEntry(monthly[k], SumSeq(monthly[..k + 1]), SumSeq(monthly[..k + 1]) / SumSeq(monthly) * 100.0)
    ensures flow[|flow| - 1].cumulativeExpense == SumSeq(monthly)
    ensures flow[|flow| - 1].percentageExecuted == 100.0
  {
    var n := |monthly|;
    var last := flow[n - 1];
    assert monthly[..n] == monthly;
    assert last.cumulativeExpense == SumSeq(monthly);
    WholeShare(SumSeq(monthly));
  }

  /** The whole, as a share of itself, is 100 percent. */
  lemma WholeShare(t: real)
    requires t != 0.0
    ensures t / t * 100.0 == 100.0
  {
  }

  /** With no negative month the running total never falls. */
  lemma CashFlowMonotone(monthly: seq<real>, flow: seq<CashFlowEntry>)
    requires |flow| == |monthly|
    requires forall k :: 0 <= k < |monthly| ==> flow[k].cumulativeExpense == SumSeq(monthly[..k + 1])
    requires forall k :: 0 <= k < |monthly| ==> monthly[k] >= 0.0
    ensures forall k :: 0 < k < |flow| ==> flow[k - 1].cumulativeExpense <= flow[k].cumulativeExpense
  {
    forall k | 0 < k < |flow| ensures flow[k - 1].cumulativeExpense <= flow[k].cumulativeExpense {
      assert monthly[..k + 1][..k] == monthly[..k];
    }
  }

  // ---------------------------------------------------------------------------
  // _validate_donor_compliance and _validate_guatemala_compliance
  // ---------------------------------------------------------------------------

  const AdministrativeCategory := "Costos Administrativos"

  /** The cost of a line counted as direct: every category except administrative costs. */
  function DirectCostOf(item: BudgetItem): real {
    if item.category != AdministrativeCategory then item.totalCost else 0.0
  }

  function AdministrativeCostOf(item: BudgetItem): real {
    if item.category == AdministrativeCategory then item.totalCost else 0.0
  }

  /** The issue texts' content: the rate against the limit, and the missing categories. */
  datatype ComplianceIssue =
    | RateExceedsLimit(rate: real, limit: real)
    | MissingCategories(categories: set<string>)

  datatype DonorCompliance = DonorCompliance(
    compliant: bool,
    issues: seq<ComplianceIssue>,
    indirectCostRate: real,
    donorLimit: real,
    auditRequirements: string)

  /** The required categories no line uses: `required_categories - budget_categories`. */
  function MissingRequired(items: seq<BudgetItem>, s: DonorStandards): set<string> {
    (set c | c in s.requiredCategories) - Categories(items)
  }

  /** `_validate_donor_compliance`. */
  function ValidateDonorCompliance(items: seq<BudgetItem>, s: DonorStandards): (r: DonorCompliance)
    ensures |r.issues| <= 2
  {
    var total := Amount(items);
    var direct := Total(items, DirectCostOf);
    var rate := if direct > 0.0 then (total - direct) / direct else 0.0;
    var missing := MissingRequired(items, s);
    var issues := (if rate > s.indirectCostRate then [RateExceedsLimit(rate, s.indirectCostRate)] else [])
      + (if missing != {} then [MissingCategories(missing)] else []);
    DonorCompliance(|issues| == 0, issues, rate, s.indirectCostRate, s.auditRequirements)
  }

  /** The total splits into direct and administrative costs. */
  lemma {:induction false} DirectPlusAdministrative(items: seq<BudgetItem>)
    ensures Amount(items) == Total(items, DirectCostOf) + Total(items, AdministrativeCostOf)
  {
    if items != [] {
      DirectPlusAdministrative(items[..|items| - 1]);
    }
  }

  /**
   * The budget is compliant exactly when the indirect rate, administrative
   * over direct costs (0 without positive direct costs), is within the
   * donor's limit and every required category is used.
   */
  lemma DonorComplianceSpec(items: seq<BudgetItem>, s: DonorStandards)
    ensures var direct := Total(items, DirectCostOf);
      ValidateDonorCompliance(items, s).indirectCostRate
        == if direct > 0.0 then Total(items, AdministrativeCostOf) / direct else 0.0
    ensures ValidateDonorCompliance(items, s).compliant <==>
      ValidateDonorCompliance(items, s).indirectCostRate <= s.indirectCostRate
      && forall c :: c in s.requiredCategories ==> exists i :: 0 <= i < |items| && items[i].category == c
  {
    DirectPlusAdministrative(items);
    var r := ValidateDonorCompliance(items, s);
    var missing := MissingRequired(items, s);
    if forall c :: c in s.requiredCategories ==> exists i :: 0 <= i < |items| && items[i].category == c {
      assert missing == {};
    } else {
      var c :| c in s.requiredCategories && !exists i :: 0 <= i < |items| && items[i].category == c;
      assert c in missing;
    }
  }

  /**
   * A budget without administrative lines, such as the generated ones, has
   * an indirect rate of 0, so under a non-negative limit only missing
   * categories can make it non-compliant.
   */
  lemma NoAdministrativeNoIndirect(items: seq<BudgetItem>, s: DonorStandards)
    requires forall i :: 0 <= i < |items| ==> items[i].category != AdministrativeCategory
    requires s.indirectCostRate >= 0.0
    ensures ValidateDonorCompliance(items, s).indirectCostRate == 0.0
    ensures ValidateDonorCompliance(items, s).compliant <==> MissingRequired(items, s) == {}
  {
    DirectPlusAdministrative(items);
    NoAdministrativeCost(items);
  }

  lemma {:induction false} NoAdministrativeCost(items: seq<BudgetItem>)
    requires forall i :: 0 <= i < |items| ==> items[i].category != AdministrativeCategory
    ensures Total(items, AdministrativeCostOf) == 0.0
  {
    if items != [] {
      NoAdministrativeCost(items[..|items| - 1]);
    }
  }

  const LaborCode := "Código de Trabajo de Guatemala"
  const VatLaw := "Ley del IVA (Decreto 27-92)"

  /** Some line's category contains `word`. */
  predicate SomeCategoryContains(items: seq<BudgetItem>, word: string) {
    exists i :: 0 <= i < |items| && Contains(items[i].category, word)
  }

  /**
   * The regulations `_validate_guatemala_compliance` lists: the labour code
   * when a category mentions "Personal", the VAT law when one mentions
   * "Equipamiento".
   */
  function GuatemalaRegulations(items: seq<BudgetItem>): (r: seq<string>)
    ensures |r| <= 2
  {
    (if SomeCategoryContains(items, "Personal") then [LaborCode] else [])
    + (if SomeCategoryContains(items, "Equipamiento") then [VatLaw] else [])
  }

  /** A budget with a generated personnel line lists the labour code. */
  lemma PersonnelListsLaborCode(items: seq<BudgetItem>, p: Position, benefitsRate: real)
    requires PersonnelItem(p, benefitsRate) in items
    ensures LaborCode in GuatemalaRegulations(items)
  {
    var i :| 0 <= i < |items| && items[i] == PersonnelItem(p, benefitsRate);
    var c := items[i].category;
    assert c[0..8] == "Personal";
    assert OccursAt(c, "Personal", 0);
    assert Contains(c, "Personal");
  }

  /** A budget with a generated equipment line lists the VAT law. */
  lemma EquipmentListsVatLaw(items: seq<BudgetItem>, e: Equipment)
    requires EquipmentItem(e) in items
    ensures VatLaw in GuatemalaRegulations(items)
  {
    var i :| 0 <= i < |items| && items[i] == EquipmentItem(e);
    var c := items[i].category;
    assert c[0..12] == "Equipamiento";
    assert OccursAt(c, "Equipamiento", 0);
    assert Contains(c, "Equipamiento");
  }
}
