/**
  calculateSavings: the estimate shown in the result view. Numbers are exact
  reals; Math.round is Floor(x + 0.5). The fixed tables make the production a
  whole number of kWh and the savings a multiple of 0.2, so exact arithmetic
  never meets a .5 tie.
 */
module Estimator {
  import opened Questionnaire

  /** The SavingsResult record. */
  datatype SavingsResult = SavingsResult(annualSavings: int, systemSize: nat, annualProduction: int, co2Reduction: int)

  const SelfConsumption: real := 0.3   // share of the production used in the household
  const FeedInTariff: real := 0.08     // EUR per exported kWh
  const ElectricityPrice: real := 0.32 // EUR per kWh bought
  const Co2PerKwh: real := 0.4         // kg CO2 per kWh produced

  /** Math.round: the nearest integer, halves rounded up. */
  function Round(x: real): (n: int)
    ensures n as real - 0.5 <= x < n as real + 0.5
  {
    (x + 0.5).Floor
  }

  /** Roof area bracket to kWp; anything else, '' included, gives 0. */
  function RoofAreaBase(token: string): (kwp: nat)
    ensures kwp > 0 <==> token in RoofAreaTokens
    ensures kwp % 5 == 0
  {
    match token
    case "klein" => 5
    case "mittel" => 10
    case "gross" => 15
    case "sehr-gross" => 25
    case _ => 0
  }

  /** Household size factor; anything else gives 1. */
  function ResidentsFactor(token: string): (f: real)
    ensures token !in ResidentsTokens ==> f == 1.0
    ensures f == 0.8 || f == 1.0 || f == 1.2
  {
    match token
    case "1-2" => 0.8
    case "3-4" => 1.0
    case "5+" => 1.2
    case _ => 1.0
  }

  /** Monthly bill factor; anything else gives 1. */
  function BillFactor(token: string): (f: real)
    ensures token !in CurrentBillTokens ==> f == 1.0
    ensures f == 0.8 || f == 1.0 || f == 1.3 || f == 1.6
  {
    match token
    case "niedrig" => 0.8
    case "mittel" => 1.0
    case "hoch" => 1.3
    case "sehr-hoch" => 1.6
    case _ => 1.0
  }

  /** annualProduction before rounding: kWp × 1000 × residents factor. */
  function ExactProduction(form: FormData): (p: real)
    ensures p >= 0.0
    ensures p == 0.0 <==> form.roofArea !in RoofAreaTokens
  {
    RoofAreaBase(form.roofArea) as real * 1000.0 * ResidentsFactor(form.residents)
  }

  /**
    totalAnnualSavings before rounding, for a production and a bill factor: the
    self-consumed share at the retail price plus the exported share at the
    feed-in tariff.
   */
  function SavingsFormula(production: real, billFactor: real): (r: real)
    ensures r == production * (0.096 * billFactor + 0.056)
    ensures 0.0 <= production && 0.0 <= billFactor ==> 0.0 <= r
  {
    var savingsFromSelfConsumption := production * SelfConsumption * ElectricityPrice * billFactor;
    var incomeFromFeedIn := production * (1.0 - SelfConsumption) * FeedInTariff;
    savingsFromSelfConsumption + incomeFromFeedIn
  }

  /** totalAnnualSavings before rounding, for an answer record. */
  function ExactSavings(form: FormData): (r: real)
    ensures r >= 0.0
    ensures r == 0.0 <==> form.roofArea !in RoofAreaTokens
  {
    SavingsFormula(ExactProduction(form), BillFactor(form.currentBill))
  }

  /**
    calculateSavings(): the size is the roof base, the production is exact, the
    CO2 figure is exactly 0.4 kg per kWh of it, and the savings are within 0.4
    of the unrounded value.
   */
  function CalculateSavings(form: FormData): (r: SavingsResult)
    ensures r.systemSize == RoofAreaBase(form.roofArea)
    ensures r.annualProduction as real == ExactProduction(form) && r.annualProduction >= 0
    ensures 10 * r.co2Reduction == 4 * r.annualProduction
    ensures -0.4 <= r.annualSavings as real - ExactSavings(form) <= 0.4
  {
    var production := ExactProduction(form);
    ProductionIsExact(form);
    Co2IsExact(form);
    SavingsRoundingHasNoTie(form);
    SavingsResult(
      Round(ExactSavings(form)),
      RoofAreaBase(form.roofArea),
      Round(production),
      Round(production * Co2PerKwh))
  }

  /** The roof-area table, in the order the question offers its brackets, is 5, 10, 15, 25 kWp. */
  lemma RoofAreaTable()
    ensures |RoofAreaTokens| == 4
    ensures RoofAreaBase(RoofAreaTokens[0]) == 5 && RoofAreaBase(RoofAreaTokens[1]) == 10
    ensures RoofAreaBase(RoofAreaTokens[2]) == 15 && RoofAreaBase(RoofAreaTokens[3]) == 25
  {
  }

  /** The resident and bill tables, in the order the questions offer their brackets. */
  lemma FactorTables()
    ensures ResidentsFactor(ResidentsTokens[0]) == 0.8 && ResidentsFactor(ResidentsTokens[1]) == 1.0
    ensures ResidentsFactor(ResidentsTokens[2]) == 1.2
    ensures BillFactor(CurrentBillTokens[0]) == 0.8 && BillFactor(CurrentBillTokens[1]) == 1.0
    ensures BillFactor(CurrentBillTokens[2]) == 1.3 && BillFactor(CurrentBillTokens[3]) == 1.6
  {
  }

  /** The exact production is a whole multiple of 1000 kWh. */
  lemma {:induction false} ProductionIsWholeThousands(form: FormData) returns (k: nat)
    ensures ExactProduction(form) == (1000 * k) as real
  {
    var b := RoofAreaBase(form.roofArea);
    var q := b / 5;
    assert b == 5 * q;
    var rf := ResidentsFactor(form.residents);
    if rf == 0.8 {
      k := 4 * q;
    } else if rf == 1.0 {
      k := 5 * q;
    } else {
      k := 6 * q;
    }
  }

  /** Math.round leaves the production as it is, and it is what the table lookups predict. */
  lemma ProductionIsExact(form: FormData)
    ensures Round(ExactProduction(form)) as real == RoofAreaBase(form.roofArea) as real * 1000.0 * ResidentsFactor(form.residents)
    ensures Round(ExactProduction(form)) % 1000 == 0
  {
    var k := ProductionIsWholeThousands(form);
    assert Round((1000 * k) as real) == 1000 * k;
  }

  /** co2Reduction is exactly 0.4 kg per kWh of the (whole) production. */
  lemma Co2IsExact(form: FormData)
    ensures 10 * Round(ExactProduction(form) * Co2PerKwh) == 4 * Round(ExactProduction(form))
  {
    var k := ProductionIsWholeThousands(form);
    ProductionIsExact(form);
    assert ExactProduction(form) * Co2PerKwh == (400 * k) as real;
    assert Round((400 * k) as real) == 400 * k;
  }

  /** Five times the unrounded savings is an integer: its fractional part is a multiple of 0.2. */
  lemma {:induction false} SavingsInFifths(form: FormData) returns (m: int)
    ensures 5.0 * ExactSavings(form) == m as real
  {
    var k := ProductionIsWholeThousands(form);
    var p := (1000 * k) as real;
    var bf := BillFactor(form.currentBill);
    assert ExactSavings(form) == p * 0.096 * bf + p * 0.056;
    if bf == 0.8 {
      m := 664 * k;
    } else if bf == 1.0 {
      m := 760 * k;
    } else if bf == 1.3 {
      m := 904 * k;
    } else {
      m := 1048 * k;
    }
  }

  /** Rounding moves the savings by at most 0.4, so it never has to break a .5 tie. */
  lemma SavingsRoundingHasNoTie(form: FormData)
    ensures -0.4 <= Round(ExactSavings(form)) as real - ExactSavings(form) <= 0.4
  {
    var m := SavingsInFifths(form);
    var n := Round(ExactSavings(form));
    assert 5 * n - 2 <= m <= 5 * n + 2;
  }

  /** An unset or unknown roof area gives a zero estimate, whatever the other answers are. */
  lemma UnknownRoofAreaGivesZero(form: FormData)
    requires form.roofArea !in RoofAreaTokens
    ensures CalculateSavings(form) == SavingsResult(0, 0, 0, 0)
  {
    assert ExactProduction(form) == 0.0;
  }

  /** systemSize is the roof-area base alone. */
  lemma SystemSizeIsRoofBase(form: FormData)
    ensures CalculateSavings(form).systemSize == RoofAreaBase(form.roofArea)
    ensures CalculateSavings(form).systemSize > 0 <==> form.roofArea in RoofAreaTokens
  {
  }

  /** Only roofArea, residents and currentBill enter the estimate; installation, roofType and the contact fields never do. */
  lemma OnlyThreeAnswersMatter(f: FormData, g: FormData)
    requires f.roofArea == g.roofArea && f.residents == g.residents && f.currentBill == g.currentBill
    ensures CalculateSavings(f) == CalculateSavings(g)
  {
    assert ExactProduction(f) == ExactProduction(g);
    assert ExactSavings(f) == ExactSavings(g);
  }

  /** Largest roof, 3-4 residents, highest bill: 5240 EUR, 25 kWp, 25000 kWh, 10000 kg. */
  lemma LargestRoofExample(form: FormData)
    requires form.roofArea == "sehr-gross" && form.residents == "3-4" && form.currentBill == "sehr-hoch"
    ensures CalculateSavings(form) == SavingsResult(5240, 25, 25000, 10000)
  {
    assert ExactProduction(form) == 25000.0;
    assert ExactSavings(form) == 5240.0;
  }

  /** Math.round is monotone. */
  lemma RoundMonotone(x: real, y: real)
    requires x <= y
    ensures Round(x) <= Round(y)
  {
  }

  /** Savings from a non-negative production grow with the bill factor. */
  lemma SavingsGrowWithBillFactor(p: real, b1: real, b2: real)
    requires 0.0 <= p && b1 <= b2
    ensures p * SelfConsumption * ElectricityPrice * b1 <= p * SelfConsumption * ElectricityPrice * b2
  {
    var c := p * SelfConsumption * ElectricityPrice;
    assert c >= 0.0;
    assert c * b1 <= c * b2 by {
      assert c * (b2 - b1) >= 0.0;
    }
  }

  /**
    A higher bill bracket never lowers the estimated savings: later options of
    the bill question give at least as much.
   */
  lemma SavingsMonotoneInBill(form: FormData, i: nat, j: nat)
    requires i <= j < |CurrentBillTokens|
    ensures CalculateSavings(form.(currentBill := CurrentBillTokens[i])).annualSavings
         <= CalculateSavings(form.(currentBill := CurrentBillTokens[j])).annualSavings
  {
    var f1 := form.(currentBill := CurrentBillTokens[i]);
    var f2 := form.(currentBill := CurrentBillTokens[j]);
    var p := ExactProduction(form);
    assert ExactProduction(f1) == p && ExactProduction(f2) == p;
    FactorTables();
    assert BillFactor(CurrentBillTokens[i]) <= BillFactor(CurrentBillTokens[j]);
    SavingsGrowWithBillFactor(p, BillFactor(CurrentBillTokens[i]), BillFactor(CurrentBillTokens[j]));
    RoundMonotone(ExactSavings(f1), ExactSavings(f2));
  }

  /** A product with a non-negative factor is monotone in the other factor. */
  lemma ScaleMonotone(c: real, x: real, y: real)
    requires 0.0 <= c && x <= y
    ensures c * x <= c * y
  {
    assert c * (y - x) >= 0.0;
  }

  /** The savings formula is monotone in the production for any non-negative bill factor. */
  lemma SavingsFormulaMonotone(p1: real, p2: real, bf: real)
    requires p1 <= p2 && 0.0 <= bf
    ensures SavingsFormula(p1, bf) <= SavingsFormula(p2, bf)
  {
    ScaleMonotone(SelfConsumption * ElectricityPrice * bf, p1, p2);
  }

  /** With the same bill bracket, more production means at least as much production and savings after rounding. */
  lemma SavingsFollowProduction(f1: FormData, f2: FormData)
    requires f1.currentBill == f2.currentBill
    requires ExactProduction(f1) <= ExactProduction(f2)
    ensures CalculateSavings(f1).annualProduction <= CalculateSavings(f2).annualProduction
    ensures CalculateSavings(f1).annualSavings <= CalculateSavings(f2).annualSavings
  {
    RoundMonotone(ExactProduction(f1), ExactProduction(f2));
    SavingsFormulaMonotone(ExactProduction(f1), ExactProduction(f2), BillFactor(f1.currentBill));
    RoundMonotone(ExactSavings(f1), ExactSavings(f2));
  }

  /** A larger roof bracket never lowers the production or the savings. */
  lemma SavingsMonotoneInRoofArea(form: FormData, i: nat, j: nat)
    requires i <= j < |RoofAreaTokens|
    ensures CalculateSavings(form.(roofArea := RoofAreaTokens[i])).annualProduction
         <= CalculateSavings(form.(roofArea := RoofAreaTokens[j])).annualProduction
    ensures CalculateSavings(form.(roofArea := RoofAreaTokens[i])).annualSavings
         <= CalculateSavings(form.(roofArea := RoofAreaTokens[j])).annualSavings
  {
    var f1 := form.(roofArea := RoofAreaTokens[i]);
    var f2 := form.(roofArea := RoofAreaTokens[j]);
    RoofAreaTable();
    var b1 := RoofAreaBase(RoofAreaTokens[i]) as real;
    var b2 := RoofAreaBase(RoofAreaTokens[j]) as real;
    assert b1 <= b2;
    ScaleMonotone(1000.0 * ResidentsFactor(form.residents), b1, b2);
    assert ExactProduction(f1) <= ExactProduction(f2);
    SavingsFollowProduction(f1, f2);
  }

  /** A larger household bracket never lowers the production or the savings. */
  lemma SavingsMonotoneInResidents(form: FormData, i: nat, j: nat)
    requires i <= j < |ResidentsTokens|
    ensures CalculateSavings(form.(residents := ResidentsTokens[i])).annualProduction
         <= CalculateSavings(form.(residents := ResidentsTokens[j])).annualProduction
    ensures CalculateSavings(form.(residents := ResidentsTokens[i])).annualSavings
         <= CalculateSavings(form.(residents := ResidentsTokens[j])).annualSavings
  {
    var f1 := form.(residents := ResidentsTokens[i]);
    var f2 := form.(residents := ResidentsTokens[j]);
    FactorTables();
    var r1 := ResidentsFactor(ResidentsTokens[i]);
    var r2 := ResidentsFactor(ResidentsTokens[j]);
    assert r1 <= r2;
    ScaleMonotone(RoofAreaBase(form.roofArea) as real * 1000.0, r1, r2);
    assert ExactProduction(f1) <= ExactProduction(f2);
    SavingsFollowProduction(f1, f2);
  }
}
