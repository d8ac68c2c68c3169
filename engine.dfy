/**
 * The sales-derivation engine (`calculateSalesRecordWithSettings`): five raw
 * inputs of a sale and five configurable rates give the derived money and
 * percent fields of a sales record. Field letters follow the spreadsheet the
 * engine was built from (D quantity, E purchase price, ... AF client bonus
 * after tax). Amounts are exact reals.
 */
module SalesEngine {
  import opened Wrappers

  /** The raw fields a manager enters: D, E, H, Q and AE. */
  datatype SalesInput = SalesInput(
    quantity: real,          // D
    purchasePrice: real,     // E  (per unit)
    totalDelivery: real,     // H  (whole batch)
    sellingWithBonus: real,  // Q  (per unit, client bonus included)
    clientBonus: real        // AE (whole batch)
  )

  /** The rates, each a plain percent (12 means 12%). */
  datatype FormulaConfig = FormulaConfig(
    financialLoadPercent: real,  // I
    vatRate: real,
    managerBonusPercent: real,   // R
    kpnTaxRate: real,            // corporate tax
    clientBonusTaxRate: real
  )

  /** Per-field formula texts keyed by field name; the engine accepts them and never reads them. */
  type CustomFormulas = map<string, string>

  /** The inputs echoed back together with every derived field. */
  datatype SalesRecord = SalesRecord(
    quantity: real,
    purchasePrice: real,
    totalDelivery: real,
    sellingWithBonus: real,
    clientBonus: real,
    deliveryPerUnit: real,      // F
    sumWithDelivery: real,      // G
    financialLoadPercent: real, // I
    financialLoad: real,        // J
    sumWithLoad: real,          // K
    markupPercent: real,        // L
    markup: real,               // M
    sellingPriceNoVat: real,    // N
    ndsTax: real,               // O  (VAT)
    sellingPriceVat: real,      // P
    managerBonusPercent: real,  // R
    managerBonusUnit: real,     // S
    incomePreKpn: real,         // T
    kpnTax: real,               // U  (corporate tax)
    netIncomeUnit: real,        // V
    marginPercent: real,        // W
    totalSellingVat: real,      // X
    totalSellingBonus: real,    // Y
    totalNetIncome: real,       // Z
    totalPurchase: real,        // AA
    totalExpenses: real,        // AB
    totalManagerBonuses: real,  // AC
    unitBonusClient: real,      // AD
    totalClientBonusPostTax: Option<real>  // AF (absent from some results of the fixed-rate engine)
  )

  /** The two rate-dependent divisors, 100 + VAT and 1 + tax/100, are non-zero. */
  predicate RatesDefined(config: FormulaConfig) {
    config.vatRate != -100.0 && config.clientBonusTaxRate != -100.0
  }

  /** The record returned for a non-positive quantity: inputs echoed, the two rate fields as given, all else 0. */
  function ZeroQuantityRecord(input: SalesInput, loadPercent: real, bonusPercent: real): SalesRecord {
    SalesRecord(
      input.quantity, input.purchasePrice, input.totalDelivery, input.sellingWithBonus, input.clientBonus,
      0.0, 0.0, loadPercent, 0.0, 0.0, 0.0, 0.0, 0.0, 0.0, 0.0, bonusPercent, 0.0, 0.0, 0.0, 0.0, 0.0,
      0.0, 0.0, 0.0, 0.0, 0.0, 0.0, 0.0, Some(0.0))
  }

  /** Every derived amount and percent of `r` is zero (the two rate pass-throughs aside). */
  predicate DerivedAllZero(r: SalesRecord) {
    && r.deliveryPerUnit == 0.0 && r.sumWithDelivery == 0.0 && r.financialLoad == 0.0
    && r.sumWithLoad == 0.0 && r.markupPercent == 0.0 && r.markup == 0.0
    && r.sellingPriceNoVat == 0.0 && r.ndsTax == 0.0 && r.sellingPriceVat == 0.0
    && r.managerBonusUnit == 0.0 && r.incomePreKpn == 0.0 && r.kpnTax == 0.0
    && r.netIncomeUnit == 0.0 && r.marginPercent == 0.0 && r.totalSellingVat == 0.0
    && r.totalSellingBonus == 0.0 && r.totalNetIncome == 0.0 && r.totalPurchase == 0.0
    && r.totalExpenses == 0.0 && r.totalManagerBonuses == 0.0 && r.unitBonusClient == 0.0
    && r.totalClientBonusPostTax == Some(0.0)
  }

  /** `r` carries the five raw inputs unchanged. */
  predicate EchoesInput(r: SalesRecord, input: SalesInput) {
    && r.quantity == input.quantity && r.purchasePrice == input.purchasePrice
    && r.totalDelivery == input.totalDelivery && r.sellingWithBonus == input.sellingWithBonus
    && r.clientBonus == input.clientBonus
  }

  /** `part` as a percent of `whole`, guarded: 0 when `whole` is 0. */
  function PercentOf(part: real, whole: real): real {
    if whole != 0.0 then (part / whole) * 100.0 else 0.0
  }

  /** A batch amount spread over `quantity` units. */
  function PerUnit(total: real, quantity: real): real
    requires quantity != 0.0
  {
    total / quantity
  }

  /** The VAT contained in a VAT-inclusive amount at `rate` percent. */
  function IncludedVat(gross: real, rate: real): real
    requires rate != -100.0
  {
    gross * (rate / (100.0 + rate))
  }

  /** What is left of `amount` once a tax of `rate` percent on the net is taken out of it. */
  function NetOfTax(amount: real, rate: real): real
    requires rate != -100.0
  {
    amount / (1.0 + rate / 100.0)
  }

  /** A batch total: a per-unit amount times the quantity. */
  function Batch(quantity: real, perUnit: real): real {
    quantity * perUnit
  }

  /** The derivation chain with configurable rates. */
  function CalculateWithSettings(input: SalesInput, config: FormulaConfig, customFormulas: CustomFormulas): (r: SalesRecord)
    requires RatesDefined(config)
    ensures EchoesInput(r, input)
    ensures r.financialLoadPercent == config.financialLoadPercent
    ensures r.managerBonusPercent == config.managerBonusPercent
    ensures input.quantity <= 0.0 ==> DerivedAllZero(r)
    ensures r.totalClientBonusPostTax.Some?
  {
    var D, E, H, Q, AE := input.quantity, input.purchasePrice, input.totalDelivery, input.sellingWithBonus, input.clientBonus;
    if D <= 0.0 then
      ZeroQuantityRecord(input, config.financialLoadPercent, config.managerBonusPercent)
    else
      var F := PerUnit(H, D);
      var G := E + F;
      var I := config.financialLoadPercent;
      var J := G * (I / 100.0);
      var K := G + J;
      var AD := PerUnit(AE, D);
      var P := Q - AD;
      var M := P - K;
      var L := PercentOf(M, K);
      var O := IncludedVat(P, config.vatRate);
      var N := P - O;
      var R := config.managerBonusPercent;
      var S := N * (R / 100.0);
      var T := P - E - F - J - S - O;
      var U := T * (config.kpnTaxRate / 100.0);
      var V := T - U;
      var W := PercentOf(V, P);
      var X := Batch(D, P);
      var Y := Batch(D, Q);
      var Z := Batch(D, V);
      var AA := Batch(D, E);
      var AB := AA + H + Batch(D, J) + Batch(D, S) + Batch(D, O) + Batch(D, U);
      var AC := Batch(D, S);
      var AF := NetOfTax(AE, config.clientBonusTaxRate);
      SalesRecord(D, E, H, Q, AE, F, G, I, J, K, L, M, N, O, P, R, S, T, U, V, W, X, Y, Z, AA, AB, AC, AD, Some(AF))
  }

  /** The result does not depend on the custom formulas: the parameter is never read. */
  lemma IgnoresCustomFormulas(input: SalesInput, config: FormulaConfig, f1: CustomFormulas, f2: CustomFormulas)
    requires RatesDefined(config)
    ensures CalculateWithSettings(input, config, f1) == CalculateWithSettings(input, config, f2)
  {
  }

  /** VAT is backed out of the VAT-inclusive price P: O = P*vat/(100+vat) and N + O = P. */
  lemma VatSplit(input: SalesInput, config: FormulaConfig, customFormulas: CustomFormulas)
    requires RatesDefined(config)
    ensures var r := CalculateWithSettings(input, config, customFormulas);
      && r.sellingPriceNoVat + r.ndsTax == r.sellingPriceVat
      && (input.quantity > 0.0 ==> r.ndsTax * (100.0 + config.vatRate) == r.sellingPriceVat * config.vatRate)
  {
    var r := CalculateWithSettings(input, config, customFormulas);
    if input.quantity > 0.0 {
      var ratio := config.vatRate / (100.0 + config.vatRate);
      assert r.ndsTax == r.sellingPriceVat * ratio;
      assert ratio * (100.0 + config.vatRate) == config.vatRate;
    }
  }

  /** Markup % and margin % are 0 exactly where their divisor is 0, and the quotient times 100 otherwise. */
  lemma GuardedPercents(input: SalesInput, config: FormulaConfig, customFormulas: CustomFormulas)
    requires RatesDefined(config)
    ensures var r := CalculateWithSettings(input, config, customFormulas);
      && (r.sumWithLoad == 0.0 ==> r.markupPercent == 0.0)
      && (r.sumWithLoad != 0.0 ==> r.markupPercent * r.sumWithLoad == r.markup * 100.0)
      && (r.sellingPriceVat == 0.0 ==> r.marginPercent == 0.0)
      && (r.sellingPriceVat != 0.0 ==> r.marginPercent * r.sellingPriceVat == r.netIncomeUnit * 100.0)
  {
  }

  /** Batch amounts spread over the quantity: F*D = H, AD*D = AE, and P = Q - AE/D. */
  lemma PerUnitAllocation(input: SalesInput, config: FormulaConfig, customFormulas: CustomFormulas)
    requires RatesDefined(config)
    requires input.quantity > 0.0
    ensures var r := CalculateWithSettings(input, config, customFormulas);
      && r.deliveryPerUnit * input.quantity == input.totalDelivery
      && r.unitBonusClient * input.quantity == input.clientBonus
      && r.sellingPriceVat == input.sellingWithBonus - input.clientBonus / input.quantity
  {
  }

  /**
   * Income before corporate tax is the markup less the manager bonus and VAT
   * (P-E-F-J-S-O collapses through G = E+F, K = G+J, M = P-K); net income is
   * what the corporate tax leaves of it.
   */
  lemma IncomeChain(input: SalesInput, config: FormulaConfig, customFormulas: CustomFormulas)
    requires RatesDefined(config)
    ensures var r := CalculateWithSettings(input, config, customFormulas);
      && r.incomePreKpn == r.markup - r.managerBonusUnit - r.ndsTax
      && r.netIncomeUnit == r.incomePreKpn * (1.0 - config.kpnTaxRate / 100.0)
      && r.kpnTax + r.netIncomeUnit == r.incomePreKpn
  {
  }

  /**
   * The per-unit chain without its rates: G = E + F, K = G + J, M = P - K,
   * P = Q - AD, the pre-tax income T = P-E-F-J-S-O and the net income V = T - U.
   */
  lemma UnitChain(input: SalesInput, config: FormulaConfig, customFormulas: CustomFormulas)
    requires RatesDefined(config)
    requires input.quantity > 0.0
    ensures var r := CalculateWithSettings(input, config, customFormulas);
      && r.sumWithDelivery == r.purchasePrice + r.deliveryPerUnit
      && r.sumWithLoad == r.sumWithDelivery + r.financialLoad
      && r.markup == r.sellingPriceVat - r.sumWithLoad
      && r.sellingPriceVat == r.sellingWithBonus - r.unitBonusClient
      && r.incomePreKpn == r.sellingPriceVat - r.purchasePrice - r.deliveryPerUnit - r.financialLoad
                           - r.managerBonusUnit - r.ndsTax
      && r.netIncomeUnit == r.incomePreKpn - r.kpnTax
  {
  }

  /** Batch totals are the quantity times the per-unit values; total expenses add the batch delivery. */
  lemma BatchTotals(input: SalesInput, config: FormulaConfig, customFormulas: CustomFormulas)
    requires RatesDefined(config)
    requires input.quantity > 0.0
    ensures var r := CalculateWithSettings(input, config, customFormulas); var D := input.quantity;
      && r.totalSellingVat == Batch(D, r.sellingPriceVat)
      && r.totalSellingBonus == Batch(D, r.sellingWithBonus)
      && r.totalNetIncome == Batch(D, r.netIncomeUnit)
      && r.totalPurchase == Batch(D, r.purchasePrice)
      && r.totalManagerBonuses == Batch(D, r.managerBonusUnit)
      && r.totalExpenses == r.totalPurchase + r.totalDelivery
                            + Batch(D, r.financialLoad + r.managerBonusUnit + r.ndsTax + r.kpnTax)
  {
    var r := CalculateWithSettings(input, config, customFormulas);
    BatchAdds(input.quantity, r.financialLoad, r.managerBonusUnit, r.ndsTax, r.kpnTax);
  }

  /** A batch total of a sum is the sum of the batch totals. */
  lemma BatchAdds(D: real, a: real, b: real, c: real, d: real)
    ensures Batch(D, a) + Batch(D, b) + Batch(D, c) + Batch(D, d) == Batch(D, a + b + c + d)
  {
  }

  /**
   * Total expenses are the quantity times all per-unit costs, the total net
   * income is the total sale less the total expenses, and the two sale totals
   * differ by exactly the client bonus.
   */
  lemma BatchReconciliation(input: SalesInput, config: FormulaConfig, customFormulas: CustomFormulas)
    requires RatesDefined(config)
    requires input.quantity > 0.0
    ensures var r := CalculateWithSettings(input, config, customFormulas);
      && r.totalExpenses == Batch(input.quantity, r.purchasePrice + r.deliveryPerUnit + r.financialLoad
                                                  + r.managerBonusUnit + r.ndsTax + r.kpnTax)
      && r.totalNetIncome == r.totalSellingVat - r.totalExpenses
      && r.totalSellingBonus - r.totalSellingVat == r.clientBonus
  {
    var r := CalculateWithSettings(input, config, customFormulas);
    PerUnitAllocation(input, config, customFormulas);
    UnitChain(input, config, customFormulas);
    BatchTotals(input, config, customFormulas);
    ReconcileBatch(input.quantity, r.purchasePrice, r.deliveryPerUnit, r.totalDelivery, r.financialLoad,
                   r.managerBonusUnit, r.ndsTax, r.kpnTax, r.sellingPriceVat, r.sellingWithBonus, r.netIncomeUnit,
                   r.unitBonusClient, r.clientBonus);
  }

  /** The arithmetic behind BatchReconciliation, over plain reals. */
  lemma ReconcileBatch(D: real, E: real, F: real, H: real, J: real, S: real, O: real, U: real,
                       P: real, Q: real, V: real, AD: real, AE: real)
    requires F * D == H && AD * D == AE
    requires P == Q - AD
    requires V == P - E - F - J - S - O - U
    ensures Batch(D, E) + H + Batch(D, J + S + O + U) == Batch(D, E + F + J + S + O + U)
    ensures Batch(D, V) == Batch(D, P) - (Batch(D, E) + H + Batch(D, J + S + O + U))
    ensures Batch(D, Q) - Batch(D, P) == AE
  {
  }

  /** The client bonus after its tax: AF*(1 + rate/100) = AE, and 0 <= AF <= AE for non-negative AE and rate. */
  lemma ClientBonusPostTax(input: SalesInput, config: FormulaConfig, customFormulas: CustomFormulas)
    requires RatesDefined(config)
    ensures var r := CalculateWithSettings(input, config, customFormulas);
      && r.totalClientBonusPostTax.Some?
      && (input.quantity > 0.0 ==>
            r.totalClientBonusPostTax.value * (1.0 + config.clientBonusTaxRate / 100.0) == input.clientBonus)
      && (input.clientBonus >= 0.0 && config.clientBonusTaxRate >= 0.0 ==>
            0.0 <= r.totalClientBonusPostTax.value <= input.clientBonus)
  {
    var r := CalculateWithSettings(input, config, customFormulas);
    if input.quantity > 0.0 {
      var d := 1.0 + config.clientBonusTaxRate / 100.0;
      assert r.totalClientBonusPostTax.value == input.clientBonus / d;
      if input.clientBonus >= 0.0 && config.clientBonusTaxRate >= 0.0 {
        assert d >= 1.0;
        assert input.clientBonus / d * d == input.clientBonus;
      }
    }
  }
}
