/**
 * The older derivation engine (`calculateSalesRecord`) with its rates written
 * in: financial load 5%, VAT 12%, manager bonus 3%, corporate tax 20%. It
 * has no client-bonus-after-tax field except in its zero-quantity result.
 */
module LegacyEngine {
  import opened Wrappers
  import opened SalesEngine

  /** The rates the older engine hard-codes, as a configuration of the newer one. */
  function FixedRates(clientBonusTaxRate: real): FormulaConfig {
    FormulaConfig(5.0, 12.0, 3.0, 20.0, clientBonusTaxRate)
  }

  /** The derivation chain with literal rates. */
  function CalculateSalesRecord(input: SalesInput): (r: SalesRecord)
    ensures EchoesInput(r, input)
    ensures r.financialLoadPercent == 5.0 && r.managerBonusPercent == 3.0
    ensures input.quantity <= 0.0 ==> DerivedAllZero(r)
    ensures input.quantity > 0.0 <==> r.totalClientBonusPostTax == None
  {
    var D, E, H, Q, AE := input.quantity, input.purchasePrice, input.totalDelivery, input.sellingWithBonus, input.clientBonus;
    if D <= 0.0 then
      ZeroQuantityRecord(input, 5.0, 3.0)
    else
      var F := H / D;
      var G := E + F;
      var I := 5.0;
      var J := G * (I / 100.0);
      var K := G + J;
      var AD := AE / D;
      var P := Q - AD;
      var M := P - K;
      var L := if K != 0.0 then (M / K) * 100.0 else 0.0;
      var O := P * 12.0 / (12.0 + 100.0);
      var N := P - O;
      var R := 3.0;
      var S := N * (R / 100.0);
      var T := P - S - K - O;
      var U := T * 0.2;
      var V := T - U;
      var W := if P != 0.0 then (V / P) * 100.0 else 0.0;
      var X := Batch(D, P);
      var Y := Batch(D, Q);
      var Z := Batch(D, V);
      var AA := Batch(D, E);
      var AB := AA + H + Batch(D, J) + Batch(D, S) + Batch(D, O) + Batch(D, U);
      var AC := Batch(D, S);
      SalesRecord(D, E, H, Q, AE, F, G, I, J, K, L, M, N, O, P, R, S, T, U, V, W, X, Y, Z, AA, AB, AC, AD, None)
  }

  /**
   * The older engine is the newer one at rates {5, 12, 3, 20}: for a positive
   * quantity every field agrees except the client bonus after tax, which the
   * older engine leaves out; for a non-positive quantity the results are equal.
   */
  lemma AgreesWithSettingsEngine(input: SalesInput, clientBonusTaxRate: real, customFormulas: CustomFormulas)
    requires clientBonusTaxRate != -100.0
    ensures var older := CalculateSalesRecord(input);
      var newer := CalculateWithSettings(input, FixedRates(clientBonusTaxRate), customFormulas);
      && (input.quantity > 0.0 ==> older == newer.(totalClientBonusPostTax := None))
      && (input.quantity <= 0.0 ==> older == newer)
  {
    var older := CalculateSalesRecord(input);
    var newer := CalculateWithSettings(input, FixedRates(clientBonusTaxRate), customFormulas);
    if input.quantity > 0.0 {
      var P := newer.sellingPriceVat;
      assert older.sellingPriceVat == P;
      assert P * 12.0 / (12.0 + 100.0) == IncludedVat(P, 12.0);
      assert older.ndsTax == newer.ndsTax;
      assert older.incomePreKpn == newer.incomePreKpn;
      assert older.kpnTax == newer.kpnTax;
    }
  }

  /**
   * The fixed-rate formulas as the older engine states them: VAT is 12/112 of
   * the VAT-inclusive price, corporate tax is 20% of the pre-tax income, and
   * the pre-tax income is P - S - K - O.
   */
  lemma FixedRateFormulas(input: SalesInput)
    requires input.quantity > 0.0
    ensures var r := CalculateSalesRecord(input);
      && r.ndsTax * 112.0 == r.sellingPriceVat * 12.0
      && r.sellingPriceNoVat + r.ndsTax == r.sellingPriceVat
      && r.kpnTax == r.incomePreKpn * 0.2
      && r.incomePreKpn == r.sellingPriceVat - r.managerBonusUnit - r.sumWithLoad - r.ndsTax
      && r.incomePreKpn == r.markup - r.managerBonusUnit - r.ndsTax
      && (r.sumWithLoad == 0.0 ==> r.markupPercent == 0.0)
      && (r.sellingPriceVat == 0.0 ==> r.marginPercent == 0.0)
  {
  }
}
