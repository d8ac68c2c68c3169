/**
 * The sales-record form: its validation rules, the margin colour badge, the
 * low-price warning, and the guard under which derived values are recomputed.
 */
module RecordForm {
  import opened Wrappers
  import opened SalesEngine

  /** What the manager types in. */
  datatype FormData = FormData(
    date: string,
    counterparty: string,
    name: string,
    quantity: real,
    purchasePrice: real,
    totalDelivery: real,
    sellingWithBonus: real,
    clientBonus: real
  )

  const DateRequired: string := "Дата обязательна"
  const CounterpartyTooShort: string := "Контрагент должен содержать минимум 2 символа"
  const NameTooShort: string := "Наименование должно содержать минимум 3 символа"
  const QuantityNotPositive: string := "Количество должно быть больше 0"
  const PurchasePriceNegative: string := "Закупочная цена не может быть отрицательной"
  const DeliveryNegative: string := "Сумма доставки не может быть отрицательной"
  const SellingPriceNegative: string := "Цена продажи не может быть отрицательной"
  const ClientBonusNegative: string := "Бонус клиента не может быть отрицательным"

  /** The fields the form can report an error for (the keys of the error map). */
  datatype Field = Date | Counterparty | Name | Quantity | PurchasePrice | TotalDelivery | SellingWithBonus | ClientBonus

  /** None of the eight rules fires. */
  predicate Acceptable(form: FormData) {
    && form.date != ""
    && |form.counterparty| >= 2
    && |form.name| >= 3
    && form.quantity > 0.0
    && form.purchasePrice >= 0.0
    && form.totalDelivery >= 0.0
    && form.sellingWithBonus >= 0.0
    && form.clientBonus >= 0.0
  }

  /** The message recorded for a field whose rule fires. */
  function Message(f: Field): string {
    match f
    case Date => DateRequired
    case Counterparty => CounterpartyTooShort
    case Name => NameTooShort
    case Quantity => QuantityNotPositive
    case PurchasePrice => PurchasePriceNegative
    case TotalDelivery => DeliveryNegative
    case SellingWithBonus => SellingPriceNegative
    case ClientBonus => ClientBonusNegative
  }

  /** One rule: when it fires, its field's message is recorded. */
  function Check(e: map<Field, string>, f: Field, fires: bool): map<Field, string> {
    if fires then e[f := Message(f)] else e
  }

  /** The error map the rules build, one rule after another. */
  function RuleErrors(form: FormData): map<Field, string> {
    AmountErrors(TextErrors(form), form)
  }

  /** The date, counterparty and name rules, from an empty map. */
  function TextErrors(form: FormData): map<Field, string> {
    var e := Check(map[], Date, form.date == "");
    var e := Check(e, Counterparty, form.counterparty == "" || |form.counterparty| < 2);
    Check(e, Name, form.name == "" || |form.name| < 3)
  }

  /** The quantity and amount rules, added to `e`. */
  function AmountErrors(e: map<Field, string>, form: FormData): map<Field, string> {
    var e := Check(e, Quantity, form.quantity <= 0.0);
    var e := Check(e, PurchasePrice, form.purchasePrice < 0.0);
    var e := Check(e, TotalDelivery, form.totalDelivery < 0.0);
    var e := Check(e, SellingWithBonus, form.sellingWithBonus < 0.0);
    Check(e, ClientBonus, form.clientBonus < 0.0)
  }

  /**
   * `validateForm`: checks the rules one after another, recording a message
   * under the field's name for each that fires; the form is valid when no
   * message was recorded.
   */
  method ValidateForm(form: FormData) returns (errors: map<Field, string>, valid: bool)
    ensures errors == RuleErrors(form)
    ensures valid <==> Acceptable(form)
  {
    errors := map[];
    errors := if form.date == "" then errors[Date := Message(Date)] else errors;
    errors := if form.counterparty == "" || |form.counterparty| < 2 then errors[Counterparty := Message(Counterparty)] else errors;
    errors := if form.name == "" || |form.name| < 3 then errors[Name := Message(Name)] else errors;
    assert errors == TextErrors(form);
    errors := if form.quantity <= 0.0 then errors[Quantity := Message(Quantity)] else errors;
    errors := if form.purchasePrice < 0.0 then errors[PurchasePrice := Message(PurchasePrice)] else errors;
    errors := if form.totalDelivery < 0.0 then errors[TotalDelivery := Message(TotalDelivery)] else errors;
    errors := if form.sellingWithBonus < 0.0 then errors[SellingWithBonus := Message(SellingWithBonus)] else errors;
    errors := if form.clientBonus < 0.0 then errors[ClientBonus := Message(ClientBonus)] else errors;
    valid := |errors| == 0;
    NoErrorsIffAcceptable(form);
  }

  /**
   * The date, counterparty and name errors: a missing date, and a counterparty
   * shorter than 2 or a name shorter than 3 characters (an empty one
   * included).
   */
  lemma TextRules(form: FormData)
    ensures var e := RuleErrors(form);
      && (Date in e <==> form.date == "")
      && (Counterparty in e <==> |form.counterparty| < 2)
      && (Name in e <==> |form.name| < 3)
  {
  }

  /** The numeric errors: a quantity that is not positive, and strictly negative amounts (0 is accepted). */
  lemma AmountRules(form: FormData)
    ensures var e := RuleErrors(form);
      && (Quantity in e <==> form.quantity <= 0.0)
      && (PurchasePrice in e <==> form.purchasePrice < 0.0)
      && (TotalDelivery in e <==> form.totalDelivery < 0.0)
      && (SellingWithBonus in e <==> form.sellingWithBonus < 0.0)
      && (ClientBonus in e <==> form.clientBonus < 0.0)
  {
  }

  /** Every recorded error carries its field's message. */
  lemma RuleMessages(form: FormData)
    ensures var e := RuleErrors(form); forall k :: k in e ==> e[k] == Message(k)
  {
    TextMessages(form);
    AmountMessages(TextErrors(form), form);
  }

  lemma TextMessages(form: FormData)
    ensures Messaged(TextErrors(form))
  {
    var e0: map<Field, string> := map[];
    var e1 := Check(e0, Date, form.date == "");
    var e2 := Check(e1, Counterparty, form.counterparty == "" || |form.counterparty| < 2);
    CheckKeepsMessages(e0, Date, form.date == "");
    CheckKeepsMessages(e1, Counterparty, form.counterparty == "" || |form.counterparty| < 2);
    CheckKeepsMessages(e2, Name, form.name == "" || |form.name| < 3);
  }

  lemma AmountMessages(e: map<Field, string>, form: FormData)
    requires Messaged(e)
    ensures Messaged(AmountErrors(e, form))
  {
    var e1 := Check(e, Quantity, form.quantity <= 0.0);
    var e2 := Check(e1, PurchasePrice, form.purchasePrice < 0.0);
    var e3 := Check(e2, TotalDelivery, form.totalDelivery < 0.0);
    var e4 := Check(e3, SellingWithBonus, form.sellingWithBonus < 0.0);
    CheckKeepsMessages(e, Quantity, form.quantity <= 0.0);
    CheckKeepsMessages(e1, PurchasePrice, form.purchasePrice < 0.0);
    CheckKeepsMessages(e2, TotalDelivery, form.totalDelivery < 0.0);
    CheckKeepsMessages(e3, SellingWithBonus, form.sellingWithBonus < 0.0);
    CheckKeepsMessages(e4, ClientBonus, form.clientBonus < 0.0);
  }

  /** Every key of `e` carries its field's message. */
  predicate Messaged(e: map<Field, string>) {
    forall k :: k in e ==> e[k] == Message(k)
  }

  lemma CheckKeepsMessages(e: map<Field, string>, f: Field, fires: bool)
    requires Messaged(e)
    ensures Messaged(Check(e, f, fires))
  {
  }

  /** The error map is empty exactly when no rule fires. */
  lemma NoErrorsIffAcceptable(form: FormData)
    ensures |RuleErrors(form)| == 0 <==> Acceptable(form)
  {
    var errors := RuleErrors(form);
    TextRules(form);
    AmountRules(form);
    if |errors| != 0 {
      var k :| k in errors;
      match k
      case Date => case Counterparty => case Name => case Quantity =>
      case PurchasePrice => case TotalDelivery => case SellingWithBonus => case ClientBonus =>
    }
  }

  /** The colour of the margin badge. */
  datatype MarginColor = Green | Yellow | Red

  /** `getMarginColor`: green from 30%, yellow from 20%, red below. */
  function ColorOfMargin(margin: real): (c: MarginColor)
    ensures c == Green <==> margin >= 30.0
    ensures c == Yellow <==> 20.0 <= margin < 30.0
    ensures c == Red <==> margin < 20.0
  {
    if margin >= 30.0 then Green
    else if margin >= 20.0 then Yellow
    else Red
  }

  /** Rank of a colour, worst first. */
  function Rank(c: MarginColor): nat {
    match c
    case Red => 0
    case Yellow => 1
    case Green => 2
  }

  /** A higher margin never gets a worse colour. */
  lemma ColorMonotone(m1: real, m2: real)
    requires m1 <= m2
    ensures Rank(ColorOfMargin(m1)) <= Rank(ColorOfMargin(m2))
  {
  }

  /** `isLowSellingPrice`: the selling price is below the purchase price. */
  predicate IsLowSellingPrice(form: FormData) {
    form.sellingWithBonus < form.purchasePrice
  }

  /** The engine input taken from the form. */
  function InputOf(form: FormData): SalesInput {
    SalesInput(form.quantity, form.purchasePrice, form.totalDelivery, form.sellingWithBonus, form.clientBonus)
  }

  /**
   * The low-price warning is never a false alarm: for an acceptable form and a
   * non-negative financial load, a selling price below the purchase price
   * makes the markup over cost (M = P - K) negative.
   */
  lemma LowPriceMeansNegativeMarkup(form: FormData, config: FormulaConfig, customFormulas: CustomFormulas)
    requires RatesDefined(config)
    requires Acceptable(form) && config.financialLoadPercent >= 0.0
    requires IsLowSellingPrice(form)
    ensures CalculateWithSettings(InputOf(form), config, customFormulas).markup < 0.0
  {
    var r := CalculateWithSettings(InputOf(form), config, customFormulas);
    PerUnitAllocation(InputOf(form), config, customFormulas);
    assert r.deliveryPerUnit >= 0.0;
    assert r.unitBonusClient >= 0.0;
    assert r.sumWithDelivery >= form.purchasePrice;
    assert r.financialLoad == r.sumWithDelivery * (config.financialLoadPercent / 100.0);
    NonNegativeProduct(r.sumWithDelivery, config.financialLoadPercent / 100.0);
  }

  lemma NonNegativeProduct(a: real, b: real)
    requires a >= 0.0 && b >= 0.0
    ensures a * b >= 0.0
  {
  }

  /** The recomputation guard: derived values are refreshed only for a positive quantity once settings have loaded. */
  predicate ShouldRecalculate(form: FormData, settingsLoading: bool) {
    form.quantity > 0.0 && !settingsLoading
  }

  /**
   * Whenever the form recomputes, the engine takes its positive-quantity
   * branch: the delivery is spread over the units and the client bonus is
   * charged per unit, rather than the all-zero record.
   */
  lemma RecalculationAvoidsZeroBranch(form: FormData, settingsLoading: bool, config: FormulaConfig, customFormulas: CustomFormulas)
    requires RatesDefined(config)
    requires ShouldRecalculate(form, settingsLoading)
    ensures var r := CalculateWithSettings(InputOf(form), config, customFormulas);
      && r.deliveryPerUnit * form.quantity == form.totalDelivery
      && r.sellingPriceVat == form.sellingWithBonus - r.unitBonusClient
  {
    PerUnitAllocation(InputOf(form), config, customFormulas);
  }
}
