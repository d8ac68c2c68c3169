/**
 * Spreadsheet export and import of the formula settings. Export builds a
 * settings sheet (four rates) and a formulas sheet (one row per derived field:
 * letter, title, default formula, custom-or-default formula); import rebuilds
 * the rates and the custom-formula map from such sheets. The workbook library
 * is not modelled: a sheet is a sequence of rows of cells.
 */
module FormulaSpreadsheet {
  import opened Wrappers

  /** A cell as the sheet reader returns it: text, a number, or nothing (`undefined`). */
  datatype Cell = Text(text: string) | Num(n: real) | Empty

  type Row = seq<Cell>

  /** One derived field: its record key, spreadsheet letter, title and default formula. */
  datatype FormulaField = FormulaField(key: string, letter: string, title: string, formula: string)

  /** `FORMULA_FIELDS`, in table order. */
  const FormulaFields: seq<FormulaField> := [
    FormulaField("delivery_per_unit", "F", "Доставка за единицу", "F = H / D"),
    FormulaField("sum_with_delivery", "G", "Сумма за ед. с доставкой", "G = E + F"),
    FormulaField("financial_load", "J", "Финансовая нагрузка", "J = G * (I / 100)"),
    FormulaField("sum_with_load", "K", "Сумма с нагрузкой", "K = G + J"),
    FormulaField("markup", "M", "Накрутка", "M = P - K"),
    FormulaField("markup_percent", "L", "% накрутки", "L = (M / K) * 100"),
    FormulaField("selling_price_no_vat", "N", "Цена без НДС", "N = P - O"),
    FormulaField("nds_tax", "O", "НДС", "O = N * (НДС / 100)"),
    FormulaField("manager_bonus_unit", "S", "Бонус менеджера за ед.", "S = N * (R / 100)"),
    FormulaField("income_pre_kpn", "T", "Доход без КПН", "T = P - E - F - J - S - O"),
    FormulaField("kpn_tax", "U", "КПН", "U = T * (КПН / 100)"),
    FormulaField("net_income_unit", "V", "Чистый доход за ед.", "V = T - U"),
    FormulaField("margin_percent", "W", "Маржа в %", "W = (V / P) * 100"),
    FormulaField("total_selling_vat", "X", "Общая сумма с НДС", "X = D * P"),
    FormulaField("total_selling_bonus", "Y", "Общая сумма с бонусом", "Y = D * Q"),
    FormulaField("total_net_income", "Z", "Сумма чистого дохода", "Z = D * V"),
    FormulaField("total_purchase", "AA", "Общая сумма закупа", "AA = D * E"),
    FormulaField("total_expenses", "AB", "Сумма общих расходов", "AB = AA + H + (D * J) + (D * S) + (D * O) + (D * U)"),
    FormulaField("total_manager_bonuses", "AC", "Общая сумма бонусов менеджера", "AC = D * S"),
    FormulaField("unit_bonus_client", "AD", "Бонус за ед.", "AD = AE / D"),
    FormulaField("total_client_bonus_post_tax", "AF", "Общий бонус клиент с вычетом налога", "AF = AE / (1 + налог/100)")
  ]

  /** The four rates the sheet carries (the corporate-tax rate is not among them). */
  datatype SheetConfig = SheetConfig(
    financialLoadPercent: real,
    vatRate: real,
    managerBonusPercent: real,
    clientBonusTaxRate: real
  )

  const LoadLabel: string := "Финансовая нагрузка (%)"
  const VatLabel: string := "НДС (%)"
  const BonusLabel: string := "Бонус менеджера (%)"
  const ClientTaxLabel: string := "Налог на бонус клиента (%)"

  /** The rates import starts from, and falls back to. */
  const DefaultConfig: SheetConfig := SheetConfig(5.0, 12.0, 3.0, 32.0)

  // ---------------------------------------------------------------- export

  /** The settings sheet: a header and one row per rate. */
  function SettingsRows(config: SheetConfig): (r: seq<Row>)
    ensures |r| == 5 && forall i :: 0 <= i < |r| ==> |r[i]| == 3
    ensures forall i :: 1 <= i < |r| ==> r[i][0].Text? && r[i][1].Num?
  {
    [ [Text("Параметр"), Text("Значение"), Text("Описание")],
      [Text(LoadLabel), Num(config.financialLoadPercent), Text("Процент финансовой нагрузки")],
      [Text(VatLabel), Num(config.vatRate), Text("Ставка НДС")],
      [Text(BonusLabel), Num(config.managerBonusPercent), Text("Процент бонуса менеджера")],
      [Text(ClientTaxLabel), Num(config.clientBonusTaxRate), Text("Налог на бонус клиента")] ]
  }

  /** `customFormulas[key] || formula`: the custom text unless it is missing or empty. */
  function CustomOrDefault(customFormulas: map<string, string>, f: FormulaField): string {
    if f.key in customFormulas && customFormulas[f.key] != "" then customFormulas[f.key] else f.formula
  }

  function FormulaRow(f: FormulaField, customFormulas: map<string, string>): Row {
    [Text(f.letter), Text(f.title), Text(f.formula), Text(CustomOrDefault(customFormulas, f))]
  }

  const FormulasHeader: Row := [Text("Буква"), Text("Название"), Text("Формула"), Text("Кастомная формула")]

  /** The formulas sheet: the header, then one row per field of `FormulaFields`, in table order. */
  function FormulaRows(customFormulas: map<string, string>): (r: seq<Row>)
    ensures |r| == |FormulaFields| + 1 && r[0] == FormulasHeader
    ensures forall i :: 1 <= i < |r| ==> |r[i]| == 4 && r[i][0] == Text(FormulaFields[i - 1].letter)
  {
    [FormulasHeader] + RowsOf(FormulaFields, customFormulas)
  }

  function RowsOf(fields: seq<FormulaField>, customFormulas: map<string, string>): seq<Row> {
    seq(|fields|, i requires 0 <= i < |fields| => FormulaRow(fields[i], customFormulas))
  }

  // ---------------------------------------------------------------- import

  /** `row[i]`, which is `undefined` past the end of the row. */
  function CellAt(row: Row, i: nat): Cell {
    if i < |row| then row[i] else Empty
  }

  /** `rows.slice(1)`. */
  function Body(rows: seq<Row>): seq<Row> {
    if |rows| == 0 then [] else rows[1..]
  }

  /** JavaScript truthiness of a cell. */
  predicate Truthy(c: Cell) {
    match c
    case Text(s) => s != ""
    case Num(n) => n != 0.0
    case Empty => false
  }

  predicate IsDigit(c: char) {
    '0' <= c <= '9'
  }

  function DigitsValue(s: string): int
    requires forall i :: 0 <= i < |s| ==> IsDigit(s[i])
  {
    if |s| == 0 then 0 else 10 * DigitsValue(s[..|s| - 1]) + (s[|s| - 1] as int - '0' as int)
  }

  /** `Number(cell)`, with None for NaN. Text is read as a number only when it is all decimal digits. */
  function ToNumber(c: Cell): Option<real> {
    match c
    case Num(n) => Some(n)
    case Empty => None
    case Text(s) =>
      if s == "" then Some(0.0)
      else if forall i :: 0 <= i < |s| ==> IsDigit(s[i]) then Some(DigitsValue(s) as real)
      else None
  }

  /** `Number(cell) || fallback`: the number unless it is 0 or NaN. */
  function NumberOr(c: Cell, fallback: real): real {
    var n := ToNumber(c);
    if n.Some? && n.value != 0.0 then n.value else fallback
  }

  /** One settings row: a recognised label sets its rate. */
  function ApplySettingsRow(config: SheetConfig, row: Row): SheetConfig {
    var c := config;
    var c := if CellAt(row, 0) == Text(LoadLabel) then c.(financialLoadPercent := NumberOr(CellAt(row, 1), 5.0)) else c;
    var c := if CellAt(row, 0) == Text(VatLabel) then c.(vatRate := NumberOr(CellAt(row, 1), 12.0)) else c;
    var c := if CellAt(row, 0) == Text(BonusLabel) then c.(managerBonusPercent := NumberOr(CellAt(row, 1), 3.0)) else c;
    if CellAt(row, 0) == Text(ClientTaxLabel) then c.(clientBonusTaxRate := NumberOr(CellAt(row, 1), 32.0)) else c
  }

  /** The settings rows applied in order to `config`. */
  function ApplySettingsRows(config: SheetConfig, rows: seq<Row>): SheetConfig
    decreases |rows|
  {
    if |rows| == 0 then config else ApplySettingsRows(ApplySettingsRow(config, rows[0]), rows[1..])
  }

  /** Reading the settings sheet: start from the defaults and apply every row after the header. */
  method ImportSettings(rows: seq<Row>) returns (config: SheetConfig)
    ensures config == ApplySettingsRows(DefaultConfig, Body(rows))
  {
    var body := Body(rows);
    config := DefaultConfig;
    var i := 0;
    while i < |body|
      invariant 0 <= i <= |body|
      invariant ApplySettingsRows(config, body[i..]) == ApplySettingsRows(DefaultConfig, body)
    {
      assert body[i..][1..] == body[i + 1..];
      config := ApplySettingsRow(config, body[i]);
      i := i + 1;
    }
  }

  /** `FORMULA_FIELDS.find(f => f.letter === cell)?.key`. */
  function KeyOfLetter(fields: seq<FormulaField>, c: Cell): (k: Option<string>)
    ensures k.Some? ==> exists i :: 0 <= i < |fields| && Text(fields[i].letter) == c && fields[i].key == k.value
    ensures k.None? <==> forall i :: 0 <= i < |fields| ==> Text(fields[i].letter) != c
  {
    if |fields| == 0 then None
    else if Text(fields[0].letter) == c then Some(fields[0].key)
    else
      var k := KeyOfLetter(fields[1..], c);
      assert k.Some? ==> exists i :: 0 <= i < |fields| && Text(fields[i].letter) == c && fields[i].key == k.value by {
        if k.Some? {
          var i :| 0 <= i < |fields[1..]| && Text(fields[1..][i].letter) == c && fields[1..][i].key == k.value;
          assert fields[i + 1] == fields[1..][i];
        }
      }
      assert k.None? ==> forall i :: 0 <= i < |fields| ==> Text(fields[i].letter) != c by {
        if k.None? {
          forall i | 0 <= i < |fields| ensures Text(fields[i].letter) != c {
            if i > 0 { assert fields[i] == fields[1..][i - 1]; }
          }
        }
      }
      k
  }

  /**
   * One formulas row: kept only if letter, title and custom cell are all
   * truthy, the letter names a field of `table` (the importer passes
   * `FormulaFields`), and the custom cell differs from the default-formula
   * cell; then the field's key maps to the custom cell.
   */
  function ApplyFormulaRow(table: seq<FormulaField>, formulas: map<string, Cell>, row: Row): map<string, Cell> {
    if Truthy(CellAt(row, 0)) && Truthy(CellAt(row, 1)) && Truthy(CellAt(row, 3)) then
      var key := KeyOfLetter(table, CellAt(row, 0));
      if key.Some? && key.value != "" && CellAt(row, 3) != CellAt(row, 2) then formulas[key.value := CellAt(row, 3)]
      else formulas
    else formulas
  }

  function ApplyFormulaRows(table: seq<FormulaField>, formulas: map<string, Cell>, rows: seq<Row>): map<string, Cell>
    decreases |rows|
  {
    if |rows| == 0 then formulas else ApplyFormulaRows(table, ApplyFormulaRow(table, formulas, rows[0]), rows[1..])
  }

  /** The keys of `FormulaFields`. */
  function FieldKeys(): set<string> {
    set i | 0 <= i < |FormulaFields| :: FormulaFields[i].key
  }

  /** Reading the formulas sheet: start from an empty map and apply every row after the header. */
  method ImportFormulas(rows: seq<Row>) returns (formulas: map<string, Cell>)
    ensures formulas == ApplyFormulaRows(FormulaFields, map[], Body(rows))
    ensures formulas.Keys <= FieldKeys()
  {
    var body := Body(rows);
    formulas := map[];
    var i := 0;
    while i < |body|
      invariant 0 <= i <= |body|
      invariant ApplyFormulaRows(FormulaFields, formulas, body[i..]) == ApplyFormulaRows(FormulaFields, map[], body)
      invariant formulas.Keys <= FieldKeys()
    {
      assert body[i..][1..] == body[i + 1..];
      var row := body[i];
      if Truthy(CellAt(row, 0)) && Truthy(CellAt(row, 1)) && Truthy(CellAt(row, 3)) {
        var key := KeyOfLetter(FormulaFields, CellAt(row, 0));
        if key.Some? && key.value != "" && CellAt(row, 3) != CellAt(row, 2) {
          formulas := formulas[key.value := CellAt(row, 3)];
        }
      }
      i := i + 1;
    }
  }

  // ---------------------------------------------------------------- round trips

  /** A field is customised when its custom text is present, non-empty and not its default formula. */
  predicate Customised(customFormulas: map<string, string>, f: FormulaField) {
    f.key in customFormulas && customFormulas[f.key] != "" && customFormulas[f.key] != f.formula
  }

  /** Some field of `fields` with key `k` is customised. */
  ghost predicate CustomisedIn(fields: seq<FormulaField>, customFormulas: map<string, string>, k: string) {
    exists j :: 0 <= j < |fields| && fields[j].key == k && Customised(customFormulas, fields[j])
  }

  /** A field with non-empty texts whose letter leads back to it in `table`. */
  predicate RegisteredField(table: seq<FormulaField>, f: FormulaField) {
    && f.letter != "" && f.title != "" && f.formula != "" && f.key != ""
    && KeyOfLetter(table, Text(f.letter)) == Some(f.key)
  }

  predicate Registered(table: seq<FormulaField>, fields: seq<FormulaField>) {
    forall j :: 0 <= j < |fields| ==> RegisteredField(table, fields[j])
  }

  /**
   * `r` is `m` with exactly the keys customised in `fields` added, each
   * mapped to its custom text.
   */
  ghost predicate ImportedAs(r: map<string, Cell>, m: map<string, Cell>, fields: seq<FormulaField>, customFormulas: map<string, string>) {
    forall k ::
      && (k in r <==> k in m || CustomisedIn(fields, customFormulas, k))
      && (k in r ==> r[k] == if CustomisedIn(fields, customFormulas, k) then Text(customFormulas[k]) else m[k])
  }

  /** The row exported for a registered field is imported as its custom text exactly when it is customised. */
  lemma RowOfRegisteredField(table: seq<FormulaField>, m: map<string, Cell>, f: FormulaField, customFormulas: map<string, string>)
    requires RegisteredField(table, f)
    ensures ApplyFormulaRow(table, m, FormulaRow(f, customFormulas))
         == if Customised(customFormulas, f) then m[f.key := Text(customFormulas[f.key])] else m
  {
  }

  lemma CustomisedInCons(fields: seq<FormulaField>, customFormulas: map<string, string>, k: string)
    requires |fields| > 0
    ensures CustomisedIn(fields, customFormulas, k) <==>
      (fields[0].key == k && Customised(customFormulas, fields[0])) || CustomisedIn(fields[1..], customFormulas, k)
  {
    if CustomisedIn(fields, customFormulas, k) {
      var j :| 0 <= j < |fields| && fields[j].key == k && Customised(customFormulas, fields[j]);
      if j > 0 { assert fields[1..][j - 1] == fields[j]; }
    }
    if CustomisedIn(fields[1..], customFormulas, k) {
      var j :| 0 <= j < |fields[1..]| && fields[1..][j].key == k && Customised(customFormulas, fields[1..][j]);
      assert fields[j + 1] == fields[1..][j];
    }
  }

  /** Importing the rows of registered fields adds exactly the customised keys, each mapped to its custom text. */
  lemma {:induction false} FormulaRowsRoundTrip(table: seq<FormulaField>, m: map<string, Cell>, fields: seq<FormulaField>,
                                                customFormulas: map<string, string>)
    requires Registered(table, fields)
    decreases |fields|
    ensures ImportedAs(ApplyFormulaRows(table, m, RowsOf(fields, customFormulas)), m, fields, customFormulas)
  {
    var r := ApplyFormulaRows(table, m, RowsOf(fields, customFormulas));
    if |fields| == 0 {
      assert r == m;
    } else {
      var f := fields[0];
      var m' := if Customised(customFormulas, f) then m[f.key := Text(customFormulas[f.key])] else m;
      FirstRowImported(table, m, fields, customFormulas);
      RegisteredTail(table, fields);
      FormulaRowsRoundTrip(table, m', fields[1..], customFormulas);
      ImportedAsStep(r, m, fields, customFormulas);
    }
  }

  /** Importing the rows of a field list is importing its first field's row, then the rest. */
  lemma FirstRowImported(table: seq<FormulaField>, m: map<string, Cell>, fields: seq<FormulaField>,
                         customFormulas: map<string, string>)
    requires |fields| > 0 && Registered(table, fields)
    ensures var f := fields[0];
      ApplyFormulaRows(table, m, RowsOf(fields, customFormulas))
      == ApplyFormulaRows(table, if Customised(customFormulas, f) then m[f.key := Text(customFormulas[f.key])] else m,
                          RowsOf(fields[1..], customFormulas))
  {
    var rows := RowsOf(fields, customFormulas);
    assert rows[0] == FormulaRow(fields[0], customFormulas);
    assert rows[1..] == RowsOf(fields[1..], customFormulas);
    assert RegisteredField(table, fields[0]);
    RowOfRegisteredField(table, m, fields[0], customFormulas);
  }

  lemma RegisteredTail(table: seq<FormulaField>, fields: seq<FormulaField>)
    requires |fields| > 0 && Registered(table, fields)
    ensures Registered(table, fields[1..])
  {
    forall j | 0 <= j < |fields[1..]| ensures RegisteredField(table, fields[1..][j]) {
      assert fields[1..][j] == fields[j + 1];
    }
  }

  /** Importing the first field's row and then the rest's is importing all of them. */
  lemma ImportedAsStep(r: map<string, Cell>, m: map<string, Cell>, fields: seq<FormulaField>, customFormulas: map<string, string>)
    requires |fields| > 0
    requires ImportedAs(r, if Customised(customFormulas, fields[0]) then m[fields[0].key := Text(customFormulas[fields[0].key])] else m,
                        fields[1..], customFormulas)
    ensures ImportedAs(r, m, fields, customFormulas)
  {
    forall k
      ensures && (k in r <==> k in m || CustomisedIn(fields, customFormulas, k))
              && (k in r ==> r[k] == if CustomisedIn(fields, customFormulas, k) then Text(customFormulas[k]) else m[k])
    {
      CustomisedInCons(fields, customFormulas, k);
    }
  }

  /** The letters of `FormulaFields`, in table order. */
  function Letters(): seq<string> {
    seq(|FormulaFields|, i requires 0 <= i < |FormulaFields| => FormulaFields[i].letter)
  }

  /** The keys of `FormulaFields`, in table order. */
  function Keys(): seq<string> {
    seq(|FormulaFields|, i requires 0 <= i < |FormulaFields| => FormulaFields[i].key)
  }

  lemma LettersAreDistinct()
    ensures forall a, b :: 0 <= a < b < |FormulaFields| ==> FormulaFields[a].letter != FormulaFields[b].letter
  {
    var ls := Letters();
    assert ls == LetterTable;
    LetterTableDistinct();
    assert forall a :: 0 <= a < |FormulaFields| ==> FormulaFields[a].letter == ls[a];
  }

  /** The keys of `FormulaFields` are distinct. */
  lemma KeysAreDistinct()
    ensures forall a, b :: 0 <= a < b < |FormulaFields| ==> FormulaFields[a].key != FormulaFields[b].key
  {
    var ks := Keys();
    assert ks == KeyTable;
    KeyTableDistinct();
    assert forall a :: 0 <= a < |FormulaFields| ==> FormulaFields[a].key == ks[a];
  }

  const LetterTable: seq<string> :=
    ["F", "G", "J", "K", "M", "L", "N", "O", "S", "T", "U", "V", "W", "X", "Y", "Z", "AA", "AB", "AC", "AD", "AF"]

  const KeyTable: seq<string> :=
    ["delivery_per_unit", "sum_with_delivery", "financial_load", "sum_with_load", "markup",
     "markup_percent", "selling_price_no_vat", "nds_tax", "manager_bonus_unit", "income_pre_kpn", "kpn_tax",
     "net_income_unit", "margin_percent", "total_selling_vat", "total_selling_bonus", "total_net_income",
     "total_purchase", "total_expenses", "total_manager_bonuses", "unit_bonus_client", "total_client_bonus_post_tax"]

  lemma LetterTableDistinct()
    ensures forall a, b :: 0 <= a < b < |LetterTable| ==> LetterTable[a] != LetterTable[b]
  {
  }

  lemma KeyTableDistinct()
    ensures forall a, b :: 0 <= a < b < |KeyTable| ==> KeyTable[a] != KeyTable[b]
  {
  }

  /** With distinct letters, looking up the letter of field i finds field i. */
  lemma {:induction false} LetterFindsItsField(fields: seq<FormulaField>, i: nat)
    requires i < |fields|
    requires forall a, b :: 0 <= a < b < |fields| ==> fields[a].letter != fields[b].letter
    ensures KeyOfLetter(fields, Text(fields[i].letter)) == Some(fields[i].key)
  {
    if i > 0 {
      assert fields[1..][i - 1] == fields[i];
      assert fields[0].letter != fields[i].letter;
      LetterFindsItsField(fields[1..], i - 1);
    }
  }

  /** Every entry of `FormulaFields` is registered: letters are distinct and no text is empty. */
  lemma FormulaFieldsRegistered()
    ensures Registered(FormulaFields, FormulaFields)
  {
    LettersAreDistinct();
    assert forall j :: 0 <= j < |FormulaFields| ==>
      FormulaFields[j].letter != "" && FormulaFields[j].key != "" && FormulaFields[j].title != "" && FormulaFields[j].formula != "";
    forall j | 0 <= j < |FormulaFields|
      ensures KeyOfLetter(FormulaFields, Text(FormulaFields[j].letter)) == Some(FormulaFields[j].key)
    {
      LetterFindsItsField(FormulaFields, j);
    }
  }

  /**
   * Formula round trip: importing the exported formulas sheet yields exactly
   * the keys of the fields whose custom text is non-empty and differs from the
   * default formula, each mapped to that custom text.
   */
  lemma FormulaSheetRoundTrip(customFormulas: map<string, string>)
    ensures var r := ApplyFormulaRows(FormulaFields, map[], Body(FormulaRows(customFormulas)));
      && r.Keys <= FieldKeys()
      && forall i :: 0 <= i < |FormulaFields| ==>
           (FormulaFields[i].key in r <==> Customised(customFormulas, FormulaFields[i]))
           && (FormulaFields[i].key in r ==> r[FormulaFields[i].key] == Text(customFormulas[FormulaFields[i].key]))
  {
    FormulaFieldsRegistered();
    assert Body(FormulaRows(customFormulas)) == RowsOf(FormulaFields, customFormulas);
    FormulaRowsRoundTrip(FormulaFields, map[], FormulaFields, customFormulas);
    var r := ApplyFormulaRows(FormulaFields, map[], Body(FormulaRows(customFormulas)));
    ImportedFromFieldKeys(r, customFormulas);
    ImportedPerField(r, customFormulas);
  }

  /** What is imported into an empty map from the fields' rows is keyed by field keys. */
  lemma ImportedFromFieldKeys(r: map<string, Cell>, customFormulas: map<string, string>)
    requires ImportedAs(r, map[], FormulaFields, customFormulas)
    ensures r.Keys <= FieldKeys()
  {
    forall k | k in r ensures k in FieldKeys() {
      var j :| 0 <= j < |FormulaFields| && FormulaFields[j].key == k && Customised(customFormulas, FormulaFields[j]);
    }
  }

  /** With distinct keys, a field's key is imported exactly when that field is customised. */
  lemma ImportedPerField(r: map<string, Cell>, customFormulas: map<string, string>)
    requires ImportedAs(r, map[], FormulaFields, customFormulas)
    ensures forall i :: 0 <= i < |FormulaFields| ==>
      (FormulaFields[i].key in r <==> Customised(customFormulas, FormulaFields[i]))
      && (FormulaFields[i].key in r ==> r[FormulaFields[i].key] == Text(customFormulas[FormulaFields[i].key]))
  {
    KeysAreDistinct();
    forall i | 0 <= i < |FormulaFields|
      ensures FormulaFields[i].key in r <==> Customised(customFormulas, FormulaFields[i])
    {
      if CustomisedIn(FormulaFields, customFormulas, FormulaFields[i].key) {
        var j :| 0 <= j < |FormulaFields| && FormulaFields[j].key == FormulaFields[i].key
                 && Customised(customFormulas, FormulaFields[j]);
        assert i == j;
      }
    }
  }

  /**
   * Settings round trip: importing the exported settings sheet gives back each
   * of the four rates, except that a rate of 0 comes back as its default.
   */
  lemma SettingsSheetRoundTrip(config: SheetConfig)
    ensures ApplySettingsRows(DefaultConfig, Body(SettingsRows(config))) == SheetConfig(
      if config.financialLoadPercent != 0.0 then config.financialLoadPercent else 5.0,
      if config.vatRate != 0.0 then config.vatRate else 12.0,
      if config.managerBonusPercent != 0.0 then config.managerBonusPercent else 3.0,
      if config.clientBonusTaxRate != 0.0 then config.clientBonusTaxRate else 32.0)
  {
    var body := Body(SettingsRows(config));
    assert |LoadLabel| == 23 && |VatLabel| == 7 && |BonusLabel| == 19 && |ClientTaxLabel| == 26;
    var c1 := ApplySettingsRow(DefaultConfig, body[0]);
    var c2 := ApplySettingsRow(c1, body[1]);
    var c3 := ApplySettingsRow(c2, body[2]);
    var c4 := ApplySettingsRow(c3, body[3]);
    assert ApplySettingsRows(DefaultConfig, body) == ApplySettingsRows(c1, body[1..]);
    assert ApplySettingsRows(c1, body[1..]) == ApplySettingsRows(c2, body[2..]) by { assert body[1..][1..] == body[2..]; }
    assert ApplySettingsRows(c2, body[2..]) == ApplySettingsRows(c3, body[3..]) by { assert body[2..][1..] == body[3..]; }
    assert ApplySettingsRows(c3, body[3..]) == ApplySettingsRows(c4, body[4..]) by { assert body[3..][1..] == body[4..]; }
    assert body[4..] == [];
  }

  /** Rows with an unknown letter leave the imported formulas unchanged. */
  lemma UnknownLetterIgnored(table: seq<FormulaField>, formulas: map<string, Cell>, row: Row)
    requires forall i :: 0 <= i < |table| ==> Text(table[i].letter) != CellAt(row, 0)
    ensures ApplyFormulaRow(table, formulas, row) == formulas
  {
  }
}
