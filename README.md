# Sales records: derivation engine, stores, forms, tables and dashboards

This project is a Dafny model of the computational core of a small sales-accounting web
application. The application's interface is in Russian. A manager enters five raw figures
for a sale:
- quantity D
- purchase price E
- total delivery H
- selling price with the client bonus Q
- total client bonus AE

The derivation engine turns these into about twenty-five derived money and percent
fields, using five rates:
- financial load
- VAT (НДС)
- manager bonus
- corporate tax (КПН)
- client-bonus tax

The rest of the core is the logic around the engine:
- an older engine variant with fixed rates;
- a per-user cache of formula settings with a five-minute lifetime;
- the user store, with its email-uniqueness and last-administrator guards;
- the spreadsheet export and import of formula settings;
- the validators of the sales-record form and of the user form;
- the column operations of the records table (visibility, drag-and-drop reorder,
  alignment cycle, resize);
- the aggregations of the dashboards page and of the analytics charts.

Modules, one per source file, plus shared ones:

| module | file | models |
|---|---|---|
| `Wrappers` | wrappers.dfy | `Option`, `Result` |
| `SalesEngine` | engine.dfy | lib/calculations-with-settings.ts |
| `LegacyEngine` | legacy_engine.dfy | lib/calculations.ts |
| `FormulaSettingsCache` | settings_cache.dfy | lib/formula-settings-cache.ts (a class over a map) |
| `UserStorage` | user_storage.dfy | lib/user-storage.ts (a class over the users list) |
| `FormulaSpreadsheet` | formula_sheet.dfy | components/admin/formula-excel-export.tsx |
| `RecordForm` | record_form.dfy | components/sales/record-form.tsx |
| `UserForm` | user_form.dfy | components/admin/user-form.tsx |
| `Columns` | columns.dfy | the column configuration both column components share |
| `ColumnVisibility` | column_visibility.dfy | components/admin/column-visibility-control.tsx |
| `DraggableTable` | draggable_table.dfy | components/admin/draggable-table.tsx |
| `Records` | records.dfy | the stored sales row, with its sums and groupings, as the dashboards and charts read it |
| `Sorting` | sorting.dfy | the descending sort by a numeric key used by the rating table and the top products |
| `Dashboards` | dashboards.dfy | app/dashboards/page.tsx |
| `SalesCharts` | sales_charts.dfy | components/analytics/sales-charts.tsx |

How each kind of source code is modelled:
- Code that mutates state is modelled as classes, or as methods proved equal to
  specification functions. The settings cache and the user store are classes. The
  spreadsheet import loops, the KPI reducer, the creator grouping, the margin buckets
  and the product grouping are methods with loops and invariants. The two error-map
  builders and the drop handler are methods without loops, built step by step.
- Pure expressions become functions with lemmas.
- The clock, generated ids and creation times are parameters.

## Model

| member | source | states |
|---|---|---|
| SalesEngine.CalculateWithSettings | lib/calculations-with-settings.ts:15-168 | The five inputs are echoed unchanged. The load and bonus percents pass through from the config. For quantity ≤ 0 every derived field is 0, including AF. AF is always present. |
| SalesEngine.IgnoresCustomFormulas | lib/calculations-with-settings.ts:24-167 | The result is the same for any custom-formulas argument, because the parameter is never read. |
| SalesEngine.VatSplit | lib/calculations-with-settings.ts:94-96 | VAT is backed out of the VAT-inclusive price: N + O = P. For D > 0, O·(100+vat) = P·vat. |
| SalesEngine.GuardedPercents | lib/calculations-with-settings.ts:90-114 | Markup % is 0 when K = 0, and otherwise L·K = M·100. Margin % is 0 when P = 0, and otherwise W·P = V·100. |
| SalesEngine.PerUnitAllocation | lib/calculations-with-settings.ts:66-84 | For D > 0: F·D = H, AD·D = AE, and P = Q − AE/D. |
| SalesEngine.IncomeChain | lib/calculations-with-settings.ts:69-111 | The pre-tax income is T = M − S − O. The net income is V = T·(1 − kpn/100). Corporate tax plus net income equals T. |
| SalesEngine.UnitChain | lib/calculations-with-settings.ts:66-111 | For D > 0, the per-unit chain holds: G = E + F, K = G + J, M = P − K and P = Q − AD. The pre-tax income is T = P − E − F − J − S − O, and the net income is V = T − U. |
| SalesEngine.BatchTotals | lib/calculations-with-settings.ts:117-132 | X, Y, Z, AA and AC are D times P, Q, V, E and S (`Batch` is quantity × per-unit amount). AB = AA + H + D·(J+S+O+U). |
| SalesEngine.BatchReconciliation | lib/calculations-with-settings.ts:117-132 | AB is D times all per-unit costs (E+F+J+S+O+U). The total net income is the total sale less the total expenses. Y − X is the client bonus. |
| SalesEngine.ClientBonusPostTax | lib/calculations-with-settings.ts:135 | AF·(1 + rate/100) = AE. 0 ≤ AF ≤ AE when AE ≥ 0 and rate ≥ 0. |
| LegacyEngine.CalculateSalesRecord | lib/calculations.ts:51-185 | Inputs are echoed and the load/bonus percents are 5 and 3. For quantity ≤ 0 every derived field is 0. AF is absent exactly when quantity > 0. |
| LegacyEngine.AgreesWithSettingsEngine | lib/calculations.ts:85-185 | For D > 0, every field equals the settings engine's result under rates 5/12/3/20, except AF, which is absent. For D ≤ 0 the two results are equal. |
| LegacyEngine.FixedRateFormulas | lib/calculations.ts:92-134 | O·112 = P·12, N + O = P, U = 0.2·T, T = P − S − K − O. L = 0 when K = 0, and W = 0 when P = 0. |
| FormulaSettingsCache.SettingsCache.constructor | lib/formula-settings-cache.ts:21 | The cache starts empty. |
| FormulaSettingsCache.SettingsCache.IsValid | lib/formula-settings-cache.ts:63-68 | `isCacheValid`: a valid user has an entry, and that entry is also valid at every earlier time. |
| FormulaSettingsCache.SettingsCache.Get | lib/formula-settings-cache.ts:23-40 | Returns null for a user without an entry. Returns the entry's settings exactly when it is valid (not older than 300000 ms). Deletes only that user's expired entry. |
| FormulaSettingsCache.SettingsCache.Set | lib/formula-settings-cache.ts:42-53 | Stores (config, formulas, now, user) under the user and changes no other entry. |
| FormulaSettingsCache.SettingsCache.Clear | lib/formula-settings-cache.ts:55-61 | With a user, removes only that user's entry. Without one (or with an empty one), empties the cache. |
| FormulaSettingsCache.SetThenGet | lib/formula-settings-cache.ts:31-53 | After a set at time t, a get at any now ≤ t + 300000 returns exactly what was set, and the entry is valid. |
| FormulaSettingsCache.GetAfterExpiry | lib/formula-settings-cache.ts:31-34 | An entry older than the lifetime is deleted and null is returned, also on the next read. |
| UserStorage.IndexOf | lib/user-storage.ts:77 | `findIndex` on the id or the email: the index of the first user whose field has the value, or −1 exactly when there is none. |
| UserStorage.WithoutId | lib/user-storage.ts:109 | Keeps exactly the users whose id differs. It has the same length exactly when no user has the id. |
| UserStorage.UserStore.constructor | lib/user-storage.ts:10-27 | The store starts with the two default users. |
| UserStorage.UserStore.GetById | lib/user-storage.ts:46-49 | Returns the first stored user with the id (no earlier user has it), or null exactly when no user has it. |
| UserStorage.UserStore.GetByEmail | lib/user-storage.ts:51-54 | Returns the first stored user with the email (no earlier user has it), or null exactly when no user has it. |
| UserStorage.UserStore.Create | lib/user-storage.ts:56-73 | Fails, changing nothing, exactly when the email is taken. Otherwise appends exactly one user with the given id and creation time. Emails stay pairwise distinct. |
| UserStorage.UserStore.Update | lib/user-storage.ts:75-95 | Returns null and changes nothing for an unknown id. Fails, changing nothing, when the email guard fires. Otherwise overwrites only the supplied fields of the first user with the id. Emails stay distinct when they were distinct, the ids are distinct and the new email is not empty. |
| UserStorage.UserStore.Delete | lib/user-storage.ts:97-115 | Fails, changing nothing, exactly when the user is an administrator and at most one exists. Otherwise removes exactly the users with the id and returns whether any existed. When the ids are distinct, an administrator remains if there was one. |
| UserStorage.UserStore.ChangePassword | lib/user-storage.ts:117-126 | Returns false and changes nothing for an unknown id. Otherwise changes only that user's password. |
| UserStorage.DefaultUsersWellFormed | lib/user-storage.ts:10-27 | The default users have distinct emails and ids, and exactly one administrator. |
| UserStorage.CreateKeepsEmailsDistinct | lib/user-storage.ts:60-70 | Appending a user whose email is not taken keeps emails distinct. |
| UserStorage.UpdateKeepsEmailsDistinct | lib/user-storage.ts:82-91 | With distinct ids, an update that passes the guard, with a non-empty new email, keeps emails distinct. |
| UserStorage.EmptyEmailUpdateCanDuplicate | lib/user-storage.ts:82-91 | A concrete store in which an update to the empty email skips the guard and duplicates another user's email. |
| UserStorage.AdminCountWithout | lib/user-storage.ts:103-109 | The admin count splits into the admins kept by the filter plus the admins with the id. |
| UserStorage.DeleteKeepsAnAdmin | lib/user-storage.ts:101-109 | With distinct ids, if the guard lets a delete through, at least one administrator remains. |
| UserStorage.DuplicateIdDeleteRemovesLastAdmin | lib/user-storage.ts:101-109 | A concrete store with a manager and the only administrator sharing an id: the guard lets the delete through and no administrator remains. |
| UserStorage.DuplicateIdUpdateCanDuplicate | lib/user-storage.ts:82-91 | A concrete store with two users sharing an id: an update passes the guard and gives both the same email. |
| FormulaSpreadsheet.ImportSettings | components/admin/formula-excel-export.tsx:129-142 | The loop's result is the fold of the rows after the header, starting from {5, 12, 3, 32}. |
| FormulaSpreadsheet.KeyOfLetter | components/admin/formula-excel-export.tsx:153 | Returns the key of a field with that letter, or nothing exactly when no field has it. |
| FormulaSpreadsheet.ImportFormulas | components/admin/formula-excel-export.tsx:148-158 | The loop's result is the fold of the rows after the header. Every imported key is a field key. |
| FormulaSpreadsheet.LetterFindsItsField | components/admin/formula-excel-export.tsx:153 | With distinct letters, each field's letter finds that field's key. |
| FormulaSpreadsheet.LettersAreDistinct | components/admin/formula-excel-export.tsx:27-49 | No two formula fields share a letter. |
| FormulaSpreadsheet.KeysAreDistinct | components/admin/formula-excel-export.tsx:27-49 | No two formula fields share a key. |
| FormulaSpreadsheet.FormulaRowsRoundTrip | components/admin/formula-excel-export.tsx:75-83 | Importing the rows of any field list registered in a lookup table adds exactly the customised fields' keys, each mapped to its custom text. Other keys keep their values. |
| FormulaSpreadsheet.FormulaSheetRoundTrip | components/admin/formula-excel-export.tsx:75-158 | Importing the exported formulas sheet yields exactly the keys whose custom text is non-empty and differs from the default formula, each mapped to that text. |
| FormulaSpreadsheet.SettingsSheetRoundTrip | components/admin/formula-excel-export.tsx:63-142 | Importing the exported settings sheet gives back the four rates, except that a rate of 0 comes back as its default. |
| FormulaSpreadsheet.UnknownLetterIgnored | components/admin/formula-excel-export.tsx:153-154 | A row whose letter matches no field of the lookup table leaves the imported formulas unchanged. |
| FormulaSpreadsheet.SettingsRows | components/admin/formula-excel-export.tsx:63-70 | The settings sheet: five rows of three cells, each rate row a caption and a number. |
| FormulaSpreadsheet.FormulaRows | components/admin/formula-excel-export.tsx:75-83 | The formulas sheet: the header, then one four-cell row per formula field, in table order, each starting with its field's letter. |
| RecordForm.ValidateForm | components/sales/record-form.tsx:88-106 | The error map equals the rule specification. The form is valid exactly when it is acceptable. |
| RecordForm.TextRules | components/sales/record-form.tsx:91-97 | The date error fires iff the date is empty. The counterparty error fires iff it is shorter than 2. The name error fires iff it is shorter than 3. |
| RecordForm.AmountRules | components/sales/record-form.tsx:98-102 | The quantity error fires iff quantity ≤ 0. The price, delivery, selling-price and bonus errors fire only for negative values, so 0 is accepted. |
| RecordForm.RuleMessages | components/sales/record-form.tsx:91-102 | Each error carries its field's fixed message. |
| RecordForm.NoErrorsIffAcceptable | components/sales/record-form.tsx:104-105 | The error map is empty exactly when no rule fires. |
| RecordForm.ColorOfMargin | components/sales/record-form.tsx:142-146 | Green iff margin ≥ 30. Yellow iff 20 ≤ margin < 30. Red iff margin < 20. |
| RecordForm.ColorMonotone | components/sales/record-form.tsx:142-146 | A larger margin never gets a worse colour. |
| RecordForm.LowPriceMeansNegativeMarkup | components/sales/record-form.tsx:148 | For an acceptable form with a non-negative load, the low-price warning means the engine's markup is negative. |
| RecordForm.IsLowSellingPrice | components/sales/record-form.tsx:148 | `isLowSellingPrice`: the selling price is below the purchase price. It has no contract of its own; `RecordForm.LowPriceMeansNegativeMarkup` proves what it implies. |
| RecordForm.RecalculationAvoidsZeroBranch | components/sales/record-form.tsx:71 | The form recalculates only for quantity > 0, so the engine's zero-quantity branch is never reached from it. |
| RecordForm.ShouldRecalculate | components/sales/record-form.tsx:71 | The recalculation guard: quantity > 0 and settings loaded. It has no contract of its own; `RecordForm.RecalculationAvoidsZeroBranch` proves what it implies. |
| UserForm.TrimStart | components/admin/user-form.tsx:56 | Drops exactly the leading whitespace: the result is a suffix that starts with a non-space character or is empty. |
| UserForm.TrimEnd | components/admin/user-form.tsx:56 | Drops exactly the trailing whitespace: the result is a prefix that ends with a non-space character or is empty. |
| UserForm.TrimEmptyIffAllSpace | components/admin/user-form.tsx:56-62 | The trimmed text is empty exactly when the text is all whitespace. |
| UserForm.TrimWithoutSpace | components/admin/user-form.tsx:101-102 | A text without whitespace trims to itself. |
| UserForm.TrimIdempotent | components/admin/user-form.tsx:101-102 | Trimming twice equals trimming once. |
| UserForm.AcceptedEmailShape | components/admin/user-form.tsx:64 | An email of the pattern's shape has exactly one '@', no whitespace, is non-empty and trims to itself. |
| UserForm.ValidateUserForm | components/admin/user-form.tsx:53-92 | The error map equals the rule specification. The form is valid exactly when it is acceptable. |
| UserForm.NameRule | components/admin/user-form.tsx:56-60 | The name error fires iff the trimmed name is shorter than 2. It says "required" exactly when the trimmed name is empty. |
| UserForm.EmailRule | components/admin/user-form.tsx:62-66 | The email error fires iff the trimmed email is empty or the email lacks the shape. It says "required" exactly when it is empty. |
| UserForm.CreatePasswordRules | components/admin/user-form.tsx:68-78 | When creating, the password error fires iff it is shorter than 6, and says "required" iff it is empty. The confirmation error fires iff they differ. |
| UserForm.EditPasswordRules | components/admin/user-form.tsx:79-88 | When editing, an empty password raises nothing. Otherwise it must be at least 6 characters and match its confirmation. |
| UserForm.NoErrorsIffAcceptable | components/admin/user-form.tsx:90-91 | The error map is empty exactly when all rules pass. |
| UserForm.AcceptableEmail | components/admin/user-form.tsx:54-91 | A form is acceptable iff the trimmed name has at least 2 characters, the email has the pattern's shape, and the password rules of the mode pass. |
| UserForm.SubmittedDataOfValidForm | components/admin/user-form.tsx:100-105 | A valid form submits the trimmed name, the email unchanged and non-empty, and the role. A password is submitted exactly when one was typed. |
| UserForm.SubmittedData | components/admin/user-form.tsx:100-105 | The submitted name and email have nothing left to trim, the role is the form's, and a password is present exactly when one was typed, unchanged. |
| UserForm.ValidEditKeepsEmailsDistinct | components/admin/user-form.tsx:107-108 | Editing a user through a valid form keeps the store's emails distinct whenever the store's guard lets it through. |
| Columns.KeyIndex | components/admin/draggable-table.tsx:76-77 | The index of the first column with the key, or −1 exactly when there is none. |
| ColumnVisibility.ToggleChangesOnlyVisibility | components/admin/column-visibility-control.tsx:26-31 | Toggling keeps length and order. It sets `visible` on the matching columns only and changes no other field. |
| ColumnVisibility.Toggle | components/admin/column-visibility-control.tsx:26-31 | `handleColumnToggle`: keeps length and keys, gives the matching columns the new visibility and leaves the others as they were. |
| ColumnVisibility.SelectAll | components/admin/column-visibility-control.tsx:33-37 | `handleSelectAll`: keeps length and keys. Hides every column when all were visible, and otherwise makes all visible. |
| ColumnVisibility.VisibleCount | components/admin/column-visibility-control.tsx:39-40 | `visibleCount`: never more than the number of columns. |
| ColumnVisibility.ToggleBack | components/admin/column-visibility-control.tsx:26-31 | Toggling back to the previous value restores the columns. |
| ColumnVisibility.SelectAllSetsOneVisibility | components/admin/column-visibility-control.tsx:33-37 | After select-all every column has one visibility: hidden if all were visible, visible otherwise. |
| ColumnVisibility.SelectAllShowsHidden | components/admin/column-visibility-control.tsx:34-35 | Select-all on a non-empty, all-hidden list makes every column visible. |
| ColumnVisibility.VisibleCountFull | components/admin/column-visibility-control.tsx:39-40 | visibleCount ≤ totalCount, with equality iff all columns are visible. |
| ColumnVisibility.ToggleMovesCount | components/admin/column-visibility-control.tsx:26-40 | Showing never lowers the visible count, and hiding never raises it. |
| DraggableTable.HandleDrop | components/admin/draggable-table.tsx:66-100 | Nothing happens exactly when nothing is dragged (no key or an empty key, as `!draggedColumn` tests), the column is dropped on itself, or a key is unknown. Otherwise the result is the renumbered move of the dragged column to the target's index. |
| DraggableTable.MovedIsReorder | components/admin/draggable-table.tsx:82-89 | The move is a permutation of the same length. It puts the dragged column at the target index and keeps the others in their relative order. |
| DraggableTable.RenumberSetsOrders | components/admin/draggable-table.tsx:92-95 | Renumbering changes only `order`: none for required columns, the index for the others. |
| DraggableTable.DropReorders | components/admin/draggable-table.tsx:82-95 | A successful drop is a permutation that places the dragged column at the target's index and keeps the others' relative order. Non-required columns are numbered by position. |
| DraggableTable.AlignChange | components/admin/draggable-table.tsx:103-124 | Nothing happens exactly when the key is unknown. Otherwise the length is kept. |
| DraggableTable.NextAlignCycle | components/admin/draggable-table.tsx:110-117 | left → center → right → left: three steps are the identity, and one step always changes. |
| DraggableTable.AlignOnce | components/admin/draggable-table.tsx:103-124 | One click gives every column with the key the alignment after the first match's (absent read as left). Every other column is unchanged, and the key keeps its index. |
| DraggableTable.AlignThreeClicks | components/admin/draggable-table.tsx:103-124 | Three clicks restore the clicked column's alignment, with absent read as left. Other columns never change. |
| DraggableTable.ResizeClamps | components/admin/draggable-table.tsx:157-166 | A resize changes only the width of the matching columns, to max(50, start + diff). |
| DraggableTable.Resize | components/admin/draggable-table.tsx:157-166 | One mouse move: only the width of the matching columns changes, and it is never below 50. |
| DraggableTable.ResizeStartWidth | components/admin/draggable-table.tsx:139-148 | A resize starts from the column's non-zero width, or from 150. There is no resize for an unknown key. |
| Records.SumAppend | app/dashboards/page.tsx:98-101 | The sum over two lists is the sum of their sums. |
| Records.KeysAreGroups | app/dashboards/page.tsx:114-122 | The group keys are distinct, and a key is listed exactly when its group is non-empty. |
| Records.GroupsPartition | app/dashboards/page.tsx:114-122 | The group sizes over the keys add up to the number of records. |
| Records.GroupSumBounds | components/analytics/sales-charts.tsx:66-70 | When every member's measure lies in [lo, hi], a group's sum lies between count·lo and count·hi. |
| Records.MarginSumBounds | app/dashboards/page.tsx:104-107 | The present margins' sum lies between count·lo and count·hi when each margin lies in [lo, hi]. |
| Records.MeanWithin | app/dashboards/page.tsx:110 | A sum between n·lo and n·hi, divided by n > 0, lies in [lo, hi]. |
| Sorting.Insert | app/dashboards/page.tsx:269 | Inserting into a non-increasing list keeps it non-increasing and adds exactly the element. |
| Sorting.SortDesc | app/dashboards/page.tsx:269 | The sorted list is non-increasing by key and a permutation of the input. |
| Sorting.InsertStable | app/dashboards/page.tsx:269 | An inserted element comes before every element with the same key, and the elements with other keys keep their order. |
| Sorting.SortDescStable | app/dashboards/page.tsx:269 | The sort is stable: for every key, the elements with that key appear in their original order. |
| Sorting.Take | components/analytics/sales-charts.tsx:126 | `slice(0, n)`: the first min(n, length) elements. |
| Dashboards.ComputeKpis | app/dashboards/page.tsx:88-112 | The reducer's totals are the sums of the amounts, with missing counted as 0. VAT and CIT are per-unit taxes times quantity, with a zero quantity read as 1. The count is the number of present margins, and the average is their mean or 0. |
| Dashboards.AverageMarginWithin | app/dashboards/page.tsx:104-111 | The average margin is 0 with no margins, and otherwise lies within the range of the present margins. |
| Dashboards.PerformanceByUser | app/dashboards/page.tsx:114-123 | The Map loop yields one row per creator key (a missing or empty creator reads as "unknown"), in first-appearance order. Each row holds its group's sales and record count. |
| Dashboards.PerformanceCoversRecords | app/dashboards/page.tsx:114-123 | The row counts add up to the number of records. Each row has at least one record, and the ids are distinct. A creator is listed iff it has records. |
| Dashboards.CreatorGroupOfRecord | app/dashboards/page.tsx:117 | Every record lands in its creator key's group. |
| Dashboards.RecordInKeys | app/dashboards/page.tsx:116-117 | Every record's group key (its creator, "unknown" when there is none, or its product name) is listed among the keys. |
| Dashboards.Rating | app/dashboards/page.tsx:268-269 | The rating rows are a permutation of the creator rows, in non-increasing order of sales. |
| SalesCharts.UserPerformanceKeepsOrder | components/analytics/sales-charts.tsx:64-82 | The per-user list splits over a concatenation of user lists, so it follows the users' order. |
| SalesCharts.UserPerformanceMembers | components/analytics/sales-charts.tsx:64-82 | The list holds exactly the figures of the users with at least one record. |
| SalesCharts.UserPerformance | components/analytics/sales-charts.tsx:64-82 | `userPerformance`: at most one entry per user, each with at least one record. |
| SalesCharts.UserMarginWithin | components/analytics/sales-charts.tsx:66-71 | A user's margin is 0 without records, and otherwise lies within the range of their records' margins. |
| SalesCharts.MarginRanges | components/analytics/sales-charts.tsx:85-96 | The three counters equal the numbers of records in the high (≥ 30), medium (≥ 20) and low bands, with a missing margin read as 0. |
| SalesCharts.BandsPartition | components/analytics/sales-charts.tsx:91-96 | The three band counts add up to the number of records. |
| SalesCharts.BandMatchesBadge | components/analytics/sales-charts.tsx:92-95 | The bands use the same thresholds as the record form's margin colours. |
| SalesCharts.BandOf | components/analytics/sales-charts.tsx:90-95 | A record's margin band is high, medium or low exactly when the form's badge for that margin is green, yellow or red. |
| SalesCharts.ProductPerformance | components/analytics/sales-charts.tsx:99-118 | The reduce yields one entry per product name that the accumulator object does not inherit, in first-appearance order. Each entry holds its group's income, quantity, margin sum and count. |
| SalesCharts.ListedMembers | components/analytics/sales-charts.tsx:101-102 | The records that get an entry are exactly those whose name is not inherited from `Object.prototype`. |
| SalesCharts.InheritedNameIgnored | components/analytics/sales-charts.tsx:101-114 | A record named after an inherited property (such as `constructor` or `__proto__`) adds no product and changes no total. |
| SalesCharts.ProductGroupsPartition | components/analytics/sales-charts.tsx:99-118 | Product names are distinct and each has at least one record. The counts add up to the number of records with a non-inherited name. |
| SalesCharts.TopProductsAreBest | components/analytics/sales-charts.tsx:120-126 | The top list has min(5, products) entries, in non-increasing income, all of them products. No product left out earns more than a listed one. |
| SalesCharts.TopProducts | components/analytics/sales-charts.tsx:120-126 | `topProducts`: at most five products, in non-increasing order of income. |
| SalesCharts.ProductMarginWithin | components/analytics/sales-charts.tsx:123 | A product's average margin lies within the range of its records' margins. |

## Left out

- Amounts are exact reals. IEEE rounding, NaN and Infinity are not modelled. This
  includes the unguarded trend division in components/analytics/sales-charts.tsx:132-133
  and the monthly chart data around it.
- SalesEngine.CalculateWithSettings: requires vat ≠ −100 and client-bonus tax ≠ −100.
  With those rates the source divides by zero and yields Infinity or NaN, which reals
  cannot represent.
- `parseCustomFormula` (the `eval` wrapper) is not modelled, because nothing calls it.
  No custom-formula overlay exists, so `SalesEngine.IgnoresCustomFormulas` states the
  argument is unused.
- `formatCurrency` and `formatPercent` are locale and number formatting. They are left out.
- Storage and the network are not modelled:
  - localStorage serialisation and the JSON-parse fallback of the user store;
  - Supabase calls, migrations, and the React contexts and hooks that load the settings.
  The stores keep their state in a class field.
- The clock (`Date.now()`), generated user ids and creation times are method parameters.
- UserStorage.UserStore.Update: promises distinct emails only for a non-empty new email.
  The source's guard is skipped for an empty email, and
  `UserStorage.EmptyEmailUpdateCanDuplicate` shows the resulting duplicate. The user
  form never submits an empty email (`UserForm.ValidEditKeepsEmailsDistinct`).
  It also promises distinct emails only when the stored ids are distinct. The store does
  not keep ids distinct: `update` can copy a supplied id, and `create` takes whatever id
  it is given. With two users sharing an id, the guard skips the other one, as
  `UserStorage.DuplicateIdUpdateCanDuplicate` shows.
- UserStorage.UserStore.Delete: promises that an administrator remains only when the
  stored ids are distinct. The guard looks only at the first user with the id, while
  the filter removes all of them. `UserStorage.DuplicateIdDeleteRemovesLastAdmin` shows
  the last administrator removed.
- Spreadsheet cells are text, numbers or empty. The XLSX workbook, sheet and file
  handling is left out.
- FormulaSpreadsheet.ImportSettings: `Number(text)` is modelled for empty text (0) and
  for digit-only text. Any other text counts as NaN, which falls back to the default.
- JavaScript string lengths count UTF-16 code units. The model counts characters.
- Columns.KeyIndex: the column's `label` field is named `columnLabel`.
- Sorting.SortDesc: the built-in in-place array sort is modelled as a function on
  sequences.
- SalesCharts.ProductPerformance: products come out in first-appearance order. For
  integer-like product names, `Object.values` lists them in numeric order instead; that
  ordering is not modelled. The method takes the set of names the accumulator inherits
  as a parameter; the top list uses the names a plain `{}` inherits from
  `Object.prototype`. For those names the source adds the record's totals onto the
  inherited value. That write is not modelled, and the record gets no product.
- The month and date-range filters of the dashboards and analytics pages are left out,
  because they depend on host date parsing. The aggregations take the already filtered
  records.
- Console logging is not modelled (lib/calculations-with-settings.ts:26-27,
  components/sales/record-form.tsx:72,80, components/admin/formula-excel-export.tsx:107,163);
  it has no effect on the computed values.
- Rendering, dialogs, debounce timers and toasts are left out. So are the pages that only
  repeat the modelled reduce patterns.
