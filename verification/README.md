# Household ledger client: a Dafny model of its record editor, query hook and monthly overview

This project models the parts of a small React household-ledger client that hold logic
of their own:

- the **record editor** (`ItemRegistry`), where an income (収入) or expense (支出)
  record is entered, edited or deleted: the amount formatter, the tab switch, the
  category, date and payment-method pickers with their outside-press dismissal, loading
  a saved record into the form, the submit pipeline (validation in a fixed order,
  parsing the amount, resolving the chosen names to ids, one insert or update), and the
  delete confirmation;
- the **query hook** (`useFetchData`), which assembles a query from a table, columns,
  a filter list, an optional ordering and an optional limit, decides when to re-run it,
  and keeps a `data` / `loading` / `error` triple;
- the **monthly overview** (`Home`), which totals the month's per-category sums, shows
  the balance, sorts the expenditure rows in place for the pie chart and pairs the
  pie's labels with its values.

The remote store (Supabase) is not modelled: a write is returned as a `Write` value,
the store's answer comes in as a parameter (`storeFails`, a `Response`, an optional
loaded record), and what the store does with a query is out of scope.

Modules: `Common` (an `Option` type), `Currency` (amount text: formatting, `parseInt`,
`toString`), `Query` (`useFetchData`), `Editor` (`ItemRegistry`), `Summary` (`Home`).
The editor is a class whose fields are the component's `useState` variables; its
methods are the event handlers and effects. Their `ensures` tie the new state to pure
functions (`Plan`, `Hydrated`, `Switched`) about which the lemmas are proved.

Points where the code behaves otherwise than its comments and messages suggest; the model follows the code:

- A successful fetch replaces `data` but does not clear an earlier `error`, and a
  re-run does not set `loading` back to true (the line that would is commented out).
- A chosen name with no matching candidate makes `find(...)` return `undefined`, and
  indexing it throws. There is no resolution error message; the submit simply stops
  without writing. The "not found" message is only reached for a candidate whose id is
  falsy (here: 0).
- Loading a saved record reads the category name through the tab that is active when
  the effect runs, not through the record's direction. For a record of the other
  direction that read throws, so only the amount and the tab are set. Because the
  effect depends on the tab, it then runs again and fills the whole form
  (`HydrateRerunShowsRecord`). The same happens after switching tabs while editing: the
  form, including any unsaved edits, is reset to the record (`SwitchTabWhileEditing`).
- A failed delete leaves the confirmation dialog open; nothing closes the dialog
  automatically, only its キャンセル button (`CancelDelete`) does.
- The load effect also depends on the two category lists (ItemRegistry.js:92). When they
  arrive while a record is being edited, the record is loaded again and any unsaved
  edits are overwritten, as `HydrateOnOwnTab` shows: the result does not depend on what
  the form held.

## Model

| member | source | states |
|---|---|---|
| `Currency.FormatCurrency` | src/ItemRegistry/ItemRegistry.js:107-111 | The result is well grouped: a ',' exactly every fourth position from the end, digits elsewhere, and no leading zero unless it is "0". |
| `Currency.FormatKeepsValue` | src/ItemRegistry/ItemRegistry.js:107-111 | The digits of the formatted text are the canonical numeral of the input's digits, so the value of the input's digits is preserved. |
| `Currency.FormatIdempotent` | src/ItemRegistry/ItemRegistry.js:107-111 | Formatting already formatted text returns it unchanged. |
| `Currency.FormatWithoutDigits` | src/ItemRegistry/ItemRegistry.js:107-111 | Input without any digit, the empty input included, is shown as "0". |
| `Currency.FormatThousand` | src/ItemRegistry/ItemRegistry.js:107-111 | Typing "1000" shows "1,000". |
| `Currency.Digits` | src/ItemRegistry/ItemRegistry.js:109 | Stripping non-digits leaves only digits and never lengthens the text. A single digit is kept and a single non-digit is dropped; with `DigitsAppend` this fixes the result for every text. |
| `Currency.DigitsAppend` | src/ItemRegistry/ItemRegistry.js:109 | Stripping non-digits works character by character: it distributes over concatenation. |
| `Currency.DigitsOfDigits` | src/ItemRegistry/ItemRegistry.js:109 | Text made only of digits comes through the filter unchanged. |
| `Currency.Decimal` | src/ItemRegistry/ItemRegistry.js:110 | A number is printed as a non-empty digit string with no leading zero except "0" itself. |
| `Currency.ValueOfDecimal` | src/ItemRegistry/ItemRegistry.js:110 | Reading the printed numeral back gives the number. |
| `Currency.Group` | src/ItemRegistry/ItemRegistry.js:110 | Grouping a digit string gives well-grouped text that starts with the same digit. |
| `Currency.GroupKeepsDigits` | src/ItemRegistry/ItemRegistry.js:110 | Removing the separators from the grouped text gives back the digit string. |
| `Currency.GroupedExtend` | src/ItemRegistry/ItemRegistry.js:110 | Putting a separator and three more digits after well-grouped text keeps it well grouped, which is the step each thousands group relies on. |
| `Currency.StripCommas` | src/ItemRegistry/ItemRegistry.js:122 | Removing commas leaves no comma and never lengthens the text. |
| `Currency.StripCommasIsDigits` | src/ItemRegistry/ItemRegistry.js:122 | On text of digits and commas, removing the commas keeps exactly the digits. |
| `Currency.LeadingDigits` | src/ItemRegistry/ItemRegistry.js:122 | `parseInt` reads the longest digit prefix: all digits, a prefix of the input, and followed by a non-digit or the end. |
| `Currency.ParseDecimal` | src/ItemRegistry/ItemRegistry.js:122 | `parseInt` of a printed natural number gives that number. |
| `Currency.ParseInt` | src/ItemRegistry/ItemRegistry.js:122 | `parseInt` of empty text, or of text starting with neither a digit nor a sign, is NaN (`None`); of a digit string it is that string's value; of '-' and digits it is the negated value. |
| `Currency.IntToString` | src/ItemRegistry/ItemRegistry.js:82 | `toString` of a non-negative integer is its canonical numeral: non-empty digits with no leading zero (except "0") whose value is the integer. A negative one is '-' followed by the canonical numeral of its magnitude. |
| `Currency.ParseIntToString` | src/ItemRegistry/ItemRegistry.js:82 | The amount text set from a loaded record (`toString`, negative numbers included) parses back to the record's amount. |
| `Currency.ParseFormatted` | src/ItemRegistry/ItemRegistry.js:122 | The typed amount, once formatted, parses to the value of the digits that were typed. |
| `Editor.FindFirst` | src/ItemRegistry/ItemRegistry.js:131-133 | `find` gives the first candidate whose name equals the chosen one, or nothing when no candidate has that name. |
| `Editor.CategoryList` | src/ItemRegistry/ItemRegistry.js:47 | The selectable categories are the outgo list on the 支出 tab and the income list on the 収入 tab. |
| `Editor.Plan` | src/ItemRegistry/ItemRegistry.js:114-183 | Submit stops with MissingField if amount, category or payment method is empty; otherwise with NonPositiveAmount if the amount parses to 0 or less; otherwise with CategoryNotFound if no candidate of the active tab has the name. A write has exactly the category id of its direction set, the parsed positive amount, the memo and date, and the first-match ids, both non-zero. It is an update of `itemId` exactly when `itemId` is present, otherwise an insert. It happens whenever all checks pass. |
| `Editor.ZeroAmountRefused` | src/ItemRegistry/ItemRegistry.js:116-128 | An amount of "0" passes the required-field check and is refused as not positive. |
| `Editor.NewExpensePlan` | src/ItemRegistry/ItemRegistry.js:161-173 | 1000 on the 支出 tab with 食費 and 現金 resolved inserts amount 1000, the outgo category id, no income category and the payment method id. |
| `Editor.PlanInsertOneCandidate` | src/ItemRegistry/ItemRegistry.js:114-183 | In create mode on the 支出 tab, with the one category and the one payment method chosen and a positive amount, submit inserts that amount with the category's id as the outgo category, no income category, and the payment method's id. |
| `Editor.ThousandReadsBack` | src/ItemRegistry/ItemRegistry.js:122 | The shown text "1,000" parses to 1000. |
| `Editor.FirstMatchUnique` | src/ItemRegistry/ItemRegistry.js:131-133 | There is only one first match. |
| `Editor.HydrateOnOwnTab` | src/ItemRegistry/ItemRegistry.js:81-88 | Loaded while the record's own tab is active, the form shows the record, whatever it held before. |
| `Editor.Hydrated` | src/ItemRegistry/ItemRegistry.js:81-88 | Loading a record always sets the tab to its direction and an amount that parses back to its amount. When the category relation read through the current tab is missing, the read throws and nothing else changes. Otherwise the category, date and memo are the record's, and the payment method is too unless that relation is missing. |
| `Editor.Switched` | src/ItemRegistry/ItemRegistry.js:209-212 | A tab button sets the tab, clears the category and keeps every other field, so the form cannot be submitted until a category is chosen again. |
| `Editor.HydrateOnOtherTab` | src/ItemRegistry/ItemRegistry.js:81-88 | Loaded while the other tab is active, only the amount and the tab change: the name read throws. |
| `Editor.HydrateRerunShowsRecord` | src/ItemRegistry/ItemRegistry.js:71-92 | After one load the tab is the record's. The re-run that the tab change triggers leaves the form showing the record. |
| `Editor.SwitchTabWhileEditing` | src/ItemRegistry/ItemRegistry.js:71-92 | While editing, switching to the other tab is undone. The re-run load restores the record's tab with no category, and the next run resets the whole form to the record. |
| `Editor.SubmitUnchangedRecord` | src/ItemRegistry/ItemRegistry.js:82-87 | Submitting a loaded record untouched updates it with exactly the values it already has. This needs its names to resolve back to its own ids. |
| `Editor.RecordEditor.constructor` | src/ItemRegistry/ItemRegistry.js:46-68 | The editor opens on 支出 with empty amount and memo, nothing selected, today's date, every popover and the modal closed, and empty candidate lists. |
| `Editor.RecordEditor.SwitchTab` | src/ItemRegistry/ItemRegistry.js:209-212 | A tab button sets the tab and clears the category. The candidate list becomes that tab's. |
| `Editor.RecordEditor.EnterAmount` | src/ItemRegistry/ItemRegistry.js:230 | Typing stores the formatted text, which parses to the value of the typed digits; the amount stays parseable. |
| `Editor.RecordEditor.EnterMemo` | src/ItemRegistry/ItemRegistry.js:288 | The memo becomes the typed text. |
| `Editor.RecordEditor.ToggleCategoryList` | src/ItemRegistry/ItemRegistry.js:236 | The category header flips its list and nothing else. |
| `Editor.RecordEditor.ToggleDatePicker` | src/ItemRegistry/ItemRegistry.js:262 | The date header flips the calendar and nothing else. |
| `Editor.RecordEditor.TogglePaymentMethodList` | src/ItemRegistry/ItemRegistry.js:294 | The payment header flips its list and nothing else. |
| `Editor.RecordEditor.ChooseCategory` | src/ItemRegistry/ItemRegistry.js:249-252 | Choosing a shown category stores its name and closes only the category list. |
| `Editor.RecordEditor.ChoosePaymentMethod` | src/ItemRegistry/ItemRegistry.js:307-310 | Choosing a payment method stores its name and closes only its list. |
| `Editor.RecordEditor.ChooseDate` | src/ItemRegistry/ItemRegistry.js:102-105 | Choosing a date stores it and closes only the calendar. |
| `Editor.RecordEditor.PressAnywhere` | src/ItemRegistry/ItemRegistry.js:15-20 | Each control closes exactly when its region is rendered and does not contain the pressed node. The controls do not affect each other. |
| `Editor.Dismisses` | src/ItemRegistry/ItemRegistry.js:15-20 | A press dismisses a control exactly when its region is rendered and does not contain the pressed node; never while the region is not rendered. |
| `Editor.RecordEditor.ReceiveCandidates` | src/ItemRegistry/ItemRegistry.js:33-43 | The candidate lists become the fetched rows. |
| `Editor.RecordEditor.ApplyLoadedItem` | src/ItemRegistry/ItemRegistry.js:72-88 | A failed fetch changes nothing. A loaded record moves the form to `Hydrated` of the old form, and the amount stays parseable. |
| `Editor.RecordEditor.Register` | src/ItemRegistry/ItemRegistry.js:114-183 | The write issued is the one `Plan` gives, or none when `Plan` refuses. The editor navigates to the overview exactly when a write was issued and the store did not fail. |
| `Editor.RecordEditor.OpenDeleteModal` | src/ItemRegistry/ItemRegistry.js:323-325 | Offered only with an `itemId`, it opens the confirmation and changes nothing else. |
| `Editor.RecordEditor.CancelDelete` | src/ItemRegistry/ItemRegistry.js:331 | Cancelling closes the confirmation and changes nothing else. |
| `Editor.RecordEditor.ConfirmDelete` | src/ItemRegistry/ItemRegistry.js:186-198 | Confirming deletes the record by its id. The editor navigates exactly when the store does not fail, and its state is unchanged. |
| `Editor.CancelDeleteScenario` | src/ItemRegistry/ItemRegistry.js:323-332 | Opening the confirmation and cancelling it leaves the form, the lists and the three picker flags as they were, with the modal closed. |
| `Editor.SwitchClearsCategoryScenario` | src/ItemRegistry/ItemRegistry.js:209-212 | After a 支出 category is chosen from the list (:250), switching to 収入 leaves no category selected. |
| `Query.OperatorOf` | src/Supabase/useFetchData.js:23 | A filter's operator is its own when non-empty, and 'eq' when it is absent or empty. |
| `Query.AscendingOf` | src/Supabase/useFetchData.js:29 | Ordering is ascending unless the caller says otherwise. |
| `Query.BuildQuery` | src/Supabase/useFetchData.js:18-35 | The query is the select step, then one step per filter in list order with its operator, then an order step exactly when `orderBy` is given, then a limit step exactly when `limit` is given, as the last step. |
| `Query.DefaultSpec` | src/Supabase/useFetchData.js:11 | The hook's defaults: columns '*' when none are passed, no filters, no limit and no ordering. |
| `Query.DefaultQuery` | src/Supabase/useFetchData.js:11-35 | With only the defaults (as the payment-method fetch at ItemRegistry.js:41-43 uses them) the query is the bare select of the table. |
| `Query.FetchState.constructor` | src/Supabase/useFetchData.js:12-14 | Initially `data = []`, `loading = true`, `error = null`. |
| `Query.FetchState.Render` | src/Supabase/useFetchData.js:16-48 | The request runs again exactly when the dependencies differ by value from the last run, filters and ordering included. `data`, `loading` and `error` are untouched. |
| `Query.FetchState.Complete` | src/Supabase/useFetchData.js:37-44 | An error is recorded and `data` kept. Rows replace `data` and leave `error` as it was. `loading` is false afterwards. |
| `Summary.Total` | src/Home.js:60-61 | The reduce gives 0 for no rows and the row's `sum || 0` for one row, and is non-negative when every row's sum is. With `TotalAppend` this makes the total the sum of the contributions. |
| `Summary.Contribution` | src/Home.js:60 | A row contributes its sum, or 0 when the sum is null. |
| `Summary.TotalAppend` | src/Home.js:60-61 | The total of two row lists joined is the sum of their totals. |
| `Summary.TotalPermutation` | src/Home.js:60-64 | Reordering the rows (as the in-place sort does) does not change the total. |
| `Summary.Label` | src/Home.js:66 | A slice's label is the category name, or 未分類 when the name is missing or empty; it is never empty. |
| `Summary.Labels` | src/Home.js:66 | Labels are taken row by row, in order. |
| `Summary.Sums` | src/Home.js:70 | Values are the rows' sums, row by row, in order. |
| `Summary.SortBySumDescending` | src/Home.js:64 | After the sort the rows are a permutation of the originals, in non-increasing order of sum (a null sum counts as 0). |
| `Summary.InsertDescending` | src/Home.js:64 | One pass of the sort: the row at position i ends at some j, the rows before j stay, the rows from j to i - 1 shift one place right and all have a strictly smaller sum, and the row left in front of it (if any) does not. So rows with equal sums keep their order. The first i + 1 rows end in non-increasing order and are a permutation of the first i + 1 rows before, and the rows after i are not touched. |
| `Summary.StepLeft` | src/Home.js:64 | The moving row at j changes places with its left neighbour, which has a smaller sum, and nothing else changes. The insertion invariant then holds one position further left. |
| `Summary.AssetsView` | src/Home.js:26 | Total assets are the first row's sum, or 0 when there is no row or no sum. |
| `Summary.Render` | src/Home.js:59-122 | Expenditure and income totals are the reduces of their rows, the same before and after the in-place sort. The balance is income minus expenditure. The pie is shown exactly when there is an expenditure row. Label i and value i come from the same sorted row. |

## Left out

- The remote store: the Supabase client, how it evaluates filters, ordering and limits,
  the `amount.sum()` / `balance.sum()` aggregates and the `monthlyexpenseslist`
  procedure. Their results are parameters of the model.
- React scheduling: when effects run, and the race in which a slower, older request
  resolves after a newer one and overwrites its result (there is no cancellation).
  Each completion is one atomic step.
- Dates: `new Date()`, date-fns formatting and month bounds, the date picker, and the
  `toISOString().split("T")[0]` conversion, which can shift a local date by a day. A
  date is an abstract day number and is written as it was chosen.
- Number formatting details: `Intl.NumberFormat` beyond ja-JP grouping with ',' every
  three digits, `toLocaleString`, and JavaScript number precision above 2^53. Amounts
  are unbounded integers.
- `Currency.ParseInt`: does not skip leading white space as `parseInt` does, because
  the editor's amount text never has any.
- `Query.FetchState.Render`: compares filters and ordering as values, where the source
  compares their `JSON.stringify` text. The text comparison also tells apart objects
  whose keys are written in a different order, a key set to `null` from an absent key
  (`{column, value, operator: null}` against `{column, value}`, `ascending: null`
  against no `ascending`), and a key whose value is `undefined` (left out of the text)
  from one that is `null`. The model gives each of these pairs the same value, so it
  does not re-run where the source does.
- `Editor.RecordEditor.ApplyLoadedItem`: an embedded category or payment-method row
  whose name column is null, and a null memo, are not modelled. An absent embedded row
  is, and it throws as in the source.
- The editor's three candidate fetches are given to `ReceiveCandidates` as plain
  lists instead of three `FetchState` objects. A failed candidate fetch leaves its list
  empty, as in the source.
- Ids are integers and a falsy id is 0. `itemId` is present or absent, because the
  route `/item-registry/:itemId` never yields an empty segment.
- Presentation: JSX, styling, Chart.js registration and its global legend setting,
  chart options, `alert` and `console` output, the キャンセル button's plain navigation
  and the recent-expenses list (including its `"/edit/${expense.id}"` link, whose
  template is never substituted).
- The header's menu toggle, the routing table, the static list page and the
  category history page, which hold no logic beyond markup, one constant filter list
  and a remote procedure call.
