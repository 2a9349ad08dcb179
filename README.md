# factupro invoice views, modelled in Dafny

factupro is a small web front end for registering and consulting
invoices. This project models its two data-handling components:

- **The invoice listing** (`InvoiceConsult`):
  - When a month is picked, it fetches that month's invoices as `2024-<month>`.
  - It turns each record into a displayed invoice: the date becomes `dd/mm/yyyy`, and a missing or empty category becomes "Sin Categoría".
  - It sorts the invoices by date. The comparator reverses the displayed date into `yyyy/mm/dd` and compares the resulting times.
  - It filters the invoices by category.
  - It keeps a running total of the visible invoices.
  - It pushes per-category totals for the month to the shared application context.
  - It deletes an invoice after a confirmation modal.
  - It renders a PDF report of the visible invoices.
- **The invoice upload form** (`InvoiceUpload`):
  - It keeps the form fields and normalises the amount (its first comma becomes a point).
  - It validates a submission fail-fast: file, then required fields, then a numeric amount.
  - It reads the file as a data URL and sends the base64 part with the form values to `createInvoice`.
  - It reports the outcome: a success toast and redirect, an expired session, or a generic error.

## Modules

- `Outcomes`: Option, API errors, toasts and redirects. It holds the shared "Unauthorized → session expired, go to the login route" rule.
- `Strings`: the JavaScript string operations used.
  - `split` and `join` on one character, with their round trips.
  - Array `reverse`.
  - The decimal rendering of numbers.
  - `replace` with a string pattern, which only replaces the first match.
- `Dates`: a calendar date and its `es-ES` display, the comparator's reversed key, and how the key is read back.
- `Invoices`: the pure list transforms.
  - The record mapping, the stable sort and the category filter.
  - Removal by id.
  - The total, and the per-category totals.
- `Report`: the PDF as the ordered sequence of `doc.text` and `doc.line` calls. `RenderReport` builds the title step by step (`BuildTitle`) and walks the rows with a moving cursor (`DrawRows`), as the source does.
- `ConsultView`: the listing component as a class.
  - Its `useState` fields are class fields. The shared context is an `AppContext` object.
  - Each handler is a method.
  - An awaited API call is split in two. The handler returns what its closure captured. A completion method then takes that capture and the settled result as parameters.
- `UploadForm`: the upload component as a class.
  - `parseFloat` is modelled as the longest decimal-literal prefix of the text.
  - It also covers data-URL content extraction, the request payload and the outcome reactions.

The listing's class invariant `Valid()` says that the displayed total equals the sum of the visible list. Every handler and every completion preserves it.

A second predicate, `Consistent()`, adds that every visible invoice comes from the month list and that, with a category selected, every visible invoice has that category. A category change always establishes it. The month and selection handlers keep it. The two completions keep it only when nothing they closed over has changed in the meantime:
- A month fetch closes over the month and the selected category of the render after which its effect ran. Its completion filters and files the totals with those values, whatever is selected by then.
- A deletion closes over the staged values and the visible list at the click. Its completion writes back that list without the deleted id.

Where the source code and its written description differ, the model follows the code:
- "Volver" (cancel) in the delete modal only closes the modal. The staged id and file key stay set. The description says cancelling clears them.
- Confirming a deletion requires both staged values to be truthy. An empty id or key blocks the request, just as a missing one does.
- A deletion removes the invoice from the visible list only; the month list keeps it. The next category change refilters from the month list, so the deleted invoice comes back. `ConsultView.DeleteThenChangeCategory` proves this.
- The per-category totals pushed to the context are computed before any deletion and are not updated by it.
- A category chosen while a month fetch is in flight does not apply to the fetched list. The list is filtered with the category selected when the month changed, so with "all categories" selected then, the whole month is shown under the newly chosen category. `ConsultView.ChangeCategoryDuringFetch` proves this.
- A deletion's completion replaces the visible list with the list captured at the click, minus the deleted invoice. A fetch or a category change that completes in between is overwritten.

## Model

| member | source | states |
|---|---|---|
| Outcomes.FailureReaction | src/app/components/invoiceConsult.tsx:102-110 | An "Unauthorized" error gives the session-expired toast and a redirect to "/"; any other error gives the caller's generic toast and no redirect (both directions) |
| Strings.Split | src/app/components/invoiceConsult.tsx:86 | `split('/')` yields at least one field and no field contains the separator |
| Strings.JoinSplit | src/app/components/invoiceConsult.tsx:86 | Joining the fields of a split restores the string |
| Strings.SplitJoin | src/app/components/invoiceConsult.tsx:86 | Splitting a join of separator-free fields restores the fields |
| Strings.Reverse | src/app/components/invoiceConsult.tsx:86 | `reverse()` keeps the length and puts element i at position n-1-i |
| Strings.ReplaceFirst | src/app/components/invoiceUpload.tsx:37 | `replace` with a one-character pattern keeps the length, leaves a string without the pattern unchanged, and puts the replacement in when the pattern occurs |
| Strings.ReplaceAtFirst | src/app/components/invoiceUpload.tsx:37 | The replacement happens at the first occurrence of the pattern |
| Strings.ReplaceFirstEffect | src/app/components/invoiceUpload.tsx:37 | `replace(",", ".")` keeps the length, changes only the first comma, and leaves one comma fewer; a string without a comma is unchanged |
| Dates.Pad2 | src/app/components/invoiceConsult.tsx:72-73 | The "2-digit" rendering is exactly two characters below 100, starts with "0" below 10, never has fewer than two characters, and reads back as the number |
| Dates.Display | src/app/components/invoiceConsult.tsx:71-75 | The displayed date splits on '/' into the 2-digit day, the 2-digit month and the year |
| Dates.SortKey | src/app/components/invoiceConsult.tsx:86 | The key's '/'-fields are the displayed date's fields in reverse order |
| Dates.SortKeyTwice | src/app/components/invoiceConsult.tsx:86 | Building the key from a key gives the original text back |
| Dates.KeyTime | src/app/components/invoiceConsult.tsx:86-88 | For the keys the comparator builds from displayed dates, a key reads as a time exactly when it has three '/'-separated digit runs, read as yyyymmdd |
| Dates.ReversedDisplay | src/app/components/invoiceConsult.tsx:86 | Reversing the displayed date gives `yyyy/mm/dd` |
| Dates.ReadKey | src/app/components/invoiceConsult.tsx:86-88 | A `yyyy/mm/dd` key reads back as the number yyyymmdd |
| Dates.DisplayKey | src/app/components/invoiceConsult.tsx:86-88 | The comparator reads every displayed date as that date's ordinal |
| Dates.OrdinalIsChronological | src/app/components/invoiceConsult.tsx:88 | For valid dates, comparing ordinals is comparing dates in calendar order (both directions) |
| Invoices.CategoryOrDefault | src/app/components/invoiceConsult.tsx:76 | A non-empty category is kept; a missing or empty one becomes "Sin Categoría"; the result is never empty |
| Invoices.ToInvoice | src/app/components/invoiceConsult.tsx:67-81 | The mapping callback copies the id and value, never gives an empty category, keeps a non-empty one, and displays the date as the padded day, the padded month and the year |
| Invoices.Transform | src/app/components/invoiceConsult.tsx:67-82 | One invoice per record, with the record's id at the same position and a non-empty category |
| Invoices.TransformCopiesRecords | src/app/components/invoiceConsult.tsx:67-82 | One invoice per record at the same position, with id, description, value, image and user copied, the date displayed, and the category replaced by "Sin Categoría" exactly when it is missing or empty |
| Invoices.Time | src/app/components/invoiceConsult.tsx:86-88 | The comparator's time of an invoice reads its dd/mm/yyyy date back to front: defined exactly when the date has three digit-run fields, and then the number yyyymmdd |
| Invoices.SortBy | src/app/components/invoiceConsult.tsx:85-89 | The sort yields a permutation of its input, ascending by key |
| Invoices.SortIsStable | src/app/components/invoiceConsult.tsx:85-89 | Elements with equal keys keep their relative order |
| Invoices.TransformIsKeyed | src/app/components/invoiceConsult.tsx:67-88 | Every transformed invoice has a readable date key equal to its record's date ordinal (no NaN in the comparator) |
| Invoices.PrepareMonth | src/app/components/invoiceConsult.tsx:67-91 | The stored month list has one entry per record and is a permutation of the transformed records |
| Invoices.PrepareMonthIsSorted | src/app/components/invoiceConsult.tsx:85-91 | The month list is ascending by time, and same-day invoices keep the order the API gave |
| Invoices.PrepareMonthIsChronological | src/app/components/invoiceConsult.tsx:85-89 | An invoice listed before another was issued on the same day or earlier |
| Invoices.PrepareMonthComesFromRecords | src/app/components/invoiceConsult.tsx:67-91 | Every listed invoice is the transform of some record |
| Invoices.OfCategory | src/app/components/invoiceConsult.tsx:140-142 | The filtered list is no longer than the input and holds only the category |
| Invoices.OfCategoryCounts | src/app/components/invoiceConsult.tsx:139-143 | The filter keeps every invoice of the category as often as it occurs, and nothing else |
| Invoices.OfCategoryAppend | src/app/components/invoiceConsult.tsx:140-142 | The filter keeps order: it distributes over concatenation |
| Invoices.FilterByCategory | src/app/components/invoiceConsult.tsx:127-147 | The empty category leaves the list as it is; any other keeps only that category |
| Invoices.WithoutId | src/app/components/invoiceConsult.tsx:207 | After removal no invoice has the deleted id and the list is no longer |
| Invoices.WithoutIdCounts | src/app/components/invoiceConsult.tsx:207 | Removal drops exactly the invoices with the id and keeps every other one as often as it occurs |
| Invoices.WithoutIdAppend | src/app/components/invoiceConsult.tsx:207 | Removal keeps the order of the others: it distributes over concatenation |
| Invoices.WithoutAbsentId | src/app/components/invoiceConsult.tsx:207 | Removing an id that is not present changes nothing |
| Invoices.Total | src/app/components/invoiceConsult.tsx:46-51 | The displayed total: one invoice totals its value, and invoices without negative values never total below zero |
| Invoices.TotalAppend | src/app/components/invoiceConsult.tsx:46-50 | The total of a concatenation is the sum of the totals |
| Invoices.TotalSplitsByCategory | src/app/components/invoiceConsult.tsx:46-50 | The total is the category's total plus the other categories' total |
| Invoices.CategoryTotals | src/app/components/invoiceConsult.tsx:95-98 | The map's keys are exactly the categories that occur |
| Invoices.CategoryTotalsAreCategorySums | src/app/components/invoiceConsult.tsx:95-98 | Each category's entry is the total of the invoices in that category |
| Report.Title | src/app/components/invoiceConsult.tsx:159-165 | The title starts with "Reporte de Facturas", followed by " mes <month>" exactly when a month is selected and ending with " categoría <category>" exactly when a category is selected; with neither it is exactly the base text |
| Report.LineText | src/app/components/invoiceConsult.tsx:174-178 | An invoice row's text starts with "Fecha: " and the date and ends with the value; the total's text is "Total: " followed by the total; the title is drawn as built |
| Report.RowOps | src/app/components/invoiceConsult.tsx:173-183 | Two drawing calls per invoice row |
| Report.RowOpsPositions | src/app/components/invoiceConsult.tsx:173-183 | Row drawing call k sits at 40 + 5k |
| Report.BuildTitle | src/app/components/invoiceConsult.tsx:159-165 | The title built by the two conditional appends is Title of the month and category |
| Report.DrawRows | src/app/components/invoiceConsult.tsx:173-183 | The `forEach` emits exactly RowOps of the visible list and leaves the cursor 10 units lower per row |
| Report.RenderReport | src/app/components/invoiceConsult.tsx:149-187 | The cursor-walking loop emits exactly the report plan: title, rule, a line and a rule per row, total |
| Report.ReportTexts | src/app/components/invoiceConsult.tsx:159-185 | The text lines are the title, one row per visible invoice in list order, and the total: N + 2 lines |
| Report.ReportCursor | src/app/components/invoiceConsult.tsx:153-185 | The title is at 25, the total at 50 + 10N, and every call is strictly below the previous one |
| ConsultView.Staged | src/app/components/invoiceConsult.tsx:201 | The delete guard holds only when both values are present, and fails for an empty id or file key, because the empty string is false |
| ConsultView.QueryKey | src/app/components/invoiceConsult.tsx:63-66 | A query is made exactly for a selected month, with key "2024-" followed by the month |
| ConsultView.InvoiceConsult.constructor | src/app/components/invoiceConsult.tsx:15-43 | Empty month, category, lists and staging, total 0, and the view is consistent |
| ConsultView.InvoiceConsult.SetFilteredInvoices | src/app/components/invoiceConsult.tsx:45-54 | Setting the visible list recomputes the total as its sum |
| ConsultView.InvoiceConsult.HandleMonthChange | src/app/components/invoiceConsult.tsx:56-66 | The month is stored. A fetch starts exactly when the month changed to a selected one; it closes over the key "2024-<month>", the month and the currently selected category |
| ConsultView.InvoiceConsult.CompleteFetch | src/app/components/invoiceConsult.tsx:61-117 | On success: the sorted month list, the visible list filtered with the category the fetch closed over, and the category totals pushed under the month it closed over, which also becomes the current month. The view is consistent when that category is still selected. On failure: state kept and the failure reaction |
| ConsultView.InvoiceConsult.StoreMonth | src/app/components/invoiceConsult.tsx:91-100 | The success path stores the given month list, filters it with the category the fetch closed over, records its category totals under the fetch's month, and sets that month as current |
| ConsultView.InvoiceConsult.HandleCategoryChange | src/app/components/invoiceConsult.tsx:119-125 | The visible list is refiltered from the full month list, which makes the view consistent |
| ConsultView.InvoiceConsult.HandleDelete | src/app/components/invoiceConsult.tsx:194-198 | Stages the id and file key and opens the modal |
| ConsultView.InvoiceConsult.CancelDelete | src/app/components/invoiceConsult.tsx:351-356 | Closes the modal and nothing else |
| ConsultView.InvoiceConsult.ConfirmDelete | src/app/components/invoiceConsult.tsx:200-205 | A request starts exactly when both staged values are set and non-empty. It closes the modal and closes over the staged id and file key and the visible list. Otherwise nothing changes |
| ConsultView.InvoiceConsult.CompleteDelete | src/app/components/invoiceConsult.tsx:205-222 | Success shows the captured list without the deleted id, with the success toast; failure keeps the list and gives the failure reaction. Staging is cleared either way. The view stays consistent when the visible list did not change in between |
| ConsultView.InvoiceConsult.GenerateReport | src/app/components/invoiceConsult.tsx:149-187 | The report drawn is the plan for the current month, category, visible list and total |
| ConsultView.DeleteThenChangeCategory | src/app/components/invoiceConsult.tsx:200-224 | After a successful deletion and a category change, every month-list invoice with the deleted id in the chosen category is visible again |
| ConsultView.ChangeCategoryDuringFetch | src/app/components/invoiceConsult.tsx:61-125 | A category chosen while a month fetch is in flight is ignored by its completion. The list is filtered with the category selected when the month changed, so "all categories" then shows the whole month under the new selection |
| ConsultView.FilterKeepsCategory | src/app/components/invoiceConsult.tsx:139-146 | Filtering keeps every invoice of the category, and every invoice when no category is selected |
| ConsultView.FilterStaysInList | src/app/components/invoiceConsult.tsx:127-147 | Every invoice the filter returns comes from the list it filters |
| ConsultView.RemovalStaysInList | src/app/components/invoiceConsult.tsx:207 | Removal only takes invoices from the visible list |
| UploadForm.NumericPrefix | src/app/components/invoiceUpload.tsx:37-38 | What `parseFloat` reads is non-empty and no longer than the text after its leading white space |
| UploadForm.NumericPrefixExactlyWhenNumeric | src/app/components/invoiceUpload.tsx:37-41 | `parseFloat` is NaN exactly when, after white space and a sign, the text does not start with a digit, a point and a digit, or "Infinity"; otherwise it reads a non-empty prefix |
| UploadForm.DecimalCommaExample | src/app/components/invoiceUpload.tsx:37 | "12,5" is read as 12.5 |
| UploadForm.SecondCommaExample | src/app/components/invoiceUpload.tsx:37 | Normalising "1,234,5" once gives "1.234,5", which is read as 1.234 |
| UploadForm.PastedAmountExample | src/app/components/invoiceUpload.tsx:112 | "1,234,5" entered in one change is stored as "1.234,5", becomes "1.234.5" at submit, and is read as 1.234 |
| UploadForm.NormalizeFirstComma | src/app/components/invoiceUpload.tsx:37 | After a comma-free start, the first comma becomes a point and the rest is kept |
| UploadForm.ExponentExample | src/app/components/invoiceUpload.tsx:37 | "3e2kg" is read as 3e2: the exponent is read and trailing letters are ignored |
| UploadForm.SpaceIsSkipped | src/app/components/invoiceUpload.tsx:37-41 | A leading white-space character never changes what `parseFloat` reads |
| UploadForm.LonePointExample | src/app/components/invoiceUpload.tsx:37-41 | "," normalises to "." and is rejected as NaN |
| UploadForm.Validate | src/app/components/invoiceUpload.tsx:26-41 | Missing file first, then an empty amount, category or date, then a non-numeric amount; accepted exactly when all pass, carrying the form values and the numeric text |
| UploadForm.DataUrlContent | src/app/components/invoiceUpload.tsx:45-54 | The content sent never holds a comma; for a URL with a comma it is the text after the first comma up to the next comma or the end (the second field), and "" otherwise (DataUrlWithoutComma) |
| UploadForm.BuildPayload | src/app/components/invoiceUpload.tsx:48-55 | The request has the fixed user name, the submission's value, date, description and category, and the data URL's second field as content |
| UploadForm.DataUrlContentIsData | src/app/components/invoiceUpload.tsx:45 | For `data:<type>;base64,<data>` the content sent is exactly the data |
| UploadForm.DataUrlWithoutComma | src/app/components/invoiceUpload.tsx:54 | A result without a comma sends empty content |
| UploadForm.SubmissionPayload | src/app/components/invoiceUpload.tsx:43-55 | An accepted form sends the fixed user name, the numeric text, the date, description and category, and exactly the file's data |
| UploadForm.SubmitReaction | src/app/components/invoiceUpload.tsx:56-72 | Success gives the success toast and "/home"; an error gives an error toast, redirecting to "/" exactly on "Unauthorized" |
| UploadForm.InvoiceUpload.constructor | src/app/components/invoiceUpload.tsx:11-17 | Empty fields, no file, and the date set to the first ten characters of the clock's ISO text |
| UploadForm.InvoiceUpload.HandleFileUpload | src/app/components/invoiceUpload.tsx:19-24 | A selection replaces the file; an empty selection keeps the previous one |
| UploadForm.InvoiceUpload.HandleAmountChange | src/app/components/invoiceUpload.tsx:112 | The stored amount is the input with its first comma turned into a point |
| UploadForm.InvoiceUpload.HandleCategoryChange | src/app/components/invoiceUpload.tsx:127 | Stores the category |
| UploadForm.InvoiceUpload.HandleDescriptionChange | src/app/components/invoiceUpload.tsx:149 | Stores the description |
| UploadForm.InvoiceUpload.HandleDateChange | src/app/components/invoiceUpload.tsx:165 | Stores the date |
| UploadForm.InvoiceUpload.HandleSubmit | src/app/components/invoiceUpload.tsx:26-41 | The submit handler's outcome is the validation of the current fields |

## Left out

- Network calls (`getInvoices`, `deleteInvoice`, `createInvoice`): their settled results are method parameters. The API service module is not part of this model.
- The loading indicator (`openLoading`/`closeLoading`), `console` output, the three-second `setTimeout` before a redirect, and toast timing. The model records which toast and which redirect are produced.
- Invoice values are integers. JavaScript numbers are binary64 floats, and the sums in the total and the category totals round in floating point.
- UploadForm.Validate: the accepted value is the numeric text `parseFloat` reads, not the binary64 number it converts that text to.
- Dates.KeyTime: the NaN rule (three '/'-separated digit runs) is the model's reading of the keys built from displayed dates, not ECMAScript `Date` parsing: `new Date("2024")` is a valid date and a month-13 key is NaN in the browser, while the model reads the first as NaN and the second as a number. Only keys of displayed dates reach the comparator, and on those DisplayKey gives the reading.
- Invoices.Time: `new Date(key).getTime()` is modelled only up to order, as the ordinal yyyymmdd. The local-midnight millisecond timestamp, the time zone, and `Date` parsing of the raw record date are left out; records carry a calendar date.
- Dates.Display: the year is rendered without padding, as the `numeric` option does for years from 1000 on; locale data other than `es-ES` day/month/year order is not modelled.
- The `acc[category]` object in the category reduce is modelled as a map; category names that collide with `Object.prototype` members are not modelled.
- The shared application context is modelled as plain fields (`modal`, `currentMonth`, `invoiceDataByMonth`); its provider is not part of this model.
- Report: the logo image, the font size and `doc.save` are left out, and there is no page break in the source either. Numbers are rendered as integers.
- `disableFutureMonths`, `handleView` (`window.open`), `handleUpdate` (a log only), and role-based styling are presentation without state of interest.
- `FileReader`: reading the file is modelled as the data URL arriving as a parameter; a null reader result is not modelled.
- Concurrency: each handler and each completion is one atomic step. Completions may be applied in any order the caller chooses, and each uses the values its closure captured. React's batching of the state updates inside one handler is not modelled.
