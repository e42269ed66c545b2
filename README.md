# CRUDFarmacia client pages in Dafny

CRUDFarmacia is a small pharmacy inventory app built with Next.js. This
project models its four client pages:

- the medication list (`app/medicamentos/page.tsx`);
- the new-medication form (`app/medicamentos/new/page.tsx`);
- the category list (`app/categorias/page.tsx`);
- the new-category form (`app/categorias/new/page.tsx`).

Each page is a Dafny `class` whose fields are the page's React state:

- the loaded records and the search term;
- `loading` / `isSubmitting`;
- the form text and the error messages.

Each event handler is a `method` that reassigns those fields. Whatever a handler sends to the outside world is appended to an `effects` log: a `fetch` request, a `confirm` question, an `alert`, a router `push` or `refresh`. What the outside world answers is a method parameter:

- the outcome of a load;
- the server's response;
- the user's answer to `confirm`.

On the two list pages, what the page shows (spinner, rows or an empty-table message) is a function of its state (`Render`, read through the class's `View`). On the two forms, what is on screen is given by predicates over the state: which error messages show (`Shows`, `error`) and whether the controls are disabled (`SubmitDisabled`, `ControlsDisabled`).

The JavaScript built-ins these pages rely on are modelled in their own modules, so that the page contracts can be stated in exact terms:

- `String.prototype.trim`, `toLowerCase` and `includes`;
- `Number#toString` on integers;
- `parseInt` and `parseFloat`;
- `Array.prototype.filter`;
- how `JSON.stringify` writes NaN and the infinities.

Modules:

- `Wrappers`: `Option`.
- `JsString`: `trim` (ECMAScript whitespace and line terminators), `toLowerCase`, `includes`, integer-to-decimal conversion.
- `JsNumber`: the number values NaN / finite / ±Infinity, the `<=` and `<` comparisons, `parseInt`, `parseFloat` and the JSON form of a number.
- `Sequences`: `filter` and its subsequence/multiplicity properties.
- `Browser`: requests, bodies, responses and the effect log.
- `ListaMedicamentos`, `ListaCategorias`, `NuevoMedicamento`, `NuevaCategoria`: one module per page.

The two forms send their request through a `Send` method. `Send` requires the busy flag, so every request is checked to go out while the submit button is disabled. The submit handlers require the form not to be busy. The submit button is disabled while busy; on the category form the input is as well. So a second submission cannot start while one is in flight.

## Model

| member | source | states |
|---|---|---|
| NuevoMedicamento.NuevoMedicamentoPage.ValidateForm | app/medicamentos/new/page.tsx:42-54 | installs exactly the error dictionary of the four rules and returns true exactly when no rule fires |
| NuevoMedicamento.Rule | app/medicamentos/new/page.tsx:45-50 | definition: the message each field's rule records, if it fires |
| NuevoMedicamento.RuleErrors | app/medicamentos/new/page.tsx:43-50 | definition: the error dictionary, one entry per rule that fires |
| NuevoMedicamento.RuleErrorsByField | app/medicamentos/new/page.tsx:43-50 | a field has an entry in the error dictionary exactly when its rule fires, and the entry is that rule's message |
| NuevoMedicamento.RuleErrorsUnique | app/medicamentos/new/page.tsx:43-50 | any dictionary holding exactly the fired rules' messages is the one the validator builds |
| NuevoMedicamento.ValidIffNoRuleFires | app/medicamentos/new/page.tsx:45-53 | the form is valid iff the trimmed name is non-empty, the price is given and does not parse to a number <= 0, the stock is given and does not parse to a number < 0, and a category is chosen |
| NuevoMedicamento.RequiredTakesPrecedence | app/medicamentos/new/page.tsx:46-49 | an empty price or stock gets the "requerido" message; the numeric messages appear exactly for a non-empty field whose parse fails the sign test |
| NuevoMedicamento.BlankNombreRejected | app/medicamentos/new/page.tsx:45 | a name of whitespace only is rejected as missing |
| NuevoMedicamento.ZeroStockAcceptedZeroPriceRejected | app/medicamentos/new/page.tsx:47-49 | stock "0" passes, price "0" gets "El precio debe ser mayor a 0" |
| NuevoMedicamento.DigitFieldsRule | app/medicamentos/new/page.tsx:47-49 | a digit-only price passes exactly when its value is positive; a digit-only stock always passes |
| NuevoMedicamento.NonNumericPassesSignChecks | app/medicamentos/new/page.tsx:46-49 | text that cannot start a number parses to NaN and passes both sign checks |
| NuevoMedicamento.With | app/medicamentos/new/page.tsx:35-36 | the edited field takes the new value and every other field is unchanged |
| NuevoMedicamento.ClearError | app/medicamentos/new/page.tsx:37-39 | the edited field's shown error becomes "", the keys and all other messages are unchanged |
| NuevoMedicamento.NuevoMedicamentoPage.HandleChange | app/medicamentos/new/page.tsx:34-40 | the form takes the new value; the edited field's error is no longer shown; other fields' errors are shown as before |
| NuevoMedicamento.NuevoMedicamentoPage.FetchCategorias | app/medicamentos/new/page.tsx:21-32 | one GET of /api/categorias; the categories are the loaded data, or unchanged when the load fails |
| NuevoMedicamento.NuevoMedicamentoPage.constructor | app/medicamentos/new/page.tsx:11-19 | no categories, all four fields empty, not loading, no errors |
| NuevoMedicamento.NuevoMedicamentoPage.Send | app/medicamentos/new/page.tsx:61-64 | the request is logged, and it can only be sent while the submit button is disabled |
| NuevoMedicamento.NuevoMedicamentoPage.HandleSubmit | app/medicamentos/new/page.tsx:56-86 | errors become the validation result; an invalid form sends nothing; a valid one sends exactly one POST of the payload, then navigates to /medicamentos on an ok response or alerts otherwise; loading ends false |
| NuevoMedicamento.Payload | app/medicamentos/new/page.tsx:67-72 | definition: the POST body, trimmed name and parsed numbers as JSON writes them; see `PayloadOfValidForm` |
| NuevoMedicamento.OptionValues | app/medicamentos/new/page.tsx:164-166 | definition: the values of the category select, the placeholder "" then each id's numeral; see `SelectedOptionRoundTrips` |
| NuevoMedicamento.NuevoMedicamentoPage.Shows | app/medicamentos/new/page.tsx:108 | definition: a field's error shows when it holds a non-empty message |
| NuevoMedicamento.NuevoMedicamentoPage.SubmitDisabled | app/medicamentos/new/page.tsx:182 | definition: the submit button is disabled while loading |
| NuevoMedicamento.PayloadOfValidForm | app/medicamentos/new/page.tsx:67-72 | a valid form sends a non-empty name with no whitespace at either end, a price that is null or > 0 and a stock that is null or >= 0 |
| NuevoMedicamento.PassingNumbersInJson | app/medicamentos/new/page.tsx:69-70 | numbers that pass the sign checks are written to JSON as null or with their sign intact |
| NuevoMedicamento.SelectedOptionRoundTrips | app/medicamentos/new/page.tsx:164-166 | choosing the placeholder fails validation; choosing a category passes the category rule and sends that category's id |
| ListaMedicamentos.Matches | app/medicamentos/page.tsx:47-48 | definition: the lowercased term occurs in the lowercased name or in the lowercased category name |
| ListaMedicamentos.FilteredMedicamentos | app/medicamentos/page.tsx:46-49 | definition of `filteredMedicamentos`; characterised by `FilteredAreTheMatches` |
| ListaMedicamentos.StockBadge | app/medicamentos/page.tsx:122 | definition: green above 10 units, red otherwise; see `StockBadgeThreshold` |
| ListaMedicamentos.EmptyMessage | app/medicamentos/page.tsx:154 | definition: the "no match" text for a non-empty term, else "nothing registered" |
| ListaMedicamentos.Render | app/medicamentos/page.tsx:83-157 | definition: spinner while loading, else the filtered rows or the empty-table message; characterised by `RenderedTable` |
| ListaMedicamentos.FilteredAreTheMatches | app/medicamentos/page.tsx:46-49 | the filtered list is the order-preserving subsequence of the matching records, with each matching record as often as in the input |
| ListaMedicamentos.EmptyTermKeepsAll | app/medicamentos/page.tsx:46-49 | an empty search term shows every record |
| ListaMedicamentos.FilterIgnoresCase | app/medicamentos/page.tsx:47-48 | two terms equal up to letter case select the same rows |
| ListaMedicamentos.FilterLowercasedTerm | app/medicamentos/page.tsx:47-48 | a lowercased term selects what the term selects |
| ListaMedicamentos.FilterTwice | app/medicamentos/page.tsx:46-49 | filtering the filtered list again changes nothing |
| ListaMedicamentos.ParacFindsParacetamol | app/medicamentos/page.tsx:47 | "parac" matches "Paracetamol 500mg" |
| ListaMedicamentos.StockBadgeThreshold | app/medicamentos/page.tsx:122 | 10 units is red and 11 green; more stock never turns green into red |
| ListaMedicamentos.RenderedTable | app/medicamentos/page.tsx:111-155 | rows show iff some record matches; "No hay medicamentos registrados" iff nothing is loaded and the term is empty; "No se encontraron…" iff the term is non-empty and nothing matches |
| ListaMedicamentos.ListaMedicamentosPage.constructor | app/medicamentos/page.tsx:14-16 | empty list, loading, empty term, nothing sent; the spinner shows |
| ListaMedicamentos.ListaMedicamentosPage.SetSearchTerm | app/medicamentos/page.tsx:78 | the term becomes the typed value |
| ListaMedicamentos.ListaMedicamentosPage.CargarDatos | app/medicamentos/page.tsx:18-29 | one GET of /api/medicamentos; the list becomes the data or stays on failure; loading ends false, so the table shows, with rows exactly when some record matches the term |
| ListaMedicamentos.ListaMedicamentosPage.Eliminar | app/medicamentos/page.tsx:31-40 | always asks; sends the DELETE of /api/medicamentos/{id} only on yes; reloads only once the DELETE resolves; otherwise the list and loading are unchanged |
| ListaCategorias.Matches | app/categorias/page.tsx:45-46 | definition: the lowercased term occurs in the lowercased name, or the raw term occurs in the id's numeral |
| ListaCategorias.FilteredCategorias | app/categorias/page.tsx:44-47 | definition of `filteredCategorias`; characterised by `FilteredAreTheMatches` |
| ListaCategorias.EmptyMessage | app/categorias/page.tsx:137 | definition: the "no match" text for a non-empty term, else "nothing registered" |
| ListaCategorias.Render | app/categorias/page.tsx:81-140 | definition: spinner while loading, else the filtered rows or the empty-table message; characterised by `RenderedTable` |
| ListaCategorias.FilteredAreTheMatches | app/categorias/page.tsx:44-47 | the filtered list is the order-preserving subsequence of the matching records, with multiplicities |
| ListaCategorias.EmptyTermKeepsAll | app/categorias/page.tsx:44-47 | an empty search term shows every category |
| ListaCategorias.IdTermFindsCategory | app/categorias/page.tsx:46 | typing a category's id finds that category |
| ListaCategorias.NonDigitTermMatchesByName | app/categorias/page.tsx:45-46 | for a non-negative id, a term holding a non-digit matches only through the name |
| ListaCategorias.FilterIgnoresCase | app/categorias/page.tsx:45-46 | two terms equal up to letter case select the same rows, although the id test uses the raw term |
| ListaCategorias.IdMatchIgnoresCase | app/categorias/page.tsx:46 | a term found in an id numeral is the only term with its lowercase form |
| ListaCategorias.FilterTwice | app/categorias/page.tsx:44-47 | filtering the filtered list again changes nothing |
| ListaCategorias.RenderedTable | app/categorias/page.tsx:103-139 | rows show iff some category matches; "No hay categorías registradas" iff nothing is loaded and the term is empty; "No se encontraron…" iff the term is non-empty and nothing matches |
| ListaCategorias.ListaCategoriasPage.constructor | app/categorias/page.tsx:12-14 | empty list, loading, empty term, nothing sent; the spinner shows |
| ListaCategorias.ListaCategoriasPage.SetSearchTerm | app/categorias/page.tsx:76 | the term becomes the typed value |
| ListaCategorias.ListaCategoriasPage.CargarDatos | app/categorias/page.tsx:16-27 | one GET of /api/categorias; the list becomes the data or stays on failure; loading ends false, so the table shows, with rows exactly when some category matches the term |
| ListaCategorias.ListaCategoriasPage.Eliminar | app/categorias/page.tsx:29-38 | always asks; sends the DELETE of /api/categorias/{id} only on yes; reloads only once the DELETE resolves |
| NuevaCategoria.NuevaCategoriaPage.constructor | app/categorias/new/page.tsx:8-10 | empty name, no error, not submitting |
| NuevaCategoria.NuevaCategoriaPage.OnNombreChange | app/categorias/new/page.tsx:64-67 | the name becomes the typed value and no error remains |
| NuevaCategoria.NuevaCategoriaPage.Send | app/categorias/new/page.tsx:20-28 | the request is logged, and it can only be sent while the controls are disabled and the error has been cleared |
| NuevaCategoria.NuevaCategoriaPage.HandleSubmit | app/categorias/new/page.tsx:12-42 | a blank name sets "El nombre es requerido" and sends nothing; otherwise one POST of the trimmed name, navigation to /categorias plus a refresh on an ok response, and the thrown message as the error otherwise; submitting ends false |
| NuevaCategoria.ServerError | app/categorias/new/page.tsx:30-32 | definition: the message of the error a non-ok response becomes, the server's non-empty message or the default |
| NuevaCategoria.SubmitError | app/categorias/new/page.tsx:30-38 | definition: the error a submission ends with, "" on an ok response, else the thrown message |
| NuevaCategoria.NuevaCategoriaPage.ControlsDisabled | app/categorias/new/page.tsx:69 | definition: input and submit button are disabled while submitting |
| NuevaCategoria.JsonRejectionShowsMessage | app/categorias/new/page.tsx:30-32 | a rejection shows the server's non-empty message, otherwise "Error al crear categoría"; never an empty error |
| NuevaCategoria.SubmitFromIdle | app/categorias/new/page.tsx:12-42 | from idle: a blank name stays idle with the required error and no request; a filled one sends exactly the POST of the trimmed name, then navigation to /categorias and a refresh on an ok response, ends idle, and shows the message of what was thrown; when the server answered with a JSON error body, no error shows exactly when it accepted |
| JsString.TrimStartSpec | app/medicamentos/new/page.tsx:45 | leading whitespace is cut, the rest is a suffix starting with a non-whitespace character |
| JsString.TrimEndSpec | app/medicamentos/new/page.tsx:45 | trailing whitespace is cut, the rest is a prefix ending with a non-whitespace character |
| JsString.TrimSpec | app/medicamentos/new/page.tsx:45 | `trim` gives the slice between the whitespace ends, with non-whitespace at both ends, and is empty exactly for whitespace-only text |
| JsString.ToLowerIdempotent | app/medicamentos/page.tsx:47-48 | lowering twice is lowering once |
| JsString.ToLowerFixesNonLetters | app/categorias/page.tsx:45-46 | only a digit lowers to a digit, and only '-' lowers to '-' |
| JsString.IncludesAt | app/medicamentos/page.tsx:47 | an occurrence at a position makes `includes` true |
| JsString.IncludesOccurrence | app/medicamentos/page.tsx:47 | `includes` true means there is a position where the term occurs |
| JsString.IncludesEmptyAndSelf | app/medicamentos/page.tsx:47 | every text includes "" and itself |
| JsString.IncludedCharsSatisfy | app/categorias/page.tsx:46 | a term included in text whose characters all satisfy a property has only such characters |
| JsString.NatToString | app/categorias/page.tsx:46 | the numeral of a natural number is non-empty, all digits, and has no leading zero |
| JsString.IntToString | app/categorias/page.tsx:46 | the numeral of an integer is made of digits and '-' |
| JsNumber.DigitsValueOfNatToString | app/categorias/page.tsx:46 | the numeral of n denotes n |
| JsNumber.ParseIntOfIntToString | app/medicamentos/new/page.tsx:71 | `parseInt` of an id's numeral gives the id back |
| JsNumber.ParseIntOfDigits | app/medicamentos/new/page.tsx:49 | `parseInt` of a run of digits is its value |
| JsNumber.ParseFloatOfDigits | app/medicamentos/new/page.tsx:47 | `parseFloat` of a run of digits is its value |
| JsNumber.DecimalPrefixOfDigits | app/medicamentos/new/page.tsx:47 | the decimal prefix of a run of digits is the whole run |
| JsNumber.ParseNonNumeric | app/medicamentos/new/page.tsx:47-49 | text whose first character cannot begin a number parses to NaN with both parsers |
| JsString.IsWhitespace | app/medicamentos/new/page.tsx:45 | definition: the characters `trim` removes, the ECMAScript WhiteSpace and LineTerminator code points |
| JsString.Trim | app/medicamentos/new/page.tsx:45 | definition of `s.trim()` as `trimEnd` after `trimStart`; its meaning is stated by `TrimSpec` |
| JsString.ToLowerChar | app/medicamentos/page.tsx:47-48 | definition: one character's `toLowerCase` on ASCII and Latin-1 capitals |
| JsString.ToLower | app/medicamentos/page.tsx:47-48 | definition of `s.toLowerCase()` character by character; properties in `ToLowerIdempotent`, `ToLowerFixesNonLetters` |
| JsString.Includes | app/medicamentos/page.tsx:47-48 | definition of `s.includes(t)` as a prefix search; equivalent to an occurrence at some position by `IncludesAt` and `IncludesOccurrence` |
| JsNumber.ParseInt | app/medicamentos/new/page.tsx:49 | definition of `parseInt`: whitespace, sign, "0x" prefix, longest digit run, NaN without digits; properties in `ParseIntOfDigits`, `ParseIntOfIntToString`, `ParseNonNumeric` |
| JsNumber.ParseFloat | app/medicamentos/new/page.tsx:47 | definition of `parseFloat`: whitespace, sign, "Infinity", longest decimal prefix, NaN without one; properties in `ParseFloatOfDigits`, `ParseNonNumeric` |
| JsNumber.AtMost | app/medicamentos/new/page.tsx:47 | definition of `x <= k`, false for NaN |
| JsNumber.LessThan | app/medicamentos/new/page.tsx:49 | definition of `x < k`, false for NaN |
| JsNumber.ToJson | app/medicamentos/new/page.tsx:67-71 | definition: a number as `JSON.stringify` writes it, null for NaN and the infinities; see `PassingNumbersInJson` |
| Sequences.Filter | app/medicamentos/page.tsx:46 | `filter` keeps at most the input's elements and only ones that pass; the full meaning is in the lemmas below |
| Sequences.FilterIsSubsequence | app/medicamentos/page.tsx:46 | `filter` keeps a subsequence of its input, in order |
| Sequences.FilterCounts | app/medicamentos/page.tsx:46 | each kept value appears as often as in the input, others not at all |
| Sequences.FilterMembership | app/medicamentos/page.tsx:46 | a value is in the result iff it is in the input and passes |
| Sequences.FilterKeepsAll | app/medicamentos/page.tsx:46 | filtering with a test every element passes changes nothing |
| Sequences.FilterIdempotent | app/medicamentos/page.tsx:46 | filtering twice is filtering once |
| Sequences.FilterAgreeing | app/categorias/page.tsx:44-47 | tests that agree on every element filter alike |

## Left out

- The API routes and the database behind them (`app/api/**`), the home page and the layout: they are not part of this model. The server is represented only by the responses the pages receive.
- The edit pages (`app/medicamentos/[id]/edit`, `app/categorias/[id]/edit`) are not part of this model.
- Network, `confirm`, `alert` and the router are modelled as outcomes passed in and effects recorded, not performed. `console.error` is not modelled, because it has no effect on state.
- React's scheduling is not modelled. Each handler runs to completion as one step. The batching of `setState` calls and renders between the awaits are not represented. The busy flags are modelled as the values they hold between those steps.
- Load data that is not an array of records is not modelled. Nor is a `message` field that is not a string.
- Layout, CSS classes, icons, and the `toFixed(2)` formatting of prices are not modelled.
- JsNumber.ParseFloat and JsNumber.ParseInt give exact real values. IEEE-754 rounding, overflow to Infinity and underflow to 0 are not modelled.
- JsString.IntToString writes every integer as plain decimal. JavaScript switches to exponent notation from 1e21 on; ids never reach that.
- JsString.ToLower maps only ASCII capitals and the Latin-1 capitals U+00C0..U+00DE (except U+00D7). Other Unicode case mappings are not modelled.
- The 'Error desconocido' fallback of the category form is not modelled. Every value thrown in that flow is an `Error`, so the fallback cannot occur.
- NuevoMedicamento.NuevoMedicamentoPage.HandleSubmit and NuevaCategoria.NuevaCategoriaPage.HandleSubmit require the form not to be busy. The disabled submit button prevents submission while busy; on the category form the input is disabled too.
- The validator follows the code, not the stated intent that a price must be a positive number. A price or stock that parses to NaN is compared with `<=` / `<`, both false, so it passes validation and is sent as `null` (`NonNumericPassesSignChecks`). With `type="number"` inputs, the browser normally sanitises such text to "".
