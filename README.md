# Taller Rivera invoicing: a Dafny model of the core

Taller Rivera is a small web application for a car workshop. It records invoices
(facturas) for vehicle repairs. An invoice has a header: client, vehicle, plate,
payment state and dates. It also has two ordered lists of line items: services
(description, price, quantity) and parts (name, unit price, quantity, supplier
invoice number). This project models the parts of the application that compute
or change something, and proves properties of them:

- **JsText**: the JavaScript primitives the code relies on, stated exactly.
  These are `parseInt` (with and without radix 10, including the `0x` prefix of
  the radix-less form), `parseFloat`, `String.prototype.trim`, `length` in UTF-16
  code units, the regex `i` flag's ASCII case folding, and the `x || default`
  idiom. A JavaScript number is `Option<real>`, where `None` is NaN and NaN is
  absorbing under `+` and `*`.
- **Invoices**: the invoice and line-item data, and the totals
  (`totalServicios`, `totalRepuestos`, `totalGeneral`). A total is a left fold of
  `parseFloat(price) * parseInt(quantity)` started at 0. The fold is proved equal
  to a reference sum, insensitive to the order of the lines, and NaN exactly when
  some line does not parse.
- **Validators** (`src/utils/validators.js`): every validator, including the
  three "dangerous pattern" regexes of `validarTexto` and the e-mail regex. Each
  scanning implementation is proved equal to a declarative description of the
  language it accepts. `validarFactura` is an imperative method that pushes
  messages in the source's order. Its result is proved to hold exactly the
  messages of the failing checks, each at most once.
- **InvoiceForm** (`src/components/FormularioFactura.jsx`): the form component
  as a class whose fields are `formData`, `servicios` and `repuestos`. It has the
  handlers that replace them, the edit-load effect, the submit payload with its
  `|| 0` / `|| 1` coercions, the reset, and the two "add a line" draft rows.
- **Dashboard** (`src/components/Dashboard.jsx`): the statistics loop as a
  method with loop invariants. The loop is proved against index-based
  specification functions. The loop and its specification take the
  per-invoice total as a parameter; the component passes the general total of
  the invoice's lines. The `stats`/`cargando` state is a class.
- **Clientes** (`src/services/clientesService.js`): the record that create and
  update send, and the per-client statistics.
- **RateLimit** (`src/hooks/useRateLimit.js`): the rate-limit hook as a class.
  The proved invariant is that any two calls it lets through are at least the
  delay apart.
- **App** (`src/App.jsx`): the view and editing state, the four handlers, which
  backend call a save makes, and the render gating.

Time (`Date.now()`), backend results and the outcome of callbacks are method
parameters. A backend failure is a `Result.Err`.

## Model

| member | source | states |
|---|---|---|
| JsText.ParseIntShowInt | src/utils/validators.js:32 | `parseInt(s, 10)` reads back any integer written in decimal, whatever non-digit text follows it |
| JsText.ParseIntNoRadixShowInt | src/components/FormularioFactura.jsx:43 | `parseInt(s)` without a radix reads back a decimal integer when the text after it does not start with a digit or `x`/`X` |
| JsText.ParseIntNaN | src/utils/validators.js:32-33 | `parseInt(s, 10)` is NaN exactly when, after leading white space and one optional sign, no digit follows |
| JsText.ParseFloatShowInt | src/utils/validators.js:26 | `parseFloat` reads back every integer written in decimal |
| JsText.ParseFloatNaN | src/utils/validators.js:26-27 | `parseFloat` is NaN exactly when, after white space and a sign, neither a digit nor a dot followed by a digit starts the text |
| JsText.DecimalValueOfShowNat | src/utils/validators.js:32 | the decimal value of the digits of `n` is `n` |
| JsText.Trim | src/utils/validators.js:40 | `trim()` returns the infix left after removing white space from both ends, and it neither starts nor ends with white space |
| JsText.TrimStart | src/utils/validators.js:40 | the suffix after the leading white space, starting with a non-space |
| JsText.TrimEnd | src/utils/validators.js:40 | the prefix before the trailing white space, ending with a non-space |
| JsText.TrimOfAllSpaces | src/utils/validators.js:40-41 | a text of white space only trims to the empty text |
| JsText.Utf16Length | src/utils/validators.js:9 | `length` counts UTF-16 units: between one and two per character, exactly one per character of the Basic Multilingual Plane |
| JsText.ToLowerAscii | src/utils/validators.js:45 | the `i` flag folds each of `A`-`Z` to the same letter in lower case and leaves every other character alone |
| JsText.Add | src/components/FormularioFactura.jsx:111 | `+` is a number exactly when both operands are, and then it is their sum |
| JsText.Mul | src/components/FormularioFactura.jsx:111 | `*` is a number exactly when both operands are, and then it is their product |
| JsText.NumOfInt | src/components/FormularioFactura.jsx:111 | an integer result of `parseInt` used as a number keeps its value, and NaN stays NaN |
| JsText.NumOr | src/components/FormularioFactura.jsx:42 | `x \|\| d` on numbers is `d` for NaN and 0, and `x` otherwise |
| JsText.IntOr | src/components/FormularioFactura.jsx:43 | `x \|\| d` on `parseInt` results is `d` for NaN and 0; with `d != 0` the result is never 0 |
| JsText.StrOr | src/components/FormularioFactura.jsx:21-28 | `x \|\| d` on strings is `d` for a missing or empty string, and `x` otherwise |
| Invoices.CalcularTotales | src/components/FormularioFactura.jsx:111-113 | each category total is the sum of the line values; the general total is their sum |
| Invoices.FoldSumIsSum | src/components/FormularioFactura.jsx:111 | the left fold from `acc` is `acc` plus the reference sum |
| Invoices.SumDefinedIff | src/components/FormularioFactura.jsx:111 | a sum is a number exactly when every summand is |
| Invoices.SumAppend | src/components/FormularioFactura.jsx:111 | the sum of a concatenation adds the two sums |
| Invoices.SumPermutation | src/components/FormularioFactura.jsx:111-112 | sequences with the same multiset of values have the same sum |
| Invoices.MapValuesPermutation | src/components/FormularioFactura.jsx:111-112 | mapping line values over two permutations of the lines gives the same multiset of values |
| Invoices.MapValuesAt | src/components/FormularioFactura.jsx:111 | the i-th mapped value is the value of the i-th line |
| Invoices.EmptyTotals | src/components/FormularioFactura.jsx:111-113 | no lines give totals 0, 0 and 0 |
| Invoices.TotalGeneralDefinedIff | src/components/FormularioFactura.jsx:111-113 | the general total is a number exactly when every service and every part value is |
| Invoices.TotalsIgnoreServiceOrder | src/components/FormularioFactura.jsx:111 | reordering the services changes none of the totals |
| Invoices.TotalsIgnorePartOrder | src/components/FormularioFactura.jsx:112 | reordering the parts changes none of the totals |
| Invoices.FoldSumAppend | src/components/FormularioFactura.jsx:111 | folding one more value adds it to the running total |
| Invoices.TotalServiciosAppend | src/components/FormularioFactura.jsx:111 | appending a service adds its value to the services total |
| Invoices.TotalRepuestosAppend | src/components/FormularioFactura.jsx:112 | appending a part adds its value to the parts total |
| Validators.ValidarNumeroFactura | src/utils/validators.js:13-16 | accepted exactly when the length is 1..20 and every character is `A`-`Z`, `0`-`9` or `-` |
| Validators.ValidarPlaca | src/utils/validators.js:19-22 | accepted exactly when the length is 1..10 over the same alphabet |
| Validators.PlacaIsNumeroFactura | src/utils/validators.js:13-22 | every valid plate is a valid invoice number |
| Validators.LowerCaseRejected | src/utils/validators.js:13-22 | a lower-case letter anywhere makes both a plate and an invoice number invalid |
| Validators.UndefinedIsRejected | src/utils/validators.js:90-96 | a missing plate or invoice number (which the regex sees as the text `undefined`) fails |
| Validators.ValidarPrecioOfInt | src/utils/validators.js:25-28 | a whole-number price is valid exactly when it lies in 0..999999 |
| Validators.ValidarCantidadOfInt | src/utils/validators.js:31-34 | a quantity written as an integer is valid exactly when it lies in 1..9999 |
| Validators.ValidarCantidadIgnoresSuffix | src/utils/validators.js:31-34 | text after the digits does not change the verdict (`"5abc"` is a valid quantity) |
| Validators.RunFrom | src/utils/validators.js:45 | the greedy run of a character class from `i` is maximal and stays inside the class |
| Validators.RunFromIs | src/utils/validators.js:45 | any maximal in-class stretch from `i` is the greedy run |
| Validators.HandlerTailScanIff | src/utils/validators.js:45 | the scan for `\w+\s*=` after `on` accepts exactly when word characters, then spaces, then `=` follow |
| Validators.HandlerTailScanSound | src/utils/validators.js:45 | what the `\w+\s*=` scan accepts has the declared shape |
| Validators.HandlerTailScanComplete | src/utils/validators.js:45 | every text of the declared `\w+\s*=` shape is found by the scan |
| Validators.OnHandlerScanIff | src/utils/validators.js:45 | `on\w+\s*=` matched case-insensitively at a position is the declared shape at that position |
| Validators.WordStopsAt | src/utils/validators.js:45 | white space and `=` are not word characters, so `\w+` stops before them |
| Validators.Test | src/utils/validators.js:50 | `pattern.test(s)` from `from` is true exactly when the pattern matches at some position at or after `from` |
| Validators.NoDangerIff | src/utils/validators.js:44-50 | no pattern fires exactly when the text has no `<script`, no `javascript:`, no `on…=` handler, no standalone OR/AND/DROP/INSERT in any case, and none of `<>'"` |
| Validators.ValidarTextoIff | src/utils/validators.js:37-51 | text is valid exactly when present and non-empty, its trimmed length lies in the bounds, and it is free of every dangerous pattern |
| Validators.ApostropheRejected | src/utils/validators.js:47-50 | any text containing an apostrophe is rejected |
| Validators.StandaloneOrRejected | src/utils/validators.js:46-50 | `Or` as a whole word, in any case, is rejected |
| Validators.EmailScanIff | src/utils/validators.js:8 | the scanning e-mail check accepts exactly `local@domain.tld` with no white space or `@` in the parts and at least one dot in the domain part with non-empty text after it; further dots may follow |
| Validators.EmailScanSound | src/utils/validators.js:8 | an address the scan accepts splits at its first `@` and the first dot after the domain's first character |
| Validators.EmailScanComplete | src/utils/validators.js:8 | every split the pattern allows is accepted by the scan |
| Validators.EarlierDot | src/utils/validators.js:8 | the greedy dot-free run from `i` stops at or before any dot at or after `i` |
| Validators.ValidarEmailShape | src/utils/validators.js:7-10 | an accepted e-mail has at most 254 units, an `@` between two non-empty parts, a dot after the `@`, and no white space |
| Validators.TrailingDotAccepted | src/utils/validators.js:8 | `a@b.c.` is accepted: the domain may end in a dot |
| Validators.ContrasenaIffRequisitos | src/utils/validators.js:61-84 | a password is valid exactly when every requirement that `obtenerRequisitos` reports is met |
| Validators.ContrasenaRules | src/utils/validators.js:61-73 | a password is valid exactly when it has at least 12 units, an upper-case letter, a lower-case letter, a digit and a listed special character |
| Validators.ShortPasswordRejected | src/utils/validators.js:62 | five characters or fewer never make a valid password |
| Validators.AlgunServicioInvalidoIff | src/utils/validators.js:102 | `servicios.some(s => !check(s))` holds exactly when some service fails the check |
| Validators.AlgunRepuestoInvalidoIff | src/utils/validators.js:106 | `repuestos.some(r => !check(r))` holds exactly when some part fails the check |
| Validators.Pushed | src/utils/validators.js:88-116 | after the first `n` checks at most `n` messages have been pushed |
| Validators.PushedLength | src/utils/validators.js:88-116 | after the first `n` checks, one message has been pushed per failing check |
| Validators.PushedMembers | src/utils/validators.js:88-116 | a message has been pushed exactly when one of the checks so far failed with that message |
| Validators.PushedEmptyIff | src/utils/validators.js:88-116 | nothing has been pushed exactly when none of the checks so far failed |
| Validators.ErroresLength | src/utils/validators.js:88-117 | the list holds exactly one message per failing check |
| Validators.MensajesDistintos | src/utils/validators.js:91-115 | the seven messages are pairwise different |
| Validators.MensajeIffFalla | src/utils/validators.js:90-116 | the k-th message is among the errors exactly when the k-th check fails |
| Validators.ValidoIffAllChecksPass | src/utils/validators.js:87-122 | an invoice is valid exactly when the number and plate pass, a present client name passes `validarTexto(…, 1, 100)`, and every present line has a valid price and quantity |
| Validators.MissingListsAddNothing | src/utils/validators.js:102-116 | without line lists only the first three checks can add messages, so there are at most three |
| Validators.ValidarFactura | src/utils/validators.js:87-122 | the pushes leave exactly the messages of the failing checks, in check order; `valido` holds exactly when the list is empty |
| InvoiceForm.FormData.Set | src/components/FormularioFactura.jsx:78-81 | the named field takes the value and every other field keeps its own |
| InvoiceForm.EmptyFormFields | src/components/FormularioFactura.jsx:4-13 | a fresh form has every field empty except the payment state, `'pendiente'` |
| InvoiceForm.FormFromFactura | src/components/FormularioFactura.jsx:20-29 | each loaded field is the stored text, or `''` when missing (an empty text gives `''` either way); the payment state is the stored one, or `'pendiente'` when missing or empty |
| InvoiceForm.FormFromCompleteFactura | src/components/FormularioFactura.jsx:20-29 | an invoice with every header field set is copied verbatim |
| InvoiceForm.FilterIndex | src/components/FormularioFactura.jsx:91 | filtering out index `i` drops exactly the i-th line when `i` is in range, and nothing otherwise |
| InvoiceForm.RemovedLines | src/components/FormularioFactura.jsx:90-92 | after a removal the lines before the index are unchanged and the later ones move up by one |
| InvoiceForm.SubmitService | src/components/FormularioFactura.jsx:40-44 | the description is kept; the price is the parsed price whenever it parses, and 0 when it is NaN; the quantity is the parsed one, or 1 when it is NaN or 0, so never 0 |
| InvoiceForm.SubmitPart | src/components/FormularioFactura.jsx:45-49 | the same coercions for a part (the parsed unit price, or 0 when NaN; the parsed quantity, or 1 when NaN or 0), with its supplier invoice number dropped |
| InvoiceForm.PayloadKeepsLines | src/components/FormularioFactura.jsx:38-50 | the payload keeps the header, the number and order of the lines, and each line's description or name |
| InvoiceForm.PayloadQuantitiesNonZero | src/components/FormularioFactura.jsx:43-48 | no submitted line has quantity 0 |
| InvoiceForm.SubmitCoercesGarbage | src/components/FormularioFactura.jsx:42-43 | an unparsable price is sent as 0 and an empty quantity as 1 |
| InvoiceForm.SubmitKeepsNegativeQuantity | src/components/FormularioFactura.jsx:43 | a negative quantity passes through uncorrected |
| InvoiceForm.GarbagePriceIsNaN | src/components/FormularioFactura.jsx:42 | `parseFloat` of a text with no digits, such as `abc`, is NaN |
| InvoiceForm.MinusTwoParses | src/components/FormularioFactura.jsx:43 | `parseInt` without a radix reads `-2` as -2 |
| InvoiceForm.Formulario.constructor | src/components/FormularioFactura.jsx:4-16 | the form starts empty |
| InvoiceForm.Formulario.Totales | src/components/FormularioFactura.jsx:111-113 | the general total shown is the sum of the two category totals |
| InvoiceForm.Formulario.LoadForEdit | src/components/FormularioFactura.jsx:18-33 | a present invoice replaces the header and both lists, a missing list becoming empty; no invoice changes nothing |
| InvoiceForm.Formulario.HandleChange | src/components/FormularioFactura.jsx:76-82 | exactly the named field changes |
| InvoiceForm.Formulario.AgregarServicio | src/components/FormularioFactura.jsx:84-88 | one service is appended at the end exactly when description and price are non-empty; otherwise the list is unchanged |
| InvoiceForm.Formulario.EliminarServicio | src/components/FormularioFactura.jsx:90-92 | the service at the index is removed and the rest keep their order; an out-of-range index changes nothing |
| InvoiceForm.Formulario.AgregarRepuesto | src/components/FormularioFactura.jsx:94-98 | one part is appended exactly when name and unit price are non-empty |
| InvoiceForm.Formulario.EliminarRepuesto | src/components/FormularioFactura.jsx:100-102 | the part at the index is removed; an out-of-range index changes nothing |
| InvoiceForm.Formulario.LimpiarFormulario | src/components/FormularioFactura.jsx:56-69 | the form is empty again |
| InvoiceForm.Formulario.HandleSubmit | src/components/FormularioFactura.jsx:35-54 | the payload is built from the state before the call, and the form is then emptied |
| InvoiceForm.Formulario.HandleCancelar | src/components/FormularioFactura.jsx:71-74 | the form is emptied |
| InvoiceForm.ServiceDraft.constructor | src/components/FormularioFactura.jsx:317 | the draft starts with empty description and price, and quantity 1 |
| InvoiceForm.ServiceDraft.SetDescripcion | src/components/FormularioFactura.jsx:377 | the description input sets the draft description |
| InvoiceForm.ServiceDraft.SetPrecio | src/components/FormularioFactura.jsx:386 | the price input sets the draft price |
| InvoiceForm.ServiceDraft.SetCantidad | src/components/FormularioFactura.jsx:397 | the quantity input sets the draft quantity |
| InvoiceForm.ServiceDraft.HandleAgregar | src/components/FormularioFactura.jsx:319-324 | a filled draft is appended to the form's services and reset; an incomplete one changes nothing |
| InvoiceForm.PartDraft.constructor | src/components/FormularioFactura.jsx:418 | the draft starts empty, with quantity 1 |
| InvoiceForm.PartDraft.SetNombre | src/components/FormularioFactura.jsx:481 | the name input sets the draft name |
| InvoiceForm.PartDraft.SetNumeroFactura | src/components/FormularioFactura.jsx:490 | the supplier invoice input sets the draft number |
| InvoiceForm.PartDraft.SetPrecioUnitario | src/components/FormularioFactura.jsx:499 | the unit price input sets the draft unit price |
| InvoiceForm.PartDraft.SetCantidad | src/components/FormularioFactura.jsx:510 | the quantity input sets the draft quantity |
| InvoiceForm.PartDraft.HandleAgregar | src/components/FormularioFactura.jsx:420-425 | a filled draft is appended to the form's parts and reset; an incomplete one changes nothing |
| Dashboard.PaidGeneralTotals | src/components/Dashboard.jsx:26-34 | the general totals of the paid invoices, at most one per invoice |
| Dashboard.PaidGeneralTotalsAppend | src/components/Dashboard.jsx:26-34 | one more invoice adds its general total exactly when it is paid |
| Dashboard.CountsPartition | src/components/Dashboard.jsx:26-34 | every invoice seen is counted as either paid or pending |
| Dashboard.PaidRevenueIsSum | src/components/Dashboard.jsx:26-34 | the running revenue is the sum of the general totals of the paid invoices seen |
| Dashboard.IngresosArePaidTotals | src/components/Dashboard.jsx:27-33 | the revenue after a load is the sum of the general totals of exactly the paid invoices |
| Dashboard.NoPaidInvoices | src/components/Dashboard.jsx:28-33 | without paid invoices everything is pending and the revenue is 0 |
| Dashboard.PendingIsEverythingElse | src/components/Dashboard.jsx:28 | a missing state or any other spelling of `'pagado'` counts as pending |
| Dashboard.EmptyListStats | src/components/Dashboard.jsx:36-41 | an empty list gives all-zero stats |
| Dashboard.Aggregate | src/components/Dashboard.jsx:22-41 | the loop computes the specified stats, and paid plus pending equals the number of invoices |
| Dashboard.Dashboard.constructor | src/components/Dashboard.jsx:5-11 | the stats start at zero and loading starts true |
| Dashboard.Dashboard.CargarEstadisticas | src/components/Dashboard.jsx:17-47 | a fetched list replaces the stats, a failed fetch keeps them, and loading ends either way |
| Dashboard.StatsAsWrittenIgnoresInvoices | src/components/Dashboard.jsx:27 | with the missing `calcularTotales`, one paid invoice still shows zero invoices |
| Clientes.NullIfEmpty | src/services/clientesService.js:44-47 | `x \|\| null` gives `null` for a missing or empty string, and the string otherwise |
| Clientes.RegistroCrear | src/services/clientesService.js:42-48 | the name is copied; phone, e-mail, address and notes become `null` when missing or empty, and are copied otherwise |
| Clientes.CrearYActualizarCoinciden | src/services/clientesService.js:60-66 | update writes the same record as create |
| Clientes.RegistroIdempotente | src/services/clientesService.js:42-48 | building the record from a built record changes nothing |
| Clientes.GastoServicios | src/services/clientesService.js:107-108 | the services fold, or 0 when the collection is missing or the fold is NaN |
| Clientes.GastoRepuestos | src/services/clientesService.js:109-110 | the parts fold, or 0 when the collection is missing or the fold is NaN |
| Clientes.SumFoldIsSum | src/services/clientesService.js:106-112 | the fold over the invoices is its start plus the reference sum |
| Clientes.SumOfAppend | src/services/clientesService.js:106-112 | the sum over a concatenation is the sum of the two sums |
| Clientes.TotalGastado | src/services/clientesService.js:106-112 | the money spent is the sum over the invoices of what each contributes |
| Clientes.GastoMatchesTotales | src/services/clientesService.js:106-111 | where an invoice's general total is a number, the client service counts exactly that amount |
| Clientes.NaNServicesContributeNothing | src/services/clientesService.js:107-108 | an invoice with an unparsable service still contributes its parts |
| Clientes.CountWithState | src/services/clientesService.js:114-115 | a filter count never exceeds the number of invoices |
| Clientes.PendingAndPaidAtMostTotal | src/services/clientesService.js:114-115 | pending plus paid is at most the number of invoices |
| Clientes.CountWithStateAppend | src/services/clientesService.js:114 | one more invoice adds one to a count exactly when it has that state |
| Clientes.DashboardAgreesOnPaid | src/services/clientesService.js:115 | the client history and the dashboard count the same paid invoices, and the dashboard counts at least as many pending |
| Clientes.UltimaVisita | src/services/clientesService.js:122 | the creation date of the first (newest) invoice, or `null` when there is none or it is empty |
| Clientes.EstadisticasCliente | src/services/clientesService.js:102-124 | the count is the number of invoices, the spending is the sum of the contributions, and pending plus paid is at most the count |
| Clientes.NoInvoicesStats | src/services/clientesService.js:102-124 | a client without invoices has zero everything and no last visit |
| RateLimit.CeilDivIsCeiling | src/hooks/useRateLimit.js:18 | the integer `Math.ceil(a / b)` is the least `q` with `q * b >= a` |
| RateLimit.SecondsToWaitBounds | src/hooks/useRateLimit.js:17-19 | a rejected call with a clock that did not go back waits between 1 second and the delay rounded up to seconds |
| RateLimit.DefaultWaitAtMostTwoSeconds | src/hooks/useRateLimit.js:7-18 | with the default 2000 ms the wait shown is 1 or 2 seconds |
| RateLimit.SpacedPairs | src/hooks/useRateLimit.js:15-17 | neighbours at least the delay apart means any two entries are at least the delay apart |
| RateLimit.RateLimiter.constructor | src/hooks/useRateLimit.js:7-10 | no request yet (time 0), not loading, nothing to wait for |
| RateLimit.RateLimiter.Admit | src/hooks/useRateLimit.js:14-26 | a call is admitted exactly when the delay has passed; a rejected one only publishes the wait, and an admitted one records `now`, clears the wait and starts loading |
| RateLimit.RateLimiter.Settle | src/hooks/useRateLimit.js:28-35 | the callback's result or error is passed on unchanged, loading ends, and the request time stays recorded |
| RateLimit.RateLimiter.ExecuteWithRateLimit | src/hooks/useRateLimit.js:12-38 | `null` exactly when the delay has not passed, with the state as for a rejection; otherwise the callback's outcome, with `now` recorded |
| RateLimit.AcceptedCallsApart | src/hooks/useRateLimit.js:15-26 | any two admitted calls are at least the delay apart, and the first is at least the delay after time 0 |
| App.LlamadaDeGuardado | src/App.jsx:19-33 | a save updates the invoice being edited, by its id, exactly when there is one, and creates otherwise; the payload is sent unchanged |
| App.ContenidoDe | src/App.jsx:160-174 | the form is shown exactly on the form view and receives the invoice being edited; the statistics are shown exactly on the dashboard view |
| App.Render | src/App.jsx:73-88 | the loading screen exactly while authentication loads, the login exactly when it does not and there is no user, the main layout otherwise |
| App.GatingIgnoresNavigation | src/App.jsx:73-88 | while loading or signed out, the view and the editing state do not change the screen |
| App.EditingOnlyInForm | src/App.jsx:164-170 | in a reachable state an invoice under edit appears only in the form |
| App.AppState.constructor | src/App.jsx:15-16 | the app starts on the dashboard with nothing being edited |
| App.AppState.HandleGuardarFactura | src/App.jsx:19-38 | the call made follows `LlamadaDeGuardado`; success ends the editing and shows the invoice list; failure changes nothing |
| App.AppState.HandleEditarFactura | src/App.jsx:40-45 | the invoice becomes the one being edited and the form is shown |
| App.AppState.HandleCancelarEdicion | src/App.jsx:47-51 | the editing ends and the dashboard is shown |
| App.AppState.HandleNavigate | src/App.jsx:53-57 | the view becomes the chosen one and the editing ends |
| App.NavigateThenSave | src/App.jsx:19-57 | a save right after a navigation always creates, never overwrites |
| App.EditThenSave | src/App.jsx:19-45 | editing an invoice and saving updates exactly that invoice; a failed save keeps it under edit in the form |

## Left out

- Floating-point rounding: numbers are exact reals, so the model does not capture rounding in sums and products. The `Infinity` literal and numbers too large for a double are also not modelled: `parseFloat("Infinity")` reads as NaN here.
- Backend access: the query functions of `src/services/clientesService.js` and all of `src/services/facturasService.js`, `src/services/authService.js` and `src/services/supabase.js` are I/O through a library that is not shown. Fetched data and failures are parameters.
- Session timeout (`src/hooks/useSessionTimeout.js`): timers and DOM listeners only.
- `sanitizarHTML`: it depends on the DOM.
- Locale formatting (`Intl.NumberFormat`, `toLocaleDateString`): display only.
- Toasts, `window.confirm`, `window.scrollTo` and the `setTimeout` around the success toast in `src/App.jsx`: side effects with no state of the model.
- The auth and theme contexts: `hayUsuario` and `cargandoAuth` are parameters of `App.Render`.
- Logout and the login callback of `src/App.jsx`: they only call the auth context and show a toast.
- `App.AppState.HandleNavigate`: the view is one of the three views the application navigates to. An arbitrary string, which would render an empty main area, is not modelled.
- React state batching and the awaiting of `onGuardar`: the form resets right after handing the payload over, and the save's outcome is a parameter of `App.AppState.HandleGuardarFactura`. Interleavings of concurrent saves are not modelled.
- `RateLimit.RateLimiter.ExecuteWithRateLimit` runs the callback to completion. Another call arriving while the callback is awaited is captured only by the `Admit`/`Settle` split, not by an interleaving model.
- Draft quantities start as the number `1`. They are modelled as the text `"1"`, which `parseInt` reads alike.
- Line fields of stored invoices may come back from the backend as numbers. They are modelled as their decimal text, which `parseFloat`/`parseInt` read alike.
- Rendering-only components (`ListaFacturas.jsx`, `ListaClientes.jsx`, `VerFacturas.jsx`, `Login.jsx`, `FormularioCliente.jsx`, `SessionWarning.jsx`, `Toast.jsx`): no derived values.
- The order of `ultimaVisita` comes from the backend query (newest first). The model takes the list as given.
- Regex semantics: each pattern is modelled by a scanner for that one pattern, proved against a declarative description. There is no general regex engine, and `\s` is the white-space set of `trim`.

## Findings

| source | as written | input that shows it | evidently intended | confidence | as-written member | corrected member |
|---|---|---|---|---|---|---|
| src/components/Dashboard.jsx:27 | `facturasService.calcularTotales(factura)` calls a member the service object does not export. The call throws for the first invoice, the `catch` only logs, and the stats are never updated. | one paid invoice: the dashboard keeps showing 0 invoices and 0 revenue | the totals of the invoice's lines, as the form computes them at src/components/FormularioFactura.jsx:111-113 | high (the service object in src/services/facturasService.js defines seven methods, none named `calcularTotales`), not executed | Dashboard.StatsAsWrittenIgnoresInvoices | Dashboard.Aggregate |
