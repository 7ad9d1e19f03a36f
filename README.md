# Gold calculator and cash box — a Dafny model

This project models the logic of *calculadora-app-movil*, a React Native app for a
gold buyer. The operator types five fields: the ounce price in USD, the USD→PEN
exchange rate, the purity, the weight in grams and a discount percentage.
`calcularValores` turns them into a price per gram and totals, in dollars and in
soles. The day runs on a cash box ("caja"):

- it is opened with the starting gold and cash;
- every priced purchase is recorded in it;
- it can be closed;
- the day's total is the sum of the recorded totals.

Three in-memory list stores sit beside it:

- the app's transaction list;
- a second, append-only transaction list;
- the product catalogue, which is updated after server requests.

The modules follow the source files:

| module | file | models |
|---|---|---|
| `Numeros` | numeros.dfy | the calculator's `parse`: first comma → point, `parseFloat`, NaN → 0 |
| `AppCalculadora` | calculadora.dfy | the records and the `calcularValores` of `src/app/utils/calculadora.ts` |
| `Calculadora` | calculadora.dfy | the `calcularValores` of `src/utils/calculadora.ts`, the one the registration screen uses |
| `Example` | calculadora.dfy | the worked example 1980.45 / 3.75 / 0.75 / 10 g / 5 % |
| `ProfileConfig` | profile_config.dfy | the profile screen's inline price formula |
| `Listas` | listas.dfy | filter-by-id and map-by-id, shared by the list stores |
| `CajaContext` | caja_context.dfy | the cash box provider of `src/context/SaleContext.tsx`, a class |
| `DailyHistory` | daily_history.dfy | the day's total, a left fold |
| `TransactionContext` | transaction_context.dfy | the seeded transaction list, a class |
| `TransaccionesContext` | transacciones_context.dfy | the append-only list, a class |
| `ProductContext` | product_context.dfy | the product list and its four request-driven updates, a class |
| `RegisterTransaction` | register_transaction.dfy | the registration screen: form, modal, `registrar` |
| `OpenRegister` | open_register.dfy | the opening screen's `abrir` |

Numbers are Dafny `real`, so the formulas hold exactly. JavaScript's `parseFloat` is
modelled as a reader of plain decimal literals: leading white space, a sign, digits,
and an optional point followed by digits. `None` stands for NaN.

The clock, `uuid.v4()`, `toLocaleTimeString()` and `toISOString()` are parameters of
the operations that use them. So is the outcome of each awaited server request
(`Response`: `Ok(data)` or `Failed`).

The worked example prices at about 45.367 USD, or 170.126 PEN, per gram. Ten grams
come to about 453.67 USD, or 1701.26 PEN. Those figures are the exact values of the
code's formula (`Example.SamplePrices`).

Where the code and the intended behaviour disagree, the model follows the code, with
one exception:

- The registration screen destructures a `grams` value that `calcularValores` never
  returns, and formats it on every render, so as written the screen throws before it
  can be shown (`RegisterTransaction.RenderAsWritten`). `RegistroTransaccion.Registrar`,
  `Registro` and `Asiento` model the intended behaviour instead: the record takes the
  weight field read as a number. See "## Findings".

The model also keeps these behaviours as written:

- The registration guard never consults `cierre`, so a closed box keeps accepting
  transactions. `RegistroTransaccion.Registrar` and `Sesion` state this.
- The opening screen reads its numbers with a bare `parseFloat`. A decimal comma
  therefore truncates there (`OpenRegister.CommaTruncates`), and negative amounts
  are accepted (`OpenRegister.AcceptsNegative`).

## Model

| member | source | states |
|---|---|---|
| Numeros.ParseFloat | src/utils/calculadora.ts:11 | text with no digit reads as NaN ("Infinity" aside, see Left out); text starting with a digit reads as a non-negative number |
| Numeros.ReplaceFirstComma | src/utils/calculadora.ts:11 | `replace(",", ".")` keeps the length and every digit position, and leaves comma-free text unchanged |
| Numeros.ParseField | src/utils/calculadora.ts:11 | a field with no digit reads as 0, the fallback to 0 ("Infinity" aside, see Left out) |
| Numeros.DecimalLiteral | src/utils/calculadora.ts:11 | text that starts with `whole.frac` followed by a non-digit reads as the value of whole plus frac as a fraction |
| Numeros.WholeLiteral | src/utils/calculadora.ts:11 | text that starts with digits followed by neither a digit nor a point reads as those digits |
| Numeros.NegatedLiteral | src/app/views/OpenRegister.tsx:11-12 | a leading minus negates the value read and never turns NaN into a number or back |
| Numeros.ReplaceFirstCommaCons | src/utils/calculadora.ts:11 | a leading character other than a comma is kept and the replacement goes on in the rest |
| Numeros.ReplaceFirstCommaAt | src/utils/calculadora.ts:11 | only the first comma becomes a point |
| Numeros.CommaReadsAsPoint | src/utils/calculadora.ts:11 | a field with one decimal comma reads exactly as the same field with a point |
| Numeros.FieldWithoutComma | src/utils/calculadora.ts:11 | a comma-free field that reads as a number reads as that number, the replacement changing nothing |
| Numeros.ReadsDecimal | src/utils/calculadora.ts:11 | a field holding `whole.frac` reads as its decimal value |
| Numeros.ReadsWhole | src/utils/calculadora.ts:11 | a field holding digits reads as their value |
| Numeros.PointExample | src/utils/calculadora.ts:11 | "1980.45" reads as 1980.45 |
| Numeros.CommaExample | src/utils/calculadora.ts:11 | "1980,45" reads as 1980.45 too |
| AppCalculadora.Calcular | src/app/utils/calculadora.ts:34-55 | valid iff ounce price, rate and purity are all > 0; otherwise all outputs are 0; a valid USD price × 31.1035 = oz·purity·(1−discount); PEN price = USD price × rate; totals = price × grams with no gate; totalPEN = totalUSD × rate |
| AppCalculadora.CalcularValores | src/app/utils/calculadora.ts:19-55 | valid iff the parsed fields pass the gate; otherwise all outputs are 0; the function is total |
| AppCalculadora.PositivePrice | src/app/utils/calculadora.ts:44-45 | with a discount under 100 %, a computable price is positive in both currencies |
| AppCalculadora.NegativeWeightNegativeTotals | src/app/utils/calculadora.ts:46-47 | a negative weight gives negative totals |
| Calculadora.Calcular | src/utils/calculadora.ts:17-43 | same gate and zeros; a valid USD price × 31.1034768 = oz·purity·(1−discount); PEN = USD × rate; grams > 0 gives totals = price × grams; grams ≤ 0 gives zero totals; totalPEN = totalUSD × rate |
| Calculadora.CalcularValores | src/utils/calculadora.ts:4-44 | valid iff the parsed fields pass the gate; otherwise all outputs are 0; parsed grams ≤ 0 gives zero totals; the function is total |
| Calculadora.EmptyWeightZeroTotals | src/utils/calculadora.ts:16-35 | an empty or digit-free weight gives zero totals and leaves validity to the gate alone |
| Calculadora.VariantsAgree | src/utils/calculadora.ts:1-35 | both variants agree on validity; their prices and, for a positive weight, their totals differ only by the ounce constant |
| Calculadora.VariantsPartOnNegativeWeight | src/utils/calculadora.ts:19-35 | for a negative weight this variant totals 0 while the other totals a negative amount |
| Example.ReadsSample | src/utils/calculadora.ts:11-17 | the example fields read as 1980.45, 3.75, 0.75, 10 and 0.05 |
| Example.SamplePrices | src/utils/calculadora.ts:13-43 | the example is valid: ≈45.367 USD/g, ≈170.126 PEN/g, ≈453.67 USD, ≈1701.26 PEN |
| Example.SampleWithoutWeight | src/utils/calculadora.ts:19-35 | the example with an empty weight is valid with zero totals |
| Example.ZeroOuncePrice | src/utils/calculadora.ts:20-30 | an ounce price of "0" makes the result invalid and all zeros |
| ProfileConfig.PricePerGramUSDAsWritten | src/app/components/ProfileConfig.tsx:73 | as written, the price per gram × 31.1035 = oz·purity·(discount − 1) |
| ProfileConfig.AsWrittenIsNegated | src/app/components/ProfileConfig.tsx:63-73 | the profile screen's price is the calculator's price negated |
| ProfileConfig.AsWrittenIsNegative | src/app/components/ProfileConfig.tsx:71-73 | for any computable price and a discount under 100 %, the screen's price is negative where the calculator's is positive |
| ProfileConfig.SampleIsNegative | src/app/components/ProfileConfig.tsx:73 | the worked example shows a negative price on the profile screen |
| Listas.RemoveById | src/context/TransactionContext.tsx:67-69 | no survivor has the id; survivors come from the list; every element without the id survives; with the id absent the list is unchanged |
| Listas.RemoveByIdConcat | src/context/TransactionContext.tsx:68 | filtering distributes over concatenation, so relative order is kept |
| Listas.RemoveByIdIdempotent | src/context/TransactionContext.tsx:68 | deleting twice equals deleting once |
| Listas.RemoveByIdLength | src/context/TransactionContext.tsx:68 | the length drops by exactly the number of elements carrying the id |
| Listas.ReplaceById | src/context/ProductContext.tsx:52-54 | same length; each element with the id becomes the new one; every other element is untouched |
| Listas.ReplaceByIdKeepsOthers | src/context/ProductContext.tsx:52-54 | replacing with a same-id record changes nothing outside that id |
| CajaContext.Caja.constructor | src/context/SaleContext.tsx:41-43 | starts with no opening, no closing, no transactions |
| CajaContext.Caja.AbrirCaja | src/context/SaleContext.tsx:45-49 | stores the opening, clears the closing and empties the list |
| CajaContext.Caja.CerrarCaja | src/context/SaleContext.tsx:51-53 | sets only the closing |
| CajaContext.Caja.AgregarTransaccion | src/context/SaleContext.tsx:55-57 | appends exactly one record at the end, with no check of opening or closing |
| CajaContext.Caja.LimpiarCaja | src/context/SaleContext.tsx:59-63 | back to the initial state from any state, hence idempotent |
| DailyHistory.TotalDelDia | src/app/views/DailyHistroy.tsx:9 | an empty day totals 0 |
| DailyHistory.ReduceShift | src/app/views/DailyHistroy.tsx:9 | the fold's start value only shifts the result |
| DailyHistory.TotalConcat | src/app/views/DailyHistroy.tsx:9 | total(a ++ b) = total(a) + total(b) |
| DailyHistory.TotalAppend | src/app/views/DailyHistroy.tsx:9 | total(l ++ [t]) = total(l) + t.totalPEN |
| DailyHistory.TotalReadsOnlyTotalPEN | src/app/views/DailyHistroy.tsx:9 | lists with the same `totalPEN` values have the same total, whatever else differs |
| DailyHistory.TotalCaja | src/app/views/DailyHistroy.tsx:7-9 | a box with no transactions shows 0 |
| TransactionContext.Seed | src/context/TransactionContext.tsx:30-61 | two seeded records, ids 1 and 2, in that order |
| TransactionContext.TransactionStore.constructor | src/context/TransactionContext.tsx:30-61 | starts with the seed |
| TransactionContext.TransactionStore.AddTransaction | src/context/TransactionContext.tsx:63-65 | appends a copy of the record whose id is the clock reading and every other field is kept |
| TransactionContext.TransactionStore.DeleteTransaction | src/context/TransactionContext.tsx:67-69 | the list becomes the id-filtered list (see `Listas.RemoveById`) |
| TransactionContext.DeleteAfterAdd | src/context/TransactionContext.tsx:63-69 | deleting the id just stamped removes the new record and any older one sharing the id |
| TransactionContext.IdsCanCollide | src/context/TransactionContext.tsx:30-69 | ids are not unique: a clock reading of 1 duplicates a seeded id, and deleting 1 removes both |
| TransaccionesContext.TransaccionesStore.constructor | src/context/TransaccionesContext.tsx:29 | starts empty |
| TransaccionesContext.TransaccionesStore.AgregarTransaccion | src/context/TransaccionesContext.tsx:31-33 | appends any record at the end and keeps the prefix |
| ProductContext.ProductStore.constructor | src/context/ProductContext.tsx:25 | starts empty |
| ProductContext.ProductStore.FetchAll | src/context/ProductContext.tsx:27-34 | success replaces the list; failure leaves it |
| ProductContext.ProductStore.Create | src/context/ProductContext.tsx:36-45 | success appends the returned product; failure leaves the list |
| ProductContext.ProductStore.Update | src/context/ProductContext.tsx:47-58 | success replaces every product with the id (see `Listas.ReplaceById`); failure leaves the list |
| ProductContext.ProductStore.Remove | src/context/ProductContext.tsx:60-67 | success drops every product with the id (see `Listas.RemoveById`); failure leaves the list |
| RegisterTransaction.Asignar | src/app/views/RegisterTransaction.tsx:31-33 | the named field takes the new text and the others keep theirs |
| RegisterTransaction.Asiento | src/app/views/RegisterTransaction.tsx:50-56 | the record's weight is the parsed weight (intended; see Left out); its total is its price per gram × weight, or 0 for a weight ≤ 0 or an invalid price |
| RegisterTransaction.Registro | src/app/views/RegisterTransaction.tsx:35-56 | the record built from the form: its weight is the weight field read (intended; see Left out), and a form whose price cannot be computed records price and total 0 |
| RegisterTransaction.RegistroDelCalculador | src/app/views/RegisterTransaction.tsx:35-56 | the recorded price per gram and total are exactly the calculator's `pricePerGramPEN` and `totalPEN` for the form |
| RegisterTransaction.RegistroTransaccion.constructor | src/app/views/RegisterTransaction.tsx:19-28 | empty form, modal hidden |
| RegisterTransaction.RegistroTransaccion.SetValue | src/app/views/RegisterTransaction.tsx:31-33 | the form becomes `Asignar` of the old form; the modal is unchanged |
| RegisterTransaction.RegistroTransaccion.AbrirModal | src/app/views/RegisterTransaction.tsx:162 | shows the modal and keeps the form |
| RegisterTransaction.RegistroTransaccion.Cancelar | src/app/views/RegisterTransaction.tsx:237 | hides the modal and keeps the form |
| RegisterTransaction.RegistroTransaccion.Registrar | src/app/views/RegisterTransaction.tsx:44-75 | registers iff the price is valid and the box has an opening (closing ignored); on success it appends one record, clears the form and hides the modal; otherwise nothing changes |
| RegisterTransaction.RenderAsWritten | src/app/views/RegisterTransaction.tsx:192-224 | as written, every render throws, whatever the form and whether the modal is shown, because the modal body at line 223 formats an undefined `grams`; so `registrar` is never reached |
| RegisterTransaction.RegistroEjemplo | src/app/views/RegisterTransaction.tsx:50-56 | the worked example records 10 g worth ≈1701.26 PEN |
| RegisterTransaction.SampleAsWritten | src/app/views/RegisterTransaction.tsx:35-44 | with the worked example, a valid form, the screen as written cannot be shown (modal hidden or open), where `Registrar` records 10 g |
| RegisterTransaction.Llenar | src/app/views/RegisterTransaction.tsx:31-33 | typing the five fields yields exactly that form |
| RegisterTransaction.Sesion | src/app/views/RegisterTransaction.tsx:44-75 | on a fresh box any form is refused before opening; after opening, and again after closing, it is accepted exactly when its price is valid |
| OpenRegister.Fecha | src/app/views/OpenRegister.tsx:22 | the date is the longest prefix without a 'T' that ends the text or is followed by a 'T' |
| OpenRegister.FechaUnique | src/app/views/OpenRegister.tsx:22 | those properties determine the date uniquely |
| OpenRegister.FechaExample | src/app/views/OpenRegister.tsx:22 | "2025-07-04T09:30:00Z" gives "2025-07-04" |
| OpenRegister.Abrir | src/app/views/OpenRegister.tsx:10-26 | opens iff both texts read as numbers, with those numbers and the date; the day's total is then 0; otherwise the box is unchanged |
| OpenRegister.RefusesNoDigits | src/app/views/OpenRegister.tsx:11-17 | text without digits, the empty text included, is refused ("Infinity" aside, see Left out) |
| OpenRegister.AcceptsNegative | src/app/views/OpenRegister.tsx:14 | "-5" is accepted as −5: only NaN is refused |
| OpenRegister.CommaTruncates | src/app/views/OpenRegister.tsx:11-14 | "1,5" opens with 1 because there is no comma replacement here |

## Left out

- Rendering, navigation, theming, animation, alerts and modals' looks are out of scope. The modal is one boolean.
- Receipt printing is out of scope: Bluetooth, expo-print and the ESC/POS encoder are foreign calls.
- Locale number formatting (`formatNumber`) is out of scope, as are the auth screens and hard-coded report data.
- `src/context/CashRegisterContext.tsx` stores server responses and applies no local rule, so it is not part of this model.
- Numeros.ParseFloat: exponents, "Infinity" and Unicode space characters other than the ones listed in `IsSpace` are not modelled.
- IEEE-754 rounding is not modelled. Real arithmetic is exact, so the example's figures are exact values.
- The clock, `uuid.v4()`, `toLocaleTimeString()` and `toISOString()` are parameters, not computed.
- Each server request is collapsed into one outcome parameter. Interleaving of concurrent awaited requests is not modelled.
- ProductContext.ProductStore.Create: the FormData payload and the image upload are not modelled. Only the returned product matters.
- The inline calculator copies in `src/app/components/Content.tsx` (same as the `src/app/utils` variant) and `src/app/index.tsx` (gate on truthiness, so negative inputs pass) have no model of their own.
- The duplicate opening screen in `src/app/configApp/start-day/index.tsx` is not modelled separately. It behaves like `OpenRegister.Abrir` and also clears its two fields.
- The registration screen's `isScanning` flag and its scanning overlay are UI only.
- RegisterTransaction.RegistroTransaccion.Registrar, RegisterTransaction.Registro and RegisterTransaction.Asiento model the intended screen: the record's weight is the weight field read as a number. As written, line 53 stores an undefined `grams`, and the screen throws at render before `registrar` can run (see Findings).

## Findings

| source | as written | input that shows it | evidently intended | confidence | as-written member | corrected member |
|---|---|---|---|---|---|---|
| src/app/components/ProfileConfig.tsx:73 | price per gram = (oz / 31.1035) · purity · (discount − 1) | ounce 1980.45, purity 0.75, discount 5 %: a price of about −45.37 USD/g | (1 − discount), as in both calculators | not executed; high | ProfileConfig.SampleIsNegative | AppCalculadora.PositivePrice |
| src/app/views/RegisterTransaction.tsx:223 | `grams` is destructured at line 40 from `calcularValores`, which does not return it, so it is undefined; the confirmation modal's body formats `grams.toFixed(2)` on every render, visible or not, so the screen throws a TypeError on its first render and never shows; `registrar` is unreachable and nothing is ever recorded | any state at all, e.g. the empty form on a fresh box, or the worked example with the box open | destructure nothing that is not returned: record the parsed weight, show it in the modal, then clear the form and close the modal | not executed; high | RegisterTransaction.RenderAsWritten | RegisterTransaction.RegistroTransaccion.Registrar |
