# Restaurant point-of-sale client: order, menu, bill and receipt logic

This project models, in Dafny, the logic of a React Native point-of-sale client used by a
restaurant's waiting staff. Most of the client is screens, REST calls and printer sockets.
The logic modelled here is what those screens compute:

- **The order being composed** (`Order`, from `screens/PedidoScreen.js`). An order is a
  list of lines `{id, nombre, precio, cantidad, notas}`. Tapping a menu item adds one to the
  first line with the same menu-item id, or appends a new line with quantity 1. Lines are
  matched on the id alone: notes play no part. A line is removed with `splice(index, 1)`,
  and the displayed total is recomputed as `Σ cantidad × precio` after every change. A
  saved order can be loaded into lines, and a new order starts empty. Saving refuses an
  empty order; otherwise it builds the create-order payload, with the takeaway flag and the
  placeholder customer name. The screen state is the class `Order.OrderEditor`. Its methods
  are proved against the specification functions `AddItem`, `RemoveAt`, `Hydrate` and
  `SumLines`. Lemmas about those functions state what each change does to the lines and to
  the total.
- **The menu catalogue** (`Catalogue`, from `components/MenuItems.js`). The category tabs
  are `"Todos"` followed by each menu category once, in order of first appearance. The item
  list is filtered by a case-insensitive substring search over the name and, when present,
  the description, and by the selected category.
- **The close-bill request** (`CloseBill`, from `api/services/mesasService.js`). The
  endpoint URL is built from the table id. The body is `{pagos}` when a non-empty payment
  list is given and `{metodoPago}` otherwise.
- **The receipt text sanitiser** (`TicketText`, from `utils/imprimirTicket.js`). Twelve
  accented Spanish letters are replaced by ASCII letters, and carriage returns are removed.
  The result is both logged and put in the print buffer; the buffer's own second removal
  of carriage returns finds none left.
- **The open-tables summary** (`Summary`, from `screens/ResumenScreen.js`). The summary
  lists the tables with pending orders. When an order is paid by cash or card, it builds the
  payment record. Only a card payment carries a `REF<timestamp>` reference.
- **The receipt item rows** (`TicketRows`, from `screens/ResumenTicketScreen.js`). Each row
  holds the quantity left-padded to at least 2 characters, a name truncated to 20 and padded
  to exactly 24, the unit price left-padded to at least 6, and the line amount left-padded to
  at least 7. Padding never truncates a longer field. The rows are joined with newlines.

Shared helpers live in `Seqs` (`filter` and the subsequence relation), `Text` (ASCII
lower-casing, `includes`, `padStart`/`padEnd`, decimal rendering of whole numbers,
`join`/`split`) and `Wrappers` (`Option`, `Result`).

Money is integer cents throughout, and quantities are integers. The source uses JavaScript
numbers for both.

Quantities only ever grow by 1 (`screens/PedidoScreen.js:105`), order lines are matched on
the menu-item id alone (`screens/PedidoScreen.js:98-100`), and several payers appear only
as the `pagos` list passed through to the close-bill body
(`api/services/mesasService.js:18-20`).

## Model

| member | source | states |
|---|---|---|
| `Order.FindLine` | screens/PedidoScreen.js:98-100 | `findIndex` returns -1 exactly when no line has the id; otherwise the returned line has the id and no earlier line does (first match) |
| `Order.FirstLineWith` | screens/PedidoScreen.js:98-100 | the specification of the first-match position: the line there has the id, no earlier line does, and the position is the length when there is no match |
| `Order.AddItem` | screens/PedidoScreen.js:96-114 | an add keeps the number of lines when the item already has a line and adds exactly one otherwise; every existing line keeps its id and position, and afterwards some line has the item's id (what happens to each line is stated by `AddExistingItem` and `AddNewItem`, the total by `AddItemTotal`) |
| `Order.AddExistingItem` | screens/PedidoScreen.js:98-106 | adding an item whose id already has a line raises the first such line's quantity by exactly 1; the number of lines is unchanged and every other line is unchanged |
| `Order.AddNewItem` | screens/PedidoScreen.js:107-112 | adding an item whose id has no line appends `{id, nombre, precio, cantidad: 1}` with no notes at the end; earlier lines are kept in order |
| `Order.AddKeepsIdsUnique` | screens/PedidoScreen.js:98-112 | if the line ids are pairwise distinct before an add, they still are after it (merge-on-match invariant) |
| `Order.AddItemTotal` | screens/PedidoScreen.js:87-114 | an add raises the total by one unit price: the price stored on the matched line (for a loaded order, the saved price), or the menu price for a new line |
| `Order.SpliceStart` | screens/PedidoScreen.js:119 | `splice` start position: an in-range index is used as is, an index at or past the end gives the end, a negative index counts from the end and is clamped at 0 |
| `Order.RemoveAt` | screens/PedidoScreen.js:117-120 | for `0 <= index < length` the result is `lines[..index] + lines[index+1..]`; for `index >= length` the lines are unchanged; a negative index on a non-empty order removes one line, the one at the position `SpliceStart` computes |
| `Order.RemoveAtTotal` | screens/PedidoScreen.js:87-121 | removing a line lowers the total by exactly that line's `cantidad × precio` |
| `Order.RemoveKeepsIdsUnique` | screens/PedidoScreen.js:117-120 | removing a line keeps the line ids pairwise distinct |
| `Order.SumLinesAppend` | screens/PedidoScreen.js:87-93 | the order total is additive: the total of two runs of lines put together is the sum of their totals |
| `Order.SumLinesNonNegative` | screens/PedidoScreen.js:87-93 | lines with non-negative quantities and prices never give a negative total |
| `Order.ComputeTotal` | screens/PedidoScreen.js:87-93 | the `sum +=` loop over the lines returns the sum of `cantidad × precio` over all lines |
| `Order.Hydrate` | screens/PedidoScreen.js:52-60 | loading a saved order keeps the number and order of lines and maps `menuItemId`→`id`, `precioUnitario`→`precio`, and `nombre`, `cantidad`, `notas` unchanged |
| `Order.HydrateTotal` | screens/PedidoScreen.js:174-185 | the total of a loaded order is its lines valued at their saved unit prices |
| `Order.SavePayload` | screens/PedidoScreen.js:124-141 | an empty order is refused and no payload is built; otherwise the payload carries the lines unchanged and the table id, empty notes and no phone; `esParaLlevar` holds iff the table label is `'Para llevar'`, and `nombreCliente` is `'Cliente'` exactly then and null otherwise |
| `Order.OrderEditor.constructor` | screens/PedidoScreen.js:27-30 | a new screen starts with no lines, total 0 and no saved order selected |
| `Order.OrderEditor.RefreshTotal` | screens/PedidoScreen.js:87-93 | the total effect sets the total to the sum over the current lines |
| `Order.OrderEditor.Add` | screens/PedidoScreen.js:96-114 | the lines become `AddItem(old lines, m)`, the total is that of the new lines, and the selection is unchanged |
| `Order.OrderEditor.Remove` | screens/PedidoScreen.js:117-121 | the lines become `RemoveAt(old lines, index)`, the total is that of the new lines, and the selection is unchanged |
| `Order.OrderEditor.Load` | screens/PedidoScreen.js:167-185 | the lines become the loaded order's lines, the order is selected, and the total is recomputed from the lines |
| `Order.OrderEditor.Reset` | screens/PedidoScreen.js:198-202 | a new order has no lines, total 0 and no selection |
| `Catalogue.Distinct` | components/MenuItems.js:16 | `new Set(...)` keeps exactly the values of its input, each once |
| `Catalogue.DistinctFirstSeenOrder` | components/MenuItems.js:16 | the distinct values come out in the order of their first appearance in the input |
| `Catalogue.CategoryColumn` | components/MenuItems.js:16 | `items.map(item => item.categoria)` keeps length and position |
| `Catalogue.Categories` | components/MenuItems.js:16 | the first tab is `'Todos'`; the other tabs are pairwise distinct and are exactly the categories some menu item has |
| `Catalogue.CategoriesFirstSeenOrder` | components/MenuItems.js:16 | the tabs after `'Todos'` are ordered by the first menu item carrying each category |
| `Catalogue.MatchesSearch` | components/MenuItems.js:20-21 | an item passes the search iff the lower-cased query occurs in the lower-cased name, or in the lower-cased description when the item has a non-empty one; without a description only the name counts |
| `Catalogue.FilteredItems` | components/MenuItems.js:19-25 | every listed item is a menu item that passes the search, and when the selected tab is not `'Todos'` it has the selected category |
| `Catalogue.MatchesCategory` | components/MenuItems.js:22 | with `'Todos'` selected every item passes; with any other tab an item passes iff its category is the selected one |
| `Catalogue.FilteredItemsExact` | components/MenuItems.js:19-25 | the list is a subsequence of the menu (order kept), an item is listed iff it is on the menu and passes both the search and the category test, and each passing item is listed as many times as it is on the menu (a failing one never) |
| `Catalogue.CategoryTabListsAll` | components/MenuItems.js:12-25 | with the search box empty, a tab other than `'Todos'` lists every menu item of that category, as many times as it is on the menu, and no other item |
| `Catalogue.UnfilteredShowsAll` | components/MenuItems.js:12-25 | with the initial empty search and `'Todos'` selected, the whole menu is listed unchanged |
| `CloseBill.CloseBillUrl` | api/services/mesasService.js:11 | the URL is the API base, `/mesas/`, the table id in decimal and `/cerrar-cuenta`, so it begins with the base and ends with `/cerrar-cuenta` |
| `CloseBill.CloseBillUrlTableSegment` | api/services/mesasService.js:11 | the part of the URL between the two fixed segments is the table id's decimal rendering |
| `CloseBill.CloseBillUrlInjective` | api/services/mesasService.js:11 | two tables never share a close-bill URL |
| `CloseBill.BodyKeys` | api/services/mesasService.js:18-20 | the body object always has exactly one key, `pagos` or `metodoPago` |
| `CloseBill.CloseBillBody` | api/services/mesasService.js:18-20 | the body has the `pagos` key iff the payment list is non-empty, and then carries the list unchanged; otherwise it has only `metodoPago`, carrying the given method (possibly null) |
| `CloseBill.CloseBillRequest` | api/services/mesasService.js:7-29 | the request goes to the table's close-bill URL under the configured API base, with `{pagos}` for a non-empty list and `{metodoPago}` otherwise |
| `CloseBill.DefaultPaymentsSendMethod` | api/services/mesasService.js:7-20 | called without `pagos` (the default `[]`, as the home screen does), the body is exactly `{metodoPago}` with the chosen method |
| `TicketText.ReplaceAll` | utils/imprimirTicket.js:13 | a global one-character replace keeps the length and changes exactly the positions holding the searched character |
| `TicketText.Unaccent` | utils/imprimirTicket.js:11-19 | the replacement table: its output is never one of the twelve accented letters, and any other character is returned unchanged |
| `TicketText.StripAccents` | utils/imprimirTicket.js:11-19 | the sanitiser keeps the length (what it does at each position is stated by `StripAccentsPerChar`) |
| `TicketText.StripAccentsPerChar` | utils/imprimirTicket.js:11-19 | the chain of twelve replaces preserves length, maps every position through the table (á/Á, é/É, í/Í, ó/Ó, ú/Ú, ñ/Ñ to a/A, e/E, i/I, o/O, u/U, n/N), leaves no accented letter and leaves all other characters unchanged |
| `TicketText.StripAccentsIdempotent` | utils/imprimirTicket.js:11-19 | sanitising twice gives the same text as sanitising once |
| `TicketText.RemoveCarriageReturns` | utils/imprimirTicket.js:37 | the result contains no `'\r'` |
| `TicketText.RemoveCarriageReturnsKeepsRest` | utils/imprimirTicket.js:37 | the result is a subsequence of the input, and its multiset of characters is the input's with every `'\r'` removed and every other character kept as often as it occurs |
| `TicketText.CleanText` | utils/imprimirTicket.js:37 | the cleaned ticket text has no carriage return and no accented letter |
| `TicketText.BufferText` | utils/imprimirTicket.js:40 | the text sent to the printer holds no carriage return and no accented letter |
| `TicketText.BufferIsCleanText` | utils/imprimirTicket.js:37-40 | the second `\r` removal is a no-op: the text put in the print buffer equals the cleaned text |
| `Summary.ActiveTables` | screens/ResumenScreen.js:32 | every listed table is one of the fetched tables and has `pedidosActivos > 0` |
| `Summary.ActiveTablesExact` | screens/ResumenScreen.js:32 | the list is a subsequence of the fetched tables (order kept), a table is listed iff it was fetched and has `pedidosActivos > 0`, and each such table is listed as many times as it was fetched |
| `Summary.ForwardedMethod` | screens/ResumenScreen.js:58-77 | Cancel forwards nothing; the other two buttons forward `'Efectivo'` or `'Tarjeta'`, and `'Tarjeta'` only for the card button |
| `Summary.CardReference` | screens/ResumenScreen.js:88 | a card reference starts with `REF` and has at least one character after it |
| `Summary.CardReferenceRoundTrip` | screens/ResumenScreen.js:88 | after `REF` a card reference is all digits, and they read back as the clock value it was built from |
| `Summary.BuildPaymentData` | screens/ResumenScreen.js:85-89 | `monto` is the total passed in and `metodoPago` the chosen method; `numeroReferencia` is present iff the method is `'Tarjeta'`, and then it is `REF` followed by the timestamp |
| `Summary.DialogPayment` | screens/ResumenScreen.js:58-89 | a payment sent from the dialog carries the order total, and has a reference iff the card button was pressed |
| `TicketRows.TruncateName` | screens/ResumenTicketScreen.js:38 | names longer than 20 characters become their first 20 characters; shorter names are kept whole |
| `TicketRows.NameColumn` | screens/ResumenTicketScreen.js:38-42 | the name column is always exactly 24 characters: the truncated name followed by spaces |
| `TicketRows.FormatCents` | screens/ResumenTicketScreen.js:41 | the two-decimal rendering has at least 4 characters, all digits, `-` or `.` |
| `TicketRows.FormatCentsRoundTrip` | screens/ResumenTicketScreen.js:41 | the rendering has the shape `[-]digits.dd` and reads back as exactly the amount in cents; it starts with `-` iff the amount is negative, and its whole part is the canonical decimal rendering of the whole units (no leading zeros), so the text is fixed exactly |
| `TicketRows.ColumnsSlices` | screens/ResumenTicketScreen.js:42 | a row of the template `cantidad + "  " + nombre + " " + precio + " " + importe` has the summed length, starts with the quantity, then two spaces and the name, and ends with the amount |
| `TicketRows.ColumnsPriceSlice` | screens/ResumenTicketScreen.js:42 | in the same template the price sits right after the name and one space, and is followed by one space |
| `TicketRows.RowLeftColumns` | screens/ResumenTicketScreen.js:38-42 | a row starts with the quantity right-aligned in at least two places, then two spaces, then the 24-wide name column |
| `TicketRows.RowAmountColumn` | screens/ResumenTicketScreen.js:41-42 | a row ends with the line amount left-padded with spaces to at least 7 characters, and that amount reads back as the item's subtotal |
| `TicketRows.NameColumnAligned` | screens/ResumenTicketScreen.js:39-42 | for quantities rendered in one or two characters the name column is at positions 4 to 27 of every row |
| `TicketRows.Row` | screens/ResumenTicketScreen.js:37-42 | a row is at least 43 characters wide (2 + 2 + 24 + 1 + 6 + 1 + 7); where each field sits is stated by `RowLeftColumns`, `RowPriceColumn`, `RowAmountColumn` and `NameColumnAligned` |
| `TicketRows.RowPriceColumn` | screens/ResumenTicketScreen.js:40-42 | the unit-price field starts at the quantity's width plus 27, one space after the name column, and is followed by one space |
| `TicketRows.PriceFieldValue` | screens/ResumenTicketScreen.js:40 | the unit-price field is at least 6 wide: spaces, then the two-decimal text of the unit price, which reads back as that price |
| `TicketRows.RowHasNoNewline` | screens/ResumenTicketScreen.js:37-43 | a row contains a newline only if the item's name does |
| `TicketRows.Rows` | screens/ResumenTicketScreen.js:37-43 | the ticket body for `n` items is at least `44 × n - 1` characters long: `n` rows of at least 43 with `n - 1` newlines between them |
| `TicketRows.RowsOnePerItem` | screens/ResumenTicketScreen.js:37-43 | the rows are joined with `'\n'`: when no name holds a newline, splitting the body on newlines gives exactly one line per item, in item order, each that item's row |
| `Text.Lower` | components/MenuItems.js:20 | lower-casing keeps the length and lower-cases each character on its own |
| `Text.Contains` | components/MenuItems.js:20-21 | `hay.includes(needle)` holds iff the needle occurs in the haystack at some position |
| `Text.PadStart` | screens/ResumenTicketScreen.js:39 | `padStart` never truncates: the result has the width or the original length, whichever is larger, ends with the original, and is preceded by spaces only |
| `Text.PadEnd` | screens/ResumenTicketScreen.js:42 | `padEnd` never truncates: the result has the width or the original length, whichever is larger, starts with the original, and is followed by spaces only |
| `Text.DecimalRoundTrip` | api/services/mesasService.js:11 | the decimal rendering of a table id or timestamp reads back as the same number |
| `Text.IntToDecimal` | screens/ResumenTicketScreen.js:39 | `toString` of an integer: a minus sign exactly for negative numbers, then the decimal magnitude |
| `Text.SplitJoin` | screens/ResumenTicketScreen.js:43 | splitting rows joined by a separator that no row contains gives back the rows |
| `Seqs.FilterMultiset` | screens/ResumenScreen.js:32 | `filter` keeps every copy of a passing element and no copy of a failing one: the result's count of each value is the input's count when it passes, 0 otherwise |
| `Seqs.FilterMembership` | screens/ResumenScreen.js:32 | `filter` keeps an element iff it is in the input and satisfies the predicate |
| `Seqs.FilterIsSubseq` | components/MenuItems.js:19-25 | `filter` keeps the relative order of what it keeps |

## Left out

- Network and storage: every `fetch`, the token and headers, HTTP error handling, and the
  order-loading and saving round trips. The model starts from the data those calls return
  and stops at the request they would send.
- SQL wrappers in db/ and the printer transport: TCP and Bluetooth sockets, timers, and
  write/close callbacks. Rendering, navigation and alerts are also left out.
- The receipt header and footer, and the tax line `total - subtotal`, are left out.
- `TicketRows.Row`: the unit-price column is rendered from the item's `precioUnitario`.
  The source reconstructs it as `subtotal / cantidad`, with floating-point division. Its
  rounding and the zero-quantity case (`Infinity`/`NaN`) are not modelled.
- Money as JavaScript numbers: binary floating point and `toFixed` rounding of values that
  are not whole cents. The model uses integer cents, so `toFixed(2)` is exact.
- `Text.Lower`: `toLowerCase` is Unicode-aware. The model lower-cases only the ASCII
  letters A–Z.
- `TicketRows.TruncateName`: JavaScript lengths count UTF-16 code units, and the model
  counts characters. A name with characters outside the Basic Multilingual Plane is cut at a
  different place.
- Clock values: `Date.now()` is the `now` parameter of `Summary.BuildPaymentData`.
- `Order.AddItem`: the source stores the whole menu item object on a new line, including
  its description and category. The model keeps only the id, name and price, which are all
  the order screen and the total read. The shared line object that `+= 1` mutates (also
  referenced by the previous state array) is not modelled, because that array is discarded.
- `Order.OrderEditor.Load`: the server-side total is overwritten by the total effect
  straight away, so the model keeps only the recomputed total.
- `Catalogue.Categories`: a menu category spelled `"Todos"` would appear twice among the
  tabs. Only the tabs after the first are stated to be distinct.
- The print buffer's `'ascii'` encoding: the model stops at the text; characters outside
  ASCII that survive the sanitiser are not mapped to bytes.
- `CloseBill.CloseBillUrl`: table ids are server-assigned and taken as non-negative
  (`nat`); a negative id, which the template literal would render with a `-`, is not modelled.
- Strict equality between a table number and `'Para llevar'`: the table label is modelled
  as a string, and a numeric table never equals that label.
