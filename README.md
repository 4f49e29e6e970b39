# Warehouse UI decision logic, modelled in Dafny

The warehouse ("gudang") web application keeps stock, incoming-goods
("masuk"), outgoing-goods ("keluar") and supplier records behind a REST
backend. Most of its code is layout and fetch plumbing. This project models
the few pieces that make decisions, one Dafny module per component:

- `TambahKeluar` (add-outgoing modal): the submit chain, which returns
  not found, then invalid quantity, then insufficient stock, or else a POST
  body. It also models the name-to-id lookup of the item selector. State
  lives in the class `TambahKeluarForm`.
- `TambahMasuk` (add-incoming modal): the per-keystroke capital-letter
  guard on the item name, the supplier selector's lookup, and the submit
  chain. The submit chain looks up the supplier first, then compares the
  quantity with its confirmation as raw strings. State lives in
  `TambahMasukForm`.
- `KeluarPage` (outgoing list page): delete by id as a filter over the
  record list, guarded by the id's truthiness and by the response. It also
  builds the PDF export's `tableData` in a loop.
- `StockPage` (stock page): the login gate over the stored token, logout,
  the loading-then-login render guards, and the PDF export's `tableData`.
- `DateFormat`: the `formatDate` helper that both edit modals define
  identically. It is modelled once, from integer date components.
- `EditMasuk`, `EditKeluar` (edit modals): the single-field spread updates
  of `updatedData`, and a submit that builds a PUT only when the record has
  an id and always calls `onClose`.
- `Common`: an Option type, `Array.prototype.find` as a first-match index
  search, JavaScript truthiness of an optional string, and table cells.

Network responses, the clock and `localStorage` are parameters of the
model. The delete's response step takes the response outcome as an
argument. The submits are modelled up to the request they build. The edit
forms' `onClose`, which follows the response whatever it is, is counted on
every path.
The outgoing-goods timestamp is the `now` argument. The stored token is
the argument of the stock page's constructor.

Some behaviour one might expect is absent from the source:
- The supplier add form has no capitalisation check.
- No handler checks that required fields are non-empty. Only the browser's
  `required` and `min="1"` input attributes do that, and they are not
  modelled (see "Left out").
- The edit forms run no quantity validation.
- Nothing in the client lowers the stock after an outgoing entry.

Some behaviour of the source is modelled as written, even where it looks
odd:
- The add-outgoing modal ignores its `masuk` prop and loads its own list.
- The outgoing page never loads `dataKeluar`, and none of its buttons
  calls `handleDelete`. The delete buttons call a confirmation that only
  shows a message.
- After logout, the stock page is loading again. Its loading timer is armed
  once, on mount, and has already fired, so the page renders the spinner
  until navigation happens.
- A delete filters the list its handler closed over, not the list current
  when the response arrives, so of two overlapping deletes the later
  response decides the list.

## Model

| member | source | states |
|---|---|---|
| `Common.FindFirst` | src/pages/components/tambahkeluar.tsx:31 | The result is the first index whose element satisfies the predicate, or none exactly when no element does. This is the `find` every lookup uses. |
| `TambahKeluar.SubmitKeluar` | src/pages/components/tambahkeluar.tsx:28-60 | The result is NotFound iff no loaded record has the selected id. It is Invalid iff the id exists and `Number(jumlah) <= 0`, where blank counts as 0. It is Insufficient iff the quantity is positive and exceeds the first matching record's `jumlah`. It is Ok iff 0 < quantity <= `jumlah`, and then the body carries that record's name, the parsed quantity, the recipient and the timestamp. |
| `TambahKeluar.SelectedId` | src/pages/components/tambahkeluar.tsx:107-115 | Returns the id of the first record with the chosen name. When no record has that name, the current id is kept. |
| `TambahKeluar.StockBoundary` | src/pages/components/tambahkeluar.tsx:37-46 | A quantity equal to the stock is accepted. Stock plus one is Insufficient. 0 and the blank field are Invalid. |
| `TambahKeluar.KebayaScenario` | src/pages/components/tambahkeluar.tsx:31-59 | For the item B1 "Kebaya" with 60 in stock: 60 gives Ok with name "Kebaya" and quantity 60, 61 gives Insufficient, and an unknown id gives NotFound. |
| `TambahKeluar.SelectedIdFound` | src/pages/components/tambahkeluar.tsx:107-115 | After choosing a name the list offers, submit never reports NotFound, whatever ids the list carries. |
| `TambahKeluar.SelectThenSubmit` | src/pages/components/tambahkeluar.tsx:107-115 | With unique ids, an Ok body after choosing a name carries that name. |
| `TambahKeluar.TambahKeluarForm.constructor` | src/pages/components/tambahkeluar.tsx:18-23 | The initial state: empty name, blank quantity, empty recipient, empty list, empty id. |
| `TambahKeluar.TambahKeluarForm.ReceiveMasuk` | src/pages/components/tambahkeluar.tsx:79-81 | The fetched list replaces `masuk`, and nothing else changes. |
| `TambahKeluar.TambahKeluarForm.SetJumlah` | src/pages/components/tambahkeluar.tsx:168 | The quantity becomes the entered number, and nothing else changes. |
| `TambahKeluar.TambahKeluarForm.SetPenerima` | src/pages/components/tambahkeluar.tsx:172 | The recipient becomes the input, and nothing else changes. |
| `TambahKeluar.TambahKeluarForm.HandleNamaBarangChange` | src/pages/components/tambahkeluar.tsx:107-115 | The name is always set. The id becomes `SelectedId` of the old id. No other field changes. |
| `TambahKeluar.TambahKeluarForm.HandleTambahBarang` | src/pages/components/tambahkeluar.tsx:28-60 | Changes no state and returns exactly `SubmitKeluar` of the current list, id, quantity and recipient. |
| `TambahMasuk.ToUpperAscii` | src/pages/components/tambahmasuk.tsx:108 | A lower-case ASCII letter maps to its capital (code minus 32). Any other character is unchanged. |
| `TambahMasuk.CapitalizeFirst` | src/pages/components/tambahmasuk.tsx:108 | Keeps the length. Only the first character is upper-cased and the rest is the original slice. |
| `TambahMasuk.CapitalGuardIff` | src/pages/components/tambahmasuk.tsx:106-110 | The guard accepts a value iff it is empty or its first character is not a lower-case letter. So digits and capitals pass. |
| `TambahMasuk.CapitalizeIdempotent` | src/pages/components/tambahmasuk.tsx:108 | Capitalising twice equals capitalising once. Every capitalised value is accepted by the guard. |
| `TambahMasuk.GuardExamples` | src/pages/components/tambahmasuk.tsx:106-114 | "Rumah Batik", the empty string and "5 kg" are accepted. "rumah batik" is rejected. |
| `TambahMasuk.SubmitMasuk` | src/pages/components/tambahmasuk.tsx:32-59 | The result is SupplierNotFound iff no loaded supplier has the selected id; this is checked first. It is QuantityMismatch iff the supplier exists and the quantity strings differ. Otherwise it is Ok, with the first matching supplier's name and equal quantity fields in the body. |
| `TambahMasuk.RawStringComparison` | src/pages/components/tambahmasuk.tsx:41-44 | "5" against "05" is a mismatch. "5" against "5" passes. An unknown supplier is reported before the quantity mismatch. |
| `TambahMasuk.SelectedSupplierId` | src/pages/components/tambahmasuk.tsx:117-125 | Returns the id of the first supplier with the chosen name. When there is none, the current id is kept. |
| `TambahMasuk.SelectedSupplierFound` | src/pages/components/tambahmasuk.tsx:117-125 | After choosing a supplier the list offers, submit never reports SupplierNotFound, whatever ids the list carries. |
| `TambahMasuk.SelectThenSubmit` | src/pages/components/tambahmasuk.tsx:117-125 | With unique ids, an Ok body after choosing a supplier carries that supplier's name. |
| `TambahMasuk.TambahMasukForm.constructor` | src/pages/components/tambahmasuk.tsx:18-26 | The initial state: every text field empty, no date, and an empty supplier list. |
| `TambahMasuk.TambahMasukForm.ReceiveSuppliers` | src/pages/components/tambahmasuk.tsx:78-80 | The fetched suppliers replace `supplierData`, and nothing else changes. |
| `TambahMasuk.TambahMasukForm.SetJumlah` | src/pages/components/tambahmasuk.tsx:159 | The raw quantity text is stored, and nothing else changes. |
| `TambahMasuk.TambahMasukForm.SetKonfirJumlah` | src/pages/components/tambahmasuk.tsx:163 | The raw confirmation text is stored, and nothing else changes. |
| `TambahMasuk.TambahMasukForm.SetPenerima` | src/pages/components/tambahmasuk.tsx:167 | The recipient is stored without any guard, and nothing else changes. |
| `TambahMasuk.TambahMasukForm.SetKeterangan` | src/pages/components/tambahmasuk.tsx:201 | The note is stored without any guard, and nothing else changes. |
| `TambahMasuk.TambahMasukForm.HandleNamaBarangChange` | src/pages/components/tambahmasuk.tsx:106-115 | Alerts iff the input fails the guard. A rejected keystroke leaves the name unchanged; an accepted one sets it to the input. A name that passed the guard keeps passing. |
| `TambahMasuk.TambahMasukForm.HandleNamaSupplierChange` | src/pages/components/tambahmasuk.tsx:117-125 | The supplier name is always set. The id becomes `SelectedSupplierId` of the old id. |
| `TambahMasuk.TambahMasukForm.HandleTambahBarang` | src/pages/components/tambahmasuk.tsx:32-59 | Changes no state and returns exactly `SubmitMasuk` of the current state. |
| `KeluarPage.RemoveById` | src/pages/keluar/index.tsx:155 | No remaining record has the id. Every remaining record comes from the list. Every record with another id survives. |
| `KeluarPage.RemoveByIdAppend` | src/pages/keluar/index.tsx:155 | Filtering distributes over concatenation, so survivors keep their relative order. |
| `KeluarPage.RemoveByIdAbsent` | src/pages/keluar/index.tsx:155 | If no record has the id, the list is returned unchanged. |
| `KeluarPage.RemoveByIdIdempotent` | src/pages/keluar/index.tsx:155 | Deleting the same id twice equals deleting it once. |
| `KeluarPage.RemoveByIdMultiplicity` | src/pages/keluar/index.tsx:155 | Every record with another id keeps its multiplicity. Records with the id are all removed. |
| `KeluarPage.OverlappingDeletes` | src/pages/keluar/index.tsx:147-156 | For records with ids "1" and "2", each of two deletes sent from the same render leaves the other record, while deleting one after the other leaves nothing: the later response decides. |
| `KeluarPage.KeluarPageState.constructor` | src/pages/keluar/index.tsx:77 | The record list starts empty. |
| `KeluarPage.KeluarPageState.HandleDelete` | src/pages/keluar/index.tsx:147-153 | A DELETE is sent iff the id is present and non-empty. It carries that id and the list as it stands when the handler is called. Nothing changes yet. |
| `KeluarPage.KeluarPageState.DeleteResponded` | src/pages/keluar/index.tsx:154-163 | On an ok response the list becomes the captured list without the id's records, overwriting any change made since. On a non-ok response or a thrown error it is unchanged. |
| `KeluarPage.KeluarPageState.HandlePrintPDF` | src/pages/keluar/index.tsx:123-133 | The table has n+1 rows: the 5-column header, then for each record i the row `[i+1, nama_barang, tanggal, jumlah, penerima]`. Every row is 5 wide. |
| `StockPage.StockPageState.constructor` | src/pages/stock/index.tsx:71-75 | The first render is loading and logged in, whatever the token, with an empty list and no navigation. |
| `StockPage.StockPageState.ReceiveMasuk` | src/pages/stock/index.tsx:134-136 | An ok fetch replaces `dataMasuk`, and nothing else changes. |
| `StockPage.StockPageState.MountEffect` | src/pages/stock/index.tsx:156-171 | Runs only before it has run. `loggedIn` is true iff the stored token is present and non-empty. `/login` is pushed exactly when it is not. The loading timer is armed. |
| `StockPage.StockPageState.LoadingTimerElapsed` | src/pages/stock/index.tsx:168-170 | Fires only while armed, and disarms. Loading ends. The page then renders the layout iff the token is truthy, and otherwise renders nothing and redirects. |
| `StockPage.StockPageState.HandleLogout` | src/pages/stock/index.tsx:173-178 | Reachable only from the layout. The token is removed, loading becomes true and logged-in becomes false. `/login` is pushed and the spinner is rendered. Neither the mount effect nor the timer can run afterwards, so no modelled step ends the loading. |
| `StockPage.StockPageState.Render` | src/pages/stock/index.tsx:200-211 | The spinner shows iff loading. Nothing is rendered (with a redirect) iff not loading and not logged in. Under the gate invariant, the layout is shown only when a truthy token is stored. |
| `StockPage.StockPageState.HandlePrintPDF` | src/pages/stock/index.tsx:84-94 | The table has n+1 rows: the 5-column header, then for each record i the row `[i+1, nama_barang, jumlah, nama_supplier, keterangan]`. Every row is 5 wide. |
| `DateFormat.DecimalString` | src/pages/components/editmasuk.tsx:25-30 | `toString` yields at least one decimal digit, all characters are digits, and there is no leading zero. |
| `DateFormat.DecimalRoundTrip` | src/pages/components/editmasuk.tsx:25 | Parsing the decimal string gives the number back. |
| `DateFormat.DecimalLength` | src/pages/components/editmasuk.tsx:25 | One-, two- and four-digit numbers are written with 1, 2 and 4 characters. |
| `DateFormat.PadStart` | src/pages/components/editmasuk.tsx:26-30 | A string at least as long as the width is kept. Otherwise the result has exactly the width, ends with the string, and is filled in front with the fill character. |
| `DateFormat.Pad2Digits` | src/pages/components/editmasuk.tsx:26-30 | Below 100, the padded form is the tens digit then the units digit, and it reads back as the number. |
| `DateFormat.FormatDateShape` | src/pages/components/editkeluar.tsx:21-30 | The output is the unpadded year followed by `-MM-DDTHH:MM:SS`. Each field is two digits, and the month is the zero-based month plus one. |
| `DateFormat.FormatDateFields` | src/pages/components/editmasuk.tsx:23-32 | For any year, the output starts with the unpadded year and has length equal to the number of digits in the year plus 15. The separators are at fixed offsets. Each two-digit field reads back as month+1, day, hours, minutes and seconds. |
| `DateFormat.FormatDateLayout` | src/pages/components/editmasuk.tsx:31 | For a four-digit year, the length is 19, with `-` at 4 and 7, `T` at 10 and `:` at 13 and 16, and every field reads back as its component. |
| `DateFormat.FormatDateExamplePadded` | src/pages/components/editmasuk.tsx:26-30 | (2023, January, 5, 09:03:07) is written as "2023-01-05T09:03:07". |
| `DateFormat.FormatDateExampleShortYear` | src/pages/components/editmasuk.tsx:25 | The year 987 is not padded: "987-12-25T23:59:59". |
| `EditMasuk.WithPenerima` | src/pages/components/editmasuk.tsx:124 | Only `penerima` changes. Every other field keeps its value. |
| `EditMasuk.WithKeterangan` | src/pages/components/editmasuk.tsx:138 | Only `keterangan` changes. Every other field keeps its value. |
| `EditMasuk.EditsKeepFacts` | src/pages/components/editmasuk.tsx:116-138 | Both edits keep the read-only facts (ids, name, supplier, quantity, date), and the two edits commute. |
| `EditMasuk.SubmitRequest` | src/pages/components/editmasuk.tsx:42-49 | A PUT exists iff `editData.idbarang` is non-empty. Its id is that id and its body is the whole `updatedData`. |
| `EditMasuk.EditMasukForm.constructor` | src/pages/components/editmasuk.tsx:36 | `updatedData` starts as `editData`, and `onClose` has not been called. |
| `EditMasuk.EditMasukForm.SetPenerima` | src/pages/components/editmasuk.tsx:124 | `updatedData` becomes the recipient update of its old value, and the facts are kept. |
| `EditMasuk.EditMasukForm.SetKeterangan` | src/pages/components/editmasuk.tsx:138 | `updatedData` becomes the note update of its old value, and the facts are kept. |
| `EditMasuk.EditMasukForm.HandleSubmit` | src/pages/components/editmasuk.tsx:40-63 | Returns `SubmitRequest`, whose URL id equals the body's id. `onClose` is called once in every case. |
| `EditKeluar.WithPenerima` | src/pages/components/editkeluar.tsx:122 | Only `penerima` changes. `idkeluar`, `idbarang`, `nama_barang`, `jumlah` and `tanggal` keep their values. |
| `EditKeluar.LastEditWins` | src/pages/components/editkeluar.tsx:122 | Two recipient edits equal the last one alone. Re-entering the current value changes nothing. |
| `EditKeluar.SubmitRequest` | src/pages/components/editkeluar.tsx:40-47 | A PUT exists iff `editData.idkeluar` is non-empty. Its id is that id and its body is the whole `updatedData`. |
| `EditKeluar.EditKeluarForm.constructor` | src/pages/components/editkeluar.tsx:34 | `updatedData` starts as `editData`, and `onClose` has not been called. |
| `EditKeluar.EditKeluarForm.SetPenerima` | src/pages/components/editkeluar.tsx:122 | `updatedData` becomes the recipient update of its old value. It differs from `editData` only in `penerima`. |
| `EditKeluar.EditKeluarForm.HandleSubmit` | src/pages/components/editkeluar.tsx:38-61 | Returns `SubmitRequest`, whose URL id is the body's id, and whose name, quantity and date are those of `editData`. `onClose` is called once in every case. |

## Left out

- Network I/O is left out: `fetch`, response parsing, `alert`/`message` toasts and `window.location.reload`. A submit is modelled up to the request body it would send. The delete takes the response outcome as an argument.
- The outgoing-goods timestamp (`moment().tz('Asia/Jakarta')`) is a clock and timezone reading. It is the `now` argument.
- `formatDate`'s `new Date(dateString)` parsing is left out, because it is library, locale and timezone behaviour. `DateFormat.FormatDate` starts from the integer components a `Date` reports. Negative years and an invalid date, which prints `NaN`, are not modelled.
- `TambahKeluar.SubmitKeluar`: covers the handler's own checks only. The browser's constraint validation runs before `onSubmit`: `required` and `min="1"` on the quantity (tambahkeluar.tsx:168) and `required` on the recipient (tambahkeluar.tsx:172). So a blank, zero or negative quantity reaches the Invalid branch only if that validation is bypassed, and that validation is not modelled.
- `TambahMasuk.SubmitMasuk`: covers the handler's own checks only. The browser's `required` and `min="1"` constraints on the name, quantity, confirmation and recipient inputs (tambahmasuk.tsx:155,159,163,167) stop the submit earlier, and they are not modelled.
- `TambahKeluar.ToNumber`: only integer quantities are modelled. `Number()` on fractional text and NaN are floating-point behaviour.
- `TambahMasuk.ToUpperAscii`: only ASCII letters are upper-cased. `toUpperCase` on non-ASCII text follows Unicode tables (one character can even become two), and that is not modelled.
- jsPDF rendering (`autoTable`, `save`) is a foreign library. Only the `tableData` array is modelled.
- The modal fade-in and fade-out timers, modal visibility and `handleClose` are timing-driven UI and are left out. The stock page's one-second loading timer is kept as `LoadingTimerElapsed`.
- `onChange` handlers on read-only inputs never fire, so they are not modelled: `konfir_jumlah` and `tanggal` in the incoming edit form, and `jumlah` and `tanggal` in the outgoing edit form. The same goes for the add-incoming date picker, whose input is commented out, so `tanggal` stays absent.
- The stock page's user fetch (`/auth/login`) and its menu are display only.
- React rendering, routing, menus and styling are left out. The paths the stock page passes to `router.push` are recorded in order. The render's `router.replace('/login')` is the `RedirectToLogin` view of `Render`.
- The supplier add and edit forms, the stock edit form, the incoming and supplier list pages, the dashboard and the login page are not part of this model. They hold no decision logic beyond the plumbing described above.
