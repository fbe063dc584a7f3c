# Booking-voucher composer

This project models the composer behind the voucher endpoints of `main.py`. Each endpoint does the same three things:

1. It builds an HTML guest table from the booking's `TABLEDATA` columns.
2. It prunes sections of a template that the booking does not show: the tariff table, the prepay wording and the policies block.
3. It replaces the template's `{{...}}` placeholders with the booking's fields.

The PDF endpoints (`booking_confirmation` and its `-test` variant) replace every placeholder, with `""` for a missing value. The mail endpoints (`booking_confirmation1`, `booking_confirmation2`) skip placeholders whose value is falsy. The text lives in four modules:

- `Wrappers` (`wrappers.dfy`): `Option`, `Result`, and the failures a request can end with before rendering:
  - a missing `TABLEDATA`
  - a missing column
  - a short column (an IndexError)
  - a missing template
- `Text` (`text.dfy`): Python's `str.replace` as `ReplaceAll`, with its properties:
  - leftmost, non-overlapping replacement
  - an absent pattern is a no-op
  - deletion shortens the text
  - a non-overlapping replacement leaves no pattern behind

  It also holds `str.strip`, and the decimal rendering of the serial number together with its parse-back.
- `GuestTables` (`guest_tables.dfy`): the six table layouts (standalone and bulk, PDF and mail), the row loop as a generic fold with its loop methods, and the four builders.
- `Voucher` (`voucher.dfy`):
  - the request record
  - the exact literal sections
  - the three pruning steps
  - the two substitution policies, as folds and as loop methods
  - the template and file-name selectors
  - the four endpoints as methods over a template store

The template store is a `map` from file name to text. Each endpoint method looks up its template first, then builds the table, prunes, and substitutes. It is proved equal to a specification function of the booking and the template.

## Model

| member | source | states |
|---|---|---|
| Text.ReplaceAllAbsent | main.py:194-195 | a text in which the pattern does not occur comes back unchanged, so deleting an absent block is a no-op |
| Text.ReplaceAllAtFirst | main.py:194-195 | replacement splits at the first occurrence: the text before it is kept, the occurrence becomes the replacement, and the scan resumes after it |
| Text.ReplaceAllAtFind | main.py:194-195 | the same, in terms of `str.find`: no occurrence means no change |
| Text.ReplaceAllNotLonger | main.py:170-173 | a replacement no longer than the pattern never lengthens the text |
| Text.ReplaceAllShortens | main.py:170-173 | deleting (or shortening) an occurring pattern strictly shortens the text |
| Text.ReplaceAllRemovesPattern | main.py:546 | when the replacement cannot re-form the pattern with its neighbours, no occurrence of the pattern is left |
| Text.NamedIff | main.py:453 | `name and name.strip()` holds exactly when the name has a non-whitespace character |
| Text.NatToString | main.py:104 | the serial number is rendered as non-empty decimal digits with no leading zero |
| Text.ParseNatToString | main.py:104 | the rendered serial number reads back as the same number |
| GuestTables.CellsAt | main.py:108-110 | the `.get(key, [""])[i]` lookups succeed exactly when every column read has a cell `i` and then yield those cells; otherwise the error names the first short column in evaluation order |
| GuestTables.AllNamed | main.py:453 | `all(...)` is true exactly when every guest name is non-blank |
| GuestTables.RowsUpToSpec | main.py:103-112 | the row loop succeeds exactly when every row does, and yields `n` rows with row `i` at index `i` |
| GuestTables.FirstFailingRow | main.py:104-112 | a failing loop fails with the error of its first failing row, every earlier row having succeeded |
| GuestTables.RowsErrPersists | main.py:104-112 | once a row raises, the loop's outcome stays that error |
| GuestTables.RowStringOk | main.py:105-111 | a row succeeds exactly when every column it reads has its cell, and is then the HTML of its cells |
| GuestTables.RowsSpec | main.py:103-114 | a table's rows succeed exactly when each column read is at least `n` long; there are then `n` rows, in order, each the HTML of its index's cells |
| GuestTables.RowsError | main.py:108-110 | a failing table fails at the first index some column lacks, naming the first such column |
| GuestTables.StandaloneRow | main.py:104-111 | standalone row: five cells, the serial reads back as `i + 1`, then guest, room type, occupancy and meal plan of index `i` |
| GuestTables.VoucherTestRow | main.py:440-447 | the standalone row of `generate_guest_table1`: the same five cells |
| GuestTables.MailRow | main.py:270-282 | the row of `booking_confirmation1`: the same five cells |
| GuestTables.MailTestRow | main.py:653-668 | the standalone row of `booking_confirmation2`: six cells, with the inclusion services between occupancy and meal plan |
| GuestTables.BulkVoucherRow | main.py:471-483 | bulk PDF row: the serial; the guest only when the column is shown; `CHECKIN to CHECKOUT`; `ROOMTYPE-OCC-MEALPLAN x QTY`; the nights |
| GuestTables.BulkMailRow | main.py:607-631 | bulk mail row: the same cells, with the inclusion services before the nights |
| GuestTables.BulkGuestColumn | main.py:460-477 | in a bulk layout the header has a Guest Name cell exactly when the layout's decision says so, and every row then holds one cell more |
| GuestTables.EmptyGuestTables | main.py:91-92 | both PDF builders return `""` exactly when there is no table data, it is empty, or it has no `GUESTNAME` column (the same guard is at lines 427-428) |
| GuestTables.GuestTableRows | main.py:103-114 | `generate_guest_table` succeeds exactly when room type, occupancy and meal plan are at least as long as `GUESTNAME`, and is then header, one row per guest, and `</table>` |
| GuestTables.GuestTable1Bulk | main.py:453-461 | for a Bulk booking the Guest Name column is shown exactly when every name is non-blank, so always for an empty list |
| GuestTables.MailGuestTableOk | main.py:267-275 | the table of `booking_confirmation1`, and the standalone table of `booking_confirmation2`, fail without table data or without `GUESTNAME`; otherwise they fail exactly when a column they read is shorter than `GUESTNAME` |
| GuestTables.MailTestBulkTableOk | main.py:586-617 | the bulk table of `booking_confirmation2` fails with a KeyError without `GUESTNAME` or `ROOMTYPE`; otherwise it fails exactly when a column it reads is shorter than `ROOMTYPE` |
| GuestTables.MailTestBulkRows | main.py:604-617 | the bulk mail table has one row per `ROOMTYPE` entry and needs `GUESTNAME` at least that long |
| GuestTables.CollectRows | main.py:103-112 | the `rows.append` loop yields exactly the fold's rows, or the first row's error |
| GuestTables.AppendRows | main.py:270-283 | the `table += row` loop yields the header followed by the concatenated rows, or the first row's error |
| GuestTables.GenerateGuestTable | main.py:90-114 | the method equals the specification of `generate_guest_table` |
| GuestTables.GenerateGuestTable1 | main.py:426-486 | the method equals the specification of `generate_guest_table1` in both branches |
| GuestTables.BuildMailTable | main.py:258-286 | the method equals the specification of the inline table of `booking_confirmation1` |
| GuestTables.BuildMailTestTable | main.py:585-672 | the method equals the specification of both inline tables of `booking_confirmation2` |
| Voucher.PruneTariffChanges | main.py:168-173 | the tariff step changes the text exactly when the payment mode is one of the four, `SHOWTRAIFF` is `"No"` and the block occurs; the change then shortens the text |
| Voucher.PrunePoliciesChanges | main.py:187-191 | the policies step changes the text exactly when both policy fields are falsy and the block occurs; the change then shortens the text |
| Voucher.GrandTotalNoOverlap | main.py:546 | "Total Amount to pay" neither contains "GRAND TOTAL" nor overlaps it at either end |
| Voucher.RelabelGrandTotal | main.py:545-546 | after the relabelling no "GRAND TOTAL" is left, and "Total Amount to pay" stands where the first one was |
| Voucher.RewritePrepayModes | main.py:545-550 | only the three prepay modes rewrite; "Bill to Company" and every other mode leave the text unchanged; a prepay mode with `SHOWTRAIFF == "No"` also hides the tariff |
| Voucher.PrepayDeletesDisclaimer | main.py:545-550 | in a prepay mode the second rewrite deletes the extra-expenses disclaimer: the relabelled text changes exactly when the disclaimer occurs in it, and then becomes shorter |
| Voucher.SubstituteAppend | main.py:194-195 | substituting a list of pairs is substituting its halves one after the other |
| Voucher.TruthyPairs | main.py:338-340 | the pairs the mail path applies are exactly the listed pairs with a non-empty value |
| Voucher.SubstituteTruthyFilters | main.py:338-340 | the mail path equals the PDF path run on the pairs with truthy values |
| Voucher.SkippedPair | main.py:338-340 | on the mail path a pair with an empty value has no effect: its placeholder stays in the text |
| Voucher.SubstituteTruthyAllFalsy | main.py:728-730 | with every value falsy the mail path returns the template unchanged, placeholders included |
| Voucher.SubstituteNoPlaceholders | main.py:558-559 | a text containing none of the placeholders comes out of either path unchanged |
| Voucher.ApplyReplacements | main.py:194-195 | the `for placeholder, value in replacements.items()` loop equals the left fold of `ReplaceAll` over the pairs |
| Voucher.ApplyTruthyReplacements | main.py:338-340 | the `if value:` loop equals the fold that skips falsy values |
| Voucher.FileName | main.py:199 | the name ends in `.pdf` and before it is `FILENAME` when `FILENAME` is truthy, else it is `booking_confirmation.pdf` |
| Voucher.PdfWithoutTableData | main.py:122-124 | without `TABLEDATA` the PDF endpoints render with an empty guest table |
| Voucher.MailWithoutTableData | main.py:267 | without `TABLEDATA` both mail endpoints fail on `TABLEDATA["GUESTNAME"]` |
| Voucher.BookingConfirmation | main.py:117-205 | the endpoint fails when `voucher.html` is missing, and otherwise returns the specified table, pruned and substituted text, and `Content-Disposition` |
| Voucher.BookingConfirmationMail | main.py:252-342 | the endpoint fails when `voucherMail.html` is missing, and otherwise returns the specified mail body |
| Voucher.BookingConfirmationTest | main.py:489-568 | the endpoint fails when its chosen template is missing, and otherwise returns the specified text (tariff, prepay, policies, substitution) and header |
| Voucher.BookingConfirmationMailTest | main.py:576-732 | the endpoint fails when its chosen template is missing, and otherwise returns the specified mail body (tariff, prepay, skipping substitution) |

## Left out

- The template file reads (`open`) and the `lru_cache` around them. The template store is a parameter, and a missing file becomes `TemplateNotFound`.
- The WeasyPrint rendering. A PDF endpoint's result is the text handed to the renderer plus the `Content-Disposition` header.
- The FastAPI routing and the pydantic models:
  - `Booking` is the union of the three request models' fields, each optional.
  - `HTTPException`, `StreamingResponse` and `HTMLResponse` become a `Result`.
- The proxy endpoints, the greeting and item endpoints, and every `print`.
- `str()` of non-text cells and fields: every value is text.
- Order-independence of substitution is not claimed: a value containing a later placeholder is itself rewritten by the fold.
- PruneTariff: does not claim that the tariff literal is absent afterwards. Deleting every occurrence of a literal can re-form it, as in `L[..k] + L + L[k..]`; only "changes iff hidden and present" is proved.
- PrunePolicies: does not claim that the policies block is gone before substitution, for the same reason.
- RewritePrepay: "no GRAND TOTAL left" is proved for the relabelling step alone. The disclaimer deletion that follows can join a "GRAND " and a "TOTAL" around a deleted paragraph.
- PdfPairs: the placeholders of a list are not proved pairwise distinct (the dictionary keys); the lists are copied in the dictionaries' order.
- The model follows the code in three places where one might expect otherwise:
  - A column shorter than the one driving the loop raises IndexError (`ShortColumn`). It is not rendered as an empty cell.
  - The test PDF endpoint substitutes `" "`, not `""`, for a falsy `HOTELPHONE` or `Booking_Id`.
  - The mail endpoints read `TABLEDATA["GUESTNAME"]` unguarded, so they fail without table data.
