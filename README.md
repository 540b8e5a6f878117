# Global Invoice System — a verified model of its core logic

Global Invoice System is a car-hire invoicing web application (Next.js, TypeScript).
A driver fills in an invoice form. The form has the customer, the route with
intermediate stops, the trip type, the base fare, additional charges and the
driver allowance. The invoice is then stored, exported as a PDF and shared over
WhatsApp. A history page lists the invoices with revenue statistics and a search
box. An account page shows revenue figures, and a bottom bar links the four pages.

This project models the deterministic logic under that user interface, one Dafny
module per source file:

| module | source file | form |
|---|---|---|
| `InvoiceTypes` | `src/types/invoice.ts` | datatypes for stops, charges, the trip/journey/payment enumerations, the form payload and the stored invoice |
| `InvoiceForm` | `src/components/InvoiceForm.tsx` | pure functions: total, submit filters, payload, stop normalisation, clamping, vehicle-number and phone formatters, draft snapshot. Class `Form`: the component state and its handlers. Class `DraftStore`: the single `invoice_draft` slot |
| `Pdf` | `src/lib/pdf.ts` | the PDF file name, the WhatsApp phone number and the share path |
| `Dashboard` | `src/app/dashboard/page.tsx` | the `calculateStats` loop (a method proved against `StatsOf`), top-route selection and display, search, deletion. Class `History`: the page state |
| `Account` | `src/app/account/page.tsx` | total and current-month revenue, and the "trips this month" count |
| `BottomNav` | `src/components/BottomNav.tsx` | the active-link rule |

`Wrappers`, `Lists` and `Strings` model the JavaScript built-ins the core relies
on: `Option`, `Array.filter`, and the string operations (`trim`, `\s`, `includes`,
`startsWith`, `padStart`, `toString`, `slice`, ASCII case mapping).

Money and distances are whole numbers (`nat`). A value typed into a number input
is a `NumberValue`: `NotANumber` or a whole number, possibly negative. The current
month and the reading of an invoice's date are parameters (`now`, `dateOf`). So
are the outcomes of the remote store (`accepted`, `storeDeleted`), the browser's
capabilities (`ShareEnv`) and the random stop ids (`freshId`, `idFor`).

## Model

| member | source | states |
|---|---|---|
| `InvoiceTypes.ParseTripType` | src/types/invoice.ts:29 | a stored trip type is read exactly when it is one of `oneway`, `roundtrip`, `local`, and it reads back to its own spelling |
| `InvoiceTypes.ParseJourneyType` | src/types/invoice.ts:20 | a legacy journey type is read exactly when it is `one-way` or `two-way` |
| `InvoiceTypes.ParsePaymentMode` | src/types/invoice.ts:34 | a payment mode is read exactly when it is `cash`, `upi` or `bank` |
| `InvoiceTypes.SpellingsRoundTrip` | src/types/invoice.ts:20-34 | every enumeration value is recovered from its stored spelling |
| `InvoiceForm.ChargesTotal` | src/components/InvoiceForm.tsx:51 | the charges' sum is 0 exactly when every amount is 0, and no single amount exceeds it |
| `InvoiceForm.TotalAmount` | src/components/InvoiceForm.tsx:51 | the total is at least the base fare plus the driver allowance |
| `InvoiceForm.ChargesTotalAppend` | src/components/InvoiceForm.tsx:754 | appending a charge adds its amount to the charges' sum |
| `InvoiceForm.ChargesTotalUpdate` | src/components/InvoiceForm.tsx:715-717 | replacing one charge changes the sum by the difference of the old and new amounts |
| `InvoiceForm.ChargesTotalRemove` | src/components/InvoiceForm.tsx:730 | removing a charge takes exactly its amount off the sum |
| `InvoiceForm.SubmittedStops` | src/components/InvoiceForm.tsx:127 | the submitted stops keep their order. They are exactly the stops whose location has a non-white-space character, every copy of such a stop is kept, and the city plays no part |
| `InvoiceForm.FinalChargesTotal` | src/components/InvoiceForm.tsx:128 | dropping the zero charges leaves the charges' sum unchanged, so the submitted total agrees with the submitted charges |
| `InvoiceForm.BlankStopDropped` | src/components/InvoiceForm.tsx:127 | of a stop whose location is blank, whatever its city, and a stop whose location has a character other than white space, only the second is submitted |
| `InvoiceForm.ZeroChargeDropped` | src/components/InvoiceForm.tsx:128 | a 0 charge is dropped; a positive one is kept |
| `InvoiceForm.NormaliseStops` | src/components/InvoiceForm.tsx:24-27 | length and order are kept. A bare string becomes a stop with a fresh id, that location and an empty city; a stop record is left unchanged |
| `InvoiceForm.NormaliseWrapped` | src/components/InvoiceForm.tsx:72-75 | normalising records gives them back unchanged |
| `InvoiceForm.NormaliseIdempotent` | src/components/InvoiceForm.tsx:24-27 | normalising twice is normalising once; the second pass draws no new ids |
| `InvoiceForm.ClampEntry` | src/components/InvoiceForm.tsx:620 | a non-negative number is stored unchanged, and a negative number or NaN is stored as 0 |
| `InvoiceForm.ClampKeepingNaN` | src/components/InvoiceForm.tsx:431 | a negative number becomes 0 and a non-negative one is kept. NaN stays NaN, so the result is never a negative number |
| `InvoiceForm.PlateChars` | src/components/InvoiceForm.tsx:192 | only upper-case letters and digits remain, and the text gets no longer |
| `InvoiceForm.GroupedFirstTen` | src/components/InvoiceForm.tsx:198-208 | only the first ten plate characters take part in the grouping |
| `InvoiceForm.GroupedShape` | src/components/InvoiceForm.tsx:197-208 | a grouped plate has at most 13 characters and spaces exactly at positions 2, 5 and 8. Every other character is a plate character, and removing the spaces gives the first ten plate characters |
| `InvoiceForm.FormatVehicleNumberShape` | src/components/InvoiceForm.tsx:190-209 | the formatted number has at most 13 characters and spaces only at 2, 5 and 8. Without its spaces it is the first min(n, 10) upper-cased letters and digits of the input |
| `InvoiceForm.FormatVehicleNumberIdempotent` | src/components/InvoiceForm.tsx:570 | formatting already formatted text changes nothing, so re-applying it on every keystroke is stable |
| `InvoiceForm.PhoneDigits` | src/components/InvoiceForm.tsx:213 | the result is the first ten digits of the input, or all of them when there are fewer: only digits, a prefix of the input's digits, of length the smaller of their count and 10 |
| `InvoiceForm.PhoneDigitsIdempotent` | src/components/InvoiceForm.tsx:213-214 | filtering a filtered number changes nothing |
| `InvoiceForm.NonZero` | src/components/InvoiceForm.tsx:164-166 | `n \|\| undefined` is absent exactly for 0 and otherwise holds `n` |
| `InvoiceForm.Payload` | src/components/InvoiceForm.tsx:130-168 | `total_km` and `total_hours` are present exactly for local trips. The trip type is the form's, toll is 0, the fare is the base fare, and the total is fare plus charges plus allowance |
| `InvoiceForm.SubmittedRecord` | src/components/InvoiceForm.tsx:127-168 | the submitted total equals submitted fare plus submitted charges plus allowance. No submitted charge is 0, and every submitted stop is a record with a non-blank location |
| `InvoiceForm.TotalIsFareWithoutExtras` | src/components/InvoiceForm.tsx:51 | with no charges and no allowance the total is the base fare |
| `InvoiceForm.LoadInputs` | src/components/InvoiceForm.tsx:62-67 | the form keeps its set of inputs. Each input named in the draft takes the draft's value, and every other input keeps its own |
| `InvoiceForm.OrZero` | src/components/InvoiceForm.tsx:41-42 | a stored value that is a non-zero number is kept; an absent value, `NaN` or 0 gives 0 |
| `InvoiceForm.DraftRoundTrip` | src/components/InvoiceForm.tsx:96-114 | saving a form and loading the draft into a new form restores the new form's inputs, the stops, charges, fare, vehicle model, mileage and allowance. The trip type and local usage are not saved, so they keep their initial values |
| `InvoiceForm.CopyEntries` | src/components/InvoiceForm.tsx:62-67 | the loop over the draft's entries yields `LoadInputs` |
| `InvoiceForm.DraftStore.constructor` | src/components/InvoiceForm.tsx:57 | the slot holds what local storage held |
| `InvoiceForm.DraftStore.Save` | src/components/InvoiceForm.tsx:112 | the slot holds the new draft (last writer wins) |
| `InvoiceForm.DraftStore.Clear` | src/components/InvoiceForm.tsx:173 | the slot is empty |
| `InvoiceForm.Form.Total` | src/components/InvoiceForm.tsx:51 | the total shown is the total that is submitted |
| `InvoiceForm.Form.constructor` | src/components/InvoiceForm.tsx:24-48 | the initial state comes from the edited invoice (stops normalised, missing fields 0 or empty, trip type `oneway` by default), or is blank |
| `InvoiceForm.Form.AddStop` | src/components/InvoiceForm.tsx:382 | one blank stop with the fresh id is appended; nothing else changes |
| `InvoiceForm.Form.RemoveStop` | src/components/InvoiceForm.tsx:341 | exactly the stop at the index is removed (the list loses that one element as a multiset), the others keep their order, and nothing else changes |
| `InvoiceForm.Form.SetStopLocation` | src/components/InvoiceForm.tsx:355-356 | only that stop's location changes |
| `InvoiceForm.Form.SetStopCity` | src/components/InvoiceForm.tsx:367-368 | only that stop's city changes |
| `InvoiceForm.Form.AddCharge` | src/components/InvoiceForm.tsx:754 | a charge of the given kind with amount 0 is appended, and the total is unchanged |
| `InvoiceForm.Form.RemoveCharge` | src/components/InvoiceForm.tsx:730 | exactly that charge is removed (the list loses that one element as a multiset), and the total drops by its amount |
| `InvoiceForm.Form.SetChargeKind` | src/components/InvoiceForm.tsx:693-694 | only that charge's kind changes; the total is unchanged |
| `InvoiceForm.Form.SetChargeAmount` | src/components/InvoiceForm.tsx:715-717 | only that charge's amount changes, to the clamped entry, and the total moves by the difference |
| `InvoiceForm.Form.SetBaseFare` | src/components/InvoiceForm.tsx:619-620 | the base fare becomes the clamped entry; nothing else changes |
| `InvoiceForm.Form.SetDriverAllowance` | src/components/InvoiceForm.tsx:640-641 | the allowance becomes the clamped entry; nothing else changes |
| `InvoiceForm.Form.SetStartingKm` | src/components/InvoiceForm.tsx:659-660 | the starting km becomes the clamped entry; nothing else changes |
| `InvoiceForm.Form.SetClosingKm` | src/components/InvoiceForm.tsx:674-675 | the closing km becomes the clamped entry; nothing else changes |
| `InvoiceForm.Form.SetTotalHours` | src/components/InvoiceForm.tsx:430-431 | the hours become the entry with negatives clamped to 0 and NaN kept, so they are never negative |
| `InvoiceForm.Form.SetTotalKm` | src/components/InvoiceForm.tsx:447-448 | the km become the entry with negatives clamped to 0 and NaN kept, so they are never negative |
| `InvoiceForm.Form.SetTripType` | src/components/InvoiceForm.tsx:295-301 | only the trip type changes, to one of the two values the select offers |
| `InvoiceForm.Form.SetVehicleModel` | src/components/InvoiceForm.tsx:551 | only the vehicle model changes |
| `InvoiceForm.Form.EnterCabNumber` | src/components/InvoiceForm.tsx:570 | the vehicle-number input shows the formatted text; nothing else changes |
| `InvoiceForm.Form.EnterPhone` | src/components/InvoiceForm.tsx:213-214 | the phone input shows only its first ten digits; nothing else changes |
| `InvoiceForm.Form.SaveDraft` | src/components/InvoiceForm.tsx:96-114 | the slot holds every named input and the complex state, without the trip type and local usage |
| `InvoiceForm.Form.LoadDraft` | src/components/InvoiceForm.tsx:54-93 | nothing changes when an invoice is being edited or the slot is empty or unreadable. Otherwise the draft's inputs are copied in, and each present, truthy complex field replaces the state |
| `InvoiceForm.Form.RestoreLists` | src/components/InvoiceForm.tsx:70-81 | stops (normalised), charges and trip type are replaced only when the draft has them |
| `InvoiceForm.Form.RestoreUsage` | src/components/InvoiceForm.tsx:82-84 | the km, hours and vehicle model are replaced only by truthy draft values |
| `InvoiceForm.Form.RestoreAmounts` | src/components/InvoiceForm.tsx:79-87 | fare, mileage and allowance are replaced only by non-zero draft values |
| `InvoiceForm.Form.Submit` | src/components/InvoiceForm.tsx:120-180 | the submitted payload is `Payload` of the current state. The draft is removed exactly when the submit succeeds, and kept when it fails |
| `Pdf.InvoiceNumberPart` | src/lib/pdf.ts:13 | `draft` when there is no number; otherwise at least four digits whose decimal value is the number |
| `Pdf.PaddedValue` | src/lib/pdf.ts:60 | zero-padding the decimal form keeps it all digits and keeps its value |
| `Pdf.CollapseShape` | src/lib/pdf.ts:17 | collapsing white-space runs gives only letters, digits and `_`, never two `_` in a row. It starts with `_` exactly when the input starts with white space |
| `Pdf.CollapseKeepsAlnum` | src/lib/pdf.ts:17 | collapsing white space keeps the letters and digits, in order |
| `Pdf.SanitisedName` | src/lib/pdf.ts:15-18 | the name part has at most 30 characters, all letters, digits or `_`, with no `__`. Its letters and digits are a prefix of the customer name's, and all of them when the collapsed name fits in 30 |
| `Pdf.SanitisedShape` | src/lib/pdf.ts:15-18 | every character of the name part is a letter, a digit or `_`, and no two `_` are adjacent |
| `Pdf.SanitisedLetters` | src/lib/pdf.ts:15-18 | the name part's letters and digits are a prefix of the customer name's, and all of them when the collapsed name fits in 30 characters |
| `Pdf.FilenameNamesInvoice` | src/lib/pdf.ts:19 | whatever the customer name, the text between the file name's last `_` and `.pdf` is the number part. It reads back as the invoice's number (none for a draft) |
| `Pdf.NumberPartRoundTrip` | src/lib/pdf.ts:13 | the number part has no `_` and reads back as the number it was made from |
| `Pdf.FilenameExample` | src/lib/pdf.ts:13-19 | invoice 7 for `Rohit @ Kumar!!` is saved as `Rohit_Kumar_invoice_0007.pdf` |
| `Pdf.WhatsAppPhone` | src/lib/pdf.ts:118-121 | the result is the phone's digits, with `91` prefixed exactly when there are ten of them, and the bare digits otherwise |
| `Pdf.WhatsAppPhoneIdempotent` | src/lib/pdf.ts:118-121 | normalising a normalised number changes nothing |
| `Pdf.WhatsAppPhoneExample` | src/lib/pdf.ts:118-121 | `98815 98109` becomes `919881598109` |
| `Pdf.SharePath` | src/lib/pdf.ts:88-145 | the share sheet is used exactly when the PDF renders and the device is mobile with `share` and `canShare` accepting the file, and sharing completes. The download fallback is taken exactly when the PDF renders and those conditions fail, and it uses the PDF file name and the normalised phone |
| `Pdf.SharePdfOnWhatsApp` | src/lib/pdf.ts:99-105 | `true` only on a mobile device whose `share` and `canShare` accept the file; never when rendering or sharing fails |
| `Pdf.FallbackReportsFalse` | src/lib/pdf.ts:139-143 | the fallback path and the error path both return `false` |
| `Account.TotalRevenue` | src/app/account/page.tsx:55 | no invoice's amount exceeds the total revenue, and the total is 0 exactly when every amount is 0 |
| `Account.CurrentMonthRevenueIsFiltered` | src/app/account/page.tsx:57-64 | the month's revenue is the total revenue of the invoices dated in the current month and year |
| `Account.TotalRevenueAppend` | src/app/account/page.tsx:55 | revenue adds up over concatenated lists |
| `Account.FilteredRevenueBounded` | src/app/account/page.tsx:55-64 | a selection of the invoices never earns more than all of them |
| `Account.MonthWithinTotal` | src/app/account/page.tsx:55-64 | the current month's revenue never exceeds the total revenue |
| `Account.TripsThisMonthAsWritten` | src/app/account/page.tsx:122 | the trips count as written (same month number, any year) is at most the number of invoices |
| `Account.TripsThisMonth` | src/app/account/page.tsx:122 | the corrected trips count (same month and year) is at most the number of invoices |
| `Account.TripsMatchRevenue` | src/app/account/page.tsx:57-64 | the month's revenue is the revenue of exactly the invoices the corrected count counts, and the corrected count never exceeds the count as written |
| `Account.TripsAsWrittenCountOtherYears` | src/app/account/page.tsx:122 | with an invoice from the same month of last year, the count as written is 1, while the month's revenue and the corrected count are 0 |
| `Account.FilterWeaker` | src/app/account/page.tsx:60 | selecting by a stronger condition selects no more invoices |
| `Dashboard.OrElse` | src/app/dashboard/page.tsx:78 | `a \|\| b` is `b`, or else the present, non-empty `a` |
| `Dashboard.RouteKeys` | src/app/dashboard/page.tsx:78 | one route key per invoice, in list order |
| `Dashboard.FirstSeenMembers` | src/app/dashboard/page.tsx:79-85 | the counting dictionary's entries are the distinct route keys, each once |
| `Dashboard.CountPresent` | src/app/dashboard/page.tsx:79 | a route that occurs has a positive count |
| `Dashboard.CountAbsent` | src/app/dashboard/page.tsx:79 | a route that does not occur has count 0 |
| `Dashboard.TallyStep` | src/app/dashboard/page.tsx:79 | counting one more route adds 1 to its entry and keeps the entry order in first-seen order |
| `Dashboard.CountRoute` | src/app/dashboard/page.tsx:79 | one more occurrence of a route keeps the tally: a new route is listed last with count 1, a known one gets one more |
| `Dashboard.BestIsFirstMaximum` | src/app/dashboard/page.tsx:83-90 | the scan returns `-` for no entries. Otherwise it returns the first entry of maximum count: every count is at most its count, and every earlier count is smaller |
| `Dashboard.FirstSeenPrefix` | src/app/dashboard/page.tsx:79-85 | the entries after a prefix of the invoices are a prefix of the final entries |
| `Dashboard.TopRouteScan` | src/app/dashboard/page.tsx:83-90 | the top route is the first dictionary entry of maximum count |
| `Dashboard.TopRouteIsMostFrequent` | src/app/dashboard/page.tsx:83-90 | with no invoices the top route is `-`. Otherwise it is a route that occurs, and no route occurs more often |
| `Dashboard.TopRouteIsFirstSeen` | src/app/dashboard/page.tsx:86 | ties go to the first-seen route: any route as frequent as the top one occurs no earlier than the top route's first occurrence |
| `Dashboard.SeenByFirstTie` | src/app/dashboard/page.tsx:86 | a route tied with the first maximal entry first occurs no earlier than that entry |
| `Dashboard.TwiceBeatsOnce` | src/app/dashboard/page.tsx:83-90 | of two different routes, the one counted twice is the top route, not the one counted once |
| `Dashboard.FirstIndex` | src/app/dashboard/page.tsx:96 | a found position leaves room for the separator inside the key |
| `Dashboard.FirstIndexFinds` | src/app/dashboard/page.tsx:96 | `split` cuts at the first occurrence of the separator, and finds none when there is none |
| `Dashboard.OccursInTail` | src/app/dashboard/page.tsx:96 | an occurrence after the first character is an occurrence in the rest of the key |
| `Dashboard.SeparatorHasNoSpace` | src/app/dashboard/page.tsx:78 | the separator has no white space |
| `Dashboard.FirstSeparator` | src/app/dashboard/page.tsx:96 | in a route key whose pickup end lacks the separator, `split` cuts at the joining separator, right after the pickup end and its space |
| `Dashboard.SecondPieceOfRoute` | src/app/dashboard/page.tsx:96 | when neither end holds the separator, the second piece of `split` is the drop end with its leading space |
| `Dashboard.DisplayShowsDrop` | src/app/dashboard/page.tsx:96 | for ends without the separator, the display is the trimmed drop end, or the whole key when that is blank |
| `Dashboard.NoInvoicesShowDash` | src/app/dashboard/page.tsx:83 | with no invoices the panel shows `-` |
| `Dashboard.TopRouteExample` | src/app/dashboard/page.tsx:83-96 | for routes A→B, A→B, A→C the panel shows `B` |
| `Dashboard.KeysStep` | src/app/dashboard/page.tsx:78 | one more invoice adds its route key at the end |
| `Dashboard.RevenueStep` | src/app/dashboard/page.tsx:69-75 | one more invoice adds its amount to the total, and to the month's revenue exactly when it is dated this month and year |
| `Dashboard.ScanOne` | src/app/dashboard/page.tsx:67-80 | one pass of the loop body turns the totals and the route tally of the first `i` invoices into those of the first `i + 1` |
| `Dashboard.CalculateStats` | src/app/dashboard/page.tsx:58-98 | the loop computes `StatsOf`: total revenue, month revenue, trip count and the displayed top route |
| `Dashboard.MostFrequent` | src/app/dashboard/page.tsx:83-90 | the loop over the dictionary's entries returns the first entry with the strictly greatest count |
| `Dashboard.StatsBounds` | src/app/dashboard/page.tsx:92-97 | the month's revenue is at most the total, trips are the list length, and an empty list gives `0, 0, 0, -` |
| `Dashboard.SearchSelects` | src/app/dashboard/page.tsx:33-46 | the result is a subsequence of the list. A blank query keeps every invoice; otherwise an invoice is kept exactly when its number, lower-cased name or phone contains the lower-cased query, and every copy of a matching invoice is kept |
| `Dashboard.QueryNotTrimmed` | src/app/dashboard/page.tsx:37 | the query is not trimmed: for invoice 7 with no name or phone, `7` finds it and ` 7` does not |
| `Dashboard.SearchOne` | src/app/dashboard/page.tsx:33-46 | a one-invoice list with a query that is not blank keeps the invoice exactly when it matches the lower-cased query |
| `Dashboard.RemoveByIdExact` | src/app/dashboard/page.tsx:174 | removal keeps the rest in order, drops every invoice with that id, and keeps every copy of every other invoice |
| `Dashboard.SearchAfterRemove` | src/app/dashboard/page.tsx:174-176 | removing from the shown list gives the search of the shortened list |
| `Dashboard.RemoveFromShown` | src/app/dashboard/page.tsx:172-174 | when the shown list is the search of the list, removing an id from it gives the search of the list without that id |
| `Dashboard.History.constructor` | src/app/dashboard/page.tsx:21-26 | the page starts empty with statistics `0, 0, 0, -` and the shown list consistent |
| `Dashboard.History.Refilter` | src/app/dashboard/page.tsx:33-46 | the shown list becomes the search of the list; nothing else changes |
| `Dashboard.History.SetQuery` | src/app/dashboard/page.tsx:33-46 | the query changes and the shown list follows it |
| `Dashboard.History.Loaded` | src/app/dashboard/page.tsx:110-113 | the list and statistics are replaced by the store's answer, and the shown list is its search |
| `Dashboard.History.Delete` | src/app/dashboard/page.tsx:161-183 | nothing changes unless the user confirmed and the store deleted the invoice. Then both lists lose exactly the invoices with that id, and the statistics are recomputed. A store error is reported, and the shown list stays the search of the list |
| `Dashboard.History.Remove` | src/app/dashboard/page.tsx:172-175 | both lists lose exactly the invoices with that id, the query stays, the statistics are those of the new list, and the shown list stays the search of the list |
| `Dashboard.History.Recount` | src/app/dashboard/page.tsx:175 | the statistics become those of the current list; nothing else changes |
| `BottomNav.IsActive` | src/components/BottomNav.tsx:9-13 | `/` is active exactly on `/`; any other link is active exactly when the path starts with it; with no path nothing is active |
| `BottomNav.NothingActiveWithoutPath` | src/components/BottomNav.tsx:11 | with no path no link is active |
| `BottomNav.PrefixMatchesLongerPaths` | src/components/BottomNav.tsx:11 | `/create` is active on `/create/preview` and on `/created`, and `/` is not active on `/dashboard` |
| `BottomNav.AtMostOneActive` | src/components/BottomNav.tsx:19-45 | on any path at most one of the four links is highlighted |

## Left out

- Remote store and authentication: reads, inserts and deletes are not modelled. A submit or a delete is represented by its outcome (`accepted`, `storeDeleted`), and a fetch by the list it returns (`History.Loaded`). Error messages and `alert`s are not modelled; a failed delete only sets `reported`.
- PDF rendering, Blob/File/URL objects, the link click, `navigator.share` and `window.open` are foreign browser calls. Only their outcome is modelled, as `ShareEnv`: whether rendering succeeded, whether the device is mobile, and whether `share`/`canShare` exist and accept the file. The user-agent regular expression is not modelled.
- The WhatsApp message text and the share title depend on locale date and number formatting, so they are not modelled.
- Dates: parsing `invoice_date` with `new Date` and reading the clock are parameters (`dateOf`, `now`). Locale formatting and the day-of-week autofill are not modelled.
- Floating point: amounts and distances are whole numbers. `parseFloat` gives a whole number or `NotANumber`. Money fields are `nat`, so `amount \|\| 0` and a missing `total_amount` need no case of their own. The `/1000 .toFixed(1)` display is not modelled.
- React scheduling: `saveDraft` runs in the same handler as the state update, so in the program it captures the state before that update. In the model, handlers and `Form.SaveDraft` are separate methods, and a caller decides when to save.
- The form-level `onChange={saveDraft}`, the `isSubmitting` flag and the render delays are not modelled.
- `crypto.randomUUID` is a parameter (`freshId`, `idFor`).
- Draft storage: JSON text is not modelled. A slot that does not parse is `Unreadable`, and is handled like an empty slot. Non-string draft entries are skipped by the program; `Draft.entries` holds strings by construction.
- The named inputs are a map from name to value, standing for what `FormData` reads. Two controls are not kept in step with the state: the `total_km` and `total_hours` inputs, which the component drives from state, and any input whose default value is set through `defaultValue`. No input is named `journey_type`, so that field is submitted absent.
- Case mapping (`toUpperCase`, `toLowerCase`) is modelled for ASCII letters only; other characters are left unchanged.
- Aliasing: in the program a stop or charge update mutates an object shared with the previous array. The model replaces the element by value (`Form.SetStopLocation` and the other update handlers).
- `BottomNav.NothingActiveWithoutPath`: follows directly from `IsActive`'s contract and holds no proof of its own.
- Pure layout files (the invoice template, the home, login, success, print and edit pages) are not part of this model.

The code differs from the prose description of the system in these places; the model follows the code:

- The file name of `Rohit @ Kumar!!` is `Rohit_Kumar_…`. The `@` is dropped first, and then the two-space run becomes one `_`.
- The draft-loading effect is skipped when editing, but `saveDraft` still writes the draft while an invoice is being edited.
- Stops are submitted for local trips too.
- `saveDraft` does not save the trip type, the km or the hours.
- The route separator in the page source is the three characters U+201A U+00DC U+00ED. The split on it is modelled literally.

## Findings

| source | as written | input that shows it | evidently intended | confidence | as-written member | corrected member |
|---|---|---|---|---|---|---|
| src/app/account/page.tsx:122 | "trips this month" counts invoices whose month number equals the current month, in any year | now is September 2026, and one invoice is dated September 2025 with total 500. It is counted as a trip this month, while the month's revenue beside it is 0 | count the invoices of the current month and year, as the revenue figure at src/app/account/page.tsx:57-64 does | not executed | `Account.TripsThisMonthAsWritten`, with `Account.TripsAsWrittenCountOtherYears` | `Account.TripsThisMonth`, with `Account.TripsMatchRevenue` |
