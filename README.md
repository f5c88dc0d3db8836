# HopeBridge front end: listing, search and donation-form logic in Dafny

HopeBridge is a React front end for a medicine donation service. Donors list
medicines, needy people register, and both browse lists fetched from a remote
API. Almost all of the front end is page markup, HTTP calls and navigation.
This project models the client-side logic that decides what is shown and
what is sent:

- **Available Medicines page** (`src/ListedMed.jsx`). A three-stage filter
  over the fetched medicine snapshot:
  - a donor-email substring filter;
  - a name-or-company search;
  - an expiry-status filter (`all`, `valid`, `expiring`, `expired`).

  The page also has the "Expiring Soon" and "Expired" counters, the status
  badge and request button on each card and in the detail view, and the
  email-to-donor map with its "Anonymous Donor" fallback.
- **Needy People List page** (`src/NeedyList.jsx`). `filterList`, a search
  across name, email, contact number and Aadhaar number; the masked Aadhaar
  line; and the three counters. `NeedyList.FilterList` models `filterList`
  for any term. But the page has no control that changes `searchTerm`:
  `setSearchTerm` (line 17) is never called. So on the page as written the
  term stays `''`, and `BlankSearchShowsAll` describes the only state it
  reaches. The list shown is the whole list, and "Showing Results" equals
  "Total Registered".
- **Donation form** (`src/AvailMed.jsx`). Field-by-field updates of
  `formData`, the guards of "Avail To Public" (required fields, then
  quantity) before the post, and the unvalidated "Update" post.

Time is an input. An expiry date arrives as `ExpDate`: no date, a date that
does not parse, or a time value in milliseconds. The clock reading `now` is a
parameter. `daysUntilExpiry` is `ceil((expiry - now) / 86400000)`, computed
exactly on integers (`Expiry.CeilDays`). Fetched snapshots are inputs: a
sequence of records, or a `Response` that may have failed.

The page computes the expiry status in four separately written places: the
filter, the counters, the card and the detail view. Each is modelled as
written, and each is proved equal to one reference classification on the raw
millisecond difference (`Expiry.StatusOf`). In particular, the card's test on
`ceil(diff / day)` and the detail view's test on raw timestamps classify
every record alike.

The model follows what the code does, also where its own comments or labels
suggest otherwise:
- A record with no expiry date passes every status filter, `expired` and
  `expiring` included. The comment at `src/ListedMed.jsx:115` says such a
  record is "consider[ed] valid", yet the filter returns `true` for every
  `filterBy`. The counters do not count it.
  `ListedMed.ExpiredFilterVersusCounter` states the gap between the
  "expired" filter and the "Expired" counter.
- A record whose date does not parse is dropped by all three named status
  filters, is counted nowhere, and gets a "Valid" badge.
- The quantity guard is JavaScript's `qty <= 0` on a string. A quantity that
  is not a number converts to NaN, passes the guard, and is posted. The
  page's own controls cannot produce that case. The quantity field is
  `type="number"` (`src/AvailMed.jsx:157`), and a browser hands a
  non-numeric entry to `doSave` as `""`, which is reported as a missing
  field.
- Likewise the email filter box is `type="email"` (`src/ListedMed.jsx:260`).
  The browser strips surrounding white space from its value, so the
  untrimmed-filter case (`UntrimmedEmailFilter`) is true of `filterMedicines`
  but cannot be reached by typing.

Modules, one file each: `Wrappers`, `JsStrings` (truthiness, ASCII
`toLowerCase`, `includes`, `trim`), `Seqs` (`filter` and its laws), `Expiry`,
`ListedMed`, `ListedMedScenarios` (worked cases), `NeedyList`, `JsNumber`
(the sign of `Number(s)`), `AvailMed`.

## Model

| member | source | states |
|---|---|---|
| JsStrings.Truthy | src/ListedMed.jsx:99 | a field is truthy when it is present and not the empty string |
| JsStrings.Lower | src/ListedMed.jsx:99 | `toLowerCase` on ASCII letters: same length, each character lower-cased and every other character kept |
| JsStrings.Includes | src/ListedMed.jsx:99 | `includes`: the needle occurs at some position of the text at which it fits |
| JsStrings.Trim | src/ListedMed.jsx:97 | `trim`: the string without its leading and trailing JavaScript white space and line terminators, computed by `TrimStart` and `TrimEnd` |
| JsStrings.TrimEmptyIffBlank | src/ListedMed.jsx:97 | `s.trim()` is empty exactly when every character of `s` is JavaScript white space, so `Blank` is the page's "criterion not set" test |
| JsStrings.TrimStart | src/ListedMed.jsx:97 | the result is a suffix of the input, starts with a non-space character, and everything dropped is white space |
| JsStrings.TrimEnd | src/ListedMed.jsx:97 | the result is a prefix of the input, ends with a non-space character, and everything dropped is white space |
| Seqs.Keep | src/ListedMed.jsx:98-100 | `filter` returns no more records than it was given, each one from the input and accepted by the test |
| Seqs.KeepIsSubsequence | src/ListedMed.jsx:98-100 | the output of `filter` is an order-preserving subsequence of its input |
| Seqs.KeepMultiplicity | src/ListedMed.jsx:98-100 | `filter` keeps every accepted value as many times as it occurs in the input and drops every rejected one: nothing is deduplicated |
| Seqs.KeepFuse | src/ListedMed.jsx:94-130 | filtering in two successive stages equals one filter by the conjunction of the two tests |
| Seqs.KeepIdempotent | src/NeedyList.jsx:61-66 | filtering a filtered list again with the same test changes nothing |
| Expiry.CeilDays | src/ListedMed.jsx:117 | `Math.ceil(diff / 86400000)` is the unique integer `d` with `(d-1)*day < diff <= d*day` |
| Expiry.DaysUntilExpiry | src/ListedMed.jsx:353 | the day count of a record: `Infinity` without a date, NaN for a date that does not parse, otherwise the ceiling of the millisecond difference over one day |
| Expiry.PassesStatusFilter | src/ListedMed.jsx:114-129 | the status stage's test as written: true without a date; otherwise the `expiring`, `expired` and `valid` comparisons on the day count, with JavaScript's NaN comparisons, and true for any other value |
| Expiry.CountsAsExpiringSoon | src/ListedMed.jsx:155-161 | the "Expiring Soon" counter's test: false without a date, else `0 < days <= 30` |
| Expiry.CountsAsExpired | src/ListedMed.jsx:162-168 | the "Expired" counter's test: false without a date, else `days <= 0` |
| Expiry.CardBadge | src/ListedMed.jsx:351-398 | the card's badge: Expired when `days <= 0`, Expiring Soon when `0 < days <= 30`, Valid otherwise, with `Infinity` for a missing date |
| Expiry.CardRequestDisabled | src/ListedMed.jsx:404 | the card's button is disabled when `days <= 0` |
| Expiry.ModalExpiredTest | src/ListedMed.jsx:447 | the detail view's expired test: the date is set and its time value is at or before now; a date that does not parse fails it |
| Expiry.ModalSoonTest | src/ListedMed.jsx:449 | the detail view's second test: the date is set and `days <= 30` |
| Expiry.ModalBadge | src/ListedMed.jsx:447-457 | the detail view's badge: the expired test first, then the soon test, else Valid |
| Expiry.ModalRequestDisabled | src/ListedMed.jsx:565 | the detail view's request button is disabled by the expired test |
| Expiry.CeilDaysAtMostZero | src/ListedMed.jsx:353-355 | `ceil(diff / day) <= 0` holds exactly when `diff <= 0` |
| Expiry.CeilDaysAtMostSoon | src/ListedMed.jsx:353-354 | `ceil(diff / day) <= 30` holds exactly when `diff <= 30 days` in milliseconds |
| Expiry.CardBadgeIsClassification | src/ListedMed.jsx:351-404 | the card badge is the reference classification (no date or a bad date give Valid), and the card's button is disabled exactly when the badge is Expired |
| Expiry.ModalBadgeIsClassification | src/ListedMed.jsx:447-457 | the detail badge, which tests the raw timestamp first, is the reference classification; the button at line 565 is disabled exactly when that badge is Expired |
| Expiry.BadgesAgree | src/ListedMed.jsx:351-355 | the card's ceiling-based test and the detail view's timestamp test give every record the same badge and the same disabled state |
| Expiry.StatusFilterIsClassification | src/ListedMed.jsx:112-130 | for a dated record, `expired`, `expiring` and `valid` keep exactly the records of that class; an undated record passes every filter; a bad date passes none of the three; any other `filterBy` value keeps everything |
| Expiry.StatusFiltersPartition | src/ListedMed.jsx:117-128 | for a dated record exactly one of the three status filters accepts it |
| Expiry.CounterTestsAreClassification | src/ListedMed.jsx:155-168 | the counters' tests pick the ExpiringSoon and Expired classes, never both, and never an undated record |
| Expiry.ClassificationMonotonic | src/ListedMed.jsx:117-125 | moving the expiry date earlier can only move a record from valid towards expired, never back |
| ListedMed.EmailMatches | src/ListedMed.jsx:97-100 | the email stage's test: the email is truthy and its lower-cased value includes the lower-cased, untrimmed filter |
| ListedMed.SearchMatches | src/ListedMed.jsx:104-108 | the search stage's test: the truthy name or the truthy company, lower-cased, includes the lower-cased term |
| ListedMed.FilteredMedicines | src/ListedMed.jsx:93-132 | the list `filterMedicines` stores: the email, search and status stages in turn, each skipped when its criterion is blank or `all` |
| ListedMed.EmailStageIsGate | src/ListedMed.jsx:97-101 | the email stage equals one filter whose test holds trivially when the email filter is blank |
| ListedMed.SearchStageIsGate | src/ListedMed.jsx:104-109 | the search stage equals one filter whose test holds trivially when the search term is blank |
| ListedMed.StatusStageIsGate | src/ListedMed.jsx:112-130 | the status stage equals one filter whose test holds trivially when `filterBy` is `all` |
| ListedMed.FilteredIsSelection | src/ListedMed.jsx:93-132 | the three stages together equal one filter by the conjunction of the criteria that are set |
| ListedMed.FilteredIsOrderedSelection | src/ListedMed.jsx:93-132 | the shown list is an order-preserving subsequence of the snapshot, holding each selected record as often as the snapshot does and no other record |
| ListedMed.NoCriteriaShowsAll | src/ListedMed.jsx:94-112 | a blank email filter, a blank search term and `filterBy = 'all'` show the snapshot unchanged |
| ListedMed.FilterIdempotent | src/ListedMed.jsx:93-132 | filtering the shown list again with the same criteria and clock returns it unchanged |
| ListedMed.EmailFilterExact | src/ListedMed.jsx:97-100 | a non-blank email filter keeps exactly the records whose email is present and non-empty and, lower-cased, contains the lower-cased untrimmed filter |
| ListedMed.SearchExact | src/ListedMed.jsx:104-108 | a non-blank search keeps a record iff its lower-cased name or company contains the lower-cased term; a record with both fields absent never matches |
| ListedMed.UndatedPassesStatusFilter | src/ListedMed.jsx:115 | a record without an expiry date that passes the text criteria is shown under every `filterBy`, `expired` and `expiring` included |
| ListedMed.CountersBounded | src/ListedMed.jsx:153-168 | `expiringSoon + expired <= totalMedicines`, both counted over the unfiltered snapshot |
| ListedMed.ExpiringSoonCount | src/ListedMed.jsx:155-161 | `expiringSoon`: the number of records of the snapshot that pass the counter's test |
| ListedMed.ExpiredCount | src/ListedMed.jsx:162-168 | `expired`: the number of records of the snapshot that pass the counter's test |
| ListedMed.CountersMatchBadges | src/ListedMed.jsx:153-168 | the counters equal the numbers of cards badged Expiring Soon and Expired, and with the cards badged Valid they add up to the total |
| ListedMed.ExpiredFilterVersusCounter | src/ListedMed.jsx:155-168 | the `expired` filter shows the Expired count plus every undated record |
| ListedMed.LastDonorWith | src/ListedMed.jsx:69-73 | gives the index of the last donor with a given email, or reports that there is none |
| ListedMed.DonorIndex | src/ListedMed.jsx:68-73 | the map left by the `forEach`: each donor with a truthy email, in order, overwrites the entry for that email |
| ListedMed.DonorIndexLastWins | src/ListedMed.jsx:68-73 | the donor map holds exactly the non-empty emails of the snapshot, each bound to the last donor with that email |
| ListedMed.BuildDonorMap | src/ListedMed.jsx:68-73 | the `forEach` loop builds exactly that map, and every key is a donor's own non-empty email |
| ListedMed.GetDonorName | src/ListedMed.jsx:86-91 | the result is never empty; it is the donor's name when the email is set, known and the name non-empty, and "Anonymous Donor" otherwise, never an error |
| ListedMed.DonorNameFromSnapshot | src/ListedMed.jsx:86-91 | looking up an email in the map built from a snapshot gives the name of the last donor with that email, or "Anonymous Donor" |
| ListedMed.Listing.constructor | src/ListedMed.jsx:14-20 | the page starts with empty lists and map, blank texts and `filterBy = 'all'` |
| ListedMed.Listing.FilterMedicines | src/ListedMed.jsx:93-133 | the three stages over a local list store exactly the filter of the snapshot by the criteria held; `handleFetchByEmail` (line 135) calls it unchanged |
| ListedMed.Listing.LoadMedicines | src/ListedMed.jsx:45-61 | the snapshot is replaced wholesale by the fetched data, or emptied on a failed status, missing data or an exception; the shown list is re-derived |
| ListedMed.Listing.LoadDonors | src/ListedMed.jsx:63-83 | the donor map is rebuilt from a successful fetch; it becomes empty on failure, or when a successful reply has no data and the `forEach` throws |
| ListedMed.Listing.SetEmailFilter | src/ListedMed.jsx:263 | setting the email filter re-derives the shown list, as the effect at lines 30-32 does |
| ListedMed.Listing.ClearEmailFilter | src/ListedMed.jsx:139-141 | clearing the email filter empties it and re-derives the shown list |
| ListedMed.Listing.SetSearchTerm | src/ListedMed.jsx:294 | setting the search term re-derives the shown list |
| ListedMed.Listing.SetFilterBy | src/ListedMed.jsx:309 | setting the status filter re-derives the shown list |
| ListedMed.Listing.DonorNameOf | src/ListedMed.jsx:521 | the donor name in the detail view: the donor's name when the medicine's email is set, known and its name non-empty, and "Anonymous Donor" otherwise, so never empty |
| ListedMedScenarios.OwnerFilterScenario | src/ListedMed.jsx:97-100 | from records of a@x.com, b@x.com and a@x.com, the filter "a@x.com" keeps the first and the third, in order |
| ListedMedScenarios.StatusScenario | src/ListedMed.jsx:112-168 | on 2024-01-01, with expiry dates 2023-12-20, 2024-01-15 and 2025-01-01, `expiring` keeps only the second, and each counter reads 1 |
| ListedMedScenarios.SearchScenario | src/ListedMed.jsx:104-108 | "para" finds "Paracetamol" whatever its case, finds "Ibuprofen" through the company "ParaLabs", and skips "Ibuprofen"/"Cipla" |
| ListedMedScenarios.UntrimmedEmailFilter | src/ListedMed.jsx:97-99 | the filter "a@x.com " (trailing space) is not blank, and it hides the record of a@x.com |
| ListedMedScenarios.DonorLookupScenario | src/ListedMed.jsx:86-91 | an empty map names everyone "Anonymous Donor"; a known donor Asha is named; a later duplicate without a name makes the lookup anonymous |
| NeedyList.FilterListIsShown | src/NeedyList.jsx:57-70 | `filterList` equals one filter whose test holds trivially for a blank term |
| NeedyList.PersonMatches | src/NeedyList.jsx:61-66 | the search test: lower-cased name or email includes the lower-cased term, or contact or Aadhaar number includes the term as typed; absent or empty fields never match |
| NeedyList.FilterList | src/NeedyList.jsx:57-70 | the list `filterList` stores: the whole list for a blank term, else the people passing the test, in order |
| NeedyList.BlankSearchShowsAll | src/NeedyList.jsx:60 | a blank or white-space term shows the whole list |
| NeedyList.FilterListIsOrderedSelection | src/NeedyList.jsx:61-66 | the result is an order-preserving subsequence of the list; for a non-blank term a person is in it iff the lower-cased name or email contains the lower-cased term, or the contact or Aadhaar number contains the term as typed |
| NeedyList.AbsentFieldsNeverMatch | src/NeedyList.jsx:62-65 | a person whose four searched fields are absent or empty is never found by a non-blank term |
| NeedyList.FilterListIdempotent | src/NeedyList.jsx:57-70 | searching the shown list again with the same term changes nothing |
| NeedyList.CountersBounded | src/NeedyList.jsx:141-168 | "Showing Results" and "With Contact Info" never exceed "Total Registered" |
| NeedyList.WithContactCount | src/NeedyList.jsx:154 | "With Contact Info": the number of people with a truthy contact number |
| NeedyList.LastFour | src/NeedyList.jsx:218 | `slice(-4)` gives the last four characters, or the whole string when shorter, as a suffix of the number |
| NeedyList.AadhaarDisplay | src/NeedyList.jsx:215-218 | the Aadhaar line: absent when the number is absent or empty, otherwise `****-****-` and the last four characters |
| NeedyList.MaskRevealsOnlyLastFour | src/NeedyList.jsx:215-218 | the Aadhaar line is `****-****-` followed by the last four characters; changing any earlier character leaves the line unchanged |
| NeedyList.MaskExample | src/NeedyList.jsx:215-218 | "123456789012" shows as `****-****-9012`, "12" as `****-****-12`, and an empty number shows no line |
| NeedyList.CaseSensitivityExample | src/NeedyList.jsx:62-65 | "RAVI" finds the name "Ravi"; "AB" finds the Aadhaar "AB12" but "ab" does not |
| JsNumber.IndexOfEither | src/AvailMed.jsx:70 | returns the first position holding either character, or the length when there is none |
| JsNumber.NumberSign | src/AvailMed.jsx:70 | the sign of `Number(s)`: white space trimmed, empty is 0, then the StringNumericLiteral grammar of section 7.1.4.1 of ECMA-262 (signed decimal with fraction and exponent, `Infinity`, `0x`/`0o`/`0b`), NaN otherwise |
| JsNumber.AtMostZero | src/AvailMed.jsx:70 | `qty <= 0` on a string: the number is zero or negative; NaN compares false |
| JsNumber.DigitsSign | src/AvailMed.jsx:70 | a string of digits converts to zero iff every digit is 0, and to a positive number otherwise; with a minus sign it is never above zero |
| JsNumber.BlankIsZero | src/AvailMed.jsx:70 | an empty or white-space string converts to 0, so `qty <= 0` holds |
| JsNumber.TrimKeepsFirst | src/AvailMed.jsx:70 | trimming a string that does not start with white space leaves a non-empty string with the same first character |
| JsNumber.LetterLiteralIsNaN | src/AvailMed.jsx:70 | a trimmed literal other than `Infinity` that starts with a letter is NaN; a leading `e` or `E` leaves an empty mantissa |
| JsNumber.WordIsNaN | src/AvailMed.jsx:70 | text that starts with a letter and does not trim to `Infinity` (so `Ibuprofen` too) converts to NaN whatever follows, trailing white space included, so `qty <= 0` is false |
| AvailMed.SaveCheck | src/AvailMed.jsx:63-73 | a missing or empty required field (every field but `info`) gives the missing-fields outcome; otherwise `qty <= 0` gives the quantity outcome; otherwise the form is posted; the three cases are exclusive |
| AvailMed.InitialFormIsIncomplete | src/AvailMed.jsx:38-47 | the fresh form is rejected for missing fields |
| AvailMed.InfoNotRequired | src/AvailMed.jsx:63-65 | the value of `info` never changes the outcome of validation |
| AvailMed.EmptyQuantityIsMissing | src/AvailMed.jsx:65 | an empty quantity is reported as a missing field, whatever else is filled |
| AvailMed.CompleteWithQuantity | src/AvailMed.jsx:65-73 | on a form whose other required fields are filled, only the sign of `Number(qty)` decides between the quantity message and the post |
| AvailMed.DigitQuantity | src/AvailMed.jsx:65-73 | with the other required fields filled, "0" (or "00", "-5") gets the quantity message, not the missing-field one, and a positive number of digits is posted |
| AvailMed.SpacesQuantity | src/AvailMed.jsx:65-73 | a quantity of spaces passes the required-field guard but converts to 0 and is rejected |
| AvailMed.WordQuantityIsPosted | src/AvailMed.jsx:70-78 | with the other required fields filled, a quantity that starts with a letter and does not trim to `Infinity` passes both guards and is posted |
| AvailMed.DonationForm.constructor | src/AvailMed.jsx:38-47 | the form starts with all eight fields present and empty, nothing sent and nothing shown |
| AvailMed.DonationForm.HandleChange | src/AvailMed.jsx:49-52 | only the named field of `formData` changes; every other key keeps its presence and value |
| AvailMed.DonationForm.DoSave | src/AvailMed.jsx:54-87 | the outcome is `SaveCheck(formData)`; a post to `/medicine/save` carrying the whole form is sent exactly when both guards pass; otherwise the matching alert is shown and nothing is sent |
| AvailMed.DonationForm.DoUpdate | src/AvailMed.jsx:89-102 | the form is always posted to `/medicine/update`, with no validation |

## Left out

- HTTP layer. The axios calls and the multipart `FormData` construction are not modelled. A fetch is a `Response` input, and an error axios throws becomes `RequestFailed`. The handling of the reply is modelled: `status === true`, the `data || []` fallback, and the `forEach` that throws on missing data, in `Listing.LoadMedicines` and `Listing.LoadDonors`. A post is recorded as its endpoint and the form map.
- Browser input handling. The browser's treatment of `type="number"` and `type="email"` fields is not modelled. The operations take any string, so the model also covers values that these controls cannot produce.
- Server replies after a post. The alert of `resp.data.msg` and the navigation to the dashboard after a successful save are not modelled.
- Clock and dates. JavaScript `Date` parsing and time zones are not modelled: the expiry date arrives already parsed as an `ExpDate`. The source reads `new Date()` anew for each record and each expression; the model uses one clock reading, `now`, per call.
- Expiry.CeilDays: computes `ceil(diff / 86400000)` exactly on integers. It does not model the double-precision division, which could round differently only for differences of many millions of days.
- Lower-casing. `toLowerCase` is modelled for ASCII letters only, not full Unicode case mapping.
- String units. JavaScript strings are UTF-16 code units. `includes` and `slice(-4)` are modelled on Unicode characters.
- Field types. Record fields are modelled as strings or absent. Numbers or other values that the API might return in these fields are not modelled.
- Prototype keys. Keys that the donor map inherits from `Object.prototype`, such as `donors["constructor"]`, are not modelled. The map is a plain map.
- JsNumber.UnsignedDecimalSign: treats every non-zero decimal literal as non-zero. It does not model underflow to 0 (for example `"1e-400"`).
- Other page state. The donor phone line of the detail view (`src/ListedMed.jsx:543-551`) is not modelled, and neither are the modal open and close state, the `loading` flag, dark mode and `localStorage`.
- Other files. Routing, the home page, the dashboards, the donor and needy registration forms and the OCR service calls are not part of this model.
