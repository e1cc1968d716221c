# Cash-tracking ledger: a Dafny model

This project models the ledger core of the cash-tracking API. A business records
its cash **inflows** and **outflows** and asks for daily and range summaries and
for a merged transaction history.

- **Records** (`records.dfy`): both record schemas. An inflow carries a payment
  channel (`cash`, `transfer`, `online`; default `cash`). An outflow carries a
  category (`restocking`, `delivery`, `utilities`, `rent`, `salaries`, `other`;
  default `other`). Both have an owner, an amount of at least 0.01, a date, an
  optional note that is trimmed and at most 500 characters long, and an
  `isDeleted` flag that defaults to false. `Save` is the cast-then-validate step
  that runs on every create and save. It fails with the set of failing paths.
  `SoftDelete` sets the flag and nothing else.
- **Store** (`store.dfy`): the inflow and outflow controllers, which are copies
  of each other up to the record type. The `Collection` class holds one
  collection as a sequence of records and the next id. Its methods are:
  - `Create`: the controller's amount guard, then the defaults, then `Save`,
    then an append.
  - `Update`: owner-scoped lookup, field-by-field assignment of the supplied
    fields, then `Save`.
  - `Delete`: owner-scoped lookup, then a soft delete.
  The read-only endpoints are functions over the sequence:
  - `Lookup`: get by id.
  - `List`: day window and kind filter, newest first, skip/limit, and a total
    taken before pagination.
- **Summary** (`summary.dfy`): the daily and range summaries. Each one sums and
  counts the caller's live records inside a closed window and derives the net
  balance and the transaction count. This module also builds the transaction
  history: both collections tagged, merged, sorted by date descending with a
  stable sort, and paged.
- **Common**, **Paging** and **Ordering** hold what these share:
  - Common: errors and the day windows.
  - Paging: `skip = (page - 1) * limit`, the page slice, and
    `pages = ceil(total / limit)`.
  - Ordering: a stable sort by date, newest first, with its permutation,
    sortedness, stability and map-commutation lemmas.

Dates are integer milliseconds, and a day runs from `DayStart(t)` to
`DayStart(t) + 86_400_000 - 1`. Amounts are `real`. Owners and record ids are
natural numbers. The caller's identity is a parameter.

## Model

| member | source | states |
|---|---|---|
| Common.DayStart | cashtrack-backend/src/controllers/summary.controller.js:18-19 | the day's midnight is at most the instant, less than a day before it, and a whole number of days |
| Common.DayWindow | cashtrack-backend/src/controllers/summary.controller.js:18-21 | the window of a day contains exactly the instants of that same day, from 00:00:00.000 to 23:59:59.999 |
| Common.RangeWindow | cashtrack-backend/src/controllers/summary.controller.js:93-96 | an instant is in the range window iff its day lies between the start day and the end day; an inverted range contains nothing |
| Paging.Slice | cashtrack-backend/src/controllers/inflow.controller.js:58-63 | the page has `min(limit, total - skip)` items, or none when skip is past the end, and item k is result `skip + k` |
| Paging.PageCount | cashtrack-backend/src/controllers/inflow.controller.js:72 | `pages` is the ceiling of total/limit: enough pages for every item, and no empty last page; zero pages exactly when there is nothing |
| Paging.PageBeyondEndIsEmpty | cashtrack-backend/src/controllers/inflow.controller.js:58-73 | a page number above the reported page count yields an empty page |
| Paging.PageHolds | cashtrack-backend/src/controllers/inflow.controller.js:58-73 | result k is item `k % limit` of page `k / limit + 1`, and that page is within the reported count |
| Paging.PageAt | cashtrack-backend/src/controllers/summary.controller.js:133-148 | result `skip + slot` is item `slot` of the page starting at `skip`, and a page that starts before the end is within the reported count |
| Ordering.SortDesc | cashtrack-backend/src/controllers/inflow.controller.js:60-61 | the sorted results are a permutation of the input, ordered by date newest first |
| Ordering.SortKeepsTieOrder | cashtrack-backend/src/controllers/summary.controller.js:143 | the sort is stable: on equal dates, elements keep the relative order they had before sorting |
| Ordering.SortCommutes | cashtrack-backend/src/controllers/summary.controller.js:135-143 | tagging records and then sorting them gives the same array as sorting and then tagging them |
| Records.ParseChannel | updatedmiddleandmodel.js/inflow.model.js:22-27 | the channel enum accepts exactly `cash`, `transfer` and `online`, each as itself |
| Records.ParseCategory | cashtrack-backend/src/models/Outflow.model.js:21-26 | the category enum accepts exactly the six category names, each as itself |
| Records.ParseKind | cashtrack-backend/src/models/Outflow.model.js:21-26 | a string is accepted for a record type iff it names a value of that type's enum, and it resolves to that value |
| Records.KindNameRoundTrip | updatedmiddleandmodel.js/inflow.model.js:22-27 | every enum value of a type is accepted back under its own name |
| Records.DefaultKind | updatedmiddleandmodel.js/inflow.model.js:22-27 | the default is `cash` for an inflow and `other` for an outflow, and it belongs to that type's enum |
| Records.Trim | cashtrack-backend/src/models/Outflow.model.js:27-31 | the trimmed note is a contiguous part of the note, everything removed is white space, and neither end is white space |
| Records.Utf16Length | cashtrack-backend/src/models/Outflow.model.js:30 | the note length `maxlength` compares is between the number of characters and twice that number |
| Records.Utf16LengthIsLength | updatedmiddleandmodel.js/inflow.model.js:31 | the UTF-16 length equals the number of characters iff no character lies outside the Basic Multilingual Plane |
| Records.AstralLengthDoubles | updatedmiddleandmodel.js/inflow.model.js:31 | a string made only of characters outside the Basic Multilingual Plane is twice as long in UTF-16 code units |
| Records.TrimIdempotent | updatedmiddleandmodel.js/inflow.model.js:28-32 | trimming an already trimmed note changes nothing |
| Records.TrimKeepsSpaceless | cashtrack-backend/src/models/Outflow.model.js:29 | a note without white space is kept unchanged by the `trim` setter |
| Records.Failures | cashtrack-backend/src/models/Outflow.model.js:10-31 | a path fails iff its constraint is broken: amount below 0.01, enum value not in the enum, trimmed note longer than 500 UTF-16 code units |
| Records.AstralNoteTooLong | cashtrack-backend/src/models/Outflow.model.js:27-31 | a note of 251 characters outside the Basic Multilingual Plane (502 UTF-16 code units) fails the note length validator |
| Records.Save | updatedmiddleandmodel.js/inflow.model.js:11-37 | a document is stored iff no path fails, otherwise the error lists every failing path; a stored record conforms to the schema and is the document with its note trimmed |
| Records.SaveRoundTrip | updatedmiddleandmodel.js/inflow.model.js:11-37 | saving a conforming record unchanged stores it unchanged |
| Records.SoftDelete | cashtrack-backend/src/models/Outflow.model.js:54-57 | the flag is set and every other field is unchanged |
| Records.SoftDeleteIdempotent | updatedmiddleandmodel.js/inflow.model.js:49-52 | soft-deleting twice equals soft-deleting once, and the flagged record still conforms to the schema |
| Store.NewRecord | cashtrack-backend/src/controllers/inflow.controller.js:14-24 | 400 "Please provide a valid amount" iff the amount is missing or not positive; otherwise the record is stored iff the schema accepts the document, and a refusal lists every failing path; a stored record is the caller's, is not deleted, conforms to the schema, and carries the supplied amount, the date (now when absent or 0), the kind or its default, and the trimmed note |
| Store.KindOrDefault | cashtrack-backend/src/controllers/inflow.controller.js:22 | an absent or empty enum value becomes the name of the type's default, which the schema accepts; any other value is passed on as given |
| Store.DateOrNow | cashtrack-backend/src/controllers/outflow.controller.js:21 | an absent date or the falsy timestamp 0 becomes the current time; any other date is kept |
| Store.CreateDefaults | cashtrack-backend/src/controllers/outflow.controller.js:18-24 | with a valid amount and no kind, the record gets the type's default kind, today's date when none is given, and `isDeleted` false |
| Store.CreateBelowMinimum | cashtrack-backend/src/controllers/inflow.controller.js:14-24 | a positive amount below 0.01 passes the controller's guard and is refused by the schema's amount validator |
| Store.Locate | cashtrack-backend/src/controllers/inflow.controller.js:87-91 | the lookup finds the first record with that id that belongs to the caller and is not deleted, or reports that there is none |
| Store.LocateUnique | cashtrack-backend/src/controllers/inflow.controller.js:87-91 | when ids are unique, the lookup finds exactly the matching record |
| Store.Lookup | cashtrack-backend/src/controllers/inflow.controller.js:87-95 | success iff some record has that id, belongs to the caller and is not deleted; otherwise 404 "Inflow not found" / "Outflow not found" |
| Store.LookupSeesOnlyOwn | cashtrack-backend/src/controllers/outflow.controller.js:87-95 | a lookup over all records answers as a lookup over the caller's live records only, so foreign and deleted records look the same as missing ones |
| Store.Patched | cashtrack-backend/src/controllers/inflow.controller.js:122-128 | a failed save is a validation error naming at least one path; a saved record conforms to the schema, keeps id, owner and flag, and takes the supplied amount and date or keeps the old ones |
| Store.PatchChangesOnlySupplied | cashtrack-backend/src/controllers/inflow.controller.js:110-128 | an update on a stored record saves iff every supplied field is valid; id, owner and flag are kept, supplied fields are taken, and unsupplied fields keep their values |
| Store.EmptyPatchKeepsRecord | cashtrack-backend/src/controllers/outflow.controller.js:122-128 | an update that supplies nothing saves the record unchanged |
| Store.Select | cashtrack-backend/src/controllers/inflow.controller.js:41-56 | a record is selected iff it is stored and matches the owner, is not deleted, lies in the window and has the kind |
| Store.SelectAppend | cashtrack-backend/src/controllers/inflow.controller.js:41-56 | selecting from two concatenated collections is concatenating the selections |
| Store.List | cashtrack-backend/src/controllers/inflow.controller.js:39-73 | the items are page `page` (default 1) of `limit` (default 50) of the matches sorted newest first, skipping (page-1)*limit; the total counts every match before pagination; pages is ceil(total/limit); each item is the caller's, live, on the day and of the kind |
| Store.ListReachesEveryMatch | cashtrack-backend/src/controllers/outflow.controller.js:39-73 | every matching record appears on some page between 1 and pages |
| Store.ListPastLastPage | cashtrack-backend/src/controllers/inflow.controller.js:58-73 | a page above the page count is empty rather than an error |
| Store.ListByChannel | cashtrack-backend/src/controllers/inflow.controller.js:53-56 | with a channel filter, an inflow listing holds only records of that channel |
| Store.ListByCategory | cashtrack-backend/src/controllers/outflow.controller.js:53-56 | with a category filter, an outflow listing holds only records of that category |
| Store.CreateThenLookup | cashtrack-backend/src/controllers/inflow.controller.js:18-24 | a record just created is found by its owner under its new id, exactly as stored |
| Store.DeleteThenNotFound | cashtrack-backend/src/controllers/inflow.controller.js:143-153 | after a soft delete the record is no longer found, so a second delete is a 404 |
| Store.Assign | cashtrack-backend/src/controllers/inflow.controller.js:122-126 | each supplied field overwrites the document's field and every unsupplied field keeps its value |
| Store.Collection.Create | cashtrack-backend/src/controllers/inflow.controller.js:9-30 | the answer is `NewRecord`'s; a stored record is appended and the next id advances by one, a refused one leaves the collection and the next id as they were, and the collection stays well formed |
| Store.Collection.Update | cashtrack-backend/src/controllers/outflow.controller.js:108-134 | 404 when the lookup fails; otherwise the answer is the patched record, which replaces the found record in place if it validates; nothing else changes |
| Store.Collection.Delete | cashtrack-backend/src/controllers/inflow.controller.js:141-159 | 404 when the lookup fails; otherwise only the found record is flagged deleted, and no record is removed |
| Summary.GetDailySummary | cashtrack-backend/src/controllers/summary.controller.js:10-78 | 400 "Please provide a date" iff no date; with a date, always a summary, whose totals and counts are the sums and numbers of the caller's live records on that day (zero when none), with net balance = inflows - outflows and transactions = inflow count + outflow count |
| Summary.GetRangeSummary | cashtrack-backend/src/controllers/summary.controller.js:85-123 | 400 "Please provide start and end dates" iff a bound is missing; with both bounds, always a summary, whose totals are the sums over the caller's live records from the start day to the end day, and net balance is their difference |
| Summary.Aggregate | cashtrack-backend/src/controllers/summary.controller.js:24-57 | the group stage yields at most one group, none iff nothing matches, holding the sum of the matched amounts and their number |
| Summary.TotalOf | cashtrack-backend/src/controllers/summary.controller.js:59-60 | no group gives a total of 0, otherwise the group's total |
| Summary.CountOf | cashtrack-backend/src/controllers/summary.controller.js:61-62 | no group gives a count of 0, otherwise the group's count |
| Summary.DailyCountsMatchList | cashtrack-backend/src/controllers/summary.controller.js:24-62 | the daily counts equal the totals the inflow and outflow listings report for the same day without a kind filter |
| Summary.DailyIsOneDayRange | cashtrack-backend/src/controllers/summary.controller.js:93-117 | a daily summary has the totals of the range that starts and ends on that day |
| Summary.InvertedRangeIsZero | cashtrack-backend/src/controllers/summary.controller.js:93-117 | a range whose start day is after its end day yields zero totals, not an error |
| Summary.WindowSplits | cashtrack-backend/src/controllers/summary.controller.js:98-106 | splitting a window into two adjacent windows splits its total and its count into their sums |
| Summary.RangeSplits | cashtrack-backend/src/controllers/summary.controller.js:93-117 | the range from a start day to an end day has the totals of the range up to a middle day plus those of the range from the next day |
| Summary.TotalBoundedByCount | cashtrack-backend/src/controllers/summary.controller.js:59-62 | over well-formed records a total is at least 0.01 times its count, and it is zero iff the count is zero |
| Summary.DeleteLowersTotals | cashtrack-backend/src/controllers/summary.controller.js:24-57 | soft-deleting a record lowers every total it was counted in by its amount and that count by one, and leaves every other total unchanged |
| Summary.CreateRaisesTotals | cashtrack-backend/src/controllers/summary.controller.js:24-57 | adding a record raises exactly the totals whose owner, window and flag it matches, by its amount, so other owners' records never show |
| Summary.TagInflow | cashtrack-backend/src/controllers/summary.controller.js:139 | an inflow item has type inflow and the record's id, amount, date, payment channel and note |
| Summary.TagOutflow | cashtrack-backend/src/controllers/summary.controller.js:140 | an outflow item has type outflow and the record's id, amount, date, category and note |
| Summary.Merged | cashtrack-backend/src/controllers/summary.controller.js:135-143 | the merged history has one item per live inflow and outflow of the caller and is sorted newest first |
| Summary.GetTransactionHistory | cashtrack-backend/src/controllers/summary.controller.js:130-153 | the transactions are page `page` (default 1) of `limit` (default 20) of the merged history, skipping (page-1)*limit, newest first; the total is the number of the caller's live inflows and outflows; pages is ceil(total/limit) |
| Summary.HistoryHoldsEveryLiveRecord | cashtrack-backend/src/controllers/summary.controller.js:135-141 | the merged history is, as a multiset, exactly the caller's live inflows tagged as inflows plus the live outflows tagged as outflows |
| Summary.HistoryKeepsTypedFields | cashtrack-backend/src/controllers/summary.controller.js:139-140 | in the history every inflow item carries a payment channel and every outflow item a category |
| Summary.HistoryTiesInflowFirst | cashtrack-backend/src/controllers/summary.controller.js:138-143 | on equal dates no outflow comes before an inflow |
| Summary.HistoryPastLastPage | cashtrack-backend/src/controllers/summary.controller.js:144-148 | a page above the page count is empty |
| Summary.HistoryReachesEveryItem | cashtrack-backend/src/controllers/summary.controller.js:132-148 | item `skip + slot` of the merged history is item `slot` of the page starting at `skip`, and that page is within the page count |

## Left out

- Dates: JS `Date` parsing of the query strings, invalid dates, and the server's local time zone in `setHours`. The model uses integer milliseconds and UTC days.
- Numbers: `parseInt` of `page` and `limit` yielding NaN, and `limit = 0` (a division by zero in `pages`). Paging requires `page >= 1` and `limit >= 1`.
- Amounts: JS `Number` is floating point. The model sums exact `real` values, so rounding in totals is not modelled.
- Casting: a `CastError` from a request value of the wrong JSON type (an amount given as text, an id that is not an ObjectId, a `null` note) is not modelled. A `Draft` field is either a value of the right type or absent. Of the falsy values `date || new Date()` replaces, only an absent date and the timestamp 0 are modelled; an empty string, `null` or `false` date is not a `Draft.date`.
- Summary.GetDailySummary and Summary.GetRangeSummary: the `date`, `startDate` and `endDate` echoed in the response are the query strings in the source; the model echoes the timestamps.
- Concurrency: the inflow and outflow aggregations are separate queries, not one snapshot. The model evaluates both over one state.
- Ids: ObjectId generation is modelled as a counter, `Collection.nextId`.
- Tie order: MongoDB does not specify the order of documents with equal dates under `sort({ date: -1 }).skip().limit()`, and separate requests need not agree on it. The model fixes one order, the store order. Store.ListReachesEveryMatch and Summary.HistoryReachesEveryItem therefore assume that every page request sees the same tie order; in the service, records with equal dates at a page boundary can be repeated or missed from one page to the next. The inflows-before-outflows order on equal dates in the history comes from the stable `Array.prototype.sort`, and it holds whatever order each query returned.
- Timestamps: the `createdAt` and `updatedAt` fields are left out, since nothing in the core reads them.
- Projection: `select: false` on `isDeleted` only hides the flag in responses. The model keeps the flag on every record.
- Responses: the response envelope, status texts and the error middleware are left out. The error middleware is not part of this model.
- Access: authentication, the user model and controller, the routes, and server and database setup are left out. The owner is a parameter.

