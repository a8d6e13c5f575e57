# Transaction list model

A Dafny model of the transaction list endpoint of a personal finance tracker
backend (`getList` in `app/controllers/transactionController.js`). Given the
caller's user id, an optional start and end date, and the stored transaction
records, the endpoint:

1. fetches the caller's records. An inclusive `[start, end]` bound on `date`
   is applied only when both bounds are present (`RangeFilter`);
2. totals the `amount` of `income` records and of `expense` records in one
   pass, skipping any other type. The remaining balance is income minus
   expense (`Totals`);
3. buckets the records by exact `date` value. Buckets open in first-seen
   order. Each record is pushed onto its bucket, and the bucket is stable-sorted
   newest-`createdAt`-first after every push (`Grouping`);
4. orders the buckets by date, newest first (`GroupOrder`);
5. replies with `{listGroup, totalIncome, totalExpense, remainingBalance}`
   (`TransactionList.GetList`).

Records are immutable datatypes (`Ledger.Transaction`). Dates and creation
times are integer timestamps, amounts are integers, and the stored `type` is
`Income | Expense | Other`. An absent or empty query bound is `None`. The
database query is a filter (`Ledger.Select`) over the stored sequence, in
storage order. Record-level predicates are one `Criterion` datatype, so every
filtering lemma is proved once.

Two behaviours of the code are kept as written:
- Within a bucket the code promises only a non-increasing `createdAt` order.
  Records created at the same instant keep their fetch order (a stable sort),
  and the model states exactly that, not a strictly descending order.
- A partial range (one bound missing) disables date filtering altogether.

## Model

| member | source | states |
|---|---|---|
| `RangeFilter.QueryFor` | app/controllers/transactionController.js:56-67 | the query always restricts to the caller, and carries a date range exactly when both bounds are present, with those bounds |
| `RangeFilter.Fetch` | app/controllers/transactionController.js:56-72 | a record is fetched iff it is stored, owned by the caller and, when both bounds are given, `start <= date <= end` inclusive; each qualifying record is fetched as often as it is stored |
| `RangeFilter.PartialRangeIsUnfiltered` | app/controllers/transactionController.js:60-67 | with either bound missing, the result is the same as with no bounds, and every record of the caller is returned |
| `RangeFilter.UnfilteredKeepsAll` | app/controllers/transactionController.js:56-69 | with a bound missing and only the caller's records stored, the query returns the stored sequence unchanged |
| `RangeFilter.InvertedRangeIsEmpty` | app/controllers/transactionController.js:62-66 | a range whose start is after its end matches no record |
| `RangeFilter.SplitRange` | app/controllers/transactionController.js:60-66 | the records fetched for `[a, c]` are exactly those fetched for `[a, b]` plus those for `[b + 1, c]`, with no overlap or omission |
| `Totals.Accumulate` | app/controllers/transactionController.js:75-85 | the one-pass accumulators end at their start values plus the sum of `income` amounts and the sum of `expense` amounts, the reference sums over the selected records |
| `Totals.Aggregate` | app/controllers/transactionController.js:75-88 | `totalIncome` is the sum over income records, `totalExpense` the sum over expense records, `remainingBalance` their difference |
| `Totals.OtherKindIgnored` | app/controllers/transactionController.js:80-84 | inserting a record whose type is neither income nor expense anywhere changes none of the three figures |
| `Totals.TotalsAppend` | app/controllers/transactionController.js:78-85 | the income total, the expense total and the balance of a concatenation are the sums of the parts' figures |
| `Totals.TotalsPermutation` | app/controllers/transactionController.js:78-85 | the figures do not depend on the order in which records are visited |
| `Grouping.InsertPermutes` | app/controllers/transactionController.js:99-106 | push-then-sort adds exactly the new record to the bucket |
| `Grouping.InsertSorted` | app/controllers/transactionController.js:103-106 | push-then-sort keeps a bucket ordered newest-`createdAt`-first |
| `Grouping.InsertKeepsTies` | app/controllers/transactionController.js:103-106 | among records created at the same instant, push-then-sort keeps the old order and puts the new record last |
| `Grouping.InsertExtendsStable` | app/controllers/transactionController.js:99-106 | if a bucket is the stable newest-first sort of some records, then after push-then-sort it is the stable sort of those records followed by the new one |
| `Grouping.AddItemsOf` | app/controllers/transactionController.js:95-106 | filing a record changes only the bucket of its date, by push-then-sort |
| `Grouping.AddHasKey` | app/controllers/transactionController.js:95-98 | filing a record adds its date to the bucket keys and no other key |
| `Grouping.AddFlatten` | app/controllers/transactionController.js:96-102 | filing a record adds exactly that record to the records held by all buckets |
| `Grouping.AddKeepsWellFormed` | app/controllers/transactionController.js:95-106 | filing keeps keys distinct and every bucket non-empty, sorted, and holding only records of its key |
| `Grouping.GroupByDate` | app/controllers/transactionController.js:91-107 | the buckets have distinct keys, each is non-empty, sorted and holds only its date's records, and together they hold exactly the input records |
| `Grouping.GroupKeys` | app/controllers/transactionController.js:93-98 | a bucket exists for a date iff some input record has that date |
| `Grouping.GroupContents` | app/controllers/transactionController.js:93-107 | the bucket of date `d` is the stable newest-`createdAt`-first sort of the input records dated `d` |
| `GroupOrder.InsertGroup` | app/controllers/transactionController.js:110-111 | inserting a bucket into the ordered buckets adds exactly that bucket |
| `GroupOrder.InsertGroupSorted` | app/controllers/transactionController.js:111 | insertion keeps the buckets ordered newest date first |
| `GroupOrder.InsertGroupStrict` | app/controllers/transactionController.js:111 | inserting a bucket whose date is not yet present keeps the order strictly descending |
| `GroupOrder.SortGroups` | app/controllers/transactionController.js:110-115 | the sorted buckets are a permutation of the input, newest date first, and strictly descending when the keys are distinct |
| `TransactionList.GetList` | app/controllers/transactionController.js:52-122 | the reply's totals are the income and expense sums of the fetched records, the balance is their difference, the buckets are strictly descending by date, and together hold exactly the fetched records |
| `TransactionList.ResultOwnedAndInRange` | app/controllers/transactionController.js:56-72 | every listed record is a stored record of the caller and, when both bounds are given, lies inside them inclusively |
| `TransactionList.BucketIsDateGroup` | app/controllers/transactionController.js:91-115 | every listed bucket is non-empty, holds only records of its date, and is the stable newest-created-first sort of all fetched records of that date |
| `TransactionList.BucketKeys` | app/controllers/transactionController.js:93-115 | a bucket is listed for a date iff some fetched record has that date |
| `TransactionList.TotalsMatchBuckets` | app/controllers/transactionController.js:75-115 | the reply's totals equal the totals of the records listed in the buckets |
| `TransactionList.NoRecordsEmptyReply` | app/controllers/transactionController.js:75-122 | when no stored record of the caller lies in the range (in particular, when the caller has none), the reply has no buckets and three zero figures |
| `TransactionList.SplitRangeList` | app/controllers/transactionController.js:56-88 | listing `[a, b]` and `[b + 1, c]` lists each record of `[a, c]` once, and the three figures of the parts add up to those of the whole |
| `TransactionList.TwoDaysExample` | app/controllers/transactionController.js:75-122 | income 100 on day 1 and expense 40 on day 2 give the day-2 bucket first, then day 1, with totals 100, 40 and 60 |

## Left out

- `create`, `getDetail`, `update` and `deleteTransaction` in the same file are single-record database operations with no logic of their own. They are not modelled.
- The database call (`Transaction.find(...).populate(...)`) is modelled as a filter over a given stored sequence. The result order is taken to be storage order. The category join is not modelled; `category` is an opaque field.
- `cleanAndValidateInput`, `sendResponse` and `formatDate` are not part of this model. A sanitized bound is either present (`Some`) or absent/empty (`None`).
- Malformed date strings (JavaScript `Invalid Date`) are not modelled. A present bound is always a valid timestamp.
- The `try/catch` that maps a persistence failure to a 500 reply is I/O error plumbing and is left out.
- JavaScript `Date` values become integer timestamps. The source keys buckets by `Date.prototype.toString()`, which has one-second resolution. The model keys them by exact timestamp, which matches when timestamps are at that resolution. The reply's `date` is the key string in the source and the integer in the model.
- `amount` is an unbounded integer. JavaScript floating-point addition and its rounding are not modelled.
- The order of `Object.entries` is not modelled beyond first-seen order. It does not affect the reply, because the bucket keys are distinct and the buckets are then sorted by date.
- app/routes/userRoutes.js is route wiring with no logic and is not modelled.
