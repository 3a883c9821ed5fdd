# Content platform payment and content bookkeeping, in Dafny

This project models the bookkeeping core of a creator-monetisation backend.
Creators upload audio or video items. Viewers pay a fixed KSH 5 per item
through a mobile-money provider. The provider reports the outcome to a
callback endpoint. A daily job deactivates items two weeks after upload. An
admin report groups the unpaid creator earnings of one week by creator.

The database is a class `App.Database` with one `seq` field per table
(`users`, `contents`, `payments`, `earnings`). Each request handler is a
method that changes those fields. The row types and their column defaults
are datatypes and constructor functions in `Models`. The lookups are
SQLAlchemy's `scalar_one_or_none`, modelled once in
`Queries.ScalarOneOrNone`: no matching row, the one matching row, or a
raised error (a 500) when several rows match.

The object invariant `Database.Valid()` says:
- user ids follow table order;
- usernames and emails are unique;
- content ids are unique;
- every payment refers to existing content;
- every content row's `paid_views` is at least the number of its completed
  payments (`Ledger.PaidViewsCover`).

Every handler keeps it.

What the code does, and this model follows:
- There is no terminal-state guard in the callback. A repeated `completed`
  callback adds another paid view. A later `failed` overwrites `completed`.
- There is no access-grant table. "Has paid" means "a completed payment row
  exists", and the only counter is `paid_views`. That counter tracks
  deliveries of `completed`, not buyers.
- An unknown transaction id is answered with 404. It is not acknowledged.
- Payment initiation does not check `is_active` or `expires_at`, so it
  accepts expired content. It stores status `pending`.
- Nothing in the code writes earnings rows. The report reads a table that
  the constructor takes as given.

Representation choices:
- Money (`Float` in the code) is integer cents. The price is 500, i.e. KSH 5.00.
- DateTime columns are integer seconds. Date columns are integer day numbers.
- Payment and user row ids are table positions, from 1.
- Content ids are the generated UUID, passed in as `newId`.
- SQLAlchemy turns a comparison with `None` into `IS NULL`. So a
  callback without a transaction id matches the payments stored without one.
  `Queries.WithTransaction` is therefore plain equality of optional ids.

The scenarios in `scenarios.dfy` use only the handlers' contracts to show:
double counting on repeated callbacks; `failed` after `completed`; ignored
callbacks; and the server error hit by a third initiation after two pending
payments for the same item were both completed.

## Model

| member | source | states |
|---|---|---|
| Models.NewUser | backend/models.py:9-22 | a new user row keeps the given id, username, email, password hash, creator flag, creator name and phone number, is stamped with the creation time and has no bank details |
| Models.NewContent | backend/models.py:29-44 | a new content row keeps the given id, title, description, file URL, file type, file size, creator and price; it has 0 views, 0 paid views, is active, and expires 14 days (14 * 86400 s) after its creation time, both read from one clock value |
| Models.NewPayment | backend/models.py:51-61 | a new payment row has the given user, content, amount and transaction id, status pending and no completion time |
| Errors.StatusCode | backend/main.py:87-373 | the handlers answer 404 exactly for missing content or payment, 403 exactly for a non-creator upload, 400 exactly for a repeated payment, a taken username or email and an unlisted file type, and 500 for every other error |
| Queries.ScalarOneOrNone | backend/main.py:367-373 | the lookup yields no row exactly when none matches, the index of the only matching row, or the error case exactly when two distinct rows match |
| Catalog.Classify | backend/main.py:255 | a file is audio exactly when its MIME type starts with `audio`, and video otherwise |
| Catalog.ClassifyAllowed | backend/main.py:243-255 | among the accepted MIME types, exactly audio/mpeg and audio/wav are classified audio, and the video/* ones video |
| Catalog.SweepExpired | backend/main.py:114-130 | the cleanup keeps the number of content rows |
| Catalog.SweepExpiredAt | backend/main.py:114-130 | cleanup sets is_active to false on exactly the active rows with expires_at < now and leaves every other row and column unchanged |
| Catalog.SweepExpiredLeavesNoneExpired | backend/main.py:114-130 | after cleanup no row is both active and past its expiry time |
| Catalog.SweepExpiredIdempotent | backend/main.py:110-132 | running cleanup twice at the same time equals running it once |
| Catalog.NewContentExpiresAfterRetention | backend/models.py:42-44 | a new row survives every cleanup up to 14 days after creation and is deactivated by every later one |
| Ledger.PaymentRequest | backend/main.py:89-96 | the provider is asked for the content's price, from the caller's phone number, with the callback URL on the server's base URL |
| Ledger.CompletedCountAppend | backend/main.py:348-357 | appending a payment row changes an item's count only by that row's own contribution |
| Ledger.CompletedCountUpdate | backend/main.py:375-388 | overwriting one payment row changes the count by the difference between the old and the new row |
| Ledger.CompletedCountAbsent | backend/main.py:258-268 | an item that no payment mentions has count 0, so a new upload starts covered |
| Ledger.NewPaymentNotCompleted | backend/main.py:348-354 | a freshly initiated payment is not completed and changes no item's completed count |
| Ledger.ReferencesKept | backend/main.py:375-388 | updating payment statuses and content counters, which changes neither content ids nor the payments' content ids, keeps every payment pointing at an existing content row |
| Ledger.CoverAfterCompletion | backend/main.py:375-383 | marking one payment completed while its own content row gains one paid view keeps every item's paid views at least its completed-payment count, whatever the payment's prior status |
| Ledger.CoverAfterFailure | backend/main.py:385-386 | marking one payment failed keeps every item's paid views at least its completed-payment count |
| Payouts.WeekRows | backend/main.py:475-489 | the report's rows are exactly the earnings rows with week_start given, week_end six days later, and not paid out, each kept as many times as it occurs in the table and nothing else |
| Payouts.CountForPositive | backend/main.py:492-503 | a creator owns a row of the week exactly when their row count is positive |
| Payouts.TotalZero | backend/main.py:496-501 | a creator with no rows has total 0, the initial value of an entry |
| Payouts.PrefixStep | backend/main.py:502-503 | one more row adds its amount and one to its own creator's entry and leaves every other creator's entry as it was |
| Payouts.WeekRowsOwners | backend/main.py:475-503 | the creators owning a row of the week's query are exactly the creators owning a matching row of the earnings table |
| Payouts.WeekRowsMissingCreator | backend/main.py:478-498 | a row of the week's query has no creator exactly when a matching row of the table has none |
| Payouts.GroupStep | backend/main.py:493-503 | after one loop iteration the accumulator still has exactly one entry per creator of the rows seen, each holding that creator's name, phone, sum and count |
| Payouts.GroupByCreator | backend/main.py:491-505 | the grouping fails exactly when some row's creator is not a user; otherwise its keys are exactly the row owners, and each entry holds the creator's display name and phone, the sum of their amounts and their row count |
| App.SweepKeepsInvariants | backend/main.py:114-130 | the cleanup keeps content ids unique, payments referring to existing content, and paid views covering completed payments |
| App.Database.CompletedPaymentHasPaidView | backend/main.py:375-383 | under the invariant, a content item with a completed payment has at least one paid view |
| App.Database.Register | backend/main.py:136-157 | a taken username fails with 400, then a taken email with 400; otherwise exactly one user row is appended with the next id, and uniqueness of usernames and emails is kept |
| App.Database.CreateContent | backend/main.py:232-270 | non-creators get 403, then unlisted MIME types 400, then a failed upload 500; it succeeds exactly when all checks pass and the id is new, and then appends one content row with the configured price, the audio/video classification and the new-row defaults |
| App.Database.InitiatePayment | backend/main.py:311-359 | missing content gives 404 and one existing completed payment for the pair gives 400, both without contacting the provider; several give 500; a provider failure gives 500 and adds nothing; otherwise exactly one pending payment with the content's price and the provider's transaction id is appended; pending or failed payments do not block |
| App.Database.PaymentCallback | backend/main.py:361-389 | an unknown transaction id gives 404, an ambiguous one 500, and neither changes anything; 'completed' marks only the matching payment completed and adds exactly one paid view to its content, whatever the prior status; 'failed' marks it failed; any other status changes nothing |
| App.Database.CompletePayment | backend/main.py:375-383 | the matching payment becomes completed with completion time now, and only its content row gains one paid view |
| App.Database.FailPayment | backend/main.py:385-386 | the matching payment becomes failed and nothing else changes |
| App.Database.CleanupExpiredContent | backend/main.py:110-132 | the content table becomes the cleanup of the old one: expired active rows inactive, all else unchanged, other tables untouched |
| App.Database.UserIdsArePositions | backend/main.py:497-498 | under the invariant, looking a creator up by id yields the user row carrying that id |
| App.Database.GetWeeklyEarnings | backend/main.py:467-505 | the report has one key per creator owning an unpaid row of that week, each with that creator's total and count, and fails exactly when such a row's creator is missing; every key is the id of the user whose name and phone it reports |

## Left out

- S3 upload and delete: they are external object-store calls. An upload is modelled as its outcome (URL or failure). In cleanup only the `is_active = False` effect is modelled; delete errors are only printed by the code.
- The provider HTTP request: it is a network call. It is modelled as its outcome: a raised exception, or a reply with or without a `transaction_id`. A reply that is not a JSON object also ends in a 500 after the provider was contacted; it is folded into the raised case.
- Authentication (`auth` is not part of this model): the current user, the password hash and the login flow are parameters or left out. Login and `/auth/me` are left out.
- Field validation by the request schemas (email format, missing form fields): this is framework behaviour before the handler runs.
- Column length limits (`String(80)` and similar): SQLite does not enforce them.
- Response builders (`get_content`, `get_content_by_id`, the two dashboards) and the Excel export: they are read-only listings, and the export is file I/O.
- The scheduler, lifespan, CORS middleware, session mechanics, `backend/database.py`, `backend/init_db.py` and `setup.py`: framework plumbing and scripts.
- Unused configuration: settings such as the commission and the configured MIME lists are not used by the handlers.
- Overridable settings: `BASE_URL` and `CONTENT_PRICE` can be overridden from the environment or a `.env` file. The model fixes them to their default values (`http://localhost:8000` and KSH 5.00).
- Concurrency: two racing requests may interleave. Each handler is modelled as one atomic step, as each commits once.
- Timestamps: `created_at`, `completed_at` and `expires_at` come from `now` parameters. The code reads the clock separately for `created_at` and `expires_at`; the model reads it once.
- Floating-point money: the code stores prices and adds earnings amounts as floats. The model's integer-cent sums are exact, where the code's float sums may round in the last place (the report's `total_amount`).
- App.Database.CompletePayment: the code's `if content:` guard and the case of several content rows with one id are unreachable under `Valid()`, so the model proves them impossible instead of modelling them.
