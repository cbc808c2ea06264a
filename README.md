# TaxiRental booking core, modelled in Dafny

TaxiRental is a car-rental backend. Its core keeps a ledger of bookings and a
collection of cars, and each car holds a mirror of its reservations. This
project models the four parts of that core that carry the reservation rules.

- **Booking coordinator** (`BookingController.dfy`, properties in
  `BookingProperties.dfy`):
  - validating a reservation request;
  - resolving the car it names, either an ObjectId looked up in the store or
    a car object or JSON text summarised with defaults;
  - the closed-interval overlap rule over the blocking statuses `pending`,
    `active` and `upcoming`;
  - the all-or-nothing create, which writes the booking and the car's mirror
    entry or nothing at all;
  - the field-by-field update, the status update and the delete.
- **Listing arithmetic** (`Listing.dfy`, module `BookingListing`): the page
  number, page size, skip and page count of the booking listing.
- **Payment gateway** (`PaymentController.dfy`, properties in
  `PaymentProperties.dfy`):
  - checkout: validate the request, create a pending booking, roll it back
    when the payment provider is not configured or refuses the session, and
    otherwise attach the session;
  - confirmation: find the booking by the session's metadata booking id, or
    else by the recorded session id, and mark it paid and active.
- **Upload policy** (`Upload.dfy`):
  - the stored file name `<base>-<millis><ext>`, with every run of whitespace
    in the base replaced by one dash;
  - the image-only filter;
  - the 5 MiB size limit.

Shared data lives in three places. `JsValues.dfy` holds the JavaScript values
the controllers see: truthiness, `Number(..)` with NaN, JSON payloads and
dates that may not parse. `Documents.dfy` holds cars, car summaries and
bookings. `Ledger.dfy` holds the persisted state as a class `Store`, with the
two collections as `map` fields, and the single writes the controllers issue.
Each controller operation that changes the store is a `method` on a `Store`.
Its contract states the whole new store in terms of a decision function:
`Plan` for create, `Revised` for update, `CheckoutPlan` for checkout and
`ConfirmPlan`/`Confirmed` for confirmation. The properties are proved as
lemmas about those functions.

The main results:

- **Create keeps the ledger free of double bookings.** A create that is placed
  keeps every pair of bookings free of clashes. A clash means the same car,
  both statuses blocking, and closed date ranges that overlap.
  - A create is refused with 409 exactly when a blocking booking of the same
    car overlaps the request.
  - Touching endpoints count as an overlap.
- **Two other paths can break that invariant**, and both are exhibited on
  concrete bookings:
  - the update moves dates without any overlap check;
  - checkout creates a pending booking without the overlap check that create
    runs.
- **Update** equals an independent field-wise reference. It changes only the
  fields the body gives, keeps the car id when the new car payload has none,
  and applying it twice gives the same booking as applying it once.
- **Confirmation** is idempotent, and a metadata booking id that is in the
  ledger takes precedence over the session lookup. A checkout followed by
  confirming its session activates exactly the booking that checkout created.
- **Pagination**: with a whole page size, the page count is the least number
  of pages that holds every document. Every document lies on exactly one
  page.
- **Stored file names**: the dashed base of a name whose stem has no
  whitespace is that stem unchanged, and dashing the runs a second time
  changes nothing. Every stored name starts with the dashed stem and a dash,
  and ends with the original extension. Two uploads of one file at different times get
  different names.

## Model

| member | source | states |
|---|---|---|
| BookingController.IsObjectIdHex | backend/controllers/bookingController.js:59 | definition of the ObjectId test: exactly 24 characters, each a digit or a letter `a`–`f` in either case. |
| BookingController.BuildCarSummary | backend/controllers/bookingController.js:15-29 | the id is the document's `_id`, else its `id`, else null. Year, rate, seats and mileage default to null, 0, 4 and 0 when falsy. The image is `image`, else `carImage`, else empty. The other attributes are copied. |
| BookingController.PayloadOf | backend/controllers/bookingController.js:64 | a car object is used as is, and JSON text for an object gives that object. Missing, unparsable or non-object car text reads as an empty object. |
| BookingController.TryParseExtra | backend/controllers/bookingController.js:10-13 | an absent payload stays undefined. A non-string is kept. Text becomes its JSON value when it parses, else stays as text. |
| BookingController.CarGiven | backend/controllers/bookingController.js:45 | definition of `!car` being false: a car object, or car text that is not empty. |
| BookingController.MissingRequired | backend/controllers/bookingController.js:45 | definition of the first guard: customer, email or car is falsy, or either date is absent. |
| BookingController.DatesAccepted | backend/controllers/bookingController.js:50-52 | definition of the second guard passing: both dates parse and the pickup is not after the return. |
| BookingController.ValidateBooking | backend/controllers/bookingController.js:45-55 | 400 with the missing-fields message when customer, email, car or either date is falsy. 400 with the invalid-dates message when a date does not parse or pickup is after return. Otherwise it accepts, exactly, with the parsed range. |
| BookingController.ResolveCar | backend/controllers/bookingController.js:57-69 | a 24-hex-digit text resolves exactly when that id is stored, to the summary of the stored car; otherwise 404. Any other reference is summarised: no id gives 400, an unknown id gives 404, a known id gives that summary. A resolved summary's id is always a stored car. |
| BookingController.Overlaps | backend/controllers/bookingController.js:75-76 | definition of the date filter: the stored pickup is at or before the requested return, and the stored return is at or after the requested pickup. `OverlapsIffCommonInstant` states what it means. |
| BookingController.Conflicts | backend/controllers/bookingController.js:73-76 | definition of the whole query for one stored booking: the same `car.id`, a blocking status, and overlapping dates. |
| BookingController.OverlappingCount | backend/controllers/bookingController.js:72-77 | definition of `countDocuments`: the number of bookings `Conflicting` matches. `CountPositiveIffConflict` states what a positive count means. |
| BookingController.Conflicting | backend/controllers/bookingController.js:72-77 | the bookings the overlap query matches: same car id, a blocking status, and `pickupDate <= ret` with `returnDate >= pickup`. |
| BookingController.AmountOf | backend/controllers/bookingController.js:91 | a falsy amount becomes 0; otherwise `Number(amount)`. |
| BookingController.NewBooking | backend/controllers/bookingController.js:84-96 | the inserted booking is pending in both status and payment status. It holds the resolved summary, the validated dates and the amount. It has no session or payment fields yet. |
| BookingController.Plan | backend/controllers/bookingController.js:43-96 | validation errors pass through unchanged, and so does a car resolution failure on a valid request. Every failure is 400, 404 or 409. A placement has valid fields and a resolved, stored car whose id the new booking carries, and no booking conflicts with it. |
| BookingController.CreateBooking | backend/controllers/bookingController.js:39-114 | on any refusal, neither the ledger nor the cars change. On success, the ledger gains exactly the planned booking under the fresh id, and exactly that car's mirror gains its entry. The reply is the stored booking together with its id. |
| BookingController.UpdateCarSource | backend/controllers/bookingController.js:194-196 | an undefined car update is skipped. An object, or JSON text for an object, is summarised as given. Car text that is not JSON is used exactly when it is not empty. JSON `null` is skipped, and another JSON scalar is used exactly when it is truthy. Every other value used summarises as an empty object. |
| BookingController.KeepCarId | backend/controllers/bookingController.js:197-199 | a new summary without an id takes the booking's current car id; nothing else changes. |
| BookingController.IsLocalImage | backend/controllers/bookingController.js:181 | definition of the `/uploads/` test on an image path, used by update and delete (:227). |
| BookingController.ApplyImage | backend/controllers/bookingController.js:178-186 | an uploaded file sets `/uploads/<filename>`. Otherwise a truthy `carImage` replaces the image. Otherwise the booking is unchanged. No other field changes. |
| BookingController.ReleasedImage | backend/controllers/bookingController.js:178-184 | the only file ever released is the booking's current `/uploads/` image. It is released exactly when that image is local and either a file was uploaded or the body gives a truthy `carImage` outside `/uploads/`. |
| BookingController.RevisedCar | backend/controllers/bookingController.js:194-199 | definition of the car branch: when `UpdateCarSource` gives a document, its summary replaces the car, keeping the current id when the summary has none; otherwise the car is unchanged. |
| BookingController.ApplyField | backend/controllers/bookingController.js:189-201 | definition of one step of the loop: a field the body leaves undefined is skipped, and a given one is written, the car through `RevisedCar`'s rule. |
| BookingController.ApplyFields | backend/controllers/bookingController.js:188-202 | definition of the loop as written: `ApplyField` for each field of the list, in order. `FieldByFieldIsRevised` proves it equals `Revised`. |
| BookingController.Revised | backend/controllers/bookingController.js:188-202 | definition of the update as a field-independent record: each updatable field is the body's value when given, else the old one. Its properties are the lemmas `FieldByFieldIsRevised`, `UpdateTouchesOnlyGivenFields` and `UpdateIdempotent`. |
| BookingController.FieldByFieldIsRevised | backend/controllers/bookingController.js:188-202 | the in-order loop over the eleven updatable fields computes the field-independent update `Revised`. |
| BookingController.UpdateBooking | backend/controllers/bookingController.js:172-207 | 404 for an unknown id, with nothing written. Otherwise the stored and returned booking is `Revised` of the old one, the released file is the one `ReleasedImage` names, and cars are untouched. |
| BookingController.UpdateBookingStatus | backend/controllers/bookingController.js:210-220 | a falsy status is rejected with 400 before the lookup, and an unknown id gets 404; neither writes. Otherwise only the status changes. |
| BookingController.DeleteBooking | backend/controllers/bookingController.js:223-231 | 404 for an unknown id. Otherwise the booking is removed, and its image is released exactly when it lies under `/uploads/`. |
| Documents.CarIdOf | backend/controllers/bookingController.js:73 | the `car.id` the overlap query reads is never the empty string. |
| Documents.EntryFor | backend/controllers/bookingController.js:101-106 | the mirror entry carries the booking's id, dates and status. |
| Ledger.WithMirrorEntry | backend/controllers/bookingController.js:108 | the push appends the entry to exactly that car's mirror. Every other car is unchanged. |
| Ledger.Store.Insert | backend/controllers/bookingController.js:98 | inserts one booking under a fresh id and keeps the store invariant. |
| Ledger.Store.Remove | backend/controllers/bookingController.js:228 | removes exactly that id. |
| Ledger.Store.Save | backend/controllers/bookingController.js:204 | overwrites one stored booking whose session id is unchanged. |
| Ledger.Store.SaveWithSession | backend/controllers/paymentController.js:114-116 | records a provider session id that no booking holds, keeping session ids unique. |
| Ledger.Store.PushMirror | backend/controllers/bookingController.js:108 | appends to the mirror of a stored car, and does nothing for an unknown car. |
| BookingProperties.OverlapsIffCommonInstant | backend/controllers/bookingController.js:75-76 | for well-formed ranges, the overlap filter holds exactly when the two closed ranges share an instant. |
| BookingProperties.OverlapsSymmetric | backend/controllers/bookingController.js:75-76 | the overlap filter is symmetric in the two ranges. |
| BookingProperties.CountPositiveIffConflict | backend/controllers/bookingController.js:72-79 | the overlapping count is positive exactly when some stored booking conflicts. |
| BookingProperties.PlanOutcome | backend/controllers/bookingController.js:72-82 | the reply is 409 exactly when the request is valid, its car resolves, and some booking conflicts. It is placed exactly when the request is valid, the car resolves and nothing conflicts. |
| BookingProperties.NonBlockingBookingIgnored | backend/controllers/bookingController.js:8 | adding a booking whose status is not blocking never changes a create decision. |
| BookingProperties.ResolveByIdOrDocumentAgree | backend/controllers/bookingController.js:59-69 | naming a stored car by its ObjectId or by its own document resolves to the same summary. |
| BookingProperties.PlacedClashIsConflict | backend/controllers/bookingController.js:72-77 | any booking that clashes with a placed booking is matched by the overlap query. |
| BookingProperties.CreatePreservesNoDoubleBooking | backend/controllers/bookingController.js:72-98 | a placed create keeps every pair of bookings free of clashes. |
| BookingProperties.ReleasingStatusPreservesNoDoubleBooking | backend/controllers/bookingController.js:210-217 | setting a non-blocking status keeps the ledger free of clashes. |
| BookingProperties.DeletePreservesNoDoubleBooking | backend/controllers/bookingController.js:223-228 | a delete keeps the ledger free of clashes. |
| BookingProperties.EmptyUpdateIsIdentity | backend/controllers/bookingController.js:188-202 | an update body with no fields and no file leaves the booking unchanged. |
| BookingProperties.UpdateTouchesOnlyGivenFields | backend/controllers/bookingController.js:188-202 | the owner, payment and session fields are never changed by an update. Every updatable field the body leaves undefined keeps its value. |
| BookingProperties.LocalReplacementReleasesNothing | backend/controllers/bookingController.js:181-184 | a stored `/uploads/` image replaced by another `/uploads/` path from the body, with no file, takes the new path and releases nothing: the old file stays on disk. |
| BookingProperties.UpdateKeepsCarId | backend/controllers/bookingController.js:198 | a car update whose payload has no id keeps the booking's car id. |
| BookingProperties.UpdateIdempotent | backend/controllers/bookingController.js:188-202 | applying the same update twice gives the same booking as applying it once. |
| BookingProperties.UpdateMayBreakNoDoubleBooking | backend/controllers/bookingController.js:188-204 | concretely, moving a stored booking's dates onto another pending booking of the same car is accepted, and the ledger then holds a clash. |
| BookingProperties.SampleCarIdIsHex | backend/controllers/bookingController.js:59 | the sample ObjectId matches the 24-hex-digit test. |
| BookingProperties.TouchingStayRefused | backend/controllers/bookingController.js:72-82 | concretely, a 5–8 June request against a 1–5 June stay of the same car gets 409, because the ranges touch. |
| BookingProperties.FollowingStayPlaced | backend/controllers/bookingController.js:98-108 | concretely, a 6–8 June request is placed, and the car's mirror then holds both stays. |
| BookingProperties.CancelledStayDoesNotBlock | backend/controllers/bookingController.js:74 | concretely, a cancelled stay does not block the same dates. |
| BookingListing.Ceil | backend/controllers/bookingController.js:157 | `Math.ceil`: the least whole number at or above its argument. |
| BookingListing.PageNumber | backend/controllers/bookingController.js:126 | a truthy `Number(page)` is used, else 1. The result is never 0. |
| BookingListing.PageLimit | backend/controllers/bookingController.js:127 | a truthy `Number(limit)` is used, else 12, capped at 100. The result is never 0. |
| BookingListing.Paginate | backend/controllers/bookingController.js:150-157 | skip is `(page - 1) * limit`. The page count is the least whole number at or above `total / limit`. |
| BookingListing.PagesCoverTotal | backend/controllers/bookingController.js:157 | with a whole page size, `pages` pages hold every document and `pages - 1` pages do not. |
| BookingListing.WindowOfPage | backend/controllers/bookingController.js:153-154 | whole page `n` shows exactly the documents `(n-1)*size` to `n*size - 1` that exist. |
| BookingListing.EachDocumentOnOnePage | backend/controllers/bookingController.js:150-157 | every document appears on page `i / size + 1`, which is within the reported page count. |
| BookingListing.PagesAreDisjoint | backend/controllers/bookingController.js:153-154 | no document appears on two different pages. |
| BookingListing.DefaultWindow | backend/controllers/bookingController.js:126-127 | missing page and limit give page 1 of 12 documents. A zero page is page 1, and a limit of 500 is capped to 100. |
| PaymentController.AmountAccepted | backend/controllers/paymentController.js:36 | definition of the amount guard: `Number(amount)` is a number, not NaN, and positive. |
| PaymentController.ValidateCheckout | backend/controllers/paymentController.js:17-43 | checks in order: a missing body; an amount that is not positive; no email; a missing date; an unparsable date; a return before the pickup. Each fails with 400 and its own message. It accepts exactly when none of these apply, with the parsed range. |
| PaymentController.CheckoutCar | backend/controllers/paymentController.js:46-49 | a car object is kept. Unparsable car text becomes `{ name: text }`. JSON text for an object gives that object. An absent car and JSON `null` become `{}`. Any other JSON value is kept as a non-object. |
| PaymentController.CheckoutExtra | backend/controllers/paymentController.js:63-64 | text details that fail to parse abort the checkout. Parsed text is used. A falsy value becomes `{}`. |
| PaymentController.CheckoutBooking | backend/controllers/paymentController.js:52-67 | the pending booking has currency INR, the request's amount, email, owner and dates, and no session yet. |
| PaymentController.CheckoutPlan | backend/controllers/paymentController.js:17-67 | validation failures are 400 with their message, and a payload that fails to parse is 500. A booking is created exactly when validation passes and both payloads parse. |
| PaymentController.ProductName | backend/controllers/paymentController.js:89 | the line-item name is the car's non-empty name, else its non-empty title, else `Car Rental`; a car that is not an object gives `Car Rental`. It is never empty. |
| PaymentController.CarTag | backend/controllers/paymentController.js:103 | the metadata car id is the car's `id`, else `_id`, else empty. |
| PaymentController.SessionRequestFor | backend/controllers/paymentController.js:80-106 | the session is opened for the booking's email, and its metadata names the new booking and its owner. |
| PaymentController.Attached | backend/controllers/paymentController.js:114-115 | only the session id and the session reference change. A missing url is null. |
| PaymentController.CreateCheckoutSession | backend/controllers/paymentController.js:15-123 | a refused plan, an unconfigured provider or a failed session leaves the ledger exactly as it was; the last two roll back the insert. An opened session leaves exactly one new booking, with that session attached. |
| PaymentController.NonZeroOrNull | backend/controllers/paymentController.js:146 | `amount_total \|\| null`: 0 and absent both give null. |
| PaymentController.PaidUpdate | backend/controllers/paymentController.js:142-147 | the booking becomes paid and active with the payment intent and details. No other field changes. |
| PaymentController.SessionOwner | backend/controllers/paymentController.js:151 | the booking recording the session id, found exactly when one exists. It is unique. |
| PaymentController.ConfirmTarget | backend/controllers/paymentController.js:139-157 | a metadata booking id that is stored wins; otherwise the owner of the session id is used. |
| PaymentController.ConfirmPlan | backend/controllers/paymentController.js:125-161 | 400 without a session id. 500 when the provider is not configured or retrieval throws. 404 without a session. 400 with the status unless the session is paid. 404 without a target. Otherwise the paid update of the target. |
| PaymentController.Confirmed | backend/controllers/paymentController.js:139-157 | the ledger keeps its keys. A failed confirmation writes nothing; a successful one rewrites exactly the target. |
| PaymentController.ConfirmPayment | backend/controllers/paymentController.js:125-166 | the store becomes `Confirmed` of the old ledger, and the reply is the plan's booking or error. |
| PaymentProperties.PaidUpdateIdempotent | backend/controllers/paymentController.js:142-147 | applying the paid update twice gives the same booking as applying it once, and the update keeps the session id. |
| PaymentProperties.ConfirmIdempotent | backend/controllers/paymentController.js:139-161 | confirming the same session again gives the same reply and leaves the ledger as the first confirmation left it. |
| PaymentProperties.MetadataWins | backend/controllers/paymentController.js:139-148 | a paid session whose metadata names a stored booking updates that booking, even if another booking records the session. |
| PaymentProperties.FallbackToSessionId | backend/controllers/paymentController.js:150-157 | without a usable metadata id, the booking that records the session is updated. |
| PaymentProperties.UnresolvedConfirmWritesNothing | backend/controllers/paymentController.js:137-159 | an unpaid session, or a session with no target, fails and writes nothing. |
| PaymentProperties.AfterCheckout | backend/controllers/paymentController.js:114-116 | after a checkout, the ledger has the new id, and that booking records the session. |
| PaymentProperties.CheckoutThenConfirm | backend/controllers/paymentController.js:100-157 | once a checkout has opened a session, confirming that paid session activates exactly the booking the checkout created, whether or not the metadata came back. |
| PaymentProperties.CheckoutMayDoubleBook | backend/controllers/paymentController.js:52-67 | concretely, create refuses a stay that overlaps a pending one, but checkout of the same car and dates proceeds, and the ledger then holds a clash. |
| Upload.AcceptsSize | backend/middlewares/upload.js:27 | definition of multer's limit: a file is accepted when it has at most `5 * 1024 * 1024` bytes. |
| Upload.FileFilter | backend/middlewares/upload.js:20-23 | accepts exactly the mimetypes that start with `image/`, and otherwise rejects with `Only image files are allowed`. |
| Upload.FilterExamples | backend/middlewares/upload.js:20-27 | `image/png` is accepted and `text/plain` is rejected. 5 242 880 bytes is within the limit, one byte more is not. |
| Upload.IsSpace | backend/middlewares/upload.js:15 | definition of the characters `\s` matches: tab to carriage return, space, no-break space, the Unicode space separators, the line and paragraph separators and the byte-order mark. |
| Upload.DashRuns | backend/middlewares/upload.js:15 | the result contains no whitespace and is no longer than the input. |
| Upload.DashRunsKeepsPlainText | backend/middlewares/upload.js:15 | a text without whitespace is unchanged. |
| Upload.DashRunsIdempotent | backend/middlewares/upload.js:15 | replacing the runs a second time changes nothing. |
| Upload.DashRunsOfRun | backend/middlewares/upload.js:15 | a run of whitespace becomes exactly one dash. |
| Upload.DashRunsOfLeadingRun | backend/middlewares/upload.js:15 | a non-empty run of whitespace before text that does not start with whitespace becomes one dash, and the rest is dashed on its own. |
| Upload.DropSpacesOfRun | backend/middlewares/upload.js:15 | a match of `\s+` consumes the whole leading run and stops at the first non-space. |
| Upload.DashRunsConcat | backend/middlewares/upload.js:15 | when no run straddles a join, replacing the runs distributes over concatenation. |
| Upload.TrimSlashes | backend/middlewares/upload.js:14-15 | a prefix of the path that does not end with a slash; everything it drops is a slash. |
| Upload.AfterLastSlash | backend/middlewares/upload.js:14-15 | a slash-free suffix, preceded by a slash unless it is the whole text. |
| Upload.Component | backend/middlewares/upload.js:14-15 | the last path component, trailing slashes ignored, contains no slash. |
| Upload.ComponentIsLastSegment | backend/middlewares/upload.js:14-15 | the component is a suffix of the path without its trailing slashes, with a slash just before it unless it is the whole of it. |
| Upload.Extension | backend/middlewares/upload.js:14 | the extension is a suffix starting at the last dot. It is empty exactly when there is no dot, the dot comes first, or the component is `..`. |
| Upload.ExtName | backend/middlewares/upload.js:14 | `path.extname` is a suffix of the last component, shorter than it, starting with a dot when not empty. |
| Upload.Stem | backend/middlewares/upload.js:15 | the stem followed by the extension is the last component. |
| Upload.Decimal | backend/middlewares/upload.js:16 | the decimal text is non-empty digits with no leading zero. |
| Upload.DecimalRoundTrip | backend/middlewares/upload.js:16 | reading the decimal text back gives the number. |
| Upload.DecimalInjective | backend/middlewares/upload.js:16 | different numbers give different texts. |
| Upload.StoredName | backend/middlewares/upload.js:13-17 | the stored name starts with the dashed stem and a dash, that prefix contains no whitespace, and the name ends with the original extension. |
| Upload.StoredNameInjectiveInTime | backend/middlewares/upload.js:16 | the same file uploaded at different times gets different names. |
| Upload.ExtNameExample | backend/middlewares/upload.js:14-15 | for `a b.jpg`, the extension is `.jpg` and the stem is `a b`. |
| Upload.ExtensionExample | backend/middlewares/upload.js:14 | the extension of the component `a b.jpg` is `.jpg`. |
| Upload.StoredNameExample | backend/middlewares/upload.js:13-17 | `a b.jpg` uploaded at time 42 is stored as `a-b-42.jpg`. |

## Left out

- Transactions and concurrency: each controller call is one atomic step on
  the store. The session and transaction of `createBooking` are therefore
  not modelled separately, and neither are two concurrent creates racing
  each other.
- Database and provider calls become inputs:
  - the fresh booking id;
  - whether the payment provider is configured and what session it opens;
  - what session retrieval returns;
  - the message of a runtime error.
- The provider's session ids are assumed fresh. A checkout requires that no
  booking already records the new session id.
- Stripe request details other than email, product name and the metadata ids
  are left out: `unit_amount` as `Math.round(total * 100)`, the line-item
  description, the success and cancel URLs, and the pickup and return
  metadata texts.
- File deletion (`fs.unlink`) is not performed. The update and the delete
  return the image path they would delete.
- The post-save and post-remove hooks of the booking schema, which keep the
  car mirror in sync, belong to `bookingModel.js`, which is not part of this
  model. Update, status update and delete therefore leave the cars
  unchanged.
- Schema casting and validation (`bookingModel.js`) are not modelled: a
  NaN amount is stored as given.
- No database operation fails. The model has no failure outcome for any of
  these calls, so the 500 replies of their catch blocks are not modelled:
  - in `createBooking`: `Car.findById`, `Car.exists`, `countDocuments`,
    `Booking.create`, the mirror push of `Car.findByIdAndUpdate` and the
    re-read of the booking after the commit (bookingController.js:59-112). After a failed mirror push the transaction
    is aborted (bookingController.js:115-120), and the model does not capture
    that path either;
  - in update, status update and delete: `findById`, `save` and
    `booking.remove()`;
  - in `createCheckoutSession`: `Booking.create` and the session-id update;
  - in `confirmPayment`: `findByIdAndUpdate` and `findOneAndUpdate`
    (paymentController.js:142-165).
- Request shapes the source can receive but the model cannot write:
  - a `car` that is a number or a boolean. The source summarises it as an
    empty document, which the model's empty car object gives too;
  - an `ExtraValue` holding a JSON string is writable but cannot arise,
    since `tryParseJSON` parses every string it is given (ExtraText covers
    that case).
- ObjectId casting is not modelled: ids are compared as exact strings, and
  a malformed id does not raise a cast error. Hex letters are not case-folded
  in the `car.id` comparison.
- JSON parsing is given as the result it would produce (a sum type) rather
  than computed from text.
- Dates are whole milliseconds or "does not parse". In an update, a date
  that does not parse is not modelled.
- The listing's search, status, car and date filters and the
  `$regex` queries are not modelled; only the pagination arithmetic is. The
  database's `skip`/`limit` of non-whole or negative values is not modelled.
- BookingListing.PagesCoverTotal: stated for a whole, positive page size
  only. A fractional page from the query is covered by `Paginate` but not by
  the window lemmas.
- `getMyBookings`, authentication, routes, the server and the admin UI are out
  of scope.
- The `error` fields of the JSON replies and the HTTP 201 and 200 codes of
  success replies are not modelled. A success reply carries what the handler
  sends as `data`; for `createBooking` it is the stored booking with its id.
- JavaScript numbers are exact reals or NaN. There is no `Infinity` and no
  double rounding: an amount of `"Infinity"` passes the amount guard of
  `createCheckoutSession` (paymentController.js:36) but cannot be written in
  the model, and `Math.ceil` in the page count acts on an exact quotient.
- The rollback deletes of `createCheckoutSession` (paymentController.js:73
  and :109) swallow their own failure with `.catch`. Had the delete failed,
  the pending booking would stay in the ledger. The model treats each
  rollback as succeeding.
- `String(..)` of non-string `userId`, `customer` or `phone` values is not
  modelled: these are strings in the model.
- Upload.Stem: `path.basename(p, ext)` is modelled only with `ext` being
  `path.extname(p)`, which is always shorter than the last component. Other
  suffixes are not modelled.
- multer's rejection of an oversized file is the predicate `AcceptsSize`; the
  resulting error response and the upload directory creation are not
  modelled.
