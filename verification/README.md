# Car rental: bookings, catalogue, accounts and the two client pages

This project is a Dafny model of a car rental web application. The model covers:

- **Server.** An Express/Mongoose server with four document collections (users, cars, bookings, notifications) and the route handlers that read and write them.
- **Client.** Two React pages of the client: the booking form and the car list.

The backend model covers:

- **Bookings.** Creation is guarded by three checks: the car exists, the car is available, and no active booking overlaps the dates. A booking can be viewed by its owner or an admin. An admin status update also sets the car's `available` flag. Cancellation is allowed for the owner or an admin, and only on an active booking. There is an admin-only listing.
- **Booking price.** The server prices a booking in a pre-save hook, as ceil(days) times the daily price.
- **Car catalogue.** The list filter is built from the query string. Create, update and delete are admin-only. Submitting a review recomputes the rating as the mean of all review ratings.
- **Schemas.** The schema enumerations, defaults and bounds of every document.
- **Accounts.** The `auth` guard, registration, and login. The profile update is limited to a whitelist of fields. The user schema normalises name and email and hashes the password only when it changed.
- **Wishlist.** The wishlist toggle, and the listing that replaces stored ids by their cars.
- **Notifications.** The per-user notification listing, and marking a notification read.

The client model covers:

- **Booking form.** The form state, its change handlers, the effect that shows a client-side total, the submit-enabled condition and the posted body.
- **Car list.** The filter and sort state and the query string built from them. Also the local wishlist update, and the handlers that change filters, clear them or delete one filter chip.

How the source is represented:

- **Store.** It is `Database.Store`, a class with one map per collection and the notifications as a sequence in insertion order. Each handler is a method that takes the store and runs as one atomic step. Its answer is a `Result`, either a value or one of the error responses in `Common.Error`, each with its HTTP status.
- **Decision rules.** The rules the handlers apply are pure functions, and lemmas relate them:
  - the conflict query and the cancel rule;
  - the filter and the mean rating;
  - the wishlist toggle and the profile assignment;
  - the mark-read rule.
- **Client pages.** They are classes whose fields are the component state. Each handler is a method that replaces that state.
- **Dates.** They are integer milliseconds.
- **Review ratings.** They are `real`s, so the mean is exact.
- **JavaScript's text and number conversions.** They are written out in module `JsText`: `trim`, ASCII lower-casing, `parseInt`, `Number`, `String(n)` and the first-occurrence `String.replace`.

Where the code and the written description of the application differ, the model follows the code:

- **Price extras.** The server's price ignores additional drivers and insurance. Only the client page adds them.
- **Date range.** Nothing checks that the end date comes after the start date. Equal dates give a price of 0.
- **Status update order.** The status update answers 404 for a missing booking before it checks the caller's role.
- **Cancel order.** Cancellation saves the booking before it reads the car. A booking whose car was deleted ends up cancelled even though the request fails.
- **No transition rule.** The status update accepts any status, and it does not re-check dates. Re-activating a cancelled booking can therefore leave two active bookings of one car overlapping. `BookingRoutes.ReactivationCanBreakDisjoint` exhibits this.
- **Availability is per booking.** A car's `available` flag follows the last status update or cancellation of any one of its bookings. It does not reflect whether other bookings of the car are still active.
- **Review ratings are unbounded.** A review's own rating has no bound, so a rating of 6 can be stored when the mean stays within [0, 5].
- **The car list sends more than the server reads.** The page sends `sortBy` and `order`, which the server ignores. It never sends `available`, so unavailable cars are listed too.

## Model

| member | source | states |
|---|---|---|
| JsText.TrimStart | models/User.js:8 | the result is a suffix of the input; every dropped character is white space and the first kept one is not |
| JsText.TrimEnd | models/User.js:8 | the result is a prefix of the input; every dropped character is white space and the last kept one is not |
| JsText.Trim | models/User.js:5-9 | the trimmed string neither starts nor ends with white space |
| JsText.TrimOfTrimmed | models/User.js:5-9 | a string with no white space at either end is its own trim |
| JsText.TrimIdempotent | models/User.js:5-9 | trimming twice is trimming once |
| JsText.LowerChar | models/User.js:15 | lower-casing keeps white space as white space and leaves no upper-case ASCII letter |
| JsText.Lower | models/User.js:15 | lower-casing keeps the length and maps every character on its own |
| JsText.LowerTrimStart | models/User.js:14-15 | lower-casing commutes with trimming the start |
| JsText.LowerTrimEnd | models/User.js:14-15 | lower-casing commutes with trimming the end |
| JsText.LowerTrimCommute | models/User.js:14-15 | the order of the `trim` and `lowercase` setters does not matter |
| JsText.LowerIdempotent | models/User.js:15 | lower-casing twice is lower-casing once |
| JsText.DigitChar | client/src/pages/CarList.js:67 | each digit value has a digit character that reads back as that value |
| JsText.DigitRun | routes/cars.js:25 | the length of the leading run of digits: all digits, followed by a non-digit or the end |
| JsText.ParseInt | routes/cars.js:25 | `parseInt` is NaN exactly when no digit follows the leading white space and optional sign |
| JsText.NumberOf | client/src/pages/BookingForm.js:60 | `Number` of a blank string is 0; any other text is a number exactly when, trimmed and without one leading sign, it is a non-empty run of digits |
| JsText.NumberOfDigits | client/src/pages/BookingForm.js:60 | a run of digits is read as its decimal value |
| JsText.NumberOfNegatedDigits | client/src/pages/BookingForm.js:60 | a minus sign and a run of digits is read as the negated decimal value |
| JsText.NumberOfIntToString | client/src/pages/BookingForm.js:60 | `Number(String(n))` is `n` for every integer |
| JsText.NatToString | client/src/pages/CarList.js:67 | a decimal rendering is a non-empty run of digits |
| JsText.NatToStringValue | client/src/pages/CarList.js:67 | a decimal rendering reads back as the number it renders |
| JsText.DigitRunAll | routes/cars.js:25 | a string of digits is one run of digits |
| JsText.ParseIntOfIntToString | routes/cars.js:31-32 | `parseInt(String(n))` is `n` for every integer: a number the page sends reaches the server unchanged |
| JsText.IndexOfFrom | routes/auth.js:9 | the first position at or after `from` where the pattern occurs, or none |
| JsText.ReplaceFirstPrefix | routes/auth.js:9 | removing the first occurrence of a pattern the string starts with drops that prefix |
| JsText.ReplaceFirstAbsent | routes/auth.js:9 | replacing a pattern that does not occur leaves the string as it is |
| CarModel.CarTypeName | models/Car.js:18-22 | every car type's stored name is accepted back as that type |
| CarModel.TransmissionName | models/Car.js:23-27 | every transmission's stored name is accepted back as that transmission |
| CarModel.FuelTypeName | models/Car.js:28-32 | every fuel type's stored name is accepted back as that fuel type |
| CarModel.ParseCarType | models/Car.js:18-22 | `type` accepts exactly the six names |
| CarModel.ParseTransmission | models/Car.js:23-27 | `transmission` accepts exactly "Automatic" and "Manual" |
| CarModel.ParseFuelType | models/Car.js:28-32 | `fuelType` accepts exactly the four names |
| CarModel.NewCar | models/Car.js:3-80 | a new car is stored exactly when its input passes the schema, and then it passes the stored schema. Its make and model are trimmed and its enumerations parsed. Year, seats, price, images, features, location and mileage are the input's. `available` defaults to true and `rating` to 0, and it has no reviews |
| CarModel.ApplyPatch | routes/cars.js:77-81 | each field the update gives takes its value (make and model trimmed, the enumerations parsed from their names), a given `reviews` array replaces the stored reviews without recomputing the rating, and every field it leaves out keeps the stored value |
| CarModel.ApplyPatchSchemaValid | routes/cars.js:77-81 | a valid update keeps a schema-valid car schema-valid |
| CarModel.EmptyPatchIsNoOp | routes/cars.js:77-81 | an empty update changes nothing |
| BookingModel.StatusName | models/Booking.js:26-30 | every status's stored name is accepted back as that status |
| BookingModel.ParseStatus | models/Booking.js:26-30 | `status` accepts exactly pending, confirmed, cancelled and completed |
| BookingModel.ParsePaymentStatus | models/Booking.js:31-35 | `paymentStatus` accepts exactly pending, paid and refunded |
| BookingModel.ParsePaymentMethod | models/Booking.js:36-40 | `paymentMethod` accepts exactly credit_card, debit_card and paypal |
| BookingModel.ChargedDays | models/Booking.js:65 | `Math.ceil(ms / 86400000)`: the least number of days whose length reaches `ms` |
| BookingModel.SameDayIsFree | models/Booking.js:65-67 | equal start and end dates are priced 0 |
| BookingModel.PartialDayChargedInFull | models/Booking.js:65-67 | any span of at most one day is charged one full day |
| BookingModel.WholeDaysChargedExactly | models/Booking.js:65-67 | a span of exactly `n` days is charged `n` times the daily price |
| BookingModel.PreSave | models/Booking.js:63-70 | the hook changes only the total, leaves it alone unless a date changed, and otherwise sets it to charged days times the daily price |
| BookingModel.NewBooking | routes/bookings.js:35-40 | a new booking is stored exactly when its body passes the schema. Its user is the caller, whatever the body says, and its total is the server price, whatever the body says. Status defaults to pending and payment status to pending. A given status or payment status is the stored one. The payment method is parsed from the body. Dates, locations and notes are copied. Additional drivers default to 0 and insurance to false |
| UserModel.ParseRole | models/User.js:33-37 | `role` accepts exactly "user" and "admin" |
| UserModel.NormalName | models/User.js:5-9 | a stored name is its own trim |
| UserModel.NormalEmail | models/User.js:10-16 | a stored email is trimmed and has no upper-case letter, with the length of the trimmed input |
| UserModel.NormalEmailIdempotent | models/User.js:10-16 | normalising a stored email changes nothing, and normalising is lower-casing then trimming |
| UserModel.HashOnSave | models/User.js:63-69 | the hook changes only the password, and replaces it by its hash exactly when it was modified |
| UserModel.NewUser | models/User.js:4-60 | a new user is stored exactly when the body has the required fields and a password of at least 6 characters. Name and email are normalised and the password hashed. Phone, licence number and expiry are copied and the address defaults to an empty one. The role is the one the body names, or user by default. `isVerified` defaults to false, and bookings and wishlist start empty |
| NotificationModel.ParseNotificationType | models/Notification.js:13-17 | `type` accepts exactly the three names |
| NotificationModel.NewNotification | models/Notification.js:3-27 | a notification is created exactly when it has an owner and a message. Its type is the given one, or system_message by default, and it is unread unless told otherwise. Its link is present only if given |
| Database.Store.FreshId | routes/bookings.js:35-40 | a new document id differs from every id in use |
| Database.Store.AddUser | routes/auth.js:28-29 | saving a user with an unused email adds exactly that user and keeps every invariant, emails unique included |
| Database.Store.AddCar | routes/cars.js:63-64 | saving a validated car adds exactly that car under a fresh id and keeps every invariant |
| BookingRoutes.OverlapsSymmetric | routes/bookings.js:20-29 | the date-overlap test does not depend on which range is the request |
| BookingRoutes.TouchingRangesConflict | routes/bookings.js:25-26 | a range starting on the day another ends overlaps it: both bounds are inclusive |
| BookingRoutes.InactiveNeverBlocks | routes/bookings.js:22 | cancelled and completed bookings never block a request |
| BookingRoutes.AcceptPreservesDisjoint | routes/bookings.js:20-40 | storing a booking the conflict query did not object to keeps the active bookings of each car pairwise disjoint |
| BookingRoutes.RestatusPreservesDisjoint | routes/bookings.js:136-137 | deactivating a booking, or restatusing an active one as active, keeps active bookings disjoint |
| BookingRoutes.ReactivationCanBreakDisjoint | routes/bookings.js:99-100 | there is a store in which confirming a cancelled booking creates two overlapping active bookings of one car |
| BookingRoutes.AvailabilityAfter | routes/bookings.js:104-108 | confirmed makes the car unavailable, cancelled and completed make it available, and pending leaves the flag |
| BookingRoutes.Cancel | routes/bookings.js:126-136 | the cancel rule: 403 unless owner or admin, then 400 unless pending or confirmed, otherwise the booking with status cancelled |
| BookingRoutes.CancelTwiceFails | routes/bookings.js:132-136 | a booking just cancelled cannot be cancelled again |
| BookingRoutes.TwoDayScenario | routes/bookings.js:20-33 | two days at 50 cost 100, and a request for the next two days conflicts with that booking |
| BookingRoutes.CreateBooking | routes/bookings.js:8-50 | the outcome is 404 for an absent car, then 400 for an unavailable car, then 400 for a date conflict, then 400 for a schema failure; nothing is stored on any of these. On success the new booking is stored and its id appended at the end of the caller's bookings. Active bookings stay pairwise disjoint |
| BookingRoutes.GetBooking | routes/bookings.js:65-84 | 404 for a missing booking, 403 unless the caller owns it or is an admin, otherwise the booking |
| BookingRoutes.UpdateBookingStatus | routes/bookings.js:87-116 | the error cases come in this order: 404 for a missing booking, then 403 for a non-admin, then 400 when the car is gone, then 400 for an unknown status. On success the status is set with no transition rule, the car flag follows `AvailabilityAfter`, and the total is kept |
| BookingRoutes.CancelBooking | routes/bookings.js:119-148 | the outcome is 404 for a missing booking, otherwise the cancel rule decides. On success the booking is cancelled and the car made available. When the car is gone the booking stays cancelled and the answer is 400. Active bookings stay disjoint |
| BookingRoutes.ListBookings | routes/bookings.js:151-165 | only an admin may list bookings (403 otherwise), and an admin gets every booking |
| BookingRoutes.MyBookings | routes/bookings.js:53-62 | exactly the caller's bookings |
| CarRoutes.QuerySelects | routes/cars.js:20-35 | a car is listed exactly when it meets each non-empty parameter. Seats must equal the parsed number. Price bounds are inclusive. `available` selects available cars only for "true", and selects unavailable cars for any other value given |
| CarRoutes.EmptyQuerySelectsAll | routes/cars.js:20-35 | a query with no non-empty parameter lists every car |
| CarRoutes.ListCars | routes/cars.js:7-40 | the listing is exactly the stored cars the filter matches; it answers 500 exactly when a numeric parameter is not a number or a non-empty location is not a valid pattern |
| CarRoutes.InvalidPatternFails | routes/cars.js:26-38 | a non-empty location that is not a valid pattern fails the listing; without a location only a NaN does |
| CarRoutes.NonNumericParamFails | routes/cars.js:25-32 | a non-numeric `seats`, `minPrice` or `maxPrice` makes the listing fail |
| CarRoutes.GetCar | routes/cars.js:43-53 | the stored car, or 404 |
| CarRoutes.CreateCar | routes/cars.js:56-68 | 403 for a non-admin before the body is looked at, then 400 for an invalid body; on success a new car is stored under a fresh id and nothing else changes |
| CarRoutes.UpdateCar | routes/cars.js:71-89 | the error cases come in this order: 403 for a non-admin, then 400 for an invalid update, then 404 for a missing car. On success the stored car is the patched car, and nothing else changes |
| CarRoutes.DeleteCar | routes/cars.js:92-106 | 403 for a non-admin, then 404 for a missing car; on success exactly that car is removed and its bookings stay |
| CarRoutes.SumRatingsBounds | routes/cars.js:125 | the sum of `n` ratings in [lo, hi] lies in [n·lo, n·hi] |
| CarRoutes.MeanRatingBounds | routes/cars.js:125-126 | the mean of ratings in [lo, hi] lies in [lo, hi] |
| CarRoutes.InRangeReviewsKeepRatingValid | routes/cars.js:122-128 | when every review is rated within [0, 5], the new mean passes the rating bound, so the save succeeds |
| CarRoutes.OutOfRangeReviewCanBeStored | routes/cars.js:116-128 | a review rated 6 after one rated 0 averages to 3 and is accepted |
| CarRoutes.AddReview | routes/cars.js:109-133 | 404 for a missing car; otherwise exactly one review by the caller is appended at the end and the rating becomes the mean of all reviews; a mean outside [0, 5] answers 400 and changes nothing |
| UserRoutes.Remove | routes/users.js:19 | the filtered list has no occurrence of the car and every other entry of the list |
| UserRoutes.RemoveConcat | routes/users.js:19 | filtering distributes over concatenation, so other entries keep their order |
| UserRoutes.RemoveAbsent | routes/users.js:19 | filtering out a car not in the list leaves the list as it is |
| UserRoutes.Toggle | routes/users.js:15-27 | after the toggle the car is in the list exactly when it was not before, and every other car's membership is unchanged |
| UserRoutes.TogglePreservesOthers | routes/users.js:19-24 | the toggle keeps the other entries in their order: removing the car afterwards equals removing it before |
| UserRoutes.ToggleAppendsAbsent | routes/users.js:22-26 | a car not in the list is appended at the end |
| UserRoutes.ToggleTwice | routes/users.js:15-27 | toggling twice restores the car's membership, and for a car not in the list restores the list |
| UserRoutes.ToggleWishlist | routes/users.js:9-33 | the caller's wishlist is toggled and saved, and the answer says whether the car was added; a missing caller answers 500 and nothing changes |
| UserRoutes.Populate | routes/users.js:41 | a car is listed exactly when it is the stored car of some wishlist entry, and there are no more cars than entries |
| UserRoutes.PopulateSingle | routes/users.js:41 | one entry populates to its stored car, or to nothing when the car no longer exists |
| UserRoutes.PopulateConcat | routes/users.js:41 | populating works entry by entry and keeps the wishlist's order |
| UserRoutes.PopulateAfterDelete | routes/cars.js:99 | once a car is deleted, a wishlist still holding its id lists as if the id had been removed from it |
| UserRoutes.PopulateAllPresent | routes/users.js:41-42 | when every entry's car exists the listing is those cars in stored order |
| UserRoutes.GetWishlist | routes/users.js:38-47 | for a stored caller, the cars listed are exactly the stored cars of the wishlist's entries, no more than there are entries; a missing caller answers 500 |
| AuthRoutes.Authenticate | routes/auth.js:7-23 | the guard admits exactly a present header whose token, with the first "Bearer " removed, verifies to a stored user; every other request answers 401 |
| AuthRoutes.BearerHeaderAuthenticates | routes/auth.js:9 | "Bearer " followed by a valid token authenticates as that token's user |
| AuthRoutes.BareTokenAuthenticates | routes/auth.js:9 | a header without "Bearer " is used as the token as it is |
| AuthRoutes.Register | routes/auth.js:26-39 | a user is stored exactly when the body passes the schema and its normalised email is unused; every failure answers 400 and changes nothing |
| AuthRoutes.Login | routes/auth.js:42-64 | login succeeds exactly for a stored user with the normalised email whose hash accepts the password; an unknown email and a wrong password both answer 401 "Invalid login credentials" |
| AuthRoutes.RegisteredUserCanLogIn | routes/auth.js:45-51 | a registered user logs in with their password, with the email as typed, lower-cased or normalised |
| AuthRoutes.ParseProfileKey | routes/auth.js:78 | the whitelist is exactly name, email, phone, address, licenseNumber, licenseExpiry |
| AuthRoutes.ParseProfileKeyInjective | routes/auth.js:78 | distinct whitelisted names name distinct fields |
| AuthRoutes.Keyed | routes/auth.js:77-78 | an allowed body, read as the fields its keys name, keeps its length, key order and values |
| AuthRoutes.KeyedDistinct | routes/auth.js:77-78 | a body with distinct keys names each field at most once |
| AuthRoutes.Stored | routes/auth.js:86 | the value stored for a field keeps its castability: name and email are normalised by their setters |
| AuthRoutes.Assign | routes/auth.js:86 | assigning one field sets that field and changes no other field, role, password, bookings, wishlist or verified flag |
| AuthRoutes.SamePathsSameUser | models/User.js:4-57 | a user is determined by its updatable fields and the others |
| AuthRoutes.EmptyUpdateIsNoOp | routes/auth.js:77-86 | an empty body leaves the user as it is |
| AuthRoutes.UpdatedFromDeterministic | routes/auth.js:86 | when every value casts, the body determines the updated user |
| AuthRoutes.AssignStep | routes/auth.js:86 | one more iteration of the loop assigns that entry's value when it casts and keeps every earlier assignment, because no field is named twice |
| AuthRoutes.AssignedAll | routes/auth.js:86 | once every entry has been applied, the user is updated from the body: the named fields that cast hold their stored values and every other field is unchanged |
| AuthRoutes.ApplyEntriesAssigned | routes/auth.js:86 | applying the first n entries in order assigns each of them that casts and leaves every field none of them names |
| AuthRoutes.ApplyEntriesUpdated | routes/auth.js:86 | applying the whole body in order gives a user updated from the body |
| AuthRoutes.AssignUpdates | routes/auth.js:86 | the loop reports success exactly when every value casts, and leaves the user with the entries applied in order, each value that casts assigned |
| AuthRoutes.UpdateProfile | routes/auth.js:76-92 | any key outside the whitelist answers 400 "Invalid updates!" with no change. Otherwise the save fails with 400 and no change exactly when a value does not cast, a required field is emptied, or the email is another user's. On success exactly the named fields change, and role, password, bookings and wishlist never do |
| NotificationRoutes.OwnedBy | routes/notifications.js:11 | exactly the owner's notifications, each as many times as the store holds it and no other |
| NotificationRoutes.ChronologicalCons | routes/notifications.js:11 | a notification no later than every one of an ordered list keeps the list ordered when put in front |
| NotificationRoutes.OwnedByChronological | routes/notifications.js:11 | the owner's notifications keep the store's timestamp order |
| NotificationRoutes.Reverse | routes/notifications.js:11 | the reversed list, position by position, with the same elements the same number of times |
| NotificationRoutes.ListNotifications | routes/notifications.js:8-17 | exactly the caller's notifications, each as many times as stored (a permutation of them), newest first |
| NotificationRoutes.FindFrom | routes/notifications.js:24 | the first position at or after `from` holding the id, or none when no such position exists |
| NotificationRoutes.Find | routes/notifications.js:24 | a position holding the id, or none exactly when the id is absent |
| NotificationRoutes.MarkReadRule | routes/notifications.js:22-44 | 404 exactly when the id is absent, 401 exactly when someone else owns it, otherwise only that notification changes, to read |
| NotificationRoutes.FindFromIgnoresRead | routes/notifications.js:24-35 | finding by id does not depend on the read flags |
| NotificationRoutes.MarkReadIdempotent | routes/notifications.js:35-36 | marking read twice is marking read once |
| NotificationRoutes.MarkReadKeepsOrder | routes/notifications.js:35-36 | marking read keeps timestamp order and distinct ids |
| NotificationRoutes.MarkRead | routes/notifications.js:22-44 | the store's notifications become the rule's result on success and stay unchanged on an error |
| BookingFormPage.ToNumber | client/src/pages/BookingForm.js:60 | a number is itself; a text is NaN exactly when `JsText.NumberOf` rejects it, and otherwise the number it reads |
| BookingFormPage.TypedCountReadBack | client/src/pages/BookingForm.js:60 | a driver count typed as the digits of `n` costs as `n` drivers |
| BookingFormPage.ClientDays | client/src/pages/BookingForm.js:58 | whole days truncated toward zero |
| BookingFormPage.ClientTotal | client/src/pages/BookingForm.js:59-62 | the total is days × (price + 10 per driver + 20 with insurance), and NaN exactly when the driver count is not a number |
| BookingFormPage.PriceEffect | client/src/pages/BookingForm.js:56-64 | without both dates and the car the shown total stays as it was |
| BookingFormPage.DaysAgreeIff | client/src/pages/BookingForm.js:58 | the page's day count equals the server's exactly when the range is negative or a whole number of days |
| BookingFormPage.NoExtrasAgreeIff | client/src/pages/BookingForm.js:58-62 | without extras the shown total equals the stored price exactly when the range is negative or a whole number of days |
| BookingFormPage.ExtrasOnlyOnClient | client/src/pages/BookingForm.js:59-62 | over whole days the shown total is the stored price plus the extras |
| BookingFormPage.DayAndAHalfDisagrees | client/src/pages/BookingForm.js:58 | a day and a half at 50 is shown as 50 and stored as 100 |
| BookingFormPage.SubmitEnabledIff | client/src/pages/BookingForm.js:259 | the fresh form cannot be submitted; a form can be exactly when both dates and a payment method are set |
| BookingFormPage.SubmitBody | client/src/pages/BookingForm.js:81-84 | the body is every form field plus `car`, and it carries no price |
| BookingFormPage.BookingForm.constructor | client/src/pages/BookingForm.js:28-40 | the initial form, no car, a total of 0 |
| BookingFormPage.BookingForm.RunPriceEffect | client/src/pages/BookingForm.js:56-64 | the shown total becomes the effect's result |
| BookingFormPage.BookingForm.CarLoaded | client/src/pages/BookingForm.js:46 | the car is set, the form is kept, and the effect runs |
| BookingFormPage.BookingForm.HandleChange | client/src/pages/BookingForm.js:66-72 | `insurance` takes the checkbox state and every other input its raw text; all other fields are unchanged; then the effect runs |
| BookingFormPage.BookingForm.SetStartDate | client/src/pages/BookingForm.js:125-130 | only the start date changes, then the effect runs |
| BookingFormPage.BookingForm.SetEndDate | client/src/pages/BookingForm.js:142-147 | only the end date changes, then the effect runs |
| BookingFormPage.PickDatesScenario | client/src/pages/BookingForm.js:56-64 | after loading the car and picking both dates the page shows the client total for those dates |
| CarListPage.Entries | client/src/pages/CarList.js:65 | the filters' entries in insertion order |
| CarListPage.KeptParams | client/src/pages/CarList.js:65-69 | the loop appends at most one parameter per entry |
| CarListPage.KeptParamsMembership | client/src/pages/CarList.js:65-69 | a parameter is sent exactly when it comes from an entry that is neither empty text nor a price bound at its default |
| CarListPage.DefaultFiltersSendNothing | client/src/pages/CarList.js:34-42 | the default filters send no parameter |
| CarListPage.SortParams | client/src/pages/CarList.js:71-83 | the four sort options map to `sortBy` pricePerDay or year and `order` asc or desc; anything else adds nothing |
| CarListPage.QueryGet | routes/cars.js:9-18 | the value of the first parameter under a key, or none exactly when the key is absent |
| CarListPage.QueryGetAgreed | routes/cars.js:9-18 | when all values under a key agree, that value is read |
| CarListPage.ParamReachesServer | client/src/pages/CarList.js:65-85 | the server reads each kept filter as the page holds it and each other filter as absent |
| CarListPage.PriceBoundReachesServer | client/src/pages/CarList.js:65-85 | a price bound off its default reaches the server as the same number |
| CarListPage.PriceFilterFromPage | client/src/pages/CarList.js:65-85 | the server's price constraint is the slider's bounds, each only when off its default |
| CarListPage.AvailableNeverSent | client/src/pages/CarList.js:65-85 | the page never sends `available` |
| CarListPage.ChipReset | client/src/pages/CarList.js:298 | the value a chip resets to is never sent |
| CarListPage.CarList.constructor | client/src/pages/CarList.js:34-44 | default filters, price ascending, empty wishlist |
| CarListPage.CarList.BuildQuery | client/src/pages/CarList.js:62-85 | the loop's parameters are the kept filters in entry order followed by the sort parameters |
| CarListPage.CarList.ApplyLocationParam | client/src/pages/CarList.js:47-53 | a non-empty `location` in the URL becomes the location filter; otherwise nothing changes |
| CarListPage.CarList.HandleFilterChange | client/src/pages/CarList.js:121-124 | only the named filter changes, to the input's text |
| CarListPage.CarList.HandlePriceChange | client/src/pages/CarList.js:126-132 | only the two price bounds change |
| CarListPage.CarList.HandleSortChange | client/src/pages/CarList.js:134-138 | a null selection is ignored; any other becomes the sort |
| CarListPage.CarList.ClearFilters | client/src/pages/CarList.js:141-152 | every filter back to its default and sort price ascending |
| CarListPage.CarList.DeleteChip | client/src/pages/CarList.js:298-307 | only that filter changes, to its reset value, and it is no longer sent |
| CarListPage.CarList.HandleToggleWishlist | client/src/pages/CarList.js:101-119 | signed out, only navigation to the login page. After a successful call the car is toggled locally, and after a failed call the list is refetched |
| CarListPage.ClearThenQuery | client/src/pages/CarList.js:141-152 | after clearing, the page sends only the default sort |

## Left out

- Token signing and verification (JSON Web Tokens) are not modelled beyond an opaque function from token text to a user id. Password hashing and comparison (bcrypt) are opaque functions. Issuing a token at registration and login is not modelled.
- `GET /profile` is not modelled. It returns the authenticated user as the guard found it.
- The store is a set of in-memory maps. The model leaves out:
  - query and populate mechanics;
  - the listing order of the admin and my-bookings listings;
  - the populated car and user inside a booking;
  - when the document store runs validation relative to the hooks. The model prices a booking, then validates it.
- Concurrency is left out. Each handler is one atomic step, so the race between the conflict query and the insert is not modelled. Neither are the two separate saves of a booking and its car.
- The location filter is a case-insensitive regular expression built from the raw parameter. Which text is a valid pattern and what a pattern matches are opaque parameters of the model.
- `parseInt` is modelled for decimal text only: no `0x` prefix. Fractional numbers and floating point are left out. Prices, days and counts are integers; ratings are reals.
- Text is treated as a sequence of characters. Lower-casing covers ASCII letters only, and lengths are counted in characters rather than UTF-16 units.
- The body's date strings are taken as already read as instants. Time zones and daylight saving in the page's whole-day count are left out.
- A status update body with no `status` field is not modelled. The status is a string.
- Registration and car creation take their fields from the body. Body-supplied `bookings`, `wishlist` or `reviews` arrays on registration and car creation are left out; on the car update route a `reviews` array is modelled, and a review in it without a `date` (which the schema would default to the current time) is not.
- Missing numeric fields on a car are left out. `year`, `seats`, `pricePerDay` and `mileage` are always present numbers.
- Profile values of other JSON types are left out. The model has text, address and date values and treats anything else as a value that does not cast.
- No route creates notifications. `NotificationModel.NewNotification` states the schema's rules for one. Notifications with equal timestamps are listed latest-stored first.
- Rendering, navigation other than the wishlist redirect, and the wishlist fetch's own request are left out. The other client pages are left out too.
- HTTP status bodies and messages are not modelled beyond the `Common.Error` variants.
- A handler that reads a property of a missing record answers with its catch block's status:
  - 400 (`HandlerThrew`) in the booking status and cancel handlers;
  - 500 (`ServerError`) in the wishlist handlers.
- `GET /:id` on bookings does not model a booking whose user document was deleted. Users are never deleted in the model.
- The wishlist toggle does not check the car id against the catalogue, and neither does the model.
- routes/users.js:3 and routes/notifications.js:3 guard their handlers with `middleware/auth` and read `req.user.id`, not with the guard that `AuthRoutes.Authenticate` models; middleware/auth.js is not part of this model. The wishlist and notification handlers take the caller as an unconstrained user id, which covers every id that guard could pass on; a caller with no stored user answers 500 in the wishlist handlers.
- The car list page sends seats "7+" as 7, which the server matches exactly. The page's option labels are not modelled.
- UserRoutes.GetWishlist: states membership, the length bound and the success condition; the order of the listing is stated by `UserRoutes.PopulateConcat` and `UserRoutes.PopulateSingle` about the populate step it uses.
- BookingFormPage.ToNumber: text with an exponent or a fraction (such as "1e1" or "1.5"), hexadecimal, binary or octal prefixes, and "Infinity" with or without a sign, are read as NaN, where JavaScript's `Number` reads them as numbers. The driver count is modelled as an integer.
- CarListPage.QueryGet: a key repeated in the query string is read as its first value. The server's query parser would make it an array, which `parseInt` and the enum match read differently. The page never repeats a key.
- A login body without `password` makes the password comparison throw, which routes/auth.js:61-62 answers with 400. The model always has a password text and answers only 401 or success.
- A review body without a numeric `rating` makes the mean rating NaN, so the save fails and routes/cars.js:130-131 answers 400. In the model the review rating is always a real number.
- Ids that are not well-formed document ids make the lookups throw a cast error, which each handler's catch answers with 400 or 500. Ids are natural numbers in the model, and a well-formed id that names no document is the only missing-record case.
- Other missing or ill-typed body fields are left out, as for car numeric fields and the status body above.
- BookingFormPage.PriceEffect: states only the no-change case; the computed total is stated by `BookingFormPage.ClientTotal` and `BookingFormPage.ClientDays`.
