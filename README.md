# Travel-booking rules, modelled in Dafny

This project models the decision logic of a JavaFX travel-booking
application that ships two code trees:

- the DAO-backed tree under `src/controller`, `src/model` and `src/view`;
- the standalone tree under `src/main/java/travelfinder`.

The application itself is mostly screen construction and mock data. This
model keeps the rules that decide something:

- **Booking.** How a stay is priced and which guards a booking passes
  before it is built and saved. This covers both booking controllers.
- **Search.** The default filter map and the order-preserving filter over
  search results.
- **Catalogue helpers.** Room price and capacity guards, review rating
  guards, moderation predicates, star strings and summaries, the average
  rating, the location full-name walk, and user roles and identity.
- **Screen rules.** The status-code tables and the form validators of the
  profile, administrator and checkout screens.
- **Access gates.** The gates of the main screen and the ordered checks
  of the login screen.

## Modelling conventions

- **Values and objects.**
  - A Java value record that only has getters and setters is a
    `datatype`. Examples: the booking record, the DAO tree's room and
    accommodation records.
  - An object whose fields its methods update is a `class`. Its lists are
    `seq` fields that the methods extend.
  - Where a loop lives in the source, the model has a method with a loop,
    proved against a specification function. These are:
    - `initializeFilters` against `PutAll`/`DefaultFilters`;
    - `getAverageRating` against `AverageRating`;
    - `getStarRating` against `Stars`;
    - `getFullName` of a location against `Prefix`.
- **Java values.**
  - A `null` is `None`.
  - `BigDecimal` and `double` are `real`: exact, with no IEEE rounding.
  - Dates are epoch-day integers.
  - `String.trim()` removes characters up to U+0020.
  - `Map.getOrDefault(k, true)` is `Enabled`.
  - `BigDecimal.intValue()` truncates toward zero, which is `TruncateToInt`.
- **Exceptions.**
  - An exception that a guard throws is a `false` result, with the field
    unchanged: `setRating`, `setCapacity`.
  - An exception that the code raises by accident is an outcome of its
    own: the class cast in the credit-card branch of `validateForm`, and
    the missing accommodation in `processBooking`.
- **Callbacks, DAOs and foreign calls.**
  - A registered callback is a boolean field.
  - A DAO answer is a parameter: the user lookup, `save`, `search`.
  - So are the results of `UUID.randomUUID()` and `new Random().nextInt`,
    and the clock that `LocalDateTime.now()` reads.
  - Widget contents (text fields, combo boxes, date pickers) are
    parameters too.

## Where the code and the design disagree (the model follows the code)

- **The standalone `createBooking` uses members `Booking.java` lacks.** It
  builds the booking with a ten-argument constructor that takes a booking
  id and a `double` price, and it calls `setStatusName`. Neither exists in
  `src/main/java/travelfinder/model/Booking.java`. The model gives the
  record a `statusName` field and stores the drawn id and the price as the
  controller intends.
- **`guests` has two types.** `BookingView.setupBookingForm` declares
  `guests` as a `String`, while the DAO-backed controller passes an `int`.
  The model stores the number.
- **A bad maximum price keeps the parsed minimum.** `applyFilters` parses
  the minimum price first. If only the maximum fails to parse, the parsed
  minimum stays and the maximum falls back to 1000 (`PriceBounds`). If the
  minimum fails, both fall back.
- **The two status-name tables differ on unknown ids.** The administrator
  screen's name table gives `""` for an unknown id. The profile screen's
  gives `"Unknown"` (`AdminView.AdminAndProfileNamesAgree`).

## Model

| member | source | states |
|---|---|---|
| Bookings.NewBooking | src/main/java/travelfinder/model/Booking.java:28-40 | the nine-argument constructor stores exactly its arguments and leaves the id zero and every other field null |
| CheckoutController.Breakdown | src/controller/BookingController.java:67-75 | nights is the day difference, never checked positive; the nightly price is the base price, times the room modifier only when a room is chosen; subtotal is nightly price times nights; tax is 0.12 of the subtotal; total is subtotal plus tax |
| CheckoutController.BreakdownTotals | src/controller/BookingController.java:73-75 | the total is exactly 1.12 times the subtotal; a non-negative nightly price over a non-reversed range gives total >= subtotal >= 0; a reversed date range is priced negative |
| CheckoutController.WorkedExample | src/controller/BookingController.java:67-75 | a 150.00 base, a 1.2 modifier and three nights give 180.00 a night, 540.00 before tax, 64.80 tax and 604.80 in all |
| CheckoutController.ReferenceNumber | src/controller/BookingController.java:148-151 | the reference is 12 characters: "BOOK", then the UUID's first eight characters upper-cased, with no lower-case letter left |
| CheckoutController.CheckoutController.constructor | src/controller/BookingController.java:35-50 | the controller registers itself as the view's "Complete Booking" handler and starts with no selection and no completion callback |
| CheckoutController.CheckoutController.SetOnBookingComplete | src/controller/BookingController.java:96-98 | a completion callback is registered |
| CheckoutController.CheckoutController.StartBookingProcess | src/controller/BookingController.java:52-90 | the selection, user, dates and guests are stored; the returned figures are `Breakdown` of the inputs; the screen summary receives the combined "accommodation - room" name and exactly those figures; the completion handlers are untouched |
| CheckoutController.CheckoutController.ProcessBooking | src/controller/BookingController.java:100-146 | checked in order: unchecked terms, then a user lookup returning null, then a missing selection (the caught exception), each ending without a booking. Otherwise a booking is built with status 2, the looked-up user id, a null room id when no room is chosen, the stored dates and guests, the submitted total and special requests, and the "BOOK" reference. It is reported saved only when `save` returns true, and only then is the completion callback notified |
| CheckoutController.CheckoutFlow | src/controller/BookingController.java:35-146 | end to end through the checkout screen, with the terms ticked, the user found and the save accepted: a booking results exactly when the form validates, it is saved, and it carries exactly the total that `startBookingProcess` computed |
| BookingController.BookingController.constructor | src/main/java/travelfinder/controller/BookingController.java:20-21 | no user and no view at first |
| BookingController.BookingController.SetBookingView | src/main/java/travelfinder/controller/BookingController.java:23-25 | a view is attached |
| BookingController.BookingController.SetCurrentUser | src/main/java/travelfinder/controller/BookingController.java:27-29 | the current user is the one given |
| BookingController.BookingController.StartBookingProcess | src/main/java/travelfinder/controller/BookingController.java:31-46 | the user "Guest" is sent to log in before the view is touched; otherwise the form opens for the given ids exactly when a view is attached |
| BookingController.TotalPriceByGuests | src/main/java/travelfinder/controller/BookingController.java:126-138 | one guest pays 149.99 per night; over at least one night every extra guest strictly raises the total, and the total is never below the one-guest price |
| BookingController.BookingReference | src/main/java/travelfinder/controller/BookingController.java:140-143 | the reference is "BK" and five digits reading back as 10000 plus the draw, a number in [10000, 99999], seven characters in all |
| BookingController.BookingReferenceInjective | src/main/java/travelfinder/controller/BookingController.java:140-143 | different draws give different references |
| BookingController.CreateBooking | src/main/java/travelfinder/controller/BookingController.java:69-108 | check-in on or after check-out is rejected first, then fewer than one guest; otherwise the booking has the drawn id, user 1, the given ids, dates, guests and special requests, status 2 named "Confirmed", the "BK" reference and the guest-scaled price |
| BookingController.CreatedBookingIsWellFormed | src/main/java/travelfinder/controller/BookingController.java:72-108 | every created booking spans at least one night, costs at least the positive one-guest price and has a seven-character reference |
| SearchController.TypeName | src/controller/SearchController.java:155-164 | ids 1..5 name Hotel, Apartment, Vacation Home, Hostel and Resort; every other id is "Other" |
| SearchController.TruncateToInt | src/controller/SearchController.java:131-132 | `intValue` truncates toward zero: the result is within one of the value and never farther from zero |
| SearchController.Enabled | src/controller/SearchController.java:133 | a filter key counts as enabled unless it is present and false |
| SearchController.Filter | src/controller/SearchController.java:119-151 | the displayed list is no longer than the results, and everything in it comes from the results and passes the predicate |
| SearchController.FilterKeepsOrder | src/controller/SearchController.java:119-151 | the displayed list is a subsequence of the results in their original order |
| SearchController.FilterKeepsEveryMatch | src/controller/SearchController.java:119-151 | every result the predicate keeps is displayed: nothing is dropped except by the predicate |
| SearchController.FilterKeepsMultiplicity | src/controller/SearchController.java:119-151 | each result is displayed exactly as many times as it occurs in the stored results when the predicate keeps it, and not at all otherwise, so duplicates survive |
| SearchController.PriceOutsideRangeExcluded | src/controller/SearchController.java:125-129 | a result priced outside [min, max] is never displayed |
| SearchController.DefaultFiltersKeepByPriceOnly | src/controller/SearchController.java:79-100 | with the default filter map, no star rating and no type is switched off, so only the price range decides |
| SearchController.PriceBounds | src/controller/SearchController.java:108-116 | an unparseable minimum gives the bounds 0 and 1000; an unparseable maximum alone keeps the parsed minimum with 1000 |
| SearchController.PutAllMeaning | src/controller/SearchController.java:79-100 | putting one value under each key of a list adds exactly those keys with that value and keeps every other entry |
| SearchController.DefaultFiltersAreThePuts | src/controller/SearchController.java:79-100 | the two price flags and the three loops of `initializeFilters` add exactly the default entries: price, star and type keys true, amenity keys false |
| SearchController.SearchController.constructor | src/controller/SearchController.java:27-37 | the filter map starts empty and is filled by `initializeFilters`, so it equals the default map |
| SearchController.SearchController.InitializeFilters | src/controller/SearchController.java:79-100 | the map afterwards is the old map overwritten by the default entries |
| SearchController.SearchController.ShowSearchResults | src/controller/SearchController.java:59-64 | the stored results are the ones given |
| SearchController.SearchController.ApplyFilters | src/controller/SearchController.java:102-152 | nothing is displayed when the stored results are null or empty; otherwise the displayed list is the stored results filtered with the current map and the parsed bounds |
| SearchController.SearchController.OnFilterApplied | src/controller/SearchController.java:46-49 | the screen's filter map replaces the stored one, then the results are filtered with it |
| RoomRecord.NewRoom | src/model/Room.java:20-27 | the constructor marks the room available and stores the capacity unchecked |
| RoomRecord.SetCapacity | src/model/Room.java:66-68 | any capacity is stored, including non-positive ones, and nothing else changes |
| RoomRecord.CapacityDescriptionReadsBack | src/model/Room.java:122-128 | the singular text appears exactly for capacity 1; otherwise the text is "Sleeps ", the number and " people", and for a non-negative capacity the number reads back as the capacity |
| RoomRecord.RoomSizeFormatted | src/model/Room.java:130-135 | a missing size reads "Size not specified"; otherwise the text is the size's decimal digits followed by " sq m" |
| RoomRecord.CalculatePrice | src/model/Room.java:138-143 | zero when the base price or the modifier is null, otherwise their exact product |
| RoomRecord.CalculatePriceScales | src/model/Room.java:138-143 | a unit modifier returns the base price unchanged; a modifier of at least 1 never lowers a non-negative price; non-negative inputs give a non-negative price |
| Lodging.Room.constructor | src/main/java/travelfinder/model/Room.java:27-34 | the room starts available, detached and without bookings or media, with the capacity unchecked |
| Lodging.Room.Detailed | src/main/java/travelfinder/model/Room.java:36-47 | the same, with description, size and bed type |
| Lodging.Room.SetCapacity | src/main/java/travelfinder/model/Room.java:86-91 | a capacity of zero or less is refused and leaves the stored one; a positive one is stored |
| Lodging.Room.SetAccommodation | src/main/java/travelfinder/model/Room.java:138-140 | the accommodation the price is read from is the one given |
| Lodging.Room.AddBooking | src/main/java/travelfinder/model/Room.java:159-161 | exactly one booking is appended and the earlier ones are kept |
| Lodging.Room.AddMediaUrl | src/main/java/travelfinder/model/Room.java:163-165 | exactly one URL is appended and the earlier ones are kept |
| Lodging.Room.CalculatePrice | src/main/java/travelfinder/model/Room.java:167-172 | zero for a detached room, otherwise the accommodation's base price times the modifier |
| Lodging.CalculatePriceScales | src/main/java/travelfinder/model/Room.java:167-172 | a unit modifier costs the base price; a modifier of at least 1 never lowers a non-negative base; a detached room costs nothing |
| Lodging.Accommodation.constructor | src/main/java/travelfinder/model/Accommodation.java:36-47 | the accommodation starts active with no rooms, amenities or reviews |
| Lodging.Accommodation.AddRoom | src/main/java/travelfinder/model/Accommodation.java:220-222 | the room is appended even if already listed |
| Lodging.Accommodation.AddAmenity | src/main/java/travelfinder/model/Accommodation.java:224-226 | the amenity is appended even if already listed |
| Lodging.Accommodation.AddReview | src/main/java/travelfinder/model/Accommodation.java:228-230 | exactly one review is appended and the earlier ones are kept |
| Lodging.Accommodation.GetAverageRating | src/main/java/travelfinder/model/Accommodation.java:232-243 | the loop's result is 0 without reviews, otherwise the sum of the ratings divided by their number |
| Lodging.RatingSumBounds | src/main/java/travelfinder/model/Accommodation.java:237-240 | ratings that all lie in [lo, hi] sum to between lo and hi times their count |
| Lodging.AverageWithinRatings | src/main/java/travelfinder/model/Accommodation.java:232-243 | the average of a non-empty review list lies between the lowest and the highest rating |
| Lodging.AverageOfUniformRatings | src/main/java/travelfinder/model/Accommodation.java:232-243 | no reviews average 0; reviews that all carry one rating average exactly that rating |
| Reviews.Review.constructor | src/main/java/travelfinder/model/Review.java:29-37 | the review starts "Pending" and verified, with the rating taken unchecked |
| Reviews.Review.WithComment | src/main/java/travelfinder/model/Review.java:39-50 | the same, with the comment and the review date |
| Reviews.Review.SetRating | src/main/java/travelfinder/model/Review.java:89-94 | a rating outside 1..5 is refused and leaves the stored one; a rating in 1..5 is stored |
| Reviews.Review.SetModerationStatus | src/main/java/travelfinder/model/Review.java:132-134 | any status text is stored, known or not |
| Reviews.Review.SetResponse | src/main/java/travelfinder/model/Review.java:108-110 | the response is the one given |
| Reviews.CommentPreview | src/main/java/travelfinder/model/Review.java:203-205 | a null comment reads "No comment"; a comment of up to 30 characters is shown whole; a longer one becomes its first 30 characters and "..." |
| Reviews.CommentPreviewBounds | src/main/java/travelfinder/model/Review.java:203-205 | the preview never exceeds 33 characters, starts with the comment's own first characters, and is shorter than the comment exactly when the comment exceeds 33 |
| Reviews.ModerationExclusive | src/main/java/travelfinder/model/Review.java:190-200 | at most one of `isPending`, `isApproved`, `isRejected` holds, and none holds for a status outside the three names |
| Reviews.ToStringLeadsWithRating | src/main/java/travelfinder/model/Review.java:202-205 | the summary leads with the rating, so reviews with different non-negative ratings never print alike |
| ReviewDisplay.Review.constructor | src/model/Review.java:26-35 | the review starts PENDING, verified and dated at the given instant |
| ReviewDisplay.Review.SetResponse | src/model/Review.java:90-100 | the response and the responder are the ones given |
| ReviewDisplay.Review.SetReviewDate | src/model/Review.java:122-124 | the date that is formatted is the one given |
| ReviewDisplay.Review.FormattedReviewDate | src/model/Review.java:147-158 | a missing date reads "Date unknown"; otherwise the month's name with only its first letter upper case, a space and the year |
| ReviewDisplay.MonthYearSpelledOut | src/model/Review.java:153-157 | the first letter of the month constant followed by the rest lower-cased is the month's name as written |
| ReviewDisplay.FormattedDateDistinguishesMissing | src/model/Review.java:147-158 | "Date unknown" appears exactly when the date is missing |
| ReviewDisplay.Review.GetStarRating | src/model/Review.java:166-176 | the loop builds exactly the five-character star string of the rating |
| ReviewDisplay.Stars | src/model/Review.java:166-176 | five characters; position i is filled exactly when i is below the rating |
| ReviewDisplay.StarsShowRating | src/model/Review.java:168-174 | the rating clamped to 0..5 is the number of filled stars, they come first and the rest are empty; a rating of 0 or less gives five empty stars |
| Locations.Location.constructor | src/main/java/travelfinder/model/Location.java:26-30 | the location starts without a parent or children |
| Locations.Location.SetParent | src/main/java/travelfinder/model/Location.java:122-124 | the parent the full name walks to is the one given |
| Locations.Location.AddChild | src/main/java/travelfinder/model/Location.java:143-145 | exactly one child is appended |
| Locations.Location.GetFullName | src/main/java/travelfinder/model/Location.java:151-161 | over an acyclic parent chain, the walk returns "<name>, " for every ancestor, outermost first, followed by the location's own name |
| Locations.AncestryUnique | src/main/java/travelfinder/model/Location.java:155-158 | a location has only one parent chain, so the full name does not depend on which chain is named |
| Locations.RootFullName | src/main/java/travelfinder/model/Location.java:151-161 | a location without a parent has the empty chain and its full name is its own name |
| Locations.PrefixLength | src/main/java/travelfinder/model/Location.java:154-158 | exactly one name and one ", " are inserted per ancestor |
| Locations.PrefixOrder | src/main/java/travelfinder/model/Location.java:155-157 | the outermost ancestor comes first and the immediate parent last, each followed by ", " |
| Locations.EqualsMatchesHash | src/main/java/travelfinder/model/Location.java:168-180 | `equals` holds exactly when the ids match, is symmetric, and equal locations hash alike |
| Users.JavaText | src/main/java/travelfinder/model/User.java:190-192 | a null part of the name prints as "null" |
| Users.User.constructor | src/main/java/travelfinder/model/User.java:33-41 | the account starts active with no bookings or reviews |
| Users.User.SetRole | src/main/java/travelfinder/model/User.java:120-122 | the role the predicates test is the one given |
| Users.User.AddBooking | src/main/java/travelfinder/model/User.java:182-184 | exactly one booking is appended |
| Users.User.AddReview | src/main/java/travelfinder/model/User.java:186-188 | exactly one review is appended |
| Users.RolesExclusive | src/main/java/travelfinder/model/User.java:194-200 | no user is both administrator and traveller, and a user without a role is neither |
| Users.FullNameSplits | src/main/java/travelfinder/model/User.java:190-192 | the full name is the first name, one space and the last name, and splits back into them when the first name has no space |
| Users.EqualsIsIdentityById | src/main/java/travelfinder/model/User.java:207-219 | `equals` is reflexive, symmetric and transitive, holds exactly when the ids match, is false for null, and equal users hash alike |
| UserProfileView.StatusText | src/view/UserProfileView.java:525-534 | ids 1..5 name Pending, Confirmed, Completed, Cancelled and No-Show, each name for its id alone; every other id is "Unknown" |
| UserProfileView.StatusStyle | src/view/UserProfileView.java:541-552 | every style is a background colour followed by the shared base style |
| UserProfileView.StatusStylesDistinct | src/view/UserProfileView.java:541-552 | each of the five statuses has a style different from every other id's |
| UserProfileView.ValidatePasswordFields | src/view/UserProfileView.java:558-575 | valid exactly when the current and the new password are non-blank after trimming and the new one equals the confirmation untrimmed; the first failing check decides the message |
| UserProfileView.PasswordChecksTrimOnlyForBlankness | src/view/UserProfileView.java:564-572 | a new password of spaces is refused as missing, and a confirmation differing by a trailing space is refused as a mismatch |
| UserProfileView.CardActions | src/view/UserProfileView.java:483-513 | every card has View Details first; Modify and Cancel exactly for upcoming bookings; Write Review exactly for past completed ones; all others get View Details alone |
| AdminView.StatusIdOfName | src/view/AdminView.java:506-514 | a name has an id in 1..5 exactly when it is one of the five entries, and that entry sits at the id's place; any other name leaves the id 0 |
| AdminView.StatusUpdateRequest | src/view/AdminView.java:504-518 | an update is requested exactly for a known name with a callback registered, with the id of that name |
| AdminView.StatusNameOfId | src/view/AdminView.java:532-539 | ids 1..5 give the five entries in order; any other id gives "" |
| AdminView.NameIdNameRoundTrip | src/view/AdminView.java:506-539 | name to id to name is the identity on the five entries |
| AdminView.IdNameIdRoundTrip | src/view/AdminView.java:506-539 | id to name to id is the identity on 1..5 |
| AdminView.AdminAndProfileNamesAgree | src/view/AdminView.java:532-539 | the administrator screen and the profile screen name the five statuses alike and differ only on unknown ids |
| AdminView.ValidateReportInput | src/view/AdminView.java:885-907 | valid exactly when report type, start and end are present and the start is not after the end (equal dates pass); the missing fields are reported in that order |
| AdminView.RequestedActiveStatus | src/view/AdminView.java:273-279 | a request is sent exactly when a user-status callback is registered, and it asks for the opposite of the current active flag |
| BookingView.ValidateForm | src/view/BookingView.java:352-401 | valid exactly when first name, last name and email are non-blank after trimming, the payment method is not "Credit Card" and the terms are accepted; the fields are checked in that order before the terms; phone and requests are never read; "Credit Card" ends in the class-cast failure |
| BookingView.BookingView.constructor | src/view/BookingView.java:298-310 | the summary fields start null and no handler is registered |
| BookingView.BookingView.SetOnCompleteBookingClicked | src/view/BookingView.java:425-427 | a "Complete Booking" handler is registered |
| BookingView.BookingView.SetupBookingForm | src/view/BookingView.java:298-310 | all nine arguments are stored unchanged and the handler stays as it was |
| BookingView.BookingView.CompleteBookingClicked | src/view/BookingView.java:240-255 | details reach the handler exactly when the form validates and a handler is registered; they carry the field texts as typed and the stored total |
| MainController.MainController.constructor | src/controller/MainController.java:18-19 | nobody is logged in and the administrator flag starts false |
| MainController.MainController.SetCurrentUser | src/controller/MainController.java:58-61 | the user is stored, and the administrator flag holds exactly for the name "admin" |
| MainController.MainController.SetOnLogout | src/controller/MainController.java:63-65 | a logout callback is registered |
| MainController.MainController.HandleLogout | src/controller/MainController.java:97-101 | the callback runs exactly when one is registered |
| MainController.MainController.HandleSearch | src/controller/MainController.java:67-79 | a null or blank location is refused without a search; any other location is searched for unchanged, untrimmed |
| MainController.MainController.HandleShowProfile | src/controller/MainController.java:103-110 | the user "Guest" is told to log in; everyone else sees the profile |
| MainController.MainController.HandleShowBookings | src/controller/MainController.java:112-119 | the user "Guest" is told to log in; everyone else sees the bookings |
| MainController.MainController.HandleShowAdminPanel | src/controller/MainController.java:121-128 | only the administrator gets through; everyone else is denied |
| MainController.AdminPanelAfterSetCurrentUser | src/controller/MainController.java:58-128 | after `setCurrentUser`, the admin panel opens exactly for the name "admin" and the profile screen exactly for every name but "Guest" |
| LoginController.HandleLogin | src/main/java/travelfinder/controller/LoginController.java:35-58 | a null or blank username is reported first, then a null or blank password; then exactly the two built-in pairs are accepted, matched untrimmed, and the success callback receives the entered username; every other pair is refused |
| LoginController.MatchIsExact | src/main/java/travelfinder/controller/LoginController.java:47-57 | a known account with a surrounding space is refused, though the blankness checks trim |
| LoginController.SpacesAreNoUsername | src/main/java/travelfinder/controller/LoginController.java:36-39 | a username of spaces counts as missing |
| LoginController.AcceptedNames | src/main/java/travelfinder/controller/LoginController.java:47-54 | only `john_doe` and `admin_user` are ever accepted |

## Left out

- **User interface.** Scene building, styling, navigation, alert dialogs and `show`/`close` calls are out. A shown alert is an outcome value.
- **DAOs.** `BookingDAO`, `UserDAO`, `AccommodationDAO`, `ReviewDAO` and `LocationDAO` have no implementation. Their answers are parameters. `DatabaseConnection` is file and JDBC I/O, and is out.
- **Availability, cancellation and the booking life cycle.**
  - Availability is a constant `true` in the source.
  - Cancellation is a placeholder.
  - Status ids change without any transition rule.
  - The model adds no overlap check and no state machine.
- **Unnamed helpers of the standalone controller.**
  - `showUserBookings` and `getMockBookings` only show mock data, so they are out.
  - `processPayment` only prints, so it is out.
  - The same holds for the stubs of the standalone `SearchController` and `AccommodationController`.
- **`loadFeaturedDestinations` and `showView` of the main screen.** They only display a DAO answer.
- **Prefill in `startBookingProcess`.** The user lookup that fills the checkout form's name fields is not modelled. Only the lookup in `processBooking` is: it is the `foundUserId` parameter.
- **`AdminController`, `UserController` and the DAO-backed `LoginController`.** They only delegate to DAOs and views. The report types the administrator screen sends never match the cases of `AdminController`. That mismatch lies outside this model.
- **Login-to-main-screen hand-over.** No code in either tree passes a login result to a main screen (`setOnLoginSuccess` and the DAO-backed `setCurrentUser` have no callers), so the login checks and the main screen's gates are modelled separately and no property about their combination is stated.
- **Floating point.** `double` and `BigDecimal` arithmetic is exact real arithmetic. IEEE rounding is not modelled, and neither is `BigDecimal` scale, so `0.12 * x` is the exact product. `Double.parseDouble` also accepts "NaN" and "Infinity"; NaN and infinite price bounds are not modelled (a parsed bound is a real), so the case where a NaN bound excludes no price on its side of the range is not captured.
- **Java integer width.** `int`/`long` overflow is not modelled. This covers the nights count and `hashCode`.
- **Characters.** Lengths count characters, where Java counts UTF-16 units. Upper and lower case are mapped for ASCII letters only, as `toUpperCase()`/`toLowerCase()` do under an English-like default locale; the locale is taken as fixed, so a Turkish locale's dotless ı in a lower-cased month name is not modelled.
- **Mock price strings.** The strings of `TravelFinderApp` are out, as is the mock data throughout.
- **Getters and setters, and the no-argument constructors.** Unchecked field writes are not modelled beyond the setters listed in the table. These are also left out:
  - the eight-argument `Location` constructor;
  - `Location`'s list of accommodations and `addAccommodation`;
  - the user, booking and accommodation references of a review.
- **`toString` of `Room`, `Accommodation`, `User`, `Location`, `Booking` and the DAO tree's `Review`.** They are debugging texts that no rule reads.
- **The credit-card branch of `validateForm`.** It always fails with a class cast, so it is modelled as `CardFieldCastFailure`. The card-field checks behind the cast are unreachable.
- **Null pointer failures are excluded by the types.**
  - `setCurrentUser(null)` of the main screen.
  - A null payment method, a null combo-box selection in the administrator status column, or a null `getBasePrice()`/`getStarRating()` during filtering.
  - A null modifier on a chosen room in `startBookingProcess`. This one is a precondition of `CheckoutController.CheckoutController.StartBookingProcess`.
- **Unchecked argument in `processBooking`.** `generateReferenceNumber` takes the first eight characters of a UUID text. The model requires the text to have at least eight characters, as every UUID text does.
- Lodging.Accommodation.GetAverageRating: the rating sum is exact. A Java `double` sum of small integers is exact too, but the division is rounded.
- Locations.Location.GetFullName: the caller names the parent chain as a ghost argument. A chain with a cycle, on which the Java loop never ends, has no such argument and is not modelled.
- Users.User.FullName, Reviews.Review.ToString, BookingController.CalculateTotalPrice, RoomRecord.CapacityDescription and the role and moderation predicates carry no contract of their own. Their meaning is stated by the lemmas in the table above (`TotalPriceByGuests`, `CreatedBookingIsWellFormed`, `CapacityDescriptionReadsBack` and the others).
- Reviews.Review.HasResponse and ReviewDisplay.Review.HasResponse carry no contract. Each is its source's condition as written: a non-empty response, and in the DAO tree also a known responder.
