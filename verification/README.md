# Train-ticket booking wizard — a Dafny model

The application is a single-page wizard for buying train tickets. The traveller:

1. searches routes;
2. filters and sorts the trains found;
3. picks a wagon and up to four seats;
4. fills in one form per passenger;
5. pays;
6. meanwhile follows a four-step progress indicator.

A shared booking context carries the search parameters, the chosen train, wagon and seats, the passengers, the card draft and the finished order. It also derives the total price.

This project models the logic of that wizard as immutable datatypes and pure functions, and proves what each step promises. The models cover:

- the booking context's updates and total;
- seat toggling on the seat page and in the two seat-map components, and the seat layouts per wagon type;
- the passenger, passenger-form, card and search-form validators;
- the card-number, expiry, CVV, price and duration formatters;
- the search results' filters and sorts, and the minimum-price helpers;
- the mock branches of the API client: city search, route search with paging, seats, orders;
- the route and seat transformers;
- the order-step indicator.

Modules follow the program's files:

| module | file |
|---|---|
| `Booking` | the context |
| `SeatsPage` | the seat page |
| `PassengersPage` | the passenger page |
| `PassengerForm` | the passenger form |
| `PaymentPage` | the payment page |
| `PaymentMethod` | the payment method |
| `TicketSearch` | the search form |
| `SearchPage` | the search results |
| `Api` | the API client |
| `TransformData` | the transformers |
| `SeatMap` | the seat map |
| `SeatSelection` | the seat grid |
| `TrainCard` | the train card |
| `OrderSteps` | the progress indicator |

Five shared modules hold the rest:

- `Text`: characters, `trim`, digits, lower case and number rendering;
- `Seqs`: filter, remove, toggle and slice;
- `Options`: optional values and JavaScript's `||` fallback;
- `Dates`: ISO dates and ages;
- `ApiData`: the API's route records.

Inputs the application takes from the outside world become parameters:

- the current date and time;
- the random seat availability;
- generated ids and timestamps.

Error messages are modelled by one constructor per kind of error.

Conventions used throughout:

- Child fares are `Math.round(0.6·p)`. For an integer price this is the unique integer within 0.4 of `0.6·p`, because `0.6·p` is never a tie.
- Dates are `YYYY-MM-DD` texts, which is what the date inputs produce.
- Hours and timestamps are integers.

## Model

All source paths are under `train-tickets-spa/src/`.

| member | source | states |
|---|---|---|
| Booking.UpdateSearchParams | train-tickets-spa/src/context/TicketContext.js:44-49 | shallow merge: every key of the new parameters takes its new value, every other old key keeps its old value, no key is lost, nothing outside the search parameters changes |
| Booking.AddPassenger | train-tickets-spa/src/context/TicketContext.js:51-53 | the list grows by exactly one, the new passenger is last and all earlier entries are unchanged |
| Booking.UpdatePassenger | train-tickets-spa/src/context/TicketContext.js:55-61 | for an index inside the list: same length, that entry replaced, every other entry unchanged; at the length: appended; negative: list unchanged |
| Booking.RemovePassenger | train-tickets-spa/src/context/TicketContext.js:63-65 | for an index inside the list exactly that entry is dropped and the rest keep their order; any other index leaves the list unchanged |
| Booking.ChildFare | train-tickets-spa/src/context/TicketContext.js:77 | the child fare is within 0.4 of 0.6 times the price, i.e. the rounding of 0.6·price |
| Booking.ChildFareUnique | train-tickets-spa/src/context/TicketContext.js:77 | any integer within 0.5 of 0.6·price is the child fare, so the integer formula is exactly Math.round |
| Booking.Total | train-tickets-spa/src/context/TicketContext.js:72-80 | 0 without a wagon; otherwise adults × price + children × child fare, passengers of other types contributing nothing |
| Booking.TotalIsSumOfFares | train-tickets-spa/src/context/TicketContext.js:74-79 | counting adults and children and multiplying gives the same as adding up every passenger's own fare |
| Booking.TotalByPassenger | train-tickets-spa/src/context/TicketContext.js:72-80 | with a wagon, the total is the sum over the passengers of each one's fare |
| Booking.AdultsAndChildren | train-tickets-spa/src/context/TicketContext.js:75-76 | when every passenger is an adult or a child, the adults are all passengers but the children |
| Booking.ResetTicket | train-tickets-spa/src/context/TicketContext.js:82-95 | train, wagon and order cleared, seats and passengers empty, card draft blank, total 0, search parameters untouched |
| Booking.ResetIsInitial | train-tickets-spa/src/context/TicketContext.js:15-41 | a reset state is the initial state except for the search parameters it keeps |
| SeatsPage.AfterLoad | train-tickets-spa/src/pages/SeatsSelectionPage/SeatsSelectionPage.js:76-86 | the first wagon is chosen automatically only when none is chosen and the list is not empty; the seats are untouched |
| SeatsPage.HandleWagonSelect | train-tickets-spa/src/pages/SeatsSelectionPage/SeatsSelectionPage.js:88-92 | choosing a wagon makes it the chosen one and empties the seat selection |
| SeatsPage.HandleSeatSelect | train-tickets-spa/src/pages/SeatsSelectionPage/SeatsSelectionPage.js:94-104 | a selected seat is removed; an unselected one is appended while fewer than 4 are selected, otherwise the selection stays and the limit message is raised |
| SeatsPage.ToggleKeepsGood | train-tickets-spa/src/pages/SeatsSelectionPage/SeatsSelectionPage.js:94-104 | a duplicate-free selection of at most 4 stays so; a deselect removes exactly that seat and a select adds exactly it (as multisets) |
| SeatsPage.ClicksKeepGood | train-tickets-spa/src/pages/SeatsSelectionPage/SeatsSelectionPage.js:94-104 | any sequence of clicks from a good selection (in particular the empty one) leaves it duplicate-free with at most 4 seats |
| SeatsPage.ClicksSelectEnabled | train-tickets-spa/src/pages/SeatsSelectionPage/SeatsSelectionPage.js:295-306 | clicking only the enabled buttons of the grid (shown, within the wagon, not occupied) selects only such seats |
| SeatsPage.CalculateTotalPrice | train-tickets-spa/src/pages/SeatsSelectionPage/SeatsSelectionPage.js:106-109 | 0 without a wagon or seats, otherwise wagon price × number of seats |
| SeatsPage.HandleContinue | train-tickets-spa/src/pages/SeatsSelectionPage/SeatsSelectionPage.js:111-136 | an empty selection writes nothing; otherwise the context gets the trip, the wagon and the seats and keeps everything else |
| SeatsPage.ContinueTotalAgrees | train-tickets-spa/src/pages/SeatsSelectionPage/SeatsSelectionPage.js:106-109 | once continued with one adult per seat, the context's total equals the price the seat page showed |
| SeatsPage.IsSeatAvailable | train-tickets-spa/src/pages/SeatsSelectionPage/SeatsSelectionPage.js:152-155 | a seat is unavailable exactly when it is one of 3, 6, …, 30 |
| Dates.ParseIsoDate | train-tickets-spa/src/pages/PassengersPage/PassengersPage.js:105-107 | a date is read only from a ten-character YYYY-MM-DD text naming a real calendar day |
| Dates.ParseIsoString | train-tickets-spa/src/components/TicketSearch/TicketSearch.js:34-35 | the ISO date text of a calendar day reads back as that day |
| Dates.Age | train-tickets-spa/src/pages/PassengersPage/PassengersPage.js:114-120 | the age is the number of birthdays reached: that anniversary is reached, the next one is not |
| Dates.FutureBirthNegativeAge | train-tickets-spa/src/pages/PassengersPage/PassengersPage.js:123-125 | a birth date after today gives a negative age |
| Formats.EmailHasOneAt | train-tickets-spa/src/pages/PassengersPage/PassengersPage.js:181 | an address accepted by the e-mail pattern has exactly one `@` |
| Formats.CertificateReadings | train-tickets-spa/src/pages/PassengersPage/PassengersPage.js:166 | the certificate pattern holds exactly when the text splits into Roman numerals, a dash, two capitals, a dash and six digits |
| Formats.CertificateStrictImpliesLoose | train-tickets-spa/src/components/PassengerForm/PassengerForm.js:51 | a number matching the form's case-sensitive I/V/X pattern also matches the page's case-insensitive one |
| PassengersPage.ParsedBirthDateProblem | train-tickets-spa/src/pages/PassengersPage/PassengersPage.js:109-141 | a parsed birth date passes exactly when it is not in the future, its year is below 1990 and the age fits the category; the checks apply in that order, so a future date gets the future-date message, a later year the year message, and only then a child aged 10 or more the too-old message and an adult under 10 the too-young message |
| PassengersPage.BirthDateProblem | train-tickets-spa/src/pages/PassengersPage/PassengersPage.js:101-147 | a blank birth date is missing, an unreadable one invalid, a readable one goes through the ordered checks |
| PassengersPage.FieldProblem | train-tickets-spa/src/pages/PassengersPage/PassengersPage.js:88-184 | for each field, the exact condition under which it has an error: blank names, passport series/number not 4/6 digits, bad certificate, non-blank phone or e-mail not matching |
| PassengersPage.ValidatePassenger | train-tickets-spa/src/pages/PassengersPage/PassengersPage.js:88-187 | the error map has an entry for a field exactly when that field has a problem, holding that problem |
| PassengersPage.NoChildValidates | train-tickets-spa/src/pages/PassengersPage/PassengersPage.js:128-136 | from 2001 on no child passenger passes: born before 1990 means 10 or older |
| PassengersPage.ValidAdultBirth | train-tickets-spa/src/pages/PassengersPage/PassengersPage.js:101-141 | a valid adult has a readable birth date, not in the future, before 1990, with the tenth birthday reached |
| PassengersPage.ValidPassport | train-tickets-spa/src/pages/PassengersPage/PassengersPage.js:88-161 | a valid passport holder has non-blank names, a 4-digit series and a 6-digit number |
| PassengersPage.CalculateAge | train-tickets-spa/src/pages/PassengersPage/PassengersPage.js:340-361 | no age for an unreadable date; otherwise the number of birthdays reached by today |
| PassengersPage.ValidBirthDateHasAge | train-tickets-spa/src/pages/PassengersPage/PassengersPage.js:340-361 | a birth date the validator accepts has an age, and it is not negative |
| PassengersPage.BaseFare | train-tickets-spa/src/pages/PassengersPage/PassengersPage.js:64 | the wagon's price, or 2000 when the price is 0 |
| PassengersPage.PageTotal | train-tickets-spa/src/pages/PassengersPage/PassengersPage.js:56-86 | 0 when wagon, train, seats or passengers are missing; otherwise non-children × base fare + children × child fare |
| PassengersPage.PageTotalMatchesBooking | train-tickets-spa/src/pages/PassengersPage/PassengersPage.js:56-86 | with a priced wagon and only adults and children, the page's total equals the context's total |
| PassengersPage.SeatPrices | train-tickets-spa/src/pages/PassengersPage/PassengersPage.js:66-77 | the keys are exactly the passengers' seat numbers, and each seat holds the page fare of the last passenger on it |
| PassengersPage.HandleNext | train-tickets-spa/src/pages/PassengersPage/PassengersPage.js:220-262 | a count mismatch exactly when passengers and seats differ in number; payment exactly when all are valid; otherwise the cursor moves to the first invalid passenger and every invalid one is listed, in order |
| PassengersPage.AllPassengersValid | train-tickets-spa/src/pages/PassengersPage/PassengersPage.js:364-371 | the form is complete exactly when moving on would go to payment |
| PassengersPage.NewPassenger | train-tickets-spa/src/pages/PassengersPage/PassengersPage.js:266-283 | a new passenger is an adult on the given seat with a passport, bedding and no limited mobility |
| PassengersPage.InitPassengers | train-tickets-spa/src/pages/PassengersPage/PassengersPage.js:28-53 | with seats and no passengers, one adult per seat in seat order; otherwise nothing changes; only the passengers ever change |
| PassengersPage.HandleAddPassenger | train-tickets-spa/src/pages/PassengersPage/PassengersPage.js:264-288 | below the seat count a passenger for the next seat is added and edited; otherwise nothing changes |
| PassengersPage.HandleRemovePassenger | train-tickets-spa/src/pages/PassengersPage/PassengersPage.js:290-298 | the last passenger is never removed; otherwise the entry goes and a cursor at or after it steps back, not below 0 |
| PassengersPage.AddKeepsInvariants | train-tickets-spa/src/pages/PassengersPage/PassengersPage.js:264-288 | passengers stay on their seats in order and the cursor stays on a passenger |
| PassengersPage.RemoveKeepsCursor | train-tickets-spa/src/pages/PassengersPage/PassengersPage.js:290-298 | after a removal at least one passenger is left and the cursor is on one |
| PassengersPage.PassengerPriceAsWritten | train-tickets-spa/src/pages/PassengersPage/PassengersPage.js:329-337 | as written: 0 without a wagon; a seat with no stored price, or a stored 0, gives the corrected price; a stored non-zero price is taken as the base and a child discounted from it |
| PassengersPage.PassengerPriceDiscountsTwice | train-tickets-spa/src/pages/PassengersPage/PassengersPage.js:329-337 | a child on a 2000 wagon is charged 1200 in the total but listed at 720 |
| PassengersPage.PassengerPrice | train-tickets-spa/src/pages/PassengersPage/PassengersPage.js:329-337 | corrected: a child pays the rounding of 0.6 × base fare, anyone else the base fare, nobody anything without a wagon |
| PassengersPage.ListedPricesSumToTotal | train-tickets-spa/src/pages/PassengersPage/PassengersPage.js:329-337 | the corrected per-passenger prices add up to the page's total |
| PassengerForm.Defaults | train-tickets-spa/src/components/PassengerForm/PassengerForm.js:5-16 | every field takes its given non-empty initial value; a missing or empty one falls back to adult, male, passport or an empty text; the checkbox is set only by a given true |
| PassengerForm.DefaultsWithoutData | train-tickets-spa/src/components/PassengerForm/PassengerForm.js:5-16 | without initial data the form is an adult male with a passport and every text empty |
| PassengerForm.HandleChange | train-tickets-spa/src/components/PassengerForm/PassengerForm.js:20-31 | the edited field gets the typed value (the checked state for the checkbox), every other field is unchanged, and only that field's error is cleared |
| PassengerForm.FieldProblem | train-tickets-spa/src/components/PassengerForm/PassengerForm.js:33-57 | blank names are required and non-blank ones pass; an empty birth date is required, one read as a day after today is in the future, and any other passes; the certificate number is checked only for a child with a birth certificate |
| PassengerForm.Validate | train-tickets-spa/src/components/PassengerForm/PassengerForm.js:33-57 | the error map has an entry for a field exactly when that field has a problem |
| PassengerForm.HandleSubmit | train-tickets-spa/src/components/PassengerForm/PassengerForm.js:59-68 | the data is saved exactly when no field has a problem; otherwise the non-empty error map is shown and the data kept |
| PassengerForm.SavedFormIsComplete | train-tickets-spa/src/components/PassengerForm/PassengerForm.js:59-68 | a saved form has both names, a birth date, and no readable birth date in the future |
| PassengerForm.StrictCertificateIsAcceptedByPage | train-tickets-spa/src/components/PassengerForm/PassengerForm.js:50-54 | a certificate number the form accepts is accepted by the passenger page too |
| PassengerForm.LowerCaseCertificateOnlyOnPage | train-tickets-spa/src/components/PassengerForm/PassengerForm.js:50-54 | a lower-case number such as `iv-аб-123456` passes the page but not the form |
| PassengerForm.UnparseableDateOnlyOnForm | train-tickets-spa/src/components/PassengerForm/PassengerForm.js:44-48 | a date the page cannot read (`31.12.1980`) passes the form's check but is invalid on the page |
| PaymentPage.ValidateCardData | train-tickets-spa/src/pages/PaymentPage/PaymentPage.js:44-62 | the card is valid exactly when the payment component reports no field error; then it has 16 non-space characters, a 3-character CVV and a holder |
| PaymentPage.CardFormValid | train-tickets-spa/src/pages/PaymentPage/PaymentPage.js:35-42 | any method but the card is valid; the card method is valid exactly when the card is |
| PaymentPage.CanProceed | train-tickets-spa/src/pages/PaymentPage/PaymentPage.js:141 | payment is possible exactly with the agreement and either a non-card method or a valid card |
| PaymentPage.GetPassengerTypeCount | train-tickets-spa/src/pages/PaymentPage/PaymentPage.js:77-81 | adults and children are the passengers of exactly those types, and together no more than all of them |
| PaymentPage.DiscountAsWrittenValue | train-tickets-spa/src/pages/PaymentPage/PaymentPage.js:83-89 | as written the "discount" is adults × child fare + children × full price |
| PaymentPage.DiscountAsWrittenWithoutChildren | train-tickets-spa/src/pages/PaymentPage/PaymentPage.js:83-89 | one adult on a 1000 wagon, no child, is shown a discount of 600 |
| PaymentPage.Discount | train-tickets-spa/src/pages/PaymentPage/PaymentPage.js:83-89 | corrected: the discount is children × (price − child fare), what the children save |
| PaymentPage.DiscountOnlyForChildren | train-tickets-spa/src/pages/PaymentPage/PaymentPage.js:83-89 | the corrected discount is never negative and is 0 without children |
| PaymentPage.OrderSnapshot | train-tickets-spa/src/pages/PaymentPage/PaymentPage.js:110-120 | the order copies train, wagon, seats, passengers and method, charges the context's total and is paid |
| PaymentPage.HandlePayment | train-tickets-spa/src/pages/PaymentPage/PaymentPage.js:91-132 | without the agreement it stops first, then on an invalid card; it pays exactly when payment is possible, and only then stores the order |
| PaymentPage.PaidOrderCharges | train-tickets-spa/src/pages/PaymentPage/PaymentPage.js:110-120 | a paid order charges the sum of its passengers' fares |
| PaymentMethod.FormatCardNumber | train-tickets-spa/src/components/PaymentMethod/PaymentMethod.js:50-55 | at most 19 characters whose digits are the first 16 digits of the input, in order, and nothing else once spaces are removed |
| PaymentMethod.Group4Content | train-tickets-spa/src/components/PaymentMethod/PaymentMethod.js:53 | grouping digits in fours adds only spaces |
| PaymentMethod.Group4Spaces | train-tickets-spa/src/components/PaymentMethod/PaymentMethod.js:53 | the spaces of a grouping are exactly at every fifth position |
| PaymentMethod.FormatCardNumberIdempotent | train-tickets-spa/src/components/PaymentMethod/PaymentMethod.js:50-55 | formatting a formatted number changes nothing |
| PaymentMethod.FormatExpiry | train-tickets-spa/src/components/PaymentMethod/PaymentMethod.js:58-63 | keeps the first 4 digits; a slash follows the first two exactly when there are at least two; four digits give an MM/YY text |
| PaymentMethod.FormatExpiryIdempotent | train-tickets-spa/src/components/PaymentMethod/PaymentMethod.js:58-63 | formatting a formatted expiry changes nothing |
| PaymentMethod.FormatCvv | train-tickets-spa/src/components/PaymentMethod/PaymentMethod.js:66-68 | the first digits of the input, at most 3, and exactly 3 when there are that many |
| PaymentMethod.FormatCvvIdempotent | train-tickets-spa/src/components/PaymentMethod/PaymentMethod.js:66-68 | formatting a formatted CVV changes nothing |
| PaymentMethod.HandleCardChange | train-tickets-spa/src/components/PaymentMethod/PaymentMethod.js:45-80 | the edited field gets its formatted value, every other field is unchanged, and only that field's error is cleared |
| PaymentMethod.ValidateCard | train-tickets-spa/src/components/PaymentMethod/PaymentMethod.js:82-102 | a field is reported exactly when its rule fails |
| PaymentMethod.FormattedInputsValidate | train-tickets-spa/src/components/PaymentMethod/PaymentMethod.js:82-102 | inputs with enough digits, once formatted, fail validation only for a blank holder |
| PaymentMethod.HandleSubmit | train-tickets-spa/src/components/PaymentMethod/PaymentMethod.js:104-115 | for the card method with errors the errors are shown; otherwise nothing changes; the card data is never changed. The card form has four text inputs and no submit button, so no user action on the page submits it |
| TicketSearch.ParseInt | train-tickets-spa/src/components/TicketSearch/TicketSearch.js:48 | parseInt gives no number exactly when no digit follows the leading blanks and sign; a negative result needs a leading minus |
| TicketSearch.ParseIntRoundTrip | train-tickets-spa/src/components/TicketSearch/TicketSearch.js:48 | the decimal text of an integer parses back to it |
| TicketSearch.HandleChange | train-tickets-spa/src/components/TicketSearch/TicketSearch.js:39-61 | a text field takes the value and loses its error; a counter takes the parsed number or 0, while the other counters, the texts, the dates, the ticket type and the messages stay as they were |
| TicketSearch.HandlePassengerChange | train-tickets-spa/src/components/TicketSearch/TicketSearch.js:63-71 | the counter moves by delta, clamped at 0; the other counters and fields are unchanged |
| TicketSearch.CountersStayNonNegative | train-tickets-spa/src/components/TicketSearch/TicketSearch.js:63-71 | counters that start non-negative stay non-negative |
| TicketSearch.KeyProblem | train-tickets-spa/src/components/TicketSearch/TicketSearch.js:73-112 | the exact condition for each error, including which message wins: equal cities over a blank destination, children without an adult over no passengers |
| TicketSearch.Validate | train-tickets-spa/src/components/TicketSearch/TicketSearch.js:73-112 | the error map has an entry for a key exactly when that key has a problem |
| TicketSearch.ValidateIgnoresSeatlessChildren | train-tickets-spa/src/components/TicketSearch/TicketSearch.js:102-109 | the number of children without a seat never changes the errors |
| TicketSearch.PassengerRuleNeedsAnAdult | train-tickets-spa/src/components/TicketSearch/TicketSearch.js:102-109 | the passenger rules pass exactly when there is an adult |
| TicketSearch.SearchData | train-tickets-spa/src/components/TicketSearch/TicketSearch.js:119-123 | the submitted parameters are the form's fields plus the trip kind and adults + children as the passenger total |
| TicketSearch.HandleSubmit | train-tickets-spa/src/components/TicketSearch/TicketSearch.js:114-130 | the search parameters are merged in exactly when there are no errors; otherwise the context is untouched and the non-empty errors are shown |
| TicketSearch.SwapCities | train-tickets-spa/src/components/TicketSearch/TicketSearch.js:132-138 | origin and destination are exchanged and nothing else changes |
| TicketSearch.SwapInvolution | train-tickets-spa/src/components/TicketSearch/TicketSearch.js:132-138 | swapping twice gives back the form, and swapping does not change whether the cities are equal |
| SearchPage.WagonList | train-tickets-spa/src/pages/SearchPage/SearchPage.js:108-133 | one entry per flagged class with a positive price, in the order first to fourth, and no other; each entry carries its class's bottom price, free seats and top price, each 0 when absent or 0 |
| SearchPage.WagonListMatchesFormatter | train-tickets-spa/src/pages/SearchPage/SearchPage.js:108-133 | the results list and the route formatter of the API service build the same wagons: entry by entry the same class, bottom price, free seats and top price |
| SearchPage.FindRange | train-tickets-spa/src/pages/SearchPage/SearchPage.js:172 | the price range with the given id, or none when no range has it |
| SearchPage.HandleResetFilters | train-tickets-spa/src/pages/SearchPage/SearchPage.js:253-262 | every filter is back to "all", "any" or off |
| SearchPage.Relevant | train-tickets-spa/src/pages/SearchPage/SearchPage.js:233-235 | the train's wagons of the chosen type, or all of them for "all" |
| SearchPage.TrainMinPrice | train-tickets-spa/src/pages/SearchPage/SearchPage.js:232-240 | infinite without a relevant wagon, otherwise the price of a relevant wagon that no relevant wagon undercuts |
| SearchPage.HourBucketsPartition | train-tickets-spa/src/pages/SearchPage/SearchPage.js:187-196 | every hour 0..23 falls in exactly one of morning, day, evening and night |
| SearchPage.FilterTrains | train-tickets-spa/src/pages/SearchPage/SearchPage.js:160-207 | the filtered trains are a sub-multiset of the loaded ones, so filtering invents no train |
| SearchPage.FilterTrainsIsFilter | train-tickets-spa/src/pages/SearchPage/SearchPage.js:160-207 | the filters in turn keep exactly what one `filter` by all the criteria keeps: every passing train, every time it occurs, in loading order |
| SearchPage.FilterTrainsMembers | train-tickets-spa/src/pages/SearchPage/SearchPage.js:160-207 | a train is kept exactly when it passes every active filter |
| SearchPage.PriceStepsMember | train-tickets-spa/src/pages/SearchPage/SearchPage.js:165-184 | the type filter keeps trains with a wagon of that type; the price filter keeps trains whose least relevant price lies in the range, dropping trains without one |
| SearchPage.FlagStepsMember | train-tickets-spa/src/pages/SearchPage/SearchPage.js:187-207 | the hour filter keeps trains in the chosen bucket and each checked amenity keeps only trains that have it |
| SearchPage.Sort | train-tickets-spa/src/pages/SearchPage/SearchPage.js:210-226 | the result is ordered by the key and is a permutation of the input |
| SearchPage.KeyOrderMeaning | train-tickets-spa/src/pages/SearchPage/SearchPage.js:210-226 | ordering by the sort key means cheaper first, dearer first, shorter first, or earlier first, as chosen |
| SearchPage.SortedMeaning | train-tickets-spa/src/pages/SearchPage/SearchPage.js:210-226 | a list ordered by the key is non-decreasing in that sense between any two positions |
| SearchPage.ApplyFilters | train-tickets-spa/src/pages/SearchPage/SearchPage.js:160-229 | the shown trains are exactly the loaded ones that pass the filters, each as often as it was loaded, ordered as chosen |
| SearchPage.ResetShowsAll | train-tickets-spa/src/pages/SearchPage/SearchPage.js:253-262 | after a reset every loaded train is shown again |
| ApiData.RoutePriceInfo | train-tickets-spa/src/services/api.js:405 | the departure's price information when it has one, otherwise the route's own |
| ApiData.OfferedClasses | train-tickets-spa/src/services/api.js:447-484 | the classes that are flagged and have a positive price, in class order, at most four |
| ApiData.Rendered | train-tickets-spa/src/utils/transformData.js:7 | a missing name is rendered as `undefined` in a template text |
| Api.GetMinPrice | train-tickets-spa/src/services/api.js:404-418 | 0 without price information or without a non-zero bottom price; otherwise one of the non-zero bottom prices, none lower (negative prices count) |
| Api.FormatRouteForUI | train-tickets-spa/src/services/api.js:420-486 | the id is `_id` when given, else `id`; each name, station and time is the departure's value when given, else `Unknown` or the given now and now + 8 h; the number is the train's number, else its name, else `Unknown`; duration falls back to 0; the minimum price is `getMinPrice` of the route; price and seat information and amenities are copied; one wagon per offered class, all priced |
| Api.FormattedWagons | train-tickets-spa/src/services/api.js:447-484 | a class has a wagon exactly when offered; wagons are numbered by a single digit in increasing order and have distinct ids |
| Api.MinPriceAtMostWagonPrices | train-tickets-spa/src/services/api.js:440-484 | the route's minimum price is at most the price of each of its wagons |
| Api.SearchCitiesMock | train-tickets-spa/src/services/api.js:499-505 | the mock cities whose lower-cased name contains the lower-cased query, in list order |
| Api.EmptyQueryListsAll | train-tickets-spa/src/services/api.js:501-503 | the empty query lists every city |
| Api.QueryIgnoresCase | train-tickets-spa/src/services/api.js:501-503 | an upper-case query finds a mixed-case name |
| Api.KeepPassing | train-tickets-spa/src/services/api.js:534-569 | one filter keeps exactly the routes it accepts, and fails when a route lacks the field it reads |
| Api.FilterChain | train-tickets-spa/src/services/api.js:531-569 | the filters in turn keep exactly the routes passing every active criterion, as a sub-multiset |
| Api.ReadableChainSucceeds | train-tickets-spa/src/services/api.js:531-569 | routes that all carry both city ids never make the filters fail |
| Api.Page | train-tickets-spa/src/services/api.js:572-574 | the page is the slice from offset to offset + limit, clipped to the list |
| Api.SearchRoutesMock | train-tickets-spa/src/services/api.js:523-624 | on success the page of the filtered routes with their count as total; on failure the first `limit` mock routes with the mock total |
| Api.ConsecutivePages | train-tickets-spa/src/services/api.js:572-574 | the pages of two queries whose windows `a..b` and `b..c` meet, read one after the other, are the window `a..c` of the results |
| Api.RequestedTypes | train-tickets-spa/src/services/api.js:668-677 | the requested classes in class order, or second class when none is requested |
| Api.WagonSeats | train-tickets-spa/src/services/api.js:679-692 | a wagon's seats are numbered 1..N, belong to that wagon and carry its class price |
| Api.GetRouteSeatsMock | train-tickets-spa/src/services/api.js:663-701 | the total is the number of seats generated for the requested classes, each priced by its class |
| Api.DefaultSeats | train-tickets-spa/src/services/api.js:675-677 | without a requested class there are 36 second-class seats at 2500 |
| Api.AllClassesSeats | train-tickets-spa/src/services/api.js:679-693 | all four classes give 36 + 36 + 36 + 60 = 168 seats |
| Api.SeatTotalWithoutPrices | train-tickets-spa/src/services/api.js:742 | seats without a price cost 2500 each |
| Api.CreateOrderMock | train-tickets-spa/src/services/api.js:722-768 | a complete order is confirmed with the sum of its seat prices; an incomplete one falls back to the mock id and the sum, or 2500 when that is 0 or there are no seats |
| Api.OrderWithoutSeatsIsCharged | train-tickets-spa/src/services/api.js:761 | an order whose departure has no seats is still confirmed at 2500 |
| TransformData.GetMinPriceFromRoute | train-tickets-spa/src/utils/transformData.js:56-68 | 0 without price information or without a positive bottom price; otherwise one of the positive bottom prices, none lower |
| TransformData.NegativePriceOnlyCountsInService | train-tickets-spa/src/utils/transformData.js:65 | with bottom prices −5 and 100 the API client reports −5 while the transformer reports 100 |
| TransformData.HelpersAgreeWithoutNegativePrices | train-tickets-spa/src/utils/transformData.js:56-68 | when no bottom price is negative both minimum-price helpers agree |
| TransformData.SplitMinutes | train-tickets-spa/src/utils/transformData.js:78-82 | for non-negative minutes, 60 × hours + minutes = total with minutes below 60; for negative ones the JavaScript floor and remainder |
| TransformData.FormatDuration | train-tickets-spa/src/utils/transformData.js:78-82 | non-negative minutes are shown as whole hours, then the remaining minutes |
| TransformData.TransformRouteData | train-tickets-spa/src/utils/transformData.js:1-35 | none in, none out; without a departure every departure field is absent and the name reads `undefined → undefined`; otherwise the id is the departure's `_id` when given, else the route's, the train number its train's `_id`, else the route's train name, and the cities, stations, dates, duration, classes, amenities, price and seat information are the departure's |
| TransformData.ViewAgreesWithFormatter | train-tickets-spa/src/utils/transformData.js:1-35 | for a route with a departure, the API service's formatter shows the route card's names, stations, times and duration, or its fallbacks where they are absent, with the same price and seat information and amenities; names agree when both cities are given, minimum prices when no bottom price is negative |
| TransformData.CoachViewOf | train-tickets-spa/src/utils/transformData.js:43-51 | a coach keeps its seats, one view per seat in order |
| TransformData.TransformSeatsData | train-tickets-spa/src/utils/transformData.js:37-54 | none in, none out; absent coaches become an empty list; otherwise coaches keep count and order and the totals are copied |
| TransformData.TransformKeepsSeats | train-tickets-spa/src/utils/transformData.js:43-52 | the transformed coaches hold as many seats as the received ones |
| SeatMap.Layout | train-tickets-spa/src/components/SeatMap/SeatMap.js:10-18 | 36 seats, seat k has id and number k, the given availability and price 2500 |
| SeatMap.LayoutGeometry | train-tickets-spa/src/components/SeatMap/SeatMap.js:13-14 | compartments 1..9, positions 1..4, and the number is fixed by compartment and position |
| SeatMap.EveryPlaceHasASeat | train-tickets-spa/src/components/SeatMap/SeatMap.js:13-14 | every compartment/position pair holds exactly the seat 4·(c − 1) + p |
| SeatMap.UpperIffOddPosition | train-tickets-spa/src/components/SeatMap/SeatMap.js:15 | a seat is upper exactly when its position is odd |
| SeatMap.LeftSide | train-tickets-spa/src/components/SeatMap/SeatMap.js:74 | a seat is shown on the left exactly when it is on the map at position 1 or 2 |
| SeatMap.RightSide | train-tickets-spa/src/components/SeatMap/SeatMap.js:94 | a seat is shown on the right exactly when it is on the map at position 3 or 4 |
| SeatMap.LeftSideInOrder | train-tickets-spa/src/components/SeatMap/SeatMap.js:74 | the left side of the map lists seats 1, 2, 5, 6, 9, 10, … in the layout's order |
| SeatMap.RightSideInOrder | train-tickets-spa/src/components/SeatMap/SeatMap.js:94 | the right side of the map lists seats 3, 4, 7, 8, 11, 12, … in the layout's order |
| SeatMap.SidesHalve | train-tickets-spa/src/components/SeatMap/SeatMap.js:74-94 | the two sides split the 36 seats into 18 and 18 |
| SeatMap.SeatLabel | train-tickets-spa/src/components/SeatMap/SeatMap.js:32-35 | positions 1..4 get their label, any other position the first |
| SeatMap.LabelAgreesWithSeat | train-tickets-spa/src/components/SeatMap/SeatMap.js:32-35 | a seat's label says upper or lower exactly as its berth, and left exactly when it is on the left side |
| SeatMap.HandleSeatClick | train-tickets-spa/src/components/SeatMap/SeatMap.js:20-30 | an occupied seat changes nothing; otherwise the seat is removed if selected, appended if not, with no limit |
| SeatMap.ClickKeepsIds | train-tickets-spa/src/components/SeatMap/SeatMap.js:10-30 | whatever a render draws, a click keeps the selection a duplicate-free list of seat ids 1..36, and a seat it adds is free in that render |
| SeatMap.SecondClickUndoes | train-tickets-spa/src/components/SeatMap/SeatMap.js:10-30 | a seat picked in one render and clicked again in a later render that still draws it free is deselected |
| SeatMap.RedrawnOccupiedStaysSelected | train-tickets-spa/src/components/SeatMap/SeatMap.js:113-124 | a seat picked in one render and drawn occupied in the next stays selected: neither its map button nor its remove button takes it out |
| SeatMap.ClickChangesTotal | train-tickets-spa/src/components/SeatMap/SeatMap.js:20-39 | a click on a free seat moves the total by 2500, up when picked and down when dropped; an occupied seat leaves it |
| SeatMap.FindSeat | train-tickets-spa/src/components/SeatMap/SeatMap.js:113-115 | the first seat with the id, or none when there is none |
| SeatMap.FindInLayout | train-tickets-spa/src/components/SeatMap/SeatMap.js:113-115 | in the 36-seat layout the seat found for id n is seat n, and ids outside 1..36 find nothing |
| SeatMap.TotalMatchesListed | train-tickets-spa/src/components/SeatMap/SeatMap.js:37-39 | the total equals the sum of the prices listed for the selected seats |
| SeatMap.ClearSelection | train-tickets-spa/src/components/SeatMap/SeatMap.js:41-43 | nothing is selected and the total is 0 |
| SeatSelection.Capacity | train-tickets-spa/src/components/SeatSelection/SeatSelection.js:9-15 | a type has seats exactly when it is sitting, platzkart, coupe or lux |
| SeatSelection.GenerateSeats | train-tickets-spa/src/components/SeatSelection/SeatSelection.js:18-70 | 60/54/36/18 seats numbered 1..N in order, each at the type's price, with the given availability and the type's berth rule |
| SeatSelection.GridExactlyForKnownTypes | train-tickets-spa/src/components/SeatSelection/SeatSelection.js:7-16 | only the four known types have a grid, and its ids are distinct |
| SeatSelection.PlatzkartLowers | train-tickets-spa/src/components/SeatSelection/SeatSelection.js:31-43 | a platzkart wagon has 36 lower berths |
| SeatSelection.CoupeLowers | train-tickets-spa/src/components/SeatSelection/SeatSelection.js:45-57 | a coupe wagon has 18 lower berths |
| SeatSelection.HandleSeatClick | train-tickets-spa/src/components/SeatSelection/SeatSelection.js:72-80 | nothing is emitted for an occupied seat; otherwise the emitted selection has the seat removed, or appended when absent |
| SeatSelection.ClickTwiceRestores | train-tickets-spa/src/components/SeatSelection/SeatSelection.js:72-80 | emitted selections stay duplicate-free and two clicks on a free seat restore the selection |
| SeatSelection.SeatsAsWritten | train-tickets-spa/src/components/SeatSelection/SeatSelection.js:5 | as written the grid looks up the whole wagon object and is always empty |
| SeatSelection.SeatsForWagon | train-tickets-spa/src/components/SeatSelection/SeatSelection.js:7-16 | corrected: the wagon's type decides the grid, so a known type gets its seats at its price |
| SeatSelection.CoupeWagonGrid | train-tickets-spa/src/components/SeatSelection/SeatSelection.js:5 | a coupe wagon shows no seat as written and 36 as intended |
| SeatSelection.WagonTypeName | train-tickets-spa/src/components/SeatSelection/SeatSelection.js:122-130 | the four known types get a Russian name, any other id is returned unchanged |
| SeatSelection.NamesMatchRouteLabels | train-tickets-spa/src/components/SeatSelection/SeatSelection.js:122-130 | the grid's names are the route formatter's labels of first, second, third and fourth class |
| TrainCard.FormatPrice | train-tickets-spa/src/components/TrainCard/TrainCard.js:43-45 | read without its spaces the text is the number's decimal text, and the digits stand in groups of three counted from the right, a minus kept in front |
| TrainCard.GroupingAgrees | train-tickets-spa/src/components/TrainCard/TrainCard.js:44 | spacing from the left by remaining length is grouping in threes from the right |
| TrainCard.UngroupDigits | train-tickets-spa/src/components/TrainCard/TrainCard.js:44 | removing the spaces of a grouping gives back the digits |
| TrainCard.PriceExample | train-tickets-spa/src/components/TrainCard/TrainCard.js:43-45 | 12500 is shown as `12 500` |
| TrainCard.DurationReadsBack | train-tickets-spa/src/components/TrainCard/TrainCard.js:27-31 | the travel time reads as hours and minutes whose value is the minutes given, the minutes below 60 |
| TrainCard.ClassIdsShownRaw | train-tickets-spa/src/components/TrainCard/TrainCard.js:33-41 | as written a card names a first..fourth wagon by its raw id |
| TrainCard.WagonName | train-tickets-spa/src/components/TrainCard/TrainCard.js:33-41 | corrected: the API classes get the search page's labels, other types the seat grid's names |
| TrainCard.ClassesNamed | train-tickets-spa/src/components/TrainCard/TrainCard.js:83 | every wagon of the search results gets its Russian label, never its id |
| OrderSteps.FindStep | train-tickets-spa/src/components/OrderSteps/OrderSteps.js:14-16 | the first step whose path starts the pathname, or −1 when none does |
| OrderSteps.CurrentStep | train-tickets-spa/src/components/OrderSteps/OrderSteps.js:14-16 | between 0 and 4; 0 exactly when no path starts the pathname; otherwise that step's path does |
| OrderSteps.PathsIndependent | train-tickets-spa/src/components/OrderSteps/OrderSteps.js:5-10 | no step's path is a prefix of another's |
| OrderSteps.CurrentStepIffPrefix | train-tickets-spa/src/components/OrderSteps/OrderSteps.js:14-16 | step k is current exactly when its path starts the pathname |
| OrderSteps.CurrentStepExamples | train-tickets-spa/src/components/OrderSteps/OrderSteps.js:5-16 | `/payment` is step 3, `/passengers/2` step 2 and `/` none |
| OrderSteps.CircleOf | train-tickets-spa/src/components/OrderSteps/OrderSteps.js:25-31 | completed before the current step, active at it, never both; a check mark when completed, the number otherwise |
| OrderSteps.LineCompleted | train-tickets-spa/src/components/OrderSteps/OrderSteps.js:38 | a completed line follows a completed step |
| OrderSteps.StepIds | train-tickets-spa/src/components/OrderSteps/OrderSteps.js:5-10 | the steps are numbered 1 to 4 in order |
| OrderSteps.OneActiveStep | train-tickets-spa/src/components/OrderSteps/OrderSteps.js:25-27 | at most one circle is active, the current step's is, and the completed ones are those before it |
| OrderSteps.LineFollowsNextStep | train-tickets-spa/src/components/OrderSteps/OrderSteps.js:36-39 | the line after a step is completed exactly when the next step is |
| Text.Trim | train-tickets-spa/src/components/TicketSearch/TicketSearch.js:76 | `trim` gives the slice of the text that starts after its leading white space; every character before and after that slice is white space, the slice neither starts nor ends with white space, and it is empty exactly for a blank text |
| Text.LeadingBlank | train-tickets-spa/src/components/TicketSearch/TicketSearch.js:76 | the number of characters `trim` strips at the start: all of them white space, and the next character, if any, is not |
| Text.TrimBetween | train-tickets-spa/src/components/TicketSearch/TicketSearch.js:76 | any slice with only white space outside it and no white space at its ends is what `trim` returns, so the trimmed text is unique |
| Text.TrimUntouched | train-tickets-spa/src/components/TicketSearch/TicketSearch.js:76 | a text with no white space at either end comes back from `trim` unchanged |
| Text.TrimPadded | train-tickets-spa/src/components/TicketSearch/TicketSearch.js:76 | a text without blanks at its ends, padded with any white space, trims back to itself |
| Text.SpacesRemovedInOrder | train-tickets-spa/src/components/PaymentMethod/PaymentMethod.js:85 | removing white space keeps exactly the other characters, in their order |
| Text.DigitsInOrder | train-tickets-spa/src/components/PaymentMethod/PaymentMethod.js:51 | removing non-digits keeps exactly the digits, in their order |
| Text.Lower | train-tickets-spa/src/services/api.js:502 | lower-casing maps Latin and Cyrillic capitals to their small letters, one for one |
| Text.JsRem | train-tickets-spa/src/utils/transformData.js:80 | JavaScript's `%` takes the sign of the dividend |

## Left out

- HTTP, logging and the axios instance: only the mock branches of the API client are modelled. `getRouteDetails`, `getOrder`, `subscribeToEmail`, `getAllCities` and `testConnection` are network calls and are not modelled. Neither is the real-API branch of `searchRoutes`, `getRouteSeats` or `createOrder`.
- The fall-back path of `searchCities` (api.js:511-519) repeats the mock filter and is not modelled separately.
- The search page's `fetch` and its mapping of API items to trains: only the wagon list of that mapping (`SearchPage.WagonList`) is modelled. A train is otherwise given by its filterable fields: wagons, departure hour, departure stamp, duration and amenity flags.
- `getMockTrains` and the last-ticket click of the search page are fixed display data and are not modelled.
- Randomness: seat availability (SeatMap, SeatSelection, mock seats), `selectingCount` and random order ids are parameters or left out. The mock seats' availability count is not modelled. SeatMap draws availability anew on every render, so each click takes the availability of its own render as a separate parameter; which draws happen is not modelled.
- Timers and the current time: the loading delays are dropped. "Today", "now" and "now + 8 h" are parameters.
- TicketSearch's default-dates effect (TicketSearch.js:27-37) reads the clock and is not modelled.
- Locale formatting: `toLocaleDateString`, `toLocaleTimeString`, `toLocaleString` and `Intl.NumberFormat` are not modelled. This covers TrainCard's `formatTime`, transformData's `formatPrice` and `formatDateTime`, and the pages' `formatPrice`/`formatDate`.
- `getHours` is replaced by an hour given with each train, and `new Date(...)` comparison of departure times by an integer stamp.
- Floating point: the average price and duration of the search page are not modelled.
- The child fare is modelled as the exact rounding of 0.6·p. Float error would need prices beyond 2^50.
- `Dates.ParseIsoDate` reads only `YYYY-MM-DD` texts. JavaScript's `Date` also accepts other formats; those are treated as unreadable. The time zone is taken as UTC. A well-formed text naming a day that does not exist, such as `2023-02-30`, is rejected here, while some engines roll it over to a later day; that roll-over is not modelled.
- `TicketSearch.ParseInt` does not model `parseInt` beyond 2^53 or on non-decimal prefixes such as `0x`.
- String lengths count code points, not UTF-16 units. No text here has a character outside the basic plane.
- `Text.Lower` covers ASCII and basic Cyrillic (with Ё) only, not all of Unicode.
- React machinery: hooks, effect order, `navigate`, `alert` and `window.print` are replaced by before/after functions and outcome constructors.
- `handleSavePassenger` of the passenger page is not modelled: it is the form's save callback, and the form's own gate (`PassengerForm.HandleSubmit`) and the context's `UpdatePassenger`/`AddPassenger` are.
- The payment page without a selected wagon: its render computes the discount (PaymentPage.js:135), which reads the price of the selected wagon (PaymentPage.js:85) while the wagon is still `null` (TicketContext.js:28), so the render throws before the redirect effect (PaymentPage.js:28-32) can run. The discount members (`PaymentPage.DiscountAsWritten`, `PaymentPage.Discount` and the lemmas about them) therefore require a selected wagon; the crash and the redirect are not modelled.
- The list of payment methods (PaymentMethod.js:4-40) is display data and is not modelled.
- `setOrder` (TicketContext.js:68-70) is the single field write inside `PaymentPage.HandlePayment`.
- Cleared error messages: the forms set a cleared message to `''`, which every reader treats as no error. The model removes the key instead.
- An absent boolean flag is read as false.
- `getWagonTypeName` looks the type up in a plain object, so inherited names such as `toString` would return a function. Such ids are not modelled.
- The seat page's own `getWagonTypeName` (SeatsSelectionPage.js:142-150) is the same table as `SeatSelection.WagonTypeName`.
- The received coach record is always present and always holds a seat list in `TransformData`'s input type, so the `TypeError` that `transformSeatsData` raises for a coach without `coach` or without `seats` (transformData.js:43-51) is not modelled.
- Without a departure record, `transformRouteData` still returns the class and amenity groups as objects whose fields are all `undefined` (transformData.js:20-31); `TransformData.TransformRouteData` gives `None` for both groups, since an object with only `undefined` fields carries no information.
- TrainCard's `formatDuration` (TrainCard.js:27-31) is the same function as transformData's, modelled once as `TransformData.FormatDuration`.
- SeatMap's free-seat count and the other presentational parts (Header, Footer, LastTickets, WagonTypeSelector, MainPage, ConfirmationPage, OrderSuccessPage, LoadingScreen, App, index) are not modelled.
- SearchPage.Sort: stability (equal keys keep their order, as `Array.prototype.sort` guarantees) is not proved, only order and permutation.
- Booking.UpdatePassenger: requires the index to be at most the list's length. Writing further out would leave holes in a JavaScript array, which a sequence cannot hold.
- Booking.Total: the type of a passenger is compared as a whole string, as in the source. A wagon price that is not an integer is not modelled.
- TransformData.FormatDuration: states the text only for non-negative minutes. Negative minutes follow `Math.floor` and `%` (see `TransformData.SplitMinutes`) but no travel time is negative.
- PaymentPage.Discount: states the value only when every passenger is an adult or a child, the only two types the forms offer.
- SearchPage.TrainMinPrice: a wagon price is a finite integer. `Infinity` is a separate bound, and NaN prices are not modelled.
- PassengersPage.PageTotalMatchesBooking: holds only when the wagon price is not 0. With price 0 the page falls back to 2000 and the context does not.

## Findings

| source | as written | input that shows it | evidently intended | confidence | as-written member | corrected member |
|---|---|---|---|---|---|---|
| train-tickets-spa/src/pages/PassengersPage/PassengersPage.js:329-337 | `getPassengerPrice` starts from the stored seat price, which the total effect already discounted for a child, and discounts it again | a child on a wagon priced 2000: the total counts 1200, the passenger's line shows 720 | a child's line shows the child fare once, so the lines add up to the total | not executed | PassengersPage.PassengerPriceAsWritten, PassengersPage.PassengerPriceDiscountsTwice | PassengersPage.PassengerPrice, PassengersPage.ListedPricesSumToTotal |
| train-tickets-spa/src/pages/PaymentPage/PaymentPage.js:83-89 | `calculateDiscount` charges every passenger the adult and the child fare together, then subtracts the total | one adult, no child, wagon priced 1000: a discount of 600 is shown | the discount is what the children save: children × (price − child fare), 0 without children | not executed | PaymentPage.DiscountAsWrittenValue, PaymentPage.DiscountAsWrittenWithoutChildren | PaymentPage.Discount, PaymentPage.DiscountOnlyForChildren |
| train-tickets-spa/src/components/SeatSelection/SeatSelection.js:5 | `generateSeats(wagon)` passes the whole wagon object, which as a property key is `[object Object]`, so the lookup always misses | any wagon, for instance a coupe: 0 seats | the grid of the wagon's type, 36 seats for a coupe | not executed | SeatSelection.SeatsAsWritten, SeatSelection.CoupeWagonGrid | SeatSelection.SeatsForWagon |
| train-tickets-spa/src/components/TrainCard/TrainCard.js:33-41 | the card's names cover sitting/platzkart/coupe/lux, but the search results type their wagons first..fourth (SearchPage.js:108-133) | a first-class wagon: the card shows `first` | the labels the search page's type filter gives the classes (SearchPage.js:21-27): Люкс, Купе, Плацкарт, Сидячий | not executed | TrainCard.ClassIdsShownRaw | TrainCard.WagonName, TrainCard.ClassesNamed |
