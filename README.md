# renta-carros in Dafny

A model of the business logic of *renta-carros*, a React application for a car
rental company, with proofs about it. The model covers:

- **Rental orders** (the `Alquileres` page). This is the one real business
  rule: the price of a rental, computed from the vehicle's daily rate and the
  rental's start and end dates. The subtotal is rate × days, the tax is 12 % of
  it, the total is the sum of the two rounded amounts, and the deposit depends
  on the vehicle category. The model also covers:
  - the form prefill from the `?vehiculo=` and `?cliente=` query parameters;
  - the create / update-by-id / delete-by-id / "Completar" operations on the
    order list;
  - the order code `ALQ-nnnn`;
  - the client and vehicle name helpers.
- **The fleet and client pages over mock data** (`src/pages/Vehiculos.jsx`,
  `src/pages/Clientes.jsx`). These cover:
  - list create / update / delete;
  - the search with an optional category filter;
  - the de-duplicated category list;
  - the summary tiles;
  - the client-type badge.
- **The API-backed fleet and client pages** (`frontend/src/pages/…`). These
  cover the search filters, the one-field input handler, the edit projection
  with its defaults, the reset, and the counters. They work over plain
  JavaScript objects, which are modelled as maps from property names to
  values.
- **The mock login** (`src/context/AuthContext.jsx`). The login looks up the
  first built-in account that matches both credentials and signs it in without
  its password. It keeps the session in storage under `'user'`, restores it at
  start-up, and logout removes it.

Conventions:

- **Money** is in integer cents.
- **`toFixed(2)`** rounds half away from zero to the cent (`Numbers.RoundHundredths`).
- **Numeric form fields** are `Num`: `Blank` for `''`, `NotANumber` for text
  that `parseFloat` reads as `NaN`, or `Val(v)`.
- **Dates** are the `YYYY-MM-DD` strings of date inputs. Each one denotes
  midnight UTC of its day, in milliseconds since the epoch.
- **`parseInt`** reads an optional sign and the leading decimal digits.
- **Clock readings** (`Date.now()`, today's date) are parameters of the
  operations that use them.

Each page with component state is a `class`. Its fields are the page's state
variables, and its methods are the page's handlers. Each method's contract
gives the new state in terms of the pure functions about which the lemmas are
proved.

Modules:

| module | content |
|---|---|
| `Wrappers` | `Option` |
| `Lists` | `find`, `filter`, replace-where, de-duplication, with their lemmas |
| `Text` | ASCII lower-casing, `includes`, decimal text of integers, `parseInt`, `slice(-k)` |
| `Numbers` | numeric fields, `parseFloat`/`\|\| 0`, rounding to cents, percentages |
| `Dates` | date strings to milliseconds, the Gregorian month and year lengths, the day count of a period |
| `Records` | vehicle, client and rental-order records |
| `Rentals` | the rental-order page |
| `Fleet` | the vehicle page over mock data |
| `Clients` | the client page over mock data |
| `Js` | JavaScript objects, truthiness, optional-chaining searches |
| `CarsApi` | the API-backed vehicle page |
| `CustomersApi` | the API-backed client page |
| `Auth` | the session provider |

In the source, the mock-data pages compare ids with `===`, and a new record's
id is `Date.now()`. Ids are therefore integers or `null` (`Option<int>`).

## Model

| member | source | states |
|---|---|---|
| Lists.Find | frontend/src/pages/Alquileres.jsx:122 | `find` returns an element of the list that satisfies the test, and it is `undefined` exactly when no element does |
| Lists.FindIsFirst | frontend/src/pages/Alquileres.jsx:122 | the element `find` returns is the first one that satisfies the test |
| Lists.Filter | frontend/src/pages/Alquileres.jsx:212 | `filter` keeps exactly the elements that satisfy the test, each as many times as it occurs in the list, and the result is no longer than the list |
| Lists.FilterIsSubsequence | src/pages/Vehiculos.jsx:60 | `filter` keeps its result in list order (a subsequence) |
| Lists.FilterAll | src/pages/Vehiculos.jsx:60-70 | when every element satisfies the test, `filter` returns the whole list |
| Lists.FilterComplement | frontend/src/pages/Alquileres.jsx:212 | filtering by a test and by its negation splits the list: the two lengths add up to the list's length |
| Lists.DisjointCounts | src/pages/Clientes.jsx:531-544 | when no element satisfies both tests, the two filtered lengths add up to at most the list's length |
| Lists.ReplaceWhere | frontend/src/pages/Alquileres.jsx:188-190 | `map(x => p(x) ? y : x)` keeps the length and replaces exactly the elements satisfying `p` |
| Lists.FirstIndex | src/pages/Vehiculos.jsx:57 | the position of the first occurrence of a value |
| Lists.FirstIndexUnique | src/pages/Vehiculos.jsx:57 | the first occurrence is the only position holding the value with no earlier occurrence |
| Lists.FirstIndexPrefix | src/pages/Vehiculos.jsx:57 | the first occurrence in a prefix is the first occurrence in the whole list |
| Lists.Distinct | src/pages/Vehiculos.jsx:57 | `[...new Set(xs)]` has no duplicates and holds exactly the values of `xs` |
| Lists.DistinctInFirstOccurrenceOrder | src/pages/Vehiculos.jsx:57 | `[...new Set(xs)]` lists the values in the order of their first occurrence in `xs` |
| Text.IncludesIffOccurs | src/pages/Vehiculos.jsx:62-65 | `includes` holds exactly when the needle occurs at some position of the text |
| Text.IncludesEmpty | src/pages/Vehiculos.jsx:62-65 | every string includes the empty string |
| Text.Lower | src/pages/Vehiculos.jsx:62-65 | `toLowerCase` keeps the length, turns each letter `A`–`Z` into its lower-case letter (code + 32) and leaves every other character as it is |
| Text.LowerIdempotent | src/pages/Vehiculos.jsx:62-65 | lower-casing a lower-cased text changes nothing |
| Text.LowerIgnoresCase | src/pages/Vehiculos.jsx:62-65 | `'B'` and `'b'`, and `'Sedan'` and `'SEDAN'`, lower to the same text |
| Text.Includes | src/pages/Vehiculos.jsx:62-65 | a text includes only needles no longer than itself (and by `Text.IncludesIffOccurs`, exactly those that occur in it) |
| Text.DigitChar | frontend/src/pages/Alquileres.jsx:197 | a digit value writes as a decimal digit character |
| Text.DigitValue | frontend/src/pages/Alquileres.jsx:122 | a digit character reads as a value below 10, which writes back as the same character |
| Text.NatToString | frontend/src/pages/Alquileres.jsx:197 | `String(n)` of a natural number is a non-empty run of digits that starts with `0` only when it is the single digit of `n` = 0 (its value is `n` by `Text.NatToStringValue`) |
| Text.IntToString | frontend/src/pages/Alquileres.jsx:197 | `String(n)` is non-empty, starts with `-` exactly when `n` is negative, and is digits after that sign |
| Text.LeadingDigits | frontend/src/pages/Alquileres.jsx:122 | the length of the longest run of digits at the start of the text |
| Text.Unsigned | frontend/src/pages/Alquileres.jsx:122 | `parseInt` skips one leading `+` or `-` and reads the rest |
| Text.ParseInt | frontend/src/pages/Alquileres.jsx:122 | `parseInt` gives a number exactly when at least one digit follows the optional sign; after a `-` the number is minus the value of the leading digits, otherwise it is that value |
| Text.ParseIntExamples | frontend/src/pages/Alquileres.jsx:122 | `parseInt('-07')` and `parseInt('-7x')` are -7, `parseInt('+12')` is 12, and `'x7'`, `'-'` and `''` give `NaN` |
| Text.NatToStringValue | frontend/src/pages/Alquileres.jsx:122 | the digits of `String(n)` read back as `n` |
| Text.ParseIntOfIntToString | frontend/src/pages/Alquileres.jsx:122 | `parseInt(String(n)) === n` for every integer `n` |
| Text.LastChars | frontend/src/pages/Alquileres.jsx:197 | `slice(-k)` is the last `k` characters, or the whole string when it is shorter; `slice(-0)` is the whole string |
| Text.FixedDigits | frontend/src/pages/Alquileres.jsx:197 | exactly `k` decimal digits, whose value is `n` modulo 10^k |
| Text.LastCharsOfNatToString | frontend/src/pages/Alquileres.jsx:197 | for `k` ≥ 1 and an `n` with at least `k` digits, the last `k` characters of `String(n)` are its `k` lowest digits |
| Text.NatToStringLength | frontend/src/pages/Alquileres.jsx:197 | a number of at least 10^(k-1) has at least `k` digits |
| Numbers.ParseFloat | frontend/src/pages/Alquileres.jsx:130 | `parseFloat` of a field is a number exactly when the field holds one, and it is then that number; `''` and non-numeric text read as `NaN`, never as `''` |
| Numbers.OrZero | src/pages/Vehiculos.jsx:697-710 | `x \|\| 0` reads an empty field as 0, leaves a value as it is and leaves `NaN` as `NaN` |
| Numbers.RoundHundredths | frontend/src/pages/Alquileres.jsx:130-132 | `toFixed(2)` on a hundredth-of-a-cent amount gives the nearest cent, with halves rounded away from zero |
| Numbers.RoundHundredthsShift | frontend/src/pages/Alquileres.jsx:83-84 | rounding `100c + y` gives `c` plus the rounding of `y` (same signs) |
| Numbers.ScalePercent | frontend/src/pages/Alquileres.jsx:131 | `(x * p/100).toFixed(2)` is within half a cent of the exact product, and it is `NaN` exactly when `x` is |
| Dates.Abs | frontend/src/pages/Alquileres.jsx:126 | `Math.abs` |
| Dates.DateValue | frontend/src/pages/Alquileres.jsx:124-125 | `new Date(s)` is a valid date exactly for a well-formed `YYYY-MM-DD` text, and it is then midnight UTC of that day |
| Dates.DayCount | frontend/src/pages/Alquileres.jsx:126-127 | the day count is the least number of whole days that covers `\|end − start\|` |
| Dates.DayCountSymmetric | frontend/src/pages/Alquileres.jsx:126-127 | a reversed period has the same day count as the forward one |
| Dates.DayCountZeroIff | frontend/src/pages/Alquileres.jsx:127-129 | the day count is 0 exactly when start and end are the same instant |
| Dates.DayCountWholeDays | frontend/src/pages/Alquileres.jsx:127 | a period of exactly `k` days counts `k` days |
| Dates.DayCountExamples | frontend/src/pages/Alquileres.jsx:127 | 24 hours count one day, and 24 hours and one minute count two days |
| Dates.DayNumberSameMonth | frontend/src/pages/Alquileres.jsx:124-125 | two dates of the same month are as many days apart as their day-of-month numbers |
| Dates.DayCountSameMonth | frontend/src/pages/Alquileres.jsx:124-127 | the day count between two dates of the same month is the difference of their day-of-month numbers |
| Dates.DaysInMonth | frontend/src/pages/Alquileres.jsx:124-125 | the reference month lengths of the Gregorian calendar, 28 to 31 days |
| Dates.DaysFromCivilEpoch | frontend/src/pages/Alquileres.jsx:124-125 | 1970-01-01 is day 0 of `getTime()`'s count |
| Dates.DaysFromCivilNextDay | frontend/src/pages/Alquileres.jsx:124-125 | the next day of a month has the next day number |
| Dates.MarchToMarch | frontend/src/pages/Alquileres.jsx:124-125 | from March 1 to March 1 of the next year is 366 days when that year is a leap year (divisible by 4, and by 400 if by 100) and 365 otherwise |
| Dates.MonthStep | frontend/src/pages/Alquileres.jsx:124-125 | the first of the next month comes as many days after the first of a month as the month is long: 31, 30, or 28/29 for February by the leap rule |
| Dates.MonthRollover | frontend/src/pages/Alquileres.jsx:124-125 | the last day of a month is followed by the first of the next, and December 31 by January 1 of the next year |
| Dates.YearStep | frontend/src/pages/Alquileres.jsx:124-125 | a calendar year is 366 days in a leap year and 365 otherwise |
| Dates.DateValueExamples | frontend/src/pages/Alquileres.jsx:124-125 | `new Date('1970-01-01')` is 0 ms, `2024-03-01` is day 19783, and `2024-13-01` is an Invalid Date |
| Dates.LeapDayCount | frontend/src/pages/Alquileres.jsx:124-127 | 2024-02-28 to 2024-03-01 counts 2 days, across a February 29 |
| Dates.CommonYearDayCount | frontend/src/pages/Alquileres.jsx:124-127 | 2023-02-28 to 2023-03-01 counts 1 day |
| Dates.NewYearDayCount | frontend/src/pages/Alquileres.jsx:124-127 | 2024-12-31 to 2025-01-01 counts 1 day |
| Rentals.DepositFor | frontend/src/pages/Alquileres.jsx:139 | the deposit is 300.00 exactly for an SUV or a pickup, and 200.00 otherwise |
| Rentals.VehicleById | frontend/src/pages/Alquileres.jsx:122 | the vehicle found has the id `parseInt` reads from the text; none is found exactly when no vehicle has it |
| Rentals.ClientById | frontend/src/pages/Alquileres.jsx:217 | the client found has the id `parseInt` reads from the text; none is found exactly when no client has it |
| Rentals.QuoteForAmounts | frontend/src/pages/Alquileres.jsx:130-140 | for a rate `p` and `d` days: subtotal = p·d; tax = 12 % of the subtotal, to within half a cent; total = exactly subtotal + tax; km comes from the vehicle; deposit by category. A non-numeric rate gives `NaN` amounts |
| Rentals.QuoteForNonNegative | frontend/src/pages/Alquileres.jsx:130-132 | with a non-negative rate, all amounts are non-negative and the total is at least the subtotal |
| Rentals.QuoteFor | frontend/src/pages/Alquileres.jsx:130-140 | the three amounts are numbers exactly when the rate is; the starting km is the vehicle's and the deposit is its category's tier |
| Rentals.PricingInputsTakeEditedField | frontend/src/pages/Alquileres.jsx:113-119 | the field being edited takes its new value, and the other two of vehicle / start / end come from the form |
| Rentals.PricingInputs | frontend/src/pages/Alquileres.jsx:113-119 | each of vehicle / start / end is the new value or the form's; a change to any other field reads all three from the form |
| Rentals.CalcTotals | frontend/src/pages/Alquileres.jsx:112-140 | a quote is produced exactly when all three inputs are non-empty, the vehicle exists, both dates are valid and they differ (day count > 0); the quote is the vehicle's price for the day count |
| Rentals.ApplyQuote | frontend/src/pages/Alquileres.jsx:134-140 | the five priced fields take the quote's values, and every other field of the form is kept |
| Rentals.Recalculated | frontend/src/pages/Alquileres.jsx:121-145 | without a quote the form is unchanged; with one, subtotal, tax, total, starting km and deposit take the quote's values and every other field keeps its value |
| Rentals.ThreeDaySedanExample | frontend/src/pages/Alquileres.jsx:121-140 | 45.00/day from 2024-03-01 to 2024-03-04 gives 3 days, 135.00 + 16.20 = 151.20, with a 200.00 deposit |
| Rentals.OneDaySuvExample | frontend/src/pages/Alquileres.jsx:121-140 | an SUV at 80.00 for one day gives 80.00 + 9.60 = 89.60, with a 300.00 deposit |
| Rentals.CalcTotalsReversedRange | frontend/src/pages/Alquileres.jsx:124-127 | swapping start and end does not change the pricing |
| Rentals.PrefillClient | frontend/src/pages/Alquileres.jsx:89-94 | a non-empty `?cliente=` sets the client id, and only that |
| Rentals.PrefillIsOneDayQuote | frontend/src/pages/Alquileres.jsx:74-85 | with a numeric rate, the vehicle prefill equals the one-day quote: the total, rounded independently as 112 %, equals rate + rounded tax. With no parameter or no match, the form is unchanged |
| Rentals.PrefillVehicle | frontend/src/pages/Alquileres.jsx:74-85 | with no parameter or no matching vehicle the form is unchanged; otherwise the id text, km, category deposit and rate are written, the tax and total are numbers exactly when the rate is and `NaN` otherwise, and no other field changes |
| Rentals.Stamped | frontend/src/pages/Alquileres.jsx:180-184 | the reservation date defaults to today when empty, and nothing else changes |
| Rentals.RentalCodeDigits | frontend/src/pages/Alquileres.jsx:197 | the code of an order is `ALQ-` and the clock's four lowest digits, eight characters in all |
| Rentals.RentalCodeShape | frontend/src/pages/Alquileres.jsx:197 | every code is `ALQ-` followed by the last four (or fewer) characters of the clock's decimal text |
| Rentals.Created | frontend/src/pages/Alquileres.jsx:194-198 | a new order is the stamped form with the clock's id and the `ALQ-` code, and nothing else changes |
| Rentals.Updated | frontend/src/pages/Alquileres.jsx:188-190 | saving an edit keeps the length and order and replaces exactly the orders with the record's id |
| Rentals.Deleted | frontend/src/pages/Alquileres.jsx:210-213 | deleting keeps, in order, exactly the orders with another id; the removed count is the number with that id |
| Rentals.Completed | frontend/src/pages/Alquileres.jsx:376-381 | "Completar" marks exactly the orders with that id as "Completado", and every other order stays in place |
| Rentals.ClientName | frontend/src/pages/Alquileres.jsx:216-219 | "nombre apellido" of the matching client, or "No disponible" |
| Rentals.VehicleName | frontend/src/pages/Alquileres.jsx:222-225 | "nombre (placa)" of the matching vehicle, or "No disponible" |
| Rentals.SetText | frontend/src/pages/Alquileres.jsx:98-104 | a text input changes only its own field, which then reads back the typed value |
| Rentals.SetNumber | frontend/src/pages/Alquileres.jsx:98-104 | a number input changes only its own field, which then reads back the typed value |
| Rentals.SetTextFeedsPricing | frontend/src/pages/Alquileres.jsx:98-119 | after typing into a pricing field, the form holds exactly the inputs the pricing read |
| Rentals.RentalsPage.constructor | frontend/src/pages/Alquileres.jsx:8-44 | the loaded lists with the initial form, not in edit mode |
| Rentals.RentalsPage.ApplyQuery | frontend/src/pages/Alquileres.jsx:69-95 | the vehicle prefill, then the client prefill; nothing else changes |
| Rentals.RentalsPage.HandleInputChange | frontend/src/pages/Alquileres.jsx:98-110 | the field takes the value; a change of vehicle, start or end re-prices the form from the pre-edit state |
| Rentals.RentalsPage.HandleNumberInput | frontend/src/pages/Alquileres.jsx:98-104 | a number input updates its field only and does not re-price |
| Rentals.RentalsPage.SetDepositReturned | frontend/src/pages/Alquileres.jsx:727 | the checkbox sets `deposito_devuelto` only |
| Rentals.RentalsPage.ResetForm | frontend/src/pages/Alquileres.jsx:147-175 | the initial form, out of edit mode |
| Rentals.RentalsPage.Submit | frontend/src/pages/Alquileres.jsx:177-203 | an edit replaces the order with the form's id and a create appends one new order; then the form resets |
| Rentals.RentalsPage.Edit | frontend/src/pages/Alquileres.jsx:205-208 | the order is loaded verbatim, in edit mode |
| Rentals.RentalsPage.Delete | frontend/src/pages/Alquileres.jsx:210-213 | the list becomes `Deleted` of itself, and the form is unchanged |
| Rentals.RentalsPage.Complete | frontend/src/pages/Alquileres.jsx:376-381 | the list becomes `Completed` of itself, and the form is unchanged |
| Fleet.CategoryColumn | src/pages/Vehiculos.jsx:57 | `map(v => v.categoria)` keeps the length and takes each vehicle's category |
| Fleet.Categories | src/pages/Vehiculos.jsx:57 | each category that occurs in the list appears exactly once, and only those |
| Fleet.CategoriesInFirstOccurrenceOrder | src/pages/Vehiculos.jsx:57 | categories are listed in first-occurrence order |
| Fleet.FilteredVehicles | src/pages/Vehiculos.jsx:60-70 | the subsequence of exactly the vehicles matching the search (nombre, codigo, descripcion or placa, case-insensitive) and the category filter, each with all its copies |
| Fleet.EmptyFiltersKeepAll | src/pages/Vehiculos.jsx:61-67 | an empty term and an empty category filter keep every vehicle |
| Fleet.AvailableCount | src/pages/Vehiculos.jsx:697 | the "Disponibles" count is at most the length of the list it counts |
| Fleet.AvailableWithinTotal | src/pages/Vehiculos.jsx:685-697 | "Disponibles" never exceeds "Total de Vehículos" for the displayed list |
| Fleet.PotentialIncome | src/pages/Vehiculos.jsx:710 | the sum is a number exactly when every vehicle's rate × stock is |
| Fleet.IncomeSumAppend | src/pages/Vehiculos.jsx:710 | adding a vehicle at the end adds its rate × stock to the sum |
| Fleet.PotentialIncomeIsSum | src/pages/Vehiculos.jsx:710 | without non-numeric fields, the "Ingresos Potenciales" tile is the sum of rate × stock, with empty fields counted as 0 |
| Fleet.SetText | src/pages/Vehiculos.jsx:73-79 | a text input changes only its own field, which then reads back the typed value |
| Fleet.SetNumber | src/pages/Vehiculos.jsx:73-79 | a number input changes only its own field, which then reads back the typed value |
| Fleet.UpdatedVehicles | src/pages/Vehiculos.jsx:105-110 | saving an edit keeps the length and order and replaces exactly the vehicles with the form's id |
| Fleet.DeletedVehicles | src/pages/Vehiculos.jsx:129-132 | deleting keeps, in order, exactly the vehicles with another id |
| Fleet.FleetPage.constructor | src/pages/Vehiculos.jsx:7-34 | the loaded list, the empty form, closed, with no search and no filter |
| Fleet.FleetPage.SetSearchTerm | src/pages/Vehiculos.jsx:189 | the search box sets the term |
| Fleet.FleetPage.SetCategoryFilter | src/pages/Vehiculos.jsx:206 | the select sets the category filter |
| Fleet.FleetPage.HandleTextInput | src/pages/Vehiculos.jsx:73-79 | the text field takes the value |
| Fleet.FleetPage.HandleNumberInput | src/pages/Vehiculos.jsx:73-79 | the number field takes the value |
| Fleet.FleetPage.ResetForm | src/pages/Vehiculos.jsx:81-100 | every field becomes empty with a `null` id, and the form closes out of edit mode |
| Fleet.FleetPage.Submit | src/pages/Vehiculos.jsx:102-121 | an edit replaces the vehicle with the form's id and a create appends the form with the clock as its id; then the form resets |
| Fleet.FleetPage.Edit | src/pages/Vehiculos.jsx:123-127 | the vehicle is loaded verbatim into the open form, in edit mode |
| Fleet.FleetPage.Delete | src/pages/Vehiculos.jsx:129-132 | the list becomes `DeletedVehicles` of itself |
| Clients.TypeLabel | src/pages/Clientes.jsx:232 | the badge text is the client's type, or "Regular" when empty |
| Clients.BadgeOf | src/pages/Clientes.jsx:227-230 | warning exactly for Premium, info exactly for Corporativo, success otherwise |
| Clients.PremiumCount | src/pages/Clientes.jsx:531 | the "Clientes Premium" count is at most the total |
| Clients.CorporateCount | src/pages/Clientes.jsx:544 | the "Clientes Corporativos" count is at most the total |
| Clients.PremiumAndCorporateWithinTotal | src/pages/Clientes.jsx:519-544 | the Premium and Corporativo counts add up to at most the total |
| Clients.SetText | src/pages/Clientes.jsx:53-59 | an input changes only its own field, which then reads back the typed value |
| Clients.UpdatedClients | src/pages/Clientes.jsx:84-89 | saving an edit keeps the length and order and replaces exactly the clients with the form's id |
| Clients.DeletedClients | src/pages/Clientes.jsx:107-110 | deleting keeps, in order, exactly the clients with another id |
| Clients.ClientsPage.constructor | src/pages/Clientes.jsx:7-30 | the loaded list with the empty form, not in edit mode |
| Clients.ClientsPage.HandleInputChange | src/pages/Clientes.jsx:53-59 | the field takes the value |
| Clients.ClientsPage.ResetForm | src/pages/Clientes.jsx:61-79 | every field becomes empty with a `null` id and type "Regular", out of edit mode |
| Clients.ClientsPage.Submit | src/pages/Clientes.jsx:81-100 | an edit replaces the client with the form's id and a create appends the form with the clock as its id; then the form resets |
| Clients.ClientsPage.Edit | src/pages/Clientes.jsx:102-105 | the client is loaded verbatim, in edit mode |
| Clients.ClientsPage.Delete | src/pages/Clientes.jsx:107-110 | the list becomes `DeletedClients` of itself |
| Js.Get | frontend/src/pages/Vehiculos.jsx:49-52 | reading a missing property gives `undefined` |
| Js.Assign | frontend/src/pages/Vehiculos.jsx:58-61 | `{...o, [k]: v}` sets `k` to `v` and keeps every other property |
| Js.OrElse | frontend/src/pages/Vehiculos.jsx:105 | `x \|\| d` is `x` when truthy, `d` otherwise |
| Js.ToStringOf | frontend/src/pages/Vehiculos.jsx:52 | `v?.toString()` is undefined exactly for `undefined` and `null` |
| Js.NumberMatchesItsDigits | frontend/src/pages/Vehiculos.jsx:52 | a numeric year matches a search for its own decimal text |
| CarsApi.FilteredCars | frontend/src/pages/Vehiculos.jsx:48-53 | the subsequence of exactly the vehicles whose marca, modelo or color includes the term case-insensitively, or whose año's text includes it, each with all its copies |
| CarsApi.MissingFieldsNeverMatch | frontend/src/pages/Vehiculos.jsx:48-53 | a vehicle without any of the searched fields is never kept |
| CarsApi.InputValue | frontend/src/pages/Vehiculos.jsx:57-61 | a checkbox writes `checked`, and any other input writes `value` |
| CarsApi.EditForm | frontend/src/pages/Vehiculos.jsx:98-106 | exactly the seven form fields, copied from the vehicle, with a missing image as "" |
| CarsApi.AvailableCars | frontend/src/pages/Vehiculos.jsx:426-438 | the "Disponibles" count is at most the total |
| CarsApi.AverageTileOf | frontend/src/pages/Vehiculos.jsx:451-453 | the tile takes its literal '0' branch exactly for an empty list, and otherwise averages over all the listed vehicles |
| CarsApi.CarsPage.constructor | frontend/src/pages/Vehiculos.jsx:7-26 | the fetched list with the initial form, closed, with a `null` editing id |
| CarsApi.CarsPage.SetSearchTerm | frontend/src/pages/Vehiculos.jsx:169 | the search box sets the term |
| CarsApi.CarsPage.HandleInputChange | frontend/src/pages/Vehiculos.jsx:56-62 | only the named field changes, to `checked` or `value` |
| CarsApi.CarsPage.ResetForm | frontend/src/pages/Vehiculos.jsx:64-77 | the initial form (text fields empty, disponible true), closed, out of edit mode, with a `null` editing id |
| CarsApi.CarsPage.Saved | frontend/src/pages/Vehiculos.jsx:79-91 | after a save, the list as fetched again, and the form reset |
| CarsApi.CarsPage.Edit | frontend/src/pages/Vehiculos.jsx:97-110 | the edit projection, the editing id set to `_id`, and the form opened in edit mode |
| CustomersApi.FilteredCustomers | frontend/src/pages/Clientes.jsx:46-50 | the subsequence of exactly the clients whose nombre or email includes the term case-insensitively, or whose telefono includes it exactly, each with all its copies |
| CustomersApi.EditForm | frontend/src/pages/Clientes.jsx:93-99 | exactly the five form fields: nombre and email as they are, and phone, address and birth date as "" when missing |
| CustomersApi.WithPhoneCount | frontend/src/pages/Clientes.jsx:370-382 | the "Con Teléfono" count is at most the total |
| CustomersApi.PhoneCounted | frontend/src/pages/Clientes.jsx:382 | a client with a non-empty phone makes the count positive |
| CustomersApi.CustomersPage.constructor | frontend/src/pages/Clientes.jsx:7-24 | the fetched list with the empty form, closed, with a `null` editing id |
| CustomersApi.CustomersPage.SetSearchTerm | frontend/src/pages/Clientes.jsx:162 | the search box sets the term |
| CustomersApi.CustomersPage.HandleInputChange | frontend/src/pages/Clientes.jsx:53-59 | only the named field changes, to the typed value |
| CustomersApi.CustomersPage.ResetForm | frontend/src/pages/Clientes.jsx:61-72 | the five fields become empty, the form closes out of edit mode, and the editing id is `null` |
| CustomersApi.CustomersPage.Saved | frontend/src/pages/Clientes.jsx:74-86 | after a save, the list as fetched again, and the form reset |
| CustomersApi.CustomersPage.Edit | frontend/src/pages/Clientes.jsx:92-103 | the edit projection, the editing id set to `_id`, and the form opened in edit mode |
| Auth.WithoutPassword | src/context/AuthContext.jsx:36 | the signed-in user is the account's id, e-mail and names, without the password |
| Auth.FindAccount | src/context/AuthContext.jsx:30-32 | the account found has both credentials; none is found exactly when no account does |
| Auth.Authenticate | src/context/AuthContext.jsx:25-42 | success exactly when some account has both credentials, with that account minus its password; failure with "Usuario o contraseña incorrectos" |
| Auth.LoginPicksFirstMatch | src/context/AuthContext.jsx:30-32 | the account signed in is the first one matching both credentials |
| Auth.LoginDeterminedByEmail | src/context/AuthContext.jsx:25-28 | the built-in e-mails differ, so two successful logins with the same e-mail sign in the same user |
| Auth.AdminLogin | src/context/AuthContext.jsx:26-39 | admin@example.com / 123456 signs in user 1, Admin Usuario |
| Auth.WrongPasswordFails | src/context/AuthContext.jsx:40-42 | a wrong password fails with the fixed message |
| Auth.AuthProvider.constructor | src/context/AuthContext.jsx:6-7 | no user, loading, over the browser's storage |
| Auth.AuthProvider.Restore | src/context/AuthContext.jsx:10-16 | the user is restored exactly when `'user'` is stored, and loading ends either way |
| Auth.AuthProvider.Login | src/context/AuthContext.jsx:19-46 | the result is the credential check. On success, the session and the stored `'user'` are the signed-in user. On failure, nothing changes |
| Auth.AuthProvider.Logout | src/context/AuthContext.jsx:49-52 | no user, and only the `'user'` key is removed from storage |
| Auth.SessionSurvivesReload | src/context/AuthContext.jsx:10-52 | a provider restarted after a successful login restores the same user, and after a logout it starts signed out |

## Left out

- Rendering (JSX, Bootstrap modals, view modes) and browser navigation.
- `window.confirm`: only the API pages' deletes ask for it, and those deletes are left out (below); the modelled deletes of the rental, fleet and client pages delete at once, as in the source.
- The loading and error state. This covers the simulated `setTimeout` load of the mock-data pages and every call to the REST API service: fetch, create, update and delete. The API pages' lists enter the model as parameters, either as a fetched list or as a list fetched again after a save.
- The delete handlers of the API pages, which only call the API and fetch again.
- `frontend/src/context/AuthContext.jsx` (JWT login over the API), `src/pages/Login.jsx`, `src/pages/Home.jsx` and `frontend/src/App.jsx`. These are markup, routing and an API wrapper.
- IEEE-754 arithmetic. Amounts are exact integers of cents, so float artefacts of `parseFloat`/`toFixed` (such as `1.005` rounding down) are not reproduced.
- A daily rate with fractions of a cent.
- CarsApi.AverageTileOf: models only the choice between the literal '0' and the average branch, not the text of the average (`toFixed(0)` of the mean, which is also "0" for a mean below 0.5 and "NaN" for a non-numeric rate).
- Numbers in the JavaScript-object model are integers.
- Full Unicode case mapping: `toLowerCase` is modelled on ASCII letters only.
- `parseInt` leading white space, `0x` prefixes and the `+`/`-` sign before white space.
- Date strings other than `YYYY-MM-DD`, and engine differences for out-of-range days. The model lets a day past the end of its month (such as `2024-02-30`) run on into the next month and treats days 32 and above as invalid; this is a modelling choice that matches V8's date parser, and other engines may reject such dates instead. Time-of-day strings are not parsed.
- The "Nuevos (Este mes)" tile (month and year of `new Date(created_at)` against the clock).
- `toLocaleDateString` in the tables.
- Rentals.RentalsPage.HandleNumberInput: the reading of what was typed into a number input is given as a `Num`, and parsing its text is not modelled.
- Fleet.FleetPage.HandleNumberInput: the same abstraction of the number input's text.
- The serialisation of the stored session to JSON. Storage maps keys to user records, and a stored value that does not parse, or parses to something other than a user, is not modelled.
- The `catch` branch of `login` ('Error al iniciar sesión'), which nothing in the mock lookup can reach.
- An `?.toLowerCase()` or `?.includes()` on a property that is neither missing nor a string. JavaScript throws a `TypeError` there; the model treats it as no match.
