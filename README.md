# Admin01 core rules in Dafny

This project models the deterministic core of the Admin01 shop administration panel. Admin01 is a Flask back end with browser scripts. The modelled parts are:

- **Coordinate checks and Google Maps links** (`static/js/maps.js`):
  - `isValidCoordinates`, with JavaScript truthiness and `parseFloat`;
  - the Google Maps, directions and street-view links, built by conditional appends;
  - `formatCoordinates` and `decimalToDMS`;
  - the guard and unit table of `getDistance`.
- **Server helpers** (`utils.py`): the `Address | LAT | LON | LINK` location parser, `generate_map_link`, `validate_date_range` over proleptic Gregorian day numbers, `format_currency` over integer paise, and the two badge tables.
- **Model classes** (`models.py`):
  - the constructor defaults;
  - `truncate_text` and the address joiner;
  - the map link and the image-URL fallback chains;
  - the status badge and icon, and the completion rate.
- **Route rules** (`01app.py`):
  - the `role_required` check;
  - `update_order_status` and `update_payment_status`, as a `Database` class over the orders, payments and history tables;
  - the filter and pagination query builder of `orders()`, with its placeholders kept in step with its arguments;
  - the row-decorating loop and the page count.
- **Orders page** (`012static_js_orders.js`):
  - the status lookups, default image, `formatCurrency` and update-button rule;
  - the date-range split;
  - `getSelectedOrders`, `handleBulkAction` and `exportSelectedOrders`, on an `OrdersPage` class.
- **Statistics page** (`013static_js_stats.js`): the period selector, `updateDateRange`, the range picker and `exportStatistics`, on a `StatsPage` class.

`URLSearchParams` is modelled as a class over an ordered pair list (`SearchParams`). It follows section 6.2 of the WHATWG URL Standard for `set`, `delete` and the application/x-www-form-urlencoded serializer.

The language rules the code leans on are written out rather than assumed:

- JavaScript `parseFloat`, `Number.prototype.toFixed`, `encodeURIComponent`, and `table[key] || fallback` on object literals, including inherited `Object.prototype` names.
- Python `float()`, truthiness, `dict.get`, `str[:n]`, `round(x, 1)`, `f"{x:,.2f}"`, and `strptime('%Y-%m-%d')`.

Numbers are exact reals (`Numbers.Number`), and currency is integer paise.

Modules: `Wrappers`, `Text`, `Numbers`, `Js`, `Py`, `Percent`, `Query`, `Maps`, `Utils`, `Dates`, `Models`, `App`, `SearchParams`, `OrdersUi`, `StatsUi`.

## Model

| member | source | states |
|---|---|---|
| Maps.IsValidCoordinates | static/js/maps.js:239-265 | true exactly when both values are truthy and both parse to numbers within [-90, 90] and [-180, 180], bounds inclusive (NaN fails) |
| Maps.ZeroCoordinates | static/js/maps.js:243-245 | the number 0, `''`, `null` and `undefined` fail the truthiness guard, while the string `"0"` passes it and validates |
| Maps.GenerateGoogleMapsLink | static/js/maps.js:182-207 | throws exactly for a truthy address that is not a string (it has no `trim`); otherwise the maps base followed by the query of `q=<lat6>,<lng6>`, then `z=` with the zoom's template text when the zoom is truthy (15 when it is undefined), then `layer=c&cbll=<point>&cbp=` when the address is non-blank |
| Maps.ZoomTexts | static/js/maps.js:182-198 | an undefined zoom writes `15`; the attribute string from `getAttribute('data-zoom') \|\| 15` is written as it is when non-empty; `0` and `null` write no `z`; a non-zero integer is written in decimal |
| Maps.MapsLink | static/js/maps.js:193-206 | the `+=` appends build exactly the base plus the serialized query list |
| Maps.MapsLinkQuery | static/js/maps.js:193-206 | read back, the query starts with `q=<point>`; `z` is present exactly when a zoom text is given, with that text; `cbll` is the point exactly when an address is given, so the address text never appears |
| Maps.GenerateDirectionsLink | static/js/maps.js:209-227 | throws exactly for a truthy `fromAddress` that is not a string; otherwise `api=1`, then `origin` only for a truthy `fromAddress`, then `destination=<point>&travelmode=driving` |
| Maps.DirectionsLink | static/js/maps.js:216-226 | the appends build the base plus the serialized directions query |
| Maps.DirectionsLinkQuery | static/js/maps.js:216-226 | read back, the query starts with `api=1` and ends with destination and travel mode; `origin` is present exactly when given |
| Maps.OriginDecodes | static/js/maps.js:218-221 | the origin is present iff `fromAddress` is a truthy string; it decodes back to the trimmed address; a white-space-only origin is `origin=` with an empty value |
| Maps.GenerateStreetViewLink | static/js/maps.js:229-237 | the fixed template `api=1&map_action=pano&viewpoint=<point>`, which reads back as its three pairs |
| Maps.StreetViewQuery | static/js/maps.js:236 | the template text equals the base plus the serialized three-pair query, and parses back to it |
| Maps.FormatCoordinates | static/js/maps.js:267-301 | null exactly for invalid coordinates; otherwise the result is the valid-coordinate formatting of the two parsed numbers, which lie in range; `array` and `object` give the parsed numbers; every other format, including an omitted one, gives the decimal pair |
| Maps.FormatValid | static/js/maps.js:278-299 | `url` gives `<lat6>,<lng6>`; `dms`, `array` and `object` give their shapes exactly for those format values, and `dms` holds the latitude's and longitude's DMS texts; anything else gives the two `toFixed(6)` texts |
| Maps.FormattedCoordinatesReadBack | static/js/maps.js:285-299 | the 6-digit texts parse back to the coordinates rounded to 6 places; the url text splits at its comma into the two texts; numbers in range validate again unless one is 0 |
| Maps.DecimalToDms | static/js/maps.js:303-318 | degrees = floor(abs x), minutes in 0..59, seconds in [0, 60), the parts add up to abs x; hemisphere N/E for x >= 0 (so 0 is N/E) and S/W otherwise |
| Maps.DmsAddsUp | static/js/maps.js:307-315 | with the hemisphere's sign, the degrees, minutes and seconds give back the coordinate |
| Maps.EarthRadius | static/js/maps.js:329-333 | K (and the default) 6371, M 3958.8, N 3440.1, any other unit 6371, and an inherited `Object.prototype` name gives the inherited member |
| Maps.DistanceGuard | static/js/maps.js:325-333 | null exactly when either point fails validation, otherwise the radius of the unit |
| Utils.ParseLocationData | utils.py:17-57 | empty or None gives the empty record without `full_string`; a combined string (`' | '`, at least four parts, coordinate parts empty or convertible) gives parts 0 to 3 with `is_auto_detected`; anything else is a manual entry of the whole text |
| Utils.CoordinatePart | utils.py:39-40 | an empty part is None, otherwise the conversion succeeds exactly when `float()` does |
| Utils.LocationRoundTrip | utils.py:32-44 | a string written from four pipe-free parts, with convertible coordinates, parses back to those parts |
| Utils.ExtraPartsIgnored | utils.py:34-41 | parts after the fourth do not change address, coordinates or link |
| Utils.GenerateMapLink | utils.py:79-99 | None exactly when either coordinate is None or fails `float()`; otherwise `q={lat},{lng}&z={zoom}` after the maps base |
| Utils.ServerLinkQuery | utils.py:94 | the server link reads back as its two pairs, with `z` always present |
| Utils.ServerAndBrowserLinks | utils.py:79-99 | with the default zoom 15 the server and browser links carry the same query; so they do for any non-zero integer zoom and for any non-empty `data-zoom` attribute text; for zoom 0 the server writes `z=0` while the browser drops `z` |
| Utils.FormatCurrencyReadsBack | utils.py:226-234 | the text is `₹` followed by a text that, with its commas removed, converts back with `float()` to the amount in rupees; None reads back as 0 (`BaseModel.format_currency` in models.py has the same body) |
| Utils.FormatAmountReadsBack | utils.py:234 | with its commas removed, the amount text converts back with `float()` to the amount in rupees |
| Utils.GroupThousandsDigits | utils.py:234 | grouping only inserts commas: removing them gives the digits back |
| Utils.GroupThousandsCommas | utils.py:234 | the commas stand exactly at every fourth place from the right |
| Utils.StatusBadgeClass | utils.py:236-245 | `secondary` exactly for a value outside the five statuses; completed and delivered are `success` |
| Utils.PaymentBadgeClass | utils.py:247-256 | `secondary` for unknown statuses and for refunded; `danger` exactly for failed and cancelled |
| Dates.ValidateDateRange | utils.py:298-320 | the "required" error exactly when either text is empty or missing; a malformed start, then end, gives the format error; an accepted range carries the two parsed dates |
| Dates.ValidateDateRangeSpan | utils.py:309-315 | for two parsed dates: accepted iff start <= end <= start + 365 days; "after" iff end < start; "exceed" iff the span is over 365 days |
| Dates.ValidateDateRangeBounds | utils.py:309-315 | equal dates and a span of exactly 365 days are accepted |
| Dates.StrptimeIsoFormat | utils.py:306-307 | `strptime` reads every valid date's `YYYY-MM-DD` text back as that date |
| Dates.StrptimeIsoTrailing | utils.py:306-307 | trailing text after a date is an "unconverted data remains" error |
| Dates.BeforeIffOrdinal | utils.py:309 | date order is the order of day numbers |
| Models.UserOf | models.py:50-65 | missing keys take the defaults (active, role `user`, zero totals); present keys keep their stored value, even None |
| Models.OrderOf | models.py:88-107 | missing keys default to items `'[]'`, total 0, payment mode `COD`, status `pending` and item count 0; stored values are kept |
| Models.OrderItemOf | models.py:152-162 | quantity defaults to 1, price and total to 0 |
| Models.PaymentOf | models.py:185-196 | amount defaults to 0, status to `pending` |
| Models.AddressOf | models.py:217-231 | `is_default` defaults to false; coordinates are the stored values |
| Models.StatisticsOf | models.py:269-278 | an empty row gives all nine counters 0 |
| Models.StoredNoneKept | models.py:95-99 | a stored None status is kept, not replaced by the default, and gets the `secondary` badge |
| Models.TruncateText | models.py:36-45 | falsy text gives `""`; text within the limit is unchanged; longer text is a prefix of the text followed by `...`, the prefix being max_length long, or for a negative limit the text less its last -max_length characters |
| Models.FormattedAddress | models.py:233-255 | the successive appends join the present fields with `", "` in the fixed order line1, line2, `Near `+landmark, city, state, `Pincode: `+pincode |
| Models.FormattedAddressEmpty | models.py:233-255 | with every field absent or empty the address is `""` |
| Models.FormattedAddressSplits | models.py:255 | when no part holds a comma, splitting the address at `", "` gives the parts back |
| Models.AddressMapLink | models.py:257-261 | a link exactly when both coordinates are truthy: `q={lat},{lon}` with no zoom |
| Models.AddressMapLinkQuery | models.py:257-261 | a 0 coordinate gives no link; the link reads back with `q` and without `z` |
| Models.ProfilePicUrl | models.py:76-83 | never falsy; with neither picture nor default it is the fixed avatar URL |
| Models.PreferredUrl | models.py:76-83 | the result is the picture, the default or the fallback; the picture is chosen only when it starts with `http`; never falsy when the fallback is non-empty |
| Models.SampleImage | models.py:177-180 | the service sample exactly for item type `service`, the food sample otherwise |
| Models.ItemPhotoUrl | models.py:170-180 | never falsy; the last fallback is the sample image of the item type |
| Models.OrderBadgeClass | models.py:118-126 | the same table as the badge helper in `utils.py`, `secondary` for unknown statuses |
| Models.OrderStatusIcon | models.py:128-136 | the five icons, `question-circle` exactly for unknown statuses |
| Models.IconAndBadgeAgree | models.py:118-136 | the fallback icon shows exactly when the fallback badge does |
| Models.PaymentBadgeClass | models.py:204-212 | the same table as the payment badge helper in `utils.py` |
| Models.RoundHalfEven | models.py:292 | `round` stays within half a unit and breaks ties to even |
| Models.CompletionRate | models.py:289-292 | the int 0 when there are no orders, otherwise a finite float within 0.05 of completed/total*100 |
| Models.CompletionRateBounds | models.py:289-292 | in 0..100 when 0 <= completed <= total; 100 when all are completed; 0 when none are |
| App.SuperadminRoutes | 01app.py:196-206 | superadmin passes every check; only superadmin passes a superadmin route; a user with the default role does not; any other pass is an exact role match |
| App.StatusError | 01app.py:631-636 | no error exactly for a non-empty listed status; a falsy status gives the "required" message and an unlisted one the "invalid" message |
| App.SetOrderStatus | 01app.py:641-646 | only rows with the id change; they get the status, and the notes unless the notes are NULL (`COALESCE`) |
| App.SetOrderStatusEffect | 01app.py:641-651 | ids stay unique; the order is still there and has the new status |
| App.StatusOfAt | 01app.py:654-658 | with unique ids, the status looked up by id is the row's status |
| App.HistoryRecordsNewStatus | 01app.py:654-658 | the history subquery, run after the update, reads the new status |
| App.NotesDefault | 01app.py:629 | a request without notes stores `''` over the old notes; an explicit null keeps them |
| App.Database.UpdateOrderStatus | 01app.py:621-673 | the role redirect, the required/invalid checks before any change, "Order not found" with nothing written, or the update plus exactly one history row whose old and new status are both the new status |
| App.SetPaymentStatusEffect | 01app.py:695-702 | only the order's payment rows change: status set, transaction id replaced only by a non-empty text, date set to now only for `completed`, nothing else |
| App.Database.UpdatePaymentStatus | 01app.py:675-736 | the role redirect and the two checks; an existing row is updated; otherwise one row is inserted from the order's user, amount and mode; success is reported even without an order, which changes nothing |
| App.SetPaymentIdsKept | 01app.py:695-702 | updating payments keeps every payment id below the next fresh id |
| App.MaxPaymentId | 01app.py:706-721 | every payment id is at most the maximum, so the inserted id is fresh |
| App.AddClause | 01app.py:416-441 | appending a clause with as many placeholders as values keeps placeholders and arguments in step |
| App.AddSearch | 01app.py:419-427 | a non-empty search adds the four-placeholder clause and four arguments |
| App.AddFilter | 01app.py:430-441 | a non-empty filter adds one clause and one argument |
| App.FilteredQuery | 01app.py:416-449 | the query is the SELECT, then the clause of each non-empty filter (search, status, start date, end date, in that order), then the grouping; the arguments are the filter arguments in order, as many as the placeholders |
| App.FilteredBindings | 01app.py:416-441 | placeholder by placeholder, the filtered query binds the search term in the four ILIKE tests, the status in `o.status =`, the start date in `>=` and the end date in `<=`, and nothing else |
| App.OrdersQuery | 01app.py:416-458 | the count query is the filtered query wrapped in `SELECT COUNT(*)`, with the filter arguments; the page query is the filtered query plus `LIMIT %s OFFSET %s`, with `per_page` and `(page-1)*per_page` added; both have as many placeholders as arguments |
| App.CountQuery | 01app.py:452-453 | the wrapped query keeps its parameters and stays balanced |
| App.PageQuery | 01app.py:457-458 | the pagination clause adds two placeholders and their two values |
| App.PageBindings | 01app.py:457-458 | the page query binds the filter values as the filtered query does, then `per_page` in LIMIT and `(page-1)*per_page` in OFFSET |
| App.CountBindings | 01app.py:452-453 | the count query binds exactly what the filtered query binds |
| App.BindingsAppend | 01app.py:416-458 | appending text to a query whose placeholders all follow a condition leaves the earlier bindings and adds the new ones after them |
| App.Wrapped | 01app.py:452 | wrapping the query in `SELECT COUNT(*)` keeps its placeholders |
| App.FilterArgsCount | 01app.py:416-441 | four arguments for a search plus one each for status, start date and end date, with the search terms first |
| App.DecorateOrders | 01app.py:465-477 | each row is decorated in place and no row is moved |
| App.DecoratedFields | 01app.py:466-477 | a decorated row keeps its amount and status, gains the currency text and the badge class of the helper table |
| App.TotalPagesLeast | 01app.py:488 | the page count is the least n with n * per_page >= total_count |
| SearchParams.SearchParams.Set | 013static_js_stats.js:81-99 | `set` replaces the first pair of the name and drops the rest, or appends one |
| SearchParams.SearchParams.Delete | 013static_js_stats.js:82-83 | `delete` removes every pair of the name |
| SearchParams.SearchParams.ToString | 013static_js_stats.js:84 | the text is the form-urlencoded serialization of the list |
| SearchParams.SetEffect | 013static_js_stats.js:81 | after `set` the list has exactly one pair of the name, with the value, and the pairs of other names are as before, in order |
| SearchParams.DeleteRemoves | 013static_js_stats.js:82-83 | after `delete` no pair of the name is left |
| SearchParams.DeleteKeepsOthers | 013static_js_stats.js:82-83 | `delete` keeps the pairs of every other name, in order |
| SearchParams.SerializeReadsBack | 013static_js_stats.js:527 | the serialized list, cut at `&` and `=` and decoded, gives the list back |
| OrdersUi.StatusIcon | 012static_js_orders.js:933-942 | the five icons, with `question-circle` for other values; an `Object.prototype` name finds the inherited member |
| OrdersUi.IconAgreesWithServer | 012static_js_orders.js:933-942 | the page shows the server's icon for every status that is not a prototype name |
| OrdersUi.StatusBadgeClass | 012static_js_orders.js:944-953 | delivered is `bg-primary`; unknown values are `bg-secondary` |
| OrdersUi.BadgeAgainstServer | 012static_js_orders.js:944-953 | the page class is `bg-` plus the server class for four statuses; delivered is `bg-primary` on the page but `success` on the server |
| OrdersUi.DefaultImage | 012static_js_orders.js:973-977 | the service sample exactly for `'service'`, the food sample otherwise |
| OrdersUi.DefaultImageAgreesWithServer | 012static_js_orders.js:973-977 | the page's fallback image is the server's item fallback |
| OrdersUi.FormatCurrency | 012static_js_orders.js:955-961 | undefined and null give `₹0.00`, as the server does for None; other values get `₹` followed by the locale text |
| OrdersUi.ShowUpdateButton | 012static_js_orders.js:261-265 | hidden exactly for cancelled and delivered; so among the five statuses, shown exactly for pending, processing and completed |
| OrdersUi.RangeSplits | 012static_js_orders.js:733-737 | `start to end` splits into exactly the two dates |
| OrdersUi.SingleDateDoesNotSplit | 012static_js_orders.js:733-737 | a single date gives one part, so no field is written |
| OrdersUi.OrdersPage.OnRangeChange | 012static_js_orders.js:732-737 | both dates are written only on an exactly-two-part split |
| OrdersUi.CheckedValuesExact | 012static_js_orders.js:874-880 | every ticked box's value is selected, and every selected value is a ticked box's |
| OrdersUi.OrdersPage.GetSelectedOrders | 012static_js_orders.js:874-880 | the loop collects the ticked values in page order |
| OrdersUi.BulkRequests | 012static_js_orders.js:841-851 | a confirmed delete is exactly one delete request, an unconfirmed one nothing; nothing for export; otherwise a bulk status with the action's value, always for the selected ids |
| OrdersUi.BulkWindows | 012static_js_orders.js:847-848 | a window is opened exactly for export |
| OrdersUi.OrdersPage.HandleBulkAction | 012static_js_orders.js:832-854 | an empty action changes nothing; an empty selection only warns and leaves the select as it was; otherwise dispatch, then the select is reset |
| OrdersUi.OrdersPage.Dispatch | 012static_js_orders.js:841-851 | the dispatch branches of the bulk action |
| OrdersUi.ExportQuery | 012static_js_orders.js:901-904 | `export=csv`, then `ids` as the ids joined by commas |
| OrdersUi.ExportSelectedOrders | 012static_js_orders.js:901-908 | the window address is `/orders/export?` plus the serialized export query |
| OrdersUi.ExportReadsBack | 012static_js_orders.js:901-906 | the export query reads back, and its ids value splits at commas into the selected ids, in order |
| StatsUi.StatsPage.OnPeriodChange | 013static_js_stats.js:65-88 | `custom` shows the range and does not navigate; any other value hides it and navigates with `period` set and both dates deleted |
| StatsUi.PeriodQueryEffect | 013static_js_stats.js:81-84 | after a period change the query has one `period`, no `start_date` and no `end_date`, and every other parameter as before |
| StatsUi.SetKeepsOthers | 013static_js_stats.js:81 | `set` leaves the pairs of other names as they were |
| StatsUi.StatsPage.UpdateDateRange | 013static_js_stats.js:90-101 | navigates only when both dates are non-empty, with `period=custom` and the two dates set |
| StatsUi.DateRangeQueryEffect | 013static_js_stats.js:95-99 | the custom-range query has one `period=custom`, one of each date, and every other parameter as before |
| StatsUi.StatsPage.OnRangePickerChange | 013static_js_stats.js:53-60 | only an exactly-two-part split writes the inputs and updates the range; a missing input stops the handler where it throws |
| StatsUi.ValueOr | 013static_js_stats.js:515-517 | `el?.value \|\| fallback`: the fallback for a missing element or an empty value |
| StatsUi.ExportParams | 013static_js_stats.js:523-528 | both dates and no period exactly for a custom period with both dates; otherwise only the period |
| StatsUi.ExportStatisticsUrl | 013static_js_stats.js:519-530 | the link is `/statistics/export?` plus the serialized export query |
| StatsUi.StatsPage.ExportStatistics | 013static_js_stats.js:513-530 | the dates default to `''` and the period to `week` |
| StatsUi.ExportReadsBack | 013static_js_stats.js:527 | the export query reads back as the chosen parameters |
| Js.ParseFloatValue | static/js/maps.js:247-248 | numbers are themselves; strings are parsed as the longest decimal prefix; undefined, null and booleans give NaN |
| Js.Lookup | 012static_js_orders.js:941 | `table[key] \|\| fallback`: the entry, an inherited prototype member exactly for such names, or the fallback |
| Numbers.ToFixedRoundTrip | static/js/maps.js:189-190 | the `toFixed(f)` text parses back to the value rounded to f places, within half a unit of the last place |
| Numbers.PyParseSignedFixed | utils.py:89-90 | `float()` of a signed fixed-point text is its value |
| Percent.DecodeEncodeURIComponent | static/js/maps.js:219 | percent-decoding `encodeURIComponent(s)` gives s back |
| Percent.DecodeFormEncode | 013static_js_stats.js:527 | decoding the form encoding (with `+` as space) gives the text back |
| Query.ParseQueryString | static/js/maps.js:193-206 | a query of pairs without `&` or `=` in their texts parses back to those pairs |
| Text.SplitJoin | utils.py:33 | splitting a join gives the parts back when no part holds a character of the separator |

## Left out

- Floating point: the Haversine formula of `getDistance` (static/js/maps.js:335-345); the two-decimal rounding of DMS seconds; binary double rounding in `parseFloat`, `toFixed`, `float()` and `round`. Numbers are exact reals.
- Numbers.ToFixed: does not model the exponent form `toFixed` uses at 1e21 and above.
- Python's `f"{lat}"` float repr, used by `generate_map_link`, `Address.get_map_link` and the address pincode, is a function parameter (`floatRepr`). `toLocaleString('en-IN')` is also a parameter of OrdersUi.FormatCurrency.
- Maps.TemplateText: JavaScript's number-to-text conversion is a parameter (`numberText`) except for integers below 1e21, which are written in decimal.
- Maps.GenerateGoogleMapsLink: texts are sequences of Unicode scalar values, so the URIError `encodeURIComponent` throws on a lone surrogate is not modelled.
- Maps.GenerateDirectionsLink: the URIError of `encodeURIComponent` on a lone surrogate is not modelled, as texts hold no lone surrogates.
- Numbers.PyParseFloat: does not accept underscores or non-ASCII digits, and works on exact reals, not `Decimal`.
- Dates.Strptime: reads ASCII digits only. Python's `strptime` matches `%Y` and the second digit of `%d` with `\d`, which also accepts other Unicode decimal digits (`２０２４-01-01` is a valid date there), so such dates are rejected here as a format error.
- Dates.ValidateDateRange: `str(e)` in the format error is a parameter (`repr`). The "Date validation error" branch cannot be reached once the inputs are strings, so it is not modelled.
- Models.CompletionRate: states the rounding to one decimal as "within 0.05" of the exact share, because Python's `round` on a binary double is left out.
- App.Database.UpdateOrderStatus: notes that are neither text nor null are modelled as a database error. The error text is a parameter (`dbError`). The request body is a JSON object (`data`); a missing or non-object body, where `data.get` raises, is not modelled.
- App.Database.UpdatePaymentStatus: a transaction id that is neither text nor null is modelled as a database error. An inserted row's `payment_date` is NULL, standing for the column default. `nextPaymentId` stands for the serial key. The request body is a JSON object (`data`); a missing or non-object body, where `data.get` raises, is not modelled.
- App.OrdersQuery: `int()` parsing of `page` is not modelled, and `page` is any integer (a negative OFFSET included). SQL text is the `Fragment` enumeration; its evaluation is not modelled.
- Date and time display: `format_ist_datetime` and the `*_formatted` getters depend on the time-zone database.
- JSON: `Order.parse_items` and `JSON.parse` are not modelled.
- Browser and network: the DOM, toasts, confirm dialogs, fetch calls, Chart.js, flatpickr, Bootstrap and `window.open` are not modelled.
  - The confirmation answer is a parameter.
  - Requests, warnings and opened windows are recorded as lists.
  - Navigation records the query list, not the full `href`.
  - OrdersUi.OrdersPage.HandleBulkAction: records each export window by its query; the address text is given by OrdersUi.ExportSelectedOrders.
  - StatsUi.StatsPage.OnPeriodChange: assumes the `customDateRange` element exists.
  - OrdersUi.OrdersPage.OnRangeChange: assumes the `startDate` and `endDate` elements exist.
- Server infrastructure: Flask routing, sessions, logging, Cloudinary uploads, `calculate_statistics`, `log_admin_activity` and database connections are not modelled.
- Other files: `011static_js_dashboard.js` (chart wiring and polling) and `02config.py` (constant tables) are not part of this model.
