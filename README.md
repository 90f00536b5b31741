# Atlas Auto Works, modelled in Dafny

Atlas Auto Works is a car-customisation site. A visitor picks a vehicle,
paints, wraps, wheels, body kits, interiors and accessories, gets a priced
quote and books a workshop appointment. This project models the site's
deterministic business rules and proves properties about them:

- the two quote calculators: the server function and the copy the UI calls;
- slot availability from a string hash, and the booking handler's checks;
- the configurator store, modelled as a class;
- the two VIN decoders;
- the dot-path translation lookup;
- the car-model and storage registries;
- the part and wheel catalogues;
- the time-limited image cache over `localStorage`, modelled as a class;
- error classification and retry with backoff;
- the product catalogue endpoint: the SQL builder and grouping;
- the product selector's colour and selection rules.

Money is exact (`real`). Integers are unbounded where the source's doubles
are exact, and wrap explicitly where the source truncates to 32 bits. The
following are all parameters rather than modelled:

- the clock, the random generator and `navigator.onLine`;
- the database's answers and the JSON parser;
- the outcomes of retried calls.

Shared modules:

- `Json`: JavaScript values, truthiness and property access.
- `Text`: ASCII case mapping, whitespace runs, split/join, first-occurrence
  replace, UTF-16 code units and their order, the default sort, and decimal
  printing.
- `Numbers`: `Number(...)` on text.
- `Lists`: filtering, sublists, grouping and insertion-ordered sets.

Each source file then has its own module.

## Model

| member | source | states |
|---|---|---|
| ServerQuote.Ceil | netlify/functions/quote.js:67 | `Math.ceil`: the least integer at or above x |
| ServerQuote.ComputeQuote | netlify/functions/quote.js:39-94 | the `forEach` loop keeps one line per item, in order, and its running sums give the summary of the parts subtotal and labour hours; timeline, id `QT-<now>`, 30-day validity and `vehicle \|\| {}` |
| ServerQuote.Handle | netlify/functions/quote.js:15-107 | OPTIONS is a preflight; other non-POST methods get 405; an unparsable body fails with 500; a missing or empty item list gets 400 and is the only 400; a nullish item makes the loop throw (500); a POST with a non-empty item list and no nullish entry always gets the quote (a number or string entry reads as an item with no fields), and only such a POST does; the quote's lines, summary and timeline come from the items, its id is `QT-<now>`, it is valid for 30 days from `now`, and its vehicle is `vehicle \|\| {}` |
| ServerQuote.Items | netlify/functions/quote.js:43 | the items of an array with no nullish element, one per element and in order |
| ServerQuote.PartsSubtotalAppend | netlify/functions/quote.js:44-47 | the parts subtotal of `price \|\| 0` is additive over concatenated item lists |
| ServerQuote.TotalLaborHoursAppend | netlify/functions/quote.js:45-48 | the labour-hour sum of `laborHours \|\| 0` is additive over concatenated item lists |
| ServerQuote.LineLaborCostsAddUp | netlify/functions/quote.js:56-60 | the per-line labour costs add up to total hours times 350 |
| ServerQuote.TaxAndTotal | netlify/functions/quote.js:60-64 | labour is 350 per hour; the rush fee is 25% of parts plus labour, or 0; tax is 20% of the rush-inclusive subtotal; the total is 1.2 times the subtotal |
| ServerQuote.RushScalesTotal | netlify/functions/quote.js:61-64 | a rush order's total and tax are exactly 1.25 times those of the same order without rush: the fee does not compound |
| ServerQuote.TotalsOrdered | netlify/functions/quote.js:60-64 | with nonnegative inputs, total >= subtotal >= parts + labour, and rush strictly raises a nonzero total |
| ServerQuote.CeilMonotone | netlify/functions/quote.js:67 | `Math.ceil` is monotone |
| ServerQuote.WorkDaysMonotone | netlify/functions/quote.js:67-69 | more hours never give fewer work days or a shorter estimate; the estimate is work days plus 2 with rush or 5 without |
| ServerQuote.SeedExampleStandard | netlify/functions/quote.js:60-69 | the seeded product (4500 MAD, 24 h) without rush: labour 8400, tax 2580, total 15480, 8 days |
| ServerQuote.SeedExampleRush | netlify/functions/quote.js:60-69 | the same product with rush: fee 3225, subtotal 16125, total 19350, 5 days |
| Booking.ToInt32 | netlify/functions/booking.js:34 | ECMAScript ToInt32: a signed 32-bit result, congruent to the input modulo 2^32, and the identity on the 32-bit range |
| Booking.ToInt32Shift | netlify/functions/booking.js:34 | ToInt32 ignores multiples of 2^32 |
| Booking.HashUnitsWraps | netlify/functions/booking.js:33-35 | the reducer's hash, where only `a << 5` wraps, agrees modulo 2^32 with the wrapped rolling hash `(31h + c) \| 0` |
| Booking.GetBookedSlots | netlify/functions/booking.js:32-47 | the `forEach` loop returns the booked slots; a canonical slot is among them exactly when 3 divides `hash + i` |
| Booking.GetAvailableSlots | netlify/functions/booking.js:49-53 | an available slot is exactly a canonical slot that is not booked, and the list keeps canonical order |
| Booking.BookedPattern | netlify/functions/booking.js:38-44 | the booked slots depend only on `hash mod 3`: 09:00 and 14:00, 11:00 and 16:00, or 10:00 and 15:00 |
| Booking.BookedMembership | netlify/functions/booking.js:38-44 | a canonical slot is in the booked list exactly when `(hash + i) % 3 === 0` for its index `i` |
| Booking.WithoutPair | netlify/functions/booking.js:50-52 | removing each of the three booked pairs from the six slots leaves the other four, in order |
| Booking.AvailablePattern | netlify/functions/booking.js:32-53 | for every location and date, exactly two slots are booked and four are available, and which four is fixed by `hash mod 3` |
| Booking.AvailableIffNotBooked | netlify/functions/booking.js:49-52 | a time is available iff it is a canonical slot whose index is not booked |
| Booking.FindLocation | netlify/functions/booking.js:118 | `locations.find`: found exactly when some location has the id, and then it is that location |
| Booking.Handle | netlify/functions/booking.js:55-175 | OPTIONS is a preflight; GET on `''` or `/locations` lists the three locations; GET `/availability` needs both parameters (400) and answers the available slots; POST fails with 500 on an unparsable body, then rejects with 400 for missing fields, an unknown location or an unavailable time, in that order, and otherwise creates (201) a confirmed booking with the `date T time :00` datetime, `vehicle \|\| {}` and `quoteId \|\| null`; anything else gets 404 |
| ClientApi.CalculateQuote | src/utils/api.js:54-95 | Err (the `reduce` throws) exactly when some item is null or undefined; otherwise the summary of the `Number(price) \|\| 0` and `Number(labor_hours \|\| laborHours) \|\| 0` sums, the client estimate, the items and vehicle as given, and an id `Q-` plus at most nine characters |
| ClientApi.SameMoneyAsServer | src/utils/api.js:58-73 | the client's parts, labour, rush fee, tax and total equal the server's for the same inputs; tax is 20% of the taxable amount and the total 1.2 times it |
| ClientApi.EstimateDiffersFromServer | src/utils/api.js:92 | the client's estimate is 2 days shorter than the server's with rush and 3 days shorter without, so the two never agree |
| ClientApi.HoursPreferSnakeCase | src/utils/api.js:61 | `labor_hours` is used whenever it is truthy, otherwise `laborHours` |
| ClientApi.PartsSubtotalAppend | src/utils/api.js:58 | the parts sum is additive over concatenated item lists |
| ClientApi.LaborHoursAppend | src/utils/api.js:61 | the hours sum is additive over concatenated item lists |
| ClientApi.SeedExample | src/utils/api.js:54-95 | the seeded product gives the server's totals, 15480 and 19350 with rush, but 5 and 3 days instead of 8 and 5 |
| ClientApi.StringsOf | src/utils/api.js:112-114 | the string values among the booked times; only these can equal a slot under `includes` |
| ClientApi.GetAvailability | src/utils/api.js:97-117 | no client or a query error fails open with all eight slots; otherwise the slots without the booked times |
| ClientApi.AvailabilityFilter | src/utils/api.js:112-123 | a slot is free iff it is one of the eight and no booked time equals it; the free slots keep the fixed order and number at most eight |
| ClientApi.Flatten | src/utils/api.js:131-142 | rejected exactly when the data or its customer is null or undefined; otherwise a row has the nine snake_case columns with status pending |
| ClientApi.CreateBooking | src/utils/api.js:125-155 | without a client: the data's own properties spread over `SIMULATED-<now>`, with status pending, and no key besides `id`, `status` and the spread ones; with a client: a `TypeError` exactly when the data does not flatten, otherwise the record the database returns, or the insert error's message thrown |
| ClientApi.FlattenUnflatten | src/utils/api.js:131-142 | every pending row is the flattening of the booking data it stands for: nothing is lost |
| ClientApi.Normalize | src/utils/api.js:35-39 | a product keeps every column, gains `laborHours` from `labor_hours`, and keeps its category |
| ClientApi.NormalizeAll | src/utils/api.js:35 | one normalised product per row, in order |
| ClientApi.GetProducts | src/utils/api.js:14-52 | no client gives an empty list; a query error is rethrown; with a category, the normalised rows; without one, the rows grouped by category |
| ClientApi.NormalizedCategories | src/utils/api.js:35-39 | normalising keeps the set of categories |
| ClientApi.GroupedProducts | src/utils/api.js:42-48 | without a category, a group exists exactly for the categories present, and it holds that category's products in row order, and only those |
| Store.DefaultConfiguration | src/store/useStore.js:13-21 | the empty configuration: exactly the six item keys and `accessories`; every item is null and the accessory list is empty |
| Store.Store.constructor | src/store/useStore.js:3-80 | the store's initial state: step 0, no vehicle, the default configuration, both colours `#1C1C1C`, Casablanca / summer / day, no quote, booking or products, not loading |
| Store.Store.SetCurrentStep | src/store/useStore.js:6 | sets `currentStep`; every other field is unchanged |
| Store.Store.SetVehicle | src/store/useStore.js:10 | sets `vehicle`; every other field is unchanged |
| Store.Store.SetConfiguration | src/store/useStore.js:22-24 | the configuration gains or overwrites the one key; every other key and field is unchanged |
| Store.Store.AddAccessory | src/store/useStore.js:25-30 | succeeds exactly when the accessories value can be spread; the accessory is then appended after the old ones; otherwise nothing changes (the spread throws) |
| Store.Store.RemoveAccessory | src/store/useStore.js:31-36 | succeeds exactly when the accessories are an array with no null or undefined element; the list then loses the entries whose `id` is strictly equal to the argument; otherwise nothing changes |
| Store.Store.ClearConfiguration | src/store/useStore.js:37-47 | the configuration becomes the default configuration; every other field is unchanged |
| Store.Store.SetCarColor | src/store/useStore.js:51 | sets `carColor`; every other field is unchanged |
| Store.Store.SetWheelColor | src/store/useStore.js:54 | sets `wheelColor`; every other field is unchanged |
| Store.Store.SetSelectedLocation | src/store/useStore.js:58 | sets `selectedLocation`; every other field is unchanged |
| Store.Store.SetSelectedSeason | src/store/useStore.js:61 | sets `selectedSeason`; every other field is unchanged |
| Store.Store.SetTimeOfDay | src/store/useStore.js:64 | sets `timeOfDay`; every other field is unchanged |
| Store.Store.SetQuote | src/store/useStore.js:68 | sets `quote`; every other field is unchanged |
| Store.Store.SetBooking | src/store/useStore.js:72 | sets `booking`; every other field is unchanged |
| Store.Store.SetProducts | src/store/useStore.js:76 | sets `products`; every other field is unchanged |
| Store.Store.SetIsLoading | src/store/useStore.js:80 | sets `isLoading`; every other field is unchanged |
| Store.Store.Reset | src/store/useStore.js:105-121 | resets step, vehicle, configuration, both colours, quote and booking; location, season, time of day, products and loading are kept |
| Store.Store.GetSelectedItems | src/store/useStore.js:83-96 | the six guarded pushes yield the specification: the truthy items in key order, then the spread accessories; no result when the accessories cannot be spread |
| Store.Store.GetTotal | src/store/useStore.js:99-102 | no total when the selection throws; otherwise the reduction of `price \|\| 0` over the selected items, a `true` price adding 1 |
| Store.TruthyValuesAreTruthy | src/store/useStore.js:87-92 | every pushed item is truthy, and there are at most as many as keys |
| Store.OtherKeysIgnored | src/store/useStore.js:87-92 | a key outside the list does not affect the selection |
| Store.SelectedItemsIgnoreOtherKeys | src/store/useStore.js:84-95 | setting a key that is neither an item key nor `accessories` leaves the selection unchanged |
| Store.DefaultSelectsNothing | src/store/useStore.js:13-21 | the default configuration selects nothing and totals 0 |
| Store.AddAccessoryAppends | src/store/useStore.js:25-30 | adding an accessory appends it to the end of the selection |
| Store.RemoveByIdDefined | src/store/useStore.js:34 | the filter succeeds exactly when no element is null or undefined |
| Store.RemoveByIdMembers | src/store/useStore.js:34 | an element survives exactly when it was there and its `id` is not strictly equal to the argument |
| Store.RemoveByIdOrdered | src/store/useStore.js:34 | the survivors keep their order: they form a sublist of the original |
| Store.RemoveByIdIdempotent | src/store/useStore.js:34 | removing the same id twice is the same as removing it once |
| Store.AddThenRemove | src/store/useStore.js:25-36 | appending an accessory and then removing its id is the same as removing the id from the old list, for an id that is strictly equal to itself |
| Store.TotalAppend | src/store/useStore.js:101 | the total of a concatenation is the sum of the totals |
| ProductSelector.HexDigitValue | src/components/ProductSelector.jsx:10-12 | a hexadecimal digit's value is below 16 |
| ProductSelector.HexChar | src/components/ProductSelector.jsx:19-21 | `toString(16)` writes a digit below 16 as a lowercase hex digit that reads back as the same value |
| ProductSelector.NatToHex | src/components/ProductSelector.jsx:19-21 | `toString(16)` is never empty |
| ProductSelector.Clamp | src/components/ProductSelector.jsx:16 | `Math.max(0, Math.min(255, n))` lies in 0..255 and keeps any n already in range |
| ProductSelector.Adjust | src/components/ProductSelector.jsx:14-17 | NaN stays NaN, and a number is adjusted into 0..255 |
| ProductSelector.Scale | src/components/ProductSelector.jsx:15-16 | the rounded adjusted channel lies in 0..255 |
| ProductSelector.ByteText | src/components/ProductSelector.jsx:19-21 | a byte prints as exactly two lowercase digits: high nibble, then low nibble |
| ProductSelector.ParsePair | src/components/ProductSelector.jsx:10-12 | `parseInt` of two hex digits, base 16, is 16 times the first plus the second |
| ProductSelector.ByteRoundTrip | src/components/ProductSelector.jsx:10-21 | a byte printed with `toString(16).padStart(2, '0')` parses back to itself |
| ProductSelector.ChannelFormat | src/components/ProductSelector.jsx:14-21 | a channel that parses comes out as two lowercase hex digits |
| ProductSelector.BrightenFormat | src/components/ProductSelector.jsx:10-23 | three parseable channels give `#` and six lowercase hex digits |
| ProductSelector.AdjustBrightness | src/components/ProductSelector.jsx:8-24 | the result always starts with `#` (its format, its identity at 0% and its black at -100% are stated by `ProductSelector.AdjustBrightnessFormat`, `ProductSelector.AdjustByZeroIsIdentity` and `ProductSelector.AdjustByMinusHundredIsBlack`) |
| ProductSelector.AdjustBrightnessFormat | src/components/ProductSelector.jsx:8-24 | whatever the percentage, a colour whose three channels parse comes out as `#rrggbb` in lowercase |
| ProductSelector.BrightenNaN | src/components/ProductSelector.jsx:10-23 | an unparseable red channel prints as `#NaN...` |
| ProductSelector.AdjustBrightnessNaN | src/components/ProductSelector.jsx:8-24 | a colour whose red channel does not parse gives a result starting `#NaN` |
| ProductSelector.LowerHexDigit | src/components/ProductSelector.jsx:10-21 | parsing and printing a lowercase hex digit gives back the same digit |
| ProductSelector.PairUnchanged | src/components/ProductSelector.jsx:14-21 | a 0% adjustment prints a lowercase two-digit channel unchanged |
| ProductSelector.StripHash | src/components/ProductSelector.jsx:9 | `replace('#', '')` on a colour starting with `#` drops exactly that character |
| ProductSelector.ChannelKept | src/components/ProductSelector.jsx:10-21 | a lowercase channel comes back unchanged from a 0% adjustment |
| ProductSelector.BrightenByZero | src/components/ProductSelector.jsx:10-23 | a 0% adjustment of six lowercase hex digits gives them back behind `#` |
| ProductSelector.AdjustByZeroIsIdentity | src/components/ProductSelector.jsx:8-24 | a 0% adjustment is the identity on lowercase `#rrggbb` colours |
| ProductSelector.ChannelBlack | src/components/ProductSelector.jsx:14-21 | a -100% adjustment turns any parseable channel into `00` |
| ProductSelector.BrightenByMinusHundred | src/components/ProductSelector.jsx:10-23 | a -100% adjustment of a colour whose three channels parse gives `#000000` |
| ProductSelector.AdjustByMinusHundredIsBlack | src/components/ProductSelector.jsx:8-24 | a -100% adjustment turns any parseable colour black |
| ProductSelector.FinishColor | src/components/ProductSelector.jsx:164-172 | the six listed finishes get their colour; any other finish, including a missing one, gets `#4a4a4a` |
| ProductSelector.SelectEffect | src/components/ProductSelector.jsx:145-174 | only the picker's own key changes, to null (a deselect, which keeps both colours) or to the product; the car colour changes only for paints and wraps, the wheel colour only for wheels |
| ProductSelector.HandleSelect | src/components/ProductSelector.jsx:143-174 | the store's configuration and colours change as the selection effect says: the same id deselects by storing null; otherwise the product is stored and paints, wraps and wheels update the preview colours; no other store field changes |
| ProductSelector.SelectTwiceDeselects | src/components/ProductSelector.jsx:147-152 | selecting a new product twice leaves the category set to null |
| ProductSelector.PluralCategoryNotQuoted | src/components/ProductSelector.jsx:152 | as written, selecting under `paints`, `wraps` or `bodykits` leaves the store's selected items unchanged (the configurator opens the pickers under those names, src/pages/ConfiguratorPage.jsx:204-222) |
| ProductSelector.AccessorySelectionBreaksItems | src/components/ProductSelector.jsx:152 | as written, an accessory selection replaces the list with one object, and the selected items then throw (the accessory picker, src/pages/ConfiguratorPage.jsx:230) |
| ProductSelector.TruthyValueListed | src/store/useStore.js:87-92 | a truthy value under one of the keys is among the pushed items |
| ProductSelector.IntendedSelectionQuoted | src/components/ProductSelector.jsx:143-174 | with the corrected handler, a new selection from any of the seven pickers is among the selected items |
| VinText.KeepVinChars | netlify/functions/vin-decode.js:52 | removing the characters outside `[A-Z0-9]` never makes the text longer |
| VinText.KeepVinCharsSpec | netlify/functions/vin-decode.js:52 | what is left holds only uppercase letters and digits, and a text of such characters is kept whole |
| VinText.CleanChars | netlify/functions/vin-decode.js:52 | a cleaned VIN holds only uppercase ASCII letters and digits |
| VinText.CleanFixesVinText | netlify/functions/vin-decode.js:52 | cleaning leaves a VIN unchanged exactly when it already holds only uppercase letters and digits |
| VinText.CleanIdempotent | netlify/functions/vin-decode.js:52 | cleaning twice is cleaning once |
| VinServer.MatchedKey | netlify/functions/vin-decode.js:69-70 | a match is a database key equal to the first 8 characters of the cleaned VIN |
| VinServer.Decode | netlify/functions/vin-decode.js:50-83 | a decoded result carries the cleaned VIN, `decoded: true`, the timestamp, and the database car for its 8-character prefix, or the generated car when there is none |
| VinServer.DecodeOutcome | netlify/functions/vin-decode.js:55-66 | the error checks in order: too short exactly below 8 characters; too long exactly above 17; forbidden letters exactly for I, O or Q at a valid length; decoded exactly otherwise |
| VinServer.OnlyEightCharacterKeysMatch | netlify/functions/vin-decode.js:69-70 | only the 8-character keys can match; the 11- and 17-character keys are never looked up |
| VinServer.DecodedVinIsClean | netlify/functions/vin-decode.js:52-82 | a decoded VIN is 8 to 17 uppercase letters and digits without I, O or Q |
| VinServer.SeedPorsche | netlify/functions/vin-decode.js:20-21 | the full Porsche VIN decodes as the 911 Carrera through its 8-character prefix |
| VinServer.RequestVin | netlify/functions/vin-decode.js:149-155 | reading the VIN throws exactly for a POST whose body is not JSON or is `null`; a GET reads the `vin` query parameter, and `undefined` without one |
| VinServer.Handle | netlify/functions/vin-decode.js:136-188 | OPTIONS is a preflight; an unreadable body fails; a falsy VIN is required; otherwise the result is the decoder's, rejected exactly on its errors and a success exactly when decoded |
| VinServer.HandleStatus | netlify/functions/vin-decode.js:158-180 | status 400 exactly for a falsy VIN or a decoder error; status 200 exactly for a non-empty string VIN that decodes |
| VinClient.FindPrefix | src/utils/vinDecoder.js:77 | `find` with `startsWith`: the first key that prefixes the VIN, or none when no key does |
| VinClient.Lookup | src/utils/vinDecoder.js:79-80 | a found car is stored under that key; no car means no entry has that key |
| VinClient.Decode | src/utils/vinDecoder.js:68-94 | throws exactly when the cleaned VIN is shorter than 8 characters; otherwise carries the cleaned VIN, `decoded: true` and the timestamp |
| VinClient.SecondLookupRedundant | src/utils/vinDecoder.js:77-86 | the exact 8-character lookup never changes the outcome: the car is the first prefix match, or the generated car |
| VinClient.DecodeSpec | src/utils/vinDecoder.js:68-94 | a decoded VIN is clean and at least 8 characters long, and holds the first prefix match's car or the generated one |
| VinClient.QAcceptedByClientOnly | src/utils/vinDecoder.js:72-81 | a VIN containing Q is decoded as the BMW M4 by the client and rejected by the server (netlify/functions/vin-decode.js:64-66) |
| VinClient.LongAcceptedByClientOnly | src/utils/vinDecoder.js:72 | a 20-character VIN is decoded by the client and rejected as too long by the server (netlify/functions/vin-decode.js:59-61) |
| Translation.T | src/i18n/useTranslation.js:20-45 | the two loops, one over the segments and one over the parameters, compute the specification: walk the tree, return the key for anything other than a string, then replace the first `{name}` for each parameter in turn |
| Translation.Translate | src/i18n/useTranslation.js:20-45 | the key itself unless the path resolves to a text; with no parameters, exactly that text |
| Translation.ResolveAppend | src/i18n/useTranslation.js:24-31 | walking a path in two parts is walking the first part and then the rest from where it ended |
| Translation.MissingLanguageFallsBack | src/i18n/useTranslation.js:22 | a language without a tree translates exactly as French does |
| Translation.NonStringGivesKey | src/i18n/useTranslation.js:25-36 | a walk that fails, or that ends on anything other than a string, gives back the key |
| Translation.StopsAtNonObject | src/i18n/useTranslation.js:25-30 | reaching a value that is not an object before the last segment gives back the key, whatever follows |
| Translation.NoParamsUnchanged | src/i18n/useTranslation.js:39-44 | without parameters, the resolved text comes back unchanged |
| Translation.OnlyFirstOccurrenceReplaced | src/i18n/useTranslation.js:41 | a parameter replaces only the first `{name}`; a second one stays in the text |
| Translation.TwoSegments | src/i18n/useTranslation.js:21-36 | a key `a.b` whose path resolves to a text gives that text |
| Translation.PastTextGivesKey | src/i18n/useTranslation.js:25-30 | a key that goes one segment past a text gives back the key |
| Translation.NavHome | src/i18n/useTranslation.js:8-22 | `t('nav.home')` gives "Accueil", both in French and, through the fallback, in a language that has no tree |
| Translation.SubtreeGivesKey | src/i18n/useTranslation.js:33-36 | a key that ends on a subtree gives back the key |
| Translation.SplitOne | src/i18n/useTranslation.js:21 | a key without a dot is a single segment |
| Translation.SplitDotted | src/i18n/useTranslation.js:21 | splitting `a.b`, where `a` has no dot, gives `a` followed by the segments of `b` |
| CarModelMapping.Lookup | src/utils/carModelMapping.js:125-131 | a found file is the file of an entry with that key (found iff some entry has it, and the first one wins, by `CarModelMapping.LookupSpec`) |
| CarModelMapping.LookupSpec | src/utils/carModelMapping.js:6-125 | the lookup finds a file exactly when some entry has the key, and it finds the file of the first such entry |
| CarModelMapping.SupabaseModelUrl | src/utils/supabaseClient.js:6-28 | the public URL is the configured base, or the hardcoded project address when none is configured, followed by `/storage/v1/object/public/cars/` and the file name |
| CarModelMapping.CarModelPath | src/utils/carModelMapping.js:114-148 | null when the vehicle, its make or its model is falsy; a TypeError exactly when a truthy make or model is not a string; a path only for string names whose full or base key finds a file, and then it is that file's Supabase URL |
| CarModelMapping.HasCarModel | src/utils/carModelMapping.js:155-157 | throws exactly where the path lookup throws, and is true exactly when a path is found |
| CarModelMapping.AvailableModels | src/utils/carModelMapping.js:163-165 | the table's keys, one per entry and in declaration order |
| CarModelMapping.NullIffNoKey | src/utils/carModelMapping.js:120-136 | for a non-empty make and model: null exactly when neither the full key nor the base key is in the table; otherwise the full key's file wins over the base key's |
| CarModelMapping.StringVehicle | src/utils/carModelMapping.js:119-143 | a non-empty make and model get the Supabase URL of the file found, or null |
| CarModelMapping.LocalFallbackUnreachable | src/utils/carModelMapping.js:139-147 | every URL found starts with the Supabase base, so the local `/models/` fallback is never returned (the base comes from src/utils/supabaseClient.js:23-28) |
| CarModelMapping.HasCarModelIffPath | src/utils/carModelMapping.js:155-157 | for string names, `hasCarModel` is exactly "the path is not null" |
| CarModelMapping.AvailableIffFound | src/utils/carModelMapping.js:163-165 | a key is listed by `getAvailableModels` exactly when looking it up finds a file |
| CarModelMapping.ReplaceSpaceRunsNoUpper | src/utils/carModelMapping.js:120-121 | replacing white-space runs by text without uppercase letters adds no uppercase letter |
| CarModelMapping.KeyNormalised | src/utils/carModelMapping.js:120-122 | the lookup key has no white space and no uppercase ASCII letter |
| CarModelMapping.Normalise | src/utils/carModelMapping.js:120-121 | the normalised make or model has no white space and no uppercase ASCII letter |
| CarModelMapping.NormaliseWord | src/utils/carModelMapping.js:120 | a word without spaces is only lowercased |
| CarModelMapping.NormaliseTwoWords | src/utils/carModelMapping.js:120 | two words with one space between them are joined by `-` |
| CarModelMapping.LookupAppend | src/utils/carModelMapping.js:6-107 | looking up in a concatenated table looks in the first part, then in the second |
| CarModelMapping.M4CompetitionEntry | src/utils/carModelMapping.js:10 | the table holds the M4 Competition file under `bmw-m4-competition` |
| CarModelMapping.Porsche911Entry | src/utils/carModelMapping.js:15 | the table holds the Cayman file under `porsche-911` |
| CarModelMapping.M4Competition | src/utils/carModelMapping.js:120-122 | make "BMW" and model "M4 Competition" are looked up under `bmw-m4-competition` |
| CarModelMapping.Porsche911Turbo | src/utils/carModelMapping.js:120-131 | make "Porsche" and model "911 Turbo" are looked up under `porsche-911-turbo`, then under the base key `porsche-911` |
| CarModelMapping.NormaliseOne | src/utils/carModelMapping.js:120 | "BMW" and "Porsche" normalise to their lowercase forms |
| CarModelMapping.NormaliseTwo | src/utils/carModelMapping.js:121 | "M4 Competition" and "911 Turbo" normalise to hyphenated lowercase |
| CarModelMapping.FirstSegment | src/utils/carModelMapping.js:129 | the first `-` segment of `a-b` is `a` when `a` has no `-` |
| StorageConfig.Find | src/config/storageConfig.js:111-117 | an entry is found exactly when the category and the product are both present, and it is the stored entry |
| StorageConfig.ModelUrl | src/config/storageConfig.js:110-130 | a URL only for an entry present in the registry, and it ends with that entry's path (the three cases are stated by `StorageConfig.ModelUrlCases`) |
| StorageConfig.IsModelAvailable | src/config/storageConfig.js:133-137 | available exactly when the category and the product are both in the registry |
| StorageConfig.ModelUrlCases | src/config/storageConfig.js:110-130 | a URL exactly for a present entry with a known backend: `/models` plus the path for LOCAL, the Supabase public base plus the path for SUPABASE |
| StorageConfig.UrlMeansAvailable | src/config/storageConfig.js:110-137 | a URL implies that the model is available; an available model lacks a URL exactly when its backend is unknown |
| StorageConfig.ShippedRegistryIsLocal | src/config/storageConfig.js:34-107 | every entry of the shipped registry uses the LOCAL backend |
| StorageConfig.LocalRegistryUrls | src/config/storageConfig.js:110-137 | in a registry of LOCAL entries, a URL exists exactly when the model is available, and it is `/models` followed by the path |
| StorageConfig.Exhaust | src/config/storageConfig.js:121 | the exhaust accessory's URL is `/models/accessories/exhaust.glb` |
| PartConfigs.GetConfig | src/config/partConfigs.js:400-414 | each `get...Config` finds the table's entry exactly when the id is present, and gives null otherwise |
| PartConfigs.PartGlbUrl | src/config/partConfigs.js:416-419 | null exactly for an empty base path; otherwise the Supabase base followed by the path |
| PartConfigs.PartGlbUrlInverse | src/config/partConfigs.js:416-419 | the URL splits back into the Supabase base and the base path it was built from |
| PartConfigs.BodykitParts | src/config/partConfigs.js:422-434 | no parts for an unknown kit or a kit without `parts`; otherwise one record per part |
| PartConfigs.BodykitPartsInOrder | src/config/partConfigs.js:426-433 | record i carries part i's key as both `key` and `name`, and that part's URL, position, rotation and scale |
| PartConfigs.NoKitB002 | src/config/partConfigs.js:422-424 | there is no kit `b002`, so it has no configuration and no parts |
| PartConfigs.SpoilerParts | src/config/partConfigs.js:18-29 | the GT wing kit has one part, `spoiler`, at position (-1.8, 0.8, 0) |
| PartConfigs.Material.constructor | src/config/partConfigs.js:92-95 | a material object holds the colour, metalness and roughness it was given |
| PartConfigs.AppliedColor | src/config/partConfigs.js:444-445 | a colour is applied exactly when the selected name is non-empty and is an option with a non-empty value, and it is that option's value |
| PartConfigs.GetInteriorMaterials | src/config/partConfigs.js:437-451 | null for an unknown interior; otherwise a shallow copy of its materials in which the seats and door panels shared with the table take the applied colour, while every other colour, metalness and roughness is unchanged |
| PartConfigs.InteriorConfigs | src/config/partConfigs.js:87-163 | the six interiors, with the leather retrim's seats at `#8B4513`, its four colour options, and the ambient lighting kit without materials |
| PartConfigs.RecolourPersists | src/config/partConfigs.js:441-448 | because the copy is shallow, choosing "Red" for the leather retrim leaves a later call without a colour returning red seats, not `#8B4513` |
| WheelConfigs.Rim | src/config/wheelConfigs.js:20-33 | a rim entry is keyed by its id, takes its GLB path from the wheel registry under that same id, and has scale 1 |
| WheelConfigs.Tyre | src/config/wheelConfigs.js:316-322 | a tyre entry is keyed by its id and takes its GLB path from the tyre registry under that same id |
| WheelConfigs.Get | src/config/wheelConfigs.js:385-391 | `getWheelConfig` and `getTireConfig`: null exactly when no entry has the id; otherwise the first entry with that id |
| WheelConfigs.WheelConfig | src/config/wheelConfigs.js:385-387 | null exactly when no rim of the catalogue has the id; otherwise a rim the catalogue holds under that id |
| WheelConfigs.TireConfig | src/config/wheelConfigs.js:389-391 | null exactly when no tyre of the catalogue has the id; otherwise a tyre the catalogue holds under that id |
| WheelConfigs.PathOr | src/config/wheelConfigs.js:393-401 | `config?.glbPath \|\| null` gives a path exactly when the config exists and its path is non-null and non-empty |
| WheelConfigs.WheelGlbPath | src/config/wheelConfigs.js:393-396 | a path exactly when the rim exists and its path is non-null and non-empty, and then that path |
| WheelConfigs.TireGlbPath | src/config/wheelConfigs.js:398-401 | a path exactly when the tyre exists and its path is non-null and non-empty, and then that path |
| WheelConfigs.AllWheelOptions | src/config/wheelConfigs.js:404-409 | one option per wheel entry |
| WheelConfigs.AllTireOptions | src/config/wheelConfigs.js:411-416 | one option per tyre entry |
| WheelConfigs.AllWheelOptionsSpec | src/config/wheelConfigs.js:404-409 | option i carries entry i's id and spreads entry i's fields; with distinct ids, looking up an option's id gives back its configuration |
| WheelConfigs.AllTireOptionsSpec | src/config/wheelConfigs.js:411-416 | option i carries entry i's id and spreads entry i's fields; with distinct ids, looking up an option's id gives back its configuration |
| WheelConfigs.DistinctGet | src/config/wheelConfigs.js:385-391 | with distinct ids, every entry is found under its own id |
| WheelConfigs.ModelUrlNonEmpty | src/config/storageConfig.js:119-128 | a URL from the registry is never empty, so `\|\| null` never discards one |
| WheelConfigs.WheelPathsFromRegistry | src/config/wheelConfigs.js:393-396 | every rim's path is the wheel registry's URL for its own id, and `getWheelGLBPath` returns it |
| WheelConfigs.TirePathsFromRegistry | src/config/wheelConfigs.js:315-372 | there are eight tyres; the first seven take their path from the tyre registry, and `t008` is the borrowed entry |
| WheelConfigs.BorrowedTyrePath | src/config/wheelConfigs.js:365-371 | the `t008` tyre's GLB path is the wheel registry's URL for rim `r019` |
| WheelConfigs.NoTyreModelT008 | src/config/storageConfig.js:61-69 | the shipped registry has no tyre model `t008` |
| ImageCache.TotalSizeRemove | src/utils/imageCache.js:124-127 | the summed size is any one entry's size plus the sum over the others |
| ImageCache.StatsStep | src/utils/imageCache.js:124-138 | visiting one more key adds its size, and adds one to exactly one of the expired and valid counts, as its entry is stale or not |
| ImageCache.CountsPartition | src/utils/imageCache.js:117-138 | the valid and expired counts add up to the number of image keys |
| ImageCache.ImageCache.constructor | src/utils/imageCache.js:6-7 | the cache starts over the given store |
| ImageCache.ImageCache.CacheImage | src/utils/imageCache.js:20-36 | a successful write stores the URL, the time and the parameters under the key and returns true; a failed write prunes the expired entries and returns false |
| ImageCache.ImageCache.GetCachedImage | src/utils/imageCache.js:41-62 | returns the URL of a present, readable, unexpired entry (one without a numeric timestamp never expires) and null otherwise; an expired entry that parses is removed, and nothing else changes |
| ImageCache.ImageCache.ClearExpiredCache | src/utils/imageCache.js:67-88 | every prefixed entry that is empty, unreadable or older than 24 hours is removed, and every other entry is kept, including one without a numeric timestamp |
| ImageCache.ImageCache.ClearAllImageCache | src/utils/imageCache.js:93-106 | every prefixed entry is removed, and the call returns true |
| ImageCache.ImageCache.GetCacheStats | src/utils/imageCache.js:111-148 | the loop counts the prefixed keys as valid or expired, which together make the total, and their sizes summed and rounded to kilobytes |
| ImageCache.Key | src/utils/imageCache.js:12-15 | every key starts with `atlas_image_` and contains no white space |
| ImageCache.ReadAfterPut | src/utils/imageCache.js:20-57 | reading back a written image gives its URL for 24 hours and leaves the store unchanged; after that it gives null and removes the entry |
| ImageCache.PrunedKeepsReads | src/utils/imageCache.js:41-88 | pruning never changes what a read at the same time returns; it keeps every unprefixed key and every kept value |
| ImageCache.PrunedHasNoExpired | src/utils/imageCache.js:67-88 | after pruning no image entry is expired, and pruning again changes nothing |
| ImageCache.ClearedHasNoImages | src/utils/imageCache.js:93-106 | after clearing, no image key is left and any read gives null, while every unprefixed entry is kept unchanged |
| ImageCache.SpaceInSeasonCollides | src/utils/imageCache.js:14 | a space inside the season gives the same key as `_` in its place |
| ImageCache.KeysCollide | src/utils/imageCache.js:14 | two different parameter sets, seasons "late summer" and "late_summer", share one key |
| ImageCache.PrefixNoSpace | src/utils/imageCache.js:6 | the prefix contains no white space |
| ImageCache.NoSpaceConcat | src/utils/imageCache.js:14 | joining texts without white space gives a text without white space |
| ImageCache.SpaceReadsAsSeparator | src/utils/imageCache.js:14 | one space between two words reads the same as `_` |
| ImageCache.LeadingSpace | src/utils/imageCache.js:14 | a leading space becomes one `_` |
| ImageCache.LeadingSeparator | src/utils/imageCache.js:14 | a leading `_` is kept unchanged |
| ErrorHandler.NewAppError | src/utils/errorHandler.js:6-14 | an `AppError` holds the message, the code and the creation time, and its details default to `{}` when none are given |
| ErrorHandler.HandleApiError | src/utils/errorHandler.js:34-76 | throws exactly for a null or undefined error while online; offline always gives the network error; every result carries the time of the call (the full precedence, messages and details are stated by `ErrorHandler.Precedence`, `ErrorHandler.FixedMessages` and `ErrorHandler.KeptMessages`) |
| ErrorHandler.Precedence | src/utils/errorHandler.js:34-76 | throws exactly for a null or undefined error while online; otherwise each code is chosen exactly when its own test holds and no earlier one does: offline, timeout, 401 or 403, 429, 404, 400, and the generic code for the rest |
| ErrorHandler.FixedMessages | src/utils/errorHandler.js:19-60 | network, timeout, API-key, rate-limit and not-found errors carry their catalogue message |
| ErrorHandler.KeptMessages | src/utils/errorHandler.js:63-75 | a 400 or a generic error keeps its own truthy message and otherwise takes the catalogue's; only a 400 passes its details on, and every other error has `{}` |
| ErrorHandler.CodesDistinct | src/utils/errorHandler.js:19-29 | the seven codes that are used are pairwise different |
| ErrorHandler.OfflineWins | src/utils/errorHandler.js:38-40 | offline, any error, including null, becomes the network error |
| ErrorHandler.TimeoutBeforeStatus | src/utils/errorHandler.js:43-50 | an `AbortError` with status 401 is still classified as a timeout |
| ErrorHandler.RetryWithBackoff | src/utils/errorHandler.js:103-115 | with no retries allowed, nothing is called and the result is undefined; otherwise it returns the first success or, after the allowed number of calls have all failed, the last error; every earlier call failed, and wait i is `delay * 2^i` |
| ErrorHandler.TotalWait | src/utils/errorHandler.js:110-112 | after n waits the total wait is `delay * (2^n - 1)` |
| Products.HttpUrl | netlify/functions/products.js:8-11 | null exactly for a missing or empty URL; otherwise the URL with at most its scheme shortened by one character (the cases are stated by `Products.HttpUrlCases`) |
| Products.HttpUrlCases | netlify/functions/products.js:8-11 | a missing or empty URL gives null; a `libsql://` URL becomes the same address under `https://`; a URL without that scheme is kept |
| Products.PlaceholdersAppend | netlify/functions/products.js:81-98 | the `?` count of concatenated statement fragments is the sum of their counts |
| Products.NoPlaceholders | netlify/functions/products.js:81-98 | a fragment without `?` has no placeholder |
| Products.PlaceholdersAt | netlify/functions/products.js:85-93 | the placeholder count is the number of positions that hold `?` |
| Products.FragmentPlaceholders | netlify/functions/products.js:81-98 | the SELECT and ORDER BY fragments have no placeholder; the category filter has one |
| Products.SearchPlaceholders | netlify/functions/products.js:91-93 | both search filters have two placeholders |
| Products.PlaceholdersMatchParams | netlify/functions/products.js:81-98 | for every combination of filters, the statement has exactly as many `?` as there are values |
| Products.BuildQuery | netlify/functions/products.js:81-98 | the pushes and concatenations build the statement and values of the specification; the category comes first when given, and the two values for a search are both `%search%` |
| Products.RowObjectKeys | netlify/functions/products.js:52-57 | a row object has a field exactly for the column name of some cell |
| Products.RowObjectLast | netlify/functions/products.js:54-56 | a field holds the value of the last cell written under its column name |
| Products.DistinctColumns | netlify/functions/products.js:51-57 | with distinct column names and one cell per column, every column holds its own cell |
| Products.RowsOf | netlify/functions/products.js:52 | one row object per row of the answer |
| Products.ExecuteQuery | netlify/functions/products.js:14-63 | fails with the credentials message when the HTTP URL or the token is missing, and otherwise only when a rejected `fetch` or `json()` carried that same message; a status that is not OK fails with `Turso API error: <status> - <text>`; a rejected `fetch` or `json()` fails with its own message; a body without a result gives no rows, and one with a result gives one row object per row |
| Products.ApiErrorMessage | netlify/functions/products.js:40-43 | an HTTP failure's message is never the credentials message |
| Products.NumberValue | netlify/functions/products.js:120-122 | `Number(v)` as the response carries it: the number when there is one, and null for NaN |
| Products.NumberFlag | netlify/functions/products.js:135-136 | `Boolean(Number(v))` is true exactly for a number other than zero |
| Products.BaseProduct | netlify/functions/products.js:115-124 | every product has exactly the eight base fields |
| Products.WithExtrasOther | netlify/functions/products.js:127-159 | adding the optional fields leaves every other key as it was |
| Products.WithExtrasField | netlify/functions/products.js:127-159 | an optional field is set from its column, converted, exactly when the column is truthy, and is left alone otherwise |
| Products.ExtrasNamed | netlify/functions/products.js:115-159 | the optional field names are distinct, and none is a base field |
| Products.ExtrasDistinct | netlify/functions/products.js:127-159 | the thirteen optional field names are distinct |
| Products.ExtrasNotBase | netlify/functions/products.js:115-159 | no optional field name is a base field |
| Products.ProductFields | netlify/functions/products.js:115-124 | every base field is present with its converted value, and no key outside the base and optional fields appears |
| Products.ProductExtra | netlify/functions/products.js:127-159 | optional field i is present exactly when its column is truthy, and then holds the copied, numeric, boolean or parsed value, with `[]` when parsing fails |
| Products.CategoriesOf | netlify/functions/products.js:107 | one category per row |
| Products.ProductList | netlify/functions/products.js:115-161 | one product per row |
| Products.GroupedStep | netlify/functions/products.js:110-161 | one more row appends its product to its category's list, creating the list when it is missing |
| Products.GroupRows | netlify/functions/products.js:103-162 | the loop builds the grouped products and the categories in the order they were first met |
| Products.GroupedSpec | netlify/functions/products.js:103-162 | a category has a list exactly when some row has it, and the list holds that category's rows, in order, as products |
| Products.CategoriesSpec | netlify/functions/products.js:104-169 | the response's categories are sorted and name each category of the rows exactly once; any other sorted list with that content is the same list |
| Products.Lowered | netlify/functions/products.js:79 | lowercasing keeps a search present and keeps it non-empty |
| Products.Strings | netlify/functions/products.js:169 | the category list as JSON strings, one per category and in order |
| Products.SuccessBody | netlify/functions/products.js:167-173 | the body has exactly the five fields, with labour rate 350, currency MAD and source turso |
| Products.Respond | netlify/functions/products.js:164-186 | a failure gives 500 with "Failed to fetch products" and the thrown message; success gives 200 with a category list |
| Products.RespondProducts | netlify/functions/products.js:103-174 | a 200 body has, under each category some row has, that category's products in row order and no other category, and a sorted category list naming each category once |
| Products.Handler | netlify/functions/products.js:65-187 | a preflight gets 200 with an empty body and sends no statement; otherwise the statement is built from the category and the lowercased search, and the response follows from the query's outcome |
| Json.Spread | src/store/useStore.js:93 | spreading an array gives its elements, a string gives one element per character, and anything else throws |
| Numbers.JsNumber | netlify/functions/products.js:120 | `Number(v)` keeps a number, gives 0 for null and NaN for undefined or an object |
| Numbers.NumberOfNatToString | src/utils/api.js:58 | `Number` of a price written in decimal digits gives that number |
| Text.ToLower | netlify/functions/products.js:79 | `toLowerCase` keeps the length and lowercases each character |
| Text.ToUpper | netlify/functions/vin-decode.js:52 | `toUpperCase` keeps the length and uppercases each character |
| Text.JoinSplit | src/i18n/useTranslation.js:21 | joining the segments of `split` with the separator gives back the text |
| Text.SplitSegmentsFree | src/i18n/useTranslation.js:21 | no segment of `split` contains the separator |
| Text.SplitFirstSegment | src/utils/carModelMapping.js:129 | the first segment is the text before the first separator, or the whole text when it has none |
| Text.IndexOf | netlify/functions/products.js:10 | `indexOf` finds the first occurrence of the pattern, or none when it does not occur |
| Text.ReplaceFirstAbsent | netlify/functions/products.js:10 | `replace` with a pattern that does not occur leaves the text unchanged |
| Text.ReplaceSpaceRunsNoSpace | src/utils/imageCache.js:14 | replacing every white-space run with text that has no white space leaves none |
| Text.ReplaceSpaceRunsIdentity | src/utils/imageCache.js:14 | a text without white space is left unchanged |
| Text.Utf16Injective | netlify/functions/products.js:169 | different strings have different UTF-16 code-unit sequences |
| Text.StrLessTotal | netlify/functions/products.js:169 | the default sort order compares any two different strings one way and never both ways |
| Text.StrLessTransitive | netlify/functions/products.js:169 | the default sort order is transitive |
| Text.InsertSorted | netlify/functions/products.js:169 | inserting into a sorted list keeps it sorted and adds exactly that element |
| Text.SortStringsSpec | netlify/functions/products.js:169 | the default sort gives a sorted permutation of its input |
| Text.SortedUnique | netlify/functions/products.js:169 | two sorted lists with the same elements are equal, so the result does not depend on the sorting algorithm |
| Lists.WithoutMembers | netlify/functions/booking.js:52 | an element survives the filter exactly when it was in the list and is not booked |
| Lists.WithoutIsSublist | netlify/functions/booking.js:52 | the filtered slots keep their order |
| Lists.GroupSelect | netlify/functions/products.js:106-161 | grouping by a key gives a group exactly for the keys that occur, and each group is the elements with that key, in order |
| Lists.FirstSeenOnce | netlify/functions/products.js:104-108 | the `Set` of categories holds each category of the rows exactly once |

## Left out

- Floating point: money and hours are exact `real`, so no IEEE-754 rounding or representation error is modelled.
- Numbers.JsNumber: text is read as trimmed decimal with an optional sign and fraction, and the empty string gives 0. Hex, exponent and `Infinity` forms are not modelled. A non-empty array gives NaN, although JavaScript turns `[5]` into 5.
- Store.Store.GetTotal: a string, object or array price ends in `NonNumericPrice`; JavaScript would concatenate strings instead. A `true` price counts as 1, as in JavaScript.
- Strict equality (`Json.StrictEquals`): two objects or two arrays are never equal, because reference identity is not modelled.
- Json.Spread: index properties of spread arrays and strings are not modelled.
- Text.ToLower: case mapping is ASCII only (no Unicode case folding); the same holds for `Text.ToUpper`.
- Translation.T: `$` patterns in the replacement text are not modelled, and parameter values are taken as text already (no `String(...)` conversion).
- Inherited `Object.prototype` names (a category, key or id spelled `constructor` or `toString`) are not modelled; every lookup is an own-property lookup.
- The clock, `Math.random`, `navigator.onLine` and the VIN generator `generateCarFromVIN` are parameters.
- Database, Supabase storage and `fetch` I/O: each reply is a parameter standing for the answer the service gives.
- Console logging, CORS headers, `Intl` formatters, timers, `await` and `logError` are not modelled.
- The starlight and accessory tables of src/config/partConfigs.js are not transcribed; the models take them as parameters where they are used.
- The `wheelPositions` data of src/config/wheelConfigs.js is not modelled.
- The car table and the storage registries are parameters, with the shipped registry's shape stated as a requirement.
- PartConfigs.PartGlbUrl: takes strings only, so a non-string part id is not modelled.
- ImageCache.ImageCache.GetCacheStats: the `JSON.stringify` length of each entry is a stored number (`size`) rather than computed.
- ImageCache.ImageCache.GetCachedImage: a stored `timestamp` is either an integer or not a number at all (then the age is NaN, `age > 24h` is false and the entry never expires); a numeric-string or fractional `timestamp`, and an entry without `url` (JavaScript then returns `undefined`), are not modelled. The same reading of `timestamp` applies to ClearExpiredCache and GetCacheStats.
- Booking.Handle: `locationId`, `date` and `time` are strings, and an absent or falsy one is the empty string; a truthy non-string value is not modelled. JavaScript would concatenate a numeric `date` into the availability hash (`locationId + date`, netlify/functions/booking.js:33) and echo it back as a number, would answer 400 "Invalid location" for a non-string `locationId`, and 400 "Time slot not available" for a non-string `time`.
- ErrorHandler.NewAppError: the message is kept as the value passed, not converted with `String(...)`.
- Products.ExecuteQuery: an answer with rows but no `cols` is not modelled.
- ServerQuote.ComputeQuote: `price` and `laborHours` are numbers or absent, so a truthy non-number cannot be written. In JavaScript a string or object value (the text `"100"`, say) concatenates in `subtotal += itemTotal`, and `true` counts as 1 in the sums while staying `true` in its line item. Neither case is modelled.
- ServerQuote.Handle: takes its items from `ServerQuote.ComputeQuote`, so the same non-number prices and hours are not modelled.
- Products.SuccessBody: undefined fields are kept in the body, where `JSON.stringify` drops them; NaN stands where it would print `null`.
- Products.Handler: requires every row's category to be text, which the table's `category TEXT NOT NULL` column (scripts/setup-turso.js:24) guarantees.
- Text.InsertSorted: the category sort is an insertion sort; `Text.SortedUnique` shows any sorted permutation of distinct names is the same list, so the choice of algorithm does not matter.
- A thrown `TypeError` is its own outcome in each model rather than an exception.
- React rendering, Three.js scenes, the scripts/ directory and the OpenAI wrappers are not part of this model.

## Findings

| source | as written | input that shows it | evidently intended | confidence | as-written member | corrected member |
|---|---|---|---|---|---|---|
| src/components/ProductSelector.jsx:152 | the picker stores a choice under its own category name, and the configurator opens the paint, wrap and body-kit pickers as `paints`, `wraps` and `bodykits` | choosing any paint in the `paints` picker: the store's `paint` key stays null, so the paint is never listed or priced | store the choice under the singular key `getSelectedItems` reads (`paint`, `wrap`, `bodykit`) | high, not executed | ProductSelector.PluralCategoryNotQuoted | ProductSelector.IntendedSelectionQuoted |
| src/components/ProductSelector.jsx:152 | choosing an accessory replaces the `accessories` list with the single product object | choosing any accessory: `getSelectedItems` then spreads a non-array and throws a `TypeError` | add the product to the list (or remove it when already chosen) | high, not executed | ProductSelector.AccessorySelectionBreaksItems | ProductSelector.IntendedSelectionQuoted |
