# Route service model

A Dafny model of the client-side route service of a transit route finder
(`src/lib/services/routeService.ts`). The service asks a remote routing
service for itineraries between two stations. It turns the snake_case wire
response into camelCase domain records and colours each stop by its
congestion level. It keeps the most recent successful search in a
single-slot cache, which serves a repeated search and the detail lookup by
route id.

Files:

- `wrappers.dfy`: `Option`. `None` stands for `null` and `undefined`.
- `congestion.dfy`: the level-to-colour table and the truthiness test the normaliser applies it through.
- `normalizer.dfy`: the wire records and the domain records. Also the element-wise, order-preserving mapping and its inverse, which shows the mapping is lossless.
- `timestamp.dfy`: the `departure_time` formatter, with `String(n)`, `padStart`, `split` and `Number` modelled for the inputs they meet. Also a parser of the formatted timestamp, which is the formatter's partner.
- `route_service.dfy`: the `RouteService` class, with fields `resultCache` and `lastParams`. Its members are the hit test, the search and the detail lookup. The file also holds the outbound query and client methods that chain calls.

The network and the clock are inputs. `SearchRoutes` takes a
`FetchOutcome`, which is either `NetworkError` or `Response(status, body)`.
`body` is `None` when `response.json()` throws. It is also `None` when a
`routes`, `segments` or `stops` array, or a record in one, is missing or null,
because mapping it then throws into the same `catch`. `SearchRoutes` also takes the current local date as
`Date(year, month, day)`, with the month 1-based as `getMonth() + 1` gives it.
Instead of issuing the request, it returns the query it would send, as a list
of key/value pairs.

Three behaviours of the code that a reader might not expect:

- Level 0 gets no colour. The table has a grey entry for 0, but the truthiness test at `routeService.ts:78` treats 0 like `null` (`Congestion.ZeroLevelHasNoColor`).
- A full timestamp is not passed through. Any departure time containing `':'` is split at `':'` and rebuilt. The `YYYY-MM-DDTHH` part of a full timestamp is rejected by `Number`, so the hour field becomes `NaN` (`Timestamp.TimeFields`).
- A decode failure is not propagated. A failed `response.json()` lands in the `try`/`catch`, which returns `[]` and leaves the cache alone.

## Model

| member | source | states |
|---|---|---|
| `Congestion.ColorTable` | src/lib/services/routeService.ts:2-11 | the table has an entry for exactly the levels 0 to 7, each a `#`-prefixed seven-character colour |
| `Congestion.NextSectionColor` | src/lib/services/routeService.ts:78 | a stop gets a colour exactly when its level is present and between 1 and 7, and that colour is the table's entry for the level |
| `Congestion.ZeroLevelHasNoColor` | src/lib/services/routeService.ts:3-11 | level 0 has a table entry, yet it gets no colour, exactly like `null` |
| `Normalizer.MapSeq` | src/lib/services/routeService.ts:90-101 | `map` keeps the length, and element i of the output is the mapping of element i of the input |
| `Normalizer.MapStop` | src/lib/services/routeService.ts:73-80 | `mapStop` copies the name, the time and the congestion level, and colours levels 1 to 7 only, with the table's colour |
| `Normalizer.MapSegment` | src/lib/services/routeService.ts:83-92 | `mapSegment` renames line, stations and times unchanged, and maps the stops element by element in order |
| `Normalizer.MapRoute` | src/lib/services/routeService.ts:95-103 | `mapRoute` copies id, total duration, fare and transfers, and maps the segments element by element in order |
| `Normalizer.MapRoutes` | src/lib/services/routeService.ts:154 | the response gives one domain route per wire route, in response order and with the same ids |
| `Normalizer.MapSeqLeftInverse` | src/lib/services/routeService.ts:90-101 | mapping with a function and then with its left inverse gives back the input sequence |
| `Normalizer.NormaliseIsLossless` | src/lib/services/routeService.ts:73-103 | the wire route can be recovered from its normalised form, so no field is dropped |
| `Normalizer.NormalisedIsAnnotated` | src/lib/services/routeService.ts:73-80 | every stop of a normalised route carries the colour its level calls for |
| `Normalizer.AnnotatedIsNormalised` | src/lib/services/routeService.ts:73-103 | every annotated domain route is the normalisation of its wire form, so the normaliser's image is exactly the annotated routes |
| `Timestamp.Decimal` | src/lib/services/routeService.ts:134-138 | `String(n)` is a non-empty digit string with no leading zero |
| `Timestamp.DecimalRoundTrip` | src/lib/services/routeService.ts:134-138 | the numeral `String(n)` reads back as `n` |
| `Timestamp.LeadingZero` | src/lib/services/routeService.ts:135-138 | a zero added in front by padding does not change a numeral's value |
| `Timestamp.PadStart` | src/lib/services/routeService.ts:135-138 | `padStart` keeps the string as the suffix, fills only in front, and reaches the width unless the string is already longer |
| `Timestamp.Pad2Decimal` | src/lib/services/routeService.ts:135-138 | a number below 100 pads to exactly two digits that read back as the number |
| `Timestamp.Split` | src/lib/services/routeService.ts:131 | `split(':')` gives parts free of `':'` that join back to the input, and at least two of them when the input contains `':'` |
| `Timestamp.ToNumber` | src/lib/services/routeService.ts:131 | `Number` of a part is a number exactly when the part is a digit string (the empty one included), and `NaN` otherwise |
| `Timestamp.TimeFields` | src/lib/services/routeService.ts:131-138 | `HH` and `mm` come from the first two `':'` parts: a digit part is re-printed without leading zeros and padded to two digits, so `8:5` and `08:05` agree; a part `Number` rejects, such as the `YYYY-MM-DDTHH` part of a full timestamp, gives `NaN` |
| `Timestamp.Layout` | src/lib/services/routeService.ts:140 | the template starts with the year and a hyphen and ends in `:00+09:00` |
| `Timestamp.FormatDepartureTime` | src/lib/services/routeService.ts:129-140 | whatever the input, the formatted value starts with the unpadded year and a hyphen and ends in seconds `00` and offset `+09:00` |
| `Timestamp.ParseSuffixOf` | src/lib/services/routeService.ts:140 | the part after the year, laid out from two-digit fields, reads back as their values |
| `Timestamp.ParseLayout` | src/lib/services/routeService.ts:140 | a timestamp laid out from a digit year and two-digit fields reads back as their values |
| `Timestamp.FormatRoundTrip` | src/lib/services/routeService.ts:129-141 | for hours, minutes, month and day below 100, the formatted `departure_time` reads back as today's date with the input's first two `':'` parts as hour and minute |
| `Routes.Delivered` | src/lib/services/routeService.ts:145-152 | a fetch yields routes exactly when the transport succeeds, the status is in 200 to 299 and the body decodes |
| `Routes.Query` | src/lib/services/routeService.ts:125-141 | the query is `from` then `to`, both verbatim, plus a third parameter `departure_time`, the formatted time, exactly when the departure time contains `':'` |
| `Routes.QueryWithoutTime` | src/lib/services/routeService.ts:125-129 | with no departure time the query is exactly `from` and `to` |
| `Routes.EmptyTimeNotSent` | src/lib/services/routeService.ts:129 | an empty departure time is falsy and sends no time parameter, as an omitted one does |
| `Routes.BuildRequest` | src/lib/services/routeService.ts:125-141 | appending the parameters one by one builds exactly the query above |
| `Routes.FindById` | src/lib/services/routeService.ts:166 | `find` returns no route exactly when no route has the id, and otherwise the first route that has it |
| `Routes.LookupAfterNormalise` | src/lib/services/routeService.ts:154-166 | looking an id up in a normalised response gives the normalisation of the first wire route with that id |
| `Routes.LookupAfterNormaliseMissing` | src/lib/services/routeService.ts:154-166 | an id that no wire route has is not found in the normalised response |
| `Routes.RouteService.constructor` | src/lib/services/routeService.ts:69-70 | the service starts with an empty cache and no last search |
| `Routes.RouteService.GetCachedRoutes` | src/lib/services/routeService.ts:105-116 | a hit requires all four: a last search exists, its `from`, `to` and departure time equal the arguments as given, and the cache is non-empty; a hit returns the cache |
| `Routes.RouteService.SearchRoutes` | src/lib/services/routeService.ts:118-162 | a hit returns the cache, builds no request and changes nothing; on a miss the request is the query above; success stores and returns the normalised routes with the search's parameters; any failure returns `[]` and leaves cache and parameters unchanged |
| `Routes.RouteService.GetRouteById` | src/lib/services/routeService.ts:164-167 | the lookup is a scan of the cache for the first route with the id, and it changes no state |
| `Routes.LookupBeforeSearch` | src/lib/services/routeService.ts:69 | before any search the lookup finds nothing, whatever the id |
| `Routes.RepeatSearch` | src/lib/services/routeService.ts:105-161 | on two identical searches in a row, the second builds no request exactly when the first returned routes, and then it returns them again; a failed or empty first search is retried |
| `Routes.SearchThenLookup` | src/lib/services/routeService.ts:154-167 | after a search that misses the cache and succeeds, the lookup sees the first normalised route with the id, segments and stops in original order |

## Left out

- The URL is not modelled: `fetch`, `window.location.origin`, string building and percent-encoding of the query. The query is a list of key/value pairs, and the fetch result is an input.
- `response.json()` and the checks on the JSON's shape are not modelled. A body that fails to decode, or whose `routes`, `segments` or `stops` are missing, ends up in the same `catch`. All of these are `body == None`.
- The clock is not modelled: `new Date()` and the local time zone. The date is a parameter, and the year is a natural number.
- `Timestamp.ToNumber`: text other than a digit string is always `NaN` here. JavaScript's `Number` would accept surrounding whitespace, signs, decimal points, exponents and hex prefixes.
- `Timestamp.TimeFields`: for the same reason, a part such as `" 8"` or `"+8"` gives `NaN` here, where JavaScript gives the hour `08`.
- `Timestamp.Decimal`: digit strings are exact naturals here. JavaScript numbers lose precision above 2^53 and print 10^21 and above in exponent notation.
- `Congestion.NextSectionColor`: levels, durations, fares and transfer counts are integers here. A non-integer or `NaN` level, which the table has no entry for, is not modelled.
- Bodies with missing or mistyped scalar fields are not modelled: they cannot be written as the typed wire records. For example `{"routes":[{"id":"r1","segments":[]}]}` lacks the duration, fare and transfers. Such a body is mapped and cached by the code with `undefined` fields.
- `Routes.RouteService.SearchRoutes`: the code returns shared references. A cache hit returns the cache array itself, a success returns the array it has just made the cache, and `getRouteById` returns the cached object. A caller that sorts, truncates or edits what it got changes later hits and lookups. The model's values cannot be aliased, so its contracts hold in the code only if callers do not mutate what they receive.
- `Routes.RouteService.SearchRoutes`: only the fetch and decode are inside the code's `try`. `new URL('/api/', window.location.origin)` runs before it, so a failure there, for example when there is no `window`, rejects the promise instead of returning `[]`. The model does not represent that failure.
- `console.error` logging, `statusText` and the async/Promise wrappers are left out; they carry no result.
- Concurrent searches and how their cache writes interleave are left out. The model runs one search at a time.
- The forwarding proxy `src/routes/api/+server.ts` is not part of this model. It is network plumbing that forwards the query to the upstream service and translates its errors into HTTP statuses.
- The build and dev-server configuration `vite.config.ts` is not part of this model.
