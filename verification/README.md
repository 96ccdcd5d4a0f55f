# NYC transit hub — verified model of the data endpoints

This project models the data-handling core of the NYC transit hub web
application (`app.py`). That core is the part that turns the MTA's feeds
and the subway station CSV into the JSON lists served to the browser:

- **Feed routing** (`feed_router.dfy`). A line-group id such as `ace` is
  upper-cased and looked up in the fixed table of eight GTFS Realtime
  feeds. An alert category is looked up, case-sensitively, in the table of
  five JSON alert feeds. An unknown id gives the empty list and the network
  is never touched.
- **Station expansion** (`stations.dfy`). `/api/stations` reads the station
  CSV and emits one record per route in the row's whitespace-separated
  `Daytime Routes` cell. The first row that raises (a missing column, or
  a short row with no routes cell) ends the listing, and the records
  gathered so far are returned.
- **Station catalog** (`catalog.dfy`). At start-up the same CSV is loaded
  into two dictionaries keyed by GTFS stop id: coordinates (parsed as
  floats) and names. A later row with the same id overwrites an earlier
  one. The first row that raises ends the load and keeps what was loaded.
  Lookups fall back to `(None, None)` for coordinates and to the stop id
  itself for a name. The catalog is a class whose two map fields `Preload`
  fills in place.
- **Train flattening** (`trains.dfy`). Each stop-time update of each
  trip-update entity becomes one record, in feed order. The record holds
  the trip id, the catalog name and coordinates of the stop, and the
  arrival and departure times. A time is `None` when the event is absent
  and `0` when the event is present but its time is unset.
- **Alert normalisation** (`alerts.dfy`, `alert_order.dfy`,
  `alert_feed.dfy`):
  - The display text is chosen with a fallback: the first English header
    translation, then the first `en-html` header translation, then the
    first English description translation.
  - Routes and stops are the truthy `route_id` / `stop_id` values of the
    informed entities.
  - `start_time` is the `start` of the first active period.
  - The list is stably sorted by `start_time`.
  - Any exception inside the handler's `try` turns the whole response into
    `[]`.
- **Accessibility projection** (`accessibility.dfy`). Each elevator and
  escalator outage object is projected onto seven display fields. Missing
  keys default to `""` and an explicit null passes through as `None`. The
  equipment type has two spellings, and `accessible` is `Yes` exactly when
  `ADA` is `"Y"`.

Effects are parameters:

- The network is a function from URL to a decoded payload or a fault.
- The CSV is a sequence of rows, each a map from column name to an
  optional cell. A short row gives `None`; a column absent from the header
  makes the key missing.
- Float parsing is a caller-supplied partial function onto `real`.

A JSON key has three states: absent, null, or present. These differ
because `.get(k, default)` returns the default only for an absent key.

Each handler yields one of three outcomes: records, not found, or failed
with a fault. `Wrappers.Respond` maps the last two to the empty list, as
the handlers' early return and `except` branches do.

### Behaviour worth knowing

The model follows the code in each case below, including where a reader
might expect otherwise.

- One might expect alerts without a start time to sort first. In
  `app.py:257` the key is the value `None` itself: the key is always
  present, so the default `0` never applies. Python 3 cannot compare
  `None` with an `int`. A list of two or more alerts holding an undated
  one therefore raises `TypeError`, and the endpoint answers `[]`
  (`AlertOrder.UndatedAlertBreaksSort`,
  `AlertFeed.MissingStartEmptiesResponse`). If every alert is undated,
  the list also raises.
- An alert whose `active_period` is an empty list raises `IndexError` at
  `app.py:252`, which empties the whole response
  (`AlertFeed.EmptyActivePeriodEmptiesResponse`).
- The station catalog keeps only the last row's name and coordinates per
  stop id. It does not accumulate the lines that serve a stop.
- The outage fetch at `app.py:189` has no timeout and no status check. A
  non-JSON body fails at decoding, which `Fault.Decode` stands for.

## Model

| member | source | states |
|---|---|---|
| FeedRouter.ResolveLine | app.py:119-121 | a feed URL is found exactly when the upper-cased id is one of the eight line groups, and it is that group's non-empty URL |
| FeedRouter.ResolveLineIgnoresCase | app.py:119 | an id and its upper-case form resolve to the same feed |
| FeedRouter.LowerCaseLineResolves | app.py:34-43 | `ace` and `ACE` reach the ACE feed; `sir` reaches the Staten Island feed |
| FeedRouter.ResolveAlertCategory | app.py:212-214 | a feed URL is found exactly when the category is one of the five alert categories, and it is that category's non-empty URL |
| FeedRouter.AlertCategoryIsCaseSensitive | app.py:49-55 | `subway_alerts` resolves but `SUBWAY_ALERTS` does not |
| StringOps.ToUpperIdempotent | app.py:119 | upper-casing twice is upper-casing once |
| StringOps.Split | app.py:81 | every token of `str.split()` is non-empty and holds no whitespace |
| StringOps.SplitJoinSpaced | app.py:81 | splitting tokens joined by whitespace gives the tokens back |
| Stations.ExpandRow | app.py:81-89 | a row expands without raising exactly when its routes split and, if it names a route, the record columns exist; it then yields that row's records |
| Stations.ListStations | app.py:76-92 | the loop emits exactly the listing of the rows, stopping at the first row that raises |
| Stations.RowRecordsPerRoute | app.py:81-89 | a row yields one record per route token, in order, each with that route as line and the row's stop id, name and coordinate strings |
| Stations.BlankRoutesYieldNothing | app.py:81-82 | a row whose routes cell is empty or whitespace only yields no record and does not raise |
| Stations.ListingAppend | app.py:80-89 | when no row raises, the listing of two runs of rows is the concatenation of their listings |
| Stations.ListingStopsAtFailure | app.py:77-92 | the rows after the first one that raises contribute nothing |
| Stations.ThreeRouteRow | app.py:81-89 | a row with routes ` A C  E ` yields three records with lines A, C, E |
| Catalog.LoadRow | app.py:104-109 | a row loads exactly when its id, name and both coordinates can be read; it then stores the parsed coordinates and the name under that id, and every other id keeps its entries |
| Catalog.StationCatalog.constructor | app.py:98-99 | both tables start empty |
| Catalog.StationCatalog.Preload | app.py:100-111 | the new tables are the old ones with the rows loaded in order, up to the first row that raises |
| Catalog.LoadStopsAtFailure | app.py:100-111 | rows after the first failing row change nothing |
| Catalog.LastRowWins | app.py:103-109 | when every row loads, an id maps to the coordinates and name of the last row with that id |
| Catalog.KeptWhenNotOverwritten | app.py:103-109 | an id that no loaded row mentions keeps its earlier entries |
| Catalog.NameOf | app.py:138 | a stop id in the names table gives its stored name; any other id gives the id itself |
| Catalog.CoordsOf | app.py:137 | a stop id in the coordinates table gives both stored coordinates; any other id gives `(None, None)` |
| Catalog.MissFallsBack | app.py:137-138 | an id no row carries looks up as `(None, None)` and as its own name |
| Catalog.HitReturnsLastRow | app.py:137-138 | a loaded id looks up as the last matching row's coordinates and name |
| Trains.EventTime | app.py:135-136 | the time is None exactly when the event is absent; a present event gives its time, or 0 when the time is unset |
| Trains.EntityTrains | app.py:131-146 | an entity without a trip update contributes nothing; one with a trip update contributes one record per stop-time update |
| Trains.EntityRecords | app.py:131-146 | the inner loop yields exactly one entity's records against the catalog's tables |
| Trains.FlattenFeed | app.py:128-147 | the nested loops produce exactly the flattened feed against the catalog's tables |
| Trains.RealtimeTrains | app.py:118-150 | the handler's outcome: not found for an unknown line, failed when the fetch fails, else the flattened feed |
| Trains.FeedTrainsAppend | app.py:130-146 | flattening distributes over concatenated entity lists |
| Trains.FeedTrainsCount | app.py:130-146 | the number of records is the total number of stop-time updates |
| Trains.FeedTrainsPlacement | app.py:130-146 | the records of entity i sit right after those of the entities before it, one per update, in update order |
| Trains.TrainAtFields | app.py:132-145 | a record carries the trip id, the catalog name (or the stop id) and coordinates (or `None`), and the event times |
| Trains.UnknownLineFetchesNothing | app.py:119-121 | an unknown line gives `[]` whatever the network would return |
| Trains.FailedFetchYieldsEmpty | app.py:124-150 | a failed fetch or decode gives `[]` |
| Trains.LineCaseDoesNotMatter | app.py:119 | the endpoint answers the same for an id and its upper-case form |
| Alerts.AlertInfo | app.py:224 | a missing alert object reads as `{}`, a present one as itself, and a null one raises at its first use |
| Alerts.TranslationList | app.py:228-229 | a missing text object or list reads as empty and a present list as itself; a null list is passed on and raises only when iterated; a null text object raises |
| Alerts.FindText | app.py:231-244 | the search loop returns the text of the first translation in the language with a truthy text |
| Alerts.FirstTextIsFirstMatch | app.py:231-234 | the search result is empty exactly when no translation matches, and otherwise is the text of the first match |
| Alerts.AlertText | app.py:227-244 | the handler's text steps compute the display text with its three-level fallback |
| Alerts.DisplayTextFallback | app.py:231-244 | an English header wins; failing that an `en-html` header; failing both an English description; otherwise `""` |
| Alerts.NullDescriptionListIgnoredWhenHeaderMatches | app.py:240-244 | a null description translation list is never iterated when an `en` or `en-html` header matches |
| Alerts.TextFallbackSamples | app.py:231-244 | an HTML header is used when no English header exists, and an English header is preferred over it |
| Alerts.Mercury | app.py:248 | a missing mercury object reads as one with all fields missing, a present one as itself, and a null one raises |
| Alerts.InformedList | app.py:250-251 | a missing informed-entity list reads as empty, a present one as itself, and a null one raises |
| Alerts.Ids | app.py:250-251 | at most one id per informed entity, and every id is non-empty |
| Alerts.IdsAppend | app.py:250-251 | the comprehension distributes over concatenation |
| Alerts.IdsOfOne | app.py:250-251 | one entity contributes its id exactly when that id is truthy |
| Alerts.IdsMembership | app.py:250-251 | a string is listed exactly when it is non-empty and some informed entity carries it |
| Alerts.RoutesAndStopsSample | app.py:250-251 | routes and stops skip missing and empty ids and keep duplicates |
| Alerts.StartTime | app.py:252 | no active periods give None, a null list raises, an empty list raises, otherwise the first period's start |
| Alerts.EmptyActivePeriodRaises | app.py:252 | an entity whose active periods are an empty list cannot be built |
| Alerts.MakeAlert | app.py:223-255 | the loop body builds the record of one entity, or reports the fault it raises |
| Alerts.AlertOfFields | app.py:246-255 | a built record carries the entity id, the display text, the informed ids, the first start time and the mercury fields |
| AlertOrder.Insert | app.py:257 | inserting keeps every start time set and adds exactly one alert |
| AlertOrder.InsertSorted | app.py:257 | inserting into a sorted list keeps it sorted |
| AlertOrder.SortByStart | app.py:257 | the result is sorted by start time and is a permutation of the input |
| AlertOrder.OrderAlerts | app.py:257 | the sort raises exactly when there are two or more alerts and one lacks a start time; otherwise the result is a permutation of the input, sorted when there are two or more alerts |
| AlertOrder.InsertOtherKey | app.py:257 | inserting an alert leaves the order of alerts with other start times unchanged |
| AlertOrder.InsertSameKey | app.py:257 | an inserted alert goes before the alerts already there with its start time |
| AlertOrder.SortIsStable | app.py:257 | for every start time, the alerts with it keep their input order |
| AlertOrder.StableSortUnique | app.py:257 | two sorted lists with the same alerts per start time, in the same order, are equal |
| AlertOrder.SortByStartCharacterised | app.py:257 | the sort is the only sorted list that keeps the input order per start time |
| AlertOrder.OrderAlertsOutcome | app.py:257 | fewer than two alerts are kept; two or more with an undated one raise; otherwise the result is a stable sorted permutation |
| AlertOrder.UndatedAlertBreaksSort | app.py:257 | a dated and an undated alert cannot be sorted in either order |
| AlertFeed.Entities | app.py:223 | a missing entity list reads as empty, a present one as itself, and a null one raises |
| AlertFeed.BuildStep | app.py:223-255 | one loop iteration: a raising entity ends the build with its fault, a built one moves its record into the done part |
| AlertFeed.BuildAll | app.py:221-255 | the entity loop appends records in feed order and stops at the first exception |
| AlertFeed.AllBuilt | app.py:223-255 | when every entity builds, the records are the entities' records, one each, in feed order |
| AlertFeed.FirstFaultReported | app.py:223-255 | the fault of the first entity that raises is the loop's fault |
| AlertFeed.FirstRaised | app.py:223-255 | when some entity raises, the loop raises the fault of the first such entity at or before it |
| AlertFeed.ServiceAlerts | app.py:211-262 | the handler's outcome: route, fetch, decode, build, sort |
| AlertFeed.UnknownCategoryFetchesNothing | app.py:212-214 | an unknown category gives `[]` whatever the network would return |
| AlertFeed.SuccessIsStableSort | app.py:216-258 | a successful response is a sorted permutation of the built records that keeps feed order among equal start times |
| AlertFeed.MissingStartEmptiesResponse | app.py:252-262 | two or more built alerts with an undated one give `[]` |
| AlertFeed.EmptyActivePeriodEmptiesResponse | app.py:252-262 | one entity with an empty active-period list gives `[]` |
| Accessibility.EquipmentType | app.py:196 | the lower-case key when truthy; otherwise the camel-case key, `""` when missing, None when null |
| Accessibility.Accessible | app.py:197 | `Yes` exactly when `ADA` is present and equals `Y`, else `No` |
| Accessibility.ProjectOutages | app.py:191-201 | one projected record per outage, in feed order |
| Accessibility.GetAccessibility | app.py:187-204 | a failed fetch or decode gives the empty list, otherwise the projected outages |
| Accessibility.ProjectFields | app.py:193-201 | station, equipment, reason, return_time and line are the source value, `""` when missing and None when null; `type` is EquipmentType's; `accessible` is Yes exactly when ADA is `Y`, and No otherwise |
| Accessibility.AdaSamples | app.py:197 | `ADA: "Y"` is accessible; a missing or `N` flag is not |
| Accessibility.TypeFallbackSamples | app.py:196 | an empty or null lower-case type falls back to the camel-case key |
| Wrappers.Respond | app.py:120-121 | a not-found or failed outcome is answered with the empty list |

## Left out

- Network access: each fetch is a function parameter. Timeouts,
  `raise_for_status` and the HTTP status codes become `Fault.Transport`.
- Protobuf and JSON decoding: the model starts from decoded values.
  Payloads that do not decode become `Fault.Decode`, and so does a body
  that decodes to `null` or to the wrong top-level shape (not an object
  for the alert feed, not a list for the outage feed): in the handlers it
  raises at `data.get('entity', [])` or `for o in data` and is answered
  with `[]`, just as a decoding failure is.
- JSON values of an unexpected type are not modelled: a number where a
  string is expected, a list where an object is expected, or a null
  element inside a list. The datatypes admit only well-typed values plus
  the absent and null cases.
- File I/O and the `csv` module: the CSV is a sequence of rows. A reader
  error partway through the file is modelled as the file ending there.
  Extra cells beyond the header (`restkey`) are not read by the handlers
  and are not modelled.
- Float parsing: `float()` is a parameter onto `real`. Binary
  floating-point rounding is not modelled. Python's `float()` also
  accepts `nan`, `inf` and `infinity` (any case, optionally signed)
  without raising. A parser onto `real` cannot return those values, so a
  row with such a coordinate cannot be represented as loading.
- Protobuf field widths: times are unbounded integers. The 64-bit range
  of `time` is not enforced.
- `str.upper()` is modelled for ASCII letters plus `ı` and `ſ`, the only
  non-ASCII letters whose upper case is a single ASCII letter. Every other
  character is left unchanged, so the model keeps the string's length.
  Python also maps some characters to several ASCII letters: `ß` becomes
  `SS`, and the ligatures `ﬀ ﬁ ﬂ ﬃ ﬄ ﬅ ﬆ` become `FF FI FL FFI FFL ST ST`.
  These are left out. No feed key contains `SS`, `FF`, `FI`, `FL` or
  `ST`, so they can never turn an id into a key. Every other case mapping
  leaves a non-ASCII character in the result.
- `list.sort` works in place; the model sorts a value. The partial
  reordering left behind when a comparison raises is not modelled,
  because the response is `[]` in that case.
- The JSON wrapper `{'accessibility': ...}` around the outage records and
  Flask's `jsonify` are not modelled. The outcome holds the list itself.
- The favorites endpoint (SQLite), `init_db`, the login, signup, logout
  and page routes, `translate()`, and the `print` logging are outside
  this model.
