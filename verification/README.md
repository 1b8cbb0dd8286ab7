# SIG-IPC venue map: a Dafny model of its view models, geometry decoding and step estimator

SIG-IPC is an indoor venue-navigation app for an exhibition. Visitors search for exhibitor
booths, filter them by category and see their walking position on a floor plan. This project
models the parts of the app that hold logic rather than SwiftUI or MapKit glue:

- **Map menu view model** (`MapMenu`). The search text is mapped to booth suggestions. A
  category filter selects catalog entities. Recently stored searches are deduplicated to the
  newest record per name, at most four. The popup is reset whenever the display mode is
  assigned. The entity catalog, a global array in the app, is an explicit `seq<Entity>`
  parameter.
- **Geometry decoding** (`Coordinates`, `Entities`, `Halls`, `Brands`, `RingDecoders`). Each
  GeoJSON `[longitude, latitude]` pair becomes a coordinate. A pair of any other length
  becomes (0, 0). All three decoders use one pair rule, `Coordinates.DecodePair`, and one ring
  function, `Coordinates.DecodeRing`. The JSON input is a small `Json` datatype
  (`JsonDecoding`), so the decoders' error paths are kept: a missing key, a null and a value
  of the wrong kind all throw, and `type` is read before `coordinates`. The datatype
  constructors `EntityGeometry`, `HallGeometry` and `BrandGeometry` are the memberwise
  initialisers: they store their arguments unchanged. Coordinate wrappers compare and hash
  by latitude and longitude.
- **Pedestrian dead reckoning** (`Pdr.PdrManager`). Pedometer events report a running step
  total. The stored previous total is overwritten on every event that carries data. The
  position moves only when the total went up, by the step gain times 0.75 m. Heading events
  set the heading in degrees and never move the position. The trigonometric displacement is
  a function value `advance(location, metres, headingDegrees)` given to the constructor. A
  ghost field `travelled` keeps the exact distance, and `Pdr.Telescoping` proves that
  nondecreasing totals move the position by the net gain times 0.75 m, however the totals
  are split into events.
- **Entry view model** (`Entry.ContentViewModel`). A one-bit `displayMap` toggle.

Swift `Double`s are modelled as exact `real`s. `map`, `filter` and `first(where:)` come from
the generic module `Sequences`, with their contracts proved once. Case-insensitive matching
(`localizedCaseInsensitiveContains`, `lowercased()`) folds ASCII letters only (`Text`).

## Model

| member | source | states |
|---|---|---|
| Sequences.Map | SIG-IPC/Models/Entity.swift:35 | `map` yields one output per input, the i-th output being the function applied to the i-th input |
| Sequences.Filter | SIG-IPC/Features/MapMenu/MapMenuViewModel.swift:53-55 | `filter` keeps exactly the elements satisfying the predicate and never grows the sequence |
| Sequences.FirstWhere | SIG-IPC/Features/MapMenu/MapMenuView.swift:95 | `first(where:)` is the head of the filtered sequence, or nil when nothing matches |
| Sequences.FilterConcat | SIG-IPC/Features/MapMenu/MapMenuViewModel.swift:53-55 | filtering a concatenation filters each part, so the input order is kept |
| Sequences.MapConcat | SIG-IPC/Models/Entity.swift:35 | mapping a concatenation maps each part |
| Sequences.FilterIsSubsequence | SIG-IPC/Features/MapMenu/MapMenuViewModel.swift:53-55 | a filter's result is an order-preserving subsequence of its input |
| Sequences.FirstWhereIsEarliest | SIG-IPC/Features/MapMenu/MapMenuView.swift:247 | `first(where:)` returns a matching element at an index before which nothing matches |
| JsonDecoding.Container | SIG-IPC/Models/Entity.swift:31 | a keyed container exists exactly for a JSON object, and its keys are the object's fields |
| JsonDecoding.DecodeString | SIG-IPC/Models/Entity.swift:32 | decoding a `String` succeeds exactly when the key holds a JSON string, returns that string, and throws key-not-found when the key is absent |
| JsonDecoding.DecodeDoubles | SIG-IPC/Models/Entity.swift:34 | decoding `[Double]` succeeds exactly when every item is a number and returns those numbers in order |
| JsonDecoding.DecodeRows | SIG-IPC/Models/Entity.swift:34 | decoding `[[Double]]` yields one row per array item, each row decoded as `[Double]` |
| JsonDecoding.DecodeDoubleRows | SIG-IPC/Models/Entity.swift:34 | an absent key throws key-not-found; success means the key holds an array and row i is item i decoded as `[Double]` |
| JsonDecoding.RowsRoundTrip | SIG-IPC/Models/Entity.swift:34 | decoding the JSON text of any `[[Double]]` gives the same rows back, whatever their lengths |
| Coordinates.DecodeRing | SIG-IPC/Models/Entity.swift:35-40 | one coordinate per input pair, in order; `[a, b]` becomes latitude `b`, longitude `a`; a pair whose length is not 2 becomes (0, 0) |
| Coordinates.EncodeRing | SIG-IPC/Models/Entity.swift:39 | the GeoJSON form writes every coordinate as `[longitude, latitude]` |
| Coordinates.RingRoundTrip | SIG-IPC/Models/Entity.swift:39 | decoding the GeoJSON form of any ring gives the ring back: the value swap is undone exactly |
| Coordinates.DecodeRingConcat | SIG-IPC/Models/Entity.swift:35 | decoding is pairwise: a concatenation of rings decodes to the concatenation of their decodings |
| Entities.SameCoordinateIsEquality | SIG-IPC/Models/Entity.swift:56-59 | two wrappers are `==` exactly when their latitudes and their longitudes are equal |
| Entities.EqualWrappersHashEqually | SIG-IPC/Models/Entity.swift:61-64 | wrappers equal under `==` leave any hasher in the same state, because the hash feeds exactly latitude then longitude |
| Entities.DecodeEntityGeometry | SIG-IPC/Models/Entity.swift:30-41 | on success the stored `type` is the input's `type` string exactly; an object without `type` throws key-not-found for `type` |
| Entities.DecodeEntityGeometryOfJson | SIG-IPC/Models/Entity.swift:30-41 | any object with a string `type` and an array of number arrays under `coordinates`, whatever other keys it has, decodes to its type string and to the shared decoding of its rows, malformed pairs included |
| Entities.EntityGeometryRoundTrip | SIG-IPC/Models/Entity.swift:34-40 | encoding a ring as GeoJSON and decoding it yields exactly that ring, wrapped, with the type unchanged |
| Halls.DecodeHallGeometry | SIG-IPC/Models/Hall.swift:26-36 | decoding succeeds only for an object with `coordinates` |
| Halls.DecodeHallGeometryOfJson | SIG-IPC/Models/Hall.swift:26-35 | any object with an array of number arrays under `coordinates`, with or without `type` or other keys, decodes to one wrapped coordinate per row by the shared pair rule |
| Brands.DecodeBrandGeometry | SIG-IPC/Models/Brand.swift:38-50 | on success the stored `type` is the input's `type` string exactly; an object without `type` throws key-not-found for `type` |
| RingDecoders.DecodersAgree | SIG-IPC/Models/Hall.swift:29-35 | whenever the entity decoder succeeds, the hall decoder yields the same coordinates; the brand decoder always has the entity decoder's outcome, unwrapped |
| RingDecoders.HallFailsOnlyOnCoordinates | SIG-IPC/Models/Hall.swift:26-29 | the hall decoder fails only where the entity decoder fails too, and with the same error unless the entity decoder failed on `type` |
| RingDecoders.DecodersAgreeOnGeoJson | SIG-IPC/Models/Brand.swift:42-49 | on any object with a string `type` and an array of number arrays under `coordinates`, whatever other keys it has, the entity, hall and brand decoders yield the same shared decoding of the rows, in input order |
| Text.LowercasedIdempotent | SIG-IPC/Features/MapMenu/MapMenuView.swift:95 | lower-casing twice is lower-casing once |
| Text.ContainsIffOccurs | SIG-IPC/Features/MapMenu/MapMenuViewModel.swift:45 | the substring test holds exactly when the needle occurs at some index of the text |
| Text.ContainsIgnoringCaseIsCaseBlind | SIG-IPC/Features/MapMenu/MapMenuViewModel.swift:45 | case-insensitive containment gives the same answer when either argument is lower-cased first |
| MapMenu.Suggestions | SIG-IPC/Features/MapMenu/MapMenuViewModel.swift:42-47 | empty search text yields no suggestions; there are never more suggestions than catalog entities |
| MapMenu.SuggestionsExactly | SIG-IPC/Features/MapMenu/MapMenuViewModel.swift:43-46 | for non-empty text, a result is suggested exactly when some catalog booth whose name contains the text (ignoring case) has that name and that hall, or `""` when it has none |
| MapMenu.SuggestionsInCatalogOrder | SIG-IPC/Features/MapMenu/MapMenuViewModel.swift:44-46 | suggestions keep catalog order: those of a split catalog are the parts' suggestions concatenated |
| MapMenu.CategoryFilterExactly | SIG-IPC/Features/MapMenu/MapMenuViewModel.swift:53-55 | an entity is selected exactly when it is in the catalog and its category list contains the category; an entity with no category list never is |
| MapMenu.CategoryFilterInCatalogOrder | SIG-IPC/Features/MapMenu/MapMenuViewModel.swift:53-60 | the selection is a subsequence of the catalog and keeps catalog order across any split |
| MapMenu.MapMenuViewModel.ApplyCategory | SIG-IPC/Features/MapMenu/MapMenuViewModel.swift:52-62 | `selectedBrand` becomes exactly the category's entities in catalog order, discarding any previous selection, and `showFilter` becomes false; no other property changes |
| MapMenu.MapMenuViewModel.FetchRecentSearchResults | SIG-IPC/Features/MapMenu/MapMenuViewModel.swift:78-101 | a failed fetch yields no records; otherwise the loop with its seen-name set and early exit yields exactly the deduplicated list `RecentSearches` |
| MapMenu.RecentSearchesBounded | SIG-IPC/Features/MapMenu/MapMenuViewModel.swift:86-95 | at most four records, each with a name, no name twice; records without a name are skipped |
| MapMenu.RecentSearchesKeepNewest | SIG-IPC/Features/MapMenu/MapMenuViewModel.swift:89-95 | the result is an order-preserving subsequence of the newest-first input, and each record in it is the newest record carrying its name |
| MapMenu.RecentSearchesComplete | SIG-IPC/Features/MapMenu/MapMenuViewModel.swift:89-95 | the shown names are the newest distinct ones: a stored record's name is shown whenever at most four distinct names occur up to and including it; fewer than four records are returned only when every stored name is among them |
| MapMenu.MapMenuViewModel.LoadRecentSearchResults | SIG-IPC/Features/MapMenu/MapMenuViewModel.swift:104-106 | `recentSearchResults` becomes the deduplicated list, or empty when the fetch fails |
| MapMenu.MapMenuViewModel.ResetState | SIG-IPC/Features/MapMenu/MapMenuViewModel.swift:108-115 | popup data and coordinate become nil, the screen position zero, the segmented control shown; nothing else changes |
| MapMenu.MapMenuViewModel.SetDisplayMode | SIG-IPC/Features/MapMenu/MapMenuViewModel.swift:17-21 | every assignment of the display mode, even of the same mode, stores it and performs the reset |
| MapMenu.MapMenuViewModel.ReceiveSearchText | SIG-IPC/Features/MapMenu/MapMenuViewModel.swift:39-49 | the published suggestions become the suggestions of the delivered text; nothing else changes |
| MapMenu.MapMenuViewModel.constructor | SIG-IPC/Features/MapMenu/MapMenuViewModel.swift:13-35 | every published property starts at its declared default: brand mode, segmented control shown, no popup, empty lists |
| MapMenu.FirstByName | SIG-IPC/Features/MapMenu/MapMenuView.swift:95 | a found entity is in the catalog and its name equals the text ignoring case (and it is a booth when only booths are searched); nothing is found exactly when no entity matches |
| MapMenu.FirstByNameIsEarliest | SIG-IPC/Features/MapMenu/MapMenuView.swift:247 | the entity found is the earliest matching one in catalog order |
| Pdr.PdrManager.constructor | SIG-IPC/Managers/PDRManager.swift:24-27 | the position is the given coordinate, the previous step count 0, the heading 0, nothing travelled |
| Pdr.PdrManager.WithDefaultCoordinate | SIG-IPC/Managers/PDRManager.swift:24-25 | without a coordinate, the position is (-6.301998041670829, 106.65247636617268) |
| Pdr.PdrManager.OnPedometerUpdate | SIG-IPC/Managers/PDRManager.swift:31-40 | an event without data changes nothing; with data the previous count becomes the total; the position advances by (total - previous) x 0.75 m exactly when the total went up and is otherwise unchanged |
| Pdr.PdrManager.OnDeviceMotion | SIG-IPC/Managers/PDRManager.swift:45-48 | the heading becomes yaw x 180 / pi; the position and step count never change; an event without attitude changes nothing |
| Pdr.PdrManager.UpdatePosition | SIG-IPC/Managers/PDRManager.swift:52-66 | the position becomes the displacement of the old position by steps x step length along the current heading |
| Pdr.Telescoping | SIG-IPC/Managers/PDRManager.swift:34-38 | for totals that never go down, the summed advance is (last total - starting count) x 0.75 m, however the totals are split into events |
| Pdr.DistanceFromStart | SIG-IPC/Managers/PDRManager.swift:18-20 | from a fresh estimator, nondecreasing totals move the position by the last total x 0.75 m |
| Pdr.AdvanceCoversNetGain | SIG-IPC/Managers/PDRManager.swift:34-39 | for any totals, even dropping ones, the summed advance is never negative and never below the net gain: a drop never moves the position back |
| Entry.ContentViewModel.constructor | SIG-IPC/Features/Entry/ContentViewModel.swift:11 | `displayMap` starts false |
| Entry.ContentViewModel.ToggleMap | SIG-IPC/Features/Entry/ContentViewModel.swift:13-15 | `displayMap` is negated and nothing else changes |
| Entry.TogglesParity | SIG-IPC/Features/Entry/ContentViewModel.swift:13-15 | after n toggles the value has flipped exactly when n is odd |
| Entry.DisplayedAfterOddToggles | SIG-IPC/Features/Entry/ContentViewModel.swift:11-15 | from the initial state, the map is displayed after n toggles exactly when n is odd |
| Entry.ToggleTwiceRestores | SIG-IPC/Features/Entry/ContentViewModel.swift:13-15 | two consecutive toggles restore any state |

## Left out

- Floating point: doubles are exact reals. NaN, for which Swift's `==` on wrappers is not reflexive, and rounding in `yaw * 180 / .pi` and `steps * 0.75` are not modelled.
- The trigonometric equirectangular displacement (PDRManager.swift:54-60) is the function parameter `advance`. Its cosine and sine arithmetic is not modelled.
- Pdr.PdrManager.UpdatePosition: the new coordinate is published through `DispatchQueue.main.async`. The model assigns it at once, so the interleaving of a pedometer callback with a pending publish is not captured.
- Pdr.PdrManager.OnPedometerUpdate: `Int` subtraction can trap on overflow. Totals are unbounded integers here; real step counts are far below the limit.
- Sensor availability checks and callback registration (`isStepCountingAvailable`, `isDeviceMotionAvailable`, `[weak self]`): an unavailable sensor simply never calls the event methods.
- The Combine pipeline's 300 ms debounce and `removeDuplicates` (MapMenuViewModel.swift:39-41). `ReceiveSearchText` is the sink, called with whatever text the pipeline delivers.
- CoreData: `saveSearchResult` and the fetch request's newest-first sort (MapMenuViewModel.swift:64-83). The fetch is a `Result` whose success value is already sorted newest first. Logging (the `print` calls on save and on a failed fetch) is not modelled.
- MapMenu.CategoryFilterExactly, MapMenu.RecentSearchesBounded, MapMenu.RecentSearchesKeepNewest, MapMenu.RecentSearchesComplete, MapMenu.FirstByName, MapMenu.SuggestionsExactly: strings are compared code point by code point. Swift's `String ==`, `Set<String>.contains` and `[String].contains` treat canonically equivalent spellings (`"Cafe\u{301}"` and `"Café"`) as equal. The model's category test, name deduplication, name lookup and substring test therefore treat such spellings as different names.
- Text.ContainsIgnoringCase: folds only ASCII letters. Foundation's locale-aware folding is not modelled. Its answer for an empty needle is never used, because the suggestion mapping returns no suggestions for empty text first.
- MapMenu.FirstByName: the tap on a recent search (MapMenuView.swift:285) compares with an optional name. A nil name never matches, so that case is the lookup not being made.
- `mapViewRef`, the popup's callbacks and `withAnimation`: MapKit and SwiftUI objects with no logic.
- The synthesised `Decodable` conformances of `EntityProperties`, `BrandProperties`, `Hall` and the feature records are not modelled; only the hand-written geometry initialisers are.
- The SwiftUI views, `MapView`, `LocationManager`, `GeoJSONDecoderManager` and the stale `Entitiy.swift` are not part of this model. They are presentation or framework glue.
- `MapView.swift` styles overlays with fixed colours by kind: polylines blue, polygons red. This styling is not modelled.
- The zoom-once `hasZoomed` latch at GeoJSONDecoderManager.swift:26,44-48 is not modelled. It fits the viewport to the first polygon of a load.
