/**
 * The map menu's view model: search suggestions, the category filter, the recent-search
 * list and the popup reset. The entity catalog is passed in as a sequence.
 */
module MapMenu {
  import opened Wrappers
  import opened Coordinates
  import opened Entities
  import opened Enums
  import opened Text
  import opened Sequences

  /** One search suggestion: a booth's name and the hall it stands in. */
  datatype SearchResult = SearchResult(name: string, hall: string)

  /** A stored recent search; every attribute of the persisted record is optional. */
  datatype CachedSearchResult = CachedSearchResult(name: Option<string>, hall: Option<string>, timestamp: Option<int>)

  /** The error a failed fetch of stored searches throws. */
  datatype FetchError = FetchError(message: string)

  /** What the popup shows (its close and click callbacks are not modelled). */
  datatype PopupData = PopupData(title: string, subtitle: string)

  datatype Point = Point(x: real, y: real)

  const Zero := Point(0.0, 0.0)

  // ---------------------------------------------------------------- search suggestions

  /** A catalog entity is suggested for `text` when it is a booth whose name contains the text. */
  predicate IsBoothMatch(e: Entity, text: string) {
    ContainsIgnoringCase(e.properties.name, text) && e.properties.objectType == "booth"
  }

  function BoothMatcher(text: string): Entity -> bool {
    e => IsBoothMatch(e, text)
  }

  /** The suggestion shown for an entity: its name and its hall, `""` when it has none. */
  function ToSearchResult(e: Entity): SearchResult {
    SearchResult(e.properties.name, e.properties.hall.GetOr(""))
  }

  /** The mapping from (debounced) search text to suggestions. */
  function Suggestions(catalog: seq<Entity>, text: string): (r: seq<SearchResult>)
    ensures text == "" ==> r == []
    ensures |r| <= |catalog|
  {
    if text == "" then [] else Map(Filter(catalog, BoothMatcher(text)), ToSearchResult)
  }

  /**
   * For non-empty text, the suggestions are exactly the search results of the catalog's
   * matching booths.
   */
  lemma SuggestionsExactly(catalog: seq<Entity>, text: string, x: SearchResult)
    requires text != ""
    ensures x in Suggestions(catalog, text) <==>
      exists e :: e in catalog && IsBoothMatch(e, text) && x == ToSearchResult(e)
  {
    var kept := Filter(catalog, BoothMatcher(text));
    if x in Suggestions(catalog, text) {
      var k :| 0 <= k < |kept| && Suggestions(catalog, text)[k] == x;
      assert kept[k] in kept;
    }
    if exists e :: e in catalog && IsBoothMatch(e, text) && x == ToSearchResult(e) {
      var e :| e in catalog && IsBoothMatch(e, text) && x == ToSearchResult(e);
      assert BoothMatcher(text)(e);
      var k :| 0 <= k < |kept| && kept[k] == e;
      assert Suggestions(catalog, text)[k] == x;
    }
  }

  /** Suggestions keep catalog order: those of a split catalog are those of its parts, concatenated. */
  lemma SuggestionsInCatalogOrder(front: seq<Entity>, back: seq<Entity>, text: string)
    ensures Suggestions(front + back, text) == Suggestions(front, text) + Suggestions(back, text)
  {
    if text != "" {
      FilterConcat(front, back, BoothMatcher(text));
      MapConcat(Filter(front, BoothMatcher(text)), Filter(back, BoothMatcher(text)), ToSearchResult);
    }
  }

  // ---------------------------------------------------------------- category filter

  /** An entity belongs to a category when its (present) category list contains it. */
  predicate HasCategory(e: Entity, category: string) {
    e.properties.category.Some? && category in e.properties.category.value
  }

  function CategoryMatcher(category: string): Entity -> bool {
    e => HasCategory(e, category)
  }

  /** The catalog entities listed under `category`, in catalog order. */
  function CategoryFilter(catalog: seq<Entity>, category: string): seq<Entity> {
    Filter(catalog, CategoryMatcher(category))
  }

  /**
   * An entity is selected exactly when it is in the catalog and lists the category; an
   * entity without a category list is never selected.
   */
  lemma CategoryFilterExactly(catalog: seq<Entity>, category: string, e: Entity)
    ensures e in CategoryFilter(catalog, category) <==> e in catalog && HasCategory(e, category)
    ensures e.properties.category.None? ==> e !in CategoryFilter(catalog, category)
  {
    assert CategoryMatcher(category)(e) == HasCategory(e, category);
  }

  /** The selection is a subsequence of the catalog and keeps catalog order across any split. */
  lemma CategoryFilterInCatalogOrder(front: seq<Entity>, back: seq<Entity>, category: string)
    ensures IsSubsequence(CategoryFilter(front + back, category), front + back)
    ensures CategoryFilter(front + back, category) == CategoryFilter(front, category) + CategoryFilter(back, category)
  {
    FilterIsSubsequence(front + back, CategoryMatcher(category));
    FilterConcat(front, back, CategoryMatcher(category));
  }

  // ---------------------------------------------------------------- recent searches

  /** How many recent searches are shown. */
  const RecentLimit: nat := 4

  /**
   * Scanning newest-first records: keep a record when it has a name not yet seen, until
   * `room` records are kept.
   */
  function Dedup(records: seq<CachedSearchResult>, seen: set<string>, room: nat): seq<CachedSearchResult>
    decreases |records|
  {
    if records == [] || room == 0 then []
    else match records[0].name
      case Some(n) =>
        if n !in seen then [records[0]] + Dedup(records[1..], seen + {n}, room - 1)
        else Dedup(records[1..], seen, room)
      case None => Dedup(records[1..], seen, room)
  }

  /** The recent-search list shown for records fetched newest first. */
  function RecentSearches(newestFirst: seq<CachedSearchResult>): seq<CachedSearchResult> {
    Dedup(newestFirst, {}, RecentLimit)
  }

  /** The name a record carries, as a set with at most one element. */
  function NameOf(record: CachedSearchResult): set<string> {
    if record.name.Some? then {record.name.value} else {}
  }

  /** The names carried by a list of records. */
  function NameSet(records: seq<CachedSearchResult>): set<string> {
    if records == [] then {} else NameOf(records[0]) + NameSet(records[1..])
  }

  /** The first (newest) record carrying `name`, if any. */
  function NewestNamed(records: seq<CachedSearchResult>, name: string): Option<CachedSearchResult> {
    FirstWhere(records, (r: CachedSearchResult) => r.name == Some(name))
  }

  lemma {:induction false} DedupShape(records: seq<CachedSearchResult>, seen: set<string>, room: nat)
    ensures var r := Dedup(records, seen, room);
      && |r| <= room
      && (forall k :: 0 <= k < |r| ==> r[k].name.Some? && r[k].name.value !in seen)
      && (forall i, j :: 0 <= i < j < |r| ==> r[i].name != r[j].name)
      && IsSubsequence(r, records)
    decreases |records|
  {
    if records != [] && room != 0 {
      var tail := records[1..];
      match records[0].name
      case Some(n) =>
        if n !in seen {
          DedupShape(tail, seen + {n}, room - 1);
          var r := Dedup(records, seen, room);
          assert r[1..] == Dedup(tail, seen + {n}, room - 1);
        } else {
          DedupShape(tail, seen, room);
        }
      case None =>
        DedupShape(tail, seen, room);
    }
  }

  lemma {:induction false} DedupKeepsNewest(records: seq<CachedSearchResult>, seen: set<string>, room: nat, k: nat)
    requires k < |Dedup(records, seen, room)|
    ensures Dedup(records, seen, room)[k].name.Some?
    ensures NewestNamed(records, Dedup(records, seen, room)[k].name.value) == Some(Dedup(records, seen, room)[k])
    decreases |records|
  {
    var r := Dedup(records, seen, room);
    var tail := records[1..];
    DedupShape(records, seen, room);
    match records[0].name
    case Some(n) =>
      if n !in seen {
        if k > 0 {
          DedupShape(tail, seen + {n}, room - 1);
          DedupKeepsNewest(tail, seen + {n}, room - 1, k - 1);
        }
      } else {
        DedupKeepsNewest(tail, seen, room, k);
      }
    case None =>
      DedupKeepsNewest(tail, seen, room, k);
  }

  lemma {:induction false} DedupComplete(records: seq<CachedSearchResult>, seen: set<string>, room: nat)
    ensures |Dedup(records, seen, room)| < room ==> NameSet(records) <= seen + NameSet(Dedup(records, seen, room))
    decreases |records|
  {
    if records != [] && room != 0 {
      var tail := records[1..];
      match records[0].name
      case Some(n) =>
        if n !in seen {
          DedupComplete(tail, seen + {n}, room - 1);
        } else {
          DedupComplete(tail, seen, room);
        }
      case None =>
        DedupComplete(tail, seen, room);
    }
  }

  /** A record's name is among the names of any list holding it. */
  lemma {:induction false} NameSetHas(records: seq<CachedSearchResult>, i: nat)
    requires i < |records| && records[i].name.Some?
    ensures records[i].name.value in NameSet(records)
    decreases |records|
  {
    if i > 0 {
      NameSetHas(records[1..], i - 1);
    }
  }

  /** The names of a list with one more record in front. */
  lemma NameSetCons(first: CachedSearchResult, rest: seq<CachedSearchResult>)
    ensures NameSet([first] + rest) == NameOf(first) + NameSet(rest)
  {
    assert ([first] + rest)[1..] == rest;
  }

  /** When there is room, the first record's name is kept unless it was already seen. */
  lemma DedupKeepsFirstName(records: seq<CachedSearchResult>, seen: set<string>, room: nat)
    requires records != [] && room > 0
    ensures NameOf(records[0]) <= seen + NameSet(Dedup(records, seen, room))
  {
    match records[0].name
    case Some(n) =>
      if n !in seen {
        NameSetCons(records[0], Dedup(records[1..], seen + {n}, room - 1));
      }
    case None =>
  }

  /**
   * A named record is kept, or its name was seen, whenever the distinct unseen names up to
   * and including it fit in the room left.
   */
  lemma {:induction false} DedupKeepsEarlyNames(records: seq<CachedSearchResult>, seen: set<string>, room: nat, i: nat)
    requires i < |records| && records[i].name.Some?
    requires |NameSet(records[..i + 1]) - seen| <= room
    ensures records[i].name.value in seen + NameSet(Dedup(records, seen, room))
    decreases |records|, 2
  {
    var prefix := records[..i + 1];
    NameSetHas(prefix, i);
    if room == 0 {
      assert NameSet(prefix) - seen == {};
    } else if i == 0 {
      assert NameOf(records[0]) == {records[0].name.value};
      DedupKeepsFirstName(records, seen, room);
    } else {
      var tail := records[1..];
      assert prefix == [records[0]] + tail[..i];
      NameSetCons(records[0], tail[..i]);
      DedupKeepsLaterName(records, seen, room, i);
    }
  }

  /** Taking a new name out of the unseen names of a prefix leaves one name fewer. */
  lemma UnseenAfterNewName(names: set<string>, later: set<string>, seen: set<string>, n: string)
    requires names == {n} + later && n !in seen
    ensures |later - (seen + {n})| == |names - seen| - 1
  {
    assert names - seen == (later - (seen + {n})) + {n};
  }

  /** The step of `DedupKeepsEarlyNames` for a record after the first. */
  lemma {:induction false} DedupKeepsLaterName(records: seq<CachedSearchResult>, seen: set<string>, room: nat, i: nat)
    requires 0 < i < |records| && records[i].name.Some? && room > 0
    requires NameSet(records[..i + 1]) == NameOf(records[0]) + NameSet(records[1..][..i])
    requires |NameSet(records[..i + 1]) - seen| <= room
    ensures records[i].name.value in seen + NameSet(Dedup(records, seen, room))
    decreases |records|, 1
  {
    if records[0].name.Some? && records[0].name.value !in seen {
      DedupKeepsLaterNewName(records, seen, room, i);
    } else {
      var tail := records[1..];
      assert tail[i - 1] == records[i];
      assert tail[..i] == tail[..(i - 1) + 1];
      assert Dedup(records, seen, room) == Dedup(tail, seen, room);
      assert NameSet(records[..i + 1]) - seen == NameSet(tail[..i]) - seen;
      DedupKeepsEarlyNames(tail, seen, room, i - 1);
    }
  }

  /** The step of `DedupKeepsLaterName` when the first record brings a new name. */
  lemma {:induction false} DedupKeepsLaterNewName(records: seq<CachedSearchResult>, seen: set<string>, room: nat, i: nat)
    requires 0 < i < |records| && records[i].name.Some? && room > 0
    requires records[0].name.Some? && records[0].name.value !in seen
    requires NameSet(records[..i + 1]) == NameOf(records[0]) + NameSet(records[1..][..i])
    requires |NameSet(records[..i + 1]) - seen| <= room
    ensures records[i].name.value in seen + NameSet(Dedup(records, seen, room))
    decreases |records|, 0
  {
    var tail := records[1..];
    var n := records[0].name.value;
    assert tail[i - 1] == records[i];
    assert tail[..i] == tail[..(i - 1) + 1];
    var rest := Dedup(tail, seen + {n}, room - 1);
    assert Dedup(records, seen, room) == [records[0]] + rest;
    NameSetCons(records[0], rest);
    UnseenAfterNewName(NameSet(records[..i + 1]), NameSet(tail[..i]), seen, n);
    DedupKeepsEarlyNames(tail, seen + {n}, room - 1, i - 1);
  }

  /** At most four records are shown, each with a name, no name twice. */
  lemma RecentSearchesBounded(newestFirst: seq<CachedSearchResult>)
    ensures |RecentSearches(newestFirst)| <= RecentLimit
    ensures forall k :: 0 <= k < |RecentSearches(newestFirst)| ==> RecentSearches(newestFirst)[k].name.Some?
    ensures forall i, j :: 0 <= i < j < |RecentSearches(newestFirst)| ==>
      RecentSearches(newestFirst)[i].name != RecentSearches(newestFirst)[j].name
  {
    DedupShape(newestFirst, {}, RecentLimit);
  }

  /**
   * The shown records are an order-preserving selection of the fetched ones, and each is
   * the newest record carrying its name.
   */
  lemma RecentSearchesKeepNewest(newestFirst: seq<CachedSearchResult>)
    ensures IsSubsequence(RecentSearches(newestFirst), newestFirst)
    ensures forall k :: 0 <= k < |RecentSearches(newestFirst)| ==>
      RecentSearches(newestFirst)[k].name.Some? &&
      NewestNamed(newestFirst, RecentSearches(newestFirst)[k].name.value) == Some(RecentSearches(newestFirst)[k])
  {
    DedupShape(newestFirst, {}, RecentLimit);
    forall k | 0 <= k < |RecentSearches(newestFirst)|
      ensures RecentSearches(newestFirst)[k].name.Some?
      ensures NewestNamed(newestFirst, RecentSearches(newestFirst)[k].name.value) == Some(RecentSearches(newestFirst)[k])
    {
      DedupKeepsNewest(newestFirst, {}, RecentLimit, k);
    }
  }

  /**
   * The shown names are the newest distinct ones: a record's name is shown whenever at most
   * four distinct names occur up to and including it. In particular, fewer than four records
   * are shown only when every stored name is shown.
   */
  lemma RecentSearchesComplete(newestFirst: seq<CachedSearchResult>)
    ensures forall i :: 0 <= i < |newestFirst| && newestFirst[i].name.Some? &&
                        |NameSet(newestFirst[..i + 1])| <= RecentLimit ==>
              newestFirst[i].name.value in NameSet(RecentSearches(newestFirst))
    ensures |RecentSearches(newestFirst)| < RecentLimit ==> NameSet(newestFirst) <= NameSet(RecentSearches(newestFirst))
  {
    DedupComplete(newestFirst, {}, RecentLimit);
    forall i | 0 <= i < |newestFirst| && newestFirst[i].name.Some? && |NameSet(newestFirst[..i + 1])| <= RecentLimit
      ensures newestFirst[i].name.value in NameSet(RecentSearches(newestFirst))
    {
      assert NameSet(newestFirst[..i + 1]) - {} == NameSet(newestFirst[..i + 1]);
      DedupKeepsEarlyNames(newestFirst, {}, RecentLimit, i);
    }
  }

  // ---------------------------------------------------------------- the view model

  class MapMenuViewModel {
    var selectedCategory: string
    var showFilter: bool
    var shouldRecenter: bool
    var searchSuggestions: seq<SearchResult>
    var selectedDisplayMode: DisplayMode
    var showSegmentedControl: bool
    var shouldActivateSearchFlow: bool
    var searchText: string
    var selectedBrand: seq<Entity>
    var recentSearchResults: seq<CachedSearchResult>
    var popupCoordinate: Option<Coordinate>
    var popupScreenPosition: Point
    var popupData: Option<PopupData>
    var selectedBrands: seq<Entity>

    /** Every published property starts at its declared default. */
    constructor ()
      ensures selectedCategory == "" && !showFilter && !shouldRecenter && searchSuggestions == []
      ensures selectedDisplayMode == DisplayMode.Brand && showSegmentedControl && !shouldActivateSearchFlow
      ensures searchText == "" && selectedBrand == [] && recentSearchResults == []
      ensures popupCoordinate == None && popupScreenPosition == Zero && popupData == None
      ensures selectedBrands == []
    {
      selectedCategory := "";
      showFilter := false;
      shouldRecenter := false;
      searchSuggestions := [];
      selectedDisplayMode := DisplayMode.Brand;
      showSegmentedControl := true;
      shouldActivateSearchFlow := false;
      searchText := "";
      selectedBrand := [];
      recentSearchResults := [];
      popupCoordinate := None;
      popupScreenPosition := Zero;
      popupData := None;
      selectedBrands := [];
    }

    /** The search pipeline's sink: the debounced text's suggestions are published. */
    method ReceiveSearchText(catalog: seq<Entity>, text: string)
      modifies this`searchSuggestions
      ensures searchSuggestions == Suggestions(catalog, text)
    {
      searchSuggestions := Suggestions(catalog, text);
    }

    /**
     * Selects the catalog entities of the chosen category, discarding any previous
     * selection, and closes the filter sheet.
     */
    method ApplyCategory(catalog: seq<Entity>)
      modifies this`selectedBrands, this`selectedBrand, this`showFilter
      ensures selectedBrand == CategoryFilter(catalog, selectedCategory)
      ensures selectedBrands == CategoryFilter(catalog, selectedCategory)
      ensures !showFilter
    {
      selectedBrands := CategoryFilter(catalog, selectedCategory);
      selectedBrand := [];
      for k := 0 to |selectedBrands|
        invariant selectedBrands == CategoryFilter(catalog, selectedCategory)
        invariant selectedBrand == selectedBrands[..k]
      {
        selectedBrand := selectedBrand + [selectedBrands[k]];
      }
      showFilter := false;
    }

    /**
     * Deduplicates the stored searches, fetched newest first: a failed fetch gives no
     * records, otherwise the newest record of each name, at most four.
     */
    method FetchRecentSearchResults(fetched: Result<seq<CachedSearchResult>, FetchError>)
      returns (results: seq<CachedSearchResult>)
      ensures fetched.Failure? ==> results == []
      ensures fetched.Success? ==> results == RecentSearches(fetched.value)
    {
      if fetched.Failure? {
        return [];
      }
      var allResults := fetched.value;
      var seenNames: set<string> := {};
      var uniqueResults: seq<CachedSearchResult> := [];
      for i := 0 to |allResults|
        invariant |uniqueResults| < RecentLimit
        invariant uniqueResults + Dedup(allResults[i..], seenNames, RecentLimit - |uniqueResults|)
               == RecentSearches(allResults)
      {
        var result := allResults[i];
        assert allResults[i..][1..] == allResults[i + 1..];
        if result.name.Some? && result.name.value !in seenNames {
          seenNames := seenNames + {result.name.value};
          uniqueResults := uniqueResults + [result];
        }
        if |uniqueResults| >= RecentLimit {
          break;
        }
      }
      results := uniqueResults;
    }

    /** Publishes the deduplicated recent searches. */
    method LoadRecentSearchResults(fetched: Result<seq<CachedSearchResult>, FetchError>)
      modifies this`recentSearchResults
      ensures fetched.Failure? ==> recentSearchResults == []
      ensures fetched.Success? ==> recentSearchResults == RecentSearches(fetched.value)
    {
      recentSearchResults := FetchRecentSearchResults(fetched);
    }

    /** Closes the popup and shows the segmented control again; nothing else changes. */
    method ResetState()
      modifies this`popupData, this`popupCoordinate, this`popupScreenPosition, this`showSegmentedControl
      ensures popupData == None && popupCoordinate == None
      ensures popupScreenPosition == Zero && showSegmentedControl
    {
      popupData := None;
      popupCoordinate := None;
      popupScreenPosition := Zero;
      showSegmentedControl := true;
    }

    /** Assigning the display mode, which always runs `ResetState` (even for the same mode). */
    method SetDisplayMode(mode: DisplayMode)
      modifies this`selectedDisplayMode, this`popupData, this`popupCoordinate, this`popupScreenPosition,
               this`showSegmentedControl
      ensures selectedDisplayMode == mode
      ensures popupData == None && popupCoordinate == None
      ensures popupScreenPosition == Zero && showSegmentedControl
    {
      selectedDisplayMode := mode;
      ResetState();
    }
  }

  // ---------------------------------------------------------------- name lookups of the menu

  /** The lookup the menu uses to turn typed or tapped text into a catalog entity. */
  predicate NameMatches(e: Entity, name: string, boothsOnly: bool) {
    Lowercased(e.properties.name) == Lowercased(name) && (!boothsOnly || e.properties.objectType == "booth")
  }

  function NameMatcher(name: string, boothsOnly: bool): Entity -> bool {
    e => NameMatches(e, name, boothsOnly)
  }

  /**
   * The first catalog entity whose name equals `name` ignoring case (and, when
   * `boothsOnly`, that is a booth); none when no entity matches.
   */
  function FirstByName(catalog: seq<Entity>, name: string, boothsOnly: bool): (r: Option<Entity>)
    ensures r.Some? ==> r.value in catalog && NameMatches(r.value, name, boothsOnly)
    ensures r.None? <==> forall e :: e in catalog ==> !NameMatches(e, name, boothsOnly)
  {
    var r := FirstWhere(catalog, NameMatcher(name, boothsOnly));
    assert r.Some? ==> r.value in Filter(catalog, NameMatcher(name, boothsOnly));
    assert forall e :: e in catalog && NameMatches(e, name, boothsOnly) ==>
      NameMatcher(name, boothsOnly)(e) && e in Filter(catalog, NameMatcher(name, boothsOnly));
    r
  }

  /** The lookup returns the earliest matching entity of the catalog. */
  lemma FirstByNameIsEarliest(catalog: seq<Entity>, name: string, boothsOnly: bool)
    requires FirstByName(catalog, name, boothsOnly).Some?
    ensures exists i :: 0 <= i < |catalog| && catalog[i] == FirstByName(catalog, name, boothsOnly).value &&
                        forall j :: 0 <= j < i ==> !NameMatches(catalog[j], name, boothsOnly)
  {
    FirstWhereIsEarliest(catalog, NameMatcher(name, boothsOnly));
  }
}
