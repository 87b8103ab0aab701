/** The lost-and-found query page: its filters and "viewed" flag live in the
    URL, items are filtered and sorted newest first, and changing the
    filters or pressing view updates the state and the URL. */
module QueryPage {
  import opened Js
  import opened Statuses
  import opened LostFound

  // ---------------------------------------------------------------------
  // URL search params
  // ---------------------------------------------------------------------

  /** The name-value pairs of a `URLSearchParams`, in order. */
  type Entries = seq<(string, string)>

  /** `get(name)`: the value of the first pair with that name. */
  function GetEntry(entries: Entries, name: string): (r: Option<string>)
    ensures r.Some? ==> (name, r.value) in entries
    ensures r.None? ==> forall i :: 0 <= i < |entries| ==> entries[i].0 != name
  {
    if entries == [] then None
    else if entries[0].0 == name then Some(entries[0].1)
    else GetEntry(entries[1..], name)
  }

  /** The pairs with every pair named `name` removed. */
  function Without(entries: Entries, name: string): (r: Entries)
    ensures forall i :: 0 <= i < |r| ==> r[i].0 != name
    ensures forall other :: other != name ==> GetEntry(r, other) == GetEntry(entries, other)
  {
    if entries == [] then []
    else if entries[0].0 == name then Without(entries[1..], name)
    else [entries[0]] + Without(entries[1..], name)
  }

  /** `set(name, value)`: the first pair with that name takes the value and
      the others are removed; without one, the pair is appended. */
  function SetEntry(entries: Entries, name: string, value: string): (r: Entries)
    ensures GetEntry(r, name) == Some(value)
    ensures forall other :: other != name ==> GetEntry(r, other) == GetEntry(entries, other)
  {
    if entries == [] then [(name, value)]
    else if entries[0].0 == name then [(name, value)] + Without(entries[1..], name)
    else [entries[0]] + SetEntry(entries[1..], name, value)
  }

  /** A `URLSearchParams` object; its text form is left abstract. */
  class SearchParams {
    var entries: Entries

    constructor()
      ensures entries == []
    {
      entries := [];
    }

    function Get(name: string): Option<string>
      reads this
    {
      GetEntry(entries, name)
    }

    method Set(name: string, value: string)
      modifies this
      ensures entries == SetEntry(old(entries), name, value)
    {
      entries := SetEntry(entries, name, value);
    }
  }

  // ---------------------------------------------------------------------
  // Filters and the URL
  // ---------------------------------------------------------------------

  /** `QueryFilters`; the time range and status are the values of the
      option lists. */
  datatype QueryFilters = QueryFilters(
    itemType: Option<string>, location: Option<string>, timeRange: Option<string>, status: Option<string>)

  /** JS truthiness of an optional string. */
  predicate Present(v: Option<string>) {
    v.Some? && v.value != []
  }

  datatype QueryPageState = QueryPageState(filters: QueryFilters, hasViewed: bool)

  /** `param?.trim() || undefined` */
  function TrimmedParam(v: Option<string>): (r: Option<string>)
    ensures r.Some? ==> r.value != [] && v.Some? && r.value == Trim(v.value)
    ensures r.None? <==> v.None? || Trim(v.value) == []
  {
    if v.Some? && Trim(v.value) != [] then Some(Trim(v.value)) else None
  }

  /** A param kept only when it is non-empty and one of the allowed values. */
  function AllowedParam(v: Option<string>, allowed: set<string>): (r: Option<string>)
    ensures r.Some? <==> Present(v) && v.value in allowed
    ensures r.Some? ==> r == v
  {
    if Present(v) && v.value in allowed then v else None
  }

  /** `parseInitialState`, with the option values of `TIME_RANGE_OPTIONS`
      and `STATUS_OPTIONS` as parameters. */
  function ParseInitialState(params: Entries, validTimeRanges: set<string>, validStatuses: set<string>): (r: QueryPageState)
    ensures r.hasViewed <==> GetEntry(params, "viewed") == Some("1")
    ensures r.filters == QueryFilters(
      TrimmedParam(GetEntry(params, "itemType")), TrimmedParam(GetEntry(params, "location")),
      AllowedParam(GetEntry(params, "timeRange"), validTimeRanges), AllowedParam(GetEntry(params, "status"), validStatuses))
  {
    QueryPageState(
      QueryFilters(
        TrimmedParam(GetEntry(params, "itemType")),
        TrimmedParam(GetEntry(params, "location")),
        AllowedParam(GetEntry(params, "timeRange"), validTimeRanges),
        AllowedParam(GetEntry(params, "status"), validStatuses)),
      GetEntry(params, "viewed") == Some("1"))
  }

  /** The pair written for one optional filter: present filters only. */
  function Group(name: string, v: Option<string>): Entries {
    if Present(v) then [(name, v.value)] else []
  }

  /** The pairs `buildSearchText` writes: one per present filter, in field
      order, then `viewed=1` when viewed. */
  function SearchEntries(filters: QueryFilters, hasViewed: bool): Entries {
    Group("itemType", filters.itemType) + Group("location", filters.location)
    + Group("timeRange", filters.timeRange) + Group("status", filters.status)
    + Group("viewed", if hasViewed then Some("1") else None)
  }

  /** Every pair is named from `names`. */
  predicate NamesIn(entries: Entries, names: set<string>) {
    forall i :: 0 <= i < |entries| ==> entries[i].0 in names
  }

  /** `if (v) params.set(name, v)` on params that do not hold `name` yet. */
  method SetIfPresent(params: SearchParams, name: string, v: Option<string>, ghost names: set<string>)
    requires NamesIn(params.entries, names) && name !in names
    modifies params
    ensures params.entries == old(params.entries) + Group(name, v)
    ensures NamesIn(params.entries, names + {name})
  {
    if Present(v) {
      SetAppends(params.entries, name, v.value);
      params.Set(name, v.value);
    }
  }

  /** `buildSearchText`: successive `set` calls on a fresh params object. */
  method BuildSearchText(filters: QueryFilters, hasViewed: bool) returns (entries: Entries)
    ensures entries == SearchEntries(filters, hasViewed)
  {
    var params := new SearchParams();
    SetIfPresent(params, "itemType", filters.itemType, {});
    SetIfPresent(params, "location", filters.location, {"itemType"});
    SetIfPresent(params, "timeRange", filters.timeRange, {"itemType", "location"});
    SetIfPresent(params, "status", filters.status, {"itemType", "location", "timeRange"});
    SetIfPresent(params, "viewed", if hasViewed then Some("1") else None,
                 {"itemType", "location", "timeRange", "status"});
    entries := params.entries;
  }

  /** Setting a name not yet present appends the pair. */
  lemma {:induction false} SetAppends(entries: Entries, name: string, value: string)
    requires forall i :: 0 <= i < |entries| ==> entries[i].0 != name
    ensures SetEntry(entries, name, value) == entries + [(name, value)]
  {
    if entries != [] {
      SetAppends(entries[1..], name, value);
      assert [entries[0]] + (entries[1..] + [(name, value)]) == entries + [(name, value)];
    }
  }

  /** `a || b` on optional values. */
  function OrElse(a: Option<string>, b: Option<string>): Option<string> {
    if a.Some? then a else b
  }

  /** Reading the concatenation reads the first part, then the second. */
  lemma {:induction false} GetEntryAppend(a: Entries, b: Entries, name: string)
    ensures GetEntry(a + b, name) == OrElse(GetEntry(a, name), GetEntry(b, name))
  {
    if a == [] {
      assert a + b == b;
    } else {
      assert (a + b)[0] == a[0];
      assert (a + b)[1..] == a[1..] + b;
      GetEntryAppend(a[1..], b, name);
    }
  }

  /** A filter as the URL keeps it: only when present. */
  function Kept(v: Option<string>): Option<string> {
    if Present(v) then v else None
  }

  /** Reading one group. */
  lemma GroupGet(name: string, v: Option<string>, key: string)
    ensures GetEntry(Group(name, v), key) == (if name == key then Kept(v) else None)
  {
  }

  /** The names the page writes are pairwise different. */
  lemma NamesDistinct()
    ensures "itemType" != "location" && "itemType" != "timeRange" && "itemType" != "status" && "itemType" != "viewed"
    ensures "location" != "timeRange" && "location" != "status" && "location" != "viewed"
    ensures "timeRange" != "status" && "timeRange" != "viewed" && "status" != "viewed"
  {
    assert "itemType"[0] == 'i' && "location"[0] == 'l' && "timeRange"[0] == 't';
    assert "status"[0] == 's' && "viewed"[0] == 'v';
  }

  /** The URL read back: the first of the five groups that holds the name. */
  lemma {:induction false} SearchEntriesGet(filters: QueryFilters, hasViewed: bool, name: string)
    ensures GetEntry(SearchEntries(filters, hasViewed), name)
      == OrElse(if name == "itemType" then Kept(filters.itemType) else None,
         OrElse(if name == "location" then Kept(filters.location) else None,
         OrElse(if name == "timeRange" then Kept(filters.timeRange) else None,
         OrElse(if name == "status" then Kept(filters.status) else None,
                if name == "viewed" && hasViewed then Some("1") else None))))
  {
    var a := Group("itemType", filters.itemType);
    var b := Group("location", filters.location);
    var c := Group("timeRange", filters.timeRange);
    var d := Group("status", filters.status);
    var v := Group("viewed", if hasViewed then Some("1") else None);
    GetEntryAppend(a + b + c + d, v, name);
    GetEntryAppend(a + b + c, d, name);
    GetEntryAppend(a + b, c, name);
    GetEntryAppend(a, b, name);
    GroupGet("itemType", filters.itemType, name);
    GroupGet("location", filters.location, name);
    GroupGet("timeRange", filters.timeRange, name);
    GroupGet("status", filters.status, name);
    GroupGet("viewed", if hasViewed then Some("1") else None, name);
  }

  /** A key is written exactly for a present filter, with its value, and
      `viewed` exactly when viewed. */
  lemma SearchEntriesKeys(filters: QueryFilters, hasViewed: bool)
    ensures var e := SearchEntries(filters, hasViewed);
      && GetEntry(e, "itemType") == Kept(filters.itemType)
      && GetEntry(e, "location") == Kept(filters.location)
      && GetEntry(e, "timeRange") == Kept(filters.timeRange)
      && GetEntry(e, "status") == Kept(filters.status)
      && GetEntry(e, "viewed") == (if hasViewed then Some("1") else None)
  {
    NamesDistinct();
    SearchEntriesGet(filters, hasViewed, "itemType");
    SearchEntriesGet(filters, hasViewed, "location");
    SearchEntriesGet(filters, hasViewed, "timeRange");
    SearchEntriesGet(filters, hasViewed, "status");
    SearchEntriesGet(filters, hasViewed, "viewed");
  }

  /** Filters as `parseInitialState` produces them: text filters trimmed and
      non-empty, option filters non-empty and allowed. */
  predicate Normalised(f: QueryFilters, validTimeRanges: set<string>, validStatuses: set<string>) {
    && (f.itemType.Some? ==> f.itemType.value != [] && IsTrimmed(f.itemType.value))
    && (f.location.Some? ==> f.location.value != [] && IsTrimmed(f.location.value))
    && (f.timeRange.Some? ==> f.timeRange.value != [] && f.timeRange.value in validTimeRanges)
    && (f.status.Some? ==> f.status.value != [] && f.status.value in validStatuses)
  }

  /** Writing the state into the URL and reading it back gives the same
      state. */
  lemma UrlRoundTrip(f: QueryFilters, hasViewed: bool, validTimeRanges: set<string>, validStatuses: set<string>)
    requires Normalised(f, validTimeRanges, validStatuses)
    ensures ParseInitialState(SearchEntries(f, hasViewed), validTimeRanges, validStatuses) == QueryPageState(f, hasViewed)
  {
    SearchEntriesKeys(f, hasViewed);
    ParseKnownEntries(SearchEntries(f, hasViewed), f, hasViewed, validTimeRanges, validStatuses);
  }

  /** Parsing URL params whose keys read back normalised filters and the
      `viewed` flag gives exactly that state. */
  lemma ParseKnownEntries(e: Entries, f: QueryFilters, hasViewed: bool, validTimeRanges: set<string>, validStatuses: set<string>)
    requires Normalised(f, validTimeRanges, validStatuses)
    requires GetEntry(e, "itemType") == Kept(f.itemType) && GetEntry(e, "location") == Kept(f.location)
    requires GetEntry(e, "timeRange") == Kept(f.timeRange) && GetEntry(e, "status") == Kept(f.status)
    requires GetEntry(e, "viewed") == (if hasViewed then Some("1") else None)
    ensures ParseInitialState(e, validTimeRanges, validStatuses) == QueryPageState(f, hasViewed)
  {
    assert TrimmedParam(GetEntry(e, "itemType")) == f.itemType by { TextRoundTrip(f.itemType); }
    assert TrimmedParam(GetEntry(e, "location")) == f.location by { TextRoundTrip(f.location); }
    assert AllowedParam(GetEntry(e, "timeRange"), validTimeRanges) == f.timeRange by {
      OptionRoundTrip(f.timeRange, validTimeRanges);
    }
    assert AllowedParam(GetEntry(e, "status"), validStatuses) == f.status by {
      OptionRoundTrip(f.status, validStatuses);
    }
  }

  /** A trimmed, non-empty text filter reads back as itself. */
  lemma TextRoundTrip(v: Option<string>)
    requires v.Some? ==> v.value != [] && IsTrimmed(v.value)
    ensures TrimmedParam(Kept(v)) == v
  {
  }

  /** An allowed, non-empty option filter reads back as itself. */
  lemma OptionRoundTrip(v: Option<string>, allowed: set<string>)
    requires v.Some? ==> v.value != [] && v.value in allowed
    ensures AllowedParam(Kept(v), allowed) == v
  {
  }

  /** Whatever the URL holds, the parsed filters are normalised. */
  lemma ParsedFiltersNormalised(params: Entries, validTimeRanges: set<string>, validStatuses: set<string>)
    ensures Normalised(ParseInitialState(params, validTimeRanges, validStatuses).filters, validTimeRanges, validStatuses)
  {
  }

  // ---------------------------------------------------------------------
  // Filtering and sorting
  // ---------------------------------------------------------------------

  /** The filter of `filteredItems`, with `isWithinTimeRange` as a
      parameter: each present filter must match exactly. */
  predicate Matches(item: LostFoundItem, f: QueryFilters, withinTimeRange: (string, Option<string>) -> bool) {
    && (Present(f.itemType) ==> item.itemType == f.itemType.value)
    && (Present(f.location) ==> item.location == f.location.value)
    && (Present(f.status) ==> ItemStatusLabel(item.status) == f.status.value)
    && withinTimeRange(item.occurredAt, f.timeRange)
  }

  function Filter(items: seq<LostFoundItem>, f: QueryFilters, withinTimeRange: (string, Option<string>) -> bool): (r: seq<LostFoundItem>)
    ensures forall y :: y in r ==> Matches(y, f, withinTimeRange)
    ensures multiset(r) <= multiset(items)
    ensures forall y :: y in items && Matches(y, f, withinTimeRange) ==> y in r
  {
    if items == [] then []
    else
      var rest := Filter(items[1..], f, withinTimeRange);
      assert items == [items[0]] + items[1..];
      if Matches(items[0], f, withinTimeRange) then [items[0]] + rest else rest
  }

  /** The filter keeps order and multiplicity: filtering a concatenation is
      concatenating the filtered parts, and one item is kept exactly when it
      matches. */
  lemma {:induction false} FilterInOrder(a: seq<LostFoundItem>, b: seq<LostFoundItem>, x: LostFoundItem,
                                         f: QueryFilters, withinTimeRange: (string, Option<string>) -> bool)
    ensures Filter(a + b, f, withinTimeRange) == Filter(a, f, withinTimeRange) + Filter(b, f, withinTimeRange)
    ensures Filter([x], f, withinTimeRange) == if Matches(x, f, withinTimeRange) then [x] else []
  {
    if a == [] {
      assert a + b == b;
    } else {
      assert (a + b)[1..] == a[1..] + b;
      FilterInOrder(a[1..], b, x, f, withinTimeRange);
    }
    assert [x][1..] == [];
  }

  /** Newest first by `toTimestamp` of `occurredAt` (a parameter). */
  predicate SortedNewestFirst(items: seq<LostFoundItem>, timestamp: string -> int) {
    forall i, j :: 0 <= i < j < |items| ==> timestamp(items[i].occurredAt) >= timestamp(items[j].occurredAt)
  }

  /** Places `x` before the first item that is not newer, as a stable sort
      does for an item that came earlier. */
  function Insert(x: LostFoundItem, sorted: seq<LostFoundItem>, timestamp: string -> int): (r: seq<LostFoundItem>)
    requires SortedNewestFirst(sorted, timestamp)
    ensures SortedNewestFirst(r, timestamp)
    ensures multiset(r) == multiset(sorted) + multiset{x}
    ensures |r| == |sorted| + 1 && (r[0] == x || (sorted != [] && r[0] == sorted[0]))
  {
    if sorted == [] || timestamp(sorted[0].occurredAt) <= timestamp(x.occurredAt) then
      SortedCons(x, sorted, timestamp);
      [x] + sorted
    else
      SortedTail(sorted, timestamp);
      var rest := Insert(x, sorted[1..], timestamp);
      InsertBehindHead(x, sorted, rest, timestamp);
      [sorted[0]] + rest
  }

  /** The step of `Insert` that keeps the head in front. */
  lemma InsertBehindHead(x: LostFoundItem, sorted: seq<LostFoundItem>, rest: seq<LostFoundItem>, timestamp: string -> int)
    requires sorted != [] && timestamp(sorted[0].occurredAt) > timestamp(x.occurredAt)
    requires SortedNewestFirst(sorted, timestamp) && SortedNewestFirst(rest, timestamp)
    requires multiset(rest) == multiset(sorted[1..]) + multiset{x}
    requires |rest| == |sorted| && (rest[0] == x || (|sorted| > 1 && rest[0] == sorted[1]))
    ensures SortedNewestFirst([sorted[0]] + rest, timestamp)
    ensures multiset([sorted[0]] + rest) == multiset(sorted) + multiset{x}
  {
    assert sorted == [sorted[0]] + sorted[1..];
    if rest[0] != x {
      assert timestamp(sorted[0].occurredAt) >= timestamp(sorted[1].occurredAt);
    }
    SortedCons(sorted[0], rest, timestamp);
  }

  lemma SortedTail(items: seq<LostFoundItem>, timestamp: string -> int)
    requires items != [] && SortedNewestFirst(items, timestamp)
    ensures SortedNewestFirst(items[1..], timestamp)
  {
    forall i, j | 0 <= i < j < |items| - 1
      ensures timestamp(items[1..][i].occurredAt) >= timestamp(items[1..][j].occurredAt)
    {
      assert items[1..][i] == items[i + 1] && items[1..][j] == items[j + 1];
    }
  }

  /** An item no older than the head of a sorted list can go in front. */
  lemma SortedCons(h: LostFoundItem, t: seq<LostFoundItem>, timestamp: string -> int)
    requires SortedNewestFirst(t, timestamp)
    requires t != [] ==> timestamp(t[0].occurredAt) <= timestamp(h.occurredAt)
    ensures SortedNewestFirst([h] + t, timestamp)
  {
    var r := [h] + t;
    forall i, j | 0 <= i < j < |r|
      ensures timestamp(r[i].occurredAt) >= timestamp(r[j].occurredAt)
    {
      if i == 0 {
        assert r[j] == t[j - 1];
        if j > 1 {
          assert timestamp(t[0].occurredAt) >= timestamp(t[j - 1].occurredAt);
        }
      } else {
        assert r[i] == t[i - 1] && r[j] == t[j - 1];
      }
    }
  }

  /** The stable `sort` by descending timestamp. */
  function SortNewestFirst(items: seq<LostFoundItem>, timestamp: string -> int): (r: seq<LostFoundItem>)
    ensures SortedNewestFirst(r, timestamp)
    ensures multiset(r) == multiset(items)
  {
    if items == [] then []
    else
      assert items == [items[0]] + items[1..];
      Insert(items[0], SortNewestFirst(items[1..], timestamp), timestamp)
  }

  /** `filteredItems`: the matching items, newest first. */
  function FilteredItems(items: seq<LostFoundItem>, f: QueryFilters,
                         withinTimeRange: (string, Option<string>) -> bool, timestamp: string -> int): (r: seq<LostFoundItem>)
    ensures SortedNewestFirst(r, timestamp)
    ensures forall y :: y in r ==> Matches(y, f, withinTimeRange)
    ensures multiset(r) == multiset(Filter(items, f, withinTimeRange))
    ensures forall y :: y in items && Matches(y, f, withinTimeRange) ==> y in r
  {
    var kept := Filter(items, f, withinTimeRange);
    var r := SortNewestFirst(kept, timestamp);
    assert forall y :: y in r <==> y in multiset(kept);
    r
  }

  // ---------------------------------------------------------------------
  // Page state
  // ---------------------------------------------------------------------

  /** The page's state: the filters, whether results are shown, whether
      they were ever shown (which hides the intro card), and the search
      part of the URL last written by `router.replace`. */
  class QueryPageView {
    var filters: QueryFilters
    var hasViewed: bool
    var hasSearchedOnce: bool
    var route: Entries

    /** Results shown means a search has happened. */
    predicate Valid()
      reads this
    {
      hasViewed ==> hasSearchedOnce
    }

    /** The initial state, read from the URL. */
    constructor(params: Entries, validTimeRanges: set<string>, validStatuses: set<string>)
      ensures Valid()
      ensures filters == ParseInitialState(params, validTimeRanges, validStatuses).filters
      ensures hasViewed == ParseInitialState(params, validTimeRanges, validStatuses).hasViewed
      ensures hasSearchedOnce == hasViewed && route == params
    {
      var initial := ParseInitialState(params, validTimeRanges, validStatuses);
      var viewed := initial.hasViewed;
      filters := initial.filters;
      hasViewed := viewed;
      hasSearchedOnce := viewed;
      route := params;
    }

    /** `handleFiltersChange`: new filters hide the results until viewed
        again, and the URL drops `viewed`. */
    method HandleFiltersChange(next: QueryFilters)
      requires Valid()
      modifies this
      ensures Valid()
      ensures filters == next && !hasViewed && hasSearchedOnce == old(hasSearchedOnce)
      ensures route == SearchEntries(next, false)
    {
      filters := next;
      hasViewed := false;
      route := BuildSearchText(next, false);
    }

    /** `handleView`: results are shown, and the URL records it. */
    method HandleView()
      requires Valid()
      modifies this
      ensures Valid()
      ensures hasViewed && hasSearchedOnce && filters == old(filters)
      ensures route == SearchEntries(filters, true)
    {
      hasViewed := true;
      hasSearchedOnce := true;
      route := BuildSearchText(filters, true);
    }
  }

  /** Reloading the page after viewing restores the filters and the shown
      results. */
  lemma ViewSurvivesReload(f: QueryFilters, validTimeRanges: set<string>, validStatuses: set<string>)
    requires Normalised(f, validTimeRanges, validStatuses)
    ensures ParseInitialState(SearchEntries(f, true), validTimeRanges, validStatuses).hasViewed
    ensures !ParseInitialState(SearchEntries(f, false), validTimeRanges, validStatuses).hasViewed
  {
    UrlRoundTrip(f, true, validTimeRanges, validStatuses);
    UrlRoundTrip(f, false, validTimeRanges, validStatuses);
  }
}
