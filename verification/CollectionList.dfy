/**
 * The Collections list screen: a case-insensitive search over name and
 * description, a page of the filtered list, and the counters and buttons that
 * depend on them. The filter and the page are pure expressions of the screen
 * state; `filteringText`, `currentPageIndex`, `selectedItems` and the page size
 * are fields that the event handlers and the page-reset effect overwrite.
 */
module CollectionList {
  import opened Text
  import opened Seqs

  datatype Item = Item(
    name: string,
    description: string,
    group: string,
    status: string,
    collectionType: string,
    serverlessVersion: string,
    creationDate: string)

  /** The collections the screen lists (its hardcoded table data). */
  const AllItems: seq<Item> := [
    Item("awd2718", "-", "-", "Active", "Timeseries", "Serverless v2", "October 30, 2025, 10:19 (UTC-07:00)"),
    Item("awstest", "-", "-", "Active", "Timeseries", "Serverless v1", "June 12, 2024, 13:10 (UTC-07:00)"),
    Item("awstest2", "-", "-", "Active", "Timeseries", "Serverless v1", "June 12, 2024, 13:46 (UTC-07:00)"),
    Item("cloudwatch-logs-opensearch-3r", "-", "-", "Active", "Timeseries", "Serverless v2", "August 25, 2025, 13:45 (UTC-07:00)"),
    Item("collection-1726782959504", "-", "-", "Active", "Timeseries", "Serverless v1", "January 13, 2025, 10:52 (UTC-07:00)"),
    Item("collection-1759115442785", "-", "-", "Active", "Timeseries", "Serverless v2", "February 9, 2025, 10:57 (UTC-07:00)"),
    Item("collection-1740426643191", "-", "-", "Active", "Timeseries", "Serverless v2", "February 24, 2025, 14:50 (UTC-07:00)"),
    Item("collection-1740426837466", "-", "-", "Active", "Timeseries", "Serverless v1", "February 24, 2025, 14:54 (UTC-07:00)"),
    Item("collection2", "-", "-", "Active", "Timeseries", "Serverless v1", "May 22, 2023, 10:21 (UTC-07:00)"),
    Item("s3vectors-collection-175262", "-", "-", "Active", "Vectorsearch", "Serverless v2", "July 16, 2025, 10:22 (UTC-07:00)"),
    Item("s3vectors-collection-175263", "-", "-", "Active", "Vectorsearch", "Serverless v2", "July 16, 2025, 10:27 (UTC-07:00)"),
    Item("prod-logs-collection", "Production logs collection", "prod-group", "Active", "Timeseries", "Serverless v2", "March 15, 2025, 09:30 (UTC-07:00)"),
    Item("dev-test-collection-001", "-", "-", "Active", "Search", "Serverless v1", "March 20, 2025, 14:15 (UTC-07:00)"),
    Item("analytics-collection-2025", "Analytics data", "analytics", "Active", "Timeseries", "Serverless v2", "April 5, 2025, 11:45 (UTC-07:00)"),
    Item("staging-collection-v2", "-", "-", "Active", "Search", "Serverless v2", "April 12, 2025, 16:20 (UTC-07:00)"),
    Item("ml-vectors-collection", "Vector embeddings", "ml-group", "Active", "Vectorsearch", "Serverless v2", "May 1, 2025, 08:00 (UTC-07:00)"),
    Item("backup-collection-may", "-", "-", "Active", "Timeseries", "Serverless v1", "May 10, 2025, 13:30 (UTC-07:00)"),
    Item("customer-search-index", "Customer data search", "customer-data", "Active", "Search", "Serverless v2", "June 3, 2025, 10:10 (UTC-07:00)"),
    Item("temp-collection-june", "-", "-", "Active", "Timeseries", "Serverless v1", "June 18, 2025, 15:45 (UTC-07:00)"),
    Item("security-logs-collection", "Security logs", "security", "Active", "Timeseries", "Serverless v2", "July 2, 2025, 09:20 (UTC-07:00)"),
    Item("test-collection-july-25", "-", "-", "Active", "Search", "Serverless v1", "July 25, 2025, 12:00 (UTC-07:00)"),
    Item("app-metrics-collection", "Application metrics", "monitoring", "Active", "Timeseries", "Serverless v2", "August 8, 2025, 14:30 (UTC-07:00)"),
    Item("collection-sept-2025", "-", "-", "Active", "Timeseries", "Serverless v2", "September 1, 2025, 10:00 (UTC-07:00)"),
    Item("document-search-collection", "Document search", "documents", "Active", "Search", "Serverless v1", "September 15, 2025, 16:45 (UTC-07:00)"),
    Item("ai-embeddings-collection", "AI embeddings", "ml-group", "Active", "Vectorsearch", "Serverless v2", "October 1, 2025, 11:30 (UTC-07:00)")
  ]

  /** The page sizes the preferences dialog offers, and the initial one. */
  const PageSizeOptions: set<nat> := {10, 20, 50}
  const DefaultPageSize: nat := 20

  // ---------------------------------------------------------------------------
  // Search
  // ---------------------------------------------------------------------------

  /** The search test for non-empty text: name or description contains it, ignoring case. */
  predicate ItemMatches(item: Item, text: string) {
    MatchesIgnoringCase(item.name, text) || MatchesIgnoringCase(item.description, text)
  }

  /** The callback passed to `filter`: empty search text keeps everything. */
  function KeepItem(text: string): Item -> bool {
    item => text == [] || ItemMatches(item, text)
  }

  /**
   * `filteredItems`: with empty text every item, in the original order;
   * otherwise the items whose lower-cased name or description includes the
   * lower-cased text, and no others.
   */
  function FilterItems(items: seq<Item>, text: string): (r: seq<Item>)
    ensures text == [] ==> r == items
    ensures text != [] ==> forall i :: 0 <= i < |items| ==> (items[i] in r <==> ItemMatches(items[i], text))
    ensures |r| <= |items| && forall i :: 0 <= i < |r| ==> r[i] in items
  {
    if text == [] then FilterKeepsAll(KeepItem(text), items); Filter(KeepItem(text), items)
    else Filter(KeepItem(text), items)
  }

  /**
   * The filter keeps the relative order of the items: filtering a list made of
   * two parts is filtering each part and putting the results back together.
   */
  lemma FilterItemsKeepsOrder(a: seq<Item>, b: seq<Item>, text: string)
    ensures FilterItems(a + b, text) == FilterItems(a, text) + FilterItems(b, text)
  {
    FilterConcat(KeepItem(text), a, b);
  }

  // ---------------------------------------------------------------------------
  // Pagination
  // ---------------------------------------------------------------------------

  /** `Math.ceil(n / pageSize)`: the fewest pages of `pageSize` that hold `n` items. */
  function TotalPages(n: nat, pageSize: nat): (t: nat)
    requires pageSize > 0
    ensures n == 0 ==> t == 0
    ensures n > 0 ==> (t - 1) * pageSize < n <= t * pageSize
  {
    CeilBounds(n, pageSize);
    (n + pageSize - 1) / pageSize
  }

  lemma CeilBounds(n: nat, pageSize: nat)
    requires pageSize > 0
    ensures var t := (n + pageSize - 1) / pageSize;
      && t >= 0 && (n == 0 ==> t == 0) && (n > 0 ==> (t - 1) * pageSize < n <= t * pageSize)
  {
    var t, r := (n + pageSize - 1) / pageSize, (n + pageSize - 1) % pageSize;
    assert n + pageSize - 1 == t * pageSize + r && 0 <= r < pageSize;
    assert (t - 1) * pageSize == t * pageSize - pageSize;
    if n == 0 {
      assert (pageSize - 1) / pageSize == 0;
    }
  }

  /** `startIndex`: where page `page` (counted from 1) begins. */
  function StartIndex(page: int, pageSize: nat): int {
    (page - 1) * pageSize
  }

  /** `paginatedItems`: `s.slice(startIndex, startIndex + pageSize)`. */
  function PageOf<T>(s: seq<T>, page: int, pageSize: nat): seq<T> {
    JsSlice(s, StartIndex(page, pageSize), StartIndex(page, pageSize) + pageSize)
  }

  function Min(a: int, b: int): int {
    if a <= b then a else b
  }

  /**
   * For a page number the pager can produce (1 or more), the page is the
   * contiguous run of at most `pageSize` items starting at `startIndex`; it is
   * empty when that index is past the end, and non-empty for every page from 1
   * to the page count.
   */
  lemma PageIsSlice<T>(s: seq<T>, page: int, pageSize: nat)
    requires page >= 1 && pageSize > 0
    ensures var start := StartIndex(page, pageSize);
      && 0 <= start
      && PageOf(s, page, pageSize) == s[Min(start, |s|)..Min(start + pageSize, |s|)]
      && |PageOf(s, page, pageSize)| <= pageSize
      && (start >= |s| ==> PageOf(s, page, pageSize) == [])
      && (page <= TotalPages(|s|, pageSize) ==> |PageOf(s, page, pageSize)| > 0)
  {
    var start := StartIndex(page, pageSize);
    var t := TotalPages(|s|, pageSize);
    assert 0 <= start by {
      assert page - 1 >= 0;
    }
    if page <= t {
      assert (page - 1) * pageSize <= (t - 1) * pageSize by {
        assert (t - 1) * pageSize - (page - 1) * pageSize == (t - page) * pageSize;
        assert (t - page) * pageSize >= 0;
      }
    }
  }

  /** Pages 1 to `count`, one after the other. */
  function PagesUpTo<T>(s: seq<T>, pageSize: nat, count: nat): seq<T>
    decreases count
  {
    if count == 0 then [] else PagesUpTo(s, pageSize, count - 1) + PageOf(s, count, pageSize)
  }

  /**
   * `startIndex` is the number of items the earlier pages show: page `page`
   * begins right after pages 1 to `page - 1`, clamped to the list.
   */
  lemma StartIndexAfterEarlierPages<T>(s: seq<T>, page: int, pageSize: nat)
    requires page >= 1 && pageSize > 0
    ensures |PagesUpTo(s, pageSize, page - 1)| == Min(StartIndex(page, pageSize), |s|)
  {
    PagesUpToIsPrefix(s, pageSize, page - 1);
  }

  /** Multiplying by a non-negative page size keeps the order of page numbers. */
  lemma MulMonotonic(a: int, b: int, k: nat)
    requires a <= b
    ensures a * k <= b * k
  {
    assert b * k - a * k == (b - a) * k;
  }

  /** The arithmetic of one more page: page `count` ends one page size after page `count - 1`. */
  lemma PageEnd(count: nat, pageSize: nat)
    requires count > 0
    ensures 0 <= (count - 1) * pageSize
    ensures (count - 1) * pageSize + pageSize == count * pageSize
  {
    MulMonotonic(0, count - 1, pageSize);
  }

  lemma {:induction false} PagesUpToIsPrefix<T>(s: seq<T>, pageSize: nat, count: nat)
    requires pageSize > 0
    ensures 0 <= Min(count * pageSize, |s|) <= |s|
    ensures PagesUpTo(s, pageSize, count) == s[..Min(count * pageSize, |s|)]
    decreases count
  {
    MulMonotonic(0, count, pageSize);
    if count == 0 {
      assert PagesUpTo(s, pageSize, count) == [] == s[..0];
    } else {
      PagesUpToIsPrefix(s, pageSize, count - 1);
      PageEnd(count, pageSize);
      var lo, hi := (count - 1) * pageSize, count * pageSize;
      var a, b := Min(lo, |s|), Min(hi, |s|);
      assert StartIndex(count, pageSize) == lo;
      assert PageOf(s, count, pageSize) == JsSlice(s, lo, hi) == s[a..b];
      assert PagesUpTo(s, pageSize, count) == s[..a] + s[a..b];
      assert s[..a] + s[a..b] == s[..b];
    }
  }

  /**
   * Reading pages 1 to the page count in turn gives back exactly the filtered
   * list: no item is lost, repeated or moved.
   */
  lemma PagesReassemble<T>(s: seq<T>, pageSize: nat)
    requires pageSize > 0
    ensures PagesUpTo(s, pageSize, TotalPages(|s|, pageSize)) == s
  {
    var t := TotalPages(|s|, pageSize);
    PagesUpToIsPrefix(s, pageSize, t);
    assert Min(t * pageSize, |s|) == |s|;
  }

  // ---------------------------------------------------------------------------
  // Counters
  // ---------------------------------------------------------------------------

  /** The search box's `countText`: "1 match", otherwise "<n> matches". */
  function MatchCountText(n: nat): string {
    NatToString(n) + " match" + (if n == 1 then "" else "es")
  }

  /**
   * The count text starts with the decimal text of the count, and the word
   * after it is singular exactly when the count is 1.
   */
  lemma MatchCountTextMeaning(n: nat)
    ensures var r, d := MatchCountText(n), NatToString(n);
      && StartsWith(r, d) && DigitsValue(d) == n
      && (r[|d|..] == " match" <==> n == 1)
      && (r[|d|..] == " matches" <==> n != 1)
  {
    var r, d := MatchCountText(n), NatToString(n);
    NatToStringRoundTrip(n);
    assert r[..|d|] == d;
    assert r[|d|..] == " match" + (if n == 1 then "" else "es");
  }

  /** The seeded list fills two pages at the initial page size. */
  lemma SeededListHasTwoPages()
    ensures |AllItems| == 25
    ensures TotalPages(|AllItems|, DefaultPageSize) == 2
  {
  }

  // ---------------------------------------------------------------------------
  // Screen state
  // ---------------------------------------------------------------------------

  class CollectionListView {
    /** The table data the screen lists. */
    const allItems: seq<Item>
    var filteringText: string
    var currentPageIndex: int
    var selectedItems: seq<Item>
    var pageSize: nat

    ghost predicate Valid()
      reads this
    {
      pageSize in PageSizeOptions
    }

    /** The state the screen mounts with. */
    constructor ()
      ensures Valid()
      ensures filteringText == [] && currentPageIndex == 1
      ensures selectedItems == [] && pageSize == DefaultPageSize
      ensures allItems == AllItems
    {
      allItems := AllItems;
      filteringText := [];
      currentPageIndex := 1;
      selectedItems := [];
      pageSize := DefaultPageSize;
    }

    function FilteredItems(): seq<Item>
      reads this
    {
      FilterItems(allItems, filteringText)
    }

    function PagesCount(): nat
      reads this
      requires Valid()
    {
      TotalPages(|FilteredItems()|, pageSize)
    }

    function PaginatedItems(): seq<Item>
      reads this
    {
      PageOf(FilteredItems(), currentPageIndex, pageSize)
    }

    /** The search box's count text and the header counter both count the filtered items. */
    function CountText(): string
      reads this
    {
      MatchCountText(|FilteredItems()|)
    }

    function HeaderCounter(): string
      reads this
    {
      ParenthesizedCount(|FilteredItems()|)
    }

    /** The Delete button's `disabled` flag: set exactly while nothing is selected. */
    function DeleteDisabled(): (disabled: bool)
      reads this
      ensures disabled <==> selectedItems == []
    {
      |selectedItems| == 0
    }

    /**
     * The search box's change handler followed by the effect that depends on
     * `filteringText`: the effect runs, and puts the pager back on page 1,
     * only when the text is different from before.
     */
    method ChangeFilteringText(text: string)
      requires Valid()
      modifies this
      ensures Valid()
      ensures filteringText == text
      ensures currentPageIndex == if text != old(filteringText) then 1 else old(currentPageIndex)
      ensures selectedItems == old(selectedItems) && pageSize == old(pageSize)
      ensures FilteredItems() == FilterItems(allItems, text)
    {
      if text != filteringText {
        currentPageIndex := 1;
      }
      filteringText := text;
    }

    /** The pager's change handler. */
    method ChangePage(page: int)
      requires Valid()
      modifies this
      ensures Valid()
      ensures currentPageIndex == page
      ensures filteringText == old(filteringText) && selectedItems == old(selectedItems)
      ensures pageSize == old(pageSize)
    {
      currentPageIndex := page;
    }

    /** The table's selection handler; Delete is enabled exactly when something is selected. */
    method ChangeSelection(items: seq<Item>)
      requires Valid()
      modifies this
      ensures Valid()
      ensures selectedItems == items
      ensures DeleteDisabled() <==> items == []
      ensures filteringText == old(filteringText) && currentPageIndex == old(currentPageIndex)
      ensures pageSize == old(pageSize)
    {
      selectedItems := items;
    }

    /**
     * The preferences dialog's confirm handler. The current page is kept, so a
     * page past the new page count shows no items.
     */
    method ConfirmPageSize(size: nat)
      requires Valid() && size in PageSizeOptions
      modifies this
      ensures Valid()
      ensures pageSize == size
      ensures filteringText == old(filteringText) && currentPageIndex == old(currentPageIndex)
      ensures selectedItems == old(selectedItems)
      ensures currentPageIndex > PagesCount() ==> PaginatedItems() == []
    {
      pageSize := size;
      if currentPageIndex > PagesCount() {
        PageIsSlice(FilteredItems(), currentPageIndex, pageSize);
        assert StartIndex(currentPageIndex, pageSize) >= |FilteredItems()| by {
          StaleStartPastEnd(|FilteredItems()|, currentPageIndex, pageSize);
        }
      }
    }
  }

  /** A page number past the page count starts at or after the end of the list. */
  lemma StaleStartPastEnd(n: nat, page: int, pageSize: nat)
    requires pageSize > 0 && page > TotalPages(n, pageSize)
    ensures StartIndex(page, pageSize) >= n
  {
    var t := TotalPages(n, pageSize);
    MulMonotonic(t, page - 1, pageSize);
  }

  /**
   * The header counter and the search box's count text agree: the counter's
   * digits are the filtered count, and the count text begins with them.
   */
  lemma CountersAgree(view: CollectionListView)
    ensures var h, c := view.HeaderCounter(), view.CountText();
      && |h| >= 3 && AllDigits(h[1..|h| - 1])
      && DigitsValue(h[1..|h| - 1]) == |view.FilteredItems()|
      && StartsWith(c, h[1..|h| - 1])
  {
    var n := |view.FilteredItems()|;
    var h := view.HeaderCounter();
    ParenthesizedCountMeaning(n);
    MatchCountTextMeaning(n);
    assert h[1..|h| - 1] == NatToString(n);
  }
}
