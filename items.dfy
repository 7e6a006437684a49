/** The item browser of one dataset: a type filter, a labeled/unlabeled filter and a search,
    then a sort of a copy of the result by timestamp, size or label count, ascending or
    descending. */
module ItemExplorer {
  import opened Lists
  import opened Text
  import opened Sorting

  /** A dataset item. `timestamp` is the parsed date's time value; `labels` and `classes` are
      optional in the item metadata. */
  datatype Item = Item(id: string, kind: string, timestamp: int, source: string, size: string,
                       labels: Option<int>, classes: Option<seq<string>>)

  datatype SortDirection = Asc | Desc

  /** The type menu: "all", "image", "point-cloud" or "time-series". */
  predicate PassesType(item: Item, filterType: string)
  {
    filterType == "all" || item.kind == filterType
  }

  /** A label count is truthy when present and non-zero. */
  predicate HasLabelCount(item: Item)
  {
    item.labels.Some? && item.labels.value != 0
  }

  /** "labeled" rejects items whose count is absent or zero; "unlabeled" rejects items whose
      count is present and positive; any other choice rejects nothing. */
  predicate PassesLabeled(item: Item, filterLabeled: string)
  {
    !(filterLabeled == "labeled" && !HasLabelCount(item)) &&
    !(filterLabeled == "unlabeled" && HasLabelCount(item) && item.labels.value > 0)
  }

  /** A non-empty search looks, ignoring case, in the id, the source and the classes. */
  predicate PassesSearch(item: Item, query: string)
  {
    query == "" ||
    Contains(ToLower(item.id), ToLower(query)) ||
    Contains(ToLower(item.source), ToLower(query)) ||
    (item.classes.Some? && exists c | c in item.classes.value :: Contains(ToLower(c), ToLower(query)))
  }

  predicate Passes(item: Item, filterType: string, filterLabeled: string, query: string)
  {
    PassesType(item, filterType) && PassesLabeled(item, filterLabeled) && PassesSearch(item, query)
  }

  /** `filteredItems`: the items that pass all three filters, in their original order. */
  function FilteredItems(items: seq<Item>, filterType: string, filterLabeled: string, query: string): (r: seq<Item>)
    ensures forall x :: x in r <==> x in items && Passes(x, filterType, filterLabeled, query)
    ensures forall x :: multiset(r)[x] == (if Passes(x, filterType, filterLabeled, query) then multiset(items)[x] else 0)
    ensures Subsequence(r, items)
  {
    Filter(items, (x: Item) => Passes(x, filterType, filterLabeled, query))
  }

  /** With non-negative counts, "labeled" keeps exactly the items with a positive count and
      "unlabeled" exactly those without a count or with zero. */
  lemma LabeledMeansPositive(item: Item)
    requires item.labels.Some? ==> item.labels.value >= 0
    ensures PassesLabeled(item, "labeled") <==> item.labels.Some? && item.labels.value > 0
    ensures PassesLabeled(item, "unlabeled") <==> item.labels == None || item.labels == Some(0)
  {
  }

  /** With non-negative counts the labeled and the unlabeled list split the items between them. */
  lemma LabeledUnlabeledSplit(items: seq<Item>)
    requires forall i :: 0 <= i < |items| ==> (items[i].labels.Some? ==> items[i].labels.value >= 0)
    ensures forall x :: x in FilteredItems(items, "all", "labeled", "") ==> x !in FilteredItems(items, "all", "unlabeled", "")
    ensures forall x :: x in items ==> x in FilteredItems(items, "all", "labeled", "") || x in FilteredItems(items, "all", "unlabeled", "")
    ensures |FilteredItems(items, "all", "labeled", "")| + |FilteredItems(items, "all", "unlabeled", "")| == |items|
  {
    var p := (x: Item) => Passes(x, "all", "labeled", "");
    var q := (x: Item) => Passes(x, "all", "unlabeled", "");
    forall i | 0 <= i < |items| ensures p(items[i]) != q(items[i]) {
      LabeledMeansPositive(items[i]);
    }
    FilterPartition(items, p, q);
  }

  /** A negative count passes both the "labeled" and the "unlabeled" filter. */
  lemma NegativeCountPassesBoth(item: Item)
    requires item.labels.Some? && item.labels.value < 0
    ensures PassesLabeled(item, "labeled") && PassesLabeled(item, "unlabeled")
  {
  }

  /** The size key: the number formed by the digits of the size text, units and decimal point
      ignored (`parseInt(size.replace(/[^\d]/g, ""))`). A size without digits has no number;
      it ranks as 0 here. */
  function SizeKey(size: string): (n: nat)
    ensures DigitsOf(size) == [] ==> n == 0
    ensures DigitsOf(size) != [] ==> n == DecimalValue(DigitsOf(size))
  {
    var d := DigitsOf(size);
    if d == [] then 0 else DecimalValue(d)
  }

  /** A size of the form "<whole>.<fraction><unit>" is keyed by its digits run together, as if
      there were no decimal point. */
  lemma SizeKeyJoinsDigits(whole: string, fraction: string, unit: string)
    requires whole != [] && AllDigits(whole) && AllDigits(fraction)
    requires forall c | c in unit :: !IsDigit(c)
    ensures AllDigits(whole + fraction)
    ensures SizeKey(whole + "." + fraction + unit) == DecimalValue(whole + fraction)
  {
    var rest := fraction + unit;
    var dotted := "." + rest;
    var size := whole + dotted;
    assert whole + "." + fraction + unit == size;
    DigitsOfAppend(whole, dotted);
    DigitsOfAppend(".", rest);
    DigitsOfAppend(fraction, unit);
    DigitsOfAll(whole);
    DigitsOfAll(fraction);
    DigitsOfNone(unit);
    assert DigitsOf(".") == "";
    assert DigitsOf(rest) == fraction;
    assert DigitsOf(dotted) == fraction;
    assert DigitsOf(size) == whole + fraction;
  }

  lemma {:induction false} DigitsOfAppend(a: string, b: string)
    ensures DigitsOf(a + b) == DigitsOf(a) + DigitsOf(b)
  {
    if a == [] {
      assert a + b == b;
    } else {
      var ab := a + b;
      assert ab[0] == a[0] && ab[1..] == a[1..] + b;
      DigitsOfAppend(a[1..], b);
      var head: string := if IsDigit(a[0]) then [a[0]] else [];
      assert DigitsOf(ab) == head + DigitsOf(a[1..] + b);
      assert DigitsOf(a) == head + DigitsOf(a[1..]);
      assert head + (DigitsOf(a[1..]) + DigitsOf(b)) == (head + DigitsOf(a[1..])) + DigitsOf(b);
    }
  }

  lemma {:induction false} DigitsOfAll(s: string)
    requires AllDigits(s)
    ensures DigitsOf(s) == s
  {
    if s != [] {
      DigitsOfAll(s[1..]);
    }
  }

  lemma {:induction false} DigitsOfNone(s: string)
    requires forall c | c in s :: !IsDigit(c)
    ensures DigitsOf(s) == ""
  {
    if s != [] {
      DigitsOfNone(s[1..]);
    }
  }

  /** "1.2 GB" gives the key 12. */
  lemma SizeKeyOfOnePointTwoGigabytes()
    ensures SizeKey("1.2 GB") == 12
  {
    SizeKeyJoinsDigits("1", "2", " GB");
    assert "1" + "." + "2" + " GB" == "1.2 GB";
    assert "1" + "2" == "12";
    assert DecimalValue("12") == DecimalValue("1") * 10 + 2;
  }

  /** The comparator's key under each `sortBy`: the timestamp, the size key, the label count
      (absent counts as 0), and the id for any other choice. */
  function ItemKey(sortBy: string, item: Item): Key
  {
    if sortBy == "timestamp" then Num(item.timestamp as real)
    else if sortBy == "size" then Num(SizeKey(item.size) as real)
    else if sortBy == "labels" then Num((if item.labels.Some? then item.labels.value else 0) as real)
    else Text(item.id)
  }

  /** `sortedItems`: a sorted copy of the filtered items. It holds the same items, each as often,
      and items with different keys come out ascending for `Asc` and descending for `Desc`. */
  function SortedItems(items: seq<Item>, filterType: string, filterLabeled: string, query: string,
                       sortBy: string, direction: SortDirection): (r: seq<Item>)
    ensures multiset(r) == multiset(FilteredItems(items, filterType, filterLabeled, query))
    ensures forall i, j :: 0 <= i < j < |r| && ItemKey(sortBy, r[i]) != ItemKey(sortBy, r[j]) ==>
              InOrder(ItemKey(sortBy, r[i]), ItemKey(sortBy, r[j]), direction == Desc) &&
              !InOrder(ItemKey(sortBy, r[j]), ItemKey(sortBy, r[i]), direction == Desc)
  {
    var filtered := FilteredItems(items, filterType, filterLabeled, query);
    var key := (x: Item) => ItemKey(sortBy, x);
    var r := SortByKey(filtered, key, direction == Desc);
    forall i, j | 0 <= i < j < |r| && key(r[i]) != key(r[j])
      ensures InOrder(key(r[i]), key(r[j]), direction == Desc) && !InOrder(key(r[j]), key(r[i]), direction == Desc)
    {
      DistinctKeysStrictlyOrdered(r, key, direction == Desc, i, j);
    }
    r
  }

  /** Sorting by timestamp: newest first for `Desc`, oldest first for `Asc`. */
  lemma TimestampOrder(r: seq<Item>, items: seq<Item>, t: string, l: string, q: string, direction: SortDirection, i: int, j: int)
    requires r == SortedItems(items, t, l, q, "timestamp", direction)
    requires 0 <= i < j < |r| && r[i].timestamp != r[j].timestamp
    ensures direction == Asc ==> r[i].timestamp < r[j].timestamp
    ensures direction == Desc ==> r[i].timestamp > r[j].timestamp
  {
    assert ItemKey("timestamp", r[i]) != ItemKey("timestamp", r[j]);
  }

  /** The sort-order button. */
  function ToggleDirection(d: SortDirection): (r: SortDirection)
    ensures r != d
  {
    if d == Asc then Desc else Asc
  }

  lemma ToggleDirectionTwice(d: SortDirection)
    ensures ToggleDirection(ToggleDirection(d)) == d
  {
  }

  /** Reversing the direction reverses the relative order of any two items with different
      keys. */
  lemma ToggleReversesOrder(a: Item, b: Item, sortBy: string, d: SortDirection)
    requires ItemKey(sortBy, a) != ItemKey(sortBy, b)
    requires InOrder(ItemKey(sortBy, a), ItemKey(sortBy, b), d == Desc)
    ensures InOrder(ItemKey(sortBy, b), ItemKey(sortBy, a), ToggleDirection(d) == Desc)
  {
  }

  /** The explorer's own state. The dataset's items are an input it never writes. */
  class Explorer {
    const items: seq<Item>
    var filterType: string
    var filterLabeled: string
    var searchQuery: string
    var sortBy: string
    var sortOrder: SortDirection
    var selectedItem: Option<string>

    constructor (datasetItems: seq<Item>)
      ensures items == datasetItems
      ensures filterType == "all" && filterLabeled == "all" && searchQuery == ""
      ensures sortBy == "timestamp" && sortOrder == Desc && selectedItem == None
    {
      items := datasetItems;
      filterType := "all";
      filterLabeled := "all";
      searchQuery := "";
      sortBy := "timestamp";
      sortOrder := Desc;
      selectedItem := None;
    }

    /** The items on screen. */
    function Shown(): seq<Item>
      reads this
    {
      SortedItems(items, filterType, filterLabeled, searchQuery, sortBy, sortOrder)
    }

    method SetFilters(t: string, l: string, q: string)
      modifies this`filterType, this`filterLabeled, this`searchQuery
      ensures filterType == t && filterLabeled == l && searchQuery == q
    {
      filterType, filterLabeled, searchQuery := t, l, q;
    }

    method SetSortBy(s: string)
      modifies this`sortBy
      ensures sortBy == s
    {
      sortBy := s;
    }

    method ToggleSortOrder()
      modifies this`sortOrder
      ensures sortOrder == ToggleDirection(old(sortOrder))
    {
      sortOrder := ToggleDirection(sortOrder);
    }

    /** `handleItemClick` selects the item (and reports it to the parent). */
    method ClickItem(id: string)
      modifies this`selectedItem
      ensures selectedItem == Some(id)
    {
      selectedItem := Some(id);
    }
  }
}
