/** The filter sidebar: the filter-criteria record it edits and reports to
    the page, the applied-filter chips, the brand search and the collapsible
    sections. */
module Filters {
  import opened Wrappers
  import opened Seqs
  import opened Text

  /** The six string lists of the criteria, in the order the chips show them. */
  datatype ListKind = Categories | Brands | Ratings | SellerType | Condition | Shipping
  {
    function Rank(): nat
    {
      match this
      case Categories => 0
      case Brands => 1
      case Ratings => 2
      case SellerType => 3
      case Condition => 4
      case Shipping => 5
    }
  }

  /** `keyof FilterState`, as `removeFilter` receives it. */
  datatype FilterKey = ListKey(kind: ListKind) | PriceRangeKey | FeaturesKey

  datatype PriceRange = PriceRange(lo: int, hi: int)

  const DefaultPriceRange: PriceRange := PriceRange(0, 1000)

  datatype FilterState = FilterState(categories: seq<string>, priceRange: PriceRange, brands: seq<string>,
                                     ratings: seq<string>, sellerType: seq<string>, condition: seq<string>,
                                     shipping: seq<string>, features: map<string, seq<string>>)
  {
    function List(k: ListKind): seq<string>
    {
      match k
      case Categories => categories
      case Brands => brands
      case Ratings => ratings
      case SellerType => sellerType
      case Condition => condition
      case Shipping => shipping
    }

    /** `{ ...filters, [k]: l }`. */
    function WithList(k: ListKind, l: seq<string>): (r: FilterState)
      ensures r.List(k) == l
      ensures forall j :: j != k ==> r.List(j) == List(j)
      ensures r.priceRange == priceRange && r.features == features
    {
      match k
      case Categories => this.(categories := l)
      case Brands => this.(brands := l)
      case Ratings => this.(ratings := l)
      case SellerType => this.(sellerType := l)
      case Condition => this.(condition := l)
      case Shipping => this.(shipping := l)
    }
  }

  /** Two criteria with the same lists, range and features are equal. */
  lemma FilterStateExtensional(f: FilterState, g: FilterState)
    requires forall k :: f.List(k) == g.List(k)
    requires f.priceRange == g.priceRange && f.features == g.features
    ensures f == g
  {
    assert f.List(Categories) == g.List(Categories) && f.List(Brands) == g.List(Brands);
    assert f.List(Ratings) == g.List(Ratings) && f.List(SellerType) == g.List(SellerType);
    assert f.List(Condition) == g.List(Condition) && f.List(Shipping) == g.List(Shipping);
  }

  /** The initial state and the result of "Clear all". */
  const DefaultFilters: FilterState := FilterState([], DefaultPriceRange, [], [], [], [], [], map[])

  /** The criteria after `handle*Change(value, checked)` on list `k`: the
      value appended when checked, every occurrence removed otherwise. */
  function ListChange(f: FilterState, k: ListKind, value: string, checked: bool): FilterState
  {
    f.WithList(k, if checked then f.List(k) + [value] else RemoveAll(f.List(k), value))
  }

  /** Checking a box that was not checked and unchecking it again restores
      the criteria. */
  lemma CheckThenUncheck(f: FilterState, k: ListKind, value: string)
    requires value !in f.List(k)
    ensures ListChange(ListChange(f, k, value, true), k, value, false) == f
  {
    AppendThenRemove(f.List(k), value);
    FilterStateExtensional(ListChange(ListChange(f, k, value, true), k, value, false), f);
  }

  /** Checking appends the value at the end of that one list; unchecking
      leaves no occurrence of it, keeps every other value of that list in
      order; neither touches any other part of the criteria. */
  lemma ListChangeSpec(f: FilterState, k: ListKind, value: string, checked: bool)
    ensures var g := ListChange(f, k, value, checked);
            && (forall j :: j != k ==> g.List(j) == f.List(j))
            && g.priceRange == f.priceRange && g.features == f.features
    ensures checked ==> ListChange(f, k, value, checked).List(k) == f.List(k) + [value]
    ensures !checked ==>
              var l := ListChange(f, k, value, checked).List(k);
              && value !in l
              && IsSubsequence(l, f.List(k))
              && (forall x :: x != value ==> (x in l <==> x in f.List(k)))
  {
    RemoveAllFacts(f.List(k), value);
  }

  /** The lists in the order the sidebar counts them and shows their chips. */
  const Kinds: seq<ListKind> := [Categories, Brands, Ratings, SellerType, Condition, Shipping]

  lemma KindsRanked()
    ensures forall i, j :: 0 <= i < j < |Kinds| ==> Kinds[i].Rank() < Kinds[j].Rank()
  {
    forall i, j | 0 <= i < j < |Kinds| ensures Kinds[i].Rank() < Kinds[j].Rank() {
      assert Kinds[i].Rank() == i && Kinds[j].Rank() == j;
    }
  }

  /** The summed lengths of the lists named by `ks`. */
  function ListCount(f: FilterState, ks: seq<ListKind>): nat
  {
    if ks == [] then 0 else |f.List(ks[0])| + ListCount(f, ks[1..])
  }

  /** `getActiveFiltersCount`: the length of every list, plus one when the
      price range is not the default. */
  function ActiveCount(f: FilterState): nat
  {
    ListCount(f, Kinds) + (if f.priceRange != DefaultPriceRange then 1 else 0)
  }

  /** Shorter lists give a smaller count; strictly so when a shortened list
      is among those counted. */
  lemma {:induction false} ListCountMonotone(f: FilterState, g: FilterState, k: ListKind, ks: seq<ListKind>)
    requires forall j :: |g.List(j)| <= |f.List(j)|
    requires |g.List(k)| < |f.List(k)|
    ensures ListCount(g, ks) <= ListCount(f, ks)
    ensures k in ks ==> ListCount(g, ks) < ListCount(f, ks)
  {
    if ks != [] {
      ListCountMonotone(f, g, k, ks[1..]);
      assert k in ks && k != ks[0] ==> k in ks[1..];
    }
  }

  lemma {:induction false} ListCountSame(f: FilterState, g: FilterState, ks: seq<ListKind>)
    requires forall j :: g.List(j) == f.List(j)
    ensures ListCount(g, ks) == ListCount(f, ks)
  {
    if ks != [] {
      ListCountSame(f, g, ks[1..]);
    }
  }

  /** An applied-filter chip: what removing it passes to `removeFilter`,
      and its label. */
  datatype Chip = Chip(key: FilterKey, caption: string, value: string)

  function ChipLabel(k: ListKind, value: string): string
  {
    if k == Ratings then value + " Stars" else value
  }

  /** One chip per entry of a list, in the list's order. */
  function ListChips(k: ListKind, l: seq<string>): (r: seq<Chip>)
    ensures |r| == |l|
    ensures forall i :: 0 <= i < |r| ==> r[i] == Chip(ListKey(k), ChipLabel(k, l[i]), l[i])
  {
    if l == [] then [] else [Chip(ListKey(k), ChipLabel(k, l[0]), l[0])] + ListChips(k, l[1..])
  }

  /** The chips of the lists named by `ks`, list after list. */
  function ChipsOf(f: FilterState, ks: seq<ListKind>): seq<Chip>
  {
    if ks == [] then [] else ListChips(ks[0], f.List(ks[0])) + ChipsOf(f, ks[1..])
  }

  function PriceChips(r: PriceRange): seq<Chip>
  {
    if r != DefaultPriceRange
    then [Chip(PriceRangeKey, "$" + IntToString(r.lo) + " - $" + IntToString(r.hi), "price")]
    else []
  }

  /** `activeFilters`: the chips shown above the sections. */
  function ActiveFilters(f: FilterState): seq<Chip>
  {
    ChipsOf(f, Kinds) + PriceChips(f.priceRange)
  }

  /** Where a chip stands in the order of the chip list. */
  function ChipRank(c: Chip): nat
  {
    match c.key
    case ListKey(k) => k.Rank()
    case PriceRangeKey => 6
    case FeaturesKey => 7
  }

  predicate RankedBy(chips: seq<Chip>, lo: nat, hi: nat)
  {
    forall i :: 0 <= i < |chips| ==> lo <= ChipRank(chips[i]) <= hi
  }

  predicate SortedByRank(chips: seq<Chip>)
  {
    forall i, j :: 0 <= i < j < |chips| ==> ChipRank(chips[i]) <= ChipRank(chips[j])
  }

  lemma SortedAppend(a: seq<Chip>, b: seq<Chip>, m: nat)
    requires RankedBy(a, 0, m) && RankedBy(b, m, 7)
    requires SortedByRank(a) && SortedByRank(b)
    ensures SortedByRank(a + b)
  {
    forall i, j | 0 <= i < j < |a + b| ensures ChipRank((a + b)[i]) <= ChipRank((a + b)[j]) {
      if j < |a| {
        assert (a + b)[i] == a[i] && (a + b)[j] == a[j];
      } else if i < |a| {
        assert (a + b)[i] == a[i] && (a + b)[j] == b[j - |a|];
      } else {
        assert (a + b)[i] == b[i - |a|] && (a + b)[j] == b[j - |a|];
      }
    }
  }

  /** Every list chip belongs to one of the lists named, and names a value
      of that list; there are as many as the lists have entries. */
  lemma {:induction false} ChipsOfFacts(f: FilterState, ks: seq<ListKind>)
    ensures |ChipsOf(f, ks)| == ListCount(f, ks)
    ensures forall i :: 0 <= i < |ChipsOf(f, ks)| ==>
              var c := ChipsOf(f, ks)[i];
              c.key.ListKey? && c.key.kind in ks && c.value in f.List(c.key.kind)
  {
    if ks != [] {
      ChipsOfFacts(f, ks[1..]);
      var l := f.List(ks[0]);
      var a := ListChips(ks[0], l);
      var b := ChipsOf(f, ks[1..]);
      assert ChipsOf(f, ks) == a + b;
      forall i | 0 <= i < |a + b|
        ensures var c: Chip := (a + b)[i]; c.key.ListKey? && c.key.kind in ks && c.value in f.List(c.key.kind)
      {
        if i < |a| {
          assert (a + b)[i] == a[i] && a[i].value == l[i];
        } else {
          var c := b[i - |a|];
          assert (a + b)[i] == c;
          assert c.key.kind in ks[1..];
        }
      }
    }
  }

  /** Lists named in increasing rank give chips in increasing rank. */
  lemma {:induction false} ChipsOfSorted(f: FilterState, ks: seq<ListKind>)
    requires forall i, j :: 0 <= i < j < |ks| ==> ks[i].Rank() < ks[j].Rank()
    ensures SortedByRank(ChipsOf(f, ks))
  {
    if ks != [] {
      ChipsOfSorted(f, ks[1..]);
      ChipsOfFacts(f, ks[1..]);
      var m := ks[0].Rank();
      var a := ListChips(ks[0], f.List(ks[0]));
      var b := ChipsOf(f, ks[1..]);
      assert RankedBy(a, 0, m);
      forall i | 0 <= i < |b| ensures m <= ChipRank(b[i]) <= 7 {
        var k := b[i].key.kind;
        var j :| 0 <= j < |ks[1..]| && ks[1..][j] == k;
        assert ks[j + 1] == k;
      }
      SortedAppend(a, b, m);
    }
  }

  /** There is one chip per active filter, the chips come in the order
      categories, brands, ratings, seller type, condition, shipping, price,
      and each list chip names a value of its list. */
  lemma ActiveFiltersShape(f: FilterState)
    ensures |ActiveFilters(f)| == ActiveCount(f)
    ensures SortedByRank(ActiveFilters(f))
    ensures forall c :: c in ActiveFilters(f) && c.key.ListKey? ==> c.value in f.List(c.key.kind)
    ensures forall c :: c in ActiveFilters(f) ==> c.key != FeaturesKey
    ensures forall c :: c in ActiveFilters(f) && c.key == PriceRangeKey ==> f.priceRange != DefaultPriceRange
  {
    var a := ChipsOf(f, Kinds);
    var b := PriceChips(f.priceRange);
    ChipsOfFacts(f, Kinds);
    KindsRanked();
    ChipsOfSorted(f, Kinds);
    assert RankedBy(a, 0, 6);
    SortedAppend(a, b, 6);
    forall c | c in a + b ensures c in a || c in b {
    }
  }

  /** The criteria after `removeFilter(key, value)`; `None` when the switch
      has no case for the key and nothing is reported. */
  function AfterRemove(f: FilterState, key: FilterKey, value: string): Option<FilterState>
  {
    match key
    case ListKey(k) => Some(ListChange(f, k, value, false))
    case PriceRangeKey => Some(f.(priceRange := DefaultPriceRange))
    case FeaturesKey => None
  }

  /** Removing a list entry unchecks it in that list, removing the price
      chip resets only the range, and a `features` key changes nothing. */
  lemma RemoveFilterSpec(f: FilterState, key: FilterKey, value: string)
    ensures key.ListKey? ==>
              && AfterRemove(f, key, value).Some?
              && var g := AfterRemove(f, key, value).value;
                 && value !in g.List(key.kind)
                 && (forall x :: x != value ==> (x in g.List(key.kind) <==> x in f.List(key.kind)))
                 && (forall j :: j != key.kind ==> g.List(j) == f.List(j))
                 && g.priceRange == f.priceRange && g.features == f.features
    ensures key == PriceRangeKey ==>
              && AfterRemove(f, key, value).Some?
              && var g := AfterRemove(f, key, value).value;
                 && g.priceRange == DefaultPriceRange
                 && (forall j :: g.List(j) == f.List(j)) && g.features == f.features
    ensures key == FeaturesKey ==> AfterRemove(f, key, value) == None
  {
    if key.ListKey? {
      ListChangeSpec(f, key.kind, value, false);
    }
  }

  /** Removing any chip that is shown lowers the active-filter count; the
      price chip resets the range and leaves every list alone. */
  lemma RemoveChipLowersCount(f: FilterState, c: Chip)
    requires c in ActiveFilters(f)
    ensures AfterRemove(f, c.key, c.value).Some?
    ensures ActiveCount(AfterRemove(f, c.key, c.value).value) < ActiveCount(f)
    ensures c.key == PriceRangeKey ==>
              var g := AfterRemove(f, c.key, c.value).value;
              g.priceRange == DefaultPriceRange && forall k :: g.List(k) == f.List(k)
  {
    ActiveFiltersShape(f);
    if c.key.ListKey? {
      UncheckLowersCount(f, c.key.kind, c.value);
    } else {
      var g := f.(priceRange := DefaultPriceRange);
      assert forall k :: g.List(k) == f.List(k);
      ListCountSame(f, g, Kinds);
    }
  }

  lemma UncheckLowersCount(f: FilterState, k: ListKind, value: string)
    requires value in f.List(k)
    ensures ActiveCount(ListChange(f, k, value, false)) < ActiveCount(f)
  {
    var g := ListChange(f, k, value, false);
    RemoveAllShortens(f.List(k), value);
    assert k in Kinds by {
      match k
      case Categories => assert Kinds[0] == k;
      case Brands => assert Kinds[1] == k;
      case Ratings => assert Kinds[2] == k;
      case SellerType => assert Kinds[3] == k;
      case Condition => assert Kinds[4] == k;
      case Shipping => assert Kinds[5] == k;
    }
    ListCountMonotone(f, g, k, Kinds);
  }

  /** "Clear all" leaves no active filter. */
  lemma ClearedHasNoActiveFilter()
    ensures ActiveCount(DefaultFilters) == 0 && ActiveFilters(DefaultFilters) == []
  {
  }

  // ---- price inputs ----

  /** The minimum field: `parseInt(text) || 0`. */
  function MinInputValue(text: string): int
  {
    match ParseInt(text)
    case Some(n) => n
    case None => 0
  }

  /** The maximum field: `parseInt(text) || 1000`; a parsed 0 is falsy too. */
  function MaxInputValue(text: string): (r: int)
    ensures r != 0
  {
    match ParseInt(text)
    case Some(n) => if n != 0 then n else 1000
    case None => 1000
  }

  /** Unparsable text gives the default bound, a maximum of 0 becomes 1000,
      and a bound shown in its field reads back as itself. */
  lemma PriceInputs(text: string, n: int)
    ensures ParseInt(text) == None ==> MinInputValue(text) == 0 && MaxInputValue(text) == 1000
    ensures ParseInt(text) == Some(0) ==> MinInputValue(text) == 0 && MaxInputValue(text) == 1000
    ensures MinInputValue(IntToString(n)) == n
    ensures n != 0 ==> MaxInputValue(IntToString(n)) == n
  {
    ParseIntOfIntToString(n);
  }

  // ---- the sidebar's check-box options ----

  /** The values of the rating check boxes, best first. */
  const RatingOptions: seq<string> := ["4+", "3+", "2+", "1+"]

  /** The values of the shipping check boxes; "prime-eligible" is a
      shipping option, not a rating. */
  const ShippingOptions: seq<string> := ["free", "same-day", "prime-eligible"]

  // ---- brand search ----

  datatype Brand = Brand(name: string, count: int, popular: bool)

  const SidebarBrands: seq<Brand> := [
    Brand("Apple", 892, true), Brand("Samsung", 743, true), Brand("Nike", 654, true),
    Brand("Sony", 521, true), Brand("Adidas", 432, false), Brand("Microsoft", 387, false),
    Brand("Canon", 298, false), Brand("Dell", 276, false), Brand("HP", 234, false),
    Brand("LG", 198, false)
  ]

  predicate BrandMatches(search: string, b: Brand)
  {
    Contains(ToLower(b.name), ToLower(search))
  }

  /** `filteredBrands`: all brands for an empty search, otherwise those
      whose lower-cased name contains the lower-cased search. */
  function FilteredBrands(brands: seq<Brand>, search: string): seq<Brand>
  {
    if search != "" then Filter(brands, b => BrandMatches(search, b)) else brands
  }

  /** The emptiness test is redundant: every name contains the empty
      string, so the result is always the order-preserving filter by the
      match, and it keeps exactly the matching brands. */
  lemma FilteredBrandsSpec(brands: seq<Brand>, search: string)
    ensures FilteredBrands(brands, search) == Filter(brands, b => BrandMatches(search, b))
    ensures IsSubsequence(FilteredBrands(brands, search), brands)
    ensures search == "" ==> FilteredBrands(brands, search) == brands
    ensures forall i :: 0 <= i < |brands| ==>
              (brands[i] in FilteredBrands(brands, search) <==> BrandMatches(search, brands[i]))
  {
    if search == "" {
      forall i | 0 <= i < |brands| ensures BrandMatches(search, brands[i]) {
        ContainsEmpty(ToLower(brands[i].name));
      }
      FilterKeepsAll(brands, b => BrandMatches(search, b));
    }
    FilterIsSubsequence(brands, b => BrandMatches(search, b));
  }

  function PopularBrands(filtered: seq<Brand>): seq<Brand>
  {
    Filter(filtered, (b: Brand) => b.popular)
  }

  function OtherBrands(filtered: seq<Brand>): seq<Brand>
  {
    Filter(filtered, (b: Brand) => !b.popular)
  }

  /** The popular and other groups split the filtered brands: no brand is in
      both, every brand is in one, and their sizes add up. */
  lemma BrandGroupsPartition(filtered: seq<Brand>)
    ensures |PopularBrands(filtered)| + |OtherBrands(filtered)| == |filtered|
    ensures forall b :: b in PopularBrands(filtered) ==> b !in OtherBrands(filtered)
    ensures forall i :: 0 <= i < |filtered| ==>
              filtered[i] in PopularBrands(filtered) || filtered[i] in OtherBrands(filtered)
  {
    FilterPartition(filtered, (b: Brand) => b.popular, (b: Brand) => !b.popular);
  }

  // ---- collapsible sections ----

  /** A missing key reads as `undefined`, which is falsy. */
  function Lookup(m: map<string, bool>, k: string): bool
  {
    k in m && m[k]
  }

  /** `{ ...prev, [k]: !prev[k] }`. */
  function Toggle(m: map<string, bool>, k: string): map<string, bool>
  {
    m[k := !Lookup(m, k)]
  }

  /** A toggle flips only its key; toggling twice restores what the key
      reads as, and restores the map itself when the key was present. */
  lemma ToggleProperties(m: map<string, bool>, k: string)
    ensures Lookup(Toggle(m, k), k) == !Lookup(m, k)
    ensures forall j :: j != k ==> Lookup(Toggle(m, k), j) == Lookup(m, j)
    ensures Lookup(Toggle(Toggle(m, k), k), k) == Lookup(m, k)
    ensures k in m ==> Toggle(Toggle(m, k), k) == m
  {
  }

  const InitialSections: map<string, bool> := map[
    "categories" := true, "price" := true, "brands" := true, "ratings" := false,
    "seller" := false, "condition" := false, "shipping" := false
  ]

  class FilterSidebar {
    var filters: FilterState
    var expandedSections: map<string, bool>
    var expandedCategories: map<string, bool>
    var brandSearch: string

    constructor ()
      ensures filters == DefaultFilters && expandedSections == InitialSections
      ensures expandedCategories == map[] && brandSearch == ""
    {
      filters := DefaultFilters;
      expandedSections := InitialSections;
      expandedCategories := map[];
      brandSearch := "";
    }

    /** `updateFilters`: stores the merged criteria and returns what is
        reported through `onFiltersChange`. */
    method UpdateFilters(next: FilterState) returns (reported: FilterState)
      modifies this`filters
      ensures filters == next && reported == next
    {
      filters := next;
      reported := filters;
    }

    /** The six `handle*Change` handlers, one per list. */
    method HandleListChange(k: ListKind, value: string, checked: bool) returns (reported: FilterState)
      modifies this`filters
      ensures filters == ListChange(old(filters), k, value, checked) && reported == filters
    {
      reported := UpdateFilters(ListChange(filters, k, value, checked));
    }

    method HandlePriceRangeChange(lo: int, hi: int) returns (reported: FilterState)
      modifies this`filters
      ensures filters == old(filters).(priceRange := PriceRange(lo, hi)) && reported == filters
    {
      reported := UpdateFilters(filters.(priceRange := PriceRange(lo, hi)));
    }

    /** The minimum input field. */
    method HandleMinInput(text: string) returns (reported: FilterState)
      modifies this`filters
      ensures filters == old(filters).(priceRange := PriceRange(MinInputValue(text), old(filters).priceRange.hi))
      ensures reported == filters
    {
      reported := HandlePriceRangeChange(MinInputValue(text), filters.priceRange.hi);
    }

    /** The maximum input field. */
    method HandleMaxInput(text: string) returns (reported: FilterState)
      modifies this`filters
      ensures filters == old(filters).(priceRange := PriceRange(old(filters).priceRange.lo, MaxInputValue(text)))
      ensures reported == filters
    {
      reported := HandlePriceRangeChange(filters.priceRange.lo, MaxInputValue(text));
    }

    method ClearAllFilters() returns (reported: FilterState)
      modifies this`filters
      ensures filters == DefaultFilters && reported == DefaultFilters
      ensures ActiveCount(filters) == 0
    {
      filters := DefaultFilters;
      reported := filters;
    }

    /** `removeFilter`: the unchecking handler for a list, the default range
        for the price chip, and nothing at all for `features`. */
    method RemoveFilter(key: FilterKey, value: string) returns (reported: Option<FilterState>)
      modifies this`filters
      ensures reported == AfterRemove(old(filters), key, value)
      ensures filters == if reported.Some? then reported.value else old(filters)
    {
      match key {
        case ListKey(k) =>
          var r := HandleListChange(k, value, false);
          reported := Some(r);
        case PriceRangeKey =>
          var r := UpdateFilters(filters.(priceRange := DefaultPriceRange));
          reported := Some(r);
        case FeaturesKey =>
          reported := None;
      }
    }

    function GetActiveFiltersCount(): nat
      reads this
    {
      ActiveCount(filters)
    }

    method ToggleSection(section: string)
      modifies this`expandedSections
      ensures expandedSections == Toggle(old(expandedSections), section)
    {
      expandedSections := Toggle(expandedSections, section);
    }

    method ToggleCategory(name: string)
      modifies this`expandedCategories
      ensures expandedCategories == Toggle(old(expandedCategories), name)
    {
      expandedCategories := Toggle(expandedCategories, name);
    }

    /** The brand search box. */
    method SetBrandSearch(text: string)
      modifies this`brandSearch
      ensures brandSearch == text
    {
      brandSearch := text;
    }
  }
}
