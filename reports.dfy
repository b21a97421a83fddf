/**
 * The reports page: the filters and the sort over the collections, the
 * pagination of the list, the key metrics, the growth against the previous
 * period, the per-farmer statistics and the per-day grouping.
 *
 * Which collections fall in the chosen period, which fell in the previous
 * one, and how a number is written as text are parameters: they rest on
 * date and number formatting.
 */
module Reports {
  import opened Common
  import opened Types
  import opened Numbers

  /** The period choices of the page. */
  datatype TimeRange = Week | Month | LastMonth | Quarter | Year | Custom

  /** `shouldShowPdfOptions`. */
  predicate ShouldShowPdfOptions(r: TimeRange)
  {
    r == Quarter || r == Year || r == Custom
  }

  /** The PDF options are offered for the long periods only. */
  lemma PdfOptionsForLongPeriods(r: TimeRange)
    ensures !ShouldShowPdfOptions(r) <==> r in {Week, Month, LastMonth}
  {
  }

  // ------------------------------------------------------------------
  // Filters and sort
  // ------------------------------------------------------------------

  /** `sortBy`; any other text sorts by date, as the `default` branch does. */
  datatype SortKey = ByDate | ByAmount | ByLiters | ByFat

  /** `collectionType`; any text other than "manual" and "auto" keeps every type. */
  datatype CollectionType = AnyType | ManualOnly | AutoOnly

  /** The advanced filters; the bounds are the text typed in, "" when not set. */
  datatype Filters = Filters(
    minFat: string, maxFat: string,
    minAmount: string, maxAmount: string,
    minLiters: string, maxLiters: string,
    collectionType: CollectionType,
    sortBy: SortKey,
    ascending: bool)

  /** `bound && x < parseFloat(bound)`: an empty or unreadable bound excludes nothing. */
  predicate BelowMin(x: real, bound: string)
  {
    bound != "" && JsParseFloat(bound).Some? && x < JsParseFloat(bound).value
  }

  predicate AboveMax(x: real, bound: string)
  {
    bound != "" && JsParseFloat(bound).Some? && x > JsParseFloat(bound).value
  }

  predicate PassesAdvanced(f: Filters, c: Collection)
  {
    !BelowMin(c.fatPercentage, f.minFat) && !AboveMax(c.fatPercentage, f.maxFat) &&
    !BelowMin(c.amount, f.minAmount) && !AboveMax(c.amount, f.maxAmount) &&
    !BelowMin(c.liters, f.minLiters) && !AboveMax(c.liters, f.maxLiters) &&
    (f.collectionType == ManualOnly ==> c.isManuallyEdited) &&
    (f.collectionType == AutoOnly ==> !c.isManuallyEdited)
  }

  /** Every bound left empty and the type "all". */
  predicate BlankFilters(f: Filters)
  {
    f.minFat == f.maxFat == f.minAmount == f.maxAmount == f.minLiters == f.maxLiters == "" && f.collectionType == AnyType
  }

  /** The farmer filter: "" and "all" select every farmer. */
  predicate FarmerMatch(selected: string, c: Collection)
  {
    selected == "" || selected == "all" || c.userId == selected
  }

  /** The search: the farmer name (lower-cased), or the date and the numbers as written (as typed). */
  predicate SearchMatch(term: string, show: real -> string, c: Collection)
  {
    term == "" ||
    Contains(ToLower(c.userName), ToLower(term)) || Contains(c.date, term) ||
    Contains(show(c.liters), term) || Contains(show(c.fatPercentage), term) || Contains(show(c.amount), term)
  }

  /** Everything `filteredCollections` filters on. */
  datatype Criteria = Criteria(
    inPeriod: Collection -> bool,
    farmer: string,
    term: string,
    show: real -> string,
    filters: Filters)

  /**
   * A collection is kept when it lies in the period and passes the farmer,
   * search and advanced filters; with every filter blank only the period
   * decides.
   */
  predicate Kept(k: Criteria, c: Collection): (r: bool)
    ensures r ==> k.inPeriod(c)
    ensures r && k.farmer != "" && k.farmer != "all" ==> c.userId == k.farmer
    ensures k.farmer == "" && k.term == "" && BlankFilters(k.filters) ==> (r <==> k.inPeriod(c))
  {
    k.inPeriod(c) && FarmerMatch(k.farmer, c) && SearchMatch(k.term, k.show, c) && PassesAdvanced(k.filters, c)
  }

  /** `new Date(date + " " + time)`, read in the order of its text. */
  function DateKey(c: Collection): string
  {
    c.date + " " + c.time
  }

  function NumKey(key: SortKey, c: Collection): real
  {
    match key
    case ByAmount => c.amount
    case ByLiters => c.liters
    case ByFat => c.fatPercentage
    case ByDate => 0.0
  }

  /** The order the comparator establishes: ascending or descending on the chosen key. */
  function Order(key: SortKey, ascending: bool): (Collection, Collection) -> bool
  {
    if key == ByDate then
      if ascending then (a: Collection, b: Collection) => StrLe(DateKey(a), DateKey(b))
      else (a: Collection, b: Collection) => StrLe(DateKey(b), DateKey(a))
    else if ascending then (a: Collection, b: Collection) => NumKey(key, a) <= NumKey(key, b)
    else (a: Collection, b: Collection) => NumKey(key, a) >= NumKey(key, b)
  }

  lemma OrderIsTotal(key: SortKey, ascending: bool)
    ensures TotalPreorder(Order(key, ascending))
  {
    var le := Order(key, ascending);
    if key == ByDate {
      forall a: Collection, b: Collection ensures le(a, b) || le(b, a) { StrLeTotal(DateKey(a), DateKey(b)); }
      forall a: Collection, b: Collection, c: Collection | le(a, b) && le(b, c) ensures le(a, c) {
        if ascending { StrLeTrans(DateKey(a), DateKey(b), DateKey(c)); }
        else { StrLeTrans(DateKey(c), DateKey(b), DateKey(a)); }
      }
    }
  }

  /**
   * `filteredCollections`: exactly the collections meeting every filter,
   * ordered on the chosen key.  The comparator never answers 0, so the
   * source leaves the order of equal keys open; this model keeps them in
   * list order.
   */
  function FilteredCollections(cs: seq<Collection>, k: Criteria): (r: seq<Collection>)
    ensures forall c :: c in r <==> c in cs && Kept(k, c)
    ensures multiset(r) == multiset(Filter(cs, (c: Collection) => Kept(k, c)))
    ensures SortedBy(r, Order(k.filters.sortBy, k.filters.ascending))
  {
    OrderIsTotal(k.filters.sortBy, k.filters.ascending);
    var kept := Filter(cs, (c: Collection) => Kept(k, c));
    var r := SortBy(kept, Order(k.filters.sortBy, k.filters.ascending));
    forall c ensures c in r <==> c in kept { SortByMembers(kept, Order(k.filters.sortBy, k.filters.ascending), c); }
    r
  }

  /** The type filter keeps only manual entries for "manual" and only automatic ones for "auto". */
  lemma TypeFilterKeeps(cs: seq<Collection>, k: Criteria)
    ensures k.filters.collectionType == ManualOnly ==> forall c :: c in FilteredCollections(cs, k) ==> c.isManuallyEdited
    ensures k.filters.collectionType == AutoOnly ==> forall c :: c in FilteredCollections(cs, k) ==> !c.isManuallyEdited
  {
  }

  /** With every bound left empty, the type "all", no farmer and no search, only the period filters. */
  lemma BlankFiltersKeepPeriod(cs: seq<Collection>, k: Criteria)
    requires k.farmer == "" && k.term == ""
    requires k.filters.minFat == k.filters.maxFat == k.filters.minAmount == k.filters.maxAmount == k.filters.minLiters == k.filters.maxLiters == ""
    requires k.filters.collectionType == AnyType
    ensures forall c :: c in FilteredCollections(cs, k) <==> c in cs && k.inPeriod(c)
  {
  }

  /** On a numeric key the list is non-decreasing when ascending and non-increasing when descending. */
  lemma NumericSortDirection(cs: seq<Collection>, k: Criteria)
    requires k.filters.sortBy != ByDate
    ensures var r := FilteredCollections(cs, k);
      forall i, j :: 0 <= i < j < |r| ==>
        if k.filters.ascending then NumKey(k.filters.sortBy, r[i]) <= NumKey(k.filters.sortBy, r[j])
        else NumKey(k.filters.sortBy, r[i]) >= NumKey(k.filters.sortBy, r[j])
  {
    var r := FilteredCollections(cs, k);
    var le := Order(k.filters.sortBy, k.filters.ascending);
    forall i, j | 0 <= i < j < |r|
      ensures if k.filters.ascending then NumKey(k.filters.sortBy, r[i]) <= NumKey(k.filters.sortBy, r[j])
              else NumKey(k.filters.sortBy, r[i]) >= NumKey(k.filters.sortBy, r[j])
    {
      assert le(r[i], r[j]);
    }
  }

  // ------------------------------------------------------------------
  // Pagination
  // ------------------------------------------------------------------

  const ItemsPerPage: nat := 50

  function Min(a: int, b: int): int { if a <= b then a else b }
  function Max(a: int, b: int): int { if a >= b then a else b }

  /** `Math.ceil(n / itemsPerPage)`. */
  function TotalPages(n: nat): (p: nat)
    ensures p == 0 <==> n == 0
    ensures p > 0 ==> (p - 1) * ItemsPerPage < n <= p * ItemsPerPage
  {
    (n + ItemsPerPage - 1) / ItemsPerPage
  }

  /** `slice((page - 1) * itemsPerPage, page * itemsPerPage)`. */
  function PageSlice<T>(s: seq<T>, page: int): (r: seq<T>)
    requires page >= 1
    ensures |r| <= ItemsPerPage
    ensures (page - 1) * ItemsPerPage >= |s| ==> r == []
    ensures (page - 1) * ItemsPerPage < |s| ==> r == s[(page - 1) * ItemsPerPage .. Min(page * ItemsPerPage, |s|)]
  {
    var start := (page - 1) * ItemsPerPage;
    if start >= |s| then [] else s[start .. Min(page * ItemsPerPage, |s|)]
  }

  /** Pages 1 to `k`, one after the other. */
  function Pages<T>(s: seq<T>, k: nat): seq<T>
  {
    if k == 0 then [] else Pages(s, k - 1) + PageSlice(s, k)
  }

  lemma {:induction false} PagesPrefix<T>(s: seq<T>, k: nat)
    ensures Pages(s, k) == s[..Min(k * ItemsPerPage, |s|)]
  {
    if k > 0 {
      PagesPrefix(s, k - 1);
      var lo := Min((k - 1) * ItemsPerPage, |s|);
      if (k - 1) * ItemsPerPage < |s| {
        assert s[..lo] + s[lo .. Min(k * ItemsPerPage, |s|)] == s[..Min(k * ItemsPerPage, |s|)];
      }
    }
  }

  /** The pages, in order, put the list back together. */
  lemma PagesRebuildList<T>(s: seq<T>)
    ensures Pages(s, TotalPages(|s|)) == s
  {
    PagesPrefix(s, TotalPages(|s|));
    assert s[..|s|] == s;
  }

  /** The number on the `i`-th page button. */
  function PageNumber(i: int, current: int, total: int): int
  {
    if total <= 5 then i + 1
    else if current <= 3 then i + 1
    else if current >= total - 2 then total - 4 + i
    else current - 2 + i
  }

  /** The page buttons shown. */
  function PageWindow(current: int, total: nat): seq<int>
  {
    seq(Min(5, total), i => PageNumber(i, current, total))
  }

  /**
   * There are `min(5, totalPages)` buttons, numbered consecutively within
   * 1..totalPages, and the current page has one whenever it is in range.
   */
  lemma PageWindowShape(current: int, total: nat)
    ensures var w := PageWindow(current, total);
      |w| == Min(5, total) &&
      (forall i :: 0 <= i < |w| - 1 ==> w[i + 1] == w[i] + 1) &&
      (forall i :: 0 <= i < |w| ==> 1 <= w[i] <= total) &&
      (1 <= current <= total ==> current in w)
  {
    var w := PageWindow(current, total);
    if 1 <= current <= total {
      var i := if total <= 5 || current <= 3 then current - 1
               else if current >= total - 2 then current - (total - 4)
               else 2;
      assert w[i] == current;
    }
  }

  /** The current page of the list. */
  class Pager {
    var currentPage: int

    predicate Valid()
      reads this
    {
      currentPage >= 1
    }

    constructor()
      ensures Valid() && currentPage == 1
    {
      currentPage := 1;
    }

    /** "Previous": one page back, never below 1. */
    method Previous()
      requires Valid()
      modifies this
      ensures Valid() && currentPage == Max(1, old(currentPage) - 1)
    {
      currentPage := Max(1, currentPage - 1);
    }

    /** "Next": one page on, never past the last page (the button exists only when there are pages). */
    method Next(totalPages: nat)
      requires Valid() && totalPages >= 1
      modifies this
      ensures Valid() && currentPage == Min(totalPages, old(currentPage) + 1)
      ensures old(currentPage) <= totalPages ==> currentPage <= totalPages
    {
      currentPage := Min(totalPages, currentPage + 1);
    }

    /** A page button. */
    method GoTo(pageNum: int)
      requires Valid() && pageNum >= 1
      modifies this
      ensures Valid() && currentPage == pageNum
    {
      currentPage := pageNum;
    }

    /** The filters changed: back to the first page. */
    method Reset()
      modifies this
      ensures Valid() && currentPage == 1
    {
      currentPage := 1;
    }
  }

  // ------------------------------------------------------------------
  // Metrics and growth
  // ------------------------------------------------------------------

  function LitersOf(c: Collection): real { c.liters }
  function AmountOf(c: Collection): real { c.amount }
  function FatOf(c: Collection): real { c.fatPercentage }
  predicate IsManual(c: Collection) { c.isManuallyEdited }
  predicate IsAuto(c: Collection) { !c.isManuallyEdited }

  /** `mean` is the average of `count` values totalling `total`. */
  predicate Averages(mean: real, count: nat, total: real)
  {
    count > 0 ==> mean * (count as real) == total
  }

  /** The mean of `f` over `cs`, 0 for no collections. */
  function Mean(cs: seq<Collection>, f: Collection -> real): (m: real)
    ensures Averages(m, |cs|, SumBy(cs, f))
    ensures |cs| == 0 ==> m == 0.0
  {
    if |cs| > 0 then SumBy(cs, f) / (|cs| as real) else 0.0
  }

  datatype Metrics = Metrics(
    totalLiters: real,
    totalAmount: real,
    totalCollections: nat,
    averageFat: real,
    activeFarmersInPeriod: nat,
    averagePerCollection: real,
    averageLitersPerCollection: real,
    manualCollections: nat,
    autoCollections: nat)

  /** The farmers with a collection among `cs`. */
  function FarmerIds(cs: seq<Collection>): (ids: set<string>)
    ensures |ids| <= |cs|
    ensures forall id :: id in ids <==> exists c :: c in cs && c.userId == id
  {
    if cs == [] then {} else
      var ids := FarmerIds(cs[1..]) + {cs[0].userId};
      assert forall c :: c in cs <==> c == cs[0] || c in cs[1..];
      ids
  }

  /** `metrics` over the filtered collections. */
  function MetricsOf(fc: seq<Collection>): (m: Metrics)
    ensures m.totalCollections == |fc|
    ensures m.manualCollections + m.autoCollections == m.totalCollections
    ensures m.activeFarmersInPeriod <= m.totalCollections
    ensures fc == [] ==> m.averageFat == 0.0 && m.averagePerCollection == 0.0 && m.averageLitersPerCollection == 0.0
  {
    FilterSplitCount(fc, IsManual, IsAuto);
    Metrics(SumBy(fc, LitersOf), SumBy(fc, AmountOf), |fc|, Mean(fc, FatOf),
            |FarmerIds(fc)|, Mean(fc, AmountOf), Mean(fc, LitersOf),
            |Filter(fc, IsManual)|, |Filter(fc, IsAuto)|)
  }

  /** Growth in percent against the previous period, 0 when the previous total is not positive. */
  function Growth(current: real, previous: real): (g: real)
    ensures previous > 0.0 ==> current == previous + previous * g / 100.0
    ensures previous <= 0.0 ==> g == 0.0
  {
    if previous > 0.0 then (current - previous) / previous * 100.0 else 0.0
  }

  datatype GrowthFigures = GrowthFigures(amount: real, liters: real, collections: real)

  /** `growth`, given the collections of the previous period. */
  function GrowthOf(fc: seq<Collection>, previous: seq<Collection>): (g: GrowthFigures)
    ensures previous == [] ==> g == GrowthFigures(0.0, 0.0, 0.0)
  {
    var m := MetricsOf(fc);
    GrowthFigures(Growth(m.totalAmount, SumBy(previous, AmountOf)),
                  Growth(m.totalLiters, SumBy(previous, LitersOf)),
                  Growth(m.totalCollections as real, |previous| as real))
  }

  // ------------------------------------------------------------------
  // Per-farmer statistics
  // ------------------------------------------------------------------

  /** A farmer's row; the 30-day consistency and the quality score are not modelled. */
  datatype FarmerStat = FarmerStat(
    user: User,
    totalLiters: real,
    totalAmount: real,
    collections: nat,
    avgFat: real,
    avgLitersPerCollection: real,
    avgAmountPerCollection: real,
    manualEdits: nat,
    lastCollection: Option<string>)

  function UserCollections(fc: seq<Collection>, id: string): seq<Collection>
  {
    Filter(fc, (c: Collection) => c.userId == id)
  }

  lemma HasCollectionsOf(fc: seq<Collection>, id: string)
    ensures |UserCollections(fc, id)| > 0 <==> exists c :: c in fc && c.userId == id
  {
    var mine := UserCollections(fc, id);
    if mine != [] {
      assert mine[0] in mine;
    }
  }

  predicate NewestCollectionFirst(a: Collection, b: Collection)
  {
    StrLe(DateKey(b), DateKey(a))
  }

  lemma NewestCollectionFirstIsTotal()
    ensures TotalPreorder(NewestCollectionFirst)
  {
    forall a: Collection, b: Collection ensures NewestCollectionFirst(a, b) || NewestCollectionFirst(b, a) {
      StrLeTotal(DateKey(a), DateKey(b));
    }
    forall a: Collection, b: Collection, c: Collection | NewestCollectionFirst(a, b) && NewestCollectionFirst(b, c)
      ensures NewestCollectionFirst(a, c)
    {
      StrLeTrans(DateKey(c), DateKey(b), DateKey(a));
    }
  }

  /** `lastCollection`: the date of the latest collection by date and time, None for none. */
  function LastCollection(cs: seq<Collection>): (r: Option<string>)
    ensures r.None? <==> cs == []
    ensures r.Some? ==> exists c :: c in cs && c.date == r.value && forall d :: d in cs ==> StrLe(DateKey(d), DateKey(c))
  {
    if cs == [] then None
    else
      NewestCollectionFirstIsTotal();
      var s := SortBy(cs, NewestCollectionFirst);
      assert s[0] in multiset(cs);
      forall d | d in cs ensures StrLe(DateKey(d), DateKey(s[0])) {
        assert d in multiset(s);
        var j :| 0 <= j < |s| && s[j] == d;
        if j > 0 { assert NewestCollectionFirst(s[0], s[j]); }
        else { StrLeTotal(DateKey(d), DateKey(d)); }
      }
      Some(s[0].date)
  }

  /**
   * One farmer's row: their collections' count, totals and means (the mean
   * times the count is the total), how many were edited by hand and the
   * latest date, which exists exactly when they have a collection.
   */
  function StatOf(fc: seq<Collection>, u: User): (r: FarmerStat)
    ensures r.user == u
    ensures r.collections > 0 <==> exists c :: c in fc && c.userId == u.id
    ensures r.manualEdits <= r.collections
    ensures Averages(r.avgLitersPerCollection, r.collections, r.totalLiters)
    ensures Averages(r.avgAmountPerCollection, r.collections, r.totalAmount)
    ensures r.collections == 0 ==> r.totalLiters == r.totalAmount == r.avgFat == 0.0
    ensures r.lastCollection.None? <==> r.collections == 0
  {
    var mine := UserCollections(fc, u.id);
    HasCollectionsOf(fc, u.id);
    var liters, amount := SumBy(mine, LitersOf), SumBy(mine, AmountOf);
    var avgLiters, avgAmount := Mean(mine, LitersOf), Mean(mine, AmountOf);
    assert Averages(avgLiters, |mine|, liters) && Averages(avgAmount, |mine|, amount);
    FarmerStat(u, liters, amount, |mine|, Mean(mine, FatOf),
               avgLiters, avgAmount, |Filter(mine, IsManual)|, LastCollection(mine))
  }

  predicate HasCollections(s: FarmerStat) { s.collections > 0 }
  predicate MoreAmountFirst(a: FarmerStat, b: FarmerStat) { a.totalAmount >= b.totalAmount }

  function AllStats(users: seq<User>, fc: seq<Collection>): (r: seq<FarmerStat>)
    ensures |r| == |users| && forall i :: 0 <= i < |users| ==> r[i] == StatOf(fc, users[i])
  {
    seq(|users|, i requires 0 <= i < |users| => StatOf(fc, users[i]))
  }

  /** `farmerStats`: the rows of the farmers with a collection, largest total amount first. */
  function FarmerStats(users: seq<User>, fc: seq<Collection>): (r: seq<FarmerStat>)
    ensures forall s :: s in r <==> s in AllStats(users, fc) && s.collections > 0
    ensures forall i, j :: 0 <= i < j < |r| ==> r[i].totalAmount >= r[j].totalAmount
  {
    var kept := Filter(AllStats(users, fc), HasCollections);
    assert TotalPreorder(MoreAmountFirst);
    var r := SortBy(kept, MoreAmountFirst);
    forall s ensures s in r <==> s in kept { SortByMembers(kept, MoreAmountFirst, s); }
    r
  }

  /**
   * `farmerStats` holds one row for each farmer with a collection among the
   * filtered ones, and no row for any other farmer.
   */
  lemma FarmerStatsRows(users: seq<User>, fc: seq<Collection>)
    ensures forall s :: s in FarmerStats(users, fc) ==> s.user in users && s == StatOf(fc, s.user) && s.collections > 0
    ensures forall u :: u in users && (exists c :: c in fc && c.userId == u.id) ==> StatOf(fc, u) in FarmerStats(users, fc)
  {
    var all := AllStats(users, fc);
    forall s | s in all ensures s.user in users && s == StatOf(fc, s.user) {
      var i :| 0 <= i < |all| && all[i] == s;
    }
    forall u | u in users && (exists c :: c in fc && c.userId == u.id) ensures StatOf(fc, u) in FarmerStats(users, fc) {
      var c :| c in fc && c.userId == u.id;
      assert c in UserCollections(fc, u.id);
      var i :| 0 <= i < |users| && users[i] == u;
      assert all[i] == StatOf(fc, u);
    }
  }

  // ------------------------------------------------------------------
  // Per-day grouping
  // ------------------------------------------------------------------

  /** One day's accumulator in `dailyData`. */
  datatype Day = Day(date: string, liters: real, amount: real, collections: nat, farmers: set<string>)

  /** The position of the day `d` among the accumulated days, or -1. */
  function DayIndex(days: seq<Day>, d: string): (i: int)
    ensures -1 <= i < |days|
    ensures i == -1 <==> forall k :: 0 <= k < |days| ==> days[k].date != d
    ensures i >= 0 ==> days[i].date == d
  {
    if days == [] then -1
    else if days[0].date == d then 0
    else
      var i := DayIndex(days[1..], d);
      assert forall k :: 1 <= k < |days| ==> days[k] == days[1..][k - 1];
      if i == -1 then -1 else i + 1
  }

  /** One step of the `reduce`: a new day is added at the end, an existing day is updated in place. */
  function AddToDays(days: seq<Day>, c: Collection): seq<Day>
  {
    var i := DayIndex(days, c.date);
    if i < 0 then days + [Day(c.date, c.liters, c.amount, 1, {c.userId})]
    else days[i := Day(c.date, days[i].liters + c.liters, days[i].amount + c.amount, days[i].collections + 1, days[i].farmers + {c.userId})]
  }

  /** The days accumulated over `cs`, in the order the dates first occur. */
  function DaysOver(cs: seq<Collection>): seq<Day>
  {
    if cs == [] then [] else AddToDays(DaysOver(cs[..|cs| - 1]), cs[|cs| - 1])
  }

  /** `dailyData`: the `reduce` as a loop over the filtered collections. */
  method DailyData(fc: seq<Collection>) returns (days: seq<Day>)
    ensures days == DaysOver(fc)
  {
    days := [];
    var i := 0;
    while i < |fc|
      invariant 0 <= i <= |fc|
      invariant days == DaysOver(fc[..i])
    {
      assert fc[..i + 1][..i] == fc[..i];
      days := AddToDays(days, fc[i]);
      i := i + 1;
    }
    assert fc[..i] == fc;
  }

  predicate DistinctDates(days: seq<Day>)
  {
    forall i, j :: 0 <= i < j < |days| ==> days[i].date != days[j].date
  }

  function DayDates(days: seq<Day>): set<string>
  {
    set d | d in days :: d.date
  }

  function CollectionDates(cs: seq<Collection>): set<string>
  {
    set c | c in cs :: c.date
  }

  function CountOf(d: Day): real { d.collections as real }

  /** Each step keeps the dates distinct. */
  lemma AddToDaysDistinct(days: seq<Day>, c: Collection)
    requires DistinctDates(days)
    ensures DistinctDates(AddToDays(days, c))
  {
  }

  /** Each step adds the collection's date to the dates and nothing else. */
  lemma AddToDaysDates(days: seq<Day>, c: Collection)
    ensures DayDates(AddToDays(days, c)) == DayDates(days) + {c.date}
  {
    var i := DayIndex(days, c.date);
    var r := AddToDays(days, c);
    if i >= 0 {
      forall x | x in DayDates(r) ensures x in DayDates(days) + {c.date} {
        var d :| d in r && d.date == x;
        var k :| 0 <= k < |r| && r[k] == d;
        if k != i { assert days[k] == d; }
      }
      forall x | x in DayDates(days) ensures x in DayDates(r) {
        var d :| d in days && d.date == x;
        var k :| 0 <= k < |days| && days[k] == d;
        if k != i { assert r[k] == d; } else { assert r[i].date == x; }
      }
    }
  }

  /** `acc[i]` replaced: the sum of counts moves by the difference. */
  lemma {:induction false} SumAfterUpdate(days: seq<Day>, i: nat, x: Day)
    requires i < |days|
    ensures SumBy(days[i := x], CountOf) == SumBy(days, CountOf) - CountOf(days[i]) + CountOf(x)
  {
    if i > 0 {
      SumAfterUpdate(days[1..], i - 1, x);
      assert days[i := x][1..] == days[1..][i - 1 := x];
    } else {
      assert days[i := x][1..] == days[1..];
    }
  }

  /** Each step adds one to the sum of the counts. */
  lemma AddToDaysCount(days: seq<Day>, c: Collection)
    ensures SumBy(AddToDays(days, c), CountOf) == SumBy(days, CountOf) + 1.0
  {
    var i := DayIndex(days, c.date);
    if i < 0 {
      SumByConcat(days, [Day(c.date, c.liters, c.amount, 1, {c.userId})], CountOf);
    } else {
      SumAfterUpdate(days, i, Day(c.date, days[i].liters + c.liters, days[i].amount + c.amount, days[i].collections + 1, days[i].farmers + {c.userId}));
    }
  }

  /**
   * Accumulating gives one day per distinct date, exactly the dates of the
   * collections, and the day counts add up to the number of collections.
   */
  lemma {:induction false} DaysOverShape(cs: seq<Collection>)
    ensures DistinctDates(DaysOver(cs))
    ensures DayDates(DaysOver(cs)) == CollectionDates(cs)
    ensures SumBy(DaysOver(cs), CountOf) == |cs| as real
  {
    if cs != [] {
      var init := cs[..|cs| - 1];
      var c := cs[|cs| - 1];
      DaysOverShape(init);
      AddToDaysDistinct(DaysOver(init), c);
      AddToDaysDates(DaysOver(init), c);
      AddToDaysCount(DaysOver(init), c);
      assert cs == init + [c];
      assert CollectionDates(cs) == CollectionDates(init) + {c.date};
    }
  }

  /** A row of `dailyStats`: the farmers' set replaced by its size. */
  datatype DayStat = DayStat(date: string, liters: real, amount: real, collections: nat, farmers: nat)

  function StatOfDay(d: Day): DayStat
  {
    DayStat(d.date, d.liters, d.amount, d.collections, |d.farmers|)
  }

  predicate LaterFirst(a: DayStat, b: DayStat)
  {
    StrLe(b.date, a.date)
  }

  lemma LaterFirstIsTotal()
    ensures TotalPreorder(LaterFirst)
  {
    forall a: DayStat, b: DayStat ensures LaterFirst(a, b) || LaterFirst(b, a) { StrLeTotal(a.date, b.date); }
    forall a: DayStat, b: DayStat, c: DayStat | LaterFirst(a, b) && LaterFirst(b, c) ensures LaterFirst(a, c) {
      StrLeTrans(c.date, b.date, a.date);
    }
  }

  function DayStatsOf(days: seq<Day>): (r: seq<DayStat>)
    ensures |r| == |days| && forall i :: 0 <= i < |days| ==> r[i] == StatOfDay(days[i])
  {
    seq(|days|, i requires 0 <= i < |days| => StatOfDay(days[i]))
  }

  function StatCount(s: DayStat): real { s.collections as real }

  function StatDates(r: seq<DayStat>): set<string>
  {
    set s | s in r :: s.date
  }

  predicate DistinctStatDates(r: seq<DayStat>)
  {
    forall i, j :: 0 <= i < j < |r| ==> r[i].date != r[j].date
  }

  /** The `map` keeps the dates, their distinctness and the counts. */
  lemma {:induction false} DayStatsOfShape(days: seq<Day>)
    requires DistinctDates(days)
    ensures DistinctStatDates(DayStatsOf(days))
    ensures StatDates(DayStatsOf(days)) == DayDates(days)
    ensures SumBy(DayStatsOf(days), StatCount) == SumBy(days, CountOf)
  {
    var r := DayStatsOf(days);
    forall x | x in DayDates(days) ensures x in StatDates(r) {
      var d :| d in days && d.date == x;
      var k :| 0 <= k < |days| && days[k] == d;
      assert r[k] in r;
    }
    forall x | x in StatDates(r) ensures x in DayDates(days) {
      var s :| s in r && s.date == x;
      var k :| 0 <= k < |r| && r[k] == s;
      assert days[k] in days;
    }
    if days != [] {
      DayStatsOfShape(days[1..]);
      assert DayStatsOf(days)[1..] == DayStatsOf(days[1..]);
    }
  }

  /** Reordering the rows keeps their dates distinct. */
  lemma DistinctUnderPermutation(t: seq<DayStat>, s: seq<DayStat>)
    requires multiset(s) == multiset(t) && DistinctStatDates(t)
    ensures DistinctStatDates(s)
  {
    forall i, j | 0 <= i < j < |s| ensures s[i].date != s[j].date {
      if s[i].date == s[j].date {
        assert s[i] in multiset(t) && s[j] in multiset(t);
        if s[i] == s[j] {
          TwiceCounted(s, i, j);
          var a, b := TwoPositions(t, s[i]);
          assert false;
        } else {
          assert false;
        }
      }
    }
  }

  /** `dailyStats`: the accumulated days, latest date first. */
  function DailyStats(fc: seq<Collection>): (r: seq<DayStat>)
    ensures multiset(r) == multiset(DayStatsOf(DaysOver(fc)))
    ensures SortedBy(r, LaterFirst)
  {
    LaterFirstIsTotal();
    SortBy(DayStatsOf(DaysOver(fc)), LaterFirst)
  }

  /**
   * `dailyStats` has one row per distinct date of the filtered collections,
   * strictly latest first, and its counts add up to the number of filtered
   * collections.
   */
  lemma DailyStatsShape(fc: seq<Collection>)
    ensures DistinctStatDates(DailyStats(fc))
    ensures forall i, j :: 0 <= i < j < |DailyStats(fc)| ==> StrLe(DailyStats(fc)[j].date, DailyStats(fc)[i].date)
    ensures StatDates(DailyStats(fc)) == CollectionDates(fc)
    ensures SumBy(DailyStats(fc), StatCount) == |fc| as real
  {
    var days := DaysOver(fc);
    DaysOverShape(fc);
    var stats := DayStatsOf(days);
    DayStatsOfShape(days);
    var r := DailyStats(fc);
    SumByPermutation(r, stats, StatCount);
    DistinctUnderPermutation(stats, r);
    forall x ensures x in r <==> x in stats {
      assert x in r <==> x in multiset(r);
    }
    assert StatDates(r) == StatDates(stats);
    forall i, j | 0 <= i < j < |r| ensures StrLe(r[j].date, r[i].date) {
      assert LaterFirst(r[i], r[j]);
    }
  }
}
