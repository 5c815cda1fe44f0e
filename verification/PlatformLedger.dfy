/**
 * The platform ledger query: Asia/Kolkata day windows, filters, the page cut, and the
 * export that asks for everything at once.
 */
module PlatformLedger {
  import opened Prelude
  import opened Calendar
  import opened DateValidators
  import CsvExport

  const INDIA_TIMEZONE_OFFSET_MS := 19800000

  /** The calendar day of an instant in India, five hours and thirty minutes ahead of UTC. */
  function IstDay(t: int): int {
    Day(t + (5 * 60 + 30) * 60 * 1000)
  }

  function WindowStart(day: int): int {
    MakeDate(day, 0) - INDIA_TIMEZONE_OFFSET_MS
  }

  function WindowEnd(day: int): int {
    MakeDate(day, 0) + MS_PER_DAY - INDIA_TIMEZONE_OFFSET_MS
  }

  predicate InWindow(t: int, first: int, last: int) {
    WindowStart(first) <= t < WindowEnd(last)
  }

  /** An instant lies in a window exactly when its UTC+05:30 day lies in the range. */
  lemma WindowHoldsIstDays(t: int, first: int, last: int)
    ensures WindowStart(first) <= t <==> first <= IstDay(t)
    ensures t < WindowEnd(last) <==> IstDay(t) <= last
    ensures InWindow(t, first, last) <==> first <= IstDay(t) <= last
  {
  }

  /** The same, in the strings a caller sends and the string an instant shows in India. */
  lemma WindowHoldsIstDates(t: int, startDate: string, endDate: string)
    requires IsGregorianDate(startDate) && IsGregorianDate(endDate)
    requires 0 <= YearFromDay(IstDay(t)) <= 9999
    ensures var shown := IsoDate(IstDay(t));
            InWindow(t, DayOf(startDate), DayOf(endDate)) <==>
            StringAtMost(startDate, shown) && StringAtMost(shown, endDate)
  {
    hide YearFromDay, MonthFromDay, DateFromDay, MakeDay, IsoDate, YearOf, MonthOf, DateOf, MatchesYmd,
         StringAtMost, IsGregorian, WindowStart, WindowEnd, IstDay;
    var day := IstDay(t);
    IsoDateReadsBack(day);
    MakeDayReadsBack(day);
    WindowHoldsIstDays(t, DayOf(startDate), DayOf(endDate));
    StringOrderIsChronological(startDate, IsoDate(day));
    StringOrderIsChronological(IsoDate(day), endDate);
  }

  /** Single-day windows leave no gap and do not overlap, and a range is their union. */
  lemma WindowsTile(t: int, first: int, last: int)
    ensures InWindow(t, IstDay(t), IstDay(t))
    ensures forall day :: InWindow(t, day, day) ==> day == IstDay(t)
    ensures InWindow(t, first, last) <==> exists day :: first <= day <= last && InWindow(t, day, day)
  {
    hide InWindow, IstDay;
    WindowHoldsIstDays(t, first, last);
    forall day
      ensures InWindow(t, day, day) <==> day == IstDay(t)
    {
      WindowHoldsIstDays(t, day, day);
    }
  }

  datatype Entry = Entry(
    id: int,
    entryType: string,
    restaurantId: Option<string>,
    referenceId: Option<string>,
    amountPaise: int,
    runningBalancePaise: int,
    createdAt: int)

  datatype Query = Query(
    search: Option<string>,
    entryType: Option<string>,
    restaurantId: Option<string>,
    startDate: Option<string>,
    endDate: Option<string>,
    page: Option<nat>,
    limit: Option<nat>)

  /** What the query validators let through. */
  predicate IsValidQuery(q: Query) {
    && (Truthy(q.startDate) ==> IsGregorianDate(q.startDate.value))
    && (Truthy(q.endDate) ==> IsGregorianDate(q.endDate.value))
    && (q.page.Some? ==> q.page.value >= 1)
    && (q.limit.Some? ==> q.limit.value >= 1)
  }

  datatype Filter =
    | OfType(entryType: string)
    | OfRestaurant(restaurantId: string)
    | CreatedWithin(gte: Option<int>, lt: Option<int>)
    | ReferenceStartsWith(prefix: string)

  predicate Passes(e: Entry, f: Filter) {
    match f
    case OfType(entryType) => e.entryType == entryType
    case OfRestaurant(restaurantId) => e.restaurantId == Some(restaurantId)
    case CreatedWithin(gte, lt) =>
      (gte.Some? ==> gte.value <= e.createdAt) && (lt.Some? ==> e.createdAt < lt.value)
    case ReferenceStartsWith(prefix) => e.referenceId.Some? && prefix <= e.referenceId.value
  }

  predicate PassesAll(e: Entry, filters: seq<Filter>) {
    forall i :: 0 <= i < |filters| ==> Passes(e, filters[i])
  }

  /** What a caller asks for: dates are days in India, an empty filter is no filter. */
  predicate Wanted(e: Entry, q: Query)
    requires IsValidQuery(q)
  {
    && (Truthy(q.entryType) ==> e.entryType == q.entryType.value)
    && (Truthy(q.restaurantId) ==> e.restaurantId == q.restaurantId)
    && (Truthy(q.startDate) ==> DayOf(q.startDate.value) <= IstDay(e.createdAt))
    && (Truthy(q.endDate) ==> IstDay(e.createdAt) <= DayOf(q.endDate.value))
    && var search := Trim(q.search.GetOr(""));
       search != "" ==> e.referenceId.Some? && search <= e.referenceId.value
  }

  function Selected(table: set<Entry>, q: Query): set<Entry>
    requires IsValidQuery(q)
  {
    set e | e in table && Wanted(e, q)
  }

  /** `orderBy: [{ createdAt: 'desc' }, { id: 'desc' }]` */
  predicate Before(a: Entry, b: Entry) {
    a.createdAt > b.createdAt || (a.createdAt == b.createdAt && a.id > b.id)
  }

  predicate HasPrimaryKey(s: set<Entry>) {
    forall a, b :: a in s && b in s && a.id == b.id ==> a == b
  }

  predicate IsFirst(e: Entry, s: set<Entry>) {
    e in s && forall f :: f in s && f != e ==> Before(e, f)
  }

  lemma {:induction false} FirstExists(s: set<Entry>)
    requires s != {} && HasPrimaryKey(s)
    ensures exists e :: IsFirst(e, s)
  {
    var a :| a in s;
    if s - {a} != {} {
      FirstExists(s - {a});
      var b :| IsFirst(b, s - {a});
      assert a.id != b.id;
      if Before(a, b) {
        forall f | f in s && f != a
          ensures Before(a, f)
        {
          assert f == b || Before(b, f);
        }
        assert IsFirst(a, s);
      } else {
        assert IsFirst(b, s);
      }
    } else {
      assert s == {a};
      assert IsFirst(a, s);
    }
  }

  /** The rows of a table in the order of the query. */
  function Listing(s: set<Entry>): (list: seq<Entry>)
    requires HasPrimaryKey(s)
    ensures IsListing(s, list)
    decreases |s|
  {
    if s == {} then [] else
      FirstExists(s);
      var e :| IsFirst(e, s);
      var rest := Listing(s - {e});
      assert forall i, j :: 0 <= i < j < |rest| + 1 ==> Before(([e] + rest)[i], ([e] + rest)[j]);
      [e] + rest
  }

  ghost predicate IsListing(s: set<Entry>, list: seq<Entry>) {
    && (forall e :: e in s <==> e in list)
    && (forall i, j :: 0 <= i < j < |list| ==> Before(list[i], list[j]))
  }

  /** The order leaves the database no choice. */
  lemma {:induction false} ListingIsUnique(s: set<Entry>, a: seq<Entry>, b: seq<Entry>)
    requires IsListing(s, a) && IsListing(s, b)
    ensures a == b
    decreases |a|
  {
    if a == [] {
      if b != [] {
        HeadIsElement(b);
        assert false;
      }
    } else {
      assert a[0] in s;
      assert b[0] in s;
      var i :| 0 <= i < |a| && a[i] == b[0];
      var j :| 0 <= j < |b| && b[j] == a[0];
      assert a[0] == b[0];
      TailIsListing(s, a);
      TailIsListing(s, b);
      ListingIsUnique(s - {a[0]}, a[1..], b[1..]);
    }
  }

  lemma HeadIsElement(a: seq<Entry>)
    requires a != []
    ensures a[0] in a
  {
  }

  lemma TailIsListing(s: set<Entry>, a: seq<Entry>)
    requires IsListing(s, a) && a != []
    ensures IsListing(s - {a[0]}, a[1..])
  {
    forall e
      ensures e in s - {a[0]} <==> e in a[1..]
    {
      if e in s && e != a[0] {
        var i :| 0 <= i < |a| && a[i] == e;
        assert a[1..][i - 1] == e;
      }
    }
  }

  lemma PassesOneMore(filters: seq<Filter>, f: Filter)
    ensures forall e :: PassesAll(e, filters + [f]) <==> PassesAll(e, filters) && Passes(e, f)
  {
    forall e
      ensures PassesAll(e, filters + [f]) <==> PassesAll(e, filters) && Passes(e, f)
    {
      var more := filters + [f];
      assert more[|filters|] == f;
      assert forall i :: 0 <= i < |filters| ==> more[i] == filters[i];
    }
  }

  datatype Pagination = Pagination(page: nat, totalPages: nat, limit: nat)

  datatype LedgerPage = LedgerPage(entries: seq<Entry>, pagination: Option<Pagination>)

  function Min(a: int, b: int): int { if a < b then a else b }

  /** The `take` and `skip` of a query, applied to the ordered rows. */
  function PageOf(list: seq<Entry>, page: Option<nat>, limit: Option<nat>): seq<Entry>
    requires page.Some? ==> page.value >= 1
  {
    if limit.None? then list else
      var skip := if page.Some? then (page.value - 1) * limit.value else 0;
      var from := Min(skip, |list|);
      list[from..Min(from + limit.value, |list|)]
  }

  /** `Math.ceil(totalRecords / limit)` */
  function TotalPages(totalRecords: nat, limit: nat): nat
    requires limit >= 1
  {
    (totalRecords + limit - 1) / limit
  }

  /** The filters pushed for a query accept exactly the rows the caller asks for. */
  method BuildFilters(input: Query) returns (filters: seq<Filter>)
    requires IsValidQuery(input)
    ensures forall e :: PassesAll(e, filters) <==> Wanted(e, input)
  {
    hide PassesAll, WindowStart, WindowEnd, IstDay, DayOf, Trim, MatchesYmd, IsGregorian, YearOf, MonthOf, DateOf;
    filters := [];
    assert forall e :: PassesAll(e, filters) by { NoFilterPasses(); }
    if Truthy(input.entryType) {
      PassesOneMore(filters, OfType(input.entryType.value));
      filters := filters + [OfType(input.entryType.value)];
    }
    if Truthy(input.restaurantId) {
      PassesOneMore(filters, OfRestaurant(input.restaurantId.value));
      filters := filters + [OfRestaurant(input.restaurantId.value)];
    }
    if Truthy(input.startDate) || Truthy(input.endDate) {
      var gte := if Truthy(input.startDate) then Some(WindowStart(DayOf(input.startDate.value))) else None;
      var lt := if Truthy(input.endDate) then Some(WindowEnd(DayOf(input.endDate.value))) else None;
      PassesOneMore(filters, CreatedWithin(gte, lt));
      filters := filters + [CreatedWithin(gte, lt)];
      forall e: Entry
        ensures Truthy(input.startDate) ==>
                  (WindowStart(DayOf(input.startDate.value)) <= e.createdAt <==>
                   DayOf(input.startDate.value) <= IstDay(e.createdAt))
        ensures Truthy(input.endDate) ==>
                  (e.createdAt < WindowEnd(DayOf(input.endDate.value)) <==>
                   IstDay(e.createdAt) <= DayOf(input.endDate.value))
      {
        WindowHoldsIstDays(e.createdAt,
          if Truthy(input.startDate) then DayOf(input.startDate.value) else 0,
          if Truthy(input.endDate) then DayOf(input.endDate.value) else 0);
      }
    }
    var search := Trim(input.search.GetOr(""));
    if search != "" {
      PassesOneMore(filters, ReferenceStartsWith(search));
      filters := filters + [ReferenceStartsWith(search)];
    }
  }

  lemma NoFilterPasses()
    ensures forall e :: PassesAll(e, [])
  {
  }

  /** The page a caller gets holds the wanted rows, in order, cut to the page. */
  method FindManyPaginated(table: set<Entry>, input: Query) returns (result: LedgerPage)
    requires HasPrimaryKey(table) && IsValidQuery(input)
    ensures var list := Listing(Selected(table, input));
            && result.entries == PageOf(list, input.page, input.limit)
            && result.pagination == if input.limit.None? then None
                                    else Some(Pagination(input.page.GetOr(1), TotalPages(|list|, input.limit.value),
                                                         input.limit.value))
  {
    hide PassesAll, Wanted, PageOf, TotalPages, IsListing;
    var filters := BuildFilters(input);
    var matching := set e | e in table && PassesAll(e, filters);
    assert matching == Selected(table, input);
    var list := Listing(matching);
    var pagination := if input.limit.None? then None
                      else Some(Pagination(input.page.GetOr(1), TotalPages(|list|, input.limit.value),
                                           input.limit.value));
    result := LedgerPage(PageOf(list, input.page, input.limit), pagination);
  }

  /** Pages 1 to `n`, one after the other. */
  function Pages(list: seq<Entry>, limit: nat, n: nat): seq<Entry> {
    if n == 0 then [] else Pages(list, limit, n - 1) + PageOf(list, Some(n), Some(limit))
  }

  lemma {:induction false} PagesArePrefix(list: seq<Entry>, limit: nat, n: nat)
    ensures Pages(list, limit, n) == list[..Min(n * limit, |list|)]
  {
    if n > 0 {
      PagesArePrefix(list, limit, n - 1);
      PageExtendsPrefix(list, (n - 1) * limit, limit);
      assert n * limit == (n - 1) * limit + limit;
    }
  }

  lemma PageExtendsPrefix(list: seq<Entry>, skip: nat, limit: nat)
    ensures var from, to := Min(skip, |list|), Min(skip + limit, |list|);
            Min(from + limit, |list|) == to && list[..from] + list[from..to] == list[..to]
  {
  }

  lemma TotalPagesSuffice(total: nat, limit: nat)
    requires limit >= 1
    ensures var n := TotalPages(total, limit);
            (n > 0 ==> (n - 1) * limit < total) && total <= n * limit
  {
    var a := total + limit - 1;
    assert a == (a / limit) * limit + a % limit;
    var n := a / limit;
    assert (n - 1) * limit == n * limit - limit;
  }

  /** Following the page count through gives every row once, in order, and no page is empty. */
  lemma PagesCoverListing(list: seq<Entry>, limit: nat)
    requires limit >= 1
    ensures Pages(list, limit, TotalPages(|list|, limit)) == list
    ensures forall p :: 1 <= p <= TotalPages(|list|, limit) ==> 1 <= |PageOf(list, Some(p), Some(limit))| <= limit
  {
    hide TotalPages, Pages, PageOf;
    var n := TotalPages(|list|, limit);
    TotalPagesSuffice(|list|, limit);
    PagesArePrefix(list, limit, n);
    forall p | 1 <= p <= n
      ensures 1 <= |PageOf(list, Some(p), Some(limit))| <= limit
    {
      PageIsFilled(list, limit, p, n);
    }
  }

  lemma PageIsFilled(list: seq<Entry>, limit: nat, p: nat, n: nat)
    requires limit >= 1 && 1 <= p <= n && (n - 1) * limit < |list|
    ensures 1 <= |PageOf(list, Some(p), Some(limit))| <= limit
  {
    MulMonotone(p - 1, n - 1, limit);
  }

  lemma MulMonotone(a: int, b: int, c: int)
    requires a <= b && 0 <= c
    ensures a * c <= b * c
  {
  }

  function Rows(entries: seq<Entry>, toDto: Entry -> CsvExport.Row): seq<CsvExport.Row> {
    seq(|entries|, i requires 0 <= i < |entries| => toDto(entries[i]))
  }

  /** The export asks for the filters of a query without its page and limit. */
  function ExportPlatformLedger(table: set<Entry>, q: Query, toDto: Entry -> CsvExport.Row): string
    requires HasPrimaryKey(table) && IsValidQuery(q)
  {
    CsvExport.Export(Rows(PageOf(Listing(Selected(table, q)), None, None), toDto))
  }

  /** The exported file reads back as the header and the rows of all pages, for every page size. */
  lemma ExportHoldsAllPages(table: set<Entry>, q: Query, toDto: Entry -> CsvExport.Row, limit: nat)
    requires HasPrimaryKey(table) && IsValidQuery(q) && limit >= 1
    ensures var list := Listing(Selected(table, q));
            var shown := Pages(list, limit, TotalPages(|list|, limit));
            CsvExport.Parse(ExportPlatformLedger(table, q, toDto)) ==
            Some([CsvExport.Columns()] + CsvExport.ReadBackAll(Rows(shown, toDto)))
  {
    hide CsvExport.Parse, CsvExport.Export, CsvExport.ReadBackAll, CsvExport.Columns, Rows, Pages, TotalPages, Listing;
    var list := Listing(Selected(table, q));
    PagesCoverListing(list, limit);
    CsvExport.ExportReadsBack(Rows(list, toDto));
  }
}
