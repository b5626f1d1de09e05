/**
 * The participant queries of lib/services/participant.ts over an in-memory
 * table: `search` keeps the rows that satisfy every active filter, sorts them
 * by the chosen column, returns the requested page window and reports the
 * number of matches and pages; `getAll` does the same with no filter and the
 * newest rows first. Every returned row is checked against the full schema.
 */
module ParticipantQuery {
  import opened Wrappers
  import opened Text
  import opened SchemaFields
  import opened ParticipantSchema
  import opened Ordering

  /** `ParticipantFilters`: each field is optional. */
  datatype Filters = Filters(
    gender: Option<Gender>,
    age_min: Option<int>,
    age_max: Option<int>,
    name: Option<string>,
    months_min: Option<int>,
    months_max: Option<int>,
    first_registration_month: Option<string>,
    phone: Option<string>,
    fee_min: Option<int>,
    fee_max: Option<int>,
    re_registration: Option<bool>,
    latest_registration: Option<string>,
    current_meeting_id: Option<string>)

  const NoFilters := Filters(None, None, None, None, None, None, None, None, None, None, None, None, None)

  /** `PaginationParams`. */
  datatype Pagination = Pagination(page: Option<int>, limit: Option<int>)

  datatype SortField = CreatedAt | Name | Age | Months | Fee
  datatype Direction = Asc | Desc
  datatype SortParams = SortParams(column: SortField, direction: Option<Direction>)

  /** `PaginatedResponse<Participant>`. */
  datatype Page = Page(data: seq<Participant>, total: nat, page: int, limit: int, totalPages: int)

  /** Why a query throws: the store reported an error, or a returned row failed the schema. */
  datatype QueryError = StoreFailure(message: string) | InvalidRow(issues: seq<Issue>)

  const DefaultPage := 1
  const DefaultLimit := 15
  const SearchFailure := "참여자 검색 실패: "
  const ListFailure := "참여자 목록 조회 실패: "

  // ---------------------------------------------------------------------------
  // Page arithmetic

  /** `v || d` for a number: a missing value or 0 falls back to `d`; anything else, negative included, is kept. */
  function NumberOr(v: Option<int>, d: int): int {
    if v.None? || v.value == 0 then d else v.value
  }

  /** `pagination.page || 1`. */
  function PageNumber(pg: Pagination): (n: int)
    ensures n != 0
    ensures pg.page.None? || pg.page == Some(0) ==> n == DefaultPage
    ensures pg.page.Some? && pg.page.value != 0 ==> n == pg.page.value
  {
    NumberOr(pg.page, DefaultPage)
  }

  function PageLimit(pg: Pagination): (limit: int)
    ensures limit != 0
  {
    NumberOr(pg.limit, DefaultLimit)
  }

  /** The first row of the requested window, counted from 0. */
  function From(page: int, limit: int): (from: int)
    ensures page == 1 ==> from == 0
    ensures page >= 1 && limit >= 0 ==> from >= 0
  {
    (page - 1) * limit
  }

  /** The last row of the requested window, inclusive. */
  function To(page: int, limit: int): (to: int)
    ensures to - From(page, limit) + 1 == limit
  {
    From(page, limit) + limit - 1
  }

  /** `Math.ceil(a / b)`. */
  function CeilDiv(a: int, b: int): (r: int)
    requires b != 0
    ensures b > 0 ==> b * (r - 1) < a <= b * r
    ensures b < 0 ==> b * r <= a < b * (r - 1)
  {
    if b > 0 then -((-a) / b) else -(a / (-b))
  }

  /** Page and limit default to 1 and 15 when missing or 0; a negative value passes through unchanged. */
  lemma PageDefaults(pg: Pagination)
    ensures pg.page.None? || pg.page == Some(0) ==> PageNumber(pg) == 1
    ensures pg.limit.None? || pg.limit == Some(0) ==> PageLimit(pg) == 15
    ensures pg.page.Some? && pg.page.value != 0 ==> PageNumber(pg) == pg.page.value
    ensures pg.limit.Some? && pg.limit.value != 0 ==> PageLimit(pg) == pg.limit.value
  {
  }

  /** The inclusive window `[from, to]` spans exactly `limit` slots, and consecutive pages abut. */
  lemma WindowSpan(page: int, limit: int)
    ensures To(page, limit) - From(page, limit) + 1 == limit
    ensures From(page + 1, limit) == To(page, limit) + 1
  {
  }

  /** `totalPages` is 0 exactly when there are no matches (for a positive limit), and otherwise
      the last page is the one holding the last match. */
  lemma TotalPagesBounds(total: nat, limit: int)
    requires limit > 0
    ensures CeilDiv(total, limit) == 0 <==> total == 0
    ensures CeilDiv(total, limit) >= 0
    ensures total > 0 ==> From(CeilDiv(total, limit), limit) < total <= To(CeilDiv(total, limit), limit) + 1
  {
  }

  // ---------------------------------------------------------------------------
  // Filters

  /** A string filter applies only when it is set and non-empty (`if (filters.name)`). */
  predicate TextActive(v: Option<string>)
    ensures TextActive(v) ==> v.Some? && |v.value| >= 1
    ensures !TextActive(v) ==> v.None? || v.value == ""
  {
    v.Some? && v.value != ""
  }

  /** `ilike '%needle%'`: a case-insensitive substring match. An empty needle matches every field,
      and no needle longer than the field matches it. */
  predicate ContainsFolded(field: string, needle: string)
    ensures ContainsFolded(field, needle) <==> exists k :: OccursAt(Lower(field), Lower(needle), k)
    ensures needle == "" ==> ContainsFolded(field, needle)
    ensures ContainsFolded(field, needle) ==> |needle| <= |field|
  {
    assert needle == "" ==> OccursAt(Lower(field), Lower(needle), 0);
    Contains(Lower(field), Lower(needle))
  }

  /** `gte(column, bound)` when a bound is given: an inclusive lower bound. */
  predicate AtLeast(x: int, bound: Option<int>)
    ensures bound.None? ==> AtLeast(x, bound)
    ensures bound.Some? ==> (AtLeast(x, bound) <==> bound.value <= x)
  {
    bound.None? || x >= bound.value
  }

  /** `lte(column, bound)` when a bound is given: an inclusive upper bound. */
  predicate AtMost(x: int, bound: Option<int>)
    ensures bound.None? ==> AtMost(x, bound)
    ensures bound.Some? ==> (AtMost(x, bound) <==> x <= bound.value)
  {
    bound.None? || x <= bound.value
  }

  /** The conjunction of the active filters, as `search` adds them to the query one by one. */
  predicate Matches(p: Participant, f: Filters)
    ensures f == NoFilters ==> Matches(p, f)
    ensures Matches(p, f) && TextActive(f.name) ==> exists k :: OccursAt(Lower(p.name), Lower(f.name.value), k)
    ensures Matches(p, f) && TextActive(f.phone) ==> exists k :: OccursAt(Lower(p.phone), Lower(f.phone.value), k)
  {
    && (f.gender.Some? ==> p.gender == f.gender.value)
    && AtLeast(p.age, f.age_min) && AtMost(p.age, f.age_max)
    && (TextActive(f.name) ==> ContainsFolded(p.name, f.name.value))
    && AtLeast(p.months, f.months_min) && AtMost(p.months, f.months_max)
    && (TextActive(f.first_registration_month) ==> p.first_registration_month == f.first_registration_month.value)
    && (TextActive(f.phone) ==> ContainsFolded(p.phone, f.phone.value))
    && AtLeast(p.fee, f.fee_min) && AtMost(p.fee, f.fee_max)
    && (f.re_registration.Some? ==> p.re_registration == f.re_registration.value)
    && (TextActive(f.latest_registration) ==> p.latest_registration == f.latest_registration.value)
    && (TextActive(f.current_meeting_id) ==> p.current_meeting_id == Present(f.current_meeting_id.value))
  }

  /** The rows that satisfy every active filter, in table order. */
  function FilterRows(rows: seq<Participant>, f: Filters): (r: seq<Participant>)
    ensures forall i :: 0 <= i < |r| ==> Matches(r[i], f)
    ensures forall x :: multiset(r)[x] == if Matches(x, f) then multiset(rows)[x] else 0
  {
    if rows == [] then []
    else
      var rest := FilterRows(rows[1..], f);
      assert rows == [rows[0]] + rows[1..];
      if Matches(rows[0], f) then [rows[0]] + rest else rest
  }

  /** An empty text filter is the same as no filter. */
  lemma EmptyTextFiltersInactive(p: Participant, f: Filters)
    ensures Matches(p, f.(name := Some(""), phone := Some(""))) == Matches(p, f.(name := None, phone := None))
    ensures Matches(p, f.(first_registration_month := Some(""))) == Matches(p, f.(first_registration_month := None))
    ensures Matches(p, f.(latest_registration := Some(""), current_meeting_id := Some("")))
         == Matches(p, f.(latest_registration := None, current_meeting_id := None))
  {
  }

  /** Numeric bounds and `re_registration` apply whenever they are given, so a bound of 0 and `false` still constrain. */
  lemma ZeroAndFalseConstrain(p: Participant)
    ensures Matches(p, NoFilters.(age_max := Some(0))) <==> p.age <= 0
    ensures Matches(p, NoFilters.(fee_max := Some(0))) <==> p.fee <= 0
    ensures Matches(p, NoFilters.(re_registration := Some(false))) <==> !p.re_registration
  {
  }

  /** A bound is inclusive, and name and phone match regardless of ASCII letter case. */
  lemma BoundsInclusiveAndCaseInsensitive(p: Participant, needle: string)
    ensures Matches(p, NoFilters.(age_min := Some(p.age), age_max := Some(p.age)))
    ensures Matches(p, NoFilters.(name := Some(needle))) == Matches(p, NoFilters.(name := Some(Lower(needle))))
  {
    LowerIdempotent(needle);
  }

  // ---------------------------------------------------------------------------
  // Order

  /** The value `order(column)` compares: `created_at` and `name` as text, the three counts as
      numbers; only a missing `created_at` gives the null key. */
  function KeyOf(p: Participant, column: SortField): (k: SortKey)
    ensures k.NullKey? <==> column == CreatedAt && p.created_at.None?
    ensures k.Str? <==> column == Name || (column == CreatedAt && p.created_at.Some?)
    ensures k.Num? <==> column in {Age, Months, Fee}
    ensures column == CreatedAt && p.created_at.Some? ==> k == Str(p.created_at.value)
    ensures column == Name ==> k == Str(p.name)
    ensures column == Age ==> k == Num(p.age)
    ensures column == Months ==> k == Num(p.months)
    ensures column == Fee ==> k == Num(p.fee)
  {
    match column
    case CreatedAt => if p.created_at.Some? then Str(p.created_at.value) else NullKey
    case Name => Str(p.name)
    case Age => Num(p.age)
    case Months => Num(p.months)
    case Fee => Num(p.fee)
  }

  /** The sort key of the column a query orders by. */
  function ColumnKey(column: SortField): (key: Participant -> SortKey)
    ensures forall p :: key(p) == KeyOf(p, column)
    ensures column != CreatedAt ==> forall p :: !key(p).NullKey?
  {
    p => KeyOf(p, column)
  }

  /** `sort?.column || 'created_at'` and `(sort?.direction || 'desc') === 'asc'`. */
  function SortColumn(sort: Option<SortParams>): (column: SortField)
    ensures sort.None? ==> column == CreatedAt
    ensures sort.Some? ==> column == sort.value.column
  {
    if sort.Some? then sort.value.column else CreatedAt
  }

  function Ascending(sort: Option<SortParams>): (asc: bool)
    ensures sort.None? ==> !asc
    ensures asc <==> sort.Some? && sort.value.direction == Some(Asc)
  {
    sort.Some? && sort.value.direction == Some(Asc)
  }

  /** Without a sort the newest rows come first; the order is ascending only when `'asc'` is asked for. */
  lemma SortDefaults(sort: Option<SortParams>)
    ensures sort.None? ==> SortColumn(sort) == CreatedAt && !Ascending(sort)
    ensures Ascending(sort) <==> sort.Some? && sort.value.direction == Some(Asc)
    ensures sort.Some? && sort.value.direction.None? ==> !Ascending(sort)
  {
  }

  // ---------------------------------------------------------------------------
  // Windows

  /** A window bound clipped into `0..n`. */
  function Clip(i: int, n: nat): (c: nat)
    ensures c <= n
    ensures i < 0 ==> c == 0
    ensures 0 <= i <= n ==> c == i
    ensures i > n ==> c == n
  {
    if i < 0 then 0 else if i > n then n else i
  }

  /** `.range(from, to)`: the rows at positions `from` through `to`, as far as they exist. */
  function Window<T>(s: seq<T>, from: int, to: int): (w: seq<T>)
    ensures Clip(from, |s|) + |w| <= |s|
    ensures forall i :: 0 <= i < |w| ==> from <= Clip(from, |s|) + i <= to && w[i] == s[Clip(from, |s|) + i]
    ensures forall j :: from <= j <= to && 0 <= j < |s| ==>
      Clip(from, |s|) <= j < Clip(from, |s|) + |w| && w[j - Clip(from, |s|)] == s[j]
  {
    var lo := Clip(from, |s|);
    var hi := Clip(to + 1, |s|);
    if lo <= hi then s[lo..hi] else []
  }

  /** A window of a sorted sequence is sorted. */
  lemma WindowSorted<T>(s: seq<T>, key: T -> SortKey, ascending: bool, from: int, to: int)
    requires SortedOn(s, key, ascending)
    ensures SortedOn(Window(s, from, to), key, ascending)
  {
    var w := Window(s, from, to);
    forall i, j | 0 <= i < j < |w| ensures Before(key(w[i]), key(w[j]), ascending) {
      assert w[i] == s[Clip(from, |s|) + i] && w[j] == s[Clip(from, |s|) + j];
    }
  }

  /** Pages 1 to `k` of `s` laid end to end. */
  function PagesUpTo<T>(s: seq<T>, limit: int, k: nat): seq<T> {
    if k == 0 then [] else PagesUpTo(s, limit, k - 1) + Window(s, From(k, limit), To(k, limit))
  }

  /** A window that starts inside or past the end of `s` is the slice between its clipped ends. */
  lemma WindowSlice<T>(s: seq<T>, m: int, limit: int)
    requires m >= 0 && limit > 0
    ensures Window(s, m, m + limit - 1) == s[Clip(m, |s|)..Clip(m + limit, |s|)]
  {
  }

  /** The rows before position `m`, followed by the window of `limit` rows from `m`, are the rows before `m + limit`. */
  lemma PrefixThenWindow<T>(s: seq<T>, m: int, limit: int)
    requires m >= 0 && limit > 0
    ensures s[..Clip(m, |s|)] + Window(s, m, m + limit - 1) == s[..Clip(m + limit, |s|)]
  {
    WindowSlice(s, m, limit);
    var a, b := Clip(m, |s|), Clip(m + limit, |s|);
    assert s[..a] + s[a..b] == s[..b];
  }

  lemma {:induction false} PagesUpToPrefix<T>(s: seq<T>, limit: int, k: nat)
    requires limit > 0
    ensures PagesUpTo(s, limit, k) == s[..Clip(k * limit, |s|)]
  {
    if k > 0 {
      PagesUpToPrefix(s, limit, k - 1);
      var m := From(k, limit);
      assert m == (k - 1) * limit && m >= 0 && k * limit == m + limit by {
        assert (k - 1) * limit + limit == k * limit;
      }
      PrefixThenWindow(s, m, limit);
    }
  }

  /** Reading pages 1 to `totalPages` in turn yields every sorted match exactly once, in order. */
  lemma PagesCoverAll<T>(s: seq<T>, limit: int)
    requires limit > 0
    ensures PagesUpTo(s, limit, CeilDiv(|s|, limit)) == s
  {
    PagesUpToPrefix(s, limit, CeilDiv(|s|, limit));
  }

  // ---------------------------------------------------------------------------
  // Validation of the returned rows

  /** The first row that is not well formed, if any. */
  function NotWellFormedAt(rows: seq<Participant>, fm: Formats): (i: nat)
    ensures i <= |rows|
    ensures forall j :: 0 <= j < i ==> WellFormed(rows[j], fm)
    ensures i < |rows| ==> !WellFormed(rows[i], fm)
  {
    if rows == [] || !WellFormed(rows[0], fm) then 0
    else
      var i := NotWellFormedAt(rows[1..], fm);
      assert forall j :: 1 <= j <= i ==> rows[j] == rows[1..][j - 1];
      1 + i
  }

  /** `data.map(item => participantSchema.parse(item))`: the rows unchanged, or the issues of the first row that fails. */
  function ValidateRows(rows: seq<Participant>, fm: Formats): (r: Result<seq<Participant>, seq<Issue>>)
    ensures r.Ok? <==> forall i :: 0 <= i < |rows| ==> WellFormed(rows[i], fm)
    ensures r.Ok? ==> r.value == rows
  {
    if rows == [] then Ok([])
    else
      match Revalidate(rows[0], fm)
      case Err(issues) => Err(issues)
      case Ok(p) =>
        match ValidateRows(rows[1..], fm)
        case Err(issues) =>
          assert !WellFormed(rows[1..][NotWellFormedAt(rows[1..], fm)], fm);
          Err(issues)
        case Ok(rest) =>
          assert rows == [rows[0]] + rows[1..];
          Ok([p] + rest)
  }

  // ---------------------------------------------------------------------------
  // The two queries

  /** The rows a query returns, the count and the page figures. */
  function Respond(rows: seq<Participant>, f: Filters, pg: Pagination, column: SortField, ascending: bool, fm: Formats)
    : (r: Result<Page, QueryError>)
    ensures r.Err? ==> r.error.InvalidRow?
    ensures r.Ok? ==> r.value.total == |FilterRows(rows, f)| && r.value.page == PageNumber(pg) && r.value.limit == PageLimit(pg)
    ensures r.Ok? ==> r.value.totalPages == CeilDiv(r.value.total, r.value.limit)
  {
    var page := PageNumber(pg);
    var limit := PageLimit(pg);
    var matches := FilterRows(rows, f);
    var data := Window(SortOn(matches, ColumnKey(column), ascending), From(page, limit), To(page, limit));
    match ValidateRows(data, fm)
    case Err(issues) => Err(InvalidRow(issues))
    case Ok(valid) => Ok(Page(valid, |matches|, page, limit, CeilDiv(|matches|, limit)))
  }

  /** `search(filters, pagination, sort)` on `rows`, the table in the order the store reads it for
      this query; `fault` is the error the store reports, if any. */
  function Search(rows: seq<Participant>, f: Filters, pg: Pagination, sort: Option<SortParams>, fault: Option<string>, fm: Formats)
    : (r: Result<Page, QueryError>)
    ensures fault.Some? ==> r == Err(StoreFailure(SearchFailure + fault.value))
    ensures r.Ok? ==> forall i :: 0 <= i < |r.value.data| ==>
      Matches(r.value.data[i], f) && r.value.data[i] in rows && WellFormed(r.value.data[i], fm)
    ensures r.Ok? ==> SortedOn(r.value.data, ColumnKey(SortColumn(sort)), Ascending(sort))
    ensures r.Ok? ==> r.value.total == |FilterRows(rows, f)| && r.value.page == PageNumber(pg) && r.value.limit == PageLimit(pg)
    ensures r.Ok? ==> r.value.totalPages == CeilDiv(r.value.total, r.value.limit)
    ensures r.Ok? && r.value.limit > 0 ==> |r.value.data| <= r.value.limit
    ensures fault.None? && (forall x :: x in rows && Matches(x, f) ==> WellFormed(x, fm)) ==> r.Ok?
  {
    if fault.Some? then Err(StoreFailure(SearchFailure + fault.value))
    else
      RespondRows(rows, f, pg, SortColumn(sort), Ascending(sort), fm);
      RespondFigures(rows, f, pg, SortColumn(sort), Ascending(sort), fm);
      Respond(rows, f, pg, SortColumn(sort), Ascending(sort), fm)
  }

  /** `getAll(pagination)` on `rows`, read in the store's order for this query: no filter, newest first. */
  function GetAll(rows: seq<Participant>, pg: Pagination, fault: Option<string>, fm: Formats): (r: Result<Page, QueryError>)
    ensures fault.Some? ==> r == Err(StoreFailure(ListFailure + fault.value))
    ensures r.Ok? ==> SortedOn(r.value.data, ColumnKey(CreatedAt), false)
    ensures r.Ok? ==> r.value.total == |rows|
    ensures r.Ok? ==> forall i :: 0 <= i < |r.value.data| ==> r.value.data[i] in rows && WellFormed(r.value.data[i], fm)
    ensures fault.None? && (forall x :: x in rows ==> WellFormed(x, fm)) ==> r.Ok?
  {
    if fault.Some? then Err(StoreFailure(ListFailure + fault.value))
    else
      RespondRows(rows, NoFilters, pg, CreatedAt, false, fm);
      RespondFigures(rows, NoFilters, pg, CreatedAt, false, fm);
      AllMatch(rows);
      Respond(rows, NoFilters, pg, CreatedAt, false, fm)
  }

  lemma {:induction false} AllMatch(rows: seq<Participant>)
    ensures FilterRows(rows, NoFilters) == rows
  {
    if rows != [] {
      AllMatch(rows[1..]);
      assert Matches(rows[0], NoFilters);
      assert rows == [rows[0]] + rows[1..];
    }
  }

  /** A row of a window of the sorted matches is a matching row of the table. */
  lemma WindowRowMatches(rows: seq<Participant>, f: Filters, sorted: seq<Participant>, w: seq<Participant>, from: int, to: int, i: int)
    requires multiset(sorted) == multiset(FilterRows(rows, f))
    requires w == Window(sorted, from, to) && 0 <= i < |w|
    ensures Matches(w[i], f) && w[i] in rows
  {
    var x := w[i];
    assert x in multiset(sorted);
    assert multiset(FilterRows(rows, f))[x] > 0;
  }

  lemma RespondRows(rows: seq<Participant>, f: Filters, pg: Pagination, column: SortField, ascending: bool, fm: Formats)
    ensures var r := Respond(rows, f, pg, column, ascending, fm);
      && (r.Ok? ==> forall i :: 0 <= i < |r.value.data| ==>
            Matches(r.value.data[i], f) && r.value.data[i] in rows && WellFormed(r.value.data[i], fm))
      && (r.Ok? ==> SortedOn(r.value.data, ColumnKey(column), ascending))
      && ((forall x :: x in rows && Matches(x, f) ==> WellFormed(x, fm)) ==> r.Ok?)
  {
    var page := PageNumber(pg);
    var limit := PageLimit(pg);
    var sorted := SortOn(FilterRows(rows, f), ColumnKey(column), ascending);
    var data := Window(sorted, From(page, limit), To(page, limit));
    forall i | 0 <= i < |data| ensures Matches(data[i], f) && data[i] in rows {
      WindowRowMatches(rows, f, sorted, data, From(page, limit), To(page, limit), i);
    }
    WindowSorted(sorted, ColumnKey(column), ascending, From(page, limit), To(page, limit));
  }

  lemma RespondFigures(rows: seq<Participant>, f: Filters, pg: Pagination, column: SortField, ascending: bool, fm: Formats)
    ensures var r := Respond(rows, f, pg, column, ascending, fm);
      r.Ok? && r.value.limit > 0 ==> |r.value.data| <= r.value.limit
  {
    var page := PageNumber(pg);
    var limit := PageLimit(pg);
    var sorted := SortOn(FilterRows(rows, f), ColumnKey(column), ascending);
    var data := Window(sorted, From(page, limit), To(page, limit));
    if data != [] {
      assert From(page, limit) <= Clip(From(page, limit), |sorted|) + |data| - 1 <= To(page, limit);
    }
    assert ValidateRows(data, fm).Ok? ==> ValidateRows(data, fm).value == data;
  }

  /** An answered query shows window `[from, to]` of its matches sorted in the order the store
      read the table in. */
  lemma RespondIsWindow(rows: seq<Participant>, f: Filters, pg: Pagination, column: SortField, ascending: bool, fm: Formats)
    ensures var r := Respond(rows, f, pg, column, ascending, fm);
      r.Ok? ==> r.value.data == Window(SortOn(FilterRows(rows, f), ColumnKey(column), ascending),
                                       From(r.value.page, r.value.limit), To(r.value.page, r.value.limit))
  {
  }

  /** Filtering does not depend on the order the table is read in. */
  lemma FilterRowsPermutation(a: seq<Participant>, b: seq<Participant>, f: Filters)
    requires multiset(a) == multiset(b)
    ensures multiset(FilterRows(a, f)) == multiset(FilterRows(b, f))
  {
    forall x ensures multiset(FilterRows(a, f))[x] == multiset(FilterRows(b, f))[x] {
    }
  }

  /** Sorting the matches of two readings of the same table gives the same order when no two
      matches share a sort key. */
  lemma SortedMatchesAgree(a: seq<Participant>, b: seq<Participant>, f: Filters, column: SortField, ascending: bool)
    requires multiset(a) == multiset(b)
    requires UniqueKeys(FilterRows(b, f), ColumnKey(column))
    ensures SortOn(FilterRows(a, f), ColumnKey(column), ascending) == SortOn(FilterRows(b, f), ColumnKey(column), ascending)
  {
    FilterRowsPermutation(a, b, f);
    var t := SortOn(FilterRows(a, f), ColumnKey(column), ascending);
    var u := SortOn(FilterRows(b, f), ColumnKey(column), ascending);
    forall x, y | x in u && y in u && ColumnKey(column)(x) == ColumnKey(column)(y) ensures x == y {
      assert x in multiset(u) && y in multiset(u);
      assert x in FilterRows(b, f) && y in FilterRows(b, f);
    }
    SortedPermutationUnique(u, t, ColumnKey(column), ascending);
  }

  /** When no two matches share a sort key, a query answers the same whatever order the store
      reads the table in. */
  lemma RespondIgnoresReadOrder(a: seq<Participant>, b: seq<Participant>, f: Filters, pg: Pagination,
                                column: SortField, ascending: bool, fm: Formats)
    requires multiset(a) == multiset(b)
    requires UniqueKeys(FilterRows(b, f), ColumnKey(column))
    ensures Respond(a, f, pg, column, ascending, fm) == Respond(b, f, pg, column, ascending, fm)
  {
    SortedMatchesAgree(a, b, f, column, ascending);
    FilterRowsPermutation(a, b, f);
    assert |FilterRows(a, f)| == |multiset(FilterRows(a, f))| == |FilterRows(b, f)|;
  }

  /** `data` is window `[from, to]` of page `page` of some arrangement of the rows `m` sorted on `column`. */
  ghost predicate SortedWindow(data: seq<Participant>, m: multiset<Participant>, column: SortField, ascending: bool,
                               page: int, limit: int) {
    exists t :: SortedOn(t, ColumnKey(column), ascending) && multiset(t) == m
             && data == Window(t, From(page, limit), To(page, limit))
  }

  /** `getAll` and an unfiltered `search` with the default sort are separate queries, each reading
      the table in an order of its own (`a` and `b`). They report the same figures; each shows its
      window of some newest-first arrangement of the whole table; and when no two rows share a
      `created_at` they show the same rows. */
  lemma GetAllIsUnfilteredSearch(a: seq<Participant>, b: seq<Participant>, pg: Pagination, fm: Formats)
    requires multiset(a) == multiset(b)
    ensures var g := GetAll(a, pg, None, fm);
      var s := Search(b, NoFilters, pg, None, None, fm);
      && (g.Ok? && s.Ok? ==>
            g.value.total == s.value.total && g.value.page == s.value.page
            && g.value.limit == s.value.limit && g.value.totalPages == s.value.totalPages)
      && (g.Ok? ==> SortedWindow(g.value.data, multiset(b), CreatedAt, false, g.value.page, g.value.limit))
      && (s.Ok? ==> SortedWindow(s.value.data, multiset(b), CreatedAt, false, s.value.page, s.value.limit))
      && (UniqueKeys(b, ColumnKey(CreatedAt)) ==> g == s)
  {
    AllMatch(a);
    AllMatch(b);
    assert |a| == |multiset(a)| == |b|;
    RespondIsWindow(a, NoFilters, pg, CreatedAt, false, fm);
    RespondIsWindow(b, NoFilters, pg, CreatedAt, false, fm);
    if UniqueKeys(b, ColumnKey(CreatedAt)) {
      RespondIgnoresReadOrder(a, b, NoFilters, pg, CreatedAt, false, fm);
    }
  }

  /** A store error always throws; it never shows up as an empty page. */
  lemma FaultNeverEmptyPage(rows: seq<Participant>, f: Filters, pg: Pagination, sort: Option<SortParams>, msg: string, fm: Formats)
    ensures Search(rows, f, pg, sort, Some(msg), fm).Err?
    ensures GetAll(rows, pg, Some(msg), fm).Err?
  {
  }

  /** Pages 1 to `k` laid end to end, page `j` being `page(j)`. */
  function Concat<T>(page: nat -> seq<T>, k: nat): seq<T> {
    if k == 0 then [] else Concat(page, k - 1) + page(k)
  }

  lemma ConcatTwo<T>(page: nat -> seq<T>)
    ensures Concat(page, 2) == page(1) + page(2)
  {
    assert Concat(page, 1) == page(1);
  }

  /** Laying out pages that are each the matching window of `s` is laying out the windows. */
  lemma {:induction false} ConcatWindows<T>(page: nat -> seq<T>, s: seq<T>, limit: int, k: nat)
    requires forall j: nat :: 1 <= j <= k ==> page(j) == Window(s, From(j, limit), To(j, limit))
    ensures Concat(page, k) == PagesUpTo(s, limit, k)
  {
    if k > 0 {
      ConcatWindows(page, s, limit, k - 1);
    }
  }

  /** The rows page `k` of a search shows when the store reads the table as `scan`, or nothing when
      that search throws. */
  function SearchData(scan: seq<Participant>, f: Filters, limit: int, sort: Option<SortParams>, fm: Formats, k: nat)
    : seq<Participant>
  {
    var r := Search(scan, f, Pagination(Some(k), Some(limit)), sort, None, fm);
    if r.Ok? then r.value.data else []
  }

  /** Each page is fetched by a query of its own, and each query may read the table in a different
      order: `scans(j)` is the table as the query for page `j` reads it. */
  function PageReader(scans: nat -> seq<Participant>, f: Filters, limit: int, sort: Option<SortParams>, fm: Formats)
    : nat -> seq<Participant>
  {
    (k: nat) => SearchData(scans(k), f, limit, sort, fm, k)
  }

  /** Every query reads the same rows of `rows`; only the order differs. */
  ghost predicate SameTable(scans: nat -> seq<Participant>, rows: seq<Participant>) {
    forall j: nat :: multiset(scans(j)) == multiset(rows)
  }

  /** The rows of pages 1 to `k` laid end to end, each fetched by its own `search` with the same
      filters, sort and limit. */
  function SearchPages(scans: nat -> seq<Participant>, f: Filters, limit: int, sort: Option<SortParams>, fm: Formats, k: nat)
    : seq<Participant>
  {
    Concat(PageReader(scans, f, limit, sort, fm), k)
  }

  /** Page `k` of a search is window `k` of the matches sorted in the order the store read them. */
  lemma SearchPageOfScan(scan: seq<Participant>, f: Filters, limit: int, sort: Option<SortParams>, fm: Formats, k: nat)
    requires limit > 0 && k > 0
    requires forall x :: x in scan && Matches(x, f) ==> WellFormed(x, fm)
    ensures var r := Search(scan, f, Pagination(Some(k), Some(limit)), sort, None, fm);
      var sorted := SortOn(FilterRows(scan, f), ColumnKey(SortColumn(sort)), Ascending(sort));
      r.Ok? && r.value.data == Window(sorted, From(k, limit), To(k, limit))
  {
    var pg := Pagination(Some(k), Some(limit));
    assert PageNumber(pg) == k && PageLimit(pg) == limit;
    var sorted := SortOn(FilterRows(scan, f), ColumnKey(SortColumn(sort)), Ascending(sort));
    var data := Window(sorted, From(k, limit), To(k, limit));
    forall i | 0 <= i < |data| ensures WellFormed(data[i], fm) {
      WindowRowMatches(scan, f, sorted, data, From(k, limit), To(k, limit), i);
    }
    assert ValidateRows(data, fm) == Ok(data);
    assert Search(scan, f, pg, sort, None, fm) == Respond(scan, f, pg, SortColumn(sort), Ascending(sort), fm);
  }

  /** Whatever order the store reads the table in, page `k` is window `k` of some sorted
      arrangement of the table's matches. */
  lemma SearchPageIsSortedWindow(scan: seq<Participant>, rows: seq<Participant>, f: Filters, limit: int,
                                 sort: Option<SortParams>, fm: Formats, k: nat)
    requires multiset(scan) == multiset(rows)
    requires limit > 0 && k > 0
    requires forall x :: x in rows && Matches(x, f) ==> WellFormed(x, fm)
    ensures var r := Search(scan, f, Pagination(Some(k), Some(limit)), sort, None, fm);
      r.Ok? && SortedWindow(r.value.data, multiset(FilterRows(rows, f)), SortColumn(sort), Ascending(sort), k, limit)
  {
    forall x | x in scan && Matches(x, f) ensures WellFormed(x, fm) {
      assert x in multiset(rows);
    }
    SearchPageOfScan(scan, f, limit, sort, fm, k);
    FilterRowsPermutation(scan, rows, f);
  }

  /** When no two matches share the sort key, page `k` is window `k` of the one sorted order of the
      matches, whatever order the store reads the table in. */
  lemma SearchPageIsWindow(scan: seq<Participant>, rows: seq<Participant>, f: Filters, limit: int,
                           sort: Option<SortParams>, fm: Formats, k: nat)
    requires multiset(scan) == multiset(rows)
    requires limit > 0 && k > 0
    requires forall x :: x in rows && Matches(x, f) ==> WellFormed(x, fm)
    requires UniqueKeys(FilterRows(rows, f), ColumnKey(SortColumn(sort)))
    ensures var r := Search(scan, f, Pagination(Some(k), Some(limit)), sort, None, fm);
      var sorted := SortOn(FilterRows(rows, f), ColumnKey(SortColumn(sort)), Ascending(sort));
      r.Ok? && r.value.data == Window(sorted, From(k, limit), To(k, limit))
  {
    forall x | x in scan && Matches(x, f) ensures WellFormed(x, fm) {
      assert x in multiset(rows);
    }
    SearchPageOfScan(scan, f, limit, sort, fm, k);
    SortedMatchesAgree(scan, rows, f, SortColumn(sort), Ascending(sort));
  }

  /** When no two matches share the sort key, every page a search shows is the matching window of
      the one sorted order of the matches. */
  lemma PagesAreWindows(scans: nat -> seq<Participant>, rows: seq<Participant>, f: Filters, limit: int,
                        sort: Option<SortParams>, fm: Formats)
    requires SameTable(scans, rows)
    requires limit > 0
    requires forall x :: x in rows && Matches(x, f) ==> WellFormed(x, fm)
    requires UniqueKeys(FilterRows(rows, f), ColumnKey(SortColumn(sort)))
    ensures var sorted := SortOn(FilterRows(rows, f), ColumnKey(SortColumn(sort)), Ascending(sort));
      forall j: nat :: 1 <= j ==> PageReader(scans, f, limit, sort, fm)(j) == Window(sorted, From(j, limit), To(j, limit))
  {
    forall j: nat | 1 <= j
      ensures PageReader(scans, f, limit, sort, fm)(j)
           == Window(SortOn(FilterRows(rows, f), ColumnKey(SortColumn(sort)), Ascending(sort)), From(j, limit), To(j, limit))
    {
      SearchPageIsWindow(scans(j), rows, f, limit, sort, fm, j);
    }
  }

  /** Paging through pages 1 to `totalPages` of a search, with the table unchanged in between,
      shows every matching row exactly once and in sorted order, provided no two matches share the
      sort key (`TiedKeysRepeatRow` shows what happens otherwise). */
  lemma SearchPagesCoverMatches(scans: nat -> seq<Participant>, rows: seq<Participant>, f: Filters, limit: int,
                                sort: Option<SortParams>, fm: Formats)
    requires SameTable(scans, rows)
    requires limit > 0
    requires forall x :: x in rows && Matches(x, f) ==> WellFormed(x, fm)
    requires UniqueKeys(FilterRows(rows, f), ColumnKey(SortColumn(sort)))
    ensures var n := CeilDiv(|FilterRows(rows, f)|, limit);
      && n >= 0
      && SearchPages(scans, f, limit, sort, fm, n) == SortOn(FilterRows(rows, f), ColumnKey(SortColumn(sort)), Ascending(sort))
      && multiset(SearchPages(scans, f, limit, sort, fm, n)) == multiset(FilterRows(rows, f))
  {
    var matches := FilterRows(rows, f);
    var sorted := SortOn(matches, ColumnKey(SortColumn(sort)), Ascending(sort));
    assert |sorted| == |matches| by {
      assert |multiset(sorted)| == |multiset(matches)|;
    }
    TotalPagesBounds(|matches|, limit);
    var n := CeilDiv(|matches|, limit);
    var page := PageReader(scans, f, limit, sort, fm);
    PagesAreWindows(scans, rows, f, limit, sort, fm);
    ConcatWindows(page, sorted, limit, n);
    PagesCoverAll(sorted, limit);
  }

  /** The table `[p, q]` read in that order for page 1 and the other way round for every other page. */
  function SwappedScans(p: Participant, q: Participant): nat -> seq<Participant> {
    (j: nat) => if j == 1 then [p, q] else [q, p]
  }

  /** Two rows that share the sort key keep the order they are read in. */
  lemma SortTiedPair(x: Participant, y: Participant, key: Participant -> SortKey, ascending: bool)
    requires key(x) == key(y)
    ensures SortOn([x, y], key, ascending) == [x, y]
  {
    KeyLeTotal(key(x), key(x));
    assert [x, y][1..] == [y];
    assert SortOn([y], key, ascending) == [y];
  }

  /** Two matching rows both pass the filter, in the order they are read in. */
  lemma FilterMatchingPair(x: Participant, y: Participant, f: Filters)
    requires Matches(x, f) && Matches(y, f)
    ensures FilterRows([x, y], f) == [x, y]
  {
    assert [x, y][1..] == [y];
  }

  /** The first and second windows of one row each of `[x, y]`. */
  lemma PairWindows(x: Participant, y: Participant)
    ensures Window([x, y], From(1, 1), To(1, 1)) == [x]
    ensures Window([x, y], From(2, 1), To(2, 1)) == [y]
  {
  }

  /** A page of the table `[x, y]` with a limit of one, where both rows match and share the sort key. */
  lemma TiedPairPage(x: Participant, y: Participant, f: Filters, sort: Option<SortParams>, fm: Formats, k: nat)
    requires Matches(x, f) && Matches(y, f) && WellFormed(x, fm) && WellFormed(y, fm)
    requires KeyOf(x, SortColumn(sort)) == KeyOf(y, SortColumn(sort))
    requires k > 0
    ensures SearchData([x, y], f, 1, sort, fm, k) == Window([x, y], From(k, 1), To(k, 1))
  {
    FilterMatchingPair(x, y, f);
    SortTiedPair(x, y, ColumnKey(SortColumn(sort)), Ascending(sort));
    SearchPageOfScan([x, y], f, 1, sort, fm, k);
  }

  /** Reading the same two rows in either order reads the same table. */
  lemma SwappedSameTable(p: Participant, q: Participant)
    ensures SameTable(SwappedScans(p, q), [p, q])
  {
    assert multiset([q, p]) == multiset([p, q]);
  }

  /** The page a reader gives for page `j` is what the search over that page's reading of the table shows. */
  lemma ReaderPage(scans: nat -> seq<Participant>, f: Filters, sort: Option<SortParams>, fm: Formats, j: nat,
                    s: seq<Participant>, v: seq<Participant>)
    requires scans(j) == s && SearchData(s, f, 1, sort, fm, j) == v
    ensures PageReader(scans, f, 1, sort, fm)(j) == v
  {
  }

  lemma ConcatRepeat<T>(page: nat -> seq<T>, x: T)
    requires page(1) == [x] && page(2) == [x]
    ensures Concat(page, 2) == [x, x]
  {
    ConcatTwo(page);
  }

  lemma TiedKeysRepeatRow(p: Participant, q: Participant, f: Filters, sort: Option<SortParams>, fm: Formats)
    requires p != q
    requires Matches(p, f) && Matches(q, f) && WellFormed(p, fm) && WellFormed(q, fm)
    requires KeyOf(p, SortColumn(sort)) == KeyOf(q, SortColumn(sort))
    ensures SameTable(SwappedScans(p, q), [p, q])
    ensures CeilDiv(|FilterRows([p, q], f)|, 1) == 2
    ensures SearchPages(SwappedScans(p, q), f, 1, sort, fm, 2) == [p, p]
    ensures multiset(SearchPages(SwappedScans(p, q), f, 1, sort, fm, 2)) != multiset(FilterRows([p, q], f))
  {
    SwappedSameTable(p, q);
    FilterMatchingPair(p, q, f);
    var scans := SwappedScans(p, q);
    assert scans(1) == [p, q];
    assert scans(2) == [q, p];
    PairWindows(p, q);
    PairWindows(q, p);
    TiedPairPage(p, q, f, sort, fm, 1);
    ReaderPage(scans, f, sort, fm, 1, [p, q], [p]);
    TiedPairPage(q, p, f, sort, fm, 2);
    ReaderPage(scans, f, sort, fm, 2, [q, p], [p]);
    ConcatRepeat(PageReader(scans, f, 1, sort, fm), p);
    assert multiset([p, p])[q] == 0 < multiset([p, q])[q];
  }
}
