/**
 * The participant filter panel (components/participants/participant-filters.tsx):
 * slider and text inputs are kept as local state, clamped to fixed limits, and
 * translated into a participant filter when the user searches.
 */
module FilterPanel {
  import opened Wrappers
  import opened SchemaFields
  import opened ParticipantQuery
  import opened ParticipantStore

  datatype RangeLimits = RangeLimits(min: int, max: int)

  /** A slider's `[start, end]`. */
  datatype RangeValue = RangeValue(start: int, end: int)

  datatype GenderFilter = AllGenders | OnlyGender(gender: Gender)

  /** The panel's local state. The meeting select holds a meeting id or the literal `'all'`. */
  datatype FilterState = FilterState(
    name: string,
    phone: string,
    ageRange: RangeValue,
    feeRange: RangeValue,
    monthsRange: RangeValue,
    first_registration_month: string,
    latest_registration: string,
    gender: GenderFilter,
    current_meeting_id: string)

  const AgeLimits := RangeLimits(15, 55)
  const FeeLimits := RangeLimits(0, 200000)
  const MonthsLimits := RangeLimits(0, 50)
  const AllMeetings := "all"

  function Min(a: int, b: int): int { if a <= b then a else b }
  function Max(a: int, b: int): int { if a >= b then a else b }

  /** The range lies inside the limits and does not run backwards. */
  predicate Within(v: RangeValue, limits: RangeLimits) {
    limits.min <= v.start <= v.end <= limits.max
  }

  /** `clampRange`: a missing start or end takes the limit's min or max; the start is clamped
      into the limits and the end into `[start, max]`. */
  function ClampRange(value: seq<int>, limits: RangeLimits): (r: RangeValue)
    ensures limits.min <= limits.max ==> Within(r, limits)
    ensures |value| >= 1 && limits.min <= value[0] <= limits.max ==> r.start == value[0]
    ensures |value| >= 2 && r.start <= value[1] <= limits.max ==> r.end == value[1]
    ensures |value| == 0 && limits.min <= limits.max ==> r == RangeValue(limits.min, limits.max)
    ensures |value| == 1 ==> r.end == limits.max
  {
    var start := if |value| >= 1 then value[0] else limits.min;
    var end := if |value| >= 2 then value[1] else limits.max;
    var clampedStart := Min(Max(start, limits.min), limits.max);
    var clampedEnd := Min(Max(end, clampedStart), limits.max);
    RangeValue(clampedStart, clampedEnd)
  }

  /** A range already inside the limits is left as it is, so clamping twice is clamping once. */
  lemma ClampIdempotent(value: seq<int>, limits: RangeLimits)
    requires limits.min <= limits.max
    ensures var r := ClampRange(value, limits);
      ClampRange([r.start, r.end], limits) == r
  {
  }

  /** Clamping changes nothing exactly when the given pair is already inside the limits. */
  lemma ClampFixesExactlyWithin(v: RangeValue, limits: RangeLimits)
    requires limits.min <= limits.max
    ensures ClampRange([v.start, v.end], limits) == v <==> Within(v, limits)
  {
  }

  /** `isFullRange`: the slider spans the whole allowed range, so it filters nothing. */
  predicate IsFullRange(v: RangeValue, limits: RangeLimits)
    ensures IsFullRange(v, limits) && limits.min <= limits.max ==> Within(v, limits)
  {
    v.start == limits.min && v.end == limits.max
  }

  /** `s || d` on an optional string: a missing or empty string falls back to `d`, any other is kept. */
  function TextOr(v: Option<string>, d: string): (s: string)
    ensures v.None? || v.value == "" ==> s == d
    ensures v.Some? && v.value != "" ==> s == v.value
    ensures s == d || v == Some(s)
  {
    if v.Some? && v.value != "" then v.value else d
  }

  /** `v ?? d` on an optional number: only a missing value is replaced, 0 is kept. */
  function NumberOrElse(v: Option<int>, d: int): (n: int)
    ensures v.None? ==> n == d
    ensures v.Some? ==> n == v.value
    ensures v == Some(0) ==> n == 0
  {
    if v.Some? then v.value else d
  }

  /** `buildLocalFilters`: the panel state that shows a stored filter. */
  function BuildLocalFilters(f: Filters): (l: FilterState)
    ensures l.name == TextOr(f.name, "") && l.phone == TextOr(f.phone, "")
    ensures (l.gender == AllGenders) <==> f.gender.None?
    ensures (l.current_meeting_id == AllMeetings) <==> (f.current_meeting_id.None? || f.current_meeting_id.value in {"", AllMeetings})
    ensures f.age_min.None? && f.age_max.None? ==> IsFullRange(l.ageRange, AgeLimits)
    ensures f.fee_min.None? && f.fee_max.None? ==> IsFullRange(l.feeRange, FeeLimits)
    ensures f.months_min.None? && f.months_max.None? ==> IsFullRange(l.monthsRange, MonthsLimits)
  {
    FilterState(
      TextOr(f.name, ""),
      TextOr(f.phone, ""),
      RangeValue(NumberOrElse(f.age_min, AgeLimits.min), NumberOrElse(f.age_max, AgeLimits.max)),
      RangeValue(NumberOrElse(f.fee_min, FeeLimits.min), NumberOrElse(f.fee_max, FeeLimits.max)),
      RangeValue(NumberOrElse(f.months_min, MonthsLimits.min), NumberOrElse(f.months_max, MonthsLimits.max)),
      TextOr(f.first_registration_month, ""),
      TextOr(f.latest_registration, ""),
      if f.gender.Some? then OnlyGender(f.gender.value) else AllGenders,
      TextOr(f.current_meeting_id, AllMeetings))
  }

  /** `s || undefined`: the empty string becomes a missing value, and `s || ''` undoes it. */
  function NonEmpty(s: string): (v: Option<string>)
    ensures v.None? <==> s == ""
    ensures v.Some? ==> v.value == s
    ensures TextOr(v, "") == s
  {
    if s == "" then None else Some(s)
  }

  /** `buildFilters`: the text and select fields first, then each range that is not full. */
  function BuildFilters(l: FilterState): (f: Filters)
    ensures (f.name.None? <==> l.name == "") && (f.phone.None? <==> l.phone == "")
    ensures f.first_registration_month.None? <==> l.first_registration_month == ""
    ensures f.latest_registration.None? <==> l.latest_registration == ""
    ensures f.gender.None? <==> l.gender == AllGenders
    ensures f.current_meeting_id.None? <==> l.current_meeting_id == AllMeetings
    ensures f.re_registration.None?
    ensures (f.age_min.Some? <==> !IsFullRange(l.ageRange, AgeLimits)) && (f.age_min.Some? <==> f.age_max.Some?)
    ensures (f.fee_min.Some? <==> !IsFullRange(l.feeRange, FeeLimits)) && (f.fee_min.Some? <==> f.fee_max.Some?)
    ensures (f.months_min.Some? <==> !IsFullRange(l.monthsRange, MonthsLimits)) && (f.months_min.Some? <==> f.months_max.Some?)
  {
    var next := NoFilters.(
      name := NonEmpty(l.name),
      phone := NonEmpty(l.phone),
      first_registration_month := NonEmpty(l.first_registration_month),
      latest_registration := NonEmpty(l.latest_registration),
      gender := if l.gender == AllGenders then None else Some(l.gender.gender),
      current_meeting_id := if l.current_meeting_id == AllMeetings then None else Some(l.current_meeting_id));
    var next := if !IsFullRange(l.ageRange, AgeLimits)
      then next.(age_min := Some(l.ageRange.start), age_max := Some(l.ageRange.end)) else next;
    var next := if !IsFullRange(l.feeRange, FeeLimits)
      then next.(fee_min := Some(l.feeRange.start), fee_max := Some(l.feeRange.end)) else next;
    var next := if !IsFullRange(l.monthsRange, MonthsLimits)
      then next.(months_min := Some(l.monthsRange.start), months_max := Some(l.monthsRange.end)) else next;
    next
  }

  /** A range filter as `buildFilters` writes it: both bounds or neither, and never the full range. */
  predicate CanonicalRange(lo: Option<int>, hi: Option<int>, limits: RangeLimits) {
    lo.Some? == hi.Some? && (lo.Some? ==> lo.value != limits.min || hi.value != limits.max)
  }

  /** The filters `buildFilters` can produce: no empty strings, no `'all'` meeting, no `re_registration`. */
  predicate Canonical(f: Filters)
    ensures Canonical(f) ==> BuildFilters(BuildLocalFilters(f)) == f
  {
    && f.name != Some("") && f.phone != Some("")
    && f.first_registration_month != Some("") && f.latest_registration != Some("")
    && f.current_meeting_id != Some("") && f.current_meeting_id != Some(AllMeetings)
    && f.re_registration.None?
    && CanonicalRange(f.age_min, f.age_max, AgeLimits)
    && CanonicalRange(f.fee_min, f.fee_max, FeeLimits)
    && CanonicalRange(f.months_min, f.months_max, MonthsLimits)
  }

  /** Showing a built filter gives the panel state back, unless the meeting select held the empty id. */
  lemma LocalRoundTrip(l: FilterState)
    requires l.current_meeting_id != ""
    ensures BuildLocalFilters(BuildFilters(l)) == l
  {
  }

  /** Building from a shown filter gives the filter back exactly when it is canonical,
      and every filter built from a panel with a meeting id or `'all'` is canonical. */
  lemma FilterRoundTrip(f: Filters, l: FilterState)
    ensures BuildFilters(BuildLocalFilters(f)) == f <==> Canonical(f)
    ensures l.current_meeting_id != "" ==> Canonical(BuildFilters(l))
  {
  }

  /** An empty stored filter shows as empty text, `'all'` selects and full ranges. */
  lemma EmptyFilterShowsDefaults()
    ensures BuildLocalFilters(NoFilters) ==
      FilterState("", "", RangeValue(15, 55), RangeValue(0, 200000), RangeValue(0, 50), "", "", AllGenders, "all")
    ensures BuildFilters(BuildLocalFilters(NoFilters)) == NoFilters
  {
  }

  /** The panel: its local state, and the shared list cells it writes on search and reset. */
  class Panel {
    var local: FilterState
    const list: ListState

    /** The panel opens showing the stored filter. */
    constructor(list: ListState)
      ensures this.list == list && local == BuildLocalFilters(list.filters)
    {
      this.list := list;
      local := BuildLocalFilters(list.filters);
    }

    method SetName(v: string)
      modifies this
      ensures local == old(local).(name := v)
    {
      local := local.(name := v);
    }

    method SetPhone(v: string)
      modifies this
      ensures local == old(local).(phone := v)
    {
      local := local.(phone := v);
    }

    method SetGender(v: GenderFilter)
      modifies this
      ensures local == old(local).(gender := v)
    {
      local := local.(gender := v);
    }

    method SetMeeting(v: string)
      modifies this
      ensures local == old(local).(current_meeting_id := v)
    {
      local := local.(current_meeting_id := v);
    }

    method SetFirstRegistrationMonth(v: string)
      modifies this
      ensures local == old(local).(first_registration_month := v)
    {
      local := local.(first_registration_month := v);
    }

    method SetLatestRegistration(v: string)
      modifies this
      ensures local == old(local).(latest_registration := v)
    {
      local := local.(latest_registration := v);
    }

    /** A slider move stores the clamped range, so the age range is always inside its limits afterwards. */
    method SetAgeRange(value: seq<int>)
      modifies this
      ensures local == old(local).(ageRange := ClampRange(value, AgeLimits))
      ensures Within(local.ageRange, AgeLimits)
    {
      local := local.(ageRange := ClampRange(value, AgeLimits));
    }

    method SetFeeRange(value: seq<int>)
      modifies this
      ensures local == old(local).(feeRange := ClampRange(value, FeeLimits))
      ensures Within(local.feeRange, FeeLimits)
    {
      local := local.(feeRange := ClampRange(value, FeeLimits));
    }

    method SetMonthsRange(value: seq<int>)
      modifies this
      ensures local == old(local).(monthsRange := ClampRange(value, MonthsLimits))
      ensures Within(local.monthsRange, MonthsLimits)
    {
      local := local.(monthsRange := ClampRange(value, MonthsLimits));
    }

    /** `handleSearch`: publish the built filter and go back to page 1, keeping the limit. */
    method Search()
      modifies list
      ensures list.filters == BuildFilters(local)
      ensures list.pagination == old(list.pagination).(page := Some(1))
    {
      list.SetFilters(BuildFilters(local));
      list.FirstPage();
    }

    /** `handleReset`: default panel state, empty filters and the initial pagination on page 1. */
    method Reset()
      modifies this, list
      ensures local == BuildLocalFilters(NoFilters)
      ensures list.filters == NoFilters && list.pagination == InitialPagination
      ensures PageNumber(list.pagination) == 1
    {
      local := BuildLocalFilters(NoFilters);
      list.Reset();
      list.FirstPage();
    }
  }
}
