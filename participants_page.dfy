/**
 * The participant list screen (app/participants/page.tsx): the sort, page and
 * search-version state that decides what is fetched, the clamp applied after
 * a fetch, the delete confirmation and the export of the current page.
 */
module ParticipantsPage {
  import opened Wrappers
  import opened SchemaFields
  import opened ParticipantSchema
  import opened ParticipantQuery
  import opened ParticipantStore
  import opened ExcelExport

  /** The list opens sorted by creation time, newest first. */
  const InitialSort := SortParams(CreatedAt, Some(Desc))

  /** The header click rule: the active column sorted descending turns ascending; any other click
      sorts the clicked column descending. */
  function NextSort(prev: SortParams, column: SortField): (next: SortParams)
    ensures next.column == column && next.direction.Some?
    ensures next.direction == Some(Asc) <==> prev.column == column && prev.direction == Some(Desc)
  {
    var sameColumn := prev.column == column;
    SortParams(column, if sameColumn && prev.direction == Some(Desc) then Some(Asc) else Some(Desc))
  }

  /** Clicking the same header twice from the initial order comes back to it; a new column always
      starts descending, and the query then sorts ascending exactly after an odd click on the same column. */
  lemma SortClicks(s: SortParams, column: SortField)
    ensures NextSort(NextSort(InitialSort, CreatedAt), CreatedAt) == InitialSort
    ensures s.column != column ==> NextSort(s, column) == SortParams(column, Some(Desc))
    ensures s.column == column && s.direction == Some(Desc) ==> NextSort(NextSort(s, column), column) == s
    ensures Ascending(Some(NextSort(s, column))) <==> s.column == column && s.direction == Some(Desc)
    ensures !Ascending(Some(InitialSort)) && SortColumn(Some(InitialSort)) == CreatedAt
  {
  }

  /** `pagination.page || 1`: the screen reads the same page number the service fetches. */
  function CurrentPage(pg: Pagination): (page: int)
    ensures page == PageNumber(pg)
    ensures page != 0
    ensures pg.page.None? || pg.page == Some(0) ==> page == 1
  {
    NumberOr(pg.page, 1)
  }

  /** `handlePageChange` accepts a page only inside `1..totalPages`. */
  predicate AcceptsPage(page: int, totalPages: int)
    ensures totalPages <= 0 ==> !AcceptsPage(page, totalPages)
    ensures AcceptsPage(page, totalPages) ==> page != 0 && NumberOr(Some(page), 1) == page
    ensures AcceptsPage(page, totalPages) <==> 0 < page && page - 1 < totalPages
  {
    1 <= page <= totalPages
  }

  /** The pagination after a fetch that reported `totalPages`: a page past the last one is pulled back to it. */
  function ClampAfterFetch(pg: Pagination, totalPages: int): (r: Pagination)
    ensures r.limit == pg.limit
    ensures totalPages > 0 ==> CurrentPage(r) <= totalPages
    ensures r != pg <==> totalPages > 0 && CurrentPage(pg) > totalPages
  {
    if totalPages > 0 && CurrentPage(pg) > totalPages then pg.(page := Some(totalPages)) else pg
  }

  /** No page number is ever accepted when there are no pages, and clamping keeps an accepted page. */
  lemma PageGuards(pg: Pagination, page: int, totalPages: int)
    ensures totalPages <= 0 ==> !AcceptsPage(page, totalPages)
    ensures AcceptsPage(CurrentPage(pg), totalPages) ==> ClampAfterFetch(pg, totalPages) == pg
    ensures totalPages > 0 && CurrentPage(pg) > totalPages ==> AcceptsPage(CurrentPage(ClampAfterFetch(pg, totalPages)), totalPages)
  {
  }

  datatype MeetingOption = MeetingOption(id: string, name: string)

  /** `options[i]` is the first option with this id. */
  predicate FirstWithId(options: seq<MeetingOption>, id: string, i: int) {
    0 <= i < |options| && options[i].id == id && forall j :: 0 <= j < i ==> options[j].id != id
  }

  /** The first meeting with the given id. */
  function FindMeeting(options: seq<MeetingOption>, id: string): (r: Option<MeetingOption>)
    ensures r.Some? ==> r.value in options && r.value.id == id
    ensures r.None? ==> forall m :: m in options ==> m.id != id
    ensures forall i :: FirstWithId(options, id, i) ==> r == Some(options[i])
  {
    if options == [] then None
    else if options[0].id == id then Some(options[0])
    else FindMeeting(options[1..], id)
  }

  /** `getMeetingName`: `'-'` without a meeting, else the meeting's name, else the id itself. */
  function MeetingName(options: seq<MeetingOption>, id: Nullish<string>): (r: string)
    ensures r != ""
    ensures !id.Present? || id.value == "" ==> r == "-"
    ensures id.Present? && id.value != "" ==> forall i :: FirstWithId(options, id.value, i) ==>
      r == if options[i].name != "" then options[i].name else id.value
    ensures id.Present? && id.value != "" && (forall m :: m in options ==> m.id != id.value) ==> r == id.value
    ensures id.Present? && id.value != "" && r != id.value ==> exists m :: m in options && m.id == id.value && m.name == r
  {
    if !id.Present? || id.value == "" then "-"
    else
      var m := FindMeeting(options, id.value);
      if m.Some? && m.value.name != "" then m.value.name else id.value
  }

  /** The id of the participant a delete confirmation would remove: none without a selection or an id. */
  function DeleteTarget(p: Option<Participant>): (r: Option<string>)
    ensures r.Some? <==> p.Some? && p.value.id.Some? && p.value.id.value != ""
    ensures r.Some? ==> p.value.id == r
  {
    if p.Some? && p.value.id.Some? && p.value.id.value != "" then p.value.id else None
  }

  const DeleteFailure := "삭제 중 오류가 발생했습니다"

  /** What a failed delete throws: an `Error` with its message, or some other value. */
  datatype Thrown = ErrorValue(message: string) | OtherValue

  /** The message shown for a thrown value: the `Error`'s own message, else the generic one. */
  function ThrownMessage(t: Thrown): (m: string)
    ensures t.ErrorValue? ==> m == t.message
    ensures t.OtherValue? ==> m == DeleteFailure && m != ""
  {
    if t.ErrorValue? then t.message else DeleteFailure
  }

  class ListPage {
    const list: ListState
    var sort: SortParams
    var participants: seq<Participant>
    var totalPages: int
    var searchVersion: int
    var participantToDelete: Option<Participant>
    var deleteDialogOpen: bool
    var actionError: Option<string>
    var meetingOptions: seq<MeetingOption>

    constructor(list: ListState)
      ensures this.list == list
      ensures sort == InitialSort && participants == [] && totalPages == 0 && searchVersion == 1
      ensures participantToDelete.None? && !deleteDialogOpen && actionError.None? && meetingOptions == []
    {
      this.list := list;
      sort := InitialSort;
      participants := [];
      totalPages := 0;
      searchVersion := 1;
      participantToDelete := None;
      deleteDialogOpen := false;
      actionError := None;
      meetingOptions := [];
    }

    /** `fetchParticipants` against the table `rows`; `fault` is the store error, if any. A failed
        fetch changes nothing; a successful one shows the page and pulls an overshooting page back. */
    method Fetch(rows: seq<Participant>, fault: Option<string>, fm: Formats)
      modifies this, list
      ensures var r := Search(rows, old(list.filters), old(list.pagination), Some(old(sort)), fault, fm);
        && (r.Err? ==> (participants == old(participants) && totalPages == old(totalPages)
                       && list.pagination == old(list.pagination)))
        && (r.Ok? ==> (participants == r.value.data && totalPages == r.value.totalPages
                      && list.pagination == ClampAfterFetch(old(list.pagination), r.value.totalPages)))
      ensures list.filters == old(list.filters) && sort == old(sort) && searchVersion == old(searchVersion)
      ensures participantToDelete == old(participantToDelete) && deleteDialogOpen == old(deleteDialogOpen)
      ensures actionError == old(actionError) && meetingOptions == old(meetingOptions)
    {
      var r := Search(rows, list.filters, list.pagination, Some(sort), fault, fm);
      if r.Ok? {
        ShowPage(r.value);
      }
    }

    /** The success branch of `fetchParticipants`: show the rows and the page count, and pull a
        page number beyond the last page back to the last page. */
    method ShowPage(page: Page)
      modifies this, list
      ensures participants == page.data && totalPages == page.totalPages
      ensures list.pagination == ClampAfterFetch(old(list.pagination), page.totalPages)
      ensures list.filters == old(list.filters) && sort == old(sort) && searchVersion == old(searchVersion)
      ensures participantToDelete == old(participantToDelete) && deleteDialogOpen == old(deleteDialogOpen)
      ensures actionError == old(actionError) && meetingOptions == old(meetingOptions)
    {
      participants := page.data;
      totalPages := page.totalPages;
      var pg := list.pagination;
      if page.totalPages > 0 && CurrentPage(pg) > page.totalPages {
        list.SetPagination(pg.(page := Some(page.totalPages)));
      }
    }

    method SetMeetingOptions(options: seq<MeetingOption>)
      modifies this
      ensures meetingOptions == options
      ensures sort == old(sort) && participants == old(participants) && totalPages == old(totalPages)
      ensures searchVersion == old(searchVersion) && participantToDelete == old(participantToDelete)
      ensures deleteDialogOpen == old(deleteDialogOpen) && actionError == old(actionError)
    {
      meetingOptions := options;
    }

    /** `handleSearch`: back to page 1 and a strictly newer search version, which triggers a fetch. */
    method HandleSearch()
      modifies this, list
      ensures list.pagination == old(list.pagination).(page := Some(1)) && list.filters == old(list.filters)
      ensures searchVersion == old(searchVersion) + 1
      ensures sort == old(sort) && participants == old(participants) && totalPages == old(totalPages)
      ensures participantToDelete == old(participantToDelete) && deleteDialogOpen == old(deleteDialogOpen)
      ensures actionError == old(actionError) && meetingOptions == old(meetingOptions)
    {
      list.FirstPage();
      searchVersion := searchVersion + 1;
    }

    /** `handlePageChange`: a page outside `1..totalPages` is ignored. */
    method HandlePageChange(page: int)
      modifies list
      ensures AcceptsPage(page, totalPages) ==> list.pagination == old(list.pagination).(page := Some(page))
      ensures !AcceptsPage(page, totalPages) ==> list.pagination == old(list.pagination)
      ensures list.filters == old(list.filters)
    {
      if page < 1 || page > totalPages {
        return;
      }
      list.SetPagination(list.pagination.(page := Some(page)));
    }

    /** `handleSort`: the header click rule, and back to page 1 when not already there. */
    method HandleSort(column: SortField)
      modifies this, list
      ensures sort == NextSort(old(sort), column)
      ensures CurrentPage(old(list.pagination)) == 1 ==> list.pagination == old(list.pagination)
      ensures CurrentPage(old(list.pagination)) != 1 ==> list.pagination == old(list.pagination).(page := Some(1))
      ensures CurrentPage(list.pagination) == 1 && list.filters == old(list.filters)
      ensures participants == old(participants) && totalPages == old(totalPages) && searchVersion == old(searchVersion)
      ensures participantToDelete == old(participantToDelete) && deleteDialogOpen == old(deleteDialogOpen)
      ensures actionError == old(actionError) && meetingOptions == old(meetingOptions)
    {
      sort := NextSort(sort, column);
      if CurrentPage(list.pagination) != 1 {
        list.FirstPage();
      }
    }

    /** `handleDeleteClick`: select the participant, clear the last error and open the dialog. */
    method HandleDeleteClick(p: Participant)
      modifies this
      ensures participantToDelete == Some(p) && actionError.None? && deleteDialogOpen
      ensures sort == old(sort) && participants == old(participants) && totalPages == old(totalPages)
      ensures searchVersion == old(searchVersion) && meetingOptions == old(meetingOptions)
    {
      participantToDelete := Some(p);
      actionError := None;
      deleteDialogOpen := true;
    }

    /** `confirmDelete`: nothing happens without a selected participant id. Otherwise `deleted` is the
        id the store is asked to remove; on success the dialog closes and the selection is cleared,
        on failure (`fault`) the error is shown and the dialog stays open. */
    method ConfirmDelete(fault: Option<Thrown>) returns (deleted: Option<string>)
      modifies this
      ensures deleted == DeleteTarget(old(participantToDelete))
      ensures deleted.None? ==> (participantToDelete == old(participantToDelete)
        && deleteDialogOpen == old(deleteDialogOpen) && actionError == old(actionError))
      ensures deleted.Some? && fault.None? ==> participantToDelete.None? && !deleteDialogOpen && actionError.None?
      ensures deleted.Some? && fault.Some? ==> (participantToDelete == old(participantToDelete)
        && deleteDialogOpen == old(deleteDialogOpen) && actionError == Some(ThrownMessage(fault.value)))
      ensures sort == old(sort) && participants == old(participants) && totalPages == old(totalPages)
      ensures searchVersion == old(searchVersion) && meetingOptions == old(meetingOptions)
    {
      deleted := DeleteTarget(participantToDelete);
      if deleted.None? {
        return;
      }
      actionError := None;
      if fault.None? {
        deleteDialogOpen := false;
        participantToDelete := None;
      } else {
        actionError := Some(ThrownMessage(fault.value));
      }
    }

    /** `handleExportCurrentPage`: refused for an empty page; otherwise the rows of the shown
        participants, with meeting names resolved from the loaded options, so no meeting cell is empty. */
    method ExportCurrentPage(localeDate: string -> string) returns (r: Result<seq<ExcelRow>, string>)
      ensures r.Err? <==> participants == []
      ensures r.Err? ==> r.error == NoData
      ensures r.Ok? ==> |r.value| == |participants|
      ensures r.Ok? ==> forall i :: 0 <= i < |r.value| ==>
        CellOf(r.value[i], "현재 모임") == Some(TextCell(MeetingName(meetingOptions, participants[i].current_meeting_id)))
    {
      if participants == [] {
        return Err(NoData);
      }
      var options := meetingOptions;
      var resolver: Resolver := Some((id: Nullish<string>) => Some(MeetingName(options, id)));
      r := ExportRows(participants, resolver, localeDate);
      forall i | 0 <= i < |r.value|
        ensures CellOf(r.value[i], "현재 모임") == Some(TextCell(MeetingName(options, participants[i].current_meeting_id)))
      {
        RowCell(participants[i], resolver, localeDate, 9);
      }
    }
  }
}
