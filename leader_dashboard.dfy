/**
 * The leader's participant list (app/leader-dashboard/page.tsx). It follows
 * the same sort, page and search-version rules as the administrator's list,
 * shows a message when a fetch fails, and exports the current page without
 * resolving meeting names.
 */
module LeaderDashboard {
  import opened Wrappers
  import opened SchemaFields
  import opened ParticipantSchema
  import opened ParticipantQuery
  import opened ParticipantStore
  import opened ExcelExport
  import opened ParticipantsPage

  const FetchFailure := "참여자 목록을 불러오는 데 실패했습니다"

  class DashboardPage {
    const list: ListState
    var sort: SortParams
    var participants: seq<Participant>
    var totalPages: int
    var searchVersion: int

    constructor(list: ListState)
      ensures this.list == list
      ensures sort == InitialSort && participants == [] && totalPages == 0 && searchVersion == 1
    {
      this.list := list;
      sort := InitialSort;
      participants := [];
      totalPages := 0;
      searchVersion := 1;
    }

    /** `fetchParticipants`: every participant matching the shared filters is visible to a leader.
        A failed fetch changes nothing and shows `FetchFailure`; a successful one shows the page and
        pulls an overshooting page back to the last one. */
    method Fetch(rows: seq<Participant>, fault: Option<string>, fm: Formats) returns (toast: Option<string>)
      modifies this, list
      ensures var r := Search(rows, old(list.filters), old(list.pagination), Some(old(sort)), fault, fm);
        && (r.Err? ==> (toast == Some(FetchFailure) && participants == old(participants)
                       && totalPages == old(totalPages) && list.pagination == old(list.pagination)))
        && (r.Ok? ==> (toast.None? && participants == r.value.data && totalPages == r.value.totalPages
                      && list.pagination == ClampAfterFetch(old(list.pagination), r.value.totalPages)))
      ensures list.filters == old(list.filters) && sort == old(sort) && searchVersion == old(searchVersion)
    {
      var r := Search(rows, list.filters, list.pagination, Some(sort), fault, fm);
      if r.Err? {
        return Some(FetchFailure);
      }
      toast := None;
      ShowPage(r.value);
    }

    /** The success branch of `fetchParticipants`: show the rows and the page count, and pull a
        page number beyond the last page back to the last page. */
    method ShowPage(page: Page)
      modifies this, list
      ensures participants == page.data && totalPages == page.totalPages
      ensures list.pagination == ClampAfterFetch(old(list.pagination), page.totalPages)
      ensures list.filters == old(list.filters) && sort == old(sort) && searchVersion == old(searchVersion)
    {
      participants := page.data;
      totalPages := page.totalPages;
      var pg := list.pagination;
      if page.totalPages > 0 && CurrentPage(pg) > page.totalPages {
        list.SetPagination(pg.(page := Some(page.totalPages)));
      }
    }

    /** `handleSearch`: back to page 1 and a strictly newer search version. */
    method HandleSearch()
      modifies this, list
      ensures list.pagination == old(list.pagination).(page := Some(1)) && list.filters == old(list.filters)
      ensures searchVersion == old(searchVersion) + 1
      ensures sort == old(sort) && participants == old(participants) && totalPages == old(totalPages)
    {
      list.FirstPage();
      searchVersion := searchVersion + 1;
    }

    /** `handlePageChange`: a page outside `1..totalPages` is ignored. */
    method HandlePageChange(page: int)
      modifies list
      ensures AcceptsPage(page, totalPages) ==> list.pagination == old(list.pagination).(page := Some(page))
      ensures !AcceptsPage(page, totalPages) ==> list.pagination == old(list.pagination)
      ensures list.filters == old(list.filters)
    {
      if page < 1 || page > totalPages {
        return;
      }
      list.SetPagination(list.pagination.(page := Some(page)));
    }

    /** `handleSort`: the same header click rule as the administrator's list, and back to page 1. */
    method HandleSort(column: SortField)
      modifies this, list
      ensures sort == NextSort(old(sort), column)
      ensures CurrentPage(old(list.pagination)) == 1 ==> list.pagination == old(list.pagination)
      ensures CurrentPage(old(list.pagination)) != 1 ==> list.pagination == old(list.pagination).(page := Some(1))
      ensures CurrentPage(list.pagination) == 1 && list.filters == old(list.filters)
      ensures participants == old(participants) && totalPages == old(totalPages) && searchVersion == old(searchVersion)
    {
      sort := NextSort(sort, column);
      if CurrentPage(list.pagination) != 1 {
        list.FirstPage();
      }
    }

    /** `handleExportCurrentPage`: refused for an empty page; otherwise the rows of the shown
        participants, whose meeting cells hold the raw meeting ids. */
    method ExportCurrentPage(localeDate: string -> string) returns (r: Result<seq<ExcelRow>, string>)
      ensures r.Err? <==> participants == []
      ensures r.Err? ==> r.error == NoData
      ensures r.Ok? ==> |r.value| == |participants|
      ensures r.Ok? ==> forall i :: 0 <= i < |r.value| ==>
        CellOf(r.value[i], "현재 모임") == Some(TextCell(NullishText(participants[i].current_meeting_id)))
    {
      if participants == [] {
        return Err(NoData);
      }
      r := ExportRows(participants, None, localeDate);
      forall i | 0 <= i < |r.value|
        ensures CellOf(r.value[i], "현재 모임") == Some(TextCell(NullishText(participants[i].current_meeting_id)))
      {
        RowCell(participants[i], None, localeDate, 9);
      }
    }
  }
}
