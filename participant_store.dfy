/**
 * The client-side participant list state of lib/store/participant.ts: the
 * filter cell, the pagination cell and the reset action that writes both.
 */
module ParticipantStore {
  import opened Wrappers
  import opened ParticipantQuery

  /** The pagination every list starts from and returns to on reset. */
  const InitialPagination := Pagination(Some(1), Some(15))

  /** The two shared cells. */
  class ListState {
    var filters: Filters
    var pagination: Pagination

    /** Filters start empty and pagination starts at page 1 of 15 rows. */
    constructor()
      ensures filters == NoFilters && pagination == InitialPagination
    {
      filters := NoFilters;
      pagination := InitialPagination;
    }

    method SetFilters(f: Filters)
      modifies this
      ensures filters == f && pagination == old(pagination)
    {
      filters := f;
    }

    method SetPagination(p: Pagination)
      modifies this
      ensures pagination == p && filters == old(filters)
    {
      pagination := p;
    }

    /** `set(prev => ({ ...prev, page: 1 }))`: back to the first page, same limit. */
    method FirstPage()
      modifies this
      ensures pagination == old(pagination).(page := Some(1)) && filters == old(filters)
    {
      pagination := pagination.(page := Some(1));
    }

    /** `resetFiltersAtom`: empty filters and the initial pagination, whatever the state before. */
    method Reset()
      modifies this
      ensures filters == NoFilters && pagination == InitialPagination
    {
      filters := NoFilters;
      pagination := InitialPagination;
    }
  }

  /** Resetting twice leaves the cells as resetting once, and a reset state applies no filter to any row. */
  method ResetIdempotent(s: ListState, p: ParticipantSchema.Participant)
    modifies s
    ensures s.filters == NoFilters && s.pagination == InitialPagination
    ensures Matches(p, s.filters)
  {
    s.Reset();
    var once := (s.filters, s.pagination);
    s.Reset();
    assert (s.filters, s.pagination) == once;
    assert Matches(p, NoFilters);
  }

  /** After a reset a query asks for page 1 of 15 rows. */
  lemma ResetPagination()
    ensures PageNumber(InitialPagination) == 1 && PageLimit(InitialPagination) == 15
  {
  }
}
