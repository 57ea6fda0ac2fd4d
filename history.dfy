/**
 * The history page: the user's entries in the active organization, newest
 * first, fifty per page, optionally limited to the last 7, 30 or 90 days. Each
 * fetch either replaces the list or appends a page to it. The answers of the
 * store are parameters and a fetch returns the request it sends.
 */
module History {
  import opened Common

  const ItemsPerPage: int := 50

  datatype DateFilter = Last7Days | Last30Days | Last90Days | AllTime

  /** A row of `time_entries` with the names of its embedded project and task, when there is one. */
  datatype HistoryRow = HistoryRow(id: string, clockIn: string, clockOut: Option<string>, status: string,
                                   totalHours: Option<real>, projectId: Option<string>, taskId: Option<string>,
                                   projectName: Option<string>, taskName: Option<string>)

  /** A row as the list shows it: the names filled in. */
  datatype HistoryEntry = HistoryEntry(row: HistoryRow, projectName: string, taskName: string)

  /** What one fetch asks for: the user, the organization, how many days back (none for all) and the inclusive row range. */
  datatype Request = Request(userId: string, organizationId: string, daysBack: Option<nat>, from: int, to: int)

  /** The rows of a page and the exact count the store reports (it may report none). */
  datatype PageAnswer = PageAnswer(rows: seq<HistoryRow>, count: Option<nat>)

  /** The inclusive row range of a page, counted from 1. */
  function Range(page: int): (r: (int, int))
    ensures r.0 == (page - 1) * ItemsPerPage
    ensures r.1 - r.0 + 1 == ItemsPerPage
  {
    var from := (page - 1) * ItemsPerPage;
    (from, from + ItemsPerPage - 1)
  }

  /** Consecutive pages tile the rows: each page starts right after the one before. */
  lemma PagesTile(p: int, q: int)
    requires p < q
    ensures Range(p + 1).0 == Range(p).1 + 1
    ensures Range(p).1 < Range(q).0
  {
  }

  /** `count ? page * 50 < count : false`. */
  function HasMore(count: Option<nat>, page: int): bool {
    count.Some? && count.value != 0 && page * ItemsPerPage < count.value
  }

  /** There are more entries exactly when the next page starts at a row that exists. */
  lemma HasMoreIffNextPageStarts(count: Option<nat>, page: int)
    ensures HasMore(count, page) <==> count.Some? && count.value > 0 && Range(page + 1).0 < count.value
  {
  }

  /** The lower bound of the date filter, in days back from today; none for the whole history. */
  function DaysBack(f: DateFilter): (r: Option<nat>)
    ensures r.None? <==> f == AllTime
    ensures f == Last7Days ==> r == Some(7)
    ensures f == Last30Days ==> r == Some(30)
    ensures f == Last90Days ==> r == Some(90)
  {
    match f
    case Last7Days => Some(7)
    case Last30Days => Some(30)
    case Last90Days => Some(90)
    case AllTime => None
  }

  function FilterLabel(f: DateFilter): string {
    match f
    case Last7Days => "Últimos 7 días"
    case Last30Days => "Últimos 30 días"
    case Last90Days => "Últimos 90 días"
    case AllTime => "Todo el historial"
  }

  const NoProject: string := "Sin Proyecto"
  const NoTask: string := "Sin Tarea"

  function Formatted(rows: seq<HistoryRow>): (r: seq<HistoryEntry>)
    ensures |r| == |rows|
    ensures forall k :: 0 <= k < |rows| ==>
      r[k] == HistoryEntry(rows[k], TextOr(rows[k].projectName, NoProject), TextOr(rows[k].taskName, NoTask))
  {
    seq(|rows|, k requires 0 <= k < |rows| =>
      HistoryEntry(rows[k], TextOr(rows[k].projectName, NoProject), TextOr(rows[k].taskName, NoTask)))
  }

  /** Appending formatted pages is formatting the concatenated rows. */
  lemma FormattedAppend(a: seq<HistoryRow>, b: seq<HistoryRow>)
    ensures Formatted(a + b) == Formatted(a) + Formatted(b)
  {
    assert forall k :: 0 <= k < |a + b| ==> Formatted(a + b)[k] == (Formatted(a) + Formatted(b))[k];
  }

  /** The badge of an entry: only `active` reads as live, anything else as completed. */
  function StatusLabel(status: string): (r: string)
    ensures r == "En Vivo" <==> status == "active"
  {
    if status == "active" then "En Vivo" else "Completado"
  }

  /** `total_hours ? total_hours.toFixed(2) + 'h' : '--'`: zero hours show as missing. */
  function HoursText(totalHours: Option<real>): (r: string)
    ensures r == "--" <==> totalHours.None? || totalHours.value == 0.0
    ensures r != "--" ==> r == Fixed2(totalHours.value) + "h"
  {
    if totalHours.None? || totalHours.value == 0.0 then "--" else Fixed2(totalHours.value) + "h"
  }

  class HistoryPage {
    var entries: seq<HistoryEntry>
    var isLoading: bool
    var dateFilter: DateFilter
    var page: int
    var hasMore: bool

    constructor ()
      ensures entries == [] && isLoading && dateFilter == Last30Days && page == 1 && !hasMore
    {
      entries := [];
      isLoading := true;
      dateFilter := Last30Days;
      page := 1;
      hasMore := false;
    }

    /**
     * One fetch of page `current`. An answered page replaces the list on a
     * reset or on page 1 and is appended otherwise; an error, or no data,
     * leaves the list, the page and `hasMore` as they were.
     */
    method FetchPage(user: Option<string>, organization: Option<string>, resetPage: bool, current: int,
                     answer: Answer<PageAnswer>) returns (request: Option<Request>)
      modifies this`entries, this`isLoading, this`page, this`hasMore
      ensures user.None? || organization.None? ==>
        request.None? && entries == old(entries) && isLoading == old(isLoading) && page == old(page) && hasMore == old(hasMore)
      ensures user.Some? && organization.Some? ==>
        && request == Some(Request(user.value, organization.value, DaysBack(dateFilter), Range(current).0, Range(current).1))
        && !isLoading
        && (answer.Data? ==>
              && entries == (if resetPage || current == 1 then Formatted(answer.value.rows) else old(entries) + Formatted(answer.value.rows))
              && page == (if resetPage then 1 else old(page))
              && hasMore == HasMore(answer.value.count, current))
        && (!answer.Data? ==> entries == old(entries) && page == old(page) && hasMore == old(hasMore))
    {
      if user.None? || organization.None? {
        return None;
      }
      isLoading := true;
      var (from, to) := Range(current);
      request := Some(Request(user.value, organization.value, DaysBack(dateFilter), from, to));
      if answer.Data? {
        var formatted := Formatted(answer.value.rows);
        if resetPage {
          entries := formatted;
          page := 1;
        } else {
          entries := if current == 1 then formatted else entries + formatted;
        }
        hasMore := HasMore(answer.value.count, current);
      }
      isLoading := false;
    }

    /** `fetchEntries(resetPage)`: a reset fetches page 1, otherwise the current page. */
    method FetchEntries(user: Option<string>, organization: Option<string>, resetPage: bool,
                        answer: Answer<PageAnswer>) returns (request: Option<Request>)
      modifies this`entries, this`isLoading, this`page, this`hasMore
      ensures user.Some? && organization.Some? ==>
        var current := if resetPage then 1 else old(page);
        && request == Some(Request(user.value, organization.value, DaysBack(dateFilter), Range(current).0, Range(current).1))
        && (answer.Data? ==>
              && entries == (if current == 1 then Formatted(answer.value.rows) else old(entries) + Formatted(answer.value.rows))
              && page == (if resetPage then 1 else old(page))
              && hasMore == HasMore(answer.value.count, current))
      ensures resetPage && answer.Data? && user.Some? && organization.Some? ==>
        entries == Formatted(answer.value.rows) && page == 1 && hasMore == HasMore(answer.value.count, 1)
      ensures user.None? || organization.None? ==>
        request.None? && entries == old(entries) && page == old(page) && hasMore == old(hasMore)
    {
      request := FetchPage(user, organization, resetPage, if resetPage then 1 else page, answer);
    }

    /** Choosing a date filter refetches from page 1. */
    method ChangeFilter(f: DateFilter, user: Option<string>, organization: Option<string>,
                        answer: Answer<PageAnswer>) returns (request: Option<Request>)
      modifies this
      ensures dateFilter == f
      ensures user.Some? && organization.Some? ==>
        request == Some(Request(user.value, organization.value, DaysBack(f), 0, ItemsPerPage - 1))
      ensures user.Some? && organization.Some? && answer.Data? ==>
        entries == Formatted(answer.value.rows) && page == 1 && hasMore == HasMore(answer.value.count, 1)
    {
      dateFilter := f;
      request := FetchPage(user, organization, true, 1, answer);
    }

    /**
     * "Cargar más": the page number goes up by one, but the fetch that follows
     * still sees the page number from before the increment, so it requests
     * that page again.
     */
    method LoadMore(user: Option<string>, organization: Option<string>,
                    answer: Answer<PageAnswer>) returns (request: Option<Request>)
      modifies this`entries, this`isLoading, this`page, this`hasMore
      ensures page == old(page) + 1
      ensures user.Some? && organization.Some? ==>
        request == Some(Request(user.value, organization.value, DaysBack(dateFilter), Range(old(page)).0, Range(old(page)).1))
      ensures user.Some? && organization.Some? && answer.Data? ==>
        && entries == (if old(page) == 1 then Formatted(answer.value.rows) else old(entries) + Formatted(answer.value.rows))
        && hasMore == HasMore(answer.value.count, old(page))
    {
      var stale := page;
      page := page + 1;
      request := FetchPage(user, organization, false, stale, answer);
    }
  }
}
