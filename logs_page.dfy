/**
  The logs page (`src/app/logs/page.tsx`): the effect that filters and sorts a
  copy of `logs` step by step into `filteredLogs`, and the two-step delete
  (`handleDeleteLog` opens the dialog, `confirmDelete` removes the entry).
  The backend `deleteLog` call is the parameter `deleteSucceeds`.
*/
module LogsPage {
  import opened Wrappers
  import opened Types
  import opened Seqs
  import opened StableSort
  import opened LogList

  class LogsPage {
    var logs: seq<LogEntry>
    var filteredLogs: seq<LogEntry>
    var searchTerm: string
    var moodFilter: MoodFilter
    var typeFilter: TypeFilter
    var sortBy: SortField
    var sortOrder: SortOrder
    var logToDelete: Option<string>
    var isDeleting: bool
    var deleteDialogOpen: bool

    /** The state hooks' initial values. */
    constructor ()
      ensures logs == [] && filteredLogs == [] && searchTerm == ""
      ensures moodFilter == AllMoods && typeFilter == AllTypes && sortBy == ByDate && sortOrder == Desc
      ensures logToDelete == None && !isDeleting && !deleteDialogOpen
    {
      logs := [];
      filteredLogs := [];
      searchTerm := "";
      moodFilter := AllMoods;
      typeFilter := AllTypes;
      sortBy := ByDate;
      sortOrder := Desc;
      logToDelete := None;
      isDeleting := false;
      deleteDialogOpen := false;
    }

    function CurrentQuery(): Query
      reads this
    {
      Query(searchTerm, moodFilter, typeFilter, sortBy, sortOrder)
    }

    /**
      The filter-and-sort effect.  It skips the search stage for an empty term
      and each equality stage for "all"; the result is the log list's single
      filter-and-sort, and the stored `logs` are left as they were.
    */
    method ApplyFilters()
      modifies this`filteredLogs
      ensures filteredLogs == FilteredLogs(logs, CurrentQuery())
      ensures logs == old(logs)
    {
      var q := CurrentQuery();
      var filtered := logs;
      SearchStage(logs, q.searchTerm);
      MoodStage(logs, q.searchTerm, q.moodFilter);
      TypeStage(logs, q);
      if searchTerm != "" {
        filtered := Filter(filtered, SearchPred(searchTerm));
      }
      if moodFilter != AllMoods {
        filtered := Filter(filtered, MoodIs(moodFilter.mood));
      }
      if typeFilter != AllTypes {
        filtered := Filter(filtered, TypeIs(typeFilter.workType));
      }
      filtered := SortBy(filtered, (log: LogEntry) => SortKey(log, q.sortBy, q.sortOrder));
      filteredLogs := filtered;
    }

    /** `handleDeleteLog(id)`: remember the id and open the confirmation dialog. */
    method HandleDeleteLog(id: string)
      modifies this`logToDelete, this`deleteDialogOpen
      ensures logToDelete == Some(id) && deleteDialogOpen
    {
      logToDelete := Some(id);
      deleteDialogOpen := true;
    }

    /**
      `confirmDelete()`.  With no pending id (null or "") nothing changes.
      Otherwise the entries with that id are removed when the backend delete
      succeeds, and in either case the page leaves the deleting state, closes
      the dialog and forgets the id.
    */
    method ConfirmDelete(deleteSucceeds: bool)
      modifies this`logs, this`isDeleting, this`deleteDialogOpen, this`logToDelete
      ensures old(logToDelete) == None || old(logToDelete) == Some("") ==>
        logs == old(logs) && isDeleting == old(isDeleting) && deleteDialogOpen == old(deleteDialogOpen) && logToDelete == old(logToDelete)
      ensures old(logToDelete).Some? && old(logToDelete).value != "" ==>
        && logs == (if deleteSucceeds then WithoutId(old(logs), old(logToDelete).value) else old(logs))
        && !isDeleting && !deleteDialogOpen && logToDelete == None
    {
      if logToDelete == None || logToDelete == Some("") {
        return;
      }
      var id := logToDelete.value;
      isDeleting := true;
      if deleteSucceeds {
        logs := WithoutId(logs, id);
      }
      isDeleting := false;
      deleteDialogOpen := false;
      logToDelete := None;
    }
  }
}
