/** The application state of `App.tsx` in local mode: the job list with its filter,
    pagination and selection, the list handlers (bulk delete and update, save and delete
    with audit stamps, duplicate), correspondence logs, login, and the reducer that
    applies change events to a list. */
module JobList {
  import opened Wrappers
  import opened Seqs
  import opened Strings
  import opened CivilDate
  import opened Types
  import opened BulkEdit

  /** The labels of the selected statuses. */
  function StatusLabels(statuses: seq<ProcessStatus>): seq<string>
  {
    Map(statuses, (s: ProcessStatus) => s.Label())
  }

  /** The five conditions of the job filter. */
  predicate Matches(job: Job, f: Filters)
  {
    && (|f.statuses| == 0 || job.status in StatusLabels(f.statuses))
    && (f.clientId == "" || job.clientId == f.clientId)
    && (f.productName == "" || Contains(ToLower(job.productName), ToLower(f.productName)))
    && (f.deliveryDateStart == "" || !StrLess(job.deliveryDate, f.deliveryDateStart))
    && (f.deliveryDateEnd == "" || !StrLess(f.deliveryDateEnd, job.deliveryDate))
  }

  /** `filteredJobs`. */
  function FilteredJobs(jobs: seq<Job>, f: Filters): (r: seq<Job>)
    ensures forall j :: j in r <==> j in jobs && Matches(j, f)
    ensures |r| <= |jobs|
  {
    Filter(jobs, (j: Job) => Matches(j, f))
  }

  /** For well-formed delivery dates the string bounds of the filter are the chronological
      bounds: on or after the start, on or before the end. */
  lemma DeliveryBoundsAreChronological(job: Job, f: Filters)
    requires Parse(job.deliveryDate).Some?
    requires Parse(f.deliveryDateStart).Some? && Parse(f.deliveryDateEnd).Some?
    ensures var due := Parse(job.deliveryDate).value;
            (!StrLess(job.deliveryDate, f.deliveryDateStart) <==> !Before(due, Parse(f.deliveryDateStart).value))
            && (!StrLess(f.deliveryDateEnd, job.deliveryDate) <==> !Before(Parse(f.deliveryDateEnd).value, due))
  {
    FormatParse(job.deliveryDate);
    FormatParse(f.deliveryDateStart);
    FormatParse(f.deliveryDateEnd);
    FormatOrder(Parse(job.deliveryDate).value, Parse(f.deliveryDateStart).value);
    FormatOrder(Parse(f.deliveryDateEnd).value, Parse(job.deliveryDate).value);
  }

  /** The filters on start and after reset: every status but shipped, nothing else set. */
  function DefaultFilters(): (f: Filters)
    ensures forall s :: s in f.statuses <==> s != Shipped
    ensures f.clientId == "" && f.productName == "" && f.deliveryDateStart == "" && f.deliveryDateEnd == ""
  {
    Filters("", "", Filter(ProcessStatusOrder, (s: ProcessStatus) => s != Shipped), "", "")
  }

  /** With the default filters exactly the jobs that are not shipped are listed, those
      whose status is one of the other five stages. */
  lemma DefaultFiltersSelectUnshipped(job: Job)
    ensures Matches(job, DefaultFilters()) <==>
              exists s :: s != Shipped && job.status == s.Label()
  {
    var f := DefaultFilters();
    assert |f.statuses| > 0 by {
      assert Received in f.statuses;
    }
    if exists s :: s != Shipped && job.status == s.Label() {
      var s :| s != Shipped && job.status == s.Label();
      assert s in f.statuses;
      var i :| 0 <= i < |f.statuses| && f.statuses[i] == s;
      assert StatusLabels(f.statuses)[i] == job.status;
    }
    if job.status in StatusLabels(f.statuses) {
      var i :| 0 <= i < |f.statuses| && StatusLabels(f.statuses)[i] == job.status;
      assert f.statuses[i] != Shipped;
    }
  }

  /** `paginatedJobs`: the `page`-th run of `perPage` jobs. */
  function Page(filtered: seq<Job>, page: int, perPage: int): (r: seq<Job>)
    ensures perPage >= 0 ==> |r| <= perPage
    ensures page >= 1 && perPage >= 0 && page * perPage <= |filtered| ==>
              r == filtered[(page - 1) * perPage..page * perPage]
  {
    var start := (page - 1) * perPage;
    Slice(filtered, start, start + perPage)
  }

  /** `Math.ceil(filtered.length / perPage)`. */
  function TotalPages(count: nat, perPage: int): (n: int)
    requires perPage > 0
    ensures (n - 1) * perPage < count <= n * perPage || (count == 0 && n == 0)
  {
    var n := (count + perPage - 1) / perPage;
    assert n * perPage <= count + perPage - 1 < (n + 1) * perPage;
    n
  }

  /** The pages one to `n` cover the filtered list exactly and in order. */
  lemma {:induction false} PagesCover(filtered: seq<Job>, perPage: int, n: nat)
    requires perPage > 0 && n * perPage <= |filtered|
    ensures Pages(filtered, perPage, n) == filtered[..n * perPage]
  {
    if n > 0 {
      var a, b := (n - 1) * perPage, n * perPage;
      assert a + perPage == b;
      PagesCover(filtered, perPage, n - 1);
      assert Page(filtered, n, perPage) == filtered[a..b];
      assert filtered[..a] + filtered[a..b] == filtered[..b];
    }
  }

  /** The concatenation of pages one to `n`. */
  function Pages(filtered: seq<Job>, perPage: int, n: nat): seq<Job>
    requires perPage > 0
  {
    if n == 0 then [] else Pages(filtered, perPage, n - 1) + Page(filtered, n, perPage)
  }

  /** The last page holds the rest: with `TotalPages` pages every filtered job is shown
      once. */
  lemma AllPagesShowAll(filtered: seq<Job>, perPage: int)
    requires perPage > 0
    ensures Pages(filtered, perPage, TotalPages(|filtered|, perPage)) == filtered
  {
    var n := TotalPages(|filtered|, perPage);
    if n == 0 {
      assert |filtered| == 0;
    } else {
      assert (n - 1) * perPage < |filtered| <= n * perPage;
      PagesUpToLast(filtered, perPage, n);
    }
  }

  lemma PagesUpToLast(filtered: seq<Job>, perPage: int, n: int)
    requires perPage > 0 && n >= 1 && (n - 1) * perPage < |filtered| <= n * perPage
    ensures Pages(filtered, perPage, n) == filtered
  {
    var a := (n - 1) * perPage;
    ProductNonNegative(n - 1, perPage);
    PagesCover(filtered, perPage, n - 1);
    LastPage(filtered, perPage, n);
    PagesJoin(filtered, perPage, n, a);
  }

  lemma ProductNonNegative(k: nat, perPage: nat)
    ensures k * perPage >= 0
  {
  }

  /** Pages one to `n - 1` ending at `a` and page `n` starting there show the list. */
  lemma PagesJoin(filtered: seq<Job>, perPage: int, n: int, a: int)
    requires perPage > 0 && n >= 1 && 0 <= a <= |filtered|
    requires Pages(filtered, perPage, n - 1) == filtered[..a]
    requires Page(filtered, n, perPage) == filtered[a..]
    ensures Pages(filtered, perPage, n) == filtered
  {
    assert filtered[..a] + filtered[a..] == filtered;
  }

  lemma LastPage(filtered: seq<Job>, perPage: int, n: int)
    requires perPage > 0 && n >= 1 && (n - 1) * perPage < |filtered| <= n * perPage
    ensures Page(filtered, n, perPage) == filtered[(n - 1) * perPage..]
  {
    var start := (n - 1) * perPage;
    assert start + perPage == n * perPage;
    assert ClampIndex(start, |filtered|) == start;
    assert ClampIndex(start + perPage, |filtered|) == |filtered|;
  }

  /** A change event of a list, keyed by `pk`. */
  datatype Change<T> = Insert(newRow: T) | Update(row: T) | Delete(oldRow: T) | Other

  /** The reducer `handleRealtime` applies to a list. */
  function ApplyChange<T(!new)>(rows: seq<T>, pk: T -> string, change: Change<T>): (r: seq<T>)
    ensures change.Insert? ==> r == rows + [change.newRow]
    ensures change.Update? ==> |r| == |rows|
    ensures change.Update? ==> forall i :: 0 <= i < |rows| ==>
              r[i] == (if pk(rows[i]) == pk(change.row) then change.row else rows[i])
    ensures change.Delete? ==> r == Filter(rows, (x: T) => pk(x) != pk(change.oldRow))
    ensures change.Delete? ==> forall x :: x in r ==> pk(x) != pk(change.oldRow)
    ensures change.Other? ==> r == rows
  {
    match change
    case Insert(n) => rows + [n]
    case Update(n) => Map(rows, (x: T) => if pk(x) == pk(n) then n else x)
    case Delete(o) => Filter(rows, (x: T) => pk(x) != pk(o))
    case Other => rows
  }

  /** An update followed by a delete of the same key leaves no row with that key and
      keeps the order of the others. */
  lemma UpdateThenDelete<T(!new)>(rows: seq<T>, pk: T -> string, row: T)
    ensures ApplyChange(ApplyChange(rows, pk, Update(row)), pk, Delete(row))
            == ApplyChange(rows, pk, Delete(row))
  {
    var u := ApplyChange(rows, pk, Update(row));
    FilterMapped(rows, u, pk, row);
  }

  lemma {:induction false} FilterMapped<T(!new)>(rows: seq<T>, u: seq<T>, pk: T -> string, row: T)
    requires |u| == |rows|
    requires forall i :: 0 <= i < |rows| ==> u[i] == (if pk(rows[i]) == pk(row) then row else rows[i])
    ensures Filter(u, (x: T) => pk(x) != pk(row)) == Filter(rows, (x: T) => pk(x) != pk(row))
  {
    if |rows| > 0 {
      FilterMapped(rows[..|rows| - 1], u[..|u| - 1], pk, row);
    }
  }

  /** `{ ...job, updatedBy, updatedAt, createdBy, createdAt }` of `handleSaveJob`: a new
      job is created now by the user; an existing one keeps its creator and creation time
      unless they are missing or empty. */
  function Stamped(job: Job, userId: string, timestamp: string, isNew: bool): (r: Job)
    ensures r == job.(updatedBy := Some(userId), updatedAt := Some(timestamp),
                      createdBy := r.createdBy, createdAt := r.createdAt)
    ensures isNew ==> r.createdBy == Some(userId) && r.createdAt == Some(timestamp)
    ensures !isNew && job.createdBy.Some? && job.createdBy.value != "" ==> r.createdBy == job.createdBy
    ensures !isNew && job.createdAt.Some? && job.createdAt.value != "" ==> r.createdAt == job.createdAt
    ensures userId != "" ==> r.createdBy.Some? && r.createdBy.value != ""
  {
    var keepBy := !isNew && job.createdBy.Some? && job.createdBy.value != "";
    var keepAt := !isNew && job.createdAt.Some? && job.createdAt.value != "";
    job.(updatedBy := Some(userId), updatedAt := Some(timestamp),
         createdBy := if keepBy then job.createdBy else Some(userId),
         createdAt := if keepAt then job.createdAt else Some(timestamp))
  }

  /** Replacing by id: `jobs.map(j => j.id === saved.id ? saved : j)`. */
  function ReplaceById(jobs: seq<Job>, saved: Job): (r: seq<Job>)
    ensures |r| == |jobs|
    ensures forall i :: 0 <= i < |jobs| ==> r[i] == (if jobs[i].id == saved.id then saved else jobs[i])
  {
    Map(jobs, (j: Job) => if j.id == saved.id then saved else j)
  }

  /** A new job record as `handleNewJob` opens it: `job-` and the clock reading as id,
      today as start date, received. */
  function NewJobTemplate(now: nat, today: Date): Job
    requires Valid(today)
  {
    Job("job-" + Decimal(now), "", "", "", "", 0, 0, 0, 0, Format(today), "", ProcessStatus.Received.Label(),
        None, None, None, None, None)
  }

  /** `handleDuplicateJob`: a copy with a fresh id, today as start, no delivery date,
      received status and no audit fields. */
  function Duplicated(source: Job, now: nat, today: Date): (r: Job)
    requires Valid(today)
    ensures r.productName == source.productName && r.clientId == source.clientId
    ensures r.platingTypeId == source.platingTypeId && r.jigId == source.jigId
    ensures r.quantity == source.quantity && r.unitPrice == source.unitPrice && r.memo == source.memo
    ensures r.price == source.price && r.cost == source.cost
    ensures r.id == "job-" + Decimal(now) && r.startDate == Format(today) && r.deliveryDate == ""
    ensures r.status == ProcessStatus.Received.Label()
    ensures r.createdBy.None? && r.createdAt.None? && r.updatedBy.None? && r.updatedAt.None?
  {
    source.(id := "job-" + Decimal(now), startDate := Format(today), deliveryDate := "",
            status := ProcessStatus.Received.Label(), memo := source.memo,
            createdBy := None, createdAt := None, updatedBy := None, updatedAt := None)
  }

  /** The user a username and password log in as: the first account with both, if any. */
  function LoginUser(users: seq<UserAccount>, username: string, password: string): (r: Option<UserAccount>)
    ensures r.Some? <==> exists u :: u in users && u.username == username && u.password == Some(password)
    ensures r.Some? ==> r.value in users && r.value.username == username && r.value.password == Some(password)
    ensures r.Some? ==> exists i :: 0 <= i < |users| && r.value == users[i]
                          && forall k :: 0 <= k < i ==> !(users[k].username == username && users[k].password == Some(password))
  {
    FindFirst(users, (u: UserAccount) => u.username == username && u.password == Some(password))
  }

  /** The view mode of the job list. */
  datatype ViewMode = ListView | KanbanView | GanttView

  /** Every field of `App`, as one value. */
  datatype AppState = AppState(
    jobs: seq<Job>, selectedJobIds: seq<string>, currentUser: Option<UserAccount>, paginationPage: int,
    itemsPerPage: int, filters: Filters, viewMode: ViewMode, correspondenceLogs: seq<CorrespondenceLog>,
    users: seq<UserAccount>, selectedJob: Option<Job>, isDetailModalOpen: bool, isNewJob: bool)

  /** The job dialog opened on `job` as `handleSelectJob`, `handleNewJob` and
      `handleDuplicateJob` evidently intend: the job selected, `isNewJob` set and the
      dialog open, with everything else as it was. */
  function Opened(s: AppState, job: Job, isNew: bool): (r: AppState)
    ensures r.selectedJob == Some(job) && r.isNewJob == isNew && r.isDetailModalOpen
    ensures r.(selectedJob := s.selectedJob, isNewJob := s.isNewJob, isDetailModalOpen := s.isDetailModalOpen) == s
  {
    s.(selectedJob := Some(job), isNewJob := isNew, isDetailModalOpen := true)
  }

  /** The same three handlers as written: `setSelectedJob(job)` is queued, then the call
      of the undeclared `setIsNewJob` throws a `ReferenceError`, so
      `setIsDetailModalOpen(true)` is never reached. */
  function OpenedAsWritten(s: AppState, job: Job): (r: AppState)
    ensures r.selectedJob == Some(job) && r.isDetailModalOpen == s.isDetailModalOpen
    ensures r.(selectedJob := s.selectedJob) == s
  {
    s.(selectedJob := Some(job))
  }

  /** As written, a closed job dialog stays closed, where the intended handler opens it;
      the dialog is drawn only while `isDetailModalOpen` holds. */
  lemma OpenedAsWrittenStaysClosed(s: AppState, job: Job, isNew: bool)
    requires !s.isDetailModalOpen
    ensures !OpenedAsWritten(s, job).isDetailModalOpen
    ensures Opened(s, job, isNew).isDetailModalOpen
    ensures OpenedAsWritten(s, job) != Opened(s, job, isNew)
  {
  }

  class App {
    var jobs: seq<Job>
    var selectedJobIds: seq<string>
    var currentUser: Option<UserAccount>
    var paginationPage: int
    var itemsPerPage: int
    var filters: Filters
    var viewMode: ViewMode
    var correspondenceLogs: seq<CorrespondenceLog>
    var users: seq<UserAccount>
    var selectedJob: Option<Job>
    var isDetailModalOpen: bool
    /** Whether the open form is for a new job. */
    var isNewJob: bool

    /** The whole state, as one value: each handler below states which of its fields
        change, and `State() == old(State()).(...)` keeps every other one. */
    function State(): AppState
      reads this
    {
      AppState(jobs, selectedJobIds, currentUser, paginationPage, itemsPerPage, filters, viewMode,
               correspondenceLogs, users, selectedJob, isDetailModalOpen, isNewJob)
    }

    /** The page stays at one or more, and the page size positive. */
    predicate Valid()
      reads this
    {
      paginationPage >= 1 && itemsPerPage > 0
    }

    constructor (jobs: seq<Job>, logs: seq<CorrespondenceLog>, users: seq<UserAccount>, currentUser: Option<UserAccount>)
      ensures Valid()
      ensures this.jobs == jobs && this.correspondenceLogs == logs && this.users == users
      ensures this.currentUser == currentUser
      ensures selectedJobIds == [] && paginationPage == 1 && itemsPerPage == 20
      ensures filters == DefaultFilters() && viewMode == GanttView
      ensures selectedJob.None? && !isDetailModalOpen && !isNewJob
    {
      this.jobs := jobs;
      this.correspondenceLogs := logs;
      this.users := users;
      this.currentUser := currentUser;
      selectedJobIds := [];
      paginationPage := 1;
      itemsPerPage := 20;
      filters := DefaultFilters();
      viewMode := GanttView;
      selectedJob := None;
      isDetailModalOpen := false;
      isNewJob := false;
    }

    function Filtered(): seq<Job>
      reads this
    {
      FilteredJobs(jobs, filters)
    }

    function PageCount(): int
      reads this
      requires Valid()
    {
      TotalPages(|Filtered()|, itemsPerPage)
    }

    /** The jobs on the shown page. */
    function PaginatedJobs(): (r: seq<Job>)
      reads this
      requires Valid()
      ensures r == Page(Filtered(), paginationPage, itemsPerPage)
      ensures |r| <= itemsPerPage
      ensures forall j :: j in r ==> j in jobs && Matches(j, filters)
    {
      Page(Filtered(), paginationPage, itemsPerPage)
    }

    /** `handleToggleSelectJob`. */
    method ToggleSelectJob(id: string)
      modifies this
      requires Valid()
      ensures Valid()
      ensures selectedJobIds == Toggled(old(selectedJobIds), id)
      ensures State() == old(State()).(selectedJobIds := selectedJobIds)
    {
      selectedJobIds := Toggled(selectedJobIds, id);
    }

    /** `handleSelectAllJobs`. */
    method SelectAllJobs(ids: seq<string>)
      modifies this
      requires Valid()
      ensures Valid()
      ensures selectedJobIds == ids
      ensures State() == old(State()).(selectedJobIds := selectedJobIds)
    {
      selectedJobIds := ids;
    }

    /** `handleBulkDelete`: once confirmed, removes exactly the selected jobs, keeps the
        rest in order and clears the selection. */
    method BulkDelete(confirmed: bool)
      modifies this
      requires Valid()
      ensures Valid()
      ensures !confirmed ==> jobs == old(jobs) && selectedJobIds == old(selectedJobIds)
      ensures confirmed ==> jobs == Filter(old(jobs), (j: Job) => j.id !in old(selectedJobIds))
                            && selectedJobIds == []
      ensures confirmed ==> forall j :: j in jobs <==> j in old(jobs) && j.id !in old(selectedJobIds)
      ensures State() == old(State()).(jobs := jobs, selectedJobIds := selectedJobIds)
    {
      if !confirmed {
        return;
      }
      var ids := selectedJobIds;
      jobs := Filter(jobs, (j: Job) => j.id !in ids);
      selectedJobIds := [];
    }

    /** `handleBulkUpdate`: merges the same updates into exactly the selected jobs, keeps
        the order and the other jobs, and clears the selection. */
    method BulkUpdate(updates: Updates)
      modifies this
      requires Valid()
      ensures Valid()
      ensures |jobs| == |old(jobs)|
      ensures forall i :: 0 <= i < |jobs| ==>
                jobs[i] == (if old(jobs)[i].id in old(selectedJobIds) then ApplyUpdates(old(jobs)[i], updates)
                            else old(jobs)[i])
      ensures selectedJobIds == []
      ensures State() == old(State()).(jobs := jobs, selectedJobIds := selectedJobIds)
    {
      var ids := selectedJobIds;
      jobs := Map(jobs, (j: Job) => if j.id in ids then ApplyUpdates(j, updates) else j);
      selectedJobIds := [];
    }

    /** `handleSelectJob`: opens an existing job. */
    method SelectJob(job: Job)
      modifies this
      requires Valid()
      ensures Valid()
      ensures selectedJob == Some(job) && !isNewJob && isDetailModalOpen
      ensures State() == Opened(old(State()), job, false)
      ensures State() == old(State()).(selectedJob := selectedJob, isNewJob := isNewJob, isDetailModalOpen := isDetailModalOpen)
    {
      selectedJob := Some(job);
      isNewJob := false;
      isDetailModalOpen := true;
    }

    /** `handleNewJob`, with the clock reading and today's date passed in. */
    method NewJob(now: nat, today: Date)
      modifies this
      requires Valid() && CivilDate.Valid(today)
      ensures Valid()
      ensures selectedJob == Some(NewJobTemplate(now, today)) && isNewJob && isDetailModalOpen
      ensures State() == Opened(old(State()), NewJobTemplate(now, today), true)
      ensures State() == old(State()).(selectedJob := selectedJob, isNewJob := isNewJob, isDetailModalOpen := isDetailModalOpen)
    {
      selectedJob := Some(NewJobTemplate(now, today));
      isNewJob := true;
      isDetailModalOpen := true;
    }

    /** `handleDuplicateJob`. */
    method DuplicateJob(source: Job, now: nat, today: Date)
      modifies this
      requires Valid() && CivilDate.Valid(today)
      ensures Valid()
      ensures selectedJob == Some(Duplicated(source, now, today)) && isNewJob && isDetailModalOpen
      ensures State() == Opened(old(State()), Duplicated(source, now, today), true)
      ensures State() == old(State()).(selectedJob := selectedJob, isNewJob := isNewJob, isDetailModalOpen := isDetailModalOpen)
    {
      selectedJob := Some(Duplicated(source, now, today));
      isNewJob := true;
      isDetailModalOpen := true;
    }

    /** `handleCloseModal`. */
    method CloseModal()
      modifies this
      requires Valid()
      ensures Valid()
      ensures !isDetailModalOpen && selectedJob.None?
      ensures State() == old(State()).(selectedJob := selectedJob, isDetailModalOpen := isDetailModalOpen)
    {
      isDetailModalOpen := false;
      selectedJob := None;
    }

    /** `handleSaveJob` in local mode: without a logged-in user nothing happens;
        otherwise the stamped job is appended when new or replaces the job with its id,
        and the form closes. */
    method SaveJob(job: Job, timestamp: string)
      modifies this
      requires Valid()
      ensures Valid()
      ensures old(currentUser).None? ==>
                jobs == old(jobs) && isDetailModalOpen == old(isDetailModalOpen) && selectedJob == old(selectedJob)
      ensures old(currentUser).Some? ==>
                var saved := Stamped(job, old(currentUser).value.id, timestamp, old(isNewJob));
                && jobs == (if old(isNewJob) then old(jobs) + [saved] else ReplaceById(old(jobs), saved))
                && !isDetailModalOpen && selectedJob.None?
      ensures State() == old(State()).(jobs := jobs, selectedJob := selectedJob, isDetailModalOpen := isDetailModalOpen)
    {
      if currentUser.None? {
        return;
      }
      var saved := Stamped(job, currentUser.value.id, timestamp, isNewJob);
      if isNewJob {
        jobs := jobs + [saved];
      } else {
        jobs := ReplaceById(jobs, saved);
      }
      isDetailModalOpen := false;
      selectedJob := None;
    }

    /** `handleDeleteJob` in local mode: once confirmed, removes every job with that id
        and closes the form. */
    method DeleteJob(id: string, confirmed: bool)
      modifies this
      requires Valid()
      ensures Valid()
      ensures !confirmed ==> State() == old(State())
      ensures confirmed ==> jobs == Filter(old(jobs), (j: Job) => j.id != id) && !isDetailModalOpen
      ensures confirmed ==> selectedJob.None?
      ensures State() == old(State()).(jobs := jobs, selectedJob := selectedJob, isDetailModalOpen := isDetailModalOpen)
    {
      if confirmed {
        jobs := Filter(jobs, (j: Job) => j.id != id);
        isDetailModalOpen := false;
        selectedJob := None;
      }
    }

    /** `handleSaveCorrespondenceLog` in local mode: the log, stamped with an id from the
        clock, the time and the user, goes first in the list. */
    method SaveCorrespondenceLog(clientId: string, jobId: Option<string>, temperature: int, memo: string, now: nat)
      modifies this
      requires Valid()
      ensures Valid()
      ensures old(currentUser).None? ==> correspondenceLogs == old(correspondenceLogs)
      ensures old(currentUser).Some? ==>
                correspondenceLogs == [CorrespondenceLog("cl-" + Decimal(now), clientId, jobId, now,
                                                         old(currentUser).value.id, temperature, memo)]
                                      + old(correspondenceLogs)
      ensures State() == old(State()).(correspondenceLogs := correspondenceLogs)
    {
      if currentUser.None? {
        return;
      }
      var log := CorrespondenceLog("cl-" + Decimal(now), clientId, jobId, now, currentUser.value.id, temperature, memo);
      correspondenceLogs := [log] + correspondenceLogs;
    }

    /** `handleDeleteCorrespondenceLog` in local mode. */
    method DeleteCorrespondenceLog(logId: string, confirmed: bool)
      modifies this
      requires Valid()
      ensures Valid()
      ensures correspondenceLogs == if confirmed then Filter(old(correspondenceLogs), (l: CorrespondenceLog) => l.id != logId)
                                    else old(correspondenceLogs)
      ensures State() == old(State()).(correspondenceLogs := correspondenceLogs)
    {
      if confirmed {
        correspondenceLogs := Filter(correspondenceLogs, (l: CorrespondenceLog) => l.id != logId);
      }
    }

    /** `setFilters` followed by the effect that goes back to page one. */
    method SetFilters(f: Filters)
      modifies this
      requires Valid()
      ensures Valid()
      ensures filters == f && paginationPage == 1
      ensures State() == old(State()).(filters := filters, paginationPage := paginationPage)
    {
      filters := f;
      paginationPage := 1;
    }

    /** `handleResetFilters`. */
    method ResetFilters()
      modifies this
      requires Valid()
      ensures Valid()
      ensures filters == DefaultFilters() && paginationPage == 1
      ensures State() == old(State()).(filters := filters, paginationPage := paginationPage)
    {
      SetFilters(DefaultFilters());
    }

    /** Choosing a page size; the effect on `itemsPerPage` goes back to page one when
        the size differs. */
    method SetItemsPerPage(n: int)
      modifies this
      requires Valid() && n > 0
      ensures Valid()
      ensures itemsPerPage == n
      ensures paginationPage == if n == old(itemsPerPage) then old(paginationPage) else 1
      ensures State() == old(State()).(itemsPerPage := itemsPerPage, paginationPage := paginationPage)
    {
      if n != itemsPerPage {
        itemsPerPage := n;
        paginationPage := 1;
      }
    }

    /** Choosing list, kanban or gantt view; the effect on `viewMode` goes back to page
        one when the view differs. */
    method SetViewMode(m: ViewMode)
      modifies this
      requires Valid()
      ensures Valid()
      ensures viewMode == m
      ensures paginationPage == if m == old(viewMode) then old(paginationPage) else 1
      ensures State() == old(State()).(viewMode := viewMode, paginationPage := paginationPage)
    {
      if m != viewMode {
        viewMode := m;
        paginationPage := 1;
      }
    }

    /** The previous-page button: disabled on page one, otherwise one page back. */
    method PrevPage()
      modifies this
      requires Valid()
      ensures Valid()
      ensures paginationPage == if old(paginationPage) == 1 then 1 else old(paginationPage) - 1
      ensures State() == old(State()).(paginationPage := paginationPage)
    {
      if paginationPage != 1 {
        paginationPage := if paginationPage - 1 > 1 then paginationPage - 1 else 1;
      }
    }

    /** The next-page button: disabled on the last page (or beyond it), otherwise one page
        on, never past the last. */
    method NextPage()
      modifies this
      requires Valid()
      ensures Valid()
      ensures old(paginationPage) >= old(PageCount()) ==> paginationPage == old(paginationPage)
      ensures old(paginationPage) < old(PageCount()) ==>
                paginationPage == old(paginationPage) + 1 && paginationPage <= PageCount()
      ensures State() == old(State()).(paginationPage := paginationPage)
    {
      var total := PageCount();
      if paginationPage < total {
        paginationPage := if total < paginationPage + 1 then total else paginationPage + 1;
      }
    }

    /** `handleLogin`: on success the matching account, without its password, becomes the
        current user; on failure nothing changes. */
    method Login(username: string, password: string) returns (ok: bool)
      modifies this
      requires Valid()
      ensures Valid()
      ensures ok <==> exists u :: u in users && u.username == username && u.password == Some(password)
      ensures ok ==> currentUser == Some(LoginUser(users, username, password).value.(password := None))
      ensures !ok ==> currentUser == old(currentUser)
      ensures currentUser.Some? && currentUser != old(currentUser) ==> currentUser.value.password.None?
      ensures State() == old(State()).(currentUser := currentUser)
    {
      var user := LoginUser(users, username, password);
      if user.Some? {
        currentUser := Some(user.value.(password := None));
        return true;
      }
      return false;
    }

    /** `handleLogout`. */
    method Logout()
      modifies this
      requires Valid()
      ensures Valid()
      ensures currentUser.None?
      ensures State() == old(State()).(currentUser := currentUser)
    {
      currentUser := None;
    }

    /** A change event on the jobs table applied to the list. */
    method ApplyJobChange(change: Change<Job>)
      modifies this
      requires Valid()
      ensures Valid()
      ensures jobs == ApplyChange(old(jobs), (j: Job) => j.id, change)
      ensures State() == old(State()).(jobs := jobs)
    {
      jobs := ApplyChange(jobs, (j: Job) => j.id, change);
    }
  }
}
