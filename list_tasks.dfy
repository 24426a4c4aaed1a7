/** The paged task list.

    The table asks the backend for one page of tasks at a time, or for up
    to 1000 tasks at once in show-all mode. The backend does not report how
    many tasks exist, so the total the table shows is the number of tasks
    up to the end of the page just fetched. */
module ListTasks {
  import opened Api

  /** The limit asked for in show-all mode. */
  const SHOW_ALL_LIMIT: int := 1000
  /** The page size the table starts with. */
  const DEFAULT_PAGE_SIZE: int := 10

  datatype Task = Task(id: int, subject: string, description: string)

  /** The table's pagination: the page shown, its size and the total. */
  datatype Pagination = Pagination(current: int, pageSize: int, total: int)

  /** A list-tasks response body: an array of tasks, or anything else. */
  datatype ListBody = Rows(rows: seq<Task>) | NotAnArray

  /** An entry of the page-size selector: a number of rows, or all rows. */
  datatype PageSizeChoice = Size(n: int) | All

  /** The part of the table's state that fetching and paging change. */
  datatype ListState = ListState(tasks: seq<Task>, pagination: Pagination, showAll: bool)

  /** The request for `page` of size `pageSize`: in show-all mode the first
      1000 tasks, otherwise the page-sized window that skips the earlier
      pages. */
  function ListRequest(showAll: bool, page: int, pageSize: int): (r: Call)
    ensures r.ListTasks?
    ensures showAll ==> r.limit == 1000 && r.offset == 0
    ensures !showAll ==> r.limit == pageSize && r.offset == (page - 1) * pageSize
  {
    ListTasks(if showAll then SHOW_ALL_LIMIT else pageSize, (page - 1) * (if showAll then 0 else pageSize))
  }

  /** The total shown after `count` tasks arrived for `page`: the number of
      tasks fetched in show-all mode, otherwise the position just past the
      last task of this page. */
  function PageTotal(showAll: bool, page: int, pageSize: int, count: nat): (t: int)
    ensures showAll ==> t == count
    ensures !showAll ==> t == ListRequest(false, page, pageSize).offset + count
  {
    if showAll then count else count + (page - 1) * pageSize
  }

  /** Consecutive pages ask for adjacent windows: page `page + 1` starts
      where page `page` ends, so paging forward skips and repeats nothing. */
  lemma PagesAreAdjacent(page: int, pageSize: int)
    ensures ListRequest(false, page + 1, pageSize).offset ==
      ListRequest(false, page, pageSize).offset + ListRequest(false, page, pageSize).limit
  {
  }

  /** From the first page on, a request never asks for a negative offset
      and the total covers the tasks just fetched. */
  lemma TotalCoversPage(showAll: bool, page: int, pageSize: int, count: nat)
    requires page >= 1 && pageSize >= 0
    ensures ListRequest(showAll, page, pageSize).offset >= 0
    ensures PageTotal(showAll, page, pageSize, count) >= count
  {
  }

  /** The state after the request for `page` of size `pageSize` returned
      `response`. An array replaces the tasks, makes `page` current and
      recomputes the total, keeping the page size; anything else empties
      the table and keeps the pagination. */
  function Fetch(s: ListState, page: int, pageSize: int, response: Response<ListBody>): (r: ListState)
    ensures r.showAll == s.showAll
    ensures response.Ok? && response.data.Rows? ==>
      r.tasks == response.data.rows &&
      r.pagination == Pagination(page, s.pagination.pageSize, PageTotal(s.showAll, page, pageSize, |r.tasks|))
    ensures !(response.Ok? && response.data.Rows?) ==> r.tasks == [] && r.pagination == s.pagination
  {
    match response
    case Ok(Rows(rows)) =>
      ListState(rows, s.pagination.(current := page, total := PageTotal(s.showAll, page, pageSize, |rows|)), s.showAll)
    case _ => s.(tasks := [])
  }

  /** The synchronous part of choosing a page size: the mode follows the
      choice, the first page becomes current, and in show-all mode the page
      size becomes the number of tasks on display. */
  function ChoosePageSize(s: ListState, choice: PageSizeChoice): (r: ListState)
    ensures r.showAll <==> choice.All?
    ensures r.pagination.current == 1
    ensures r.pagination.pageSize == if choice.All? then |s.tasks| else choice.n
    ensures r.pagination.total == s.pagination.total && r.tasks == s.tasks
  {
    match choice
    case All => ListState(s.tasks, s.pagination.(pageSize := |s.tasks|, current := 1), true)
    case Size(n) => ListState(s.tasks, s.pagination.(pageSize := n, current := 1), false)
  }

  /** The table is on a real page, its page size is not negative, and the
      total counts at least the tasks on display. */
  predicate Consistent(s: ListState) {
    s.pagination.current >= 1 && s.pagination.pageSize >= 0 && s.pagination.total >= |s.tasks|
  }

  /** Fetching a page the table can report keeps the state consistent. */
  lemma FetchKeepsConsistent(s: ListState, page: int, pageSize: int, response: Response<ListBody>)
    requires Consistent(s) && page >= 1 && pageSize >= 0
    ensures Consistent(Fetch(s, page, pageSize, response))
  {
  }

  /** Choosing show-all or a page size of at least zero keeps the state
      consistent. */
  lemma ChooseKeepsConsistent(s: ListState, choice: PageSizeChoice)
    requires Consistent(s) && (choice.Size? ==> choice.n >= 0)
    ensures Consistent(ChoosePageSize(s, choice))
  {
  }

  /** The task list screen. */
  class TaskTable {
    var tasks: seq<Task>
    var loading: bool
    var pagination: Pagination
    var showAll: bool

    function State(): ListState
      reads this
    {
      ListState(tasks, pagination, showAll)
    }

    /** The screen opens busy on the first page of ten, with no tasks yet;
        the show-all effect that runs on opening fetches that page. */
    constructor ()
      ensures State() == ListState([], Pagination(1, DEFAULT_PAGE_SIZE, 0), false) && loading
      ensures Consistent(State())
    {
      tasks := [];
      loading := true;
      pagination := Pagination(1, DEFAULT_PAGE_SIZE, 0);
      showAll := false;
    }

    /** Fetches `page` of size `pageSize` with the current mode; the table
        is idle afterwards whatever the outcome. */
    method FetchTasks(page: int, pageSize: int, response: Response<ListBody>) returns (call: Call)
      modifies this
      ensures call == ListRequest(old(showAll), page, pageSize)
      ensures State() == Fetch(old(State()), page, pageSize, response) && !loading
      ensures old(Consistent(State())) && page >= 1 && pageSize >= 0 ==> Consistent(State())
    {
      loading := true;
      call := ListRequest(showAll, page, pageSize);
      if Consistent(State()) && page >= 1 && pageSize >= 0 {
        FetchKeepsConsistent(State(), page, pageSize, response);
      }
      match response {
        case Ok(Rows(rows)) =>
          tasks := rows;
          pagination := pagination.(current := page, total := PageTotal(showAll, page, pageSize, |rows|));
        case _ =>
          tasks := [];
      }
      loading := false;
    }

    /** The effect run on opening and after every change of the mode:
        fetches the current page with the current page size. */
    method ShowAllEffect(response: Response<ListBody>) returns (call: Call)
      modifies this
      ensures call == ListRequest(old(showAll), old(pagination.current), old(pagination.pageSize))
      ensures State() == Fetch(old(State()), old(pagination.current), old(pagination.pageSize), response)
      ensures !loading
      ensures old(Consistent(State())) ==> Consistent(State())
    {
      call := FetchTasks(pagination.current, pagination.pageSize, response);
    }

    /** The table's own pager moved to `current` with `pageSize`. Outside
        show-all mode that page is fetched; in show-all mode nothing happens. */
    method HandleTableChange(current: int, pageSize: int, response: Response<ListBody>) returns (call: Option<Call>)
      modifies this
      ensures call.Some? <==> !old(showAll)
      ensures old(showAll) ==> State() == old(State()) && loading == old(loading)
      ensures !old(showAll) ==>
        call == Some(ListRequest(false, current, pageSize)) &&
        State() == Fetch(old(State()), current, pageSize, response) && !loading
      ensures old(Consistent(State())) && current >= 1 && pageSize >= 0 ==> Consistent(State())
    {
      call := None;
      if !showAll {
        var c := FetchTasks(current, pageSize, response);
        call := Some(c);
      }
    }

    /** The page-size selector changed. Show-all switches the mode and
        sizes the single page to the tasks on display; its fetch is left to
        the effect. A number switches show-all off, makes the first page
        current and fetches it with the new size. `effectDue` tells whether
        the mode changed, so that the show-all effect runs next. */
    method HandlePageSizeChange(choice: PageSizeChoice, response: Response<ListBody>)
      returns (call: Option<Call>, effectDue: bool)
      modifies this
      ensures effectDue <==> showAll != old(showAll)
      ensures choice.All? ==> call == None && State() == ChoosePageSize(old(State()), All) && loading == old(loading)
      ensures choice.Size? ==>
        call == Some(ListTasks(choice.n, 0)) &&
        State() == Fetch(ChoosePageSize(old(State()), choice), 1, choice.n, response) && !loading
      ensures old(Consistent(State())) && (choice.Size? ==> choice.n >= 0) ==> Consistent(State())
    {
      var wasShowAll := showAll;
      if Consistent(State()) && (choice.Size? ==> choice.n >= 0) {
        ChooseKeepsConsistent(State(), choice);
      }
      match choice {
        case All =>
          showAll := true;
          pagination := pagination.(pageSize := |tasks|, current := 1);
          call := None;
        case Size(n) =>
          showAll := false;
          pagination := pagination.(pageSize := n, current := 1);
          var c := FetchTasks(1, n, response);
          call := Some(c);
      }
      effectDue := showAll != wasShowAll;
    }
  }
}
