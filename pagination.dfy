/**
 * `usePaginatedFetchData`: the hook behind every list page. It keeps one page of a remote
 * collection, the pages on either side of it and the server's total count, and refetches whenever
 * the current page changes. Each GET is answered by an oracle `server`; `None` is a failed request
 * (a network error or an error status, which axios turns into an exception).
 */
module Pagination {
  import opened Wrappers

  /** The page size of every request. The hook takes only the collection's path: there is no size parameter. */
  const PageSize: int := 5

  /** `GET {url}/{page}/{pageSize}`. */
  datatype Request = Request(url: string, page: int, pageSize: int)

  /** The body of a successful response: `{ data: Item[], count: number }`. */
  datatype PageResponse<T> = PageResponse(data: seq<T>, count: int)

  /** What a fetch does that an observer can see, in order: raise `loading`, send GETs, clear `loading`. */
  datatype Event = LoadingOn | Get(request: Request) | LoadingOff

  /** The state a fetch writes, apart from `loading`. `None` is the source's `null`. */
  datatype Window<T> = Window(
    data: Option<seq<T>>,
    previousData: Option<seq<T>>,
    nextData: Option<seq<T>>,
    count: int,
    error: bool)

  /** The requests one fetch of `page` would send if none failed: the page, the one before it if that is at least 1, the one after. */
  function Planned(url: string, page: int): seq<Request> {
    [Request(url, page, PageSize)]
      + (if page - 1 < 1 then [] else [Request(url, page - 1, PageSize)])
      + [Request(url, page + 1, PageSize)]
  }

  /** The requests of `plan` that go out: each is sent only after the one before it succeeded. */
  function SendUntilFailure<T>(plan: seq<Request>, server: Request -> Option<PageResponse<T>>): seq<Request> {
    if plan == [] then []
    else if server(plan[0]).None? then [plan[0]]
    else [plan[0]] + SendUntilFailure(plan[1..], server)
  }

  /** The requests the fetch of `page` sends, in order. */
  function Issued<T>(url: string, page: int, server: Request -> Option<PageResponse<T>>): seq<Request> {
    SendUntilFailure(Planned(url, page), server)
  }

  /** The requests `plan` sends are a prefix of it; all but the last succeed, and it stops early only on a failure. */
  lemma {:induction false} SendUntilFailureSpec<T>(plan: seq<Request>, server: Request -> Option<PageResponse<T>>)
    ensures var sent := SendUntilFailure(plan, server); |sent| <= |plan| && sent == plan[..|sent|]
    ensures plan != [] ==> SendUntilFailure(plan, server) != []
    ensures var sent := SendUntilFailure(plan, server); forall i :: 0 <= i < |sent| - 1 ==> server(sent[i]).Some?
    ensures var sent := SendUntilFailure(plan, server); |sent| < |plan| ==> sent != [] && server(sent[|sent| - 1]).None?
  {
    if plan != [] && server(plan[0]).Some? {
      SendUntilFailureSpec(plan[1..], server);
      var rest := SendUntilFailure(plan[1..], server);
      var sent := [plan[0]] + rest;
      assert SendUntilFailure(plan, server) == sent;
      assert plan[..|sent|] == [plan[0]] + plan[1..][..|rest|];
      forall i | 0 <= i < |sent| - 1 ensures server(sent[i]).Some? {
        if i > 0 {
          assert sent[i] == rest[i - 1];
        }
      }
      if |sent| < |plan| {
        assert sent[|sent| - 1] == rest[|rest| - 1];
      }
    }
  }

  /**
   * Request order of one fetch: the current page first, then the previous page only when it is at
   * least 1, then the next page, each with page size 5; a failed request ends the sequence.
   */
  lemma IssuedOrder<T>(url: string, page: int, server: Request -> Option<PageResponse<T>>)
    ensures var sent := Issued(url, page, server);
      && 1 <= |sent| <= |Planned(url, page)| && sent == Planned(url, page)[..|sent|]
      && sent[0] == Request(url, page, PageSize)
      && (forall i :: 0 <= i < |sent| ==> sent[i].url == url && sent[i].pageSize == PageSize)
      && (Request(url, page - 1, PageSize) in sent ==> page - 1 >= 1)
      && (forall i :: 0 <= i < |sent| - 1 ==> server(sent[i]).Some?)
      && (|sent| < |Planned(url, page)| ==> server(sent[|sent| - 1]).None?)
  {
    SendUntilFailureSpec(Planned(url, page), server);
  }

  /** The tail of a fetch: commit the current page and the next one, or report the failed next request. */
  function CommitNext<T>(w: Window<T>, current: PageResponse<T>, next: Option<PageResponse<T>>): Window<T> {
    match next
    case None => w.(error := true)
    case Some(n) => w.(data := Some(current.data), count := current.count, nextData := Some(n.data), error := false)
  }

  /** The window after fetching `page`, starting from `w`: the source's try block, stage by stage. */
  function FetchWindow<T>(w: Window<T>, url: string, page: int, server: Request -> Option<PageResponse<T>>): Window<T> {
    match server(Request(url, page, PageSize))
    case None => w.(error := true)
    case Some(current) =>
      var next := server(Request(url, page + 1, PageSize));
      if page - 1 < 1 then CommitNext(w.(previousData := None), current, next)
      else
        match server(Request(url, page - 1, PageSize))
        case None => w.(error := true)
        case Some(previous) => CommitNext(w.(previousData := Some(previous.data)), current, next)
  }

  /** A fetch reports an error exactly when one of its planned requests would fail. */
  lemma {:induction false} FetchErrorIff<T>(w: Window<T>, url: string, page: int, server: Request -> Option<PageResponse<T>>)
    ensures FetchWindow(w, url, page, server).error
      <==> exists i :: 0 <= i < |Planned(url, page)| && server(Planned(url, page)[i]).None?
  {
    var plan := Planned(url, page);
    var cur := Request(url, page, PageSize);
    var prev := Request(url, page - 1, PageSize);
    var next := Request(url, page + 1, PageSize);
    if page - 1 < 1 {
      assert plan == [cur, next];
      if server(cur).None? {
        assert server(plan[0]).None?;
      } else if server(next).None? {
        assert server(plan[1]).None?;
      }
    } else {
      assert plan == [cur, prev, next];
      if server(cur).None? {
        assert server(plan[0]).None?;
      } else if server(prev).None? {
        assert server(plan[1]).None?;
      } else if server(next).None? {
        assert server(plan[2]).None?;
      }
    }
  }

  /**
   * A fetch that succeeds takes `data` and `count` from the current page's response and
   * `nextData` from the next page's, and clears `error`; one that fails keeps `data`, `count` and
   * `nextData` as they were.
   */
  lemma FetchDataStaleOnFailure<T>(w: Window<T>, url: string, page: int, server: Request -> Option<PageResponse<T>>)
    ensures var w' := FetchWindow(w, url, page, server);
      && (!w'.error ==>
            && server(Request(url, page, PageSize)).Some? && server(Request(url, page + 1, PageSize)).Some?
            && w'.data == Some(server(Request(url, page, PageSize)).value.data)
            && w'.count == server(Request(url, page, PageSize)).value.count
            && w'.nextData == Some(server(Request(url, page + 1, PageSize)).value.data))
      && (w'.error ==> w'.data == w.data && w'.count == w.count && w'.nextData == w.nextData)
  {
  }

  /**
   * What becomes of `previousData`: kept when the current page fails; `null` on the first page
   * (or below) once the current page arrived; otherwise the previous page's items if that
   * request succeeded, and kept if it failed.
   */
  lemma FetchPreviousData<T>(w: Window<T>, url: string, page: int, server: Request -> Option<PageResponse<T>>)
    ensures var w' := FetchWindow(w, url, page, server);
      var current := server(Request(url, page, PageSize));
      var previous := server(Request(url, page - 1, PageSize));
      w'.previousData ==
        if current.None? then w.previousData
        else if page <= 1 then None
        else if previous.None? then w.previousData
        else Some(previous.value.data)
  {
  }

  /**
   * The partial update the source leaves behind when only the next page fails: `previousData`
   * already holds the new previous page, while `data` still holds the old current page.
   */
  lemma NextFailureLeavesNewPrevious<T>(w: Window<T>, url: string, page: int, server: Request -> Option<PageResponse<T>>)
    requires page >= 2
    requires server(Request(url, page, PageSize)).Some?
    requires server(Request(url, page - 1, PageSize)).Some?
    requires server(Request(url, page + 1, PageSize)).None?
    ensures var w' := FetchWindow(w, url, page, server);
      && w'.error
      && w'.previousData == Some(server(Request(url, page - 1, PageSize)).value.data)
      && w'.data == w.data && w'.count == w.count && w'.nextData == w.nextData
  {
  }

  /** On the first page no previous-page request goes out, and `previousData` becomes `null` once the page arrives. */
  lemma FirstPageHasNoPrevious<T>(w: Window<T>, url: string, server: Request -> Option<PageResponse<T>>)
    ensures forall i :: 0 <= i < |Issued(url, 1, server)| ==> Issued(url, 1, server)[i].page != 0
    ensures server(Request(url, 1, PageSize)).Some? ==> FetchWindow(w, url, 1, server).previousData == None
  {
    var plan := Planned(url, 1);
    assert plan == [Request(url, 1, PageSize), Request(url, 2, PageSize)];
    SendUntilFailureSpec(plan, server);
  }

  /** The hook's state. `refetch` in the source is `fetchData` itself, modelled by `FetchData`. */
  class PaginatedFetch<T> {
    const url: string
    var data: Option<seq<T>>
    var previousData: Option<seq<T>>
    var nextData: Option<seq<T>>
    var count: int
    var loading: bool
    var error: bool
    var currentPage: int
    /** Every event of every fetch so far. */
    ghost var log: seq<Event>

    function CurrentWindow(): Window<T>
      reads this
    {
      Window(data, previousData, nextData, count, error)
    }

    /** The state before the first effect runs. */
    constructor (url: string)
      ensures this.url == url
      ensures data == None && previousData == None && nextData == None
      ensures count == 0 && loading && !error && currentPage == 1
      ensures log == []
    {
      this.url := url;
      data, previousData, nextData := None, None, None;
      count, loading, error, currentPage := 0, true, false, 1;
      log := [];
    }

    /**
     * `fetchData` (also returned as `refetch`): fetch the current page and its neighbours.
     * `loading` is raised first and cleared last, whatever happens; the page is not changed.
     */
    method FetchData(server: Request -> Option<PageResponse<T>>)
      modifies this
      ensures CurrentWindow() == FetchWindow(old(CurrentWindow()), url, old(currentPage), server)
      ensures log == old(log) + [LoadingOn] + Gets(Issued(url, old(currentPage), server)) + [LoadingOff]
      ensures !loading && currentPage == old(currentPage)
    {
      loading := true;
      log := log + [LoadingOn];
      var page := currentPage;
      ghost var start := CurrentWindow();
      var failed := false;
      var currentRequest := Request(url, page, PageSize);
      log := log + [Get(currentRequest)];
      var response := server(currentRequest);
      if response.None? {
        failed := true;
      } else {
        var nextPage := page + 1;
        var previousPage := page - 1;
        if previousPage < 1 {
          previousData := None;
        } else {
          var previousRequest := Request(url, previousPage, PageSize);
          log := log + [Get(previousRequest)];
          var previousResponse := server(previousRequest);
          if previousResponse.None? {
            failed := true;
          } else {
            previousData := Some(previousResponse.value.data);
          }
        }
        if !failed {
          var nextRequest := Request(url, nextPage, PageSize);
          log := log + [Get(nextRequest)];
          var nextResponse := server(nextRequest);
          if nextResponse.None? {
            failed := true;
          } else {
            data := Some(response.value.data);
            count := response.value.count;
            nextData := Some(nextResponse.value.data);
            error := false;
          }
        }
      }
      if failed {
        error := true;
      }
      loading := false;
      log := log + [LoadingOff];
      IssuedSequence(url, page, server);
    }

    /**
     * `setCurrentPage(p)` followed by the effect keyed on `currentPage`: the effect, and so a
     * fetch, runs only when the page actually changes.
     */
    method SetCurrentPage(p: int, server: Request -> Option<PageResponse<T>>)
      modifies this
      ensures currentPage == p
      ensures p == old(currentPage) ==> CurrentWindow() == old(CurrentWindow()) && log == old(log) && loading == old(loading)
      ensures p != old(currentPage) ==>
        && CurrentWindow() == FetchWindow(old(CurrentWindow()), url, p, server)
        && log == old(log) + [LoadingOn] + Gets(Issued(url, p, server)) + [LoadingOff]
        && !loading
    {
      if p != currentPage {
        currentPage := p;
        FetchData(server);
      }
    }
  }

  /** The log entries for a sequence of GETs. */
  function Gets(requests: seq<Request>): seq<Event> {
    seq(|requests|, i requires 0 <= i < |requests| => Get(requests[i]))
  }

  /** `Issued` spelled out by cases, in the shape the method's straight-line code produces. */
  lemma IssuedSequence<T>(url: string, page: int, server: Request -> Option<PageResponse<T>>)
    ensures var cur := Request(url, page, PageSize);
      var prev := Request(url, page - 1, PageSize);
      var next := Request(url, page + 1, PageSize);
      Issued(url, page, server) ==
        if server(cur).None? then [cur]
        else if page - 1 < 1 then [cur, next]
        else if server(prev).None? then [cur, prev]
        else [cur, prev, next]
  {
    var cur := Request(url, page, PageSize);
    var prev := Request(url, page - 1, PageSize);
    var next := Request(url, page + 1, PageSize);
    var plan := Planned(url, page);
    if page - 1 < 1 {
      assert plan == [cur, next];
      assert plan[1..] == [next];
      assert plan[1..][1..] == [];
    } else {
      assert plan == [cur, prev, next];
      assert plan[1..] == [prev, next];
      assert plan[1..][1..] == [next];
      assert plan[1..][1..][1..] == [];
      if server(cur).Some? && server(prev).Some? {
        assert SendUntilFailure(plan[1..][1..], server) == [next];
        assert SendUntilFailure(plan[1..], server) == [prev, next];
      } else if server(cur).Some? {
        assert SendUntilFailure(plan[1..], server) == [prev];
      }
    }
  }
}
