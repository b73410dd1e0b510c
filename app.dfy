/**
 The logic of the browser page (frontend/src/App.tsx): its state, the
 stage-id check before each request, the display-name filter that a React
 effect re-applies whenever the query or the data changes, and the page
 window of the table. Rendering is not modelled.

 The effect of App.tsx:84-90 runs after every render in which `searchQuery`
 or `leaderboardData` changed; each handler below ends by running it when it
 changed one of them, so `Valid()` (the visible list is the filtered data)
 holds between user actions.
 */
module App {
  import opened Types
  import opened JsStrings

  datatype Severity = Success | Error

  datatype Toast = Toast(message: string, severity: Severity)

  /** The two cloud functions the page calls. */
  datatype Endpoint = FetchLeaderboardEndpoint | GetLeaderboardEndpoint

  /** A request the page sends: endpoint and `stageId` query parameter. */
  datatype ApiRequest = ApiRequest(endpoint: Endpoint, stageId: string)

  const InvalidStageId := "Please enter a valid Stage ID."
  const ImportedMessage := "Leaderboard data imported successfully!"
  const ImportFailedMessage := "Failed to import leaderboard data. Please try again."
  const FetchedMessage := "Leaderboard data fetched successfully!"
  const FetchFailedMessage := "Failed to fetch leaderboard data."

  const DefaultRowsPerPage := 10

  /** The filter test: the lower-cased display name contains the lower-cased query. */
  predicate Matches(e: LeaderboardEntry, query: string): (m: bool)
    ensures m <==> exists i :: OccursAt(ToLower(e.displayName), ToLower(query), i)
    ensures query == [] ==> m
  {
    IncludesIffOccurs(ToLower(e.displayName), ToLower(query));
    Includes(ToLower(e.displayName), ToLower(query))
  }

  /** `leaderboardData.filter(...)`: the matching entries, in order. */
  function FilterEntries(data: seq<LeaderboardEntry>, query: string): (r: seq<LeaderboardEntry>)
    ensures |r| <= |data|
  {
    if data == [] then []
    else if Matches(data[0], query) then [data[0]] + FilterEntries(data[1..], query)
    else FilterEntries(data[1..], query)
  }

  /** `a` is `b` with some entries left out, the rest in the same order. */
  predicate IsSubsequence(a: seq<LeaderboardEntry>, b: seq<LeaderboardEntry>)
  {
    if a == [] then true
    else if b == [] then false
    else if a[0] == b[0] then IsSubsequence(a[1..], b[1..])
    else IsSubsequence(a, b[1..])
  }

  /** The visible list keeps the order of the data and leaves entries out only. */
  lemma {:induction false} FilterIsSubsequence(data: seq<LeaderboardEntry>, query: string)
    ensures IsSubsequence(FilterEntries(data, query), data)
  {
    if data != [] {
      var rest := FilterEntries(data[1..], query);
      FilterIsSubsequence(data[1..], query);
      if !Matches(data[0], query) && rest != [] {
        // an entry equal to data[0] does not match either, so it is not in `rest`
        FilterMembership(data[1..], query, rest[0]);
        assert rest[0] != data[0];
      }
    }
  }

  /** An entry is visible exactly when it is in the data and matches the query. */
  lemma {:induction false} FilterMembership(data: seq<LeaderboardEntry>, query: string, e: LeaderboardEntry)
    ensures e in FilterEntries(data, query) <==> e in data && Matches(e, query)
  {
    if data != [] {
      FilterMembership(data[1..], query, e);
      assert data == [data[0]] + data[1..];
    }
  }

  /** Every matching entry keeps all its copies, every other entry loses them all. */
  lemma {:induction false} FilterCount(data: seq<LeaderboardEntry>, query: string, e: LeaderboardEntry)
    ensures multiset(FilterEntries(data, query))[e] == if Matches(e, query) then multiset(data)[e] else 0
  {
    if data != [] {
      FilterCount(data[1..], query, e);
      assert data == [data[0]] + data[1..];
    }
  }

  /** The empty query (what Clear Filter sets) shows every entry. */
  lemma {:induction false} FilterEmptyQuery(data: seq<LeaderboardEntry>)
    ensures FilterEntries(data, "") == data
  {
    if data != [] {
      IncludesEmpty(ToLower(data[0].displayName));
      FilterEmptyQuery(data[1..]);
      assert data == [data[0]] + data[1..];
    }
  }

  /** The filter ignores the case of the query: typing it in capitals lists
      the same entries as typing it lower-cased. */
  lemma {:induction false} FilterIgnoresQueryCase(data: seq<LeaderboardEntry>, query: string)
    ensures FilterEntries(data, query) == FilterEntries(data, ToLower(query))
  {
    if data != [] {
      ToLowerIdempotent(query);
      assert Matches(data[0], query) == Matches(data[0], ToLower(query));
      FilterIgnoresQueryCase(data[1..], query);
    }
  }

  /** The id a request carries passes the page's own blank check, and
      trimming it again would change nothing. */
  lemma SentIdPassesCheck(stageId: string)
    requires Trim(stageId) != []
    ensures var sent := Trim(stageId); Trim(sent) == sent && Trim(sent) != []
  {
    TrimIdempotent(stageId);
  }

  /** `s.slice(start, end)` for non-negative bounds: both are clamped to `|s|`. */
  function Slice(s: seq<LeaderboardEntry>, start: nat, end: nat): (r: seq<LeaderboardEntry>)
    ensures start <= end <= |s| ==> r == s[start..end]
    ensures start <= |s| <= end ==> r == s[start..]
    ensures end <= start || |s| <= start ==> r == []
  {
    var lo := if start < |s| then start else |s|;
    var hi := if end < |s| then end else |s|;
    if lo <= hi then s[lo..hi] else []
  }

  /** The rows the table shows for a page. */
  function PageRows(visible: seq<LeaderboardEntry>, page: nat, rowsPerPage: nat): (rows: seq<LeaderboardEntry>)
    ensures |rows| <= rowsPerPage
    ensures forall e :: e in rows ==> e in visible
  {
    Slice(visible, page * rowsPerPage, page * rowsPerPage + rowsPerPage)
  }

  /** The shown rows are the visible entries from `page * rowsPerPage` on, at
      most `rowsPerPage` of them; a page past the end shows none. */
  lemma PageRowsWindow(visible: seq<LeaderboardEntry>, page: nat, rowsPerPage: nat)
    ensures var start := page * rowsPerPage;
      var rows := PageRows(visible, page, rowsPerPage);
      && |rows| <= rowsPerPage
      && (start <= |visible| ==>
            rows == visible[start..if start + rowsPerPage < |visible| then start + rowsPerPage else |visible|])
      && (start >= |visible| ==> rows == [])
      && (forall e :: e in rows ==> e in visible)
  {
  }

  /** Entry `i` of the visible list is row `i % rowsPerPage` of page `i / rowsPerPage`. */
  lemma PageRowsLocate(visible: seq<LeaderboardEntry>, i: nat, rowsPerPage: nat)
    requires i < |visible| && rowsPerPage > 0
    ensures var rows := PageRows(visible, i / rowsPerPage, rowsPerPage);
      i % rowsPerPage < |rows| && rows[i % rowsPerPage] == visible[i]
  {
    var start := (i / rowsPerPage) * rowsPerPage;
    assert start + i % rowsPerPage == i;
    assert start <= i < start + rowsPerPage;
  }

  /** The page's React state. */
  class LeaderboardPage {
    var stageId: string
    var leaderboardData: seq<LeaderboardEntry>
    var visibleLeaderboardData: seq<LeaderboardEntry>
    var searchQuery: string
    var page: nat
    var rowsPerPage: nat
    var toast: Option<Toast>

    /** Between user actions the visible list is the filtered data. */
    ghost predicate Valid()
      reads this
    {
      visibleLeaderboardData == FilterEntries(leaderboardData, searchQuery)
    }

    /** The initial state, after the mount-time run of the effect. */
    constructor ()
      ensures Valid()
      ensures stageId == "" && leaderboardData == [] && visibleLeaderboardData == []
      ensures searchQuery == "" && page == 0 && rowsPerPage == DefaultRowsPerPage && toast == None
    {
      stageId := "";
      leaderboardData := [];
      visibleLeaderboardData := [];
      searchQuery := "";
      page := 0;
      rowsPerPage := DefaultRowsPerPage;
      toast := None;
      new;
      FilterEffect();
    }

    /** The effect of App.tsx:84-90: recompute the visible list, back to page 0. */
    method FilterEffect()
      modifies this
      ensures Valid()
      ensures visibleLeaderboardData == FilterEntries(leaderboardData, searchQuery) && page == 0
      ensures stageId == old(stageId) && leaderboardData == old(leaderboardData)
      ensures searchQuery == old(searchQuery) && rowsPerPage == old(rowsPerPage) && toast == old(toast)
    {
      var filtered := FilterEntries(leaderboardData, searchQuery);
      visibleLeaderboardData := filtered;
      page := 0;
    }

    /** Typing in the Stage ID field. */
    method SetStageId(s: string)
      requires Valid()
      modifies this`stageId
      ensures Valid() && stageId == s
    {
      stageId := s;
    }

    /** The "Import Leaderboard" button. `importSucceeds` is whether the
        request to fetchLeaderboard returned a success status. */
    method ImportLeaderboardData(importSucceeds: bool) returns (request: Option<ApiRequest>)
      requires Valid()
      modifies this`toast
      ensures Valid()
      ensures Trim(stageId) == [] ==> request == None && toast == Some(Toast(InvalidStageId, Error))
      ensures Trim(stageId) != [] ==> request == Some(ApiRequest(FetchLeaderboardEndpoint, Trim(stageId)))
      ensures Trim(stageId) != [] && importSucceeds ==> toast == Some(Toast(ImportedMessage, Success))
      ensures Trim(stageId) != [] && !importSucceeds ==> toast == Some(Toast(ImportFailedMessage, Error))
    {
      if Trim(stageId) == [] {
        toast := Some(Toast(InvalidStageId, Error));
        return None;
      }
      request := Some(ApiRequest(FetchLeaderboardEndpoint, Trim(stageId)));
      if importSucceeds {
        toast := Some(Toast(ImportedMessage, Success));
      } else {
        toast := Some(Toast(ImportFailedMessage, Error));
      }
    }

    /** The "View Leaderboard" button. `reply` is the list getLeaderboard
        returned, or `None` when the request failed. A new list always
        counts as changed data, so the effect runs after a success. */
    method FetchLeaderboardData(reply: Option<seq<LeaderboardEntry>>) returns (request: Option<ApiRequest>)
      requires Valid()
      modifies this
      ensures Valid()
      ensures stageId == old(stageId) && searchQuery == old(searchQuery) && rowsPerPage == old(rowsPerPage)
      ensures Trim(stageId) == [] ==> request == None && toast == Some(Toast(InvalidStageId, Error))
      ensures Trim(stageId) != [] ==> request == Some(ApiRequest(GetLeaderboardEndpoint, Trim(stageId)))
      ensures Trim(stageId) != [] && reply.Some? ==>
        && leaderboardData == reply.value
        && visibleLeaderboardData == FilterEntries(reply.value, searchQuery)
        && page == 0
        && toast == Some(Toast(FetchedMessage, Success))
      ensures Trim(stageId) != [] && reply.None? ==> toast == Some(Toast(FetchFailedMessage, Error))
      ensures (Trim(stageId) == [] || reply.None?) ==>
        && leaderboardData == old(leaderboardData)
        && visibleLeaderboardData == old(visibleLeaderboardData)
        && page == old(page)
    {
      if Trim(stageId) == [] {
        toast := Some(Toast(InvalidStageId, Error));
        return None;
      }
      request := Some(ApiRequest(GetLeaderboardEndpoint, Trim(stageId)));
      if reply.Some? {
        var data := reply.value;
        leaderboardData := data;
        visibleLeaderboardData := data;
        toast := Some(Toast(FetchedMessage, Success));
        FilterEffect();
      } else {
        toast := Some(Toast(FetchFailedMessage, Error));
      }
    }

    /** Typing in the search field. Setting the same string again does not
        re-render, so the effect does not run and the page stays. */
    method SetSearchQuery(q: string)
      requires Valid()
      modifies this
      ensures Valid()
      ensures searchQuery == q && visibleLeaderboardData == FilterEntries(leaderboardData, q)
      ensures page == if q == old(searchQuery) then old(page) else 0
      ensures stageId == old(stageId) && leaderboardData == old(leaderboardData)
      ensures rowsPerPage == old(rowsPerPage) && toast == old(toast)
    {
      if q != searchQuery {
        searchQuery := q;
        FilterEffect();
      }
    }

    /** The "Clear Filter" button: every entry becomes visible again. */
    method ClearFilter()
      requires Valid()
      modifies this
      ensures Valid()
      ensures searchQuery == "" && visibleLeaderboardData == leaderboardData
      ensures page == if old(searchQuery) == "" then old(page) else 0
      ensures stageId == old(stageId) && leaderboardData == old(leaderboardData)
      ensures rowsPerPage == old(rowsPerPage) && toast == old(toast)
    {
      SetSearchQuery("");
      FilterEmptyQuery(leaderboardData);
    }

    /** The pagination control's page change. */
    method ChangePage(newPage: nat)
      requires Valid()
      modifies this`page
      ensures Valid() && page == newPage
    {
      page := newPage;
    }

    /** The pagination control's rows-per-page change (already parsed); the page is kept. */
    method ChangeRowsPerPage(n: nat)
      requires Valid()
      modifies this`rowsPerPage
      ensures Valid() && rowsPerPage == n
    {
      rowsPerPage := n;
    }

    /** The rows the table body shows (App.tsx:166). */
    function RowsShown(): (rows: seq<LeaderboardEntry>)
      reads this
      ensures |rows| <= rowsPerPage
      ensures forall e :: e in rows ==> e in visibleLeaderboardData
      ensures rows == PageRows(visibleLeaderboardData, page, rowsPerPage)
    {
      PageRowsWindow(visibleLeaderboardData, page, rowsPerPage);
      PageRows(visibleLeaderboardData, page, rowsPerPage)
    }
  }
}
