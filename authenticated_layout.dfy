/** The state of `AuthenticatedLayout` (src/components/AuthenticatedLayout.tsx):
    the authentication check run on mount and `loadMoreSessions`, which
    merges the next page of month groups into the list in place.  The
    `getUserSessions` call is external: what it returned (or that it threw)
    is an input, and the page it was asked for is an output. */
module AuthenticatedLayout {
  import opened Common
  import opened ApiClient
  import opened SessionGroups

  const PageSize: int := 10

  /** A month group object as `JSON.parse` builds it.  `loadMoreSessions`
      overwrites its `sessions` field, so every list holding the object sees
      the change. */
  class MonthGroup {
    const monthKey: string
    const monthName: string
    var sessions: seq<SessionSummary>

    constructor (m: Month)
      ensures Value() == m
    {
      monthKey, monthName, sessions := m.monthKey, m.monthName, m.sessions;
    }

    function Value(): Month
      reads this
    {
      Month(monthKey, monthName, sessions)
    }
  }

  /** The values a list of group objects currently holds. */
  function Values(gs: seq<MonthGroup>): (ms: seq<Month>)
    reads set g | g in gs
    ensures |ms| == |gs|
  {
    seq(|gs|, i requires 0 <= i < |gs| reads set g | g in gs => gs[i].Value())
  }

  /** No group object occurs twice in the list. */
  predicate Distinct(gs: seq<MonthGroup>)
  {
    forall i, j :: 0 <= i < j < |gs| ==> gs[i] != gs[j]
  }

  datatype Pagination = Pagination(current_page: int, has_next: bool)

  /** The `data` of a user-sessions response. */
  datatype SessionsPage = SessionsPage(sessions_by_month: Option<seq<MonthGroup>>, pagination: Option<Pagination>)

  /** How the awaited `apiClient.getUserSessions(page, size)` ended: the
      envelope it resolved with, together with the `status` property read
      from it with `(sessionsResponse as any).status` (absent from every
      envelope that api.ts builds), or that it threw. */
  datatype CallOutcome = Returned(response: ApiResponse<SessionsPage>, status: Option<int>) | Threw

  /** The page the layout asks for: `getUserSessions(page, page_size)`. */
  datatype PageRequest = PageRequest(page: int, page_size: int)

  /** The groups a call delivered: `data.sessions_by_month || []`. */
  function PageGroups(outcome: CallOutcome): seq<MonthGroup>
  {
    if outcome.Returned? && outcome.response.data.Some? && outcome.response.data.value.sessions_by_month.Some?
    then outcome.response.data.value.sessions_by_month.value
    else []
  }

  /** The guard `sessionsResponse.error && status === 401`. */
  predicate Unauthorized(outcome: CallOutcome)
  {
    outcome.Returned? && Truthy(outcome.response.error) && outcome.status == Some(401)
  }

  /** An envelope built by the API client has no `status`, so the 401
      redirect is never taken for it. */
  lemma EnvelopeIsNeverUnauthorized(response: ApiResponse<SessionsPage>)
    ensures !Unauthorized(Returned(response, None))
  {
  }

  /** `existing.sessions = [...existing.sessions, ...newMonth.sessions]` on
      the group at position `i`; every other group keeps its value. */
  method AppendSessions(gs: seq<MonthGroup>, i: int, extra: seq<SessionSummary>)
    requires 0 <= i < |gs| && Distinct(gs)
    modifies gs[i]
    ensures Values(gs) == old(Values(gs))[i := old(Values(gs))[i].(sessions := old(Values(gs))[i].sessions + extra)]
  {
    gs[i].sessions := gs[i].sessions + extra;
  }

  /** One iteration of the `forEach`: find the first object in the list with
      the new group's month key and extend it in place, or push the new
      group.  The new group is not in the list yet. */
  method MergeStep(merged: seq<MonthGroup>, newMonth: MonthGroup, ghost current: seq<Month>, ghost m: Month)
    returns (result: seq<MonthGroup>, pushed: bool)
    requires Distinct(merged) && newMonth !in merged
    requires Values(merged) == current && newMonth.Value() == m
    modifies set g | g in merged
    ensures Values(result) == MergeMonth(current, m)
    ensures Distinct(result)
    ensures result == if pushed then merged + [newMonth] else merged
  {
    var existingMonthIndex := FirstIndex(Keys(Values(merged)), newMonth.monthKey);
    if existingMonthIndex >= 0 {
      AppendSessions(merged, existingMonthIndex, newMonth.sessions);
      result, pushed := merged, false;
    } else {
      result, pushed := merged + [newMonth], true;
    }
  }

  /** Every object of `a` is one of `b`. */
  predicate Within(a: seq<MonthGroup>, b: seq<MonthGroup>)
  {
    forall g :: g in a ==> g in b
  }

  /** No object of `a` is one of `b`. */
  predicate Apart(a: seq<MonthGroup>, b: seq<MonthGroup>)
  {
    forall g :: g in a ==> g !in b
  }

  /** Before iteration `k` of the merge: the list is made of the inputs'
      objects, the page's group `k` is not in it, and neither is any later one. */
  lemma BeforeStep(existing: seq<MonthGroup>, incoming: seq<MonthGroup>, added: seq<MonthGroup>, k: int)
    requires 0 <= k < |incoming|
    requires Within(added, incoming[..k]) && Apart(incoming[k..], existing + added)
    ensures Within(existing + added, existing + incoming)
    ensures incoming[k] !in existing + added
    ensures Within(incoming[k + 1..], incoming[k..])
    ensures Apart(incoming[k + 1..], existing + added)
  {
    assert incoming[k..][0] == incoming[k];
    forall g | g in incoming[k + 1..] ensures g in incoming[k..] {
      var j :| 0 <= j < |incoming[k + 1..]| && incoming[k + 1..][j] == g;
      assert incoming[k..][j + 1] == g;
    }
    forall g | g in existing + added ensures g in existing + incoming {
      if g !in existing {
        assert g in incoming[..k];
        var j :| 0 <= j < k && incoming[..k][j] == g;
        assert incoming[j] == g;
      }
    }
  }

  /** After iteration `k`: the objects pushed so far still come from the
      part of the page already seen, and the rest of the page is not in the list. */
  lemma AfterStep(existing: seq<MonthGroup>, incoming: seq<MonthGroup>, added: seq<MonthGroup>, k: int, pushed: bool)
    requires Distinct(incoming) && 0 <= k < |incoming|
    requires Within(added, incoming[..k]) && Apart(incoming[k..], existing + added)
    ensures var now := if pushed then added + [incoming[k]] else added;
      Within(now, incoming[..k + 1]) && Apart(incoming[k + 1..], existing + now)
  {
    var now := if pushed then added + [incoming[k]] else added;
    forall g | g in now ensures g in incoming[..k + 1] {
      if g in added {
        var j :| 0 <= j < k && incoming[..k][j] == g;
        assert incoming[..k + 1][j] == g;
      } else {
        assert incoming[..k + 1][k] == g;
      }
    }
    forall g | g in incoming[k + 1..] ensures g !in existing + now {
      var j :| 0 <= j < |incoming[k + 1..]| && incoming[k + 1..][j] == g;
      assert incoming[k..][j + 1] == g;
      assert g != incoming[k] by {
        assert incoming[k + 1 + j] == g;
      }
      assert g !in existing + added;
      assert existing + now == if pushed then (existing + added) + [incoming[k]] else existing + added;
    }
  }

  /** The `forEach` of `loadMoreSessions` over the objects of the new page,
      starting from a copy of the current list.  Existing objects are
      extended in place; the others are pushed at the end, so the result
      shares its objects with both inputs. */
  method MergeGroups(existing: seq<MonthGroup>, incoming: seq<MonthGroup>) returns (merged: seq<MonthGroup>)
    requires Distinct(existing) && Distinct(incoming)
    requires forall g :: g in incoming ==> g !in existing
    modifies set g | g in existing + incoming
    ensures Values(merged) == MergePage(old(Values(existing)), old(Values(incoming)))
    ensures Distinct(merged)
    ensures |merged| >= |existing| && merged[..|existing|] == existing
    ensures forall j :: |existing| <= j < |merged| ==> merged[j] in incoming
  {
    ghost var before := Values(existing);
    ghost var arriving := Values(incoming);
    ghost var added: seq<MonthGroup> := [];
    merged := existing;
    var k := 0;
    assert incoming[0..] == incoming;
    while k < |incoming|
      invariant 0 <= k <= |incoming|
      invariant merged == existing + added && Distinct(merged)
      invariant Within(added, incoming[..k]) && Apart(incoming[k..], merged)
      invariant forall g :: g in incoming[k..] ==> g.sessions == old(g.sessions)
      invariant Values(merged) == MergePage(before, arriving[..k])
    {
      BeforeStep(existing, incoming, added, k);
      assert incoming[k..][0] == incoming[k];
      assert incoming[k].Value() == arriving[k];
      var pushed;
      merged, pushed := MergeStep(merged, incoming[k], Values(merged), arriving[k]);
      AfterStep(existing, incoming, added, k, pushed);
      if pushed {
        added := added + [incoming[k]];
      }
      MergePageExtend(before, arriving, k);
      k := k + 1;
    }
    assert incoming[..k] == incoming && arriving[..k] == arriving;
    forall j | |existing| <= j < |merged| ensures merged[j] in incoming {
      assert merged[j] == added[j - |existing|];
    }
  }

  class Layout {
    var isLoading: bool
    var isAuthenticated: bool
    var user: Option<User>
    var sessions: seq<MonthGroup>
    var pagination: Option<Pagination>
    var loadingMore: bool

    ghost predicate Valid()
      reads this
    {
      Distinct(sessions)
    }

    constructor ()
      ensures Valid()
      ensures isLoading && !isAuthenticated && user.None? && sessions == [] && pagination.None? && !loadingMore
    {
      isLoading, isAuthenticated, user := true, false, None;
      sessions, pagination, loadingMore := [], None, false;
    }

    /** `checkAuthAndFetchData`, given how the first-page call ended and the
        cached 'user' entry.  Returns the page asked for and the route
        navigated to, if any. */
    method CheckAuthAndFetchData(outcome: CallOutcome, stored: Stored<User>)
      returns (request: PageRequest, navigate: Option<string>)
      requires Valid()
      requires Distinct(PageGroups(outcome))
      modifies this
      ensures Valid()
      ensures request == PageRequest(1, PageSize)
      ensures !isLoading && loadingMore == old(loadingMore)
      ensures navigate.Some? <==> Unauthorized(outcome) || (outcome.Returned? && !stored.Present())
      ensures navigate.Some? ==> navigate.value == SignInRoute
      ensures var signedIn := outcome.Returned? && !Unauthorized(outcome) && stored.Present() && stored.parsed.Some?;
        && (signedIn ==> isAuthenticated && user == stored.parsed)
        && (signedIn && outcome.response.data.Some? ==>
              sessions == PageGroups(outcome) && pagination == outcome.response.data.value.pagination)
        && (signedIn && outcome.response.data.None? ==> sessions == [] && pagination.None?)
        && (!signedIn ==>
              isAuthenticated == old(isAuthenticated) && user == old(user)
              && sessions == old(sessions) && pagination == old(pagination))
    {
      request, navigate := PageRequest(1, PageSize), None;
      if outcome.Threw? {
        isLoading := false;
        return;
      }
      var sessionsResponse := outcome.response;
      if Truthy(sessionsResponse.error) && outcome.status == Some(401) {
        navigate := Some(SignInRoute);
        isLoading := false;
        return;
      }
      if !stored.Present() {
        navigate := Some(SignInRoute);
        isLoading := false;
        return;
      }
      if stored.parsed.None? {
        // JSON.parse threw: the catch only ends the loading state.
        isLoading := false;
        return;
      }
      user := stored.parsed;
      isAuthenticated := true;
      if sessionsResponse.data.Some? {
        sessions := PageGroups(outcome);
        pagination := sessionsResponse.data.value.pagination;
      } else {
        sessions := [];
        pagination := None;
      }
      isLoading := false;
    }

    /** `loadMoreSessions`.  `outcome` is how the call for the next page
        ended (read only when the call is made); its groups are freshly
        parsed objects, so they are distinct and not yet in the list.
        `request` is the page asked for, None when the guard returns early. */
    method LoadMoreSessions(outcome: CallOutcome) returns (request: Option<PageRequest>)
      requires Valid()
      requires Distinct(PageGroups(outcome))
      requires forall g :: g in PageGroups(outcome) ==> g !in sessions
      modifies this, sessions, PageGroups(outcome)
      ensures Valid()
      ensures isLoading == old(isLoading) && isAuthenticated == old(isAuthenticated) && user == old(user)
      ensures old(pagination).None? || !old(pagination).value.has_next || old(loadingMore) ==>
        && request.None? && loadingMore == old(loadingMore)
        && sessions == old(sessions) && pagination == old(pagination)
        && Values(sessions) == old(Values(sessions))
      ensures old(pagination).Some? && old(pagination).value.has_next && !old(loadingMore) ==>
        && request == Some(PageRequest(old(pagination).value.current_page + 1, PageSize))
        && !loadingMore
      ensures request.Some? && outcome.Returned? && outcome.response.data.Some? ==>
        && Values(sessions) == MergePage(old(Values(sessions)), old(Values(PageGroups(outcome))))
        && pagination == outcome.response.data.value.pagination
        && |sessions| >= |old(sessions)| && sessions[..|old(sessions)|] == old(sessions)
        && (forall j :: |old(sessions)| <= j < |sessions| ==> sessions[j] in PageGroups(outcome))
      ensures request.Some? && !(outcome.Returned? && outcome.response.data.Some?) ==>
        && sessions == old(sessions) && pagination == old(pagination)
        && Values(sessions) == old(Values(sessions))
    {
      if pagination.None? || !pagination.value.has_next || loadingMore {
        return None;
      }
      loadingMore := true;
      var nextPage := pagination.value.current_page + 1;
      request := Some(PageRequest(nextPage, PageSize));
      if outcome.Returned? && outcome.response.data.Some? {
        var mergedSessions := MergeGroups(sessions, PageGroups(outcome));
        sessions := mergedSessions;
        pagination := outcome.response.data.value.pagination;
      }
      loadingMore := false;
    }
  }
}
