/** Month-grouped session history as values: the merge that
    `loadMoreSessions` (src/components/AuthenticatedLayout.tsx) performs,
    stated as a left fold, an independent description of its result, and
    the lemmas that connect the two. */
module SessionGroups {
  import opened Common

  /** One row of a month group (the fields nav-sessions.tsx reads and shows). */
  datatype SessionSummary = SessionSummary(
    id: string, title: string, started_at: string, status: string,
    mood_score: Option<int>, duration: Option<int>)

  /** The value of a month group: `{month_name, month_key, sessions}`. */
  datatype Month = Month(monthKey: string, monthName: string, sessions: seq<SessionSummary>)

  /** The month keys of a list of groups, in order. */
  function Keys(ms: seq<Month>): (ks: seq<string>)
    ensures |ks| == |ms|
    ensures forall i :: 0 <= i < |ms| ==> ks[i] == ms[i].monthKey
  {
    seq(|ms|, i requires 0 <= i < |ms| => ms[i].monthKey)
  }

  /** `findIndex` with the test `month.month_key === key`: the first
      position holding `key`, or -1 when there is none. */
  function FirstIndex(keys: seq<string>, key: string): (i: int)
    ensures -1 <= i < |keys|
    ensures i >= 0 ==> keys[i] == key
    ensures i >= 0 ==> forall j :: 0 <= j < i ==> keys[j] != key
    ensures i < 0 <==> key !in keys
  {
    if keys == [] then -1
    else if keys[0] == key then 0
    else
      var rest := FirstIndex(keys[1..], key);
      assert key in keys[1..] ==> key in keys;
      assert key in keys && keys[0] != key ==> key in keys[1..];
      if rest < 0 then -1 else rest + 1
  }

  /** One step of the `forEach`: a month already present receives the new
      sessions after its own; any other month is pushed at the end. */
  function MergeMonth(acc: seq<Month>, m: Month): seq<Month>
  {
    var i := FirstIndex(Keys(acc), m.monthKey);
    if i >= 0 then acc[i := acc[i].(sessions := acc[i].sessions + m.sessions)]
    else acc + [m]
  }

  /** The whole `forEach` over the new page, one month after the other. */
  function MergePage(acc: seq<Month>, incoming: seq<Month>): seq<Month>
    decreases |incoming|
  {
    if incoming == [] then acc
    else MergeMonth(MergePage(acc, incoming[..|incoming| - 1]), incoming[|incoming| - 1])
  }

  /** Folding one more group of the page is one more `MergeMonth`. */
  lemma MergePageExtend(acc: seq<Month>, incoming: seq<Month>, k: int)
    requires 0 <= k < |incoming|
    ensures MergePage(acc, incoming[..k + 1]) == MergeMonth(MergePage(acc, incoming[..k]), incoming[k])
  {
    assert incoming[..k + 1][..k] == incoming[..k];
  }

  // ---------------------------------------------------------------------
  // An independent description of the merged list.

  /** All sessions the groups with month key `key` carry, in page order. */
  function SessionsOf(ms: seq<Month>, key: string): seq<SessionSummary>
    decreases |ms|
  {
    if ms == [] then []
    else
      SessionsOf(ms[..|ms| - 1], key)
      + (if ms[|ms| - 1].monthKey == key then ms[|ms| - 1].sessions else [])
  }

  /** The first group of `incoming` for each month that is neither in
      `existing` nor earlier in `incoming`, in page order. */
  function NewMonths(existing: seq<Month>, incoming: seq<Month>): seq<Month>
    decreases |incoming|
  {
    if incoming == [] then []
    else
      var init, m := incoming[..|incoming| - 1], incoming[|incoming| - 1];
      if m.monthKey in Keys(existing) || m.monthKey in Keys(init) then NewMonths(existing, init)
      else NewMonths(existing, init) + [m]
  }

  /** Group `i` of the existing list after the merge: the first group of its
      month gets every new session of that month; later duplicates keep theirs. */
  function Received(existing: seq<Month>, incoming: seq<Month>, i: int): Month
    requires 0 <= i < |existing|
  {
    var g := existing[i];
    if FirstIndex(Keys(existing), g.monthKey) == i then g.(sessions := g.sessions + SessionsOf(incoming, g.monthKey))
    else g
  }

  /** What the merged list is: every existing group in place, holding what
      it received, followed by one group per new month in order of first
      appearance, holding all of that month's new sessions. */
  function Expected(existing: seq<Month>, incoming: seq<Month>): seq<Month>
  {
    var added := NewMonths(existing, incoming);
    seq(|existing|, i requires 0 <= i < |existing| => Received(existing, incoming, i))
    + seq(|added|, j requires 0 <= j < |added| => added[j].(sessions := SessionsOf(incoming, added[j].monthKey)))
  }

  // ---------------------------------------------------------------------
  // Lemmas.

  lemma KeysAppend(x: seq<Month>, y: seq<Month>)
    ensures Keys(x + y) == Keys(x) + Keys(y)
  {
  }

  lemma FirstIndexAppend(x: seq<string>, y: seq<string>, key: string)
    ensures FirstIndex(x + y, key) ==
      if key in x then FirstIndex(x, key)
      else if key in y then |x| + FirstIndex(y, key)
      else -1
  {
    if key in x {
      assert (x + y)[FirstIndex(x, key)] == key;
    } else if key in y {
      assert (x + y)[|x| + FirstIndex(y, key)] == key;
      assert forall j :: 0 <= j < |x| ==> (x + y)[j] == x[j];
    }
  }

  /** The months `NewMonths` introduces are exactly the months of the page
      that the existing list lacks, each once. */
  lemma {:induction false} NewMonthsKeys(existing: seq<Month>, incoming: seq<Month>)
    ensures forall k :: k in Keys(NewMonths(existing, incoming)) <==> k !in Keys(existing) && k in Keys(incoming)
    ensures forall p, q :: 0 <= p < q < |NewMonths(existing, incoming)| ==>
      NewMonths(existing, incoming)[p].monthKey != NewMonths(existing, incoming)[q].monthKey
    decreases |incoming|
  {
    if incoming != [] {
      var init, m := incoming[..|incoming| - 1], incoming[|incoming| - 1];
      NewMonthsKeys(existing, init);
      assert incoming == init + [m];
      KeysAppend(init, [m]);
      var n := NewMonths(existing, init);
      if !(m.monthKey in Keys(existing) || m.monthKey in Keys(init)) {
        KeysAppend(n, [m]);
      }
    }
  }

  lemma SessionsOfAbsent(ms: seq<Month>, key: string)
    requires key !in Keys(ms)
    ensures SessionsOf(ms, key) == []
    decreases |ms|
  {
    if ms != [] {
      var init := ms[..|ms| - 1];
      assert forall i :: 0 <= i < |init| ==> Keys(init)[i] == Keys(ms)[i];
      SessionsOfAbsent(init, key);
    }
  }

  lemma MergeMonthUpdates(acc: seq<Month>, m: Month, i: int)
    requires 0 <= i && FirstIndex(Keys(acc), m.monthKey) == i
    ensures MergeMonth(acc, m) == acc[i := acc[i].(sessions := acc[i].sessions + m.sessions)]
  {
  }

  lemma MergeMonthPushes(acc: seq<Month>, m: Month)
    requires m.monthKey !in Keys(acc)
    ensures MergeMonth(acc, m) == acc + [m]
  {
  }

  lemma ReceivedUnchanged(existing: seq<Month>, before: seq<Month>, after: seq<Month>, i: int)
    requires 0 <= i < |existing|
    requires SessionsOf(after, existing[i].monthKey) == SessionsOf(before, existing[i].monthKey)
    ensures Received(existing, after, i) == Received(existing, before, i)
  {
  }

  /** The shape of `Expected`, position by position. */
  lemma ExpectedShape(existing: seq<Month>, incoming: seq<Month>)
    ensures |Expected(existing, incoming)| == |existing| + |NewMonths(existing, incoming)|
    ensures forall i :: 0 <= i < |existing| ==> Expected(existing, incoming)[i] == Received(existing, incoming, i)
    ensures forall j :: |existing| <= j < |Expected(existing, incoming)| ==>
      Expected(existing, incoming)[j] == NewMonths(existing, incoming)[j - |existing|].(
        sessions := SessionsOf(incoming, NewMonths(existing, incoming)[j - |existing|].monthKey))
    ensures Keys(Expected(existing, incoming)) == Keys(existing) + Keys(NewMonths(existing, incoming))
  {
    var n := NewMonths(existing, incoming);
    var u := seq(|existing|, i requires 0 <= i < |existing| => Received(existing, incoming, i));
    var a := seq(|n|, j requires 0 <= j < |n| => n[j].(sessions := SessionsOf(incoming, n[j].monthKey)));
    assert Keys(u) == Keys(existing);
    assert Keys(a) == Keys(n);
    KeysAppend(u, a);
  }

  /** `Expected` at one position. */
  lemma ExpectedAt(existing: seq<Month>, incoming: seq<Month>, j: int)
    requires 0 <= j < |existing| + |NewMonths(existing, incoming)|
    ensures |Expected(existing, incoming)| == |existing| + |NewMonths(existing, incoming)|
    ensures j < |existing| ==> Expected(existing, incoming)[j] == Received(existing, incoming, j)
    ensures j >= |existing| ==>
      Expected(existing, incoming)[j] == NewMonths(existing, incoming)[j - |existing|].(
        sessions := SessionsOf(incoming, NewMonths(existing, incoming)[j - |existing|].monthKey))
  {
  }

  /** The last group of a non-empty page adds its sessions to its own month only. */
  lemma SessionsOfLast(incoming: seq<Month>, key: string)
    requires incoming != []
    ensures SessionsOf(incoming, key) == SessionsOf(incoming[..|incoming| - 1], key)
      + (if incoming[|incoming| - 1].monthKey == key then incoming[|incoming| - 1].sessions else [])
  {
  }

  /** A month other than the last group's receives nothing from it. */
  lemma SessionsOfOther(incoming: seq<Month>, key: string)
    requires incoming != [] && incoming[|incoming| - 1].monthKey != key
    ensures SessionsOf(incoming, key) == SessionsOf(incoming[..|incoming| - 1], key)
  {
    SessionsOfLast(incoming, key);
    assert SessionsOf(incoming[..|incoming| - 1], key) + [] == SessionsOf(incoming[..|incoming| - 1], key);
  }

  /** Position `j` in the case where the last month is already in the existing list. */
  lemma StepExistingAt(existing: seq<Month>, incoming: seq<Month>, i: int, j: int)
    requires incoming != [] && incoming[|incoming| - 1].monthKey in Keys(existing)
    requires i == FirstIndex(Keys(existing), incoming[|incoming| - 1].monthKey)
    requires 0 <= j < |existing| + |NewMonths(existing, incoming[..|incoming| - 1])|
    ensures |Expected(existing, incoming[..|incoming| - 1])| == |Expected(existing, incoming)|
    ensures var e, m := Expected(existing, incoming[..|incoming| - 1]), incoming[|incoming| - 1];
      e[i := e[i].(sessions := e[i].sessions + m.sessions)][j] == Expected(existing, incoming)[j]
  {
    var init, m := incoming[..|incoming| - 1], incoming[|incoming| - 1];
    var k := m.monthKey;
    var n := NewMonths(existing, init);
    assert NewMonths(existing, incoming) == n;
    var e, x := Expected(existing, init), Expected(existing, incoming);
    ExpectedAt(existing, init, j);
    ExpectedAt(existing, incoming, j);
    if j < |existing| {
      var g := existing[j];
      if j == i {
        SessionsOfLast(incoming, k);
        assert x[j].sessions == g.sessions + (SessionsOf(init, k) + m.sessions);
      } else if FirstIndex(Keys(existing), g.monthKey) == j {
        SessionsOfOther(incoming, g.monthKey);
      } else {
      }
    } else {
      NewMonthsKeys(existing, init);
      assert Keys(n)[j - |existing|] in Keys(n);
      SessionsOfOther(incoming, n[j - |existing|].monthKey);
    }
  }

  /** The new page's month is already in the existing list. */
  lemma ExpectedStepExisting(existing: seq<Month>, incoming: seq<Month>)
    requires incoming != [] && incoming[|incoming| - 1].monthKey in Keys(existing)
    ensures MergeMonth(Expected(existing, incoming[..|incoming| - 1]), incoming[|incoming| - 1])
         == Expected(existing, incoming)
  {
    var init, m := incoming[..|incoming| - 1], incoming[|incoming| - 1];
    var n := NewMonths(existing, init);
    assert NewMonths(existing, incoming) == n;
    var e, x := Expected(existing, init), Expected(existing, incoming);
    var i := FirstIndex(Keys(existing), m.monthKey);
    assert FirstIndex(Keys(e), m.monthKey) == i by {
      ExpectedShape(existing, init);
      FirstIndexAppend(Keys(existing), Keys(n), m.monthKey);
    }
    MergeMonthUpdates(e, m, i);
    var r := e[i := e[i].(sessions := e[i].sessions + m.sessions)];
    forall j | 0 <= j < |x| ensures r[j] == x[j] {
      StepExistingAt(existing, incoming, i, j);
    }
  }

  /** Position `j` in the case where the last month first appeared earlier on the page. */
  lemma StepEarlierAt(existing: seq<Month>, incoming: seq<Month>, p: int, j: int)
    requires incoming != [] && incoming[|incoming| - 1].monthKey !in Keys(existing)
    requires incoming[|incoming| - 1].monthKey in Keys(incoming[..|incoming| - 1])
    requires p == FirstIndex(Keys(NewMonths(existing, incoming[..|incoming| - 1])), incoming[|incoming| - 1].monthKey) && p >= 0
    requires 0 <= j < |existing| + |NewMonths(existing, incoming[..|incoming| - 1])|
    ensures |Expected(existing, incoming[..|incoming| - 1])| == |Expected(existing, incoming)|
    ensures var e, m, q := Expected(existing, incoming[..|incoming| - 1]), incoming[|incoming| - 1], |existing| + p;
      e[q := e[q].(sessions := e[q].sessions + m.sessions)][j] == Expected(existing, incoming)[j]
  {
    var init, m := incoming[..|incoming| - 1], incoming[|incoming| - 1];
    var k := m.monthKey;
    var n := NewMonths(existing, init);
    assert NewMonths(existing, incoming) == n;
    ExpectedAt(existing, init, j);
    ExpectedAt(existing, incoming, j);
    if j < |existing| {
      assert Keys(existing)[j] in Keys(existing);
      SessionsOfOther(incoming, existing[j].monthKey);
      ReceivedUnchanged(existing, init, incoming, j);
    } else if j == |existing| + p {
      SessionsOfLast(incoming, k);
    } else {
      NewMonthsKeys(existing, init);
      assert n[j - |existing|].monthKey != n[p].monthKey;
      SessionsOfOther(incoming, n[j - |existing|].monthKey);
    }
  }

  /** The new page's month was introduced earlier on the same page. */
  lemma ExpectedStepEarlier(existing: seq<Month>, incoming: seq<Month>)
    requires incoming != [] && incoming[|incoming| - 1].monthKey !in Keys(existing)
    requires incoming[|incoming| - 1].monthKey in Keys(incoming[..|incoming| - 1])
    ensures MergeMonth(Expected(existing, incoming[..|incoming| - 1]), incoming[|incoming| - 1])
         == Expected(existing, incoming)
  {
    var init, m := incoming[..|incoming| - 1], incoming[|incoming| - 1];
    var k := m.monthKey;
    var n := NewMonths(existing, init);
    assert NewMonths(existing, incoming) == n;
    var e, x := Expected(existing, init), Expected(existing, incoming);
    NewMonthsKeys(existing, init);
    var p := FirstIndex(Keys(n), k);
    assert FirstIndex(Keys(e), k) == |existing| + p by {
      ExpectedShape(existing, init);
      FirstIndexAppend(Keys(existing), Keys(n), k);
    }
    MergeMonthUpdates(e, m, |existing| + p);
    var q := |existing| + p;
    var r := e[q := e[q].(sessions := e[q].sessions + m.sessions)];
    forall j | 0 <= j < |x| ensures r[j] == x[j] {
      StepEarlierAt(existing, incoming, p, j);
    }
  }

  /** Position `j` in the case where the last month is new altogether. */
  lemma StepNewAt(existing: seq<Month>, incoming: seq<Month>, j: int)
    requires incoming != [] && incoming[|incoming| - 1].monthKey !in Keys(existing)
    requires incoming[|incoming| - 1].monthKey !in Keys(incoming[..|incoming| - 1])
    requires 0 <= j <= |existing| + |NewMonths(existing, incoming[..|incoming| - 1])|
    ensures |Expected(existing, incoming[..|incoming| - 1])| + 1 == |Expected(existing, incoming)|
    ensures (Expected(existing, incoming[..|incoming| - 1]) + [incoming[|incoming| - 1]])[j] == Expected(existing, incoming)[j]
  {
    var init, m := incoming[..|incoming| - 1], incoming[|incoming| - 1];
    var k := m.monthKey;
    var n := NewMonths(existing, init);
    assert NewMonths(existing, incoming) == n + [m];
    ExpectedAt(existing, incoming, j);
    if j < |existing| {
      ExpectedAt(existing, init, j);
      assert Keys(existing)[j] in Keys(existing);
      SessionsOfOther(incoming, existing[j].monthKey);
      ReceivedUnchanged(existing, init, incoming, j);
    } else if j < |existing| + |n| {
      ExpectedAt(existing, init, j);
      NewMonthsKeys(existing, init);
      assert Keys(n)[j - |existing|] in Keys(n);
      SessionsOfOther(incoming, n[j - |existing|].monthKey);
    } else {
      ExpectedShape(existing, init);
      SessionsOfLast(incoming, k);
      SessionsOfAbsent(init, k);
      assert [] + m.sessions == m.sessions;
    }
  }

  /** The new page's month is new altogether. */
  lemma ExpectedStepNew(existing: seq<Month>, incoming: seq<Month>)
    requires incoming != [] && incoming[|incoming| - 1].monthKey !in Keys(existing)
    requires incoming[|incoming| - 1].monthKey !in Keys(incoming[..|incoming| - 1])
    ensures MergeMonth(Expected(existing, incoming[..|incoming| - 1]), incoming[|incoming| - 1])
         == Expected(existing, incoming)
  {
    var init, m := incoming[..|incoming| - 1], incoming[|incoming| - 1];
    var n := NewMonths(existing, init);
    var e, x := Expected(existing, init), Expected(existing, incoming);
    assert m.monthKey !in Keys(e) by {
      NewMonthsKeys(existing, init);
      ExpectedShape(existing, init);
    }
    MergeMonthPushes(e, m);
    forall j | 0 <= j < |x| ensures (e + [m])[j] == x[j] {
      StepNewAt(existing, incoming, j);
    }
  }

  /** The fold and the description agree on every input. */
  lemma {:induction false} MergePageIsExpected(existing: seq<Month>, incoming: seq<Month>)
    ensures MergePage(existing, incoming) == Expected(existing, incoming)
    decreases |incoming|
  {
    if incoming == [] {
      assert forall i :: 0 <= i < |existing| ==> existing[i].sessions + [] == existing[i].sessions;
    } else {
      var init, m := incoming[..|incoming| - 1], incoming[|incoming| - 1];
      MergePageIsExpected(existing, init);
      if m.monthKey in Keys(existing) {
        ExpectedStepExisting(existing, incoming);
      } else if m.monthKey in Keys(init) {
        ExpectedStepEarlier(existing, incoming);
      } else {
        ExpectedStepNew(existing, incoming);
      }
    }
  }

  /** What `loadMoreSessions` promises of the merged list: existing groups
      keep their positions and months, a month absent from the page is left
      alone, the first group of a month already present receives the page's
      sessions of that month after its own, and the months the list lacked
      follow in order of first appearance on the page. */
  lemma MergePageProperties(existing: seq<Month>, incoming: seq<Month>)
    ensures var merged := MergePage(existing, incoming);
      && |merged| == |existing| + |NewMonths(existing, incoming)|
      && (forall i :: 0 <= i < |existing| ==>
            merged[i].monthKey == existing[i].monthKey && merged[i].monthName == existing[i].monthName)
      && (forall i :: 0 <= i < |existing| && existing[i].monthKey !in Keys(incoming) ==> merged[i] == existing[i])
      && (forall i :: 0 <= i < |existing| && FirstIndex(Keys(existing), existing[i].monthKey) == i ==>
            merged[i].sessions == existing[i].sessions + SessionsOf(incoming, existing[i].monthKey))
      && (forall i :: 0 <= i < |existing| && FirstIndex(Keys(existing), existing[i].monthKey) != i ==>
            merged[i] == existing[i])
      && Keys(merged)[|existing|..] == Keys(NewMonths(existing, incoming))
      && (forall k :: k in Keys(merged)[|existing|..] <==> k !in Keys(existing) && k in Keys(incoming))
  {
    var merged := MergePage(existing, incoming);
    MergePageIsExpected(existing, incoming);
    ExpectedShape(existing, incoming);
    NewMonthsKeys(existing, incoming);
    forall i | 0 <= i < |existing| && existing[i].monthKey !in Keys(incoming)
      ensures merged[i] == existing[i]
    {
      SessionsOfAbsent(incoming, existing[i].monthKey);
      assert existing[i].sessions + [] == existing[i].sessions;
    }
    assert Keys(merged)[|existing|..] == Keys(NewMonths(existing, incoming));
  }

  // ---------------------------------------------------------------------
  // No session is lost or duplicated.

  /** Every session of a list of groups, group after group. */
  function Flatten(ms: seq<Month>): seq<SessionSummary>
    decreases |ms|
  {
    if ms == [] then [] else Flatten(ms[..|ms| - 1]) + ms[|ms| - 1].sessions
  }

  lemma {:induction false} FlattenAppend(x: seq<Month>, y: seq<Month>)
    ensures Flatten(x + y) == Flatten(x) + Flatten(y)
    decreases |y|
  {
    if y == [] {
      assert x + y == x;
    } else {
      var init := y[..|y| - 1];
      assert (x + y)[..|x + y| - 1] == x + init;
      FlattenAppend(x, init);
    }
  }

  lemma FlattenUpdate(s: seq<Month>, i: int, g: Month)
    requires 0 <= i < |s|
    ensures multiset(Flatten(s[i := g])) + multiset(s[i].sessions) == multiset(Flatten(s)) + multiset(g.sessions)
  {
    var before, after := s[..i], s[i + 1..];
    assert s == before + [s[i]] + after;
    assert s[i := g] == before + [g] + after;
    FlattenAppend(before + [s[i]], after);
    FlattenAppend(before, [s[i]]);
    FlattenAppend(before + [g], after);
    FlattenAppend(before, [g]);
    assert [s[i]][..0] == [] && [g][..0] == [];
  }

  lemma MergeMonthKeepsSessions(acc: seq<Month>, m: Month)
    ensures multiset(Flatten(MergeMonth(acc, m))) == multiset(Flatten(acc)) + multiset(m.sessions)
  {
    var i := FirstIndex(Keys(acc), m.monthKey);
    if i >= 0 {
      var g := acc[i].(sessions := acc[i].sessions + m.sessions);
      MergeMonthUpdates(acc, m, i);
      FlattenUpdate(acc, i, g);
      var merged, own := multiset(Flatten(acc[i := g])), multiset(acc[i].sessions);
      assert merged + own == multiset(Flatten(acc)) + multiset(m.sessions) + own;
      forall x ensures merged[x] == (multiset(Flatten(acc)) + multiset(m.sessions))[x] {
        assert (merged + own)[x] == merged[x] + own[x];
      }
    } else {
      FlattenAppend(acc, [m]);
      assert [m][..0] == [];
    }
  }

  /** The merged list holds exactly the old sessions and the page's, so the
      number of sessions grows by the page's number. */
  lemma {:induction false} MergeKeepsEverySession(existing: seq<Month>, incoming: seq<Month>)
    ensures multiset(Flatten(MergePage(existing, incoming))) == multiset(Flatten(existing)) + multiset(Flatten(incoming))
    ensures |Flatten(MergePage(existing, incoming))| == |Flatten(existing)| + |Flatten(incoming)|
    decreases |incoming|
  {
    if incoming != [] {
      var init, m := incoming[..|incoming| - 1], incoming[|incoming| - 1];
      MergeKeepsEverySession(existing, init);
      MergeMonthKeepsSessions(MergePage(existing, init), m);
    }
    assert |multiset(Flatten(MergePage(existing, incoming)))| == |Flatten(MergePage(existing, incoming))|;
  }
}
