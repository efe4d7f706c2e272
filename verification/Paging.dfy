/**
 * The log listing: filters, the keyset cursor, newest first, limit; and what a client that follows
 * the cursors sees, on a fixed table and on one that changes between its requests.
 */
module Paging {
  import opened Common
  import opened Events

  /** A row's place in the order (started_at DESC, id DESC). */
  datatype Key = Key(startedAt: int, id: EventId)

  predicate Less(a: Key, b: Key) {
    a.startedAt < b.startedAt || (a.startedAt == b.startedAt && a.id < b.id)
  }

  datatype Filter = Filter(
    provider: Option<string>,
    model: Option<string>,
    status: Option<Status>,
    conversationId: Option<ConvId>,
    since: Option<int>)

  predicate Matches(f: Fields, q: Filter) {
    && (q.provider.Some? ==> f.provider == q.provider.value)
    && (q.model.Some? ==> f.model == q.model.value)
    && (q.status.Some? ==> f.status == q.status.value)
    && (q.conversationId.Some? ==> f.conversationId == q.conversationId)
    && (q.since.Some? ==> f.startedAt >= q.since.value)
  }

  type LogTable = map<EventId, Fields>

  /** The rows a filter selects, by key. */
  function Selected(t: LogTable, q: Filter): set<Key> {
    set id | id in t && Matches(t[id], q) :: Key(t[id].startedAt, id)
  }

  /**
   * What a filter selects: a row is listed, under its own time, exactly if it has each value that was
   * asked for and did not start before the bound.
   */
  lemma SelectedExactly(t: LogTable, q: Filter, id: EventId, startedAt: int)
    ensures Key(startedAt, id) in Selected(t, q) <==>
      && id in t && startedAt == t[id].startedAt
      && q.provider in {None, Some(t[id].provider)}
      && q.model in {None, Some(t[id].model)}
      && q.status in {None, Some(t[id].status)}
      && (q.conversationId == None || q.conversationId == t[id].conversationId)
      && (q.since == None || q.since.value <= t[id].startedAt)
  {
  }

  /** Both halves make a keyset cursor; `before` alone is a time bound; `before_id` alone is ignored. */
  predicate Before(k: Key, before: Option<int>, beforeId: Option<EventId>) {
    before.Some? ==>
      if beforeId.Some? then Less(k, Key(before.value, beforeId.value)) else k.startedAt < before.value
  }

  // ---- ORDER BY ----

  ghost predicate IsGreatest(s: set<Key>, g: Key) {
    g in s && forall k :: k in s ==> k == g || Less(k, g)
  }

  lemma {:induction false} FindGreatest(s: set<Key>) returns (g: Key)
    requires s != {}
    ensures IsGreatest(s, g)
    decreases |s|
  {
    var x :| x in s;
    if s == {x} {
      g := x;
    } else {
      var h := FindGreatest(s - {x});
      g := if Less(h, x) then x else h;
      forall k | k in s ensures k == g || Less(k, g) {
        assert k == x || k in s - {x};
      }
    }
  }

  lemma HasGreatest(s: set<Key>)
    requires s != {}
    ensures exists g :: IsGreatest(s, g)
  {
    var g := FindGreatest(s);
  }

  ghost function Greatest(s: set<Key>): (g: Key)
    requires s != {}
    ensures IsGreatest(s, g)
  {
    HasGreatest(s);
    var g :| IsGreatest(s, g);
    g
  }

  ghost function Sorted(s: set<Key>): seq<Key>
    decreases |s|
  {
    if s == {} then [] else [Greatest(s)] + Sorted(s - {Greatest(s)})
  }

  predicate Decreasing(xs: seq<Key>) {
    forall i, j :: 0 <= i < j < |xs| ==> Less(xs[j], xs[i])
  }

  /** `xs` lists the elements of `s`. */
  ghost predicate Lists(xs: seq<Key>, s: set<Key>) {
    (forall i :: 0 <= i < |xs| ==> xs[i] in s) && (forall k :: k in s ==> k in xs)
  }

  lemma {:induction false} SortedIsSorted(s: set<Key>)
    ensures Decreasing(Sorted(s)) && Lists(Sorted(s), s)
    decreases |s|
  {
    if s != {} {
      var g := Greatest(s);
      var rest := Sorted(s - {g});
      SortedIsSorted(s - {g});
      forall k | k in s ensures k in [g] + rest {
        assert k == g || k in s - {g};
      }
    }
  }

  /** The order is total, so there is only one sorted listing of a set. */
  lemma {:induction false} SortedIsUnique(s: set<Key>, xs: seq<Key>)
    requires Decreasing(xs) && Lists(xs, s)
    ensures xs == Sorted(s)
    decreases |s|
  {
    if xs == [] {
      assert s == {};
    } else {
      assert xs[0] in s;
      FirstIsGreatest(s, xs);
      TailLists(s, xs);
      SortedIsUnique(s - {xs[0]}, xs[1..]);
      assert xs == [xs[0]] + xs[1..];
    }
  }

  lemma FirstIsGreatest(s: set<Key>, xs: seq<Key>)
    requires Decreasing(xs) && Lists(xs, s) && s != {} && xs != []
    ensures xs[0] == Greatest(s)
  {
    assert xs[0] in s;
    forall k | k in s ensures k == xs[0] || Less(k, xs[0]) {
      var i :| 0 <= i < |xs| && xs[i] == k;
    }
    GreatestIsUnique(s, xs[0], Greatest(s));
  }

  lemma GreatestIsUnique(s: set<Key>, g: Key, h: Key)
    requires IsGreatest(s, g) && IsGreatest(s, h)
    ensures g == h
  {
  }

  lemma TailLists(s: set<Key>, xs: seq<Key>)
    requires Decreasing(xs) && Lists(xs, s) && xs != []
    ensures Decreasing(xs[1..]) && Lists(xs[1..], s - {xs[0]})
  {
    var tail := xs[1..];
    forall i | 0 <= i < |tail| ensures tail[i] in s - {xs[0]} {
      assert tail[i] == xs[i + 1] && Less(xs[i + 1], xs[0]);
    }
    forall k | k in s - {xs[0]} ensures k in tail {
      var j :| 0 <= j < |xs| && xs[j] == k;
      assert tail[j - 1] == k;
    }
  }

  function Take(xs: seq<Key>, n: nat): seq<Key> {
    if n <= |xs| then xs[..n] else xs
  }

  // ---- one request ----

  function Narrowed(s: set<Key>, before: Option<int>, beforeId: Option<EventId>): set<Key> {
    set k | k in s && Before(k, before, beforeId)
  }

  ghost function ListRecent(t: LogTable, q: Filter, before: Option<int>, beforeId: Option<EventId>, limit: nat): seq<Key> {
    Take(Sorted(Narrowed(Selected(t, q), before, beforeId)), limit)
  }

  datatype LogPage = LogPage(items: seq<Key>, nextBefore: Option<int>, nextBeforeId: Option<EventId>)

  /** A cursor is offered when the page came back full. */
  ghost function RecentLogs(t: LogTable, q: Filter, before: Option<int>, beforeId: Option<EventId>, limit: nat): LogPage
    requires limit >= 1
  {
    var rows := ListRecent(t, q, before, beforeId, limit);
    if |rows| == limit
    then LogPage(rows, Some(rows[|rows| - 1].startedAt), Some(rows[|rows| - 1].id))
    else LogPage(rows, None, None)
  }

  // ---- following the cursors ----

  /** One request per table state until no cursor is offered or the states run out. */
  ghost function Scan(tables: seq<LogTable>, q: Filter, before: Option<int>, beforeId: Option<EventId>, limit: nat): seq<LogPage>
    requires limit >= 1
    decreases |tables|
  {
    if tables == [] then []
    else
      var page := RecentLogs(tables[0], q, before, beforeId, limit);
      [page] + (if page.nextBefore.None? then [] else Scan(tables[1..], q, page.nextBefore, page.nextBeforeId, limit))
  }

  function Items(pages: seq<LogPage>): (r: seq<seq<Key>>)
    ensures |r| == |pages|
    ensures forall i :: 0 <= i < |r| ==> r[i] == pages[i].items
  {
    seq(|pages|, i requires 0 <= i < |pages| => pages[i].items)
  }

  function Concat(pages: seq<seq<Key>>): seq<Key> {
    if pages == [] then [] else pages[0] + Concat(pages[1..])
  }

  /** The last page offered no cursor. */
  predicate Complete(pages: seq<LogPage>) {
    pages != [] && pages[|pages| - 1].nextBefore.None?
  }

  // ---- the same, on the sets of keys that match at each request ----

  ghost function Behind(s: set<Key>, cursor: Option<Key>): set<Key> {
    set k | k in s && (cursor.Some? ==> Less(k, cursor.value))
  }

  ghost function Walk(sets: seq<set<Key>>, cursor: Option<Key>, limit: nat): seq<seq<Key>>
    requires limit >= 1
    decreases |sets|
  {
    if sets == [] then []
    else
      var all := Sorted(Behind(sets[0], cursor));
      if |all| < limit then [all]
      else [all[..limit]] + Walk(sets[1..], Some(all[limit - 1]), limit)
  }

  predicate EndsShort(pages: seq<seq<Key>>, limit: nat) {
    pages != [] && |pages[|pages| - 1]| < limit
  }

  function Selections(tables: seq<LogTable>, q: Filter): (r: seq<set<Key>>)
    ensures |r| == |tables|
    ensures forall i :: 0 <= i < |r| ==> r[i] == Selected(tables[i], q)
  {
    seq(|tables|, i requires 0 <= i < |tables| => Selected(tables[i], q))
  }

  function BeforeOf(cursor: Option<Key>): Option<int> {
    if cursor.Some? then Some(cursor.value.startedAt) else None
  }

  function BeforeIdOf(cursor: Option<Key>): Option<EventId> {
    if cursor.Some? then Some(cursor.value.id) else None
  }

  lemma OnePage(t: LogTable, q: Filter, cursor: Option<Key>, limit: nat)
    requires limit >= 1
    ensures var all := Sorted(Behind(Selected(t, q), cursor));
      RecentLogs(t, q, BeforeOf(cursor), BeforeIdOf(cursor), limit)
        == if |all| < limit then LogPage(all, None, None)
           else LogPage(all[..limit], BeforeOf(Some(all[limit - 1])), BeforeIdOf(Some(all[limit - 1])))
  {
    assert Narrowed(Selected(t, q), BeforeOf(cursor), BeforeIdOf(cursor)) == Behind(Selected(t, q), cursor);
  }

  lemma ScanStep(tables: seq<LogTable>, q: Filter, cursor: Option<Key>, limit: nat)
    requires limit >= 1 && tables != []
    ensures var all := Sorted(Behind(Selected(tables[0], q), cursor));
      Scan(tables, q, BeforeOf(cursor), BeforeIdOf(cursor), limit)
        == if |all| < limit then [LogPage(all, None, None)]
           else var last := Some(all[limit - 1]);
             [LogPage(all[..limit], BeforeOf(last), BeforeIdOf(last))]
             + Scan(tables[1..], q, BeforeOf(last), BeforeIdOf(last), limit)
  {
    OnePage(tables[0], q, cursor, limit);
  }

  lemma CompleteStep(page: LogPage, rest: seq<LogPage>, limit: nat)
    requires page.nextBefore.Some? && |page.items| >= limit
    requires Complete(rest) <==> EndsShort(Items(rest), limit)
    ensures Items([page] + rest) == [page.items] + Items(rest)
    ensures Complete([page] + rest) <==> EndsShort([page.items] + Items(rest), limit)
  {
    if rest != [] {
      assert ([page] + rest)[|rest|] == rest[|rest| - 1];
      assert ([page.items] + Items(rest))[|rest|] == Items(rest)[|rest| - 1];
    }
  }

  /** The requests of the endpoint walk the matching keys, and a cursor is missing exactly on a short page. */
  lemma {:induction false} ScanWalks(tables: seq<LogTable>, q: Filter, cursor: Option<Key>, limit: nat)
    requires limit >= 1
    ensures var pages := Scan(tables, q, BeforeOf(cursor), BeforeIdOf(cursor), limit);
      && Items(pages) == Walk(Selections(tables, q), cursor, limit)
      && (Complete(pages) <==> EndsShort(Items(pages), limit))
    decreases |tables|
  {
    if tables != [] {
      ScanStep(tables, q, cursor, limit);
      assert Selections(tables, q)[1..] == Selections(tables[1..], q);
      var all := Sorted(Behind(Selected(tables[0], q), cursor));
      if |all| >= limit {
        var last := Some(all[limit - 1]);
        var rest := Scan(tables[1..], q, BeforeOf(last), BeforeIdOf(last), limit);
        ScanWalks(tables[1..], q, last, limit);
        CompleteStep(LogPage(all[..limit], BeforeOf(last), BeforeIdOf(last)), rest, limit);
      } else {
        assert Items([LogPage(all, None, None)]) == [all];
      }
    }
  }

  /** Behind a full page lies exactly what the page left out. */
  lemma NextCursorContinues(s: set<Key>, cursor: Option<Key>, n: nat)
    requires 1 <= n <= |Sorted(Behind(s, cursor))|
    ensures var xs := Sorted(Behind(s, cursor)); Sorted(Behind(s, Some(xs[n - 1]))) == xs[n..]
  {
    var all := Behind(s, cursor);
    var xs := Sorted(all);
    SortedIsSorted(all);
    assert xs[n - 1] in all;
    TailIsWhatIsBelow(all, xs, n);
    assert Behind(s, Some(xs[n - 1])) == set k | k in all && Less(k, xs[n - 1]);
    SortedIsUnique(Behind(s, Some(xs[n - 1])), xs[n..]);
  }

  lemma TailIsWhatIsBelow(s: set<Key>, xs: seq<Key>, n: nat)
    requires Decreasing(xs) && Lists(xs, s) && 1 <= n <= |xs|
    ensures Decreasing(xs[n..]) && Lists(xs[n..], set k | k in s && Less(k, xs[n - 1]))
  {
    var tail := xs[n..];
    forall i | 0 <= i < |tail| ensures tail[i] in s && Less(tail[i], xs[n - 1]) {
      assert tail[i] == xs[n + i];
    }
    forall k | k in s && Less(k, xs[n - 1]) ensures k in tail {
      var j :| 0 <= j < |xs| && xs[j] == k;
      assert j < n - 1 ==> Less(xs[n - 1], xs[j]);
      assert tail[j - n] == k;
    }
  }

  lemma {:induction false} WalkListsEverything(sets: seq<set<Key>>, s: set<Key>, cursor: Option<Key>, limit: nat)
    requires limit >= 1
    requires forall i :: 0 <= i < |sets| ==> sets[i] == s
    requires |sets| > |Sorted(Behind(s, cursor))| / limit
    ensures var pages := Walk(sets, cursor, limit);
      var all := Sorted(Behind(s, cursor));
      EndsShort(pages, limit) && Concat(pages) == all && |pages| == |all| / limit + 1
    decreases |sets|
  {
    var all := Sorted(Behind(s, cursor));
    var pages := Walk(sets, cursor, limit);
    if |all| >= limit {
      NextCursorContinues(s, cursor, limit);
      DivStep(|all|, limit);
      WalkListsEverything(sets[1..], s, Some(all[limit - 1]), limit);
      assert pages[1..] == Walk(sets[1..], Some(all[limit - 1]), limit);
      assert all == all[..limit] + all[limit..];
    } else {
      DivSmall(|all|, limit);
      assert pages == [all] && pages[1..] == [];
    }
  }

  /**
   * On a table that does not change, the pages concatenate to the full sorted list, and a client that
   * follows the cursors makes exactly n / limit + 1 requests for n matching rows.
   */
  lemma PagesAreTheSortedList(tables: seq<LogTable>, t: LogTable, q: Filter, limit: nat)
    requires limit >= 1
    requires forall k :: 0 <= k < |tables| ==> tables[k] == t
    requires |tables| > |Sorted(Selected(t, q))| / limit
    ensures var pages := Scan(tables, q, None, None, limit);
      && Complete(pages)
      && Concat(Items(pages)) == Sorted(Selected(t, q))
      && |pages| == |Sorted(Selected(t, q))| / limit + 1
  {
    assert Behind(Selected(t, q), None) == Selected(t, q);
    ScanWalks(tables, q, None, limit);
    WalkListsEverything(Selections(tables, q), Selected(t, q), None, limit);
  }

  lemma DivStep(n: nat, d: nat)
    requires 1 <= d <= n
    ensures n / d == (n - d) / d + 1
  {
    var q, r := (n - d) / d, (n - d) % d;
    assert n == d * (q + 1) + r;
    DivUnique(n, d, q + 1, r);
  }

  lemma DivUnique(n: nat, d: nat, q: nat, r: nat)
    requires d >= 1 && n == d * q + r && r < d
    ensures n / d == q
  {
    var e := n / d - q;
    assert n == d * (n / d) + n % d;
    assert d * e == r - n % d;
    assert e >= 1 ==> d * e >= d;
    assert e <= -1 ==> d * e <= -1 * d;
  }

  lemma DivSmall(n: nat, d: nat)
    requires n < d
    ensures n / d == 0
  {
  }

  lemma {:induction false} WalkIsDecreasing(sets: seq<set<Key>>, cursor: Option<Key>, limit: nat)
    requires limit >= 1
    ensures var rows := Concat(Walk(sets, cursor, limit));
      && Decreasing(rows)
      && (cursor.Some? ==> forall i :: 0 <= i < |rows| ==> Less(rows[i], cursor.value))
    decreases |sets|
  {
    if sets != [] {
      var all := Sorted(Behind(sets[0], cursor));
      var pages := Walk(sets, cursor, limit);
      SortedIsSorted(Behind(sets[0], cursor));
      if |all| >= limit {
        var last := all[limit - 1];
        var later := Concat(Walk(sets[1..], Some(last), limit));
        WalkIsDecreasing(sets[1..], Some(last), limit);
        assert pages[1..] == Walk(sets[1..], Some(last), limit);
        DecreasingConcat(all[..limit], later);
        assert last in Behind(sets[0], cursor);
      } else {
        assert pages == [all] && pages[1..] == [];
      }
    }
  }

  lemma DecreasingConcat(xs: seq<Key>, ys: seq<Key>)
    requires Decreasing(xs) && Decreasing(ys) && xs != []
    requires forall k :: 0 <= k < |ys| ==> Less(ys[k], xs[|xs| - 1])
    ensures Decreasing(xs + ys)
  {
    forall i, j | 0 <= i < j < |xs + ys| ensures Less((xs + ys)[j], (xs + ys)[i]) {
      if i < |xs| <= j {
        assert (xs + ys)[j] == ys[j - |xs|];
        assert i < |xs| - 1 ==> Less(xs[|xs| - 1], xs[i]);
      }
    }
  }

  lemma {:induction false} WalkMissesNothing(sets: seq<set<Key>>, cursor: Option<Key>, limit: nat, k: Key)
    requires limit >= 1
    requires forall i :: 0 <= i < |sets| ==> k in sets[i]
    requires cursor.Some? ==> Less(k, cursor.value)
    requires EndsShort(Walk(sets, cursor, limit), limit)
    ensures k in Concat(Walk(sets, cursor, limit))
    decreases |sets|
  {
    var all := Sorted(Behind(sets[0], cursor));
    var pages := Walk(sets, cursor, limit);
    SortedIsSorted(Behind(sets[0], cursor));
    assert k in Behind(sets[0], cursor) && k in all;
    var i :| 0 <= i < |all| && all[i] == k;
    if |all| < limit {
      assert pages == [all] && pages[1..] == [];
    } else {
      var rest := Walk(sets[1..], Some(all[limit - 1]), limit);
      assert pages[1..] == rest;
      if i < limit {
        assert all[..limit][i] == k;
      } else {
        assert pages == [all[..limit]] + rest;
        WalkMissesNothing(sets[1..], Some(all[limit - 1]), limit, k);
      }
    }
  }

  /**
   * On a table that changes between requests, in any way: the rows seen are strictly decreasing in
   * (started_at, id), so none is seen twice; and a row that is there and matches at every request is
   * seen, whatever is inserted or removed around it, once the client has followed the cursors to the
   * end. So exactly one position shows it.
   */
  lemma EveryLastingRowAppearsOnce(tables: seq<LogTable>, q: Filter, limit: nat, k: Key) returns (i: nat)
    requires limit >= 1
    requires forall r :: 0 <= r < |tables| ==> k in Selected(tables[r], q)
    requires Complete(Scan(tables, q, None, None, limit))
    ensures var rows := Concat(Items(Scan(tables, q, None, None, limit)));
      && Decreasing(rows)
      && i < |rows| && forall j :: 0 <= j < |rows| ==> (rows[j] == k <==> j == i)
  {
    var rows := Concat(Items(Scan(tables, q, None, None, limit)));
    ScanWalks(tables, q, None, limit);
    WalkMissesNothing(Selections(tables, q), None, limit, k);
    WalkIsDecreasing(Selections(tables, q), None, limit);
    i :| 0 <= i < |rows| && rows[i] == k;
    forall j | 0 <= j < |rows| ensures rows[j] == k <==> j == i {
      assert j < i ==> Less(rows[i], rows[j]);
      assert i < j ==> Less(rows[j], rows[i]);
    }
  }

  /**
   * Why the cursor needs its second half: continuing with the time alone skips exactly the rows that
   * share the last row's timestamp and come after it, and nothing else.
   */
  lemma TimeOnlyCursorSkipsTies(s: set<Key>, last: Key)
    ensures Narrowed(s, Some(last.startedAt), Some(last.id)) - Narrowed(s, Some(last.startedAt), None)
         == set k | k in s && k.startedAt == last.startedAt && k.id < last.id
    ensures Narrowed(s, Some(last.startedAt), None) <= Narrowed(s, Some(last.startedAt), Some(last.id))
  {
  }
}
