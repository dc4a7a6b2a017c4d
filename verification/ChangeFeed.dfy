/** The pull feed of job changes: a reader pages by `change_seq`, a number taken when a row is
    written, while a row becomes visible only when its transaction commits.

    A history lists every write in `change_seq` order. Times are on the database's clock. */
module ChangeFeed {
  import opened Common

  /** How long a change is held back (seconds). */
  const SETTLE_SECS: real := 5.0

  /** One stamped row write. `started` is the start of its transaction, which is what the trigger's
      `now()` stamps into `updated_at`; `written` is when the trigger drew the sequence number;
      `commit` is when the row version became visible, if it ever did. */
  datatype Write = Write(job: nat, started: real, written: real, commit: Option<real>)

  /** The write that drew `change_seq` `n` is at index `n - 1`. */
  type History = seq<Write>

  function At(h: History, n: int): Write
    requires 1 <= n <= |h|
  {
    h[n - 1]
  }

  /** What the database guarantees: a sequence hands out numbers in the order they are drawn, a
      transaction writes between its start and its commit, and a second writer of a row waits for
      the first one's row lock before its trigger fires. */
  ghost predicate WellFormed(h: History) {
    && (forall n :: 1 <= n <= |h| ==>
          && At(h, n).started <= At(h, n).written
          && (At(h, n).commit.Some? ==> At(h, n).written <= At(h, n).commit.value))
    && (forall m, n :: 1 <= m < n <= |h| ==> At(h, m).written <= At(h, n).written)
    && (forall m, n :: 1 <= m < n <= |h| && At(h, m).job == At(h, n).job && At(h, m).commit.Some? ==>
          At(h, m).commit.value <= At(h, n).written)
  }

  /** Every writing transaction that commits does so less than `d` seconds after it started. */
  ghost predicate ShorterThan(h: History, d: real) {
    forall n :: 1 <= n <= |h| && At(h, n).commit.Some? ==> At(h, n).commit.value - At(h, n).started < d
  }

  predicate Visible(h: History, n: int, t: real)
    requires 1 <= n <= |h|
  {
    At(h, n).commit.Some? && At(h, n).commit.value <= t
  }

  /** The version of its row that a snapshot at `t` sees. */
  predicate Current(h: History, n: int, t: real) {
    && 1 <= n <= |h|
    && Visible(h, n, t)
    && forall m :: n < m <= |h| && At(h, m).job == At(h, n).job ==> !Visible(h, m, t)
  }

  /** `WHERE change_seq >= from ORDER BY change_seq` on the snapshot at `t`. */
  function RowsFrom(h: History, from: int, t: real): (rows: seq<int>)
    requires 1 <= from
    decreases |h| - from
  {
    if from > |h| then []
    else
      var rest := RowsFrom(h, from + 1, t);
      if Current(h, from, t) then [from] + rest else rest
  }

  /** `updated_at <= now() - SETTLE_SECS` */
  predicate Settled(h: History, n: int, now: real) {
    1 <= n <= |h| && At(h, n).started <= now - SETTLE_SECS
  }

  function TakeSettled(h: History, rows: seq<int>, now: real): (ready: seq<int>)
    ensures ready <= rows
    ensures forall i :: 0 <= i < |ready| ==> Settled(h, ready[i], now)
    ensures |ready| < |rows| ==> !Settled(h, rows[|ready|], now)
  {
    if rows == [] || !Settled(h, rows[0], now) then []
    else [rows[0]] + TakeSettled(h, rows[1..], now)
  }

  /** One request: the reading transaction's `now()`, the instant of its snapshot, and the
      requested page size. */
  datatype Poll = Poll(now: real, snapshot: real, limit: Option<int>)

  predicate ValidPoll(p: Poll) {
    p.now <= p.snapshot
  }

  function PageSize(limit: Option<int>): int {
    Max(1, Min(1000, if limit.Some? then limit.value else 500))
  }

  datatype Page = Page(ready: seq<int>, heldBack: bool)

  /** The first `limit` rows beyond the cursor that the poll's snapshot sees. */
  function Fetched(h: History, cursor: int, limit: int, p: Poll): (rows: seq<int>)
    requires 1 <= limit
  {
    var all := RowsFrom(h, Max(1, cursor + 1), p.snapshot);
    if |all| <= limit then all else all[..limit]
  }

  function SettledChanges(h: History, cursor: int, limit: int, p: Poll): (page: Page)
    requires 1 <= limit
  {
    var rows := Fetched(h, cursor, limit, p);
    var ready := TakeSettled(h, rows, p.now);
    Page(ready, |ready| < |rows|)
  }

  datatype Response = Response(changes: seq<int>, cursor: int, more: bool)

  function Changes(h: History, since: int, p: Poll): (r: Response) {
    var limit := PageSize(p.limit);
    var page := SettledChanges(h, since, limit, p);
    var rows := page.ready;
    Response(
      rows,
      if rows == [] then since else rows[|rows| - 1],
      page.heldBack || |rows| >= limit)
  }

  /** The cursor a client holds after its first `k` polls. */
  function CursorAfter(h: History, start: int, polls: seq<Poll>, k: nat): int
    requires k <= |polls|
  {
    if k == 0 then start
    else Changes(h, CursorAfter(h, start, polls, k - 1), polls[k - 1]).cursor
  }

  /** The sequence numbers its first `k` polls returned, in order of arrival. */
  function ReturnedBy(h: History, start: int, polls: seq<Poll>, k: nat): seq<int>
    requires k <= |polls|
  {
    if k == 0 then []
    else ReturnedBy(h, start, polls, k - 1) +
         Changes(h, CursorAfter(h, start, polls, k - 1), polls[k - 1]).changes
  }

  // ----- one page

  ghost predicate Ascending(s: seq<int>) {
    forall i, j :: 0 <= i < j < |s| ==> s[i] < s[j]
  }

  lemma {:induction false} RowsFromShape(h: History, from: int, t: real)
    requires 1 <= from
    ensures var rows := RowsFrom(h, from, t);
      && Ascending(rows)
      && (forall i :: 0 <= i < |rows| ==> from <= rows[i] && Current(h, rows[i], t))
    decreases |h| - from
  {
    hide Current;
    if from <= |h| {
      RowsFromShape(h, from + 1, t);
    }
  }

  lemma {:induction false} RowsFromComplete(h: History, from: int, t: real, n: int)
    requires 1 <= from <= n && Current(h, n, t)
    ensures n in RowsFrom(h, from, t)
    decreases |h| - from
  {
    if from < n {
      RowsFromComplete(h, from + 1, t, n);
    }
  }

  lemma FetchedShape(h: History, cursor: int, limit: int, p: Poll)
    requires 1 <= limit
    ensures var rows := Fetched(h, cursor, limit, p);
      && Ascending(rows)
      && |rows| <= limit
      && (forall i :: 0 <= i < |rows| ==> cursor < rows[i] && Current(h, rows[i], p.snapshot))
  {
    RowsFromShape(h, Max(1, cursor + 1), p.snapshot);
  }

  /** A visible row beyond the cursor is fetched unless `limit` smaller ones are. */
  lemma FetchedComplete(h: History, cursor: int, limit: int, p: Poll, n: int)
    requires 1 <= limit && cursor < n && Current(h, n, p.snapshot)
    ensures var rows := Fetched(h, cursor, limit, p);
      n in rows || (|rows| == limit && rows[limit - 1] < n)
  {
    var all := RowsFrom(h, Max(1, cursor + 1), p.snapshot);
    RowsFromShape(h, Max(1, cursor + 1), p.snapshot);
    RowsFromComplete(h, Max(1, cursor + 1), p.snapshot, n);
    var i :| 0 <= i < |all| && all[i] == n;
    var rows := Fetched(h, cursor, limit, p);
    if i < limit {
      assert rows[i] == n;
    }
  }

  /** A page holds settled rows beyond the old cursor in ascending order and ends at the new one. */
  lemma PageShape(h: History, since: int, p: Poll)
    ensures var r := Changes(h, since, p);
      && Ascending(r.changes)
      && (forall i :: 0 <= i < |r.changes| ==> since < r.changes[i] <= r.cursor)
      && (forall i :: 0 <= i < |r.changes| ==>
            Current(h, r.changes[i], p.snapshot) && Settled(h, r.changes[i], p.now))
      && r.cursor == (if r.changes == [] then since else r.changes[|r.changes| - 1])
      && since <= r.cursor
  {
    FetchedShape(h, since, PageSize(p.limit), p);
  }

  /** A page holds at most what was asked for, at most 1000 rows, and 500 unless asked; a request for
      fewer than one is answered as one for one. */
  lemma PageIsBounded(h: History, since: int, p: Poll)
    ensures var n := |Changes(h, since, p).changes|;
      && n <= 1000
      && (p.limit.Some? ==> n <= Max(1, p.limit.value))
      && (p.limit.None? ==> n <= 500)
    ensures p.limit.None? ==> PageSize(p.limit) == 500
    ensures p.limit.Some? && 1 <= p.limit.value <= 1000 ==> PageSize(p.limit) == p.limit.value
  {
    FetchedShape(h, since, PageSize(p.limit), p);
  }

  /** Every row the snapshot sees between the two cursors is in the page. */
  lemma PageComplete(h: History, since: int, p: Poll, n: int)
    requires Current(h, n, p.snapshot) && since < n <= Changes(h, since, p).cursor
    ensures n in Changes(h, since, p).changes
  {
    var rows := Fetched(h, since, PageSize(p.limit), p);
    var ready := Changes(h, since, p).changes;
    FetchedShape(h, since, PageSize(p.limit), p);
    FetchedComplete(h, since, PageSize(p.limit), p, n);
    assert ready == rows[..|ready|];
    assert rows[|ready| - 1] >= n;
    var i :| 0 <= i < |rows| && rows[i] == n;
    assert i < |ready|;
    assert ready[i] == n;
  }

  /** `more = false` is honest: nothing the page's snapshot saw lies beyond the returned cursor. */
  lemma MoreIsHonest(h: History, since: int, p: Poll, n: int)
    requires !Changes(h, since, p).more && Current(h, n, p.snapshot) && since < n
    ensures n in Changes(h, since, p).changes
  {
    FetchedComplete(h, since, PageSize(p.limit), p, n);
  }

  /** `more = true` is not raised for nothing: the page is full, or some visible row beyond the
      cursor has not settled. */
  lemma MoreHasAReason(h: History, since: int, p: Poll)
    requires Changes(h, since, p).more
    ensures var r := Changes(h, since, p);
      |r.changes| == PageSize(p.limit) ||
      exists n :: r.cursor < n && Current(h, n, p.snapshot) && !Settled(h, n, p.now)
  {
    var rows := Fetched(h, since, PageSize(p.limit), p);
    FetchedShape(h, since, PageSize(p.limit), p);
    var r := Changes(h, since, p);
    if |r.changes| < |rows| {
      var n := rows[|r.changes|];
      assert r.changes != [] ==> r.cursor == rows[|r.changes| - 1];
      assert r.cursor < n && Current(h, n, p.snapshot) && !Settled(h, n, p.now);
    }
  }

  /** Once a settled row has been returned, every write with a smaller number that will ever commit
      has already committed at that page's snapshot. */
  lemma SettledMeansCommitted(h: History, d: real, p: Poll, m: int, n: int)
    requires WellFormed(h) && ShorterThan(h, d) && 2.0 * d <= SETTLE_SECS && ValidPoll(p)
    requires 1 <= m <= n <= |h|
    requires Settled(h, n, p.now) && Visible(h, n, p.snapshot)
    requires At(h, m).commit.Some?
    ensures Visible(h, m, p.snapshot)
  {
    if m < n {
      assert At(h, m).written <= At(h, n).written;
    }
  }

  /** A row version that is current at or after the snapshot was current at the snapshot, provided
      it had committed by then. */
  lemma CurrentEarlier(h: History, n: int, s: real, t: real)
    requires s <= t && Current(h, n, t) && Visible(h, n, s)
    ensures Current(h, n, s)
  {
    forall m | n < m <= |h| && At(h, m).job == At(h, n).job ensures !Visible(h, m, s) {
      assert !Visible(h, m, t);
    }
  }

  lemma PageLosesNothing(h: History, d: real, since: int, p: Poll, n: int, t: real)
    requires WellFormed(h) && ShorterThan(h, d) && 2.0 * d <= SETTLE_SECS
    requires ValidPoll(p) && p.snapshot <= t
    requires Current(h, n, t) && since < n <= Changes(h, since, p).cursor
    ensures n in Changes(h, since, p).changes
  {
    PageShape(h, since, p);
    SettledMeansCommitted(h, d, p, n, Changes(h, since, p).cursor);
    CurrentEarlier(h, n, p.snapshot, t);
    PageComplete(h, since, p, n);
  }

  // ----- whole runs of a client

  /** No loss: at any time `t` at or after the first `k` polls, every job whose current version has
      a number `n` between the starting cursor and the client's cursor was returned with it. */
  lemma {:induction false} NothingLost(h: History, d: real, start: int, polls: seq<Poll>, k: nat, t: real, n: int)
    requires WellFormed(h) && ShorterThan(h, d) && 2.0 * d <= SETTLE_SECS
    requires k <= |polls|
    requires forall i :: 0 <= i < k ==> ValidPoll(polls[i]) && polls[i].snapshot <= t
    requires Current(h, n, t) && start < n <= CursorAfter(h, start, polls, k)
    ensures n in ReturnedBy(h, start, polls, k)
  {
    hide Changes, Current, WellFormed, ShorterThan;
    if k > 0 {
      var before := CursorAfter(h, start, polls, k - 1);
      if n <= before {
        NothingLost(h, d, start, polls, k - 1, t, n);
      } else {
        PageLosesNothing(h, d, before, polls[k - 1], n, t);
      }
    }
  }

  /** A client whose `k`-th poll said `more = false` has been given the current version of every job
      (beyond its starting cursor) that this poll's snapshot could see. */
  lemma CaughtUp(h: History, d: real, start: int, polls: seq<Poll>, k: nat, n: int)
    requires WellFormed(h) && ShorterThan(h, d) && 2.0 * d <= SETTLE_SECS
    requires 0 < k <= |polls|
    requires forall i :: 0 <= i < k ==> ValidPoll(polls[i]) && polls[i].snapshot <= polls[k - 1].snapshot
    requires !Changes(h, CursorAfter(h, start, polls, k - 1), polls[k - 1]).more
    requires start < n && Current(h, n, polls[k - 1].snapshot)
    ensures n in ReturnedBy(h, start, polls, k)
  {
    hide Changes, Current, WellFormed, ShorterThan;
    var before := CursorAfter(h, start, polls, k - 1);
    if before < n {
      MoreIsHonest(h, before, polls[k - 1], n);
    } else {
      NothingLost(h, d, start, polls, k - 1, polls[k - 1].snapshot, n);
    }
  }

  ghost predicate AscendingWithin(s: seq<int>, lo: int, hi: int) {
    Ascending(s) && forall i :: 0 <= i < |s| ==> lo < s[i] <= hi
  }

  lemma AscendingJoin(a: seq<int>, b: seq<int>, lo: int, mid: int, hi: int)
    requires AscendingWithin(a, lo, mid) && AscendingWithin(b, mid, hi) && lo <= mid <= hi
    ensures AscendingWithin(a + b, lo, hi)
  {
  }

  lemma PageIsWithin(h: History, since: int, p: Poll)
    ensures var r := Changes(h, since, p); since <= r.cursor && AscendingWithin(r.changes, since, r.cursor)
  {
    PageShape(h, since, p);
  }

  /** Every number arrives at most once, in ascending order, whatever the transactions do. */
  lemma {:induction false} ArrivalOrder(h: History, start: int, polls: seq<Poll>, k: nat)
    requires k <= |polls|
    ensures start <= CursorAfter(h, start, polls, k)
    ensures AscendingWithin(ReturnedBy(h, start, polls, k), start, CursorAfter(h, start, polls, k))
  {
    hide Changes;
    if k > 0 {
      ArrivalOrder(h, start, polls, k - 1);
      var before := CursorAfter(h, start, polls, k - 1);
      PageIsWithin(h, before, polls[k - 1]);
      var r := Changes(h, before, polls[k - 1]);
      AscendingJoin(ReturnedBy(h, start, polls, k - 1), r.changes, start, before, r.cursor);
    }
  }

  /** A page moves the cursor exactly when the oldest unread visible row has settled. */
  lemma PageAdvancesIff(h: History, since: int, p: Poll, n: int)
    requires since < n && Current(h, n, p.snapshot)
    requires forall m :: since < m < n ==> !Current(h, m, p.snapshot)
    ensures since < Changes(h, since, p).cursor <==> Settled(h, n, p.now)
  {
    var rows := Fetched(h, since, PageSize(p.limit), p);
    FetchedShape(h, since, PageSize(p.limit), p);
    FetchedComplete(h, since, PageSize(p.limit), p, n);
    assert n <= rows[0];
    assert rows[0] == n;
    PageShape(h, since, p);
  }

  // ----- the bound is exact

  /** Feeds over transactions shorter than `d` never lose a change. */
  ghost predicate LosesNothing(d: real) {
    forall h: History, start: int, polls: seq<Poll>, t: real, n: int ::
      WellFormed(h) && ShorterThan(h, d) &&
      (forall i :: 0 <= i < |polls| ==> ValidPoll(polls[i]) && polls[i].snapshot <= t) &&
      Current(h, n, t) && start < n <= CursorAfter(h, start, polls, |polls|) ==>
        n in ReturnedBy(h, start, polls, |polls|)
  }

  /** Two transactions of length `len`. The first to write commits last. */
  function SlowWrite(len: real): History {
    [Write(0, len, len, Some(2.0 * len)), Write(1, 0.0, len, Some(len))]
  }

  const SETTLED_POLL := Poll(SETTLE_SECS, SETTLE_SECS, None)

  lemma SlowWritePage(len: real)
    requires SETTLE_SECS / 2.0 < len <= SETTLE_SECS
    ensures WellFormed(SlowWrite(len)) && Current(SlowWrite(len), 1, 2.0 * len)
    ensures Changes(SlowWrite(len), 0, SETTLED_POLL).changes == [2]
  {
    var h := SlowWrite(len);
    assert !Visible(h, 1, SETTLE_SECS);
    assert Current(h, 2, SETTLE_SECS);
    assert RowsFrom(h, 3, SETTLE_SECS) == [];
    assert RowsFrom(h, 2, SETTLE_SECS) == [2];
    assert RowsFrom(h, 1, SETTLE_SECS) == [2];
    assert Settled(h, 2, SETTLE_SECS);
  }

  /** With transactions just over half of SETTLE_SECS long, a poll can move past a number whose row
      appears only later: that row is never returned. */
  lemma SlowWriteIsLost(len: real)
    requires SETTLE_SECS / 2.0 < len <= SETTLE_SECS
    ensures WellFormed(SlowWrite(len)) && Current(SlowWrite(len), 1, 2.0 * len)
    ensures CursorAfter(SlowWrite(len), 0, [SETTLED_POLL], 1) == 2
    ensures 1 !in ReturnedBy(SlowWrite(len), 0, [SETTLED_POLL], 1)
  {
    var h, polls := SlowWrite(len), [SETTLED_POLL];
    SlowWritePage(len);
    assert CursorAfter(h, 0, polls, 0) == 0 && ReturnedBy(h, 0, polls, 0) == [];
    assert ReturnedBy(h, 0, polls, 1) == [] + Changes(h, 0, SETTLED_POLL).changes;
  }

  /** The feed loses nothing exactly when transactions are bounded by half of SETTLE_SECS. */
  lemma HalfSettleIsExact(d: real)
    ensures LosesNothing(d) <==> 2.0 * d <= SETTLE_SECS
  {
    hide Changes, Current, WellFormed;
    if 2.0 * d <= SETTLE_SECS {
      forall h: History, start: int, polls: seq<Poll>, t: real, n: int |
        WellFormed(h) && ShorterThan(h, d) &&
        (forall i :: 0 <= i < |polls| ==> ValidPoll(polls[i]) && polls[i].snapshot <= t) &&
        Current(h, n, t) && start < n <= CursorAfter(h, start, polls, |polls|)
        ensures n in ReturnedBy(h, start, polls, |polls|)
      {
        NothingLost(h, d, start, polls, |polls|, t, n);
      }
    } else {
      var half := SETTLE_SECS / 2.0;
      var len := if d > SETTLE_SECS then SETTLE_SECS else (half + d) / 2.0;
      SlowWriteIsLost(len);
      var h, polls := SlowWrite(len), [SETTLED_POLL];
      assert ShorterThan(h, d);
      assert |polls| == 1;
      assert 1 !in ReturnedBy(h, 0, polls, |polls|);
    }
  }
}
