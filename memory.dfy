/** The per-user conversation log of memory.py: an append-only table of
    (id, user_id, role, message, timestamp) rows with an autoincrement id,
    read back as "the last N rows of a user, oldest first" and purged per user.

    The table is kept in id order (insertion order). The source orders the rows
    of a user by `timestamp DESC`, a value with one-second resolution that the
    database fills in; when timestamps never decrease along the insertions, id
    order is one of the orders `ORDER BY timestamp DESC` may produce (see
    ContextAgreesWithTimestamps), but rows with equal timestamps may come back
    in another order from the database. */
module Memory {

  /** One row of the `memory` table. */
  datatype Record = Record(id: nat, userId: string, role: string, message: string, timestamp: int)

  /** One element of what `get_user_context` returns: `{"role": ..., "message": ...}`. */
  datatype Entry = Entry(role: string, message: string)

  /** The default `limit` of `get_user_context`. */
  const DefaultLimit: int := 5

  /** `WHERE user_id = u`, in table (id) order. */
  function UserRecords(rs: seq<Record>, u: string): (r: seq<Record>)
    ensures |r| <= |rs|
    ensures forall i :: 0 <= i < |r| ==> r[i].userId == u && r[i] in rs
  {
    if rs == [] then []
    else
      var last := rs[|rs| - 1];
      UserRecords(rs[..|rs| - 1], u) + (if last.userId == u then [last] else [])
  }

  /** Every row whose user is not `u`, in table order: what `DELETE ... WHERE user_id = u` leaves. */
  function Without(rs: seq<Record>, u: string): (r: seq<Record>)
    ensures |r| <= |rs|
    ensures forall i :: 0 <= i < |r| ==> r[i].userId != u && r[i] in rs
  {
    if rs == [] then []
    else
      var last := rs[|rs| - 1];
      Without(rs[..|rs| - 1], u) + (if last.userId != u then [last] else [])
  }

  function Reverse<T>(s: seq<T>): (r: seq<T>)
    ensures |r| == |s|
  {
    if s == [] then [] else Reverse(s[1..]) + [s[0]]
  }

  /** SQLite's `LIMIT n`: a negative `n` means no limit. */
  function LimitRows<T>(rows: seq<T>, limit: int): (r: seq<T>)
    ensures |r| <= |rows| && r == rows[..|r|]
    ensures limit >= 0 ==> |r| == if limit < |rows| then limit else |rows|
    ensures limit < 0 ==> r == rows
  {
    if limit < 0 || limit >= |rows| then rows else rows[..limit]
  }

  /** How many rows `get_user_context` returns for a user with `n` rows. */
  function ContextSize(n: nat, limit: int): (k: nat)
    ensures k <= n
    ensures 0 <= limit ==> k <= limit
  {
    if limit < 0 || limit >= n then n else limit
  }

  /** The query of `get_user_context`: the user's rows newest first, cut at
      `limit`, then reversed into oldest-first order. */
  function RecentRecords(rs: seq<Record>, u: string, limit: int): seq<Record> {
    Reverse(LimitRows(Reverse(UserRecords(rs, u)), limit))
  }

  function Entries(rs: seq<Record>): (es: seq<Entry>)
    ensures |es| == |rs|
    ensures forall i :: 0 <= i < |rs| ==> es[i] == Entry(rs[i].role, rs[i].message)
  {
    seq(|rs|, i requires 0 <= i < |rs| => Entry(rs[i].role, rs[i].message))
  }

  /** What `get_user_context(u, limit)` returns. */
  function RecentEntries(rs: seq<Record>, u: string, limit: int): seq<Entry> {
    Entries(RecentRecords(rs, u, limit))
  }

  /** The autoincrement ids grow along the table. */
  ghost predicate IdsIncreasing(rs: seq<Record>) {
    forall i, j :: 0 <= i < j < |rs| ==> rs[i].id < rs[j].id
  }

  /** The database clock never ran backwards between two insertions. */
  ghost predicate TimestampsNonDecreasing(rs: seq<Record>) {
    forall i, j :: 0 <= i < j < |rs| ==> rs[i].timestamp <= rs[j].timestamp
  }

  class MemoryStore {
    /** The rows of the `memory` table, in insertion order. */
    var records: seq<Record>
    /** The id the next INSERT receives. */
    var nextId: nat

    ghost predicate Valid()
      reads this
    {
      IdsIncreasing(records) &&
      1 <= nextId &&
      forall i :: 0 <= i < |records| ==> 1 <= records[i].id < nextId
    }

    /** `init_db` on a fresh database: an empty table whose first id will be 1. */
    constructor ()
      ensures Valid()
      ensures records == [] && nextId == 1
    {
      records := [];
      nextId := 1;
    }

    /** `append_user_message`: one new row, stamped with the current time `now`;
        every earlier row is kept as it was. */
    method AppendUserMessage(userId: string, role: string, message: string, now: int)
      requires Valid()
      modifies this
      ensures Valid()
      ensures records == old(records) + [Record(old(nextId), userId, role, message, now)]
      ensures nextId == old(nextId) + 1
    {
      records := records + [Record(nextId, userId, role, message, now)];
      nextId := nextId + 1;
    }

    /** `get_user_context`: reads the table and changes nothing. */
    method GetUserContext(userId: string, limit: int) returns (context: seq<Entry>)
      ensures context == RecentEntries(records, userId, limit)
      ensures 0 <= limit ==> |context| <= limit
    {
      ContextIsNewestSuffix(records, userId, limit);
      context := Entries(RecentRecords(records, userId, limit));
    }

    /** `clear_user_memory`: the rows of `userId` go, every other row stays in
        place, and ids are not reused. */
    method ClearUserMemory(userId: string)
      requires Valid()
      modifies this
      ensures Valid()
      ensures records == Without(old(records), userId)
      ensures nextId == old(nextId)
    {
      WithoutIsSubsequence(records, userId);
      records := Without(records, userId);
    }
  }

  lemma {:induction false} ReverseAt<T>(s: seq<T>, i: int)
    requires 0 <= i < |s|
    ensures Reverse(s)[i] == s[|s| - 1 - i]
  {
    if i < |s| - 1 {
      ReverseAt(s[1..], i);
    }
  }

  /** The context of `u` is the last `ContextSize` rows of `u`, oldest first. */
  lemma ContextIsNewestSuffix(rs: seq<Record>, u: string, limit: int)
    ensures var f := UserRecords(rs, u);
            RecentRecords(rs, u, limit) == f[|f| - ContextSize(|f|, limit)..]
  {
    var f := UserRecords(rs, u);
    var k := ContextSize(|f|, limit);
    var newest := LimitRows(Reverse(f), limit);
    assert |newest| == k;
    forall i | 0 <= i < k
      ensures RecentRecords(rs, u, limit)[i] == f[|f| - k..][i]
    {
      ReverseAt(newest, i);
      ReverseAt(f, k - 1 - i);
    }
  }

  /** At most `limit` rows come back (all of them for a negative limit), and
      exactly `limit` when the user has that many. */
  lemma ContextSizeBound(rs: seq<Record>, u: string, limit: int)
    ensures var n := |UserRecords(rs, u)|;
            |RecentEntries(rs, u, limit)| == if 0 <= limit < n then limit else n
  {
    ContextIsNewestSuffix(rs, u, limit);
  }

  /** Only rows of `u` come back; other users' rows never appear. */
  lemma ContextOnlyOwnRows(rs: seq<Record>, u: string, limit: int)
    ensures forall r :: r in RecentRecords(rs, u, limit) ==> r.userId == u && r in rs
  {
    ContextIsNewestSuffix(rs, u, limit);
  }

  /** A user without rows gets an empty context, not an error. */
  lemma ContextOfUnknownUser(rs: seq<Record>, u: string, limit: int)
    requires forall i :: 0 <= i < |rs| ==> rs[i].userId != u
    ensures RecentEntries(rs, u, limit) == []
  {
    NoRowsOfUser(rs, u);
  }

  lemma {:induction false} NoRowsOfUser(rs: seq<Record>, u: string)
    requires forall i :: 0 <= i < |rs| ==> rs[i].userId != u
    ensures UserRecords(rs, u) == []
  {
    if rs != [] {
      NoRowsOfUser(rs[..|rs| - 1], u);
    }
  }

  lemma {:induction false} UserRecordsConcat(a: seq<Record>, b: seq<Record>, u: string)
    ensures UserRecords(a + b, u) == UserRecords(a, u) + UserRecords(b, u)
  {
    if b != [] {
      assert (a + b)[..|a + b| - 1] == a + b[..|b| - 1];
      UserRecordsConcat(a, b[..|b| - 1], u);
    } else {
      assert a + b == a;
    }
  }

  /** `UserRecords` keeps rows in their table order, so any relation that holds
      between every earlier and later row of the table holds within the user's rows. */
  lemma {:induction false} UserRecordsKeepOrder(rs: seq<Record>, u: string, before: (Record, Record) -> bool)
    requires forall i, j :: 0 <= i < j < |rs| ==> before(rs[i], rs[j])
    ensures forall i, j :: 0 <= i < j < |UserRecords(rs, u)| ==>
              before(UserRecords(rs, u)[i], UserRecords(rs, u)[j])
  {
    if rs != [] {
      var init := rs[..|rs| - 1];
      var last := rs[|rs| - 1];
      UserRecordsKeepOrder(init, u, before);
      var f := UserRecords(rs, u);
      var g := UserRecords(init, u);
      assert forall i, j :: 0 <= i < j < |g| ==> before(g[i], g[j]);
      if last.userId != u {
        assert f == g;
      } else {
        forall i | 0 <= i < |g|
          ensures before(g[i], last)
        {
          var p :| 0 <= p < |init| && init[p] == g[i];
          assert rs[p] == init[p];
        }
        assert f == g + [last];
        forall i, j | 0 <= i < j < |f|
          ensures before(f[i], f[j])
        {
          if j < |g| {
            assert f[i] == g[i] && f[j] == g[j];
            assert before(g[i], g[j]);
          } else {
            assert f[j] == last && f[i] == g[i];
          }
        }
      }
    }
  }

  /** With ids growing along the table, the context is in strictly increasing id
      order: oldest first, no row twice. */
  lemma ContextOldestFirst(rs: seq<Record>, u: string, limit: int)
    requires IdsIncreasing(rs)
    ensures IdsIncreasing(RecentRecords(rs, u, limit))
  {
    ContextIsNewestSuffix(rs, u, limit);
    UserRecordsKeepOrder(rs, u, (a: Record, b: Record) => a.id < b.id);
  }

  /** The context holds the newest rows of `u`: every row of `u` left out is
      older (smaller id) than every row returned. */
  lemma ContextIsNewest(rs: seq<Record>, u: string, limit: int)
    requires IdsIncreasing(rs)
    ensures forall r, s :: (r in UserRecords(rs, u) && r !in RecentRecords(rs, u, limit)
              && s in RecentRecords(rs, u, limit)) ==> r.id < s.id
  {
    var f := UserRecords(rs, u);
    ContextIsNewestSuffix(rs, u, limit);
    UserRecordsKeepOrder(rs, u, (a: Record, b: Record) => a.id < b.id);
    var k := ContextSize(|f|, limit);
    forall r, s | r in f && r !in RecentRecords(rs, u, limit) && s in RecentRecords(rs, u, limit)
      ensures r.id < s.id
    {
      var i :| 0 <= i < |f| && f[i] == r;
      var j :| 0 <= j < k && f[|f| - k..][j] == s;
      if i >= |f| - k {
        assert false;
      }
      assert f[|f| - k + j] == s;
    }
  }

  /** When the database clock never ran backwards, the context is also sorted by
      timestamp and no left-out row of `u` is newer than a returned one: the id
      order is an order `ORDER BY timestamp DESC LIMIT n` may produce. */
  lemma ContextAgreesWithTimestamps(rs: seq<Record>, u: string, limit: int)
    requires TimestampsNonDecreasing(rs)
    ensures TimestampsNonDecreasing(RecentRecords(rs, u, limit))
    ensures forall r, s :: (r in UserRecords(rs, u) && r !in RecentRecords(rs, u, limit)
              && s in RecentRecords(rs, u, limit)) ==> r.timestamp <= s.timestamp
  {
    var f := UserRecords(rs, u);
    ContextIsNewestSuffix(rs, u, limit);
    UserRecordsKeepOrder(rs, u, (a: Record, b: Record) => a.timestamp <= b.timestamp);
    var k := ContextSize(|f|, limit);
    forall r, s | r in f && r !in RecentRecords(rs, u, limit) && s in RecentRecords(rs, u, limit)
      ensures r.timestamp <= s.timestamp
    {
      var i :| 0 <= i < |f| && f[i] == r;
      var j :| 0 <= j < k && f[|f| - k..][j] == s;
      if i >= |f| - k {
        assert false;
      }
      assert f[|f| - k + j] == s;
    }
  }

  /** After a row for `u` is appended, a non-empty context of `u` ends with it. */
  lemma ContextEndsWithLatest(rs: seq<Record>, r: Record, limit: int)
    requires limit != 0
    ensures var c := RecentEntries(rs + [r], r.userId, limit);
            |c| > 0 && c[|c| - 1] == Entry(r.role, r.message)
  {
    var all := rs + [r];
    assert all[..|all| - 1] == rs;
    var f := UserRecords(all, r.userId);
    assert f[|f| - 1] == r;
    ContextIsNewestSuffix(all, r.userId, limit);
  }

  /** After `k` messages are appended for a user with no history, the context
      of size `k` is exactly those messages in the order they were appended. */
  lemma FreshUserRoundTrip(rs: seq<Record>, added: seq<Record>, u: string)
    requires forall i :: 0 <= i < |rs| ==> rs[i].userId != u
    requires forall i :: 0 <= i < |added| ==> added[i].userId == u
    ensures RecentEntries(rs + added, u, |added|) == Entries(added)
  {
    NoRowsOfUser(rs, u);
    UserRecordsConcat(rs, added, u);
    AllOfUser(added, u);
    ContextIsNewestSuffix(rs + added, u, |added|);
  }

  lemma {:induction false} AllOfUser(rs: seq<Record>, u: string)
    requires forall i :: 0 <= i < |rs| ==> rs[i].userId == u
    ensures UserRecords(rs, u) == rs
  {
    if rs != [] {
      AllOfUser(rs[..|rs| - 1], u);
    }
  }

  /** Purging `u` leaves no row of `u`, and every other user's rows are exactly
      what they were, in the same order. */
  lemma {:induction false} ClearOnlyTouchesUser(rs: seq<Record>, u: string, v: string)
    ensures UserRecords(Without(rs, u), u) == []
    ensures v != u ==> UserRecords(Without(rs, u), v) == UserRecords(rs, v)
  {
    if rs != [] {
      var init := rs[..|rs| - 1];
      var last := rs[|rs| - 1];
      ClearOnlyTouchesUser(init, u, v);
      var tail := if last.userId != u then [last] else [];
      UserRecordsConcat(Without(init, u), tail, u);
      UserRecordsConcat(Without(init, u), tail, v);
    }
  }

  /** Purging twice is purging once. */
  lemma {:induction false} ClearIdempotent(rs: seq<Record>, u: string)
    ensures Without(Without(rs, u), u) == Without(rs, u)
  {
    if rs != [] {
      var init := rs[..|rs| - 1];
      var last := rs[|rs| - 1];
      ClearIdempotent(init, u);
      var w := Without(rs, u);
      if last.userId != u {
        assert w[..|w| - 1] == Without(init, u);
      } else {
        assert w == Without(init, u);
      }
    }
  }

  /** After a purge the user's context is empty. */
  lemma ContextAfterClear(rs: seq<Record>, u: string, limit: int)
    ensures RecentEntries(Without(rs, u), u, limit) == []
  {
    ClearOnlyTouchesUser(rs, u, u);
  }

  /** `Without` keeps rows in their relative order, so it keeps ids increasing. */
  lemma {:induction false} WithoutIsSubsequence(rs: seq<Record>, u: string)
    requires IdsIncreasing(rs)
    ensures IdsIncreasing(Without(rs, u))
  {
    if rs != [] {
      var init := rs[..|rs| - 1];
      WithoutIsSubsequence(init, u);
      var w := Without(rs, u);
      var last := rs[|rs| - 1];
      if last.userId != u {
        forall i | 0 <= i < |w| - 1
          ensures w[i].id < last.id
        {
          assert w[i] in init;
        }
      }
    }
  }
}
