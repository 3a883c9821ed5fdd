/** The weekly payout report of `get_weekly_earnings`: the unpaid earnings
    rows of one week, grouped by creator into a total and a row count. */
module Payouts {
  import opened Wrappers
  import opened Errors
  import opened Models

  /** The report's filter: the week that starts on `weekStart` and ends six
      days later, not yet paid out. */
  predicate InWeek(e: Earnings, weekStart: Day) {
    e.weekStart == weekStart && e.weekEnd == weekStart + 6 && !e.paidOut
  }

  /** The earnings query, in table order. */
  function WeekRows(es: seq<Earnings>, weekStart: Day): (r: seq<Earnings>)
    ensures forall e :: e in r <==> e in es && InWeek(e, weekStart)
    ensures forall e :: multiset(r)[e] == if InWeek(e, weekStart) then multiset(es)[e] else 0
    decreases |es|
  {
    if es == [] then []
    else
      var front := WeekRows(es[..|es| - 1], weekStart);
      var e := es[|es| - 1];
      assert es == es[..|es| - 1] + [e];
      assert multiset(es) == multiset(es[..|es| - 1]) + multiset{e};
      if InWeek(e, weekStart) then
        assert multiset(front + [e]) == multiset(front) + multiset{e};
        front + [e]
      else front
  }

  /** `creator_name or username`: an absent or empty display name falls back to the username. */
  function DisplayName(u: User): (name: string) {
    if u.creatorName.Some? && u.creatorName.value != "" then u.creatorName.value else u.username
  }

  /** `earning.creator`: user ids are assigned 1, 2, ... in table order. */
  function UserById(users: seq<User>, id: int): (u: Option<User>) {
    if 1 <= id <= |users| then Some(users[id - 1]) else None
  }

  /** One entry of the report. */
  datatype CreatorEarnings = CreatorEarnings(
    creatorName: string,
    phoneNumber: Option<string>,
    totalAmount: Money,
    contentCount: nat)

  function TotalFor(rows: seq<Earnings>, creatorId: int): (total: Money)
    decreases |rows|
  {
    if rows == [] then 0
    else TotalFor(rows[..|rows| - 1], creatorId)
         + (if rows[|rows| - 1].creatorId == creatorId then rows[|rows| - 1].amount else 0)
  }

  function CountFor(rows: seq<Earnings>, creatorId: int): (count: nat)
    decreases |rows|
  {
    if rows == [] then 0
    else CountFor(rows[..|rows| - 1], creatorId) + (if rows[|rows| - 1].creatorId == creatorId then 1 else 0)
  }

  predicate OwnsRow(rows: seq<Earnings>, creatorId: int) {
    exists k :: 0 <= k < |rows| && rows[k].creatorId == creatorId
  }

  /** A creator owns a row exactly when their row count is positive. */
  lemma {:induction false} CountForPositive(rows: seq<Earnings>, creatorId: int)
    ensures CountFor(rows, creatorId) > 0 <==> OwnsRow(rows, creatorId)
  {
    if rows != [] {
      var front := rows[..|rows| - 1];
      CountForPositive(front, creatorId);
      if OwnsRow(front, creatorId) {
        var k :| 0 <= k < |front| && front[k].creatorId == creatorId;
        assert rows[k] == front[k];
      }
      if OwnsRow(rows, creatorId) {
        var k :| 0 <= k < |rows| && rows[k].creatorId == creatorId;
        if k < |rows| - 1 {
          assert front[k] == rows[k];
        }
      }
    }
  }

  /** The report entry for creator `c` over `rows`. */
  predicate IsEntry(users: seq<User>, rows: seq<Earnings>, c: int, v: CreatorEarnings) {
    && UserById(users, c).Some?
    && v.creatorName == DisplayName(UserById(users, c).value)
    && v.phoneNumber == UserById(users, c).value.phoneNumber
    && v.totalAmount == TotalFor(rows, c)
    && v.contentCount == CountFor(rows, c)
  }

  /** The accumulator holds exactly the report for the rows seen so far. */
  ghost predicate Grouped(users: seq<User>, seen: seq<Earnings>, acc: map<int, CreatorEarnings>) {
    && (forall c :: c in acc <==> OwnsRow(seen, c))
    && (forall c :: c in acc ==> IsEntry(users, seen, c, acc[c]))
  }

  /** The grouping loop. It fails, as attribute access on a missing creator
      does, when some row's creator is not a user. */
  method GroupByCreator(rows: seq<Earnings>, users: seq<User>)
    returns (r: Result<map<int, CreatorEarnings>, Error>)
    ensures r.Err? <==> exists k :: 0 <= k < |rows| && UserById(users, rows[k].creatorId).None?
    ensures r.Err? ==> r.error == MissingCreator
    ensures r.Ok? ==> forall c :: c in r.value <==> OwnsRow(rows, c)
    ensures r.Ok? ==> forall c :: c in r.value ==> IsEntry(users, rows, c, r.value[c])
  {
    var acc: map<int, CreatorEarnings> := map[];
    var i := 0;
    while i < |rows|
      invariant 0 <= i <= |rows|
      invariant forall k :: 0 <= k < i ==> UserById(users, rows[k].creatorId).Some?
      invariant Grouped(users, rows[..i], acc)
    {
      var e := rows[i];
      var c := e.creatorId;
      var entry: CreatorEarnings;
      if c in acc {
        entry := acc[c];
      } else {
        var creator := UserById(users, c);
        if creator.None? {
          return Err(MissingCreator);
        }
        CountForPositive(rows[..i], c);
        TotalZero(rows[..i], c);
        entry := CreatorEarnings(DisplayName(creator.value), creator.value.phoneNumber, 0, 0);
      }
      GroupStep(users, rows, i, acc, entry);
      acc := acc[c := entry.(totalAmount := entry.totalAmount + e.amount,
                             contentCount := entry.contentCount + 1)];
      i := i + 1;
    }
    assert rows[..i] == rows;
    r := Ok(acc);
  }

  /** One loop step: row `i` is added to its creator's entry `v`. */
  lemma GroupStep(users: seq<User>, rows: seq<Earnings>, i: nat, acc: map<int, CreatorEarnings>, v: CreatorEarnings)
    requires i < |rows| && Grouped(users, rows[..i], acc)
    requires IsEntry(users, rows[..i], rows[i].creatorId, v)
    ensures Grouped(users, rows[..i + 1],
                    acc[rows[i].creatorId := v.(totalAmount := v.totalAmount + rows[i].amount,
                                                 contentCount := v.contentCount + 1)])
  {
    PrefixStep(rows, i);
  }

  /** Extending the prefix by row `i` adds that row to its creator's entry and nothing else. */
  lemma PrefixStep(rows: seq<Earnings>, i: nat)
    requires i < |rows|
    ensures forall d :: OwnsRow(rows[..i + 1], d) <==> OwnsRow(rows[..i], d) || d == rows[i].creatorId
    ensures forall d :: TotalFor(rows[..i + 1], d)
                     == TotalFor(rows[..i], d) + (if d == rows[i].creatorId then rows[i].amount else 0)
    ensures forall d :: CountFor(rows[..i + 1], d)
                     == CountFor(rows[..i], d) + (if d == rows[i].creatorId then 1 else 0)
  {
    assert rows[..i + 1][..i] == rows[..i];
    forall d ensures OwnsRow(rows[..i + 1], d) <==> OwnsRow(rows[..i], d) || d == rows[i].creatorId {
      if OwnsRow(rows[..i + 1], d) && d != rows[i].creatorId {
        var k :| 0 <= k < i + 1 && rows[..i + 1][k].creatorId == d;
        assert rows[..i][k] == rows[k];
      }
      if OwnsRow(rows[..i], d) {
        var k :| 0 <= k < i && rows[..i][k].creatorId == d;
        assert rows[..i + 1][k] == rows[k];
      }
      assert rows[..i + 1][i] == rows[i];
    }
  }

  /** A creator with no rows has a zero total. */
  lemma {:induction false} TotalZero(rows: seq<Earnings>, creatorId: int)
    requires CountFor(rows, creatorId) == 0
    ensures TotalFor(rows, creatorId) == 0
  {
    if rows != [] {
      TotalZero(rows[..|rows| - 1], creatorId);
    }
  }

  /** The creators owning a row of the week's query are those owning a
      matching row of the table. */
  lemma WeekRowsOwners(es: seq<Earnings>, weekStart: Day)
    ensures forall c :: OwnsRow(WeekRows(es, weekStart), c)
                    <==> exists e :: e in es && InWeek(e, weekStart) && e.creatorId == c
  {
    var rows := WeekRows(es, weekStart);
    forall c ensures OwnsRow(rows, c) <==> exists e :: e in es && InWeek(e, weekStart) && e.creatorId == c {
      if exists e :: e in es && InWeek(e, weekStart) && e.creatorId == c {
        var e :| e in es && InWeek(e, weekStart) && e.creatorId == c;
        var k :| 0 <= k < |rows| && rows[k] == e;
      }
    }
  }

  /** Some row of the week's query has a missing creator exactly when some
      matching row of the table has. */
  lemma WeekRowsMissingCreator(es: seq<Earnings>, weekStart: Day, users: seq<User>)
    ensures (exists k :: 0 <= k < |WeekRows(es, weekStart)| && UserById(users, WeekRows(es, weekStart)[k].creatorId).None?)
        <==> exists e :: e in es && InWeek(e, weekStart) && UserById(users, e.creatorId).None?
  {
    var rows := WeekRows(es, weekStart);
    if exists e :: e in es && InWeek(e, weekStart) && UserById(users, e.creatorId).None? {
      var e :| e in es && InWeek(e, weekStart) && UserById(users, e.creatorId).None?;
      var k :| 0 <= k < |rows| && rows[k] == e;
    }
  }
}
