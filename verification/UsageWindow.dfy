/** Moving-window usage: `get_window_aggregate` of src/ttllm/services/usage_service.py and
    `_next_free` of src/ttllm/services/rules_service.py. Instants are in microseconds, the
    resolution of both Python and the database; windows are in seconds. */
module UsageWindow {
  import opened Model

  const SECOND := 1_000_000

  /** What a quota reads of an audit row. A cost that is NULL or the empty string is None. */
  datatype Row = Row(
    user: string,
    createdAt: int,
    status: int,
    model: string,
    inputTokens: nat,
    outputTokens: nat,
    cost: Option<real>)

  datatype Aggregate = Aggregate(value: real, oldest: Option<int>)

  /** Whose usage: one user's, optionally on one model. */
  datatype Scope = Scope(user: string, model: Option<string>)

  predicate Counts(row: Row, scope: Scope, start: int) {
    && row.user == scope.user
    && row.createdAt >= start
    && (row.status == 200 || row.status == 499)
    && (scope.model.Some? ==> row.model == scope.model.value)
  }

  /** The WHERE clause. */
  function Contributing(rows: seq<Row>, scope: Scope, start: int): seq<Row> {
    if rows == [] then []
    else (if Counts(rows[0], scope, start) then [rows[0]] else []) + Contributing(rows[1..], scope, start)
  }

  predicate IsMeasure(measure: string) {
    measure == "cost" || measure == "tokens" || measure == "requests"
  }

  function Weight(row: Row, measure: string): real {
    if measure == "cost" then row.cost.GetOr(0.0)
    else if measure == "tokens" then (row.inputTokens + row.outputTokens) as real
    else 1.0
  }

  function Total(rows: seq<Row>, measure: string): real {
    if rows == [] then 0.0 else Weight(rows[0], measure) + Total(rows[1..], measure)
  }

  /** MIN(created_at) */
  function Oldest(rows: seq<Row>): Option<int> {
    if rows == [] then None
    else
      match Oldest(rows[1..])
      case None => Some(rows[0].createdAt)
      case Some(t) => Some(if rows[0].createdAt < t then rows[0].createdAt else t)
  }

  /** `get_window_aggregate`; None for the ValueError of an unknown measure. */
  function WindowAggregate(rows: seq<Row>, scope: Scope, measure: string, window: int, now: int): Option<Aggregate> {
    if !IsMeasure(measure) then None
    else
      var counted := Contributing(rows, scope, now - window * SECOND);
      Some(Aggregate(Total(counted, measure), Oldest(counted)))
  }

  /** Python's int(): towards zero. */
  function Truncate(micros: int): int {
    if micros >= 0 then micros / SECOND else -(-micros / SECOND)
  }

  function NextFree(oldest: Option<int>, window: int, now: int): nat {
    match oldest
    case None => 0
    case Some(t) =>
      var seconds := Truncate(t + window * SECOND - now);
      if seconds < 0 then 0 else seconds
  }

  // --- Time passing ---

  lemma {:induction false} OldestBounds(rows: seq<Row>)
    ensures Oldest(rows).None? <==> rows == []
    ensures Oldest(rows).Some? ==> exists i :: 0 <= i < |rows| && rows[i].createdAt == Oldest(rows).value
    ensures forall i :: 0 <= i < |rows| ==> Oldest(rows).value <= rows[i].createdAt
  {
    if rows != [] {
      var rest := rows[1..];
      OldestBounds(rest);
      assert forall i :: 0 < i < |rows| ==> rows[i] == rest[i - 1];
      if rest != [] {
        var j :| 0 <= j < |rest| && rest[j].createdAt == Oldest(rest).value;
        assert rows[j + 1].createdAt == Oldest(rest).value;
      }
      assert rows[0].createdAt == rows[0].createdAt;
    }
  }

  lemma {:induction false} ContributingCounts(rows: seq<Row>, scope: Scope, start: int)
    ensures forall r :: r in Contributing(rows, scope, start) <==> r in rows && Counts(r, scope, start)
  {
    if rows != [] {
      ContributingCounts(rows[1..], scope, start);
      assert forall r :: r in rows <==> r == rows[0] || r in rows[1..];
    }
  }

  /** The oldest row that counts, and no row that counts is older. */
  lemma OldestThatCounts(rows: seq<Row>, scope: Scope, start: int)
    ensures var oldest := Oldest(Contributing(rows, scope, start));
            && (oldest.Some? ==> oldest.value >= start)
            && (oldest.Some? ==> exists r :: r in rows && Counts(r, scope, start) && r.createdAt == oldest.value)
            && (forall r :: r in rows && Counts(r, scope, start) ==> oldest.Some? && oldest.value <= r.createdAt)
  {
    var counted := Contributing(rows, scope, start);
    OldestBounds(counted);
    ContributingCounts(rows, scope, start);
    if counted != [] {
      var i :| 0 <= i < |counted| && counted[i].createdAt == Oldest(counted).value;
      assert counted[i] in counted;
    }
    forall r | r in rows && Counts(r, scope, start)
      ensures Oldest(counted).Some? && Oldest(counted).value <= r.createdAt
    {
      assert r in counted;
    }
  }

  predicate NoNegativeCosts(rows: seq<Row>) {
    forall r :: r in rows && r.cost.Some? ==> r.cost.value >= 0.0
  }

  lemma {:induction false} LaterCountsLess(rows: seq<Row>, scope: Scope, measure: string, start: int, later: int)
    requires start <= later && NoNegativeCosts(rows)
    ensures 0.0 <= Total(Contributing(rows, scope, later), measure) <= Total(Contributing(rows, scope, start), measure)
  {
    if rows != [] {
      var rest := rows[1..];
      LaterCountsLess(rest, scope, measure, start, later);
      assert Weight(rows[0], measure) >= 0.0 by {
        assert rows[0] in rows;
      }
      TotalOfHead(rows[0], Contributing(rest, scope, start), measure);
      TotalOfHead(rows[0], Contributing(rest, scope, later), measure);
    }
  }

  lemma TotalOfHead(row: Row, rest: seq<Row>, measure: string)
    ensures Total([row] + rest, measure) == Weight(row, measure) + Total(rest, measure)
    ensures [] + rest == rest
  {
    assert ([row] + rest)[1..] == rest;
  }

  /** With no new rows, what a window adds up to never grows. */
  lemma AggregateNeverGrows(rows: seq<Row>, scope: Scope, measure: string, window: int, now: int, later: int)
    requires IsMeasure(measure) && now <= later && NoNegativeCosts(rows)
    ensures 0.0 <= WindowAggregate(rows, scope, measure, window, later).value.value
         <= WindowAggregate(rows, scope, measure, window, now).value.value
  {
    LaterCountsLess(rows, scope, measure, now - window * SECOND, later - window * SECOND);
  }

  /** The instant up to which the oldest row counts lies within the last second of
      next_free. */
  lemma NextFreeIsTight(oldest: int, window: int, now: int)
    requires now <= oldest + window * SECOND
    ensures var free := NextFree(Some(oldest), window, now);
            now + free * SECOND <= oldest + window * SECOND < now + (free + 1) * SECOND
  {
  }

  /** Between nothing and the whole window, for rows not dated after now. */
  lemma NextFreeBounds(rows: seq<Row>, scope: Scope, measure: string, window: int, now: int)
    requires IsMeasure(measure) && window >= 0
    requires forall r :: r in rows ==> r.createdAt <= now
    ensures 0 <= NextFree(WindowAggregate(rows, scope, measure, window, now).value.oldest, window, now) <= window
  {
    OldestThatCounts(rows, scope, now - window * SECOND);
  }

  lemma {:induction false} SameRowsCount(rows: seq<Row>, scope: Scope, start: int, later: int)
    requires start <= later
    requires forall r :: r in rows && Counts(r, scope, start) ==> r.createdAt >= later
    ensures Contributing(rows, scope, later) == Contributing(rows, scope, start)
  {
    if rows != [] {
      assert forall r :: r in rows[1..] ==> r in rows;
      SameRowsCount(rows[1..], scope, start, later);
      assert rows[0] in rows;
    }
  }

  /** Waiting up to next_free seconds changes nothing: the same rows still count. */
  lemma NothingFreesEarly(rows: seq<Row>, scope: Scope, measure: string, window: int, now: int, later: int)
    requires IsMeasure(measure)
    requires now <= later
          <= now + NextFree(WindowAggregate(rows, scope, measure, window, now).value.oldest, window, now) * SECOND
    ensures WindowAggregate(rows, scope, measure, window, later) == WindowAggregate(rows, scope, measure, window, now)
  {
    var start := now - window * SECOND;
    var oldest := Oldest(Contributing(rows, scope, start));
    OldestThatCounts(rows, scope, start);
    if oldest.Some? {
      NextFreeIsTight(oldest.value, window, now);
    }
    SameRowsCount(rows, scope, start, later - window * SECOND);
  }

  /** One second more and the oldest row is gone: only rows newer than it count, so there are
      fewer of them. */
  lemma OldestIsGoneAfter(rows: seq<Row>, scope: Scope, measure: string, window: int, now: int, later: int)
    requires IsMeasure(measure)
    requires WindowAggregate(rows, scope, measure, window, now).value.oldest.Some?
    requires later
          >= now + (NextFree(WindowAggregate(rows, scope, measure, window, now).value.oldest, window, now) + 1) * SECOND
    ensures forall r :: r in Contributing(rows, scope, later - window * SECOND) ==>
              r.createdAt > WindowAggregate(rows, scope, measure, window, now).value.oldest.value
    ensures |Contributing(rows, scope, later - window * SECOND)| < |Contributing(rows, scope, now - window * SECOND)|
  {
    var start := now - window * SECOND;
    OldestThatCounts(rows, scope, start);
    ContributingCounts(rows, scope, later - window * SECOND);
    var oldest := Oldest(Contributing(rows, scope, start)).value;
    NextFreeIsTight(oldest, window, now);
    var gone :| gone in rows && Counts(gone, scope, start) && gone.createdAt == oldest;
    FewerCount(rows, scope, start, later - window * SECOND, gone);
  }

  lemma {:induction false} FewerCount(rows: seq<Row>, scope: Scope, start: int, later: int, gone: Row)
    requires start <= later
    ensures |Contributing(rows, scope, later)| <= |Contributing(rows, scope, start)|
    ensures gone in rows && Counts(gone, scope, start) && gone.createdAt < later ==>
              |Contributing(rows, scope, later)| < |Contributing(rows, scope, start)|
  {
    if rows != [] {
      FewerCount(rows[1..], scope, start, later, gone);
      assert gone in rows ==> gone == rows[0] || gone in rows[1..];
    }
  }
}
