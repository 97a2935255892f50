/** Which usage a quota counts, and how much each request adds to it: `get_window_aggregate` of
    src/ttllm/services/usage_service.py, read off the fields of one audit row. */
module UsageCounted {
  import opened Model
  import opened Rules
  import opened UsageWindow
  import opened QuotaMetadata
  import opened QuotaAgreement

  /** A request of this user, on this model if the quota is for one, answered or left early by
      its client, within the last `window` seconds. Instants are in microseconds. */
  predicate IsCounted(row: Row, user: string, model: Option<string>, window: int, now: int) {
    && row.user == user && (model == None || model == Some(row.model))
    && row.status in {200, 499}
    && now - row.createdAt <= window * 1_000_000
  }

  /** What one request adds to each measure. */
  function Used(row: Row, measure: string): real {
    match measure
    case "tokens" => (row.inputTokens + row.outputTokens) as real
    case "cost" => if row.cost.Some? then row.cost.value else 0.0
    case _ => 1.0
  }

  function Earlier(oldest: Option<int>, at: int): int {
    if oldest.Some? && oldest.value < at then oldest.value else at
  }

  lemma {:induction false} RowsInTwoParts(a: seq<Row>, b: seq<Row>, scope: Scope, start: int)
    ensures Contributing(a + b, scope, start) == Contributing(a, scope, start) + Contributing(b, scope, start)
    decreases |a|
  {
    if a == [] {
      assert a + b == b;
    } else {
      assert (a + b)[0] == a[0] && (a + b)[1..] == a[1..] + b;
      RowsInTwoParts(a[1..], b, scope, start);
    }
  }

  lemma {:induction false} TotalInTwoParts(a: seq<Row>, b: seq<Row>, measure: string)
    ensures Total(a + b, measure) == Total(a, measure) + Total(b, measure)
    decreases |a|
  {
    if a == [] {
      assert a + b == b;
    } else {
      assert (a + b)[0] == a[0] && (a + b)[1..] == a[1..] + b;
      TotalInTwoParts(a[1..], b, measure);
    }
  }

  lemma {:induction false} OldestInTwoParts(a: seq<Row>, b: seq<Row>)
    ensures Oldest(a + b)
         == if Oldest(a).None? then Oldest(b) else Some(Earlier(Oldest(b), Oldest(a).value))
    decreases |a|
  {
    if a == [] {
      assert a + b == b;
    } else {
      assert (a + b)[0] == a[0] && (a + b)[1..] == a[1..] + b;
      OldestInTwoParts(a[1..], b);
    }
  }

  lemma OneRowCounts(row: Row, scope: Scope, measure: string, window: int, now: int)
    requires measure in {"cost", "tokens", "requests"}
    ensures var counted := Contributing([row], scope, now - window * SECOND);
            if IsCounted(row, scope.user, scope.model, window, now)
            then
              && counted == [row] && Total(counted, measure) == Used(row, measure)
              && Oldest(counted) == Some(row.createdAt)
            else counted == []
  {
    var none: seq<Row> := [];
    assert [row][1..] == none && Total(none, measure) == 0.0;
  }

  /** One request more, wherever it stands among the rows: if it is counted, what it used is added,
      and the oldest row may be it; if not, nothing changes. */
  lemma OneMoreRequest(before: seq<Row>, row: Row, after: seq<Row>, scope: Scope, measure: string, window: int,
                       now: int)
    requires measure in {"cost", "tokens", "requests"}
    ensures var without := WindowAggregate(before + after, scope, measure, window, now);
            var with := WindowAggregate(before + [row] + after, scope, measure, window, now);
            && without.Some? && with.Some?
            && if IsCounted(row, scope.user, scope.model, window, now)
               then with.value == Aggregate(without.value.value + Used(row, measure),
                                            Some(Earlier(without.value.oldest, row.createdAt)))
               else with == without
  {
    var start := now - window * SECOND;
    var a, b := Contributing(before, scope, start), Contributing(after, scope, start);
    var one := Contributing([row], scope, start);
    OneRowCounts(row, scope, measure, window, now);
    RowsInTwoParts(before, after, scope, start);
    RowsInTwoParts(before + [row], after, scope, start);
    RowsInTwoParts(before, [row], scope, start);
    TotalInTwoParts(a, b, measure);
    TotalInTwoParts(a + one, b, measure);
    TotalInTwoParts(a, one, measure);
    OldestInTwoParts(a, b);
    OldestInTwoParts(a + one, b);
    OldestInTwoParts(a, one);
    assert a + [] == a;
  }

  /** Without requests nothing is used, and other measures than the three do not exist. */
  lemma NoRequests(scope: Scope, measure: string, window: int, now: int)
    ensures WindowAggregate([], scope, measure, window, now)
         == if measure in {"cost", "tokens", "requests"} then Some(Aggregate(0.0, None)) else None
  {
  }

  lemma OtherMeasuresFail(rows: seq<Row>, scope: Scope, measure: string, window: int, now: int)
    ensures WindowAggregate(rows, scope, measure, window, now).None? <==> measure !in {"cost", "tokens", "requests"}
  {
  }

  /** The same requests, but for which of them were left early by their client. */
  predicate SameButLeaving(rows: seq<Row>, others: seq<Row>) {
    && |rows| == |others|
    && forall i :: 0 <= i < |rows| ==>
         rows[i] == others[i] || (rows[i].status in {200, 499} && others[i].status in {200, 499}
                                  && rows[i] == others[i].(status := rows[i].status))
  }

  /** Leaving early does not evade a quota: it makes no difference to any aggregate. */
  lemma {:induction false} LeavingEvadesNothing(rows: seq<Row>, others: seq<Row>, scope: Scope, measure: string,
                                                window: int, now: int)
    requires SameButLeaving(rows, others)
    ensures WindowAggregate(rows, scope, measure, window, now) == WindowAggregate(others, scope, measure, window, now)
    decreases |rows|
  {
    if rows != [] && measure in {"cost", "tokens", "requests"} {
      assert rows == [] + [rows[0]] + rows[1..] && others == [] + [others[0]] + others[1..];
      assert [] + rows[1..] == rows[1..] && [] + others[1..] == others[1..];
      LeavingEvadesNothing(rows[1..], others[1..], scope, measure, window, now);
      OneMoreRequest([], rows[0], rows[1..], scope, measure, window, now);
      OneMoreRequest([], others[0], others[1..], scope, measure, window, now);
    }
  }

  /** What a quota condition reads, when no measure is asked about in two ways: the usage of the
      requesting user, on the requested model alone if its scope has "model" and on all of them
      if not, over its own window. */
  lemma ConditionReadsItsScope(rules: seq<Rule>, ctx: Context, past: History, c: Condition)
    requires WellSpecified(rules) && OneKeyPerMeasure(rules, ctx)
    requires c in ConditionsOf(rules) && c.kind.Quota? && c.window.Some?
    ensures var model := if "model" in c.per then Some(ctx.model) else None;
            var usage := WindowAggregate(past.rows, Scope(past.user, model), c.field, c.window.value, past.now);
            && Populated(rules, ctx, past).Some? && usage.Some?
            && c.field in Populated(rules, ctx, past).value.quota
            && var bucket := Populated(rules, ctx, past).value.quota[c.field];
               && bucket.value == usage.value.value
               && bucket.nextFree == NextFree(usage.value.oldest, c.window.value, past.now)
  {
    PrecomputingIsExact(rules, ctx);
    assert IsSpecified(c);
    assert ReadsItsOwn(c, ctx, past, Populated(rules, ctx, past).value);
  }

  /** Whole seconds, towards zero from either side. */
  lemma SecondsAreTruncated(micros: int)
    requires micros >= 0
    ensures 0 <= micros - 1_000_000 * Truncate(micros) < 1_000_000
    ensures Truncate(0 - micros) == 0 - Truncate(micros)
  {
  }
}
