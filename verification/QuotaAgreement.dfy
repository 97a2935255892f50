/** When rules read through the precomputed quota namespace decide as if every quota condition
    ran its own query, and what Retry-After then means. */
module QuotaAgreement {
  import opened Model
  import opened Rules
  import opened UsageWindow
  import opened QuotaMetadata

  /** Every quota condition has a window and a known measure, as ConditionSchema demands. */
  ghost predicate WellSpecified(rules: seq<Rule>) {
    forall c :: c in ConditionsOf(rules) && c.kind.Quota? ==> c.window.Some? && IsMeasure(c.field)
  }

  /** All quota conditions on one measure, in whatever rules, share one window and one scope. */
  ghost predicate OneKeyPerMeasure(rules: seq<Rule>, ctx: Context) {
    forall c, d :: c in ConditionsOf(rules) && d in ConditionsOf(rules) && IsSpecified(c) && IsSpecified(d)
                   && c.field == d.field ==>
      KeyOf(c, ctx) == KeyOf(d, ctx)
  }

  /** The bucket that a quota condition reads is that of its own window and scope. */
  ghost predicate ReadsItsOwn(c: Condition, ctx: Context, past: History, after: Context)
    requires IsSpecified(c) && IsMeasure(c.field)
  {
    && c.field in after.quota
    && var aggregate := QueryFor(KeyOf(c, ctx), past).value;
       && after.quota[c.field].value == aggregate.value
       && after.quota[c.field].nextFree == NextFree(aggregate.oldest, c.window.value, past.now)
  }

  lemma KnownMeasuresPopulate(rules: seq<Rule>, ctx: Context, past: History)
    requires WellSpecified(rules)
    ensures Populated(rules, ctx, past).Some?
  {
    var conditions := ConditionsOf(rules);
    var specs := SpecsOf(conditions, ctx);
    forall i | 0 <= i < |specs| ensures IsMeasure(specs[i].key.measure) {
      var k := ThresholdIsTheFirst(conditions, ctx, i);
      assert conditions[k] in conditions;
    }
    FilledWhenKnown(specs, past, ctx.quota);
  }

  /** What a condition's measure reads as: the bucket of the last condition with a new key. */
  lemma BucketOfSome(rules: seq<Rule>, ctx: Context, past: History, c: Condition) returns (d: Condition)
    requires WellSpecified(rules) && c in ConditionsOf(rules) && IsSpecified(c)
    ensures d in ConditionsOf(rules) && IsSpecified(d) && d.field == c.field
    ensures Populated(rules, ctx, past).Some? && ReadsItsOwn(d, ctx, past, Populated(rules, ctx, past).value)
    ensures forall other :: Populated(rules, ctx, other).Some?
                         && ReadsItsOwn(d, ctx, other, Populated(rules, ctx, other).value)
  {
    var conditions := ConditionsOf(rules);
    var specs := SpecsOf(conditions, ctx);
    SpecsHaveTheKeys(conditions, ctx, KeyOf(c, ctx));
    assert KeyOf(c, ctx) in KeysOf(conditions, ctx);
    var i :| 0 <= i < |specs| && specs[i].key == KeyOf(c, ctx);
    var last := LastExists(specs, c.field, i);
    var k := ThresholdIsTheFirst(conditions, ctx, last);
    d := conditions[k];
    assert d in conditions;
    forall other ensures Populated(rules, ctx, other).Some?
                      && ReadsItsOwn(d, ctx, other, Populated(rules, ctx, other).value)
    {
      KnownMeasuresPopulate(rules, ctx, other);
      LastSpecWins(specs, other, ctx.quota, c.field, last);
    }
  }

  /** Two different keys on one measure can be told apart by the usage of one request. */
  lemma KeysDiffer(a: Key, b: Key, model: string) returns (past: History)
    requires a != b && a.measure == b.measure && IsMeasure(a.measure)
    requires (a.model.None? || a.model == Some(model)) && (b.model.None? || b.model == Some(model))
    ensures QueryFor(a, past).value.value != QueryFor(b, past).value.value
  {
    var window := if a.window > b.window then a.window else b.window;
    var used := if a.window != b.window then model else "x" + model;
    var row := Row("", -(window * SECOND), 200, used, 1, 0, Some(1.0));
    past := History([row], "", 0);
    assert |"x" + model| != |model|;
    assert Weight(row, a.measure) == 1.0;
    OneRow(row, Scope("", a.model), a.measure, -(a.window * SECOND));
    OneRow(row, Scope("", b.model), b.measure, -(b.window * SECOND));
  }

  lemma OneRow(row: Row, scope: Scope, measure: string, start: int)
    ensures Total(Contributing([row], scope, start), measure)
         == if Counts(row, scope, start) then Weight(row, measure) else 0.0
  {
    var none: seq<Row> := [];
    assert [row][1..] == none && Contributing(none, scope, start) == none;
    TotalOfHead(row, none, measure);
  }

  /** Whatever the usage, every quota condition reads its own window, if and only if no measure
      is asked about in two ways. */
  lemma PrecomputingIsExact(rules: seq<Rule>, ctx: Context)
    requires WellSpecified(rules)
    ensures (forall past, c :: c in ConditionsOf(rules) && IsSpecified(c) ==>
               && Populated(rules, ctx, past).Some?
               && ReadsItsOwn(c, ctx, past, Populated(rules, ctx, past).value))
        <==> OneKeyPerMeasure(rules, ctx)
  {
    if OneKeyPerMeasure(rules, ctx) {
      forall past, c | c in ConditionsOf(rules) && IsSpecified(c)
        ensures Populated(rules, ctx, past).Some? && ReadsItsOwn(c, ctx, past, Populated(rules, ctx, past).value)
      {
        var d := BucketOfSome(rules, ctx, past, c);
      }
    } else {
      var c, d :| c in ConditionsOf(rules) && d in ConditionsOf(rules) && IsSpecified(c) && IsSpecified(d)
                  && c.field == d.field && KeyOf(c, ctx) != KeyOf(d, ctx);
      var read := BucketOfSome(rules, ctx, History([], "", 0), c);
      var wrong := if KeyOf(read, ctx) == KeyOf(c, ctx) then d else c;
      var past := KeysDiffer(KeyOf(read, ctx), KeyOf(wrong, ctx), ctx.model);
      assert ReadsItsOwn(read, ctx, past, Populated(rules, ctx, past).value);
      assert !ReadsItsOwn(wrong, ctx, past, Populated(rules, ctx, past).value);
    }
  }

  // --- Rules decided directly ---

  /** A quota condition that runs its own query. */
  ghost predicate DirectCondition(c: Condition, ctx: Context, past: History, py: Python) {
    if IsSpecified(c) && IsMeasure(c.field)
    then Compares(Amount(QueryFor(KeyOf(c, ctx), past).value.value), c.op, c.value, py) != c.negate
    else ConditionHolds(c, ctx, py)
  }

  ghost predicate DirectItem(item: Item, ctx: Context, past: History, py: Python) {
    match item
    case One(c) => DirectCondition(c, ctx, past, py)
    case Nested(g) => DirectGroup(g, ctx, past, py)
  }

  ghost predicate DirectGroup(g: Group, ctx: Context, past: History, py: Python) {
    match g.logic
    case And => forall i :: 0 <= i < |g.items| ==> DirectItem(g.items[i], ctx, past, py)
    case Or => exists i :: 0 <= i < |g.items| && DirectItem(g.items[i], ctx, past, py)
  }

  ghost function FirstDirect(rules: seq<Rule>, ctx: Context, past: History, py: Python): Option<Rule> {
    if rules == [] then None
    else if DirectGroup(rules[0].conditions, ctx, past, py) then Some(rules[0])
    else FirstDirect(rules[1..], ctx, past, py)
  }

  lemma {:induction false} SameGroup(g: Group, ctx: Context, after: Context, past: History, py: Python)
    requires forall c :: c in Leaves(g) ==> ConditionHolds(c, after, py) == DirectCondition(c, ctx, past, py)
    ensures Holds(g, after, py) == DirectGroup(g, ctx, past, py)
  {
    forall i | 0 <= i < |g.items|
      ensures ItemHolds(g.items[i], after, py) == DirectItem(g.items[i], ctx, past, py)
    {
      LeavesOfItem(g, 0, i);
      if g.items[i].Nested? {
        SameGroup(g.items[i].group, ctx, after, past, py);
      }
    }
  }

  lemma {:induction false} LeavesOfRule(rules: seq<Rule>, rule: Rule, c: Condition)
    requires rule in rules && c in Leaves(rule.conditions)
    ensures c in ConditionsOf(rules)
  {
    if rules[0] != rule {
      LeavesOfRule(rules[1..], rule, c);
    }
  }

  lemma {:induction false} SameFirst(rules: seq<Rule>, ctx: Context, after: Context, past: History, py: Python)
    requires forall r :: r in rules ==> Holds(r.conditions, after, py) == DirectGroup(r.conditions, ctx, past, py)
    ensures FirstHolding(rules, after, py) == FirstDirect(rules, ctx, past, py)
  {
    if rules != [] {
      assert rules[0] in rules;
      assert forall r :: r in rules[1..] ==> r in rules;
      SameFirst(rules[1..], ctx, after, past, py);
    }
  }

  lemma {:induction false} EnabledAreRules(rules: seq<Rule>)
    ensures forall r :: r in EnabledOf(rules) ==> r in rules
  {
    if rules != [] {
      EnabledAreRules(rules[1..]);
    }
  }

  lemma SameCondition(c: Condition, ctx: Context, after: Context, past: History, py: Python)
    requires c.kind.Quota? ==> IsSpecified(c) && IsMeasure(c.field) && ReadsItsOwn(c, ctx, past, after)
    requires after == ctx.(quota := after.quota)
    ensures ConditionHolds(c, after, py) == DirectCondition(c, ctx, past, py)
  {
  }

  lemma SameRule(rules: seq<Rule>, r: Rule, ctx: Context, past: History, py: Python)
    requires WellSpecified(rules) && OneKeyPerMeasure(rules, ctx) && r in rules
    ensures Populated(rules, ctx, past).Some?
    ensures Holds(r.conditions, Populated(rules, ctx, past).value, py) == DirectGroup(r.conditions, ctx, past, py)
  {
    KnownMeasuresPopulate(rules, ctx, past);
    PrecomputingIsExact(rules, ctx);
    var after := Populated(rules, ctx, past).value;
    forall c | c in Leaves(r.conditions)
      ensures ConditionHolds(c, after, py) == DirectCondition(c, ctx, past, py)
    {
      LeavesOfRule(rules, r, c);
      SameCondition(c, ctx, after, past, py);
    }
    SameGroup(r.conditions, ctx, after, past, py);
  }

  /** Under that condition the rules decide as if each quota condition ran its own query. */
  lemma PrecomputingRefinesDirectEvaluation(rules: seq<Rule>, ctx: Context, past: History, py: Python)
    requires WellSpecified(rules) && OneKeyPerMeasure(rules, ctx)
    ensures Populated(rules, ctx, past).Some?
    ensures FirstHolding(ByWeight(EnabledOf(rules)), Populated(rules, ctx, past).value, py)
         == FirstDirect(ByWeight(EnabledOf(rules)), ctx, past, py)
  {
    KnownMeasuresPopulate(rules, ctx, past);
    var after := Populated(rules, ctx, past).value;
    var sorted := ByWeight(EnabledOf(rules));
    ByWeightSorts(EnabledOf(rules));
    EnabledAreRules(rules);
    forall r | r in sorted ensures Holds(r.conditions, after, py) == DirectGroup(r.conditions, ctx, past, py) {
      assert r in multiset(sorted);
      SameRule(rules, r, ctx, past, py);
    }
    SameFirst(sorted, ctx, after, past, py);
  }

  // --- Retry-After ---

  /** The largest next_free among quota conditions, as `_retry_after_for_rule` takes it. */
  function LongestWait(conditions: seq<Condition>, ctx: Context): Option<nat> {
    if conditions == [] then None
    else
      var rest := LongestWait(conditions[1..], ctx);
      var c := conditions[0];
      if !c.kind.Quota? || c.field !in ctx.quota then rest
      else if rest.Some? && rest.value > ctx.quota[c.field].nextFree then rest
      else Some(ctx.quota[c.field].nextFree)
  }

  function RetryAfter(rule: Rule, ctx: Context): Option<nat> {
    LongestWait(Leaves(rule.conditions), ctx)
  }

  lemma {:induction false} LongestWaitIsMaximum(conditions: seq<Condition>, ctx: Context)
    ensures LongestWait(conditions, ctx).Some? ==>
              exists c :: c in conditions && c.kind.Quota? && c.field in ctx.quota
                       && ctx.quota[c.field].nextFree == LongestWait(conditions, ctx).value
    ensures forall c :: c in conditions && c.kind.Quota? && c.field in ctx.quota ==>
              LongestWait(conditions, ctx).Some? && ctx.quota[c.field].nextFree <= LongestWait(conditions, ctx).value
  {
    if conditions != [] {
      LongestWaitIsMaximum(conditions[1..], ctx);
      assert forall c :: c in conditions <==> c == conditions[0] || c in conditions[1..];
    }
  }

  /** A rule with a quota condition, however deep in its groups, has a Retry-After, the longest
      next_free of these conditions; one without has none. */
  lemma RetryAfterIsTheLongest(rule: Rule, ctx: Context)
    ensures RetryAfter(rule, ctx).Some? <==>
              exists c :: c in Leaves(rule.conditions) && c.kind.Quota? && c.field in ctx.quota
    ensures forall c :: c in Leaves(rule.conditions) && c.kind.Quota? && c.field in ctx.quota ==>
              ctx.quota[c.field].nextFree <= RetryAfter(rule, ctx).GetOr(0)
    ensures RetryAfter(rule, ctx).Some? ==>
              exists c :: c in Leaves(rule.conditions) && c.kind.Quota? && c.field in ctx.quota
                       && ctx.quota[c.field].nextFree == RetryAfter(rule, ctx).value
  {
    LongestWaitIsMaximum(Leaves(rule.conditions), ctx);
  }

  /** What a quota condition sees at a later instant, if no usage is added. */
  function SeenAt(c: Condition, ctx: Context, past: History, later: int): Option<Aggregate>
    requires IsSpecified(c)
  {
    QueryFor(KeyOf(c, ctx), past.(now := later))
  }

  ghost predicate SameUntil(c: Condition, ctx: Context, past: History, until: int)
    requires IsSpecified(c)
  {
    forall later :: past.now <= later <= until ==> SeenAt(c, ctx, past, later) == SeenAt(c, ctx, past, past.now)
  }

  /** By then the oldest row that this condition counts has left its window. */
  ghost predicate FreedBy(c: Condition, ctx: Context, past: History, later: int)
    requires IsSpecified(c) && IsMeasure(c.field)
  {
    var before, after := SeenAt(c, ctx, past, past.now).value.oldest, SeenAt(c, ctx, past, later).value.oldest;
    before.Some? && after.Some? ==> before.value < after.value
  }

  /** Retry-After is honest: some quota condition of the rule sees no change at all for that
      long, and one second later every one of them has let its oldest row go. */
  lemma RetryAfterIsHonest(rules: seq<Rule>, rule: Rule, ctx: Context, past: History)
    requires WellSpecified(rules) && OneKeyPerMeasure(rules, ctx) && rule in rules
    requires Populated(rules, ctx, past).Some? && RetryAfter(rule, Populated(rules, ctx, past).value).Some?
    ensures var wait := RetryAfter(rule, Populated(rules, ctx, past).value).value;
            && (exists c :: c in Leaves(rule.conditions) && IsSpecified(c)
                         && SameUntil(c, ctx, past, past.now + wait * SECOND))
            && (forall c, later ::
                  (c in Leaves(rule.conditions) && IsSpecified(c) && IsMeasure(c.field)
                   && later >= past.now + (wait + 1) * SECOND) ==> FreedBy(c, ctx, past, later))
  {
    var after := Populated(rules, ctx, past).value;
    var wait := RetryAfter(rule, after).value;
    LongestWaitIsMaximum(Leaves(rule.conditions), after);
    PrecomputingIsExact(rules, ctx);
    var c :| c in Leaves(rule.conditions) && c.kind.Quota? && c.field in after.quota
             && after.quota[c.field].nextFree == wait;
    LeavesOfRule(rules, rule, c);
    assert ReadsItsOwn(c, ctx, past, after);
    forall later | past.now <= later <= past.now + wait * SECOND
      ensures SeenAt(c, ctx, past, later) == SeenAt(c, ctx, past, past.now)
    {
      NothingFreesEarly(past.rows, Scope(past.user, KeyOf(c, ctx).model), c.field, c.window.value, past.now, later);
    }
    assert SameUntil(c, ctx, past, past.now + wait * SECOND);
    forall d, later | d in Leaves(rule.conditions) && IsSpecified(d) && IsMeasure(d.field)
                      && later >= past.now + (wait + 1) * SECOND
      ensures FreedBy(d, ctx, past, later)
    {
      LeavesOfRule(rules, rule, d);
      assert ReadsItsOwn(d, ctx, past, after);
      FreedInTime(d, ctx, past, after.quota[d.field].nextFree, later);
    }
  }

  lemma FreedInTime(c: Condition, ctx: Context, past: History, free: nat, later: int)
    requires IsSpecified(c) && IsMeasure(c.field)
    requires free == NextFree(SeenAt(c, ctx, past, past.now).value.oldest, c.window.value, past.now)
    requires later >= past.now + (free + 1) * SECOND
    ensures FreedBy(c, ctx, past, later)
  {
    var scope := Scope(past.user, KeyOf(c, ctx).model);
    var start := later - c.window.value * SECOND;
    if SeenAt(c, ctx, past, past.now).value.oldest.Some? {
      OldestIsGoneAfter(past.rows, scope, c.field, c.window.value, past.now, later);
      OldestThatCounts(past.rows, scope, start);
      ContributingCounts(past.rows, scope, start);
    }
  }
}
