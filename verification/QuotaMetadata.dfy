/** Quota aggregates computed before the rules are evaluated: `populate_quota_metadata` of
    src/ttllm/services/rules_service.py. */
module QuotaMetadata {
  import opened Model
  import opened Rules
  import opened UsageWindow

  /** What the usage queries see: the audit rows, the user and the clock. */
  datatype History = History(rows: seq<Row>, user: string, now: int)

  /** What one aggregate query is about. */
  datatype Key = Key(measure: string, window: int, model: Option<string>)

  datatype Spec = Spec(key: Key, threshold: Json)

  predicate IsSpecified(c: Condition) {
    c.kind.Quota? && c.window.Some?
  }

  function KeyOf(c: Condition, ctx: Context): Key
    requires IsSpecified(c)
  {
    Key(c.field, c.window.value, if "model" in c.per then Some(ctx.model) else None)
  }

  function ConditionsOf(rules: seq<Rule>): seq<Condition> {
    if rules == [] then [] else Leaves(rules[0].conditions) + ConditionsOf(rules[1..])
  }

  // --- The specs ---

  predicate HasKey(specs: seq<Spec>, key: Key) {
    exists i :: 0 <= i < |specs| && specs[i].key == key
  }

  /** `specs.setdefault(key, ...)`, in a dict that keeps the order of insertion. */
  function AddSpec(specs: seq<Spec>, c: Condition, ctx: Context): seq<Spec> {
    if !IsSpecified(c) || HasKey(specs, KeyOf(c, ctx)) then specs
    else specs + [Spec(KeyOf(c, ctx), c.value)]
  }

  function SpecsOf(conditions: seq<Condition>, ctx: Context): seq<Spec>
    decreases |conditions|
  {
    if conditions == [] then []
    else AddSpec(SpecsOf(conditions[..|conditions| - 1], ctx), conditions[|conditions| - 1], ctx)
  }

  function KeysOf(conditions: seq<Condition>, ctx: Context): set<Key> {
    set c | c in conditions && IsSpecified(c) :: KeyOf(c, ctx)
  }

  lemma KeysOfLonger(init: seq<Condition>, c: Condition, ctx: Context)
    ensures KeysOf(init + [c], ctx) == KeysOf(init, ctx) + if IsSpecified(c) then {KeyOf(c, ctx)} else {}
  {
  }

  lemma HasKeyOfLonger(specs: seq<Spec>, spec: Spec, key: Key)
    ensures HasKey(specs + [spec], key) <==> HasKey(specs, key) || spec.key == key
  {
    var longer := specs + [spec];
    assert longer[|specs|] == spec;
    forall i | 0 <= i < |specs| ensures longer[i] == specs[i] {
    }
  }

  lemma {:induction false} SpecsHaveTheKeys(conditions: seq<Condition>, ctx: Context, key: Key)
    ensures HasKey(SpecsOf(conditions, ctx), key) <==> key in KeysOf(conditions, ctx)
    decreases |conditions|
  {
    if conditions != [] {
      var init, c := conditions[..|conditions| - 1], conditions[|conditions| - 1];
      assert conditions == init + [c];
      SpecsHaveTheKeys(init, ctx, key);
      KeysOfLonger(init, c, ctx);
      if IsSpecified(c) {
        HasKeyOfLonger(SpecsOf(init, ctx), Spec(KeyOf(c, ctx), c.value), key);
      }
    }
  }

  lemma {:induction false} KeysAreDistinct(conditions: seq<Condition>, ctx: Context)
    ensures forall i, j :: 0 <= i < j < |SpecsOf(conditions, ctx)| ==>
              SpecsOf(conditions, ctx)[i].key != SpecsOf(conditions, ctx)[j].key
    decreases |conditions|
  {
    if conditions != [] {
      var init, c := conditions[..|conditions| - 1], conditions[|conditions| - 1];
      KeysAreDistinct(init, ctx);
      if IsSpecified(c) && !HasKey(SpecsOf(init, ctx), KeyOf(c, ctx)) {
        forall i | 0 <= i < |SpecsOf(init, ctx)| ensures SpecsOf(init, ctx)[i].key != KeyOf(c, ctx) {
        }
      }
    }
  }

  lemma {:induction false} OneSpecForEachKey(conditions: seq<Condition>, ctx: Context)
    ensures |SpecsOf(conditions, ctx)| == |KeysOf(conditions, ctx)|
    decreases |conditions|
  {
    if conditions != [] {
      var init, c := conditions[..|conditions| - 1], conditions[|conditions| - 1];
      assert conditions == init + [c];
      OneSpecForEachKey(init, ctx);
      KeysOfLonger(init, c, ctx);
      if IsSpecified(c) {
        SpecsHaveTheKeys(init, ctx, KeyOf(c, ctx));
        if HasKey(SpecsOf(init, ctx), KeyOf(c, ctx)) {
          assert KeysOf(conditions, ctx) == KeysOf(init, ctx);
        }
      } else {
        assert KeysOf(conditions, ctx) == KeysOf(init, ctx);
      }
    }
  }

  /** No key has two specs, so there are as many queries as distinct keys. */
  lemma OneSpecPerKey(conditions: seq<Condition>, ctx: Context)
    ensures forall i, j :: 0 <= i < j < |SpecsOf(conditions, ctx)| ==>
              SpecsOf(conditions, ctx)[i].key != SpecsOf(conditions, ctx)[j].key
    ensures |SpecsOf(conditions, ctx)| == |KeysOf(conditions, ctx)|
  {
    KeysAreDistinct(conditions, ctx);
    OneSpecForEachKey(conditions, ctx);
  }

  /** A spec's threshold is that of the first condition with its key. */
  ghost predicate FirstWithKey(conditions: seq<Condition>, ctx: Context, spec: Spec, i: nat) {
    && i < |conditions| && IsSpecified(conditions[i])
    && spec == Spec(KeyOf(conditions[i], ctx), conditions[i].value)
    && spec.key !in KeysOf(conditions[..i], ctx)
  }

  lemma {:induction false} ThresholdIsTheFirst(conditions: seq<Condition>, ctx: Context, n: nat) returns (i: nat)
    requires n < |SpecsOf(conditions, ctx)|
    ensures FirstWithKey(conditions, ctx, SpecsOf(conditions, ctx)[n], i)
    decreases |conditions|
  {
    var last := |conditions| - 1;
    var init := conditions[..last];
    if n < |SpecsOf(init, ctx)| {
      i := ThresholdIsTheFirst(init, ctx, n);
      assert init[..i] == conditions[..i];
    } else {
      i := last;
      SpecsHaveTheKeys(init, ctx, KeyOf(conditions[last], ctx));
    }
  }

  // --- The namespace ---

  function QueryFor(key: Key, past: History): Option<Aggregate> {
    WindowAggregate(past.rows, Scope(past.user, key.model), key.measure, key.window, past.now)
  }

  function BucketFor(spec: Spec, past: History): Bucket
    requires IsMeasure(spec.key.measure)
  {
    var aggregate := QueryFor(spec.key, past).value;
    Bucket(aggregate.value, spec.threshold, spec.key.window,
           NextFree(aggregate.oldest, spec.key.window, past.now), spec.key.model)
  }

  /** The namespace after the specs, in order; None once a query raises. */
  function Filled(specs: seq<Spec>, past: History, quota: map<string, Bucket>): Option<map<string, Bucket>>
    decreases |specs|
  {
    if specs == [] then Some(quota)
    else
      var spec := specs[|specs| - 1];
      match Filled(specs[..|specs| - 1], past, quota)
      case None => None
      case Some(before) =>
        if IsMeasure(spec.key.measure) then Some(before[spec.key.measure := BucketFor(spec, past)]) else None
  }

  /** The context that the rules are evaluated in. */
  function Populated(rules: seq<Rule>, ctx: Context, past: History): Option<Context> {
    match Filled(SpecsOf(ConditionsOf(rules), ctx), past, ctx.quota)
    case None => None
    case Some(quota) => Some(ctx.(quota := quota))
  }

  lemma ConditionsFrom(rules: seq<Rule>, i: nat, seen: seq<Condition>)
    requires i < |rules|
    ensures seen + ConditionsOf(rules[i..]) == (seen + Leaves(rules[i].conditions)) + ConditionsOf(rules[i + 1..])
  {
    assert rules[i..][1..] == rules[i + 1..];
  }

  /** The first loop: the specs of all rules. */
  method CollectSpecs(rules: seq<Rule>, ctx: Context) returns (specs: seq<Spec>)
    ensures specs == SpecsOf(ConditionsOf(rules), ctx)
  {
    specs := [];
    var i := 0;
    ghost var seen: seq<Condition> := [];
    while i < |rules|
      invariant 0 <= i <= |rules|
      invariant seen + ConditionsOf(rules[i..]) == ConditionsOf(rules)
      invariant specs == SpecsOf(seen, ctx)
    {
      ConditionsFrom(rules, i, seen);
      specs := CollectFrom(specs, rules[i].conditions, ctx, seen);
      seen := seen + Leaves(rules[i].conditions);
      i := i + 1;
    }
    assert seen == ConditionsOf(rules);
  }

  /** Its inner loop, over the leaves of one rule. */
  method CollectFrom(before: seq<Spec>, group: Group, ctx: Context, ghost seen: seq<Condition>)
    returns (specs: seq<Spec>)
    requires before == SpecsOf(seen, ctx)
    ensures specs == SpecsOf(seen + Leaves(group), ctx)
  {
    specs := before;
    var leaves := Leaves(group);
    assert seen + leaves[..0] == seen;
    var j := 0;
    while j < |leaves|
      invariant 0 <= j <= |leaves|
      invariant specs == SpecsOf(seen + leaves[..j], ctx)
    {
      assert (seen + leaves[..j + 1])[..|seen| + j] == seen + leaves[..j];
      specs := AddSpec(specs, leaves[j], ctx);
      j := j + 1;
    }
    assert leaves[..j] == leaves;
  }

  lemma FilledNext(specs: seq<Spec>, past: History, quota: map<string, Bucket>, n: nat)
    requires n < |specs| && Filled(specs[..n], past, quota).Some?
    ensures QueryFor(specs[n].key, past).Some? <==> IsMeasure(specs[n].key.measure)
    ensures Filled(specs[..n + 1], past, quota)
         == if IsMeasure(specs[n].key.measure)
            then Some(Filled(specs[..n], past, quota).value[specs[n].key.measure := BucketFor(specs[n], past)])
            else None
  {
    assert specs[..n + 1][..n] == specs[..n];
  }

  /** The second loop: one query for each spec. */
  method RunQueries(specs: seq<Spec>, past: History, quota: map<string, Bucket>)
    returns (filled: Option<map<string, Bucket>>, queries: nat)
    ensures filled == Filled(specs, past, quota)
    ensures filled.Some? ==> queries == |specs|
  {
    var buckets := quota;
    queries := 0;
    while queries < |specs|
      invariant 0 <= queries <= |specs|
      invariant Filled(specs[..queries], past, quota) == Some(buckets)
    {
      FilledNext(specs, past, quota, queries);
      var spec := specs[queries];
      var aggregate := QueryFor(spec.key, past);
      if aggregate.None? {
        FilledFails(specs, past, quota, queries + 1);
        return None, queries;
      }
      buckets := buckets[spec.key.measure := Bucket(aggregate.value.value, spec.threshold, spec.key.window,
                                                    NextFree(aggregate.value.oldest, spec.key.window, past.now),
                                                    spec.key.model)];
      queries := queries + 1;
    }
    assert specs[..queries] == specs;
    filled := Some(buckets);
  }

  /** `populate_quota_metadata`; None when it raises. It runs one query for each distinct key
      and none when there is no quota condition. */
  method Populate(rules: seq<Rule>, ctx: Context, past: History) returns (after: Option<Context>, queries: nat)
    ensures after == Populated(rules, ctx, past)
    ensures after.Some? ==> queries == |KeysOf(ConditionsOf(rules), ctx)|
  {
    var specs := CollectSpecs(rules, ctx);
    OneSpecPerKey(ConditionsOf(rules), ctx);
    var filled;
    filled, queries := RunQueries(specs, past, ctx.quota);
    match filled {
      case None => after := None;
      case Some(quota) => after := Some(ctx.(quota := quota));
    }
  }

  lemma {:induction false} FilledFails(specs: seq<Spec>, past: History, quota: map<string, Bucket>, n: nat)
    requires n <= |specs| && Filled(specs[..n], past, quota).None?
    ensures Filled(specs, past, quota).None?
    decreases |specs| - n
  {
    if n == |specs| {
      assert specs[..n] == specs;
    } else {
      assert specs[..n + 1][..n] == specs[..n];
      FilledFails(specs, past, quota, n + 1);
    }
  }

  // --- What the namespace holds ---

  /** The last spec on a measure decides its bucket. */
  ghost predicate LastOn(specs: seq<Spec>, measure: string, i: nat) {
    && i < |specs| && specs[i].key.measure == measure
    && forall j :: i < j < |specs| ==> specs[j].key.measure != measure
  }

  lemma {:induction false} LastSpecWins(specs: seq<Spec>, past: History, quota: map<string, Bucket>,
                                        measure: string, i: nat)
    requires Filled(specs, past, quota).Some? && LastOn(specs, measure, i)
    ensures IsMeasure(measure)
    ensures measure in Filled(specs, past, quota).value
    ensures Filled(specs, past, quota).value[measure] == BucketFor(specs[i], past)
    decreases |specs|
  {
    if i < |specs| - 1 {
      var init := specs[..|specs| - 1];
      assert LastOn(init, measure, i);
      LastSpecWins(init, past, quota, measure, i);
    }
  }

  lemma {:induction false} LastExists(specs: seq<Spec>, measure: string, i: nat) returns (last: nat)
    requires i < |specs| && specs[i].key.measure == measure
    ensures LastOn(specs, measure, last) && i <= last
    decreases |specs| - i
  {
    if j :| i < j < |specs| && specs[j].key.measure == measure {
      last := LastExists(specs, measure, j);
    } else {
      last := i;
    }
  }

  /** It raises exactly when some quota condition has an unknown measure. */
  lemma {:induction false} FilledWhenKnown(specs: seq<Spec>, past: History, quota: map<string, Bucket>)
    ensures Filled(specs, past, quota).Some? <==>
              forall i :: 0 <= i < |specs| ==> IsMeasure(specs[i].key.measure)
    decreases |specs|
  {
    if specs != [] {
      FilledWhenKnown(specs[..|specs| - 1], past, quota);
    }
  }
}
