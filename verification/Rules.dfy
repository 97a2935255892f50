/** The rules engine: src/ttllm/core/rules.py. */
module Rules {
  import opened Model

  datatype Kind = Header | Parameter | Content | Function | Quota

  datatype MatchOp = Exact | Regex | Gt | Lt | Gte | Lte | Contains | In

  datatype Logic = And | Or

  /** A leaf; `window` and `per` matter to quota conditions only. */
  datatype Condition = Condition(
    kind: Kind,
    field: string,
    op: MatchOp,
    value: Json,
    negate: bool,
    window: Option<int>,
    per: seq<string>)

  datatype Item = One(condition: Condition) | Nested(group: Group)

  datatype Group = Group(logic: Logic, items: seq<Item>)

  /** A rule; its action is named but not interpreted. */
  datatype Rule = Rule(name: string, weight: int, conditions: Group, action: Json, enabled: bool)

  /** `ctx.metadata["quota"][measure]`: what the service computed for one measure. */
  datatype Bucket = Bucket(value: real, threshold: Json, window: int, nextFree: nat, model: Option<string>)

  /** A value that a condition looks at; Nothing is Python's None. */
  datatype Actual = Nothing | Words(s: string) | Amount(r: real) | Flag(b: bool)

  datatype Context = Context(
    model: string,
    messagesText: string,
    systemText: string,
    headers: map<string, string>,
    maxTokens: int,
    temperature: Option<real>,
    topP: Option<real>,
    topK: Option<int>,
    stream: bool,
    metadata: map<string, Actual>,
    quota: map<string, Bucket>)

  /** What the engine takes from Python: `_compare` on a value that is there (text, regular
      expression and number comparison), `str.lower`, and the registered functions, which
      look at the text of the messages and of the system prompt. */
  datatype Python = Python(
    compare: (Actual, MatchOp, Json) -> bool,
    lower: string -> string,
    functions: map<string, (string, string) -> Actual>)

  // --- Leaves ---

  const METADATA := "metadata."

  function RealOr(r: Option<real>): Actual {
    match r
    case None => Nothing
    case Some(x) => Amount(x)
  }

  function ParameterOf(field: string, ctx: Context): Actual {
    if field == "model" then Words(ctx.model)
    else if field == "max_tokens" then Amount(ctx.maxTokens as real)
    else if field == "temperature" then RealOr(ctx.temperature)
    else if field == "top_p" then RealOr(ctx.topP)
    else if field == "top_k" then (match ctx.topK case None => Nothing case Some(k) => Amount(k as real))
    else if field == "stream" then Flag(ctx.stream)
    else if METADATA <= field && field[|METADATA|..] in ctx.metadata then ctx.metadata[field[|METADATA|..]]
    else Nothing
  }

  /** The value that the matcher for the condition's type compares. */
  function Observed(c: Condition, ctx: Context, py: Python): Actual {
    match c.kind
    case Header =>
      var name := py.lower(c.field);
      Words(if name in ctx.headers then ctx.headers[name] else "")
    case Parameter => ParameterOf(c.field, ctx)
    case Content => Words(if c.field == "system" then ctx.systemText else ctx.messagesText)
    case Function =>
      if c.field in py.functions then py.functions[c.field](ctx.messagesText, ctx.systemText) else Nothing
    case Quota => Amount(if c.field in ctx.quota then ctx.quota[c.field].value else 0.0)
  }

  predicate Compares(actual: Actual, op: MatchOp, expected: Json, py: Python) {
    !actual.Nothing? && py.compare(actual, op, expected)
  }

  /** `evaluate_condition` */
  predicate ConditionHolds(c: Condition, ctx: Context, py: Python) {
    Compares(Observed(c, ctx, py), c.op, c.value, py) != c.negate
  }

  // --- Groups ---

  predicate ItemHolds(item: Item, ctx: Context, py: Python) {
    match item
    case One(c) => ConditionHolds(c, ctx, py)
    case Nested(g) => Holds(g, ctx, py)
  }

  /** What a group means: all of its items hold, or some item does. */
  predicate Holds(g: Group, ctx: Context, py: Python) {
    match g.logic
    case And => forall i :: 0 <= i < |g.items| ==> ItemHolds(g.items[i], ctx, py)
    case Or => exists i :: 0 <= i < |g.items| && ItemHolds(g.items[i], ctx, py)
  }

  /** `evaluate_group`: the results of all items, then all() or any() of them. */
  method EvaluateGroup(g: Group, ctx: Context, py: Python) returns (holds: bool)
    ensures holds == Holds(g, ctx, py)
  {
    var results: seq<bool> := [];
    var i := 0;
    while i < |g.items|
      invariant 0 <= i <= |g.items| && |results| == i
      invariant forall j :: 0 <= j < i ==> results[j] == ItemHolds(g.items[j], ctx, py)
    {
      var result;
      match g.items[i] {
        case One(c) => result := ConditionHolds(c, ctx, py);
        case Nested(inner) => result := EvaluateGroup(inner, ctx, py);
      }
      results := results + [result];
      i := i + 1;
    }
    if g.logic.And? {
      return forall j :: 0 <= j < |results| ==> results[j];
    }
    return exists j :: 0 <= j < |results| && results[j];
  }

  /** `iter_conditions` */
  function Leaves(g: Group): seq<Condition> {
    LeavesFrom(g, 0)
  }

  function LeavesFrom(g: Group, i: nat): seq<Condition>
    requires i <= |g.items|
    decreases g, |g.items| - i
  {
    if i == |g.items| then []
    else
      match g.items[i]
      case One(c) => [c] + LeavesFrom(g, i + 1)
      case Nested(inner) => LeavesFrom(inner, 0) + LeavesFrom(g, i + 1)
  }

  lemma {:induction false} LeavesOfItem(g: Group, from: nat, i: nat)
    requires from <= i < |g.items|
    ensures g.items[i].One? ==> g.items[i].condition in LeavesFrom(g, from)
    ensures g.items[i].Nested? ==> forall c :: c in Leaves(g.items[i].group) ==> c in LeavesFrom(g, from)
    decreases i - from
  {
    if from < i {
      LeavesOfItem(g, from + 1, i);
    }
  }

  /** The context matters to a group only through its leaves. */
  lemma {:induction false} LeavesDecide(g: Group, one: Context, other: Context, py: Python)
    requires forall c :: c in Leaves(g) ==> ConditionHolds(c, one, py) == ConditionHolds(c, other, py)
    ensures Holds(g, one, py) == Holds(g, other, py)
  {
    forall i | 0 <= i < |g.items| ensures ItemHolds(g.items[i], one, py) == ItemHolds(g.items[i], other, py) {
      LeavesOfItem(g, 0, i);
      if g.items[i].Nested? {
        LeavesDecide(g.items[i].group, one, other, py);
      }
    }
  }

  // --- Which rule wins ---

  predicate Matches(rule: Rule, ctx: Context, py: Python) {
    rule.enabled && Holds(rule.conditions, ctx, py)
  }

  function EnabledOf(rules: seq<Rule>): seq<Rule> {
    if rules == [] then []
    else (if rules[0].enabled then [rules[0]] else []) + EnabledOf(rules[1..])
  }

  /** Before the first rule that does not outweigh it: an earlier rule stays before the later
      ones of its weight. */
  function Insert(rule: Rule, sorted: seq<Rule>): seq<Rule> {
    if sorted == [] || sorted[0].weight <= rule.weight then [rule] + sorted
    else [sorted[0]] + Insert(rule, sorted[1..])
  }

  /** Python's stable `sorted(rules, key=weight, reverse=True)`. */
  function ByWeight(rules: seq<Rule>): seq<Rule> {
    if rules == [] then [] else Insert(rules[0], ByWeight(rules[1..]))
  }

  predicate Descending(rules: seq<Rule>) {
    forall i, j :: 0 <= i < j < |rules| ==> rules[i].weight >= rules[j].weight
  }

  lemma {:induction false} InsertKeepsMembers(rule: Rule, sorted: seq<Rule>)
    ensures multiset(Insert(rule, sorted)) == multiset(sorted) + multiset{rule}
  {
    if sorted != [] && sorted[0].weight > rule.weight {
      InsertKeepsMembers(rule, sorted[1..]);
      assert sorted == [sorted[0]] + sorted[1..];
    }
  }

  lemma {:induction false} InsertSorts(rule: Rule, sorted: seq<Rule>)
    requires Descending(sorted)
    ensures Descending(Insert(rule, sorted))
    ensures forall i :: 0 <= i < |Insert(rule, sorted)| ==>
              Insert(rule, sorted)[i].weight <= rule.weight || Insert(rule, sorted)[i].weight <= sorted[0].weight
  {
    if sorted != [] && sorted[0].weight > rule.weight {
      InsertSorts(rule, sorted[1..]);
    }
  }

  lemma {:induction false} ByWeightSorts(rules: seq<Rule>)
    ensures Descending(ByWeight(rules)) && multiset(ByWeight(rules)) == multiset(rules)
  {
    if rules != [] {
      ByWeightSorts(rules[1..]);
      InsertSorts(rules[0], ByWeight(rules[1..]));
      InsertKeepsMembers(rules[0], ByWeight(rules[1..]));
      assert rules == [rules[0]] + rules[1..];
    }
  }

  function FirstHolding(rules: seq<Rule>, ctx: Context, py: Python): Option<Rule> {
    if rules == [] then None
    else if Holds(rules[0].conditions, ctx, py) then Some(rules[0])
    else FirstHolding(rules[1..], ctx, py)
  }

  lemma {:induction false} FirstIsMember(rules: seq<Rule>, ctx: Context, py: Python)
    ensures FirstHolding(rules, ctx, py).Some? ==> FirstHolding(rules, ctx, py).value in rules
  {
    if rules != [] && !Holds(rules[0].conditions, ctx, py) {
      FirstIsMember(rules[1..], ctx, py);
    }
  }

  lemma {:induction false} FirstAfterInsert(rule: Rule, sorted: seq<Rule>, ctx: Context, py: Python)
    requires Descending(sorted)
    ensures FirstHolding(Insert(rule, sorted), ctx, py)
         == var first := FirstHolding(sorted, ctx, py);
            if !Holds(rule.conditions, ctx, py) || (first.Some? && first.value.weight > rule.weight) then first
            else Some(rule)
  {
    if sorted != [] && sorted[0].weight > rule.weight {
      FirstAfterInsert(rule, sorted[1..], ctx, py);
      assert ([sorted[0]] + Insert(rule, sorted[1..]))[1..] == Insert(rule, sorted[1..]);
    } else {
      assert ([rule] + sorted)[1..] == sorted;
      FirstIsMember(sorted, ctx, py);
    }
  }

  /** Position i holds the earliest of the heaviest matching rules. */
  ghost predicate Wins(rules: seq<Rule>, ctx: Context, py: Python, i: nat) {
    && i < |rules| && Matches(rules[i], ctx, py)
    && forall j :: 0 <= j < |rules| && Matches(rules[j], ctx, py) ==>
         rules[j].weight < rules[i].weight || (rules[j].weight == rules[i].weight && i <= j)
  }

  /** The position of the winner, found from the back of the list. */
  function Winner(rules: seq<Rule>, ctx: Context, py: Python): Option<nat> {
    if rules == [] then None
    else
      match Winner(rules[1..], ctx, py)
      case None => if Matches(rules[0], ctx, py) then Some(0) else None
      case Some(i) =>
        if Matches(rules[0], ctx, py) && i + 1 < |rules| && rules[0].weight >= rules[i + 1].weight then Some(0)
        else Some(i + 1)
  }

  lemma {:induction false} WinnerWins(rules: seq<Rule>, ctx: Context, py: Python)
    ensures Winner(rules, ctx, py).Some? ==> Wins(rules, ctx, py, Winner(rules, ctx, py).value)
    ensures Winner(rules, ctx, py).None? ==> forall j :: 0 <= j < |rules| ==> !Matches(rules[j], ctx, py)
  {
    if rules != [] {
      var rest := rules[1..];
      WinnerWins(rest, ctx, py);
      assert forall j :: 0 < j < |rules| ==> rules[j] == rest[j - 1];
    }
  }

  lemma {:induction false} FirstByWeightWins(rules: seq<Rule>, ctx: Context, py: Python)
    ensures FirstHolding(ByWeight(EnabledOf(rules)), ctx, py)
         == match Winner(rules, ctx, py)
            case None => None
            case Some(i) => if i < |rules| then Some(rules[i]) else None
  {
    if rules != [] {
      var rule, rest := rules[0], rules[1..];
      FirstByWeightWins(rest, ctx, py);
      WinnerWins(rest, ctx, py);
      if rule.enabled {
        ByWeightSorts(EnabledOf(rest));
        FirstAfterInsert(rule, ByWeight(EnabledOf(rest)), ctx, py);
        assert ([rule] + EnabledOf(rest))[1..] == EnabledOf(rest);
      } else {
        assert [] + EnabledOf(rest) == EnabledOf(rest);
      }
    }
  }

  /** `evaluate`: None exactly when no enabled rule matches, otherwise the earliest in list
      order of the heaviest enabled rules that match. */
  method Evaluate(rules: seq<Rule>, ctx: Context, py: Python) returns (winner: Option<Rule>)
    ensures winner == FirstHolding(ByWeight(EnabledOf(rules)), ctx, py)
    ensures winner.None? <==> forall j :: 0 <= j < |rules| ==> !Matches(rules[j], ctx, py)
    ensures winner.Some? ==> exists i: nat :: Wins(rules, ctx, py, i) && winner == Some(rules[i])
  {
    FirstByWeightWins(rules, ctx, py);
    WinnerWins(rules, ctx, py);
    var sorted := ByWeight(EnabledOf(rules));
    var i := 0;
    while i < |sorted|
      invariant 0 <= i <= |sorted|
      invariant FirstHolding(sorted, ctx, py) == FirstHolding(sorted[i..], ctx, py)
    {
      assert sorted[i..][1..] == sorted[i + 1..];
      var holds := EvaluateGroup(sorted[i].conditions, ctx, py);
      if holds {
        return Some(sorted[i]);
      }
      i := i + 1;
    }
    return None;
  }
}
