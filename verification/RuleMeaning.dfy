/** What a stored rule looks at and does: the matchers of src/ttllm/core/rules.py, and the rows and
    the JSON that src/ttllm/services/rules_service.py makes rules of. */
module RuleMeaning {
  import opened Model
  import opened Rules
  import opened RulesConvert
  import opened RulesCache

  // --- What a condition looks at ---

  /** The condition compares this value, and fails without one; `negate` turns the result round. */
  predicate DecidesBy(c: Condition, actual: Actual, ctx: Context, py: Python) {
    ConditionHolds(c, ctx, py) == if c.negate then !Passes(c, actual, py) else Passes(c, actual, py)
  }

  predicate Passes(c: Condition, actual: Actual, py: Python) {
    match actual
    case Nothing => false
    case _ => py.compare(actual, c.op, c.value)
  }

  /** Headers are looked up in lower case; one that is missing is an empty text. */
  lemma HeadersAreCompared(c: Condition, ctx: Context, py: Python)
    requires c.kind.Header?
    ensures py.lower(c.field) in ctx.headers ==> DecidesBy(c, Words(ctx.headers[py.lower(c.field)]), ctx, py)
    ensures py.lower(c.field) !in ctx.headers ==> DecidesBy(c, Words(""), ctx, py)
  {
  }

  /** Six parameters by name, entries of the metadata by their key, and nothing else. */
  lemma ParametersAreCompared(c: Condition, ctx: Context, py: Python)
    requires c.kind.Parameter?
    ensures c.field == "model" ==> DecidesBy(c, Words(ctx.model), ctx, py)
    ensures c.field == "max_tokens" ==> DecidesBy(c, Amount(ctx.maxTokens as real), ctx, py)
    ensures c.field == "temperature" ==>
              DecidesBy(c, (match ctx.temperature case None => Nothing case Some(t) => Amount(t)), ctx, py)
    ensures c.field == "top_p" ==>
              DecidesBy(c, (match ctx.topP case None => Nothing case Some(p) => Amount(p)), ctx, py)
    ensures c.field == "top_k" ==>
              DecidesBy(c, (match ctx.topK case None => Nothing case Some(k) => Amount(k as real)), ctx, py)
    ensures c.field == "stream" ==> DecidesBy(c, Flag(ctx.stream), ctx, py)
    ensures c.field !in {"model", "max_tokens", "temperature", "top_p", "top_k", "stream"} ==>
              if |c.field| >= 9 && c.field[..9] == "metadata." && c.field[9..] in ctx.metadata
              then DecidesBy(c, ctx.metadata[c.field[9..]], ctx, py)
              else DecidesBy(c, Nothing, ctx, py)
  {
  }

  /** The system prompt's text, or else that of the messages. */
  lemma TextsAreCompared(c: Condition, ctx: Context, py: Python)
    requires c.kind.Content?
    ensures c.field == "system" ==> DecidesBy(c, Words(ctx.systemText), ctx, py)
    ensures c.field != "system" ==> DecidesBy(c, Words(ctx.messagesText), ctx, py)
  {
  }

  lemma FunctionsAreCompared(c: Condition, ctx: Context, py: Python)
    requires c.kind.Function?
    ensures c.field in py.functions ==>
              DecidesBy(c, py.functions[c.field](ctx.messagesText, ctx.systemText), ctx, py)
    ensures c.field !in py.functions ==> DecidesBy(c, Nothing, ctx, py)
  {
  }

  /** A measure that nothing was computed for compares as zero. */
  lemma QuotasAreCompared(c: Condition, ctx: Context, py: Python)
    requires c.kind.Quota?
    ensures c.field in ctx.quota ==> DecidesBy(c, Amount(ctx.quota[c.field].value), ctx, py)
    ensures c.field !in ctx.quota ==> DecidesBy(c, Amount(0.0), ctx, py)
  {
  }

  // --- What the JSON of a group says ---

  /** A group's conditions are listed under "conditions"; without that key, or with an empty value,
      it has none; any other value cannot be read. */
  lemma ConditionsAreListed(data: Json)
    ensures !data.JObj? ==> !ValidGroup(data)
    ensures data.JObj? && "conditions" in data.fields ==>
              match data.fields["conditions"]
              case JArr(items) => ValidGroup(data) ==> |Convert(data).items| == |items|
              case JStr(s) => ValidGroup(data) ==> s == "" && Convert(data).items == []
              case JObj(fields) => ValidGroup(data) ==> fields == map[] && Convert(data).items == []
              case _ => !ValidGroup(data)
    ensures ValidGroup(data) && "conditions" !in data.fields ==> Convert(data).items == []
  {
  }

  /** What can be read: a dict whose logic, if it has one, is one of the two words, and whose
      conditions, if it has any, can be read each. */
  lemma ReadableGroups(data: Json)
    ensures ValidGroup(data) <==>
              && data.JObj?
              && ("logic" in data.fields ==> data.fields["logic"] in {JStr("and"), JStr("or")})
              && ("conditions" in data.fields ==>
                    match data.fields["conditions"]
                    case JArr(items) => forall i :: 0 <= i < |items| ==> ValidItem(items[i])
                    case JStr(s) => s == ""
                    case JObj(fields) => fields == map[]
                    case _ => false)
  {
    if data.JObj? && "conditions" in data.fields && data.fields["conditions"].JArr? {
      ElementsAreSmaller(data);
      assert Elements(data) == Some(data.fields["conditions"].items);
    }
  }

  /** What an element must be: a group if it has conditions of its own, and else one condition with a
      known type, a known operator if it names one, a field and a value. */
  lemma ReadableItems(item: Json)
    ensures ValidItem(item) ==> item.JObj?
    ensures item.JObj? && "conditions" in item.fields ==> (ValidItem(item) <==> ValidGroup(item))
    ensures item.JObj? && "conditions" !in item.fields ==>
              (ValidItem(item) <==>
                 && "type" in item.fields && "field" in item.fields && "value" in item.fields
                 && item.fields["type"]
                    in {JStr("header"), JStr("parameter"), JStr("content"), JStr("function"), JStr("quota")}
                 && item.fields["field"].JStr?
                 && ("operator" in item.fields ==>
                       item.fields["operator"]
                       in {JStr("exact"), JStr("regex"), JStr("gt"), JStr("lt"), JStr("gte"), JStr("lte"),
                           JStr("contains"), JStr("in")})
                 && ("window" in item.fields ==> item.fields["window"].JInt? || item.fields["window"].JNull?)
                 && ("per" in item.fields ==>
                       && item.fields["per"].JArr?
                       && forall i :: 0 <= i < |item.fields["per"].items| ==> item.fields["per"].items[i].JStr?))
  {
  }

  /** Each of them is a group if it has conditions of its own, and else one condition. */
  lemma ItemsAreRead(data: Json, items: seq<Json>, i: nat)
    requires data.JObj? && "conditions" in data.fields && data.fields["conditions"] == JArr(items)
    requires ValidGroup(data) && i < |items|
    ensures i < |Convert(data).items| && items[i].JObj?
    ensures if "conditions" in items[i].fields
            then ValidGroup(items[i]) && Convert(data).items[i] == Nested(Convert(items[i]))
            else ValidLeaf(items[i].fields) && Convert(data).items[i] == One(ReadLeaf(items[i].fields))
  {
    ElementsAreSmaller(data);
    assert ValidItem(Elements(data).value[i]);
  }

  /** All of them must hold, unless "logic" is "or"; no other word will do. */
  lemma LogicIsRead(data: Json)
    requires ValidGroup(data)
    ensures Convert(data).logic.Or? <==> "logic" in data.fields && data.fields["logic"] == JStr("or")
    ensures "logic" in data.fields ==> data.fields["logic"] in {JStr("and"), JStr("or")}
  {
  }

  /** `negate` is taken by its truth value. */
  lemma NegateIsTruth(fields: map<string, Json>, stored: Json)
    requires ValidLeaf(fields)
    ensures ValidLeaf(fields["negate" := stored])
    ensures ReadLeaf(fields["negate" := stored]).negate <==>
              && stored !in {JNull, JBool(false), JInt(0), JStr(""), JArr([]), JObj(map[])}
              && (stored.JReal? ==> stored.r != 0.0)
  {
    var more := fields["negate" := stored];
    assert forall k, d :: k != "negate" ==> Get(more, k, d) == Get(fields, k, d);
  }

  // --- Which rules are active ---

  /** What an action of each type needs besides. */
  function KeysNeeded(actionType: string): Option<set<string>> {
    if actionType in {"allow", "block"} then Some({})
    else if actionType == "reroute" then Some({"target"})
    else if actionType == "rewrite" then Some({"pattern", "replacement"})
    else None
  }

  predicate IsAction(action: Json) {
    && action.JObj? && "type" in action.fields && action.fields["type"].JStr?
    && match KeysNeeded(action.fields["type"].s)
       case None => false
       case Some(keys) => keys <= action.fields.Keys
  }

  /** The row makes this rule. */
  predicate Makes(row: Stored, rule: Rule) {
    && ValidGroup(row.conditions) && IsAction(row.action)
    && rule.name == row.name && rule.weight == row.weight && rule.enabled == row.enabled
    && rule.action == row.action && rule.conditions == Convert(row.conditions)
  }

  predicate IsUsable(row: Stored) {
    row.enabled && ValidGroup(row.conditions) && IsAction(row.action)
  }

  function Where(keep: Stored -> bool, table: Table): Table {
    if table == [] then [] else (if keep(table[0]) then [table[0]] else []) + Where(keep, table[1..])
  }

  lemma RowMakesRule(row: Stored)
    ensures CoreRule(row).Some? <==> ValidGroup(row.conditions) && IsAction(row.action)
    ensures CoreRule(row).Some? ==> Makes(row, CoreRule(row).value)
  {
  }

  /** An answer's rows, where they can be used, make its rules one by one. */
  lemma {:induction false} RowsMakeRules(rows: Table)
    requires forall i :: 0 <= i < |rows| ==> rows[i].enabled
    ensures |CoreRules(rows)| == |Where(IsUsable, rows)|
    ensures forall i :: 0 <= i < |CoreRules(rows)| ==> Makes(Where(IsUsable, rows)[i], CoreRules(rows)[i])
  {
    if rows != [] {
      RowMakesRule(rows[0]);
      RowsMakeRules(rows[1..]);
    }
  }

  lemma {:induction false} WhereCounts(keep: Stored -> bool, rows: Table, row: Stored)
    ensures multiset(Where(keep, rows))[row] == if keep(row) then multiset(rows)[row] else 0
  {
    if rows != [] {
      WhereCounts(keep, rows[1..], row);
      assert rows == [rows[0]] + rows[1..];
    }
  }

  /** In whatever order the rows come, the same ones are kept. */
  lemma WhereInAnyOrder(keep: Stored -> bool, a: Table, b: Table)
    requires multiset(a) == multiset(b)
    ensures multiset(Where(keep, a)) == multiset(Where(keep, b))
  {
    forall row ensures multiset(Where(keep, a))[row] == multiset(Where(keep, b))[row] {
      WhereCounts(keep, a, row);
      WhereCounts(keep, b, row);
    }
  }

  lemma {:induction false} EnabledAreKept(keep: Stored -> bool, table: Table)
    requires forall row :: keep(row) ==> row.enabled
    ensures Where(keep, EnabledRows(table)) == Where(keep, table)
  {
    if table != [] {
      var rest := EnabledRows(table[1..]);
      EnabledAreKept(keep, table[1..]);
      if table[0].enabled {
        assert ([table[0]] + rest)[0] == table[0] && ([table[0]] + rest)[1..] == rest;
        assert EnabledRows(table) == [table[0]] + rest;
      } else {
        assert EnabledRows(table) == [] + rest == rest;
        assert !keep(table[0]);
        assert Where(keep, table) == [] + Where(keep, table[1..]) == Where(keep, table[1..]);
      }
    }
  }

  lemma {:induction false} EnabledRowsAreEnabled(table: Table)
    ensures forall row :: row in multiset(EnabledRows(table)) ==> row.enabled
  {
    if table != [] {
      EnabledRowsAreEnabled(table[1..]);
    }
  }

  predicate HeaviestFirst(rows: Table) {
    forall i, j :: 0 <= i < j < |rows| ==> rows[i].weight >= rows[j].weight
  }

  lemma {:induction false} WhereIsAmong(keep: Stored -> bool, rows: Table)
    ensures forall row :: row in Where(keep, rows) ==> row in rows
  {
    if rows != [] {
      WhereIsAmong(keep, rows[1..]);
      assert forall row :: row in rows[1..] ==> row in rows;
    }
  }

  lemma HeaviestBefore(row: Stored, rest: Table)
    requires HeaviestFirst(rest) && forall other :: other in rest ==> other.weight <= row.weight
    ensures HeaviestFirst([row] + rest)
  {
    forall i | 0 <= i < |rest| ensures rest[i].weight <= row.weight {
      assert rest[i] in rest;
    }
  }

  lemma {:induction false} WhereStaysSorted(keep: Stored -> bool, rows: Table)
    requires HeaviestFirst(rows)
    ensures HeaviestFirst(Where(keep, rows))
  {
    if rows != [] {
      var rest := Where(keep, rows[1..]);
      WhereStaysSorted(keep, rows[1..]);
      WhereIsAmong(keep, rows[1..]);
      forall other | other in rest ensures other.weight <= rows[0].weight {
        assert other in rows[1..];
      }
      HeaviestBefore(rows[0], rest);
      assert [] + rest == rest;
    }
  }

  /** The rows that the active rules were made of: the usable ones of the table, all of them and no
      others, the heaviest first. */
  ghost predicate AreMadeOf(rules: seq<Rule>, rows: Table, table: Table) {
    && |rows| == |rules| && multiset(rows) == multiset(Where(IsUsable, table)) && HeaviestFirst(rows)
    && (forall i :: 0 <= i < |rules| ==> Makes(rows[i], rules[i]))
  }

  lemma AnswerIsMadeOf(answer: Table, table: Table)
    requires Answers(answer, table)
    ensures AreMadeOf(CoreRules(answer), Where(IsUsable, answer), table)
  {
    EnabledRowsAreEnabled(table);
    forall i | 0 <= i < |answer| ensures answer[i].enabled {
      assert answer[i] in multiset(answer);
    }
    RowsMakeRules(answer);
    WhereInAnyOrder(IsUsable, answer, EnabledRows(table));
    EnabledAreKept(IsUsable, table);
    WhereStaysSorted(IsUsable, answer);
  }

  lemma ActiveRulesAreMade(rules: seq<Rule>, table: Table) returns (rows: Table)
    requires AreActive(rules, table)
    ensures AreMadeOf(rules, rows, table)
  {
    var answer: Table :| Answers(answer, table) && rules == CoreRules(answer);
    AnswerIsMadeOf(answer, table);
    rows := Where(IsUsable, answer);
  }

  /** So what a worker serves is made of the usable rows of one committed state of the table. */
  lemma ServedRulesAreMade(states: seq<State>, actions: seq<Action>, ttl: int, n: nat, i: nat) returns (rows: Table)
    requires IsRun(states, actions, ttl) && n < |states| && i < |states[n].log| && states[n].log[i].Served?
    ensures var e := states[n].log[i];
            e.version < |states[n].db| && AreMadeOf(e.rules, rows, states[n].db[e.version].table)
  {
    ServesOneRecentState(states, actions, ttl, n, i);
    rows := ActiveRulesAreMade(states[n].log[i].rules, states[n].db[states[n].log[i].version].table);
  }
}
