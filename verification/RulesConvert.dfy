/** Stored rule conditions, as JSON, turned into engine conditions:
    `_convert_condition_group_dict` of src/ttllm/services/rules_service.py. */
module RulesConvert {
  import opened Model
  import opened Rules

  const CONDITIONS := "conditions"

  function KindOf(name: string): Option<Kind> {
    if name == "header" then Some(Header)
    else if name == "parameter" then Some(Parameter)
    else if name == "content" then Some(Kind.Content)
    else if name == "function" then Some(Function)
    else if name == "quota" then Some(Quota)
    else None
  }

  function OpOf(name: string): Option<MatchOp> {
    if name == "exact" then Some(Exact)
    else if name == "regex" then Some(Regex)
    else if name == "gt" then Some(Gt)
    else if name == "lt" then Some(Lt)
    else if name == "gte" then Some(Gte)
    else if name == "lte" then Some(Lte)
    else if name == "contains" then Some(Contains)
    else if name == "in" then Some(In)
    else None
  }

  function LogicOf(name: string): Option<Logic> {
    if name == "and" then Some(And) else if name == "or" then Some(Or) else None
  }

  /** `data.get(key, default)` */
  function Get(fields: map<string, Json>, key: string, default: Json): Json {
    if key in fields then fields[key] else default
  }

  function Strings(items: seq<Json>): seq<string> {
    if items == [] then []
    else (if items[0].JStr? then [items[0].s] else []) + Strings(items[1..])
  }

  // --- Leaves ---

  /** Whether a leaf converts: the keys it needs are there and the names are known. `field`,
      `window` and `per` have the types that ConditionSchema declares; `negate` may be anything. */
  predicate ValidLeaf(fields: map<string, Json>) {
    && "type" in fields && fields["type"].JStr? && KindOf(fields["type"].s).Some?
    && "field" in fields && fields["field"].JStr?
    && (var op := Get(fields, "operator", JStr("exact")); op.JStr? && OpOf(op.s).Some?)
    && "value" in fields
    && (var window := Get(fields, "window", JNull); window.JNull? || window.JInt?)
    && (var per := Get(fields, "per", JArr([])); per.JArr? && forall i :: 0 <= i < |per.items| ==> per.items[i].JStr?)
  }

  function ReadLeaf(fields: map<string, Json>): Condition
    requires ValidLeaf(fields)
  {
    var window := Get(fields, "window", JNull);
    Condition(
      KindOf(fields["type"].s).value,
      fields["field"].s,
      OpOf(Get(fields, "operator", JStr("exact")).s).value,
      fields["value"],
      Truthy(Get(fields, "negate", JBool(false))),
      if window.JInt? then Some(window.n) else None,
      Strings(Get(fields, "per", JArr([])).items))
  }

  // --- Groups ---

  /** What iterating over the "conditions" of a group gives; None if Python raises at once. An
      empty string or object gives nothing, and any other one gives strings, which raise. */
  function Elements(data: Json): Option<seq<Json>> {
    if !data.JObj? then None
    else
      match Get(data.fields, CONDITIONS, JArr([]))
      case JArr(items) => Some(items)
      case JStr(s) => if s == "" then Some([]) else None
      case JObj(fields) => if fields == map[] then Some([]) else None
      case _ => None
  }

  lemma ElementsAreSmaller(data: Json)
    ensures Elements(data).Some? ==> forall i :: 0 <= i < |Elements(data).value| ==> Elements(data).value[i] < data
  {
  }

  predicate ValidGroup(data: Json)
    decreases data, 0
  {
    && Elements(data).Some?
    && (var logic := Get(data.fields, "logic", JStr("and")); logic.JStr? && LogicOf(logic.s).Some?)
    && (forall i :: 0 <= i < |Elements(data).value| ==>
          (ElementsAreSmaller(data); ValidItem(Elements(data).value[i])))
  }

  predicate ValidItem(item: Json)
    decreases item, 1
  {
    item.JObj? && if CONDITIONS in item.fields then ValidGroup(item) else ValidLeaf(item.fields)
  }

  function Convert(data: Json): Group
    requires ValidGroup(data)
    decreases data, 0
  {
    ElementsAreSmaller(data);
    var items := Elements(data).value;
    Group(LogicOf(Get(data.fields, "logic", JStr("and")).s).value,
          seq(|items|, i requires 0 <= i < |items| => ConvertItem(items[i])))
  }

  function ConvertItem(item: Json): Item
    requires ValidItem(item)
    decreases item, 1
  {
    if CONDITIONS in item.fields then Nested(Convert(item)) else One(ReadLeaf(item.fields))
  }

  /** `_convert_condition_group_dict`; None when it raises, and then the rule is skipped. */
  method ConvertGroup(data: Json) returns (group: Option<Group>)
    ensures group == if ValidGroup(data) then Some(Convert(data)) else None
    decreases data
  {
    var elements := Elements(data);
    if elements.None? {
      return None;
    }
    var logic := Get(data.fields, "logic", JStr("and"));
    if !logic.JStr? || LogicOf(logic.s).None? {
      return None;
    }
    ElementsAreSmaller(data);
    var conditions: seq<Item> := [];
    var i := 0;
    while i < |elements.value|
      invariant 0 <= i <= |elements.value| && |conditions| == i
      invariant forall j :: 0 <= j < i ==>
                  ValidItem(elements.value[j]) && conditions[j] == ConvertItem(elements.value[j])
    {
      var item := elements.value[i];
      if !item.JObj? {
        return None;
      }
      if CONDITIONS in item.fields {
        var inner := ConvertGroup(item);
        if inner.None? {
          return None;
        }
        conditions := conditions + [Nested(inner.value)];
      } else {
        if !ValidLeaf(item.fields) {
          return None;
        }
        conditions := conditions + [One(ReadLeaf(item.fields))];
      }
      i := i + 1;
    }
    assert conditions == Convert(data).items;
    return Some(Group(LogicOf(logic.s).value, conditions));
  }

  // --- Reading the JSON directly ---

  /** What the stored JSON says, read without building a group. */
  predicate JsonHolds(data: Json, ctx: Context, py: Python)
    requires ValidGroup(data)
    decreases data, 0
  {
    ElementsAreSmaller(data);
    var items := Elements(data).value;
    if Get(data.fields, "logic", JStr("and")) == JStr("or") then
      exists i :: 0 <= i < |items| && JsonItemHolds(items[i], ctx, py)
    else
      forall i :: 0 <= i < |items| ==> JsonItemHolds(items[i], ctx, py)
  }

  predicate JsonItemHolds(item: Json, ctx: Context, py: Python)
    requires ValidItem(item)
    decreases item, 1
  {
    if CONDITIONS in item.fields then JsonHolds(item, ctx, py) else ConditionHolds(ReadLeaf(item.fields), ctx, py)
  }

  function JsonLeaves(data: Json, from: nat): seq<Condition>
    requires ValidGroup(data) && from <= |Elements(data).value|
    decreases data, |Elements(data).value| - from
  {
    var items := Elements(data).value;
    if from == |items| then []
    else
      ElementsAreSmaller(data);
      assert ValidItem(items[from]);
      (if CONDITIONS in items[from].fields then JsonLeaves(items[from], 0) else [ReadLeaf(items[from].fields)])
      + JsonLeaves(data, from + 1)
  }

  /** Matching a converted group is what the JSON says. */
  lemma {:induction false} MatchingReadsJson(data: Json, ctx: Context, py: Python)
    requires ValidGroup(data)
    ensures Holds(Convert(data), ctx, py) == JsonHolds(data, ctx, py)
    decreases data
  {
    ElementsAreSmaller(data);
    var items, converted := Elements(data).value, Convert(data).items;
    forall i | 0 <= i < |items| ensures ItemHolds(converted[i], ctx, py) == JsonItemHolds(items[i], ctx, py) {
      assert ValidItem(items[i]) && converted[i] == ConvertItem(items[i]);
      if CONDITIONS in items[i].fields {
        MatchingReadsJson(items[i], ctx, py);
      }
    }
  }

  /** iter_conditions yields the leaves of the JSON, in the order written. */
  lemma {:induction false} LeavesInOrder(data: Json, from: nat)
    requires ValidGroup(data) && from <= |Elements(data).value|
    ensures LeavesFrom(Convert(data), from) == JsonLeaves(data, from)
    decreases data, |Elements(data).value| - from
  {
    var items := Elements(data).value;
    if from < |items| {
      ElementsAreSmaller(data);
      if CONDITIONS in items[from].fields {
        LeavesInOrder(items[from], 0);
      }
      LeavesInOrder(data, from + 1);
    }
  }

  // --- Writing a group ---

  function NameOfKind(k: Kind): string {
    match k
    case Header => "header"
    case Parameter => "parameter"
    case Content => "content"
    case Function => "function"
    case Quota => "quota"
  }

  function NameOfOp(op: MatchOp): string {
    match op
    case Exact => "exact"
    case Regex => "regex"
    case Gt => "gt"
    case Lt => "lt"
    case Gte => "gte"
    case Lte => "lte"
    case Contains => "contains"
    case In => "in"
  }

  function Quoted(strings: seq<string>): seq<Json> {
    seq(|strings|, i requires 0 <= i < |strings| => JStr(strings[i]))
  }

  /** A condition as ConditionSchema takes it. */
  function LeafJson(c: Condition): map<string, Json> {
    map["type" := JStr(NameOfKind(c.kind)), "field" := JStr(c.field), "operator" := JStr(NameOfOp(c.op)),
        "value" := c.value, "negate" := JBool(c.negate),
        "window" := (match c.window case None => JNull case Some(w) => JInt(w)),
        "per" := JArr(Quoted(c.per))]
  }

  function GroupJson(g: Group): Json {
    JObj(map[
      "logic" := JStr(if g.logic.And? then "and" else "or"),
      CONDITIONS := JArr(seq(|g.items|, i requires 0 <= i < |g.items| => ItemJson(g.items[i])))])
  }

  function ItemJson(item: Item): Json {
    match item
    case One(c) => JObj(LeafJson(c))
    case Nested(g) => GroupJson(g)
  }

  lemma {:induction false} StringsRead(per: seq<string>)
    ensures Strings(Quoted(per)) == per
  {
    if per != [] {
      assert Quoted(per)[1..] == Quoted(per[1..]);
      StringsRead(per[1..]);
    }
  }

  lemma LeafReadsBack(c: Condition)
    ensures ValidLeaf(LeafJson(c)) && ReadLeaf(LeafJson(c)) == c
    ensures CONDITIONS !in LeafJson(c)
  {
    StringsRead(c.per);
    var fields := LeafJson(c);
    assert fields["operator"] == JStr(NameOfOp(c.op)) && OpOf(NameOfOp(c.op)) == Some(c.op);
    assert c.kind.Header? || c.kind.Parameter? || c.kind.Content? || c.kind.Function? || c.kind.Quota?;
  }

  /** Every group is what its JSON converts to. */
  lemma {:induction false} ConversionReadsBack(g: Group)
    ensures ValidGroup(GroupJson(g)) && Convert(GroupJson(g)) == g
    decreases g
  {
    forall i | 0 <= i < |g.items|
      ensures ValidItem(ItemJson(g.items[i])) && ConvertItem(ItemJson(g.items[i])) == g.items[i]
    {
      match g.items[i] {
        case One(c) => LeafReadsBack(c);
        case Nested(inner) => ConversionReadsBack(inner);
      }
    }
    assert Convert(GroupJson(g)).items == g.items;
  }

  /** Any string that is not empty negates, "false" included: the JSON is read as it was stored. */
  lemma NegateTakesAnyString(fields: map<string, Json>)
    requires ValidLeaf(fields)
    ensures var stored := fields["negate" := JStr("false")];
            ValidLeaf(stored) && ReadLeaf(stored) == ReadLeaf(fields).(negate := true)
  {
    var stored := fields["negate" := JStr("false")];
    assert forall k, d :: k != "negate" ==> Get(stored, k, d) == Get(fields, k, d);
  }

  /** Leaving out a key is writing its default. */
  lemma DefaultsMayBeLeftOut(fields: map<string, Json>, key: string, default: Json)
    requires key !in fields
    requires || (key == "operator" && default == JStr("exact"))
             || (key == "negate" && default == JBool(false))
             || (key == "window" && default == JNull)
             || (key == "per" && default == JArr([]))
    ensures ValidLeaf(fields[key := default]) == ValidLeaf(fields)
    ensures ValidLeaf(fields) ==> ReadLeaf(fields[key := default]) == ReadLeaf(fields)
  {
    var more := fields[key := default];
    assert forall k, d :: k != key ==> Get(more, k, d) == Get(fields, k, d);
    assert Get(more, key, default) == Get(fields, key, default);
  }
}
