/** The per-worker cache of active rules: src/ttllm/services/rules_service.py. */
module RulesCache {
  import opened Model
  import opened Rules
  import RulesConvert

  /** A row of the rules table. */
  datatype Stored = Stored(name: string, weight: int, enabled: bool, conditions: Json, action: Json)

  type Table = seq<Stored>

  /** Whether `_convert_action_dict` accepts an action. */
  predicate ValidAction(action: Json) {
    && action.JObj? && "type" in action.fields && action.fields["type"].JStr?
    && var kind := action.fields["type"].s;
       || kind == "allow"
       || kind == "block"
       || (kind == "reroute" && "target" in action.fields)
       || (kind == "rewrite" && "pattern" in action.fields && "replacement" in action.fields)
  }

  /** `_db_rule_to_core`; None when it raises. */
  function CoreRule(row: Stored): Option<Rule> {
    if RulesConvert.ValidGroup(row.conditions) && ValidAction(row.action)
    then Some(Rule(row.name, row.weight, RulesConvert.Convert(row.conditions), row.action, row.enabled))
    else None
  }

  /** The convertible rows, in order. */
  function CoreRules(rows: Table): seq<Rule> {
    if rows == [] then []
    else Listed(CoreRule(rows[0])) + CoreRules(rows[1..])
  }

  function Listed(rule: Option<Rule>): seq<Rule> {
    match rule
    case None => []
    case Some(r) => [r]
  }

  function EnabledRows(table: Table): Table {
    if table == [] then []
    else (if table[0].enabled then [table[0]] else []) + EnabledRows(table[1..])
  }

  /** An answer to the query: the enabled rows by descending weight. SQL leaves the order of
      rows of one weight open. */
  ghost predicate Answers(rows: Table, table: Table) {
    && multiset(rows) == multiset(EnabledRows(table))
    && forall i, j :: 0 <= i < j < |rows| ==> rows[i].weight >= rows[j].weight
  }

  /** The enabled convertible rules of a table, by descending weight. */
  ghost predicate AreActive(rules: seq<Rule>, table: Table) {
    exists rows :: Answers(rows, table) && rules == CoreRules(rows)
  }

  // --- One worker ---

  /** `_rules_cache` and `_cache_loaded_at`. */
  datatype Cache = Cache(rules: seq<Rule>, loadedAt: Option<int>)

  const EMPTY_CACHE := Cache([], None)

  predicate IsStale(cache: Cache, now: int, ttl: int) {
    cache.loadedAt.None? || now - cache.loadedAt.value >= ttl
  }

  function Refreshed(cache: Cache, rows: Table, now: int, ttl: int): Cache {
    if IsStale(cache, now, ttl) then Cache(CoreRules(rows), Some(now)) else cache
  }

  /** The loop has listed the rows before i. */
  ghost predicate ListedUpTo(rows: Table, i: nat, core: seq<Rule>) {
    i <= |rows| && core + CoreRules(rows[i..]) == CoreRules(rows)
  }

  lemma ListNext(rows: Table, i: nat, core: seq<Rule>, rule: Option<Rule>)
    requires i < |rows| && ListedUpTo(rows, i, core) && rule == CoreRule(rows[i])
    ensures ListedUpTo(rows, i + 1, core + Listed(rule))
  {
    var rest := CoreRules(rows[i + 1..]);
    assert rows[i..][0] == rows[i] && rows[i..][1..] == rows[i + 1..];
    assert core + (Listed(rule) + rest) == (core + Listed(rule)) + rest;
  }

  /** The loop over the query's answer; a row that does not convert is skipped. */
  method ConvertRows(rows: Table) returns (core: seq<Rule>)
    ensures core == CoreRules(rows)
  {
    core := [];
    var i := 0;
    assert rows[0..] == rows;
    while i < |rows|
      invariant ListedUpTo(rows, i, core)
    {
      var converted := CoreRule(rows[i]);
      ListNext(rows, i, core, converted);
      assert core + Listed(None) == core;
      if converted.Some? {
        core := core + [converted.value];
      }
      i := i + 1;
    }
    assert rows[i..] == [];
  }

  /** The module's globals and the functions that change them. `rows` stands for what the
      query would answer and `now` for time.monotonic(), while the function runs. */
  class CacheModule {
    var rules: seq<Rule>
    var loadedAt: Option<int>

    ghost function View(): Cache
      reads this
    {
      Cache(rules, loadedAt)
    }

    constructor ()
      ensures View() == EMPTY_CACHE
    {
      rules, loadedAt := [], None;
    }

    method IsStaleNow(now: int, ttl: int) returns (stale: bool)
      ensures stale == IsStale(View(), now, ttl)
    {
      if loadedAt.None? {
        return true;
      }
      return now - loadedAt.value >= ttl;
    }

    /** `refresh_rules_cache`, once it holds the lock. */
    method Refresh(rows: Table, now: int, ttl: int)
      modifies this
      ensures View() == Refreshed(old(View()), rows, now, ttl)
    {
      var stale := IsStaleNow(now, ttl);
      if !stale {
        return;
      }
      var core := ConvertRows(rows);
      rules, loadedAt := core, Some(now);
    }

    /** `get_active_rules` with nobody else running. */
    method GetActiveRules(rows: Table, now: int, ttl: int) returns (active: seq<Rule>)
      modifies this
      ensures View() == Refreshed(old(View()), rows, now, ttl)
      ensures active == View().rules
    {
      var stale := IsStaleNow(now, ttl);
      if stale {
        Refresh(rows, now, ttl);
      }
      active := rules;
    }

    /** `invalidate_rules_cache` */
    method Invalidate()
      modifies this
      ensures View() == EMPTY_CACHE
    {
      rules, loadedAt := [], None;
    }
  }

  // --- Several workers and one database ---

  /** A committed state of the table. */
  datatype Commit = Commit(table: Table, at: int)

  /** What a query has read: rules, from which commit, and when. */
  datatype Reading = Reading(rules: seq<Rule>, version: nat, at: int)

  /** A worker: its cache and the reading it holds, the commits it has made without having
      invalidated its cache yet, how many of its requests have seen a stale cache and wait for
      the lock, and the reading of the request that has the lock, which it still has to put
      into the cache: other requests and writes go on while a query is awaited. */
  datatype Worker = Worker(
    cache: Cache, source: nat, readAt: int, unfinished: set<nat>, waiting: nat, loading: Option<Reading>)

  /** `overtaken` says that a load of the same worker was under way when the write was finished,
      and that it had read the table before the write was committed. */
  datatype Event =
    | Loaded(worker: nat, at: int)
    | Wrote(worker: nat, version: nat, overtaken: bool)
    | Served(worker: nat, rules: seq<Rule>, version: nat, readAt: int, loadedAt: int, at: int)

  datatype State = State(db: seq<Commit>, workers: seq<Worker>, now: int, log: seq<Event>)

  /** A request that gets the lock reads the table if the cache is stale, and a later step
      installs what it read. */
  datatype Action =
    | Tick(elapsed: nat)
    | CommitWrite(worker: nat, table: Table)
    | FinishWrite(worker: nat, version: nat)
    | Ask(worker: nat)
    | Enter(worker: nat, rules: seq<Rule>)
    | Install(worker: nat)

  /** Work is done by a worker that exists. A request that gets the lock also gets what a query
      would give it, to use if it finds the cache stale. */
  ghost predicate Enabled(s: State, a: Action) {
    match a
    case Tick(_) => true
    case CommitWrite(w, _) => w < |s.workers|
    case FinishWrite(w, v) => w < |s.workers| && v in s.workers[w].unfinished
    case Ask(w) => w < |s.workers|
    case Enter(w, rules) =>
      && w < |s.workers| && s.workers[w].waiting > 0 && s.workers[w].loading.None?
      && s.db != [] && AreActive(rules, s.db[|s.db| - 1].table)
    case Install(w) => w < |s.workers| && s.workers[w].loading.Some?
  }

  /** A worker's unfinished writes, waiting requests and load change, and nothing else. */
  function Booked(s: State, w: nat, unfinished: set<nat>, waiting: nat, loading: Option<Reading>): State
    requires w < |s.workers|
  {
    s.(workers := s.workers[w := s.workers[w].(unfinished := unfinished, waiting := waiting, loading := loading)])
  }

  function Committed(s: State, table: Table): State {
    s.(db := s.db + [Commit(table, s.now)])
  }

  /** The load under way at the worker, if any, read the table before the write was committed. */
  predicate IsOvertaken(s: State, w: nat, v: nat)
    requires w < |s.workers|
  {
    s.workers[w].loading.Some? && s.workers[w].loading.value.version < v
  }

  function Finished(s: State, w: nat, v: nat): State
    requires w < |s.workers|
  {
    s.(workers := s.workers[w := s.workers[w].(cache := EMPTY_CACHE, unfinished := s.workers[w].unfinished - {v})],
       log := s.log + [Wrote(w, v, IsOvertaken(s, w, v))])
  }

  function Serve(s: State, w: nat): State
    requires w < |s.workers|
  {
    var worker := s.workers[w];
    s.(log := s.log + [Served(w, worker.cache.rules, worker.source, worker.readAt,
                              worker.cache.loadedAt.GetOr(s.now), s.now)])
  }

  /** What was read goes into the cache, stamped with the time of that. */
  function Installed(s: State, w: nat): State
    requires w < |s.workers| && s.workers[w].loading.Some?
  {
    var reading := s.workers[w].loading.value;
    s.(workers := s.workers[w := s.workers[w].(cache := Cache(reading.rules, Some(s.now)), source := reading.version,
                                               readAt := reading.at, loading := None)],
       log := s.log + [Loaded(w, s.now)])
  }

  ghost function Next(s: State, a: Action, ttl: int): State
    requires Enabled(s, a)
  {
    match a
    case Tick(elapsed) => s.(now := s.now + elapsed)
    case CommitWrite(w, table) =>
      var worker := s.workers[w];
      Booked(Committed(s, table), w, worker.unfinished + {|s.db|}, worker.waiting, worker.loading)
    case FinishWrite(w, v) =>
      Finished(s, w, v)
    case Ask(w) =>
      var worker := s.workers[w];
      if IsStale(worker.cache, s.now, ttl)
      then Booked(s, w, worker.unfinished, worker.waiting + 1, worker.loading)
      else Serve(s, w)
    case Enter(w, rules) =>
      var worker := s.workers[w];
      if IsStale(worker.cache, s.now, ttl)
      then Booked(s, w, worker.unfinished, worker.waiting - 1, Some(Reading(rules, |s.db| - 1, s.now)))
      else Serve(Booked(s, w, worker.unfinished, worker.waiting - 1, None), w)
    case Install(w) =>
      Serve(Installed(s, w), w)
  }

  /** A request that gets the lock, and at once installs what it has read, if anything. */
  ghost function Load(s: State, w: nat, rules: seq<Rule>, ttl: int): State
    requires Enabled(s, Enter(w, rules))
  {
    var entered := Next(s, Enter(w, rules), ttl);
    if IsStale(s.workers[w].cache, s.now, ttl) then Next(entered, Install(w), ttl) else entered
  }

  lemma LoadAnswers(s: State, w: nat, rules: seq<Rule>, ttl: int)
    requires Enabled(s, Enter(w, rules))
    ensures var after := Load(s, w, rules, ttl);
            && after.workers[w].cache
               == (if IsStale(s.workers[w].cache, s.now, ttl) then Cache(rules, Some(s.now)) else s.workers[w].cache)
            && after.log != [] && after.log[|after.log| - 1].Served?
            && after.log[|after.log| - 1].rules == after.workers[w].cache.rules
  {
  }

  /** A load that nothing comes between is what `refresh_rules_cache` does to the worker's
      globals, and the answer is what they then hold. */
  lemma LoadRefreshes(s: State, w: nat, rows: Table, ttl: int)
    requires w < |s.workers| && s.workers[w].waiting > 0 && s.workers[w].loading.None?
    requires s.db != [] && Answers(rows, s.db[|s.db| - 1].table)
    ensures Enabled(s, Enter(w, CoreRules(rows)))
    ensures var after := Load(s, w, CoreRules(rows), ttl);
            && after.workers[w].cache == Refreshed(s.workers[w].cache, rows, s.now, ttl)
            && after.log != [] && after.log[|after.log| - 1].Served?
            && after.log[|after.log| - 1].rules == after.workers[w].cache.rules
  {
    assert AreActive(CoreRules(rows), s.db[|s.db| - 1].table);
    LoadAnswers(s, w, CoreRules(rows), ttl);
  }

  /** A database with one state and workers that have loaded nothing. */
  predicate IsInitial(s: State) {
    && |s.db| == 1 && s.db[0].at <= s.now && s.log == []
    && forall w :: 0 <= w < |s.workers| ==> s.workers[w] == Worker(EMPTY_CACHE, 0, s.now, {}, 0, None)
  }

  ghost predicate IsPath(states: seq<State>, actions: seq<Action>, ttl: int) {
    && |states| == |actions| + 1
    && forall i :: 0 <= i < |actions| ==>
         Enabled(states[i], actions[i]) && states[i + 1] == Next(states[i], actions[i], ttl)
  }

  ghost predicate IsRun(states: seq<State>, actions: seq<Action>, ttl: int) {
    IsPath(states, actions, ttl) && IsInitial(states[0])
  }

  // --- Invariants ---

  /** A commit was the current state of the table at some instant. */
  predicate CurrentAt(db: seq<Commit>, version: nat, at: int) {
    version < |db| && db[version].at <= at && (version + 1 < |db| ==> at <= db[version + 1].at)
  }

  ghost predicate DbInv(s: State) {
    && s.db != [] && s.db[|s.db| - 1].at <= s.now
    && forall i, j :: 0 <= i < j < |s.db| ==> s.db[i].at <= s.db[j].at
  }

  /** Cache and reading are each the rules of one commit, and the reading is the newer one. */
  ghost predicate CacheInv(s: State, w: nat, ttl: int)
    requires w < |s.workers|
  {
    var worker := s.workers[w];
    && (worker.cache.loadedAt.Some? ==>
          && worker.readAt <= worker.cache.loadedAt.value <= s.now
          && CurrentAt(s.db, worker.source, worker.readAt)
          && AreActive(worker.cache.rules, s.db[worker.source].table))
    && (worker.loading.Some? ==>
          && worker.loading.value.at <= s.now
          && CurrentAt(s.db, worker.loading.value.version, worker.loading.value.at)
          && AreActive(worker.loading.value.rules, s.db[worker.loading.value.version].table)
          && IsStale(worker.cache, s.now, ttl))
    && NothingOlderThan(worker, if worker.cache.loadedAt.Some? then worker.source else 0)
    && (forall v :: v in worker.unfinished ==> v < |s.db|)
  }

  /** What the worker can serve from now on is of this commit or a later one. */
  predicate NothingOlderThan(worker: Worker, version: nat) {
    && (worker.cache.loadedAt.Some? ==> worker.source >= version)
    && (worker.loading.Some? ==> worker.loading.value.version >= version)
  }

  /** What a worker has done binds what it can serve from now on; a write does unless a
      load under way had read the table before it. */
  ghost predicate EventInv(s: State, e: Event, ttl: int) {
    match e
    case Loaded(_, at) => at <= s.now
    case Wrote(w, v, overtaken) => v < |s.db| && (!overtaken && w < |s.workers| ==> NothingOlderThan(s.workers[w], v))
    case Served(w, rules, v, readAt, loadedAt, at) =>
      && CurrentAt(s.db, v, readAt) && AreActive(rules, s.db[v].table)
      && readAt <= loadedAt <= at <= s.now && (at - loadedAt < ttl || loadedAt == at)
      && (w < |s.workers| ==> NothingOlderThan(s.workers[w], v))
  }

  /** No write finishes on a worker between two events. */
  ghost predicate NoWriteBetween(log: seq<Event>, w: nat, from: int, to: int) {
    forall k :: 0 <= k < |log| && from < k < to ==> !(log[k].Wrote? && log[k].worker == w)
  }

  /** What an event demands of a later one. */
  ghost predicate InOrder(log: seq<Event>, i: nat, j: nat, ttl: int)
    requires i < j < |log|
  {
    match (log[i], log[j])
    case (Loaded(w, at), Loaded(w', at')) => w == w' && NoWriteBetween(log, w, i, j) ==> at' - at >= ttl
    case (Wrote(w, v, overtaken), Served(w', _, u, _, _, _)) => w == w' && !overtaken ==> v <= u
    case (Served(w, _, u, _, _, _), Served(w', _, u', _, _, _)) => w == w' ==> u <= u'
    case _ => true
  }

  ghost predicate LogInOrder(log: seq<Event>, ttl: int) {
    forall i, j :: 0 <= i < j < |log| ==> InOrder(log, i, j, ttl)
  }

  /** A load that no write has followed is still in the cache, or a later one is. */
  ghost predicate TailInv(s: State) {
    forall i :: 0 <= i < |s.log| && s.log[i].Loaded? && s.log[i].worker < |s.workers|
                && NoWriteBetween(s.log, s.log[i].worker, i, |s.log|) ==>
      && s.workers[s.log[i].worker].cache.loadedAt.Some?
      && s.workers[s.log[i].worker].cache.loadedAt.value >= s.log[i].at
  }

  ghost predicate Inv(s: State, ttl: int) {
    && DbInv(s)
    && (forall w :: 0 <= w < |s.workers| ==> CacheInv(s, w, ttl))
    && (forall i :: 0 <= i < |s.log| ==> EventInv(s, s.log[i], ttl))
    && LogInOrder(s.log, ttl)
    && TailInv(s)
  }

  lemma LongerLogInOrder(log: seq<Event>, e: Event, ttl: int)
    requires LogInOrder(log, ttl)
    requires forall i :: 0 <= i < |log| ==> InOrder(log + [e], i, |log|, ttl)
    ensures LogInOrder(log + [e], ttl)
  {
    var longer := log + [e];
    forall i, j | 0 <= i < j < |log| ensures InOrder(longer, i, j, ttl) {
      assert InOrder(log, i, j, ttl);
      if NoWriteBetween(longer, log[i].worker, i, j) {
        forall k | 0 <= k < |log| && i < k < j ensures !(log[k].Wrote? && log[k].worker == log[i].worker) {
          assert longer[k] == log[k];
        }
      }
    }
  }

  /** The tail of the log after one more event; the worker of a write drops out of it. */
  lemma TailStep(s: State, t: State, e: Event)
    requires TailInv(s) && t.log == s.log + [e] && |t.workers| == |s.workers|
    requires forall w :: 0 <= w < |s.workers| && !(e.Wrote? && e.worker == w) && s.workers[w].cache.loadedAt.Some? ==>
               && t.workers[w].cache.loadedAt.Some?
               && t.workers[w].cache.loadedAt.value >= s.workers[w].cache.loadedAt.value
    requires e.Loaded? && e.worker < |t.workers| ==>
               t.workers[e.worker].cache.loadedAt.Some? && t.workers[e.worker].cache.loadedAt.value >= e.at
    ensures TailInv(t)
  {
    forall i | 0 <= i < |t.log| && t.log[i].Loaded? && t.log[i].worker < |t.workers|
               && NoWriteBetween(t.log, t.log[i].worker, i, |t.log|)
      ensures t.workers[t.log[i].worker].cache.loadedAt.Some?
      ensures t.workers[t.log[i].worker].cache.loadedAt.value >= t.log[i].at
    {
      if i < |s.log| {
        var w := s.log[i].worker;
        assert t.log[|s.log|] == e;
        forall k | 0 <= k < |s.log| && i < k ensures !(s.log[k].Wrote? && s.log[k].worker == w) {
          assert t.log[k] == s.log[k];
        }
        assert NoWriteBetween(s.log, w, i, |s.log|);
      }
    }
  }

  // --- Steps ---

  lemma TickKeeps(s: State, elapsed: nat, ttl: int)
    requires Inv(s, ttl)
    ensures Inv(s.(now := s.now + elapsed), ttl)
  {
    var t := s.(now := s.now + elapsed);
    forall w | 0 <= w < |t.workers| ensures CacheInv(t, w, ttl) {
      assert CacheInv(s, w, ttl);
    }
    forall i | 0 <= i < |t.log| ensures EventInv(t, t.log[i], ttl) {
      assert EventInv(s, s.log[i], ttl);
    }
  }

  lemma CommitKeepsCache(s: State, table: Table, w: nat, ttl: int)
    requires DbInv(s) && w < |s.workers| && CacheInv(s, w, ttl)
    ensures CacheInv(Committed(s, table), w, ttl)
  {
  }

  lemma CommitKeepsEvent(s: State, table: Table, e: Event, ttl: int)
    requires DbInv(s) && EventInv(s, e, ttl)
    ensures EventInv(Committed(s, table), e, ttl)
  {
  }

  lemma CommitKeeps(s: State, table: Table, ttl: int)
    requires Inv(s, ttl)
    ensures Inv(Committed(s, table), ttl)
  {
    var t := Committed(s, table);
    forall w | 0 <= w < |t.workers| ensures CacheInv(t, w, ttl) {
      CommitKeepsCache(s, table, w, ttl);
    }
    forall i | 0 <= i < |t.log| ensures EventInv(t, t.log[i], ttl) {
      CommitKeepsEvent(s, table, s.log[i], ttl);
    }
  }

  /** A load goes on, ends, or begins with the newest commit. */
  ghost predicate MayLoad(s: State, w: nat, loading: Option<Reading>, ttl: int)
    requires w < |s.workers| && s.db != []
  {
    || loading == s.workers[w].loading
    || loading.None?
    || (&& IsStale(s.workers[w].cache, s.now, ttl)
        && loading.value.version == |s.db| - 1 && loading.value.at == s.now
        && AreActive(loading.value.rules, s.db[|s.db| - 1].table))
  }

  lemma BookkeepingKeepsCache(s: State, w: nat, unfinished: set<nat>, waiting: nat, loading: Option<Reading>, ttl: int)
    requires DbInv(s) && w < |s.workers| && CacheInv(s, w, ttl) && MayLoad(s, w, loading, ttl)
    requires forall v :: v in unfinished ==> v < |s.db|
    ensures CacheInv(Booked(s, w, unfinished, waiting, loading), w, ttl)
  {
  }

  lemma BookkeepingKeepsEvent(s: State, w: nat, unfinished: set<nat>, waiting: nat, loading: Option<Reading>,
                              e: Event, ttl: int)
    requires DbInv(s) && w < |s.workers| && EventInv(s, e, ttl) && MayLoad(s, w, loading, ttl)
    ensures EventInv(Booked(s, w, unfinished, waiting, loading), e, ttl)
  {
  }

  /** Bookkeeping that leaves the cache alone. */
  lemma BookkeepingKeeps(s: State, w: nat, unfinished: set<nat>, waiting: nat, loading: Option<Reading>, ttl: int)
    requires Inv(s, ttl) && w < |s.workers| && MayLoad(s, w, loading, ttl)
    requires forall v :: v in unfinished ==> v < |s.db|
    ensures Inv(Booked(s, w, unfinished, waiting, loading), ttl)
  {
    var t := Booked(s, w, unfinished, waiting, loading);
    forall x | 0 <= x < |t.workers| ensures CacheInv(t, x, ttl) {
      assert CacheInv(s, x, ttl);
      if x == w {
        BookkeepingKeepsCache(s, w, unfinished, waiting, loading, ttl);
      }
    }
    forall i | 0 <= i < |t.log| ensures EventInv(t, t.log[i], ttl) {
      BookkeepingKeepsEvent(s, w, unfinished, waiting, loading, s.log[i], ttl);
    }
  }

  lemma FinishKeepsCache(s: State, w: nat, v: nat, x: nat, ttl: int)
    requires w < |s.workers| && x < |s.workers| && CacheInv(s, x, ttl)
    ensures CacheInv(Finished(s, w, v), x, ttl)
  {
  }

  lemma FinishKeepsEvent(s: State, w: nat, v: nat, e: Event, ttl: int)
    requires w < |s.workers| && EventInv(s, e, ttl)
    ensures EventInv(Finished(s, w, v), e, ttl)
  {
  }

  lemma FinishKeeps(s: State, w: nat, v: nat, ttl: int)
    requires Inv(s, ttl) && w < |s.workers| && v in s.workers[w].unfinished
    ensures Inv(Finished(s, w, v), ttl)
  {
    var t := Finished(s, w, v);
    var e := t.log[|s.log|];
    assert CacheInv(s, w, ttl);
    assert EventInv(t, e, ttl);
    forall x | 0 <= x < |t.workers| ensures CacheInv(t, x, ttl) {
      FinishKeepsCache(s, w, v, x, ttl);
    }
    forall i | 0 <= i < |t.log| ensures EventInv(t, t.log[i], ttl) {
      if i < |s.log| {
        FinishKeepsEvent(s, w, v, s.log[i], ttl);
      }
    }
    LongerLogInOrder(s.log, e, ttl);
    TailStep(s, t, e);
  }

  lemma ServeKeepsOrder(s: State, w: nat, ttl: int)
    requires Inv(s, ttl) && w < |s.workers| && s.workers[w].cache.loadedAt.Some?
    ensures LogInOrder(Serve(s, w).log, ttl)
  {
    var e := Serve(s, w).log[|s.log|];
    forall i | 0 <= i < |s.log| ensures InOrder(s.log + [e], i, |s.log|, ttl) {
      assert EventInv(s, s.log[i], ttl);
    }
    LongerLogInOrder(s.log, e, ttl);
  }

  lemma ServeKeeps(s: State, w: nat, ttl: int)
    requires Inv(s, ttl) && w < |s.workers| && s.workers[w].cache.loadedAt.Some?
    requires !IsStale(s.workers[w].cache, s.now, ttl) || s.workers[w].cache.loadedAt.value == s.now
    ensures Inv(Serve(s, w), ttl)
  {
    var t := Serve(s, w);
    assert CacheInv(s, w, ttl);
    forall x | 0 <= x < |t.workers| ensures CacheInv(t, x, ttl) {
      assert CacheInv(s, x, ttl);
    }
    forall i | 0 <= i < |t.log| ensures EventInv(t, t.log[i], ttl) {
      assert i < |s.log| ==> EventInv(s, s.log[i], ttl);
    }
    ServeKeepsOrder(s, w, ttl);
    TailStep(s, t, t.log[|s.log|]);
  }

  /** A cache that is stale was loaded at least the TTL ago. */
  lemma InstallKeepsOrder(s: State, w: nat, ttl: int)
    requires LogInOrder(s.log, ttl) && TailInv(s) && w < |s.workers| && IsStale(s.workers[w].cache, s.now, ttl)
    ensures LogInOrder(s.log + [Loaded(w, s.now)], ttl)
  {
    var e := Loaded(w, s.now);
    var longer := s.log + [e];
    forall i | 0 <= i < |s.log| ensures InOrder(longer, i, |s.log|, ttl) {
      if s.log[i].Loaded? && s.log[i].worker == w && NoWriteBetween(longer, w, i, |s.log|) {
        forall k | 0 <= k < |s.log| && i < k ensures !(s.log[k].Wrote? && s.log[k].worker == w) {
          assert longer[k] == s.log[k];
        }
        assert NoWriteBetween(s.log, w, i, |s.log|);
      }
    }
    LongerLogInOrder(s.log, e, ttl);
  }

  lemma InstallKeepsEvent(s: State, w: nat, e: Event, ttl: int)
    requires w < |s.workers| && s.workers[w].loading.Some? && EventInv(s, e, ttl)
    ensures EventInv(Installed(s, w), e, ttl)
  {
  }

  lemma InstallKeeps(s: State, w: nat, ttl: int)
    requires Inv(s, ttl) && w < |s.workers| && s.workers[w].loading.Some?
    ensures Inv(Installed(s, w), ttl)
  {
    var t := Installed(s, w);
    assert CacheInv(s, w, ttl);
    forall x | 0 <= x < |t.workers| ensures CacheInv(t, x, ttl) {
      assert CacheInv(s, x, ttl);
    }
    forall i | 0 <= i < |t.log| ensures EventInv(t, t.log[i], ttl) {
      if i < |s.log| {
        InstallKeepsEvent(s, w, s.log[i], ttl);
      }
    }
    InstallKeepsOrder(s, w, ttl);
    TailStep(s, t, Loaded(w, s.now));
  }

  lemma CommitWriteKeeps(s: State, w: nat, table: Table, ttl: int)
    requires Inv(s, ttl) && w < |s.workers|
    ensures Inv(Next(s, CommitWrite(w, table), ttl), ttl)
  {
    assert CacheInv(s, w, ttl);
    CommitKeeps(s, table, ttl);
    BookkeepingKeeps(Committed(s, table), w, s.workers[w].unfinished + {|s.db|}, s.workers[w].waiting,
                     s.workers[w].loading, ttl);
  }

  lemma AskKeeps(s: State, w: nat, ttl: int)
    requires Inv(s, ttl) && w < |s.workers|
    ensures Inv(Next(s, Ask(w), ttl), ttl)
  {
    assert CacheInv(s, w, ttl);
    if IsStale(s.workers[w].cache, s.now, ttl) {
      BookkeepingKeeps(s, w, s.workers[w].unfinished, s.workers[w].waiting + 1, s.workers[w].loading, ttl);
    } else {
      ServeKeeps(s, w, ttl);
    }
  }

  lemma EnterKeeps(s: State, w: nat, rules: seq<Rule>, ttl: int)
    requires Inv(s, ttl) && Enabled(s, Enter(w, rules))
    ensures Inv(Next(s, Enter(w, rules), ttl), ttl)
  {
    assert CacheInv(s, w, ttl);
    var worker := s.workers[w];
    if IsStale(worker.cache, s.now, ttl) {
      BookkeepingKeeps(s, w, worker.unfinished, worker.waiting - 1, Some(Reading(rules, |s.db| - 1, s.now)), ttl);
    } else {
      BookkeepingKeeps(s, w, worker.unfinished, worker.waiting - 1, None, ttl);
      ServeKeeps(Booked(s, w, worker.unfinished, worker.waiting - 1, None), w, ttl);
    }
  }

  lemma StepKeeps(s: State, a: Action, ttl: int)
    requires Inv(s, ttl) && Enabled(s, a)
    ensures Inv(Next(s, a, ttl), ttl)
  {
    match a {
      case Tick(elapsed) => TickKeeps(s, elapsed, ttl);
      case CommitWrite(w, table) => CommitWriteKeeps(s, w, table, ttl);
      case FinishWrite(w, v) => FinishKeeps(s, w, v, ttl);
      case Ask(w) => AskKeeps(s, w, ttl);
      case Enter(w, rules) => EnterKeeps(s, w, rules, ttl);
      case Install(w) =>
        InstallKeeps(s, w, ttl);
        ServeKeeps(Installed(s, w), w, ttl);
    }
  }

  /** The invariants stay, and so does what has been logged. */
  lemma {:induction false} PathKeeps(states: seq<State>, actions: seq<Action>, ttl: int, n: nat)
    requires IsPath(states, actions, ttl) && n < |states| && Inv(states[0], ttl)
    ensures Inv(states[n], ttl) && |states[n].workers| == |states[0].workers|
    ensures states[0].log <= states[n].log
  {
    if n > 0 {
      PathKeeps(states, actions, ttl, n - 1);
      StepKeeps(states[n - 1], actions[n - 1], ttl);
      assert states[n - 1 + 1] == Next(states[n - 1], actions[n - 1], ttl);
    }
  }

  lemma RunKeeps(states: seq<State>, actions: seq<Action>, ttl: int, n: nat)
    requires IsRun(states, actions, ttl) && n < |states|
    ensures Inv(states[n], ttl)
  {
    PathKeeps(states, actions, ttl, n);
  }

  // --- What holds of every run ---

  /** Every answer is the enabled convertible rules of one committed state of the table, current
      when it was read, and it was put into the cache less than the TTL ago, or just now. */
  lemma ServesOneRecentState(states: seq<State>, actions: seq<Action>, ttl: int, n: nat, i: nat)
    requires IsRun(states, actions, ttl) && n < |states| && i < |states[n].log| && states[n].log[i].Served?
    ensures var e := states[n].log[i];
            && CurrentAt(states[n].db, e.version, e.readAt) && AreActive(e.rules, states[n].db[e.version].table)
            && e.readAt <= e.loadedAt && (e.at - ttl < e.loadedAt <= e.at || e.loadedAt == e.at)
  {
    RunKeeps(states, actions, ttl, n);
    assert EventInv(states[n], states[n].log[i], ttl);
  }

  /** A worker that has finished a write serves nothing older from then on, unless a load under
      way had read the table before the write; and no worker ever goes back to a state older
      than one it served. */
  lemma NeverGoesBack(states: seq<State>, actions: seq<Action>, ttl: int, n: nat, i: nat, j: nat)
    requires IsRun(states, actions, ttl) && n < |states| && i < j < |states[n].log|
    requires states[n].log[i].Wrote? || states[n].log[i].Served?
    requires states[n].log[i].Wrote? ==> !states[n].log[i].overtaken
    requires states[n].log[j].Served? && states[n].log[i].worker == states[n].log[j].worker
    ensures states[n].log[i].version <= states[n].log[j].version
  {
    RunKeeps(states, actions, ttl, n);
    assert InOrder(states[n].log, i, j, ttl);
  }

  /** Among the later events the worker serves a state older than the version. */
  predicate ServesOlder(log: seq<Event>, since: nat, w: nat, v: nat) {
    exists j :: since <= j < |log| && log[j].Served? && log[j].worker == w && log[j].version < v
  }

  /** Going on from a state in some way, the worker comes to serve one older than the version. */
  ghost predicate CanServeOlder(s: State, w: nat, v: nat, ttl: int) {
    exists states: seq<State>, actions ::
      && IsPath(states, actions, ttl) && states[0] == s
      && ServesOlder(states[|actions|].log, |s.log|, w, v)
  }

  lemma OvertakenServesOlder(s: State, w: nat, v: nat, ttl: int)
    requires Enabled(s, FinishWrite(w, v)) && IsOvertaken(s, w, v)
    ensures CanServeOlder(Next(s, FinishWrite(w, v), ttl), w, v, ttl)
  {
    var finished := Next(s, FinishWrite(w, v), ttl);
    var installed := Next(finished, Install(w), ttl);
    assert installed.log[|finished.log| + 1].Served?;
    assert IsPath([finished, installed], [Install(w)], ttl);
  }

  lemma OthersServeNothingOlder(s: State, w: nat, v: nat, ttl: int)
    requires Inv(s, ttl) && Enabled(s, FinishWrite(w, v)) && !IsOvertaken(s, w, v)
    ensures !CanServeOlder(Next(s, FinishWrite(w, v), ttl), w, v, ttl)
  {
    var finished := Next(s, FinishWrite(w, v), ttl);
    StepKeeps(s, FinishWrite(w, v), ttl);
    forall states: seq<State>, actions | IsPath(states, actions, ttl) && states[0] == finished
      ensures !ServesOlder(states[|actions|].log, |finished.log|, w, v)
    {
      PathKeeps(states, actions, ttl, |actions|);
      var log := states[|actions|].log;
      assert log[|s.log|] == Wrote(w, v, false);
      forall j | |finished.log| <= j < |log| && log[j].Served? && log[j].worker == w ensures v <= log[j].version {
        assert InOrder(log, |s.log|, j, ttl);
      }
    }
  }

  /** In every reachable state: a worker that finishes a write can come to serve an older state if
      and only if a load of its own under way read the table before the write was committed. */
  lemma OlderExactlyWhenOvertaken(states: seq<State>, actions: seq<Action>, ttl: int, w: nat, v: nat)
    requires IsRun(states, actions, ttl) && Enabled(states[|actions|], FinishWrite(w, v))
    ensures CanServeOlder(Next(states[|actions|], FinishWrite(w, v), ttl), w, v, ttl)
            <==> IsOvertaken(states[|actions|], w, v)
  {
    RunKeeps(states, actions, ttl, |actions|);
    if IsOvertaken(states[|actions|], w, v) {
      OvertakenServesOlder(states[|actions|], w, v, ttl);
    } else {
      OthersServeNothingOlder(states[|actions|], w, v, ttl);
    }
  }

  /** A worker asked some time after it installed what such a load had read: it serves the older
      state until the TTL is over, and after that loads again. */
  lemma OvertakenForTheTtl(s: State, w: nat, v: nat, elapsed: nat, ttl: int)
    requires Enabled(s, FinishWrite(w, v)) && IsOvertaken(s, w, v)
    ensures var installed := Next(Next(s, FinishWrite(w, v), ttl), Install(w), ttl);
            var asked := Next(Next(installed, Tick(elapsed), ttl), Ask(w), ttl);
            && (ServesOlder(asked.log, |installed.log|, w, v) <==> elapsed < ttl)
            && (elapsed >= ttl ==> asked.workers[w].waiting > 0)
  {
    var installed := Next(Next(s, FinishWrite(w, v), ttl), Install(w), ttl);
    var asked := Next(Next(installed, Tick(elapsed), ttl), Ask(w), ttl);
    if elapsed < ttl {
      assert asked.log[|installed.log|].Served?;
    }
  }

  /** Two loads of one worker with no write finished between them are at least the TTL apart. */
  lemma LoadsAreApart(states: seq<State>, actions: seq<Action>, ttl: int, n: nat, i: nat, j: nat)
    requires IsRun(states, actions, ttl) && n < |states| && i < j < |states[n].log|
    requires states[n].log[i].Loaded? && states[n].log[j].Loaded? && states[n].log[i].worker == states[n].log[j].worker
    requires NoWriteBetween(states[n].log, states[n].log[i].worker, i, j)
    ensures states[n].log[j].at - states[n].log[i].at >= ttl
  {
    RunKeeps(states, actions, ttl, n);
    assert InOrder(states[n].log, i, j, ttl);
  }

  /** Within the TTL and the duration of its last load every worker has picked up a change,
      whoever made it and whatever was under way. */
  lemma PickedUpWithinTtl(states: seq<State>, actions: seq<Action>, ttl: int, n: nat, version: nat, i: nat)
    requires IsRun(states, actions, ttl) && n < |states| && 0 < ttl
    requires version < |states[n].db| && i < |states[n].log| && states[n].log[i].Served?
    requires var e := states[n].log[i]; e.at >= states[n].db[version].at + ttl + (e.loadedAt - e.readAt)
    ensures states[n].log[i].version >= version
  {
    RunKeeps(states, actions, ttl, n);
    var e := states[n].log[i];
    assert EventInv(states[n], e, ttl);
  }

  /** For example: a load reads the table before a write is committed and is under way when the
      write is finished; for any table written, the worker then serves the state before it. */
  lemma LoadUnderWayMissesTheWrite(table: Table, ttl: int) returns (states: seq<State>, actions: seq<Action>)
    ensures IsRun(states, actions, ttl) && |states| == 6
    ensures states[5].log == [Wrote(0, 1, true), Loaded(0, 0), Served(0, [], 0, 0, 0, 0)]
    ensures |states[5].db| == 2 && states[5].db[1].table == table
  {
    var start := State([Commit([], 0)], [Worker(EMPTY_CACHE, 0, 0, {}, 0, None)], 0, []);
    assert Answers([], []) && CoreRules([]) == [];
    assert AreActive([], start.db[0].table);
    actions := [Ask(0), Enter(0, []), CommitWrite(0, table), FinishWrite(0, 1), Install(0)];
    var asked := Next(start, Ask(0), ttl);
    var entered := Next(asked, Enter(0, []), ttl);
    var committed := Next(entered, CommitWrite(0, table), ttl);
    var finished := Next(committed, FinishWrite(0, 1), ttl);
    states := [start, asked, entered, committed, finished, Next(finished, Install(0), ttl)];
  }

  // --- Every question and every write counts once ---

  function Asked(actions: seq<Action>, w: nat): nat {
    if actions == [] then 0
    else Asked(actions[..|actions| - 1], w) + if actions[|actions| - 1] == Ask(w) then 1 else 0
  }

  function Answered(log: seq<Event>, w: nat): nat {
    if log == [] then 0
    else
      var last := log[|log| - 1];
      Answered(log[..|log| - 1], w) + if last.Served? && last.worker == w then 1 else 0
  }

  lemma OneMoreEvent(log: seq<Event>, e: Event, w: nat)
    ensures Answered(log + [e], w) == Answered(log, w) + if e.Served? && e.worker == w then 1 else 0
  {
    assert (log + [e])[..|log|] == log;
  }

  /** Requests that have been asked and not answered yet. */
  function Pending(worker: Worker): nat {
    worker.waiting + if worker.loading.Some? then 1 else 0
  }

  lemma StepAnswers(s: State, a: Action, ttl: int, w: nat)
    requires Enabled(s, a) && w < |s.workers|
    ensures var t := Next(s, a, ttl);
            && |t.workers| == |s.workers|
            && Answered(t.log, w) + Pending(t.workers[w])
               == Answered(s.log, w) + Pending(s.workers[w]) + if a == Ask(w) then 1 else 0
  {
    match a {
      case FinishWrite(u, v) => OneMoreEvent(s.log, Wrote(u, v, IsOvertaken(s, u, v)), w);
      case Ask(u) =>
        if !IsStale(s.workers[u].cache, s.now, ttl) {
          ServeAnswers(s, u, w);
        }
      case Enter(u, _) =>
        if !IsStale(s.workers[u].cache, s.now, ttl) {
          ServeAnswers(Booked(s, u, s.workers[u].unfinished, s.workers[u].waiting - 1, None), u, w);
        }
      case Install(u) =>
        OneMoreEvent(s.log, Loaded(u, s.now), w);
        ServeAnswers(Installed(s, u), u, w);
      case _ =>
    }
  }

  lemma ServeAnswers(s: State, u: nat, w: nat)
    requires u < |s.workers|
    ensures Answered(Serve(s, u).log, w) == Answered(s.log, w) + if u == w then 1 else 0
  {
    var e := Serve(s, u).log[|s.log|];
    OneMoreEvent(s.log, e, w);
    assert Serve(s, u).log == s.log + [e];
  }

  lemma {:induction false} AnswersAlong(states: seq<State>, actions: seq<Action>, ttl: int, n: nat, w: nat)
    requires IsRun(states, actions, ttl) && n < |states| && w < |states[0].workers|
    ensures w < |states[n].workers|
    ensures Answered(states[n].log, w) + Pending(states[n].workers[w]) == Asked(actions[..n], w)
  {
    if n == 0 {
      assert states[0].workers[w] == Worker(EMPTY_CACHE, 0, states[0].now, {}, 0, None);
    } else {
      AnswersAlong(states, actions, ttl, n - 1, w);
      StepAnswers(states[n - 1], actions[n - 1], ttl, w);
      assert states[n - 1 + 1] == Next(states[n - 1], actions[n - 1], ttl);
      assert actions[..n][..n - 1] == actions[..n - 1];
    }
  }

  /** In every run each worker has answered every request once, but for those that wait or load. */
  lemma EveryRequestIsAnsweredOnce(states: seq<State>, actions: seq<Action>, ttl: int, w: nat)
    requires IsRun(states, actions, ttl) && w < |states[0].workers|
    ensures var s := states[|actions|];
            && w < |s.workers|
            && Asked(actions, w)
               == Answered(s.log, w) + s.workers[w].waiting + if s.workers[w].loading.Some? then 1 else 0
  {
    AnswersAlong(states, actions, ttl, |actions|, w);
    assert actions[..|actions|] == actions;
  }

  /** The write has been finished. */
  predicate IsFinished(log: seq<Event>, w: nat, v: nat) {
    exists i :: 0 <= i < |log| && log[i].Wrote? && log[i].worker == w && log[i].version == v
  }

  ghost predicate WritesInv(s: State) {
    && (forall w, v :: 0 <= w < |s.workers| && v in s.workers[w].unfinished ==>
          v < |s.db| && !IsFinished(s.log, w, v))
    && (forall i :: 0 <= i < |s.log| && s.log[i].Wrote? ==> s.log[i].version < |s.db|)
    && (forall i, j :: 0 <= i < j < |s.log| && s.log[i].Wrote? && s.log[j].Wrote? ==>
          s.log[i].worker != s.log[j].worker || s.log[i].version != s.log[j].version)
  }

  lemma QuietEventKeepsWrites(s: State, t: State, e: Event)
    requires WritesInv(s) && !e.Wrote? && t.log == s.log + [e] && t.db == s.db && |t.workers| == |s.workers|
    requires forall w :: 0 <= w < |s.workers| ==> t.workers[w].unfinished == s.workers[w].unfinished
    ensures WritesInv(t)
  {
    assert t.log[|s.log|] == e;
  }

  lemma FinishKeepsWrites(s: State, w: nat, v: nat, ttl: int)
    requires WritesInv(s) && Enabled(s, FinishWrite(w, v))
    ensures WritesInv(Next(s, FinishWrite(w, v), ttl))
  {
    var t := Next(s, FinishWrite(w, v), ttl);
    assert t.log[|s.log|] == Wrote(w, v, IsOvertaken(s, w, v));
    assert !IsFinished(s.log, w, v);
  }

  lemma StepKeepsWrites(s: State, a: Action, ttl: int)
    requires WritesInv(s) && Enabled(s, a)
    ensures WritesInv(Next(s, a, ttl)) && |Next(s, a, ttl).workers| == |s.workers|
  {
    var t := Next(s, a, ttl);
    match a {
      case FinishWrite(w, v) => FinishKeepsWrites(s, w, v, ttl);
      case Ask(w) =>
        if !IsStale(s.workers[w].cache, s.now, ttl) {
          QuietEventKeepsWrites(s, t, t.log[|s.log|]);
        }
      case Enter(w, _) =>
        if !IsStale(s.workers[w].cache, s.now, ttl) {
          QuietEventKeepsWrites(s, t, t.log[|s.log|]);
        }
      case Install(w) =>
        var installed := Installed(s, w);
        QuietEventKeepsWrites(s, installed, Loaded(w, s.now));
        QuietEventKeepsWrites(installed, t, t.log[|installed.log|]);
      case _ =>
    }
  }

  lemma {:induction false} EveryWriteFinishesOnce(states: seq<State>, actions: seq<Action>, ttl: int, n: nat)
    requires IsRun(states, actions, ttl) && n < |states|
    ensures WritesInv(states[n])
  {
    if n > 0 {
      EveryWriteFinishesOnce(states, actions, ttl, n - 1);
      StepKeepsWrites(states[n - 1], actions[n - 1], ttl);
      assert states[n - 1 + 1] == Next(states[n - 1], actions[n - 1], ttl);
    }
  }
}
