/**
 * Either cache of the rule service when the read of a value and its write into the cache are separate
 * steps, so that a mutation and its invalidation can fall between them. One entry: the active rules of
 * one organisation, or one simulation of one rule. `L` is the type of the value.
 */
module RuleCacheRace {
  import opened Common
  import Rules
  import RuleEngine

  datatype Stamped<L> = Stamped(value: L, at: int)

  datatype Entry<L> = Entry(value: L, expiresAt: int)

  /**
   * `history` is what the tables have held, each value from its instant on, the last one still.
   * `queried` holds the answers of the queries whose result is not yet in the cache.
   */
  datatype State<L> = State(
    ttl: nat, clock: int, history: seq<Stamped<L>>, cache: Option<Entry<L>>, queried: map<int, Stamped<L>>)

  datatype Event<L> =
    | Tick(ms: nat)
    | Commit(value: L)
    | Invalidate
    | Query(pid: int)
    | Store(pid: int)

  function Current<L>(s: State<L>): L
    requires |s.history| > 0
  {
    s.history[|s.history| - 1].value
  }

  function Begin<L>(value: L, ttl: nat): State<L> {
    State(ttl, 0, [Stamped(value, 0)], None, map[])
  }

  function React<L>(s: State<L>, e: Event<L>): (t: State<L>)
    requires |s.history| > 0
    ensures |t.history| > 0
  {
    match e
    case Tick(ms) => s.(clock := s.clock + ms)
    case Commit(value) => s.(history := s.history + [Stamped(value, s.clock)])
    case Invalidate => s.(cache := None)
    case Query(pid) => s.(queried := s.queried[pid := Stamped(Current(s), s.clock)])
    case Store(pid) =>
      if pid !in s.queried then s
      else s.(cache := Some(Entry(s.queried[pid].value, s.clock + s.ttl)), queried := s.queried - {pid})
  }

  function Run<L>(s: State<L>, events: seq<Event<L>>): (t: State<L>)
    requires |s.history| > 0
    ensures |t.history| > 0
    decreases |events|
  {
    if events == [] then s else React(Run(s, events[..|events| - 1]), events[|events| - 1])
  }

  /** Every answer reaches the cache within `delay` of its query. */
  predicate Prompt<L>(s: State<L>, events: seq<Event<L>>, delay: nat)
    requires |s.history| > 0
    decreases |events|
  {
    events == [] ||
    var n := |events| - 1;
    var t := Run(s, events[..n]);
    && Prompt(s, events[..n], delay)
    && (events[n].Store? && events[n].pid in t.queried ==> t.clock - t.queried[events[n].pid].at <= delay)
  }

  /** What a read is served from the cache, if the entry has not expired. */
  function Served<L>(s: State<L>): Option<L> {
    if s.cache.Some? && s.cache.value.expiresAt > s.clock then Some(s.cache.value.value) else None
  }

  // ---------- how old a served value can be ----------

  /** `value` was in the tables at instant `t`. */
  ghost predicate TrueAt<L>(s: State<L>, value: L, t: int) {
    t <= s.clock && exists i :: Covers(s.history, i, value, t)
  }

  ghost predicate Covers<L>(history: seq<Stamped<L>>, i: int, value: L, t: int) {
    && 0 <= i < |history| && history[i].value == value && history[i].at <= t
    && (i + 1 < |history| ==> t <= history[i + 1].at)
  }

  ghost predicate Inv<L>(s: State<L>, delay: nat) {
    && |s.history| > 0
    && (forall i :: 0 <= i < |s.history| ==> s.history[i].at <= s.clock)
    && (forall pid :: pid in s.queried ==> TrueAt(s, s.queried[pid].value, s.queried[pid].at))
    && (s.cache.Some? ==>
          exists t :: TrueAt(s, s.cache.value.value, t) && s.cache.value.expiresAt <= t + delay + s.ttl)
  }

  lemma StaysTrue<L>(s: State<L>, e: Event<L>, value: L, t: int)
    requires |s.history| > 0 && TrueAt(s, value, t)
    ensures TrueAt(React(s, e), value, t)
  {
    var i :| Covers(s.history, i, value, t);
    assert Covers(React(s, e).history, i, value, t);
  }

  lemma ReactKeeps<L>(s: State<L>, e: Event<L>, delay: nat)
    requires Inv(s, delay)
    requires e.Store? && e.pid in s.queried ==> s.clock - s.queried[e.pid].at <= delay
    ensures Inv(React(s, e), delay)
  {
    var s' := React(s, e);
    forall pid | pid in s'.queried ensures TrueAt(s', s'.queried[pid].value, s'.queried[pid].at) {
      if pid in s.queried && s'.queried[pid] == s.queried[pid] {
        StaysTrue(s, e, s.queried[pid].value, s.queried[pid].at);
      } else {
        assert Covers(s'.history, |s.history| - 1, Current(s), s.clock);
      }
    }
    if s'.cache.Some? {
      if e.Store? && e.pid in s.queried {
        StaysTrue(s, e, s.queried[e.pid].value, s.queried[e.pid].at);
      } else {
        var t :| TrueAt(s, s.cache.value.value, t) && s.cache.value.expiresAt <= t + delay + s.ttl;
        StaysTrue(s, e, s.cache.value.value, t);
      }
    }
  }

  lemma {:induction false} RunKeeps<L>(s: State<L>, events: seq<Event<L>>, delay: nat)
    requires Inv(s, delay) && Prompt(s, events, delay)
    ensures Inv(Run(s, events), delay) && Run(s, events).ttl == s.ttl
    decreases |events|
  {
    if events != [] {
      RunKeeps(s, events[..|events| - 1], delay);
      ReactKeeps(Run(s, events[..|events| - 1]), events[|events| - 1], delay);
    }
  }

  /** `value` was true less than `age` ago. */
  ghost predicate Recent<L>(s: State<L>, value: L, age: int) {
    exists t :: s.clock - age < t && TrueAt(s, value, t)
  }

  /**
   * In every interleaving, a value served from the cache was in the tables at an instant less than
   * the time to live plus the longest delay between query and store ago.
   */
  lemma {:induction false} ServedIsRecent<L>(value: L, ttl: nat, events: seq<Event<L>>, delay: nat)
    requires Prompt(Begin(value, ttl), events, delay)
    ensures var s := Run(Begin(value, ttl), events);
      Served(s).Some? ==> Recent(s, Served(s).value, ttl + delay)
  {
    RunKeeps(Begin(value, ttl), events, delay);
  }

  /** The list of active rules: a minute, and the duration of the query. */
  lemma {:induction false} ServedListIsRecent(list: seq<Rules.Rule>, events: seq<Event<seq<Rules.Rule>>>, delay: nat)
    requires Prompt(Begin(list, RuleEngine.ACTIVE_RULE_CACHE_TTL_MS), events, delay)
    ensures var s := Run(Begin(list, RuleEngine.ACTIVE_RULE_CACHE_TTL_MS), events);
      Served(s).Some? ==> Recent(s, Served(s).value, 60_000 + delay)
  {
    ServedIsRecent(list, RuleEngine.ACTIVE_RULE_CACHE_TTL_MS, events, delay);
  }

  /** A simulation: five minutes, and the time the simulation endpoint takes. */
  lemma {:induction false} ServedSimulationIsRecent(result: RuleEngine.Simulation,
                                                    events: seq<Event<RuleEngine.Simulation>>, delay: nat)
    requires Prompt(Begin(result, RuleEngine.SIMULATION_CACHE_TTL_MS), events, delay)
    ensures var s := Run(Begin(result, RuleEngine.SIMULATION_CACHE_TTL_MS), events);
      Served(s).Some? ==> Recent(s, Served(s).value, 300_000 + delay)
  {
    ServedIsRecent(result, RuleEngine.SIMULATION_CACHE_TTL_MS, events, delay);
  }

  // ---------- when a served value is current ----------

  /** The place of the query whose answer the process holds. */
  function Asked<L>(events: seq<Event<L>>, pid: int): Option<nat>
    decreases |events|
  {
    if events == [] then None
    else
      var n := |events| - 1;
      if events[n] == Query(pid) then Some(n)
      else if events[n] == Store(pid) then None
      else Asked(events[..n], pid)
  }

  /** The place of the query whose answer is in the cache. */
  function FilledBy<L>(events: seq<Event<L>>): Option<nat>
    decreases |events|
  {
    if events == [] then None
    else
      var n := |events| - 1;
      if events[n].Invalidate? then None
      else if events[n].Store? && Asked(events[..n], events[n].pid).Some? then Asked(events[..n], events[n].pid)
      else FilledBy(events[..n])
  }

  /** `held` is what a query at that place of the run answered. */
  ghost predicate AnswerOf<L>(s: State<L>, events: seq<Event<L>>, place: nat, held: L)
    requires |s.history| > 0
  {
    place < |events| && held == Current(Run(s, events[..place]))
  }

  lemma AnswerStays<L>(s: State<L>, events: seq<Event<L>>, place: nat, held: L)
    requires |s.history| > 0 && events != [] && AnswerOf(s, events[..|events| - 1], place, held)
    ensures AnswerOf(s, events, place, held)
  {
    assert events[..|events| - 1][..place] == events[..place];
  }

  lemma {:induction false} HeldIsAsked<L>(s: State<L>, events: seq<Event<L>>, pid: int)
    requires |s.history| > 0 && s.queried == map[]
    ensures var t := Run(s, events);
      && (pid in t.queried <==> Asked(events, pid).Some?)
      && (pid in t.queried ==> AnswerOf(s, events, Asked(events, pid).value, t.queried[pid].value))
    decreases |events|
  {
    if events != [] {
      var n := |events| - 1;
      HeldIsAsked(s, events[..n], pid);
      if events[n] != Query(pid) && events[n] != Store(pid) && Asked(events[..n], pid).Some? {
        AnswerStays(s, events, Asked(events[..n], pid).value, Run(s, events[..n]).queried[pid].value);
      }
    }
  }

  /** A stored answer is served until the time to live is over, and not after. */
  lemma StoredIsServed<L>(s: State<L>, pid: int, ms: nat)
    requires |s.history| > 0 && pid in s.queried
    ensures Served(React(React(s, Store(pid)), Tick(ms))) == if ms < s.ttl then Some(s.queried[pid].value) else None
  {
  }

  /** What is in the cache is the answer of the query that filled it. */
  lemma {:induction false} CacheIsFilled<L>(s: State<L>, events: seq<Event<L>>)
    requires |s.history| > 0 && s.queried == map[] && s.cache.None?
    ensures var t := Run(s, events);
      && (t.cache.Some? <==> FilledBy(events).Some?)
      && (t.cache.Some? ==> AnswerOf(s, events, FilledBy(events).value, t.cache.value.value))
    decreases |events|
  {
    if events != [] {
      var n := |events| - 1;
      var before := Run(s, events[..n]);
      CacheIsFilled(s, events[..n]);
      if events[n].Store? {
        HeldIsAsked(s, events[..n], events[n].pid);
      }
      if FilledBy(events).Some? {
        AnswerStays(s, events, FilledBy(events).value, Run(s, events).cache.value.value);
      }
    }
  }

  predicate CommitsFrom<L>(events: seq<Event<L>>, place: nat) {
    exists k :: place <= k < |events| && events[k].Commit?
  }

  /** From a place of a run on, the history grows exactly by the commits. */
  lemma {:induction false} HistoryGrowsIff<L>(s: State<L>, events: seq<Event<L>>, place: nat)
    requires |s.history| > 0 && place <= |events|
    ensures var then_, now := Run(s, events[..place]).history, Run(s, events).history;
      then_ <= now && (|then_| < |now| <==> CommitsFrom(events, place))
    decreases |events|
  {
    if place < |events| {
      var n := |events| - 1;
      HistoryGrowsIff(s, events[..n], place);
      assert events[..n][..place] == events[..place];
    } else {
      assert events[..place] == events;
    }
  }

  ghost predicate AllDifferent<L>(history: seq<Stamped<L>>) {
    forall i, j :: 0 <= i < j < |history| ==> history[i].value != history[j].value
  }

  /**
   * Exactly when a served value is the current one: when nothing was committed since the query that
   * filled the entry, invalidated or not. (A value committed anew is taken to differ from those before;
   * without that, a value nothing was committed since is still current.)
   */
  lemma {:induction false} ServedIsCurrentIff<L>(value: L, ttl: nat, events: seq<Event<L>>)
    requires Served(Run(Begin(value, ttl), events)).Some?
    ensures FilledBy(events).Some?
    ensures var s := Run(Begin(value, ttl), events);
      && (!CommitsFrom(events, FilledBy(events).value) ==> Served(s).value == Current(s))
      && (AllDifferent(s.history) ==>
            (Served(s).value == Current(s) <==> !CommitsFrom(events, FilledBy(events).value)))
  {
    var s0 := Begin(value, ttl);
    CacheIsFilled(s0, events);
    HistoryGrowsIff(s0, events, FilledBy(events).value);
  }

  /** So however short the delay, a stale value can be served: the invalidation can come before the store. */
  lemma {:induction false} ServedCanBeStale<L>(stale: L, newer: L, ttl: nat) returns (events: seq<Event<L>>)
    requires ttl > 0 && stale != newer
    ensures Prompt(Begin(stale, ttl), events, 0)
    ensures var s := Run(Begin(stale, ttl), events); Served(s) == Some(stale) && Current(s) == newer
  {
    events := [Query(0), Commit(newer), Invalidate, Store(0)];
    assert events[..3][..2] == events[..2] && events[..2][..1] == events[..1] && events[..1][..0] == [];
    var s0 := Begin(stale, ttl);
    assert Run(s0, events[..1]) == React(s0, Query(0)) && Prompt(s0, events[..1], 0);
    assert Run(s0, events[..2]) == React(Run(s0, events[..1]), Commit(newer)) && Prompt(s0, events[..2], 0);
    assert Run(s0, events[..3]) == React(Run(s0, events[..2]), Invalidate) && Prompt(s0, events[..3], 0);
  }
}
