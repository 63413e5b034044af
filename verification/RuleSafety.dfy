/** What every request of the rule engine keeps, and what that gives for whole runs. */
module RuleSafety {
  import opened Common
  import opened Rules
  import opened StableSort
  import opened RuleEngine

  lemma ClashIsSymmetric(a: Rule, b: Rule)
    ensures Clash(a, b) == Clash(b, a)
  {
    if a.ruleType == b.ruleType {
      ContradictionIsSymmetric(a, b);
    }
  }

  // ---------- snapshots ----------

  lemma {:induction false} OfAppend(snapshots: seq<Snapshot>, s: Snapshot, id: RuleId)
    ensures Of(snapshots + [s], id) == Of(snapshots, id) + if s.ruleId == id then [s] else []
  {
    assert (snapshots + [s])[..|snapshots|] == snapshots;
  }

  lemma {:induction false} OfNone(snapshots: seq<Snapshot>, id: RuleId)
    requires forall i :: 0 <= i < |snapshots| ==> snapshots[i].ruleId != id
    ensures Of(snapshots, id) == []
  {
    if snapshots != [] {
      OfNone(snapshots[..|snapshots| - 1], id);
    }
  }

  lemma RuleEvolvesTransitive(x: Rule, p: seq<Snapshot>, y: Rule, q: seq<Snapshot>, z: Rule, r: seq<Snapshot>)
    requires RuleEvolves(x, p, y, q) && RuleEvolves(y, q, z, r)
    ensures RuleEvolves(x, p, z, r)
  {
    assert p <= q <= r;
  }

  lemma EvolvesTransitive(a: Engine, b: Engine, c: Engine)
    requires Evolves(a, b) && Evolves(b, c)
    ensures Evolves(a, c)
  {
    forall id ensures EvolvesAt(a, c, id) {
      assert EvolvesAt(a, b, id) && EvolvesAt(b, c, id);
      if id in a.rules {
        RuleEvolvesTransitive(a.rules[id], Of(a.snapshots, id), b.rules[id], Of(b.snapshots, id),
                              c.rules[id], Of(c.snapshots, id));
      }
    }
  }

  // ---------- revising a stored rule ----------

  /** One more version of one rule. */
  lemma RevisedIsChained(rule: Rule, past: seq<Snapshot>, content: Content, changedBy: string, now: int)
    requires Chained(rule, past) && content != rule.content
    ensures var past' := past + [Snapshot(rule.id, rule.version, rule.content, changedBy)];
      Chained(Revised(rule, content, now), past') && RuleEvolves(rule, past, Revised(rule, content, now), past')
  {
  }

  lemma RevisedIsVersioned(e: Engine, id: RuleId, content: Content, caller: Caller, now: int)
    requires Versioned(e) && Keyed(e.rules) && id in e.rules && content != e.rules[id].content
    ensures Versioned(Revise(e, id, content, caller, now)) && Evolves(e, Revise(e, id, content, caller, now))
  {
    var e' := Revise(e, id, content, caller, now);
    var s := Snapshot(id, e.rules[id].version, e.rules[id].content, caller.id);
    forall other ensures ChainedAt(e', other) && EvolvesAt(e, e', other) {
      OfAppend(e.snapshots, s, other);
      assert ChainedAt(e, other);
      if other == id {
        RevisedIsChained(e.rules[id], Of(e.snapshots, id), content, caller.id, now);
      } else {
        assert Of(e'.snapshots, other) == Of(e.snapshots, other);
      }
    }
  }

  lemma RevisedIsConflictFree(rules: map<RuleId, Rule>, id: RuleId, rule: Rule)
    requires ConflictFree(rules) && id in rules
    requires rule.content.isActive ==> !Blocked(rules, rule, Some(id))
    ensures ConflictFree(rules[id := rule])
  {
    var rules' := rules[id := rule];
    forall a, b ensures Apart(rules', a, b) {
      assert Apart(rules, a, b);
      var other := if a == id then b else a;
      if other in rules && other != id {
        ClashIsSymmetric(rule, rules[other]);
      }
    }
  }

  lemma RevisedBlocksAlike(rules: map<RuleId, Rule>, a: Rule, b: Rule, id: RuleId)
    requires a.(version := 0, updatedAt := 0) == b.(version := 0, updatedAt := 0)
    ensures Blocked(rules, a, Some(id)) == Blocked(rules, b, Some(id))
  {
  }

  /** A list for one organisation stays an answer while only rules of another one change. */
  lemma OtherOrgAnswers(rules: map<RuleId, Rule>, rules': map<RuleId, Rule>, orgId: string, list: seq<Rule>)
    requires Answers(rules, ActiveIn(orgId), list)
    requires forall id :: id in rules && rules[id].orgId == orgId ==> id in rules' && rules'[id] == rules[id]
    requires forall id :: id in rules' && rules'[id].orgId == orgId ==> id in rules && rules'[id] == rules[id]
    ensures Answers(rules', ActiveIn(orgId), list)
  {
  }

  lemma InvalidatedIsCoherent(e: Engine, rules': map<RuleId, Rule>, snapshots': seq<Snapshot>, orgId: string,
                              id: RuleId)
    requires Coherent(e)
    requires forall k :: k in e.rules && e.rules[k].orgId != orgId ==> k in rules' && rules'[k] == e.rules[k]
    requires forall k :: k in rules' && rules'[k].orgId != orgId ==> k in e.rules && rules'[k] == e.rules[k]
    ensures Coherent(Invalidate(e.(rules := rules', snapshots := snapshots'), orgId, id))
  {
    var e' := Invalidate(e.(rules := rules', snapshots := snapshots'), orgId, id);
    forall other ensures CoherentFor(e', other) {
      assert CoherentFor(e, other);
      if other in e'.active {
        OtherOrgAnswers(e.rules, rules', other, e.active[other].rules);
      }
    }
  }

  lemma ForgottenIsFresh(w: World, e: Engine, rules': map<RuleId, Rule>, snapshots': seq<Snapshot>,
                         orgId: string, id: RuleId)
    requires SimulationsFresh(w, e)
    requires forall k :: k in e.rules && k != id ==> k in rules' && rules'[k] == e.rules[k]
    ensures SimulationsFresh(w, Invalidate(e.(rules := rules', snapshots := snapshots'), orgId, id))
  {
    var e' := Invalidate(e.(rules := rules', snapshots := snapshots'), orgId, id);
    forall key ensures FreshUnder(w, e', key) {
      assert FreshUnder(w, e, key);
      if key in e'.simulations {
        var other, agent, sample :| other in e.rules && key == SimulationKey(w, other, agent, sample)
          && e.simulations[key].result == Simulate(w, e.rules[other], agent, sample);
        PrefixSelectsRule(w, id, other, agent, sample);
        assert e'.simulations[key].result == Simulate(w, e'.rules[other], agent, sample);
      }
    }
  }

  /** What one request owes: the invariant, and only evolution of the rules there were. */
  ghost predicate Kept(w: World, e: Engine, e': Engine) {
    Inv(w, e') && Evolves(e, e')
  }

  lemma ReviseKeeps(w: World, e: Engine, id: RuleId, content: Content, caller: Caller, now: int)
    requires Inv(w, e) && Owned(e, id, caller.orgId) && content != e.rules[id].content
    requires content.isActive ==> !Blocked(e.rules, e.rules[id].(content := content), Some(id))
    ensures Kept(w, e, Revise(e, id, content, caller, now))
  {
    var e' := Revise(e, id, content, caller, now);
    var rule := Revised(e.rules[id], content, now);
    RevisedBlocksAlike(e.rules, e.rules[id].(content := content), rule, id);
    RevisedIsConflictFree(e.rules, id, rule);
    RevisedIsVersioned(e, id, content, caller, now);
    InvalidatedIsCoherent(e, e'.rules, e'.snapshots, caller.orgId, id);
    ForgottenIsFresh(w, e, e'.rules, e'.snapshots, caller.orgId, id);
  }

  lemma InvalidateKeeps(w: World, e: Engine, orgId: string, id: RuleId)
    requires Inv(w, e)
    ensures Kept(w, e, Invalidate(e, orgId, id))
  {
    ForgottenIsFresh(w, e, e.rules, e.snapshots, orgId, id);
    InvalidatedIsCoherent(e, e.rules, e.snapshots, orgId, id);
    AddedIsVersioned(e, Invalidate(e, orgId, id));
  }

  lemma ChangeKeeps(w: World, e: Engine, id: RuleId, content: Content, caller: Caller, now: int)
    requires Inv(w, e) && Owned(e, id, caller.orgId)
    ensures Kept(w, e, Change(e, id, content, caller, now).engine)
  {
    if content != e.rules[id].content && !Blocked(e.rules, e.rules[id].(content := content), Some(id)) {
      ReviseKeeps(w, e, id, content, caller, now);
    }
  }

  lemma DeleteKeeps(w: World, e: Engine, id: RuleId, caller: Caller, now: int)
    requires Inv(w, e)
    ensures Kept(w, e, SoftDelete(e, id, caller, now).engine)
  {
    if Manages(caller) && Owned(e, id, caller.orgId) {
      if e.rules[id].content.isActive {
        ReviseKeeps(w, e, id, e.rules[id].content.(isActive := false), caller, now);
      } else {
        InvalidateKeeps(w, e, caller.orgId, id);
      }
    }
  }

  // ---------- adding rules ----------

  lemma AddedIsVersioned(e: Engine, e': Engine)
    requires Versioned(e) && e'.snapshots == e.snapshots
    requires forall id :: id in e.rules ==> id in e'.rules && e'.rules[id] == e.rules[id]
    ensures Versioned(e') && Evolves(e, e')
  {
    forall id ensures ChainedAt(e', id) && EvolvesAt(e, e', id) {
      assert ChainedAt(e, id);
      if id !in e.rules {
        OfNone(e.snapshots, id);
      }
    }
  }

  lemma AddedIsConflictFree(rules: map<RuleId, Rule>, id: RuleId, rule: Rule)
    requires ConflictFree(rules) && id !in rules && !Blocked(rules, rule, None)
    ensures ConflictFree(rules[id := rule])
  {
    var rules' := rules[id := rule];
    forall a, b ensures Apart(rules', a, b) {
      assert Apart(rules, a, b);
      var other := if a == id then b else a;
      if other in rules {
        assert Some(other) != None;
        ClashIsSymmetric(rule, rules[other]);
      }
    }
  }

  lemma CreateKeeps(w: World, e: Engine, item: NewRule, id: RuleId, caller: Caller, now: int)
    requires Inv(w, e) && id !in e.rules
    ensures Kept(w, e, Create(e, item, id, caller, now).engine)
  {
    var rule := BuildRule(item, id, 1, true, caller, now);
    var r := Create(e, item, id, caller, now);
    if r.outcome.Saved? {
      AddedIsVersioned(e, r.engine);
      AddedIsConflictFree(e.rules, id, rule);
      InvalidatedIsCoherent(e, e.rules[id := rule], e.snapshots, caller.orgId, id);
      ForgottenIsFresh(w, e, e.rules[id := rule], e.snapshots, caller.orgId, id);
    }
  }

  lemma ReadKeeps(w: World, e: Engine, orgId: string, now: int, later: int, fetched: seq<Rule>)
    requires Inv(w, e) && Answers(e.rules, ActiveIn(orgId), fetched)
    ensures Kept(w, e, ReadActive(e, orgId, now, later, fetched).engine)
    ensures Answers(e.rules, ActiveIn(orgId), ReadActive(e, orgId, now, later, fetched).outcome.listed)
  {
    var e' := ReadActive(e, orgId, now, later, fetched).engine;
    CachesOnly(w, e, e');
    assert CoherentFor(e, orgId);
    forall other ensures CoherentFor(e', other) {
      assert CoherentFor(e, other);
    }
  }

  /** Filling the active-rule cache leaves everything else of the invariant as it was. */
  lemma CachesOnly(w: World, e: Engine, e': Engine)
    requires Inv(w, e) && e' == e.(active := e'.active)
    ensures Keyed(e'.rules) && ConflictFree(e'.rules) && SimulationsFresh(w, e') && Versioned(e') && Evolves(e, e')
  {
    AddedIsVersioned(e, e');
    forall key ensures FreshUnder(w, e', key) {
      assert FreshUnder(w, e, key);
    }
  }

  lemma TestKeeps(w: World, e: Engine, id: RuleId, agent: AgentType, sample: string, caller: Caller,
                  now: int, later: int, reachable: bool)
    requires Inv(w, e)
    ensures Kept(w, e, TestRule(w, e, id, agent, sample, caller, now, later, reachable).engine)
  {
    var e' := TestRule(w, e, id, agent, sample, caller, now, later, reachable).engine;
    forall key ensures FreshUnder(w, e', key) {
      assert FreshUnder(w, e, key);
      if key in e'.simulations && (key !in e.simulations || e'.simulations[key] != e.simulations[key]) {
        assert key == SimulationKey(w, id, agent, sample);
        assert e'.simulations[key].result == Simulate(w, e'.rules[id], agent, sample);
      }
    }
    AddedIsVersioned(e, e');
    forall other ensures CoherentFor(e', other) {
      assert CoherentFor(e, other);
    }
  }

  // ---------- importing a bundle ----------

  /** The staged rules belong to the caller, carry the given ids, and do not clash among themselves or with the pool. */
  ghost predicate StagedWell(activeRules: seq<Rule>, staged: seq<Rule>, ids: seq<RuleId>, orgId: string) {
    && |staged| == |ids|
    && (forall i :: 0 <= i < |staged| ==> staged[i].id == ids[i] && staged[i].orgId == orgId)
    && (forall i :: 0 <= i < |staged| ==> Clear(Clash, staged[i], activeRules + staged[..i]))
  }

  ghost predicate Clear(clash: (Rule, Rule) -> bool, rule: Rule, pool: seq<Rule>) {
    forall r :: r in pool ==> !clash(rule, r)
  }

  lemma PassedIsClear(candidate: Rule, pool: seq<Rule>)
    requires !ImportClash(candidate, pool)
    ensures Clear(Clash, candidate, pool)
  {
    FirstConflictFinds(candidate, None, pool);
    forall r | r in pool ensures !Clash(candidate, r) {
      assert Some(r.id) != None;
    }
  }

  /** The rules a bundle asks for. */
  function Candidates(items: seq<NewRule>, ids: seq<RuleId>, caller: Caller, now: int): (rules: seq<Rule>)
    requires |ids| == |items|
    ensures |rules| == |items|
    ensures forall i :: 0 <= i < |items| ==> rules[i] == BuildImported(items[i], ids[i], caller, now)
  {
    seq(|items|, i requires 0 <= i < |items| => BuildImported(items[i], ids[i], caller, now))
  }

  /** What is wrong with one item, given the items before it. */
  function ItemError(workflows: map<string, string>, pool: seq<Rule>, item: NewRule, candidates: seq<Rule>, i: nat,
                     orgId: string): Option<Error>
    requires i < |candidates|
  {
    if ScopeError(workflows, item, orgId).Some? then ScopeError(workflows, item, orgId)
    else if ImportClash(candidates[i], pool + candidates[..i]) then Some(RuleConflict)
    else None
  }

  /** The first `n` items are in order. */
  predicate Passes(workflows: map<string, string>, pool: seq<Rule>, items: seq<NewRule>, candidates: seq<Rule>, n: nat,
                   orgId: string)
    requires n <= |items| == |candidates|
  {
    forall i :: 0 <= i < n ==> ItemError(workflows, pool, items[i], candidates, i, orgId).None?
  }

  /** Staging stops at the first item that is not in order, with its error, and otherwise stages every candidate. */
  lemma {:induction false} StageStopsAt(workflows: map<string, string>, pool: seq<Rule>, items: seq<NewRule>,
                                        ids: seq<RuleId>, caller: Caller, now: int, n: nat) returns (stop: nat)
    requires |ids| == |items| && n <= |items|
    requires Passes(workflows, pool, items, Candidates(items, ids, caller, now), n, caller.orgId)
    ensures var candidates := Candidates(items, ids, caller, now);
      var result := Stage(workflows, pool, items[n..], ids[n..], caller, now, candidates[..n]);
      && n <= stop <= |items| && Passes(workflows, pool, items, candidates, stop, caller.orgId)
      && (stop == |items| ==> result == Ok(candidates))
      && (stop < |items| ==>
            var error := ItemError(workflows, pool, items[stop], candidates, stop, caller.orgId);
            error.Some? && result == Err(error.value))
    decreases |items| - n
  {
    var candidates := Candidates(items, ids, caller, now);
    stop := n;
    if n < |items| {
      assert items[n..][0] == items[n] && ids[n..][0] == ids[n];
      if ItemError(workflows, pool, items[n], candidates, n, caller.orgId).None? {
        assert items[n..][1..] == items[n + 1..] && ids[n..][1..] == ids[n + 1..];
        assert candidates[..n] + [candidates[n]] == candidates[..n + 1];
        stop := StageStopsAt(workflows, pool, items, ids, caller, now, n + 1);
      }
    } else {
      assert candidates[..n] == candidates;
    }
  }

  /** The rules an import stages are the candidates, each clear of the pool and of those before it. */
  lemma {:induction false} StageStagesWell(workflows: map<string, string>, activeRules: seq<Rule>, items: seq<NewRule>,
                                           ids: seq<RuleId>, caller: Caller, now: int)
    requires |ids| == |items| && Stage(workflows, activeRules, items, ids, caller, now, []).Ok?
    ensures StagedWell(activeRules, Stage(workflows, activeRules, items, ids, caller, now, []).value, ids, caller.orgId)
  {
    var candidates := Candidates(items, ids, caller, now);
    assert items[0..] == items && ids[0..] == ids && candidates[..0] == [];
    var stop := StageStopsAt(workflows, activeRules, items, ids, caller, now, 0);
    forall i | 0 <= i < |candidates| ensures Clear(Clash, candidates[i], activeRules + candidates[..i]) {
      assert ItemError(workflows, activeRules, items[i], candidates, i, caller.orgId).None?;
      PassedIsClear(candidates[i], activeRules + candidates[..i]);
    }
  }

  lemma StagedPairApart(activeRules: seq<Rule>, staged: seq<Rule>, ids: seq<RuleId>, orgId: string, i: nat, j: nat)
    requires StagedWell(activeRules, staged, ids, orgId) && i < j < |staged|
    ensures !Clash(staged[j], staged[i]) && !Clash(staged[i], staged[j])
  {
    assert Clear(Clash, staged[j], activeRules + staged[..j]);
    assert staged[..j][i] == staged[i];
    assert staged[i] in activeRules + staged[..j];
    ClashIsSymmetric(staged[i], staged[j]);
  }

  lemma SaveAllSaves(rules: map<RuleId, Rule>, staged: seq<Rule>)
    requires forall i :: 0 <= i < |staged| ==> staged[i].id !in rules
    requires forall i, j :: 0 <= i < j < |staged| ==> staged[i].id != staged[j].id
    ensures var all := SaveAll(rules, staged);
      && (forall id :: id in rules ==> id in all && all[id] == rules[id])
      && (forall i :: 0 <= i < |staged| ==> staged[i].id in all && all[staged[i].id] == staged[i])
      && (forall id :: id in all && id !in rules ==> exists i :: 0 <= i < |staged| && staged[i].id == id)
  {
    SaveFirstSaves(rules, staged, |staged|);
  }

  lemma {:induction false} SaveFirstSaves(rules: map<RuleId, Rule>, staged: seq<Rule>, n: nat)
    requires n <= |staged|
    requires forall i :: 0 <= i < |staged| ==> staged[i].id !in rules
    requires forall i, j :: 0 <= i < j < |staged| ==> staged[i].id != staged[j].id
    ensures var all := SaveFirst(rules, staged, n);
      && (forall id :: id in rules ==> id in all && all[id] == rules[id])
      && (forall i :: 0 <= i < n ==> staged[i].id in all && all[staged[i].id] == staged[i])
      && (forall id :: id in all && id !in rules ==> exists i :: 0 <= i < n && staged[i].id == id)
  {
    if n > 0 {
      SaveFirstSaves(rules, staged, n - 1);
    }
  }

  lemma ImportedIsConflictFree(rules: map<RuleId, Rule>, activeRules: seq<Rule>, staged: seq<Rule>,
                               ids: seq<RuleId>, orgId: string)
    requires ConflictFree(rules) && Answers(rules, ActiveIn(orgId), activeRules)
    requires StagedWell(activeRules, staged, ids, orgId)
    requires forall i, j :: 0 <= i < j < |ids| ==> ids[i] != ids[j]
    requires forall i :: 0 <= i < |ids| ==> ids[i] !in rules
    ensures ConflictFree(SaveAll(rules, staged))
  {
    SaveAllSaves(rules, staged);
    var all := SaveAll(rules, staged);
    forall a, b ensures Apart(all, a, b) {
      assert Apart(rules, a, b);
      if a in all && b in all && a != b {
        ClashIsSymmetric(all[a], all[b]);
        if a !in rules {
          var i :| 0 <= i < |staged| && staged[i].id == a;
          if b !in rules {
            var j :| 0 <= j < |staged| && staged[j].id == b;
            if i < j {
              StagedPairApart(activeRules, staged, ids, orgId, i, j);
            } else {
              StagedPairApart(activeRules, staged, ids, orgId, j, i);
            }
          } else {
            NoClashWithStored(rules, activeRules, staged, ids, orgId, i, b);
          }
        } else if b !in rules {
          var j :| 0 <= j < |staged| && staged[j].id == b;
          NoClashWithStored(rules, activeRules, staged, ids, orgId, j, a);
        }
      }
    }
  }

  lemma NoClashWithStored(rules: map<RuleId, Rule>, activeRules: seq<Rule>, staged: seq<Rule>, ids: seq<RuleId>,
                          orgId: string, i: nat, id: RuleId)
    requires Answers(rules, ActiveIn(orgId), activeRules) && StagedWell(activeRules, staged, ids, orgId)
    requires i < |staged| && id in rules
    ensures !Clash(staged[i], rules[id])
  {
    assert Clear(Clash, staged[i], activeRules + staged[..i]);
    if ActiveIn(orgId)(rules[id]) {
      assert rules[id] in activeRules + staged[..i];
    }
  }

  lemma ImportKeeps(w: World, e: Engine, items: seq<NewRule>, ids: seq<RuleId>, caller: Caller, now: int, later: int,
                    fetched: seq<Rule>)
    requires Inv(w, e) && Admissible(e, ImportRequest(items, ids, caller, now, later, fetched))
    ensures Kept(w, e, Import(e, items, ids, caller, now, later, fetched).engine)
  {
    if Manages(caller) {
      var read := ReadActive(e, caller.orgId, now, later, fetched);
      ReadKeeps(w, e, caller.orgId, now, later, fetched);
      var result := Stage(e.workflows, read.outcome.listed, items, ids, caller, now, []);
      if result.Ok? {
        StageStagesWell(e.workflows, read.outcome.listed, items, ids, caller, now);
        ImportSaves(w, e, read.engine, read.outcome.listed, result.value, ids, caller.orgId);
      }
    }
  }

  lemma ImportSaves(w: World, e: Engine, read: Engine, activeRules: seq<Rule>, staged: seq<Rule>,
                    ids: seq<RuleId>, orgId: string)
    requires Inv(w, e) && Kept(w, e, read) && read == e.(active := read.active)
    requires Answers(e.rules, ActiveIn(orgId), activeRules) && StagedWell(activeRules, staged, ids, orgId)
    requires forall i, j :: 0 <= i < j < |ids| ==> ids[i] != ids[j]
    requires forall i :: 0 <= i < |ids| ==> ids[i] !in e.rules
    ensures Kept(w, e, read.(rules := SaveAll(e.rules, staged), active := read.active - {orgId}))
  {
    var e' := read.(rules := SaveAll(e.rules, staged), active := read.active - {orgId});
    SaveAllSaves(e.rules, staged);
    ImportedIsConflictFree(e.rules, activeRules, staged, ids, orgId);
    AddedIsVersioned(e, e');
    assert Keyed(e'.rules) by {
      forall id | id in e'.rules ensures e'.rules[id].id == id {
        if id !in e.rules {
          var i :| 0 <= i < |staged| && staged[i].id == id;
        }
      }
    }
    ImportedIsCoherent(e, read, staged, orgId);
    forall key ensures FreshUnder(w, e', key) {
      assert FreshUnder(w, e, key);
      if key in e'.simulations {
        var id, agent, sample :| id in e.rules && key == SimulationKey(w, id, agent, sample)
          && e.simulations[key].result == Simulate(w, e.rules[id], agent, sample);
        assert e'.simulations[key].result == Simulate(w, e'.rules[id], agent, sample);
      }
    }
  }

  lemma ImportedIsCoherent(e: Engine, read: Engine, staged: seq<Rule>, orgId: string)
    requires Coherent(read) && read.rules == e.rules
    requires forall i :: 0 <= i < |staged| ==> staged[i].orgId == orgId && staged[i].id !in e.rules
    requires forall i, j :: 0 <= i < j < |staged| ==> staged[i].id != staged[j].id
    ensures Coherent(read.(rules := SaveAll(e.rules, staged), active := read.active - {orgId}))
  {
    var e' := read.(rules := SaveAll(e.rules, staged), active := read.active - {orgId});
    SaveAllSaves(e.rules, staged);
    forall other ensures CoherentFor(e', other) {
      assert CoherentFor(read, other);
      if other in e'.active {
        OtherOrgAnswers(e.rules, e'.rules, other, read.active[other].rules);
      }
    }
  }

  // ---------- runs ----------

  lemma HandleKeeps(w: World, e: Engine, q: Request)
    requires Inv(w, e) && Admissible(e, q)
    ensures Kept(w, e, Handle(w, e, q).engine)
  {
    match q {
      case CreateRequest(item, id, caller, now) => CreateKeeps(w, e, item, id, caller, now);
      case UpdateRequest(id, patch, caller, now) =>
        if Manages(caller) && Owned(e, id, caller.orgId) {
          ChangeKeeps(w, e, id, RuleEngine.Patched(e.rules[id].content, patch), caller, now);
        }
      case ActivateRequest(id, caller, now) =>
        if Manages(caller) && Owned(e, id, caller.orgId) {
          ChangeKeeps(w, e, id, e.rules[id].content.(isActive := true), caller, now);
        }
      case DeactivateRequest(id, caller, now) =>
        if Manages(caller) && Owned(e, id, caller.orgId) {
          ChangeKeeps(w, e, id, e.rules[id].content.(isActive := false), caller, now);
        }
      case DeleteRequest(id, caller, now) => DeleteKeeps(w, e, id, caller, now);
      case ImportRequest(items, ids, caller, now, later, fetched) =>
        ImportKeeps(w, e, items, ids, caller, now, later, fetched);
      case ReadRequest(orgId, now, later, fetched) => ReadKeeps(w, e, orgId, now, later, fetched);
      case TestRequest(id, agent, sample, caller, now, later, reachable) =>
        TestKeeps(w, e, id, agent, sample, caller, now, later, reachable);
    }
  }

  lemma {:induction false} RunKeeps(w: World, e: Engine, requests: seq<Request>)
    requires Inv(w, e) && AdmissibleRun(w, e, requests)
    ensures Kept(w, e, Run(w, e, requests))
    decreases |requests|
  {
    if requests != [] {
      var e' := Handle(w, e, requests[0]).engine;
      HandleKeeps(w, e, requests[0]);
      RunKeeps(w, e', requests[1..]);
      EvolvesTransitive(e, e', Run(w, e, requests));
    }
  }

  /**
   * Every reachable state: no two active rules of a contradictable type and of the same
   * organisation, type, scope, agent and workflow contradict each other.
   */
  lemma {:induction false} ReachableIsConflictFree(w: World, workflows: map<string, string>,
                                                   requests: seq<Request>, a: RuleId, b: RuleId)
    requires AdmissibleRun(w, Start(workflows), requests)
    requires var e := Run(w, Start(workflows), requests); a in e.rules && b in e.rules && a != b
    ensures var e := Run(w, Start(workflows), requests);
      (&& e.rules[a].content.isActive && e.rules[b].content.isActive
       && Contradictable(e.rules[a].ruleType) && SameTarget(e.rules[a], e.rules[b]))
      ==> !Contradicts(e.rules[a], e.rules[b])
  {
    RunKeeps(w, Start(workflows), requests);
    var e := Run(w, Start(workflows), requests);
    assert Apart(e.rules, a, b);
  }

  /** Every reachable state, any clock: a cached read returns what the direct query would return. */
  lemma {:induction false} ReachableReadIsCurrent(w: World, workflows: map<string, string>, requests: seq<Request>,
                                                  orgId: string, now: int, later: int, fetched: seq<Rule>)
    requires AdmissibleRun(w, Start(workflows), requests)
    requires Answers(Run(w, Start(workflows), requests).rules, ActiveIn(orgId), fetched)
    ensures var e := Run(w, Start(workflows), requests);
      var served := ReadActive(e, orgId, now, later, fetched).outcome.listed;
      Answers(e.rules, ActiveIn(orgId), served) && multiset(served) == multiset(fetched)
  {
    RunKeeps(w, Start(workflows), requests);
    var e := Run(w, Start(workflows), requests);
    ReadKeeps(w, e, orgId, now, later, fetched);
    var served := ReadActive(e, orgId, now, later, fetched).outcome.listed;
    AnswersAgree(e.rules, ActiveIn(orgId), served, fetched);
  }

  /** Two answers to one query hold the same rules; only the order of ties may differ. */
  lemma AnswersAgree(rules: map<RuleId, Rule>, p: Rule -> bool, a: seq<Rule>, b: seq<Rule>)
    requires Answers(rules, p, a) && Answers(rules, p, b)
    ensures multiset(a) == multiset(b)
  {
    forall r ensures multiset(a)[r] == multiset(b)[r] {
      AtMostOnce(a, r);
      AtMostOnce(b, r);
      assert r in a <==> r in b;
    }
  }

  lemma {:induction false} AtMostOnce(list: seq<Rule>, r: Rule)
    requires forall i, j :: 0 <= i < j < |list| ==> list[i].id != list[j].id
    ensures multiset(list)[r] == if r in list then 1 else 0
  {
    if list != [] {
      var n := |list| - 1;
      AtMostOnce(list[..n], r);
      assert list == list[..n] + [list[n]];
      if r == list[n] {
        assert r !in list[..n];
      }
    }
  }

  lemma CachedSimulationIsCurrent(w: World, e: Engine, id: RuleId, agent: AgentType, sample: string)
    requires CollisionFree(w) && SimulationsFresh(w, e)
    requires SimulationKey(w, id, agent, sample) in e.simulations
    ensures id in e.rules
    ensures e.simulations[SimulationKey(w, id, agent, sample)].result == Simulate(w, e.rules[id], agent, sample)
  {
    var key := SimulationKey(w, id, agent, sample);
    assert FreshUnder(w, e, key);
    var id', agent', sample' :| id' in e.rules && key == SimulationKey(w, id', agent', sample')
      && e.simulations[key].result == Simulate(w, e.rules[id'], agent', sample');
    SimulationKeyIsInjective(w, id, agent, sample, id', agent', sample');
  }

  /**
   * Every reachable state, any clock: testing a rule answers with the simulation of its
   * current version, whether or not the answer comes from the cache.
   */
  lemma {:induction false} ReachableTestIsCurrent(w: World, workflows: map<string, string>,
                                                  requests: seq<Request>, id: RuleId,
                                                  agent: AgentType, sample: string, caller: Caller,
                                                  now: int, later: int, reachable: bool)
    requires CollisionFree(w) && AdmissibleRun(w, Start(workflows), requests)
    ensures var e := Run(w, Start(workflows), requests);
      var outcome := TestRule(w, e, id, agent, sample, caller, now, later, reachable).outcome;
      outcome.Simulated? ==> id in e.rules && outcome.result == Simulate(w, e.rules[id], agent, sample)
  {
    RunKeeps(w, Start(workflows), requests);
    var e := Run(w, Start(workflows), requests);
    if SimulationKey(w, id, agent, sample) in e.simulations {
      CachedSimulationIsCurrent(w, e, id, agent, sample);
    }
  }

  /**
   * Every run, cut anywhere: a rule keeps its identity, its snapshots are one per version from
   * its starting version up to the current one, consecutive versions differ, and a state it had
   * at the cut is either its state still or exactly what the snapshot of that version recorded.
   */
  lemma {:induction false} SnapshotsRecordEveryPastState(w: World, workflows: map<string, string>, before: seq<Request>,
                                                         after: seq<Request>, id: RuleId)
    requires AdmissibleRun(w, Start(workflows), before)
    requires AdmissibleRun(w, Run(w, Start(workflows), before), after)
    requires id in Run(w, Start(workflows), before).rules
    ensures var a := Run(w, Start(workflows), before);
      var b := Run(w, a, after);
      && id in b.rules
      && Chained(b.rules[id], Of(b.snapshots, id))
      && RuleEvolves(a.rules[id], Of(a.snapshots, id), b.rules[id], Of(b.snapshots, id))
  {
    RunKeeps(w, Start(workflows), before);
    var a := Run(w, Start(workflows), before);
    RunKeeps(w, a, after);
    var b := Run(w, a, after);
    assert EvolvesAt(a, b, id) && ChainedAt(b, id);
  }

  /** A refused import leaves both tables and the simulations as they were. */
  lemma RefusedImportWritesNothing(e: Engine, items: seq<NewRule>, ids: seq<RuleId>, caller: Caller,
                                   now: int, later: int, fetched: seq<Rule>)
    requires |ids| == |items|
    ensures var r := Import(e, items, ids, caller, now, later, fetched);
      r.outcome.Refused? ==> r.engine.rules == e.rules && r.engine.snapshots == e.snapshots
                             && r.engine.simulations == e.simulations
  {
    var active := ReadActive(e, caller.orgId, now, later, fetched);
  }

  // ---------- what an import refuses ----------

  /** An item contradicts an active rule of the organisation, of whatever type and target, or an item before it. */
  ghost predicate BundleClash(rules: map<RuleId, Rule>, orgId: string, candidates: seq<Rule>, i: nat)
    requires i < |candidates|
  {
    && candidates[i].content.isActive && Contradictable(candidates[i].ruleType)
    && ((exists k :: k in rules && ActiveIn(orgId)(rules[k]) && Contradicts(candidates[i], rules[k]))
        || (exists j :: 0 <= j < i && Contradicts(candidates[i], candidates[j])))
  }

  lemma BundleClashIs(rules: map<RuleId, Rule>, orgId: string, pool: seq<Rule>, candidates: seq<Rule>, i: nat)
    requires Answers(rules, ActiveIn(orgId), pool) && i < |candidates|
    ensures ImportClash(candidates[i], pool + candidates[..i]) <==> BundleClash(rules, orgId, candidates, i)
  {
    FirstConflictFinds(candidates[i], None, pool + candidates[..i]);
    assert forall r :: r in pool + candidates[..i] <==> r in pool || r in candidates[..i];
    assert forall j :: 0 <= j < i ==> candidates[..i][j] == candidates[j];
  }

  ghost predicate Rejected(e: Engine, items: seq<NewRule>, candidates: seq<Rule>, orgId: string, i: nat)
    requires |candidates| == |items|
  {
    i < |items| && (ScopeError(e.workflows, items[i], orgId).Some? || BundleClash(e.rules, orgId, candidates, i))
  }

  /** The item contradicts a rule, and is the first one with anything wrong. */
  ghost predicate ClashesFirst(e: Engine, items: seq<NewRule>, candidates: seq<Rule>, orgId: string, i: nat)
    requires |candidates| == |items|
  {
    && i < |items| && ScopeError(e.workflows, items[i], orgId).None? && BundleClash(e.rules, orgId, candidates, i)
    && forall j :: 0 <= j < i ==> !Rejected(e, items, candidates, orgId, j)
  }

  /**
   * Exactly which bundles an import refuses, and which it refuses for a conflict: some item has a wrong
   * scope or contradicts an active rule of the organisation or an item staged before it; and the first
   * such item has a right scope. Every other bundle is imported whole.
   */
  lemma {:induction false} ImportRefusesIff(w: World, e: Engine, items: seq<NewRule>, ids: seq<RuleId>, caller: Caller,
                                            now: int, later: int, fetched: seq<Rule>)
    requires Inv(w, e) && Admissible(e, ImportRequest(items, ids, caller, now, later, fetched)) && Manages(caller)
    ensures var candidates := Candidates(items, ids, caller, now);
      var outcome := Import(e, items, ids, caller, now, later, fetched).outcome;
      && (outcome.Refused? <==> exists i :: Rejected(e, items, candidates, caller.orgId, i))
      && (outcome == Refused(RuleConflict) <==> exists i :: ClashesFirst(e, items, candidates, caller.orgId, i))
      && (!outcome.Refused? ==> outcome == Imported(candidates))
  {
    var candidates, orgId := Candidates(items, ids, caller, now), caller.orgId;
    var pool := ReadActive(e, orgId, now, later, fetched).outcome.listed;
    ReadKeeps(w, e, orgId, now, later, fetched);
    assert items[0..] == items && ids[0..] == ids && candidates[..0] == [];
    var stop := StageStopsAt(e.workflows, pool, items, ids, caller, now, 0);
    FirstErrorIs(e, pool, items, candidates, orgId, stop);
  }

  /** The place an import stops at is the first rejected item, and its error tells whether it clashes first. */
  lemma FirstErrorIs(e: Engine, pool: seq<Rule>, items: seq<NewRule>, candidates: seq<Rule>, orgId: string, stop: nat)
    requires Answers(e.rules, ActiveIn(orgId), pool) && stop <= |items| == |candidates|
    requires Passes(e.workflows, pool, items, candidates, stop, orgId)
    requires stop < |items| ==> ItemError(e.workflows, pool, items[stop], candidates, stop, orgId).Some?
    ensures stop < |items| <==> exists i :: Rejected(e, items, candidates, orgId, i)
    ensures (exists i :: ClashesFirst(e, items, candidates, orgId, i)) <==>
      (stop < |items| && ItemError(e.workflows, pool, items[stop], candidates, stop, orgId) == Some(RuleConflict))
  {
    forall i: nat | i < |items|
      ensures var error := ItemError(e.workflows, pool, items[i], candidates, i, orgId);
        && (error.Some? <==> Rejected(e, items, candidates, orgId, i))
        && (error == Some(RuleConflict) <==>
              ScopeError(e.workflows, items[i], orgId).None? && BundleClash(e.rules, orgId, candidates, i))
    {
      BundleClashIs(e.rules, orgId, pool, candidates, i);
      ConflictIsNoScopeError(e.workflows, items[i], orgId);
    }
    if stop < |items| {
      assert Rejected(e, items, candidates, orgId, stop);
      if ItemError(e.workflows, pool, items[stop], candidates, stop, orgId) == Some(RuleConflict) {
        assert ClashesFirst(e, items, candidates, orgId, stop);
      }
    }
  }

  lemma ConflictIsNoScopeError(workflows: map<string, string>, item: NewRule, orgId: string)
    ensures ScopeError(workflows, item, orgId) != Some(RuleConflict)
  {
  }

  /** Whatever `create` refuses for a conflict, an import refuses, in whatever bundle it stands. */
  lemma {:induction false} CreateConflictIsRefused(w: World, e: Engine, items: seq<NewRule>, ids: seq<RuleId>,
                                                   caller: Caller, now: int, later: int, fetched: seq<Rule>, i: nat)
    requires Inv(w, e) && Admissible(e, ImportRequest(items, ids, caller, now, later, fetched))
    requires i < |items| && items[i].isActive.GetOr(true)
    requires Create(e, items[i], ids[i], caller, now).outcome == Refused(RuleConflict)
    ensures Import(e, items, ids, caller, now, later, fetched).outcome.Refused?
  {
    var candidates := Candidates(items, ids, caller, now);
    var rule := BuildRule(items[i], ids[i], 1, true, caller, now);
    ConflictIsNoScopeError(e.workflows, items[i], caller.orgId);
    var k :| k in e.rules && Clash(rule, e.rules[k]);
    assert Contradicts(candidates[i], e.rules[k]) == Contradicts(rule, e.rules[k]);
    assert ActiveIn(caller.orgId)(e.rules[k]);
    assert Rejected(e, items, candidates, caller.orgId, i);
    ImportRefusesIff(w, e, items, ids, caller, now, later, fetched);
  }
}
