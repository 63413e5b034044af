/** Which active rules accompany an AI task of a session. */
module RuleContext {
  import opened Common
  import opened Rules
  import opened StableSort
  import opened RuleEngine
  import opened RuleSafety

  /** A value JavaScript's `includes` can find: objects and arrays are compared by reference, hence never found. */
  predicate Primitive(v: Json) {
    !v.JArray? && !v.JObject?
  }

  predicate Includes(items: seq<Json>, v: Json) {
    Primitive(v) && v in items
  }

  /** One entry of a condition against the context value of its key (absent: `None`). */
  predicate EntryMatches(actual: Option<Json>, expected: Json) {
    match (actual, expected)
    case (Some(JArray(present)), JArray(wanted)) => exists i :: 0 <= i < |wanted| && Includes(present, wanted[i])
    case (None, JArray(_)) => false
    case (Some(v), JArray(wanted)) => Includes(wanted, v)
    case (Some(JArray(present)), _) => Includes(present, expected)
    case (_, _) => actual == Some(expected)
  }

  predicate MatchesCondition(condition: Condition, context: seq<Field>) {
    condition.None? ||
    forall i :: 0 <= i < |condition.value| ==>
      EntryMatches(Lookup(context, condition.value[i].key), condition.value[i].value)
  }

  predicate MatchesScope(rule: Rule, workflowId: string) {
    if rule.scope == WorkflowScope then rule.workflowId == Some(workflowId)
    else rule.workflowId.None? || rule.workflowId == Some(workflowId)
  }

  function InScope(workflowId: string): Rule -> bool {
    (r: Rule) => MatchesScope(r, workflowId)
  }

  function InCondition(context: seq<Field>): Rule -> bool {
    (r: Rule) => MatchesCondition(r.content.condition, context)
  }

  /** Two filters and a sort over the active rules. */
  function SelectForContext(activeRules: seq<Rule>, workflowId: string, context: seq<Field>): seq<Rule> {
    Sort(Filter(Filter(activeRules, InScope(workflowId)), InCondition(context)), ByPriority)
  }

  function Applicable(orgId: string, workflowId: string, context: seq<Field>): Rule -> bool {
    (r: Rule) => ActiveIn(orgId)(r) && InScope(workflowId)(r) && InCondition(context)(r)
  }

  // ---------- what matches ----------

  /** A rule with a workflow applies to that workflow alone; one without to all, unless its scope demands one. */
  lemma ScopeMatchesIff(rule: Rule, workflowId: string)
    ensures MatchesScope(rule, workflowId) <==>
      if rule.workflowId.Some? then rule.workflowId.value == workflowId else rule.scope != WorkflowScope
  {
  }

  /** A list offers its members, anything else itself; lists and objects inside a list are not compared. */
  predicate Offers(json: Json, v: Json) {
    Primitive(v) && if json.JArray? then v in json.items else json == v
  }

  /**
   * An entry matches when context and condition have a value in common, each taken as the list it is or
   * as a list of one; and two objects match when they are equal. A key the context lacks matches nothing.
   */
  lemma EntryMatchesIff(actual: Option<Json>, expected: Json)
    ensures EntryMatches(actual, expected) <==>
      && actual.Some?
      && ((exists v :: Offers(actual.value, v) && Offers(expected, v))
          || (expected.JObject? && actual.value == expected))
  {
    if actual.Some? {
      if v :| Offers(actual.value, v) && Offers(expected, v) {
        assert EntryMatches(actual, expected);
      }
      if actual.value.JArray? && expected.JArray? && EntryMatches(actual, expected) {
        var i :| 0 <= i < |expected.items| && Includes(actual.value.items, expected.items[i]);
        assert Offers(actual.value, expected.items[i]) && Offers(expected, expected.items[i]);
      } else if EntryMatches(actual, expected) && !expected.JObject? {
        var v := if expected.JArray? then actual.value else expected;
        assert Offers(actual.value, v) && Offers(expected, v);
      }
    }
  }

  /** A condition matches when each of its entries does, looked up in the context by its key. */
  lemma {:induction false} ConditionMatchesIff(condition: Condition, context: seq<Field>)
    ensures MatchesCondition(condition, context) <==>
      condition.None? || forall f :: f in condition.value ==> EntryMatches(Lookup(context, f.key), f.value)
  {
    if condition.Some? {
      assert forall i :: 0 <= i < |condition.value| ==> condition.value[i] in condition.value;
    }
  }

  ghost predicate IdsApart(list: seq<Rule>) {
    forall i, j :: 0 <= i < j < |list| ==> list[i].id != list[j].id
  }

  lemma PrependKeepsIdsApart(r: Rule, list: seq<Rule>)
    requires IdsApart(list) && forall other :: other in list ==> other.id != r.id
    ensures IdsApart([r] + list)
  {
  }

  lemma {:induction false} FilterKeepsIdsApart(list: seq<Rule>, p: Rule -> bool)
    requires IdsApart(list)
    ensures IdsApart(Filter(list, p))
  {
    if list != [] {
      FilterKeepsIdsApart(list[1..], p);
      FilterMembers(list[1..], p);
      if p(list[0]) {
        forall other | other in Filter(list[1..], p) ensures other.id != list[0].id {
          assert other in list[1..];
        }
        PrependKeepsIdsApart(list[0], Filter(list[1..], p));
      } else {
        assert [] + Filter(list[1..], p) == Filter(list[1..], p);
      }
    }
  }

  lemma {:induction false} FilteredAnswer(rules: map<RuleId, Rule>, p: Rule -> bool, q: Rule -> bool,
                                          both: Rule -> bool, list: seq<Rule>)
    requires Answers(rules, p, list)
    requires forall r :: both(r) == (p(r) && q(r))
    ensures Answers(rules, both, Filter(list, q))
  {
    FilterMembers(list, q);
    FilterKeepsIdsApart(list, q);
    FilterOfSorted(list, q, ByPriority);
  }

  /**
   * In every reachable state, from the cache or not: the selection is exactly the active rules of
   * the organisation that match the session's scope and condition, each once, by priority; the
   * final sort moves nothing.
   */
  lemma {:induction false} ContextSelectionIsExact(w: World, workflows: map<string, string>,
                                                   requests: seq<Request>, orgId: string, now: int, later: int,
                                                   fetched: seq<Rule>, workflowId: string, context: seq<Field>)
    requires AdmissibleRun(w, Start(workflows), requests)
    requires Answers(Run(w, Start(workflows), requests).rules, ActiveIn(orgId), fetched)
    ensures var e := Run(w, Start(workflows), requests);
      var activeRules := ReadActive(e, orgId, now, later, fetched).outcome.listed;
      var selected := SelectForContext(activeRules, workflowId, context);
      && Answers(e.rules, Applicable(orgId, workflowId, context), selected)
      && selected == Filter(Filter(activeRules, InScope(workflowId)), InCondition(context))
  {
    RunKeeps(w, Start(workflows), requests);
    var e := Run(w, Start(workflows), requests);
    ReadKeeps(w, e, orgId, now, later, fetched);
    var activeRules := ReadActive(e, orgId, now, later, fetched).outcome.listed;
    var scoped: Rule -> bool := (r: Rule) => ActiveIn(orgId)(r) && InScope(workflowId)(r);
    FilteredAnswer(e.rules, ActiveIn(orgId), InScope(workflowId), scoped, activeRules);
    var inScope := Filter(activeRules, InScope(workflowId));
    FilteredAnswer(e.rules, scoped, InCondition(context), Applicable(orgId, workflowId, context), inScope);
    SortOfSorted(Filter(inScope, InCondition(context)), ByPriority);
  }
}
