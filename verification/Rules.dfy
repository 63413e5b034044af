/** Rules, their JSON conditions, and the pairwise conflict check. */
module Rules {
  import opened Common

  /** JSON values. An object is its fields in order, so equality is equality of serialised text. */
  datatype Json =
    | JNull
    | JBool(b: bool)
    | JNumber(n: real)
    | JString(s: string)
    | JArray(items: seq<Json>)
    | JObject(fields: seq<Field>)

  datatype Field = Field(key: string, value: Json)

  /** A rule condition: `null`, or a JSON object. */
  type Condition = Option<seq<Field>>

  datatype RuleType = Extraction | ActorMapping | StructuralConstraint | Validation | NamingConvention | PromptInjection

  datatype RuleScope = OrgScope | WorkflowScope | AgentScope

  datatype AgentType =
    | Orchestrator | Intake | ExtractionAgent | Pattern | GapDetection | Qa | ValidationAgent | Export | Divergence
    | RulesSkillsLoader

  /** A generated key: a UUID, so never a string with a colon in it. */
  type RuleId = s: string | ':' !in s

  /** The part of a rule that its versions record. */
  datatype Content = Content(instruction: string, condition: Condition, priority: int, isActive: bool)

  datatype Rule = Rule(
    id: RuleId,
    orgId: string,
    workflowId: Option<string>,
    name: string,
    description: Option<string>,
    ruleType: RuleType,
    scope: RuleScope,
    targetAgent: Option<AgentType>,
    content: Content,
    version: int,
    createdBy: string,
    createdAt: int,
    updatedAt: int)

  // ---------- text helpers ----------

  predicate IsSpace(c: char) {
    c == ' ' || c == '\t' || c == '\n' || c == '\r' || c == '\U{000B}' || c == '\U{000C}' || c == '\U{00A0}'
    || c == '\U{1680}' || ('\U{2000}' <= c <= '\U{200A}') || c == '\U{2028}' || c == '\U{2029}' || c == '\U{202F}'
    || c == '\U{205F}' || c == '\U{3000}' || c == '\U{FEFF}'
  }

  function TrimStart(s: string): string {
    if s != "" && IsSpace(s[0]) then TrimStart(s[1..]) else s
  }

  function TrimEnd(s: string): string {
    if s != "" && IsSpace(s[|s| - 1]) then TrimEnd(s[..|s| - 1]) else s
  }

  function Trim(s: string): string {
    TrimEnd(TrimStart(s))
  }

  // ---------- the conflict relation ----------

  function Lookup(fields: seq<Field>, key: string): Option<Json> {
    if fields == [] then None
    else if fields[0].key == key then Some(fields[0].value)
    else Lookup(fields[1..], key)
  }

  /** Both conditions absent, or a shared key with equal values. */
  predicate ConditionsOverlap(left: Condition, right: Condition) {
    match (left, right)
    case (None, None) => true
    case (Some(l), Some(r)) =>
      exists i :: 0 <= i < |l| && Lookup(r, l[i].key).Some? && Lookup(l, l[i].key) == Lookup(r, l[i].key)
    case _ => false
  }

  /** The first of `keys` that holds a non-blank string, trimmed. */
  function PickFirst(condition: Condition, keys: seq<string>): Option<string>
    decreases |keys|
  {
    if condition.None? || keys == [] then None
    else
      match Lookup(condition.value, keys[0])
      case Some(JString(s)) => if |Trim(s)| > 0 then Some(Trim(s)) else PickFirst(condition, keys[1..])
      case _ => PickFirst(condition, keys[1..])
  }

  const SOURCE_KEYS := ["source_label", "source", "actor", "alias"]
  const TARGET_KEYS := ["canonical", "canonical_actor", "target", "mapped_actor"]
  const STRUCTURE_KEYS := ["structure", "pattern", "element"]
  const MODE_KEYS := ["mode", "constraint", "requirement"]

  /**
   * Two conditions that name the same subject and both name an object settle the question:
   * they contradict each other exactly when the objects differ.
   */
  function Verdict(left: Condition, right: Condition, subject: seq<string>, object_: seq<string>): Option<bool> {
    var sl, sr := PickFirst(left, subject), PickFirst(right, subject);
    var ol, or := PickFirst(left, object_), PickFirst(right, object_);
    if sl.Some? && sl == sr && ol.Some? && or.Some? then Some(ol != or) else None
  }

  predicate TypeSpecificConflict(ruleType: RuleType, left: Content, right: Content) {
    var verdict :=
      match ruleType
      case ActorMapping => Verdict(left.condition, right.condition, SOURCE_KEYS, TARGET_KEYS)
      case StructuralConstraint => Verdict(left.condition, right.condition, STRUCTURE_KEYS, MODE_KEYS)
      case _ => None;
    verdict.GetOr(Trim(left.instruction) != Trim(right.instruction))
  }

  /** The check of one stored rule against a candidate; only the candidate's type is consulted. */
  predicate Contradicts(candidate: Rule, existing: Rule) {
    && ConditionsOverlap(candidate.content.condition, existing.content.condition)
    && TypeSpecificConflict(candidate.ruleType, candidate.content, existing.content)
  }

  predicate Contradictable(ruleType: RuleType) {
    ruleType == ActorMapping || ruleType == StructuralConstraint
  }

  /** The rules the check for one candidate queries: same organisation, type, scope, agent and workflow. */
  predicate SameTarget(a: Rule, b: Rule) {
    && a.orgId == b.orgId && a.ruleType == b.ruleType && a.scope == b.scope
    && a.targetAgent == b.targetAgent && a.workflowId == b.workflowId
  }

  lemma {:induction false} LookupFindsField(fields: seq<Field>, key: string)
    ensures Lookup(fields, key).Some? <==> exists i :: 0 <= i < |fields| && fields[i].key == key
  {
    if fields != [] {
      LookupFindsField(fields[1..], key);
      if Lookup(fields[1..], key).Some? {
        var i :| 0 <= i < |fields[1..]| && fields[1..][i].key == key;
        assert fields[i + 1].key == key;
      }
      forall i | 0 < i < |fields| && fields[i].key == key ensures Lookup(fields, key).Some? {
        assert fields[1..][i - 1].key == key;
      }
    }
  }

  lemma OverlapIsSymmetric(left: Condition, right: Condition)
    requires ConditionsOverlap(left, right)
    ensures ConditionsOverlap(right, left)
  {
    if left.Some? {
      var l, r := left.value, right.value;
      var i :| 0 <= i < |l| && Lookup(r, l[i].key).Some? && Lookup(l, l[i].key) == Lookup(r, l[i].key);
      LookupFindsField(r, l[i].key);
      var j :| 0 <= j < |r| && r[j].key == l[i].key;
      assert Lookup(l, r[j].key).Some? && Lookup(r, r[j].key) == Lookup(l, r[j].key);
    }
  }

  /** Between rules of one type it does not matter which of the two was there first. */
  lemma ContradictionIsSymmetric(a: Rule, b: Rule)
    requires a.ruleType == b.ruleType
    ensures Contradicts(a, b) == Contradicts(b, a)
  {
    if ConditionsOverlap(a.content.condition, b.content.condition) {
      OverlapIsSymmetric(a.content.condition, b.content.condition);
    }
    if ConditionsOverlap(b.content.condition, a.content.condition) {
      OverlapIsSymmetric(b.content.condition, a.content.condition);
    }
  }

  /** The condition holds a non-blank string under the key. */
  predicate HoldsText(condition: Condition, key: string) {
    condition.Some? &&
    match Lookup(condition.value, key)
    case Some(JString(s)) => |Trim(s)| > 0
    case _ => false
  }

  /** What `PickFirst` picks: the trimmed string under the first listed key that holds a non-blank one, if any does. */
  lemma {:induction false} PickFirstPicks(condition: Condition, keys: seq<string>, k: nat)
    requires k <= |keys|
    requires forall i :: 0 <= i < k ==> !HoldsText(condition, keys[i])
    requires k < |keys| ==> HoldsText(condition, keys[k])
    ensures PickFirst(condition, keys) ==
      if k < |keys| then Some(Trim(Lookup(condition.value, keys[k]).value.s)) else None
    decreases |keys|
  {
    if k > 0 {
      assert !HoldsText(condition, keys[0]);
      assert forall i :: 0 <= i < |keys[1..]| ==> keys[1..][i] == keys[i + 1];
      PickFirstPicks(condition, keys[1..], k - 1);
    }
  }

  const SOURCE_TO_TARGET: seq<Field> := [Field("source", JString("x")), Field("target", JString("y"))]

  lemma {:induction false} SourceToTargetHolds(key: string)
    ensures Lookup(SOURCE_TO_TARGET, key) ==
      if key == "source" then Some(JString("x")) else if key == "target" then Some(JString("y")) else None
  {
    var rest := SOURCE_TO_TARGET[1..];
    assert rest == [Field("target", JString("y"))] && rest[1..] == [];
    assert Lookup(rest[1..], key) == None;
    assert Lookup(rest, key) == if key == "target" then Some(JString("y")) else None;
  }

  /** Such a condition names a mapping, and no structure. */
  lemma {:induction false} SourceToTargetPicks(condition: Condition)
    requires condition == Some(SOURCE_TO_TARGET)
    ensures PickFirst(condition, SOURCE_KEYS).Some? && PickFirst(condition, TARGET_KEYS).Some?
    ensures PickFirst(condition, STRUCTURE_KEYS).None?
  {
    forall key: string ensures HoldsText(condition, key) <==> key == "source" || key == "target" {
      SourceToTargetHolds(key);
      assert Trim("x") == "x" && Trim("y") == "y";
    }
    PickFirstPicks(condition, SOURCE_KEYS, 1);
    PickFirstPicks(condition, TARGET_KEYS, 2);
    PickFirstPicks(condition, STRUCTURE_KEYS, 3);
  }

  /** Across types it does matter, which is why a bundle import can refuse what `create` accepts. */
  lemma ContradictionIsNotSymmetricAcrossTypes(a: Rule, b: Rule)
    requires a.ruleType == ActorMapping && b.ruleType == StructuralConstraint
    requires a.content.condition == b.content.condition == Some(SOURCE_TO_TARGET)
    requires Trim(a.content.instruction) != Trim(b.content.instruction)
    ensures !Contradicts(a, b) && Contradicts(b, a)
  {
    SourceToTargetPicks(a.content.condition);
    SourceToTargetHolds(SOURCE_TO_TARGET[0].key);
  }

  // ---------- searching a pool ----------

  /** The first rule of the pool, other than `exclude`, that contradicts the candidate. */
  function FirstConflict(candidate: Rule, exclude: Option<RuleId>, pool: seq<Rule>): Option<Rule> {
    if pool == [] then None
    else if Some(pool[0].id) != exclude && Contradicts(candidate, pool[0]) then Some(pool[0])
    else FirstConflict(candidate, exclude, pool[1..])
  }

  lemma {:induction false} FirstConflictFinds(candidate: Rule, exclude: Option<RuleId>, pool: seq<Rule>)
    ensures FirstConflict(candidate, exclude, pool).None?
      <==> forall r :: r in pool && Some(r.id) != exclude ==> !Contradicts(candidate, r)
  {
    if pool != [] {
      FirstConflictFinds(candidate, exclude, pool[1..]);
      assert forall r :: r in pool <==> r == pool[0] || r in pool[1..];
    }
  }

  /** The linear search of the conflict check. */
  method FindConflict(candidate: Rule, exclude: Option<RuleId>, pool: seq<Rule>) returns (found: Option<Rule>)
    ensures found == FirstConflict(candidate, exclude, pool)
  {
    for i := 0 to |pool|
      invariant FirstConflict(candidate, exclude, pool) == FirstConflict(candidate, exclude, pool[i..])
    {
      assert pool[i..][1..] == pool[i + 1..];
      if Some(pool[i].id) != exclude && Contradicts(candidate, pool[i]) {
        return Some(pool[i]);
      }
    }
    return None;
  }
}
