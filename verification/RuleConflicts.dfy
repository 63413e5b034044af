/**
 * What a conflict between two rules is, said of the texts their conditions hold, and what it means for
 * the rules that are active together.
 */
module RuleConflicts {
  import opened Common
  import opened Rules

  // ---------- texts and fields ----------

  predicate AllSpace(s: string) {
    forall i :: 0 <= i < |s| ==> IsSpace(s[i])
  }

  /** `t` is `s` without the white space around it. */
  ghost predicate TrimmedTo(s: string, t: string) {
    && (exists i, j :: 0 <= i <= j <= |s| && AllSpace(s[..i]) && AllSpace(s[j..]) && t == s[i..j])
    && (t != "" ==> !IsSpace(t[0]) && !IsSpace(t[|t| - 1]))
  }

  lemma {:induction false} TrimStartCuts(s: string) returns (i: nat)
    ensures i <= |s| && AllSpace(s[..i]) && TrimStart(s) == s[i..]
    ensures i < |s| ==> !IsSpace(s[i])
  {
    i := 0;
    if s != "" && IsSpace(s[0]) {
      var j := TrimStartCuts(s[1..]);
      i := j + 1;
      assert forall k :: 0 < k < i ==> s[k] == s[1..][..j][k - 1];
    }
  }

  lemma {:induction false} TrimEndCuts(s: string) returns (j: nat)
    ensures j <= |s| && AllSpace(s[j..]) && TrimEnd(s) == s[..j]
    ensures j > 0 ==> !IsSpace(s[j - 1])
  {
    j := |s|;
    if s != "" && IsSpace(s[|s| - 1]) {
      var n := |s| - 1;
      j := TrimEndCuts(s[..n]);
      assert s[..n][..j] == s[..j];
      assert s[j..] == s[..n][j..] + [s[n]];
    }
  }

  lemma TrimTrims(s: string)
    ensures TrimmedTo(s, Trim(s))
  {
    var i := TrimStartCuts(s);
    var rest := s[i..];
    var j := TrimEndCuts(rest);
    assert rest[..j] == s[i..i + j] && rest[j..] == s[i + j..];
    if j > 0 {
      assert rest[0] == s[i];
    }
  }

  /** The value under a key is that of the first field with the key. */
  lemma {:induction false} LookupIsFirst(fields: seq<Field>, key: string, i: nat)
    requires i < |fields| && fields[i].key == key && forall j :: 0 <= j < i ==> fields[j].key != key
    ensures Lookup(fields, key) == Some(fields[i].value)
  {
    if i > 0 {
      assert forall j :: 0 <= j < |fields[1..]| ==> fields[1..][j] == fields[j + 1];
      LookupIsFirst(fields[1..], key, i - 1);
    }
  }

  /** Both conditions are absent, or some key has equal values in both. */
  ghost predicate Share(l: Condition, r: Condition) {
    (l.None? && r.None?)
    || (l.Some? && r.Some?
        && exists key :: Lookup(l.value, key).Some? && Lookup(l.value, key) == Lookup(r.value, key))
  }

  lemma OverlapIsShare(l: Condition, r: Condition)
    ensures ConditionsOverlap(l, r) <==> Share(l, r)
  {
    if l.Some? && r.Some? {
      if key :| Lookup(l.value, key).Some? && Lookup(l.value, key) == Lookup(r.value, key) {
        LookupFindsField(l.value, key);
        var i :| 0 <= i < |l.value| && l.value[i].key == key;
      }
      if ConditionsOverlap(l, r) {
        var i :| 0 <= i < |l.value| && Lookup(r.value, l.value[i].key).Some?
          && Lookup(l.value, l.value[i].key) == Lookup(r.value, l.value[i].key);
      }
    }
  }

  // ---------- what a condition names ----------

  /** The first of the keys that holds a non-blank string holds this one, give or take white space around it. */
  ghost predicate Names(condition: Condition, keys: seq<string>, text: string) {
    exists k :: FirstHeld(condition, keys, k) && text == Trim(Lookup(condition.value, keys[k]).value.s)
  }

  ghost predicate FirstHeld(condition: Condition, keys: seq<string>, k: int) {
    0 <= k < |keys| && HoldsText(condition, keys[k]) && forall i :: 0 <= i < k ==> !HoldsText(condition, keys[i])
  }

  lemma {:induction false} FirstHeldExists(condition: Condition, keys: seq<string>, n: nat) returns (k: nat)
    requires n <= |keys| && forall i :: 0 <= i < n ==> !HoldsText(condition, keys[i])
    ensures k <= |keys| && forall i :: 0 <= i < k ==> !HoldsText(condition, keys[i])
    ensures k < |keys| ==> HoldsText(condition, keys[k])
    decreases |keys| - n
  {
    k := n;
    if n < |keys| && !HoldsText(condition, keys[n]) {
      k := FirstHeldExists(condition, keys, n + 1);
    }
  }

  lemma {:induction false} PickIsNamed(condition: Condition, keys: seq<string>)
    ensures forall text :: Names(condition, keys, text) <==> PickFirst(condition, keys) == Some(text)
  {
    var k := FirstHeldExists(condition, keys, 0);
    PickFirstPicks(condition, keys, k);
    if k < |keys| {
      assert FirstHeld(condition, keys, k);
      forall j | FirstHeld(condition, keys, j) ensures j == k {
        FirstHeldIsOne(condition, keys, j, k);
      }
    }
  }

  lemma FirstHeldIsOne(condition: Condition, keys: seq<string>, j: int, k: int)
    requires FirstHeld(condition, keys, j) && FirstHeld(condition, keys, k)
    ensures j == k
  {
  }

  /** Both conditions name something under these keys. */
  ghost predicate BothName(l: Condition, r: Condition, keys: seq<string>) {
    exists t, u :: Names(l, keys, t) && Names(r, keys, u)
  }

  /** Both name the same. */
  ghost predicate NameAlike(l: Condition, r: Condition, keys: seq<string>) {
    exists t :: Names(l, keys, t) && Names(r, keys, t)
  }

  // ---------- the conflict ----------

  ghost predicate SameInstruction(a: Rule, b: Rule) {
    Trim(a.content.instruction) == Trim(b.content.instruction)
  }

  /** Two rules about one subject that each say something of it disagree when they say different things. */
  ghost predicate Disagree(a: Rule, b: Rule, subject: seq<string>, said: seq<string>) {
    var l, r := a.content.condition, b.content.condition;
    if NameAlike(l, r, subject) && BothName(l, r, said) then !NameAlike(l, r, said)
    else !SameInstruction(a, b)
  }

  lemma VerdictIsDisagree(a: Rule, b: Rule, subject: seq<string>, said: seq<string>)
    ensures Verdict(a.content.condition, b.content.condition, subject, said).GetOr(!SameInstruction(a, b))
        <==> Disagree(a, b, subject, said)
  {
    var l, r := a.content.condition, b.content.condition;
    PickIsNamed(l, subject);
    PickIsNamed(r, subject);
    PickIsNamed(l, said);
    PickIsNamed(r, said);
    if PickFirst(l, subject).Some? {
      assert Names(l, subject, PickFirst(l, subject).value);
    }
    if PickFirst(l, said).Some? && PickFirst(r, said).Some? {
      assert Names(l, said, PickFirst(l, said).value) && Names(r, said, PickFirst(r, said).value);
    }
  }

  /**
   * What a conflict is, by the candidate's type. The conditions must share something. A mapping then
   * conflicts with a rule that maps the same source: when both name a target, exactly if the targets
   * differ. A structural constraint conflicts with one about the same structure: when both name a mode,
   * exactly if the modes differ. In every other case the instructions decide.
   */
  lemma ContradictsIff(candidate: Rule, existing: Rule)
    ensures Contradicts(candidate, existing) <==>
      && Share(candidate.content.condition, existing.content.condition)
      && match candidate.ruleType
         case ActorMapping =>
           Disagree(candidate, existing, ["source_label", "source", "actor", "alias"],
                    ["canonical", "canonical_actor", "target", "mapped_actor"])
         case StructuralConstraint =>
           Disagree(candidate, existing, ["structure", "pattern", "element"], ["mode", "constraint", "requirement"])
         case _ => !SameInstruction(candidate, existing)
  {
    OverlapIsShare(candidate.content.condition, existing.content.condition);
    VerdictIsDisagree(candidate, existing, SOURCE_KEYS, TARGET_KEYS);
    VerdictIsDisagree(candidate, existing, STRUCTURE_KEYS, MODE_KEYS);
  }
}
