/** The element diff of two workflow versions, and the patch it amounts to. */
module VersionDiff {
  import opened Common

  /** `text` is the element as `JSON.stringify` writes it. */
  datatype Element = Element(id: string, text: string)

  /** What a version stores as its elements_json. */
  datatype Stored = NotAnObject | WithoutList | WithList(elements: seq<Element>)

  datatype NotFound = NoWorkflow | NoVersion

  datatype Diff = Diff(added: seq<Element>, removed: seq<Element>, modified: seq<Element>)

  function ExtractElements(stored: Stored): seq<Element> {
    if stored.WithList? then stored.elements else []
  }

  function Ids(xs: seq<Element>): set<string> {
    set e <- xs :: e.id
  }

  /** `Array.prototype.find` by id: the first element that carries it. */
  function Find(xs: seq<Element>, id: string): Option<Element> {
    if xs == [] then None else if xs[0].id == id then Some(xs[0]) else Find(xs[1..], id)
  }

  function Unknown(xs: seq<Element>): Element -> bool {
    (e: Element) => e.id !in Ids(xs)
  }

  function Changed(xs: seq<Element>): Element -> bool {
    (e: Element) => e.id in Ids(xs) && Find(xs, e.id) != Some(e)
  }

  function DiffOf(xs: seq<Element>, ys: seq<Element>): Diff {
    Diff(Filter(ys, Unknown(xs)), Filter(xs, Unknown(ys)), Filter(ys, Changed(xs)))
  }

  /** The workflow must be the organisation's, and both versions must exist. */
  function ComputeDiff(owned: bool, v1: Option<Stored>, v2: Option<Stored>): Result<Diff, NotFound> {
    if !owned then Err(NoWorkflow)
    else if v1.None? || v2.None? then Err(NoVersion)
    else Ok(DiffOf(ExtractElements(v1.value), ExtractElements(v2.value)))
  }

  /** The elements by id; the first of each id. */
  function ById(xs: seq<Element>): map<string, Element> {
    FindNamesAll(xs);
    map id <- Ids(xs) :: Find(xs, id).value
  }

  /** Drop what was removed, insert what was added, overwrite what was modified. */
  function Apply(d: Diff, m: map<string, Element>): map<string, Element> {
    (m - Ids(d.removed)) + ById(d.added) + ById(d.modified)
  }

  /** No id stands for two different elements. */
  ghost predicate IdsIdentify(xs: seq<Element>) {
    forall e, f :: e in xs && f in xs && e.id == f.id ==> e == f
  }

  lemma {:induction false} FindNames(xs: seq<Element>, id: string)
    ensures match Find(xs, id)
      case Some(e) => e in xs && e.id == id
      case None => id !in Ids(xs)
  {
    if xs != [] && xs[0].id != id {
      FindNames(xs[1..], id);
      assert forall e :: e in xs <==> e == xs[0] || e in xs[1..];
    }
  }

  lemma {:induction false} FindNamesAll(xs: seq<Element>)
    ensures forall id :: id in Ids(xs) <==> Find(xs, id).Some?
    ensures forall id :: Find(xs, id).Some? ==> Find(xs, id).value in xs && Find(xs, id).value.id == id
  {
    forall id ensures id in Ids(xs) <==> Find(xs, id).Some? {
      FindNames(xs, id);
    }
    forall id | Find(xs, id).Some? ensures Find(xs, id).value in xs && Find(xs, id).value.id == id {
      FindNames(xs, id);
    }
  }

  lemma DiffMembers(xs: seq<Element>, ys: seq<Element>)
    ensures var d := DiffOf(xs, ys);
      && (forall e :: e in d.added <==> e in ys && Unknown(xs)(e))
      && (forall e :: e in d.removed <==> e in xs && Unknown(ys)(e))
      && (forall e :: e in d.modified <==> e in ys && Changed(xs)(e))
  {
    FilterMembers(ys, Unknown(xs));
    FilterMembers(xs, Unknown(ys));
    FilterMembers(ys, Changed(xs));
  }

  /** Every id of either version is in at most one of the three lists, and in none exactly when unchanged. */
  lemma EachIdIsReportedOnce(xs: seq<Element>, ys: seq<Element>, id: string)
    requires IdsIdentify(ys)
    ensures var d := DiffOf(xs, ys);
      && (id in Ids(d.added) <==> id !in Ids(xs) && id in Ids(ys))
      && (id in Ids(d.removed) <==> id in Ids(xs) && id !in Ids(ys))
      && (id in Ids(d.modified) <==> id in Ids(xs) && id in Ids(ys) && ById(xs)[id] != ById(ys)[id])
  {
    DiffMembers(xs, ys);
    FindNamesAll(xs);
    FindNamesAll(ys);
  }

  /** The first element of an id survives a filter that keeps it. */
  lemma {:induction false} FirstKept(xs: seq<Element>, p: Element -> bool, id: string)
    requires Find(xs, id).Some? && p(Find(xs, id).value)
    ensures Find(Filter(xs, p), id) == Find(xs, id)
  {
    if xs[0].id == id {
      assert Filter(xs, p)[0] == xs[0];
    } else {
      FirstKept(xs[1..], p, id);
      if p(xs[0]) {
        assert Filter(xs, p)[1..] == Filter(xs[1..], p);
      } else {
        assert Filter(xs, p) == Filter(xs[1..], p);
      }
    }
  }

  /** Where the first element of an id is the same in both versions, the second version has no other of that id. */
  ghost predicate UnchangedIsAlone(xs: seq<Element>, ys: seq<Element>, id: string) {
    Find(xs, id).Some? && Find(xs, id) == Find(ys, id) ==>
      forall e :: e in ys && e.id == id ==> Find(ys, id) == Some(e)
  }

  function Lookup(m: map<string, Element>, id: string): Option<Element> {
    if id in m then Some(m[id]) else None
  }

  lemma {:induction false} LookupIsFind(xs: seq<Element>, id: string)
    ensures Lookup(ById(xs), id) == Find(xs, id)
    ensures id in Ids(xs) <==> Find(xs, id).Some?
  {
    FindNamesAll(xs);
  }

  function OrElse(a: Option<Element>, b: Option<Element>): Option<Element> {
    if a.Some? then a else b
  }

  /** A patch overwrites, then inserts, then drops. */
  lemma {:induction false} LookupPatched(d: Diff, xs: seq<Element>, id: string)
    ensures Lookup(Apply(d, ById(xs)), id) ==
      OrElse(Find(d.modified, id), OrElse(Find(d.added, id), if Find(d.removed, id).Some? then None else Find(xs, id)))
  {
    LookupIsFind(d.modified, id);
    LookupIsFind(d.added, id);
    LookupIsFind(d.removed, id);
    LookupIsFind(xs, id);
  }

  /** The element of one id after the patch. */
  lemma PatchedToIff(xs: seq<Element>, ys: seq<Element>, id: string)
    ensures Lookup(Apply(DiffOf(xs, ys), ById(xs)), id) == Lookup(ById(ys), id) <==> UnchangedIsAlone(xs, ys, id)
  {
    var d := DiffOf(xs, ys);
    LookupPatched(d, xs, id);
    LookupIsFind(ys, id);
    DiffMembers(xs, ys);
    FindNames(xs, id);
    FindNames(ys, id);
    FindNames(d.added, id);
    FindNames(d.modified, id);
    FindNames(d.removed, id);
    if Find(ys, id).Some? {
      if id !in Ids(xs) {
        FirstKept(ys, Unknown(xs), id);
      } else if Find(xs, id) != Find(ys, id) {
        FirstKept(ys, Changed(xs), id);
      }
    }
  }

  lemma SameLookups(m: map<string, Element>, n: map<string, Element>)
    ensures m == n <==> forall id :: Lookup(m, id) == Lookup(n, id)
  {
    if forall id :: Lookup(m, id) == Lookup(n, id) {
      assert forall id :: id in m <==> Lookup(m, id).Some?;
      assert forall id :: id in n <==> Lookup(n, id).Some?;
      assert forall id :: id in m ==> Some(m[id]) == Lookup(m, id) == Lookup(n, id) == Some(n[id]);
    }
  }

  /**
   * Exactly when the diff is a patch, that is, when applying it to the first version gives the second:
   * an element that is unchanged must be the only one of its id in the second version.
   */
  lemma DiffIsPatchIff(xs: seq<Element>, ys: seq<Element>)
    ensures Apply(DiffOf(xs, ys), ById(xs)) == ById(ys) <==> forall id :: UnchangedIsAlone(xs, ys, id)
  {
    var patched := Apply(DiffOf(xs, ys), ById(xs));
    SameLookups(patched, ById(ys));
    forall id ensures Lookup(patched, id) == Lookup(ById(ys), id) <==> UnchangedIsAlone(xs, ys, id) {
      PatchedToIff(xs, ys, id);
    }
  }

  /** In particular when the ids of the second version identify its elements, whatever the first one holds. */
  lemma DiffIsPatch(xs: seq<Element>, ys: seq<Element>)
    requires IdsIdentify(ys)
    ensures Apply(DiffOf(xs, ys), ById(xs)) == ById(ys)
  {
    FindNamesAll(ys);
    DiffIsPatchIff(xs, ys);
  }

  lemma EmptyIff(xs: seq<Element>)
    ensures xs == [] <==> forall id :: id !in Ids(xs)
  {
    if xs != [] {
      assert xs[0].id in Ids(xs);
    }
  }

  /** Nothing to report exactly when the versions hold the same elements under the same ids. */
  lemma DiffIsEmptyIff(xs: seq<Element>, ys: seq<Element>)
    requires IdsIdentify(ys)
    ensures DiffOf(xs, ys) == Diff([], [], []) <==> ById(xs) == ById(ys)
  {
    var d, m, n := DiffOf(xs, ys), ById(xs), ById(ys);
    EmptyIff(d.added);
    EmptyIff(d.removed);
    EmptyIff(d.modified);
    forall id
      ensures id !in Ids(d.added) && id !in Ids(d.removed) <==> (id in m <==> id in n)
      ensures id !in Ids(d.modified) <==> (id in m && id in n ==> m[id] == n[id])
    {
      EachIdIsReportedOnce(xs, ys, id);
    }
  }

  /** The other way round: added and removed change places, and the same ids are modified. */
  lemma DiffReversed(xs: seq<Element>, ys: seq<Element>)
    requires IdsIdentify(xs) && IdsIdentify(ys)
    ensures var there, back := DiffOf(xs, ys), DiffOf(ys, xs);
      && back.added == there.removed && back.removed == there.added
      && Ids(back.modified) == Ids(there.modified)
  {
    forall id ensures id in Ids(DiffOf(ys, xs).modified) <==> id in Ids(DiffOf(xs, ys).modified) {
      ModifiedBothWays(xs, ys, id);
    }
  }

  lemma ModifiedBothWays(xs: seq<Element>, ys: seq<Element>, id: string)
    requires IdsIdentify(xs) && IdsIdentify(ys)
    ensures id in Ids(DiffOf(xs, ys).modified) <==> id in ById(xs) && id in ById(ys) && ById(xs)[id] != ById(ys)[id]
    ensures id in Ids(DiffOf(xs, ys).modified) <==> id in Ids(DiffOf(ys, xs).modified)
  {
    DiffMembers(xs, ys);
    DiffMembers(ys, xs);
    FindNamesAll(xs);
    FindNamesAll(ys);
  }

  /** The request fails exactly when something is missing; what it answers is a patch exactly under that condition. */
  lemma ComputeDiffAnswers(owned: bool, v1: Option<Stored>, v2: Option<Stored>)
    ensures ComputeDiff(owned, v1, v2).Ok? <==> owned && v1.Some? && v2.Some?
    ensures ComputeDiff(owned, v1, v2).Ok? ==>
      var xs, ys := ExtractElements(v1.value), ExtractElements(v2.value);
      (Apply(ComputeDiff(owned, v1, v2).value, ById(xs)) == ById(ys) <==> forall id :: UnchangedIsAlone(xs, ys, id))
  {
    if owned && v1.Some? && v2.Some? {
      DiffIsPatchIff(ExtractElements(v1.value), ExtractElements(v2.value));
    }
  }

  /**
   * Elements are reported as often as they stand in their version: every one of a new id as added, every
   * one of a lost id as removed, and every one that is not the first of its id in the first version as
   * modified.
   */
  lemma {:induction false} ElementsAreReportedOften(xs: seq<Element>, ys: seq<Element>, e: Element)
    ensures var d := DiffOf(xs, ys);
      && multiset(d.added)[e] == (if e.id !in Ids(xs) then multiset(ys)[e] else 0)
      && multiset(d.removed)[e] == (if e.id !in Ids(ys) then multiset(xs)[e] else 0)
      && multiset(d.modified)[e] == (if e.id in Ids(xs) && Find(xs, e.id) != Some(e) then multiset(ys)[e] else 0)
  {
    FilterKeeps(ys, Unknown(xs), e);
    FilterKeeps(xs, Unknown(ys), e);
    FilterKeeps(ys, Changed(xs), e);
  }

  /** Only a list stored under the elements counts; anything else is read as a version without elements. */
  lemma OnlyListsAreRead(v1: Stored, v2: Stored)
    ensures ComputeDiff(true, Some(v1), Some(v2)) == Ok(DiffOf(
      if v1.WithList? then v1.elements else [], if v2.WithList? then v2.elements else []))
  {
  }

  /** An instance of the failing case: an element kept, and another added under its id. */
  lemma DuplicateIdsMislead(kept: Element, extra: Element)
    requires kept.id == extra.id && kept != extra
    ensures Apply(DiffOf([kept], [kept, extra]), ById([kept])) != ById([kept, extra])
  {
    assert extra in [kept, extra];
    assert !UnchangedIsAlone([kept], [kept, extra], kept.id);
    DiffIsPatchIff([kept], [kept, extra]);
  }
}
