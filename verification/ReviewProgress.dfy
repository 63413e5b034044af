/** Approving the elements of a workflow's latest version, one or many, and the progress that is reported. */
module ReviewProgress {
  import opened Common

  datatype Approval = Approval(userId: string, at: int)

  /** `archived` and `approved` say whether the flag is exactly `true`. An element may lack an id. */
  datatype Element = Element(id: Option<string>, archived: bool, approved: bool, approval: Option<Approval>)

  /** The latest version's elements_json: a list, or something that is not one. */
  datatype Latest = NoVersion | NotAList | List(elements: seq<Element>)

  datatype Role = Admin | BusinessAnalyst | ProcessOwner | Reviewer | Viewer

  datatype Failure = NoWorkflow | Forbidden | VersionMissing | ElementsNotAList

  datatype Progress = Progress(approvedCount: nat, totalCount: nat, completionPct: nat)

  function NotArchived(): Element -> bool {
    (e: Element) => !e.archived
  }

  function IsApproved(): Element -> bool {
    (e: Element) => e.approved
  }

  function Unapproved(): Element -> bool {
    (e: Element) => !e.approved
  }

  /** `Math.round(approved / total * 100)`: a half rounds up. */
  function Percentage(approved: nat, total: nat): nat {
    if total == 0 then 0 else (200 * approved + total) / (2 * total)
  }

  function ProgressOf(elements: seq<Element>): Progress {
    var shown := Filter(elements, NotArchived());
    var approved := |Filter(shown, IsApproved())|;
    Progress(approved, |shown|, Percentage(approved, |shown|))
  }

  function GetReviewProgress(owned: bool, latest: Latest): Result<Progress, Failure> {
    if !owned then Err(NoWorkflow)
    else
      match latest
      case NoVersion => Ok(ProgressOf([]))
      case NotAList => Err(ElementsNotAList)
      case List(elements) => Ok(ProgressOf(elements))
  }

  function Approved(e: Element, approval: Approval): Element {
    e.(approved := true, approval := Some(approval))
  }

  /** Every element whose id is among the targets, approved; the others as they are. */
  function ApproveAll(elements: seq<Element>, targets: seq<Option<string>>, approval: Approval): (r: seq<Element>)
    ensures |r| == |elements|
    ensures forall i :: 0 <= i < |r| ==>
      r[i] == if elements[i].id in targets then Approved(elements[i], approval) else elements[i]
  {
    seq(|elements|, i requires 0 <= i < |elements| =>
      if elements[i].id in targets then Approved(elements[i], approval) else elements[i])
  }

  function Ids(elements: seq<Element>): (r: seq<Option<string>>)
    ensures |r| == |elements| && forall i :: 0 <= i < |r| ==> r[i] == elements[i].id
  {
    seq(|elements|, i requires 0 <= i < |elements| => elements[i].id)
  }

  function Given(ids: seq<string>): (r: seq<Option<string>>)
    ensures |r| == |ids| && forall i :: 0 <= i < |r| ==> r[i] == Some(ids[i])
  {
    seq(|ids|, i requires 0 <= i < |ids| => Some(ids[i]))
  }

  /** Without ids: those of every element not yet approved, archived or not. */
  function Targets(elements: seq<Element>, ids: Option<seq<string>>): seq<Option<string>> {
    if ids.Some? then Given(ids.value) else Ids(Filter(elements, Unapproved()))
  }

  // ---------- requests ----------

  datatype Request =
    | ApproveElement(owned: bool, element: string, approval: Approval)
    | BulkApprove(owned: bool, role: Role, ids: Option<seq<string>>, approval: Approval)

  /** The new elements, or why there are none. */
  function TryServe(latest: Latest, r: Request): Result<seq<Element>, Failure> {
    if !r.owned then Err(NoWorkflow)
    else if r.BulkApprove? && r.role != Admin && r.role != ProcessOwner then Err(Forbidden)
    else
      match latest
      case NoVersion => Err(VersionMissing)
      case NotAList => Err(ElementsNotAList)
      case List(elements) =>
        if r.ApproveElement? then Ok(ApproveAll(elements, [Some(r.element)], r.approval))
        else Ok(ApproveAll(elements, Targets(elements, r.ids), r.approval))
  }

  function Serve(latest: Latest, r: Request): Latest {
    match TryServe(latest, r)
    case Ok(elements) => List(elements)
    case Err(_) => latest
  }

  function Run(latest: Latest, requests: seq<Request>): Latest
    decreases |requests|
  {
    if requests == [] then latest else Run(Serve(latest, requests[0]), requests[1..])
  }

  // ---------- progress never falls ----------

  /** The same elements, some more of them approved. */
  ghost predicate Advances(before: seq<Element>, after: seq<Element>) {
    && |after| == |before|
    && forall i :: 0 <= i < |before| ==>
        && after[i].id == before[i].id && after[i].archived == before[i].archived
        && (after[i] == before[i] || after[i].approved)
  }

  lemma {:induction false} CountsAdvance(before: seq<Element>, after: seq<Element>)
    requires Advances(before, after)
    ensures var b, a := Filter(before, NotArchived()), Filter(after, NotArchived());
      && |a| == |b|
      && |Filter(b, IsApproved())| <= |Filter(a, IsApproved())| <= |a|
    decreases |before|
  {
    if before != [] {
      CountsAdvance(before[1..], after[1..]);
      FilterHead(before);
      FilterHead(after);
    }
  }

  lemma {:induction false} FilterHead(elements: seq<Element>)
    requires elements != []
    ensures var rest := Filter(elements[1..], NotArchived());
      var all := Filter(elements, NotArchived());
      && |all| == |rest| + (if elements[0].archived then 0 else 1)
      && |Filter(all, IsApproved())| ==
           |Filter(rest, IsApproved())| + (if !elements[0].archived && elements[0].approved then 1 else 0)
  {
    var rest := Filter(elements[1..], NotArchived());
    if elements[0].archived {
      assert Filter(elements, NotArchived()) == rest;
    } else {
      assert ([elements[0]] + rest)[1..] == rest;
    }
  }

  lemma QuotientGrows(a: int, b: int, m: int)
    requires 0 <= a <= b && m > 0
    ensures a / m <= b / m
  {
    var p, q := a / m, b / m;
    if p > q {
      ProductGrows(q + 1, p, m);
    }
  }

  lemma ProductGrows(x: int, y: int, m: int)
    requires x <= y && m > 0
    ensures x * m <= y * m
  {
    var d := y - x;
    assert d * m >= 0;
    assert y * m == x * m + d * m;
  }

  lemma PercentageGrows(a: nat, b: nat, total: nat)
    requires a <= b
    ensures Percentage(a, total) <= Percentage(b, total)
  {
    if total > 0 {
      QuotientGrows(200 * a + total, 200 * b + total, 2 * total);
    }
  }

  lemma AdvanceShowsProgress(before: seq<Element>, after: seq<Element>)
    requires Advances(before, after)
    ensures var p, q := ProgressOf(before), ProgressOf(after);
      q.totalCount == p.totalCount && q.approvedCount >= p.approvedCount && q.completionPct >= p.completionPct
  {
    CountsAdvance(before, after);
    PercentageGrows(ProgressOf(before).approvedCount, ProgressOf(after).approvedCount, ProgressOf(before).totalCount);
  }

  lemma {:induction false} RunAdvances(elements: seq<Element>, requests: seq<Request>)
    ensures Run(List(elements), requests).List?
    ensures Advances(elements, Run(List(elements), requests).elements)
    decreases |requests|
  {
    if requests != [] {
      var next := Serve(List(elements), requests[0]).elements;
      RunAdvances(next, requests[1..]);
      AdvancesJoin(elements, next, Run(List(next), requests[1..]).elements);
    }
  }

  lemma AdvancesJoin(a: seq<Element>, b: seq<Element>, c: seq<Element>)
    requires Advances(a, b) && Advances(b, c)
    ensures Advances(a, c)
  {
  }

  /** Without a list of elements nothing is ever approved. */
  lemma {:induction false} NoListStays(latest: Latest, requests: seq<Request>)
    requires !latest.List?
    ensures Run(latest, requests) == latest
    decreases |requests|
  {
    if requests != [] {
      NoListStays(latest, requests[1..]);
    }
  }

  /**
   * Over any sequence of single and bulk approvals of one version, refused ones included: what is
   * reported keeps its total, and neither the approved count nor the percentage ever falls. A report
   * that fails goes on failing in the same way.
   */
  lemma {:induction false} ProgressNeverFalls(owned: bool, latest: Latest, requests: seq<Request>)
    ensures match GetReviewProgress(owned, latest)
      case Err(f) => GetReviewProgress(owned, Run(latest, requests)) == Err(f)
      case Ok(p) =>
        var later := GetReviewProgress(owned, Run(latest, requests));
        && later.Ok? && later.value.totalCount == p.totalCount
        && later.value.approvedCount >= p.approvedCount && later.value.completionPct >= p.completionPct
  {
    if latest.List? {
      RunAdvances(latest.elements, requests);
      AdvanceShowsProgress(latest.elements, Run(latest, requests).elements);
    } else {
      NoListStays(latest, requests);
    }
  }

  // ---------- completion ----------

  /** All shown elements are approved exactly when the two counts agree. */
  lemma {:induction false} AllApprovedIff(elements: seq<Element>)
    ensures ProgressOf(elements).approvedCount <= ProgressOf(elements).totalCount
    ensures ProgressOf(elements).approvedCount == ProgressOf(elements).totalCount
      <==> forall i :: 0 <= i < |elements| && !elements[i].archived ==> elements[i].approved
  {
    if elements != [] {
      var rest := elements[1..];
      AllApprovedIff(rest);
      FilterHead(elements);
      assert forall i :: 0 <= i < |rest| ==> rest[i] == elements[i + 1];
      assert forall i :: 0 < i < |elements| ==> elements[i] == rest[i - 1];
    }
  }

  /** Bulk approval without ids approves every element; the progress is then 100 if anything is shown. */
  lemma BulkCompletes(elements: seq<Element>, role: Role, approval: Approval)
    requires role == Admin || role == ProcessOwner
    ensures var after := Serve(List(elements), BulkApprove(true, role, None, approval)).elements;
      var p := ProgressOf(after);
      && (forall i :: 0 <= i < |after| ==> after[i].approved)
      && p.totalCount == ProgressOf(elements).totalCount == p.approvedCount
      && p.completionPct == if p.totalCount == 0 then 0 else 100
  {
    var after := Serve(List(elements), BulkApprove(true, role, None, approval)).elements;
    forall i | 0 <= i < |after| ensures after[i].approved {
      if !elements[i].approved {
        UnapprovedIsTarget(elements, elements[i]);
      }
    }
    AllApprovedIff(after);
    AdvanceShowsProgress(elements, after);
    if ProgressOf(after).totalCount > 0 {
      FullPercentage(ProgressOf(after).totalCount);
    }
  }

  lemma UnapprovedIsTarget(elements: seq<Element>, e: Element)
    requires e in elements && !e.approved
    ensures e.id in Targets(elements, None)
  {
    FilterMembers(elements, Unapproved());
    var left := Filter(elements, Unapproved());
    var i :| 0 <= i < |left| && left[i] == e;
    assert Ids(left)[i] == e.id;
  }

  lemma FullPercentage(total: nat)
    requires total > 0
    ensures Percentage(total, total) == 100
  {
    HundredIff(total, total);
    PercentageAtMost(total, total);
  }

  /** 100 is shown exactly when what is missing is at most half a percent. */
  lemma HundredIff(approved: nat, total: nat)
    requires total > 0 && approved <= total
    ensures Percentage(approved, total) >= 100 <==> 200 * (total - approved) <= total
  {
    var n, m := 200 * approved + total, 2 * total;
    var q, rem := n / m, n % m;
    assert n == q * m + rem;
    if q >= 100 {
      ProductGrows(100, q, m);
    } else {
      ProductGrows(q, 99, m);
    }
  }

  /** The reported percentage is the whole number nearest to the exact one, the upper of two that are equally near. */
  lemma PercentageIsNearestIff(approved: nat, total: nat, p: nat)
    requires total > 0
    ensures p == Percentage(approved, total) <==>
      2 * (p * total - 100 * approved) <= total && 2 * (100 * approved - p * total) < total
  {
    var n, m := 200 * approved + total, 2 * total;
    var q := n / m;
    assert n == q * m + n % m;
    assert p * m == 2 * (p * total);
    if p < q {
      ProductGrows(p + 1, q, m);
      assert (p + 1) * m == p * m + m;
    } else if p > q {
      ProductGrows(q + 1, p, m);
      assert (q + 1) * m == q * m + m;
    }
  }

  lemma PercentageAtMost(approved: nat, total: nat)
    requires total > 0 && approved <= total
    ensures Percentage(approved, total) <= 100
  {
    var n, m := 200 * approved + total, 2 * total;
    var q := n / m;
    assert n == q * m + n % m;
    if q > 100 {
      ProductGrows(101, q, m);
    }
  }

  /**
   * Whether 100 percent can be trusted: it means that everything is approved, whatever is approved,
   * exactly when fewer than 200 elements are shown. From 200 on one may be missing.
   */
  lemma HundredMeansDoneIff(total: nat)
    requires total > 0
    ensures (forall approved: nat :: approved <= total && Percentage(approved, total) == 100 ==> approved == total)
      <==> total < 200
  {
    if total < 200 {
      forall approved: nat | approved <= total && Percentage(approved, total) == 100 ensures approved == total {
        HundredIff(approved, total);
      }
    } else {
      HundredIff(total - 1, total);
      PercentageAtMost(total - 1, total);
    }
  }

  // ---------- what bulk approval reports ----------

  /** How many of the first `n` elements are among the targets. */
  function HitsTo(elements: seq<Element>, n: nat, targets: seq<Option<string>>): nat
    requires n <= |elements|
  {
    if n == 0 then 0 else HitsTo(elements, n - 1, targets) + (if elements[n - 1].id in targets then 1 else 0)
  }

  /** Ids that tell the elements apart. */
  ghost predicate IdsApart(elements: seq<Element>) {
    forall i, j :: 0 <= i < j < |elements| ==> elements[i].id != elements[j].id
  }

  function UnapprovedTo(elements: seq<Element>, n: nat): nat
    requires n <= |elements|
  {
    if n == 0 then 0 else UnapprovedTo(elements, n - 1) + (if elements[n - 1].approved then 0 else 1)
  }

  /** With distinct ids and none asked for, the reported number is that of the elements newly approved. */
  lemma {:induction false} BulkReportsNewlyApproved(elements: seq<Element>, n: nat)
    requires IdsApart(elements) && n <= |elements|
    ensures HitsTo(elements, n, Targets(elements, None)) == UnapprovedTo(elements, n)
  {
    if n > 0 {
      BulkReportsNewlyApproved(elements, n - 1);
      var e := elements[n - 1];
      if e.approved {
        ApprovedIsNoTarget(elements, n - 1);
      } else {
        UnapprovedIsTarget(elements, e);
      }
    }
  }

  lemma ApprovedIsNoTarget(elements: seq<Element>, k: nat)
    requires IdsApart(elements) && k < |elements| && elements[k].approved
    ensures elements[k].id !in Targets(elements, None)
  {
    FilterMembers(elements, Unapproved());
    var left := Filter(elements, Unapproved());
    forall i | 0 <= i < |left| ensures left[i].id != elements[k].id {
      assert left[i] in elements && !left[i].approved;
      var j :| 0 <= j < |elements| && elements[j] == left[i];
    }
  }

  // ---------- what is reported, and what an approval leaves ----------

  /** The places of the elements of a kind among the first `n`. */
  function Places(elements: seq<Element>, kind: Element -> bool, n: nat): set<nat>
    requires n <= |elements|
  {
    set i: nat | i < n && kind(elements[i])
  }

  lemma PlacesGrow(elements: seq<Element>, kind: Element -> bool, n: nat)
    requires n < |elements|
    ensures |Places(elements, kind, n + 1)| == |Places(elements, kind, n)| + if kind(elements[n]) then 1 else 0
  {
    if kind(elements[n]) {
      assert Places(elements, kind, n + 1) == Places(elements, kind, n) + {n};
    } else {
      assert Places(elements, kind, n + 1) == Places(elements, kind, n);
    }
  }

  lemma {:induction false} FilterSnoc(xs: seq<Element>, x: Element, p: Element -> bool)
    ensures Filter(xs + [x], p) == Filter(xs, p) + (if p(x) then [x] else [])
  {
    if xs != [] {
      assert (xs + [x])[1..] == xs[1..] + [x];
      FilterSnoc(xs[1..], x, p);
    } else {
      assert [] + [x] == [x] && [x][1..] == [];
    }
  }

  lemma {:induction false} FilterCounts(elements: seq<Element>, kind: Element -> bool, n: nat)
    requires n <= |elements|
    ensures |Filter(elements[..n], kind)| == |Places(elements, kind, n)|
  {
    if n > 0 {
      FilterCounts(elements, kind, n - 1);
      PlacesGrow(elements, kind, n - 1);
      assert elements[..n] == elements[..n - 1] + [elements[n - 1]];
      FilterSnoc(elements[..n - 1], elements[n - 1], kind);
    } else {
      assert Places(elements, kind, 0) == {};
    }
  }

  function ShownAndApproved(): Element -> bool {
    (e: Element) => !e.archived && e.approved
  }

  lemma {:induction false} ApprovedAmongShown(elements: seq<Element>)
    ensures Filter(Filter(elements, NotArchived()), IsApproved()) == Filter(elements, ShownAndApproved())
  {
    if elements != [] {
      ApprovedAmongShown(elements[1..]);
      var rest := Filter(elements[1..], NotArchived());
      if elements[0].archived {
        assert Filter(elements, NotArchived()) == rest;
      } else {
        assert ([elements[0]] + rest)[1..] == rest;
      }
    }
  }

  /** How many elements of a kind there are. */
  function Number(elements: seq<Element>, kind: Element -> bool): nat {
    |Places(elements, kind, |elements|)|
  }

  /**
   * The report: an error for another organisation's workflow and for elements that are no list; nothing at
   * all without a version; and otherwise how many elements are not archived, and how many of them approved.
   */
  lemma ReportIs(owned: bool, latest: Latest)
    ensures var r := GetReviewProgress(owned, latest);
      if !owned then r == Err(NoWorkflow)
      else if latest.NotAList? then r == Err(ElementsNotAList)
      else if latest.NoVersion? then r == Ok(Progress(0, 0, 0))
      else
        && r.Ok?
        && r.value.totalCount == Number(latest.elements, (e: Element) => !e.archived)
        && r.value.approvedCount == Number(latest.elements, (e: Element) => !e.archived && e.approved)
        && r.value.completionPct == Percentage(r.value.approvedCount, r.value.totalCount)
  {
    if latest.List? {
      var elements := latest.elements;
      assert elements[..|elements|] == elements;
      FilterCounts(elements, NotArchived(), |elements|);
      FilterCounts(elements, ShownAndApproved(), |elements|);
      ApprovedAmongShown(elements);
      assert Places(elements, NotArchived(), |elements|) == Places(elements, (e: Element) => !e.archived, |elements|);
      assert Places(elements, ShownAndApproved(), |elements|)
          == Places(elements, (e: Element) => !e.archived && e.approved, |elements|);
    }
  }

  /** Why an approval is refused, if it is. */
  predicate ApprovalRefused(latest: Latest, r: Request, why: Failure) {
    if !r.owned then why == NoWorkflow
    else if r.BulkApprove? && r.role !in {Admin, ProcessOwner} then why == Forbidden
    else if latest.NoVersion? then why == VersionMissing
    else latest.NotAList? && why == ElementsNotAList
  }

  /** The approval names the element: by its id, or, in bulk without ids, by the id of one that is not approved. */
  ghost predicate Approves(elements: seq<Element>, r: Request, e: Element) {
    match r
    case ApproveElement(_, id, _) => e.id == Some(id)
    case BulkApprove(_, _, ids, _) =>
      if ids.Some? then e.id.Some? && e.id.value in ids.value
      else exists other :: other in elements && !other.approved && other.id == e.id
  }

  /** An approval marks exactly the elements it names, with who and when, and leaves the others as they are. */
  lemma ApprovalLeaves(latest: Latest, r: Request)
    ensures match TryServe(latest, r)
      case Err(why) => Serve(latest, r) == latest && ApprovalRefused(latest, r, why)
      case Ok(_) =>
        && latest.List? && (forall why :: !ApprovalRefused(latest, r, why))
        && var after := Serve(latest, r);
        && after.List? && |after.elements| == |latest.elements|
        && forall i :: 0 <= i < |latest.elements| ==>
             var e := latest.elements[i];
             after.elements[i] ==
               if Approves(latest.elements, r, e) then Element(e.id, e.archived, true, Some(r.approval)) else e
  {
    if latest.List? && r.BulkApprove? {
      var elements := latest.elements;
      forall e | e in elements ensures e.id in Targets(elements, r.ids) <==> Approves(elements, r, e) {
        TargetIff(elements, r, e);
      }
    }
  }

  lemma TargetIff(elements: seq<Element>, r: Request, e: Element)
    requires r.BulkApprove? && e in elements
    ensures e.id in Targets(elements, r.ids) <==> Approves(elements, r, e)
  {
    var targets := Targets(elements, r.ids);
    if r.ids.Some? {
      if e.id in targets {
        var i :| 0 <= i < |targets| && targets[i] == e.id;
      }
      if e.id.Some? && e.id.value in r.ids.value {
        var i :| 0 <= i < |r.ids.value| && r.ids.value[i] == e.id.value;
        assert targets[i] == e.id;
      }
    } else {
      FilterMembers(elements, Unapproved());
      var left := Filter(elements, Unapproved());
      if e.id in targets {
        var i :| 0 <= i < |targets| && targets[i] == e.id;
        assert left[i] in left;
      }
      if other :| other in elements && !other.approved && other.id == e.id {
        UnapprovedIsTarget(elements, other);
      }
    }
  }

  // ---------- the service ----------

  class Service {
    var latest: Latest

    constructor (latest: Latest)
      ensures this.latest == latest
    {
      this.latest := latest;
    }

    method ApproveElement(owned: bool, element: string, approval: Approval) returns (failure: Option<Failure>)
      modifies this
      ensures latest == Serve(old(latest), Request.ApproveElement(owned, element, approval))
      ensures failure == match TryServe(old(latest), Request.ApproveElement(owned, element, approval))
        case Ok(_) => None
        case Err(f) => Some(f)
    {
      if !owned {
        return Some(NoWorkflow);
      }
      if latest.NoVersion? {
        return Some(VersionMissing);
      }
      if latest.NotAList? {
        return Some(ElementsNotAList);
      }
      latest := List(ApproveAll(latest.elements, [Some(element)], approval));
      return None;
    }

    /** Reports how many elements the targets named, approved before or not. */
    method BulkApproveElements(owned: bool, role: Role, ids: Option<seq<string>>, approval: Approval)
      returns (r: Result<nat, Failure>)
      modifies this
      ensures latest == Serve(old(latest), BulkApprove(owned, role, ids, approval))
      ensures match TryServe(old(latest), BulkApprove(owned, role, ids, approval))
        case Err(f) => r == Err(f)
        case Ok(_) =>
          old(latest).List?
          && r == Ok(HitsTo(old(latest).elements, |old(latest).elements|, Targets(old(latest).elements, ids)))
    {
      if !owned {
        return Err(NoWorkflow);
      }
      if role != Admin && role != ProcessOwner {
        return Err(Forbidden);
      }
      if latest.NoVersion? {
        return Err(VersionMissing);
      }
      if latest.NotAList? {
        return Err(ElementsNotAList);
      }
      var elements := latest.elements;
      var targetIds := Targets(elements, ids);
      var approvedIds: seq<Option<string>> := [];
      var updated: seq<Element> := [];
      for i := 0 to |elements|
        invariant |updated| == i && |approvedIds| == HitsTo(elements, i, targetIds)
        invariant forall j :: 0 <= j < i ==> updated[j] == ApproveAll(elements, targetIds, approval)[j]
      {
        var e := elements[i];
        if e.id in targetIds {
          approvedIds := approvedIds + [e.id];
          updated := updated + [Approved(e, approval)];
        } else {
          updated := updated + [e];
        }
      }
      assert updated == ApproveAll(elements, targetIds, approval);
      latest := List(updated);
      return Ok(|approvedIds|);
    }
  }
}
