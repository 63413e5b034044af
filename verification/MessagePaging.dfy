/**
 * Keyset pagination of a session's messages. The database orders by (created_at, id) with
 * microseconds; the cursor a client is handed carries created_at cut to milliseconds.
 */
module MessagePaging {
  import opened Common
  import opened Orbits

  const PAGE_SIZE: nat := 50

  /** `createdAt` in microseconds. Ids are unique and ordered. */
  datatype Message = Message(id: nat, createdAt: nat)

  datatype Cursor = Cursor(createdAt: nat, id: nat)

  datatype Page = Page(items: seq<Message>, next: Option<Cursor>)

  function Millis(t: nat): nat {
    t / 1000
  }

  predicate Aligned(m: Message) {
    m.createdAt % 1000 == 0
  }

  predicate Before(a: Message, b: Message) {
    a.createdAt < b.createdAt || (a.createdAt == b.createdAt && a.id < b.id)
  }

  /** The messages a request may see, in the order of the query. */
  ghost predicate Ordered(all: seq<Message>) {
    forall i, j :: 0 <= i < j < |all| ==> Before(all[i], all[j])
  }

  /** The cursor clause of the query. */
  predicate After(m: Message, cursor: Option<Cursor>) {
    cursor.None? || m.createdAt > cursor.value.createdAt
    || (m.createdAt == cursor.value.createdAt && m.id > cursor.value.id)
  }

  function IsAfter(cursor: Option<Cursor>): Message -> bool {
    (m: Message) => After(m, cursor)
  }

  /** The rows one request fetches: one more than a page. */
  function Fetch(all: seq<Message>, cursor: Option<Cursor>): seq<Message> {
    var rows := Filter(all, IsAfter(cursor));
    if |rows| > PAGE_SIZE + 1 then rows[..PAGE_SIZE + 1] else rows
  }

  function CursorOf(m: Message): Cursor {
    Cursor(Millis(m.createdAt) * 1000, m.id)
  }

  function PageWindow(rows: seq<Message>): Page {
    if rows == [] then Page([], None)
    else
      var hasMore := |rows| > PAGE_SIZE;
      var items := if hasMore then rows[..PAGE_SIZE] else rows;
      Page(items, if hasMore then Some(CursorOf(items[|items| - 1])) else None)
  }

  function Request(all: seq<Message>, cursor: Option<Cursor>): Page {
    PageWindow(Fetch(all, cursor))
  }

  /** A client that keeps following `next`: what it has collected and what it asks for next. */
  datatype Walk = Asking(seen: seq<Message>, cursor: Option<Cursor>) | Finished(seen: seq<Message>)

  function Collect(seen: seq<Message>, page: Page): Walk {
    if page.next.Some? then Asking(seen + page.items, page.next) else Finished(seen + page.items)
  }

  function Follow(all: seq<Message>, requests: nat): Walk {
    if requests == 0 then Asking([], None)
    else
      match Follow(all, requests - 1)
      case Finished(seen) => Finished(seen)
      case Asking(seen, cursor) => Collect(seen, Request(all, cursor))
  }

  // ---------- one page ----------

  /** How many of the messages the cursor leaves behind. */
  function Skipped(all: seq<Message>, cursor: Option<Cursor>): int {
    |all| - |Filter(all, IsAfter(cursor))|
  }

  /** The cursor clause lets through the messages from place `n` on, and no other. */
  ghost predicate CutsAt(all: seq<Message>, cursor: Option<Cursor>, n: int) {
    0 <= n <= |all| && forall i :: 0 <= i < |all| ==> (After(all[i], cursor) <==> i >= n)
  }

  /** The next fifty messages from place `n` on, saying there is more exactly when there is. */
  predicate IsPageAt(page: Page, all: seq<Message>, n: nat)
    requires n <= |all|
  {
    if |all| - n > 50 then page == Page(all[n..n + 50], Some(CursorOf(all[n + 49])))
    else page == Page(all[n..], None)
  }

  lemma {:induction false} FilterOfTail(all: seq<Message>, p: Message -> bool, n: nat)
    requires n <= |all| && forall i :: 0 <= i < |all| ==> (p(all[i]) <==> i >= n)
    ensures Filter(all, p) == all[n..]
  {
    if all != [] {
      var rest := all[1..];
      assert forall i :: 0 <= i < |rest| ==> rest[i] == all[i + 1];
      FilterOfTail(rest, p, if n == 0 then 0 else n - 1);
      assert all == [all[0]] + rest;
    }
  }

  /** The cut is at the first message that comes after the cursor. */
  lemma {:induction false} FirstAfter(all: seq<Message>, cursor: Option<Cursor>, from: nat) returns (n: nat)
    requires Ordered(all) && from <= |all| && forall i :: 0 <= i < from ==> !After(all[i], cursor)
    ensures CutsAt(all, cursor, n)
    decreases |all| - from
  {
    n := from;
    if from < |all| && !After(all[from], cursor) {
      n := FirstAfter(all, cursor, from + 1);
    } else if from < |all| {
      assert forall i :: from < i < |all| ==> Before(all[from], all[i]);
    }
  }

  /** The cursor clause cuts an ordered list in two. */
  lemma {:induction false} CursorCuts(all: seq<Message>, cursor: Option<Cursor>)
    requires Ordered(all)
    ensures var n := Skipped(all, cursor);
      CutsAt(all, cursor, n) && Filter(all, IsAfter(cursor)) == all[n..]
  {
    var n := FirstAfter(all, cursor, 0);
    FilterOfTail(all, IsAfter(cursor), n);
  }

  /** A page is the next fifty messages after the cut. */
  lemma PageIsSlice(all: seq<Message>, cursor: Option<Cursor>)
    requires Ordered(all)
    ensures var n := Skipped(all, cursor);
      CutsAt(all, cursor, n) && IsPageAt(Request(all, cursor), all, n)
  {
    CursorCuts(all, cursor);
    WindowIsPage(all, Skipped(all, cursor), Filter(all, IsAfter(cursor)));
  }

  lemma WindowIsPage(all: seq<Message>, n: nat, rows: seq<Message>)
    requires n <= |all| && rows == all[n..]
    ensures IsPageAt(PageWindow(if |rows| > PAGE_SIZE + 1 then rows[..PAGE_SIZE + 1] else rows), all, n)
  {
    if |rows| > PAGE_SIZE {
      var fetched := if |rows| > PAGE_SIZE + 1 then rows[..PAGE_SIZE + 1] else rows;
      assert fetched[..PAGE_SIZE] == all[n..n + PAGE_SIZE];
    }
  }

  /** Only one place can be the cut. */
  lemma CutIsUnique(all: seq<Message>, cursor: Option<Cursor>, m: nat, n: nat)
    requires CutsAt(all, cursor, m) && CutsAt(all, cursor, n)
    ensures m == n
  {
    assert m < |all| ==> After(all[m], cursor);
    assert n < |all| ==> After(all[n], cursor);
  }

  /** Cutting a timestamp to milliseconds moves the cursor back, never forward. */
  lemma CursorNeverOvertakes(m: Message, later: Message)
    requires Before(m, later)
    ensures After(later, Some(CursorOf(m)))
  {
  }

  // ---------- never skipping ----------

  /** Message `m` has reached the client, or a later request can still bring it. */
  predicate Reachable(m: Message, walk: Walk) {
    m in walk.seen || (walk.Asking? && After(m, walk.cursor))
  }

  lemma OnePageSkipsNothing(all: seq<Message>, walk: Walk, n: nat, page: Page, i: nat)
    requires Ordered(all) && walk.Asking? && CutsAt(all, walk.cursor, n) && IsPageAt(page, all, n)
    requires i < |all| && Reachable(all[i], walk)
    ensures Reachable(all[i], Collect(walk.seen, page))
  {
    if all[i] !in walk.seen {
      if |all| - n <= PAGE_SIZE || i < n + PAGE_SIZE {
        assert page.items[i - n] == all[i];
      } else {
        CursorNeverOvertakes(all[n + PAGE_SIZE - 1], all[i]);
      }
    }
  }

  ghost predicate AllReachable(all: seq<Message>, walk: Walk) {
    forall i :: 0 <= i < |all| ==> Reachable(all[i], walk)
  }

  lemma RequestSkipsNothing(all: seq<Message>, walk: Walk)
    requires Ordered(all) && walk.Asking? && AllReachable(all, walk)
    ensures AllReachable(all, Collect(walk.seen, Request(all, walk.cursor)))
  {
    PageIsSlice(all, walk.cursor);
    var n, page := Skipped(all, walk.cursor), Request(all, walk.cursor);
    forall i | 0 <= i < |all| ensures Reachable(all[i], Collect(walk.seen, page)) {
      OnePageSkipsNothing(all, walk, n, page, i);
    }
  }

  /**
   * Whatever the timestamps: after any number of requests every message has been delivered or still
   * comes after the cursor. So a walk that ends has delivered every message.
   */
  lemma {:induction false} NothingIsSkipped(all: seq<Message>, requests: nat)
    requires Ordered(all)
    ensures AllReachable(all, Follow(all, requests))
  {
    if requests > 0 {
      NothingIsSkipped(all, requests - 1);
      if Follow(all, requests - 1).Asking? {
        RequestSkipsNothing(all, Follow(all, requests - 1));
      }
    }
  }

  // ---------- millisecond timestamps ----------

  /** max(1, ceil(n / 50)). */
  function PagesFor(n: nat): nat {
    if n == 0 then 1 else (n + 49) / 50
  }

  lemma AlignedCursorCutsAt(all: seq<Message>, last: nat)
    requires Ordered(all) && last + 1 < |all| && Aligned(all[last])
    ensures CutsAt(all, Some(CursorOf(all[last])), last + 1)
  {
    var cursor := Some(CursorOf(all[last]));
    assert cursor.value.createdAt == all[last].createdAt;
    forall i | 0 <= i < |all| ensures After(all[i], cursor) <==> i >= last + 1 {
      assert i < last ==> Before(all[i], all[last]);
      assert i > last ==> Before(all[last], all[i]);
    }
  }

  ghost predicate AllAligned(all: seq<Message>) {
    forall i :: 0 <= i < |all| ==> Aligned(all[i])
  }

  /** The client has the first `n` messages and asks for what follows them. */
  ghost predicate Reached(all: seq<Message>, walk: Walk, n: nat) {
    n <= |all| && walk.Asking? && walk.seen == all[..n] && CutsAt(all, walk.cursor, n)
  }

  /** A request after the first `n` messages brings exactly the next fifty, and leaves exactly them behind. */
  lemma AlignedPage(all: seq<Message>, walk: Walk, n: nat, page: Page)
    requires Ordered(all) && AllAligned(all) && Reached(all, walk, n) && IsPageAt(page, all, n)
    ensures |all| - n <= PAGE_SIZE ==> Collect(walk.seen, page) == Finished(all)
    ensures |all| - n > PAGE_SIZE ==> Reached(all, Collect(walk.seen, page), n + PAGE_SIZE)
  {
    if |all| - n > PAGE_SIZE {
      assert all[..n] + all[n..n + PAGE_SIZE] == all[..n + PAGE_SIZE];
      AlignedCursorCutsAt(all, n + PAGE_SIZE - 1);
    } else {
      assert all[..n] + all[n..] == all;
    }
  }

  /**
   * When the stored timestamps have no finer resolution than the cursor, the pages are the list cut
   * into fifties: every message once, in order, in exactly max(1, ceil(n / 50)) requests.
   */
  lemma {:induction false} AlignedWalkIsTheList(all: seq<Message>, requests: nat)
    requires Ordered(all) && AllAligned(all)
    ensures requests >= PagesFor(|all|) ==> Follow(all, requests) == Finished(all)
    ensures requests < PagesFor(|all|) ==> Reached(all, Follow(all, requests), PAGE_SIZE * requests)
  {
    if requests > 0 {
      AlignedWalkIsTheList(all, requests - 1);
      if requests - 1 < PagesFor(|all|) {
        var walk, n := Follow(all, requests - 1), PAGE_SIZE * (requests - 1);
        PageIsSlice(all, walk.cursor);
        CutIsUnique(all, walk.cursor, Skipped(all, walk.cursor), n);
        AlignedPage(all, walk, n, Request(all, walk.cursor));
      }
    }
  }

  // ---------- finer timestamps: when the walk ends ----------

  /** Fifty messages from `i` on fall in one millisecond, and more messages follow them. */
  predicate Crowded(all: seq<Message>, i: nat) {
    i + PAGE_SIZE < |all| && Millis(all[i].createdAt) == Millis(all[i + PAGE_SIZE - 1].createdAt)
  }

  /** The cursor of the page that starts at `i` lets its first message through again. */
  predicate Stuck(all: seq<Message>, i: nat) {
    i + PAGE_SIZE < |all| && After(all[i], Some(CursorOf(all[i + PAGE_SIZE - 1])))
  }

  ghost predicate NeverStuck(all: seq<Message>) {
    forall i :: 0 <= i < |all| ==> !Stuck(all, i)
  }

  /** Only a crowded page is stuck; off the start of a millisecond, every crowded one is. */
  lemma StuckIffCrowded(all: seq<Message>, i: nat)
    requires Ordered(all)
    ensures Stuck(all, i) ==> Crowded(all, i)
    ensures Crowded(all, i) && !Aligned(all[i]) ==> Stuck(all, i)
  {
    if i + PAGE_SIZE < |all| {
      assert Before(all[i], all[i + PAGE_SIZE - 1]);
      MillisOrdered(all[i].createdAt, all[i + PAGE_SIZE - 1].createdAt);
    }
  }

  /** A page gets the client further exactly when its own cursor leaves its first message behind. */
  lemma PageAdvancesIff(all: seq<Message>, cursor: Option<Cursor>)
    requires Ordered(all) && Request(all, cursor).next.Some?
    ensures var page := Request(all, cursor);
      && |page.items| == PAGE_SIZE
      && (Skipped(all, page.next) > Skipped(all, cursor) <==> !After(page.items[0], page.next))
  {
    PageIsSlice(all, cursor);
    CursorCuts(all, Request(all, cursor).next);
  }

  lemma FreePageAdvances(all: seq<Message>, cursor: Option<Cursor>)
    requires Ordered(all) && Request(all, cursor).next.Some? && NeverStuck(all)
    ensures Skipped(all, Request(all, cursor).next) > Skipped(all, cursor)
  {
    PageIsSlice(all, cursor);
    PageAdvancesIff(all, cursor);
    assert !Stuck(all, Skipped(all, cursor));
  }

  lemma MillisOrdered(a: nat, b: nat)
    requires a <= b
    ensures Millis(a) <= Millis(b)
    ensures Millis(a) < Millis(b) ==> a < Millis(b) * 1000
  {
  }

  lemma {:induction false} FreeWalkGetsThere(all: seq<Message>, requests: nat)
    requires Ordered(all) && NeverStuck(all)
    ensures Follow(all, requests).Asking? ==> Skipped(all, Follow(all, requests).cursor) >= requests
  {
    if requests > 0 {
      FreeWalkGetsThere(all, requests - 1);
      var walk := Follow(all, requests - 1);
      if walk.Asking? && Request(all, walk.cursor).next.Some? {
        FreePageAdvances(all, walk.cursor);
      }
    } else {
      CursorCuts(all, None);
    }
  }

  /** No request at or before place `i` gets past it when the page there is stuck, off the millisecond. */
  lemma StuckPageHolds(all: seq<Message>, i: nat, cursor: Option<Cursor>)
    requires Ordered(all) && Stuck(all, i) && !Aligned(all[i]) && Skipped(all, cursor) <= i
    ensures var next := Request(all, cursor).next;
      next.Some? && Skipped(all, next) <= i
  {
    var n := Skipped(all, cursor);
    PageIsSlice(all, cursor);
    StuckIffCrowded(all, i);
    var last := all[n + PAGE_SIZE - 1];
    assert n < i ==> Before(last, all[i + PAGE_SIZE - 1]);
    MillisOrdered(last.createdAt, all[i + PAGE_SIZE - 1].createdAt);
    assert After(all[i], Some(CursorOf(last)));
    CursorCuts(all, Some(CursorOf(last)));
  }

  /** A stuck page that starts off the millisecond holds every walk back for ever. */
  lemma {:induction false} StuckWalkIsHeldBack(all: seq<Message>, i: nat, requests: nat)
    requires Ordered(all) && Stuck(all, i) && !Aligned(all[i])
    ensures Follow(all, requests).Asking? && Skipped(all, Follow(all, requests).cursor) <= i
  {
    if requests == 0 {
      CursorCuts(all, None);
      assert Skipped(all, None) == 0;
    } else {
      StuckWalkIsHeldBack(all, i, requests - 1);
      StuckPageHolds(all, i, Follow(all, requests - 1).cursor);
    }
  }

  ghost predicate Ends(all: seq<Message>) {
    exists requests: nat :: Follow(all, requests).Finished?
  }

  /** Whatever the timestamps: a walk that is never stuck ends, and one that ends has delivered every message. */
  lemma {:induction false} FreeWalkEnds(all: seq<Message>)
    requires Ordered(all)
    ensures NeverStuck(all) ==> Ends(all)
    ensures forall requests, i :: Follow(all, requests).Finished? && 0 <= i < |all| ==>
      all[i] in Follow(all, requests).seen
  {
    if NeverStuck(all) {
      FreeWalkGetsThere(all, |all| + 1);
      if Follow(all, |all| + 1).Asking? {
        CursorCuts(all, Follow(all, |all| + 1).cursor);
      }
      assert Follow(all, |all| + 1).Finished?;
    }
    forall requests, i | Follow(all, requests).Finished? && 0 <= i < |all|
      ensures all[i] in Follow(all, requests).seen
    {
      NothingIsSkipped(all, requests);
      assert Reachable(all[i], Follow(all, requests));
    }
  }

  /**
   * Where no stuck page starts on the millisecond, following the cursors ends exactly when no page is
   * stuck: when no fifty messages of one millisecond, the first of them off its start, are followed by
   * more.
   */
  lemma {:induction false} WalkOffMillisecondsEndsIff(all: seq<Message>)
    requires Ordered(all) && forall i :: 0 <= i < |all| && Stuck(all, i) ==> !Aligned(all[i])
    ensures Ends(all) <==> NeverStuck(all)
    ensures Ends(all) <==> forall i :: 0 <= i < |all| && Crowded(all, i) ==> Aligned(all[i])
  {
    FreeWalkEnds(all);
    forall requests, i | 0 <= i < |all| && Stuck(all, i) ensures Follow(all, requests).Asking? {
      StuckWalkIsHeldBack(all, i, requests);
    }
    forall i | 0 <= i < |all| ensures Stuck(all, i) <==> Crowded(all, i) && !Aligned(all[i]) {
      StuckIffCrowded(all, i);
    }
  }

  // ---------- any timestamps: when the walk ends ----------

  /** Where in the list the request after the first `r` ones starts, if the walk goes on. */
  function PlaceAfter(all: seq<Message>, r: nat): Option<int> {
    var walk := Follow(all, r);
    if walk.Asking? then Some(Skipped(all, walk.cursor)) else None
  }

  function PlacesOf(all: seq<Message>): nat -> Option<int> {
    (r: nat) => PlaceAfter(all, r)
  }

  lemma {:induction false} FinishedStays(all: seq<Message>, r: nat, q: nat)
    requires r <= q && Follow(all, r).Finished?
    ensures Follow(all, q).Finished?
  {
    if r < q {
      FinishedStays(all, r, q - 1);
    }
  }

  /** Where a request leads depends on its place alone. */
  lemma PlaceDecides(all: seq<Message>, r: nat, q: nat)
    requires Ordered(all) && PlaceAfter(all, r) == PlaceAfter(all, q)
    ensures PlaceAfter(all, r + 1) == PlaceAfter(all, q + 1)
  {
    if Follow(all, r).Asking? {
      PageIsSlice(all, Follow(all, r).cursor);
      PageIsSlice(all, Follow(all, q).cursor);
      assert Request(all, Follow(all, r).cursor) == Request(all, Follow(all, q).cursor);
    }
  }

  lemma {:induction false} FollowingIsWalk(all: seq<Message>)
    requires Ordered(all)
    ensures IsWalk(PlacesOf(all))
    ensures forall r: nat :: PlacesOf(all)(r).Some? ==> Below(PlacesOf(all)(r), |all| + 1)
  {
    var p := PlacesOf(all);
    forall r: nat, q: nat ensures GoesOnAlike(p, r, q) {
      if PlaceAfter(all, r) == PlaceAfter(all, q) {
        PlaceDecides(all, r, q);
      }
    }
    forall r: nat, q: nat | r <= q && p(r).None? ensures p(q).None? {
      FinishedStays(all, r, q);
    }
    forall r: nat | p(r).Some? ensures Below(p(r), |all| + 1) {
      CursorCuts(all, Follow(all, r).cursor);
    }
  }

  /** A walk that ends never comes back to a place, and ends within n + 1 requests; any other comes back. */
  lemma {:induction false} EndsUnlessBack(all: seq<Message>)
    requires Ordered(all)
    ensures Ends(all) <==> forall r: nat, q: nat :: !ComesBack(PlacesOf(all), r, q)
    ensures Ends(all) ==> Follow(all, |all| + 1).Finished?
  {
    FollowingIsWalk(all);
    EndsIff(PlacesOf(all), |all| + 1);
    assert forall r: nat :: Follow(all, r).Finished? <==> PlacesOf(all)(r).None?;
  }

  predicate StuckAt(all: seq<Message>, place: Option<int>) {
    place.Some? && 0 <= place.value && Stuck(all, place.value)
  }

  /** The walk gets further from every page that is not stuck. */
  lemma {:induction false} FallsWhereStuck(all: seq<Message>, r: nat)
    requires Ordered(all) && !Rises(PlacesOf(all), r)
    ensures StuckAt(all, PlacesOf(all)(r))
  {
    var cursor := Follow(all, r).cursor;
    PageIsSlice(all, cursor);
    PageAdvancesIff(all, cursor);
  }

  /** The page of the request after the first `r` ones is stuck, and starts off the millisecond. */
  predicate StuckOffMillisecond(all: seq<Message>, r: nat) {
    var place := PlacesOf(all)(r);
    StuckAt(all, place) && !Aligned(all[place.value])
  }

  /** It is stuck, starts on the millisecond, and is asked for again. */
  ghost predicate StuckTwice(all: seq<Message>, r: nat, q: nat) {
    var place := PlacesOf(all)(r);
    ComesBack(PlacesOf(all), r, q) && StuckAt(all, place) && Aligned(all[place.value])
  }

  /**
   * Exactly when following the cursors comes to an end, with no assumption on timestamps or ids: when no
   * page the client asks for is stuck off the millisecond, and no page stuck on it is asked for twice. A
   * walk that ends does so within n + 1 requests.
   */
  lemma {:induction false} WalkEndsIff(all: seq<Message>)
    requires Ordered(all)
    ensures Ends(all) <==>
      (forall r: nat :: !StuckOffMillisecond(all, r)) && (forall r: nat, q: nat :: !StuckTwice(all, r, q))
    ensures Ends(all) ==> Follow(all, |all| + 1).Finished?
  {
    EndsUnlessBack(all);
    if end: nat :| Follow(all, end).Finished? {
      forall r: nat ensures !StuckOffMillisecond(all, r) {
        if StuckOffMillisecond(all, r) {
          StuckWalkIsHeldBack(all, PlacesOf(all)(r).value, end);
        }
      }
    } else {
      FollowingIsWalk(all);
      forall t: nat ensures RisesOrIsStuck(all, PlacesOf(all), t) {
        if !Rises(PlacesOf(all), t) {
          FallsWhereStuck(all, t);
        }
      }
      var r: nat, q: nat :| ComesBack(PlacesOf(all), r, q);
      var t, u := BackPassesStuck(all, PlacesOf(all), r, q);
      assert StuckOffMillisecond(all, t) || StuckTwice(all, t, u);
    }
  }

  ghost predicate RisesOrIsStuck(all: seq<Message>, p: nat -> Option<int>, t: nat) {
    !Rises(p, t) ==> StuckAt(all, p(t))
  }

  /** A way back asks for a stuck page, and asks for it again. */
  lemma BackPassesStuck(all: seq<Message>, p: nat -> Option<int>, r: nat, q: nat) returns (t: nat, u: nat)
    requires IsWalk(p) && ComesBack(p, r, q)
    requires forall t: nat :: RisesOrIsStuck(all, p, t)
    ensures ComesBack(p, t, u) && StuckAt(all, p(t))
  {
    t := BackFalls(p, r, q);
    u := t + (q - r);
    assert RisesOrIsStuck(all, p, t);
  }
}
