/** The session transition table and everything its runs can and cannot do. */
module SessionFsm {
  import opened Common

  datatype Mode = Auto | Interactive

  datatype Status =
    | Created | AwaitingInput | Processing | DraftReady | NeedsReconciliation | InElicitation | InReview
    | Validated | Exported | Archived | Failed

  datatype Event =
    | FirstUserMessage | AiTaskPublished | AiResultReceived | AiQuestionReceived | UserAnswerPosted
    | DivergenceDetected | DivergenceResolved | EnterReview | Validate | ExportCompleted
    | UserFinalizes | PipelineError | UserDeletes

  datatype Transition = Transition(from: Status, event: Event, to: Status, mode: Option<Mode>)

  const STATUSES := [Created, AwaitingInput, Processing, DraftReady, NeedsReconciliation, InElicitation, InReview,
                     Validated, Exported, Archived, Failed]

  const FINALIZABLE := [Created, AwaitingInput, Processing, InElicitation, DraftReady, NeedsReconciliation, InReview]

  const NAMED_TRANSITIONS := [
    Transition(Created, FirstUserMessage, AwaitingInput, None),
    Transition(AwaitingInput, AiTaskPublished, Processing, None),
    Transition(Processing, AiResultReceived, DraftReady, None),
    Transition(Processing, AiQuestionReceived, InElicitation, Some(Interactive)),
    Transition(InElicitation, UserAnswerPosted, Processing, None),
    Transition(InElicitation, AiTaskPublished, Processing, None),
    Transition(DraftReady, AiTaskPublished, Processing, None),
    Transition(DraftReady, AiResultReceived, DraftReady, None),
    Transition(DraftReady, DivergenceDetected, NeedsReconciliation, None),
    Transition(NeedsReconciliation, DivergenceResolved, DraftReady, None),
    Transition(DraftReady, EnterReview, InReview, None),
    Transition(InReview, Validate, Validated, None),
    Transition(Validated, ExportCompleted, Exported, None)]

  /** `statuses.map((from) => ({ from, event, to }))`. */
  function FromEach(statuses: seq<Status>, event: Event, to: Status): seq<Transition> {
    seq(|statuses|, i requires 0 <= i < |statuses| => Transition(statuses[i], event, to, None))
  }

  const SESSION_TRANSITIONS :=
    NAMED_TRANSITIONS
    + FromEach(FINALIZABLE, UserFinalizes, DraftReady)
    + FromEach(STATUSES, PipelineError, Failed)
    + FromEach(STATUSES, UserDeletes, Archived)

  predicate Matches(t: Transition, from: Status, event: Event, mode: Mode) {
    t.from == from && t.event == event && (t.mode.None? || t.mode == Some(mode))
  }

  function Find(table: seq<Transition>, from: Status, event: Event, mode: Mode): Option<Status> {
    if table == [] then None
    else if Matches(table[0], from, event, mode) then Some(table[0].to)
    else Find(table[1..], from, event, mode)
  }

  /** The status the event leads to; `None` where the service throws. */
  function Transit(from: Status, event: Event, mode: Mode): Option<Status> {
    Find(SESSION_TRANSITIONS, from, event, mode)
  }

  predicate CanTransitionTo(from: Status, to: Status, mode: Mode) {
    exists i :: 0 <= i < |SESSION_TRANSITIONS| && SESSION_TRANSITIONS[i].from == from && SESSION_TRANSITIONS[i].to == to
                && (SESSION_TRANSITIONS[i].mode.None? || SESSION_TRANSITIONS[i].mode == Some(mode))
  }

  // ---------- the table as a function ----------

  /** The same table, read off case by case. */
  function Next(from: Status, event: Event, mode: Mode): Option<Status> {
    match event
    case FirstUserMessage => if from == Created then Some(AwaitingInput) else None
    case AiTaskPublished =>
      if from == AwaitingInput || from == InElicitation || from == DraftReady then Some(Processing) else None
    case AiResultReceived => if from == Processing || from == DraftReady then Some(DraftReady) else None
    case AiQuestionReceived => if from == Processing && mode == Interactive then Some(InElicitation) else None
    case UserAnswerPosted => if from == InElicitation then Some(Processing) else None
    case DivergenceDetected => if from == DraftReady then Some(NeedsReconciliation) else None
    case DivergenceResolved => if from == NeedsReconciliation then Some(DraftReady) else None
    case EnterReview => if from == DraftReady then Some(InReview) else None
    case Validate => if from == InReview then Some(Validated) else None
    case ExportCompleted => if from == Validated then Some(Exported) else None
    case UserFinalizes => if Rank(from) <= 2 then Some(DraftReady) else None
    case PipelineError => Some(Failed)
    case UserDeletes => Some(Archived)
  }

  /** How far along its life a session is. */
  function Rank(s: Status): nat {
    match s
    case Created => 0
    case AwaitingInput => 1
    case Processing => 2
    case InElicitation => 2
    case DraftReady => 2
    case NeedsReconciliation => 2
    case InReview => 2
    case Validated => 3
    case Exported => 4
    case Archived => 5
    case Failed => 5
  }

  lemma {:induction false} FindOfConcat(a: seq<Transition>, b: seq<Transition>, from: Status, event: Event, mode: Mode)
    ensures Find(a + b, from, event, mode) ==
      if Find(a, from, event, mode).Some? then Find(a, from, event, mode) else Find(b, from, event, mode)
  {
    if a == [] {
      assert a + b == b;
    } else {
      assert (a + b)[1..] == a[1..] + b;
      FindOfConcat(a[1..], b, from, event, mode);
    }
  }

  /** If the matching rows agree on `to`, and there is one, `Find` returns it. */
  lemma {:induction false} FindIs(table: seq<Transition>, from: Status, event: Event, mode: Mode,
                                  expected: Option<Status>)
    requires forall i :: 0 <= i < |table| && Matches(table[i], from, event, mode) ==> Some(table[i].to) == expected
    requires expected.Some? ==> exists i :: 0 <= i < |table| && Matches(table[i], from, event, mode)
    ensures Find(table, from, event, mode) == expected
  {
    if table != [] && !Matches(table[0], from, event, mode) {
      var rest := table[1..];
      assert forall i :: 0 <= i < |rest| ==> rest[i] == table[i + 1];
      if expected.Some? {
        var i :| 0 <= i < |table| && Matches(table[i], from, event, mode);
        assert Matches(rest[i - 1], from, event, mode);
      }
      FindIs(rest, from, event, mode, expected);
    }
  }

  lemma {:induction false} FindFromEach(statuses: seq<Status>, fired: Event, to: Status, from: Status,
                                        event: Event, mode: Mode)
    ensures Find(FromEach(statuses, fired, to), from, event, mode) ==
      if event == fired && from in statuses then Some(to) else None
  {
    var table := FromEach(statuses, fired, to);
    if event == fired && from in statuses {
      var i :| 0 <= i < |statuses| && statuses[i] == from;
      assert Matches(table[i], from, event, mode);
    }
    FindIs(table, from, event, mode, if event == fired && from in statuses then Some(to) else None);
  }

  lemma NamedRow(i: nat, mode: Mode)
    requires i < |NAMED_TRANSITIONS|
    ensures var t := NAMED_TRANSITIONS[i];
      && t.event != UserFinalizes && t.event != PipelineError && t.event != UserDeletes
      && (t.mode.None? || t.mode == Some(mode) ==> Next(t.from, t.event, mode) == Some(t.to))
  {
  }

  lemma NamedIndex(from: Status, event: Event, mode: Mode) returns (i: nat)
    requires Next(from, event, mode).Some?
    requires event != UserFinalizes && event != PipelineError && event != UserDeletes
    ensures i < |NAMED_TRANSITIONS| && Matches(NAMED_TRANSITIONS[i], from, event, mode)
  {
    match event {
      case FirstUserMessage => i := 0;
      case AiTaskPublished => i := if from == AwaitingInput then 1 else if from == InElicitation then 5 else 6;
      case AiResultReceived => i := if from == Processing then 2 else 7;
      case AiQuestionReceived => i := 3;
      case UserAnswerPosted => i := 4;
      case DivergenceDetected => i := 8;
      case DivergenceResolved => i := 9;
      case EnterReview => i := 10;
      case Validate => i := 11;
      case ExportCompleted => i := 12;
    }
  }

  lemma {:induction false} FindNamed(from: Status, event: Event, mode: Mode)
    ensures Find(NAMED_TRANSITIONS, from, event, mode) ==
      if event == UserFinalizes || event == PipelineError || event == UserDeletes then None else Next(from, event, mode)
  {
    var general := event == UserFinalizes || event == PipelineError || event == UserDeletes;
    var expected := if general then None else Next(from, event, mode);
    if expected.Some? {
      var _ := NamedIndex(from, event, mode);
    }
    forall i | 0 <= i < |NAMED_TRANSITIONS| && Matches(NAMED_TRANSITIONS[i], from, event, mode)
      ensures Some(NAMED_TRANSITIONS[i].to) == expected
    {
      NamedRow(i, mode);
    }
    FindIs(NAMED_TRANSITIONS, from, event, mode, expected);
  }

  lemma ListedStatuses(s: Status)
    ensures s in STATUSES
    ensures s in FINALIZABLE <==> Rank(s) <= 2
  {
    var all := STATUSES;
    assert all[0] == Created && all[1] == AwaitingInput && all[2] == Processing && all[3] == DraftReady;
    assert all[4] == NeedsReconciliation && all[5] == InElicitation && all[6] == InReview && all[7] == Validated;
    assert all[8] == Exported && all[9] == Archived && all[10] == Failed;
    var some := FINALIZABLE;
    assert some[0] == Created && some[1] == AwaitingInput && some[2] == Processing && some[3] == InElicitation;
    assert some[4] == DraftReady && some[5] == NeedsReconciliation && some[6] == InReview;
  }

  /** A lookup that reaches the rows of one event. */
  lemma {:induction false} FindSuffix(front: seq<Transition>, statuses: seq<Status>, fired: Event, to: Status,
                                      from: Status, event: Event, mode: Mode)
    ensures Find(front + FromEach(statuses, fired, to), from, event, mode) ==
      if Find(front, from, event, mode).Some? then Find(front, from, event, mode)
      else if event == fired && from in statuses then Some(to)
      else None
  {
    FindOfConcat(front, FromEach(statuses, fired, to), from, event, mode);
    FindFromEach(statuses, fired, to, from, event, mode);
  }

  /** The lookup in the table, suffix by suffix. */
  lemma {:induction false} FindInTable(from: Status, event: Event, mode: Mode)
    ensures Transit(from, event, mode) ==
      if Find(NAMED_TRANSITIONS, from, event, mode).Some? then Find(NAMED_TRANSITIONS, from, event, mode)
      else if event == UserFinalizes && from in FINALIZABLE then Some(DraftReady)
      else if event == PipelineError && from in STATUSES then Some(Failed)
      else if event == UserDeletes && from in STATUSES then Some(Archived)
      else None
  {
    var a := NAMED_TRANSITIONS;
    var b := a + FromEach(FINALIZABLE, UserFinalizes, DraftReady);
    var c := b + FromEach(STATUSES, PipelineError, Failed);
    FindSuffix(a, FINALIZABLE, UserFinalizes, DraftReady, from, event, mode);
    FindSuffix(b, STATUSES, PipelineError, Failed, from, event, mode);
    FindSuffix(c, STATUSES, UserDeletes, Archived, from, event, mode);
  }

  /** The lookup in the table, for every status, event and mode. */
  lemma TableIsNext(from: Status, event: Event, mode: Mode)
    ensures Transit(from, event, mode) == Next(from, event, mode)
  {
    FindInTable(from, event, mode);
    FindNamed(from, event, mode);
    ListedStatuses(from);
  }

  lemma {:induction false} FindMatches(table: seq<Transition>, from: Status, event: Event, mode: Mode) returns (i: nat)
    requires Find(table, from, event, mode).Some?
    ensures i < |table| && Matches(table[i], from, event, mode) && Some(table[i].to) == Find(table, from, event, mode)
  {
    if Matches(table[0], from, event, mode) {
      i := 0;
    } else {
      var j := FindMatches(table[1..], from, event, mode);
      i := j + 1;
    }
  }

  /** The table, row by row. */
  lemma RowIs(i: nat)
    requires i < |SESSION_TRANSITIONS|
    ensures SESSION_TRANSITIONS[i] ==
      if i < 13 then NAMED_TRANSITIONS[i]
      else if i < 20 then Transition(FINALIZABLE[i - 13], UserFinalizes, DraftReady, None)
      else if i < 31 then Transition(STATUSES[i - 20], PipelineError, Failed, None)
      else Transition(STATUSES[i - 31], UserDeletes, Archived, None)
  {
    assert |SESSION_TRANSITIONS| == 13 + 7 + 11 + 11;
  }

  lemma FinalizableRank(i: nat)
    requires i < |FINALIZABLE|
    ensures Rank(FINALIZABLE[i]) <= 2
  {
    assert FINALIZABLE[i] in FINALIZABLE;
    ListedStatuses(FINALIZABLE[i]);
  }

  /** Rows of the table never disagree: any row that matches leads where the lookup leads. */
  lemma RowIsNext(i: nat, mode: Mode)
    requires i < |SESSION_TRANSITIONS|
    requires SESSION_TRANSITIONS[i].mode.None? || SESSION_TRANSITIONS[i].mode == Some(mode)
    ensures Next(SESSION_TRANSITIONS[i].from, SESSION_TRANSITIONS[i].event, mode) == Some(SESSION_TRANSITIONS[i].to)
  {
    RowIs(i);
    if i < 13 {
      NamedRow(i, mode);
    } else if i < 20 {
      FinalizableRank(i - 13);
    }
  }

  /** The administrator's reachability test is exactly "some event leads there". */
  lemma CanTransitionToIff(from: Status, to: Status, mode: Mode)
    ensures CanTransitionTo(from, to, mode) <==> exists event :: Transit(from, event, mode) == Some(to)
  {
    if CanTransitionTo(from, to, mode) {
      var i: nat :| i < |SESSION_TRANSITIONS| && SESSION_TRANSITIONS[i].from == from && SESSION_TRANSITIONS[i].to == to
        && (SESSION_TRANSITIONS[i].mode.None? || SESSION_TRANSITIONS[i].mode == Some(mode));
      RowIsNext(i, mode);
      TableIsNext(from, SESSION_TRANSITIONS[i].event, mode);
    }
    if event :| Transit(from, event, mode) == Some(to) {
      var i := FindMatches(SESSION_TRANSITIONS, from, event, mode);
    }
  }

  // ---------- runs ----------

  datatype Config = Config(status: Status, mode: Mode)

  datatype Action = Fire(event: Event) | SetMode(mode: Mode)

  predicate Accepts(c: Config, a: Action) {
    a.SetMode? || Transit(c.status, a.event, c.mode).Some?
  }

  /** An event the table does not allow throws and changes nothing. */
  function Apply(c: Config, a: Action): Config {
    match a
    case SetMode(mode) => c.(mode := mode)
    case Fire(event) => c.(status := Transit(c.status, event, c.mode).GetOr(c.status))
  }

  function Run(c: Config, actions: seq<Action>): Config
    decreases |actions|
  {
    if actions == [] then c
    else Apply(Run(c, actions[..|actions| - 1]), actions[|actions| - 1])
  }

  /** The events of a run that the table accepted, in order. */
  function Accepted(c: Config, actions: seq<Action>): seq<Event>
    decreases |actions|
  {
    if actions == [] then []
    else
      var before, last := actions[..|actions| - 1], actions[|actions| - 1];
      Accepted(c, before) + (if last.Fire? && Accepts(Run(c, before), last) then [last.event] else [])
  }

  lemma {:induction false} RunOfConcat(c: Config, a: seq<Action>, b: seq<Action>)
    ensures Run(c, a + b) == Run(Run(c, a), b)
    decreases |b|
  {
    if b == [] {
      assert a + b == a;
    } else {
      var n := |b| - 1;
      assert (a + b)[..|a + b| - 1] == a + b[..n];
      RunOfConcat(c, a, b[..n]);
    }
  }

  /** The stages, from first to last. */
  lemma StagesInOrder()
    ensures Rank(Created) < Rank(AwaitingInput) < Rank(Processing)
    ensures Rank(Processing) == Rank(InElicitation) == Rank(DraftReady) == Rank(NeedsReconciliation) == Rank(InReview)
    ensures Rank(InReview) < Rank(Validated) < Rank(Exported) < Rank(Archived) == Rank(Failed)
  {
  }

  /** Along every run, mode changes included, a session never goes back to an earlier stage. */
  lemma {:induction false} RunsAreMonotone(c: Config, actions: seq<Action>)
    ensures Rank(c.status) <= Rank(Run(c, actions).status)
    decreases |actions|
  {
    if actions != [] {
      var before, last := actions[..|actions| - 1], actions[|actions| - 1];
      RunsAreMonotone(c, before);
      if last.Fire? {
        TableIsNext(Run(c, before).status, last.event, Run(c, before).mode);
      }
    }
  }

  predicate EndsWith(events: seq<Event>, tail: seq<Event>) {
    |events| >= |tail| && forall i :: 0 <= i < |tail| ==> events[|events| - |tail| + i] == tail[i]
  }

  const ROAD_TO_EXPORT := [EnterReview, Validate, ExportCompleted]

  /** How the accepted events of a session end, by the stage it is in. */
  predicate OnRoad(status: Status, events: seq<Event>) {
    && (status == InReview ==> EndsWith(events, [EnterReview]))
    && (status == Validated ==> EndsWith(events, [EnterReview, Validate]))
    && (status == Exported ==> EndsWith(events, ROAD_TO_EXPORT))
  }

  /**
   * A run from `Created` is in review, validated or exported only right after the matching prefix
   * of enter-review, validate, export-completed.
   */
  lemma {:induction false} ExportNeedsReview(mode: Mode, actions: seq<Action>)
    ensures OnRoad(Run(Config(Created, mode), actions).status, Accepted(Config(Created, mode), actions))
    decreases |actions|
  {
    if actions != [] {
      var c := Config(Created, mode);
      var before, last := actions[..|actions| - 1], actions[|actions| - 1];
      ExportNeedsReview(mode, before);
      var mid, events := Run(c, before), Accepted(c, before);
      if last.Fire? && Accepts(mid, last) {
        TableIsNext(mid.status, last.event, mid.mode);
        OneStepOnRoad(mid.status, last.event, mid.mode, events);
      } else {
        assert events + [] == events;
      }
    }
  }

  lemma OneStepOnRoad(status: Status, e: Event, mode: Mode, events: seq<Event>)
    requires OnRoad(status, events) && Next(status, e, mode).Some?
    ensures OnRoad(Next(status, e, mode).value, events + [e])
  {
  }

  predicate StaysAuto(actions: seq<Action>) {
    forall i :: 0 <= i < |actions| ==> actions[i] != SetMode(Interactive)
  }

  /** A session that is in automatic mode throughout is never asked a question. */
  lemma {:induction false} AutoNeverElicits(c: Config, actions: seq<Action>)
    requires c.mode == Auto && c.status != InElicitation && StaysAuto(actions)
    ensures Run(c, actions).mode == Auto && Run(c, actions).status != InElicitation
    decreases |actions|
  {
    if actions != [] {
      var before, last := actions[..|actions| - 1], actions[|actions| - 1];
      AutoNeverElicits(c, before);
      if last.Fire? {
        TableIsNext(Run(c, before).status, last.event, Auto);
      }
    }
  }
}
