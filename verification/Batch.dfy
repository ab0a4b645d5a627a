/**
 The two-worker batch runner.  Two loops share a cursor, a table of rows and one chain of
 commits; every wait is a point where the other loop, the store or an abort may come first.
 */
module Batch {
  import opened Wrappers

  // ---------------------------------------------------------------- state

  datatype RowState =
    | Queued | Running | Unavailable | Incomplete | ResultUnreadable | Completed | Partial
    | NeedsClarification | CancelledOrUnknown | RefusedOrFailed | NotStarted

  datatype WorkerStatus = CompleteWork | PartialWork | UnclearWork

  /** A row of the saved record, timings left out. */
  datatype Row = Row(state: RowState, reason: Option<string>, route: Option<string>, created: bool,
                     rounds: Option<nat>, result: Option<WorkerStatus>)

  const QUEUED_ROW := Row(Queued, None, None, false, Some(0), None)

  datatype Selection = Selected(route: string) | Unselected(reason: string) | ListFails(code: string)

  datatype Answer =
    | Answer(state: string, failureCode: string, rounds: nat, result: Option<WorkerStatus>, unreadable: string)
    | Throws(code: string)

  /** What the selector and the dispatcher will say about one task.  Each is asked at most
      once per task, so fixing the answers beforehand loses no behaviour. */
  datatype Outlook = Outlook(selection: Selection, answer: Answer)

  datatype Commit = ForUnavailable | ForRunning | ForResult

  datatype Place =
    | Top
    | Selecting(i: nat)
    | Committing(why: Commit, i: nat)
    | Delegating(i: nat)
    | Done

  /** `outcome` is the settled result of the commit this loop is waiting for. */
  datatype Worker = Worker(place: Place, outcome: Option<bool>)

  datatype State = State(
    plan: seq<Outlook>, next: nat, rows: seq<Row>, workers: map<nat, Worker>,
    queue: seq<nat>,              // loops waiting in the commit chain, first one being served
    writing: Option<seq<Row>>,    // the snapshot of the first one, once its save has begun
    failed: bool, aborted: bool,
    durable: seq<seq<Row>>,       // the saved revisions of the table
    delegated: seq<nat>,          // delegate calls made, in order
    finished: bool)

  datatype Event =
    | Claim(w: nat)
    | SelectorAnswers(w: nat)
    | DelegateAnswers(w: nat)
    | Resume(w: nat)
    | SaveBegins
    | SaveEnds(ok: bool)
    | Abort
    | Finish

  function Start(plan: seq<Outlook>): State {
    var rows := seq(|plan|, i => QUEUED_ROW);
    State(plan, 0, rows, map[0 := Worker(Top, None), 1 := Worker(Top, None)], [], None, false, false, [rows, rows], [],
      false)
  }

  // ---------------------------------------------------------------- what happens to a row

  predicate KnownFailure(code: string) {
    code in {"DELEGATION_BUSY", "DELEGATION_QUEUE_FULL", "ASSIGNMENT_ALREADY_EXISTS", "EVIDENCE_EXPIRED",
             "PERSISTENCE_FAILED", "JOURNAL_BOUND", "INVALID_TECHNICAL_LIMIT"}
  }

  function Answered(row: Row, a: Answer): Row
    requires a.Answer?
  {
    var r := row.(created := true, rounds := Some(a.rounds), result := a.result);
    if a.state != "COMPLETED" then
      r.(state := Incomplete,
         reason := Some(if a.state == "PERSISTENCE_FAILED" then a.state
                        else if KnownFailure(a.failureCode) then a.failureCode else a.state))
    else if a.result == None then r.(state := ResultUnreadable, reason := Some(a.unreadable))
    else r.(state := match a.result.value
                     case CompleteWork => Completed
                     case PartialWork => Partial
                     case UnclearWork => NeedsClarification)
  }

  function Caught(row: Row, code: string, failed: bool, aborted: bool): Row {
    if failed then row.(state := RefusedOrFailed, reason := Some("PERSISTENCE_FAILED"))
    else if aborted then row.(state := CancelledOrUnknown, reason := Some("ABORTED_OR_DEADLINE"))
    else row.(state := RefusedOrFailed, reason := Some(if KnownFailure(code) then code else "UNAVAILABLE"))
  }

  function RunningRow(route: string): Row { QUEUED_ROW.(state := Running, route := Some(route), rounds := None) }

  /** One task processed by itself, with nothing going wrong around it. */
  function Alone(o: Outlook): Row {
    match o.selection
    case ListFails(code) => Caught(QUEUED_ROW, code, false, false)
    case Unselected(reason) => QUEUED_ROW.(state := Unavailable, reason := Some(reason))
    case Selected(route) =>
      if o.answer.Answer? then Answered(RunningRow(route), o.answer)
      else Caught(RunningRow(route), o.answer.code, false, false)
  }

  // ---------------------------------------------------------------- events

  predicate IsTerminal(s: RowState) { s != Queued && s != Running }

  function Place'(s: State, w: nat, p: Place): State { s.(workers := s.workers[w := Worker(p, None)]) }

  /** `commit()`: join the chain and wait. */
  function Enqueue(s: State, w: nat, why: Commit, i: nat): State {
    Place'(s, w, Committing(why, i)).(queue := s.queue + [w])
  }

  function SetRow(s: State, i: nat, row: Row): State
    requires i < |s.rows|
  {
    s.(rows := s.rows[i := row])
  }

  /** After the try block: commit the row unless persistence has failed. */
  function AfterRow(s: State, w: nat, i: nat): State {
    if s.failed then Place'(s, w, Top) else Enqueue(s, w, ForResult, i)
  }

  function Catch(s: State, w: nat, i: nat, code: string): State
    requires i < |s.rows|
  {
    AfterRow(SetRow(s, i, Caught(s.rows[i], code, s.failed, s.aborted)), w, i)
  }

  predicate Enabled(s: State, ev: Event) {
    !s.finished &&
    match ev
    case Claim(w) => w in s.workers && s.workers[w].place == Top
    case SelectorAnswers(w) => w in s.workers && s.workers[w].place.Selecting?
      && s.workers[w].place.i < |s.rows| == |s.plan|
    case DelegateAnswers(w) => w in s.workers && s.workers[w].place.Delegating?
      && s.workers[w].place.i < |s.rows| == |s.plan|
    case Resume(w) =>
      w in s.workers && s.workers[w].place.Committing? && s.workers[w].outcome.Some? && s.workers[w].place.i < |s.rows|
    case SaveBegins => s.queue != [] && s.queue[0] in s.workers && s.writing == None
    case SaveEnds(_) => s.queue != [] && s.queue[0] in s.workers && s.writing.Some?
    case Abort => !s.aborted
    case Finish => forall w :: w in s.workers ==> s.workers[w].place == Done
  }

  function Select(s: State, w: nat, i: nat): State
    requires i < |s.rows| == |s.plan|
  {
    match s.plan[i].selection
    case ListFails(code) => Catch(s, w, i, code)
    case Unselected(reason) =>
      Enqueue(SetRow(s, i, s.rows[i].(state := Unavailable, reason := Some(reason))), w, ForUnavailable, i)
    case Selected(route) =>
      if s.aborted then Catch(s, w, i, "") else
      Enqueue(SetRow(s, i, s.rows[i].(state := Running, route := Some(route), rounds := None)), w, ForRunning, i)
  }

  function Continue(s: State, w: nat, why: Commit, i: nat, ok: bool): State
    requires i < |s.rows|
  {
    match why
    case ForResult => Place'(s, w, if ok then Top else Done)
    case ForUnavailable => if ok then Place'(s, w, Top) else Catch(s, w, i, "")
    case ForRunning =>
      if ok && !s.aborted then Place'(s, w, Delegating(i)).(delegated := s.delegated + [i]) else Catch(s, w, i, "")
  }

  function Pop(s: State, ok: bool): State
    requires s.queue != [] && s.queue[0] in s.workers
  {
    s.(queue := s.queue[1..], writing := None,
      workers := s.workers[s.queue[0] := s.workers[s.queue[0]].(outcome := Some(ok))])
  }

  function Closed(row: Row): Row {
    if row.state == Queued then row.(state := NotStarted, reason := Some("BATCH_STOPPED")) else row
  }

  function Apply(s: State, ev: Event): State
    requires Enabled(s, ev)
  {
    match ev
    case Claim(w) =>
      if s.next < |s.plan| && !s.aborted && !s.failed then Place'(s, w, Selecting(s.next)).(next := s.next + 1)
      else Place'(s, w, Done)
    case SelectorAnswers(w) => Select(s, w, s.workers[w].place.i)
    case DelegateAnswers(w) =>
      var i := s.workers[w].place.i;
      var a := s.plan[i].answer;
      if a.Answer? then AfterRow(SetRow(s, i, Answered(s.rows[i], a)), w, i) else Catch(s, w, i, a.code)
    case Resume(w) => Continue(s, w, s.workers[w].place.why, s.workers[w].place.i, s.workers[w].outcome.value)
    case SaveBegins => if s.failed then Pop(s, false) else s.(writing := Some(s.rows))
    case SaveEnds(ok) =>
      if ok then Pop(s, true).(durable := s.durable + [s.writing.value])
      else Pop(s, false).(failed := true, aborted := true)
    case Abort => s.(aborted := true)
    case Finish => s.(rows := seq(|s.rows|, i requires 0 <= i < |s.rows| => Closed(s.rows[i])), finished := true)
  }

  predicate IsRun(s: State, evs: seq<Event>, t: State)
    decreases |evs|
  {
    if evs == [] then s == t else Enabled(s, evs[0]) && IsRun(Apply(s, evs[0]), evs[1..], t)
  }

  datatype RecordState = PersistenceFailedState | InterruptedUnknown | AllCompleted | SomeIncomplete

  function RecordStateOf(rows: seq<Row>, failed: bool, aborted: bool): RecordState {
    if failed then PersistenceFailedState else if aborted then InterruptedUnknown
    else if forall i :: 0 <= i < |rows| ==> rows[i].state == Completed then AllCompleted else SomeIncomplete
  }

  // ---------------------------------------------------------------- invariant

  predicate Owns(p: Place, i: nat) {
    match p
    case Selecting(j) => i == j
    case Committing(_, j) => i == j
    case Delegating(j) => i == j
    case _ => false
  }

  function IndexOf(p: Place): nat
    requires p.Selecting? || p.Committing? || p.Delegating?
  {
    p.i
  }

  predicate Busy(p: Place) { p.Selecting? || p.Committing? || p.Delegating? }

  predicate Marked(rows: seq<Row>, i: nat) { i < |rows| && rows[i].state == Running }

  /** Some saved revision of the table shows task `i` as running. */
  predicate Announced(durable: seq<seq<Row>>, i: nat) { exists k :: 0 <= k < |durable| && Marked(durable[k], i) }

  predicate Clean(s: State) { !s.failed && !s.aborted }

  /** The row of a task whose loop stands at `p`. */
  predicate RowAt(o: Outlook, row: Row, p: Place, clean: bool) {
    match p
    case Selecting(_) => row == QUEUED_ROW
    case Delegating(_) => o.selection.Selected? && row == RunningRow(o.selection.route)
    case Committing(ForRunning, _) => o.selection.Selected? && row == RunningRow(o.selection.route)
    case _ => IsTerminal(row.state) && (clean ==> row == Alone(o))
  }

  predicate WorkerOk(s: State, x: Worker)
    requires Shape(s)
  {
    && (x.outcome.Some? ==> x.place.Committing?)
    && (x.outcome == Some(false) ==> s.failed)
    && (Busy(x.place) ==>
          var i := IndexOf(x.place);
          && i < s.next && RowAt(s.plan[i], s.rows[i], x.place, Clean(s))
          && (x.place.Selecting? || (x.place.Committing? && x.place.why != ForResult) ==> i !in s.delegated)
          && (x.place.Delegating? || (x.place.Committing? && x.place.why == ForRunning && x.outcome == Some(true)) ==>
                Announced(s.durable, i)))
  }

  predicate InQueue(s: State, w: nat) { exists k :: 0 <= k < |s.queue| && s.queue[k] == w }

  predicate Owned(s: State, i: nat) { exists w :: w in s.workers && Owns(s.workers[w].place, i) }

  predicate RowsOk(s: State)
    requires Shape(s)
  {
    forall i :: 0 <= i < |s.rows| ==>
      && (i >= s.next ==> s.rows[i] == QUEUED_ROW)
      && (i < s.next && !Owned(s, i) ==> IsTerminal(s.rows[i].state) && (Clean(s) ==> s.rows[i] == Alone(s.plan[i])))
  }

  predicate QueueOk(s: State) {
    && (forall k, m :: 0 <= k < m < |s.queue| ==> s.queue[k] != s.queue[m])
    && (forall w :: w in s.workers ==>
          (InQueue(s, w) <==> s.workers[w].place.Committing? && s.workers[w].outcome == None))
    && (forall k :: 0 <= k < |s.queue| ==> s.queue[k] in s.workers)
    && (s.writing.Some? ==>
          && s.queue != []
          && var p := s.workers[s.queue[0]].place;
             (p.Committing? && p.why == ForRunning ==> Marked(s.writing.value, p.i)))
  }

  predicate Shape(s: State) {
    && s.workers.Keys == {0, 1} && |s.rows| == |s.plan| && s.next <= |s.plan|
    && (s.failed ==> s.aborted)
  }

  predicate Inv(s: State) {
    && Shape(s)
    && (forall w :: w in s.workers ==> WorkerOk(s, s.workers[w]))
    && (Busy(s.workers[0].place) && Busy(s.workers[1].place) ==>
         IndexOf(s.workers[0].place) != IndexOf(s.workers[1].place))
    && RowsOk(s) && QueueOk(s)
    && (forall k, m :: 0 <= k < m < |s.delegated| ==> s.delegated[k] != s.delegated[m])
    && (forall k :: 0 <= k < |s.delegated| ==> s.delegated[k] < s.next && Announced(s.durable, s.delegated[k]))
  }

  lemma StartOk(plan: seq<Outlook>)
    ensures Inv(Start(plan))
  {
  }

  function Other(w: nat): nat { if w == 0 then 1 else 0 }

  /** Loop `w` moves to `x` and touches no row but `i`, which the other loop does not own. */
  predicate Moved(s: State, t: State, w: nat, x: Worker, i: nat) {
    && w in s.workers && t.workers == s.workers[w := x] && s.workers.Keys == {0, 1}
    && t.plan == s.plan && t.durable == s.durable && t.failed == s.failed && t.aborted == s.aborted
    && t.writing == s.writing
    && |t.rows| == |s.rows| && (forall j :: 0 <= j < |s.rows| && j != i ==> t.rows[j] == s.rows[j])
    && (t.next == s.next || (t.next == s.next + 1 <= |s.plan| && i == s.next))
    && !Owns(s.workers[Other(w)].place, i)
    && (Busy(s.workers[w].place) ==> IndexOf(s.workers[w].place) == i)
    && (Busy(x.place) ==> IndexOf(x.place) == i)
  }

  lemma MoveRows(s: State, t: State, w: nat, x: Worker, i: nat)
    requires Shape(s) && Shape(t) && RowsOk(s) && Moved(s, t, w, x, i)
    requires i < |s.rows| ==>
               i < t.next &&
               (Busy(x.place) || (IsTerminal(t.rows[i].state) && (Clean(t) ==> t.rows[i] == Alone(t.plan[i]))))
    ensures RowsOk(t)
  {
    forall j | 0 <= j < |t.rows|
      ensures j >= t.next ==> t.rows[j] == QUEUED_ROW
      ensures j < t.next && !Owned(t, j) ==> IsTerminal(t.rows[j].state) && (Clean(t) ==> t.rows[j] == Alone(t.plan[j]))
    {
      if Owned(s, j) && j != i {
        var v :| v in s.workers && Owns(s.workers[v].place, j);
        assert v in {0, 1} && w in {0, 1} && v != w;
        assert v == Other(w) && Owns(t.workers[v].place, j);
      }
      if j == i && Busy(x.place) {
        assert Owns(t.workers[w].place, j);
      }
    }
  }

  lemma MoveQueue(s: State, t: State, w: nat, x: Worker, i: nat)
    requires Shape(s) && Shape(t) && QueueOk(s) && Moved(s, t, w, x, i) && !InQueue(s, w)
    requires if x.place.Committing? then t.queue == s.queue + [w] && x.outcome == None else t.queue == s.queue
    ensures QueueOk(t)
  {
    forall v | v in t.workers
      ensures InQueue(t, v) <==> t.workers[v].place.Committing? && t.workers[v].outcome == None
    {
      if InQueue(s, v) {
        var k :| 0 <= k < |s.queue| && s.queue[k] == v;
        assert t.queue[k] == v;
      }
      if v == w && x.place.Committing? {
        assert t.queue[|s.queue|] == w;
      }
    }
    if s.queue != [] {
      assert InQueue(s, s.queue[0]);
      assert t.queue[0] == s.queue[0];
    }
    forall k | 0 <= k < |s.queue| ensures s.queue[k] != w {
      assert s.queue[k] == w ==> InQueue(s, w);
    }
  }

  lemma MoveOk(s: State, t: State, w: nat, x: Worker, i: nat)
    requires Inv(s) && Shape(t) && Moved(s, t, w, x, i)
    requires RowsOk(t) && QueueOk(t) && WorkerOk(t, x)
    requires t.delegated == s.delegated
             || (t.delegated == s.delegated + [i] && i !in s.delegated && i < t.next && Announced(s.durable, i))
    ensures Inv(t)
  {
    hide RowsOk, QueueOk, Announced, RowAt;
    var o := s.workers[Other(w)];
    assert WorkerOk(s, o);
    assert WorkerOk(t, o);
  }

  lemma ClaimOk(s: State, w: nat)
    requires Inv(s) && Enabled(s, Claim(w))
    ensures Inv(Apply(s, Claim(w)))
  {
    var t := Apply(s, Claim(w));
    var i := if s.next < |s.plan| && !s.aborted && !s.failed then s.next else |s.plan|;
    assert WorkerOk(s, s.workers[w]) && WorkerOk(s, s.workers[Other(w)]);
    forall k | 0 <= k < |s.delegated| ensures s.delegated[k] != i {
      assert s.delegated[k] < s.next;
    }
    MoveRows(s, t, w, t.workers[w], i);
    MoveQueue(s, t, w, t.workers[w], i);
    MoveOk(s, t, w, t.workers[w], i);
  }

  /** Where a loop stands, and what its neighbour does not own. */
  lemma Standing(s: State, w: nat) returns (i: nat)
    requires Inv(s) && w in s.workers && Busy(s.workers[w].place)
    ensures (w == 0 || w == 1) && Shape(s)
    ensures i == IndexOf(s.workers[w].place) < s.next && !Owns(s.workers[Other(w)].place, i)
    ensures WorkerOk(s, s.workers[w])
    ensures InQueue(s, w) <==> s.workers[w].place.Committing? && s.workers[w].outcome == None
  {
    i := IndexOf(s.workers[w].place);
    assert WorkerOk(s, s.workers[w]);
  }

  lemma StepTo(s: State, t: State, w: nat, i: nat)
    requires Inv(s) && Shape(t) && w in s.workers && Busy(s.workers[w].place) && i == IndexOf(s.workers[w].place)
    requires w in t.workers && Moved(s, t, w, t.workers[w], i) && !InQueue(s, w) && i < |s.rows| && i < t.next
    requires var x := t.workers[w];
             && WorkerOk(t, x)
             && (Busy(x.place) || (IsTerminal(t.rows[i].state) && (Clean(t) ==> t.rows[i] == Alone(t.plan[i]))))
             && (if x.place.Committing? then t.queue == s.queue + [w] && x.outcome == None else t.queue == s.queue)
    requires t.delegated == s.delegated
             || (t.delegated == s.delegated + [i] && i !in s.delegated && Announced(s.durable, i))
    ensures Inv(t)
  {
    hide WorkerOk, Announced;
    MoveRows(s, t, w, t.workers[w], i);
    MoveQueue(s, t, w, t.workers[w], i);
    MoveOk(s, t, w, t.workers[w], i);
  }

  lemma AnsweredIsTerminal(row: Row, a: Answer)
    requires a.Answer?
    ensures IsTerminal(Answered(row, a).state)
  {
    hide KnownFailure;
  }

  /** A row is finished with, and committed unless persistence has failed. */
  lemma AfterRowOk(s: State, w: nat, i: nat, row: Row)
    requires Inv(s) && w in s.workers && Busy(s.workers[w].place) && i == IndexOf(s.workers[w].place) && !InQueue(s, w)
    requires i < |s.rows| == |s.plan| && IsTerminal(row.state) && (Clean(s) ==> row == Alone(s.plan[i]))
    ensures Inv(AfterRow(SetRow(s, i, row), w, i))
  {
    var j := Standing(s, w);
    hide RowsOk, QueueOk, Announced, InQueue, Inv, Alone;
    StepTo(s, AfterRow(SetRow(s, i, row), w, i), w, i);
  }

  lemma CaughtIsTerminal(row: Row, code: string, failed: bool, aborted: bool)
    ensures IsTerminal(Caught(row, code, failed, aborted).state)
  {
  }

  lemma CatchOk(s: State, w: nat, i: nat, code: string)
    requires Inv(s) && w in s.workers && Busy(s.workers[w].place) && i == IndexOf(s.workers[w].place) && !InQueue(s, w)
    requires i < |s.rows| == |s.plan|
    requires Clean(s) ==> Caught(s.rows[i], code, false, false) == Alone(s.plan[i])
    ensures Inv(Catch(s, w, i, code))
  {
    CaughtIsTerminal(s.rows[i], code, s.failed, s.aborted);
    hide Inv, Caught, Alone, InQueue, AfterRow, SetRow, IsTerminal;
    AfterRowOk(s, w, i, Caught(s.rows[i], code, s.failed, s.aborted));
  }

  lemma SelectOk(s: State, w: nat)
    requires Inv(s) && Enabled(s, SelectorAnswers(w))
    ensures Inv(Apply(s, SelectorAnswers(w)))
  {
    var i := Standing(s, w);
    hide RowsOk, QueueOk, Announced, InQueue, Inv, KnownFailure, Answered, Catch, Caught;
    if s.plan[i].selection.ListFails? {
      CatchOk(s, w, i, s.plan[i].selection.code);
    } else if s.plan[i].selection.Selected? && s.aborted {
      CatchOk(s, w, i, "");
    } else {
      StepTo(s, Apply(s, SelectorAnswers(w)), w, i);
    }
  }

  /** The row a delegated task leaves, when nothing went wrong around it. */
  lemma AloneAnswered(o: Outlook)
    requires o.selection.Selected?
    ensures Alone(o) == if o.answer.Answer? then Answered(RunningRow(o.selection.route), o.answer)
                        else Caught(RunningRow(o.selection.route), o.answer.code, false, false)
  {
    hide Answered, Caught;
  }

  lemma AnswerOk(s: State, w: nat)
    requires Inv(s) && Enabled(s, DelegateAnswers(w))
    ensures Inv(Apply(s, DelegateAnswers(w)))
  {
    var i := Standing(s, w);
    hide RowsOk, QueueOk, Announced, InQueue, Inv, Answered, Caught, Alone, AfterRow, SetRow, IsTerminal, Catch;
    AloneAnswered(s.plan[i]);
    if s.plan[i].answer.Answer? {
      AnsweredIsTerminal(s.rows[i], s.plan[i].answer);
      AfterRowOk(s, w, i, Answered(s.rows[i], s.plan[i].answer));
    } else {
      CatchOk(s, w, i, s.plan[i].answer.code);
    }
  }

  /** A commit went through and the loop goes on, or it ends after a failed one. */
  lemma GoesOnOk(s: State, w: nat)
    requires Inv(s) && Enabled(s, Resume(w))
    requires var why, ok := s.workers[w].place.why, s.workers[w].outcome.value;
             why == ForResult || (why == ForUnavailable && ok) || (why == ForRunning && ok && !s.aborted)
    ensures Inv(Apply(s, Resume(w)))
  {
    var i := Standing(s, w);
    hide RowsOk, QueueOk, Announced, InQueue, Inv, Catch, Alone;
    StepTo(s, Apply(s, Resume(w)), w, i);
  }

  lemma ResumeOk(s: State, w: nat)
    requires Inv(s) && Enabled(s, Resume(w))
    ensures Inv(Apply(s, Resume(w)))
  {
    var i := Standing(s, w);
    var ok, why := s.workers[w].outcome.value, s.workers[w].place.why;
    if (why == ForUnavailable && !ok) || (why == ForRunning && !(ok && !s.aborted)) {
      hide RowsOk, QueueOk, Announced, InQueue, Inv, Catch, Alone, Answered;
      CatchOk(s, w, i, "");
    } else {
      GoesOnOk(s, w);
    }
  }

  /** An event of the commit chain: no loop moves, no row changes. */
  predicate OnlyCommits(s: State, t: State) {
    && t.plan == s.plan && t.next == s.next && t.rows == s.rows && t.delegated == s.delegated
    && t.workers.Keys == s.workers.Keys && (forall w :: w in s.workers ==> t.workers[w].place == s.workers[w].place)
    && (Clean(t) ==> Clean(s)) && (s.failed ==> t.failed)
    && |s.durable| <= |t.durable| && (forall k :: 0 <= k < |s.durable| ==> t.durable[k] == s.durable[k])
  }

  lemma StillAnnounced(s: State, t: State, i: nat)
    requires |s.durable| <= |t.durable| && forall k :: 0 <= k < |s.durable| ==> t.durable[k] == s.durable[k]
    ensures Announced(s.durable, i) ==> Announced(t.durable, i)
  {
    if Announced(s.durable, i) {
      var k :| 0 <= k < |s.durable| && Marked(s.durable[k], i);
      assert Marked(t.durable[k], i);
    }
  }

  /** A loop keeps its outcome or is told, truthfully, how its commit went. */
  predicate OutcomeOk(t: State, before: Worker, after: Worker) {
    after.outcome == before.outcome ||
    (after.place.Committing? &&
     (if after.outcome == Some(true) then after.place.why == ForRunning ==> Announced(t.durable, after.place.i)
      else after.outcome == Some(false) && t.failed))
  }

  lemma CommitStep(s: State, t: State)
    requires Inv(s) && Shape(t) && OnlyCommits(s, t) && QueueOk(t)
    requires forall w :: w in t.workers ==> OutcomeOk(t, s.workers[w], t.workers[w])
    ensures Inv(t)
  {
    hide QueueOk, Announced, Alone;
    forall w | w in t.workers ensures WorkerOk(t, t.workers[w]) {
      assert WorkerOk(s, s.workers[w]);
      if Busy(s.workers[w].place) {
        StillAnnounced(s, t, IndexOf(s.workers[w].place));
      }
    }
    forall i | 0 <= i < |t.rows| ensures Owned(t, i) <==> Owned(s, i) {
      if v :| v in s.workers && Owns(s.workers[v].place, i) {
        assert Owns(t.workers[v].place, i);
      }
      if v :| v in t.workers && Owns(t.workers[v].place, i) {
        assert Owns(s.workers[v].place, i);
      }
    }
    forall k | 0 <= k < |t.delegated| ensures Announced(t.durable, t.delegated[k]) {
      StillAnnounced(s, t, s.delegated[k]);
    }
  }

  lemma PopQueue(s: State, t: State, ok: bool)
    requires Shape(s) && QueueOk(s) && s.queue != [] && s.queue[0] in s.workers && Shape(t)
    requires t.queue == s.queue[1..] && t.writing == None
    requires t.workers == s.workers[s.queue[0] := s.workers[s.queue[0]].(outcome := Some(ok))]
    ensures QueueOk(t)
  {
    var head := s.queue[0];
    forall w | w in t.workers ensures InQueue(t, w) <==>
      t.workers[w].place.Committing? && t.workers[w].outcome == None {
      if InQueue(s, w) && w != head {
        var k :| 0 <= k < |s.queue| && s.queue[k] == w;
        assert t.queue[k - 1] == w;
      }
      if InQueue(t, w) {
        var k :| 0 <= k < |t.queue| && t.queue[k] == w;
        assert s.queue[k + 1] == w;
      }
    }
    forall k | 0 <= k < |t.queue| ensures t.queue[k] in t.workers {
      assert s.queue[k + 1] in s.workers;
    }
  }

  /** The loop at the head of the chain waits for a commit. */
  lemma HeadWaits(s: State) returns (x: Worker)
    requires Inv(s) && s.queue != [] && s.queue[0] in s.workers
    ensures Shape(s) && QueueOk(s) && x == s.workers[s.queue[0]] && x.place.Committing? && x.outcome == None
            && WorkerOk(s, x)
  {
    x := s.workers[s.queue[0]];
    assert InQueue(s, s.queue[0]);
  }

  lemma SaveBeginsOk(s: State)
    requires Inv(s) && Enabled(s, SaveBegins)
    ensures Inv(Apply(s, SaveBegins))
  {
    var x := HeadWaits(s);
    var t := Apply(s, SaveBegins);
    hide Inv, Announced, RowsOk, Alone;
    if s.failed {
      PopQueue(s, t, false);
    }
    CommitStep(s, t);
  }

  lemma SaveEndsOk(s: State, ok: bool)
    requires Inv(s) && Enabled(s, SaveEnds(ok))
    ensures Inv(Apply(s, SaveEnds(ok)))
  {
    var x := HeadWaits(s);
    var t := Apply(s, SaveEnds(ok));
    PopQueue(s, t, ok);
    if ok && x.place.why == ForRunning {
      assert Marked(t.durable[|s.durable|], x.place.i);
    }
    hide Inv, RowsOk, Alone, QueueOk;
    CommitStep(s, t);
  }

  lemma AbortOk(s: State)
    requires Inv(s) && Enabled(s, Abort)
    ensures Inv(Apply(s, Abort))
  {
  }

  /** One event, before the final sweep. */
  lemma StepOk(s: State, ev: Event)
    requires Inv(s) && Enabled(s, ev) && !ev.Finish?
    ensures Inv(Apply(s, ev))
  {
    match ev
    case Claim(w) => ClaimOk(s, w);
    case SelectorAnswers(w) => SelectOk(s, w);
    case DelegateAnswers(w) => AnswerOk(s, w);
    case Resume(w) => ResumeOk(s, w);
    case SaveBegins => SaveBeginsOk(s);
    case SaveEnds(ok) => SaveEndsOk(s, ok);
    case Abort => AbortOk(s);
  }

  /** The sweep after both loops are drained: every row left alone was never claimed. */
  lemma FinishOk(s: State)
    requires Inv(s) && Enabled(s, Finish)
    ensures var t := Apply(s, Finish);
            && (forall i :: 0 <= i < |t.rows| ==> IsTerminal(t.rows[i].state))
            && (Clean(t) && s.next == |s.plan| ==> forall i :: 0 <= i < |t.rows| ==> t.rows[i] == Alone(t.plan[i]))
  {
    assert s.workers[0].place == Done && s.workers[1].place == Done;
    forall i | 0 <= i < |s.rows| ensures !Owned(s, i) {
    }
    hide Alone;
  }

  /** A loop that stops while nothing is wrong has seen the cursor at the end. */
  predicate DoneMeansAll(s: State) {
    Clean(s) ==> forall w :: w in s.workers && s.workers[w].place == Done ==> s.next == |s.plan|
  }

  ghost predicate Good(s: State) {
    if s.finished then
      && |s.rows| == |s.plan| && (forall i :: 0 <= i < |s.rows| ==> IsTerminal(s.rows[i].state))
      && (Clean(s) ==> forall i :: 0 <= i < |s.rows| ==> s.rows[i] == Alone(s.plan[i]))
      && (forall k, m :: 0 <= k < m < |s.delegated| ==> s.delegated[k] != s.delegated[m])
      && (forall k :: 0 <= k < |s.delegated| ==> s.delegated[k] < |s.plan| && Announced(s.durable, s.delegated[k]))
    else Inv(s) && DoneMeansAll(s)
  }

  lemma FailedCommit(s: State, w: nat)
    requires Inv(s) && Enabled(s, Resume(w))
    ensures s.workers[w].outcome == Some(false) ==> s.failed
  {
    assert WorkerOk(s, s.workers[w]);
  }

  /** Where a loop goes after a row: never straight to its end. */
  predicate MovesTo(s: State, t: State, w: nat) {
    && t.plan == s.plan && t.next == s.next && t.failed == s.failed && t.aborted == s.aborted
    && t.finished == s.finished
    && w in t.workers && t.workers == s.workers[w := t.workers[w]] && t.workers[w].place != Done
  }

  lemma AfterRowMoves(s: State, w: nat, i: nat, row: Row)
    requires i < |s.rows|
    ensures MovesTo(s, AfterRow(SetRow(s, i, row), w, i), w)
  {
  }

  lemma SelectMoves(s: State, w: nat)
    requires Enabled(s, SelectorAnswers(w))
    ensures MovesTo(s, Apply(s, SelectorAnswers(w)), w)
  {
    var i := s.workers[w].place.i;
    hide Caught, AfterRow;
    match s.plan[i].selection
    case ListFails(code) => AfterRowMoves(s, w, i, Caught(s.rows[i], code, s.failed, s.aborted));
    case Selected(_) => AfterRowMoves(s, w, i, Caught(s.rows[i], "", s.failed, s.aborted));
    case Unselected(_) =>
  }

  lemma AnswerMoves(s: State, w: nat)
    requires Enabled(s, DelegateAnswers(w))
    ensures MovesTo(s, Apply(s, DelegateAnswers(w)), w)
  {
    var i := s.workers[w].place.i;
    var a := s.plan[i].answer;
    hide Caught, Answered, AfterRow;
    AfterRowMoves(s, w, i, if a.Answer? then Answered(s.rows[i], a)
      else Caught(s.rows[i], a.code, s.failed, s.aborted));
  }

  lemma ResumeMoves(s: State, w: nat)
    requires Enabled(s, Resume(w))
    ensures MovesTo(s, Apply(s, Resume(w)), w) ||
            (s.workers[w].outcome == Some(false) && Apply(s, Resume(w)).failed == s.failed
             && Apply(s, Resume(w)).aborted == s.aborted && Apply(s, Resume(w)).plan == s.plan
             && Apply(s, Resume(w)).next == s.next
             && Apply(s, Resume(w)).finished == s.finished)
  {
    var i := s.workers[w].place.i;
    hide Caught, AfterRow;
    AfterRowMoves(s, w, i, Caught(s.rows[i], "", s.failed, s.aborted));
  }

  /** Who moves at an event, and that trouble is never forgotten. */
  lemma OneLoopMoves(s: State, ev: Event)
    requires Enabled(s, ev) && !ev.Finish?
    requires ev.Resume? ==> s.workers[ev.w].outcome == Some(false) ==> s.failed
    ensures var t := Apply(s, ev);
            && t.plan == s.plan && s.next <= t.next && (Clean(t) ==> Clean(s))
            && (forall v :: v in t.workers && t.workers[v].place == Done && Clean(t) ==>
                  v in s.workers && (s.workers[v].place == Done || t.next >= |t.plan|))
            && t.finished == s.finished
  {
    if ev.SelectorAnswers? {
      hide Apply;
      SelectMoves(s, ev.w);
    } else if ev.DelegateAnswers? {
      hide Apply;
      AnswerMoves(s, ev.w);
    } else if ev.Resume? {
      hide Apply;
      ResumeMoves(s, ev.w);
    } else {
      hide Select, Continue, Alone, Answered, Caught, AfterRow;
    }
  }

  lemma DoneStep(s: State, ev: Event)
    requires Inv(s) && DoneMeansAll(s) && Enabled(s, ev) && !ev.Finish? && Inv(Apply(s, ev))
    ensures DoneMeansAll(Apply(s, ev)) && Apply(s, ev).plan == s.plan && !Apply(s, ev).finished
  {
    if ev.Resume? {
      FailedCommit(s, ev.w);
    }
    OneLoopMoves(s, ev);
    hide RowsOk, QueueOk, WorkerOk, Alone, Apply;
  }

  lemma GoodAtFinish(s: State)
    requires Good(s) && Enabled(s, Finish)
    ensures Good(Apply(s, Finish)) && Apply(s, Finish).plan == s.plan
  {
    FinishOk(s);
    hide Alone, WorkerOk, QueueOk, RowsOk, Announced, IsTerminal;
  }

  lemma GoodStep(s: State, ev: Event)
    requires Good(s) && Enabled(s, ev)
    ensures Good(Apply(s, ev)) && Apply(s, ev).plan == s.plan
  {
    if ev.Finish? {
      GoodAtFinish(s);
    } else {
      hide Inv, DoneMeansAll, Apply;
      StepOk(s, ev);
      DoneStep(s, ev);
    }
  }

  lemma {:induction false} RunOk(s: State, evs: seq<Event>, t: State)
    requires Good(s) && IsRun(s, evs, t)
    ensures Good(t) && t.plan == s.plan
    decreases |evs|
  {
    hide Good, Enabled, Apply;
    if evs == [] {
    } else {
      GoodStep(s, evs[0]);
      RunOk(Apply(s, evs[0]), evs[1..], t);
    }
  }

  // ---------------------------------------------------------------- what a run guarantees

  /** Whatever the order of events, aborts and failed saves: no task is delegated twice, each
      delegated task is shown as running by a saved revision, and when the run is over no row
      is still queued or running. */
  lemma BatchSafety(plan: seq<Outlook>, evs: seq<Event>, s: State)
    requires IsRun(Start(plan), evs, s)
    ensures forall k, m :: 0 <= k < m < |s.delegated| ==> s.delegated[k] != s.delegated[m]
    ensures forall k :: 0 <= k < |s.delegated| ==> s.delegated[k] < |plan| && Announced(s.durable, s.delegated[k])
    ensures s.finished ==>
              && |s.rows| == |plan|
              && forall i :: 0 <= i < |s.rows| ==> s.rows[i].state != Queued && s.rows[i].state != Running
  {
    StartOk(plan);
    RunOk(Start(plan), evs, s);
    hide WorkerOk, QueueOk, RowsOk, Alone;
  }

  /** The moment of a delegate call: persistence has not failed, a saved revision already
      shows the task as running, and it was not delegated before. */
  lemma DelegatesOnlyAnnounced(plan: seq<Outlook>, evs: seq<Event>, s: State, w: nat)
    requires IsRun(Start(plan), evs, s) && Enabled(s, Resume(w)) && Apply(s, Resume(w)).delegated != s.delegated
    ensures !s.failed && !s.aborted
    ensures var i := s.workers[w].place.i; Announced(s.durable, i) && i !in s.delegated
    ensures Apply(s, Resume(w)).delegated == s.delegated + [s.workers[w].place.i]
  {
    hide Inv, IsRun, RowsOk, QueueOk, Alone, Caught, Announced;
    StartOk(plan);
    RunOk(Start(plan), evs, s);
    var i := Standing(s, w);
  }

  /** Confluence: if nothing was aborted and every save succeeded, every interleaving of the
      two loops ends with the table that processing the tasks one by one would leave. */
  lemma Confluence(plan: seq<Outlook>, evs: seq<Event>, s: State)
    requires IsRun(Start(plan), evs, s) && s.finished && !s.aborted && !s.failed
    ensures s.rows == seq(|plan|, i requires 0 <= i < |plan| => Alone(plan[i]))
  {
    StartOk(plan);
    RunOk(Start(plan), evs, s);
    hide Alone;
  }

  /** What has to be true of a task for its row to end as completed. */
  predicate Succeeds(o: Outlook) {
    o.selection.Selected? && o.answer.Answer? && o.answer.state == "COMPLETED" && o.answer.result == Some(CompleteWork)
  }

  /** A completed row means a completed run with a complete result; a row without an
      assignment was never answered; and a task without a route never had one. */
  lemma AloneMeans(o: Outlook)
    ensures Alone(o).state == Completed <==> Succeeds(o)
    ensures Alone(o).created <==> o.selection.Selected? && o.answer.Answer?
    ensures Alone(o).route == if o.selection.Selected? then Some(o.selection.route) else None
    ensures Alone(o).state == Completed || Alone(o).state == Partial || Alone(o).state == NeedsClarification <==>
              Alone(o).reason == None
  {
    hide KnownFailure;
  }

  /** Which state each other answer leaves a row in, and for which reason: the selector's own; the code
      of what was thrown, or of a run that did not complete, if it is one that may be shown; a failed
      save of the run before any other code; or why its result could not be read. */
  lemma AloneExactly(o: Outlook)
    ensures var r, a := Alone(o), o.answer;
            match o.selection
            case Unselected(reason) => r == QUEUED_ROW.(state := Unavailable, reason := Some(reason))
            case ListFails(code) =>
              && r.state == RefusedOrFailed && r.rounds == Some(0) && r.result == None
              && r.reason == Some(if KnownFailure(code) then code else "UNAVAILABLE")
            case Selected(_) =>
              && r.rounds == (if a.Answer? then Some(a.rounds) else None)
              && r.result == (if a.Answer? then a.result else None)
              && (a.Throws? ==>
                    && r.state == RefusedOrFailed
                    && r.reason == Some(if KnownFailure(a.code) then a.code else "UNAVAILABLE"))
              && (a.Answer? && a.state != "COMPLETED" ==>
                    && r.state == Incomplete
                    && (a.state == "PERSISTENCE_FAILED" ==> r.reason == Some("PERSISTENCE_FAILED"))
                    && (a.state != "PERSISTENCE_FAILED" ==>
                          r.reason == Some(if KnownFailure(a.failureCode) then a.failureCode else a.state)))
              && (a.Answer? && a.state == "COMPLETED" ==>
                    && (a.result == None ==> r.state == ResultUnreadable && r.reason == Some(a.unreadable))
                    && (a.result == Some(PartialWork) ==> r.state == Partial)
                    && (a.result == Some(UnclearWork) ==> r.state == NeedsClarification))
  {
    hide KnownFailure;
  }

  /** The batch is reported as completed exactly when nothing was aborted, every save
      succeeded and every task succeeds. */
  lemma CompletedExactlyWhen(plan: seq<Outlook>, evs: seq<Event>, s: State)
    requires IsRun(Start(plan), evs, s) && s.finished
    ensures RecordStateOf(s.rows, s.failed, s.aborted) == AllCompleted <==>
              !s.failed && !s.aborted && forall i :: 0 <= i < |plan| ==> Succeeds(plan[i])
    ensures RecordStateOf(s.rows, s.failed, s.aborted) == PersistenceFailedState <==> s.failed
    ensures RecordStateOf(s.rows, s.failed, s.aborted) == InterruptedUnknown <==> s.aborted && !s.failed
  {
    hide IsRun, Alone, Succeeds;
    if !s.failed && !s.aborted {
      Confluence(plan, evs, s);
      forall i | 0 <= i < |plan| ensures s.rows[i].state == Completed <==> Succeeds(plan[i]) {
        AloneMeans(plan[i]);
      }
    }
  }

  // ---------------------------------------------------------------- every run ends

  function Rank(x: Worker): nat {
    match x.place
    case Done => 0
    case Top => 1
    case Committing(ForResult, _) => if x.outcome.Some? then 2 else 3
    case Delegating(_) => 6
    case Committing(_, _) => if x.outcome.Some? then 7 else 8
    case Selecting(_) => 11
  }

  function Remaining(s: State): nat
    requires Shape(s) && QueueOk(s)
  {
    20 * (|s.plan| - s.next) + Rank(s.workers[0]) + Rank(s.workers[1])
    + 2 * |s.queue| - (if s.writing.Some? then 1 else 0) + (if s.aborted then 0 else 1)
  }

  lemma RankOfTold(x: Worker, ok: bool)
    requires x.place.Committing? && x.outcome == None
    ensures Rank(x.(outcome := Some(ok))) == Rank(x) - 1
  {
  }

  lemma PopCounts(s: State, ok: bool)
    requires Shape(s) && s.queue != [] && s.queue[0] in s.workers
    requires var x := s.workers[s.queue[0]]; x.place.Committing? && x.outcome == None
    ensures var t := Pop(s, ok);
            && Rank(t.workers[0]) + Rank(t.workers[1]) == Rank(s.workers[0]) + Rank(s.workers[1]) - 1
            && |t.queue| == |s.queue| - 1 && t.writing == None && t.plan == s.plan && t.next == s.next
            && t.aborted == s.aborted
  {
    RankOfTold(s.workers[s.queue[0]], ok);
    hide Rank;
    assert s.queue[0] == 0 || s.queue[0] == 1;
  }

  lemma CommitCounts(s: State, ev: Event)
    requires Inv(s) && Enabled(s, ev) && (ev.SaveBegins? || ev.SaveEnds?) && Inv(Apply(s, ev))
    ensures Remaining(Apply(s, ev)) < Remaining(s)
  {
    var x := HeadWaits(s);
    PopCounts(s, if ev.SaveEnds? then ev.ok else false);
    hide RowsOk, QueueOk, WorkerOk, Alone, Rank, Pop;
  }

  /** Loop `w` moved from `s` to `t` and paid for its place in the chain of commits. */
  predicate Paid(s: State, t: State, w: nat) {
    && w in s.workers && s.workers.Keys == t.workers.Keys
    && (forall v :: v in s.workers && v != w ==> t.workers[v] == s.workers[v])
    && Rank(t.workers[w]) + 2 * |t.queue| + 20 * s.next < Rank(s.workers[w]) + 2 * |s.queue| + 20 * t.next
    && t.writing == s.writing && t.aborted == s.aborted && t.plan == s.plan
  }

  lemma CatchPaid(s: State, w: nat, i: nat, row: Row)
    requires w in s.workers && Rank(s.workers[w]) > 5 && i < |s.rows|
    ensures Paid(s, AfterRow(SetRow(s, i, row), w, i), w)
  {
    assert Rank(Worker(Committing(ForResult, i), None)) == 3;
    hide Rank;
    assert Rank(Worker(Top, None)) == 1;
  }

  lemma SelectPaid(s: State, w: nat)
    requires Enabled(s, SelectorAnswers(w))
    ensures Paid(s, Apply(s, SelectorAnswers(w)), w)
  {
    var i := s.workers[w].place.i;
    assert Rank(s.workers[w]) == 11;
    assert Rank(Worker(Committing(ForUnavailable, i), None)) == 8 && Rank(Worker(Committing(ForRunning, i), None)) == 8;
    hide Rank, AfterRow, Caught;
    match s.plan[i].selection
    case ListFails(code) => CatchPaid(s, w, i, Caught(s.rows[i], code, s.failed, s.aborted));
    case Selected(_) => CatchPaid(s, w, i, Caught(s.rows[i], "", s.failed, s.aborted));
    case Unselected(_) =>
  }

  lemma AnswerPaid(s: State, w: nat)
    requires Enabled(s, DelegateAnswers(w))
    ensures Paid(s, Apply(s, DelegateAnswers(w)), w)
  {
    var i := s.workers[w].place.i;
    var a := s.plan[i].answer;
    assert Rank(s.workers[w]) == 6;
    hide Rank, AfterRow, Caught, Answered;
    CatchPaid(s, w, i, if a.Answer? then Answered(s.rows[i], a) else Caught(s.rows[i], a.code, s.failed, s.aborted));
  }

  lemma ResumePaid(s: State, w: nat)
    requires Enabled(s, Resume(w))
    ensures Paid(s, Apply(s, Resume(w)), w)
  {
    var i := s.workers[w].place.i;
    assert Rank(s.workers[w]) == if s.workers[w].place.why == ForResult then 2 else 7;
    assert Rank(Worker(Delegating(i), None)) == 6 && Rank(Worker(Top, None)) == 1 && Rank(Worker(Done, None)) == 0;
    hide Rank, AfterRow, Caught;
    if s.workers[w].place.why != ForResult {
      CatchPaid(s, w, i, Caught(s.rows[i], "", s.failed, s.aborted));
    }
  }

  lemma ClaimPaid(s: State, w: nat)
    requires Inv(s) && Enabled(s, Claim(w))
    ensures Paid(s, Apply(s, Claim(w)), w)
  {
    assert WorkerOk(s, s.workers[w]);
    hide RowsOk, QueueOk, WorkerOk;
  }

  lemma MoveCounts(s: State, ev: Event)
    requires Inv(s) && Enabled(s, ev) && (ev.Claim? || ev.SelectorAnswers? || ev.DelegateAnswers? || ev.Resume?)
             && Inv(Apply(s, ev))
    ensures Remaining(Apply(s, ev)) < Remaining(s)
  {
    hide RowsOk, QueueOk, WorkerOk, Alone, Apply;
    match ev
    case Claim(w) => ClaimPaid(s, w);
    case SelectorAnswers(w) => SelectPaid(s, w);
    case DelegateAnswers(w) => AnswerPaid(s, w);
    case Resume(w) => ResumePaid(s, w);
    hide Rank;
    assert ev.w == 0 || ev.w == 1;
  }

  /** Every event before the sweep brings the run closer to its end. */
  lemma EachEventCounts(s: State, ev: Event)
    requires Inv(s) && Enabled(s, ev) && !ev.Finish?
    ensures Inv(Apply(s, ev)) && Remaining(Apply(s, ev)) < Remaining(s)
  {
    StepOk(s, ev);
    if ev.SaveBegins? || ev.SaveEnds? {
      CommitCounts(s, ev);
    } else if !ev.Abort? {
      MoveCounts(s, ev);
    }
    hide RowsOk, QueueOk, WorkerOk;
  }

  /** While the run is not over, something can happen, and nothing has to go wrong for it. */
  lemma NeverStuck(s: State)
    requires Inv(s) && !s.finished
    ensures exists ev: Event :: !ev.Abort? && ev != SaveEnds(false) && Enabled(s, ev)
  {
    if s.queue != [] {
      var x := HeadWaits(s);
      assert Enabled(s, SaveBegins) || Enabled(s, SaveEnds(true));
    } else if s.workers[0].place != Done {
      LoopCanMove(s, 0);
    } else if s.workers[1].place != Done {
      LoopCanMove(s, 1);
    } else {
      assert Enabled(s, Finish);
    }
  }

  lemma LoopCanMove(s: State, w: nat)
    requires Inv(s) && !s.finished && s.queue == [] && w in s.workers && s.workers[w].place != Done
    ensures exists ev: Event :: !ev.Abort? && ev != SaveEnds(false) && Enabled(s, ev)
  {
    assert WorkerOk(s, s.workers[w]);
    assert !InQueue(s, w);
    assert Enabled(s, Claim(w)) || Enabled(s, SelectorAnswers(w)) || Enabled(s, DelegateAnswers(w))
           || Enabled(s, Resume(w));
  }

  lemma {:induction false} RunIsBounded(s: State, evs: seq<Event>, t: State)
    requires Good(s) && IsRun(s, evs, t)
    ensures s.finished ==> evs == []
    ensures !s.finished ==> |evs| <= Remaining(s) + 1
    decreases |evs|
  {
    hide Inv, DoneMeansAll, Apply, Remaining;
    if evs == [] {
    } else {
      GoodStep(s, evs[0]);
      FinishEnds(s, evs[0]);
      RunIsBounded(Apply(s, evs[0]), evs[1..], t);
      if !evs[0].Finish? {
        EachEventCounts(s, evs[0]);
      }
    }
  }

  lemma CleanStays(s: State, ev: Event)
    requires Clean(s) && Enabled(s, ev) && !ev.Abort? && ev != SaveEnds(false)
    ensures Clean(Apply(s, ev))
  {
    hide Caught, Answered;
  }

  /** From the start, and from any point where nothing has gone wrong, the run can be brought to its end
      without an abort or a failed save. */
  lemma {:induction false} CanFinish(s: State) returns (evs: seq<Event>, t: State)
    requires Inv(s) && DoneMeansAll(s) && Clean(s) && !s.finished
    ensures IsRun(s, evs, t) && t.finished && Clean(t)
    decreases Remaining(s)
  {
    NeverStuck(s);
    hide Inv, DoneMeansAll, Enabled, Apply, Remaining, Clean;
    var ev: Event :| !ev.Abort? && ev != SaveEnds(false) && Enabled(s, ev);
    CleanStays(s, ev);
    var u := Apply(s, ev);
    if ev.Finish? {
      t := u;
      FinishIsLast(s);
      evs := [ev];
      assert [ev][1..] == [];
      assert IsRun(u, [ev][1..], u);
    } else {
      StepOk(s, ev);
      DoneStep(s, ev);
      EachEventCounts(s, ev);
      var rest;
      rest, t := CanFinish(u);
      evs := [ev] + rest;
      assert evs[1..] == rest;
    }
  }

  lemma FinishIsLast(s: State)
    requires Enabled(s, Finish)
    ensures Apply(s, Finish).finished
  {
  }

  lemma FinishEnds(s: State, ev: Event)
    requires Enabled(s, ev)
    ensures !s.finished && (Apply(s, ev).finished <==> ev.Finish?)
  {
    hide Answered, Caught;
  }

  /** Every run is finite: at most 20 events per task and five more, however the loops, the
      store and an abort interleave. */
  lemma EveryRunEnds(plan: seq<Outlook>, evs: seq<Event>, s: State)
    requires IsRun(Start(plan), evs, s)
    ensures |evs| <= 20 * |plan| + 4
  {
    StartOk(plan);
    RunIsBounded(Start(plan), evs, s);
  }

  /** Such an undisturbed run exists for every batch, so that what is said of them is said of some. */
  lemma SomeRunIsUndisturbed(plan: seq<Outlook>) returns (evs: seq<Event>, s: State)
    ensures IsRun(Start(plan), evs, s) && s.finished && !s.failed && !s.aborted
  {
    StartOk(plan);
    hide Inv, IsRun;
    evs, s := CanFinish(Start(plan));
  }
}
