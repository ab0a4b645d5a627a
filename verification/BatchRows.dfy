/**
 How every row of a batch ends, whatever goes wrong: with what its own answers amount to, or
 stopped for a reason that is named and true.
 */
module BatchRows {
  import opened Wrappers
  import opened Batch

  // ---------------------------------------------------------------- rows

  /** A row that something else than its own answers has ended: it keeps the route if one had been
      selected, and shows neither an assignment nor a result. */
  predicate Stopped(o: Outlook, row: Row, failed: bool, aborted: bool) {
    && !row.created && row.result == None
    && ((row.route == None && row.rounds == Some(0))
          || (o.selection.Selected? && row.route == Some(o.selection.route) && row.rounds == None))
    && ((failed && row.state == RefusedOrFailed && row.reason == Some("PERSISTENCE_FAILED"))
          || (aborted && row.state == CancelledOrUnknown && row.reason == Some("ABORTED_OR_DEADLINE")))
  }

  /** A row is waiting, running, at the end that its own answers amount to, or stopped. */
  predicate Explained(o: Outlook, row: Row, failed: bool, aborted: bool) {
    || row == QUEUED_ROW || (o.selection.Selected? && row == RunningRow(o.selection.route))
    || row == Alone(o) || Stopped(o, row, failed, aborted)
  }

  predicate RowsExplained(s: State) {
    && |s.rows| == |s.plan|
    && (forall i :: 0 <= i < |s.rows| ==> Explained(s.plan[i], s.rows[i], s.failed, s.aborted))
    && (forall w :: w in s.workers ==> UnselectedAt(s, s.workers[w].place))
  }

  predicate UnselectedAt(s: State, p: Place) {
    p.Committing? && p.why == ForUnavailable ==>
      && p.i < |s.plan| == |s.rows| && s.plan[p.i].selection.Unselected?
      && (s.rows[p.i] == Alone(s.plan[p.i]) || Stopped(s.plan[p.i], s.rows[p.i], s.failed, s.aborted))
  }

  /** Trouble and one changed row: everything else stays explained. */
  lemma OneRow(s: State, t: State, w: nat, i: nat)
    requires RowsExplained(s) && t.plan == s.plan && i < |s.rows| == |t.rows| && t.rows == s.rows[i := t.rows[i]]
    requires t.failed == s.failed && t.aborted == s.aborted
    requires Explained(s.plan[i], t.rows[i], t.failed, t.aborted)
    requires w in s.workers && w in t.workers && t.workers == s.workers[w := t.workers[w]]
    requires UnselectedAt(t, t.workers[w].place)
    requires forall v :: v in s.workers && v != w ==> !Owns(s.workers[v].place, i)
    ensures RowsExplained(t)
  {
    hide Explained, Alone, Stopped;
  }

  /** A caught row is what its answers amount to while nothing is wrong, and stopped otherwise. */
  lemma CaughtIsStopped(o: Outlook, row: Row, code: string, failed: bool, aborted: bool)
    requires !row.created && row.result == None
    requires || (row.route == None && row.rounds == Some(0))
             || (o.selection.Selected? && row.route == Some(o.selection.route) && row.rounds == None)
    requires failed || aborted || Caught(row, code, false, false) == Alone(o)
    ensures var c := Caught(row, code, failed, aborted); c == Alone(o) || Stopped(o, c, failed, aborted)
  {
    hide Alone, KnownFailure;
  }

  lemma CatchEffect(s: State, w: nat, i: nat, code: string)
    requires i < |s.rows| && w in s.workers
    ensures var t := Catch(s, w, i, code);
            && t.plan == s.plan && t.failed == s.failed && t.aborted == s.aborted
            && t.rows == s.rows[i := Caught(s.rows[i], code, s.failed, s.aborted)]
            && w in t.workers && t.workers == s.workers[w := t.workers[w]]
            && (t.workers[w].place == Top || t.workers[w].place == Committing(ForResult, i))
  {
    hide Caught;
  }

  lemma CatchExplained(s: State, w: nat, i: nat, code: string)
    requires RowsExplained(s) && w in s.workers && i < |s.rows| == |s.plan|
    requires forall v :: v in s.workers && v != w ==> !Owns(s.workers[v].place, i)
    requires var c := Caught(s.rows[i], code, s.failed, s.aborted);
             c == Alone(s.plan[i]) || Stopped(s.plan[i], c, s.failed, s.aborted)
    ensures RowsExplained(Catch(s, w, i, code))
  {
    CatchEffect(s, w, i, code);
    hide RowsExplained, Caught, Alone, Stopped, Catch, Owns;
    OneRow(s, Catch(s, w, i, code), w, i);
  }

  /** What is known of the row that a loop is about to change. */
  lemma RowOfLoop(s: State, w: nat) returns (i: nat)
    requires Inv(s) && w in s.workers && Busy(s.workers[w].place)
    ensures i == IndexOf(s.workers[w].place) && i < |s.rows| == |s.plan|
    ensures RowAt(s.plan[i], s.rows[i], s.workers[w].place, Clean(s))
    ensures s.workers[w].outcome == Some(false) ==> s.failed && s.aborted
    ensures forall v :: v in s.workers && v != w ==> !Owns(s.workers[v].place, i)
  {
    i := Standing(s, w);
    hide RowsOk, QueueOk, Announced, RowAt;
    assert WorkerOk(s, s.workers[w]);
  }

  lemma SelectExplained(s: State, w: nat)
    requires Inv(s) && RowsExplained(s) && Enabled(s, SelectorAnswers(w))
    ensures RowsExplained(Apply(s, SelectorAnswers(w)))
  {
    var i := RowOfLoop(s, w);
    var t := Apply(s, SelectorAnswers(w));
    hide Inv, RowsExplained, Answered, KnownFailure, Catch, Caught, Stopped, Owns;
    match s.plan[i].selection
    case ListFails(code) =>
      AloneAtOnce(s.plan[i]);
      CaughtIsStopped(s.plan[i], s.rows[i], code, s.failed, s.aborted);
      CatchExplained(s, w, i, code);
    case Unselected(_) => OneRow(s, t, w, i);
    case Selected(_) =>
      if s.aborted {
        CaughtIsStopped(s.plan[i], s.rows[i], "", s.failed, s.aborted);
        CatchExplained(s, w, i, "");
      } else {
        OneRow(s, t, w, i);
      }
  }

  lemma AloneAtOnce(o: Outlook)
    ensures o.selection.ListFails? ==> Alone(o) == Caught(QUEUED_ROW, o.selection.code, false, false)
  {
    hide Caught;
  }

  lemma AnswerExplained(s: State, w: nat)
    requires Inv(s) && RowsExplained(s) && Enabled(s, DelegateAnswers(w))
    ensures RowsExplained(Apply(s, DelegateAnswers(w)))
  {
    var i := RowOfLoop(s, w);
    var t := Apply(s, DelegateAnswers(w));
    AloneAnswered(s.plan[i]);
    hide Inv, RowsExplained, Answered, KnownFailure, Catch, Caught, Stopped, Owns, Alone;
    if s.plan[i].answer.Answer? {
      OneRow(s, t, w, i);
    } else {
      CaughtIsStopped(s.plan[i], s.rows[i], s.plan[i].answer.code, s.failed, s.aborted);
      CatchExplained(s, w, i, s.plan[i].answer.code);
    }
  }

  lemma AloneUnselected(o: Outlook)
    requires o.selection.Unselected?
    ensures !Alone(o).created && Alone(o).result == None && Alone(o).route == None && Alone(o).rounds == Some(0)
  {
  }

  lemma ResumeExplained(s: State, w: nat)
    requires Inv(s) && RowsExplained(s) && Enabled(s, Resume(w))
    ensures RowsExplained(Apply(s, Resume(w)))
  {
    var i := RowOfLoop(s, w);
    var t := Apply(s, Resume(w));
    var why, ok := s.workers[w].place.why, s.workers[w].outcome.value;
    assert UnselectedAt(s, s.workers[w].place);
    hide Inv, Answered, KnownFailure, Catch, Caught, Alone, Owns, Explained;
    if why == ForUnavailable && !ok {
      AloneUnselected(s.plan[i]);
      CaughtIsStopped(s.plan[i], s.rows[i], "", s.failed, s.aborted);
      hide RowsExplained, Stopped;
      CatchExplained(s, w, i, "");
    } else if why == ForRunning && !(ok && !s.aborted) {
      CaughtIsStopped(s.plan[i], s.rows[i], "", s.failed, s.aborted);
      hide RowsExplained, Stopped;
      CatchExplained(s, w, i, "");
    } else {
      hide Stopped;
      assert t.rows == s.rows[i := s.rows[i]];
      OneRow(s, t, w, i);
    }
  }

  /** Events that move no row: trouble only adds to what may explain one. */
  lemma QuietExplained(s: State, ev: Event)
    requires RowsExplained(s) && Enabled(s, ev) && (ev.Claim? || ev.SaveBegins? || ev.SaveEnds? || ev.Abort?)
    ensures RowsExplained(Apply(s, ev))
  {
    hide Alone;
  }

  lemma RowsStep(s: State, ev: Event)
    requires Inv(s) && RowsExplained(s) && Enabled(s, ev) && !ev.Finish?
    ensures RowsExplained(Apply(s, ev))
  {
    hide Inv, RowsExplained, Apply;
    match ev
    case SelectorAnswers(w) => SelectExplained(s, w);
    case DelegateAnswers(w) => AnswerExplained(s, w);
    case Resume(w) => ResumeExplained(s, w);
    case _ => QuietExplained(s, ev);
  }

  // ---------------------------------------------------------------- whole runs

  /** How a row of a batch that is over ends. */
  predicate EndsExplained(o: Outlook, row: Row, failed: bool, aborted: bool) {
    || row == Alone(o) || Stopped(o, row, failed, aborted)
    || (aborted && row == QUEUED_ROW.(state := NotStarted, reason := Some("BATCH_STOPPED")))
  }

  lemma SweptExplained(s: State)
    requires Good(s) && RowsExplained(s) && Enabled(s, Finish)
    ensures var t := Apply(s, Finish);
            t.finished && |t.rows| == |t.plan| && forall i :: 0 <= i < |t.rows| ==>
              EndsExplained(t.plan[i], t.rows[i], t.failed, t.aborted)
  {
    var t := Apply(s, Finish);
    FinishOk(s);
    hide WorkerOk, QueueOk, Alone, Stopped;
    forall i | 0 <= i < |t.rows| ensures EndsExplained(t.plan[i], t.rows[i], t.failed, t.aborted) {
      assert Explained(s.plan[i], s.rows[i], s.failed, s.aborted);
      RowAtTheEnd(s, i);
    }
  }

  /** When both loops are done, a row still waiting was never claimed, and none is running. */
  lemma RowAtTheEnd(s: State, i: nat)
    requires Good(s) && !s.finished && Enabled(s, Finish) && i < |s.rows|
    ensures |s.rows| == |s.plan| && (IsTerminal(s.rows[i].state) || (s.rows[i] == QUEUED_ROW && s.aborted))
  {
    hide QueueOk, Alone, WorkerOk;
    assert s.workers[0].place == Done && s.workers[1].place == Done;
    assert !Owned(s, i);
  }

  lemma {:induction false} RowsOfRun(s: State, evs: seq<Event>, t: State)
    requires Good(s) && !s.finished && RowsExplained(s) && IsRun(s, evs, t)
    ensures if t.finished then
              |t.rows| == |t.plan| && forall i :: 0 <= i < |t.rows| ==>
                EndsExplained(t.plan[i], t.rows[i], t.failed, t.aborted)
            else RowsExplained(t)
    decreases |evs|
  {
    hide Inv, DoneMeansAll, Enabled, Apply, EndsExplained, RowsExplained;
    if evs == [] {
    } else if evs[0].Finish? {
      SweptExplained(s);
      NothingAfter(Apply(s, evs[0]), evs[1..], t, s);
    } else {
      GoodStep(s, evs[0]);
      RowsStep(s, evs[0]);
      StillRunning(s, evs[0]);
      RowsOfRun(Apply(s, evs[0]), evs[1..], t);
    }
  }

  lemma NothingAfter(u: State, evs: seq<Event>, t: State, s: State)
    requires Enabled(s, Finish) && u == Apply(s, Finish) && IsRun(u, evs, t)
    ensures t == u
  {
  }

  lemma StillRunning(s: State, ev: Event)
    requires Inv(s) && DoneMeansAll(s) && Enabled(s, ev) && !ev.Finish?
    ensures !Apply(s, ev).finished
  {
    hide Inv, DoneMeansAll, Apply;
    StepOk(s, ev);
    DoneStep(s, ev);
  }

  /** Whatever the order of events, aborts and failed saves, in a batch that is over every row is what
      its own answers amount to; or stopped because a save had failed, or because of an abort, with no
      assignment to show; or never started, which takes an abort or a failed save too. */
  lemma EveryRowIsExplained(plan: seq<Outlook>, evs: seq<Event>, s: State)
    requires IsRun(Start(plan), evs, s) && s.finished
    ensures |s.rows| == |plan|
    ensures forall i :: 0 <= i < |plan| ==> EndsExplained(plan[i], s.rows[i], s.failed, s.aborted)
  {
    StartOk(plan);
    hide Inv, Enabled, Apply, EndsExplained;
    RowsOfRun(Start(plan), evs, s);
    RunOk(Start(plan), evs, s);
  }
}
