/**
 The batch runner with a selector and a dispatcher that make up their minds only when they are
 asked, so that evidence may change while the batch runs.  Looking back, every such run is a
 run in which the answers it got had been fixed beforehand.
 */
module BatchAnswers {
  import opened Wrappers
  import opened Batch

  /** What is said to the loop at an event. */
  datatype Said = Nothing | Selects(selection: Selection) | Answers(answer: Answer)

  datatype Step = Step(ev: Event, said: Said)

  /** Exactly the two asking events bring an answer. */
  predicate OpenEnabled(s: State, step: Step) {
    && Enabled(s, step.ev)
    && (match step.ev
        case SelectorAnswers(_) => step.said.Selects?
        case DelegateAnswers(_) => step.said.Answers?
        case _ => step.said == Nothing)
  }

  /** What was said is noted for the task it was said about. */
  function Hear(s: State, step: Step): State
    requires OpenEnabled(s, step)
  {
    match step.ev
    case SelectorAnswers(w) =>
      var i := s.workers[w].place.i;
      s.(plan := s.plan[i := s.plan[i].(selection := step.said.selection)])
    case DelegateAnswers(w) =>
      var i := s.workers[w].place.i;
      s.(plan := s.plan[i := s.plan[i].(answer := step.said.answer)])
    case _ => s
  }

  lemma StillEnabled(s: State, step: Step)
    requires OpenEnabled(s, step)
    ensures Enabled(Hear(s, step), step.ev) && |Hear(s, step).plan| == |s.plan|
  {
  }

  function OpenApply(s: State, step: Step): State
    requires OpenEnabled(s, step)
  {
    StillEnabled(s, step);
    Apply(Hear(s, step), step.ev)
  }

  predicate IsOpenRun(s: State, steps: seq<Step>, t: State)
    decreases |steps|
  {
    if steps == [] then s == t else OpenEnabled(s, steps[0]) && IsOpenRun(OpenApply(s, steps[0]), steps[1..], t)
  }

  function Events(steps: seq<Step>): seq<Event> {
    if steps == [] then [] else [steps[0].ev] + Events(steps[1..])
  }

  // ---------------------------------------------------------------- the invariant does not mind

  lemma HearOk(s: State, step: Step)
    requires Inv(s) && OpenEnabled(s, step)
    ensures Inv(Hear(s, step))
  {
    hide Alone, Announced;
    var t := Hear(s, step);
    if step.ev.SelectorAnswers? || step.ev.DelegateAnswers? {
      var w := step.ev.w;
      var i := Standing(s, w);
      assert Owns(s.workers[w].place, i) && Owned(s, i);
      forall v | v in t.workers ensures WorkerOk(t, t.workers[v]) {
        assert WorkerOk(s, s.workers[v]);
      }
      hide WorkerOk, QueueOk;
      HearRows(s, t, i);
      HearQueue(s, t);
    }
  }

  lemma HearRows(s: State, t: State, i: nat)
    requires Shape(s) && Shape(t) && RowsOk(s) && Owned(s, i) && i < s.next
    requires t == s.(plan := t.plan) && forall j :: 0 <= j < |s.plan| && j != i ==> t.plan[j] == s.plan[j]
    ensures RowsOk(t)
  {
    forall j | 0 <= j < |t.rows| ensures Owned(t, j) <==> Owned(s, j) {
    }
  }

  lemma HearQueue(s: State, t: State)
    requires QueueOk(s) && t == s.(plan := t.plan)
    ensures QueueOk(t)
  {
    forall w | w in t.workers ensures InQueue(t, w) <==> InQueue(s, w) {
    }
  }

  lemma OpenStepOk(s: State, step: Step)
    requires Inv(s) && OpenEnabled(s, step) && !step.ev.Finish?
    ensures Inv(OpenApply(s, step)) && !OpenApply(s, step).finished
  {
    hide Inv, Hear, Apply, Enabled;
    HearOk(s, step);
    StillEnabled(s, step);
    StepOk(Hear(s, step), step.ev);
    FinishEnds(Hear(s, step), step.ev);
  }

  // ---------------------------------------------------------------- an answer is asked for once

  /** The selector will not be asked about this task again. */
  predicate SelectionFixed(s: State, i: nat) {
    i < s.next && forall w :: w in s.workers ==> s.workers[w].place != Selecting(i)
  }

  /** Nor will the task be delegated again. */
  predicate AnswerFixed(s: State, i: nat) {
    i < s.next && forall w :: w in s.workers ==> !(Owns(s.workers[w].place, i) && !IsResult(s.workers[w].place))
  }

  predicate IsResult(p: Place) { p.Committing? && p.why != ForRunning }

  /** Where a loop may go at its own events. */
  predicate GoesTo(s: State, t: State, w: nat) {
    && w in s.workers && w in t.workers && t.workers == s.workers[w := t.workers[w]]
    && s.next <= t.next
    && var a, b := s.workers[w].place, t.workers[w].place;
       && (b.Selecting? ==> b.i == s.next)
       && (b.Delegating? ==> a == Committing(ForRunning, b.i))
       && (b.Committing? && b.why == ForRunning ==> a == Selecting(b.i))
  }

  lemma AfterRowGoes(s: State, w: nat, i: nat, row: Row)
    requires w in s.workers && i < |s.rows|
    ensures GoesTo(s, AfterRow(SetRow(s, i, row), w, i), w)
  {
  }

  lemma SelectGoes(s: State, w: nat)
    requires Enabled(s, SelectorAnswers(w))
    ensures GoesTo(s, Apply(s, SelectorAnswers(w)), w)
            && Apply(s, SelectorAnswers(w)).workers[w].place != s.workers[w].place
  {
    var i := s.workers[w].place.i;
    AfterRowGoes(s, w, i, Caught(s.rows[i], "", s.failed, s.aborted));
    if s.plan[i].selection.ListFails? {
      AfterRowGoes(s, w, i, Caught(s.rows[i], s.plan[i].selection.code, s.failed, s.aborted));
    }
    hide Caught;
  }

  lemma AnswerGoes(s: State, w: nat)
    requires Enabled(s, DelegateAnswers(w))
    ensures GoesTo(s, Apply(s, DelegateAnswers(w)), w)
    ensures var b := Apply(s, DelegateAnswers(w)).workers[w].place;
            b == Top || b == Committing(ForResult, s.workers[w].place.i)
  {
    hide Caught, Answered;
  }

  lemma ResumeGoes(s: State, w: nat)
    requires Enabled(s, Resume(w))
    ensures GoesTo(s, Apply(s, Resume(w)), w)
  {
    hide Caught;
  }

  lemma ClaimGoes(s: State, w: nat)
    requires Enabled(s, Claim(w))
    ensures GoesTo(s, Apply(s, Claim(w)), w)
  {
  }

  lemma FixedMove(s: State, t: State, w: nat, i: nat)
    requires GoesTo(s, t, w)
    ensures SelectionFixed(s, i) ==> SelectionFixed(t, i)
    ensures AnswerFixed(s, i) ==> AnswerFixed(t, i)
  {
  }

  lemma FixedStays(s: State, ev: Event, i: nat)
    requires Enabled(s, ev)
    ensures SelectionFixed(s, i) ==> SelectionFixed(Apply(s, ev), i)
    ensures AnswerFixed(s, i) ==> AnswerFixed(Apply(s, ev), i)
    ensures Apply(s, ev).plan == s.plan
  {
    hide Select, Continue, Catch, Caught, Answered, AfterRow;
    if ev.Claim? {
      ClaimGoes(s, ev.w);
      FixedMove(s, Apply(s, ev), ev.w, i);
    } else if ev.SelectorAnswers? {
      SelectGoes(s, ev.w);
      SelectMoves(s, ev.w);
      FixedMove(s, Apply(s, ev), ev.w, i);
    } else if ev.DelegateAnswers? {
      AnswerGoes(s, ev.w);
      AnswerMoves(s, ev.w);
      FixedMove(s, Apply(s, ev), ev.w, i);
    } else if ev.Resume? {
      ResumeGoes(s, ev.w);
      ResumeMoves(s, ev.w);
      FixedMove(s, Apply(s, ev), ev.w, i);
    }
  }

  /** What has been said about a task is not said again. */
  lemma HeardOnce(s: State, step: Step, i: nat)
    requires OpenEnabled(s, step) && i < |s.plan|
    ensures |OpenApply(s, step).plan| == |s.plan|
    ensures SelectionFixed(s, i) ==>
              SelectionFixed(OpenApply(s, step), i) && OpenApply(s, step).plan[i].selection == s.plan[i].selection
    ensures AnswerFixed(s, i) ==>
              AnswerFixed(OpenApply(s, step), i) && OpenApply(s, step).plan[i].answer == s.plan[i].answer
  {
    StillEnabled(s, step);
    FixedStays(Hear(s, step), step.ev, i);
    hide Apply;
  }

  lemma {:induction false} HeardForGood(s: State, steps: seq<Step>, t: State, i: nat)
    requires IsOpenRun(s, steps, t) && i < |s.plan|
    ensures |t.plan| == |s.plan|
    ensures SelectionFixed(s, i) ==> t.plan[i].selection == s.plan[i].selection
    ensures AnswerFixed(s, i) ==> t.plan[i].answer == s.plan[i].answer
    decreases |steps|
  {
    hide OpenEnabled, OpenApply, SelectionFixed, AnswerFixed;
    if steps == [] {
    } else {
      HeardOnce(s, steps[0], i);
      HeardForGood(OpenApply(s, steps[0]), steps[1..], t, i);
    }
  }

  /** After its answer the task is fixed: no other loop is at it. */
  lemma FixedAfter(s: State, step: Step)
    requires Inv(s) && OpenEnabled(s, step)
    ensures step.ev.SelectorAnswers? ==> SelectionFixed(OpenApply(s, step), s.workers[step.ev.w].place.i)
    ensures step.ev.DelegateAnswers? ==> AnswerFixed(OpenApply(s, step), s.workers[step.ev.w].place.i)
  {
    StillEnabled(s, step);
    if step.ev.SelectorAnswers? || step.ev.DelegateAnswers? {
      var i := Standing(s, step.ev.w);
      hide Inv, WorkerOk;
      var u := Hear(s, step);
      if step.ev.SelectorAnswers? {
        SelectGoes(u, step.ev.w);
      } else {
        AnswerGoes(u, step.ev.w);
      }
      hide Apply;
    }
  }

  // ---------------------------------------------------------------- looking back

  function Under(s: State, plan: seq<Outlook>): State { s.(plan := plan) }

  /** One event is the same under any plan that agrees about what it asks for. */
  lemma ApplyUnder(s: State, ev: Event, plan: seq<Outlook>)
    requires Enabled(s, ev) && |plan| == |s.plan|
    requires ev.SelectorAnswers? ==>
               plan[s.workers[ev.w].place.i].selection == s.plan[s.workers[ev.w].place.i].selection
    requires ev.DelegateAnswers? ==> plan[s.workers[ev.w].place.i].answer == s.plan[s.workers[ev.w].place.i].answer
    ensures Enabled(Under(s, plan), ev) && Apply(Under(s, plan), ev) == Under(Apply(s, ev), plan)
  {
    hide Select, Continue, Caught, Answered, Closed;
    EnabledUnder(s, ev, plan);
    if ev.SelectorAnswers? {
      SelectUnder(s, ev.w, s.workers[ev.w].place.i, plan);
    } else if ev.Resume? {
      ContinueUnder(s, ev.w, s.workers[ev.w].place.why, s.workers[ev.w].place.i, s.workers[ev.w].outcome.value, plan);
    }
  }

  lemma EnabledUnder(s: State, ev: Event, plan: seq<Outlook>)
    requires Enabled(s, ev) && |plan| == |s.plan|
    ensures Enabled(Under(s, plan), ev)
  {
  }

  lemma SelectUnder(s: State, w: nat, i: nat, plan: seq<Outlook>)
    requires i < |s.rows| == |s.plan| == |plan| && plan[i].selection == s.plan[i].selection
    ensures Select(Under(s, plan), w, i) == Under(Select(s, w, i), plan)
  {
    hide Caught;
  }

  lemma ContinueUnder(s: State, w: nat, why: Commit, i: nat, ok: bool, plan: seq<Outlook>)
    requires i < |s.rows|
    ensures Continue(Under(s, plan), w, why, i, ok) == Under(Continue(s, w, why, i, ok), plan)
  {
    hide Caught;
  }

  lemma SameUnder(s: State, step: Step, plan: seq<Outlook>)
    requires OpenEnabled(s, step) && |plan| == |s.plan|
    requires step.ev.SelectorAnswers? ==> plan[s.workers[step.ev.w].place.i].selection == step.said.selection
    requires step.ev.DelegateAnswers? ==> plan[s.workers[step.ev.w].place.i].answer == step.said.answer
    ensures Enabled(Under(s, plan), step.ev)
    ensures Apply(Under(s, plan), step.ev) == Under(OpenApply(s, step), plan)
  {
    hide Apply;
    StillEnabled(s, step);
    ApplyUnder(Hear(s, step), step.ev, plan);
    assert Under(Hear(s, step), plan) == Under(s, plan);
  }

  lemma {:induction false} LookingBack(s: State, steps: seq<Step>, t: State)
    requires Inv(s) && !s.finished && IsOpenRun(s, steps, t)
    ensures |t.plan| == |s.plan| && IsRun(Under(s, t.plan), Events(steps), t)
    decreases |steps|
  {
    hide Inv, OpenEnabled, OpenApply, Enabled, Apply, SelectionFixed, AnswerFixed;
    if steps == [] {
    } else {
      var step := steps[0];
      var u := OpenApply(s, step);
      HeardAt(s, step, steps[1..], t);
      SameUnder(s, step, t.plan);
      if step.ev.Finish? {
        FinishedRun(s, step, steps[1..], t);
      } else {
        OpenStepOk(s, step);
        LookingBack(u, steps[1..], t);
      }
      assert Events(steps)[1..] == Events(steps[1..]);
    }
  }

  /** What is said at the first step is what is noted in the end. */
  lemma HeardAt(s: State, step: Step, rest: seq<Step>, t: State)
    requires Inv(s) && OpenEnabled(s, step) && IsOpenRun(OpenApply(s, step), rest, t)
    ensures |t.plan| == |s.plan|
    ensures step.ev.SelectorAnswers? ==>
              step.said.Selects? && t.plan[s.workers[step.ev.w].place.i].selection == step.said.selection
    ensures step.ev.DelegateAnswers? ==>
              step.said.Answers? && t.plan[s.workers[step.ev.w].place.i].answer == step.said.answer
  {
    hide Inv, SelectionFixed, AnswerFixed, IsOpenRun;
    StillEnabled(s, step);
    PlanAfter(s, step);
    FixedAfter(s, step);
    if step.ev.SelectorAnswers? || step.ev.DelegateAnswers? {
      HeardForGood(OpenApply(s, step), rest, t, s.workers[step.ev.w].place.i);
    } else {
      SameLength(OpenApply(s, step), rest, t);
    }
  }

  lemma PlanAfter(s: State, step: Step)
    requires OpenEnabled(s, step)
    ensures OpenApply(s, step).plan == Hear(s, step).plan && |Hear(s, step).plan| == |s.plan|
  {
    StillEnabled(s, step);
    FixedStays(Hear(s, step), step.ev, 0);
  }

  lemma {:induction false} SameLength(s: State, steps: seq<Step>, t: State)
    requires IsOpenRun(s, steps, t)
    ensures |t.plan| == |s.plan|
    decreases |steps|
  {
    hide OpenEnabled, OpenApply;
    if steps == [] {
    } else {
      PlanAfter(s, steps[0]);
      SameLength(OpenApply(s, steps[0]), steps[1..], t);
    }
  }

  /** Nothing happens after the final sweep. */
  lemma FinishedRun(s: State, step: Step, rest: seq<Step>, t: State)
    requires OpenEnabled(s, step) && step.ev.Finish? && IsOpenRun(OpenApply(s, step), rest, t)
    ensures rest == [] && t == OpenApply(s, step)
  {
  }

  /** Hindsight: whatever the selector and the dispatcher said when they were asked, and however
      that depended on time, the run is one of the runner whose answers had been exactly those.
      So all that holds of every run with given answers holds of it. */
  lemma Hindsight(blank: seq<Outlook>, steps: seq<Step>, t: State)
    requires IsOpenRun(Start(blank), steps, t)
    ensures |t.plan| == |blank| && IsRun(Start(t.plan), Events(steps), t)
  {
    StartOk(blank);
    LookingBack(Start(blank), steps, t);
    SameStart(blank, t.plan);
  }

  lemma SameStart(a: seq<Outlook>, b: seq<Outlook>)
    requires |a| == |b|
    ensures Under(Start(a), b) == Start(b)
  {
    assert Start(a).rows == Start(b).rows;
  }

  /** Confluence with answers given on the way: of two undisturbed runs, however their loops
      interleave, in which each task got the same answers, both end with the same table. */
  lemma SameAnswersSameTable(blank: seq<Outlook>, steps: seq<Step>, s: State, other: seq<Outlook>, more: seq<Step>,
      t: State)
    requires IsOpenRun(Start(blank), steps, s) && s.finished && !s.aborted && !s.failed
    requires IsOpenRun(Start(other), more, t) && t.finished && !t.aborted && !t.failed
    requires s.plan == t.plan
    ensures s.rows == t.rows == seq(|s.plan|, i requires 0 <= i < |s.plan| => Alone(s.plan[i]))
  {
    hide IsRun, IsOpenRun, Alone;
    Hindsight(blank, steps, s);
    Hindsight(other, more, t);
    Confluence(s.plan, Events(steps), s);
    Confluence(t.plan, Events(more), t);
  }
}
