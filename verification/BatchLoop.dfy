/**
 One of the two loops of the batch runner (batch.mjs) as code.  The cursor, the rows, the chain
 of commits, the store and the other loop are the field `world`; each stretch between two waits
 performs one event of the runner's state machine, and at each wait the others may go first.
 Every method only appends events to the history: what it does to the world is a run of the
 machine from the world it found.
 */
module BatchLoop {
  import opened Wrappers
  import opened Batch

  // ---------------------------------------------------------------- runs of the machine

  lemma {:induction false} RunAppend(s: State, evs: seq<Event>, t: State, ev: Event)
    requires IsRun(s, evs, t) && Enabled(t, ev)
    ensures IsRun(s, evs + [ev], Apply(t, ev))
    decreases |evs|
  {
    hide Enabled, Apply;
    if evs == [] {
      assert [ev][1..] == [];
      assert IsRun(Apply(s, ev), [ev][1..], Apply(t, ev));
    } else {
      RunAppend(Apply(s, evs[0]), evs[1..], t, ev);
      assert (evs + [ev])[1..] == evs[1..] + [ev];
    }
  }

  /** The history `after` goes on from `before`, and its new events lead from `s` to `t`. */
  predicate Extends(s: State, before: seq<Event>, t: State, after: seq<Event>) {
    before <= after && IsRun(s, after[|before|..], t)
  }

  lemma {:induction false} RunJoin(s: State, evs: seq<Event>, t: State, more: seq<Event>, u: State)
    requires IsRun(s, evs, t) && IsRun(t, more, u)
    ensures IsRun(s, evs + more, u)
    decreases |evs|
  {
    hide Enabled, Apply;
    if evs == [] {
      assert evs + more == more;
    } else {
      RunJoin(Apply(s, evs[0]), evs[1..], t, more, u);
      assert (evs + more)[1..] == evs[1..] + more;
    }
  }

  lemma ExtendsOne(s: State, evs: seq<Event>, ev: Event)
    requires Enabled(s, ev)
    ensures Extends(s, evs, Apply(s, ev), evs + [ev])
  {
    hide Enabled, Apply;
    assert (evs + [ev])[|evs|..] == [ev];
    assert [ev][1..] == [];
    assert IsRun(Apply(s, ev), [ev][1..], Apply(s, ev));
  }

  lemma ExtendsTransitive(s: State, a: seq<Event>, t: State, b: seq<Event>, u: State, c: seq<Event>)
    requires Extends(s, a, t, b) && Extends(t, b, u, c)
    ensures Extends(s, a, u, c)
  {
    hide IsRun;
    RunJoin(s, b[|a|..], t, c[|b|..], u);
    assert c[|a|..] == b[|a|..] + c[|b|..];
  }

  /** From here on, whatever extends an extension of this history extends it. */
  lemma Onward(s: State, a: seq<Event>)
    ensures Extends(s, a, s, a)
    ensures forall t, b, u, c :: Extends(s, a, t, b) && Extends(t, b, u, c) ==> Extends(s, a, u, c)
  {
    assert a[|a|..] == [];
    hide Extends;
    forall t, b, u, c | Extends(s, a, t, b) && Extends(t, b, u, c) ensures Extends(s, a, u, c) {
      ExtendsTransitive(s, a, t, b, u, c);
    }
  }

  predicate ByOther(ev: Event, w: nat) {
    match ev
    case Claim(v) => v != w
    case SelectorAnswers(v) => v != w
    case DelegateAnswers(v) => v != w
    case Resume(v) => v != w
    case Finish => false
    case _ => true
  }

  /** The others never move this loop; at most they tell it how its commit went. */
  predicate Stays(s: State, t: State, w: nat) {
    w in s.workers && w in t.workers && t.workers[w].place == s.workers[w].place
    && (t.workers[w].outcome == s.workers[w].outcome || s.workers[w].place.Committing?)
  }

  lemma OthersStay(s: State, ev: Event, w: nat)
    requires Inv(s) && Enabled(s, ev) && ByOther(ev, w) && w in s.workers
    ensures Stays(s, Apply(s, ev), w) && !Apply(s, ev).finished
  {
    if ev.SaveBegins? || ev.SaveEnds? {
      hide Inv, Alone;
      var x := HeadWaits(s);
    } else if ev.Claim? || ev.Abort? {
      hide Inv;
    } else {
      hide Inv, Select, Continue, AfterRow, Catch, Answered, Caught, Alone;
      if ev.SelectorAnswers? {
        SelectPaid(s, ev.w);
      } else if ev.DelegateAnswers? {
        AnswerPaid(s, ev.w);
      } else {
        ResumePaid(s, ev.w);
      }
      FinishEnds(s, ev);
      hide Apply;
    }
  }

  lemma Reachable(plan: seq<Outlook>, evs: seq<Event>, s: State)
    requires IsRun(Start(plan), evs, s)
    ensures Good(s) && s.plan == plan && (!s.finished ==> Inv(s))
  {
    hide IsRun, Inv;
    StartOk(plan);
    RunOk(Start(plan), evs, s);
  }

  // ---------------------------------------------------------------- the loop

  class Loop {
    const w: nat
    const plan: seq<Outlook>
    var world: State
    ghost var events: seq<Event>

    constructor (w: nat, plan: seq<Outlook>, world: State, ghost events: seq<Event>)
      requires IsRun(Start(plan), events, world) && w in world.workers && world.workers[w] == Worker(Top, None)
               && !world.finished
      ensures At(Top) && this.w == w && this.plan == plan && this.world == world && this.events == events
    {
      this.w, this.plan, this.world := w, plan, world;
      this.events := events;
      Reachable(plan, events, world);
      SameLoops(world, plan);
      hide IsRun, Inv;
    }

    /** The world is what some run of the whole runner leads to. */
    ghost predicate Reached()
      reads `world, `events
    {
      && IsRun(Start(plan), events, world) && !world.finished && Inv(world) && Shape(world) && QueueOk(world)
      && world.plan == plan && w in world.workers
    }

    ghost predicate At(place: Place)
      reads `world, `events
    {
      Reached() && world.workers[w] == Worker(place, None)
    }

    method Step(ev: Event)
      requires Reached() && Enabled(world, ev) && !ev.Finish?
      modifies `world, `events
      ensures Reached() && world == Apply(old(world), ev) && Remaining(world) < Remaining(old(world))
      ensures Extends(old(world), old(events), world, events)
    {
      hide Enabled, Apply, Inv, Remaining, Extends;
      ExtendsOne(world, events, ev);
      RunAppend(Start(plan), events, world, ev);
      EachEventCounts(world, ev);
      FinishEnds(world, ev);
      world, events := Apply(world, ev), events + [ev];
      Reachable(plan, events, world);
      SameLoops(world, plan);
    }

    /** A wait: the other loop, the store and an abort take any number of steps. */
    method Others()
      requires Reached()
      modifies `world, `events
      ensures Reached() && Stays(old(world), world, w) && Remaining(world) <= Remaining(old(world))
      ensures Extends(old(world), old(events), world, events)
    {
      hide Enabled, Apply, Inv, Remaining, Extends;
      Onward(world, events);
      var n: int := *;
      while n > 0
        invariant Reached() && Stays(old(world), world, w) && Remaining(world) <= Remaining(old(world))
        invariant Extends(old(world), old(events), world, events)
      {
        var ev: Event := *;
        if ByOther(ev, w) && Enabled(world, ev) {
          OthersStay(world, ev, w);
          Step(ev);
        }
        n := n - 1;
      }
    }

    /** `commit()`: the loop waits until the operations before it in the chain, and then its own,
        have been tried.  The wait always ends. */
    method AwaitCommit(why: Commit, i: nat) returns (ok: bool)
      requires At(Committing(why, i)) && i < |plan|
      modifies `world, `events
      ensures Reached() && world.workers[w] == Worker(Committing(why, i), Some(ok)) && (!ok ==> world.failed)
      ensures Remaining(world) <= Remaining(old(world)) && Extends(old(world), old(events), world, events)
    {
      hide Apply, Inv, Remaining, Extends, IsRun;
      Onward(world, events);
      while world.workers[w].outcome == None
        invariant Reached() && world.workers[w].place == Committing(why, i) && Remaining(world) <= Remaining(old(world))
        invariant Extends(old(world), old(events), world, events)
        decreases Remaining(world), if world.workers[w].outcome == None then 1 else 0
      {
        Others();
        if world.workers[w].outcome == None {
          ChainMoves(world, w);
          var ev := SaveBegins;
          if world.writing.Some? {
            var works := *;
            ev := SaveEnds(works);
          }
          if world.queue[0] == w { TellsOwn(world, ev, w); } else { OthersStay(world, ev, w); }
          KeepsPlace(world, ev, w);
          Step(ev);
        }
      }
      ok := world.workers[w].outcome.value;
      if !ok { TruthfullyTold(world, w); }
    }

    /** The row is finished with: it is committed unless persistence has failed.  A failed
        commit ends the loop. */
    method CommitRow(i: nat) returns (stays: bool)
      requires At(Top) || At(Committing(ForResult, i))
      requires i < |plan|
      modifies `world, `events
      ensures if stays then At(Top) else At(Done) && world.failed
      ensures Remaining(world) <= Remaining(old(world)) && Extends(old(world), old(events), world, events)
    {
      hide Inv, Remaining, Apply, Extends, IsRun;
      Onward(world, events);
      if world.workers[w].place == Top { return true; }
      var ok := AwaitCommit(ForResult, i);
      AfterResume(world, w);
      Step(Resume(w));
      return ok;
    }

    /** One task: select a route, mark the task as running, delegate, and record the answer;
        whatever is thrown on the way ends in the row. */
    method TryTask(i: nat) returns (stays: bool)
      requires At(Selecting(i)) && i < |plan|
      modifies `world, `events
      ensures if stays then At(Top) else At(Done) && world.failed
      ensures Remaining(world) < Remaining(old(world)) && Extends(old(world), old(events), world, events)
    {
      hide Inv, Remaining, Apply, Extends, IsRun;
      Onward(world, events);
      Others();
      var selection := plan[i].selection;
      var aborted := world.aborted;
      AfterSelect(world, w);
      Step(SelectorAnswers(w));
      if selection.Unselected? {
        var ok := AwaitCommit(ForUnavailable, i);
        AfterResume(world, w);
        Step(Resume(w));
        if ok { return true; }
        stays := CommitRow(i);
        return;
      }
      if selection.ListFails? || aborted {
        stays := CommitRow(i);
        return;
      }
      var ok := AwaitCommit(ForRunning, i);
      aborted := world.aborted;
      AfterResume(world, w);
      Step(Resume(w));
      if ok && !aborted {
        Others();
        AfterAnswer(world, w);
        Step(DelegateAnswers(w));
      }
      stays := CommitRow(i);
    }

    /** The loop: tasks are claimed from the shared cursor until there are none left, or the
        batch was aborted, or persistence failed; it ends for no other reason. */
    method Work()
      requires At(Top)
      modifies `world, `events
      ensures At(Done) && (world.next == |plan| || world.aborted || world.failed)
      ensures Extends(old(world), old(events), world, events)
    {
      hide Inv, Remaining, Apply, Extends, IsRun;
      Onward(world, events);
      while world.next < |plan| && !world.aborted && !world.failed
        invariant At(Top) && Extends(old(world), old(events), world, events)
        decreases Remaining(world)
      {
        var index := world.next;
        AfterClaim(world, w);
        Step(Claim(w));
        var stays := TryTask(index);
        if !stays { return; }
      }
      AfterClaim(world, w);
      Step(Claim(w));
    }
  }

  /** Where a loop goes after a row: back to its top once persistence has failed. */
  function RowPlace(s: State, i: nat): Place { if s.failed then Top else Committing(ForResult, i) }

  lemma AfterClaim(s: State, w: nat)
    requires !s.finished && w in s.workers && s.workers[w].place == Top
    ensures Enabled(s, Claim(w))
    ensures Apply(s, Claim(w)).workers[w] ==
              Worker(if s.next < |s.plan| && !s.aborted && !s.failed then Selecting(s.next) else Done, None)
    ensures var t := Apply(s, Claim(w)); !(s.next < |s.plan|) ==> t.next == s.next
    ensures var t := Apply(s, Claim(w)); t.aborted == s.aborted && t.failed == s.failed
  {
  }

  lemma AfterSelect(s: State, w: nat)
    requires Shape(s) && !s.finished && w in s.workers && s.workers[w].place.Selecting?
             && s.workers[w].place.i < |s.plan|
    ensures Enabled(s, SelectorAnswers(w))
    ensures var i := s.workers[w].place.i;
            var selection := s.plan[i].selection;
            Apply(s, SelectorAnswers(w)).workers[w] ==
              Worker(if selection.Unselected? then Committing(ForUnavailable, i)
                     else if selection.ListFails? || s.aborted then RowPlace(s, i)
                     else Committing(ForRunning, i), None)
  {
    hide Caught;
  }

  lemma AfterAnswer(s: State, w: nat)
    requires Shape(s) && !s.finished && w in s.workers && s.workers[w].place.Delegating?
             && s.workers[w].place.i < |s.plan|
    ensures Enabled(s, DelegateAnswers(w))
    ensures Apply(s, DelegateAnswers(w)).workers[w] == Worker(RowPlace(s, s.workers[w].place.i), None)
  {
    hide Caught, Answered;
  }

  lemma AfterResume(s: State, w: nat)
    requires Shape(s) && !s.finished && w in s.workers && s.workers[w].place.Committing?
             && s.workers[w].place.i < |s.plan|
    requires s.workers[w].outcome.Some?
    ensures Enabled(s, Resume(w))
    ensures var i, why, ok := s.workers[w].place.i, s.workers[w].place.why, s.workers[w].outcome.value;
            Apply(s, Resume(w)).workers[w] ==
              Worker(match why
                     case ForResult => if ok then Top else Done
                     case ForUnavailable => if ok then Top else RowPlace(s, i)
                     case ForRunning => if ok && !s.aborted then Delegating(i) else RowPlace(s, i), None)
    ensures Apply(s, Resume(w)).failed == s.failed
  {
    hide Caught;
  }

  /** A loop that waits for its commit is in the chain, and the chain can move. */
  lemma ChainMoves(s: State, w: nat)
    requires Inv(s) && !s.finished && w in s.workers && s.workers[w].place.Committing? && s.workers[w].outcome == None
    ensures s.queue != [] && s.queue[0] in s.workers
    ensures s.writing == None ==> Enabled(s, SaveBegins)
    ensures s.writing.Some? ==> forall ok :: Enabled(s, SaveEnds(ok))
  {
    assert InQueue(s, w);
    assert s.queue != [];
    assert s.queue[0] in s.workers;
    hide RowsOk, WorkerOk;
  }

  lemma TellsOwn(s: State, ev: Event, w: nat)
    requires Inv(s) && Enabled(s, ev) && (ev.SaveBegins? || ev.SaveEnds?) && w in s.workers && s.queue[0] == w
    ensures Stays(s, Apply(s, ev), w) && !Apply(s, ev).finished
  {
    var x := HeadWaits(s);
    hide Inv;
  }

  lemma KeepsPlace(s: State, ev: Event, w: nat)
    requires Enabled(s, ev) && Stays(s, Apply(s, ev), w)
    ensures Apply(s, ev).workers[w].place == s.workers[w].place
  {
    hide Apply;
  }

  lemma TruthfullyTold(s: State, w: nat)
    requires Inv(s) && w in s.workers && s.workers[w].outcome == Some(false)
    ensures s.failed
  {
    assert WorkerOk(s, s.workers[w]);
    hide RowsOk, QueueOk;
  }

  lemma SameLoops(s: State, plan: seq<Outlook>)
    requires Inv(s)
    ensures s.workers.Keys == {0, 1} && Shape(s) && QueueOk(s)
  {
  }
}
