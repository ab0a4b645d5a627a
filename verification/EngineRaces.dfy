/**
 Two engines that hold the same stored task: the first save wins, and the journal refuses the
 other one's record although nothing is wrong with it.
 */
module EngineRaces {
  import opened Wrappers
  import opened Text
  import opened Journal
  import opened Engine
  import opened EngineSystem
  import opened EngineSafety
  import opened EngineGuarantees
  import L = EngineLimits

  /** A directory that holds one planned task. */
  function Planned1(owner: string, task: string): seq<Cell> { [Full(L.Revision(owner, task, 0))] }

  lemma PlannedIsSound(owner: string, task: string)
    ensures Sound(Planned1(owner, task), owner, task)
  {
    hide Accepts, MayFollow, L.Revision;
    var h := Records(Planned1(owner, task));
    L.RevisionIsAccepted(owner, task, 0);
    L.FirstIsPlanned(owner, task);
    assert AcceptedAt(h, owner, task, 0);
  }

  lemma PlannedHasRoom(owner: string, task: string)
    ensures var r := L.Revision(owner, task, 0);
            RoomToRun(r) && RequestOk(r.request) && IsSafe(r.status) && r.revision == 1 && r.rounds == []
  {
    L.RequestIsOk();
    hide Units;
    assert [Units("x")][..0] == [];
    assert WireChars([Units("x")]) == 1;
  }

  /** What a commit leaves in its engine while the limit of revisions is far. */
  lemma CommitSaves(s: System, e: EngineId, id: AttemptId)
    requires Inv(s) && Enabled(s, Event(e, Commit(id))) && s.engines[e].r.revision < NORMAL_LIMIT
    ensures var t, r := Apply(s, Event(e, Commit(id))), s.engines[e].r;
            && Inv(t) && t.unfit == s.unfit && t.refused == s.refused && t.cells == s.cells && t.used == s.used + {id}
            && RequestOk(r.request) && Reservation(r) != Overflow && Committed(r, id).revision == r.revision
            && t.engines == s.engines[e := Instance(Saving(ToPreparing), Committed(r, id), Some(id))]
  {
    hide Inv, Accepts, MayFollow, Early, RequestOk, UsageOk, WireChars, Chars, PriceOf, PendingOk, StrayOk, IdsIn,
      BeginSave, RoomToRun;
    var base := BaseFacts(s, e);
    PendingCommit(base, id, s.used);
    NewNameIsUnopened(s, id);
    StrayRevision(base, id);
    SaveStep(s, e, base, Committed(base, id), ToPreparing, Some(id), s.used + {id});
  }

  /** Both engines have loaded the task. */
  function BothLoaded(owner: string, task: string): System {
    var r := L.Revision(owner, task, 0);
    Init(owner, task, Planned1(owner, task)).(engines :=
      map[0 := Instance(Idle, r, None), 1 := Instance(Idle, r, None)])
  }

  lemma BothLoad(owner: string, task: string)
    ensures Inv(BothLoaded(owner, task))
    ensures IsRun(Init(owner, task, Planned1(owner, task)), [Event(0, Load), Event(1, Load)], BothLoaded(owner, task))
  {
    hide Inv, Sound, L.Revision;
    var s := Init(owner, task, Planned1(owner, task));
    PlannedIsSound(owner, task);
    InitOk(owner, task, Planned1(owner, task));
    StepOk(s, Event(0, Load));
    var a := Apply(s, Event(0, Load));
    StepOk(a, Event(1, Load));
    var b := Apply(a, Event(1, Load));
    assert b == BothLoaded(owner, task);
    RunTwo(s, Event(0, Load), Event(1, Load));
  }

  lemma RunTwo(s: System, a: Event, b: Event)
    requires Enabled(s, a) && Enabled(Apply(s, a), b)
    ensures IsRun(s, [a, b], Apply(Apply(s, a), b))
  {
    hide Enabled, Apply;
    assert [a, b][1..] == [b] && [b][1..] == [];
    var t := Apply(Apply(s, a), b);
    assert IsRun(t, [], t);
    assert IsRun(Apply(s, a), [b], t);
  }

  lemma MayCommit(owner: string, task: string, s: System, e: EngineId, id: AttemptId)
    requires e in s.engines && s.engines[e] == Instance(Idle, L.Revision(owner, task, 0), None) && id !in s.used
    ensures Enabled(s, Event(e, Commit(id))) && s.engines[e].r.revision == 1
  {
    PlannedHasRoom(owner, task);
    hide RoomToRun, RequestOk, L.Revision;
  }

  /** Both have committed a round and are about to save it. */
  lemma BothCommit(owner: string, task: string) returns (t: System)
    ensures IsRun(BothLoaded(owner, task), [Event(0, Commit(0)), Event(1, Commit(1))], t)
    ensures Inv(t) && t.unfit == 0 && t.refused == 0 && t.cells == Planned1(owner, task) && t.engines.Keys == {0, 1}
    ensures forall e :: e in {0, 1} ==> t.engines[e].phase == Saving(ToPreparing) && t.engines[e].r.revision == 1
  {
    hide Inv, Apply, Enabled, RequestOk, Reservation, Committed;
    var s := BothLoaded(owner, task);
    BothLoad(owner, task);
    NothingUsed(owner, task);
    MayCommit(owner, task, s, 0, 0);
    CommitSaves(s, 0, 0);
    var a := Apply(s, Event(0, Commit(0)));
    MayCommit(owner, task, a, 1, 1);
    CommitSaves(a, 1, 1);
    t := Apply(a, Event(1, Commit(1)));
    RunTwo(s, Event(0, Commit(0)), Event(1, Commit(1)));
  }

  lemma NothingUsed(owner: string, task: string)
    ensures BothLoaded(owner, task).used == {} && BothLoaded(owner, task).cells == Planned1(owner, task)
    ensures BothLoaded(owner, task).unfit == BothLoaded(owner, task).refused == 0
  {
  }

  /** A whole file takes the place of the torn one, and the engine goes on. */
  lemma Fills(s: System, e: EngineId)
    requires Inv(s) && e in s.engines && s.engines[e].phase == Writing(ToPreparing)
    ensures Enabled(s, Event(e, Fill))
    ensures var t := Apply(s, Event(e, Fill));
            && Inv(t) && t.unfit == s.unfit && t.refused == s.refused && |t.cells| == |s.cells|
            && (forall f :: f in s.engines && f != e ==> f in t.engines && t.engines[f] == s.engines[f])
  {
    WriterFits(s, e);
    hide Inv, Proposal;
    FillOk(s, e);
  }

  lemma WriterFits(s: System, e: EngineId)
    requires Inv(s) && e in s.engines && s.engines[e].phase.Writing?
    ensures 0 <= s.engines[e].r.revision < |s.cells|
  {
    InstanceFacts(s, e);
  }

  lemma Refuses(s: System, e: EngineId)
    requires Inv(s) && e in s.engines && s.engines[e].phase.Saving? && |s.cells| != s.engines[e].r.revision
    ensures Enabled(s, Event(e, Conflict))
    ensures var t := Apply(s, Event(e, Conflict));
            t.refused == s.refused + 1 && t.unfit == s.unfit && e in t.engines && t.engines[e].phase == Failed
  {
    ConflictOk(s, e);
    hide Inv;
  }

  lemma Creates(s: System, e: EngineId)
    requires Inv(s) && Creating(s, e) && s.engines[e].phase == Saving(ToPreparing)
    ensures Enabled(s, Event(e, Create))
    ensures var t := Apply(s, Event(e, Create));
            && Inv(t) && t.unfit == s.unfit && t.refused == s.refused && |t.cells| == |s.cells| + 1
            && e in t.engines && t.engines[e].phase == Writing(ToPreparing)
            && (forall f :: f in s.engines && f != e ==> f in t.engines && t.engines[f] == s.engines[f])
  {
    hide Inv, MayFollow, Proposal, Records;
    CreateOk(s, e);
    NextIsAccepted(s, e);
    CreateEffect(s, e);
  }

  /** Two engines load the same planned task and both commit.  The one that creates its file first
      wins: from then on, while the file is torn and once it is whole, the journal refuses the
      other's record, which was fit when it was passed, and no plan and no limit is involved. */
  lemma SecondCommitIsRefused(owner: string, task: string) returns (evs: seq<Event>, torn: System, s: System)
    ensures Sound(Planned1(owner, task), owner, task)
    ensures IsRun(Init(owner, task, Planned1(owner, task)), evs, torn) && Enabled(torn, Event(1, Conflict))
    ensures IsRun(torn, [Event(0, Fill), Event(1, Conflict)], s)
    ensures s.refused == 1 && s.unfit == 0 && 1 in s.engines && s.engines[1].phase == Failed
  {
    hide Inv, Sound, Apply, Enabled, IsRun, BothLoaded, L.Revision;
    PlannedIsSound(owner, task);
    BothLoad(owner, task);
    var both := BothCommit(owner, task);
    Creates(both, 0);
    torn := Apply(both, Event(0, Create));
    Refuses(torn, 1);
    Fills(torn, 0);
    var whole := Apply(torn, Event(0, Fill));
    Refuses(whole, 1);
    s := Apply(whole, Event(1, Conflict));
    RunTwo(torn, Event(0, Fill), Event(1, Conflict));
    var first, next := [Event(0, Load), Event(1, Load)], [Event(0, Commit(0)), Event(1, Commit(1))];
    evs := first + next + [Event(0, Create)];
    RunJoin(Init(owner, task, Planned1(owner, task)), first, BothLoaded(owner, task), next, both);
    RunLast(both, Event(0, Create));
    RunJoin(Init(owner, task, Planned1(owner, task)), first + next, both, [Event(0, Create)], torn);
  }

  lemma RunLast(s: System, ev: Event)
    requires Enabled(s, ev)
    ensures IsRun(s, [ev], Apply(s, ev))
  {
    hide Enabled, Apply;
    assert [ev][1..] == [];
    assert IsRun(Apply(s, ev), [ev][1..], Apply(s, ev));
  }
}
