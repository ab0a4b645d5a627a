/**
 The two limits of the journal an engine may meet: the number of revisions, with a journal that
 any reader accepts and whose next round begins at revision 1023, and the size of a file.
 */
module EngineLimits {
  import opened Wrappers
  import opened Text
  import opened Journal
  import opened Engine
  import opened EngineSystem
  import opened EngineSafety
  import opened EngineGuarantees

  const REQUEST := Request(Units("x"), Journal.Route.Route("p", "m", "e", 1, None), 2, 500000, 0, 1)

  const USAGE := RawUsage(1, 0, 1, Some(2), 0, None)

  function OnlyRound(i: nat): Round {
    if i == 1 then Round(0, AttemptCommitted, [], None, None, None, None, None)
    else if i < 1022 then Round(0, Running, [], None, None, None, None, None)
    else Round(0, Journal.Completed, Units("x"), Some(MaxTokens), Some(USAGE), None, None, None)
  }

  function StatusAt(i: nat): Status {
    if i == 0 then Planned else if i == 1 then AttemptCommitted else if i < 1022 then Running else ContinuationReady
  }

  /** Revision `i + 1`: planned, committed, checkpointed without new text over and over, and at
      last settled with a second round to come. */
  function Revision(owner: string, task: string, i: nat): Record {
    Record(owner, task, i + 1, StatusAt(i), REQUEST, Digest(REQUEST), if i == 0 then [] else [OnlyRound(i)], 0, 0,
      i > 0, None)
  }

  function Journal1023(owner: string, task: string): (cells: seq<Cell>)
    ensures |cells| == 1023 && forall i :: 0 <= i < 1023 ==> cells[i] == Full(Revision(owner, task, i))
  {
    seq(1023, i requires 0 <= i < 1023 => Full(Revision(owner, task, i)))
  }

  lemma RequestIsOk()
    ensures RequestOk(REQUEST) && Trim(Units("x")) == Units("x") && |Units("x")| == 1
  {
  }

  lemma OneRoundOk(i: nat)
    requires 0 < i < 1023 && RequestOk(REQUEST)
    ensures RoundOk(REQUEST, [OnlyRound(i)], 0)
  {
    hide RequestOk, ByteLength;
  }

  lemma TotalsOfOne(v: Round)
    ensures Chars([v]) == |v.visibleText| && Spent([v]) == OrZero(v.cost) && Held([v]) == OrZero(v.hold)
    ensures Unknown([v]) <==> v.cost == None
  {
    assert [v][..0] == [];
    if v.cost == None {
      assert [v][0].cost == None;
    }
  }

  lemma RevisionIsAccepted(owner: string, task: string, i: nat)
    requires i < 1023
    ensures Accepts(Revision(owner, task, i), owner, task, i + 1)
  {
    hide RequestOk, RoundOk, Trim, Units;
    RequestIsOk();
    if i > 0 {
      OneRoundOk(i);
      TotalsOfOne(OnlyRound(i));
    }
  }

  lemma RevisionFollows(owner: string, task: string, i: nat)
    requires 0 < i < 1023
    ensures MayFollow(Some(Revision(owner, task, i - 1)), Revision(owner, task, i))
  {
    hide Units;
  }

  lemma JournalIsSound(owner: string, task: string)
    ensures Sound(Journal1023(owner, task), owner, task)
  {
    hide Accepts, MayFollow, Revision, Journal1023;
    var cells := Journal1023(owner, task);
    var h := Records(cells);
    forall i | 0 <= i < 1023 ensures AcceptedAt(h, owner, task, i) {
      RevisionIsAccepted(owner, task, i);
      if i == 0 {
        FirstIsPlanned(owner, task);
      } else {
        RevisionFollows(owner, task, i);
      }
    }
  }

  lemma FirstIsPlanned(owner: string, task: string)
    ensures MayFollow(None, Revision(owner, task, 0))
  {
  }

  lemma RoomAtTheLimit(owner: string, task: string)
    ensures RoomToRun(Revision(owner, task, 1022))
  {
    hide Units;
    var rounds := [OnlyRound(1022)];
    assert rounds[..0] == [];
    TotalsOfOne(OnlyRound(1022));
    var wire := [Units("x"), Units("x"), CONTINUE];
    assert Messages(REQUEST, []) == [Units("x")];
    assert Messages(REQUEST, rounds) == wire;
    var two, one := wire[..2], wire[..1];
    assert two == [Units("x"), Units("x")] && two[..1] == one && one[..0] == [];
    assert WireChars(one) == 1;
    assert WireChars(two) == 2;
    assert WireChars(wire) == 2 + |CONTINUE|;
  }

  function Loaded(owner: string, task: string, e: EngineId): System {
    var s := Init(owner, task, Journal1023(owner, task));
    s.(engines := map[e := Instance(Idle, Revision(owner, task, 1022), None)])
  }

  lemma LoadsTheLimit(owner: string, task: string, e: EngineId)
    ensures var s := Init(owner, task, Journal1023(owner, task));
            Enabled(s, Event(e, Load)) && Apply(s, Event(e, Load)) == Loaded(owner, task, e)
              && Inv(Loaded(owner, task, e))
  {
    hide Sound, Inv, Revision;
    JournalIsSound(owner, task);
    InitOk(owner, task, Journal1023(owner, task));
    StepOk(Init(owner, task, Journal1023(owner, task)), Event(e, Load));
  }

  lemma CommitsAtTheLimit(owner: string, task: string, e: EngineId)
    ensures var s := Loaded(owner, task, e);
            Enabled(s, Event(e, Commit(1)))
    ensures var s, t := Loaded(owner, task, e), Apply(Loaded(owner, task, e), Event(e, Commit(1)));
            && Inv(t) && t.unfit == 1 && t.refused == 0 && t.cells == s.cells && Creating(t, e)
            && t.engines[e].phase == Saving(Uncommitted)
  {
    var s := Loaded(owner, task, e);
    LoadsTheLimit(owner, task, e);
    RequestIsOk();
    RoomAtTheLimit(owner, task);
    NewName(owner, task, e);
    hide Inv, RoomToRun, RequestOk, Journal1023, Units, Trim;
    assert Enabled(s, Event(e, Commit(1)));
    hide CanAct;
    StepOk(s, Event(e, Commit(1)));
    SavesStray(s, e);
  }

  lemma NewName(owner: string, task: string, e: EngineId)
    ensures 1 !in Loaded(owner, task, e).used
  {
  }

  lemma CommitEffect(s: System, e: EngineId, id: AttemptId)
    requires Enabled(s, Event(e, Commit(id))) && s.engines[e].r.revision >= NORMAL_LIMIT
             && Reservation(s.engines[e].r) != Overflow
    ensures Committed(s.engines[e].r, id).rounds != []
    ensures Apply(s, Event(e, Commit(id))) ==
              BeginSave(s, e, Interrupted(Committed(s.engines[e].r, id)), Uncommitted, Some(id)).(used := s.used + {id})
  {
    hide BeginSave, Interrupted, Reservation, RequestOk, RoomToRun;
    CommittedHasRound(s.engines[e].r, id);
    StrayRevision(s.engines[e].r, id);
  }

  lemma StraySaves(s: System, e: EngineId, r: Record, attempt: Option<AttemptId>)
    requires Good(Proposal(r)) && r.revision < EMERGENCY_LIMIT
    ensures var t := BeginSave(s, e, r, Uncommitted, attempt);
            t.cells == s.cells && e in t.engines && t.engines[e] == Instance(Saving(Uncommitted), r, attempt)
  {
    hide Good, MayFollow, Proposal;
  }

  /** What a commit at revision 1023 leaves behind. */
  lemma SavesStray(s: System, e: EngineId)
    requires Inv(s) && Enabled(s, Event(e, Commit(1))) && s.engines[e].r.revision == |s.cells| == 1023
             && Readable(s.cells)
    ensures var t := Apply(s, Event(e, Commit(1)));
            t.cells == s.cells && Creating(t, e) && t.engines[e].phase == Saving(Uncommitted)
  {
    hide Inv, Accepts, MayFollow, RequestOk, RoomToRun, Reservation, IdsIn, BeginSave, Apply, Committed, Interrupted,
      TailOk;
    var base := BaseFacts(s, e);
    PendingCommit(base, 1, s.used);
    CommitEffect(s, e, 1);
    StrayRevision(base, 1);
    StraySaves(s, e, Interrupted(Committed(base, 1)), Some(1));
  }

  /** An engine loads that journal and begins a round: the commit is stopped by the revision
      limit, and the journal refuses the record of the interruption. */
  lemma RefusedAtTheLimit(owner: string, task: string, e: EngineId) returns (s: System)
    ensures Sound(Journal1023(owner, task), owner, task)
    ensures IsRun(Init(owner, task, Journal1023(owner, task)),
              [Event(e, Load), Event(e, Commit(1)), Event(e, Create)], s)
    ensures s.unfit == s.refused == 1 && s.cells == Journal1023(owner, task)
    ensures e in s.engines && s.engines[e].phase == Failed
  {
    hide Inv, Sound, Apply, Enabled, Journal1023, Loaded;
    var s0 := Init(owner, task, Journal1023(owner, task));
    var a, b, c := Event(e, Load), Event(e, Commit(1)), Event(e, Create);
    JournalIsSound(owner, task);
    LoadsTheLimit(owner, task, e);
    CommitsAtTheLimit(owner, task, e);
    var s1 := Loaded(owner, task, e);
    var s2 := Apply(s1, b);
    StrayIsRefused(s2, e);
    s := Apply(s2, c);
    RefusalWritesNothing(s2, e);
    LoadedCells(owner, task, e);
    ThreeSteps(s0, a, b, c);
  }

  lemma LoadedCells(owner: string, task: string, e: EngineId)
    ensures Loaded(owner, task, e).cells == Journal1023(owner, task)
  {
  }

  lemma RefusalWritesNothing(s: System, e: EngineId)
    requires Enabled(s, Event(e, Create)) && Apply(s, Event(e, Create)).refused == s.refused + 1
    ensures Apply(s, Event(e, Create)).cells == s.cells && e in Apply(s, Event(e, Create)).engines
  {
    hide MayFollow, Proposal, Records;
  }

  lemma ThreeSteps(s: System, a: Event, b: Event, c: Event)
    requires Enabled(s, a) && Enabled(Apply(s, a), b) && Enabled(Apply(Apply(s, a), b), c)
    ensures IsRun(s, [a, b, c], Apply(Apply(Apply(s, a), b), c))
  {
    hide Enabled, Apply;
    assert [a, b, c][1..] == [b, c] && [b, c][1..] == [c] && [c][1..] == [];
    var t := Apply(Apply(s, a), b);
    assert IsRun(Apply(t, c), [], Apply(t, c));
    assert IsRun(t, [c], Apply(t, c));
    assert IsRun(Apply(s, a), [b, c], Apply(t, c));
  }

  // ---------------------------------------------------------------- the size of a file

  const MAX_BYTES := 3 * 1024 * 1024
  const MAX_EVIDENCE := 99_000

  /** How long the parts of the evidence are that are not fixed in form. */
  function EvidenceLength(r: Record): nat { if r.evidence.Some? then |r.evidence.value.rest| else 0 }

  /** What serializing does: JSON writes at most six bytes for a code unit, and all of a record
      but its prompt, its texts and its evidence takes less than 16 KiB. */
  ghost predicate Serializes(size: Record -> nat) {
    forall r :: Good(r) ==> size(r) <= 6 * (|r.request.prompt| + Chars(r.rounds)) + 6 * EvidenceLength(r) + 16384
  }

  /** Nobody holds or stores longer evidence. */
  predicate Small(s: System) {
    && (forall e :: e in s.engines ==> EvidenceLength(s.engines[e].r) <= MAX_EVIDENCE)
    && (forall i :: 0 <= i < |s.cells| && s.cells[i].Full? ==> EvidenceLength(s.cells[i].record) <= MAX_EVIDENCE)
  }

  predicate SmallPlan(ev: Event) {
    ev.a.Plan? && ev.a.evidence.Some? ==> |ev.a.evidence.value.rest| <= MAX_EVIDENCE
  }

  lemma SmallSave(s: System, e: EngineId, r: Record, after: After, attempt: Option<AttemptId>)
    requires Small(s) && EvidenceLength(r) <= MAX_EVIDENCE
    ensures Small(BeginSave(s, e, r, after, attempt))
  {
    hide Good, MayFollow;
  }

  lemma SmallAttempt(s: System, e: EngineId, r: Record, after: After, stopped: After, attempt: Option<AttemptId>)
    requires Small(s) && EvidenceLength(r) <= MAX_EVIDENCE && r.rounds != []
    ensures Small(SaveOrInterrupt(s, e, r, after, stopped, attempt))
  {
    hide BeginSave, Small;
    assert Interrupted(r).evidence == r.evidence;
    hide Interrupted;
    SmallSave(s, e, r, after, attempt);
    SmallSave(s, e, Interrupted(r), stopped, attempt);
  }

  /** No block of the engine touches the evidence. */
  lemma BlocksKeepEvidence(r: Record)
    ensures Limited(r).evidence == Proposal(r).evidence == r.evidence
    ensures r.rounds != [] ==> Interrupted(r).evidence == Started(r).evidence == r.evidence
    ensures RequestOk(r.request) && Reservation(r) != Overflow ==> forall id :: Committed(r, id).evidence == r.evidence
    ensures r.rounds != [] && Chars(r.rounds) <= MAX_VISIBLE ==> forall text :: Grown(r, text).evidence == r.evidence
  {
    hide RequestOk, Chars, Reservation, Spent, Held, Unknown;
  }

  lemma SettlingKeepsEvidence(r: Record, usage: RawUsage, finish: Finish)
    requires r.rounds != [] && UsageOk(usage)
    ensures Noted(r, usage, finish).evidence == r.evidence && Noted(r, usage, finish).rounds != []
    ensures Interrupted(Noted(r, usage, finish)).evidence == r.evidence
    ensures RequestOk(r.request) && SettledPrice(usage, r.request.route.costRates) != Overflow ==>
              Settled(r, usage, finish).evidence == r.evidence
  {
    hide RequestOk, UsageOk, SettledPrice, SettledStatus;
  }

  lemma SmallAct(s: System, e: EngineId, en: Instance, a: Action)
    requires Small(s) && e in s.engines && s.engines[e] == en && CanAct(s, en, a)
    requires a.Recover? || a.Limit? || a.Commit? || a.Prepared? || a.Fail? || a.Chunk? || a.Finished?
    ensures Small(Act(s, e, en, a))
  {
    assert EvidenceLength(en.r) <= MAX_EVIDENCE;
    BlocksKeepEvidence(en.r);
    if a.Finished? { SettlingKeepsEvidence(en.r, a.usage, a.finish); }
    hide MayFollow, Reservation, SettledPrice, Interrupted, Limited, Committed, Started, Grown, Noted, Settled,
      Proposal, Good, UsageOk, BeginSave, SaveOrInterrupt;
    match a
    case Recover => SmallSave(s, e, Interrupted(en.r), ToIdle, None);
    case Limit => SmallSave(s, e, Limited(en.r), ToIdle, None);
    case Commit(id) =>
      if Reservation(en.r) != Overflow {
        CommittedHasRound(en.r, id);
        SmallAttempt(s, e, Committed(en.r, id), ToPreparing, Uncommitted, Some(id));
      }
    case Prepared =>
      StartedHasRound(en.r);
      SmallAttempt(s, e, Started(en.r), ToReady, ToIdle, en.attempt);
    case Fail => SmallSave(s, e, Interrupted(en.r), ToIdle, en.attempt);
    case Chunk(text) =>
      var over := |text| > MAX_VISIBLE - Chars(en.r.rounds);
      GrownHasRound(en.r, text);
      SmallAttempt(s, e, Grown(en.r, text), ToStreaming(over), ToIdle, en.attempt);
    case Finished(usage, finish) =>
      if SettledPrice(usage, en.r.request.route.costRates) == Overflow {
        SmallSave(s, e, Interrupted(Noted(en.r, usage, finish)), ToIdle, en.attempt);
      } else {
        SmallSave(s, e, Settled(en.r, usage, finish), ToIdle, en.attempt);
      }
  }

  lemma SmallFiles(s: System, ev: Event)
    requires Small(s) && Enabled(s, ev) && (ev.a.Create? || ev.a.Fill? || ev.a.FillError?)
    ensures Small(Apply(s, ev))
  {
    hide BeginSave, SaveOrInterrupt, MayFollow, Proposal, Records, Resume, Limited, Interrupted, Started, Committed,
      Grown, Readable;
    assert EvidenceLength(s.engines[ev.e].r) <= MAX_EVIDENCE;
    BlocksKeepEvidence(s.engines[ev.e].r);
  }

  lemma SmallRest(s: System, ev: Event)
    requires Small(s) && Enabled(s, ev)
    requires ev.a.Crash? || ev.a.Open? || ev.a.SaveError? || ev.a.Conflict?
    ensures Small(Apply(s, ev))
  {
    hide BeginSave, SaveOrInterrupt, MayFollow, Proposal, Records, Resume, Limited, Interrupted, Started, Committed,
      Grown, Readable;
    assert EvidenceLength(s.engines[ev.e].r) <= MAX_EVIDENCE;
    BlocksKeepEvidence(s.engines[ev.e].r);
  }

  lemma SmallStep(s: System, ev: Event)
    requires Small(s) && Enabled(s, ev) && SmallPlan(ev)
    ensures Small(Apply(s, ev))
  {
    hide BeginSave, Act, CanAct, RequestOk;
    if ev.a.Plan? {
      SmallSave(s, ev.e, NewTask(s.owner, s.task, ev.a.request, NormalizeEvidence(ev.a.evidence)), ToIdle, None);
    } else if ev.a.Recover? || ev.a.Limit? || ev.a.Commit? || ev.a.Prepared? || ev.a.Fail? || ev.a.Chunk?
      || ev.a.Finished? {
      SmallAct(s, ev.e, s.engines[ev.e], ev.a);
    } else if ev.a.Create? || ev.a.Fill? || ev.a.FillError? {
      SmallFiles(s, ev);
    } else if !ev.a.Load? {
      SmallRest(s, ev);
    }
  }

  lemma {:induction false} SmallRun(s: System, evs: seq<Event>, t: System)
    requires Small(s) && IsRun(s, evs, t) && forall i :: 0 <= i < |evs| ==> SmallPlan(evs[i])
    ensures Small(t)
    decreases |evs|
  {
    hide Small, Enabled, Apply, SmallPlan;
    if evs == [] {
    } else {
      SmallStep(s, evs[0]);
      SmallRun(Apply(s, evs[0]), evs[1..], t);
    }
  }

  lemma SavesGood(s: System, e: EngineId)
    requires Inv(s) && e in s.engines && s.engines[e].phase.Saving?
    ensures Good(Proposal(s.engines[e].r))
  {
    hide Inv, Accepts, MayFollow, IdsIn, TailOk, Proposal;
    InstanceFacts(s, e);
  }

  /** The file size is never what stops a record: whatever an engine is about to save stays
      below 3 MiB, unless the evidence it was planned with is longer than 99000 code units. */
  lemma NeverTooLarge(owner: string, task: string, cells: seq<Cell>, evs: seq<Event>, s: System, e: EngineId,
      size: Record -> nat)
    requires Sound(cells, owner, task) && IsRun(Init(owner, task, cells), evs, s) && Serializes(size)
    requires forall i :: 0 <= i < |cells| && cells[i].Full? ==> EvidenceLength(cells[i].record) <= MAX_EVIDENCE
    requires forall i :: 0 <= i < |evs| ==> SmallPlan(evs[i])
    requires e in s.engines && s.engines[e].phase.Saving?
    ensures size(Proposal(s.engines[e].r)) <= MAX_BYTES
  {
    hide Inv, IsRun, SmallPlan, Sound;
    InitOk(owner, task, cells);
    RunOk(Init(owner, task, cells), evs, s);
    SmallRun(Init(owner, task, cells), evs, s);
    SavesGood(s, e);
    BlocksKeepEvidence(s.engines[e].r);
    var p := Proposal(s.engines[e].r);
    hide Proposal, Good, Chars;
    TextsOfGood(p);
  }

  lemma TextsOfGood(r: Record)
    requires Good(r)
    ensures |r.request.prompt| <= 160000 && Chars(r.rounds) <= MAX_VISIBLE
  {
    hide RouteOk, Trim, StatusOk, EvidenceOk, RoundOk;
  }
}
