/**
 What every run of several engines on one task directory guarantees, whatever the providers,
 the disk and the other engines do, starting from any directory that can be read back.
 */
module EngineGuarantees {
  import opened Wrappers
  import opened Text
  import opened Journal
  import opened Histories
  import opened Engine
  import opened EngineSystem
  import opened EngineSafety

  // ---------------------------------------------------------------- whole runs

  lemma {:induction false} RunOk(s: System, evs: seq<Event>, t: System)
    requires Inv(s) && IsRun(s, evs, t)
    ensures Inv(t) && t.owner == s.owner && t.task == s.task && t.found == s.found
    decreases |evs|
  {
    hide Inv, Enabled, Apply;
    if evs == [] {
    } else {
      StepOk(s, evs[0]);
      RunOk(Apply(s, evs[0]), evs[1..], t);
    }
  }

  lemma {:induction false} RunJoin(s: System, evs: seq<Event>, t: System, more: seq<Event>, u: System)
    requires IsRun(s, evs, t) && IsRun(t, more, u)
    ensures IsRun(s, evs + more, u)
    decreases |evs|
  {
    hide Enabled, Apply;
    if evs == [] {
      assert evs + more == more;
    } else {
      RunJoin(Apply(s, evs[0]), evs[1..], t, more, u);
      assert (evs + more)[1..] == evs[1..] + more;
    }
  }

  // ---------------------------------------------------------------- the journal and its refusals

  /** How many events of a run pass an unfit record to the journal. */
  function UnfitEvents(s: System, evs: seq<Event>): nat
    decreases |evs|
  {
    if evs == [] || !Enabled(s, evs[0]) then 0
    else (if BeginsUnfit(s, evs[0]) then 1 else 0) + UnfitEvents(Apply(s, evs[0]), evs[1..])
  }

  function Refusals(s: System, evs: seq<Event>): nat
    decreases |evs|
  {
    if evs == [] || !Enabled(s, evs[0]) then 0
    else (if IsRefusal(s, evs[0]) then 1 else 0) + Refusals(Apply(s, evs[0]), evs[1..])
  }

  /** Saves that found the directory moved on or torn. */
  function Conflicts(evs: seq<Event>): nat {
    if evs == [] then 0 else (if evs[0].a.Conflict? then 1 else 0) + Conflicts(evs[1..])
  }

  /** Why the journal refuses a record: the evidence it was planned with has dates that cannot be
      stored, it interrupts a round that was begun at revision 1023, or files were created after
      its engine's own last revision. */
  lemma WhyRefused(s: System, ev: Event)
    requires Inv(s) && Enabled(s, ev) && IsRefusal(s, ev)
    ensures
      || (ev.a.Plan? && BadDates(ev.a.evidence))
      || (ev.a.Create? && s.engines[ev.e].phase == Saving(Uncommitted) && s.engines[ev.e].r.revision == NORMAL_LIMIT)
      || (ev.a.Conflict? && s.engines[ev.e].r.revision < |s.cells|)
  {
    if ev.a.Create? {
      InstanceFacts(s, ev.e);
      hide Inv, Good, MayFollow, IdsIn, TailOk;
      DurableRevision(s, s.engines[ev.e].r.revision - 1);
    } else if ev.a.Conflict? {
      hide Inv;
      ConflictOk(s, ev.e);
    }
  }

  /** The counts kept by the system are the numbers of those events. */
  lemma {:induction false} CountsOfRun(s: System, evs: seq<Event>, t: System)
    requires Inv(s) && IsRun(s, evs, t)
    ensures t.unfit == s.unfit + UnfitEvents(s, evs) && t.refused == s.refused + Refusals(s, evs)
    decreases |evs|
  {
    hide Inv, Enabled, Apply, BeginsUnfit, IsRefusal;
    if evs == [] {
    } else {
      StepOk(s, evs[0]);
      CountsOfRun(Apply(s, evs[0]), evs[1..], t);
    }
  }

  /** Engines whose unfit record the journal has not seen yet. */
  function Owed(s: System): set<EngineId> {
    set e | e in s.engines && s.engines[e].phase == Saving(Uncommitted)
  }

  /** Only a round begun at revision 1023 leaves an engine saving an uncommitted round. */
  lemma OwedOnlyAfterCommit(s: System, ev: Event)
    requires Inv(s) && Enabled(s, ev) && ev.e in Owed(Apply(s, ev))
    ensures ev.a.Commit? && BeginsUnfit(s, ev) && ev.e !in Owed(s)
  {
    hide Inv, Good, MayFollow, Reservation, SettledPrice, Interrupted, Limited, Committed, Started, Grown, Noted,
      Settled, Proposal, Records, NewTask, NormalizeEvidence, RequestOk, UsageOk, RoomToRun, Chars;
    if ev.a.Commit? {
      var base := BaseFacts(s, ev.e);
      if Reservation(s.engines[ev.e].r) != Overflow {
        StrayRevision(s.engines[ev.e].r, ev.a.id);
      }
    }
  }

  lemma StrayRevision(r: Record, id: AttemptId)
    requires RequestOk(r.request) && Reservation(r) != Overflow
    ensures Committed(r, id).revision == Interrupted(Committed(r, id)).revision == r.revision
  {
  }

  lemma OwedStep(s: System, ev: Event)
    requires Inv(s) && Enabled(s, ev)
    ensures |Owed(Apply(s, ev))| + (if IsRefusal(s, ev) then 1 else 0)
            <= |Owed(s)| + (if BeginsUnfit(s, ev) then 1 else 0) + (if ev.a.Conflict? then 1 else 0)
  {
    hide Inv, Enabled, Apply, BadDates;
    var t := Apply(s, ev);
    forall e | e in Owed(t) && e != ev.e ensures e in Owed(s) {
      OthersUntouched(s, ev, e);
    }
    if ev.e in Owed(t) {
      OwedOnlyAfterCommit(s, ev);
      Fewer(Owed(t) - {ev.e}, Owed(s));
    } else if ev.a.Create? && IsRefusal(s, ev) {
      Fewer(Owed(t), Owed(s) - {ev.e});
    } else {
      Fewer(Owed(t), Owed(s));
    }
  }

  lemma {:induction false} Fewer(a: set<EngineId>, b: set<EngineId>)
    requires a <= b
    ensures |a| <= |b|
  {
    if a == {} {
    } else {
      var x :| x in a;
      Fewer(a - {x}, b - {x});
    }
  }

  lemma {:induction false} OwedOfRun(s: System, evs: seq<Event>, t: System)
    requires Inv(s) && IsRun(s, evs, t)
    ensures |Owed(t)| + Refusals(s, evs) <= |Owed(s)| + UnfitEvents(s, evs) + Conflicts(evs)
    decreases |evs|
  {
    hide Inv, Enabled, Apply, BeginsUnfit, IsRefusal, Owed;
    if evs == [] {
    } else {
      StepOk(s, evs[0]);
      OwedStep(s, evs[0]);
      OwedOfRun(Apply(s, evs[0]), evs[1..], t);
    }
  }

  /** From any readable directory, whatever the provider, the disk and the other engines do:
      the directory stays an acceptable chain but for a torn last file, it grows by at most
      154 files, and no price or ledger ever leaves the exact integers.  Every record passed to
      the journal is good and may follow the engine's last one, but for the records of two
      kinds of events: planning with evidence whose dates cannot be stored, and beginning a
      round at revision 1023.  Refusals beyond those are saves that found the directory moved on or
      torn since their engine's own last revision. */
  lemma EngineRefinesJournal(owner: string, task: string, cells: seq<Cell>, evs: seq<Event>, s: System)
    requires Sound(cells, owner, task) && IsRun(Init(owner, task, cells), evs, s)
    ensures |s.cells| <= MAX_REVISIONS && |s.cells| <= |cells| + MAX_ENGINE_REVISIONS
    ensures Shape(s.cells) && History(Durable(s.cells), owner, task)
    ensures s.unfit == UnfitEvents(Init(owner, task, cells), evs)
    ensures s.refused == Refusals(Init(owner, task, cells), evs) <= s.unfit + Conflicts(evs)
  {
    InitOk(owner, task, cells);
    RunOk(Init(owner, task, cells), evs, s);
    CountsOfRun(Init(owner, task, cells), evs, s);
    OwedOfRun(Init(owner, task, cells), evs, s);
    hide Early, StreamsOk, InstancesOk, PairsApart, WritersOk;
  }

  /** An engine may die at any time, and a save may fail as long as it has not returned. */
  lemma AccidentsCanHappen(s: System, e: EngineId)
    requires e in s.engines
    ensures Enabled(s, Event(e, Crash)) && e !in Apply(s, Event(e, Crash)).engines
    ensures s.engines[e].phase.Saving? || s.engines[e].phase.Writing? ==> Enabled(s, Event(e, SaveError))
  {
    hide BeginSave, SaveOrInterrupt, MayFollow, Proposal, Records;
  }

  // ---------------------------------------------------------------- short journals

  function BadPlans(evs: seq<Event>): nat {
    if evs == [] then 0
    else (if evs[0].a.Plan? && BadDates(evs[0].a.evidence) then 1 else 0) + BadPlans(evs[1..])
  }

  /** A revision number that high takes hundreds of revisions found in the directory. */
  lemma FarFromTheLimit(s: System, e: EngineId)
    requires Inv(s) && e in s.engines && Acting(s.engines[e].phase) && s.found + MAX_ENGINE_REVISIONS < NORMAL_LIMIT
    ensures s.engines[e].r.revision < NORMAL_LIMIT
  {
    hide Inv, Good, Early, PhaseOk;
    var base := BaseFacts(s, e);
    CapBound(base, s.found);
  }

  lemma OwedIsFar(s: System, e: EngineId)
    requires Inv(s) && e in Owed(s)
    ensures s.found + MAX_ENGINE_REVISIONS >= NORMAL_LIMIT
  {
    InstanceFacts(s, e);
    hide Inv, Good, MayFollow, Early, IdsIn, TailOk;
    var k := s.engines[e].r.revision - 1;
    DurableRevision(s, k);
    CapBound(Durable(s.cells)[k], s.found);
  }

  lemma NobodyOwes(s: System)
    requires Inv(s) && s.found + MAX_ENGINE_REVISIONS < NORMAL_LIMIT
    ensures Owed(s) == {}
  {
    hide Inv, Owed;
    if Owed(s) != {} {
      var e :| e in Owed(s);
      OwedIsFar(s, e);
    }
  }

  lemma {:induction false} OnlyBadPlans(s: System, evs: seq<Event>, t: System)
    requires Inv(s) && IsRun(s, evs, t) && s.found + MAX_ENGINE_REVISIONS < NORMAL_LIMIT
    ensures UnfitEvents(s, evs) == BadPlans(evs) && Refusals(s, evs) == BadPlans(evs) + Conflicts(evs)
    decreases |evs|
  {
    hide Inv, Apply, BadDates, CanAct;
    if evs == [] {
    } else {
      var ev := evs[0];
      StepOk(s, ev);
      if ev.a.Commit? { IdleAtCommit(s, ev); FarFromTheLimit(s, ev.e); }
      NobodyOwes(s);
      if ev.a.Create? { assert ev.e !in Owed(s); }
      OnlyBadPlans(Apply(s, ev), evs[1..], t);
    }
  }

  lemma IdleAtCommit(s: System, ev: Event)
    requires Enabled(s, ev) && ev.a.Commit?
    ensures ev.e in s.engines && s.engines[ev.e].phase == Idle
  {
  }

  /** On a directory with fewer than 869 revisions, in particular on an empty one, exactly the
      plans whose evidence has dates that cannot be stored are unfit, and what the journal refuses
      are those and the saves that found the directory moved on or torn. */
  lemma RefusedExactlyForDates(owner: string, task: string, cells: seq<Cell>, evs: seq<Event>, s: System)
    requires Sound(cells, owner, task) && IsRun(Init(owner, task, cells), evs, s)
    requires |cells| + MAX_ENGINE_REVISIONS < NORMAL_LIMIT
    ensures s.unfit == BadPlans(evs) && s.refused == BadPlans(evs) + Conflicts(evs)
  {
    InitOk(owner, task, cells);
    CountsOfRun(Init(owner, task, cells), evs, s);
    OnlyBadPlans(Init(owner, task, cells), evs, s);
  }

  /** Which evidence that is: named legally, dated within the integers that are exact, but issued before
      the epoch or not expiring after it was issued. */
  lemma BadDatesExactly(evidence: Option<Evidence>)
    ensures BadDates(evidence) <==>
              && evidence.Some? && LegalId(evidence.value.evidenceId)
              && -9_007_199_254_740_991 <= evidence.value.issuedAt <= 9_007_199_254_740_991
              && -9_007_199_254_740_991 <= evidence.value.expiresAt <= 9_007_199_254_740_991
              && (evidence.value.issuedAt < 0 || evidence.value.expiresAt <= evidence.value.issuedAt)
    ensures !BadDates(evidence) ==>
              NormalizeEvidence(evidence) == None || EvidenceOk(NormalizeEvidence(evidence).value)
  {
    hide LegalId;
  }

  const EXPIRED_WHEN_ISSUED := Evidence("e0123456789abcdef0123456789abcde", 5, 5, "")

  lemma ExpiredIsKept()
    ensures BadDates(Some(EXPIRED_WHEN_ISSUED))
  {
    assert LegalId(EXPIRED_WHEN_ISSUED.evidenceId);
  }

  /** One such plan: evidence that expires when it is issued. */
  lemma ExpiredWhenIssued(owner: string, task: string, request: Request, e: EngineId)
    requires RequestOk(request)
    ensures var s := Init(owner, task, []);
            && Enabled(s, Event(e, Plan(request, Some(EXPIRED_WHEN_ISSUED))))
            && var t := Apply(s, Event(e, Plan(request, Some(EXPIRED_WHEN_ISSUED))));
               e in t.engines && t.engines[e].phase == Failed && t.refused == t.unfit == 1 && t.cells == []
  {
    hide Inv, BadDates, NormalizeEvidence, RequestOk, BeginSave, EvidenceOk, Good, History;
    var s := Init(owner, task, []);
    EmptyIsSound(owner, task);
    InitOk(owner, task, []);
    ExpiredIsKept();
    PlanOk(s, e, request, Some(EXPIRED_WHEN_ISSUED));
    PlanHolds(s, e, request, Some(EXPIRED_WHEN_ISSUED));
  }

  lemma EmptyIsSound(owner: string, task: string)
    ensures Sound([], owner, task)
  {
  }

  lemma PlanHolds(s: System, e: EngineId, request: Request, evidence: Option<Evidence>)
    requires Enabled(s, Event(e, Plan(request, evidence)))
    ensures e in Apply(s, Event(e, Plan(request, evidence))).engines
  {
    hide Good, MayFollow, NormalizeEvidence, RequestOk;
  }

  // ---------------------------------------------------------------- one engine by itself

  /** An engine alone on the directory, whatever has crashed or failed before, finds exactly the
      revisions it knows of, unless it is writing or has given up saving. */
  predicate KnowsAll(s: System, e: EngineId) {
    && (forall f :: f in s.engines ==> f == e)
    && (e in s.engines && s.engines[e].phase != Failed && !s.engines[e].phase.Writing? ==>
          !MovedOn(s.cells, s.engines[e].r.revision))
  }

  /** The blocks of an engine leave its revision number to the journal. */
  lemma BlocksKeepRevision(r: Record)
    ensures Limited(r).revision == r.revision
    ensures r.rounds != [] ==> Interrupted(r).revision == Started(r).revision == r.revision
    ensures RequestOk(r.request) && Reservation(r) != Overflow ==> forall id :: Committed(r, id).revision == r.revision
    ensures r.rounds != [] && Chars(r.rounds) <= MAX_VISIBLE ==> forall text :: Grown(r, text).revision == r.revision
  {
    hide RequestOk, Chars, Reservation, Spent, Held, Unknown;
  }

  lemma SettlingKeepsRevision(r: Record, usage: RawUsage, finish: Finish)
    requires r.rounds != [] && UsageOk(usage)
    ensures Noted(r, usage, finish).rounds != [] && Interrupted(Noted(r, usage, finish)).revision == r.revision
    ensures RequestOk(r.request) && SettledPrice(usage, r.request.route.costRates) != Overflow ==>
              Settled(r, usage, finish).revision == r.revision
  {
    hide RequestOk, UsageOk, SettledPrice, SettledStatus;
  }

  lemma SaveKnows(s: System, e: EngineId, r: Record, after: After, attempt: Option<AttemptId>)
    requires (forall f :: f in s.engines ==> f == e) && !MovedOn(s.cells, r.revision)
    ensures KnowsAll(BeginSave(s, e, r, after, attempt), e)
  {
    hide Good, MayFollow, MovedOn;
  }

  lemma AttemptKnows(s: System, e: EngineId, r: Record, after: After, stopped: After, attempt: Option<AttemptId>)
    requires (forall f :: f in s.engines ==> f == e) && !MovedOn(s.cells, r.revision) && r.rounds != []
    ensures KnowsAll(SaveOrInterrupt(s, e, r, after, stopped, attempt), e)
  {
    hide BeginSave, KnowsAll, MovedOn;
    assert Interrupted(r).revision == r.revision;
    hide Interrupted;
    SaveKnows(s, e, r, after, attempt);
    SaveKnows(s, e, Interrupted(r), stopped, attempt);
  }

  lemma ActKnows(s: System, e: EngineId, en: Instance, a: Action)
    requires KnowsAll(s, e) && e in s.engines && s.engines[e] == en && CanAct(s, en, a) && Acting(en.phase)
    requires a.Recover? || a.Limit? || a.Commit? || a.Prepared? || a.Fail? || a.Chunk? || a.Finished?
    ensures KnowsAll(Act(s, e, en, a), e)
  {
    BlocksKeepRevision(en.r);
    if a.Finished? { SettlingKeepsRevision(en.r, a.usage, a.finish); }
    hide MayFollow, Reservation, SettledPrice, Interrupted, Limited, Committed, Started, Grown, Noted, Settled,
      Proposal, Good, UsageOk, BeginSave, SaveOrInterrupt, MovedOn;
    match a
    case Recover => SaveKnows(s, e, Interrupted(en.r), ToIdle, None);
    case Limit => SaveKnows(s, e, Limited(en.r), ToIdle, None);
    case Commit(id) =>
      if Reservation(en.r) != Overflow {
        CommittedHasRound(en.r, id);
        AttemptKnows(s, e, Committed(en.r, id), ToPreparing, Uncommitted, Some(id));
      }
    case Prepared =>
      StartedHasRound(en.r);
      AttemptKnows(s, e, Started(en.r), ToReady, ToIdle, en.attempt);
    case Fail => SaveKnows(s, e, Interrupted(en.r), ToIdle, en.attempt);
    case Chunk(text) =>
      var over := |text| > MAX_VISIBLE - Chars(en.r.rounds);
      GrownHasRound(en.r, text);
      AttemptKnows(s, e, Grown(en.r, text), ToStreaming(over), ToIdle, en.attempt);
    case Finished(usage, finish) =>
      if SettledPrice(usage, en.r.request.route.costRates) == Overflow {
        SaveKnows(s, e, Interrupted(Noted(en.r, usage, finish)), ToIdle, en.attempt);
      } else {
        SaveKnows(s, e, Settled(en.r, usage, finish), ToIdle, en.attempt);
      }
  }

  lemma RestKnows(s: System, e: EngineId, a: Action)
    requires KnowsAll(s, e) && Enabled(s, Event(e, a))
    requires a.Crash? || a.Open? || a.Create? || a.FillError? || a.SaveError? || a.Conflict?
    ensures KnowsAll(Apply(s, Event(e, a)), e)
  {
    hide BeginSave, SaveOrInterrupt, MayFollow, Proposal, Records, Resume, MovedOn;
  }

  /** What was just written is the last revision, and the engine takes it over. */
  lemma FillKnows(s: System, e: EngineId)
    requires Inv(s) && KnowsAll(s, e) && Enabled(s, Event(e, Fill))
    ensures KnowsAll(Apply(s, Event(e, Fill)), e)
  {
    FilledCells(s, e);
    WriterIsNext(s, e);
    ProposalKeeps(s.engines[e].r);
    hide Inv, BeginSave, SaveOrInterrupt, MayFollow, Proposal, Records, Resume;
    var t := Apply(s, Event(e, Fill));
    FullCount(t.cells);
  }

  lemma FullCount(cells: seq<Cell>)
    requires Readable(cells)
    ensures Shape(cells) && |Durable(cells)| == |cells|
  {
  }

  lemma LoadKnows(s: System, e: EngineId)
    requires Inv(s) && KnowsAll(s, e) && Enabled(s, Event(e, Load))
    ensures KnowsAll(Apply(s, Event(e, Load)), e)
  {
    DurableIsAll(s.cells);
    DurableRevision(s, |s.cells| - 1);
    hide Inv, Good, Early;
  }

  lemma PlanKnows(s: System, e: EngineId, request: Request, evidence: Option<Evidence>)
    requires KnowsAll(s, e) && Enabled(s, Event(e, Plan(request, evidence)))
    ensures KnowsAll(Apply(s, Event(e, Plan(request, evidence))), e)
  {
    hide BeginSave, RequestOk, NormalizeEvidence;
    SaveKnows(s, e, NewTask(s.owner, s.task, request, NormalizeEvidence(evidence)), ToIdle, None);
  }

  lemma KnowsStep(s: System, ev: Event)
    requires Inv(s) && KnowsAll(s, ev.e) && Enabled(s, ev)
    ensures KnowsAll(Apply(s, ev), ev.e) && !ev.a.Conflict?
  {
    if ev.a.Plan? {
      PlanKnows(s, ev.e, ev.a.request, ev.a.evidence);
    } else if ev.a.Load? {
      LoadKnows(s, ev.e);
    } else if ev.a.Fill? {
      FillKnows(s, ev.e);
    } else if ev.a.Crash? || ev.a.Open? || ev.a.Create? || ev.a.FillError? || ev.a.SaveError? || ev.a.Conflict? {
      RestKnows(s, ev.e, ev.a);
    } else {
      hide Inv, KnowsAll, RequestOk, UsageOk, RoomToRun, Chars;
      ActKnows(s, ev.e, s.engines[ev.e], ev.a);
    }
  }

  lemma {:induction false} KnowsRun(s: System, evs: seq<Event>, t: System, e: EngineId)
    requires Inv(s) && KnowsAll(s, e) && IsRun(s, evs, t) && forall i :: 0 <= i < |evs| ==> evs[i].e == e
    ensures Conflicts(evs) == 0
    decreases |evs|
  {
    hide Inv, Enabled, Apply, KnowsAll;
    if evs == [] {
    } else {
      StepOk(s, evs[0]);
      KnowsStep(s, evs[0]);
      KnowsRun(Apply(s, evs[0]), evs[1..], t, e);
    }
  }

  /** One engine by itself, through any crashes, failed writes and reloads, never finds the
      directory moved on: what the journal refuses are plans with unstorable dates and rounds begun
      at revision 1023. */
  lemma OneEngineNeverConflicts(owner: string, task: string, cells: seq<Cell>, evs: seq<Event>, s: System, e: EngineId)
    requires Sound(cells, owner, task) && IsRun(Init(owner, task, cells), evs, s)
    requires forall i :: 0 <= i < |evs| ==> evs[i].e == e
    ensures Conflicts(evs) == 0 && s.refused <= s.unfit
  {
    hide Inv, IsRun;
    InitOk(owner, task, cells);
    KnowsRun(Init(owner, task, cells), evs, s, e);
    EngineRefinesJournal(owner, task, cells, evs, s);
  }

  // ---------------------------------------------------------------- what is durable stays

  lemma {:induction false} DurableOnlyGrows(s: System, evs: seq<Event>, t: System)
    requires Inv(s) && IsRun(s, evs, t)
    ensures Shape(s.cells) && Shape(t.cells) && Durable(s.cells) <= Durable(t.cells)
    decreases |evs|
  {
    hide Inv, Enabled, Apply, Durable;
    InvDurable(s);
    if evs == [] {
    } else {
      StepOk(s, evs[0]);
      InvDurable(Apply(s, evs[0]));
      DurableStep(s, evs[0]);
      DurableOnlyGrows(Apply(s, evs[0]), evs[1..], t);
    }
  }

  /** An event writes nothing, adds a torn file, or completes the torn one. */
  lemma CellsStep(s: System, ev: Event)
    requires Enabled(s, ev)
    ensures var t := Apply(s, ev);
            || t.cells == s.cells
            || (ev.a.Create? && Readable(s.cells) && t.cells == s.cells + [Torn])
            || ((ev.a.Fill? || ev.a.FillError?) && ev.e in s.engines && s.engines[ev.e].phase.Writing? &&
                0 <= s.engines[ev.e].r.revision < |s.cells| &&
                t.cells == s.cells[s.engines[ev.e].r.revision := Full(Proposal(s.engines[ev.e].r))])
  {
    hide BeginSave, SaveOrInterrupt, MayFollow, Reservation, SettledPrice, Interrupted, Limited, Committed, Started,
      Grown, Noted, Settled, Proposal, Records, NewTask, Resume, NormalizeEvidence, UsageOk, RequestOk, RoomToRun,
      Chars, Readable;
  }

  lemma DurableStep(s: System, ev: Event)
    requires Inv(s) && Enabled(s, ev)
    ensures Shape(s.cells) && Shape(Apply(s, ev).cells) && Durable(s.cells) <= Durable(Apply(s, ev).cells)
  {
    hide Inv, Durable, Shape, Apply, Enabled, DurableOk, Proposal;
    CellsStep(s, ev);
    InvDurable(s);
    if Readable(s.cells) {
      TornAdds(s.cells);
    }
    if ev.e in s.engines && s.engines[ev.e].phase.Writing? {
      FilledCells(s, ev.e);
    }
  }

  lemma TornAdds(cells: seq<Cell>)
    requires Readable(cells)
    ensures Shape(cells) && Shape(cells + [Torn]) && Durable(cells + [Torn]) == Durable(cells)
  {
    assert (cells + [Torn])[..|cells|] == cells;
  }

  // ---------------------------------------------------------------- at-most-once dispatch

  lemma {:induction false} DistinctInside(streams: seq<AttemptId>, names: seq<AttemptId>)
    requires forall i, j :: 0 <= i < j < |streams| ==> streams[i] != streams[j]
    requires forall i :: 0 <= i < |streams| ==> streams[i] in names
    ensures |streams| <= |names|
  {
    if streams == [] {
    } else {
      var k :| 0 <= k < |names| && names[k] == streams[0];
      var rest := names[..k] + names[k + 1..];
      forall i | 0 <= i < |streams| - 1 ensures streams[1..][i] in rest {
        var m :| 0 <= m < |names| && names[m] == streams[i + 1];
        assert rest[if m < k then m else m - 1] == streams[i + 1];
      }
      DistinctInside(streams[1..], rest);
    }
  }

  /** At-most-once dispatch: over any run, with any number of engines, crashes and failed or
      torn writes, no attempt's stream is opened twice, all streams ever opened are rounds of
      the durable task, and there are never more of them than the request's round limit. */
  lemma AtMostOnce(owner: string, task: string, cells: seq<Cell>, evs: seq<Event>, s: System)
    requires Sound(cells, owner, task) && IsRun(Init(owner, task, cells), evs, s)
    ensures forall i, j :: 0 <= i < j < |s.streams| ==> s.streams[i] != s.streams[j]
    ensures Shape(s.cells)
    ensures s.streams != [] ==>
              var d := Durable(s.cells);
              && d != [] && |s.streams| <= |d[|d| - 1].rounds| <= d[|d| - 1].request.maxRounds <= 8
              && forall i :: 0 <= i < |s.streams| ==> HasAttempt(d[|d| - 1], s.streams[i])
  {
    InitOk(owner, task, cells);
    RunOk(Init(owner, task, cells), evs, s);
    if s.streams != [] {
      StreamCount(s);
    }
  }

  lemma StreamCount(s: System)
    requires Inv(s) && s.streams != []
    ensures var d := Durable(s.cells);
            && d != [] && |s.streams| <= |d[|d| - 1].rounds| <= d[|d| - 1].request.maxRounds <= 8
            && forall i :: 0 <= i < |s.streams| ==> HasAttempt(d[|d| - 1], s.streams[i])
  {
    var d := Durable(s.cells);
    assert StreamsOk(d, s.streams);
    assert AcceptedAt(d, s.owner, s.task, |d| - 1);
    hide Inv, MayFollow, RoundsOk;
    var last := d[|d| - 1];
    var names := seq(|last.rounds|, i requires 0 <= i < |last.rounds| => last.rounds[i].attemptId);
    forall i | 0 <= i < |s.streams| ensures s.streams[i] in names {
      assert HasAttempt(last, s.streams[i]);
      var k :| 0 <= k < |last.rounds| && last.rounds[k].attemptId == s.streams[i];
      assert names[k] == s.streams[i];
    }
    DistinctInside(s.streams, names);
  }

  /** No two streams are open at the same time, in whichever engines. */
  lemma OneOpenStream(owner: string, task: string, cells: seq<Cell>, evs: seq<Event>, s: System, e: EngineId,
      f: EngineId)
    requires Sound(cells, owner, task) && IsRun(Init(owner, task, cells), evs, s)
    requires e in s.engines && f in s.engines && IsOpen(s.engines[e]) && IsOpen(s.engines[f])
    ensures e == f
  {
    InitOk(owner, task, cells);
    RunOk(Init(owner, task, cells), evs, s);
    if e != f {
      if s.engines[e].r.revision <= s.engines[f].r.revision {
        NotBothOpen(s, e, f);
      } else {
        NotBothOpen(s, f, e);
      }
    }
  }

  lemma OpenFacts(s: System, e: EngineId)
    requires Inv(s) && e in s.engines && IsOpen(s.engines[e])
    ensures var en, d := s.engines[e], Durable(s.cells);
            && 0 < en.r.revision <= |d| && TailOk(d, en) && d[en.r.revision - 1].status == Running
            && d[en.r.revision - 1].rounds != []
            && en.attempt == Some(Last(d[en.r.revision - 1].rounds).attemptId)
  {
    hide Inv, Good, Early, IdsIn, MayFollow;
    InstanceFacts(s, e);
    var en, d := s.engines[e], Durable(s.cells);
    if !en.phase.Streaming? {
      StillNamed(d[en.r.revision - 1], en.r);
    }
  }

  lemma StillNamed(base: Record, r: Record)
    requires MayFollow(Some(base), Proposal(r)) && r.status == Running && base.status == Running && r.rounds != []
    ensures base.rounds != [] && Last(base.rounds).attemptId == Last(r.rounds).attemptId
  {
    assert RoundMayFollow(base.rounds[|base.rounds| - 1], r.rounds[|base.rounds| - 1]);
  }

  lemma NotBothOpen(s: System, e: EngineId, f: EngineId)
    requires Inv(s) && e in s.engines && f in s.engines && e != f && IsOpen(s.engines[e])
    requires s.engines[e].r.revision <= s.engines[f].r.revision
    ensures !IsOpen(s.engines[f])
  {
    hide Inv;
    AreApart(s, e, f);
    OpenFacts(s, e);
    if IsOpen(s.engines[f]) {
      OpenFacts(s, f);
      assert false;
    }
  }

  lemma DurableBeforeOpen(s: System, e: EngineId) returns (i: nat, j: nat)
    requires Inv(s) && Enabled(s, Event(e, Open))
    ensures i < j < |Durable(s.cells)|
    ensures var d, a := Durable(s.cells), s.engines[e].attempt.value;
            && d[i].status == AttemptCommitted && d[i].rounds != [] && Last(d[i].rounds).attemptId == a
            && d[j].status == Running && d[j].rounds != [] && Last(d[j].rounds).attemptId == a
            && a !in s.streams
  {
    hide Inv, Accepts, MayFollow, Early, StreamsOk, History, Ahead, PendingOk, IdsIn;
    InvDurable(s);
    var base := BaseFacts(s, e);
    j := s.engines[e].r.revision - 1;
    i := CommittedEarlier(Durable(s.cells), s.owner, s.task, j, |base.rounds| - 1);
  }

  /** A stream is opened only after two durable revisions: one that commits the attempt and a
      later one that marks it running; and no stream of that attempt was opened before. */
  lemma OpenedAfterCommit(owner: string, task: string, cells: seq<Cell>, evs: seq<Event>, s: System, e: EngineId)
    returns (i: nat, j: nat)
    requires Sound(cells, owner, task) && IsRun(Init(owner, task, cells), evs, s) && Enabled(s, Event(e, Open))
    ensures Shape(s.cells) && i < j < |Durable(s.cells)|
    ensures var d, a := Durable(s.cells), s.engines[e].attempt.value;
            && d[i].status == AttemptCommitted && d[i].rounds != [] && Last(d[i].rounds).attemptId == a
            && d[j].status == Running && d[j].rounds != [] && Last(d[j].rounds).attemptId == a
            && a !in s.streams
  {
    hide Inv, IsRun;
    InitOk(owner, task, cells);
    RunOk(Init(owner, task, cells), evs, s);
    InvDurable(s);
    i, j := DurableBeforeOpen(s, e);
  }
}
