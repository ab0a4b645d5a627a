/** What holds in every reachable state of several engines sharing one task directory. */
module EngineSafety {
  import opened Wrappers
  import opened Text
  import opened Journal
  import opened Histories
  import opened Engine
  import opened EngineSystem

  // ---------------------------------------------------------------- how many revisions a task can reach

  const CHECKPOINT := 2048
  const MAX_ENGINE_REVISIONS := 154

  /** Revisions a settled round accounts for: commit, start, settle, and its checkpoints. */
  function Weight(rounds: seq<Round>): nat {
    if rounds == [] then 0
    else Weight(rounds[..|rounds| - 1]) + 3 + |Last(rounds).visibleText| / CHECKPOINT
  }

  /** The highest revision number at which the engine can write this record. */
  function Cap(r: Record): nat {
    match r.status
    case Planned => 1
    case AttemptCommitted => if r.rounds == [] then 0 else 2 + Weight(r.rounds[..|r.rounds| - 1])
    case Running =>
      if r.rounds == [] then 0
      else 3 + Weight(r.rounds[..|r.rounds| - 1]) + |Last(r.rounds).visibleText| / CHECKPOINT
    case PartialLimit => 2 + Weight(r.rounds)
    case _ => 1 + Weight(r.rounds)
  }

  /** Written in time, given how many revisions were there before any of these engines. */
  predicate Early(r: Record, found: nat) { r.revision <= Cap(r) + found }

  lemma {:induction false} WeightBound(rounds: seq<Round>)
    ensures Weight(rounds) * CHECKPOINT <= 3 * CHECKPOINT * |rounds| + Chars(rounds)
  {
    if rounds == [] {
    } else {
      WeightBound(rounds[..|rounds| - 1]);
    }
  }

  lemma WeightOfPrior(rounds: seq<Round>)
    requires rounds != []
    ensures Weight(rounds) == Weight(rounds[..|rounds| - 1]) + 3 + |Last(rounds).visibleText| / CHECKPOINT
  {
  }

  /** A task the engines wrote alone has at most 154 revisions: two for planning and giving
      up, three for each of eight rounds, and one for each full 2048 code units of at most
      262144.  Revisions found in the directory come on top. */
  lemma CapBound(r: Record, found: nat)
    requires Good(r) && Early(r, found)
    ensures r.revision <= MAX_ENGINE_REVISIONS + found
  {
    WeightBound(r.rounds);
  }

  /** Earlier rounds of an accepted record are settled, so a successor repeats them. */
  lemma EarlierRoundsRepeat(base: Record, p: Record)
    requires Good(base) && MayFollow(Some(base), p)
    ensures |base.rounds| <= |p.rounds|
    ensures forall i :: 0 <= i < |base.rounds| - 1 ==> p.rounds[i] == base.rounds[i]
    ensures IsSafe(base.status) ==> p.rounds[..|base.rounds|] == base.rounds
    ensures base.rounds != [] ==>
              && Last(base.rounds).visibleText <= p.rounds[|base.rounds| - 1].visibleText
              && Last(base.rounds).attemptId == p.rounds[|base.rounds| - 1].attemptId
  {
    hide RequestOk, EvidenceOk, HoldFor, SettledPrice, UsageOk, Chars;
    forall i | 0 <= i < |base.rounds|
      ensures i < |base.rounds| - 1 || IsSafe(base.status) ==> p.rounds[i] == base.rounds[i]
    {
      assert RoundOk(base.request, base.rounds, i) && RoundMayFollow(base.rounds[i], p.rounds[i]);
    }
  }

  /** What follows a record written in time is in time, a checkpoint provided that it brings
      2048 more code units. */
  lemma EarlyNext(base: Record, p: Record, found: nat)
    requires Good(base) && Good(p) && MayFollow(Some(base), p) && Early(base, found)
    requires base.status == Running && p.status == Running ==>
               base.rounds != [] && p.rounds != [] &&
               |Last(base.rounds).visibleText| + CHECKPOINT <= |Last(p.rounds).visibleText|
    ensures Early(p, found)
  {
    EarlierRoundsRepeat(base, p);
    hide RequestOk, EvidenceOk, RoundsOk, RoundMayFollow, Spent, Held, Unknown;
    var n := |base.rounds|;
    if IsInFlight(base.status) {
      assert n > 0 && |p.rounds| == n;
      assert p.rounds[..n - 1] == base.rounds[..n - 1];
      WeightOfPrior(p.rounds);
    } else {
      assert p.status == AttemptCommitted ==> p.rounds[..|p.rounds| - 1] == base.rounds;
      assert p.status == PartialLimit ==> p.rounds == base.rounds;
    }
  }

  // ---------------------------------------------------------------- invariant

  predicate IdsIn(rounds: seq<Round>, used: set<AttemptId>) {
    forall i :: 0 <= i < |rounds| ==> rounds[i].attemptId in used
  }

  /** The save an engine has under way, and what it may be a save of. */
  predicate PendingOk(base: Record, after: After, r: Record, attempt: Option<AttemptId>) {
    && Fits(base, r)
    && (if attempt == None then
          && after == ToIdle
          && ((r.status == InterruptedUncertain && IsInFlight(base.status))
               || (r.status == PartialLimit && IsSafe(base.status)))
        else
          && r.rounds != [] && Last(r.rounds).attemptId == attempt.value
          && match after
             case ToPreparing =>
               && r.status == AttemptCommitted && IsSafe(base.status) && Last(r.rounds).visibleText == []
               && base.revision < NORMAL_LIMIT
             case ToReady =>
               && r.status == Running && base.status == AttemptCommitted && Last(r.rounds).visibleText == []
               && base.revision < NORMAL_LIMIT
             case ToStreaming(_) =>
               && r.status == Running && base.status == Running && base.revision < NORMAL_LIMIT && base.rounds != []
               && |Last(base.rounds).visibleText| + CHECKPOINT <= |Last(r.rounds).visibleText|
             case ToIdle => r.status !in {AttemptCommitted, Running} && IsInFlight(base.status)
             case Uncommitted => false)
  }

  /** At revision 1023 the commit of a round is stopped and the round's interruption goes to the
      journal instead: a good record, but none that may follow. */
  predicate StrayOk(base: Record, r: Record, attempt: Option<AttemptId>) {
    && base.revision == NORMAL_LIMIT && Good(Proposal(r)) && !MayFollow(Some(base), Proposal(r))
    && IsSafe(base.status) && attempt.Some?
  }

  predicate PhaseOk(base: Record, en: Instance) {
    match en.phase
    case Failed => true
    case Idle => en.r == base && en.attempt == None
    case Preparing =>
      en.r == base && base.revision < EMERGENCY_LIMIT && base.status == AttemptCommitted && base.rounds != []
        && Last(base.rounds).visibleText == [] &&
      en.attempt == Some(Last(base.rounds).attemptId)
    case Ready =>
      en.r == base && base.revision < EMERGENCY_LIMIT && base.status == Running && base.rounds != []
        && Last(base.rounds).visibleText == [] &&
      en.attempt == Some(Last(base.rounds).attemptId)
    case Streaming(checkpoint, _) =>
      && base.status == Running && Ahead(base, en.r) && en.attempt == Some(Last(base.rounds).attemptId)
      && checkpoint == |Last(base.rounds).visibleText| && base.revision < EMERGENCY_LIMIT
    case Saving(after) =>
      if after == Uncommitted then StrayOk(base, en.r, en.attempt) else PendingOk(base, after, en.r, en.attempt)
    case Writing(after) => PendingOk(base, after, en.r, en.attempt)
  }

  predicate FirstSaveOk(en: Instance) {
    && (en.phase == Saving(ToIdle) || en.phase == Writing(ToIdle)) && en.attempt == None
    && Good(Proposal(en.r)) && MayFollow(None, Proposal(en.r))
  }

  /** Until an engine that is inside an attempt saves again, nothing but the record of its
      interruption can have been written after its own last revision. */
  predicate TailOk(d: seq<Record>, en: Instance)
    requires 0 < en.r.revision <= |d|
  {
    en.attempt.Some? && IsInFlight(d[en.r.revision - 1].status) ==>
      |d| == en.r.revision || (|d| == en.r.revision + 1 && d[en.r.revision].status == InterruptedUncertain)
  }

  predicate BeforeStream(phase: Phase) {
    match phase
    case Saving(after) => after == ToPreparing || after == ToReady
    case Writing(after) => after == ToPreparing || after == ToReady
    case _ => phase == Preparing || phase == Ready
  }

  predicate IsOpen(en: Instance) {
    match en.phase
    case Streaming(_, _) => true
    case Saving(after) => after.ToStreaming?
    case Writing(after) => after.ToStreaming?
    case _ => false
  }

  predicate InstanceOk(d: seq<Record>, used: set<AttemptId>, streams: seq<AttemptId>, en: Instance) {
    if en.phase == Failed then en.attempt == None else
      && 0 <= en.r.revision <= |d|
      && IdsIn(en.r.rounds, used)
      && (if en.r.revision == 0 then FirstSaveOk(en)
          else PhaseOk(d[en.r.revision - 1], en) && TailOk(d, en))
      && (en.attempt.Some? ==> en.attempt.value in used)
      && (BeforeStream(en.phase) && en.attempt.Some? ==> en.attempt.value !in streams)
  }

  /** Two engines are never inside the same attempt, nor writing at the same time. */
  predicate Apart(a: Instance, b: Instance) {
    && (a.attempt.Some? ==> a.attempt != b.attempt)
    && !(a.phase.Writing? && b.phase.Writing?)
  }

  predicate Shape(cells: seq<Cell>) {
    forall i :: 0 <= i < |cells| - 1 ==> cells[i].Full?
  }

  /** The readable revisions: all of them, or all but a torn last one. */
  function Durable(cells: seq<Cell>): seq<Record>
    requires Shape(cells)
  {
    if cells != [] && cells[|cells| - 1] == Torn then Records(cells[..|cells| - 1]) else Records(cells)
  }

  predicate StreamsOk(d: seq<Record>, streams: seq<AttemptId>) {
    && (forall i, j :: 0 <= i < j < |streams| ==> streams[i] != streams[j])
    && (streams != [] ==> d != [])
    && (forall i :: 0 <= i < |streams| ==> HasAttempt(d[|d| - 1], streams[i]))
  }

  predicate HasAttempt(r: Record, a: AttemptId) {
    exists k :: 0 <= k < |r.rounds| && r.rounds[k].attemptId == a
  }

  predicate DurableOk(s: System, d: seq<Record>) {
    && History(d, s.owner, s.task)
    && (forall i :: 0 <= i < |d| ==> Early(d[i], s.found))
    && (d != [] ==> IdsIn(d[|d| - 1].rounds, s.used))
    && StreamsOk(d, s.streams)
  }

  predicate InstancesOk(s: System, d: seq<Record>) {
    forall e :: e in s.engines ==> InstanceOk(d, s.used, s.streams, s.engines[e])
  }

  predicate PairsApart(engines: map<EngineId, Instance>) {
    forall e, f :: e in engines && f in engines && e != f ==> Apart(engines[e], engines[f])
  }

  /** The file an engine is writing is the torn last one, and its own next revision. */
  predicate WritersOk(cells: seq<Cell>, engines: map<EngineId, Instance>) {
    forall e :: e in engines && engines[e].phase.Writing? ==>
      |cells| == engines[e].r.revision + 1 > 0 && cells[|cells| - 1] == Torn
  }

  predicate NamesOk(s: System) {
    forall e :: e in s.engines ==> s.engines[e].r.owner == s.owner && s.engines[e].r.task == s.task
  }

  predicate Inv(s: System) {
    && |s.cells| <= MAX_REVISIONS && |s.cells| <= MAX_ENGINE_REVISIONS + s.found
    && NamesOk(s)
    && Shape(s.cells)
    && DurableOk(s, Durable(s.cells))
    && InstancesOk(s, Durable(s.cells))
    && PairsApart(s.engines)
    && WritersOk(s.cells, s.engines)
  }

  lemma InitOk(owner: string, task: string, cells: seq<Cell>)
    requires Sound(cells, owner, task)
    ensures Inv(Init(owner, task, cells))
  {
    hide Accepts, MayFollow;
    DurableIsAll(cells);
    var d := Records(cells);
    forall i | 0 <= i < |d| ensures Early(d[i], |cells|) {
      assert AcceptedAt(d, owner, task, i);
      AcceptedRevision(d[i], owner, task, i + 1);
    }
  }

  lemma AcceptedRevision(r: Record, owner: string, task: string, revision: int)
    requires Accepts(r, owner, task, revision)
    ensures r.revision == revision
  {
  }

  lemma DurableIsAll(cells: seq<Cell>)
    requires Readable(cells)
    ensures Shape(cells) && Durable(cells) == Records(cells)
  {
  }

  // ---------------------------------------------------------------- what the journal may refuse

  /** Events that pass a record to the journal that it may not accept: planning with evidence
      whose dates cannot be stored, and beginning a round at revision 1023. */
  predicate BeginsUnfit(s: System, ev: Event) {
    match ev.a
    case Plan(_, evidence) => BadDates(evidence)
    case Commit(_) => ev.e in s.engines && s.engines[ev.e].r.revision == NORMAL_LIMIT
    case _ => false
  }

  /** Events at which the journal refuses a record: that planning itself, the moment the
      interruption of a round that was never committed would get its file, and a save that finds
      the directory moved on or torn. */
  predicate IsRefusal(s: System, ev: Event) {
    match ev.a
    case Plan(_, evidence) => BadDates(evidence)
    case Create => ev.e in s.engines && s.engines[ev.e].phase == Saving(Uncommitted)
    case Conflict => true
    case _ => false
  }

  predicate SameCounts(s: System, t: System) { t.unfit == s.unfit && t.refused == s.refused }

  // ---------------------------------------------------------------- events that leave the directory alone

  lemma InstanceFacts(s: System, e: EngineId)
    requires Inv(s) && e in s.engines
    ensures Shape(s.cells) && InstanceOk(Durable(s.cells), s.used, s.streams, s.engines[e])
  {
    hide DurableOk, InstanceOk, PairsApart, WritersOk;
  }

  /** The engine is not waiting for the journal. */
  predicate Acting(phase: Phase) { phase != Failed && !phase.Saving? && !phase.Writing? }

  /** What is known of each durable revision. */
  lemma DurableRevision(s: System, k: nat)
    requires Inv(s) && k < |Durable(s.cells)|
    ensures var base := Durable(s.cells)[k];
            && Good(base) && Early(base, s.found) && base.owner == s.owner && base.task == s.task
            && base.revision == k + 1 <= EMERGENCY_LIMIT
    ensures k < |s.cells| && s.cells[k] == Full(Durable(s.cells)[k])
  {
    var d := Durable(s.cells);
    assert AcceptedAt(d, s.owner, s.task, k) && Early(d[k], s.found);
    hide Inv, MayFollow, RoundsOk, RequestOk, StatusOk, EvidenceOk;
    assert Good(d[k]);
  }

  lemma BaseFacts(s: System, e: EngineId) returns (base: Record)
    requires Inv(s) && e in s.engines && Acting(s.engines[e].phase)
    ensures 0 < s.engines[e].r.revision <= |Durable(s.cells)| <= |s.cells|
    ensures base == Durable(s.cells)[s.engines[e].r.revision - 1]
    ensures s.cells[s.engines[e].r.revision - 1] == Full(base)
    ensures base.owner == s.owner && base.task == s.task
    ensures Good(base) && Early(base, s.found) && base.revision == s.engines[e].r.revision <= EMERGENCY_LIMIT
    ensures Shape(s.cells) && InstanceOk(Durable(s.cells), s.used, s.streams, s.engines[e])
    ensures PhaseOk(base, s.engines[e])
  {
    hide Inv, PhaseOk, IdsIn, TailOk, Good, Early, Durable;
    InstanceFacts(s, e);
    base := Durable(s.cells)[s.engines[e].r.revision - 1];
    DurableRevision(s, s.engines[e].r.revision - 1);
    DurableRevision(s, |Durable(s.cells)| - 1);
  }

  /** One engine changes its own state; nothing shared changes except that names get used. */
  lemma LocalStep(s: System, t: System, e: EngineId, en: Instance)
    requires Inv(s) && t.owner == s.owner && t.task == s.task && t.found == s.found
    requires t.cells == s.cells && t.streams == s.streams && s.used <= t.used && t.engines == s.engines[e := en]
    requires InstanceOk(Durable(s.cells), t.used, t.streams, en)
    requires en.r.owner == s.owner && en.r.task == s.task
    requires !en.phase.Writing? || (e in s.engines && s.engines[e].phase.Writing? && en.r == s.engines[e].r)
    requires en.attempt.Some? ==> en.attempt.value !in s.used || (e in s.engines && en.attempt == s.engines[e].attempt)
    ensures Inv(t)
  {
    hide DurableOk, InstanceOk, Shape, PairsApart;
    DurableLocal(s, t, Durable(s.cells));
    PairsLocal(s, e, en);
    InstancesLocal(s, t, e, en);
    hide InstancesOk;
  }

  lemma InstancesLocal(s: System, t: System, e: EngineId, en: Instance)
    requires Shape(s.cells) && InstancesOk(s, Durable(s.cells)) && t.engines == s.engines[e := en]
    requires t.streams == s.streams && s.used <= t.used && InstanceOk(Durable(s.cells), t.used, t.streams, en)
    ensures InstancesOk(t, Durable(s.cells))
  {
    hide InstanceOk, Shape, Durable;
    forall f | f in t.engines ensures InstanceOk(Durable(s.cells), t.used, t.streams, t.engines[f]) {
      if f != e {
        NamesOnlyGrow(Durable(s.cells), s.used, t.used, s.streams, s.engines[f]);
      }
    }
  }

  lemma PairsLocal(s: System, e: EngineId, en: Instance)
    requires Inv(s)
    requires !en.phase.Writing? || (e in s.engines && s.engines[e].phase.Writing?)
    requires en.attempt.Some? ==> en.attempt.value !in s.used || (e in s.engines && en.attempt == s.engines[e].attempt)
    ensures PairsApart(s.engines[e := en])
  {
    hide DurableOk, InstanceOk, Shape, WritersOk;
    forall f | f in s.engines && f != e ensures Apart(en, s.engines[f]) && Apart(s.engines[f], en) {
      NamesOnlyGrow(Durable(s.cells), s.used, s.used, s.streams, s.engines[f]);
      if e in s.engines {
        assert Apart(s.engines[e], s.engines[f]) && Apart(s.engines[f], s.engines[e]);
      }
    }
  }

  lemma NamesOnlyGrow(d: seq<Record>, used: set<AttemptId>, more: set<AttemptId>, streams: seq<AttemptId>, en: Instance)
    requires InstanceOk(d, used, streams, en) && used <= more
    ensures InstanceOk(d, more, streams, en) && (en.attempt.Some? ==> en.attempt.value in used)
  {
    hide PhaseOk, FirstSaveOk;
  }

  lemma DurableLocal(s: System, t: System, d: seq<Record>)
    requires DurableOk(s, d) && t.owner == s.owner && t.task == s.task && t.streams == s.streams && s.used <= t.used
    requires t.found == s.found
    ensures DurableOk(t, d)
  {
    hide History, Early, StreamsOk;
  }

  /** A save of an acceptable proposal gets past every check made before its first wait, and
      is fit to be written. */
  lemma SaveStep(s: System, e: EngineId, base: Record, r: Record, after: After,
                 attempt: Option<AttemptId>, used: set<AttemptId>)
    requires Inv(s) && e in s.engines && Acting(s.engines[e].phase) && 0 < s.engines[e].r.revision <= |Durable(s.cells)|
    requires base == Durable(s.cells)[s.engines[e].r.revision - 1] && r.revision == base.revision < EMERGENCY_LIMIT
    requires r.owner == base.owner && r.task == base.task
    requires PendingOk(base, after, r, attempt) && s.used <= used && IdsIn(r.rounds, used)
    requires attempt.Some? ==> attempt.value in used &&
                               (attempt.value !in s.used || attempt == s.engines[e].attempt)
    requires (after == ToPreparing || after == ToReady) && attempt.Some? ==> attempt.value !in s.streams
    requires attempt.Some? && IsInFlight(base.status) ==> attempt == s.engines[e].attempt
    ensures var t := BeginSave(s, e, r, after, attempt).(used := used);
            Inv(t) && t.unfit == s.unfit && t.refused == s.refused
              && t.engines == s.engines[e := Instance(Saving(after), r, attempt)]
  {
    hide Inv, Good, MayFollow, PendingOk, IdsIn, Ahead;
    var b := BaseFacts(s, e);
    var en := Instance(Saving(after), r, attempt);
    PendingFits(base, after, r, attempt);
    LocalStep(s, BeginSave(s, e, r, after, attempt).(used := used), e, en);
  }

  lemma PendingFits(base: Record, after: After, r: Record, attempt: Option<AttemptId>)
    requires PendingOk(base, after, r, attempt)
    ensures Fits(base, r) && after != Uncommitted
  {
    hide Accepts, MayFollow;
  }

  lemma AheadOfItself(base: Record)
    requires Good(base) && IsInFlight(base.status)
    ensures Ahead(base, base)
  {
    InFlightRound(base);
    hide Accepts;
    assert base.rounds == base.rounds[..|base.rounds| - 1] + [Last(base.rounds)];
  }

  /** The part of an interrupted, started, checkpointed or settled record that the attempt
      bookkeeping looks at. */
  lemma SameAttempt(base: Record, r: Record, v: Round, status: Status, used: set<AttemptId>)
    requires Ahead(base, r) && v.attemptId == Last(base.rounds).attemptId
    requires IdsIn(r.rounds, used)
    ensures IdsIn(WithLast(r, v, status).rounds, used)
    ensures Last(WithLast(r, v, status).rounds) == v
    ensures Proposal(WithLast(r, v, status)).rounds[..|base.rounds| - 1] == base.rounds[..|base.rounds| - 1]
  {
    assert Last(r.rounds).attemptId in used;
  }

  predicate Owns(base: Record, attempt: Option<AttemptId>) {
    base.rounds != [] && (attempt.Some? ==> attempt.value == Last(base.rounds).attemptId)
  }

  lemma PendingInterrupt(base: Record, r: Record, attempt: Option<AttemptId>, used: set<AttemptId>)
    requires Good(base) && base.revision < EMERGENCY_LIMIT && IsInFlight(base.status)
    requires Ahead(base, r) && Owns(base, attempt) && IdsIn(r.rounds, used)
    ensures PendingOk(base, ToIdle, Interrupted(r), attempt) && IdsIn(Interrupted(r).rounds, used)
  {
    InterruptedFits(base, r);
    hide Accepts, MayFollow;
    SameAttempt(base, r, Last(r.rounds).(status := InterruptedUncertain), InterruptedUncertain, used);
  }

  lemma PendingStart(base: Record, attempt: AttemptId, used: set<AttemptId>)
    requires Good(base) && base.revision < NORMAL_LIMIT && base.status == AttemptCommitted
    requires Owns(base, Some(attempt)) && IdsIn(base.rounds, used) && Last(base.rounds).visibleText == []
    ensures PendingOk(base, ToReady, Started(base), Some(attempt)) && IdsIn(Started(base).rounds, used)
  {
    AheadOfItself(base);
    RunningFits(base, base);
    hide Accepts, MayFollow;
    SameAttempt(base, base, Last(base.rounds).(status := Running), Running, used);
  }

  lemma PendingCheckpoint(base: Record, r: Record, over: bool, attempt: AttemptId, used: set<AttemptId>)
    requires Good(base) && base.revision < NORMAL_LIMIT && base.status == Running
    requires Ahead(base, r) && Owns(base, Some(attempt)) && IdsIn(r.rounds, used)
    requires |Last(base.rounds).visibleText| + CHECKPOINT <= |Last(r.rounds).visibleText|
    ensures PendingOk(base, ToStreaming(over), r, Some(attempt))
  {
    hide Accepts, MayFollow;
    InFlightRound(base);
    RunningFits(base, r);
    assert Started(r) == r;
    SameAttempt(base, r, Last(r.rounds), Running, used);
  }

  lemma SettledLeavesFlight(r: Record, finish: Finish)
    requires r.rounds != []
    ensures SettledStatus(r, finish) !in {AttemptCommitted, Running}
  {
    hide Progress;
  }

  lemma PendingSettle(base: Record, r: Record, usage: RawUsage, finish: Finish, attempt: AttemptId,
      used: set<AttemptId>)
    requires Good(base) && base.revision < EMERGENCY_LIMIT && base.status == Running
    requires Ahead(base, r) && Owns(base, Some(attempt)) && IdsIn(r.rounds, used)
    requires UsageOk(usage) && finish in {Stop, MaxTokens} && RequestOk(r.request)
    requires SettledPrice(usage, r.request.route.costRates) != Overflow
    ensures PendingOk(base, ToIdle, Settled(r, usage, finish), Some(attempt))
    ensures IdsIn(Settled(r, usage, finish).rounds, used)
  {
    var t := Settled(r, usage, finish);
    SettledFits(base, r, usage, finish);
    hide Accepts, MayFollow;
    SameAttempt(base, r, Last(t.rounds), t.status, used);
    SettledLeavesFlight(r, finish);
  }

  lemma PendingCommit(base: Record, id: AttemptId, used: set<AttemptId>)
    requires Good(base) && base.revision < EMERGENCY_LIMIT && IsSafe(base.status)
    requires RoomToRun(base) && IdsIn(base.rounds, used) && id !in used
    ensures RequestOk(base.request) && Reservation(base) != Overflow
    ensures base.revision < NORMAL_LIMIT ==> PendingOk(base, ToPreparing, Committed(base, id), Some(id))
    ensures base.revision == NORMAL_LIMIT ==> StrayOk(base, Interrupted(Committed(base, id)), Some(id))
    ensures IdsIn(Committed(base, id).rounds, used + {id})
            && IdsIn(Interrupted(Committed(base, id)).rounds, used + {id})
  {
    hide Accepts, RequestOk, WireChars, Messages, MayFollow, Reservation;
    GoodParts(base);
    CommittedFits(base, id);
    StrayIsGood(base, id);
  }

  /** The record of a round that was never committed is good by itself, but nothing may follow
      a planned or continuing task by interrupting it. */
  lemma StrayIsGood(base: Record, id: AttemptId)
    requires Good(base) && base.revision < MAX_REVISIONS && IsSafe(base.status) && RequestOk(base.request)
    requires Reservation(base) != Overflow && Fits(base, Committed(base, id))
    ensures Good(Proposal(Interrupted(Committed(base, id))))
    ensures !MayFollow(Some(base), Proposal(Interrupted(Committed(base, id))))
  {
    hide Good, MayFollow, RoundsOk, RoundOk, RequestOk, EvidenceOk, Reservation, Spent, Held, Unknown, Chars,
      StatusOk;
    var c, stray := Committed(base, id), Interrupted(Committed(base, id));
    GoodParts(base);
    GoodParts(Proposal(c));
    ProposalKeeps(c);
    StrayRounds(c);
    ReplaceLast(c.request, c.rounds, Last(stray.rounds));
    StrayStatus(stray);
    ProposalIsGood(stray);
    StrayMayNotFollow(base, Proposal(stray));
  }

  lemma ProposalKeeps(r: Record)
    ensures Proposal(r).rounds == r.rounds && Proposal(r).request == r.request && Proposal(r).status == r.status
    ensures Proposal(r).revision == r.revision + 1
  {
    hide Spent, Held, Unknown;
  }

  lemma StrayRounds(c: Record)
    requires RequestOk(c.request) && c.rounds != [] && Last(c.rounds).status == AttemptCommitted
             && RoundsOk(c.request, c.rounds)
    ensures var v := Last(Interrupted(c).rounds);
            && v == Last(c.rounds).(status := InterruptedUncertain)
            && Interrupted(c).rounds == c.rounds[..|c.rounds| - 1] + [v]
            && Chars(Interrupted(c).rounds) <= MAX_VISIBLE
            && RoundOk(c.request, Interrupted(c).rounds, |c.rounds| - 1)
  {
    assert RoundOk(c.request, c.rounds, |c.rounds| - 1);
    hide RequestOk, RoundOk, Chars;
    var prior, v := c.rounds[..|c.rounds| - 1], Last(c.rounds).(status := InterruptedUncertain);
    InterruptedRoundOk(c.request, c.rounds, v);
    CharsOfAppend(prior, v);
    CharsOfAppend(prior, Last(c.rounds));
    assert c.rounds == prior + [Last(c.rounds)];
  }

  lemma StrayStatus(r: Record)
    requires r.rounds != [] && r.status == Last(r.rounds).status == InterruptedUncertain
    ensures StatusOk(r.status, r.rounds, r.request.maxRounds)
  {
  }

  lemma StrayMayNotFollow(base: Record, p: Record)
    requires IsSafe(base.status) && p.status == InterruptedUncertain
    ensures !MayFollow(Some(base), p)
  {
  }

  lemma InterruptedRoundOk(req: Request, rounds: seq<Round>, v: Round)
    requires RequestOk(req) && rounds != [] && RoundOk(req, rounds, |rounds| - 1)
             && Last(rounds).status == AttemptCommitted
    requires v == Last(rounds).(status := InterruptedUncertain)
    ensures RoundOk(req, rounds[..|rounds| - 1] + [v], |rounds| - 1)
  {
    hide RequestOk, HoldFor, SettledPrice, UsageOk;
    assert (rounds[..|rounds| - 1] + [v])[..|rounds| - 1] == rounds[..|rounds| - 1];
  }

  lemma RecoverOk(s: System, e: EngineId)
    requires Inv(s) && Enabled(s, Event(e, Recover))
    ensures Inv(Apply(s, Event(e, Recover))) && SameCounts(s, Apply(s, Event(e, Recover)))
  {
    hide Inv, Accepts, MayFollow, Early, RequestOk, UsageOk, SettledStatus, WireChars, Chars, PriceOf, PendingOk,
      IdsIn, BeginSave;
    var base := BaseFacts(s, e);
    AheadOfItself(base);
    PendingInterrupt(base, base, None, s.used);
    SaveStep(s, e, base, Interrupted(base), ToIdle, None, s.used);
  }

  lemma LimitOk(s: System, e: EngineId)
    requires Inv(s) && Enabled(s, Event(e, Limit))
    ensures Inv(Apply(s, Event(e, Limit))) && SameCounts(s, Apply(s, Event(e, Limit)))
  {
    hide Inv, Accepts, MayFollow, Early, RequestOk, UsageOk, SettledStatus, WireChars, Chars, PriceOf, IdsIn,
      BeginSave;
    var base := BaseFacts(s, e);
    LimitedFits(base);
    SaveStep(s, e, base, Limited(base), ToIdle, None, s.used);
  }

  /** A round begun at revision 1023 passes one unfit record to the journal, any other none. */
  lemma CommitOk(s: System, e: EngineId, id: AttemptId)
    requires Inv(s) && Enabled(s, Event(e, Commit(id)))
    ensures var t := Apply(s, Event(e, Commit(id)));
            Inv(t) && t.refused == s.refused && t.unfit == s.unfit + if BeginsUnfit(s, Event(e, Commit(id))) then 1
              else 0
  {
    hide Inv, Accepts, MayFollow, Early, RequestOk, UsageOk, SettledStatus, WireChars, Chars, PriceOf, PendingOk,
      StrayOk, IdsIn, BeginSave, RoomToRun;
    var base := BaseFacts(s, e);
    if base.revision < EMERGENCY_LIMIT {
      PendingCommit(base, id, s.used);
      NewNameIsUnopened(s, id);
      if base.revision < NORMAL_LIMIT {
        SaveStep(s, e, base, Committed(base, id), ToPreparing, Some(id), s.used + {id});
      } else {
        StrayStep(s, e, base, Interrupted(Committed(base, id)), id);
      }
    } else {
      NoSaveAtTheEnd(s, e, base, id);
    }
  }

  lemma StrayStep(s: System, e: EngineId, base: Record, r: Record, id: AttemptId)
    requires Inv(s) && e in s.engines && s.engines[e].phase == Idle && 0 < s.engines[e].r.revision <= |Durable(s.cells)|
    requires base == Durable(s.cells)[s.engines[e].r.revision - 1] && r.revision == base.revision
    requires r.owner == base.owner && r.task == base.task && StrayOk(base, r, Some(id))
    requires id !in s.used && IdsIn(r.rounds, s.used + {id})
    ensures var t := BeginSave(s, e, r, Uncommitted, Some(id)).(used := s.used + {id});
            Inv(t) && t.unfit == s.unfit + 1 && t.refused == s.refused
  {
    hide Inv, Good, MayFollow, PendingOk, IdsIn, Ahead;
    var b := BaseFacts(s, e);
    LocalStep(s, BeginSave(s, e, r, Uncommitted, Some(id)).(used := s.used + {id}), e,
      Instance(Saving(Uncommitted), r, Some(id)));
  }

  /** At revision 1024 not even the interruption is passed on: the engine gives up saving. */
  lemma NoSaveAtTheEnd(s: System, e: EngineId, base: Record, id: AttemptId)
    requires Inv(s) && Enabled(s, Event(e, Commit(id))) && s.engines[e].r == base && base.revision == EMERGENCY_LIMIT
    requires Good(base) && base.owner == s.owner && base.task == s.task
    ensures var t := Apply(s, Event(e, Commit(id)));
            Inv(t) && t.refused == s.refused && t.unfit == s.unfit
  {
    ReservationNeverOverflows(base);
    hide Inv, Accepts, MayFollow, RequestOk, Reservation, InstanceOk;
    var t := Apply(s, Event(e, Commit(id)));
    LocalStep(s, t, e, t.engines[e]);
  }

  lemma NewNameIsUnopened(s: System, id: AttemptId)
    requires Inv(s) && id !in s.used
    ensures id !in s.streams
  {
    var d := Durable(s.cells);
    assert StreamsOk(d, s.streams);
    forall i | 0 <= i < |s.streams| ensures s.streams[i] != id {
      assert HasAttempt(d[|d| - 1], s.streams[i]);
    }
  }

  lemma PreparedOk(s: System, e: EngineId)
    requires Inv(s) && Enabled(s, Event(e, Prepared))
    ensures Inv(Apply(s, Event(e, Prepared))) && SameCounts(s, Apply(s, Event(e, Prepared)))
  {
    hide Inv, Accepts, MayFollow, Early, RequestOk, UsageOk, SettledStatus, WireChars, Chars, PriceOf, PendingOk,
      IdsIn, BeginSave;
    var base := BaseFacts(s, e);
    if base.revision < NORMAL_LIMIT {
      PendingStart(base, s.engines[e].attempt.value, s.used);
      SaveStep(s, e, base, Started(base), ToReady, s.engines[e].attempt, s.used);
    } else {
      AheadOfItself(base);
      PendingInterrupt(base, base, s.engines[e].attempt, s.used);
      InterruptedAnyway(base);
      SaveStep(s, e, base, Interrupted(base), ToIdle, s.engines[e].attempt, s.used);
    }
  }

  lemma InterruptedAnyway(r: Record)
    requires r.rounds != []
    ensures Started(r).rounds != [] && Interrupted(Started(r)) == Interrupted(r)
  {
  }

  lemma FailOk(s: System, e: EngineId)
    requires Inv(s) && Enabled(s, Event(e, Fail))
    ensures Inv(Apply(s, Event(e, Fail))) && SameCounts(s, Apply(s, Event(e, Fail)))
  {
    hide Inv, Accepts, MayFollow, Early, RequestOk, UsageOk, SettledStatus, WireChars, Chars, PriceOf, PendingOk,
      IdsIn, BeginSave;
    var en := s.engines[e];
    var base := BaseFacts(s, e);
    if en.r == base {
      AheadOfItself(base);
    }
    PendingInterrupt(base, en.r, en.attempt, s.used);
    SaveStep(s, e, base, Interrupted(en.r), ToIdle, en.attempt, s.used);
  }

  lemma GrownIsAhead(base: Record, r: Record, text: Text, used: set<AttemptId>)
    requires Ahead(base, r) && IdsIn(r.rounds, used)
    ensures Ahead(base, Grown(r, text)) && IdsIn(Grown(r, text).rounds, used)
  {
    var g := Grown(r, text);
    assert r.rounds == r.rounds[..|r.rounds| - 1] + [Last(r.rounds)];
    CharsOfAppend(r.rounds[..|r.rounds| - 1], Last(r.rounds));
    CharsOfAppend(r.rounds[..|r.rounds| - 1], Last(g.rounds));
    SameAttempt(base, r, Last(g.rounds), r.status, used);
  }

  lemma ChunkOk(s: System, e: EngineId, text: Text)
    requires Inv(s) && Enabled(s, Event(e, Chunk(text)))
    ensures Inv(Apply(s, Event(e, Chunk(text)))) && SameCounts(s, Apply(s, Event(e, Chunk(text))))
  {
    hide Inv, Accepts, MayFollow, Early, RequestOk, UsageOk, SettledStatus, WireChars, Chars, PriceOf, PendingOk,
      IdsIn, BeginSave;
    var en := s.engines[e];
    var r, over := Grown(en.r, text), |text| > MAX_VISIBLE - Chars(en.r.rounds);
    var base := BaseFacts(s, e);
    GrownIsAhead(base, en.r, text, s.used);
    if |Last(r.rounds).visibleText| - en.phase.checkpoint >= CHECKPOINT {
      if base.revision < NORMAL_LIMIT {
        PendingCheckpoint(base, r, over, en.attempt.value, s.used);
        SaveStep(s, e, base, r, ToStreaming(over), en.attempt, s.used);
      } else {
        PendingInterrupt(base, r, en.attempt, s.used);
        SaveStep(s, e, base, Interrupted(r), ToIdle, en.attempt, s.used);
      }
    } else {
      KeepStreaming(s, e, base, r, over);
    }
  }

  lemma KeepStreaming(s: System, e: EngineId, base: Record, r: Record, over: bool)
    requires Inv(s) && e in s.engines && s.engines[e].phase.Streaming?
    requires 0 < s.engines[e].r.revision <= |Durable(s.cells)| && base == Durable(s.cells)[s.engines[e].r.revision - 1]
    requires Ahead(base, r) && IdsIn(r.rounds, s.used) && r.revision == s.engines[e].r.revision
    requires r.owner == s.owner && r.task == s.task
    ensures Inv(With(s, e, Instance(Streaming(s.engines[e].phase.checkpoint, over), r, s.engines[e].attempt)))
  {
    hide Inv, Accepts, MayFollow, Ahead, Early, IdsIn, PendingOk, FirstSaveOk;
    var en := s.engines[e];
    var same := BaseFacts(s, e);
    var next := Instance(Streaming(en.phase.checkpoint, over), r, en.attempt);
    LocalStep(s, With(s, e, next), e, next);
  }

  lemma NotedIsAhead(base: Record, r: Record, usage: RawUsage, finish: Finish, used: set<AttemptId>)
    requires Ahead(base, r) && UsageOk(usage) && IdsIn(r.rounds, used)
    ensures Ahead(base, Noted(r, usage, finish)) && IdsIn(Noted(r, usage, finish).rounds, used)
  {
    var n := Noted(r, usage, finish);
    assert r.rounds == r.rounds[..|r.rounds| - 1] + [Last(r.rounds)];
    CharsOfAppend(r.rounds[..|r.rounds| - 1], Last(r.rounds));
    CharsOfAppend(r.rounds[..|r.rounds| - 1], Last(n.rounds));
    SameAttempt(base, r, Last(n.rounds), r.status, used);
  }

  lemma FinishedOk(s: System, e: EngineId, usage: RawUsage, finish: Finish)
    requires Inv(s) && Enabled(s, Event(e, Finished(usage, finish)))
    ensures Inv(Apply(s, Event(e, Finished(usage, finish))))
            && SameCounts(s, Apply(s, Event(e, Finished(usage, finish))))
  {
    hide Inv, Accepts, MayFollow, Early, UsageOk, SettledStatus, WireChars, Chars, PriceOf, PendingOk, IdsIn,
      BeginSave;
    var en := s.engines[e];
    var base := BaseFacts(s, e);
    if SettledPrice(usage, en.r.request.route.costRates) == Overflow {
      NotedIsAhead(base, en.r, usage, finish, s.used);
      PendingInterrupt(base, Noted(en.r, usage, finish), en.attempt, s.used);
      SaveStep(s, e, base, Interrupted(Noted(en.r, usage, finish)), ToIdle, en.attempt, s.used);
    } else {
      PendingSettle(base, en.r, usage, finish, en.attempt.value, s.used);
      SaveStep(s, e, base, Settled(en.r, usage, finish), ToIdle, en.attempt, s.used);
    }
  }

  /** Which evidence the journal refuses to store. */
  lemma BadDatesAreRefused(evidence: Option<Evidence>)
    ensures BadDates(evidence) <==> NormalizeEvidence(evidence).Some? && !EvidenceOk(NormalizeEvidence(evidence).value)
  {
  }

  /** Planning with evidence whose dates cannot be stored is refused, any other is not. */
  lemma PlanOk(s: System, e: EngineId, request: Request, evidence: Option<Evidence>)
    requires Inv(s) && Enabled(s, Event(e, Plan(request, evidence)))
    ensures var t, n := Apply(s, Event(e, Plan(request, evidence))), if BadDates(evidence) then 1 else 0;
            && Inv(t) && t.refused == s.refused + n && t.unfit == s.unfit + n
            && (BadDates(evidence) ==> t.engines[e].phase == Failed)
  {
    var r := NewTask(s.owner, s.task, request, NormalizeEvidence(evidence));
    var t := Apply(s, Event(e, Plan(request, evidence)));
    BadDatesAreRefused(evidence);
    if BadDates(evidence) {
      assert !Good(Proposal(r));
    } else {
      NewTaskFits(s.owner, s.task, request, NormalizeEvidence(evidence));
    }
    LocalStep(s, t, e, t.engines[e]);
  }

  lemma LoadOk(s: System, e: EngineId)
    requires Inv(s) && Enabled(s, Event(e, Load))
    ensures Inv(Apply(s, Event(e, Load))) && SameCounts(s, Apply(s, Event(e, Load)))
  {
    var d := Durable(s.cells);
    assert AcceptedAt(d, s.owner, s.task, |d| - 1);
    hide MayFollow, Early, StreamsOk, PairsApart, InstancesOk, WritersOk, History, RoundsOk, StatusOk, RequestOk;
    LocalStep(s, Apply(s, Event(e, Load)), e, Instance(Idle, d[|d| - 1], None));
  }

  lemma CrashOk(s: System, e: EngineId)
    requires Inv(s) && Enabled(s, Event(e, Crash))
    ensures Inv(Apply(s, Event(e, Crash))) && SameCounts(s, Apply(s, Event(e, Crash)))
  {
    hide InstanceOk, History, StreamsOk, Early, IdsIn, Apart;
  }

  lemma SaveErrorOk(s: System, e: EngineId)
    requires Inv(s) && Enabled(s, Event(e, SaveError))
    ensures Inv(Apply(s, Event(e, SaveError))) && SameCounts(s, Apply(s, Event(e, SaveError)))
  {
    hide DurableOk;
    LocalStep(s, Apply(s, Event(e, SaveError)), e, Instance(Failed, s.engines[e].r, None));
  }

  /** A save that finds another directory than it expects is refused and changes nothing in it;
      the directory holds files that were created after the engine's own last revision. */
  lemma ConflictOk(s: System, e: EngineId)
    requires Inv(s) && Enabled(s, Event(e, Conflict))
    ensures var t := Apply(s, Event(e, Conflict));
            Inv(t) && t.unfit == s.unfit && t.refused == s.refused + 1 && t.engines[e].phase == Failed
    ensures 0 <= s.engines[e].r.revision < |s.cells|
  {
    InstanceFacts(s, e);
    NewerFiles(s.cells, s.engines[e].r.revision);
    hide DurableOk;
    LocalStep(s, Apply(s, Event(e, Conflict)), e, Instance(Failed, s.engines[e].r, None));
  }

  lemma NewerFiles(cells: seq<Cell>, revision: int)
    requires Shape(cells) && 0 <= revision <= |Durable(cells)| && MovedOn(cells, revision)
    ensures revision < |cells|
  {
    if Readable(cells) {
      assert |Durable(cells)| == |cells|;
    } else {
      assert cells != [] && cells[|cells| - 1] == Torn;
    }
  }

  // ---------------------------------------------------------------- opening a stream

  /** An attempt named by one durable revision is named by every later one. */
  lemma AttemptStays(d: seq<Record>, owner: string, task: string, i: nat, a: AttemptId)
    requires History(d, owner, task) && i < |d| && HasAttempt(d[i], a)
    ensures HasAttempt(d[|d| - 1], a)
  {
    LaterRevision(d, owner, task, i, |d| - 1);
    var k :| 0 <= k < |d[i].rounds| && d[i].rounds[k].attemptId == a;
    assert RoundLater(d[i].rounds[k], d[|d| - 1].rounds[k]);
  }

  lemma StreamsGrow(d: seq<Record>, streams: seq<AttemptId>, a: AttemptId)
    requires StreamsOk(d, streams) && a !in streams && d != [] && HasAttempt(d[|d| - 1], a)
    ensures StreamsOk(d, streams + [a])
  {
  }

  lemma InvDurable(s: System)
    requires Inv(s)
    ensures Shape(s.cells) && DurableOk(s, Durable(s.cells))
  {
    hide DurableOk, InstancesOk, PairsApart, WritersOk;
  }

  lemma OwnInstanceAtOpen(s: System, e: EngineId)
    requires Inv(s) && Enabled(s, Event(e, Open))
    ensures var t := Apply(s, Event(e, Open)); InstanceOk(Durable(s.cells), t.used, t.streams, t.engines[e])
  {
    hide Accepts, MayFollow, Early, PendingOk, FirstSaveOk, Inv, IdsIn;
    var base := BaseFacts(s, e);
    AheadOfItself(base);
  }

  lemma OtherAtOpen(d: seq<Record>, used: set<AttemptId>, streams: seq<AttemptId>, en: Instance, a: AttemptId)
    requires InstanceOk(d, used, streams, en) && en.attempt != Some(a)
    ensures InstanceOk(d, used, streams + [a], en)
  {
    hide PhaseOk, FirstSaveOk, TailOk, IdsIn;
  }

  lemma OtherAttempt(s: System, e: EngineId, f: EngineId)
    requires Inv(s) && e in s.engines && f in s.engines && e != f && s.engines[e].attempt.Some?
    ensures s.engines[f].attempt != s.engines[e].attempt
  {
    AreApart(s, e, f);
    hide Inv;
  }

  lemma InstancesAtOpen(s: System, e: EngineId)
    requires Inv(s) && Enabled(s, Event(e, Open))
    ensures InstancesOk(Apply(s, Event(e, Open)), Durable(s.cells))
  {
    hide Inv, Apply, InstanceOk, Durable, Shape, Apart;
    InstanceFacts(s, e);
    OpenEffect(s, e);
    OwnInstanceAtOpen(s, e);
    var t := Apply(s, Event(e, Open));
    forall f | f in t.engines ensures InstanceOk(Durable(s.cells), t.used, t.streams, t.engines[f]) {
      if f != e {
        InstanceFacts(s, f);
        OtherAttempt(s, e, f);
        OtherAtOpen(Durable(s.cells), s.used, s.streams, s.engines[f], s.engines[e].attempt.value);
      }
    }
  }

  lemma StreamsAtOpen(s: System, e: EngineId)
    requires Inv(s) && Enabled(s, Event(e, Open))
    ensures DurableOk(Apply(s, Event(e, Open)), Durable(s.cells))
  {
    hide Inv, Accepts, MayFollow, Early, History, StreamsOk, PendingOk;
    InvDurable(s);
    var base := BaseFacts(s, e);
    var en, d := s.engines[e], Durable(s.cells);
    assert base.rounds[|base.rounds| - 1].attemptId == en.attempt.value;
    assert HasAttempt(base, en.attempt.value);
    hide HasAttempt;
    AttemptStays(d, s.owner, s.task, en.r.revision - 1, en.attempt.value);
    StreamsGrow(d, s.streams, en.attempt.value);
  }

  lemma OpenEffect(s: System, e: EngineId)
    requires Enabled(s, Event(e, Open))
    ensures var en := s.engines[e];
            Apply(s, Event(e, Open)) ==
              s.(engines := s.engines[e := en.(phase := Streaming(0, false))],
                streams := s.streams + [en.attempt.value])
  {
    hide BeginSave;
  }

  lemma OpenOk(s: System, e: EngineId)
    requires Inv(s) && Enabled(s, Event(e, Open))
    ensures Inv(Apply(s, Event(e, Open))) && SameCounts(s, Apply(s, Event(e, Open)))
  {
    hide DurableOk, InstancesOk, PairsApart, Apply, Durable, Shape;
    OpenEffect(s, e);
    StreamsAtOpen(s, e);
    InstancesAtOpen(s, e);
    PairsLocal(s, e, s.engines[e].(phase := Streaming(0, false)));
  }

  // ---------------------------------------------------------------- events that write the directory

  /** An engine about to create its file finds all revisions before it whole. */
  predicate Creating(s: System, e: EngineId) {
    e in s.engines && s.engines[e].phase.Saving? && Readable(s.cells) && |s.cells| == s.engines[e].r.revision
  }

  /** The record an engine has under way follows the last durable one, in time. */
  lemma ProposalFollows(s: System, e: EngineId)
    requires Inv(s) && e in s.engines && |Durable(s.cells)| == s.engines[e].r.revision
    requires s.engines[e].phase.Writing? || (s.engines[e].phase.Saving? && s.engines[e].phase.after != Uncommitted)
    ensures var d, p := Durable(s.cells), Proposal(s.engines[e].r);
            MayFollow(Before(d, |d|), p) && Good(p) && Early(p, s.found) && IdsIn(p.rounds, s.used)
  {
    hide Inv, Accepts, MayFollow, Early, IdsIn, TailOk, Proposal, Durable;
    InstanceFacts(s, e);
    var d, en := Durable(s.cells), s.engines[e];
    ProposalKeeps(en.r);
    if d == [] {
      FirstIsEarly(Proposal(en.r), s.found);
    } else {
      DurableRevision(s, |d| - 1);
      PendingFits(d[|d| - 1], en.phase.after, en.r, en.attempt);
      PendingGrows(d[|d| - 1], en.phase.after, en.r, en.attempt);
      EarlyNext(d[|d| - 1], Proposal(en.r), s.found);
    }
  }

  lemma FirstIsEarly(p: Record, found: nat)
    requires MayFollow(None, p)
    ensures Early(p, found)
  {
  }

  lemma PendingGrows(base: Record, after: After, r: Record, attempt: Option<AttemptId>)
    requires PendingOk(base, after, r, attempt)
    ensures base.status == Running && r.status == Running ==>
              base.rounds != [] && r.rounds != [] &&
              |Last(base.rounds).visibleText| + CHECKPOINT <= |Last(r.rounds).visibleText|
  {
    hide Accepts, MayFollow;
  }

  lemma NextIsAccepted(s: System, e: EngineId)
    requires Inv(s) && Creating(s, e) && s.engines[e].phase.after != Uncommitted
    ensures MayFollow(Before(Records(s.cells), |s.cells|), Proposal(s.engines[e].r))
    ensures |s.cells| < MAX_REVISIONS && |s.cells| < MAX_ENGINE_REVISIONS + s.found
  {
    DurableIsAll(s.cells);
    hide Inv, MayFollow, Early, IdsIn, TailOk, Durable, Records, RequestOk, RoundsOk, StatusOk, Spent, Held, Unknown,
      EvidenceOk;
    ProposalFollows(s, e);
    CapBound(Proposal(s.engines[e].r), s.found);
  }

  /** The file is created: only the phase of its engine changes. */
  function AfterCreate(s: System, e: EngineId): System
    requires e in s.engines && s.engines[e].phase.Saving?
  {
    var en := s.engines[e];
    s.(cells := s.cells + [Torn], engines := s.engines[e := en.(phase := Writing(en.phase.after))])
  }

  lemma CreateEffect(s: System, e: EngineId)
    requires Creating(s, e) && MayFollow(Before(Records(s.cells), |s.cells|), Proposal(s.engines[e].r))
    ensures Enabled(s, Event(e, Create)) && Apply(s, Event(e, Create)) == AfterCreate(s, e)
  {
    hide MayFollow, Proposal, Records;
  }

  lemma OwnInstanceAtCreate(s: System, e: EngineId)
    requires Inv(s) && Creating(s, e) && s.engines[e].phase.after != Uncommitted
    ensures Shape(s.cells)
    ensures var t := AfterCreate(s, e); InstanceOk(Durable(s.cells), t.used, t.streams, t.engines[e])
  {
    hide Inv, Good, MayFollow, PendingOk, Early, IdsIn, Ahead;
    InstanceFacts(s, e);
  }

  /** A file can only be created where the last one is whole, so nobody else is writing. */
  lemma NobodyWrites(s: System, f: EngineId)
    requires Inv(s) && Readable(s.cells) && f in s.engines
    ensures !s.engines[f].phase.Writing?
  {
    hide DurableOk, InstancesOk, PairsApart, NamesOk;
  }

  lemma PairsAtCreate(engines: map<EngineId, Instance>, e: EngineId, en: Instance)
    requires PairsApart(engines) && e in engines && en.attempt == engines[e].attempt
    requires forall f :: f in engines ==> !engines[f].phase.Writing?
    ensures PairsApart(engines[e := en])
  {
    var more := engines[e := en];
    forall f, g | f in more && g in more && f != g ensures Apart(more[f], more[g]) {
      assert Apart(engines[f], engines[g]);
    }
  }

  lemma OthersAtCreate(s: System, e: EngineId)
    requires Inv(s) && Creating(s, e) && s.engines[e].phase.after != Uncommitted
    ensures Shape(s.cells)
    ensures var t := AfterCreate(s, e);
            PairsApart(t.engines) && WritersOk(t.cells, t.engines) && NamesOk(t) && InstancesOk(t, Durable(s.cells))
  {
    hide InstanceOk, DurableOk, PairsApart, Durable;
    OwnInstanceAtCreate(s, e);
    forall f | f in s.engines ensures !s.engines[f].phase.Writing? {
      NobodyWrites(s, f);
    }
    var t := AfterCreate(s, e);
    PairsAtCreate(s.engines, e, t.engines[e]);
    InstancesLocal(s, t, e, t.engines[e]);
    hide InstancesOk, Shape;
  }

  lemma CreatingNow(s: System, e: EngineId)
    requires Enabled(s, Event(e, Create))
    ensures Creating(s, e)
  {
  }

  /** The stray record of an uncommitted round is what the journal refuses. */
  lemma StrayIsRefused(s: System, e: EngineId)
    requires Inv(s) && Creating(s, e) && s.engines[e].phase.after == Uncommitted
    ensures Enabled(s, Event(e, Create))
    ensures var t := Apply(s, Event(e, Create));
            Inv(t) && t.unfit == s.unfit && t.refused == s.refused + 1 && t.engines[e].phase == Failed
  {
    DurableIsAll(s.cells);
    InstanceFacts(s, e);
    hide Inv, Good, MayFollow, Early, IdsIn, TailOk, Proposal, Durable, Records, FirstSaveOk, PendingOk;
    var t := Apply(s, Event(e, Create));
    assert t == Broken(s, e, s.engines[e].r).(refused := s.refused + 1);
    NameOf(s, e);
    LocalStep(s, t, e, t.engines[e]);
  }

  lemma NameOf(s: System, e: EngineId)
    requires Inv(s) && e in s.engines
    ensures s.engines[e].r.owner == s.owner && s.engines[e].r.task == s.task
  {
    hide DurableOk, InstancesOk, PairsApart, WritersOk, Shape;
  }

  lemma CreateOk(s: System, e: EngineId)
    requires Inv(s) && Creating(s, e) && s.engines[e].phase.after != Uncommitted
    ensures Enabled(s, Event(e, Create)) && Inv(Apply(s, Event(e, Create))) && SameCounts(s, Apply(s, Event(e, Create)))
  {
    hide MayFollow, DurableOk, InstancesOk, PairsApart, WritersOk, NamesOk, Proposal;
    NextIsAccepted(s, e);
    CreateEffect(s, e);
    OthersAtCreate(s, e);
    hide Apply, Enabled;
    var d, t := Durable(s.cells), AfterCreate(s, e);
    DurableLocal(s, t, d);
    assert t.cells[..|t.cells| - 1] == s.cells;
    assert Durable(t.cells) == d;
  }

  /** The record an engine is writing extends the durable chain. */
  lemma WriterExtends(s: System, e: EngineId)
    requires Inv(s) && e in s.engines && s.engines[e].phase.Writing?
    ensures var d, p := Durable(s.cells), Proposal(s.engines[e].r);
            && |d| == s.engines[e].r.revision && Good(p) && Early(p, s.found) && IdsIn(p.rounds, s.used)
            && MayFollow(Before(d, |d|), p)
  {
    WriterIsNext(s, e);
    hide Inv;
    ProposalFollows(s, e);
  }

  lemma WriterIsNext(s: System, e: EngineId)
    requires Inv(s) && e in s.engines && s.engines[e].phase.Writing?
    ensures |Durable(s.cells)| == s.engines[e].r.revision
  {
    hide DurableOk, InstancesOk, PairsApart, NamesOk;
  }

  lemma FilledCells(s: System, e: EngineId)
    requires Inv(s) && e in s.engines && s.engines[e].phase.Writing?
    ensures var p := Proposal(s.engines[e].r);
            var cells := s.cells[s.engines[e].r.revision := Full(p)];
            Shape(cells) && Readable(cells) && Durable(cells) == Durable(s.cells) + [p]
  {
    hide DurableOk, InstancesOk, PairsApart;
    var p := Proposal(s.engines[e].r);
    var cells := s.cells[s.engines[e].r.revision := Full(p)];
    assert Durable(cells) == Durable(s.cells) + [p];
  }

  lemma StreamsAtFill(d: seq<Record>, owner: string, task: string, p: Record, streams: seq<AttemptId>)
    requires History(d + [p], owner, task) && StreamsOk(d, streams)
    ensures StreamsOk(d + [p], streams)
  {
    hide History, HasAttempt;
    forall i | 0 <= i < |streams| ensures HasAttempt(p, streams[i]) {
      AttemptStays(d + [p], owner, task, |d| - 1, streams[i]);
    }
  }

  lemma DurableAtFill(s: System, e: EngineId)
    requires Inv(s) && e in s.engines && s.engines[e].phase.Writing?
    ensures DurableOk(s, Durable(s.cells) + [Proposal(s.engines[e].r)])
  {
    var d, p := Durable(s.cells), Proposal(s.engines[e].r);
    WriterExtends(s, e);
    hide MayFollow, Early, InstancesOk, PairsApart, WritersOk, History, HasAttempt, StreamsOk, Accepts;
    ExtendHistory(d, s.owner, s.task, p);
    StreamsAtFill(d, s.owner, s.task, p, s.streams);
  }

  /** When another engine's revision lands, an engine inside an attempt finds that either the
      revision was its own interruption or nothing could have been written at all. */
  lemma AreApart(s: System, e: EngineId, f: EngineId)
    requires Inv(s) && e in s.engines && f in s.engines && e != f
    ensures Apart(s.engines[e], s.engines[f])
  {
    hide DurableOk, InstancesOk, WritersOk, NamesOk, Shape;
  }

  /** The durable revision an engine stands on names its attempt. */
  lemma StandsOnAttempt(d: seq<Record>, used: set<AttemptId>, streams: seq<AttemptId>, en: Instance)
    requires InstanceOk(d, used, streams, en) && en.phase != Failed && en.r.revision > 0
    ensures 0 < en.r.revision <= |d| && TailOk(d, en) && PhaseOk(d[en.r.revision - 1], en)
    ensures IsInFlight(d[en.r.revision - 1].status) && en.attempt.Some? ==>
              d[en.r.revision - 1].rounds != [] && Last(d[en.r.revision - 1].rounds).attemptId == en.attempt.value
  {
    hide IdsIn, Good, Early, TailOk;
    var base := d[en.r.revision - 1];
    if IsInFlight(base.status) && en.attempt.Some? && (en.phase.Saving? || en.phase.Writing?) {
      SavesOwnAttempt(base, en.phase.after, en.r, en.attempt);
    }
  }

  lemma SavesOwnAttempt(base: Record, after: After, r: Record, attempt: Option<AttemptId>)
    requires PendingOk(base, after, r, attempt) && attempt.Some? && IsInFlight(base.status)
    ensures base.rounds != [] && Last(base.rounds).attemptId == attempt.value
  {
    hide Good, Early;
    var n := |base.rounds| - 1;
    assert n >= 0 ==> RoundMayFollow(base.rounds[n], Proposal(r).rounds[n]);
  }

  lemma WriterPends(s: System, e: EngineId)
    requires Inv(s) && e in s.engines && s.engines[e].phase.Writing? && s.engines[e].r.revision > 0
    ensures var d, en := Durable(s.cells), s.engines[e];
            |d| == en.r.revision && PendingOk(d[|d| - 1], en.phase.after, en.r, en.attempt)
  {
    hide Inv, PendingOk;
    WriterExtends(s, e);
    InstanceFacts(s, e);
  }

  lemma TailAtFill(s: System, e: EngineId, f: EngineId)
    requires Inv(s) && e in s.engines && s.engines[e].phase.Writing? && f in s.engines && f != e
    requires s.engines[f].phase != Failed && s.engines[f].r.revision > 0
    ensures var d := Durable(s.cells) + [Proposal(s.engines[e].r)];
            s.engines[f].r.revision <= |d| && TailOk(d, s.engines[f])
  {
    hide Inv, Accepts, PendingOk, InstanceOk, PhaseOk, TailOk;
    AreApart(s, e, f);
    WriterExtends(s, e);
    InstanceFacts(s, e);
    InstanceFacts(s, f);
    StandsOnAttempt(Durable(s.cells), s.used, s.streams, s.engines[f]);
    WriterPends(s, e);
    TailCore(Durable(s.cells), s.engines[e], s.engines[f]);
  }

  lemma TailCore(d: seq<Record>, en: Instance, other: Instance)
    requires 0 < other.r.revision <= |d| == en.r.revision && TailOk(d, other) && en.phase.Writing?
    requires PendingOk(d[|d| - 1], en.phase.after, en.r, en.attempt)
    requires other.attempt.Some? ==> other.attempt != en.attempt
    requires IsInFlight(d[other.r.revision - 1].status) && other.attempt.Some? ==>
               d[other.r.revision - 1].rounds != []
                 && Last(d[other.r.revision - 1].rounds).attemptId == other.attempt.value
    ensures TailOk(d + [Proposal(en.r)], other)
  {
    hide Good, Early;
    var base := d[|d| - 1];
    if other.attempt.Some? && IsInFlight(base.status) && |d| == other.r.revision && en.r.status != AttemptCommitted {
      LastNames(base, Proposal(en.r));
    }
  }

  lemma LastNames(base: Record, p: Record)
    requires MayFollow(Some(base), p) && base.rounds != [] && p.status != AttemptCommitted
    ensures p.rounds != [] && Last(p.rounds).attemptId == Last(base.rounds).attemptId
  {
    assert RoundMayFollow(base.rounds[|base.rounds| - 1], p.rounds[|base.rounds| - 1]);
  }

  lemma InstanceAtFill(s: System, e: EngineId, f: EngineId)
    requires Inv(s) && e in s.engines && s.engines[e].phase.Writing? && f in s.engines && f != e
    ensures InstanceOk(Durable(s.cells) + [Proposal(s.engines[e].r)], s.used, s.streams, s.engines[f])
  {
    if s.engines[f].phase != Failed && s.engines[f].r.revision > 0 {
      TailAtFill(s, e, f);
    }
    assert InstanceOk(Durable(s.cells), s.used, s.streams, s.engines[f]);
    hide Inv, Good, MayFollow, PendingOk, Early, IdsIn, Ahead, TailOk;
  }

  /** An engine whose save succeeded goes on from exactly the record it saved. */
  lemma OwnInstanceAtFill(s: System, e: EngineId)
    requires Inv(s) && Enabled(s, Event(e, Fill))
    ensures var t := Apply(s, Event(e, Fill));
            InstanceOk(Durable(s.cells) + [Proposal(s.engines[e].r)], t.used, t.streams, t.engines[e])
  {
    hide Inv, MayFollow, Early, IdsIn, Accepts;
    var en := s.engines[e];
    var p := Proposal(en.r);
    WriterExtends(s, e);
    InstanceFacts(s, e);
    if en.phase.after.ToStreaming? {
      AheadOfItself(p);
    }
    if en.r.revision > 0 {
      DurableRevision(s, en.r.revision - 1);
    }
    hide Ahead;
    assert (Durable(s.cells) + [p])[p.revision - 1] == p;
  }

  lemma OthersAtFill(s: System, t: System, e: EngineId, en: Instance)
    requires Inv(s) && e in s.engines && s.engines[e].phase.Writing?
    requires t.owner == s.owner && t.task == s.task && t.used == s.used && t.streams == s.streams
    requires t.engines == s.engines[e := en] && !en.phase.Writing?
    requires en.attempt == None || en.attempt == s.engines[e].attempt
    requires en.r.owner == s.owner && en.r.task == s.task
    requires InstanceOk(Durable(s.cells) + [Proposal(s.engines[e].r)], t.used, t.streams, en)
    ensures InstancesOk(t, Durable(s.cells) + [Proposal(s.engines[e].r)])
    ensures PairsApart(t.engines) && WritersOk(t.cells, t.engines) && NamesOk(t)
  {
    hide DurableOk, InstanceOk, Shape;
    forall f | f in t.engines
      ensures InstanceOk(Durable(s.cells) + [Proposal(s.engines[e].r)], t.used, t.streams, t.engines[f])
    {
      if f != e {
        InstanceAtFill(s, e, f);
      }
    }
    forall f | f in t.engines && f != e ensures !t.engines[f].phase.Writing? {
      assert Apart(s.engines[e], s.engines[f]);
    }
    forall f, g | f in t.engines && g in t.engines && f != g ensures Apart(t.engines[f], t.engines[g]) {
      assert Apart(s.engines[f], s.engines[g]);
    }
  }

  lemma FillOk(s: System, e: EngineId)
    requires Inv(s) && Enabled(s, Event(e, Fill))
    ensures Inv(Apply(s, Event(e, Fill))) && SameCounts(s, Apply(s, Event(e, Fill)))
  {
    hide DurableOk, InstancesOk, PairsApart, InstanceOk, Durable, Shape, Spent, Held, Unknown;
    var t := Apply(s, Event(e, Fill));
    FilledCells(s, e);
    DurableAtFill(s, e);
    OwnInstanceAtFill(s, e);
    OthersAtFill(s, t, e, t.engines[e]);
    DurableLocal(s, t, Durable(t.cells));
  }

  /** The file may be complete although the engine was told that its save failed. */
  lemma FillErrorOk(s: System, e: EngineId)
    requires Inv(s) && Enabled(s, Event(e, FillError))
    ensures Inv(Apply(s, Event(e, FillError))) && SameCounts(s, Apply(s, Event(e, FillError)))
  {
    var t := Apply(s, Event(e, FillError));
    FilledCells(s, e);
    DurableAtFill(s, e);
    OthersAtFill(s, t, e, t.engines[e]);
    hide DurableOk, InstancesOk, PairsApart, WritersOk, InstanceOk;
    DurableLocal(s, t, Durable(t.cells));
  }

  // ---------------------------------------------------------------- other engines

  predicate SameCopy(s: System, t: System, me: EngineId) {
    (me in t.engines <==> me in s.engines) && (me in s.engines ==> t.engines[me] == s.engines[me])
  }

  lemma SaveKeeps(s: System, e: EngineId, r: Record, after: After, attempt: Option<AttemptId>, me: EngineId)
    requires e != me
    ensures SameCopy(s, BeginSave(s, e, r, after, attempt), me)
  {
    hide Good, MayFollow;
  }

  lemma AttemptKeeps(s: System, e: EngineId, r: Record, after: After, stopped: After, attempt: Option<AttemptId>,
      me: EngineId)
    requires e != me && r.rounds != []
    ensures SameCopy(s, SaveOrInterrupt(s, e, r, after, stopped, attempt), me)
  {
    hide BeginSave, Interrupted;
    SaveKeeps(s, e, r, after, attempt, me);
    SaveKeeps(s, e, Interrupted(r), stopped, attempt, me);
  }

  lemma ActKeeps(s: System, e: EngineId, en: Instance, a: Action, me: EngineId)
    requires CanAct(s, en, a) && e != me
    ensures SameCopy(s, Act(s, e, en, a), me)
  {
    hide MayFollow, Reservation, SettledPrice, Interrupted, Limited, Committed, Started, Grown, Settled, Proposal,
      Records, Resume, Good, UsageOk, BeginSave, SaveOrInterrupt;
    match a
    case Recover => SaveKeeps(s, e, Interrupted(en.r), ToIdle, None, me);
    case Limit => SaveKeeps(s, e, Limited(en.r), ToIdle, None, me);
    case Commit(id) =>
      if Reservation(en.r) != Overflow {
        CommittedHasRound(en.r, id);
        AttemptKeeps(s, e, Committed(en.r, id), ToPreparing, Uncommitted, Some(id), me);
      }
    case Prepared =>
      StartedHasRound(en.r);
      AttemptKeeps(s, e, Started(en.r), ToReady, ToIdle, en.attempt, me);
    case Fail => SaveKeeps(s, e, Interrupted(en.r), ToIdle, en.attempt, me);
    case Chunk(text) =>
      var over := |text| > MAX_VISIBLE - Chars(en.r.rounds);
      GrownHasRound(en.r, text);
      AttemptKeeps(s, e, Grown(en.r, text), ToStreaming(over), ToIdle, en.attempt, me);
    case Finished(usage, finish) =>
      if SettledPrice(usage, en.r.request.route.costRates) == Overflow {
        SaveKeeps(s, e, Interrupted(Noted(en.r, usage, finish)), ToIdle, en.attempt, me);
      } else {
        SaveKeeps(s, e, Settled(en.r, usage, finish), ToIdle, en.attempt, me);
      }
    case Crash =>
    case Open =>
    case Create =>
    case Fill =>
    case FillError =>
    case SaveError =>
    case Conflict =>
  }

  lemma CommittedHasRound(r: Record, id: AttemptId)
    requires RequestOk(r.request) && Reservation(r) != Overflow
    ensures Committed(r, id).rounds != []
  {
  }

  lemma StartedHasRound(r: Record)
    requires r.rounds != []
    ensures Started(r).rounds != []
  {
  }

  lemma GrownHasRound(r: Record, text: Text)
    requires r.rounds != [] && Chars(r.rounds) <= MAX_VISIBLE
    ensures Grown(r, text).rounds != []
  {
  }

  /** An event of one engine leaves the copies of the others alone. */
  lemma OthersUntouched(s: System, ev: Event, me: EngineId)
    requires Enabled(s, ev) && ev.e != me
    ensures SameCopy(s, Apply(s, ev), me)
  {
    hide CanAct, Act, BeginSave, EvidenceOk, NewTask, NormalizeEvidence;
    if ev.a.Plan? {
      SaveKeeps(s, ev.e, NewTask(s.owner, s.task, ev.a.request, NormalizeEvidence(ev.a.evidence)), ToIdle, None, me);
    } else if !ev.a.Load? {
      ActKeeps(s, ev.e, s.engines[ev.e], ev.a, me);
    }
  }

  // ---------------------------------------------------------------- any event

  lemma NamesKept(s: System, ev: Event)
    requires Enabled(s, ev)
    ensures Apply(s, ev).owner == s.owner && Apply(s, ev).task == s.task && Apply(s, ev).found == s.found
  {
    hide BeginSave, SaveOrInterrupt, MayFollow, Reservation, SettledPrice, Interrupted, Limited, Committed, Started,
      Grown, Noted, Settled, Proposal, Records, NewTask, Resume, NormalizeEvidence;
  }

  /** Every event of every engine, the disk or an accident keeps the invariant, and the counts
      of unfit and refused records move exactly at the events named above. */
  lemma StepOk(s: System, ev: Event)
    requires Inv(s) && Enabled(s, ev)
    ensures var t := Apply(s, ev);
            && Inv(t) && t.owner == s.owner && t.task == s.task && t.found == s.found
            && t.unfit == s.unfit + (if BeginsUnfit(s, ev) then 1 else 0)
            && t.refused == s.refused + (if IsRefusal(s, ev) then 1 else 0)
  {
    hide Inv, Apply, Enabled;
    NamesKept(s, ev);
    if ev.a.Create? { CreatingNow(s, ev.e); }
    match ev.a
    case Plan(request, evidence) => PlanOk(s, ev.e, request, evidence);
    case Load => LoadOk(s, ev.e);
    case Crash => CrashOk(s, ev.e);
    case Recover => RecoverOk(s, ev.e);
    case Limit => LimitOk(s, ev.e);
    case Commit(id) => CommitOk(s, ev.e, id);
    case Prepared => PreparedOk(s, ev.e);
    case Fail => FailOk(s, ev.e);
    case Open => OpenOk(s, ev.e);
    case Chunk(text) => ChunkOk(s, ev.e, text);
    case Finished(usage, finish) => FinishedOk(s, ev.e, usage, finish);
    case Create => if IsRefusal(s, ev) { StrayIsRefused(s, ev.e); } else { CreateOk(s, ev.e); }
    case Fill => FillOk(s, ev.e);
    case FillError => FillErrorOk(s, ev.e);
    case SaveError => SaveErrorOk(s, ev.e);
    case Conflict => ConflictOk(s, ev.e);
  }
}
