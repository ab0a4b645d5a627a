/**
 Any number of task engines over one task directory.  Each event is the code between two
 waits of one engine, a wait that ends, or an accident: a failed write, a half-written
 revision file, a process that dies.  Events of different engines interleave freely.
 */
module EngineSystem {
  import opened Wrappers
  import opened Text
  import opened Journal
  import opened Engine

  type EngineId = nat

  const NORMAL_LIMIT := 1023
  const EMERGENCY_LIMIT := 1024

  /** Where an engine continues once its save has returned; `Uncommitted` saves the interruption
      of a round whose own commit the revision limit has stopped. */
  datatype After = ToIdle | ToPreparing | ToReady | ToStreaming(over: bool) | Uncommitted

  datatype Phase =
    | Idle
    | Saving(after: After)    // journal.save called, revision file not created yet
    | Writing(after: After)   // revision file created, body not written yet
    | Preparing               // ATTEMPT_COMMITTED is durable, prepareCall is pending
    | Ready                   // RUNNING is durable, the stream is about to be opened
    | Streaming(checkpoint: nat, over: bool)
    | Failed                  // persistenceFailed

  /** One engine's copy of the task, and the attempt its run loop is inside, if any. */
  datatype Instance = Instance(phase: Phase, r: Record, attempt: Option<AttemptId>)

  datatype System = System(
    owner: string, task: string,
    cells: seq<Cell>,              // the revision files
    engines: map<EngineId, Instance>, // engines that hold a copy of the task
    streams: seq<AttemptId>,       // every stream ever opened, in order
    used: set<AttemptId>,          // every attempt name ever drawn
    found: nat,                    // how many revisions the directory held at the start
    unfit: nat,                    // records passed to the journal that it may not accept
    refused: nat)                  // records the journal has refused, for whatever reason, and prices out of range

  datatype Action =
    | Plan(request: Request, evidence: Option<Evidence>)
    | Load
    | Crash
    | Recover
    | Limit
    | Commit(id: AttemptId)
    | Prepared
    | Fail
    | Open
    | Chunk(text: Text)
    | Finished(usage: RawUsage, finish: Finish)
    | Create
    | Fill
    | FillError
    | SaveError
    | Conflict

  datatype Event = Event(e: EngineId, a: Action)

  function Names(rounds: seq<Round>): set<AttemptId> { set i | 0 <= i < |rounds| :: rounds[i].attemptId }

  /** The directory as the engines find it: empty, or with the revisions of a stored task. */
  function Init(owner: string, task: string, cells: seq<Cell>): System {
    var used := if cells != [] && cells[|cells| - 1].Full? then Names(cells[|cells| - 1].record.rounds) else {};
    System(owner, task, cells, map[], [], used, |cells|, 0, 0)
  }

  // ---------------------------------------------------------------- evidence

  predicate SafeInteger(n: int) { -MAX_SAFE_INTEGER <= n <= MAX_SAFE_INTEGER }

  /** `normalizeEvidence`: malformed evidence is dropped; its dates are not compared. */
  function NormalizeEvidence(evidence: Option<Evidence>): Option<Evidence> {
    if evidence.Some? && LegalId(evidence.value.evidenceId) && SafeInteger(evidence.value.issuedAt)
      && SafeInteger(evidence.value.expiresAt)
    then evidence else None
  }

  /** Evidence that `normalizeEvidence` keeps although the journal cannot store its dates. */
  predicate BadDates(evidence: Option<Evidence>) {
    var e := NormalizeEvidence(evidence);
    e.Some? && !(0 <= e.value.issuedAt < e.value.expiresAt)
  }

  // ---------------------------------------------------------------- events

  predicate RoomToRun(r: Record) {
    && |r.rounds| < r.request.maxRounds
    && WireChars(Messages(r.request, r.rounds)) <= r.request.contextChars
    && Chars(r.rounds) < MAX_VISIBLE
  }

  /** The directory is torn, or does not hold exactly the revisions up to this one. */
  predicate MovedOn(cells: seq<Cell>, revision: int) { !Readable(cells) || |cells| != revision }

  /** What an engine that holds the task can do next. */
  predicate CanAct(s: System, en: Instance, a: Action) {
    match a
    case Plan(_, _) => false
    case Load => false
    case Crash => true
    case Recover => en.phase == Idle && IsInFlight(en.r.status) && en.r.rounds != [] && en.r.revision < EMERGENCY_LIMIT
    case Limit => en.phase == Idle && IsSafe(en.r.status) && en.r.revision < EMERGENCY_LIMIT
    case Commit(id) =>
      en.phase == Idle && IsSafe(en.r.status) && RequestOk(en.r.request) && RoomToRun(en.r) && id !in s.used
    case Prepared => en.phase == Preparing && en.r.rounds != []
    case Fail => (en.phase == Preparing || en.phase == Ready || en.phase.Streaming?) && en.r.rounds != []
    case Open => en.phase == Ready && en.attempt.Some?
    case Chunk(text) =>
      en.phase.Streaming? && !en.phase.over && en.r.rounds != [] && Chars(en.r.rounds) <= MAX_VISIBLE
    case Finished(usage, finish) =>
      en.phase.Streaming? && !en.phase.over && en.r.rounds != [] && RequestOk(en.r.request) &&
      UsageOk(usage) && finish in {Stop, MaxTokens}
    case Create => en.phase.Saving? && Readable(s.cells) && |s.cells| == en.r.revision
    case Fill =>
      en.phase.Writing? && 0 <= en.r.revision < |s.cells| && (en.phase.after.ToStreaming? ==> en.r.rounds != [])
    case FillError => en.phase.Writing? && 0 <= en.r.revision < |s.cells|
    case SaveError => en.phase.Saving? || en.phase.Writing?
    case Conflict => en.phase.Saving? && MovedOn(s.cells, en.r.revision)
  }

  predicate Enabled(s: System, ev: Event) {
    if ev.a.Plan? then ev.e !in s.engines && s.cells == [] && RequestOk(ev.a.request)
    else if ev.a.Load? then ev.e !in s.engines && s.cells != [] && Readable(s.cells)
    else ev.e in s.engines && CanAct(s, s.engines[ev.e], ev.a)
  }

  function With(s: System, e: EngineId, en: Instance): System { s.(engines := s.engines[e := en]) }

  function Broken(s: System, e: EngineId, r: Record): System { With(s, e, Instance(Failed, r, None)) }

  /** The durable revision that the record `r` is meant to follow. */
  function Own(cells: seq<Cell>, r: Record): Option<Record> {
    if 0 < r.revision <= |cells| && cells[r.revision - 1].Full? then Some(cells[r.revision - 1].record) else None
  }

  /** `save` up to its first wait: the revision limit, the ledger and the record check.  Whether
      the record may follow the last one is found out when its file is about to be created. */
  function BeginSave(s: System, e: EngineId, r: Record, after: After, attempt: Option<AttemptId>): (t: System)
    ensures t.owner == s.owner && t.task == s.task && t.streams == s.streams && t.cells == s.cells
    ensures t.found == s.found && t.used == s.used
  {
    if r.revision >= EMERGENCY_LIMIT then Broken(s, e, r)
    else if !Good(Proposal(r)) then Broken(s, e, r).(unfit := s.unfit + 1, refused := s.refused + 1)
    else With(s, e, Instance(Saving(after), r, attempt))
      .(unfit := s.unfit + if MayFollow(Own(s.cells, r), Proposal(r)) then 0 else 1)
  }

  /** A save inside an attempt stops one revision earlier; the attempt is then interrupted. */
  function SaveOrInterrupt(s: System, e: EngineId, r: Record, after: After, stopped: After,
      attempt: Option<AttemptId>): (t: System)
    requires r.rounds != []
    ensures t.owner == s.owner && t.task == s.task && t.streams == s.streams && t.cells == s.cells
    ensures t.found == s.found && t.used == s.used
  {
    if r.revision < NORMAL_LIMIT then BeginSave(s, e, r, after, attempt)
    else BeginSave(s, e, Interrupted(r), stopped, attempt)
  }

  function Resume(after: After, r: Record): Phase
    requires after.ToStreaming? ==> r.rounds != []
  {
    match after
    case ToIdle => Idle
    case Uncommitted => Idle
    case ToPreparing => Preparing
    case ToReady => Ready
    case ToStreaming(over) => Streaming(|Last(r.rounds).visibleText|, over)
  }

  function Act(s: System, e: EngineId, en: Instance, a: Action): System
    requires CanAct(s, en, a)
  {
    match a
    case Crash => s.(engines := s.engines - {e})
    case Recover => BeginSave(s, e, Interrupted(en.r), ToIdle, None)
    case Limit => BeginSave(s, e, Limited(en.r), ToIdle, None)
    case Commit(id) =>
      if Reservation(en.r) == Overflow then s.(refused := s.refused + 1)
      else SaveOrInterrupt(s, e, Committed(en.r, id), ToPreparing, Uncommitted, Some(id)).(used := s.used + {id})
    case Prepared => SaveOrInterrupt(s, e, Started(en.r), ToReady, ToIdle, en.attempt)
    case Fail => BeginSave(s, e, Interrupted(en.r), ToIdle, en.attempt)
    case Open => With(s, e, en.(phase := Streaming(0, false))).(streams := s.streams + [en.attempt.value])
    case Chunk(text) =>
      var r, over := Grown(en.r, text), |text| > MAX_VISIBLE - Chars(en.r.rounds);
      if |Last(r.rounds).visibleText| - en.phase.checkpoint >= 2048
      then SaveOrInterrupt(s, e, r, ToStreaming(over), ToIdle, en.attempt)
      else With(s, e, Instance(Streaming(en.phase.checkpoint, over), r, en.attempt))
    case Finished(usage, finish) =>
      if SettledPrice(usage, en.r.request.route.costRates) == Overflow
      then BeginSave(s, e, Interrupted(Noted(en.r, usage, finish)), ToIdle, en.attempt)
      else BeginSave(s, e, Settled(en.r, usage, finish), ToIdle, en.attempt)
    case Create =>
      if MayFollow(Before(Records(s.cells), |s.cells|), Proposal(en.r))
      then With(s, e, en.(phase := Writing(en.phase.after))).(cells := s.cells + [Torn])
      else Broken(s, e, en.r).(refused := s.refused + 1)
    case Fill =>
      var p := Proposal(en.r);
      With(s, e, Instance(Resume(en.phase.after, p), p, if en.phase.after == ToIdle then None else en.attempt))
        .(cells := s.cells[en.r.revision := Full(p)])
    case FillError => Broken(s, e, en.r).(cells := s.cells[en.r.revision := Full(Proposal(en.r))])
    case SaveError => Broken(s, e, en.r)
    case Conflict => Broken(s, e, en.r).(refused := s.refused + 1)
  }

  /** `plan`: a journal that cannot store the evidence says so when the task is saved. */
  function PlanTask(s: System, e: EngineId, request: Request, evidence: Option<Evidence>): System {
    BeginSave(s, e, NewTask(s.owner, s.task, request, NormalizeEvidence(evidence)), ToIdle, None)
  }

  function Apply(s: System, ev: Event): System
    requires Enabled(s, ev)
  {
    if ev.a.Plan? then PlanTask(s, ev.e, ev.a.request, ev.a.evidence)
    else if ev.a.Load? then With(s, ev.e, Instance(Idle, s.cells[|s.cells| - 1].record, None))
    else Act(s, ev.e, s.engines[ev.e], ev.a)
  }

  predicate IsRun(s: System, evs: seq<Event>, t: System)
    decreases |evs|
  {
    if evs == [] then s == t else Enabled(s, evs[0]) && IsRun(Apply(s, evs[0]), evs[1..], t)
  }
}
