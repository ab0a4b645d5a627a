/**
 Routes, roles and pools, the policy of a task, and when a recorded probe of a route is good
 enough for a task (routes.mjs).
 */
module Routes {
  import opened Wrappers
  import T = Text

  // ---------------------------------------------------------------- names

  datatype Provider = Codex | Claude | DeepSeek | Moonshot | OtherProvider(name: string)

  datatype Model =
    | Luna | Terra | Sol | Astra | Sonnet | Opus | Fable | Flash | V4Flash | V4Pro | KimiK3 | KimiK26 | KimiCode
    | KimiCodeFast | OtherModel(name: string)

  datatype Effort = Medium | HighEffort | Xhigh | Max | OtherEffort(name: string)

  datatype Pool = Economy | Balanced | Advanced | LongHorizon

  datatype Role = Standard | Deep | Review | Vision | Domain

  datatype Risk = LowRisk | MediumRisk | HighRisk | CriticalRisk | OtherRisk

  datatype Complexity = Routine | Moderate | Complex | OtherComplexity

  datatype DataClass = Public | Internal | Confidential | Restricted | OtherClass

  datatype Capability = Text | Tools | Image | StructuredOutput | Video | OtherCapability

  datatype PoolName = Known(pool: Pool) | OtherPool

  datatype RouteId =
    | CodexLuna | CodexTerra | CodexSol | CodexAstra | ClaudeSonnet | ClaudeOpus | ClaudeFable | DeepseekV41Flash
    | DeepseekV4Flash | DeepseekV4Pro | KimiK3Route | KimiK3256k | KimiCoding | KimiHighspeed

  function ProviderOf(id: RouteId): Provider {
    match id
    case CodexLuna => Codex case CodexTerra => Codex case CodexSol => Codex case CodexAstra => Codex
    case ClaudeSonnet => Claude case ClaudeOpus => Claude case ClaudeFable => Claude
    case DeepseekV41Flash => DeepSeek case DeepseekV4Flash => DeepSeek case DeepseekV4Pro => DeepSeek
    case KimiK3Route => Moonshot case KimiK3256k => Moonshot case KimiCoding => Moonshot case KimiHighspeed => Moonshot
  }

  function ModelOf(id: RouteId): Model {
    match id
    case CodexLuna => Luna case CodexTerra => Terra case CodexSol => Sol case CodexAstra => Astra
    case ClaudeSonnet => Sonnet case ClaudeOpus => Opus case ClaudeFable => Fable
    case DeepseekV41Flash => Flash case DeepseekV4Flash => V4Flash case DeepseekV4Pro => V4Pro
    case KimiK3Route => KimiK3 case KimiK3256k => KimiK26 case KimiCoding => KimiCode case KimiHighspeed => KimiCodeFast
  }

  function Priority(pool: Pool): seq<RouteId> {
    match pool
    case Economy => [CodexLuna, DeepseekV4Flash, KimiK3256k, ClaudeSonnet]
    case Balanced => [CodexTerra, ClaudeSonnet, DeepseekV41Flash]
    case Advanced => [CodexSol, ClaudeOpus, KimiK3Route]
    case LongHorizon => [ClaudeFable, CodexAstra, KimiK3Route]
  }

  function EffortOf(id: RouteId, pool: Pool): Effort {
    var subscription := ProviderOf(id) == Codex || ProviderOf(id) == Claude;
    match pool
    case LongHorizon => if subscription then Xhigh else Max
    case Advanced => HighEffort
    case _ => if subscription then Medium else HighEffort
  }

  function RolePool(role: Role): Pool {
    match role
    case Deep => Advanced
    case Review => Advanced
    case Domain => Advanced
    case _ => Balanced
  }

  // ---------------------------------------------------------------- the policy of a task

  /** What a caller says about a task.  `None` is an absent or unusable field. */
  datatype Task = Task(
    role: Option<Role>, categoryOk: bool, risk: Risk, complexity: Complexity, escalate: Option<bool>, intentOk: bool,
    pool: Option<PoolName>, dataClass: Option<DataClass>, capabilities: seq<Capability>)

  datatype Ground =
    | CallerRequested | RoleRequiresAdvanced | CriticalGround | HighGround | ComplexGround | RestrictedGround
    | Insufficient

  datatype Policy = Policy(role: Role, pool: Pool, grounds: seq<Ground>)

  function Signals(task: Task, role: Role): seq<Ground> {
    (if RolePool(role) == Advanced then [RoleRequiresAdvanced] else [])
    + (if task.risk == CriticalRisk then [CriticalGround] else if task.risk == HighRisk then [HighGround] else [])
    + (if task.complexity == Complex then [ComplexGround] else [])
    + (if task.dataClass == Some(Restricted) then [RestrictedGround] else [])
  }

  function Escalation(task: Task, role: Role): (Pool, seq<Ground>) {
    if task.escalate == Some(true) then (LongHorizon, [CallerRequested]) else
    var grounds := Signals(task, role);
    if RoleRequiresAdvanced in grounds || CriticalGround in grounds || |grounds| >= 2 then (Advanced, grounds)
    else (Balanced, if grounds == [] then [] else grounds + [Insufficient])
  }

  function TaskPolicy(task: Task): Option<Policy> {
    if task.role == None || !task.categoryOk || task.risk == OtherRisk || task.complexity == OtherComplexity
       || task.escalate == None || !task.intentOk || task.pool == Some(OtherPool) || task.dataClass == Some(OtherClass)
       || OtherCapability in task.capabilities then None
    else
      var (normal, grounds) := Escalation(task, task.role.value);
      Some(Policy(task.role.value, if task.pool.Some? then task.pool.value.pool else normal, grounds))
  }

  /** What a task says about itself that argues for a stronger model. */
  predicate Argues(task: Task, role: Role, g: Ground) {
    match g
    case CallerRequested => false
    case RoleRequiresAdvanced => role in {Deep, Review, Domain}
    case CriticalGround => task.risk == CriticalRisk
    case HighGround => task.risk == HighRisk
    case ComplexGround => task.complexity == Complex
    case RestrictedGround => task.dataClass == Some(Restricted)
    case Insufficient => false
  }

  /** A role that demands it or a critical risk is enough by itself, of anything else it takes two. */
  predicate Demanding(task: Task, role: Role) {
    || Argues(task, role, RoleRequiresAdvanced) || Argues(task, role, CriticalGround)
    || (Argues(task, role, HighGround) && Argues(task, role, ComplexGround))
    || (Argues(task, role, HighGround) && Argues(task, role, RestrictedGround))
    || (Argues(task, role, ComplexGround) && Argues(task, role, RestrictedGround))
  }

  /** The pool of a task: the one asked for; otherwise the long-horizon one exactly if the caller
      escalates, the advanced one exactly if the task is demanding, and never the economy pool.  The
      grounds are what argued for it, and whether that was not enough. */
  lemma PoolExactly(task: Task, p: Policy)
    requires TaskPolicy(task) == Some(p)
    ensures task.role == Some(p.role)
    ensures p.pool == if task.pool.Some? then task.pool.value.pool
                      else if task.escalate == Some(true) then LongHorizon
                      else if Demanding(task, p.role) then Advanced else Balanced
    ensures p.pool == Economy ==> task.pool == Some(Known(Economy))
    ensures task.escalate == Some(true) ==> p.grounds == [CallerRequested]
    ensures task.escalate != Some(true) ==>
              forall g :: g in p.grounds <==>
                Argues(task, p.role, g) || (g == Insufficient && !Demanding(task, p.role) && Argued(task, p.role))
  {
    SignalsAre(task, p.role);
    hide Signals, Demanding, Argues, Argued;
    if task.pool.Some? {
      assert task.pool.value != OtherPool;
      assert task.pool == Some(Known(task.pool.value.pool));
    }
  }

  predicate Argued(task: Task, role: Role) {
    || Argues(task, role, RoleRequiresAdvanced) || Argues(task, role, CriticalGround)
    || Argues(task, role, HighGround) || Argues(task, role, ComplexGround) || Argues(task, role, RestrictedGround)
  }

  lemma SignalsAre(task: Task, role: Role)
    ensures var s := Signals(task, role);
            && (forall g :: g in s <==> Argues(task, role, g)) && (s != [] <==> Argued(task, role))
            && (RoleRequiresAdvanced in s || CriticalGround in s || |s| >= 2 <==> Demanding(task, role))
  {
  }

  /** The economy and balanced pools use the standard effort of a provider, only the others a higher
      one; what is bought by the token has no standard below its deep effort. */
  lemma EffortExactly(id: RouteId, pool: Pool)
    ensures var subscription :=
              id in {CodexLuna, CodexTerra, CodexSol, CodexAstra, ClaudeSonnet, ClaudeOpus, ClaudeFable};
            EffortOf(id, pool) ==
              if pool == LongHorizon then (if subscription then Xhigh else Max)
              else if pool == Advanced || !subscription then HighEffort else Medium
  {
  }

  // ---------------------------------------------------------------- evidence

  datatype CaseName = TextCase | RoundtripCase | ProbeCase(capability: Capability) | OtherCase

  datatype Case = Case(name: CaseName, passed: bool)

  datatype Attestation =
    Attestation(dataClasses: seq<DataClass>, domainEvidence: bool, attestedBy: Option<T.Text>, basis: Option<T.Text>)

  /** A qualification record.  `labelsOk` stands for its version, issuer, build and flag types. */
  datatype Record = Record(
    labelsOk: bool, provider: Provider, model: Model, effort: Effort,
    issuedAt: Option<nat>, expiresAt: Option<nat>, durationMs: Option<nat>,
    available: bool, transportPassed: bool, textPassed: bool, toolPassed: bool, imagePassed: bool,
    caseResults: seq<Case>, allowedDataClasses: seq<DataClass>, domainEvidence: bool, attestation: Option<Attestation>)

  datatype Reason =
    | InvalidQualification | Unattested | Mismatch | Future | Expired | Unavailable | TextOrTransport | ToolRoundtrip
    | ImageRequired | ProbeRequired(capability: Capability) | DataClassNotQualified | DomainRequired

  predicate IsBase(c: DataClass) { c == Public || c == Internal }

  predicate Nonempty(s: Option<T.Text>, longest: nat) { s.Some? && 0 < |s.value| <= longest }

  predicate Widened(q: Record) { q.domainEvidence || exists c :: c in q.allowedDataClasses && !IsBase(c) }

  function CasesNamed(cases: seq<Case>, name: CaseName): seq<Case> {
    if cases == [] then [] else
    (if cases[0].name == name then [cases[0]] else []) + CasesNamed(cases[1..], name)
  }

  /** The case was run exactly once, and passed. */
  predicate Passed(cases: seq<Case>, name: CaseName) { CasesNamed(cases, name) == [Case(name, true)] }

  predicate Needs(task: Task, role: Role, c: Capability) { c in task.capabilities || (c == Image && role == Vision) }

  function ClassOf(task: Task): DataClass { if task.dataClass.Some? then task.dataClass.value else Public }

  function RecordReason(q: Record, id: RouteId, effort: Effort, task: Task, now: nat, role: Role): Option<Reason> {
    if !q.labelsOk || q.issuedAt == None || q.expiresAt == None || q.durationMs == None
       || q.expiresAt.value <= q.issuedAt.value then Some(InvalidQualification)
    else if Widened(q) && (q.attestation == None || !Nonempty(q.attestation.value.attestedBy, 256)
                           || !Nonempty(q.attestation.value.basis, 2000)) then Some(Unattested)
    else if q.provider != ProviderOf(id) || q.model != ModelOf(id) || q.effort != effort then Some(Mismatch)
    else if q.issuedAt.value > now then Some(Future)
    else if q.expiresAt.value <= now then Some(Expired)
    else if !q.available then Some(Unavailable)
    else if !q.transportPassed || !q.textPassed || !Passed(q.caseResults, TextCase) then Some(TextOrTransport)
    else if !q.toolPassed || !Passed(q.caseResults, RoundtripCase) then Some(ToolRoundtrip)
    else if Needs(task, role, Image) && (!q.imagePassed || !Passed(q.caseResults, ProbeCase(Image))) then
      Some(ImageRequired)
    else if Needs(task, role, StructuredOutput) && !Passed(q.caseResults, ProbeCase(StructuredOutput)) then
      Some(ProbeRequired(StructuredOutput))
    else if Needs(task, role, Video) && !Passed(q.caseResults, ProbeCase(Video)) then Some(ProbeRequired(Video))
    else if ClassOf(task) !in q.allowedDataClasses then Some(DataClassNotQualified)
    else if role == Domain && !q.domainEvidence then Some(DomainRequired)
    else None
  }

  predicate Matches(q: Record, id: RouteId, effort: Effort) {
    q.provider == ProviderOf(id) && q.model == ModelOf(id) && q.effort == effort
  }

  function Matching(qs: seq<Record>, id: RouteId, effort: Effort): seq<Record> {
    if qs == [] then [] else (if Matches(qs[0], id, effort) then [qs[0]] else []) + Matching(qs[1..], id, effort)
  }

  function Issued(qs: seq<Record>, at: nat): seq<Record> {
    if qs == [] then [] else (if qs[0].issuedAt == Some(at) then [qs[0]] else []) + Issued(qs[1..], at)
  }

  /** The latest time of issue, 0 for none. */
  function Newest(qs: seq<Record>): nat {
    if qs == [] then 0 else
    var rest := Newest(qs[1..]);
    if qs[0].issuedAt.Some? && qs[0].issuedAt.value > rest then qs[0].issuedAt.value else rest
  }

  predicate Dated(qs: seq<Record>) { forall i :: 0 <= i < |qs| ==> qs[i].issuedAt.Some? }

  datatype Judgement =
    | Missing
    | Undated
    | Ambiguous
    | Refused(reason: Reason, record: Record)
    | Good(record: Record)

  function JudgeMatching(m: seq<Record>, id: RouteId, effort: Effort, task: Task, now: nat, role: Role): Judgement {
    if m == [] then Missing
    else if !Dated(m) then Undated
    else
      var latest := Issued(m, Newest(m));
      if |latest| != 1 then Ambiguous
      else
        match RecordReason(latest[0], id, effort, task, now, role)
        case None => Good(latest[0])
        case Some(r) => Refused(r, latest[0])
  }

  function Judge(qs: seq<Record>, id: RouteId, effort: Effort, task: Task, now: nat, role: Role): Judgement {
    JudgeMatching(Matching(qs, id, effort), id, effort, task, now, role)
  }
}
