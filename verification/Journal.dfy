/**
 The task journal: what one stored revision must look like on its own, which revision may
 follow which, and what a reader gets from a whole directory of revisions.
 */
module Journal {
  import opened Wrappers
  import opened Text

  const MAX_REVISIONS := 1024
  const MAX_VISIBLE := 262144
  const MAX_SAFE_INTEGER := 0x1F_FFFF_FFFF_FFFF

  predicate Integer(n: int) { 0 <= n <= MAX_SAFE_INTEGER }

  // ---------------------------------------------------------------- data

  datatype Status =
    | Planned | AttemptCommitted | Running | ContinuationReady
    | Completed | PartialLimit | NoProgress | InterruptedUncertain

  datatype Finish = Stop | MaxTokens | ErrorFinish | Aborted | ToolCalls

  /** Token counts as the provider sends them; `total` and `reasoning` may be missing. */
  datatype RawUsage = RawUsage(input: int, cacheRead: int, output: int, total: Option<int>,
                               cacheWrite: int, reasoning: Option<int>)

  datatype Rates = Rates(inputMicros: int, outputMicros: int)

  datatype Route = Route(provider: string, model: string, effort: string, maxTokens: int,
                         costRates: Option<Rates>)

  datatype Request = Request(prompt: Text, route: Route, maxRounds: int, contextChars: int,
                             createdAt: int, deadlineAt: int)

  /** SHA-256 of the serialized request, modelled by what was hashed. */
  datatype Digest = Digest(preimage: Request)

  type AttemptId = nat

  datatype RoundRoute = RoundRoute(provider: string, model: string, effort: string)

  datatype Round = Round(attemptId: AttemptId, status: Status, visibleText: Text, finish: Option<Finish>,
                         usage: Option<RawUsage>, cost: Option<int>, hold: Option<int>,
                         route: Option<RoundRoute>)

  datatype Evidence = Evidence(evidenceId: string, issuedAt: int, expiresAt: int, rest: string)

  datatype Record = Record(owner: string, task: string, revision: int, status: Status, request: Request,
                           requestHash: Digest, rounds: seq<Round>, spent: int, held: int,
                           costUnknown: bool, evidence: Option<Evidence>)

  // ---------------------------------------------------------------- arithmetic

  /** A price computation either has no rates to work with, yields whole micro-dollars, or
      leaves the range of exact integers and is refused. */
  datatype Price = Unpriced | Micros(amount: nat) | Overflow

  /** Micro-dollars for token counts, rounded up. */
  function PriceOf(input: nat, output: nat, rates: Option<Rates>): Price
    requires rates.Some? ==> rates.value.inputMicros >= 0 && rates.value.outputMicros >= 0
  {
    if rates.None? then Unpriced else
    var n := input * rates.value.inputMicros + output * rates.value.outputMicros;
    if Integer(n) then Micros((n + 999_999) / 1_000_000) else Overflow
  }

  /** The stored field (`null` or a number) that records price `p`. */
  predicate Stores(field: Option<int>, p: Price) {
    match p
    case Unpriced => field == None
    case Micros(amount) => field == Some(amount)
    case Overflow => false
  }

  /** What must be recorded for `input` and `output` tokens, said without computing a price: nothing
      without rates; otherwise the charge, in millionths of a micro-dollar, is an exact integer, and
      the field is the least number of micro-dollars that covers it. */
  predicate Charged(field: Option<int>, input: int, output: int, rates: Option<Rates>) {
    if rates == None then field == None else
    var charge := input * rates.value.inputMicros + output * rates.value.outputMicros;
    && charge <= MAX_SAFE_INTEGER && field.Some?
    && 1_000_000 * (field.value - 1) < charge <= 1_000_000 * field.value
  }

  lemma PriceIsCharged(field: Option<int>, input: nat, output: nat, rates: Option<Rates>)
    requires rates.Some? ==> rates.value.inputMicros >= 0 && rates.value.outputMicros >= 0
    ensures Stores(field, PriceOf(input, output, rates)) <==> Charged(field, input, output, rates)
    ensures PriceOf(input, output, rates) == Overflow <==>
              rates.Some? && input * rates.value.inputMicros + output * rates.value.outputMicros > MAX_SAFE_INTEGER
  {
    if rates.Some? {
      var charge := input * rates.value.inputMicros + output * rates.value.outputMicros;
      assert input * rates.value.inputMicros >= 0 && output * rates.value.outputMicros >= 0;
      var amount := (charge + 999_999) / 1_000_000;
      assert 1_000_000 * (amount - 1) < charge <= 1_000_000 * amount;
    }
  }

  /** The user turn that asks for more; both the engine and the journal count its bytes. */
  const CONTINUE: Text :=
    Units("Continue from your previous answer without repeating it. Complete the original request.")

  /** UTF-8 length of everything a continuation resends for the rounds before it, doubled. */
  function ResentBytes(rounds: seq<Round>): nat {
    if rounds == [] then 0
    else ResentBytes(rounds[..|rounds| - 1]) + 2 * (ByteLength(rounds[|rounds| - 1].visibleText) + ByteLength(CONTINUE))
  }

  /** The reservation a round must carry while it is unsettled. */
  function HoldFor(req: Request, prior: seq<Round>): Price
    requires RequestOk(req)
  {
    PriceOf(1024 + 2 * ByteLength(req.prompt) + ResentBytes(prior), req.route.maxTokens, req.route.costRates)
  }

  function SettledPrice(u: RawUsage, rates: Option<Rates>): Price
    requires UsageOk(u)
    requires rates.Some? ==> rates.value.inputMicros >= 0 && rates.value.outputMicros >= 0
  {
    if u.cacheWrite > 0 then Unpriced else PriceOf(u.input + u.cacheRead, u.output, rates)
  }

  function OrZero(n: Option<int>): int { if n.Some? then n.value else 0 }

  function Spent(rounds: seq<Round>): int {
    if rounds == [] then 0 else Spent(rounds[..|rounds| - 1]) + OrZero(rounds[|rounds| - 1].cost)
  }

  function Held(rounds: seq<Round>): int {
    if rounds == [] then 0 else Held(rounds[..|rounds| - 1]) + OrZero(rounds[|rounds| - 1].hold)
  }

  predicate Unknown(rounds: seq<Round>) {
    exists i :: 0 <= i < |rounds| && rounds[i].cost == None
  }

  function Chars(rounds: seq<Round>): nat {
    if rounds == [] then 0 else Chars(rounds[..|rounds| - 1]) + |rounds[|rounds| - 1].visibleText|
  }

  // ---------------------------------------------------------------- one record on its own

  predicate UsageOk(u: RawUsage) {
    && Integer(u.input) && Integer(u.cacheRead) && Integer(u.output) && Integer(u.cacheWrite)
    && var total := u.input + u.cacheRead + u.cacheWrite + u.output;
    && Integer(total)
    && (u.total == None || u.total == Some(total))
    && (u.reasoning.Some? ==> Integer(u.reasoning.value) && u.reasoning.value <= u.output)
  }

  function NormalizeUsage(u: RawUsage): (n: RawUsage)
    requires UsageOk(u)
    ensures UsageOk(n)
  {
    u.(total := Some(u.input + u.cacheRead + u.cacheWrite + u.output))
  }

  predicate Word(s: string, max: nat, extra: string) {
    0 < |s| <= max &&
    forall i :: 0 <= i < |s| ==> 'A' <= s[i] <= 'Z' || 'a' <= s[i] <= 'z' || '0' <= s[i] <= '9' || s[i] in extra
  }

  predicate RouteOk(r: Route) {
    && Word(r.provider, 128, "_.-") && Word(r.model, 192, "_./:-") && Word(r.effort, 32, "_-")
    && 0 < r.maxTokens <= 262144
    && (r.costRates.Some? ==>
          0 <= r.costRates.value.inputMicros <= 1_000_000_000 && 0 <= r.costRates.value.outputMicros <= 1_000_000_000)
  }

  predicate RequestOk(r: Request) {
    && Trim(r.prompt) != [] && |r.prompt| <= 160000
    && RouteOk(r.route)
    && 1 <= r.maxRounds <= 8
    && 1 <= r.contextChars <= 500000
    && Integer(r.createdAt) && Integer(r.deadlineAt) && 0 < r.deadlineAt - r.createdAt <= 900000
  }

  predicate LegalId(id: string) {
    |id| == 32 && id[0] == 'e' && forall i :: 1 <= i < 32 ==> '0' <= id[i] <= '9' || 'a' <= id[i] <= 'f'
  }

  predicate EvidenceOk(e: Evidence) {
    LegalId(e.evidenceId) && Integer(e.issuedAt) && Integer(e.expiresAt) && e.expiresAt > e.issuedAt
  }

  /** What is checked of round `i` of a record, given the rounds before it. */
  predicate RoundOk(req: Request, rounds: seq<Round>, i: nat)
    requires RequestOk(req) && i < |rounds|
  {
    var v := rounds[i];
    && v.status in {AttemptCommitted, Running, Completed, InterruptedUncertain}
    && (i == |rounds| - 1 || v.status == Completed)
    && (v.usage.Some? ==> UsageOk(v.usage.value) && v.usage.value.total.Some?)
    && (v.cost.Some? ==> Integer(v.cost.value))
    && (v.hold.Some? ==> Integer(v.hold.value))
    && (if v.status == Completed then
          && v.usage.Some? && v.finish in {Some(Stop), Some(MaxTokens)}
          && Stores(v.cost, SettledPrice(v.usage.value, req.route.costRates))
          && v.hold == (if req.route.costRates == None then None else Some(0))
        else
          v.cost == None && Stores(v.hold, HoldFor(req, rounds[..i])))
    && (v.route.Some? ==> v.route.value == RoundRoute(req.route.provider, req.route.model, req.route.effort))
  }

  /** The same about cost and hold, said by what they cover: the tokens a settled round used, or
      else everything that is sent for it and all it may answer. */
  predicate RightlyPriced(req: Request, prior: seq<Round>, v: Round) {
    var rates := req.route.costRates;
    if v.status == Completed then
      && v.usage.Some? && v.hold == (if rates == None then None else Some(0))
      && var u := v.usage.value;
         if u.cacheWrite > 0 then v.cost == None else Charged(v.cost, u.input + u.cacheRead, u.output, rates)
    else
      && v.cost == None
      && Charged(v.hold, 1024 + 2 * ByteLength(req.prompt) + ResentBytes(prior), req.route.maxTokens, rates)
  }

  lemma OkIsRightlyPriced(req: Request, rounds: seq<Round>, i: nat)
    requires RequestOk(req) && i < |rounds|
    ensures RoundOk(req, rounds, i) ==> RightlyPriced(req, rounds[..i], rounds[i])
  {
    RatesAreNatural(req);
    var v, rates := rounds[i], req.route.costRates;
    if RoundOk(req, rounds, i) {
      hide RequestOk, PriceOf, Charged, ByteLength, ResentBytes;
      if v.status == Completed {
        PriceIsCharged(v.cost, v.usage.value.input + v.usage.value.cacheRead, v.usage.value.output, rates);
      } else {
        var input := 1024 + 2 * ByteLength(req.prompt) + ResentBytes(rounds[..i]);
        PriceIsCharged(v.hold, input, req.route.maxTokens, rates);
      }
    }
  }

  lemma RatesAreNatural(req: Request)
    requires RequestOk(req)
    ensures req.route.maxTokens > 0
    ensures req.route.costRates.Some? ==>
              req.route.costRates.value.inputMicros >= 0 && req.route.costRates.value.outputMicros >= 0
  {
  }

  predicate DistinctAttempts(rounds: seq<Round>) {
    forall i, j :: 0 <= i < j < |rounds| ==> rounds[i].attemptId != rounds[j].attemptId
  }

  predicate RoundsOk(req: Request, rounds: seq<Round>)
    requires RequestOk(req)
  {
    && DistinctAttempts(rounds)
    && Chars(rounds) <= MAX_VISIBLE
    && forall i :: 0 <= i < |rounds| ==> RoundOk(req, rounds, i)
  }

  function Last(rounds: seq<Round>): Round
    requires rounds != []
  {
    rounds[|rounds| - 1]
  }

  /** How the record's status must agree with its last round. */
  predicate StatusOk(status: Status, rounds: seq<Round>, maxRounds: int) {
    match status
    case Planned => rounds == []
    case PartialLimit => true
    case ContinuationReady =>
      rounds != [] && Last(rounds).status == Completed && Last(rounds).finish == Some(MaxTokens) &&
      Trim(Last(rounds).visibleText) != [] && |rounds| < maxRounds
    case Completed => rounds != [] && Last(rounds).status == Completed
    case NoProgress => rounds != [] && Last(rounds).status == Completed
    case _ => rounds != [] && Last(rounds).status == status
  }

  /** A record that `normalizeRecord` returns instead of throwing. */
  predicate Accepts(r: Record, owner: string, task: string, revision: int) {
    && r.owner == owner && r.task == task && r.revision == revision && 1 <= revision <= MAX_REVISIONS
    && RequestOk(r.request) && r.requestHash == Digest(r.request)
    && |r.rounds| <= r.request.maxRounds
    && RoundsOk(r.request, r.rounds)
    && Integer(Spent(r.rounds)) && Integer(Held(r.rounds))
    && r.spent == Spent(r.rounds) && r.held == Held(r.rounds) && r.costUnknown == Unknown(r.rounds)
    && StatusOk(r.status, r.rounds, r.request.maxRounds)
    && (r.evidence.Some? ==> EvidenceOk(r.evidence.value))
  }

  // ---------------------------------------------------------------- one record after another

  predicate StatusMayFollow(before: Status, after: Status) {
    match before
    case Planned => after in {AttemptCommitted, PartialLimit}
    case AttemptCommitted => after in {Running, InterruptedUncertain}
    case Running => after in {Running, ContinuationReady, Completed, PartialLimit, NoProgress, InterruptedUncertain}
    case ContinuationReady => after in {AttemptCommitted, PartialLimit}
    case _ => false
  }

  predicate IsTerminal(s: Status) { s in {Completed, PartialLimit, NoProgress, InterruptedUncertain} }

  predicate RoundMayFollow(a: Round, b: Round) {
    && a.attemptId == b.attemptId && a.visibleText <= b.visibleText
    && (if a.status == Completed then a == b
        else
          && b.status in (if a.status == AttemptCommitted then {Running, InterruptedUncertain}
                          else {Running, Completed, InterruptedUncertain})
          && (b.status != Completed ==> a.hold == b.hold))
  }

  /** A record that `validateTransition` lets follow `before` (`None`: the first one). */
  predicate MayFollow(before: Option<Record>, after: Record) {
    if before.None? then after.revision == 1 && after.status == Planned && after.rounds == [] else
    var b := before.value;
    && after.revision == b.revision + 1 && after.requestHash == b.requestHash
    && after.evidence == b.evidence
    && StatusMayFollow(b.status, after.status)
    && |after.rounds| == |b.rounds| + (if after.status == AttemptCommitted then 1 else 0)
    && forall i :: 0 <= i < |b.rounds| ==> RoundMayFollow(b.rounds[i], after.rounds[i])
  }

  // ---------------------------------------------------------------- a directory of records

  /** One revision file: created but not (or not fully) written, or readable. */
  datatype Cell = Torn | Full(record: Record)

  function Before(h: seq<Record>, i: nat): Option<Record>
    requires i <= |h|
  {
    if i == 0 then None else Some(h[i - 1])
  }

  /** Revision number `i + 1` is acceptable by itself and after its predecessor. */
  predicate AcceptedAt(h: seq<Record>, owner: string, task: string, i: nat)
    requires i < |h|
  {
    Accepts(h[i], owner, task, i + 1) && MayFollow(Before(h, i), h[i])
  }

  predicate History(h: seq<Record>, owner: string, task: string) {
    forall i :: 0 <= i < |h| ==> AcceptedAt(h, owner, task, i)
  }

  predicate Readable(cells: seq<Cell>) { forall i :: 0 <= i < |cells| ==> cells[i].Full? }

  function Records(cells: seq<Cell>): (h: seq<Record>)
    requires Readable(cells)
    ensures |h| == |cells| && forall i :: 0 <= i < |h| ==> h[i] == cells[i].record
  {
    seq(|cells|, i requires 0 <= i < |cells| => cells[i].record)
  }

  /** The whole directory can be read back. */
  predicate Sound(cells: seq<Cell>, owner: string, task: string) {
    |cells| <= MAX_REVISIONS && Readable(cells) && History(Records(cells), owner, task)
  }
}
