/**
 The direct-task engine, block by block: what each stretch of code between two waits does to
 the record it holds in memory, and why the journal can never refuse the result.
 */
module Engine {
  import opened Wrappers
  import opened Text
  import opened Journal

  // ---------------------------------------------------------------- blocks

  predicate IsSafe(s: Status) { s in {Planned, ContinuationReady} }

  predicate IsInFlight(s: Status) { s in {AttemptCommitted, Running} }

  /** The texts sent to the model: the prompt, then each answer and a request to continue. */
  function Messages(req: Request, rounds: seq<Round>): seq<Text> {
    if rounds == [] then [req.prompt]
    else Messages(req, rounds[..|rounds| - 1]) + [Last(rounds).visibleText, CONTINUE]
  }

  function WireChars(wire: seq<Text>): nat {
    if wire == [] then 0 else WireChars(wire[..|wire| - 1]) + |wire[|wire| - 1]|
  }

  function WireBytes(wire: seq<Text>): nat {
    if wire == [] then 0 else WireBytes(wire[..|wire| - 1]) + 2 * ByteLength(wire[|wire| - 1])
  }

  /** The reservation the engine makes before it commits an attempt. */
  function Reservation(r: Record): Price
    requires RequestOk(r.request)
  {
    PriceOf(1024 + WireBytes(Messages(r.request, r.rounds)), r.request.route.maxTokens, r.request.route.costRates)
  }

  function Field(p: Price): Option<int>
    requires p != Overflow
  {
    if p == Unpriced then None else Some(p.amount)
  }

  function NewTask(owner: string, task: string, req: Request, evidence: Option<Evidence>): Record {
    Record(owner, task, 0, Planned, req, Digest(req), [], 0, 0, false, evidence)
  }

  /** `account`, and the revision number the journal is asked to write. */
  function Proposal(r: Record): Record {
    r.(revision := r.revision + 1, spent := Spent(r.rounds), held := Held(r.rounds), costUnknown := Unknown(r.rounds))
  }

  function WithLast(r: Record, v: Round, status: Status): Record
    requires r.rounds != []
  {
    r.(rounds := r.rounds[..|r.rounds| - 1] + [v], status := status)
  }

  function Limited(r: Record): Record { r.(status := PartialLimit) }

  function FreshRound(r: Record, id: AttemptId): Round
    requires RequestOk(r.request) && Reservation(r) != Overflow
  {
    var route := r.request.route;
    Round(id, AttemptCommitted, [], None, None, None, Field(Reservation(r)),
          Some(RoundRoute(route.provider, route.model, route.effort)))
  }

  function Committed(r: Record, id: AttemptId): Record
    requires RequestOk(r.request) && Reservation(r) != Overflow
  {
    r.(rounds := r.rounds + [FreshRound(r, id)], status := AttemptCommitted)
  }

  function Started(r: Record): Record
    requires r.rounds != []
  {
    WithLast(r, Last(r.rounds).(status := Running), Running)
  }

  /** A text chunk is cut to the room that is left. */
  function Grown(r: Record, text: Text): Record
    requires r.rounds != [] && Chars(r.rounds) <= MAX_VISIBLE
  {
    var room := MAX_VISIBLE - Chars(r.rounds);
    var kept := if |text| <= room then text else text[..room];
    WithLast(r, Last(r.rounds).(visibleText := Last(r.rounds).visibleText + kept), r.status)
  }

  function Interrupted(r: Record): Record
    requires r.rounds != []
  {
    WithLast(r, Last(r.rounds).(status := InterruptedUncertain), InterruptedUncertain)
  }

  /** Usage and finish are noted on the round before its price is known. */
  function Noted(r: Record, usage: RawUsage, finish: Finish): Record
    requires r.rounds != [] && UsageOk(usage)
  {
    WithLast(r, Last(r.rounds).(usage := Some(NormalizeUsage(usage)), finish := Some(finish)), r.status)
  }

  function JoinText(rounds: seq<Round>): Text {
    if rounds == [] then [] else JoinText(rounds[..|rounds| - 1]) + Last(rounds).visibleText
  }

  function TextsOf(rounds: seq<Round>): (t: seq<Text>)
    ensures |t| == |rounds| && forall i :: 0 <= i < |t| ==> t[i] == rounds[i].visibleText
  {
    seq(|rounds|, i requires 0 <= i < |rounds| => rounds[i].visibleText)
  }

  /** A round made progress when it shows text that the earlier rounds do not contain. */
  predicate Progress(rounds: seq<Round>)
    requires rounds != []
  {
    var prior := JoinText(rounds[..|rounds| - 1]);
    var visible := Trim(Last(rounds).visibleText);
    visible != [] && (Trim(prior) == [] || !Includes(prior, visible))
  }

  function SettledStatus(r: Record, finish: Finish): Status
    requires r.rounds != []
  {
    if !Progress(r.rounds) then NoProgress
    else if finish == Stop then Completed
    else if |r.rounds| >= r.request.maxRounds then PartialLimit
    else ContinuationReady
  }

  /** The status of a task at the end of a settled round, said by what the round shows and how its
      stream ended: no progress exactly if its text can be read in the earlier texts, or is blank;
      otherwise completed exactly if the stream stopped by itself, and if it was cut off by the
      token limit, the task goes on exactly if there is a round left. */
  ghost predicate SettledAs(r: Record) {
    r.rounds != [] &&
    var last := Last(r.rounds);
    var isNew := IsNew(TextsOf(r.rounds[..|r.rounds| - 1]), last.visibleText);
    && last.status == Completed && last.finish in {Some(Stop), Some(MaxTokens)}
    && (r.status == NoProgress <==> !isNew)
    && (r.status == Completed <==> isNew && last.finish == Some(Stop))
    && (r.status == ContinuationReady <==>
          isNew && last.finish == Some(MaxTokens) && |r.rounds| < r.request.maxRounds)
    && (r.status == PartialLimit <==>
          isNew && last.finish == Some(MaxTokens) && |r.rounds| >= r.request.maxRounds)
  }

  function Settled(r: Record, usage: RawUsage, finish: Finish): Record
    requires r.rounds != [] && UsageOk(usage) && RequestOk(r.request)
    requires SettledPrice(usage, r.request.route.costRates) != Overflow
  {
    var rates := r.request.route.costRates;
    var v := Last(r.rounds).(usage := Some(NormalizeUsage(usage)), finish := Some(finish),
                             cost := Field(SettledPrice(usage, rates)),
                             hold := if rates == None then None else Some(0), status := Completed);
    WithLast(r, v, SettledStatus(r, finish))
  }

  lemma NothingJoined()
    ensures forall p, u :: !UnitAt([], p, u)
  {
  }

  lemma {:induction false} JoinIsJoined(rounds: seq<Round>)
    ensures |JoinText(rounds)| == Length(TextsOf(rounds))
    ensures forall p, u ::
              UnitAt(TextsOf(rounds), p, u) <==> 0 <= p < |JoinText(rounds)| && JoinText(rounds)[p] == u
  {
    hide UnitAt;
    if rounds == [] {
      NothingJoined();
    } else {
      var n := |rounds| - 1;
      JoinIsJoined(rounds[..n]);
      assert TextsOf(rounds) == TextsOf(rounds[..n]) + [Last(rounds).visibleText];
      forall p, u
        ensures UnitAt(TextsOf(rounds), p, u) <==> 0 <= p < |JoinText(rounds)| && JoinText(rounds)[p] == u {
        UnitOfJoin(TextsOf(rounds[..n]), JoinText(rounds[..n]), Last(rounds).visibleText, p, u);
      }
    }
  }

  /** Whether a round made progress, by positions; where the earlier texts are all blank, they
      contain nothing that is left of a text by trimming. */
  lemma ProgressIsNew(rounds: seq<Round>)
    requires rounds != []
    ensures Progress(rounds) <==> IsNew(TextsOf(rounds[..|rounds| - 1]), Last(rounds).visibleText)
  {
    var earlier := rounds[..|rounds| - 1];
    var prior, shown := JoinText(earlier), Trim(Last(rounds).visibleText);
    hide JoinText, TextsOf, Trim, UnitAt, IsBlank;
    if shown != [] {
      JoinIsJoined(earlier);
      IncludesIsShown(TextsOf(earlier), prior, shown);
      if Trim(prior) == [] { BlankIncludesNothing(prior, Last(rounds).visibleText); }
    }
  }

  lemma BlankIncludesNothing(prior: Text, text: Text)
    requires Trim(prior) == [] && Trim(text) != []
    ensures !Includes(prior, Trim(text))
  {
    var a, b := TrimIs(prior);
    var c, d := TrimIs(text);
    hide Trim, IsBlank;
    var t := text[c..d];
    assert !IsBlank(t[0]) && Trim(text) == t;
    forall i | 0 <= i <= |prior| ensures !OccursAt(prior, t, i) {
      if i + |t| <= |prior| {
        assert prior[i..i + |t|][0] == prior[i] && IsBlank(prior[i]);
      }
    }
  }

  /** A settlement leaves the task in the status it accounts for. */
  lemma SettledIsSettledAs(r: Record, usage: RawUsage, finish: Finish)
    requires r.rounds != [] && UsageOk(usage) && RequestOk(r.request) && finish in {Stop, MaxTokens}
    requires SettledPrice(usage, r.request.route.costRates) != Overflow
    ensures SettledAs(Settled(r, usage, finish))
  {
    hide UsageOk, RequestOk, SettledPrice, IsNew, JoinText, TextsOf;
    ProgressIsNew(r.rounds);
    var s := Settled(r, usage, finish);
    assert s.rounds[..|s.rounds| - 1] == r.rounds[..|r.rounds| - 1];
    assert Last(s.rounds).visibleText == Last(r.rounds).visibleText;
  }

  // ---------------------------------------------------------------- two programs, one arithmetic

  /** The engine prices the wire it is about to send; the journal prices the stored rounds.
      Both arrive at the same reservation. */
  lemma ReservationIsExpectedHold(r: Record)
    requires RequestOk(r.request)
    ensures Reservation(r) == HoldFor(r.request, r.rounds)
  {
    WireBytesOfMessages(r.request, r.rounds);
  }

  lemma {:induction false} WireBytesOfMessages(req: Request, rounds: seq<Round>)
    ensures WireBytes(Messages(req, rounds)) == 2 * ByteLength(req.prompt) + ResentBytes(rounds)
  {
    if rounds == [] {
      assert [req.prompt][..0] == [];
    } else {
      WireBytesOfMessages(req, rounds[..|rounds| - 1]);
      WireBytesOfTurn(Messages(req, rounds[..|rounds| - 1]), Last(rounds).visibleText, CONTINUE);
    }
  }

  lemma WireBytesOfTurn(wire: seq<Text>, answer: Text, more: Text)
    ensures WireBytes(wire + [answer, more]) == WireBytes(wire) + 2 * (ByteLength(answer) + ByteLength(more))
  {
    assert (wire + [answer, more])[..|wire| + 1] == wire + [answer];
    assert (wire + [answer])[..|wire|] == wire;
  }

  /** Whatever fits the context limit can be reserved: at three bytes per code unit and the
      highest admissible rates the reservation stays exact. */
  lemma ReservationNeverOverflows(r: Record)
    requires RequestOk(r.request) && WireChars(Messages(r.request, r.rounds)) <= r.request.contextChars
    ensures Reservation(r) != Overflow
  {
    BytesPerChar(Messages(r.request, r.rounds));
    PriceIsExact(1024 + WireBytes(Messages(r.request, r.rounds)), r.request.route);
  }

  lemma PriceIsExact(input: nat, route: Route)
    requires RouteOk(route) && input <= 3_001_024
    ensures PriceOf(input, route.maxTokens, route.costRates) != Overflow
  {
    if route.costRates.Some? {
      ChargeIsExact(input, route.costRates.value.inputMicros, route.maxTokens, route.costRates.value.outputMicros);
    }
  }

  lemma ChargeIsExact(input: nat, inputMicros: nat, output: nat, outputMicros: nat)
    requires input <= 3_001_024 && output <= 262144
    requires inputMicros <= 1_000_000_000 && outputMicros <= 1_000_000_000
    ensures Integer(input * inputMicros + output * outputMicros)
  {
    var x, y := input * inputMicros, output * outputMicros;
    TimesBillion(input, inputMicros, x);
    TimesBillion(output, outputMicros, y);
    assert Integer(x + y);
  }

  lemma TimesBillion(a: nat, b: nat, product: int)
    requires b <= 1_000_000_000 && product == a * b
    ensures 0 <= product <= a * 1_000_000_000
  {
    assert a * b >= 0 && a * (1_000_000_000 - b) >= 0;
    assert a * (1_000_000_000 - b) == a * 1_000_000_000 - a * b;
  }

  lemma {:induction false} BytesPerChar(wire: seq<Text>)
    ensures WireBytes(wire) <= 6 * WireChars(wire)
  {
    if wire == [] {
    } else {
      BytesPerChar(wire[..|wire| - 1]);
    }
  }

  const MAX_AMOUNT := 9_007_199_255

  lemma AmountsAreSmall(req: Request, rounds: seq<Round>, i: nat)
    requires RequestOk(req) && i < |rounds| && RoundOk(req, rounds, i)
    ensures 0 <= OrZero(rounds[i].cost) <= MAX_AMOUNT && 0 <= OrZero(rounds[i].hold) <= MAX_AMOUNT
  {
    hide RouteOk, Word, ByteLength, ResentBytes, UsageOk;
  }

  lemma {:induction false} LedgerBounds(req: Request, rounds: seq<Round>, n: nat)
    requires RequestOk(req) && n <= |rounds|
    requires forall i :: 0 <= i < n ==> RoundOk(req, rounds, i)
    ensures 0 <= Spent(rounds[..n]) <= n * MAX_AMOUNT
    ensures 0 <= Held(rounds[..n]) <= n * MAX_AMOUNT
  {
    hide RequestOk, RoundOk;
    if n == 0 {
    } else {
      LedgerBounds(req, rounds, n - 1);
      AmountsAreSmall(req, rounds, n - 1);
      assert rounds[..n][..n - 1] == rounds[..n - 1];
    }
  }

  /** The ledger of any round table the journal accepts stays exact, so accounting never
      raises an overflow. */
  lemma LedgerNeverOverflows(req: Request, rounds: seq<Round>)
    requires RequestOk(req) && |rounds| <= req.maxRounds
    requires forall i :: 0 <= i < |rounds| ==> RoundOk(req, rounds, i)
    ensures Integer(Spent(rounds)) && Integer(Held(rounds))
  {
    LedgerBounds(req, rounds, |rounds|);
    assert rounds[..|rounds|] == rounds;
  }

  // ---------------------------------------------------------------- blocks against the journal

  predicate Good(r: Record) { Accepts(r, r.owner, r.task, r.revision) }

  /** The record the engine holds agrees with the durable one except for what the running
      attempt has produced since: more text, and perhaps a noted usage and finish. */
  predicate Ahead(base: Record, r: Record) {
    && base.rounds != [] && |r.rounds| == |base.rounds|
    && r == WithLast(base, Last(r.rounds), base.status)
    && var a, b := Last(base.rounds), Last(r.rounds);
    && a.visibleText <= b.visibleText && Chars(r.rounds) <= MAX_VISIBLE
    && b == a.(visibleText := b.visibleText, usage := b.usage, finish := b.finish)
    && (b.usage.Some? ==> UsageOk(b.usage.value) && b.usage.value.total.Some?)
  }

  /** The proposal is a record the journal accepts, directly after `base`. */
  predicate Fits(base: Record, r: Record) {
    Good(Proposal(r)) && MayFollow(Some(base), Proposal(r))
  }

  /** What is checked of an earlier round does not look past the rounds before it. */
  lemma EarlierRoundStays(req: Request, a: seq<Round>, b: seq<Round>, i: nat)
    requires RequestOk(req) && i + 1 < |a| && i + 1 < |b| && a[..i] == b[..i] && a[i] == b[i] && RoundOk(req, a, i)
    ensures RoundOk(req, b, i)
  {
    hide RequestOk, UsageOk, HoldFor, SettledPrice;
  }

  lemma ReplaceLast(req: Request, rounds: seq<Round>, v: Round)
    requires RequestOk(req) && rounds != [] && RoundsOk(req, rounds)
    requires v.attemptId == Last(rounds).attemptId
    ensures var changed := rounds[..|rounds| - 1] + [v];
            Chars(changed) <= MAX_VISIBLE && RoundOk(req, changed, |changed| - 1) ==> RoundsOk(req, changed)
  {
    hide RequestOk, RoundOk, Chars;
    var changed := rounds[..|rounds| - 1] + [v];
    forall i | 0 <= i < |rounds| - 1 ensures RoundOk(req, changed, i) {
      assert RoundOk(req, rounds, i);
      assert changed[..i] == rounds[..i];
      EarlierRoundStays(req, rounds, changed, i);
    }
  }

  lemma CharsOfAppend(rounds: seq<Round>, v: Round)
    ensures Chars(rounds + [v]) == Chars(rounds) + |v.visibleText|
  {
    assert (rounds + [v])[..|rounds|] == rounds;
  }

  lemma ProposalIsGood(r: Record)
    requires 0 <= r.revision < MAX_REVISIONS && RequestOk(r.request) && r.requestHash == Digest(r.request)
    requires |r.rounds| <= r.request.maxRounds && RoundsOk(r.request, r.rounds)
    requires StatusOk(r.status, r.rounds, r.request.maxRounds)
    requires r.evidence.Some? ==> EvidenceOk(r.evidence.value)
    ensures Good(Proposal(r))
  {
    LedgerNeverOverflows(r.request, r.rounds);
  }

  lemma GoodParts(r: Record)
    requires Good(r)
    ensures 1 <= r.revision && RequestOk(r.request) && r.requestHash == Digest(r.request)
    ensures |r.rounds| <= r.request.maxRounds && RoundsOk(r.request, r.rounds)
    ensures r.evidence.Some? ==> EvidenceOk(r.evidence.value)
  {
  }

  /** Replacing the last round of an in-flight record by a state it may move to. */
  lemma LastRoundFits(base: Record, r: Record, v: Round, status: Status)
    requires Good(base) && base.revision < MAX_REVISIONS && Ahead(base, r)
    requires IsInFlight(base.status) && Last(base.rounds).status == base.status
    requires v.visibleText == Last(r.rounds).visibleText && RoundMayFollow(Last(base.rounds), v)
    requires StatusMayFollow(base.status, status) && status != AttemptCommitted
    requires RequestOk(base.request)
    requires RoundOk(base.request, base.rounds[..|base.rounds| - 1] + [v], |base.rounds| - 1)
    requires StatusOk(status, base.rounds[..|base.rounds| - 1] + [v], base.request.maxRounds)
    ensures Fits(base, WithLast(r, v, status))
  {
    hide Good, RoundsOk, RoundOk, RequestOk, EvidenceOk, StatusOk, StatusMayFollow, MayFollow;
    GoodParts(base);
    var n := |base.rounds| - 1;
    var changed := base.rounds[..n] + [v];
    assert r.rounds[..n] == base.rounds[..n];
    CharsOfAppend(base.rounds[..n], v);
    CharsOfAppend(base.rounds[..n], Last(r.rounds));
    assert r.rounds == base.rounds[..n] + [Last(r.rounds)];
    ReplaceLast(base.request, base.rounds, v);
    assert WithLast(r, v, status).rounds == changed;
    ProposalIsGood(WithLast(r, v, status));
    LastRoundFollows(base, Proposal(WithLast(r, v, status)), v);
  }

  lemma LastRoundFollows(base: Record, p: Record, v: Round)
    requires Good(base) && base.rounds != [] && RoundMayFollow(Last(base.rounds), v)
    requires p.rounds == base.rounds[..|base.rounds| - 1] + [v] && p.revision == base.revision + 1
    requires p.requestHash == base.requestHash && p.evidence == base.evidence
    requires StatusMayFollow(base.status, p.status) && p.status != AttemptCommitted
    ensures MayFollow(Some(base), p)
  {
    SettledRoundsStay(base);
    hide Good, RoundMayFollow, StatusMayFollow;
    forall i | 0 <= i < |base.rounds| ensures RoundMayFollow(base.rounds[i], p.rounds[i]) {
      if i < |base.rounds| - 1 {
        assert p.rounds[i] == base.rounds[i];
      }
    }
  }

  lemma SettledRoundsStay(base: Record)
    requires Good(base) && base.rounds != []
    ensures forall i :: 0 <= i < |base.rounds| - 1 ==> RoundMayFollow(base.rounds[i], base.rounds[i])
  {
    hide RequestOk, EvidenceOk, StatusOk, HoldFor, SettledPrice, UsageOk;
    forall i | 0 <= i < |base.rounds| - 1 ensures RoundMayFollow(base.rounds[i], base.rounds[i]) {
      assert RoundOk(base.request, base.rounds, i);
    }
  }

  /** An interruption can be saved from any point of an attempt. */
  lemma InterruptedFits(base: Record, r: Record)
    requires Good(base) && base.revision < MAX_REVISIONS && Ahead(base, r)
    requires IsInFlight(base.status)
    ensures Fits(base, Interrupted(r))
  {
    hide RequestOk, EvidenceOk, HoldFor, SettledPrice, UsageOk, Chars, Spent, Held, Unknown;
    var n := |base.rounds| - 1;
    assert RoundOk(base.request, base.rounds, n);
    var v := Last(r.rounds).(status := InterruptedUncertain);
    assert (base.rounds[..n] + [v])[..n] == base.rounds[..n];
    LastRoundFits(base, r, v, InterruptedUncertain);
  }

  /** The start of a round, and every checkpoint of its text, can be saved. */
  lemma RunningFits(base: Record, r: Record)
    requires Good(base) && base.revision < MAX_REVISIONS && Ahead(base, r)
    requires IsInFlight(base.status)
    ensures Fits(base, Started(r))
  {
    hide RequestOk, EvidenceOk, HoldFor, SettledPrice, UsageOk, Chars, Spent, Held, Unknown;
    var n := |base.rounds| - 1;
    assert RoundOk(base.request, base.rounds, n);
    var v := Last(r.rounds).(status := Running);
    assert (base.rounds[..n] + [v])[..n] == base.rounds[..n];
    LastRoundFits(base, r, v, Running);
  }

  lemma InFlightRound(base: Record)
    requires Good(base) && IsInFlight(base.status)
    ensures base.rounds != [] && Last(base.rounds).status == base.status && Chars(base.rounds) <= MAX_VISIBLE
    ensures var u := Last(base.rounds).usage; u.Some? ==> UsageOk(u.value) && u.value.total.Some?
    ensures var route := Last(base.rounds).route;
            route.Some? ==>
              var own := base.request.route;
              route.value == RoundRoute(own.provider, own.model, own.effort)
  {
    assert RoundOk(base.request, base.rounds, |base.rounds| - 1);
    hide HoldFor;
  }

  lemma SettledRoundOk(req: Request, prior: seq<Round>, v: Round, usage: RawUsage)
    requires RequestOk(req) && UsageOk(usage) && SettledPrice(usage, req.route.costRates) != Overflow
    requires v.status == Completed && v.finish in {Some(Stop), Some(MaxTokens)}
             && v.usage == Some(NormalizeUsage(usage))
    requires v.cost == Field(SettledPrice(usage, req.route.costRates))
    requires v.hold == (if req.route.costRates == None then None else Some(0))
    requires v.route.Some? ==> v.route.value == RoundRoute(req.route.provider, req.route.model, req.route.effort)
    ensures RoundOk(req, prior + [v], |prior|)
  {
    SettledAmountIsInteger(usage, req.route.costRates);
    hide SettledPrice, HoldFor, UsageOk;
  }

  lemma SettledStatusFits(r: Record, v: Round, finish: Finish, prior: seq<Round>)
    requires r.rounds != [] && finish in {Stop, MaxTokens} && |prior| == |r.rounds| - 1
    requires v.status == Completed && v.finish == Some(finish) && v.visibleText == Last(r.rounds).visibleText
    ensures var status := SettledStatus(r, finish);
            && StatusOk(status, prior + [v], r.request.maxRounds)
            && StatusMayFollow(Running, status) && status != AttemptCommitted
  {
    hide Includes, JoinText, Trim;
  }

  /** A settlement with usable usage and a known end can be saved, in whatever status it
      leaves the task. */
  lemma SettledFits(base: Record, r: Record, usage: RawUsage, finish: Finish)
    requires Good(base) && base.revision < MAX_REVISIONS && Ahead(base, r)
    requires base.status == Running && UsageOk(usage) && finish in {Stop, MaxTokens}
    requires RequestOk(base.request) && SettledPrice(usage, base.request.route.costRates) != Overflow
    ensures Fits(base, Settled(r, usage, finish))
  {
    hide Good, SettledPrice, SettledStatus, StatusOk, RequestOk, UsageOk, RoundsOk, RoundOk;
    InFlightRound(base);
    GoodParts(base);
    var n := |base.rounds| - 1;
    var s := Settled(r, usage, finish);
    SettledStatusFits(r, Last(s.rounds), finish, base.rounds[..n]);
    SettledRoundOk(base.request, base.rounds[..n], Last(s.rounds), usage);
    LastRoundFits(base, r, Last(s.rounds), s.status);
  }

  lemma PriceIsInteger(input: nat, output: nat, rates: Option<Rates>)
    requires rates.Some? ==> rates.value.inputMicros >= 0 && rates.value.outputMicros >= 0
    ensures var p := PriceOf(input, output, rates); p.Micros? ==> Integer(p.amount)
  {
    if rates.Some? {
      var n := input * rates.value.inputMicros + output * rates.value.outputMicros;
      if Integer(n) {
        assert (n + 999_999) / 1_000_000 <= n + 999_999;
        assert n >= 1 ==> (n + 999_999) / 1_000_000 <= n;
      }
    }
  }

  lemma SettledAmountIsInteger(usage: RawUsage, rates: Option<Rates>)
    requires UsageOk(usage)
    requires rates.Some? ==> rates.value.inputMicros >= 0 && rates.value.outputMicros >= 0
    ensures var p := SettledPrice(usage, rates); p.Micros? ==> Integer(p.amount)
    ensures SettledPrice(NormalizeUsage(usage), rates) == SettledPrice(usage, rates)
  {
    hide PriceOf;
    PriceIsInteger(usage.input + usage.cacheRead, usage.output, rates);
  }

  /** Giving up at a limit can be saved wherever a round could have started. */
  lemma LimitedFits(base: Record)
    requires Good(base) && base.revision < MAX_REVISIONS && IsSafe(base.status)
    ensures Fits(base, Limited(base))
  {
    forall i | 0 <= i < |base.rounds| ensures RoundMayFollow(base.rounds[i], base.rounds[i]) {
      assert RoundOk(base.request, base.rounds, i);
    }
  }

  /** A new unsettled round keeps the round table acceptable. */
  lemma AppendRound(req: Request, rounds: seq<Round>, v: Round)
    requires RequestOk(req) && RoundsOk(req, rounds)
    requires forall i :: 0 <= i < |rounds| ==> rounds[i].status == Completed && rounds[i].attemptId != v.attemptId
    requires v.status == AttemptCommitted && v.visibleText == [] && v.usage == None && v.cost == None
    requires Stores(v.hold, HoldFor(req, rounds)) && (v.hold.Some? ==> Integer(v.hold.value))
    requires v.route == Some(RoundRoute(req.route.provider, req.route.model, req.route.effort))
    ensures RoundsOk(req, rounds + [v])
  {
    hide RequestOk, EvidenceOk, HoldFor, SettledPrice, UsageOk, Chars;
    var changed := rounds + [v];
    forall i | 0 <= i < |changed| ensures RoundOk(req, changed, i) {
      assert i < |rounds| ==> RoundOk(req, rounds, i);
      assert changed[..i] == rounds[..i];
      assert rounds[..|rounds|] == rounds;
    }
    CharsOfAppend(rounds, v);
  }

  lemma SafeIsSettled(r: Record)
    requires Good(r) && IsSafe(r.status)
    ensures forall i :: 0 <= i < |r.rounds| ==> r.rounds[i].status == Completed
  {
    hide RequestOk, EvidenceOk, HoldFor, SettledPrice, UsageOk;
    forall i | 0 <= i < |r.rounds| ensures r.rounds[i].status == Completed {
      assert RoundOk(r.request, r.rounds, i);
    }
  }

  /** A new attempt can be saved when there is a round left, room for text and a fresh name. */
  lemma CommittedFits(base: Record, id: AttemptId)
    requires Good(base) && base.revision < MAX_REVISIONS && IsSafe(base.status)
    requires |base.rounds| < base.request.maxRounds
    requires WireChars(Messages(base.request, base.rounds)) <= base.request.contextChars
    requires forall i :: 0 <= i < |base.rounds| ==> base.rounds[i].attemptId != id
    ensures Reservation(base) != Overflow && Fits(base, Committed(base, id))
  {
    hide EvidenceOk, HoldFor, WireChars, Messages, RoundsOk, RouteOk, ByteLength, PriceOf;
    var round := FreshRoundOk(base, id);
    SafeIsSettled(base);
    AppendRound(base.request, base.rounds, round);
    ProposalIsGood(Committed(base, id));
    hide Good;
    SettledStay(base.rounds);
  }

  lemma FreshRoundOk(base: Record, id: AttemptId) returns (round: Round)
    requires RequestOk(base.request) && WireChars(Messages(base.request, base.rounds)) <= base.request.contextChars
    ensures Reservation(base) != Overflow && round == FreshRound(base, id)
    ensures Stores(round.hold, HoldFor(base.request, base.rounds)) && (round.hold.Some? ==> Integer(round.hold.value))
  {
    ReservationNeverOverflows(base);
    ReservationIsExpectedHold(base);
    PriceIsInteger(1024 + WireBytes(Messages(base.request, base.rounds)), base.request.route.maxTokens,
      base.request.route.costRates);
    hide RequestOk, HoldFor, WireChars, Messages, PriceOf;
    round := FreshRound(base, id);
  }

  lemma SettledStay(rounds: seq<Round>)
    requires forall i :: 0 <= i < |rounds| ==> rounds[i].status == Completed
    ensures forall i :: 0 <= i < |rounds| ==> RoundMayFollow(rounds[i], rounds[i])
  {
  }

  /** A planned task can be saved as revision 1. */
  lemma NewTaskFits(owner: string, task: string, req: Request, evidence: Option<Evidence>)
    requires RequestOk(req) && (evidence.Some? ==> EvidenceOk(evidence.value))
    ensures Good(Proposal(NewTask(owner, task, req, evidence)))
    ensures MayFollow(None, Proposal(NewTask(owner, task, req, evidence)))
  {
  }
}
