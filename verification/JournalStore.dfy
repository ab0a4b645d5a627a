/**
 The journal's own code (journal.mjs): its loops and accumulators, against the predicates that
 say which records and which histories are acceptable.
 */
module JournalStore {
  import opened Wrappers
  import opened Text
  import opened Journal
  import opened Histories

  // ---------------------------------------------------------------- reservations

  lemma ResentOneMore(rounds: seq<Round>, i: nat)
    requires i < |rounds|
    ensures ResentBytes(rounds[..i + 1]) ==
              ResentBytes(rounds[..i]) + 2 * (ByteLength(rounds[i].visibleText) + ByteLength(CONTINUE))
  {
    assert rounds[..i + 1][..i] == rounds[..i];
  }

  /** `expectedCost`: the charge, if it is an exact integer, rounded up to whole micro-dollars. */
  method ExpectedCost(input: nat, output: nat, rates: Option<Rates>, cacheWrite: int) returns (p: Price)
    requires rates.Some? ==> rates.value.inputMicros >= 0 && rates.value.outputMicros >= 0
    ensures p == if cacheWrite > 0 then Unpriced else PriceOf(input, output, rates)
    ensures cacheWrite <= 0 ==> forall field :: Stores(field, p) <==> Charged(field, input, output, rates)
  {
    forall field | cacheWrite <= 0 ensures Stores(field, PriceOf(input, output, rates)) <==>
      Charged(field, input, output, rates) {
      PriceIsCharged(field, input, output, rates);
    }
    if rates == None || cacheWrite > 0 { return Unpriced; }
    var n := input * rates.value.inputMicros + output * rates.value.outputMicros;
    if n > MAX_SAFE_INTEGER { return Overflow; }
    var whole := n / 1_000_000;
    p := Micros(if n % 1_000_000 == 0 then whole else whole + 1);
  }

  method ExpectedHold(req: Request, prior: seq<Round>) returns (p: Price)
    requires RequestOk(req)
    ensures p == HoldFor(req, prior)
    ensures forall field :: Stores(field, p) <==>
              Charged(field, 1024 + 2 * ByteLength(req.prompt) + ResentBytes(prior), req.route.maxTokens,
                req.route.costRates)
  {
    hide ByteLength, RequestOk, Charged, Stores, PriceOf;
    var input: nat := 1024 + ByteLength(req.prompt) * 2;
    for i := 0 to |prior|
      invariant input == 1024 + 2 * ByteLength(req.prompt) + ResentBytes(prior[..i])
    {
      ResentOneMore(prior, i);
      input := input + 2 * (ByteLength(prior[i].visibleText) + ByteLength(CONTINUE));
    }
    assert prior[..|prior|] == prior;
    RatesAreNatural(req);
    p := ExpectedCost(input, req.route.maxTokens, req.route.costRates, 0);
  }

  // ---------------------------------------------------------------- one record

  /** Token counts with their total filled in, when they add up. */
  function Filled(v: Round): Round {
    if v.usage.Some? && UsageOk(v.usage.value) then v.(usage := Some(NormalizeUsage(v.usage.value))) else v
  }

  function FilledRounds(rounds: seq<Round>): (s: seq<Round>)
    ensures |s| == |rounds| && forall i :: 0 <= i < |s| ==> s[i] == Filled(rounds[i])
  {
    seq(|rounds|, i requires 0 <= i < |rounds| => Filled(rounds[i]))
  }

  function Normal(r: Record): Record { r.(rounds := FilledRounds(r.rounds)) }

  /** An accepted record is already in normal form: reading it back changes nothing. */
  lemma AcceptedIsNormal(r: Record, owner: string, task: string, revision: int)
    requires Accepts(r, owner, task, revision)
    ensures Normal(r) == r
  {
    hide StatusOk, EvidenceOk;
    forall i | 0 <= i < |r.rounds| ensures Filled(r.rounds[i]) == r.rounds[i] {
      assert RoundOk(r.request, r.rounds, i);
      hide RoundOk;
    }
    assert FilledRounds(r.rounds) == r.rounds;
  }

  lemma SameTextsSameHold(req: Request, a: seq<Round>, b: seq<Round>)
    requires RequestOk(req) && |a| == |b| && forall i :: 0 <= i < |a| ==> a[i].visibleText == b[i].visibleText
    ensures HoldFor(req, a) == HoldFor(req, b)
  {
    hide RequestOk, PriceOf, ResentBytes, ByteLength;
    RatesAreNatural(req);
    SameTextsSameBytes(a, b);
  }

  lemma {:induction false} SameTextsSameBytes(a: seq<Round>, b: seq<Round>)
    requires |a| == |b| && forall i :: 0 <= i < |a| ==> a[i].visibleText == b[i].visibleText
    ensures ResentBytes(a) == ResentBytes(b)
  {
    hide ByteLength;
    if a == [] {
    } else {
      SameTextsSameBytes(a[..|a| - 1], b[..|b| - 1]);
    }
  }

  /** `normalizeUsage`: the counts and their total, which may be missing but not wrong. */
  method CheckUsage(u: RawUsage) returns (n: Option<RawUsage>)
    ensures n == if UsageOk(u) then Some(NormalizeUsage(u)) else None
  {
    if !Integer(u.input) || !Integer(u.cacheRead) || !Integer(u.output) || !Integer(u.cacheWrite) { return None; }
    var total := u.input + u.cacheRead + u.cacheWrite + u.output;
    if !Integer(total) { return None; }
    if u.total.Some? && !(Integer(u.total.value) && u.total.value == total) { return None; }
    if u.reasoning.Some? && !(Integer(u.reasoning.value) && u.reasoning.value <= u.output) { return None; }
    n := Some(u.(total := Some(total)));
  }

  /** `normalizeRequest` and `normalizeRoute`. */
  method CheckRequest(r: Request) returns (ok: bool)
    ensures ok == RequestOk(r)
  {
    hide Word, Trim;
    if Trim(r.prompt) == [] || |r.prompt| > 160000 { return false; }
    if !Integer(r.maxRounds) || r.maxRounds < 1 || r.maxRounds > 8 { return false; }
    if !Integer(r.contextChars) || r.contextChars < 1 || r.contextChars > 500000 { return false; }
    if !Integer(r.createdAt) || !Integer(r.deadlineAt) { return false; }
    if r.deadlineAt <= r.createdAt || r.deadlineAt - r.createdAt > 900000 { return false; }
    var route := r.route;
    if !Word(route.provider, 128, "_.-") || !Word(route.model, 192, "_./:-") || !Word(route.effort, 32, "_-") {
      return false;
    }
    if !Integer(route.maxTokens) || route.maxTokens == 0 || route.maxTokens > 262144 { return false; }
    if route.costRates.Some? {
      var rates := route.costRates.value;
      if !Integer(rates.inputMicros) || !Integer(rates.outputMicros) { return false; }
      if rates.inputMicros > 1_000_000_000 || rates.outputMicros > 1_000_000_000 { return false; }
    }
    return true;
  }

  /** The status of a record against its last round. */
  method CheckStatus(status: Status, rounds: seq<Round>, maxRounds: int) returns (ok: bool)
    ensures ok == StatusOk(status, rounds, maxRounds)
  {
    hide Trim;
    if status == Planned && |rounds| != 0 { return false; }
    if status in {AttemptCommitted, Running, InterruptedUncertain} {
      if |rounds| == 0 || Last(rounds).status != status { return false; }
    }
    if status == ContinuationReady {
      if |rounds| == 0 || Last(rounds).status != Completed || Last(rounds).finish != Some(MaxTokens) { return false; }
      if |Trim(Last(rounds).visibleText)| == 0 || |rounds| >= maxRounds { return false; }
    }
    if status in {Completed, NoProgress} {
      if |rounds| == 0 || Last(rounds).status != Completed { return false; }
    }
    return true;
  }

  /** The checks of one round, in order; `None` is a refusal. */
  method NormalizeRound(req: Request, rounds: seq<Round>, i: nat) returns (n: Option<Round>)
    requires RequestOk(req) && i < |rounds|
    ensures n == if RoundOk(req, FilledRounds(rounds), i) then Some(Filled(rounds[i])) else None
    ensures n.Some? ==> RightlyPriced(req, FilledRounds(rounds)[..i], n.value)
  {
    hide RequestOk, HoldFor, SettledPrice, UsageOk, RightlyPriced, Charged;
    OkIsRightlyPriced(req, FilledRounds(rounds), i);
    RatesAreNatural(req);
    var v := rounds[i];
    if v.status != AttemptCommitted && v.status != Running && v.status != Completed
      && v.status != InterruptedUncertain {
      return None;
    }
    if i != |rounds| - 1 && v.status != Completed { return None; }
    var usage: Option<RawUsage> := None;
    if v.usage.Some? {
      usage := CheckUsage(v.usage.value);
      if usage == None { return None; }
    }
    FilledUsageOk(v);
    if v.cost.Some? && !Integer(v.cost.value) { return None; }
    if v.hold.Some? && !Integer(v.hold.value) { return None; }
    var rates := req.route.costRates;
    if v.status == Completed {
      if usage == None || (v.finish != Some(Stop) && v.finish != Some(MaxTokens)) { return None; }
      UsageIsNatural(usage.value);
      var u := usage.value;
      var price := ExpectedCost(u.input + u.cacheRead, u.output, rates, u.cacheWrite);
      SettledPriceIs(u, rates);
      if !Stores(v.cost, price) || v.hold != (if rates == None then None else Some(0)) { return None; }
    } else {
      var hold := ExpectedHold(req, rounds[..i]);
      SameTextsSameHold(req, rounds[..i], FilledRounds(rounds)[..i]);
      if v.cost != None || !Stores(v.hold, hold) { return None; }
    }
    if v.route.Some? && v.route.value != RoundRoute(req.route.provider, req.route.model,
      req.route.effort) { return None; }
    n := Some(v.(usage := usage));
  }

  lemma UsageIsNatural(u: RawUsage)
    requires UsageOk(u)
    ensures u.input >= 0 && u.cacheRead >= 0 && u.output >= 0
  {
  }

  lemma SettledPriceIs(u: RawUsage, rates: Option<Rates>)
    requires UsageOk(u) && u.input >= 0 && u.cacheRead >= 0 && u.output >= 0
    requires rates.Some? ==> rates.value.inputMicros >= 0 && rates.value.outputMicros >= 0
    ensures SettledPrice(u, rates) ==
              if u.cacheWrite > 0 then Unpriced else PriceOf(u.input + u.cacheRead, u.output, rates)
  {
    hide UsageOk, PriceOf;
  }

  lemma FilledUsageOk(v: Round)
    requires v.usage.Some? ==> UsageOk(v.usage.value)
    ensures var f := Filled(v);
            && (f.usage.Some? <==> v.usage.Some?)
            && (v.usage.Some? ==>
                  f.usage == Some(NormalizeUsage(v.usage.value)) && UsageOk(f.usage.value) && f.usage.value.total.Some?)
            && f == v.(usage := f.usage)
  {
    hide UsageOk;
  }

  lemma TotalsOneMore(rounds: seq<Round>, i: nat)
    requires i < |rounds|
    ensures Chars(rounds[..i + 1]) == Chars(rounds[..i]) + |rounds[i].visibleText|
    ensures Spent(rounds[..i + 1]) == Spent(rounds[..i]) + OrZero(rounds[i].cost)
    ensures Held(rounds[..i + 1]) == Held(rounds[..i]) + OrZero(rounds[i].hold)
    ensures Unknown(rounds[..i + 1]) <==> Unknown(rounds[..i]) || rounds[i].cost == None
  {
    assert rounds[..i + 1][..i] == rounds[..i];
    if Unknown(rounds[..i]) {
      var k :| 0 <= k < i && rounds[..i][k].cost == None;
      assert rounds[..i + 1][k].cost == None;
    }
    if rounds[i].cost == None {
      assert rounds[..i + 1][i].cost == None;
    }
    if Unknown(rounds[..i + 1]) {
      var k :| 0 <= k <= i && rounds[..i + 1][k].cost == None;
      if k < i {
        assert rounds[..i][k].cost == None;
      }
    }
  }

  lemma {:induction false} CharsGrow(rounds: seq<Round>, i: nat)
    requires i <= |rounds|
    ensures Chars(rounds[..i]) <= Chars(rounds)
    decreases |rounds| - i
  {
    if i == |rounds| {
      assert rounds[..i] == rounds;
    } else {
      TotalsOneMore(rounds, i);
      CharsGrow(rounds, i + 1);
    }
  }

  predicate Names(ids: set<AttemptId>, rounds: seq<Round>) {
    && (forall k :: 0 <= k < |rounds| ==> rounds[k].attemptId in ids)
    && (forall a :: a in ids ==> exists k :: 0 <= k < |rounds| && rounds[k].attemptId == a)
  }

  lemma NamesOneMore(ids: set<AttemptId>, rounds: seq<Round>, i: nat)
    requires i < |rounds| && Names(ids, rounds[..i]) && DistinctAttempts(rounds[..i])
    ensures rounds[i].attemptId in ids ==> !DistinctAttempts(rounds)
    ensures rounds[i].attemptId !in ids ==>
              Names(ids + {rounds[i].attemptId}, rounds[..i + 1]) && DistinctAttempts(rounds[..i + 1])
  {
    var more := rounds[..i + 1];
    assert forall k :: 0 <= k < i ==> rounds[..i][k] == rounds[k] && more[k] == rounds[k];
    if rounds[i].attemptId in ids {
      var k :| 0 <= k < i && rounds[..i][k].attemptId == rounds[i].attemptId;
      assert rounds[k].attemptId == rounds[i].attemptId;
    } else {
      var grown := ids + {rounds[i].attemptId};
      forall a | a in grown ensures exists k :: 0 <= k < |more| && more[k].attemptId == a {
        if a in ids {
          var k :| 0 <= k < i && rounds[..i][k].attemptId == a;
          assert more[k].attemptId == a;
        } else {
          assert more[i].attemptId == a;
        }
      }
    }
  }

  datatype Table = Table(rounds: seq<Round>, spent: int, held: int, unknown: bool)

  /** The loop over the rounds with its accumulators. */
  method NormalizeRounds(req: Request, rounds: seq<Round>) returns (t: Option<Table>)
    requires RequestOk(req)
    ensures var all := FilledRounds(rounds);
            t == if RoundsOk(req, all) then Some(Table(all, Spent(all), Held(all), Unknown(all))) else None
  {
    hide RequestOk, RoundOk, Spent, Held, Unknown, Chars, Names, DistinctAttempts, Filled;
    ghost var all := FilledRounds(rounds);
    var ids, out := {}, [];
    var chars, spent, held, unknown := 0, 0, 0, false;
    NothingYet(all);
    for i := 0 to |rounds|
      invariant out == all[..i] && chars == Chars(all[..i]) <= MAX_VISIBLE
      invariant spent == Spent(all[..i]) && held == Held(all[..i]) && unknown == Unknown(all[..i])
      invariant Names(ids, all[..i]) && DistinctAttempts(all[..i])
      invariant forall k :: 0 <= k < i ==> RoundOk(req, all, k)
    {
      NamesOneMore(ids, all, i);
      FilledKeeps(rounds[i]);
      TotalsOneMore(all, i);
      CharsGrow(all, i + 1);
      if rounds[i].attemptId in ids { return None; }
      ids := ids + {rounds[i].attemptId};
      chars := chars + |rounds[i].visibleText|;
      if chars > MAX_VISIBLE { return None; }
      var n := NormalizeRound(req, rounds, i);
      if n == None { return None; }
      spent := spent + OrZero(rounds[i].cost);
      held := held + OrZero(rounds[i].hold);
      unknown := unknown || rounds[i].cost == None;
      out := out + [n.value];
    }
    assert all[..|rounds|] == all;
    t := Some(Table(out, spent, held, unknown));
  }

  lemma NothingYet(rounds: seq<Round>)
    ensures var none := rounds[..0];
            Chars(none) == 0 && Spent(none) == 0 && Held(none) == 0 && !Unknown(none) && Names({}, none)
              && DistinctAttempts(none)
  {
  }

  lemma FilledKeeps(v: Round)
    ensures var f := Filled(v);
            f.attemptId == v.attemptId && f.visibleText == v.visibleText && f.cost == v.cost && f.hold == v.hold
  {
    hide UsageOk;
  }

  method CheckEvidence(e: Evidence) returns (ok: bool)
    ensures ok == EvidenceOk(e)
  {
    hide LegalId;
    if !LegalId(e.evidenceId) { return false; }
    if !Integer(e.issuedAt) || !Integer(e.expiresAt) || e.issuedAt >= e.expiresAt { return false; }
    return true;
  }

  /** A record is refused, or its normal form is returned. */
  method NormalizeRecord(r: Record, owner: string, task: string, revision: int) returns (n: Option<Record>)
    ensures n == if Accepts(Normal(r), owner, task, revision) then Some(Normal(r)) else None
  {
    hide RequestOk, RoundsOk, EvidenceOk, StatusOk, Spent, Held, Unknown, FilledRounds;
    if r.owner != owner || r.task != task || r.revision != revision
      || !(1 <= revision <= MAX_REVISIONS) { return None; }
    var requested := CheckRequest(r.request);
    if !requested || r.requestHash != Digest(r.request) || |r.rounds| > r.request.maxRounds { return None; }
    var t := NormalizeRounds(r.request, r.rounds);
    if t == None { return None; }
    var rounds := t.value.rounds;
    if !Integer(t.value.spent) || !Integer(t.value.held) { return None; }
    if r.spent != t.value.spent || r.held != t.value.held || r.costUnknown != t.value.unknown { return None; }
    var agrees := CheckStatus(r.status, rounds, r.request.maxRounds);
    if !agrees { return None; }
    if r.evidence.Some? {
      var valid := CheckEvidence(r.evidence.value);
      if !valid { return None; }
    }
    n := Some(r.(rounds := rounds));
  }

  // ---------------------------------------------------------------- one record after another

  const TRANSITIONS: map<Status, seq<Status>> := map[
    Planned := [AttemptCommitted, PartialLimit],
    AttemptCommitted := [Running, InterruptedUncertain],
    Running := [Running, ContinuationReady, Completed, PartialLimit, NoProgress, InterruptedUncertain],
    ContinuationReady := [AttemptCommitted, PartialLimit],
    Completed := [], PartialLimit := [], NoProgress := [], InterruptedUncertain := []]

  method CheckRound(a: Round, b: Round) returns (ok: bool)
    ensures ok == RoundMayFollow(a, b)
  {
    if a.attemptId != b.attemptId || !(a.visibleText <= b.visibleText) { return false; }
    if a.status == Completed { return a == b; }
    if a.status == AttemptCommitted {
      if b.status != Running && b.status != InterruptedUncertain { return false; }
    } else {
      if b.status != Running && b.status != Completed && b.status != InterruptedUncertain { return false; }
    }
    return b.status == Completed || a.hold == b.hold;
  }

  lemma TransitionsAre(a: Status, b: Status)
    ensures a in TRANSITIONS && (b in TRANSITIONS[a] <==> StatusMayFollow(a, b))
  {
  }

  method ValidateTransition(before: Option<Record>, after: Record) returns (ok: bool)
    ensures ok == MayFollow(before, after)
  {
    hide StatusMayFollow, RoundMayFollow;
    if before == None {
      return after.revision == 1 && after.status == Planned && after.rounds == [];
    }
    var b := before.value;
    if after.revision != b.revision + 1 || after.requestHash != b.requestHash { return false; }
    TransitionsAre(b.status, after.status);
    if after.evidence != b.evidence || after.status !in TRANSITIONS[b.status] { return false; }
    var commits := if after.status == AttemptCommitted then 1 else 0;
    if |after.rounds| != |b.rounds| + commits { return false; }
    for i := 0 to |b.rounds|
      invariant forall k :: 0 <= k < i ==> RoundMayFollow(b.rounds[k], after.rounds[k])
    {
      var follows := CheckRound(b.rounds[i], after.rounds[i]);
      if !follows { return false; }
    }
    return true;
  }

  // ---------------------------------------------------------------- a directory of revisions

  const MAX_BYTES := 3 * 1024 * 1024

  /** No file is too large to be read; `size` is the length of the file of a record. */
  predicate AllFit(cells: seq<Cell>, size: Record -> nat) {
    forall i :: 0 <= i < |cells| && cells[i].Full? ==> size(cells[i].record) <= MAX_BYTES
  }

  predicate SoundTo(cells: seq<Cell>, owner: string, task: string, n: nat) {
    n <= |cells| && Readable(cells[..n]) && History(Records(cells[..n]), owner, task)
  }

  lemma OneMoreCell(cells: seq<Cell>, owner: string, task: string, n: nat)
    requires n < |cells| && SoundTo(cells, owner, task, n)
    ensures SoundTo(cells, owner, task, n + 1) <==>
              && cells[n].Full? && Accepts(cells[n].record, owner, task, n + 1)
              && MayFollow(if n == 0 then None else Some(cells[n - 1].record), cells[n].record)
    ensures n > 0 ==> cells[n - 1].Full?
  {
    hide Accepts, MayFollow;
    var before, after := cells[..n], cells[..n + 1];
    assert forall k :: 0 <= k < n ==> before[k] == cells[k] && after[k] == cells[k];
    if cells[n].Full? {
      assert Readable(after);
      var h, g := Records(before), Records(after);
      forall k | 0 <= k < n ensures AcceptedAt(g, owner, task, k) {
        assert AcceptedAt(h, owner, task, k);
        assert Before(g, k) == Before(h, k);
      }
      assert AcceptedAt(g, owner, task, n) <==>
               Accepts(cells[n].record, owner, task, n + 1) && MayFollow(Before(g, n), cells[n].record);
    } else {
      assert !after[n].Full?;
    }
  }

  lemma ShorterIsSound(cells: seq<Cell>, owner: string, task: string, n: nat)
    requires n <= |cells| && Sound(cells, owner, task)
    ensures SoundTo(cells, owner, task, n)
  {
    hide AcceptedAt;
    var h, g := Records(cells), Records(cells[..n]);
    forall k | 0 <= k < n ensures AcceptedAt(g, owner, task, k) {
      AcceptedSame(h, g, owner, task, k);
    }
  }

  lemma AcceptedSame(h: seq<Record>, g: seq<Record>, owner: string, task: string, k: nat)
    requires k < |g| <= |h| && (forall j :: 0 <= j < |g| ==> g[j] == h[j]) && AcceptedAt(h, owner, task, k)
    ensures AcceptedAt(g, owner, task, k)
  {
    assert Before(g, k) == Before(h, k);
  }

  /** Every revision is read, checked by itself and against its predecessor; `None` is a
      corrupt directory, `Some(None)` an empty one. */
  method Latest(cells: seq<Cell>, owner: string, task: string, size: Record -> nat)
    returns (last: Option<Option<Record>>)
    ensures last.Some? <==> Sound(cells, owner, task) && AllFit(cells, size)
    ensures last.Some? ==> last.value == if cells == [] then None else Some(cells[|cells| - 1].record)
  {
    hide Accepts, MayFollow, History, Records, Normal;
    if |cells| > MAX_REVISIONS { return None; }
    var latest: Option<Record> := None;
    NothingRead(cells, owner, task);
    for i := 0 to |cells|
      invariant SoundTo(cells, owner, task, i) && AllFit(cells[..i], size)
      invariant i > 0 ==> cells[i - 1].Full?
      invariant latest == if i == 0 then None else Some(cells[i - 1].record)
    {
      OneMoreCell(cells, owner, task, i);
      if Sound(cells, owner, task) { ShorterIsSound(cells, owner, task, i + 1); }
      if cells[i] == Torn { return None; }
      var record := cells[i].record;
      if size(record) > MAX_BYTES { return None; }
      var n := NormalizeRecord(record, owner, task, i + 1);
      ReadBack(record, owner, task, i + 1);
      if n != Some(record) { return None; } // the digest in the file is of the normal form
      var ok := ValidateTransition(latest, record);
      if !ok { return None; }
      latest := Some(record);
    }
    assert cells[..|cells|] == cells;
    last := Some(latest);
  }

  lemma NothingRead(cells: seq<Cell>, owner: string, task: string)
    ensures SoundTo(cells, owner, task, 0)
  {
  }

  lemma ReadBack(r: Record, owner: string, task: string, revision: int)
    ensures (Accepts(Normal(r), owner, task, revision) && Normal(r) == r) <==> Accepts(r, owner, task, revision)
  {
    hide Normal, Accepts;
    if Accepts(r, owner, task, revision) {
      AcceptedIsNormal(r, owner, task, revision);
    }
  }

  // ---------------------------------------------------------------- saving

  datatype SaveResult = Saved(record: Record) | Refused | Conflict | DiskFailed

  /** What the journal demands of a record before it creates a file for it. */
  predicate Admissible(cells: seq<Cell>, owner: string, task: string, size: Record -> nat, input: Record,
      expected: int)
  {
    && 0 <= expected < MAX_REVISIONS && Accepts(Normal(input), owner, task, expected + 1)
    && size(Normal(input)) <= MAX_BYTES
    && Sound(cells, owner, task) && AllFit(cells, size) && |cells| == expected
    && MayFollow(Before(Records(cells), |cells|), Normal(input))
  }

  lemma SoundRevision(cells: seq<Cell>, owner: string, task: string)
    requires Sound(cells, owner, task) && cells != []
    ensures cells[|cells| - 1].Full? && cells[|cells| - 1].record.revision == |cells|
    ensures Before(Records(cells), |cells|) == Some(cells[|cells| - 1].record)
  {
    hide MayFollow, RequestOk, RoundsOk, StatusOk, EvidenceOk;
    assert AcceptedAt(Records(cells), owner, task, |cells| - 1);
  }

  lemma AdmittedIsSound(cells: seq<Cell>, owner: string, task: string, size: Record -> nat, input: Record,
      expected: int)
    requires Admissible(cells, owner, task, size, input, expected)
    ensures Sound(cells + [Full(Normal(input))], owner, task) && AllFit(cells + [Full(Normal(input))], size)
  {
    hide Accepts, MayFollow, Normal;
    var more := cells + [Full(Normal(input))];
    assert forall i :: 0 <= i < |cells| ==> more[i] == cells[i];
    assert Records(more) == Records(cells) + [Normal(input)];
    ExtendHistory(Records(cells), owner, task, Normal(input));
  }

  class TaskJournal {
    const owner: string
    const task: string
    const size: Record -> nat // the length of the file of a record
    var cells: seq<Cell>

    constructor (owner: string, task: string, size: Record -> nat)
      ensures this.owner == owner && this.task == task && this.size == size && cells == []
    {
      this.owner := owner;
      this.task := task;
      this.size := size;
      cells := [];
    }

    method Load() returns (last: Option<Option<Record>>)
      ensures last.Some? <==> Sound(cells, owner, task) && AllFit(cells, size)
      ensures last.Some? ==> last.value == if cells == [] then None else Some(cells[|cells| - 1].record)
    {
      last := Latest(cells, owner, task, size);
    }

    /** Compare and swap: a record is saved exactly when it is admissible and the disk works.  If
        the disk fails, the directory is as before, has a torn file at its end, or, if only syncing
        or closing the file failed, has the whole revision although its save was not acknowledged. */
    method Save(input: Record, expected: int, opens: bool, writes: bool, syncs: bool) returns (res: SaveResult)
      modifies this
      ensures Admissible(old(cells), owner, task, size, input, expected) ==>
                if opens && writes then
                  && res == (if syncs then Saved(Normal(input)) else DiskFailed)
                  && cells == old(cells) + [Full(Normal(input))] && Sound(cells, owner, task) && AllFit(cells, size)
                else
                  res == DiskFailed && cells == old(cells) + if opens then [Torn] else []
      ensures !Admissible(old(cells), owner, task, size, input, expected) ==>
                (res == Refused || res == Conflict) && cells == old(cells)
      ensures res == Conflict ==> |cells| != expected
    {
      hide Accepts, MayFollow, Normal, Sound, AllFit;
      if !(0 <= expected < MAX_REVISIONS) { return Refused; }
      var n := NormalizeRecord(input, owner, task, expected + 1);
      if n == None || size(n.value) > MAX_BYTES { return Refused; }
      var last := Load();
      if last == None { return Refused; }
      if cells != [] { SoundRevision(cells, owner, task); }
      var revision := if last.value == None then 0 else last.value.value.revision;
      if revision != expected { return Conflict; }
      SoundIsReadable(cells, owner, task);
      var ok := ValidateTransition(last.value, n.value);
      if !ok { return Refused; }
      AdmittedIsSound(cells, owner, task, size, input, expected);
      if !opens { return DiskFailed; }
      cells := cells + [Torn];
      if !writes { return DiskFailed; }
      cells := cells[..|cells| - 1] + [Full(n.value)];
      if !syncs { return DiskFailed; }
      return Saved(n.value);
    }
  }

  lemma SoundIsReadable(cells: seq<Cell>, owner: string, task: string)
    requires Sound(cells, owner, task)
    ensures Readable(cells)
  {
  }
}
