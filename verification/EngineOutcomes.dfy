/**
 What the revisions of a task say about how its rounds ended and what they cost, over every run
 of any number of engines, said without the functions that compute it.
 */
module EngineOutcomes {
  import opened Wrappers
  import opened Text
  import opened Journal
  import opened Engine
  import opened EngineSystem
  import opened EngineSafety
  import opened EngineGuarantees

  // ---------------------------------------------------------------- how rounds end

  predicate EndsSettled(r: Record) { r.rounds != [] && Last(r.rounds).status == Completed }

  /** If the later of two neighbouring revisions settles the running round of the earlier one, its
      status is the one that its last round accounts for. */
  ghost predicate EndsAsSettled(before: Record, after: Record) {
    before.status == Running && EndsSettled(after) ==> SettledAs(after)
  }

  /** An engine inside an attempt that saves a settled round saves it in that status. */
  ghost predicate SavesAsSettled(en: Instance) {
    (en.phase.Saving? || en.phase.Writing?) && en.attempt.Some? && EndsSettled(en.r) ==> SettledAs(en.r)
  }

  ghost predicate InstancesSettle(s: System) {
    forall e :: e in s.engines ==> SavesAsSettled(s.engines[e])
  }

  /** Every revision added to those found in the directory. */
  ghost predicate CellsSettle(cells: seq<Cell>, found: nat) {
    forall i :: 0 < i < |cells| && found <= i && cells[i - 1].Full? && cells[i].Full? ==>
      EndsAsSettled(cells[i - 1].record, cells[i].record)
  }

  ghost predicate OutcomesOk(s: System) { InstancesSettle(s) && CellsSettle(s.cells, s.found) }

  lemma SaveSettles(s: System, e: EngineId, r: Record, after: After, attempt: Option<AttemptId>)
    requires OutcomesOk(s) && (attempt.Some? && EndsSettled(r) ==> SettledAs(r))
    ensures OutcomesOk(BeginSave(s, e, r, after, attempt))
  {
    hide Good, MayFollow, SettledAs, CellsSettle;
  }

  lemma AttemptSettles(s: System, e: EngineId, r: Record, after: After, stopped: After, attempt: Option<AttemptId>)
    requires OutcomesOk(s) && r.rounds != [] && !EndsSettled(r)
    ensures OutcomesOk(SaveOrInterrupt(s, e, r, after, stopped, attempt))
  {
    NotSettled(r);
    hide BeginSave, Interrupted, SettledAs, OutcomesOk;
    SaveSettles(s, e, r, after, attempt);
    SaveSettles(s, e, Interrupted(r), stopped, attempt);
  }

  lemma NotSettled(r: Record)
    requires r.rounds != []
    ensures !EndsSettled(Interrupted(r)) && !EndsSettled(Started(r)) && Started(r).rounds != []
  {
  }

  lemma CommitIsNotSettled(r: Record, id: AttemptId)
    requires RequestOk(r.request) && Reservation(r) != Overflow
    ensures !EndsSettled(Committed(r, id)) && Committed(r, id).rounds != []
  {
  }

  lemma GrowthIsNotSettled(s: System, e: EngineId, text: Text)
    requires Inv(s) && e in s.engines && s.engines[e].phase.Streaming? && s.engines[e].r.rounds != []
    requires Chars(s.engines[e].r.rounds) <= MAX_VISIBLE
    ensures Grown(s.engines[e].r, text).rounds != [] && !EndsSettled(Grown(s.engines[e].r, text))
  {
    hide Inv, Chars;
    var base := BaseFacts(s, e);
    InFlightRound(base);
  }

  lemma NotedRound(r: Record, usage: RawUsage, finish: Finish)
    requires r.rounds != [] && UsageOk(usage)
    ensures Noted(r, usage, finish).rounds != []
  {
  }

  lemma StreamingSettles(s: System, e: EngineId, r: Record, phase: Phase, attempt: Option<AttemptId>)
    requires OutcomesOk(s) && phase.Streaming?
    ensures OutcomesOk(With(s, e, Instance(phase, r, attempt)))
  {
    hide CellsSettle, SettledAs;
  }

  lemma CountsSettle(s: System, t: System)
    requires OutcomesOk(s) && t.engines == s.engines && t.cells == s.cells && t.found == s.found
    ensures OutcomesOk(t)
  {
    hide SettledAs;
  }

  lemma FinishSettles(r: Record, usage: RawUsage, finish: Finish)
    requires r.rounds != [] && UsageOk(usage) && RequestOk(r.request) && finish in {Stop, MaxTokens}
    ensures Noted(r, usage, finish).rounds != [] && !EndsSettled(Interrupted(Noted(r, usage, finish)))
    ensures SettledPrice(usage, r.request.route.costRates) != Overflow ==> SettledAs(Settled(r, usage, finish))
  {
    NotedRound(r, usage, finish);
    NotSettled(Noted(r, usage, finish));
    if SettledPrice(usage, r.request.route.costRates) != Overflow { SettledIsSettledAs(r, usage, finish); }
    hide UsageOk, RequestOk, SettledPrice, SettledAs, EndsSettled, Interrupted;
  }

  /** The events of an engine that acts for itself. */
  lemma ActSettles(s: System, e: EngineId, en: Instance, a: Action)
    requires Inv(s) && OutcomesOk(s) && e in s.engines && s.engines[e] == en && CanAct(s, en, a)
    requires a.Recover? || a.Limit? || a.Commit? || a.Prepared? || a.Fail? || a.Chunk? || a.Finished?
    ensures OutcomesOk(Act(s, e, en, a))
  {
    hide Inv, MayFollow, Reservation, SettledPrice, Interrupted, Limited, Committed, Started, Grown, Noted, Settled,
      Proposal, Good, UsageOk, BeginSave, SaveOrInterrupt, SettledAs, EndsSettled, OutcomesOk, RoomToRun, Chars,
      Word, Trim;
    if en.r.rounds != [] { NotSettled(en.r); }
    if a.Chunk? { GrowthIsNotSettled(s, e, a.text); }
    if a.Finished? { FinishSettles(en.r, a.usage, a.finish); }
    match a
    case Recover => SaveSettles(s, e, Interrupted(en.r), ToIdle, None);
    case Limit => SaveSettles(s, e, Limited(en.r), ToIdle, None);
    case Commit(id) =>
      if Reservation(en.r) != Overflow {
        CommitIsNotSettled(en.r, id);
        AttemptSettles(s, e, Committed(en.r, id), ToPreparing, Uncommitted, Some(id));
        CountsSettle(SaveOrInterrupt(s, e, Committed(en.r, id), ToPreparing, Uncommitted, Some(id)), Act(s, e, en, a));
      } else {
        CountsSettle(s, Act(s, e, en, a));
      }
    case Prepared => AttemptSettles(s, e, Started(en.r), ToReady, ToIdle, en.attempt);
    case Fail => SaveSettles(s, e, Interrupted(en.r), ToIdle, en.attempt);
    case Chunk(text) =>
      var over := |text| > MAX_VISIBLE - Chars(en.r.rounds);
      StreamingSettles(s, e, Grown(en.r, text), Streaming(en.phase.checkpoint, over), en.attempt);
      AttemptSettles(s, e, Grown(en.r, text), ToStreaming(over), ToIdle, en.attempt);
    case Finished(usage, finish) =>
      if SettledPrice(usage, en.r.request.route.costRates) == Overflow {
        SaveSettles(s, e, Interrupted(Noted(en.r, usage, finish)), ToIdle, en.attempt);
      } else {
        SaveSettles(s, e, Settled(en.r, usage, finish), ToIdle, en.attempt);
      }
  }

  lemma RestSettles(s: System, ev: Event)
    requires OutcomesOk(s) && Enabled(s, ev)
    requires ev.a.Crash? || ev.a.Open? || ev.a.Create? || ev.a.SaveError? || ev.a.Conflict? || ev.a.Load?
    ensures OutcomesOk(Apply(s, ev))
  {
    hide BeginSave, SaveOrInterrupt, MayFollow, Proposal, Records, Resume, SettledAs, Readable;
  }

  /** What is written in the end was about to be saved, behind the revision it belongs to. */
  lemma WrittenAsSettled(s: System, e: EngineId)
    requires Inv(s) && OutcomesOk(s) && e in s.engines && s.engines[e].phase.Writing? && s.engines[e].r.revision > 0
    ensures var en := s.engines[e];
            && |s.cells| == en.r.revision + 1 && s.cells[en.r.revision - 1].Full?
            && EndsAsSettled(s.cells[en.r.revision - 1].record, Proposal(en.r))
  {
    WriterPends(s, e);
    WriterIsNext(s, e);
    WriterFile(s, e);
    hide Inv, CellsSettle, SettledAs;
    var en := s.engines[e];
    DurableRevision(s, en.r.revision - 1);
    assert SavesAsSettled(en);
    SettledAgain(en.r);
    PendsSettled(Durable(s.cells)[en.r.revision - 1], en.phase.after, en.r, en.attempt);
  }

  lemma WriterFile(s: System, e: EngineId)
    requires Inv(s) && e in s.engines && s.engines[e].phase.Writing?
    ensures |s.cells| == s.engines[e].r.revision + 1 > 0 && !s.cells[s.engines[e].r.revision].Full?
  {
    hide DurableOk, InstancesOk, PairsApart, NamesOk;
  }

  /** Outside an attempt a running round is never saved as settled. */
  lemma PendsSettled(base: Record, after: After, r: Record, attempt: Option<AttemptId>)
    requires PendingOk(base, after, r, attempt)
    ensures attempt == None && base.status == Running ==> !EndsSettled(r)
  {
    hide MayFollow, RoundsOk;
  }

  lemma SettledAgain(r: Record)
    ensures EndsSettled(Proposal(r)) <==> EndsSettled(r)
    ensures SettledAs(Proposal(r)) <==> SettledAs(r)
  {
    hide IsNew, TextsOf, Spent, Held, Unknown;
  }

  lemma FileSettles(s: System, e: EngineId, cells: seq<Cell>)
    requires Inv(s) && OutcomesOk(s) && e in s.engines && s.engines[e].phase.Writing?
    requires 0 <= s.engines[e].r.revision < |s.cells|
    requires cells == s.cells[s.engines[e].r.revision := Full(Proposal(s.engines[e].r))]
    ensures CellsSettle(cells, s.found)
  {
    WriterFile(s, e);
    if s.engines[e].r.revision > 0 { WrittenAsSettled(s, e); }
    hide Inv, EndsAsSettled, InstancesSettle;
  }

  lemma FillEffect(s: System, ev: Event)
    requires Enabled(s, ev) && (ev.a.Fill? || ev.a.FillError?)
    ensures ev.e in s.engines && s.engines[ev.e].phase.Writing? && 0 <= s.engines[ev.e].r.revision < |s.cells|
    ensures var t := Apply(s, ev);
            && t.cells == s.cells[s.engines[ev.e].r.revision := Full(Proposal(s.engines[ev.e].r))]
            && t.found == s.found && ev.e in t.engines && t.engines == s.engines[ev.e := t.engines[ev.e]]
            && !t.engines[ev.e].phase.Saving? && !t.engines[ev.e].phase.Writing?
  {
    hide BeginSave, SaveOrInterrupt, Proposal;
  }

  lemma FillSettles(s: System, ev: Event)
    requires Inv(s) && OutcomesOk(s) && Enabled(s, ev) && (ev.a.Fill? || ev.a.FillError?)
    ensures OutcomesOk(Apply(s, ev))
  {
    FillEffect(s, ev);
    hide Inv, Apply, Enabled, Proposal, SettledAs, CellsSettle;
    var t := Apply(s, ev);
    FileSettles(s, ev.e, t.cells);
  }

  lemma OutcomesStep(s: System, ev: Event)
    requires Inv(s) && OutcomesOk(s) && Enabled(s, ev)
    ensures OutcomesOk(Apply(s, ev))
  {
    if ev.a.Plan? {
      hide Inv, OutcomesOk, BeginSave, NormalizeEvidence;
      SaveSettles(s, ev.e, NewTask(s.owner, s.task, ev.a.request, NormalizeEvidence(ev.a.evidence)), ToIdle, None);
    } else if ev.a.Fill? || ev.a.FillError? {
      FillSettles(s, ev);
    } else if ev.a.Crash? || ev.a.Open? || ev.a.Create? || ev.a.SaveError? || ev.a.Conflict? || ev.a.Load? {
      RestSettles(s, ev);
    } else {
      hide Inv, OutcomesOk, CanAct, Act;
      ActSettles(s, ev.e, s.engines[ev.e], ev.a);
    }
  }

  lemma {:induction false} OutcomesRun(s: System, evs: seq<Event>, t: System)
    requires Inv(s) && OutcomesOk(s) && IsRun(s, evs, t)
    ensures OutcomesOk(t) && t.found == s.found
    decreases |evs|
  {
    hide Inv, OutcomesOk, Enabled, Apply;
    if evs == [] {
    } else {
      StepOk(s, evs[0]);
      OutcomesStep(s, evs[0]);
      OutcomesRun(Apply(s, evs[0]), evs[1..], t);
    }
  }

  lemma NothingSettledYet(owner: string, task: string, cells: seq<Cell>)
    ensures OutcomesOk(Init(owner, task, cells))
  {
  }

  /** Over every run, in every durable revision that was added to those found and settles a round:
      the task has made no progress exactly if the text of the round is blank or can be read in the
      texts before it; otherwise it is completed exactly if the stream stopped by itself; and if it
      was cut off by the token limit, it can be continued exactly while a round is left. */
  lemma RoundsEndAsTheyShow(owner: string, task: string, cells: seq<Cell>, evs: seq<Event>, s: System, i: nat)
    requires Sound(cells, owner, task) && IsRun(Init(owner, task, cells), evs, s)
    requires |cells| <= i && 0 < i < |s.cells| && s.cells[i - 1].Full? && s.cells[i].Full?
    requires s.cells[i - 1].record.status == Running
    requires s.cells[i].record.rounds != [] && Last(s.cells[i].record.rounds).status == Completed
    ensures var r := s.cells[i].record;
            var last := Last(r.rounds);
            var isNew := IsNew(TextsOf(r.rounds[..|r.rounds| - 1]), last.visibleText);
            && (r.status == NoProgress <==> !isNew)
            && (r.status == Completed <==> isNew && last.finish == Some(Stop))
            && (r.status == ContinuationReady <==>
                  isNew && last.finish == Some(MaxTokens) && |r.rounds| < r.request.maxRounds)
            && (r.status == PartialLimit <==>
                  isNew && last.finish == Some(MaxTokens) && |r.rounds| == r.request.maxRounds)
  {
    hide Inv, Sound, Enabled, Apply, InstancesSettle, IsNew, TextsOf;
    InitOk(owner, task, cells);
    NothingSettledYet(owner, task, cells);
    OutcomesRun(Init(owner, task, cells), evs, s);
    RunOk(Init(owner, task, cells), evs, s);
    assert EndsAsSettled(s.cells[i - 1].record, s.cells[i].record);
    StoredIsGood(s, i);
    GoodParts(s.cells[i].record);
  }

  lemma StoredIsGood(s: System, i: nat)
    requires Inv(s) && i < |s.cells| && s.cells[i].Full?
    ensures Good(s.cells[i].record)
  {
    hide DurableOk, InstancesOk, PairsApart, NamesOk, WritersOk, Good;
    assert i < |Durable(s.cells)| && Durable(s.cells)[i] == s.cells[i].record;
    hide Shape, Durable;
    DurableRevision(s, i);
  }

  // ---------------------------------------------------------------- what rounds cost

  /** All bytes of a list of texts. */
  function Bytes(texts: seq<Text>): nat { if texts == [] then 0 else ByteLength(texts[0]) + Bytes(texts[1..]) }

  lemma {:induction false} BytesAppend(texts: seq<Text>, t: Text)
    ensures Bytes(texts + [t]) == Bytes(texts) + ByteLength(t)
  {
    hide ByteLength;
    if texts == [] {
      assert [t][1..] == [];
    } else {
      BytesAppend(texts[1..], t);
      assert (texts + [t])[1..] == texts[1..] + [t];
    }
  }

  lemma {:induction false} WireIsTwiceItsBytes(wire: seq<Text>)
    ensures WireBytes(wire) == 2 * Bytes(wire)
  {
    hide ByteLength;
    if wire == [] {
    } else {
      var n := |wire| - 1;
      WireIsTwiceItsBytes(wire[..n]);
      BytesAppend(wire[..n], wire[n]);
      assert wire == wire[..n] + [wire[n]];
    }
  }

  /** What is recorded of a settled round: nothing without rates or with tokens written to a cache,
      otherwise the tokens read and written at their own rates, in micro-dollars, rounded up. */
  lemma SettledAtItsCharge(r: Record, i: nat)
    requires Good(r) && i < |r.rounds| && r.rounds[i].status == Completed
    ensures var v, rates := r.rounds[i], r.request.route.costRates;
            && v.usage.Some? && var u := v.usage.value;
            && (v.cost == None <==> rates == None || u.cacheWrite > 0)
            && v.hold == (if rates == None then None else Some(0))
            && (v.cost.Some? ==>
                  var charge := (u.input + u.cacheRead) * rates.value.inputMicros + u.output * rates.value.outputMicros;
                  1_000_000 * (v.cost.value - 1) < charge <= 1_000_000 * v.cost.value && charge <= MAX_SAFE_INTEGER)
  {
    GoodRound(r, i);
    OkIsRightlyPriced(r.request, r.rounds, i);
    hide Good, RequestOk, RoundOk, Charged;
    var v := r.rounds[i];
    if v.cost.Some? && v.usage.value.cacheWrite <= 0 {
      ChargedMeans(v.cost, v.usage.value.input + v.usage.value.cacheRead, v.usage.value.output,
        r.request.route.costRates);
    }
  }

  lemma GoodRound(r: Record, i: nat)
    requires Good(r) && i < |r.rounds|
    ensures RequestOk(r.request) && RoundOk(r.request, r.rounds, i)
  {
  }

  /** What is held for a round that is not settled: nothing without rates, otherwise twice the bytes
      of everything that is sent for it, 1024 more, and all the tokens it may answer with. */
  lemma HeldForTheWorst(r: Record, i: nat)
    requires Good(r) && i < |r.rounds| && r.rounds[i].status != Completed
    ensures var v, rates := r.rounds[i], r.request.route.costRates;
            && v.cost == None && (v.hold == None <==> rates == None)
            && (v.hold.Some? ==>
                  var charge := (1024 + 2 * Bytes(Messages(r.request, r.rounds[..i]))) * rates.value.inputMicros
                                + r.request.route.maxTokens * rates.value.outputMicros;
                  1_000_000 * (v.hold.value - 1) < charge <= 1_000_000 * v.hold.value && charge <= MAX_SAFE_INTEGER)
  {
    GoodRound(r, i);
    OkIsRightlyPriced(r.request, r.rounds, i);
    WireBytesOfMessages(r.request, r.rounds[..i]);
    WireIsTwiceItsBytes(Messages(r.request, r.rounds[..i]));
    hide Good, RequestOk, RoundOk, Charged, Messages, Bytes, WireBytes, ResentBytes, ByteLength;
    ChargedMeans(r.rounds[i].hold, 1024 + 2 * Bytes(Messages(r.request, r.rounds[..i])), r.request.route.maxTokens,
      r.request.route.costRates);
  }

  lemma ChargedMeans(field: Option<int>, input: int, output: int, rates: Option<Rates>)
    requires Charged(field, input, output, rates)
    ensures field == None <==> rates == None
    ensures field.Some? ==>
              var charge := input * rates.value.inputMicros + output * rates.value.outputMicros;
              1_000_000 * (field.value - 1) < charge <= 1_000_000 * field.value && charge <= MAX_SAFE_INTEGER
  {
  }

  /** The charge for what was used leaves the exact integers. */
  predicate TooDear(usage: RawUsage, rates: Option<Rates>) {
    && rates.Some? && usage.cacheWrite == 0
    && (usage.input + usage.cacheRead) * rates.value.inputMicros + usage.output * rates.value.outputMicros
       > MAX_SAFE_INTEGER
  }

  lemma OverflowIsTooDear(usage: RawUsage, rates: Option<Rates>)
    requires UsageOk(usage)
    requires rates.Some? ==> rates.value.inputMicros >= 0 && rates.value.outputMicros >= 0
    ensures SettledPrice(usage, rates) == Overflow <==> TooDear(usage, rates)
  {
    hide PriceOf;
    PriceIsCharged(None, usage.input + usage.cacheRead, usage.output, rates);
  }

  /** The last round is settled with this usage and this finish, at what it costs, and the task is in
      the status that this accounts for. */
  ghost predicate SettledWith(r: Record, usage: RawUsage, finish: Finish) {
    SettledAs(r) &&
    var last := Last(r.rounds);
    && last.usage.Some? && last.usage.value.(total := usage.total) == usage && last.finish == Some(finish)
    && RightlyPriced(r.request, r.rounds[..|r.rounds| - 1], last)
  }

  lemma SettledIsSettledWith(r: Record, usage: RawUsage, finish: Finish)
    requires r.rounds != [] && UsageOk(usage) && RequestOk(r.request) && finish in {Stop, MaxTokens}
    requires SettledPrice(usage, r.request.route.costRates) != Overflow
    ensures SettledWith(Settled(r, usage, finish), usage, finish)
    ensures SettledWith(Proposal(Settled(r, usage, finish)), usage, finish)
  {
    hide SettledAs, RequestOk, RightlyPriced, UsageOk;
    SettledIsSettledAs(r, usage, finish);
    SettledAgain(Settled(r, usage, finish));
    SettledIsPriced(r, usage, finish);
  }

  lemma SettledIsPriced(r: Record, usage: RawUsage, finish: Finish)
    requires r.rounds != [] && UsageOk(usage) && RequestOk(r.request)
    requires SettledPrice(usage, r.request.route.costRates) != Overflow
    ensures forall prior :: RightlyPriced(r.request, prior, Last(Settled(r, usage, finish).rounds))
  {
    RatesAreNatural(r.request);
    hide RequestOk, PriceOf, Charged, SettledStatus;
    var last := Last(Settled(r, usage, finish).rounds);
    PriceIsCharged(last.cost, usage.input + usage.cacheRead, usage.output, r.request.route.costRates);
  }
}
