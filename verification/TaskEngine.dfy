/**
 The run loop of one task engine (engine.mjs) as code.  Everything outside the engine, the
 revision files and the other engines of the directory, is the field `world`; each stretch of
 code between two waits performs one event of the engine system, and at each wait the others
 may do whatever they can.  Every method only appends events to the history: what it does to
 the world is a run of the system from the world it found.
 */
module TaskEngine {
  import opened Wrappers
  import opened Text
  import opened Journal
  import opened Engine
  import opened EngineSystem
  import opened EngineSafety
  import opened EngineGuarantees
  import opened EngineOutcomes
  import JournalStore

  // ---------------------------------------------------------------- runs of the system

  lemma {:induction false} RunAppend(s: System, evs: seq<Event>, t: System, ev: Event)
    requires IsRun(s, evs, t) && Enabled(t, ev)
    ensures IsRun(s, evs + [ev], Apply(t, ev))
    decreases |evs|
  {
    hide Enabled, Apply;
    if evs == [] {
      assert [ev][1..] == [];
      assert IsRun(Apply(s, ev), [ev][1..], Apply(t, ev));
    } else {
      RunAppend(Apply(s, evs[0]), evs[1..], t, ev);
      assert (evs + [ev])[1..] == evs[1..] + [ev];
    }
  }

  lemma Reachable(owner: string, task: string, start: seq<Cell>, evs: seq<Event>, s: System)
    requires Sound(start, owner, task) && IsRun(Init(owner, task, start), evs, s)
    ensures Inv(s)
  {
    hide Inv, IsRun, Sound;
    InitOk(owner, task, start);
    RunOk(Init(owner, task, start), evs, s);
  }

  /** The history `after` goes on from `before`, and its new events lead from `s` to `t`. */
  predicate Extends(s: System, before: seq<Event>, t: System, after: seq<Event>) {
    before <= after && IsRun(s, after[|before|..], t)
  }

  lemma ExtendsOne(s: System, evs: seq<Event>, ev: Event)
    requires Enabled(s, ev)
    ensures Extends(s, evs, Apply(s, ev), evs + [ev])
  {
    hide Enabled, Apply;
    assert (evs + [ev])[|evs|..] == [ev];
    assert [ev][1..] == [];
    assert IsRun(Apply(s, ev), [ev][1..], Apply(s, ev));
  }

  lemma ExtendsTransitive(s: System, a: seq<Event>, t: System, b: seq<Event>, u: System, c: seq<Event>)
    requires Extends(s, a, t, b) && Extends(t, b, u, c)
    ensures Extends(s, a, u, c)
  {
    hide IsRun;
    RunJoin(s, b[|a|..], t, c[|b|..], u);
    assert c[|a|..] == b[|a|..] + c[|b|..];
  }

  /** From here on, whatever extends an extension of this history extends it. */
  lemma Onward(s: System, a: seq<Event>)
    ensures Extends(s, a, s, a)
    ensures forall t, b, u, c :: Extends(s, a, t, b) && Extends(t, b, u, c) ==> Extends(s, a, u, c)
  {
    assert a[|a|..] == [];
    hide Extends;
    forall t, b, u, c | Extends(s, a, t, b) && Extends(t, b, u, c) ensures Extends(s, a, u, c) {
      ExtendsTransitive(s, a, t, b, u, c);
    }
  }

  lemma WritingIsLast(s: System, e: EngineId)
    requires Inv(s) && e in s.engines && s.engines[e].phase.Writing?
    ensures 0 <= s.engines[e].r.revision < |s.cells|
  {
    InstanceFacts(s, e);
  }

  /** What the newest round shows. */
  function Shown(r: Record): Text { if r.rounds == [] then [] else Last(r.rounds).visibleText }

  // ---------------------------------------------------------------- loops over rounds

  lemma {:induction false} MessagesOneMore(req: Request, rounds: seq<Round>, i: nat)
    requires i < |rounds|
    ensures Messages(req, rounds[..i + 1]) == Messages(req, rounds[..i]) + [rounds[i].visibleText, CONTINUE]
  {
    assert rounds[..i + 1][..i] == rounds[..i];
  }

  /** The texts of a turn: the prompt, then each answer and a request to continue. */
  method BuildMessages(r: Record) returns (wire: seq<Text>)
    ensures wire == Messages(r.request, r.rounds)
  {
    wire := [r.request.prompt];
    for i := 0 to |r.rounds|
      invariant wire == Messages(r.request, r.rounds[..i])
    {
      MessagesOneMore(r.request, r.rounds, i);
      wire := wire + [r.rounds[i].visibleText, CONTINUE];
    }
    assert r.rounds[..|r.rounds|] == r.rounds;
  }

  /** The length of the turn, and the estimate that is priced for it. */
  method Measure(wire: seq<Text>) returns (chars: nat, estimate: nat)
    ensures chars == WireChars(wire) && estimate == 1024 + WireBytes(wire)
  {
    hide ByteLength;
    chars, estimate := 0, 1024;
    for i := 0 to |wire|
      invariant chars == WireChars(wire[..i]) && estimate == 1024 + WireBytes(wire[..i])
    {
      assert wire[..i + 1][..i] == wire[..i];
      chars, estimate := chars + |wire[i]|, estimate + 2 * ByteLength(wire[i]);
    }
    assert wire[..|wire|] == wire;
  }

  /** `price`: the engine's own arithmetic. */
  method ComputePrice(input: nat, output: nat, rates: Option<Rates>) returns (p: Price)
    requires rates.Some? ==> rates.value.inputMicros >= 0 && rates.value.outputMicros >= 0
    ensures p == PriceOf(input, output, rates)
    ensures forall field :: Stores(field, p) <==> Charged(field, input, output, rates)
  {
    forall field ensures Stores(field, PriceOf(input, output, rates)) <==> Charged(field, input, output, rates) {
      PriceIsCharged(field, input, output, rates);
    }
    if rates == None { return Unpriced; }
    var numerator := input * rates.value.inputMicros + output * rates.value.outputMicros;
    if !Integer(numerator) { return Overflow; }
    p := Micros((numerator + 999_999) / 1_000_000);
  }

  method CountVisible(rounds: seq<Round>) returns (chars: nat)
    ensures chars == Chars(rounds)
  {
    chars := 0;
    for i := 0 to |rounds|
      invariant chars == Chars(rounds[..i])
    {
      assert rounds[..i + 1][..i] == rounds[..i];
      chars := chars + |rounds[i].visibleText|;
    }
    assert rounds[..|rounds|] == rounds;
  }

  /** The ledger is summed up afresh before every save. */
  method Account(r: Record) returns (t: Record)
    ensures t == r.(spent := Spent(r.rounds), held := Held(r.rounds), costUnknown := Unknown(r.rounds))
  {
    hide Spent, Held, Unknown;
    var spent, held, unknown := 0, 0, false;
    JournalStore.NothingYet(r.rounds);
    for i := 0 to |r.rounds|
      invariant spent == Spent(r.rounds[..i]) && held == Held(r.rounds[..i]) && unknown == Unknown(r.rounds[..i])
    {
      JournalStore.TotalsOneMore(r.rounds, i);
      spent := spent + OrZero(r.rounds[i].cost);
      held := held + OrZero(r.rounds[i].hold);
      unknown := unknown || r.rounds[i].cost == None;
    }
    assert r.rounds[..|r.rounds|] == r.rounds;
    t := r.(spent := spent, held := held, costUnknown := unknown);
  }

  // ---------------------------------------------------------------- the engine

  /** How a call of `run` ends: the task cannot go on, the engine was told to stop, or nothing
      more can be saved because the revision limit is reached. */
  datatype End = Over | Stopped | Thrown

  /** A round has come to an end: interrupted, or settled in the status it accounts for. */
  ghost predicate RoundEnded(r: Record) { r.status == InterruptedUncertain || SettledAs(r) }

  /** It ends in a partial result only as the last round allowed. */
  lemma EndedRound(r: Record)
    requires RoundEnded(r)
    ensures !IsInFlight(r.status) && (r.status == PartialLimit ==> |r.rounds| >= r.request.maxRounds)
  {
    hide IsNew, TextsOf;
  }

  /** What a stream brought: its texts, usages and finishes in order, whether there were calls of
      tools, and whether it was broken off, or its text or its checkpoints reached a limit. */
  datatype Heard = Heard(text: Text, usages: seq<RawUsage>, finishes: seq<Finish>, tools: bool, cut: bool)

  /** One part of a stream: a piece of text, a usage, a finish, a piece of a tool call, anything else that
      is not kept, or an end before the end: an abort, a broken stream or something of no known shape. */
  datatype Part = TextPart(text: Text) | UsagePart(usage: RawUsage) | FinishPart(finish: Finish) | ToolPart | OtherPart
    | Failure

  function Hearing(h: Heard, part: Part): Heard {
    match part
    case TextPart(text) => h.(text := h.text + text)
    case UsagePart(usage) => h.(usages := h.usages + [usage])
    case FinishPart(finish) => h.(finishes := h.finishes + [finish])
    case ToolPart => h.(tools := true)
    case OtherPart => h
    case Failure => h.(cut := true)
  }

  /** How the call of a model goes up to its stream: whether it can be prepared, and whether an abort
      comes before it is opened. */
  datatype Luck = Luck(prepared: bool, aborted: bool)

  /** Exactly one usage, which adds up, one finish that tells an end, and nothing in the way. */
  predicate Conclusive(h: Heard) {
    && !h.tools && !h.cut && |h.usages| == 1 && UsageOk(h.usages[0])
    && |h.finishes| == 1 && h.finishes[0] in {Stop, MaxTokens}
  }

  /** The round is settled with what was heard, or, exactly if that was inconclusive or is too dear
      to be recorded, interrupted; it shows what was heard, or as much of it as there was room for. */
  ghost predicate EndsAsHeard(before: Text, r: Record, h: Heard) {
    && (r.status == InterruptedUncertain <==>
          !Conclusive(h) || TooDear(h.usages[0], r.request.route.costRates))
    && (r.status != InterruptedUncertain ==>
          SettledWith(r, h.usages[0], h.finishes[0]) && Shown(r) == before + h.text)
    && before <= Shown(r) <= before + h.text
  }

  class TaskEngine {
    const me: EngineId
    const owner: string
    const task: string
    ghost const start: seq<Cell> // the directory before any of these engines
    var r: Record
    var persistenceFailed: bool
    var stopping: bool           // the caller's signal fired, or the engine was disposed
    var late: bool               // the task's deadline has passed
    var world: System
    ghost var events: seq<Event>

    /** The world is what some run of the whole system leads to. */
    ghost predicate Reached()
      reads `world, `events
    {
      Sound(start, owner, task) && IsRun(Init(owner, task, start), events, world)
    }

    /** The engine's copy and place in the code are those of the system. */
    ghost predicate At(phase: Phase, attempt: Option<AttemptId>)
      reads this
    {
      Reached() && !persistenceFailed && me in world.engines && world.engines[me] == Instance(phase, r, attempt)
    }

    /** Persistence failed: the engine will not save again. */
    ghost predicate Broken()
      reads this
    {
      Reached() && persistenceFailed && me in world.engines && world.engines[me].phase == Failed
    }

    ghost predicate Ended(end: End)
      reads this
    {
      match end
      case Over => Broken() || (At(Idle, None) && !IsInFlight(r.status) && !IsSafe(r.status))
      case Stopped => At(Idle, None) && IsSafe(r.status) && stopping
      case Thrown => At(Idle, None) && r.revision == EMERGENCY_LIMIT
    }

    /** `load`: an engine that takes up a stored task. */
    constructor Load(me: EngineId, owner: string, task: string, ghost start: seq<Cell>, world: System,
        ghost events: seq<Event>)
      requires Sound(start, owner, task) && IsRun(Init(owner, task, start), events, world)
      requires Enabled(world, Event(me, Action.Load))
      ensures At(Idle, None) && this.owner == owner && this.task == task && this.me == me && this.start == start
      ensures r == world.cells[|world.cells| - 1].record && !stopping && !late
      ensures Extends(world, events, this.world, this.events)
    {
      RunAppend(Init(owner, task, start), events, world, Event(me, Action.Load));
      ExtendsOne(world, events, Event(me, Action.Load));
      this.me, this.owner, this.task, this.start := me, owner, task, start;
      this.world := Apply(world, Event(me, Action.Load));
      this.r := world.cells[|world.cells| - 1].record;
      this.persistenceFailed, this.stopping, this.late := false, false, false;
      this.events := events + [Event(me, Action.Load)];
      hide IsRun, Sound, Extends;
    }

    /** `plan`: a new task, planned and saved in an empty directory. */
    constructor Plan(me: EngineId, owner: string, task: string, ghost start: seq<Cell>, world: System,
        ghost events: seq<Event>,
                     request: Request, evidence: Option<Evidence>)
      requires Sound(start, owner, task) && IsRun(Init(owner, task, start), events, world)
      requires Enabled(world, Event(me, Action.Plan(request, evidence)))
      ensures Broken() || (At(Idle, None) && !BadDates(evidence) && r.status == Planned && r.revision == 1
                && r.owner == owner && r.task == task && r.request == request && r.rounds == []
                && r.evidence == NormalizeEvidence(evidence))
      ensures Extends(world, events, this.world, this.events)
    {
      var ev := Event(me, Action.Plan(request, evidence));
      Onward(world, events);
      RunAppend(Init(owner, task, start), events, world, ev);
      ExtendsOne(world, events, ev);
      PlanBegins(owner, task, start, events, world, ev);
      this.me, this.owner, this.task, this.start := me, owner, task, start;
      this.world := Apply(world, ev);
      this.r := NewTask(owner, task, request, NormalizeEvidence(evidence));
      this.persistenceFailed, this.stopping, this.late := BadDates(evidence), false, false;
      this.events := events + [ev];
      new;
      hide IsRun, Inv, Apply, Enabled, NormalizeEvidence, BadDates, Spent, Held, Unknown, Sound, Extends;
      if !persistenceFailed {
        var ok := Save(ToIdle, None);
      }
    }

    method Step(ev: Event)
      requires Reached() && Enabled(world, ev)
      modifies `world, `events
      ensures Reached() && world == Apply(old(world), ev) && Inv(world)
      ensures Extends(old(world), old(events), world, events)
    {
      hide Enabled, Apply, Inv, Sound, Extends;
      RunAppend(Init(owner, task, start), events, world, ev);
      ExtendsOne(world, events, ev);
      world, events := Apply(world, ev), events + [ev];
      Reachable(owner, task, start, events, world);
    }

    /** A wait: the other engines take any number of steps, time passes, and the engine may be
        told to stop. */
    method Others()
      requires Reached() && me in world.engines
      modifies `world, `events, `stopping, `late
      ensures Reached() && me in world.engines && world.engines[me] == old(world).engines[me] && Inv(world)
      ensures Extends(old(world), old(events), world, events)
      ensures (old(stopping) ==> stopping) && (old(late) ==> late)
    {
      hide Enabled, Apply, Inv, IsRun, Sound, Extends;
      Onward(world, events);
      var n: int := *;
      while n > 0
        invariant Reached() && me in world.engines && world.engines[me] == old(world).engines[me]
        invariant Extends(old(world), old(events), world, events)
        invariant (old(stopping) ==> stopping) && (old(late) ==> late)
      {
        var ev: Event := *;
        if ev.e != me && Enabled(world, ev) {
          OthersUntouched(world, ev, me);
          Step(ev);
        }
        var stop, pass := *, *;
        stopping, late := stopping || stop, late || pass;
        n := n - 1;
      }
      Reachable(owner, task, start, events, world);
    }

    /** `save`: the ledger is summed up, and the journal appends the next revision unless the
        directory has moved on, cannot be read, the record may not follow, or the disk fails at
        some point. */
    method Save(after: After, attempt: Option<AttemptId>) returns (ok: bool)
      requires At(Saving(after), attempt) && (after.ToStreaming? ==> r.rounds != [])
      modifies this
      ensures Extends(old(world), old(events), world, events) && (old(late) ==> late)
      ensures ok ==>
                && after != Uncommitted && r == Proposal(old(r))
                && At(Resume(after, r), if after == ToIdle then None else attempt)
      ensures !ok ==> Broken()
    {
      hide Inv, IsRun, Apply, CanAct, Resume, Proposal, Sound, Extends, MayFollow;
      Onward(world, events);
      var accounted := Account(r);
      ProposalIs(r, accounted);
      r := accounted;
      var input := r.(revision := r.revision + 1);
      Others();
      var reaches := *;
      if !reaches {
        Lose(SaveError);
        return false;
      }
      if MovedOn(world.cells, world.engines[me].r.revision) {
        Lose(Conflict);
        return false;
      }
      CreateBegins(world, me);
      if !MayFollow(Before(Records(world.cells), |world.cells|), input) {
        Lose(Create);
        return false;
      }
      Step(Event(me, Create));
      Others();
      WritingIsLast(world, me);
      var fault := *;
      FillEnds(world, me);
      if fault == 0 {
        Lose(SaveError);
        return false;
      }
      if fault == 1 {
        Lose(FillError);
        return false;
      }
      Step(Event(me, Fill));
      r := input;
      return true;
    }

    /** The save fails: the directory has moved on or is torn, the record may not follow, the disk
        fails on the way to the file, or the file is left torn or whole. */
    method Lose(a: Action)
      requires Reached() && me in world.engines && Inv(world) && !persistenceFailed
      requires world.engines[me].phase.Saving? || world.engines[me].phase.Writing?
      requires a == SaveError || (a == FillError && world.engines[me].phase.Writing?) ||
               (a == Conflict && world.engines[me].phase.Saving?
                 && MovedOn(world.cells, world.engines[me].r.revision)) ||
               (a == Create && Creating(world, me) && world.engines[me].phase.after == Uncommitted)
      modifies this
      ensures Extends(old(world), old(events), world, events) && late == old(late)
      ensures Broken()
    {
      hide Inv, IsRun, Proposal, Sound, Extends, MayFollow, Apply, Enabled;
      if a == FillError { WritingIsLast(world, me); }
      if a == Create { StrayIsRefused(world, me); }
      LossEnds(world, me, a);
      persistenceFailed := true;
      Step(Event(me, a));
    }

    /** The block before a save, as one event: the engine's record becomes `next`. */
    method Begin(a: Action, next: Record, ghost after: After, ghost attempt: Option<AttemptId>)
      requires Reached() && Inv(world) && me in world.engines && !persistenceFailed
      requires !a.Plan? && !a.Create? && !a.Conflict? && Begins(world, me, a, next, after, attempt)
      modifies this
      ensures At(Saving(after), attempt) && r == next && late == old(late)
      ensures Extends(old(world), old(events), world, events)
    {
      hide Inv, IsRun, Apply, Enabled, Sound, Extends;
      StepOk(world, Event(me, a));
      Step(Event(me, a));
      r := next;
    }

    /** An attempt that cannot go on is recorded as interrupted. */
    method FailAttempt(phase: Phase, id: AttemptId) returns (ok: bool)
      requires At(phase, Some(id)) && (phase == Preparing || phase == Ready || phase.Streaming?) && r.rounds != []
      modifies this
      ensures Extends(old(world), old(events), world, events)
      ensures ok ==> At(Idle, None) && r == Proposal(Interrupted(old(r)))
      ensures !ok ==> Broken()
    {
      hide IsRun, Inv, Proposal, Interrupted, Sound, Extends;
      Onward(world, events);
      Reachable(owner, task, start, events, world);
      FailBegins(world, me);
      Begin(Fail, Interrupted(r), ToIdle, Some(id));
      ok := Save(ToIdle, Some(id));
    }

    /** One text chunk: cut to the room left, and saved at every 2048 further code units; where
        no further checkpoint may be saved, the attempt is interrupted.  `more` tells whether
        the stream may go on. */
    method TakeText(id: AttemptId, checkpoint: nat, text: Text) returns (ok: bool, more: bool, next: nat)
      requires At(Streaming(checkpoint, false), Some(id))
      modifies this
      ensures Extends(old(world), old(events), world, events)
      ensures !ok ==> Broken()
      ensures ok && more ==> At(Streaming(next, false), Some(id)) && SameTask(old(r), r)
      ensures ok && !more ==> At(Idle, None) && r.status == InterruptedUncertain && SameTask(old(r), r)
      ensures var room := MAX_VISIBLE - Chars(old(r).rounds);
              && 0 <= room && (ok ==> Shown(r) == Shown(old(r)) + if |text| <= room then text else text[..room])
              && (ok && more ==> |text| <= room)
              && (ok && !more ==> |text| > room || old(r).revision >= NORMAL_LIMIT)
    {
      hide IsRun, Inv, Proposal, Interrupted, Grown, SameTask, Shown, Sound, Extends;
      Onward(world, events);
      Reachable(owner, task, start, events, world);
      StreamFacts(world, me);
      var used := CountVisible(r.rounds);
      var over := |text| > MAX_VISIBLE - used;
      var grown := Grown(r, text);
      GrownFacts(r, text);
      ShownIsLast(grown);
      SameAfterGrowth(r, text);
      ShownAfterGrowth(r, text);
      next := checkpoint;
      if |Last(grown.rounds).visibleText| - checkpoint >= 2048 {
        CheckpointBegins(world, me, text);
        if r.revision >= NORMAL_LIMIT {
          Begin(Chunk(text), Interrupted(grown), ToIdle, Some(id));
          ok := Save(ToIdle, Some(id));
          return ok, false, next;
        }
        Begin(Chunk(text), grown, ToStreaming(over), Some(id));
        ok := Save(ToStreaming(over), Some(id));
        if !ok { return false, false, next; }
        SameAfterProposal(grown);
        next := |Last(r.rounds).visibleText|;
      } else {
        KeepsReading(world, me, text);
        Step(Event(me, Chunk(text)));
        r := grown;
      }
      if over {
        ok := FailAttempt(Streaming(next, true), id);
        more := false;
        return;
      }
      return true, true, next;
    }

    /** The end of a stream whose usage and finish arrived once each: the round is priced and
        settled, or, if its price leaves the exact integers, interrupted. */
    method Settle(id: AttemptId, checkpoint: nat, usage: RawUsage, finish: Finish) returns (ok: bool)
      requires At(Streaming(checkpoint, false), Some(id)) && UsageOk(usage) && (finish == Stop || finish == MaxTokens)
      modifies this
      ensures Extends(old(world), old(events), world, events)
      ensures !ok ==> Broken()
      ensures ok ==> At(Idle, None) && SameTask(old(r), r) && Shown(r) == Shown(old(r))
      ensures ok ==> if TooDear(usage, r.request.route.costRates) then r.status == InterruptedUncertain
                     else r.status != InterruptedUncertain && SettledWith(r, usage, finish)
    {
      hide IsRun, Inv, Proposal, Interrupted, Noted, Settled, SettledPrice, SameTask, UsageOk, Shown, Sound, Extends,
        TooDear, SettledWith;
      Onward(world, events);
      Reachable(owner, task, start, events, world);
      StreamFacts(world, me);
      SettleBegins(world, me, usage, finish);
      OutcomeRevision(r, usage, finish);
      OutcomeEnds(r, usage, finish);
      PricedParts(r, usage);
      var price: Price := Unpriced;
      if usage.cacheWrite <= 0 {
        price := ComputePrice(usage.input + usage.cacheRead, usage.output, r.request.route.costRates);
      }
      var next := if price == Overflow then Interrupted(Noted(r, usage, finish)) else Settled(r, usage, finish);
      Begin(Finished(usage, finish), next, ToIdle, Some(id));
      ok := Save(ToIdle, Some(id));
    }

    /** The chunks of one stream, until it ends or has to be given up, and how the round ends after
        what was heard. */
    method Stream(id: AttemptId) returns (ok: bool, ghost heard: Heard)
      requires At(Streaming(0, false), Some(id)) && r.rounds != []
      modifies this
      ensures Extends(old(world), old(events), world, events)
      ensures !ok ==> Broken()
      ensures ok ==> At(Idle, None) && SameTask(old(r), r) && EndsAsHeard(Shown(old(r)), r, heard)
    {
      hide IsRun, Inv, Proposal, Interrupted, SameTask, Shown, Sound, Extends, EndsAsHeard;
      Onward(world, events);
      ghost var before := r;
      heard := Heard([], [], [], false, false);
      var checkpoint, usageCount, finishCount, bad := 0, 0, 0, false;
      var usage: RawUsage, finish: Finish := *, *;
      var chunks: int := *;
      SameAsItself(r);
      while chunks > 0
        invariant At(Streaming(checkpoint, false), Some(id)) && SameTask(before, r)
        invariant Shown(r) == Shown(before) + heard.text && heard.tools == bad && !heard.cut
        invariant |heard.usages| == usageCount && |heard.finishes| == finishCount
        invariant usageCount > 0 ==> usage == heard.usages[usageCount - 1]
        invariant finishCount > 0 ==> finish == heard.finishes[finishCount - 1]
        invariant Extends(old(world), old(events), world, events)
      {
        Others();
        chunks := chunks - 1;
        var part: Part := *;
        ghost var earlier := heard;
        heard := Hearing(heard, part);
        match part {
          case TextPart(text) =>
            var more;
            ghost var prior := r;
            ok, more, checkpoint := TakeText(id, checkpoint, text);
            if !ok { return; }
            SameTwice(before, prior, r);
            CutIsPrefix(Shown(before), earlier.text, text, MAX_VISIBLE - Chars(prior.rounds));
            if !more {
              heard := heard.(cut := true);
              GivenUp(Shown(before), r, heard);
              return;
            }
          case UsagePart(u) =>
            usageCount, usage := usageCount + 1, u;
          case FinishPart(f) =>
            finishCount, finish := finishCount + 1, f;
          case ToolPart =>
            bad := true;
          case OtherPart =>
          case Failure =>
            ok := GiveUp(Streaming(checkpoint, false), id, before);
            if ok { GivenUp(Shown(before), r, heard); }
            return;
        }
      }
      Others();
      var aborted := *;
      heard := heard.(cut := aborted);
      if aborted || bad || usageCount != 1 || finishCount != 1 || !(finish == Stop || finish == MaxTokens)
        || !UsageOk(usage) {
        ok := GiveUp(Streaming(checkpoint, false), id, before);
        if ok { GivenUp(Shown(before), r, heard); }
        return;
      }
      ghost var prior := r;
      ok := Settle(id, checkpoint, usage, finish);
      if ok {
        SameTwice(before, prior, r);
        HeardOut(Shown(before), r, heard);
      }
    }

    method GiveUp(phase: Phase, id: AttemptId, ghost before: Record) returns (ok: bool)
      requires At(phase, Some(id)) && (phase == Preparing || phase == Ready || phase.Streaming?) && SameTask(before, r)
      requires before.rounds != []
      modifies this
      ensures Extends(old(world), old(events), world, events)
      ensures !ok ==> Broken()
      ensures ok ==> At(Idle, None) && r.status == InterruptedUncertain && SameTask(before, r)
      ensures ok ==> Shown(r) == Shown(old(r))
    {
      hide IsRun, Inv, Sound, Extends;
      ok := FailAttempt(phase, id);
    }

    /** One attempt, from its commit to its end. */
    method Attempt(id: AttemptId, luck: Luck) returns (ok: bool, ghost heard: Option<Heard>)
      requires At(Saving(ToPreparing), Some(id)) && r.rounds != []
      modifies this
      ensures Extends(old(world), old(events), world, events)
      ensures !ok ==> Broken()
      ensures ok ==> At(Idle, None) && RoundEnded(r) && SameTask(old(r), r)
      ensures ok ==> if heard == None then r.status == InterruptedUncertain && Shown(r) == Shown(old(r))
                     else EndsAsHeard(Shown(old(r)), r, heard.value)
      ensures ok ==> (heard == None <==> !luck.prepared || old(r).revision + 1 >= NORMAL_LIMIT || luck.aborted)
    {
      hide IsRun, Inv, Interrupted, Started, SameTask, Spent, Held, Unknown, Shown, Sound, Extends, Begins, Apply,
        Enabled, EndsAsHeard, SettledAs;
      Onward(world, events);
      ghost var before := r;
      heard := None;
      ok := Save(ToPreparing, Some(id));
      if !ok { return; }
      SameSaved(before);
      Others();
      if !luck.prepared {
        ok := GiveUp(Preparing, id, before);
        return;
      }
      StartBegins(world, me);
      SameStarted(before);
      if r.revision >= NORMAL_LIMIT {
        Begin(Prepared, Interrupted(Started(r)), ToIdle, Some(id));
        ok := Save(ToIdle, Some(id));
        return;
      }
      Begin(Prepared, Started(r), ToReady, Some(id));
      ok := Save(ToReady, Some(id));
      if !ok { return; }
      Others();
      if luck.aborted {
        ok := GiveUp(Ready, id, before);
        return;
      }
      OpenNow(world, me);
      Step(Event(me, Open));
      ghost var dispatched := r;
      ghost var all;
      ok, all := Stream(id);
      heard := Some(all);
      if ok {
        SameTwice(before, dispatched, r);
        HeardEnds(Shown(before), r, all);
      }
    }

    /** No further round: out of time, rounds, context or room for text.  At revision 1024 not
        even that can be saved, and nothing changes. */
    method Limit() returns (end: End)
      requires At(Idle, None) && IsSafe(r.status)
      modifies this
      ensures Extends(old(world), old(events), world, events)
      ensures Ended(end) && (old(late) ==> late)
      ensures At(Idle, None) ==> r == if end == Thrown then old(r) else Proposal(Limited(old(r)))
    {
      hide IsRun, Inv, Spent, Held, Unknown, Sound, Extends;
      Onward(world, events);
      if r.revision >= EMERGENCY_LIMIT {
        Reachable(owner, task, start, events, world);
        IdleFacts(world, me);
        return Thrown;
      }
      Reachable(owner, task, start, events, world);
      LimitBegins(world, me);
      Begin(Action.Limit, Limited(r), ToIdle, None);
      var ok := Save(ToIdle, None);
      return Over;
    }

    /** The commit of one more attempt, reserved and named, and all that follows from it.  At
        revision 1023 the commit is stopped and an interruption passed to the journal, which
        refuses it; at revision 1024 not even that is passed. */
    method OneRound(estimate: nat) returns (ok: bool)
      requires At(Idle, None) && IsSafe(r.status) && RoomToRun(r) && Inv(world)
      requires estimate == 1024 + WireBytes(Messages(r.request, r.rounds))
      modifies this
      ensures Extends(old(world), old(events), world, events)
      ensures !ok ==> Broken()
      ensures ok ==> At(Idle, None) && RoundEnded(r) && r.request == old(r.request) && |r.rounds| == |old(r.rounds)| + 1
      ensures old(r).revision >= NORMAL_LIMIT ==> !ok
    {
      hide IsRun, Inv, SameTask, RequestOk, Sound, Extends, RoundEnded;
      Onward(world, events);
      Reserve(world, me);
      var hold := ComputePrice(estimate, r.request.route.maxTokens, r.request.route.costRates);
      var id := FreshName(world.used);
      var route := r.request.route;
      var round := Round(id, AttemptCommitted, [], None, None, None, Field(hold),
                         Some(RoundRoute(route.provider, route.model, route.effort)));
      var next := r.(rounds := r.rounds + [round], status := AttemptCommitted);
      CommitBegins(world, me, id);
      hide RoomToRun, WireBytes, Messages, PriceOf;
      hide Apply, Enabled, Begins, Committed, Interrupted;
      if r.revision >= NORMAL_LIMIT {
        StopCommit(id, next);
        return false;
      }
      Begin(Commit(id), next, ToPreparing, Some(id));
      ghost var heard;
      var luck: Luck := *;
      ok, heard := Attempt(id, luck);
      if ok { OneMoreRound(next, r); }
    }

    /** The revision limit stops a commit: the interruption of the round is passed to the journal
        as long as there is a revision number for it. */
    method StopCommit(id: AttemptId, next: Record)
      requires At(Idle, None) && Inv(world) && r.revision >= NORMAL_LIMIT && next.rounds != []
      requires Enabled(world, Event(me, Commit(id)))
      requires if r.revision < EMERGENCY_LIMIT
               then Begins(world, me, Commit(id), Interrupted(next), Uncommitted, Some(id))
               else var t := Apply(world, Event(me, Commit(id))); me in t.engines && t.engines[me].phase == Failed
      modifies this
      ensures Extends(old(world), old(events), world, events)
      ensures Broken()
    {
      hide IsRun, Inv, Sound, Extends, Apply, Enabled, Begins, Interrupted;
      Onward(world, events);
      if r.revision >= EMERGENCY_LIMIT {
        persistenceFailed := true;
        Step(Event(me, Commit(id)));
      } else {
        Begin(Commit(id), Interrupted(next), Uncommitted, Some(id));
        var ok := Save(Uncommitted, Some(id));
      }
    }

    /** One turn of the loop: stop, give up, or run one more round. */
    method Turn() returns (go: bool, end: End)
      requires At(Idle, None) && IsSafe(r.status)
      modifies this
      ensures Extends(old(world), old(events), world, events)
      ensures !go ==> Ended(end)
      ensures !go && At(Idle, None) ==> r == if end == Over then Proposal(Limited(old(r))) else old(r)
      ensures !go && At(Idle, None) && r.status == PartialLimit ==> late || !RoomToRun(r)
      ensures old(stopping) ==> !go && end == Stopped && At(Idle, None)
      ensures go ==> !old(late) && RoomToRun(old(r))
      ensures go ==> At(Idle, None) && RoundEnded(r) && r.request == old(r.request) &&
                     |r.rounds| == |old(r.rounds)| + 1 <= r.request.maxRounds
    {
      hide IsRun, Inv, Messages, WireChars, WireBytes, Chars, Sound, Extends, RoundEnded;
      Onward(world, events);
      Others();
      if stopping { return false, Stopped; }
      if late || |r.rounds| >= r.request.maxRounds {
        end := Limit();
        return false, end;
      }
      var wire := BuildMessages(r);
      var chars, estimate := Measure(wire);
      var visible := CountVisible(r.rounds);
      if chars > r.request.contextChars || visible >= MAX_VISIBLE {
        end := Limit();
        return false, end;
      }
      go := OneRound(estimate);
      end := Over;
    }

    /** `run`: an attempt left in flight by an earlier process is recorded as interrupted and
        never repeated; otherwise rounds follow until the task is over, the engine is told to
        stop, or nothing more can be saved.  A safe task is given up only out of time, rounds,
        context or room.  If there was another round, the last one was interrupted, or settled in
        the status it accounts for, unless the task was given up when it could be continued.  The
        loop always ends. */
    method Run() returns (end: End)
      requires At(Idle, None)
      modifies this
      ensures Extends(old(world), old(events), world, events)
      ensures Ended(end)
      ensures IsInFlight(old(r).status) && At(Idle, None) && end == Over ==>
                old(r).rounds != [] && r == Proposal(Interrupted(old(r)))
      ensures IsSafe(old(r).status) && At(Idle, None) && r.status == PartialLimit ==> late || !RoomToRun(r)
      ensures At(Idle, None) && |r.rounds| > |old(r).rounds| ==>
                RoundEnded(r) || (r.status == PartialLimit && SettledAs(r.(status := ContinuationReady)))
      ensures old(stopping) && IsSafe(old(r).status) ==> end == Stopped && At(Idle, None) && r == old(r)
      ensures old(late) && At(Idle, None) ==> |r.rounds| == |old(r).rounds|
    {
      hide IsRun, Inv, Sound, Extends, Messages, WireChars, Chars, Spent, Held, Unknown, SettledAs;
      Onward(world, events);
      Reachable(owner, task, start, events, world);
      IdleFacts(world, me);
      if IsInFlight(r.status) {
        if r.revision >= EMERGENCY_LIMIT { return Thrown; }
        RecoverBegins(world, me);
        Begin(Recover, Interrupted(r), ToIdle, None);
        var ok := Save(ToIdle, None);
        return Over;
      }
      while IsSafe(r.status)
        invariant At(Idle, None) && !IsInFlight(r.status)
        invariant Extends(old(world), old(events), world, events)
        invariant IsSafe(old(r).status) && r.status == PartialLimit ==> !RoomToRun(r)
        invariant |r.rounds| > |old(r).rounds| ==> RoundEnded(r)
        invariant (old(stopping) ==> stopping && r == old(r)) && (old(late) ==> late && r == old(r))
        decreases r.request.maxRounds - |r.rounds|
      {
        var go: bool;
        ghost var before := r;
        go, end := Turn();
        if !go {
          if At(Idle, None) && end == Over && |r.rounds| > |old(r).rounds| { GivenUpAsSettled(before); }
          return;
        }
        EndedRound(r);
      }
      return Over;
    }
  }

  /** If event `a` is not refused, engine `e` is left saving `next`. */
  predicate Begins(s: System, e: EngineId, a: Action, next: Record, after: After, attempt: Option<AttemptId>) {
    Enabled(s, Event(e, a)) &&
    var t := Apply(s, Event(e, a));
    t.refused > s.refused || (e in t.engines && t.engines[e] == Instance(Saving(after), next, attempt))
  }

  lemma SaveBegins(s: System, e: EngineId, r: Record, after: After, attempt: Option<AttemptId>)
    requires r.revision < EMERGENCY_LIMIT
    ensures var t := BeginSave(s, e, r, after, attempt);
            t.refused > s.refused || (e in t.engines && t.engines[e] == Instance(Saving(after), r, attempt))
  {
    hide Good, MayFollow;
  }

  lemma LossEnds(s: System, e: EngineId, a: Action)
    requires e in s.engines && (s.engines[e].phase.Saving? || s.engines[e].phase.Writing?)
    requires a == SaveError || (a == FillError && s.engines[e].phase.Writing?
               && 0 <= s.engines[e].r.revision < |s.cells|) ||
             (a == Conflict && s.engines[e].phase.Saving? && MovedOn(s.cells, s.engines[e].r.revision)) ||
             (a == Create && Enabled(s, Event(e, a)) && Apply(s, Event(e, a)).refused == s.refused + 1)
    ensures Enabled(s, Event(e, a)) && e in Apply(s, Event(e, a)).engines
            && Apply(s, Event(e, a)).engines[e].phase == Failed
  {
    hide BeginSave, SaveOrInterrupt, MayFollow, Proposal, Records;
  }

  lemma ProposalIs(r: Record, accounted: Record)
    requires accounted == r.(spent := Spent(r.rounds), held := Held(r.rounds), costUnknown := Unknown(r.rounds))
    ensures Proposal(r) == accounted.(revision := accounted.revision + 1)
  {
    hide Spent, Held, Unknown;
  }

  /** The revision file is created, but for the record of a round that was never committed. */
  lemma CreateBegins(s: System, e: EngineId)
    requires Inv(s) && e in s.engines && s.engines[e].phase.Saving? && Readable(s.cells)
             && |s.cells| == s.engines[e].r.revision
    ensures Enabled(s, Event(e, Create)) && Creating(s, e)
    ensures MayFollow(Before(Records(s.cells), |s.cells|), Proposal(s.engines[e].r)) <==>
              s.engines[e].phase.after != Uncommitted
    ensures var t := Apply(s, Event(e, Create));
            s.engines[e].phase.after != Uncommitted ==>
              e in t.engines && t.engines[e] == s.engines[e].(phase := Writing(s.engines[e].phase.after))
  {
    hide Inv, MayFollow, Proposal;
    if s.engines[e].phase.after == Uncommitted {
      StrayIsRefused(s, e);
    } else {
      NextIsAccepted(s, e);
    }
  }

  lemma FillEnds(s: System, e: EngineId)
    requires Inv(s) && e in s.engines && s.engines[e].phase.Writing?
    requires s.engines[e].phase.after.ToStreaming? ==> s.engines[e].r.rounds != []
    ensures Enabled(s, Event(e, Fill))
    ensures var t, en := Apply(s, Event(e, Fill)), s.engines[e];
            && e in t.engines && (en.phase.after.ToStreaming? ==> Proposal(en.r).rounds != [])
            && t.engines[e] == Instance(Resume(en.phase.after, Proposal(en.r)), Proposal(en.r),
                 if en.phase.after == ToIdle then None else en.attempt)
  {
    hide Inv, Spent, Held, Unknown, BeginSave, SaveOrInterrupt, Good, MayFollow;
    WritingIsLast(s, e);
  }

  lemma AttemptFacts(s: System, e: EngineId)
    requires Inv(s) && e in s.engines
    requires s.engines[e].phase == Preparing || s.engines[e].phase == Ready || s.engines[e].phase.Streaming?
    ensures s.engines[e].r.revision < EMERGENCY_LIMIT
  {
    hide Inv, Good, Early;
    var base := BaseFacts(s, e);
  }

  lemma FailEffect(s: System, e: EngineId)
    requires e in s.engines && s.engines[e].r.rounds != []
    requires s.engines[e].phase == Preparing || s.engines[e].phase == Ready || s.engines[e].phase.Streaming?
    ensures Enabled(s, Event(e, Fail))
    ensures Apply(s, Event(e, Fail)) == BeginSave(s, e, Interrupted(s.engines[e].r), ToIdle, s.engines[e].attempt)
  {
    hide BeginSave, Interrupted;
  }

  lemma FailBegins(s: System, e: EngineId)
    requires Inv(s) && e in s.engines && s.engines[e].r.rounds != []
    requires s.engines[e].phase == Preparing || s.engines[e].phase == Ready || s.engines[e].phase.Streaming?
    ensures Begins(s, e, Fail, Interrupted(s.engines[e].r), ToIdle, s.engines[e].attempt)
  {
    hide Inv, BeginSave, Apply, Enabled;
    AttemptFacts(s, e);
    FailEffect(s, e);
    SaveBegins(s, e, Interrupted(s.engines[e].r), ToIdle, s.engines[e].attempt);
  }

  /** The task and its rounds, whatever has happened to the last one. */
  predicate SameTask(a: Record, b: Record) {
    b.request == a.request && |b.rounds| == |a.rounds| && (a.rounds != [] ==> b.rounds != [])
  }

  lemma StreamFacts(s: System, e: EngineId)
    requires Inv(s) && e in s.engines && s.engines[e].phase.Streaming?
    ensures var r := s.engines[e].r; r.rounds != [] && Chars(r.rounds) <= MAX_VISIBLE && RequestOk(r.request)
  {
    hide Inv;
    var base := BaseFacts(s, e);
    hide RequestOk, RoundsOk;
    GoodParts(base);
  }

  lemma ShownIsLast(r: Record)
    requires r.rounds != []
    ensures Shown(r) == Last(r.rounds).visibleText
  {
  }

  lemma GrownFacts(r: Record, text: Text)
    requires r.rounds != [] && Chars(r.rounds) <= MAX_VISIBLE
    ensures var g := Grown(r, text);
            g.rounds != [] && g.revision == r.revision && Interrupted(g).revision == r.revision
  {
    hide Chars;
  }

  lemma CheckpointEffect(s: System, e: EngineId, text: Text)
    requires e in s.engines && s.engines[e].phase.Streaming? && !s.engines[e].phase.over
    requires s.engines[e].r.rounds != [] && Chars(s.engines[e].r.rounds) <= MAX_VISIBLE
    requires |Shown(Grown(s.engines[e].r, text))| - s.engines[e].phase.checkpoint >= 2048
    ensures Enabled(s, Event(e, Chunk(text))) && Grown(s.engines[e].r, text).rounds != []
    ensures var en := s.engines[e];
            Apply(s, Event(e, Chunk(text))) ==
              SaveOrInterrupt(s, e, Grown(en.r, text), ToStreaming(|text| > MAX_VISIBLE - Chars(en.r.rounds)), ToIdle,
                en.attempt)
  {
    hide SaveOrInterrupt, Chars, Grown;
    GrownFacts(s.engines[e].r, text);
  }

  lemma CheckpointBegins(s: System, e: EngineId, text: Text)
    requires Inv(s) && e in s.engines && s.engines[e].phase.Streaming? && !s.engines[e].phase.over
    requires s.engines[e].r.rounds != [] && Chars(s.engines[e].r.rounds) <= MAX_VISIBLE
    requires |Shown(Grown(s.engines[e].r, text))| - s.engines[e].phase.checkpoint >= 2048
    ensures Grown(s.engines[e].r, text).rounds != []
    ensures var en := s.engines[e];
            var r, over := Grown(en.r, text), |text| > MAX_VISIBLE - Chars(en.r.rounds);
            if en.r.revision < NORMAL_LIMIT then Begins(s, e, Chunk(text), r, ToStreaming(over), en.attempt)
            else Begins(s, e, Chunk(text), Interrupted(r), ToIdle, en.attempt)
  {
    hide Inv, BeginSave, Chars, Grown, Interrupted, Apply, Enabled, Shown;
    AttemptFacts(s, e);
    var en := s.engines[e];
    var r, over := Grown(en.r, text), |text| > MAX_VISIBLE - Chars(en.r.rounds);
    GrownFacts(en.r, text);
    CheckpointEffect(s, e, text);
    SaveBegins(s, e, r, ToStreaming(over), en.attempt);
    SaveBegins(s, e, Interrupted(r), ToIdle, en.attempt);
  }

  lemma KeepsReading(s: System, e: EngineId, text: Text)
    requires e in s.engines && s.engines[e].phase.Streaming? && !s.engines[e].phase.over
    requires s.engines[e].r.rounds != [] && Chars(s.engines[e].r.rounds) <= MAX_VISIBLE
    requires |Shown(Grown(s.engines[e].r, text))| - s.engines[e].phase.checkpoint < 2048
    ensures Enabled(s, Event(e, Chunk(text)))
    ensures var en, t := s.engines[e], Apply(s, Event(e, Chunk(text)));
            var r, over := Grown(en.r, text), |text| > MAX_VISIBLE - Chars(en.r.rounds);
            e in t.engines && t.engines[e] == Instance(Streaming(en.phase.checkpoint, over), r, en.attempt)
  {
    hide SaveOrInterrupt, Chars, Grown;
    GrownFacts(s.engines[e].r, text);
  }

  lemma SameAfterGrowth(r: Record, text: Text)
    requires r.rounds != [] && Chars(r.rounds) <= MAX_VISIBLE
    ensures SameTask(r, Grown(r, text)) && SameTask(r, Proposal(Grown(r, text)))
    ensures SameTask(r, Proposal(Interrupted(Grown(r, text))))
            && SameTask(r, Proposal(Interrupted(Proposal(Grown(r, text)))))
    ensures Proposal(Interrupted(Grown(r, text))).status == Proposal(Interrupted(Proposal(Grown(r, text)))).status ==
              InterruptedUncertain
  {
    hide Spent, Held, Unknown, Chars;
  }

  lemma ShownAfterGrowth(r: Record, text: Text)
    requires r.rounds != [] && Chars(r.rounds) <= MAX_VISIBLE
    ensures var g, room := Grown(r, text), MAX_VISIBLE - Chars(r.rounds);
            && Shown(g) == Shown(r) + (if |text| <= room then text else text[..room])
            && Shown(g) == Shown(Proposal(g)) == Shown(Proposal(Interrupted(g)))
                        == Shown(Proposal(Interrupted(Proposal(g))))
  {
    hide Chars, Spent, Held, Unknown;
  }

  lemma SameAfterProposal(r: Record)
    ensures Proposal(r).rounds == r.rounds && Shown(Proposal(r)) == Shown(r)
  {
  }

  /** What the settlement block makes of the record. */
  function Outcome(r: Record, usage: RawUsage, finish: Finish): (next: Record)
    requires r.rounds != [] && RequestOk(r.request) && UsageOk(usage)
  {
    if SettledPrice(usage, r.request.route.costRates) == Overflow then Interrupted(Noted(r, usage, finish))
    else Settled(r, usage, finish)
  }

  lemma SettleBegins(s: System, e: EngineId, usage: RawUsage, finish: Finish)
    requires Inv(s) && e in s.engines && s.engines[e].phase.Streaming? && !s.engines[e].phase.over
    requires s.engines[e].r.rounds != [] && RequestOk(s.engines[e].r.request)
    requires UsageOk(usage) && (finish == Stop || finish == MaxTokens)
    ensures var en := s.engines[e];
            Begins(s, e, Finished(usage, finish), Outcome(en.r, usage, finish), ToIdle, en.attempt)
  {
    hide Inv, BeginSave, SettledPrice, UsageOk, RequestOk, Outcome, Apply, Enabled;
    AttemptFacts(s, e);
    var en := s.engines[e];
    OutcomeRevision(en.r, usage, finish);
    SettleEffect(s, e, usage, finish);
    SaveBegins(s, e, Outcome(en.r, usage, finish), ToIdle, en.attempt);
  }

  lemma PricedParts(r: Record, usage: RawUsage)
    requires RequestOk(r.request) && UsageOk(usage)
    ensures usage.input >= 0 && usage.cacheRead >= 0 && usage.output >= 0
    ensures var rates := r.request.route.costRates;
            && (rates.Some? ==> rates.value.inputMicros >= 0 && rates.value.outputMicros >= 0)
            && SettledPrice(usage, rates) ==
                 if usage.cacheWrite > 0 then Unpriced else PriceOf(usage.input + usage.cacheRead, usage.output, rates)
  {
    hide PriceOf, Trim, Word;
  }

  lemma SettleEffect(s: System, e: EngineId, usage: RawUsage, finish: Finish)
    requires e in s.engines && s.engines[e].phase.Streaming? && !s.engines[e].phase.over
    requires s.engines[e].r.rounds != [] && RequestOk(s.engines[e].r.request)
    requires UsageOk(usage) && (finish == Stop || finish == MaxTokens)
    ensures Enabled(s, Event(e, Finished(usage, finish)))
    ensures Apply(s, Event(e, Finished(usage, finish))) ==
              BeginSave(s, e, Outcome(s.engines[e].r, usage, finish), ToIdle, s.engines[e].attempt)
  {
    hide BeginSave, SettledPrice, UsageOk, RequestOk, Noted, Settled, Interrupted;
    OutcomeRevision(s.engines[e].r, usage, finish);
  }

  lemma OutcomeRevision(r: Record, usage: RawUsage, finish: Finish)
    requires r.rounds != [] && RequestOk(r.request) && UsageOk(usage)
    ensures Outcome(r, usage, finish).revision == r.revision && Noted(r, usage, finish).rounds != []
  {
    hide SettledPrice, UsageOk, RouteOk, SettledStatus;
  }

  lemma OutcomeEnds(r: Record, usage: RawUsage, finish: Finish)
    requires r.rounds != [] && RequestOk(r.request) && UsageOk(usage)
    ensures var p := Proposal(Outcome(r, usage, finish)); SameTask(r, p) && Shown(p) == Shown(r)
    ensures var p := Proposal(Outcome(r, usage, finish));
            if TooDear(usage, p.request.route.costRates) then p.status == InterruptedUncertain
            else finish in {Stop, MaxTokens} ==> p.status != InterruptedUncertain && SettledWith(p, usage, finish)
  {
    var price := SettledPrice(usage, r.request.route.costRates);
    OverflowIsTooDear(usage, r.request.route.costRates);
    hide UsageOk, TooDear, SettledPrice, Progress, Spent, Held, Unknown, SettledWith, Word, Trim;
    if price != Overflow && finish in {Stop, MaxTokens} { SettledIsSettledWith(r, usage, finish); }
  }

  lemma CutIsPrefix(before: Text, heard: Text, text: Text, room: int)
    requires 0 <= room
    ensures var kept := if |text| <= room then text else text[..room];
            && before <= before + heard + kept <= before + (heard + text)
            && (|text| <= room ==> before + heard + kept == before + (heard + text))
  {
  }

  /** A stream that is given up leaves an interrupted round that shows what there was room for. */
  lemma GivenUp(before: Text, r: Record, h: Heard)
    requires r.status == InterruptedUncertain && !Conclusive(h) && before <= Shown(r) <= before + h.text
    ensures EndsAsHeard(before, r, h)
  {
  }

  lemma HeardOut(before: Text, r: Record, h: Heard)
    requires Conclusive(h) && Shown(r) == before + h.text
    requires if TooDear(h.usages[0], r.request.route.costRates) then r.status == InterruptedUncertain
             else r.status != InterruptedUncertain && SettledWith(r, h.usages[0], h.finishes[0])
    ensures EndsAsHeard(before, r, h)
  {
    hide SettledWith, TooDear, UsageOk;
  }

  lemma HeardEnds(before: Text, r: Record, h: Heard)
    requires EndsAsHeard(before, r, h)
    ensures RoundEnded(r)
  {
    hide SettledAs, RightlyPriced, TooDear;
  }

  /** A task that could be continued is given up: but for its status it is as its last round left it. */
  lemma GivenUpAsSettled(r: Record)
    requires SettledAs(r) && IsSafe(r.status)
    ensures Proposal(Limited(r)).status == PartialLimit && SettledAs(Proposal(Limited(r)).(status := ContinuationReady))
  {
    hide IsNew, TextsOf, Spent, Held, Unknown;
  }

  lemma SameAsItself(r: Record)
    ensures SameTask(r, r)
  {
  }

  lemma SameTwice(a: Record, b: Record, c: Record)
    requires SameTask(a, b) && SameTask(b, c)
    ensures SameTask(a, c)
  {
  }

  lemma SameSaved(r: Record)
    ensures SameTask(r, Proposal(r)) && Shown(Proposal(r)) == Shown(r)
  {
  }

  lemma SameStarted(r: Record)
    requires r.rounds != []
    ensures Proposal(r).rounds != [] && SameTask(r, Proposal(Started(Proposal(r))))
            && Proposal(Started(Proposal(r))).rounds != []
    ensures Shown(Proposal(Started(Proposal(r)))) == Shown(r)
    ensures Started(Proposal(r)).rounds != [] && SameTask(r, Proposal(Interrupted(Started(Proposal(r)))))
    ensures Proposal(Interrupted(Started(Proposal(r)))).status == InterruptedUncertain
    ensures Shown(Proposal(Interrupted(Started(Proposal(r))))) == Shown(r)
  {
  }

  lemma OpenNow(s: System, e: EngineId)
    requires e in s.engines && s.engines[e].phase == Ready && s.engines[e].attempt.Some?
    ensures Enabled(s, Event(e, Open))
    ensures var t := Apply(s, Event(e, Open));
            e in t.engines && t.engines[e] == s.engines[e].(phase := Streaming(0, false))
  {
    hide BeginSave, SaveOrInterrupt;
  }

  lemma StartEffect(s: System, e: EngineId)
    requires e in s.engines && s.engines[e].phase == Preparing && s.engines[e].r.rounds != []
    ensures Enabled(s, Event(e, Prepared)) && Started(s.engines[e].r).rounds != []
    ensures Apply(s, Event(e, Prepared)) ==
              SaveOrInterrupt(s, e, Started(s.engines[e].r), ToReady, ToIdle, s.engines[e].attempt)
  {
    hide SaveOrInterrupt, Started;
    StartedHasRound(s.engines[e].r);
  }

  lemma StartedRevision(r: Record)
    requires r.rounds != []
    ensures Started(r).rounds != [] && Started(r).revision == Interrupted(Started(r)).revision == r.revision
  {
  }

  lemma StartBegins(s: System, e: EngineId)
    requires Inv(s) && e in s.engines && s.engines[e].phase == Preparing && s.engines[e].r.rounds != []
    ensures Started(s.engines[e].r).rounds != []
    ensures if s.engines[e].r.revision < NORMAL_LIMIT
            then Begins(s, e, Prepared, Started(s.engines[e].r), ToReady, s.engines[e].attempt)
            else Begins(s, e, Prepared, Interrupted(Started(s.engines[e].r)), ToIdle, s.engines[e].attempt)
  {
    hide Inv, BeginSave, Apply, Enabled, Started, Interrupted;
    AttemptFacts(s, e);
    var en := s.engines[e];
    StartedRevision(en.r);
    StartEffect(s, e);
    SaveBegins(s, e, Started(en.r), ToReady, en.attempt);
    SaveBegins(s, e, Interrupted(Started(en.r)), ToIdle, en.attempt);
  }

  lemma IdleFacts(s: System, e: EngineId)
    requires Inv(s) && e in s.engines && s.engines[e].phase == Idle
    ensures var r := s.engines[e].r;
            RequestOk(r.request) && 0 < r.revision <= EMERGENCY_LIMIT && (IsInFlight(r.status) ==> r.rounds != [])
  {
    hide Inv;
    var base := BaseFacts(s, e);
    hide RequestOk, RoundsOk, EvidenceOk;
  }

  lemma LimitBegins(s: System, e: EngineId)
    requires e in s.engines && s.engines[e].phase == Idle && IsSafe(s.engines[e].r.status)
    requires s.engines[e].r.revision < EMERGENCY_LIMIT
    ensures Begins(s, e, Action.Limit, Limited(s.engines[e].r), ToIdle, None)
  {
    hide BeginSave;
    SaveBegins(s, e, Limited(s.engines[e].r), ToIdle, None);
  }

  lemma RecoverBegins(s: System, e: EngineId)
    requires Inv(s) && e in s.engines && s.engines[e].phase == Idle && IsInFlight(s.engines[e].r.status)
    requires s.engines[e].r.revision < EMERGENCY_LIMIT
    ensures s.engines[e].r.rounds != []
    ensures Begins(s, e, Recover, Interrupted(s.engines[e].r), ToIdle, None)
    ensures Proposal(Interrupted(s.engines[e].r)).status == InterruptedUncertain
  {
    IdleFacts(s, e);
    hide Inv, Spent, Held, Unknown, BeginSave;
    SaveBegins(s, e, Interrupted(s.engines[e].r), ToIdle, None);
  }

  /** What fits the context can be priced. */
  lemma Reserve(s: System, e: EngineId)
    requires Inv(s) && e in s.engines && s.engines[e].phase == Idle
    requires WireChars(Messages(s.engines[e].r.request, s.engines[e].r.rounds)) <= s.engines[e].r.request.contextChars
    ensures var r := s.engines[e].r;
            && RequestOk(r.request) && Reservation(r) != Overflow
            && r.request.route.maxTokens >= 0
            && (r.request.route.costRates.Some? ==>
                  r.request.route.costRates.value.inputMicros >= 0 && r.request.route.costRates.value.outputMicros >= 0)
  {
    IdleFacts(s, e);
    ReservationNeverOverflows(s.engines[e].r);
    hide Inv, Messages, WireChars, Reservation;
  }

  lemma CommitBegins(s: System, e: EngineId, id: AttemptId)
    requires e in s.engines && s.engines[e].phase == Idle && IsSafe(s.engines[e].r.status) && id !in s.used
    requires RequestOk(s.engines[e].r.request) && Reservation(s.engines[e].r) != Overflow && RoomToRun(s.engines[e].r)
    ensures Enabled(s, Event(e, Commit(id))) && Committed(s.engines[e].r, id).rounds != []
    ensures var r := s.engines[e].r;
            if r.revision < NORMAL_LIMIT then Begins(s, e, Commit(id), Committed(r, id), ToPreparing, Some(id))
            else if r.revision < EMERGENCY_LIMIT then
              Begins(s, e, Commit(id), Interrupted(Committed(r, id)), Uncommitted, Some(id))
            else var t := Apply(s, Event(e, Commit(id))); e in t.engines && t.engines[e].phase == Failed
  {
    hide Good, MayFollow, Reservation, RequestOk, RoomToRun;
    var r := s.engines[e].r;
    StrayRevision(r, id);
    CommittedHasRound(r, id);
    hide Committed, Interrupted;
    if r.revision < EMERGENCY_LIMIT {
      SaveBegins(s, e, Committed(r, id), ToPreparing, Some(id));
      SaveBegins(s, e, Interrupted(Committed(r, id)), Uncommitted, Some(id));
    }
  }

  /** A name never drawn before, as a random UUID is. */
  method FreshName(used: set<AttemptId>) returns (id: AttemptId)
    ensures id !in used
  {
    ghost var bound := SomeBound(used);
    id := 0;
    while id in used
      invariant id <= bound
      decreases bound - id
    {
      id := id + 1;
    }
  }

  lemma {:induction false} SomeBound(used: set<AttemptId>) returns (bound: nat)
    ensures forall id :: id in used ==> id < bound
  {
    if used == {} {
      bound := 0;
    } else {
      var x :| x in used;
      var rest := SomeBound(used - {x});
      bound := if x < rest then rest else x + 1;
      forall id | id in used ensures id < bound {
        assert id == x || id in used - {x};
      }
    }
  }

  lemma OneMoreRound(committed: Record, r: Record)
    requires SameTask(committed, r)
    ensures r.request == committed.request && |r.rounds| == |committed.rounds|
  {
  }

  lemma PlanBegins(owner: string, task: string, start: seq<Cell>, evs: seq<Event>, s: System, ev: Event)
    requires Sound(start, owner, task) && IsRun(Init(owner, task, start), evs, s) && ev.a.Plan? && Enabled(s, ev)
    ensures var t, r := Apply(s, ev), NewTask(owner, task, ev.a.request, NormalizeEvidence(ev.a.evidence));
            ev.e in t.engines &&
            (if BadDates(ev.a.evidence) then t.engines[ev.e].phase == Failed
             else t.engines[ev.e] == Instance(Saving(ToIdle), r, None))
  {
    hide Inv, IsRun, Sound, BadDates, NormalizeEvidence, RequestOk, BeginSave, Good, MayFollow;
    InitOk(owner, task, start);
    RunOk(Init(owner, task, start), evs, s);
    PlanOk(s, ev.e, ev.a.request, ev.a.evidence);
    PlanHolds(s, ev.e, ev.a.request, ev.a.evidence);
    SaveBegins(s, ev.e, NewTask(owner, task, ev.a.request, NormalizeEvidence(ev.a.evidence)), ToIdle, None);
  }
}
