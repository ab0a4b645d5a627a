/**
 The round loop of one delegated run (agent-dispatch.mjs): children are started one after the
 other, a provider that refused up front is replaced by the next standby route, and the loop
 index steps back so that the round is tried again.
 */
module Delegation {
  import opened Wrappers
  import R = Routes
  import S = Selection
  import T = Text

  const OUTPUT_LIMIT: nat := 262144

  // ---------------------------------------------------------------- data

  datatype Choice = Choice(provider: R.Provider, model: R.Model, effort: R.Effort)

  datatype Evidence = Evidence(expiresAt: nat)

  /** A route and the evidence that authorized it, `None` when none was recorded. */
  datatype Ticket = Ticket(choice: Choice, evidence: Option<Evidence>)

  datatype Plan = Plan(first: Ticket, alternates: seq<Ticket>, maxRounds: nat, readOnly: bool,
      independence: Option<S.Independence>)

  datatype Stop = CompletedStop | MaxTokens | ErrorStop | OtherStop

  datatype Code = Refusal | OtherCode

  datatype RoundState = Starting | Streaming | FailedOver | Interrupted | Returned(stop: Stop)

  datatype Round = Round(number: nat, state: RoundState, text: T.Text, choice: Choice)

  datatype RunState =
    | Planned | Running | ContextLimit | Completed | Partial | NoProgress | NeedsReconciliation
    | InterruptedUnknown

  /** A child start: on which ticket, after how many failovers, and when. */
  datatype Start = Start(ticket: Ticket, moved: nat, at: nat)

  datatype Verdict = Allowed | HasOutput | CodeUnknown | NotARefusal | WriteScope

  function CanFailOver(code: Option<Code>, producedOutput: bool, canWrite: bool): Verdict {
    if producedOutput then HasOutput
    else if code == None then CodeUnknown
    else if code.value != Refusal then NotARefusal
    else if canWrite then WriteScope
    else Allowed
  }

  /** What stands in the way of a failover: exactly one thing is named, or nothing. */
  lemma WhyNotFailedOver(code: Option<Code>, producedOutput: bool, canWrite: bool)
    ensures var v := CanFailOver(code, producedOutput, canWrite);
            && (v == Allowed <==> code == Some(Refusal) && !producedOutput && !canWrite)
            && (v == HasOutput <==> producedOutput)
            && (v == CodeUnknown ==> code == None) && (v == NotARefusal ==> code == Some(OtherCode))
            && (v == WriteScope ==> canWrite)
  {
  }

  // ---------------------------------------------------------------- what is kept about rounds

  function Texts(rounds: seq<Round>): T.Text {
    if rounds == [] then [] else Texts(rounds[..|rounds| - 1]) + rounds[|rounds| - 1].text
  }

  /** Rounds that a child really ran, as opposed to those handed on to a standby route. */
  function Kept(rounds: seq<Round>): nat {
    if rounds == [] then 0 else Kept(rounds[..|rounds| - 1]) + if rounds[|rounds| - 1].state == FailedOver then 0 else 1
  }

  /** A round has the number of rounds kept before it, plus one: a retry keeps the number. */
  predicate Numbered(rounds: seq<Round>) {
    forall k :: 0 <= k < |rounds| ==> rounds[k].number == Kept(rounds[..k]) + 1
  }

  predicate Settled(rounds: seq<Round>) {
    forall k :: 0 <= k < |rounds| ==>
      rounds[k].state.Returned? || (rounds[k].state == FailedOver && rounds[k].text == [])
  }

  /** The ticket in use after `moved` failovers. */
  function TicketAt(p: Plan, moved: nat): Ticket
    requires moved <= |p.alternates|
  {
    if moved == 0 then p.first else p.alternates[moved - 1]
  }

  /** The start was made on the ticket then in use, under evidence that had not expired. */
  predicate Authorized(s: Start, p: Plan, moved: nat)
    requires moved <= |p.alternates|
  {
    s.moved <= moved && s.ticket == TicketAt(p, s.moved)
      && (s.ticket.evidence.Some? ==> s.ticket.evidence.value.expiresAt > s.at)
  }

  predicate Honest(i: Option<S.Independence>, c: Choice) {
    i.Some? ==> i.value.independent == (c.provider != i.value.avoided)
  }

  /** The same claim, but perhaps for what it claims. */
  predicate SameClaim(a: Option<S.Independence>, b: Option<S.Independence>) {
    if a.Some? then b.Some? && b.value == a.value.(independent := b.value.independent) else b == None
  }

  predicate Blank(t: T.Text) { T.Trim(t) == [] }

  /** A later round that says nothing, or nothing new. */
  predicate Idle(index: int, visible: T.Text, text: T.Text) {
    index > 0 && (Blank(text) || T.Includes(visible, T.Trim(text)))
  }

  datatype Step = FellOver | Stopped | Continued | Threw

  datatype Reply = Reply(stop: Stop, text: T.Text, code: Option<Code>)

  // ---------------------------------------------------------------- the state of a run

  /** Whether the signal had fired when the state after an answer was recorded, and when the loop
      looked again after the child was disposed. */
  datatype Looks = Looks(atRecord: bool, afterDisposal: bool)

  /** What a run is given up for: an abort, evidence that had expired by then, or text that went beyond
      the limit; or the host, the store or a child that failed it. */
  datatype Trouble = Aborted | Expired(at: nat) | TooMuch(text: T.Text) | NoHost | NotStarted | NotRead | NotSaved
    | NotDisposed

  /** The record and the variables of the loop around it. */
  datatype Run = Run(
    state: RunState, rounds: seq<Round>, visible: T.Text, independence: Option<S.Independence>,
    ticket: Ticket, standby: seq<Ticket>,
    started: seq<Start>,    // children started on the host
    answers: seq<Reply>,    // what was answered in each round that has an answer
    disposed: nat,          // children whose disposal has begun
    live: bool,             // the loop holds a child
    looks: Looks,           // what the signal showed after the newest answer
    trouble: Option<Trouble>) // what was thrown

  function Begun(p: Plan): Run {
    Run(Planned, [], [], p.independence, p.first, p.alternates, [], [], 0, false, Looks(false, false), None)
  }

  function Moved(p: Plan, r: Run): int { |p.alternates| - |r.standby| }

  /** Routes, evidence and children agree. */
  predicate Tickets(p: Plan, standby: seq<Ticket>, ticket: Ticket, started: seq<Start>,
      independence: Option<S.Independence>)
  {
    var moved := |p.alternates| - |standby|;
    && 0 <= moved && standby == p.alternates[moved..] && ticket == TicketAt(p, moved)
    && (forall k :: 0 <= k < |started| ==> Authorized(started[k], p, moved))
    && (moved > 0 || Honest(p.independence, p.first.choice) ==> Honest(independence, ticket.choice))
    && SameClaim(p.independence, independence)
  }

  /** The provider refused up front and the child showed no output. */
  predicate NothingRan(a: Reply) { a.stop == ErrorStop && a.code == Some(Refusal) && Blank(a.text) }

  /** How many standby routes have taken over within these rounds. */
  function Moves(rounds: seq<Round>): int { |rounds| - Kept(rounds) }

  /** What becomes of the round that is answered: exactly if nothing ran, nothing can be written and
      a standby route is left, that takes over. */
  function StateOfAnswer(p: Plan, moved: int, a: Reply): RoundState {
    if NothingRan(a) && p.readOnly && moved < |p.alternates| then FailedOver else Returned(a.stop)
  }

  /** The round shows what was answered; only where that is blank, something else may stand for it,
      and nothing where the round was handed on. */
  predicate Shows(v: Round, a: Reply) {
    if v.state == FailedOver then v.text == [] else Blank(a.text) || v.text == a.text
  }

  predicate Answered(p: Plan, rounds: seq<Round>, answers: seq<Reply>) {
    |answers| <= |rounds| &&
    forall k :: 0 <= k < |answers| ==>
      rounds[k].state == StateOfAnswer(p, Moves(rounds[..k]), answers[k]) && Shows(rounds[k], answers[k])
  }

  /** Every round names the route that it ran on, or is about to run on. */
  predicate Attributed(rounds: seq<Round>, started: seq<Start>, ticket: Ticket) {
    && |started| <= |rounds|
    && forall k :: 0 <= k < |rounds| ==>
         rounds[k].choice == (if k < |started| then started[k].ticket.choice else ticket.choice)
  }

  /** Evidence that had expired, and text that was too much, were just that. */
  predicate TroubleOk(r: Run) {
    match r.trouble
    case Some(Expired(at)) => !Unexpired(r.ticket, at)
    case Some(TooMuch(text)) => |r.visible| + |text| > OUTPUT_LIMIT
    case _ => true
  }

  /** Another round follows round `k` only if a standby route took over, or its answer was cut off by
      the token limit after text that is new, where nothing can be written. */
  predicate LetsGoOn(p: Plan, rounds: seq<Round>, k: nat)
    requires k < |rounds|
  {
    var v := rounds[k];
    || v.state == FailedOver
    || (v.state == Returned(MaxTokens) && p.readOnly && !Blank(v.text)
          && !Idle(v.number - 1, Texts(rounds[..k]), v.text))
  }

  predicate GoneOn(p: Plan, rounds: seq<Round>, n: nat)
    requires n <= |rounds|
  {
    forall k :: 0 <= k < n ==> LetsGoOn(p, rounds, k)
  }

  /** What holds whatever happens. */
  predicate Sound(p: Plan, r: Run) {
    && |r.standby| <= |p.alternates| && Tickets(p, r.standby, r.ticket, r.started, r.independence)
    && |r.visible| <= OUTPUT_LIMIT && Numbered(r.rounds)
    && r.disposed + (if r.live then 1 else 0) == |r.started|
    && Moves(r.rounds) == Moved(p, r) && Answered(p, r.rounds, r.answers)
    && Attributed(r.rounds, r.started, r.ticket) && TroubleOk(r)
    && (r.rounds != [] ==> GoneOn(p, r.rounds, |r.rounds| - 1))
  }

  /** What holds each time round `index + 1` is about to be tried. */
  predicate Ready(p: Plan, r: Run, index: int) {
    && 0 <= index <= p.maxRounds && Sound(p, r) && r.trouble == None && !r.live && Settled(r.rounds)
    && |r.rounds| == |r.started| == |r.answers| == index + Moved(p, r) && Kept(r.rounds) == index
    && r.visible == Texts(r.rounds) && !EndsHere(p, r) && GoneOn(p, r.rounds, |r.rounds|)
    && (!p.readOnly ==> index == 0 && Moved(p, r) == 0)
  }

  /** The visible text is everything the children wrote, but for a last round that made no progress. */
  predicate TextOk(r: Run) {
    r.visible == Texts(r.rounds) ||
    (r.rounds != [] &&
     var last := r.rounds[|r.rounds| - 1];
     r.visible == Texts(r.rounds[..|r.rounds| - 1]) && Idle(last.number - 1, r.visible, last.text))
  }

  /** What is left when a try ends without another one to follow. */
  predicate Over(p: Plan, r: Run, index: int) {
    && 0 <= index < p.maxRounds && Sound(p, r) && TextOk(r)
    && |r.rounds| <= index + Moved(p, r) + 1
    && (!p.readOnly ==> |r.started| <= 1)
  }

  function StateAfter(aborted: bool, noProgress: bool, stop: Stop): RunState {
    if aborted then InterruptedUnknown
    else if noProgress then NoProgress
    else if stop == CompletedStop then Completed
    else if stop == MaxTokens then Partial
    else InterruptedUnknown
  }

  /** The last round is an answer that said nothing, or nothing the rounds before it had not said. */
  predicate IdleLast(r: Run) {
    r.rounds != [] &&
    var n := |r.rounds| - 1;
    r.rounds[n].state.Returned? && Idle(r.rounds[n].number - 1, Texts(r.rounds[..n]), r.rounds[n].text)
  }

  /** The last round is an answer that no other round may follow: the signal had fired by the
      second look, it made no progress, it was not cut off by its token limit, the child may have
      written files, or there was no text or no round left to go on with. */
  predicate EndsHere(p: Plan, r: Run) {
    r.rounds != [] &&
    var last := r.rounds[|r.rounds| - 1];
    && last.state.Returned?
    && (r.looks.afterDisposal || IdleLast(r) || last.state.stop != MaxTokens || !p.readOnly || Blank(last.text)
         || last.number == p.maxRounds)
  }

  /** The state that the last answer and the two looks at the signal account for.  Only the first
      look is recorded: a signal that fires before the second one leaves the state as it is. */
  function StateOf(p: Plan, r: Run): RunState
    requires EndsHere(p, r)
  {
    var recorded := StateAfter(r.looks.atRecord, IdleLast(r), r.rounds[|r.rounds| - 1].state.stop);
    if recorded == Partial && !r.looks.afterDisposal && !p.readOnly then NeedsReconciliation else recorded
  }

  /** The loop ended of itself: no child is held, and either the prompt of a further round was too
      long, or the last answer ended the run, in the state it accounts for, with its text shown
      unless it made no progress. */
  predicate Finished(p: Plan, r: Run) {
    !r.live && r.trouble == None && |r.answers| == |r.rounds| == |r.started| &&
    if r.state == ContextLimit then !EndsHere(p, r)
    else
      && EndsHere(p, r) && r.state == StateOf(p, r) && (r.looks.atRecord ==> r.looks.afterDisposal)
      && r.visible == Texts(if IdleLast(r) then r.rounds[..|r.rounds| - 1] else r.rounds)
  }

  predicate LastStop(r: Run, stop: Stop) { r.rounds != [] && r.rounds[|r.rounds| - 1].state == Returned(stop) }

  /** A child is held for round `index + 1`, and nothing of it is recorded yet. */
  predicate Held(p: Plan, r: Run, index: int, before: seq<Round>) {
    && 0 <= index < p.maxRounds && Sound(p, r) && r.trouble == None && r.live
    && |r.rounds| == |before| + 1 && r.rounds[..|before|] == before
    && r.rounds[|before|].number == index + 1 && r.rounds[|before|].text == []
    && Settled(before) && Numbered(before) && Kept(before) == index && r.visible == Texts(before)
    && GoneOn(p, before, |before|)
    && |r.started| == |r.rounds| == |r.answers| + 1 == index + Moved(p, r) + 1
    && (!p.readOnly ==> index == 0 && Moved(p, r) == 0)
  }

  lemma Push(rounds: seq<Round>, r: Round)
    ensures var all := rounds + [r];
            && all[..|all| - 1] == rounds && Texts(all) == Texts(rounds) + r.text
            && Kept(all) == Kept(rounds) + (if r.state == FailedOver then 0 else 1)
            && (Numbered(rounds) && r.number == Kept(rounds) + 1 ==> Numbered(all))
            && (Settled(rounds) && (r.state.Returned? || (r.state == FailedOver && r.text == [])) ==> Settled(all))
  {
    var all := rounds + [r];
    assert all[..|all| - 1] == rounds;
    forall k | 0 <= k < |rounds| ensures all[..k] == rounds[..k] {
    }
  }

  /** What was answered before a new round is not touched by it, and its own answer adds to that. */
  lemma AnswersStay(p: Plan, before: seq<Round>, answers: seq<Reply>, last: Round)
    requires Answered(p, before, answers)
    ensures Answered(p, before + [last], answers)
    ensures forall a :: |answers| == |before| && last.state == StateOfAnswer(p, Moves(before), a) && Shows(last, a) ==>
              Answered(p, before + [last], answers + [a])
  {
    hide StateOfAnswer, Kept;
    var all := before + [last];
    forall k | 0 <= k <= |before| ensures all[..k] == before[..k] {
    }
    assert before[..|before|] == before;
  }

  lemma GoneOnStays(p: Plan, before: seq<Round>, last: Round)
    requires GoneOn(p, before, |before|)
    ensures var all := before + [last];
            && GoneOn(p, all, |before|)
            && (LetsGoOn(p, all, |before|) ==> GoneOn(p, all, |all|))
  {
    hide Texts, Idle, Blank;
    var all := before + [last];
    forall k | 0 <= k < |before| ensures LetsGoOn(p, all, k) {
      assert all[..k] == before[..k] && LetsGoOn(p, before, k);
    }
  }

  lemma GoneOnBefore(p: Plan, a: seq<Round>, b: seq<Round>, n: nat)
    requires n <= |a| && n <= |b| && a[..n] == b[..n] && GoneOn(p, a, n)
    ensures GoneOn(p, b, n)
  {
    hide Texts, Idle, Blank;
    forall k | 0 <= k < n ensures LetsGoOn(p, b, k) {
      assert LetsGoOn(p, a, k) && a[k] == a[..n][k] && b[k] == b[..n][k];
      assert a[..k] == a[..n][..k] && b[..k] == b[..n][..k];
    }
  }

  lemma AnswersBefore(p: Plan, rounds: seq<Round>, answers: seq<Reply>)
    requires rounds != [] && Answered(p, rounds, answers) && |answers| < |rounds|
    ensures Answered(p, rounds[..|rounds| - 1], answers)
  {
    hide StateOfAnswer, Kept;
    var before := rounds[..|rounds| - 1];
    forall k | 0 <= k < |answers| ensures before[..k] == rounds[..k] {
    }
  }

  function SetLast(rounds: seq<Round>, st: RoundState, text: T.Text): seq<Round>
    requires rounds != []
  {
    var n := |rounds| - 1;
    rounds[..n] + [rounds[n].(state := st, text := text)]
  }

  // ---------------------------------------------------------------- the loop

  /** A call of the host or the store that may fail, or a look at the signal: if it fails, the run
      is given up for that. */
  method Try(p: Plan, r0: Run, index: int, t: Trouble) returns (r: Run, ok: bool)
    requires Over(p, r0, index) && r0.trouble == None && !t.Expired? && !t.TooMuch?
    ensures r == if ok then r0 else r0.(trouble := Some(t))
    ensures Over(p, r, index)
  {
    AnyTrouble(p, r0, index, t);
    ok := *;
    r := if ok then r0 else r0.(trouble := Some(t));
  }

  /** The run is given up for what has been found. */
  method GivenUp(p: Plan, r0: Run, index: int, t: Trouble) returns (r: Run)
    requires Over(p, r0, index) && TroubleOk(r0.(trouble := Some(t)))
    ensures r == r0.(trouble := Some(t)) && Over(p, r, index)
  {
    AnyTrouble(p, r0, index, t);
    r := r0.(trouble := Some(t));
  }

  lemma AnyTrouble(p: Plan, r: Run, index: int, t: Trouble)
    requires Over(p, r, index) && TroubleOk(r.(trouble := Some(t)))
    ensures Over(p, r.(trouble := Some(t)), index)
  {
    hide Texts, Numbered, Idle, Tickets, NothingRan, Answered, Attributed, GoneOn, Moves;
  }

  predicate Unexpired(t: Ticket, now: nat) { t.evidence.Some? ==> t.evidence.value.expiresAt > now }

  lemma OpenedRound(p: Plan, r: Run, index: int, round: Round)
    requires Ready(p, r, index) && index < p.maxRounds && round.number == index + 1 && round.text == []
    requires round.state == Starting && round.choice == r.ticket.choice
    ensures var t := r.(state := Running, rounds := r.rounds + [round]); Over(p, t, index)
    ensures Over(p, r, index) && !r.live && !EndsHere(p, r) && |r.answers| == |r.rounds| == |r.started|
  {
    hide Texts, Kept, Settled, Numbered, Idle, Tickets, StateOfAnswer, EndsHere;
    Push(r.rounds, round);
    AnswersStay(p, r.rounds, r.answers, round);
    GoneOnStays(p, r.rounds, round);
    hide Answered, GoneOn;
    assert r.visible + [] == r.visible;
  }

  /** A prompt that has become too long ends the run between two rounds. */
  lemma TooLongIsFinished(p: Plan, r: Run, index: int)
    requires Over(p, r, index) && !r.live && !EndsHere(p, r) && |r.answers| == |r.rounds| == |r.started|
             && r.trouble == None
    ensures Over(p, r.(state := ContextLimit), index) && Finished(p, r.(state := ContextLimit))
  {
    AnyState(p, r, index, ContextLimit);
    hide Over, Texts, Idle, Blank;
  }

  lemma StartedOk(p: Plan, r: Run, round: Round, index: int, now: nat)
    requires Ready(p, r, index) && index < p.maxRounds && round.number == index + 1 && round.text == []
             && round.state == Starting && round.choice == r.ticket.choice && Unexpired(r.ticket, now)
    ensures var t := r.(state := Running, rounds := r.rounds + [round], live := true,
                        started := r.started + [Start(r.ticket, Moved(p, r), now)]);
            Held(p, t, index, r.rounds)
  {
    hide Texts, Kept, Settled, Numbered, Idle, StateOfAnswer, Tickets, EndsHere, Answered, GoneOn, LetsGoOn;
    OneMoreStart(p, r.standby, r.ticket, r.started, r.independence, now);
    Push(r.rounds, round);
    AnswersStay(p, r.rounds, r.answers, round);
    GoneOnStays(p, r.rounds, round);
    assert (r.rounds + [round])[..|r.rounds|] == r.rounds;
  }

  lemma OneMoreStart(p: Plan, standby: seq<Ticket>, ticket: Ticket, started: seq<Start>,
      independence: Option<S.Independence>, now: nat)
    requires Tickets(p, standby, ticket, started, independence) && Unexpired(ticket, now)
    ensures |standby| <= |p.alternates|
    ensures Tickets(p, standby, ticket, started + [Start(ticket, |p.alternates| - |standby|, now)], independence)
  {
    hide Honest;
  }

  lemma ReadyBounds(p: Plan, r: Run, index: int)
    requires Ready(p, r, index)
    ensures 0 <= index && |r.standby| <= |p.alternates| && r.trouble == None
  {
  }

  /** How the start of a round goes: whether the signal had fired, whether the prompt has become too long,
      when the evidence is looked at first, whether the record can be saved, whether the signal has fired
      since, when the evidence is looked at again, and whether the host starts the child. */
  datatype Opening = Opening(aborted: bool, tooLong: bool, earlier: nat, saved: bool, abortedSince: bool, now: nat,
      starts: bool)

  predicate Opens(t: Ticket, o: Opening) {
    && !o.aborted && !o.tooLong && Unexpired(t, o.earlier) && o.saved && !o.abortedSince && Unexpired(t, o.now)
    && o.starts
  }

  /** The evidence is found to have expired, by the first check or by the second. */
  predicate FoundExpired(t: Ticket, o: Opening) {
    && !o.aborted && !o.tooLong
    && (!Unexpired(t, o.earlier) || (o.saved && !o.abortedSince && !Unexpired(t, o.now)))
  }

  /** What the record shows as the code of a failure. */
  predicate HasExpired(r: Run) { r.trouble.Some? && r.trouble.value.Expired? }

  /** From the top of the loop to a started child; `Continued` means that one is held. */
  method Begin(p: Plan, r0: Run, index: int, o: Opening) returns (r: Run, step: Step)
    requires Ready(p, r0, index) && index < p.maxRounds
    ensures step == Continued <==> Opens(r0.ticket, o)
    ensures step == Stopped <==> !o.aborted && o.tooLong && o.saved
    ensures HasExpired(r) <==> FoundExpired(r0.ticket, o)
    ensures r.standby == r0.standby
    ensures step == Continued ==> Held(p, r, index, r0.rounds) && |r.started| == |r0.started| + 1
    ensures step != Continued ==> Over(p, r, index) && (step == Stopped ==> Finished(p, r)) && step != FellOver
    ensures step != Continued ==> r.started == r0.started && !r.live
    ensures (step == Threw <==> r.trouble.Some?) && r.trouble != Some(NotDisposed)
  {
    hide Ready, Over, Held, Finished, EndsHere;
    ReadyBounds(p, r0, index);
    var round := Round(index + 1, Starting, [], r0.ticket.choice);
    OpenedRound(p, r0, index, round);
    TooLongIsFinished(p, r0, index);
    if o.aborted {
      r := GivenUp(p, r0, index, Aborted);
      return r, Threw;
    }
    if o.tooLong {
      r := r0.(state := ContextLimit);
      if o.saved { return r, Stopped; }
      r := GivenUp(p, r, index, NotSaved);
      return r, Threw;
    }
    if !Unexpired(r0.ticket, o.earlier) {
      r := GivenUp(p, r0, index, Expired(o.earlier));
      return r, Threw;
    }
    r := r0.(state := Running, rounds := r0.rounds + [round]);
    if !o.saved || o.abortedSince {
      r := GivenUp(p, r, index, if o.saved then Aborted else NotSaved);
      return r, Threw;
    }
    if !Unexpired(r.ticket, o.now) {
      r := GivenUp(p, r, index, Expired(o.now));
      return r, Threw;
    }
    if !o.starts {
      r := GivenUp(p, r, index, NotStarted);
      return r, Threw;
    }
    StartedOk(p, r0, round, index, o.now);
    r := r.(started := r.started + [Start(r.ticket, Moved(p, r), o.now)], live := true);
    return r, Continued;
  }

  /** The next standby route takes over, with its own evidence and an honest account of independence. */
  function MoveOn(r: Run, a: Reply): Run
    requires r.standby != []
  {
    var next := r.standby[0];
    r.(standby := r.standby[1..], ticket := next, answers := r.answers + [a],
      rounds := if r.rounds == [] then [] else SetLast(r.rounds, FailedOver, []),
       independence := if r.independence == None then None else
         Some(r.independence.value.(independent := next.choice.provider != r.independence.value.avoided)))
  }

  lemma MoveOnTickets(p: Plan, r: Run, a: Reply)
    requires r.standby != [] && Tickets(p, r.standby, r.ticket, r.started, r.independence)
    ensures var t := MoveOn(r, a);
            && |t.standby| == |r.standby| - 1 && Moved(p, t) == Moved(p, r) + 1
            && Tickets(p, t.standby, t.ticket, t.started, t.independence)
  {
    var t := MoveOn(r, a);
    assert t.standby == p.alternates[Moved(p, t)..];
  }

  lemma MoveOnRounds(r: Run, before: seq<Round>, a: Reply)
    requires |r.rounds| == |before| + 1 == |r.started| && r.rounds[..|before|] == before && r.standby != []
    requires Attributed(r.rounds, r.started, r.ticket)
    ensures var t, last := MoveOn(r, a), r.rounds[|before|].(state := FailedOver, text := []);
            && t.rounds == before + [last] && Attributed(t.rounds, t.started, t.ticket)
  {
    var t, last := MoveOn(r, a), r.rounds[|before|].(state := FailedOver, text := []);
    assert t.rounds == before + [last];
    forall k | 0 <= k < |t.rounds| ensures t.rounds[k].choice == t.started[k].ticket.choice {
      assert t.rounds[k].choice == r.rounds[k].choice;
    }
  }

  lemma MoveOnOver(p: Plan, r: Run, index: int, before: seq<Round>, a: Reply)
    requires Held(p, r, index, before) && p.readOnly && r.standby != [] && NothingRan(a)
    ensures var t := MoveOn(r, a);
            && Over(p, t, index) && Settled(t.rounds) && GoneOn(p, t.rounds, |t.rounds|) && !EndsHere(p, t)
            && Kept(t.rounds) == index && t.visible == Texts(t.rounds)
            && |t.rounds| == |t.started| == |t.answers| == index + Moved(p, t)
            && t.live && t.trouble == None
  {
    hide Texts, Kept, Settled, Numbered, Idle;
    MoveOnTickets(p, r, a);
    MoveOnRounds(r, before, a);
    hide Tickets, Attributed;
    var t := MoveOn(r, a);
    var last := r.rounds[|before|].(state := FailedOver, text := []);
    HeldAnswers(p, r, index, before);
    Push(before, last);
    AnswersStay(p, before, r.answers, last);
    GoneOnStays(p, before, last);
    hide Answered, GoneOn;
  }

  lemma MoveOnOk(p: Plan, r: Run, index: int, before: seq<Round>, a: Reply)
    requires Held(p, r, index, before) && p.readOnly && r.standby != [] && NothingRan(a)
    ensures var t := MoveOn(r, a); Over(p, t, index) && Ready(p, t.(live := false, disposed := t.disposed + 1), index)
  {
    hide Held, MoveOn, Texts, Kept, Settled, Numbered, Idle, Tickets, Attributed, Answered, GoneOn, NothingRan;
    MoveOnOver(p, r, index, before, a);
  }

  lemma HeldAnswers(p: Plan, r: Run, index: int, before: seq<Round>)
    requires Held(p, r, index, before)
    ensures Answered(p, before, r.answers) && |r.answers| == |before| && Moves(before) == Moved(p, r)
  {
    hide Texts, Settled, Numbered, Tickets, StateOfAnswer;
    AnswersBefore(p, r.rounds, r.answers);
    hide Answered, Kept;
  }

  lemma HeldIsOver(p: Plan, r: Run, index: int, before: seq<Round>)
    requires Held(p, r, index, before)
    ensures Over(p, r, index) && 0 <= index < p.maxRounds
    ensures r.rounds != [] && r.rounds[|r.rounds| - 1].number == index + 1
  {
    hide Texts, Kept, Settled, Numbered, Idle, Tickets, NothingRan;
    var last := r.rounds[|before|];
    assert r.rounds == before + [last];
    Push(before, last);
    assert Texts(before) + [] == Texts(before);
    assert TextOk(r);
  }

  lemma TakenAnswer(p: Plan, r: Run, index: int, before: seq<Round>, last: Round, reply: Reply)
    requires Held(p, r, index, before) && StateOfAnswer(p, Moved(p, r), reply) == Returned(reply.stop)
    requires last.state == Returned(reply.stop) && Shows(last, reply)
    ensures Answered(p, before + [last], r.answers + [reply]) && Moves(before + [last]) == Moved(p, r)
  {
    HeldAnswers(p, r, index, before);
    hide Held, Kept, Answered, StateOfAnswer;
    Push(before, last);
    AnswersStay(p, before, r.answers, last);
  }

  /** A child's answer is taken into the record. */
  lemma TakeOk(p: Plan, r: Run, index: int, before: seq<Round>, t: Run, reply: Reply, text: T.Text)
    requires Held(p, r, index, before) && StateOfAnswer(p, Moved(p, r), reply) == Returned(reply.stop)
    requires t.rounds == SetLast(r.rounds, Returned(reply.stop), text) && |r.visible| + |text| <= OUTPUT_LIMIT
    requires t.answers == r.answers + [reply] && (Blank(reply.text) || text == reply.text)
    requires t.visible == if Idle(index, r.visible, text) then r.visible else r.visible + text
    requires t == r.(state := t.state, rounds := t.rounds, visible := t.visible, answers := t.answers, looks := t.looks)
    ensures Over(p, t, index) && Settled(t.rounds) && Kept(t.rounds) == index + 1
    ensures !Idle(index, r.visible, text) ==> t.visible == Texts(t.rounds)
    ensures Idle(index, r.visible, text) <==> IdleLast(t)
    ensures IdleLast(t) ==> t.visible == Texts(t.rounds[..|t.rounds| - 1])
    ensures LastStop(t, reply.stop)
    ensures t.rounds[|t.rounds| - 1].number == index + 1 && t.rounds[|t.rounds| - 1].text == text
    ensures t.live && t.trouble == None && |t.rounds| == |t.started| == |t.answers| == index + Moved(p, t) + 1
  {
    hide Texts, Kept, Settled, Numbered, Idle, Tickets, StateOfAnswer, Answered, Moves;
    var last := r.rounds[|before|].(state := Returned(reply.stop), text := text);
    assert t.rounds == before + [last];
    TakenAnswer(p, r, index, before, last, reply);
    Push(before, last);
    GoneOnStays(p, before, last);
    hide SetLast, GoneOn;
    assert last == t.rounds[|t.rounds| - 1] && before == t.rounds[..|t.rounds| - 1];
    assert TextOk(t);
  }

  /** The child of a taken answer is disposed, and the signal is looked at again: the next round
      may follow unless the answer ends the run. */
  lemma ClosedOk(p: Plan, t: Run, index: int, fired: bool)
    requires Over(p, t, index) && t.live && t.trouble == None && Settled(t.rounds) && Kept(t.rounds) == index + 1
    requires |t.rounds| == |t.started| == |t.answers| == index + Moved(p, t) + 1
             && t.rounds[|t.rounds| - 1].state.Returned?
    ensures var u := t.(live := false, disposed := t.disposed + 1);
            && Over(p, u, index)
            && var w := u.(looks := u.looks.(afterDisposal := fired));
               && Over(p, w, index) && (IdleLast(w) <==> IdleLast(t))
               && (!EndsHere(p, w) && w.visible == Texts(w.rounds) ==> Ready(p, w, index + 1))
  {
    hide Texts, Kept, Settled, Numbered, Idle, Tickets, NothingRan;
  }

  lemma AnyState(p: Plan, r: Run, index: int, st: RunState)
    requires Over(p, r, index)
    ensures Over(p, r.(state := st), index)
  {
    hide Texts, Numbered, Idle, Tickets, NothingRan;
  }

  /** An answer that ends the run leaves the state it accounts for. */
  lemma EndsWell(p: Plan, r: Run)
    requires !r.live && r.trouble == None && |r.answers| == |r.rounds| == |r.started|
    requires EndsHere(p, r) && r.state == StateOf(p, r) && (r.looks.atRecord ==> r.looks.afterDisposal)
    requires r.visible == Texts(if IdleLast(r) then r.rounds[..|r.rounds| - 1] else r.rounds)
    ensures Finished(p, r)
  {
    hide Texts, Idle, Blank, EndsHere, IdleLast;
  }

  /** Whether another round follows a disposed child.  The state was recorded before, so a signal
      that has fired since ends the loop and leaves it. */
  method Conclude(p: Plan, r0: Run, index: int, stop: Stop, text: T.Text, noProgress: bool, saved: bool)
    returns (r: Run, step: Step)
    requires 0 <= index < p.maxRounds && Over(p, r0, index) && !r0.live && |r0.answers| == |r0.rounds| == |r0.started|
    requires r0.state == StateAfter(r0.looks.atRecord, noProgress, stop)
             && (r0.looks.atRecord ==> r0.looks.afterDisposal)
    requires r0.trouble == None && LastStop(r0, stop) && r0.rounds[|r0.rounds| - 1].number == index + 1
             && r0.rounds[|r0.rounds| - 1].text == text
    requires noProgress == IdleLast(r0)
    requires r0.visible == Texts(if noProgress then r0.rounds[..|r0.rounds| - 1] else r0.rounds)
    requires !EndsHere(p, r0) && r0.visible == Texts(r0.rounds) ==> Ready(p, r0, index + 1)
    ensures r.standby == r0.standby && step != FellOver
    ensures step == Continued ==> Ready(p, r, index + 1) && index + 1 < p.maxRounds
    ensures step != Continued ==> Over(p, r, index) && (step == Stopped ==> Finished(p, r))
    ensures r.started == r0.started && r.answers == r0.answers && !r.live && r.looks == r0.looks
    ensures r.rounds == r0.rounds
    ensures step == Threw <==> r.trouble.Some?
    ensures !HasExpired(r)
    ensures step == Threw <==>
              !r0.looks.afterDisposal && !noProgress && stop == MaxTokens && !p.readOnly && !saved
  {
    hide Texts, Idle, Blank, Over, Ready, Finished, IdleLast;
    r := r0;
    if r.looks.afterDisposal || noProgress || stop != MaxTokens {
      EndsWell(p, r);
      return r, Stopped;
    }
    if !p.readOnly {
      AnyState(p, r, index, NeedsReconciliation);
      SameLast(p, r, NeedsReconciliation);
      r := r.(state := NeedsReconciliation);
      EndsWell(p, r);
      if saved { return r, Stopped; }
      r := GivenUp(p, r, index, NotSaved);
      return r, Threw;
    }
    if Blank(text) || index + 1 == p.maxRounds {
      EndsWell(p, r);
      return r, Stopped;
    }
    return r, Continued;
  }

  lemma SameLast(p: Plan, r: Run, st: RunState)
    ensures IdleLast(r.(state := st)) <==> IdleLast(r)
    ensures EndsHere(p, r.(state := st)) <==> EndsHere(p, r)
  {
    hide Texts, Idle, Blank;
  }

  /** How the answer of a child is taken: what stands for a blank one, whether the signal has fired when
      the record is made, whether that can be saved, whether the signal fires before the second look,
      whether the child can be disposed, and whether one more record can be saved. */
  datatype Taking = Taking(rendered: T.Text, aborted: bool, saved: bool, fired: bool, closed: bool, savedAgain: bool)

  /** An answer given only through the structured channel is rendered as text. */
  function TextOf(reply: Reply, k: Taking): T.Text { if Blank(reply.text) then k.rendered else reply.text }

  /** The answer is taken to its end: it fits, is saved, and its child is disposed; and where files may
      have been written by one that was cut off, that is saved, too. */
  predicate Taken(p: Plan, r: Run, index: int, reply: Reply, k: Taking) {
    && |r.visible| + |TextOf(reply, k)| <= OUTPUT_LIMIT && k.saved && k.closed
    && (p.readOnly || k.savedAgain || k.aborted || k.fired || reply.stop != MaxTokens
         || Idle(index, r.visible, TextOf(reply, k)))
  }

  /** The result of a child that was not replaced, up to its disposal. */
  method Take(p: Plan, r0: Run, index: int, reply: Reply, k: Taking, ghost before: seq<Round>)
    returns (r: Run, step: Step)
    requires Held(p, r0, index, before) && StateOfAnswer(p, Moved(p, r0), reply) == Returned(reply.stop)
    ensures r.standby == r0.standby && step != FellOver
    ensures step != Threw ==> r.answers == r0.answers + [reply]
    ensures step == Continued ==> Ready(p, r, index + 1) && index + 1 < p.maxRounds
    ensures step != Continued ==> Over(p, r, index) && (step == Stopped ==> Finished(p, r))
    ensures r.started == r0.started && (step != Threw ==> !r.live)
    ensures (step == Threw <==> r.trouble.Some?) && (step == Threw <==> !Taken(p, r0, index, reply, k))
    ensures !HasExpired(r)
    ensures step != Threw ==>
              && r.looks == Looks(k.aborted, k.aborted || k.fired)
              && r.rounds != [] && r.rounds[|r.rounds| - 1].text == TextOf(reply, k)
  {
    hide Texts, Kept, Settled, Idle, Blank, Over, Ready, Finished, EndsHere, IdleLast, Held, Sound, StateOfAnswer,
      SetLast, Moved, StateAfter;
    HeldIsOver(p, r0, index, before);
    var text := TextOf(reply, k);
    if |r0.visible| + |text| > OUTPUT_LIMIT {
      r := GivenUp(p, r0, index, TooMuch(text));
      return r, Threw;
    }
    var noProgress := Idle(index, r0.visible, text);
    r := r0.(rounds := SetLast(r0.rounds, Returned(reply.stop), text),
      visible := if noProgress then r0.visible else r0.visible + text, answers := r0.answers + [reply],
      state := StateAfter(k.aborted, noProgress, reply.stop), looks := Looks(k.aborted, false));
    TakeOk(p, r0, index, before, r, reply, text);
    if !k.saved {
      r := GivenUp(p, r, index, NotSaved);
      return r, Threw;
    }
    // The signal may fire while the record is saved and the child disposed.
    var fired := k.aborted || k.fired;
    ClosedOk(p, r, index, fired);
    r := r.(live := false, disposed := r.disposed + 1);
    if !k.closed {
      r := GivenUp(p, r, index, NotDisposed);
      return r, Threw;
    }
    r := r.(looks := r.looks.(afterDisposal := fired));
    r, step := Conclude(p, r, index, reply.stop, text, noProgress, k.savedAgain);
  }

  /** The started child is noted in the record before its result is waited for. */
  method NoteChild(p: Plan, r0: Run, index: int, ghost before: seq<Round>) returns (r: Run, saved: bool)
    requires Held(p, r0, index, before)
    ensures saved ==> Held(p, r, index, before)
    ensures Over(p, r, index) && r.trouble == if saved then None else Some(NotSaved)
    ensures r.started == r0.started && r.standby == r0.standby && r.live
  {
    hide Held, Over;
    HeldFacts(p, r0, index, before);
    r := r0.(rounds := SetLast(r0.rounds, Streaming, []));
    r, saved := Try(p, r, index, NotSaved);
  }

  /** The answer of a held child: the next standby route takes over, or the answer is taken. */
  method Answer(p: Plan, r0: Run, index: int, answer: Option<Reply>, k: Taking, ghost before: seq<Round>)
    returns (r: Run, step: Step)
    requires Held(p, r0, index, before) && Over(p, r0, index) && index < p.maxRounds
    ensures step != Threw ==>
              && answer.Some? && r.answers == r0.answers + [answer.value]
              && (step == FellOver <==> NothingRan(answer.value) && p.readOnly && r0.standby != [])
    ensures step == Threw <==>
              || answer == None
              || if NothingRan(answer.value) && p.readOnly && r0.standby != [] then !k.saved || !k.closed
                 else !Taken(p, r0, index, answer.value, k)
    ensures step == FellOver ==> Ready(p, r, index) && |r.standby| < |r0.standby|
    ensures step == Continued ==> Ready(p, r, index + 1) && r.standby == r0.standby && index + 1 < p.maxRounds
    ensures step == Stopped || step == Threw ==> Over(p, r, index) && (step == Stopped ==> Finished(p, r))
    ensures r.started == r0.started && (step != Threw ==> !r.live)
    ensures (step == Threw <==> r.trouble.Some?) && !HasExpired(r)
  {
    hide Ready, Held, Over, Finished;
    HeldFacts(p, r0, index, before);
    if answer == None {
      r := GivenUp(p, r0, index, NotRead);
      return r, Threw;
    }
    var reply := answer.value;
    if reply.stop == ErrorStop && r0.standby != []
      && CanFailOver(reply.code, !Blank(reply.text), !p.readOnly) == Allowed {
      MoveOnOk(p, r0, index, before, reply);
      r := MoveOn(r0, reply);
      if !k.saved {
        r := GivenUp(p, r, index, NotSaved);
        return r, Threw;
      }
      r := r.(live := false, disposed := r.disposed + 1);
      if k.closed { return r, FellOver; }
      ReadyIsOver(p, r, index);
      r := GivenUp(p, r, index, NotDisposed);
      return r, Threw;
    }
    HeldAnswers(p, r0, index, before);
    r, step := Take(p, r0, index, reply, k, before);
  }

  lemma HeldFacts(p: Plan, r: Run, index: int, before: seq<Round>)
    requires Held(p, r, index, before)
    ensures r.rounds != [] && r.live && r.trouble == None
    ensures var t := r.(rounds := SetLast(r.rounds, Streaming, [])); Held(p, t, index, before) && Over(p, t, index)
  {
    hide Texts, Kept, Settled, Numbered, Idle, Tickets;
    var t := r.(rounds := SetLast(r.rounds, Streaming, []));
    assert t.rounds == before + [t.rounds[|before|]];
    HeldAnswers(p, r, index, before);
    Push(before, t.rounds[|before|]);
    AnswersStay(p, before, r.answers, t.rounds[|before|]);
    GoneOnStays(p, before, t.rounds[|before|]);
    hide Answered, GoneOn;
    assert t.rounds[..|before|] == before;
  }

  lemma ReadyIsOver(p: Plan, r: Run, index: int)
    requires Ready(p, r, index) && index < p.maxRounds
    ensures Over(p, r, index)
  {
  }

  /** A round left open by whatever was thrown is marked as interrupted. */
  function Interrupt(rounds: seq<Round>): seq<Round> {
    var n := |rounds|;
    if n > 0 && (rounds[n - 1].state == Starting || rounds[n - 1].state == Streaming)
    then SetLast(rounds, Interrupted, rounds[n - 1].text) else rounds
  }

  /** The end of a run that threw; a child still held is disposed. */
  function Broken(r: Run): Run {
    r.(state := InterruptedUnknown, rounds := Interrupt(r.rounds),
       live := false, disposed := if r.live then r.disposed + 1 else r.disposed)
  }

  lemma BrokenOk(p: Plan, r: Run, index: int)
    requires Over(p, r, index)
    ensures Over(p, Broken(r), index) && !Broken(r).live && Broken(r).state == InterruptedUnknown
    ensures Broken(r).trouble == r.trouble
  {
    hide Tickets, Answered, Kept, Texts, Numbered, Idle, Interrupt, GoneOn, Attributed;
    InterruptOk(r.rounds);
    if r.rounds != [] { GoneOnBefore(p, r.rounds, Interrupt(r.rounds), |r.rounds| - 1); }
  }

  lemma InterruptOk(rounds: seq<Round>)
    requires Numbered(rounds)
    ensures var t := Interrupt(rounds);
            && |t| == |rounds| && Numbered(t) && Texts(t) == Texts(rounds) && Kept(t) == Kept(rounds)
            && (forall p, answers :: Answered(p, rounds, answers) ==> Answered(p, t, answers))
            && (rounds != [] ==>
                  var n := |rounds| - 1;
                  && t[..n] == rounds[..n] && t[n].number == rounds[n].number && t[n].text == rounds[n].text
                  && t[n].choice == rounds[n].choice)
            && forall started, ticket :: Attributed(rounds, started, ticket) ==> Attributed(t, started, ticket)
    ensures var t := Interrupt(rounds); t != [] ==> !t[|t| - 1].state.Starting? && !t[|t| - 1].state.Streaming?
  {
    hide Texts, Numbered, Kept;
    if rounds != [] {
      var n := |rounds| - 1;
      LastChanged(rounds, Interrupted);
      var t := SetLast(rounds, Interrupted, rounds[n].text);
      InterruptAnswered(rounds);
      assert t[..n] == rounds[..n] && t[n].number == rounds[n].number && t[n].text == rounds[n].text;
      hide SetLast;
    }
  }

  /** An open round has no answer yet, so nothing answered is touched. */
  lemma InterruptAnswered(rounds: seq<Round>)
    requires rounds != []
    ensures forall p, answers :: Answered(p, rounds, answers) ==> Answered(p, Interrupt(rounds), answers)
  {
    hide Kept;
    var n := |rounds| - 1;
    if rounds[n].state == Starting || rounds[n].state == Streaming {
      var t := SetLast(rounds, Interrupted, rounds[n].text);
      forall p, answers | Answered(p, rounds, answers) ensures Answered(p, t, answers) {
        AnswersOfOpen(p, rounds, answers);
        AnswersBefore(p, rounds, answers);
        hide Answered;
        AnswersStay(p, rounds[..n], answers, t[n]);
        assert t == rounds[..n] + [t[n]];
      }
    }
  }

  lemma AnswersOfOpen(p: Plan, rounds: seq<Round>, answers: seq<Reply>)
    requires rounds != [] && Answered(p, rounds, answers)
    requires rounds[|rounds| - 1].state == Starting || rounds[|rounds| - 1].state == Streaming
    ensures |answers| < |rounds|
  {
  }

  lemma LastChanged(rounds: seq<Round>, st: RoundState)
    requires rounds != [] && Numbered(rounds)
    ensures var t := SetLast(rounds, st, rounds[|rounds| - 1].text);
            && Numbered(t) && Texts(t) == Texts(rounds)
            && (st != FailedOver && rounds[|rounds| - 1].state != FailedOver ==> Kept(t) == Kept(rounds))
  {
    var n := |rounds| - 1;
    var before, t := rounds[..n], SetLast(rounds, st, rounds[n].text);
    assert rounds == before + [rounds[n]] && t == before + [t[n]];
    NumberedPrefix(rounds);
    hide Texts, Kept, Numbered;
    Push(before, rounds[n]);
    Push(before, t[n]);
  }

  lemma NumberedPrefix(rounds: seq<Round>)
    requires rounds != [] && Numbered(rounds)
    ensures var n := |rounds| - 1; Numbered(rounds[..n]) && rounds[n].number == Kept(rounds[..n]) + 1
  {
    var n := |rounds| - 1;
    forall k | 0 <= k < n ensures rounds[..n][..k] == rounds[..k] {
    }
  }

  /** Everything a caller can rely on when the run has ended, of itself or by something thrown. */
  predicate Outcome(p: Plan, r: Run, threw: bool) {
    && |r.started| <= p.maxRounds + |p.alternates|
    && (!p.readOnly ==> |r.started| <= 1)
    && Sound(p, r) && TextOk(r) && !r.live
    && (if threw then r.state == InterruptedUnknown && r.trouble.Some? else Finished(p, r))
  }

  lemma BegunOk(p: Plan)
    ensures Ready(p, Begun(p), 0)
  {
    assert Texts([]) == [] && Kept([]) == 0 && Numbered([]) && Settled([]);
    hide Texts, Kept, Numbered, Settled, Honest, NothingRan;
    assert p.alternates[0..] == p.alternates;
    assert Tickets(p, p.alternates, p.first, [], p.independence);
    hide Tickets;
  }

  lemma OutcomeOk(p: Plan, r: Run, index: int, threw: bool)
    requires Over(p, r, index) && !r.live
    requires if threw then r.state == InterruptedUnknown && r.trouble.Some? else Finished(p, r)
    ensures Outcome(p, r, threw)
  {
    hide Tickets, TextOk, Numbered, EndsHere;
  }

  // ---------------------------------------------------------------- what an outcome says

  /** Every child was started on the ticket in use after some number of failovers, under
      evidence that had not expired (or with none recorded), and each was disposed once. */
  lemma StartsWereAuthorized(p: Plan, r: Run, threw: bool, k: nat)
    requires Outcome(p, r, threw) && k < |r.started|
    ensures var s := r.started[k];
            && s.moved <= |p.alternates| && s.ticket == TicketAt(p, s.moved)
            && (s.ticket.evidence.Some? ==> s.ticket.evidence.value.expiresAt > s.at)
    ensures r.disposed == |r.started|
  {
    assert Authorized(r.started[k], p, Moved(p, r));
  }

  /** Every round that a child was started for names the route of that child, and shows what the child
      answered, unless that was blank, or nothing if it was handed on. */
  lemma RoundsAreTrue(p: Plan, r: Run, threw: bool, k: nat)
    requires Outcome(p, r, threw) && k < |r.started|
    ensures k < |r.rounds| && r.rounds[k].choice == TicketAt(p, r.started[k].moved).choice
    ensures k < |r.answers| ==>
              if r.rounds[k].state == FailedOver then r.rounds[k].text == []
              else T.Trim(r.answers[k].text) == [] || r.rounds[k].text == r.answers[k].text
  {
    hide T.Trim, Texts, Kept, GoneOn, Finished, TextOk, Numbered, StateOfAnswer;
    StartsWereAuthorized(p, r, threw, k);
    hide Tickets;
    if k < |r.answers| { assert Shows(r.rounds[k], r.answers[k]); }
  }

  /** A run is thrown exactly if it was given up for something, and evidence that had expired by then,
      or text that was too much, were just that. */
  lemma GivenUpFor(p: Plan, r: Run, threw: bool)
    requires Outcome(p, r, threw)
    ensures threw <==> r.trouble.Some?
    ensures r.trouble.Some? && r.trouble.value.Expired? ==>
              r.ticket.evidence.Some? && r.ticket.evidence.value.expiresAt <= r.trouble.value.at
    ensures r.trouble.Some? && r.trouble.value.TooMuch? ==> |r.visible| + |r.trouble.value.text| > 262144
  {
    hide Texts, Kept, GoneOn, TextOk, Numbered, Tickets, Answered;
  }

  /** If the selection's claim was honest, or the run moved at least once, the recorded claim
      is exactly whether the current provider differs from the avoided one. */
  lemma IndependenceStaysHonest(p: Plan, r: Run, threw: bool)
    requires Outcome(p, r, threw) && r.independence.Some?
    requires Honest(p.independence, p.first.choice) || Moved(p, r) > 0
    ensures r.independence.value.independent <==> r.ticket.choice.provider != r.independence.value.avoided
  {
  }

  /** Failover, round by round, whether the run ended of itself or not: a standby route takes over
      exactly if the provider refused, nothing was shown, nothing can be written, and fewer standby
      routes have taken over before than there are. */
  lemma FailsOverExactly(p: Plan, r: Run, threw: bool, k: nat)
    requires Outcome(p, r, threw) && k < |r.answers|
    ensures k < |r.rounds|
    ensures var a := r.answers[k];
            r.rounds[k].state == FailedOver <==>
              && a.stop == ErrorStop && a.code == Some(Refusal) && T.Trim(a.text) == [] && p.readOnly
              && k - Kept(r.rounds[..k]) < |p.alternates|
    ensures r.rounds[k].state == FailedOver || r.rounds[k].state == Returned(r.answers[k].stop)
  {
    hide T.Trim, Kept, Texts, Tickets, Numbered, GoneOn, Finished, TextOk;
    assert r.rounds[k].state == StateOfAnswer(p, Moves(r.rounds[..k]), r.answers[k]);
  }

  /** A run does not end of itself on a refusal that a standby route is left for. */
  lemma NoStandbyIsLeft(p: Plan, r: Run)
    requires Outcome(p, r, false) && r.state != ContextLimit
    ensures r.rounds != [] && |r.answers| == |r.rounds| == |r.started|
    ensures p.readOnly && NothingRan(r.answers[|r.answers| - 1]) ==> r.standby == []
  {
    var n := |r.rounds| - 1;
    FailsOverExactly(p, r, false, n);
    hide NothingRan, Tickets, Texts, Numbered, GoneOn, TextOk;
    assert r.rounds[n].state == StateOfAnswer(p, Moves(r.rounds[..n]), r.answers[n]);
  }

  /** If every answer was such a refusal, every standby route was tried. */
  lemma EveryStandbyIsTried(p: Plan, r: Run)
    requires Outcome(p, r, false) && r.state != ContextLimit && p.readOnly
    requires forall k :: 0 <= k < |r.answers| ==> NothingRan(r.answers[k])
    ensures r.standby == [] && |r.started| == 1 + |p.alternates|
  {
    NoStandbyIsLeft(p, r);
    var n := |r.rounds| - 1;
    hide Outcome, EndsHere, TextOk;
    OneKept(p, r);
    hide Kept, Tickets, Texts, Numbered, Answered, GoneOn;
  }

  lemma OneKept(p: Plan, r: Run)
    requires Outcome(p, r, false) && r.state != ContextLimit && r.rounds != [] && |r.answers| == |r.rounds|
    requires forall k :: 0 <= k < |r.answers| ==> NothingRan(r.answers[k])
    ensures Kept(r.rounds) == 1 && Moves(r.rounds) == Moved(p, r) && |r.rounds| == |r.started|
  {
    var n := |r.rounds| - 1;
    hide Tickets, Texts, Numbered, TextOk, Idle, Blank, Kept;
    forall k | 0 <= k < n ensures r.rounds[k].state == FailedOver {
      assert LetsGoOn(p, r.rounds, k);
      assert r.rounds[k].state == StateOfAnswer(p, Moves(r.rounds[..k]), r.answers[k]);
      assert r.answers[k].stop == ErrorStop;
    }
    hide Outcome, Answered, GoneOn;
    NoneKept(r.rounds[..n]);
    Push(r.rounds[..n], r.rounds[n]);
    assert r.rounds == r.rounds[..n] + [r.rounds[n]];
  }

  lemma {:induction false} NoneKept(rounds: seq<Round>)
    requires forall k :: 0 <= k < |rounds| ==> rounds[k].state == FailedOver
    ensures Kept(rounds) == 0
  {
    if rounds == [] {
    } else {
      NoneKept(rounds[..|rounds| - 1]);
    }
  }

  // ---------------------------------------------------------------- how a run ends

  function PartsOf(rounds: seq<Round>): (t: seq<T.Text>)
    ensures |t| == |rounds| && forall i :: 0 <= i < |t| ==> t[i] == rounds[i].text
  {
    seq(|rounds|, i requires 0 <= i < |rounds| => rounds[i].text)
  }

  /** A later round whose text is blank, or can be read in the texts before it. */
  ghost predicate AddsNothing(rounds: seq<Round>, k: nat)
    requires k < |rounds|
  {
    rounds[k].number > 1 && !T.IsNew(PartsOf(rounds[..k]), rounds[k].text)
  }

  lemma NothingInParts()
    ensures forall p, u :: !T.UnitAt([], p, u)
  {
  }

  lemma {:induction false} TextsAreJoined(rounds: seq<Round>)
    ensures |Texts(rounds)| == T.Length(PartsOf(rounds))
    ensures forall p, u :: T.UnitAt(PartsOf(rounds), p, u) <==> 0 <= p < |Texts(rounds)| && Texts(rounds)[p] == u
  {
    hide T.UnitAt;
    if rounds == [] {
      NothingInParts();
    } else {
      var n := |rounds| - 1;
      TextsAreJoined(rounds[..n]);
      assert PartsOf(rounds) == PartsOf(rounds[..n]) + [rounds[n].text];
      forall p, u
        ensures T.UnitAt(PartsOf(rounds), p, u) <==> 0 <= p < |Texts(rounds)| && Texts(rounds)[p] == u {
        T.UnitOfJoin(PartsOf(rounds[..n]), Texts(rounds[..n]), rounds[n].text, p, u);
      }
    }
  }

  lemma IdleAddsNothing(rounds: seq<Round>, k: nat)
    requires k < |rounds|
    ensures Idle(rounds[k].number - 1, Texts(rounds[..k]), rounds[k].text) <==> AddsNothing(rounds, k)
  {
    hide Texts, PartsOf, T.Trim, T.UnitAt;
    TextsAreJoined(rounds[..k]);
    if T.Trim(rounds[k].text) != [] {
      T.IncludesIsShown(PartsOf(rounds[..k]), Texts(rounds[..k]), T.Trim(rounds[k].text));
    }
  }

  /** Why there was another round: every round but the last was handed on to a standby route, or cut
      off by its token limit, where nothing can be written, after text that can be read nowhere in
      the texts before it. */
  lemma GoesOnOnly(p: Plan, r: Run, threw: bool, k: nat)
    requires Outcome(p, r, threw) && k + 1 < |r.rounds| && r.rounds[k].state != FailedOver
    ensures r.rounds[k].state == Returned(MaxTokens) && p.readOnly && T.Trim(r.rounds[k].text) != []
    ensures !AddsNothing(r.rounds, k)
  {
    IdleAddsNothing(r.rounds, k);
    hide T.Trim, Idle, AddsNothing, Texts, Tickets, Numbered, Answered, TextOk, Finished;
    assert LetsGoOn(p, r.rounds, k);
  }

  lemma IdleLastAddsNothing(r: Run)
    ensures IdleLast(r) <==>
              r.rounds != [] && r.rounds[|r.rounds| - 1].state.Returned? && AddsNothing(r.rounds, |r.rounds| - 1)
  {
    hide Idle, AddsNothing, Texts;
    if r.rounds != [] { IdleAddsNothing(r.rounds, |r.rounds| - 1); }
  }

  /** When a run ends as partial: exactly if its last answer was cut off by its token limit after
      new text, the signal had not fired when that was recorded, and either it had fired when the
      child was disposed, or the run is read-only and had no text or no round to go on with. */
  lemma PartialExactly(p: Plan, r: Run)
    requires Outcome(p, r, false)
    ensures r.state == Partial <==>
              && LastStop(r, MaxTokens) && !AddsNothing(r.rounds, |r.rounds| - 1) && !r.looks.atRecord
              && var last := r.rounds[|r.rounds| - 1];
                 (r.looks.afterDisposal || (p.readOnly && (T.Trim(last.text) == [] || last.number == p.maxRounds)))
    ensures r.state == NeedsReconciliation <==>
              && LastStop(r, MaxTokens) && !AddsNothing(r.rounds, |r.rounds| - 1) && !r.looks.afterDisposal
              && !p.readOnly
  {
    IdleLastAddsNothing(r);
    hide Sound, TextOk, Texts, IdleLast, AddsNothing, T.Trim;
  }

  /** The other ends: completed by an answer that says so, without progress by one that adds
      nothing, and never as planned or running. */
  lemma EndsExactly(p: Plan, r: Run)
    requires Outcome(p, r, false)
    ensures r.state == Completed <==>
              LastStop(r, CompletedStop) && !AddsNothing(r.rounds, |r.rounds| - 1) && !r.looks.atRecord
    ensures r.state == NoProgress <==>
              && r.rounds != [] && r.rounds[|r.rounds| - 1].state.Returned?
              && AddsNothing(r.rounds, |r.rounds| - 1) && !r.looks.atRecord
    ensures r.state == ContextLimit <==> !EndsHere(p, r)
    ensures r.state != Planned && r.state != Running
  {
    IdleLastAddsNothing(r);
    hide Sound, TextOk, Texts, IdleLast, AddsNothing, T.Trim;
  }

  /** What is recorded of a first answer, cut off after the text "a". */
  function CutOff(ticket: Ticket, at: nat, looks: Looks): Run {
    Run(Partial, [Round(1, Returned(MaxTokens), T.Units("a"), ticket.choice)], T.Units("a"), None, ticket, [],
        [Start(ticket, 0, at)], [Reply(MaxTokens, T.Units("a"), None)], 1, false, looks, None)
  }

  lemma CutOffIsSound(ticket: Ticket, readOnly: bool, at: nat, looks: Looks)
    requires Unexpired(ticket, at)
    ensures Sound(Plan(ticket, [], 3, readOnly, None), CutOff(ticket, at, looks))
  {
    hide Texts, T.Units, Idle, Tickets, Numbered, Settled, EndsHere, Honest;
    var p := Plan(ticket, [], 3, readOnly, None);
    var round := Round(1, Returned(MaxTokens), T.Units("a"), ticket.choice);
    BegunOk(p);
    OneMoreStart(p, [], ticket, [], None, at);
    Push([], round);
    assert [] + [round] == [round] && [] + [Start(ticket, 0, at)] == [Start(ticket, 0, at)];
  }

  lemma CutOffShows(ticket: Ticket, at: nat, looks: Looks)
    ensures var r := CutOff(ticket, at, looks);
            && Texts(r.rounds) == r.visible && !IdleLast(r) && LastStop(r, MaxTokens)
            && !Blank(T.Units("a")) && r.rounds[0].number == 1
  {
    var r := CutOff(ticket, at, looks);
    assert r.rounds[..0] == [] && Texts([]) == [];
    assert T.Units("a")[0] == 97;
  }

  /** A child cut off after new text in the first of three rounds, or where files may be written,
      with a signal that fires while the child is disposed: the run ends as partial all the same. */
  lemma LateSignalEndsPartial(ticket: Ticket, readOnly: bool, at: nat)
    requires Unexpired(ticket, at)
    ensures Outcome(Plan(ticket, [], 3, readOnly, None), CutOff(ticket, at, Looks(false, true)), false)
    ensures CutOff(ticket, at, Looks(false, true)).state == Partial
  {
    hide Texts, T.Units, Idle, Blank, Sound, IdleLast;
    CutOffIsSound(ticket, readOnly, at, Looks(false, true));
    CutOffShows(ticket, at, Looks(false, true));
  }

  // ---------------------------------------------------------------- from selection through failover

  function TicketOf(e: S.Entry): Ticket {
    Ticket(Choice(R.ProviderOf(e.id), R.ModelOf(e.id), e.effort),
           if e.record.expiresAt.Some? then Some(Evidence(e.record.expiresAt.value)) else None)
  }

  function TicketsOf(s: seq<S.Entry>): (t: seq<Ticket>)
    ensures |t| == |s| && forall i :: 0 <= i < |s| ==> t[i] == TicketOf(s[i])
  {
    seq(|s|, i requires 0 <= i < |s| => TicketOf(s[i]))
  }

  /** What a selection hands on to the run; standby routes only if failover was asked for. */
  function PlanOf(o: S.Outcome, maxRounds: nat, readOnly: bool, failover: bool): Plan
    requires o.Selected?
  {
    Plan(TicketOf(o.chosen), if failover then TicketsOf(o.alternates) else [], maxRounds, readOnly, o.independence)
  }

  /** From selection to the last child, failovers included: every child runs on a route that
      passed the selection, in the order of the selection, backed by the newest record of that
      route, which had not expired when the child was started. */
  lemma StartsAreBacked(task: R.Task, qs: seq<R.Record>, now: nat, avoid: Option<R.Provider>, spread: T.Text,
      policy: R.Policy, maxRounds: nat, readOnly: bool, failover: bool, r: Run, threw: bool, k: nat)
    returns (e: S.Entry)
    requires R.TaskPolicy(task) == Some(policy) && S.Select(task, qs, now, avoid, spread).Selected?
    requires Outcome(PlanOf(S.Select(task, qs, now, avoid, spread), maxRounds, readOnly, failover), r, threw)
             && k < |r.started|
    ensures var o, s := S.Select(task, qs, now, avoid, spread), r.started[k];
            && s.moved < |[o.chosen] + o.alternates| && e == ([o.chosen] + o.alternates)[s.moved]
            && s.ticket == TicketOf(e)
            && S.Backed(e, task, qs, now, policy)
            && e.record.expiresAt.Some? && e.record.expiresAt.value > s.at
  {
    hide S.Select, R.TaskPolicy, S.Backs, S.IsNewest, Outcome, R.EffortOf;
    var o := S.Select(task, qs, now, avoid, spread);
    var p := PlanOf(o, maxRounds, readOnly, failover);
    StartsWereAuthorized(p, r, threw, k);
    S.SelectedIsBacked(task, qs, now, avoid, spread, policy);
    var all := [o.chosen] + o.alternates;
    e := all[r.started[k].moved];
    assert e in all;
    BackedHasDate(e, task, qs, now, policy);
  }

  lemma BackedHasDate(e: S.Entry, task: R.Task, qs: seq<R.Record>, now: nat, policy: R.Policy)
    requires S.Backed(e, task, qs, now, policy)
    ensures e.record.expiresAt.Some?
  {
    hide R.EffortOf, S.IsNewest;
  }

  /** And the recorded claim of independence is there exactly if a provider was to be avoided,
      and says exactly whether the route in use in the end is another one's. */
  lemma IndependenceEndToEnd(task: R.Task, qs: seq<R.Record>, now: nat, avoid: Option<R.Provider>, spread: T.Text,
                             maxRounds: nat, readOnly: bool, failover: bool, r: Run, threw: bool)
    requires S.Select(task, qs, now, avoid, spread).Selected?
    requires Outcome(PlanOf(S.Select(task, qs, now, avoid, spread), maxRounds, readOnly, failover), r, threw)
    ensures r.independence.Some? <==> avoid.Some?
    ensures avoid.Some? ==>
              && r.independence.value.avoided == avoid.value
              && (r.independence.value.independent <==> r.ticket.choice.provider != avoid.value)
  {
    SelectionClaims(task, qs, now, avoid, spread);
    hide S.Select, TextOk, Finished, Numbered;
  }

  lemma SelectionClaims(task: R.Task, qs: seq<R.Record>, now: nat, avoid: Option<R.Provider>, spread: T.Text)
    requires S.Select(task, qs, now, avoid, spread).Selected?
    ensures var o := S.Select(task, qs, now, avoid, spread);
            && (o.independence.Some? <==> avoid.Some?)
            && (avoid.Some? ==> o.independence.value.avoided == avoid.value &&
                                o.independence.value.independent == (R.ProviderOf(o.chosen.id) != avoid.value))
  {
    hide R.TaskPolicy, S.Candidates, S.Eligible, S.Complaints, S.Ordered;
  }
}
