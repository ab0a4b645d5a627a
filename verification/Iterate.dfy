/**
 The review loop (plugin.mjs): review an artifact, revise it while the declared verdict asks for
 more, and optionally condense the revision as context for the next cycle.
 */
module Iterate {
  import opened Wrappers
  import opened Verdicts
  import T = Text

  // ---------------------------------------------------------------- assignments

  /** Names of assignments: the loop's own ones carry the cycle, any other is foreign. */
  datatype Id = Foreign(name: string) | ReviewOf(cycle: nat) | RevisionOf(cycle: nat) | CompactOf(cycle: nat)

  datatype RunState = CompletedRun | EndedRun | UnfinishedRun

  datatype Stored = Stored(compactRole: bool, state: RunState, hasText: bool, reviews: Option<Id>, compaction: bool)

  type Store = map<Id, Stored>

  /** What may be judged: a stored run that has ended with text. */
  predicate Loadable(s: Store, id: Id) { id in s && s[id].state != UnfinishedRun && s[id].hasText }

  /** What may stand in for `subject`: an applied compaction of it. */
  predicate CompactionOf(a: Stored, subject: Id) {
    a.compactRole && a.state == CompletedRun && a.compaction && a.reviews == Some(subject)
  }

  /** Names under which somebody else has stored something since `s`. */
  function Written(s: Store, t: Store): set<Id> { set id | id in t && (id !in s || t[id] != s[id]) }

  /** A call writes no name but its own. */
  ghost predicate OnlyAt(s: Store, t: Store, id: Id) {
    forall other :: other != id ==> (other in t <==> other in s) && (other in s ==> t[other] == s[other])
  }

  /** The working context, unless it was removed or replaced, is an applied compaction of the
      subject. */
  predicate ContextOk(s: Store, replaced: set<Id>, context: Option<Id>, subject: Id) {
    context.Some? ==>
      context.value.CompactOf? && (context.value in s && context.value !in replaced ==>
        CompactionOf(s[context.value], subject))
  }

  /** The revision before revision `k`; the loop starts from `origin`. */
  function Nth(origin: Id, k: nat): Id { if k == 0 then origin else RevisionOf(k) }

  /** Each revision, unless it was removed or replaced, is a completed run that names the one
      it revises. */
  predicate LineageOk(s: Store, replaced: set<Id>, origin: Id, n: nat) {
    forall k :: 0 < k <= n && RevisionOf(k) in s && RevisionOf(k) !in replaced ==>
      s[RevisionOf(k)].state == CompletedRun && s[RevisionOf(k)].reviews == Some(Nth(origin, k - 1))
  }

  lemma Survives(s: Store, t: Store, replaced: set<Id>, more: set<Id>, context: Option<Id>, subject: Id, origin: Id,
      n: nat)
    requires ContextOk(s, replaced, context, subject) && LineageOk(s, replaced, origin, n)
    requires replaced <= more && Written(s, t) <= more
    ensures ContextOk(t, more, context, subject) && LineageOk(t, more, origin, n)
  {
    forall id | id in t && id !in more ensures id in s && t[id] == s[id] {
      assert id !in Written(s, t);
    }
  }

  lemma OwnNameOnly(s: Store, t: Store, id: Id, replaced: set<Id>, context: Option<Id>, subject: Id, origin: Id, n: nat)
    requires ContextOk(s, replaced, context, subject) && LineageOk(s, replaced, origin, n)
    requires OnlyAt(s, t, id) && Some(id) != context && !(id.RevisionOf? && id.cycle <= n)
    ensures ContextOk(t, replaced, context, subject) && LineageOk(t, replaced, origin, n)
  {
  }

  /** Between two calls of the loop, others may remove and store anything under any name. */
  method Interfere(s: Store) returns (t: Store, ghost written: set<Id>)
    ensures written == Written(s, t)
  {
    t := *;
    written := Written(s, t);
  }

  method Try() returns (ok: bool)
  {
    ok := *;
  }

  // ---------------------------------------------------------------- calls of the dispatcher

  datatype Called = Threw | InvalidContext | Answered(state: RunState, declared: Option<Declared>)

  /** What stands under the name of the context can be read but does not stand in for the
      subject. */
  predicate BadContext(s: Store, id: Id, subject: Id, context: Option<Id>) {
    id !in s && Loadable(s, subject) && context.Some? && Loadable(s, context.value)
      && !CompactionOf(s[context.value], subject)
  }

  /** How a delegated run goes: whether nothing else refuses it before its context is looked at; whether
      it can be stored before anything runs, again with the answer of its child, and a last time; whether
      the child completed it, with what text and declaration; and whether something was thrown after that. */
  datatype Fate = Fate(admitted: bool, stored: bool, answered: bool, finished: bool, completed: bool, text: bool,
      declared: Option<Declared>, thrown: bool)

  /** A call of the loop, with the store as it found it and as it left it. */
  datatype Asked = Asked(before: Store, after: Store, id: Id, subject: Id, context: Option<Id>, fate: Fate,
      answer: Called)

  /** Nothing stands in the way of the call. */
  predicate Goes(a: Asked) {
    && a.fate.admitted && a.id !in a.before && Loadable(a.before, a.subject)
    && (a.context.Some? ==>
          Loadable(a.before, a.context.value) && CompactionOf(a.before[a.context.value], a.subject))
  }

  /** Nothing else refuses the call, but what stands under the name of its context does not stand
      in for the subject. */
  predicate Refused(a: Asked) { a.fate.admitted && BadContext(a.before, a.id, a.subject, a.context) }

  /** A call that is refused leaves nothing; any other is answered, as completed exactly if the child
      completed it, nothing was thrown after that, and all of it could be stored. */
  predicate AnsweredAs(a: Asked) {
    if Goes(a) then
      && a.answer.Answered? && a.answer.state != UnfinishedRun
      && (a.answer.state == CompletedRun <==>
            a.fate.stored && a.fate.answered && a.fate.finished && a.fate.completed && !a.fate.thrown)
      && a.answer.declared == (if a.fate.stored then a.fate.declared else None)
    else a.answer == (if Refused(a) then InvalidContext else Threw)
  }

  /** What such a call leaves in the store: the last version of its record that could be stored, which
      names its subject. */
  ghost predicate StoredAs(a: Asked) {
    if !Goes(a) || !a.fate.stored then a.after == a.before
    else
      && a.id in a.after && a.after == a.before[a.id := a.after[a.id]]
      && var r := a.after[a.id];
      && !r.compactRole && !r.compaction && r.reviews == Some(a.subject)
      && (r.hasText <==> a.fate.answered && a.fate.text)
      && (r.state == UnfinishedRun <==> !a.fate.answered)
      && (r.state == CompletedRun <==>
            a.fate.answered && a.fate.completed && (a.fate.thrown ==> !a.fate.finished))
  }

  /** `delegate` as far as links are concerned: refusals first, then a record that is stored
      before anything runs and again on the way and when the run ends, unless a save fails. */
  method Delegate(s: Store, id: Id, subject: Id, context: Option<Id>, f: Fate) returns (t: Store, c: Called)
    ensures OnlyAt(s, t, id)
    ensures c == InvalidContext <==> f.admitted && BadContext(s, id, subject, context)
    ensures AnsweredAs(Asked(s, t, id, subject, context, f, c)) && StoredAs(Asked(s, t, id, subject, context, f, c))
    ensures c.Answered? && c.state == CompletedRun ==>
              id in t && !t[id].compactRole && t[id].state == CompletedRun && t[id].reviews == Some(subject)
  {
    t, c := s, Threw;
    if !f.admitted || id in s || !Loadable(s, subject) { return; }
    if context.Some? {
      if !Loadable(s, context.value) { return; }
      if !CompactionOf(s[context.value], subject) {
        c := InvalidContext;
        return;
      }
    }
    var record := Stored(false, UnfinishedRun, false, Some(subject), false);
    c := Answered(EndedRun, None);
    if !f.stored { return; }
    t := t[id := record];
    record := record.(state := if f.completed then CompletedRun else EndedRun, hasText := f.text);
    c := Answered(EndedRun, f.declared);
    if !f.answered { return; }
    t := t[id := record]; // the answer of the child
    if !f.finished { return; }
    if f.thrown { record := record.(state := EndedRun); } // recorded as interrupted
    t := t[id := record];
    c := Answered(record.state, f.declared);
  }

  /** How a compaction goes: whether nothing refuses it, whether its record can be stored at first and
      with the answer, whether that is a smaller text or at least some text, whether the child can be
      disposed, and, if not, whether the record can be stored once more. */
  datatype Turnout = Turnout(admitted: bool, stored: bool, answered: bool, smaller: bool, text: bool, closed: bool,
      again: bool)

  datatype Condensed = Condensed(before: Store, after: Store, id: Id, subject: Id, turnout: Turnout, ok: bool,
      applied: bool)

  /** A compaction goes unless it is refused, and is applied exactly if it is smaller, was stored, and
      its child was disposed; what is stored names its subject, and is an applied compaction of it
      exactly if it was not stored once more as interrupted. */
  ghost predicate CondensedAs(c: Condensed) {
    var o := c.turnout;
    && (c.ok <==> o.admitted && c.id !in c.before && Loadable(c.before, c.subject))
    && (c.applied <==> c.ok && o.stored && o.answered && o.smaller && o.closed)
    && if !c.ok || !o.stored then c.after == c.before
       else
         && c.id in c.after && c.after == c.before[c.id := c.after[c.id]]
         && var r := c.after[c.id];
         && r.compactRole && r.reviews == Some(c.subject)
         && (r.state == UnfinishedRun <==> !o.answered)
         && (r.state == CompletedRun <==> o.answered && o.smaller && (o.closed || !o.again))
         && (r.compaction <==> r.state == CompletedRun)
         && (r.hasText <==> o.answered && (o.smaller || o.text))
  }

  /** `compact`: applied only when the stored record is a completed compaction of the subject. */
  method Compact(s: Store, id: Id, subject: Id, o: Turnout) returns (t: Store, ok: bool, applied: bool)
    ensures OnlyAt(s, t, id)
    ensures CondensedAs(Condensed(s, t, id, subject, o, ok, applied))
    ensures ok && applied ==> id in t && CompactionOf(t[id], subject)
  {
    t := s;
    if !o.admitted || id in s || !Loadable(s, subject) { return t, false, false; }
    var record := Stored(true, UnfinishedRun, false, Some(subject), false);
    if !o.stored { return t, true, false; }
    t := t[id := record];
    if !o.answered { return t, true, false; }
    record := if o.smaller then record.(state := CompletedRun, hasText := true, compaction := true)
      else record.(state := EndedRun, hasText := o.text);
    t := t[id := record];
    if !o.closed {
      // The child could not be disposed: the record is stored once more, as interrupted.
      if o.again { t := t[id := record.(state := EndedRun, compaction := false)]; }
      return t, true, false;
    }
    return t, true, o.smaller;
  }

  lemma NoContext(s: Store, replaced: set<Id>, subject: Id)
    ensures ContextOk(s, replaced, None, subject)
  {
  }

  method Disturb(s: Store, ghost replaced: set<Id>, context: Option<Id>, subject: Id, ghost origin: Id, ghost n: nat)
    returns (t: Store, ghost more: set<Id>)
    requires ContextOk(s, replaced, context, subject) && LineageOk(s, replaced, origin, n)
    ensures ContextOk(t, more, context, subject) && LineageOk(t, more, origin, n)
    ensures more == replaced + Written(s, t)
  {
    ghost var written;
    t, written := Interfere(s);
    more := replaced + written;
    Survives(s, t, replaced, more, context, subject, origin, n);
  }

  ghost predicate AskedOk(a: Asked, id: Id, subject: Id) {
    && a.id == id && a.subject == subject && OnlyAt(a.before, a.after, id) && AnsweredAs(a) && StoredAs(a)
    && (a.answer == InvalidContext <==> Refused(a))
  }

  /** After a wait, a call with the loop's own context: it is refused for it only if somebody
      else has stored something under its name. */
  method Ask(s: Store, ghost replaced: set<Id>, id: Id, subject: Id, context: Option<Id>, ghost origin: Id,
      ghost n: nat)
    returns (t: Store, c: Called, ghost more: set<Id>, ghost a: Asked)
    requires ContextOk(s, replaced, context, subject) && LineageOk(s, replaced, origin, n)
    requires !id.CompactOf? && !(id.RevisionOf? && id.cycle <= n)
    ensures ContextOk(t, more, context, subject) && LineageOk(t, more, origin, n) && replaced <= more
    ensures c == InvalidContext ==> context.Some? && context.value in more
    ensures AskedOk(a, id, subject) && a.context == context && a.answer == c && a.after == t
    ensures c.Answered? && c.state == CompletedRun ==>
              id in t && !t[id].compactRole && t[id].state == CompletedRun && t[id].reviews == Some(subject)
  {
    var u: Store;
    u, more := Disturb(s, replaced, context, subject, origin, n);
    var f: Fate := *;
    t, c := Delegate(u, id, subject, context, f);
    a := Asked(u, t, id, subject, context, f, c);
    OwnNameOnly(u, t, id, more, context, subject, origin, n);
  }

  /** One more completed revision. */
  lemma LineageGrows(s: Store, replaced: set<Id>, origin: Id, n: nat)
    requires LineageOk(s, replaced, origin, n) && RevisionOf(n + 1) in s
    requires s[RevisionOf(n + 1)].state == CompletedRun && s[RevisionOf(n + 1)].reviews == Some(Nth(origin, n))
    ensures LineageOk(s, replaced, origin, n + 1)
  {
  }

  // ---------------------------------------------------------------- the loop

  /** One review: what was judged, in which context, what came back, what was decided. */
  datatype Cycle = Cycle(subject: Id, context: Option<Id>, declared: Option<Declared>, state: RunState,
      decision: Decision)

  datatype Stop = Decided(decision: Decision) | ReviseUnavailable | RevisionIncomplete

  /** What the loop is given up for: a call refused for its context, a call that fails otherwise, an
      artifact that is gone, or a compaction that is refused. */
  datatype Why = ContextInvalid | CallThrew | SubjectGone | CompactionThrew

  datatype Ending = BadLimit | NoReviewer | Thrown(why: Why) | Ended(finalSubject: Id, stopped: Stop)

  /** In which cycles, from 0, a route is found for the review and for the revision. */
  datatype Routing = Routing(reviewer: nat -> bool, reviser: nat -> bool)

  function ReviewStateOf(s: RunState): ReviewState { if s == CompletedRun then CompletedReview else OtherReview }

  /** What is logged about each cycle. */
  ghost predicate CycleOk(c: Cycle, k: nat, origin: Id, maxCycles: nat, applied: seq<bool>) {
    && c.subject == Nth(origin, k)
    && (c.context == None || (0 < k <= |applied| && applied[k - 1] && c.context == Some(CompactOf(k))))
    && Warranted(c.decision, c.declared, ReviewStateOf(c.state), k + 1, maxCycles)
  }

  ghost predicate LogOk(log: seq<Cycle>, origin: Id, maxCycles: nat, applied: seq<bool>) {
    && (forall k :: 0 <= k < |log| ==> CycleOk(log[k], k, origin, maxCycles, applied))
    && (forall k :: 0 <= k < |log| - 1 ==> log[k].decision == Revise)
  }

  /** What the caller may conclude from the answer. */
  predicate EndingOk(e: Ending, log: seq<Cycle>, maxCycles: nat) {
    && (e.Ended? ==>
          && log != []
          && var last := log[|log| - 1];
             && e.finalSubject == last.subject
             && (if e.stopped.Decided? then e.stopped.decision == last.decision && last.decision != Revise
                  else last.decision == Revise))
  }

  lemma EntryOk(c: Cycle, cycle: nat, origin: Id, maxCycles: nat, applied: seq<bool>)
    requires 1 <= cycle && c.subject == Nth(origin, cycle - 1)
    requires c.context == None ||
             (1 < cycle <= |applied| + 1 && applied[cycle - 2] && c.context == Some(CompactOf(cycle - 1)))
    requires Warranted(c.decision, c.declared, ReviewStateOf(c.state), cycle, maxCycles)
    ensures CycleOk(c, cycle - 1, origin, maxCycles, applied)
  {
  }

  lemma Logged(log: seq<Cycle>, c: Cycle, origin: Id, maxCycles: nat, applied: seq<bool>)
    requires LogOk(log, origin, maxCycles, applied) && (log != [] ==> log[|log| - 1].decision == Revise)
    requires CycleOk(c, |log|, origin, maxCycles, applied)
    ensures LogOk(log + [c], origin, maxCycles, applied)
  {
    hide CycleOk;
  }

  /** The last permitted cycle never asks for another revision. */
  lemma RevisingLeavesACycle(d: Option<Declared>, state: ReviewState, cycle: nat, maxCycles: nat)
    requires Warranted(Revise, d, state, cycle, maxCycles)
    ensures cycle < maxCycles
  {
  }

  lemma EmptyLog(origin: Id, maxCycles: int)
    ensures 0 <= maxCycles ==> LogOk([], origin, maxCycles, [])
  {
  }

  lemma MoreApplied(log: seq<Cycle>, origin: Id, maxCycles: nat, applied: seq<bool>, used: bool)
    requires LogOk(log, origin, maxCycles, applied)
    ensures LogOk(log, origin, maxCycles, applied + [used])
  {
    forall k | 0 <= k < |log| ensures CycleOk(log[k], k, origin, maxCycles, applied + [used]) {
      assert CycleOk(log[k], k, origin, maxCycles, applied);
    }
  }

  /** The new revision is condensed; an applied compaction becomes the working context. */
  method Condense(s: Store, ghost replaced: set<Id>, cycle: nat, ghost origin: Id, applied: seq<bool>,
      ghost log: seq<Cycle>, ghost maxCycles: nat, ghost condensed: seq<Condensed>)
    returns (t: Store, ok: bool, context: Option<Id>, more: seq<bool>, ghost written: set<Id>,
      ghost tried: seq<Condensed>)
    requires LineageOk(s, replaced, origin, cycle) && LogOk(log, origin, maxCycles, applied)
    requires CondensingsOk(condensed, applied) && |condensed| == |applied| == cycle - 1
    ensures ContextOk(t, written, context, RevisionOf(cycle)) && LineageOk(t, written, origin, cycle)
            && replaced <= written
    ensures LogOk(log, origin, maxCycles, more)
            && (if ok then |more| == |applied| + 1 && applied <= more else more == applied)
    ensures context == (if ok && more[|applied|] then Some(CompactOf(cycle)) else None)
    ensures CondensingsOk(tried, more) && |tried| == cycle
  {
    hide LogOk, LineageOk, CompactionOf, OnlyAt, Written, CondensedAs, CondensingsOk;
    NoContext(s, replaced, RevisionOf(cycle));
    var u: Store, used: bool;
    u, written := Disturb(s, replaced, None, RevisionOf(cycle), origin, cycle);
    var o: Turnout := *;
    t, ok, used := Compact(u, CompactOf(cycle), RevisionOf(cycle), o);
    ghost var d := Condensed(u, t, CompactOf(cycle), RevisionOf(cycle), o, ok, used);
    tried := condensed + [d];
    OneMoreCondensed(condensed, applied, d);
    OwnNameOnly(u, t, CompactOf(cycle), written, None, RevisionOf(cycle), origin, cycle);
    context, more := None, applied;
    if ok {
      MoreApplied(log, origin, maxCycles, applied, used);
      more := applied + [used];
      if used { context := Some(CompactOf(cycle)); }
    }
  }

  /** The calls of the loop, in order. */
  datatype Calls = Calls(reviews: seq<Asked>, revisions: seq<Asked>)

  /** Each cycle asked for its review, with the context in its log, and the reviewer's answer is
      what was logged; a revision was asked for with the same context. */
  ghost predicate CallsOk(calls: Calls, log: seq<Cycle>, origin: Id) {
    && |log| <= |calls.reviews| && |calls.revisions| <= |log|
    && (forall k :: 0 <= k < |calls.reviews| ==> AskedOk(calls.reviews[k], ReviewOf(k + 1), Nth(origin, k)))
    && (forall k :: 0 <= k < |log| ==>
          calls.reviews[k].context == log[k].context
            && calls.reviews[k].answer == Answered(log[k].state, log[k].declared))
    && (forall k :: 0 <= k < |calls.revisions| ==>
          AskedOk(calls.revisions[k], RevisionOf(k + 1), Nth(origin, k))
            && calls.revisions[k].context == log[k].context)
  }

  predicate SomeRefused(calls: Calls) {
    || (exists k :: 0 <= k < |calls.reviews| && Refused(calls.reviews[k]))
    || (exists k :: 0 <= k < |calls.revisions| && Refused(calls.revisions[k]))
  }

  function LastCall(calls: Calls): Asked
    requires calls.reviews != []
  {
    if |calls.revisions| == |calls.reviews| then calls.revisions[|calls.revisions| - 1]
      else calls.reviews[|calls.reviews| - 1]
  }

  /** Every compaction asked for is of the revision just made; all but a last one that was refused are
      noted as applied or not. */
  ghost predicate CondensingsOk(cs: seq<Condensed>, applied: seq<bool>) {
    && |applied| <= |cs| <= |applied| + 1
    && forall k :: 0 <= k < |cs| ==>
         && CondensedAs(cs[k]) && cs[k].id == CompactOf(k + 1) && cs[k].subject == RevisionOf(k + 1)
         && if k < |applied| then cs[k].ok && cs[k].applied == applied[k] else !cs[k].ok
  }

  predicate IsCompleted(a: Asked) { a.answer.Answered? && a.answer.state == CompletedRun }

  /** A revision is gone on with only if it was completed. */
  predicate GoneOnWith(revisions: seq<Asked>, n: int) {
    forall k :: 0 <= k < |revisions| && k < n ==> IsCompleted(revisions[k])
  }

  predicate RoutesFound(calls: Calls, w: Routing) {
    && (forall k: nat :: k < |calls.reviews| ==> w.reviewer(k))
    && (forall k: nat :: k < |calls.revisions| ==> w.reviser(k))
  }

  /** Why the loop ended as it did, if not by a decision. */
  predicate Explained(e: Ending, log: seq<Cycle>, calls: Calls, t: Store, w: Routing, refused: bool, origin: Id)
  {
    match e
    case NoReviewer => !w.reviewer(|log|)
    case Thrown(ContextInvalid) => calls.reviews != [] && LastCall(calls).answer == InvalidContext
    case Thrown(CallThrew) => calls.reviews != [] && LastCall(calls).answer == Threw
    case Thrown(SubjectGone) => Nth(origin, |log|) !in t
    case Thrown(CompactionThrew) => refused
    case Ended(_, ReviseUnavailable) => log != [] && !w.reviser(|log| - 1)
    case Ended(_, RevisionIncomplete) =>
      && |calls.revisions| == |calls.reviews| > 0 && LastCall(calls).answer.Answered?
      && !IsCompleted(LastCall(calls))
    case _ => true
  }

  lemma HowExplained(log: seq<Cycle>, calls: Calls, t: Store, w: Routing, refused: bool, origin: Id, subject: Id)
    ensures Explained(BadLimit, log, calls, t, w, refused, origin)
    ensures Nth(origin, |log|) !in t ==> Explained(Thrown(SubjectGone), log, calls, t, w, refused, origin)
    ensures !w.reviewer(|log|) ==> Explained(NoReviewer, log, calls, t, w, refused, origin)
    ensures calls.reviews != [] && LastCall(calls).answer == InvalidContext ==>
              Explained(Thrown(ContextInvalid), log, calls, t, w, refused, origin)
    ensures calls.reviews != [] && LastCall(calls).answer == Threw ==>
              Explained(Thrown(CallThrew), log, calls, t, w, refused, origin)
    ensures log != [] && !w.reviser(|log| - 1) ==>
              Explained(Ended(subject, ReviseUnavailable), log, calls, t, w, refused, origin)
    ensures forall d :: Explained(Ended(subject, Decided(d)), log, calls, t, w, refused, origin)
  {
    hide Nth, LastCall;
  }

  lemma NoCalls(origin: Id)
    ensures CallsOk(Calls([], []), [], origin) && !SomeRefused(Calls([], []))
  {
  }

  lemma ReviewAsked(calls: Calls, log: seq<Cycle>, origin: Id, a: Asked)
    requires CallsOk(calls, log, origin) && !SomeRefused(calls) && |calls.reviews| == |log|
    requires AskedOk(a, ReviewOf(|log| + 1), Nth(origin, |log|))
    ensures var more := calls.(reviews := calls.reviews + [a]);
            CallsOk(more, log, origin) && (SomeRefused(more) <==> a.answer == InvalidContext)
  {
    hide BadContext, OnlyAt, Nth;
    var more := calls.(reviews := calls.reviews + [a]);
    assert more.reviews[|log|] == a;
  }

  lemma ReviewLogged(calls: Calls, log: seq<Cycle>, origin: Id, c: Cycle)
    requires CallsOk(calls, log, origin) && |calls.reviews| == |log| + 1
    requires calls.reviews[|log|].context == c.context && calls.reviews[|log|].answer == Answered(c.state, c.declared)
    ensures CallsOk(calls, log + [c], origin)
  {
    hide AskedOk, Nth;
  }

  lemma RevisionAsked(calls: Calls, log: seq<Cycle>, origin: Id, a: Asked)
    requires CallsOk(calls, log, origin) && !SomeRefused(calls) && |calls.revisions| == |log| - 1
    requires AskedOk(a, RevisionOf(|log|), Nth(origin, |log| - 1)) && a.context == log[|log| - 1].context
    ensures var more := calls.(revisions := calls.revisions + [a]);
            CallsOk(more, log, origin) && (SomeRefused(more) <==> a.answer == InvalidContext)
  {
    hide BadContext, OnlyAt, Nth;
    var more := calls.(revisions := calls.revisions + [a]);
    assert more.revisions[|log| - 1] == a;
  }

  /** Somebody else has stored something under the name of a compaction of the loop. */
  predicate ContextReplaced(replaced: set<Id>, maxCycles: int) {
    exists k: nat :: 1 <= k < maxCycles && CompactOf(k) in replaced
  }

  /** The review of the cycle after those in `log`, with its call recorded. */
  method AskReview(s: Store, ghost replaced: set<Id>, subject: Id, context: Option<Id>, ghost origin: Id,
      ghost log: seq<Cycle>, ghost calls: Calls, ghost maxCycles: int, cycle: nat, ghost w: Routing)
    returns (t: Store, c: Called, ghost more: set<Id>, ghost asked: Calls)
    requires cycle == |log| + 1 && subject == Nth(origin, |log|) && 1 <= cycle <= maxCycles
    requires RoutesFound(calls, w) && w.reviewer(cycle - 1)
    requires context.Some? ==> cycle > 1 && context == Some(CompactOf(cycle - 1))
    requires ContextOk(s, replaced, context, subject) && LineageOk(s, replaced, origin, |log|)
    requires CallsOk(calls, log, origin) && !SomeRefused(calls) && |calls.reviews| == |log|
    ensures ContextOk(t, more, context, subject) && LineageOk(t, more, origin, |log|)
    ensures log != [] ==> LineageOk(t, more, origin, |log| - 1)
    ensures c == InvalidContext ==> ContextReplaced(more, maxCycles)
    ensures CallsOk(asked, log, origin) && (SomeRefused(asked) <==> c == InvalidContext)
    ensures |asked.reviews| == |log| + 1 && asked.revisions == calls.revisions
    ensures asked.reviews[|log|].context == context && asked.reviews[|log|].answer == c
            && asked.reviews[|log|].after == t && RoutesFound(asked, w)
  {
    ReviewerFound(calls, w);
    hide RoutesFound, ContextOk, LineageOk, CompactionOf, Written, OnlyAt, Nth, CallsOk, SomeRefused, AskedOk,
      ContextReplaced;
    ghost var a;
    t, c, more, a := Ask(s, replaced, ReviewOf(cycle), subject, context, origin, |log|);
    ReviewAsked(calls, log, origin, a);
    asked := calls.(reviews := calls.reviews + [a]);
    if log != [] { LineageShorter(t, more, origin, |log|); }
    if c == InvalidContext { Replaced(more, cycle - 1, maxCycles); }
  }

  /** The revision after the last cycle in `log`, with its call recorded; a completed one extends
      the chain. */
  method AskRevision(s: Store, ghost replaced: set<Id>, subject: Id, context: Option<Id>, ghost origin: Id,
      ghost log: seq<Cycle>, ghost calls: Calls, ghost maxCycles: int, cycle: nat, ghost w: Routing)
    returns (t: Store, c: Called, ghost more: set<Id>, ghost asked: Calls)
    requires cycle == |log| >= 1 && subject == Nth(origin, cycle - 1) && cycle <= maxCycles
    requires RoutesFound(calls, w) && w.reviser(cycle - 1) && GoneOnWith(calls.revisions, cycle - 1)
    requires context.Some? ==> cycle > 1 && context == Some(CompactOf(cycle - 1))
    requires ContextOk(s, replaced, context, subject) && LineageOk(s, replaced, origin, cycle - 1)
    requires CallsOk(calls, log, origin) && !SomeRefused(calls) && |calls.revisions| == |log| - 1
    requires log[|log| - 1].context == context
    ensures LineageOk(t, more, origin, cycle - 1)
    ensures c.Answered? && c.state == CompletedRun ==>
              LineageOk(t, more, origin, cycle) && ContextOk(t, more, None, RevisionOf(cycle))
    ensures c == InvalidContext ==> ContextReplaced(more, maxCycles)
    ensures CallsOk(asked, log, origin) && (SomeRefused(asked) <==> c == InvalidContext)
    ensures asked.reviews == calls.reviews && |asked.revisions| == |log|
    ensures asked.revisions[|log| - 1].after == t && asked.revisions[|log| - 1].answer == c
    ensures RoutesFound(asked, w) && GoneOnWith(asked.revisions, cycle - 1)
    ensures c.Answered? && c.state == CompletedRun ==> GoneOnWith(asked.revisions, cycle)
  {
    ReviserFound(calls, w);
    hide RoutesFound, GoneOnWith, ContextOk, LineageOk, CompactionOf, Written, OnlyAt, Nth, CallsOk, SomeRefused,
      AskedOk, ContextReplaced;
    ghost var a;
    t, c, more, a := Ask(s, replaced, RevisionOf(cycle), subject, context, origin, cycle - 1);
    RevisionAsked(calls, log, origin, a);
    asked := calls.(revisions := calls.revisions + [a]);
    OneMoreRevision(calls.revisions, asked.revisions);
    if c == InvalidContext { Replaced(more, cycle - 1, maxCycles); }
    if c.Answered? && c.state == CompletedRun {
      LineageGrows(t, more, origin, cycle - 1);
      NoContext(t, more, RevisionOf(cycle));
    }
  }

  /** Decides on an answer of the reviewer and logs the cycle. */
  method Log(subject: Id, context: Option<Id>, c: Called, cycle: nat, ghost origin: Id, maxCycles: nat,
      ghost applied: seq<bool>, log: seq<Cycle>, ghost calls: Calls)
    returns (longer: seq<Cycle>, decision: Decision)
    requires c.Answered? && cycle == |log| + 1 && 1 <= cycle <= maxCycles && subject == Nth(origin, |log|)
    requires context.Some? ==>
               && cycle > 1 && |applied| >= cycle - 1 && applied[cycle - 2]
               && context == Some(CompactOf(cycle - 1))
    requires LogOk(log, origin, maxCycles, applied) && (log != [] ==> log[|log| - 1].decision == Revise)
    requires CallsOk(calls, log, origin) && |calls.reviews| == |log| + 1
    requires calls.reviews[|log|].context == context && calls.reviews[|log|].answer == c
    ensures |longer| == |log| + 1 && longer[..|log|] == log
    ensures longer[|log|].subject == subject && longer[|log|].context == context && longer[|log|].decision == decision
    ensures decision == Revise ==> cycle < maxCycles
    ensures LogOk(longer, origin, maxCycles, applied) && CallsOk(calls, longer, origin)
    ensures decision != Revise ==> EndingOk(Ended(subject, Decided(decision)), longer, maxCycles)
    ensures decision == Revise ==>
              && EndingOk(Ended(subject, ReviseUnavailable), longer, maxCycles)
              && EndingOk(Ended(subject, RevisionIncomplete), longer, maxCycles)
  {
    hide LogOk, CycleOk, LoopDecision, VerdictOf, ReviewStateOf, EndingOk, Nth, CallsOk, Warranted;
    decision := LoopDecision(VerdictOf(c.declared), cycle, maxCycles, ReviewStateOf(c.state));
    DecisionIsWarranted(c.declared, ReviewStateOf(c.state), cycle, maxCycles);
    if decision == Revise { RevisingLeavesACycle(c.declared, ReviewStateOf(c.state), cycle, maxCycles); }
    var entry := Cycle(subject, context, c.declared, c.state, decision);
    EntryOk(entry, cycle, origin, maxCycles, applied);
    Logged(log, entry, origin, maxCycles, applied);
    ReviewLogged(calls, log, origin, entry);
    longer := log + [entry];
    HowItEnds(longer, maxCycles);
  }

  /** The review of the artifact at hand, if it is still there when looked up, and the decision on it:
      either a revision is to be asked for, or the loop ends. */
  method NextReview(s: Store, ghost replaced: set<Id>, subject: Id, context: Option<Id>, ghost origin: Id,
      log: seq<Cycle>, ghost calls: Calls, maxCycles: int, cycle: nat, w: Routing, ghost applied: seq<bool>)
    returns (t: Store, e: Option<Ending>, longer: seq<Cycle>, ghost written: set<Id>, ghost asked: Calls,
      ghost seen: Store)
    requires 1 <= cycle == |log| + 1 <= maxCycles && subject == Nth(origin, cycle - 1)
    requires context.Some? ==>
               && cycle > 1 && |applied| >= cycle - 1 && applied[cycle - 2]
               && context == Some(CompactOf(cycle - 1))
    requires ContextOk(s, replaced, context, subject) && LineageOk(s, replaced, origin, cycle - 1)
    requires LogOk(log, origin, maxCycles, applied) && (log != [] ==> log[|log| - 1].decision == Revise)
    requires CallsOk(calls, log, origin) && !SomeRefused(calls) && |calls.reviews| == |calls.revisions| == |log|
    requires RoutesFound(calls, w)
    ensures LogOk(longer, origin, maxCycles, applied) && CallsOk(asked, longer, origin) && RoutesFound(asked, w)
    ensures asked.revisions == calls.revisions && cycle - 1 <= |longer| <= cycle && |asked.reviews| <= |longer| + 1
    ensures longer != [] ==> LineageOk(t, written, origin, |longer| - 1)
    ensures SomeRefused(asked) <==> e == Some(Thrown(ContextInvalid))
    ensures e == Some(Thrown(SubjectGone)) <==> subject !in seen
    ensures e == None ==>
              && |longer| == |asked.reviews| == cycle < maxCycles && w.reviser(cycle - 1)
              && ContextOk(t, written, context, subject)
              && longer[cycle - 1].context == context && longer[cycle - 1].subject == subject
              && longer[cycle - 1].decision == Revise
    ensures e.Some? ==>
              && e.value != BadLimit && (e.value.Ended? ==> e.value.stopped != RevisionIncomplete)
              && (e.value.Ended? ==> |longer| == |asked.reviews| == cycle)
              && EndingOk(e.value, longer, maxCycles) && Explained(e.value, longer, asked, t, w, false, origin)
              && (e.value == Thrown(ContextInvalid) ==>
                    ContextReplaced(written, maxCycles) && asked.reviews != [] && LastCall(asked).after == t)
  {
    hide LogOk, CycleOk, ContextOk, LineageOk, ContextReplaced, EndingOk, Nth, CallsOk, SomeRefused, RoutesFound,
      Explained, LoopDecision, VerdictOf, ReviewStateOf, Warranted;
    var c: Called, decision: Decision;
    longer, asked, e := log, calls, None;
    t, written := Disturb(s, replaced, context, subject, origin, cycle - 1);
    seen := t;
    if log != [] { LineageShorter(t, written, origin, cycle - 1); }
    HowExplained(log, calls, t, w, false, origin, subject);
    if subject !in t {
      e := Some(Thrown(SubjectGone));
      NotEnded(e.value, log, maxCycles);
      return;
    }
    if !w.reviewer(cycle - 1) {
      e := Some(NoReviewer);
      NotEnded(e.value, log, maxCycles);
      return;
    }
    t, c, written, asked := AskReview(t, written, subject, context, origin, log, calls, maxCycles, cycle, w);
    if !c.Answered? {
      HowExplained(log, asked, t, w, false, origin, subject);
      e := Some(Thrown(if c == InvalidContext then ContextInvalid else CallThrew));
      NotEnded(e.value, log, maxCycles);
      return;
    }
    longer, decision := Log(subject, context, c, cycle, origin, maxCycles, applied, log, asked);
    HowExplained(longer, asked, t, w, false, origin, subject);
    if decision != Revise {
      e := Some(Ended(subject, Decided(decision)));
    } else if !w.reviser(cycle - 1) {
      e := Some(Ended(subject, ReviseUnavailable));
    }
  }

  /** The revision after the last cycle in `log` and, if wanted, its compaction: either the loop goes on
      with the new artifact, or it ends. */
  method NextArtifact(s: Store, ghost replaced: set<Id>, subject: Id, context: Option<Id>, ghost origin: Id,
      ghost log: seq<Cycle>, ghost calls: Calls, maxCycles: int, cycle: nat, ghost w: Routing,
      compacting: bool, applied: seq<bool>, ghost condensed: seq<Condensed>)
    returns (t: Store, e: Option<Ending>, next: Option<Id>, more: seq<bool>, ghost written: set<Id>, ghost asked: Calls,
      ghost tried: seq<Condensed>)
    requires 1 <= cycle == |log| < maxCycles && subject == Nth(origin, cycle - 1)
    requires log[|log| - 1].context == context && log[|log| - 1].subject == subject && log[|log| - 1].decision == Revise
    requires context.Some? ==> cycle > 1 && context == Some(CompactOf(cycle - 1))
    requires ContextOk(s, replaced, context, subject) && LineageOk(s, replaced, origin, cycle - 1)
    requires LogOk(log, origin, maxCycles, applied)
    requires CallsOk(calls, log, origin) && !SomeRefused(calls) && |calls.revisions| == cycle - 1
             && |calls.reviews| == cycle
    requires RoutesFound(calls, w) && w.reviser(cycle - 1) && GoneOnWith(calls.revisions, cycle - 1)
    requires CondensingsOk(condensed, applied) && |condensed| == |applied| == if compacting then cycle - 1 else 0
    ensures LineageOk(t, written, origin, cycle - 1) && LogOk(log, origin, maxCycles, more)
    ensures CallsOk(asked, log, origin) && (SomeRefused(asked) <==> e == Some(Thrown(ContextInvalid)))
    ensures |asked.reviews| == |asked.revisions| == cycle
    ensures RoutesFound(asked, w) && GoneOnWith(asked.revisions, cycle - 1) && CondensingsOk(tried, more)
    ensures |more| == (if compacting && (e == None) then cycle else |applied|)
    ensures e == None ==>
              && LineageOk(t, written, origin, cycle) && ContextOk(t, written, next, RevisionOf(cycle))
              && GoneOnWith(asked.revisions, cycle) && |tried| == |more|
              && (next.Some? ==> compacting && more[cycle - 1] && next == Some(CompactOf(cycle)))
    ensures e.Some? ==>
              && (e.value.Thrown? || e.value == Ended(subject, RevisionIncomplete))
              && Explained(e.value, log, asked, t, w, |tried| > |more|, origin)
              && (e.value == Thrown(ContextInvalid) ==>
                    ContextReplaced(written, maxCycles) && asked.revisions[cycle - 1].after == t)
              && EndingOk(e.value, log, maxCycles)
  {
    hide LogOk, ContextOk, LineageOk, ContextReplaced, EndingOk, Nth, CallsOk, SomeRefused, CondensingsOk, RoutesFound,
      GoneOnWith;
    var c;
    next, more, tried, e := None, applied, condensed, None;
    t, c, written, asked := AskRevision(s, replaced, subject, context, origin, log, calls, maxCycles, cycle, w);
    HowItEnds(log, maxCycles);
    if !c.Answered? {
      e := Some(Thrown(if c == InvalidContext then ContextInvalid else CallThrew));
      NotEnded(e.value, log, maxCycles);
      return;
    }
    if c.state != CompletedRun {
      e := Some(Ended(subject, RevisionIncomplete));
      return;
    }
    if compacting && cycle < maxCycles {
      var ok;
      t, ok, next, more, written, tried := Condense(t, written, cycle, origin, applied, log, maxCycles, condensed);
      if !ok {
        e := Some(Thrown(CompactionThrew));
        NotEnded(e.value, log, maxCycles);
      }
    }
    LineageShorter(t, written, origin, cycle);
  }

  /** `revised` counts the revisions asked for; `applied` tells, for each compaction asked for,
      whether it replaced the working context; `replaced` collects the names under which others
      stored something meanwhile, `calls` and `condensed` the calls with the stores they found, and `t`
      is the store in the end.  The loop ends with an invalid context exactly when one of its calls, that
      nothing else refuses, finds something else under the name of its context. */
  method Iterate(store: Store, origin: Id, maxCycles: int, compacting: bool, w: Routing)
    returns (t: Store, e: Ending, log: seq<Cycle>, revised: nat, applied: seq<bool>, ghost replaced: set<Id>,
      ghost calls: Calls, ghost condensed: seq<Condensed>)
    ensures e == BadLimit <==> !(1 <= maxCycles <= 3)
    ensures 1 <= maxCycles <= 3 ==>
              && |log| <= maxCycles && revised <= maxCycles - 1 && |applied| <= maxCycles - 1
              && LogOk(log, origin, maxCycles, applied) && EndingOk(e, log, maxCycles)
    ensures CallsOk(calls, log, origin) && |calls.reviews| <= |log| + 1
    ensures revised == |calls.revisions| <= |log| <= revised + 1 && (!compacting ==> applied == [])
    ensures e.Ended? ==> |calls.reviews| == |log| && (e.stopped == RevisionIncomplete <==> revised == |log|)
    ensures e == Thrown(ContextInvalid) <==> SomeRefused(calls)
    ensures e == Thrown(ContextInvalid) ==>
              ContextReplaced(replaced, maxCycles) && calls.reviews != [] && LastCall(calls).after == t
    ensures log != [] ==> LineageOk(t, replaced, origin, |log| - 1)
    ensures CondensingsOk(condensed, applied) && RoutesFound(calls, w) && GoneOnWith(calls.revisions, revised - 1)
    ensures Explained(e, log, calls, t, w, |condensed| > |applied|, origin)
  {
    hide LogOk, CycleOk, LoopDecision, VerdictOf, ReviewStateOf, OnlyAt, ContextOk, LineageOk, CompactionOf, Written,
      ContextReplaced, EndingOk, Nth, CallsOk, SomeRefused, AskedOk, BadContext, Refused, ParseVerdict, Warranted,
      CondensingsOk, RoutesFound, GoneOnWith, CondensedAs, Explained;
    t, log, revised, applied, replaced, calls, condensed := store, [], 0, [], {}, Calls([], []), [];
    NoCalls(origin);
    NothingAsked(w);
    NoContext(t, replaced, origin);
    NoLineage(t, replaced, origin);
    StartsAtOrigin(origin);
    EmptyLog(origin, maxCycles);
    e := BadLimit;
    HowExplained(log, calls, t, w, false, origin, origin);
    if !(1 <= maxCycles <= 3) { return; }
    var subject, context: Option<Id> := origin, None;
    var cycle := 1;
    while cycle <= maxCycles
      invariant 1 <= cycle <= maxCycles && |log| == revised == cycle - 1
      invariant subject == Nth(origin, cycle - 1)
      invariant |applied| == |condensed| == if compacting then cycle - 1 else 0
      invariant context.Some? ==> compacting && cycle > 1 && applied[cycle - 2] && context == Some(CompactOf(cycle - 1))
      invariant ContextOk(t, replaced, context, subject) && LineageOk(t, replaced, origin, cycle - 1)
      invariant LogOk(log, origin, maxCycles, applied) && (log != [] ==> log[|log| - 1].decision == Revise)
      invariant CallsOk(calls, log, origin) && !SomeRefused(calls) && |calls.reviews| == |calls.revisions| == |log|
      invariant CondensingsOk(condensed, applied) && RoutesFound(calls, w) && GoneOnWith(calls.revisions, revised)
    {
      FewerGoneOnWith(calls.revisions, revised);
      var stop;
      ghost var seen;
      t, stop, log, replaced, calls, seen :=
        NextReview(t, replaced, subject, context, origin, log, calls, maxCycles, cycle, w, applied);
      if stop.Some? { e := stop.value; return; }
      revised := revised + 1;
      t, stop, context, applied, replaced, calls, condensed :=
        NextArtifact(t, replaced, subject, context, origin, log, calls, maxCycles, cycle, w, compacting, applied,
          condensed);
      if stop.Some? { e := stop.value; return; }
      subject := RevisionOf(cycle);
      cycle := cycle + 1;
    }
  }

  lemma NothingAsked(w: Routing)
    ensures CondensingsOk([], []) && RoutesFound(Calls([], []), w) && GoneOnWith([], 0) && GoneOnWith([], -1)
  {
  }

  lemma FewerGoneOnWith(revisions: seq<Asked>, n: int)
    requires GoneOnWith(revisions, n)
    ensures GoneOnWith(revisions, n - 1)
  {
  }

  lemma ReviewerFound(calls: Calls, w: Routing)
    requires RoutesFound(calls, w) && w.reviewer(|calls.reviews|)
    ensures forall asked: Calls ::
              |asked.reviews| == |calls.reviews| + 1 && asked.revisions == calls.revisions ==> RoutesFound(asked, w)
  {
  }

  lemma ReviserFound(calls: Calls, w: Routing)
    requires RoutesFound(calls, w) && w.reviser(|calls.revisions|)
    ensures forall asked: Calls ::
              asked.reviews == calls.reviews && |asked.revisions| == |calls.revisions| + 1 ==> RoutesFound(asked, w)
  {
  }

  lemma OneMoreRevision(before: seq<Asked>, after: seq<Asked>)
    requires GoneOnWith(before, |before|) && |after| == |before| + 1 && after[..|before|] == before
    ensures GoneOnWith(after, |before|)
    ensures IsCompleted(after[|before|]) ==> GoneOnWith(after, |after|)
  {
    forall k | 0 <= k < |before| ensures IsCompleted(after[k]) {
      assert after[k] == after[..|before|][k];
    }
  }

  lemma OneMoreCondensed(condensed: seq<Condensed>, applied: seq<bool>, d: Condensed)
    requires CondensingsOk(condensed, applied) && |condensed| == |applied|
    requires CondensedAs(d) && d.id == CompactOf(|condensed| + 1) && d.subject == RevisionOf(|condensed| + 1)
    ensures CondensingsOk(condensed + [d], if d.ok then applied + [d.applied] else applied)
  {
    hide CondensedAs;
  }

  lemma StartsAtOrigin(origin: Id)
    ensures Nth(origin, 0) == origin && forall k: nat :: k > 0 ==> Nth(origin, k) == RevisionOf(k)
  {
  }

  lemma NotEnded(e: Ending, log: seq<Cycle>, maxCycles: int)
    requires !e.Ended?
    ensures maxCycles >= 0 ==> EndingOk(e, log, maxCycles)
  {
  }

  /** What the loop may report after its last review. */
  lemma HowItEnds(log: seq<Cycle>, maxCycles: nat)
    requires log != []
    ensures var last := log[|log| - 1];
            && (last.decision != Revise ==> EndingOk(Ended(last.subject, Decided(last.decision)), log, maxCycles))
            && (last.decision == Revise ==>
                  && EndingOk(Ended(last.subject, ReviseUnavailable), log, maxCycles)
                  && EndingOk(Ended(last.subject, RevisionIncomplete), log, maxCycles))
  {
  }

  lemma NoLineage(s: Store, replaced: set<Id>, origin: Id)
    ensures LineageOk(s, replaced, origin, 0)
  {
  }

  lemma LineageShorter(s: Store, replaced: set<Id>, origin: Id, n: nat)
    requires n > 0 && LineageOk(s, replaced, origin, n)
    ensures LineageOk(s, replaced, origin, n - 1)
  {
  }

  lemma Replaced(replaced: set<Id>, k: nat, maxCycles: int)
    requires 1 <= k < maxCycles && CompactOf(k) in replaced
    ensures ContextReplaced(replaced, maxCycles)
  {
  }

  // ---------------------------------------------------------------- what an answer says

  /** A revision is asked for after a review exactly when another cycle is permitted, the review was
      completed, its declaration is readable and free of contradictions, and it asks for work. */
  lemma RevisesExactlyWhen(log: seq<Cycle>, origin: Id, maxCycles: nat, applied: seq<bool>, k: nat)
    requires LogOk(log, origin, maxCycles, applied) && k < |log|
    ensures var c := log[k];
            c.decision == Revise <==>
              && k + 1 < maxCycles && c.state == CompletedRun && IsReadable(c.declared)
              && (forall x :: !Contradicts(c.declared.value, x))
              && c.declared.value.verdict != Verified && c.declared.value.verdict != NeedsClarification
  {
    hide Contradicts, Nth;
    assert CycleOk(log[k], k, origin, maxCycles, applied);
  }

  /** The loop stops for a decision exactly when the last review has what that decision takes. */
  lemma StopsExactlyWhen(e: Ending, log: seq<Cycle>, origin: Id, maxCycles: nat, applied: seq<bool>, d: Decision)
    requires LogOk(log, origin, maxCycles, applied) && EndingOk(e, log, maxCycles) && e.Ended?
    ensures log != []
    ensures d != Revise && !d.Incoherent? ==>
              (e.stopped == Decided(d) <==>
                 var last := log[|log| - 1];
                 Warranted(d, last.declared, ReviewStateOf(last.state), |log|, maxCycles))
    ensures e.stopped.Decided? && e.stopped.decision.Incoherent? <==>
              var last := log[|log| - 1];
              && last.state == CompletedRun && IsReadable(last.declared)
              && exists x :: Contradicts(last.declared.value, x)
  {
    hide Contradicts, IsReadable, Nth;
    var last := log[|log| - 1];
    assert CycleOk(last, |log| - 1, origin, maxCycles, applied);
    if Warranted(d, last.declared, ReviewStateOf(last.state), |log|, maxCycles) {
      OneIsWarranted(d, last.decision, last.declared, ReviewStateOf(last.state), |log|, maxCycles);
    }
  }

  /** Stopping as verified is backed by a completed review, declared on the objective, with no
      blocker anywhere in what was declared. */
  lemma VerifiedIsBacked(e: Ending, log: seq<Cycle>, origin: Id, maxCycles: nat, applied: seq<bool>)
    requires LogOk(log, origin, maxCycles, applied) && EndingOk(e, log, maxCycles)
    requires e.Ended? && e.stopped == Decided(IsVerified)
    ensures log != []
    ensures var last := log[|log| - 1];
            && last.state == CompletedRun && last.subject == e.finalSubject
            && last.declared.Some? && last.declared.value.verdict == Verified
            && last.declared.value.onObjective == Some(true)
            && forall i :: 0 <= i < |Listed(last.declared.value.findings)| ==>
                 Listed(last.declared.value.findings)[i].severity != Blocker
  {
    var last := log[|log| - 1];
    assert CycleOk(last, |log| - 1, origin, maxCycles, applied);
    assert !Contradicts(last.declared.value, OffObjective) && !Contradicts(last.declared.value, WithBlocker);
    var on := last.declared.value.onObjective;
    assert on == Some(on.value) && if on.value then on == Some(true) else on == Some(false);
    hide T.Trim;
  }

  /** Following the stored links `n` times from `id`. */
  function Traced(s: Store, id: Id, n: nat): Option<Id>
    decreases n
  {
    if n == 0 then Some(id)
    else if id in s && s[id].reviews.Some? then Traced(s, s[id].reviews.value, n - 1)
    else None
  }

  lemma {:induction false} TracesBack(s: Store, replaced: set<Id>, origin: Id, n: nat)
    requires LineageOk(s, replaced, origin, n)
    requires forall k :: 0 < k <= n ==> RevisionOf(k) in s && RevisionOf(k) !in replaced
    ensures Traced(s, Nth(origin, n), n) == Some(origin)
    decreases n
  {
    if n == 0 {
    } else {
      LineageShorter(s, replaced, origin, n);
      TracesBack(s, replaced, origin, n - 1);
    }
  }

  /** What is reported as final is what the last review judged, and unless somebody else has
      removed or replaced a revision, the links stored with it lead from it back through every
      revision to the artifact the loop began with. */
  lemma FinalTracesBack(e: Ending, log: seq<Cycle>, t: Store, replaced: set<Id>, origin: Id, maxCycles: nat,
      applied: seq<bool>)
    requires LogOk(log, origin, maxCycles, applied) && EndingOk(e, log, maxCycles) && e.Ended?
    requires log != [] ==> LineageOk(t, replaced, origin, |log| - 1)
    requires forall k :: 0 < k < |log| ==> RevisionOf(k) in t && RevisionOf(k) !in replaced
    ensures log != [] && e.finalSubject == log[|log| - 1].subject
    ensures Traced(t, e.finalSubject, |log| - 1) == Some(origin)
    ensures forall k :: 0 <= k < |log| ==> Traced(t, log[k].subject, k) == Some(origin)
  {
    hide Warranted, LineageOk;
    forall k | 0 <= k < |log| ensures Traced(t, log[k].subject, k) == Some(origin) {
      assert CycleOk(log[k], k, origin, maxCycles, applied);
      LineageUpTo(t, replaced, origin, |log| - 1, k);
      TracesBack(t, replaced, origin, k);
    }
  }

  lemma LineageUpTo(s: Store, replaced: set<Id>, origin: Id, n: nat, m: nat)
    requires m <= n && LineageOk(s, replaced, origin, n)
    ensures LineageOk(s, replaced, origin, m)
  {
  }

  /** What gets a call refused: any ended run with text, stored by somebody else under the name of the
      context, unless it is a completed and applied compaction of the very subject. */
  lemma StrangerIsRefused(s: Store, id: Id, subject: Id, k: nat, a: Stored)
    requires id !in s && Loadable(s, subject) && id != CompactOf(k) && subject != CompactOf(k)
    requires a.state != UnfinishedRun && a.hasText
    ensures BadContext(s[CompactOf(k) := a], id, subject, Some(CompactOf(k))) <==>
              !(a.compactRole && a.compaction && a.state == CompletedRun && a.reviews == Some(subject))
  {
  }

  /** The loop gives up as unconverged exactly when the last permitted review is readable,
      complete and coherent and still asks for work. */
  lemma UnconvergedAtTheLimit(e: Ending, log: seq<Cycle>, origin: Id, maxCycles: nat, applied: seq<bool>)
    requires LogOk(log, origin, maxCycles, applied) && EndingOk(e, log, maxCycles) && e.Ended? && |log| <= maxCycles
    ensures e.stopped == Decided(Unconverged) <==>
              && |log| == maxCycles
              && var last := log[|log| - 1];
                 && last.state == CompletedRun && IsReadable(last.declared)
                 && (forall c :: !Contradicts(last.declared.value, c))
                 && last.declared.value.verdict != Verified && last.declared.value.verdict != NeedsClarification
  {
    hide Contradicts, Nth;
    StopsExactlyWhen(e, log, origin, maxCycles, applied, Unconverged);
  }
}
