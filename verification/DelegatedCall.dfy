/**
 One delegate call (agent-dispatch.mjs) as code, in step with the dispatcher around it: the field
 `world` is the dispatcher as everyone sees it, each stretch between two waits performs events of
 this call, and at each wait the other calls, the children, aborts and deletions go first.
 */
module DelegatedCall {
  import opened Wrappers
  import A = Admission
  import D = Dispatch
  import opened Delegation

  type Key = A.Key

  // ---------------------------------------------------------------- runs of the dispatcher

  lemma {:induction false} RunAppend(s: D.Dispatcher, evs: seq<D.Event>, t: D.Dispatcher, ev: D.Event)
    requires D.IsRun(s, evs, t) && D.Enabled(t, ev)
    ensures D.IsRun(s, evs + [ev], D.Apply(t, ev))
  {
    hide D.Enabled, D.Apply;
    D.RunOne(t, ev);
    D.RunJoin(s, evs, t, [ev], D.Apply(t, ev));
  }

  /** The history `after` goes on from `before`, and its new events lead from `s` to `t`. */
  predicate Extends(s: D.Dispatcher, before: seq<D.Event>, t: D.Dispatcher, after: seq<D.Event>) {
    before <= after && D.IsRun(s, after[|before|..], t)
  }

  lemma ExtendsOne(s: D.Dispatcher, evs: seq<D.Event>, ev: D.Event)
    requires D.Enabled(s, ev)
    ensures Extends(s, evs, D.Apply(s, ev), evs + [ev])
  {
    hide D.Enabled, D.Apply;
    D.RunOne(s, ev);
    assert (evs + [ev])[|evs|..] == [ev];
  }

  lemma ExtendsTransitive(s: D.Dispatcher, a: seq<D.Event>, t: D.Dispatcher, b: seq<D.Event>, u: D.Dispatcher,
      c: seq<D.Event>)
    requires Extends(s, a, t, b) && Extends(t, b, u, c)
    ensures Extends(s, a, u, c)
  {
    hide D.IsRun;
    D.RunJoin(s, b[|a|..], t, c[|b|..], u);
    assert c[|a|..] == b[|a|..] + c[|b|..];
  }

  /** From here on, whatever extends an extension of this history extends it. */
  lemma Onward(s: D.Dispatcher, a: seq<D.Event>)
    ensures Extends(s, a, s, a)
    ensures forall t, b, u, c :: Extends(s, a, t, b) && Extends(t, b, u, c) ==> Extends(s, a, u, c)
  {
    assert a[|a|..] == [];
    hide Extends;
    forall t, b, u, c | Extends(s, a, t, b) && Extends(t, b, u, c) ensures Extends(s, a, u, c) {
      ExtendsTransitive(s, a, t, b, u, c);
    }
  }

  /** How many children the call `key` was given. */
  function Starts(evs: seq<D.Event>, key: Key): nat {
    if evs == [] then 0 else Starts(evs[..|evs| - 1], key) + if evs[|evs| - 1] == D.Started(key) then 1 else 0
  }

  lemma StartsOne(evs: seq<D.Event>, ev: D.Event, key: Key)
    ensures Starts(evs + [ev], key) == Starts(evs, key) + if ev == D.Started(key) then 1 else 0
  {
    assert (evs + [ev])[..|evs|] == evs;
  }

  // ---------------------------------------------------------------- what the others can do to a call

  /** The events that the code of call `key` itself performs. */
  predicate Own(ev: D.Event, key: Key) {
    match ev
    case Reserved(k, _, _) => k == key
    case Ready(k) => k == key
    case Loaded(k, _) => k == key
    case Stored(k) => k == key
    case Launched(k) => k == key
    case Started(k) => k == key
    case RoundOver(k, _) => k == key
    case TornDown(k) => k == key
    case Stopped(k) => k == key
    case Failed(k) => k == key
    case Left(k) => k == key
    case _ => false
  }

  function Stage(x: D.Disposal): nat {
    match x case NotBegun => 0 case Scheduled => 1 case Called => 2 case Settled => 3
  }

  /** The same child, perhaps further on its way. */
  predicate Ahead(a: Option<D.Child>, b: Option<D.Child>) {
    && a.Some? == b.Some?
    && (a.Some? ==>
          && b.value.number == a.value.number && Stage(a.value.disposal) <= Stage(b.value.disposal)
          && (a.value.resultSettled ==> b.value.resultSettled))
  }

  predicate Stays(s: D.Dispatcher, t: D.Dispatcher, key: Key) {
    && key in s.calls && key in t.calls && t.calls[key] == s.calls[key].(child := t.calls[key].child)
    && Ahead(s.calls[key].child, t.calls[key].child)
    && (key in t.store ==> key in s.store)
  }

  lemma StaysTransitive(a: D.Dispatcher, b: D.Dispatcher, c: D.Dispatcher, key: Key)
    requires Stays(a, b, key) && Stays(b, c, key)
    ensures Stays(a, c, key)
  {
  }

  /** Others never move this call; at most they bring its child further or abort it. */
  lemma OthersStay(d: D.Dispatcher, ev: D.Event, key: Key)
    requires D.Enabled(d, ev) && !Own(ev, key) && key in d.calls
    ensures Stays(d, D.Apply(d, ev), key)
  {
    hide A.Release, A.Abort, A.Close, A.Reserve, A.Allowed, A.Verdict, A.MayDelete, D.Referenced;
  }

  lemma Reachable(evs: seq<D.Event>, d: D.Dispatcher)
    requires D.IsRun(D.FRESH, evs, d)
    ensures D.OwnersOk(d) && D.AccountOk(d)
  {
    hide D.OwnersOk, D.AccountOk, D.IsRun;
    D.FreshOk();
    D.RunOk(D.FRESH, evs, d);
  }

  // ---------------------------------------------------------------- the call

  /** What a call is refused for: an abort while it waited, a name that is taken or unknown, one of the
      other checks, or the store. */
  datatype Refused = AbortedWaiting | NameTaken | UnknownName(name: Key) | NotAdmitted | NotStored

  class Call {
    const key: Key
    const ticket: nat
    var world: D.Dispatcher
    ghost var events: seq<D.Event>

    /** The world is what some run of the whole dispatcher leads to, and the call is part of it. */
    ghost predicate Reached()
      reads `world, `events
    {
      && D.IsRun(D.FRESH, events, world) && D.OwnersOk(world)
      && key in world.calls && world.calls[key].ticket == ticket && key in world.gate.leases
    }

    ghost predicate At(phase: D.Phase, held: bool)
      reads `world, `events
    {
      Reached() && world.calls[key].phase == phase && world.calls[key].child.Some? == held
    }

    /** The call is over: nothing of it is left but its stored assignment. */
    ghost predicate Gone()
      reads `world, `events
    {
      D.IsRun(D.FRESH, events, world) && (key in world.calls ==> world.calls[key].ticket != ticket)
    }

    constructor (key: Key, world: D.Dispatcher, ghost events: seq<D.Event>)
      requires D.IsRun(D.FRESH, events, world) && key in world.calls
      ensures Reached() && this.key == key && this.world == world && this.events == events
    {
      Reachable(events, world);
      KeyHasLease(world, key);
      this.key, this.ticket, this.world, this.events := key, world.calls[key].ticket, world, events;
      hide D.IsRun, D.OwnersOk, D.AccountOk;
    }

    method Step(ev: D.Event)
      requires Reached() && D.Enabled(world, ev) && !(ev.Left? && ev.key == key)
      modifies `world, `events
      ensures Reached() && world == D.Apply(old(world), ev) && events == old(events) + [ev]
      ensures Extends(old(world), old(events), world, events)
    {
      hide D.Enabled, D.Apply, D.IsRun, D.OwnersOk, D.AccountOk, Extends;
      ExtendsOne(world, events, ev);
      RunAppend(D.FRESH, events, world, ev);
      CallRemains(world, ev, key);
      world, events := D.Apply(world, ev), events + [ev];
      Reachable(events, world);
      KeyHasLease(world, key);
    }

    /** A wait: the other calls, the children, aborts and deletions take any number of steps. */
    method Others()
      requires Reached()
      modifies `world, `events
      ensures Reached() && Stays(old(world), world, key) && Starts(events, key) == Starts(old(events), key)
      ensures Extends(old(world), old(events), world, events)
    {
      hide D.Enabled, D.Apply, D.IsRun, D.OwnersOk, Extends, Starts;
      Onward(world, events);
      StaysItself(world, key);
      var n: int := *;
      while n > 0
        invariant Reached() && Stays(old(world), world, key) && Starts(events, key) == Starts(old(events), key)
        invariant Extends(old(world), old(events), world, events)
      {
        var ev: D.Event := *;
        if !Own(ev, key) && D.Enabled(world, ev) {
          OthersStay(world, ev, key);
          StaysTransitive(old(world), world, D.Apply(world, ev), key);
          StartsOne(events, ev, key);
          Step(ev);
        }
        n := n - 1;
      }
    }

    /** The result of the child arrives at some time. */
    method AwaitResult()
      requires At(D.Watching, true) || At(D.Closing, true)
      modifies `world, `events
      ensures At(old(world).calls[key].phase, true) && world.calls[key].child.value.resultSettled
      ensures Stays(old(world), world, key) && Starts(events, key) == Starts(old(events), key)
      ensures Extends(old(world), old(events), world, events)
    {
      hide D.IsRun, D.OwnersOk, Extends, Starts;
      Onward(world, events);
      Others();
      if !world.calls[key].child.value.resultSettled {
        var ev := D.ResultArrives(key);
        ghost var before := world;
        OthersStay(world, ev, key);
        StaysTransitive(old(world), world, D.Apply(world, ev), key);
        StartsOne(events, ev, key);
        Step(ev);
      }
    }

    /** Once begun, the teardown of the child settles at some time. */
    method AwaitDisposal()
      requires Reached() && world.calls[key].child.Some? && world.calls[key].child.value.disposal != D.NotBegun
      modifies `world, `events
      ensures At(old(world).calls[key].phase, true) && world.calls[key].child.value.disposal == D.Disposal.Settled
      ensures Stays(old(world), world, key) && Starts(events, key) == Starts(old(events), key)
      ensures Extends(old(world), old(events), world, events)
    {
      hide D.IsRun, D.OwnersOk, Extends, Starts;
      Onward(world, events);
      StaysItself(world, key);
      while world.calls[key].child.value.disposal != D.Disposal.Settled
        invariant At(old(world).calls[key].phase, true) && Stays(old(world), world, key)
        invariant Starts(events, key) == Starts(old(events), key) && Extends(old(world), old(events), world, events)
        decreases 3 - Stage(world.calls[key].child.value.disposal)
      {
        ghost var before := world;
        Others();
        StaysTransitive(old(world), before, world, key);
        if world.calls[key].child.value.disposal != D.Disposal.Settled {
          var ev := if world.calls[key].child.value.disposal == D.Scheduled then D.DisposeCalled(key)
            else D.DisposeSettles(key);
          OthersStay(world, ev, key);
          StaysTransitive(old(world), world, D.Apply(world, ev), key);
          StartsOne(events, ev, key);
          Step(ev);
        }
      }
    }

    /** A round is over: the child is disposed, and let go unless its disposal fails. */
    method TearDown(again: bool, closes: bool)
      requires At(D.Watching, true) && world.calls[key].child.value.resultSettled
      modifies `world, `events
      ensures if closes then At(if again then D.Recorded else D.Closing, false) else At(D.Tearing(again), true)
      ensures Starts(events, key) == Starts(old(events), key) && Extends(old(world), old(events), world, events)
    {
      hide D.IsRun, D.OwnersOk, Extends, Starts;
      Onward(world, events);
      StartsOne(events, D.RoundOver(key, again), key);
      Step(D.RoundOver(key, again));
      AwaitDisposal();
      if closes {
        StartsOne(events, D.TornDown(key), key);
        Step(D.TornDown(key));
      }
    }

    /** Whatever was thrown: the lease is aborted, and a child still held is on its way out. */
    method Fail()
      requires Reached() && world.calls[key].phase != D.Waiting && world.calls[key].phase != D.Closing
      modifies `world, `events
      ensures Reached() && world.calls[key].phase == D.Closing && world.store == old(world).store
      ensures Starts(events, key) == Starts(old(events), key) && Extends(old(world), old(events), world, events)
    {
      hide D.IsRun, D.OwnersOk, Extends, Starts;
      StartsOne(events, D.Failed(key), key);
      Step(D.Failed(key));
    }

    /** The end of the call: a child still held has to settle before the lease is released. */
    method Leave()
      requires Reached() && world.calls[key].phase == D.Closing
      modifies `world, `events
      ensures Gone()
      ensures Starts(events, key) == Starts(old(events), key) && Extends(old(world), old(events), world, events)
    {
      hide D.IsRun, D.OwnersOk, Extends, Starts, D.Enabled, D.Apply;
      Onward(world, events);
      Others();
      if world.calls[key].child.Some? {
        AwaitResult();
        ClosingIsBegun(world, key);
        AwaitDisposal();
      }
      var ev := D.Left(key);
      MayLeave(world, key);
      StartsOne(events, ev, key);
      ExtendsOne(world, events, ev);
      RunAppend(D.FRESH, events, world, ev);
      world, events := D.Apply(world, ev), events + [ev];
    }

    // ---------------------------------------------------------------- up to the stored assignment

    /** The call is refused for the reason given. */
    ghost predicate RefusedFor(why: Refused, subject: Option<Key>, context: Option<Key>)
      reads `world, `events
    {
      && Reached() && world.calls[key].phase == D.Closing
      && (why == NameTaken ==> key in world.store)
      && (why.UnknownName? ==>
            why.name !in world.store && (subject == Some(why.name) || context == Some(why.name)))
    }

    /** A name the assignment will carry is looked up; an unknown one ends the call. */
    method LoadName(name: Option<Key>) returns (ok: bool)
      requires At(D.Checking, false)
      modifies `world, `events
      ensures ok ==> At(D.Checking, false) && world.calls[key].refs == old(world).calls[key].refs + NameSet(name)
      ensures ok ==> key in world.store ==> key in old(world).store
      ensures !ok ==> name.Some? && RefusedFor(UnknownName(name.value), name, None)
      ensures Starts(events, key) == Starts(old(events), key) && Extends(old(world), old(events), world, events)
    {
      hide D.IsRun, D.OwnersOk, Extends, Starts;
      Onward(world, events);
      Others();
      if name == None { return true; }
      if name.value !in world.store {
        Fail();
        return false;
      }
      StartsOne(events, D.Loaded(key, name.value), key);
      Step(D.Loaded(key, name.value));
      return true;
    }

    method LoadNames(subject: Option<Key>, context: Option<Key>) returns (no: Option<Refused>)
      requires At(D.Checking, false) && key !in world.store && world.calls[key].refs == {}
      modifies `world, `events
      ensures no == None ==>
                && At(D.Checking, false) && key !in world.store
                && world.calls[key].refs == NameSet(subject) + NameSet(context)
      ensures no.Some? ==> no.value.UnknownName? && RefusedFor(no.value, subject, context)
      ensures Starts(events, key) == Starts(old(events), key) && Extends(old(world), old(events), world, events)
    {
      hide D.IsRun, D.OwnersOk, Extends, Starts;
      Onward(world, events);
      var known := LoadName(subject);
      if !known { return Some(UnknownName(subject.value)); }
      known := LoadName(context);
      if !known { return Some(UnknownName(context.value)); }
      return None;
    }

    /** From the granted lease to the stored assignment, before any child is asked for; or what the call
        is refused for.  `admitted` tells whether all is well besides the names, `saved` whether the store
        takes the assignment. */
    method Enter(subject: Option<Key>, context: Option<Key>, admitted: bool, saved: bool) returns (no: Option<Refused>)
      requires At(D.Waiting, false) && world.gate.leases[key].status != A.Pending && world.calls[key].refs == {}
      modifies `world, `events
      ensures no == None ==>
                At(D.Recorded, false) && key in world.store && world.store[key] == NameSet(subject) + NameSet(context)
      ensures no.Some? ==> RefusedFor(no.value, subject, context)
      ensures (no == None ==> admitted && saved) && (no == Some(NotAdmitted) ==> !admitted)
              && (no == Some(NotStored) ==> !saved)
      ensures no == Some(AbortedWaiting) <==>
                var lease := old(world).gate.leases[key]; lease.status == A.Cancelled || lease.aborted
      ensures Starts(events, key) == Starts(old(events), key) && Extends(old(world), old(events), world, events)
    {
      hide D.IsRun, D.OwnersOk, Extends, Starts, D.Enabled, D.Apply;
      Onward(world, events);
      ReadyNow(world, key);
      StartsOne(events, D.Ready(key), key);
      Step(D.Ready(key));
      if world.calls[key].phase == D.Closing { return Some(AbortedWaiting); }
      Others();
      if key in world.store {
        Fail();
        return Some(NameTaken);
      }
      if !admitted {
        Fail();
        return Some(NotAdmitted);
      }
      no := LoadNames(subject, context);
      if no.Some? { return; }
      if !saved {
        Fail();
        return Some(NotStored);
      }
      StoredNow(world, key);
      StartsOne(events, D.Stored(key), key);
      Step(D.Stored(key));
      return None;
    }

    /** The whole call: refused, or run to an outcome; in the end nothing of it is left over. */
    method Run(p: Plan, subject: Option<Key>, context: Option<Key>) returns (r: Option<Delegation.Run>, threw: bool)
      requires At(D.Waiting, false) && world.gate.leases[key].status != A.Pending && world.calls[key].refs == {}
      requires p.maxRounds >= 1
      modifies `world, `events
      ensures Gone() && (r.Some? ==> Outcome(p, r.value, threw)) && (r == None ==> threw)
      ensures Starts(events, key) - Starts(old(events), key) == if r.Some? then |r.value.started| else 0
      ensures Extends(old(world), old(events), world, events)
    {
      hide D.IsRun, D.OwnersOk, Extends, Starts, Outcome;
      Onward(world, events);
      var admitted, saved := *, *;
      var no := Enter(subject, context, admitted, saved);
      if no == None {
        var run;
        run, threw := Delegate(p);
        return Some(run), threw;
      }
      Leave();
      return None, true;
    }

    // ---------------------------------------------------------------- the round loop

    /** One turn of the loop. */
    method Attempt(p: Plan, r0: Run, index: int) returns (r: Run, step: Delegation.Step)
      requires Ready(p, r0, index) && index < p.maxRounds && At(D.Recorded, false)
      modifies `world, `events
      ensures step == FellOver ==> Ready(p, r, index) && |r.standby| < |r0.standby|
      ensures step == Continued ==> Ready(p, r, index + 1) && r.standby == r0.standby && index + 1 < p.maxRounds
      ensures step == Delegation.Stopped || step == Threw ==>
                Over(p, r, index) && (step == Delegation.Stopped ==> Finished(p, r))
      ensures step == Threw <==> r.trouble.Some?
      ensures match step
              case FellOver => At(D.Recorded, false)
              case Continued => At(D.Recorded, false)
              case Stopped => At(D.Closing, false)
              case Threw =>
                if r.trouble == Some(NotDisposed) then At(D.Tearing(false), true)
                else if r.live then At(D.Watching, true) else At(D.Recorded, false)
      ensures |r.started| - |r0.started| == Starts(events, key) - Starts(old(events), key)
      ensures Extends(old(world), old(events), world, events)
    {
      hide Ready, Held, Over, Finished, D.IsRun, D.OwnersOk, Extends, Starts, D.Enabled, D.Apply;
      Onward(world, events);
      Others();
      var opening: Opening := *;
      r, step := Begin(p, r0, index, opening);
      RecordedNow(world, key);
      if step == Threw { return; }
      if step == Delegation.Stopped {
        StartsOne(events, D.Stopped(key), key);
        Step(D.Stopped(key));
        return;
      }
      StartsOne(events, D.Launched(key), key);
      Step(D.Launched(key));
      Others();
      StartedNow(world, key);
      StartsOne(events, D.Started(key), key);
      Step(D.Started(key));
      var saved;
      r, saved := NoteChild(p, r, index, r0.rounds);
      if !saved {
        step := Threw;
        return;
      }
      AwaitResult();
      var answer: Option<Reply>, taking: Taking := *, *;
      r, step := Answer(p, r, index, answer, taking, r0.rounds);
      if step == Threw {
        if r.trouble == Some(NotDisposed) {
          TearDown(false, false);
        } else if !r.live {
          TearDown(true, true); // the child is gone, but that could not be recorded
        }
        return;
      }
      TearDown(step != Delegation.Stopped, true);
    }

    /** The loop with its step back after a failover, and the handling of whatever it throws. */
    method Delegate(p: Plan) returns (r: Run, threw: bool)
      requires p.maxRounds >= 1 && At(D.Recorded, false)
      modifies `world, `events
      ensures Outcome(p, r, threw) && Gone()
      ensures |r.started| == Starts(events, key) - Starts(old(events), key)
      ensures Extends(old(world), old(events), world, events)
    {
      hide Over, Ready, Finished, Outcome, Broken, D.IsRun, D.OwnersOk, Extends, Starts;
      Onward(world, events);
      BegunOk(p);
      ReadyIsOver(p, Begun(p), 0);
      var index: int := 0;
      var hosted, saved;
      r, hosted := Try(p, Begun(p), index, NoHost);
      var step := if hosted then Continued else Threw;
      while step != Threw && index < p.maxRounds
        invariant 0 <= index < p.maxRounds && At(D.Recorded, false) && (step == Threw <==> r.trouble.Some?)
        invariant if step == Threw then Over(p, r, index) && !r.live else Ready(p, r, index)
        invariant |r.started| == Starts(events, key) - Starts(old(events), key)
        invariant Extends(old(world), old(events), world, events)
        decreases p.maxRounds - index + |r.standby|
      {
        r, step := Attempt(p, r, index);
        if step == Threw || step == Delegation.Stopped { break; }
        if step == FellOver { index := index - 1; } // this round did not run
        index := index + 1;
      }
      if step == Threw {
        Fail();
      } else {
        r, saved := Try(p, r, index, NotSaved);
      }
      threw := r.trouble.Some?;
      if threw {
        BrokenOk(p, r, index);
        BrokenKeeps(r);
        r := Broken(r);
      } else {
        NotHeld(p, r);
      }
      OutcomeOk(p, r, index, threw);
      Leave();
    }
  }

  function NameSet(name: Option<Key>): set<Key> { if name.Some? then {name.value} else {} }

  lemma ReadyNow(d: D.Dispatcher, key: Key)
    requires key in d.calls && key in d.gate.leases && d.calls[key].phase == D.Waiting
             && d.gate.leases[key].status != A.Pending
    ensures D.Enabled(d, D.Ready(key))
    ensures var t := D.Apply(d, D.Ready(key));
            && t.store == d.store && key in t.calls
            && (t.calls[key].phase == D.Closing || t.calls[key].phase == D.Checking)
            && (t.calls[key].phase == D.Closing <==>
                  d.gate.leases[key].status == A.Cancelled || d.gate.leases[key].aborted)
            && t.calls[key] == d.calls[key].(phase := t.calls[key].phase)
  {
  }

  lemma StoredNow(d: D.Dispatcher, key: Key)
    requires key in d.calls && d.calls[key].phase == D.Checking && key !in d.store
    ensures D.Enabled(d, D.Stored(key))
    ensures var t := D.Apply(d, D.Stored(key));
            && t.store == d.store[key := d.calls[key].refs] && key in t.calls
            && t.calls[key] == d.calls[key].(phase := D.Recorded)
  {
  }

  lemma RecordedNow(d: D.Dispatcher, key: Key)
    requires key in d.calls && d.calls[key].phase == D.Recorded
    ensures D.Enabled(d, D.Stopped(key)) && D.Enabled(d, D.Launched(key))
    ensures var t := D.Apply(d, D.Stopped(key)); key in t.calls && t.calls[key] == d.calls[key].(phase := D.Closing)
    ensures var t := D.Apply(d, D.Launched(key)); key in t.calls && t.calls[key] == d.calls[key].(phase := D.Starting)
  {
  }

  lemma StartedNow(d: D.Dispatcher, key: Key)
    requires key in d.calls && key in d.gate.leases && d.calls[key].phase == D.Starting
    ensures D.Enabled(d, D.Started(key))
    ensures var t := D.Apply(d, D.Started(key));
            key in t.calls && t.calls[key].phase == D.Watching && t.calls[key].child.Some?
  {
  }

  lemma StaysItself(d: D.Dispatcher, key: Key)
    requires key in d.calls
    ensures Stays(d, d, key)
  {
  }

  lemma KeyHasLease(d: D.Dispatcher, key: Key)
    requires D.OwnersOk(d)
    ensures key in d.calls <==> key in d.gate.leases
  {
    hide A.Inv;
    assert key in d.calls.Keys <==> key in d.gate.leases.Keys;
  }

  lemma CallRemains(d: D.Dispatcher, ev: D.Event, key: Key)
    requires D.OwnersOk(d) && D.Enabled(d, ev) && key in d.calls && !(ev.Left? && ev.key == key)
    ensures key in D.Apply(d, ev).calls && D.Apply(d, ev).calls[key].ticket == d.calls[key].ticket
  {
    KeyHasLease(d, key);
    hide D.OwnersOk;
    if Own(ev, key) {
      OwnKeepsTicket(d, ev, key);
    } else {
      hide D.Apply, D.Enabled;
      OthersStay(d, ev, key);
    }
  }

  lemma OwnKeepsTicket(d: D.Dispatcher, ev: D.Event, key: Key)
    requires D.Enabled(d, ev) && Own(ev, key) && !ev.Left? && key in d.calls && key in d.gate.leases
    ensures key in D.Apply(d, ev).calls && D.Apply(d, ev).calls[key].ticket == d.calls[key].ticket
  {
    hide A.Release, A.Abort, A.Close, A.Reserve, A.Allowed, A.MayDelete, D.Referenced;
  }

  lemma ClosingIsBegun(d: D.Dispatcher, key: Key)
    requires D.OwnersOk(d) && key in d.calls && d.calls[key].phase == D.Closing && d.calls[key].child.Some?
    ensures d.calls[key].child.value.disposal != D.NotBegun
  {
    D.CallFacts(d, key);
    hide D.OwnersOk;
  }

  lemma MayLeave(d: D.Dispatcher, key: Key)
    requires D.OwnersOk(d) && key in d.calls && d.calls[key].phase == D.Closing && D.Quiet(d.calls[key].child)
    ensures D.Enabled(d, D.Left(key)) && key !in D.Apply(d, D.Left(key)).calls
  {
    D.CallFacts(d, key);
    InvOf(d);
    D.ReleaseMoves(d.gate, key);
    hide D.OwnersOk, A.Inv, A.Release, A.Allowed;
  }

  lemma InvOf(d: D.Dispatcher)
    requires D.OwnersOk(d)
    ensures A.Inv(d.gate)
  {
    hide A.Inv;
  }

  lemma NotHeld(p: Plan, r: Run)
    requires Finished(p, r)
    ensures !r.live && r.trouble == None
  {
    hide EndsHere;
  }

  lemma BrokenKeeps(r: Run)
    ensures Broken(r).started == r.started
  {
    hide Interrupt;
  }
}
