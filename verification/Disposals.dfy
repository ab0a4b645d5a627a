/**
 The teardown of a child as the events of a run show it: called once, settled once and after
 that, and its result settled, before anybody lets go of the child.
 */
module Disposals {
  import opened Wrappers
  import opened Admission
  import opened Dispatch
  import D = Dispatch

  /** What has happened to the newest child of a call: how often its own dispose was called, how often
      such a call settled, and whether its result has arrived. */
  datatype Past = Past(called: nat, settled: nat, arrived: bool)

  function PastOf(evs: seq<Event>, key: Key): Past {
    if evs == [] then Past(0, 0, false) else
    var p := PastOf(evs[..|evs| - 1], key);
    match evs[|evs| - 1]
    case Started(k) => if k == key then Past(0, 0, false) else p
    case DisposeCalled(k) => if k == key then p.(called := p.called + 1) else p
    case DisposeSettles(k) => if k == key then p.(settled := p.settled + 1) else p
    case ResultArrives(k) => if k == key then p.(arrived := true) else p
    case _ => p
  }

  predicate AsInPast(c: Child, p: Past) {
    && c.calls == p.called && (c.resultSettled <==> p.arrived)
    && p.called == (if c.disposal == Called || c.disposal == Settled then 1 else 0)
    && p.settled == (if c.disposal == Settled then 1 else 0)
  }

  predicate PastOk(evs: seq<Event>, d: Dispatcher) {
    forall key :: key in d.calls && d.calls[key].child.Some? ==> AsInPast(d.calls[key].child.value, PastOf(evs, key))
  }

  lemma PastMore(evs: seq<Event>, ev: Event, key: Key)
    ensures PastOf(evs + [ev], key) ==
              var p := PastOf(evs, key);
              match ev
              case Started(k) => if k == key then Past(0, 0, false) else p
              case DisposeCalled(k) => if k == key then p.(called := p.called + 1) else p
              case DisposeSettles(k) => if k == key then p.(settled := p.settled + 1) else p
              case ResultArrives(k) => if k == key then p.(arrived := true) else p
              case _ => p
  {
    assert (evs + [ev])[..|evs|] == evs;
  }

  lemma PastStep(evs: seq<Event>, d: Dispatcher, ev: Event)
    requires PastOk(evs, d) && Enabled(d, ev)
    ensures PastOk(evs + [ev], Apply(d, ev))
  {
    hide PastOf, Abort, Reserve, Release, Close, Allowed, MayDelete, Verdict, Referenced;
    var t := Apply(d, ev);
    forall key | key in t.calls && t.calls[key].child.Some?
      ensures AsInPast(t.calls[key].child.value, PastOf(evs + [ev], key)) {
      PastMore(evs, ev, key);
    }
  }

  lemma {:induction false} PastOfRun(before: seq<Event>, d: Dispatcher, evs: seq<Event>, t: Dispatcher)
    requires PastOk(before, d) && D.IsRun(d, evs, t)
    ensures PastOk(before + evs, t)
    decreases |evs|
  {
    hide PastOk, Enabled, Apply;
    if evs == [] {
      assert before + [] == before;
    } else {
      PastStep(before, d, evs[0]);
      PastOfRun(before + [evs[0]], Apply(d, evs[0]), evs[1..], t);
      assert before + [evs[0]] + evs[1..] == before + evs;
    }
  }

  /** Over every run: a child is let go only after its own dispose was called exactly once, that call
      has settled, and its result has arrived; and the call settles only after it was made. */
  lemma LetGoInOrder(evs: seq<Event>, d: Dispatcher, key: Key, ev: Event)
    requires D.IsRun(FRESH, evs, d) && Enabled(d, ev) && key in d.calls && d.calls[key].child.Some?
    ensures ev == TornDown(key) || ev == Left(key) ==> PastOf(evs, key) == Past(1, 1, true)
    ensures ev == DisposeSettles(key) ==> PastOf(evs, key).called == 1 && PastOf(evs, key).settled == 0
    ensures ev == DisposeCalled(key) ==> PastOf(evs, key).called == 0
    ensures PastOf(evs, key).settled <= PastOf(evs, key).called <= 1
  {
    PastOfRun([], FRESH, evs, d);
    assert [] + evs == evs;
    hide PastOf, Verdict, Allowed, MayDelete, Referenced, D.IsRun;
    assert AsInPast(d.calls[key].child.value, PastOf(evs, key));
  }

  /** A deletion can always end, and then others may be admitted again. */
  lemma DeletionCanEnd(d: Dispatcher)
    requires OwnersOk(d) && d.deletion != NoDeletion
    ensures Enabled(d, ForgetOver)
    ensures var t := Apply(d, ForgetOver);
            t.deletion == NoDeletion && !t.gate.deleting && t.gate.leases == d.gate.leases
  {
  }
}
