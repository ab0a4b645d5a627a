/**
 The agent dispatcher as its callers, its children and its store see it: every delegate or
 compact call is a small program that waits often, and any event may come at any wait.
 What is followed here is who owns which child, and which stored assignment names which.
 */
module Dispatch {
  import opened Wrappers
  import opened Admission

  // ---------------------------------------------------------------- state

  /** The memoized teardown of one child. */
  datatype Disposal = NotBegun | Scheduled | Called | Settled

  /** The `number`th child the host started.  `calls` counts how often its own `dispose` was
      invoked. */
  datatype Child = Child(number: nat, disposal: Disposal, calls: nat, resultSettled: bool)

  datatype Phase =
    | Waiting                 // for the lease to become ready
    | Checking                // loading the subject and the context it will name
    | Recorded                // its assignment is stored, no child at the moment
    | Starting                // the host was asked for a child
    | Watching                // it owns a child
    | Tearing(again: bool)    // a round is over: waiting for result and teardown
    | Closing                 // the final clean-up

  datatype Call = Call(ticket: nat, phase: Phase, refs: set<Key>, child: Option<Child>)

  datatype Deletion = NoDeletion | Reading(target: Key, force: bool) | Cleared(target: Key)

  /** `launched` counts the children ever started and `retired` lists those that were let go;
      `awaited` holds the leases the last call of the dispatcher's dispose waits for. */
  datatype Dispatcher = Dispatcher(gate: State, calls: map<Key, Call>, store: map<Key, set<Key>>,
                                   deletion: Deletion, launched: nat, retired: seq<Child>, awaited: set<nat>)

  datatype Event =
    | Reserved(key: Key, parentAborted: bool, queue: bool)
    | Ready(key: Key)
    | Loaded(key: Key, ref: Key)
    | Stored(key: Key)
    | Launched(key: Key)
    | Started(key: Key)
    | ResultArrives(key: Key)
    | RoundOver(key: Key, again: bool)
    | TornDown(key: Key)
    | Stopped(key: Key)
    | Failed(key: Key)
    | Left(key: Key)
    | Aborted(key: Key)
    | DisposeCalled(key: Key)
    | DisposeSettles(key: Key)
    | Forget(target: Key, force: bool)
    | Scanned
    | Removed
    | ForgetOver
    | Disposed

  const FRESH := Dispatcher(EMPTY, map[], map[], NoDeletion, 0, [], {})

  // ---------------------------------------------------------------- events

  /** `begin`: the first caller schedules the teardown, later ones share it. */
  function Begin(c: Child): Child { if c.disposal == NotBegun then c.(disposal := Scheduled) else c }

  function BeginIfAny(c: Option<Child>): Option<Child> { if c.Some? then Some(Begin(c.value)) else None }

  predicate Quiet(c: Option<Child>) { c.Some? ==> c.value.resultSettled && c.value.disposal == Settled }

  predicate Referenced(store: map<Key, set<Key>>, target: Key) {
    exists k :: k in store && target in store[k]
  }

  predicate CallMay(d: Dispatcher, c: Call, ev: Event) {
    match ev
    case Ready(key) => c.phase == Waiting && key in d.gate.leases && d.gate.leases[key].status != Pending
    case Loaded(_, ref) => c.phase == Checking && ref in d.store
    case Stored(key) => c.phase == Checking && key !in d.store
    case Launched(_) => c.phase == Recorded
    case Started(key) => c.phase == Starting && key in d.gate.leases
    case ResultArrives(_) => c.child.Some?
    case RoundOver(_, _) => c.phase == Watching && c.child.Some? && c.child.value.resultSettled
    case TornDown(_) => c.phase.Tearing? && Quiet(c.child) && c.child.Some?
    case Stopped(_) => c.phase == Recorded
    case Failed(key) => c.phase != Waiting && c.phase != Closing && key in d.gate.leases
    case Left(key) => c.phase == Closing && Quiet(c.child) && Allowed(d.gate, DoRelease(key, c.ticket))
    case Aborted(key) => key in d.gate.leases
    case DisposeCalled(_) => c.child.Some? && c.child.value.disposal == Scheduled
    case DisposeSettles(_) => c.child.Some? && c.child.value.disposal == Called
    case _ => false
  }

  predicate Enabled(d: Dispatcher, ev: Event) {
    match ev
    case Reserved(key, parentAborted, queue) => Verdict(d.gate, key, parentAborted, queue) == Granted
    case Forget(_, _) => MayDelete(d.gate)
    case Scanned =>
      d.deletion.Reading? && d.deletion.target in d.store &&
      (d.deletion.force || !Referenced(d.store, d.deletion.target))
    case Removed => d.deletion.Cleared?
    case ForgetOver => d.deletion != NoDeletion
    case Disposed => true
    case _ => ev.key in d.calls && CallMay(d, d.calls[ev.key], ev)
  }

  function Put(d: Dispatcher, key: Key, c: Call): Dispatcher { d.(calls := d.calls[key := c]) }

  function OnCall(d: Dispatcher, c: Call, ev: Event): Dispatcher
    requires CallMay(d, c, ev)
  {
    match ev
    case Ready(key) =>
      // `ready` rejected, or the signal fired before the caller came back.
      if d.gate.leases[key].status == Cancelled || d.gate.leases[key].aborted then Put(d, key, c.(phase := Closing))
      else Put(d, key, c.(phase := Checking))
    case Loaded(key, ref) => Put(d, key, c.(refs := c.refs + {ref}))
    case Stored(key) => Put(d, key, c.(phase := Recorded)).(store := d.store[key := c.refs])
    case Launched(key) => Put(d, key, c.(phase := Starting))
    case Started(key) =>
      var child := Child(d.launched, NotBegun, 0, false);
      Put(d, key, c.(phase := Watching, child := Some(if d.gate.leases[key].aborted then Begin(child) else child)))
        .(launched := d.launched + 1)
    case ResultArrives(key) => Put(d, key, c.(child := Some(c.child.value.(resultSettled := true))))
    case RoundOver(key, again) => Put(d, key, c.(phase := Tearing(again), child := BeginIfAny(c.child)))
    case TornDown(key) =>
      Put(d, key, c.(phase := if c.phase.again then Recorded else Closing, child := None))
        .(retired := d.retired + [c.child.value])
    case Stopped(key) => Put(d, key, c.(phase := Closing)) // no further round is started
    case Failed(key) => Put(d, key, c.(phase := Closing, child := BeginIfAny(c.child))).(gate := Abort(d.gate, key))
    case Left(key) =>
      d.(calls := d.calls - {key}, gate := Release(d.gate, key, c.ticket),
         retired := if c.child.Some? then d.retired + [c.child.value] else d.retired)
    case Aborted(key) => Put(d, key, c.(child := BeginIfAny(c.child))).(gate := Abort(d.gate, key))
    case DisposeCalled(key) =>
      Put(d, key, c.(child := Some(c.child.value.(disposal := Called, calls := c.child.value.calls + 1))))
    case DisposeSettles(key) => Put(d, key, c.(child := Some(c.child.value.(disposal := Settled))))
  }

  function Apply(d: Dispatcher, ev: Event): Dispatcher
    requires Enabled(d, ev)
  {
    match ev
    case Reserved(key, _, _) =>
      Put(d, key, Call(d.gate.next, Waiting, {}, None)).(gate := Reserve(d.gate, key))
    case Forget(target, force) => d.(gate := d.gate.(deleting := true), deletion := Reading(target, force))
    case Scanned => d.(deletion := Cleared(d.deletion.target))
    case Removed => d.(store := d.store - {d.deletion.target})
    case ForgetOver => d.(gate := d.gate.(deleting := false), deletion := NoDeletion)
    case Disposed =>
      d.(gate := Close(d.gate), awaited := set k | k in d.gate.leases :: d.gate.leases[k].ticket,
         calls := map k | k in d.calls :: d.calls[k].(child := BeginIfAny(d.calls[k].child)))
    case _ => OnCall(d, d.calls[ev.key], ev)
  }

  predicate IsRun(d: Dispatcher, evs: seq<Event>, t: Dispatcher)
    decreases |evs|
  {
    if evs == [] then d == t else Enabled(d, evs[0]) && IsRun(Apply(d, evs[0]), evs[1..], t)
  }

  /** The promise returned by the dispatcher's dispose has resolved. */
  predicate DisposeResolved(d: Dispatcher) {
    d.gate.closed && d.deletion == NoDeletion && forall k :: k in d.gate.leases ==>
      d.gate.leases[k].ticket !in d.awaited
  }

  // ---------------------------------------------------------------- invariants

  /** Teardown is invoked exactly when it was begun and its turn came, and never twice. */
  predicate ChildOk(c: Child) { c.calls == if c.disposal == Called || c.disposal == Settled then 1 else 0 }

  predicate Gone(c: Child) { c.calls == 1 && c.disposal == Settled && c.resultSettled }

  predicate CallOk(lease: Lease, c: Call) {
    && c.ticket == lease.ticket
    && (lease.status == Pending ==> c.phase == Waiting)
    && (c.phase != Waiting && c.phase != Closing ==> lease.status == Active)
    && (c.child.Some? ==>
          && lease.status == Active && ChildOk(c.child.value)
          && (c.phase == Watching || c.phase.Tearing? || c.phase == Closing)
          && (lease.aborted || c.phase != Watching ==> c.child.value.disposal != NotBegun))
  }

  ghost predicate OwnersOk(d: Dispatcher) {
    && Inv(d.gate) && d.calls.Keys == d.gate.leases.Keys
    && (forall k :: k in d.calls ==> CallOk(d.gate.leases[k], d.calls[k]))
    && (forall i :: 0 <= i < |d.retired| ==> Gone(d.retired[i]))
    && (d.deletion != NoDeletion <==> d.gate.deleting)
    && (d.gate.closed ==> forall k :: k in d.gate.leases ==> d.gate.leases[k].ticket in d.awaited)
  }

  /** Every name in a stored assignment, and every name a call is about to store, is the name
      of a stored assignment. */
  predicate LinksOk(d: Dispatcher) {
    && Linked(d.store)
    && (forall k :: k in d.calls && d.calls[k].phase == Checking ==> d.calls[k].refs <= d.store.Keys)
    && (forall k :: k in d.calls && d.calls[k].phase == Waiting ==> d.calls[k].refs == {})
    && (d.deletion.Cleared? ==> !Referenced(d.store, d.deletion.target))
  }

  predicate Linked(store: map<Key, set<Key>>) { forall k :: k in store ==> store[k] <= store.Keys }

  // ---------------------------------------------------------------- how the gate moves other leases

  /** Draining only ever moves leases out of the line. */
  predicate LeasesMove(a: map<Key, Lease>, b: map<Key, Lease>) {
    a.Keys == b.Keys &&
    forall k :: k in a ==>
      && b[k].ticket == a[k].ticket && b[k].aborted == a[k].aborted
      && (a[k].status != Pending ==> b[k].status == a[k].status)
  }

  lemma {:induction false} DrainMoves(s: State)
    requires Settling(s) && InLine(s)
    ensures LeasesMove(s.leases, Drain(s).leases) && Drain(s).closed == s.closed && Drain(s).deleting == s.deleting
    decreases |s.pending|
  {
    if s.closed || s.active >= SLOTS || s.pending == [] {
    } else {
      assert IsPending(s, s.pending[0]);
      ActivateOk(s, s.pending[0]);
      DrainMoves(Activate(s.(pending := s.pending[1..]), s.pending[0]));
    }
  }

  lemma ReleaseMoves(s: State, key: Key)
    requires Inv(s) && key in s.leases && s.leases[key].status != Pending
    ensures Allowed(s, DoRelease(key, s.leases[key].ticket))
    ensures var t := Release(s, key, s.leases[key].ticket);
            Inv(t) && LeasesMove(s.leases - {key}, t.leases) && t.closed == s.closed && t.deleting == s.deleting
  {
    ReleaseOk(s, key, s.leases[key].ticket);
    var t := s.(leases := s.leases - {key},
      active := if s.leases[key].status == Active then s.active - 1 else s.active);
    assert ActiveKeys(t) == ActiveKeys(s) - {key};
    ForgetOk(s, t, key);
    DrainMoves(t);
  }

  lemma AbortMoves(s: State, key: Key)
    requires Inv(s) && key in s.leases
    ensures var t := Abort(s, key);
            && Inv(t) && t.leases.Keys == s.leases.Keys && t.closed == s.closed && t.deleting == s.deleting
            && t.leases[key].aborted && t.leases[key].ticket == s.leases[key].ticket
            && t.leases[key].status == (if s.leases[key].status == Pending then Cancelled else s.leases[key].status)
            && forall k :: k in s.leases && k != key ==> t.leases[k] == s.leases[k]
  {
    AbortOk(s, key);
  }

  // ---------------------------------------------------------------- every event keeps ownership

  lemma FreshOk()
    ensures OwnersOk(FRESH) && LinksOk(FRESH) && AccountOk(FRESH)
  {
    EmptyOk();
  }

  /** An event of one call that leaves the gate alone. */
  lemma OneCallOk(d: Dispatcher, t: Dispatcher, key: Key, c: Call)
    requires OwnersOk(d) && key in d.calls && CallOk(d.gate.leases[key], c)
    requires t.gate == d.gate && t.calls == d.calls[key := c] && t.deletion == d.deletion && t.awaited == d.awaited
    requires t.retired == d.retired
             || (|t.retired| == |d.retired| + 1 && t.retired[..|d.retired|] == d.retired
                  && Gone(t.retired[|d.retired|]))
    ensures OwnersOk(t)
  {
    hide Inv;
    forall i | 0 <= i < |t.retired| ensures Gone(t.retired[i]) {
      if i < |d.retired| {
        assert t.retired[i] == t.retired[..|d.retired|][i] == d.retired[i];
      }
    }
  }

  lemma AbortingOk(d: Dispatcher, key: Key, c: Call)
    requires OwnersOk(d) && key in d.calls && CallOk(Abort(d.gate, key).leases[key], c)
    ensures OwnersOk(Put(d, key, c).(gate := Abort(d.gate, key)))
  {
    AbortMoves(d.gate, key);
    hide Inv, Abort;
  }

  lemma LeftOk(d: Dispatcher, key: Key)
    requires OwnersOk(d) && key in d.calls && CallMay(d, d.calls[key], Left(key))
    ensures OwnersOk(OnCall(d, d.calls[key], Left(key)))
  {
    var c, t := d.calls[key], OnCall(d, d.calls[key], Left(key));
    assert CallOk(d.gate.leases[key], c);
    ReleaseMoves(d.gate, key);
    hide Inv, Release, Allowed;
    forall k | k in t.calls ensures CallOk(t.gate.leases[k], t.calls[k]) {
      assert CallOk(d.gate.leases[k], d.calls[k]);
    }
    forall i | 0 <= i < |t.retired| ensures Gone(t.retired[i]) {
      assert i < |d.retired| ==> t.retired[i] == d.retired[i];
    }
  }

  lemma ReservedOk(d: Dispatcher, key: Key, parentAborted: bool, queue: bool)
    requires OwnersOk(d) && Enabled(d, Reserved(key, parentAborted, queue))
    ensures OwnersOk(Apply(d, Reserved(key, parentAborted, queue)))
  {
    ReserveOk(d.gate, key, parentAborted, queue);
    hide Inv;
  }

  lemma DisposedOk(d: Dispatcher)
    requires OwnersOk(d)
    ensures OwnersOk(Apply(d, Disposed))
  {
    CloseOk(d.gate);
    hide Inv;
    var t := Apply(d, Disposed);
    forall k | k in t.calls ensures CallOk(t.gate.leases[k], t.calls[k]) {
      assert CallOk(d.gate.leases[k], d.calls[k]);
    }
  }

  lemma OnCallOk(d: Dispatcher, ev: Event, key: Key)
    requires OwnersOk(d) && key in d.calls && CallMay(d, d.calls[key], ev)
    requires ev == Ready(key) || ev == Stored(key) || ev == Stopped(key) || ev == Launched(key) || ev == Started(key)
             || ev == TornDown(key) ||
             ev == ResultArrives(key) || ev == DisposeCalled(key) || ev == DisposeSettles(key) ||
             (ev.Loaded? && ev.key == key) || (ev.RoundOver? && ev.key == key)
    ensures OwnersOk(OnCall(d, d.calls[key], ev))
  {
    hide Inv;
    assert CallOk(d.gate.leases[key], d.calls[key]);
    var t := OnCall(d, d.calls[key], ev);
    OneCallOk(d, t, key, t.calls[key]);
  }

  lemma DeletionOk(d: Dispatcher, ev: Event)
    requires OwnersOk(d) && Enabled(d, ev) && (ev.Forget? || ev.ForgetOver? || ev.Scanned? || ev.Removed?)
    ensures OwnersOk(Apply(d, ev))
  {
    hide Inv;
    if ev.Forget? || ev.ForgetOver? {
      DeletingOk(d.gate, d.gate.(deleting := ev.Forget?));
    }
  }

  lemma AbortedOk(d: Dispatcher, ev: Event)
    requires OwnersOk(d) && Enabled(d, ev) && (ev.Aborted? || ev.Failed?)
    ensures OwnersOk(Apply(d, ev))
  {
    hide Inv;
    var key := ev.key;
    assert CallOk(d.gate.leases[key], d.calls[key]);
    AbortMoves(d.gate, key);
    var c := d.calls[key].(child := BeginIfAny(d.calls[key].child));
    AbortingOk(d, key, if ev.Failed? then c.(phase := Closing) else c);
  }

  /** The whole ownership invariant survives every event. */
  lemma OwnersStep(d: Dispatcher, ev: Event)
    requires OwnersOk(d) && Enabled(d, ev)
    ensures OwnersOk(Apply(d, ev))
  {
    hide OwnersOk, CallMay;
    if ev.Reserved? {
      ReservedOk(d, ev.key, ev.parentAborted, ev.queue);
    } else if ev.Disposed? {
      DisposedOk(d);
    } else if ev.Left? {
      LeftOk(d, ev.key);
    } else if ev.Forget? || ev.ForgetOver? || ev.Scanned? || ev.Removed? {
      DeletionOk(d, ev);
    } else if ev.Aborted? || ev.Failed? {
      AbortedOk(d, ev);
    } else {
      OnCallOk(d, ev, ev.key);
    }
  }

  // ---------------------------------------------------------------- every event keeps account of the children

  function ChildKeys(d: Dispatcher): set<Key> { set k | k in d.calls && d.calls[k].child.Some? }

  predicate RetiredAs(retired: seq<Child>, n: nat) { exists i :: 0 <= i < |retired| && retired[i].number == n }

  predicate OwnedAs(d: Dispatcher, n: nat) { exists k :: k in ChildKeys(d) && d.calls[k].child.value.number == n }

  /** Every child ever started is either still owned by a call or was let go, and there are no
      others. */
  predicate AccountOk(d: Dispatcher) {
    && d.launched == |d.retired| + |ChildKeys(d)|
    && forall n :: 0 <= n < d.launched ==> RetiredAs(d.retired, n) || OwnedAs(d, n)
  }

  predicate SameNumbers(d: Dispatcher, t: Dispatcher, keys: set<Key>) {
    forall k :: k in keys ==>
      k in d.calls && k in t.calls && d.calls[k].child.Some? && t.calls[k].child.Some? &&
      t.calls[k].child.value.number == d.calls[k].child.value.number
  }

  lemma SameAccount(d: Dispatcher, t: Dispatcher)
    requires AccountOk(d) && t.launched == d.launched && t.retired == d.retired
    requires ChildKeys(t) == ChildKeys(d) && SameNumbers(d, t, ChildKeys(d))
    ensures AccountOk(t)
  {
    forall n | 0 <= n < t.launched ensures RetiredAs(t.retired, n) || OwnedAs(t, n) {
      assert RetiredAs(d.retired, n) || OwnedAs(d, n);
    }
  }

  lemma StartAccount(d: Dispatcher, t: Dispatcher, key: Key)
    requires AccountOk(d) && t.launched == d.launched + 1 && t.retired == d.retired
    requires key !in ChildKeys(d) && ChildKeys(t) == ChildKeys(d) + {key} && SameNumbers(d, t, ChildKeys(d))
    requires t.calls[key].child.value.number == d.launched
    ensures AccountOk(t)
  {
    forall n | 0 <= n < t.launched ensures RetiredAs(t.retired, n) || OwnedAs(t, n) {
      if n < d.launched {
        assert RetiredAs(d.retired, n) || OwnedAs(d, n);
      } else {
        assert key in ChildKeys(t);
      }
    }
  }

  lemma RetireAccount(d: Dispatcher, t: Dispatcher, key: Key)
    requires AccountOk(d) && t.launched == d.launched && key in ChildKeys(d)
    requires t.retired == d.retired + [d.calls[key].child.value]
    requires ChildKeys(t) == ChildKeys(d) - {key} && SameNumbers(d, t, ChildKeys(t))
    ensures AccountOk(t)
  {
    forall n | 0 <= n < t.launched ensures RetiredAs(t.retired, n) || OwnedAs(t, n) {
      if RetiredAs(d.retired, n) {
        var i :| 0 <= i < |d.retired| && d.retired[i].number == n;
        assert t.retired[i].number == n;
      } else {
        var k :| k in ChildKeys(d) && d.calls[k].child.value.number == n;
        if k == key {
          assert t.retired[|d.retired|].number == n;
        } else {
          assert k in ChildKeys(t);
        }
      }
    }
  }

  lemma CallFacts(d: Dispatcher, key: Key)
    requires OwnersOk(d) && key in d.calls
    ensures key in d.gate.leases && CallOk(d.gate.leases[key], d.calls[key])
  {
    hide Inv;
  }

  /** What an event does to the children. */
  lemma ChildrenAfter(d: Dispatcher, ev: Event, key: Key)
    requires key in d.calls && CallMay(d, d.calls[key], ev)
    requires key in d.gate.leases && CallOk(d.gate.leases[key], d.calls[key])
    requires !ev.Reserved? && !ev.Forget? && !ev.Scanned? && !ev.Removed? && !ev.ForgetOver? && !ev.Disposed?
             && ev.key == key
    ensures var c, t := d.calls[key], OnCall(d, d.calls[key], ev);
            && t.calls.Keys == (if ev.Left? then d.calls.Keys - {key} else d.calls.Keys)
            && (forall k :: k in t.calls && k != key ==> t.calls[k] == d.calls[k])
            && t.launched == d.launched + (if ev.Started? then 1 else 0)
            && t.retired == d.retired + (if (ev.TornDown? || ev.Left?) && c.child.Some? then [c.child.value] else [])
            && (ev.Started? ==>
                  c.child == None && t.calls[key].child.Some? && t.calls[key].child.value.number == d.launched)
            && (ev.TornDown? ==> c.child.Some? && t.calls[key].child == None)
            && (!ev.Started? && !ev.TornDown? && !ev.Left? ==>
                  && t.calls[key].child.Some? == c.child.Some?
                  && (c.child.Some? ==> t.calls[key].child.value.number == c.child.value.number))
  {
    hide Release, Abort, Allowed;
  }

  predicate OwnsChild(d: Dispatcher, key: Key) { key in d.calls && d.calls[key].child.Some? }

  lemma KeysAfter(d: Dispatcher, t: Dispatcher, key: Key)
    requires t.calls.Keys == d.calls.Keys || t.calls.Keys == d.calls.Keys - {key}
    requires forall k :: k in t.calls && k != key ==> t.calls[k] == d.calls[k]
    ensures ChildKeys(t) == if OwnsChild(t, key) then ChildKeys(d) + {key} else ChildKeys(d) - {key}
    ensures key in ChildKeys(d) <==> OwnsChild(d, key)
    ensures SameNumbers(d, t, ChildKeys(d) - {key})
    ensures OwnsChild(d, key) && OwnsChild(t, key)
            && t.calls[key].child.value.number == d.calls[key].child.value.number ==>
              SameNumbers(d, t, ChildKeys(d))
  {
  }

  lemma AccountOnCall(d: Dispatcher, ev: Event, key: Key)
    requires OwnersOk(d) && AccountOk(d) && key in d.calls && CallMay(d, d.calls[key], ev)
    requires !ev.Reserved? && !ev.Forget? && !ev.Scanned? && !ev.Removed? && !ev.ForgetOver? && !ev.Disposed?
             && ev.key == key
    ensures AccountOk(OnCall(d, d.calls[key], ev))
  {
    hide OwnersOk, CallOk, CallMay, OnCall, AccountOk, ChildKeys, SameNumbers;
    CallFacts(d, key);
    ChildrenAfter(d, ev, key);
    var t := OnCall(d, d.calls[key], ev);
    KeysAfter(d, t, key);
    if ev.Started? {
      assert ChildKeys(d) - {key} == ChildKeys(d);
      StartAccount(d, t, key);
    } else if (ev.TornDown? || ev.Left?) && OwnsChild(d, key) {
      RetireAccount(d, t, key);
    } else if OwnsChild(d, key) {
      assert ChildKeys(d) + {key} == ChildKeys(d);
      SameAccount(d, t);
    } else {
      assert ChildKeys(d) - {key} == ChildKeys(d);
      SameAccount(d, t);
    }
  }

  lemma AccountStep(d: Dispatcher, ev: Event)
    requires OwnersOk(d) && AccountOk(d) && Enabled(d, ev)
    ensures AccountOk(Apply(d, ev))
  {
    hide CallMay, OnCall, Release, Close, Reserve, AccountOk;
    if !ev.Reserved? && !ev.Forget? && !ev.Scanned? && !ev.Removed? && !ev.ForgetOver? && !ev.Disposed? {
      AccountOnCall(d, ev, ev.key);
    } else {
      var t := Apply(d, ev);
      assert ChildKeys(t) == ChildKeys(d);
      SameAccount(d, t);
    }
  }

  // ---------------------------------------------------------------- every event keeps the links

  predicate Unforced(ev: Event) { ev.Forget? ==> !ev.force }

  /** No forced deletion is under way. */
  predicate Gentle(d: Dispatcher) { d.deletion.Reading? ==> !d.deletion.force }

  /** While a deletion is under way nobody else is in the dispatcher. */
  lemma DeletingIsAlone(d: Dispatcher)
    requires OwnersOk(d) && d.deletion != NoDeletion
    ensures d.calls == map[]
  {
    assert d.calls.Keys == {};
  }

  lemma LinksOnCall(d: Dispatcher, ev: Event, key: Key)
    requires LinksOk(d) && d.deletion == NoDeletion && key in d.calls && CallMay(d, d.calls[key], ev)
    requires !ev.Reserved? && !ev.Forget? && !ev.Scanned? && !ev.Removed? && !ev.ForgetOver? && !ev.Disposed?
             && ev.key == key
    ensures LinksOk(OnCall(d, d.calls[key], ev)) && OnCall(d, d.calls[key], ev).deletion == NoDeletion
  {
    hide Release, Abort, Allowed;
  }

  lemma LinksStep(d: Dispatcher, ev: Event)
    requires OwnersOk(d) && LinksOk(d) && Gentle(d) && Enabled(d, ev) && Unforced(ev)
    ensures LinksOk(Apply(d, ev)) && Gentle(Apply(d, ev))
  {
    hide OwnersOk, CallMay, OnCall, Release, Close, Reserve;
    if d.deletion != NoDeletion {
      DeletingIsAlone(d);
    }
    if !ev.Reserved? && !ev.Forget? && !ev.Scanned? && !ev.Removed? && !ev.ForgetOver? && !ev.Disposed? {
      LinksOnCall(d, ev, ev.key);
    }
  }

  predicate AllUnforced(evs: seq<Event>) { forall i :: 0 <= i < |evs| ==> Unforced(evs[i]) }

  lemma {:induction false} RunOk(d: Dispatcher, evs: seq<Event>, t: Dispatcher)
    requires OwnersOk(d) && AccountOk(d) && IsRun(d, evs, t)
    ensures OwnersOk(t) && AccountOk(t)
    ensures LinksOk(d) && Gentle(d) && AllUnforced(evs) ==> LinksOk(t)
    decreases |evs|
  {
    if evs == [] {
    } else {
      OwnersStep(d, evs[0]);
      AccountStep(d, evs[0]);
      hide OwnersOk, AccountOk, Enabled, Apply, LinksOk, Gentle, Unforced;
      if LinksOk(d) && Gentle(d) && AllUnforced(evs) {
        LinksStep(d, evs[0]);
      }
      RunOk(Apply(d, evs[0]), evs[1..], t);
    }
  }

  // ---------------------------------------------------------------- what a run guarantees

  lemma SubsetSize(a: set<Key>, b: set<Key>)
    requires a <= b
    ensures |a| <= |b|
  {
    if a != {} {
      var k :| k in a;
      SubsetSize(a - {k}, b - {k});
    }
  }

  /** Child ownership, whatever races: every child ever started is owned by a call or was let
      go, at most two are owned at any moment; a child's own dispose is never called twice; and
      every child that was let go had it called exactly once and had settled its result and its
      teardown before. */
  lemma EveryChildIsDisposedOnce(evs: seq<Event>, d: Dispatcher)
    requires IsRun(FRESH, evs, d)
    ensures d.launched == |d.retired| + |ChildKeys(d)| && |ChildKeys(d)| <= SLOTS
    ensures forall n :: 0 <= n < d.launched ==> RetiredAs(d.retired, n) || OwnedAs(d, n)
    ensures forall k :: k in ChildKeys(d) ==> ChildOk(d.calls[k].child.value) && d.calls[k].child.value.calls <= 1
    ensures forall i :: 0 <= i < |d.retired| ==> Gone(d.retired[i])
    ensures forall k :: k in d.calls <==> k in d.gate.leases
  {
    FreshOk();
    RunOk(FRESH, evs, d);
    forall k | k in ChildKeys(d) ensures k in ActiveKeys(d.gate) {
      assert CallOk(d.gate.leases[k], d.calls[k]);
    }
    forall k | k in ChildKeys(d) ensures ChildOk(d.calls[k].child.value) {
      assert CallOk(d.gate.leases[k], d.calls[k]);
    }
    SubsetSize(ChildKeys(d), ActiveKeys(d.gate));
  }

  /** When the dispatcher's dispose promise has resolved, no call is left, and each child that
      was ever started was let go with its dispose called exactly once. */
  lemma DisposeDrains(evs: seq<Event>, d: Dispatcher)
    requires IsRun(FRESH, evs, d) && DisposeResolved(d)
    ensures d.calls == map[] && d.launched == |d.retired|
    ensures forall n :: 0 <= n < d.launched ==> RetiredAs(d.retired, n)
    ensures forall i :: 0 <= i < |d.retired| ==> Gone(d.retired[i])
  {
    FreshOk();
    RunOk(FRESH, evs, d);
    assert d.calls.Keys == {};
    assert ChildKeys(d) == {};
    forall n | 0 <= n < d.launched ensures RetiredAs(d.retired, n) {
      assert RetiredAs(d.retired, n) || OwnedAs(d, n);
    }
  }

  /** Referential integrity: as long as nobody forces a deletion, every name a stored
      assignment mentions is the name of a stored assignment. */
  lemma StoredLinksResolve(evs: seq<Event>, d: Dispatcher)
    requires IsRun(FRESH, evs, d) && AllUnforced(evs)
    ensures Linked(d.store)
  {
    FreshOk();
    RunOk(FRESH, evs, d);
  }

  /** A removal keeps the links exactly when no other assignment names what is removed, which
      is what an unforced deletion checks and a forced one does not. */
  lemma RemovalKeepsLinksIff(store: map<Key, set<Key>>, target: Key)
    requires Linked(store)
    ensures Linked(store - {target}) <==> !Referenced(store - {target}, target)
  {
    var rest := store - {target};
    forall k | k in rest ensures rest[k] <= rest.Keys <==> target !in rest[k] {
    }
  }

  // ---------------------------------------------------------------- a forced deletion

  lemma {:induction false} RunJoin(d: Dispatcher, evs: seq<Event>, t: Dispatcher, more: seq<Event>, u: Dispatcher)
    requires IsRun(d, evs, t) && IsRun(t, more, u)
    ensures IsRun(d, evs + more, u)
    decreases |evs|
  {
    hide Enabled, Apply;
    if evs == [] {
      assert evs + more == more;
    } else {
      RunJoin(Apply(d, evs[0]), evs[1..], t, more, u);
      assert (evs + more)[1..] == evs[1..] + more;
    }
  }

  lemma RunOne(d: Dispatcher, ev: Event)
    requires Enabled(d, ev)
    ensures IsRun(d, [ev], Apply(d, ev))
  {
    hide Enabled, Apply;
    assert [ev][1..] == [];
    assert IsRun(Apply(d, ev), [ev][1..], Apply(d, ev));
  }

  predicate Idle(d: Dispatcher) {
    && d.calls == map[] && d.gate.leases == map[] && d.gate.pending == [] && d.gate.active == 0
    && !d.gate.closed && !d.gate.deleting && d.deletion == NoDeletion
  }

  /** One assignment without a subject is recorded and its call fails at once. */
  lemma StoresOne(d: Dispatcher, key: Key) returns (evs: seq<Event>, t: Dispatcher)
    requires Idle(d) && key !in d.store
    ensures IsRun(d, evs, t) && Idle(t) && t.store == d.store[key := {}] && AllUnforced(evs)
  {
    var a := Admits(d, key);
    t := Records(a, key, {});
    evs := [Reserved(key, false, false), Ready(key)] + [Stored(key), Failed(key), Left(key)];
    RunJoin(d, [Reserved(key, false, false), Ready(key)], a, [Stored(key), Failed(key), Left(key)], t);
  }

  /** The same, naming a stored subject. */
  lemma StoresLink(d: Dispatcher, key: Key, ref: Key) returns (evs: seq<Event>, t: Dispatcher)
    requires Idle(d) && key !in d.store && ref in d.store
    ensures IsRun(d, evs, t) && Idle(t) && t.store == d.store[key := {ref}] && AllUnforced(evs)
  {
    var a := Admits(d, key);
    var b := Apply(a, Loaded(key, ref));
    RunOne(a, Loaded(key, ref));
    t := Records(b, key, {ref});
    var first, last := [Reserved(key, false, false), Ready(key)], [Stored(key), Failed(key), Left(key)];
    evs := (first + [Loaded(key, ref)]) + last;
    RunJoin(d, first, a, [Loaded(key, ref)], b);
    RunJoin(d, first + [Loaded(key, ref)], b, last, t);
  }

  predicate Alone(d: Dispatcher, key: Key, phase: Phase, refs: set<Key>) {
    && d.calls.Keys == {key} && d.gate.leases.Keys == {key} && d.gate.pending == [] && d.gate.active == 1
    && !d.gate.closed && !d.gate.deleting && d.deletion == NoDeletion
    && d.calls[key] == Call(d.gate.leases[key].ticket, phase, refs, None) && d.gate.leases[key].status == Active
  }

  lemma Admits(d: Dispatcher, key: Key) returns (t: Dispatcher)
    requires Idle(d)
    ensures IsRun(d, [Reserved(key, false, false), Ready(key)], t) && Alone(t, key, Checking, {}) && t.store == d.store
  {
    var a := Apply(d, Reserved(key, false, false));
    RunOne(d, Reserved(key, false, false));
    t := Apply(a, Ready(key));
    RunOne(a, Ready(key));
    RunJoin(d, [Reserved(key, false, false)], a, [Ready(key)], t);
    assert [Reserved(key, false, false)] + [Ready(key)] == [Reserved(key, false, false), Ready(key)];
  }

  lemma Records(d: Dispatcher, key: Key, refs: set<Key>) returns (t: Dispatcher)
    requires Alone(d, key, Checking, refs) && key !in d.store
    ensures IsRun(d, [Stored(key), Failed(key), Left(key)], t) && Idle(t) && t.store == d.store[key := refs]
  {
    var a := Apply(d, Stored(key));
    RunOne(d, Stored(key));
    var b := Apply(a, Failed(key));
    RunOne(a, Failed(key));
    t := Leaves(b, key, refs);
    RunJoin(d, [Stored(key)], a, [Failed(key)], b);
    RunJoin(d, [Stored(key)] + [Failed(key)], b, [Left(key)], t);
    assert [Stored(key)] + [Failed(key)] + [Left(key)] == [Stored(key), Failed(key), Left(key)];
  }

  lemma Leaves(d: Dispatcher, key: Key, refs: set<Key>) returns (t: Dispatcher)
    requires Alone(d, key, Closing, refs)
    ensures IsRun(d, [Left(key)], t) && Idle(t) && t.store == d.store
  {
    t := Apply(d, Left(key));
    RunOne(d, Left(key));
    assert t.calls.Keys == {} && t.gate.leases.Keys == {};
  }

  lemma Forces(d: Dispatcher, target: Key) returns (t: Dispatcher)
    requires Idle(d) && target in d.store
    ensures IsRun(d, [Forget(target, true), Scanned, Removed], t) && t.store == d.store - {target}
  {
    var a := Apply(d, Forget(target, true));
    RunOne(d, Forget(target, true));
    var b := Apply(a, Scanned);
    RunOne(a, Scanned);
    t := Apply(b, Removed);
    RunOne(b, Removed);
    RunJoin(d, [Forget(target, true)], a, [Scanned], b);
    RunJoin(d, [Forget(target, true)] + [Scanned], b, [Removed], t);
    assert [Forget(target, true)] + [Scanned] + [Removed] == [Forget(target, true), Scanned, Removed];
  }

  /** A run in which assignment 2 names assignment 1 and a forced deletion then removes 1: the
      stored link of 2 resolves no more. */
  lemma ForcedDeletionBreaksLinks() returns (evs: seq<Event>, forced: seq<Event>, d: Dispatcher)
    ensures AllUnforced(evs) && forced == [Forget(1, true), Scanned, Removed] && IsRun(FRESH, evs + forced, d)
    ensures 2 in d.store && d.store[2] == {1} && 1 !in d.store && !Linked(d.store)
  {
    var e1, d1 := StoresOne(FRESH, 1);
    var e2, d2 := StoresLink(d1, 2, 1);
    evs := e1 + e2;
    RunJoin(FRESH, e1, d1, e2, d2);
    forced := [Forget(1, true), Scanned, Removed];
    d := Forces(d2, 1);
    RunJoin(FRESH, evs, d2, forced, d);
  }
}
