/**
 Admission of child runs: two slots, eight places in line, first come first served, with
 cancellation, exclusive deletion and a draining close.
 */
module Admission {
  type Key = nat

  const SLOTS := 2
  const PLACES := 8

  datatype LeaseStatus = Pending | Active | Cancelled

  /** `ticket` numbers the reservations; `aborted` is the lease's own signal. */
  datatype Lease = Lease(ticket: nat, status: LeaseStatus, aborted: bool)

  /** `next`, `admitted` and `dropped` are a log: tickets handed out, tickets activated in
      order, tickets cancelled while they were in line. */
  datatype State = State(leases: map<Key, Lease>, pending: seq<Key>, active: int, closed: bool, deleting: bool,
                         next: nat, admitted: seq<nat>, dropped: set<nat>)

  datatype Refusal = Granted | OwnerRefused | AlreadyAborted | Busy | QueueFull

  const EMPTY := State(map[], [], 0, false, false, 0, [], {})

  // ---------------------------------------------------------------- the operations as functions

  function Verdict(s: State, key: Key, parentAborted: bool, queue: bool): Refusal {
    var wait := s.active >= SLOTS || s.pending != [];
    if s.closed then OwnerRefused
    else if parentAborted then AlreadyAborted
    else if s.deleting || key in s.leases then Busy
    else if wait && !queue then Busy
    else if wait && |s.pending| >= PLACES then QueueFull
    else Granted
  }

  function Activate(s: State, key: Key): State
    requires key in s.leases
  {
    s.(leases := s.leases[key := s.leases[key].(status := Active)], active := s.active + 1,
       admitted := s.admitted + [s.leases[key].ticket])
  }

  function Reserve(s: State, key: Key): State {
    var t := s.(leases := s.leases[key := Lease(s.next, Pending, false)], next := s.next + 1);
    if s.active >= SLOTS || s.pending != [] then t.(pending := s.pending + [key]) else Activate(t, key)
  }

  function Without(keys: seq<Key>, key: Key): (rest: seq<Key>)
    ensures |rest| <= |keys| && key !in rest
    ensures forall k :: k in rest <==> k in keys && k != key
  {
    if keys == [] then []
    else if keys[0] == key then Without(keys[1..], key)
    else [keys[0]] + Without(keys[1..], key)
  }

  function Cancel(s: State, key: Key): State
    requires key in s.leases
  {
    if s.leases[key].status != Pending then s else
    s.(leases := s.leases[key := s.leases[key].(status := Cancelled)], pending := Without(s.pending, key),
       dropped := s.dropped + {s.leases[key].ticket})
  }

  /** The lease's signal fires; cancelling is its first listener. */
  function Abort(s: State, key: Key): State
    requires key in s.leases
  {
    Cancel(s.(leases := s.leases[key := s.leases[key].(aborted := true)]), key)
  }

  predicate InLine(s: State) { forall k :: k in s.pending ==> k in s.leases }

  function Drain(s: State): State
    requires InLine(s)
    decreases |s.pending|
  {
    if s.closed || s.active >= SLOTS || s.pending == [] then s else
    var key := s.pending[0];
    var t := s.(pending := s.pending[1..]);
    Drain(if s.leases[key].aborted then Cancel(t, key) else Activate(t, key))
  }

  /** A second release of the same lease finds another ticket, or none, and does nothing.
      Both users release only after their lease was activated or cancelled. */
  function Release(s: State, key: Key, ticket: nat): State
    requires InLine(s)
    requires key in s.leases && s.leases[key].ticket == ticket ==> s.leases[key].status != Pending && key !in s.pending
  {
    if key !in s.leases || s.leases[key].ticket != ticket then s
    else Drain(s.(leases := s.leases - {key},
      active := if s.leases[key].status == Active then s.active - 1 else s.active))
  }

  predicate MayDelete(s: State) { !s.closed && !s.deleting && s.leases == map[] }

  function AbortAll(leases: map<Key, Lease>): map<Key, Lease> {
    map k | k in leases ::
      leases[k].(aborted := true, status := if leases[k].status == Pending then Cancelled else leases[k].status)
  }

  function PendingTickets(leases: map<Key, Lease>, keys: set<Key>): set<nat> {
    set k | k in keys && k in leases && leases[k].status == Pending :: leases[k].ticket
  }

  function Close(s: State): State {
    s.(closed := true, leases := AbortAll(s.leases), pending := [],
       dropped := s.dropped + PendingTickets(s.leases, s.leases.Keys))
  }

  // ---------------------------------------------------------------- invariant

  function ActiveKeys(s: State): set<Key> { set k | k in s.leases && s.leases[k].status == Active }

  predicate Distinct(keys: seq<Key>) { forall i, j :: 0 <= i < j < |keys| ==> keys[i] != keys[j] }

  /** Slots are counted right and never over-filled, and no slot is free while someone waits. */
  predicate SlotsOk(s: State) {
    && s.active == |ActiveKeys(s)| <= SLOTS
    && |s.pending| <= PLACES
    && (s.pending != [] ==> s.active == SLOTS && !s.closed)
    && (s.deleting ==> s.leases == map[])
  }

  predicate IsPending(s: State, k: Key) { k in s.leases && s.leases[k].status == Pending }

  /** Exactly the pending leases are in line, each once, in ticket order. */
  ghost predicate LineOk(s: State) {
    && Distinct(s.pending)
    && (forall k :: k in s.pending <==> IsPending(s, k))
    && (forall k :: IsPending(s, k) ==> !s.leases[k].aborted)
    && (forall i, j :: 0 <= i < j < |s.pending| ==> Earlier(s, s.pending[i], s.pending[j]))
  }

  predicate Earlier(s: State, a: Key, b: Key) {
    a in s.leases && b in s.leases && s.leases[a].ticket < s.leases[b].ticket
  }

  ghost predicate Waits(s: State, t: nat) { exists k :: IsPending(s, k) && s.leases[k].ticket == t }

  predicate AfterAdmitted(s: State, t: nat) { forall i :: 0 <= i < |s.admitted| ==> s.admitted[i] < t }

  ghost predicate Accounted(s: State, t: nat) {
    t in s.dropped || (exists i :: 0 <= i < |s.admitted| && s.admitted[i] == t) || Waits(s, t)
  }

  /** Every ticket ever handed out is in line, or was activated, or was dropped; activation
      follows ticket order, and everyone in line came after everyone activated. */
  ghost predicate TicketsOk(s: State) {
    && (forall k :: k in s.leases ==> s.leases[k].ticket < s.next)
    && (forall i :: 0 <= i < |s.admitted| ==> s.admitted[i] < s.next && s.admitted[i] !in s.dropped)
    && (forall i, j :: 0 <= i < j < |s.admitted| ==> s.admitted[i] < s.admitted[j])
    && (forall k :: IsPending(s, k) ==> AfterAdmitted(s, s.leases[k].ticket))
    && (forall k :: IsPending(s, k) ==> s.leases[k].ticket !in s.dropped)
    && (forall t :: 0 <= t < s.next ==> Accounted(s, t))
    && (forall t :: t in s.dropped ==> t < s.next)
  }

  ghost predicate Inv(s: State) { SlotsOk(s) && LineOk(s) && TicketsOk(s) }

  // ---------------------------------------------------------------- every operation keeps it

  lemma EmptyOk()
    ensures Inv(EMPTY)
  {
    assert ActiveKeys(EMPTY) == {};
  }

  /** Everything the invariant says except that a free slot is never left beside a waiter:
      what holds inside an operation, before the line is drained. */
  ghost predicate Settling(s: State) {
    && s.active == |ActiveKeys(s)| <= SLOTS && |s.pending| <= PLACES
    && (s.closed ==> s.pending == []) && (s.deleting ==> s.leases == map[])
    && LineOk(s) && TicketsOk(s)
  }

  lemma ActivateLine(s: State, key: Key)
    requires LineOk(s) && s.pending != [] && key == s.pending[0] && IsPending(s, key)
    ensures LineOk(Activate(s.(pending := s.pending[1..]), key))
    ensures forall k :: IsPending(s, k) && k != key ==> s.leases[key].ticket < s.leases[k].ticket
  {
    var t := Activate(s.(pending := s.pending[1..]), key);
    assert s.pending == [key] + t.pending;
    forall k ensures k in t.pending <==> IsPending(t, k) {
      assert k in s.pending <==> k == key || k in t.pending;
    }
    forall i, j | 0 <= i < j < |t.pending| ensures Earlier(t, t.pending[i], t.pending[j]) {
      assert Earlier(s, s.pending[i + 1], s.pending[j + 1]);
    }
    forall k | IsPending(s, k) && k != key ensures s.leases[key].ticket < s.leases[k].ticket {
      assert k in s.pending;
      var i :| 0 <= i < |s.pending| && s.pending[i] == k;
      assert Earlier(s, s.pending[0], s.pending[i]);
    }
  }

  lemma ActivateTickets(s: State, key: Key)
    requires TicketsOk(s) && IsPending(s, key) && s.pending != []
    requires forall k :: IsPending(s, k) && k != key ==> s.leases[key].ticket < s.leases[k].ticket
    ensures TicketsOk(Activate(s.(pending := s.pending[1..]), key))
  {
    var t := Activate(s.(pending := s.pending[1..]), key);
    forall k ensures IsPending(t, k) <==> IsPending(s, k) && k != key {
    }
    forall k | IsPending(t, k) ensures AfterAdmitted(t, t.leases[k].ticket) {
      assert AfterAdmitted(s, s.leases[k].ticket);
    }
    forall n | 0 <= n < t.next ensures Accounted(t, n) {
      assert Accounted(s, n);
      StaysAccounted(s, t, key, n);
    }
    assert AfterAdmitted(s, s.leases[key].ticket);
  }

  lemma StaysAccounted(s: State, t: State, key: Key, n: nat)
    requires Accounted(s, n) && IsPending(s, key) && t.dropped == s.dropped
    requires t.admitted == s.admitted + [s.leases[key].ticket]
    requires forall k :: IsPending(s, k) && k != key ==> IsPending(t, k) && t.leases[k].ticket == s.leases[k].ticket
    ensures Accounted(t, n)
  {
    if i :| 0 <= i < |s.admitted| && s.admitted[i] == n {
      assert t.admitted[i] == n;
    } else if n !in s.dropped {
      var k :| IsPending(s, k) && s.leases[k].ticket == n;
      assert t.admitted[|s.admitted|] == s.leases[key].ticket;
      assert k == key || IsPending(t, k);
    }
  }

  lemma ActivateOk(s: State, key: Key)
    requires Settling(s) && s.pending != [] && key == s.pending[0] && s.active < SLOTS && IsPending(s, key)
    ensures Settling(Activate(s.(pending := s.pending[1..]), key))
  {
    ActivateLine(s, key);
    ActivateTickets(s, key);
    hide LineOk, TicketsOk;
    assert ActiveKeys(Activate(s.(pending := s.pending[1..]), key)) == ActiveKeys(s) + {key};
  }

  lemma {:induction false} DrainOk(s: State)
    requires Settling(s)
    ensures Inv(Drain(s))
    decreases |s.pending|
  {
    if s.closed || s.active >= SLOTS || s.pending == [] {
    } else {
      var key := s.pending[0];
      assert IsPending(s, key);
      ActivateOk(s, key);
      DrainOk(Activate(s.(pending := s.pending[1..]), key));
    }
  }

  lemma ReleaseOk(s: State, key: Key, ticket: nat)
    requires Inv(s)
    requires key in s.leases && s.leases[key].ticket == ticket ==> s.leases[key].status != Pending
    ensures InLine(s)
    ensures key in s.leases && s.leases[key].ticket == ticket ==> key !in s.pending
    ensures Inv(Release(s, key, ticket))
  {
    if key in s.leases && s.leases[key].ticket == ticket {
      var t := s.(leases := s.leases - {key},
        active := if s.leases[key].status == Active then s.active - 1 else s.active);
      assert ActiveKeys(t) == ActiveKeys(s) - {key};
      ForgetOk(s, t, key);
      DrainOk(t);
    }
  }

  lemma ForgetOk(s: State, t: State, key: Key)
    requires LineOk(s) && TicketsOk(s) && !IsPending(s, key)
    requires t == s.(leases := s.leases - {key}, active := t.active)
    ensures LineOk(t) && TicketsOk(t)
  {
    forall k ensures IsPending(t, k) <==> IsPending(s, k) {
    }
    forall n | 0 <= n < t.next ensures Accounted(t, n) {
      assert Accounted(s, n);
      if Waits(s, n) {
        var k :| IsPending(s, k) && s.leases[k].ticket == n;
        assert IsPending(t, k);
      }
    }
    forall k | IsPending(t, k) ensures AfterAdmitted(t, t.leases[k].ticket) {
      assert AfterAdmitted(s, s.leases[k].ticket);
    }
    forall i, j | 0 <= i < j < |t.pending| ensures Earlier(t, t.pending[i], t.pending[j]) {
      assert Earlier(s, s.pending[i], s.pending[j]);
      assert s.pending[i] in s.pending && s.pending[j] in s.pending;
    }
  }

  lemma JoinOk(s: State, key: Key)
    requires LineOk(s) && TicketsOk(s) && key !in s.leases
    ensures var t := s.(leases := s.leases[key := Lease(s.next, Pending, false)], next := s.next + 1,
              pending := s.pending + [key]);
            LineOk(t) && TicketsOk(t)
  {
    var t := s.(leases := s.leases[key := Lease(s.next, Pending, false)], next := s.next + 1,
      pending := s.pending + [key]);
    forall k ensures IsPending(t, k) <==> IsPending(s, k) || k == key {
    }
    forall k ensures k in t.pending <==> k in s.pending || k == key {
    }
    forall i, j | 0 <= i < j < |t.pending| ensures Earlier(t, t.pending[i], t.pending[j]) {
      assert s.pending[i] in s.pending;
      assert j < |s.pending| ==> Earlier(s, s.pending[i], s.pending[j]);
    }
    forall n | 0 <= n < t.next ensures Accounted(t, n) {
      if n == s.next {
        assert IsPending(t, key);
      } else {
        assert Accounted(s, n);
      }
      if Waits(s, n) {
        var k :| IsPending(s, k) && s.leases[k].ticket == n;
        assert IsPending(t, k);
      }
    }
  }

  /** The name joins the line. */
  function Joined(s: State, key: Key): State {
    s.(leases := s.leases[key := Lease(s.next, Pending, false)], next := s.next + 1, pending := s.pending + [key])
  }

  lemma JoinedSlots(s: State, key: Key)
    requires SlotsOk(s) && key !in s.leases
    ensures ActiveKeys(Joined(s, key)) == ActiveKeys(s) && IsPending(Joined(s, key), key)
    ensures !s.closed && !s.deleting && s.active >= SLOTS && |s.pending| < PLACES ==> SlotsOk(Joined(s, key))
  {
    var t := Joined(s, key);
    assert ActiveKeys(t) == ActiveKeys(s);
  }

  lemma ReserveOk(s: State, key: Key, parentAborted: bool, queue: bool)
    requires Inv(s) && Verdict(s, key, parentAborted, queue) == Granted
    ensures Inv(Reserve(s, key))
  {
    hide LineOk, TicketsOk;
    var t := Joined(s, key);
    JoinOk(s, key);
    JoinedSlots(s, key);
    if s.active < SLOTS && s.pending == [] {
      ActivateOk(t, key);
      assert t.pending[1..] == s.pending;
    }
  }

  /** Dropping one element of a list without repetition. */
  lemma {:induction false} WithoutAt(keys: seq<Key>, i: nat)
    requires Distinct(keys) && i < |keys|
    ensures Without(keys, keys[i]) == keys[..i] + keys[i + 1..]
  {
    if i == 0 {
      WithoutAbsent(keys[1..], keys[0]);
    } else {
      WithoutAt(keys[1..], i - 1);
      assert keys[1..][..i - 1] == keys[1..i] && [keys[0]] + keys[1..i] == keys[..i];
    }
  }

  lemma {:induction false} WithoutAbsent(keys: seq<Key>, key: Key)
    requires key !in keys
    ensures Without(keys, key) == keys
  {
    if keys == [] {
    } else {
      WithoutAbsent(keys[1..], key);
    }
  }

  lemma DropLine(s: State, key: Key)
    requires LineOk(s) && IsPending(s, key)
    ensures LineOk(Abort(s, key)) && |Abort(s, key).pending| < |s.pending|
  {
    var t := Abort(s, key);
    assert key in s.pending;
    var i :| 0 <= i < |s.pending| && s.pending[i] == key;
    WithoutAt(s.pending, i);
    assert t.pending == s.pending[..i] + s.pending[i + 1..];
    forall k ensures IsPending(t, k) <==> IsPending(s, k) && k != key {
    }
    forall a, b | 0 <= a < b < |t.pending| ensures Earlier(t, t.pending[a], t.pending[b]) {
      assert Earlier(s, s.pending[if a < i then a else a + 1], s.pending[if b < i then b else b + 1]);
    }
  }

  lemma TicketsDiffer(s: State, a: Key, b: Key)
    requires LineOk(s) && IsPending(s, a) && IsPending(s, b) && a != b
    ensures s.leases[a].ticket != s.leases[b].ticket
  {
    assert a in s.pending && b in s.pending;
    var i :| 0 <= i < |s.pending| && s.pending[i] == a;
    var j :| 0 <= j < |s.pending| && s.pending[j] == b;
    assert i < j ==> Earlier(s, s.pending[i], s.pending[j]);
    assert j < i ==> Earlier(s, s.pending[j], s.pending[i]);
  }

  lemma DropTickets(s: State, key: Key)
    requires TicketsOk(s) && IsPending(s, key)
    requires forall k :: IsPending(s, k) && k != key ==> s.leases[k].ticket != s.leases[key].ticket
    ensures TicketsOk(Abort(s, key))
  {
    var t := Abort(s, key);
    forall k ensures IsPending(t, k) <==> IsPending(s, k) && k != key {
    }
    forall n | 0 <= n < t.next ensures Accounted(t, n) {
      assert Accounted(s, n);
      if Waits(s, n) {
        var k :| IsPending(s, k) && s.leases[k].ticket == n;
        assert k == key || IsPending(t, k);
      }
    }
    forall k | IsPending(t, k) ensures AfterAdmitted(t, t.leases[k].ticket) {
      assert AfterAdmitted(s, s.leases[k].ticket);
    }
  }

  lemma AbortOk(s: State, key: Key)
    requires Inv(s) && key in s.leases
    ensures Inv(Abort(s, key))
  {
    var t := Abort(s, key);
    assert ActiveKeys(t) == ActiveKeys(s);
    if IsPending(s, key) {
      DropLine(s, key);
      forall k | IsPending(s, k) && k != key ensures s.leases[k].ticket != s.leases[key].ticket {
        TicketsDiffer(s, k, key);
      }
      DropTickets(s, key);
    } else {
      forall k ensures IsPending(t, k) <==> IsPending(s, k) {
      }
      forall n | 0 <= n < t.next ensures Accounted(t, n) {
        assert Accounted(s, n);
        if Waits(s, n) {
          var k :| IsPending(s, k) && s.leases[k].ticket == n;
          assert IsPending(t, k);
        }
      }
      forall k | IsPending(t, k) ensures AfterAdmitted(t, t.leases[k].ticket) {
        assert AfterAdmitted(s, s.leases[k].ticket);
      }
      forall i, j | 0 <= i < j < |t.pending| ensures Earlier(t, t.pending[i], t.pending[j]) {
        assert Earlier(s, s.pending[i], s.pending[j]);
      }
    }
  }

  lemma CloseOk(s: State)
    requires Inv(s)
    ensures Inv(Close(s))
  {
    var t := Close(s);
    assert ActiveKeys(t) == ActiveKeys(s);
    forall k ensures !IsPending(t, k) {
    }
    forall n | 0 <= n < t.next ensures Accounted(t, n) {
      assert Accounted(s, n);
    }
  }

  // ---------------------------------------------------------------- whole runs

  datatype Op =
    | DoReserve(key: Key, parentAborted: bool, queue: bool)
    | DoAbort(key: Key)
    | DoRelease(key: Key, ticket: nat)
    | DoReserveDeletion
    | DoFinishDeletion
    | DoClose

  predicate Allowed(s: State, op: Op) {
    match op
    case DoAbort(key) => key in s.leases
    case DoRelease(key, ticket) =>
      InLine(s) && (key in s.leases && s.leases[key].ticket == ticket ==>
        s.leases[key].status != Pending && key !in s.pending)
    case DoFinishDeletion => s.deleting
    case _ => true
  }

  function Do(s: State, op: Op): State
    requires Allowed(s, op)
  {
    match op
    case DoReserve(key, parentAborted, queue) => if Verdict(s, key, parentAborted, queue) == Granted then
      Reserve(s, key) else s
    case DoAbort(key) => Abort(s, key)
    case DoRelease(key, ticket) => Release(s, key, ticket)
    case DoReserveDeletion => if MayDelete(s) then s.(deleting := true) else s
    case DoFinishDeletion => s.(deleting := false)
    case DoClose => Close(s)
  }

  predicate IsRun(s: State, ops: seq<Op>, t: State)
    decreases |ops|
  {
    if ops == [] then s == t else Allowed(s, ops[0]) && IsRun(Do(s, ops[0]), ops[1..], t)
  }

  lemma OpOk(s: State, op: Op)
    requires Inv(s) && Allowed(s, op)
    ensures Inv(Do(s, op))
  {
    match op
    case DoReserve(key, parentAborted, queue) =>
      if Verdict(s, key, parentAborted, queue) == Granted {
        ReserveOk(s, key, parentAborted, queue);
      }
    case DoAbort(key) => AbortOk(s, key);
    case DoRelease(key, ticket) => ReleaseOk(s, key, ticket);
    case DoReserveDeletion =>
      if MayDelete(s) {
        DeletingOk(s, s.(deleting := true));
      }
    case DoFinishDeletion => DeletingOk(s, s.(deleting := false));
    case DoClose => CloseOk(s);
  }

  lemma DeletingOk(s: State, t: State)
    requires Inv(s) && t == s.(deleting := t.deleting) && (t.deleting ==> t.leases == map[])
    ensures Inv(t)
  {
    assert ActiveKeys(t) == ActiveKeys(s);
    forall k ensures IsPending(t, k) <==> IsPending(s, k) {
    }
    forall n | 0 <= n < t.next ensures Accounted(t, n) {
      assert Accounted(s, n);
      if Waits(s, n) {
        var k :| IsPending(s, k) && s.leases[k].ticket == n;
        assert IsPending(t, k);
      }
    }
    forall k | IsPending(t, k) ensures AfterAdmitted(t, t.leases[k].ticket) {
      assert AfterAdmitted(s, s.leases[k].ticket);
    }
    forall i, j | 0 <= i < j < |t.pending| ensures Earlier(t, t.pending[i], t.pending[j]) {
      assert Earlier(s, s.pending[i], s.pending[j]);
    }
  }

  lemma {:induction false} RunOk(s: State, ops: seq<Op>, t: State)
    requires Inv(s) && IsRun(s, ops, t)
    ensures Inv(t)
    decreases |ops|
  {
    if ops == [] {
    } else {
      OpOk(s, ops[0]);
      RunOk(Do(s, ops[0]), ops[1..], t);
    }
  }

  /** A reservation is granted exactly while the gate is open, the caller still wants it, the
      name is free and there is a free slot, or, for one that may wait, a place in line; it
      becomes active exactly if there is a free slot, and moves nobody else. */
  lemma GrantedExactlyWhen(s: State, key: Key, parentAborted: bool, queue: bool)
    requires Inv(s)
    ensures Verdict(s, key, parentAborted, queue) == Granted <==>
              && !s.closed && !parentAborted && !s.deleting && key !in s.leases
              && (|ActiveKeys(s)| < SLOTS || (queue && |s.pending| < PLACES))
    ensures Verdict(s, key, parentAborted, queue) == Granted ==>
              var t := Reserve(s, key);
              && key in t.leases && t.leases[key].status == (if |ActiveKeys(s)| < SLOTS then Active else Pending)
              && (forall k :: k in s.leases ==> k in t.leases && t.leases[k] == s.leases[k])
              && t.pending == s.pending + if |ActiveKeys(s)| < SLOTS then [] else [key]
  {
    hide LineOk, TicketsOk;
  }

  /** A deletion keeps everybody out while it lasts, and leaves the gate as it was. */
  lemma DeletionIsUndone(s: State, key: Key, parentAborted: bool, queue: bool)
    requires MayDelete(s)
    ensures var t := Do(s, DoReserveDeletion);
            && Verdict(t, key, parentAborted, queue) != Granted && !MayDelete(t)
            && Allowed(t, DoFinishDeletion) && Do(t, DoFinishDeletion) == s
  {
  }

  /** After any sequence of operations: the slot counter is exact and at most two, at most
      eight distinct leases are in line, nobody waits beside a free slot, deletion excludes
      every lease, and tickets are activated in the order they were handed out with none
      lost: each one is active or was, was cancelled in line, or is in line still. */
  lemma FirstComeFirstServed(ops: seq<Op>, s: State)
    requires IsRun(EMPTY, ops, s)
    ensures s.active == |ActiveKeys(s)| <= SLOTS
    ensures Distinct(s.pending) && |s.pending| <= PLACES && (s.pending != [] ==> s.active == SLOTS)
    ensures s.deleting ==> s.leases == map[]
    ensures forall i, j :: 0 <= i < j < |s.admitted| ==> s.admitted[i] < s.admitted[j]
    ensures forall k :: IsPending(s, k) ==> k in s.pending && AfterAdmitted(s, s.leases[k].ticket)
    ensures forall t :: 0 <= t < s.next ==> Accounted(s, t)
    ensures forall i :: 0 <= i < |s.admitted| ==> s.admitted[i] !in s.dropped
  {
    EmptyOk();
    RunOk(EMPTY, ops, s);
  }

  // ---------------------------------------------------------------- the object that does it

  class Gate {
    var leases: map<Key, Lease>
    var pending: seq<Key>
    var active: int
    var closed: bool
    var deleting: bool
    var next: nat
    ghost var admitted: seq<nat>
    ghost var dropped: set<nat>

    ghost function Abstract(): State
      reads this
    {
      State(leases, pending, active, closed, deleting, next, admitted, dropped)
    }

    ghost predicate Valid()
      reads this
    {
      Inv(Abstract())
    }

    constructor ()
      ensures Valid() && Abstract() == EMPTY
    {
      leases, pending, active, closed, deleting, next := map[], [], 0, false, false, 0;
      admitted, dropped := [], {};
      new;
      EmptyOk();
    }

    method Start(key: Key)
      requires key in leases
      modifies this
      ensures Abstract() == Activate(old(Abstract()), key)
    {
      admitted := admitted + [leases[key].ticket];
      leases := leases[key := leases[key].(status := Active)];
      active := active + 1;
    }

    method CancelLease(key: Key)
      requires key in leases
      modifies this
      ensures Abstract() == Cancel(old(Abstract()), key)
    {
      if leases[key].status != Pending {
        return;
      }
      dropped := dropped + {leases[key].ticket};
      leases := leases[key := leases[key].(status := Cancelled)];
      var i, rest := 0, [];
      while i < |pending|
        invariant 0 <= i <= |pending| && rest + Without(pending[i..], key) == Without(pending, key)
        invariant Abstract().(pending := Without(pending, key)) == Cancel(old(Abstract()), key)
        invariant pending == old(pending)
      {
        assert pending[i..] == [pending[i]] + pending[i + 1..];
        if pending[i] != key {
          rest := rest + [pending[i]];
        }
        i := i + 1;
      }
      pending := rest;
    }

    /** Hand free slots to the head of the line, skipping waiters whose signal has fired. */
    method DrainLine()
      requires InLine(Abstract())
      modifies this
      ensures Abstract() == Drain(old(Abstract()))
    {
      while !closed && active < SLOTS && pending != []
        invariant InLine(Abstract()) && Drain(Abstract()) == Drain(old(Abstract()))
        decreases |pending|
      {
        var key := pending[0];
        assert pending == [key] + pending[1..];
        pending := pending[1..];
        if leases[key].aborted {
          CancelLease(key);
        } else {
          Start(key);
        }
      }
    }

    method TryReserve(key: Key, parentAborted: bool, queue: bool) returns (verdict: Refusal, ticket: nat)
      requires Valid()
      modifies this
      ensures Valid() && verdict == Verdict(old(Abstract()), key, parentAborted, queue)
      ensures Abstract() == if verdict == Granted then Reserve(old(Abstract()), key) else old(Abstract())
      ensures verdict == Granted ==> key in leases && leases[key].ticket == ticket == old(next)
    {
      ticket := next;
      if closed {
        return OwnerRefused, ticket;
      }
      if parentAborted {
        return AlreadyAborted, ticket;
      }
      if deleting || key in leases {
        return Busy, ticket;
      }
      var wait := active >= SLOTS || pending != [];
      if wait && !queue {
        return Busy, ticket;
      }
      if wait && |pending| >= PLACES {
        return QueueFull, ticket;
      }
      ReserveOk(Abstract(), key, parentAborted, queue);
      leases, next := leases[key := Lease(next, Pending, false)], next + 1;
      if wait {
        pending := pending + [key];
      } else {
        Start(key);
      }
      verdict := Granted;
    }

    method SignalAbort(key: Key)
      requires key in leases
      modifies this
      ensures Abstract() == Abort(old(Abstract()), key)
      ensures old(Valid()) ==> Valid()
    {
      if Inv(Abstract()) {
        AbortOk(Abstract(), key);
      }
      leases := leases[key := leases[key].(aborted := true)];
      CancelLease(key);
    }

    method ReleaseLease(key: Key, ticket: nat)
      requires Valid() && (key in leases && leases[key].ticket == ticket ==> leases[key].status != Pending)
      modifies this
      ensures InLine(old(Abstract())) && Allowed(old(Abstract()), DoRelease(key, ticket))
      ensures Valid() && Abstract() == Release(old(Abstract()), key, ticket)
    {
      ReleaseOk(Abstract(), key, ticket);
      if key !in leases || leases[key].ticket != ticket {
        return;
      }
      if leases[key].status == Active {
        active := active - 1;
      }
      leases := leases - {key};
      DrainLine();
    }

    method ReserveDeletion() returns (granted: bool)
      requires Valid()
      modifies this
      ensures granted == MayDelete(old(Abstract()))
      ensures Valid() && Abstract() == Do(old(Abstract()), DoReserveDeletion)
    {
      OpOk(Abstract(), DoReserveDeletion);
      granted := !closed && !deleting && |leases| == 0;
      if granted {
        deleting := true;
      }
    }

    method Dispose()
      requires Valid()
      modifies this
      ensures Valid() && Abstract() == Close(old(Abstract()))
    {
      hide Inv, Close, Abort;
      CloseOk(Abstract());
      WaitersArePending(Abstract());
      closed := true;
      CloseAbsorbsClosed(old(Abstract()));
      var rest := leases.Keys;
      while rest != {}
        invariant rest <= leases.Keys && closed
        invariant Close(Abstract()) == Close(old(Abstract()))
        invariant forall k :: k in leases && k !in rest ==> leases[k].aborted && leases[k].status != Pending
        invariant forall k :: k in pending ==> k in leases && leases[k].status == Pending
      {
        var key :| key in rest;
        CloseAbsorbsAbort(Abstract(), key);
        SignalAbort(key);
        rest := rest - {key};
      }
      CloseIsDone(Abstract());
    }
  }

  lemma CloseAbsorbsClosed(s: State)
    ensures Close(s.(closed := true)) == Close(s)
  {
  }

  /** Aborting the leases one at a time ends where aborting them all at once does. */
  lemma CloseAbsorbsAbort(s: State, key: Key)
    requires key in s.leases && forall k :: k in s.pending ==> k in s.leases && s.leases[k].status == Pending
    ensures var t := Abort(s, key);
            && Close(t) == Close(s) && t.closed == s.closed && t.leases.Keys == s.leases.Keys
            && t.leases[key].aborted && t.leases[key].status != Pending
            && (forall k :: k in s.leases && k != key ==> t.leases[k] == s.leases[k])
            && (forall k :: k in t.pending ==> k in t.leases && t.leases[k].status == Pending)
  {
    var t := Abort(s, key);
    assert AbortAll(t.leases) == AbortAll(s.leases);
    forall n | n in PendingTickets(s.leases, s.leases.Keys)
      ensures n in PendingTickets(t.leases, t.leases.Keys) || (IsPending(s, key) && n == s.leases[key].ticket)
    {
      var k :| k in s.leases && s.leases[k].status == Pending && s.leases[k].ticket == n;
      assert k != key ==> k in t.leases && t.leases[k].status == Pending && t.leases[k].ticket == n;
    }
  }

  lemma CloseIsDone(s: State)
    requires s.closed && forall k :: k in s.leases ==> s.leases[k].aborted && s.leases[k].status != Pending
    requires forall k :: k in s.pending ==> k in s.leases && s.leases[k].status == Pending
    ensures Close(s) == s
  {
    assert AbortAll(s.leases) == s.leases;
    NonEmptyHasMember(s.pending);
  }

  lemma NonEmptyHasMember(keys: seq<Key>)
    ensures keys == [] || exists k :: k in keys
  {
    if keys != [] {
      assert keys[0] in keys;
    }
  }

  lemma WaitersArePending(s: State)
    requires Inv(s)
    ensures forall k :: k in s.pending ==> k in s.leases && s.leases[k].status == Pending
  {
    forall k | k in s.pending ensures IsPending(s, k) {
    }
  }
}
