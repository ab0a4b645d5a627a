/**
 The queue in front of a record store (qualification.mjs): each operation is chained behind the
 tail of its namespace, and a tail that has settled may be forgotten.  Operations take two
 steps, so that one running beside another would be seen.
 */
module RecordQueue {
  import opened Wrappers
  import opened RecordStore

  /** What the first step of an operation found out. */
  datatype Memo = Memo(refused: Option<Result>, opens: bool, seen: nat)

  datatype Status = Waiting | Started(memo: Memo) | Settled(result: Result, disk: Disk)

  /** `after` is the operation this one was chained behind, if the tail was still remembered. */
  datatype Entry = Entry(op: Op, after: Option<nat>, status: Status)

  datatype State = State(entries: seq<Entry>, tail: Option<nat>, store: Store)

  /** How the file of a save ends: acknowledged, cut off, or whole but with its sync refused. */
  datatype Ending = Synced | CutOff | Unsynced

  datatype Event = Submit(op: Op) | Start(i: nat, opens: bool) | End(i: nat, ending: Ending) | Forget(i: nat)

  predicate IsSettled(s: State, i: nat) { i < |s.entries| && s.entries[i].status.Settled? }

  predicate Enabled(s: State, ev: Event) {
    match ev
    case Submit(_) => true
    case Start(i, _) =>
      i < |s.entries| && s.entries[i].status == Waiting
        && (s.entries[i].after.Some? ==> IsSettled(s, s.entries[i].after.value))
    case End(i, _) => i < |s.entries| && s.entries[i].status.Started?
    case Forget(i) => IsSettled(s, i)
  }

  /** The first step: a save decides and creates its file, the others look at what there is. */
  function Look(s: Store, op: Op, opens: bool): Memo {
    Memo(if op.Save? then Refusal(s, op.key, op.expected, op.size) else None, opens,
         if (op.Read? || op.Remove?) && op.key in s then |s[op.key]| + 1 else 0)
  }

  function Begin(s: Store, op: Op, opens: bool): Store {
    if op.Save? && Refusal(s, op.key, op.expected, op.size) == None then Created(s, op.key, opens) else s
  }

  /** The revision whose name was seen, as it is by now; `seen` counts the directory too. */
  function ReadSeen(s: Store, key: Key, seen: nat): Result {
    if seen == 0 then Absent
    else if seen - 1 > REVISIONS then Corrupt
    else if seen == 1 then Absent
    else if key !in s || |s[key]| < seen - 1 || s[key][seen - 2] == Torn then Corrupt
    else Value(seen - 1, s[key][seen - 2].data)
  }

  function DiskOf(opens: bool, ending: Ending): Disk {
    if !opens then NoFile
    else match ending case Synced => Works case CutOff => TornWrite case Unsynced => SyncFails
  }

  /** The second step, on whatever the store holds by then. */
  function Finish(s: Store, op: Op, memo: Memo, ending: Ending): (Store, Result) {
    match op
    case Read(key) => (s, ReadSeen(s, key, memo.seen))
    case Save(key, data, expected, _) =>
      if memo.refused.Some? then (s, memo.refused.value)
      else if !memo.opens || ending == CutOff || key !in s || s[key] == [] then (s, Failed)
      else (Written(s, key, data), if ending == Synced then Saved(expected + 1) else Failed)
    case Remove(key) => if memo.seen > 0 then (s - {key}, Removed) else (s, NotThere)
    case Entries => Perform(s, Entries, Works)
  }

  function Mark(s: State, i: nat, st: Status, store: Store): State
    requires i < |s.entries|
  {
    s.(entries := s.entries[i := s.entries[i].(status := st)], store := store)
  }

  function Apply(s: State, ev: Event): State
    requires Enabled(s, ev)
  {
    match ev
    case Submit(op) => s.(entries := s.entries + [Entry(op, s.tail, Waiting)], tail := Some(|s.entries|))
    case Start(i, opens) =>
      var op := s.entries[i].op;
      Mark(s, i, Started(Look(s.store, op, opens)), Begin(s.store, op, opens))
    case End(i, ending) =>
      var memo := s.entries[i].status.memo;
      var (store, result) := Finish(s.store, s.entries[i].op, memo, ending);
      Mark(s, i, Settled(result, DiskOf(memo.opens, ending)), store)
    case Forget(i) => if s.tail == Some(i) then s.(tail := None) else s
  }

  predicate IsRun(s: State, evs: seq<Event>, t: State)
    decreases |evs|
  {
    if evs == [] then s == t else Enabled(s, evs[0]) && IsRun(Apply(s, evs[0]), evs[1..], t)
  }

  // ---------------------------------------------------------------- the simple form

  /** The operations one after the other, each with the disk it met. */
  function Replay(s: Store, entries: seq<Entry>): Store {
    if entries == [] then s else
    var last := entries[|entries| - 1];
    Perform(Replay(s, entries[..|entries| - 1]), last.op, if last.status.Settled? then last.status.disk else NoFile).0
  }

  /** Entry `i` is settled, with the result it would have had in turn. */
  predicate InTurn(first: Store, entries: seq<Entry>, i: nat) {
    i < |entries| && var e := entries[i];
    e.status.Settled? && e.status.result == Perform(Replay(first, entries[..i]), e.op, e.status.disk).1
  }

  predicate ChainOk(s: State, i: nat, done: nat) {
    i < |s.entries| && (s.entries[i].after == None ==> i <= done)
      && (s.entries[i].after.Some? ==> s.entries[i].after == Some(i - 1) && i > 0)
  }

  /** The first `done` operations are settled in turn, and only the next one may have started. */
  predicate Inv(s: State, first: Store, done: nat) {
    && done <= |s.entries|
    && (forall i :: 0 <= i < done ==> InTurn(first, s.entries, i))
    && (forall i :: done < i < |s.entries| ==> s.entries[i].status == Waiting)
    && (forall i :: done <= i < |s.entries| ==> ChainOk(s, i, done))
    && (s.tail == None ==> done == |s.entries|)
    && (s.tail.Some? ==> |s.entries| > 0 && s.tail.value == |s.entries| - 1)
    && var base := Replay(first, s.entries[..done]);
       if done == |s.entries| || s.entries[done].status == Waiting then s.store == base
       else
         var e := s.entries[done];
         && e.status.Started? && e.status.memo == Look(base, e.op, e.status.memo.opens)
         && s.store == Begin(base, e.op, e.status.memo.opens)
  }

  lemma SaveIsOne(s: Store, key: Key, data: int, expected: nat, size: nat, opens: bool, ending: Ending)
    ensures var op := Save(key, data, expected, size);
            Finish(Begin(s, op, opens), op, Look(s, op, opens), ending) == Perform(s, op, DiskOf(opens, ending))
  {
    hide Refusal, Written, Listable;
    if Refusal(s, key, expected, size) == None && opens {
      assert Created(s, key, true)[key] != [];
    }
  }

  lemma ListingIsOne(s: Store, a: Disk, b: Disk)
    ensures Perform(s, Entries, a) == Perform(s, Entries, b)
  {
  }

  /** Two steps with nothing between them are one operation. */
  lemma TwoStepsAreOne(s: Store, op: Op, opens: bool, ending: Ending)
    ensures Finish(Begin(s, op, opens), op, Look(s, op, opens), ending) == Perform(s, op, DiskOf(opens, ending))
  {
    hide Refusal, Written, Listable, Created;
    match op
    case Save(key, data, expected, size) => SaveIsOne(s, key, data, expected, size, opens, ending);
    case Entries => hide Perform; ListingIsOne(s, Works, DiskOf(opens, ending));
    case Read(_) =>
    case Remove(_) =>
  }

  lemma InTurnSame(first: Store, a: seq<Entry>, b: seq<Entry>, i: nat)
    requires InTurn(first, a, i) && i < |b| && a[..i + 1] == b[..i + 1]
    ensures InTurn(first, b, i)
  {
    assert a[..i] == a[..i + 1][..i] == b[..i] && a[i] == a[..i + 1][i] == b[i];
  }

  lemma KeepTurns(first: Store, a: seq<Entry>, b: seq<Entry>, done: nat)
    requires done <= |a| && done <= |b| && a[..done] == b[..done]
    requires forall i :: 0 <= i < done ==> InTurn(first, a, i)
    ensures forall i :: 0 <= i < done ==> InTurn(first, b, i)
  {
    hide InTurn;
    forall i | 0 <= i < done ensures InTurn(first, b, i) {
      assert a[..i + 1] == a[..done][..i + 1] == b[..i + 1];
      InTurnSame(first, a, b, i);
    }
  }

  lemma SubmitOk(s: State, first: Store, done: nat, op: Op)
    requires Inv(s, first, done)
    ensures Inv(Apply(s, Submit(op)), first, done)
  {
    hide InTurn;
    var t := Apply(s, Submit(op));
    assert t.entries[..done] == s.entries[..done];
    KeepTurns(first, s.entries, t.entries, done);
    hide Replay, Look, Begin;
    forall i | done <= i < |t.entries| ensures ChainOk(t, i, done) {
      if i < |s.entries| {
        assert ChainOk(s, i, done);
      }
    }
  }

  lemma StartOk(s: State, first: Store, done: nat, i: nat, opens: bool)
    requires Inv(s, first, done) && Enabled(s, Start(i, opens))
    ensures i == done && Inv(Apply(s, Start(i, opens)), first, done)
  {
    assert Look(s.store, s.entries[i].op, opens).opens == opens;
    hide InTurn, Replay, Look, Begin;
    Later(s, first, done, i);
    var t := Apply(s, Start(i, opens));
    assert t.entries[..done] == s.entries[..done];
    KeepTurns(first, s.entries, t.entries, done);
    forall j | done <= j < |t.entries| ensures ChainOk(t, j, done) {
      assert ChainOk(s, j, done);
    }
  }

  /** An operation whose predecessor has settled, and that waits itself, is the next one. */
  lemma Later(s: State, first: Store, done: nat, i: nat)
    requires Inv(s, first, done) && i < |s.entries| && s.entries[i].status == Waiting
    requires s.entries[i].after.Some? ==> IsSettled(s, s.entries[i].after.value)
    ensures i == done
  {
    hide Replay, Look, Begin;
    assert i < done ==> InTurn(first, s.entries, i);
    assert i >= done ==> ChainOk(s, i, done);
  }

  lemma EndOk(s: State, first: Store, done: nat, i: nat, ending: Ending)
    requires Inv(s, first, done) && Enabled(s, End(i, ending))
    ensures i == done && Inv(Apply(s, End(i, ending)), first, done + 1)
  {
    assert i < done ==> InTurn(first, s.entries, i);
    assert i == done;
    var e := s.entries[i];
    var base := Replay(first, s.entries[..done]);
    var t := Apply(s, End(i, ending));
    TwoStepsAreOne(base, e.op, e.status.memo.opens, ending);
    hide Look, Begin, Finish, Perform;
    assert t.entries[..done] == s.entries[..done];
    assert t.entries[..done + 1][..done] == s.entries[..done];
    assert InTurn(first, t.entries, done);
    KeepTurns(first, s.entries, t.entries, done);
    hide InTurn, Replay;
    var next := done + 1;
    forall j | next <= j < |t.entries| ensures ChainOk(t, j, next) {
      assert ChainOk(s, j, done);
    }
  }

  lemma ForgetOk(s: State, first: Store, done: nat, i: nat)
    requires Inv(s, first, done) && Enabled(s, Forget(i))
    ensures Inv(Apply(s, Forget(i)), first, done)
  {
    hide InTurn, Replay, Look, Begin;
    var t := Apply(s, Forget(i));
    forall j | done <= j < |s.entries| ensures ChainOk(t, j, done) {
      assert ChainOk(s, j, done);
    }
  }

  lemma StepOk(s: State, first: Store, done: nat, ev: Event) returns (next: nat)
    requires Inv(s, first, done) && Enabled(s, ev)
    ensures Inv(Apply(s, ev), first, next)
  {
    hide Inv, Apply, Enabled;
    next := done;
    match ev
    case Submit(op) => SubmitOk(s, first, done, op);
    case Start(i, opens) => StartOk(s, first, done, i, opens);
    case End(i, ending) => EndOk(s, first, done, i, ending); next := done + 1;
    case Forget(i) => ForgetOk(s, first, done, i);
  }

  lemma {:induction false} RunOk(s: State, first: Store, done: nat, evs: seq<Event>, t: State) returns (last: nat)
    requires Inv(s, first, done) && IsRun(s, evs, t)
    ensures Inv(t, first, last)
    decreases |evs|
  {
    hide Inv, Enabled, Apply;
    if evs == [] {
      last := done;
    } else {
      var next := StepOk(s, first, done, evs[0]);
      last := RunOk(Apply(s, evs[0]), first, next, evs[1..], t);
    }
  }

  // ---------------------------------------------------------------- what every run guarantees

  /** The first `done` operations settled in the order they were submitted, each with the result
      it would have had alone, in turn; the next may have started, and all others wait. */
  predicate Serial(first: Store, t: State, done: nat) {
    && done <= |t.entries|
    && (forall i :: 0 <= i < done ==> InTurn(first, t.entries, i))
    && (forall i :: done < i < |t.entries| ==> t.entries[i].status == Waiting)
    && (done < |t.entries| ==> !t.entries[done].status.Settled?)
    && (done == |t.entries| ==> t.store == Replay(first, t.entries))
  }

  /** However submissions, steps and forgotten tails interleave, operations settle one by one in
      the order they were submitted, as if each ran alone. */
  lemma QueueIsSerial(first: Store, evs: seq<Event>, t: State)
    requires IsRun(State([], None, first), evs, t)
    ensures exists done: nat :: Serial(first, t, done)
  {
    assert Inv(State([], None, first), first, 0);
    var done := RunOk(State([], None, first), first, 0, evs, t);
    hide Replay, Look, Begin, InTurn;
    assert t.entries[..|t.entries|] == t.entries;
    assert Serial(first, t, done);
  }

  /** So at no time do two operations of one namespace run beside each other. */
  lemma OneAtATime(first: Store, evs: seq<Event>, t: State, i: nat, j: nat)
    requires IsRun(State([], None, first), evs, t) && i < |t.entries| && j < |t.entries|
    requires t.entries[i].status.Started? && t.entries[j].status.Started?
    ensures i == j
  {
    QueueIsSerial(first, evs, t);
    hide IsRun;
    var done: nat :| Serial(first, t, done);
    assert i < done ==> InTurn(first, t.entries, i);
    assert j < done ==> InTurn(first, t.entries, j);
  }

  lemma {:induction false} ReplayTidy(first: Store, entries: seq<Entry>)
    requires Tidy(first)
    ensures Tidy(Replay(first, entries))
  {
    hide Tidy, Perform;
    if entries == [] {
    } else {
      var n := |entries| - 1;
      ReplayTidy(first, entries[..n]);
      PerformTidy(Replay(first, entries[..n]), entries[n].op,
        if entries[n].status.Settled? then entries[n].status.disk else NoFile);
    }
  }

  /** A settled read found the record as the operations before it left it: absent, refused
      because its last revision was never fully written, or exactly that last revision. */
  lemma ReadsAreWhole(first: Store, evs: seq<Event>, t: State, i: nat)
    requires Tidy(first) && IsRun(State([], None, first), evs, t)
    requires i < |t.entries| && t.entries[i].op.Read? && t.entries[i].status.Settled?
    ensures var s := Replay(first, t.entries[..i]);
            var key, r := t.entries[i].op.key, t.entries[i].status.result;
            && (r == Absent <==> key !in s || s[key] == [])
            && (r == Corrupt <==> key in s && s[key] != [] && s[key][|s[key]| - 1] == Torn)
            && (r.Value? ==> key in s && r.revision == |s[key]| > 0 && s[key][r.revision - 1] == Full(r.data))
  {
    QueueIsSerial(first, evs, t);
    ReplayTidy(first, t.entries[..i]);
    hide IsRun, Replay;
    var done: nat :| Serial(first, t, done);
    assert InTurn(first, t.entries, i);
  }

  // ---------------------------------------------------------------- writers that race

  predicate RemovedAt(entries: seq<Entry>, k: nat, key: Key) {
    k < |entries| && entries[k].op == Remove(key) && entries[k].status.Settled? && entries[k].status.result == Removed
  }

  /** An operation that does not remove the record leaves at least as many revisions of it. */
  lemma RevisionsStay(s: Store, op: Op, disk: Disk, key: Key)
    requires !(op == Remove(key) && Perform(s, op, disk).1 == Removed)
    ensures |DirOf(s, key)| <= |DirOf(Perform(s, op, disk).0, key)|
  {
    if op.Save? && Refusal(s, op.key, op.expected, op.size) == None {
      SavedDirectory(s, op.key, op.data, op.expected, op.size, disk);
    }
  }

  lemma {:induction false} RevisionsStayLong(first: Store, entries: seq<Entry>, i: nat, j: nat, key: Key)
    requires i <= j <= |entries| && forall k :: i <= k < j ==> InTurn(first, entries, k) && !RemovedAt(entries, k, key)
    ensures |DirOf(Replay(first, entries[..i]), key)| <= |DirOf(Replay(first, entries[..j]), key)|
    decreases j
  {
    hide Perform, DirOf;
    if i == j {
    } else {
      RevisionsStayLong(first, entries, i, j - 1, key);
      assert InTurn(first, entries, j - 1) && !RemovedAt(entries, j - 1, key);
      assert entries[..j][..j - 1] == entries[..j - 1];
      RevisionsStay(Replay(first, entries[..j - 1]), entries[j - 1].op, entries[j - 1].status.disk, key);
    }
  }

  lemma SavedRevisions(s: Store, op: Op, disk: Disk)
    requires op.Save? && Perform(s, op, disk).1.Saved?
    ensures |DirOf(s, op.key)| == op.expected && |DirOf(Perform(s, op, disk).0, op.key)| == op.expected + 1
  {
    SavedDirectory(s, op.key, op.data, op.expected, op.size, disk);
  }

  /** Compare and swap over a whole run: of two saves of one record that both succeed, the later
      one expected a higher revision, unless the record was removed between them.  So of all
      saves that expect the same revision at most one succeeds until the record is removed. */
  lemma SavesAdvance(first: Store, evs: seq<Event>, t: State, i: nat, j: nat)
    requires IsRun(State([], None, first), evs, t) && i < j < |t.entries|
    requires t.entries[i].op.Save? && t.entries[j].op.Save? && t.entries[i].op.key == t.entries[j].op.key
    requires t.entries[i].status.Settled? && t.entries[i].status.result.Saved?
    requires t.entries[j].status.Settled? && t.entries[j].status.result.Saved?
    ensures t.entries[i].op.expected < t.entries[j].op.expected ||
            exists k :: i < k < j && RemovedAt(t.entries, k, t.entries[i].op.key)
  {
    QueueIsSerial(first, evs, t);
    hide IsRun, Perform, DirOf, InTurn, Replay;
    var done: nat :| Serial(first, t, done);
    SettledInTurn(first, t, done, j);
    assert forall k :: i <= k <= j ==> InTurn(first, t.entries, k);
    var key := t.entries[i].op.key;
    SavedInTurn(first, t.entries, i);
    SavedInTurn(first, t.entries, j);
    if !exists k :: i < k < j && RemovedAt(t.entries, k, key) {
      hide RemovedAt;
      RevisionsStayLong(first, t.entries, i + 1, j, key);
    }
  }

  lemma SettledInTurn(first: Store, t: State, done: nat, j: nat)
    requires Serial(first, t, done) && j < |t.entries| && t.entries[j].status.Settled?
    ensures j < done
  {
    hide InTurn, Replay;
  }

  lemma SavedInTurn(first: Store, entries: seq<Entry>, i: nat)
    requires InTurn(first, entries, i) && entries[i].op.Save? && entries[i].status.result.Saved?
    ensures var key := entries[i].op.key;
            && |DirOf(Replay(first, entries[..i]), key)| == entries[i].op.expected
            && |DirOf(Replay(first, entries[..i + 1]), key)| == entries[i].op.expected + 1
  {
    hide Perform, DirOf;
    assert entries[..i + 1][..i] == entries[..i];
    SavedRevisions(Replay(first, entries[..i]), entries[i].op, entries[i].status.disk);
  }
}
