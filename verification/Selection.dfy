/**
 Choosing a route for a task: candidates in priority order with the avoided provider last,
 each judged by its newest record, rotated when the caller asks to spread (routes.mjs).
 */
module Selection {
  import opened Wrappers
  import opened Routes
  import T = Text

  // ---------------------------------------------------------------- judging does not depend on order

  predicate Same(a: seq<Record>, b: seq<Record>) { multiset(a) == multiset(b) }

  lemma {:induction false} MatchingCounts(qs: seq<Record>, id: RouteId, effort: Effort, q: Record)
    ensures multiset(Matching(qs, id, effort))[q] == if Matches(q, id, effort) then multiset(qs)[q] else 0
  {
    hide Matches;
    if qs == [] {
    } else {
      MatchingCounts(qs[1..], id, effort, q);
      assert qs == [qs[0]] + qs[1..];
    }
  }

  lemma {:induction false} IssuedCounts(qs: seq<Record>, at: nat, q: Record)
    ensures multiset(Issued(qs, at))[q] == if q.issuedAt == Some(at) then multiset(qs)[q] else 0
  {
    if qs == [] {
    } else {
      IssuedCounts(qs[1..], at, q);
      assert qs == [qs[0]] + qs[1..];
    }
  }

  lemma SameMembers(a: seq<Record>, b: seq<Record>)
    requires Same(a, b)
    ensures |a| == |b| && forall q :: q in a <==> q in b
  {
    assert |multiset(a)| == |multiset(b)|;
    forall q ensures q in a <==> q in b {
      assert q in a <==> q in multiset(a);
      assert q in b <==> q in multiset(b);
    }
  }

  lemma {:induction false} NewestBounds(qs: seq<Record>)
    ensures forall q :: q in qs && q.issuedAt.Some? ==> q.issuedAt.value <= Newest(qs)
    ensures Newest(qs) == 0 || exists q :: q in qs && q.issuedAt == Some(Newest(qs))
  {
    if qs == [] {
    } else {
      NewestBounds(qs[1..]);
      assert forall q :: q in qs <==> q == qs[0] || q in qs[1..];
    }
  }

  lemma SameNewest(a: seq<Record>, b: seq<Record>)
    requires Same(a, b)
    ensures Newest(a) == Newest(b)
  {
    SameMembers(a, b);
    NewestBounds(a);
    NewestBounds(b);
  }

  lemma SameIssued(a: seq<Record>, b: seq<Record>, at: nat)
    requires Same(a, b)
    ensures |Issued(a, at)| == |Issued(b, at)| && (|Issued(a, at)| == 1 ==> Issued(a, at) == Issued(b, at))
  {
    hide Issued;
    var x, y := Issued(a, at), Issued(b, at);
    SameCounts(a, b, at);
    SameMembers(x, y);
    hide Same;
    if |x| == 1 {
      assert x[0] in y;
    }
  }

  lemma SameCounts(a: seq<Record>, b: seq<Record>, at: nat)
    requires Same(a, b)
    ensures Same(Issued(a, at), Issued(b, at))
  {
    hide Issued;
    forall q ensures multiset(Issued(a, at))[q] == multiset(Issued(b, at))[q] {
      IssuedCounts(a, at, q);
      IssuedCounts(b, at, q);
    }
  }

  lemma SameJudgement(a: seq<Record>, b: seq<Record>, id: RouteId, effort: Effort, task: Task, now: nat, role: Role)
    requires Same(a, b)
    ensures JudgeMatching(a, id, effort, task, now, role) == JudgeMatching(b, id, effort, task, now, role)
  {
    hide RecordReason, Newest, Issued, Dated, Same;
    SameMembers(a, b);
    SameNewest(a, b);
    if Dated(a) { DatedByMember(a, b); }
    if Dated(b) { DatedByMember(b, a); }
    SameIssued(a, b, Newest(a));
  }

  lemma DatedByMember(a: seq<Record>, b: seq<Record>)
    requires Dated(a) && forall q :: q in b ==> q in a
    ensures Dated(b)
  {
    forall i | 0 <= i < |b| ensures b[i].issuedAt.Some? {
      assert b[i] in a;
    }
  }

  /** What is said about a route does not depend on the order of the records. */
  lemma JudgeIgnoresOrder(a: seq<Record>, b: seq<Record>, id: RouteId, effort: Effort, task: Task, now: nat, role: Role)
    requires Same(a, b)
    ensures Judge(a, id, effort, task, now, role) == Judge(b, id, effort, task, now, role)
  {
    hide JudgeMatching;
    var x, y := Matching(a, id, effort), Matching(b, id, effort);
    forall q ensures multiset(x)[q] == multiset(y)[q] {
      MatchingCounts(a, id, effort, q);
      MatchingCounts(b, id, effort, q);
    }
    assert Same(x, y);
    SameJudgement(x, y, id, effort, task, now, role);
  }

  /** `q` is superseded: a record of the same provider, model and effort is strictly newer. */
  predicate Superseded(q: Record, qs: seq<Record>) {
    q.issuedAt.Some? && exists i :: 0 <= i < |qs| && Newer(qs[i], q)
  }

  predicate Newer(p: Record, q: Record) {
    && p.provider == q.provider && p.model == q.model && p.effort == q.effort
    && p.issuedAt.Some? && q.issuedAt.Some? && p.issuedAt.value > q.issuedAt.value
  }

  /** Records that are superseded change nothing, wherever they are added. */
  lemma JudgeIgnoresOlder(qs: seq<Record>, q: Record, id: RouteId, effort: Effort, task: Task, now: nat, role: Role)
    requires Superseded(q, qs)
    ensures Judge([q] + qs, id, effort, task, now, role) == Judge(qs, id, effort, task, now, role)
  {
    var m := Matching(qs, id, effort);
    MatchingAdd(qs, q, id, effort);
    if Matches(q, id, effort) {
      var i :| 0 <= i < |qs| && Newer(qs[i], q);
      MatchingCounts(qs, id, effort, qs[i]);
      assert qs[i] in multiset(m) && qs[i] in m;
      hide JudgeMatching, Matching, Matches, Newer;
      OlderJudgement(m, q, qs[i], id, effort, task, now, role);
    } else {
      assert [] + m == m;
    }
  }

  lemma MatchingAdd(qs: seq<Record>, q: Record, id: RouteId, effort: Effort)
    ensures Matching([q] + qs, id, effort) == (if Matches(q, id, effort) then [q] else []) + Matching(qs, id, effort)
  {
    hide Matches;
    assert ([q] + qs)[1..] == qs;
  }

  lemma OlderNewest(m: seq<Record>, q: Record, p: Record)
    requires p in m && Newer(p, q)
    ensures Newest([q] + m) == Newest(m) && Issued([q] + m, Newest(m)) == Issued(m, Newest(m))
    ensures Dated([q] + m) <==> Dated(m)
  {
    NewestBounds(m);
    var n := [q] + m;
    assert n[1..] == m;
    if Dated(n) {
      DatedByMember(n, m);
    }
    if Dated(m) {
      assert forall i :: 0 < i < |n| ==> n[i] == m[i - 1];
    }
    assert Issued(n, Newest(m)) == [] + Issued(m, Newest(m)) == Issued(m, Newest(m));
  }

  lemma OlderJudgement(m: seq<Record>, q: Record, p: Record, id: RouteId, effort: Effort, task: Task, now: nat,
      role: Role)
    requires p in m && Newer(p, q)
    ensures JudgeMatching([q] + m, id, effort, task, now, role) == JudgeMatching(m, id, effort, task, now, role)
  {
    hide RecordReason, Newest, Issued, Dated, Newer;
    OlderNewest(m, q, p);
  }

  // ---------------------------------------------------------------- candidates

  function AvoidKey(id: RouteId, avoid: Provider): nat { if ProviderOf(id) == avoid then 1 else 0 }

  function Insert(x: RouteId, s: seq<RouteId>, avoid: Provider): seq<RouteId> {
    if s == [] || AvoidKey(x, avoid) <= AvoidKey(s[0], avoid) then [x] + s else [s[0]] + Insert(x, s[1..], avoid)
  }

  /** A stable sort of the candidates by the comparison the selector uses. */
  function StableSort(s: seq<RouteId>, avoid: Provider): seq<RouteId> {
    if s == [] then [] else Insert(s[0], StableSort(s[1..], avoid), avoid)
  }

  function Others(s: seq<RouteId>, avoid: Provider): seq<RouteId> {
    if s == [] then [] else (if ProviderOf(s[0]) != avoid then [s[0]] else []) + Others(s[1..], avoid)
  }

  function Sames(s: seq<RouteId>, avoid: Provider): seq<RouteId> {
    if s == [] then [] else (if ProviderOf(s[0]) == avoid then [s[0]] else []) + Sames(s[1..], avoid)
  }

  lemma {:induction false} InsertSplits(x: RouteId, a: seq<RouteId>, b: seq<RouteId>, avoid: Provider)
    requires forall i :: 0 <= i < |a| ==> ProviderOf(a[i]) != avoid
    requires forall i :: 0 <= i < |b| ==> ProviderOf(b[i]) == avoid
    ensures Insert(x, a + b, avoid) == if ProviderOf(x) == avoid then a + ([x] + b) else [x] + a + b
  {
    hide ProviderOf;
    if a == [] {
      assert a + b == b;
    } else {
      InsertSplits(x, a[1..], b, avoid);
      assert (a + b)[1..] == a[1..] + b;
      assert a == [a[0]] + a[1..];
    }
  }

  /** Sorting only moves the avoided provider to the back, keeping both orders. */
  lemma {:induction false} SortPartitions(s: seq<RouteId>, avoid: Provider)
    ensures StableSort(s, avoid) == Others(s, avoid) + Sames(s, avoid)
    ensures forall i :: 0 <= i < |Others(s, avoid)| ==> ProviderOf(Others(s, avoid)[i]) != avoid
    ensures forall i :: 0 <= i < |Sames(s, avoid)| ==> ProviderOf(Sames(s, avoid)[i]) == avoid
  {
    hide ProviderOf, Insert;
    if s == [] {
      assert Others(s, avoid) == [] && Sames(s, avoid) == [];
    } else {
      var others, sames := Others(s[1..], avoid), Sames(s[1..], avoid);
      SortPartitions(s[1..], avoid);
      InsertSplits(s[0], others, sames, avoid);
      assert StableSort(s, avoid) == Insert(s[0], others + sames, avoid);
      assert Others(s, avoid) == if ProviderOf(s[0]) == avoid then others else [s[0]] + others;
      assert Sames(s, avoid) == if ProviderOf(s[0]) == avoid then [s[0]] + sames else sames;
    }
  }

  function Candidates(pool: Pool, avoid: Option<Provider>): seq<RouteId> {
    if avoid.Some? then StableSort(Priority(pool), avoid.value) else Priority(pool)
  }

  // ---------------------------------------------------------------- eligible routes and complaints

  datatype Entry = Entry(id: RouteId, effort: Effort, record: Record)

  /** The probe a refusal asks for.  `classes` is the attested data classes, if any. */
  datatype Hint = Hint(capabilities: seq<Capability>, domain: bool, classes: Option<seq<DataClass>>)

  datatype Complaint = Complaint(id: RouteId, effort: Effort, judgement: Judgement, hint: Option<Hint>)

  function Distinct(s: seq<Capability>): seq<Capability> {
    if s == [] then [] else
    var rest := Distinct(s[..|s| - 1]);
    if s[|s| - 1] in rest then rest else rest + [s[|s| - 1]]
  }

  function Probed(s: seq<Capability>): seq<Capability> {
    if s == [] then [] else (if s[0] != Text && s[0] != Tools then [s[0]] else []) + Probed(s[1..])
  }

  function MissingHint(task: Task, role: Role): Hint {
    Hint(Probed(Distinct(task.capabilities + if role == Vision then [Image] else [])), role == Domain,
         if task.dataClass.Some? && !IsBase(task.dataClass.value) then Some([Public, Internal, task.dataClass.value])
           else None)
  }

  function HintFor(j: Judgement, task: Task, role: Role): Option<Hint>
    requires !j.Good?
  {
    match j
    case Missing => Some(MissingHint(task, role))
    case Undated => None
    case Ambiguous => Some(Hint([], false, None))
    case Refused(r, _) => Some(
      if r == ImageRequired then Hint([Image], false, None)
      else if r.ProbeRequired? then Hint([r.capability], false, None)
      else if r == DomainRequired then Hint([], true, None)
      else if r == DataClassNotQualified then Hint([], false, Some([Public, Internal, ClassOf(task)]))
      else Hint([], false, None))
  }

  function JudgeFor(id: RouteId, qs: seq<Record>, task: Task, now: nat, p: Policy): Judgement {
    Judge(qs, id, EffortOf(id, p.pool), task, now, p.role)
  }

  function Eligible(ids: seq<RouteId>, qs: seq<Record>, task: Task, now: nat, p: Policy): seq<Entry> {
    if ids == [] then [] else
    var id := ids[|ids| - 1];
    var j := JudgeFor(id, qs, task, now, p);
    Eligible(ids[..|ids| - 1], qs, task, now, p) + if j.Good? then [Entry(id, EffortOf(id, p.pool), j.record)] else []
  }

  function Complaints(ids: seq<RouteId>, qs: seq<Record>, task: Task, now: nat, p: Policy): seq<Complaint> {
    if ids == [] then [] else
    var id := ids[|ids| - 1];
    var j := JudgeFor(id, qs, task, now, p);
    Complaints(ids[..|ids| - 1], qs, task, now, p)
    + if j.Good? then [] else [Complaint(id, EffortOf(id, p.pool), j, HintFor(j, task, p.role))]
  }

  // ---------------------------------------------------------------- spreading

  const UINT32: nat := 0x1_0000_0000

  function Hash(key: T.Text): (h: nat)
    ensures h < UINT32
  {
    if key == [] then 0 else (Hash(key[..|key| - 1]) * 31 + key[|key| - 1] as nat) % UINT32
  }

  function Rotation(s: seq<Entry>, key: T.Text): seq<Entry>
    requires s != []
  {
    var offset := Hash(key) % |s|;
    s[offset..] + s[..offset]
  }

  /** The loop that folds the key, and the rotation it decides. */
  method Rotate(s: seq<Entry>, key: T.Text) returns (r: seq<Entry>)
    requires s != []
    ensures r == Rotation(s, key)
  {
    var hash := 0;
    for index := 0 to |key|
      invariant hash == Hash(key[..index])
    {
      assert key[..index + 1][..index] == key[..index];
      hash := (hash * 31 + key[index] as nat) % UINT32;
    }
    assert key[..|key|] == key;
    var offset := hash % |s|;
    r := s[offset..] + s[..offset];
  }

  /** The entries of a provider, or of every other one, in order. */
  function Split(s: seq<Entry>, avoid: Provider, same: bool): seq<Entry> {
    if s == [] then [] else
    (if (ProviderOf(s[0].id) == avoid) == same then [s[0]] else []) + Split(s[1..], avoid, same)
  }

  function Rotatable(s: seq<Entry>, avoid: Option<Provider>): seq<Entry> {
    if avoid.Some? && Split(s, avoid.value, false) != [] then Split(s, avoid.value, false) else s
  }

  function Fixed(s: seq<Entry>, avoid: Option<Provider>): seq<Entry> {
    if avoid.Some? && Split(s, avoid.value, false) != [] then Split(s, avoid.value, true) else []
  }

  function Ordered(s: seq<Entry>, avoid: Option<Provider>, spread: T.Text): seq<Entry>
    requires s != []
  {
    if spread == [] then s else Rotation(Rotatable(s, avoid), spread) + Fixed(s, avoid)
  }

  // ---------------------------------------------------------------- the selection

  datatype Independence = Independence(independent: bool, avoided: Provider, considered: seq<RouteId>)

  datatype Outcome =
    | InvalidInput
    | NoRoute(policy: Policy, complaints: seq<Complaint>)
    | Selected(policy: Policy, chosen: Entry, alternates: seq<Entry>, independence: Option<Independence>,
      complaints: seq<Complaint>)

  function Select(task: Task, qs: seq<Record>, now: nat, avoid: Option<Provider>, spread: T.Text): Outcome {
    var policy := TaskPolicy(task);
    if policy == None then InvalidInput else
    var p := policy.value;
    var ids := Candidates(p.pool, avoid);
    var eligible := Eligible(ids, qs, task, now, p);
    var complaints := Complaints(ids, qs, task, now, p);
    if eligible == [] then NoRoute(p, complaints) else
    var ordered := Ordered(eligible, avoid, spread);
    Selected(p, ordered[0], ordered[1..],
             if avoid.Some? then Some(Independence(ProviderOf(ordered[0].id) != avoid.value, avoid.value,
               Others(ids, avoid.value)))
             else None,
             complaints)
  }

  /** The selector's loop over the candidates, and what it answers. */
  method SelectRoute(task: Task, qs: seq<Record>, now: nat, avoid: Option<Provider>, spread: T.Text)
    returns (o: Outcome)
    ensures o == Select(task, qs, now, avoid, spread)
  {
    hide Judge, TaskPolicy, Candidates;
    var policy := TaskPolicy(task);
    if policy == None {
      return InvalidInput;
    }
    var p := policy.value;
    var ids := Candidates(p.pool, avoid);
    var eligible, complaints := [], [];
    for k := 0 to |ids|
      invariant eligible == Eligible(ids[..k], qs, task, now, p)
      invariant complaints == Complaints(ids[..k], qs, task, now, p)
    {
      var id := ids[k];
      assert ids[..k + 1][..k] == ids[..k];
      var j := JudgeFor(id, qs, task, now, p);
      if j.Good? {
        eligible := eligible + [Entry(id, EffortOf(id, p.pool), j.record)];
      } else {
        complaints := complaints + [Complaint(id, EffortOf(id, p.pool), j, HintFor(j, task, p.role))];
      }
    }
    assert ids[..|ids|] == ids;
    if eligible == [] {
      return NoRoute(p, complaints);
    }
    var ordered := eligible;
    if spread != [] {
      var rotated := Rotate(Rotatable(eligible, avoid), spread);
      ordered := rotated + Fixed(eligible, avoid);
    }
    o := Selected(p, ordered[0], ordered[1..],
                  if avoid.Some? then
                    Some(Independence(ProviderOf(ordered[0].id) != avoid.value, avoid.value, Others(ids, avoid.value)))
                  else None,
                  complaints);
  }

  // ---------------------------------------------------------------- only the newest record counts

  lemma {:induction false} EntriesAgree(ids: seq<RouteId>, a: seq<Record>, b: seq<Record>, task: Task, now: nat,
      p: Policy)
    requires forall i :: 0 <= i < |ids| ==> JudgeFor(ids[i], a, task, now, p) == JudgeFor(ids[i], b, task, now, p)
    ensures Eligible(ids, a, task, now, p) == Eligible(ids, b, task, now, p)
    ensures Complaints(ids, a, task, now, p) == Complaints(ids, b, task, now, p)
  {
    hide JudgeFor;
    if ids == [] {
    } else {
      EntriesAgree(ids[..|ids| - 1], a, b, task, now, p);
    }
  }

  /** The answer does not depend on the order of the records. */
  lemma SelectIgnoresOrder(task: Task, a: seq<Record>, b: seq<Record>, now: nat, avoid: Option<Provider>,
      spread: T.Text)
    requires multiset(a) == multiset(b)
    ensures Select(task, a, now, avoid, spread) == Select(task, b, now, avoid, spread)
  {
    hide Judge, Candidates, Ordered;
    if TaskPolicy(task).Some? {
      var p := TaskPolicy(task).value;
      hide TaskPolicy;
      var ids := Candidates(p.pool, avoid);
      forall i | 0 <= i < |ids| ensures JudgeFor(ids[i], a, task, now, p) == JudgeFor(ids[i], b, task, now, p) {
        JudgeIgnoresOrder(a, b, ids[i], EffortOf(ids[i], p.pool), task, now, p.role);
      }
      EntriesAgree(ids, a, b, task, now, p);
    }
  }

  /** Adding superseded records, anywhere in the list, changes nothing. */
  lemma {:induction false} SelectIgnoresOlder(task: Task, qs: seq<Record>, stale: seq<Record>, now: nat,
      avoid: Option<Provider>, spread: T.Text,
                                              mixed: seq<Record>)
    requires forall q :: q in stale ==> Superseded(q, qs)
    requires multiset(mixed) == multiset(stale + qs)
    ensures Select(task, mixed, now, avoid, spread) == Select(task, qs, now, avoid, spread)
    decreases |stale|
  {
    hide Superseded, Select;
    SelectIgnoresOrder(task, mixed, stale + qs, now, avoid, spread);
    if stale == [] {
      assert stale + qs == qs;
    } else {
      var rest := stale[1..] + qs;
      assert stale + qs == [stale[0]] + rest;
      assert stale[0] in stale;
      StillSuperseded(stale[0], qs, rest);
      AddOne(task, rest, stale[0], now, avoid, spread);
      SelectIgnoresOlder(task, qs, stale[1..], now, avoid, spread, rest);
    }
  }

  lemma StillSuperseded(q: Record, qs: seq<Record>, more: seq<Record>)
    requires Superseded(q, qs) && |qs| <= |more| && more[|more| - |qs|..] == qs
    ensures Superseded(q, more)
  {
    var i :| 0 <= i < |qs| && Newer(qs[i], q);
    assert qs[i] == more[|more| - |qs| + i];
  }

  lemma AddOne(task: Task, qs: seq<Record>, q: Record, now: nat, avoid: Option<Provider>, spread: T.Text)
    requires Superseded(q, qs)
    ensures Select(task, [q] + qs, now, avoid, spread) == Select(task, qs, now, avoid, spread)
  {
    hide Judge, Candidates, Ordered, Superseded;
    if TaskPolicy(task).Some? {
      var p := TaskPolicy(task).value;
      hide TaskPolicy;
      var ids := Candidates(p.pool, avoid);
      forall i | 0 <= i < |ids| ensures JudgeFor(ids[i], [q] + qs, task, now, p) == JudgeFor(ids[i], qs, task, now, p) {
        JudgeIgnoresOlder(qs, q, ids[i], EffortOf(ids[i], p.pool), task, now, p.role);
      }
      EntriesAgree(ids, [q] + qs, qs, task, now, p);
    }
  }

  // ---------------------------------------------------------------- which route is chosen

  /** The routes that passed, in the order they were tried. */
  function Passing(task: Task, qs: seq<Record>, now: nat, avoid: Option<Provider>): seq<Entry> {
    if TaskPolicy(task) == None then [] else
    var p := TaskPolicy(task).value;
    Eligible(Candidates(p.pool, avoid), qs, task, now, p)
  }

  predicate Good(id: RouteId, e: Entry, qs: seq<Record>, task: Task, now: nat, p: Policy) {
    JudgeFor(id, qs, task, now, p) == Judgement.Good(e.record) && e.id == id && e.effort == EffortOf(id, p.pool)
  }

  predicate NoneGood(ids: seq<RouteId>, qs: seq<Record>, task: Task, now: nat, p: Policy) {
    forall i :: 0 <= i < |ids| ==> !JudgeFor(ids[i], qs, task, now, p).Good?
  }

  lemma {:induction false} FirstEntry(ids: seq<RouteId>, qs: seq<Record>, task: Task, now: nat, p: Policy)
    ensures Eligible(ids, qs, task, now, p) == [] <==> NoneGood(ids, qs, task, now, p)
    ensures Eligible(ids, qs, task, now, p) != [] ==>
              exists k :: 0 <= k < |ids| && Good(ids[k], Eligible(ids, qs, task, now, p)[0], qs, task, now, p)
                          && NoneGood(ids[..k], qs, task, now, p)
  {
    hide JudgeFor, EffortOf;
    if ids != [] {
      var n := |ids| - 1;
      var before, all := Eligible(ids[..n], qs, task, now, p), Eligible(ids, qs, task, now, p);
      FirstEntry(ids[..n], qs, task, now, p);
      if before != [] {
        var k :| 0 <= k < n && Good(ids[..n][k], before[0], qs, task, now, p)
          && NoneGood(ids[..n][..k], qs, task, now, p);
        assert ids[..n][..k] == ids[..k] && all[0] == before[0];
        assert JudgeFor(ids[k], qs, task, now, p).Good?;
      } else if JudgeFor(ids[n], qs, task, now, p).Good? {
        assert Good(ids[n], all[0], qs, task, now, p) && NoneGood(ids[..n], qs, task, now, p);
      } else {
        assert forall i :: 0 <= i < |ids| ==> ids[i] == if i < n then ids[..n][i] else ids[n];
      }
    }
  }

  /** Without spreading, the first route that passes is chosen, where the order is the
      priority of the pool with the avoided provider moved to the back. */
  lemma FirstPassingIsChosen(task: Task, qs: seq<Record>, now: nat, avoid: Option<Provider>)
    requires TaskPolicy(task).Some?
    ensures var p := TaskPolicy(task).value;
            var ids := if avoid.Some? then Others(Priority(p.pool), avoid.value) + Sames(Priority(p.pool), avoid.value)
              else Priority(p.pool);
            var o := Select(task, qs, now, avoid, []);
            && (o.NoRoute? <==> NoneGood(ids, qs, task, now, p))
            && (o.Selected? <==> !NoneGood(ids, qs, task, now, p))
            && (o.Selected? ==> exists k :: 0 <= k < |ids| && Good(ids[k], o.chosen, qs, task, now, p)
                                            && NoneGood(ids[..k], qs, task, now, p))
  {
    var p := TaskPolicy(task).value;
    hide TaskPolicy, NoneGood, Priority;
    if avoid.Some? {
      SortPartitions(Priority(p.pool), avoid.value);
    }
    FirstEntry(Candidates(p.pool, avoid), qs, task, now, p);
  }

  lemma {:induction false} EligibleAppend(a: seq<RouteId>, b: seq<RouteId>, qs: seq<Record>, task: Task, now: nat,
      p: Policy)
    ensures Eligible(a + b, qs, task, now, p) == Eligible(a, qs, task, now, p) + Eligible(b, qs, task, now, p)
    decreases |b|
  {
    hide JudgeFor, EffortOf;
    if b == [] {
      assert a + b == a;
    } else {
      var n := |b| - 1;
      EligibleAppend(a, b[..n], qs, task, now, p);
      assert (a + b)[..|a + b| - 1] == a + b[..n];
    }
  }

  lemma {:induction false} EligibleBounds(ids: seq<RouteId>, qs: seq<Record>, task: Task, now: nat, p: Policy)
    ensures |Eligible(ids, qs, task, now, p)| <= |ids|
    ensures forall e :: e in Eligible(ids, qs, task, now, p) ==> e.id in ids
  {
    hide JudgeFor, EffortOf;
    if ids == [] {
    } else {
      EligibleBounds(ids[..|ids| - 1], qs, task, now, p);
    }
  }

  lemma {:induction false} SplitCount(s: seq<Entry>, avoid: Provider, same: bool, e: Entry)
    ensures multiset(Split(s, avoid, same))[e] == if (ProviderOf(e.id) == avoid) == same then multiset(s)[e] else 0
  {
    hide ProviderOf;
    if s == [] {
    } else {
      SplitCount(s[1..], avoid, same, e);
      assert s == [s[0]] + s[1..];
    }
  }

  lemma SplitCounts(s: seq<Entry>, avoid: Provider)
    ensures multiset(Split(s, avoid, false)) + multiset(Split(s, avoid, true)) == multiset(s)
    ensures forall e :: e in Split(s, avoid, false) <==> e in s && ProviderOf(e.id) != avoid
  {
    hide ProviderOf, Split;
    var x, y := Split(s, avoid, false), Split(s, avoid, true);
    forall e ensures multiset(x)[e] + multiset(y)[e] == multiset(s)[e] {
      SplitCount(s, avoid, false, e);
      SplitCount(s, avoid, true, e);
    }
    forall e ensures e in x <==> e in s && ProviderOf(e.id) != avoid {
      SplitCount(s, avoid, false, e);
      assert e in x <==> e in multiset(x);
      assert e in s <==> e in multiset(s);
    }
  }

  lemma RotationCounts(s: seq<Entry>, key: T.Text)
    requires s != []
    ensures multiset(Rotation(s, key)) == multiset(s)
  {
    var offset := Hash(key) % |s|;
    assert s == s[..offset] + s[offset..];
  }

  lemma OrderedCounts(s: seq<Entry>, avoid: Option<Provider>, spread: T.Text)
    requires s != []
    ensures multiset(Ordered(s, avoid, spread)) == multiset(s)
  {
    hide Rotation;
    if spread != [] {
      RotationCounts(Rotatable(s, avoid), spread);
      if avoid.Some? {
        SplitCounts(s, avoid.value);
      }
    }
  }

  /** Whatever the key, the chosen route and its alternates are the routes that passed, each
      as often as it passed. */
  lemma SpreadPermutes(task: Task, qs: seq<Record>, now: nat, avoid: Option<Provider>, spread: T.Text)
    requires Passing(task, qs, now, avoid) != []
    ensures var o := Select(task, qs, now, avoid, spread);
            o.Selected? && multiset([o.chosen] + o.alternates) == multiset(Passing(task, qs, now, avoid))
  {
    hide TaskPolicy, Ordered, Candidates, Judge;
    var o := Select(task, qs, now, avoid, spread);
    var s := Passing(task, qs, now, avoid);
    OrderedCounts(s, avoid, spread);
    assert [o.chosen] + o.alternates == Ordered(s, avoid, spread);
  }

  lemma HashOne(c: T.CodeUnit)
    ensures Hash([c]) == c as nat
  {
    assert [c][..0] == [];
  }

  lemma LetterFor(k: nat, n: nat) returns (c: T.CodeUnit)
    requires k < n <= 4
    ensures 65 <= c <= 68 && c as nat % n == k
  {
    c := (65 + (k + 3 * n - 65 % n) % n) as T.CodeUnit;
  }

  lemma {:induction false} PartsAreMembers(s: seq<RouteId>, avoid: Provider)
    ensures forall id :: id in Others(s, avoid) + Sames(s, avoid) <==> id in s
  {
    hide ProviderOf;
    if s == [] {
    } else {
      PartsAreMembers(s[1..], avoid);
      assert forall id :: id in s <==> id == s[0] || id in s[1..];
    }
  }

  /** Sorting adds no route and drops none. */
  lemma CandidatesAre(pool: Pool, avoid: Option<Provider>)
    ensures forall id :: id in Candidates(pool, avoid) <==> id in Priority(pool)
  {
    hide Priority;
    if avoid.Some? {
      SortPartitions(Priority(pool), avoid.value);
      PartsAreMembers(Priority(pool), avoid.value);
    }
  }

  lemma CandidateCount(pool: Pool, avoid: Option<Provider>)
    ensures |Candidates(pool, avoid)| <= 4
  {
    if avoid.Some? {
      SortLength(Priority(pool), avoid.value);
    }
  }

  lemma {:induction false} InsertLength(x: RouteId, s: seq<RouteId>, avoid: Provider)
    ensures |Insert(x, s, avoid)| == |s| + 1
  {
    hide AvoidKey;
    if s == [] {
    } else {
      InsertLength(x, s[1..], avoid);
    }
  }

  lemma {:induction false} SortLength(s: seq<RouteId>, avoid: Provider)
    ensures |StableSort(s, avoid)| == |s|
  {
    if s == [] {
    } else {
      SortLength(s[1..], avoid);
      InsertLength(s[0], StableSort(s[1..], avoid), avoid);
    }
  }

  /** Spreading stays among the routes that keep the choice independent, and every one of
      them is reached, already by one of the letters A to D. */
  lemma SpreadReaches(task: Task, qs: seq<Record>, now: nat, avoid: Option<Provider>, e: Entry)
    requires Passing(task, qs, now, avoid) != []
    ensures e in Rotatable(Passing(task, qs, now, avoid), avoid) <==>
              exists key: T.Text :: key != [] && Select(task, qs, now, avoid, key).Selected?
                                    && Select(task, qs, now, avoid, key).chosen == e
  {
    var s := Passing(task, qs, now, avoid);
    var r := Rotatable(s, avoid);
    var p := TaskPolicy(task).value;
    hide TaskPolicy, Judge, Candidates, Rotatable, Fixed;
    RotatableSize(s, avoid);
    CandidateCount(p.pool, avoid);
    EligibleBounds(Candidates(p.pool, avoid), qs, task, now, p);
    forall key: T.Text | key != []
      ensures Select(task, qs, now, avoid, key).Selected? && Select(task, qs, now, avoid, key).chosen in r {
      assert Rotation(r, key)[0] == r[Hash(key) % |r|];
    }
    if e in r {
      var k :| 0 <= k < |r| && r[k] == e;
      var c := LetterFor(k, |r|);
      HashOne(c);
      assert Rotation(r, [c])[0] == e;
      assert Select(task, qs, now, avoid, [c]).chosen == e;
    }
  }

  lemma RotatableSize(s: seq<Entry>, avoid: Option<Provider>)
    requires s != []
    ensures 0 < |Rotatable(s, avoid)| <= |s|
  {
    if avoid.Some? {
      SplitCounts(s, avoid.value);
      assert |multiset(Split(s, avoid.value, false))| <= |multiset(s)|;
    }
  }

  /** The choice is marked independent exactly when it leaves the avoided provider, and it
      stays with that provider only if no route of another one passed. */
  lemma IndependenceIsHonest(task: Task, qs: seq<Record>, now: nat, avoid: Provider, spread: T.Text)
    requires Passing(task, qs, now, Some(avoid)) != []
    ensures var o := Select(task, qs, now, Some(avoid), spread);
            && o.Selected? && o.independence.Some? && o.independence.value.avoided == avoid
            && (o.independence.value.independent <==> ProviderOf(o.chosen.id) != avoid)
            && (o.independence.value.independent <==>
                 exists e :: e in Passing(task, qs, now, Some(avoid)) && ProviderOf(e.id) != avoid)
  {
    var s := Passing(task, qs, now, Some(avoid));
    FirstIsOther(task, qs, now, avoid, TaskPolicy(task).value);
    hide TaskPolicy, Judge, Candidates, ProviderOf, Ordered;
    OrderedFirst(s, avoid, spread);
  }

  /** Ordering keeps an independent route in front if there is one. */
  lemma OrderedFirst(s: seq<Entry>, avoid: Provider, spread: T.Text)
    requires s != [] && ((exists e :: e in s && ProviderOf(e.id) != avoid) ==> ProviderOf(s[0].id) != avoid)
    ensures var first := Ordered(s, Some(avoid), spread)[0];
            first in s && (ProviderOf(first.id) != avoid <==> exists e :: e in s && ProviderOf(e.id) != avoid)
  {
    hide ProviderOf, Split, Hash;
    if spread != [] {
      SplitCounts(s, avoid);
      var r := Rotatable(s, Some(avoid));
      var offset := Hash(spread) % |r|;
      assert Ordered(s, Some(avoid), spread)[0] == r[offset];
      assert r[offset] in r;
      if r == s {
        assert forall e :: e in s ==> ProviderOf(e.id) == avoid || Split(s, avoid, false) == s;
      }
    }
  }

  /** In priority order, a route of another provider comes first if there is one. */
  lemma FirstIsOther(task: Task, qs: seq<Record>, now: nat, avoid: Provider, p: Policy)
    ensures var s := Eligible(Candidates(p.pool, Some(avoid)), qs, task, now, p);
            (exists e :: e in s && ProviderOf(e.id) != avoid) ==> ProviderOf(s[0].id) != avoid
  {
    var ids := Priority(p.pool);
    var a, b := Others(ids, avoid), Sames(ids, avoid);
    hide Priority, ProviderOf, Judge;
    SortPartitions(ids, avoid);
    EligibleAppend(a, b, qs, task, now, p);
    EligibleBounds(a, qs, task, now, p);
    EligibleBounds(b, qs, task, now, p);
  }

  // ---------------------------------------------------------------- what a chosen route is backed by

  /** The record names the route and effort, is in force, shows the core cases and every
      capability the task needs passed, and permits the task's data; whatever it permits
      beyond ordinary evidence has a named author and a basis. */
  predicate Backs(q: Record, id: RouteId, effort: Effort, task: Task, now: nat, role: Role) {
    && Matches(q, id, effort) && q.issuedAt.Some? && q.expiresAt.Some? && q.issuedAt.value <= now < q.expiresAt.value
    && q.labelsOk && q.durationMs.Some? && q.available && q.transportPassed && q.textPassed && q.toolPassed
    && Passed(q.caseResults, TextCase) && Passed(q.caseResults, RoundtripCase)
    && (Needs(task, role, Image) ==> q.imagePassed)
    && (forall c :: c in {Image, StructuredOutput, Video} && Needs(task, role, c) ==>
         Passed(q.caseResults, ProbeCase(c)))
    && ClassOf(task) in q.allowedDataClasses && (role == Domain ==> q.domainEvidence)
    && (q.domainEvidence || (exists c :: c in q.allowedDataClasses && !IsBase(c)) ==>
          q.attestation.Some? && IsNamed(q.attestation.value))
  }

  predicate IsNamed(a: Attestation) {
    && a.attestedBy.Some? && a.attestedBy.value != [] && |a.attestedBy.value| <= 256
    && a.basis.Some? && a.basis.value != [] && |a.basis.value| <= 2000
  }

  /** What each reason says against a record. */
  predicate Faulty(q: Record, id: RouteId, effort: Effort, task: Task, now: nat, role: Role, r: Reason) {
    match r
    case InvalidQualification =>
      !q.labelsOk || q.issuedAt == None || q.expiresAt == None || q.durationMs == None
      || q.expiresAt.value <= q.issuedAt.value
    case Unattested =>
      && (q.domainEvidence || exists c :: c in q.allowedDataClasses && !IsBase(c))
      && (q.attestation == None || !IsNamed(q.attestation.value))
    case Mismatch => !Matches(q, id, effort)
    case Future => q.issuedAt.Some? && now < q.issuedAt.value
    case Expired => q.expiresAt.Some? && q.expiresAt.value <= now
    case Unavailable => !q.available
    case TextOrTransport => !q.transportPassed || !q.textPassed || !Passed(q.caseResults, TextCase)
    case ToolRoundtrip => !q.toolPassed || !Passed(q.caseResults, RoundtripCase)
    case ImageRequired => Needs(task, role, Image) && (!q.imagePassed || !Passed(q.caseResults, ProbeCase(Image)))
    case ProbeRequired(c) =>
      (c == StructuredOutput || c == Video) && Needs(task, role, c) && !Passed(q.caseResults, ProbeCase(c))
    case DataClassNotQualified => ClassOf(task) !in q.allowedDataClasses
    case DomainRequired => role == Domain && !q.domainEvidence
  }

  /** The order in which reasons are given. */
  function PlaceOf(r: Reason): nat {
    match r
    case InvalidQualification => 0
    case Unattested => 1
    case Mismatch => 2
    case Future => 3
    case Expired => 4
    case Unavailable => 5
    case TextOrTransport => 6
    case ToolRoundtrip => 7
    case ImageRequired => 8
    case ProbeRequired(c) => if c == Video then 10 else 9
    case DataClassNotQualified => 11
    case DomainRequired => 12
  }

  lemma GivenInOrder(q: Record, id: RouteId, effort: Effort, task: Task, now: nat, role: Role, r: Reason)
    requires Faulty(q, id, effort, task, now, role, r)
    ensures RecordReason(q, id, effort, task, now, role).Some?
    ensures PlaceOf(RecordReason(q, id, effort, task, now, role).value) <= PlaceOf(r)
  {
    hide Passed, Needs, ProviderOf, ModelOf, IsBase;
    match r
    case _ =>
  }

  lemma GivenIsTrue(q: Record, id: RouteId, effort: Effort, task: Task, now: nat, role: Role)
    requires RecordReason(q, id, effort, task, now, role).Some?
    ensures Faulty(q, id, effort, task, now, role, RecordReason(q, id, effort, task, now, role).value)
  {
    hide Passed, Needs, ProviderOf, ModelOf;
  }

  /** A record is refused for the first thing, in their order, that is true of it. */
  lemma RefusedForAFault(q: Record, id: RouteId, effort: Effort, task: Task, now: nat, role: Role)
    requires RecordReason(q, id, effort, task, now, role).Some?
    ensures Faulty(q, id, effort, task, now, role, RecordReason(q, id, effort, task, now, role).value)
    ensures forall r :: Faulty(q, id, effort, task, now, role, r) ==>
              PlaceOf(RecordReason(q, id, effort, task, now, role).value) <= PlaceOf(r)
  {
    hide RecordReason, Faulty, PlaceOf;
    GivenIsTrue(q, id, effort, task, now, role);
    forall r | Faulty(q, id, effort, task, now, role, r)
      ensures PlaceOf(RecordReason(q, id, effort, task, now, role).value) <= PlaceOf(r) {
      GivenInOrder(q, id, effort, task, now, role, r);
    }
  }

  /** Nothing is said against a record exactly if it is all that. */
  lemma AcceptedBacks(q: Record, id: RouteId, effort: Effort, task: Task, now: nat, role: Role)
    ensures RecordReason(q, id, effort, task, now, role) == None <==> Backs(q, id, effort, task, now, role)
  {
    hide Passed, Needs, ProviderOf, ModelOf;
  }

  /** The evidence is the one newest record of its route and effort, strictly newer than any other. */
  predicate IsNewest(q: Record, qs: seq<Record>) {
    q in qs && forall p :: p in qs && p.provider == q.provider && p.model == q.model && p.effort == q.effort ==>
      p.issuedAt.Some? && (p == q || Newer(q, p))
  }

  lemma GoodMeans(m: seq<Record>, id: RouteId, effort: Effort, task: Task, now: nat, role: Role)
    requires JudgeMatching(m, id, effort, task, now, role).Good?
    ensures var q := JudgeMatching(m, id, effort, task, now, role).record;
            Dated(m) && Issued(m, Newest(m)) == [q] && RecordReason(q, id, effort, task, now, role) == None
  {
    hide RecordReason, Newest, Issued, Dated;
  }

  lemma StrictlyNewest(m: seq<Record>, q: Record, r: Record)
    requires Dated(m) && Issued(m, Newest(m)) == [q] && r in m
    ensures q in m && q.issuedAt.Some? && r.issuedAt.Some? && (r == q || r.issuedAt.value < q.issuedAt.value)
  {
    hide Newest, Issued;
    NewestBounds(m);
    assert q in [q];
    InIssued(m, Newest(m), q);
    InIssued(m, Newest(m), r);
  }

  lemma InMatching(qs: seq<Record>, id: RouteId, effort: Effort, q: Record)
    ensures q in Matching(qs, id, effort) <==> q in qs && Matches(q, id, effort)
  {
    hide Matching, Matches;
    MatchingCounts(qs, id, effort, q);
    assert q in multiset(Matching(qs, id, effort)) <==> q in Matching(qs, id, effort);
    assert q in multiset(qs) <==> q in qs;
  }

  lemma GoodIsBacked(qs: seq<Record>, id: RouteId, task: Task, now: nat, p: Policy)
    requires JudgeFor(id, qs, task, now, p).Good?
    ensures var q := JudgeFor(id, qs, task, now, p).record;
            Backs(q, id, EffortOf(id, p.pool), task, now, p.role) && IsNewest(q, qs)
  {
    var effort := EffortOf(id, p.pool);
    var m := Matching(qs, id, effort);
    var q := JudgeFor(id, qs, task, now, p).record;
    hide EffortOf, RecordReason, Backs, Matching, Newest, Issued, JudgeMatching, Dated;
    GoodMeans(m, id, effort, task, now, p.role);
    AcceptedBacks(q, id, effort, task, now, p.role);
    assert q in [q];
    InIssued(m, Newest(m), q);
    InMatching(qs, id, effort, q);
    forall r | r in qs && r.provider == q.provider && r.model == q.model && r.effort == q.effort
      ensures r.issuedAt.Some? && (r == q || Newer(q, r))
    {
      InMatching(qs, id, effort, r);
      StrictlyNewest(m, q, r);
    }
  }

  lemma InIssued(m: seq<Record>, at: nat, q: Record)
    ensures q in Issued(m, at) <==> q in m && q.issuedAt == Some(at)
  {
    hide Issued;
    IssuedCounts(m, at, q);
    assert q in multiset(Issued(m, at)) <==> q in Issued(m, at);
    assert q in multiset(m) <==> q in m;
  }

  ghost predicate Backed(e: Entry, task: Task, qs: seq<Record>, now: nat, p: Policy) {
    Backs(e.record, e.id, e.effort, task, now, p.role) && e.effort == EffortOf(e.id, p.pool) && IsNewest(e.record, qs)
  }

  lemma PassingIsBacked(task: Task, qs: seq<Record>, now: nat, avoid: Option<Provider>, p: Policy, e: Entry)
    requires TaskPolicy(task) == Some(p) && e in Passing(task, qs, now, avoid)
    ensures Backed(e, task, qs, now, p)
  {
    hide TaskPolicy, Candidates, JudgeFor, Backs, IsNewest, EffortOf;
    PassingIsGood(Candidates(p.pool, avoid), qs, task, now, p, e);
    GoodIsBacked(qs, e.id, task, now, p);
  }

  /** Every route that can run, the chosen one and each alternate, is backed by its own newest
      record. */
  lemma SelectedIsBacked(task: Task, qs: seq<Record>, now: nat, avoid: Option<Provider>, spread: T.Text, p: Policy)
    requires TaskPolicy(task) == Some(p)
    ensures var o := Select(task, qs, now, avoid, spread);
            o.Selected? ==> forall e :: e in [o.chosen] + o.alternates ==> Backed(e, task, qs, now, p)
  {
    hide TaskPolicy, Candidates, JudgeFor, Ordered, Backed;
    var o := Select(task, qs, now, avoid, spread);
    if o.Selected? {
      SpreadPermutes(task, qs, now, avoid, spread);
      var all := [o.chosen] + o.alternates;
      forall e | e in all ensures Backed(e, task, qs, now, p) {
        assert e in multiset(all);
        assert e in multiset(Passing(task, qs, now, avoid)) && e in Passing(task, qs, now, avoid);
        PassingIsBacked(task, qs, now, avoid, p, e);
      }
    }
  }

  lemma {:induction false} PassingIsGood(ids: seq<RouteId>, qs: seq<Record>, task: Task, now: nat, p: Policy, e: Entry)
    requires e in Eligible(ids, qs, task, now, p)
    ensures JudgeFor(e.id, qs, task, now, p) == Judgement.Good(e.record) && e.effort == EffortOf(e.id, p.pool)
  {
    hide JudgeFor, EffortOf;
    if ids != [] && e in Eligible(ids[..|ids| - 1], qs, task, now, p) {
      PassingIsGood(ids[..|ids| - 1], qs, task, now, p, e);
    }
  }
}
