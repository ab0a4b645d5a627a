/** The capacity report reads the same records as the selector, with a rule of its own for the newest. */
module Capacity {
  import opened Wrappers
  import opened Routes
  import S = Selection
  import T = Text

  function IssuedAt(q: Record): nat { if q.issuedAt.Some? then q.issuedAt.value else 0 }

  /** The report keeps the first of two records issued at the same time. */
  function Reduce(m: seq<Record>): Record
    requires m != []
  {
    if |m| == 1 then m[0] else
    var best := Reduce(m[..|m| - 1]);
    if IssuedAt(best) >= IssuedAt(m[|m| - 1]) then best else m[|m| - 1]
  }

  /** A route is reported as ready when its provider is registered and its newest record was
      available and has not expired. */
  predicate Dispatchable(qs: seq<Record>, id: RouteId, pool: Pool, registered: set<Provider>, now: nat) {
    var m := Matching(qs, id, EffortOf(id, pool));
    && ProviderOf(id) in registered && m != []
    && Reduce(m).available && Reduce(m).expiresAt.Some? && Reduce(m).expiresAt.value > now
  }

  lemma {:induction false} ReduceIsNewest(m: seq<Record>)
    requires m != [] && Dated(m)
    ensures Reduce(m) in m && forall q :: q in m ==> IssuedAt(q) <= IssuedAt(Reduce(m))
  {
    if |m| == 1 {
    } else {
      var n := m[..|m| - 1];
      ReduceIsNewest(n);
      assert forall q :: q in m <==> q in n || q == m[|m| - 1];
    }
  }

  /** Of several newest records the report looks at the first. */
  lemma {:induction false} ReduceIsFirst(m: seq<Record>) returns (i: nat)
    requires m != []
    ensures i < |m| && m[i] == Reduce(m) && forall j :: 0 <= j < i ==> IssuedAt(m[j]) < IssuedAt(m[i])
    ensures forall j :: i < j < |m| ==> IssuedAt(m[j]) <= IssuedAt(m[i])
  {
    if |m| == 1 {
      i := 0;
    } else {
      var n := m[..|m| - 1];
      i := ReduceIsFirst(n);
      assert forall j :: 0 <= j < |n| ==> m[j] == n[j];
      if IssuedAt(n[i]) < IssuedAt(m[|m| - 1]) { i := |m| - 1; }
    }
  }

  lemma {:induction false} IssuedMembers(m: seq<Record>, at: nat)
    ensures forall q :: q in Issued(m, at) <==> q in m && q.issuedAt == Some(at)
  {
    if m == [] {
    } else {
      IssuedMembers(m[1..], at);
      assert forall q :: q in m <==> q == m[0] || q in m[1..];
    }
  }

  predicate SameRoute(p: Record, q: Record) {
    p.provider == q.provider && p.model == q.model && p.effort == q.effort
  }

  /** A record of the route, none of the same route newer, that shows it available and in force. */
  predicate ReadyRecord(q: Record, qs: seq<Record>, id: RouteId, pool: Pool, now: nat) {
    && q in qs && Matches(q, id, EffortOf(id, pool))
    && (forall r :: r in qs && SameRoute(r, q) ==> IssuedAt(r) <= IssuedAt(q))
    && q.available && q.expiresAt.Some? && now < q.expiresAt.value
  }

  predicate OnlyNewest(q: Record, qs: seq<Record>) {
    forall r :: r in qs && SameRoute(r, q) && IssuedAt(r) == IssuedAt(q) ==> r == q
  }

  /** A route is reported as ready exactly if its provider is registered and its newest record was
      available and has not expired; of several newest ones the report looks at one. */
  lemma DispatchableExactly(qs: seq<Record>, id: RouteId, pool: Pool, registered: set<Provider>, now: nat)
    requires forall q :: q in qs ==> q.issuedAt.Some?
    ensures Dispatchable(qs, id, pool, registered, now) ==>
              ProviderOf(id) in registered && exists q :: ReadyRecord(q, qs, id, pool, now)
    ensures forall q :: ProviderOf(id) in registered && ReadyRecord(q, qs, id, pool, now) && OnlyNewest(q, qs) ==>
              Dispatchable(qs, id, pool, registered, now)
  {
    var effort := EffortOf(id, pool);
    var m := Matching(qs, id, effort);
    hide EffortOf, ProviderOf, ModelOf, Matching, Reduce, ReadyRecord, OnlyNewest;
    MatchingMembers(qs, id, effort);
    if m != [] {
      ReduceIsNewest(m);
      ReducedIsReady(qs, id, pool, now);
    }
    forall q | ReadyRecord(q, qs, id, pool, now) && OnlyNewest(q, qs) ensures m != [] && Reduce(m) == q {
      OnlyNewestIsReduced(q, qs, id, pool, now);
    }
    ReadyMeans(qs, id, pool, now);
  }

  lemma ReadyMeans(qs: seq<Record>, id: RouteId, pool: Pool, now: nat)
    ensures forall q :: ReadyRecord(q, qs, id, pool, now) ==>
              q.available && q.expiresAt.Some? && now < q.expiresAt.value
  {
  }

  lemma MatchingMembers(qs: seq<Record>, id: RouteId, effort: Effort)
    ensures forall q :: q in Matching(qs, id, effort) <==> q in qs && Matches(q, id, effort)
  {
    hide Matching, Matches;
    forall q ensures q in Matching(qs, id, effort) <==> q in qs && Matches(q, id, effort) {
      S.InMatching(qs, id, effort, q);
    }
  }

  lemma MembersAreDated(m: seq<Record>, qs: seq<Record>)
    requires (forall q :: q in m ==> q in qs) && forall q :: q in qs ==> q.issuedAt.Some?
    ensures Dated(m)
  {
    forall i | 0 <= i < |m| ensures m[i].issuedAt.Some? {
      assert m[i] in m;
    }
  }

  lemma ReducedIsReady(qs: seq<Record>, id: RouteId, pool: Pool, now: nat)
    requires Matching(qs, id, EffortOf(id, pool)) != [] && forall q :: q in qs ==> q.issuedAt.Some?
    ensures var q := Reduce(Matching(qs, id, EffortOf(id, pool)));
            q.available && q.expiresAt.Some? && q.expiresAt.value > now ==> ReadyRecord(q, qs, id, pool, now)
  {
    var m := Matching(qs, id, EffortOf(id, pool));
    hide EffortOf, ProviderOf, ModelOf, Matching, Reduce;
    MatchingMembers(qs, id, EffortOf(id, pool));
    MembersAreDated(m, qs);
    ReduceIsNewest(m);
  }

  lemma OnlyNewestIsReduced(q: Record, qs: seq<Record>, id: RouteId, pool: Pool, now: nat)
    requires ReadyRecord(q, qs, id, pool, now) && OnlyNewest(q, qs) && forall r :: r in qs ==> r.issuedAt.Some?
    ensures var m := Matching(qs, id, EffortOf(id, pool)); m != [] && Reduce(m) == q
  {
    var m := Matching(qs, id, EffortOf(id, pool));
    hide EffortOf, ProviderOf, ModelOf, Matching, Reduce;
    MatchingMembers(qs, id, EffortOf(id, pool));
    MembersAreDated(m, qs);
    assert q in m;
    ReduceIsNewest(m);
  }

  /** The unique newest record of the selector is the record the report looks at. */
  lemma SameNewestRecord(m: seq<Record>)
    requires m != [] && Dated(m) && |Issued(m, Newest(m))| == 1
    ensures Issued(m, Newest(m)) == [Reduce(m)]
  {
    ReduceIsNewest(m);
    S.NewestBounds(m);
    var at := Newest(m);
    var only := Issued(m, at)[0];
    IssuedMembers(m, at);
    hide Newest, Issued, Reduce;
    assert only in Issued(m, at);
    assert IssuedAt(Reduce(m)) == at;
    assert Reduce(m).issuedAt.Some? by {
      var i :| 0 <= i < |m| && m[i] == Reduce(m);
    }
    assert Reduce(m) in Issued(m, at);
  }

  lemma ReasonFacts(q: Record, id: RouteId, effort: Effort, task: Task, now: nat, role: Role)
    requires RecordReason(q, id, effort, task, now, role) == None
    ensures q.available && q.expiresAt.Some? && q.expiresAt.value > now
  {
    hide Passed, Widened, Needs;
  }

  /** Every route the selector would use for a task of this pool is reported as ready, if its
      provider is registered. */
  lemma GoodIsDispatchable(qs: seq<Record>, id: RouteId, task: Task, now: nat, p: Policy, registered: set<Provider>)
    requires S.JudgeFor(id, qs, task, now, p).Good? && ProviderOf(id) in registered
    ensures Dispatchable(qs, id, p.pool, registered, now)
  {
    var effort := EffortOf(id, p.pool);
    var m := Matching(qs, id, effort);
    hide Matching, EffortOf, Newest, RecordReason;
    SameNewestRecord(m);
    ReasonFacts(Reduce(m), id, effort, task, now, p.role);
  }

  /** A selected route, the chosen one or an alternate, is reported as ready exactly if its
      provider is registered: on everything else the report and the selector agree. */
  lemma SelectedIsReady(task: Task, qs: seq<Record>, now: nat, avoid: Option<Provider>, spread: T.Text, p: Policy,
                        registered: set<Provider>, e: S.Entry)
    requires TaskPolicy(task) == Some(p) && S.Select(task, qs, now, avoid, spread).Selected?
    requires var o := S.Select(task, qs, now, avoid, spread); e in [o.chosen] + o.alternates
    ensures Dispatchable(qs, e.id, p.pool, registered, now) <==> ProviderOf(e.id) in registered
  {
    var o := S.Select(task, qs, now, avoid, spread);
    hide TaskPolicy, S.JudgeFor, ProviderOf, S.Ordered, S.Candidates, S.Eligible, Matching, Reduce;
    S.SpreadPermutes(task, qs, now, avoid, spread);
    assert e in multiset([o.chosen] + o.alternates);
    assert e in S.Passing(task, qs, now, avoid) by { assert e in multiset(S.Passing(task, qs, now, avoid)); }
    S.PassingIsGood(S.Candidates(p.pool, avoid), qs, task, now, p, e);
    if ProviderOf(e.id) in registered {
      GoodIsDispatchable(qs, e.id, task, now, p, registered);
    }
  }

  /** If the report shows nothing ready in a pool, no task of that pool can be selected, or some
      provider of the pool is not registered. */
  lemma NothingReadyNothingSelected(task: Task, qs: seq<Record>, now: nat, avoid: Option<Provider>, spread: T.Text,
                                    p: Policy, registered: set<Provider>)
    requires TaskPolicy(task) == Some(p)
    requires forall i :: 0 <= i < |Priority(p.pool)| ==> !Dispatchable(qs, Priority(p.pool)[i], p.pool, registered, now)
    ensures S.Select(task, qs, now, avoid, spread).NoRoute? ||
            exists i :: 0 <= i < |Priority(p.pool)| && ProviderOf(Priority(p.pool)[i]) !in registered
  {
    var ids := S.Candidates(p.pool, avoid);
    hide TaskPolicy, Dispatchable, S.JudgeFor, Priority, ProviderOf, S.Ordered;
    S.CandidatesAre(p.pool, avoid);
    if forall i :: 0 <= i < |Priority(p.pool)| ==> ProviderOf(Priority(p.pool)[i]) in registered {
      forall i | 0 <= i < |ids| ensures !S.JudgeFor(ids[i], qs, task, now, p).Good? {
        assert ids[i] in Priority(p.pool);
        if S.JudgeFor(ids[i], qs, task, now, p).Good? {
          GoodIsDispatchable(qs, ids[i], task, now, p, registered);
        }
      }
      S.FirstEntry(ids, qs, task, now, p);
    }
  }
}
