/** What every chain of revisions that a reader accepts has in common, from first to last. */
module Histories {
  import opened Wrappers
  import opened Text
  import opened Journal

  /** How a round may differ from itself at any later revision. */
  predicate RoundLater(a: Round, b: Round) {
    && a.attemptId == b.attemptId && a.visibleText <= b.visibleText
    && (a.status == Completed ==> a == b)
    && (a.status == InterruptedUncertain ==> a.status == b.status)
    && (b.status != Completed ==> a.hold == b.hold)
  }

  lemma {:induction false} SpentGrows(a: seq<Round>, b: seq<Round>)
    requires |a| <= |b|
    requires forall k :: 0 <= k < |a| ==> OrZero(a[k].cost) <= OrZero(b[k].cost)
    requires forall k :: |a| <= k < |b| ==> 0 <= OrZero(b[k].cost)
    ensures Spent(a) <= Spent(b)
  {
    if b == [] {
    } else {
      SpentGrows(if |a| == |b| then a[..|a| - 1] else a, b[..|b| - 1]);
    }
  }

  /** A record whose last round was interrupted is not followed by any other. */
  lemma InterruptedIsLast(b: Record, owner: string, task: string, revision: int, a: Record)
    requires Accepts(b, owner, task, revision)
    requires b.rounds != [] && Last(b.rounds).status == InterruptedUncertain
    ensures !MayFollow(Some(b), a)
  {
  }

  lemma NextRound(b: Record, a: Record, owner: string, task: string, revision: int, k: nat)
    requires Accepts(b, owner, task, revision) && MayFollow(Some(b), a) && k < |b.rounds|
    ensures k < |a.rounds| && RoundLater(b.rounds[k], a.rounds[k])
    ensures OrZero(b.rounds[k].cost) <= 0 || a.rounds[k] == b.rounds[k]
  {
    assert RoundOk(b.request, b.rounds, k);
    assert RoundMayFollow(b.rounds[k], a.rounds[k]);
    if b.rounds[k].status == InterruptedUncertain {
      InterruptedIsLast(b, owner, task, revision, a);
    }
  }

  lemma CostsAreNatural(r: Record, owner: string, task: string, revision: int, k: nat)
    requires Accepts(r, owner, task, revision) && k < |r.rounds|
    ensures 0 <= OrZero(r.rounds[k].cost)
  {
    assert RoundOk(r.request, r.rounds, k);
  }

  /** The same facts for two neighbouring revisions. */
  lemma NextRevision(b: Record, a: Record, owner: string, task: string, revision: int)
    requires Accepts(b, owner, task, revision) && Accepts(a, owner, task, revision + 1)
    requires MayFollow(Some(b), a)
    ensures b.request == a.request && b.evidence == a.evidence && |b.rounds| <= |a.rounds|
    ensures forall k :: 0 <= k < |b.rounds| ==> RoundLater(b.rounds[k], a.rounds[k])
    ensures b.spent <= a.spent
  {
    forall k | 0 <= k < |b.rounds|
      ensures RoundLater(b.rounds[k], a.rounds[k]) && OrZero(b.rounds[k].cost) <= OrZero(a.rounds[k].cost)
    {
      NextRound(b, a, owner, task, revision, k);
      CostsAreNatural(a, owner, task, revision + 1, k);
    }
    forall k | |b.rounds| <= k < |a.rounds| ensures 0 <= OrZero(a.rounds[k].cost) {
      CostsAreNatural(a, owner, task, revision + 1, k);
    }
    SpentGrows(b.rounds, a.rounds);
  }

  lemma RoundLaterTransitive(a: Round, b: Round, c: Round)
    requires RoundLater(a, b) && RoundLater(b, c)
    ensures RoundLater(a, c)
  {
  }

  /** Between any two revisions of one accepted chain: the request and the evidence are the
      same, no round is dropped, reordered or renamed, text is only appended to, a settled
      round is never touched again, a reservation is held until its round settles, and the
      settled cost never goes down. */
  lemma {:induction false} LaterRevision(h: seq<Record>, owner: string, task: string, i: nat, j: nat)
    requires History(h, owner, task) && i <= j < |h|
    ensures h[i].request == h[j].request && h[i].evidence == h[j].evidence
    ensures |h[i].rounds| <= |h[j].rounds|
    ensures forall k :: 0 <= k < |h[i].rounds| ==> RoundLater(h[i].rounds[k], h[j].rounds[k])
    ensures h[i].spent <= h[j].spent
    decreases j
  {
    if i == j {
    } else {
      hide Accepts, MayFollow;
      LaterRevision(h, owner, task, i, j - 1);
      assert AcceptedAt(h, owner, task, j - 1) && AcceptedAt(h, owner, task, j);
      NextRevision(h[j - 1], h[j], owner, task, j);
      forall k | 0 <= k < |h[i].rounds| ensures RoundLater(h[i].rounds[k], h[j].rounds[k]) {
        RoundLaterTransitive(h[i].rounds[k], h[j - 1].rounds[k], h[j].rounds[k]);
      }
    }
  }

  /** Terminal states are absorbing: a revision in one of them is the last revision. */
  lemma TerminalIsLast(h: seq<Record>, owner: string, task: string, i: nat)
    requires History(h, owner, task) && i < |h| && IsTerminal(h[i].status)
    ensures i == |h| - 1
  {
    assert i + 1 < |h| ==> AcceptedAt(h, owner, task, i + 1);
  }

  /** Number of revisions that committed an attempt. */
  function Commits(h: seq<Record>): nat {
    if h == [] then 0
    else Commits(h[..|h| - 1]) + (if h[|h| - 1].status == AttemptCommitted then 1 else 0)
  }

  /** Rounds and commitments are the same thing: a chain commits exactly as many attempts as
      its last revision has rounds, hence never more than the request allows. */
  lemma {:induction false} CommitsAreRounds(h: seq<Record>, owner: string, task: string)
    requires History(h, owner, task) && h != []
    ensures Commits(h) == |h[|h| - 1].rounds| <= h[0].request.maxRounds
  {
    var n := |h| - 1;
    CommitStep(h, owner, task);
    if n == 0 {
    } else {
      PrefixHistory(h, owner, task, n);
      CommitsAreRounds(h[..n], owner, task);
      LaterRevision(h, owner, task, 0, n);
    }
  }

  lemma CommitStep(h: seq<Record>, owner: string, task: string)
    requires History(h, owner, task) && h != []
    ensures |h[|h| - 1].rounds| <= h[|h| - 1].request.maxRounds
    ensures |h[|h| - 1].rounds| ==
            (if |h| == 1 then 0 else |h[|h| - 2].rounds|) + (if h[|h| - 1].status == AttemptCommitted then 1 else 0)
  {
    var n := |h| - 1;
    assert AcceptedAt(h, owner, task, n);
  }

  lemma PrefixHistory(h: seq<Record>, owner: string, task: string, n: nat)
    requires History(h, owner, task) && n <= |h|
    ensures History(h[..n], owner, task)
  {
    forall i | 0 <= i < n ensures AcceptedAt(h[..n], owner, task, i) {
      assert AcceptedAt(h, owner, task, i);
      assert Before(h[..n], i) == Before(h, i);
    }
  }

  /** Every round of a revision was committed by one earlier revision, which named the same
      attempt and in which that round was the newest. */
  lemma {:induction false} CommittedEarlier(h: seq<Record>, owner: string, task: string, j: nat, k: nat)
    returns (i: nat)
    requires History(h, owner, task) && j < |h| && k < |h[j].rounds|
    ensures i <= j && h[i].status == AttemptCommitted && |h[i].rounds| == k + 1
    ensures h[i].rounds[k].attemptId == h[j].rounds[k].attemptId
    decreases j
  {
    if h[j].status == AttemptCommitted && |h[j].rounds| == k + 1 {
      i := j;
    } else {
      assert AcceptedAt(h, owner, task, j);
      HadRound(Before(h, j), h[j], k);
      i := CommittedEarlier(h, owner, task, j - 1, k);
    }
  }

  /** A round that this revision did not commit was already there in the one before. */
  lemma HadRound(before: Option<Record>, a: Record, k: nat)
    requires MayFollow(before, a) && k < |a.rounds|
    requires !(a.status == AttemptCommitted && |a.rounds| == k + 1)
    ensures before.Some? && k < |before.value.rounds|
    ensures before.value.rounds[k].attemptId == a.rounds[k].attemptId
  {
    assert before.Some? && RoundMayFollow(before.value.rounds[k], a.rounds[k]);
  }

  /** Appending one acceptable successor keeps a chain a chain. */
  lemma ExtendHistory(h: seq<Record>, owner: string, task: string, r: Record)
    requires History(h, owner, task)
    requires Accepts(r, owner, task, |h| + 1) && MayFollow(Before(h, |h|), r)
    ensures History(h + [r], owner, task)
  {
    var g := h + [r];
    forall i | 0 <= i < |g| ensures AcceptedAt(g, owner, task, i) {
      assert i < |h| ==> AcceptedAt(h, owner, task, i);
      assert Before(g, i) == Before(h, i);
    }
  }
}
