/**
 Verdicts and compactions as reviewers declare them, what is kept of them, and whether another
 cycle is permitted (verdict.mjs).
 */
module Verdicts {
  import opened Wrappers
  import T = Text

  // ---------------------------------------------------------------- what a reviewer declares

  datatype Standing = Verified | Partial | Failed | NeedsClarification | OtherStanding

  datatype Severity = Blocker | Major | Minor | Note | OtherSeverity

  /** An entry of a declared list; `None` stands for anything but text. */
  type Entry = Option<T.Text>

  datatype Finding = Finding(severity: Severity, detail: Entry)

  /** A declared object; `None` is an absent field or one of the wrong type. */
  datatype Declared = Declared(
    verdict: Standing, onObjective: Option<bool>, summary: Entry, findings: Option<seq<Finding>>,
    clarifications: Option<seq<Entry>>, verified: Option<seq<Entry>>)

  // ---------------------------------------------------------------- what is kept

  datatype Contradiction = OffObjective | WithBlocker | WithoutQuestion

  datatype Loss =
    | SummaryTruncated | FindingsDropped(count: nat) | ClarificationsDropped(count: nat) | VerifiedDropped(count: nat)

  datatype KeptFinding = KeptFinding(severity: Severity, detail: T.Text)

  datatype Verdict = Verdict(
    verdict: Standing, onObjective: bool, summary: T.Text, findings: seq<KeptFinding>, clarifications: seq<T.Text>,
    verified: seq<T.Text>, normalized: seq<Loss>, contradictions: seq<Contradiction>)

  predicate Usable(e: Entry, longest: nat) { e.Some? && T.Trim(e.value) != [] && |e.value| <= longest }

  predicate UsableFinding(f: Finding) { f.severity != OtherSeverity && Usable(f.detail, 2000) }

  function First<A>(s: seq<A>, cap: nat): seq<A> { if |s| <= cap then s else s[..cap] }

  function KeepFindings(s: seq<Finding>): seq<KeptFinding> {
    if s == [] then [] else
    (if UsableFinding(s[0]) then [KeptFinding(s[0].severity, T.Trim(s[0].detail.value))] else []) + KeepFindings(s[1..])
  }

  function KeepTexts(s: seq<Entry>, longest: nat): seq<T.Text> {
    if s == [] then [] else (if Usable(s[0], longest) then [T.Trim(s[0].value)] else []) + KeepTexts(s[1..], longest)
  }

  function Listed<A>(s: Option<seq<A>>): seq<A> { if s.Some? then s.value else [] }

  predicate HasBlocker(s: seq<Finding>) { exists i :: 0 <= i < |s| && s[i].severity == Blocker }

  predicate HasQuestion(s: seq<Entry>) { exists i :: 0 <= i < |s| && s[i].Some? && T.Trim(s[i].value) != [] }

  function ParseVerdict(d: Declared): Option<Verdict> {
    if d.verdict == OtherStanding || d.onObjective == None || !Usable(d.summary, 2000) then None else
    var findings := First(KeepFindings(Listed(d.findings)), 50);
    var clarifications := First(KeepTexts(Listed(d.clarifications), 1000), 25);
    var verified := First(KeepTexts(Listed(d.verified), 500), 50);
    var summary := T.Trim(d.summary.value);
    KeptAreFewer(d);
    Some(Verdict(
      d.verdict, d.onObjective.value, First(summary, 500), findings, clarifications, verified,
      (if |summary| > 500 then [SummaryTruncated] else [])
      + (if |Listed(d.findings)| > |findings| then [FindingsDropped(|Listed(d.findings)| - |findings|)] else [])
      + (if |Listed(d.clarifications)| > |clarifications| then
        [ClarificationsDropped(|Listed(d.clarifications)| - |clarifications|)] else [])
      + (if |Listed(d.verified)| > |verified| then [VerifiedDropped(|Listed(d.verified)| - |verified|)] else []),
      (if d.verdict == Verified && d.onObjective == Some(false) then [OffObjective] else [])
      + (if d.verdict == Verified && HasBlocker(Listed(d.findings)) then [WithBlocker] else [])
      + (if d.verdict == NeedsClarification && !HasQuestion(Listed(d.clarifications)) then [WithoutQuestion] else [])))
  }

  lemma {:induction false} FewerFindings(s: seq<Finding>)
    ensures |KeepFindings(s)| <= |s|
  {
    hide UsableFinding;
    if s == [] {
    } else {
      FewerFindings(s[1..]);
    }
  }

  lemma {:induction false} FewerTexts(s: seq<Entry>, longest: nat)
    ensures |KeepTexts(s, longest)| <= |s|
  {
    hide Usable;
    if s == [] {
    } else {
      FewerTexts(s[1..], longest);
    }
  }

  lemma KeptAreFewer(d: Declared)
    ensures |KeepFindings(Listed(d.findings))| <= |Listed(d.findings)|
    ensures |KeepTexts(Listed(d.clarifications), 1000)| <= |Listed(d.clarifications)|
    ensures |KeepTexts(Listed(d.verified), 500)| <= |Listed(d.verified)|
  {
    FewerFindings(Listed(d.findings));
    FewerTexts(Listed(d.clarifications), 1000);
    FewerTexts(Listed(d.verified), 500);
  }

  // ---------------------------------------------------------------- what a verdict says

  /** A verdict free of contradictions that approves the work was declared on its objective and
      without a blocker anywhere, even past what is kept or in a finding too long to keep. */
  lemma CoherentApproval(d: Declared)
    requires ParseVerdict(d).Some? && ParseVerdict(d).value.contradictions == []
             && ParseVerdict(d).value.verdict == Verified
    ensures d.verdict == Verified && d.onObjective == Some(true)
    ensures forall i :: 0 <= i < |Listed(d.findings)| ==> Listed(d.findings)[i].severity != Blocker
  {
    hide Usable, KeepFindings, KeepTexts;
    assert !HasBlocker(Listed(d.findings));
  }

  // ---------------------------------------------------------------- what is kept, by positions

  /** A text that is neither blank nor too long. */
  predicate Fits(e: Entry, longest: nat) { e.Some? && T.Trim(e.value) != [] && |e.value| <= longest }

  function CountTexts(all: seq<Entry>, longest: nat): nat {
    if all == [] then 0 else
    CountTexts(all[..|all| - 1], longest) + if Fits(all[|all| - 1], longest) then 1 else 0
  }

  /** Of all texts that fit, the first `cap` are kept, trimmed and in order, and no other. */
  predicate TextsKept(all: seq<Entry>, longest: nat, cap: nat, kept: seq<T.Text>) {
    && |kept| == (if CountTexts(all, longest) <= cap then CountTexts(all, longest) else cap)
    && forall i :: 0 <= i < |all| && Fits(all[i], longest) && CountTexts(all[..i], longest) < |kept| ==>
         kept[CountTexts(all[..i], longest)] == T.Trim(all[i].value)
  }

  lemma {:induction false} KeepOneText(s: seq<Entry>, e: Entry, longest: nat)
    ensures KeepTexts(s + [e], longest) ==
              KeepTexts(s, longest) + if Usable(e, longest) then [T.Trim(e.value)] else []
  {
    hide Usable, T.Trim;
    if s == [] {
      assert [e][1..] == [];
    } else {
      KeepOneText(s[1..], e, longest);
      assert (s + [e])[1..] == s[1..] + [e];
    }
  }

  lemma {:induction false} KeptTexts(s: seq<Entry>, longest: nat)
    ensures |KeepTexts(s, longest)| == CountTexts(s, longest)
    ensures forall i :: 0 <= i < |s| && Fits(s[i], longest) ==>
              && CountTexts(s[..i], longest) < |KeepTexts(s, longest)|
              && KeepTexts(s, longest)[CountTexts(s[..i], longest)] == T.Trim(s[i].value)
  {
    hide T.Trim;
    if s == [] {
    } else {
      var n := |s| - 1;
      KeptTexts(s[..n], longest);
      KeepOneText(s[..n], s[n], longest);
      assert s == s[..n] + [s[n]];
      hide KeepTexts;
      forall i | 0 <= i < n ensures s[..i] == s[..n][..i] {
      }
    }
  }

  lemma FirstTextsKept(s: seq<Entry>, longest: nat, cap: nat)
    ensures TextsKept(s, longest, cap, First(KeepTexts(s, longest), cap))
  {
    hide KeepTexts, CountTexts, Fits, T.Trim;
    KeptTexts(s, longest);
  }

  predicate FindingFits(f: Finding) { f.severity in {Blocker, Major, Minor, Note} && Fits(f.detail, 2000) }

  function CountFindings(all: seq<Finding>): nat {
    if all == [] then 0 else CountFindings(all[..|all| - 1]) + if FindingFits(all[|all| - 1]) then 1 else 0
  }

  predicate FindingsKept(all: seq<Finding>, cap: nat, kept: seq<KeptFinding>) {
    && |kept| == (if CountFindings(all) <= cap then CountFindings(all) else cap)
    && forall i :: 0 <= i < |all| && FindingFits(all[i]) && CountFindings(all[..i]) < |kept| ==>
         kept[CountFindings(all[..i])] == KeptFinding(all[i].severity, T.Trim(all[i].detail.value))
  }

  lemma {:induction false} KeepOneFinding(s: seq<Finding>, f: Finding)
    ensures KeepFindings(s + [f]) ==
              KeepFindings(s) + if UsableFinding(f) then [KeptFinding(f.severity, T.Trim(f.detail.value))] else []
  {
    hide UsableFinding, T.Trim;
    if s == [] {
      assert [f][1..] == [];
    } else {
      KeepOneFinding(s[1..], f);
      assert (s + [f])[1..] == s[1..] + [f];
    }
  }

  lemma {:induction false} KeptFindings(s: seq<Finding>)
    ensures |KeepFindings(s)| == CountFindings(s)
    ensures forall i :: 0 <= i < |s| && FindingFits(s[i]) ==>
              && CountFindings(s[..i]) < |KeepFindings(s)|
              && KeepFindings(s)[CountFindings(s[..i])] == KeptFinding(s[i].severity, T.Trim(s[i].detail.value))
  {
    hide T.Trim;
    if s == [] {
    } else {
      var n := |s| - 1;
      KeptFindings(s[..n]);
      KeepOneFinding(s[..n], s[n]);
      assert s == s[..n] + [s[n]];
      hide KeepFindings;
      forall i | 0 <= i < n ensures s[..i] == s[..n][..i] {
      }
    }
  }

  /** What a verdict keeps of each declared list, within which bounds, and what it says it lost: the
      rest of a long summary, and the entries of each list that are not kept, by their number. */
  lemma KeptExactly(d: Declared)
    requires ParseVerdict(d).Some?
    ensures var v, summary := ParseVerdict(d).value, T.Trim(d.summary.value);
            && v.verdict == d.verdict && Some(v.onObjective) == d.onObjective
            && |v.summary| == (if |summary| <= 500 then |summary| else 500) && v.summary <= summary
            && FindingsKept(Listed(d.findings), 50, v.findings)
            && TextsKept(Listed(d.clarifications), 1000, 25, v.clarifications)
            && TextsKept(Listed(d.verified), 500, 50, v.verified)
    ensures var v := ParseVerdict(d).value;
            && (SummaryTruncated in v.normalized <==> |T.Trim(d.summary.value)| > 500)
            && (forall n :: FindingsDropped(n) in v.normalized <==> n == |Listed(d.findings)| - |v.findings| > 0)
            && (forall n :: ClarificationsDropped(n) in v.normalized <==>
                  n == |Listed(d.clarifications)| - |v.clarifications| > 0)
            && (forall n :: VerifiedDropped(n) in v.normalized <==> n == |Listed(d.verified)| - |v.verified| > 0)
  {
    KeptFindings(Listed(d.findings));
    FirstTextsKept(Listed(d.clarifications), 1000, 25);
    FirstTextsKept(Listed(d.verified), 500, 50);
    hide KeepFindings, KeepTexts, T.Trim, CountTexts, CountFindings, Fits, FindingFits, TextsKept;
  }

  /** The kept list holds every usable finding exactly when nothing is reported as dropped. */
  lemma NothingDropped(d: Declared)
    requires ParseVerdict(d).Some?
    ensures var v, all := ParseVerdict(d).value, Listed(d.findings);
            (forall loss :: loss in v.normalized ==> !loss.FindingsDropped?) <==>
              |all| <= 50 && forall i :: 0 <= i < |all| ==> FindingFits(all[i])
  {
    var all := Listed(d.findings);
    KeptExactly(d);
    AllCounted(all);
    hide ParseVerdict, CountFindings, FindingFits;
    var v := ParseVerdict(d).value;
    if |all| > |v.findings| {
      assert FindingsDropped(|all| - |v.findings|) in v.normalized;
    }
  }

  lemma {:induction false} AllCounted(s: seq<Finding>)
    ensures CountFindings(s) <= |s|
    ensures CountFindings(s) == |s| <==> forall i :: 0 <= i < |s| ==> FindingFits(s[i])
  {
    hide FindingFits;
    if s == [] {
    } else {
      AllCounted(s[..|s| - 1]);
    }
  }

  // ---------------------------------------------------------------- compactions

  datatype Compaction = Compaction(summary: T.Text, retained: seq<T.Text>, originalChars: nat, compactedChars: nat)

  function Total(s: seq<T.Text>): nat { if s == [] then 0 else |s[0]| + Total(s[1..]) }

  function ParseCompaction(summary: Entry, retained: Option<seq<Entry>>, originalChars: nat): Option<Compaction> {
    if !Usable(summary, 100000) then None else
    var kept := First(KeepTexts(Listed(retained), 500), 100);
    var body := T.Trim(summary.value);
    var produced := |body| + Total(kept);
    if produced as real >= originalChars as real * 0.8 then None
      else Some(Compaction(body, kept, originalChars, produced))
  }

  /** A compaction is applied exactly if its summary fits and the whole is below four fifths of what
      it stands for; it is never empty, and keeps the first hundred of the texts that fit. */
  lemma CompactionIsSmaller(summary: Entry, retained: Option<seq<Entry>>, originalChars: nat)
    ensures var c := ParseCompaction(summary, retained, originalChars);
            c.Some? ==>
              && c.value.summary != [] && c.value.summary == T.Trim(summary.value)
              && TextsKept(Listed(retained), 500, 100, c.value.retained)
              && c.value.compactedChars == |c.value.summary| + Total(c.value.retained)
              && 0 < c.value.compactedChars && 5 * c.value.compactedChars < 4 * originalChars
              && c.value.originalChars == originalChars
    ensures ParseCompaction(summary, retained, originalChars).Some? <==>
              && Fits(summary, 100000)
              && exists kept :: TextsKept(Listed(retained), 500, 100, kept)
                   && 5 * (|T.Trim(summary.value)| + Total(kept)) < 4 * originalChars
  {
    FirstTextsKept(Listed(retained), 500, 100);
    hide KeepTexts, T.Trim, TextsKept;
    var kept := First(KeepTexts(Listed(retained), 500), 100);
    forall k | TextsKept(Listed(retained), 500, 100, k) ensures k == kept {
      KeptIsUnique(Listed(retained), 500, 100, k, kept);
    }
  }

  /** What is kept is determined by what fits. */
  lemma KeptIsUnique(all: seq<Entry>, longest: nat, cap: nat, a: seq<T.Text>, b: seq<T.Text>)
    requires TextsKept(all, longest, cap, a) && TextsKept(all, longest, cap, b)
    ensures a == b
  {
    hide T.Trim, Fits;
    forall j | 0 <= j < |a| ensures a[j] == b[j] {
      var i := Nth(all, longest, j);
      assert a[CountTexts(all[..i], longest)] == b[CountTexts(all[..i], longest)];
    }
  }

  lemma {:induction false} Nth(all: seq<Entry>, longest: nat, j: nat) returns (i: nat)
    requires j < CountTexts(all, longest)
    ensures i < |all| && Fits(all[i], longest) && CountTexts(all[..i], longest) == j
  {
    hide Fits;
    var n := |all| - 1;
    if j < CountTexts(all[..n], longest) {
      i := Nth(all[..n], longest, j);
      assert all[..n][..i] == all[..i];
    } else {
      i := n;
    }
  }

  // ---------------------------------------------------------------- may the loop go on

  datatype ReviewState = CompletedReview | OtherReview

  datatype Decision =
    | Unreadable | DidNotComplete | Incoherent(contradictions: seq<Contradiction>) | IsVerified | Clarify
    | Unconverged | Revise

  function LoopDecision(v: Option<Verdict>, cycle: nat, maxCycles: nat, state: ReviewState): Decision {
    if v == None then Unreadable
    else if state != CompletedReview then DidNotComplete
    else if v.value.contradictions != [] then Incoherent(v.value.contradictions)
    else if v.value.verdict == Verified then IsVerified
    else if v.value.verdict == NeedsClarification then Clarify
    else if cycle >= maxCycles then Unconverged
    else Revise
  }

  // ---------------------------------------------------------------- decisions, by what was declared

  /** A standing that is known, a word on the objective, and a summary that is neither blank nor too
      long. */
  predicate IsReadable(d: Option<Declared>) {
    && d.Some? && d.value.verdict != OtherStanding && d.value.onObjective.Some?
    && d.value.summary.Some? && T.Trim(d.value.summary.value) != [] && |d.value.summary.value| <= 2000
  }

  /** The declared fields disagree. */
  predicate Contradicts(d: Declared, c: Contradiction) {
    match c
    case OffObjective => d.verdict == Verified && d.onObjective == Some(false)
    case WithBlocker =>
      d.verdict == Verified && d.findings.Some? &&
      exists i :: 0 <= i < |d.findings.value| && d.findings.value[i].severity == Blocker
    case WithoutQuestion =>
      d.verdict == NeedsClarification &&
      (d.clarifications.Some? ==>
         forall i :: 0 <= i < |d.clarifications.value| ==>
           d.clarifications.value[i] == None || T.Trim(d.clarifications.value[i].value) == [])
  }

  /** A readable declaration without contradictions, from a review that was completed. */
  ghost predicate Conclusive(d: Option<Declared>, state: ReviewState) {
    IsReadable(d) && state == CompletedReview && forall c :: !Contradicts(d.value, c)
  }

  /** What each decision takes. */
  ghost predicate Warranted(x: Decision, d: Option<Declared>, state: ReviewState, cycle: nat, maxCycles: nat) {
    match x
    case Unreadable => !IsReadable(d)
    case DidNotComplete => IsReadable(d) && state != CompletedReview
    case Incoherent(cs) =>
      && IsReadable(d) && state == CompletedReview && !Conclusive(d, state)
      && forall c :: c in cs <==> Contradicts(d.value, c)
    case IsVerified => Conclusive(d, state) && d.value.verdict == Verified
    case Clarify => Conclusive(d, state) && d.value.verdict == NeedsClarification
    case Unconverged => Conclusive(d, state) && d.value.verdict in {Partial, Failed} && cycle >= maxCycles
    case Revise => Conclusive(d, state) && d.value.verdict in {Partial, Failed} && cycle < maxCycles
  }

  function VerdictOf(d: Option<Declared>): Option<Verdict> { if d == None then None else ParseVerdict(d.value) }

  lemma ParsedExactly(d: Option<Declared>)
    ensures VerdictOf(d).Some? <==> IsReadable(d)
    ensures IsReadable(d) ==>
              var v := VerdictOf(d).value;
              v.verdict == d.value.verdict && forall c :: c in v.contradictions <==> Contradicts(d.value, c)
  {
    hide KeepFindings, KeepTexts, First, T.Trim;
  }

  /** Every decision has what it takes. */
  lemma DecisionIsWarranted(d: Option<Declared>, state: ReviewState, cycle: nat, maxCycles: nat)
    ensures Warranted(LoopDecision(VerdictOf(d), cycle, maxCycles, state), d, state, cycle, maxCycles)
  {
    ParsedExactly(d);
    hide VerdictOf, T.Trim, Contradicts;
    if IsReadable(d) && VerdictOf(d).value.contradictions != [] {
      assert VerdictOf(d).value.contradictions[0] in VerdictOf(d).value.contradictions;
    }
  }

  /** And only one decision has: what it takes is also enough. */
  lemma OneIsWarranted(x: Decision, y: Decision, d: Option<Declared>, state: ReviewState, cycle: nat, maxCycles: nat)
    requires Warranted(x, d, state, cycle, maxCycles) && Warranted(y, d, state, cycle, maxCycles)
    ensures x == y || (x.Incoherent? && y.Incoherent?)
  {
    hide IsReadable, Contradicts;
  }
}
