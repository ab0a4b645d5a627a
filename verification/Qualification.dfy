/**
 Qualifying a route: the record one bounded probe leaves behind (qualification.mjs), and why
 following the hint of a refused selection makes the same task selectable.
 */
module Qualification {
  import opened Wrappers
  import opened Routes
  import S = Selection
  import T = Text

  const ONE_DAY: nat := 86400000

  // ---------------------------------------------------------------- attestations

  datatype Statement = Statement(classes: Option<seq<DataClass>>, domain: Option<bool>, attestedBy: T.Text,
      basis: T.Text)

  predicate Written(s: T.Text, longest: nat) { T.Trim(s) != [] && |s| <= longest }

  function Kept(s: T.Text, longest: nat): Option<T.Text> { if Written(s, longest) then Some(T.Trim(s)) else None }

  predicate NoRepeats<A(==)>(s: seq<A>) { forall i, j :: 0 <= i < j < |s| ==> s[i] != s[j] }

  function ClassesOf(s: Statement): seq<DataClass> { if s.classes.Some? then s.classes.value else [Public, Internal] }

  predicate Widens(s: Statement) { s.domain == Some(true) || exists c :: c in ClassesOf(s) && !IsBase(c) }

  /** `None` is a refusal; an absent statement is kept as absent. */
  function Normalize(input: Option<Statement>): Option<Option<Attestation>> {
    if input == None then Some(None) else
    var s := input.value;
    var classes := ClassesOf(s);
    if classes == [] || !NoRepeats(classes) || OtherClass in classes then None
    else if Widens(s) && !(Written(s.attestedBy, 256) && Written(s.basis, 2000)) then None
    else Some(Some(Attestation(classes, s.domain == Some(true), Kept(s.attestedBy, 256), Kept(s.basis, 2000))))
  }

  // ---------------------------------------------------------------- one probe

  /** What the children of a probe did. */
  datatype Outcome = Outcome(transport: bool, text: bool, tool: bool, probe: Capability -> bool)

  predicate CorePassed(o: Outcome) { o.transport && o.text && o.tool }

  function ProbeCases(cs: seq<Capability>, o: Outcome): seq<Case> {
    if cs == [] then [] else [Case(ProbeCase(cs[0]), CorePassed(o) && o.probe(cs[0]))] + ProbeCases(cs[1..], o)
  }

  predicate CanProbe(cs: seq<Capability>) {
    (forall i :: 0 <= i < |cs| ==> cs[i] == Image || cs[i] == StructuredOutput) && NoRepeats(cs)
  }

  function RecordOf(id: RouteId, effort: Effort, cs: seq<Capability>, a: Option<Attestation>, issuedAt: nat, took: nat,
      o: Outcome): Record
  {
    var attested := if CorePassed(o) then a else None;
    Record(true, ProviderOf(id), ModelOf(id), effort, Some(issuedAt), Some(issuedAt + ONE_DAY), Some(took),
           CorePassed(o), o.transport, o.transport && o.text, o.transport && o.tool, Image in cs && CorePassed(o)
             && o.probe(Image),
           [Case(TextCase, o.transport && o.text), Case(RoundtripCase, o.transport && o.tool)] + ProbeCases(cs, o),
           if attested.Some? then attested.value.dataClasses else [Public, Internal],
           attested.Some? && attested.value.domainEvidence, attested)
  }

  /** The saved record, or `None` when the request is refused before anything runs. */
  function Qualify(id: RouteId, effort: Effort, cs: seq<Capability>, statement: Option<Statement>, issuedAt: nat,
      took: nat, o: Outcome): Option<Record>
  {
    if !CanProbe(cs) then None else
    var a := Normalize(statement);
    if a == None then None else Some(RecordOf(id, effort, cs, a.value, issuedAt, took, o))
  }

  // ---------------------------------------------------------------- following a hint

  /** The arguments a hint spells out, with its placeholders filled in. */
  function Filled(h: S.Hint, author: T.Text, basis: T.Text): Option<Statement> {
    if h.domain || h.classes.Some? then Some(Statement(h.classes, if h.domain then Some(true) else None, author, basis))
      else None
  }

  lemma {:induction false} DistinctMembers(s: seq<Capability>)
    ensures NoRepeats(S.Distinct(s)) && forall c :: c in S.Distinct(s) <==> c in s
  {
    if s == [] {
    } else {
      DistinctMembers(s[..|s| - 1]);
      assert s == s[..|s| - 1] + [s[|s| - 1]];
    }
  }

  lemma {:induction false} ProbedMembers(s: seq<Capability>)
    requires NoRepeats(s)
    ensures NoRepeats(S.Probed(s)) && forall c :: c in S.Probed(s) <==> c in s && c != Text && c != Tools
  {
    if s == [] {
    } else {
      ProbedMembers(s[1..]);
      assert forall c :: c in s <==> c == s[0] || c in s[1..];
      assert s[0] !in s[1..];
    }
  }

  /** A hint asks for exactly the capabilities that need a probe, each once. */
  lemma HintCapabilities(task: Task, role: Role)
    ensures var cs := S.MissingHint(task, role).capabilities;
            NoRepeats(cs) && forall c :: c in cs <==> Needs(task, role, c) && c != Text && c != Tools
  {
    var all := task.capabilities + if role == Vision then [Image] else [];
    DistinctMembers(all);
    ProbedMembers(S.Distinct(all));
  }

  lemma {:induction false} CasesOfProbe(cs: seq<Capability>, o: Outcome, name: CaseName)
    requires NoRepeats(cs)
    ensures CasesNamed(ProbeCases(cs, o), name) ==
              if name.ProbeCase? && name.capability in cs then [Case(name, CorePassed(o) && o.probe(name.capability))]
                else []
  {
    hide CorePassed;
    if cs == [] {
    } else {
      CasesOfProbe(cs[1..], o, name);
      var all := ProbeCases(cs, o);
      assert all[1..] == ProbeCases(cs[1..], o);
      assert cs[0] !in cs[1..];
      assert forall c :: c in cs <==> c == cs[0] || c in cs[1..];
    }
  }

  predicate AllPass(o: Outcome, cs: seq<Capability>) { CorePassed(o) && forall c :: c in cs ==> o.probe(c) }

  /** Each case of a record is shown as passed exactly if it was run and passed; a capability is
      probed only once transport, answer and tool call have passed. */
  lemma CasesOfRecord(id: RouteId, effort: Effort, cs: seq<Capability>, a: Option<Attestation>, issuedAt: nat,
      took: nat, o: Outcome, name: CaseName)
    requires NoRepeats(cs)
    ensures Passed(RecordOf(id, effort, cs, a, issuedAt, took, o).caseResults, name) <==>
              match name
              case TextCase => o.transport && o.text
              case RoundtripCase => o.transport && o.tool
              case ProbeCase(c) => c in cs && o.transport && o.text && o.tool && o.probe(c)
              case OtherCase => false
  {
    CasesOfProbe(cs, o, name);
    var text, tool := Case(TextCase, o.transport && o.text), Case(RoundtripCase, o.transport && o.tool);
    CoreCases(text, tool, ProbeCases(cs, o), name);
    hide ProbeCases, CasesNamed;
  }

  lemma CoreCases(text: Case, tool: Case, tail: seq<Case>, name: CaseName)
    requires text.name == TextCase && tool.name == RoundtripCase
    requires !name.ProbeCase? ==> CasesNamed(tail, name) == []
    ensures CasesNamed([text, tool] + tail, name) ==
              if name == TextCase then [text] else if name == RoundtripCase then [tool] else CasesNamed(tail, name)
  {
    var cases := [text, tool] + tail;
    assert cases[1..] == [tool] + tail && cases[1..][1..] == tail;
    assert CasesNamed(cases[1..], name) == (if name == RoundtripCase then [tool] else []) + CasesNamed(tail, name);
    assert CasesNamed(cases, name) == (if name == TextCase then [text] else []) + CasesNamed(cases[1..], name);
  }

  // ---------------------------------------------------------------- what a record is good for

  /** What a statement permits; without one, ordinary data only. */
  predicate Grants(s: Option<Statement>, c: DataClass) { if s == None then IsBase(c) else c in ClassesOf(s.value) }

  predicate GrantsDomain(s: Option<Statement>) { s.Some? && s.value.domain == Some(true) }

  /** A record is accepted for a task exactly for a day, if transport, answer and tool call passed, if
      every capability that the task needs was asked for and its own probe passed, and if the
      statement that came with it permits the data of the task, and the domain if it needs one. */
  lemma AcceptedExactly(id: RouteId, effort: Effort, cs: seq<Capability>, s: Option<Statement>, issuedAt: nat,
      took: nat, o: Outcome, task: Task, now: nat, role: Role)
    requires Qualify(id, effort, cs, s, issuedAt, took, o).Some?
    ensures RecordReason(Qualify(id, effort, cs, s, issuedAt, took, o).value, id, effort, task, now, role) == None <==>
              && issuedAt <= now < issuedAt + ONE_DAY && o.transport && o.text && o.tool
              && (forall c :: c in {Image, StructuredOutput, Video} && Needs(task, role, c) ==> c in cs && o.probe(c))
              && Grants(s, ClassOf(task)) && (role == Domain ==> GrantsDomain(s))
  {
    var a := Normalize(s).value;
    CasesOfRecord(id, effort, cs, a, issuedAt, took, o, TextCase);
    CasesOfRecord(id, effort, cs, a, issuedAt, took, o, RoundtripCase);
    CasesOfRecord(id, effort, cs, a, issuedAt, took, o, ProbeCase(Image));
    CasesOfRecord(id, effort, cs, a, issuedAt, took, o, ProbeCase(StructuredOutput));
    CasesOfRecord(id, effort, cs, a, issuedAt, took, o, ProbeCase(Video));
    GrantedByStatement(s);
    hide Passed, ProbeCases, Normalize, ProviderOf, ModelOf, Needs, ClassesOf, NoRepeats;
  }

  /** A statement is accepted exactly if the classes it names, or the ordinary ones, are known and named
      once each, at least one, and if it names an author and a basis wherever it permits more; what is
      kept of author and basis is trimmed, and nothing if blank or too long. */
  lemma StatementExactly(s: Statement)
    ensures var classes := if s.classes.Some? then s.classes.value else [Public, Internal];
            Normalize(Some(s)).Some? <==>
              && classes != [] && (forall i, j :: 0 <= i < j < |classes| ==> classes[i] != classes[j])
              && OtherClass !in classes
              && (s.domain == Some(true) || Confidential in classes || Restricted in classes ==>
                    && T.Trim(s.attestedBy) != [] && |s.attestedBy| <= 256
                    && T.Trim(s.basis) != [] && |s.basis| <= 2000)
    ensures Normalize(Some(s)).Some? ==>
              var a := Normalize(Some(s)).value;
              && a.Some? && a.value.dataClasses == (if s.classes.Some? then s.classes.value else [Public, Internal])
              && (a.value.domainEvidence <==> s.domain == Some(true))
              && a.value.attestedBy ==
                   (if T.Trim(s.attestedBy) != [] && |s.attestedBy| <= 256 then Some(T.Trim(s.attestedBy)) else None)
              && a.value.basis == (if T.Trim(s.basis) != [] && |s.basis| <= 2000 then Some(T.Trim(s.basis)) else None)
  {
    hide T.Trim;
    var classes := ClassesOf(s);
    assert Widens(s) && OtherClass !in classes <==>
        OtherClass !in classes && (s.domain == Some(true) || Confidential in classes || Restricted in classes);
  }

  /** The flags of a record say what its cases show. */
  lemma FlagsAreCases(id: RouteId, effort: Effort, cs: seq<Capability>, a: Option<Attestation>, issuedAt: nat,
      took: nat, o: Outcome)
    requires NoRepeats(cs)
    ensures var q := RecordOf(id, effort, cs, a, issuedAt, took, o);
            && (q.textPassed <==> Passed(q.caseResults, TextCase))
            && (q.toolPassed <==> Passed(q.caseResults, RoundtripCase))
            && (q.imagePassed <==> Passed(q.caseResults, ProbeCase(Image)))
            && (q.available <==> q.textPassed && q.toolPassed) && (q.textPassed || q.toolPassed ==> q.transportPassed)
  {
    CasesOfRecord(id, effort, cs, a, issuedAt, took, o, TextCase);
    CasesOfRecord(id, effort, cs, a, issuedAt, took, o, RoundtripCase);
    CasesOfRecord(id, effort, cs, a, issuedAt, took, o, ProbeCase(Image));
    hide Passed, ProbeCases;
  }

  /** An accepted statement names an author and a basis wherever it permits more than is ordinary. */
  lemma GrantedByStatement(s: Option<Statement>)
    requires Normalize(s).Some?
    ensures s == None <==> Normalize(s).value == None
    ensures s.Some? ==>
              var a := Normalize(s).value.value;
              && a.dataClasses == ClassesOf(s.value) && (a.domainEvidence <==> GrantsDomain(s))
              && (a.domainEvidence || (exists c :: c in a.dataClasses && !IsBase(c)) ==>
                    Nonempty(a.attestedBy, 256) && Nonempty(a.basis, 2000))
  {
    if s.Some? {
      var b, c := T.TrimIs(s.value.attestedBy);
      var d, e := T.TrimIs(s.value.basis);
    }
    hide T.Trim;
  }

  /** A probe with a failed core case leaves nothing but a record of it: the route is unavailable,
      and no statement widens what it may be used for. */
  lemma FailedCoreGrantsNothing(id: RouteId, effort: Effort, cs: seq<Capability>, s: Option<Statement>, issuedAt: nat,
      took: nat, o: Outcome)
    requires Qualify(id, effort, cs, s, issuedAt, took, o).Some? && !(o.transport && o.text && o.tool)
    ensures var q := Qualify(id, effort, cs, s, issuedAt, took, o).value;
            && !q.available && q.allowedDataClasses == [Public, Internal] && !q.domainEvidence && q.attestation == None
            && !q.imagePassed && forall c :: !Passed(q.caseResults, ProbeCase(c))
  {
    var a := Normalize(s).value;
    forall c ensures !Passed(RecordOf(id, effort, cs, a, issuedAt, took, o).caseResults, ProbeCase(c)) {
      CasesOfRecord(id, effort, cs, a, issuedAt, took, o, ProbeCase(c));
    }
    hide Passed, ProbeCases, Normalize;
  }

  /** An entry for the route of a record than which none is newer is backed by that record. */
  lemma BackedByNewest(e: S.Entry, task: Task, qs: seq<Record>, now: nat, p: Policy, q: Record, id: RouteId)
    requires S.Backed(e, task, qs, now, p) && q in qs && Matches(q, id, EffortOf(id, p.pool))
    requires forall r :: r in qs ==> !S.Newer(r, q)
    ensures S.Backs(e.record, e.id, e.effort, task, now, p.role) && (e.id == id ==> e.record == q)
  {
    hide Passed, EffortOf, ProviderOf, ModelOf, Needs, S.Newer;
  }

  /** While a probe that failed in what the task needs is the newest record of a route, that route is
      not selected, neither as the chosen one nor as an alternate. */
  lemma FailedProbeIsNotSelected(task: Task, p: Policy, id: RouteId, cs: seq<Capability>, s: Option<Statement>,
      issuedAt: nat, took: nat, o: Outcome, qs: seq<Record>, now: nat, avoid: Option<Provider>, spread: T.Text)
    requires TaskPolicy(task) == Some(p) && Qualify(id, EffortOf(id, p.pool), cs, s, issuedAt, took, o).Some?
    requires var q := Qualify(id, EffortOf(id, p.pool), cs, s, issuedAt, took, o).value;
             q in qs && forall r :: r in qs ==> !S.Newer(r, q)
    requires || !(o.transport && o.text && o.tool)
             || exists c :: c in {Image, StructuredOutput, Video} && Needs(task, p.role, c) && !(c in cs && o.probe(c))
    ensures var a := S.Select(task, qs, now, avoid, spread);
            a.Selected? ==> forall e :: e in [a.chosen] + a.alternates ==> e.id != id
  {
    var effort := EffortOf(id, p.pool);
    var q := Qualify(id, effort, cs, s, issuedAt, took, o).value;
    S.SelectedIsBacked(task, qs, now, avoid, spread, p);
    var a := Normalize(s).value;
    CasesOfRecord(id, effort, cs, a, issuedAt, took, o, TextCase);
    CasesOfRecord(id, effort, cs, a, issuedAt, took, o, RoundtripCase);
    CasesOfRecord(id, effort, cs, a, issuedAt, took, o, ProbeCase(Image));
    CasesOfRecord(id, effort, cs, a, issuedAt, took, o, ProbeCase(StructuredOutput));
    CasesOfRecord(id, effort, cs, a, issuedAt, took, o, ProbeCase(Video));
    assert Matches(q, id, effort) && q == RecordOf(id, effort, cs, a, issuedAt, took, o);
    hide S.Select, TaskPolicy, RecordOf, Passed, Normalize, Qualify, EffortOf, ProviderOf, ModelOf, Needs;
    var all := S.Select(task, qs, now, avoid, spread);
    if all.Selected? {
      forall e | e in [all.chosen] + all.alternates ensures e.id != id {
        BackedByNewest(e, task, qs, now, p, q, id);
      }
    }
  }

  /** The hint for a missing qualification, followed to the letter and passed in full, gives a
      record that satisfies the task for a whole day; it is refused exactly when the task
      asks for video, which no probe covers. */
  lemma FollowingTheHint(task: Task, p: Policy, id: RouteId, author: T.Text, basis: T.Text, issuedAt: nat, took: nat,
      o: Outcome)
    requires TaskPolicy(task) == Some(p)
    requires Written(author, 256) && Written(basis, 2000)
    requires AllPass(o, S.MissingHint(task, p.role).capabilities)
    ensures var h := S.MissingHint(task, p.role);
            var effort := EffortOf(id, p.pool);
            var q := Qualify(id, effort, h.capabilities, Filled(h, author, basis), issuedAt, took, o);
            && (q == None <==> Needs(task, p.role, Video))
            && (q.Some? ==> forall now :: issuedAt <= now < issuedAt + ONE_DAY ==>
                              RecordReason(q.value, id, effort, task, now, p.role) == None)
  {
    var h := S.MissingHint(task, p.role);
    var cs := h.capabilities;
    HintCapabilities(task, p.role);
    PolicyFacts(task, p);
    hide S.MissingHint;
    CanProbeIffNoVideo(task, p.role, cs);
    if !Needs(task, p.role, Video) {
      StatementAccepted(task, p.role, author, basis);
      RecordSatisfies(task, p, id, author, basis, issuedAt, took, o);
    }
  }

  const VIDEO_TASK := Task(Some(Standard), true, LowRisk, Routine, Some(false), true, None, None, [Video])

  /** A plain task that asks for video: nothing is qualified for it, and the probe its refusal
      names is itself refused, whatever statement comes with it. */
  lemma VideoHintIsRefused(id: RouteId, now: nat, avoid: Option<Provider>, statement: Option<Statement>, issuedAt: nat,
      took: nat, o: Outcome)
    ensures var p := TaskPolicy(VIDEO_TASK);
            && p.Some? && S.Select(VIDEO_TASK, [], now, avoid, []).NoRoute?
            && S.JudgeFor(id, [], VIDEO_TASK, now, p.value) == Missing
            && S.HintFor(Missing, VIDEO_TASK, p.value.role) == Some(S.Hint([Video], false, None))
            && Qualify(id, EffortOf(id, p.value.pool), [Video], statement, issuedAt, took, o) == None
  {
    var p := TaskPolicy(VIDEO_TASK).value;
    assert [Video][..0] == [] && [Video][1..] == [];
    assert [Video] + [] == [Video];
    assert S.Distinct([Video]) == [Video] && S.Probed([Video]) == [Video];
    assert !CanProbe([Video]) by { assert [Video][0] == Video; }
    hide S.Candidates;
    S.FirstEntry(S.Candidates(p.pool, avoid), [], VIDEO_TASK, now, p);
  }

  lemma PolicyFacts(task: Task, p: Policy)
    requires TaskPolicy(task) == Some(p)
    ensures task.role == Some(p.role) && OtherCapability !in task.capabilities && task.dataClass != Some(OtherClass)
  {
    hide Escalation;
  }

  lemma CanProbeIffNoVideo(task: Task, role: Role, cs: seq<Capability>)
    requires OtherCapability !in task.capabilities && NoRepeats(cs)
    requires forall c :: c in cs <==> Needs(task, role, c) && c != Text && c != Tools
    ensures CanProbe(cs) <==> !Needs(task, role, Video)
  {
    if Needs(task, role, Video) {
      assert Video in cs;
    } else {
      forall i | 0 <= i < |cs| ensures cs[i] == Image || cs[i] == StructuredOutput {
        assert cs[i] in cs;
      }
    }
  }

  lemma StatementAccepted(task: Task, role: Role, author: T.Text, basis: T.Text)
    requires Written(author, 256) && Written(basis, 2000) && task.dataClass != Some(OtherClass)
    ensures var a := Normalize(Filled(S.MissingHint(task, role), author, basis));
            && a.Some?
            && (a.value == None ==> role != Domain && IsBase(ClassOf(task)))
            && (a.value.Some? ==>
                  && Nonempty(a.value.value.attestedBy, 256) && Nonempty(a.value.value.basis, 2000)
                  && a.value.value.domainEvidence == (role == Domain)
                  && ClassOf(task) in a.value.value.dataClasses)
  {
    var b, c := T.TrimIs(author);
    var d, e := T.TrimIs(basis);
    hide S.Probed, S.Distinct, T.Trim;
  }

  lemma RecordSatisfies(task: Task, p: Policy, id: RouteId, author: T.Text, basis: T.Text, issuedAt: nat, took: nat,
      o: Outcome)
    requires TaskPolicy(task) == Some(p) && Written(author, 256) && Written(basis, 2000)
    requires AllPass(o, S.MissingHint(task, p.role).capabilities) && !Needs(task, p.role, Video)
    ensures var h := S.MissingHint(task, p.role);
            var a := Normalize(Filled(h, author, basis));
            a.Some? && forall now :: issuedAt <= now < issuedAt + ONE_DAY ==>
              RecordReason(RecordOf(id, EffortOf(id, p.pool), h.capabilities, a.value, issuedAt, took, o),
                           id, EffortOf(id, p.pool), task, now, p.role) == None
  {
    PolicyFacts(task, p);
    StatementAccepted(task, p.role, author, basis);
    var h := S.MissingHint(task, p.role);
    HintCapabilities(task, p.role);
    CanProbeIffNoVideo(task, p.role, h.capabilities);
    hide TaskPolicy, EffortOf, RecordReason;
    forall now: nat | issuedAt <= now < issuedAt + ONE_DAY
      ensures RecordReason(RecordOf(id, EffortOf(id, p.pool), h.capabilities, Normalize(Filled(h, author, basis)).value,
                issuedAt, took, o), id, EffortOf(id, p.pool), task, now, p.role) == None {
      AcceptedExactly(id, EffortOf(id, p.pool), h.capabilities, Filled(h, author, basis), issuedAt, took, o, task, now,
        p.role);
    }
  }

  /** A refusal for something in a record names a probe for exactly that: no capability, domain or data
      class but the one it is about. */
  lemma HintIsAboutItsReason(r: Reason, q: Record, task: Task, role: Role)
    requires r == ProbeRequired(StructuredOutput) || r == ProbeRequired(Video) || !r.ProbeRequired?
    ensures var h := S.HintFor(Refused(r, q), task, role);
            && h.Some?
            && h.value.capabilities ==
                 (if r == ImageRequired then [Image] else if r.ProbeRequired? then [r.capability] else [])
            && (h.value.domain <==> r == DomainRequired)
            && h.value.classes ==
                 (if r == DataClassNotQualified then Some([Public, Internal, ClassOf(task)]) else None)
    ensures S.HintFor(Ambiguous, task, role) == Some(S.Hint([], false, None)) && S.HintFor(Undated, task, role) == None
  {
  }

  /** Following such a hint, with everything passed: the probe is refused exactly if the reason is about
      video, or about data that is ordinary, which its attestation then names twice; otherwise the new
      record is never refused for that reason again while it is in force. */
  lemma FollowingARefusal(task: Task, p: Policy, id: RouteId, earlier: Record, r: Reason, before: nat, author: T.Text,
      basis: T.Text, issuedAt: nat, took: nat, o: Outcome)
    requires TaskPolicy(task) == Some(p) && Written(author, 256) && Written(basis, 2000)
    requires RecordReason(earlier, id, EffortOf(id, p.pool), task, before, p.role) == Some(r)
    requires AllPass(o, S.HintFor(Refused(r, earlier), task, p.role).value.capabilities)
    ensures var h := S.HintFor(Refused(r, earlier), task, p.role).value;
            var effort := EffortOf(id, p.pool);
            var q := Qualify(id, effort, h.capabilities, Filled(h, author, basis), issuedAt, took, o);
            && (q == None <==> r == ProbeRequired(Video) || (r == DataClassNotQualified && IsBase(ClassOf(task))))
            && (q.Some? ==> forall now :: issuedAt <= now < issuedAt + ONE_DAY ==>
                              RecordReason(q.value, id, effort, task, now, p.role) != Some(r))
  {
    var effort := EffortOf(id, p.pool);
    S.RefusedForAFault(earlier, id, effort, task, before, p.role);
    HintIsAboutItsReason(r, earlier, task, p.role);
    PolicyFacts(task, p);
    var h := S.HintFor(Refused(r, earlier), task, p.role).value;
    var s := Filled(h, author, basis);
    hide RecordReason, TaskPolicy, S.HintFor, EffortOf, Needs;
    HintIsAccepted(r, task, h, author, basis);
    if !(r == ProbeRequired(Video) || (r == DataClassNotQualified && IsBase(ClassOf(task)))) {
      forall now: nat | issuedAt <= now < issuedAt + ONE_DAY
        ensures RecordReason(RecordOf(id, effort, h.capabilities, Normalize(s).value, issuedAt, took, o), id, effort,
                  task, now, p.role) != Some(r) {
        FaultIsMended(r, task, p.role, id, effort, h.capabilities, s, issuedAt, took, o, now);
      }
    }
  }

  /** The arguments of a hint are accepted unless they ask for a video probe or name a class twice. */
  lemma HintIsAccepted(r: Reason, task: Task, h: S.Hint, author: T.Text, basis: T.Text)
    requires Written(author, 256) && Written(basis, 2000) && ClassOf(task) != OtherClass
    requires r == ProbeRequired(StructuredOutput) || r == ProbeRequired(Video) || !r.ProbeRequired?
    requires h.capabilities == if r == ImageRequired then [Image] else if r.ProbeRequired? then [r.capability] else []
    requires h.domain <==> r == DomainRequired
    requires h.classes == if r == DataClassNotQualified then Some([Public, Internal, ClassOf(task)]) else None
    ensures CanProbe(h.capabilities) <==> r != ProbeRequired(Video)
    ensures Normalize(Filled(h, author, basis)) == None <==> r == DataClassNotQualified && IsBase(ClassOf(task))
  {
    hide T.Trim;
    if r == DataClassNotQualified {
      var classes := [Public, Internal, ClassOf(task)];
      assert NoRepeats(classes) <==> classes[0] != classes[2] && classes[1] != classes[2];
    }
    assert r == ProbeRequired(Video) ==> h.capabilities[0] == Video;
  }

  lemma FaultIsMended(r: Reason, task: Task, role: Role, id: RouteId, effort: Effort, cs: seq<Capability>,
      s: Option<Statement>, issuedAt: nat, took: nat, o: Outcome, now: nat)
    requires CanProbe(cs) && Normalize(s).Some? && AllPass(o, cs) && issuedAt <= now < issuedAt + ONE_DAY
    requires r == ImageRequired ==> Image in cs
    requires r.ProbeRequired? ==> r.capability in cs
    requires r == DomainRequired ==> GrantsDomain(s)
    requires r == DataClassNotQualified ==> s.Some? && ClassOf(task) in ClassesOf(s.value)
    ensures var q := RecordOf(id, effort, cs, Normalize(s).value, issuedAt, took, o);
            RecordReason(q, id, effort, task, now, role) != Some(r)
  {
    var a := Normalize(s).value;
    var q := RecordOf(id, effort, cs, a, issuedAt, took, o);
    CasesOfRecord(id, effort, cs, a, issuedAt, took, o, TextCase);
    CasesOfRecord(id, effort, cs, a, issuedAt, took, o, RoundtripCase);
    CasesOfRecord(id, effort, cs, a, issuedAt, took, o, ProbeCase(Image));
    if r.ProbeRequired? { CasesOfRecord(id, effort, cs, a, issuedAt, took, o, ProbeCase(r.capability)); }
    GrantedByStatement(s);
    hide Passed, ProbeCases, Normalize, ProviderOf, ModelOf, Needs, ClassesOf, RecordReason, CanProbe;
    assert !S.Faulty(q, id, effort, task, now, role, r);
    if RecordReason(q, id, effort, task, now, role).Some? { S.RefusedForAFault(q, id, effort, task, now, role); }
  }

  const CONFIDENTIAL_ONLY := Statement(Some([Confidential]), None, T.Units("a"), T.Units("b"))

  /** A probe attested for confidential data only, and a plain task: the record is refused for the class
      of its data, and the probe that this refusal names is itself refused. */
  lemma OrdinaryDataHintIsRefused(id: RouteId, issuedAt: nat, took: nat, o: Outcome, author: T.Text, basis: T.Text)
    requires AllPass(o, [])
    ensures var task := VIDEO_TASK.(capabilities := []);
            var p := TaskPolicy(task);
            && p.Some? && var effort := EffortOf(id, p.value.pool);
               var q := Qualify(id, effort, [], Some(CONFIDENTIAL_ONLY), issuedAt, took, o);
               && q.Some?
               && RecordReason(q.value, id, effort, task, issuedAt, p.value.role) == Some(DataClassNotQualified)
               && var h := S.HintFor(Refused(DataClassNotQualified, q.value), task, p.value.role).value;
                  Qualify(id, effort, h.capabilities, Filled(h, author, basis), issuedAt, took, o) == None
  {
    var task := VIDEO_TASK.(capabilities := []);
    hide Qualify, RecordReason, S.HintFor, EffortOf;
    ConfidentialOnlyIsRefused(id, EffortOf(id, TaskPolicy(task).value.pool), issuedAt, took, o, author, basis);
  }

  lemma ConfidentialOnlyIsRefused(id: RouteId, effort: Effort, issuedAt: nat, took: nat, o: Outcome, author: T.Text,
      basis: T.Text)
    requires AllPass(o, [])
    ensures var task := VIDEO_TASK.(capabilities := []);
            var q := Qualify(id, effort, [], Some(CONFIDENTIAL_ONLY), issuedAt, took, o);
            && q.Some?
            && RecordReason(q.value, id, effort, task, issuedAt, Standard) == Some(DataClassNotQualified)
            && var h := S.HintFor(Refused(DataClassNotQualified, q.value), task, Standard).value;
               Qualify(id, effort, h.capabilities, Filled(h, author, basis), issuedAt, took, o) == None
  {
    var task := VIDEO_TASK.(capabilities := []);
    ConfidentialIsAccepted();
    hide T.Trim, T.Units;
    RefusedForItsClass(id, effort, Normalize(Some(CONFIDENTIAL_ONLY)).value.value, issuedAt, took, o, task, Standard);
    assert Qualify(id, effort, [], Some(CONFIDENTIAL_ONLY), issuedAt, took, o).Some?;
    hide RecordReason, Normalize, RecordOf;
    NamedTwiceIsRefused(author, basis);
  }

  lemma RefusedForItsClass(id: RouteId, effort: Effort, a: Attestation, issuedAt: nat, took: nat, o: Outcome,
      task: Task, role: Role)
    requires AllPass(o, []) && a.dataClasses == [Confidential] && !a.domainEvidence
    requires Nonempty(a.attestedBy, 256) && Nonempty(a.basis, 2000)
    requires ClassOf(task) == Public && task.capabilities == [] && role == Standard
    ensures RecordReason(RecordOf(id, effort, [], Some(a), issuedAt, took, o), id, effort, task, issuedAt, role) ==
              Some(DataClassNotQualified)
  {
    CasesOfRecord(id, effort, [], Some(a), issuedAt, took, o, TextCase);
    CasesOfRecord(id, effort, [], Some(a), issuedAt, took, o, RoundtripCase);
    hide Passed, ProbeCases, ProviderOf, ModelOf;
  }

  lemma NamedTwiceIsRefused(author: T.Text, basis: T.Text)
    ensures Normalize(Some(Statement(Some([Public, Internal, Public]), None, author, basis))) == None
  {
    assert [Public, Internal, Public][0] == [Public, Internal, Public][2];
  }

  lemma ConfidentialIsAccepted()
    ensures var a := Normalize(Some(CONFIDENTIAL_ONLY));
            && a.Some? && a.value.Some? && a.value.value.dataClasses == [Confidential] && !a.value.value.domainEvidence
            && Nonempty(a.value.value.attestedBy, 256) && Nonempty(a.value.value.basis, 2000)
  {
    assert T.Units("a")[0] == 97 && T.Units("b")[0] == 98;
    assert T.Trim(T.Units("a")) == T.Units("a") && T.Trim(T.Units("b")) == T.Units("b");
  }

  /** So the refused task selects: the new record is the only one of its route and effort. */
  lemma HintMakesSelectable(task: Task, qs: seq<Record>, p: Policy, id: RouteId, author: T.Text, basis: T.Text,
                            issuedAt: nat, took: nat, o: Outcome, now: nat, avoid: Option<Provider>, spread: T.Text)
    requires TaskPolicy(task) == Some(p) && id in S.Candidates(p.pool, avoid)
    requires S.JudgeFor(id, qs, task, now, p) == Missing
    requires Written(author, 256) && Written(basis, 2000) && issuedAt <= now < issuedAt + ONE_DAY
    requires AllPass(o, S.MissingHint(task, p.role).capabilities)
    ensures var h := S.MissingHint(task, p.role);
            var q := Qualify(id, EffortOf(id, p.pool), h.capabilities, Filled(h, author, basis), issuedAt, took, o);
            !Needs(task, p.role, Video) ==> q.Some? && S.Select(task, qs + [q.value], now, avoid, spread).Selected?
  {
    if !Needs(task, p.role, Video) {
      FollowingTheHint(task, p, id, author, basis, issuedAt, took, o);
      var h := S.MissingHint(task, p.role);
      var q := Qualify(id, EffortOf(id, p.pool), h.capabilities, Filled(h, author, basis), issuedAt, took, o).value;
      assert Matches(q, id, EffortOf(id, p.pool)) && q.issuedAt == Some(issuedAt);
      hide TaskPolicy, S.MissingHint, Qualify, S.Candidates, RecordReason, EffortOf, S.Ordered;
      OnlyRecord(qs, q, id, task, now, p);
      var ids := S.Candidates(p.pool, avoid);
      S.FirstEntry(ids, qs + [q], task, now, p);
    }
  }

  lemma OnlyRecord(qs: seq<Record>, q: Record, id: RouteId, task: Task, now: nat, p: Policy)
    requires S.JudgeFor(id, qs, task, now, p) == Missing && Matches(q, id, EffortOf(id, p.pool)) && q.issuedAt.Some?
    requires RecordReason(q, id, EffortOf(id, p.pool), task, now, p.role) == None
    ensures S.JudgeFor(id, qs + [q], task, now, p) == Good(q)
  {
    hide RecordReason, EffortOf;
    MatchingLast(qs, q, id, EffortOf(id, p.pool));
    assert Matching(qs, id, EffortOf(id, p.pool)) == [];
    assert Matching(qs + [q], id, EffortOf(id, p.pool)) == [q] && [q][1..] == [];
    assert Dated([q]);
    assert Issued([q], q.issuedAt.value) == [q];
    assert Newest([q]) == q.issuedAt.value;
  }

  lemma {:induction false} MatchingLast(qs: seq<Record>, q: Record, id: RouteId, effort: Effort)
    requires Matches(q, id, effort)
    ensures Matching(qs + [q], id, effort) == Matching(qs, id, effort) + [q]
  {
    hide Matches;
    if qs == [] {
      assert qs + [q] == [q];
    } else {
      MatchingLast(qs[1..], q, id, effort);
      assert (qs + [q])[1..] == qs[1..] + [q];
    }
  }
}
