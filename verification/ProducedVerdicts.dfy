/** What the verifier makes of the producers' output, against a context derived from the same git facts. */
module ProducedVerdicts {
  import opened Basics
  import opened Json
  import opened FailureCodes
  import opened Patterns
  import opened Schema
  import opened Statements
  import opened Views
  import opened Policy
  import opened Verifier
  import opened Decisions
  import opened Produced
  import opened Creation
  import opened Capturing
  import opened ProducedShapes
  import opened ProducedTexts
  import opened ProducedAcceptance
  import G = Gates

  /** The context derived from the repository passes its schema. */
  predicate ContextFits(result: GitResult, requiredLevel: string) {
    && RepoUriFits(result.repoUrl) && GitCommit(result.baseCommit)
    && requiredLevel in {"", "evidence-grade", "policy-grade", "high-assurance"}
    && result.patch.algorithm == "sha256" && HexSha256(result.patch.digest)
  }

  function SubjectOf(patch: Patch): Value {
    Obj(map["name" := Str("patch.diff"), "algorithm" := Str(patch.algorithm), "digest" := Str(patch.digest)])
  }

  lemma SubjectFitsIff(patch: Patch)
    ensures IsContextSubject(SubjectOf(patch)) <==> patch.algorithm == "sha256" && HexSha256(patch.digest)
  {
  }

  lemma ContextMembers(result: GitResult, requiredLevel: string)
    ensures var x := ContextFor(result, requiredLevel);
            && x.fields.Keys == CONTEXT_REQUIRED
            && Member(x, "repoUrl") == Str(result.repoUrl) && Member(x, "baseCommit") == Str(result.baseCommit)
            && Member(x, "requiredLevel") == Str(FirstNonEmpty(requiredLevel, "evidence-grade"))
            && Member(x, "subjects") == Arr([SubjectOf(result.patch)])
            && ItemsMember(x, "subjects") == [SubjectOf(result.patch)]
  {
  }

  lemma ContextCoreIff(result: GitResult, requiredLevel: string)
    ensures ContextPart(Core, ContextFor(result, requiredLevel)) <==> ContextFits(result, requiredLevel)
  {
    var x := ContextFor(result, requiredLevel);
    ContextMembers(result, requiredLevel);
    SubjectFitsIff(result.patch);
    assert SubjectOf(result.patch) in ItemsMember(x, "subjects");
  }

  lemma NoOptionalContext(x: Value, key: string)
    requires x.Obj? && x.fields.Keys == CONTEXT_REQUIRED && key in CONTEXT_OPTIONAL
    ensures !Has(x, key) && Member(x, key).Null? && ItemsMember(x, key) == []
  {
  }

  /** The derived context names nothing that only an out-of-band verification could know. */
  predicate Unassisted(x: G.Trusted) {
    && x.agentConfig.None? && x.mcpServers == {} && x.delegation == {}
    && x.pullRequest.None? && x.runId.None? && x.window == 0.0
  }

  lemma OptionalContextParts(x: Value)
    requires x.Obj? && x.fields.Keys == CONTEXT_REQUIRED
    ensures ContextPart(Keys, x) && ContextPart(Extras, x)
  {
    forall key | key in CONTEXT_OPTIONAL
      ensures !Has(x, key)
    {
      NoOptionalContext(x, key);
    }
  }

  lemma NoAllowlists(x: Value)
    requires x.Obj? && x.fields.Keys == CONTEXT_REQUIRED
    ensures ContextPart(Harness, x)
  {
    forall key | key in CONTEXT_OPTIONAL
      ensures !Has(x, key) && ItemsMember(x, key) == []
    {
      NoOptionalContext(x, key);
    }
  }

  lemma ContextShapeIff(result: GitResult, requiredLevel: string)
    ensures ContextShape(ContextFor(result, requiredLevel)) <==> ContextFits(result, requiredLevel)
  {
    var x := ContextFor(result, requiredLevel);
    ContextMembers(result, requiredLevel);
    ContextCoreIff(result, requiredLevel);
    OptionalContextParts(x);
    NoAllowlists(x);
    if ContextFits(result, requiredLevel) {
      forall part: Part
        ensures ContextPart(part, x)
      {
        match part
        case Keys =>
        case Core =>
        case Extras =>
        case Harness =>
      }
    }
  }

  lemma ContextIsUnassisted(result: GitResult, requiredLevel: string)
    ensures var x := TrustedOf(ContextFor(result, requiredLevel));
            && Unassisted(x) && x.required == LevelOf(requiredLevel)
            && x.repoUrl == result.repoUrl && x.baseCommit == result.baseCommit
            && x.subjects == [G.ContextSubject("patch.diff", result.patch.digest)]
  {
    var x := ContextFor(result, requiredLevel);
    ContextMembers(result, requiredLevel);
    forall key | key in CONTEXT_OPTIONAL
      ensures Member(x, key).Null? && ItemsMember(x, key) == []
    {
      NoOptionalContext(x, key);
    }
    assert ContextSubjectOf(SubjectOf(result.patch)) == G.ContextSubject("patch.diff", result.patch.digest);
  }

  /** What every produced predicate claims: evidence grade, with nothing declared beyond the run. */
  predicate Plain(c: G.Claim) {
    && c.level.EvidenceGrade? && c.declaredIdentity.None? && c.witnesses == {} && c.extensionVisibilities == {}
    && (forall e | e in c.evidence :: e.storage != "transparency-log")
  }

  /** Overrides that differ from the repository's own facts. */
  function Overridden(c: G.Claim, x: G.Trusted): set<Code> {
    (if c.repoUrl != x.repoUrl then {RepoUrlMismatch} else {})
    + (if c.baseCommit != x.baseCommit then {BaseCommitMismatch} else {})
  }

  function TooLow(required: G.Level): set<Code> {
    if required.EvidenceGrade? then {} else {LevelBelowRequired}
  }

  lemma PlainGate(c: G.Claim, s: seq<G.StatementSubject>, x: G.Trusted, code: Code)
    requires Plain(c) && Unassisted(x) && G.SubjectsBound(s, x)
    ensures G.Holds(code, c, s, x) <==> code !in Overridden(c, x) + TooLow(x.required)
  {
  }

  /** An evidence-grade claim against an unassisted verifier fails only on overrides and on its level. */
  lemma PlainFailures(c: G.Claim, s: seq<G.StatementSubject>, x: G.Trusted)
    requires Plain(c) && Unassisted(x) && G.SubjectsBound(s, x)
    ensures Failing(c, s, x) == Overridden(c, x) + TooLow(x.required)
  {
    forall code
      ensures code in Failing(c, s, x) <==> code in POLICY_CODES && code in Overridden(c, x) + TooLow(x.required)
    {
      PlainGate(c, s, x, code);
    }
    EveryCodeListed(c, x);
  }

  lemma EveryCodeListed(c: G.Claim, x: G.Trusted)
    ensures forall code | code in Overridden(c, x) + TooLow(x.required) :: code in POLICY_CODES
  {
  }

  predicate PlainParts(q: Parts) {
    !Has(q.agent, "declaredIdentity") && TextOf(q.evidence, "storage") != "transparency-log"
  }

  lemma AssembledClaim(p: Value, q: Parts)
    requires Assembled(p, q) && PlainParts(q)
    ensures Plain(ClaimOf(p))
    ensures ClaimOf(p).repoUrl == TextOf(q.repo, "url") && ClaimOf(p).baseCommit == TextOf(q.repo, "baseCommit")
  {
    assert AssembledPart(Core, p, q);
    assert ItemsMember(Member(p, "environment"), "witnesses") == [];
    assert ItemsMember(p, "evidence") == [q.evidence];
    OptionReads(p, q, "extensions");
  }

  lemma ProducedDocument(v: Version, result: GitResult, fields: map<string, Value>)
    requires Member(Obj(fields), "predicateVersion") == Str(v.Name())
    ensures var s := StatementFor(v, result, fields);
            && Member(s, "predicate") == Obj(fields) && ItemsMember(s, "subject") == [PatchSubject(result.patch)]
            && Parse(s) == Some(Document(TYPE_V1, TypeOf(v), Obj(fields)))
  {
    var s := StatementFor(v, result, fields);
    var subject := PatchSubject(result.patch);
    assert Member(s, "subject") == Arr([subject]);
    assert Member(subject, "name") == Str("patch.diff");
    assert DecodesAsSubject(subject);
    assert Member(s, "_type") == Str(TYPE_V1) && Member(s, "predicateType") == Str(TypeOf(v));
  }

  lemma TypesDiffer(v: Version)
    ensures VersionOfType(TypeOf(v)) == Some(v)
  {
    assert PREDICATE_TYPE_V0[|PREDICATE_TYPE_V0| - 1] != PREDICATE_TYPE_V1[|PREDICATE_TYPE_V1| - 1];
  }

  /** A produced statement is routed to its own version. */
  lemma ProducedIsRouted(v: Version, result: GitResult, fields: map<string, Value>)
    requires Member(Obj(fields), "predicateVersion") == Str(v.Name())
    ensures RoutedVersion(StatementFor(v, result, fields)) == Some(v)
  {
    ProducedDocument(v, result, fields);
    TypesDiffer(v);
    assert DeclaredVersion(Obj(fields)) == Some(v);
    assert RoutingCodes(Document(TYPE_V1, TypeOf(v), Obj(fields))) == {};
  }

  lemma ProducedSubjectsBound(v: Version, result: GitResult, fields: map<string, Value>, requiredLevel: string)
    requires Member(Obj(fields), "predicateVersion") == Str(v.Name()) && result.patch.algorithm == "sha256"
    ensures G.SubjectsBound(SubjectsOf(StatementFor(v, result, fields)), TrustedOf(ContextFor(result, requiredLevel)))
  {
    ProducedDocument(v, result, fields);
    ContextIsUnassisted(result, requiredLevel);
    var s := SubjectsOf(StatementFor(v, result, fields));
    var claimed := G.StatementSubject(true, Some("patch.diff"), Some(result.patch.digest));
    assert StatementSubjectOf(PatchSubject(result.patch)) == claimed;
    assert s == [claimed] && claimed in s;
    assert G.ContextSubject("patch.diff", result.patch.digest) in TrustedOf(ContextFor(result, requiredLevel)).subjects;
  }

  /** Where the predicate's repository facts differ from git's. */
  function Divergence(q: Parts, result: GitResult): set<Code> {
    (if TextOf(q.repo, "url") != result.repoUrl then {RepoUrlMismatch} else {})
    + (if TextOf(q.repo, "baseCommit") != result.baseCommit then {BaseCommitMismatch} else {})
  }

  lemma AssembledFailures(s: Value, x: Value, q: Parts, result: GitResult)
    requires Assembled(Member(s, "predicate"), q) && PlainParts(q)
    requires Unassisted(TrustedOf(x)) && G.SubjectsBound(SubjectsOf(s), TrustedOf(x))
    requires TrustedOf(x).repoUrl == result.repoUrl && TrustedOf(x).baseCommit == result.baseCommit
    ensures StatementFailures(s, x) == Divergence(q, result) + TooLow(TrustedOf(x).required)
  {
    AssembledClaim(Member(s, "predicate"), q);
    PlainFailures(ClaimOf(Member(s, "predicate")), SubjectsOf(s), TrustedOf(x));
    FailuresOf(s, x);
  }

  /** Routing, predicate and subjects of the statement made of these parts. */
  lemma StatementOfParts(v: Version, result: GitResult, q: Parts, requiredLevel: string)
    requires q.version == v
    ensures var s := StatementFor(v, result, Fields(q));
            && RoutedVersion(s) == Some(v) && Member(s, "predicate") == Obj(Fields(q))
            && Assembled(Obj(Fields(q)), q)
            && (result.patch.algorithm == "sha256" ==>
                  G.SubjectsBound(SubjectsOf(s), TrustedOf(ContextFor(result, requiredLevel))))
  {
    FieldsAreAssembled(q);
    assert AssembledPart(Core, Obj(Fields(q)), q);
    ProducedIsRouted(v, result, Fields(q));
    ProducedDocument(v, result, Fields(q));
    if result.patch.algorithm == "sha256" {
      ProducedSubjectsBound(v, result, Fields(q), requiredLevel);
    }
  }

  lemma AcceptedDecision(v: Version, result: GitResult, q: Parts, requiredLevel: string)
    requires q.version == v && PlainParts(q) && result.patch.algorithm == "sha256"
    requires Reaches(v, StatementFor(v, result, Fields(q)), ContextFor(result, requiredLevel))
    ensures Decide(Some(DEFAULT), StatementFor(v, result, Fields(q)), ContextFor(result, requiredLevel))
         == Names(Divergence(q, result) + TooLow(LevelOf(requiredLevel)))
  {
    hide *;
    var s, x := StatementFor(v, result, Fields(q)), ContextFor(result, requiredLevel);
    StatementOfParts(v, result, q, requiredLevel);
    ContextIsUnassisted(result, requiredLevel);
    AssembledFailures(s, x, q, result);
    DecisionIsFailingGates(v, s, x);
  }

  lemma FittingContextIsSha256(result: GitResult, requiredLevel: string)
    requires ContextFits(result, requiredLevel)
    ensures result.patch.algorithm == "sha256"
  {
  }

  /** The decision on a produced statement, given when its contracts accept it. */
  lemma ProducedDecision(v: Version, result: GitResult, q: Parts, requiredLevel: string, fits: bool)
    requires q.version == v && PlainParts(q)
    requires PredicateShape(JsonSchema, v, Obj(Fields(q))) && PredicateShape(Cue, v, Obj(Fields(q))) <==> fits
    ensures var s, x := StatementFor(v, result, Fields(q)), ContextFor(result, requiredLevel);
            Decide(Some(DEFAULT), s, x) ==
              if fits && ContextFits(result, requiredLevel)
              then Names(Divergence(q, result) + TooLow(LevelOf(requiredLevel)))
              else Names({SchemaInvalid})
  {
    hide *;
    var s, x := StatementFor(v, result, Fields(q)), ContextFor(result, requiredLevel);
    StatementOfParts(v, result, q, requiredLevel);
    ContextShapeIff(result, requiredLevel);
    AcceptedIff(v, Obj(Fields(q)), x);
    ReachesIff(v, s, x);
    if fits && ContextFits(result, requiredLevel) {
      FittingContextIsSha256(result, requiredLevel);
      AcceptedDecision(v, result, q, requiredLevel);
    } else {
      RejectedIsSchemaInvalid(v, s, x);
    }
  }

  /** Overrides given to `create` that contradict git. */
  function WrongOverrides(result: GitResult, o: CreateOptions): set<Code> {
    (if o.repoUrl != "" && o.repoUrl != result.repoUrl then {RepoUrlMismatch} else {})
    + (if o.baseCommit != "" && o.baseCommit != result.baseCommit then {BaseCommitMismatch} else {})
  }

  lemma RepoDivergence(result: GitResult, o: CreateOptions)
    ensures TextOf(RepoObject(result, o), "url") == FirstNonEmpty(o.repoUrl, result.repoUrl)
    ensures TextOf(RepoObject(result, o), "baseCommit") == FirstNonEmpty(o.baseCommit, result.baseCommit)
  {
  }

  lemma CreatedIsPlain(v: Version, result: GitResult, o: CreateOptions, host: Host)
    ensures var q := CreatedParts(v, result, o, host);
            q.version == v && PlainParts(q) && Divergence(q, result) == WrongOverrides(result, o)
  {
    RepoDivergence(result, o);
  }

  lemma CapturedIsPlain(result: GitResult, meta: RunMetadata, o: CreateOptions, host: Host)
    ensures var q := CapturedParts(result, meta, o, host);
            q.version == V1 && PlainParts(q) && Divergence(q, result) == WrongOverrides(result, o)
  {
    RepoDivergence(result, o);
  }

  lemma NoOverrides(result: GitResult, o: CreateOptions, level: G.Level)
    requires o.repoUrl == "" && o.baseCommit == ""
    ensures WrongOverrides(result, o) + TooLow(level) == TooLow(level)
  {
  }

  /**
   Verifying what `create` wrote against the repository it was created in: rejected exactly when some
   text does not fit the contracts; otherwise the only failures are overrides that contradict git, and
   `level_below_required` when more than evidence grade is required.
   */
  lemma CreateRoundTrip(v: Version, result: GitResult, o: CreateOptions, host: Host, requiredLevel: string)
    requires HostFits(host, TimeOf(o, host))
    ensures var s := StatementFor(v, result, Fields(CreatedParts(v, result, o, host)));
            Decide(Some(DEFAULT), s, ContextFor(result, requiredLevel)) ==
              if CreatedFits(v, result, o, host) && ContextFits(result, requiredLevel)
              then Names(WrongOverrides(result, o) + TooLow(LevelOf(requiredLevel)))
              else Names({SchemaInvalid})
  {
    hide *;
    CreatedIsPlain(v, result, o, host);
    CreatedIsAcceptedIff(v, result, o, host);
    ProducedDecision(v, result, CreatedParts(v, result, o, host), requiredLevel, CreatedFits(v, result, o, host));
  }

  lemma CapturedDecision(result: GitResult, meta: RunMetadata, o: CreateOptions, host: Host, requiredLevel: string)
    requires HostFits(host, TimeOf(o, host)) && OptionsOf(meta, o) && o.repoUrl == "" && o.baseCommit == ""
    ensures var s := StatementFor(V1, result, Fields(CapturedParts(result, meta, o, host)));
            Decide(Some(DEFAULT), s, ContextFor(result, requiredLevel)) ==
              if CapturedFits(result, meta, o, host) && ContextFits(result, requiredLevel)
              then Names(TooLow(LevelOf(requiredLevel)))
              else Names({SchemaInvalid})
  {
    hide *;
    CapturedIsPlain(result, meta, o, host);
    CapturedIsAcceptedIff(result, meta, o, host);
    NoOverrides(result, o, LevelOf(requiredLevel));
    ProducedDecision(V1, result, CapturedParts(result, meta, o, host), requiredLevel, CapturedFits(result, meta, o, host));
  }

  lemma CapturedStatement(result: GitResult, meta: RunMetadata, o: CreateOptions, host: Host, s: Value)
    requires Captured(result, meta, host) == Success(s) && CaptureOptions(meta, host) == Some(o)
    ensures s == StatementFor(V1, result, Fields(CapturedParts(result, meta, o, host)))
    ensures OptionsOf(meta, o) && o.repoUrl == "" && o.baseCommit == ""
  {
    hide StatementFor, Fields, CapturedParts;
  }

  /**
   Verifying what a capture returned: rejected exactly when some text does not fit the contracts, when the
   agent has no name, or when the run claims GitHub Actions; otherwise valid at evidence grade, and at any
   higher required level exactly `level_below_required`.
   */
  lemma CaptureRoundTrip(result: GitResult, meta: RunMetadata, o: CreateOptions, host: Host, requiredLevel: string, s: Value)
    requires HostFits(host, TimeOf(o, host))
    requires Captured(result, meta, host) == Success(s) && CaptureOptions(meta, host) == Some(o)
    ensures Decide(Some(DEFAULT), s, ContextFor(result, requiredLevel)) ==
              if CapturedFits(result, meta, o, host) && ContextFits(result, requiredLevel)
              then Names(TooLow(LevelOf(requiredLevel)))
              else Names({SchemaInvalid})
  {
    hide *;
    CapturedStatement(result, meta, o, host, s);
    CapturedDecision(result, meta, o, host, requiredLevel);
  }

  lemma UnnamedDoesNotFit(result: GitResult, meta: RunMetadata, o: CreateOptions, host: Host)
    requires meta.agentName == "" || meta.executionType == "github-actions"
    ensures !CapturedFits(result, meta, o, host)
  {
  }

  /** Without a named agent, or claiming GitHub Actions, every capture that succeeds is `schema_invalid`. */
  lemma CaptureNeedsNameAndBuilder(result: GitResult, meta: RunMetadata, o: CreateOptions, host: Host,
                                   requiredLevel: string, s: Value)
    requires HostFits(host, TimeOf(o, host))
    requires Captured(result, meta, host) == Success(s) && CaptureOptions(meta, host) == Some(o)
    requires meta.agentName == "" || meta.executionType == "github-actions"
    ensures Decide(Some(DEFAULT), s, ContextFor(result, requiredLevel)) == Names({SchemaInvalid})
  {
    hide *;
    UnnamedDoesNotFit(result, meta, o, host);
    CaptureRoundTrip(result, meta, o, host, requiredLevel, s);
  }
}
