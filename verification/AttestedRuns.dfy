/** Statements above evidence grade: what they hold, what a verifier must know, and that they verify. */
module AttestedRuns {
  import opened Basics
  import opened Json
  import opened FailureCodes
  import opened Patterns
  import opened Timestamps
  import opened Schema
  import opened Statements
  import opened Views
  import opened Verifier
  import opened Decisions
  import opened Lifting
  import opened Formats
  import opened Produced
  import opened ProducedShapes
  import G = Gates

  /**
   A run on an isolated runner: its texts, and the digests of its patch, trace and approval, and of a log
   witness, which is empty without one.
   */
  datatype Run = Run(
    level: G.Level,
    url: string,
    commit: string,
    runId: string,
    signer: string,
    runner: string,
    workflow: string,
    issuer: string,
    uri: string,
    time: string,
    patch: string,
    trace: string,
    approval: string,
    log: string
  )

  /** The texts are such as the contracts ask for. */
  predicate Fits(r: Run) {
    && IsRepoUri(JsonSchema, Str(r.url)) && IsCommit(Str(r.commit)) && IsRunId(Str(r.runId))
    && IsIdentity(Str(r.signer)) && IsText(Cue, Str(r.runner), 512) && IsText(Cue, Str(r.workflow), 512)
    && IsPlainText(Str(r.issuer), 512) && IsSafeUri(JsonSchema, Str(r.uri)) && IsTimestamp(JsonSchema, Str(r.time))
    && HexSha256(r.patch) && HexSha256(r.trace) && HexSha256(r.approval)
    && (r.log != "" ==> HexSha256(r.log))
  }

  function RepoOf(r: Run): Value {
    Obj(map["url" := Str(r.url), "baseCommit" := Str(r.commit)])
  }

  function AgentOf(r: Run): Value {
    Obj(map["name" := Str("example-agent"), "version" := Str("1.0.0"), "invocationKind" := Str("ci-step"),
            "declaredIdentity" := Str(r.signer)])
  }

  function IsolatedBuilder(r: Run): Value {
    Obj(map["id" := Str(r.runner), "type" := Str("isolated-runner"), "workflowRef" := Str(r.workflow)])
  }

  function LogWitness(r: Run): Value {
    Obj(map["id" := Str("rekor-bundle-1"), "type" := Str("transparency-log"), "digest" := DigestObject(r.log)])
  }

  function LogWitnesses(r: Run): seq<Value> {
    if r.log == "" then [] else [LogWitness(r)]
  }

  function EnvironmentOf(r: Run): Value {
    Obj(map["executionType" := Str("isolated-runner"), "builder" := IsolatedBuilder(r),
            "witnesses" := Arr(LogWitnesses(r))])
  }

  const APPROVED := Obj(map["state" := Str("approved-before-merge")])

  function Stored(r: Run, kind: string, sha256: string): Value {
    Obj(map["type" := Str(kind), "uri" := Str(r.uri), "digest" := DigestObject(sha256),
            "storage" := Str("artifact-store"), "visibility" := Str("team")])
  }

  function PredicateOf(r: Run): Value {
    Obj(map["predicateVersion" := Str("v0"), "runId" := Str(r.runId), "verificationLevel" := Str(r.level.Name()),
            "repo" := RepoOf(r), "agent" := AgentOf(r), "environment" := EnvironmentOf(r),
            "humanApproval" := APPROVED, "privacy" := PRIVACY, "timestamps" := TimestampsObject(r.time),
            "evidence" := Arr([Stored(r, "trace", r.trace), Stored(r, "approval", r.approval)])])
  }

  function Subject(r: Run): Value {
    Obj(map["name" := Str("patch.diff"), "digest" := DigestObject(r.patch)])
  }

  function StatementOf(r: Run): Value {
    Obj(map["_type" := Str(TYPE_V1), "subject" := Arr([Subject(r)]),
            "predicateType" := Str(PREDICATE_TYPE_V0), "predicate" := PredicateOf(r)])
  }

  function KnownSubject(r: Run): Value {
    Obj(map["name" := Str("patch.diff"), "algorithm" := Str("sha256"), "digest" := Str(r.patch)])
  }

  function KnownWitness(r: Run): Value {
    Obj(map["type" := Str("transparency-log"), "digest" := DigestObject(r.log)])
  }

  function KnownWitnesses(r: Run): seq<Value> {
    if r.log == "" then [] else [KnownWitness(r)]
  }

  /** What a verifier has to know of the run from elsewhere. */
  function ContextOf(r: Run, required: G.Level): Value {
    Obj(map["repoUrl" := Str(r.url), "baseCommit" := Str(r.commit), "requiredLevel" := Str(required.Name()),
            "subjects" := Arr([KnownSubject(r)]), "verifiedSigner" := Str(r.signer),
            "verifiedBuilderId" := Str(r.runner), "verifiedWorkflowRef" := Str(r.workflow),
            "verifiedIssuer" := Str(r.issuer), "verifiedApproval" := Bool(true),
            "verifiedApprovalDigest" := DigestObject(r.approval), "verifiedWitnesses" := Arr(KnownWitnesses(r)),
            "allowedIsolatedRunners" := Arr([Str(r.runner)])])
  }

  lemma PredicateMembers(r: Run)
    ensures var p := PredicateOf(r);
            && p.fields.Keys == REQUIRED
            && Member(p, "predicateVersion") == Str("v0") && Member(p, "runId") == Str(r.runId)
            && Member(p, "verificationLevel") == Str(r.level.Name()) && Member(p, "repo") == RepoOf(r)
            && Member(p, "agent") == AgentOf(r) && Member(p, "environment") == EnvironmentOf(r)
            && Member(p, "humanApproval") == APPROVED && Member(p, "privacy") == PRIVACY
            && Member(p, "timestamps") == TimestampsObject(r.time)
            && Member(p, "evidence") == Arr([Stored(r, "trace", r.trace), Stored(r, "approval", r.approval)])
  {
    hide RepoOf, AgentOf, EnvironmentOf, TimestampsObject, Stored;
  }

  lemma NoOptionalMember(r: Run, key: string)
    requires key !in REQUIRED
    ensures !Has(PredicateOf(r), key) && Member(PredicateOf(r), key).Null? && ItemsMember(PredicateOf(r), key) == []
  {
    hide PredicateOf;
    PredicateMembers(r);
  }

  lemma DigestFits(sha256: string)
    requires HexSha256(sha256)
    ensures IsDigest(DigestObject(sha256))
  {
  }

  lemma RepoFits(l: Layer, r: Run)
    requires Fits(r)
    ensures IsRepo(l, RepoOf(r))
  {
    hide RepoUriText, GitCommit, SafeUriText, IsTimestamp, RunIdText, IdentityText, HexSha256, IsPullRequest;
  }

  lemma AgentFits(l: Layer, r: Run)
    requires Fits(r)
    ensures IsAgent(l, V0, AgentOf(r))
  {
    hide RepoUriText, GitCommit, SafeUriText, IsTimestamp, RunIdText, IdentityText, HexSha256;
  }

  lemma BuilderFits(l: Layer, r: Run)
    requires Fits(r)
    ensures IsBuilder(l, V0, IsolatedBuilder(r))
  {
    hide RepoUriText, GitCommit, SafeUriText, IsTimestamp, RunIdText, IdentityText, HexSha256;
  }

  lemma WitnessFits(l: Layer, r: Run)
    requires Fits(r) && r.log != ""
    ensures IsWitness(l, LogWitness(r))
  {
    hide RepoUriText, GitCommit, SafeUriText, IsTimestamp, RunIdText, IdentityText, IsSafeUri;
    DigestFits(r.log);
  }

  lemma EnvironmentFits(l: Layer, r: Run)
    requires Fits(r)
    ensures IsEnvironment(l, V0, EnvironmentOf(r))
  {
    hide Fits, IsBuilder, IsWitness, IsGitHubBuilder, IsolatedBuilder, LogWitness;
    BuilderFits(l, r);
    if r.log != "" {
      WitnessFits(l, r);
    }
  }

  lemma ApprovalFits(l: Layer)
    ensures IsHumanApproval(l, APPROVED)
  {
  }

  lemma StoredFits(l: Layer, r: Run, kind: string, sha256: string)
    requires Fits(r) && HexSha256(sha256) && kind in {"trace", "approval"}
    ensures IsEvidence(l, V0, Stored(r, kind, sha256))
  {
    hide RepoUriText, GitCommit, SafeUriText, IsTimestamp, RunIdText, IdentityText, HexSha256;
    DigestFits(sha256);
  }

  lemma TimesFit(l: Layer, r: Run)
    requires Fits(r)
    ensures IsTimestamps(l, TimestampsObject(r.time))
  {
    TimestampsFit(l, r.time);
  }

  lemma CoreFitsRun(l: Layer, r: Run)
    requires Fits(r)
    ensures PredicatePart(Core, l, V0, PredicateOf(r))
  {
    hide PredicateOf, Stored, APPROVED, PRIVACY, TimestampsObject, RepoOf, AgentOf, EnvironmentOf;
    hide IsRepo, IsAgent, IsEnvironment, IsHumanApproval, IsPrivacy, IsTimestamps, IsEvidence;
    PredicateMembers(r);
    RepoFits(l, r);
    AgentFits(l, r);
    EnvironmentFits(l, r);
    ApprovalFits(l);
    PrivacyFits(l);
    TimesFit(l, r);
    LevelReads(r.level);
    StoredFits(l, r, "trace", r.trace);
    StoredFits(l, r, "approval", r.approval);
  }

  lemma KeysFitRun(l: Layer, r: Run)
    ensures PredicatePart(Keys, l, V0, PredicateOf(r))
  {
    hide PredicateOf;
    PredicateMembers(r);
  }

  lemma ExtrasFitRun(l: Layer, r: Run)
    ensures PredicatePart(Extras, l, V0, PredicateOf(r))
  {
    hide PredicateOf, IsModel, IsRuntime, IsChanges, IsSidecar, IsMaterial, IsExtensions, HasTrace;
    NoOptionalMember(r, "model");
    NoOptionalMember(r, "runtime");
    NoOptionalMember(r, "changes");
    NoOptionalMember(r, "sidecars");
    NoOptionalMember(r, "materials");
    NoOptionalMember(r, "extensions");
  }

  lemma PredicateFits(l: Layer, r: Run)
    requires Fits(r)
    ensures PredicateShape(l, V0, PredicateOf(r))
  {
    hide PredicateOf, CoreShape, OptionalShape, Closed;
    CoreFitsRun(l, r);
    KeysFitRun(l, r);
    ExtrasFitRun(l, r);
    forall part: Part
      ensures PredicatePart(part, l, V0, PredicateOf(r))
    {
      match part
      case Keys =>
      case Core =>
      case Extras =>
      case Harness =>
    }
  }

  lemma ContextKeys(r: Run, required: G.Level)
    ensures CONTEXT_REQUIRED <= ContextOf(r, required).fields.Keys <= CONTEXT_REQUIRED + CONTEXT_OPTIONAL
  {
    hide KnownSubject, KnownWitness, DigestObject;
  }

  lemma ContextFacts(r: Run, required: G.Level)
    ensures var x := ContextOf(r, required);
            && Member(x, "repoUrl") == Str(r.url) && Member(x, "baseCommit") == Str(r.commit)
            && Member(x, "requiredLevel") == Str(required.Name()) && Member(x, "subjects") == Arr([KnownSubject(r)])
            && Member(x, "verifiedSigner") == Str(r.signer) && Member(x, "verifiedBuilderId") == Str(r.runner)
            && Member(x, "verifiedWorkflowRef") == Str(r.workflow) && Member(x, "verifiedIssuer") == Str(r.issuer)
  {
    hide KnownSubject, KnownWitness, DigestObject;
  }

  lemma ContextLists(r: Run, required: G.Level)
    ensures var x := ContextOf(r, required);
            && Member(x, "verifiedApproval") == Bool(true)
            && Member(x, "verifiedApprovalDigest") == DigestObject(r.approval)
            && Member(x, "verifiedWitnesses") == Arr(KnownWitnesses(r))
            && Member(x, "allowedIsolatedRunners") == Arr([Str(r.runner)])
  {
    hide KnownSubject, KnownWitness, DigestObject;
  }

  const UNKNOWN := {"verifiedAgentConfig", "verifiedMcpServers", "verifiedDelegation", "allowSelfHostedRunners",
                    "expectedPullRequestNumber", "expectedRunId", "freshnessWindowSeconds", "now"}

  lemma NoOtherContext(r: Run, required: G.Level, key: string)
    requires key in UNKNOWN
    ensures var x := ContextOf(r, required);
            !Has(x, key) && Member(x, key).Null? && ItemsMember(x, key) == []
  {
    hide KnownSubject, KnownWitness, DigestObject;
  }

  lemma KnownFits(r: Run)
    requires Fits(r)
    ensures IsContextSubject(KnownSubject(r)) && forall w | w in KnownWitnesses(r) :: IsVerifiedWitness(w)
  {
    if r.log != "" {
      DigestFits(r.log);
    }
  }

  lemma ContextCoreFits(r: Run, required: G.Level)
    requires Fits(r)
    ensures ContextPart(Core, ContextOf(r, required)) && ContextPart(Keys, ContextOf(r, required))
  {
    hide ContextOf, KnownSubject, IsContextSubject, RepoUriText, GitCommit;
    ContextKeys(r, required);
    ContextFacts(r, required);
    KnownFits(r);
  }

  lemma ContextFactsFit(r: Run, required: G.Level)
    requires Fits(r)
    ensures ContextPart(Extras, ContextOf(r, required))
  {
    hide ContextOf, RepoUriText, GitCommit;
    ContextFacts(r, required);
    NoOtherContext(r, required, "expectedPullRequestNumber");
    NoOtherContext(r, required, "expectedRunId");
    NoOtherContext(r, required, "freshnessWindowSeconds");
    NoOtherContext(r, required, "now");
  }

  lemma ContextListsFit(r: Run, required: G.Level)
    requires Fits(r)
    ensures ContextPart(Harness, ContextOf(r, required))
  {
    hide ContextOf, KnownWitness, IsVerifiedWitness, IsDigest, RepoUriText, GitCommit, HexSha256;
    ContextLists(r, required);
    KnownFits(r);
    DigestFits(r.approval);
    NoOtherContext(r, required, "verifiedAgentConfig");
    NoOtherContext(r, required, "verifiedMcpServers");
    NoOtherContext(r, required, "verifiedDelegation");
    NoOtherContext(r, required, "allowSelfHostedRunners");
  }

  lemma ContextFits(r: Run, required: G.Level)
    requires Fits(r)
    ensures ContextShape(ContextOf(r, required))
  {
    hide ContextOf, AllowlistShape, IdentityShape, ReplayShape, Closed, IsContextSubject;
    ContextCoreFits(r, required);
    ContextFactsFit(r, required);
    ContextListsFit(r, required);
    forall part: Part
      ensures ContextPart(part, ContextOf(r, required))
    {
      match part
      case Keys =>
      case Core =>
      case Extras =>
      case Harness =>
    }
  }

  lemma StatementMembers(r: Run)
    ensures var s := StatementOf(r);
            && Member(s, "predicate") == PredicateOf(r) && Has(s, "predicate")
            && ItemsMember(s, "subject") == [Subject(r)] && Member(s, "subject") == Arr([Subject(r)])
            && Member(s, "_type") == Str(TYPE_V1) && Member(s, "predicateType") == Str(PREDICATE_TYPE_V0)
  {
    hide PredicateOf, Subject;
  }

  lemma Parsed(r: Run)
    ensures Parse(StatementOf(r)) == Some(Document(TYPE_V1, PREDICATE_TYPE_V0, PredicateOf(r)))
  {
    hide StatementOf, PredicateOf;
    StatementMembers(r);
    assert DecodesAsSubject(Subject(r));
    assert PredicateOf(r).Obj? by {
      PredicateMembers(r);
    }
  }

  lemma Routed(r: Run)
    ensures RoutedVersion(StatementOf(r)) == Some(V0)
  {
    hide StatementOf, PredicateOf, Parse;
    Parsed(r);
    assert DeclaredVersion(PredicateOf(r)) == Some(V0) by {
      PredicateMembers(r);
    }
  }

  lemma RunReachesIn(r: Run, context: Value)
    requires Fits(r)
    ensures Reaches(V0, StatementOf(r), context) <==> ContextShape(context)
  {
    hide *;
    Routed(r);
    StatementMembers(r);
    PredicateFits(JsonSchema, r);
    PredicateFits(Cue, r);
    AcceptedIff(V0, PredicateOf(r), context);
    ReachesIff(V0, StatementOf(r), context);
  }

  lemma RunReaches(r: Run, required: G.Level)
    requires Fits(r)
    ensures Reaches(V0, StatementOf(r), ContextOf(r, required))
  {
    hide *;
    ContextFits(r, required);
    RunReachesIn(r, ContextOf(r, required));
  }

  function Witnessed(r: Run): set<G.Attested> {
    if r.log == "" then {} else {G.Attested("transparency-log", r.log)}
  }

  predicate ClaimsTexts(c: G.Claim, r: Run) {
    && c.version.V0? && c.level == r.level && c.repoUrl == r.url && c.baseCommit == r.commit
    && c.declaredIdentity == Some(r.signer) && c.approvalState == "approved-before-merge" && c.captureMethod.None?
  }

  predicate ClaimsRunner(c: G.Claim, r: Run) {
    && c.executionType == "isolated-runner" && c.builder == Some(G.Builder(r.runner, Some(r.workflow), None))
    && c.witnesses == Witnessed(r)
  }

  predicate ClaimsEvidence(c: G.Claim, r: Run) {
    && c.evidence == {G.Evidence("trace", r.trace, "artifact-store", "team"),
                      G.Evidence("approval", r.approval, "artifact-store", "team")}
    && c.extensionVisibilities == {} && c.mcpServers == {} && c.delegation == {}
  }

  /** What the run claims, as far as the gates look. */
  predicate ClaimsRun(c: G.Claim, r: Run) {
    ClaimsTexts(c, r) && ClaimsRunner(c, r) && ClaimsEvidence(c, r)
  }

  predicate KnowsRun(x: G.Trusted, r: Run, required: G.Level) {
    && x.required == required && x.repoUrl == r.url && x.baseCommit == r.commit
    && x.subjects == [G.ContextSubject("patch.diff", r.patch)]
    && x.signer == Some(r.signer) && x.builderId == Some(r.runner) && x.workflowRef == Some(r.workflow)
    && x.issuer == Some(r.issuer) && x.approval && x.approvalDigest == Some(r.approval)
    && x.agentConfig.None? && x.mcpServers == {} && x.delegation == {}
    && x.witnesses == Witnessed(r) && x.isolatedRunners == {r.runner}
    && x.pullRequest.None? && x.runId.None? && x.window == 0.0
  }

  lemma EnvironmentClaimed(r: Run)
    ensures BuilderOf(EnvironmentOf(r)) == Some(G.Builder(r.runner, Some(r.workflow), None))
    ensures TextOf(EnvironmentOf(r), "executionType") == "isolated-runner"
    ensures ItemsMember(EnvironmentOf(r), "witnesses") == LogWitnesses(r)
    ensures (set w | w in LogWitnesses(r) :: AttestedOf(w)) == Witnessed(r)
    ensures (set w | w in KnownWitnesses(r) :: AttestedOf(w)) == Witnessed(r)
  {
    assert AttestedOf(LogWitness(r)) == AttestedOf(KnownWitness(r)) == G.Attested("transparency-log", r.log);
  }

  lemma LevelReads(level: G.Level)
    ensures LevelOf(level.Name()) == level && IsLevel(Str(level.Name()))
  {
  }

  lemma EvidenceClaimed(r: Run, kind: string, sha256: string)
    ensures EvidenceOf(Stored(r, kind, sha256)) == G.Evidence(kind, sha256, "artifact-store", "team")
  {
  }

  lemma TextsClaimed(p: Value, r: Run)
    requires Member(p, "predicateVersion") == Str("v0") && Member(p, "verificationLevel") == Str(r.level.Name())
    requires Member(p, "repo") == RepoOf(r) && Member(p, "agent") == AgentOf(r)
    requires Member(p, "humanApproval") == APPROVED && Member(p, "capture").Null?
    ensures ClaimsTexts(ClaimOf(p), r)
  {
    hide BuilderOf, EvidenceOf, AttestedOf, VisibilitiesOf, DigestOf, LevelOf, G.Level.Name;
    LevelReads(r.level);
  }

  lemma RunnerClaimed(p: Value, r: Run)
    requires Member(p, "environment") == EnvironmentOf(r)
    ensures ClaimsRunner(ClaimOf(p), r)
  {
    hide EnvironmentOf, LogWitnesses, KnownWitnesses, BuilderOf, EvidenceOf, AttestedOf, VisibilitiesOf, DigestOf;
    EnvironmentClaimed(r);
  }

  lemma EvidenceIsClaimed(p: Value, r: Run)
    requires Member(p, "evidence") == Arr([Stored(r, "trace", r.trace), Stored(r, "approval", r.approval)])
    requires Member(p, "extensions").Null? && ItemsMember(p, "mcpServers") == [] && Member(p, "delegation").Null?
    ensures ClaimsEvidence(ClaimOf(p), r)
  {
    hide Stored, BuilderOf, EvidenceOf, AttestedOf, DigestOf;
    EvidenceClaimed(r, "trace", r.trace);
    EvidenceClaimed(r, "approval", r.approval);
    assert ItemsMember(p, "evidence") == [Stored(r, "trace", r.trace), Stored(r, "approval", r.approval)];
  }

  lemma RunIsClaimed(r: Run)
    ensures ClaimsRun(ClaimOf(PredicateOf(r)), r)
  {
    hide PredicateOf, ClaimOf, ClaimsTexts, ClaimsRunner, ClaimsEvidence;
    PredicateMembers(r);
    NoOptionalMember(r, "capture");
    NoOptionalMember(r, "extensions");
    NoOptionalMember(r, "mcpServers");
    NoOptionalMember(r, "delegation");
    TextsClaimed(PredicateOf(r), r);
    RunnerClaimed(PredicateOf(r), r);
    EvidenceIsClaimed(PredicateOf(r), r);
  }

  lemma RunIsKnown(r: Run, required: G.Level)
    ensures KnowsRun(TrustedOf(ContextOf(r, required)), r, required)
  {
    hide ContextOf, KnownWitnesses, LogWitnesses, AttestedOf, LevelOf, G.Level.Name;
    LevelReads(required);
    ContextFacts(r, required);
    ContextLists(r, required);
    EnvironmentClaimed(r);
    NoOtherContext(r, required, "verifiedAgentConfig");
    NoOtherContext(r, required, "verifiedMcpServers");
    NoOtherContext(r, required, "verifiedDelegation");
    NoOtherContext(r, required, "expectedPullRequestNumber");
    NoOtherContext(r, required, "expectedRunId");
    NoOtherContext(r, required, "freshnessWindowSeconds");
    assert ContextSubjectOf(KnownSubject(r)) == G.ContextSubject("patch.diff", r.patch);
  }

  lemma RunSubjects(r: Run)
    ensures SubjectsOf(StatementOf(r)) == [G.StatementSubject(true, Some("patch.diff"), Some(r.patch))]
  {
    hide StatementOf;
    StatementMembers(r);
    assert StatementSubjectOf(Subject(r)) == G.StatementSubject(true, Some("patch.diff"), Some(r.patch));
  }

  lemma SubjectBound(x: G.Trusted, r: Run)
    requires x.subjects == [G.ContextSubject("patch.diff", r.patch)]
    ensures G.SubjectsBound([G.StatementSubject(true, Some("patch.diff"), Some(r.patch))], x)
  {
    var s, e := G.StatementSubject(true, Some("patch.diff"), Some(r.patch)), G.ContextSubject("patch.diff", r.patch);
    assert s in [s] && e in x.subjects && G.Names(s, e);
  }

  /** The level the verifier requires is claimed, and high assurance has a witness. */
  predicate Supported(r: Run, required: G.Level) {
    r.level.Rank() >= required.Rank() && (r.level.HighAssurance? ==> r.log != "")
  }

  lemma RunPasses(c: G.Claim, x: G.Trusted, r: Run, required: G.Level, code: Code)
    requires ClaimsRun(c, r) && KnowsRun(x, r, required) && Supported(r, required)
    ensures G.Holds(code, c, [G.StatementSubject(true, Some("patch.diff"), Some(r.patch))], x)
  {
    SubjectBound(x, r);
    assert G.Evidence("trace", r.trace, "artifact-store", "team") in c.evidence;
    assert G.Evidence("approval", r.approval, "artifact-store", "team") in c.evidence;
  }

  lemma RunGatesIff(c: G.Claim, s: seq<G.StatementSubject>, x: G.Trusted, r: Run, required: G.Level)
    requires ClaimsRun(c, r) && KnowsRun(x, r, required)
    requires s == [G.StatementSubject(true, Some("patch.diff"), Some(r.patch))]
    ensures (forall code :: G.Holds(code, c, s, x)) <==> Supported(r, required)
  {
    if Supported(r, required) {
      forall code
        ensures G.Holds(code, c, s, x)
      {
        RunPasses(c, x, r, required, code);
      }
    } else {
      assert !G.Holds(LevelBelowRequired, c, s, x) || !G.Holds(LevelEscalation, c, s, x);
    }
  }

  lemma RunFailsNothingIff(r: Run, required: G.Level)
    ensures StatementFailures(StatementOf(r), ContextOf(r, required)) == {} <==> Supported(r, required)
  {
    hide *;
    var c, x := ClaimOf(PredicateOf(r)), TrustedOf(ContextOf(r, required));
    StatementMembers(r);
    FailuresOf(StatementOf(r), ContextOf(r, required));
    RunIsClaimed(r);
    RunIsKnown(r, required);
    RunSubjects(r);
    RunGatesIff(c, SubjectsOf(StatementOf(r)), x, r, required);
    NothingFails(c, SubjectsOf(StatementOf(r)), x);
  }

  /** A run on an allowed isolated runner verifies at every level up to its own, which for high assurance takes a witness. */
  lemma RunIsValidIff(r: Run, required: G.Level)
    requires Fits(r)
    ensures Verdict(Some(DEFAULT), StatementOf(r), ContextOf(r, required)).valid <==> Supported(r, required)
  {
    hide *;
    RunReaches(r, required);
    RunFailsNothingIff(r, required);
    ReachedIsValidIff(V0, StatementOf(r), ContextOf(r, required));
  }

  /** Read as version 1, it reaches the policy again, and high assurance misses its agent contract and nothing else. */
  lemma UpgradedRunMissesContract(r: Run, required: G.Level)
    requires Fits(r) && Supported(r, required)
    ensures StatementOf(r).Obj? && Body(StatementOf(r)).Obj?
    ensures Decide(Some(DEFAULT), Upgraded(StatementOf(r)), ContextOf(r, required))
         == Names(AgentContractMissing(r.level))
  {
    hide *;
    RunReaches(r, required);
    RunFailsNothingIff(r, required);
    RunClaimsLevel(r);
    UpgradePreservesDecision(StatementOf(r), ContextOf(r, required));
    DecisionIsFailingGates(V1, Upgraded(StatementOf(r)), ContextOf(r, required));
    assert {} + AgentContractMissing(r.level) == AgentContractMissing(r.level);
  }

  lemma RunClaimsLevel(r: Run)
    ensures ClaimOf(Body(StatementOf(r))).level == r.level
  {
    hide StatementOf, PredicateOf, ClaimOf;
    StatementMembers(r);
    RunIsClaimed(r);
  }

  function Letters(n: nat): (s: string)
    ensures |s| == n && forall c | c in s :: c == 'a'
  {
    seq(n, _ => 'a')
  }

  const EXAMPLE := Run(
    G.HighAssurance,
    "https://" + Letters(8), Letters(40), Letters(8), Letters(8), Letters(8), Letters(8), Letters(8),
    "artifact://" + Letters(8), FormatTime(Moment(2026, 4, 27, 9, 16, 42, 0)),
    Letters(64), Letters(64), Letters(64), Letters(64))

  lemma HostUri(host: string)
    requires host != "" && forall c | c in host :: c == 'a'
    ensures RepoUriText("https://" + host)
  {
    var s := "https://" + host;
    assert s[8..] == host;
    assert HttpPartsAt(host, |host|, |host|) by {
      assert host[..|host|] == host;
    }
  }

  lemma ArtifactUri(rest: string)
    requires rest != "" && forall c | c in rest :: c == 'a'
    ensures SafeUriText("artifact://" + rest)
  {
    var s := "artifact://" + rest;
    assert s[11..] == rest;
    assert HasRest(s, "artifact://");
  }

  lemma ExampleUris()
    ensures IsRepoUri(JsonSchema, Str("https://" + Letters(8)))
    ensures IsSafeUri(JsonSchema, Str("artifact://" + Letters(8)))
  {
    hide RepoUriText, SafeUriText;
    HostUri(Letters(8));
    ArtifactUri(Letters(8));
  }

  lemma ExampleTime()
    ensures IsTimestamp(JsonSchema, Str(FormatTime(Moment(2026, 4, 27, 9, 16, 42, 0))))
  {
    FormatTimeReadsBack(Moment(2026, 4, 27, 9, 16, 42, 0));
  }

  lemma ExampleTexts()
    ensures IsCommit(Str(Letters(40))) && HexSha256(Letters(64))
    ensures IsRunId(Str(Letters(8))) && IsIdentity(Str(Letters(8)))
    ensures IsText(Cue, Str(Letters(8)), 512) && IsPlainText(Str(Letters(8)), 512)
  {
  }

  /** There are such runs. */
  lemma ExampleFits()
    ensures Fits(EXAMPLE)
  {
    hide IsRepoUri, IsSafeUri, IsTimestamp, IsCommit, HexSha256, IsRunId, IsIdentity, IsText, IsPlainText;
    hide FormatTime, Letters;
    ExampleUris();
    ExampleTime();
    ExampleTexts();
  }
}

/** The same runs in a signed bundle, checked with the certificate and the repository alone. */
module BundledRuns {
  import opened Basics
  import opened Patterns
  import opened Schema
  import opened Views
  import opened Verifier
  import opened Decisions
  import opened Produced
  import opened Identity
  import opened BundleVerdicts
  import opened AttestedRuns
  import PV = ProducedVerdicts
  import G = Gates

  /** The run names the certificate's workflow throughout, and the repository's patch. */
  predicate SignedAs(r: Run, result: GitResult, cert: Certificate) {
    && cert.uris != [] && cert.uris[0] == r.signer == r.runner == r.workflow && IsWorkflowRef(r.signer)
    && cert.issuer == r.issuer
    && result.repoUrl == r.url && result.baseCommit == r.commit && result.patch.digest == r.patch
  }

  /** What a bundle can support of a run. */
  predicate BundleSupports(r: Run, requiredLevel: string) {
    r.level.Rank() >= LevelOf(requiredLevel).Rank() && !r.level.HighAssurance? && r.log == ""
  }

  lemma SignedRunHoldsIff(c: G.Claim, s: seq<G.StatementSubject>, r: Run, result: GitResult, requiredLevel: string,
                          cert: Certificate)
    requires ClaimsRun(c, r) && SignedAs(r, result, cert) && r.issuer != "" && r.signer != ""
    requires s == [G.StatementSubject(true, Some("patch.diff"), Some(r.patch))]
    ensures BundleHolds(c, s, result, requiredLevel, cert) <==> BundleSupports(r, requiredLevel)
  {
    assert s[0] in s;
  }

  lemma SignedTexts(r: Run, result: GitResult, cert: Certificate)
    requires Fits(r) && SignedAs(r, result, cert)
    ensures r.issuer != "" && r.signer != "" && CertificateFits(cert)
  {
  }

  /** A bundle over such a run verifies exactly below high assurance and without a witness. */
  lemma SignedRunIsValidIff(r: Run, result: GitResult, requiredLevel: string, cert: Certificate)
    requires Fits(r) && SignedAs(r, result, cert) && PV.ContextFits(result, requiredLevel)
    ensures Verdict(Some(DEFAULT), StatementOf(r), BundleContext(result, requiredLevel, cert)).valid <==>
            BundleSupports(r, requiredLevel)
  {
    hide *;
    var context := BundleContext(result, requiredLevel, cert);
    SignedTexts(r, result, cert);
    BundleContextShapeIff(result, requiredLevel, cert);
    RunReachesIn(r, context);
    ReachedBy(V0, StatementOf(r), context);
    StatementMembers(r);
    RunIsClaimed(r);
    RunSubjects(r);
    SignedRunHoldsIff(ClaimOf(PredicateOf(r)), SubjectsOf(StatementOf(r)), r, result, requiredLevel, cert);
    BundleIsValidIff(StatementOf(r), result, requiredLevel, cert);
  }

  const WORKFLOW := "https://github.com/" + "o/r" + "/.github/workflows/" + "w"

  lemma WorkflowIsIdentity()
    ensures IsWorkflowRef(WORKFLOW) && IdentityText(WORKFLOW)
  {
    assert "/.github/workflows/" <= WORKFLOW[22..];
  }

  /** The run under a certificate for workflow `w`, at policy grade and without a witness. */
  function SignedRun(r: Run, w: string): Run {
    r.(level := G.PolicyGrade, signer := w, runner := w, workflow := w, log := "")
  }

  function RepositoryOf(r: Run): GitResult {
    GitResult(r.url, "", r.commit, "", Patch("sha256", r.patch))
  }

  function CertificateOf(r: Run): Certificate {
    Certificate([r.signer], [], [], "", r.issuer)
  }

  /** There are such bundles at policy grade, one for each run and each workflow that can be a declared identity. */
  lemma SignedRunFits(r: Run, w: string)
    requires Fits(r) && IsWorkflowRef(w) && IdentityText(w)
    ensures Fits(SignedRun(r, w)) && SignedAs(SignedRun(r, w), RepositoryOf(r), CertificateOf(SignedRun(r, w)))
    ensures BundleSupports(SignedRun(r, w), "policy-grade")
    ensures PV.ContextFits(RepositoryOf(r), "policy-grade")
  {
    hide IsSafeUri, IsTimestamp, HexSha256, RunIdText, RepoUriText, GitCommit, IsWorkflowRef;
  }
}
