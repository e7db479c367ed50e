/**
 Rego's evaluation of terms. A term is None when it is undefined: an undefined operand makes a call
 undefined, and an undefined expression makes a rule body fail rather than raise an error.
 */
module Rego {
  import opened Basics
  import opened Json

  type Term = Option<Value>

  /** `t.key` */
  function Ref(t: Term, key: string): Term {
    if t.Some? && Has(t.value, key) then Some(t.value.fields[key]) else None
  }

  /** `t[key]` for a key that is itself a term. */
  function At(t: Term, key: Term): Term {
    if key.Some? && key.value.Str? then Ref(t, key.value.s) else None
  }

  /** `object.get`: a type error, hence undefined, unless its operand is an object. */
  function ObjectGet(t: Term, key: string, default: Value): Term {
    if t.None? || !t.value.Obj? then None
    else if key in t.value.fields then Some(t.value.fields[key])
    else Some(default)
  }

  function Count(t: Term): Option<nat> {
    match t
    case Some(Arr(items)) => Some(|items|)
    case Some(Obj(fields)) => Some(|fields|)
    case Some(Str(s)) => Some(|s|)
    case _ => None
  }

  predicate Equal(a: Term, b: Term) {
    a.Some? && b.Some? && a.value == b.value
  }

  predicate Differ(a: Term, b: Term) {
    a.Some? && b.Some? && a.value != b.value
  }

  predicate Is(t: Term, v: Value) {
    Equal(t, Some(v))
  }

  predicate IsNot(t: Term, v: Value) {
    Differ(t, Some(v))
  }

  /** `t > n`: values of different types compare by type, numbers before strings, arrays and objects. */
  predicate Exceeds(t: Term, n: real) {
    match t
    case Some(Num(m)) => m > n
    case Some(Null) => false
    case Some(Bool(_)) => false
    case Some(_) => true
    case None => false
  }

  /** What `some x in t` ranges over. The collections of the policy are arrays. */
  function Elements(t: Term): seq<Value> {
    if t.Some? && t.value.Arr? then t.value.items else []
  }

  /** The values `x.key` for `some x in t`, skipping those that are undefined. */
  function Pluck(xs: seq<Value>, key: string): seq<Value> {
    if xs == [] then []
    else (if Has(xs[0], key) then [xs[0].fields[key]] else []) + Pluck(xs[1..], key)
  }
}

/**
 policies/default.rego, rule by rule. A rule fires when its body succeeds and every reference in its
 head is defined, since the head's message is part of the element it adds.
 */
module Policy {
  import opened Basics
  import opened Json
  import opened Rego
  import opened FailureCodes
  import opened Timestamps

  datatype Input = Input(statement: Value, context: Value) {

    function Statement(): Term { Some(statement) }
    function Context(): Term { Some(context) }
    function Predicate(): Term { ObjectGet(Statement(), "predicate", EmptyObject) }
    function Agent(): Term { ObjectGet(Predicate(), "agent", EmptyObject) }
    function Environment(): Term { ObjectGet(Predicate(), "environment", EmptyObject) }
    function Builder(): Term { ObjectGet(Environment(), "builder", EmptyObject) }
    function Repo(): Term { ObjectGet(Predicate(), "repo", EmptyObject) }
    function Level(): Term { ObjectGet(Predicate(), "verificationLevel", Str("")) }
    function RequiredLevel(): Term { ObjectGet(Context(), "requiredLevel", Str("evidence-grade")) }
    function RepoUrl(): Term { ObjectGet(Repo(), "url", Str("")) }
    function BaseCommit(): Term { ObjectGet(Repo(), "baseCommit", Str("")) }
    function ContextRepoUrl(): Term { ObjectGet(Context(), "repoUrl", Str("")) }
    function ContextBaseCommit(): Term { ObjectGet(Context(), "baseCommit", Str("")) }
    function ContextSubjects(): Term { ObjectGet(Context(), "subjects", Arr([])) }
    function StatementSubjects(): Term { ObjectGet(Statement(), "subject", Arr([])) }
    function EvidenceRefs(): Term { ObjectGet(Predicate(), "evidence", Arr([])) }
    function Witnesses(): Term { ObjectGet(Environment(), "witnesses", Arr([])) }
    function Extensions(): Term { ObjectGet(Predicate(), "extensions", EmptyObject) }
    function AgentConfig(): Term { ObjectGet(Predicate(), "agentConfig", EmptyObject) }
    function McpServers(): Term { ObjectGet(Predicate(), "mcpServers", Arr([])) }

    function DelegationChain(): Term {
      ObjectGet(ObjectGet(Predicate(), "delegation", EmptyObject), "delegationChain", Arr([]))
    }

    /** A string member of the context, "" when it is absent. */
    function FromContext(key: string): Term { ObjectGet(Context(), key, Str("")) }

    function ListFromContext(key: string): Term { ObjectGet(Context(), key, Arr([])) }

    predicate LevelIs(level: string) { Is(Level(), Str(level)) }

    predicate VersionIs(version: string) { Is(ObjectGet(Predicate(), "predicateVersion", Str("")), Str(version)) }

    predicate PolicyOrHigher() {
      LevelRank(Level()).Some? && LevelRank(Level()).value >= 1
    }
  }

  const TRANSPARENCY_ALLOWED_TYPES := {"local-log-root", "builder-record", "agent-config", "mcp-server"}

  /** `level_rank[t]` */
  function LevelRank(t: Term): Option<int> {
    if t == Some(Str("evidence-grade")) then Some(0)
    else if t == Some(Str("policy-grade")) then Some(1)
    else if t == Some(Str("high-assurance")) then Some(2)
    else None
  }

  predicate ArrayContains(values: Term, value: Term) {
    exists current | current in Elements(values) :: Is(value, current)
  }

  predicate LevelBelowRequiredRule(i: Input) {
    && LevelRank(i.Level()).Some? && LevelRank(i.RequiredLevel()).Some?
    && LevelRank(i.Level()).value < LevelRank(i.RequiredLevel()).value
  }

  predicate RepoUrlRule(i: Input) {
    Differ(i.RepoUrl(), i.ContextRepoUrl())
  }

  predicate BaseCommitRule(i: Input) {
    Differ(i.BaseCommit(), i.ContextBaseCommit())
  }

  predicate NoSubjectsRule(i: Input) {
    Count(i.ContextSubjects()) == Some(0)
  }

  predicate DuplicateSubjectsRule(i: Input) {
    var names := Pluck(Elements(i.ContextSubjects()), "name");
    |names| != |set n | n in names|
  }

  predicate SubjectAgrees(subject: Value, expected: Value) {
    && Equal(Ref(Some(subject), "name"), Ref(Some(expected), "name"))
    && Equal(At(Ref(Some(subject), "digest"), Ref(Some(expected), "algorithm")), Ref(Some(expected), "digest"))
  }

  predicate StatementSubjectMatches(i: Input, expected: Value) {
    exists subject | subject in Elements(i.StatementSubjects()) :: SubjectAgrees(subject, expected)
  }

  predicate ContextSubjectMatches(i: Input, subject: Value) {
    exists expected | expected in Elements(i.ContextSubjects()) :: SubjectAgrees(subject, expected)
  }

  predicate MissingSubjectRule(i: Input) {
    exists expected | expected in Elements(i.ContextSubjects()) ::
      Has(expected, "name") && !StatementSubjectMatches(i, expected)
  }

  predicate UnexpectedSubjectRule(i: Input) {
    exists subject | subject in Elements(i.StatementSubjects()) ::
      Has(subject, "name") && !ContextSubjectMatches(i, subject)
  }

  predicate LoggedTypeRule(i: Input) {
    exists e | e in Elements(i.EvidenceRefs()) ::
      && Is(Ref(Some(e), "storage"), Str("transparency-log"))
      && Has(e, "type")
      && !(e.fields["type"].Str? && e.fields["type"].s in TRANSPARENCY_ALLOWED_TYPES)
  }

  predicate LoggedVisibilityRule(i: Input) {
    exists e | e in Elements(i.EvidenceRefs()) ::
      Is(Ref(Some(e), "storage"), Str("transparency-log")) && IsNot(Ref(Some(e), "visibility"), Str("public"))
  }

  predicate PublicExtensionRule(i: Input) {
    && i.Extensions().Some? && i.Extensions().value.Obj?
    && exists key | key in i.Extensions().value.fields ::
         Is(Ref(Some(i.Extensions().value.fields[key]), "visibility"), Str("public"))
  }

  predicate LocalOnlyEvidenceRule(i: Input) {
    && i.PolicyOrHigher()
    && exists e | e in Elements(i.EvidenceRefs()) :: Is(Ref(Some(e), "storage"), Str("local-only"))
  }

  predicate LocalExecutionRule(i: Input) {
    i.PolicyOrHigher() && Is(Ref(i.Environment(), "executionType"), Str("local"))
  }

  predicate NoBuilderRule(i: Input) {
    i.PolicyOrHigher() && Count(i.Builder()) == Some(0)
  }

  predicate NoVerifiedBuilderRule(i: Input) {
    i.PolicyOrHigher() && Is(i.FromContext("verifiedBuilderId"), Str(""))
  }

  predicate BuilderIdRule(i: Input) {
    && i.PolicyOrHigher() && IsNot(i.FromContext("verifiedBuilderId"), Str(""))
    && Differ(ObjectGet(i.Builder(), "id", Str("")), i.FromContext("verifiedBuilderId"))
  }

  predicate NoVerifiedWorkflowRule(i: Input) {
    i.PolicyOrHigher() && Is(i.FromContext("verifiedWorkflowRef"), Str(""))
  }

  predicate WorkflowRefRule(i: Input) {
    && i.PolicyOrHigher() && IsNot(i.FromContext("verifiedWorkflowRef"), Str(""))
    && Differ(ObjectGet(i.Builder(), "workflowRef", Str("")), i.FromContext("verifiedWorkflowRef"))
  }

  predicate NoVerifiedIssuerRule(i: Input) {
    i.PolicyOrHigher() && Is(i.FromContext("verifiedIssuer"), Str(""))
  }

  predicate NoVerifiedSignerRule(i: Input) {
    i.PolicyOrHigher() && Is(i.FromContext("verifiedSigner"), Str(""))
  }

  predicate DeclaredIdentityRule(i: Input) {
    var declared := ObjectGet(i.Agent(), "declaredIdentity", Str(""));
    IsNot(declared, Str("")) && Differ(i.FromContext("verifiedSigner"), declared)
  }

  predicate SelfHostedRule(i: Input) {
    && i.PolicyOrHigher() && Is(Ref(i.Environment(), "executionType"), Str("github-actions"))
    && Is(ObjectGet(i.Builder(), "runnerClass", Str("")), Str("self-hosted"))
    && IsNot(ObjectGet(i.Context(), "allowSelfHostedRunners", Bool(false)), Bool(true))
  }

  predicate IsolatedRunnerRule(i: Input) {
    && i.LevelIs("high-assurance")
    && !ArrayContains(i.ListFromContext("allowedIsolatedRunners"), ObjectGet(i.Builder(), "id", Str("")))
  }

  predicate RunnerKindRule(i: Input) {
    && i.LevelIs("high-assurance")
    && !Is(Ref(i.Environment(), "executionType"), Str("isolated-runner"))
    && !Is(Ref(i.Environment(), "executionType"), Str("witnessed-runner"))
  }

  predicate NoWitnessRule(i: Input) {
    i.LevelIs("high-assurance") && Count(i.Witnesses()) == Some(0)
  }

  predicate VerifiedWitnessMatches(i: Input, w: Value) {
    exists verified | verified in Elements(i.ListFromContext("verifiedWitnesses")) ::
      && Equal(Ref(Some(verified), "type"), Ref(Some(w), "type"))
      && Equal(Ref(Ref(Some(verified), "digest"), "sha256"), Ref(Ref(Some(w), "digest"), "sha256"))
  }

  predicate UnbackedWitnessRule(i: Input) {
    exists w | w in Elements(i.Witnesses()) :: Has(w, "id") && !VerifiedWitnessMatches(i, w)
  }

  predicate ApprovalStateRule(i: Input) {
    && i.LevelIs("high-assurance")
    && IsNot(Ref(Ref(i.Predicate(), "humanApproval"), "state"), Str("approved-before-merge"))
  }

  predicate HasEvidenceType(i: Input, kind: string) {
    exists e | e in Elements(i.EvidenceRefs()) :: Is(Ref(Some(e), "type"), Str(kind))
  }

  predicate NoApprovalEvidenceRule(i: Input) {
    i.LevelIs("high-assurance") && !HasEvidenceType(i, "approval")
  }

  predicate UnverifiedApprovalRule(i: Input) {
    i.LevelIs("high-assurance") && IsNot(ObjectGet(i.Context(), "verifiedApproval", Bool(false)), Bool(true))
  }

  predicate ApprovalEvidenceMatches(i: Input) {
    var expected := ObjectGet(ObjectGet(i.Context(), "verifiedApprovalDigest", EmptyObject), "sha256", Str(""));
    && IsNot(expected, Str(""))
    && exists e | e in Elements(i.EvidenceRefs()) ::
         Is(Ref(Some(e), "type"), Str("approval")) && Equal(Ref(Ref(Some(e), "digest"), "sha256"), expected)
  }

  predicate ApprovalDigestRule(i: Input) {
    && i.LevelIs("high-assurance") && Is(ObjectGet(i.Context(), "verifiedApproval", Bool(false)), Bool(true))
    && !ApprovalEvidenceMatches(i)
  }

  predicate PullRequestRule(i: Input) {
    var expected := ObjectGet(i.Context(), "expectedPullRequestNumber", Num(0.0));
    && Exceeds(expected, 0.0)
    && Differ(ObjectGet(ObjectGet(i.Repo(), "pullRequest", EmptyObject), "number", Num(0.0)), expected)
  }

  predicate RunIdRule(i: Input) {
    && IsNot(i.FromContext("expectedRunId"), Str(""))
    && Differ(ObjectGet(i.Predicate(), "runId", Str("")), i.FromContext("expectedRunId"))
  }

  function Window(i: Input): Term { ObjectGet(i.Context(), "freshnessWindowSeconds", Num(0.0)) }

  predicate NoClockRule(i: Input) {
    Exceeds(Window(i), 0.0) && Is(i.FromContext("now"), Str(""))
  }

  function ParseTime(t: Term): Option<int> {
    if t.Some? && t.value.Str? then ParseNanos(t.value.s) else None
  }

  predicate StaleRule(i: Input) {
    && Exceeds(Window(i), 0.0) && Window(i).value.Num?
    && IsNot(i.FromContext("now"), Str(""))
    && var now := ParseTime(Ref(i.Context(), "now"));
       var finished := ParseTime(Ref(Ref(i.Predicate(), "timestamps"), "finishedAt"));
       now.Some? && finished.Some? && (now.value - finished.value) as real > Window(i).value.n * 1000000000.0
  }

  predicate NoAgentConfigRule(i: Input) {
    i.VersionIs("v1") && i.LevelIs("high-assurance") && Count(i.AgentConfig()) == Some(0)
  }

  predicate AgentConfigRule(i: Input) {
    var verified := ObjectGet(i.Context(), "verifiedAgentConfig", EmptyObject);
    && Count(verified).Some? && Count(verified).value > 0
    && Differ(ObjectGet(i.AgentConfig(), "primaryDigest", EmptyObject), verified)
  }

  predicate NonEmpty(t: Term) {
    Count(t).Some? && Count(t).value > 0
  }

  predicate NoMcpAllowlistRule(i: Input) {
    && i.PolicyOrHigher() && i.VersionIs("v1")
    && NonEmpty(i.McpServers()) && Count(i.ListFromContext("verifiedMcpServers")) == Some(0)
  }

  predicate McpServerVerified(i: Input, server: Value) {
    exists verified | verified in Elements(i.ListFromContext("verifiedMcpServers")) ::
      Equal(Ref(Some(verified), "sha256"), Ref(Ref(Some(server), "digest"), "sha256"))
  }

  predicate McpServerRule(i: Input) {
    && NonEmpty(i.ListFromContext("verifiedMcpServers"))
    && exists server | server in Elements(i.McpServers()) :: Has(server, "name") && !McpServerVerified(i, server)
  }

  predicate NoDelegationAllowlistRule(i: Input) {
    && i.PolicyOrHigher() && i.VersionIs("v1")
    && NonEmpty(i.DelegationChain()) && Count(i.ListFromContext("verifiedDelegation")) == Some(0)
  }

  predicate DelegationRule(i: Input) {
    && NonEmpty(i.ListFromContext("verifiedDelegation"))
    && exists step | step in Elements(i.DelegationChain()) ::
         Has(step, "agentRef") && !ArrayContains(i.ListFromContext("verifiedDelegation"), Ref(Some(step), "agentRef"))
  }

  predicate NoTraceRule(i: Input) {
    i.LevelIs("high-assurance") && !HasEvidenceType(i, "trace")
  }

  predicate ManualCaptureRule(i: Input) {
    && i.LevelIs("high-assurance")
    && Is(ObjectGet(ObjectGet(i.Predicate(), "capture", EmptyObject), "method", Str("")), Str("manual"))
  }

  predicate SubjectRules(i: Input) {
    NoSubjectsRule(i) || DuplicateSubjectsRule(i) || MissingSubjectRule(i) || UnexpectedSubjectRule(i)
  }

  predicate PrivacyRules(i: Input) {
    LoggedTypeRule(i) || LoggedVisibilityRule(i) || PublicExtensionRule(i)
  }

  predicate EscalationRules(i: Input) {
    || LocalOnlyEvidenceRule(i) || LocalExecutionRule(i) || NoBuilderRule(i) || RunnerKindRule(i)
    || NoWitnessRule(i) || ApprovalStateRule(i) || ManualCaptureRule(i)
  }

  predicate BuilderRules(i: Input) {
    || NoVerifiedBuilderRule(i) || BuilderIdRule(i) || NoVerifiedWorkflowRule(i) || WorkflowRefRule(i)
    || NoVerifiedIssuerRule(i) || SelfHostedRule(i) || IsolatedRunnerRule(i)
  }

  predicate ApprovalRules(i: Input) {
    NoApprovalEvidenceRule(i) || UnverifiedApprovalRule(i) || ApprovalDigestRule(i)
  }

  predicate AllowlistRules(i: Input) {
    NoMcpAllowlistRule(i) || McpServerRule(i) || NoDelegationAllowlistRule(i) || DelegationRule(i)
  }

  /** Some rule with this code adds an element to `deny`. */
  predicate Denies(i: Input, code: Code) {
    match code
    case LevelBelowRequired => LevelBelowRequiredRule(i)
    case RepoUrlMismatch => RepoUrlRule(i)
    case BaseCommitMismatch => BaseCommitRule(i)
    case SubjectDigestMismatch => SubjectRules(i)
    case PrivacyViolation => PrivacyRules(i)
    case LevelEscalation => EscalationRules(i)
    case BuilderIdentityMismatch => BuilderRules(i)
    case SignerIdentityMismatch => NoVerifiedSignerRule(i) || DeclaredIdentityRule(i)
    case TransparencyVerificationFailed => UnbackedWitnessRule(i)
    case MissingEvidence =>
      ApprovalRules(i) || NoAgentConfigRule(i) || AgentConfigRule(i) || AllowlistRules(i) || NoTraceRule(i)
    case ReplayDetected => PullRequestRule(i) || RunIdRule(i)
    case StaleAttestation => NoClockRule(i) || StaleRule(i)
    case _ => false
  }

  /** Every code the policy can emit, in the order its set of codes is listed: by name. */
  const POLICY_CODES: seq<Code> := [
    BaseCommitMismatch, BuilderIdentityMismatch, LevelBelowRequired, LevelEscalation, MissingEvidence,
    PrivacyViolation, ReplayDetected, RepoUrlMismatch, SignerIdentityMismatch, StaleAttestation,
    SubjectDigestMismatch, TransparencyVerificationFailed
  ]

  function Listed(fires: Code -> bool, codes: seq<Code>): seq<Value> {
    if codes == [] then []
    else (if fires(codes[0]) then [Str(codes[0].Name())] else []) + Listed(fires, codes[1..])
  }

  function Denial(i: Input): Code -> bool {
    code => Denies(i, code)
  }

  /** The value of `data.agentattest.default_policy.failure_codes`. */
  function FailureCodesValue(i: Input): Value {
    Arr(Listed(Denial(i), POLICY_CODES))
  }
}
