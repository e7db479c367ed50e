/**
 Acceptance of a predicate and a verifier context by the contracts. The JSON Schema and the CUE file
 of a version describe one closed shape; `Layer` marks the few places where they differ.
 */
module Schema {
  import opened Json
  import opened Patterns
  import opened Timestamps

  datatype Version = V0 | V1 {
    function Name(): string {
      if V0? then "v0" else "v1"
    }
  }

  datatype Layer = JsonSchema | Cue

  /** A closed object: every required member, and no member but the listed ones. */
  predicate Closed(j: Value, required: set<string>, optional: set<string>) {
    j.Obj? && required <= j.fields.Keys <= required + optional
  }

  predicate IsOneOf(v: Value, options: set<string>) {
    v.Str? && v.s in options
  }

  predicate IsBool(v: Value) {
    v.Bool?
  }

  predicate IsInteger(v: Value, min: int) {
    v.Num? && v.n == v.n.Floor as real && v.n >= min as real
  }

  /** Between 1 and `max` characters; the CUE patterns also exclude line breaks. */
  predicate IsText(l: Layer, v: Value, max: nat) {
    v.Str? && 1 <= |v.s| <= max && (l.Cue? ==> '\n' !in v.s)
  }

  predicate IsSafeUri(l: Layer, v: Value) {
    v.Str? && SafeUriText(v.s) && (l.JsonSchema? ==> |v.s| <= 1024)
  }

  predicate IsRepoUri(l: Layer, v: Value) {
    v.Str? && RepoUriText(v.s) && (l.JsonSchema? ==> |v.s| <= 1024)
  }

  predicate IsCommit(v: Value) {
    v.Str? && GitCommit(v.s)
  }

  predicate IsIdentity(v: Value) {
    v.Str? && IdentityText(v.s)
  }

  predicate IsDigest(v: Value) {
    Closed(v, {"sha256"}, {}) && Member(v, "sha256").Str? && HexSha256(Member(v, "sha256").s)
  }

  predicate IsVisibility(v: Value) {
    IsOneOf(v, {"public", "team", "secret", "encrypted"})
  }

  predicate IsRestricted(v: Value) {
    IsOneOf(v, {"team", "secret", "encrypted"})
  }

  predicate IsPullRequest(l: Layer, j: Value) {
    && Closed(j, {"number"}, {"url"})
    && IsInteger(Member(j, "number"), 1)
    && (Has(j, "url") ==> IsRepoUri(l, Member(j, "url")))
  }

  predicate IsRepo(l: Layer, j: Value) {
    && Closed(j, {"url", "baseCommit"}, {"headCommit", "branch", "pullRequest"})
    && IsRepoUri(l, Member(j, "url"))
    && IsCommit(Member(j, "baseCommit"))
    && (Has(j, "headCommit") ==> IsCommit(Member(j, "headCommit")))
    && (Has(j, "branch") ==> Member(j, "branch").Str? && BranchText(Member(j, "branch").s))
    && (Has(j, "pullRequest") ==> IsPullRequest(l, Member(j, "pullRequest")))
  }

  function InvocationKinds(v: Version): set<string> {
    {"local-cli", "ci-step", "api", "mcp-orchestrated"} + (if v.V1? then {"platform-agent"} else {})
  }

  predicate IsAgent(l: Layer, v: Version, j: Value) {
    && Closed(j, {"name", "version", "invocationKind"}, {"declaredIdentity"})
    && IsText(l, Member(j, "name"), 128)
    && IsText(l, Member(j, "version"), 128)
    && IsOneOf(Member(j, "invocationKind"), InvocationKinds(v))
    && (Has(j, "declaredIdentity") ==> IsIdentity(Member(j, "declaredIdentity")))
  }

  predicate IsModel(l: Layer, j: Value) {
    && Closed(j, {"provider", "modelId"}, {"modelRevision", "fingerprint"})
    && IsText(l, Member(j, "provider"), 128)
    && IsText(l, Member(j, "modelId"), 256)
    && (Has(j, "modelRevision") ==> IsText(l, Member(j, "modelRevision"), 128))
    && (Has(j, "fingerprint") ==> IsText(l, Member(j, "fingerprint"), 256))
  }

  function BuilderTypes(v: Version): set<string> {
    {"github-actions-workflow", "generic-ci-workflow", "local-process", "isolated-runner", "witnessed-runner"}
    + (if v.V1? then {"platform-agent"} else {})
  }

  function RunnerClasses(v: Version): set<string> {
    {"github-hosted", "self-hosted", "isolated", "unknown"} + (if v.V1? then {"platform-managed"} else {})
  }

  predicate IsBuilder(l: Layer, v: Version, j: Value) {
    && Closed(j, {"id", "type"}, {"workflowRef", "runnerClass"})
    && IsText(l, Member(j, "id"), 512)
    && IsOneOf(Member(j, "type"), BuilderTypes(v))
    && (Has(j, "workflowRef") ==> IsText(l, Member(j, "workflowRef"), 512))
    && (Has(j, "runnerClass") ==> IsOneOf(Member(j, "runnerClass"), RunnerClasses(v)))
  }

  /** What `github-actions` execution additionally asks of the builder. */
  predicate IsGitHubBuilder(j: Value) {
    && Has(j, "workflowRef")
    && Member(j, "id").Str? && GitHubWorkflowText(Member(j, "id").s)
    && Member(j, "type") == Str("github-actions-workflow")
  }

  predicate IsWitness(l: Layer, j: Value) {
    && Closed(j, {"id", "type", "digest"}, {"uri"})
    && IsText(l, Member(j, "id"), 512)
    && IsOneOf(Member(j, "type"), {"transparency-log", "timestamp-authority"})
    && IsDigest(Member(j, "digest"))
    && (Has(j, "uri") ==> IsSafeUri(l, Member(j, "uri")))
  }

  function ExecutionTypes(v: Version): set<string> {
    {"local", "github-actions", "other-ci", "isolated-runner", "witnessed-runner"}
    + (if v.V1? then {"platform-agent"} else {})
  }

  predicate IsEnvironment(l: Layer, v: Version, j: Value) {
    && Closed(j, {"executionType"}, {"builder", "witnesses"})
    && IsOneOf(Member(j, "executionType"), ExecutionTypes(v))
    && (Has(j, "builder") ==> IsBuilder(l, v, Member(j, "builder")))
    && (Has(j, "witnesses") ==> Member(j, "witnesses").Arr?)
    && (forall w | w in ItemsMember(j, "witnesses") :: IsWitness(l, w))
    && (Member(j, "executionType") == Str("github-actions") ==>
          Has(j, "builder") && IsGitHubBuilder(Member(j, "builder")))
  }

  predicate IsCapture(l: Layer, j: Value) {
    && Closed(j, {"method"}, {"harness"})
    && IsOneOf(Member(j, "method"), {"harness-native", "wrapper", "ci-step", "manual"})
    && (Has(j, "harness") ==> IsText(l, Member(j, "harness"), 128))
    && (Member(j, "method") == Str("harness-native") ==> Has(j, "harness"))
  }

  predicate IsRelPath(v: Value) {
    v.Str? && RelPathText(v.s)
  }

  predicate IsConfigFile(j: Value) {
    && Closed(j, {"path", "digest", "role"}, {})
    && IsRelPath(Member(j, "path"))
    && IsDigest(Member(j, "digest"))
    && IsOneOf(Member(j, "role"), {"instructions", "tool-rules", "repo-policy"})
  }

  predicate IsAgentConfig(j: Value) {
    && Closed(j, {"primaryFile", "primaryDigest"}, {"files"})
    && IsRelPath(Member(j, "primaryFile"))
    && IsDigest(Member(j, "primaryDigest"))
    && (Has(j, "files") ==> Member(j, "files").Arr?)
    && (forall f | f in ItemsMember(j, "files") :: IsConfigFile(f))
  }

  predicate IsServerName(v: Value) {
    v.Str? && ServerNameText(v.s)
  }

  predicate IsMcpServer(l: Layer, j: Value) {
    && Closed(j, {"name", "transport", "digest"}, {"version", "serverIdentity"})
    && IsServerName(Member(j, "name"))
    && IsOneOf(Member(j, "transport"), {"stdio", "streamable-http", "sse"})
    && IsDigest(Member(j, "digest"))
    && (Has(j, "version") ==> IsText(l, Member(j, "version"), 64))
    && (Has(j, "serverIdentity") ==> IsText(l, Member(j, "serverIdentity"), 512))
  }

  predicate IsTool(l: Layer, j: Value) {
    && Closed(j, {"name", "schemaDigest"}, {"server"})
    && IsServerName(Member(j, "name"))
    && IsDigest(Member(j, "schemaDigest"))
    && (Has(j, "server") ==> IsText(l, Member(j, "server"), 128))
  }

  predicate IsDelegationStep(l: Layer, j: Value) {
    && Closed(j, {"role", "agentRef"}, {"identity", "digest"})
    && IsText(l, Member(j, "role"), 64)
    && IsText(l, Member(j, "agentRef"), 256)
    && (Has(j, "identity") ==> IsIdentity(Member(j, "identity")))
    && (Has(j, "digest") ==> IsDigest(Member(j, "digest")))
  }

  predicate IsDelegation(l: Layer, j: Value) {
    && Closed(j, {"delegationChain"}, {})
    && Member(j, "delegationChain").Arr? && Member(j, "delegationChain").items != []
    && (forall d | d in ItemsMember(j, "delegationChain") :: IsDelegationStep(l, d))
  }

  predicate IsTraceId(v: Value) {
    v.Str? && LowerHex(v.s, 32)
  }

  predicate IsRuntime(j: Value) {
    && Closed(j, {"traceFormat", "traceIds"}, {"rootSpanId"})
    && IsOneOf(Member(j, "traceFormat"), {"opentelemetry-json", "openinference-otel-json", "otlp-json", "otlp-protobuf"})
    && Member(j, "traceIds").Arr? && Member(j, "traceIds").items != []
    && (forall t | t in ItemsMember(j, "traceIds") :: IsTraceId(t))
    && (Has(j, "rootSpanId") ==> Member(j, "rootSpanId").Str? && LowerHex(Member(j, "rootSpanId").s, 16))
  }

  predicate IsChanges(j: Value) {
    && Closed(j, {"filesChanged", "insertions", "deletions"}, {"generatedFiles"})
    && IsInteger(Member(j, "filesChanged"), 0)
    && IsInteger(Member(j, "insertions"), 0)
    && IsInteger(Member(j, "deletions"), 0)
    && (Has(j, "generatedFiles") ==> IsInteger(Member(j, "generatedFiles"), 0))
  }

  predicate IsReviewerRef(v: Value) {
    v.Str? && ReviewerRefText(v.s)
  }

  predicate IsHumanApproval(l: Layer, j: Value) {
    && Closed(j, {"state"}, {"reviewerRefs", "approvalSystem"})
    && IsOneOf(Member(j, "state"), {"none", "not-required", "requested", "approved-after-generation",
                                    "approved-before-merge", "rejected"})
    && (Has(j, "reviewerRefs") ==> Member(j, "reviewerRefs").Arr?)
    && (forall r | r in ItemsMember(j, "reviewerRefs") :: IsReviewerRef(r))
    && (l.JsonSchema? ==> UniqueItems(ItemsMember(j, "reviewerRefs")))
    && (Has(j, "approvalSystem") ==> IsText(l, Member(j, "approvalSystem"), 128))
  }

  predicate UniqueItems(items: seq<Value>) {
    forall i, j :: 0 <= i < j < |items| ==> items[i] != items[j]
  }

  predicate IsRawEvidence(l: Layer, j: Value) {
    && Closed(j, {"stored", "visibility"}, {"encryptedRef", "retention"})
    && IsBool(Member(j, "stored"))
    && IsOneOf(Member(j, "visibility"), {"none", "team", "secret", "encrypted"})
    && (Has(j, "encryptedRef") ==> IsSafeUri(l, Member(j, "encryptedRef")))
    && (Has(j, "retention") ==> IsText(l, Member(j, "retention"), 128))
    && (Member(j, "stored") == Bool(false) <==> Member(j, "visibility") == Str("none"))
    && (Member(j, "visibility") == Str("encrypted") ==> Has(j, "encryptedRef"))
  }

  predicate IsPublicLog(j: Value) {
    && Closed(j, {"allowed", "includesRawContent"}, {})
    && IsBool(Member(j, "allowed"))
    && Member(j, "includesRawContent") == Bool(false)
  }

  predicate IsPrivacy(l: Layer, j: Value) {
    && Closed(j, {"redactionPolicy", "rawPrompt", "rawToolOutputs", "publicTransparencyLog"}, {})
    && IsText(l, Member(j, "redactionPolicy"), 128)
    && IsRawEvidence(l, Member(j, "rawPrompt"))
    && IsRawEvidence(l, Member(j, "rawToolOutputs"))
    && IsPublicLog(Member(j, "publicTransparencyLog"))
  }

  predicate IsTimestamp(l: Layer, v: Value) {
    v.Str? && Shape(v.s) && (l.JsonSchema? ==> DateTimeFormat(v.s))
  }

  /** CUE owns the order of the two timestamps, and compares them as strings. */
  predicate IsTimestamps(l: Layer, j: Value) {
    && Closed(j, {"startedAt", "finishedAt"}, {})
    && IsTimestamp(l, Member(j, "startedAt"))
    && IsTimestamp(l, Member(j, "finishedAt"))
    && (l.Cue? ==> AtOrAfter(Member(j, "finishedAt").s, Member(j, "startedAt").s))
  }

  function EvidenceTypes(v: Version): set<string> {
    {"trace", "tool-summary", "test-result", "local-log-root", "builder-record", "approval", "mcp-server",
      "raw-prompt-ref", "raw-tool-output-ref"} + (if v.V1? then {"agent-config"} else {})
  }

  predicate IsEvidence(l: Layer, v: Version, j: Value) {
    && Closed(j, {"type", "uri", "digest", "storage", "visibility"}, {"mediaType"})
    && IsOneOf(Member(j, "type"), EvidenceTypes(v))
    && IsSafeUri(l, Member(j, "uri"))
    && IsDigest(Member(j, "digest"))
    && (Has(j, "mediaType") ==> IsText(l, Member(j, "mediaType"), 256))
    && IsOneOf(Member(j, "storage"), {"local-only", "repo", "artifact-store", "transparency-log", "encrypted-blob"})
    && IsVisibility(Member(j, "visibility"))
    && (IsOneOf(Member(j, "type"), {"raw-prompt-ref", "raw-tool-output-ref"}) ==>
          IsRestricted(Member(j, "visibility")))
  }

  predicate IsSidecar(l: Layer, j: Value) {
    && Closed(j, {"type", "uri", "digest", "mediaType", "visibility"}, {})
    && IsOneOf(Member(j, "type"), {"spdx", "cyclonedx", "openvex", "other"})
    && IsSafeUri(l, Member(j, "uri"))
    && IsDigest(Member(j, "digest"))
    && IsText(l, Member(j, "mediaType"), 256)
    && IsVisibility(Member(j, "visibility"))
  }

  predicate IsMaterial(l: Layer, j: Value) {
    && Closed(j, {"type", "uri", "digest"}, {})
    && IsOneOf(Member(j, "type"), {"git-repo", "issue", "pull-request", "artifact", "dependency-snapshot", "other"})
    && IsSafeUri(l, Member(j, "uri"))
    && IsDigest(Member(j, "digest"))
  }

  predicate IsExtension(l: Layer, j: Value) {
    && Closed(j, {"uri", "digest", "mediaType", "visibility"}, {"retention"})
    && IsSafeUri(l, Member(j, "uri"))
    && IsDigest(Member(j, "digest"))
    && IsText(l, Member(j, "mediaType"), 256)
    && IsVisibility(Member(j, "visibility"))
    && (Has(j, "retention") ==> IsText(l, Member(j, "retention"), 128))
  }

  predicate IsExtensions(l: Layer, j: Value) {
    && j.Obj?
    && forall key | key in j.fields ::
         ("http://" <= key || "https://" <= key) && IsExtension(l, j.fields[key])
  }

  predicate HasTrace(p: Value) {
    exists e | e in ItemsMember(p, "evidence") :: Member(e, "type") == Str("trace")
  }

  const REQUIRED := {"predicateVersion", "runId", "verificationLevel", "repo", "agent", "environment",
                     "humanApproval", "privacy", "timestamps", "evidence"}
  const OPTIONAL := {"model", "runtime", "changes", "sidecars", "materials", "extensions"}
  const OPTIONAL_V1 := {"capture", "agentConfig", "mcpServers", "tools", "delegation"}

  predicate IsRunId(v: Value) {
    v.Str? && RunIdText(v.s)
  }

  predicate IsVersion(l: Layer, v: Version, j: Value) {
    && j.Str? && VersionText(j.s)
    && (l.JsonSchema? ==> |j.s| <= 32)
    && (l.JsonSchema? && v.V1? ==> j.s == "v1")
  }

  predicate IsLevel(v: Value) {
    IsOneOf(v, {"evidence-grade", "policy-grade", "high-assurance"})
  }

  /** The members every version requires. */
  predicate CoreShape(l: Layer, v: Version, p: Value) {
    && IsVersion(l, v, Member(p, "predicateVersion"))
    && IsRunId(Member(p, "runId"))
    && IsLevel(Member(p, "verificationLevel"))
    && IsRepo(l, Member(p, "repo"))
    && IsAgent(l, v, Member(p, "agent"))
    && IsEnvironment(l, v, Member(p, "environment"))
    && IsHumanApproval(l, Member(p, "humanApproval"))
    && IsPrivacy(l, Member(p, "privacy"))
    && IsTimestamps(l, Member(p, "timestamps"))
    && Member(p, "evidence").Arr? && Member(p, "evidence").items != []
    && (forall e | e in ItemsMember(p, "evidence") :: IsEvidence(l, v, e))
  }

  /** The members both versions allow. */
  predicate OptionalShape(l: Layer, p: Value) {
    && (Has(p, "model") ==> IsModel(l, Member(p, "model")))
    && (Has(p, "runtime") ==> IsRuntime(Member(p, "runtime")))
    && (Has(p, "changes") ==> IsChanges(Member(p, "changes")))
    && (Has(p, "sidecars") ==> Member(p, "sidecars").Arr?)
    && (forall s | s in ItemsMember(p, "sidecars") :: IsSidecar(l, s))
    && (Has(p, "materials") ==> Member(p, "materials").Arr?)
    && (forall m | m in ItemsMember(p, "materials") :: IsMaterial(l, m))
    && (Has(p, "extensions") ==> IsExtensions(l, Member(p, "extensions")))
    && (l.Cue? && Has(p, "runtime") ==> HasTrace(p))
  }

  /** The members version 1 adds, with what CUE asks of harness-native capture. */
  predicate HarnessShape(l: Layer, p: Value) {
    && (Has(p, "capture") ==> IsCapture(l, Member(p, "capture")))
    && (Has(p, "agentConfig") ==> IsAgentConfig(Member(p, "agentConfig")))
    && (Has(p, "mcpServers") ==> Member(p, "mcpServers").Arr?)
    && (forall s | s in ItemsMember(p, "mcpServers") :: IsMcpServer(l, s))
    && (Has(p, "tools") ==> Member(p, "tools").Arr?)
    && (forall t | t in ItemsMember(p, "tools") :: IsTool(l, t))
    && (Has(p, "delegation") ==> IsDelegation(l, Member(p, "delegation")))
    && (l.Cue? && Member(Member(p, "capture"), "method") == Str("harness-native") ==>
          Has(p, "runtime") && HasTrace(p))
  }

  /** The parts of a contract; a document conforms when it passes each of them. */
  datatype Part = Keys | Core | Extras | Harness

  predicate PredicatePart(part: Part, l: Layer, v: Version, p: Value) {
    match part
    case Keys => Closed(p, REQUIRED, if v.V1? then OPTIONAL + OPTIONAL_V1 else OPTIONAL)
    case Core => CoreShape(l, v, p)
    case Extras => OptionalShape(l, p)
    case Harness => v.V1? ==> HarnessShape(l, p)
  }

  predicate PredicateShape(l: Layer, v: Version, p: Value) {
    forall part: Part :: PredicatePart(part, l, v, p)
  }

  predicate IsContextSubject(j: Value) {
    && Closed(j, {"name", "algorithm", "digest"}, {})
    && Member(j, "name").Str? && 1 <= |Member(j, "name").s| <= 256
    && Member(j, "algorithm") == Str("sha256")
    && Member(j, "digest").Str? && HexSha256(Member(j, "digest").s)
  }

  predicate IsVerifiedWitness(j: Value) {
    && Closed(j, {"type", "digest"}, {})
    && IsOneOf(Member(j, "type"), {"transparency-log", "timestamp-authority"})
    && IsDigest(Member(j, "digest"))
  }

  predicate IsPlainText(v: Value, max: nat) {
    v.Str? && 1 <= |v.s| <= max
  }

  predicate IsTextList(v: Value, max: nat) {
    v.Arr? && (forall t | t in v.items :: IsPlainText(t, max)) && UniqueItems(v.items)
  }

  const CONTEXT_REQUIRED := {"repoUrl", "baseCommit", "requiredLevel", "subjects"}
  const CONTEXT_OPTIONAL := {"verifiedSigner", "verifiedBuilderId", "verifiedWorkflowRef", "verifiedIssuer",
                             "verifiedApproval", "verifiedApprovalDigest", "verifiedAgentConfig",
                             "verifiedMcpServers", "verifiedDelegation", "verifiedWitnesses",
                             "allowedIsolatedRunners", "allowSelfHostedRunners", "expectedPullRequestNumber",
                             "expectedRunId", "freshnessWindowSeconds", "now"}

  predicate IdentityShape(x: Value) {
    && (Has(x, "verifiedSigner") ==> IsPlainText(Member(x, "verifiedSigner"), 512))
    && (Has(x, "verifiedBuilderId") ==> IsPlainText(Member(x, "verifiedBuilderId"), 512))
    && (Has(x, "verifiedWorkflowRef") ==> IsPlainText(Member(x, "verifiedWorkflowRef"), 512))
    && (Has(x, "verifiedIssuer") ==> IsPlainText(Member(x, "verifiedIssuer"), 512))
  }

  predicate AllowlistShape(x: Value) {
    && (Has(x, "verifiedApproval") ==> IsBool(Member(x, "verifiedApproval")))
    && (Has(x, "verifiedApprovalDigest") ==> IsDigest(Member(x, "verifiedApprovalDigest")))
    && (Has(x, "verifiedAgentConfig") ==> IsDigest(Member(x, "verifiedAgentConfig")))
    && (Has(x, "verifiedMcpServers") ==> Member(x, "verifiedMcpServers").Arr?)
    && (forall d | d in ItemsMember(x, "verifiedMcpServers") :: IsDigest(d))
    && (Has(x, "verifiedDelegation") ==> IsTextList(Member(x, "verifiedDelegation"), 256))
    && (Has(x, "verifiedWitnesses") ==> Member(x, "verifiedWitnesses").Arr?)
    && (forall w | w in ItemsMember(x, "verifiedWitnesses") :: IsVerifiedWitness(w))
    && (Has(x, "allowedIsolatedRunners") ==> IsTextList(Member(x, "allowedIsolatedRunners"), 512))
    && (Has(x, "allowSelfHostedRunners") ==> IsBool(Member(x, "allowSelfHostedRunners")))
  }

  predicate ReplayShape(x: Value) {
    && (Has(x, "expectedPullRequestNumber") ==> IsInteger(Member(x, "expectedPullRequestNumber"), 1))
    && (Has(x, "expectedRunId") ==> IsRunId(Member(x, "expectedRunId")))
    && (Has(x, "freshnessWindowSeconds") ==> IsInteger(Member(x, "freshnessWindowSeconds"), 0))
    && (Has(x, "now") ==> IsTimestamp(JsonSchema, Member(x, "now")))
  }

  predicate ContextPart(part: Part, x: Value) {
    match part
    case Keys => Closed(x, CONTEXT_REQUIRED, CONTEXT_OPTIONAL)
    case Core =>
      && IsRepoUri(JsonSchema, Member(x, "repoUrl"))
      && IsCommit(Member(x, "baseCommit"))
      && IsLevel(Member(x, "requiredLevel"))
      && Member(x, "subjects").Arr? && Member(x, "subjects").items != []
      && (forall s | s in ItemsMember(x, "subjects") :: IsContextSubject(s))
    case Extras => IdentityShape(x) && ReplayShape(x)
    case Harness => AllowlistShape(x)
  }

  predicate ContextShape(x: Value) {
    forall part: Part :: ContextPart(part, x)
  }

  /** Phases 02 and 03: JSON Schema checks predicate and context, then CUE the predicate. */
  predicate Accepted(v: Version, p: Value, x: Value) {
    PredicateShape(JsonSchema, v, p) && ContextShape(x) && PredicateShape(Cue, v, p)
  }
}
