/** What the contracts rule out at any depth: members and words they do not list. */
module Closedness {
  import opened Json
  import opened Patterns
  import opened Timestamps
  import opened Schema

  /** No member but these. */
  predicate Only(j: Value, keys: set<string>) {
    j.Obj? && j.fields.Keys <= keys
  }

  /** The member, where there is one, is one of these words. */
  predicate Says(j: Value, key: string, words: set<string>) {
    Has(j, key) ==> Member(j, key).Str? && Member(j, key).s in words
  }

  predicate RepoClosed(j: Value) {
    && Only(j, {"url", "baseCommit", "headCommit", "branch", "pullRequest"})
    && (Has(j, "pullRequest") ==> Only(Member(j, "pullRequest"), {"number", "url"}))
  }

  predicate AgentClosed(j: Value, v: Version) {
    && Only(j, {"name", "version", "invocationKind", "declaredIdentity"})
    && Says(j, "invocationKind", {"local-cli", "ci-step", "api", "mcp-orchestrated", "platform-agent"})
    && (v.V0? ==> Member(j, "invocationKind") != Str("platform-agent"))
  }

  predicate BuilderClosed(j: Value, v: Version) {
    && Only(j, {"id", "type", "workflowRef", "runnerClass"})
    && Says(j, "type", {"github-actions-workflow", "generic-ci-workflow", "local-process", "isolated-runner",
                        "witnessed-runner", "platform-agent"})
    && Says(j, "runnerClass", {"github-hosted", "self-hosted", "isolated", "unknown", "platform-managed"})
    && (v.V0? ==> Member(j, "type") != Str("platform-agent") && Member(j, "runnerClass") != Str("platform-managed"))
  }

  predicate WitnessClosed(j: Value) {
    Only(j, {"id", "type", "digest", "uri"}) && Says(j, "type", {"transparency-log", "timestamp-authority"})
  }

  predicate EnvironmentClosed(j: Value, v: Version) {
    && Only(j, {"executionType", "builder", "witnesses"})
    && Says(j, "executionType", {"local", "github-actions", "other-ci", "isolated-runner", "witnessed-runner", "platform-agent"})
    && (v.V0? ==> Member(j, "executionType") != Str("platform-agent"))
    && (Has(j, "builder") ==> BuilderClosed(Member(j, "builder"), v))
    && (forall w | w in ItemsMember(j, "witnesses") :: WitnessClosed(w))
  }

  predicate ApprovalClosed(j: Value) {
    && Only(j, {"state", "reviewerRefs", "approvalSystem"})
    && Says(j, "state", {"none", "not-required", "requested", "approved-after-generation", "approved-before-merge", "rejected"})
  }

  predicate PrivacyClosed(j: Value) {
    && Only(j, {"redactionPolicy", "rawPrompt", "rawToolOutputs", "publicTransparencyLog"})
    && Only(Member(j, "publicTransparencyLog"), {"allowed", "includesRawContent"})
  }

  predicate EvidenceClosed(j: Value, v: Version) {
    && Only(j, {"type", "uri", "digest", "storage", "visibility", "mediaType"}) && Only(Member(j, "digest"), {"sha256"})
    && Says(j, "type", {"trace", "tool-summary", "test-result", "local-log-root", "builder-record", "approval", "mcp-server",
                        "raw-prompt-ref", "raw-tool-output-ref", "agent-config"})
    && (v.V0? ==> Member(j, "type") != Str("agent-config"))
    && Says(j, "storage", {"local-only", "repo", "artifact-store", "transparency-log", "encrypted-blob"})
    && Says(j, "visibility", {"public", "team", "secret", "encrypted"})
  }

  predicate CoreClosed(p: Value, v: Version) {
    && Says(p, "verificationLevel", {"evidence-grade", "policy-grade", "high-assurance"})
    && RepoClosed(Member(p, "repo")) && AgentClosed(Member(p, "agent"), v)
    && EnvironmentClosed(Member(p, "environment"), v) && ApprovalClosed(Member(p, "humanApproval"))
    && PrivacyClosed(Member(p, "privacy")) && Only(Member(p, "timestamps"), {"startedAt", "finishedAt"})
    && (forall e | e in ItemsMember(p, "evidence") :: EvidenceClosed(e, v))
  }

  predicate SidecarClosed(j: Value) {
    && Only(j, {"type", "uri", "digest", "mediaType", "visibility"})
    && Says(j, "type", {"spdx", "cyclonedx", "openvex", "other"})
    && Says(j, "visibility", {"public", "team", "secret", "encrypted"})
  }

  predicate MaterialClosed(j: Value) {
    && Only(j, {"type", "uri", "digest"})
    && Says(j, "type", {"git-repo", "issue", "pull-request", "artifact", "dependency-snapshot", "other"})
  }

  predicate ExtensionClosed(j: Value) {
    && Only(j, {"uri", "digest", "mediaType", "visibility", "retention"})
    && Says(j, "visibility", {"public", "team", "secret", "encrypted"})
  }

  predicate RuntimeClosed(j: Value) {
    && Only(j, {"traceFormat", "traceIds", "rootSpanId"})
    && Says(j, "traceFormat", {"opentelemetry-json", "openinference-otel-json", "otlp-json", "otlp-protobuf"})
  }

  predicate RunClosed(p: Value) {
    && (Has(p, "model") ==> Only(Member(p, "model"), {"provider", "modelId", "modelRevision", "fingerprint"}))
    && (Has(p, "runtime") ==> RuntimeClosed(Member(p, "runtime")))
    && (Has(p, "changes") ==> Only(Member(p, "changes"), {"filesChanged", "insertions", "deletions", "generatedFiles"}))
  }

  predicate ReferencesClosed(p: Value) {
    && (forall s | s in ItemsMember(p, "sidecars") :: SidecarClosed(s))
    && (forall m | m in ItemsMember(p, "materials") :: MaterialClosed(m))
    && (Has(p, "extensions") ==>
          && Member(p, "extensions").Obj?
          && (forall key | key in Member(p, "extensions").fields :: "http://" <= key || "https://" <= key)
          && forall key | key in Member(p, "extensions").fields :: ExtensionClosed(Member(p, "extensions").fields[key]))
  }

  predicate ConfigFileClosed(j: Value) {
    Only(j, {"path", "digest", "role"}) && Says(j, "role", {"instructions", "tool-rules", "repo-policy"})
  }

  predicate ServerClosed(j: Value) {
    && Only(j, {"name", "transport", "digest", "version", "serverIdentity"})
    && Says(j, "transport", {"stdio", "streamable-http", "sse"})
  }

  predicate HarnessClosed(p: Value) {
    && (Has(p, "capture") ==>
          && Only(Member(p, "capture"), {"method", "harness"})
          && Says(Member(p, "capture"), "method", {"harness-native", "wrapper", "ci-step", "manual"}))
    && (Has(p, "agentConfig") ==> Only(Member(p, "agentConfig"), {"primaryFile", "primaryDigest", "files"}))
    && (forall f | f in ItemsMember(Member(p, "agentConfig"), "files") :: ConfigFileClosed(f))
    && (forall s | s in ItemsMember(p, "mcpServers") :: ServerClosed(s))
    && (forall t | t in ItemsMember(p, "tools") :: Only(t, {"name", "schemaDigest", "server"}))
    && (Has(p, "delegation") ==> Only(Member(p, "delegation"), {"delegationChain"}))
    && (forall d | d in ItemsMember(Member(p, "delegation"), "delegationChain") ::
          Only(d, {"role", "agentRef", "identity", "digest"}))
  }

  predicate KeysClosed(p: Value, v: Version) {
    && Only(p, {"predicateVersion", "runId", "verificationLevel", "repo", "agent", "environment", "humanApproval",
                "privacy", "timestamps", "evidence", "model", "runtime", "changes", "sidecars", "materials", "extensions",
                "capture", "agentConfig", "mcpServers", "tools", "delegation"})
    && (v.V0? ==> p.fields.Keys !! {"capture", "agentConfig", "mcpServers", "tools", "delegation"})
  }

  /** Every object an accepted predicate holds is closed, and every word is from its list, at every depth. */
  lemma AcceptedIsClosed(l: Layer, v: Version, p: Value)
    requires PredicateShape(l, v, p)
    ensures KeysClosed(p, v) && CoreClosed(p, v) && RunClosed(p) && ReferencesClosed(p) && (v.V1? ==> HarnessClosed(p))
  {
    hide KeysClosed, CoreClosed, RunClosed, ReferencesClosed;
    hide HarnessClosed, CoreShape, OptionalShape, HarnessShape, Closed;
    assert PredicatePart(Keys, l, v, p) && PredicatePart(Core, l, v, p) && PredicatePart(Extras, l, v, p);
    assert PredicatePart(Harness, l, v, p);
    KeysAreClosed(v, p);
    CoreIsClosed(l, v, p);
    RunIsClosed(l, p);
    ReferencesAreClosed(l, p);
    if v.V1? {
      HarnessIsClosed(l, p);
    }
  }

  lemma KeysAreClosed(v: Version, p: Value)
    requires Closed(p, REQUIRED, if v.V1? then OPTIONAL + OPTIONAL_V1 else OPTIONAL)
    ensures KeysClosed(p, v)
  {
  }

  lemma RepoIsClosed(l: Layer, j: Value)
    requires IsRepo(l, j)
    ensures RepoClosed(j)
  {
  }

  lemma AgentIsClosed(l: Layer, v: Version, j: Value)
    requires IsAgent(l, v, j)
    ensures AgentClosed(j, v)
  {
  }

  lemma BuilderIsClosed(l: Layer, v: Version, j: Value)
    requires IsBuilder(l, v, j)
    ensures BuilderClosed(j, v)
  {
  }

  lemma EnvironmentIsClosed(l: Layer, v: Version, j: Value)
    requires IsEnvironment(l, v, j)
    ensures EnvironmentClosed(j, v)
  {
    hide IsBuilder, BuilderClosed;
    if Has(j, "builder") {
      BuilderIsClosed(l, v, Member(j, "builder"));
    }
  }

  lemma EvidenceIsClosed(l: Layer, v: Version, e: Value)
    requires IsEvidence(l, v, e)
    ensures EvidenceClosed(e, v)
  {
  }

  lemma FormalitiesAreClosed(l: Layer, p: Value)
    requires IsHumanApproval(l, Member(p, "humanApproval")) && IsPrivacy(l, Member(p, "privacy"))
    ensures ApprovalClosed(Member(p, "humanApproval")) && PrivacyClosed(Member(p, "privacy"))
  {
    hide IsReviewerRef, IsRawEvidence, IsText, UniqueItems;
  }

  lemma CoreIsClosed(l: Layer, v: Version, p: Value)
    requires CoreShape(l, v, p)
    ensures CoreClosed(p, v)
  {
    hide IsRepo, RepoClosed, IsAgent, AgentClosed, IsEnvironment, EnvironmentClosed, IsEvidence, EvidenceClosed;
    hide IsHumanApproval, ApprovalClosed, IsPrivacy, PrivacyClosed, IsVersion, IsRunId, IsTimestamp, AtOrAfter;
    FormalitiesAreClosed(l, p);
    RepoIsClosed(l, Member(p, "repo"));
    AgentIsClosed(l, v, Member(p, "agent"));
    EnvironmentIsClosed(l, v, Member(p, "environment"));
    forall e | e in ItemsMember(p, "evidence")
      ensures EvidenceClosed(e, v)
    {
      EvidenceIsClosed(l, v, e);
    }
  }

  lemma RunIsClosed(l: Layer, p: Value)
    requires OptionalShape(l, p)
    ensures RunClosed(p)
  {
    hide IsSidecar, IsMaterial, IsExtensions;
  }

  lemma ReferencesAreClosed(l: Layer, p: Value)
    requires OptionalShape(l, p)
    ensures ReferencesClosed(p)
  {
    hide IsModel, IsRuntime, IsChanges, SafeUriText, IsDigest, IsText;
  }

  lemma HarnessIsClosed(l: Layer, p: Value)
    requires HarnessShape(l, p)
    ensures HarnessClosed(p)
  {
  }
}

/** What accepted documents are bounded by: lengths, counts, whole numbers, and what one member asks of another. */
module Bounds {
  import opened Json
  import opened Patterns
  import opened Timestamps
  import opened Schema
  import opened Closedness

  /** The text member, where there is one, has from one to `max` characters. */
  predicate Short(j: Value, key: string, max: nat) {
    Has(j, key) ==> Member(j, key).Str? && 1 <= |Member(j, key).s| <= max
  }

  /** The number, where there is one, is whole and not below `min`. */
  predicate WholeFrom(j: Value, key: string, min: int) {
    Has(j, key) ==> Member(j, key).Num? && Member(j, key).n >= min as real
                    && Member(j, key).n.Floor as real == Member(j, key).n
  }

  predicate Sha256(j: Value) {
    Only(j, {"sha256"}) && TextMember(j, "sha256").Some? && HexSha256(TextOf(j, "sha256"))
  }

  predicate Refers(j: Value) {
    Short(j, "uri", 1024) && (Has(j, "digest") ==> Sha256(Member(j, "digest")))
  }

  predicate RepoBounded(j: Value) {
    && Short(j, "url", 1024) && TextMember(j, "baseCommit").Some? && Short(j, "branch", 255)
    && WholeFrom(Member(j, "pullRequest"), "number", 1) && Short(Member(j, "pullRequest"), "url", 1024)
  }

  predicate BuilderBounded(environment: Value) {
    var builder := Member(environment, "builder");
    && Short(builder, "id", 512) && Short(builder, "workflowRef", 512)
    && (TextOf(environment, "executionType") == "github-actions" ==>
          && Has(environment, "builder") && Has(builder, "workflowRef") && GitHubWorkflowText(TextOf(builder, "id"))
          && TextOf(builder, "type") == "github-actions-workflow")
  }

  predicate CoreBounded(v: Version, p: Value) {
    && (v.V1? ==> TextOf(p, "predicateVersion") == "v1")
    && RepoBounded(Member(p, "repo")) && BuilderBounded(Member(p, "environment"))
    && Short(Member(p, "agent"), "name", 128) && Short(Member(p, "agent"), "version", 128)
    && Short(Member(p, "humanApproval"), "approvalSystem", 128) && Short(Member(p, "privacy"), "redactionPolicy", 128)
    && UniqueItems(ItemsMember(Member(p, "humanApproval"), "reviewerRefs"))
    && ItemsMember(p, "evidence") != [] && Short(p, "predicateVersion", 32) && Short(p, "runId", 128)
    && (forall e | e in ItemsMember(p, "evidence") :: Refers(e) && Short(e, "mediaType", 256))
    && (forall w | w in ItemsMember(Member(p, "environment"), "witnesses") :: Refers(w) && Short(w, "id", 512))
  }

  predicate ChangesBounded(j: Value) {
    && WholeFrom(j, "filesChanged", 0) && WholeFrom(j, "insertions", 0) && WholeFrom(j, "deletions", 0)
    && WholeFrom(j, "generatedFiles", 0)
  }

  predicate OptionsBounded(p: Value) {
    && (Has(p, "changes") ==> ChangesBounded(Member(p, "changes")))
    && Short(Member(p, "model"), "provider", 128) && Short(Member(p, "model"), "modelId", 256)
    && Short(Member(p, "model"), "modelRevision", 128) && Short(Member(p, "model"), "fingerprint", 256)
    && (Has(p, "runtime") ==> ItemsMember(Member(p, "runtime"), "traceIds") != [])
    && (forall t | t in ItemsMember(Member(p, "runtime"), "traceIds") :: t.Str? && LowerHex(t.s, 32))
    && (Has(Member(p, "runtime"), "rootSpanId") ==> LowerHex(TextOf(Member(p, "runtime"), "rootSpanId"), 16))
    && (forall s | s in ItemsMember(p, "sidecars") :: Refers(s) && Short(s, "mediaType", 256))
    && (forall m | m in ItemsMember(p, "materials") :: Refers(m))
  }

  predicate HarnessBounded(p: Value) {
    && (Has(p, "delegation") ==> ItemsMember(Member(p, "delegation"), "delegationChain") != [])
    && (forall d | d in ItemsMember(Member(p, "delegation"), "delegationChain") ::
          && Short(d, "role", 64) && Short(d, "agentRef", 256) && Short(d, "identity", 256)
          && (Has(d, "digest") ==> Sha256(Member(d, "digest"))))
    && (forall s | s in ItemsMember(p, "mcpServers") ::
          Short(s, "name", 128) && Short(s, "version", 64) && Short(s, "serverIdentity", 512) && Sha256(Member(s, "digest")))
    && (forall t | t in ItemsMember(p, "tools") ::
          Short(t, "name", 128) && Short(t, "server", 128) && Sha256(Member(t, "schemaDigest")))
    && (Has(p, "agentConfig") ==>
          Short(Member(p, "agentConfig"), "primaryFile", 256) && Sha256(Member(Member(p, "agentConfig"), "primaryDigest")))
  }

  /** A trace is bound wherever one is claimed: by a runtime, and by capture in the harness, which needs one. */
  predicate TraceBound(p: Value) {
    var native := TextOf(Member(p, "capture"), "method") == "harness-native";
    && (native ==> Has(p, "runtime") && Has(Member(p, "capture"), "harness"))
    && (Has(p, "runtime") ==> exists e | e in ItemsMember(p, "evidence") :: TextOf(e, "type") == "trace")
  }

  lemma RepoIsBounded(j: Value)
    requires IsRepo(JsonSchema, j)
    ensures RepoBounded(j)
  {
    hide RepoUriText, HttpRest;
    RepoUriIsNotEmpty(TextOf(j, "url"));
    if Has(j, "pullRequest") {
      var request := Member(j, "pullRequest");
      if Has(request, "url") {
        RepoUriIsNotEmpty(TextOf(request, "url"));
      }
    }
  }

  lemma RepoUriIsNotEmpty(s: string)
    ensures RepoUriText(s) ==> s != ""
    ensures SafeUriText(s) ==> s != ""
  {
    hide HttpRest, NoSpace;
  }

  lemma BuilderIsBounded(v: Version, j: Value)
    requires IsEnvironment(JsonSchema, v, j)
    ensures BuilderBounded(j)
  {
    hide GitHubWorkflowText, IsWitness;
  }

  lemma ReferenceIsBounded(v: Version, j: Value)
    ensures IsEvidence(JsonSchema, v, j) ==> Refers(j) && Short(j, "mediaType", 256)
    ensures IsWitness(JsonSchema, j) ==> Refers(j) && Short(j, "id", 512)
    ensures IsSidecar(JsonSchema, j) ==> Refers(j) && Short(j, "mediaType", 256)
    ensures IsMaterial(JsonSchema, j) ==> Refers(j)
  {
    hide SafeUriText, HexSha256, RepoUriText;
    RepoUriIsNotEmpty(TextOf(j, "uri"));
  }

  lemma CoreIsBounded(v: Version, p: Value)
    requires CoreShape(JsonSchema, v, p)
    ensures CoreBounded(v, p)
  {
    hide IsRepo, RepoBounded, IsEvidence, IsWitness, Refers;
    hide BuilderBounded, IsTimestamps, IsBuilder, IsRawEvidence, ReviewerRefText;
    RepoIsBounded(Member(p, "repo"));
    BuilderIsBounded(v, Member(p, "environment"));
    forall j
      ensures IsEvidence(JsonSchema, v, j) ==> Refers(j) && Short(j, "mediaType", 256)
      ensures IsWitness(JsonSchema, j) ==> Refers(j) && Short(j, "id", 512)
    {
      ReferenceIsBounded(v, j);
    }
  }

  lemma OptionsAreBounded(v: Version, p: Value)
    requires OptionalShape(JsonSchema, p)
    ensures OptionsBounded(p)
  {
    hide IsSidecar, IsMaterial, Refers, IsExtensions;
    forall j
      ensures IsSidecar(JsonSchema, j) ==> Refers(j) && Short(j, "mediaType", 256)
      ensures IsMaterial(JsonSchema, j) ==> Refers(j)
    {
      ReferenceIsBounded(v, j);
    }
    if Has(p, "changes") {
      ChangesAreBounded(Member(p, "changes"));
    }
  }

  lemma ChangesAreBounded(j: Value)
    requires IsChanges(j)
    ensures ChangesBounded(j)
  {
  }

  lemma HarnessIsBounded(p: Value)
    requires HarnessShape(JsonSchema, p)
    ensures HarnessBounded(p)
  {
  }

  lemma TraceIsBound(v: Version, p: Value)
    requires OptionalShape(Cue, p) && (v.V1? ==> HarnessShape(Cue, p)) && (v.V0? ==> Member(p, "capture").Null?)
    ensures TraceBound(p)
  {
    hide IsModel, IsRuntime, IsChanges, IsSidecar, IsMaterial;
    hide IsExtensions, IsAgentConfig, IsMcpServer, IsTool, IsDelegation;
  }

  lemma NoCaptureInVersion0(p: Value)
    requires Closed(p, REQUIRED, OPTIONAL)
    ensures Member(p, "capture").Null?
  {
  }

  /** What both contracts together bound in every predicate they accept. */
  lemma AcceptedIsBounded(v: Version, p: Value, x: Value)
    requires Accepted(v, p, x)
    ensures CoreBounded(v, p) && OptionsBounded(p) && TraceBound(p) && (v.V1? ==> HarnessBounded(p))
  {
    hide CoreShape, OptionalShape, HarnessShape, CoreBounded;
    hide OptionsBounded, HarnessBounded, TraceBound, ContextShape, Closed;
    assert PredicatePart(Core, JsonSchema, v, p) && PredicatePart(Extras, JsonSchema, v, p);
    assert PredicatePart(Harness, JsonSchema, v, p) && PredicatePart(Harness, Cue, v, p);
    assert PredicatePart(Extras, Cue, v, p) && PredicatePart(Keys, Cue, v, p);
    CoreIsBounded(v, p);
    OptionsAreBounded(v, p);
    if v.V1? {
      HarnessIsBounded(p);
    } else {
      NoCaptureInVersion0(p);
    }
    TraceIsBound(v, p);
  }

  /** The context names each current subject, by a SHA-256 digest, and is as closed as the predicate. */
  predicate SubjectsListed(x: Value) {
    && ItemsMember(x, "subjects") != []
    && (forall s | s in ItemsMember(x, "subjects") ::
          && Only(s, {"name", "algorithm", "digest"}) && Short(s, "name", 256)
          && TextOf(s, "algorithm") == "sha256" && HexSha256(TextOf(s, "digest")))
  }

  predicate ListsListed(x: Value) {
    var delegates, runners := ItemsMember(x, "verifiedDelegation"), ItemsMember(x, "allowedIsolatedRunners");
    && UniqueItems(delegates) && (forall d | d in delegates :: d.Str? && 1 <= |d.s| <= 256)
    && UniqueItems(runners) && (forall r | r in runners :: r.Str? && 1 <= |r.s| <= 512)
    && (forall w | w in ItemsMember(x, "verifiedWitnesses") ::
          && Only(w, {"type", "digest"}) && Says(w, "type", {"transparency-log", "timestamp-authority"})
          && Sha256(Member(w, "digest")))
    && (forall d | d in ItemsMember(x, "verifiedMcpServers") :: Sha256(d))
  }

  predicate FactsListed(x: Value) {
    && Only(x, {"repoUrl", "baseCommit", "requiredLevel", "subjects", "verifiedSigner", "verifiedBuilderId",
                "verifiedWorkflowRef", "verifiedIssuer", "verifiedApproval", "verifiedApprovalDigest",
                "verifiedAgentConfig", "verifiedMcpServers", "verifiedDelegation", "verifiedWitnesses",
                "allowedIsolatedRunners", "allowSelfHostedRunners", "expectedPullRequestNumber", "expectedRunId",
                "freshnessWindowSeconds", "now"})
    && {"repoUrl", "baseCommit", "requiredLevel", "subjects"} <= x.fields.Keys
    && Says(x, "requiredLevel", {"evidence-grade", "policy-grade", "high-assurance"}) && Short(x, "repoUrl", 1024)
    && Short(x, "verifiedSigner", 512) && Short(x, "verifiedBuilderId", 512)
    && Short(x, "verifiedWorkflowRef", 512) && Short(x, "verifiedIssuer", 512) && Short(x, "expectedRunId", 128)
    && WholeFrom(x, "expectedPullRequestNumber", 1) && WholeFrom(x, "freshnessWindowSeconds", 0)
    && (Has(x, "now") ==> Member(x, "now").Str? && Shape(Member(x, "now").s))
  }

  lemma FactsAreListed(x: Value)
    requires ContextPart(Keys, x) && ContextPart(Core, x) && IdentityShape(x) && ReplayShape(x)
    ensures FactsListed(x)
  {
    hide RepoUriText, GitCommit, IsContextSubject, Shape, DateTimeFormat;
    RepoUriIsNotEmpty(TextOf(x, "repoUrl"));
  }

  lemma SubjectsAreListed(x: Value)
    requires ContextPart(Core, x)
    ensures SubjectsListed(x)
  {
    hide IsRepoUri, IsCommit, IsLevel, HexSha256;
  }

  lemma ListsAreListed(x: Value)
    requires AllowlistShape(x)
    ensures ListsListed(x)
  {
    hide HexSha256;
  }

  lemma ContextIsBounded(x: Value)
    requires ContextShape(x)
    ensures FactsListed(x) && SubjectsListed(x) && ListsListed(x)
  {
    hide FactsListed, SubjectsListed, ListsListed, IdentityShape, ReplayShape, AllowlistShape, Closed, IsContextSubject;
    assert ContextPart(Keys, x) && ContextPart(Core, x) && ContextPart(Extras, x) && ContextPart(Harness, x);
    FactsAreListed(x);
    SubjectsAreListed(x);
    ListsAreListed(x);
  }
}

/** The words the contracts leave free: each of a list may stand where another of it did. */
module FreeWords {
  import opened Json
  import opened Patterns
  import opened Schema
  import opened Rewriting

  lemma AgentWords(l: Layer, v: Version, j: Value, word: string)
    requires IsAgent(l, v, j)
    requires word in {"local-cli", "ci-step", "api", "mcp-orchestrated"} || (v.V1? && word == "platform-agent")
    ensures IsAgent(l, v, With(j, "invocationKind", Str(word)))
  {
    hide IsText, IsIdentity;
    WithKeeps(j, "invocationKind", Str(word));
  }

  lemma BuilderWords(l: Layer, v: Version, j: Value, kind: string, class_: string)
    requires IsBuilder(l, v, j)
    requires (v.V1? && kind == "platform-agent") || kind in {"github-actions-workflow", "generic-ci-workflow", "local-process",
                                                              "isolated-runner", "witnessed-runner"}
    requires (v.V1? && class_ == "platform-managed") || class_ in {"github-hosted", "self-hosted", "isolated", "unknown"}
    ensures IsBuilder(l, v, With(j, "type", Str(kind))) && IsBuilder(l, v, With(j, "runnerClass", Str(class_)))
  {
    hide IsText;
    WithKeeps(j, "type", Str(kind));
    WithKeeps(j, "runnerClass", Str(class_));
  }

  lemma EnvironmentWords(l: Layer, v: Version, j: Value, word: string)
    requires IsEnvironment(l, v, j)
    requires (v.V1? && word == "platform-agent") || word in {"local", "other-ci", "isolated-runner", "witnessed-runner"}
    ensures IsEnvironment(l, v, With(j, "executionType", Str(word)))
  {
    hide IsBuilder, IsWitness, IsGitHubBuilder;
    WithKeeps(j, "executionType", Str(word));
  }

  lemma WitnessWords(l: Layer, j: Value, word: string)
    requires word in {"transparency-log", "timestamp-authority"}
    ensures IsWitness(l, j) ==> IsWitness(l, With(j, "type", Str(word)))
    ensures IsVerifiedWitness(j) ==> IsVerifiedWitness(With(j, "type", Str(word)))
  {
    hide IsText, IsDigest, IsSafeUri;
    if j.Obj? {
      WithKeeps(j, "type", Str(word));
    }
  }

  lemma ApprovalWords(l: Layer, j: Value, word: string)
    requires IsHumanApproval(l, j)
    requires word in {"none", "not-required", "requested", "approved-after-generation", "approved-before-merge", "rejected"}
    ensures IsHumanApproval(l, With(j, "state", Str(word)))
  {
    hide IsText, IsReviewerRef, UniqueItems;
    WithKeeps(j, "state", Str(word));
  }

  /** Raw content may be referred to only where its visibility is restricted. */
  lemma EvidenceKinds(l: Layer, v: Version, e: Value, kind: string)
    requires IsEvidence(l, v, e)
    requires kind in {"trace", "tool-summary", "test-result", "local-log-root", "builder-record", "approval", "mcp-server"}
             || (v.V1? && kind == "agent-config")
             || (kind in {"raw-prompt-ref", "raw-tool-output-ref"} && TextOf(e, "visibility") != "public")
    ensures IsEvidence(l, v, With(e, "type", Str(kind)))
  {
    hide IsText, IsDigest, IsSafeUri;
    WithKeeps(e, "type", Str(kind));
  }

  lemma EvidenceWords(l: Layer, v: Version, e: Value, storage: string, visibility: string)
    requires IsEvidence(l, v, e)
    requires storage in {"local-only", "repo", "artifact-store", "transparency-log", "encrypted-blob"}
    requires visibility in {"team", "secret", "encrypted"}
             || (visibility == "public" && TextOf(e, "type") !in {"raw-prompt-ref", "raw-tool-output-ref"})
    ensures IsEvidence(l, v, With(e, "storage", Str(storage))) && IsEvidence(l, v, With(e, "visibility", Str(visibility)))
  {
    hide IsText, IsDigest, IsSafeUri, EvidenceTypes;
    WithKeeps(e, "storage", Str(storage));
    WithKeeps(e, "visibility", Str(visibility));
  }

  lemma CaptureWords(l: Layer, j: Value, word: string)
    requires IsCapture(l, j)
    requires word in {"wrapper", "ci-step", "manual"} || (word == "harness-native" && Has(j, "harness"))
    ensures IsCapture(l, With(j, "method", Str(word)))
  {
    hide IsText;
    WithKeeps(j, "method", Str(word));
  }

  lemma SidecarWords(l: Layer, j: Value, kind: string, visibility: string)
    requires kind in {"spdx", "cyclonedx", "openvex", "other"} && visibility in {"public", "team", "secret", "encrypted"}
    ensures IsSidecar(l, j) ==> IsSidecar(l, With(j, "type", Str(kind)))
    ensures IsSidecar(l, j) ==> IsSidecar(l, With(j, "visibility", Str(visibility)))
    ensures IsExtension(l, j) ==> IsExtension(l, With(j, "visibility", Str(visibility)))
  {
    hide IsText, IsDigest, IsSafeUri;
    if j.Obj? {
      WithKeeps(j, "type", Str(kind));
      WithKeeps(j, "visibility", Str(visibility));
    }
  }

  lemma MaterialWords(l: Layer, j: Value, kind: string)
    requires IsMaterial(l, j)
    requires kind in {"git-repo", "issue", "pull-request", "artifact", "dependency-snapshot", "other"}
    ensures IsMaterial(l, With(j, "type", Str(kind)))
  {
    hide IsDigest, IsSafeUri;
    WithKeeps(j, "type", Str(kind));
  }

  lemma HarnessWords(j: Value, role: string, format: string)
    requires role in {"instructions", "tool-rules", "repo-policy"}
    requires format in {"opentelemetry-json", "openinference-otel-json", "otlp-json", "otlp-protobuf"}
    ensures IsConfigFile(j) ==> IsConfigFile(With(j, "role", Str(role)))
    ensures IsRuntime(j) ==> IsRuntime(With(j, "traceFormat", Str(format)))
  {
    hide IsDigest, IsRelPath, IsTraceId, LowerHex;
    if j.Obj? {
      WithKeeps(j, "role", Str(role));
      WithKeeps(j, "traceFormat", Str(format));
    }
  }

  lemma ServerWords(l: Layer, j: Value, transport: string)
    requires IsMcpServer(l, j) && transport in {"stdio", "streamable-http", "sse"}
    ensures IsMcpServer(l, With(j, "transport", Str(transport)))
  {
    hide IsText, IsDigest, IsServerName;
    WithKeeps(j, "transport", Str(transport));
  }
}
