/** What the policy's references evaluate to on accepted documents. */
module Reading {
  import opened Basics
  import opened Json
  import opened Rego
  import opened Schema
  import opened Policy
  import G = Gates
  import opened Views

  /** The policy's input once phase 02 has passed. */
  predicate Checked(v: Version, i: Input) {
    && Has(i.statement, "predicate")
    && PredicateShape(JsonSchema, v, Member(i.statement, "predicate"))
    && ContextShape(i.context)
  }

  function P(i: Input): Value {
    Member(i.statement, "predicate")
  }

  /** An optional string, as the policy reads it with "" for absence. */
  function OrEmpty(t: Option<string>): Term {
    Some(Str(t.GetOr("")))
  }

  predicate NotEmptyText(t: Option<string>) {
    t != Some("")
  }

  predicate LevelTerms(i: Input, c: G.Claim, x: G.Trusted) {
    && i.Level() == Some(Str(c.level.Name()))
    && i.RequiredLevel() == Some(Str(x.required.Name()))
    && (i.VersionIs("v1") <==> c.version.V1?)
  }

  predicate RepoTerms(i: Input, c: G.Claim, x: G.Trusted) {
    && i.RepoUrl() == Some(Str(c.repoUrl)) && i.BaseCommit() == Some(Str(c.baseCommit))
    && i.ContextRepoUrl() == Some(Str(x.repoUrl)) && i.ContextBaseCommit() == Some(Str(x.baseCommit))
  }

  predicate EvidenceTerm(e: Value) {
    && Ref(Some(e), "type") == Some(Str(EvidenceOf(e).kind))
    && Ref(Some(e), "storage") == Some(Str(EvidenceOf(e).storage))
    && Ref(Some(e), "visibility") == Some(Str(EvidenceOf(e).visibility))
    && Ref(Ref(Some(e), "digest"), "sha256") == Some(Str(EvidenceOf(e).sha256))
  }

  predicate EvidenceTerms(i: Input, c: G.Claim) {
    && (forall e | e in Elements(i.EvidenceRefs()) :: EvidenceTerm(e) && EvidenceOf(e) in c.evidence)
    && (forall t | t in c.evidence :: exists e | e in Elements(i.EvidenceRefs()) :: EvidenceOf(e) == t)
  }

  predicate ExtensionTerms(i: Input, c: G.Claim) {
    && i.Extensions().Some? && i.Extensions().value.Obj?
    && var fields := i.Extensions().value.fields;
       && (forall k | k in fields ::
             Ref(Some(fields[k]), "visibility") == Some(Str(TextOf(fields[k], "visibility"))))
       && c.extensionVisibilities == set k | k in fields :: TextOf(fields[k], "visibility")
  }

  predicate BuilderTerms(i: Input, c: G.Claim) {
    && Ref(i.Environment(), "executionType") == Some(Str(c.executionType))
    && (Count(i.Builder()) == Some(0) <==> c.builder.None?)
    && ObjectGet(i.Builder(), "id", Str("")) == Some(Str(if c.builder.Some? then c.builder.value.id else ""))
    && ObjectGet(i.Builder(), "workflowRef", Str(""))
       == OrEmpty(if c.builder.Some? then c.builder.value.workflowRef else None)
    && ObjectGet(i.Builder(), "runnerClass", Str(""))
       == OrEmpty(if c.builder.Some? then c.builder.value.runnerClass else None)
    && (c.builder.Some? ==> c.builder.value.id != "" && NotEmptyText(c.builder.value.workflowRef))
  }

  predicate AttestedTerm(w: Value) {
    && Ref(Some(w), "type") == Some(Str(AttestedOf(w).kind))
    && Ref(Ref(Some(w), "digest"), "sha256") == Some(Str(AttestedOf(w).sha256))
  }

  predicate WitnessTerms(i: Input, c: G.Claim, x: G.Trusted) {
    && i.Witnesses().Some? && i.Witnesses().value.Arr?
    && (forall w | w in Elements(i.Witnesses()) :: AttestedTerm(w) && Has(w, "id"))
    && c.witnesses == (set w | w in Elements(i.Witnesses()) :: AttestedOf(w))
    && (forall w | w in Elements(i.ListFromContext("verifiedWitnesses")) :: AttestedTerm(w))
    && x.witnesses == (set w | w in Elements(i.ListFromContext("verifiedWitnesses")) :: AttestedOf(w))
  }

  predicate IdentityTerms(i: Input, c: G.Claim, x: G.Trusted) {
    && i.FromContext("verifiedSigner") == OrEmpty(x.signer) && NotEmptyText(x.signer)
    && i.FromContext("verifiedBuilderId") == OrEmpty(x.builderId) && NotEmptyText(x.builderId)
    && i.FromContext("verifiedWorkflowRef") == OrEmpty(x.workflowRef) && NotEmptyText(x.workflowRef)
    && i.FromContext("verifiedIssuer") == OrEmpty(x.issuer) && NotEmptyText(x.issuer)
    && ObjectGet(i.Agent(), "declaredIdentity", Str("")) == OrEmpty(c.declaredIdentity)
    && NotEmptyText(c.declaredIdentity)
  }

  predicate RunnerTerms(i: Input, x: G.Trusted) {
    && (forall r | r in Elements(i.ListFromContext("allowedIsolatedRunners")) :: r.Str?)
    && x.isolatedRunners == (set r | r in Elements(i.ListFromContext("allowedIsolatedRunners")) && r.Str? :: r.s)
    && "" !in x.isolatedRunners
    && ObjectGet(i.Context(), "allowSelfHostedRunners", Bool(false)) == Some(Bool(x.allowSelfHosted))
  }

  predicate ApprovalTerms(i: Input, c: G.Claim, x: G.Trusted) {
    && Ref(Ref(i.Predicate(), "humanApproval"), "state") == Some(Str(c.approvalState))
    && ObjectGet(i.Context(), "verifiedApproval", Bool(false)) == Some(Bool(x.approval))
    && ObjectGet(ObjectGet(i.Context(), "verifiedApprovalDigest", EmptyObject), "sha256", Str(""))
       == OrEmpty(x.approvalDigest)
    && NotEmptyText(x.approvalDigest)
  }

  predicate ReplayTerms(i: Input, c: G.Claim, x: G.Trusted) {
    && ObjectGet(ObjectGet(i.Repo(), "pullRequest", EmptyObject), "number", Num(0.0))
       == Some(Num(c.pullRequest.GetOr(0.0)))
    && ObjectGet(i.Context(), "expectedPullRequestNumber", Num(0.0)) == Some(Num(x.pullRequest.GetOr(0.0)))
    && (x.pullRequest.Some? ==> x.pullRequest.value >= 1.0)
    && ObjectGet(i.Predicate(), "runId", Str("")) == Some(Str(c.runId))
    && i.FromContext("expectedRunId") == OrEmpty(x.runId) && NotEmptyText(x.runId)
  }

  predicate ClockTerms(i: Input, c: G.Claim, x: G.Trusted) {
    && Window(i) == Some(Num(x.window))
    && i.FromContext("now") == OrEmpty(x.now) && NotEmptyText(x.now)
    && (x.now.Some? ==> Ref(i.Context(), "now") == Some(Str(x.now.value)))
    && Ref(Ref(i.Predicate(), "timestamps"), "finishedAt") == Some(Str(c.finishedAt))
  }

  function DigestValue(sha256: string): Value {
    Obj(map["sha256" := Str(sha256)])
  }

  function DigestOrEmpty(sha256: Option<string>): Value {
    if sha256.Some? then DigestValue(sha256.value) else EmptyObject
  }

  predicate ConfigTerms(i: Input, c: G.Claim, x: G.Trusted) {
    && (Count(i.AgentConfig()) == Some(0) <==> c.agentConfig.None?)
    && ObjectGet(i.AgentConfig(), "primaryDigest", EmptyObject)
       == Some(DigestOrEmpty(c.agentConfig))
    && ObjectGet(i.Context(), "verifiedAgentConfig", EmptyObject)
       == Some(DigestOrEmpty(x.agentConfig))
  }

  predicate McpTerms(i: Input, c: G.Claim, x: G.Trusted) {
    && i.McpServers().Some? && i.McpServers().value.Arr?
    && (forall m | m in Elements(i.McpServers()) ::
          Has(m, "name") && Ref(Ref(Some(m), "digest"), "sha256") == Some(Str(DigestOf(m))))
    && c.mcpServers == (set m | m in Elements(i.McpServers()) :: DigestOf(m))
    && i.ListFromContext("verifiedMcpServers").Some? && i.ListFromContext("verifiedMcpServers").value.Arr?
    && (forall d | d in Elements(i.ListFromContext("verifiedMcpServers")) ::
          Ref(Some(d), "sha256") == Some(Str(TextOf(d, "sha256"))))
    && x.mcpServers == (set d | d in Elements(i.ListFromContext("verifiedMcpServers")) :: TextOf(d, "sha256"))
  }

  predicate DelegationTerms(i: Input, c: G.Claim, x: G.Trusted) {
    && i.DelegationChain().Some? && i.DelegationChain().value.Arr?
    && (forall d | d in Elements(i.DelegationChain()) :: Ref(Some(d), "agentRef") == Some(Str(TextOf(d, "agentRef"))))
    && c.delegation == (set d | d in Elements(i.DelegationChain()) :: TextOf(d, "agentRef"))
    && i.ListFromContext("verifiedDelegation").Some? && i.ListFromContext("verifiedDelegation").value.Arr?
    && (forall d | d in Elements(i.ListFromContext("verifiedDelegation")) :: d.Str?)
    && x.delegation == (set d | d in Elements(i.ListFromContext("verifiedDelegation")) && d.Str? :: d.s)
  }

  predicate CaptureTerms(i: Input, c: G.Claim) {
    ObjectGet(ObjectGet(i.Predicate(), "capture", EmptyObject), "method", Str("")) == OrEmpty(c.captureMethod)
  }

  lemma ReadsLevel(v: Version, i: Input)
    requires Has(i.statement, "predicate") && P(i).Obj? && i.context.Obj?
    requires IsVersion(JsonSchema, v, Member(P(i), "predicateVersion"))
    requires IsLevel(Member(P(i), "verificationLevel")) && IsLevel(Member(i.context, "requiredLevel"))
    ensures LevelTerms(i, ClaimOf(P(i)), TrustedOf(i.context))
  {
  }

  lemma ReadsRepo(i: Input)
    requires Has(i.statement, "predicate") && P(i).Obj? && i.context.Obj?
    requires IsRepo(JsonSchema, Member(P(i), "repo"))
    requires IsRepoUri(JsonSchema, Member(i.context, "repoUrl")) && IsCommit(Member(i.context, "baseCommit"))
    ensures RepoTerms(i, ClaimOf(P(i)), TrustedOf(i.context))
  {
  }

  lemma ReadsEvidence(v: Version, i: Input)
    requires Has(i.statement, "predicate") && P(i).Obj? && Member(P(i), "evidence").Arr?
    requires forall e | e in ItemsMember(P(i), "evidence") :: IsEvidence(JsonSchema, v, e)
    ensures EvidenceTerms(i, ClaimOf(P(i)))
  {
    assert Elements(i.EvidenceRefs()) == ItemsMember(P(i), "evidence");
    forall e | e in ItemsMember(P(i), "evidence")
      ensures EvidenceTerm(e)
    {
      assert IsEvidence(JsonSchema, v, e) && IsDigest(Member(e, "digest"));
    }
  }

  lemma ReadsExtensions(i: Input)
    requires Has(i.statement, "predicate") && P(i).Obj?
    requires Has(P(i), "extensions") ==> IsExtensions(JsonSchema, Member(P(i), "extensions"))
    ensures ExtensionTerms(i, ClaimOf(P(i)))
  {
    if Has(P(i), "extensions") {
      var x := Member(P(i), "extensions");
      forall k | k in x.fields
        ensures Ref(Some(x.fields[k]), "visibility") == Some(Str(TextOf(x.fields[k], "visibility")))
      {
        assert IsExtension(JsonSchema, x.fields[k]);
      }
    }
  }

  /** The members of a builder as texts. */
  predicate BuilderTexts(b: Value) {
    && Has(b, "id") && Member(b, "id").Str? && Member(b, "id").s != ""
    && OptionalText(b, "workflowRef") && OptionalText(b, "runnerClass")
  }

  lemma EnvironmentTexts(v: Version, e: Value)
    requires IsEnvironment(JsonSchema, v, e)
    ensures Has(e, "executionType") && Member(e, "executionType").Str?
    ensures Has(e, "builder") ==> BuilderTexts(Member(e, "builder"))
  {
    if Has(e, "builder") {
      assert IsBuilder(JsonSchema, v, Member(e, "builder"));
    }
  }

  lemma ReadsBuilder(i: Input)
    requires Has(i.statement, "predicate") && P(i).Obj? && Has(P(i), "environment")
    requires Has(Member(P(i), "environment"), "executionType") && Member(Member(P(i), "environment"), "executionType").Str?
    requires Has(Member(P(i), "environment"), "builder") ==> BuilderTexts(Member(Member(P(i), "environment"), "builder"))
    ensures BuilderTerms(i, ClaimOf(P(i)))
  {
    var e := Member(P(i), "environment");
    assert i.Environment() == Some(e);
    if Has(e, "builder") {
      ReadsText(Member(e, "builder"), "workflowRef");
      ReadsText(Member(e, "builder"), "runnerClass");
    }
  }

  lemma ReadsWitnesses(v: Version, i: Input)
    requires Has(i.statement, "predicate") && P(i).Obj? && i.context.Obj?
    requires IsEnvironment(JsonSchema, v, Member(P(i), "environment")) && AllowlistShape(i.context)
    ensures WitnessTerms(i, ClaimOf(P(i)), TrustedOf(i.context))
  {
    var e := Member(P(i), "environment");
    assert i.Environment() == Some(e);
    assert Elements(i.Witnesses()) == ItemsMember(e, "witnesses");
    assert Elements(i.ListFromContext("verifiedWitnesses")) == ItemsMember(i.context, "verifiedWitnesses");
    forall w | w in ItemsMember(e, "witnesses")
      ensures AttestedTerm(w) && Has(w, "id")
    {
      assert IsWitness(JsonSchema, w) && "id" in w.fields;
      DigestTerm(w);
    }
    forall w | w in ItemsMember(i.context, "verifiedWitnesses")
      ensures AttestedTerm(w)
    {
      assert IsVerifiedWitness(w);
      DigestTerm(w);
    }
  }

  lemma DigestTerm(j: Value)
    requires j.Obj? && "digest" in j.fields && IsDigest(Member(j, "digest"))
    ensures Ref(Ref(Some(j), "digest"), "sha256") == Some(Str(DigestOf(j)))
  {
  }

  /** A string member that is never empty, if it is there. */
  predicate OptionalText(j: Value, key: string) {
    Has(j, key) ==> Member(j, key).Str? && Member(j, key).s != ""
  }

  lemma ReadsText(j: Value, key: string)
    requires j.Obj? && OptionalText(j, key)
    ensures ObjectGet(Some(j), key, Str("")) == OrEmpty(TextMember(j, key)) && NotEmptyText(TextMember(j, key))
  {
  }

  lemma IdentityIsText(x: Value)
    requires IdentityShape(x)
    ensures OptionalText(x, "verifiedSigner") && OptionalText(x, "verifiedBuilderId")
    ensures OptionalText(x, "verifiedWorkflowRef") && OptionalText(x, "verifiedIssuer")
  {
  }

  lemma ReadsIdentity(i: Input)
    requires Has(i.statement, "predicate") && Has(P(i), "agent") && i.context.Obj?
    requires Member(P(i), "agent").Obj? && OptionalText(Member(P(i), "agent"), "declaredIdentity")
    requires OptionalText(i.context, "verifiedSigner") && OptionalText(i.context, "verifiedBuilderId")
    requires OptionalText(i.context, "verifiedWorkflowRef") && OptionalText(i.context, "verifiedIssuer")
    ensures IdentityTerms(i, ClaimOf(P(i)), TrustedOf(i.context))
  {
    ReadsText(i.context, "verifiedSigner");
    ReadsText(i.context, "verifiedBuilderId");
    ReadsText(i.context, "verifiedWorkflowRef");
    ReadsText(i.context, "verifiedIssuer");
    ReadsText(Member(P(i), "agent"), "declaredIdentity");
  }

  lemma ReadsRunners(i: Input)
    requires i.context.Obj? && AllowlistShape(i.context)
    ensures RunnerTerms(i, TrustedOf(i.context))
  {
    var runners := ItemsMember(i.context, "allowedIsolatedRunners");
    assert Elements(i.ListFromContext("allowedIsolatedRunners")) == runners;
    forall r | r in runners
      ensures r.Str? && r.s != ""
    {
      assert IsPlainText(r, 512);
    }
  }

  lemma ReadsApproval(i: Input)
    requires Has(i.statement, "predicate") && P(i).Obj? && i.context.Obj?
    requires Has(Member(P(i), "humanApproval"), "state") && Member(Member(P(i), "humanApproval"), "state").Str?
    requires Has(i.context, "verifiedApproval") ==> IsBool(Member(i.context, "verifiedApproval"))
    requires Has(i.context, "verifiedApprovalDigest") ==> IsDigest(Member(i.context, "verifiedApprovalDigest"))
    ensures ApprovalTerms(i, ClaimOf(P(i)), TrustedOf(i.context))
  {
    if Has(i.context, "verifiedApprovalDigest") {
      assert "sha256" in Member(i.context, "verifiedApprovalDigest").fields;
    }
  }

  lemma ReadsReplay(i: Input)
    requires Has(i.statement, "predicate") && P(i).Obj? && i.context.Obj?
    requires IsRepo(JsonSchema, Member(P(i), "repo")) && IsRunId(Member(P(i), "runId"))
    requires Has(i.context, "expectedPullRequestNumber") ==> IsInteger(Member(i.context, "expectedPullRequestNumber"), 1)
    requires OptionalText(i.context, "expectedRunId")
    ensures ReplayTerms(i, ClaimOf(P(i)), TrustedOf(i.context))
  {
    ReadsText(i.context, "expectedRunId");
    var repo := Member(P(i), "repo");
    assert i.Repo() == Some(repo);
    if Has(repo, "pullRequest") {
      assert IsPullRequest(JsonSchema, Member(repo, "pullRequest"));
      assert "number" in Member(repo, "pullRequest").fields;
    }
  }

  lemma TimestampIsText(l: Layer, v: Value)
    requires IsTimestamp(l, v)
    ensures v.Str? && v.s != ""
  {
  }

  lemma ReadsClock(i: Input)
    requires Has(i.statement, "predicate") && Has(P(i), "timestamps") && i.context.Obj?
    requires Has(Member(P(i), "timestamps"), "finishedAt")
    requires Member(Member(P(i), "timestamps"), "finishedAt").Str?
    requires OptionalText(i.context, "now")
    requires Has(i.context, "freshnessWindowSeconds") ==> Member(i.context, "freshnessWindowSeconds").Num?
    ensures ClockTerms(i, ClaimOf(P(i)), TrustedOf(i.context))
  {
    ReadsText(i.context, "now");
  }

  lemma DigestIsItsText(v: Value)
    requires IsDigest(v)
    ensures v == DigestValue(TextOf(v, "sha256")) && TextMember(v, "sha256").Some?
  {
    assert v.fields.Keys == {"sha256"};
    assert v.fields == map["sha256" := v.fields["sha256"]];
  }

  lemma ReadsDigest(j: Value, key: string)
    requires j.Obj? && (Has(j, key) ==> IsDigest(Member(j, key)))
    ensures ObjectGet(Some(j), key, EmptyObject) == Some(DigestOrEmpty(TextMember(Member(j, key), "sha256")))
    ensures TextMember(Member(j, key), "sha256").Some? <==> Has(j, key)
  {
    if Has(j, key) {
      DigestIsItsText(Member(j, key));
    }
  }

  lemma ReadsDeclaredConfig(p: Value)
    requires p.Obj?
    requires Has(p, "agentConfig") ==>
               Has(Member(p, "agentConfig"), "primaryDigest") && IsDigest(Member(Member(p, "agentConfig"), "primaryDigest"))
    ensures Count(ObjectGet(Some(p), "agentConfig", EmptyObject)) == Some(0) <==> !Has(p, "agentConfig")
    ensures ObjectGet(ObjectGet(Some(p), "agentConfig", EmptyObject), "primaryDigest", EmptyObject)
         == Some(DigestOrEmpty(TextMember(Member(Member(p, "agentConfig"), "primaryDigest"), "sha256")))
    ensures TextMember(Member(Member(p, "agentConfig"), "primaryDigest"), "sha256").Some? <==> Has(p, "agentConfig")
  {
    if Has(p, "agentConfig") {
      ReadsDigest(Member(p, "agentConfig"), "primaryDigest");
    }
  }

  lemma ReadsConfig(i: Input)
    requires Has(i.statement, "predicate") && P(i).Obj? && i.context.Obj?
    requires Has(P(i), "agentConfig") ==>
               Has(Member(P(i), "agentConfig"), "primaryDigest") && IsDigest(Member(Member(P(i), "agentConfig"), "primaryDigest"))
    requires Has(i.context, "verifiedAgentConfig") ==> IsDigest(Member(i.context, "verifiedAgentConfig"))
    ensures ConfigTerms(i, ClaimOf(P(i)), TrustedOf(i.context))
  {
    ReadsDigest(i.context, "verifiedAgentConfig");
    ReadsDeclaredConfig(P(i));
    assert i.Predicate() == Some(P(i));
  }

  lemma ReadsMcp(i: Input)
    requires Has(i.statement, "predicate") && P(i).Obj? && i.context.Obj?
    requires HarnessShape(JsonSchema, P(i)) && AllowlistShape(i.context)
    ensures McpTerms(i, ClaimOf(P(i)), TrustedOf(i.context))
  {
    assert Elements(i.McpServers()) == ItemsMember(P(i), "mcpServers");
    assert Elements(i.ListFromContext("verifiedMcpServers")) == ItemsMember(i.context, "verifiedMcpServers");
    forall m | m in ItemsMember(P(i), "mcpServers")
      ensures Has(m, "name") && Ref(Ref(Some(m), "digest"), "sha256") == Some(Str(DigestOf(m)))
    {
      assert IsMcpServer(JsonSchema, m) && "name" in m.fields;
      DigestTerm(m);
    }
    forall d | d in ItemsMember(i.context, "verifiedMcpServers")
      ensures Ref(Some(d), "sha256") == Some(Str(TextOf(d, "sha256")))
    {
      assert IsDigest(d);
    }
  }

  lemma ReadsDelegation(i: Input)
    requires Has(i.statement, "predicate") && P(i).Obj? && i.context.Obj?
    requires HarnessShape(JsonSchema, P(i)) && AllowlistShape(i.context)
    ensures DelegationTerms(i, ClaimOf(P(i)), TrustedOf(i.context))
  {
    var d := Member(P(i), "delegation");
    assert Elements(i.DelegationChain()) == ItemsMember(d, "delegationChain");
    assert Elements(i.ListFromContext("verifiedDelegation")) == ItemsMember(i.context, "verifiedDelegation");
    forall step | step in ItemsMember(d, "delegationChain")
      ensures Ref(Some(step), "agentRef") == Some(Str(TextOf(step, "agentRef")))
    {
      assert IsDelegationStep(JsonSchema, step) && "agentRef" in step.fields;
    }
  }

  lemma ReadsCapture(i: Input)
    requires Has(i.statement, "predicate") && P(i).Obj? && HarnessShape(JsonSchema, P(i))
    ensures CaptureTerms(i, ClaimOf(P(i)))
  {
    if Has(P(i), "capture") {
      assert "method" in Member(P(i), "capture").fields;
    }
  }

  lemma AddedInV1(key: string)
    requires key in OPTIONAL_V1
    ensures key !in REQUIRED + OPTIONAL
  {
  }

  /** A version 0 predicate has none of the members version 1 adds. */
  lemma HarnessShapeHolds(l: Layer, v: Version, p: Value)
    requires Closed(p, REQUIRED, if v.V1? then OPTIONAL + OPTIONAL_V1 else OPTIONAL)
    requires v.V1? ==> HarnessShape(l, p)
    ensures HarnessShape(l, p)
  {
    if v.V0? {
      AddedInV1("capture");
      AddedInV1("agentConfig");
      AddedInV1("mcpServers");
      AddedInV1("tools");
      AddedInV1("delegation");
    }
  }
}
