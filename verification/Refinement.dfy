/** The rules of the default policy decide exactly the typed gates. */
module Refinement {
  import opened Basics
  import opened Json
  import opened Rego
  import opened FailureCodes
  import opened Schema
  import opened Policy
  import opened Views
  import opened Reading
  import opened StableSort
  import G = Gates

  lemma PolicyOrHigherAgrees(i: Input, c: G.Claim, x: G.Trusted)
    requires LevelTerms(i, c, x)
    ensures i.PolicyOrHigher() <==> c.PolicyOrHigher()
    ensures i.LevelIs("high-assurance") <==> c.level.HighAssurance?
    ensures LevelBelowRequiredRule(i) <==> !G.LevelMet(c, x)
  {
  }

  lemma PrivacyAgrees(i: Input, c: G.Claim)
    requires EvidenceTerms(i, c) && ExtensionTerms(i, c)
    ensures PrivacyRules(i) <==> !G.PrivacyKept(c)
  {
    forall t | t in c.evidence
      ensures exists e | e in Elements(i.EvidenceRefs()) :: EvidenceOf(e) == t && EvidenceTerm(e)
    {
    }
  }

  lemma EarnedAtPolicyGrade(i: Input, c: G.Claim, x: G.Trusted)
    requires LevelTerms(i, c, x) && EvidenceTerms(i, c) && BuilderTerms(i, c)
    ensures LocalOnlyEvidenceRule(i) || LocalExecutionRule(i) || NoBuilderRule(i) <==>
            c.PolicyOrHigher() &&
              !((forall e | e in c.evidence :: e.storage != "local-only") && c.executionType != "local" && c.builder.Some?)
  {
    PolicyOrHigherAgrees(i, c, x);
    LocalOnlyAgrees(i, c);
  }

  lemma EscalationAgrees(i: Input, c: G.Claim, x: G.Trusted)
    requires LevelTerms(i, c, x) && EvidenceTerms(i, c) && BuilderTerms(i, c) && WitnessTerms(i, c, x)
    requires ApprovalTerms(i, c, x) && CaptureTerms(i, c)
    ensures EscalationRules(i) <==> !G.LevelEarned(c)
  {
    EarnedAtPolicyGrade(i, c, x);
    NoWitnessAgrees(i, c, x);
  }

  lemma LocalOnlyAgrees(i: Input, c: G.Claim)
    requires EvidenceTerms(i, c)
    ensures (exists e | e in Elements(i.EvidenceRefs()) :: Is(Ref(Some(e), "storage"), Str("local-only")))
       <==> exists t | t in c.evidence :: t.storage == "local-only"
  {
    if e :| e in Elements(i.EvidenceRefs()) && Is(Ref(Some(e), "storage"), Str("local-only")) {
      assert EvidenceOf(e) in c.evidence;
    }
  }

  lemma NoWitnessAgrees(i: Input, c: G.Claim, x: G.Trusted)
    requires WitnessTerms(i, c, x)
    ensures Count(i.Witnesses()) == Some(0) <==> c.witnesses == {}
  {
    if Elements(i.Witnesses()) != [] {
      assert AttestedOf(Elements(i.Witnesses())[0]) in c.witnesses;
    }
  }

  lemma BuilderAgrees(i: Input, c: G.Claim, x: G.Trusted)
    requires LevelTerms(i, c, x) && BuilderTerms(i, c) && IdentityTerms(i, c, x) && RunnerTerms(i, x)
    ensures BuilderRules(i) <==> !G.BuilderBound(c, x)
  {
    PolicyOrHigherAgrees(i, c, x);
    RunnerListed(i, c, x);
  }

  lemma RunnerListed(i: Input, c: G.Claim, x: G.Trusted)
    requires BuilderTerms(i, c) && RunnerTerms(i, x)
    ensures ArrayContains(i.ListFromContext("allowedIsolatedRunners"), ObjectGet(i.Builder(), "id", Str("")))
       <==> c.builder.Some? && c.builder.value.id in x.isolatedRunners
  {
    var id := if c.builder.Some? then c.builder.value.id else "";
    if id in x.isolatedRunners {
      var r :| r in Elements(i.ListFromContext("allowedIsolatedRunners")) && r.Str? && r.s == id;
    }
  }

  lemma SignerAgrees(i: Input, c: G.Claim, x: G.Trusted)
    requires LevelTerms(i, c, x) && IdentityTerms(i, c, x)
    ensures NoVerifiedSignerRule(i) || DeclaredIdentityRule(i) <==> !G.SignerBound(c, x)
  {
    PolicyOrHigherAgrees(i, c, x);
  }

  lemma WitnessAgrees(i: Input, c: G.Claim, x: G.Trusted)
    requires WitnessTerms(i, c, x)
    ensures UnbackedWitnessRule(i) <==> !G.WitnessesBacked(c, x)
  {
    forall w | w in Elements(i.Witnesses())
      ensures VerifiedWitnessMatches(i, w) <==> AttestedOf(w) in x.witnesses
    {
      assert AttestedTerm(w);
      forall verified | verified in Elements(i.ListFromContext("verifiedWitnesses"))
        ensures AttestedTerm(verified)
      {
      }
    }
  }

  lemma KindListed(i: Input, c: G.Claim, kind: string)
    requires EvidenceTerms(i, c)
    ensures HasEvidenceType(i, kind) <==> G.HasKind(c, kind)
  {
    if e :| e in Elements(i.EvidenceRefs()) && Is(Ref(Some(e), "type"), Str(kind)) {
      assert EvidenceOf(e) in c.evidence;
    }
  }

  lemma ApprovalAgrees(i: Input, c: G.Claim, x: G.Trusted)
    requires LevelTerms(i, c, x) && EvidenceTerms(i, c) && ApprovalTerms(i, c, x)
    ensures ApprovalRules(i)
       <==> c.level.HighAssurance? && !G.ApprovalProven(c, x)
  {
    PolicyOrHigherAgrees(i, c, x);
    KindListed(i, c, "approval");
    ApprovalMatch(i, c, x);
  }

  lemma ApprovalMatch(i: Input, c: G.Claim, x: G.Trusted)
    requires EvidenceTerms(i, c) && ApprovalTerms(i, c, x)
    ensures ApprovalEvidenceMatches(i)
       <==> x.approvalDigest.Some? && exists t | t in c.evidence :: t.kind == "approval" && Some(t.sha256) == x.approvalDigest
  {
    if ApprovalEvidenceMatches(i) {
      var e :| e in Elements(i.EvidenceRefs()) && Is(Ref(Some(e), "type"), Str("approval"))
        && Is(Ref(Ref(Some(e), "digest"), "sha256"), Str(x.approvalDigest.GetOr("")));
      assert EvidenceTerm(e) && EvidenceOf(e) in c.evidence;
    }
  }

  lemma ConfigAgrees(i: Input, c: G.Claim, x: G.Trusted)
    requires LevelTerms(i, c, x) && ConfigTerms(i, c, x)
    ensures NoAgentConfigRule(i) <==> c.level.HighAssurance? && c.version.V1? && c.agentConfig.None?
    ensures AgentConfigRule(i) <==> x.agentConfig.Some? && c.agentConfig != x.agentConfig
  {
    PolicyOrHigherAgrees(i, c, x);
  }

  lemma McpLists(i: Input, c: G.Claim, x: G.Trusted)
    requires McpTerms(i, c, x)
    ensures NonEmpty(i.McpServers()) <==> c.mcpServers != {}
    ensures NonEmpty(i.ListFromContext("verifiedMcpServers")) <==> x.mcpServers != {}
    ensures forall m | m in Elements(i.McpServers()) :: McpServerVerified(i, m) <==> DigestOf(m) in x.mcpServers
  {
    var servers, verified := Elements(i.McpServers()), Elements(i.ListFromContext("verifiedMcpServers"));
    assert servers != [] ==> DigestOf(servers[0]) in c.mcpServers;
    assert verified != [] ==> TextOf(verified[0], "sha256") in x.mcpServers;
    forall m | m in servers && DigestOf(m) in x.mcpServers
      ensures McpServerVerified(i, m)
    {
      var d :| d in verified && TextOf(d, "sha256") == DigestOf(m);
    }
  }

  lemma McpAgrees(i: Input, c: G.Claim, x: G.Trusted)
    requires LevelTerms(i, c, x) && McpTerms(i, c, x)
    ensures NoMcpAllowlistRule(i) || McpServerRule(i) <==> !G.Allowed(c, c.mcpServers, x.mcpServers)
  {
    PolicyOrHigherAgrees(i, c, x);
    McpLists(i, c, x);
  }

  lemma DelegationLists(i: Input, c: G.Claim, x: G.Trusted)
    requires DelegationTerms(i, c, x)
    ensures NonEmpty(i.DelegationChain()) <==> c.delegation != {}
    ensures NonEmpty(i.ListFromContext("verifiedDelegation")) <==> x.delegation != {}
    ensures forall d | d in Elements(i.DelegationChain()) ::
              ArrayContains(i.ListFromContext("verifiedDelegation"), Ref(Some(d), "agentRef"))
              <==> TextOf(d, "agentRef") in x.delegation
  {
    var chain, verified := Elements(i.DelegationChain()), Elements(i.ListFromContext("verifiedDelegation"));
    assert chain != [] ==> TextOf(chain[0], "agentRef") in c.delegation;
    assert verified != [] ==> verified[0].s in x.delegation;
    forall d | d in chain && TextOf(d, "agentRef") in x.delegation
      ensures ArrayContains(i.ListFromContext("verifiedDelegation"), Ref(Some(d), "agentRef"))
    {
      var r :| r in verified && r.Str? && r.s == TextOf(d, "agentRef");
    }
  }

  lemma DelegationAgrees(i: Input, c: G.Claim, x: G.Trusted)
    requires LevelTerms(i, c, x) && DelegationTerms(i, c, x)
    ensures NoDelegationAllowlistRule(i) || DelegationRule(i) <==> !G.Allowed(c, c.delegation, x.delegation)
  {
    PolicyOrHigherAgrees(i, c, x);
    DelegationLists(i, c, x);
  }

  lemma ReplayAgrees(i: Input, c: G.Claim, x: G.Trusted)
    requires ReplayTerms(i, c, x)
    ensures PullRequestRule(i) || RunIdRule(i) <==> !G.NotReplayed(c, x)
  {
  }

  lemma ClockAgrees(i: Input, c: G.Claim, x: G.Trusted)
    requires ClockTerms(i, c, x)
    ensures NoClockRule(i) || StaleRule(i) <==> !G.Fresh(c, x)
  {
  }

  lemma AllowlistsAgree(i: Input, c: G.Claim, x: G.Trusted)
    requires LevelTerms(i, c, x) && McpTerms(i, c, x) && DelegationTerms(i, c, x)
    ensures AllowlistRules(i) <==> !G.Allowed(c, c.mcpServers, x.mcpServers) || !G.Allowed(c, c.delegation, x.delegation)
  {
    McpAgrees(i, c, x);
    DelegationAgrees(i, c, x);
  }

  lemma TraceAgrees(i: Input, c: G.Claim, x: G.Trusted)
    requires LevelTerms(i, c, x) && EvidenceTerms(i, c)
    ensures NoTraceRule(i) <==> c.level.HighAssurance? && !G.HasKind(c, "trace")
  {
    PolicyOrHigherAgrees(i, c, x);
    KindListed(i, c, "trace");
  }

  lemma SubjectAgreement(t: Value, e: Value)
    requires IsContextSubject(e)
    ensures SubjectAgrees(t, e) <==> G.Names(StatementSubjectOf(t), ContextSubjectOf(e))
  {
    assert "name" in e.fields && "algorithm" in e.fields && "digest" in e.fields;
  }

  lemma PluckedNames(xs: seq<Value>)
    requires forall e | e in xs :: IsContextSubject(e)
    ensures |Pluck(xs, "name")| == |xs|
    ensures forall k | 0 <= k < |xs| :: Pluck(xs, "name")[k] == Str(ContextSubjectOf(xs[k]).name)
  {
    if xs != [] {
      assert IsContextSubject(xs[0]) && "name" in xs[0].fields;
      PluckedNames(xs[1..]);
    }
  }

  lemma DistinctNamesAgree(i: Input)
    requires i.context.Obj? && Has(i.context, "subjects") && Member(i.context, "subjects").Arr?
    requires forall e | e in ItemsMember(i.context, "subjects") :: IsContextSubject(e)
    ensures DuplicateSubjectsRule(i) <==> !G.NamesDistinct(ContextSubjectsOf(i.context))
  {
    var items, subjects := ItemsMember(i.context, "subjects"), ContextSubjectsOf(i.context);
    var names := Pluck(items, "name");
    PluckedNames(items);
    DistinctIffAsLong(names);
    assert forall k | 0 <= k < |items| :: names[k] == Str(subjects[k].name);
    if G.NamesDistinct(subjects) {
      assert Distinct(names);
    } else {
      var j, k :| 0 <= j < k < |subjects| && subjects[j].name == subjects[k].name;
      assert names[j] == names[k];
    }
  }

  lemma ContextSubjectMembers(x: Value)
    ensures forall v | v in ItemsMember(x, "subjects") :: ContextSubjectOf(v) in ContextSubjectsOf(x)
    ensures forall e | e in ContextSubjectsOf(x) :: exists v | v in ItemsMember(x, "subjects") :: ContextSubjectOf(v) == e
  {
    var items := ItemsMember(x, "subjects");
    forall v | v in items
      ensures ContextSubjectOf(v) in ContextSubjectsOf(x)
    {
      var k :| 0 <= k < |items| && items[k] == v;
      assert ContextSubjectsOf(x)[k] == ContextSubjectOf(v);
    }
  }

  lemma StatementSubjectMembers(s: Value)
    ensures forall v | v in ItemsMember(s, "subject") :: StatementSubjectOf(v) in SubjectsOf(s)
    ensures forall t | t in SubjectsOf(s) :: exists v | v in ItemsMember(s, "subject") :: StatementSubjectOf(v) == t
  {
    var items := ItemsMember(s, "subject");
    forall v | v in items
      ensures StatementSubjectOf(v) in SubjectsOf(s)
    {
      var k :| 0 <= k < |items| && items[k] == v;
      assert SubjectsOf(s)[k] == StatementSubjectOf(v);
    }
  }

  lemma MatchedByStatement(i: Input, e: Value)
    requires i.statement.Obj? && IsContextSubject(e)
    ensures StatementSubjectMatches(i, e) <==> exists t | t in SubjectsOf(i.statement) :: G.Names(t, ContextSubjectOf(e))
  {
    StatementSubjectMembers(i.statement);
    assert Elements(i.StatementSubjects()) == ItemsMember(i.statement, "subject");
    forall v
      ensures SubjectAgrees(v, e) <==> G.Names(StatementSubjectOf(v), ContextSubjectOf(e))
    {
      SubjectAgreement(v, e);
    }
  }

  lemma MatchedByContext(i: Input, v: Value)
    requires i.context.Obj?
    requires forall e | e in ItemsMember(i.context, "subjects") :: IsContextSubject(e)
    requires Elements(i.ContextSubjects()) == ItemsMember(i.context, "subjects")
    ensures ContextSubjectMatches(i, v) <==> exists e | e in ContextSubjectsOf(i.context) :: G.Names(StatementSubjectOf(v), e)
  {
    ContextSubjectMembers(i.context);
    forall e | e in ItemsMember(i.context, "subjects")
      ensures SubjectAgrees(v, e) <==> G.Names(StatementSubjectOf(v), ContextSubjectOf(e))
    {
      SubjectAgreement(v, e);
    }
  }

  lemma MissingAgrees(i: Input)
    requires i.statement.Obj? && i.context.Obj?
    requires forall e | e in ItemsMember(i.context, "subjects") :: IsContextSubject(e)
    requires Elements(i.ContextSubjects()) == ItemsMember(i.context, "subjects")
    ensures MissingSubjectRule(i) <==>
            !forall e | e in ContextSubjectsOf(i.context) :: exists t | t in SubjectsOf(i.statement) :: G.Names(t, e)
  {
    ContextSubjectMembers(i.context);
    forall e | e in ItemsMember(i.context, "subjects")
      ensures Has(e, "name")
      ensures StatementSubjectMatches(i, e) <==> exists t | t in SubjectsOf(i.statement) :: G.Names(t, ContextSubjectOf(e))
    {
      assert IsContextSubject(e) && "name" in e.fields;
      MatchedByStatement(i, e);
    }
  }

  lemma UnexpectedAgrees(i: Input)
    requires i.statement.Obj? && i.context.Obj?
    requires forall e | e in ItemsMember(i.context, "subjects") :: IsContextSubject(e)
    requires Elements(i.ContextSubjects()) == ItemsMember(i.context, "subjects")
    ensures UnexpectedSubjectRule(i) <==>
            !forall t | t in SubjectsOf(i.statement) && t.keyed :: exists e | e in ContextSubjectsOf(i.context) :: G.Names(t, e)
  {
    StatementSubjectMembers(i.statement);
    assert Elements(i.StatementSubjects()) == ItemsMember(i.statement, "subject");
    forall v
      ensures ContextSubjectMatches(i, v) <==> exists e | e in ContextSubjectsOf(i.context) :: G.Names(StatementSubjectOf(v), e)
    {
      MatchedByContext(i, v);
    }
  }

  lemma SubjectsAgree(i: Input)
    requires i.statement.Obj? && i.context.Obj? && Has(i.context, "subjects") && Member(i.context, "subjects").Arr?
    requires forall e | e in ItemsMember(i.context, "subjects") :: IsContextSubject(e)
    ensures SubjectRules(i) <==> !G.SubjectsBound(SubjectsOf(i.statement), TrustedOf(i.context))
  {
    assert Elements(i.ContextSubjects()) == ItemsMember(i.context, "subjects");
    DistinctNamesAgree(i);
    MissingAgrees(i);
    UnexpectedAgrees(i);
  }

  function Claimed(i: Input): G.Claim {
    ClaimOf(P(i))
  }

  function Known(i: Input): G.Trusted {
    TrustedOf(i.context)
  }

  lemma ObjectsChecked(v: Version, i: Input)
    requires Checked(v, i)
    ensures P(i).Obj? && i.context.Obj?
  {
    assert PredicatePart(Keys, JsonSchema, v, P(i)) && ContextPart(Keys, i.context);
  }

  lemma CoreChecked(v: Version, i: Input)
    requires Checked(v, i)
    ensures CoreShape(JsonSchema, v, P(i))
  {
    assert PredicatePart(Core, JsonSchema, v, P(i));
  }

  lemma EnvironmentChecked(v: Version, i: Input)
    requires Checked(v, i)
    ensures Has(P(i), "environment") && IsEnvironment(JsonSchema, v, Member(P(i), "environment"))
  {
    CoreChecked(v, i);
  }

  lemma AgentChecked(v: Version, i: Input)
    requires Checked(v, i)
    ensures Has(P(i), "agent") && Member(P(i), "agent").Obj?
    ensures OptionalText(Member(P(i), "agent"), "declaredIdentity")
  {
    CoreChecked(v, i);
  }

  lemma ApprovalChecked(v: Version, i: Input)
    requires Checked(v, i)
    ensures Has(Member(P(i), "humanApproval"), "state") && Member(Member(P(i), "humanApproval"), "state").Str?
  {
    CoreChecked(v, i);
  }

  lemma RepoChecked(v: Version, i: Input)
    requires Checked(v, i)
    ensures IsRepo(JsonSchema, Member(P(i), "repo")) && IsRunId(Member(P(i), "runId"))
  {
    CoreChecked(v, i);
  }

  lemma TimesChecked(v: Version, i: Input)
    requires Checked(v, i)
    ensures Has(P(i), "timestamps") && Has(Member(P(i), "timestamps"), "finishedAt")
    ensures Member(Member(P(i), "timestamps"), "finishedAt").Str?
  {
    CoreChecked(v, i);
  }

  lemma ClockChecked(v: Version, i: Input)
    requires Checked(v, i)
    ensures OptionalText(i.context, "now")
    ensures Has(i.context, "freshnessWindowSeconds") ==> Member(i.context, "freshnessWindowSeconds").Num?
  {
    assert ContextPart(Extras, i.context);
    if Has(i.context, "now") {
      TimestampIsText(JsonSchema, Member(i.context, "now"));
    }
  }

  lemma HarnessChecked(v: Version, i: Input)
    requires Checked(v, i)
    ensures HarnessShape(JsonSchema, P(i))
  {
    assert PredicatePart(Keys, JsonSchema, v, P(i)) && PredicatePart(Harness, JsonSchema, v, P(i));
    HarnessShapeHolds(JsonSchema, v, P(i));
  }

  lemma LevelTermsHold(v: Version, i: Input)
    requires Checked(v, i)
    ensures LevelTerms(i, Claimed(i), Known(i)) && RepoTerms(i, Claimed(i), Known(i))
  {
    ObjectsChecked(v, i);
    CoreChecked(v, i);
    assert ContextPart(Core, i.context);
    ReadsLevel(v, i);
    ReadsRepo(i);
  }

  lemma EvidenceTermsHold(v: Version, i: Input)
    requires Checked(v, i)
    ensures EvidenceTerms(i, Claimed(i)) && ExtensionTerms(i, Claimed(i))
  {
    ObjectsChecked(v, i);
    CoreChecked(v, i);
    assert PredicatePart(Extras, JsonSchema, v, P(i));
    ReadsEvidence(v, i);
    ReadsExtensions(i);
  }

  lemma BuilderTermsHold(v: Version, i: Input)
    requires Checked(v, i)
    ensures BuilderTerms(i, Claimed(i)) && RunnerTerms(i, Known(i))
  {
    ObjectsChecked(v, i);
    EnvironmentChecked(v, i);
    assert ContextPart(Harness, i.context);
    EnvironmentTexts(v, Member(P(i), "environment"));
    ReadsBuilder(i);
    ReadsRunners(i);
  }

  lemma WitnessTermsHold(v: Version, i: Input)
    requires Checked(v, i)
    ensures WitnessTerms(i, Claimed(i), Known(i))
  {
    ObjectsChecked(v, i);
    EnvironmentChecked(v, i);
    assert ContextPart(Harness, i.context);
    ReadsWitnesses(v, i);
  }

  lemma IdentityTermsHold(v: Version, i: Input)
    requires Checked(v, i)
    ensures IdentityTerms(i, Claimed(i), Known(i))
  {
    ObjectsChecked(v, i);
    AgentChecked(v, i);
    assert ContextPart(Extras, i.context);
    IdentityIsText(i.context);
    ReadsIdentity(i);
  }

  lemma ApprovalTermsHold(v: Version, i: Input)
    requires Checked(v, i)
    ensures ApprovalTerms(i, Claimed(i), Known(i)) && CaptureTerms(i, Claimed(i))
  {
    ObjectsChecked(v, i);
    ApprovalChecked(v, i);
    HarnessChecked(v, i);
    assert ContextPart(Harness, i.context);
    ReadsApproval(i);
    ReadsCapture(i);
  }

  lemma ReplayTermsHold(v: Version, i: Input)
    requires Checked(v, i)
    ensures ReplayTerms(i, Claimed(i), Known(i))
  {
    ObjectsChecked(v, i);
    RepoChecked(v, i);
    assert ContextPart(Extras, i.context);
    ReadsReplay(i);
  }

  lemma ClockTermsHold(v: Version, i: Input)
    requires Checked(v, i)
    ensures ClockTerms(i, Claimed(i), Known(i))
  {
    ObjectsChecked(v, i);
    TimesChecked(v, i);
    ClockChecked(v, i);
    ReadsClock(i);
  }

  lemma ConfigTermsHold(v: Version, i: Input)
    requires Checked(v, i)
    ensures ConfigTerms(i, Claimed(i), Known(i))
  {
    ObjectsChecked(v, i);
    HarnessChecked(v, i);
    assert ContextPart(Harness, i.context);
    ReadsConfig(i);
  }

  lemma AllowlistTermsHold(v: Version, i: Input)
    requires Checked(v, i)
    ensures McpTerms(i, Claimed(i), Known(i)) && DelegationTerms(i, Claimed(i), Known(i))
  {
    ObjectsChecked(v, i);
    HarnessChecked(v, i);
    assert ContextPart(Harness, i.context);
    ReadsMcp(i);
    ReadsDelegation(i);
  }

  lemma RefinesLevel(v: Version, i: Input)
    requires Checked(v, i)
    ensures LevelBelowRequiredRule(i) <==> !G.LevelMet(Claimed(i), Known(i))
    ensures RepoUrlRule(i) <==> Claimed(i).repoUrl != Known(i).repoUrl
    ensures BaseCommitRule(i) <==> Claimed(i).baseCommit != Known(i).baseCommit
  {
    LevelTermsHold(v, i);
    PolicyOrHigherAgrees(i, Claimed(i), Known(i));
  }

  lemma RefinesSubjects(v: Version, i: Input)
    requires Checked(v, i)
    ensures SubjectRules(i) <==> !G.SubjectsBound(SubjectsOf(i.statement), Known(i))
  {
    ObjectsChecked(v, i);
    assert ContextPart(Core, i.context) && ContextPart(Keys, i.context);
    SubjectsAgree(i);
  }

  lemma RefinesPrivacy(v: Version, i: Input)
    requires Checked(v, i)
    ensures PrivacyRules(i) <==> !G.PrivacyKept(Claimed(i))
  {
    EvidenceTermsHold(v, i);
    PrivacyAgrees(i, Claimed(i));
  }

  lemma RefinesEscalation(v: Version, i: Input)
    requires Checked(v, i)
    ensures EscalationRules(i) <==> !G.LevelEarned(Claimed(i))
  {
    LevelTermsHold(v, i);
    EvidenceTermsHold(v, i);
    BuilderTermsHold(v, i);
    WitnessTermsHold(v, i);
    ApprovalTermsHold(v, i);
    EscalationAgrees(i, Claimed(i), Known(i));
  }

  lemma RefinesIdentity(v: Version, i: Input)
    requires Checked(v, i)
    ensures BuilderRules(i) <==> !G.BuilderBound(Claimed(i), Known(i))
    ensures NoVerifiedSignerRule(i) || DeclaredIdentityRule(i) <==> !G.SignerBound(Claimed(i), Known(i))
    ensures UnbackedWitnessRule(i) <==> !G.WitnessesBacked(Claimed(i), Known(i))
  {
    LevelTermsHold(v, i);
    BuilderTermsHold(v, i);
    WitnessTermsHold(v, i);
    IdentityTermsHold(v, i);
    BuilderAgrees(i, Claimed(i), Known(i));
    SignerAgrees(i, Claimed(i), Known(i));
    WitnessAgrees(i, Claimed(i), Known(i));
  }

  lemma RefinesEvidence(v: Version, i: Input)
    requires Checked(v, i)
    ensures ApprovalRules(i) <==> Claimed(i).level.HighAssurance? && !G.ApprovalProven(Claimed(i), Known(i))
    ensures NoTraceRule(i) <==> Claimed(i).level.HighAssurance? && !G.HasKind(Claimed(i), "trace")
  {
    LevelTermsHold(v, i);
    EvidenceTermsHold(v, i);
    ApprovalTermsHold(v, i);
    ApprovalAgrees(i, Claimed(i), Known(i));
    TraceAgrees(i, Claimed(i), Known(i));
  }

  lemma RefinesAllowlists(v: Version, i: Input)
    requires Checked(v, i)
    ensures NoAgentConfigRule(i) <==>
            Claimed(i).level.HighAssurance? && Claimed(i).version.V1? && Claimed(i).agentConfig.None?
    ensures AgentConfigRule(i) <==> Known(i).agentConfig.Some? && Claimed(i).agentConfig != Known(i).agentConfig
    ensures AllowlistRules(i) <==>
            !(G.Allowed(Claimed(i), Claimed(i).mcpServers, Known(i).mcpServers)
              && G.Allowed(Claimed(i), Claimed(i).delegation, Known(i).delegation))
  {
    LevelTermsHold(v, i);
    ConfigTermsHold(v, i);
    AllowlistTermsHold(v, i);
    ConfigAgrees(i, Claimed(i), Known(i));
    AllowlistsAgree(i, Claimed(i), Known(i));
  }

  lemma RefinesReplay(v: Version, i: Input)
    requires Checked(v, i)
    ensures PullRequestRule(i) || RunIdRule(i) <==> !G.NotReplayed(Claimed(i), Known(i))
    ensures NoClockRule(i) || StaleRule(i) <==> !G.Fresh(Claimed(i), Known(i))
  {
    ReplayTermsHold(v, i);
    ClockTermsHold(v, i);
    ReplayAgrees(i, Claimed(i), Known(i));
    ClockAgrees(i, Claimed(i), Known(i));
  }

  /**
   On documents that passed the schemas, evaluating the policy with undefined terms reports exactly
   the codes whose typed gate does not hold.
   */
  lemma PolicyRefinesGates(v: Version, i: Input, code: Code)
    requires Checked(v, i)
    ensures Denies(i, code) <==> !G.Holds(code, Claimed(i), SubjectsOf(i.statement), Known(i))
  {
    hide Checked, Claimed, Known, SubjectsOf;
    hide LevelBelowRequiredRule, RepoUrlRule, BaseCommitRule, SubjectRules, PrivacyRules, EscalationRules, BuilderRules;
    hide NoVerifiedSignerRule, DeclaredIdentityRule, UnbackedWitnessRule, ApprovalRules, NoAgentConfigRule;
    hide AgentConfigRule, AllowlistRules, NoTraceRule, PullRequestRule, RunIdRule, NoClockRule, StaleRule;
    match code
    case LevelBelowRequired => RefinesLevel(v, i);
    case RepoUrlMismatch => RefinesLevel(v, i);
    case BaseCommitMismatch => RefinesLevel(v, i);
    case SubjectDigestMismatch => RefinesSubjects(v, i);
    case PrivacyViolation => RefinesPrivacy(v, i);
    case LevelEscalation => RefinesEscalation(v, i);
    case BuilderIdentityMismatch => RefinesIdentity(v, i);
    case SignerIdentityMismatch => RefinesIdentity(v, i);
    case TransparencyVerificationFailed => RefinesIdentity(v, i);
    case MissingEvidence =>
      RefinesEvidence(v, i);
      RefinesAllowlists(v, i);
    case ReplayDetected => RefinesReplay(v, i);
    case StaleAttestation => RefinesReplay(v, i);
    case _ =>
  }
}
