/** The identity a verified certificate stands for, and the context it is merged into. */
module Identity {
  import opened Json
  import opened Produced

  /** The parts of a certificate that carry identity; `issuer` is "" without an issuer extension. */
  datatype Certificate = Certificate(
    uris: seq<string>,
    emails: seq<string>,
    dnsNames: seq<string>,
    commonName: string,
    issuer: string
  )

  datatype VerifiedContext = VerifiedContext(signer: string, builderId: string, workflowRef: string, issuer: string)

  predicate Contains(s: string, part: string) {
    exists i | 0 <= i <= |s| :: part <= s[i..]
  }

  predicate IsWorkflowRef(s: string) {
    "https://github.com/" <= s && Contains(s, "/.github/workflows/")
  }

  /** The first name a certificate holds: its URIs come before its emails, DNS names and common name. */
  function SignerOf(cert: Certificate): string {
    (cert.uris + cert.emails + cert.dnsNames + [cert.commonName])[0]
  }

  /** The workflow a certificate was issued to; only a first URI counts as one. */
  function WorkflowOf(cert: Certificate): string {
    if cert.uris != [] && IsWorkflowRef(cert.uris[0]) then cert.uris[0] else ""
  }

  method IdentityFromCert(cert: Certificate) returns (vc: VerifiedContext)
    ensures vc == VerifiedContext(SignerOf(cert), WorkflowOf(cert), WorkflowOf(cert), cert.issuer)
    ensures cert.uris != [] ==> vc.signer == cert.uris[0]
    ensures cert.uris == [] && cert.emails != [] ==> vc.signer == cert.emails[0]
    ensures cert.uris == [] && cert.emails == [] && cert.dnsNames != [] ==> vc.signer == cert.dnsNames[0]
    ensures cert.uris == [] && cert.emails == [] && cert.dnsNames == [] ==> vc.signer == cert.commonName
    ensures vc.issuer == cert.issuer && vc.builderId == vc.workflowRef
    ensures vc.workflowRef ==
              if && cert.uris != [] && "https://github.com/" <= cert.uris[0]
                 && exists i | 0 <= i <= |cert.uris[0]| :: "/.github/workflows/" <= cert.uris[0][i..]
              then cert.uris[0] else ""
  {
    vc := VerifiedContext("", "", "", cert.issuer);
    if |cert.uris| > 0 {
      vc := vc.(signer := cert.uris[0]);
      if IsWorkflowRef(vc.signer) {
        vc := vc.(workflowRef := vc.signer);
        vc := vc.(builderId := vc.signer);
      }
    } else if |cert.emails| > 0 {
      vc := vc.(signer := cert.emails[0]);
    } else if |cert.dnsNames| > 0 {
      vc := vc.(signer := cert.dnsNames[0]);
    } else {
      vc := vc.(signer := cert.commonName);
    }
  }

  function IdentityFields(vc: VerifiedContext): map<string, Value> {
    var signed := PutText(PutText(map[], "verifiedSigner", vc.signer), "verifiedBuilderId", vc.builderId);
    PutText(PutText(signed, "verifiedWorkflowRef", vc.workflowRef), "verifiedIssuer", vc.issuer)
  }

  method ToContextMap(vc: VerifiedContext) returns (out: map<string, Value>)
    ensures out == IdentityFields(vc)
  {
    out := map[];
    if vc.signer != "" {
      out := out["verifiedSigner" := Str(vc.signer)];
    }
    if vc.builderId != "" {
      out := out["verifiedBuilderId" := Str(vc.builderId)];
    }
    if vc.workflowRef != "" {
      out := out["verifiedWorkflowRef" := Str(vc.workflowRef)];
    }
    if vc.issuer != "" {
      out := out["verifiedIssuer" := Str(vc.issuer)];
    }
  }

  /** Copies the identity into a context, in any order of its keys. */
  method MergeInto(context: map<string, Value>, identity: map<string, Value>) returns (merged: map<string, Value>)
    ensures merged == context + identity
  {
    merged := context;
    var left := identity.Keys;
    while left != {}
      invariant left <= identity.Keys
      invariant merged.Keys == context.Keys + (identity.Keys - left)
      invariant forall k | k in merged ::
                  merged[k] == if k in identity && k !in left then identity[k] else context[k]
      decreases |left|
    {
      var k :| k in left;
      merged := merged[k := identity[k]];
      left := left - {k};
    }
  }

  /** The context `verify bundle` checks a payload against. */
  function BundleContext(result: GitResult, requiredLevel: string, cert: Certificate): Value {
    var vc := VerifiedContext(SignerOf(cert), WorkflowOf(cert), WorkflowOf(cert), cert.issuer);
    Obj(ContextFor(result, requiredLevel).fields + IdentityFields(vc))
  }

  method BuildBundleContext(result: GitResult, requiredLevel: string, cert: Certificate) returns (context: Value)
    ensures context == BundleContext(result, requiredLevel, cert)
  {
    var vc := IdentityFromCert(cert);
    var identity := ToContextMap(vc);
    var merged := MergeInto(ContextFor(result, requiredLevel).fields, identity);
    context := Obj(merged);
  }
}

/** Contexts that differ in identity alone. */
module TrustedIdentity {
  import opened Json
  import opened Views

  const IDENTITY_KEYS := {"verifiedSigner", "verifiedBuilderId", "verifiedWorkflowRef", "verifiedIssuer"}

  predicate AgreeAt(x: Value, y: Value, key: string) {
    Member(x, key) == Member(y, key)
  }

  ghost predicate AgreeOutsideIdentity(x: Value, y: Value) {
    forall key | key !in IDENTITY_KEYS :: AgreeAt(x, y, key)
  }

  predicate ListsAgree(x: Value, y: Value) {
    && ItemsMember(x, "subjects") == ItemsMember(y, "subjects")
    && ItemsMember(x, "verifiedMcpServers") == ItemsMember(y, "verifiedMcpServers")
    && ItemsMember(x, "verifiedDelegation") == ItemsMember(y, "verifiedDelegation")
    && ItemsMember(x, "verifiedWitnesses") == ItemsMember(y, "verifiedWitnesses")
    && ItemsMember(x, "allowedIsolatedRunners") == ItemsMember(y, "allowedIsolatedRunners")
  }

  predicate FactsAgree(x: Value, y: Value) {
    && AgreeAt(x, y, "requiredLevel") && AgreeAt(x, y, "repoUrl") && AgreeAt(x, y, "baseCommit")
    && AgreeAt(x, y, "verifiedApproval") && AgreeAt(x, y, "verifiedApprovalDigest")
    && AgreeAt(x, y, "verifiedAgentConfig") && AgreeAt(x, y, "allowSelfHostedRunners")
    && AgreeAt(x, y, "expectedPullRequestNumber") && AgreeAt(x, y, "expectedRunId")
    && AgreeAt(x, y, "freshnessWindowSeconds") && AgreeAt(x, y, "now")
  }

  lemma ListsOutsideIdentity(x: Value, y: Value)
    requires AgreeOutsideIdentity(x, y)
    ensures ListsAgree(x, y)
  {
    assert AgreeAt(x, y, "subjects") && AgreeAt(x, y, "verifiedMcpServers") && AgreeAt(x, y, "verifiedDelegation");
    assert AgreeAt(x, y, "verifiedWitnesses") && AgreeAt(x, y, "allowedIsolatedRunners");
  }

  lemma FactsOutsideIdentity(x: Value, y: Value)
    requires AgreeOutsideIdentity(x, y)
    ensures FactsAgree(x, y)
  {
  }

  lemma TrustedAlike(x: Value, y: Value)
    requires ListsAgree(x, y) && FactsAgree(x, y)
    ensures TrustedOf(x) == TrustedOf(y).(
              signer := TextMember(x, "verifiedSigner"), builderId := TextMember(x, "verifiedBuilderId"),
              workflowRef := TextMember(x, "verifiedWorkflowRef"), issuer := TextMember(x, "verifiedIssuer"))
  {
  }

  /** Contexts that agree outside identity are trusted alike but for identity. */
  lemma TrustOutsideIdentity(x: Value, y: Value)
    requires AgreeOutsideIdentity(x, y)
    ensures TrustedOf(x) == TrustedOf(y).(
              signer := TextMember(x, "verifiedSigner"), builderId := TextMember(x, "verifiedBuilderId"),
              workflowRef := TextMember(x, "verifiedWorkflowRef"), issuer := TextMember(x, "verifiedIssuer"))
  {
    ListsOutsideIdentity(x, y);
    FactsOutsideIdentity(x, y);
    TrustedAlike(x, y);
  }
}

/** What a valid bundle proves about its signer. */
module BundleVerdicts {
  import opened Basics
  import opened Json
  import opened FailureCodes
  import opened Patterns
  import opened Schema
  import opened Views
  import opened Verifier
  import opened Decisions
  import opened Produced
  import opened Identity
  import opened TrustedIdentity
  import PV = ProducedVerdicts
  import G = Gates

  function Given(s: string): Option<string> {
    if s == "" then None else Some(s)
  }

  lemma IdentityMembers(vc: VerifiedContext)
    ensures var j := Obj(IdentityFields(vc));
            && j.fields.Keys <= IDENTITY_KEYS
            && TextMember(j, "verifiedSigner") == Given(vc.signer)
            && TextMember(j, "verifiedBuilderId") == Given(vc.builderId)
            && TextMember(j, "verifiedWorkflowRef") == Given(vc.workflowRef)
            && TextMember(j, "verifiedIssuer") == Given(vc.issuer)
            && (forall key | key in j.fields :: j.fields[key].Str? && j.fields[key].s != "")
  {
  }

  lemma MergedMember(a: map<string, Value>, b: map<string, Value>, key: string)
    ensures Member(Obj(a + b), key) == if key in b then b[key] else Member(Obj(a), key)
  {
  }

  lemma BundleMembers(base: Value, vc: VerifiedContext)
    requires base.Obj? && base.fields.Keys !! IDENTITY_KEYS
    ensures var x := Obj(base.fields + IdentityFields(vc));
            && AgreeOutsideIdentity(x, base)
            && TextMember(x, "verifiedSigner") == Given(vc.signer)
            && TextMember(x, "verifiedBuilderId") == Given(vc.builderId)
            && TextMember(x, "verifiedWorkflowRef") == Given(vc.workflowRef)
            && TextMember(x, "verifiedIssuer") == Given(vc.issuer)
  {
    IdentityMembers(vc);
    var identity := IdentityFields(vc);
    forall key
      ensures key !in IDENTITY_KEYS ==> Member(Obj(base.fields + identity), key) == Member(base, key)
      ensures key in IDENTITY_KEYS ==> Member(Obj(base.fields + identity), key) == Member(Obj(identity), key)
    {
      MergedMember(base.fields, identity, key);
    }
  }

  /** All a bundle tells the verifier beyond the repository: signer, builder, workflow and issuer. */
  lemma BundleTrust(result: GitResult, requiredLevel: string, cert: Certificate)
    ensures TrustedOf(BundleContext(result, requiredLevel, cert))
         == TrustedOf(ContextFor(result, requiredLevel)).(
              signer := Given(SignerOf(cert)), builderId := Given(WorkflowOf(cert)),
              workflowRef := Given(WorkflowOf(cert)), issuer := Given(cert.issuer))
  {
    var base := ContextFor(result, requiredLevel);
    PV.ContextMembers(result, requiredLevel);
    BundleMembers(base, VerifiedContext(SignerOf(cert), WorkflowOf(cert), WorkflowOf(cert), cert.issuer));
    TrustOutsideIdentity(BundleContext(result, requiredLevel, cert), base);
  }

  /** What the verifier trusts in a bundle: an unassisted context, and one certificate. */
  predicate TrustsOnly(x: G.Trusted, cert: Certificate) {
    && PV.Unassisted(x) && x.witnesses == {} && x.isolatedRunners == {} && !x.approval && !x.allowSelfHosted
    && x.signer == Given(SignerOf(cert)) && x.issuer == Given(cert.issuer)
    && x.builderId == x.workflowRef == Given(WorkflowOf(cert))
  }

  lemma BundleTrustsOnlyCertificate(result: GitResult, requiredLevel: string, cert: Certificate)
    ensures TrustsOnly(TrustedOf(BundleContext(result, requiredLevel, cert)), cert)
  {
    var x := ContextFor(result, requiredLevel);
    BundleTrust(result, requiredLevel, cert);
    PV.ContextIsUnassisted(result, requiredLevel);
    PV.ContextMembers(result, requiredLevel);
    PV.NoOptionalContext(x, "verifiedWitnesses");
    PV.NoOptionalContext(x, "allowedIsolatedRunners");
    PV.NoOptionalContext(x, "verifiedApproval");
    PV.NoOptionalContext(x, "allowSelfHostedRunners");
  }

  /** A certificate's texts are short enough for the context; empty ones are left out. */
  predicate CertificateFits(cert: Certificate) {
    |SignerOf(cert)| <= 512 && |WorkflowOf(cert)| <= 512 && |cert.issuer| <= 512
  }

  lemma BundleKeys(result: GitResult, requiredLevel: string, cert: Certificate)
    ensures ContextPart(Keys, BundleContext(result, requiredLevel, cert))
  {
    PV.ContextMembers(result, requiredLevel);
    IdentityMembers(VerifiedContext(SignerOf(cert), WorkflowOf(cert), WorkflowOf(cert), cert.issuer));
  }

  lemma GivenText(x: Value, key: string, text: string)
    requires x.Obj? && TextMember(x, key) == Given(text) && (Has(x, key) ==> Member(x, key).Str?)
    ensures (Has(x, key) ==> IsPlainText(Member(x, key), 512)) <==> |text| <= 512
  {
  }

  lemma BundleIdentityIff(result: GitResult, requiredLevel: string, cert: Certificate)
    ensures IdentityShape(BundleContext(result, requiredLevel, cert)) <==> CertificateFits(cert)
  {
    hide IsPlainText, SignerOf, WorkflowOf;
    var base := ContextFor(result, requiredLevel);
    var vc := VerifiedContext(SignerOf(cert), WorkflowOf(cert), WorkflowOf(cert), cert.issuer);
    var x := BundleContext(result, requiredLevel, cert);
    PV.ContextMembers(result, requiredLevel);
    BundleMembers(base, vc);
    IdentityMembers(vc);
    GivenText(x, "verifiedSigner", vc.signer);
    GivenText(x, "verifiedBuilderId", vc.builderId);
    GivenText(x, "verifiedWorkflowRef", vc.workflowRef);
    GivenText(x, "verifiedIssuer", vc.issuer);
  }

  lemma AgreeingCore(x: Value, y: Value)
    requires AgreeOutsideIdentity(x, y)
    ensures ContextPart(Core, x) <==> ContextPart(Core, y)
  {
    hide IsRepoUri, IsCommit, IsLevel, IsContextSubject;
    ListsOutsideIdentity(x, y);
    FactsOutsideIdentity(x, y);
    assert AgreeAt(x, y, "subjects");
  }

  lemma AgreeingReplay(x: Value, y: Value)
    requires AgreeOutsideIdentity(x, y) && forall key | key !in IDENTITY_KEYS :: Has(x, key) <==> Has(y, key)
    ensures ReplayShape(x) <==> ReplayShape(y)
  {
    hide IsInteger, IsRunId, IsTimestamp;
    FactsOutsideIdentity(x, y);
  }

  lemma AgreeingLists(x: Value, y: Value)
    requires AgreeOutsideIdentity(x, y) && forall key | key !in IDENTITY_KEYS :: Has(x, key) <==> Has(y, key)
    ensures ContextPart(Harness, x) <==> ContextPart(Harness, y)
  {
    hide IsDigest, IsTextList, IsVerifiedWitness;
    ListsOutsideIdentity(x, y);
    FactsOutsideIdentity(x, y);
    assert AgreeAt(x, y, "verifiedMcpServers") && AgreeAt(x, y, "verifiedDelegation");
    assert AgreeAt(x, y, "verifiedWitnesses") && AgreeAt(x, y, "allowedIsolatedRunners");
  }

  lemma BundleAgrees(result: GitResult, requiredLevel: string, cert: Certificate)
    ensures var x, y := BundleContext(result, requiredLevel, cert), ContextFor(result, requiredLevel);
            x.Obj? && y.Obj? && AgreeOutsideIdentity(x, y)
            && forall key | key !in IDENTITY_KEYS :: Has(x, key) <==> Has(y, key)
  {
    var vc := VerifiedContext(SignerOf(cert), WorkflowOf(cert), WorkflowOf(cert), cert.issuer);
    PV.ContextMembers(result, requiredLevel);
    BundleMembers(ContextFor(result, requiredLevel), vc);
    IdentityMembers(vc);
  }

  lemma ShapeParts(x: Value)
    ensures ContextShape(x) <==>
            ContextPart(Keys, x) && ContextPart(Core, x) && ContextPart(Harness, x) && IdentityShape(x) && ReplayShape(x)
  {
    hide IdentityShape, ReplayShape, AllowlistShape, Closed, IsContextSubject;
    if ContextPart(Keys, x) && ContextPart(Core, x) && ContextPart(Extras, x) && ContextPart(Harness, x) {
      forall part: Part
        ensures ContextPart(part, x)
      {
        match part
        case Keys =>
        case Core =>
        case Extras =>
        case Harness =>
      }
    }
    if ContextShape(x) {
      assert ContextPart(Keys, x) && ContextPart(Core, x) && ContextPart(Extras, x) && ContextPart(Harness, x);
    }
  }

  /** The context of a bundle passes its schema exactly when the repository's facts and the certificate's texts fit. */
  lemma BundleContextShapeIff(result: GitResult, requiredLevel: string, cert: Certificate)
    ensures ContextShape(BundleContext(result, requiredLevel, cert)) <==>
            PV.ContextFits(result, requiredLevel) && CertificateFits(cert)
  {
    hide *;
    var x, y := BundleContext(result, requiredLevel, cert), ContextFor(result, requiredLevel);
    BundleAgrees(result, requiredLevel, cert);
    AgreeingCore(x, y);
    AgreeingReplay(x, y);
    AgreeingLists(x, y);
    BundleKeys(result, requiredLevel, cert);
    BundleIdentityIff(result, requiredLevel, cert);
    PV.ContextShapeIff(result, requiredLevel);
    PV.ContextMembers(result, requiredLevel);
    PlainContextParts(y);
    ShapeParts(x);
    ShapeParts(y);
  }

  lemma PlainContextParts(y: Value)
    requires y.Obj? && y.fields.Keys == CONTEXT_REQUIRED
    ensures ContextPart(Keys, y) && IdentityShape(y) && ReplayShape(y)
  {
    hide IsPlainText, IsInteger, IsRunId, IsTimestamp;
    PV.OptionalContextParts(y);
  }

  /** The claim names the certificate's workflow as its builder, and no other identity than the signer's. */
  predicate NamesSigner(c: G.Claim, cert: Certificate) {
    && cert.uris != [] && IsWorkflowRef(cert.uris[0]) && cert.issuer != ""
    && c.builder.Some? && c.builder.value.id == cert.uris[0] && c.builder.value.workflowRef == Some(cert.uris[0])
    && !(c.executionType == "github-actions" && c.builder.value.runnerClass == Some("self-hosted"))
    && (c.declaredIdentity.Some? ==> c.declaredIdentity.value == cert.uris[0])
  }

  /** At policy grade the identity gates hold exactly when the claim names the signer. */
  lemma IdentityGatesIff(c: G.Claim, x: G.Trusted, cert: Certificate)
    requires TrustsOnly(x, cert) && c.level.PolicyGrade?
    ensures G.BuilderBound(c, x) && G.SignerBound(c, x) <==> NamesSigner(c, cert)
  {
  }

  /** What the verifier takes from the repository the bundle is checked in. */
  predicate FromRepository(x: G.Trusted, result: GitResult, requiredLevel: string) {
    && x.required == LevelOf(requiredLevel) && x.repoUrl == result.repoUrl && x.baseCommit == result.baseCommit
    && x.subjects == [G.ContextSubject("patch.diff", result.patch.digest)]
  }

  lemma BundleTrustsRepository(result: GitResult, requiredLevel: string, cert: Certificate)
    ensures FromRepository(TrustedOf(BundleContext(result, requiredLevel, cert)), result, requiredLevel)
  {
    BundleTrust(result, requiredLevel, cert);
    PV.ContextIsUnassisted(result, requiredLevel);
  }

  /** Every named subject is the patch with this digest, and there is one. */
  predicate PatchCovered(s: seq<G.StatementSubject>, digest: string) {
    && (exists t | t in s :: t.name == Some("patch.diff") && t.sha256 == Some(digest))
    && (forall t | t in s && t.keyed :: t.name == Some("patch.diff") && t.sha256 == Some(digest))
  }

  lemma PatchCoveredIff(s: seq<G.StatementSubject>, x: G.Trusted, digest: string)
    requires x.subjects == [G.ContextSubject("patch.diff", digest)]
    ensures G.SubjectsBound(s, x) <==> PatchCovered(s, digest)
  {
    var e := G.ContextSubject("patch.diff", digest);
    assert e in x.subjects && forall f | f in x.subjects :: f == e;
    assert forall t: G.StatementSubject :: G.Names(t, e) <==> t.name == Some("patch.diff") && t.sha256 == Some(digest);
  }

  /** The claim is about the repository's patch, at the level asked for. */
  predicate OfRepository(c: G.Claim, s: seq<G.StatementSubject>, result: GitResult, requiredLevel: string) {
    && c.level.Rank() >= LevelOf(requiredLevel).Rank() && c.repoUrl == result.repoUrl
    && c.baseCommit == result.baseCommit && PatchCovered(s, result.patch.digest)
  }

  /** A claim that a certificate alone can back. */
  predicate BoundClaim(c: G.Claim, cert: Certificate) {
    && !c.level.HighAssurance? && c.witnesses == {}
    && (c.level.PolicyGrade? ==> NamesSigner(c, cert) && (c.version.V1? ==> c.mcpServers == {} && c.delegation == {}))
    && (c.level.EvidenceGrade? && c.declaredIdentity.Some? ==> c.declaredIdentity == Given(SignerOf(cert)))
  }

  /** Every gate of a verifier that has a bundle and a repository, in terms of certificate and repository. */
  predicate BundleHolds(c: G.Claim, s: seq<G.StatementSubject>, result: GitResult, requiredLevel: string,
                        cert: Certificate)
  {
    OfRepository(c, s, result, requiredLevel) && G.PrivacyKept(c) && G.LevelEarned(c) && BoundClaim(c, cert)
  }

  lemma BoundHolds(c: G.Claim, s: seq<G.StatementSubject>, result: GitResult, requiredLevel: string, cert: Certificate)
    ensures BundleHolds(c, s, result, requiredLevel, cert) <==>
            OfRepository(c, s, result, requiredLevel) && G.PrivacyKept(c) && G.LevelEarned(c) && BoundClaim(c, cert)
  {
  }

  /** No bundle alone supports high assurance, a witness, or declared servers and delegates at policy grade. */
  lemma BeyondBundles(c: G.Claim, s: seq<G.StatementSubject>, x: G.Trusted, cert: Certificate)
    requires TrustsOnly(x, cert) && forall code :: G.Holds(code, c, s, x)
    ensures !c.level.HighAssurance? && c.witnesses == {}
    ensures c.level.PolicyGrade? && c.version.V1? ==> c.mcpServers == {} && c.delegation == {}
  {
    assert G.Holds(TransparencyVerificationFailed, c, s, x);
    assert G.Holds(LevelEscalation, c, s, x);
    assert G.Holds(MissingEvidence, c, s, x);
  }

  /** What the contract makes of a GitHub Actions run: a workflow for a builder, and an identity pattern. */
  lemma GitHubTexts(l: Layer, v: Version, p: Value)
    requires CoreShape(l, v, p) && ClaimOf(p).executionType == "github-actions"
    ensures ClaimOf(p).builder.Some? && GitHubWorkflowText(ClaimOf(p).builder.value.id)
    ensures ClaimOf(p).declaredIdentity.Some? ==> IdentityText(ClaimOf(p).declaredIdentity.value)
  {
    hide GitHubWorkflowText, IdentityText, IsRepo, IsHumanApproval, IsPrivacy, IsTimestamps, IsEvidence, IsBuilder, IsWitness;
    assert IsEnvironment(l, v, Member(p, "environment")) && IsGitHubBuilder(Member(Member(p, "environment"), "builder"));
    assert IsAgent(l, v, Member(p, "agent"));
  }

  lemma AcceptedCore(l: Layer, v: Version, p: Value)
    requires PredicateShape(l, v, p)
    ensures CoreShape(l, v, p)
  {
    hide CoreShape;
    assert PredicatePart(Core, l, v, p);
  }

  /** In GitHub Actions the builder id is a workflow reference, which no declared identity can be. */
  lemma GitHubDeclaresNoIdentity(v: Version, p: Value, cert: Certificate)
    requires PredicateShape(JsonSchema, v, p) && BoundClaim(ClaimOf(p), cert)
    ensures OwnIdentityOnly(ClaimOf(p), cert)
  {
    hide PredicateShape, CoreShape, ClaimOf, GitHubWorkflowText, IdentityText;
    if !ClaimOf(p).level.PolicyGrade? || ClaimOf(p).executionType != "github-actions" {
      return;
    }
    AcceptedCore(JsonSchema, v, p);
    GitHubTexts(JsonSchema, v, p);
    WorkflowTextIsNoIdentity(cert.uris[0]);
  }

  /** In GitHub Actions, a claim at policy grade declares no identity besides the certificate's workflow. */
  predicate OwnIdentityOnly(c: G.Claim, cert: Certificate) {
    c.level.PolicyGrade? && c.executionType == "github-actions" ==>
      c.declaredIdentity.None? && cert.uris != [] && GitHubWorkflowText(cert.uris[0])
  }

  lemma GatesBindRepository(c: G.Claim, s: seq<G.StatementSubject>, x: G.Trusted, result: GitResult, requiredLevel: string)
    requires FromRepository(x, result, requiredLevel) && forall code :: G.Holds(code, c, s, x)
    ensures OfRepository(c, s, result, requiredLevel) && G.PrivacyKept(c) && G.LevelEarned(c)
  {
    hide G.SubjectsBound, PatchCovered, G.PrivacyKept, G.LevelEarned, LevelOf;
    PatchCoveredIff(s, x, result.patch.digest);
    assert G.Holds(LevelBelowRequired, c, s, x) && G.Holds(RepoUrlMismatch, c, s, x);
    assert G.Holds(BaseCommitMismatch, c, s, x) && G.Holds(SubjectDigestMismatch, c, s, x);
    assert G.Holds(PrivacyViolation, c, s, x) && G.Holds(LevelEscalation, c, s, x);
  }

  lemma GatesBindIdentity(c: G.Claim, s: seq<G.StatementSubject>, x: G.Trusted, cert: Certificate)
    requires TrustsOnly(x, cert) && forall code :: G.Holds(code, c, s, x)
    ensures BoundClaim(c, cert)
  {
    BeyondBundles(c, s, x, cert);
    assert G.Holds(BuilderIdentityMismatch, c, s, x) && G.Holds(SignerIdentityMismatch, c, s, x);
    if c.level.PolicyGrade? {
      IdentityGatesIff(c, x, cert);
    }
  }

  lemma BoundClaimPasses(c: G.Claim, s: seq<G.StatementSubject>, x: G.Trusted, result: GitResult, requiredLevel: string,
                         cert: Certificate, code: Code)
    requires TrustsOnly(x, cert) && FromRepository(x, result, requiredLevel)
    requires BundleHolds(c, s, result, requiredLevel, cert)
    ensures G.Holds(code, c, s, x)
  {
    PatchCoveredIff(s, x, result.patch.digest);
    if c.level.PolicyGrade? {
      IdentityGatesIff(c, x, cert);
    }
  }

  /** The gates of a verifier that has a bundle and a repository, and nothing else. */
  lemma BundleGatesIff(c: G.Claim, s: seq<G.StatementSubject>, x: G.Trusted, result: GitResult, requiredLevel: string,
                       cert: Certificate)
    requires TrustsOnly(x, cert) && FromRepository(x, result, requiredLevel)
    ensures (forall code :: G.Holds(code, c, s, x)) <==> BundleHolds(c, s, result, requiredLevel, cert)
  {
    hide *;
    if forall code :: G.Holds(code, c, s, x) {
      GatesBindRepository(c, s, x, result, requiredLevel);
      GatesBindIdentity(c, s, x, cert);
      BoundHolds(c, s, result, requiredLevel, cert);
    }
    if BundleHolds(c, s, result, requiredLevel, cert) {
      forall code
        ensures G.Holds(code, c, s, x)
      {
        BoundClaimPasses(c, s, x, result, requiredLevel, cert, code);
      }
    }
  }

  /**
   Exactly the bundles that verify: they reach the policy, claim the repository's patch at a level asked for,
   earn that level, keep privacy, and name no identity but the certificate's.
   */
  lemma BundleIsValidIff(statement: Value, result: GitResult, requiredLevel: string, cert: Certificate)
    ensures Verdict(Some(DEFAULT), statement, BundleContext(result, requiredLevel, cert)).valid <==>
            Reached(statement, BundleContext(result, requiredLevel, cert))
            && BundleHolds(ClaimOf(Member(statement, "predicate")), SubjectsOf(statement), result, requiredLevel, cert)
  {
    hide *;
    var context := BundleContext(result, requiredLevel, cert);
    var c := ClaimOf(Member(statement, "predicate"));
    ValidIffEveryGateHolds(statement, context);
    FailuresOf(statement, context);
    NothingFails(c, SubjectsOf(statement), TrustedOf(context));
    BundleTrustsOnlyCertificate(result, requiredLevel, cert);
    BundleTrustsRepository(result, requiredLevel, cert);
    BundleGatesIff(c, SubjectsOf(statement), TrustedOf(context), result, requiredLevel, cert);
  }

  lemma ReachedInGitHub(statement: Value, context: Value, cert: Certificate)
    requires Reached(statement, context) && BoundClaim(ClaimOf(Member(statement, "predicate")), cert)
    ensures OwnIdentityOnly(ClaimOf(Member(statement, "predicate")), cert)
  {
    hide *;
    var v := ReachedVersion(statement, context);
    ReachesIff(v, statement, context);
    AcceptedIff(v, Member(statement, "predicate"), context);
    GitHubDeclaresNoIdentity(v, Member(statement, "predicate"), cert);
  }

  /**
   A bundle that verifies at policy grade was signed by the very workflow its predicate names as builder,
   under a certificate with an issuer, and in GitHub Actions it declares no identity of its own; it never
   verifies at high assurance, with a witness, or at version 1 policy grade with servers or delegates.
   */
  lemma BundleBindsIdentity(statement: Value, result: GitResult, requiredLevel: string, cert: Certificate)
    requires Verdict(Some(DEFAULT), statement, BundleContext(result, requiredLevel, cert)).valid
    ensures BoundClaim(ClaimOf(Member(statement, "predicate")), cert)
    ensures OwnIdentityOnly(ClaimOf(Member(statement, "predicate")), cert)
  {
    hide *;
    BundleIsValidIff(statement, result, requiredLevel, cert);
    BoundHolds(ClaimOf(Member(statement, "predicate")), SubjectsOf(statement), result, requiredLevel, cert);
    ReachedInGitHub(statement, BundleContext(result, requiredLevel, cert), cert);
  }
}
