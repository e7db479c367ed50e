/**
 The default policy as a total decision on typed claims: one gate per failure code, over values that
 are always there, with sets where the policy only looks for members.
 */
module Gates {
  import opened Basics
  import opened FailureCodes
  import opened Schema
  import opened Timestamps

  datatype Level = EvidenceGrade | PolicyGrade | HighAssurance {
    function Rank(): nat {
      match this
      case EvidenceGrade => 0
      case PolicyGrade => 1
      case HighAssurance => 2
    }

    function Name(): string {
      match this
      case EvidenceGrade => "evidence-grade"
      case PolicyGrade => "policy-grade"
      case HighAssurance => "high-assurance"
    }
  }

  /** A subject of the statement. Its name may be missing (`keyed` false), or present but no string. */
  datatype StatementSubject = StatementSubject(keyed: bool, name: Option<string>, sha256: Option<string>)

  datatype ContextSubject = ContextSubject(name: string, sha256: string)

  datatype Evidence = Evidence(kind: string, sha256: string, storage: string, visibility: string)

  datatype Builder = Builder(id: string, workflowRef: Option<string>, runnerClass: Option<string>)

  datatype Attested = Attested(kind: string, sha256: string)

  /** What a predicate claims. */
  datatype Claim = Claim(
    version: Version,
    level: Level,
    runId: string,
    repoUrl: string,
    baseCommit: string,
    pullRequest: Option<real>,
    declaredIdentity: Option<string>,
    executionType: string,
    builder: Option<Builder>,
    witnesses: set<Attested>,
    approvalState: string,
    evidence: set<Evidence>,
    extensionVisibilities: set<string>,
    finishedAt: string,
    captureMethod: Option<string>,
    agentConfig: Option<string>,
    mcpServers: set<string>,
    delegation: set<string>
  ) {
    predicate PolicyOrHigher() {
      level.Rank() >= PolicyGrade.Rank()
    }
  }

  /** What the verifier knows from elsewhere. */
  datatype Trusted = Trusted(
    required: Level,
    repoUrl: string,
    baseCommit: string,
    subjects: seq<ContextSubject>,
    signer: Option<string>,
    builderId: Option<string>,
    workflowRef: Option<string>,
    issuer: Option<string>,
    approval: bool,
    approvalDigest: Option<string>,
    agentConfig: Option<string>,
    mcpServers: set<string>,
    delegation: set<string>,
    witnesses: set<Attested>,
    isolatedRunners: set<string>,
    allowSelfHosted: bool,
    pullRequest: Option<real>,
    runId: Option<string>,
    window: real,
    now: Option<string>
  )

  predicate LevelMet(c: Claim, x: Trusted) {
    c.level.Rank() >= x.required.Rank()
  }

  predicate Names(t: StatementSubject, e: ContextSubject) {
    t.name == Some(e.name) && t.sha256 == Some(e.sha256)
  }

  predicate NamesDistinct(subjects: seq<ContextSubject>) {
    forall i, j :: 0 <= i < j < |subjects| ==> subjects[i].name != subjects[j].name
  }

  /** Current subjects and claimed subjects cover each other; a claimed subject without a name is skipped. */
  predicate SubjectsBound(s: seq<StatementSubject>, x: Trusted) {
    && x.subjects != [] && NamesDistinct(x.subjects)
    && (forall e | e in x.subjects :: exists t | t in s :: Names(t, e))
    && (forall t | t in s && t.keyed :: exists e | e in x.subjects :: Names(t, e))
  }

  const LOGGABLE := {"local-log-root", "builder-record", "agent-config", "mcp-server"}

  predicate PrivacyKept(c: Claim) {
    && (forall e | e in c.evidence && e.storage == "transparency-log" ::
          e.kind in LOGGABLE && e.visibility == "public")
    && "public" !in c.extensionVisibilities
  }

  predicate LevelEarned(c: Claim) {
    && (c.PolicyOrHigher() ==>
          && (forall e | e in c.evidence :: e.storage != "local-only")
          && c.executionType != "local"
          && c.builder.Some?)
    && (c.level.HighAssurance? ==>
          && c.executionType in {"isolated-runner", "witnessed-runner"}
          && c.witnesses != {}
          && c.approvalState == "approved-before-merge"
          && c.captureMethod != Some("manual"))
  }

  /** The builder the predicate names is the verified one, run where the verifier allows. */
  predicate BuilderBound(c: Claim, x: Trusted) {
    && (c.PolicyOrHigher() ==>
          && c.builder.Some?
          && x.builderId == Some(c.builder.value.id)
          && x.workflowRef.Some? && x.workflowRef == c.builder.value.workflowRef
          && x.issuer.Some?
          && (c.executionType == "github-actions" && c.builder.value.runnerClass == Some("self-hosted") ==>
                x.allowSelfHosted))
    && (c.level.HighAssurance? ==> c.builder.Some? && c.builder.value.id in x.isolatedRunners)
  }

  predicate SignerBound(c: Claim, x: Trusted) {
    && (c.PolicyOrHigher() ==> x.signer.Some?)
    && (c.declaredIdentity.Some? ==> x.signer == c.declaredIdentity)
  }

  predicate WitnessesBacked(c: Claim, x: Trusted) {
    c.witnesses <= x.witnesses
  }

  predicate HasKind(c: Claim, kind: string) {
    exists e | e in c.evidence :: e.kind == kind
  }

  predicate ApprovalProven(c: Claim, x: Trusted) {
    && x.approval && x.approvalDigest.Some?
    && exists e | e in c.evidence :: e.kind == "approval" && Some(e.sha256) == x.approvalDigest
  }

  /** A declared list against an allowlist: an empty allowlist admits anything below policy grade or in v0. */
  predicate Allowed(c: Claim, declared: set<string>, allowlist: set<string>) {
    if allowlist != {} then declared <= allowlist
    else declared == {} || !c.PolicyOrHigher() || c.version.V0?
  }

  predicate EvidenceComplete(c: Claim, x: Trusted) {
    && (c.level.HighAssurance? ==>
          && ApprovalProven(c, x)
          && HasKind(c, "trace")
          && (c.version.V1? ==> c.agentConfig.Some?))
    && (x.agentConfig.Some? ==> c.agentConfig == x.agentConfig)
    && Allowed(c, c.mcpServers, x.mcpServers)
    && Allowed(c, c.delegation, x.delegation)
  }

  predicate NotReplayed(c: Claim, x: Trusted) {
    && (x.pullRequest.Some? ==> c.pullRequest == x.pullRequest)
    && (x.runId.Some? ==> x.runId == Some(c.runId))
  }

  /**
   With a window there must be a clock; the age counts only when both times are instants that fit 64-bit
   nanoseconds, which a leap second is not.
   */
  predicate Fresh(c: Claim, x: Trusted) {
    x.window > 0.0 ==>
      && x.now.Some?
      && var now, finished := ParseNanos(x.now.value), ParseNanos(c.finishedAt);
         now.Some? && finished.Some? ==> (now.value - finished.value) as real <= x.window * 1000000000.0
  }

  predicate Holds(code: Code, c: Claim, s: seq<StatementSubject>, x: Trusted) {
    match code
    case LevelBelowRequired => LevelMet(c, x)
    case RepoUrlMismatch => c.repoUrl == x.repoUrl
    case BaseCommitMismatch => c.baseCommit == x.baseCommit
    case SubjectDigestMismatch => SubjectsBound(s, x)
    case PrivacyViolation => PrivacyKept(c)
    case LevelEscalation => LevelEarned(c)
    case BuilderIdentityMismatch => BuilderBound(c, x)
    case SignerIdentityMismatch => SignerBound(c, x)
    case TransparencyVerificationFailed => WitnessesBacked(c, x)
    case MissingEvidence => EvidenceComplete(c, x)
    case ReplayDetected => NotReplayed(c, x)
    case StaleAttestation => Fresh(c, x)
    case _ => true
  }
}
