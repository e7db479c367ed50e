/** Accepted documents as typed claims, and the policy's decision on them gate by gate. */
module Views {
  import opened Basics
  import opened Json
  import opened Schema
  import opened Gates

  function LevelOf(name: string): Level {
    if name == "high-assurance" then HighAssurance
    else if name == "policy-grade" then PolicyGrade
    else EvidenceGrade
  }

  function DigestOf(j: Value): string {
    TextOf(Member(j, "digest"), "sha256")
  }

  function EvidenceOf(e: Value): Evidence {
    Evidence(TextOf(e, "type"), DigestOf(e), TextOf(e, "storage"), TextOf(e, "visibility"))
  }

  function AttestedOf(w: Value): Attested {
    Attested(TextOf(w, "type"), DigestOf(w))
  }

  function BuilderOf(environment: Value): Option<Builder> {
    if !Has(environment, "builder") then None
    else
      var b := Member(environment, "builder");
      Some(Builder(TextOf(b, "id"), TextMember(b, "workflowRef"), TextMember(b, "runnerClass")))
  }

  function VisibilitiesOf(extensions: Value): set<string> {
    if extensions.Obj? then set k | k in extensions.fields :: TextOf(extensions.fields[k], "visibility") else {}
  }

  function ClaimOf(p: Value): Claim {
    Claim(
      if TextOf(p, "predicateVersion") == "v1" then V1 else V0,
      LevelOf(TextOf(p, "verificationLevel")),
      TextOf(p, "runId"),
      TextOf(Member(p, "repo"), "url"),
      TextOf(Member(p, "repo"), "baseCommit"),
      NumberMember(Member(Member(p, "repo"), "pullRequest"), "number"),
      TextMember(Member(p, "agent"), "declaredIdentity"),
      TextOf(Member(p, "environment"), "executionType"),
      BuilderOf(Member(p, "environment")),
      set w | w in ItemsMember(Member(p, "environment"), "witnesses") :: AttestedOf(w),
      TextOf(Member(p, "humanApproval"), "state"),
      set e | e in ItemsMember(p, "evidence") :: EvidenceOf(e),
      VisibilitiesOf(Member(p, "extensions")),
      TextOf(Member(p, "timestamps"), "finishedAt"),
      TextMember(Member(p, "capture"), "method"),
      TextMember(Member(Member(p, "agentConfig"), "primaryDigest"), "sha256"),
      set m | m in ItemsMember(p, "mcpServers") :: DigestOf(m),
      set d | d in ItemsMember(Member(p, "delegation"), "delegationChain") :: TextOf(d, "agentRef")
    )
  }

  function StatementSubjectOf(t: Value): StatementSubject {
    StatementSubject(Has(t, "name"), TextMember(t, "name"), TextMember(Member(t, "digest"), "sha256"))
  }

  function SubjectsOf(statement: Value): seq<StatementSubject> {
    var items := ItemsMember(statement, "subject");
    seq(|items|, i requires 0 <= i < |items| => StatementSubjectOf(items[i]))
  }

  function ContextSubjectOf(e: Value): ContextSubject {
    ContextSubject(TextOf(e, "name"), TextOf(e, "digest"))
  }

  function ContextSubjectsOf(x: Value): seq<ContextSubject> {
    var items := ItemsMember(x, "subjects");
    seq(|items|, i requires 0 <= i < |items| => ContextSubjectOf(items[i]))
  }

  function TrustedOf(x: Value): Trusted {
    Trusted(
      LevelOf(TextOf(x, "requiredLevel")),
      TextOf(x, "repoUrl"),
      TextOf(x, "baseCommit"),
      ContextSubjectsOf(x),
      TextMember(x, "verifiedSigner"),
      TextMember(x, "verifiedBuilderId"),
      TextMember(x, "verifiedWorkflowRef"),
      TextMember(x, "verifiedIssuer"),
      Member(x, "verifiedApproval") == Bool(true),
      TextMember(Member(x, "verifiedApprovalDigest"), "sha256"),
      TextMember(Member(x, "verifiedAgentConfig"), "sha256"),
      set m | m in ItemsMember(x, "verifiedMcpServers") :: TextOf(m, "sha256"),
      set d | d in ItemsMember(x, "verifiedDelegation") && d.Str? :: d.s,
      set w | w in ItemsMember(x, "verifiedWitnesses") :: AttestedOf(w),
      set r | r in ItemsMember(x, "allowedIsolatedRunners") && r.Str? :: r.s,
      Member(x, "allowSelfHostedRunners") == Bool(true),
      NumberMember(x, "expectedPullRequestNumber"),
      TextMember(x, "expectedRunId"),
      NumberMember(x, "freshnessWindowSeconds").GetOr(0.0),
      TextMember(x, "now")
    )
  }
}
