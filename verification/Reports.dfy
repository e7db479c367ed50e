/** What each reported code says of the two documents, in their own members. */
module Reports {
  import opened Basics
  import opened Json
  import opened FailureCodes
  import opened FailureOrder
  import opened Schema
  import opened Timestamps
  import opened Policy
  import opened Views
  import opened Verifier
  import opened Decisions
  import G = Gates

  predicate LevelIn(s: Value, levels: set<string>) {
    TextOf(Member(s, "predicate"), "verificationLevel") in levels
  }

  predicate AboveEvidence(s: Value) {
    LevelIn(s, {"policy-grade", "high-assurance"})
  }

  predicate HighAssurance(s: Value) {
    LevelIn(s, {"high-assurance"})
  }

  function Environment(s: Value): Value {
    Member(Member(s, "predicate"), "environment")
  }

  function EvidenceItems(s: Value): seq<Value> {
    ItemsMember(Member(s, "predicate"), "evidence")
  }

  predicate LevelTooLow(s: Value, x: Value) {
    var required := TextOf(x, "requiredLevel");
    (required == "policy-grade" && !AboveEvidence(s)) || (required == "high-assurance" && !HighAssurance(s))
  }

  /** The statement's subject has the name and the sha256 digest of the verifier's. */
  predicate SameSubject(t: Value, e: Value) {
    && TextMember(t, "name") == Some(TextOf(e, "name"))
    && TextMember(Member(t, "digest"), "sha256") == Some(TextOf(e, "digest"))
  }

  predicate SubjectsDiffer(s: Value, x: Value) {
    var claimed, current := ItemsMember(s, "subject"), ItemsMember(x, "subjects");
    || current == []
    || (exists i, j | 0 <= i < j < |current| :: TextOf(current[i], "name") == TextOf(current[j], "name"))
    || (exists e | e in current :: forall t | t in claimed :: !SameSubject(t, e))
    || (exists t | t in claimed && Has(t, "name") :: forall e | e in current :: !SameSubject(t, e))
  }

  predicate Leaks(s: Value) {
    || (exists e | e in EvidenceItems(s) ::
          && TextOf(e, "storage") == "transparency-log"
          && (TextOf(e, "type") !in {"local-log-root", "builder-record", "agent-config", "mcp-server"}
              || TextOf(e, "visibility") != "public"))
    || var extensions := Member(Member(s, "predicate"), "extensions");
       extensions.Obj? && exists key | key in extensions.fields :: TextOf(extensions.fields[key], "visibility") == "public"
  }

  predicate UnearnedAbove(s: Value) {
    || (exists e | e in EvidenceItems(s) :: TextOf(e, "storage") == "local-only")
    || TextOf(Environment(s), "executionType") == "local"
    || !Has(Environment(s), "builder")
  }

  predicate UnearnedHigh(s: Value) {
    || TextOf(Environment(s), "executionType") !in {"isolated-runner", "witnessed-runner"}
    || ItemsMember(Environment(s), "witnesses") == []
    || TextOf(Member(Member(s, "predicate"), "humanApproval"), "state") != "approved-before-merge"
    || TextOf(Member(Member(s, "predicate"), "capture"), "method") == "manual"
  }

  predicate Escalates(s: Value) {
    (AboveEvidence(s) && UnearnedAbove(s)) || (HighAssurance(s) && UnearnedHigh(s))
  }

  predicate BuilderUnverified(s: Value, x: Value) {
    var builder := Member(Environment(s), "builder");
    || !Has(Environment(s), "builder")
    || TextMember(x, "verifiedBuilderId") != Some(TextOf(builder, "id"))
    || TextMember(x, "verifiedWorkflowRef").None?
    || TextMember(x, "verifiedWorkflowRef") != TextMember(builder, "workflowRef")
    || TextMember(x, "verifiedIssuer").None?
    || (TextOf(Environment(s), "executionType") == "github-actions"
        && TextOf(builder, "runnerClass") == "self-hosted" && Member(x, "allowSelfHostedRunners") != Bool(true))
  }

  predicate RunnerUnlisted(s: Value, x: Value) {
    || !Has(Environment(s), "builder")
    || Str(TextOf(Member(Environment(s), "builder"), "id")) !in ItemsMember(x, "allowedIsolatedRunners")
  }

  predicate BuilderDiffers(s: Value, x: Value) {
    (AboveEvidence(s) && BuilderUnverified(s, x)) || (HighAssurance(s) && RunnerUnlisted(s, x))
  }

  predicate SignerDiffers(s: Value, x: Value) {
    var declared := TextMember(Member(Member(s, "predicate"), "agent"), "declaredIdentity");
    || (AboveEvidence(s) && TextMember(x, "verifiedSigner").None?)
    || (declared.Some? && TextMember(x, "verifiedSigner") != declared)
  }

  predicate SameWitness(w: Value, v: Value) {
    TextOf(w, "type") == TextOf(v, "type") && TextOf(Member(w, "digest"), "sha256") == TextOf(Member(v, "digest"), "sha256")
  }

  predicate WitnessUnbacked(s: Value, x: Value) {
    exists w | w in ItemsMember(Environment(s), "witnesses") ::
      forall v | v in ItemsMember(x, "verifiedWitnesses") :: !SameWitness(w, v)
  }

  predicate ApprovalMissing(s: Value, x: Value) {
    || Member(x, "verifiedApproval") != Bool(true)
    || (forall e | e in EvidenceItems(s) ::
          !(TextOf(e, "type") == "approval"
            && Some(TextOf(Member(e, "digest"), "sha256")) == TextMember(Member(x, "verifiedApprovalDigest"), "sha256")))
  }

  function DeclaredConfig(s: Value): Option<string> {
    TextMember(Member(Member(Member(s, "predicate"), "agentConfig"), "primaryDigest"), "sha256")
  }

  predicate Version1(s: Value) {
    TextOf(Member(s, "predicate"), "predicateVersion") == "v1"
  }

  /** Something is declared outside the list, or declared without a list in version 1 above evidence grade. */
  predicate OutsideList(s: Value, declared: seq<string>, list: seq<string>) {
    if list == [] then declared != [] && Version1(s) && AboveEvidence(s)
    else exists d | d in declared :: d !in list
  }

  function ServerDigests(s: Value): seq<string> {
    var servers := ItemsMember(Member(s, "predicate"), "mcpServers");
    seq(|servers|, i requires 0 <= i < |servers| => TextOf(Member(servers[i], "digest"), "sha256"))
  }

  function ListedServers(x: Value): seq<string> {
    var servers := ItemsMember(x, "verifiedMcpServers");
    seq(|servers|, i requires 0 <= i < |servers| => TextOf(servers[i], "sha256"))
  }

  function Delegates(s: Value): seq<string> {
    var chain := ItemsMember(Member(Member(s, "predicate"), "delegation"), "delegationChain");
    seq(|chain|, i requires 0 <= i < |chain| => TextOf(chain[i], "agentRef"))
  }

  function ListedDelegates(x: Value): seq<string> {
    var listed := ItemsMember(x, "verifiedDelegation");
    seq(|listed|, i requires 0 <= i < |listed| => if listed[i].Str? then listed[i].s else "")
  }

  predicate HighEvidenceMissing(s: Value, x: Value) {
    || ApprovalMissing(s, x)
    || (forall e | e in EvidenceItems(s) :: TextOf(e, "type") != "trace")
    || (Version1(s) && DeclaredConfig(s).None?)
  }

  predicate EvidenceMissing(s: Value, x: Value) {
    var config := TextMember(Member(x, "verifiedAgentConfig"), "sha256");
    || (HighAssurance(s) && HighEvidenceMissing(s, x))
    || (config.Some? && DeclaredConfig(s) != config)
    || OutsideList(s, ServerDigests(s), ListedServers(x))
    || OutsideList(s, Delegates(s), ListedDelegates(x))
  }

  predicate Replayed(s: Value, x: Value) {
    var number, run := NumberMember(x, "expectedPullRequestNumber"), TextMember(x, "expectedRunId");
    || (number.Some? && NumberMember(Member(Member(Member(s, "predicate"), "repo"), "pullRequest"), "number") != number)
    || (run.Some? && run != Some(TextOf(Member(s, "predicate"), "runId")))
  }

  predicate TooOld(s: Value, x: Value) {
    var window := NumberMember(x, "freshnessWindowSeconds").GetOr(0.0);
    window > 0.0 &&
      (TextMember(x, "now").None? ||
       var now := ParseNanos(TextOf(x, "now"));
       var finished := ParseNanos(TextOf(Member(Member(s, "predicate"), "timestamps"), "finishedAt"));
       now.Some? && finished.Some? && (now.value - finished.value) as real > window * 1000000000.0)
  }

  predicate RepositoryDiffers(s: Value, x: Value, member: string, known: string) {
    TextOf(Member(Member(s, "predicate"), "repo"), member) != TextOf(x, known)
  }

  predicate RunOffends(code: string, s: Value, x: Value) {
    match code
    case "repo_url_mismatch" => RepositoryDiffers(s, x, "url", "repoUrl")
    case "base_commit_mismatch" => RepositoryDiffers(s, x, "baseCommit", "baseCommit")
    case "subject_digest_mismatch" => SubjectsDiffer(s, x)
    case "privacy_violation" => Leaks(s)
    case "replay_detected" => Replayed(s, x)
    case "stale_attestation" => TooOld(s, x)
    case _ => false
  }

  predicate IdentityOffends(code: string, s: Value, x: Value) {
    match code
    case "builder_identity_mismatch" => BuilderDiffers(s, x)
    case "signer_identity_mismatch" => SignerDiffers(s, x)
    case "transparency_verification_failed" => WitnessUnbacked(s, x)
    case _ => false
  }

  predicate LevelOffends(code: string, s: Value, x: Value) {
    match code
    case "level_below_required" => LevelTooLow(s, x)
    case "level_escalation" => Escalates(s)
    case "missing_evidence" => EvidenceMissing(s, x)
    case _ => false
  }

  /** What a code of the policy says of a statement and a context. */
  predicate Offends(code: string, s: Value, x: Value) {
    RunOffends(code, s, x) || IdentityOffends(code, s, x) || LevelOffends(code, s, x)
  }

  function Claimed(s: Value): G.Claim {
    ClaimOf(Member(s, "predicate"))
  }

  lemma LevelsRead(s: Value)
    ensures Claimed(s).PolicyOrHigher() <==> AboveEvidence(s)
    ensures Claimed(s).level.HighAssurance? <==> HighAssurance(s)
    ensures Claimed(s).version.V1? <==> Version1(s)
  {
  }

  lemma EvidenceRead(s: Value)
    ensures forall e | e in EvidenceItems(s) :: EvidenceOf(e) in Claimed(s).evidence
    ensures forall f | f in Claimed(s).evidence :: exists e | e in EvidenceItems(s) :: f == EvidenceOf(e)
  {
  }

  lemma RequirementOffends(s: Value, x: Value)
    ensures LevelTooLow(s, x) <==> !G.LevelMet(Claimed(s), TrustedOf(x))
  {
    LevelsRead(s);
  }

  lemma RepositoryOffends(s: Value, x: Value)
    ensures RepositoryDiffers(s, x, "url", "repoUrl") <==> Claimed(s).repoUrl != TrustedOf(x).repoUrl
    ensures RepositoryDiffers(s, x, "baseCommit", "baseCommit") <==> Claimed(s).baseCommit != TrustedOf(x).baseCommit
  {
  }

  lemma SubjectRead(t: Value, e: Value)
    ensures SameSubject(t, e) <==> G.Names(StatementSubjectOf(t), ContextSubjectOf(e))
  {
  }

  lemma CurrentSubjects(x: Value)
    ensures var items, es := ItemsMember(x, "subjects"), TrustedOf(x).subjects;
            |es| == |items| && forall i | 0 <= i < |items| :: es[i] == ContextSubjectOf(items[i])
  {
  }

  lemma SubjectsOffend(s: Value, x: Value)
    ensures SubjectsDiffer(s, x) <==> !G.SubjectsBound(SubjectsOf(s), TrustedOf(x))
  {
    hide TrustedOf;
    var claimed, current := ItemsMember(s, "subject"), ItemsMember(x, "subjects");
    var ts, es := SubjectsOf(s), TrustedOf(x).subjects;
    CurrentSubjects(x);
    NamesRead(current, es);
    CoverRead(claimed, current, ts, es);
  }

  lemma NamesRead(current: seq<Value>, es: seq<G.ContextSubject>)
    requires |es| == |current| && forall i | 0 <= i < |current| :: es[i] == ContextSubjectOf(current[i])
    ensures G.NamesDistinct(es) <==>
            !exists i, j | 0 <= i < j < |current| :: TextOf(current[i], "name") == TextOf(current[j], "name")
  {
    hide TextOf;
    assert forall i | 0 <= i < |current| :: es[i].name == TextOf(current[i], "name");
  }

  lemma CoverRead(claimed: seq<Value>, current: seq<Value>, ts: seq<G.StatementSubject>, es: seq<G.ContextSubject>)
    requires |es| == |current| && forall i | 0 <= i < |current| :: es[i] == ContextSubjectOf(current[i])
    requires |ts| == |claimed| && forall i | 0 <= i < |claimed| :: ts[i] == StatementSubjectOf(claimed[i])
    ensures (exists e | e in current :: forall t | t in claimed :: !SameSubject(t, e)) <==>
            !(forall e | e in es :: exists t | t in ts :: G.Names(t, e))
    ensures (exists t | t in claimed && Has(t, "name") :: forall e | e in current :: !SameSubject(t, e)) <==>
            !(forall t | t in ts && t.keyed :: exists e | e in es :: G.Names(t, e))
  {
    hide SameSubject, G.Names, ContextSubjectOf;
    forall t, e
      ensures SameSubject(t, e) <==> G.Names(StatementSubjectOf(t), ContextSubjectOf(e))
    {
      SubjectRead(t, e);
    }
    forall e | e in current
      ensures ContextSubjectOf(e) in es
    {
      var i :| 0 <= i < |current| && current[i] == e;
      assert es[i] in es;
    }
    forall t | t in claimed
      ensures StatementSubjectOf(t) in ts
    {
      var i :| 0 <= i < |claimed| && claimed[i] == t;
      assert ts[i] in ts;
    }
    forall e | e in es
      ensures exists f | f in current :: e == ContextSubjectOf(f)
    {
      var i :| 0 <= i < |es| && es[i] == e;
      assert current[i] in current;
    }
    forall t | t in ts
      ensures exists u | u in claimed :: t == StatementSubjectOf(u)
    {
      var i :| 0 <= i < |ts| && ts[i] == t;
      assert claimed[i] in claimed;
    }
  }

  lemma LeaksOffend(s: Value)
    ensures Leaks(s) <==> !G.PrivacyKept(Claimed(s))
  {
    EvidenceRead(s);
  }

  lemma EscalationOffends(s: Value)
    ensures Escalates(s) <==> !G.LevelEarned(Claimed(s))
  {
    LevelsRead(s);
    EvidenceRead(s);
    WitnessesRead(s);
  }

  lemma WitnessesRead(s: Value)
    ensures forall w | w in ItemsMember(Environment(s), "witnesses") :: AttestedOf(w) in Claimed(s).witnesses
    ensures forall a | a in Claimed(s).witnesses :: exists w | w in ItemsMember(Environment(s), "witnesses") :: a == AttestedOf(w)
    ensures Claimed(s).witnesses == {} <==> ItemsMember(Environment(s), "witnesses") == []
  {
    var items := ItemsMember(Environment(s), "witnesses");
    if items != [] {
      assert AttestedOf(items[0]) in Claimed(s).witnesses;
    }
  }

  lemma BuilderOffends(s: Value, x: Value)
    ensures BuilderDiffers(s, x) <==> !G.BuilderBound(Claimed(s), TrustedOf(x))
  {
    LevelsRead(s);
  }

  lemma SignerOffends(s: Value, x: Value)
    ensures SignerDiffers(s, x) <==> !G.SignerBound(Claimed(s), TrustedOf(x))
  {
    LevelsRead(s);
  }

  lemma WitnessOffends(s: Value, x: Value)
    ensures WitnessUnbacked(s, x) <==> !G.WitnessesBacked(Claimed(s), TrustedOf(x))
  {
    WitnessesRead(s);
    assert forall w, v :: SameWitness(w, v) <==> AttestedOf(w) == AttestedOf(v);
  }

  lemma ApprovalRead(s: Value, x: Value)
    ensures ApprovalMissing(s, x) <==> !G.ApprovalProven(Claimed(s), TrustedOf(x))
  {
    hide TextOf, TextMember;
    EvidenceRead(s);
    KindsRead(s);
    if G.ApprovalProven(Claimed(s), TrustedOf(x)) {
      var f :| f in Claimed(s).evidence && f.kind == "approval" && Some(f.sha256) == TrustedOf(x).approvalDigest;
      var e :| e in EvidenceItems(s) && f == EvidenceOf(e);
    }
  }

  lemma KindsRead(s: Value)
    ensures forall e | e in EvidenceItems(s) :: EvidenceOf(e).kind == TextOf(e, "type")
    ensures forall e | e in EvidenceItems(s) :: EvidenceOf(e).sha256 == TextOf(Member(e, "digest"), "sha256")
    ensures G.HasKind(Claimed(s), "trace") <==> exists e | e in EvidenceItems(s) :: TextOf(e, "type") == "trace"
  {
    EvidenceRead(s);
  }

  lemma ListsRead(s: Value, x: Value)
    requires ContextShape(x)
    ensures Claimed(s).mcpServers == (set d | d in ServerDigests(s))
    ensures TrustedOf(x).mcpServers == (set d | d in ListedServers(x))
    ensures Claimed(s).delegation == (set d | d in Delegates(s))
    ensures TrustedOf(x).delegation == (set d | d in ListedDelegates(x))
  {
    ServersRead(s, x);
    DelegatesRead(s, x);
  }

  /** The values a function takes on the items of a list, as a set and as a list. */
  lemma ImageRead<T>(items: seq<Value>, f: Value -> T, list: seq<T>)
    requires |list| == |items| && forall i | 0 <= i < |items| :: list[i] == f(items[i])
    ensures (set m | m in items :: f(m)) == set d | d in list
  {
    forall m | m in items
      ensures f(m) in list
    {
      var i :| 0 <= i < |items| && items[i] == m;
      assert list[i] in list;
    }
  }

  lemma ServersRead(s: Value, x: Value)
    ensures Claimed(s).mcpServers == (set d | d in ServerDigests(s))
    ensures TrustedOf(x).mcpServers == (set d | d in ListedServers(x))
  {
    hide ClaimOf, TrustedOf, ServerDigests, ListedServers;
    ServersClaimed(s);
    ServersTrusted(x);
  }

  lemma ServersClaimed(s: Value)
    ensures Claimed(s).mcpServers == set d | d in ServerDigests(s)
  {
    hide TextOf, TextMember, TrustedOf;
    ImageRead(ItemsMember(Member(s, "predicate"), "mcpServers"), m => DigestOf(m), ServerDigests(s));
  }

  lemma ServersTrusted(x: Value)
    ensures TrustedOf(x).mcpServers == set d | d in ListedServers(x)
  {
    hide TextOf, TextMember, ClaimOf;
    ImageRead(ItemsMember(x, "verifiedMcpServers"), m => TextOf(m, "sha256"), ListedServers(x));
  }

  lemma ListedAreTexts(x: Value)
    requires ContextShape(x)
    ensures forall d | d in ItemsMember(x, "verifiedDelegation") :: d.Str?
  {
    assert ContextPart(Harness, x);
    forall d | d in ItemsMember(x, "verifiedDelegation")
      ensures d.Str?
    {
      assert IsPlainText(d, 256);
    }
  }

  lemma DelegatesRead(s: Value, x: Value)
    requires ContextShape(x)
    ensures Claimed(s).delegation == (set d | d in Delegates(s))
    ensures TrustedOf(x).delegation == (set d | d in ListedDelegates(x))
  {
    hide ContextShape, ClaimOf, TrustedOf, Delegates, ListedDelegates;
    DelegatesClaimed(s);
    DelegatesTrusted(x);
  }

  lemma DelegatesClaimed(s: Value)
    ensures Claimed(s).delegation == set d | d in Delegates(s)
  {
    hide TextOf, TextMember, TrustedOf;
    var chain := ItemsMember(Member(Member(s, "predicate"), "delegation"), "delegationChain");
    ImageRead(chain, d => TextOf(d, "agentRef"), Delegates(s));
  }

  lemma DelegatesTrusted(x: Value)
    requires ContextShape(x)
    ensures TrustedOf(x).delegation == set d | d in ListedDelegates(x)
  {
    hide ContextShape, TextOf, TextMember, ClaimOf;
    ListedAreTexts(x);
    var listed := ItemsMember(x, "verifiedDelegation");
    ImageRead(listed, (d: Value) => if d.Str? then d.s else "", ListedDelegates(x));
    assert (set d | d in listed && d.Str? :: d.s) == set d | d in listed :: if d.Str? then d.s else "";
  }

  lemma ListRead(s: Value, declared: seq<string>, list: seq<string>)
    ensures OutsideList(s, declared, list) <==> !G.Allowed(Claimed(s), set d | d in declared, set d | d in list)
  {
    hide ClaimOf;
    LevelsRead(s);
    var members, allowed := set d | d in declared, set d | d in list;
    assert list != [] ==> list[0] in allowed;
    assert declared != [] ==> declared[0] in members;
    assert list == [] ==> allowed == {};
    assert declared == [] ==> members == {};
    if d: string :| d in declared && d !in list {
      assert d in members && d !in allowed;
    }
  }

  lemma EvidenceOffends(s: Value, x: Value)
    requires ContextShape(x)
    ensures EvidenceMissing(s, x) <==> !G.EvidenceComplete(Claimed(s), TrustedOf(x))
  {
    hide ContextShape, ApprovalMissing, G.ApprovalProven, G.HasKind;
    hide OutsideList, G.Allowed, AboveEvidence, HighAssurance, Version1;
    hide ServerDigests, ListedServers, Delegates, ListedDelegates;
    LevelsRead(s);
    KindsRead(s);
    ApprovalRead(s, x);
    ListsRead(s, x);
    ListRead(s, ServerDigests(s), ListedServers(x));
    ListRead(s, Delegates(s), ListedDelegates(x));
  }

  lemma ReplayOffends(s: Value, x: Value)
    ensures Replayed(s, x) <==> !G.NotReplayed(Claimed(s), TrustedOf(x))
  {
  }

  lemma AgeOffends(s: Value, x: Value)
    ensures TooOld(s, x) <==> !G.Fresh(Claimed(s), TrustedOf(x))
  {
    hide ParseNanos;
  }

  /** Each gate fails exactly on the documents that offend its code. */
  lemma GateOffends(s: Value, x: Value, code: Code)
    requires ContextShape(x)
    ensures Offends(code.Name(), s, x) <==> !G.Holds(code, Claimed(s), SubjectsOf(s), TrustedOf(x))
  {
    hide RunOffends, IdentityOffends, LevelOffends, G.Holds, ContextShape, ClaimOf, TrustedOf, SubjectsOf;
    RunGateOffends(s, x, code);
    IdentityGateOffends(s, x, code);
    LevelGateOffends(s, x, code);
  }

  const RUN_CODES := {RepoUrlMismatch, BaseCommitMismatch, SubjectDigestMismatch, PrivacyViolation, ReplayDetected,
                      StaleAttestation}
  const IDENTITY_CODES := {BuilderIdentityMismatch, SignerIdentityMismatch, TransparencyVerificationFailed}

  lemma RunGateOffends(s: Value, x: Value, code: Code)
    ensures RunOffends(code.Name(), s, x) <==>
            code in RUN_CODES && !G.Holds(code, Claimed(s), SubjectsOf(s), TrustedOf(x))
  {
    hide RepositoryDiffers, SubjectsDiffer, Leaks, Replayed, TooOld, TrustedOf, ClaimOf, SubjectsOf;
    hide G.SubjectsBound, G.PrivacyKept, G.NotReplayed, G.Fresh;
    RepositoryOffends(s, x);
    SubjectsOffend(s, x);
    LeaksOffend(s);
    ReplayOffends(s, x);
    AgeOffends(s, x);
  }

  lemma IdentityGateOffends(s: Value, x: Value, code: Code)
    ensures IdentityOffends(code.Name(), s, x) <==>
            code in IDENTITY_CODES && !G.Holds(code, Claimed(s), SubjectsOf(s), TrustedOf(x))
  {
    hide BuilderDiffers, SignerDiffers, WitnessUnbacked, TrustedOf, ClaimOf, SubjectsOf;
    hide G.BuilderBound, G.SignerBound, G.WitnessesBacked;
    BuilderOffends(s, x);
    SignerOffends(s, x);
    WitnessOffends(s, x);
  }

  lemma LevelGateOffends(s: Value, x: Value, code: Code)
    requires ContextShape(x)
    ensures LevelOffends(code.Name(), s, x) <==>
            code !in RUN_CODES + IDENTITY_CODES && !G.Holds(code, Claimed(s), SubjectsOf(s), TrustedOf(x))
  {
    hide LevelTooLow, Escalates, EvidenceMissing, TrustedOf, ClaimOf, SubjectsOf, ContextShape;
    hide G.LevelMet, G.LevelEarned, G.EvidenceComplete;
    RequirementOffends(s, x);
    EscalationOffends(s);
    EvidenceOffends(s, x);
  }

  lemma ReachedShape(s: Value, x: Value)
    requires Reached(s, x)
    ensures ContextShape(x)
  {
    hide *;
    var v := ReachedVersion(s, x);
    ReachesIff(v, s, x);
    AcceptedIff(v, Member(s, "predicate"), x);
  }

  lemma FailureIs(s: Value, x: Value, code: Code)
    ensures code in StatementFailures(s, x) <==>
            code in POLICY_CODES && !G.Holds(code, Claimed(s), SubjectsOf(s), TrustedOf(x))
  {
    hide ClaimOf, TrustedOf, SubjectsOf, G.Holds;
  }

  lemma RunOffendingCode(s: Value, x: Value, code: string) returns (c: Code)
    requires RunOffends(code, s, x)
    ensures c.Name() == code
  {
    hide RepositoryDiffers, SubjectsDiffer, Leaks, Replayed, TooOld;
    match code
    case "repo_url_mismatch" => c := RepoUrlMismatch;
    case "base_commit_mismatch" => c := BaseCommitMismatch;
    case "subject_digest_mismatch" => c := SubjectDigestMismatch;
    case "privacy_violation" => c := PrivacyViolation;
    case "replay_detected" => c := ReplayDetected;
    case "stale_attestation" => c := StaleAttestation;
  }

  lemma IdentityOffendingCode(s: Value, x: Value, code: string) returns (c: Code)
    requires IdentityOffends(code, s, x)
    ensures c.Name() == code
  {
    hide BuilderDiffers, SignerDiffers, WitnessUnbacked;
    match code
    case "builder_identity_mismatch" => c := BuilderIdentityMismatch;
    case "signer_identity_mismatch" => c := SignerIdentityMismatch;
    case "transparency_verification_failed" => c := TransparencyVerificationFailed;
  }

  lemma LevelOffendingCode(s: Value, x: Value, code: string) returns (c: Code)
    requires LevelOffends(code, s, x)
    ensures c.Name() == code
  {
    hide LevelTooLow, Escalates, EvidenceMissing;
    match code
    case "level_below_required" => c := LevelBelowRequired;
    case "level_escalation" => c := LevelEscalation;
    case "missing_evidence" => c := MissingEvidence;
  }

  lemma OffendingCode(s: Value, x: Value, code: string) returns (c: Code)
    requires Offends(code, s, x)
    ensures c.Name() == code
  {
    hide RunOffends, IdentityOffends, LevelOffends;
    if RunOffends(code, s, x) {
      c := RunOffendingCode(s, x, code);
    } else if IdentityOffends(code, s, x) {
      c := IdentityOffendingCode(s, x, code);
    } else {
      c := LevelOffendingCode(s, x, code);
    }
  }

  lemma FailingGateIsListed(c: G.Claim, s: seq<G.StatementSubject>, x: G.Trusted, code: Code)
    requires !G.Holds(code, c, s, x)
    ensures code in POLICY_CODES
  {
  }

  /**
   What is reported for a statement that reaches the policy, code by code and for every text: exactly the
   offences of the two documents.
   */
  lemma ReportedIsOffence(s: Value, x: Value, code: string)
    requires Reached(s, x)
    ensures code in Decide(Some(DEFAULT), s, x) <==> Offends(code, s, x)
  {
    hide *;
    var v := ReachedVersion(s, x);
    ReachedShape(s, x);
    DecisionIsFailingGates(v, s, x);
    if Offends(code, s, x) {
      var c := OffendingCode(s, x, code);
      GateOffends(s, x, c);
      FailingGateIsListed(Claimed(s), SubjectsOf(s), TrustedOf(x), c);
      FailureIs(s, x, c);
      NamesMembership(StatementFailures(s, x), c);
    }
    if code in Decide(Some(DEFAULT), s, x) {
      var c := NamedFailure(StatementFailures(s, x), code);
      FailureIs(s, x, c);
      GateOffends(s, x, c);
    }
  }

  lemma NamedFailure(codes: set<Code>, code: string) returns (c: Code)
    requires code in Names(codes)
    ensures c in codes && c.Name() == code
  {
    c :| c in codes && c.Name() == code;
  }

  /** So a statement that reaches the policy is valid exactly when the documents offend no code. */
  lemma ValidIffNoOffence(s: Value, x: Value)
    requires Reached(s, x)
    ensures Verdict(Some(DEFAULT), s, x).valid <==> forall code :: !Offends(code, s, x)
  {
    hide *;
    ValidIffNoCode(Some(DEFAULT), s, x);
    forall code
      ensures code in Decide(Some(DEFAULT), s, x) <==> Offends(code, s, x)
    {
      ReportedIsOffence(s, x, code);
    }
  }
}
