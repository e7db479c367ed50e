/** Rewriting one member of an accepted document: what the contracts and the views make of it. */
module Rewriting {
  import opened Json
  import opened Schema
  import opened Views
  import opened Reading
  import G = Gates

  /** Setting a member leaves the others alone. */
  lemma WithKeeps(j: Value, key: string, v: Value)
    requires j.Obj?
    ensures Has(With(j, key, v), key) && Member(With(j, key, v), key) == v
    ensures forall k | k != key :: Has(With(j, key, v), k) <==> Has(j, k)
    ensures forall k | k != key :: Member(With(j, key, v), k) == Member(j, k)
    ensures With(j, key, v).fields.Keys == j.fields.Keys + {key}
  {
  }

  /** `p` and `q` agree on every member but `key`, which both have. */
  predicate SameBut(p: Value, q: Value, key: string) {
    && p.Obj? && q.Obj? && key in p.fields && p.fields.Keys == q.fields.Keys
    && forall k | k in p.fields && k != key :: q.fields[k] == p.fields[k]
  }

  lemma SameMember(p: Value, q: Value, key: string, k: string)
    requires SameBut(p, q, key) && k != key
    ensures Has(q, k) <==> Has(p, k)
    ensures Member(q, k) == Member(p, k) && ItemsMember(q, k) == ItemsMember(p, k)
  {
  }

  lemma SameClosed(p: Value, q: Value, key: string, required: set<string>, optional: set<string>)
    requires SameBut(p, q, key) && Closed(p, required, optional)
    ensures Closed(q, required, optional)
  {
  }

  /** Changing the level to another level keeps a predicate well-shaped. */
  lemma RelabelKeepsCore(l: Layer, v: Version, p: Value, q: Value)
    requires SameBut(p, q, "verificationLevel") && CoreShape(l, v, p)
    requires IsLevel(Member(q, "verificationLevel"))
    ensures CoreShape(l, v, q)
  {
    hide IsRunId, IsRepo, IsHumanApproval, IsPrivacy, IsTimestamps;
    hide IsVersion, IsAgent, IsEnvironment, IsEvidence;
    SameMember(p, q, "verificationLevel", "predicateVersion");
    SameMember(p, q, "verificationLevel", "runId");
    SameMember(p, q, "verificationLevel", "repo");
    SameMember(p, q, "verificationLevel", "agent");
    SameMember(p, q, "verificationLevel", "environment");
    SameMember(p, q, "verificationLevel", "humanApproval");
    SameMember(p, q, "verificationLevel", "privacy");
    SameMember(p, q, "verificationLevel", "timestamps");
    SameMember(p, q, "verificationLevel", "evidence");
  }

  /** No member outside the required core depends on level, version or times. */
  lemma SameOptional(l: Layer, p: Value, q: Value, key: string)
    requires SameBut(p, q, key) && key in {"verificationLevel", "predicateVersion", "timestamps"}
    ensures OptionalShape(l, p) ==> OptionalShape(l, q)
    ensures HarnessShape(l, p) ==> HarnessShape(l, q)
  {
    SameMember(p, q, key, "model");
    SameMember(p, q, key, "runtime");
    SameMember(p, q, key, "changes");
    SameMember(p, q, key, "sidecars");
    SameMember(p, q, key, "materials");
    SameMember(p, q, key, "extensions");
    SameMember(p, q, key, "evidence");
    SameMember(p, q, key, "capture");
    SameMember(p, q, key, "agentConfig");
    SameMember(p, q, key, "mcpServers");
    SameMember(p, q, key, "tools");
    SameMember(p, q, key, "delegation");
  }

  lemma RelabelKeepsShape(l: Layer, v: Version, p: Value, q: Value)
    requires SameBut(p, q, "verificationLevel") && PredicateShape(l, v, p)
    requires IsLevel(Member(q, "verificationLevel"))
    ensures PredicateShape(l, v, q)
  {
    forall part: Part
      ensures PredicatePart(part, l, v, q)
    {
      assert PredicatePart(part, l, v, p);
      match part
      case Keys =>
        SameClosed(p, q, "verificationLevel", REQUIRED, if v.V1? then OPTIONAL + OPTIONAL_V1 else OPTIONAL);
      case Core => RelabelKeepsCore(l, v, p, q);
      case _ => SameOptional(l, p, q, "verificationLevel");
    }
  }

  /** Changing the timestamps to others the contract accepts keeps a predicate well-shaped. */
  lemma RetimeKeepsCore(l: Layer, v: Version, p: Value, q: Value)
    requires SameBut(p, q, "timestamps") && CoreShape(l, v, p) && IsTimestamps(l, Member(q, "timestamps"))
    ensures CoreShape(l, v, q)
  {
    hide IsRunId, IsRepo, IsHumanApproval, IsPrivacy, IsTimestamps;
    hide IsVersion, IsLevel, IsAgent, IsEnvironment, IsEvidence;
    SameMember(p, q, "timestamps", "predicateVersion");
    SameMember(p, q, "timestamps", "runId");
    SameMember(p, q, "timestamps", "verificationLevel");
    SameMember(p, q, "timestamps", "repo");
    SameMember(p, q, "timestamps", "agent");
    SameMember(p, q, "timestamps", "environment");
    SameMember(p, q, "timestamps", "humanApproval");
    SameMember(p, q, "timestamps", "privacy");
    SameMember(p, q, "timestamps", "evidence");
  }

  lemma RetimeKeepsShape(l: Layer, v: Version, p: Value, q: Value)
    requires SameBut(p, q, "timestamps") && PredicateShape(l, v, p) && IsTimestamps(l, Member(q, "timestamps"))
    ensures PredicateShape(l, v, q)
  {
    hide CoreShape, OptionalShape, HarnessShape, IsTimestamps;
    forall part: Part
      ensures PredicatePart(part, l, v, q)
    {
      assert PredicatePart(part, l, v, p);
      match part
      case Keys =>
        SameClosed(p, q, "timestamps", REQUIRED, if v.V1? then OPTIONAL + OPTIONAL_V1 else OPTIONAL);
      case Core => RetimeKeepsCore(l, v, p, q);
      case _ => SameOptional(l, p, q, "timestamps");
    }
  }

  predicate AgreeOn(p: Value, q: Value, key: string) {
    Member(p, key) == Member(q, key)
  }

  /** `p` and `q` have the same members, as far as a claim is read from them, but for level, version and times. */
  predicate ClaimedAlike(p: Value, q: Value) {
    && AgreeOn(p, q, "runId") && AgreeOn(p, q, "repo") && AgreeOn(p, q, "agent") && AgreeOn(p, q, "environment")
    && AgreeOn(p, q, "humanApproval") && AgreeOn(p, q, "evidence") && AgreeOn(p, q, "extensions")
    && AgreeOn(p, q, "capture") && AgreeOn(p, q, "agentConfig")
    && AgreeOn(p, q, "mcpServers") && AgreeOn(p, q, "delegation")
  }

  lemma RewritingKeepsClaimed(p: Value, key: string, v: Value)
    requires p.Obj? && key in {"verificationLevel", "predicateVersion", "timestamps"}
    ensures ClaimedAlike(p, With(p, key, v))
  {
    WithKeeps(p, key, v);
    forall k | k != key
      ensures AgreeOn(p, With(p, key, v), k)
    {
    }
    hide AgreeOn, With;
  }

  lemma AlikeClaims(p: Value, q: Value)
    requires ClaimedAlike(p, q)
    ensures ClaimOf(q)
         == ClaimOf(p).(version := ClaimOf(q).version, level := ClaimOf(q).level, finishedAt := ClaimOf(q).finishedAt)
  {
    assert ItemsMember(q, "evidence") == ItemsMember(p, "evidence");
    assert ItemsMember(q, "mcpServers") == ItemsMember(p, "mcpServers");
  }

  /** The claim of a relabelled predicate is the claim with the other level. */
  lemma RelabelledClaim(p: Value, level: G.Level)
    requires p.Obj?
    ensures ClaimOf(With(p, "verificationLevel", Str(level.Name()))) == ClaimOf(p).(level := level)
  {
    RewritingKeepsClaimed(p, "verificationLevel", Str(level.Name()));
    AlikeClaims(p, With(p, "verificationLevel", Str(level.Name())));
    WithKeeps(p, "verificationLevel", Str(level.Name()));
  }

  /** The claim of a predicate with other times is the claim with the other finish. */
  lemma RetimedClaim(p: Value, t: Value)
    requires p.Obj?
    ensures ClaimOf(With(p, "timestamps", t)) == ClaimOf(p).(finishedAt := TextOf(t, "finishedAt"))
  {
    RewritingKeepsClaimed(p, "timestamps", t);
    AlikeClaims(p, With(p, "timestamps", t));
    WithKeeps(p, "timestamps", t);
  }

  lemma UpgradedClaim(p: Value)
    requires p.Obj?
    ensures ClaimOf(With(p, "predicateVersion", Str("v1"))) == ClaimOf(p).(version := V1)
  {
    RewritingKeepsClaimed(p, "predicateVersion", Str("v1"));
    AlikeClaims(p, With(p, "predicateVersion", Str("v1")));
    WithKeeps(p, "predicateVersion", Str("v1"));
  }

  lemma UpgradeKeepsAgent(l: Layer, j: Value)
    ensures IsAgent(l, V0, j) ==> IsAgent(l, V1, j)
  {
  }

  lemma UpgradeKeepsEnvironment(l: Layer, j: Value)
    ensures IsEnvironment(l, V0, j) ==> IsEnvironment(l, V1, j)
  {
    assert IsBuilder(l, V0, Member(j, "builder")) ==> IsBuilder(l, V1, Member(j, "builder"));
  }

  lemma UpgradeKeepsEvidence(l: Layer, j: Value)
    ensures IsEvidence(l, V0, j) ==> IsEvidence(l, V1, j)
  {
  }

  /** The version 1 contract allows every value a version 0 core may hold. */
  lemma UpgradeKeepsCore(l: Layer, p: Value, q: Value)
    requires SameBut(p, q, "predicateVersion") && CoreShape(l, V0, p)
    requires Member(q, "predicateVersion") == Str("v1")
    ensures CoreShape(l, V1, q)
  {
    hide IsRunId, IsRepo, IsHumanApproval, IsPrivacy, IsTimestamps;
    hide IsLevel, IsAgent, IsEnvironment, IsEvidence;
    SameMember(p, q, "predicateVersion", "runId");
    SameMember(p, q, "predicateVersion", "verificationLevel");
    SameMember(p, q, "predicateVersion", "repo");
    SameMember(p, q, "predicateVersion", "agent");
    SameMember(p, q, "predicateVersion", "environment");
    SameMember(p, q, "predicateVersion", "humanApproval");
    SameMember(p, q, "predicateVersion", "privacy");
    SameMember(p, q, "predicateVersion", "timestamps");
    SameMember(p, q, "predicateVersion", "evidence");
    UpgradeKeepsAgent(l, Member(p, "agent"));
    UpgradeKeepsEnvironment(l, Member(p, "environment"));
    forall e | e in ItemsMember(p, "evidence")
      ensures IsEvidence(l, V1, e)
    {
      UpgradeKeepsEvidence(l, e);
    }
  }

  lemma UpgradeKeepsShape(l: Layer, p: Value, q: Value)
    requires SameBut(p, q, "predicateVersion") && PredicateShape(l, V0, p)
    requires Member(q, "predicateVersion") == Str("v1")
    ensures PredicateShape(l, V1, q)
  {
    assert PredicatePart(Keys, l, V0, p);
    forall part: Part
      ensures PredicatePart(part, l, V1, q)
    {
      match part
      case Keys =>
      case Core =>
        assert PredicatePart(Core, l, V0, p);
        UpgradeKeepsCore(l, p, q);
      case Extras =>
        assert PredicatePart(Extras, l, V0, p);
        SameOptional(l, p, q, "predicateVersion");
      case Harness =>
        HarnessShapeHolds(l, V0, p);
        SameOptional(l, p, q, "predicateVersion");
    }
  }

  /** A version 0 predicate claims nothing that only version 1 can claim. */
  lemma Version0Claim(l: Layer, p: Value)
    requires PredicateShape(l, V0, p) && TextOf(p, "predicateVersion") == "v0"
    ensures ClaimOf(p).version.V0? && ClaimOf(p).captureMethod.None? && ClaimOf(p).agentConfig.None?
    ensures ClaimOf(p).mcpServers == {} && ClaimOf(p).delegation == {}
  {
    assert PredicatePart(Keys, l, V0, p);
    AddedInV1("capture");
    AddedInV1("agentConfig");
    AddedInV1("mcpServers");
    AddedInV1("delegation");
    assert ItemsMember(p, "mcpServers") == [] && ItemsMember(Member(p, "delegation"), "delegationChain") == [];
  }
}
