/** How the gates respond to a lower level, a larger allowlist, and a newer version. */
module Monotonicity {
  import opened FailureCodes
  import opened Schema
  import opened Gates

  /** Claiming a lower level breaks no gate but the required level. */
  lemma LowerLevelKeepsGates(c: Claim, s: seq<StatementSubject>, x: Trusted, lower: Level, code: Code)
    requires lower.Rank() <= c.level.Rank() && code != LevelBelowRequired
    requires Holds(code, c, s, x)
    ensures Holds(code, c.(level := lower), s, x)
  {
  }

  /** Nothing but the allowlists differs, and each grew. */
  predicate Extends(x: Trusted, y: Trusted) {
    && y == x.(witnesses := y.witnesses, isolatedRunners := y.isolatedRunners,
               mcpServers := y.mcpServers, delegation := y.delegation)
    && x.witnesses <= y.witnesses && x.isolatedRunners <= y.isolatedRunners
    && x.mcpServers <= y.mcpServers && x.delegation <= y.delegation
  }

  /** Going from one allowlist to a larger one is harmless: it was a list before, or nothing rests on it. */
  predicate MayGrow(c: Claim, declared: set<string>, before: set<string>, after: set<string>) {
    (before == {} ==> after == {}) || declared == {} || (c.version.V1? && c.PolicyOrHigher())
  }

  /** A larger allowlist breaks no gate, list by list. */
  lemma LargerAllowlistKeepsGates(c: Claim, s: seq<StatementSubject>, x: Trusted, y: Trusted, code: Code)
    requires Extends(x, y) && Holds(code, c, s, x)
    requires MayGrow(c, c.mcpServers, x.mcpServers, y.mcpServers)
    requires MayGrow(c, c.delegation, x.delegation, y.delegation)
    ensures Holds(code, c, s, y)
  {
  }

  /** Whatever list is started, what the claim declares stays allowed. */
  ghost predicate StartingAListIsSafe(c: Claim, declared: set<string>) {
    forall list: set<string> :: Allowed(c, declared, {}) ==> Allowed(c, declared, list)
  }

  /** Starting an allowlist is safe for a claim exactly when it declares nothing, or was not admitted without one. */
  lemma StartingAListIsSafeIff(c: Claim, declared: set<string>)
    ensures StartingAListIsSafe(c, declared) <==> declared == {} || (c.version.V1? && c.PolicyOrHigher())
  {
    if declared != {} && !(c.version.V1? && c.PolicyOrHigher()) {
      var other: set<string> := {SomethingElse(declared)};
      assert other != {} && !(declared <= other);
      assert Allowed(c, declared, {}) && !Allowed(c, declared, other);
    }
  }

  /** A string that is not the only one declared. */
  ghost function SomethingElse(declared: set<string>): (s: string)
    ensures declared != {} ==> !(declared <= {s})
  {
    if declared <= {""} then "?" else ""
  }

  /** A larger context is safe for a claim in every way its lists can grow exactly under these conditions. */
  lemma GrowthIsSafeIff(c: Claim, declared: set<string>, before: set<string>)
    ensures (forall after :: before <= after && Allowed(c, declared, before) ==> Allowed(c, declared, after)) <==>
            before != {} || declared == {} || (c.version.V1? && c.PolicyOrHigher())
  {
    StartingAListIsSafeIff(c, declared);
    if before == {} && !StartingAListIsSafe(c, declared) {
      var list :| Allowed(c, declared, {}) && !Allowed(c, declared, list);
      assert before <= list;
    }
  }

  /** What a version 0 predicate can claim. */
  predicate IsVersion0(c: Claim) {
    c.version.V0? && c.captureMethod.None? && c.agentConfig.None? && c.mcpServers == {} && c.delegation == {}
  }

  /** Read as version 1, a version 0 claim keeps every gate but the agent contract asked of high assurance. */
  lemma UpgradeKeepsGates(c: Claim, s: seq<StatementSubject>, x: Trusted, code: Code)
    requires IsVersion0(c)
    ensures Holds(code, c.(version := V1), s, x) <==>
            Holds(code, c, s, x) && !(code == MissingEvidence && c.level.HighAssurance?)
  {
  }
}
