/** Relabelling, upgrading and allowlisting whole documents, and what becomes of the verdict. */
module Lifting {
  import opened Basics
  import opened Json
  import opened FailureCodes
  import opened Schema
  import opened Statements
  import M = Monotonicity
  import opened Views
  import opened Verifier
  import opened Policy
  import opened Rewriting
  import opened Decisions
  import G = Gates

  function Body(statement: Value): Value {
    Member(statement, "predicate")
  }

  function Relabelled(statement: Value, level: G.Level): Value
    requires statement.Obj? && Body(statement).Obj?
  {
    With(statement, "predicate", With(Body(statement), "verificationLevel", Str(level.Name())))
  }

  function Upgraded(statement: Value): Value
    requires statement.Obj? && Body(statement).Obj?
  {
    With(With(statement, "predicateType", Str(PREDICATE_TYPE_V1)),
         "predicate", With(Body(statement), "predicateVersion", Str("v1")))
  }

  lemma RoutedIsObject(statement: Value)
    requires RoutedVersion(statement).Some?
    ensures statement.Obj? && Has(statement, "predicate") && Body(statement).Obj?
  {
    var doc := Parse(statement).value;
    RoutingSelectsDeclaredContract(doc);
  }

  /** Replacing the predicate by one that declares the same version changes neither route nor subjects. */
  lemma ReplacedRoute(statement: Value, q: Value)
    requires RoutedVersion(statement).Some? && statement.Obj? && q.Obj?
    requires TextOf(q, "predicateVersion") == TextOf(Body(statement), "predicateVersion")
    ensures RoutedVersion(With(statement, "predicate", q)) == RoutedVersion(statement)
    ensures SubjectsOf(With(statement, "predicate", q)) == SubjectsOf(statement)
    ensures Body(With(statement, "predicate", q)) == q
  {
    WithKeeps(statement, "predicate", q);
    var t := With(statement, "predicate", q);
    assert Parse(t) == Some(Parse(statement).value.(body := q));
    assert RoutingCodes(Parse(t).value) == RoutingCodes(Parse(statement).value);
  }

  lemma RelabelledRoute(statement: Value, level: G.Level)
    requires RoutedVersion(statement).Some? && statement.Obj? && Body(statement).Obj?
    ensures RoutedVersion(Relabelled(statement, level)) == RoutedVersion(statement)
    ensures SubjectsOf(Relabelled(statement, level)) == SubjectsOf(statement)
    ensures Body(Relabelled(statement, level)) == With(Body(statement), "verificationLevel", Str(level.Name()))
  {
    WithKeeps(Body(statement), "verificationLevel", Str(level.Name()));
    ReplacedRoute(statement, With(Body(statement), "verificationLevel", Str(level.Name())));
  }

  lemma RelabelledIsAccepted(v: Version, p: Value, context: Value, level: G.Level)
    requires Accepted(v, p, context)
    ensures p.Obj? && Accepted(v, With(p, "verificationLevel", Str(level.Name())), context)
  {
    RequiredMember(JsonSchema, v, p, "verificationLevel");
    var q := With(p, "verificationLevel", Str(level.Name()));
    WithKeeps(p, "verificationLevel", Str(level.Name()));
    RelabelKeepsShape(JsonSchema, v, p, q);
    RelabelKeepsShape(Cue, v, p, q);
  }

  /** A relabelled statement reaches the policy again, with the same claim but for the level. */
  lemma RelabelledReaches(v: Version, statement: Value, context: Value, level: G.Level)
    requires Reaches(v, statement, context)
    ensures statement.Obj? && Body(statement).Obj?
    ensures Reaches(v, Relabelled(statement, level), context)
    ensures StatementFailures(Relabelled(statement, level), context)
         == Failing(ClaimOf(Body(statement)).(level := level), SubjectsOf(statement), TrustedOf(context))
  {
    ReachesIff(v, statement, context);
    RoutedIsObject(statement);
    RelabelledRoute(statement, level);
    RelabelledIsAccepted(v, Body(statement), context, level);
    RelabelledClaim(Body(statement), level);
    FailuresOf(Relabelled(statement, level), context);
    ReachesIff(v, Relabelled(statement, level), context);
  }

  lemma RequiredMember(l: Layer, v: Version, p: Value, key: string)
    requires PredicateShape(l, v, p) && key in REQUIRED
    ensures Has(p, key)
  {
    assert PredicatePart(Keys, l, v, p);
  }

  lemma LowerLevelShrinksFailures(c: G.Claim, s: seq<G.StatementSubject>, x: G.Trusted, lower: G.Level)
    requires lower.Rank() <= c.level.Rank()
    ensures Failing(c.(level := lower), s, x) <= Failing(c, s, x) + {LevelBelowRequired}
    ensures LevelBelowRequired in Failing(c.(level := lower), s, x) <==> lower.Rank() < x.required.Rank()
  {
    forall code | code in Failing(c.(level := lower), s, x) && code != LevelBelowRequired
      ensures code in Failing(c, s, x)
    {
      if G.Holds(code, c, s, x) {
        M.LowerLevelKeepsGates(c, s, x, lower, code);
      }
    }
    assert LevelBelowRequired in POLICY_CODES;
  }

  /** Lowering the claimed level keeps acceptance and adds no code but `level_below_required`. */
  lemma LowerLevelAddsNoFailure(v: Version, statement: Value, context: Value, lower: G.Level)
    requires Reaches(v, statement, context) && lower.Rank() <= ClaimOf(Body(statement)).level.Rank()
    ensures statement.Obj? && Body(statement).Obj? && Reaches(v, Relabelled(statement, lower), context)
    ensures StatementFailures(Relabelled(statement, lower), context)
         <= StatementFailures(statement, context) + {LevelBelowRequired}
    ensures LevelBelowRequired in StatementFailures(Relabelled(statement, lower), context)
       <==> lower.Rank() < TrustedOf(context).required.Rank()
  {
    RelabelledReaches(v, statement, context, lower);
    FailuresOf(statement, context);
    LowerLevelShrinksFailures(ClaimOf(Body(statement)), SubjectsOf(statement), TrustedOf(context), lower);
  }

  /** A statement valid at its level is valid at every lower level the verifier still requires. */
  lemma ValidAtEveryLevelBetween(statement: Value, context: Value, lower: G.Level)
    requires Verdict(Some(DEFAULT), statement, context).valid
    requires TrustedOf(context).required.Rank() <= lower.Rank() <= ClaimOf(Body(statement)).level.Rank()
    ensures statement.Obj? && Body(statement).Obj?
    ensures Verdict(Some(DEFAULT), Relabelled(statement, lower), context).valid
  {
    hide *;
    ValidIffEveryGateHolds(statement, context);
    var v := ReachedVersion(statement, context);
    LowerLevelAddsNoFailure(v, statement, context, lower);
    ReachedIsValidIff(v, Relabelled(statement, lower), context);
  }

  lemma UpgradedRoute(statement: Value)
    requires RoutedVersion(statement) == Some(V0) && statement.Obj? && Body(statement).Obj?
    ensures RoutedVersion(Upgraded(statement)) == Some(V1)
    ensures SubjectsOf(Upgraded(statement)) == SubjectsOf(statement)
    ensures Body(Upgraded(statement)) == With(Body(statement), "predicateVersion", Str("v1"))
    ensures TextOf(Body(statement), "predicateVersion") == "v0"
  {
    var doc := Parse(statement).value;
    RoutingSelectsDeclaredContract(doc);
    var retyped := With(statement, "predicateType", Str(PREDICATE_TYPE_V1));
    var q := With(Body(statement), "predicateVersion", Str("v1"));
    WithKeeps(statement, "predicateType", Str(PREDICATE_TYPE_V1));
    WithKeeps(retyped, "predicate", q);
    WithKeeps(Body(statement), "predicateVersion", Str("v1"));
    var t := Upgraded(statement);
    assert ItemsMember(t, "subject") == ItemsMember(statement, "subject");
    assert Parse(t) == Some(Document(doc.kind, PREDICATE_TYPE_V1, q));
    assert UnsupportedStatementType !in RoutingCodes(doc);
    assert RoutingCodes(Parse(t).value) == {};
  }

  lemma UpgradedIsAccepted(p: Value, context: Value)
    requires Accepted(V0, p, context)
    ensures p.Obj? && Accepted(V1, With(p, "predicateVersion", Str("v1")), context)
  {
    RequiredMember(JsonSchema, V0, p, "predicateVersion");
    var q := With(p, "predicateVersion", Str("v1"));
    WithKeeps(p, "predicateVersion", Str("v1"));
    UpgradeKeepsShape(JsonSchema, p, q);
    UpgradeKeepsShape(Cue, p, q);
  }

  /** What an upgrade adds to the failures of a claim at this level. */
  function AgentContractMissing(level: G.Level): set<Code> {
    if level.HighAssurance? then {MissingEvidence} else {}
  }

  lemma UpgradedFailures(c: G.Claim, s: seq<G.StatementSubject>, x: G.Trusted)
    requires M.IsVersion0(c)
    ensures Failing(c.(version := V1), s, x) == Failing(c, s, x) + AgentContractMissing(c.level)
  {
    forall code
      ensures code in Failing(c.(version := V1), s, x) <==>
              code in Failing(c, s, x) || code in AgentContractMissing(c.level)
    {
      M.UpgradeKeepsGates(c, s, x, code);
      assert MissingEvidence in POLICY_CODES;
    }
  }

  /**
   Version 1 is a superset of version 0: an accepted version 0 statement, retyped, is accepted again
   with the same codes, but that high assurance now misses its agent contract.
   */
  lemma UpgradePreservesDecision(statement: Value, context: Value)
    requires Reaches(V0, statement, context)
    ensures statement.Obj? && Body(statement).Obj? && Reaches(V1, Upgraded(statement), context)
    ensures StatementFailures(Upgraded(statement), context)
         == StatementFailures(statement, context) + AgentContractMissing(ClaimOf(Body(statement)).level)
  {
    ReachesIff(V0, statement, context);
    RoutedIsObject(statement);
    UpgradedRoute(statement);
    UpgradedIsAccepted(Body(statement), context);
    UpgradedClaim(Body(statement));
    Version0Claim(JsonSchema, Body(statement));
    UpgradedFailures(ClaimOf(Body(statement)), SubjectsOf(statement), TrustedOf(context));
    FailuresOf(statement, context);
    FailuresOf(Upgraded(statement), context);
    ReachesIff(V1, Upgraded(statement), context);
  }

  predicate MayGrowFor(c: G.Claim, x: G.Trusted, y: G.Trusted) {
    && M.MayGrow(c, c.mcpServers, x.mcpServers, y.mcpServers)
    && M.MayGrow(c, c.delegation, x.delegation, y.delegation)
  }

  lemma LargerAllowlistShrinksFailures(c: G.Claim, s: seq<G.StatementSubject>, x: G.Trusted, y: G.Trusted)
    requires M.Extends(x, y)
    requires MayGrowFor(c, x, y)
    ensures Failing(c, s, y) <= Failing(c, s, x)
  {
    forall code | code in Failing(c, s, y)
      ensures code in Failing(c, s, x)
    {
      if G.Holds(code, c, s, x) {
        M.LargerAllowlistKeepsGates(c, s, x, y, code);
      }
    }
  }

  /**
   A context with larger allowlists accepts every statement the smaller one did, without a new code. A
   list that starts empty matters to a statement that declares something against it, in version 1 below
   policy grade; version 0 declares nothing.
   */
  lemma LargerAllowlistAddsNoFailure(v: Version, statement: Value, context: Value, larger: Value)
    requires Reaches(v, statement, context) && ContextShape(larger)
    requires M.Extends(TrustedOf(context), TrustedOf(larger))
    requires MayGrowFor(ClaimOf(Body(statement)), TrustedOf(context), TrustedOf(larger))
    ensures Reaches(v, statement, larger)
    ensures StatementFailures(statement, larger) <= StatementFailures(statement, context)
  {
    ReachesIff(v, statement, context);
    ReachesIff(v, statement, larger);
    FailuresOf(statement, context);
    FailuresOf(statement, larger);
    LargerAllowlistShrinksFailures(ClaimOf(Body(statement)), SubjectsOf(statement), TrustedOf(context), TrustedOf(larger));
  }

  lemma RoutedDeclares(v: Version, statement: Value)
    requires RoutedVersion(statement) == Some(v)
    ensures TextOf(Body(statement), "predicateVersion") == v.Name()
  {
    RoutingSelectsDeclaredContract(Parse(statement).value);
  }

  /** In version 0 no condition is left: larger allowlists never add a code. */
  lemma LargerAllowlistKeepsVersion0(statement: Value, context: Value, larger: Value)
    requires Reaches(V0, statement, context) && ContextShape(larger)
    requires M.Extends(TrustedOf(context), TrustedOf(larger))
    ensures Reaches(V0, statement, larger)
    ensures StatementFailures(statement, larger) <= StatementFailures(statement, context)
  {
    ReachesIff(V0, statement, context);
    RoutedDeclares(V0, statement);
    Version0Claim(JsonSchema, Body(statement));
    LargerAllowlistAddsNoFailure(V0, statement, context, larger);
  }
}
