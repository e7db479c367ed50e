/** What the pipeline decides with the repository's own contracts. */
module Decisions {
  import opened Basics
  import opened Json
  import opened FailureCodes
  import opened FailureOrder
  import opened Schema
  import opened Statements
  import opened Policy
  import opened Reading
  import opened Views
  import opened Refinement
  import opened Verifier
  import G = Gates

  /** The predicate schemas, the context schema, the CUE files and policies/default.rego. */
  const DEFAULT: Contracts := Contracts(
    (v, p) => PredicateShape(JsonSchema, v, p),
    x => ContextShape(x),
    (v, p) => PredicateShape(Cue, v, p),
    i => Evaluated(FailureCodesValue(i))
  )

  /** The version a statement is routed to, when phase 01 finds nothing wrong with it. */
  function RoutedVersion(statement: Value): Option<Version> {
    match Parse(statement)
    case None => None
    case Some(doc) => if RoutingCodes(doc) == {} then VersionOfType(doc.predicateType) else None
  }

  /** A clean phase 01 always selects a contract, and that of the declared version. */
  lemma RoutingSelectsDeclaredContract(doc: Document)
    requires RoutingCodes(doc) == {}
    ensures VersionOfType(doc.predicateType).Some?
    ensures VersionOfType(doc.predicateType) == DeclaredVersion(doc.body)
  {
    var routed := VersionOfType(doc.predicateType);
    assert routed.None? ==> PredicateTypeMismatch in RoutingCodes(doc);
    assert routed != DeclaredVersion(doc.body) ==> UnsupportedPredicateVersion in RoutingCodes(doc);
  }

  const ROUTING_CODES := {UnsupportedStatementType, PredicateTypeMismatch, UnsupportedPredicateVersion}

  /**
   Each phase owns its codes, whatever the contract files say: phase 01 reports a non-empty subset of
   its three codes, phases 02 and 03 exactly `schema_invalid`, a failing policy exactly
   `policy_eval_error`, and otherwise the codes are the policy's own.
   */
  lemma PhasesOwnTheirCodes(contracts: Option<Contracts>, statement: Value, context: Value)
    ensures var codes := Decide(contracts, statement, context);
            || (exists cs: set<Code> :: codes == Names(cs) && cs != {} && cs <= ROUTING_CODES)
            || codes == Names({SchemaInvalid})
            || codes == Names({PolicyEvalError})
            || (&& contracts.Some? && RoutedVersion(statement).Some?
                && var v := RoutedVersion(statement).value;
                && var p := Member(statement, "predicate");
                && contracts.value.schema(v, p) && contracts.value.contextSchema(context) && contracts.value.cue(v, p)
                && !contracts.value.policy(Input(statement, context)).EvaluationFailed?
                && codes == contracts.value.policy(Input(statement, context)).Codes())
  {
    if contracts.Some? && Parse(statement).Some? {
      var doc := Parse(statement).value;
      if RoutingCodes(doc) == {} {
        RoutingSelectsDeclaredContract(doc);
      } else {
        assert RoutingCodes(doc) <= ROUTING_CODES;
      }
    }
  }

  /** Presenting a result again changes nothing. */
  lemma FinishingIsIdempotent(level: string, codes: set<string>)
    ensures Finished(level, Elements(Finished(level, codes).failureCodes)) == Finished(level, codes)
  {
  }

  function Picked(fires: Code -> bool, codes: seq<Code>): set<Code> {
    set c | c in codes && fires(c)
  }

  lemma {:induction false} ListedStrings(fires: Code -> bool, codes: seq<Code>)
    ensures Strings(Arr(Listed(fires, codes))) == Names(Picked(fires, codes))
  {
    if codes == [] {
      assert Picked(fires, codes) == {};
    } else {
      ListedStrings(fires, codes[1..]);
      assert codes == [codes[0]] + codes[1..];
      var here: seq<Value> := if fires(codes[0]) then [Str(codes[0].Name())] else [];
      JoinedStrings(here, Listed(fires, codes[1..]));
      SingleString(codes[0].Name());
      assert Picked(fires, codes) == (if fires(codes[0]) then {codes[0]} else {}) + Picked(fires, codes[1..]);
    }
  }

  lemma SingleString(s: string)
    ensures Strings(Arr([Str(s)])) == {s} && Strings(Arr([])) == {}
  {
    assert Str(s) in [Str(s)] && Strings(Str(s)) == {s};
  }

  lemma JoinedStrings(a: seq<Value>, b: seq<Value>)
    ensures Strings(Arr(a + b)) == Strings(Arr(a)) + Strings(Arr(b))
  {
  }

  /** The codes whose gate fails. */
  function Failing(c: G.Claim, s: seq<G.StatementSubject>, x: G.Trusted): set<Code> {
    Picked(code => !G.Holds(code, c, s, x), POLICY_CODES)
  }

  lemma DenialsAreFailures(v: Version, i: Input)
    requires Checked(v, i)
    ensures Picked(Denial(i), POLICY_CODES)
         == Failing(ClaimOf(Member(i.statement, "predicate")), SubjectsOf(i.statement), TrustedOf(i.context))
  {
    hide Denies, G.Holds, Checked, ClaimOf, TrustedOf, SubjectsOf;
    forall code
      ensures Denies(i, code) <==> !G.Holds(code, Claimed(i), SubjectsOf(i.statement), Known(i))
    {
      PolicyRefinesGates(v, i, code);
    }
  }

  /** What lies between a statement and the policy. */
  datatype Stage = Routing | Acceptance

  predicate Passes(stage: Stage, v: Version, statement: Value, context: Value) {
    match stage
    case Routing => RoutedVersion(statement) == Some(v)
    case Acceptance => Accepted(v, Member(statement, "predicate"), context)
  }

  predicate Reaches(v: Version, statement: Value, context: Value) {
    forall stage: Stage :: Passes(stage, v, statement, context)
  }

  lemma ReachesIff(v: Version, statement: Value, context: Value)
    ensures Reaches(v, statement, context)
       <==> RoutedVersion(statement) == Some(v) && Accepted(v, Member(statement, "predicate"), context)
  {
    assert Passes(Routing, v, statement, context) <==> RoutedVersion(statement) == Some(v);
    assert Passes(Acceptance, v, statement, context) <==> Accepted(v, Member(statement, "predicate"), context);
    if Passes(Routing, v, statement, context) && Passes(Acceptance, v, statement, context) {
      forall stage: Stage
        ensures Passes(stage, v, statement, context)
      {
        match stage
        case Routing =>
        case Acceptance =>
      }
    }
  }

  predicate Fails(code: Code, statement: Value, context: Value) {
    !G.Holds(code, ClaimOf(Member(statement, "predicate")), SubjectsOf(statement), TrustedOf(context))
  }

  /** The codes of the gates that fail for a statement in a context. */
  function StatementFailures(statement: Value, context: Value): set<Code> {
    set code | code in POLICY_CODES && Fails(code, statement, context)
  }

  lemma FailuresOf(statement: Value, context: Value)
    ensures StatementFailures(statement, context)
         == Failing(ClaimOf(Member(statement, "predicate")), SubjectsOf(statement), TrustedOf(context))
  {
  }

  /** With any contract files, a statement they accept is decided by their policy. */
  lemma PolicyDecides(contracts: Contracts, v: Version, statement: Value, context: Value)
    requires RoutedVersion(statement) == Some(v)
    requires contracts.schema(v, Member(statement, "predicate")) && contracts.contextSchema(context)
    requires contracts.cue(v, Member(statement, "predicate"))
    requires !contracts.policy(Input(statement, context)).EvaluationFailed?
    ensures Decide(Some(contracts), statement, context) == contracts.policy(Input(statement, context)).Codes()
  {
  }

  lemma ContractsDecide(contracts: Contracts, v: Version, statement: Value, context: Value)
    requires RoutedVersion(statement) == Some(v)
    requires !contracts.schema(v, Member(statement, "predicate")) || !contracts.contextSchema(context)
             || !contracts.cue(v, Member(statement, "predicate"))
    ensures Decide(Some(contracts), statement, context) == Names({SchemaInvalid})
  {
  }

  lemma DefaultStrings(i: Input)
    ensures !DEFAULT.policy(i).EvaluationFailed?
    ensures DEFAULT.policy(i).Codes() == Names(Picked(Denial(i), POLICY_CODES))
  {
    ListedStrings(Denial(i), POLICY_CODES);
  }

  /** An empty result set leaves an accepted statement without a code. */
  lemma NoResultIsValid(contracts: Contracts, v: Version, statement: Value, context: Value)
    requires RoutedVersion(statement) == Some(v)
    requires contracts.schema(v, Member(statement, "predicate")) && contracts.contextSchema(context)
    requires contracts.cue(v, Member(statement, "predicate"))
    requires contracts.policy(Input(statement, context)).NoResult?
    ensures Verdict(Some(contracts), statement, context).valid
  {
    PolicyDecides(contracts, v, statement, context);
    ValidIffNoCode(Some(contracts), statement, context);
  }

  lemma DefaultContracts(v: Version, p: Value, x: Value)
    ensures DEFAULT.schema(v, p) <==> PredicateShape(JsonSchema, v, p)
    ensures DEFAULT.contextSchema(x) <==> ContextShape(x)
    ensures DEFAULT.cue(v, p) <==> PredicateShape(Cue, v, p)
  {
    hide PredicateShape, ContextShape, FailureCodesValue;
  }

  lemma AcceptedIff(v: Version, p: Value, x: Value)
    ensures Accepted(v, p, x) <==> PredicateShape(JsonSchema, v, p) && ContextShape(x) && PredicateShape(Cue, v, p)
  {
    hide PredicateShape, ContextShape;
  }

  lemma AcceptedIsChecked(v: Version, statement: Value, context: Value)
    requires RoutedVersion(statement) == Some(v) && Accepted(v, Member(statement, "predicate"), context)
    ensures Checked(v, Input(statement, context))
  {
    hide PredicateShape, ContextShape;
  }

  /** For a statement that reaches the policy, the decision is exactly the set of failing gates. */
  lemma DecisionIsFailingGates(v: Version, statement: Value, context: Value)
    requires Reaches(v, statement, context)
    ensures Decide(Some(DEFAULT), statement, context) == Names(StatementFailures(statement, context))
  {
    hide *;
    var i := Input(statement, context);
    ReachesIff(v, statement, context);
    AcceptedIff(v, Member(statement, "predicate"), context);
    AcceptedIsChecked(v, statement, context);
    DefaultContracts(v, Member(statement, "predicate"), context);
    DefaultStrings(i);
    PolicyDecides(DEFAULT, v, statement, context);
    DenialsAreFailures(v, i);
    FailuresOf(statement, context);
  }

  lemma NoNames(codes: set<Code>)
    ensures Names(codes) == {} <==> codes == {}
  {
    if c :| c in codes {
      assert c.Name() in Names(codes);
    }
  }

  lemma NothingFails(c: G.Claim, s: seq<G.StatementSubject>, x: G.Trusted)
    ensures Failing(c, s, x) == {} <==> forall code :: G.Holds(code, c, s, x)
  {
    forall code
      ensures code in Failing(c, s, x) <==> !G.Holds(code, c, s, x)
    {
    }
  }

  lemma UnroutedFails(contracts: Contracts, statement: Value, context: Value)
    requires RoutedVersion(statement).None?
    ensures Decide(Some(contracts), statement, context) != {}
  {
    NoNames({SchemaInvalid});
    if Parse(statement).Some? {
      var doc := Parse(statement).value;
      if RoutingCodes(doc) == {} {
        RoutingSelectsDeclaredContract(doc);
      }
      NoNames(RoutingCodes(doc));
    }
  }

  /** A routed statement that a contract rejects is `schema_invalid`, and nothing else. */
  lemma RejectedIsSchemaInvalid(v: Version, statement: Value, context: Value)
    requires RoutedVersion(statement) == Some(v) && !Accepted(v, Member(statement, "predicate"), context)
    ensures Decide(Some(DEFAULT), statement, context) == Names({SchemaInvalid})
  {
    hide *;
    AcceptedIff(v, Member(statement, "predicate"), context);
    DefaultContracts(v, Member(statement, "predicate"), context);
    ContractsDecide(DEFAULT, v, statement, context);
  }

  ghost predicate Reached(statement: Value, context: Value) {
    exists v :: Reaches(v, statement, context)
  }

  lemma ReachedVersion(statement: Value, context: Value) returns (v: Version)
    requires Reached(statement, context)
    ensures Reaches(v, statement, context)
  {
    hide Reaches;
    v :| Reaches(v, statement, context);
  }

  lemma ReachedBy(v: Version, statement: Value, context: Value)
    requires Reaches(v, statement, context)
    ensures Reached(statement, context)
  {
    hide Reaches;
  }

  /** A verdict is valid exactly when there is no code to report. */
  lemma ValidIffNoCode(contracts: Option<Contracts>, statement: Value, context: Value)
    ensures Verdict(contracts, statement, context).valid <==> Decide(contracts, statement, context) == {}
  {
    hide Decide;
  }

  lemma ReachedIsValidIff(v: Version, statement: Value, context: Value)
    requires Reaches(v, statement, context)
    ensures Verdict(Some(DEFAULT), statement, context).valid <==> StatementFailures(statement, context) == {}
  {
    hide *;
    DecisionIsFailingGates(v, statement, context);
    NoNames(StatementFailures(statement, context));
    ValidIffNoCode(Some(DEFAULT), statement, context);
  }

  lemma UnreachedIsInvalid(statement: Value, context: Value)
    requires !Reached(statement, context)
    ensures !Verdict(Some(DEFAULT), statement, context).valid
  {
    hide *;
    ValidIffNoCode(Some(DEFAULT), statement, context);
    match RoutedVersion(statement)
    case None =>
      UnroutedFails(DEFAULT, statement, context);
    case Some(v) =>
      ReachesIff(v, statement, context);
      if Reaches(v, statement, context) {
        ReachedBy(v, statement, context);
      }
      RejectedIsSchemaInvalid(v, statement, context);
      NoNames({SchemaInvalid});
  }

  /** A statement is valid exactly when phase 01 routes it, its contracts accept it, and every gate holds. */
  lemma ValidIffEveryGateHolds(statement: Value, context: Value)
    ensures Verdict(Some(DEFAULT), statement, context).valid <==>
            Reached(statement, context) && StatementFailures(statement, context) == {}
  {
    hide *;
    if Reached(statement, context) {
      var v := ReachedVersion(statement, context);
      ReachedIsValidIff(v, statement, context);
    } else {
      UnreachedIsInvalid(statement, context);
    }
  }
}
