/** What the reported codes mean for the subjects of the documents themselves. */
module Consequences {
  import opened Basics
  import opened Json
  import opened FailureCodes
  import opened Schema
  import opened Policy
  import opened Views
  import opened Subjects
  import opened Statements
  import opened Verifier
  import opened Decisions
  import opened FailureOrder
  import opened Rewriting
  import opened Lifting
  import G = Gates

  lemma DecodedNamesAreKeyed(statement: Value)
    ensures NamesAreKeyed(SubjectsOf(statement))
  {
  }

  /** Every subject the statement carries has a `name` member. */
  predicate SubjectsNamed(statement: Value) {
    forall t | t in ItemsMember(statement, "subject") :: Has(t, "name")
  }

  lemma NamedIsAllNamed(statement: Value)
    ensures SubjectsNamed(statement) <==> AllNamed(SubjectsOf(statement))
  {
    var items, s := ItemsMember(statement, "subject"), SubjectsOf(statement);
    if AllNamed(s) {
      forall i | 0 <= i < |items|
        ensures Has(items[i], "name")
      {
        assert s[i] in s;
      }
    }
  }

  lemma SubjectGate(statement: Value, context: Value)
    ensures SubjectDigestMismatch in StatementFailures(statement, context)
       <==> !G.SubjectsBound(SubjectsOf(statement), TrustedOf(context))
  {
    hide ClaimOf, TrustedOf, SubjectsOf, G.SubjectsBound;
    assert SubjectDigestMismatch in POLICY_CODES;
  }

  /** The verifier reports a code of the policy exactly when its gate fails. */
  lemma ReportedIff(statement: Value, context: Value, code: Code)
    requires Reached(statement, context)
    ensures code.Name() in Decide(Some(DEFAULT), statement, context) <==> code in StatementFailures(statement, context)
  {
    hide *;
    var v := ReachedVersion(statement, context);
    DecisionIsFailingGates(v, statement, context);
    NamesMembership(StatementFailures(statement, context), code);
  }

  /** The verifier reports a mismatch of subjects. */
  ghost predicate ReportsSubjects(statement: Value, context: Value) {
    SubjectDigestMismatch.Name() in Decide(Some(DEFAULT), statement, context)
  }

  lemma ReportsSubjectsIff(statement: Value, context: Value)
    requires Reached(statement, context)
    ensures ReportsSubjects(statement, context) <==> !G.SubjectsBound(SubjectsOf(statement), TrustedOf(context))
  {
    hide Decide, Reached, StatementFailures, G.SubjectsBound, SubjectsOf, TrustedOf;
    ReportedIff(statement, context, SubjectDigestMismatch);
    SubjectGate(statement, context);
  }

  /**
   For a statement that reaches the policy, its subjects are exactly the verifier's, as sets of name and
   digest, if and only if `subject_digest_mismatch` is not reported and every subject carries a name.
   */
  lemma SubjectsExactIff(statement: Value, context: Value)
    requires Reached(statement, context)
    ensures Exact(SubjectsOf(statement), TrustedOf(context)) <==>
            !ReportsSubjects(statement, context) && SubjectsNamed(statement)
  {
    hide *;
    DecodedNamesAreKeyed(statement);
    NamedIsAllNamed(statement);
    ReportsSubjectsIff(statement, context);
    BoundIsExactForNamed(SubjectsOf(statement), TrustedOf(context));
  }

  /** A context that passed its schema names every subject and gives every digest. */
  lemma CurrentSubjectsAreTexts(context: Value)
    requires ContextShape(context)
    ensures TrustedOf(context).subjects != [] && NonEmptyTexts(TrustedOf(context).subjects)
  {
    assert ContextPart(Core, context);
    var items := ItemsMember(context, "subjects");
    forall e | e in TrustedOf(context).subjects
      ensures e.name != "" && e.sha256 != ""
    {
      var i :| 0 <= i < |items| && ContextSubjectsOf(context)[i] == e;
      assert IsContextSubject(items[i]);
    }
  }

  /** What the one-directional comparison computes. */
  predicate ComparesEqual(statement: Value, context: Value) {
    && |SubjectsOf(statement)| == |TrustedOf(context).subjects|
    && forall e | e in TrustedOf(context).subjects :: Found(SubjectsOf(statement), e)
  }

  lemma ReachedContext(statement: Value, context: Value)
    requires Reached(statement, context)
    ensures ContextShape(context)
  {
    hide *;
    var v := ReachedVersion(statement, context);
    ReachesIff(v, statement, context);
    AcceptedIff(v, Member(statement, "predicate"), context);
  }

  /**
   For a statement that reaches the policy, and current subjects with distinct names, the one-directional
   comparison implies that no `subject_digest_mismatch` is reported; with distinct names in the statement
   too it decides it.
   */
  lemma ComparisonDecidesSubjects(statement: Value, context: Value)
    requires Reached(statement, context) && G.NamesDistinct(TrustedOf(context).subjects)
    ensures ComparesEqual(statement, context) ==> !ReportsSubjects(statement, context)
    ensures SubjectsNamed(statement) && ClaimedNamesDistinct(SubjectsOf(statement)) ==>
              (ComparesEqual(statement, context) <==> !ReportsSubjects(statement, context))
  {
    hide ReportsSubjects, Reached, TrustedOf, SubjectsOf, ContextShape, SubjectsNamed, ClaimedNamesDistinct;
    var s, x := SubjectsOf(statement), TrustedOf(context);
    ReachedContext(statement, context);
    CurrentSubjectsAreTexts(context);
    DecodedNamesAreKeyed(statement);
    NamedIsAllNamed(statement);
    ReportsSubjectsIff(statement, context);
    if ComparesEqual(statement, context) {
      MatchImpliesBound(s, x);
    }
    if SubjectsNamed(statement) && ClaimedNamesDistinct(s) {
      MatchIffBound(s, x);
    }
  }

  function UnnamedSubject(sha256: string): Value {
    Obj(map["digest" := Obj(map["sha256" := Str(sha256)])])
  }

  /** The statement with a further subject that has a digest and no name. */
  function WithUnnamed(statement: Value, sha256: string): Value
    requires statement.Obj?
  {
    With(statement, "subject", Arr(ItemsMember(statement, "subject") + [UnnamedSubject(sha256)]))
  }

  lemma UnnamedIsOneMore(statement: Value, sha256: string)
    requires statement.Obj?
    ensures SubjectsOf(WithUnnamed(statement, sha256))
         == SubjectsOf(statement) + [G.StatementSubject(false, None, Some(sha256))]
    ensures Member(WithUnnamed(statement, sha256), "predicate") == Member(statement, "predicate")
  {
    var t := WithUnnamed(statement, sha256);
    WithKeeps(statement, "subject", Arr(ItemsMember(statement, "subject") + [UnnamedSubject(sha256)]));
    assert ItemsMember(t, "subject") == ItemsMember(statement, "subject") + [UnnamedSubject(sha256)];
    assert StatementSubjectOf(UnnamedSubject(sha256)) == G.StatementSubject(false, None, Some(sha256));
  }

  lemma UnnamedParses(statement: Value, sha256: string)
    requires statement.Obj? && Parse(statement).Some?
    ensures Parse(WithUnnamed(statement, sha256)) == Parse(statement)
  {
    WithKeeps(statement, "subject", Arr(ItemsMember(statement, "subject") + [UnnamedSubject(sha256)]));
    assert DecodesAsSubject(UnnamedSubject(sha256));
    assert DecodesAsSubjects(Member(WithUnnamed(statement, sha256), "subject"));
  }

  lemma UnnamedReaches(v: Version, statement: Value, context: Value, sha256: string)
    requires Reaches(v, statement, context)
    ensures statement.Obj? && Reaches(v, WithUnnamed(statement, sha256), context)
  {
    ReachesIff(v, statement, context);
    RoutedIsObject(statement);
    UnnamedParses(statement, sha256);
    UnnamedIsOneMore(statement, sha256);
    ReachesIff(v, WithUnnamed(statement, sha256), context);
  }

  lemma UnnamedFailsNothing(c: G.Claim, s: seq<G.StatementSubject>, x: G.Trusted, sha256: Option<string>)
    requires NamesAreKeyed(s) && Failing(c, s, x) == {}
    ensures var more := s + [G.StatementSubject(false, None, sha256)];
            Failing(c, more, x) == {} && !Exact(more, x)
  {
    NothingFails(c, s, x);
    assert G.Holds(SubjectDigestMismatch, c, s, x);
    UnnamedSubjectIsOverlooked(s, x, sha256);
    var more := s + [G.StatementSubject(false, None, sha256)];
    forall code
      ensures G.Holds(code, c, more, x)
    {
      assert G.Holds(code, c, s, x);
    }
    NothingFails(c, more, x);
  }

  /** Any valid statement stays valid with a further, unnamed subject of any digest; its subjects are then not the verifier's. */
  lemma UnnamedSubjectStaysValid(statement: Value, context: Value, sha256: string)
    requires Verdict(Some(DEFAULT), statement, context).valid
    ensures statement.Obj?
    ensures Verdict(Some(DEFAULT), WithUnnamed(statement, sha256), context).valid
    ensures !Exact(SubjectsOf(WithUnnamed(statement, sha256)), TrustedOf(context))
  {
    hide *;
    ValidIffEveryGateHolds(statement, context);
    var v := ReachedVersion(statement, context);
    UnnamedReaches(v, statement, context, sha256);
    UnnamedIsOneMore(statement, sha256);
    DecodedNamesAreKeyed(statement);
    FailuresOf(statement, context);
    FailuresOf(WithUnnamed(statement, sha256), context);
    UnnamedFailsNothing(ClaimOf(Member(statement, "predicate")), SubjectsOf(statement), TrustedOf(context), Some(sha256));
    ReachedIsValidIff(v, WithUnnamed(statement, sha256), context);
  }
}
