/** What acceptance and the freshness gate mean for the times of the documents themselves. */
module Timing {
  import opened Basics
  import opened Json
  import opened FailureCodes
  import opened Calendar
  import opened Timestamps
  import opened TimestampOrder
  import opened Schema
  import opened Policy
  import opened Views
  import opened Formats
  import opened Produced
  import opened ProducedShapes
  import opened Verifier
  import opened Rewriting
  import opened Decisions
  import opened Lifting
  import opened Consequences
  import G = Gates

  /** The timestamps of an accepted predicate. */
  lemma AcceptedTimestamps(v: Version, p: Value, context: Value)
    requires Accepted(v, p, context)
    ensures IsTimestamps(JsonSchema, Member(p, "timestamps")) && IsTimestamps(Cue, Member(p, "timestamps"))
  {
    assert PredicatePart(Core, Cue, v, p) && PredicatePart(Core, JsonSchema, v, p);
  }

  function Start(t: Value): string {
    TextOf(t, "startedAt")
  }

  function Finish(t: Value): string {
    TextOf(t, "finishedAt")
  }

  /** An accepted run that states both times with one precision, of at most nine digits, did not end before it began. */
  lemma AcceptedRunsForward(v: Version, p: Value, context: Value, width: nat)
    requires Accepted(v, p, context) && width <= 9
    requires Denotes(Start(Member(p, "timestamps")), width) && Denotes(Finish(Member(p, "timestamps")), width)
    ensures Read(Finish(Member(p, "timestamps"))).UnixNanos() >= Read(Start(Member(p, "timestamps"))).UnixNanos()
  {
    AcceptedTimestamps(v, p, context);
    OrdersAgree(Finish(Member(p, "timestamps")), Start(Member(p, "timestamps")), width);
  }

  /** Both times of a run are timestamps of the contracts, leap seconds included. */
  predicate RunTimes(t: Value) {
    Shape(Start(t)) && Shape(Finish(t))
  }

  /** The run ended before it began. */
  predicate Backward(t: Value)
    requires RunTimes(t)
  {
    MomentLess(Read(Finish(t)), Read(Start(t)))
  }

  lemma SchemaTimesAreRunTimes(l: Layer, t: Value)
    requires IsTimestamps(l, t)
    ensures RunTimes(t)
  {
  }

  /** Given that JSON Schema accepts the timestamps, CUE does exactly when they read in order. */
  lemma TimestampsAcceptedIff(t: Value)
    requires IsTimestamps(JsonSchema, t)
    ensures RunTimes(t) && (IsTimestamps(Cue, t) <==> ReadsAtOrAfter(Finish(t), Start(t)))
  {
    hide Shape, DateTimeFormat, ReadsAtOrAfter, AtOrAfter;
    SchemaTimesAreRunTimes(JsonSchema, t);
    TextOrderIff(Finish(t), Start(t));
  }

  /** An accepted run is in order, but for a finish cut short within the second of its start. */
  lemma AcceptedRunReadsInOrder(v: Version, p: Value, context: Value)
    requires Accepted(v, p, context)
    ensures RunTimes(Member(p, "timestamps"))
    ensures ReadsAtOrAfter(Finish(Member(p, "timestamps")), Start(Member(p, "timestamps")))
  {
    hide *;
    AcceptedTimestamps(v, p, context);
    TimestampsAcceptedIff(Member(p, "timestamps"));
  }

  /**
   A run in order is rejected by every version when it finishes in the second it started in, and the
   fraction of its finish continues that of its start, or differs from it past the ninth digit only.
   */
  lemma ForwardRunIsRejected(v: Version, p: Value, context: Value)
    requires RunTimes(Member(p, "timestamps")) && !Backward(Member(p, "timestamps"))
    requires SameSecond(Finish(Member(p, "timestamps")), Start(Member(p, "timestamps")))
    requires Recedes(Fraction(Finish(Member(p, "timestamps"))), Fraction(Start(Member(p, "timestamps"))))
    ensures !Accepted(v, p, context)
  {
    if Accepted(v, p, context) {
      AcceptedRunReadsInOrder(v, p, context);
    }
  }

  /** The statement with other times. */
  function Retimed(statement: Value, t: Value): Value
    requires statement.Obj? && Body(statement).Obj?
  {
    With(statement, "predicate", With(Body(statement), "timestamps", t))
  }

  predicate AcceptedTimes(t: Value) {
    IsTimestamps(JsonSchema, t) && IsTimestamps(Cue, t)
  }

  /** An accepted predicate stays accepted with any times both contracts accept. */
  lemma RetimedIsAccepted(v: Version, p: Value, context: Value, t: Value)
    requires Accepted(v, p, context) && AcceptedTimes(t)
    ensures p.Obj? && Accepted(v, With(p, "timestamps", t), context)
  {
    hide PredicateShape, ContextShape, IsTimestamps;
    RequiredMember(JsonSchema, v, p, "timestamps");
    WithKeeps(p, "timestamps", t);
    RetimeKeepsShape(JsonSchema, v, p, With(p, "timestamps", t));
    RetimeKeepsShape(Cue, v, p, With(p, "timestamps", t));
  }

  /** It reaches the policy again, with the same claim but for the finish. */
  lemma RetimedReaches(v: Version, statement: Value, context: Value, t: Value)
    requires Reaches(v, statement, context) && AcceptedTimes(t)
    ensures statement.Obj? && Body(statement).Obj? && Reaches(v, Retimed(statement, t), context)
    ensures SubjectsOf(Retimed(statement, t)) == SubjectsOf(statement)
    ensures ClaimOf(Body(Retimed(statement, t))) == ClaimOf(Body(statement)).(finishedAt := Finish(t))
  {
    hide Accepted, AcceptedTimes, ClaimOf, SubjectsOf, RoutedVersion;
    ReachesIff(v, statement, context);
    RoutedIsObject(statement);
    RetimedIsAccepted(v, Body(statement), context, t);
    WithKeeps(Body(statement), "timestamps", t);
    ReplacedRoute(statement, With(Body(statement), "timestamps", t));
    RetimedClaim(Body(statement), t);
    ReachesIff(v, Retimed(statement, t), context);
  }

  /**
   A run that ended before it began is accepted, in any predicate accepted with other times, when it stays
   within a second and the fraction of its start continues that of its finish.
   */
  lemma BackwardRunIsAccepted(v: Version, p: Value, context: Value, t: Value)
    requires Accepted(v, p, context) && IsTimestamps(JsonSchema, t)
    requires RunTimes(t) && Backward(t) && SameSecond(Finish(t), Start(t))
    requires ProperPrefix(Fraction(Finish(t)), Fraction(Start(t)))
    ensures p.Obj? && Accepted(v, With(p, "timestamps", t), context)
  {
    hide Accepted, Shape, DateTimeFormat, IsTimestamps;
    TimestampsAcceptedIff(t);
    RetimedIsAccepted(v, p, context, t);
  }

  /** A valid statement with other accepted times is valid exactly when its new finish is fresh. */
  lemma RetimedIsValidIff(statement: Value, context: Value, t: Value)
    requires Verdict(Some(DEFAULT), statement, context).valid && AcceptedTimes(t)
    ensures statement.Obj? && Body(statement).Obj?
    ensures Verdict(Some(DEFAULT), Retimed(statement, t), context).valid <==>
            G.Fresh(ClaimOf(Body(statement)).(finishedAt := Finish(t)), TrustedOf(context))
  {
    hide *;
    BodyIsPredicate(statement);
    ValidIffEveryGateHolds(statement, context);
    var v := ReachedVersion(statement, context);
    RetimedReaches(v, statement, context, t);
    BodyIsPredicate(Retimed(statement, t));
    FailuresOf(statement, context);
    FailuresOf(Retimed(statement, t), context);
    OtherFinishFails(ClaimOf(Body(statement)), SubjectsOf(statement), TrustedOf(context), Finish(t));
    ReachedIsValidIff(v, Retimed(statement, t), context);
  }

  lemma BodyIsPredicate(statement: Value)
    ensures Body(statement) == Member(statement, "predicate")
  {
  }

  /** Only freshness depends on the finish. */
  lemma OtherFinishFails(c: G.Claim, s: seq<G.StatementSubject>, x: G.Trusted, finish: string)
    requires Failing(c, s, x) == {}
    ensures Failing(c.(finishedAt := finish), s, x) == {} <==> G.Fresh(c.(finishedAt := finish), x)
  {
    NothingFails(c, s, x);
    NothingFails(c.(finishedAt := finish), s, x);
    forall code
      ensures code != StaleAttestation ==> G.Holds(code, c.(finishedAt := finish), s, x)
    {
      assert G.Holds(code, c, s, x);
    }
    assert G.Holds(StaleAttestation, c.(finishedAt := finish), s, x) <==> G.Fresh(c.(finishedAt := finish), x);
  }

  /** The verifier reports a stale run. */
  ghost predicate ReportsStale(statement: Value, context: Value) {
    StaleAttestation.Name() in Decide(Some(DEFAULT), statement, context)
  }

  lemma StaleGate(statement: Value, context: Value)
    ensures StaleAttestation in StatementFailures(statement, context)
       <==> !G.Fresh(ClaimOf(Body(statement)), TrustedOf(context))
  {
    hide ClaimOf, TrustedOf, SubjectsOf, G.Fresh;
    assert StaleAttestation in POLICY_CODES;
  }

  function Window(context: Value): real {
    NumberMember(context, "freshnessWindowSeconds").GetOr(0.0)
  }

  function Clock(context: Value): Option<string> {
    TextMember(context, "now")
  }

  function FinishOf(statement: Value): string {
    Finish(Member(Body(statement), "timestamps"))
  }

  /** With a window: there is no clock, or both times can be represented and lie further apart. */
  predicate IsStale(statement: Value, context: Value) {
    && Window(context) > 0.0
    && (Clock(context).None? ||
        var now, finished := ParseNanos(Clock(context).value), ParseNanos(FinishOf(statement));
        now.Some? && finished.Some? && (now.value - finished.value) as real > Window(context) * 1000000000.0)
  }

  lemma StaleIsNotFresh(statement: Value, context: Value)
    ensures IsStale(statement, context) <==> !G.Fresh(ClaimOf(Body(statement)), TrustedOf(context))
  {
    hide ParseNanos;
  }

  /** A statement that reaches the policy is reported stale exactly when it is. */
  lemma ReportsStaleIff(statement: Value, context: Value)
    requires Reached(statement, context)
    ensures ReportsStale(statement, context) <==> IsStale(statement, context)
  {
    hide Decide, Reached, StatementFailures, IsStale, G.Fresh, ClaimOf, TrustedOf;
    ReportedIff(statement, context, StaleAttestation);
    StaleGate(statement, context);
    StaleIsNotFresh(statement, context);
  }

  /** The context with another clock and window. */
  function Reclocked(context: Value, now: string, seconds: nat): Value
    requires context.Obj?
  {
    With(With(context, "now", Str(now)), "freshnessWindowSeconds", Num(seconds as real))
  }

  const CLOCK_KEYS := {"now", "freshnessWindowSeconds"}

  lemma ReclockedKeeps(context: Value, now: string, seconds: nat)
    requires context.Obj?
    ensures var x := Reclocked(context, now, seconds);
            && x.fields.Keys == context.fields.Keys + CLOCK_KEYS
            && Member(x, "now") == Str(now) && Member(x, "freshnessWindowSeconds") == Num(seconds as real)
            && forall key | key !in CLOCK_KEYS :: Has(x, key) == Has(context, key) && AgreeOn(context, x, key)
  {
    WithKeeps(context, "now", Str(now));
    WithKeeps(With(context, "now", Str(now)), "freshnessWindowSeconds", Num(seconds as real));
  }

  predicate AgreeAt(x: Value, y: Value, key: string) {
    Has(x, key) == Has(y, key) && Member(x, key) == Member(y, key)
  }

  ghost predicate AgreeBesides(x: Value, y: Value, keys: set<string>) {
    forall key | key !in keys :: AgreeAt(x, y, key)
  }

  predicate AgreeOnFacts(x: Value, y: Value) {
    && AgreeAt(x, y, "repoUrl") && AgreeAt(x, y, "baseCommit") && AgreeAt(x, y, "requiredLevel")
    && AgreeAt(x, y, "verifiedSigner") && AgreeAt(x, y, "verifiedBuilderId") && AgreeAt(x, y, "verifiedWorkflowRef")
    && AgreeAt(x, y, "verifiedIssuer") && AgreeAt(x, y, "expectedPullRequestNumber") && AgreeAt(x, y, "expectedRunId")
  }

  predicate AgreeOnEvidence(x: Value, y: Value) {
    && AgreeAt(x, y, "subjects") && AgreeAt(x, y, "verifiedApproval") && AgreeAt(x, y, "verifiedApprovalDigest")
    && AgreeAt(x, y, "verifiedAgentConfig") && AgreeAt(x, y, "verifiedMcpServers")
    && AgreeAt(x, y, "verifiedDelegation") && AgreeAt(x, y, "verifiedWitnesses")
    && AgreeAt(x, y, "allowedIsolatedRunners") && AgreeAt(x, y, "allowSelfHostedRunners")
  }

  /** Two contexts agree on what does not concern the clock. */
  predicate AgreeButClock(x: Value, y: Value) {
    AgreeOnFacts(x, y) && AgreeOnEvidence(x, y)
  }

  lemma FactsBesidesClock(x: Value, y: Value)
    requires AgreeBesides(x, y, CLOCK_KEYS)
    ensures AgreeOnFacts(x, y)
  {
    hide AgreeAt;
  }

  lemma EvidenceBesidesClock(x: Value, y: Value)
    requires AgreeBesides(x, y, CLOCK_KEYS)
    ensures AgreeOnEvidence(x, y)
  {
    hide AgreeAt;
  }

  lemma ReclockedAgrees(context: Value, now: string, seconds: nat)
    requires context.Obj?
    ensures AgreeButClock(context, Reclocked(context, now, seconds))
  {
    hide AgreeOnFacts, AgreeOnEvidence, Reclocked;
    ReclockedKeeps(context, now, seconds);
    forall key | key !in CLOCK_KEYS
      ensures AgreeAt(context, Reclocked(context, now, seconds), key)
    {
      assert AgreeOn(context, Reclocked(context, now, seconds), key);
    }
    FactsBesidesClock(context, Reclocked(context, now, seconds));
    EvidenceBesidesClock(context, Reclocked(context, now, seconds));
  }

  lemma AlikeMember(x: Value, y: Value, key: string)
    requires AgreeAt(x, y, key)
    ensures ItemsMember(x, key) == ItemsMember(y, key) && TextMember(x, key) == TextMember(y, key)
    ensures TextOf(x, key) == TextOf(y, key) && NumberMember(x, key) == NumberMember(y, key)
    ensures Member(x, key) == Member(y, key)
  {
  }

  lemma AlikeTrust(x: Value, y: Value)
    requires AgreeButClock(x, y)
    ensures TrustedOf(y) == TrustedOf(x).(window := Window(y), now := Clock(y))
  {
    hide LevelOf, AttestedOf, ContextSubjectOf, AgreeAt, ItemsMember, TextMember, TextOf, NumberMember, Member;
    AlikeMember(x, y, "requiredLevel");
    AlikeMember(x, y, "repoUrl");
    AlikeMember(x, y, "baseCommit");
    AlikeMember(x, y, "subjects");
    AlikeMember(x, y, "verifiedSigner");
    AlikeMember(x, y, "verifiedBuilderId");
    AlikeMember(x, y, "verifiedWorkflowRef");
    AlikeMember(x, y, "verifiedIssuer");
    AlikeMember(x, y, "verifiedApproval");
    AlikeMember(x, y, "verifiedApprovalDigest");
    AlikeMember(x, y, "verifiedAgentConfig");
    AlikeMember(x, y, "verifiedMcpServers");
    AlikeMember(x, y, "verifiedDelegation");
    AlikeMember(x, y, "verifiedWitnesses");
    AlikeMember(x, y, "allowedIsolatedRunners");
    AlikeMember(x, y, "allowSelfHostedRunners");
    AlikeMember(x, y, "expectedPullRequestNumber");
    AlikeMember(x, y, "expectedRunId");
  }

  lemma AlikeParts(x: Value, y: Value)
    requires AgreeButClock(x, y) && ContextShape(x)
    ensures ContextPart(Core, y) && ContextPart(Harness, y) && IdentityShape(y)
    ensures Has(y, "expectedPullRequestNumber") ==> IsInteger(Member(y, "expectedPullRequestNumber"), 1)
    ensures Has(y, "expectedRunId") ==> IsRunId(Member(y, "expectedRunId"))
  {
    hide IsRepoUri, IsCommit, IsLevel, IsContextSubject, IsDigest, IsTextList, IsVerifiedWitness, IsPlainText, IsRunId;
    assert ContextPart(Core, x) && ContextPart(Extras, x) && ContextPart(Harness, x);
  }

  lemma ReclockedReplay(context: Value, now: string, seconds: nat)
    requires ContextShape(context) && IsTimestamp(JsonSchema, Str(now))
    ensures context.Obj? && ContextPart(Extras, Reclocked(context, now, seconds))
    ensures ContextPart(Keys, Reclocked(context, now, seconds))
  {
    hide IsRunId, IsTimestamp, IdentityShape, AgreeButClock;
    assert ContextPart(Keys, context);
    ReclockedKeeps(context, now, seconds);
    ReclockedAgrees(context, now, seconds);
    AlikeParts(context, Reclocked(context, now, seconds));
  }

  /** The context schema accepts any clock and window. */
  lemma ReclockedShape(context: Value, now: string, seconds: nat)
    requires ContextShape(context) && IsTimestamp(JsonSchema, Str(now))
    ensures context.Obj? && ContextShape(Reclocked(context, now, seconds))
  {
    hide IsTimestamp, AgreeButClock, Reclocked;
    ReclockedReplay(context, now, seconds);
    ReclockedAgrees(context, now, seconds);
    AlikeParts(context, Reclocked(context, now, seconds));
    forall part: Part
      ensures ContextPart(part, Reclocked(context, now, seconds))
    {
      match part
      case Keys =>
      case Core =>
      case Extras =>
      case Harness =>
    }
  }

  lemma ReclockedTrust(context: Value, now: string, seconds: nat)
    requires context.Obj?
    ensures Clock(Reclocked(context, now, seconds)) == Some(now)
    ensures Window(Reclocked(context, now, seconds)) == seconds as real
    ensures TrustedOf(Reclocked(context, now, seconds))
         == TrustedOf(context).(window := seconds as real, now := Some(now))
  {
    hide TrustedOf, AgreeButClock, Reclocked;
    ReclockedKeeps(context, now, seconds);
    ReclockedAgrees(context, now, seconds);
    AlikeTrust(context, Reclocked(context, now, seconds));
  }

  /** A statement reaches the policy whatever the clock and window. */
  lemma ReclockedReaches(v: Version, statement: Value, context: Value, now: string, seconds: nat)
    requires Reaches(v, statement, context) && IsTimestamp(JsonSchema, Str(now))
    ensures context.Obj? && Reaches(v, statement, Reclocked(context, now, seconds))
  {
    hide *;
    ReachesIff(v, statement, context);
    AcceptedIff(v, Member(statement, "predicate"), context);
    ReclockedShape(context, now, seconds);
    AcceptedIff(v, Member(statement, "predicate"), Reclocked(context, now, seconds));
    ReachesIff(v, statement, Reclocked(context, now, seconds));
  }

  /** Nanoseconds from the finish of a run to the verifier's clock; 23:59:60 is the midnight after it. */
  function Elapsed(finished: string, now: string): int
    requires Shape(finished) && Shape(now)
  {
    Read(now).UnixNanos() - Read(finished).UnixNanos()
  }

  /** What the policy's clock function can represent: an instant in 64-bit nanoseconds. */
  predicate RepresentedInNanos(s: string) {
    ParseNanos(s).Some?
  }

  const SECOND := 1_000_000_000

  lemma ReachedTimes(statement: Value, context: Value)
    requires Reached(statement, context)
    ensures context.Obj? && Shape(FinishOf(statement))
  {
    hide *;
    var v := ReachedVersion(statement, context);
    ReachesIff(v, statement, context);
    BodyIsPredicate(statement);
    AcceptedTimestamps(v, Body(statement), context);
    AcceptedIff(v, Body(statement), context);
    SchemaTimesAreRunTimes(JsonSchema, Member(Body(statement), "timestamps"));
    FinishIs(statement);
    ContextIsObject(context);
  }

  lemma ContextIsObject(context: Value)
    requires ContextShape(context)
    ensures context.Obj?
  {
    assert ContextPart(Keys, context);
  }

  lemma ReachesObjects(v: Version, statement: Value, context: Value)
    requires Reaches(v, statement, context)
    ensures context.Obj?
  {
    hide *;
    ReachesIff(v, statement, context);
    AcceptedIff(v, Member(statement, "predicate"), context);
    ContextIsObject(context);
  }

  lemma FinishIs(statement: Value)
    ensures RunTimes(Member(Body(statement), "timestamps")) ==> Shape(FinishOf(statement))
  {
    hide Shape;
  }

  /** Against a clock and a window of whole seconds, a stale run is one older than the window that can be represented. */
  lemma ReclockedStaleIff(statement: Value, context: Value, now: string, seconds: nat)
    requires Reached(statement, context) && IsTimestamp(JsonSchema, Str(now)) && seconds >= 1
    ensures context.Obj? && Shape(FinishOf(statement)) && Shape(now)
    ensures ReportsStale(statement, Reclocked(context, now, seconds)) <==>
            && RepresentedInNanos(FinishOf(statement)) && RepresentedInNanos(now)
            && Elapsed(FinishOf(statement), now) > seconds * SECOND
  {
    hide Reached, ReportsStale, Reclocked, Shape, DateTimeFormat, FinishOf, Read;
    ReachedTimes(statement, context);
    var v := ReachedVersion(statement, context);
    ReclockedReaches(v, statement, context, now, seconds);
    ReachedBy(v, statement, Reclocked(context, now, seconds));
    ReportsStaleIff(statement, Reclocked(context, now, seconds));
    ReclockedTrust(context, now, seconds);
    assert seconds as real * 1000000000.0 == (seconds * SECOND) as real;
  }

  /** For every window of whole seconds, what is reported is true elapsed time. */
  ghost predicate StalenessIsExact(statement: Value, context: Value, now: string)
    requires context.Obj? && Shape(FinishOf(statement)) && Shape(now)
  {
    forall seconds: nat | seconds >= 1 ::
      ReportsStale(statement, Reclocked(context, now, seconds)) <==> Elapsed(FinishOf(statement), now) > seconds * SECOND
  }

  /**
   For every statement that reaches the policy and every clock, staleness is reported exactly if and only if
   both times can be represented, or the run is no more than a second old; otherwise a stale run passes.
   */
  lemma StalenessIsExactIff(statement: Value, context: Value, now: string)
    requires Reached(statement, context) && IsTimestamp(JsonSchema, Str(now))
    ensures context.Obj? && Shape(FinishOf(statement)) && Shape(now)
    ensures StalenessIsExact(statement, context, now) <==>
            || (RepresentedInNanos(FinishOf(statement)) && RepresentedInNanos(now))
            || Elapsed(FinishOf(statement), now) <= SECOND
  {
    hide Reached, ReportsStale, Reclocked, Shape, DateTimeFormat, FinishOf, IsTimestamp, Read, RepresentedInNanos, Elapsed;
    ReclockedStaleIff(statement, context, now, 1);
    forall seconds: nat | seconds >= 1
      ensures ReportsStale(statement, Reclocked(context, now, seconds)) <==>
              && RepresentedInNanos(FinishOf(statement)) && RepresentedInNanos(now)
              && Elapsed(FinishOf(statement), now) > seconds * SECOND
    {
      ReclockedStaleIff(statement, context, now, seconds);
    }
    assert StalenessIsExact(statement, context, now) ==>
           (ReportsStale(statement, Reclocked(context, now, 1)) <==> Elapsed(FinishOf(statement), now) > 1 * SECOND);
  }

  lemma UnrepresentedIsFresh(c: G.Claim, x: G.Trusted)
    requires x.now.Some? && !RepresentedInNanos(c.finishedAt)
    ensures G.Fresh(c, x)
  {
  }

  /**
   Every valid statement stays valid, whatever clock and window, with any accepted times that end in one the
   policy cannot represent.
   */
  lemma UnrepresentedStaysValid(statement: Value, context: Value, t: Value, now: string, seconds: nat)
    requires Verdict(Some(DEFAULT), statement, context).valid && AcceptedTimes(t) && !RepresentedInNanos(Finish(t))
    requires IsTimestamp(JsonSchema, Str(now))
    ensures statement.Obj? && Body(statement).Obj? && context.Obj?
    ensures Verdict(Some(DEFAULT), Retimed(statement, t), Reclocked(context, now, seconds)).valid
  {
    hide *;
    BodyIsPredicate(statement);
    ValidIffEveryGateHolds(statement, context);
    var v := ReachedVersion(statement, context);
    ReachesObjects(v, statement, context);
    RetimedReaches(v, statement, context, t);
    var s, x := Retimed(statement, t), Reclocked(context, now, seconds);
    ReclockedReaches(v, s, context, now, seconds);
    BodyIsPredicate(s);
    FailuresOf(statement, context);
    FailuresOf(s, x);
    ReclockedTrust(context, now, seconds);
    UnrepresentedFailsNothing(ClaimOf(Body(statement)), SubjectsOf(statement), TrustedOf(context), TrustedOf(x), Finish(t));
    ReachedIsValidIff(v, s, x);
  }

  lemma UnrepresentedFailsNothing(c: G.Claim, s: seq<G.StatementSubject>, x: G.Trusted, y: G.Trusted, finish: string)
    requires Failing(c, s, x) == {} && !RepresentedInNanos(finish)
    requires y == x.(window := y.window, now := y.now) && y.now.Some?
    ensures Failing(c.(finishedAt := finish), s, y) == {}
  {
    var d := c.(finishedAt := finish);
    UnrepresentedIsFresh(c.(finishedAt := finish), y);
    NothingFails(c, s, x);
    NothingFails(d, s, y);
    forall code
      ensures G.Holds(code, d, s, y)
    {
      assert G.Holds(code, c, s, x);
    }
  }

  lemma SameTimesAreAccepted(time: string)
    requires IsTimestamp(JsonSchema, Str(time)) && IsTimestamp(Cue, Str(time))
    ensures AcceptedTimes(TimestampsObject(time)) && Finish(TimestampsObject(time)) == time
  {
    hide IsTimestamp;
    TimestampsFit(JsonSchema, time);
    TimestampsFit(Cue, time);
  }

  function LeapSecond(year: nat, month: nat, day: nat): string {
    FormatTime(Moment(year, month, day, 23, 59, 60, 0))
  }

  /** The leap second of any day is a time to the contracts, and none to the policy. */
  lemma LeapSecondIsUnrepresented(year: nat, month: nat, day: nat)
    requires year < 10000 && IsDate(year, month, day)
    ensures IsTimestamp(JsonSchema, Str(LeapSecond(year, month, day))) && IsTimestamp(Cue, Str(LeapSecond(year, month, day)))
    ensures !RepresentedInNanos(LeapSecond(year, month, day))
  {
    var m := Moment(year, month, day, 23, 59, 60, 0);
    FormattedFields(m);
    FieldsHaveShape(m, LeapSecond(year, month, day));
  }

  const ANCIENT := FormatTime(Moment(1600, 1, 1, 0, 0, 0, 0))

  /** So is the year 1600, which 64-bit nanoseconds do not reach. */
  lemma AncientIsUnrepresented()
    ensures IsTimestamp(JsonSchema, Str(ANCIENT)) && IsTimestamp(Cue, Str(ANCIENT)) && Instant(ANCIENT).Some?
    ensures !RepresentedInNanos(ANCIENT)
  {
    var m := Moment(1600, 1, 1, 0, 0, 0, 0);
    FormatTimeReadsBack(m);
    DaysBeforeYearClosedForm(1600);
    assert m.UnixNanos() < -0x8000_0000_0000_0000;
  }

  /** Every valid statement stays valid, whatever clock and window, with its run moved to the leap second of any day. */
  lemma LeapSecondStaysValid(statement: Value, context: Value, year: nat, month: nat, day: nat, now: string, seconds: nat)
    requires Verdict(Some(DEFAULT), statement, context).valid && IsTimestamp(JsonSchema, Str(now))
    requires year < 10000 && IsDate(year, month, day)
    ensures statement.Obj? && Body(statement).Obj? && context.Obj?
    ensures var t := TimestampsObject(LeapSecond(year, month, day));
            Verdict(Some(DEFAULT), Retimed(statement, t), Reclocked(context, now, seconds)).valid
  {
    hide *;
    LeapSecondIsUnrepresented(year, month, day);
    SameTimesAreAccepted(LeapSecond(year, month, day));
    UnrepresentedStaysValid(statement, context, TimestampsObject(LeapSecond(year, month, day)), now, seconds);
  }

  /** And when it is moved to the year 1600. */
  lemma AncientStaysValid(statement: Value, context: Value, now: string, seconds: nat)
    requires Verdict(Some(DEFAULT), statement, context).valid && IsTimestamp(JsonSchema, Str(now))
    ensures statement.Obj? && Body(statement).Obj? && context.Obj?
    ensures Verdict(Some(DEFAULT), Retimed(statement, TimestampsObject(ANCIENT)), Reclocked(context, now, seconds)).valid
  {
    hide *;
    AncientIsUnrepresented();
    SameTimesAreAccepted(ANCIENT);
    UnrepresentedStaysValid(statement, context, TimestampsObject(ANCIENT), now, seconds);
  }
}
