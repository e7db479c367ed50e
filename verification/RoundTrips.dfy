/** The contracts on produced predicates, part by part. */
module ProducedShapes {
  import opened Basics
  import opened Json
  import opened Text
  import opened Schema
  import opened Produced

  function OptionalMember(p: Value, key: string): Option<Value> {
    if Has(p, key) then Some(Member(p, key)) else None
  }

  predicate CoreAssembled(p: Value, q: Parts) {
    && Member(p, "predicateVersion") == Str(q.version.Name())
    && Member(p, "runId") == Str(q.runId)
    && Member(p, "verificationLevel") == Str("evidence-grade")
    && Member(p, "repo") == q.repo
    && Member(p, "agent") == q.agent
    && Member(p, "environment") == EnvironmentObject(q.executionType)
    && Member(p, "humanApproval") == Obj(map["state" := Str("none")])
    && Member(p, "privacy") == PRIVACY
    && Member(p, "timestamps") == TimestampsObject(q.time)
    && Member(p, "evidence") == Arr([q.evidence])
  }

  function PartOf(q: Parts, key: string): Option<Value> {
    if key == "capture" then q.capture
    else if key == "agentConfig" then q.agentConfig
    else if key == "model" then q.model
    else if key == "runtime" then q.runtime
    else if key == "mcpServers" then q.mcpServers
    else if key == "tools" then q.tools
    else None
  }

  ghost predicate OptionsAssembled(p: Value, q: Parts) {
    forall key | key !in REQUIRED :: OptionalMember(p, key) == PartOf(q, key)
  }

  ghost predicate AssembledPart(part: Part, p: Value, q: Parts) {
    match part
    case Keys => p.Obj? && REQUIRED <= p.fields.Keys
    case Core => CoreAssembled(p, q)
    case _ => OptionsAssembled(p, q)
  }

  /** `p` has these parts as its members, and no member besides. */
  ghost predicate Assembled(p: Value, q: Parts) {
    forall part: Part :: AssembledPart(part, p, q)
  }

  lemma CoreFields(q: Parts)
    ensures var core := BaseFields(q)["predicateVersion" := Str(q.version.Name())];
            core.Keys == REQUIRED && CoreAssembled(Obj(core), q)
  {
  }

  lemma FieldsAreAssembled(q: Parts)
    ensures Assembled(Obj(Fields(q)), q)
  {
    var core := BaseFields(q)["predicateVersion" := Str(q.version.Name())];
    CoreFields(q);
    ExtendedAssembled(core, q);
  }

  lemma SameCore(core: map<string, Value>, m: map<string, Value>, q: Parts)
    requires CoreAssembled(Obj(core), q) && REQUIRED <= core.Keys
    requires forall key | key in REQUIRED :: key in m && m[key] == core[key]
    ensures CoreAssembled(Obj(m), q)
  {
  }

  lemma CoreOfExtended(core: map<string, Value>, q: Parts)
    requires core.Keys == REQUIRED && CoreAssembled(Obj(core), q)
    ensures CoreAssembled(Obj(Extended(core, q)), q)
  {
    hide Extended, CoreAssembled;
    forall key | key in REQUIRED
      ensures key in Extended(core, q) && Extended(core, q)[key] == core[key]
    {
      ExtendedKeeps(core, q, key);
    }
    SameCore(core, Extended(core, q), q);
  }

  lemma ExtendedAssembled(core: map<string, Value>, q: Parts)
    requires core.Keys == REQUIRED && CoreAssembled(Obj(core), q)
    ensures Assembled(Obj(Extended(core, q)), q)
  {
    forall part: Part
      ensures AssembledPart(part, Obj(Extended(core, q)), q)
    {
      match part
      case Core => CoreOfExtended(core, q);
      case _ =>
        forall key
          ensures key in REQUIRED ==> key in Extended(core, q)
          ensures key !in REQUIRED ==> OptionalMember(Obj(Extended(core, q)), key) == PartOf(q, key)
        {
          if key in REQUIRED {
            ExtendedKeeps(core, q, key);
          } else {
            ReadOfExtended(core, q, key);
          }
        }
    }
  }

  lemma PutSomeReads(m: map<string, Value>, key: string, v: Option<Value>, k: string)
    ensures OptionalMember(Obj(PutSome(m, key, v)), k) == if k == key && v.Some? then v else OptionalMember(Obj(m), k)
  {
  }

  lemma ReadOfExtended(core: map<string, Value>, q: Parts, key: string)
    requires key !in core
    ensures OptionalMember(Obj(Extended(core, q)), key) == PartOf(q, key)
  {
    var capture := PutSome(core, "capture", q.capture);
    var config := PutSome(capture, "agentConfig", q.agentConfig);
    var model := PutSome(config, "model", q.model);
    var runtime := PutSome(model, "runtime", q.runtime);
    var servers := PutSome(runtime, "mcpServers", q.mcpServers);
    PutSomeReads(core, "capture", q.capture, key);
    PutSomeReads(capture, "agentConfig", q.agentConfig, key);
    PutSomeReads(config, "model", q.model, key);
    PutSomeReads(model, "runtime", q.runtime, key);
    PutSomeReads(runtime, "mcpServers", q.mcpServers, key);
    PutSomeReads(servers, "tools", q.tools, key);
  }

  predicate CoreFits(l: Layer, v: Version, q: Parts) {
    && IsVersion(l, v, Str(q.version.Name()))
    && IsRunId(Str(q.runId))
    && IsRepo(l, q.repo)
    && IsAgent(l, v, q.agent)
    && IsEnvironment(l, v, EnvironmentObject(q.executionType))
    && IsTimestamp(l, Str(q.time))
    && IsEvidence(l, v, q.evidence)
  }

  predicate HoldsTrace(q: Parts) {
    Member(q.evidence, "type") == Str("trace")
  }

  predicate ExtrasFit(l: Layer, q: Parts) {
    && (q.model.Some? ==> IsModel(l, q.model.value))
    && (q.runtime.Some? ==> IsRuntime(q.runtime.value))
    && (l.Cue? && q.runtime.Some? ==> HoldsTrace(q))
  }

  predicate HarnessFits(l: Layer, q: Parts) {
    && (q.capture.Some? ==> IsCapture(l, q.capture.value))
    && (q.agentConfig.Some? ==> IsAgentConfig(q.agentConfig.value))
    && (q.mcpServers.Some? ==>
          q.mcpServers.value.Arr? && forall s | s in q.mcpServers.value.items :: IsMcpServer(l, s))
    && (q.tools.Some? ==> q.tools.value.Arr? && forall t | t in q.tools.value.items :: IsTool(l, t))
    && (l.Cue? && q.capture.Some? && Member(q.capture.value, "method") == Str("harness-native") ==>
          q.runtime.Some? && HoldsTrace(q))
  }

  /** Version 0 has none of the members that version 1 adds. */
  predicate KeysFit(v: Version, q: Parts) {
    v.V0? ==> q.capture.None? && q.agentConfig.None? && q.mcpServers.None? && q.tools.None?
  }

  predicate PartFits(part: Part, l: Layer, v: Version, q: Parts) {
    match part
    case Keys => KeysFit(v, q)
    case Core => CoreFits(l, v, q)
    case Extras => ExtrasFit(l, q)
    case Harness => v.V1? ==> HarnessFits(l, q)
  }

  ghost predicate PartsFit(l: Layer, v: Version, q: Parts) {
    forall part: Part :: PartFits(part, l, v, q)
  }

  lemma ConstantPartsFit(l: Layer)
    ensures IsLevel(Str("evidence-grade"))
    ensures IsHumanApproval(l, Obj(map["state" := Str("none")]))
  {
  }

  /** Nothing raw is stored, and nothing is logged. */
  lemma PrivacyFits(l: Layer)
    ensures IsPrivacy(l, PRIVACY)
  {
    assert IsRawEvidence(l, NOTHING_STORED);
    assert IsPublicLog(NOTHING_LOGGED);
  }

  /** A run that starts and finishes in the same second is in order. */
  lemma TimestampsFit(l: Layer, time: string)
    ensures IsTimestamps(l, TimestampsObject(time)) <==> IsTimestamp(l, Str(time))
  {
    TextLessIsTotal(time, time);
  }

  lemma SingleEvidence(l: Layer, v: Version, p: Value, q: Parts)
    requires Assembled(p, q)
    ensures Member(p, "evidence").Arr? && Member(p, "evidence").items == ItemsMember(p, "evidence") == [q.evidence]
    ensures (forall e | e in ItemsMember(p, "evidence") :: IsEvidence(l, v, e)) <==> IsEvidence(l, v, q.evidence)
  {
    assert AssembledPart(Core, p, q);
    assert q.evidence in [q.evidence];
  }

  lemma CoreShapeFits(l: Layer, v: Version, p: Value, q: Parts)
    requires Assembled(p, q) && CoreShape(l, v, p)
    ensures CoreFits(l, v, q)
  {
    SingleEvidence(l, v, p, q);
    TimestampsFit(l, q.time);
    assert AssembledPart(Core, p, q);
  }

  lemma CoreFitsShape(l: Layer, v: Version, p: Value, q: Parts)
    requires Assembled(p, q) && CoreFits(l, v, q)
    ensures CoreShape(l, v, p)
  {
    ConstantPartsFit(l);
    PrivacyFits(l);
    SingleEvidence(l, v, p, q);
    TimestampsFit(l, q.time);
    assert AssembledPart(Core, p, q);
  }

  lemma CoreShapeIff(l: Layer, v: Version, p: Value, q: Parts)
    requires Assembled(p, q)
    ensures CoreShape(l, v, p) <==> CoreFits(l, v, q)
  {
    if CoreShape(l, v, p) {
      CoreShapeFits(l, v, p, q);
    }
    if CoreFits(l, v, q) {
      CoreFitsShape(l, v, p, q);
    }
  }

  lemma OptionReads(p: Value, q: Parts, key: string)
    requires Assembled(p, q) && key !in REQUIRED
    ensures OptionalMember(p, key) == PartOf(q, key)
  {
    assert AssembledPart(Extras, p, q);
  }

  lemma ExtrasShapeIff(l: Layer, p: Value, q: Parts)
    requires Assembled(p, q)
    ensures OptionalShape(l, p) <==> ExtrasFit(l, q)
  {
    OptionReads(p, q, "model");
    OptionReads(p, q, "runtime");
    OptionReads(p, q, "changes");
    OptionReads(p, q, "sidecars");
    OptionReads(p, q, "materials");
    OptionReads(p, q, "extensions");
    TraceHeld(p, q);
  }

  lemma TraceHeld(p: Value, q: Parts)
    requires Assembled(p, q)
    ensures HasTrace(p) <==> HoldsTrace(q)
  {
    assert AssembledPart(Core, p, q);
    assert ItemsMember(p, "evidence") == [q.evidence];
    assert q.evidence in ItemsMember(p, "evidence");
  }

  lemma HarnessShapeIff(l: Layer, p: Value, q: Parts)
    requires Assembled(p, q)
    ensures HarnessShape(l, p) <==> HarnessFits(l, q)
  {
    OptionReads(p, q, "capture");
    OptionReads(p, q, "agentConfig");
    OptionReads(p, q, "mcpServers");
    OptionReads(p, q, "tools");
    OptionReads(p, q, "delegation");
    OptionReads(p, q, "runtime");
    TraceHeld(p, q);
  }

  lemma KeysIff(l: Layer, v: Version, p: Value, q: Parts)
    requires Assembled(p, q)
    ensures PredicatePart(Keys, l, v, p) <==> KeysFit(v, q)
  {
    assert AssembledPart(Keys, p, q);
    forall key | key !in REQUIRED
      ensures Has(p, key) <==> PartOf(q, key).Some?
    {
      OptionReads(p, q, key);
    }
    if v.V0? && Closed(p, REQUIRED, OPTIONAL) {
      AddedByVersion1(p, q, "capture");
      AddedByVersion1(p, q, "agentConfig");
      AddedByVersion1(p, q, "mcpServers");
      AddedByVersion1(p, q, "tools");
    }
  }

  lemma AddedByVersion1(p: Value, q: Parts, key: string)
    requires Assembled(p, q) && Closed(p, REQUIRED, OPTIONAL)
    requires key in {"capture", "agentConfig", "mcpServers", "tools"}
    ensures PartOf(q, key).None?
  {
    OptionReads(p, q, key);
  }

  /** A contract accepts an assembled predicate exactly when its parts fit. */
  lemma ShapeIff(l: Layer, v: Version, p: Value, q: Parts)
    requires Assembled(p, q)
    ensures PredicateShape(l, v, p) <==> PartsFit(l, v, q)
  {
    forall part: Part
      ensures PredicatePart(part, l, v, p) <==> PartFits(part, l, v, q)
    {
      PartIff(part, l, v, p, q);
    }
  }

  lemma PartIff(part: Part, l: Layer, v: Version, p: Value, q: Parts)
    requires Assembled(p, q)
    ensures PredicatePart(part, l, v, p) <==> PartFits(part, l, v, q)
  {
    match part
    case Keys => KeysIff(l, v, p, q);
    case Core => CoreShapeIff(l, v, p, q);
    case Extras => ExtrasShapeIff(l, p, q);
    case Harness => HarnessShapeIff(l, p, q);
  }

  ghost predicate RepoAccepted(j: Value) { forall l :: IsRepo(l, j) }
  ghost predicate AgentAccepted(v: Version, j: Value) { forall l :: IsAgent(l, v, j) }
  ghost predicate EnvironmentAccepted(v: Version, j: Value) { forall l :: IsEnvironment(l, v, j) }
  ghost predicate TimeAccepted(time: string) { forall l :: IsTimestamp(l, Str(time)) }
  ghost predicate EvidenceAccepted(v: Version, j: Value) { forall l :: IsEvidence(l, v, j) }
  ghost predicate VersionAccepted(v: Version, name: string) { forall l :: IsVersion(l, v, Str(name)) }

  /** Both contracts accept the required members, one by one. */
  ghost predicate CoreAccepted(v: Version, q: Parts) {
    && VersionAccepted(v, q.version.Name()) && IsRunId(Str(q.runId))
    && RepoAccepted(q.repo) && AgentAccepted(v, q.agent)
    && EnvironmentAccepted(v, EnvironmentObject(q.executionType))
    && TimeAccepted(q.time) && EvidenceAccepted(v, q.evidence)
  }

  /** Both contracts accept this part. */
  ghost predicate Accepts(part: Part, v: Version, q: Parts) {
    forall l :: PartFits(part, l, v, q)
  }

  lemma CoreAcceptedIff(v: Version, q: Parts)
    ensures Accepts(Core, v, q) <==> CoreAccepted(v, q)
  {
    if Accepts(Core, v, q) {
      forall l
        ensures IsVersion(l, v, Str(q.version.Name())) && IsRunId(Str(q.runId)) && IsTimestamp(l, Str(q.time))
        ensures IsRepo(l, q.repo) && IsAgent(l, v, q.agent) && IsEvidence(l, v, q.evidence)
        ensures IsEnvironment(l, v, EnvironmentObject(q.executionType))
      {
        assert PartFits(Core, l, v, q);
      }
      assert PartFits(Core, Cue, v, q);
    }
  }

  ghost predicate CaptureAccepted(j: Value) { forall l :: IsCapture(l, j) }
  ghost predicate ModelAccepted(j: Value) { forall l :: IsModel(l, j) }
  ghost predicate ServerAccepted(j: Value) { forall l :: IsMcpServer(l, j) }
  ghost predicate ToolAccepted(j: Value) { forall l :: IsTool(l, j) }

  ghost predicate ExtrasAccepted(q: Parts) {
    && (q.model.Some? ==> ModelAccepted(q.model.value))
    && (q.runtime.Some? ==> IsRuntime(q.runtime.value) && HoldsTrace(q))
  }

  lemma ExtrasAcceptedIff(v: Version, q: Parts)
    ensures Accepts(Extras, v, q) <==> ExtrasAccepted(q)
  {
    if Accepts(Extras, v, q) {
      assert PartFits(Extras, Cue, v, q);
      forall l
        ensures q.model.Some? ==> IsModel(l, q.model.value)
      {
        assert PartFits(Extras, l, v, q);
      }
    }
  }

  predicate HarnessNative(q: Parts) {
    q.capture.Some? && Member(q.capture.value, "method") == Str("harness-native")
  }

  ghost predicate HarnessAccepted(q: Parts) {
    && (q.capture.Some? ==> CaptureAccepted(q.capture.value))
    && (q.agentConfig.Some? ==> IsAgentConfig(q.agentConfig.value))
    && (q.mcpServers.Some? ==>
          q.mcpServers.value.Arr? && forall s | s in q.mcpServers.value.items :: ServerAccepted(s))
    && (q.tools.Some? ==> q.tools.value.Arr? && forall t | t in q.tools.value.items :: ToolAccepted(t))
    && (HarnessNative(q) ==> q.runtime.Some? && HoldsTrace(q))
  }

  lemma HarnessAcceptedIff(q: Parts)
    ensures Accepts(Harness, V1, q) <==> HarnessAccepted(q)
  {
    if Accepts(Harness, V1, q) {
      assert PartFits(Harness, Cue, V1, q);
      forall l
        ensures HarnessFits(l, q)
      {
        assert PartFits(Harness, l, V1, q);
      }
      HarnessOfEveryLayer(q);
    }
  }

  lemma HarnessOfEveryLayer(q: Parts)
    requires forall l :: HarnessFits(l, q)
    ensures HarnessAccepted(q)
  {
    assert HarnessFits(Cue, q);
    forall l
      ensures q.capture.Some? ==> IsCapture(l, q.capture.value)
      ensures q.mcpServers.Some? ==> forall s | s in q.mcpServers.value.items :: IsMcpServer(l, s)
      ensures q.tools.Some? ==> forall t | t in q.tools.value.items :: IsTool(l, t)
    {
      assert HarnessFits(l, q);
    }
  }

  lemma AcceptsIff(part: Part, v: Version, q: Parts)
    ensures Accepts(part, v, q) <==> PartFits(part, JsonSchema, v, q) && PartFits(part, Cue, v, q)
  {
    if PartFits(part, JsonSchema, v, q) && PartFits(part, Cue, v, q) {
      forall l
        ensures PartFits(part, l, v, q)
      {
        match l
        case JsonSchema =>
        case Cue =>
      }
    }
  }

  /** Both contracts accept an assembled predicate exactly when they accept its parts. */
  lemma AcceptedIffParts(v: Version, p: Value, q: Parts)
    requires Assembled(p, q)
    ensures PredicateShape(JsonSchema, v, p) && PredicateShape(Cue, v, p) <==>
            && Accepts(Keys, v, q) && Accepts(Core, v, q) && Accepts(Extras, v, q) && Accepts(Harness, v, q)
  {
    ShapeIff(JsonSchema, v, p, q);
    ShapeIff(Cue, v, p, q);
    forall part: Part
      ensures Accepts(part, v, q) <==> PartFits(part, JsonSchema, v, q) && PartFits(part, Cue, v, q)
    {
      AcceptsIff(part, v, q);
    }
    if Accepts(Keys, v, q) && Accepts(Core, v, q) && Accepts(Extras, v, q) && Accepts(Harness, v, q) {
      forall part: Part
        ensures Accepts(part, v, q)
      {
        match part
        case Keys =>
        case Core =>
        case Extras =>
        case Harness =>
      }
    }
  }
}

/** The same contracts, as conditions on the texts the producers are given. */
module ProducedTexts {
  import opened Json
  import opened Patterns
  import opened Timestamps
  import opened Schema
  import opened Decimals
  import opened Formats
  import opened Produced
  import opened Creation
  import opened Capturing
  import opened ProducedShapes

  predicate TextFits(s: string, max: nat) {
    1 <= |s| <= max && '\n' !in s
  }

  predicate OptionalTextFits(s: string, max: nat) {
    s == "" || TextFits(s, max)
  }

  predicate RepoUriFits(s: string) {
    RepoUriText(s) && |s| <= 1024
  }

  /** The git facts and the overrides make a `repo` object of the contracts. */
  predicate RepoFits(result: GitResult, o: CreateOptions) {
    && RepoUriFits(FirstNonEmpty(o.repoUrl, result.repoUrl))
    && GitCommit(FirstNonEmpty(o.baseCommit, result.baseCommit))
    && (result.headCommit == "" || GitCommit(result.headCommit))
    && (result.branch == "" || BranchText(result.branch))
  }

  lemma RepoFitsIff(result: GitResult, o: CreateOptions)
    ensures RepoAccepted(RepoObject(result, o)) <==> RepoFits(result, o)
  {
    assert RepoAccepted(RepoObject(result, o)) ==> IsRepo(JsonSchema, RepoObject(result, o));
  }

  lemma AgentFitsIff(v: Version, name: string, version: string, kind: string)
    ensures AgentAccepted(v, AgentObject(name, version, kind))
       <==> TextFits(name, 128) && TextFits(version, 128) && kind in InvocationKinds(v)
  {
    assert AgentAccepted(v, AgentObject(name, version, kind)) ==> IsAgent(Cue, v, AgentObject(name, version, kind));
  }

  /** Without a builder, any execution type fits but `github-actions`. */
  lemma EnvironmentFitsIff(v: Version, executionType: string)
    ensures EnvironmentAccepted(v, EnvironmentObject(executionType))
       <==> executionType in ExecutionTypes(v) && executionType != "github-actions"
  {
    assert EnvironmentAccepted(v, EnvironmentObject(executionType)) ==>
           IsEnvironment(Cue, v, EnvironmentObject(executionType));
  }

  lemma TimeFitsIff(m: Moment)
    requires m.Exists()
    ensures TimeAccepted(FormatTime(m)) <==> m.year < 10000
  {
    assert TimeAccepted(FormatTime(m)) ==> IsTimestamp(Cue, Str(FormatTime(m)));
    if m.year < 10000 {
      FormatTimeReadsBack(m);
    } else {
      LateYearsHaveNoShape(m);
    }
  }

  /** Every run id of a printable time is a run id of the contracts. */
  lemma RunIdFits(m: Moment, pid: nat)
    requires m.year < 10000 && pid < TWO_64
    ensures RunIdText(RunId(m, pid)) && |RunId(m, pid)| <= 41
  {
    hide Pow10, Print, Padded;
    TwentyDigits();
    PrintLength(pid, 20);
  }

  /** 64-bit numbers have at most twenty digits. */
  lemma TwentyDigits()
    ensures Pow10(20) > TWO_64
  {
    Pow10Splits(10, 10);
    Pow10Splits(5, 5);
    assert Pow10(3) == 1000 && Pow10(5) == 100_000;
  }

  lemma SummaryFits(v: Version, runId: string, patchDigest: string, host: Host)
    requires RunIdText(runId) && HexSha256(host.sha256(runId + "\n" + patchDigest + "\n"))
    ensures EvidenceAccepted(v, SummaryEvidence(runId, patchDigest, host))
  {
    SummaryUriFits(runId);
    DigestFitsIff(host.sha256(runId + "\n" + patchDigest + "\n"));
  }

  lemma JoinedHasNoSpace(a: string, b: string, c: string)
    requires NoSpace(a) && NoSpace(b) && NoSpace(c)
    ensures NoSpace(a + b + c)
  {
  }

  lemma PrefixedHasRest(prefix: string, rest: string)
    requires rest != "" && NoSpace(rest)
    ensures HasRest(prefix + rest, prefix)
  {
    assert (prefix + rest)[|prefix|..] == rest;
  }

  lemma SummaryUriFits(runId: string)
    requires RunIdText(runId)
    ensures SafeUriFits("artifact://" + SummaryPath(runId))
  {
    LiteralsHaveNoSpace();
    JoinedHasNoSpace("agentattest/evidence/", runId, ".summary.json");
    ArtifactUriFits(SummaryPath(runId));
  }

  lemma ArtifactUriFits(rest: string)
    requires rest != "" && NoSpace(rest) && |rest| <= 1000
    ensures SafeUriFits("artifact://" + rest)
  {
    PrefixedHasRest("artifact://", rest);
  }

  lemma LiteralsHaveNoSpace()
    ensures NoSpace("agentattest/evidence/") && NoSpace(".summary.json")
  {
  }

  lemma DigestFitsIff(sha256: string)
    ensures IsDigest(DigestObject(sha256)) <==> HexSha256(sha256)
  {
  }

  predicate SafeUriFits(s: string) {
    SafeUriText(s) && |s| <= 1024
  }

  lemma TraceFitsIff(v: Version, meta: RunMetadata)
    ensures EvidenceAccepted(v, TraceEvidence(meta)) <==> SafeUriFits(meta.traceUri) && HexSha256(meta.traceDigest)
  {
    assert EvidenceAccepted(v, TraceEvidence(meta)) ==> IsEvidence(JsonSchema, v, TraceEvidence(meta));
    DigestFitsIff(meta.traceDigest);
  }

  const CAPTURE_METHODS := {"harness-native", "wrapper", "ci-step", "manual"}

  lemma CaptureFitsIff(o: CreateOptions)
    ensures var j, how := Obj(CaptureFields(o)), FirstNonEmpty(o.captureMethod, "wrapper");
            (CaptureAccepted(j) <==>
              && how in CAPTURE_METHODS && OptionalTextFits(o.captureHarness, 128)
              && (how == "harness-native" ==> o.captureHarness != ""))
            && Member(j, "method") == Str(how)
  {
    assert CaptureAccepted(Obj(CaptureFields(o))) ==> IsCapture(Cue, Obj(CaptureFields(o)));
  }

  predicate AgentConfigFits(o: CreateOptions) {
    o.agentConfigSha256 == "" ||
    (RelPathText(FirstNonEmpty(o.agentConfigPath, "AGENTS.md")) && HexSha256(o.agentConfigSha256))
  }

  lemma AgentConfigFitsIff(o: CreateOptions)
    ensures (AgentConfigObject(o).Some? ==> IsAgentConfig(AgentConfigObject(o).value)) <==> AgentConfigFits(o)
  {
    DigestFitsIff(o.agentConfigSha256);
  }

  predicate ModelFits(o: CreateOptions) {
    o.modelProvider == "" || o.modelId == "" || (TextFits(o.modelProvider, 128) && TextFits(o.modelId, 256))
  }

  lemma ModelFitsIff(o: CreateOptions)
    ensures var m := ModelObject(o);
            (m.Some? ==> ModelAccepted(m.value)) <==> ModelFits(o)
  {
    var m := ModelObject(o);
    assert m.Some? && ModelAccepted(m.value) ==> IsModel(Cue, m.value);
  }

  predicate RuntimeFits(meta: RunMetadata) {
    && TraceFormatOf(meta) in {"opentelemetry-json", "openinference-otel-json", "otlp-json", "otlp-protobuf"}
    && meta.traceIds != [] && (forall id | id in meta.traceIds :: LowerHex(id, 32))
    && (meta.rootSpanId == "" || LowerHex(meta.rootSpanId, 16))
  }

  lemma EachMember<T>(f: T -> Value, xs: seq<T>)
    ensures forall x | x in xs :: f(x) in Each(f, xs)
    ensures forall y | y in Each(f, xs) :: exists x | x in xs :: y == f(x)
  {
    forall x | x in xs
      ensures f(x) in Each(f, xs)
    {
      var i :| 0 <= i < |xs| && xs[i] == x;
      assert Each(f, xs)[i] == f(x);
    }
  }

  lemma RuntimeFitsIff(meta: RunMetadata)
    ensures IsRuntime(RuntimeObject(meta)) <==> RuntimeFits(meta)
  {
    var ids := Each(id => Str(id), meta.traceIds);
    EachMember(id => Str(id), meta.traceIds);
    assert (forall t | t in ids :: IsTraceId(t)) <==> (forall id | id in meta.traceIds :: LowerHex(id, 32)) by {
      forall id | id in meta.traceIds
        ensures Str(id) in ids && (IsTraceId(Str(id)) <==> LowerHex(id, 32))
      {
      }
    }
  }

  predicate ServerFits(s: McpServer) {
    && ServerNameText(s.name) && s.transport in {"stdio", "streamable-http", "sse"} && HexSha256(s.digest)
    && OptionalTextFits(s.version, 64) && OptionalTextFits(s.serverIdentity, 512)
  }

  lemma ServerFitsIff(s: McpServer)
    ensures ServerAccepted(ServerObject(s)) <==> ServerFits(s)
  {
    assert ServerAccepted(ServerObject(s)) ==> IsMcpServer(Cue, ServerObject(s));
    DigestFitsIff(s.digest);
  }

  predicate ToolFits(t: Tool) {
    ServerNameText(t.name) && HexSha256(t.schemaDigest) && OptionalTextFits(t.server, 128)
  }

  lemma ToolFitsIff(t: Tool)
    ensures ToolAccepted(ToolObject(t)) <==> ToolFits(t)
  {
    assert ToolAccepted(ToolObject(t)) ==> IsTool(Cue, ToolObject(t));
    DigestFitsIff(t.schemaDigest);
  }
}

/** When the contracts accept what the producers write. */
module ProducedAcceptance {
  import opened Json
  import opened Patterns
  import opened Timestamps
  import opened Schema
  import opened Decimals
  import opened Produced
  import opened Creation
  import opened Capturing
  import opened ProducedShapes
  import opened ProducedTexts

  /** A process id of 64 bits, a real time, and a digest function that prints digests. */
  ghost predicate HostFits(host: Host, now: Moment) {
    host.pid < TWO_64 && now.Exists() && forall s :: HexSha256(host.sha256(s))
  }

  predicate CreatedCoreFits(result: GitResult, o: CreateOptions, host: Host) {
    && RepoFits(result, o)
    && OptionalTextFits(o.agentName, 128) && OptionalTextFits(o.agentVersion, 128)
    && TimeOf(o, host).year < 10000
  }

  /** The options only version 1 uses; harness-native capture is not for the command line. */
  predicate CreatedHarnessFits(o: CreateOptions) {
    && FirstNonEmpty(o.captureMethod, "wrapper") in CAPTURE_METHODS - {"harness-native"}
    && OptionalTextFits(o.captureHarness, 128) && AgentConfigFits(o)
  }

  predicate CreatedFits(v: Version, result: GitResult, o: CreateOptions, host: Host) {
    && CreatedCoreFits(result, o, host)
    && (v.V1? ==> CreatedHarnessFits(o) && ModelFits(o))
  }

  lemma DefaultsFit(name: string, v: Version)
    ensures TextFits(FirstNonEmpty(name, "agentattest-cli"), 128) <==> OptionalTextFits(name, 128)
    ensures TextFits(FirstNonEmpty(name, DefaultAgentVersion(v)), 128) <==> OptionalTextFits(name, 128)
  {
  }

  lemma CreatedCoreIff(v: Version, result: GitResult, o: CreateOptions, host: Host)
    requires HostFits(host, TimeOf(o, host))
    ensures Accepts(Core, v, CreatedParts(v, result, o, host)) <==> CreatedCoreFits(result, o, host)
  {
    hide RepoAccepted, AgentAccepted, EnvironmentAccepted, TimeAccepted, EvidenceAccepted, VersionAccepted, Accepts;
    var now := TimeOf(o, host);
    var q := CreatedParts(v, result, o, host);
    RepoFitsIff(result, o);
    AgentFitsIff(v, FirstNonEmpty(o.agentName, "agentattest-cli"), FirstNonEmpty(o.agentVersion, DefaultAgentVersion(v)),
                 "local-cli");
    DefaultsFit(o.agentName, v);
    DefaultsFit(o.agentVersion, v);
    EnvironmentFitsIff(v, "local");
    TimeFitsIff(now);
    if now.year < 10000 {
      RunIdFits(now, host.pid);
      SummaryFits(v, q.runId, result.patch.digest, host);
    }
    VersionFits(v);
    CoreAcceptedIff(v, q);
  }

  lemma VersionFits(v: Version)
    ensures VersionAccepted(v, v.Name())
  {
  }

  lemma CreatedOptionsIff(v: Version, result: GitResult, o: CreateOptions, host: Host)
    ensures Accepts(Keys, v, CreatedParts(v, result, o, host))
    ensures Accepts(Extras, v, CreatedParts(v, result, o, host)) <==> (v.V1? ==> ModelFits(o))
    ensures Accepts(Harness, v, CreatedParts(v, result, o, host)) <==> (v.V1? ==> CreatedHarnessFits(o))
  {
    ModelFitsIff(o);
    CaptureFitsIff(o);
    AgentConfigFitsIff(o);
    ExtrasAcceptedIff(v, CreatedParts(v, result, o, host));
    if v.V1? {
      HarnessAcceptedIff(CreatedParts(v, result, o, host));
    }
  }

  /** Both contracts accept a created predicate exactly when its texts fit. */
  lemma CreatedIsAcceptedIff(v: Version, result: GitResult, o: CreateOptions, host: Host)
    requires HostFits(host, TimeOf(o, host))
    ensures var p := Obj(Fields(CreatedParts(v, result, o, host)));
            PredicateShape(JsonSchema, v, p) && PredicateShape(Cue, v, p) <==> CreatedFits(v, result, o, host)
  {
    var q := CreatedParts(v, result, o, host);
    FieldsAreAssembled(q);
    AcceptedIffParts(v, Obj(Fields(q)), q);
    CreatedCoreIff(v, result, o, host);
    CreatedOptionsIff(v, result, o, host);
  }

  predicate CapturedCoreFits(result: GitResult, meta: RunMetadata, o: CreateOptions, host: Host) {
    && RepoFits(result, o)
    && OptionalTextFits(meta.agentName, 128) && OptionalTextFits(meta.agentVersion, 128)
    && FirstNonEmpty(meta.invocationKind, "local-cli") in InvocationKinds(V1)
    && FirstNonEmpty(meta.executionType, "local") in ExecutionTypes(V1) && meta.executionType != "github-actions"
    && TimeOf(o, host).year < 10000
    && SafeUriFits(meta.traceUri) && HexSha256(meta.traceDigest)
  }

  predicate CapturedHarnessFits(meta: RunMetadata, o: CreateOptions) {
    && meta.agentName != "" && OptionalTextFits(meta.agentName, 128) && AgentConfigFits(o)
    && (forall s | s in meta.mcpServers :: ServerFits(s))
    && (forall t | t in meta.tools :: ToolFits(t))
  }

  /** A capture must name its agent and must not claim to have run in GitHub Actions, besides well-formed texts. */
  predicate CapturedFits(result: GitResult, meta: RunMetadata, o: CreateOptions, host: Host) {
    && CapturedCoreFits(result, meta, o, host)
    && RuntimeFits(meta) && ModelFits(o)
    && CapturedHarnessFits(meta, o)
  }

  predicate OptionsOf(meta: RunMetadata, o: CreateOptions) {
    o == OptionsFor(meta, o.agentConfigPath, o.agentConfigSha256)
  }

  lemma CapturedCoreIff(result: GitResult, meta: RunMetadata, o: CreateOptions, host: Host)
    requires HostFits(host, TimeOf(o, host)) && OptionsOf(meta, o)
    ensures Accepts(Core, V1, CapturedParts(result, meta, o, host)) <==> CapturedCoreFits(result, meta, o, host)
  {
    hide RepoAccepted, AgentAccepted, EnvironmentAccepted, TimeAccepted, EvidenceAccepted, VersionAccepted, Accepts;
    var now := TimeOf(o, host);
    RepoFitsIff(result, o);
    AgentFitsIff(V1, FirstNonEmpty(o.agentName, "agentattest-cli"), FirstNonEmpty(o.agentVersion, "v1-alpha"),
                 FirstNonEmpty(meta.invocationKind, "local-cli"));
    DefaultsFit(o.agentName, V1);
    DefaultsFit(o.agentVersion, V1);
    EnvironmentFitsIff(V1, FirstNonEmpty(meta.executionType, "local"));
    TimeFitsIff(now);
    if now.year < 10000 {
      RunIdFits(now, host.pid);
    }
    TraceFitsIff(V1, meta);
    VersionFits(V1);
    CoreAcceptedIff(V1, CapturedParts(result, meta, o, host));
  }

  lemma CapturedExtrasIff(result: GitResult, meta: RunMetadata, o: CreateOptions, host: Host)
    requires OptionsOf(meta, o)
    ensures Accepts(Keys, V1, CapturedParts(result, meta, o, host))
    ensures Accepts(Extras, V1, CapturedParts(result, meta, o, host)) <==> RuntimeFits(meta) && ModelFits(o)
  {
    ModelFitsIff(o);
    RuntimeFitsIff(meta);
    ExtrasAcceptedIff(V1, CapturedParts(result, meta, o, host));
  }

  /** All elements of a list are accepted exactly when what they are made of fits. */
  lemma ListFitsIff<T>(f: T -> Value, xs: seq<T>, accepts: Value -> bool, fits: T -> bool)
    requires forall x :: accepts(f(x)) <==> fits(x)
    ensures (forall y | y in Each(f, xs) :: accepts(y)) <==> forall x | x in xs :: fits(x)
  {
    EachMember(f, xs);
    if forall y | y in Each(f, xs) :: accepts(y) {
      forall x | x in xs
        ensures fits(x)
      {
        assert f(x) in Each(f, xs);
      }
    }
  }

  lemma ServersFitIff(meta: RunMetadata)
    ensures (forall s | s in Each(ServerObject, meta.mcpServers) :: ServerAccepted(s)) <==>
            forall s | s in meta.mcpServers :: ServerFits(s)
  {
    forall s
      ensures ServerAccepted(ServerObject(s)) <==> ServerFits(s)
    {
      ServerFitsIff(s);
    }
    ListFitsIff(ServerObject, meta.mcpServers, j => ServerAccepted(j), ServerFits);
  }

  lemma ToolsFitIff(meta: RunMetadata)
    ensures (forall t | t in Each(ToolObject, meta.tools) :: ToolAccepted(t)) <==>
            forall t | t in meta.tools :: ToolFits(t)
  {
    forall t
      ensures ToolAccepted(ToolObject(t)) <==> ToolFits(t)
    {
      ToolFitsIff(t);
    }
    ListFitsIff(ToolObject, meta.tools, j => ToolAccepted(j), ToolFits);
  }

  lemma CapturedHarnessIff(result: GitResult, meta: RunMetadata, o: CreateOptions, host: Host)
    requires OptionsOf(meta, o)
    ensures Accepts(Harness, V1, CapturedParts(result, meta, o, host)) <==> CapturedHarnessFits(meta, o)
  {
    hide CaptureAccepted, ServerAccepted, ToolAccepted, IsAgentConfig, AgentConfigFits, ServerFits, ToolFits, Accepts;
    CaptureFitsIff(o);
    AgentConfigFitsIff(o);
    ServersFitIff(meta);
    ToolsFitIff(meta);
    HarnessAcceptedIff(CapturedParts(result, meta, o, host));
  }

  /** Both contracts accept a captured predicate exactly when its texts fit. */
  lemma CapturedIsAcceptedIff(result: GitResult, meta: RunMetadata, o: CreateOptions, host: Host)
    requires HostFits(host, TimeOf(o, host)) && OptionsOf(meta, o)
    ensures var p := Obj(Fields(CapturedParts(result, meta, o, host)));
            PredicateShape(JsonSchema, V1, p) && PredicateShape(Cue, V1, p) <==> CapturedFits(result, meta, o, host)
  {
    var q := CapturedParts(result, meta, o, host);
    FieldsAreAssembled(q);
    AcceptedIffParts(V1, Obj(Fields(q)), q);
    CapturedCoreIff(result, meta, o, host);
    CapturedExtrasIff(result, meta, o, host);
    CapturedHarnessIff(result, meta, o, host);
  }
}
