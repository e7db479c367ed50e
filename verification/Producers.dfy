/** How the producers print times and numbers. */
module Formats {
  import opened Text
  import opened Decimals
  import opened Timestamps

  function DigitChar(d: nat): (c: char)
    requires d < 10
    ensures IsDigit(c) && DigitValue(c) == d
  {
    ('0' as int + d) as char
  }

  /** The last `w` decimal digits of `n`. */
  function Padded(n: nat, w: nat): (s: string)
    ensures |s| == w && AllDigits(s)
  {
    if w == 0 then "" else Padded(n / 10, w - 1) + [DigitChar(n % 10)]
  }

  lemma {:induction false} PaddedValue(n: nat, w: nat)
    requires n < Pow10(w)
    ensures Decimal(Padded(n, w)) == n
  {
    if w > 0 {
      PaddedValue(n / 10, w - 1);
      assert Padded(n, w)[..w - 1] == Padded(n / 10, w - 1);
    }
  }

  /** A year in four digits, or in as many as it takes. */
  function YearText(year: nat): (s: string)
    ensures AllDigits(s)
  {
    if year < 10000 then Padded(year, 4) else Print(year)
  }

  /** A UTC time to the second, as `time.RFC3339` prints it. */
  function FormatTime(m: Moment): string {
    YearText(m.year) + "-" + Padded(m.month, 2) + "-" + Padded(m.day, 2)
    + "T" + Padded(m.hour, 2) + ":" + Padded(m.minute, 2) + ":" + Padded(m.second, 2) + "Z"
  }

  predicate Printable(m: Moment) {
    m.Exists() && m.year < 10000
  }

  /** Fields that fit their places; they need not name an instant. */
  predicate FieldsFit(m: Moment) {
    m.year < 10000 && m.month < 100 && m.day < 100 && m.hour < 100 && m.minute < 100 && m.second < 100
  }

  lemma FormattedFields(m: Moment)
    requires m.year < 10000
    ensures var s := FormatTime(m);
            && |s| == 20 && s[4] == '-' && s[7] == '-' && s[10] == 'T' && s[13] == ':' && s[16] == ':' && s[19] == 'Z'
            && s[0..4] == Padded(m.year, 4) && s[5..7] == Padded(m.month, 2) && s[8..10] == Padded(m.day, 2)
            && s[11..13] == Padded(m.hour, 2) && s[14..16] == Padded(m.minute, 2) && s[17..19] == Padded(m.second, 2)
  {
  }

  /** What is printed is a timestamp of the contracts, and reads back as the same second. */
  lemma FormatTimeReadsBack(m: Moment)
    requires Printable(m)
    ensures Denotes(FormatTime(m), 0) && DateTimeFormat(FormatTime(m))
    ensures Read(FormatTime(m)) == m.(nanos := 0)
  {
    FormattedFields(m);
    FieldsHaveShape(m, FormatTime(m));
  }

  /** A string with these fields between these separators is a timestamp of the contracts. */
  lemma FieldsHaveShape(m: Moment, s: string)
    requires FieldsFit(m) && |s| == 20
    requires s[4] == '-' && s[7] == '-' && s[10] == 'T' && s[13] == ':' && s[16] == ':' && s[19] == 'Z'
    requires s[0..4] == Padded(m.year, 4) && s[5..7] == Padded(m.month, 2) && s[8..10] == Padded(m.day, 2)
    requires s[11..13] == Padded(m.hour, 2) && s[14..16] == Padded(m.minute, 2) && s[17..19] == Padded(m.second, 2)
    ensures Shape(s) && Fraction(s) == "" && Read(s) == m.(nanos := 0)
  {
    assert Pow10(2) == 100 && Pow10(4) == 10000 by {
      assert Pow10(1) == 10 && Pow10(3) == 1000;
    }
    PaddedValue(m.year, 4);
    PaddedValue(m.month, 2);
    PaddedValue(m.day, 2);
    PaddedValue(m.hour, 2);
    PaddedValue(m.minute, 2);
    PaddedValue(m.second, 2);
  }

  /** A text without the marks between the fields of a time. */
  function WithoutMarks(s: string): string {
    if s == "" then ""
    else (if s[0] in {'-', ':'} then "" else [s[0]]) + WithoutMarks(s[1..])
  }

  lemma {:induction false} MarksBetween(a: string, b: string)
    ensures WithoutMarks(a + b) == WithoutMarks(a) + WithoutMarks(b)
  {
    if a == "" {
      assert a + b == b;
    } else {
      assert (a + b)[1..] == a[1..] + b;
      MarksBetween(a[1..], b);
    }
  }

  lemma {:induction false} DigitsAreNoMarks(s: string)
    requires AllDigits(s)
    ensures WithoutMarks(s) == s
  {
    if s != "" {
      DigitsAreNoMarks(s[1..]);
    }
  }

  /** The compact form of a time in a run id. */
  function CompactTime(m: Moment): string {
    YearText(m.year) + Padded(m.month, 2) + Padded(m.day, 2)
    + "T" + Padded(m.hour, 2) + Padded(m.minute, 2) + Padded(m.second, 2) + "Z"
  }

  lemma MarkedDate(m: Moment)
    ensures WithoutMarks(YearText(m.year) + "-" + Padded(m.month, 2) + "-" + Padded(m.day, 2))
         == YearText(m.year) + Padded(m.month, 2) + Padded(m.day, 2)
  {
    MarksBetween(YearText(m.year) + "-" + Padded(m.month, 2) + "-", Padded(m.day, 2));
    MarksBetween(YearText(m.year) + "-" + Padded(m.month, 2), "-");
    MarksBetween(YearText(m.year) + "-", Padded(m.month, 2));
    MarksBetween(YearText(m.year), "-");
    DigitsAreNoMarks(YearText(m.year));
    DigitsAreNoMarks(Padded(m.month, 2));
    DigitsAreNoMarks(Padded(m.day, 2));
  }

  lemma MarkedTime(m: Moment)
    ensures WithoutMarks("T" + Padded(m.hour, 2) + ":" + Padded(m.minute, 2) + ":" + Padded(m.second, 2) + "Z")
         == "T" + Padded(m.hour, 2) + Padded(m.minute, 2) + Padded(m.second, 2) + "Z"
  {
    MarksBetween("T" + Padded(m.hour, 2) + ":" + Padded(m.minute, 2) + ":" + Padded(m.second, 2), "Z");
    MarksBetween("T" + Padded(m.hour, 2) + ":" + Padded(m.minute, 2) + ":", Padded(m.second, 2));
    MarksBetween("T" + Padded(m.hour, 2) + ":" + Padded(m.minute, 2), ":");
    MarksBetween("T" + Padded(m.hour, 2) + ":", Padded(m.minute, 2));
    MarksBetween("T" + Padded(m.hour, 2), ":");
    MarksBetween("T", Padded(m.hour, 2));
    DigitsAreNoMarks(Padded(m.hour, 2));
    DigitsAreNoMarks(Padded(m.minute, 2));
    DigitsAreNoMarks(Padded(m.second, 2));
  }

  /** The time in a run id is the printed one without its marks, so both read as the same second. */
  lemma CompactIsPrinted(m: Moment)
    ensures CompactTime(m) == WithoutMarks(FormatTime(m))
  {
    hide YearText, Padded, WithoutMarks;
    var date := YearText(m.year) + "-" + Padded(m.month, 2) + "-" + Padded(m.day, 2);
    var time := "T" + Padded(m.hour, 2) + ":" + Padded(m.minute, 2) + ":" + Padded(m.second, 2) + "Z";
    assert FormatTime(m) == date + time;
    MarksBetween(date, time);
    MarkedDate(m);
    MarkedTime(m);
  }

  /** A year of more than four digits makes no timestamp of the contracts. */
  lemma LateYearsHaveNoShape(m: Moment)
    requires m.year >= 10000
    ensures !Shape(FormatTime(m))
  {
    assert Pow10(4) == 10000 by {
      assert Pow10(2) == 100 && Pow10(3) == 1000;
    }
    PrintIsLong(m.year, 4);
    var year := YearText(m.year);
    assert FormatTime(m)[..|year|] == year;
    assert IsDigit(year[4]) && FormatTime(m)[4] == year[4];
  }

  lemma {:induction false} PrintIsLong(n: nat, k: nat)
    requires n >= Pow10(k)
    ensures |Print(n)| > k
  {
    if k > 0 {
      Pow10IsPositive(k - 1);
      PrintIsLong(n / 10, k - 1);
    }
  }

  lemma {:induction false} PrintLength(n: nat, k: nat)
    requires n < Pow10(k) && k >= 1
    ensures |Print(n)| <= k
  {
    assert Pow10(1) == 10;
    if n >= 10 {
      PrintLength(n / 10, k - 1);
    }
  }
}

/** The documents the producers write, in terms of what varies between them. */
module Produced {
  import opened Basics
  import opened Json
  import opened Schema
  import opened Statements

  function PutText(m: map<string, Value>, key: string, s: string): map<string, Value> {
    if s == "" then m else m[key := Str(s)]
  }

  function PutSome(m: map<string, Value>, key: string, v: Option<Value>): map<string, Value> {
    if v.None? then m else m[key := v.value]
  }

  function DigestObject(sha256: string): Value {
    Obj(map["sha256" := Str(sha256)])
  }

  const NOTHING_STORED := Obj(map["stored" := Bool(false), "visibility" := Str("none")])
  const NOTHING_LOGGED := Obj(map["allowed" := Bool(false), "includesRawContent" := Bool(false)])

  const PRIVACY := Obj(map["redactionPolicy" := Str("default-minimal-v0"), "rawPrompt" := NOTHING_STORED,
                           "rawToolOutputs" := NOTHING_STORED, "publicTransparencyLog" := NOTHING_LOGGED])

  datatype Parts = Parts(
    version: Version,
    runId: string,
    time: string,
    repo: Value,
    agent: Value,
    executionType: string,
    evidence: Value,
    capture: Option<Value>,
    agentConfig: Option<Value>,
    model: Option<Value>,
    runtime: Option<Value>,
    mcpServers: Option<Value>,
    tools: Option<Value>
  )

  function EnvironmentObject(executionType: string): Value {
    Obj(map["executionType" := Str(executionType)])
  }

  function TimestampsObject(time: string): Value {
    Obj(map["startedAt" := Str(time), "finishedAt" := Str(time)])
  }

  function BaseFields(q: Parts): map<string, Value> {
    map["runId" := Str(q.runId),
        "verificationLevel" := Str("evidence-grade"),
        "repo" := q.repo,
        "agent" := q.agent,
        "environment" := EnvironmentObject(q.executionType),
        "humanApproval" := Obj(map["state" := Str("none")]),
        "privacy" := PRIVACY,
        "timestamps" := TimestampsObject(q.time),
        "evidence" := Arr([q.evidence])]
  }

  /** `core` with the optional parts that are present. */
  function Extended(core: map<string, Value>, q: Parts): map<string, Value> {
    var described := PutSome(PutSome(PutSome(core, "capture", q.capture), "agentConfig", q.agentConfig), "model", q.model);
    PutSome(PutSome(PutSome(described, "runtime", q.runtime), "mcpServers", q.mcpServers), "tools", q.tools)
  }

  /** The predicate made of these parts. */
  function Fields(q: Parts): map<string, Value> {
    Extended(BaseFields(q)["predicateVersion" := Str(q.version.Name())], q)
  }

  lemma ExtendedKeeps(core: map<string, Value>, q: Parts, key: string)
    requires key in core && key !in PRODUCED_OPTIONAL
    ensures key in Extended(core, q) && Extended(core, q)[key] == core[key]
  {
  }

  const PRODUCED_OPTIONAL := {"capture", "agentConfig", "model", "runtime", "mcpServers", "tools"}

  datatype Patch = Patch(algorithm: string, digest: string)

  datatype GitResult = GitResult(repoUrl: string, branch: string, baseCommit: string, headCommit: string, patch: Patch)

  function PatchSubject(patch: Patch): Value {
    Obj(map["name" := Str("patch.diff"), "digest" := Obj(map[patch.algorithm := Str(patch.digest)])])
  }

  function TypeOf(v: Version): string {
    if v.V0? then PREDICATE_TYPE_V0 else PREDICATE_TYPE_V1
  }

  /** `statement.New` and `statement.NewV1` over the patch subject. */
  function StatementFor(v: Version, result: GitResult, predicateFields: map<string, Value>): Value {
    Obj(map["_type" := Str(TYPE_V1), "subject" := Arr([PatchSubject(result.patch)]),
            "predicateType" := Str(TypeOf(v)), "predicate" := Obj(predicateFields)])
  }

  /** An in-toto statement of this version about the patch. */
  predicate StatementReads(s: Value, v: Version, result: GitResult) {
    && TextOf(s, "_type") == "https://in-toto.io/Statement/v1"
    && TextOf(s, "predicateType") == (if v.V0? then "https://agentattest.dev/predicate/v0"
                                      else "https://agentattest.dev/predicate/v1")
    && |ItemsMember(s, "subject")| == 1
    && var subject := ItemsMember(s, "subject")[0];
       && TextOf(subject, "name") == "patch.diff"
       && TextOf(Member(subject, "digest"), result.patch.algorithm) == result.patch.digest
  }

  lemma StatementIsRead(v: Version, result: GitResult, predicateFields: map<string, Value>)
    ensures StatementReads(StatementFor(v, result, predicateFields), v, result)
    ensures Member(StatementFor(v, result, predicateFields), "predicate") == Obj(predicateFields)
  {
    var s := StatementFor(v, result, predicateFields);
    assert ItemsMember(s, "subject") == [PatchSubject(result.patch)];
    assert Member(PatchSubject(result.patch), "digest") == Obj(map[result.patch.algorithm := Str(result.patch.digest)]);
  }

  /** `buildVerifierContext`. */
  function ContextFor(result: GitResult, requiredLevel: string): Value {
    Obj(map["repoUrl" := Str(result.repoUrl), "baseCommit" := Str(result.baseCommit),
            "requiredLevel" := Str(if requiredLevel == "" then "evidence-grade" else requiredLevel),
            "subjects" := Arr([Obj(map["name" := Str("patch.diff"), "algorithm" := Str(result.patch.algorithm),
                                       "digest" := Str(result.patch.digest)])])])
  }
}

/** internal/predicate/create.go */
module Creation {
  import opened Basics
  import opened Json
  import opened Schema
  import opened Timestamps
  import opened Decimals
  import opened Formats
  import opened Produced
  import opened ProducedShapes

  /** What a producer takes from the machine it runs on. */
  datatype Host = Host(clock: Moment, pid: nat, sha256: string -> string, readFile: string -> Option<string>)

  datatype CreateOptions = CreateOptions(
    agentName: string,
    agentVersion: string,
    repoUrl: string,
    baseCommit: string,
    now: Moment,
    captureMethod: string,
    captureHarness: string,
    agentConfigPath: string,
    agentConfigSha256: string,
    modelProvider: string,
    modelId: string
  )

  const ZERO_TIME := Moment(1, 1, 1, 0, 0, 0, 0)

  function FirstNonEmpty(a: string, b: string): string {
    if a != "" then a else b
  }

  function DefaultAgentVersion(v: Version): string {
    if v.V0? then "v0-alpha" else "v1-alpha"
  }

  function TimeOf(o: CreateOptions, host: Host): Moment {
    if o.now == ZERO_TIME then host.clock else o.now
  }

  function RunId(now: Moment, pid: nat): string {
    "run_" + CompactTime(now) + "_" + Print(pid)
  }

  function RepoObject(result: GitResult, o: CreateOptions): Value {
    var named := map["url" := Str(FirstNonEmpty(o.repoUrl, result.repoUrl)),
                     "baseCommit" := Str(FirstNonEmpty(o.baseCommit, result.baseCommit))];
    Obj(PutText(PutText(named, "headCommit", result.headCommit), "branch", result.branch))
  }

  function AgentObject(name: string, version: string, invocationKind: string): Value {
    Obj(map["name" := Str(name), "version" := Str(version), "invocationKind" := Str(invocationKind)])
  }

  function SummaryPath(runId: string): string {
    "agentattest/evidence/" + runId + ".summary.json"
  }

  function SummaryEvidence(runId: string, patchDigest: string, host: Host): Value {
    Obj(map["type" := Str("tool-summary"),
            "uri" := Str("artifact://" + SummaryPath(runId)),
            "digest" := DigestObject(host.sha256(runId + "\n" + patchDigest + "\n")),
            "mediaType" := Str("application/json"),
            "storage" := Str("local-only"),
            "visibility" := Str("team")])
  }

  function CaptureFields(o: CreateOptions): map<string, Value> {
    PutText(map["method" := Str(FirstNonEmpty(o.captureMethod, "wrapper"))], "harness", o.captureHarness)
  }

  function AgentConfigObject(o: CreateOptions): Option<Value> {
    if o.agentConfigSha256 == "" then None
    else Some(Obj(map["primaryFile" := Str(FirstNonEmpty(o.agentConfigPath, "AGENTS.md")),
                      "primaryDigest" := DigestObject(o.agentConfigSha256)]))
  }

  function ModelObject(o: CreateOptions): Option<Value> {
    if o.modelProvider == "" || o.modelId == "" then None
    else Some(Obj(map["provider" := Str(o.modelProvider), "modelId" := Str(o.modelId)]))
  }

  /** What `Create` and `CreateV1` put in a predicate. */
  function CreatedParts(v: Version, result: GitResult, o: CreateOptions, host: Host): Parts {
    var now := TimeOf(o, host);
    var runId := RunId(now, host.pid);
    Parts(
      v, runId, FormatTime(now),
      RepoObject(result, o),
      AgentObject(FirstNonEmpty(o.agentName, "agentattest-cli"), FirstNonEmpty(o.agentVersion, DefaultAgentVersion(v)),
                  "local-cli"),
      "local",
      SummaryEvidence(runId, result.patch.digest, host),
      if v.V1? then Some(Obj(CaptureFields(o))) else None,
      if v.V1? then AgentConfigObject(o) else None,
      if v.V1? then ModelObject(o) else None,
      None, None, None)
  }

  /** The time given, or that of the clock when it is the zero time; run id, times and evidence all carry it. */
  predicate StampedRun(p: Value, now: Moment, clock: Moment, pid: nat) {
    var m := if now == Moment(1, 1, 1, 0, 0, 0, 0) then clock else now;
    && TextMember(p, "runId") == Some("run_" + CompactTime(m) + "_" + Print(pid))
    && TextMember(Member(p, "timestamps"), "startedAt") == Some(FormatTime(m))
    && TextMember(Member(p, "timestamps"), "finishedAt") == Some(FormatTime(m))
  }

  /** Both times read back as the time given or the clock's, to the second, and the run id carries the same time. */
  lemma StampReadsBack(p: Value, now: Moment, clock: Moment, pid: nat)
    requires StampedRun(p, now, clock, pid)
    requires Printable(if now == Moment(1, 1, 1, 0, 0, 0, 0) then clock else now)
    ensures var started, finished := TextOf(Member(p, "timestamps"), "startedAt"), TextOf(Member(p, "timestamps"), "finishedAt");
            var m := if now == Moment(1, 1, 1, 0, 0, 0, 0) then clock else now;
            && Shape(started) && Shape(finished) && Read(started) == Read(finished) == m.(nanos := 0)
            && TextOf(p, "runId") == "run_" + WithoutMarks(started) + "_" + Print(pid)
  {
    hide FormatTime, Shape, Read, CompactTime, WithoutMarks, Print;
    var m := if now == Moment(1, 1, 1, 0, 0, 0, 0) then clock else now;
    FormatTimeReadsBack(m);
    CompactIsPrinted(m);
  }

  /** The text given, or else this one. */
  predicate IsGivenOr(v: Option<string>, given: string, otherwise: string) {
    v == Some(if given == "" then otherwise else given)
  }

  /** Repository and agent as given, and otherwise as git and the tool have them. */
  predicate OriginReads(p: Value, result: GitResult, o: CreateOptions, version: string) {
    var repo, agent := Member(p, "repo"), Member(p, "agent");
    && IsGivenOr(TextMember(repo, "url"), o.repoUrl, result.repoUrl)
    && IsGivenOr(TextMember(repo, "baseCommit"), o.baseCommit, result.baseCommit)
    && TextOf(repo, "headCommit") == result.headCommit && (Has(repo, "headCommit") <==> result.headCommit != "")
    && TextOf(repo, "branch") == result.branch && (Has(repo, "branch") <==> result.branch != "")
    && IsGivenOr(TextMember(agent, "name"), o.agentName, "agentattest-cli")
    && IsGivenOr(TextMember(agent, "version"), o.agentVersion, version)
  }

  /** The level is the lowest, nothing is approved, nothing raw is stored and nothing is logged. */
  predicate ModestReads(p: Value) {
    var privacy := Member(p, "privacy");
    && TextOf(p, "verificationLevel") == "evidence-grade" && TextOf(Member(p, "humanApproval"), "state") == "none"
    && TextOf(privacy, "redactionPolicy") == "default-minimal-v0"
    && Member(Member(privacy, "rawPrompt"), "stored") == Bool(false)
    && Member(Member(privacy, "rawToolOutputs"), "stored") == Bool(false)
    && TextOf(Member(privacy, "rawPrompt"), "visibility") == "none"
    && TextOf(Member(privacy, "rawToolOutputs"), "visibility") == "none"
    && Member(Member(privacy, "publicTransparencyLog"), "allowed") == Bool(false)
    && Member(Member(privacy, "publicTransparencyLog"), "includesRawContent") == Bool(false)
  }

  /** One piece of evidence: a summary named after the run, by the digest of run id and patch digest. */
  predicate SummaryReads(p: Value, result: GitResult, host: Host) {
    var runId := TextOf(p, "runId");
    && TextOf(Member(p, "environment"), "executionType") == "local"
    && TextOf(Member(p, "agent"), "invocationKind") == "local-cli"
    && |ItemsMember(p, "evidence")| == 1
    && var e := ItemsMember(p, "evidence")[0];
       && TextOf(e, "type") == "tool-summary" && TextOf(e, "storage") == "local-only" && TextOf(e, "visibility") == "team"
       && TextOf(e, "uri") == "artifact://agentattest/evidence/" + runId + ".summary.json"
       && TextOf(Member(e, "digest"), "sha256") == host.sha256(runId + "\n" + result.patch.digest + "\n")
  }

  /** How the run was captured, its operating contract and its model, each as far as it was given. */
  predicate HarnessReads(p: Value, o: CreateOptions) {
    var capture, config, model := Member(p, "capture"), Member(p, "agentConfig"), Member(p, "model");
    && IsGivenOr(TextMember(capture, "method"), o.captureMethod, "wrapper")
    && TextOf(capture, "harness") == o.captureHarness && (Has(capture, "harness") <==> o.captureHarness != "")
    && (Has(p, "agentConfig") <==> o.agentConfigSha256 != "")
    && (Has(p, "agentConfig") ==>
          && IsGivenOr(TextMember(config, "primaryFile"), o.agentConfigPath, "AGENTS.md")
          && TextOf(Member(config, "primaryDigest"), "sha256") == o.agentConfigSha256)
    && (Has(p, "model") <==> o.modelProvider != "" && o.modelId != "")
    && (Has(p, "model") ==> TextOf(model, "provider") == o.modelProvider && TextOf(model, "modelId") == o.modelId)
  }

  predicate PlainReads(p: Value) {
    !Has(p, "capture") && !Has(p, "agentConfig") && !Has(p, "model")
  }

  lemma AssembledCore(q: Parts)
    ensures CoreAssembled(Obj(Fields(q)), q)
  {
    hide Fields, CoreAssembled;
    FieldsAreAssembled(q);
    assert AssembledPart(Core, Obj(Fields(q)), q);
  }

  lemma AssembledOption(q: Parts, key: string)
    requires key !in REQUIRED
    ensures OptionalMember(Obj(Fields(q)), key) == PartOf(q, key)
  {
    hide Fields, PartOf;
    FieldsAreAssembled(q);
    OptionReads(Obj(Fields(q)), q, key);
  }

  lemma RunReads(p: Value, q: Parts, o: CreateOptions, host: Host)
    requires CoreAssembled(p, q) && q.runId == RunId(TimeOf(o, host), host.pid) && q.time == FormatTime(TimeOf(o, host))
    ensures StampedRun(p, o.now, host.clock, host.pid)
  {
    hide FormatTime, CompactTime, Print, PRIVACY, EnvironmentObject;
    assert Member(p, "timestamps") == TimestampsObject(q.time);
  }

  lemma ModestyReads(p: Value, q: Parts)
    requires CoreAssembled(p, q)
    ensures ModestReads(p)
  {
    assert Member(p, "privacy") == PRIVACY;
  }

  lemma OriginIsRead(p: Value, result: GitResult, o: CreateOptions, version: string, invocationKind: string)
    requires Member(p, "repo") == RepoObject(result, o)
    requires Member(p, "agent") == AgentObject(FirstNonEmpty(o.agentName, "agentattest-cli"),
                                               FirstNonEmpty(o.agentVersion, version), invocationKind)
    ensures OriginReads(p, result, o, version)
  {
  }

  lemma SummaryMembers(runId: string, patchDigest: string, host: Host)
    ensures var e := SummaryEvidence(runId, patchDigest, host);
            && TextOf(e, "type") == "tool-summary" && TextOf(e, "storage") == "local-only"
            && TextOf(e, "visibility") == "team"
            && TextOf(e, "uri") == "artifact://" + SummaryPath(runId)
            && Member(e, "digest") == DigestObject(host.sha256(runId + "\n" + patchDigest + "\n"))
  {
    hide SummaryPath, DigestObject;
  }

  lemma SummaryUri(runId: string)
    ensures "artifact://" + SummaryPath(runId) == "artifact://agentattest/evidence/" + runId + ".summary.json"
  {
  }

  lemma SummaryTexts(runId: string, patchDigest: string, host: Host)
    ensures var e := SummaryEvidence(runId, patchDigest, host);
            && TextOf(e, "type") == "tool-summary" && TextOf(e, "storage") == "local-only"
            && TextOf(e, "visibility") == "team"
            && TextOf(e, "uri") == "artifact://agentattest/evidence/" + runId + ".summary.json"
            && TextOf(Member(e, "digest"), "sha256") == host.sha256(runId + "\n" + patchDigest + "\n")
  {
    hide SummaryEvidence, SummaryPath;
    SummaryMembers(runId, patchDigest, host);
    SummaryUri(runId);
  }

  lemma SummaryIsRead(p: Value, result: GitResult, host: Host, runId: string)
    requires Member(p, "runId") == Str(runId) && Member(p, "environment") == EnvironmentObject("local")
    requires TextOf(Member(p, "agent"), "invocationKind") == "local-cli"
    requires Member(p, "evidence") == Arr([SummaryEvidence(runId, result.patch.digest, host)])
    ensures SummaryReads(p, result, host)
  {
    hide SummaryEvidence;
    SummaryTexts(runId, result.patch.digest, host);
    assert ItemsMember(p, "evidence") == [SummaryEvidence(runId, result.patch.digest, host)];
  }

  lemma CoreReads(v: Version, result: GitResult, o: CreateOptions, host: Host)
    ensures var p := Obj(Fields(CreatedParts(v, result, o, host)));
            && StampedRun(p, o.now, host.clock, host.pid) && ModestReads(p)
            && OriginReads(p, result, o, DefaultAgentVersion(v)) && SummaryReads(p, result, host)
  {
    hide Fields, RepoObject, SummaryEvidence, StampedRun, ModestReads;
    hide OriginReads, SummaryReads, FormatTime, RunId, PRIVACY;
    var q := CreatedParts(v, result, o, host);
    var p := Obj(Fields(q));
    AssembledCore(q);
    RunReads(p, q, o, host);
    ModestyReads(p, q);
    OriginIsRead(p, result, o, DefaultAgentVersion(v), "local-cli");
    SummaryIsRead(p, result, host, q.runId);
  }

  lemma HarnessIsRead(p: Value, o: CreateOptions)
    requires OptionalMember(p, "capture") == Some(Obj(CaptureFields(o)))
    requires OptionalMember(p, "agentConfig") == AgentConfigObject(o) && OptionalMember(p, "model") == ModelObject(o)
    ensures HarnessReads(p, o)
  {
    assert Member(p, "capture") == Obj(CaptureFields(o));
  }

  lemma OptionsRead(v: Version, result: GitResult, o: CreateOptions, host: Host)
    ensures var p := Obj(Fields(CreatedParts(v, result, o, host)));
            if v.V0? then PlainReads(p) else HarnessReads(p, o)
  {
    hide Fields, RepoObject, SummaryEvidence, FormatTime, RunId;
    hide PRIVACY, HarnessReads, CaptureFields, AgentConfigObject, ModelObject;
    var q := CreatedParts(v, result, o, host);
    AssembledOption(q, "capture");
    AssembledOption(q, "agentConfig");
    AssembledOption(q, "model");
    if v.V1? {
      HarnessIsRead(Obj(Fields(q)), o);
    }
  }

  method BasePredicate(v: Version, result: GitResult, o: CreateOptions, defaultAgentVersion: string, host: Host)
    returns (p: map<string, Value>)
    requires defaultAgentVersion == DefaultAgentVersion(v)
    ensures p == BaseFields(CreatedParts(v, result, o, host))
  {
    var now := o.now;
    if now == ZERO_TIME {
      now := host.clock;
    }
    var repoUrl := FirstNonEmpty(o.repoUrl, result.repoUrl);
    var baseCommit := FirstNonEmpty(o.baseCommit, result.baseCommit);
    var runId := RunId(now, host.pid);
    var agentName := FirstNonEmpty(o.agentName, "agentattest-cli");
    var agentVersion := FirstNonEmpty(o.agentVersion, defaultAgentVersion);
    var repo := map["url" := Str(repoUrl), "baseCommit" := Str(baseCommit)];
    if result.headCommit != "" {
      repo := repo["headCommit" := Str(result.headCommit)];
    }
    if result.branch != "" {
      repo := repo["branch" := Str(result.branch)];
    }
    assert Obj(repo) == RepoObject(result, o);
    p := map["runId" := Str(runId),
             "verificationLevel" := Str("evidence-grade"),
             "repo" := Obj(repo),
             "agent" := AgentObject(agentName, agentVersion, "local-cli"),
             "environment" := EnvironmentObject("local"),
             "humanApproval" := Obj(map["state" := Str("none")]),
             "privacy" := PRIVACY,
             "timestamps" := TimestampsObject(FormatTime(now)),
             "evidence" := Arr([SummaryEvidence(runId, result.patch.digest, host)])];
  }

  method CaptureObject(o: CreateOptions) returns (capture: map<string, Value>)
    ensures capture == CaptureFields(o)
  {
    var how := o.captureMethod;
    if how == "" {
      how := "wrapper";
    }
    capture := map["method" := Str(how)];
    if o.captureHarness != "" {
      capture := capture["harness" := Str(o.captureHarness)];
    }
  }

  method Create(result: GitResult, o: CreateOptions, host: Host) returns (p: map<string, Value>)
    ensures p == Fields(CreatedParts(V0, result, o, host))
    ensures StampedRun(Obj(p), o.now, host.clock, host.pid)
    ensures OriginReads(Obj(p), result, o, "v0-alpha") && ModestReads(Obj(p)) && SummaryReads(Obj(p), result, host)
    ensures PlainReads(Obj(p))
  {
    hide StampedRun, OriginReads, ModestReads, SummaryReads, PlainReads;
    CoreReads(V0, result, o, host);
    OptionsRead(V0, result, o, host);
    p := BasePredicate(V0, result, o, "v0-alpha", host);
    p := p["predicateVersion" := Str("v0")];
  }

  method CreateV1(result: GitResult, o: CreateOptions, host: Host) returns (p: map<string, Value>)
    ensures p == Fields(CreatedParts(V1, result, o, host))
    ensures StampedRun(Obj(p), o.now, host.clock, host.pid)
    ensures OriginReads(Obj(p), result, o, "v1-alpha") && ModestReads(Obj(p)) && SummaryReads(Obj(p), result, host)
    ensures HarnessReads(Obj(p), o)
  {
    hide StampedRun, OriginReads, ModestReads, SummaryReads, HarnessReads;
    CoreReads(V1, result, o, host);
    OptionsRead(V1, result, o, host);
    p := BasePredicate(V1, result, o, "v1-alpha", host);
    p := p["predicateVersion" := Str("v1")];
    var capture := CaptureObject(o);
    p := p["capture" := Obj(capture)];
    var cfg := AgentConfigObject(o);
    if cfg.Some? {
      p := p["agentConfig" := cfg.value];
    }
    var m := ModelObject(o);
    if m.Some? {
      p := p["model" := m.value];
    }
  }
}

/** internal/capture/capture.go */
module Capturing {
  import opened Basics
  import opened Json
  import opened Schema
  import opened Patterns
  import opened Timestamps
  import opened Formats
  import opened Produced
  import opened ProducedShapes
  import opened Creation

  datatype McpServer = McpServer(name: string, version: string, transport: string, serverIdentity: string, digest: string)

  datatype Tool = Tool(name: string, server: string, schemaDigest: string)

  datatype RunMetadata = RunMetadata(
    agentName: string,
    agentVersion: string,
    invocationKind: string,
    executionType: string,
    modelProvider: string,
    modelId: string,
    agentConfigPath: string,
    traceFormat: string,
    traceIds: seq<string>,
    rootSpanId: string,
    traceUri: string,
    traceDigest: string,
    mcpServers: seq<McpServer>,
    tools: seq<Tool>,
    now: Moment
  )

  datatype CaptureError = NoBoundTrace | MalformedTraceDigest | UnreadableContract

  function TrimSlashes(path: string): string {
    if path != "" && path[|path| - 1] == '/' then TrimSlashes(path[..|path| - 1]) else path
  }

  function AfterSlash(path: string): string {
    if path == "" || path[|path| - 1] == '/' then "" else AfterSlash(path[..|path| - 1]) + [path[|path| - 1]]
  }

  /** `filepath.Base` */
  function BaseName(path: string): string {
    if path == "" then "."
    else if TrimSlashes(path) == "" then "/"
    else AfterSlash(TrimSlashes(path))
  }

  lemma {:induction false} NameAfterSlash(dir: string, base: string)
    requires dir == "" || dir[|dir| - 1] == '/'
    requires '/' !in base
    ensures AfterSlash(dir + base) == base
  {
    if base == "" {
      assert dir + base == dir;
    } else {
      assert (dir + base)[..|dir + base| - 1] == dir + base[..|base| - 1];
      NameAfterSlash(dir, base[..|base| - 1]);
    }
  }

  lemma {:induction false} SlashesTrimmed(path: string, slashes: string)
    requires (forall c | c in slashes :: c == '/') && path != "" && path[|path| - 1] != '/'
    ensures TrimSlashes(path + slashes) == path
  {
    if slashes == "" {
      assert path + slashes == path;
    } else {
      var fewer := slashes[..|slashes| - 1];
      assert slashes[|slashes| - 1] in slashes && forall c | c in fewer :: c in slashes;
      assert (path + slashes)[..|path + slashes| - 1] == path + fewer;
      SlashesTrimmed(path, slashes[..|slashes| - 1]);
    }
  }

  /** The base name of a path is what follows its last slash, not counting slashes at its end. */
  lemma BaseNameIs(dir: string, base: string, slashes: string)
    requires dir == "" || dir[|dir| - 1] == '/'
    requires base != "" && '/' !in base && forall c | c in slashes :: c == '/'
    ensures BaseName(dir + base + slashes) == base
  {
    SlashesTrimmed(dir + base, slashes);
    NameAfterSlash(dir, base);
  }

  function ServerObject(s: McpServer): Value {
    var named := map["name" := Str(s.name), "transport" := Str(s.transport), "digest" := DigestObject(s.digest)];
    Obj(PutText(PutText(named, "version", s.version), "serverIdentity", s.serverIdentity))
  }

  function ToolObject(t: Tool): Value {
    Obj(PutText(map["name" := Str(t.name), "schemaDigest" := DigestObject(t.schemaDigest)], "server", t.server))
  }

  function Each<T>(f: T -> Value, xs: seq<T>): (items: seq<Value>)
    ensures |items| == |xs|
  {
    seq(|xs|, i requires 0 <= i < |xs| => f(xs[i]))
  }

  /** An array member for a list that is present only when it is not empty. */
  function ListOf<T>(f: T -> Value, xs: seq<T>): Option<Value> {
    if xs == [] then None else Some(Arr(Each(f, xs)))
  }

  function TraceMediaType(format: string): string {
    if format == "otlp-protobuf" then "application/x-protobuf" else "application/json"
  }

  function TraceFormatOf(meta: RunMetadata): string {
    FirstNonEmpty(meta.traceFormat, "otlp-json")
  }

  function RuntimeObject(meta: RunMetadata): Value {
    Obj(PutText(map["traceFormat" := Str(TraceFormatOf(meta)), "traceIds" := Arr(Each(id => Str(id), meta.traceIds))],
                "rootSpanId", meta.rootSpanId))
  }

  function TraceEvidence(meta: RunMetadata): Value {
    Obj(map["type" := Str("trace"),
            "uri" := Str(meta.traceUri),
            "digest" := DigestObject(meta.traceDigest),
            "mediaType" := Str(TraceMediaType(TraceFormatOf(meta))),
            "storage" := Str("artifact-store"),
            "visibility" := Str("team")])
  }

  function OptionsFor(meta: RunMetadata, configPath: string, configSha256: string): CreateOptions {
    CreateOptions(meta.agentName, meta.agentVersion, "", "", meta.now, "harness-native", meta.agentName,
                  configPath, configSha256, meta.modelProvider, meta.modelId)
  }

  /** The options a capture creates its predicate with; None when the operating contract cannot be read. */
  function CaptureOptions(meta: RunMetadata, host: Host): Option<CreateOptions> {
    if meta.agentConfigPath == "" then Some(OptionsFor(meta, "", ""))
    else
      match host.readFile(meta.agentConfigPath)
      case None => None
      case Some(data) => Some(OptionsFor(meta, BaseName(meta.agentConfigPath), host.sha256(data)))
  }

  function CapturedParts(result: GitResult, meta: RunMetadata, o: CreateOptions, host: Host): Parts {
    CreatedParts(V1, result, o, host).(
      agent := AgentObject(FirstNonEmpty(o.agentName, "agentattest-cli"), FirstNonEmpty(o.agentVersion, "v1-alpha"),
                           FirstNonEmpty(meta.invocationKind, "local-cli")),
      executionType := FirstNonEmpty(meta.executionType, "local"),
      evidence := TraceEvidence(meta),
      runtime := Some(RuntimeObject(meta)),
      mcpServers := ListOf(ServerObject, meta.mcpServers),
      tools := ListOf(ToolObject, meta.tools))
  }

  /** What a capture returns: it fails closed without a bound trace or without its operating contract. */
  function Captured(result: GitResult, meta: RunMetadata, host: Host): Result<Value, CaptureError> {
    if meta.traceIds == [] || meta.traceUri == "" || meta.traceDigest == "" then Failure(NoBoundTrace)
    else if !HexSha256(meta.traceDigest) then Failure(MalformedTraceDigest)
    else
      match CaptureOptions(meta, host)
      case None => Failure(UnreadableContract)
      case Some(o) => Success(StatementFor(V1, result, Fields(CapturedParts(result, meta, o, host))))
  }

  lemma PutCommutes(m: map<string, Value>, key: string, v: Value, other: string, w: Option<Value>)
    requires key != other
    ensures PutSome(m, other, w)[key := v] == PutSome(m[key := v], other, w)
  {
  }

  /** Replacing a required member commutes with adding the optional ones. */
  lemma ReplaceInCore(core: map<string, Value>, q: Parts, key: string, v: Value)
    requires key in REQUIRED
    ensures Extended(core, q)[key := v] == Extended(core[key := v], q)
  {
    var capture := PutSome(core, "capture", q.capture);
    var config := PutSome(capture, "agentConfig", q.agentConfig);
    var model := PutSome(config, "model", q.model);
    var runtime := PutSome(model, "runtime", q.runtime);
    var servers := PutSome(runtime, "mcpServers", q.mcpServers);
    PutCommutes(servers, key, v, "tools", q.tools);
    PutCommutes(runtime, key, v, "mcpServers", q.mcpServers);
    PutCommutes(model, key, v, "runtime", q.runtime);
    PutCommutes(config, key, v, "model", q.model);
    PutCommutes(capture, key, v, "agentConfig", q.agentConfig);
    PutCommutes(core, key, v, "capture", q.capture);
  }

  lemma ReplaceAgentInBase(q: Parts, agent: Value)
    ensures BaseFields(q)["agent" := agent] == BaseFields(q.(agent := agent))
  {
  }

  lemma ReplaceEnvironmentInBase(q: Parts, executionType: string)
    ensures BaseFields(q)["environment" := EnvironmentObject(executionType)] == BaseFields(q.(executionType := executionType))
  {
  }

  lemma ReplaceEvidenceInBase(q: Parts, evidence: Value)
    ensures BaseFields(q)["evidence" := Arr([evidence])] == BaseFields(q.(evidence := evidence))
  {
  }

  /** Overwriting agent, environment and evidence in turn is building the predicate with the new ones. */
  lemma ReplaceInFields(q: Parts, agent: Value, executionType: string, evidence: Value)
    ensures Fields(q)["agent" := agent] == Fields(q.(agent := agent))
    ensures Fields(q)["environment" := EnvironmentObject(executionType)] == Fields(q.(executionType := executionType))
    ensures Fields(q)["evidence" := Arr([evidence])] == Fields(q.(evidence := evidence))
  {
    ReplaceAgentInBase(q, agent);
    ReplaceEnvironmentInBase(q, executionType);
    ReplaceEvidenceInBase(q, evidence);
    ReplaceBeforeVersion(BaseFields(q), q, "agent", agent);
    ReplaceBeforeVersion(BaseFields(q), q, "environment", EnvironmentObject(executionType));
    ReplaceBeforeVersion(BaseFields(q), q, "evidence", Arr([evidence]));
  }

  lemma ReplaceBeforeVersion(base: map<string, Value>, q: Parts, key: string, v: Value)
    requires key in REQUIRED && key != "predicateVersion"
    ensures var version := Str(q.version.Name());
            Extended(base["predicateVersion" := version], q)[key := v] == Extended(base[key := v]["predicateVersion" := version], q)
  {
    var version := Str(q.version.Name());
    ReplaceInCore(base["predicateVersion" := version], q, key, v);
    PutCommutes(base, key, v, "predicateVersion", Some(version));
  }

  lemma AddRuntime(q: Parts, runtime: Value)
    requires q.mcpServers.None? && q.tools.None?
    ensures Fields(q)["runtime" := runtime] == Fields(q.(runtime := Some(runtime)))
  {
  }

  lemma AgentAndEnvironment(q: Parts)
    ensures "agent" in Fields(q) && Fields(q)["agent"] == q.agent
    ensures "environment" in Fields(q) && Fields(q)["environment"] == EnvironmentObject(q.executionType)
  {
    var core := BaseFields(q)["predicateVersion" := Str(q.version.Name())];
    ExtendedKeeps(core, q, "agent");
    ExtendedKeeps(core, q, "environment");
  }

  method McpServers(servers: seq<McpServer>) returns (entries: seq<Value>)
    ensures entries == Each(ServerObject, servers)
  {
    entries := [];
    for i := 0 to |servers|
      invariant |entries| == i
      invariant forall k | 0 <= k < i :: entries[k] == ServerObject(servers[k])
    {
      var s := servers[i];
      var entry := map["name" := Str(s.name), "transport" := Str(s.transport), "digest" := DigestObject(s.digest)];
      if s.version != "" {
        entry := entry["version" := Str(s.version)];
      }
      if s.serverIdentity != "" {
        entry := entry["serverIdentity" := Str(s.serverIdentity)];
      }
      entries := entries + [Obj(entry)];
    }
  }

  method Tools(tools: seq<Tool>) returns (entries: seq<Value>)
    ensures entries == Each(ToolObject, tools)
  {
    entries := [];
    for i := 0 to |tools|
      invariant |entries| == i
      invariant forall k | 0 <= k < i :: entries[k] == ToolObject(tools[k])
    {
      var t := tools[i];
      var entry := map["name" := Str(t.name), "schemaDigest" := DigestObject(t.schemaDigest)];
      if t.server != "" {
        entry := entry["server" := Str(t.server)];
      }
      entries := entries + [Obj(entry)];
    }
  }

  /** How a capture describes its run over what was created. */
  function RunParts(q: Parts, meta: RunMetadata, name: string, version: string): Parts {
    q.(agent := AgentObject(name, version, FirstNonEmpty(meta.invocationKind, "local-cli")),
       executionType := FirstNonEmpty(meta.executionType, "local"))
  }

  lemma OverriddenText(name: string, version: string, meta: RunMetadata)
    ensures Obj(PutText(AgentObject(name, version, "local-cli").fields, "invocationKind", meta.invocationKind))
         == AgentObject(name, version, FirstNonEmpty(meta.invocationKind, "local-cli"))
    ensures Obj(PutText(EnvironmentObject("local").fields, "executionType", meta.executionType))
         == EnvironmentObject(FirstNonEmpty(meta.executionType, "local"))
  {
  }

  method DescribeRun(p: map<string, Value>, meta: RunMetadata, ghost q: Parts, ghost name: string, ghost version: string)
    returns (described: map<string, Value>)
    requires p == Fields(q) && q.agent == AgentObject(name, version, "local-cli") && q.executionType == "local"
    ensures described == Fields(RunParts(q, meta, name, version))
  {
    ghost var run := RunParts(q, meta, name, version);
    OverriddenText(name, version, meta);
    AgentAndEnvironment(q);
    ReplaceInFields(q, run.agent, q.executionType, q.evidence);
    var agent := p["agent"].fields;
    if meta.invocationKind != "" {
      agent := agent["invocationKind" := Str(meta.invocationKind)];
    }
    described := p["agent" := Obj(agent)];
    AgentAndEnvironment(q.(agent := run.agent));
    ReplaceInFields(q.(agent := run.agent), run.agent, run.executionType, q.evidence);
    var environment := described["environment"].fields;
    if meta.executionType != "" {
      environment := environment["executionType" := Str(meta.executionType)];
    }
    described := described["environment" := Obj(environment)];
  }

  method BindTrace(p: map<string, Value>, meta: RunMetadata, ghost q: Parts) returns (bound: map<string, Value>)
    requires p == Fields(q) && q.mcpServers.None? && q.tools.None?
    ensures bound == Fields(q.(runtime := Some(RuntimeObject(meta)), evidence := TraceEvidence(meta)))
  {
    var traceFormat := meta.traceFormat;
    if traceFormat == "" {
      traceFormat := "otlp-json";
    }
    var runtime := map["traceFormat" := Str(traceFormat), "traceIds" := Arr(Each(id => Str(id), meta.traceIds))];
    if meta.rootSpanId != "" {
      runtime := runtime["rootSpanId" := Str(meta.rootSpanId)];
    }
    AddRuntime(q, Obj(runtime));
    ReplaceInFields(q.(runtime := Some(Obj(runtime))), q.agent, q.executionType, TraceEvidence(meta));
    bound := p["runtime" := Obj(runtime)]["evidence" := Arr([TraceEvidence(meta)])];
  }

  /** The predicate of a capture, made by overwriting and extending the created one. */
  method CapturePredicate(result: GitResult, meta: RunMetadata, o: CreateOptions, host: Host)
    returns (p: map<string, Value>)
    ensures p == Fields(CapturedParts(result, meta, o, host))
  {
    hide StampedRun, OriginReads, ModestReads, SummaryReads, HarnessReads;
    ghost var q := CreatedParts(V1, result, o, host);
    ghost var name, version := FirstNonEmpty(o.agentName, "agentattest-cli"), FirstNonEmpty(o.agentVersion, "v1-alpha");
    p := CreateV1(result, o, host);
    p := DescribeRun(p, meta, q, name, version);
    p := BindTrace(p, meta, RunParts(q, meta, name, version));
    if |meta.mcpServers| > 0 {
      var servers := McpServers(meta.mcpServers);
      p := p["mcpServers" := Arr(servers)];
    }
    if |meta.tools| > 0 {
      var tools := Tools(meta.tools);
      p := p["tools" := Arr(tools)];
    }
  }

  predicate Unbound(meta: RunMetadata) {
    meta.traceIds == [] || meta.traceUri == "" || meta.traceDigest == ""
  }

  predicate LowerHexDigest(s: string) {
    |s| == 64 && forall c | c in s :: '0' <= c <= '9' || 'a' <= c <= 'f'
  }

  /** The options a capture passes on: the agent is also the harness, and the contract goes by its base name. */
  function PassedOn(meta: RunMetadata, host: Host): CreateOptions {
    var contract := if meta.agentConfigPath == "" then None else host.readFile(meta.agentConfigPath);
    CreateOptions(meta.agentName, meta.agentVersion, "", "", meta.now, "harness-native", meta.agentName,
                  if contract.None? then "" else BaseName(meta.agentConfigPath),
                  if contract.None? then "" else host.sha256(contract.value), meta.modelProvider, meta.modelId)
  }

  /** How the run was invoked and what it was traced by. */
  predicate TraceReads(p: Value, meta: RunMetadata) {
    var runtime, ids := Member(p, "runtime"), ItemsMember(Member(p, "runtime"), "traceIds");
    && IsGivenOr(TextMember(Member(p, "agent"), "invocationKind"), meta.invocationKind, "local-cli")
    && IsGivenOr(TextMember(Member(p, "environment"), "executionType"), meta.executionType, "local")
    && IsGivenOr(TextMember(runtime, "traceFormat"), meta.traceFormat, "otlp-json")
    && |ids| == |meta.traceIds| && (forall i | 0 <= i < |ids| :: ids[i] == Str(meta.traceIds[i]))
    && TextOf(runtime, "rootSpanId") == meta.rootSpanId && (Has(runtime, "rootSpanId") <==> meta.rootSpanId != "")
  }

  /** The one piece of evidence is the trace. */
  predicate TraceIsEvidence(p: Value, meta: RunMetadata) {
    && |ItemsMember(p, "evidence")| == 1
    && var e := ItemsMember(p, "evidence")[0];
       && TextOf(e, "type") == "trace" && TextOf(e, "uri") == meta.traceUri
       && TextOf(Member(e, "digest"), "sha256") == meta.traceDigest
       && TextOf(e, "storage") == "artifact-store" && TextOf(e, "visibility") == "team"
       && TextOf(e, "mediaType") == if meta.traceFormat == "otlp-protobuf" then "application/x-protobuf" else "application/json"
  }

  predicate ServerReads(j: Value, s: McpServer) {
    && TextOf(j, "name") == s.name && TextOf(j, "transport") == s.transport
    && TextOf(Member(j, "digest"), "sha256") == s.digest
    && TextOf(j, "version") == s.version && (Has(j, "version") <==> s.version != "")
    && TextOf(j, "serverIdentity") == s.serverIdentity && (Has(j, "serverIdentity") <==> s.serverIdentity != "")
  }

  predicate ToolReads(j: Value, t: Tool) {
    && TextOf(j, "name") == t.name && TextOf(Member(j, "schemaDigest"), "sha256") == t.schemaDigest
    && TextOf(j, "server") == t.server && (Has(j, "server") <==> t.server != "")
  }

  /** Servers and tools in the order they were given, and only when there are any. */
  predicate ListsRead(p: Value, meta: RunMetadata) {
    var servers, tools := ItemsMember(p, "mcpServers"), ItemsMember(p, "tools");
    && (Has(p, "mcpServers") <==> meta.mcpServers != []) && |servers| == |meta.mcpServers|
    && (forall i | 0 <= i < |servers| :: ServerReads(servers[i], meta.mcpServers[i]))
    && (Has(p, "tools") <==> meta.tools != []) && |tools| == |meta.tools|
    && (forall i | 0 <= i < |tools| :: ToolReads(tools[i], meta.tools[i]))
  }

  lemma ServerIsRead(s: McpServer)
    ensures ServerReads(ServerObject(s), s)
  {
  }

  lemma ToolIsRead(t: Tool)
    ensures ToolReads(ToolObject(t), t)
  {
  }

  lemma ListsAreRead(q: Parts, meta: RunMetadata)
    requires q.mcpServers == ListOf(ServerObject, meta.mcpServers) && q.tools == ListOf(ToolObject, meta.tools)
    ensures ListsRead(Obj(Fields(q)), meta)
  {
    hide Fields, ServerObject, ToolObject, ServerReads, ToolReads;
    AssembledOption(q, "mcpServers");
    AssembledOption(q, "tools");
    forall s
      ensures ServerReads(ServerObject(s), s)
    {
      ServerIsRead(s);
    }
    forall t
      ensures ToolReads(ToolObject(t), t)
    {
      ToolIsRead(t);
    }
  }

  lemma TraceIsRead(p: Value, meta: RunMetadata)
    requires Member(p, "runtime") == RuntimeObject(meta)
    requires TextMember(Member(p, "agent"), "invocationKind") == Some(FirstNonEmpty(meta.invocationKind, "local-cli"))
    requires Member(p, "environment") == EnvironmentObject(FirstNonEmpty(meta.executionType, "local"))
    ensures TraceReads(p, meta)
  {
  }

  lemma EvidenceIsRead(p: Value, meta: RunMetadata)
    requires Member(p, "evidence") == Arr([TraceEvidence(meta)])
    ensures TraceIsEvidence(p, meta)
  {
    assert ItemsMember(p, "evidence") == [TraceEvidence(meta)];
  }

  lemma DigestIsLowerHex(s: string)
    ensures HexSha256(s) <==> LowerHexDigest(s)
  {
  }

  /** What a successful capture holds, in terms of what it was given. */
  predicate CaptureReads(p: Value, result: GitResult, meta: RunMetadata, host: Host) {
    && StampedRun(p, meta.now, host.clock, host.pid) && ModestReads(p)
    && OriginReads(p, result, PassedOn(meta, host), "v1-alpha") && HarnessReads(p, PassedOn(meta, host))
    && TraceReads(p, meta) && TraceIsEvidence(p, meta) && ListsRead(p, meta)
  }

  lemma OptionsArePassedOn(meta: RunMetadata, host: Host)
    requires CaptureOptions(meta, host).Some?
    ensures CaptureOptions(meta, host).value == PassedOn(meta, host)
  {
    hide BaseName;
  }

  lemma TimeIsPassedOn(meta: RunMetadata, host: Host)
    ensures PassedOn(meta, host).now == meta.now
  {
  }

  lemma CaptureIsRead(result: GitResult, meta: RunMetadata, host: Host)
    requires CaptureOptions(meta, host).Some?
    ensures CaptureReads(Obj(Fields(CapturedParts(result, meta, PassedOn(meta, host), host))), result, meta, host)
  {
    hide Fields, RepoObject, RuntimeObject, TraceEvidence, FormatTime;
    hide RunId, PRIVACY, ServerObject, ToolObject, PassedOn;
    hide StampedRun, ModestReads, OriginReads, HarnessReads, TraceReads, TraceIsEvidence, ListsRead, SummaryEvidence;
    var o := PassedOn(meta, host);
    var q := CapturedParts(result, meta, o, host);
    var p := Obj(Fields(q));
    AssembledCore(q);
    TimeIsPassedOn(meta, host);
    RunReads(p, q, o, host);
    ModestyReads(p, q);
    OriginIsRead(p, result, o, "v1-alpha", FirstNonEmpty(meta.invocationKind, "local-cli"));
    CapturedOptionsRead(result, meta, o, host);
    AssembledOption(q, "runtime");
    TraceIsRead(p, meta);
    EvidenceIsRead(p, meta);
    ListsAreRead(q, meta);
  }

  lemma CapturedOptionsRead(result: GitResult, meta: RunMetadata, o: CreateOptions, host: Host)
    ensures HarnessReads(Obj(Fields(CapturedParts(result, meta, o, host))), o)
  {
    hide Fields, RepoObject, RuntimeObject, TraceEvidence, SummaryEvidence, FormatTime, RunId, PRIVACY, Each;
    hide HarnessReads, CaptureFields, AgentConfigObject, ModelObject;
    var q := CapturedParts(result, meta, o, host);
    AssembledOption(q, "capture");
    AssembledOption(q, "agentConfig");
    AssembledOption(q, "model");
    HarnessIsRead(Obj(Fields(q)), o);
  }

  /** `capture.Statement` */
  method Statement(result: GitResult, meta: RunMetadata, host: Host) returns (r: Result<Value, CaptureError>)
    ensures r == Captured(result, meta, host)
    ensures r == Failure(NoBoundTrace) <==> Unbound(meta)
    ensures r == Failure(MalformedTraceDigest) <==> !Unbound(meta) && !LowerHexDigest(meta.traceDigest)
    ensures r == Failure(UnreadableContract) <==>
            && !Unbound(meta) && LowerHexDigest(meta.traceDigest)
            && meta.agentConfigPath != "" && host.readFile(meta.agentConfigPath).None?
    ensures r.Success? ==>
              StatementReads(r.value, V1, result) && CaptureReads(Member(r.value, "predicate"), result, meta, host)
  {
    hide CaptureReads, StatementReads, PassedOn;
    DigestIsLowerHex(meta.traceDigest);
    if |meta.traceIds| == 0 || meta.traceUri == "" || meta.traceDigest == "" {
      return Failure(NoBoundTrace);
    }
    if !HexSha256(meta.traceDigest) {
      return Failure(MalformedTraceDigest);
    }
    var configPath, configSha256 := "", "";
    if meta.agentConfigPath != "" {
      match host.readFile(meta.agentConfigPath)
      case None => return Failure(UnreadableContract);
      case Some(data) =>
        configPath := BaseName(meta.agentConfigPath);
        configSha256 := host.sha256(data);
    }
    OptionsArePassedOn(meta, host);
    CaptureIsRead(result, meta, host);
    var p := CapturePredicate(result, meta, OptionsFor(meta, configPath, configSha256), host);
    StatementIsRead(V1, result, p);
    r := Success(StatementFor(V1, result, p));
  }
}
