/** The verification pipeline: routing, schemas, CUE, policy, and the order of the codes. */
module Verifier {
  import opened Basics
  import opened Json
  import opened FailureCodes
  import opened FailureOrder
  import opened Schema
  import opened Statements
  import opened Policy
  import G = Gates

  datatype Result = Result(valid: bool, level: string, failureCodes: seq<string>)

  /** Evaluating the policy query gives a value, no result at all, or an error. */
  datatype Evaluation = Evaluated(value: Value) | NoResult | EvaluationFailed {
    /** The codes listed: an empty result set lists none. */
    ghost function Codes(): set<string>
      requires !EvaluationFailed?
    {
      match this
      case Evaluated(value) => Strings(value)
      case NoResult => {}
    }
  }

  /**
   The contract files a verification runs with. A schema that cannot be loaded accepts nothing; a
   policy that cannot be read fails like one that cannot be evaluated.
   */
  datatype Contracts = Contracts(
    schema: (Version, Value) -> bool,
    contextSchema: Value -> bool,
    cue: (Version, Value) -> bool,
    policy: Input -> Evaluation
  )

  function VersionOfType(predicateType: string): Option<Version> {
    if predicateType == PREDICATE_TYPE_V0 then Some(V0)
    else if predicateType == PREDICATE_TYPE_V1 then Some(V1)
    else None
  }

  function DeclaredVersion(p: Value): Option<Version> {
    var declared := TextOf(p, "predicateVersion");
    if declared == "v0" then Some(V0) else if declared == "v1" then Some(V1) else None
  }

  /** Phase 01 as a set of codes. */
  function RoutingCodes(doc: Document): set<Code> {
    var routed, declared := VersionOfType(doc.predicateType), DeclaredVersion(doc.body);
    (if doc.kind != TYPE_V1 then {UnsupportedStatementType} else {})
    + (if routed.None? then {PredicateTypeMismatch} else {})
    + (if declared.None? || (routed.Some? && routed != declared) then {UnsupportedPredicateVersion} else {})
  }

  method Phase01(doc: Document) returns (codes: seq<string>)
    ensures Elements(codes) == Names(RoutingCodes(doc))
    ensures codes == [] <==> RoutingCodes(doc) == {}
    ensures "unsupported_statement_type" in codes <==> doc.kind != "https://in-toto.io/Statement/v1"
    ensures "predicate_type_mismatch" in codes <==>
            && doc.predicateType != "https://agentattest.dev/predicate/v0"
            && doc.predicateType != "https://agentattest.dev/predicate/v1"
    ensures "unsupported_predicate_version" in codes <==>
            match TextOf(doc.body, "predicateVersion")
            case "v0" => doc.predicateType == "https://agentattest.dev/predicate/v1"
            case "v1" => doc.predicateType == "https://agentattest.dev/predicate/v0"
            case _ => true
  {
    codes := [];
    ghost var found: set<Code> := {};
    if doc.kind != TYPE_V1 {
      codes := codes + [UnsupportedStatementType.Name()];
      found := found + {UnsupportedStatementType};
    }
    var versionFromType := "";
    if doc.predicateType == PREDICATE_TYPE_V0 {
      versionFromType := "v0";
    } else if doc.predicateType == PREDICATE_TYPE_V1 {
      versionFromType := "v1";
    } else {
      codes := codes + [PredicateTypeMismatch.Name()];
      found := found + {PredicateTypeMismatch};
    }
    var declared := TextOf(doc.body, "predicateVersion");
    if declared == "v0" || declared == "v1" {
      if versionFromType != "" && declared != versionFromType {
        codes := codes + [UnsupportedPredicateVersion.Name()];
        found := found + {UnsupportedPredicateVersion};
      }
    } else {
      codes := codes + [UnsupportedPredicateVersion.Name()];
      found := found + {UnsupportedPredicateVersion};
    }
    assert found == RoutingCodes(doc);
  }

  /** The strings anywhere in a value. */
  ghost function Strings(value: Value): set<string>
    decreases value
  {
    match value
    case Str(s) => {s}
    case Arr(items) => set v, s | v in items && s in Strings(v) :: s
    case Obj(fields) => set k, s | k in fields.Keys && s in Strings(fields[k]) :: s
    case _ => {}
  }

  class Sink {
    var strings: seq<string>

    constructor ()
      ensures strings == []
    {
      strings := [];
    }
  }

  /** Appends every string in a value, visiting the members of an object in any order. */
  method CollectStrings(value: Value, out: Sink)
    modifies out
    ensures Elements(out.strings) == Elements(old(out.strings)) + Strings(value)
    decreases value, 1
  {
    match value
    case Str(s) =>
      AppendedElements(out.strings, s);
      out.strings := out.strings + [s];
    case Arr(items) => CollectItems(items, out);
    case Obj(fields) => CollectMembers(fields, out);
    case _ =>
  }

  method CollectItems(items: seq<Value>, out: Sink)
    modifies out
    ensures Elements(out.strings) == Elements(old(out.strings)) + Strings(Arr(items))
    decreases Arr(items), 0
  {
    ghost var before := Elements(out.strings);
    for i := 0 to |items|
      invariant Elements(out.strings) == before + Strings(Arr(items[..i]))
    {
      CollectStrings(items[i], out);
      StringsOfNext(items, i);
      UnionAssociates(before, Strings(Arr(items[..i])), Strings(items[i]));
    }
    assert items[..|items|] == items;
  }

  method CollectMembers(fields: map<string, Value>, out: Sink)
    modifies out
    ensures Elements(out.strings) == Elements(old(out.strings)) + Strings(Obj(fields))
    decreases Obj(fields), 0
  {
    ghost var before := Elements(out.strings);
    var left := fields.Keys;
    AllStringsUnder(fields);
    while left != {}
      invariant left <= fields.Keys
      invariant Elements(out.strings) == before + StringsUnder(fields, fields.Keys - left)
      decreases |left|
    {
      var key :| key in left;
      CollectStrings(fields[key], out);
      StringsUnderNext(fields, left, key);
      UnionAssociates(before, StringsUnder(fields, fields.Keys - left), Strings(fields[key]));
      left := left - {key};
    }
  }

  lemma UnionAssociates<T>(a: set<T>, b: set<T>, c: set<T>)
    ensures (a + b) + c == a + (b + c)
  {
  }

  lemma StringsOfNext(items: seq<Value>, i: nat)
    requires i < |items|
    ensures Strings(Arr(items[..i + 1])) == Strings(Arr(items[..i])) + Strings(items[i])
  {
    assert items[..i + 1] == items[..i] + [items[i]];
  }

  ghost function StringsUnder(fields: map<string, Value>, keys: set<string>): set<string>
    requires keys <= fields.Keys
  {
    set k, s | k in keys && s in Strings(fields[k]) :: s
  }

  lemma StringsUnderNext(fields: map<string, Value>, left: set<string>, key: string)
    requires key in left && left <= fields.Keys
    ensures StringsUnder(fields, fields.Keys - (left - {key}))
         == StringsUnder(fields, fields.Keys - left) + Strings(fields[key])
  {
    assert fields.Keys - (left - {key}) == (fields.Keys - left) + {key};
  }

  lemma AllStringsUnder(fields: map<string, Value>)
    ensures StringsUnder(fields, fields.Keys - {}) == Strings(Obj(fields))
    ensures StringsUnder(fields, fields.Keys - fields.Keys) == {}
  {
    assert fields.Keys - {} == fields.Keys;
  }

  lemma AppendedElements(codes: seq<string>, c: string)
    ensures Elements(codes + [c]) == Elements(codes) + {c}
  {
  }

  /** `policy.FailureCodes`: the strings of the policy's value, objects in any order; None on an error. */
  method PolicyCodes(contracts: Contracts, i: Input) returns (codes: Option<seq<string>>)
    ensures codes.None? <==> contracts.policy(i).EvaluationFailed?
    ensures codes.Some? ==> Elements(codes.value) == contracts.policy(i).Codes()
  {
    match contracts.policy(i)
    case EvaluationFailed => codes := None;
    case NoResult => codes := Some([]);
    case Evaluated(value) =>
      var out := new Sink();
      CollectStrings(value, out);
      codes := Some(out.strings);
  }

  method Finish(level: string, codes: seq<string>) returns (r: Result)
    ensures r == Finished(level, Elements(codes))
  {
    var ordered := OrderFailureCodes(codes);
    r := Result(|ordered| == 0, level, ordered);
    SomeElement(ordered);
  }

  /** A result depends on the set of codes alone: no enumeration order and no repetition shows in it. */
  ghost function Finished(level: string, codes: set<string>): Result {
    Result(codes == {}, level, Canonical(codes))
  }

  /** Phases 02 to 04, for a document routed to version `v`. */
  ghost function ContractCodes(contracts: Contracts, v: Version, body: Value, i: Input): set<string> {
    if !contracts.schema(v, body) || !contracts.contextSchema(i.context) || !contracts.cue(v, body) then
      Names({SchemaInvalid})
    else if contracts.policy(i).EvaluationFailed? then
      Names({PolicyEvalError})
    else
      contracts.policy(i).Codes()
  }

  /** The codes the phases decide on. */
  ghost function Decide(contracts: Option<Contracts>, statement: Value, context: Value): set<string> {
    if contracts.None? || Parse(statement).None? then Names({SchemaInvalid})
    else
      var doc := Parse(statement).value;
      if RoutingCodes(doc) != {} then Names(RoutingCodes(doc))
      else
        match VersionOfType(doc.predicateType)
        case None => Names({PredicateTypeMismatch})
        case Some(v) => ContractCodes(contracts.value, v, doc.body, Input(statement, context))
  }

  /** The level a result reports: the declared one, once the predicate could be decoded. */
  function ReportedLevel(contracts: Option<Contracts>, statement: Value): string {
    if contracts.Some? && Parse(statement).Some? then TextOf(Parse(statement).value.body, "verificationLevel") else ""
  }

  ghost function Verdict(contracts: Option<Contracts>, statement: Value, context: Value): Result {
    Finished(ReportedLevel(contracts, statement), Decide(contracts, statement, context))
  }

  lemma SingleName(c: Code)
    ensures Elements([c.Name()]) == Names({c})
  {
  }

  method VerifyPredicate(contracts: Option<Contracts>, statement: Value, context: Value) returns (r: Result)
    ensures r == Verdict(contracts, statement, context)
  {
    SingleName(SchemaInvalid);
    SingleName(PredicateTypeMismatch);
    SingleName(PolicyEvalError);
    if contracts.None? {
      r := Finish("", [SchemaInvalid.Name()]);
      return;
    }
    var files := contracts.value;
    var parsed := Parse(statement);
    if parsed.None? {
      r := Finish("", [SchemaInvalid.Name()]);
      return;
    }
    var doc := parsed.value;
    var level := TextOf(doc.body, "verificationLevel");
    var routing := Phase01(doc);
    if |routing| > 0 {
      r := Finish(level, routing);
      return;
    }
    var version := VersionOfType(doc.predicateType);
    if version.None? {
      r := Finish(level, [PredicateTypeMismatch.Name()]);
      return;
    }
    if !files.schema(version.value, doc.body) {
      r := Finish(level, [SchemaInvalid.Name()]);
      return;
    }
    if !files.contextSchema(context) {
      r := Finish(level, [SchemaInvalid.Name()]);
      return;
    }
    if !files.cue(version.value, doc.body) {
      r := Finish(level, [SchemaInvalid.Name()]);
      return;
    }
    var codes := PolicyCodes(files, Input(statement, context));
    if codes.None? {
      r := Finish(level, [PolicyEvalError.Name()]);
      return;
    }
    r := Finish(level, codes.value);
  }
}
