/** Every way a verification ends, from the texts of the statement and for any contract files. */
module Outcomes {
  import opened Basics
  import opened Json
  import opened FailureCodes
  import opened FailureOrder
  import opened Schema
  import opened Statements
  import opened Policy
  import opened Verifier
  import opened Decisions

  /** What phase 01 says of a statement with this code. */
  predicate Misrouted(code: string, s: Value) {
    var kind, declared := TextOf(s, "predicateType"), TextOf(Member(s, "predicate"), "predicateVersion");
    match code
    case "unsupported_statement_type" => TextOf(s, "_type") != "https://in-toto.io/Statement/v1"
    case "predicate_type_mismatch" =>
      kind != "https://agentattest.dev/predicate/v0" && kind != "https://agentattest.dev/predicate/v1"
    case "unsupported_predicate_version" =>
      || (declared != "v0" && declared != "v1")
      || (declared == "v0" && kind == "https://agentattest.dev/predicate/v1")
      || (declared == "v1" && kind == "https://agentattest.dev/predicate/v0")
    case _ => false
  }

  predicate WellRouted(s: Value) {
    && !Misrouted("unsupported_statement_type", s) && !Misrouted("predicate_type_mismatch", s)
    && !Misrouted("unsupported_predicate_version", s)
  }

  /** A text, null, or nothing. */
  predicate TextOrNull(j: Value, key: string) {
    Member(j, key).Null? || Member(j, key).Str?
  }

  predicate DigestDecodes(j: Value) {
    j.Null? || (j.Obj? && forall key | key in j.fields :: j.fields[key].Null? || j.fields[key].Str?)
  }

  /** Exactly the statements that decode: typed texts, a list of named digests, and a predicate that is an object or null. */
  lemma DecodesIff(s: Value)
    ensures Parse(s).Some? <==>
            && s.Obj? && TextOrNull(s, "_type") && TextOrNull(s, "predicateType")
            && (Member(s, "subject").Null? || Member(s, "subject").Arr?)
            && (forall t | t in ItemsMember(s, "subject") ::
                  t.Null? || (t.Obj? && TextOrNull(t, "name") && DigestDecodes(Member(t, "digest"))))
            && Has(s, "predicate") && (Member(s, "predicate").Obj? || Member(s, "predicate").Null?)
  {
  }

  lemma DecodedTexts(s: Value)
    requires Parse(s).Some?
    ensures Parse(s).value == Document(TextOf(s, "_type"), TextOf(s, "predicateType"), Member(s, "predicate"))
  {
  }

  lemma KindIsRead(s: Value)
    requires Parse(s).Some?
    ensures Misrouted("unsupported_statement_type", s) <==> UnsupportedStatementType in RoutingCodes(Parse(s).value)
    ensures Misrouted("predicate_type_mismatch", s) <==> PredicateTypeMismatch in RoutingCodes(Parse(s).value)
  {
    hide Parse, DeclaredVersion;
    DecodedTexts(s);
  }

  lemma VersionIsRead(s: Value)
    requires Parse(s).Some?
    ensures Misrouted("unsupported_predicate_version", s) <==> UnsupportedPredicateVersion in RoutingCodes(Parse(s).value)
  {
    hide Parse;
    DecodedTexts(s);
  }

  lemma MisroutedIsNamed(s: Value, code: string)
    requires Parse(s).Some?
    ensures Misrouted(code, s) <==> code in Names(RoutingCodes(Parse(s).value))
  {
    hide Parse, RoutingCodes;
    var codes := RoutingCodes(Parse(s).value);
    KindIsRead(s);
    VersionIsRead(s);
    OnlyRoutingCodes(Parse(s).value);
    RoutingNames(s, codes, code);
  }

  lemma RoutingNames(s: Value, codes: set<Code>, code: string)
    requires codes <= ROUTING_CODES
    requires Misrouted("unsupported_statement_type", s) <==> UnsupportedStatementType in codes
    requires Misrouted("predicate_type_mismatch", s) <==> PredicateTypeMismatch in codes
    requires Misrouted("unsupported_predicate_version", s) <==> UnsupportedPredicateVersion in codes
    ensures Misrouted(code, s) <==> code in Names(codes)
  {
    if code in Names(codes) {
      var c :| c in codes && c.Name() == code;
    }
  }

  lemma OnlyRoutingCodes(doc: Document)
    ensures RoutingCodes(doc) <= ROUTING_CODES
  {
  }

  lemma WellRoutedIff(s: Value)
    requires Parse(s).Some?
    ensures WellRouted(s) <==> RoutingCodes(Parse(s).value) == {}
  {
    hide *;
    KindIsRead(s);
    VersionIsRead(s);
    OnlyRoutingCodes(Parse(s).value);
    NoRoutingCode(s, RoutingCodes(Parse(s).value));
  }

  lemma NoRoutingCode(s: Value, codes: set<Code>)
    requires codes <= ROUTING_CODES
    requires Misrouted("unsupported_statement_type", s) <==> UnsupportedStatementType in codes
    requires Misrouted("predicate_type_mismatch", s) <==> PredicateTypeMismatch in codes
    requires Misrouted("unsupported_predicate_version", s) <==> UnsupportedPredicateVersion in codes
    ensures WellRouted(s) <==> codes == {}
  {
    hide Misrouted;
  }

  lemma MisroutedDecision(contracts: Contracts, s: Value, x: Value)
    requires Parse(s).Some? && RoutingCodes(Parse(s).value) != {}
    ensures Decide(Some(contracts), s, x) == Names(RoutingCodes(Parse(s).value))
  {
  }

  lemma ReportedCodes(contracts: Option<Contracts>, s: Value, x: Value)
    ensures Elements(Verdict(contracts, s, x).failureCodes) == Decide(contracts, s, x)
  {
  }

  /** Whatever the contract files: a statement that phase 01 faults is reported for exactly the faults it has. */
  lemma MisroutingIsReported(contracts: Contracts, s: Value, x: Value, code: string)
    requires Parse(s).Some? && !WellRouted(s)
    ensures code in Verdict(Some(contracts), s, x).failureCodes <==> Misrouted(code, s)
    ensures !Verdict(Some(contracts), s, x).valid
  {
    hide *;
    WellRoutedIff(s);
    MisroutedIsNamed(s, code);
    MisroutedDecision(contracts, s, x);
    ReportedCodes(Some(contracts), s, x);
    ReadElements(Verdict(Some(contracts), s, x).failureCodes, code);
    NoNames(RoutingCodes(Parse(s).value));
    ValidIffNoCode(Some(contracts), s, x);
  }

  lemma ReadElements(codes: seq<string>, code: string)
    ensures code in codes <==> code in Elements(codes)
  {
  }

  lemma SchemaInvalidIsCode(contracts: Option<Contracts>, s: Value, x: Value)
    requires contracts.None? || Parse(s).None?
    ensures Decide(contracts, s, x) == {"schema_invalid"}
  {
    assert Names({SchemaInvalid}) == {"schema_invalid"};
  }

  /** A statement of another type is never valid, whatever else it holds and whatever it is verified with. */
  lemma ForeignTypeIsInvalid(contracts: Option<Contracts>, s: Value, x: Value)
    requires TextOf(s, "_type") != "https://in-toto.io/Statement/v1"
    ensures !Verdict(contracts, s, x).valid
    ensures contracts.Some? && Parse(s).Some? ==> "unsupported_statement_type" in Verdict(contracts, s, x).failureCodes
  {
    hide Parse, Verdict, Decide;
    if contracts.Some? && Parse(s).Some? {
      MisroutingIsReported(contracts.value, s, x, "unsupported_statement_type");
    } else {
      SchemaInvalidIsCode(contracts, s, x);
      ValidIffNoCode(contracts, s, x);
    }
  }

  function DeclaredBy(s: Value): Version {
    if TextOf(Member(s, "predicate"), "predicateVersion") == "v1" then V1 else V0
  }

  lemma RoutedDecision(contracts: Contracts, s: Value, x: Value)
    requires Parse(s).Some? && WellRouted(s)
    ensures Decide(Some(contracts), s, x) == ContractCodes(contracts, DeclaredBy(s), Member(s, "predicate"), Input(s, x))
  {
    hide Parse, ContractCodes, RoutingCodes, Misrouted;
    WellRoutedIff(s);
    DecodedTexts(s);
    RoutedVersionRead(s);
  }

  lemma RoutedVersionRead(s: Value)
    requires Parse(s).Some? && WellRouted(s)
    ensures VersionOfType(TextOf(s, "predicateType")) == Some(DeclaredBy(s))
  {
    hide Parse;
  }

  lemma SingleCode(code: string)
    ensures Canonical({code}) == [code]
  {
    assert Ascending([code]) && Elements([code]) == {code};
    AscendingIsUnique(Canonical({code}), [code]);
  }

  /** How phases 02 to 04 end. */
  ghost predicate EndsAs(contracts: Contracts, v: Version, s: Value, x: Value, codes: seq<string>) {
    var p := Member(s, "predicate");
    if !contracts.schema(v, p) || !contracts.contextSchema(x) || !contracts.cue(v, p) then codes == ["schema_invalid"]
    else
      match contracts.policy(Input(s, x))
      case EvaluationFailed => codes == ["policy_eval_error"]
      case NoResult => codes == []
      case Evaluated(value) => Elements(codes) == Strings(value)
  }

  lemma CanonicalOfNone()
    ensures Canonical({}) == []
  {
  }

  lemma EndOfContracts(contracts: Contracts, v: Version, s: Value, x: Value)
    ensures EndsAs(contracts, v, s, x, Canonical(ContractCodes(contracts, v, Member(s, "predicate"), Input(s, x))))
  {
    assert Names({SchemaInvalid}) == {"schema_invalid"} && Names({PolicyEvalError}) == {"policy_eval_error"};
    SingleCode("schema_invalid");
    SingleCode("policy_eval_error");
    CanonicalOfNone();
  }

  /**
   All the ways to end: contract files or statement cannot be read; phase 01 finds fault; a contract of the
   declared version rejects; the policy fails; or the policy's strings are the codes, none of which is valid.
   */
  lemma EveryOutcome(contracts: Option<Contracts>, s: Value, x: Value)
    ensures var r := Verdict(contracts, s, x);
            && (r.valid <==> r.failureCodes == [])
            && if contracts.None? || Parse(s).None? then r.level == "" && r.failureCodes == ["schema_invalid"]
               else
                 && r.level == TextOf(Member(s, "predicate"), "verificationLevel")
                 && if WellRouted(s) then EndsAs(contracts.value, DeclaredBy(s), s, x, r.failureCodes)
                    else forall code :: code in r.failureCodes <==> Misrouted(code, s)
  {
    hide Parse, Decide, EndsAs, Misrouted, WellRouted;
    ValidIffEmpty(contracts, s, x);
    if contracts.None? || Parse(s).None? {
      SchemaInvalidIsCode(contracts, s, x);
      SingleCode("schema_invalid");
    } else {
      DecodedTexts(s);
      if WellRouted(s) {
        RoutedDecision(contracts.value, s, x);
        EndOfContracts(contracts.value, DeclaredBy(s), s, x);
      } else {
        forall code
          ensures code in Verdict(contracts, s, x).failureCodes <==> Misrouted(code, s)
        {
          MisroutingIsReported(contracts.value, s, x, code);
        }
      }
    }
  }

  lemma ValidIffEmpty(contracts: Option<Contracts>, s: Value, x: Value)
    ensures Verdict(contracts, s, x).valid <==> Verdict(contracts, s, x).failureCodes == []
  {
    hide Decide;
    CanonicalOfNone();
    SomeElement(Verdict(contracts, s, x).failureCodes);
  }
}

/** The strings collected from a policy's value are its leaves. */
module PolicyStrings {
  import opened Basics
  import opened Json
  import opened BundleSearch
  import opened Verifier

  /** Following some path into the value leads to the string. */
  ghost predicate IsLeaf(value: Value, s: string) {
    exists path: Path :: At(value, path) == Some(Str(s))
  }

  lemma LeafBelow(value: Value, step: Step, s: string)
    requires Child(value, step).Some? && IsLeaf(Child(value, step).value, s)
    ensures IsLeaf(value, s)
  {
    var path: Path :| At(Child(value, step).value, path) == Some(Str(s));
    assert ([step] + path)[1..] == path;
    assert At(value, [step] + path) == Some(Str(s));
  }

  lemma {:induction false} StringIsLeaf(value: Value, s: string)
    requires s in Strings(value)
    ensures IsLeaf(value, s)
    decreases value
  {
    match value
    case Str(_) => assert At(value, []) == Some(Str(s));
    case Arr(items) =>
      var i :| 0 <= i < |items| && s in Strings(items[i]);
      StringIsLeaf(items[i], s);
      LeafBelow(value, Index(i), s);
    case Obj(fields) =>
      var k :| k in fields && s in Strings(fields[k]);
      StringIsLeaf(fields[k], s);
      LeafBelow(value, Under(k), s);
  }

  lemma {:induction false} LeafIsString(value: Value, path: Path, s: string)
    requires At(value, path) == Some(Str(s))
    ensures s in Strings(value)
    decreases path
  {
    if path != [] {
      LeafIsString(Child(value, path[0]).value, path[1..], s);
    }
  }

  /** Exactly the strings that some path leads to, at any depth, are collected; keys are not. */
  lemma StringsAreLeaves(value: Value, s: string)
    ensures s in Strings(value) <==> IsLeaf(value, s)
  {
    if s in Strings(value) {
      StringIsLeaf(value, s);
    }
    if path: Path :| At(value, path) == Some(Str(s)) {
      LeafIsString(value, path, s);
    }
  }
}
