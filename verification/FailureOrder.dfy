/** The failure codes of the verifier and the order in which it reports them. */
module FailureCodes {

  datatype Code =
    | UnsupportedStatementType
    | PredicateTypeMismatch
    | UnsupportedPredicateVersion
    | SchemaInvalid
    | SignatureInvalid
    | TransparencyVerificationFailed
    | SubjectDigestMismatch
    | RepoUrlMismatch
    | BaseCommitMismatch
    | SignerIdentityMismatch
    | BuilderIdentityMismatch
    | ReplayDetected
    | PrivacyViolation
    | LevelEscalation
    | LevelBelowRequired
    | MissingEvidence
    | StaleAttestation
    | PolicyEvalError
  {
    function Name(): string {
      match this
      case UnsupportedStatementType => "unsupported_statement_type"
      case PredicateTypeMismatch => "predicate_type_mismatch"
      case UnsupportedPredicateVersion => "unsupported_predicate_version"
      case SchemaInvalid => "schema_invalid"
      case SignatureInvalid => "signature_invalid"
      case TransparencyVerificationFailed => "transparency_verification_failed"
      case SubjectDigestMismatch => "subject_digest_mismatch"
      case RepoUrlMismatch => "repo_url_mismatch"
      case BaseCommitMismatch => "base_commit_mismatch"
      case SignerIdentityMismatch => "signer_identity_mismatch"
      case BuilderIdentityMismatch => "builder_identity_mismatch"
      case ReplayDetected => "replay_detected"
      case PrivacyViolation => "privacy_violation"
      case LevelEscalation => "level_escalation"
      case LevelBelowRequired => "level_below_required"
      case MissingEvidence => "missing_evidence"
      case StaleAttestation => "stale_attestation"
      case PolicyEvalError => "policy_eval_error"
    }
  }

  function Names(codes: set<Code>): set<string> {
    set c | c in codes :: c.Name()
  }
}

module FailureOrder {
  import opened Basics
  import opened FailureCodes
  import opened StableSort
  import opened Text

  const FAILURE_PRIORITY: map<string, int> := map[
    "unsupported_statement_type" := 10,
    "predicate_type_mismatch" := 20,
    "unsupported_predicate_version" := 30,
    "schema_invalid" := 40,
    "signature_invalid" := 50,
    "transparency_verification_failed" := 60,
    "subject_digest_mismatch" := 70,
    "repo_url_mismatch" := 80,
    "base_commit_mismatch" := 90,
    "signer_identity_mismatch" := 100,
    "builder_identity_mismatch" := 110,
    "replay_detected" := 120,
    "privacy_violation" := 130,
    "level_escalation" := 140,
    "level_below_required" := 150,
    "missing_evidence" := 160,
    "stale_attestation" := 170,
    "policy_eval_error" := 180
  ]

  function Priority(code: string): Option<int> {
    if code in FAILURE_PRIORITY then Some(FAILURE_PRIORITY[code]) else None
  }

  /** The code at each priority: the inverse of the table. */
  function CodeAt(priority: int): string {
    match priority
    case 10 => "unsupported_statement_type"
    case 20 => "predicate_type_mismatch"
    case 30 => "unsupported_predicate_version"
    case 40 => "schema_invalid"
    case 50 => "signature_invalid"
    case 60 => "transparency_verification_failed"
    case 70 => "subject_digest_mismatch"
    case 80 => "repo_url_mismatch"
    case 90 => "base_commit_mismatch"
    case 100 => "signer_identity_mismatch"
    case 110 => "builder_identity_mismatch"
    case 120 => "replay_detected"
    case 130 => "privacy_violation"
    case 140 => "level_escalation"
    case 150 => "level_below_required"
    case 160 => "missing_evidence"
    case 170 => "stale_attestation"
    case 180 => "policy_eval_error"
    case _ => ""
  }

  lemma PriorityIsInjective(a: string)
    requires Priority(a).Some?
    ensures CodeAt(Priority(a).value) == a
  {
  }

  /** The priority of a code of the verifier's own vocabulary. */
  function Rank(c: Code): int {
    match c
    case UnsupportedStatementType => 10
    case PredicateTypeMismatch => 20
    case UnsupportedPredicateVersion => 30
    case SchemaInvalid => 40
    case SignatureInvalid => 50
    case TransparencyVerificationFailed => 60
    case SubjectDigestMismatch => 70
    case RepoUrlMismatch => 80
    case BaseCommitMismatch => 90
    case SignerIdentityMismatch => 100
    case BuilderIdentityMismatch => 110
    case ReplayDetected => 120
    case PrivacyViolation => 130
    case LevelEscalation => 140
    case LevelBelowRequired => 150
    case MissingEvidence => 160
    case StaleAttestation => 170
    case PolicyEvalError => 180
  }

  lemma EveryCodeIsKnown(c: Code)
    ensures Priority(c.Name()) == Some(Rank(c))
  {
  }

  lemma NamesAreDistinct(c: Code, d: Code)
    requires c.Name() == d.Name()
    ensures c == d
  {
    hide Code.Name, Priority;
    EveryCodeIsKnown(c);
    EveryCodeIsKnown(d);
  }

  lemma NamesMembership(codes: set<Code>, c: Code)
    ensures c.Name() in Names(codes) <==> c in codes
  {
    hide Code.Name;
    if c.Name() in Names(codes) {
      var d :| d in codes && d.Name() == c.Name();
      NamesAreDistinct(c, d);
    }
  }

  /** The comparison handed to the sort: known codes by priority, then unknown codes by text. */
  predicate Before(a: string, b: string) {
    match (Priority(a), Priority(b))
    case (Some(p), Some(q)) => p < q
    case (Some(_), None) => true
    case (None, Some(_)) => false
    case (None, None) => TextLess(a, b)
  }

  /** `Before` is a strict total order: no two codes tie, so a stable sort has nothing to keep. */
  lemma BeforeIsTotal(a: string, b: string)
    ensures a == b ==> !Before(a, b)
    ensures a != b ==> Before(a, b) != Before(b, a)
  {
    TextLessIsTotal(a, b);
    if Priority(a).Some? && Priority(a) == Priority(b) {
      PriorityIsInjective(a);
      PriorityIsInjective(b);
    }
  }

  lemma BeforeIsTransitive(a: string, b: string, c: string)
    requires Before(a, b) && Before(b, c)
    ensures Before(a, c)
  {
    if Priority(a).None? {
      TextLessIsTransitive(a, b, c);
    }
  }

  lemma BeforeIsStrictTotal()
    ensures StrictTotal(Before)
  {
    forall a, b, c
      ensures !Before(a, a) && (a != b ==> Before(a, b) != Before(b, a))
      ensures Before(a, b) && Before(b, c) ==> Before(a, c)
    {
      BeforeIsTotal(a, b);
      BeforeIsTotal(a, a);
      if Before(a, b) && Before(b, c) {
        BeforeIsTransitive(a, b, c);
      }
    }
  }

  /** The codes in the order they are documented and reported in. */
  const DOCUMENTED: seq<string> := [
    "unsupported_statement_type", "predicate_type_mismatch", "unsupported_predicate_version", "schema_invalid",
    "signature_invalid", "transparency_verification_failed", "subject_digest_mismatch", "repo_url_mismatch",
    "base_commit_mismatch", "signer_identity_mismatch", "builder_identity_mismatch", "replay_detected",
    "privacy_violation", "level_escalation", "level_below_required", "missing_evidence", "stale_attestation",
    "policy_eval_error"
  ]

  lemma DocumentedPriority(i: nat)
    requires i < |DOCUMENTED|
    ensures Priority(DOCUMENTED[i]) == Some(10 * i + 10)
  {
  }

  lemma KnownIsDocumented(a: string)
    ensures Priority(a).Some? <==> a in DOCUMENTED
  {
    if Priority(a).Some? {
      PriorityIsInjective(a);
      var i := Priority(a).value / 10 - 1;
      assert CodeAt(10 * i + 10) == a;
    }
    if i: nat :| i < |DOCUMENTED| && DOCUMENTED[i] == a {
      DocumentedPriority(i);
    }
  }

  /** Documented codes come in their order and before all others, which come in the order of their texts. */
  lemma BeforeIsDocumented(a: string, b: string)
    ensures forall i, j | 0 <= i < |DOCUMENTED| && 0 <= j < |DOCUMENTED| && a == DOCUMENTED[i] && b == DOCUMENTED[j] ::
              Before(a, b) <==> i < j
    ensures a in DOCUMENTED && b !in DOCUMENTED ==> Before(a, b) && !Before(b, a)
    ensures a !in DOCUMENTED && b !in DOCUMENTED ==> (Before(a, b) <==> TextLess(a, b))
  {
    KnownIsDocumented(a);
    KnownIsDocumented(b);
    forall i, j | 0 <= i < |DOCUMENTED| && 0 <= j < |DOCUMENTED| && a == DOCUMENTED[i] && b == DOCUMENTED[j]
      ensures Before(a, b) <==> i < j
    {
      DocumentedPriority(i);
      DocumentedPriority(j);
    }
  }

  predicate Ascending(codes: seq<string>) {
    forall i, j :: 0 <= i < j < |codes| ==> Before(codes[i], codes[j])
  }

  function Elements(codes: seq<string>): set<string> {
    set c | c in codes
  }

  /** At most one sequence lists a given set of codes in ascending order. */
  lemma {:induction false} AscendingIsUnique(a: seq<string>, b: seq<string>)
    requires Ascending(a) && Ascending(b) && Elements(a) == Elements(b)
    ensures a == b
  {
    if a == [] {
      SomeElement(b);
    } else {
      assert a[0] in Elements(a);
      var i :| 0 <= i < |b| && b[i] == a[0];
      assert b[0] in Elements(b);
      var j :| 0 <= j < |a| && a[j] == b[0];
      BeforeIsTotal(a[0], b[0]);
      assert a[0] == b[0];
      forall c
        ensures c in Elements(a[1..]) <==> c in Elements(b[1..])
      {
        TailElements(a, c);
        TailElements(b, c);
      }
      AscendingIsUnique(a[1..], b[1..]);
    }
  }

  lemma SomeElement(codes: seq<string>)
    ensures codes != [] ==> Elements(codes) != {}
  {
    if codes != [] {
      assert codes[0] in Elements(codes);
    }
  }

  lemma ElementsOfCons(c: string, codes: seq<string>)
    ensures Elements([c] + codes) == {c} + Elements(codes)
  {
    assert ([c] + codes)[0] == c && ([c] + codes)[1..] == codes;
    forall d | d in codes
      ensures d in [c] + codes
    {
      var i :| 0 <= i < |codes| && codes[i] == d;
      assert ([c] + codes)[i + 1] == d;
    }
  }

  lemma TailElements(a: seq<string>, c: string)
    requires Ascending(a) && a != []
    ensures c in Elements(a[1..]) <==> c in Elements(a) && c != a[0]
  {
    BeforeIsTotal(a[0], a[0]);
    if c in Elements(a) && c != a[0] {
      var i :| 0 <= i < |a| && a[i] == c;
      assert a[1..][i - 1] == c;
    }
  }

  /** `codes` with `c` put where it belongs. */
  function Insert(c: string, codes: seq<string>): (r: seq<string>)
    requires Ascending(codes)
    ensures Ascending(r)
    ensures Elements(r) == Elements(codes) + {c}
  {
    if codes == [] then [c]
    else if c == codes[0] then codes
    else if Before(c, codes[0]) then
      ElementsOfCons(c, codes);
      assert Ascending([c] + codes) by {
        forall j | 0 <= j < |codes|
          ensures Before(c, codes[j])
        {
          if j > 0 {
            BeforeIsTransitive(c, codes[0], codes[j]);
          }
        }
      }
      [c] + codes
    else
      var rest := Insert(c, codes[1..]);
      assert Ascending([codes[0]] + rest) by {
        forall j | 0 <= j < |rest|
          ensures Before(codes[0], rest[j])
        {
          BeforeIsTotal(c, codes[0]);
          assert rest[j] in Elements(rest);
        }
      }
      assert codes == [codes[0]] + codes[1..];
      ElementsOfCons(codes[0], codes[1..]);
      ElementsOfCons(codes[0], rest);
      [codes[0]] + rest
  }

  /** The one ascending listing of a set of codes. */
  ghost function Canonical(codes: set<string>): (r: seq<string>)
    ensures Ascending(r) && Elements(r) == codes
  {
    if codes == {} then []
    else
      var c :| c in codes;
      Insert(c, Canonical(codes - {c}))
  }

  /** Drops repeated codes, keeping first occurrences, then sorts. */
  method OrderFailureCodes(codes: seq<string>) returns (ordered: seq<string>)
    ensures ordered == Canonical(Elements(codes))
  {
    var seen: set<string> := {};
    ordered := [];
    for i := 0 to |codes|
      invariant seen == Elements(ordered) == Elements(codes[..i])
      invariant Distinct(ordered)
    {
      if codes[i] !in seen {
        seen := seen + {codes[i]};
        ordered := ordered + [codes[i]];
      }
    }
    var slice := new string[|ordered|](i requires 0 <= i < |ordered| => ordered[i]);
    assert slice[..] == ordered;
    BeforeIsStrictTotal();
    SliceStable(slice, Before);
    ghost var kept := ordered;
    ordered := slice[..];
    forall c
      ensures c in ordered <==> c in kept
    {
      assert c in multiset(ordered) <==> c in multiset(kept);
    }
    assert codes[..|codes|] == codes;
    AscendingIsUnique(ordered, Canonical(Elements(codes)));
  }
}

/** Sorting a slice in place by a given comparison. */
module StableSort {

  /** A strict total order: no two different values tie. */
  ghost predicate StrictTotal<T(!new)>(less: (T, T) -> bool) {
    && (forall a :: !less(a, a))
    && (forall a, b :: a != b ==> less(a, b) != less(b, a))
    && (forall a, b, c :: less(a, b) && less(b, c) ==> less(a, c))
  }

  predicate Sorted<T>(less: (T, T) -> bool, s: seq<T>) {
    forall i, j :: 0 <= i < j < |s| ==> less(s[i], s[j])
  }

  predicate Distinct<T(==)>(s: seq<T>) {
    forall i, j :: 0 <= i < j < |s| ==> s[i] != s[j]
  }

  /**
   Moves `a[n]` down past every element it comes before, to position `j`: the others keep their
   order around it.
   */
  method SiftDown<T(!new)>(a: array<T>, less: (T, T) -> bool, n: nat) returns (j: nat)
    requires n < a.Length
    requires SortedAround(less, a[..], n, n)
    modifies a
    ensures j <= n && SortedAround(less, a[..], n, j)
    ensures j > 0 ==> !less(a[j], a[j - 1])
    ensures multiset(a[..]) == multiset(old(a[..]))
  {
    j := n;
    while j > 0 && less(a[j], a[j - 1])
      invariant 0 <= j <= n
      invariant multiset(a[..]) == multiset(old(a[..]))
      invariant SortedAround(less, a[..], n, j)
    {
      SwapKeepsSortedAround(less, a[..], n, j);
      Exchange(a, j - 1, j);
      j := j - 1;
    }
  }

  /** `s[..n + 1]` is sorted but for how `s[j]` compares with the elements below it. */
  predicate SortedAround<T>(less: (T, T) -> bool, s: seq<T>, n: nat, j: nat)
    requires j <= n < |s|
  {
    && (forall p, q :: 0 <= p < q <= n && p != j && q != j ==> less(s[p], s[q]))
    && (forall q :: j < q <= n ==> less(s[j], s[q]))
  }

  lemma SwapKeepsSortedAround<T>(less: (T, T) -> bool, s: seq<T>, n: nat, j: nat)
    requires 0 < j <= n < |s| && SortedAround(less, s, n, j) && less(s[j], s[j - 1])
    ensures SortedAround(less, s[j - 1 := s[j]][j := s[j - 1]], n, j - 1)
  {
  }

  lemma SortedAroundIsSorted<T(!new)>(less: (T, T) -> bool, s: seq<T>, n: nat, j: nat)
    requires j <= n < |s| && StrictTotal(less) && Distinct(s) && SortedAround(less, s, n, j)
    requires j > 0 ==> !less(s[j], s[j - 1])
    ensures Sorted(less, s[..n + 1])
  {
    if j > 0 {
      assert less(s[j - 1], s[j]);
    }
  }

  method Exchange<T>(a: array<T>, i: nat, j: nat)
    requires i < j < a.Length
    modifies a
    ensures a[..] == old(a[..])[i := old(a[j])][j := old(a[i])]
    ensures multiset(a[..]) == multiset(old(a[..]))
  {
    a[i], a[j] := a[j], a[i];
  }

  /**
   Sorts distinct elements in place. With a strict total order no elements tie, so stability asks
   for nothing more than the sorted permutation.
   */
  method SliceStable<T(!new)>(a: array<T>, less: (T, T) -> bool)
    requires StrictTotal(less)
    requires Distinct(a[..])
    modifies a
    ensures Sorted(less, a[..])
    ensures multiset(a[..]) == multiset(old(a[..]))
  {
    var n := 0;
    while n < a.Length
      invariant 0 <= n <= a.Length
      invariant Sorted(less, a[..n])
      invariant Distinct(a[..])
      invariant multiset(a[..]) == multiset(old(a[..]))
    {
      ghost var was := a[..];
      var j := SiftDown(a, less, n);
      PermutationIsDistinct(was, a[..]);
      SortedAroundIsSorted(less, a[..], n, j);
      assert a[..n + 1] == a[..][..n + 1];
      n := n + 1;
    }
    assert a[..n] == a[..];
  }

  lemma PermutationIsDistinct<T>(a: seq<T>, b: seq<T>)
    requires Distinct(a) && multiset(a) == multiset(b)
    ensures Distinct(b)
  {
    forall i, j | 0 <= i < j < |b|
      ensures b[i] != b[j]
    {
      if b[i] == b[j] {
        assert b == b[..i] + [b[i]] + b[i + 1..j] + [b[j]] + b[j + 1..];
        assert multiset(b)[b[i]] >= 2;
        OccursOnce(a, b[i]);
      }
    }
  }

  lemma DistinctStep<T>(xs: seq<T>)
    requires xs != []
    ensures Distinct(xs) <==> Distinct(xs[..|xs| - 1]) && xs[|xs| - 1] !in xs[..|xs| - 1]
  {
  }

  /** A list is as long as its set of elements exactly when no element repeats. */
  lemma {:induction false} DistinctIffAsLong<T>(xs: seq<T>)
    ensures |set x | x in xs| <= |xs|
    ensures |xs| == |set x | x in xs| <==> Distinct(xs)
  {
    if xs == [] {
      assert (set x | x in xs) == {};
    } else {
      var init, last := xs[..|xs| - 1], xs[|xs| - 1];
      DistinctIffAsLong(init);
      DistinctStep(xs);
      assert xs == init + [last];
      assert (set x | x in xs) == (set x | x in init) + {last};
    }
  }

  lemma {:induction false} OccursOnce<T>(a: seq<T>, c: T)
    requires Distinct(a)
    ensures multiset(a)[c] <= 1
  {
    if a != [] {
      assert a == [a[0]] + a[1..];
      OccursOnce(a[1..], c);
    }
  }
}
