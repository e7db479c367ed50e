/** Searching a parsed bundle, whatever order its objects are iterated in. */
module BundleSearch {
  import opened Basics
  import opened Json

  /** A step from a value to one of its children. */
  datatype Step = Under(key: string) | Index(i: nat)

  type Path = seq<Step>

  function Child(j: Value, step: Step): Option<Value> {
    match (j, step)
    case (Obj(fields), Under(key)) => if key in fields then Some(fields[key]) else None
    case (Arr(items), Index(i)) => if i < |items| then Some(items[i]) else None
    case _ => None
  }

  /** The value at the end of a path. */
  function At(j: Value, path: Path): Option<Value> {
    if path == [] then Some(j)
    else if Child(j, path[0]).None? then None
    else At(Child(j, path[0]).value, path[1..])
  }

  /** `path` leads to an object that carries `key`. */
  predicate Carries(j: Value, path: Path, key: string) {
    At(j, path).Some? && Has(At(j, path).value, key)
  }

  function Carried(j: Value, path: Path, key: string): Value
    requires Carries(j, path, key)
  {
    At(j, path).value.fields[key]
  }

  ghost predicate Occurs(j: Value, key: string) {
    exists path :: Carries(j, path, key)
  }

  ghost predicate OccursOnce(j: Value, key: string) {
    Occurs(j, key) && forall p, q :: Carries(j, p, key) && Carries(j, q, key) ==> p == q
  }

  lemma CarriedBelow(j: Value, step: Step, path: Path, key: string)
    requires Child(j, step).Some? && Carries(Child(j, step).value, path, key)
    ensures Carries(j, [step] + path, key)
    ensures Carried(j, [step] + path, key) == Carried(Child(j, step).value, path, key)
  {
    assert ([step] + path)[1..] == path;
  }

  /** An occurrence is here, or below some child. */
  lemma OccursBelow(j: Value, path: Path, key: string)
    requires Carries(j, path, key) && !Has(j, key)
    ensures path != [] && Child(j, path[0]).Some? && Carries(Child(j, path[0]).value, path[1..], key)
  {
  }

  lemma NotInChildren(j: Value, key: string)
    requires !Has(j, key)
    requires forall step :: Child(j, step).Some? ==> !Occurs(Child(j, step).value, key)
    ensures !Occurs(j, key)
  {
    if path :| Carries(j, path, key) {
      OccursBelow(j, path, key);
    }
  }

  /**
   Where some iteration order finds `key`: an object's own key comes before anything below it, the
   members of an object come in any order, and an element of an array only when none before it has the key.
   */
  ghost predicate Finds(j: Value, path: Path, key: string)
    decreases path
  {
    if path == [] then Has(j, key)
    else
      match (j, path[0])
      case (Obj(fields), Under(k)) => key !in fields && k in fields && Finds(fields[k], path[1..], key)
      case (Arr(items), Index(i)) =>
        i < |items| && (forall h | 0 <= h < i :: !Occurs(items[h], key)) && Finds(items[i], path[1..], key)
      case _ => false
  }

  /** What is found is an occurrence. */
  lemma {:induction false} FoundCarries(j: Value, path: Path, key: string)
    requires Finds(j, path, key)
    ensures Carries(j, path, key)
    decreases path
  {
    if path != [] {
      FoundCarries(Child(j, path[0]).value, path[1..], key);
    }
  }

  lemma FoundInObject(fields: map<string, Value>, k: string, path: Path, key: string)
    requires key !in fields && k in fields && Finds(fields[k], path, key)
    ensures Finds(Obj(fields), [Under(k)] + path, key)
  {
    assert ([Under(k)] + path)[1..] == path;
  }

  lemma FoundInArray(items: seq<Value>, i: nat, path: Path, key: string)
    requires i < |items| && (forall h | 0 <= h < i :: !Occurs(items[h], key)) && Finds(items[i], path, key)
    ensures Finds(Arr(items), [Index(i)] + path, key)
  {
    assert ([Index(i)] + path)[1..] == path;
  }

  /** The first value stored under `key` anywhere in the structure, in some iteration order. */
  method FindKey(j: Value, key: string) returns (found: Option<Value>, ghost path: Path)
    ensures found.Some? <==> Occurs(j, key)
    ensures found.Some? ==> Finds(j, path, key) && Carries(j, path, key) && Carried(j, path, key) == found.value
    decreases j
  {
    path := [];
    found := None;
    match j
    case Obj(fields) =>
      if key in fields {
        assert Carries(j, [], key);
        return Some(fields[key]), [];
      }
      var left := fields.Keys;
      while left != {}
        invariant left <= fields.Keys
        invariant forall k | k in fields.Keys - left :: !Occurs(fields[k], key)
        decreases |left|
      {
        var k :| k in left;
        found, path := FindKey(fields[k], key);
        if found.Some? {
          CarriedBelow(j, Under(k), path, key);
          FoundInObject(fields, k, path, key);
          return found, [Under(k)] + path;
        }
        left := left - {k};
      }
      NotInChildren(j, key);
      found := None;
    case Arr(items) =>
      for i := 0 to |items|
        invariant forall k | 0 <= k < i :: !Occurs(items[k], key)
      {
        found, path := FindKey(items[i], key);
        if found.Some? {
          CarriedBelow(j, Index(i), path, key);
          FoundInArray(items, i, path, key);
          return found, [Index(i)] + path;
        }
      }
      NotInChildren(j, key);
      found := None;
    case _ =>
      NotInChildren(j, key);
  }

  /** Some order finds a key exactly when it occurs. */
  lemma {:induction false} OccursIffFound(j: Value, key: string)
    ensures Occurs(j, key) <==> exists path :: Finds(j, path, key)
    decreases j
  {
    if path :| Finds(j, path, key) {
      FoundCarries(j, path, key);
    }
    if Occurs(j, key) {
      var path := SomeFind(j, key);
      assert Finds(j, path, key);
    }
  }

  lemma {:induction false} SomeFind(j: Value, key: string) returns (path: Path)
    requires Occurs(j, key)
    ensures Finds(j, path, key)
    decreases j
  {
    if Has(j, key) {
      path := [];
    } else {
      var p: Path :| Carries(j, p, key);
      OccursBelow(j, p, key);
      match j
      case Obj(fields) =>
        var below := SomeFind(fields[p[0].key], key);
        FoundInObject(fields, p[0].key, below, key);
        path := [p[0]] + below;
      case Arr(items) =>
        var i := FirstWith(items, p[0].i, key);
        var below := SomeFind(items[i], key);
        FoundInArray(items, i, below, key);
        path := [Index(i)] + below;
    }
  }

  lemma {:induction false} FirstWith(items: seq<Value>, n: nat, key: string) returns (i: nat)
    requires n < |items| && Occurs(items[n], key)
    ensures i <= n && Occurs(items[i], key) && forall h | 0 <= h < i :: !Occurs(items[h], key)
    decreases n
  {
    if h: nat :| h < n && Occurs(items[h], key) {
      i := FirstWith(items, h, key);
    } else {
      i := n;
    }
  }

  /** An object's own key hides every occurrence below it. */
  lemma OwnKeyIsFound(j: Value, path: Path, key: string)
    requires Has(j, key)
    ensures Finds(j, path, key) <==> path == []
  {
  }

  /** Wherever two members of a searched object have the key, each can be found. */
  lemma EitherMemberIsFound(fields: map<string, Value>, k: string, l: string, key: string) returns (p: Path, q: Path)
    requires key !in fields && k in fields && l in fields && k != l
    requires Occurs(fields[k], key) && Occurs(fields[l], key)
    ensures Finds(Obj(fields), p, key) && Finds(Obj(fields), q, key) && p != q && p[0] == Under(k) && q[0] == Under(l)
  {
    var below := SomeFind(fields[k], key);
    FoundInObject(fields, k, below, key);
    p := [Under(k)] + below;
    var other := SomeFind(fields[l], key);
    FoundInObject(fields, l, other, key);
    q := [Under(l)] + other;
  }

  datatype Found = Found(envelope: Value, certificates: Option<Value>)

  const ENVELOPE := "dsseEnvelope"
  const CERTIFICATES := "certificates"

  /** Certificates that some order finds in an object, or none when there are none. */
  ghost predicate FindsCertificates(holder: Value, certificates: Option<Value>) {
    match certificates
    case Some(c) => exists q :: Finds(holder, q, CERTIFICATES) && Carries(holder, q, CERTIFICATES)
                                && Carried(holder, q, CERTIFICATES) == c
    case None => !Occurs(holder, CERTIFICATES)
  }

  /** The result pairs an envelope that some order finds with certificates found inside that same object. */
  ghost predicate PairedAt(j: Value, path: Path, r: Found) {
    && Finds(j, path, ENVELOPE) && Carries(j, path, ENVELOPE) && r.envelope == Carried(j, path, ENVELOPE)
    && FindsCertificates(At(j, path).value, r.certificates)
  }

  lemma PairedBelow(j: Value, step: Step, path: Path, r: Found)
    requires Child(j, step).Some? && PairedAt(Child(j, step).value, path, r)
    requires Finds(j, [step] + path, ENVELOPE)
    ensures PairedAt(j, [step] + path, r)
  {
    CarriedBelow(j, step, path, ENVELOPE);
    assert ([step] + path)[1..] == path;
  }

  /** An object carrying an envelope, with the certificates found inside it; searched in some iteration order. */
  method FindBundle(j: Value) returns (r: Option<Found>, ghost path: Path)
    ensures r.Some? <==> Occurs(j, "dsseEnvelope")
    ensures r.Some? ==> PairedAt(j, path, r.value)
    ensures r.Some? ==> Carries(j, path, "dsseEnvelope") && r.value.envelope == Carried(j, path, "dsseEnvelope")
    ensures r.Some? ==> (r.value.certificates.Some? <==> Occurs(At(j, path).value, "certificates"))
    decreases j
  {
    path := [];
    r := None;
    match j
    case Obj(fields) =>
      if ENVELOPE in fields {
        var certificates, where := FindKey(j, CERTIFICATES);
        assert Carries(j, [], ENVELOPE);
        return Some(Found(fields[ENVELOPE], certificates)), [];
      }
      var left := fields.Keys;
      while left != {}
        invariant left <= fields.Keys
        invariant forall k | k in fields.Keys - left :: !Occurs(fields[k], ENVELOPE)
        decreases |left|
      {
        var k :| k in left;
        r, path := FindBundle(fields[k]);
        if r.Some? {
          FoundInObject(fields, k, path, ENVELOPE);
          PairedBelow(j, Under(k), path, r.value);
          return r, [Under(k)] + path;
        }
        left := left - {k};
      }
      NotInChildren(j, ENVELOPE);
      r := None;
    case Arr(items) =>
      for i := 0 to |items|
        invariant forall k | 0 <= k < i :: !Occurs(items[k], ENVELOPE)
      {
        r, path := FindBundle(items[i]);
        if r.Some? {
          FoundInArray(items, i, path, ENVELOPE);
          PairedBelow(j, Index(i), path, r.value);
          return r, [Index(i)] + path;
        }
      }
      NotInChildren(j, ENVELOPE);
      r := None;
    case _ =>
      NotInChildren(j, ENVELOPE);
  }

  /** Only one place where the key can be found. */
  ghost predicate FoundOnce(j: Value, key: string) {
    forall p, q :: Finds(j, p, key) && Finds(j, q, key) ==> p == q
  }

  /**
   When an envelope, and certificates beside it, can be found in one place only, any two searches agree,
   so the result does not depend on the iteration order.
   */
  lemma UniqueBundleIsOrderFree(j: Value, p: Path, a: Found, q: Path, b: Found)
    requires PairedAt(j, p, a) && PairedAt(j, q, b)
    requires FoundOnce(j, ENVELOPE) && FoundOnce(At(j, p).value, CERTIFICATES)
    ensures a == b
  {
    assert p == q;
    var holder := At(j, p).value;
    OccursIffFound(holder, CERTIFICATES);
    if a.certificates.Some? && b.certificates.Some? {
      var x :| Finds(holder, x, CERTIFICATES) && Carries(holder, x, CERTIFICATES)
               && Carried(holder, x, CERTIFICATES) == a.certificates.value;
      var y :| Finds(holder, y, CERTIFICATES) && Carries(holder, y, CERTIFICATES)
               && Carried(holder, y, CERTIFICATES) == b.certificates.value;
      assert x == y;
    }
  }

  /** A key that occurs once is found in one place only. */
  lemma OccurringOnceIsFoundOnce(j: Value, key: string)
    requires Occurs(j, key) ==> OccursOnce(j, key)
    ensures FoundOnce(j, key)
  {
    forall p, q | Finds(j, p, key) && Finds(j, q, key)
      ensures p == q
    {
      FoundCarries(j, p, key);
      FoundCarries(j, q, key);
      assert Carries(j, p, key) && Carries(j, q, key);
    }
  }

  /** Two members of one object with an envelope each: a search may return either, with its own certificates. */
  lemma TwoBundlesAreAmbiguous(fields: map<string, Value>, k: string, l: string)
      returns (p: Path, a: Found, q: Path, b: Found)
    requires ENVELOPE !in fields && k in fields && l in fields && k != l
    requires Occurs(fields[k], ENVELOPE) && Occurs(fields[l], ENVELOPE)
    ensures PairedAt(Obj(fields), p, a) && PairedAt(Obj(fields), q, b)
    ensures p != [] && q != [] && p[0] == Under(k) && q[0] == Under(l)
  {
    p, q := EitherMemberIsFound(fields, k, l, ENVELOPE);
    a := SomePairing(Obj(fields), p);
    b := SomePairing(Obj(fields), q);
  }

  /** Every place an envelope is found in gives a result. */
  lemma SomePairing(j: Value, path: Path) returns (r: Found)
    requires Finds(j, path, ENVELOPE)
    ensures PairedAt(j, path, r)
  {
    FoundCarries(j, path, ENVELOPE);
    var holder := At(j, path).value;
    if Occurs(holder, CERTIFICATES) {
      var q := SomeFind(holder, CERTIFICATES);
      FoundCarries(holder, q, CERTIFICATES);
      r := Found(Carried(j, path, ENVELOPE), Some(Carried(holder, q, CERTIFICATES)));
    } else {
      r := Found(Carried(j, path, ENVELOPE), None);
    }
  }
}

/** Decimal strings as 64-bit unsigned integers. */
module Decimals {
  import opened Text

  const TWO_64: nat := 0x1_0000_0000_0000_0000

  /** The longest prefix of digits. */
  function DigitRun(s: string): (run: string)
    ensures AllDigits(run) && run <= s
    ensures |run| < |s| ==> !IsDigit(s[|run|])
  {
    if s == "" || !IsDigit(s[0]) then "" else [s[0]] + DigitRun(s[1..])
  }

  /** The string branch of `parseUint`: stops at the first character that is no digit, and wraps around. */
  method ParseUint(s: string) returns (u: nat)
    ensures u == Decimal(DigitRun(s)) % TWO_64
  {
    u := 0;
    DigitRunBounds(s);
    for i := 0 to |s|
      invariant i <= |DigitRun(s)|
      invariant u == Decimal(s[..i]) % TWO_64
    {
      if s[i] < '0' || s[i] > '9' {
        assert s[..i] == DigitRun(s);
        return;
      }
      DigitInRun(s, i);
      assert s[..i + 1][..i] == s[..i];
      WrapStep(Decimal(s[..i]), DigitValue(s[i]));
      u := (u * 10 + DigitValue(s[i])) % TWO_64;
    }
    assert s[..|s|] == s == DigitRun(s);
  }

  lemma DigitRunBounds(s: string)
    ensures |DigitRun(s)| <= |s| && forall i | 0 <= i <= |DigitRun(s)| :: s[..i] == DigitRun(s)[..i]
  {
  }

  lemma DigitInRun(s: string, i: nat)
    requires i <= |DigitRun(s)| && i < |s| && IsDigit(s[i])
    ensures i < |DigitRun(s)|
  {
  }

  lemma WrapStep(x: nat, d: nat)
    ensures (x % TWO_64 * 10 + d) % TWO_64 == (x * 10 + d) % TWO_64
  {
    var q := x / TWO_64;
    assert x == q * TWO_64 + x % TWO_64;
    WrapMultiple(x % TWO_64 * 10 + d, q * 10);
  }

  lemma WrapMultiple(x: nat, q: nat)
    ensures (x + q * TWO_64) % TWO_64 == x % TWO_64
  {
  }

  /** The shortest decimal form of a number, as `%d` prints it. */
  function Print(n: nat): (s: string)
    ensures s != "" && AllDigits(s)
  {
    var digit := [('0' as int + n % 10) as char];
    if n < 10 then digit else Print(n / 10) + digit
  }

  lemma {:induction false} PrintedValue(n: nat)
    ensures Decimal(Print(n)) == n
  {
    var digit := [('0' as int + n % 10) as char];
    if n < 10 {
      assert digit[..0] == "";
    } else {
      PrintedValue(n / 10);
      assert Print(n)[..|Print(n)| - 1] == Print(n / 10);
    }
  }

  lemma {:induction false} AllDigitsRun(s: string)
    requires AllDigits(s)
    ensures DigitRun(s) == s
  {
    if s != "" {
      AllDigitsRun(s[1..]);
    }
  }

  /** Parsing inverts printing, whatever follows, for every number of 64 bits. */
  lemma ParseInvertsPrint(n: nat, rest: string)
    requires n < 0x1_0000_0000_0000_0000 && (rest == "" || !IsDigit(rest[0]))
    ensures Decimal(DigitRun(Print(n) + rest)) % TWO_64 == n
  {
    PrintedValue(n);
    RunOfConcat(Print(n), rest);
  }

  lemma {:induction false} RunOfConcat(s: string, rest: string)
    requires AllDigits(s) && (rest == "" || !IsDigit(rest[0]))
    ensures DigitRun(s + rest) == s
  {
    if s != "" {
      assert (s + rest)[1..] == s[1..] + rest;
      RunOfConcat(s[1..], rest);
    } else {
      assert s + rest == rest;
    }
  }
}
