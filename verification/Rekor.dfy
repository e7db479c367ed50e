/** The optional binding of a bundle to a transparency log. */
module Rekor {
  import opened Basics
  import opened Json
  import opened Text
  import opened Decimals
  import opened BundleSearch
  import opened Merkle

  datatype RekorInclusion = RekorInclusion(
    logIndex: nat,
    treeSize: nat,
    rootHash: Hash,
    proof: seq<Hash>,
    leafData: Bytes
  )

  /** The part of the trust root that concerns the log; an empty root hash pins nothing. */
  datatype LogTrust = LogTrust(requireInclusion: bool, rekorRootHash: Hash)

  /** Decoding that the library does: base64 in its accepted alphabets, and JSON numbers as uint64. */
  datatype Decoder = Decoder(base64: string -> Option<Bytes>, number: real -> nat)

  function DecodeB64(dec: Decoder, v: Value): Bytes {
    if v.Str? && v.s != "" then dec.base64(v.s).GetOr([]) else []
  }

  function UintOf(dec: Decoder, v: Value): nat {
    match v
    case Num(n) => dec.number(n)
    case Str(s) => Decimal(DigitRun(s)) % TWO_64
    case _ => 0
  }

  /** Bytes are what the library decodes a non-empty text to, and none for anything else. */
  lemma BytesRead(dec: Decoder, v: Value, b: Bytes)
    ensures b != [] ==> (DecodeB64(dec, v) == b <==> v.Str? && v.s != "" && dec.base64(v.s) == Some(b))
    ensures v.Str? && v.s != "" && dec.base64(v.s).None? ==> DecodeB64(dec, v) == []
  {
  }

  method DecodeUint(dec: Decoder, v: Value) returns (u: nat)
    ensures u == UintOf(dec, v)
    ensures v.Num? ==> u == dec.number(v.n)
    ensures !v.Num? && !v.Str? ==> u == 0
  {
    match v
    case Num(n) => u := dec.number(n);
    case Str(s) => u := ParseUint(s);
    case _ => u := 0;
  }

  function DecodeHashes(dec: Decoder, hashes: seq<Value>): (proof: seq<Hash>)
    ensures |proof| == |hashes|
  {
    seq(|hashes|, i requires 0 <= i < |hashes| => DecodeB64(dec, hashes[i]))
  }

  /** The inclusion proof in the first of the entries, if there is one. */
  function InclusionIn(dec: Decoder, entries: Value): Option<RekorInclusion> {
    if !entries.Arr? || entries.items == [] || !Member(entries.items[0], "inclusionProof").Obj? then None
    else
      var entry := entries.items[0];
      var raw := Member(entry, "inclusionProof");
      Some(RekorInclusion(UintOf(dec, Member(raw, "logIndex")), UintOf(dec, Member(raw, "treeSize")),
                          DecodeB64(dec, Member(raw, "rootHash")),
                          DecodeHashes(dec, ItemsMember(raw, "hashes")),
                          DecodeB64(dec, Member(entry, "canonicalizedBody"))))
  }

  const LOG_ENTRIES := "tlogEntries"

  /** An inclusion that some iteration order of the bundle extracts. */
  ghost predicate MayExtract(dec: Decoder, root: Value, inc: Option<RekorInclusion>) {
    if Occurs(root, LOG_ENTRIES) then
      exists path :: ExtractsAt(dec, root, path, inc)
    else
      inc.None?
  }

  ghost predicate ExtractsAt(dec: Decoder, root: Value, path: Path, inc: Option<RekorInclusion>) {
    Finds(root, path, LOG_ENTRIES) && Carries(root, path, LOG_ENTRIES)
    && inc == InclusionIn(dec, Carried(root, path, LOG_ENTRIES))
  }

  /** Entries at the top of the bundle are the ones extracted, whatever lies below. */
  lemma TopEntriesAreExtracted(dec: Decoder, root: Value, inc: Option<RekorInclusion>)
    requires Has(root, LOG_ENTRIES)
    ensures MayExtract(dec, root, inc) <==> inc == InclusionIn(dec, Member(root, LOG_ENTRIES))
  {
    assert Carries(root, [], LOG_ENTRIES);
    forall path
      ensures ExtractsAt(dec, root, path, inc) <==> path == [] && inc == InclusionIn(dec, Member(root, LOG_ENTRIES))
    {
      OwnKeyIsFound(root, path, LOG_ENTRIES);
    }
    assert ExtractsAt(dec, root, [], inc) <==> inc == InclusionIn(dec, Member(root, LOG_ENTRIES));
  }

  lemma ExtractedFrom(dec: Decoder, root: Value, path: Path)
    requires Finds(root, path, LOG_ENTRIES) && Carries(root, path, LOG_ENTRIES)
    ensures MayExtract(dec, root, InclusionIn(dec, Carried(root, path, LOG_ENTRIES)))
  {
    assert ExtractsAt(dec, root, path, InclusionIn(dec, Carried(root, path, LOG_ENTRIES)));
  }

  method ExtractRekorInclusion(dec: Decoder, root: Value) returns (inc: Option<RekorInclusion>)
    ensures MayExtract(dec, root, inc)
  {
    var entries, path := FindKey(root, LOG_ENTRIES);
    if entries.None? {
      return None;
    }
    ExtractedFrom(dec, root, path);
    if !entries.value.Arr? || |entries.value.items| == 0 {
      return None;
    }
    var entry := entries.value.items[0];
    var raw := Member(entry, "inclusionProof");
    if !raw.Obj? {
      return None;
    }
    var logIndex := DecodeUint(dec, Member(raw, "logIndex"));
    var treeSize := DecodeUint(dec, Member(raw, "treeSize"));
    var hashes := ItemsMember(raw, "hashes");
    var proof: seq<Hash> := [];
    for i := 0 to |hashes|
      invariant proof == DecodeHashes(dec, hashes[..i])
    {
      proof := proof + [DecodeB64(dec, hashes[i])];
    }
    assert hashes[..|hashes|] == hashes;
    inc := Some(RekorInclusion(logIndex, treeSize, DecodeB64(dec, Member(raw, "rootHash")), proof,
                               DecodeB64(dec, Member(entry, "canonicalizedBody"))));
  }

  predicate Included(h: Digest, inc: RekorInclusion) {
    Verifies(h, inc.logIndex, inc.treeSize, inc.leafData, inc.proof, inc.rootHash)
  }

  /** The decision on an extracted inclusion. */
  predicate LogAccepts(h: Digest, inc: Option<RekorInclusion>, trust: LogTrust) {
    match inc
    case None => !trust.requireInclusion
    case Some(i) => Included(h, i) && (trust.rekorRootHash == [] || i.rootHash == trust.rekorRootHash)
  }

  /** A place of log entries that some iteration order finds. */
  ghost predicate FindsEntries(root: Value, path: Path) {
    Finds(root, path, "tlogEntries") && Carries(root, path, "tlogEntries")
  }

  /** The first log entry has a proof. */
  predicate HasProof(entries: Value) {
    entries.Arr? && entries.items != [] && Member(entries.items[0], "inclusionProof").Obj?
  }

  /** The proof of the first log entry leads from its body to the root it states. */
  predicate ProofVerifies(h: Digest, dec: Decoder, entries: Value)
    requires HasProof(entries)
  {
    var raw := Member(entries.items[0], "inclusionProof");
    Verifies(h, UintOf(dec, Member(raw, "logIndex")), UintOf(dec, Member(raw, "treeSize")),
             DecodeB64(dec, Member(entries.items[0], "canonicalizedBody")),
             DecodeHashes(dec, ItemsMember(raw, "hashes")), DecodeB64(dec, Member(raw, "rootHash")))
  }

  /** No root is pinned, or it is the one the proof states. */
  predicate RootIsPinned(dec: Decoder, entries: Value, pinned: Hash)
    requires HasProof(entries)
  {
    pinned == [] || DecodeB64(dec, Member(Member(entries.items[0], "inclusionProof"), "rootHash")) == pinned
  }

  predicate ProofHolds(h: Digest, dec: Decoder, entries: Value, pinned: Hash)
    requires HasProof(entries)
  {
    ProofVerifies(h, dec, entries) && RootIsPinned(dec, entries, pinned)
  }

  /**
   Accepting, and rejecting, is each the decision on an inclusion that some iteration order extracts. Without
   entries, or with entries that hold no proof, it is whether none is required; with proofs, it is whether they
   verify, to the pinned root if there is one.
   */
  method VerifyRekorInclusion(h: Digest, dec: Decoder, root: Value, trust: LogTrust) returns (ok: bool)
    ensures ok ==> exists inc :: MayExtract(dec, root, inc) && LogAccepts(h, inc, trust)
    ensures !ok ==> exists inc :: MayExtract(dec, root, inc) && !LogAccepts(h, inc, trust)
    ensures !Occurs(root, "tlogEntries") ==> (ok <==> !trust.requireInclusion)
    ensures (forall path | FindsEntries(root, path) :: !HasProof(Carried(root, path, "tlogEntries"))) ==>
              (ok <==> !trust.requireInclusion)
    ensures Occurs(root, "tlogEntries")
            && (forall path | FindsEntries(root, path) ::
                  var entries := Carried(root, path, "tlogEntries");
                  HasProof(entries) && ProofHolds(h, dec, entries, trust.rekorRootHash))
            ==> ok
    ensures Occurs(root, "tlogEntries")
            && (forall path | FindsEntries(root, path) ::
                  var entries := Carried(root, path, "tlogEntries");
                  HasProof(entries) && !ProofHolds(h, dec, entries, trust.rekorRootHash))
            ==> !ok
  {
    var extracted := ExtractRekorInclusion(dec, root);
    if extracted.None? {
      return !trust.requireInclusion;
    }
    var i := extracted.value;
    if !Included(h, i) {
      return false;
    }
    if |trust.rekorRootHash| > 0 && i.rootHash != trust.rekorRootHash {
      return false;
    }
    ok := true;
  }

  /** What an inclusion shows about the log it has the root of. */
  function LogFinding(h: Digest, inc: RekorInclusion, log: seq<Bytes>): Finding
    requires Included(h, inc) && inc.rootHash == TreeHash(h, log)
  {
    FindingOf(h, inc.logIndex, inc.treeSize, inc.leafData, inc.proof, log)
  }

  lemma AcceptedHasLogRoot(h: Digest, inc: Option<RekorInclusion>, trust: LogTrust, log: seq<Bytes>)
    requires Sized(h) && trust.requireInclusion && trust.rekorRootHash == TreeHash(h, log) && LogAccepts(h, inc, trust)
    ensures inc.Some? && Included(h, inc.value) && inc.value.rootHash == TreeHash(h, log)
  {
    assert |TreeHash(h, log)| == HASH_SIZE;
  }

  /** The body is entry `entry` of the log; its index is the claimed one exactly as far as the addresses agree. */
  predicate IsLogged(h: Digest, inc: RekorInclusion, log: seq<Bytes>, entry: nat) {
    && entry < |log| && log[entry] == inc.leafData && inc.proof == AuditPath(h, entry, log)
    && inc.logIndex < inc.treeSize
    && (inc.treeSize == |log| ==> entry == inc.logIndex)
    && (entry == inc.logIndex <==>
          inc.logIndex < |log| && Address(inc.logIndex, |log|) == Address(inc.logIndex, inc.treeSize))
  }

  /**
   With inclusion required and the root of a log pinned, acceptance puts the decoded body into that log,
   whatever index, size and path the bundle claims, or following the proof yields two inputs with one hash.
   */
  lemma AcceptedBodyIsLogged(h: Digest, inc: Option<RekorInclusion>, trust: LogTrust, log: seq<Bytes>)
    requires Sized(h) && trust.requireInclusion && trust.rekorRootHash == TreeHash(h, log) && LogAccepts(h, inc, trust)
    ensures inc.Some? && Included(h, inc.value) && inc.value.rootHash == TreeHash(h, log)
    ensures var f := LogFinding(h, inc.value, log);
            if f.Entry? then IsLogged(h, inc.value, log, f.index) else Collides(h, f.a, f.b)
  {
    AcceptedHasLogRoot(h, inc, trust, log);
    var i := inc.value;
    VerifiedLeafIsMember(h, i.logIndex, i.treeSize, log, i.leafData, i.proof);
    var f := LogFinding(h, i, log);
    if f.Entry? {
      ClaimedIndexIsTrueIff(i.logIndex, i.treeSize, |log|, f.index);
    }
  }

  /** Any entry of any log, with its own audit path and the log's root pinned, is accepted. */
  lemma LoggedBodyIsAccepted(h: Digest, trust: LogTrust, log: seq<Bytes>, entry: nat)
    requires entry < |log| && trust.rekorRootHash == TreeHash(h, log)
    ensures LogAccepts(h, Some(RekorInclusion(entry, |log|, TreeHash(h, log), AuditPath(h, entry, log), log[entry])), trust)
  {
    AuditPathVerifies(h, entry, log);
  }

  /** How a log entry and its proof are written: numbers in decimal, bytes in an encoding that is decoded. */
  function WrittenEntries(enc: Bytes -> string, h: Digest, log: seq<Bytes>, entry: nat): Value
    requires entry < |log|
  {
    var path := AuditPath(h, entry, log);
    Arr([Obj(map["canonicalizedBody" := Str(enc(log[entry])),
                 "inclusionProof" := Obj(map["logIndex" := Str(Print(entry)), "treeSize" := Str(Print(|log|)),
                                             "rootHash" := Str(enc(TreeHash(h, log))),
                                             "hashes" := Arr(seq(|path|, i requires 0 <= i < |path| => Str(enc(path[i]))))])])])
  }

  ghost predicate Encodes(enc: Bytes -> string, dec: Decoder) {
    forall b :: enc(b) != "" && dec.base64(enc(b)) == Some(b)
  }

  lemma PrintedNumber(dec: Decoder, n: nat)
    requires n < 0x1_0000_0000_0000_0000
    ensures UintOf(dec, Str(Print(n))) == n
  {
    ParseInvertsPrint(n, "");
    assert Print(n) + "" == Print(n);
  }

  lemma WrittenHashes(enc: Bytes -> string, dec: Decoder, path: seq<Hash>)
    requires Encodes(enc, dec)
    ensures DecodeHashes(dec, seq(|path|, i requires 0 <= i < |path| => Str(enc(path[i])))) == path
  {
  }

  /** Index, size, root, path and body of an entry are read back from where they are written. */
  lemma WrittenEntryIsRead(enc: Bytes -> string, dec: Decoder, h: Digest, log: seq<Bytes>, entry: nat)
    requires Encodes(enc, dec) && entry < |log| < 0x1_0000_0000_0000_0000
    ensures InclusionIn(dec, WrittenEntries(enc, h, log, entry))
         == Some(RekorInclusion(entry, |log|, TreeHash(h, log), AuditPath(h, entry, log), log[entry]))
  {
    hide TreeHash, AuditPath, DecodeHashes, Print, UintOf;
    PrintedNumber(dec, entry);
    PrintedNumber(dec, |log|);
    WrittenHashes(enc, dec, AuditPath(h, entry, log));
  }

  /**
   A bundle whose one place for log entries holds an entry of a log with its proof is read as that entry, and
   accepted where the root of the log is pinned, or none.
   */
  lemma WrittenBundleIsAccepted(enc: Bytes -> string, h: Digest, dec: Decoder, root: Value, path: Path, trust: LogTrust,
                                log: seq<Bytes>, entry: nat, inc: Option<RekorInclusion>)
    requires Encodes(enc, dec) && entry < |log| < 0x1_0000_0000_0000_0000
    requires FindsEntries(root, path) && FoundOnce(root, "tlogEntries")
    requires Carried(root, path, "tlogEntries") == WrittenEntries(enc, h, log, entry)
    requires trust.rekorRootHash == [] || trust.rekorRootHash == TreeHash(h, log)
    requires MayExtract(dec, root, inc)
    ensures inc.Some? && inc.value.leafData == log[entry] && inc.value.logIndex == entry && LogAccepts(h, inc, trust)
  {
    hide WrittenEntries, InclusionIn;
    WrittenEntryIsRead(enc, dec, h, log, entry);
    assert Occurs(root, LOG_ENTRIES);
    var where :| ExtractsAt(dec, root, where, inc);
    assert where == path;
    AuditPathVerifies(h, entry, log);
  }
}

/** Whether the envelope and the log entries of a bundle are searched into the same object. */
module BundleSources {
  import opened Basics
  import opened Json
  import opened BundleSearch
  import opened Merkle
  import opened Rekor

  /** Whatever order is taken, the log entries lie in the object that carries the envelope. */
  ghost predicate AlwaysPaired(j: Value) {
    forall p, q :: Finds(j, p, ENVELOPE) && Finds(j, q, LOG_ENTRIES) ==> p <= q
  }

  ghost predicate IsFirst(items: seq<Value>, i: nat, key: string)
    requires i < |items|
  {
    Occurs(items[i], key) && forall h | 0 <= h < i :: !Occurs(items[h], key)
  }

  /**
   On the way to both there is one member, or one array element, that has either of them, down to the
   object that carries the envelope.
   */
  ghost predicate OneSource(j: Value)
    decreases j
  {
    if !Occurs(j, ENVELOPE) || !Occurs(j, LOG_ENTRIES) || Has(j, ENVELOPE) then true
    else if Has(j, LOG_ENTRIES) then false
    else
      match j
      case Obj(fields) =>
        forall k, l | k in fields && l in fields && Occurs(fields[k], ENVELOPE) && Occurs(fields[l], LOG_ENTRIES) ::
          k == l && OneSource(fields[k])
      case Arr(items) =>
        forall i, l | 0 <= i < |items| && 0 <= l < |items|
                      && IsFirst(items, i, ENVELOPE) && IsFirst(items, l, LOG_ENTRIES) ::
          i == l && OneSource(items[i])
      case _ => true
  }

  lemma FoundOccurs(j: Value, path: Path, key: string)
    requires Finds(j, path, key)
    ensures Occurs(j, key)
  {
    FoundCarries(j, path, key);
  }

  lemma {:induction false} OneSourcePairs(j: Value, p: Path, q: Path)
    requires OneSource(j) && Finds(j, p, ENVELOPE) && Finds(j, q, LOG_ENTRIES)
    ensures p <= q
    decreases j
  {
    FoundOccurs(j, p, ENVELOPE);
    FoundOccurs(j, q, LOG_ENTRIES);
    if Has(j, ENVELOPE) {
      OwnKeyIsFound(j, p, ENVELOPE);
    } else if !Has(j, LOG_ENTRIES) {
      var a, b := Child(j, p[0]).value, Child(j, q[0]).value;
      FoundOccurs(a, p[1..], ENVELOPE);
      FoundOccurs(b, q[1..], LOG_ENTRIES);
      assert p[0] == q[0] && OneSource(a) by {
        match j
        case Obj(fields) =>
        case Arr(items) =>
          assert IsFirst(items, p[0].i, ENVELOPE) && IsFirst(items, q[0].i, LOG_ENTRIES);
      }
      OneSourcePairs(a, p[1..], q[1..]);
      assert p == [p[0]] + p[1..] && q == [q[0]] + q[1..];
    }
  }

  lemma PairedBelowStep(j: Value, child: Value, step: Step)
    requires AlwaysPaired(j)
    requires forall p | Finds(child, p, ENVELOPE) :: Finds(j, [step] + p, ENVELOPE)
    requires forall q | Finds(child, q, LOG_ENTRIES) :: Finds(j, [step] + q, LOG_ENTRIES)
    ensures AlwaysPaired(child)
  {
    forall p, q | Finds(child, p, ENVELOPE) && Finds(child, q, LOG_ENTRIES)
      ensures p <= q
    {
      assert [step] + p <= [step] + q;
      assert p == ([step] + p)[1..] && q == ([step] + q)[1..];
    }
  }

  lemma PairedMembers(fields: map<string, Value>, k: string, l: string)
    requires ENVELOPE !in fields && LOG_ENTRIES !in fields && k in fields && l in fields
    requires Occurs(fields[k], ENVELOPE) && Occurs(fields[l], LOG_ENTRIES) && AlwaysPaired(Obj(fields))
    ensures k == l && AlwaysPaired(fields[k])
  {
    var p := SomeFind(fields[k], ENVELOPE);
    var q := SomeFind(fields[l], LOG_ENTRIES);
    FoundInObject(fields, k, p, ENVELOPE);
    FoundInObject(fields, l, q, LOG_ENTRIES);
    assert [Under(k)] + p <= [Under(l)] + q;
    assert ([Under(k)] + p)[0] == ([Under(l)] + q)[0];
    forall path | Finds(fields[k], path, ENVELOPE)
      ensures Finds(Obj(fields), [Under(k)] + path, ENVELOPE)
    {
      FoundInObject(fields, k, path, ENVELOPE);
    }
    forall path | Finds(fields[k], path, LOG_ENTRIES)
      ensures Finds(Obj(fields), [Under(k)] + path, LOG_ENTRIES)
    {
      FoundInObject(fields, k, path, LOG_ENTRIES);
    }
    PairedBelowStep(Obj(fields), fields[k], Under(k));
  }

  lemma PairedElements(items: seq<Value>, i: nat, l: nat)
    requires i < |items| && l < |items| && IsFirst(items, i, ENVELOPE) && IsFirst(items, l, LOG_ENTRIES)
    requires AlwaysPaired(Arr(items))
    ensures i == l && AlwaysPaired(items[i])
  {
    var p := SomeFind(items[i], ENVELOPE);
    var q := SomeFind(items[l], LOG_ENTRIES);
    FoundInArray(items, i, p, ENVELOPE);
    FoundInArray(items, l, q, LOG_ENTRIES);
    assert [Index(i)] + p <= [Index(l)] + q;
    assert ([Index(i)] + p)[0] == ([Index(l)] + q)[0];
    forall path | Finds(items[i], path, ENVELOPE)
      ensures Finds(Arr(items), [Index(i)] + path, ENVELOPE)
    {
      FoundInArray(items, i, path, ENVELOPE);
    }
    forall path | Finds(items[i], path, LOG_ENTRIES)
      ensures Finds(Arr(items), [Index(i)] + path, LOG_ENTRIES)
    {
      FoundInArray(items, i, path, LOG_ENTRIES);
    }
    PairedBelowStep(Arr(items), items[i], Index(i));
  }

  lemma {:induction false} PairedIsOneSource(j: Value)
    requires AlwaysPaired(j)
    ensures OneSource(j)
    decreases j
  {
    if Occurs(j, ENVELOPE) && Occurs(j, LOG_ENTRIES) && !Has(j, ENVELOPE) {
      if Has(j, LOG_ENTRIES) {
        var p := SomeFind(j, ENVELOPE);
        OwnKeyIsFound(j, [], LOG_ENTRIES);
        assert p <= [];
      } else {
        match j
        case Obj(fields) =>
          forall k, l | k in fields && l in fields && Occurs(fields[k], ENVELOPE) && Occurs(fields[l], LOG_ENTRIES)
            ensures k == l && OneSource(fields[k])
          {
            PairedMembers(fields, k, l);
            PairedIsOneSource(fields[k]);
          }
        case Arr(items) =>
          forall i, l | 0 <= i < |items| && 0 <= l < |items| && IsFirst(items, i, ENVELOPE) && IsFirst(items, l, LOG_ENTRIES)
            ensures i == l && OneSource(items[i])
          {
            PairedElements(items, i, l);
            PairedIsOneSource(items[i]);
          }
        case _ =>
      }
    }
  }

  /** In every order the log entries found lie inside the object whose envelope is found, exactly in such trees. */
  lemma AlwaysPairedIff(j: Value)
    ensures AlwaysPaired(j) <==> OneSource(j)
  {
    if AlwaysPaired(j) {
      PairedIsOneSource(j);
    }
    if OneSource(j) {
      forall p, q | Finds(j, p, ENVELOPE) && Finds(j, q, LOG_ENTRIES)
        ensures p <= q
      {
        OneSourcePairs(j, p, q);
      }
    }
  }

  /** A list of bundles is searched for log entries in the first element that has them. */
  lemma ListExtractsFirst(dec: Decoder, items: seq<Value>, i: nat, inc: Option<RekorInclusion>)
    requires i < |items| && IsFirst(items, i, LOG_ENTRIES)
    ensures MayExtract(dec, Arr(items), inc) <==> MayExtract(dec, items[i], inc)
  {
    var below := SomeFind(items[i], LOG_ENTRIES);
    FoundInArray(items, i, below, LOG_ENTRIES);
    FoundOccurs(Arr(items), [Index(i)] + below, LOG_ENTRIES);
    if MayExtract(dec, items[i], inc) {
      var path :| ExtractsAt(dec, items[i], path, inc);
      FoundInArray(items, i, path, LOG_ENTRIES);
      CarriedBelow(Arr(items), Index(i), path, LOG_ENTRIES);
      assert ExtractsAt(dec, Arr(items), [Index(i)] + path, inc);
    }
    if MayExtract(dec, Arr(items), inc) {
      var path :| ExtractsAt(dec, Arr(items), path, inc);
      ExtractedBelow(dec, items, i, path, inc);
    }
  }

  lemma ExtractedBelow(dec: Decoder, items: seq<Value>, i: nat, path: Path, inc: Option<RekorInclusion>)
    requires i < |items| && IsFirst(items, i, LOG_ENTRIES) && ExtractsAt(dec, Arr(items), path, inc)
    ensures path != [] && path[0] == Index(i) && ExtractsAt(dec, items[i], path[1..], inc)
  {
    FoundOccurs(items[path[0].i], path[1..], LOG_ENTRIES);
    FoundCarries(items[i], path[1..], LOG_ENTRIES);
  }

  /**
   A bundle without log entries is rejected where inclusion is required. Followed by a bundle with them, its
   envelope is the one found, and whether it is accepted is decided by the other bundle's entries alone.
   */
  lemma NextBundleVouches(h: Digest, dec: Decoder, first: Value, second: Value, p: Path, r: Found,
                          inc: Option<RekorInclusion>, trust: LogTrust)
    requires Has(first, ENVELOPE) && !Occurs(first, LOG_ENTRIES) && Occurs(second, LOG_ENTRIES)
    requires PairedAt(Arr([first, second]), p, r) && trust.requireInclusion
    ensures MayExtract(dec, first, inc) ==> !LogAccepts(h, inc, trust)
    ensures r.envelope == Member(first, ENVELOPE)
    ensures MayExtract(dec, Arr([first, second]), inc) <==> MayExtract(dec, second, inc)
    ensures !OneSource(Arr([first, second]))
  {
    var items := [first, second];
    assert Carries(first, [], ENVELOPE);
    assert IsFirst(items, 0, ENVELOPE) && IsFirst(items, 1, LOG_ENTRIES);
    ListExtractsFirst(dec, items, 1, inc);
    FirstEnvelope(items, p, r);
    var q := SomeFind(second, LOG_ENTRIES);
    FoundInArray(items, 1, q, LOG_ENTRIES);
    FoundOccurs(Arr(items), [Index(1)] + q, LOG_ENTRIES);
    FoundOccurs(Arr(items), p, ENVELOPE);
  }

  lemma FirstEnvelope(items: seq<Value>, p: Path, r: Found)
    requires items != [] && Has(items[0], ENVELOPE) && PairedAt(Arr(items), p, r)
    ensures p == [Index(0)] && r.envelope == Member(items[0], ENVELOPE)
  {
    FoundOccurs(items[p[0].i], p[1..], ENVELOPE);
    assert Carries(items[0], [], ENVELOPE);
    OwnKeyIsFound(items[0], p[1..], ENVELOPE);
    assert p == [p[0]] + p[1..];
  }
}
