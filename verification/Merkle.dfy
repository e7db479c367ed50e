/**
 Merkle audit paths as in sections 2.1 and 2.1.1 of RFC 6962, over any hash function, and the contract of
 inclusion verification: the root recomputed from a leaf, its index and a path.
 */
module Merkle {
  import opened Basics

  type Bytes = seq<bv8>

  type Hash = Bytes

  /** A hash function such as SHA-256. */
  type Digest = Bytes -> Hash

  const HASH_SIZE := 32

  ghost predicate Sized(h: Digest) {
    forall x :: |h(x)| == HASH_SIZE
  }

  function LeafInput(data: Bytes): Bytes {
    [0] + data
  }

  function NodeInput(left: Hash, right: Hash): Bytes {
    [1] + left + right
  }

  predicate Collides(h: Digest, a: Bytes, b: Bytes) {
    a != b && h(a) == h(b)
  }

  /** The largest power of two smaller than `n`. */
  function Split(n: nat): (k: nat)
    requires n >= 2
    ensures 1 <= k < n <= 2 * k
  {
    if n == 2 then 1 else 2 * Split((n + 1) / 2)
  }

  predicate IsPowerOfTwo(n: nat) {
    n == 1 || (n > 1 && n % 2 == 0 && IsPowerOfTwo(n / 2))
  }

  lemma {:induction false} SplitIsPowerOfTwo(n: nat)
    requires n >= 2
    ensures IsPowerOfTwo(Split(n))
  {
    if n > 2 {
      SplitIsPowerOfTwo((n + 1) / 2);
    }
  }

  /** MTH(D[lo:hi]) */
  function RangeHash(h: Digest, d: seq<Bytes>, lo: nat, hi: nat): Hash
    requires lo <= hi <= |d|
    decreases hi - lo, 1
  {
    h(RangeInput(h, d, lo, hi))
  }

  /** What is hashed at the top of a range. */
  function RangeInput(h: Digest, d: seq<Bytes>, lo: nat, hi: nat): Bytes
    requires lo <= hi <= |d|
    decreases hi - lo, 0
  {
    if lo == hi then []
    else if hi - lo == 1 then LeafInput(d[lo])
    else
      var mid := lo + Split(hi - lo);
      NodeInput(RangeHash(h, d, lo, mid), RangeHash(h, d, mid, hi))
  }

  /** PATH(m - lo, D[lo:hi]) */
  function RangePath(h: Digest, m: nat, d: seq<Bytes>, lo: nat, hi: nat): (path: seq<Hash>)
    requires lo <= m < hi <= |d|
    decreases hi - lo
  {
    if hi - lo == 1 then []
    else
      var mid := lo + Split(hi - lo);
      if m < mid then RangePath(h, m, d, lo, mid) + [RangeHash(h, d, mid, hi)]
      else RangePath(h, m, d, mid, hi) + [RangeHash(h, d, lo, mid)]
  }

  function TreeHash(h: Digest, d: seq<Bytes>): Hash {
    RangeHash(h, d, 0, |d|)
  }

  function AuditPath(h: Digest, m: nat, d: seq<Bytes>): seq<Hash>
    requires m < |d|
  {
    RangePath(h, m, d, 0, |d|)
  }

  /** Small trees by their bytes: leaves hashed after a 0, nodes after a 1, and the empty tree from nothing. */
  lemma SmallTrees(h: Digest, a: Bytes, b: Bytes, c: Bytes)
    ensures TreeHash(h, []) == h([]) && TreeHash(h, [a]) == h([0] + a)
    ensures TreeHash(h, [a, b]) == h([1] + h([0] + a) + h([0] + b))
    ensures TreeHash(h, [a, b, c]) == h([1] + h([1] + h([0] + a) + h([0] + b)) + h([0] + c))
    ensures AuditPath(h, 0, [a, b, c]) == [h([0] + b), h([0] + c)]
    ensures AuditPath(h, 1, [a, b, c]) == [h([0] + a), h([0] + c)]
    ensures AuditPath(h, 2, [a, b, c]) == [h([1] + h([0] + a) + h([0] + b))]
  {
    var d := [a, b, c];
    assert Split(2) == 1 && Split(3) == 2;
    assert RangeHash(h, d, 0, 2) == h([1] + h([0] + a) + h([0] + b));
    assert RangePath(h, 0, d, 0, 2) == [h([0] + b)] && RangePath(h, 1, d, 0, 2) == [h([0] + a)];
  }

  /**
   The root that the first `l` hashes of a path lead to from `data` at index `m` of a tree of `n` leaves;
   None when they are too few or too many.
   */
  function RootFromPath(h: Digest, m: nat, n: nat, data: Bytes, path: seq<Hash>, l: nat): Option<Hash>
    requires l <= |path|
    decreases n, 1
  {
    match RootInput(h, m, n, data, path, l)
    case Some(input) => Some(h(input))
    case None => None
  }

  /** What is hashed last on the way to that root. */
  function RootInput(h: Digest, m: nat, n: nat, data: Bytes, path: seq<Hash>, l: nat): Option<Bytes>
    requires l <= |path|
    decreases n, 0
  {
    if m >= n then None
    else if n == 1 then (if l == 0 then Some(LeafInput(data)) else None)
    else if l == 0 then None
    else
      var k, sibling := Split(n), path[l - 1];
      if m < k then
        match RootFromPath(h, m, k, data, path, l - 1)
        case Some(r) => Some(NodeInput(r, sibling))
        case None => None
      else
        match RootFromPath(h, m - k, n - k, data, path, l - 1)
        case Some(r) => Some(NodeInput(sibling, r))
        case None => None
  }

  /** The contract of `proof.VerifyInclusion`. */
  predicate Verifies(h: Digest, m: nat, n: nat, data: Bytes, path: seq<Hash>, root: Hash) {
    RootFromPath(h, m, n, data, path, |path|) == Some(root)
  }

  /** Hashes past the first `l` play no part. */
  lemma {:induction false} RootOfPrefix(h: Digest, m: nat, n: nat, data: Bytes, path: seq<Hash>, more: seq<Hash>, l: nat)
    requires l <= |path|
    ensures RootFromPath(h, m, n, data, path + more, l) == RootFromPath(h, m, n, data, path, l)
    decreases n
  {
    if m < n && n > 1 && l > 0 {
      assert (path + more)[l - 1] == path[l - 1];
      if m < Split(n) {
        RootOfPrefix(h, m, Split(n), data, path, more, l - 1);
      } else {
        RootOfPrefix(h, m - Split(n), n - Split(n), data, path, more, l - 1);
      }
    }
  }

  lemma LeftStep(h: Digest, m: nat, n: nat, data: Bytes, path: seq<Hash>, root: Hash, sibling: Hash)
    requires n >= 2 && m < Split(n) && Verifies(h, m, Split(n), data, path, root)
    ensures Verifies(h, m, n, data, path + [sibling], h(NodeInput(root, sibling)))
  {
    RootOfPrefix(h, m, Split(n), data, path, [sibling], |path|);
  }

  lemma RightStep(h: Digest, m: nat, n: nat, data: Bytes, path: seq<Hash>, root: Hash, sibling: Hash)
    requires n >= 2 && Split(n) <= m && Verifies(h, m - Split(n), n - Split(n), data, path, root)
    ensures Verifies(h, m, n, data, path + [sibling], h(NodeInput(sibling, root)))
  {
    RootOfPrefix(h, m - Split(n), n - Split(n), data, path, [sibling], |path|);
  }

  lemma RangeSplits(h: Digest, d: seq<Bytes>, lo: nat, hi: nat)
    requires lo + 1 < hi <= |d|
    ensures var mid := lo + Split(hi - lo);
            RangeHash(h, d, lo, hi) == h(NodeInput(RangeHash(h, d, lo, mid), RangeHash(h, d, mid, hi)))
  {
  }

  lemma PathSplits(h: Digest, m: nat, d: seq<Bytes>, lo: nat, hi: nat)
    requires lo <= m < hi <= |d| && hi - lo > 1
    ensures var mid := lo + Split(hi - lo);
            RangePath(h, m, d, lo, hi) ==
              if m < mid then RangePath(h, m, d, lo, mid) + [RangeHash(h, d, mid, hi)]
              else RangePath(h, m, d, mid, hi) + [RangeHash(h, d, lo, mid)]
  {
    hide RangeHash;
  }

  lemma LeafVerifies(h: Digest, m: nat, d: seq<Bytes>)
    requires m < |d|
    ensures Verifies(h, 0, 1, d[m], RangePath(h, m, d, m, m + 1), RangeHash(h, d, m, m + 1))
  {
  }

  lemma {:induction false} RangePathVerifies(h: Digest, m: nat, d: seq<Bytes>, lo: nat, hi: nat)
    requires lo <= m < hi <= |d|
    ensures Verifies(h, m - lo, hi - lo, d[m], RangePath(h, m, d, lo, hi), RangeHash(h, d, lo, hi))
    decreases hi - lo
  {
    hide *;
    if hi - lo > 1 {
      var mid := lo + Split(hi - lo);
      var left, right := RangeHash(h, d, lo, mid), RangeHash(h, d, mid, hi);
      RangeSplits(h, d, lo, hi);
      PathSplits(h, m, d, lo, hi);
      if m < mid {
        RangePathVerifies(h, m, d, lo, mid);
        LeftStep(h, m - lo, hi - lo, d[m], RangePath(h, m, d, lo, mid), left, right);
      } else {
        RangePathVerifies(h, m, d, mid, hi);
        RightStep(h, m - lo, hi - lo, d[m], RangePath(h, m, d, mid, hi), right, left);
      }
    } else {
      LeafVerifies(h, m, d);
    }
  }

  /** Every leaf of every log has an audit path that verifies. */
  lemma AuditPathVerifies(h: Digest, m: nat, d: seq<Bytes>)
    requires m < |d|
    ensures Verifies(h, m, |d|, d[m], AuditPath(h, m, d), TreeHash(h, d))
  {
    RangePathVerifies(h, m, d, 0, |d|);
  }

  /** The way from the root to leaf `m` of a tree of `n` leaves: false is left. */
  function Address(m: nat, n: nat): seq<bool>
    requires m < n
    decreases n
  {
    if n == 1 then []
    else
      var k := Split(n);
      if m < k then [false] + Address(m, k) else [true] + Address(m - k, n - k)
  }

  lemma AddressSplits(m: nat, n: nat)
    requires m < n && n > 1
    ensures var k := Split(n);
            Address(m, n) == if m < k then [false] + Address(m, k) else [true] + Address(m - k, n - k)
  {
  }

  /** Different leaves of one tree have different addresses. */
  lemma {:induction false} AddressIsInjective(i: nat, j: nat, n: nat)
    requires i < n && j < n && Address(i, n) == Address(j, n)
    ensures i == j
    decreases n
  {
    if n > 1 {
      var k := Split(n);
      if i < k {
        assert !Address(j, n)[0];
        assert Address(i, n)[1..] == Address(i, k) && Address(j, n)[1..] == Address(j, k);
        AddressIsInjective(i, j, k);
      } else {
        assert Address(j, n)[0];
        assert Address(i, n)[1..] == Address(i - k, n - k) && Address(j, n)[1..] == Address(j - k, n - k);
        AddressIsInjective(i - k, j - k, n - k);
      }
    }
  }

  /** What a verifying proof shows: an entry of the log, or two inputs with one hash. */
  datatype Finding = Entry(index: nat) | Collision(a: Bytes, b: Bytes)

  lemma ChildInput(h: Digest, m: nat, n: nat, data: Bytes, path: seq<Hash>, l: nat)
    requires l <= |path| && n > 1 && RootInput(h, m, n, data, path, l).Some?
    ensures l > 0 && m < n
    ensures m < Split(n) ==> RootInput(h, m, Split(n), data, path, l - 1).Some?
    ensures m >= Split(n) ==> RootInput(h, m - Split(n), n - Split(n), data, path, l - 1).Some?
  {
    if m < Split(n) {
      assert RootFromPath(h, m, Split(n), data, path, l - 1).Some?;
    } else {
      assert RootFromPath(h, m - Split(n), n - Split(n), data, path, l - 1).Some?;
    }
  }

  /**
   Follows a proof and a log down from a common root: as long as the same input was hashed on both sides,
   to the halves the proof's index leads into.
   */
  function Trace(h: Digest, m: nat, n: nat, data: Bytes, path: seq<Hash>, l: nat, d: seq<Bytes>, lo: nat, hi: nat): Finding
    requires l <= |path| && lo <= hi <= |d| && RootInput(h, m, n, data, path, l).Some?
    decreases n
  {
    var claimed, logged := RootInput(h, m, n, data, path, l).value, RangeInput(h, d, lo, hi);
    if claimed != logged then Collision(claimed, logged)
    else if n == 1 || hi - lo < 2 then Entry(lo)
    else
      var k, mid := Split(n), lo + Split(hi - lo);
      ChildInput(h, m, n, data, path, l);
      if m < k then Trace(h, m, k, data, path, l - 1, d, lo, mid)
      else Trace(h, m - k, n - k, data, path, l - 1, d, mid, hi)
  }

  /** `data` is entry `j` of the range, the first `l` hashes are its audit path, and the claim gives its address. */
  predicate IsEntryAt(h: Digest, m: nat, n: nat, data: Bytes, path: seq<Hash>, l: nat, d: seq<Bytes>, lo: nat, hi: nat, j: nat) {
    && m < n && lo <= j < hi <= |d| && l <= |path|
    && data == d[j] && path[..l] == RangePath(h, j, d, lo, hi) && Address(j - lo, hi - lo) == Address(m, n)
    && (n == hi - lo ==> j == lo + m)
  }

  predicate Shows(h: Digest, m: nat, n: nat, data: Bytes, path: seq<Hash>, l: nat, d: seq<Bytes>, lo: nat, hi: nat, f: Finding) {
    match f
    case Entry(j) => IsEntryAt(h, m, n, data, path, l, d, lo, hi, j)
    case Collision(a, b) => Collides(h, a, b)
  }

  /** Inputs of nodes fix their halves, when either half has the size of a hash. */
  lemma NodeInputHalves(a: Hash, b: Hash, x: Hash, y: Hash)
    requires NodeInput(a, b) == NodeInput(x, y) && (|a| == |x| || |b| == |y|)
    ensures a == x && b == y
  {
    var s, t := NodeInput(a, b), NodeInput(x, y);
    assert |s| == 1 + |a| + |b| && |t| == 1 + |x| + |y|;
    assert a == s[1..1 + |a|] && x == t[1..1 + |x|];
    assert b == s[1 + |a|..] && y == t[1 + |x|..];
  }

  /** Leaves, nodes and the empty tree hash different inputs. */
  lemma InputKinds(data: Bytes, left: Hash, right: Hash)
    ensures LeafInput(data) != [] && NodeInput(left, right) != [] && LeafInput(data) != NodeInput(left, right)
  {
    assert LeafInput(data)[0] == 0 && NodeInput(left, right)[0] == 1;
  }

  lemma LeafInputData(a: Bytes, b: Bytes)
    requires LeafInput(a) == LeafInput(b)
    ensures a == b
  {
    assert a == LeafInput(a)[1..] && b == LeafInput(b)[1..];
  }

  lemma LeafShown(h: Digest, data: Bytes, path: seq<Hash>, d: seq<Bytes>, lo: nat, hi: nat)
    requires lo <= hi <= |d| && LeafInput(data) == RangeInput(h, d, lo, hi)
    ensures IsEntryAt(h, 0, 1, data, path, 0, d, lo, hi, lo)
  {
    if hi - lo >= 2 {
      var mid := lo + Split(hi - lo);
      InputKinds(data, RangeHash(h, d, lo, mid), RangeHash(h, d, mid, hi));
    } else if hi > lo {
      LeafInputData(data, d[lo]);
    }
  }

  /** The same input under a node: the range is no leaf, and both halves agree. */
  lemma NodeShown(h: Digest, left: Hash, right: Hash, d: seq<Bytes>, lo: nat, hi: nat)
    requires Sized(h) && lo <= hi <= |d| && NodeInput(left, right) == RangeInput(h, d, lo, hi)
    requires |left| == HASH_SIZE || |right| == HASH_SIZE
    ensures hi - lo >= 2
    ensures var mid := lo + Split(hi - lo); left == RangeHash(h, d, lo, mid) && right == RangeHash(h, d, mid, hi)
  {
    if hi - lo == 1 {
      InputKinds(d[lo], left, right);
    } else if hi > lo {
      var mid := lo + Split(hi - lo);
      NodeInputHalves(left, right, RangeHash(h, d, lo, mid), RangeHash(h, d, mid, hi));
    }
  }

  lemma EntryInLeftHalf(h: Digest, m: nat, n: nat, data: Bytes, path: seq<Hash>, l: nat, d: seq<Bytes>, lo: nat, hi: nat, j: nat)
    requires n > 1 && lo + 1 < hi <= |d| && m < Split(n) && 0 < l <= |path|
    requires path[l - 1] == RangeHash(h, d, lo + Split(hi - lo), hi)
    requires IsEntryAt(h, m, Split(n), data, path, l - 1, d, lo, lo + Split(hi - lo), j)
    ensures IsEntryAt(h, m, n, data, path, l, d, lo, hi, j)
  {
    hide RangeHash, RangePath, Address, Split;
    PathSplits(h, j, d, lo, hi);
    AddressSplits(m, n);
    AddressSplits(j - lo, hi - lo);
    assert path[..l] == path[..l - 1] + [path[l - 1]];
  }

  lemma EntryInRightHalf(h: Digest, m: nat, n: nat, data: Bytes, path: seq<Hash>, l: nat, d: seq<Bytes>, lo: nat, hi: nat, j: nat)
    requires n > 1 && lo + 1 < hi <= |d| && Split(n) <= m < n && 0 < l <= |path|
    requires path[l - 1] == RangeHash(h, d, lo, lo + Split(hi - lo))
    requires IsEntryAt(h, m - Split(n), n - Split(n), data, path, l - 1, d, lo + Split(hi - lo), hi, j)
    ensures IsEntryAt(h, m, n, data, path, l, d, lo, hi, j)
  {
    hide RangeHash, RangePath, Address, Split;
    PathSplits(h, j, d, lo, hi);
    AddressSplits(m, n);
    AddressSplits(j - lo, hi - lo);
    assert j - lo - Split(hi - lo) == j - (lo + Split(hi - lo)) && hi - lo - Split(hi - lo) == hi - (lo + Split(hi - lo));
    assert path[..l] == path[..l - 1] + [path[l - 1]];
  }

  /** Whatever a proof claims, following it down a log with the same root shows an entry or a collision. */
  lemma {:induction false} TraceShows(h: Digest, m: nat, n: nat, data: Bytes, path: seq<Hash>, l: nat, d: seq<Bytes>, lo: nat, hi: nat)
    requires Sized(h) && l <= |path| && lo <= hi <= |d| && RootInput(h, m, n, data, path, l).Some?
    requires h(RootInput(h, m, n, data, path, l).value) == RangeHash(h, d, lo, hi)
    ensures Shows(h, m, n, data, path, l, d, lo, hi, Trace(h, m, n, data, path, l, d, lo, hi))
    decreases n, 1
  {
    if RootInput(h, m, n, data, path, l).value == RangeInput(h, d, lo, hi) {
      if n == 1 {
        LeafShown(h, data, path, d, lo, hi);
      } else if m < Split(n) {
        TraceLeft(h, m, n, data, path, l, d, lo, hi);
      } else {
        TraceRight(h, m, n, data, path, l, d, lo, hi);
      }
    }
  }

  lemma {:induction false} TraceLeft(h: Digest, m: nat, n: nat, data: Bytes, path: seq<Hash>, l: nat, d: seq<Bytes>, lo: nat, hi: nat)
    requires Sized(h) && l <= |path| && lo <= hi <= |d| && n > 1 && m < Split(n)
    requires RootInput(h, m, n, data, path, l) == Some(RangeInput(h, d, lo, hi))
    ensures Shows(h, m, n, data, path, l, d, lo, hi, Trace(h, m, n, data, path, l, d, lo, hi))
    decreases n, 0
  {
    var below := RootInput(h, m, Split(n), data, path, l - 1).value;
    assert |h(below)| == HASH_SIZE;
    NodeShown(h, h(below), path[l - 1], d, lo, hi);
    TraceShows(h, m, Split(n), data, path, l - 1, d, lo, lo + Split(hi - lo));
    var f := Trace(h, m, Split(n), data, path, l - 1, d, lo, lo + Split(hi - lo));
    if f.Entry? {
      EntryInLeftHalf(h, m, n, data, path, l, d, lo, hi, f.index);
    }
  }

  lemma {:induction false} TraceRight(h: Digest, m: nat, n: nat, data: Bytes, path: seq<Hash>, l: nat, d: seq<Bytes>, lo: nat, hi: nat)
    requires Sized(h) && l <= |path| && lo <= hi <= |d| && n > 1 && Split(n) <= m
    requires RootInput(h, m, n, data, path, l) == Some(RangeInput(h, d, lo, hi))
    ensures Shows(h, m, n, data, path, l, d, lo, hi, Trace(h, m, n, data, path, l, d, lo, hi))
    decreases n, 0
  {
    var k, mid := Split(n), lo + Split(if hi - lo >= 2 then hi - lo else 2);
    var below := RootInput(h, m - k, n - k, data, path, l - 1).value;
    assert |h(below)| == HASH_SIZE;
    NodeShown(h, path[l - 1], h(below), d, lo, hi);
    TraceShows(h, m - k, n - k, data, path, l - 1, d, mid, hi);
    var f := Trace(h, m - k, n - k, data, path, l - 1, d, mid, hi);
    if f.Entry? {
      EntryInRightHalf(h, m, n, data, path, l, d, lo, hi, f.index);
    }
  }

  /** The finding of a proof that verifies against the root of a log. */
  function FindingOf(h: Digest, m: nat, n: nat, data: Bytes, path: seq<Hash>, d: seq<Bytes>): Finding
    requires Verifies(h, m, n, data, path, TreeHash(h, d))
  {
    Trace(h, m, n, data, path, |path|, d, 0, |d|)
  }

  predicate IsMemberOrCollision(h: Digest, m: nat, n: nat, d: seq<Bytes>, data: Bytes, path: seq<Hash>, f: Finding) {
    match f
    case Collision(a, b) => Collides(h, a, b)
    case Entry(j) =>
      && m < n && j < |d| && data == d[j] && path == AuditPath(h, j, d)
      && Address(j, |d|) == Address(m, n) && (n == |d| ==> j == m)
  }

  /**
   Whatever size and index a proof claims, if it verifies against the root of a log then its data is the
   entry at the claimed address in the real tree and its path is that entry's audit path, or following it
   yields two inputs with one hash.
   */
  lemma VerifiedLeafIsMember(h: Digest, m: nat, n: nat, d: seq<Bytes>, data: Bytes, path: seq<Hash>)
    requires Sized(h) && Verifies(h, m, n, data, path, TreeHash(h, d))
    ensures IsMemberOrCollision(h, m, n, d, data, path, FindingOf(h, m, n, data, path, d))
  {
    TraceShows(h, m, n, data, path, |path|, d, 0, |d|);
    assert path[..|path|] == path;
  }

  /** With the log's own size, the proof is for the entry it claims and is the only one, or gives a collision. */
  lemma VerifiedLeafIsEntry(h: Digest, m: nat, d: seq<Bytes>, data: Bytes, path: seq<Hash>)
    requires Sized(h) && Verifies(h, m, |d|, data, path, TreeHash(h, d))
    ensures var f := FindingOf(h, m, |d|, data, path, d);
            || (f.Collision? && Collides(h, f.a, f.b))
            || (f == Entry(m) && m < |d| && data == d[m] && path == AuditPath(h, m, d))
  {
    VerifiedLeafIsMember(h, m, |d|, d, data, path);
  }

  /** The claimed index is the entry's own exactly when it has the same address in the real tree. */
  lemma ClaimedIndexIsTrueIff(m: nat, n: nat, size: nat, j: nat)
    requires m < n && j < size && Address(j, size) == Address(m, n)
    ensures m == j <==> m < size && Address(m, size) == Address(m, n)
  {
    if m < size && Address(m, size) == Address(m, n) {
      AddressIsInjective(m, j, size);
    }
  }

  /** A proof for three entries, passed off as one for two, verifies with an index that is not the entry's. */
  lemma WrongSizeWrongIndex(h: Digest, a: Bytes, b: Bytes, c: Bytes)
    ensures Verifies(h, 1, 2, c, AuditPath(h, 2, [a, b, c]), TreeHash(h, [a, b, c]))
  {
    var d := [a, b, c];
    assert Split(3) == 2 && Split(2) == 1;
    assert RangePath(h, 2, d, 2, 3) == [];
    var path := AuditPath(h, 2, d);
    assert path == [RangeHash(h, d, 0, 2)];
    assert RootFromPath(h, 0, 1, c, path, 0) == Some(RangeHash(h, d, 2, 3));
  }
}
