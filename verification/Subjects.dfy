/** When the subject gate means that statement and verifier speak of exactly the same subjects. */
module Subjects {
  import opened Basics
  import opened StableSort
  import opened Gates

  datatype Pair = Pair(name: Option<string>, sha256: Option<string>)

  function StatementPairs(s: seq<StatementSubject>): (pairs: seq<Pair>)
    ensures |pairs| == |s|
  {
    seq(|s|, i requires 0 <= i < |s| => Pair(s[i].name, s[i].sha256))
  }

  function ContextPairs(es: seq<ContextSubject>): (pairs: seq<Pair>)
    ensures |pairs| == |es|
  {
    seq(|es|, i requires 0 <= i < |es| => Pair(Some(es[i].name), Some(es[i].sha256)))
  }

  function Members<T>(xs: seq<T>): set<T> {
    set x | x in xs
  }

  /** The subjects are equal as sets of (name, digest), and the verifier's are some and distinctly named. */
  predicate Exact(s: seq<StatementSubject>, x: Trusted) {
    x.subjects != [] && NamesDistinct(x.subjects) && Members(StatementPairs(s)) == Members(ContextPairs(x.subjects))
  }

  predicate AllNamed(s: seq<StatementSubject>) {
    forall t | t in s :: t.keyed
  }

  /** A subject with a string for a name has a name. */
  predicate NamesAreKeyed(s: seq<StatementSubject>) {
    forall t | t in s :: t.name.Some? ==> t.keyed
  }

  lemma StatementMembers(s: seq<StatementSubject>)
    ensures forall t | t in s :: Pair(t.name, t.sha256) in Members(StatementPairs(s))
    ensures forall q | q in Members(StatementPairs(s)) :: exists t | t in s :: q == Pair(t.name, t.sha256)
  {
    forall t | t in s
      ensures Pair(t.name, t.sha256) in StatementPairs(s)
    {
      var k :| 0 <= k < |s| && s[k] == t;
      assert StatementPairs(s)[k] == Pair(t.name, t.sha256);
    }
  }

  lemma ContextMembers(es: seq<ContextSubject>)
    ensures forall e | e in es :: Pair(Some(e.name), Some(e.sha256)) in Members(ContextPairs(es))
    ensures forall q | q in Members(ContextPairs(es)) :: exists e | e in es :: q == Pair(Some(e.name), Some(e.sha256))
  {
    forall e | e in es
      ensures Pair(Some(e.name), Some(e.sha256)) in ContextPairs(es)
    {
      var k :| 0 <= k < |es| && es[k] == e;
      assert ContextPairs(es)[k] == Pair(Some(e.name), Some(e.sha256));
    }
  }

  lemma BoundAsPairs(s: seq<StatementSubject>, x: Trusted)
    ensures SubjectsBound(s, x) <==>
            && x.subjects != [] && NamesDistinct(x.subjects)
            && Members(ContextPairs(x.subjects)) <= Members(StatementPairs(s))
            && (forall t | t in s && t.keyed :: Pair(t.name, t.sha256) in Members(ContextPairs(x.subjects)))
  {
    StatementMembers(s);
    ContextMembers(x.subjects);
    forall t, e: ContextSubject | t in s
      ensures Names(t, e) <==> Pair(t.name, t.sha256) == Pair(Some(e.name), Some(e.sha256))
    {
    }
  }

  /** The gate decides equality of the two sets of subjects exactly when every claimed subject is named. */
  lemma BoundIsExactForNamed(s: seq<StatementSubject>, x: Trusted)
    requires NamesAreKeyed(s)
    ensures Exact(s, x) <==> SubjectsBound(s, x) && AllNamed(s)
  {
    BoundAsPairs(s, x);
    StatementMembers(s);
    ContextMembers(x.subjects);
    if Exact(s, x) {
      forall t | t in s
        ensures t.keyed
      {
        assert Pair(t.name, t.sha256) in Members(StatementPairs(s));
      }
    }
  }

  /** A claimed subject without a name goes unnoticed, whatever its digest. */
  lemma UnnamedSubjectIsOverlooked(s: seq<StatementSubject>, x: Trusted, sha256: Option<string>)
    requires NamesAreKeyed(s) && SubjectsBound(s, x)
    ensures var more := s + [StatementSubject(false, None, sha256)];
            SubjectsBound(more, x) && !Exact(more, x)
  {
    var unnamed := StatementSubject(false, None, sha256);
    var more := s + [unnamed];
    forall e | e in x.subjects
      ensures exists t | t in more :: Names(t, e)
    {
      var t :| t in s && Names(t, e);
      assert t in more;
    }
    assert more[|s|] == unnamed && unnamed in more;
    BoundIsExactForNamed(more, x);
  }

  /** The comparison of the fixture test: equal lengths, and every current subject found in the statement. */
  predicate Found(s: seq<StatementSubject>, e: ContextSubject) {
    exists t | t in s :: t.name.GetOr("") == e.name && t.sha256.GetOr("") == e.sha256
  }

  method SubjectsMatch(s: seq<StatementSubject>, es: seq<ContextSubject>) returns (ok: bool)
    ensures ok <==> |s| == |es| && forall e | e in es :: Found(s, e)
  {
    if |s| != |es| {
      return false;
    }
    for i := 0 to |es|
      invariant forall k | 0 <= k < i :: Found(s, es[k])
    {
      var found := false;
      for j := 0 to |s|
        invariant !found
        invariant forall k | 0 <= k < j ::
                    !(s[k].name.GetOr("") == es[i].name && s[k].sha256.GetOr("") == es[i].sha256)
      {
        if s[j].name.GetOr("") == es[i].name && s[j].sha256.GetOr("") == es[i].sha256 {
          assert s[j] in s;
          found := true;
          break;
        }
      }
      if !found {
        assert es[i] in es && !Found(s, es[i]);
        return false;
      }
    }
    ok := true;
  }

  lemma SubsetOfSameSize<T>(a: set<T>, b: set<T>)
    requires a <= b && |b| <= |a|
    ensures a == b
  {
    assert |b - a| == |b| - |a|;
  }

  lemma DistinctNamesGiveDistinctPairs(es: seq<ContextSubject>)
    requires NamesDistinct(es)
    ensures |Members(ContextPairs(es))| == |es|
  {
    DistinctIffAsLong(ContextPairs(es));
  }

  predicate NonEmptyTexts(es: seq<ContextSubject>) {
    forall e | e in es :: e.name != "" && e.sha256 != ""
  }

  /** By pigeonhole, the one-directional comparison implies the gate on distinctly named current subjects. */
  lemma MatchImpliesBound(s: seq<StatementSubject>, x: Trusted)
    requires |s| == |x.subjects| && forall e | e in x.subjects :: Found(s, e)
    requires x.subjects != [] && NamesDistinct(x.subjects) && NonEmptyTexts(x.subjects) && NamesAreKeyed(s)
    ensures Exact(s, x) && SubjectsBound(s, x)
  {
    var claimed, current := Members(StatementPairs(s)), Members(ContextPairs(x.subjects));
    StatementMembers(s);
    ContextMembers(x.subjects);
    forall e | e in x.subjects
      ensures Pair(Some(e.name), Some(e.sha256)) in claimed
    {
      var t :| t in s && t.name.GetOr("") == e.name && t.sha256.GetOr("") == e.sha256;
      assert Pair(t.name, t.sha256) in claimed;
    }
    DistinctNamesGiveDistinctPairs(x.subjects);
    DistinctIffAsLong(StatementPairs(s));
    SubsetOfSameSize(current, claimed);
    BoundIsExactForNamed(s, x);
  }

  predicate ClaimedNamesDistinct(s: seq<StatementSubject>) {
    forall i, j :: 0 <= i < j < |s| ==> s[i].name != s[j].name
  }

  /** When the claimed names are distinct too, comparison and gate coincide. */
  lemma MatchIffBound(s: seq<StatementSubject>, x: Trusted)
    requires x.subjects != [] && NamesDistinct(x.subjects) && NonEmptyTexts(x.subjects)
    requires NamesAreKeyed(s) && AllNamed(s) && ClaimedNamesDistinct(s)
    ensures SubjectsBound(s, x) <==> |s| == |x.subjects| && forall e | e in x.subjects :: Found(s, e)
  {
    if SubjectsBound(s, x) {
      BoundIsExactForNamed(s, x);
      DistinctNamesGiveDistinctPairs(x.subjects);
      DistinctIffAsLong(StatementPairs(s));
      forall e | e in x.subjects
        ensures Found(s, e)
      {
        var t :| t in s && Names(t, e);
        assert t.name.GetOr("") == e.name;
      }
    } else if |s| == |x.subjects| && forall e | e in x.subjects :: Found(s, e) {
      MatchImpliesBound(s, x);
    }
  }
}
