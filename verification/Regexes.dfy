/** Regular expressions as the contracts write them, and the texts they match. */
module Regexes {
  import opened Basics

  /** `[class]`, `[^class]` and `.`; a class lists characters and ranges. */
  datatype Chars = In(class_: string) | NotIn(class_: string) | Dot

  predicate InClass(class_: string, c: char)
    decreases |class_|
  {
    if class_ == "" then false
    else if |class_| >= 3 && class_[1] == '-' then class_[0] <= c <= class_[2] || InClass(class_[3..], c)
    else c == class_[0] || InClass(class_[1..], c)
  }

  predicate OneOf(chars: Chars, c: char) {
    match chars
    case In(class_) => InClass(class_, c)
    case NotIn(class_) => !InClass(class_, c)
    case Dot => c != '\n'
  }

  /** Repetition is over single characters, which is all the contracts use; no `max` means no bound. */
  datatype Regex =
    | Text(text: string)
    | Run(chars: Chars, min: nat, max: Option<nat>)
    | Then(first: Regex, rest: Regex)
    | Or(left: Regex, right: Regex)
    | Maybe(inner: Regex)

  /** The whole text matches. */
  predicate Matches(r: Regex, s: string)
    decreases r
  {
    match r
    case Text(text) => s == text
    case Run(chars, min, max) => min <= |s| && (max.Some? ==> |s| <= max.value) && forall c | c in s :: OneOf(chars, c)
    case Then(first, rest) => exists k | 0 <= k <= |s| :: Matches(first, s[..k]) && Matches(rest, s[k..])
    case Or(left, right) => Matches(left, s) || Matches(right, s)
    case Maybe(inner) => s == "" || Matches(inner, s)
  }

  function Plus(class_: string): Regex {
    Run(In(class_), 1, None)
  }

  function Between(class_: string, min: nat, max: nat): Regex {
    Run(In(class_), min, Some(max))
  }

  lemma ThenAt(first: Regex, rest: Regex, s: string, k: nat)
    requires k <= |s| && Matches(first, s[..k]) && Matches(rest, s[k..])
    ensures Matches(Then(first, rest), s)
  {
  }

  /** A text, and then something. */
  lemma TextThen(text: string, rest: Regex, s: string)
    ensures Matches(Then(Text(text), rest), s) <==> text <= s && Matches(rest, s[|text|..])
  {
    if text <= s && Matches(rest, s[|text|..]) {
      ThenAt(Text(text), rest, s, |text|);
    }
  }

  /** A number of characters, and then something. */
  lemma FixedThen(class_: string, n: nat, rest: Regex, s: string)
    ensures Matches(Then(Between(class_, n, n), rest), s) <==>
            n <= |s| && Matches(Between(class_, n, n), s[..n]) && Matches(rest, s[n..])
  {
    if n <= |s| && Matches(Between(class_, n, n), s[..n]) && Matches(rest, s[n..]) {
      ThenAt(Between(class_, n, n), rest, s, n);
    }
  }

  predicate AllOf(chars: Chars, s: string) {
    forall c | c in s :: OneOf(chars, c)
  }

  lemma RunIff(chars: Chars, min: nat, max: nat, s: string)
    ensures Matches(Run(chars, min, Some(max)), s) <==> min <= |s| <= max && AllOf(chars, s)
    ensures Matches(Run(chars, min, None), s) <==> min <= |s| && AllOf(chars, s)
  {
  }

  predicate CutAt(chars: Chars, mark: string, rest: Regex, s: string, k: nat)
    requires k <= |s|
  {
    k > 0 && mark <= s[k..] && AllOf(chars, s[..k]) && Matches(rest, s[k + |mark|..])
  }

  /** Some characters of a kind, a mark, and then something. */
  lemma RunThenIff(chars: Chars, mark: string, rest: Regex, s: string)
    ensures Matches(Then(Run(chars, 1, None), Then(Text(mark), rest)), s) <==>
            exists k | 0 <= k <= |s| :: CutAt(chars, mark, rest, s, k)
  {
    hide OneOf, AllOf;
    var tail := Then(Text(mark), rest);
    if k :| 0 <= k <= |s| && CutAt(chars, mark, rest, s, k) {
      assert s[k..][|mark|..] == s[k + |mark|..];
      TextThen(mark, rest, s[k..]);
      RunIff(chars, 1, 0, s[..k]);
      ThenAt(Run(chars, 1, None), tail, s, k);
    }
    if Matches(Then(Run(chars, 1, None), tail), s) {
      var k :| 0 <= k <= |s| && Matches(Run(chars, 1, None), s[..k]) && Matches(tail, s[k..]);
      TextThen(mark, rest, s[k..]);
      RunIff(chars, 1, 0, s[..k]);
      assert s[k..][|mark|..] == s[k + |mark|..];
      assert CutAt(chars, mark, rest, s, k);
    }
  }

  /** Three parts in a row. */
  predicate CutTwice(a: Regex, b: Regex, c: Regex, s: string, i: nat, j: nat)
    requires i <= j <= |s|
  {
    Matches(a, s[..i]) && Matches(b, s[i..j]) && Matches(c, s[j..])
  }

  lemma SplitOf(first: Regex, rest: Regex, s: string) returns (k: nat)
    requires Matches(Then(first, rest), s)
    ensures k <= |s| && Matches(first, s[..k]) && Matches(rest, s[k..])
  {
    k :| 0 <= k <= |s| && Matches(first, s[..k]) && Matches(rest, s[k..]);
  }

  lemma JoinTwice(a: Regex, b: Regex, c: Regex, s: string, i: nat, j: nat)
    requires i <= j <= |s| && CutTwice(a, b, c, s, i, j)
    ensures Matches(Then(a, Then(b, c)), s)
  {
    hide Matches;
    assert s[i..][..j - i] == s[i..j] && s[i..][j - i..] == s[j..];
    ThenAt(b, c, s[i..], j - i);
    ThenAt(a, Then(b, c), s, i);
  }

  lemma SplitTwice(a: Regex, b: Regex, c: Regex, s: string) returns (i: nat, j: nat)
    requires Matches(Then(a, Then(b, c)), s)
    ensures i <= j <= |s| && CutTwice(a, b, c, s, i, j)
  {
    hide Matches;
    i := SplitOf(a, Then(b, c), s);
    var k := SplitOf(b, c, s[i..]);
    j := i + k;
    assert s[i..][..k] == s[i..j] && s[i..][k..] == s[j..];
  }

  lemma ThenTwice(a: Regex, b: Regex, c: Regex, s: string)
    ensures Matches(Then(a, Then(b, c)), s) <==> exists i, j | 0 <= i <= j <= |s| :: CutTwice(a, b, c, s, i, j)
  {
    hide Matches, CutTwice;
    if i, j :| 0 <= i <= j <= |s| && CutTwice(a, b, c, s, i, j) {
      JoinTwice(a, b, c, s, i, j);
    }
    if Matches(Then(a, Then(b, c)), s) {
      var i, j := SplitTwice(a, b, c, s);
    }
  }

  lemma MaybeTextThen(text: string, rest: Regex, s: string)
    ensures Matches(Then(Maybe(Text(text)), rest), s) <==> Matches(rest, s) || (text <= s && Matches(rest, s[|text|..]))
  {
    if Matches(rest, s) {
      assert s[..0] == "" && s[0..] == s;
      ThenAt(Maybe(Text(text)), rest, s, 0);
    }
    if text <= s && Matches(rest, s[|text|..]) {
      ThenAt(Maybe(Text(text)), rest, s, |text|);
    }
    if Matches(Then(Maybe(Text(text)), rest), s) {
      var k :| 0 <= k <= |s| && Matches(Maybe(Text(text)), s[..k]) && Matches(rest, s[k..]);
      if s[..k] == "" {
        assert k == 0 && s[k..] == s;
      } else {
        assert Matches(Text(text), s[..k]) && k == |text|;
      }
    }
  }

  lemma OrThen(a: Regex, b: Regex, rest: Regex, s: string)
    ensures Matches(Then(Or(a, b), rest), s) <==> Matches(Then(a, rest), s) || Matches(Then(b, rest), s)
  {
    if Matches(Then(Or(a, b), rest), s) {
      var k :| 0 <= k <= |s| && Matches(Or(a, b), s[..k]) && Matches(rest, s[k..]);
      if Matches(a, s[..k]) {
        ThenAt(a, rest, s, k);
      } else {
        ThenAt(b, rest, s, k);
      }
    }
    if Matches(Then(a, rest), s) {
      var k :| 0 <= k <= |s| && Matches(a, s[..k]) && Matches(rest, s[k..]);
      ThenAt(Or(a, b), rest, s, k);
    }
    if Matches(Then(b, rest), s) {
      var k :| 0 <= k <= |s| && Matches(b, s[..k]) && Matches(rest, s[k..]);
      ThenAt(Or(a, b), rest, s, k);
    }
  }
}

/** The contracts' patterns, as predicates and as the regular expressions they are written in. */
module PatternTexts {
  import opened Basics
  import T = Text
  import opened Json
  import opened Patterns
  import opened Schema
  import opened Timestamps
  import opened Regexes


  lemma RangeThen(lo: char, hi: char, rest: string, c: char)
    ensures InClass([lo, '-', hi] + rest, c) <==> lo <= c <= hi || InClass(rest, c)
  {
    assert ([lo, '-', hi] + rest)[3..] == rest;
  }

  /** A class without ranges lists its characters. */
  lemma {:induction false} Listed(class_: string, c: char)
    requires forall i | 1 <= i < |class_| - 1 :: class_[i] != '-'
    ensures InClass(class_, c) <==> c in class_
    decreases |class_|
  {
    if class_ != "" {
      assert class_ == [class_[0]] + class_[1..];
      Listed(class_[1..], c);
    }
  }

  lemma Classes(c: char)
    ensures InClass("a-f0-9", c) <==> IsLowerHex(c)
    ensures InClass("0-9", c) <==> T.IsDigit(c)
    ensures InClass("a-z", c) <==> IsLower(c)
  {
    RangeThen('a', 'f', "0-9", c);
    RangeThen('0', '9', "", c);
    RangeThen('a', 'z', "", c);
    assert ['a', '-', 'f'] + "0-9" == "a-f0-9" && ['0', '-', '9'] + "" == "0-9" && ['a', '-', 'z'] + "" == "a-z";
  }

  /** Letters, digits and some more. */
  lemma AfterAlnum(rest: string, c: char)
    requires forall i | 1 <= i < |rest| - 1 :: rest[i] != '-'
    ensures InClass("A-Za-z0-9" + rest, c) <==> IsAlnum(c) || c in rest
  {
    RangeThen('A', 'Z', "a-z0-9" + rest, c);
    RangeThen('a', 'z', "0-9" + rest, c);
    RangeThen('0', '9', rest, c);
    Listed(rest, c);
    assert ['A', '-', 'Z'] + ("a-z0-9" + rest) == "A-Za-z0-9" + rest;
    assert ['a', '-', 'z'] + ("0-9" + rest) == "a-z0-9" + rest && ['0', '-', '9'] + rest == "0-9" + rest;
  }

  lemma WordClass(rest: string, all: string, c: char)
    requires all == "A-Za-z0-9" + rest && forall i | 1 <= i < |rest| - 1 :: rest[i] != '-'
    ensures InClass(all, c) <==> IsAlnum(c) || c in rest
  {
    AfterAlnum(rest, c);
  }

  /** Digests, commits, trace and span identifiers. */
  lemma HexPatterns(s: string, n: nat)
    ensures LowerHex(s, n) <==> Matches(Between("a-f0-9", n, n), s)
    ensures HexSha256(s) <==> Matches(Between("a-f0-9", 64, 64), s)
    ensures GitCommit(s) <==> Matches(Or(Between("a-f0-9", 40, 40), Between("a-f0-9", 64, 64)), s)
  {
    forall c
      ensures InClass("a-f0-9", c) <==> IsLowerHex(c)
    {
      Classes(c);
    }
  }

  lemma RunIdPattern(s: string)
    ensures RunIdText(s) <==> Matches(Between("A-Za-z0-9._:-", 8, 128), s)
  {
    forall c
      ensures InClass("A-Za-z0-9._:-", c) <==> IsAlnum(c) || c in "._:-"
    {
      WordClass("._:-", "A-Za-z0-9._:-", c);
    }
  }

  lemma IdentityPattern(s: string)
    ensures IdentityText(s) <==> Matches(Between("A-Za-z0-9._:/-", 1, 256), s)
  {
    forall c
      ensures InClass("A-Za-z0-9._:/-", c) <==> IsAlnum(c) || c in "._:/-"
    {
      WordClass("._:/-", "A-Za-z0-9._:/-", c);
    }
  }

  lemma BranchPattern(s: string)
    ensures BranchText(s) <==> Matches(Between("A-Za-z0-9._/-", 1, 255), s)
  {
    forall c
      ensures InClass("A-Za-z0-9._/-", c) <==> IsAlnum(c) || c in "._/-"
    {
      WordClass("._/-", "A-Za-z0-9._/-", c);
    }
  }

  lemma PathPattern(s: string)
    ensures RelPathText(s) <==> Matches(Between("A-Za-z0-9._/*-", 1, 256), s)
  {
    forall c
      ensures InClass("A-Za-z0-9._/*-", c) <==> IsAlnum(c) || c in "._/*-"
    {
      WordClass("._/*-", "A-Za-z0-9._/*-", c);
    }
  }

  lemma AlnumClass(c: char)
    ensures InClass("A-Za-z0-9", c) <==> IsAlnum(c)
    ensures InClass("A-Za-z0-9._-", c) <==> IsAlnum(c) || c in "._-"
  {
    WordClass("", "A-Za-z0-9", c);
    WordClass("._-", "A-Za-z0-9._-", c);
  }

  lemma OneCharacter(class_: string, s: string)
    ensures Matches(Between(class_, 1, 1), s) <==> |s| == 1 && InClass(class_, s[0])
  {
    if |s| == 1 {
      assert s[0] in s && forall c | c in s :: c == s[0];
      assert OneOf(In(class_), s[0]) <==> InClass(class_, s[0]);
    }
  }

  lemma AllOfFirstAndRest(s: string, p: char -> bool)
    requires s != ""
    ensures (forall c | c in s :: p(c)) <==> p(s[0]) && forall c | c in s[1..] :: p(c)
  {
    assert s == [s[0]] + s[1..];
  }

  lemma ServerNamePattern(s: string)
    ensures ServerNameText(s) <==> Matches(Then(Between("A-Za-z0-9", 1, 1), Between("A-Za-z0-9._-", 0, 127)), s)
  {
    forall c
      ensures InClass("A-Za-z0-9", c) <==> IsAlnum(c)
      ensures InClass("A-Za-z0-9._-", c) <==> IsAlnum(c) || c in "._-"
    {
      AlnumClass(c);
    }
    hide InClass, IsAlnum;
    FixedThen("A-Za-z0-9", 1, Between("A-Za-z0-9._-", 0, 127), s);
    if s != "" {
      OneCharacter("A-Za-z0-9", s[..1]);
      AllOfFirstAndRest(s, c => IsAlnum(c) || c in "._-");
    }
  }

  lemma DigitsAreDigits(s: string)
    ensures T.AllDigits(s) <==> forall c | c in s :: InClass("0-9", c)
  {
    forall c
      ensures InClass("0-9", c) <==> T.IsDigit(c)
    {
      Classes(c);
    }
    hide InClass;
    if forall c | c in s :: InClass("0-9", c) {
      assert forall i | 0 <= i < |s| :: s[i] in s;
    }
  }

  lemma VersionPattern(s: string)
    ensures VersionText(s) <==> Matches(Then(Text("v"), Plus("0-9")), s)
  {
    hide InClass;
    TextThen("v", Plus("0-9"), s);
    assert "v" <= s <==> s != "" && s[0] == 'v';
    if s != "" {
      DigitsAreDigits(s[1..]);
    }
  }

  lemma LowerWordIs(s: string)
    ensures LowerWord(s) <==> s != "" && AllOf(In("a-z"), s)
  {
    forall c
      ensures OneOf(In("a-z"), c) <==> IsLower(c)
    {
      Classes(c);
    }
    hide OneOf, IsLower;
  }

  lemma ReviewerNameIs(s: string)
    ensures (1 <= |s| <= 200 && forall c | c in s :: IsAlnum(c) || c in "._-") <==> Matches(REVIEWER_NAME, s)
  {
    forall c
      ensures OneOf(In("A-Za-z0-9._-"), c) <==> IsAlnum(c) || c in "._-"
    {
      AlnumClass(c);
    }
    hide OneOf, IsAlnum;
    RunIff(In("A-Za-z0-9._-"), 1, 200, s);
  }

  const REVIEWER_NAME := Between("A-Za-z0-9._-", 1, 200)
  const REVIEWER_REST := Then(Plus("a-z"), Then(Text(":"), REVIEWER_NAME))

  lemma ReviewerCut(s: string, i: nat, j: nat)
    requires i < j < |s|
    ensures ReviewerRefAt(s, i, j) <==>
            && i + 1 < j && i > 0 && s[i] == ':' && AllOf(In("a-z"), s[..i])
            && CutAt(In("a-z"), ":", REVIEWER_NAME, s[i + 1..], j - i - 1)
  {
    hide Matches, IsAlnum, LowerWord, AllOf;
    var tail := s[i + 1..];
    assert tail[..j - i - 1] == s[i + 1..j] && tail[j - i - 1] == s[j] && tail[j - i - 1 + 1..] == s[j + 1..];
    assert ":" <= tail[j - i - 1..] <==> s[j] == ':';
    LowerWordIs(s[..i]);
    LowerWordIs(s[i + 1..j]);
    ReviewerNameIs(s[j + 1..]);
  }

  /** `^[a-z]+:[a-z]+:[A-Za-z0-9._-]{1,200}$` */
  lemma ReviewerPattern(s: string)
    ensures ReviewerRefText(s) <==> Matches(Then(Plus("a-z"), Then(Text(":"), REVIEWER_REST)), s)
  {
    hide Matches, AllOf, ReviewerRefAt;
    RunThenIff(In("a-z"), ":", REVIEWER_REST, s);
    if i, j :| 0 <= i < j < |s| && ReviewerRefAt(s, i, j) {
      ReviewerCut(s, i, j);
      RunThenIff(In("a-z"), ":", REVIEWER_NAME, s[i + 1..]);
      assert ":" <= s[i..];
      assert CutAt(In("a-z"), ":", REVIEWER_REST, s, i);
    }
    if i :| 0 <= i <= |s| && CutAt(In("a-z"), ":", REVIEWER_REST, s, i) {
      assert s[i] == s[i..][0] == ':';
      RunThenIff(In("a-z"), ":", REVIEWER_NAME, s[i + 1..]);
      var j :| 0 <= j <= |s[i + 1..]| && CutAt(In("a-z"), ":", REVIEWER_NAME, s[i + 1..], j);
      assert ":" <= s[i + 1..][j..];
      ReviewerCut(s, i, i + 1 + j);
    }
  }

  const SPACE := " \t\n\r\U{000C}"
  const HOST_END := " \t\n\r\U{000C}/@:"

  lemma SpaceClasses(c: char)
    ensures OneOf(NotIn(SPACE), c) <==> !IsSpace(c)
    ensures OneOf(NotIn(HOST_END), c) <==> !IsSpace(c) && c !in "/@:"
  {
    Listed(SPACE, c);
    Listed(HOST_END, c);
  }

  const PORT := Maybe(Then(Text(":"), Plus("0-9")))
  const PATH := Maybe(Then(Text("/"), Run(NotIn(SPACE), 0, None)))
  const HOST := Run(NotIn(HOST_END), 1, None)

  lemma NoSpaceIs(s: string)
    ensures NoSpace(s) <==> AllOf(NotIn(SPACE), s)
    ensures (forall c | c in s :: !IsSpace(c) && c !in "/@:") <==> AllOf(NotIn(HOST_END), s)
  {
    forall c
      ensures OneOf(NotIn(SPACE), c) <==> !IsSpace(c)
      ensures OneOf(NotIn(HOST_END), c) <==> !IsSpace(c) && c !in "/@:"
    {
      SpaceClasses(c);
    }
    hide OneOf, IsSpace;
  }

  lemma PortIs(s: string)
    ensures Matches(PORT, s) <==> s == "" || (|s| >= 2 && s[0] == ':' && T.AllDigits(s[1..]))
  {
    hide InClass;
    TextThen(":", Plus("0-9"), s);
    assert ":" <= s <==> s != "" && s[0] == ':';
    if s != "" {
      RunIff(In("0-9"), 1, 0, s[1..]);
      DigitsAreDigits(s[1..]);
    }
  }

  lemma PathIs(s: string)
    ensures Matches(PATH, s) <==> s == "" || (s[0] == '/' && NoSpace(s[1..]))
  {
    hide InClass, NoSpace;
    TextThen("/", Run(NotIn(SPACE), 0, None), s);
    assert "/" <= s <==> s != "" && s[0] == '/';
    if s != "" {
      RunIff(NotIn(SPACE), 0, 0, s[1..]);
      NoSpaceIs(s[1..]);
    }
  }

  lemma HttpCut(s: string, host: nat, port: nat)
    requires host <= port <= |s|
    ensures HttpPartsAt(s, host, port) <==> CutTwice(HOST, PORT, PATH, s, host, port)
  {
    hide Matches, NoSpace, IsSpace;
    RunIff(NotIn(HOST_END), 1, 0, s[..host]);
    NoSpaceIs(s[..host]);
    PortIs(s[host..port]);
    PathIs(s[port..]);
    if host < port {
      assert s[host..port][1..] == s[host + 1..port];
    }
    if port < |s| {
      assert s[port..][1..] == s[port + 1..];
    }
  }

  lemma HttpRestIs(s: string)
    ensures HttpRest(s) <==> Matches(Then(HOST, Then(PORT, PATH)), s)
  {
    hide Matches, CutTwice, HttpPartsAt;
    ThenTwice(HOST, PORT, PATH, s);
    forall host, port | 0 <= host <= port <= |s|
      ensures HttpPartsAt(s, host, port) <==> CutTwice(HOST, PORT, PATH, s, host, port)
    {
      HttpCut(s, host, port);
    }
  }

  const HTTP_URI := Then(Text("http"), Then(Maybe(Text("s")), Then(Text("://"), Then(HOST, Then(PORT, PATH)))))

  /** `^https?://[^\s/@:]+(?::[0-9]+)?(?:/[^\s]*)?$` */
  lemma RepoUriPattern(s: string)
    ensures RepoUriText(s) <==> Matches(HTTP_URI, s)
  {
    hide Matches, HttpRest;
    var rest := Then(HOST, Then(PORT, PATH));
    TextThen("http", Then(Maybe(Text("s")), Then(Text("://"), rest)), s);
    if "http" <= s {
      MaybeTextThen("s", Then(Text("://"), rest), s[4..]);
      TextThen("://", rest, s[4..]);
      SchemeSplits(s);
      if "://" <= s[4..] {
        assert s[4..][3..] == s[7..];
        HttpRestIs(s[7..]);
      }
      if "s" <= s[4..] {
        TextThen("://", rest, s[4..][1..]);
        if "://" <= s[4..][1..] {
          assert s[4..][1..][3..] == s[8..];
          HttpRestIs(s[8..]);
        }
      }
    }
  }

  lemma SchemeSplits(s: string)
    requires "http" <= s
    ensures "http://" <= s <==> "://" <= s[4..]
    ensures "https://" <= s <==> "s" <= s[4..] && "://" <= s[4..][1..]
  {
  }

  const UNSPACED := Run(NotIn(SPACE), 1, None)
  const STORE_URI := Then(Or(Text("artifact"), Or(Text("s3"), Text("oci"))), Then(Text("://"), UNSPACED))
  const SBOM_URI := Then(Or(Text("spdx"), Text("cyclonedx")), Then(Text(":"), UNSPACED))

  lemma RestIs(s: string, scheme: string, mark: string)
    ensures HasRest(s, scheme + mark) <==> Matches(Then(Text(scheme), Then(Text(mark), UNSPACED)), s)
  {
    hide Matches, NoSpace;
    TextThen(scheme, Then(Text(mark), UNSPACED), s);
    if scheme <= s {
      TextThen(mark, UNSPACED, s[|scheme|..]);
      assert scheme + mark <= s <==> mark <= s[|scheme|..] by {
        assert s == scheme + s[|scheme|..];
        assert mark <= s[|scheme|..] ==> s[|scheme|..] == mark + s[|scheme|..][|mark|..];
      }
      if mark <= s[|scheme|..] {
        assert s[|scheme|..][|mark|..] == s[|scheme + mark|..];
        RunIff(NotIn(SPACE), 1, 0, s[|scheme + mark|..]);
        NoSpaceIs(s[|scheme + mark|..]);
      }
    } else {
      assert !(scheme + mark <= s);
    }
  }

  /** The pattern of URIs that carry no content: `https?`, `artifact|s3|oci` and `spdx|cyclonedx`. */
  lemma SafeUriPattern(s: string)
    ensures SafeUriText(s) <==> Matches(Or(HTTP_URI, Or(STORE_URI, SBOM_URI)), s)
  {
    RepoUriPattern(s);
    StoreUriIs(s);
    SbomUriIs(s);
    hide RepoUriText, HasRest;
    assert Matches(Or(HTTP_URI, Or(STORE_URI, SBOM_URI)), s) <==>
           Matches(HTTP_URI, s) || Matches(STORE_URI, s) || Matches(SBOM_URI, s) by {
      hide HTTP_URI, STORE_URI, SBOM_URI;
    }
  }

  lemma StoreUriIs(s: string)
    ensures Matches(STORE_URI, s) <==> HasRest(s, "artifact://") || HasRest(s, "s3://") || HasRest(s, "oci://")
  {
    hide Matches, HasRest;
    var rest := Then(Text("://"), UNSPACED);
    OrThen(Text("artifact"), Or(Text("s3"), Text("oci")), rest, s);
    OrThen(Text("s3"), Text("oci"), rest, s);
    RestIs(s, "artifact", "://");
    RestIs(s, "s3", "://");
    RestIs(s, "oci", "://");
    assert "artifact" + "://" == "artifact://" && "s3" + "://" == "s3://" && "oci" + "://" == "oci://";
  }

  lemma SbomUriIs(s: string)
    ensures Matches(SBOM_URI, s) <==> HasRest(s, "spdx:") || HasRest(s, "cyclonedx:")
  {
    hide Matches, HasRest;
    OrThen(Text("spdx"), Text("cyclonedx"), Then(Text(":"), UNSPACED), s);
    RestIs(s, "spdx", ":");
    RestIs(s, "cyclonedx", ":");
    assert "spdx" + ":" == "spdx:" && "cyclonedx" + ":" == "cyclonedx:";
  }

  /** `^.{1,max}$`, as CUE has it; JSON Schema only counts characters. */
  lemma LinePattern(s: string, max: nat)
    ensures IsText(Cue, Str(s), max) <==> Matches(Run(Dot, 1, Some(max)), s)
    ensures IsText(JsonSchema, Str(s), max) <==> 1 <= |s| <= max
  {
    RunIff(Dot, 1, max, s);
  }

  const REF := Run(Dot, 1, None)
  const WORKFLOW_PATH := Then(Run(NotIn("@"), 1, None), Then(Text("@"), REF))
  const REPOSITORY := Then(Run(NotIn("/"), 1, None), Then(Text("/.github/workflows/"), WORKFLOW_PATH))
  const OWNER := Then(Run(NotIn("/"), 1, None), Then(Text("/"), REPOSITORY))

  lemma NotOneIs(mark: char, s: string)
    requires mark != '-'
    ensures AllOf(NotIn([mark]), s) <==> mark !in s
  {
    forall c
      ensures OneOf(NotIn([mark]), c) <==> c != mark
    {
      Listed([mark], c);
    }
    hide OneOf;
  }

  lemma RefIs(s: string)
    ensures Matches(REF, s) <==> s != "" && '\n' !in s
  {
    RunIff(Dot, 1, 0, s);
  }

  /** The three cuts of a workflow reference, each seen from where the last one ended. */
  lemma WorkflowCut(s: string, owner: nat, repo: nat, path: nat)
    requires owner < repo <= path < |s| && owner + 1 < repo && repo + |WORKFLOWS| <= path
    ensures WorkflowPartsAt(s, owner, repo, path) <==>
            && owner > 0 && s[owner] == '/' && AllOf(NotIn("/"), s[..owner])
            && WORKFLOWS <= s[repo..] && AllOf(NotIn("/"), s[owner + 1..repo])
            && CutAt(NotIn("@"), "@", REF, s[repo + |WORKFLOWS|..], path - repo - |WORKFLOWS|)
  {
    hide Matches, OneOf, AllOf;
    NotOneIs('/', s[..owner]);
    NotOneIs('/', s[owner + 1..repo]);
    var start := repo + |WORKFLOWS|;
    var tail := s[start..];
    assert tail[..path - start] == s[start..path] && tail[path - start..] == s[path..] && tail[path - start + 1..] == s[path + 1..];
    assert "@" <= s[path..] <==> s[path] == '@';
    NotOneIs('@', s[start..path]);
    RefIs(s[path + 1..]);
  }

  lemma WorkflowMatches(s: string, owner: nat, repo: nat, path: nat)
    requires owner < repo <= path < |s| && WorkflowPartsAt(s, owner, repo, path)
    ensures Matches(OWNER, s)
  {
    hide Matches, OneOf, AllOf, WorkflowPartsAt;
    assert owner + 1 < repo && repo + |WORKFLOWS| <= path by {
      WorkflowPlaces(s, owner, repo, path);
    }
    WorkflowCut(s, owner, repo, path);
    var name, tail := s[owner + 1..], s[repo + |WORKFLOWS|..];
    RunThenIff(NotIn("@"), "@", REF, tail);
    var r := repo - owner - 1;
    assert name[..r] == s[owner + 1..repo] && name[r..] == s[repo..] && name[r + |WORKFLOWS|..] == tail;
    assert CutAt(NotIn("/"), WORKFLOWS, WORKFLOW_PATH, name, r);
    RunThenIff(NotIn("/"), WORKFLOWS, WORKFLOW_PATH, name);
    assert "/" <= s[owner..];
    assert CutAt(NotIn("/"), "/", REPOSITORY, s, owner);
    RunThenIff(NotIn("/"), "/", REPOSITORY, s);
  }

  lemma WorkflowPlaces(s: string, owner: nat, repo: nat, path: nat)
    requires owner < repo <= path < |s| && WorkflowPartsAt(s, owner, repo, path)
    ensures owner + 1 < repo && repo + |WORKFLOWS| <= path
  {
  }

  lemma MatchIsWorkflow(s: string)
    requires Matches(OWNER, s)
    ensures WorkflowRest(s)
  {
    hide Matches, OneOf, AllOf, WorkflowPartsAt;
    RunThenIff(NotIn("/"), "/", REPOSITORY, s);
    var owner :| 0 <= owner <= |s| && CutAt(NotIn("/"), "/", REPOSITORY, s, owner);
    assert s[owner] == s[owner..][0] == '/';
    var name := s[owner + 1..];
    RunThenIff(NotIn("/"), WORKFLOWS, WORKFLOW_PATH, name);
    var r :| 0 <= r <= |name| && CutAt(NotIn("/"), WORKFLOWS, WORKFLOW_PATH, name, r);
    var repo := owner + 1 + r;
    assert name[..r] == s[owner + 1..repo] && name[r..] == s[repo..];
    var tail := s[repo + |WORKFLOWS|..];
    assert name[r + |WORKFLOWS|..] == tail;
    RunThenIff(NotIn("@"), "@", REF, tail);
    var p :| 0 <= p <= |tail| && CutAt(NotIn("@"), "@", REF, tail, p);
    assert "@" <= tail[p..];
    WorkflowCut(s, owner, repo, repo + |WORKFLOWS| + p);
    assert WorkflowPartsAt(s, owner, repo, repo + |WORKFLOWS| + p);
  }

  /** `^https://github\.com/[^/]+/[^/]+/\.github/workflows/[^@]+@.+$` */
  lemma WorkflowPattern(s: string)
    ensures GitHubWorkflowText(s) <==> Matches(Then(Text("https://github.com/"), OWNER), s)
  {
    hide Matches, WorkflowPartsAt;
    TextThen("https://github.com/", OWNER, s);
    if GITHUB <= s {
      var rest := s[|GITHUB|..];
      if owner, repo, path :| 0 <= owner < repo <= path < |rest| && WorkflowPartsAt(rest, owner, repo, path) {
        WorkflowMatches(rest, owner, repo, path);
      }
      if Matches(OWNER, rest) {
        MatchIsWorkflow(rest);
      }
    }
  }

  function Field(n: nat, mark: string, rest: Regex): Regex {
    Then(Between("0-9", n, n), Then(Text(mark), rest))
  }

  lemma FieldIs(n: nat, mark: char, rest: Regex, s: string)
    ensures Matches(Field(n, [mark], rest), s) <==>
            |s| > n && T.AllDigits(s[..n]) && s[n] == mark && Matches(rest, s[n + 1..])
  {
    hide Matches, InClass;
    FixedThen("0-9", n, Then(Text([mark]), rest), s);
    if n <= |s| {
      RunIff(In("0-9"), n, n, s[..n]);
      DigitsAreDigits(s[..n]);
      TextThen([mark], rest, s[n..]);
      assert [mark] <= s[n..] <==> n < |s| && s[n] == mark;
      if n < |s| {
        assert s[n..][1..] == s[n + 1..];
      }
    }
  }

  const FRACTION := Maybe(Then(Text("."), Plus("0-9")))
  const SECONDS := Then(Between("0-9", 2, 2), Then(FRACTION, Text("Z")))
  const TIMESTAMP :=
    Field(4, "-", Field(2, "-", Field(2, "T", Field(2, ":", Field(2, ":", SECONDS)))))

  lemma TextIs(text: string, s: string)
    ensures Matches(Text(text), s) <==> s == text
  {
  }

  lemma FractionIs(s: string)
    ensures Matches(Then(FRACTION, Text("Z")), s) <==>
            s == "Z" || (|s| >= 3 && s[0] == '.' && T.AllDigits(s[1..|s| - 1]) && s[|s| - 1] == 'Z')
  {
    hide Matches, T.AllDigits;
    if s == "Z" || (|s| >= 3 && s[0] == '.' && T.AllDigits(s[1..|s| - 1]) && s[|s| - 1] == 'Z') {
      var n := |s| - 1;
      FractionDigits(s[..n]);
      TextIs("Z", s[n..]);
      assert s[..n] == "" || s[..n][1..] == s[1..n];
      ThenAt(FRACTION, Text("Z"), s, n);
    }
    if Matches(Then(FRACTION, Text("Z")), s) {
      var k := SplitOf(FRACTION, Text("Z"), s);
      FractionDigits(s[..k]);
      TextIs("Z", s[k..]);
      assert s == s[..k] + "Z" && k == |s| - 1;
      assert k > 0 ==> s[..k][1..] == s[1..k];
    }
  }

  lemma FractionDigits(s: string)
    ensures Matches(FRACTION, s) <==> s == "" || (|s| >= 2 && s[0] == '.' && T.AllDigits(s[1..]))
  {
    hide InClass;
    TextThen(".", Plus("0-9"), s);
    assert "." <= s <==> s != "" && s[0] == '.';
    if s != "" {
      RunIff(In("0-9"), 1, 0, s[1..]);
      DigitsAreDigits(s[1..]);
    }
  }

  lemma SecondsAre(s: string)
    ensures Matches(SECONDS, s) <==>
            && |s| >= 3 && T.AllDigits(s[..2])
            && (s[2..] == "Z" || (|s| >= 5 && s[2] == '.' && T.AllDigits(s[3..|s| - 1]) && s[|s| - 1] == 'Z'))
  {
    hide Matches, InClass;
    FixedThen("0-9", 2, Then(FRACTION, Text("Z")), s);
    if 2 <= |s| {
      RunIff(In("0-9"), 2, 2, s[..2]);
      DigitsAreDigits(s[..2]);
      FractionIs(s[2..]);
      var n := |s| - 1;
      if |s| >= 5 {
        assert s[2..][1..|s[2..]| - 1] == s[3..n] && s[2..][|s[2..]| - 1] == s[n];
      }
    }
  }

  /** `^\d{4}-\d{2}-\d{2}T\d{2}:\d{2}:\d{2}(?:\.\d+)?Z$` */
  lemma TimestampPattern(s: string)
    ensures Shape(s) <==> Matches(TIMESTAMP, s)
  {
    hide Matches, T.AllDigits;
    FieldIs(4, '-', Field(2, "-", Field(2, "T", Field(2, ":", Field(2, ":", SECONDS)))), s);
    if |s| >= 20 {
      FieldIs(2, '-', Field(2, "T", Field(2, ":", Field(2, ":", SECONDS))), s[5..]);
      FieldIs(2, 'T', Field(2, ":", Field(2, ":", SECONDS)), s[8..]);
      FieldIs(2, ':', Field(2, ":", SECONDS), s[11..]);
      FieldIs(2, ':', SECONDS, s[14..]);
      SecondsAre(s[17..]);
      Slices(s);
    } else if Matches(TIMESTAMP, s) {
      NotShort(s);
    }
  }

  lemma NotShort(s: string)
    requires Matches(TIMESTAMP, s)
    ensures |s| >= 20
  {
    hide Matches, T.AllDigits;
    FieldIs(4, '-', Field(2, "-", Field(2, "T", Field(2, ":", Field(2, ":", SECONDS)))), s);
    FieldIs(2, '-', Field(2, "T", Field(2, ":", Field(2, ":", SECONDS))), s[5..]);
    FieldIs(2, 'T', Field(2, ":", Field(2, ":", SECONDS)), s[5..][3..]);
    FieldIs(2, ':', Field(2, ":", SECONDS), s[5..][3..][3..]);
    FieldIs(2, ':', SECONDS, s[5..][3..][3..][3..]);
    SecondsAre(s[5..][3..][3..][3..][3..]);
  }

  lemma Slices(s: string)
    requires |s| >= 20
    ensures s[5..][..2] == s[5..7] && s[5..][2] == s[7] && s[5..][3..] == s[8..]
    ensures s[8..][..2] == s[8..10] && s[8..][2] == s[10] && s[8..][3..] == s[11..]
    ensures s[11..][..2] == s[11..13] && s[11..][2] == s[13] && s[11..][3..] == s[14..]
    ensures s[14..][..2] == s[14..16] && s[14..][2] == s[16] && s[14..][3..] == s[17..]
    ensures s[17..][..2] == s[17..19] && s[17..][2] == s[19] && s[17..][2..] == s[19..]
    ensures s[17..][2..] == "Z" <==> |s| == 20 && s[19] == 'Z'
    ensures |s| >= 22 ==> s[17..][3..|s[17..]| - 1] == s[20..|s| - 1] && s[17..][|s[17..]| - 1] == s[|s| - 1]
  {
  }
}
