/** The string patterns of the predicate and context contracts. */
module Patterns {
  import opened Text

  predicate IsLower(c: char) { 'a' <= c <= 'z' }
  predicate IsAlnum(c: char) { IsLower(c) || 'A' <= c <= 'Z' || IsDigit(c) }
  predicate IsSpace(c: char) { c in {' ', '\t', '\n', '\r', '\U{000C}'} }
  predicate IsLowerHex(c: char) { IsDigit(c) || 'a' <= c <= 'f' }

  predicate LowerHex(s: string, n: nat) {
    |s| == n && forall c | c in s :: IsLowerHex(c)
  }

  predicate HexSha256(s: string) { LowerHex(s, 64) }
  predicate GitCommit(s: string) { LowerHex(s, 40) || LowerHex(s, 64) }

  predicate RunIdText(s: string) {
    8 <= |s| <= 128 && forall c | c in s :: IsAlnum(c) || c in "._:-"
  }

  /** `declaredIdentity` and delegation identities: note that `@` is not in the class. */
  predicate IdentityText(s: string) {
    1 <= |s| <= 256 && forall c | c in s :: IsAlnum(c) || c in "._:/-"
  }

  predicate BranchText(s: string) {
    1 <= |s| <= 255 && forall c | c in s :: IsAlnum(c) || c in "._/-"
  }

  predicate RelPathText(s: string) {
    1 <= |s| <= 256 && forall c | c in s :: IsAlnum(c) || c in "._/*-"
  }

  predicate ServerNameText(s: string) {
    1 <= |s| <= 128 && IsAlnum(s[0]) && forall c | c in s :: IsAlnum(c) || c in "._-"
  }

  predicate VersionText(s: string) {
    |s| >= 2 && s[0] == 'v' && AllDigits(s[1..])
  }

  predicate LowerWord(s: string) {
    s != "" && forall c | c in s :: IsLower(c)
  }

  predicate ReviewerRefAt(s: string, i: nat, j: nat)
    requires i < j < |s|
  {
    && LowerWord(s[..i]) && s[i] == ':' && LowerWord(s[i + 1..j]) && s[j] == ':'
    && 1 <= |s[j + 1..]| <= 200 && forall c | c in s[j + 1..] :: IsAlnum(c) || c in "._-"
  }

  predicate ReviewerRefText(s: string) {
    exists i, j | 0 <= i < j < |s| :: ReviewerRefAt(s, i, j)
  }

  predicate NoSpace(s: string) {
    forall c | c in s :: !IsSpace(c)
  }

  /** What follows `http://`: a host, an optional port and an optional path. */
  predicate HttpPartsAt(s: string, host: nat, port: nat)
    requires host <= port <= |s|
  {
    && host > 0 && (forall c | c in s[..host] :: !IsSpace(c) && c !in "/@:")
    && (host == port || (port >= host + 2 && s[host] == ':' && AllDigits(s[host + 1..port])))
    && (port == |s| || (s[port] == '/' && NoSpace(s[port + 1..])))
  }

  predicate HttpRest(s: string) {
    exists host, port | 0 <= host <= port <= |s| :: HttpPartsAt(s, host, port)
  }

  predicate HasRest(s: string, prefix: string) {
    prefix <= s && |prefix| < |s| && NoSpace(s[|prefix|..])
  }

  predicate RepoUriText(s: string) {
    || ("http://" <= s && HttpRest(s[7..]))
    || ("https://" <= s && HttpRest(s[8..]))
  }

  predicate SafeUriText(s: string) {
    || RepoUriText(s)
    || HasRest(s, "artifact://") || HasRest(s, "s3://") || HasRest(s, "oci://")
    || HasRest(s, "spdx:") || HasRest(s, "cyclonedx:")
  }

  const GITHUB := "https://github.com/"
  const WORKFLOWS := "/.github/workflows/"

  /** `owner/repo/.github/workflows/path@ref` cut at the given places. */
  predicate WorkflowPartsAt(s: string, owner: nat, repo: nat, path: nat)
    requires owner < repo <= path < |s|
  {
    && owner > 0 && '/' !in s[..owner] && s[owner] == '/'
    && owner + 1 < repo && '/' !in s[owner + 1..repo]
    && WORKFLOWS <= s[repo..] && repo + |WORKFLOWS| < path && '@' !in s[repo + |WORKFLOWS|..path]
    && s[path] == '@' && path + 1 < |s| && '\n' !in s[path + 1..]
  }

  predicate WorkflowRest(s: string) {
    exists owner, repo, path | 0 <= owner < repo <= path < |s| :: WorkflowPartsAt(s, owner, repo, path)
  }

  /** The builder id a GitHub Actions environment must carry; it always holds an `@`. */
  predicate GitHubWorkflowText(s: string) {
    GITHUB <= s && WorkflowRest(s[|GITHUB|..])
  }

  lemma WorkflowTextIsNoIdentity(s: string)
    requires GitHubWorkflowText(s)
    ensures !IdentityText(s)
  {
    var rest := s[|GITHUB|..];
    var owner, repo, path :| 0 <= owner < repo <= path < |rest| && WorkflowPartsAt(rest, owner, repo, path);
    assert s[|GITHUB| + path] == '@' && '@' in s;
  }
}
