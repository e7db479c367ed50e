/** What no accepted predicate carries, and no valid statement publishes. */
module Privacy {
  import opened Basics
  import opened Json
  import opened Text
  import opened Patterns
  import opened Schema
  import opened Verifier
  import opened Decisions
  import opened Reports

  /** Raw content is only referred to, and the reference names who may see it; nothing stored is visible to none. */
  predicate RawWithheld(j: Value) {
    && j.Obj? && j.fields.Keys <= {"stored", "visibility", "encryptedRef", "retention"}
    && TextOf(j, "visibility") in {"none", "team", "secret", "encrypted"}
    && (Member(j, "stored") == Bool(true) <==> TextOf(j, "visibility") != "none")
    && (TextOf(j, "visibility") == "encrypted" ==> Has(j, "encryptedRef"))
  }

  /** No content in a URI: none of the schemes the contracts allow embeds any. */
  predicate OnlyRefers(uri: string) {
    !("data:" <= uri)
  }

  /** Before the first slash of what follows the scheme there is no `@`, so no user and no password. */
  predicate NoCredentials(url: string) {
    && ("http://" <= url ==> forall i | 7 <= i < |url| && url[i] == '@' :: '/' in url[7..i])
    && ("https://" <= url ==> forall i | 8 <= i < |url| && url[i] == '@' :: '/' in url[8..i])
  }

  predicate EvidenceWithheld(e: Value) {
    && (TextOf(e, "type") in {"raw-prompt-ref", "raw-tool-output-ref"} ==>
          TextOf(e, "visibility") in {"team", "secret", "encrypted"})
    && OnlyRefers(TextOf(e, "uri")) && TextMember(Member(e, "digest"), "sha256").Some?
  }

  /** An extension is a reference by digest, and nothing else. */
  predicate ExtensionWithheld(j: Value) {
    && j.Obj? && j.fields.Keys <= {"uri", "digest", "mediaType", "visibility", "retention"}
    && OnlyRefers(TextOf(j, "uri")) && TextMember(Member(j, "digest"), "sha256").Some?
  }

  /** What a predicate keeps to itself. */
  predicate Withholds(p: Value) {
    var privacy, extensions := Member(p, "privacy"), Member(p, "extensions");
    && RawWithheld(Member(privacy, "rawPrompt")) && RawWithheld(Member(privacy, "rawToolOutputs"))
    && Member(Member(privacy, "publicTransparencyLog"), "includesRawContent") == Bool(false)
    && NoCredentials(TextOf(Member(p, "repo"), "url")) && '@' !in TextOf(Member(p, "agent"), "declaredIdentity")
    && (forall e | e in ItemsMember(p, "evidence") :: EvidenceWithheld(e))
    && (forall r | r in ItemsMember(Member(p, "humanApproval"), "reviewerRefs") :: r.Str? && '@' !in r.s)
    && (extensions.Obj? ==> forall key | key in extensions.fields :: ExtensionWithheld(extensions.fields[key]))
  }

  lemma RawIsWithheld(l: Layer, j: Value)
    requires IsRawEvidence(l, j)
    ensures RawWithheld(j)
  {
    hide SafeUriText;
    assert Member(j, "visibility").Str? && Member(j, "stored").Bool?;
  }

  lemma HostHasNoAt(s: string)
    requires HttpRest(s)
    ensures forall i | 0 <= i < |s| && s[i] == '@' :: '/' in s[..i]
  {
    var host, port :| 0 <= host <= port <= |s| && HttpPartsAt(s, host, port);
    forall i | 0 <= i < port
      ensures s[i] != '@'
    {
      if i < host {
        assert s[..host][i] in s[..host];
      } else if i > host {
        assert IsDigit(s[host + 1..port][i - host - 1]);
      }
    }
    forall i | port < i < |s|
      ensures '/' in s[..i]
    {
      assert s[..i][port] == '/';
    }
  }

  lemma UrlHasNoCredentials(url: string)
    requires RepoUriText(url)
    ensures NoCredentials(url)
  {
    hide HttpRest;
    if "http://" <= url && HttpRest(url[7..]) {
      HostHasNoAt(url[7..]);
      assert forall i | 7 <= i < |url| :: url[7..][i - 7] == url[i] && url[7..][..i - 7] == url[7..i];
    }
    if "https://" <= url && HttpRest(url[8..]) {
      HostHasNoAt(url[8..]);
      assert forall i | 8 <= i < |url| :: url[8..][i - 8] == url[i] && url[8..][..i - 8] == url[8..i];
    }
    assert ("http://" <= url ==> url[4] == ':') && ("https://" <= url ==> url[4] == 's');
  }

  lemma SafeUriRefers(uri: string)
    requires SafeUriText(uri)
    ensures OnlyRefers(uri)
  {
    hide HttpRest, NoSpace;
    assert uri[0] in {'h', 'a', 's', 'o', 'c'};
  }

  lemma EvidenceIsWithheld(l: Layer, v: Version, e: Value)
    requires IsEvidence(l, v, e)
    ensures EvidenceWithheld(e)
  {
    hide SafeUriText, OnlyRefers;
    SafeUriRefers(TextOf(e, "uri"));
  }

  lemma ExtensionIsWithheld(l: Layer, j: Value)
    requires IsExtension(l, j)
    ensures ExtensionWithheld(j)
  {
    hide SafeUriText, OnlyRefers;
    SafeUriRefers(TextOf(j, "uri"));
  }

  lemma ReviewerHasNoAt(s: string)
    requires ReviewerRefText(s)
    ensures '@' !in s
  {
    var i, j :| 0 <= i < j < |s| && ReviewerRefAt(s, i, j);
    assert '@' !in "._-";
    forall k | 0 <= k < |s|
      ensures s[k] != '@'
    {
      if k < i {
        assert s[..i][k] in s[..i];
      } else if i < k < j {
        assert s[i + 1..j][k - i - 1] in s[i + 1..j];
      } else if k > j {
        assert s[j + 1..][k - j - 1] in s[j + 1..];
      }
    }
  }

  lemma NamesAreWithheld(l: Layer, v: Version, p: Value)
    requires IsRepo(l, Member(p, "repo")) && IsAgent(l, v, Member(p, "agent"))
    requires IsHumanApproval(l, Member(p, "humanApproval"))
    ensures NoCredentials(TextOf(Member(p, "repo"), "url")) && '@' !in TextOf(Member(p, "agent"), "declaredIdentity")
    ensures forall r | r in ItemsMember(Member(p, "humanApproval"), "reviewerRefs") :: r.Str? && '@' !in r.s
  {
    hide RepoUriText, ReviewerRefText, NoCredentials, GitCommit, IsPullRequest, BranchText;
    UrlHasNoCredentials(TextOf(Member(p, "repo"), "url"));
    forall r | r in ItemsMember(Member(p, "humanApproval"), "reviewerRefs")
      ensures r.Str? && '@' !in r.s
    {
      assert IsReviewerRef(r);
      ReviewerHasNoAt(r.s);
    }
  }

  lemma CoreWithholds(l: Layer, v: Version, p: Value)
    requires CoreShape(l, v, p) && OptionalShape(l, p)
    ensures Withholds(p)
  {
    hide IsRepo, IsAgent, IsHumanApproval, IsRawEvidence, IsEvidence, IsExtension, IsTimestamps, IsEnvironment, IsModel;
    hide RawWithheld, EvidenceWithheld, ExtensionWithheld, NoCredentials, IsRuntime, IsChanges, IsSidecar, IsMaterial;
    var privacy, extensions := Member(p, "privacy"), Member(p, "extensions");
    RawIsWithheld(l, Member(privacy, "rawPrompt"));
    RawIsWithheld(l, Member(privacy, "rawToolOutputs"));
    NamesAreWithheld(l, v, p);
    forall e | e in ItemsMember(p, "evidence")
      ensures EvidenceWithheld(e)
    {
      EvidenceIsWithheld(l, v, e);
    }
    if extensions.Obj? {
      forall key | key in extensions.fields
        ensures ExtensionWithheld(extensions.fields[key])
      {
        ExtensionIsWithheld(l, extensions.fields[key]);
      }
    }
  }

  /** Each contract alone keeps raw content, inline data, credentials and addresses out of a predicate. */
  lemma AcceptedWithholds(l: Layer, v: Version, p: Value)
    requires PredicateShape(l, v, p)
    ensures Withholds(p)
  {
    hide CoreShape, OptionalShape, Withholds;
    assert PredicatePart(Core, l, v, p) && PredicatePart(Extras, l, v, p);
    CoreWithholds(l, v, p);
  }

  /** What a valid statement puts on a public log, or publishes as an extension. */
  predicate PublishesMetadataOnly(p: Value) {
    && (forall e | e in ItemsMember(p, "evidence") && TextOf(e, "storage") == "transparency-log" ::
          && TextOf(e, "type") in {"local-log-root", "builder-record", "agent-config", "mcp-server"}
          && TextOf(e, "visibility") == "public")
    && (Member(p, "extensions").Obj? ==>
          forall key | key in Member(p, "extensions").fields ::
            TextOf(Member(p, "extensions").fields[key], "visibility") != "public")
  }

  lemma NoLeak(s: Value)
    requires !Leaks(s)
    ensures PublishesMetadataOnly(Member(s, "predicate"))
  {
  }

  /** A valid statement withholds all that, and publishes metadata only. */
  lemma ValidIsPrivate(s: Value, x: Value)
    requires Verdict(Some(DEFAULT), s, x).valid
    ensures Withholds(Member(s, "predicate")) && PublishesMetadataOnly(Member(s, "predicate"))
  {
    hide *;
    ValidIffEveryGateHolds(s, x);
    var v := ReachedVersion(s, x);
    ReachesIff(v, s, x);
    AcceptedIff(v, Member(s, "predicate"), x);
    AcceptedWithholds(JsonSchema, v, Member(s, "predicate"));
    ValidIffNoOffence(s, x);
    LeakOffends(s, x);
    NoLeak(s);
  }

  lemma LeakOffends(s: Value, x: Value)
    ensures Leaks(s) ==> Offends("privacy_violation", s, x)
  {
    hide Leaks;
  }
}
