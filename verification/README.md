# Agent provenance verification, modelled in Dafny

The project models how `agentattest` decides whether an in-toto statement about a coding-agent run is
valid for a repository, and proves what that decision guarantees.

* **Decision.** A statement and a verifier context pass through version routing, JSON Schema, CUE, the
  Rego policy and the ordering of failure codes. JSON documents are trees (`Json`), the two contracts of
  a version are shapes that differ in a few marked places (`Schema`), and policy rules are predicates over
  terms that may be undefined (`Rego`, `Policy`). `Gates` restates the policy as one total, typed condition
  per failure code; `Refinement` proves that the two agree, and `Decisions` that a statement is valid if
  and only if it is routed, accepted and every gate holds. `Outcomes` and `Reports` say the same of the
  documents' own members and texts, code by code.
* **Contracts.** `Regexes` gives the regular expressions of the contracts a meaning, and `PatternTexts` proves
  each text predicate equal to its expression. `Closedness`, `Bounds` and `FreeWords` say what acceptance rules
  out and leaves free at any depth; `Privacy` what a valid statement withholds.
* **Change.** `Monotonicity`, `Rewriting` and `Lifting` say what a lower level, a larger allowlist or the
  step from version 0 to version 1 does to whole documents and their codes. `Consequences` says what the
  reported codes mean for the subjects of a statement.
* **Time and logs.** `Calendar`, `Timestamps` and `TimestampOrder` relate the string order of timestamps to
  their instants, and `Timing` carries order and freshness to whole documents. `Merkle` models the trees and
  audit paths of RFC 6962 over any hash function, `Rekor` the decision on a bundle's inclusion proof, and
  `BundleSources` when that proof and the envelope come from one object.
* **Producers.** `Creation` and `Capturing` build statements step by step; `ProducedVerdicts` proves what
  the verifier makes of them. `Identity` and `BundleVerdicts` do the same for the context that
  `verify bundle` derives from a certificate. `AttestedRuns` and `BundledRuns` show statements above
  evidence grade that verify, with a full context and in a bundle.
* **Helpers.** `BundleSearch`, `Decimals`, `FailureOrder` with `StableSort`, and the indexing table of the
  registry (`RegistryTable`).

Documented behaviour and code disagree in four places; the model follows the code:

* Subject sets are documented as equal (README.md:457), but a claimed subject without a `name` is not
  compared, since the rule's message is undefined for it. `Consequences.SubjectsExactIff` gives the exact
  condition, `Consequences.UnnamedSubjectStaysValid` the failing family.
* `Add` is documented as idempotent (internal/registry/registry.go:77-79), but with an empty path each
  call adds rows. See `RegistryTable.AddIsIdempotentIff`.
* Comparing timestamps as text is said to work (docs/CONTRACT_PATCH_PLAN_2026Q1.md:89), but it misreads
  some pairs within one second. `TimestampOrder.TextOrderIff` says which; `Timing.ForwardRunIsRejected` and
  `Timing.BackwardRunIsAccepted` carry both families to whole predicates.
* A run older than the window is documented as stale (docs/VERIFICATION_MODEL.md:139), but the policy skips
  the age of a run whose finish, or whose clock, it cannot represent: one outside 64-bit nanoseconds, or a
  leap second, which the contracts accept. `Timing.StalenessIsExactIff` gives the condition on documents,
  `Timing.LeapSecondStaysValid` and `Timing.AncientStaysValid` the failing families.

Hypotheses stand where the source relies on others: hash functions are parameters with outputs of 32 bytes,
and no lemma supposes them free of collisions; a process id has 64 bits; the digest function prints 64
hexadecimal digits.

## Model

| member | source | states |
|---|---|---|
| `Verifier.Phase01` | internal/verify/verify.go:90-114 | Each of the three codes is returned if and only if the statement type is not in-toto Statement v1, the predicate type is neither of the two known ones, or the declared version is unknown or contradicts the predicate type; the result is empty exactly when routing is clean |
| `Verifier.CollectStrings` | internal/policy/rego.go:27-40 | In whatever order the members of an object come, exactly the strings of the tree are appended to the sink |
| `Verifier.CollectItems` | internal/policy/rego.go:31-34 | Exactly the strings of the elements of an array are appended |
| `Verifier.CollectMembers` | internal/policy/rego.go:35-38 | Exactly the strings of the members of an object are appended, whichever member comes next |
| `Verifier.PolicyCodes` | internal/policy/rego.go:9-25 | Fails exactly when evaluation does; otherwise returns exactly the strings of the policy value, and none for an empty result set |
| `Decisions.NoResultIsValid` | internal/policy/rego.go:18-20 | An accepted statement is valid when the policy gives no result, whatever the contract files |
| `Verifier.Finish` | internal/verify/verify.go:130-137 | The result is a function of the level and of the set of codes alone: neither repetition nor enumeration order shows |
| `Verifier.VerifyPredicate` | internal/verify/verify.go:28-88 | The five phases with their early exits, for any contract files, return the verdict that `Decide` assigns to statement and context |
| `Outcomes.EveryOutcome` | internal/verify/verify.go:28-137 | For any contract files, all the ways to end, from the texts of the statement: unreadable files or statement, a fault of phase 01, a rejecting contract of the declared version, a failing policy, or exactly the strings of its value; with the reported level, and valid only without a code |
| `Outcomes.MisroutingIsReported` | internal/verify/verify.go:90-114 | Whatever the contract files, a statement that phase 01 faults is invalid and reported for exactly the faults it has |
| `Outcomes.ForeignTypeIsInvalid` | internal/verify/verify.go:92-94 | A statement of another `_type` is never valid, whatever it is verified with, and carries `unsupported_statement_type` once it decodes |
| `Outcomes.DecodesIff` | internal/statement/statement.go:27-52 | Exactly which statements decode |
| `PolicyStrings.StringsAreLeaves` | internal/policy/rego.go:27-40 | A string is collected if and only if some path of members and elements leads to it |
| `Decisions.RoutingSelectsDeclaredContract` | internal/verify/verify.go:48-55 | When phase 01 is clean a contract is always selected, and it is that of the declared version: the mismatch branch after it is dead |
| `Decisions.PhasesOwnTheirCodes` | internal/verify/verify.go:48-88 | Whatever the contract files say, codes are a non-empty subset of the three routing codes, or exactly `schema_invalid`, or exactly `policy_eval_error`, or what evaluating the policy listed on documents every contract accepted |
| `Decisions.FinishingIsIdempotent` | internal/verify/verify.go:130-137 | Presenting the codes of a result again gives the same result |
| `Decisions.DecisionIsFailingGates` | internal/verify/verify.go:79-87 | For a statement that reaches the policy, the reported codes are exactly those of the typed gates that fail |
| `Decisions.RejectedIsSchemaInvalid` | internal/verify/verify.go:57-66 | A routed statement that JSON Schema, the context schema or CUE rejects is `schema_invalid` and nothing else |
| `Decisions.ReachedIsValidIff` | internal/verify/verify.go:79-87 | A statement that reaches the policy is valid if and only if no gate fails |
| `Decisions.ValidIffEveryGateHolds` | internal/verify/verify.go:28-88 | Over all statements and contexts: valid if and only if routed, accepted by its contracts, and no gate fails |
| `Reports.ReportedIsOffence` | policies/default.rego:32-319 | For every statement that reaches the policy and every text: it is reported as a code if and only if the two documents offend that code, each of the twelve given in the members of statement and context alone |
| `Reports.ValidIffNoOffence` | policies/default.rego:32-319 | So it is valid if and only if no code is offended |
| `Privacy.AcceptedWithholds` | schemas/agent-provenance-v1.cue:14-16 | Each contract alone keeps raw content, inline data, credentials in the repository URL, and addresses in identities and reviewer references out of a predicate |
| `Privacy.ValidIsPrivate` | policies/default.rego:73-89 | A valid statement withholds all that, and puts only the four kinds of public metadata on a transparency log and no extension in public |
| `Closedness.AcceptedIsClosed` | schemas/agent-provenance-v1.cue:20-255 | Either contract alone, in each version: no object an accepted predicate holds has an unlisted member, and every enumerated word is from its list, at every depth |
| `Bounds.AcceptedIsBounded` | schemas/agent-provenance-v1.schema.json:1-1030 | Lengths, counts, whole numbers and digests of every accepted predicate; GitHub Actions comes with its workflow, and a runtime or harness-native capture with a trace |
| `Bounds.ContextIsBounded` | tests/golden/context.schema.json:1-186 | Members, subjects, lists, lengths and numbers of every accepted context |
| `FreeWords.AgentWords` | schemas/agent-provenance-v1.cue:38-43 | Every invocation kind of the version may stand where another did |
| `FreeWords.BuilderWords` | schemas/agent-provenance-v1.cue:52-57 | Every builder type and runner class of the version may stand where another did |
| `FreeWords.EnvironmentWords` | schemas/agent-provenance-v1.cue:66-78 | Every execution type of the version may stand where another did, GitHub Actions apart |
| `FreeWords.EvidenceKinds` | schemas/agent-provenance-v1.cue:172-187 | Every kind of evidence of the version may stand where another did, raw references where visibility is restricted |
| `FreeWords.EvidenceWords` | schemas/agent-provenance-v1.cue:172-187 | Every storage and visibility may stand where another did, public visibility where nothing raw is referred to |
| `FreeWords.WitnessWords` | schemas/agent-provenance-v1.cue:59-65 | Either kind of witness may stand where the other did, claimed or verified |
| `FreeWords.ApprovalWords` | schemas/agent-provenance-v1.cue:139-144 | Every state of approval may stand where another did |
| `FreeWords.CaptureWords` | schemas/agent-provenance-v1.cue:80-88 | Every method of capture may stand where another did, harness-native where a harness is named |
| `FreeWords.SidecarWords` | schemas/agent-provenance-v1.cue:188-209 | Every kind and visibility of sidecars and extensions may stand where another did |
| `FreeWords.MaterialWords` | schemas/agent-provenance-v1.cue:196-201 | Every kind of material may stand where another did |
| `FreeWords.HarnessWords` | schemas/agent-provenance-v1.cue:95-131 | Every role of a configuration file and every trace format may stand where another did |
| `FreeWords.ServerWords` | schemas/agent-provenance-v1.cue:101-108 | Every transport may stand where another did |
| `PatternTexts.HexPatterns` | schemas/agent-provenance-v1.cue:10-13 | The predicate of the model holds of a text if and only if the regular expression of the contract matches it: digests, commits, trace and span identifiers |
| `PatternTexts.RunIdPattern` | schemas/agent-provenance-v1.cue:217 | The predicate of the model holds of a text if and only if the regular expression of the contract matches it: run ids |
| `PatternTexts.IdentityPattern` | schemas/agent-provenance-v1.cue:42 | The predicate of the model holds of a text if and only if the regular expression of the contract matches it: declared identities |
| `PatternTexts.BranchPattern` | schemas/agent-provenance-v1.cue:31 | The predicate of the model holds of a text if and only if the regular expression of the contract matches it: branches |
| `PatternTexts.PathPattern` | schemas/agent-provenance-v1.cue:18 | The predicate of the model holds of a text if and only if the regular expression of the contract matches it: relative paths |
| `PatternTexts.ServerNamePattern` | schemas/agent-provenance-v1.cue:102 | The predicate of the model holds of a text if and only if the regular expression of the contract matches it: server and tool names |
| `PatternTexts.VersionPattern` | schemas/agent-provenance-v1.cue:216 | The predicate of the model holds of a text if and only if the regular expression of the contract matches it: predicate versions |
| `PatternTexts.ReviewerPattern` | schemas/agent-provenance-v1.cue:141 | The predicate of the model holds of a text if and only if the regular expression of the contract matches it: reviewer references |
| `PatternTexts.RepoUriPattern` | schemas/agent-provenance-v1.cue:15 | The predicate of the model holds of a text if and only if the regular expression of the contract matches it: repository URLs |
| `PatternTexts.SafeUriPattern` | schemas/agent-provenance-v1.cue:14 | The predicate of the model holds of a text if and only if the regular expression of the contract matches it: URIs of evidence and extensions |
| `PatternTexts.WorkflowPattern` | schemas/agent-provenance-v1.cue:17 | The predicate of the model holds of a text if and only if the regular expression of the contract matches it: workflow identifiers |
| `PatternTexts.LinePattern` | schemas/agent-provenance-v1.cue:39 | The predicate of the model holds of a text if and only if the regular expression of the contract matches it: names and other lines, by length |
| `PatternTexts.TimestampPattern` | schemas/agent-provenance-v1.cue:16 | The predicate of the model holds of a text if and only if the regular expression of the contract matches it: timestamps |
| `Refinement.PolicyRefinesGates` | policies/default.rego:32-319 | On documents that passed the schemas, evaluation with undefined terms (in bodies and in heads) denies with a code if and only if the total typed gate of that code does not hold |
| `Refinement.RefinesLevel` | policies/default.rego:41-51 | Level, repository and base commit rules fire exactly when rank, URL or commit differ as the gates say |
| `Refinement.RefinesSubjects` | policies/default.rego:53-71 | The four subject rules together fire exactly when statement and context subjects do not cover each other, or context subjects are empty or share a name; a claimed subject whose `name` is undefined is skipped because the head is |
| `Refinement.RefinesPrivacy` | policies/default.rego:73-89 | The privacy rules fire exactly when logged evidence is of a type outside the allowlist or not public, or an extension is public |
| `Refinement.RefinesEscalation` | policies/default.rego:91-105 | All seven escalation rules, here and at lines 159-177 and 271-274, fire exactly when the claimed level is not earned |
| `Refinement.RefinesIdentity` | policies/default.rego:107-157 | Builder, signer and (lines 169-172) witness rules fire exactly when builder, signer or witnesses are not bound to what was verified |
| `Refinement.RefinesEvidence` | policies/default.rego:179-193 | Approval rules and (lines 266-269) the trace rule fire exactly at high assurance without proven approval or a trace |
| `Refinement.RefinesAllowlists` | policies/default.rego:223-264 | Agent contract, server and delegation rules fire exactly when contract or allowlists are not met, as sets |
| `Refinement.RefinesReplay` | policies/default.rego:195-221 | Replay rules fire exactly when pull request or run id differ from the expected ones; staleness rules exactly when the freshness gate fails |
| `Refinement.SubjectsAgree` | policies/default.rego:280-290 | Matching by name and digest looked up under the algorithm is pairing by name and sha256, in both directions |
| `Refinement.ApprovalMatch` | policies/default.rego:303-309 | The approval helper succeeds exactly when some approval evidence carries the verified digest |
| `Refinement.WitnessAgrees` | policies/default.rego:297-301 | A witness is unbacked exactly when its type and digest are not among the verified ones |
| `Refinement.McpLists` | policies/default.rego:311-314 | A declared server is verified exactly when its digest is in the allowlist |
| `Refinement.DelegationLists` | policies/default.rego:316-319 | A delegation step is allowed exactly when its agent is in the verified set |
| `FailureOrder.OrderFailureCodes` | internal/verify/failure_order.go:28-55 | Deduplicating with a seen-set and stably sorting in place yields the canonical list of the set of codes: no repetition, the same codes, strictly ascending |
| `FailureOrder.AscendingIsUnique` | internal/verify/failure_order.go:26-27 | Two ascending lists of the same codes are equal, so the order is deterministic |
| `FailureOrder.BeforeIsStrictTotal` | internal/verify/failure_order.go:39-52 | The comparison is a strict total order on all strings: priority among known codes, known before unknown, text among unknown |
| `FailureOrder.BeforeIsDocumented` | README.md:314-333 | The eighteen documented codes come in their documented order and before all others, which come in the order of their texts |
| `FailureOrder.NamesAreDistinct` | internal/verify/failure_order.go:5-24 | Different failure codes have different names |
| `StableSort.SliceStable` | internal/verify/failure_order.go:39-52 | Sorting in place by a strict total order leaves a sorted permutation |
| `Timestamps.OrdersAgree` | schemas/agent-provenance-v0.cue:156-159 | Section 5.1 of RFC 3339: on timestamps with equally many fractional digits, nine at most, string order (CUE) holds if and only if nanosecond order (Rego) does |
| `TimestampOrder.TextOrderIff` | docs/CONTRACT_PATCH_PLAN_2026Q1.md:89 | For all timestamps of the contracts, of any precision and leap seconds included: one that is no earlier reads as earlier if and only if both lie in one second and the other fraction is a proper prefix of its own, or they differ past the ninth digit only, and lower; one that is earlier reads as no earlier if and only if they lie in one second and its fraction is a proper prefix of the other |
| `TimestampOrder.InstantOrderIff` | docs/CONTRACT_PATCH_PLAN_2026Q1.md:89 | The same against nanoseconds since the epoch, for timestamps that denote instants |
| `TimestampOrder.RecedesIffCutShort` | schemas/agent-provenance-v1.cue:16 | Up to nine digits the fraction cut short is the only case |
| `Timestamps.OrdersAgreeExactlyAt` | schemas/agent-provenance-v1.cue:210-213 | As a classification by widths: the orders agree on all pairs of two widths if and only if the widths are equal and at most nine |
| `TimestampOrder.LaterFinishReadsAsEarlier` | schemas/agent-provenance-v1.cue:16 | In any second, a leap second too, a finish whose fraction continues that of the start is no earlier and reads as earlier |
| `Timestamps.UnixEpochIsZero` | policies/default.rego:218-219 | The first second of 1970 is instant zero |
| `Timestamps.MomentsAreOrdered` | policies/default.rego:214-221 | Comparing moments field by field is comparing their nanoseconds since the epoch |
| `Calendar.DatesAreOrdered` | policies/default.rego:218-219 | Day numbers grow with dates over the whole Gregorian calendar, leap years included |
| `Calendar.DaysBeforeYearClosedForm` | policies/default.rego:218-219 | The days before a year, summed year by year, have the closed leap-year form |
| `Calendar.DatesOfMonth` | policies/default.rego:218-219 | Exactly which days each month has |
| `Calendar.DayNumberClosedForm` | policies/default.rego:218-219 | The day number of every date is that of the closed form counting from the first of March |
| `Timestamps.InstantClosedForm` | policies/default.rego:218-219 | Nanoseconds since 1970 of every moment, in closed form |
| `Timestamps.TimePasses` | policies/default.rego:218-220 | At every moment, the next day, hour, minute and second are exactly 86,400, 3,600, 60 and 1 seconds later, across months and years |
| `Timestamps.FieldsByDigits` | schemas/agent-provenance-v1.cue:16 | Section 5.6 of RFC 3339: which digits of a timestamp are its year, month, day, hour, minute and second |
| `Timestamps.ParseNanosIff` | policies/default.rego:218-219 | The policy has a number for a timestamp if and only if it exists and its nanoseconds fit a signed 64-bit integer, and then that number |
| `Timestamps.DateTimeFormatIff` | schemas/agent-provenance-v1.schema.json:223-228 | The date-time format admits exactly the moments that exist and the second after the last one of a day |
| `Timing.AcceptedRunsForward` | schemas/agent-provenance-v1.cue:210-213 | An accepted run that states both times with one precision did not finish before it started |
| `Timing.TimestampsAcceptedIff` | schemas/agent-provenance-v1.cue:210-213 | All timestamps that JSON Schema accepts are accepted by CUE if and only if they read in order: in order and not misread within a second, or out of order and misread within a second |
| `Timing.AcceptedRunReadsInOrder` | schemas/agent-provenance-v1.cue:210-213 | The times of an accepted predicate read in order: it ran forward, but for a finish cut short within the second of its start |
| `Timing.ForwardRunIsRejected` | schemas/agent-provenance-v1.cue:210-213 | A run in order that is misread within a second, a leap second too, is accepted by no version |
| `Timing.RetimedIsAccepted` | schemas/agent-provenance-v1.cue:210-213 | An accepted predicate stays accepted with any other timestamps that both contracts accept |
| `Timing.BackwardRunIsAccepted` | schemas/agent-provenance-v1.cue:210-213 | Every accepted predicate stays accepted with a run that ends before it began, within a second, when the fraction of its start continues that of its finish |
| `Timing.RetimedIsValidIff` | policies/default.rego:207-221 | A valid statement with other accepted times is valid if and only if its new finish is fresh |
| `Timing.ReportsStaleIff` | policies/default.rego:207-221 | For every statement that reaches the policy, `stale_attestation` is reported if and only if there is a window and no clock, or clock and finish can both be represented and lie further apart than the window |
| `Timing.StalenessIsExactIff` | docs/VERIFICATION_MODEL.md:139 | For every statement that reaches the policy and every clock, what is reported is true elapsed time for every window if and only if the policy can represent both times or the run is at most a second old |
| `Timing.UnrepresentedStaysValid` | policies/default.rego:218-220 | Every valid statement stays valid, whatever clock and window the context is given, with any accepted times whose finish the policy cannot represent |
| `Timing.AncientStaysValid` | policies/default.rego:218-220 | So with a run moved to the year 1600 |
| `Timing.LeapSecondStaysValid` | policies/default.rego:218-220 | So with a run moved to the leap second 23:59:60 of any day |
| `Monotonicity.LowerLevelKeepsGates` | policies/default.rego:91-194 | Claiming a lower level breaks no gate but the required level |
| `Monotonicity.LargerAllowlistKeepsGates` | policies/default.rego:154-157 | Larger allowlists break no gate, where each list of servers or delegates was a list before, or the claim declares nothing against it, or is version 1 at policy grade or above |
| `Monotonicity.StartingAListIsSafeIff` | policies/default.rego:236-264 | Starting a list is safe for what a claim declares, whatever the list, if and only if it declares nothing or is version 1 at policy grade or above |
| `Monotonicity.GrowthIsSafeIff` | policies/default.rego:236-264 | Every larger list is safe for what a claim declares if and only if there was a list, or it declares nothing, or is version 1 at policy grade or above |
| `Monotonicity.UpgradeKeepsGates` | policies/default.rego:223-227 | Read as version 1, a version 0 claim keeps every gate but the agent contract asked of high assurance |
| `Rewriting.RelabelKeepsShape` | schemas/agent-provenance-v1.cue:215-253 | Replacing the level by another keeps JSON Schema and CUE acceptance |
| `Rewriting.RetimeKeepsShape` | schemas/agent-provenance-v1.cue:206-255 | Replacing the timestamps by others the contract accepts keeps its acceptance of the predicate |
| `Rewriting.UpgradeKeepsShape` | schemas/agent-provenance-v1.cue:215-255 | A predicate the version 0 contract accepts is accepted by version 1 once it declares it |
| `Rewriting.Version0Claim` | schemas/agent-provenance-v0.cue:161-188 | An accepted version 0 predicate claims none of what version 1 adds |
| `Lifting.RelabelledReaches` | internal/verify/verify.go:28-88 | A relabelled statement reaches the policy again and claims the same but for the level |
| `Lifting.LowerLevelAddsNoFailure` | policies/default.rego:41-43 | Lowering the level keeps acceptance and adds no code but `level_below_required`, and that one exactly below the required level |
| `Lifting.ValidAtEveryLevelBetween` | policies/default.rego:41-43 | A statement valid at its level is valid at every lower level the verifier still requires |
| `Lifting.UpgradePreservesDecision` | docs/DATA_MODEL.md:98-116 | An accepted version 0 statement, retyped, is accepted with the same codes, plus `missing_evidence` exactly at high assurance, where version 1 requires an agent contract |
| `Lifting.LargerAllowlistAddsNoFailure` | policies/default.rego:243-264 | A context with larger allowlists adds no code to any accepted statement for which each list that starts was safe to start |
| `Lifting.LargerAllowlistKeepsVersion0` | policies/default.rego:243-264 | For version 0 statements larger allowlists never add a code, whether a list was empty or not |
| `Subjects.BoundIsExactForNamed` | README.md:457 | The subject gate plus every subject being named is equality of the two sets of (name, digest), with current subjects present and distinctly named |
| `Consequences.UnnamedSubjectStaysValid` | policies/default.rego:68-71 | Every valid statement stays valid with a further subject that has a digest and no name, and its subjects are then not the verifier's |
| `Subjects.UnnamedSubjectIsOverlooked` | policies/default.rego:68-71 | On the gate: a subject without a name leaves bound subjects bound and makes the sets differ |
| `Subjects.SubjectsMatch` | internal/verify/failure_order_test.go:63-88 | The nested search returns true exactly for equal lengths with every current subject found |
| `Subjects.MatchImpliesBound` | internal/verify/failure_order_test.go:63-88 | By pigeonhole that one-directional comparison implies exact subject sets when current subjects are distinctly named |
| `Subjects.MatchIffBound` | internal/verify/failure_order_test.go:63-88 | Comparison and gate coincide when the claimed names are present and distinct too |
| `Consequences.SubjectsExactIff` | README.md:457 | For a statement that reaches the policy: subjects are exactly the verifier's if and only if the verifier does not report `subject_digest_mismatch` and every subject has a name |
| `Consequences.ReportedIff` | internal/verify/verify.go:79-87 | A code is reported for a statement that reaches the policy if and only if its gate fails |
| `Consequences.ComparisonDecidesSubjects` | internal/verify/failure_order_test.go:63-88 | For a statement that reaches the policy and current subjects with distinct names, the comparison implies that no mismatch is reported, and decides it when the statement names are distinct |
| `Merkle.AuditPathVerifies` | internal/signing/rekor.go:23-29 | Completeness: PATH(m, D) of section 2.1.1 of RFC 6962 verifies against MTH(D), for every log and every entry |
| `Merkle.VerifiedLeafIsEntry` | internal/signing/rekor.go:23-29 | For the log's own size, a verifying proof is for the entry it claims and is its audit path, or following it computes two different inputs with one hash |
| `Merkle.VerifiedLeafIsMember` | internal/signing/rekor.go:23-29 | Whatever size and index are claimed, a proof against a log's root shows membership of the data and is the audit path of the entry at the claimed address, or following it computes two different inputs with one hash |
| `Merkle.ClaimedIndexIsTrueIff` | internal/signing/rekor.go:15-17 | The claimed index is the entry's own if and only if it has the same address in the real tree |
| `Merkle.WrongSizeWrongIndex` | internal/signing/rekor.go:23-29 | For every log of three entries, the last one verifies as entry 1 of a log of two |
| `Merkle.AddressIsInjective` | internal/signing/rekor.go:23-29 | Two entries of one tree have different addresses |
| `Merkle.SplitIsPowerOfTwo` | internal/signing/rekor.go:23-29 | The split point is the power of two that section 2.1 of RFC 6962 asks for |
| `Merkle.SmallTrees` | internal/signing/rekor.go:23-29 | Trees and audit paths of up to three entries by their bytes: leaves after 0, nodes after 1 |
| `Rekor.DecodeUint` | internal/signing/rekor.go:79-98 | Strings give their leading digits modulo 2^64, numbers go through the library conversion, anything else is zero |
| `Rekor.ExtractRekorInclusion` | internal/signing/rekor.go:49-77 | The inclusion is read from the first entry of log entries that the search reaches in some iteration order, or absent exactly when the shape is |
| `Rekor.TopEntriesAreExtracted` | internal/signing/rekor.go:51-59 | Log entries at the top of the bundle are the only ones that can be extracted, whatever lies below |
| `Rekor.VerifyRekorInclusion` | internal/signing/rekor.go:31-47 | Accepting and rejecting are each the decision on an inclusion that some iteration order extracts. Without entries, or where no entries that can be found hold a proof, a bundle is accepted exactly when none is required; where all hold one, it is accepted if they verify to the pinned root, or to any when none is pinned, and rejected if none does |
| `BundleSources.AlwaysPairedIff` | internal/signing/bundle.go:36-60 | Whatever the order, the log entries found lie inside the object whose envelope is found, if and only if, down to that object, envelope and entries are searched into the same member or element at every step |
| `BundleSources.ListExtractsFirst` | internal/signing/rekor.go:49-53 | A list of bundles gives the inclusion of its first element that has log entries |
| `BundleSources.NextBundleVouches` | internal/signing/bundle.go:36-60 | A bundle without log entries is rejected where inclusion is required; followed by one that has them, its own envelope is found and the inclusion, and so the decision, is the other one's |
| `Rekor.AcceptedBodyIsLogged` | internal/signing/rekor.go:31-47 | With inclusion required and a log's root pinned, acceptance puts the body into that log, or following the proof computes a hash collision; the index is the claimed one if and only if both trees give it one address |
| `Rekor.LoggedBodyIsAccepted` | internal/signing/rekor.go:31-47 | Every entry of the log, with its own path and size, is accepted |
| `Rekor.WrittenEntryIsRead` | internal/signing/rekor.go:49-77 | Index, size, root, path and body of a log entry are read back from the members they are written in |
| `Rekor.WrittenBundleIsAccepted` | internal/signing/rekor.go:31-77 | A bundle with one place for log entries that holds an entry of a log is read as that entry and accepted, with the root of the log pinned or none |
| `Rekor.BytesRead` | internal/signing/rekor.go:100-116 | Bytes are what a non-empty text decodes to, and none for anything else |
| `BundleSearch.FindKey` | internal/signing/bundle.go:90-110 | Found if and only if some object carries the key; the place is one that the search reaches in some iteration order: an own key before nested ones, members in any order, the first array element that has it |
| `BundleSearch.OccursIffFound` | internal/signing/bundle.go:90-110 | Some order finds a key if and only if it occurs |
| `BundleSearch.OwnKeyIsFound` | internal/signing/bundle.go:93-96 | An object with the key hides every occurrence below it |
| `BundleSearch.FindBundle` | internal/signing/bundle.go:66-88 | Found if and only if some object carries `dsseEnvelope`; the envelope and `certificates` come from one object, each from a place the search reaches in some iteration order |
| `BundleSearch.UniqueBundleIsOrderFree` | internal/signing/bundle.go:66-88 | When envelope and certificates can each be found in one place only, all searches agree |
| `BundleSearch.OccurringOnceIsFoundOnce` | internal/signing/bundle.go:66-88 | A key that occurs at most once can be found in one place only |
| `BundleSearch.TwoBundlesAreAmbiguous` | internal/signing/bundle.go:27-29 | When two members of an object hold an envelope, a search may return either, paired with its own certificates |
| `Decimals.ParseUint` | internal/signing/rekor.go:86-94 | The value of the maximal leading digit run, modulo 2^64, for every string |
| `Decimals.ParseInvertsPrint` | internal/signing/rekor.go:86-94 | Parsing inverts decimal printing of every 64-bit number, whatever follows it |
| `RegistryTable.Registry.constructor` | internal/registry/registry.go:42-61 | A new registry has an empty table for an empty log |
| `RegistryTable.Registry.Add` | internal/registry/registry.go:77-115 | Rejects undecodable statements without change; otherwise the table is the replay of the log with this addition, and each of the statement's digests is found with its repository, run, type, level, path and time, by exactly its digest, its repository and its run |
| `RegistryTable.AddedIsFound` | internal/registry/registry.go:77-130 | After adding a statement to any log, the entry of each of its digests holds the statement's own texts and is found by exactly those |
| `RegistryTable.DecodesIff` | internal/registry/registry.go:80-98 | Exactly which statements are indexed |
| `RegistryTable.Registry.Query` | internal/registry/registry.go:134-149 | Exactly the matching rows, as a multiset, the earlier time first and in one time the smaller digest |
| `RegistryTable.Registry.BySubject` | internal/registry/registry.go:117-120 | The rows indexed under a digest, ordered |
| `RegistryTable.Registry.ByRepo` | internal/registry/registry.go:122-125 | The rows of a repository, ordered |
| `RegistryTable.Registry.ByRunId` | internal/registry/registry.go:127-130 | The rows of a run, ordered |
| `RegistryTable.TableRefinesLog` | internal/registry/registry.go:80-115 | After any additions, a row is in the table once when it has a path and is of the last addition of that path with its digest, as often as it was written when it has none, and otherwise not at all |
| `RegistryTable.ReplayKeysUnique` | internal/registry/registry.go:63-75 | No two rows share a digest and a path, after any additions |
| `RegistryTable.AddAgainChangesOnlyTimes` | internal/registry/registry.go:77-79 | With a path, adding the same statement again leaves the same rows in the same order, with the new time on its own rows and every other row untouched |
| `RegistryTable.NullPathAppends` | internal/registry/registry.go:156-161 | With an empty path the key is null and every addition appends exactly its rows |
| `RegistryTable.InsertAllReplaces` | internal/registry/registry.go:101-113 | With a path an addition takes out the rows of its digests, keeps the others in order, and puts the new rows at the end |
| `RegistryTable.AddIsIdempotentIff` | internal/registry/registry.go:77-79 | Adding twice changes nothing but the times of its own rows if and only if there is a path or nothing is indexed |
| `RegistryTable.SelectsMatching` | internal/registry/registry.go:132-149 | What a query selects is exactly what matches in its column |
| `RegistryTable.EmptyQueryFindsNothing` | internal/registry/registry.go:156-161 | Querying the empty string finds nothing, in any column, after any additions |
| `Formats.FormatTimeReadsBack` | internal/predicate/create.go:109-112 | A printed time of a four-digit year is a timestamp of the contracts and reads back as the same second |
| `Formats.LateYearsHaveNoShape` | internal/predicate/create.go:109-112 | A later year prints to no timestamp of the contracts |
| `ProducedShapes.FieldsAreAssembled` | internal/predicate/create.go:54-124 | A produced predicate has every required member with the value of its part, an optional member exactly when that part is there, and no other member |
| `Creation.Create` | internal/predicate/create.go:30-35 | The version 0 predicate has exactly the created parts; in its own members: the given time or the clock's in run id, times and evidence, repository and agent as given or else as git and the tool have them, lowest level, nothing raw, nothing of version 1 |
| `Creation.CreateV1` | internal/predicate/create.go:37-52 | The same for version 1, with capture, operating contract and model each as far as they were given |
| `Creation.StampReadsBack` | internal/predicate/create.go:55-61 | Start and finish read back as the given time, or as the clock when it is the zero time, to the second, and the run id carries that time and the process id |
| `Formats.CompactIsPrinted` | internal/predicate/create.go:61 | The time in a run id is the printed time without its marks |
| `Capturing.McpServers` | internal/capture/capture.go:144-158 | One entry per server in order, optional texts only when not empty |
| `Capturing.Tools` | internal/capture/capture.go:162-172 | One entry per tool in order |
| `Capturing.DescribeRun` | internal/capture/capture.go:108-115 | Overwriting agent and environment in place changes their kind and type and nothing else |
| `Capturing.BindTrace` | internal/capture/capture.go:117-141 | Adds the runtime and replaces the evidence by the trace |
| `Capturing.CapturePredicate` | internal/capture/capture.go:106-174 | After all overwriting and extending, the predicate has exactly the captured parts |
| `Capturing.Statement` | internal/capture/capture.go:74-177 | Each of the three failures exactly under its condition; otherwise a version 1 statement about the patch that holds, in its own members, time, run, agent, trace, servers, tools, contract and model of the capture |
| `Capturing.BaseNameIs` | internal/capture/capture.go:102 | The operating contract goes by what follows the last slash of its path |
| `ProducedTexts.RunIdFits` | internal/predicate/create.go:61 | Every run id of a four-digit year and a 64-bit process id fits the contracts |
| `ProducedTexts.RepoFitsIff` | internal/predicate/create.go:68-77 | Both contracts accept the `repo` object if and only if its texts fit |
| `ProducedTexts.EnvironmentFitsIff` | schemas/agent-provenance-v1.cue:66-78 | Without a builder any known execution type is accepted except `github-actions` |
| `ProducedTexts.CaptureFitsIff` | internal/predicate/create.go:126-136 | The capture object names its method, `wrapper` unless given; both contracts accept it if and only if the method is known and harness-native names a harness |
| `ProducedAcceptance.CreatedIsAcceptedIff` | internal/predicate/create.go:30-160 | Both contracts accept a created predicate if and only if its texts fit; harness-native is refused |
| `ProducedAcceptance.CapturedIsAcceptedIff` | internal/capture/capture.go:78-177 | Both contracts accept a captured predicate if and only if its texts fit, the agent is named and the run is not in GitHub Actions |
| `ProducedVerdicts.ContextShapeIff` | internal/app/context_summary.go:25-41 | The derived context passes its schema if and only if URL, commit, digest and level fit |
| `ProducedVerdicts.ContextIsUnassisted` | internal/app/context_summary.go:25-41 | It says what git says and nothing that only an out-of-band verification could know |
| `ProducedVerdicts.PlainFailures` | policies/default.rego:41-51 | An evidence-grade claim against such a context fails on contradicting overrides and its level, and on nothing else |
| `ProducedVerdicts.ProducedIsRouted` | internal/statement/statement.go:54-71 | A produced statement is routed to its own version |
| `ProducedVerdicts.CreateRoundTrip` | internal/predicate/create.go:30-182 | Create then verify: `schema_invalid` exactly when a text does not fit; else exactly the overrides that contradict git, and `level_below_required` above evidence grade |
| `ProducedVerdicts.CaptureRoundTrip` | internal/capture/capture.go:78-177 | Capture then verify: `schema_invalid` exactly when a text does not fit, the agent is unnamed or the run claims GitHub Actions; else valid at evidence grade and exactly `level_below_required` above it |
| `ProducedVerdicts.CaptureNeedsNameAndBuilder` | schemas/agent-provenance-v1.cue:66-87 | Every successful capture without agent name, or in GitHub Actions, is `schema_invalid` |
| `Identity.IdentityFromCert` | internal/signing/signing.go:204-221 | The signer is the first URI, or else the first email, DNS name, or the common name; builder and workflow are the first URI exactly when it starts at GitHub and holds a workflow path; the issuer is the certificate's |
| `BundleVerdicts.IdentityMembers` | internal/signing/signing.go:60-77 | The context members of an identity: each of the four is present exactly when its text is not empty, with that text, and there is no other |
| `Identity.MergeInto` | internal/app/context_summary.go:281-284 | Copying in any key order is overriding the context by the identity |
| `Identity.BuildBundleContext` | internal/app/context_summary.go:281-284 | The context of `verify bundle` from git facts, required level and certificate |
| `BundleVerdicts.BundleTrust` | internal/app/context_summary.go:281-284 | That context trusts what the derived one does, and the certificate's identity |
| `BundleVerdicts.IdentityGatesIff` | policies/default.rego:107-152 | At policy grade builder and signer gates hold if and only if the claim names the certificate's workflow as builder under an issuer, without a self-hosted GitHub runner or a foreign identity |
| `BundleVerdicts.BeyondBundles` | policies/default.rego:159-172 | A bundle alone never supports high assurance, a witness, or version 1 servers and delegates at policy grade |
| `BundleVerdicts.GitHubDeclaresNoIdentity` | schemas/agent-provenance-v1.cue:71-77 | In GitHub Actions a claim that names its signer declares no identity |
| `BundleVerdicts.BundleContextShapeIff` | tests/golden/context.schema.json:37-56 | The context of a bundle passes its schema if and only if the repository's facts and the texts of the certificate fit |
| `BundleVerdicts.BundleIsValidIff` | internal/app/context_summary.go:271-304 | Exactly which statements a bundle makes valid: they reach the policy, claim the repository's URL, commit and patch alone at a level asked for below high assurance, earn it, keep privacy, have no witness, and name no identity but the certificate's |
| `BundleVerdicts.BundleBindsIdentity` | internal/app/context_summary.go:271-304 | A valid bundle at policy grade: the first URI is the workflow that is builder id and workflow reference, the issuer is known, and what a bundle cannot support is absent; below it a declared identity is the signer |
| `AttestedRuns.RunIsValidIff` | tests/golden/valid-high-assurance/statement.json:1-110 | Every run on an allowed isolated runner, approved and traced, whose texts fit, is valid if and only if its level is the required one or higher and high assurance has a verified witness |
| `AttestedRuns.UpgradedRunMissesContract` | docs/DATA_MODEL.md:98-116 | Each such run, read as version 1, reaches the policy again and fails with exactly `missing_evidence` at high assurance, and with nothing below it |
| `AttestedRuns.ExampleFits` | tests/golden/valid-high-assurance/statement.json:1-110 | There is such a run at high assurance |
| `BundledRuns.SignedRunIsValidIff` | internal/app/context_summary.go:271-304 | A bundle over such a run, signed by the workflow it names, is valid if and only if its level is the required one or higher, below high assurance, and it has no witness |
| `BundledRuns.SignedRunFits` | internal/signing/signing.go:204-221 | There are such bundles at policy grade, one for every such run and every workflow reference that can be a declared identity |
| `BundledRuns.WorkflowIsIdentity` | internal/signing/signing.go:224-226 | There is such a workflow reference |
| `Patterns.WorkflowTextIsNoIdentity` | schemas/agent-provenance-v1.cue:17 | No workflow reference is a declarable identity, since it holds an `@` |

## Left out

- Monotonicity.LargerAllowlistKeepsGates: does not cover a list that starts empty for a claim of version 1 below policy grade, or a typed claim of version 0, that declares something against it; there the property is false, as `Monotonicity.GrowthIsSafeIff` states.
- Signatures, certificate chains, DSSE, PEM, ASN.1 and base64: a certificate is a record of names and issuer, and base64 decoding is a parameter of `Rekor.Decoder`.
- The library behind `proof.VerifyInclusion` is not part of this model; its contract is modelled after sections 2.1 and 2.1.1 of RFC 6962.
- Fetching trust roots, git subprocesses, file reads and the search for contract files: their results are parameters, and contracts that cannot be located or read have their own branch.
- The SQLite driver: the registry is a table with insert-or-replace on its key, in which null keys are distinct; database errors are left out.
- Byte-level JSON: duplicate keys, the case-insensitive matching of Go struct fields, trailing data and number syntax; numbers are exact, and CUE's refusal of `1.0` where it asks for an integer is not modelled.
- Float and `json.Number` branches of `parseUint`: a parameter of `Rekor.Decoder`.
- Human-readable deny messages, except whether they are defined, which decides whether a rule fires.
- Rego over collections that are not arrays, and negation over operands that no accepted document leaves undefined: both occur only on documents that earlier phases reject.
- Timestamps with offsets other than `Z`, which no contract admits; calendar years above 9999 are printed but never accepted.
- Unicode: texts are sequences of characters, and lengths count characters.
- `NormalizeRepoURL`, the git result itself, the local cache, the Markdown summary, flags and exit codes of the command line.
- `certVerifier.Verify`, `fulcioIssuer`, `parseEnvelope` and `parseCertArray`: they would add only easy members.
