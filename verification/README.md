# MIG: a verified model of the gate between quarantine and trusted store

MIG vets artifacts (models, packages, agent skills, ...), signs the outcome as an in-toto statement in a DSSE
envelope, re-verifies it, and publishes the artifact into a content-addressed store. This project models that path in
Dafny and proves what the path is for:

* **Store protocol.** Any number of `write` calls, interleaved step by step, failing or crashing anywhere: key
  directories are always whole, never change, and have one publisher (`StoreProtocol`, `TrustedStore`). The imperative
  `write` is a run of that protocol (`LocalStore`).
* **Signed bytes.** Canonical JSON with its printer and reader, UTF-8, base64, the DSSE pre-authentication encoding,
  signing, statement projection and back, and `verify_attestation` (`Numbers`, `Json`, `JsonText`, `JsonRoundTrip`,
  `JsonPrefix`, `Canonical`, `Encodings`, `Utf8`, `Base64`, `Dsse`, `Signing`, `Attestation`, `AttestationRoundTrip`,
  `Statement`, `Verify`).
* **Digests and staging.** Tree digests bind paths and bytes; `safe_join` from the characters up; staging within its
  budgets (`Hashing`, `Paths`, `Staging`).
* **Decisions.** Policy floor and rules, the short-circuiting pipeline, attestation builder, promotion input, embedded
  floor and reference Rego, and the promotion flow on top (`Verdict`, `Policy`, `Pipeline`, `PromotionGate`, `Promote`).
* **Two text scanners.** Tool grants in skill manifests and the nonce-stamped sentinel (`SkillScanner`, `Sentinel`).

Conventions. SHA-256 and HMAC are function-valued parameters with no injectivity assumption: a result that needs
collision resistance names two inputs, among those really hashed, that collide. A raised exception is a `Result`. A
dict is a sequence of members with distinct keys. Reading an artifact, the clock, random bytes, signature algorithms
other than HMAC, other policy engines and the detonation itself enter as parameters, arbitrary unless a lemma says so.
The store's premises are: POSIX `rename` fails on a non-empty directory and is atomic otherwise, temporary names are
fresh, nobody else writes under `cas`, `os.write` is complete, and a crash stops a process, not the disk.

`dafny verify dfyconfig.toml` checks the whole project.

## Where the code and its own notes disagree

The model follows the code; each point has its lemma.

* `verify.py` says a signed but malformed payload is always a failed result. A signed payload that is not JSON text
  raises `ValueError`, and a statement whose first subject or its digest is no dict raises `AttributeError`
  (`Verify.VerifyRaisesExactly`; inputs in `Verify.SignedXRaises` and `Verify.SignedBadSubjectRaises`).
* The store documents one entry per digest. It keys by the subject as spelled in the statement, so two spellings of a
  digest make two entries (`LocalStore.SpellingsSplitEntries`); among the plain spellings MIG itself writes there is one
  (`LocalStore.PlainSpellingsAreUnique`). For the same reason the receipt names the entry exactly when the subject is
  plainly spelled (`Promote.ReceiptNamesEntryExactly`).
* `dsse.py` takes strict decoding of the payload text for byte-canonicality. The decoder of CPython 3.11 ignores the
  unused bits of the last symbol and any padding after a whole group, so several texts decode to one payload
  (`Base64.TwoTextsForOneByte`; exactly when, `Base64.EncodeInvertsDecode`).
* `safe_join` below `/` itself accepts nothing but `/` (`Paths.SafeJoinExact`, `Paths.TopRefusesNames`).
* The promotion floor documents that a mistyped field only denies. A list or dict as confinement level of an executable
  type raises `TypeError` (`PromotionGate.FloorRaisesExactly`, `PromotionGate.FloorRaises`); `promote_artifact` turns
  that into an audited error.
* The Rego file is said to mirror the floor. On its own it allows documents the floor denies, because an undefined field
  does not deny (`PromotionGate.RegoAloneIsWeaker`; exactly when, `PromotionGate.RegoExactly`); on documents MIG builds
  it differs only on the policy's name and version (`PromotionGate.RegoOnDocument`).
* `promote_artifact` is said never to raise. An exception other than `OSError` or `ValueError` while loading, or any
  while making the temporary directory, escapes unaudited (`Promote.EveryEndIsTabled`, `Promote.SomeAttemptsEscape`).
* The skill scanner documents that a trailing comment is dropped and that a bare key opens a block. The expression that
  finds the key takes the white space after the colon with it, so a comment that is the whole value, with or without
  white space before it, is an inline value and the block below is not read (`SkillScanner.CommentIsInline`,
  `SkillScanner.CommentHidesBlock`; in `SkillScanner.CommentHidesBash`, `tools: # x` over `  - Bash` flags nothing).
* `stage_local_tree` says symlinks are rejected. The path to a source directory may itself be one, and is followed; no
  other link gets through (`Staging.OnlyRootLinkPasses`, `Staging.RootLinkIsFollowed`).

`Promote.HonestAttemptIsPromoted` shows that the premises of the promotion lemmas can be met, `LocalStore.QuietFirst`,
`LocalStore.QuietRepeat` and `LocalStore.TwoSpellings` those of the store.

## Model

| member | source | states |
|---|---|---|
| StoreProtocol.ApplyKeeps | src/mig/promotion/stores/local_fs.py:94-125 | every step of every call (look, re-hash, stage, blobs, marker, rename, clean-up, fault, crash) keeps the store invariant |
| StoreProtocol.CommitKeeps | src/mig/promotion/stores/local_fs.py:114-115 | the rename moves a whole staged entry to a free key and disturbs no other call |
| StoreProtocol.RenameOutcome | src/mig/promotion/stores/local_fs.py:114-122 | a rename either commits or, the key being taken, sends the call to look at what is there |
| StoreProtocol.EmptyIs | src/mig/promotion/stores/local_fs.py:114-115 | the only directory a rename replaces is one nothing has been written to |
| StoreProtocol.KeyIsEntry | src/mig/promotion/stores/local_fs.py:145-165 | a directory at a key is a complete entry made by a committed call whose subject is the key |
| StoreProtocol.NoTmpAfterCommit | src/mig/promotion/stores/local_fs.py:111-124 | a committed call has no temporary directory left |
| TrustedStore.PathTextInjective | src/mig/promotion/stores/local_fs.py:110-111 | different key and temporary directories have different names on disk |
| TrustedStore.KeyLikeIsPlain | src/mig/promotion/stores/local_fs.py:138-139 | a subject that spells a digest is a plain file name and never looks like a temporary one |
| TrustedStore.PathsAre | src/mig/promotion/stores/local_fs.py:110-139 | an entry stands in the folder of its first two characters, a temporary directory beside it |
| TrustedStore.KeysAreWhole | src/mig/promotion/stores/local_fs.py:9-13 | in every reachable state a key holds marker, matching tree, receipt and the bytes of one envelope whose subject is the key; anything else is the temporary directory of a call that has not published |
| TrustedStore.EntriesNeverChange | src/mig/promotion/stores/local_fs.py:101-103 | no history of calls, failures and crashes changes or removes a published entry |
| TrustedStore.ReturnsAgree | src/mig/promotion/stores/local_fs.py:167-187 | a call that returns carried exactly the stored envelope bytes, and the entry has one committed publisher |
| TrustedStore.PublishedExactly | src/mig/promotion/stores/local_fs.py:81-125 | whatever else runs, a call that has ended is the maker of an entry exactly when it reports a fresh publication |
| TrustedStore.AtMostOnePublishes | src/mig/promotion/stores/local_fs.py:101-125 | at most one call per key reports a fresh publication; all that return carried the same envelope |
| TrustedStore.OtherEnvelopeNeverReturns | src/mig/promotion/stores/local_fs.py:167-187 | once a key holds one envelope, no call with another one for it returns, early or after losing the rename |
| TrustedStore.PublishedIsAttested | src/mig/promotion/stores/local_fs.py:157-160 | a published tree is the attested tree file for file, or two hashed inputs collide |
| LocalStore.LocalTrustedStore.Write | src/mig/promotion/stores/local_fs.py:81-125 | the whole call: result, exception and disk on every path |
| LocalStore.LocalTrustedStore.AssertStoredMatches | src/mig/promotion/stores/local_fs.py:167-187 | accepts exactly when both reads succeed, the tree at the key hashes to the subject and the stored envelope has the same bytes; and for each way it does not, a refusal or the exception met |
| LocalStore.LocalTrustedStore.StageTree | src/mig/promotion/stores/local_fs.py:145-165 | what staging leaves under the temporary name, for every failing step |
| LocalStore.LocalTrustedStore.WriteBlobs | src/mig/promotion/stores/local_fs.py:162-164 | attestation, receipt and marker are created and filled in this order, the marker last |
| LocalStore.LocalTrustedStore.Replace | src/mig/promotion/stores/local_fs.py:114-122 | publishes exactly when the rename succeeds on a free key, reports already present exactly when it finds its own envelope intact, and leaves the disk alone otherwise |
| LocalStore.WriteIsRun | src/mig/promotion/stores/local_fs.py:81-125 | the imperative call is a run of the interleaved protocol |
| LocalStore.WriteOutcomes | src/mig/promotion/stores/local_fs.py:114-125 | whatever fails: a returning call leaves its envelope under its key, a raising one changes no entry, nothing else moves |
| LocalStore.FailuresLeaveNothing | src/mig/promotion/stores/local_fs.py:111-124 | whatever fails short of a crash: where deleting works the temporary directory is gone, and a call that reports no fresh publication leaves exactly the disk it found |
| LocalStore.FirstFaultSurfaces | src/mig/promotion/stores/local_fs.py:104-125 | of several failing steps the first decides how the call ends: its own exception, but a refusal for a rename that fails; without one the call publishes |
| LocalStore.QuietRepeat | src/mig/promotion/stores/local_fs.py:101-103 | re-promoting the same envelope is a no-op, another envelope is refused |
| LocalStore.QuietFirst | src/mig/promotion/stores/local_fs.py:105-125 | with nothing failing, a first call publishes exactly when the live files and the copy hash to the subject |
| LocalStore.QuietAnswers | src/mig/promotion/stores/local_fs.py:94-125 | what the caller gets when nothing fails: address and whether it was there, or a `PromotionError` |
| LocalStore.QuietLoser | src/mig/promotion/stores/local_fs.py:114-122 | with nothing failing, a call that finds its key taken at the rename reports already present for the entry's own envelope and is refused for any other |
| LocalStore.SpellingsSplitEntries | src/mig/promotion/stores/local_fs.py:94-98 | two spellings of one digest reach a state with two entries for one tree |
| LocalStore.TwoSpellings | src/mig/promotion/stores/local_fs.py:94-98 | for every tree, its digest signed with and without its algorithm gives two such envelopes, and two entries |
| LocalStore.PlainSpellingsAreUnique | src/mig/promotion/stores/local_fs.py:94-98 | among plain spellings, same digest and same key are the same |
| LocalStore.SubjectOfSigned | src/mig/promotion/stores/local_fs.py:94 | any non-empty text can be signed as the subject the store keys by |
| Canonical.FillMapping | src/mig/evidence/canonical.py:44-50 | the mapping loop stops at the first bad key or value and otherwise projects every entry in order |
| Canonical.CanonicalizeAcceptsExactlyEncodable | src/mig/evidence/canonical.py:24-58 | non-text keys, binary data and non-finite numbers are refused at any depth, and nothing else is |
| Canonical.ProjectJson | src/mig/evidence/canonical.py:26-58 | a JSON value is projected to itself, or refused with a `ValueError` exactly when a NaN or an infinity is in it |
| Canonical.CanonicalizeWf | src/mig/evidence/canonical.py:24-58 | a projection never repeats a key |
| Canonical.LoadsOfCanonical | src/mig/evidence/canonical.py:61-74 | reading canonical bytes gives the projected value back with its keys in order |
| Canonical.EncodingIs | src/mig/evidence/canonical.py:61-74 | canonical bytes are UTF-8 of a compact text of the same value, keys in ascending code-point order at every depth |
| Canonical.CanonicalGolden | tests/test_evidence.py:106-108 | the text the tests fix: `{"b": 1, "a": 2}` is signed as `{"a":2,"b":1}` |
| JsonText.PrintIsCompact | src/mig/evidence/canonical.py:66 | no white space outside texts |
| JsonText.PrintIntIs | src/mig/evidence/canonical.py:64 | a minus sign exactly for negative integers, and no leading zero |
| JsonText.EscapeCharIs | src/mig/evidence/canonical.py:67 | only quotes, backslashes and control characters are escaped, everything else stands for itself |
| Order.LeIsByCodePoint | src/mig/evidence/canonical.py:65 | text order is by code point at the first difference, and a text comes before those it begins |
| Canonical.CanonicalBytesDecideSame | src/mig/evidence/canonical.py:61-74 | canonical bytes are equal exactly for equal values, whatever the insertion order at any depth |
| Canonical.CanonicalBytesOfGraphs | src/mig/evidence/canonical.py:24-74 | two object graphs have the same bytes exactly when they project to the same value |
| JsonRoundTrip.LoadsBytesOfPrinted | src/mig/evidence/signing.py:159 | the JSON reader inverts the compact printer on every value without repeated keys |
| JsonText.LoadsExactly | src/mig/evidence/signing.py:159 | `json.loads` reads one value with only white space around it, and raises `ValueError` for anything else |
| JsonText.SpacesAroundColon | src/mig/evidence/signing.py:159 | white space around the colon of a member does not count |
| JsonText.ObjectsRepeatNothing | src/mig/evidence/signing.py:159 | no object that is read repeats a key |
| JsonText.LastValueIsRead | src/mig/evidence/signing.py:159 | of a key that an object repeats, the last value is the one read |
| JsonText.SurrogatePairGolden | src/mig/evidence/signing.py:159 | a pair of escapes is one character, high half first |
| Utf8.DecodeInvertsEncode | src/mig/evidence/canonical.py:72-74 | strict UTF-8 decoding inverts encoding |
| Utf8.EncodeInjective | src/mig/evidence/dsse.py:68-70 | different texts encode to different bytes |
| Base64.DecodeInvertsEncode | src/mig/evidence/dsse.py:73-96 | strict base64 decoding inverts encoding |
| Base64.DecodeErrors | src/mig/evidence/dsse.py:73-80 | what is not base64 is a `ValueError` |
| Base64.EncodeInvertsDecode | src/mig/evidence/dsse.py:73-80 | encoding inverts decoding exactly on texts without stray bits and without excess padding |
| Base64.TwoTextsForOneByte | src/mig/evidence/dsse.py:73-80 | texts that decode to one payload, by stray bits and by excess padding |
| Dsse.ReadPaeOfPae | src/mig/evidence/dsse.py:30-40 | the length prefixes of the encoding can be read back unambiguously |
| Dsse.PaeInjective | src/mig/evidence/dsse.py:30-40 | the pre-authentication encoding is injective on pairs of byte strings |
| Dsse.PaeIs | src/mig/evidence/dsse.py:30-40 | `DSSEv1`, then each field behind its length in decimal, single spaces between |
| Dsse.PaeGolden | tests/test_evidence.py:100-103 | the encoding the tests fix, around any 28 and 7 bytes |
| Dsse.SignedBytesBind | src/mig/evidence/dsse.py:68-80 | equal signed bytes mean equal payload type and payload bytes, and one payload text unless a text has stray bits or excess padding |
| Dsse.CollectSignatures | src/mig/core/serde.py:170-181 | one malformed signature entry fails the envelope; otherwise all are kept in order |
| Dsse.DecodeEnvelopeExactly | src/mig/core/serde.py:159-181 | an envelope is read exactly from both texts and a non-empty list of well-formed signatures; anything else is a `ValueError` |
| Dsse.DecodeEncodedEnvelope | src/mig/evidence/dsse.py:83-91 | an envelope with a signature survives encoding, key ordering and decoding |
| Dsse.EnvelopeBytesInjective | src/mig/promotion/stores/local_fs.py:99 | the stored bytes belong to one envelope only |
| Signing.HmacMatches | src/mig/evidence/signing.py:79-112 | keys of 32 bytes or more are accepted; under one key every signature verifies and no other bytes do |
| Signing.CheckSignatures | src/mig/evidence/signing.py:129-162 | the candidate loop: some signature of the operator scheme verifies over this payload, malformed ones passed over |
| Signing.VerifySigned | src/mig/evidence/signing.py:115-162 | what was signed verifies and reads back as the same statement, keys in order |
| Signing.CandidatesAre | src/mig/evidence/signing.py:143 | only, and all, signatures of the operator scheme are considered |
| Signing.HmacOpensExactly | src/mig/evidence/signing.py:129-162 | under an HMAC key an envelope opens exactly when a signature of that scheme is the code of this payload under this payload type, and the payload is a JSON object |
| Signing.HmacKeyIdIs | src/mig/evidence/signing.py:70-76 | the keyid is the first eight bytes of a digest over the key behind a fixed prefix |
| Attestation.AttributionProblems | src/mig/evidence/attestation.py:61-83 | nothing is reported exactly when every executed gate names its scanner and version |
| Attestation.AllProblemsAre | src/mig/evidence/attestation.py:70-83 | a problem names a gate that passed, warned or failed, and the scanner name or version it lacks |
| Attestation.FalseIs | src/mig/evidence/attestation.py:73-78 | what counts as no name: null, false, zero, and empty text, list or dict |
| Attestation.SeverityReads | src/mig/core/serde.py:91-99 | a severity is read from its number, be it an integer, a float or a truth value |
| Attestation.SeverityErrors | src/mig/core/serde.py:91-99 | anything else that is read as a severity is a `ValueError` |
| Attestation.StatusReads | src/mig/core/serde.py:102-112 | a status is read from its own name only |
| Attestation.RigorReads | src/mig/core/serde.py:102-143 | a rigor is read from its own name only |
| Attestation.DecisionReads | src/mig/core/serde.py:125-143 | a decision is read from its own name only |
| Attestation.TypeReads | src/mig/core/serde.py:125-143 | a type is read from its own name only |
| AttestationRoundTrip.AttestationProjects | src/mig/evidence/statement.py:57 | the projection of an attestation, member by member; a `ValueError` exactly when a NaN or an infinity is in it |
| AttestationRoundTrip.PredicateDecodes | src/mig/core/serde.py:71-143 | the typed decoders recover the attestation from its key-sorted projection |
| Statement.FromAttestationShape | src/mig/evidence/statement.py:49-69 | the statement carries the bare digest and the predicate without `signature`, unless the attestation cannot be projected |
| Statement.StatementTells | src/mig/evidence/statement.py:59-69 | type, predicate type, predicate and the one subject with its name and digest |
| Statement.SubjectNameIs | src/mig/evidence/statement.py:32-37 | `scheme://locator`, with `@revision` exactly when there is one |
| Statement.StatesExactly | src/mig/evidence/statement.py:40-69 | a projected attestation has a statement exactly when its digest is a non-empty SHA-256 one; which exception otherwise |
| Statement.SubjectDigestExactly | src/mig/evidence/statement.py:72-81 | the non-empty text at `digest.sha256` of the first subject; which exception otherwise |
| Statement.ToAttestationExactly | src/mig/evidence/statement.py:84-92 | only the own predicate type yields an attestation, the one its predicate spells |
| Statement.SubjectDigestSorted | src/mig/evidence/statement.py:72-81 | the subject digest is found again after key ordering |
| Statement.ToAttestationOfProjected | src/mig/evidence/statement.py:84-92 | projection, key ordering and decoding give the attestation back with its signature cleared |
| Verify.VerifyAttestation | src/mig/evidence/verify.py:58-151 | the checks in the order made, as a function of envelope, verifier, live digest and expected keyid |
| Verify.Examine | src/mig/evidence/verify.py:85-151 | the part that consults only the signed statement, with its guard |
| Verify.VerifyDecidesGenuine | src/mig/evidence/verify.py:58-151 | `ok` holds exactly for a genuine file: authentic envelope, expected keyid, matching digests, attributed gates; then the signed decision and a clean report come with it |
| Verify.VerifyReports | src/mig/evidence/verify.py:58-151 | every field of a result, whatever the outcome: scheme, keyid, each check, decision and `ok` |
| Verify.ShownKeyidIs | src/mig/evidence/verify.py:75-76 | the keyid reported is that of the first signature of the operator scheme, of the first signature only if there is none |
| Verify.VerifyNames | src/mig/evidence/verify.py:78-151 | each problem is named exactly for its reason |
| Verify.VerifyRaisesExactly | src/mig/evidence/verify.py:74-133 | exactly when the call raises instead of reporting: no envelope in the file, or authentic bytes that are no JSON text hold a readable attestation whose first subject, or its digest, is no dict, or lead on to a re-hash that raises what the guard does not expect |
| Verify.SignedNonJsonRaises | src/mig/evidence/signing.py:159 | a correctly signed payload that is not JSON text raises |
| Verify.SignedXRaises | src/mig/evidence/signing.py:159 | the letter x, signed, is such a payload |
| Verify.SignedBadSubjectRaises | src/mig/evidence/statement.py:72-81 | any attestation, signed with a subject that is no dict, raises `AttributeError` |
| Verify.ToAttestationErrors | src/mig/evidence/verify.py:106-133 | a malformed predicate raises only what the guard catches |
| Verify.EndToEnd | src/mig/evidence/verify.py:58-151 | project, sign, write, read, verify: accepted with every check true, and the attestation is recovered, signature cleared |
| Verify.FilesCarry | src/mig/evidence/verify.py:46-55 | an envelope file and a bundle around it are read as that envelope |
| Verify.UnsignedDataIsIgnored | src/mig/evidence/verify.py:46-83 | bundle fields, advisory keyids and signatures of other schemes change neither result nor decision |
| Hashing.HashFile | src/mig/core/hashing.py:47-53 | chunked hashing is hashing the content, for every chunk size |
| Hashing.HexGolden | src/mig/core/hashing.py:53 | two digits a byte, the high one first |
| Hashing.HashTreeLoop | src/mig/core/hashing.py:56-70 | the loop over sorted paths, raising for a file that cannot be read |
| Hashing.NormalizeIdempotent | src/mig/core/hashing.py:27-39 | normalising twice is normalising once |
| Hashing.MatchesComputed | src/mig/core/hashing.py:42-44 | which spellings match a computed digest: white space, letter case and prefix may vary, nothing else |
| Hashing.DigestsMatchSymmetric | src/mig/core/hashing.py:42-44 | matching does not care which side is the computed one |
| Hashing.LowerCharIs | src/mig/core/hashing.py:27-39 | which letters lower-casing changes, and into what |
| Hashing.SpacesAre | src/mig/core/hashing.py:33 | the white space that is stripped |
| Hashing.BareSha256HexIs | src/mig/evidence/statement.py:40-46 | what follows `sha256:` in the normal form, a `ValueError` for any other algorithm or nothing |
| Hashing.NormalizeComputed | src/mig/evidence/statement.py:40-46 | a computed digest is its own normal form and its bare part is found |
| Hashing.TreeDigestBinds | src/mig/core/hashing.py:56-70 | equal tree digests mean the same paths with the same bytes, or two hashed inputs collide |
| Hashing.TreeDigestIgnoresOrder | src/mig/promotion/stores/local_fs.py:41-47 | the digest does not depend on the order in which the walk lists files |
| Hashing.FilesAscend | src/mig/core/hashing.py:64 | files are hashed in ascending code-point order of their paths, each once |
| Hashing.TwoFilesGolden | src/mig/core/hashing.py:56-70 | the digest of two files spelled out byte for byte |
| Paths.SafeJoinExact | src/mig/storage/quarantine.py:49-61 | accepts a relative name exactly when following it stays below the root component by component, and returns that place |
| Paths.BelowIsWithin | src/mig/storage/quarantine.py:59-60 | the string prefix test agrees with the component test |
| Paths.ResolveLast | src/mig/storage/quarantine.py:58 | what a last component does: nothing for an empty one or a dot, up one level for two dots but not past the top, down otherwise |
| Paths.PartsAre | src/mig/storage/quarantine.py:57-58 | an absolute path stands for itself, any other is followed from the working directory |
| Paths.SlashesAre | src/mig/storage/quarantine.py:57-58 | exactly two leading slashes are kept, one or three and more come out as one |
| Paths.ResolveNames | src/mig/storage/quarantine.py:58 | normalised components are never empty, `.` or `..` |
| Paths.SafeJoinNames | src/mig/storage/quarantine.py:57-61 | plain names below a proper root come out below it unchanged |
| Paths.TopRefusesNames | src/mig/storage/quarantine.py:57-60 | below `/` itself an ordinary name is refused |
| Staging.Destination.StageLocalTree | src/mig/storage/quarantine.py:127-182 | result and files on disk, on every path |
| Staging.Destination.PlaceFile | src/mig/storage/quarantine.py:143-164 | the guards in order, then the copy |
| Staging.Destination.WalkLevels | src/mig/storage/quarantine.py:169-181 | a linked folder or the first refused file ends the walk |
| Staging.AlwaysWithinLimits | src/mig/storage/quarantine.py:149-164 | at every moment of every run, aborted or not, no more files and bytes than the limits allow, provided no file is longer when it is copied than when it was measured |
| Staging.StagingSucceedsExactly | src/mig/storage/quarantine.py:127-182 | success exactly for no link below the source, readable files, safe names and sizes that pass the declared check; then exactly those files, sorted |
| Staging.WhatAFileRaises | src/mig/storage/quarantine.py:143-164 | the guards raise `QuarantineError` and write nothing, a failing step raises its own exception, and only a copy that has begun leaves a part |
| Staging.FailedStaging | src/mig/storage/quarantine.py:127-182 | a failed run has staged exactly the files before the first that raises, and raises what that one does |
| Staging.StagedReadsBack | src/mig/storage/quarantine.py:161-164 | the staged copy, read through the same names, is the source byte for byte |
| Staging.OnlyRootLinkPasses | src/mig/storage/quarantine.py:134-181 | what is staged has a link in it exactly when the path to the source directory is one |
| Staging.RootLinkIsFollowed | src/mig/storage/quarantine.py:166-169 | such a source is staged as the directory it leads to |
| Staging.RunningIsWhole | src/mig/storage/quarantine.py:90-124 | the running guard accepts the same lists of sizes as the whole-list check |
| Staging.RunningExactly | src/mig/storage/quarantine.py:148-160 | on any sizes, the running guard asks of every partial sum what the whole-list check asks of the last |
| Staging.NegativeSizesDiffer | src/mig/storage/quarantine.py:90-105 | negative declared sizes pass one check and not the other |
| Staging.Enforce | src/mig/storage/quarantine.py:107-124 | the loop over staged files with its accumulated total |
| Staging.CheckDeclaredSizes | src/mig/storage/quarantine.py:90-105 | count, each size and the sum against the limits |
| Staging.EnforceExact | src/mig/storage/quarantine.py:107-124 | accepts exactly measurable files within both caps |
| Staging.EnforceErrors | src/mig/storage/quarantine.py:107-124 | raises the own error, or `OSError` for a safe name without a file |
| Staging.StagedPassesEnforce | src/mig/storage/quarantine.py:107-124 | what staging accepted, enforcement accepts |
| Verdict.BehavioralRanIsSummary | src/mig/core/verdict.py:178-204 | a behavioural gate executed exactly when the rigor summary is behavioural |
| Verdict.SummaryIsHighest | src/mig/core/verdict.py:178-192 | the summary is the highest rigor that a gate which passed, warned or failed has reached |
| Verdict.SeveritiesAscend | src/mig/core/verdict.py:30-34 | info, low, medium, high, critical |
| Policy.DefaultDecisionExactly | src/mig/policy/engine.py:50-62 | the floor rejects exactly on a failure and approves exactly without failure, error or warning and, for an executable type, with a behavioural run |
| Policy.FindingCondition | src/mig/policy/engine.py:129-130 | a code condition asks for a finding with that code, of any gate |
| Policy.GateCondition | src/mig/policy/engine.py:95-97 | a gate condition asks for a failed result of that gate |
| Policy.SeverityCondition | src/mig/policy/engine.py:133-137 | a severity condition asks for a finding at least that severe |
| Policy.RigorCondition | src/mig/policy/engine.py:124-128 | a rigor condition asks that no executed gate reached that rigor |
| Policy.ExtensionCondition | src/mig/policy/engine.py:119-121 | an extension condition asks for a file with one of the extensions, dot optional, case ignored |
| Policy.TypeCondition | src/mig/policy/engine.py:115-116 | a type condition asks for this very type, case ignored |
| Policy.TypeListCondition | src/mig/policy/engine.py:117-118 | a type list asks for one of these types, case ignored |
| Policy.FormatCondition | src/mig/policy/engine.py:122-123 | a format condition asks that no file has one of these extensions, dot dropped, case ignored |
| Policy.CodeListCondition | src/mig/policy/engine.py:131-132 | a code list asks for a finding with one of these codes |
| Policy.ConditionRaisesExactly | src/mig/policy/engine.py:101-140 | a `PolicyError` exactly for an unknown key, no list where one is wanted, or an unknown rigor or severity |
| Policy.NamesAre | src/mig/policy/engine.py:124-137 | the names a rule calls a rigor and a severity by |
| Policy.RuleFiresExactly | src/mig/policy/engine.py:143-154 | a rule fires exactly when it has conditions and all hold; it is bad exactly when a bad condition follows only true ones |
| Policy.HasExtensionExactly | src/mig/policy/engine.py:84 | a name has an extension exactly when a dot follows some other character of its base name |
| Policy.ExtensionIsSuffix | src/mig/policy/engine.py:84 | an extension is the end of the base name from its last dot on |
| Policy.DecisionIsStrictest | src/mig/policy/engine.py:165-178 | the decision is the higher of floor and strictest firing rule; it raises exactly for a rule that cannot be evaluated |
| Policy.ApproveMeans | src/mig/policy/engine.py:50-62 | approval means nothing failed, erred or warned, and an executable type ran at behavioural rigor |
| Policy.EvaluateIgnoresOrder | src/mig/policy/engine.py:81-178 | permuting or repeating gate results or rules changes nothing |
| Policy.MoreRulesNeverLower | src/mig/policy/engine.py:149-178 | more rules never lower a decision |
| Policy.MoreResultsNeverLower | src/mig/policy/engine.py:111-146 | without `rigor_below`, more results never lower a decision unless the awaited behavioural run is among them |
| Policy.RigorBelowCanDrop | src/mig/policy/engine.py:124-128 | with `rigor_below` the restriction is needed |
| Pipeline.RunPipeline | src/mig/core/pipeline.py:80-112 | the loop with its short-circuit flag |
| Pipeline.VerdictIs | src/mig/core/pipeline.py:106-112 | a verdict exactly when the policy can be evaluated: artifact, results of the run and the decision made of them |
| Pipeline.RunGateKeepsResult | src/mig/core/pipeline.py:51-77 | a result passes through unaltered but for its missing duration; a raising gate has not executed |
| Pipeline.OrderIsStable | src/mig/core/pipeline.py:45-48 | cheap, medium, expensive, each group in the order given |
| Pipeline.ShortRunIs | src/mig/core/pipeline.py:90-104 | the run is the full run, less all expensive results exactly when a cheaper gate failed |
| Pipeline.ShortCircuitKeepsDecision | src/mig/core/pipeline.py:90-106 | skipping never changes the decision, and the results are a prefix of the full run |
| Pipeline.RaisingGateBlocksApproval | src/mig/core/pipeline.py:51-71 | a gate that raises leaves an error, so there is no approval |
| PromotionGate.BuiltIsAttributed | src/mig/evidence/builder.py:40-62 | an attestation is built exactly for a pinned artifact, matching refs and attributed gates; its rigor is behavioural exactly when such a gate executed |
| PromotionGate.BuiltCarries | src/mig/evidence/builder.py:45-62 | what is attested is what was run: reference, digest, type, results, decision, and the policy and versions stamped |
| PromotionGate.AttestedIsEvaluated | src/mig/evidence/builder.py:40-62 | for every type the attested decision is what the policy makes of the attested results; what passes the floor was approved on results that passed or were skipped |
| PromotionGate.EvaluateFloor | src/mig/promotion/gate.py:68-116 | clause by clause, every failed one adding a reason |
| PromotionGate.FloorAllowsExactly | src/mig/promotion/gate.py:68-116 | a document passes exactly when every clause holds |
| PromotionGate.FloorRaisesExactly | src/mig/promotion/gate.py:94-112 | exactly when evaluation raises |
| PromotionGate.FloorRaises | src/mig/promotion/gate.py:94-112 | literal documents that make evaluation raise, one for each place |
| PromotionGate.BuildsExactly | src/mig/promotion/input_doc.py:29-66 | the document is built exactly for a digest with an algorithm and fields without NaN or infinity, and shows those fields |
| PromotionGate.BuiltSubject | src/mig/promotion/input_doc.py:24-37 | the subject shown: name and bare digest; and which exception otherwise |
| PromotionGate.DocumentSays | src/mig/promotion/input_doc.py:38-62 | what the floor reads of the document, field by field |
| PromotionGate.DocumentSaysToo | src/mig/promotion/input_doc.py:33-62 | and the rest of it |
| PromotionGate.GateViewsTell | src/mig/promotion/input_doc.py:46-55 | the gates shown one by one, by name, outcome, rigor and scanner |
| PromotionGate.FloorOnBuiltInput | src/mig/promotion/input_doc.py:29-66 | on the document built from a verified attestation the floor reads exactly that attestation |
| PromotionGate.CompositionOnlyRestricts | src/mig/promotion/gate.py:132-142 | the composite allows what both allow, and with the reference policy what the floor allows |
| PromotionGate.CompositionReports | src/mig/promotion/gate.py:124-142 | reasons of both, the floor first, and the names of both engines |
| PromotionGate.RegoMirrorsFloor | policies/promotion.rego:20-60 | what the floor allows, the reference policy allows |
| PromotionGate.RegoAloneIsWeaker | policies/promotion.rego:20-53 | on its own the reference policy allows more |
| PromotionGate.RegoExactly | policies/promotion.rego:20-60 | on any document the default floor allows exactly what the reference policy allows and the document says, under a policy with a name and a version |
| PromotionGate.RegoNeedsPolicyId | policies/promotion.rego:50-53 | without a policy id, or with `false` as one, the reference policy denies |
| PromotionGate.RegoOnFullDocument | policies/promotion.rego:20-60 | with every field defined, the reference policy and the default floor differ only on policy name and version |
| PromotionGate.RegoOnDocument | src/mig/promotion/input_doc.py:33-66 | documents MIG builds define every field |
| PromotionGate.ExecutableNeedsDetonation | src/mig/promotion/gate.py:85-98 | executable types from gates to floor: approval carries behavioural rigor, and passing the floor needs confinement |
| Promote.Promoter.PromoteArtifact | src/mig/promotion/promote.py:90-298 | one audit record, at most one write and only where planned, for every pattern of failures |
| Promote.Promoter.GateAndWrite | src/mig/promotion/promote.py:185-284 | reconstruct, gate, dry run, write |
| Promote.EveryEndIsTabled | src/mig/promotion/promote.py:56-225 | outcome, exit code and success go together; which failures escape |
| Promote.SomeAttemptsEscape | src/mig/promotion/promote.py:131-143 | attempts whose failure escapes: a load that raises `RecursionError`, a temporary directory that cannot be made |
| Promote.EveryWriteIsTabled | src/mig/promotion/promote.py:248-284 | the same after the store has answered |
| Promote.EveryOutcomeHasItsCause | src/mig/promotion/promote.py:131-284 | of the whole attempt, store included: each outcome exactly for its cause, a failed load, fetch or store being an error |
| Promote.EveryResultCarries | src/mig/promotion/promote.py:172-284 | digest, decision and address of a result, per outcome |
| Promote.OutcomeHasItsCause | src/mig/promotion/promote.py:172-225 | the same from verification on |
| Promote.WriteIsDominated | src/mig/promotion/promote.py:156-250 | a write is planned only after a passing verification, an allowing gate and no dry run |
| Promote.OnlyPromotableIsWritten | src/mig/promotion/promote.py:190-250 | behind the composite gate only approved, fully checked attestations are written, executable types only with behavioural rigor and confinement |
| Promote.ListedKeyidIsThere | src/mig/promotion/gate.py:105-112 | behind a keyid allowlist a write means a signature of the operator scheme under a listed keyid |
| Promote.OnlyPromotedPublishes | src/mig/promotion/promote.py:254-284 | any outcome other than promoted leaves every key as it was |
| Promote.PromotedPublishesVerified | src/mig/promotion/promote.py:248-284 | promoted means one new entry at the verified subject with the verified envelope |
| Promote.ReceiptEncodes | src/mig/promotion/stores/local_fs.py:163 | the receipt of an attestation that could be shown to the gate can always be encoded |
| Promote.WrittenReceiptTells | src/mig/promotion/promote.py:227-250 | a stored receipt tells of this very write, key by key: digest, address, digest of the envelope bytes, decision, verification, policy, and a gate that said yes |
| Promote.GateRecordTells | src/mig/promotion/receipt.py:68-70 | the gate record: answer, engine and reasons |
| Promote.ReasonTextsAre | src/mig/promotion/receipt.py:68-70 | the reasons, one by one |
| Promote.ReceiptNamesEntryExactly | src/mig/promotion/promote.py:232-250 | receipt and returned address agree exactly for a plainly spelled subject |
| Promote.CompositeIsGuarded | src/mig/promotion/gate.py:145-165 | the composite gate never allows what the floor refuses |
| Promote.HonestAttemptIsPromoted | src/mig/promotion/promote.py:131-284 | an honest, promotable attempt is promoted, and the entry holds the signed envelope and the attested tree |
| SkillScanner.GrantedTools | src/mig/gates/skill.py:152-187 | the scanner on the lines of the front matter |
| SkillScanner.ScanLines | src/mig/gates/skill.py:161-187 | the nested loops compute the recursive scan |
| SkillScanner.ScanBody | src/mig/gates/skill.py:177-186 | the inner loop stops at the dedented line without consuming it |
| SkillScanner.KeyOfMatches | src/mig/gates/skill.py:115 | a key is found exactly on lines that match the expression, with its groups |
| SkillScanner.FoldsIs | src/mig/gates/skill.py:115 | letters of a key match without case, the long s included |
| SkillScanner.DropCommentIs | src/mig/gates/skill.py:122 | what is dropped is everything from the first comment on |
| SkillScanner.CommentIsInline | src/mig/gates/skill.py:166-174 | a key with nothing or only a comment after its colon opens a block exactly when nothing is there |
| SkillScanner.CommentHidesBlock | src/mig/gates/skill.py:164-174 | below a key that holds only a comment, lines without a key contribute nothing |
| SkillScanner.OpensBlockExactly | src/mig/gates/skill.py:118-174 | a key opens a block exactly when its value, the comment dropped, is empty or a block-scalar mark; any other value is read inline |
| SkillScanner.ScalarKeyReadsBlock | src/mig/gates/skill.py:174-186 | below such a key, a bare one included, every deeper line contributes its tokens |
| SkillScanner.InlineKeyReadsOn | src/mig/gates/skill.py:170-173 | any other key contributes the tokens of its value, and the scan goes on with the next line |
| SkillScanner.PipeFlagsBash | src/mig/gates/skill.py:118-207 | a tools key with a block-scalar mark over `  Bash` flags it |
| SkillScanner.CommentHidesBash | src/mig/gates/skill.py:152-207 | `tools: # x` over `- Bash` flags nothing, `tools:` over it flags Bash |
| SkillScanner.ScanIsByLine | src/mig/gates/skill.py:164-186 | every line has one place, in a block or not, and contributes by it alone |
| SkillScanner.MoreLinesGrantMore | src/mig/gates/skill.py:152-187 | what a list of lines grants, a longer list grants first |
| SkillScanner.AppendedLinesHideNothing | src/mig/gates/skill.py:201-207 | appended lines never hide a flagged grant |
| SkillScanner.WildcardIsFlagged | src/mig/gates/skill.py:152-207 | a wildcard in anything taken from a line is flagged |
| SkillScanner.StarSurvives | src/mig/gates/skill.py:137-149 | splitting never loses a wildcard |
| SkillScanner.TokensSplit | src/mig/gates/skill.py:137-149 | text is cut at commas, colons and white space, and pieces with a word character or a wildcard are kept |
| SkillScanner.LineIs | src/mig/gates/skill.py:161-187 | blank lines, the depth of a line, and what stands on it |
| SkillScanner.MarkerIs | src/mig/gates/skill.py:120 | a list marker goes with the white space after it, a bare dash stays |
| SkillScanner.TrimIs | src/mig/gates/skill.py:137-149 | what trimming takes off both ends, and that it stops there |
| SkillScanner.GrantsAreBare | src/mig/gates/skill.py:187 | no granted tool has a quote at either end |
| SkillScanner.CleanIs | src/mig/gates/skill.py:187 | tokens lose white space and quotes |
| SkillScanner.NormIs | src/mig/gates/skill.py:190-198 | the name compared is the first run of word characters, dots and dashes, quotes and white space around it dropped |
| SkillScanner.Dangerous | src/mig/gates/skill.py:201-207 | exactly the dangerous grants, in order |
| SkillScanner.NamedToolsAreFlagged | src/mig/gates/skill.py:47-70 | each tool of the table is flagged by its plain name |
| Sentinel.ExtractIs | src/mig/sandbox/docker.py:309-322 | on any output: extracted exactly when the marker occurs, an end marker after it, and a JSON object stands between the first of each |
| Sentinel.NoncesAreHex | src/mig/sandbox/docker.py:256 | nonces are hexadecimal and, from as many bytes, of one length |
| Sentinel.PayloadRoundTrip | src/mig/sandbox/docker.py:309-317 | between this run's marker and end marker stands the harness's own text |
| Sentinel.SentinelRoundTrip | src/mig/sandbox/docker.py:309-322 | the host reads exactly the observation the harness wrote, whatever was printed before or after |
| Sentinel.SentinelDecides | src/mig/sandbox/docker.py:309-322 | the host reads exactly what was written, or nothing at all when what was written holds the end marker |
| JsonPrefix.PrefixIsNoObject | src/mig/sandbox/docker.py:317-322 | no proper beginning of a JSON text without trailing white space is read as an object |
| Sentinel.ForgedHasNoMarker | src/mig/sandbox/docker.py:309-314 | a sentinel with another nonce of the same length holds this run's marker nowhere, unless its text begins a further sentinel |
| Sentinel.ForgeriesAreIgnored | src/mig/sandbox/docker.py:309-322 | any number of such sentinels printed first, and the host still reads the harness's own |
| Sentinel.EmittedLayout | src/mig/sandbox/_harness.py:159-171 | where the harness puts marker, text and end marker |
| Sentinel.ObservationFrom | src/mig/sandbox/docker.py:325-432 | which findings there are, each exactly for its reason and with its severity; behavioural rigor exactly for a trusted observation, pass exactly without network attempts |

## Left out

- Hashing.Lower: lower-cases ASCII letters only; Python's Unicode lower-casing of other letters is not modelled.
- SkillScanner.Read: the letters of `\w` and Unicode lower-casing are parameters; `_frontmatter` and `splitlines` are not modelled.
- JsonText.Loads: a character is a Unicode scalar value, so lone surrogates, as escapes or as bytes, are refused where Python keeps them; integers of more than 4300 digits and nesting past the recursion limit are read where Python raises.
- Verify.VerifyDecidesGenuine: a payload with lone surrogates counts as unreadable, because of the reader's limit above.
- Verify.VerifyRaisesExactly: the same limit, both ways: a lone surrogate counts as no JSON text, and a huge integer or deep nesting as readable.
- Verify.SignedNonJsonRaises: the same limit: its premise also holds for a payload with a lone surrogate.
- Canonical.Canonicalize: a float is the literal it is written with, so 0.5 and 0.50 are two values; whether it is finite, zero or a severity follows exact rounding to binary64, but `repr` is not modelled.
- Canonical.CanonicalizeAcceptsExactlyEncodable: objects of other classes, which `canonicalize` passes through and `json.dumps` then refuses with `TypeError`, have no value here.
- Base64.Decode: the decoder of CPython 3.11, the oldest the project supports; a later one may refuse excess padding.
- Staging.Item: what `islink`, `getsize` and `copyfile` return is given per file; a file replaced between those calls is not modelled.
- Staging.AlwaysWithinLimits: needs its premise, since `copyfile` copies whatever the file holds by then; a file that grows after `getsize` exceeds the budget in the code as well.
- StoreProtocol.Step: process crashes only, no power loss (`_fsync_tree`, `_fsync_dir`) and no short writes; file modes are left out.
- LocalStore.World: a subject that spells no digest may resolve to any directory, given by the environment.
- Promote.Attempt: the audit sink does not raise; its mirror files and the time stamps are left out.
- Promote.AfterWrite: of the result the gate record, the verification report, scheme, keyid and problem texts are left out; the receipt has the first two.
- PromotionGate.Reason: reasons are tags; message texts are left out, as everywhere.
- Policy.Evaluate: `str()` of a condition value is a parameter; policy loading and schema checks are left out.
- ed25519 and cosign signers, `make_signer` and `make_verifier`: thin plumbing around foreign code.
- The command line, logging, banner, configuration and plugin registry: presentation and plumbing.
- Sources (Hugging Face, local fetch), OPA and Docker processes and the detonation itself: foreign calls, arbitrary parameters here.
- The other gates (secrets, prompt injection, license, digest, allowlist, pickle and AST scanning): they would add only easy members.
- `Verdict.gates_by_status`, `highest_severity`, `serde.to_jsonable` and the bundle decoders: easy members.
