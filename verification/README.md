# A verified model of the work-receipt registry

The repository runs a registry of work receipts that two agents sign. On top of the receipts it keeps
an append-only transparency log in the style of RFC 6962, a reputation score, a job board, disputes,
and key succession (an ID *is* its key, so rotating a key means handing the history to a new ID). This
project models that behaviour in Dafny and proves what the parts promise, each for all inputs, all
reachable states or all runs.

## The files

| file | what it holds |
|---|---|
| `Merkle.dfy` | tree, audit paths and consistency proofs of RFC 6962, and the recursive inclusion verifier |
| `Consistency.dfy` | the bit-shifting consistency verifier, related to the recursive split |
| `TransparencyLog.dfy` | the log table, the proofs it serves, and the external monitor |
| `Numbers.dfy`, `KeyOrder.dfy`, `CanonicalJson.dfy`, `StringEscapes.dfy`, `DictOrder.dfy`, `CanonicalVectors.dfy` | canonical JSON: number rendering, UTF-16 key order, printer and parser, which escapes the printer picks, what insertion order changes, texts from the shared vectors |
| `ReceiptContent.dfy`, `SignedContent.dfy` | receipt ids and signed bytes, and what exactly they hold |
| `Succession.dfy` | chains of succeeded IDs and the two bounded walks over them |
| `Registry.dfy`, `RegistryStore.dfy` | the registry state; every operation as a step, and as a method that updates the store in place |
| `AgentLifecycle.dfy`, `ReceiptLifecycle.dfy`, `RegistryRuns.dfy` | the invariant of the registry and its preservation by every step |
| `Chronicle.dfy`, `RegistryHistory.dfy` | the registry told by its past: the tables and the log say what the granted requests said, and a request is granted exactly if they permit it |
| `RegistryGuarantees.dfy`, `RegistryAuthority.dfy`, `RegistryLog.dfy`, `HopGuard.dfy` | what follows for every run |
| `Worker.dfy`, `WorkerSafety.dfy`, `WorkerProgress.dfy` | the edge deployment: requests interleaved at every database call, what they never break, and what they wait for and finish |
| `Parity.dfy` | the two deployments' succession operations compared |
| `ReputationScore.dfy`, `Reputation.dfy`, `ReputationEngine.dfy` | the score: arithmetic, definition, the computing passes |
| `ReputationTables.dfy`, `ReputationTrust.dfy` | what a summary says of the tables, what trust and the first receipts are worth, what time does |
| `ReputationNeutrality.dfy`, `ReputationChanges.dfy`, `ReputationVerdicts.dfy`, `ReputationGuarantees.dfy` | what a succession, one more piece of evidence or one more decision does to a score |
| `Idempotency.dfy` | TTL caches and the replay guard |
| `Repos.dfy` | records with search columns |
| `Options.dfy`, `Lists.dfy` | shared data types |

## How to read it

*Hash functions.* A hash is a parameter `sha`, not an axiom. Soundness lemmas assume only that the
inputs the verifier hashes do not collide with the inputs of the tree, and that the first digest
supplied from outside has 32 bytes; `Merkle.InclusionNeedsLeafSize` shows why that length matters.

*Signatures and identifiers.* `Env.verify` is an arbitrary predicate on signature, signed text and key.
IDs are compared for equality only.

*Time.* Milliseconds as integers; every clock reading is an input.

*Runs.* `Registry.Run` serves a list of requests one after another. A request activates the due
successions first, in the order the database lists them, passes the retired-ID gate, then runs one
operation. `Registry.Possible` states what the environment supplies: the due rows, and a job ID that is
new because it is random.

*Stories.* `Chronicle` is a second definition of the registry, by its past instead of its state. A story lists
the granted requests and the completed successions; from it alone `Chronicle.Told` reads every record and
`Chronicle.Permitted` says what may come next. `RegistryHistory.GrantedExactly` says that after every run the
registry grants exactly what its story permits.

*Where the code and its documentation differ, or a promise has an exact boundary.*

- The walks `headOf` and `lineageOf` stop after 64 links. The comment calls this a guard against a
  corrupted store; ordinary requests reach it (`HopGuard.GuardIsReached`). A chain counts as one identity
  if and only if no walk is cut short (`Succession.OneHeadExactlyWhenShallow`). The theorems that compare
  scores across a succession assume that of the chain that grows, as `OneIdentity`; it holds if and only
  if the lineage of the newcomer is not cut (`Succession.OneIdentityExactly`).
- A dispute opening reads the clock twice. A dispute can outlast 144 hours after countersigning if and
  only if the second reading falls after the window that the first one found open
  (`RegistryGuarantees.OutlastsBoundExactly`); the bound over runs carries that gap.
- A consistency proof from the empty tree is accepted whatever it contains (`Consistency.TrivialSizes`),
  so the monitor binds its recorded heads only from size 1 on.
- The monitor trusts the pages it is served to be in order: a server that repeats a page leaves an entry
  unexamined (`TransparencyLog.RepeatedPageSkipsAnEntry`); in-order pages cover everything, and an honest
  log's raise no alarm (`TransparencyLog.HonestLogPasses`).
- On the edge deployment a revocation logs the pending succession it *read*, not the one its write
  cancelled. The cancellation entries are right if and only if that succession is still the one in the
  row at the write (`WorkerSafety.CancelledEntriesExact`), which holds unless another request or an
  abandonment got in between (`WorkerSafety.UndisturbedRevocationIsCurrent`); in one schedule it does
  not (`WorkerSafety.StaleRevocationMissesEntry`). The table itself stays consistent either way.
- The edge deployment refuses a revocation whose own window closed between activation and write; the
  single-process one accepts it (`Parity.RevokeAgreesExactly`).
- Below a weighted success of 5/7 failed weight *raises* the score, because it adds confidence
  (`ReputationScore.FailureRaisesExactlyBelow`); so does a non-performance report by a new chain
  (`ReputationChanges.ReportEffect`). A failed *receipt* is more than failed weight: it moves caps and ends
  the time in which everything counts, so it can lower a score below 5/7
  (`ReputationScore.ThirdReceiptLowers`) and raise one beyond (`ReputationScore.NewcomersFailureRaises`).
- Turning a verdict into rejected *raises* the score in exactly one case: a receipt that its parties
  declared failed, that had been verified and carries weight, at a weighted success beyond 5/7
  (`ReputationScore.RejectionRaisesExactly`, `ReputationVerdicts.RejectionEffect`). It loses the boost.
- A single rejecting decision that only undoes a verification raises the score exactly if the receipt was
  credited less than the agent had earned on average (`ReputationScore.UnverifyingRaisesExactly`): possible
  for a partial receipt, never for a declared success (`ReputationVerdicts.RejectingDecisionRaisesExactly`).
- A replayed signature can run under a second key if and only if its timestamp, plus the gap between two
  clock reads, reaches its first run, which clock skew allows (`Idempotency.SecondKeyPossibleExactly`).
- Dictionary keys tie in UTF-16 order exactly when one spells surrogate pairs that another holds as
  characters (`KeyOrder.TiesExactly`), and a dict's text depends on insertion order exactly when two
  printed entries tie (`DictOrder.OrderMattersExactlyOnTies`).

## Model

| member | source | states |
|---|---|---|
| Merkle.FindSplitPoint | sdk-python/inamprotocol/merkle_log.py:57-62 | the doubling loop finds the largest power of two below n |
| Merkle.SplitPointUnique | sdk-python/inamprotocol/merkle_log.py:57-62 | only one power of two k has k < n <= 2k, so the split is determined |
| Merkle.SmallTrees | sdk-js/src/core/merkleLog.ts:41-72 | the trees of up to three entries are those of RFC 6962 section 2.1: 0 in front of an entry, 1 in front of two subtrees |
| Merkle.LeafIsNoNode | sdk-js/src/core/merkleLog.ts:41-50 | an entry that hashes like an inner node is a collision of the hash |
| Merkle.VerifyPathIsClimb | sdk-python/inamprotocol/merkle_log.py:37-54 | the recursion consumes exactly the path length of proof nodes, in order, and fails only for lack of them |
| Merkle.VerifyInclusionIsClimb | sdk-python/inamprotocol/merkle_log.py:22-34 | the verifier accepts exactly when the climb over the whole proof ends at the root |
| Merkle.ClimbComplete | sdk-js/src/core/merkleLog.ts:73-89 | every generated audit path climbs from its leaf to the root |
| Merkle.ClimbSound | sdk-js/src/core/merkleLog.ts:91-115 | whatever climbs to the root is the leaf at that index with its generated path |
| Merkle.InclusionExact | sdk-python/inamprotocol/merkle_log.py:22-34 | for every tree and index, inclusion is accepted if and only if the leaf is the one there and the proof is exactly PATH of RFC 6962 section 2.1.1 |
| Merkle.InclusionNeedsLeafSize | sdk-python/inamprotocol/merkle_log.py:18-19 | without fixed-size leaves a different leaf is accepted: bytes can move across the concatenation |
| Consistency.StripCompleteSubtrees | sdk-python/inamprotocol/merkle_log.py:79-83 | stripping the low one-bits keeps the side list of the recursive proof and tells whether the old root starts it |
| Consistency.SkipLoneLevels | sdk-python/inamprotocol/merkle_log.py:99-108 | the inner loop skips exactly the levels where the frontier has no sibling |
| Consistency.ClimbFrontier | sdk-python/inamprotocol/merkle_log.py:94-108 | the shifting loop applies the recursive side list to both running heads |
| Consistency.VerifyConsistency | sdk-python/inamprotocol/merkle_log.py:65-110 | the loop refines the recursive walk on all inputs, including the trivial sizes and short proofs |
| Consistency.PathStepsHalve | sdk-python/inamprotocol/merkle_log.py:94-108 | halving index and size drops the lowest step of the recursive path |
| Consistency.ProofStepsHalve | sdk-python/inamprotocol/merkle_log.py:79-83 | an even old size halves without changing the proof's side list |
| Consistency.ProofStepsOdd | sdk-python/inamprotocol/merkle_log.py:79-92 | for an odd old size the proof climbs like the audit path of its last leaf |
| Consistency.WalkIsStart | sdk-python/inamprotocol/merkle_log.py:85-110 | the recursive consistency walk is one seed followed by a list of sides |
| Consistency.WalkComplete | sdk-js/src/core/merkleLog.ts:117-137 | every generated consistency proof walks to both roots |
| Consistency.WalkSound | sdk-python/inamprotocol/merkle_log.py:65-110 | a walk that reaches the new root reaches the true old root and used the generated proof |
| Consistency.ConsistencyExact | sdk-python/inamprotocol/merkle_log.py:65-110 | for 0 < m < n, accepted if and only if the old root is the root of the first m leaves and the proof is exactly PROOF of RFC 6962 section 2.1.2 |
| Consistency.HonestProofAccepted | src/services/transparencyService.ts:60-75 | the proof generated between any two sizes of one log is accepted |
| Consistency.TrivialSizes | sdk-python/inamprotocol/merkle_log.py:72-75 | equal sizes accept exactly equal roots with an empty proof; size 0 accepts anything |
| TransparencyLog.LogTable.constructor | src/storage/db.ts:58-66 | the empty table holds no leaves |
| TransparencyLog.LogTable.AppendEntry | src/services/transparencyService.ts:6-10 | appends one leaf at the next contiguous index, hashing exactly the entry, and withholds an unpublished payload |
| TransparencyLog.LogRunGrows | src/storage/db.ts:258-277 | over every run an earlier leaf list is a prefix of every later one |
| TransparencyLog.ServedConsistencyVerifies | src/services/transparencyService.ts:60-75 | heads observed at any two times are linked by the proof served at any later time |
| TransparencyLog.ServedInclusionVerifies | src/services/transparencyService.ts:41-50 | a leaf stays provable under every head that covered it |
| TransparencyLog.DefaultIsPresentHead | src/services/transparencyService.ts:41-75 | asked for no size, the server proves against its present head |
| TransparencyLog.Monitor.CheckPage | scripts/sth-monitor.ts:57-64 | the per-entry loop raises the first alarm of the entries it looks at and stops at the head's size |
| TransparencyLog.Monitor.CheckNewEntries | scripts/sth-monitor.ts:54-66 | the paging loop examines pages until the offset reaches the head's size |
| TransparencyLog.Monitor.Run | scripts/sth-monitor.ts:37-70 | one monitor run: alarm or, on growth only, the new head recorded; after a passing run the last recorded head is the current one |
| TransparencyLog.HeadCheckExactly | scripts/sth-monitor.ts:40-50 | each alarm about the head is raised exactly in its case: shrunk, changed at equal size, or grown without an acceptable proof |
| TransparencyLog.PassingRunNests | scripts/sth-monitor.ts:40-50 | a passing run binds every recorded head to the tree it was run against, also when the log has not grown: no larger, and the head of its prefix if positive |
| TransparencyLog.RecordedHeadsNest | scripts/sth-monitor.ts:37-50 | if every run passed, each recorded head of positive size commits to a prefix of the latest leaves |
| TransparencyLog.ExaminedEntriesAreLeaves | scripts/sth-monitor.ts:57-64 | every entry a passing run examined is the leaf at its index, and a published payload is the one its data commits to |
| TransparencyLog.OrderedPagesCoverEverything | scripts/sth-monitor.ts:54-66 | with pages in index order a passing run examined every new entry once |
| TransparencyLog.HonestLogPasses | scripts/sth-monitor.ts:37-70 | a monitor run against the head, the proof and the pages an honest log serves raises no alarm and examines every new entry in order |
| TransparencyLog.ExaminedEntriesStay | scripts/sth-monitor.ts:57-64 | an entry examined in any passing run is still the leaf at its index under the newest head |
| TransparencyLog.RepeatedPageSkipsAnEntry | scripts/sth-monitor.ts:57-65 | a repeated page lets a run pass with an entry never examined |
| Numbers.FormatNumber | sdk-python/inamprotocol/canonical.py:85-159 | the step-by-step rendering computes the specified text, or the error for a non-finite or unsafe number |
| Numbers.NumberTextDenotes | sdk-python/inamprotocol/canonical.py:129-159 | read back as a JSON number, the text denotes the value exactly |
| Numbers.NumberTextCanonical | sdk-python/inamprotocol/canonical.py:129-146 | two numbers get the same text if and only if they have the same value, in whatever notation they were written |
| Numbers.NumberTextIsEcma | sdk-python/inamprotocol/canonical.py:148-159 | the layout is that of ECMA-262 section 6.1.6.1.20 for the number's own s, k and n |
| Numbers.IntValue | sdk-python/inamprotocol/canonical.py:93-101 | a safe integer is rendered as its own value |
| KeyOrder.Utf16Injective | sdk-python/inamprotocol/canonical.py:64-65 | well-paired strings with equal UTF-16 forms are equal |
| KeyOrder.TiesExactly | sdk-python/inamprotocol/canonical.py:64-65 | two strings have one UTF-16 form if and only if they become equal once every spelled-out surrogate pair is joined |
| KeyOrder.BeforeIsUnitOrder | sdk-python/inamprotocol/canonical.py:64-65 | the byte comparison is the comparison of UTF-16 code units as unsigned numbers of RFC 8785 section 3.2.3 |
| KeyOrder.SortCorrect | sdk-python/inamprotocol/canonical.py:65 | sorting orders the keys by UTF-16 code units and keeps the entries |
| KeyOrder.SortOrderIndependent | sdk-python/inamprotocol/canonical.py:65 | without ties the sorted entries do not depend on insertion order |
| KeyOrder.SortOrderIndependentExactly | sdk-python/inamprotocol/canonical.py:65 | every order of the entries sorts alike if and only if no two different entries tie |
| KeyOrder.WellPairedKeysHaveNoTies | sdk-python/inamprotocol/canonical.py:64-65 | distinct well-paired keys never tie |
| CanonicalJson.Stringify | sdk-python/inamprotocol/canonical.py:60-82 | the recursive printer with its entry loops computes the specified text |
| CanonicalJson.StringifyEntries | sdk-python/inamprotocol/canonical.py:66-72 | the loop over sorted keys, dropping None unless nulls are kept |
| CanonicalJson.StringifyItems | sdk-python/inamprotocol/canonical.py:73-74 | the loop over list items |
| CanonicalJson.PrintReads | sdk-python/inamprotocol/canonical.py:53-82 | followed by any text, a printed value is read back first, leaving that text |
| CanonicalJson.ParseUndoesPrint | sdk-python/inamprotocol/canonical.py:53-82 | parsing undoes printing: keys sorted, None fields dropped unless kept |
| CanonicalJson.PrintInjective | sdk-python/inamprotocol/canonical.py:53-82 | two values print alike if and only if they mean the same JSON |
| StringEscapes.EscapeShortest | sdk-python/inamprotocol/canonical.py:46-50 | no encodable text that reads back as a character is shorter than the escape the printer picks |
| StringEscapes.EscapeUnique | sdk-python/inamprotocol/canonical.py:46-50 | with lower-case hex digits no other text is as short |
| StringEscapes.PrintedIsTidy | sdk-python/inamprotocol/canonical.py:46-50 | a printed string is encodable throughout and writes hex digits in lower case |
| StringEscapes.PrintedIsShortest | sdk-python/inamprotocol/canonical.py:46-50 | of all tidy texts that read back as a string the printed one is the shortest, and the only one of its length |
| CanonicalVectors.Escapes | interop/canonical/vectors.json:86-107 | control characters, lone surrogates, quote and slash are printed as the shared vectors print them |
| CanonicalVectors.DigitsCaseAndLetters | interop/canonical/vectors.json:108-121 | keys of digits and letters of either case sort as the vector sorts them |
| CanonicalVectors.AstralKey | interop/canonical/vectors.json:14-22 | a key beyond U+FFFF sorts before U+E000 |
| CanonicalVectors.LargeAndSmallNumbers | interop/canonical/vectors.json:122-146 | the smallest double and 1e21 print as in appendix B of RFC 8785 |
| CanonicalVectors.DictText | sdk-python/inamprotocol/canonical.py:53-72 | a None field prints as null if nulls are kept and disappears otherwise |
| DictOrder.InsertionOrderIrrelevant | sdk-python/inamprotocol/canonical.py:63-72 | without ties the text does not depend on key insertion order |
| DictOrder.DictMeaning | sdk-python/inamprotocol/canonical.py:63-72 | a printed dictionary means its surviving fields in key order |
| DictOrder.MeaningOrderExactly | sdk-python/inamprotocol/canonical.py:63-72 | a dict of any size means the same in every insertion order if and only if no two entries that are printed tie |
| DictOrder.OrderMattersExactlyOnTies | sdk-python/inamprotocol/canonical.py:63-72 | its text is the same in every insertion order if and only if no two entries that are printed tie |
| DictOrder.NumberRejected | sdk-python/inamprotocol/canonical.py:93-108 | a number is refused, with its own error, if and only if it is not finite or an integer beyond 2^53 - 1 |
| DictOrder.PrintableExactly | sdk-python/inamprotocol/canonical.py:60-108 | a value can be printed if and only if every number in it, however deep, can be rendered |
| DictOrder.SurrogatePairTies | sdk-python/inamprotocol/canonical.py:43-50 | a spelled-out surrogate pair ties with the character it encodes |
| ReceiptContent.EqualIdsEqualBase | sdk-python/inamprotocol/receipt.py:10-20 | receipt ids are equal if and only if the hashed contents mean the same, given no hash collision between them |
| ReceiptContent.EqualIdsEqualSignedContent | sdk-python/inamprotocol/receipt.py:23-36 | equal receipt ids imply equal bytes to sign |
| SignedContent.SignedBytesHold | sdk-python/inamprotocol/receipt.py:23-36 | the text the worker signs holds, under its name, every field of the content: parties with their roles, job, task, result, settlement and verification, and nothing else |
| SignedContent.SignedBytesExactly | sdk-python/inamprotocol/receipt.py:23-36 | two contents of one id give the same signed text if and only if the parties are equal and every input field means the same |
| SignedContent.ReceiptIdExactly | sdk-python/inamprotocol/receipt.py:10-20 | an id is sha256: and the digest of the base; two receipts get one id if and only if the parties are equal and every input field means the same, unless the digest collides |
| ReceiptContent.SameBytesExactly | sdk-python/inamprotocol/client.py:304-305 | worker and requester sign identical bytes if and only if content and receipt mean the same without the fields each leaves out |
| ReceiptContent.BothSignTheSameBytes | sdk-python/inamprotocol/client.py:256-257 | in particular when the receipt holds the fields of the content in any order and any form that means the same |
| ReceiptContent.SignedFieldsDoNotTie | sdk-python/inamprotocol/receipt.py:23-36 | the names of the content's fields never tie |
| ReceiptContent.StoredDraftHasSameFields | src/services/receiptService.ts:70-76 | the draft the server stores, without a settlement that was not given, holds the fields the worker signed |
| ReceiptContent.ReceiptSignedAlike | sdk-python/inamprotocol/client.py:304-305 | every receipt with the fields of some worker's content is signed by both over the same bytes |
| ReceiptContent.DraftSignedAlike | src/services/receiptService.ts:66-77 | so is the stored draft |
| Succession.ComputeHead | sdk-js/src/core/succession.ts:64-68 | the loop follows successors to the end of the chain or 64 links |
| Succession.ChainEnds | sdk-js/src/core/succession.ts:59-61 | every walk forward ends, within as many links as there are successions |
| Succession.HeadIsEndExactly | sdk-js/src/core/succession.ts:64-68 | the walk reaches the end of the chain if and only if at most 64 links remain |
| Succession.GuardCutsLongChain | sdk-js/src/core/succession.ts:61-68 | a well-formed chain of 65 successions is cut short |
| Succession.GuardSplitsIdentity | sdk-js/src/core/succession.ts:61-68 | beyond 64 links one more succession gives two IDs of one chain different heads |
| Succession.OneHeadExactlyWhenShallow | sdk-js/src/core/succession.ts:59-68 | all IDs of every chain have one head if and only if the guard cuts no walk short |
| Succession.InvertLinks | sdk-js/src/core/succession.ts:71-73 | the loop over the entries builds the predecessor map |
| Succession.BackMapUnique | sdk-js/src/core/succession.ts:71-73 | without shared successors the predecessor map does not depend on iteration order |
| Succession.LineageMirrors | sdk-js/src/core/succession.ts:70-77 | y is a predecessor of x exactly when x is reached from y by successors |
| Succession.ChainsExtend | src/services/agentService.ts:131-149 | linking the end of a chain to an unknown ID keeps disjoint simple chains |
| Succession.BackWalksEnd | sdk-js/src/core/succession.ts:70-77 | in every map of chains following predecessors ends, within as many links as there are successions |
| Succession.BackWalksWithinGuard | sdk-js/src/core/succession.ts:70-77 | if no forward walk is cut short, no backward walk is |
| Succession.LineageExtends | sdk-js/src/core/succession.ts:70-77 | a new successor's lineage is itself followed by its predecessor's |
| Succession.OneIdentityExactly | sdk-js/src/core/succession.ts:64-77 | all IDs of a chain are counted under its last one if and only if the lineage of the last one is not cut short |
| AgentLifecycle.RegisterKeeps | src/services/agentService.ts:12-35 | registration keeps the identity invariant and touches nobody else |
| AgentLifecycle.ActivateOneKeeps | src/services/agentService.ts:131-149 | an activation overwrites no record, adds one link to a fresh ID and keeps the invariant |
| AgentLifecycle.RowsStayCurrent | src/services/agentService.ts:132-136 | the rows read before the loop are still current when their turn comes |
| AgentLifecycle.ActivateRowsKeeps | src/services/agentService.ts:131-149 | the loop retires exactly the listed predecessors, creates exactly their successors and changes nothing else |
| AgentLifecycle.ActivationOrderIrrelevant | src/storage/db.ts:164-168 | the order in which due rows are returned does not matter for any record |
| AgentLifecycle.NothingLeftDue | src/services/agentService.ts:124-132 | after activation no closed window is left unapplied |
| ReceiptLifecycle.DraftKeeps | src/services/receiptService.ts:51-79 | a draft never replaces a receipt, matches its job and is logged by no entry |
| ReceiptLifecycle.CountersignKeeps | src/services/receiptService.ts:110-132 | a countersignature finalizes the draft with its content unchanged, completes the job it finds accepted with this receipt's id, and logs once |
| ReceiptLifecycle.OpenKeeps | src/services/receiptService.ts:138-169 | an opening uses one of the remaining dispute steps and keeps receipts, jobs and log coupled |
| ReceiptLifecycle.ResolveKeeps | src/services/receiptService.ts:180-202 | a resolution spends the opener's right and keeps receipts, jobs and log coupled |
| ReceiptLifecycle.JobOpKeeps | src/services/jobService.ts:64-127 | offers, acceptance, cancellation and reports keep the job invariant; terminal jobs stay frozen |
| ReceiptLifecycle.AtMostTwoParties | src/services/receiptService.ts:143-150 | at most two dispute rights can be spent on a receipt |
| RegistryRuns.ServeInv | src/middleware/signedRequest.ts:78-92 | every request, refused or not, keeps the whole invariant and only lets the state evolve |
| RegistryRuns.RunInv | src/server.ts:36-41 | so does every run |
| RegistryRuns.ReceiptOpApart | src/middleware/signedRequest.ts:82-90 | the gate keeps the parties of a countersigned receipt out of one lineage |
| RegistryHistory.TablesTellTheStory | src/storage/db.ts:112-290 | after every run each record of the registry (identities, jobs, receipts, disputes, verifications) is what the granted requests and the completed successions said, and the log lists the requests' entries in order |
| RegistryHistory.GrantedExactly | src/services/jobService.ts:32-129 | after every run a request is granted if and only if the requests granted before permit it: a job takes offers and one hiring until it expires, a report 72 h after hiring if nothing was delivered; a receipt is submitted and signed once, contested once by each party within 72 h of signing; an appointed verifier decides once |
| RegistryHistory.HandedOverExactly | src/services/agentService.ts:131-149 | a request begins with the activation of every succession that was asked for 72 h ago and neither revoked nor completed since, and of no other |
| RegistryGuarantees.SuccessionsStayChains | src/services/agentService.ts:79-149 | in every reachable state successions are disjoint finite simple chains, an ID is in at most one of pending, revoked and succeeded, and awaited successors are distinct and unregistered |
| RegistryGuarantees.SuccessorWalksEnd | sdk-js/src/core/succession.ts:59-68 | from any ID the walk ends at a live end of chain |
| RegistryGuarantees.PredecessorWalksEnd | sdk-js/src/core/succession.ts:70-77 | in every reachable state following predecessors from any ID ends |
| RegistryGuarantees.OneIdentityExactlyWhenShallow | sdk-js/src/core/succession.ts:59-68 | in every reachable state each chain counts as one identity if and only if the guard cuts no walk short |
| HopGuard.GuardIsReached | sdk-js/src/core/succession.ts:59-61 | ordinary signed requests reach a registry whose first two IDs of one chain have different heads |
| RegistryGuarantees.RetiredForGood | src/middleware/signedRequest.ts:82-90 | a revoked or succeeded record never changes again and its every request is refused |
| RegistryGuarantees.SuccessionHasOneOutcome | src/services/agentService.ts:79-149 | a logged request has exactly one outcome: activated, cancelled or still pending, each logged once |
| RegistryGuarantees.CountersignedReceipts | src/services/receiptService.ts:110-130 | a countersigned receipt carries both signatures over one content, and its parties are never in one lineage |
| RegistryGuarantees.SignedContentNeverChanges | src/services/receiptService.ts:122-128 | over every run content and signatures of a countersigned receipt and its dispute window stay fixed |
| RegistryGuarantees.JobsAreBacked | src/services/jobService.ts:135-164 | a job is completed exactly when it names a receipt, which is countersigned, for this job and between its poster and accepted worker; terminal jobs never move |
| RegistryGuarantees.CountersigningCompletes | src/services/receiptService.ts:128-130 | a granted countersignature leaves the receipt's job terminal, and completed by this receipt if it found it accepted |
| RegistryGuarantees.CountersignedWorkIsSettled | src/services/jobService.ts:136-146 | in every reachable state the job of a countersigned receipt is terminal, so nobody can report or cancel it |
| RegistryGuarantees.LogAccountsForReceipts | src/services/receiptService.ts:128-130 | one finalized entry exactly for non-drafts; opened minus resolved is one exactly when disputed; each party opens at most once |
| RegistryGuarantees.OneDecisionPerVerifier | src/services/verificationService.ts:32-114 | one decision per verifier and receipt, never by a party, only on countersigned receipts |
| RegistryGuarantees.DisputeStepsRunOut | src/services/receiptService.ts:138-202 | every opening or resolution uses up one of at most four steps |
| RegistryGuarantees.DisputesEnd | src/services/receiptService.ts:121-160 | over every run no dispute is active from 144 h after countersigning, plus the gap between two clock reads |
| RegistryGuarantees.OutlastsBoundExactly | src/services/receiptService.ts:152-160 | a dispute outlasts 144 h if and only if its second clock read is past the window |
| RegistryLog.HeadsStayConnected | src/services/transparencyService.ts:60-75 | any two heads shown in one run of the registry are linked by the proof served later |
| RegistryAuthority.ServeCauses | src/middleware/signedRequest.ts:78-89 | a request establishes a fact only if its caller is the one entitled to it and it is granted; the activations it begins with establish none |
| RegistryAuthority.EveryFactHasItsRequest | src/services/receiptService.ts:51-202 | every revocation, pending succession, appointment, job, hiring, ending, draft, countersignature, dispute and verification a registry holds was brought about in its run by a granted request of the one ID entitled to it |
| RegistryAuthority.AttestationsTraceToTheOperator | src/services/verificationService.ts:32-114 | every verification was submitted by its verifier, whom the operator had appointed in the same run |
| RegistryAuthority.SuccessionWaitsItsWindow | src/services/agentService.ts:102-149 | whoever is succeeded asked for it in a granted request, and at least 72 hours lie between that and a later request |
| RegistryAuthority.EverySuccessionSignedByBoth | src/services/agentService.ts:102-107 | in every reachable state each pending or completed succession was signed by both keys |
| RegistryAuthority.RevocableUntilWindowCloses | src/services/agentService.ts:79-90 | until its window closes the old key can cancel: the ID is burnt and the successor stays unregistered |
| RegistryStore.Store.constructor | src/storage/db.ts:307-311 | the store starts empty, with the invariant of the registry |
| RegistryStore.Store.RegisterAgent | src/services/agentService.ts:12-35 | performs the registration step or names the first failed check |
| RegistryStore.Store.SetVerifierStatus | src/services/agentService.ts:55-67 | performs the verifier-status step or names the first failed check |
| RegistryStore.Store.RevokeAgent | src/services/agentService.ts:79-90 | performs the revocation step, logging a cancelled succession |
| RegistryStore.Store.RequestSuccession | src/services/agentService.ts:102-122 | performs the succession request or names the first failed check |
| RegistryStore.Store.ActivateDueSuccessions | src/services/agentService.ts:131-149 | the loop over due rows is the composition of single activations |
| RegistryStore.Store.PostJob | src/services/jobService.ts:32-47 | performs the posting step |
| RegistryStore.Store.SubmitOffer | src/services/jobService.ts:64-76 | performs the offer step or names the first failed check |
| RegistryStore.Store.AcceptOffer | src/services/jobService.ts:78-87 | performs the acceptance step or names the first failed check |
| RegistryStore.Store.CancelJob | src/services/jobService.ts:89-98 | performs the cancellation step or names the first failed check |
| RegistryStore.Store.ReportNonPerformance | src/services/jobService.ts:115-127 | performs the report step or names the first failed check |
| RegistryStore.Store.MarkCompletedByReceipt | src/services/jobService.ts:136-146 | completes exactly an accepted job |
| RegistryStore.Store.CreateDraft | src/services/receiptService.ts:51-79 | performs the draft step or names the first failed check |
| RegistryStore.Store.Countersign | src/services/receiptService.ts:110-132 | performs the countersignature step over receipt, job and log |
| RegistryStore.Store.OpenADispute | src/services/receiptService.ts:138-169 | performs the opening step or names the first failed check |
| RegistryStore.Store.ResolveDispute | src/services/receiptService.ts:180-202 | performs the resolving step or names the first failed check |
| RegistryStore.Store.SubmitVerification | src/services/verificationService.ts:32-114 | performs the verification step or names the first failed check |
| RegistryStore.Store.Serve | src/server.ts:36-41 | a request is activation, then the gate, then the operation; it keeps the invariant of the registry and takes nothing back that no step may |
| Worker.Database.UpdateToSucceeded | worker/src/db.ts:119-122 | the compare-and-swap fires only on the very pending succession it was given |
| Worker.Database.InsertSuccessorIfOwned | worker/src/db.ts:123-126 | inserts the successor only for an owned predecessor, or reports a key conflict |
| Worker.Database.ActivateSuccession | worker/src/db.ts:114-140 | both statements take effect or, on a key conflict, neither |
| WorkerSafety.BatchKeeps | worker/src/db.ts:114-140 | a batch activates exactly when the succession is still pending and the successor unknown, and otherwise changes nothing |
| WorkerSafety.StepInv | worker/src/agentService.ts:10-159 | every step of every request keeps the invariant, whatever ran in between |
| WorkerSafety.InterleavingInv | worker/src/agentService.ts:79-159 | so does every interleaving |
| WorkerSafety.NoTwoPredecessors | worker/src/agentService.ts:137-159 | under every interleaving no ID gets two predecessors, chains stay simple and states exclusive |
| WorkerSafety.NothingOverwritten | worker/src/db.ts:108-140 | no registered record is ever overwritten; a successor has its predecessor's profile |
| WorkerSafety.OneWayOut | worker/src/agentService.ts:79-159 | each granted request is pending or has been activated, abandoned or revoked, in exactly one way |
| WorkerSafety.LogIsComplete | worker/src/agentService.ts:125-154 | with no append outstanding the log has one entry per granted request and per activation |
| WorkerSafety.EverySuccessionWasVerified | worker/src/agentService.ts:108-112 | under every interleaving whoever is succeeded or waits to be had a request verified against both keys |
| WorkerProgress.SuccessionWaitsItsWindow | worker/src/agentService.ts:116-121 | under every interleaving whoever is succeeded had a request granted at least 72 h before a later query of the due successions |
| WorkerProgress.ActivationFinishes | worker/src/agentService.ts:137-159 | a request that starts on the due successions and is left alone ends with none of them pending: completed or, the successor taken, abandoned |
| WorkerSafety.CancelledEntriesExact | worker/src/agentService.ts:79-93 | whatever runs before and after, the cancellation entries of a revoked ID are right if and only if, when its revocation writes, the succession read before is the one in the row |
| WorkerSafety.UnrevokedCancellationsRight | worker/src/agentService.ts:147-159 | those of an ID never revoked are right |
| WorkerSafety.UndisturbedRevocationIsCurrent | worker/src/agentService.ts:80-82 | the read is current if between it and the write no other slot requests or abandons a succession of that ID |
| WorkerSafety.StaleRevocationMissesEntry | worker/src/agentService.ts:80-91 | a schedule in which a cancelled succession leaves no entry |
| Parity.RegisterAgrees | worker/src/agentService.ts:10-41 | run alone, an edge registration leaves the same identities as the single-process one |
| Parity.RevokeAgreesExactly | worker/src/db.ts:68-82 | revocations of a live ID agree if and only if its own succession is not due at the write |
| Parity.RequestAgrees | worker/src/agentService.ts:103-127 | run alone, succession requests agree |
| Parity.ActivationAgrees | worker/src/db.ts:108-140 | the activation batch does what the single-process activation does |
| ReputationScore.ScoreInRange | src/services/reputationService.ts:303-310 | the exact score is 20 times stake plus one fraction, lies in [0, 100), and the clamp never fires |
| ReputationScore.SuccessRaises | src/services/reputationService.ts:303-310 | more fully successful weight always raises the score |
| ReputationScore.FailureRaisesExactlyBelow | src/services/reputationService.ts:303-310 | more failed weight never raises the score if and only if weighted success is at least 5/7, and lowers it exactly beyond |
| ReputationScore.FailureLowersExactly | src/services/reputationService.ts:249-250 | with counterparties standing as they do, declaring a receipt failed never raises the score, and lowers it if and only if the receipt carried weight and was credited |
| ReputationScore.ThirdReceiptLowers | src/services/reputationService.ts:151-159 | the third receipt with one's only counterparty takes away all that was earned, whatever weighted success was |
| ReputationScore.NewcomersFailureRaises | src/services/reputationService.ts:151-159 | a failed receipt with a newcomer raises a score beyond 5/7 by raising the cap on another counterparty |
| ReputationScore.RejectionRaisesExactly | src/services/reputationService.ts:238-261 | turning a verdict into rejected raises the score if and only if the receipt was declared failed, had been verified, carries weight, and weighted success is beyond 5/7 |
| ReputationScore.RejectionNeverRaises | src/services/reputationService.ts:238-250 | so it never does for a receipt declared a success or a partial one |
| ReputationScore.UnverifyingRaisesExactly | src/services/reputationService.ts:238-261 | losing a verification raises the score if and only if the receipt carries weight and was credited less than the average earned |
| ReputationScore.EarliestCarryWeight | src/services/reputationService.ts:253-261 | the receipts of a counterparty that carry weight are its earliest, up to the cap |
| ReputationScore.ConcentrationBounded | src/services/reputationService.ts:151-158 | those receipts are at most the threshold's share of themselves and all others |
| ReputationScore.PairSaturates | src/services/reputationService.ts:215-261 | one counterparty contributes at most 1.5 times its trust times ln(1 + count) |
| ReputationScore.ClosedHistoryEarnsNothing | src/services/reputationService.ts:151-168 | from three receipts on, unanchored counterparties or a single one earn nothing |
| ReputationScore.RolesPartition | src/services/reputationService.ts:273-283 | provider and requester tallies add up to the total |
| Reputation.TrustPositive | src/services/reputationService.ts:96-114 | base trust lies in (0, 1] |
| Reputation.EveryScoreInRange | src/services/reputationService.ts:303-310 | every agent's exact score is in [0, 100) and equals stake plus earned part |
| ReputationTables.CountsExactly | src/services/reputationService.ts:21-24 | after every run a receipt counts if and only if it was submitted for no demo, countersigned, and not contested in the last 72 h without withdrawal |
| ReputationTables.SummaryCountsReceipts | src/services/reputationService.ts:215-284 | the summary's counts are those of the table: by role, by verdict, each once; the roles' weights add up, reports on the provider's side |
| ReputationTables.ClusterExactly | src/services/reputationService.ts:164-168 | the cluster is the lineage, the head and everyone there is a counted receipt with |
| ReputationTables.AnchoredExactly | src/services/reputationService.ts:70-85 | a counterparty has standing if and only if it is registered and has stake or a counted receipt with somebody outside |
| ReputationTables.PostersExactly | src/services/reputationService.ts:286-298 | each chain reports once, if and only if it posted a job that the lineage, hired, did not perform |
| ReputationTrust.StakeShare | src/services/reputationService.ts:111 | the stake component is the square root of the stake's share of 10,000, and full from there on |
| ReputationTrust.TrustByRecord | src/services/reputationService.ts:96-114 | three tenths for stake, half for successes, a fifth for volume up to fifty receipts; nothing yet counts as half successful |
| ReputationTrust.NewcomersTrust | src/services/reputationService.ts:96-114 | a newcomer is trusted a quarter, an unknown party a twentieth |
| ReputationTrust.OneReceiptEarns | src/services/reputationService.ts:215-261 | what the first receipt weighs and what of it is credited, by trust, age, verdict and outcome |
| ReputationTrust.TwoReceiptsEarn | src/services/reputationService.ts:215-261 | two receipts are never capped; with one counterparty they share its logarithm |
| ReputationTrust.FreshReceiptUnfaded | src/services/reputationService.ts:222-232 | a receipt just completed, or stamped in the future, has not faded |
| ReputationTrust.TimeFadesEvenly | src/services/reputationService.ts:222-232 | if nothing begins or ceases to count, waiting multiplies all weight and weighted success by one factor and never raises the score |
| ReputationEngine.CountPairs | src/services/reputationService.ts:131-135 | the counting pass finds every counterparty with its number of receipts |
| ReputationEngine.CapParties | src/services/reputationService.ts:151-158 | the cap of each counterparty, none below three receipts |
| ReputationEngine.FindUnanchored | src/services/reputationService.ts:164-168 | exactly the counterparties without standing outside the cluster |
| ReputationEngine.Accumulate | src/services/reputationService.ts:215-284 | the main pass with its running counts computes the sums of the definition |
| ReputationEngine.CachedTrust | src/services/reputationService.ts:203-210 | the memo always holds the true base trust |
| ReputationEngine.AddReports | src/services/reputationService.ts:294-301 | adds each reporting chain's trust once |
| ReputationEngine.ComputeReputation | src/services/reputationService.ts:116-310 | the whole computation returns the defined summary, or nothing for an unknown agent |
| ReputationNeutrality.TrustRenamed | src/services/reputationService.ts:96-114 | base trust is unchanged by a succession, up to the new name |
| ReputationNeutrality.AnchoredRenamed | src/services/reputationService.ts:70-85 | so is anchoring |
| ReputationNeutrality.HistoryRenamed | src/services/reputationService.ts:62-68 | so is the whole history of an agent |
| ReputationNeutrality.OnlyOwnVotesDrop | src/services/verificationService.ts:169-189 | a succession removes exactly the retired verifier's own votes from a verdict |
| ReputationNeutrality.SummaryRenamed | src/services/reputationService.ts:56-168 | so is the summary of every agent, with s in place of p |
| ReputationGuarantees.NobodyHasStake | src/services/agentService.ts:12-149 | in every reachable state every stake is zero, so succession never loses one |
| ReputationGuarantees.ActivationHandsOver | src/services/agentService.ts:131-149 | in any state with the invariant, activation for a stakeless p meets the premises of the renaming argument |
| ReputationGuarantees.ActivationIsScoreNeutral | src/services/agentService.ts:131-149 | all activations one request begins with leave every summary the same, under the successor's name where there is one, if nobody succeeded had verified anything and the chains that grow stay within the guard |
| ReputationGuarantees.EachReceiptTalliedOnce | src/services/reputationService.ts:273-283 | an agent is never its own counterparty; each counted receipt is tallied once and the role counts add up |
| ReputationGuarantees.ClosedClusterEarnsNothing | src/services/reputationService.ts:161-168 | a closed cluster, or a single counterparty, leaves only the stake component |
| ReputationChanges.UncountedReceiptIgnored | src/services/reputationService.ts:14-24 | a draft, a demo receipt or one under active dispute has no influence on any score, wherever it is listed |
| ReputationGuarantees.EventuallyCounts | src/services/reputationService.ts:21-24 | no dispute keeps a countersigned receipt from counting beyond 144 h, plus the gap between two clock reads |
| ReputationGuarantees.HistoryInOrder | src/services/reputationService.ts:125-129 | the history is exactly the counted receipts, earliest first |
| ReputationChanges.ReportEffect | src/services/reputationService.ts:286-301 | a repeated report changes nothing; a new chain's never raises the score if and only if weighted success is at least 5/7 |
| ReputationVerdicts.RejectionEffect | src/services/reputationService.ts:234-261 | when the majority on a receipt turns into a rejection, an agent's score moves as RejectionRaisesExactly says if the receipt is in its history, and not at all otherwise |
| ReputationVerdicts.LoneDecisionDecides | src/services/verificationService.ts:169-189 | a single decision of a verifier in standing decides the verdict, its own way |
| ReputationVerdicts.DecisionMovesVerdict | sdk-js/src/core/attestation.ts:8-12 | one more decision moves the verdict on its receipt by at most one step and its own way, and no other verdict |
| ReputationVerdicts.RejectingDecisionRaisesExactly | src/services/reputationService.ts:234-261 | when one more rejecting decision raises an agent's score, for every verdict before and outcome declared; never on a declared success |
| Idempotency.TtlCache.PruneExpired | src/storage/db.ts:328-331 | removes exactly the expired entries |
| Idempotency.TtlCache.ReadFresh | src/storage/db.ts:334-342 | returns the live value; evicting on the way is invisible |
| Idempotency.TtlCache.SetWithSweep | src/storage/db.ts:349-352 | writes as if nothing had been swept |
| Idempotency.CacheKeyInjective | src/middleware/idempotency.ts:21 | the joined cache key determines agent and key, also for requests without an agent |
| Idempotency.Guard.Handle | src/middleware/idempotency.ts:16-57 | the guard over the two caches decides as over maps that never forget |
| Idempotency.Guard.Answered | src/middleware/idempotency.ts:59-68 | only a success is remembered, for 24 h |
| Idempotency.NoSecondRun | src/middleware/idempotency.ts:23-27 | after a success the handler does not run again for that agent and key before 24 h |
| Idempotency.RetryIsReplayed | src/middleware/idempotency.ts:23-27 | a retry within 24 h of a success gets the last success answered for that agent and key |
| Idempotency.RunsExactly | src/middleware/idempotency.ts:16-57 | over every run a request runs if and only if its stamp is within five minutes, its key not blank, nothing succeeded for it in 24 h and its signature is not bound to another key |
| Idempotency.OneKeyPerSignature | src/middleware/idempotency.ts:29-57 | a signature stamped before its first run never runs under two keys |
| Idempotency.SecondKeyPossibleExactly | src/middleware/signedRequest.ts:51-54 | a second key can run, after whatever is served in between, if and only if the timestamp plus the gap between two clock reads reaches the first run |
| Repos.AgentsRepo.Set | src/storage/db.ts:112-127 | one transaction keeps row, flag and capability rows in step; repeated capabilities fail and change nothing |
| Repos.AgentsRepo.SearchIsFilter | src/storage/db.ts:133-147 | indexed agent search is the plain filter |
| Repos.JobsRepo.Set | src/storage/db.ts:194-200 | columns follow the record, except the poster column, which keeps its first value |
| Repos.JobsRepo.SearchIsFilter | src/storage/db.ts:202-216 | indexed job search is the plain filter |
| Repos.ReceiptsRepo.Set | src/storage/db.ts:175-181 | on conflict only the record is replaced |
| Repos.ListingAgreesExactly | src/storage/db.ts:183-186 | listing by agent agrees with the records if and only if the first and the last set of every receipt name the same parties |
| Repos.RegistryKeepsColumns | src/services/receiptService.ts:122-128 | the table that any run of the registry writes holds exactly its receipts with their parties in the columns, so listing by agent is the plain filter |

## Left out

- Cryptography: Ed25519, P-256, secp256k1, SHA-256 and keccak are parameters; base64 and hex decoding, and upper-case hex in a proof, are not modelled.
- UTF-8 encoding of the canonical text, and parsers that join two escaped surrogates into one character; the parser here is the one the printer's texts determine.
- Floating point: the score is over exact reals without the final rounding to one decimal; the logarithm, the square root and the power of two are parameters; number rendering starts from the digits the language's own shortest representation supplies.
- Reputation fields that only report: settlement volumes, flags, evidence labels, active-dispute counts.
- ReputationEngine.ComputeReputation: reads the clock once, where the code reads it per receipt; the order of receipts completed in the same millisecond is the order of the table, where the code groups by lineage ID first.
- ReputationGuarantees.ActivationIsScoreNeutral: assumes that the chains being extended stay within the 64-link guard; beyond it one identity is counted as two (Succession.GuardSplitsIdentity), so nothing is claimed there.
- Idempotency.OneKeyPerSignature: assumes one signature verifies with one timestamp only, as the signing string contains it.
- WorkerProgress.ActivationFinishes: lets the other requests pause while the loop runs; with them running WorkerSafety says what stays true.
- RegistryStore.Store.SubmitVerification: does not model the list of supported methods, an input check without state.
- RegistryStore.Store.RevokeAgent: does not store the reason given, which no rule reads.
- RegistryStore.Store.ReportNonPerformance: does not store the reason and the time of the report, which no rule reads.
- RegistryStore.Store.CreateDraft: does not store the visibility, which is outside the signed content and read only when a receipt is shown.
- RegistryStore.Store.Countersign: leaves out the publish flag of the log entry; TransparencyLog.LogTable.AppendEntry models what the flag does.
- RegistryStore.Store.OpenADispute: does not store the reason text; leaves out the publish flag.
- RegistryStore.Store.ResolveDispute: does not store the resolution note and time; leaves out the publish flag.
- RegistryStore.Store.PostJob: the new ID is an argument, since it is random; capability, budget and spec hash are not stored.
- External-identity linking, rate limits, API keys, receipt visibility and the demo counterparty: local checks with easy invariants.
- HTTP routing, SDK clients, badges, payment rails, the A2A and MCP endpoints, network probes and generators of test vectors.
- SQL and JSON storage: tables are maps and each statement or transaction one atomic step; time stamps are compared as numbers, not as ISO text.
- The edge deployment's receipt and job operations, which repeat the compare-and-swap pattern of its succession operations; the Worker model stops at succession.
