# did-crdt replication core, verified

did-crdt keeps a DID document as a product of CRDTs. Replicas exchange signed deltas; each delta
names its parents by content hash, so the deltas a replica holds form a Merkle DAG. A delta is
admitted by looking only at its own causal past. This project models that core in Dafny and proves
what it is for: replicas that have been offered the same deltas agree, whatever the order, the
repetition or the route.

`dafny verify dfyconfig.toml` checks the whole project.

## How the model is laid out

| file | contents |
|---|---|
| `Deltas.dfy` | deltas, operations, stamps, ascending hash lists |
| `History.dfy` | histories (hash-indexed deltas) and the causal past as a least closed set |
| `Dag.dfy` | `DeltaDag`: the incremental frontier and the depth-first closure queries |
| `Admission.dfy`, `Causal.dfy` | the three-valued verdict, its conjunction, the one-pass closure scan |
| `Registers.dfy`, `Orswot.dfy` | last-writer-wins registers; the observed-remove set and its version vector |
| `State.dfy`, `StateLaws.dfy` | the CRDT product, its closed form over a history, uniqueness, joins |
| `Documents.dfy`, `Refusals.dfy`, `Keys.dfy`, `Payloads.dfy` | documents as values; what they refuse, and with which answer; the key lookup under growth; what a content hash covers |
| `Convergence.dfy`, `Replicas.dfy`, `Growth.dfy`, `Authority.dfy` | runs, strong eventual consistency, state joins against replay, deliveries from any start, chains of authority |
| `Kahn.dfy`, `Recon.dfy`, `Bundles.dfy`, `Exchange.dfy` | topological order, closure extraction, verified bundles, the retry loop and reconciliation |
| `Network.dfy` | any number of replicas and any mix of routes: deltas, bundles, batches and state joins |
| `Counterexamples.dfy` | short runs from creation on which a tempting promise fails |
| `DocumentObject.dfy`, `Gossip.dfy` | the mutable document and the gossip node, each method proved equal to the value operation |
| `Clocks.dfy`, `Calendar.dfy` | hybrid logical clocks over whole runs; seconds to civil time |

The central notion is `State.Reflects(c, s)`: state `c` is the closed form of the set of deltas `s`.
It is declarative (an endpoint is live iff no held remove of its id has the add in its past, a
register holds a latest write, a G-Set is what the deltas put in it) and says nothing about order.
One lemma shows that applying a grounded delta keeps it, one that it determines the state, and one
that joining two states gives the closed form of the union exactly when no dot is skipped.
Convergence, state merge, bundles, the retry loop and reconciliation all go through those three.
Bundles and retry loops are shown to be deliveries (`Bundles.BundleIsDelivery`, `Exchange.RetryIsDelivery`), so what holds of
every delivery holds of them. What they ask of a document is `Documents.Mirrored` (its plain fields are those of its log, which
introduces some key) or ancestor closure, never that it was built in a particular way.
The other pillar is `Convergence.SaturatedUnique`: what a document ends up holding is fixed by what
it was offered, as soon as nothing offered is admissible any more.

## Conventions

- A content hash is an opaque totally ordered value carried by its delta. The hash covers DID, stamp, operation and
  parents and leaves out signer and proof, so "a hash identifies its delta" is a hypothesis (`CollisionFree`, `Agree`),
  never assumed silently. The inbound loop needs only that a hash identifies its payload (`Payloads.OnePayload`).
- A proof is empty or verifies under a set of public keys; decoding and the node-id binding are part of that set.
  `Error.BadProof` stands for whatever error signature verification returns.
- The serialised size and the outcome of the alias grammar are attributes of a delta.
- The alias vector is sorted and deduplicated before it is stored, which a set represents exactly.
- The rotation marker (sequence, key digest) is ordered as the pair is and shares the register type of the HLC stamps.
- A document's DAG is not part of its value: `Document.Valid` says it is the one its log rebuilds.
- `verified` selects between `merge` and `merge_verified_delta`; theorems that carry it hold on both paths.
- `logical` is a 32-bit counter that wraps, as in a release build. Calendar arithmetic is over all naturals, with a
  separate lemma that no 64-bit input overflows.
- `hide` statements only narrow what the solver looks at.

## Hypotheses, and where the code promises less than its comments

- `DistinctStamps` asks for distinct stamps only of deltas that contend: adds, or writes to one register. Registers that tie
  keep the first writer, endpoint adds that share a dot keep the last one delivered, so equal stamps diverge either way
  (`Counterexamples.TiedWritesDiverge`, `Counterexamples.TiedAddsDiverge`). The exact conditions are `Registers.OrderFreeIff`
  for a register, `Orswots.AddOrderFreeIff` for adds and `Orswots.JoinCommutesIff` for joins. Clocks deliver distinct stamps:
  `Clocks.StampsAreDistinct`.
- `DistinctDigests`: key references with one BLAKE3 digest are one reference.
- `GapFree` is the exact condition under which the state join of endpoints equals replay
  (`StateLaws.ServiceJoinIff`, `Replicas.StateMergeIsReplayIff`); nodes that chain their service deltas in stamp order meet it
  (`StateLaws.ChainIsGapFree`), others need not (`Counterexamples.UnchainedDotIsSkipped`). That `merge_state` is a semilattice join
  does not depend on it: it commutes and associates on all states that deltas and joins lead to, skipped dots included
  (`Network.ReachableStatesFormSemilattice`), and is idempotent on every document.
- `LowerKeysFirst`: the key lookup takes the first entry with the id, so a lower key that arrives late changes signature checks,
  and two parents-first deliveries of one offer can end in two histories (`Counterexamples.TwoKeysDiverge`). For one signer the
  exact condition is `Keys.SignatureStableIff`: no lower key under its id. `LowerKeysFirst` asks that a lower key be in the past of
  every higher one under the same id; one key per id (`Keys.OneKeySuffices`) is the plainest case. On a document that is not
  ancestor-closed, `KeysSettled` asks the same of the keys it already holds.
- Admission is not causal on a document that knows no key at all, which loading accepts: there the deferral admits signers
  their past does not authorise (`Counterexamples.KeylessDocumentAdmits`). `Documents.AdmissionIff` is the exact statement, and
  `Documents.AdmissionIsCausal` follows once some key is known, as it is in every created document.
- `CollisionFree`: a copy of a delta with a bad proof has the delta's hash. Delivered first it counts as the parent having been
  offered, and a child delivered next is lost (`Counterexamples.BadCopyLosesChild`). Deliveries agree next to such copies exactly
  when they leave nothing to admit (`Exchange.QuietDeliveriesAgreeIff`); the retry loop always gets there
  (`Exchange.InboundOrderIrrelevant`).
- Verdicts on a parentless delta are not monotone (`Causal.ParentlessNotMonotone`), and the reason of a refusal may change from
  deactivated to revoked (`Causal.ReasonMaySharpen`, on a run in `Counterexamples.ReasonSharpens`).
- `meet` is conjunction, not the greatest lower bound of the partial order, and is idempotent exactly on sorted duplicate-free lists.
- `deltas_for_peer` is documented as the history minus the peer's closure. It sends everything lacking and nothing foreign, and
  is exactly the difference iff the peer's frontier shows every head and parent the sender builds on
  (`Recon.ForPeerIsDifferenceIff`); two children of genesis already make it resend (`Counterexamples.GenesisIsResent`).

## Model

| member | source | states |
|---|---|---|
| `Deltas.CanonicalIsAscending` | src/core/document.rs:174-176 | the neighbour check on parents holds iff the list is sorted without repetition |
| `Deltas.SortDedupIsSorted` | src/core/delta.rs:392-395 | sorting and deduplicating gives the ascending listing of the set, a function of the set alone |
| `Deltas.BeforeIsLexicographic` | src/core/hlc.rs:45-59 | stamps compare as the numbers with digits wall, counter and node |
| `Histories.PastIsWalks` | src/core/dag.rs:19-25 | the least closed set is exactly what walks along parent links reach, on any parent graph |
| `Histories.PastGrows` | src/core/dag.rs:21-25 | a causal past only grows with the store, and once complete it is fixed |
| `Histories.PastIsShared` | src/core/dag.rs:21-25 | agreeing ancestor-closed stores give shared deltas one and the same past |
| `Dag.DeltaDag.Insert` | src/core/dag.rs:156-172 | the incremental indexes stay equal to "all held parents" and "held minus referenced"; a held hash is a no-op |
| `Dag.DeltaDag.FrontierList` | src/core/dag.rs:95-97 | lists the leaves in ascending order |
| `Dag.DeltaDag.IncompleteAncestors` | src/core/dag.rs:136-145 | lists exactly the named but absent hashes, and is empty iff the store is ancestor-closed |
| `Dag.DeltaDag.ClosureFind` | src/core/dag.rs:208-242 | found iff a held reachable delta matches, not found iff the closure is complete without a match, else exactly the missing reachable hashes; terminates on cyclic graphs |
| `Dag.DeltaDag.ClosureCollect` | src/core/dag.rs:253-278 | collects exactly what the function yields on the held part of the closure |
| `Dag.InsertOrderIrrelevant` | src/core/dag.rs:147-172 | the store depends only on the set inserted, not on order or repetition |
| `Admission.MeetCommutes` | src/core/admission.rs:106-134 | conjunction of results does not depend on operand order, fetch lists included |
| `Admission.MeetAssociates` | src/core/admission.rs:106-134 | nor on grouping |
| `Admission.MeetIdempotentIff` | src/core/admission.rs:106-134 | idempotent exactly when the fetch list is sorted and duplicate free |
| `Admission.MeetNotIdempotent` | src/core/admission.rs:106-134 | an unsorted list for which idempotence fails |
| `Admission.MeetIsConjunction` | src/core/admission.rs:119-188 | valid iff both, invalid iff either, and waiting for the union of both lists; not a lower bound of the partial order |
| `Admission.MeetKeepsPayload` | src/core/admission.rs:119-134 | of two refusals the reason declared first wins, and next to a valid result the fetch list stays |
| `Admission.ComparisonIsFlat` | src/core/admission.rs:176-187 | undecided is least, decisions do not compare, and the comparison is transitive |
| `Causal.ScanClosure` | src/core/causal.rs:115-156 | one pass finds all three authorisation facts and exactly the sorted absent reachable hashes |
| `Causal.Verify` | src/core/causal.rs:55-98 | the decision equals the verdict defined over the causal past |
| `Causal.VerifyByQueries` | src/core/causal.rs:79-114 | three separate closure queries give the same verdict as the one-pass scan |
| `Causal.VerdictMeans` | src/core/causal.rs:79-98 | each verdict holds iff the operations in the past say so, revocation before deactivation before absence before authorisation; an undecided one lists the absent hashes |
| `Causal.RootVerdictMeans` | src/core/causal.rs:63-77 | a parentless delta is valid iff the store is empty and it introduces its own signer; otherwise the reason is fixed |
| `Causal.AdmissionMonotone` | src/core/causal.rs:79-98 | for a delta with a parent: verdicts only climb, valid stays valid, invalid stays invalid, complete closures fix the verdict and force it to be resolved, unknown carries exactly the sorted absent hashes |
| `Causal.ParentlessNotMonotone` | src/core/causal.rs:63-77 | a parentless delta is refused by every non-empty store, valid on the empty one iff it introduces its own signer |
| `Causal.ReasonMaySharpen` | src/core/causal.rs:86-91 | a deactivation refusal can only turn into a revocation refusal, exactly when a revocation shows up, never on a complete closure |
| `Registers.SettlesUnique` | src/core/crdt.rs:366-378 | a register that holds a latest write is determined by the writes when the latest ones agree |
| `Registers.OrderFreeIff` | src/core/crdt.rs:366-378 | delivery order is irrelevant to a register iff its latest writes carry one value |
| `Orswots.JoinIsUnion` | src/core/crdt.rs:320-346 | the join unions what was seen and what was removed; live is the rest |
| `Orswots.JoinCommutesIff` | src/core/crdt.rs:327-346 | two states join alike in both orders iff they agree on the entries of the dots both hold live |
| `Orswots.JoinAssociates` | src/core/crdt.rs:327-346 | the join associates on all states that agree on dots |
| `Orswots.JoinIdempotent` | src/core/crdt.rs:327-346 | the join is idempotent on every state |
| `Orswots.JoinIsLeast` | src/core/crdt.rs:327-346 | the join is the least upper bound in the information order |
| `Orswots.AddWitnessed` | src/core/crdt.rs:267-270 | an add keeps every live dot witnessed |
| `Orswots.RemoveWitnessed` | src/core/crdt.rs:278-284 | a remove keeps every live dot witnessed and cancels every observed one |
| `Orswots.JoinWitnessed` | src/core/crdt.rs:327-346 | the join keeps every live dot witnessed |
| `Orswots.AddOrderFreeIff` | src/core/crdt.rs:267-270 | from any state, the order and repetition of adds is irrelevant to what is live iff adds sharing a dot carry one entry |
| `Orswots.ServiceEndpoints.ObserveDot` | src/core/crdt.rs:287-292 | advances one node's slot to the later dot |
| `Orswots.ServiceEndpoints.ApplyAdd` | src/core/crdt.rs:267-270 | the new set is the add applied to the old one |
| `Orswots.ServiceEndpoints.ApplyRemove` | src/core/crdt.rs:278-284 | the loop removes exactly the observed dots and observes all of them |
| `Orswots.ServiceEndpoints.Merge` | src/core/crdt.rs:327-346 | the three loops compute the join of the two sets |
| `VersionVectors.RemoveBySet` | src/core/crdt.rs:278-284 | the order in which observed dots are listed does not matter |
| `VersionVectors.TopsJoin` | src/core/crdt.rs:339-344 | joining contexts keeps each node's greatest dot over both sides |
| `State.ApplyKeepsClosedForm` | src/core/document.rs:1165-1246 | applying a grounded delta keeps every field equal to the closed form of the held deltas |
| `State.LiveInsert` | src/core/document.rs:1193-1224 | how one delta changes which adds are live: a remove cancels exactly the adds of its id in its past |
| `StateLaws.ClosedFormUnique` | src/core/document.rs:1165-1246 | the held deltas determine every CRDT field |
| `StateLaws.FactsMean` | src/core/document.rs:1165-1246 | keys, revocations, credentials and deactivation are exactly those some held operation put there, and the update time is the greatest held wall time |
| `StateLaws.HighestRotationIsActive` | src/core/crdt.rs:408-462 | the active key is that of a held rotation no other outranks, by sequence and then by digest; none is active iff no rotation is above zero |
| `StateLaws.LatestDataShows` | src/core/crdt.rs:366-404 | a data field is there iff written, and shows a latest write above the zero stamp, or null |
| `StateLaws.LatestAliasesShow` | src/core/crdt.rs:557-570 | the aliases are those of a latest write above the zero stamp, or empty |
| `StateLaws.JoinTimes` | src/core/document.rs:595-607 | of two creation times the earlier is kept, of two update times the later, and an unknown one gives way |
| `StateLaws.ServiceJoinIff` | src/core/crdt.rs:320-346 | the endpoint join is the closed form of the union iff neither side skips a dot |
| `StateLaws.ChainIsGapFree` | src/core/crdt.rs:202-208 | nodes that causally chain their service deltas in stamp order leave no gap |
| `StateLaws.JoinIsReplayIff` | src/core/document.rs:579-607 | joining all fields of two closed-form states gives the closed form of the union iff neither side skips a dot |
| `StateLaws.ApplyKeepsDrawn` | src/core/document.rs:1165-1246 | whatever delta is applied, plain fields stay in closed form and every live dot is witnessed and carries a held add's entry |
| `StateLaws.JoinKeepsDrawn` | src/core/document.rs:579-607 | joining keeps that, over the union |
| `StateLaws.JoinStateCommutes` | src/core/document.rs:550-607 | the join of all fields commutes on such states, skipped dots included |
| `StateLaws.JoinStateAssociates` | src/core/document.rs:550-607 | and associates |
| `Documents.AdmissionIff` | src/core/document.rs:432-490 | on a delta-backed document a new delta is admitted iff its local checks pass and its past says valid, or the state knows no key and the refusal is deferred; refusals change nothing |
| `Documents.AdmissionIsCausal` | src/core/document.rs:432-490 | once some key is known, floor and deferral change nothing |
| `Refusals.FieldsAreChecked` | src/core/document.rs:371-420 | size, DID, alias and reserved-name violations each get their own answer and leave the document alone; a held delta is a no-op |
| `Refusals.MergeAnswers` | src/core/document.rs:422-490 | the answer to every new delta on every document, delta-backed or not: unsorted parents, absent ancestors, no authority, then imported deactivation, unknown signer and imported revocation |
| `Refusals.AdmissionExact` | src/core/document.rs:371-490 | on every document a new delta is admitted iff its fields, its past and the imported facts allow it |
| `Refusals.SignatureMeans` | src/core/validate.rs:122-171 | a proof passes iff it is empty and no key is known, or it verifies under its signer's least key |
| `Refusals.VerifiedAnswers` | src/core/document.rs:528-546 | a held delta is a no-op, an undecided past waits, a failing proof is refused before all else, and an unsigned delta never enters a document that knows a key |
| `Refusals.PendingNamesTheAbsent` | src/core/document.rs:432-441 | a pending answer lists exactly the reachable absent hashes in ascending order and leaves the document alone |
| `Documents.ReflectedFactsBacked` | src/core/document.rs:460-490 | a closed-form state has no fact without its delta, and knows a key iff its history introduces one |
| `Documents.MergeKeepsBacking` | src/core/document.rs:460-511 | merging never leaves a key, revocation or deactivation without its delta |
| `Documents.StepAdmits` | src/core/document.rs:371-546 | one step on a document whose plain fields mirror its log appends exactly the admissible deltas it lacks, and is pending only on an unknown verdict |
| `Documents.StepKeepsMirrored` | src/core/document.rs:371-546 | every step keeps fields and log in step, adds at most its own delta and never leaves a parent behind |
| `Documents.StepKeepsSound` | src/core/document.rs:371-546 | a step that checks at least as much as the log was admitted under keeps the log admitted |
| `Documents.CheckedIsAdmitted` | src/core/document.rs:371-546 | a log admitted with signatures checked is admitted without |
| `Documents.AdmittedIsGrounded` | src/core/document.rs:422-511 | every admitted log starts at genesis, is ancestor-closed and holds one delta per entry |
| `Convergence.NewDocIsSound` | src/core/document.rs:307-352 | creation yields a sound document in closed form |
| `Convergence.CreationIs` | src/core/document.rs:307-352 | the new document field by field: one authentication key under the DID, zero stamps, one unsigned parentless delta |
| `Keys.SignatureStableIff` | src/core/validate.rs:160-171 | once a signer's first key is known, all its signature checks survive growth iff no lower key arrives under its id |
| `Keys.LowerKeyTakesOver` | src/core/validate.rs:160-171 | a lower key under the id makes a proof that verified fail |
| `Keys.ClosedIsSettled` | src/core/validate.rs:160-171 | where lower keys come first causally, an ancestor-closed store never learns of one too late |
| `Keys.OneKeySuffices` | src/core/validate.rs:160-171 | one key per id meets both key hypotheses |
| `Convergence.AdmissibleStable` | src/core/causal.rs:32-36 | admission is never withdrawn as the store grows, signature check included |
| `Convergence.SaturatedUnique` | src/core/document.rs:371-546 | two admitted logs over one offer, each with nothing left to admit, hold the same deltas |
| `Convergence.DeliveriesHoldTheSame` | src/core/document.rs:371-546 | any two parents-first deliveries of one offer hold the same; only the keys one of them holds need be in order |
| `Convergence.CausalDeliveryIsQuiet` | src/core/document.rs:371-511 | in a parents-first delivery to any ancestor-closed mirrored document everything offered so far is held or refused for good |
| `Convergence.StrongEventualConsistency` | src/core/document.rs:371-511 | any two parents-first deliveries of one offer, duplicates allowed, end with equal histories and frontiers, and with equal fields where stamps tell apart what is held |
| `Convergence.AddWins` | src/core/document.rs:1193-1224 | after any delivery an add is live iff no held remove of its id has it in its past, and the context holds each node's greatest service stamp |
| `Replicas.StateMergeIsReplayIff` | src/core/document.rs:579-629 | merging states equals replaying the other log, on the plain or the verified path, document for document, iff neither side skips a dot; the logs always agree |
| `Replicas.StateMergeAnswers` | src/core/document.rs:579-585 | state of another DID is refused and changes nothing; state of the same DID always succeeds and loses no delta |
| `Replicas.ChainedStateMergeIsReplay` | src/core/document.rs:579-629 | with chained service deltas the two routes give one document in closed form, on either path |
| `Replicas.StateMergeKeepsSound` | src/core/document.rs:579-629 | state merge leaves an admitted log and every field but the endpoints in closed form, gaps or not |
| `Replicas.StateMergeKeepsDrawn` | src/core/document.rs:579-629 | state merge keeps the state drawn from the log |
| `Replicas.StepKeepsDrawn` | src/core/document.rs:371-546 | so does every step on every document |
| `Replicas.StateMergeCommutes` | src/core/document.rs:550-629 | state merge commutes on fields and held deltas, chained or not |
| `Replicas.StateMergeAssociates` | src/core/document.rs:550-629 | state merge associates on fields and held deltas, chained or not |
| `Replicas.StateMergeIdempotent` | src/core/document.rs:550-629 | merging any document into itself changes nothing |
| `Replicas.StateMergeKeepsBacking` | src/core/document.rs:460-465 | state merge of delta-backed documents is delta-backed |
| `Replicas.LogReplays` | src/core/document.rs:615-626 | delivering one replica's log to another admits all of it and leaves exactly the union |
| `Payloads.VerdictOfPayloads` | src/core/delta.rs:363-366 | the verdict on a delta looks at held payloads only, not at their signers or proofs |
| `Growth.ApplyGrows` | src/core/document.rs:1193-1224 | from any start: live dots are the old ones and the new adds less what new removes observed, and seen is what these cover |
| `Growth.SameHoldingsSameState` | src/core/document.rs:371-511 | from one drawn document, deliveries that end up with the same payloads end in the same state, in closed form or not |
| `Authority.LogIsAuthorised` | src/core/causal.rs:55-98 | exactly genesis is parentless; every other delta has a held past that reaches genesis, introduces its signer and neither revokes it nor deactivates |
| `Authority.SignersTraceToGenesis` | src/core/causal.rs:55-98 | every held delta heads a finite chain of introductions ending at genesis, no longer than the log |
| `Authority.RunsAreAuthorised` | src/core/document.rs:307-511 | all of that in every document reached from creation by any delivery |
| `Authority.LogIsWellAddressed` | src/core/document.rs:371-420 | every delta past genesis carries the document's DID, respects the gates and has ascending parents |
| `Authority.LogIsAuthentic` | src/core/validate.rs:122-212 | on the verified path every delta past genesis carries a proof under the least key its signer had when it came in, introduced by a held delta |
| `Kahn.TopoOrder` | src/core/document.rs:184-227 | with in-degree maps, child lists and arbitrary iteration order, returns the order that is a function of the bundle alone, or nothing |
| `Kahn.BuildDegrees` | src/core/document.rs:185-196 | in-degrees and child lists count repeated parents with multiplicity |
| `Kahn.Release` | src/core/document.rs:207-217 | each listed child loses one count per listing; exactly those that reach zero are unlocked, each once |
| `Kahn.Pop` | src/core/document.rs:206-218 | one turn of the loop takes the popped hash out of every count and returns the sorted newly free hashes |
| `Kahn.KahnIsCorrect` | src/core/document.rs:178-227 | success lists each hash once with in-bundle parents earlier; failure leaves a set in which each member has a parent in the set; it fails iff such a set exists |
| `Kahn.OrderIsDepthFirst` | src/core/document.rs:197-219 | the order starts with the greatest root and goes on with the greatest of what the last hash unlocked |
| `Recon.ExtractClosure` | src/core/recon.rs:74-99 | returns each delta reachable without entering the stop set once, and fails iff one of them is not held |
| `Recon.AboveIsWalks` | src/core/recon.rs:66-68 | that set is what walks avoiding the stop set reach |
| `Recon.DeltasForPeer` | src/core/recon.rs:111-126 | lists each delta above the peer's frontier once |
| `Recon.MissingFromFrontier` | src/core/recon.rs:51-61 | asks for exactly the unheld heads and own gaps, and for nothing iff heads are held and the store is closed |
| `Recon.ExportBundle` | src/core/document.rs:642-662 | carries everything above nothing, named after the greatest head |
| `Recon.MergeBundle` | src/core/recon.rs:140-172 | accepted iff it carries its target and dangles nowhere; inserts all or changes nothing; counts the new deltas |
| `Recon.BundleRoundTrip` | src/core/recon.rs:74-172 | a bundle extracted against the receiver's frontier is accepted and leaves the receiver closed and holding the target's whole past |
| `Bundles.BundleIsAtomic` | src/core/document.rs:691-749 | on every ancestor-closed document verified bundle merge changes nothing on error, never answers pending, and on success holds exactly old plus bundle and returns how many were new |
| `Bundles.BundleAnswers` | src/core/document.rs:691-722 | a bundle without its target, with a dangling parent or with a parent cycle is refused and changes nothing |
| `Bundles.CheckedIff` | src/core/document.rs:691-722 | the structural checks pass iff none of the three is the case, with the last copy of a hash counting |
| `Bundles.ReplayAnswers` | src/core/document.rs:729-745 | replaying one delta skips what is held, refuses a failing proof and otherwise merges |
| `Bundles.BundleIsDelivery` | src/core/document.rs:691-749 | it is a verified delivery of deltas of the bundle |
| `Bundles.BundleKeepsSound` | src/core/document.rs:691-749 | it keeps a log admitted and a state in closed form |
| `Bundles.BundleOrderIrrelevant` | src/core/document.rs:679-722 | result, state and count ignore the order of the bundle's deltas |
| `Bundles.HonestBundleMerges` | src/core/document.rs:691-749 | a well-formed bundle of a peer's admitted deltas is always accepted |
| `Exchange.RetryIsDelivery` | src/sync/gossip.rs:478-496 | the retry loop is a verified delivery of deltas of the batch |
| `Exchange.RetryFacts` | src/sync/gossip.rs:478-496 | on any mirrored document the loop ends with every delta held, refused for good, or waiting for an absent ancestor |
| `Exchange.RetrySaturates` | src/sync/gossip.rs:478-496 | the loop takes in all of the batch that it ever could |
| `Exchange.RetryAbsorbs` | src/sync/gossip.rs:478-496 | every batch delta ends up held as to its payload or not admissible, copies with other proofs included |
| `Exchange.DeliverFlows` | src/sync/gossip.rs:478-496 | whatever a delivery takes in, every history that absorbs the offer holds as well |
| `Exchange.RetryKeepsSound` | src/sync/gossip.rs:478-496 | the loop keeps a log admitted |
| `Exchange.InboundOrderIrrelevant` | src/sync/gossip.rs:478-496 | on any mirrored document the held payloads are the same for every order of a batch, copies included, and what stays pending has an incomplete closure |
| `Exchange.InboundStateOrderIrrelevant` | src/sync/gossip.rs:478-496 | so is the state, on any document whose state is drawn from its log, in closed form or not |
| `Exchange.QuietDeliveriesAgreeIff` | src/core/document.rs:528-546 | next to a delivery that leaves nothing to admit, another of the same offer holds the same payloads iff it leaves nothing to admit |
| `Recon.ForPeerCovers` | src/core/recon.rs:101-126 | what is sent contains everything the peer lacks and nothing the sender does not hold |
| `Recon.ForPeerIsDifferenceIff` | src/core/recon.rs:101-126 | it is exactly the difference iff the peer's frontier shows every head and parent the sender builds on |
| `Recon.EverythingIsSentIff` | src/core/recon.rs:101-126 | an empty frontier is answered with the whole store iff every delta lies below some head |
| `Exchange.AdmittedIsHeaded` | src/core/dag.rs:93-97 | in an admitted log every delta lies below some head |
| `Exchange.AnswerCovers` | src/core/recon.rs:101-126 | a replica's answer covers what the peer lacks |
| `Exchange.AnswerIsDifferenceIff` | src/core/recon.rs:101-126 | and is exactly the difference iff the peer's frontier shows all the sender builds on |
| `Exchange.ReconciliationClosesGap` | src/sync/gossip.rs:300-496 | feeding a peer's answer to the inbound loop leaves exactly the union |
| `Exchange.TwoWayExchangeConverges` | src/sync/gossip.rs:300-496 | a two-way exchange leaves equal histories, frontiers and fields |
| `Exchange.EverythingIsSent` | src/core/recon.rs:101-126 | an empty frontier is answered with the whole admitted history |
| `Exchange.ExportRoundTrip` | src/core/document.rs:633-749 | an exported history is accepted by every peer and leaves exactly the union |
| `Network.RoutesConverge` | src/core/document.rs:371-749 | over any run of any number of replicas mixing deltas, bundles, batches and state joins: replicas with nothing left to admit hold the same; equal holdings are equal fields where stamps tell them apart, endpoints included if services are chained or no state was joined |
| `Network.RoutesAreAuthorised` | src/core/causal.rs:55-98 | on every replica of such a run exactly genesis is parentless, every other delta is authorised by its held past and addressed to the run's DID, and on the verified path carries a proof under the key it names |
| `Network.FullBatchSaturates` | src/sync/gossip.rs:478-496 | one batch with the whole offer leaves nothing more to admit |
| `Network.ReachableStatesFormSemilattice` | src/core/document.rs:550-629 | on the replicas of any such run, chained or not, state merge commutes and associates |
| `Counterexamples.TiedWritesDiverge` | src/core/crdt.rs:366-378 | two deliveries from creation whose tied writes end with different values: the first writer stays |
| `Counterexamples.TiedAddsDiverge` | src/core/crdt.rs:267-270 | two deliveries whose adds share a dot end with different entries: the last delivered stays |
| `Counterexamples.UnchainedDotIsSkipped` | src/core/crdt.rs:202-208 | two delivered documents whose state merge drops an add that replay keeps |
| `Counterexamples.ReasonSharpens` | src/core/causal.rs:86-91 | a run on which one delta is refused as deactivated, then as revoked |
| `Counterexamples.GenesisIsResent` | src/core/recon.rs:101-126 | two delivered documents for which the answer resends what the peer holds |
| `Counterexamples.TwoKeysDiverge` | src/core/validate.rs:160-171 | two parents-first verified deliveries of one offer with two keys under one id that end in different histories |
| `Counterexamples.KeylessDocumentAdmits` | src/core/document.rs:131-169 | a loadable document without keys that admits a delta its past refuses |
| `Counterexamples.BadCopyLosesChild` | src/core/delta.rs:348-366 | two parents-first deliveries with a badly signed copy, one of which loses a child for good |
| `DocumentObject.Document.Load` | src/core/document.rs:131-169 | loading refuses keys without a log and nothing else, and rebuilds the DAG |
| `DocumentObject.Document.Create` | src/core/document.rs:307-352 | creation gives the new document's value with a valid DAG |
| `DocumentObject.Document.ApplyOp` | src/core/document.rs:1165-1246 | the addressed field changes as the value operation says and nothing else does |
| `DocumentObject.Document.Merge` | src/core/document.rs:371-511 | new value and result equal the value-level merge; the DAG still matches the log |
| `DocumentObject.Document.VerifySignature` | src/core/validate.rs:122-212 | true iff an empty proof meets no known key, or the proof verifies under the least key of its signer |
| `DocumentObject.Document.MergeVerifiedDelta` | src/core/document.rs:528-546 | new value and result equal the verified step |
| `DocumentObject.Document.MergeState` | src/core/document.rs:579-629 | new value and result equal the value-level state merge; the DAG still matches the log |
| `DocumentObject.Document.RebuildDag` | src/core/document.rs:1153-1160 | rebuilding from the log restores a valid DAG and changes nothing else |
| `DocumentObject.Document.RebuildIsIdentity` | src/core/document.rs:1147-1160 | in every valid document the rebuilt store, references and frontier are the live ones |
| `DocumentObject.Document.MergeVerifiedBundle` | src/core/document.rs:691-749 | the working-copy replay commits or leaves the document alone, as the value operation says |
| `DocumentObject.MergeData` | src/core/crdt.rs:394-404 | the loop joins the two register maps field by field |
| `Gossip.RunPass` | src/sync/gossip.rs:481-489 | one pass over the batch, keeping exactly what came back pending |
| `Gossip.MergeBatch` | src/sync/gossip.rs:478-496 | the loop terminates with the value of the retry function |
| `Gossip.GenesisBootstrap` | src/sync/gossip.rs:140-209 | succeeds iff the batch has exactly one parentless entry, it adds a key, and that key derives the DID and the entry's hash; then holds what the retry loop makes of the rest |
| `Gossip.BootstrapIff` | src/sync/gossip.rs:145-190 | that condition, on the batch and the derivation alone |
| `Gossip.BootstrapFounds` | src/sync/gossip.rs:164-209 | the founded document has this DID, and its only parentless delta introduces that key under the first key id |
| `Gossip.ColdStartIsRecognised` | src/sync/gossip.rs:145-190 | a peer's whole history is recognised by its one creation delta |
| `Gossip.ColdStartRebuilds` | src/sync/gossip.rs:192-209 | bootstrapping from a peer's whole history rebuilds its history and state |
| `Gossip.Node.Handle` | src/sync/gossip.rs:261-321 | duplicate announces are silent, fresh ones request with the own frontier or, if wanted, an empty one; requests are answered with exactly the deltas above the frontier |
| `Gossip.MergeInbound` | src/sync/gossip.rs:453-496 | a known DID runs the retry loop on its document alone; an unknown one is ignored unless wanted; a failed bootstrap leaves the store alone |
| `Gossip.Round` | src/sync/gossip.rs:261-496 | announce, request, answer and merge between two nodes leave the listener holding exactly the union |
| `Gossip.ColdRound` | src/sync/gossip.rs:261-496 | the same round towards a node that wants the DID but does not know it rebuilds history and state |
| `Clocks.Hlc.AdvanceSend` | src/core/hlc.rs:108-121 | the clock shows the greater wall time, with the counter reset if it moved on and bumped modulo 2^32 otherwise |
| `Clocks.Hlc.AdvanceRecv` | src/core/hlc.rs:123-140 | the clock shows the greatest of three wall times, with the counter past those of the clocks that carry it, or zero |
| `Clocks.CounterIsExact` | src/core/hlc.rs:108-140 | over any run the counter is zero iff the wall time exceeds all the node has shown or received, and otherwise one more than the greatest counter heard at that wall time |
| `Clocks.SendAdvancesIff` | src/core/hlc.rs:88-121 | a send is strictly later iff the counter has room or the wall clock moved on |
| `Clocks.RecvAdvancesIff` | src/core/hlc.rs:97-140 | a receive is strictly later than both clocks iff neither is exhausted at the winning wall time |
| `Clocks.LogicalIsBounded` | src/core/hlc.rs:108-140 | over any run the counter never exceeds the number of steps in the event's past, so runs below 2^32 steps never wrap |
| `Clocks.HappensBeforeIsOrdered` | src/core/hlc.rs:88-140 | over any multi-node run, happens-before implies a strictly smaller stamp |
| `Clocks.WallIsGreatestReading` | src/core/hlc.rs:108-140 | the wall component is the greatest clock reading or seed in the event's causal past |
| `Clocks.StampsAreDistinct` | src/core/hlc.rs:45-59 | no two events of a run share a stamp |
| `Calendar.CivilIsExact` | src/core/delta.rs:447-468 | every number of seconds gives a valid Gregorian date and time that counts back to exactly that second |
| `Calendar.CivilIsIncreasing` | src/core/delta.rs:447-468 | later seconds give dates that are later in the lexicographic order of the six fields |
| `Calendar.FitsIn64Bits` | src/core/delta.rs:447-468 | for every 64-bit input the values computed before the era split and the final year stay in range, and the subtraction does not underflow |
| `Calendar.FitsWithinEra` | src/core/delta.rs:456-465 | nor does any sum, product or difference computed within an era leave the range |

## Left out

- Ed25519, secp256k1, BLAKE3, base64 and multibase: foreign code, kept as attributes of deltas and proofs.
- Canonical JSON and serde round trips: the encoders and the parser are not part of this model.
- The alias grammar and the resolved DID document with its JWK twins: they would only add easy members.
- The size gate is modelled, the serialiser that measures the size is not.
- Transport, DHT, blob store, HTTP service, metrics and configuration: I/O.
- Liveness of gossip under message loss: repeat announces are suppressed, so only safety and the loss-free exchange are claimed.
- `check_authorisation`: not on the live merge path.
- Equal content hashes are not claimed to mean equal state: the document hash leaves out the aliases.
- The order in which pending hashes sit on a traversal stack is modelled, the hasher behind `HashMap` iteration is an arbitrary choice.
- `closure_bundle` repeats `export_bundle` and is not modelled twice.
- `ms_to_iso8601` only formats what the calendar part proves.
