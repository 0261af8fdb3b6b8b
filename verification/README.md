# PulseDAG verification

A Dafny model of the parts of PulseDAG that decide consensus and mining, with
proofs of what they are meant to guarantee.

- **GHOSTDAG colouring** (`Ghostdag*.dfy`): a recurrence over the past of a
  block, its theorems, and the oracle's loops proved to compute it. Acceptance
  is an if-and-only-if. `GhostdagVerdicts.dfy` restates the theorems on the
  returned verdicts alone.
- **Topology** (`Dag.dfy`, `Topology.dfy`, `MergeAgreement.dfy`): ancestor
  closures, relations and merge sets, and their agreement with the colouring.
- **Headers and targets** (`HeaderBytes.dfy`, `HeaderLayout.dfy`,
  `CompactTarget.dfy`, `HeaderAncestry.dfy`): canonical bytes, compact targets and work, and the
  ancestry check over a corpus of headers.
- **Accelerator scheduling** (`NoncePartition.dfy`, `Scheduler.dfy`,
  `SchedulerRuns.dfy`, `SchedulerOutcomes.dfy`, `Accelerator.dfy`): the schedule
  as values, a state machine over all runs, the exact outcome of each operation,
  and the mutable objects that refine it.
- **Conditional compilation** (`CfgLogic.dfy`, `CfgReachability.dfy`): when the
  monetary audit may treat a Rust item as dead.
- **Propagation evidence** (`OrderStatistics.dfy`, `Propagation.dfy`,
  `PropagationEvidence.dfy`, `PropagationMeaning.dfy`): quantiles of a censored
  population, down to the rows of the trace.
- **kHeavyHash** (`Keccak.dfy`, `Sponge.dfy`, `KeccakFlat.dfy`,
  `PreparedStates.dfy`, `KHeavyHash.dfy`): the OpenCL kernel refines the Python
  oracle, from the permutation up. The kernel starts both hashes from literal
  tables; these are proved to be the states the oracle reaches, by evaluating
  the permutation round by round on constants.

Block ids, node ids and hashes are strings under lexicographic order. SHA-256
and the work hash of a header are parameters that stand for any function where
only their use matters. Exceptions and error results are `Result` values.
Fixed-width integers are written out with their bounds; the colouring's
accumulators and the work sums are unbounded integers with the source's
explicit range checks. Iteration order of sets and dictionaries is left open,
so results hold for every order.

## Model

| member | source | states |
|---|---|---|
| Ghostdag.FindBest | scripts/native_v3_ghostdag_policy_candidate.py:57-59 | picks the first candidate under the key (work, score, height, label), the key being a strict total order |
| GhostdagTheorems.PaintCovers | scripts/native_v3_ghostdag_policy_candidate.py:64-90 | every block of a merge set is coloured exactly once |
| GhostdagTheorems.PaintTopological | scripts/native_v3_ghostdag_policy_candidate.py:65-75 | no block is coloured before one of its ancestors in the merge set |
| GhostdagTheorems.PaintKCluster | scripts/native_v3_ghostdag_policy_candidate.py:77-90 | colouring a merge set keeps a K-cluster a K-cluster |
| GhostdagTheorems.PaintMaximal | scripts/native_v3_ghostdag_policy_candidate.py:77-90 | the greedy colouring is maximal: adding any red block to the final blue set breaks the K-cluster |
| GhostdagTheorems.MergePartition | scripts/native_v3_ghostdag_policy_candidate.py:62-99 | blues and reds are disjoint, free of repetition, topologically ordered and together exactly the past outside the selected parent's past |
| GhostdagTheorems.BluePastInPast | scripts/native_v3_ghostdag_policy_candidate.py:98 | the blue past of a block holds the block and lies in its past |
| GhostdagTheorems.BluePastKCluster | scripts/native_v3_ghostdag_policy_candidate.py:63-98 | the blue past of every block of every admissible DAG is a K-cluster |
| GhostdagTheorems.RedsDoNotFit | scripts/native_v3_ghostdag_policy_candidate.py:77-98 | no merge red fits into the block's blue past |
| GhostdagTheorems.BluePastChain | scripts/native_v3_ghostdag_policy_candidate.py:77-98 | with K = 0 any two blocks of a blue past are related by ancestry |
| GhostdagTheorems.ScoreAndWork | scripts/native_v3_ghostdag_policy_candidate.py:91-97 | score is the size of the blue past less one, cumulative work is the sum of its work |
| GhostdagTheorems.ParentsDominated | scripts/native_v3_ghostdag_policy_candidate.py:57-61 | the selected parent has the most work, and the block is higher than every parent |
| GhostdagTheorems.WorkExceedsAncestors | scripts/native_v3_ghostdag_policy_candidate.py:92-97 | work and height strictly exceed those of every proper ancestor, blue or red |
| GhostdagTheorems.ColorExtends | scripts/native_v3_ghostdag_policy_candidate.py:32-99 | adding blocks outside a block's past never changes its verdict |
| GhostdagOracle.CheckBlocks | scripts/native_v3_ghostdag_policy_candidate.py:21-31 | passes exactly the well-formed dictionaries and names a broken rule otherwise |
| GhostdagOracle.ClusterTest | scripts/native_v3_ghostdag_policy_candidate.py:77-86 | the two counting tests together decide whether the enlarged blue set is a K-cluster |
| GhostdagOracle.StaysClusterExact | scripts/native_v3_ghostdag_policy_candidate.py:77-86 | the test on the cached pasts is the K-cluster condition of the graph |
| GhostdagOracle.ColorMerge | scripts/native_v3_ghostdag_policy_candidate.py:63-90 | the inner loop yields the recurrence's blues, reds and blue set; the topological-cycle error never occurs |
| GhostdagOracle.HighestParent | scripts/native_v3_ghostdag_policy_candidate.py:61 | the maximum of the parents' heights |
| GhostdagOracle.Anchored | scripts/native_v3_ghostdag_policy_candidate.py:52-53 | every processed block descends from genesis, so the unanchored error never occurs |
| GhostdagOracle.ColorBlock | scripts/native_v3_ghostdag_policy_candidate.py:57-99 | one ready block gets the recurrence's row |
| GhostdagOracle.ProcessBlock | scripts/native_v3_ghostdag_policy_candidate.py:42-99 | a row, or exactly the redundant-frontier or the overflow error with its cause |
| GhostdagOracle.StuckMeansCycle | scripts/native_v3_ghostdag_policy_candidate.py:40-41 | pending blocks none of which is ready contain a cycle |
| GhostdagOracle.Drain | scripts/native_v3_ghostdag_policy_candidate.py:36-99 | the outer loop ends with every row equal to the recurrence, or with an error that holds of the input |
| GhostdagOracle.SmallDagsFit | scripts/native_v3_ghostdag_policy_candidate.py:95-96 | at most 2^64 blocks can overflow neither accumulator |
| GhostdagOracle.SelectAndColor | scripts/native_v3_ghostdag_policy_candidate.py:15-103 | accepts if and only if the DAG is admissible and no accumulator overflows, and returns the recurrence's verdicts |
| GhostdagOracle.RunsAgree | scripts/native_v3_ghostdag_policy_candidate.py:100-103 | two runs over any iteration orders, one DAG extending the other, agree on every common block |
| GhostdagOracle.AdmissibleFrontier | scripts/native_v3_ghostdag_policy_candidate.py:54-56 | no immediate parent of an admissible block reaches another by a parent walk |
| GhostdagOracle.WidthsAre | scripts/native_v3_ghostdag_policy_candidate.py:11-12 | work fits 256 bits, score 64 and cumulative work 512 |
| GhostdagVerdicts.VerdictGenesis | scripts/native_v3_ghostdag_policy_candidate.py:46-51 | genesis has no selected parent, no score, no work and empty lists |
| GhostdagVerdicts.VerdictRow | scripts/native_v3_ghostdag_policy_candidate.py:57-103 | on the returned map: score and work follow from the selected parent's row and the reported blues, and blues and reds split the past outside the selected parent's past |
| GhostdagVerdicts.VerdictBlues | scripts/native_v3_ghostdag_policy_candidate.py:91-98 | the blues gathered along selected parents form a K-cluster whose size and work are the reported score and work |
| GhostdagVerdicts.VerdictReds | scripts/native_v3_ghostdag_policy_candidate.py:77-99 | a reported red lies outside that blue set, and adding it breaks the K-cluster |
| GhostdagVerdicts.HeightIsLongestWalk | scripts/native_v3_ghostdag_policy_candidate.py:61 | height is the length of the longest parent walk, which ends in genesis |
| GhostdagVerdicts.SelectedFirst | scripts/native_v3_ghostdag_policy_candidate.py:57-60 | the selected parent precedes every other parent by reported work, then score, then longest walk, then label |
| GhostdagVerdicts.PaintGreedy | scripts/native_v3_ghostdag_policy_candidate.py:65-75 | each coloured block precedes every later one that was ready when it was taken |
| GhostdagVerdicts.VerdictOrder | scripts/native_v3_ghostdag_policy_candidate.py:64-103 | the reported lists are the blues and the reds, in order, of one topological and greedy colouring of the merge set |
| Ids.LessExact | scripts/native_v3_ghostdag_policy_candidate.py:57-59 | labels compare at their first difference, a proper prefix first |
| Topology.ClosureSearch.Visit | scripts/native_v3_topology_oracle.py:37-65 | the nested search adds exactly the past of the node, restores the open set, or reports an error that holds of the closure |
| Topology.ClosureSearch.VisitAll | scripts/native_v3_topology_oracle.py:67-68 | visiting a list adds exactly the union of the pasts |
| Topology.GenesisReached | scripts/native_v3_topology_oracle.py:69-70 | a nonempty valid closure contains genesis, so the last check never fails |
| Topology.VerifiedClosure | scripts/native_v3_topology_oracle.py:25-71 | accepts if and only if every node of the closure is well formed, cycle-free and within both limits, and returns exactly the closure |
| Topology.OrderIndependent | scripts/native_v3_topology_oracle.py:25-71 | neither the closure nor acceptance depends on the order of roots or of parent lists |
| Topology.InclusivePast | scripts/native_v3_topology_oracle.py:74-83 | the stack search returns the reflexive-transitive past, on cyclic graphs too |
| Dag.PastReaches | scripts/native_v3_topology_oracle.py:74-83 | the past of a label is exactly what parent walks from it reach |
| Topology.PairRelation | scripts/native_v3_topology_oracle.py:86-97 | succeeds exactly inside the given set and returns the relation that ancestry gives, for any set and graph whose two pasts are complete |
| Topology.RelationExact | scripts/native_v3_topology_oracle.py:86-97 | relations are exclusive, and swapping the blocks mirrors them |
| Topology.RelationByWalks | scripts/native_v3_topology_oracle.py:86-97 | the relation's name says which block is reached from which by parent walks |
| Topology.AcceptableMeans | scripts/native_v3_topology_oracle.py:25-71 | at most 64 roots, 128 nodes and 2048 edges; parents are distinct and named, only genesis has none, and none leads back |
| Topology.ParentRelativeMergeSet | scripts/native_v3_topology_oracle.py:100-111 | succeeds exactly for a verified frontier and one of its roots; sorted, without repetition, and equal to closure minus selected past |
| MergeAgreement.MergeSetsAgree | scripts/native_v3_topology_oracle.py:100-111 | the topology oracle's merge set is the set the colouring splits into blues and reds, and in an admissible DAG the oracle accepts the frontier exactly within its three limits |
| MergeAgreement.FrontierAccepted | scripts/native_v3_topology_oracle.py:25-71 | for a block of an admissible DAG, the frontier is accepted if and only if parent count, size of the past and its edges keep the limits |
| HeaderBytes.EncodedSize | scripts/native_v3_header_hash_oracle.py:83-103 | the exact encoded size; at most 4704 bytes, so the 8192-byte limit is never reached |
| HeaderBytes.EncodeInjective | scripts/native_v3_header_hash_oracle.py:83-103 | equal bytes come from the same chain, mode and header, up to the nonce in nonce-free mode |
| HeaderBytes.PreimageIgnoresNonce | scripts/native_v3_header_hash_oracle.py:92-96 | the nonce-free preimage is the same for every nonce |
| HeaderBytes.ShapeMeans | scripts/native_v3_header_hash_oracle.py:63-81 | at most 64 parents, each 64 lower-case hexadecimal digits, strictly ascending |
| HeaderBytes.ChainMeans | scripts/native_v3_header_hash_oracle.py:55-62 | at most 128 visible ASCII characters |
| HeaderLayout.LEDigit | scripts/native_v3_header_hash_oracle.py:44-47 | byte i of a number is its digit of weight 256^i |
| HeaderLayout.FrontLayout | scripts/native_v3_header_hash_oracle.py:83-87 | where the domain, the chain, the version and the parent count stand, byte by byte |
| HeaderLayout.ParentsLayout | scripts/native_v3_header_hash_oracle.py:88-89 | parent i is a label 68 * i bytes into the parents |
| HeaderLayout.BackLayout | scripts/native_v3_header_hash_oracle.py:90-103 | where timestamp, difficulty, nonce, roots, score and height stand, and that nothing follows |
| HeaderBytes.CanonicalMaterial | scripts/native_v3_header_hash_oracle.py:50-103 | accepts exactly valid chains and headers and returns the encoding; the error says whether the chain or a field is invalid, and the oversize error never occurs |
| HeaderBytes.CanonicalHeader | scripts/native_v3_kheavyhash_oracle.py:168-212 | the same bytes as the other oracle, the nonce's width being checked only when it is encoded; errors as there |
| CompactTarget.CompactNormal | scripts/native_v3_compact_target_oracle.py:31-43 | compaction yields the one normal form: a mantissa in range that brackets the target |
| CompactTarget.NormalUnique | scripts/native_v3_compact_target_oracle.py:31-43 | a target has only one normal form |
| CompactTarget.RoundTripLoss | scripts/native_v3_compact_target_oracle.py:19-43 | expanding a compacted target never exceeds it and loses less than one part in 2^15 |
| CompactTarget.CompactIdempotent | scripts/native_v3_compact_target_oracle.py:19-43 | compacting the expansion of a compacted target changes nothing |
| CompactTarget.CompactMonotone | scripts/native_v3_compact_target_oracle.py:31-43 | compaction preserves the order of targets |
| CompactTarget.ValidAreImages | scripts/native_v3_compact_target_oracle.py:46-48 | valid words are exactly the compactions of targets between 1 and the limit |
| CompactTarget.ValidOrder | scripts/native_v3_compact_target_oracle.py:46-48 | valid words are ordered as numbers exactly as their targets are |
| CompactTarget.LimitWord | scripts/native_v3_compact_target_oracle.py:8-48 | the limit is the target of 0x207FFFFF, the largest valid word |
| CompactTarget.ExpandExact | scripts/native_v3_compact_target_oracle.py:19-28 | the target is the floor of mantissa * 256^(exponent - 3), cut at the largest 256-bit number; exponent zero gives that number |
| CompactTarget.CompactOutside | scripts/native_v3_compact_target_oracle.py:31-33 | anything but a positive 256-bit target compacts to zero |
| CompactTarget.WorkInRange | scripts/native_v3_work_policy_candidates.py:15-23 | work exists exactly for a known numerator and a valid word, and the range check never fails |
| CompactTarget.NumeratorsDiffer | scripts/native_v3_work_policy_candidates.py:11-23 | the two numerators differ by one exactly when target + 1 divides 2^256, and agree otherwise |
| CompactTarget.WorkOrder | scripts/native_v3_work_policy_candidates.py:20 | a harder target never carries less work |
| CompactTarget.WorkExact | scripts/native_v3_work_policy_candidates.py:15-23 | work is the largest count of target + 1 that fits into the numerator |
| CompactTarget.TotalConcat | scripts/native_v3_work_policy_candidates.py:26-34 | totals add up over one term and over two lists put together |
| CompactTarget.CheckedSum | scripts/native_v3_work_policy_candidates.py:26-34 | returns the exact sum if and only if every term and the total fit 256 bits; otherwise the error is that of the first term at which it fails |
| HeaderAncestry.AncestorClosure | scripts/native_v3_trace_header_binding.py:79-87 | the pending list drains to exactly the ancestry, or a parent is missing; also on cyclic corpora |
| HeaderAncestry.IndexHeaders | scripts/native_v3_trace_header_binding.py:48-63 | succeeds exactly when every stated id is the hash of its header and ids are distinct; an error names a fault some entry has |
| HeaderAncestry.CheckRoot | scripts/native_v3_trace_header_binding.py:64-91 | passes exactly a genesis-rooted corpus equal to the closure of the observed blocks; an error names a fault the corpus has |
| HeaderAncestry.CheckBlock | scripts/native_v3_trace_header_binding.py:96-112 | passes exactly when the parents are known and earlier, the height is one above the highest parent, the target is valid and the work hash exists and meets it; an error names a fault the block has |
| HeaderAncestry.CheckAll | scripts/native_v3_trace_header_binding.py:92-112 | passes exactly when every non-genesis block does; an error names a fault some block has |
| HeaderAncestry.VerifyAncestry | scripts/native_v3_trace_header_binding.py:30-128 | accepts if and only if all of the above hold, counts headers, checked blocks and history exactly, and otherwise names a fault that holds |
| HeaderAncestry.AcceptedIsCausal | scripts/native_v3_trace_header_binding.py:88-105 | an accepted corpus is causal and is the ancestor closure of the observed blocks |
| HeaderAncestry.OnlyGenesisParentless | scripts/native_v3_trace_header_binding.py:64-97 | genesis is the only header without parents |
| HeaderAncestry.CorpusAcyclic | scripts/native_v3_trace_header_binding.py:96-105 | no accepted corpus has a cycle |
| HeaderAncestry.HeightIsLongestWalk | scripts/native_v3_trace_header_binding.py:96-105 | a height is the length of the longest parent walk, and that walk ends in genesis |
| HeaderAncestry.WalkGoesBack | scripts/native_v3_trace_header_binding.py:98-103 | timestamps strictly fall along every parent walk |
| HeaderAncestry.WorkBoundary | scripts/native_v3_trace_header_binding.py:106-111 | a work hash equal to the target passes, the next larger one does not |
| HeaderAncestry.AcceptedMeans | scripts/native_v3_trace_header_binding.py:60-112 | identity comes from the full bytes, work from the nonce-free bytes; genesis is fixed and unobserved; at most 256 headers |
| NoncePartition.NonceUnique | apps/pulsedag-miner/src/protocol_backend.rs:121-144 | a nonce belongs to one lane and one iteration |
| NoncePartition.NonceCovered | apps/pulsedag-miner/src/protocol_backend.rs:121-144 | every nonce is enumerated by the lane of its residue |
| NoncePartition.LiveLaneYields | apps/pulsedag-miner/src/protocol_backend.rs:121-144 | an unexhausted lane always yields its nonce without overflow |
| NoncePartition.ExhaustedReport | apps/pulsedag-miner/src/protocol_backend.rs:121-144 | past its last nonce a lane reports exhaustion if and only if the next nonce fits 64 bits, and an overflow error otherwise |
| NoncePartition.ExhaustionCanFail | apps/pulsedag-miner/src/protocol_backend.rs:121-144 | two buildable lanes of a 2^64 - 1 search: one ends cleanly, the other in an overflow error |
| NoncePartition.LanePartitionOk | apps/pulsedag-miner/src/protocol_backend.rs:146-177 | every active lane gets a partition of the normalized range |
| NoncePartition.LaneCountExact | apps/pulsedag-miner/src/protocol_backend.rs:146-156 | as many lanes as asked for, at least one, at most one per try |
| NoncePartition.PartitionRefusals | apps/pulsedag-miner/src/protocol_backend.rs:83-104 | which partitions are refused, and how |
| NoncePartition.InactiveRefused | apps/pulsedag-miner/src/protocol_backend.rs:158-177 | exactly the lanes beyond the active ones are refused |
| Scheduler.SortedUnique | apps/pulsedag-miner/src/accelerator_scheduler.rs:78-79 | a list of devices has one sorted arrangement |
| Scheduler.BuildOrderIndependent | apps/pulsedag-miner/src/accelerator_scheduler.rs:68-127 | the schedule does not depend on discovery order |
| Scheduler.BuildKeeps | apps/pulsedag-miner/src/accelerator_scheduler.rs:68-127 | a built schedule is well formed and canonical, keeps health and generation, and has one untouched lane per available device in order, capped by the tries |
| Scheduler.DispatchKeeps | apps/pulsedag-miner/src/accelerator_scheduler.rs:157-191 | dispatching keeps well-formedness, whatever the lane |
| Scheduler.DispatchExhausted | apps/pulsedag-miner/src/accelerator_scheduler.rs:157-191 | an idle lane past its last nonce reports the end if and only if its next nonce fits 64 bits; otherwise dispatching fails; nothing changes either way |
| Scheduler.CompleteExact | apps/pulsedag-miner/src/accelerator_scheduler.rs:193-217 | a completion is accepted if and only if it is the ticket in flight; the iteration overflow error never occurs |
| Scheduler.CompleteKeeps | apps/pulsedag-miner/src/accelerator_scheduler.rs:193-217 | completing keeps well-formedness |
| Scheduler.RehomeLane | apps/pulsedag-miner/src/accelerator_scheduler.rs:219-272 | only the failed device's lanes change, and only their owner and their ticket |
| Scheduler.RedistributeKeeps | apps/pulsedag-miner/src/accelerator_scheduler.rs:219-272 | redistribution keeps well-formedness, the lanes' number and the generation |
| Scheduler.RecoverKeeps | apps/pulsedag-miner/src/accelerator_scheduler.rs:274-291 | recovery keeps well-formedness |
| Scheduler.RefreshExact | apps/pulsedag-miner/src/accelerator_scheduler.rs:293-304 | refresh fails only at the last generation; otherwise every lane is rebuilt untouched, epoch included, over the available devices of the same inventory |
| SchedulerRuns.NextInv | apps/pulsedag-miner/src/accelerator_reconnect.rs:36-73 | every dispatch, completion and control transition keeps the invariant tying schedule to history |
| SchedulerRuns.RunInv | apps/pulsedag-miner/src/accelerator_reconnect.rs:20-73 | every run keeps it |
| SchedulerRuns.RunProgress | apps/pulsedag-miner/src/accelerator_scheduler.rs:193-272 | after any run the accepted nonces of a lane are its first nonces in order, and its owner is an available device |
| SchedulerRuns.ExactCoverage | apps/pulsedag-miner/src/accelerator_scheduler.rs:106-217 | in every run no nonce is accepted twice in a generation, none is out of range, and an exhausted schedule has accepted every nonce of the range |
| SchedulerRuns.DeadForever | apps/pulsedag-miner/src/accelerator_scheduler.rs:193-217 | once a ticket is dead no later state of any run accepts it |
| SchedulerRuns.IssuedInFlightOrDead | apps/pulsedag-miner/src/accelerator_scheduler.rs:157-217 | every issued ticket is in flight or dead |
| SchedulerRuns.TicketsDie | apps/pulsedag-miner/src/accelerator_reconnect.rs:47-73 | a ticket dies by completion, by failure of its owner, by job refresh and by reconnect |
| SchedulerRuns.NeverIssuedTwice | apps/pulsedag-miner/src/accelerator_scheduler.rs:157-191 | no (generation, lane, epoch) is issued twice in a run |
| SchedulerRuns.ReplaysInterrupted | apps/pulsedag-miner/src/accelerator_scheduler.rs:219-272 | after a failure the interrupted nonce is dispatched again, to another device and under the next epoch |
| SchedulerRuns.RehomeBalanced | apps/pulsedag-miner/src/accelerator_scheduler.rs:258-269 | redistribution keeps the survivors' loads within any gap of at least one |
| SchedulerRuns.BuildBalanced | apps/pulsedag-miner/src/accelerator_scheduler.rs:106-127 | a fresh schedule is balanced within one |
| SchedulerRuns.StartRunInBalance | apps/pulsedag-miner/src/accelerator_reconnect.rs:20-73 | in every run from a fresh controller loads are within one of each other unless a recovery has taken effect in the current generation |
| SchedulerRuns.RestartInBalance | apps/pulsedag-miner/src/accelerator_reconnect.rs:47-73 | after any run, a job refresh or reconnect that takes effect balances the loads, and they stay within one of each other until a recovery |
| SchedulerRuns.RecoveryBalance | apps/pulsedag-miner/src/accelerator_scheduler.rs:274-291 | a recovery leaves the loads balanced if and only if no available device owns two lanes, in every well-formed schedule |
| SchedulerRuns.UnavailableOwnsNothing | apps/pulsedag-miner/src/accelerator_scheduler.rs:219-291 | an unavailable device owns no lane |
| SchedulerOutcomes.DispatchExact | apps/pulsedag-miner/src/accelerator_scheduler.rs:157-191 | a ticket is issued if and only if the lane exists, is idle, has nonces and epochs left; every refusal has its exact cause |
| SchedulerOutcomes.DispatchChanges | apps/pulsedag-miner/src/accelerator_scheduler.rs:157-191 | an issued ticket changes its lane's epoch and ticket and nothing else; otherwise nothing changes |
| SchedulerOutcomes.CompleteRefusals | apps/pulsedag-miner/src/accelerator_scheduler.rs:193-217 | which completions are refused, and how |
| SchedulerOutcomes.CompleteChanges | apps/pulsedag-miner/src/accelerator_scheduler.rs:193-217 | a completion frees its lane, moves it one iteration on and changes nothing else |
| SchedulerOutcomes.BuildRefusals | apps/pulsedag-miner/src/accelerator_scheduler.rs:68-104 | which inventories are refused, and how |
| SchedulerOutcomes.BuildOwners | apps/pulsedag-miner/src/accelerator_scheduler.rs:96-118 | lanes go to the first available devices, in device order |
| SchedulerOutcomes.DevicesInOrder | apps/pulsedag-miner/src/accelerator_scheduler.rs:78-79 | CUDA devices come before OpenCL ones, each by ascending index |
| SchedulerOutcomes.RedistributeExact | apps/pulsedag-miner/src/accelerator_scheduler.rs:219-245 | which failures are refused, and which devices are available afterwards |
| SchedulerOutcomes.FirstMoved | apps/pulsedag-miner/src/accelerator_scheduler.rs:258-269 | the first lane of a failed device goes to the survivor with the fewest lanes, the earliest listed of those |
| SchedulerOutcomes.RecoverExact | apps/pulsedag-miner/src/accelerator_scheduler.rs:274-291 | which recoveries are refused; otherwise one device becomes available and nothing else changes |
| SchedulerOutcomes.ApplyExact | apps/pulsedag-miner/src/accelerator_reconnect.rs:47-73 | the epoch grows by one at a reconnect and at nothing else |
| SchedulerOutcomes.TicketsSurvive | apps/pulsedag-miner/src/accelerator_reconnect.rs:36-73 | a ticket in flight is still in flight after a step if and only if the step is none of its completion, its owner's failure, a refresh or a reconnect that took effect |
| SchedulerRuns.RecoveryUnbalances | apps/pulsedag-miner/src/accelerator_scheduler.rs:274-291 | a run from a fresh controller over two devices, one failure and one recovery, that ends with loads two and none |
| Accelerator.LeastCount | apps/pulsedag-miner/src/accelerator_scheduler.rs:259-263 | the device with the fewest lanes, ties broken by device order |
| Accelerator.CountLanes | apps/pulsedag-miner/src/accelerator_scheduler.rs:247-256 | counts the lanes each healthy device owns |
| Accelerator.ReassignLanes | apps/pulsedag-miner/src/accelerator_scheduler.rs:258-269 | the loop moves the failed lanes as the specification does |
| Accelerator.AcceleratorSchedule.BuildWithHealth | apps/pulsedag-miner/src/accelerator_scheduler.rs:68-127 | the object built is the specified schedule, or the specified error |
| Accelerator.AcceleratorSchedule.DispatchLane | apps/pulsedag-miner/src/accelerator_scheduler.rs:157-191 | updates the lanes in place exactly as specified and returns the specified ticket, none or error |
| Accelerator.AcceleratorSchedule.CompleteLane | apps/pulsedag-miner/src/accelerator_scheduler.rs:193-217 | updates the lanes in place exactly as specified, and leaves them alone on error |
| Accelerator.AcceleratorSchedule.RedistributeFailedDevice | apps/pulsedag-miner/src/accelerator_scheduler.rs:219-272 | returns the specified new schedule and leaves the old one alone |
| Accelerator.AcceleratorSchedule.RecoverDevice | apps/pulsedag-miner/src/accelerator_scheduler.rs:274-291 | returns the specified new schedule and leaves the old one alone |
| Accelerator.AcceleratorSchedule.RefreshJob | apps/pulsedag-miner/src/accelerator_scheduler.rs:293-304 | returns the specified new schedule and leaves the old one alone |
| Accelerator.ReconnectController.BuildController | apps/pulsedag-miner/src/accelerator_reconnect.rs:21-26 | a built controller is a start state of the runs above |
| Accelerator.ReconnectController.DispatchLane | apps/pulsedag-miner/src/accelerator_reconnect.rs:36-41 | is one dispatch step of a run |
| Accelerator.ReconnectController.CompleteLane | apps/pulsedag-miner/src/accelerator_reconnect.rs:43-45 | is one completion step of a run, accepted exactly when the schedule accepts |
| Accelerator.ReconnectController.ApplyControl | apps/pulsedag-miner/src/accelerator_reconnect.rs:47-73 | is one control step of a run; the old controller is unchanged |
| CfgLogic.Eval3Sound | scripts/v3_monetary_reachability.py:613-721 | a decided three-valued result is the value in every build |
| CfgLogic.Eval3Exact | scripts/v3_monetary_reachability.py:613-721 | the evaluator decides exactly when only one value is possible with its atoms free at each occurrence |
| CfgLogic.SignatureMeaning | scripts/v3_monetary_reachability.py:808-824 | a literal's key and sign mean the predicate |
| CfgLogic.SignatureExact | scripts/v3_monetary_reachability.py:808-824 | a literal is an atom under any number of negations, positive when they are even |
| CfgLogic.LiteralsAgree | scripts/v3_monetary_reachability.py:827-845 | every build satisfying a conjunction agrees with its collected literals |
| CfgLogic.LiteralsExact | scripts/v3_monetary_reachability.py:827-845 | the collected literals are exactly those of the conjuncts |
| CfgLogic.ContradictoryExact | scripts/v3_monetary_reachability.py:848-850 | contradictory exactly when some key occurs with both signs among the conjuncts |
| CfgLogic.CollectLiterals | scripts/v3_monetary_reachability.py:827-845 | the loop over the conjuncts collects exactly those literals |
| CfgLogic.EvaluateSound | scripts/v3_monetary_reachability.py:724-730 | the evaluator with the contradiction test decides nothing that some build contradicts |
| CfgLogic.AtomsDecide | scripts/v3_monetary_reachability.py:923-957 | only the atoms of a predicate decide its value |
| CfgLogic.AtomsExact | scripts/v3_monetary_reachability.py:923-940 | the atoms are exactly the opaque parts other than `test` |
| CfgReachability.CombineMeaning | scripts/v3_monetary_reachability.py:853-858 | the combined condition is the conjunction |
| CfgReachability.FlattenMeaning | scripts/v3_monetary_reachability.py:861-890 | flattening nested cfg_attr metadata keeps its meaning in every build |
| CfgReachability.CollectMetaRules | scripts/v3_monetary_reachability.py:861-890 | the loop over nested metadata collects exactly the specified rules |
| CfgReachability.AttributeMeaning | scripts/v3_monetary_reachability.py:893-920 | the constraints of an attribute hold exactly in the builds that keep the item |
| CfgReachability.ChainMeaning | scripts/v3_monetary_reachability.py:999-1014 | the constraints of a chain of attributes hold exactly in the builds that keep the item |
| CfgReachability.MaskCovers | scripts/v3_monetary_reachability.py:974-978 | every choice of enabled atoms is tried by some mask |
| CfgReachability.FormulaSatisfiable | scripts/v3_monetary_reachability.py:960-981 | up to sixteen atoms true if and only if satisfiable; beyond sixteen always true |
| CfgReachability.UnreachableIsUnsat | scripts/v3_monetary_reachability.py:984-996 | an item is dead exactly when its formulas are jointly unsatisfiable |
| CfgReachability.ConstraintsProveFalse | scripts/v3_monetary_reachability.py:984-996 | never wrong when it answers true, and complete up to sixteen atoms |
| CfgReachability.AttributesContradict | scripts/v3_monetary_reachability.py:1017-1019 | an item removed as contradictory is live in no build; up to sixteen atoms the converse holds, beyond that exactly the items with a formula decided false are removed |
| OrderStatistics.KthLe | scripts/native_v3_propagation_evidence.py:110-114 | the k-th smallest sample is at most x exactly when more than k samples are |
| OrderStatistics.RankInRange | scripts/native_v3_propagation_evidence.py:110-114 | the quantile rank is a valid position |
| OrderStatistics.RankExact | scripts/native_v3_propagation_evidence.py:255 | the rank is the least number of samples that makes up the share |
| OrderStatistics.QuantileExact | scripts/native_v3_propagation_evidence.py:110-114 | samples up to the quantile make up the share, those below it do not |
| OrderStatistics.QuantileUnique | scripts/native_v3_propagation_evidence.py:110-114 | that property determines the quantile |
| OrderStatistics.BoundsSound | scripts/native_v3_propagation_evidence.py:252-266 | whatever the missing samples are, the full statistic lies within the reported bounds |
| OrderStatistics.LowerTight | scripts/native_v3_propagation_evidence.py:252-266 | the lower bound is attained |
| OrderStatistics.UpperTight | scripts/native_v3_propagation_evidence.py:252-266 | a finite upper bound is attained |
| OrderStatistics.UnboundedTight | scripts/native_v3_propagation_evidence.py:252-266 | without a finite upper bound every value is reached or exceeded |
| OrderStatistics.KthByKey | scripts/native_v3_propagation_evidence.py:110-114 | order statistics do not depend on the order in which samples are listed |
| Propagation.IndexNodes | scripts/native_v3_propagation_evidence.py:147-177 | accepts exactly the well-formed node lists and indexes them; an error names a fault the list has |
| Propagation.IndexRows | scripts/native_v3_propagation_evidence.py:178-200 | accepts exactly the well-formed rows without repeated events or repeated mining, and indexes them; an error names a fault the rows have |
| PropagationEvidence.CheckCoverage | scripts/native_v3_propagation_evidence.py:201-210 | passes exactly traces with enough blocks, miners and span and an origin event per block; an error names what is missing |
| PropagationEvidence.MeasurePair | scripts/native_v3_propagation_evidence.py:223-237 | a pair is missing, rejected as predating mining beyond its slack, or measured |
| PropagationEvidence.MeasureAll | scripts/native_v3_propagation_evidence.py:215-240 | visits every block and receiver pair once; observed and missing add up to blocks times receivers, so the accounting check never fails |
| PropagationEvidence.IntervalOk | scripts/native_v3_propagation_evidence.py:264-266 | the lower bound never exceeds the upper, so that check never fails |
| PropagationEvidence.RanksAgree | scripts/native_v3_propagation_evidence.py:272-277 | both p99.9 bounds are finite or neither is, so that check never fails |
| PropagationEvidence.BuildReport | scripts/native_v3_propagation_evidence.py:241-277 | reads the specified quantiles and bounds off the sorted samples |
| PropagationEvidence.Analyze | scripts/native_v3_propagation_evidence.py:117-307 | accepts if and only if the trace is readable, sufficient and reliable, and otherwise names a fault that holds; the internal errors never occur |
| PropagationEvidence.CensoredBoundsHold | scripts/native_v3_propagation_evidence.py:252-266 | for every assignment of delays to missing pairs, the population's quantile lies within the reported bounds |
| PropagationEvidence.BoundsAttained | scripts/native_v3_propagation_evidence.py:252-266 | both bounds are attained by some assignment, and no upper bound is reported exactly where none exists |
| PropagationEvidence.ClockBoundHolds | scripts/native_v3_propagation_evidence.py:267-277 | true delays within the clock slack never exceed the clock-adjusted p99.9 bound |
| PropagationEvidence.ClockBoundAttained | scripts/native_v3_propagation_evidence.py:267-277 | the clock-adjusted bound is attained by delays within the slack, and without one every value can be exceeded |
| PropagationEvidence.LatestWithinSlack | scripts/native_v3_propagation_evidence.py:229-237 | the delays that attain it are within the slack of the observations |
| PropagationEvidence.ClockBoundDominates | scripts/native_v3_propagation_evidence.py:267-277 | the clock-adjusted bound is never below the plain one, and finite together with it |
| PropagationMeaning.AcceptsMeans | scripts/native_v3_propagation_evidence.py:147-210 | an accepted trace keeps every written-out limit; mined rows come from miners, blocks are mined once, seen once per node, and have an origin |
| PropagationMeaning.EnoughExact | scripts/native_v3_propagation_evidence.py:201-206 | sufficient exactly with 120 mined blocks, 16 mining nodes and two mined rows a minute apart |
| PropagationMeaning.DelayExact | scripts/native_v3_propagation_evidence.py:229-231 | delay and slack of a reception in terms of the two rows and the two nodes |
| PropagationMeaning.ReliableExact | scripts/native_v3_propagation_evidence.py:232-233 | reliable exactly when the latest reception time is not before the earliest mining time |
| PropagationMeaning.CountsExact | scripts/native_v3_propagation_evidence.py:219-240 | received, missing and early receptions are counted over the pairs |
| PropagationMeaning.ObservedExact | scripts/native_v3_propagation_evidence.py:241-245 | each observed statistic is the quantile of the received delays, negative ones counted as zero |
| PropagationMeaning.BoundsExact | scripts/native_v3_propagation_evidence.py:252-266 | whatever the missing delays are, the quantile over all pairs lies within the reported bounds |
| PropagationMeaning.ClockExact | scripts/native_v3_propagation_evidence.py:267-277 | true delays within the slack have their p99.9 over all pairs at most the clock-aware bound |
| Keccak.LanesAreTheWalk | apps/pulsedag-miner/opencl/kheavyhash_shared.h:96-99 | the kernel's lane order is the walk of section 3.2.2 of FIPS 202 |
| Keccak.OffsetsAreTriangular | apps/pulsedag-miner/opencl/kheavyhash_shared.h:92-95 | the kernel's rotations are (t+1)(t+2)/2 modulo 64, as section 3.2.2 of FIPS 202 defines them |
| Keccak.CoordinatesAre | apps/pulsedag-miner/opencl/kheavyhash_shared.h:103-131 | the positions used for rows, columns and their neighbours are the quotients and remainders by five |
| Keccak.ThetaInPlace | apps/pulsedag-miner/opencl/kheavyhash_shared.h:103-113 | the in-place columns give theta of section 3.2.1 of FIPS 202 |
| Keccak.RhoPiInPlace | apps/pulsedag-miner/opencl/kheavyhash_shared.h:115-121 | carrying one lane around the walk gives rho and pi, with the oracle's table of rotations |
| Keccak.ChiInPlace | apps/pulsedag-miner/opencl/kheavyhash_shared.h:123-131 | row by row from a copy gives chi of section 3.2.4 of FIPS 202 |
| Keccak.KernelKeccak | apps/pulsedag-miner/opencl/kheavyhash_shared.h:77-134 | the in-place kernel is Keccak-f[1600] on every state |
| Keccak.MoveLanes | scripts/native_v3_kheavyhash_oracle.py:52-55 | scattering rotated lanes to a second array gives rho and pi |
| Keccak.OracleKeccak | scripts/native_v3_kheavyhash_oracle.py:45-60 | the oracle's permutation is Keccak-f[1600] on every state, hence equal to the kernel's |
| Sponge.LoadStore | scripts/native_v3_kheavyhash_oracle.py:70-75 | a lane's little-endian bytes absorb back to the lane |
| Sponge.AbsorbLane | scripts/native_v3_kheavyhash_oracle.py:69-70 | absorbing byte by byte changes each lane by the xor of its own placed bytes |
| Sponge.PaddingApart | scripts/native_v3_kheavyhash_oracle.py:65-70 | a padded block of whole lanes is the padding alone with the message's lanes xored in |
| Sponge.SpongeBytes | scripts/native_v3_kheavyhash_oracle.py:63-78 | the loops absorb every block and squeeze every requested length |
| Sponge.PadInjective | scripts/native_v3_kheavyhash_oracle.py:65-67 | padding loses neither the message nor the domain suffix |
| Sponge.LeftEncodeFree | scripts/native_v3_kheavyhash_oracle.py:81-83 | a left-encoded number can be read off the front of any string |
| Sponge.ByteCountExact | scripts/native_v3_kheavyhash_oracle.py:81-83 | the fewest bytes that hold the number, at least one |
| Sponge.BigEndianDigit | scripts/native_v3_kheavyhash_oracle.py:81-83 | byte i of n is the digit of weight 256^(n - 1 - i) |
| Sponge.SqueezeByte | scripts/native_v3_kheavyhash_oracle.py:72-78 | output byte i is a byte of the state after one permutation for every full rate before it |
| Sponge.CShakeUnnamed | scripts/native_v3_kheavyhash_oracle.py:87-88 | without a name the function is the sponge with suffix 0x1F |
| Sponge.CShake256 | scripts/native_v3_kheavyhash_oracle.py:86-92 | computes cSHAKE256 of section 3 of NIST SP 800-185, with and without a name |
| Sponge.CShakeSeparates | scripts/native_v3_kheavyhash_oracle.py:86-92 | equal sponge inputs come from the same message and the same name |
| Sponge.CShakeFromStart | scripts/native_v3_kheavyhash_oracle.py:86-92 | cSHAKE256 of a short message of whole lanes is one permutation of a state prepared from the name and the length |
| KHeavyHash.DotBound | apps/pulsedag-miner/opencl/kheavyhash_shared.h:187-194 | a product of n nibble pairs is at most 225 n |
| KHeavyHash.SumFits | apps/pulsedag-miner/opencl/kheavyhash_shared.h:187-195 | 64 nibble products sum to at most 14400, so neither 16 bits nor the oracle's mask loses anything |
| KHeavyHash.ProductsAgree | scripts/native_v3_kheavyhash_oracle.py:153-157 | the kernel's 16-bit matrix product is the oracle's for every nibble matrix and hash |
| KHeavyHash.LoadIsXor | apps/pulsedag-miner/opencl/kheavyhash_shared.h:49-69 | loading eight bytes with or equals absorbing them with xor |
| KeccakFlat.RoundFact | apps/pulsedag-miner/opencl/kheavyhash_shared.h:102-133 | a round computed word by word on constants is a round of the permutation, for all states |
| PreparedStates.PaddedLane | scripts/native_v3_kheavyhash_oracle.py:65-70 | the padding of n bytes touches only the suffix lane and the last lane of the rate |
| PreparedStates.PowTableIs | apps/pulsedag-miner/opencl/kheavyhash_shared.h:141-155 | the 25 literal words of the nonce hash are the state after absorbing the name ProofOfWorkHash, with the padding of 80 bytes in |
| PreparedStates.HeavyTableIs | apps/pulsedag-miner/opencl/kheavyhash_shared.h:199-213 | the 25 literal words of the final hash are the state after absorbing the name HeavyHash, with the padding of 32 bytes in |
| KHeavyHash.PowHashRefines | apps/pulsedag-miner/opencl/kheavyhash_shared.h:136-170 | one permutation of the literal table, four header lanes and the nonce is cSHAKE256 of the oracle's 80-byte message, for every header hash and nonce |
| KHeavyHash.PowHashWithNonce | apps/pulsedag-miner/opencl/kheavyhash_shared.h:136-170 | the kernel's code writes the oracle's nonce hash |
| KHeavyHash.RowSums | apps/pulsedag-miner/opencl/kheavyhash_shared.h:185-194 | the two 16-bit sums are the exact sums modulo 2^16, for every matrix |
| KHeavyHash.HeavyHashRefines | scripts/native_v3_kheavyhash_oracle.py:153-158 | one permutation of the literal table and the kernel's product is cSHAKE256 of the oracle's product |
| KHeavyHash.HeavyHash | apps/pulsedag-miner/opencl/kheavyhash_shared.h:172-225 | the kernel's code writes the hash of its matrix product, for every matrix of 16-bit entries |
| KHeavyHash.KernelRefinesOracle | scripts/native_v3_kheavyhash_oracle.py:150-158 | kernel and oracle agree on every header hash, nibble matrix and nonce |
| KHeavyHash.KHeavyHashKernel | apps/pulsedag-miner/opencl/kheavyhash_shared.h:227-236 | the kernel's code writes the oracle's final hash for every header hash, nibble matrix and nonce |
| KHeavyHash.OracleStages | scripts/native_v3_kheavyhash_oracle.py:150-158 | the oracle's code yields the specified nonce hash, masked product and final hash |
| KHeavyHash.NibblesAre | apps/pulsedag-miner/opencl/kheavyhash_shared.h:178-181 | nibbles 2 * i and 2 * i + 1 are the quotient and the remainder of byte i by sixteen |
| KHeavyHash.DotUnit | scripts/native_v3_kheavyhash_oracle.py:154 | a vector with one nonzero entry picks out one entry of the row |
| KHeavyHash.DotAdds | scripts/native_v3_kheavyhash_oracle.py:154 | row products are additive in the vector |
| KHeavyHash.ProductNibbles | scripts/native_v3_kheavyhash_oracle.py:153-157 | nibble j of the product, with the initial hash xored away, is bits ten to thirteen of row j times the nibbles |
| KHeavyHash.MessageLayout | scripts/native_v3_kheavyhash_oracle.py:150-151 | the header hash, forty zero bytes, then the nonce, least significant byte first |

## Left out

- HeaderAncestry.VerifyAncestry: a corpus with several faults gets one that holds, not provably the first the source meets; the same is true of the checks it is made of.
- PropagationEvidence.Analyze: a trace with several faults gets one that holds, not provably the first the source meets; the same is true of the checks it is made of.
- HeaderBytes.CanonicalMaterial: the messages about single fields are one error.
- HeaderBytes.CanonicalHeader: the messages about single fields are one error.
- The work hash inside the ancestry check is any function that may yield nothing; that the source's yields nothing exactly when matrix generation passes its retry ceiling is not modelled.
- CfgReachability.FormulaSatisfiable: beyond sixteen atoms the source answers "satisfiable" without looking, and so does the contract.
- Matrix generation: the xoshiro256++ generator, the floating-point rank and the retry ceiling; the hash theorems hold for every nibble matrix instead.
- SHA-256 and hexadecimal text: digests are opaque functions.
- Keccak256 of the header preimage is the sponge with suffix 0x01, covered by Sponge.SpongeBytes; the hexadecimal stage dictionary is not modelled.
- Python type checks (`type(x) is int`, key sets of header dictionaries) hold by typing.
- Rust text: lexing, comments, raw strings, brace matching and the reading of `cfg` arguments from text, including empty arguments, trailing commas and several arguments to one `cfg`.
- The rest of the monetary audit: call-site scans, alias tracking and callback shapes.
- JSON parsing, manifest pins, byte and row budgets, and command-line handling.
- The eight dictionaries of the colouring loop are one map of pasts and one table of records.
- The order of keys in returned dictionaries.
- Telemetry, CUDA and OpenCL launch code, miner networking, node scripts and the K-delay sensitivity study.
- Fixture files, self-tests and exhaustive small-graph enumerations.
