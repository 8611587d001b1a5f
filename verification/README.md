# Verified model of the agent runtime and its adversary

This project models, in Dafny 4.11, the two halves of the repository and the theorems that tie them
together.

**The engine** (`crates/agent-runtime`, `crates/noise-core`) is a discrete-event simulation: a heap
of wake times, one wake of one agent at a time, records appended to a ledger, an optional funding
post-pass, and a durable runner that journals records and publishes checkpoints. `Engine.dfy` and
`EventLoop.dfy` say what a wake and a run compute, as functions of a draw stream; `WakeRecords.dfy`
says which records a whole wake leaves and where each of them was drawn, `Fleets.dfy` the same of the
setup, `Relayers.dfy` of the funders, and `Rates.dfy` how often agents wake; `Termination.dfy`
says exactly when a run ends and when a wake stops the program before; `Runtime.dfy` is the mutable
run state with its loops, proved equal to those functions. A funded run is proved to be the unfunded
one with a suffix (`FundedRuns.dfy`). `Durable.dfy` and `Resume.dfy` are the crash model: every primitive file operation may be the last one before the process is killed and may
have taken effect in part, and a power failure may undo what was not synced. The main results are that
every launch of any sequence in one directory, resuming or afresh, returns the ledger of `simulate`
unless it is cut off, that the committed bytes of the journal are exactly a prefix of that ledger at
every kill point, that resuming never moves a checkpoint back, and that any number of interruptions
costs at most one checkpoint interval each. A directory is `guarded` while what would survive a power
failure is known to suffice; launches that sync, and start afresh only over checkpoints that commit
nothing, keep it so, and every finished synced run restores it.

**The adversary** (`crates/adversary`) clusters accounts and is scored. `Rules.dfy` states what each
rule links over whole ledgers, without any index or search order; the passes in `RecordPasses.dfy`,
`PairRules.dfy`, `GroupPasses.dfy` and the union-find are the original's loops, proved to connect
exactly that. `Metric.dfy`, `Auc.dfy` and `CrossValidation.dfy` prove the fast scoring forms equal to
direct enumeration.

**The bridge.** Every wake is a chain of single-record emissions (`Emissions.dfy`), so invariants are
proved once for one emission and lifted to whole runs (`RunInvariants.dfy`, `Rotations.dfy`). From
them follow the known leaks (`Leaks.dfy`): every naive run is fully recovered by the fee-payer rule,
every run funded from owned wallets by the funder graph. And the residual (`Residual.dfy`): in a
hardened, rotating, unfunded run the rules connect owned accounts exactly through four kinds of links,
under every setting: rotations whose successor first signs within the activation window; rotations
whose two sides meet often enough in destination-local episodes; rotations whose successor passes on,
soon and nearly whole, what it received; and united windows. Operators are never linked unless peel
chains are followed over at least one second or whole windows are united. Two concrete runs
(`PeelLeak.dfy`, `CeilingLeak.dfy`) show that either exception does link operators, which makes the
condition exact (`Separation.dfy`); and with windows not united, a run's operators are linked iff
successors of two of them pass value on to one external (`Sharing.dfy`).

Assumptions are hypotheses of the theorems, never axioms: the identifiers drawn in the run are
pairwise distinct (`DistinctRun`), dedicated funding wallets differ from each other and from them
(`DistinctWallets`), the digest has no collisions (`Injective`), and the run completes (`Accepted`,
whose exact condition on the inputs alone is `Simulation.AlwaysAcceptedIff`).
Random choices are an arbitrary draw stream with the bounds the code enforces; the generator state is
the position in it. Account identifiers are their 32 bytes read as a number.

Where the code and what is said of it differ, the model follows the code:

- A hardened run does link different operators under two settings: the peel-chain rule with a window of
  at least one second, which is the default, because two chains of successors may end in one shared
  external; and the union-ceiling ablation over windows of at least one second and bursts of at least
  two sources. `Separation.NeverCrossesIff` shows that these are exactly the settings, with a concrete
  two-agent run for each; `Sharing.HiddenCrossesIff` says in which runs the first one does.
- A run whose end is the largest 64-bit time never ends, because the wake time saturates, unless there
  are no agents. `Termination.RunEndsIff` states this as an equivalence, `Termination.ForeverNeverEnds`
  gives such a configuration.
- A hub sweep clamps to an empty range, and so stops the program, when at most zero sources may be
  swept from an agent with two accounts or more. `Termination.ProceedsIff` states which inputs some draw
  stream stops; runs without hardening, with rotation, or with single accounts are not among them.
- The peel-chain search slices out of order, and so stops, iff a record spends from what another pays
  into, before it and yet after the end of a negative window (`RecordPasses.SliceOrderedIff`). That
  happens on some ledger iff the window is below minus one second (`Rules.SearchableIff`), and on no
  ledger of a hardened rotating run.
- The tolerated share of an amount is cut to 64 bits, so that a tolerance above the whole amount may wrap
  around for the largest amounts. `Rules.ToleratedIff` states the test where it does not,
  `Rules.ToleranceIs` where it does.
- Behind the default gate, which asks for six operators, a training set is empty exactly for a pair
  across both of two folds (`CrossValidation.SixOperatorsTrainIff`). When fewer operators are allowed,
  three folds can leave one empty too, so that a pair keeps score zero
  (`CrossValidation.ThreeFoldsMayNotTrain`); four never do.
- In the funding post-pass taken by itself, a fee-payer counts as funded before its record's label is
  looked at, so that an unlabelled first use, or one whose funder is the fee-payer itself, leaves it
  unfunded for good (`Funding.Triggers`; `Funding.UnlabelledFirstUseUnfunded` is an instance). Runs
  label every record (`RunInvariants.FinishSigned`), so the first case arises only on other ledgers.
- Fsync alone does not make a forced fresh start safe against power failure, because removing the old
  checkpoint is not synced: it may come back without its journal. `Resume.FreshStartSafeIff` shows that
  it is safe iff the checkpoint to be removed commits no bytes, `Resume.RestartAfterFinish` that it is
  not after any finished run that recorded something. Such a start is modelled as leaving the directory
  unguarded until the next synced checkpoint.
- A checkpoint that cannot be removed is kept without notice, and the journal is emptied under it.
  `Resume.UnremovedSafeIff` shows that this is safe iff that checkpoint commits no bytes; in a
  `stubborn` directory, where it may happen, `Resume.Session` asks for a look at the checkpoint first.

## Model

| member | source | states |
|---|---|---|
| `UnionFinds.UnionFind.constructor` | crates/adversary/src/heuristics.rs:19-27 | every account starts as its own component |
| `UnionFinds.UnionFind.Ensure` | crates/adversary/src/heuristics.rs:29-32 | an unknown account joins as its own component, nothing else changes |
| `UnionFinds.UnionFind.Find` | crates/adversary/src/heuristics.rs:34-43 | returns the component's representative, leaves the represented partition unchanged, and takes at most half the root's rank plus one iterations, so at most log2 of the account count |
| `UnionFinds.UnionFind.Union` | crates/adversary/src/heuristics.rs:45-60 | merges exactly the two components: afterwards representatives agree iff the old edges and the new one connect |
| `UnionFinds.UnionFind.Link` | crates/adversary/src/heuristics.rs:51-59 | linking the lower rank below the higher keeps the forest sound and every tree of rank r at 2^r accounts or more |
| `Forests.RankBound` | crates/adversary/src/heuristics.rs:34-60 | a tree of rank r holds at least 2^r accounts, so 2^rank never exceeds the account count |
| `Forests.HalvingKeeps` | crates/adversary/src/heuristics.rs:37-41 | pointing a node at its grandparent changes no representative and keeps ranks rising |
| `Forests.LinkForest` | crates/adversary/src/heuristics.rs:51-59 | linking roots by rank keeps ranks strictly rising along parents |
| `Forests.LinkSized` | crates/adversary/src/heuristics.rs:51-59 | linking roots by rank keeps the 2^rank size bound |
| `UnionFinds.JoinRepresents` | crates/adversary/src/heuristics.rs:45-60 | redirecting one root to the other represents exactly the graph with the new edge |
| `Graph.AddEdge` | crates/adversary/src/heuristics.rs:45-60 | one more edge merges exactly the components of its two ends |
| `Groups.CutRuns` | crates/adversary/src/heuristics.rs:187-198 | the shared grouping loop cuts an order into its maximal runs of joined neighbours |
| `Groups.BurstGroups` | crates/adversary/src/heuristics.rs:182-199 | bursts are the maximal slot-contiguous runs of one timestamp |
| `Groups.WindowGroups` | crates/adversary/src/heuristics.rs:207-225 | window groups are the maximal runs in time order with no gap above the window |
| `Groups.WindowGroupsAreComponents` | crates/adversary/src/heuristics.rs:201-225 | two records share a window group iff they are connected by "timestamps at most w apart" |
| `Groups.WindowGroupsPartition` | crates/adversary/src/heuristics.rs:207-225 | every record is in exactly one window group |
| `Groups.WideningMerges` | crates/adversary/src/heuristics.rs:204-206 | widening the window merges groups and never splits one |
| `Groups.BurstsWithinZeroWindow` | crates/adversary/src/heuristics.rs:205-206 | two records of one burst have one timestamp and share a zero-width window group |
| `Groups.BurstsAreComponents` | crates/adversary/src/heuristics.rs:176-199 | where every record has its own slot, two records share a burst iff they are connected by "neighbouring slots at one time" |
| `Groups.RunsAreComponents` | crates/adversary/src/heuristics.rs:207-225 | the runs of any list of records in time order are the components of "at most w apart" within that list |
| `RecordPasses.LinkFeePayers` | crates/adversary/src/heuristics.rs:369-380 | the pass with its representative map connects exactly what linking every fee-payer to its source connects |
| `RecordPasses.SourcesByDest` | crates/adversary/src/heuristics.rs:387-394 | the distinct value senders of every destination that signs |
| `RecordPasses.LinkHubs` | crates/adversary/src/heuristics.rs:386-403 | links a signing destination with its value senders iff there are two of them or more, up to the cap |
| `RecordPasses.IndexBySource` | crates/adversary/src/heuristics.rs:409-424 | the per-source buckets hold exactly the value-moving records, sorted by time and signature |
| `RecordPasses.PartitionPoint` | crates/adversary/src/heuristics.rs:431-432 | the binary search over ascending keys separates those before the bound from those after it |
| `Rules.ToleranceIs` | crates/adversary/src/heuristics.rs:433 | a difference is tolerated iff ten thousand times it, and times the multiples of 2^64 the tolerated share exceeds, is at most amount times basis points |
| `Rules.ToleratedIff` | crates/adversary/src/heuristics.rs:433-438 | as long as the tolerated share fits 64 bits, two amounts pass iff each exceeds the other by at most so many ten-thousandths of the first |
| `Rules.NeverTruncated` | crates/adversary/src/heuristics.rs:433 | it fits for every 64-bit amount and every tolerance of at most the whole amount |
| `RecordPasses.SliceOrderedIff` | crates/adversary/src/heuristics.rs:431-434 | the searched range is in order iff nothing spends from the record's payee before it and after the end of a negative window |
| `Rules.SearchableIff` | crates/adversary/src/heuristics.rs:431-434 | every range of every ledger is in order iff the window is at least minus one second |
| `RecordPasses.LinkHops` | crates/adversary/src/heuristics.rs:426-442 | the range search of one record links the pairs a scan over all records would |
| `RecordPasses.RangeIsAllPairs` | crates/adversary/src/heuristics.rs:431-441 | the searched range holds exactly the continuations of a record |
| `RecordPasses.LinkPeelChains` | crates/adversary/src/heuristics.rs:405-443 | on every ledger whose ranges are in order, links exactly the record pairs with matching hop, time window, amount tolerance and different signature |
| `RecordPasses.FirstSourceAt` | crates/adversary/src/heuristics.rs:449-455 | the earliest time each source signs |
| `RecordPasses.LinkActivations` | crates/adversary/src/heuristics.rs:448-469 | links payer and payee iff the payee first signs between the payment and the end of the window |
| `Rules.ActivatedWithin` | crates/adversary/src/heuristics.rs:457-468 | for windows below the largest 64-bit time the saturating test is that the payee first signs between the payment and the end of the window |
| `PairRules.AddClique` | crates/adversary/src/ml.rs:107-114 | adds one to the weight of every unordered pair of the set and to no other |
| `PairRules.FrequentPairs` | crates/adversary/src/heuristics.rs:488-492 | pairs at the threshold are those that share that many admissible buckets |
| `PairRules.LinkFrequent` | crates/adversary/src/heuristics.rs:488-492 | unites exactly the pairs whose weight reaches the threshold |
| `PairRules.GroupByDest` | crates/adversary/src/heuristics.rs:237-244 | the distinct sources of a group per destination, above the amount floor |
| `PairRules.CopayWeights` | crates/adversary/src/heuristics.rs:230-258 | a pair's weight is the number of (group, destination) buckets of admissible size that hold both |
| `PairRules.CollectSponsored` | crates/adversary/src/heuristics.rs:325-331 | the distinct sources of a group that did not pay their own fee |
| `PairRules.CoactWeights` | crates/adversary/src/heuristics.rs:318-343 | a pair's weight is the number of groups of admissible size with both among the sponsored sources |
| `GroupPasses.PaymentsByDest` | crates/adversary/src/heuristics.rs:268-279 | payments per destination, only for destinations that sign somewhere |
| `GroupPasses.WindowedCopayWeights` | crates/adversary/src/heuristics.rs:264-312 | a pair's weight is the number of destination-local episodes of admissible size with both as payers |
| `GroupPasses.EpisodesAreComponents` | crates/adversary/src/heuristics.rs:280-298 | two payments into a destination share an episode iff they are connected by "at most the window apart" through payments into it alone |
| `GroupPasses.LinkCopay` | crates/adversary/src/heuristics.rs:480-493 | unites the pairs that repeat often enough, over bursts or destination-local episodes |
| `GroupPasses.LinkCoactivity` | crates/adversary/src/heuristics.rs:495-512 | unites the pairs co-active in enough bursts, also when the adversary is windowed |
| `GroupPasses.FundingEdges` | crates/adversary/src/heuristics.rs:350-360 | maps each funder to the fee-payers it sends to, and no other account to anything |
| `GroupPasses.SponsoredBy` | crates/adversary/src/heuristics.rs:520-525 | the sources each fee-payer paid for |
| `GroupPasses.CollectReached` | crates/adversary/src/heuristics.rs:530-535 | the sources reached through a set of fee-payers |
| `GroupPasses.LinkFunders` | crates/adversary/src/heuristics.rs:517-546 | links each qualifying funder with every source reached through its fee-payers |
| `GroupPasses.LinkCeiling` | crates/adversary/src/heuristics.rs:549-563 | connects exactly the sources that share a group of admissible size |
| `Attribution.LedgerAccounts` | crates/adversary/src/model.rs:33-41 | the accounts that occur anywhere in the ledger |
| `Attribution.LinkRecordRules` | crates/adversary/src/heuristics.rs:366-469 | after the record passes, reachability is that of the enabled record rules |
| `Attribution.LinkGroupRules` | crates/adversary/src/heuristics.rs:471-563 | after all passes, reachability is that of all enabled rules |
| `Attribution.Materialize` | crates/adversary/src/ml.rs:567-584 | numbers components by first appearance in account order, with sizes that add up |
| `Attribution.Cluster` | crates/adversary/src/heuristics.rs:362-580 | the clustering numbers the components of the graph of all enabled rules |
| `Attribution.SameClusterIffConnected` | crates/adversary/src/heuristics.rs:362-580 | two accounts get the same index iff edges of the enabled rules connect them |
| `Attribution.ClusteringUnique` | crates/agent-runtime/src/lib.rs:992-1007 | indices and sizes depend only on reachability, not on union order or map iteration order |
| `Attribution.MoreRulesCoarsen` | crates/adversary/src/heuristics.rs:362-580 | enabling more rules never separates accounts that shared a cluster |
| `Features.ActivationFeature` | crates/adversary/src/ml.rs:185-205 | the weight of a pair is the number of records that activate one from the other |
| `Features.PeelFeature` | crates/adversary/src/ml.rs:207-236 | the weight of a pair is the number of record pairs a quadratic scan finds for it |
| `Features.PeelFrom` | crates/adversary/src/ml.rs:228-235 | the range search counts all continuations of one record |
| `Features.PairKey` | crates/adversary/src/ml.rs:98-104 | the two accounts in ascending order |
| `Metric.BuildOwnership` | crates/adversary/src/model.rs:46-54 | the ground truth is the label of the last labelled record an account signed |
| `Metric.OwnersSign` | crates/adversary/src/model.rs:43-54 | owned accounts are exactly the sources of labelled records |
| `Metric.OwnedByLast` | crates/adversary/src/model.rs:46-54 | an owned account belongs to the operator of its last labelled record, whatever came before |
| `Metric.C2CountsPairs` | crates/adversary/src/metric.rs:52-57 | k choose 2 counts the unordered pairs of a k-element set |
| `Metric.Tabulate` | crates/adversary/src/metric.rs:65-76 | the contingency table and its marginals tally owned accounts; unclustered ones form one class |
| `Metric.SumC2` | crates/adversary/src/metric.rs:77-79 | summing pair counts over a tally counts the pairs with equal key |
| `Metric.ConfusionCounts` | crates/adversary/src/metric.rs:68-81 | the table's counts equal direct enumeration of owned pairs; neither subtraction underflows |
| `Metric.Scores` | crates/adversary/src/metric.rs:84-98 | F1 is 2TP/(2TP+FP+FN), and 1 iff there is a true positive and no error |
| `Metric.NoErrorsIffPartitionsAgree` | crates/adversary/src/metric.rs:65-98 | no error iff the clusters restricted to owned accounts are the operators |
| `Metric.NoMissesIffOperatorsWhole` | crates/adversary/src/metric.rs:77-81 | no false negative iff every operator's accounts share one cluster |
| `Metric.NoFalseLinksIffPure` | crates/adversary/src/metric.rs:77-81 | no false positive iff no cluster holds two operators |
| `Metric.TallyGroup` | crates/adversary/src/metric.rs:135-146 | distinct labelled sources of a group, counted per operator of their first labelled record |
| `Metric.LabelledByFirst` | crates/adversary/src/metric.rs:135-146 | within a group an account counts for the operator of its first labelled record there |
| `Metric.Purity` | crates/adversary/src/metric.rs:131-178 | the share of same-operator pairs within groups, between 0 and 1, and 1 without pairs |
| `Auc.RankSumPositives` | crates/adversary/src/ml.rs:396-413 | the loop sums the average ranks of the positives, ties sharing their mean rank |
| `Auc.TieGroupRank` | crates/adversary/src/ml.rs:401-407 | the mean rank of a tie group is one plus the scores below and half the other ties |
| `Auc.RankSum` | crates/adversary/src/ml.rs:388-416 | the rank sum exceeds its minimum by the won pairs plus half the tied ones |
| `Auc.RocAuc` | crates/adversary/src/ml.rs:388-416 | the result is the Mann-Whitney share of correctly ranked pairs, within [0,1], and absent iff a class is missing |
| `Auc.MannWhitneyPermuted` | crates/adversary/src/ml.rs:388-416 | the order of the input does not matter |
| `CrossValidation.BuildPairs` | crates/adversary/src/ml.rs:448-462 | lists every unordered owned pair exactly once, in ascending order, with its label and folds |
| `CrossValidation.FilterTrain` | crates/adversary/src/ml.rs:478-483 | the training pairs avoid both held-out folds |
| `CrossValidation.CrossValidate` | crates/adversary/src/ml.rs:474-508 | every pair ends with the score of a model trained on exactly the pairs that share no fold with it, in their order, or zero when there are none |
| `CrossValidation.ScorePairs` | crates/adversary/src/ml.rs:425-508 | behind the gate of enough operators, enough pairs of accounts with one operator and two folds, every score is that of a model trained on exactly the pairs in other folds, or zero without any; otherwise all are zero |
| `CrossValidation.HeldOutOnce` | crates/adversary/src/ml.rs:475-486 | exactly one unordered fold pair holds a given pair out |
| `CrossValidation.TrainingIsBlind` | crates/adversary/src/ml.rs:468-483 | no training pair touches an operator of the pair it helps to score |
| `CrossValidation.BlindScoreUnique` | crates/adversary/src/ml.rs:474-508 | this determines the score: the training list is the only one in order with those pairs |
| `CrossValidation.NoInterference` | crates/adversary/src/ml.rs:468-472 | two models that agree on every training set without the two operators of a pair give it the same score |
| `CrossValidation.PositivesCount` | crates/adversary/src/ml.rs:464-466 | the gate counts the pairs of owned accounts with one operator |
| `CrossValidation.TrainableIff` | crates/adversary/src/ml.rs:478-492 | a fold pair has training data iff two owned accounts lie outside its folds |
| `CrossValidation.FourFoldsAlwaysTrain` | crates/adversary/src/ml.rs:434-492 | with four folds or more no training set is empty |
| `CrossValidation.SixOperatorsTrainIff` | crates/adversary/src/ml.rs:464-492 | with six operators or more a training set is empty iff there are two folds and the pair lies across both |
| `CrossValidation.ThreeFoldsMayNotTrain` | crates/adversary/src/ml.rs:464-492 | with three folds, behind a gate that three operators pass, a training set can be empty, so a pair keeps score zero |
| `Splitting.Split` | crates/noise-core/src/split.rs:29-64 | the loops compute the specified split and the position after its draws |
| `Splitting.SplitExact` | crates/noise-core/src/split.rs:27-64 | parts sum exactly to the total, number within the affordable policy bounds, and reach the floor unless the total itself does not |
| `Splitting.FlooredWithin` | crates/noise-core/src/split.rs:48-59 | floors plus weighted shares never exceed the total, so the leftover is not negative |
| `Splitting.LeftoverSmall` | crates/noise-core/src/split.rs:53-59 | the rounding leftover is smaller than the number of parts |
| `Splitting.PartBounds` | crates/noise-core/src/split.rs:38-41 | the upper bound is the most parts that the policy allows and the floor affords, the lower one what the policy asks for, if that many are |
| `Splitting.SplitShares` | crates/noise-core/src/split.rs:48-63 | above the floor every part is the whole share of its drawn weight, the drawn one plus less than one per part; a heavier weight never gets less |
| `Splitting.EveryPartCount` | crates/noise-core/src/split.rs:38-46 | every number of parts within the affordable bounds is drawn by some stream |
| `Splitting.EmissionConserves` | crates/agent-runtime/src/lib.rs:465-470 | what is emitted for an amount sums to it; a zero-value memo becomes one zero part |
| `WakeEffects.EmitWithNoiseConserves` | crates/agent-runtime/src/lib.rs:597-632 | the records of one planned transfer move exactly its amount to its destination, in both modes |
| `WakeEffects.ActOutwardConserves` | crates/agent-runtime/src/lib.rs:456-484 | a hardened action moves the planned amount from one sub-account to one destination |
| `WakeEffects.ChosenDistinct` | crates/agent-runtime/src/lib.rs:530-534 | the partial shuffle draws pairwise different operational indices |
| `WakeEffects.RotateSomeRotates` | crates/agent-runtime/src/lib.rs:508-550 | each chosen account sends to its own fresh successor, which replaces it; the treasury and all others stay |
| `WakeRecords.NaiveWake` | crates/agent-runtime/src/lib.rs:384-424 | a naive wake records the drawn action whole, paid by the main account, then, iff it draws a consolidation, one bounded payment from every other sub-account into the main one, and nothing else |
| `WakeRecords.EmissionRecorded` | crates/agent-runtime/src/lib.rs:611-631 | the single-clock cooker records a planned transfer in the parts of its split, each with the source and fee-payer drawn for it |
| `WakeRecords.CookerWake` | crates/agent-runtime/src/lib.rs:384-424 | a cooker wake records the drawn action in its parts, then exactly the dust payments it draws, then a bounded churn into a fresh account iff it draws one |
| `WakeRecords.HardenedWake` | crates/agent-runtime/src/lib.rs:443-503 | without maintenance the acting sub-account makes the drawn action in its parts and then the drawn number of dust payments, each later by its drawn gap and paid by its drawn fee-payer |
| `WakeRecords.MaintenanceWake` | crates/agent-runtime/src/lib.rs:446-452 | iff maintenance is drawn, the configured strategy rotates or collects from distinct drawn sub-accounts, between the two limits as far as there are any |
| `WakeRecords.EveryChoice` | crates/agent-runtime/src/lib.rs:529-534 | every list of distinct operational sub-accounts is chosen by some stream |
| `WakeRecords.EveryDraw` | crates/agent-runtime/src/lib.rs:391-406 | every action, every positive amount and gap and every number of decoys up to the limit is drawn by some stream |
| `WakeRecords.EventAppends` | crates/agent-runtime/src/lib.rs:305-353 | every event records something, except hardened ones that draw maintenance |
| `WakeRecords.EventTimes` | crates/agent-runtime/src/lib.rs:307-314 | records bear the later of the wake time and the chain time, hardened ones come after it |
| `WakeRecords.RunRecords` | crates/agent-runtime/src/lib.rs:293-355 | a run without hardening records at least as much as it has events |
| `Fleets.FleetScheduled` | crates/agent-runtime/src/lib.rs:224-269 | agents take the personas in turn, and every clock is scheduled exactly once: one per agent, or one per sub-account when hardened |
| `Fleets.FreshDrawn` | crates/agent-runtime/src/lib.rs:214-288 | externals, accounts, phases and first wake times of a fresh run are the draws at their positions, first wakes after the drawn delay, times the accounts when the rate is held |
| `Runtime.RunState.constructor` | crates/agent-runtime/src/lib.rs:214-288 | the setup loops build the specified fresh run with every schedule index in the heap once |
| `Runtime.BuildAll` | crates/agent-runtime/src/lib.rs:224-269 | the agent loop builds the specified fleet |
| `Runtime.HeapFrom` | crates/agent-runtime/src/lib.rs:273-276 | pushing the wake times gives a heap with every index once |
| `Runtime.TopIsSoonest` | crates/agent-runtime/src/lib.rs:295-305 | the top of the heap is the earliest wake, ties by schedule index |
| `Runtime.HeapUnique` | crates/agent-runtime/src/durable.rs:327-330 | the wake times determine the heap, so a rebuilt heap pops in the same order |
| `Runtime.RunState.Record` | crates/agent-runtime/src/lib.rs:53-66 | appends one record stamped with the next signature and slot and the current time |
| `Runtime.RunState.EmitWithNoise` | crates/agent-runtime/src/lib.rs:597-632 | the loop over parts leaves the specified ledger, counters and generator position |
| `Runtime.RunState.InterleaveDecoys` | crates/agent-runtime/src/lib.rs:406-421 | the same for the decoy loop |
| `Runtime.RunState.MaybeRebalance` | crates/agent-runtime/src/lib.rs:635-672 | the same for funnelling and churn |
| `Runtime.RunState.PerformAction` | crates/agent-runtime/src/lib.rs:384-424 | the same for a whole single-clock wake |
| `Runtime.RunState.Act` | crates/agent-runtime/src/lib.rs:456-484 | the same for a hardened action, each part at a later time |
| `Runtime.RunState.ActDecoys` | crates/agent-runtime/src/lib.rs:486-501 | the same for hardened decoys |
| `Runtime.RunState.Rotate` | crates/agent-runtime/src/lib.rs:508-550 | the same for rotation, which overwrites sub-accounts in place |
| `Runtime.RunState.Sweep` | crates/agent-runtime/src/lib.rs:554-594 | the same for the hub sweep |
| `Runtime.RunState.PerformActionHardened` | crates/agent-runtime/src/lib.rs:436-503 | the same for a whole hardened wake; only the acting agent changes |
| `Runtime.RunState.Wake` | crates/agent-runtime/src/lib.rs:305-353 | one loop iteration pops the earliest entry, acts, and pushes it back; the heap again holds every index once |
| `Runtime.RunState.RunCore` | crates/agent-runtime/src/lib.rs:293-355 | a run that ends and that no wake stops ends in the specified final state |
| `EventLoop.WakeProgress` | crates/agent-runtime/src/lib.rs:325-350 | below the saturation point every event uses up remaining time |
| `Termination.NeverDone` | crates/agent-runtime/src/lib.rs:293-355 | with the end at the saturation point, no number of events ends a loop that has anything scheduled |
| `Termination.RunEndsIff` | crates/agent-runtime/src/lib.rs:214-355 | a run whose wake times fit 64 bits ends iff its end is below the largest 64-bit time or it has no agents |
| `Termination.ForeverNeverEnds` | crates/agent-runtime/src/lib.rs:214-355 | a concrete configuration that never ends, and ends at once without its agent |
| `Termination.AlwaysProceeds` | crates/agent-runtime/src/lib.rs:554-580 | no draw stream stops a run unless it is hardened, sweeps into the hub with a cap of zero, and has an agent with two accounts due in time |
| `Termination.ProceedsIff` | crates/agent-runtime/src/lib.rs:554-580 | and under exactly that condition some draw stream does |
| `EventLoop.WakesInOrder` | crates/agent-runtime/src/lib.rs:293-355 | wake times never decrease from one event to the next |
| `EventLoop.EventBound` | crates/agent-runtime/src/lib.rs:293-355 | a run makes at most as many events as there is remaining time over all entries |
| `EventLoop.FreshEventBound` | crates/agent-runtime/src/lib.rs:214-355 | a fresh run makes at most one event per schedule entry and second |
| `Rates.WakeReschedules` | crates/agent-runtime/src/lib.rs:331-350 | the entry that woke is due again after the delay drawn at its own phase of the day, times its agent's accounts when the rate is held; no other entry changes |
| `Rates.DelayOfDay` | crates/agent-runtime/src/lib.rs:331-350 | a delay is that of the persona at the second of the day, also for times before the epoch, and at least one second |
| `Rates.AggregateRate` | crates/agent-runtime/src/lib.rs:104-107 | with the rate held, or one clock per agent, a run makes at most one event per agent and second, however many accounts there are |
| `Rates.FinishPastEnd` | crates/agent-runtime/src/lib.rs:293-304 | a finished run has no entry left that is due by its end |
| `Emissions.PerformActionGrows` | crates/agent-runtime/src/lib.rs:384-424 | a single-clock wake is a chain of emissions of its mode's shape |
| `Emissions.PerformActionHardenedGrows` | crates/agent-runtime/src/lib.rs:436-594 | a hardened wake is a chain of emissions at rising times, outward, rotating or into the hub |
| `Emissions.ActedGrows` | crates/agent-runtime/src/lib.rs:305-353 | so is the wake of every schedule entry |
| `RunInvariants.FinishStamped` | crates/agent-runtime/src/lib.rs:53-66 | every run only appends, and record i carries i+1 as signature and slot |
| `RunInvariants.FinishSigned` | crates/agent-runtime/src/lib.rs:53-66 | every record of every run is labelled with an existing agent |
| `RunInvariants.FinishTicking` | crates/agent-runtime/src/lib.rs:307-313 | in every hardened run timestamps strictly increase over the whole ledger |
| `RunInvariants.FinishMainPays` | crates/agent-runtime/src/lib.rs:605-609 | in every naive run each record is paid by its operator's main account |
| `RunInvariants.ThrowawaysKept` | crates/agent-runtime/src/lib.rs:610-631 | an emission keeps fee-payers single-use and apart from sources, destinations, externals and held accounts |
| `RunInvariants.OwnedKept` | crates/agent-runtime/src/lib.rs:436-550 | an emission keeps every source with one operator and value into it from that operator only |
| `RunInvariants.ApartKept` | crates/agent-runtime/src/lib.rs:536-549 | an emission keeps all held accounts distinct and disjoint from the externals |
| `RunInvariants.FinishCooker` | crates/agent-runtime/src/lib.rs:293-355 | all of this holds at the end of every cooker run with distinct identifiers |
| `RunInvariants.FreshCooker` | crates/agent-runtime/src/lib.rs:214-288 | and at its start |
| `Rotations.ShapedEmits` | crates/agent-runtime/src/lib.rs:436-550 | a rotating wake adds only outward records and rotations into accounts never named before |
| `Rotations.RotatingRunLedger` | crates/agent-runtime/src/lib.rs:436-550 | the ledger of every hardened rotating run has rising times, single-use fee-payers, one operator per source, and only outward or rotation records |
| `Funding.Fund` | crates/agent-runtime/src/funding.rs:76-162 | on every ledger whose looked-up operators are known, the post-pass loops compute the specified funded ledger |
| `Funding.FundFirstUses` | crates/agent-runtime/src/funding.rs:114-147 | the record loop produces the specified events, looking up operators only for labelled first uses and not under per-event relayers |
| `Funding.ApplyFunding` | crates/agent-runtime/src/funding.rs:73-85 | the base ledger is an exact prefix of the result, and the result itself without a policy or in naive mode |
| `Funding.FundedExactlyOnce` | crates/agent-runtime/src/funding.rs:114-147 | a fee-payer is funded once, at its first use, iff it is no source and that use is labelled and has another funder |
| `Funding.SuffixFundsExactly` | crates/agent-runtime/src/funding.rs:114-161 | sorting and numbering keep this; each funding precedes the use it is for by a lead within the range |
| `Funding.SuffixInOrder` | crates/agent-runtime/src/funding.rs:149-161 | the suffix is ordered by time, then destination, and continues the signature and slot numbers |
| `Funding.UnlabelledFirstUseUnfunded` | crates/agent-runtime/src/funding.rs:119-127 | on a concrete ledger a fee-payer first used without a label is never funded |
| `Relayers.RosterDrawn` | crates/agent-runtime/src/funding.rs:90-112 | the relayers are the first identifiers drawn, and every operator has its own hub, its own drawn wallet, or the pool member drawn at its position |
| `Relayers.FunderDrawn` | crates/agent-runtime/src/funding.rs:113-131 | a first use is funded by its operator's funder, or under per-event relayers by the pool member drawn at the position that the uses before it leave |
| `Relayers.FundingDrawn` | crates/agent-runtime/src/funding.rs:132-147 | its lead and amount are the two draws after that |
| `Relayers.SuffixByOperator` | crates/agent-runtime/src/funding.rs:45-47 | in the finished suffix every funding comes from the one funder of the operator it is for, unless relayers are drawn per event |
| `Relayers.OneSourcePerOperator` | crates/agent-runtime/src/funding.rs:45-47 | so two fundings for one operator have one source |
| `Relayers.EveryAssignment` | crates/agent-runtime/src/funding.rs:103-105 | every assignment of operators to sticky relayers is drawn by some stream |
| `FundedRuns.SameRun` | crates/agent-runtime/src/funding.rs:10-12 | the funding policy changes neither whether a run completes nor the state it ends in |
| `FundedRuns.FundingOnlyAppends` | crates/agent-runtime/src/funding.rs:10-12 | a funded simulation is the unfunded one with a suffix, and the unfunded one itself without a policy or in naive mode |
| `Leaks.SuffixOnFundingGraph` | crates/adversary/src/heuristics.rs:345-360 | every funding record is an edge of the adversary's inferred funding graph |
| `Leaks.StarRecovers` | crates/adversary/src/metric.rs:77-81 | rules that tie each labelled source to a hub of its operator leave no false negative |
| `Leaks.NaiveFullyRecovered` | crates/adversary/src/heuristics.rs:366-380 | on every naive run the fee-payer rule misses no same-operator pair, whatever else is enabled |
| `Leaks.WalletChildren` | crates/agent-runtime/src/funding.rs:98-148 | below an operator's wallet the funder graph sees exactly that operator's throwaways |
| `Leaks.WalletReached` | crates/adversary/src/heuristics.rs:519-545 | through them it reaches exactly the accounts the operator signed with |
| `Leaks.OwnFundedFullyRecovered` | crates/adversary/src/heuristics.rs:513-546 | on every cooker run funded by hub or by distinct dedicated wallets, with enough throwaways and a bounded number of sources per operator, the funder rule misses no same-operator pair |
| `Residual.BurstsAlone` | crates/adversary/src/heuristics.rs:176-199 | rising timestamps leave every burst with one record |
| `Residual.AlonePays` | crates/adversary/src/heuristics.rs:230-343 | over groups of one, co-payment, co-activity and the ceiling link nothing |
| `Residual.NoHubs` | crates/adversary/src/heuristics.rs:386-403 | in a rotating ledger no signing destination has two value senders |
| `Residual.NoFunders` | crates/adversary/src/heuristics.rs:345-360 | in a ledger without funding the funder graph is empty |
| `Residual.NoEpisodes` | crates/adversary/src/heuristics.rs:264-312 | in a rotating ledger no pair meets in two destination-local episodes, so a threshold of two leaves windowed co-payment nothing |
| `Residual.FeesDangle` | crates/adversary/src/heuristics.rs:369-380 | over edges that leave them out, single-use fee-payers never connect two accounts that sign |
| `Residual.ActivationsAreRotations` | crates/adversary/src/heuristics.rs:445-469 | the activation rule links exactly the rotations whose successor first signs within the window |
| `Residual.OperatorsApart` | crates/adversary/src/heuristics.rs:362-580 | in a rotating ledger the rules never connect two operators, unless peel chains are followed over a second or more or windows are united |
| `Residual.PeelsAreRotations` | crates/adversary/src/heuristics.rs:405-443 | the peel-chain rule links exactly predecessor and receiver of rotations whose successor passes on, soon and nearly whole, what it received |
| `Residual.ResidualIsRotations` | crates/adversary/src/heuristics.rs:362-580 | with both exceptions off every remaining link joins predecessor and successor of one rotation |
| `Residual.ThresholdedLinks` | crates/adversary/src/heuristics.rs:480-493 | with both exceptions off, and windowed co-payment off or asking for two episodes, only the rotations whose successors sign soon remain |
| `Residual.RotatingSearchable` | crates/adversary/src/heuristics.rs:431-434 | no rotating ledger stops the peel-chain search, whatever its window |
| `Residual.ResidualExact` | crates/adversary/src/heuristics.rs:362-580 | under every setting the rules connect owned accounts of a rotating ledger iff activations, repeated episodes, passed-on value and united windows do |
| `Residual.HardenedApart` | crates/agent-runtime/src/lib.rs:505-550 | for every hardened, rotating, unfunded run: no false positive, unless peel chains are followed over a second or more or windows are united |
| `Residual.HardenedResidual` | crates/agent-runtime/src/lib.rs:505-550 | for every hardened, rotating, unfunded run and every setting: same cluster iff a chain of those links; with both exceptions off no false positive, and with the co-payment threshold only rotations whose successors sign soon |
| `Residual.HardenedBurstsSilent` | crates/agent-runtime/src/lib.rs:427-594 | for every hardened unfunded run: strictly increasing times, single-record bursts, no burst co-payment or co-activity edge, no impure pair |
| `Analysis.Analyze` | crates/adversary/src/lib.rs:20-25 | clusters and scores in one call: components, enumerated counts, and the pure shares of bursts and windows |
| `Analysis.AnalyzeNaive` | crates/adversary/src/lib.rs:20-25 | simulating and analysing any naive run with the fee-payer rule reports full recall, when its ledger lets the peel-chain search through |
| `Analysis.AnalyzeHardened` | crates/adversary/src/lib.rs:20-25 | simulating and analysing any hardened, rotating, unfunded run reports no false link and pure bursts, unless peel chains are followed over a second or more or windows are united |
| `CeilingLeak.UnitedWindowsCross` | crates/adversary/src/heuristics.rs:548-563 | a concrete hardened run whose two operators the windowed ceiling links |
| `PeelLeak.FollowedPeelsCross` | crates/adversary/src/heuristics.rs:405-443 | a concrete hardened run whose two operators the peel-chain rule links through a shared external |
| `Separation.NeverCrossesIff` | crates/adversary/src/heuristics.rs:362-580 | operators stay apart on all hardened, rotating, unfunded runs iff the ceiling unites no windows and peel chains are not followed over a second or more |
| `Sharing.CrossesIffShared` | crates/adversary/src/heuristics.rs:405-443 | with windows not united, two operators of a rotating ledger are linked iff peel chains are followed and successors of two operators pass value on to one external |
| `Sharing.HiddenCrossesIff` | crates/adversary/src/heuristics.rs:405-443 | the same for every hardened, rotating, unfunded run |
| `Simulation.RunSimulation` | crates/agent-runtime/src/lib.rs:361-365 | setup, loop and post-pass compute the specified ledger |
| `Simulation.FinalizeRun` | crates/agent-runtime/src/lib.rs:368-382 | the post-pass over a finished state uses each agent's main account as its hub |
| `Simulation.AlwaysAcceptedIff` | crates/agent-runtime/src/lib.rs:214-594 | every world completes a run iff its end does not saturate, or there is no agent, and no sweep can come out empty |
| `Simulation.PersonasDelimited` | crates/agent-runtime/src/durable.rs:48-55 | the digested persona array can be told apart from what follows it |
| `Simulation.SameIdSameInputs` | crates/agent-runtime/src/durable.rs:47-67 | equal run identities mean equal personas and configuration |
| `Codec.LineRoundTrip` | crates/agent-runtime/src/durable.rs:227-230 | a record's line has no newline and parses back to the record |
| `Codec.ReadsBack` | crates/agent-runtime/src/durable.rs:352-364 | whatever follows them, the first records read back are those written first |
| `Codec.EncodePrefix` | crates/agent-runtime/src/durable.rs:226-232 | the journal of a longer ledger continues that of a shorter one |
| `Codec.EncodeInjective` | crates/agent-runtime/src/durable.rs:226-232 | a journal determines its ledger |
| `Codec.ReadLoop` | crates/agent-runtime/src/durable.rs:350-375 | the reading loop returns the records iff that many complete parsing lines are there |
| `Durable.RestoreUndoesSnapshot` | crates/agent-runtime/src/durable.rs:115-142 | restoring a snapshot onto a fresh run gives back every field the loop reads |
| `Durable.WakeTimes` | crates/agent-runtime/src/durable.rs:116-123 | the loop over the heap fills in every schedule index's wake time |
| `Durable.Snapshot` | crates/agent-runtime/src/durable.rs:115-142 | the checkpoint of the current state |
| `Durable.WakeOnPath` | crates/agent-runtime/src/lib.rs:293-355 | an event of a state on the uninterrupted run's path leads to another one and only appends |
| `Durable.CommittedBytes` | crates/agent-runtime/src/durable.rs:88-91 | the bytes a published checkpoint commits to encode exactly the uninterrupted run's first records |
| `Durable.Disk.Write` | crates/agent-runtime/src/durable.rs:226-232 | a killed write leaves any prefix of its bytes |
| `Durable.Disk.SetLength` | crates/agent-runtime/src/durable.rs:344-347 | truncation is all or nothing; a longer length fills up with zero bytes |
| `Durable.Disk.Publish` | crates/agent-runtime/src/durable.rs:215-216 | the rename is atomic |
| `Durable.Disk.RemoveCheckpoint` | crates/agent-runtime/src/durable.rs:158 | the removal happens or not, may fail without notice in a stubborn directory, and unguards it when bytes were committed |
| `Durable.Disk.SyncDirectory` | crates/agent-runtime/src/durable.rs:218-220 | the published checkpoint becomes stable, and a synced directory guarded |
| `Durable.Disk.PowerFailure` | crates/agent-runtime/src/durable.rs:97-102 | synced bytes survive, unsynced ones become anything, an unsynced rename or removal may be undone |
| `Durable.DurableSink.constructor` | crates/agent-runtime/src/durable.rs:160-195 | a new sink has an empty buffer and no snapshot yet; a cadence of zero becomes one |
| `Durable.DurableSink.OnRecords` | crates/agent-runtime/src/durable.rs:226-232 | file and buffer together hold the encoding of all records, however much spilled |
| `Durable.DurableSink.Save` | crates/agent-runtime/src/durable.rs:197-222 | killed anywhere, the published checkpoint is the old or the new one and backed by the journal; with fsync the directory stays guarded, and is so afterwards |
| `Durable.DurableSink.OnBoundary` | crates/agent-runtime/src/durable.rs:234-247 | a due checkpoint names exactly the journal of all records so far; none is taken when none is due; killed anywhere, the directory stays safe |
| `Resume.Advance` | crates/agent-runtime/src/lib.rs:305-353 | one event with its records journalled, and counted |
| `Resume.Boundary` | crates/agent-runtime/src/lib.rs:294-304 | a boundary keeps the directory safe, moves the checkpoint only onward and leaves it at most one interval behind; at the end it leaves the complete journal |
| `Resume.RunDurably` | crates/agent-runtime/src/lib.rs:293-355 | the loop with the sink stays safe at every kill point, only moves its checkpoint onward, is never more than one interval ahead of it, and unless cut off ends with a terminal checkpoint and the complete journal |
| `Resume.LoadJournalPrefix` | crates/agent-runtime/src/durable.rs:344-376 | cuts the journal to the committed length and reads it, whether or not the cut could be synced |
| `Resume.CommittedReadBack` | crates/agent-runtime/src/durable.rs:342-376 | cutting any longer journal, torn or not, and reading it gives exactly the committed records |
| `Resume.RestoreInto` | crates/agent-runtime/src/durable.rs:291-330 | overwrites the fresh state iff the checkpoint has its shape |
| `Resume.ResumeDurable` | crates/agent-runtime/src/durable.rs:267-340 | a missing or foreign checkpoint is refused with nothing touched; otherwise the run continues at the checkpointed event to the simulation's ledger, or is cut off safely with a checkpoint no earlier than the one it found |
| `Resume.SimulateDurable` | crates/agent-runtime/src/durable.rs:252-263 | a fresh durable run over anything that can be removed executes from the first event and ends with the simulation's ledger unless cut off; a guarded directory stays so if its checkpoint committed no bytes, or once the synced run is finished |
| `Resume.UnremovedSafeIff` | crates/agent-runtime/src/durable.rs:158-165 | emptying the journal under a checkpoint that could not be removed is safe iff it commits no bytes |
| `Resume.FreshStartSafeIff` | crates/agent-runtime/src/durable.rs:156-167 | after a fresh start in a settled directory every outcome of a power failure is safe iff the removed checkpoint committed no bytes |
| `Resume.RestartAfterFinish` | crates/agent-runtime/src/durable.rs:156-167 | after any finished run that recorded something, the checkpoint may come back without its journal |
| `Resume.Session` | crates/cli/src/main.rs:997-1001 | resume if asked and possible, else start afresh: never refused, finished unless cut off; the events executed are exactly those from the resumed checkpoint, or the start, to where it came; a resumed checkpoint never moves back, and an interruption loses at most one interval |
| `Resume.Resumptions` | crates/agent-runtime/src/durable.rs:265-266 | without a power failure, any number of resuming launches together execute at most the missing events plus one interval for each that was cut off |
| `Resume.Campaign` | crates/agent-runtime/src/durable.rs:265-266 | over any sequence of launches, resuming or afresh, and kills, every launch that is not cut off returns the simulation's ledger; power failures break that only in an unguarded directory, which careful synced launches never leave |
| `Resume.Campaigns` | crates/agent-runtime/src/durable.rs:3-7 | the same from an empty directory |

## Left out

- Floating point: amounts, weights, scores and probabilities are exact rationals and floors. The split's 64-bit floats can differ for totals beyond 2^53, and the rank sum's summation order is not modelled.
- Machine integers: sums and products are unbounded except the saturating time addition and subtraction and the truncated peel tolerance; counter overflow does not occur in the model.
- The ChaCha generator, SHA-256 and the JSON formats: an arbitrary draw stream per seed and mode, an injective digest of a canonical text, and a comma-separated line format stand in. One draw is one stream position. The checkpoint file's content is a value, whole or torn.
- Timing, amount, decoy and action distributions: any values within the bounds the code enforces.
- Persona and adapter details beyond the shape of the one planned transaction they produce.
- The logistic regression and the remaining features (co-burst, windowed co-payment, funding hop, overlap ratios): the model is an arbitrary function from a training set to scores.
- Fragmentation, largest-cluster share and funder anonymity set of the report.
- Live submission, command-line parsing, printing and the cost report.
- Errors that file operations report to the program are treated as the process being cut off at that point. The two it discards, removing a checkpoint and syncing a cut journal, may fail and go on; removing a checkpoint may so fail only in a `stubborn` directory. A checkpoint that fails to parse does not occur because publishing is atomic.
- The sentinel for "no snapshot yet" is an absent value instead of the largest counter.
- Parsing of journal lines accepts leading zeros, which are never written.
- Durable.Disk.PowerFailure: what the program makes of a directory that was not guarded when the power failed is not modelled, nor a half-written checkpoint behind an unsynced rename; a campaign ends there.
