# AstrAI bookkeeping, modelled and proved in Dafny

AstrAI is a training and inference framework. Most of what can silently go wrong in it is
bookkeeping: which token lands in which pack, which sample is trained on which rank, which update
counts, which directory is a checkpoint. This project models that bookkeeping and proves what the
code is for. Verify it with `dafny verify dfyconfig.toml`.

The modules, in the order of the repository's own pipeline:

- `Bits`, `BestFit`, `Planner` — the bitset bin packer. `BestFit` is the naive scan it must refine, and
  carries the approximation bound: at most 3/2 of the bins of any packing. `Bits` defines Python's
  unbounded integers bit by bit, so `available >> length`, `x & -x` and `bit_length` mean what they mean.
- `Packing`, `PackContents`, `Collate`, `Preparation` — overflow handling and assembly of aligned fields, collation with
  labels shifted and blanked at segment ends, columns with omitted fields filled in. The end-to-end result
  is that packing and collating neither create nor lose a training pair.
- `Rendering` — records to token ids and loss masks; batched tokenization must equal item-by-item.
- `Sampler`, `StepPlan`, `GlobalUpdate`, `Runs`, `Cursor`, `StopAgreement`, `StopProtocol` — the global-window protocol: sharding,
  replay, the normalisation of one update, commit and rollback, resume, and a stop agreed between ranks
  that run at their own pace. `Runs` says what can be told of a run before it starts; `Cursor` is the trainer
  and its checkpoint observer, proved against it. `StopProtocol` says what the ranks' posts look like.
- `Storage` — token streams and records behind bisected cumulative counts.
- `TensorParallel`, `Rope`, `Dispatch` — transformations that must preserve meaning: sharded linear layers,
  converted rotary weights, merged dispatch rows.
- `CheckpointFs` — publication as file-system steps with a crash possible between any two.
- `PassAtK` — the pass@k product.
- `Sequences`, `Arithmetic` — shared vocabulary.

How the environment enters. `torch.randperm` is an arbitrary fixed permutation. The data-parallel executor
sums gradients locally and averages once over the replicas (as astrai/trainer/trainer.py:257-258 says). Calls
into code that may raise are answered by an arbitrary oracle (`Runs.Environment`,
`CheckpointFs.FileSystem.fails`). Signals may reach any rank at any moment. Tensors are over `real`.
The tokenizer and the norm's gain are arbitrary functions. Strings, files and records are values.
Shards are read in the order a glob finds them, which is any order.

What the proofs found where the code and its own words differ:

- An omitted mask does not always mean "all ones" for records without a `sequence` (preference and group outputs).
  `Preparation.MaskColumnExact` says exactly when it does: the first record has a `sequence` or the mask, and every
  mask filled in got the length of its field. Without a `sequence` that is: the first record has the mask, and
  wherever the mask is omitted the field is as long as the record's first list of ids
  (`Preparation.PreferenceMaskExact`). A mask that first appears in a later record is back-filled from the
  `sequence` column only, so it moves to an earlier record's place (`Preparation.MisplacedMask`); in the other order
  the omitted mask is as long as the chosen answer, not as the rejected one it masks (`Preparation.ShortMask`).
- The checkpoint cursor can disagree with its epoch: an epoch that drops a tail counts it and resets the offset
  before its observers run, and names the next epoch only after them. Over whole runs, with the observer's interval
  and its write-once directories, a checkpoint that disagrees is left behind exactly when an epoch that drops a tail
  is reached without a stop, its `on_epoch_end` is the first call to raise, no checkpoint of that epoch and its last
  step is there yet, and one of the two saves of the shutdown reaches the disk; there is at most one
  (`Cursor.Trainer.TrainerLoop`). Whether that can happen at all is told before the run: the policy drops, the
  global batch does not divide the dataset, an epoch asked for starts inside it, and its last step has no checkpoint
  by its end, neither found nor saved (`Runs.ConsistentUnlessTailDropped`). At an interval of one, no epoch that
  trains a window is lost (`Runs.EveryStepSaved`). Resuming accepts that cursor and repeats the epoch it had counted
  (`Cursor.DroppedTailRepeatsEpoch`, and a whole run, at any interval, in `Cursor.DroppedTailExample`).
- A checkpoint can be published that does not validate: `Checkpoint.save` writes the manifest from what the
  staging hook left and never looks for the required files. It happens exactly when the hook removes one of
  them or leaves a directory in its place (`CheckpointFs.ManifestValidates`, `CheckpointFs.FileSystem.Save`, and a
  hook that deletes the metadata in `CheckpointFs.LosingHookExample`); what was published before is kept in any case.
- A shard with a field whose records are all empty is written and does not load, since an empty file cannot be
  mapped; every other shard loads back as written (`Storage.RoundTrip`, `Storage.EmptyRecordLost`).
- A row-wise bias does not train like the dense one. The module text of tensor parallelism says that a rank's
  gradient needs no rescaling; on the bias, which every rank holds divided by the group size, a step whose update
  comes from gradients alone (plain, momentum, AdamW) moves the sum `size` times as far.
  `TensorParallel.RowwiseBiasExact` says exactly when the two agree: a group of one, or no update
  (`TensorParallel.RowwiseBiasExample` is the smallest step that differs). Nothing the trainer builds reaches this:
  it shards with the default plan (astrai/trainer/context/builder.py:253), whose row-wise layers have no bias
  (astrai/model/components/linear.py:14, astrai/model/components/mlp.py:38), and no other layer of the repository is
  biased and fed by a column-wise one. The input that does is `TPState.shard(model, plan)`
  (astrai/parallel/tp.py:181-183) on a caller's own module, in which a column-wise layer feeds a biased row-wise one.
- `Dispatch.Winner` is documented to resolve ties to the model. It does so exactly when a positive margin is
  asked for; at margin zero a tie makes a row (`Dispatch.TieResolution`, `Dispatch.TieMakesRow`).
- A failing commit takes its counters back, except when the failure comes from committing the metrics, which
  happens after the protected block (`Cursor.Trainer.CommitGlobalUpdate`, `Cursor.MetricFailureExample`).
- A stream read with `begin >= end` yields nothing, or fails: inside the stream it fails exactly when a segment
  boundary lies between the two ends (`Storage.FetchStream`).

## Model

| member | source | states |
|---|---|---|
| Bits.LowestBit | astrai/preprocessing/packing.py:23 | `(x & -x).bit_length() - 1` is the position of the lowest set bit, for every positive unbounded integer |
| BestFit.RunIsValid | astrai/preprocessing/packing.py:14-36 | naive best-fit decreasing places every index once, within capacity, and keeps the facts the bound rests on |
| BestFit.TwoBinsExceed | astrai/preprocessing/packing.py:14-36 | any two bins together exceed the capacity |
| BestFit.ThreeHalves | astrai/preprocessing/packing.py:14-36 | if any packing into K bins of that capacity exists, the B bins of best-fit decreasing satisfy 2B <= 3K |
| Planner.TightestStack | astrai/preprocessing/packing.py:21-23 | the bitset finds the least residual that takes the item, or that no open bin does |
| Planner.PlaceIndexed | astrai/preprocessing/packing.py:20-35 | one loop step puts the item where the naive scan puts it, and keeps bit r set exactly when some open bin has residual r |
| Planner.PlanBfd | astrai/preprocessing/packing.py:8-36 | fails exactly on an impossible capacity or length, and otherwise returns the naive plan ordered by smallest index |
| Planner.PlanIsPacking | astrai/preprocessing/packing.py:14-36 | the plan partitions the indices, every load fits, and the bins are in order of their smallest index |
| Planner.PlanIsThreeHalves | astrai/preprocessing/packing.py:8-36 | the 3/2 bound for what the planner returns |
| Packing.SplitReassembles | astrai/preprocessing/packing.py:74-83 | the pieces of a split row, joined, are the row; each piece is nonempty and within the limit |
| Packing.ChunksAligned | astrai/preprocessing/packing.py:70-83 | aligned fields stay aligned chunk by chunk, whatever the overflow mode |
| Packing.BinPlanIsPacking | astrai/preprocessing/packing.py:84-89 | with either packing mode the bins partition the chunks within the packed length |
| Packing.ChunkFields | astrai/preprocessing/packing.py:70-83 | the nested loops cut every field as each row is cut on its own, in row order |
| Packing.PackSequences | astrai/preprocessing/packing.py:39-95 | fails exactly on the bad arguments the checks name; otherwise every field follows the same slices and plan, whose content `PackContents.PacksHoldInput` states against the input |
| PackContents.PacksHoldInput | astrai/preprocessing/packing.py:64-95 | the packs of an accepted call, cut at their segment lengths, hold in one order for all fields exactly the pieces of the input rows: pieces of the limit that join to each row, or its first or last tokens; only position ids are numbered anew |
| PackContents.SegmentsFit | astrai/preprocessing/packing.py:64-83 | no segment is empty or longer than the sequence length asked for |
| Collate.PositionsRestart | astrai/dataset/dataset.py:292-292 | the collated positions count from zero in every segment |
| Collate.CollatePack | astrai/dataset/dataset.py:283-300 | shifting the whole pack and blanking the segment ends gives what collating each segment alone gives |
| Collate.CollateBatch | astrai/dataset/dataset.py:274-308 | every row is its own collation padded to the longest row |
| Collate.PaddedRow | astrai/dataset/dataset.py:301-308 | a padded row is the example first, then token 0, label -100, no weight and position 0 |
| Collate.PaddingAddsNothing | astrai/dataset/dataset.py:301-308 | padding adds no training pair |
| Collate.PackPairs | astrai/dataset/dataset.py:283-300 | the supervised pairs of a pack are the next-token pairs inside its segments whose target is supervised, none across a boundary |
| Collate.PlanKeepsPairs | astrai/preprocessing/packing.py:90-94 | any plan that partitions the chunks keeps the multiset of training pairs |
| Collate.TrainingPairsConserved | astrai/preprocessing/packing.py:64-95 | packing then collating yields exactly the multiset of supervised next-token pairs of the pieces of the input rows |
| Preparation.Bucket.Accumulate | astrai/preprocessing/core.py:103-110 | whatever fields records carry, the bucket always holds for each field one value per record from its first record or the first `sequence`, whichever comes first; omitted values are filled |
| Preparation.OwnValueKept | astrai/preprocessing/core.py:108-110 | every record's own value of any field stands in that field's column, at the record's place counted from where the column starts |
| Preparation.ColumnHolds | astrai/preprocessing/core.py:105-110 | what a column holds of a record: its own value, or ones for an omitted mask and zeros for any other omitted field |
| Preparation.LinedUpExactly | astrai/preprocessing/core.py:103-110 | the columns have one value per record exactly when the first record has a sequence or every field that any record has |
| Preparation.MaskColumnExact | astrai/preprocessing/core.py:103-110 | a column with omitted masks is the column with those masks spelt out as ones exactly when the first record has a sequence or the mask and every mask filled in is as long as its field |
| Preparation.PreferenceMaskExact | astrai/preprocessing/core.py:108-110 | without a sequence that is: the first record has the mask, and wherever it is omitted the field is as long as the record's first ids |
| Preparation.MisplacedMask | astrai/preprocessing/core.py:105-107 | two preference pairs of which the second alone masks its rejected answer: its mask stands at the first one's place, unlike the column spelt out |
| Preparation.ShortMask | astrai/preprocessing/core.py:108-110 | in the other order, the omitted mask is as long as the chosen answer instead of the rejected one, unlike the column spelt out |
| Preparation.OmittedMaskIsOnes | astrai/preprocessing/core.py:127-128 | for single-output records, omitting masks anywhere gives the same columns as writing all-ones masks everywhere |
| Preparation.ContinuousPositions | astrai/preprocessing/core.py:146-152 | continuous position ids count through all packs, each pack as long as its segments |
| Preparation.PackedPositionsRestart | astrai/preprocessing/packing.py:81-83 | packed position ids restart at every segment, as collation numbers them |
| Preparation.PacksAligned | astrai/preprocessing/packing.py:90-94 | every field of a pack has the pack's length, which is positive and within the packed limit |
| Rendering.SpecialTokensOnce | astrai/preprocessing/builder.py:34-75 | unless told otherwise, the first text that contributes gets the special tokens and no later one does |
| Rendering.EncodePass | astrai/preprocessing/builder.py:89-108 | one batched pass fails exactly on an answer of the wrong size, and otherwise puts each answer in its own unit's place and changes no other, whatever the encoder |
| Rendering.EncodePlans | astrai/preprocessing/builder.py:77-108 | batched encoding gives every unit its own answer of its policy's batch, and with a pointwise batch encoder equals encoding text by text |
| Rendering.AssembleSections | astrai/preprocessing/builder.py:111-131 | ids and mask are the plan's tokens with each unit's label, truncated together, or nothing |
| Rendering.TokensLabelled | astrai/preprocessing/builder.py:111-131 | a built mask is 1 exactly on the tokens of units whose action is to train: each token of each unit stands, with that label, behind the tokens before it, unless truncation dropped it |
| Rendering.BosUntrained | astrai/preprocessing/builder.py:111-131 | the token that begins a sequence is never trained on |
| Rendering.RenderSections | astrai/preprocessing/builder.py:133-162 | rendering many items renders each on its own |
| Rendering.GatheredIsOwn | astrai/preprocessing/builder.py:222-260 | distributing mixed elements by owner gives each item exactly its own elements' renderings |
| Rendering.RenderListField | astrai/preprocessing/builder.py:218-265 | list fields of many items render as each item's own, in order |
| Rendering.MasksAligned | astrai/preprocessing/builder.py:119-131 | every ids list has a mask of the same length, list fields included |
| Rendering.BuildOutputs | astrai/preprocessing/builder.py:352-405 | multi-output building, batched or not, gives each item its own outputs, and none when one is missing |
| Rendering.Build | astrai/preprocessing/builder.py:302-423 | what one item builds on its own |
| Rendering.BuildBatch | astrai/preprocessing/builder.py:311-429 | with a pointwise batch encoder, batch building equals mapping the single build |
| StepPlan.ReplayVisitsEachOnce | astrai/trainer/step_plan.py:10-20 | each learner epoch visits every window position once and in order, and only the last update is final |
| Sampler.GlobalBatchSampler.Create | astrai/dataset/sampler.py:38-47 | construction succeeds exactly on a nonempty dataset and a committed window boundary |
| Sampler.GlobalBatchSampler.WindowList | astrai/dataset/sampler.py:53-59 | the window loop yields the windows from the offset |
| Sampler.GlobalBatchSampler.Batches | astrai/dataset/sampler.py:66-82 | the emitted batches are the rank's microbatches of all windows, exactly len() of them; `Sampler.ExactlyOnce` says what the batches of all ranks spell |
| Sampler.LengthIsExact | astrai/dataset/sampler.py:76-82 | every rank yields exactly len() batches, from any offset and under either tail policy |
| Sampler.WindowsTile | astrai/dataset/sampler.py:53-59 | the windows tile the dataset from the offset to the last committed window end |
| Sampler.UpdateSelectsSlice | astrai/trainer/trainer.py:326-345 | over all slots and ranks, an update's selections are exactly the window positions of its slice |
| Sampler.ExactlyOnce | astrai/dataset/sampler.py:53-74 | what the samplers of all ranks return, each batch cut to its real count and read slot by slot and rank by rank, is the permuted indices from the offset to the end, each once and in order |
| Sampler.ElasticResume | astrai/dataset/sampler.py:53-74 | another layout with the same global batch returns batches that read as the same samples in the same order |
| Sampler.ResumeAtBoundary | astrai/dataset/sampler.py:40-59 | the windows from zero are some windows before a committed boundary followed by those from it |
| Sampler.CommitsMatchSteps | astrai/trainer/step_plan.py:23-42 | the updates committed over an epoch's windows are the number scheduling computes |
| GlobalUpdate.RunGlobalUpdate | astrai/trainer/trainer.py:216-266 | averaging over replicas and rescaling gives the global numerator over the global count; it fails exactly when that count is not positive |
| GlobalUpdate.TotalsAreFlat | astrai/trainer/trainer.py:225-254 | the totals over ranks and slots are sums over the samples they carry, fillers contributing nothing |
| GlobalUpdate.OnlineUpdateIsSlice | astrai/trainer/trainer.py:321-354 | an online update sums exactly the samples of its slice, for every rank count, batch size and accumulation |
| GlobalUpdate.OfflineUpdateIsWindow | astrai/trainer/trainer.py:346-354 | an offline update sums exactly the samples of its window |
| GlobalUpdate.MeanOverWindow | astrai/trainer/trainer.py:254-259 | with one target per sample the update is the mean over the window |
| Runs.ConsistentUnlessTailDropped | astrai/trainer/trainer.py:356-366 | some environment makes a run leave a checkpoint that disagrees exactly when an epoch asked for drops a tail and no checkpoint of its last step is found or saved by its end; one that raises nothing never does |
| Runs.EveryStepSaved | astrai/trainer/callbacks/checkpoint.py:156-158 | saving at every step, an epoch that trains a window has its checkpoint by its end |
| Cursor.CheckpointObserver.Save | astrai/trainer/callbacks/checkpoint.py:73-117 | a free directory gets the checkpoint and a taken one keeps its own; only a save that returns is remembered |
| Cursor.CheckpointObserver.AfterStep | astrai/trainer/callbacks/checkpoint.py:156-158 | a safe state is saved when the interval has passed, and every checkpoint of the run still agrees with its epoch |
| Cursor.Trainer.CommitGlobalUpdate | astrai/trainer/trainer.py:89-116 | a failure inside the protected block restores step and sample counters; one in the metric commit does not; the state is unsafe meanwhile |
| Cursor.MetricFailureExample | astrai/trainer/trainer.py:116-116 | a first commit whose metrics raise fails and leaves its step and its samples counted |
| Cursor.Trainer.RunGlobalUpdate | astrai/trainer/trainer.py:273-279 | only the final update of a window moves the cursor and makes the state publishable |
| Cursor.Trainer.RunWindow | astrai/trainer/trainer.py:298-354 | all updates of a window commit before its samples count as trained |
| Cursor.Trainer.RunWindows | astrai/trainer/trainer.py:295-354 | windows are trained in order without gaps until the last one or an agreed stop, with one agreement after each and the commits of those trained |
| Cursor.Trainer.FinishEpoch | astrai/trainer/trainer.py:356-366 | a dropped tail is counted and moves the cursor to the next epoch; when the observers raise in between, the state a shutdown meets counts the epoch it names |
| Cursor.Trainer.TrainGlobalEpoch | astrai/trainer/trainer.py:281-366 | an epoch trains one contiguous run of positions from the cursor, with one agreement at its begin and one after each window; unless stopped, it makes exactly the scheduled commits and the saves its interval calls for; it ends in an overcounting state exactly when its end raises after a dropped tail |
| Cursor.Trainer.Shutdown | astrai/trainer/session.py:59-71 | a safe state is saved if the run saved none or it has moved since, by the first of at most two attempts that lands, unless its directory is taken |
| Cursor.Trainer.TrainerLoop | astrai/trainer/trainer.py:398-419 | the environment alone decides: a run leaves a checkpoint that disagrees exactly when it loses an epoch; a run that returns has made one agreement per epoch looked at, one per epoch begun and one per window trained, and ends at the first that says stop, or after all epochs with the scheduled commits |
| Runs.AgreesAtOnce | astrai/trainer/trainer.py:281-297 | the number of an agreement determines the epoch and the position at which it is made |
| Cursor.DroppedTailRepeatsEpoch | astrai/trainer/context/resume.py:283-304 | the disagreeing cursor passes the resume checks and is off by one whole epoch |
| Cursor.DroppedTailExample | astrai/trainer/trainer.py:356-366 | a whole run, from the first epoch, in which only the end of that epoch raises: at an interval of one every checkpoint agrees, at any longer one a checkpoint disagrees and is accepted on resume |
| StopAgreement.SameCollectives | astrai/trainer/trainer.py:183-191 | under any interleaving and any signals, all ranks post the same collectives in the same order, never more than one apart |
| StopAgreement.Lockstep | astrai/trainer/trainer.py:270-297 | ranks that left equally many collectives are on the way to the same point |
| StopAgreement.SameVerdict | astrai/parallel/setup.py:157-165 | and hold the same verdict and the same commits |
| StopAgreement.NothingAfterStop | astrai/trainer/trainer.py:411-414 | the first agreement that says stop is every rank's last collective |
| StopAgreement.RequestIsHonoured | astrai/trainer/trainer.py:183-191 | a request made before a rank enters an agreement decides that agreement and ends the run there |
| StopAgreement.StopWasRequested | astrai/parallel/setup.py:157-165 | no agreement says stop unless a stop was requested of some rank before it entered |
| StopAgreement.UnaskedRunsThrough | astrai/trainer/trainer.py:411-414 | a run of which no stop was requested ends without one |
| StopProtocol.PostsFollow | astrai/trainer/trainer.py:270-297 | every rank posts an agreement before each epoch, one at its begin, two reductions per update in replay order, and an agreement after the last update of each window, and nothing else |
| StopProtocol.WindowsBeginAgreed | astrai/trainer/trainer.py:273-297 | the first reduction of a window directly follows the agreement after the window before it, or the two that open its epoch |
| StopProtocol.CommitsAreTotals | astrai/trainer/trainer.py:255-279 | a rank has committed exactly the updates whose totals it has left |
| StopProtocol.NoLaterWindow | astrai/trainer/trainer.py:273-297 | after a request at any rank, no rank commits an update of a window later than the one open at that rank when the request came |
| StopProtocol.RequestEndsRun | astrai/trainer/trainer.py:183-191 | a request that comes before a rank's last post ends the run by agreement on every rank |
| StopAgreement.NoRankStranded | astrai/trainer/trainer.py:183-191 | no rank is left in a collective: either all have stopped or some rank can step |
| StopAgreement.EveryRunEnds | astrai/trainer/trainer.py:270-297 | under any signals and interleaving, the ranks of a run make at most as many steps as the plan allows, and a run without a step left has stopped on all of them |
| StopAgreement.SameCommits | astrai/trainer/trainer.py:295-297 | when all have stopped, all have committed the same updates |
| StopAgreement.StopNeverTearsWindow | astrai/trainer/trainer.py:270-297 | a stopped run has committed whole windows only, up to one point common to all ranks |
| StopAgreement.EpochCommitsMatchSteps | astrai/trainer/step_plan.py:23-42 | an epoch of the interleaved run commits what scheduling computes, online and offline |
| StopAgreement.TrainingStopsWhole | astrai/trainer/trainer.py:270-297 | every stopped run over a sampler layout has committed whole windows only, alike on all ranks; with no stop agreed, as many updates as scheduling computes for all its epochs |
| Storage.FetchStream | astrai/dataset/storage.py:113-126 | inside the stream, begin < end returns that slice of the concatenation and any other range nothing, failing exactly when a boundary lies between; outside it fails |
| Storage.Store.Normalize | astrai/dataset/storage.py:316-367 | counts mirror the segments; the stream length is that of the shortest counted field, and is readable in every stream field |
| Storage.Store.Fetch | astrai/dataset/storage.py:101-126 | bounds-checked reads of any field: an unknown or nested one, or one shorter than the stream, fails |
| Storage.WindowsFit | astrai/dataset/storage.py:257-262 | the sample count is exactly the stride multiples whose window and shifted companion fit |
| Storage.Store.NumSamples | astrai/dataset/storage.py:247-262 | a store with a window reports exactly the number of windows that fit with their shifted companions, and otherwise its records |
| Storage.Store.SampleWindow | astrai/dataset/storage.py:281-303 | succeeds exactly on an index whose window and shifted companion fit, and the clipping never bites |
| Storage.Store.SeqSample | astrai/dataset/dataset.py:478-486 | a training sample is a window of the concatenation and the same window one later |
| Storage.Store.BuildRecordIndex | astrai/dataset/storage.py:369-404 | accepts exactly consistent shards, installs their offsets, and otherwise changes nothing |
| Storage.Store.FetchRecord | astrai/dataset/storage.py:129-151 | record i is the i-th of the concatenated record lists, with the documented refusals |
| Storage.CutInverts | astrai/serialization/dataset.py:43-47 | cutting a concatenation by its own offsets gives the records back |
| Storage.SaveBin | astrai/serialization/dataset.py:29-49 | writes each field's concatenation with cumulative offsets; fails exactly on a field without records |
| Storage.LoadShards | astrai/dataset/storage.py:494-516 | fails exactly when there is no shard or an empty file, and otherwise collects one segment per shard and field, in the order the shards are found |
| Storage.RoundTrip | astrai/serialization/dataset.py:54-82 | what was written over any number of shards loads exactly when every field of every shard holds a token, and is then accepted and cut back into the written records |
| Storage.WriteThenFetch | astrai/dataset/storage.py:142-151 | written, found in any order, loaded, indexed and fetched, the records are those written, shard after shard as found, record i is the i-th of them and the count is the total |
| Storage.EmptyRecordLost | astrai/serialization/dataset.py:58-65 | a shard of one empty record is written with an empty stream, and loading it fails |
| TensorParallel.Linear.ShardParameter | astrai/parallel/tp.py:143-178 | fails exactly when the split dimension does not divide, and otherwise keeps this rank's slice, the row-wise bias divided by the group size |
| TensorParallel.ColwiseIsSlice | astrai/parallel/tp.py:106-111 | a column-wise shard computes its slice of the dense output |
| TensorParallel.ColwiseBackward | astrai/parallel/tp.py:86-103 | the summed input gradients of column-wise shards are the dense input gradient |
| TensorParallel.RowwiseIsSum | astrai/parallel/tp.py:112-113 | partial outputs summed over the ranks are the dense output with one bias |
| TensorParallel.RowwiseBackward | astrai/parallel/tp.py:67-83 | passing the gradient through gives each rank its slice of the dense input gradient |
| TensorParallel.BlockForward | astrai/parallel/tp.py:54-62 | column-wise gate and up, any elementwise step, row-wise down and one reduction compute the dense block |
| TensorParallel.BlockBackward | astrai/parallel/tp.py:67-113 | its whole input gradient, the gate's share plus up's, is the dense one, with each rank's own local derivatives |
| TensorParallel.RowwiseBiasStep | astrai/parallel/tp.py:168-174 | one step of any update computed from gradients, with or without weight decay, moves the effective row-wise bias size times as far as the dense one |
| TensorParallel.RowwiseBiasExact | astrai/parallel/tp.py:27-31 | so it trains like the dense bias exactly for a group of one or a zero update |
| TensorParallel.RowwiseBiasExample | astrai/parallel/tp.py:168-174 | two ranks and a unit gradient: the dense bias moves by one, the sharded one by two |
| TensorParallel.KvHeadPreserved | astrai/parallel/tp.py:249-280 | local query heads attend to the key heads they had globally |
| Rope.HalfToInterleaved | astrai/serialization/hf_adapter.py:45-58 | the strided assignments build the interleaving order |
| Rope.HeadOrderIsPermutation | astrai/serialization/hf_adapter.py:234-246 | the order of a head is a permutation of its channels, for every even rotary part |
| Rope.RotationCommutes | csrc/bench/benchmark_rotary.py:63-71 | rotating interleaved pairs of the reordered head is reordering the half-split rotation |
| Rope.NormCommutes | astrai/serialization/hf_adapter.py:247-262 | the per-head norm with its reordered weight commutes with the permutation |
| Rope.RowIndices | astrai/serialization/hf_adapter.py:240-246 | the index table, flattened, reorders every head in place |
| Rope.ConvertProjection | astrai/serialization/hf_adapter.py:219-246 | the refusals and the converted rows of a projection, fused gate included; `Rope.ConvertedRow` says which stored row each is |
| Rope.ConvertedRow | astrai/serialization/hf_adapter.py:219-246 | row by row: head h of the queries comes from block 2h of a fused projection and from block h of any other, its channels reordered if asked; head h of the gate is block 2h + 1 as stored |
| Rope.HeadConverted | astrai/serialization/hf_adapter.py:234-262 | each converted head, normed and rotated, is the original one reordered |
| Rope.ScoresPreserved | astrai/serialization/hf_adapter.py:234-262 | every query-key score is unchanged, for any head counts, inputs, norms and angles |
| Rope.ConversionKeepsScores | astrai/serialization/hf_adapter.py:219-262 | the same of what the conversion returns: each converted query head scores against each converted key head as the stored blocks they come from, fused or not |
| Rope.FusedSplit | astrai/serialization/hf_adapter.py:221-229 | the split query and gate compute, head by head, what the fused blocks computed |
| Rope.ConvertedGate | astrai/serialization/hf_adapter.py:221-229 | the gate the conversion returns computes, head by head, what the gate blocks computed |
| Dispatch.BandsPartition | csrc/bench/tune_plan_table.py:477-487 | the bands partition the positive integers, each grid value in its own |
| Dispatch.NearestBand | csrc/bench/tune_plan_table.py:477-487 | the band of a shape is that of the grid value nearest to it, the smaller one of two equally near |
| Dispatch.WinnerMeans | csrc/bench/tune_plan_table.py:620-643 | a recipe wins a cell exactly when it leads it, first in the ladder's order, by the required margin |
| Dispatch.BestForcedMeans | csrc/bench/tune_plan_table.py:602-616 | with full coverage a cell picks its fastest timed recipe, first in the ladder's order, or the ladder's head when none was timed |
| Dispatch.TieResolution | csrc/bench/tune_plan_table.py:629-643 | a tie for the lead goes to the model exactly when a positive margin is asked for |
| Dispatch.TieMakesRow | csrc/bench/tune_plan_table.py:629-637 | with no margin a tie between model and recipe makes a row |
| Dispatch.AggregateIsBest | csrc/bench/tune_plan_table.py:495-510 | a cell holds exactly the recipes sampled there, each at its best rate |
| Dispatch.MergeRuns | csrc/bench/tune_plan_table.py:536-549 | the moving run start merges exactly the adjacent bands that pick the same recipe |
| Dispatch.DistinctHits | csrc/bench/tune_plan_table.py:560-563 | dropping duplicate rows never changes the row a lookup takes |
| Dispatch.BuildRows | csrc/bench/tune_plan_table.py:490-563 | refuses exactly timings their class cannot dispatch, and otherwise returns the merged table; over positive shapes every lookup in it finds what the shape's own cell picked |
| Dispatch.TableAgrees | csrc/bench/tune_plan_table.py:517-563 | without full coverage every shape matches exactly its own cell's winner, or nothing when that is the model |
| Dispatch.TableCovers | csrc/bench/tune_plan_table.py:521-559 | with full coverage no shape of a swept class misses, and the first match is its own cell's best recipe |
| Dispatch.ClampMDomain | csrc/bench/tune_plan_table.py:1267-1287 | the rewriting loop drops and raises rows as described |
| Dispatch.ClampKeeps | csrc/bench/tune_plan_table.py:1267-1287 | clamping at a floor keeps exactly the matches above it, in order |
| CheckpointFs.ManifestValidates | astrai/serialization/checkpoint.py:132-185 | the manifest written over a directory validates exactly when the required files are there |
| CheckpointFs.FileSystem.CleanupStaleStaging | astrai/serialization/checkpoint.py:98-107 | only old directories with a staging name are touched, however far the removal gets |
| CheckpointFs.FileSystem.Stage | astrai/serialization/checkpoint.py:299-312 | staging changes nothing outside the staging directory, and ends with the manifest of what is there |
| CheckpointFs.FileSystem.Save | astrai/serialization/checkpoint.py:268-325 | every state on the way follows by one file-system step and keeps what was published; all show complete checkpoints only, exactly unless the hook lost a required file and the result was published; a save in which nothing fails or is in the way publishes |
| CheckpointFs.SparingEditsComplete | astrai/serialization/checkpoint.py:299-307 | a staging hook that neither removes a required file nor puts a directory in its place leaves the checkpoint complete |
| CheckpointFs.LosingHookExample | astrai/serialization/checkpoint.py:299-309 | a hook that deletes the metadata, while nothing fails: the save publishes, and what readers see does not validate |
| CheckpointFs.SavesAndCrashes | astrai/serialization/checkpoint.py:268-325 | over any history of saves, each cut off in any of its states, nothing published changes, and without a hook that loses a required file everything visible validates |
| PassAtK.IsCombinatorial | astrai/bench.py:166-169 | the product is one minus the share of k-subsets without a correct attempt |
| PassAtK.IsMonotone | astrai/bench.py:166-169 | it is a probability, growing with correct attempts and with draws |

## Left out

- Floating point: rates, losses, tensors and probabilities are over `real`; rounding, overflow and NaN are not modelled.
- The asynchronous rollout path (`_train_batch`, `_commit_online_update`, `RDSampler`), context parallelism, the critic's gradients and the metrics: each needs assumptions about components outside this model.
- Mixture-of-experts and gated-delta key mapping of weight conversion: renamings that would only add easy members.
- The tokenizer, chat templates, JSON and YAML parsing and configuration validation: arbitrary functions or plain values here.
- `_check_ids` of the renderer: ids are integers by type, so its refusal cannot arise.
- The JSON-lines store, and the laziness of a memory-mapped store's record index: `Storage` builds it right after loading.
- Metrics kept from before a save: that a save to a taken directory raises when it would lose some is an answer of the environment.
- `resume` beyond the cursor checks: component types and optimizer state are not part of this model.
- Process launch, data-loader workers and their prefetch: the loader yields the sampler's batches in order.
- A rank that raises or dies in an interleaved run: exceptions are modelled for the trainer of one rank (`Cursor`).
- A signal handler interrupting a rank between two statements of one step: `StopAgreement` lets signals arrive between steps.
- Durability: a crash stops the process between two steps; reordering of writes by a machine that loses power is not modelled, nor are the sync calls.
- Two savers at once: the model has one writer at a time, as the trainer uses it.
- Columns of dispatch rows that generated tables leave open (crosswise mode, raster, depth bands, wave gates), comments in row files, and writing rows as C++.
- StopAgreement.NothingAfterStop: says nothing of the shutdown after a stop, whose checkpoint and barrier collectives (astrai/trainer/session.py:63-72) are outside the interleaved part of the model.
- Planner.PlanBfd: bins are returned as lists of source indices; the sort by smallest index is by insertion, equal in result to the stable sort.
- Sampler.GlobalBatchSampler.SetEpoch: requires an offset within the dataset; the source stores any value, and the trainer only passes committed boundaries.
- Collate.CollateBatch: requires a nonempty batch, since padding an empty list raises in the tensor library and a loader never yields one.
- Rope.ConvertProjection: takes the head dimension as given; the error for a configuration without one is not modelled.
- CheckpointFs.FileSystem.Save: extra files have plain names, and checkpoints are not named like staging directories; the trainer names both so.
