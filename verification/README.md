# Verified models of verl's coordination code

This Dafny 4.11 project models five parts of the repository and proves what they promise. To verify:
`dafny verify dfyconfig.toml`.

1. **Weight transfer** (`Buckets`, `BucketLog`, `BucketTransfer`, `NixlAgent`, `NixlChain`, `NixlInvariant`,
   `NixlSteps`, `NixlSafety`, `NixlLiveness`, `NcclBroadcast`, `NcclProofs`, `NcclTheorems`). Rank 0 packs named tensors
   into fixed-size buckets; the NIXL engine passes them down a chain of ranks with one-sided reads, the NCCL engine
   broadcasts each of them. The packing and unpacking loops, and the agent's two receiving loops, are imperative code on
   arrays and queues. The concurrent transfers are step systems: any number of ranks, every coroutine suspended and
   resumed at any time, NIXL reads that move single bytes in any order while everybody else runs, FIFO messages and
   notifications, broadcast threads of their own. Delivery, race freedom, deadlock freedom and termination follow from
   one inductive invariant for each engine.
2. **Row algebra and dynamic sampling** (`RowTable`, `ConcatColumns`, `ConcatBatches`, `Dispatch`, `GroupFilter`,
   `GroupedRows`, `DapoRun`, `DapoSafety`, `DapoDecisions`, `DapoContent`, `DapoTrainer`). `DataProto` as aligned tensor
   and numpy columns with select, slice, repeat, pad, chunk and concat; on top of it the DAPO loop that filters prompt
   groups, accumulates over generation batches, truncates and resets: what keeps its batches in order, when it updates,
   goes on or gives up, and where every row of an update comes from.
3. **Megatron merging** (`PipelineShards`, `QkvSplit`, `LayerFiles`): the search for layers per pipeline rank, the
   splitting of fused query-key-value tensors, global layer numbers, shard files and the weight map.
4. **Bounding boxes** (`ImageZoom`): clamp, grow, shrink, shift and round a crop box, in exact real arithmetic.
5. **SFT trainer** (`EosValidator`, `EosReport`, `RankAgreement`): the counting validator of packed sequences, and what data-parallel
   ranks agree on in a step.

`Wrappers` and `Arith` hold the optional and fallible values and the division facts that the rest needs.

Of the step systems, `NixlChain` has one action for each stretch of code between two suspension points: Pack
(nixl_checkpoint_engine.py:389-400), Publish (372-387, 404-409), Poll and Pop (125-131 inside 161-164), ReadMsg
(191-208), CopyByte and Complete (205-220), Swap (427-436, 463-471), Offer (439-446, 474-481), Yield and EndYield
(454-458, 484-488). `NcclBroadcast` does the same for nccl_checkpoint_engine.py:71-90, 219-277 and 288-339.

## Promises the code does not keep on all inputs

Each comes with the exact condition under which it holds, and with a lemma that exhibits a concrete input on which it
does not.

- A bucket's metadata is a dictionary keyed by tensor name, so receivers get back what was sent if and only if no
  bucket holds two tensors of one name (`Buckets.BucketRoundTrip`, `Buckets.StreamRoundTrip`, `NixlSafety.Delivery`,
  `NcclTheorems.Delivery`). Input: two one-byte tensors of one name, of which only the second comes back
  (`Buckets.RepeatedNameLoses`).
- A transfer completes if and only if every tensor fits a bucket (`BucketTransfer.Engine.SendWeights`,
  `NixlLiveness.TransferSucceeds`, `NcclTheorems.TransferSucceeds`). Input: a tensor of two bytes and buckets of one
  (`BucketTransfer.OversizedTensor`, `NixlSafety.OversizedTensorCrashes`, `NcclTheorems.OversizedTensorCrashes`).
- `get_notification` rebinds the name it waits for. When agents are reported only with notifications, it answers from
  the awaited queue if and only if that queue holds something already or the first batch with any arrival lists the
  awaited name last (`NixlAgent.ReadsAwaited`); in general it answers for the name bound by the first batch that leaves
  a name with something sent (`NixlAgent.ReadsFirstReady`, `NixlAgent.WaitsUnlessReady`). Input: a second notifier listed
  behind the awaited one (`NixlAgent.SecondNotifierMisleads`). In the chain only the successor notifies, so the rebinding
  is harmless (`NixlAgent.SoleNotifier`, `NixlSafety.RebindingHarmless`).
- Concatenating pairwise, as the sampling loop does, equals one flat concatenation unless a batch without some numpy
  key follows both a floating first batch and an object batch with that key (`ConcatBatches.FoldIsFlat`). Input: three
  batches of one row (`ConcatBatches.MixedDtypesDiffer`).
- `get_dynamic_pipeline_shards` is documented to make the sharding as uniform as possible. For three ranks or more that
  is so exactly when the layers fall at most two short of equal shares of ceil(layers / ranks); otherwise it fails
  although a plan exists, or its plan is beaten by an even split (`PipelineShards.AsUniformAsPossible`). Inputs: nine
  and five layers on four ranks (`PipelineShards.NineOnFour`, `PipelineShards.FiveOnFour`).
- Splitting a fused tensor that passes the assertions works if and only if the key-value heads divide the rows of one
  kind (`QkvSplit.ChunksFit`). Input: four rows, four heads, two key-value heads (`QkvSplit.FourRowsFail`).
- The weight map names the file a rank wrote for a key if and only if no later rank saved the same key
  (`LayerFiles.WeightMapNamesTheFile`). Input: two ranks that both save the embedding
  (`LayerFiles.SharedKeyOverwritten`).
- A valid box that has room to grow is rejected if and only if it tips: its longer side spreads over more than 2800
  pixels while the 28 pixels of the shorter one start on a whole pixel (`ImageZoom.RoomySucceeds`). An aspect ratio of at
  most 2799 / 28 never tips (`ImageZoom.SlackSucceeds`), and no larger bound is safe (`ImageZoom.SlackIsSharp`). Input: a
  box of ratio 100 that is rejected, and accepted a fifth of a pixel higher (`ImageZoom.RoundingRejects`).

## Model

| member | source | states |
|---|---|---|
| Buckets.UnpackIgnoresTail | verl/checkpoint_engine/nixl_checkpoint_engine.py:454-458 | unpacking a reused buffer reads only the bytes of the current bucket, whatever stale bytes lie behind them |
| Buckets.DistinctLayout | verl/checkpoint_engine/nixl_checkpoint_engine.py:393-400 | with distinct names the metadata lists the tensors in order, each in its own range directly behind the previous one, from offset 0 |
| Buckets.BucketRoundTrip | verl/checkpoint_engine/nixl_checkpoint_engine.py:393-400 | a bucket gives back exactly its tensors if and only if their names differ, and fewer otherwise |
| Buckets.GreedyConcat | verl/checkpoint_engine/nixl_checkpoint_engine.py:363-387 | cutting the stream into buckets loses and reorders nothing |
| Buckets.StreamRoundTrip | verl/checkpoint_engine/nixl_checkpoint_engine.py:361-400 | unpacking all buckets in order restores the stream if and only if no bucket repeats a name |
| Buckets.DistinctStreamRoundTrip | verl/checkpoint_engine/nixl_checkpoint_engine.py:361-400 | distinct names over the whole stream suffice |
| Buckets.BucketCountBound | verl/checkpoint_engine/nixl_checkpoint_engine.py:368-391 | the buckets carry exactly the bytes of the stream, none overflows, any two neighbours together exceed the capacity, so k >= 2 buckets mean a stream of more than (k div 2) capacities |
| Buckets.RepeatedNameLoses | verl/checkpoint_engine/nixl_checkpoint_engine.py:393-398 | two tensors of one name in a bucket, of which only the second comes back |
| BucketTransfer.CopySlice | verl/checkpoint_engine/nixl_checkpoint_engine.py:399 | the bytes land at their offset and every other byte of the buffer stays |
| BucketTransfer.Engine.SendWeights | verl/checkpoint_engine/nixl_checkpoint_engine.py:355-410 | succeeds if and only if every tensor fits a bucket, else names the first that does not; publishes the buckets of the greedy cut in order from two alternating buffers, only the last one marked |
| BucketTransfer.Engine.YieldTensors | verl/checkpoint_engine/nixl_checkpoint_engine.py:454-458 | yields the tensor of every metadata entry, in dictionary order |
| BucketTransfer.OversizedTensor | verl/checkpoint_engine/nixl_checkpoint_engine.py:389-391 | a tensor that no bucket can take |
| BucketTransfer.PublishedRoundTrip | verl/checkpoint_engine/nccl_checkpoint_engine.py:223-262 | what was published, unpacked bucket by bucket, is the given stream if and only if no bucket repeats a name |
| BucketLog.CompleteLogFits | verl/checkpoint_engine/nixl_checkpoint_engine.py:389-391 | buffers that hold a complete cut prove that every tensor fits |
| NixlAgent.Agent.GetNotification | verl/checkpoint_engine/nixl_checkpoint_engine.py:125-131 | the polling loop with its rebound parameter computes the reference function `Await`, queues included |
| NixlAgent.Agent.ReadMessage | verl/checkpoint_engine/nixl_checkpoint_engine.py:119-123 | each sender's messages come out in the order sent whoever else sends, and nobody's messages are lost |
| NixlAgent.ReadsFirstReady | verl/checkpoint_engine/nixl_checkpoint_engine.py:126-131 | the call returns after the first batch that leaves a name bound which has been sent something, with that name's first key |
| NixlAgent.WaitsUnlessReady | verl/checkpoint_engine/nixl_checkpoint_engine.py:126-131 | it waits for ever if and only if no batch does that |
| NixlAgent.ReadsAwaited | verl/checkpoint_engine/nixl_checkpoint_engine.py:126-131 | the awaited queue is the one answered from if and only if it is not empty or the first batch with any arrival lists the awaited name last; then the answer is the awaited agent's first key |
| NixlAgent.SoleNotifier | verl/checkpoint_engine/nixl_checkpoint_engine.py:125-131 | with one notifier its keys are returned in the order sent, none lost |
| NixlAgent.SecondNotifierMisleads | verl/checkpoint_engine/nixl_checkpoint_engine.py:128-131 | a second notifier in one batch makes the call return the wrong agent's key |
| NixlSteps.StartKeeps | verl/checkpoint_engine/nixl_checkpoint_engine.py:355-362 | the start of both coroutines satisfies the invariant |
| NixlSteps.StepKeeps | verl/checkpoint_engine/nixl_checkpoint_engine.py:355-492 | every step of any rank keeps the invariant over the whole chain |
| NixlSteps.RunKeeps | verl/checkpoint_engine/nixl_checkpoint_engine.py:355-492 | so does every run |
| NixlSafety.Delivery | verl/checkpoint_engine/nixl_checkpoint_engine.py:420-492 | for every chain length, interleaving and moment a receiver has yielded a prefix of what rank 0 was given; when it is done, exactly that, if and only if no bucket repeats a name |
| NixlSafety.AssertionsHold | verl/checkpoint_engine/nixl_checkpoint_engine.py:158-204 | no assertion of the handshake ever fails; only the size assertion of rank 0 can, and rank 0 finishes only if all tensors fit, having offered every bucket |
| NixlSafety.OversizedTensorCrashes | verl/checkpoint_engine/nixl_checkpoint_engine.py:389-391 | a run in which rank 0 stops at the size assertion |
| NixlSafety.OneOfferPerLink | verl/checkpoint_engine/nixl_checkpoint_engine.py:147-165 | on each link an outstanding offer is exactly one of an unread message, a running read or an untaken notification; without one there is none of them |
| NixlSafety.MessagesCarryOwnKey | verl/checkpoint_engine/nixl_checkpoint_engine.py:158-199 | a message in transit carries its sender's own key and descriptors, although forwarded dictionaries are merged last |
| NixlSafety.RebindingHarmless | verl/checkpoint_engine/nixl_checkpoint_engine.py:125-131 | a waiting rank always looks at its successor's queue and the key it takes is the one it waits for |
| NixlSafety.OnlyWrittenChange | verl/checkpoint_engine/nixl_checkpoint_engine.py:355-492 | no step changes a buffer other than the one it packs or reads into |
| NixlSafety.RaceFree | verl/checkpoint_engine/nixl_checkpoint_engine.py:368-471 | neither packing nor a read ever writes to a buffer that is on offer or shown to a consumer |
| NixlSafety.ViewIntact | verl/checkpoint_engine/nixl_checkpoint_engine.py:454-458 | a yielded view shows the yielded tensor until the generator is resumed |
| NixlSafety.OutBufStays | verl/checkpoint_engine/nixl_checkpoint_engine.py:383-385 | while an offer is outstanding it stays in the same physical buffer |
| NixlSafety.OfferStableStep | verl/checkpoint_engine/nixl_checkpoint_engine.py:376-387 | a step leaves the bytes of an outstanding offer alone |
| NixlSafety.OfferStable | verl/checkpoint_engine/nixl_checkpoint_engine.py:372-410 | from the offer until its notification is taken the buffer's bytes do not change, over any stretch of a run |
| NixlSafety.BoundedLag | verl/checkpoint_engine/nixl_checkpoint_engine.py:437-471 | no rank completes more than two reads beyond its successor; rank 0 is at most one bucket ahead of what rank 1 began to read |
| NixlLiveness.NoDeadlock | verl/checkpoint_engine/nixl_checkpoint_engine.py:355-492 | while some rank is not done, some step is possible |
| NixlLiveness.StepSmaller | verl/checkpoint_engine/nixl_checkpoint_engine.py:355-492 | every step makes a measure over ranks, buckets and phases smaller |
| NixlLiveness.RunMeasure | verl/checkpoint_engine/nixl_checkpoint_engine.py:355-492 | after j steps the measure has dropped by at least j |
| NixlLiveness.TransferSucceeds | verl/checkpoint_engine/nixl_checkpoint_engine.py:355-492 | no run is longer than the start measure; a run that cannot go on has every rank done and every receiver with all buckets if and only if all tensors fit, and with exactly the weights if and only if, besides, no bucket repeats a name |
| NcclProofs.StepKeeps | verl/checkpoint_engine/nccl_checkpoint_engine.py:219-339 | every step of a coroutine or broadcast thread keeps the invariant |
| NcclProofs.RunKeeps | verl/checkpoint_engine/nccl_checkpoint_engine.py:219-339 | so does every run |
| NcclTheorems.Delivery | verl/checkpoint_engine/nccl_checkpoint_engine.py:287-339 | a receiver has yielded a prefix of what was sent, and exactly that when done, if and only if no bucket repeats a name |
| NcclTheorems.BroadcastsAgree | verl/checkpoint_engine/nccl_checkpoint_engine.py:71-81 | receivers stay within one broadcast of rank 0, and all ranks end with one broadcast per bucket |
| NcclTheorems.ArrivalIsTheBucket | verl/checkpoint_engine/nccl_checkpoint_engine.py:71-81 | the k-th broadcast hands every receiver the k-th bucket with its own metadata |
| NcclTheorems.FlightUndisturbed | verl/checkpoint_engine/nccl_checkpoint_engine.py:237-261 | a buffer in flight is neither packed into nor shown to a consumer |
| NcclTheorems.ViewIntact | verl/checkpoint_engine/nccl_checkpoint_engine.py:319-323 | a yielded view shows the yielded tensor |
| NcclTheorems.NoDeadlock | verl/checkpoint_engine/nccl_checkpoint_engine.py:219-339 | while some rank is not done, some step is possible |
| NcclTheorems.StepSmaller | verl/checkpoint_engine/nccl_checkpoint_engine.py:219-339 | every step makes a measure smaller |
| NcclTheorems.TransferSucceeds | verl/checkpoint_engine/nccl_checkpoint_engine.py:219-339 | no run is longer than the start measure; a run that cannot go on has every rank done after one broadcast per bucket and every receiver with all buckets if and only if all tensors fit, and with exactly the weights if and only if, besides, no bucket repeats a name |
| NcclTheorems.AssertionsHold | verl/checkpoint_engine/nccl_checkpoint_engine.py:251-253 | only the size assertion can fail, and rank 0 finishes only if all tensors fit |
| NcclTheorems.OversizedTensorCrashes | verl/checkpoint_engine/nccl_checkpoint_engine.py:251-253 | a run in which rank 0 stops at the size assertion |
| RowTable.SliceIsSelect | verl/protocol.py:686-730 | a slice is the selection of its index range, column by column |
| RowTable.SelectSelect | verl/protocol.py:646-684 | selecting from a selection selects the composed indices |
| RowTable.RepeatIsSelect | verl/protocol.py:1068-1110 | interleaved repetition selects row j div n for row j |
| ConcatColumns.FoldColIsFlat | verl/protocol.py:968-1022 | a numpy column folded pairwise is the flat column if and only if no part is misfilled |
| ConcatColumns.FoldTensorIsFlat | verl/protocol.py:944-962 | a tensor column folded pairwise is the flat column, failures included |
| ConcatBatches.FoldIsFlat | recipe/dapo/dapo_ray_trainer_for_tar.py:389 | folding whole batches pairwise equals one concatenation, result or error, if and only if the shapes disagree or no numpy column is misfilled |
| ConcatBatches.OneDtypeFoldIsFlat | verl/protocol.py:944-1022 | with one dtype per key the two always agree |
| ConcatBatches.MixedDtypesDiffer | verl/protocol.py:982-1003 | three batches for which they do not |
| ConcatBatches.ConcatAligned | verl/protocol.py:944-1022 | the result is aligned, has the union of the keys and the summed length |
| ConcatBatches.TensorProvenance | verl/protocol.py:944-962 | a part's tensor rows sit unchanged in its segment, zero rows of the same width where it lacks the key |
| ConcatBatches.ArrayProvenance | verl/protocol.py:968-1022 | a part's numpy rows sit unchanged in its segment; where it lacks the key there is NaN if the first batch that has the key is floating, else None; the result is floating if and only if every batch that has the key is |
| ConcatBatches.ConcatFails | verl/protocol.py:928-966 | concatenation fails exactly on an empty list and on two batches with rows of different width under one key |
| ConcatBatches.FoldProvenance | recipe/dapo/dapo_ray_trainer_for_tar.py:389 | however many batches are joined pairwise, every column of each sits unchanged in its own segment of the result |
| ConcatBatches.ConcatSelections | verl/protocol.py:944-1022 | concatenating selections of one batch selects the joined indices |
| Dispatch.FindTensor | verl/protocol.py:951 | finds the first batch that has the key |
| Dispatch.ConcatTensorColumn | verl/protocol.py:948-962 | the loop over the batches computes the flat tensor column or the shape error |
| Dispatch.ConcatArrayColumn | verl/protocol.py:972-1022 | the loop over the batches computes the flat numpy column |
| Dispatch.Concat | verl/protocol.py:928-1022 | the key-by-key loops, in any key order, compute the flat concatenation or its error |
| Dispatch.PaddingParts | verl/protocol.py:86-91 | the padding loop ends, and its parts concatenate to the batch continued cyclically |
| Dispatch.PadToDivisor | verl/protocol.py:73-98 | padded row i is row i mod len, the pad is smaller than the divisor and makes the length divisible; an empty batch stays |
| Dispatch.Chunk | verl/protocol.py:875-914 | succeeds if and only if the chunks divide the length, with equal consecutive blocks |
| Dispatch.DispatchRoundTrip | verl/protocol.py:73-105 | pad, chunk, any row-wise worker, concatenate, unpad equals the worker on the original batch |
| GroupFilter.PositiveSpread | recipe/dapo/dapo_ray_trainer_for_tar.py:359-367 | the deviation is positive exactly when the values are not all equal |
| GroupFilter.CollectValues | recipe/dapo/dapo_ray_trainer_for_tar.py:347-357 | collects every prompt's values in row order, prompts in order of first appearance |
| GroupFilter.FilterGroups | recipe/dapo/dapo_ray_trainer_for_tar.py:347-373 | the three loops compute the kept prompts and their rows in order |
| GroupFilter.FilterKeepsGroups | recipe/dapo/dapo_ray_trainer_for_tar.py:354-373 | on rows in groups the filter keeps whole groups, exactly those whose own values pass, and counts them right |
| GroupedRows.FilterGrouped | recipe/dapo/dapo_ray_trainer_for_tar.py:363-388 | the kept rows come in complete groups of n, every one with differing values or n = 1 |
| GroupedRows.ConcatComplete | recipe/dapo/dapo_ray_trainer_for_tar.py:389 | joining batches of different prompts keeps groups complete and adds their sizes |
| GroupedRows.TakeComplete | recipe/dapo/dapo_ray_trainer_for_tar.py:408-409 | truncating to a multiple of n splits no group |
| DapoRun.MetricBatch | recipe/dapo/dapo_ray_trainer_for_tar.py:220-353 | after labelling, repeating, uniting and scoring, rows come in groups of n by fresh uid, with a metric column |
| DapoRun.FilterKeepsWholeGroups | recipe/dapo/dapo_ray_trainer_for_tar.py:354-388 | filtering a generation batch leaves exactly the passing groups, whole and in order, kept prompts times n rows |
| DapoRun.StepKeeps | recipe/dapo/dapo_ray_trainer_for_tar.py:320-409 | an iteration keeps the carried batch in order, and an update gets exactly the configured number of complete groups within the generation limit |
| DapoSafety.RunSafe | recipe/dapo/dapo_ray_trainer_for_tar.py:320-516 | over every run: at each loop head numPrompt * n rows of complete groups (none after a reset); every update has exactly train_batch_size complete, mixed groups from at most max_num_gen_batches batches |
| DapoSafety.RunRows | recipe/dapo/dapo_ray_trainer_for_tar.py:388-409 | every update is the truncated concatenation of what the generation batches since the previous update left, in generation order |
| DapoSafety.RunCounts | recipe/dapo/dapo_ray_trainer_for_tar.py:117-530 | gen_steps minus global_steps grows by one per `continue` and nothing else; one global step per update but the last; the configured total is not passed |
| DapoSafety.RunStopped | recipe/dapo/dapo_ray_trainer_for_tar.py:401-526 | after an error or the last step no further data is used |
| DapoDecisions.RunDecides | recipe/dapo/dapo_ray_trainer_for_tar.py:389-409 | every outcome of every run: an error of the new batch is passed on; else the batches left since the last update are joined, and the loop fails if joining does, updates if and only if they have train_batch_size * n rows, goes on if and only if they have fewer and the limit allows another batch, and gives up otherwise |
| DapoDecisions.RunUnfiltered | recipe/dapo/dapo_ray_trainer_for_tar.py:320-321 | with filtering off every generation batch is one update, whole, or raises its error |
| DapoContent.NewBatchColumns | recipe/dapo/dapo_ray_trainer_for_tar.py:220-305 | a new batch fails if and only if the rollout has other sizes than n rows for each prompt or changes a prompt column; else every column is the rewards', the outputs' or the prompts' repeated, in this order of preference |
| DapoContent.MetricColumn | recipe/dapo/dapo_ray_trainer_for_tar.py:325-344 | which column each metric name reads, and that nothing else of the batch changes |
| DapoContent.UpdateRowSource | recipe/dapo/dapo_ray_trainer_for_tar.py:354-409 | row x of an update is, in every column, one known rollout of one passing prompt of one generation batch since the last update, taken batch by batch, prompt by prompt, rollout by rollout |
| DapoTrainer.FilterBatch | recipe/dapo/dapo_ray_trainer_for_tar.py:354-388 | the loops compute the filtered batch and the number of kept prompts |
| DapoTrainer.Trainer.Join | recipe/dapo/dapo_ray_trainer_for_tar.py:388-389 | the carried batch stays the pairwise concatenation of the pool, or concatenation fails |
| DapoTrainer.Trainer.Gather | recipe/dapo/dapo_ray_trainer_for_tar.py:389-409 | joins, then continues, raises or truncates and updates, exactly as specified |
| DapoTrainer.Trainer.Finish | recipe/dapo/dapo_ray_trainer_for_tar.py:513-530 | resets the round and advances both counters unless it was the last step |
| DapoTrainer.Trainer.Step | recipe/dapo/dapo_ray_trainer_for_tar.py:147-530 | one iteration on the mutable state is one step of the specified machine |
| DapoTrainer.Trainer.Fit | recipe/dapo/dapo_ray_trainer_for_tar.py:94-148 | the nested loops over epochs and batches produce the specified run; the carried batch survives an epoch's end |
| ImageZoom.ValidateBbox | verl/tools/image_zoom_in_tool.py:181-203 | true exactly for boxes with positive sides whose lengths differ by at most a factor of 100 |
| ImageZoom.TargetSize | verl/tools/image_zoom_in_tool.py:239-258 | the scale-up and the two scale-downs amount to one common factor: the least of 28 / smaller side and the two image ratios |
| ImageZoom.Grow | verl/tools/image_zoom_in_tool.py:235-277 | centring and the four shifts compute the grown box of `SmallBoxResized`, rounded outwards |
| ImageZoom.MaybeResizeBbox | verl/tools/image_zoom_in_tool.py:205-297 | the successive reassignments compute the closed form `Resized` |
| ImageZoom.GrownFits | verl/tools/image_zoom_in_tool.py:242-274 | before rounding: one factor of at least 1 for both sides, inside the image, around the clamped box |
| ImageZoom.GrownAspect | verl/tools/image_zoom_in_tool.py:242-258 | the aspect ratio is kept through both scale-downs |
| ImageZoom.SmallBoxResized | verl/tools/image_zoom_in_tool.py:221-297 | the part of a small box in the image grows by one factor about its own centre, shifted only to stay in the image, to a shorter side of 28 or until a side fills the image; the result is that one box rounded outwards, or None if a side is then below 28 or the ratio above 100 |
| ImageZoom.GrowthUnique | verl/tools/image_zoom_in_tool.py:235-274 | there is one such factor and one such box |
| ImageZoom.ResultIsGood | verl/tools/image_zoom_in_tool.py:279-297 | a result lies in the image, contains the clamped request, has floored sides of at least 28 and aspect ratio at most 100 |
| ImageZoom.LargeStays | verl/tools/image_zoom_in_tool.py:232-297 | a valid box that is not small is always returned as it is |
| ImageZoom.Idempotent | verl/tools/image_zoom_in_tool.py:205-297 | resizing a result changes nothing |
| ImageZoom.RoomySucceeds | verl/tools/image_zoom_in_tool.py:286-295 | when no shrinking is needed the size check never rejects; the result is None if and only if the input tips: on the pixel grid its longer side spreads over more than 2800 pixels and its shorter one starts on a whole pixel |
| ImageZoom.SlackSucceeds | verl/tools/image_zoom_in_tool.py:279-297 | without shrinking, an aspect ratio of at most 2799 / 28 always succeeds |
| ImageZoom.SlackIsSharp | verl/tools/image_zoom_in_tool.py:276-285 | for every larger ratio up to 100 some valid box with room to grow is rejected |
| ImageZoom.CrampedFails | verl/tools/image_zoom_in_tool.py:246-295 | if the image lets the smaller side grow to 26 at most, the box is always rejected |
| ImageZoom.RoundingRejects | verl/tools/image_zoom_in_tool.py:276-285 | a valid box with room to grow that rounding gets rejected, and that is accepted a fifth of a pixel higher |
| PipelineShards.GetDynamicPipelineShards | verl/model_merger/megatron_model_merger.py:57-98 | the search, errors included, finds the closed form |
| PipelineShards.FoundIsPlan | verl/model_merger/megatron_model_merger.py:95-98 | the result has one positive entry per rank and sums to the layers |
| PipelineShards.FoundHasShape | verl/model_merger/megatron_model_merger.py:81-94 | the middle entries are ceil(layers / ranks), the ends positive and no larger |
| PipelineShards.SmallerHalfFirst | verl/model_merger/megatron_model_merger.py:75-94 | the first rank gets the smaller half of what the ranks between the ends leave, the last one at most one layer more |
| PipelineShards.FoundIfPossible | verl/model_merger/megatron_model_merger.py:81-98 | if any plan with equal middle entries and positive, no larger ends exists, the search succeeds, and with the least spread of all of them |
| PipelineShards.AsUniformAsPossible | verl/model_merger/megatron_model_merger.py:64-66 | the result is as uniform as any plan if and only if there are at most two ranks or the layers fall at most two short of equal shares |
| PipelineShards.NineOnFour | verl/model_merger/megatron_model_merger.py:64-66 | nine layers on four ranks give 1, 3, 3, 2 although 3, 2, 2, 2 is more uniform |
| PipelineShards.FiveOnFour | verl/model_merger/megatron_model_merger.py:95-96 | five layers on four ranks give no plan although 2, 1, 1, 1 is one |
| QkvSplit.SplitChunks | verl/model_merger/megatron_model_merger.py:343-354 | the loop collects each kind, or fails if and only if some chunk has another length than the three parts |
| QkvSplit.SplitQkv | verl/model_merger/megatron_model_merger.py:330-354 | the code computes the split into blocks, or its first failing check |
| QkvSplit.ChunksFit | verl/model_merger/megatron_model_merger.py:342-349 | the chunks have the expected sizes if and only if the key-value heads divide the rows of one kind, and then they are the groups' blocks |
| QkvSplit.FuseAfterSplit | verl/model_merger/megatron_model_merger.py:330-354 | interleaving the three parts by group restores the fused tensor |
| QkvSplit.SplitAfterFuse | verl/model_merger/megatron_model_merger.py:330-354 | splitting a tensor fused from any three parts gives them back |
| QkvSplit.SplitPlaces | verl/model_merger/megatron_model_merger.py:342-354 | of each group's block the first rows are its queries, the next its keys, the last its values, each at the group's place in the result |
| QkvSplit.FourRowsFail | verl/model_merger/megatron_model_merger.py:334-349 | a tensor that passes both assertions and still raises |
| LayerFiles.LayersPartition | verl/model_merger/megatron_model_merger.py:360-384 | cumulative start plus local number hits every layer of the model exactly once over all ranks |
| LayerFiles.MergeModel | verl/model_merger/megatron_model_merger.py:366-387 | every layer key of a part is shifted by the layers before, prefix, suffix and keys without a layer stay, and the highest local layer is found |
| LayerFiles.MergeStateDicts | verl/model_merger/megatron_model_merger.py:358-420 | part i is shifted by the start plus what the earlier parts handled, and nothing but layer numbers changes |
| LayerFiles.PartsInSequence | verl/model_merger/megatron_model_merger.py:366-418 | parts with the layers 0 to n[i] are numbered one directly behind the other |
| LayerFiles.RankLayers | verl/model_merger/megatron_model_merger.py:360-385 | a rank's keys get exactly the layer numbers that belong to that rank |
| LayerFiles.SectionBounds | verl/model_merger/megatron_model_merger.py:440-445 | the sections of the keys are consecutive, cover all keys and differ in length by at most one |
| LayerFiles.SaveRank | verl/model_merger/megatron_model_merger.py:428-457 | a rank writes exactly the files of its layers, the i-th holding the i-th section of its keys; each key is in exactly one, the one its weight map names; elements are counted once |
| LayerFiles.FilesPartition | verl/model_merger/megatron_model_merger.py:428-453 | the file numbers 1 to the total are divided among the ranks without collision, each going to the owner of its layer |
| LayerFiles.WeightMapNamesTheFile | verl/model_merger/megatron_model_merger.py:463-475 | the merged map names the one file that holds rank r's key if and only if no later rank has that key |
| LayerFiles.SharedKeyOverwritten | verl/model_merger/megatron_model_merger.py:463-465 | two ranks saving one key: the map names only the second one's file |
| LayerFiles.FoundShardsCover | verl/model_merger/megatron_model_merger.py:425-453 | for the plan found by the search the ranks' layers are exactly the model's and their files exactly those numbered 1 to the total, one for each layer below 30 layers and two otherwise |
| EosValidator.RecordedExactly | verl/trainer/fsdp_sft_trainer.py:1638-1689 | a position is recorded if and only if it is an attended end token of the subsequence that is supervised or has a supervised token within the 100 positions before it there |
| EosValidator.RecordedAscend | verl/trainer/fsdp_sft_trainer.py:1655-1689 | positions are recorded once each, in order |
| EosValidator.Clamping | verl/trainer/fsdp_sft_trainer.py:1629-1631 | bounds inside the row are kept; others are pulled inside, ending up on the last token if they start behind the row |
| EosValidator.Validator.LooksBack | verl/trainer/fsdp_sft_trainer.py:1672-1684 | the backward search finds a supervised token exactly if there is one |
| EosValidator.Validator.EosPositions | verl/trainer/fsdp_sft_trainer.py:1655-1689 | the loop over the attended tokens records exactly the assistant's end tokens |
| EosValidator.Validator.CountEos | verl/trainer/fsdp_sft_trainer.py:1695-1737 | the counters and the issue of a subsequence with recorded end tokens, as `EosReport.SubseqShare` reads them off the tokens |
| EosValidator.Validator.CheckSubseq | verl/trainer/fsdp_sft_trainer.py:1622-1767 | one subsequence: passed over, without attended tokens, with or without end tokens |
| EosValidator.Validator.CheckPack | verl/trainer/fsdp_sft_trainer.py:1595-1622 | one pack: missing bounds, no subsequence, or all its subsequences |
| EosValidator.Validator.Validate | verl/trainer/fsdp_sft_trainer.py:1551-1769 | the nested loops build the specified report; nothing is validated without an end token id or with bounds of an unknown kind |
| EosValidator.ReportBalances | verl/trainer/fsdp_sft_trainer.py:1565-1769 | found = supervised + unsupervised; with-EOS = all-supervised + some-unsupervised; with-EOS + no-EOS + passed-over = total |
| EosValidator.CleanReport | verl/trainer/fsdp_sft_trainer.py:1575-1769 | no issue is listed if and only if every pack has bounds and each non-empty subsequence has recorded end tokens, all supervised |
| EosReport.ReportCounts | verl/trainer/fsdp_sft_trainer.py:1692-1757 | the counters are the sizes of sets read off the tokens: end tokens by pack, subsequence and position, those with loss, those without; subsequences with such tokens, with all supervised, with one missed, and with attended tokens but none of them |
| EosReport.ReportIssues | verl/trainer/fsdp_sft_trainer.py:1607-1767 | the issues are exactly those the tokens call for, once each, by pack and subsequence: the missed positions in ascending order, the last attended token where no end token is, missing bounds, no attended tokens |
| EosReport.ReportTotal | verl/trainer/fsdp_sft_trainer.py:1600-1619 | the total counts every subsequence of every pack with bounds |
| EosReport.SubseqShare | verl/trainer/fsdp_sft_trainer.py:1622-1767 | a subsequence adds the numbers of its end tokens of each kind, its one complaint if it has one, and nothing else |
| RankAgreement.SortKeys | verl/trainer/fsdp_sft_trainer.py:2724-2728 | whatever order the set is walked in, the result lists it in increasing order |
| RankAgreement.ListingUnique | verl/trainer/fsdp_sft_trainer.py:2728 | there is only one such listing, so all ranks get the same |
| RankAgreement.RankStep.Accumulate | verl/trainer/fsdp_sft_trainer.py:2612-2622 | a view type is there if and only if some micro-batch has it, with the total of the losses of all that have it |
| RankAgreement.LossIsTotal | verl/trainer/fsdp_sft_trainer.py:2612-2622 | the accumulated loss of a view type is the total of its micro-batch losses in order |
| RankAgreement.RankStep.MergeKeys | verl/trainer/fsdp_sft_trainer.py:2724-2731 | the gathered names sorted; view types not seen here get a zero entry |
| RankAgreement.RankStep.ReduceLosses | verl/trainer/fsdp_sft_trainer.py:2748-2756 | the reductions issued, in order, and the reduced entries stored |
| RankAgreement.VoteIsUnanimous | verl/trainer/fsdp_sft_trainer.py:2660-2687 | the reduced vote lets a rank step if and only if every rank's gradient norm is finite |
| RankAgreement.MetricIsMean | verl/trainer/fsdp_sft_trainer.py:2781-2788 | summed loss over summed validity is the mean over the ranks that saw the view type |
| RankAgreement.MeanOverMicros | verl/trainer/fsdp_sft_trainer.py:2612-2622 | the mean is the total of the losses of all micro-batches of all ranks over the number of ranks with at least one of the view type |
| RankAgreement.TrainingStep | verl/trainer/fsdp_sft_trainer.py:2660-2788 | no outcome depends on the rank: all step or all skip, all issue the same collectives in the same order, all report for every view type of any micro-batch the total of its losses over the number of ranks that saw it |

## Left out

- Transport and devices: ZeroMQ, NCCL and NIXL internals, CUDA streams, addresses and ports, timing and logs; links are reliable FIFO queues, reads complete eventually, a broadcast delivers to all.
- NcclTheorems.BroadcastsAgree: rests on a rendezvous broadcast, in which the root's call returns only after every receiver has the data; a broadcast whose root may return earlier is not modelled.
- Failed transfers that end the process, lost PUB/SUB messages, and exceptions in object gathering.
- Trainer workers of rank -1, which only consume the weights, and process-group setup and teardown.
- Casting to the rollout dtype: tensors enter the model already cast, as bytes.
- The NIXL and NCCL transfers are proved on values, one datatype value per state, not on heap objects; the loops that write buffers in place are proved on arrays in `BucketTransfer`.
- `DataProto` without a tensor batch, `meta_info` and its merging, integer and mixed-rank numpy columns and their promotions, and nested tensors.
- `concat` also writes placeholder columns into its arguments; the model leaves its arguments alone.
- Chunking with auto-padding enabled or of an empty batch, where library chunking may return fewer pieces.
- Dispatch.DispatchRoundTrip: a worker that looks at other rows of its chunk is not covered, because the promise itself is about row-wise workers.
- Floating-point rounding: rewards, deviations, boxes and losses are exact reals. NaN metric values, and metric values that are not numbers, are excluded by the precondition on a generation batch.
- Of the DAPO loop: generation, reward, KL, advantage and update code, the REMAX baseline, inverse batches, profiling, validation and checkpoints. What generation and reward code add to a batch is a parameter; uids are fresh; the reward code leaves the uids alone.
- DapoTrainer.Trainer.Fit: the nested loops are split into one method per loop, and the local variables of the loop are fields.
- Unreachable branches of the sources: the zero-size checks behind `left < right`, and "position out of bounds" behind an attended token.
- Reading checkpoints, renaming parameters, expert and gate-up handling, and writing files of the Megatron merger; file names are represented by their number.
- `cu_seqlens` given as a two-dimensional tensor is one list per pack; a tensor with fewer rows than packs is not modelled.
- Of the SFT step: forward and backward passes, padded micro-batches, the values of the averaged losses, collectives inside the model, the NPU path, and the fallback when gathering keys fails.
- verl/trainer/fsdp_cot_trainer.py, which repeats the SFT trainer.
- Dataset scripts, tool wrappers, search and sandbox clients, registries and configuration classes: plumbing.
