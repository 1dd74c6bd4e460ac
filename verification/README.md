# Models of the sealing engine

The programs that seal Filecoin sectors spend their difficulty on scheduling, indexing and ownership of
buffers. These models keep exactly that. Hashes, field elements and curve points are integers with
arbitrary operations on them; disks, GPUs and other threads act as steps that can come at any time.
Every statement below holds for all sizes, all inputs and all interleavings that the model admits.

- **PC1** (`ring_math`, `pc1_*`): the labelling engine. Orchestrator, disks, coordinators and hashers
  share ring buffers. The engine is a step system over one shared state, with one step for each action
  of a thread or a disk; an invariant is kept by every step. The main result is that every label any
  hasher computes is the one of the sequential definition of the stacked graph, and that all of them end
  up on disk. `pc1_engine` has the threads' own loops, as methods that change the shared state, with all
  other threads running in between, and states which steps each loop takes and where it may stop or wait.
- **The lock-free FIFO** (`mt_fifo`): one load or store of producer and consumer at a time.
- **The Groth16 split** (`msm_math`, `bit_words`, `groth16_*`): two passes over the assignments turn each
  multi-scalar product into additions and a shorter product. For every circuit and query the result is
  the full product.
- **Trees** (`tree_rows`, `tree_chunks`, `tree_builder`): the sequential and the chunked builder store
  the same file and return the same root.
- **PC2** (`pc2_*`): the depth-first scheduler with its buffer pool, and two schedulers on one pool; the
  gather indices of the kernels and hashing in place; the streams' state machine with operations that run
  later; and the writes of all streams and the CPU. The main result is that for every interleaving of
  streams, reader, GPU, CPU and disk each tree file ends up as the builder stores it, and that a run ends.
- **C1** (`tree_path`, `tree_proof`, `label_order`, `c1_proofs`, `c1_readers`, `c1_files`,
  `c1_output`): inclusion
  paths fold to the root, the labels of a proof are those that were hashed, proofs and whole outputs are
  read back from their bytes, and the outputs have their declared sizes and can be combined.
- **NVMe** (`nvme_map`): pages of different batches never share a block.

`dafny verify dfyconfig.toml` checks everything.

Some properties hold only under a condition, which is stated both ways or with an input that fails:

- a sequential tree build returns a root only with more levels than discarded rows, and a chunked one only
  if every chunk has a stored row (`BuildTree`, `BuildTreeParallel`, `TopStart`; `OneLevelDiscarded` and
  `EightMiBOnManyThreads` fail, `EightMiB` just does not);
- a chunked build told to discard nothing needs a builder that discards nothing (`NoDiscardStart`);
- the declared size of a tree proof is right for the types 0 and 1 only (`TreeSizeRight`), and that of an
  output only if something was asked for (`EndsAtProofSize`);
- a query with no points at all gets whatever the GPU buckets held before (`ExecuteBatchAddition`;
  `EmptyQuery` fails);
- PC2's CPU gets the streams' roots only if a stream reads more than one batch (`HashGpu`; `StaleResults`
  fails), and a tree R without discarded rows lacks its first row (`FilesRight`; `FirstRowKept`);
- PC2's pools are complete only for the first partition: every reset loses two buffers (`RestFree`).

## Model

| member | source | states |
|---|---|---|
| Pc1Runs.HashesSequentially | pc1/coordinator_t.hpp:164-240 | In every run, for every interleaving, the nth hash of a hasher is of node n, its value is the sequential label of node n, and that label is in the node's place afterwards. |
| Pc1Graph.InputLengths | pc1/coordinator_t.hpp:198-204 | The sequential definition hashes no labels at node 0 of a layer, six in the first layer and fourteen above. |
| Pc1Machine.HashInputLengths | pc1/coordinator_t.hpp:189-204 | So does a hasher: the pointers set up for it are none, six or fourteen. |
| Pc1Runs.FinalDisk | pc1/orchestrator_t.hpp:563-746 | Once the written tail has reached the end, every page of every layer is on disk and every label on it is the sequential one. |
| Pc1Runs.PointerHolds | pc1/orchestrator_t.hpp:364-410 | A parent pointer into the node buffer leads to that parent's label for every hasher that is past the parent and not past the child, released or not; parent and child are less than the buffer apart. |
| Pc1Runs.ReadAfterWrite | pc1/orchestrator_t.hpp:415-426 | A disk read is only outstanding for a node whose page write has completed, and the disk has that page with the right labels. |
| Pc1Runs.HashAfterWrite | pc1/coordinator_t.hpp:393-412 | A hasher hashes into a node-buffer entry only when that entry's previous page is on disk and no longer with it; its buffer index is the node's entry. |
| Pc1Runs.FillingIsFree | pc1/coordinator_t.hpp:543-568 | The batch entry a coordinator fills is not one that any of its hashers still has to work on. |
| Pc1Runs.DoneCounts | pc1/coordinator_t.hpp:414-416 | The done count of every live batch entry is the number of hashers past that batch. |
| Pc1Runs.CursorsOrdered | pc1/orchestrator_t.hpp:641-747 | The cursors stay in order from released tail to issued node, every ring index is its cursor modulo the ring, the outstanding writes are the pages between the two write cursors, and the write check and the span check cannot fail. |
| Pc1Runs.CacheCheck | pc1/orchestrator_t.hpp:375-385 | The asserted bound on a cached parent's offset holds, and the computed entry is the parent's entry. |
| Pc1Runs.SyncsConserved | pc1/orchestrator_t.hpp:402-409 | For every sync batch, references minus consumed counts are the pointers of live parent entries into it. |
| Pc1Runs.RunInv | pc1/orchestrator_t.hpp:563-738 | Every state of every run of steps of orchestrator, disks, coordinators and hashers satisfies the invariant. |
| Pc1Hashers.HashedRight | pc1/coordinator_t.hpp:176-204 | What the hasher is about to compute is the sequential label of its node, whether its inputs come by pointer or by copy. |
| Pc1Coordinators.FarParentHashed | pc1/coordinator_t.hpp:499-516 | A parent that is copied from the node buffer is already hashed by all of the coordinator's hashers. |
| Pc1Coordinators.CopiedRight | pc1/coordinator_t.hpp:499-516 | Every copied parent label of a node is the sequential label of that parent. |
| Pc1Disk.ReadsWritten | pc1/orchestrator_t.hpp:415-426 | Every pending read lies below the written tail, so its page is on disk and right. |
| Pc1Issue.CacheOffset | pc1/orchestrator_t.hpp:243-249 | For a cacheable parent the unsigned offset from the cache minimum does not wrap, stays below the buffered nodes, and leads to the parent's entry. |
| Pc1Engine.Engine.Process | pc1/orchestrator_t.hpp:516-747 | The main loop, with all other threads running in between, takes only steps the step system allows; its runtime checks never fire, and when it ends by itself every label is on disk and right. |
| Pc1Engine.Engine.ReadBatch | pc1/orchestrator_t.hpp:156-474 | Issues the most whole pages, at most two, that fit into read FIFO, node buffer, parent buffer and remaining nodes, one more fitting nowhere: the thread's own steps are one reservation and one issue per node, and its cache check never fails. |
| Pc1Engine.Engine.WriteNodes | pc1/orchestrator_t.hpp:479-514 | Submits at most eight pages and stops short only when the FIFO is full or the page to write next is not below that of the least hashed node; the assertion that the entry's valid count is zero never fails. |
| Pc1Engine.Engine.LoadProgress | pc1/orchestrator_t.hpp:594-603 | Loads what every coordinator has published, one load each at a moment of its own; the least value loaded becomes the least hashed node, and with the written tail the least node to keep. |
| Pc1Engine.Engine.ReleaseParents | pc1/orchestrator_t.hpp:661-677 | Releases at most eight parent entries and stops short only at the least hashed node. |
| Pc1Engine.Engine.AdvanceWrites | pc1/orchestrator_t.hpp:684-694 | Moves the written tail at most eight pages and stops short only when it has caught up with the submitted pages or the entry of its own page has no completed write. |
| Pc1Engine.Engine.ReleaseNodes | pc1/orchestrator_t.hpp:702-731 | Releases at most eight nodes and stops short only at one of the two cursors, with enough room, or at the first entry of a sync batch whose references are not all consumed. |
| Pc1Engine.Engine.Turn | pc1/orchestrator_t.hpp:563-746 | One turn of the main loop is, in this order, all the loads, a batch of the pages that fit, submissions, parent releases, written pages and node releases, each section going on until its share is done or there is nothing left for it. |
| Pc1Engine.Engine.CopyNext | pc1/coordinator_t.hpp:455-516 | A coordinator copies the next node exactly if all its parents have been read. |
| Pc1Engine.Engine.RunCoordinator | pc1/coordinator_t.hpp:429-620 | When it ends, the thread's own steps are, node by node, a copy; behind every full batch the oldest one taken back once the ring is full, the next one opened and every fourth time a report; then the rest taken back and a last report. It gives up only after as many waits as it was given, each at a moment when it had nothing to do; its assertion never fails. |
| Pc1Engine.Engine.RunHasher | pc1/coordinator_t.hpp:306-418 | When it ends every node is hashed, and but for looking at what was handed on the thread's own steps are whole batches, a hash per node and then a report; it gives up only after as many looks as it was given that found nothing. |
| Pc1Engine.Engine.HashBatch | pc1/coordinator_t.hpp:393-416 | The thread's own steps are one hash for each node of the batch and then one report that the batch is done. |
| Pc1Engine.OthersLeave | pc1/coordinator_t.hpp:345-618 | No thread changes the variables another thread treats as its own: the orchestrator's cursors, rings and counters, a coordinator's position and ring, a hasher's position. |
| Pc1Choices.ParentIssued | pc1/orchestrator_t.hpp:243-420 | A parent is read from disk exactly if it lies below the written tail and less than a parent ring's worth behind the oldest page of the buffer; otherwise its pointer leads into the buffer, passed on as it is if the parent is nearer than the coordinators' batches, and counted as a reference of its sync batch if not. |
| Pc1Choices.CopiedChoice | pc1/coordinator_t.hpp:497-516 | A coordinator passes exactly the pointers marked local on to its hashers and copies the labels of all others. |
| Pc1Choices.RequestsComplete | pc1/node_rw_t.hpp:98-103 | Whatever was requested of the disks and is outstanding can complete at any time. |
| RingMath.SlotNext | nvme/ring_t.hpp:472-475 | One step of incr takes the ring index of a count to the index of the next count, and starts a new turn exactly behind the last entry. |
| RingMath.SlotAdd | nvme/ring_t.hpp:490-496 | Adding an offset of at most one turn to a ring index gives the index of the sum. |
| MtFifo.FirstInFirstOut | nvme/ring_t.hpp:53-89 | In every interleaving of single loads and stores, what was dequeued is a prefix of what was enqueued, in order, and never more than the capacity is inside. |
| MtFifo.StepRefines | nvme/ring_t.hpp:53-89 | The store to head appends to the queue below its capacity, the store to tail removes and returns the first element, and no other load or store changes the queue. |
| MtFifo.NoRace | nvme/ring_t.hpp:68-80 | No slot is read while it is being written. |
| MtFifo.SizeIsQueue | nvme/ring_t.hpp:110-128 | size() of the current head and tail is the length of the queue. |
| MtFifo.ConsumerDecides | nvme/ring_t.hpp:77-89 | Whatever the producer does between the two loads and the check, the consumer is turned away exactly if everything sent was received when it loaded head. |
| MtFifo.ProducerDecides | nvme/ring_t.hpp:65-75 | Whatever the consumer does between the load of tail and the check, the producer is turned away exactly if the queue was full at that load. |
| MtFifo.Dequeued | nvme/ring_t.hpp:77-89 | A whole call of dequeue, with any steps of the producer in between, hands out the first element of the queue as it was when head was loaded, and nothing exactly if it was empty then. |
| MtFifo.Enqueued | nvme/ring_t.hpp:65-75 | A whole call of enqueue, with any steps of the consumer in between, appends the object it was called with, unless the queue was full when it loaded tail. |
| MtFifo.NeverStuck | nvme/ring_t.hpp:53-89 | Within a call either side can always take its own next step. |
| MtFifo.StepInv | nvme/ring_t.hpp:65-119 | Every single load and store keeps the FIFO's invariant, with stale loaded indices still within reach. |
| MsmMath.SplitIsWhole | c2/cuda/groth16_cuda.cu:588-655 | Over any abelian group: adding the points marked once plus multiplying the selected tail gives the whole multi-scalar product, if marks, tail and mask relate to the scalars as stated. |
| MsmMath.BitSumConcat | c2/cuda/groth16_split_msm.cu:110-124 | A marked sum can be taken batch by batch. |
| BitWords.PushBit | c2/cuda/groth16_cuda.cu:217-227 | Appending a bit through cursor, offset and word in hand writes exactly the next bit of the vector, storing full words. |
| BitWords.FlushBits | c2/cuda/groth16_cuda.cu:245-249 | The last partial word is stored, zeros behind its bits. |
| BitWords.MergeMasks | c2/cuda/groth16_cuda.cu:255-282 | The merged mask has a bit exactly where some circuit has one, and the popcount is the number of such bits. |
| Groth16Split.FirstPassInputs | c2/cuda/groth16_cuda.cu:165-196 | Every public input is marked for A and every dense one for B, with both cursors where the auxiliary part continues. |
| Groth16Split.FirstPassAux | c2/cuda/groth16_cuda.cu:198-250 | The bit vectors of L, A and B mark inputs and the scalars other than zero and one, in the order of each query. |
| Groth16Split.SecondPassInputs | c2/cuda/groth16_cuda.cu:317-365 | Inputs go to the tails whole with zero bits for batch addition, and the mask words at hand are those of the cursors. |
| Groth16Split.SplitScalar | c2/cuda/groth16_cuda.cu:393-421 | One scalar of a split query goes to bits, tail scalars and cursors as the mask says; unsplit, to the scalars alone. |
| Groth16Split.SecondPassAux | c2/cuda/groth16_cuda.cu:367-460 | The three queries are dealt with chunk by chunk, each with its own cursors, up to the last auxiliary scalar. |
| Groth16Split.SecondPass | c2/cuda/groth16_cuda.cu:308-485 | A circuit's bit vectors mark its ones past the inputs, its tails are the selected scalars with ones cleared, and circuit 0 leaves the selected bases in both groups. |
| Groth16Split.FillDone | c2/cuda/groth16_cuda.cu:468-483 | The asserted cursors are at the ends of their lists, and the lists hold exactly the selected entries in order. |
| Groth16Split.GatherAt | c2/cuda/groth16_cuda.cu:201-240 | The scalar at a set density bit is the next one of its query. |
| Groth16Msms.BatchSizeFits | c2/cuda/groth16_split_msm.cu:54-58 | Batches are whole units of 1024 points and start at whole bitmap words; eight of them cover all points, and eight that are one unit smaller do not. |
| Groth16Msms.MasksSelect | c2/cuda/groth16_cuda.cu:165-282 | The masks that all circuits are split by select the inputs, and of the rest exactly the scalars that are neither zero nor one in some circuit, in the order of each query. |
| Groth16Msms.ExecuteBatchAddition | c2/cuda/groth16_split_msm.cu:104-128 | The batches add up every marked point once, in at most eight batches; with no points at all the result is whatever the buckets held. |
| Groth16Msms.EmptyQuery | c2/cuda/groth16_split_msm.cu:104-128 | A query over the integers without points, with buckets that held 1, comes back as 1 and not as its sum 0. |
| Groth16Msms.SplitQuery | c2/cuda/groth16_cuda.cu:588-655 | For any mask covering inputs and significant scalars, the split sum of a query is the sum of scalar times point. |
| Groth16Msms.Resize | c2/cuda/groth16_cuda.cu:284-305 | A query is split exactly if at most half its points are significant, and tails and bases get the sizes the second pass fills. |
| Groth16Msms.SharesTile | c2/cuda/groth16_cuda.cu:519-524 | The GPUs' shares of the circuits follow one another, cover every circuit once and differ by at most one. |
| Groth16Msms.SumQuery | c2/cuda/groth16_cuda.cu:588-655 | Batch addition plus tail product of a query is its full product, split or not; for an empty query it is the stale buckets. |
| Groth16Msms.Prove | c2/cuda/groth16_cuda.cu:137-655 | For every circuit, L, A, B in the first group and B in the second are full multi-scalar products, for any scalars and any split decisions; the only exception is a query without points. |
| Pc2Planner.Scheduler.constructor | pc2/planner.cpp:119-143 | The stack starts with all leaves, node 0 on top, and nothing hashed. |
| Pc2Planner.Scheduler.Next | pc2/planner.cpp:145-191 | The form with a callback: each call hashes the top item and no other, lowers the nodes left by one, and returns false exactly when the root is hashed; on an empty stack it changes nothing. |
| Pc2Planner.Scheduler.Take | pc2/planner.cpp:145-191 | The form that hands the item out: it gets a buffer, its inputs are back in the pool before anything is hashed, and its parent records the buffer and joins the stack when complete. |
| Pc2Planner.Scheduler.Run | pc2/planner.cpp:210-214 | Every node is hashed exactly once and after its children, the returned buffer holds the recursive Merkle root, exactly height * (arity - 1) + 2 buffers were allocated (one for a single leaf), and all but the root's are in the pool. |
| Pc2Planner.Scheduler.IsDone | pc2/planner.cpp:193-208 | After the reduction its checks pass. |
| Pc2Planner.StepConsistent | pc2/planner.cpp:145-191 | One call keeps the depth-first invariant: which parents are partly filled, which buffers hold which digests, and that all other buffers are in the pool once. |
| Pc2Planner.Outcome | pc2/planner.cpp:193-214 | With the stack empty the only open item holds the root's buffer as its first input and null as its second, and the pool has every other buffer. |
| Pc2Tree.NeverAbovePeak | pc2/planner.cpp:73-87 | A buffer for the next node never takes the allocation above the peak. |
| Pc2Tree.ReachesPeak | pc2/planner.cpp:154-170 | The last node of the second layer needs exactly the peak. |
| Pc2Tree.Hashed | pc2/planner.cpp:172-188 | Hashing the next node in depth-first order keeps every layer less than one parent ahead of the layer above. |
| Pc2Tree.Finished | pc2/planner.cpp:190-191 | When nothing is left to take, every layer is complete. |
| TreeBuilding.TreeBuilder.Size | pc1/tree_builder.hpp:35-56 | The computed size is the number of stored nodes from the first stored row to the root. |
| TreeBuilding.HashRun | pc1/tree_builder.hpp:106-113 | A run of hashes is the row above, even when written over the row it is read from, and nothing else is touched. |
| TreeBuilding.TreeBuilder.HashLevels | pc1/tree_builder.hpp:99-126 | The stored rows end up one after the other, discarded rows share one temporary buffer, and the node in front of the cursor is the root unless every row was discarded. |
| TreeBuilding.TreeBuilder.BuildTree | pc1/tree_builder.hpp:74-126 | The sequential builder stores the rows of the tree in order and returns its root exactly if there are more levels than discarded rows, or columns; otherwise it would read in front of its buffer. |
| TreeBuilding.TreeBuilder.BuildChunk | pc1/tree_builder.hpp:152-209 | A chunk writes its piece of every stored row in its place and nothing outside its places. |
| TreeBuilding.TreeBuilder.BuildChunks | pc1/tree_builder.hpp:152-209 | Chunks in any order leave all pieces of all chunks in place. |
| TreeBuilding.TreeBuilder.BuildTreeParallel | pc1/tree_builder.hpp:131-217 | For any pool and any order of chunks, as many as the least positive power of the arity that gives each thread four: array and root are those of the sequential builder exactly if each chunk has a stored row; otherwise the merge would start in front of the buffer. |
| TreeBuilding.TreeBuilder.ChunksFor | pc1/tree_builder.hpp:145-151 | The chunks are the least positive power of the arity that is at least four times the size of the pool. |
| TreeChunks.TopLevelsExist | pc1/tree_builder.hpp:145-151 | For any arity from two on and any pool there is exactly one such power. |
| TreeFailures.EightMiB | pc1/tree_builder.hpp:131-217 | An 8 MiB sector whose tree R discards two rows, built on 128 threads, gets its root: 512 chunks are enough. |
| TreeBuilding.TreeBuilder.MergeChunks | pc1/tree_builder.hpp:211-216 | The top tree over the chunks' last row completes the file and gives the root of the whole. |
| TreeFailures.EightMiBOnManyThreads | pc1/tree_builder.hpp:131-217 | An 8 MiB sector whose tree R discards two rows, built on 129 threads: whatever the leaves and the order of the chunks, the merge would start in front of the buffer. |
| TreeFailures.OneLevelDiscarded | pc1/tree_builder.hpp:74-126 | Eight leaves with one discarded row: nothing is stored, and the root would be read in front of the buffer. |
| TreeChunks.PlacesApart | pc1/tree_builder.hpp:152-207 | No two pieces of any two chunks or rows overlap. |
| TreeChunks.PiecesMakeRow | pc1/tree_builder.hpp:192-205 | All chunks' pieces of a row make the row of the whole tree. |
| TreeChunks.TopStart | pc1/tree_builder.hpp:211-214 | The index of the merge is the place of the chunks' last row if that row is stored, and negative if not. |
| TreeChunks.NoDiscardStart | pc1/tree_builder.hpp:211-213 | Because the merge computes the size with the default, a parallel build told not to discard finds its row only if the builder discards none anyway. |
| TreeRows.RowOfChunk | pc1/tree_builder.hpp:152-209 | Rows over an equal run of leaves are runs of the rows over all leaves. |
| TreeRows.StoredOfRow | pc1/tree_builder.hpp:211-216 | A tree file can be continued from the last row it has. |
| TreeProofs.TreeProof.GetTreePaths | c1/tree_proof.hpp:302-310 | The indices are the base-arity digits of the challenge: the node's place among its siblings at every level. |
| TreeProofs.TreeProof.PerformFirstLevels | c1/tree_proof.hpp:158-225 | The levels rebuilt from the nodes around the challenge have the right siblings, for one discarded row with two levels and for two with three or more. |
| TreeProofs.TreeProof.FileLevels | c1/tree_proof.hpp:260-287 | At every stored level the siblings read from the file are those of the challenge's node. |
| TreeProofs.TreeProof.TopLevel | c1/tree_proof.hpp:289-300 | The siblings at the top of a tree over several files are the other files' roots. |
| TreeProofs.TreeProof.GenInclusionPath | c1/tree_proof.hpp:227-300 | For every challenge, one file or as many as the arity, with or without rebuilt rows, the leaf is the challenged one and folding the path gives the tree's root. |
| TreeProofs.GetTreeRNodes | c1/challenge.hpp:96-103 | The copied nodes are the leaves around the challenge that the rows which are not stored are built from. |
| TreePath.FoldClimbs | c1/tree_proof.hpp:227-300 | Folding the first elements of a right path gives the node over the challenge in the row reached. |
| TreeProofs.PathFolds | c1/tree_proof.hpp:227-300 | A path with the right element at every level folds to the root. |
| TreeProofs.LocalGroup | c1/tree_proof.hpp:260-276 | A node's siblings within its file, at the masked challenge, are its siblings in the whole tree. |
| Pc2Blocks.GatherIs | poseidon/cuda/poseidon_kernels.cu:227-233 | The kernel's pointer and index for input i of a hash run through the buffers in order, one group of a sector from each. |
| Pc2Blocks.HashPtrsRight | poseidon/cuda/poseidon_kernels.cu:210-234 | Buffers with a node's children, hashed through the gather indices, make the buffer with the node for every sector. |
| Pc2Blocks.ColumnBlockRight | poseidon/cuda/poseidon_kernels.cu:236-246 | The column kernel turns interleaved sectors into one run of column hashes per sector. |
| Pc2Blocks.HashPackedRight | poseidon/cuda/poseidon_kernels.cu:250-253 | Hashing the packed columns gives the first row of tree C for every sector. |
| Pc2Kernels.HashInPlace | poseidon/cuda/poseidon.cu:35-82 | Whatever order the threads of the kernels run in, hashing over its own buffer leaves what the packed hash makes of the old contents, each hash taken over the domain tag and then its inputs. |
| Pc2Kernels.StateLoaded | poseidon/cuda/poseidon_kernels.cu:200-262 | A hash's state starts with the domain tag, and its inputs follow in order. |
| Pc2Blocks.StridedIsPacked | poseidon/cuda/poseidon_kernels.cu:242-246 | The strided first hash of tree R reads what a packed hash would read. |
| Pc2Files.StreamBlocks | pc2/cuda/pc2.cu:899-925 | The recursive digest of every node of a stream's tree of buffers is its group of the row, for every sector. |
| Pc2Files.CpuInputRight | pc2/cuda/pc2.cu:1053-1072 | The CPU finds the inputs of its leaves in the stashed buffers of the streams. |
| Pc2Files.CpuNodes | pc2/cuda/pc2.cu:1050-1082 | The CPU's nodes are the rows above the streams' last one. |
| Pc2Pair.PairTaken | pc2/planner.cpp:145-191 | When the schedulers of tree C and tree R have each taken an item from their one pool, both are consistent again with no buffer held twice; no other node holds either item's buffer, tree C's is nobody's input, and tree R's is none of its own inputs. |
| Pc2Pair.PairCountAfter | pc2/planner.cpp:73-87 | Two schedulers on one pool never allocate more than 2 * peak - 1 buffers (two for a single leaf), besides those lost to earlier partitions. |
| Pc2Pair.PairEnd | pc2/planner.cpp:145-191 | After a run every node has been taken once and after its children, that bound has been reached exactly, and all buffers but the two roots' are free. |
| Pc2Pair.RestFree | pc2/cuda/pc2.cuh:142-148 | A reset drops the two root buffers: the next run has all others, and as many lost ones more. |
| Pc2Pair.LastIsRoot | pc2/cuda/pc2.cu:655-660 | The item on which the flag for the last one is set is the root, and no other. |
| Pc2Polls.Taking | pc2/cuda/pc2.cu:654-670 | After both items are handed out every held buffer but theirs still has its node's digest, and every input still has its child's, though the inputs are in the pool again. |
| Pc2Polls.ExecOk | pc2/cuda/pc2.cu:754-1006 | Whatever operation a stream's queue runs next, it reads what it should: children's digests, hashed columns or the replica; and the stream stays on its way. |
| Pc2Steps.ColumnStage | pc2/cuda/pc2.cu:754-813 | The column stage leads to hashed columns in the item's buffer and to one write of them at the computed offset. |
| Pc2Leaves.ReplicaIn | pc2/cuda/pc2.cu:834-850 | Tree R's leaves are hashed from the encoded replica, whether it was copied to the device or, without data to encode, came with the columns. |
| Pc2Leaves.LeafStage | pc2/cuda/pc2.cu:815-882 | The leaf stage hashes tree C's leaf over its columns and tree R's from the replica, and writes tree C's group alone. |
| Pc2Inner.InnerBuffers | pc2/cuda/pc2.cu:899-925 | Both hashes of an inner node read their children's digests although tree R's buffer may be one of tree C's inputs, because tree C's hash runs first. |
| Pc2Inner.InnerStage | pc2/cuda/pc2.cu:884-1006 | The inner stage writes tree C's group, tree R's only above the discarded rows, and puts both roots where the CPU will look, under the lock. |
| Pc2Steps.Waited | pc2/cuda/pc2.cu:1008-1017 | A stream goes on only when all that was asked for the item is done, and ends after the root. |
| Pc2Machine.SteppedOk | pc2/cuda/pc2.cu:649-1021 | For every interleaving of the streams: the next operation of any stream reads what it should, all streams, log, results and lock stay consistent, and results change only under the lock. |
| Pc2History.StreamEnds | pc2/cuda/pc2.cu:1008-1017 | A stream that is done has sent exactly the writes of a whole reduction, has its roots among the results, and has needed exactly the bound's number of buffers. |
| Pc2History.AllStop | pc2/cuda/pc2.cu:1022-1030 | When all streams are done every one has sent its part of the partition and the results are the roots the CPU needs, if a stream reads more than one batch. |
| Pc2Gpu.Pipeline.constructor | pc2/cuda/pc2.cu:22-127 | Tables, streams and results as the constructor makes them are consistent and at rest. |
| Pc2Gpu.Pipeline.Encode | pc2/cuda/pc2.cu:704-722 | Encoding sector by sector adds the data to the labels of exactly the sectors that have any. |
| Pc2Gpu.Pipeline.PollAll | pc2/cuda/pc2.cu:640-1021 | With room in the disk queue, data delivered and operations run, a round of polls gets some work done until all streams are done: no stream waits for ever for the lock. |
| Pc2Gpu.Pipeline.HashGpu | pc2/cuda/pc2.cu:573-1034 | Polling goes through reachable states only; when it ends all streams' writes are in the log, the roots among the results and each pool has exactly the bound's buffers; it ends within as many rounds as there are stages; with one batch per stream the results are untouched. |
| Pc2Gpu.Pipeline.HandOver | pc2/cuda/pc2.cu:366-383 | The results are handed to the CPU only after it has copied those of the partition before. |
| Pc2Gpu.Pipeline.Hash | pc2/cuda/pc2.cu:346-404 | A whole run ends with every partition complete for streams and CPU, and it does end if nothing is made to wait for ever; each partition costs each stream two buffers. |
| Pc2Gpu.FilesOfRun | pc2/cuda/pc2.cu:346-404 | After a run, in whatever order everything happened and reached the disk, each sector's tree C and tree R files are those the CPU builder stores and its roots are their top rows, if a stream reads more than one batch and, for tree R, a row is discarded. |
| Pc2Gpu.StaleResults | pc2/cuda/pc2.cu:926-963 | With one batch per stream the roots are not copied to the results: the sum of four ones would come out of the CPU as 0. |
| Pc2Cpu.HashCpu | pc2/cuda/pc2.cu:1036-1090 | The CPU's scheduler hashes every node of the top once and writes it for every sector at its offset; the roots are the sectors' roots. |
| Pc2Cpu.SectorApart | pc2/cuda/pc2.cu:1049-1082 | The element of a sector in the CPU's buffers is what a tree over that sector alone would have. |
| Pc2Logs.ExpectedTimes | pc2/cuda/pc2.cu:754-1006 | A stream's writes contain a job's as often as its node is taken. |
| Pc2Result.PartComplete | pc2/cuda/pc2.cu:649-1090 | When streams and CPU are done with a partition, the log has each node's write of each file exactly once, at its place and with its digest, and no other write. |
| Pc2Result.FilesRight | pc2/cuda/pc2.cu:649-1090 | A partition's writes in any order leave in every sector's file what the CPU builder stores for its columns or its sealed labels. |
| Pc2Result.LeavesAre | pc2/cuda/pc2.cu:670-722 | Leaf x of partition p is node p * arity^levels + x: in tree C its hashed column from layer 0 to the last, in tree R its last label with the sector's data added if it has any. |
| Pc2Result.FirstRowKept | pc2/cuda/pc2.cu:884-885 | Without discarded rows the first row of tree R's file is left as it was. |
| Pc2Places.MakeAddress | pc2/cuda/pc2.cuh:14-46 | The layer offsets are the places of the rows in a file that skips the given layers. |
| Pc2Places.LayerOffsets | pc2/cuda/pc2.cu:56-71 | The table has, for every row a stream writes, the nodes that each stream has in it. |
| Pc2Places.MakePlaces | pc2/cuda/pc2.cu:35-71 | All tables of a tree, and the start of the CPU's part as the difference of two file sizes, are as the rows demand. |
| Pc2Places.PosIsPlace | pc2/cuda/pc2.cu:786-795 | The file offset computed from the tables for a column, group or CPU write is its place in its row, and it ends inside the row. |
| Pc2Places.Covered | pc2/cuda/pc2.cu:649-1021 | Every position of a file is covered by a wanted write, unless the file starts at row one. |
| Pc2Places.FirstRowUnwritten | pc2/cuda/pc2.cu:815-882 | In a tree R file with no discarded row no wanted write covers the first row. |
| Pc2Places.WrittenOnce | pc2/cuda/pc2.cu:649-1090 | No position of a file is covered by two different writes. |
| Pc2Writes.WrittenRight | pc2/cuda/pc2.cu:782-803 | A write puts into its row what belongs there. |
| Pc2Writes.FileComplete | pc2/cuda/pc2.cu:406-464 | A log with each wanted write once leaves the CPU builder's file, in whatever order the writes reach the disk. |
| Pc2Writes.TreeCRunOk | pc2/cuda/pc2.cu:754-882 | Batches loaded from their places make buffers that are right for tree C. |
| Pc2Writes.TreeRRunOk | pc2/cuda/pc2.cu:836-848 | Batches of the encoded replica make buffers that are right for tree R. |
| LabelOrder.BlockLoop | sha/sha_ext_mbx2.S:28-349 | The block loop loads the prefix, then the pointer list over and over, and the padding as the very last half block. |
| LabelOrder.HashNode | pc1/coordinator_t.hpp:189-241 | A node above node 0 is hashed over the prefix, 37 parent labels and the padding; node 0 over the prefix and two padding halves. |
| LabelOrder.PaddingIsStandard | pc1/pc1.cpp:112-115 | The padding words are those of section 5.1.1 of FIPS 180-4 for 1248 and for 64 bytes. |
| LabelOrder.WriteLabels | c1/label_proof.hpp:71-118 | The loops list the 37 labels of a layer in the stated order. |
| LabelOrder.GetNodes | c1/challenge.hpp:67-94 | The buffer holds, layer by layer, the challenged node's label and those of its parents in order. |
| LabelOrder.ProofListsWhatIsHashed | c1/label_proof.hpp:71-128 | For every node above 0 and every layer, the listed labels are, in order, those the node's hash was fed. |
| C1Proofs.WriteElement | c1/path_element.hpp:29-43 | A path element is written as its length, its hashes and its index. |
| C1Readers.TreeBack | c1/tree_proof.hpp:84-137 | Type, root, leaf and path of a tree proof of type 0 or 1 are read back from its bytes, wherever these stand. |
| C1Proofs.TreeSizeRight | c1/tree_proof.hpp:69-82 | The declared size of a tree proof is what is written, for the types 0 and 1 and no other. |
| C1Proofs.WriteLabelProof | c1/label_proof.hpp:59-131 | A label proof lists all layers with their count, an encoding proof the last layer alone. |
| C1Proofs.LabelSizeRight | c1/label_proof.hpp:31-57 | The declared size of a label or encoding proof is what is written, for any number of layers. |
| C1Proofs.WriteColumn | c1/column_proof.hpp:61-79 | A column proof is written as node, labels and tree proof. |
| C1Readers.NodeBack | c1/challenge.hpp:139-195 | From the bytes of a challenge's node proof its column, its parents' columns and, layer by layer, the labels its node was hashed from are read back. |
| C1Proofs.PartSizes | c1/c1.hpp:231-245 | Tree part and node part of every challenge have the sizes that combining assumes. |
| C1Files.WriteProofs | c1/c1.hpp:263-343 | The output is the number of partitions, their challenges with a count each, and the trailer of what was asked for; what it means is what the reader of the whole output gets back. |
| C1Output.OutputBack | c1/c1.hpp:263-343 | From the bytes of any output, with trees, nodes or both, all partitions are read back, challenge j of partition i with the proofs of challenge j + i * challenges, and then comm R, comm D, replica id, seed and ticket as far as they were asked for, and nothing is left over. |
| C1Files.EndsAtProofSize | c1/c1.hpp:227-260 | The writer ends exactly at the declared size if trees, nodes or both are asked for, and not if neither is. |
| C1Files.CombineProofs | c1/c1.hpp:346-434 | Combining the tree output and the node output gives byte for byte the full output. |
| NvmeMap.NodeIndexes | pc1/node_rw_t.hpp:24-30 | Controller and block of a node are remainder and quotient of the node's page by the controllers. |
| NvmeMap.WithinSlot | sealing/supra_seal.cpp:273-292 | Every page of a batch is on an existing controller, within the slot's blocks. |
| NvmeMap.SlotIsLeast | sealing/supra_seal.cpp:286-291 | For every layer a slot has the least number of blocks that holds its pages on all controllers. |
| NvmeMap.PlacesDiffer | pc1/node_rw_t.hpp:24-30 | Two pages share a place only if they are one. |
| NvmeMap.BatchesApart | pc1/node_rw_t.hpp:174-188 | Batches at different multiples of the slot size never overlap, for any number of controllers. |

## Left out

- Pc1Runs.RunInv: orchestrator, coordinators, hashers and disks are steps over one value of the whole state, because they run concurrently; each step is atomic, memory is sequentially consistent, and a section of the orchestrator's loop may come in any order with the others, which only adds runs.
- Pc1Runs.HashesSequentially: a hasher's pair of sectors is one digest, and a sector offset is a coordinator and a hasher; node identifiers and counters are unbounded where the source has 16-bit sync counters.
- Pc1Runs.CursorsOrdered: progress is not claimed; freedom from deadlock depends on timing and tuning constants.
- Pc1Issue.CacheOffset: node 0 of every layer is parentless and reads nothing; the source leaves some request entries of an earlier node in place there.
- Pc1Engine.Engine.Process: the main loop gets a number of turns, coordinators and hashers a number of waits, since without progress they need not end; the thresholds of FIFO room and low buffers are left free, and a coordinator reports when its update count is reached but others may see older values.
- Pc1Engine.Engine.ReadBatch: rounding down to whole pages is by division; the source masks, for page sizes that are powers of two.
- MtFifo.FirstInFirstOut: the producer stops when full, as `enqueue` asserts; `enqueue_nocheck` without that check, and `fill`, are not modelled.
- The other rings' `reserve`, `advance_valid` and `release_valid` and the single-threaded pool: easier than the FIFO or covered by PC1.
- Groth16Split.SecondPass: circuits run one after the other, while the source runs them in parallel on vectors of their own; the partial last word of a query that is not split stays as it was, which nothing reads.
- Groth16Msms.ExecuteBatchAddition: a kernel's buckets are one sum, so how threads share the points of a batch is not modelled.
- Groth16Msms.Prove: the H query with its transforms and the final combination with r and s are not part of this model; nor are errors of the GPU.
- BitWords.PushBit: a word is the set of positions of its bits, so its width limits nothing but positions.
- Pc2Planner.Scheduler.Take: the slot of a child is a remainder where the source masks; the pipeline takes items through the function that this method is proved equal to.
- Pc2Gpu.Pipeline.HashGpu: the reader delivers a batch at once and intact, and operations of one stream run one after the other; devices, host-side disk buffers and their batcher, whose flush does not conserve buffers, are one flag for room. Polling gets a number of rounds.
- Pc2Gpu.Pipeline.HandOver: waiting for the mutex or the channel lets the CPU's task go on; the source locks and unlocks that mutex on different threads.
- Pc2Gpu.FilesOfRun: the sealed sector file that the encoded replica is also written to, byte order and Montgomery form are left out.
- Pc2Kernels.HashInPlace: the kernels between the first and the last work on one state each and are part of the hash.
- Roots over several files, including 16 of them, and tree D: one more hash or plain rows.
- TreeBuilding.TreeBuilder.BuildTreeParallel: a chunk runs as a whole, chunks in any order; that their places never overlap is proved. There are no more chunks than leaves, and a builder discards at most two rows: with three the temporary buffer of the source would be too small.
- TreeProofs.TreeProof.GenInclusionPath: masks and shifts are remainders and quotients by powers of the arity; trees of mixed arity and 16 KiB sectors, whose buffer is too small for a third level, are left out.
- LabelOrder.BlockLoop: the rounds of SHA-256 and the two lanes are not part of this model; the loop is the order in which half blocks are loaded.
- LabelOrder.ProofListsWhatIsHashed: the first base parent in the parents file is the node before, as the engine assumes without reading it.
- C1Files.WriteProofs: each writer returns its bytes in order where the source copies them to a running index of a mapped file; the derivation of challenges and the constant tree D proofs are left out.
- NvmeMap.BatchesApart: blocks of one namespace; dispatch and completion of requests are steps of the PC1 model.
- SPDK, CUDA streams, mapped files, thread placement, statistics, configuration and the ready mutex: platform code.
