# Verified models of the NPU stack

The repository runs int8 matrix products on an AI-engine array and hides the array behind a HIP shim and a kernel
driver. This project models the parts whose correctness is not visible from one function body, and proves them for
all shapes, inputs, interleavings and runs.

1. **The dataflow network** the two int8 generators declare: an R x C grid of cores fed by bounded FIFOs, A broadcast
   along rows and B along columns, C gathered per column, driven by a host sequence that starts, awaits and frees DMA
   tasks (`Grid`, `GridInvariant`, `GridDeadlock`, `GridRuns`, `GridFill`; `Schedule`, `Sequences` and `Traces` for the host
   sequences,
   `CoreBody` for the core's loop nest, `Taps` for what each task touches, `Memory` for the way of C from the cores to
   memory, `NetworkGemm`, `Selection` and `Folding` for the numbers that come out, `Supply` for what the generators' own
   transfers put into the A objects, `Generators` for the two instances of the network). FIFO objects are identified by
   their stream positions, so order, broadcast and pairing are proved. Their contents are arbitrary, and what is asked
   of them is a precondition (`NetworkGemm.Supplied`). The matrix kernel is any exact multiply-accumulate; in which
   layout it keeps C, and which rows of the tile it adds to in which of its calls, is a parameter (`CoreBody.Adds`).
2. **The blocked layouts and the reference product**: the packing loops over flat arrays, the running-sum product, and
   the DMA stride walks of the 4-row generator, which produce the same layouts (`Layout`, `Packing`, `Strides`).
3. **The int8 engine's arithmetic** over reals: symmetric quantisation, the zero-padded product, fused projections
   and rotary embedding (`Quant`, `Engine`, `Fusion`, `Rope`).
4. **Three stateful protocols**: the command ring against a firmware reader (`Ring`), the buffer registry under any
   interleaving of threads (`Registry`) and its entry points (`Shim`), the IP block's life cycle (`Lifecycle`).

`Sums`, `Arith` and `Rows` hold what the others share: finite sums, quotients and remainders, row-major buffers.

## What the proofs found

- The 4-row generator plans no group at all with its default arguments, because M = m = 128 leaves M / m / 4 = 0
  (`Taps.DefaultShapeIsEmpty`); all of C is written exactly for the divisible shapes (`Taps.CoversIffDivisible`).
- The 4-row core hands the whole C tile, with no row offset, to each of its four multiplications of a K step
  (npu-gpu-cpu/npu-infer/bf16_kernel_dev/n1_core_i8_4row.py:108-112), while its A objects have m / 4 rows. Whether C
  is A B therefore depends on the kernel, which is not in the repository, and this is proved as an if and only if over
  all kernels: every complete run leaves every product in memory exactly if call number 4 i + j adds to row block j of
  the tile, in the 8 x 8 tiles the C walk expects (`Generators.FourRowComputesIff`). A kernel that cycles through the
  row blocks, as docs/HANDOFF-NPU-OPTIMIZATION.md:977 says of an object file of the name linked here, does
  (`Generators.CountingKernel`); one that does not count its calls does not, in any layout (`Generators.MustCount`).
  If the kernel always adds to the tile's first m / 4 rows, all four row blocks of the product are folded into the
  first, and C is A B exactly if the others are zero (`Generators.FourRowFolds`); rows of A padded with zeros are
  enough for that (`Folding.PaddedRowsSuffice`). docs/HANDOFF-NPU-OPTIMIZATION.md:1054 lists an int8 build of that name
  as a kernel for 128 rows; such a kernel would read A rows beyond the m / 4 of an object, which is not modelled.
- The single-row generator sends C to memory without a stride list, so C is A B exactly if its kernel keeps C row by
  row (`Generators.SerialComputesIff`); one that keeps 8 x 8 tiles, as the comment in line 49 of that generator
  suggests, computes some product wrongly (`Generators.TiledKernelFails`).
- The mem tiles' and cores' FIFOs of A and B can all be full at once, two objects deep as declared
  (`GridFill.AllSlotsFill`), so the interleavings are those of the declared depths.
- Both generators cut L1 objects out of an L2 object with walks that agree with K slices only if the L2 object holds
  a single slice, mtk = k (`Strides.ObjectIsSliceIff`, `Strides.SerialObjectIsSliceIff`); the default k of 64 does
  not. With k = 512 the walks do supply what the cores need, and the result is proved from A in memory to C
  (`Generators.SerialEndToEnd`, `Generators.FourRowEndToEnd`); for other k the supply is a precondition.
- The single-row generator's A walk has m * k elements, one L1 object. Unless it starts anew for every K slice of an
  L2 object, a stuck run is complete only for k = 512 (`NetworkGemm.SingleWalkCompletesIff`); in general a stuck run
  is complete if and only if A's supply matches the cores' demand (`GridRuns.CompletesIffMatched`).
- The final drain of the 4-row task ring awaits groups out of start order exactly when n >= 5 and n % 4 = 1
  (`Schedule.FourRowAwaitOrder`).
- `unpack_C_f32` computes its destination with a comma expression; as written it restores a matrix of whole tiles
  only in degenerate cases (`Packing.AsWrittenRestores`, `Packing.AsWrittenFails`). The intended row-major unpacking
  that its comment describes is modelled beside it.
- `pack_A` and `pack_B` are permutations exactly when both dimensions are multiples of 8 (`Layout.PackPermutes`).
- The engine's outputs are within accumulated half-step errors of the true product for activations up to 127.5 scales,
  and what a larger activation adds to the error is exactly what its clamp cuts off (`Quant.CodeErrorExact`,
  `Engine.ResultWithinError`).
- An int16 accumulator is safe for every pair of code vectors only up to two terms (`Engine.AlwaysFitsIff`).
- 170 packets between successful waits is exactly the ring's safe limit, and nothing in the code enforces it
  (`Ring.BoundIsExact`, `Ring.WrapLosesPackets`).
- `sw_fini` tears down the command ring even when `sw_init` never set it up because no PCI function was found. Should
  a caller also run `sw_fini` after a failed `sw_init`, which the repository does not show, it would release the
  firmware a second time after a failed ring initialisation. Over a life that ends in `sw_fini` everything is given
  back exactly once if and only if the function was found and both requests succeeded (`Lifecycle.LifeBalancedIff`).

## Model

| member | source | states |
|---|---|---|
| GridInvariant.StepKeeps | npu-gpu-cpu/npu-infer/bf16_kernel_dev/n1_core_i8_4row.py:61-115 | every step of runtime, DMA or core keeps the network invariant: FIFO depths, consecutive stream positions in every queue, each core's used objects equal to its place in its program, finished tiles equal to their rounds' pair lists |
| GridDeadlock.StuckIsDone | npu-gpu-cpu/npu-infer/bf16_kernel_dev/n1_core_i8_4row.py:61-166 | a state of the invariant in which nothing can move is the one final state, by the slowest-core argument |
| GridDeadlock.DoneIsStuck | npu-gpu-cpu/npu-infer/bf16_kernel_dev/n1_core_i8_4row.py:103-115 | in the final state, with the cores waiting for input that never comes, nothing can move |
| GridDeadlock.SlowestNotShortOfA | npu-gpu-cpu/npu-infer/bf16_kernel_dev/n1_core_i8_4row.py:61-75 | while a row's channel still has objects, its slowest core is never the one short of A, although a broadcast slot frees only when all consumers release it |
| GridDeadlock.SlowestNotFull | npu-gpu-cpu/npu-infer/bf16_kernel_dev/n1_core_i8_4row.py:86-97 | the slowest core is never blocked on its output slot |
| GridRuns.StepCounts | npu-gpu-cpu/npu-infer/bf16_kernel_dev/n1_core_i8_4row.py:61-166 | every step adds exactly one to a global progress count |
| GridRuns.RunsEndInDone | npu-gpu-cpu/npu-infer/bf16_kernel_dev/n1_core_i8_4row.py:62-166 | for every grid, every serveable host sequence and every interleaving: no run exceeds a fixed length, and a run is stuck exactly when it is in the one final state (FIFOs empty, every group's tile of every core in memory), which is exactly when it has that length |
| GridRuns.RunCompletes | npu-gpu-cpu/npu-infer/bf16_kernel_dev/n1_core_i8_4row.py:62-166 | every run, the empty one included, extends to a complete one |
| GridRuns.CompletesIffMatched | npu-gpu-cpu/npu-infer/bf16_kernel_dev/n1_core_i8_4row.py:62-115 | with at least one group, a run that can go no further has completed if and only if the A objects delivered for a group are as many as its cores consume |
| GridRuns.FreedTasksAreFinished | npu-gpu-cpu/npu-infer/bf16_kernel_dev/n1_core_i8_4row.py:153-166 | when the host frees an input task, the shim has delivered all of its objects |
| GridFill.AllSlotsFill | npu-gpu-cpu/npu-infer/bf16_kernel_dev/n1_core_i8_4row.py:61-84 | whenever one group has enough objects, some run fills both slots of every mem tile and core FIFO of A and B at once: no FIFO is shallower than declared |
| GridFill.ShimAIff | npu-gpu-cpu/npu-infer/bf16_kernel_dev/n1_core_i8_4row.py:67-69 | the shim delivers A exactly while started tasks ask for it and fewer than two of the L2 objects it delivered are still to be streamed out |
| GridFill.CastAIff | npu-gpu-cpu/npu-infer/bf16_kernel_dev/n1_core_i8_4row.py:71-75 | an L1 object is broadcast exactly while one is left to send and the row's slowest core is fewer than two behind |
| GridFill.ShimBIff | npu-gpu-cpu/npu-infer/bf16_kernel_dev/n1_core_i8_4row.py:81 | the same for the shim's B objects |
| GridFill.CastBIff | npu-gpu-cpu/npu-infer/bf16_kernel_dev/n1_core_i8_4row.py:82-84 | the same for the broadcast of B along a column |
| GridFill.ComputeIff | npu-gpu-cpu/npu-infer/bf16_kernel_dev/n1_core_i8_4row.py:103-115 | a core waits exactly for an A or B object not yet sent, or for its finished tile to leave its one slot |
| GridFill.GatherIff | npu-gpu-cpu/npu-infer/bf16_kernel_dev/n1_core_i8_4row.py:86-97 | a finished tile is gathered exactly while at most two of the core's tiles are between the core and memory |
| Schedule.OrderlyIsSchedule | npu-gpu-cpu/npu-infer/bf16_kernel_dev/n1_core_i8_4row.py:134-166 | a plan that starts groups in order, awaits what was started and frees what was awaited expands to a call sequence the network can serve |
| Schedule.HeldBound | npu-gpu-cpu/npu-infer/bf16_kernel_dev/n1_core_i8_4row.py:127-166 | with a window of w outstanding groups, a shim column holds at most 3w tasks at every moment, counted exactly at group boundaries |
| Schedule.OnlyOnce | npu-gpu-cpu/npu-infer/bf16_kernel_dev/n1_core_i8_4row.py:134-166 | in an orderly plan no group is started, awaited or freed twice |
| Schedule.FourRowRetires | npu-gpu-cpu/npu-infer/bf16_kernel_dev/n1_core_i8_4row.py:127-166 | for every number of groups the ring of four keeps at most four outstanding, frees inputs only after their outputs were awaited, and starts and retires every group exactly once, tail drain included |
| Schedule.FourRowTwelveTasks | npu-gpu-cpu/npu-infer/bf16_kernel_dev/n1_core_i8_4row.py:127-166 | no shim column ever holds more than 12 tasks, and none holds any at the end |
| Schedule.FourRowAwaitOrder | npu-gpu-cpu/npu-infer/bf16_kernel_dev/n1_core_i8_4row.py:153-166 | awaits follow start order in the loop always, and in the whole sequence if and only if n < 5 or n % 4 != 1 |
| Schedule.SerialRetires | npu-gpu-cpu/npu-infer/bf16_kernel_dev/n1_core_i8_v2.py:124-149 | the await-per-group sequence keeps one group outstanding, retires all, in order |
| Traces.SerialTrace | npu-gpu-cpu/npu-infer/bf16_kernel_dev/n1_core_i8_v2.py:124-149 | calls 34 g to 34 g + 33 of the await-per-group sequence: group g's start of A, eight of B, eight of C, eight waits, the free of A, eight of B; and nothing else |
| Traces.FourRowStarts | npu-gpu-cpu/npu-infer/bf16_kernel_dev/n1_core_i8_4row.py:134-151 | where group g's starts are in the ring's call sequence: four of A, eight of B, eight of C, in channel order |
| Traces.FourRowDrains | npu-gpu-cpu/npu-infer/bf16_kernel_dev/n1_core_i8_4row.py:153-163 | where the loop's waits and frees are: after the starts of every odd group but the first, the waits of groups g - 3 and g - 2, then the frees of their A and B tasks |
| Traces.FourRowLength | npu-gpu-cpu/npu-infer/bf16_kernel_dev/n1_core_i8_4row.py:123-166 | forty calls a group in all, for every number of groups |
| Traces.TapNumbers | npu-gpu-cpu/npu-infer/bf16_kernel_dev/n1_core_i8_4row.py:134-151 | the tap numbers the tasks of a group are given, as quotients and remainders of the group number |
| Sequences.FillSlot | npu-gpu-cpu/npu-infer/bf16_kernel_dev/n1_core_i8_4row.py:136-151 | a ring slot is empty whenever it is reused |
| Sequences.DrainCompleted | npu-gpu-cpu/npu-infer/bf16_kernel_dev/n1_core_i8_4row.py:153-163 | the drain at the end of the loop body empties exactly the two oldest groups' slots and emits their awaits, then their frees |
| Sequences.FourRowSequence | npu-gpu-cpu/npu-infer/bf16_kernel_dev/n1_core_i8_4row.py:123-166 | the loop over its mutable slots emits exactly the calls of the ring's plan, and gives every task the tap of its group and channel |
| Sequences.SerialSequence | npu-gpu-cpu/npu-infer/bf16_kernel_dev/n1_core_i8_v2.py:110-149 | the same for the loop that awaits every group |
| Taps.TapsAgree | npu-gpu-cpu/npu-infer/bf16_kernel_dev/n1_core_i8_4row.py:124-151 | a group's C tap is the tile whose rows its A taps read and whose columns its B taps read |
| Taps.Partition | npu-gpu-cpu/npu-infer/bf16_kernel_dev/n1_core_i8_4row.py:126-151 | over all groups every element of C is written by exactly one group, core and tile position |
| Taps.CoversIffDivisible | npu-gpu-cpu/npu-infer/bf16_kernel_dev/n1_core_i8_4row.py:124-129 | all of C is written if and only if the shape divides into whole blocks of tiles |
| Taps.DefaultShapeIsEmpty | npu-gpu-cpu/npu-infer/bf16_kernel_dev/n1_core_i8_4row.py:20-25 | with the default arguments no group is planned and C is not computed |
| Taps.TapUse | npu-gpu-cpu/npu-infer/bf16_kernel_dev/n1_core_i8_v2.py:124-144 | an A tap is used by num_col_tile consecutive groups, a B tap by every num_col_tile-th group, and by no others |
| NetworkGemm.NetworkWellformed | npu-gpu-cpu/npu-infer/bf16_kernel_dev/n1_core_i8_4row.py:67-75 | for divisible shapes the L1 objects cut from a group's A transfer are exactly as many as its cores consume |
| NetworkGemm.NetworkSizes | npu-gpu-cpu/npu-infer/bf16_kernel_dev/n1_core_i8_4row.py:31-47 | a group's A task delivers K / 512 L2 objects, each of inner * 512 / k L1 objects; a core takes K / k B objects and inner A objects for each; the groups' tiles together have M * N elements |
| NetworkGemm.PairAdds | npu-gpu-cpu/npu-infer/bf16_kernel_dev/n1_core_i8_4row.py:108-114 | with A and B objects that carry their row block and K slice, what a multiplication adds is that slice of an element of the product in row block j, both of that round's tile and step |
| NetworkGemm.RoundLeaves | npu-gpu-cpu/npu-infer/bf16_kernel_dev/n1_core_i8_4row.py:105-115 | zero-then-accumulate leaves at every address of the tile the sum, over K steps and row blocks, of the slices the kernel's calls add there |
| Memory.MemoryElement | npu-gpu-cpu/npu-infer/bf16_kernel_dev/n1_core_i8_4row.py:86-97 | an element of C in memory, found through its C tap, its position in the tap, the slot of the gathered object and the walk of the mem tile, is that element of the tile its core computed |
| Folding.RoundFolds | npu-gpu-cpu/npu-infer/bf16_kernel_dev/n1_core_i8_4row.py:105-115 | if every call adds to the first row block, a round leaves at row x of it the sum of the product's rows x, x + m / inner, x + 2 m / inner, ..., and zero below it |
| CoreBody.Core.Round | npu-gpu-cpu/npu-infer/bf16_kernel_dev/n1_core_i8_4row.py:105-115 | the core's nested loops, accumulating in place, multiply exactly the pairs the step machine's round consists of, in order and with consecutive call numbers, and release every object they acquire |
| CoreBody.AccumulatesSum | npu-gpu-cpu/npu-infer/bf16_kernel_dev/n1_core_i8_v2.py:95-103 | with an exact kernel every element of the tile is the sum of what the log's pairs add at its address |
| Folding.RunsFoldProduct | npu-gpu-cpu/npu-infer/bf16_kernel_dev/n1_core_i8_4row.py:86-166 | for any orderly host sequence and interleaving, a complete run with a kernel that always adds to the first row block leaves in memory, in every tile, the row blocks of A B folded into the first one, and that is A B if and only if the other row blocks of A B are zero |
| Selection.RunsLeaveRounds | npu-gpu-cpu/npu-infer/bf16_kernel_dev/n1_core_i8_4row.py:86-166 | a run stops only when complete, and C in memory then consists of what the rounds left, for every kernel |
| Selection.RunsComputeProduct | npu-gpu-cpu/npu-infer/bf16_kernel_dev/n1_core_i8_4row.py:86-166 | if every call adds its own row block where memory gets it from, and nothing elsewhere, every complete run leaves A times B in memory |
| Selection.EveryProductIff | npu-gpu-cpu/npu-infer/bf16_kernel_dev/n1_core_i8_4row.py:86-166 | over all matrices, supplied objects, exact kernels of a kind, and complete runs: C in memory is always A times B if and only if the kernel adds so in every call |
| Selection.WithoutCounting | npu-gpu-cpu/npu-infer/bf16_kernel_dev/n1_core_i8_4row.py:108-112 | a kernel that does not look at the number of its call can compute every product only with one A object per B object |
| Folding.PaddedRowsSuffice | npu-gpu-cpu/npu-infer/bf16_kernel_dev/n1_core_i8_4row.py:108-112 | if the rows of A below each tile's first row block are zero, so is the part of the product that would be lost |
| Generators.SerialComputesIff | npu-gpu-cpu/npu-infer/bf16_kernel_dev/n1_core_i8_v2.py:81-149 | the 1 x 8 generator computes every product if and only if its kernel keeps C row by row, since C is sent without a stride list |
| Generators.TileAddresses | npu-gpu-cpu/npu-infer/bf16_kernel_dev/n1_core_i8_v2.py:49-52 | what a kernel that keeps C in 8 x 8 tiles is: element (x, y) lies in its tile, tiles in rows, rows of eight in a tile |
| Generators.TiledKernelFails | npu-gpu-cpu/npu-infer/bf16_kernel_dev/n1_core_i8_v2.py:49-87 | with such a kernel the 1 x 8 generator does not compute every product |
| Generators.SerialComputesProduct | npu-gpu-cpu/npu-infer/bf16_kernel_dev/n1_core_i8_v2.py:30-149 | with a row-by-row kernel and objects that carry their K slices it never deadlocks and leaves A times B in memory, for all A and B |
| NetworkGemm.SingleWalkCompletesIff | npu-gpu-cpu/npu-infer/bf16_kernel_dev/n1_core_i8_v2.py:69-75 | with one L1 object per L2 object of 512 columns, as the declared walk has elements for, a stuck run is complete if and only if k = 512 |
| Generators.FourRowCompletes | npu-gpu-cpu/npu-infer/bf16_kernel_dev/n1_core_i8_4row.py:31-166 | the 4 x 8 generator never deadlocks, and every complete run leaves, for every group and core, the tile made of that group's objects in K order |
| Generators.FourRowComputesIff | npu-gpu-cpu/npu-infer/bf16_kernel_dev/n1_core_i8_4row.py:86-166 | it computes every product if and only if its kernel keeps C in 8 x 8 tiles and adds to row block call % 4 |
| Generators.CountingKernel | docs/HANDOFF-NPU-OPTIMIZATION.md:977 | a kernel whose counter cycles through the four row blocks is one |
| Generators.MustCount | npu-gpu-cpu/npu-infer/bf16_kernel_dev/n1_core_i8_4row.py:108-112 | a kernel that does not count its calls is not, whatever its layout |
| Generators.FourRowComputesProduct | npu-gpu-cpu/npu-infer/bf16_kernel_dev/n1_core_i8_4row.py:31-166 | with a counting kernel and objects that carry their row blocks and K slices, a complete run leaves A times B in memory |
| Generators.FourRowFolds | npu-gpu-cpu/npu-infer/bf16_kernel_dev/n1_core_i8_4row.py:31-166 | with a kernel that always adds to the first m / 4 rows it leaves the folded product, which is A times B if and only if the product is zero below each tile's first quarter |
| Supply.SerialSupplies | npu-gpu-cpu/npu-infer/bf16_kernel_dev/n1_core_i8_v2.py:67-75 | with k = 512 the declared transfers put K slice t of the group's A tile, row-major, into object t |
| Supply.FourRowSupplies | npu-gpu-cpu/npu-infer/bf16_kernel_dev/n1_core_i8_4row.py:67-75 | with k = 512 they put row block j of K slice t, in 8 x 8 tiles, into object 4 t + j |
| Generators.SerialEndToEnd | npu-gpu-cpu/npu-infer/bf16_kernel_dev/n1_core_i8_v2.py:30-149 | with k = 512 and a row-by-row kernel, from A in memory through both transfers, the cores and the C transfer: a complete run of the 1 x 8 generator leaves A times B in memory |
| Generators.SerialTransfersExist | npu-gpu-cpu/npu-infer/bf16_kernel_dev/n1_core_i8_v2.py:67-87 | for all matrices, k = 512 and every exact kernel there are objects and transfers as SerialEndToEnd asks for |
| Generators.FourRowEndToEnd | npu-gpu-cpu/npu-infer/bf16_kernel_dev/n1_core_i8_4row.py:31-166 | with k = 512, in the same way, a complete run of the 4 x 8 generator leaves A times B with a counting kernel, and the folded product with one that adds to the first rows |
| Generators.FourRowTransfersExist | npu-gpu-cpu/npu-infer/bf16_kernel_dev/n1_core_i8_4row.py:67-84 | the same for FourRowEndToEnd, for tiles of m a multiple of 32 |
| Layout.PackPermutes | tests/test_prepacked_gemm.cpp:58-93 | the packing loops never read an element twice, and read every element if and only if both dimensions are multiples of 8 |
| Layout.RowTileDestOfSource | tests/test_prepacked_gemm.cpp:58-73 | the position an element is packed to is recovered from its source, for every packed position, in bounds |
| Layout.RowTileSourceOfDest | tests/test_prepacked_gemm.cpp:95-111 | and the source from the packed position, for every element off the ragged edge |
| Packing.PackA | tests/test_prepacked_gemm.cpp:58-73 | element (i, k) of whole tiles lands at (i / 8 * (K / 8) + k / 8) * 64 + i % 8 * 8 + k % 8; the loops store at every packed position the element of that position in row-tile order, and nothing beyond |
| Packing.PackB | tests/test_prepacked_gemm.cpp:78-93 | element (k, j) lands at (j / 8 * (K / 8) + k / 8) * 64 + k % 8 * 8 + j % 8, and nothing is stored beyond |
| Packing.UnpackC | tests/test_prepacked_gemm.cpp:95-111 | the unpacking its comment describes puts every packed element back in row-major order, from the same positions, and touches nothing else |
| Packing.UnpackCAsWritten | tests/test_prepacked_gemm.cpp:96-111 | the unpacking as written leaves only the last row of tiles' last row, at the start of the buffer |
| Packing.AsWrittenRestores | tests/test_prepacked_gemm.cpp:96-111 | it restores the matrix if and only if its first row equals its last and the other rows were already there |
| Packing.AsWrittenFails | tests/test_prepacked_gemm.cpp:96-111 | for a marked matrix and a zeroed buffer it restores the matrix if and only if there is nothing to restore |
| Packing.RoundTrip | tests/test_prepacked_gemm.cpp:58-111 | unpacking what was packed restores the matrix |
| Packing.RoundTripTiles | tests/test_prepacked_gemm.cpp:58-111 | packing what was unpacked restores the tiles |
| Packing.CpuGemm | tests/test_prepacked_gemm.cpp:189-199 | the reference loops compute the dot product of row and column at every element and nothing beyond M x N |
| Packing.BlockedIsDot | tests/test_prepacked_gemm.cpp:58-93 | tile products at the packed offsets, accumulated over K tiles, are the dot product |
| Packing.BlockedGemmIsGemm | tests/test_prepacked_gemm.cpp:58-199 | packing, multiplying tile by tile and unpacking equals the reference product, for all dimensions divisible by 8 |
| Strides.ATransferPacks | npu-gpu-cpu/npu-infer/bf16_kernel_dev/n1_core_i8_4row.py:71-74 | producer walk followed by consumer walk leaves in L1 exactly what the packing loops compute from the contiguous (m/4) x k block |
| Strides.TransferDelivers | npu-gpu-cpu/npu-infer/bf16_kernel_dev/n1_core_i8_4row.py:71-74 | every block of every L2 object has a transfer, and it is the block in tile order |
| Strides.AWalkPermutes | npu-gpu-cpu/npu-infer/bf16_kernel_dev/n1_core_i8_4row.py:73 | the producer walk reaches every address of the m x mtk object |
| Strides.AWalkInjective | npu-gpu-cpu/npu-infer/bf16_kernel_dev/n1_core_i8_4row.py:73 | and none twice |
| Strides.ObjectIsSliceIff | npu-gpu-cpu/npu-infer/bf16_kernel_dev/n1_core_i8_4row.py:67-74 | the walked objects are K slices of the row-major object if and only if mtk = k |
| Strides.SlicesCover | npu-gpu-cpu/npu-infer/bf16_kernel_dev/n1_core_i8_4row.py:67-74 | what the K slices are: element (r, z) of an L2 object is element z % k of row r of slice z / k, in one of four row blocks or whole |
| Strides.SerialObjectIsSliceIff | npu-gpu-cpu/npu-infer/bf16_kernel_dev/n1_core_i8_v2.py:69-75 | walked from the start for each of its L1 objects, an L2 object delivers its K slices if and only if it holds one, mtk = k |
| Strides.SerialWalkCoversIff | npu-gpu-cpu/npu-infer/bf16_kernel_dev/n1_core_i8_v2.py:69-75 | the walk visits all of an L2 object if and only if mtk = k |
| Strides.CTransferUnpacks | npu-gpu-cpu/npu-infer/bf16_kernel_dev/n1_core_i8_4row.py:93-95 | the C stride walk streams a tile-ordered slot in row-major order, as the intended unpacking does |
| Strides.CSlots | npu-gpu-cpu/npu-infer/bf16_kernel_dev/n1_core_i8_4row.py:96-97 | the four slots at m * n * i are disjoint and fill the gathered object |
| Quant.RoundNear | npu-gpu-cpu/npu-infer/src/npu_engine_i8.cpp:29 | rounding is to the nearest integer, halves away from zero |
| Quant.CodeErrorIff | npu-gpu-cpu/npu-infer/src/npu_engine_i8.cpp:29-30 | codes lie in [-127, 127], and a code is within half a step of its value if and only if the value is at most 127.5 steps |
| Quant.CodeErrorExact | npu-gpu-cpu/npu-infer/src/npu_engine_i8.cpp:29-30 | every code is within half a step plus what lies beyond 127.5 steps of its value, and beyond them the error is exactly that |
| Quant.ClampIdle | npu-gpu-cpu/npu-infer/src/npu_engine_i8.cpp:29 | the clamp does nothing for values within 127 steps |
| Quant.ScaleInFull | npu-gpu-cpu/npu-infer/src/npu_engine_i8.cpp:29 | if some finite weight is at least 1e-12 in magnitude, 127 scales are the largest finite magnitude; if all are below, 127 scales are 1 |
| Quant.ScaleIsTight | npu-gpu-cpu/npu-infer/src/npu_engine_i8.cpp:29 | if some finite weight is at least 1e-12 in magnitude, some weight gets an extreme code |
| Quant.DotError | npu-gpu-cpu/npu-infer/src/npu_engine_i8.cpp:29-30 | for every length, factors quantised to within their step error give a dequantised dot product within the sum of the error terms |
| Engine.Context.PackB | npu-gpu-cpu/npu-infer/src/npu_engine_i8.cpp:29 | the scale is the largest finite magnitude over 127, or 1 / 127 if all are below 1e-12; every stored code is in range, unclamped and within half a step, non-finite weights get code 0, the rest of the layer's buffer is unchanged |
| Engine.Context.QuantiseA | npu-gpu-cpu/npu-infer/src/npu_engine_i8.cpp:30 | the activation buffer is the codes of the am x ak block padded with zeros to MD x KD |
| Engine.Context.Go | npu-gpu-cpu/npu-infer/src/npu_engine_i8.cpp:30 | every output whose exact sum fits int16 is the scaled integer dot product of activation codes and packed weights over the ak real columns |
| Engine.PaddingVanishes | npu-gpu-cpu/npu-infer/src/npu_engine_i8.cpp:30 | zero padding to MD x KD does not change the am x an result block |
| Engine.EngineError | npu-gpu-cpu/npu-infer/src/npu_engine_i8.cpp:29-30 | with weights as PackB stored them and any activations, the scaled integer dot product is within the accumulated step errors of the true product, saturated activations with what their clamp cuts off |
| Engine.ResultWithinError | npu-gpu-cpu/npu-infer/src/npu_engine_i8.cpp:29-30 | so is every element of the buffer Go returns whose exact sum fits int16, by the contracts of PackB and Go |
| Engine.ResultInFull | npu-gpu-cpu/npu-infer/src/npu_engine_i8.cpp:29-30 | the same bound term by term: half a weight step for each activation, and for each weight, half a step more, times half an activation step or what the clamp at 127 cuts off, for sums from -32768 to 32767 |
| Engine.SaturatingMultiplies | npu-gpu-cpu/npu-infer/src/npu_engine_i8.cpp:27-30 | a device with an int16 output buffer that is exact wherever the sum fits exists |
| Engine.AlwaysFitsIff | npu-gpu-cpu/npu-infer/src/npu_engine_i8.cpp:27-30 | the int16 result can hold every possible sum if and only if there are at most two terms |
| Fusion.FuseThree | npu-gpu-cpu/npu-infer/src/npu_engine_i8.cpp:98 | the row-interleaving copies build [Wq, Wk, Wv] for all widths: element (i, j) of a part lies in row i at the part's offset plus j |
| Fusion.FuseTwo | npu-gpu-cpu/npu-infer/src/npu_engine_i8.cpp:102 | and [Wg, Wu] |
| Fusion.FusedProduct | npu-gpu-cpu/npu-infer/src/npu_engine_i8.cpp:98-114 | slicing the one fused product at the parts' offsets equals the separate products |
| Fusion.FusedOutput | npu-gpu-cpu/npu-infer/src/npu_engine_i8.cpp:97-114 | an output of the fused int8 product is within the step errors, at the shared scale, of the separate projection's true value |
| Fusion.FusedResult | npu-gpu-cpu/npu-infer/src/npu_engine_i8.cpp:97-122 | so is every element of the buffer Go returns whose exact sum fits int16, so its slices at the parts' offsets are the separate projections to within those errors |
| Rope.Tables.Ri | npu-gpu-cpu/npu-infer/src/npu_engine_i8.cpp:23 | entries p * hd + d and p * hd + d + 1 of the tables, for even d, are the cosine and the sine of position p times the pair's frequency |
| Rope.Tables.Ra | npu-gpu-cpu/npu-infer/src/npu_engine_i8.cpp:24 | the in-place loop turns every pair (a, b) of the head into (a c - b s, b c + a s) with c and s from row p of the tables |
| Rope.FirstPositions | npu-gpu-cpu/npu-infer/src/npu_engine_i8.cpp:23-24 | a head at position 0 stays as it is, and at position 1 its pairs are turned counterclockwise by their frequencies |
| Rope.NormKept | npu-gpu-cpu/npu-infer/src/npu_engine_i8.cpp:24 | the rotation keeps the sum of squares of every vector |
| Rope.RelativePositions | npu-gpu-cpu/npu-infer/src/npu_engine_i8.cpp:23-24 | the dot product of a head rotated at p with one rotated at p' depends on the positions only through p - p' |
| Ring.CompletesIff | patches/amdgpu_npu_sched.c:77-131 | on every run a wait completes if and only if the unread qwords are a multiple of 512 |
| Ring.TakenIff | patches/amdgpu_npu_sched.c:77-131 | on every run the firmware has something to take if and only if they are not a multiple of 512 |
| Ring.RingIsQueue | patches/amdgpu_npu_sched.c:77-131 | with at most 170 packets between successful waits: what is read is what was written, in order, it parses back into the packets submitted, and head equals tail if and only if everything was read |
| Ring.TakeKeeps | patches/amdgpu_npu_sched.c:77-112 | the qword the firmware takes next is the next one written, never an overwritten one |
| Ring.WrapLosesPackets | patches/amdgpu_npu_sched.c:95-131 | 171 packets without a wait: the firmware reads one wrong qword and all pointers agree that the ring is empty |
| Ring.BoundIsExact | patches/amdgpu_npu_sched.c:77-131 | a completed wait means everything was read, on every run of a bound, if and only if the bound is at most 170 |
| Ring.ParseStream | patches/amdgpu_npu_sched.c:95-112 | the qword stream of a packet sequence parses back into it |
| Ring.PacketsOnTheWire | patches/amdgpu_npu_sched.c:95-112 | qwords 3 n to 3 n + 2 of every run's stream are packet n: 1 in the upper half of the first, the opcode in its lower half, then the two arguments |
| Ring.Driver.EmitQword | patches/amdgpu_npu_sched.c:77-88 | the method writes one slot and advances the tail by 8 modulo 4096 |
| Ring.Driver.SubmitPacket | patches/amdgpu_npu_sched.c:95-112 | the method writes 2^32 + opcode and the two arguments to the next three slots, moves tail and doorbell by 24 modulo 4096, and performs the submission step of the ring model |
| Ring.Driver.Wait | patches/amdgpu_npu_sched.c:118-131 | polling returns 0 if and only if some poll saw the tail, else the timeout error |
| Registry.StepKeeps | rocm-npu/hip_npu_memory.cpp:64-200 | every step of every thread, failure exits included, keeps the ledger exactly the disjoint union of what calls in progress and registered buffers hold |
| Registry.InsertIsFresh | rocm-npu/hip_npu_memory.cpp:98-101 | an insert never overwrites a live entry |
| Registry.ReleasesAreLive | rocm-npu/hip_npu_memory.cpp:81-125 | whatever a step closes, unmaps or frees is live before and gone after, although hipFree drops the lock before npu_free retakes it |
| Registry.NothingElseLeaves | rocm-npu/hip_npu_memory.cpp:81-125 | and that is all that leaves the ledger |
| Registry.NeverNull | rocm-npu/hip_npu_memory.cpp:98-115 | the null pointer, which hipFree ignores, is never registered |
| Registry.CopyIsSafe | rocm-npu/hip_npu_memory.cpp:186-200 | a copy runs while each endpoint found in the registry is still registered and mapped |
| Registry.RunsAreSafe | rocm-npu/hip_npu_memory.cpp:64-200 | the three safety properties hold for the next step of every run |
| Registry.QuietLedger | rocm-npu/hip_npu_memory.cpp:64-125 | with no call in progress the ledger is exactly three resources per registered buffer, none shared, and empty when every buffer was freed |
| Registry.NeverStuck | rocm-npu/hip_npu_memory.cpp:64-200 | a call in progress can always go on without a kernel call failing, or waits for a thread that can |
| Registry.OutsideIndependent | rocm-npu/hip_npu_memory.cpp:64-200 | outside the lock what a thread can do next depends on other threads only through the handles, addresses and descriptors in use |
| Registry.EntryStays | rocm-npu/hip_npu_memory.cpp:81-125 | until somebody erases it an entry stays registered with the same buffer, whatever other threads do |
| Registry.FreesWhatItFound | rocm-npu/hip_npu_memory.cpp:113-184 | the entry npu_free takes apart is the one hipFree found before dropping the lock, unless another free of that pointer completed in between |
| Shim.HistoryIsRun | rocm-npu/hip_npu_memory.cpp:64-200 | what the entry points do, call by call, is a run of the registry's state machine |
| Shim.MallocSteps | rocm-npu/hip_npu_memory.cpp:64-105 | the steps of one npu_malloc, in order, for every combination of kernel answers |
| Shim.FreeSteps | rocm-npu/hip_npu_memory.cpp:113-184 | the steps of one hipFree: nothing for null, the lookup alone for an unknown pointer, else the lookup, the lock dropped and retaken, the descriptor closed, the mapping and the buffer freed, the entry erased |
| Shim.CopySteps | rocm-npu/hip_npu_memory.cpp:186-200 | the steps of one hipMemcpy |
| Shim.Registered.NpuMalloc | rocm-npu/hip_npu_memory.cpp:64-105 | for every combination of kernel answers: the error code, the steps performed, the entry added for a pointer not yet registered, the three resources gained, and nothing kept on failure |
| Shim.Registered.NpuFree | rocm-npu/hip_npu_memory.cpp:113-125 | frees exactly the registered buffer's three resources and its entry, or reports an unknown pointer and changes nothing |
| Shim.Registered.HipFree | rocm-npu/hip_npu_memory.cpp:173-184 | frees a registered buffer after dropping and retaking the lock; unknown pointers are passed on |
| Shim.Registered.HipMemcpy | rocm-npu/hip_npu_memory.cpp:186-200 | copies here exactly if an endpoint is registered, under the lock, else passes on; registry and ledger unchanged |
| Lifecycle.GuardsAgree | patches/amdgpu_npu.c:302-371 | after any calls in any order the submission ioctl's shorter guard accepts exactly the states the context ioctl's does |
| Lifecycle.StatusAfter | patches/amdgpu_npu.c:85-247 | structure, function and status after any calls, read off the calls: NPU_UNINIT until a first start |
| Lifecycle.AcceptedIff | patches/amdgpu_npu.c:85-371 | submissions are accepted if and only if the last structure allocated is still there, its function was found, and since then the hardware was started and not stopped |
| Lifecycle.LifeLedger | patches/amdgpu_npu.c:85-233 | exactly what one life takes and gives back, for every answer of the kernel and any suspends and resumes |
| Lifecycle.LifeBalancedIff | patches/amdgpu_npu.c:85-247 | everything is given back exactly once if and only if the function was found and software initialisation succeeded |
| Lifecycle.LivesLedger | patches/amdgpu_npu.c:85-247 | over any number of lives with a successful sw_init, struct, firmware and PCI references balance, and the ring is off by the number of lives without the function |
| Lifecycle.PowerCycles | patches/amdgpu_npu.c:152-247 | after any suspends, resumes, starts and stops of a present block the last call alone decides whether submissions are accepted, and nothing but the status has changed |
| Lifecycle.SuspendResume | patches/amdgpu_npu.c:239-247 | so suspend then resume restores a running block, and in between submissions are refused |
| Lifecycle.Device.DoEarlyInit | patches/amdgpu_npu.c:85-107 | the callback performs the model's step; -12 without memory, else 0 |
| Lifecycle.Device.DoSwInit | patches/amdgpu_npu.c:113-146 | the callback performs the model's step; 0 without the function, else the error of the first request that fails |
| Lifecycle.Device.DoHwInit | patches/amdgpu_npu.c:152-188 | the callback performs the model's step and returns 0 |
| Lifecycle.Device.DoHwFini | patches/amdgpu_npu.c:194-211 | the callback performs the model's step and returns 0 |
| Lifecycle.Device.DoSwFini | patches/amdgpu_npu.c:217-233 | the callback performs the model's step and returns 0 |
| Lifecycle.Device.DoSuspend | patches/amdgpu_npu.c:239-242 | the callback performs the model's step and returns 0 |
| Lifecycle.Device.DoResume | patches/amdgpu_npu.c:244-247 | the callback performs the model's step and returns 0 |
| Lifecycle.Device.CtxIoctl | patches/amdgpu_npu.c:302-324 | accepts exactly the states of its guard, else -19 |
| Lifecycle.Device.ExecIoctl | patches/amdgpu_npu.c:351-371 | the same for the shorter guard |

## Left out

- FourRowComputesProduct: that the A and B objects carry their row blocks and K slices is a precondition; for A it is proved from the declared walks for k = 512 (`Supply.FourRowSupplies`) and does not follow from them otherwise (`Strides.ObjectIsSliceIff`).
- FourRowFolds: has the same precondition.
- SerialComputesProduct: has the same; for A it is proved for k = 512 (`Supply.SerialSupplies`), and the declared walk does not give it otherwise (`Strides.SerialObjectIsSliceIff`).
- FourRowEndToEnd: as SerialEndToEnd.
- FourRowComputesIff: covers tiles whose sides m and n are multiples of 8, the block size of the C walk, and FourRowEndToEnd those with m / 4 a multiple of 8 too; other sizes leave the walks shorter than their objects.
- SerialEndToEnd: the contents of the B objects are a precondition, because the order of B inside a panel is fixed by the kernel, which is not part of this model.
- MemoryElement: the C walk of the 4-row generator has m * n elements and the gathered object four times as many; it is taken to be applied to each of the four slots in turn.
- NetworkWellformed: takes an L2 object of A to yield inner * mtk / k L1 objects, the walk being started again when it ends; the single-row walk [(m, mtk), (k, 1)] has elements for only one, and what happens then is `NetworkGemm.SingleWalkCompletesIff`.
- CoversIffDivisible: its "only if" half concerns ragged shapes; it rests on the tiler, which is not part of this model, numbering tiles row by row with quotients rounded down as the generators round them, where it may instead refuse such a shape.
- ResultWithinError: says nothing of outputs whose exact sum does not fit int16, as Go does.
- PowerCycles: assumes a present block, since the callbacks do nothing without the PCI function.
- AWalkPermutes: states the layout per contiguous block; `Supply.FourRowSupplies` joins it to the row-major L3 to L2 walk for k = 512, where the blocks are row blocks of K slices.
- Go: says nothing about an output whose exact sum does not fit int16, because how the device wraps partial sums is not in the repository.
- RingIsQueue: the firmware is a reader that takes one qword at a time while its head differs from the doorbell; the mailbox's other registers and the polling clock are not modelled, a wait is judged by the head values its polls see.
- NpuMalloc: runs one call from start to end; what other threads do in between is covered by the state machine whose steps it performs.
- A FIFO with several consumers is a broadcast, as both generators declare; docs/HANDOFF-NPU-OPTIMIZATION.md:991-996 reports hardware handing objects out in turn instead.
- The cores' outer loop of 0xFFFFFFFF rounds is taken as endless.
- The matrix kernel, which is not part of this model, is taken to multiply and add without rounding, to read m / inner rows of an A object as declared (npu-gpu-cpu/npu-infer/bf16_kernel_dev/n1_core_i8_4row.py:46-53), and to add at most one product element to an address in a call (`CoreBody.MultiplyAdd` is such a kernel); one built for more rows would read beyond the object. M, N and K divide into tiles and K into 512-column L2 objects in the value theorems.
- The order of B inside a panel is not joined to the flat K x N order in which PackB stores weights.
- Float rounding: engine and packing arithmetic is over reals, with NaN and infinity as one non-finite value; a quotient too large for the int conversion saturates in the model.
- powf, cosf and sinf: frequencies are a parameter, and only the angle-sum identities and the unit circle are used of cosine and sine.
- Attention, normalisation, the key-value cache and sampling: whole-transformer inference, and the base pointer handed to cpu_attn (npu-gpu-cpu/npu-infer/src/npu_engine_i8.cpp:121).
- XRT, DRM, libdrm and PCI calls: only what they take and give back; buffer sizes and the one-time device handle of ensure_amdgpu are not in the registry's ledger.
- hipFree calls unlock on a lock_guard (rocm-npu/hip_npu_memory.cpp:178); the model releases the lock there. The delegated HIP calls have no effect on the model.
- Pointers of live mappings and handles of live objects are distinct, as the kernel guarantees; they may be reused as soon as they are released, also while their old entry is still being taken apart.
- hipMalloc's dispatch to npu_malloc or the real hipMalloc (rocm-npu/hip_npu_memory.cpp:152-170): an easy member.
- The ledger of the IP block counts references; BAR mapping, power sequencing and the firmware dialogue are comments in the source.
- tests/test_direct_npu_gemm.cpp repeats the packing loops; the daemon, the thin wrappers, the scraper and the benchmarks would add only easy members.
