# Host-side logic of a GPU particle simulation

This project models the integer and record logic that the Rust host code of a Bevy/wgpu
SPH particle simulation runs around its compute shader. It proves properties of that
model in Dafny. There are four parts:

- **Sort-parameter table and buffer setup** (`particle_buffers.dfy`, module
  `ParticleBuffers`). `prepare_particle_buffers` sizes the particle, spatial-lookup,
  offset and density buffers. It pads the particle count to a power of two and counts
  the (stage, step) iterations of a bitonic sort network. It writes one 16-byte
  `SortingParams` record per iteration at the start of its own 256-byte uniform slot.
  A `ran` flag makes this happen once; every later call refreshes the time step and
  counts the frame.
- **Sort dispatch with ping-pong buffers** (`particle_compute.dfy`, module
  `ParticleCompute`). `ParticleComputeNode::run` is modelled as the sequence of commands
  it records:
  - a binning dispatch;
  - one sort dispatch per (stage, step), alternating between the bind group that reads
    the spatial-lookup buffer and the one that reads the temporary buffer;
  - a copy back to the lookup buffer when the last step wrote the temporary one;
  - the simulation dispatch.

  A small dataflow semantics (`Holder`) says which buffer holds the freshest data after
  a command prefix.
- **Settings-window hand-off** (`parameter_gui.dfy`, module `ParameterGui`). `gui_system`
  raises `applied_changes` when any of the nine sliders changes. `apply_gui_updates`
  copies the nine tunables into the simulation configuration and lowers the flag.
- **Initial seeding** (`seeding.dfy`, module `Seeding`). `setup` lays the particles out
  row by row on a lattice `ceil(sqrt n)` columns wide, centred on the origin.

Shared vocabulary:

- `types.dfy`: `u32`, 32-bit wrap-around, `Option` and `Result`.
- `bits.dfy`: powers of two, `next_power_of_two`, `ilog2`, `leading_zeros`, triangular
  numbers, ceiling division.
- `stage_steps.dfy`: the (stage, step) iteration space both sort loops walk.
- `config.dfy`: the simulation configuration record.

Integer arithmetic follows a release build. `u32` overflow wraps, and
`u32::next_power_of_two` of a value above 2^31 is 0. Panics that happen in every build
(`NonZeroU64::new(0).unwrap()`) are modelled as `Err` results.

## Model

| member | source | states |
|---|---|---|
| Bits.NextPowerOfTwo | src/particle_buffers.rs:98 | The padded size is a power of two at least n, and its half is below n (so it is the least such power, see NextPowerOfTwoIsLeast) |
| Bits.NextPowerOfTwoIsLeast | src/particle_buffers.rs:98 | No power of two at least n is smaller than the padded size |
| Bits.U32NextPowerOfTwo | src/particle_buffers.rs:98 | In u32, the result is the padded size up to 2^31; above that, the true padded size is 2^32 and the result wraps to 0 |
| Bits.Ilog2 | src/particle_buffers.rs:100 | The stage count k satisfies 2^k <= x < 2^(k+1) |
| Bits.LeadingZeros32 | src/particle_compute.rs:122 | The leading-zero count is 32 exactly for 0, and x lies below 2^(32 - lz) and at or above 2^(31 - lz) |
| Bits.BitLengthIsIlog2PlusOne | src/particle_compute.rs:122 | For x >= 1, `32 - leading_zeros(x)` is `ilog2(x) + 1` |
| Bits.TriangleClosedForm | src/particle_buffers.rs:101-104 | The number of (stage, step) pairs of s stages is s(s+1)/2 |
| StageSteps.Schedule | src/particle_buffers.rs:120-121 | The loop order has Triangle(s) = s(s+1)/2 pairs (see TriangleClosedForm), each with step <= stage < s |
| StageSteps.ScheduleAt | src/particle_buffers.rs:118-138 | Pair (s, t) is visited at iteration s(s+1)/2 + t, inside the schedule |
| StageSteps.IndexOfScheduleEntry | src/particle_buffers.rs:118-138 | Conversely, iteration i visits the pair whose index is i, so pairs and iterations are in bijection |
| StageSteps.ScheduleIsLexicographic | src/particle_buffers.rs:120-121 | Pairs are visited in strictly increasing lexicographic order |
| ParticleBuffers.AlignToUniform | src/particle_buffers.rs:105-107 | The aligned size is a multiple of 256, at least the size and less than size + 256; `SlotIsOneAlignmentUnit` shows that a 16-byte record gets a slot of exactly 256 bytes |
| ParticleBuffers.ParamsShape | src/particle_buffers.rs:122-129 | The record of a pair has n = padded size and its own step index; its group width is a power of two whose log is stage - step, at most half the padded size, and its group height is 2w - 1 |
| ParticleBuffers.SortTableAt | src/particle_buffers.rs:118-138 | The slot the loops reach at (stage, step), iteration s(s+1)/2 + t, lies inside the table and holds the record of that pair |
| ParticleBuffers.RecordShape | src/particle_buffers.rs:120-129 | Every record has n = padded size, its own step index, a power-of-two group width at most half the padded size, and group height 2w - 1 |
| ParticleBuffers.WriteNextSlot | src/particle_buffers.rs:131-134 | Writing the next record at iteration * 256 stays inside the array and leaves every other slot as it was |
| ParticleBuffers.CountIterations | src/particle_buffers.rs:100-104 | The counting loop ends with stages(stages+1)/2 |
| ParticleBuffers.FillSortingParams | src/particle_buffers.rs:117-138 | The nested loop ends with the counter at the total and every slot holding its record followed by zeros |
| ParticleBuffers.SlotContents | src/particle_buffers.rs:117-138 | After the fill, the slot of (s, t) starts with the 16 bytes of that pair's record and the other 240 bytes are still zero |
| ParticleBuffers.RecordsDoNotOverlap | src/particle_buffers.rs:131-134 | The byte ranges written for two different pairs are disjoint |
| ParticleBuffers.LookupBufferBytes | src/particle_buffers.rs:89 | The lookup buffer is 8 * padded size bytes, between 8n and 16n, for 1 <= n <= 2^31; it is 0 above that |
| ParticleBuffers.CreateBuffers | src/particle_buffers.rs:84-159 | Setup succeeds exactly for 1 <= n <= 2^31 (sizes from ParticleBufferBytes, LookupBufferBytes, OffsetsBufferBytes, DensitiesBufferBytes). It fails on the empty particle buffer for n = 0 and on the empty lookup buffer above 2^31. On success it sizes every buffer and lays out the whole parameter table |
| ParticleBuffers.PreparedConfig | src/particle_buffers.rs:50-210 | The first call (:50-58) takes the camera's view-projection if there is one and leaves the frame count. A later call (:206-210) adds 1 to the frame count (wrapping). Both refresh the time step and change nothing else |
| ParticleBuffers.PrepareParticleBuffers | src/particle_buffers.rs:50-210 | The flag is always set afterwards. Buffer creation is attempted exactly on the first call with a particle system (it either creates the buffers or panics). It succeeds exactly for counts 1..2^31; a count of 0 panics at the particle buffer (:85) and a larger one at the lookup buffer (:94) |
| ParticleBuffers.LaterFramesOnlyCount | src/particle_buffers.rs:206-210 | Once `ran` is set, k frames attempt no setup and advance the frame counter by k modulo 2^32 |
| ParticleBuffers.SetupRunsOnce | src/particle_buffers.rs:50-70 | From a fresh start, any non-empty run of frames attempts buffer creation at most once, and exactly once when the first frame finds the particle system: `ran` is set before the particle-system check, so a first frame without it disables creation for good |
| ParticleCompute.PassWorkgroups | src/particle_compute.rs:112 | The floor count launches at most n threads and more than n - 16 |
| ParticleCompute.CoveringWorkgroups | src/particle_compute.rs:153 | The rounded-up count launches at least the element count and fewer than 16 more, whenever count + 15 fits in 32 bits |
| ParticleCompute.PaddedSize | src/particle_compute.rs:121 | `n.max(1).next_power_of_two()` is a power of two, at least 1 and at least n, for n <= 2^31; it is 0 above that |
| ParticleCompute.StageCount | src/particle_compute.rs:122 | `32 - leading_zeros(np2)` is ilog2(np2) + 1 for np2 >= 1, and 0 for 0 |
| Bits.ShiftLeft32IsWrappedProduct | src/particle_compute.rs:132 | A u32 left shift by s, taken as s doublings that each drop the top bit, is x * 2^s modulo 2^32 |
| ParticleCompute.ShiftOne | src/particle_compute.rs:132 | `1u32 << s` loses no bit for any s < 32, so it is 2^s |
| ParticleCompute.StepParams | src/particle_compute.rs:132-135 | A step's record has the unpadded n, zero padding, a power-of-two j = 2^(stage - step), and k = 2j whenever that fits in 32 bits |
| ParticleCompute.AlternatingIsChained | src/particle_compute.rs:147-158 | Alternating bind groups make every dispatch read the buffer the previous one wrote, and the data is in the lookup buffer exactly after an even number of dispatches |
| ParticleCompute.ChainedAt | src/particle_compute.rs:147-158 | In a chained sequence, every sort dispatch reads the buffer holding the data its prefix left |
| ParticleCompute.SortStage | src/particle_compute.rs:130-159 | The inner loop of one stage issues stage + 1 dispatches, extending a correct prefix of the pass, with `use_swapped`, `in_buf` and `out_buf` following the parity of the dispatch count |
| ParticleCompute.SortSteps | src/particle_compute.rs:124-160 | The nested loop issues exactly logn(logn+1)/2 dispatches, the i-th for the i-th pair with the bind group of i's parity, and ends with in_buf on the temporary buffer exactly when that count is odd |
| ParticleCompute.PassWithCopy | src/particle_compute.rs:147-170 | The loop's dispatches followed by a copy of any length when their number is odd form a chained sort block, and the data ends in the lookup buffer exactly when no copy was needed or the copy moved the whole buffer |
| ParticleCompute.SortPass | src/particle_compute.rs:117-170 | The sort block issues the dispatches, then a copy of the u32 length exactly when the step count is odd. Every dispatch is chained. The data ends in the lookup buffer for every count except 2^28 < n <= 2^29, where it stays in the temporary buffer |
| ParticleCompute.SortPassCorrected | src/particle_compute.rs:117-170 | With the copy length taken in 64 bits, the same dispatches and copy leave the data in the lookup buffer for every count |
| ParticleCompute.PaddedSizeIs | src/particle_compute.rs:121-122 | A count in (2^k, 2^(k+1)] pads to 2^(k+1) and runs k + 2 stages |
| ParticleCompute.CopyBackOutcome | src/particle_compute.rs:121-170 | Counts in (2^28, 2^29] run 465 steps. For every count with an odd step count, the u32 copy length is the full lookup buffer exactly outside that range |
| ParticleCompute.CopyBackOddRange | src/particle_compute.rs:121-168 | For 2^28 < n <= 2^29 the pass runs 465 steps, an odd number, so the copy is issued, and its u32 length differs from the 8 * np2 bytes of the lookup buffer |
| ParticleCompute.EvenStepsAbove | src/particle_compute.rs:121-130 | Above 2^29 particles the pass has an even number of steps, so no copy is issued |
| ParticleCompute.RunComputeNode | src/particle_compute.rs:101-188 | One run is the binning dispatch with n / 16 workgroups, the sort block as written, and the simulation dispatch with n / 16 workgroups, each present exactly when its pipeline is ready |
| ParticleCompute.RunComputeNodeCorrected | src/particle_compute.rs:101-188 | The corrected run: binning and simulation launch the covering workgroup count, and the sort block leaves the data in the lookup buffer for every count |
| ParticleCompute.PaddedSizeCovers | src/particle_compute.rs:121 | For n <= 2^31 the padded size is a power of two with n <= np2 < 2n (n >= 1) |
| ParticleCompute.NodeRunsOneExtraStage | src/particle_compute.rs:121-122 | The node runs ilog2(np2) + 1 stages, one more than the buffer setup's parameter table was sized for |
| ParticleCompute.DispatchParameters | src/particle_compute.rs:132-133 | Up to 2^30 particles, every dispatch of the pass has j = 2^(stage - step) and k = 2j without wrap-around |
| ParticleCompute.CopyBackBytes | src/particle_compute.rs:168 | The copy length as written, computed in u32: it is 8 * np2 whenever that is below 2^32 |
| ParticleCompute.CopyBackCoversLookupBuffer | src/particle_compute.rs:168 | The 64-bit copy length equals the lookup buffer size for every count setup accepts |
| ParticleCompute.CopyBackMatchesLookupBuffer | src/particle_compute.rs:168 | The u32 copy length as written equals the lookup buffer size up to 2^28 particles |
| ParticleCompute.CopyBackBytesWrapsToZero | src/particle_compute.rs:168 | For 2^28 < n <= 2^31 the u32 copy length is 0 while the lookup buffer holds at least 2^32 bytes, so such a copy leaves the data in the temporary buffer |
| ParticleCompute.DefaultCountLeavesParticlesOut | src/particle_compute.rs:112 | With 1000 particles the floor count launches 992 threads, and the covering count 1008 |
| ParticleCompute.PassWorkgroupsMissRemainder | src/particle_compute.rs:186 | Whenever n is not a multiple of 16, the floor count launches fewer than n threads |
| ParameterGui.SetField | src/parameter_gui.rs:36-64 | Setting one slider's value changes that value and no other |
| ParameterGui.FieldsDetermineTunables | src/parameter_gui.rs:7-22 | The nine slider values determine the tunable block |
| ParameterGui.WithTunables | src/parameter_gui.rs:78-86 | The nine assignments make the config's tunables equal the window's, and leave the other fields unchanged |
| ParameterGui.TunablesAndRestDetermineConfig | src/parameter_gui.rs:78-86 | Two configs with the same nine tunables and the same other fields are equal, so the nine assignments are all the apply changes |
| ParameterGui.ApplyGuiUpdates | src/parameter_gui.rs:72-90 | When the flag is up and the resource is changed, the sim's tunables become the window's and the flag goes down. Otherwise both configs are unchanged. The sim's other fields and the window's values never change |
| ParameterGui.ApplyIsIdempotent | src/parameter_gui.rs:77-88 | Applying again with the same change answer changes nothing, and after an application that fired, no later one changes anything |
| ParameterGui.OrAllIsSome | src/parameter_gui.rs:35-64 | The `changed \|=` chain is true exactly when some slider reported a change |
| ParameterGui.GuiSystem | src/parameter_gui.rs:24-71 | Without a context, nothing changes and an error is returned. Otherwise every slider takes its edit, and the flag is up afterwards exactly when it was up before or some slider changed; it is never lowered |
| ParameterGui.WindowThenApply | src/parameter_gui.rs:24-90 | A window frame followed by the hand-off gives the simulation exactly the slider values when the flag went up. The sim is untouched when no slider changed and no change was pending |
| Seeding.CeilSqrt | src/main.rs:71 | The grid width is the least w with w * w >= n |
| Seeding.GridCovers | src/main.rs:71-72 | GridWidth * GridHeight >= n with no row to spare, and the width is 0 exactly for n = 0 |
| Seeding.Setup | src/main.rs:77-95 | The loops push exactly n particles, never more, and the i-th is the one for row i / w, column i % w |
| Seeding.RowMajor | src/main.rs:78-85 | Cell (row, col) of a w-wide lattice is number row * w + col in push order |
| Seeding.SeededParticlesAtRest | src/main.rs:86-93 | Every seeded particle has velocity (0, 0), acceleration (0, -100), zero scratch values and colour (1, 1, 1, 1) |
| Seeding.SeedsInsideGrid | src/main.rs:78-85 | Every particle's row is below the grid height and its column below the width |
| Seeding.ColumnsSymmetric | src/main.rs:75-84 | Column c and column w - 1 - c have opposite x coordinates |
| Seeding.RowsSymmetric | src/main.rs:76-85 | Row r and row h - 1 - r have opposite y coordinates |
| Seeding.SeedsDistinct | src/main.rs:84-85 | No two particles are seeded at the same position |

## Left out

- GPU work: the WGSL compute shader (grid hash, bitonic compare-and-swap, offset table,
  SPH kernels) is not part of this model. Commands are recorded, not executed.
- Bevy and wgpu plumbing: pipeline, layout and bind-group creation, render-graph and
  plugin wiring, the render and debug nodes, and GPU readback in the debug code.
  `bind_group_normal` is taken to read the lookup buffer and write the temporary one,
  and `bind_group_swapped` the reverse. The bind-group constructor that fixes this is
  not part of this model.
- The queue timing of `queue.write_buffer` in the sort loop is not modelled. Each step's
  16-byte record is written to offset 0 of the same buffer before the recorded passes
  run, so on the GPU every dispatch may see the last record. The model records the
  record each step asks for.
- Byte encoding (`bytemuck`, `encase`): a record is 16 opaque byte cells, and the particle
  buffer's contents are not modelled, only its size (`size_of::<Particle>()` = 48).
- Floating point. f32 values are `real`s that are only copied. The clock delta and the
  camera matrix are inputs. Seeding coordinates are exact reals, and the f32
  `sqrt().ceil()` is the exact integer ceiling square root, so f32 rounding for very
  large counts is not modelled.
- Bevy change detection (`is_changed`) is a boolean input. The egui context's
  availability is a boolean input, and each slider's interaction is an optional new
  value. Slider ranges, steps and logarithmic scaling are egui behaviour and are left
  out. A collapsed window behaves as a frame in which no slider is touched.
- The compute node runs once per particle-system entity that has its buffers; the
  model describes one such entity.
- `main.rs` declares a smaller `ParticleConfig` than the one the settings window and the
  debug printer use. The model uses the larger one. Likewise `main.rs` pushes particles
  with `temp1`/`temp2` while `particle.rs` declares `compute_shader_delay`; the seeding
  model follows `main.rs`.
- The config and vertex buffers and the bind group built in the setup branch are not
  sized or checked beyond what is stated above. The config buffer's size is positive by
  construction.
- The `render_queue.write_buffer` uploads: the parameter table on the first call
  (src/particle_buffers.rs:141) and the config block on every later call when the
  buffers exist (:212-219). The model computes the bytes and the config but does not
  model the GPU queue.
- A later retry of buffer creation. `ran` is raised at src/particle_buffers.rs:52, before
  the particle-system check at :70, so when the first frame has no particle system the
  buffers are never created. The model keeps that behaviour (`RunFrames`, `SetupRunsOnce`)
  and does not model a retry.
- ParticleCompute.DispatchParameters: stated only up to 2^30 particles. Above that,
  `k = j * 2` wraps to 0 in the last stage; `StepParams` keeps that wrap-around.
- ParticleCompute.CopyBackMatchesLookupBuffer: stated only up to 2^28 particles,
  because the u32 product wraps above that (see Findings).

## Findings

| source | as written | input that shows it | evidently intended | confidence | as-written member | corrected member |
|---|---|---|---|---|---|---|
| src/particle_compute.rs:112 | `particle_count / WORKGROUP_SIZE` workgroups for the binning pass (and the same at line 186 for the simulation pass) | 1000 particles: 62 workgroups, 992 threads, so 8 particles are never binned or simulated | `(particle_count + 15) / 16` as used for the sort dispatches, covering every particle | medium, not executed | ParticleCompute.DefaultCountLeavesParticlesOut | ParticleCompute.RunComputeNodeCorrected |
| src/particle_compute.rs:168 | `(np2 * size_of::<[u32; 2]>() as u32) as u64`, with the product taken in u32 | n = 2^29: np2 = 2^29, the pass runs 465 steps (odd), and np2 * 8 = 2^32 wraps to 0, so the copy moves nothing and the sorted data stays in the temporary buffer. The same holds for every n in (2^28, 2^29]; above 2^29 the step count is even and no copy is issued | the product taken in u64, equal to the lookup buffer size | low (such buffers exceed common device limits), not executed | ParticleCompute.CopyBackOddRange | ParticleCompute.SortPassCorrected |

`RunComputeNode` and `SortPass` model the code as written, with `PassWorkgroups` and
`CopyBackBytes`. `RunComputeNodeCorrected` and `SortPassCorrected` use the covering
workgroup count and the 64-bit copy length, and `CoveringWorkgroups` and
`CopyBackCoversLookupBuffer` state the intended properties.
