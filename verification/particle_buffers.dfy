/** One-time GPU buffer preparation (`prepare_particle_buffers`): the byte
    sizes of the particle, spatial-lookup, offset and density buffers, the
    table of bitonic-sort parameter records (one 16-byte record per
    (stage, step) iteration, each at the start of its own 256-byte uniform
    slot), and the `ran` flag that makes the setup run once while every later
    call refreshes the time step and advances the frame counter. The uploads
    through the render queue are not modelled. */
module ParticleBuffers {
  import opened Types
  import opened Bits
  import opened StageSteps
  import opened Config

  /** The record the sort shader reads for one iteration (four u32, repr(C)). */
  datatype SortingParams = SortingParams(n: u32, groupWidth: u32, groupHeight: u32, stepIndex: u32)

  /** `size_of::<SortingParams>()` */
  const SORTING_PARAMS_SIZE: nat := 16
  /** The device's minimum uniform-buffer offset alignment assumed by the host. */
  const UNIFORM_ALIGNMENT: nat := 256
  /** `size_of::<Particle>()`: three `[f32; 2]`, a u32, an f32 and a `[f32; 4]`. */
  const PARTICLE_SIZE: nat := 48
  /** `size_of::<u32>()` and `size_of::<f32>()` */
  const WORD_SIZE: nat := 4

  /** `((size + 255) / 256) * 256` */
  function AlignToUniform(size: nat): (r: nat)
    ensures r % UNIFORM_ALIGNMENT == 0
    ensures size <= r < size + UNIFORM_ALIGNMENT
  {
    (size + UNIFORM_ALIGNMENT - 1) / UNIFORM_ALIGNMENT * UNIFORM_ALIGNMENT
  }

  /** A sort record occupies a slot of exactly one alignment unit. */
  lemma SlotIsOneAlignmentUnit()
    ensures AlignToUniform(SORTING_PARAMS_SIZE) == UNIFORM_ALIGNMENT
  {
  }

  /** The record written for one (stage, step) pair. */
  function ParamsFor(nextPow2: u32, ss: StageStep): (p: SortingParams)
    requires ss.step <= ss.stage < 31
    // The width clause only names the record's width for the proofs that use
    // it (ParamsShape, FillStep); the facts about the record are ParamsShape's.
    ensures p.groupWidth == Pow2(ss.stage - ss.step)
  {
    var width := Pow2(ss.stage - ss.step);
    Pow2Below(ss.stage - ss.step);
    SortingParams(nextPow2, width, 2 * width - 1, ss.step)
  }

  /** The records in iteration order. */
  function SortTable(nextPow2: u32, stages: nat): (t: seq<SortingParams>)
    requires stages <= 31
    // The element-wise view of the comprehension, which the table-fill proofs
    // index into; what the table holds is stated by SortTableAt and RecordShape.
    ensures |t| == Triangle(stages)
    ensures forall i :: 0 <= i < |t| ==> t[i] == ParamsFor(nextPow2, Schedule(stages)[i])
  {
    var sched := Schedule(stages);
    seq(|sched|, i requires 0 <= i < |sched| => ParamsFor(nextPow2, sched[i]))
  }

  /** The slot the loops reach at (stage, step) holds the record of that
      pair. */
  lemma SortTableAt(nextPow2: u32, stages: nat, stage: nat, step: nat)
    requires step <= stage < stages <= 31
    ensures IterationIndex(stage, step) < |SortTable(nextPow2, stages)|
    ensures SortTable(nextPow2, stages)[IterationIndex(stage, step)] == ParamsFor(nextPow2, StageStep(stage, step))
  {
    ScheduleAt(stages, stage, step);
  }

  /** Every record carries the padded size and its own step, and its group
      width is a power of two that is at most half the padded size, with the
      group height one less than twice the width. */
  lemma RecordShape(nextPow2: u32, i: nat)
    requires IsPowerOfTwo(nextPow2)
    requires i < Triangle(Ilog2(nextPow2))
    ensures Ilog2(nextPow2) <= 31
    ensures var p := SortTable(nextPow2, Ilog2(nextPow2))[i];
            && p.n == nextPow2
            && p.stepIndex == Schedule(Ilog2(nextPow2))[i].step
            && IsPowerOfTwo(p.groupWidth)
            && p.groupWidth <= nextPow2 / 2
            && p.groupHeight == 2 * p.groupWidth - 1
  {
    var stages := Ilog2(nextPow2);
    HalfOfPowerOfTwo(nextPow2);
    var ss := Schedule(stages)[i];
    assert ss.step <= ss.stage < stages;
    assert SortTable(nextPow2, stages)[i] == ParamsFor(nextPow2, ss);
    ParamsShape(nextPow2, stages, ss);
  }

  /** The record of one pair carries the padded size and its own step; its
      group width is the power of two whose logarithm is the distance
      `stage - step`, at most half the padded size, and the group height is
      one less than twice the width. */
  lemma ParamsShape(nextPow2: u32, stages: nat, ss: StageStep)
    requires IsPowerOfTwo(nextPow2) && stages == Ilog2(nextPow2)
    requires ss.step <= ss.stage < stages
    ensures stages <= 31
    ensures var p := ParamsFor(nextPow2, ss);
            && p.n == nextPow2
            && p.stepIndex == ss.step
            && IsPowerOfTwo(p.groupWidth)
            && Ilog2(p.groupWidth) == ss.stage - ss.step
            && p.groupWidth <= nextPow2 / 2
            && p.groupHeight == 2 * p.groupWidth - 1
  {
    var d := ss.stage - ss.step;
    HalfOfPowerOfTwo(nextPow2);
    var w := ParamsFor(nextPow2, ss).groupWidth;
    assert w == Pow2(d);
    Pow2IsPowerOfTwo(d);
    Ilog2OfPow2(d);
    Pow2Monotone(d, stages - 1);
  }

  lemma HalfOfPowerOfTwo(x: u32)
    requires IsPowerOfTwo(x)
    ensures 1 <= x && Ilog2(x) <= 31
    ensures Ilog2(x) >= 1 ==> x / 2 == Pow2(Ilog2(x) - 1)
  {
    PowerOfTwoIsPow2OfIlog2(x);
    Ilog2OfU32(x);
  }

  /** Contents of the upload array, one cell per byte: either still zero or
      byte `index` of the encoding of a record. */
  datatype ByteCell = Zero | ParamByte(params: SortingParams, index: nat)

  /** `bytemuck::bytes_of`: the 16 bytes of a record, kept opaque. */
  function BytesOf(p: SortingParams): (r: seq<ByteCell>)
    ensures |r| == SORTING_PARAMS_SIZE
  {
    seq(SORTING_PARAMS_SIZE, b requires 0 <= b => ParamByte(p, b))
  }

  /** Byte i of the upload array once the first `written` records of `table`
      sit at the start of their slots. */
  function SlotCell(table: seq<SortingParams>, written: nat, i: nat): ByteCell
    requires i < |table| * UNIFORM_ALIGNMENT
  {
    var slot := i / UNIFORM_ALIGNMENT;
    var offset := i % UNIFORM_ALIGNMENT;
    if slot < written && offset < SORTING_PARAMS_SIZE then ParamByte(table[slot], offset) else Zero
  }

  predicate Laid(data: seq<ByteCell>, table: seq<SortingParams>, written: nat)
  {
    && |data| == |table| * UNIFORM_ALIGNMENT
    && forall i :: 0 <= i < |data| ==> data[i] == SlotCell(table, written, i)
  }

  /** Writing the next record at its aligned offset stays inside the array and
      disturbs no other slot. */
  lemma WriteNextSlot(data: seq<ByteCell>, table: seq<SortingParams>, written: nat)
    requires Laid(data, table, written)
    requires written < |table|
    ensures written * UNIFORM_ALIGNMENT + SORTING_PARAMS_SIZE <= |data|
    ensures Laid(data[..written * UNIFORM_ALIGNMENT] + BytesOf(table[written])
                   + data[written * UNIFORM_ALIGNMENT + SORTING_PARAMS_SIZE..],
                 table, written + 1)
  {
    var offset := written * UNIFORM_ALIGNMENT;
    var bytes := BytesOf(table[written]);
    var after := data[..offset] + bytes + data[offset + SORTING_PARAMS_SIZE..];
    assert |after| == |data|;
    forall i | 0 <= i < |after|
      ensures after[i] == SlotCell(table, written + 1, i)
    {
      if i < offset {
        assert after[i] == data[i];
        assert i / UNIFORM_ALIGNMENT < written;
      } else if i < offset + SORTING_PARAMS_SIZE {
        assert after[i] == bytes[i - offset];
        assert i / UNIFORM_ALIGNMENT == written;
        assert i % UNIFORM_ALIGNMENT == i - offset;
      } else {
        assert after[i] == data[i];
        assert i / UNIFORM_ALIGNMENT > written
            || (i / UNIFORM_ALIGNMENT == written && i % UNIFORM_ALIGNMENT >= SORTING_PARAMS_SIZE);
      }
    }
  }

  /** The loop at the top of the bitonic setup: one iteration per step of
      every stage. */
  method CountIterations(numStages: nat) returns (total: nat)
    ensures total == numStages * (numStages + 1) / 2
    ensures total == Triangle(numStages)
  {
    total := 0;
    var stage := 0;
    while stage < numStages
      invariant stage <= numStages
      invariant total == Triangle(stage)
    {
      total := total + stage + 1;
      stage := stage + 1;
    }
    TriangleClosedForm(numStages);
  }

  /** Writing the record of (stage, step) at iteration `Triangle(stage) + step`
      lays the next entry of the table. */
  lemma FillStep(data: seq<ByteCell>, nextPow2: u32, numStages: nat, stage: nat, step: nat, iteration: nat)
    requires step <= stage < numStages <= 31
    requires iteration == Triangle(stage) + step
    requires Laid(data, SortTable(nextPow2, numStages), iteration)
    ensures iteration * UNIFORM_ALIGNMENT + SORTING_PARAMS_SIZE <= |data|
    ensures Laid(data[..iteration * UNIFORM_ALIGNMENT] + BytesOf(ParamsFor(nextPow2, StageStep(stage, step)))
                   + data[iteration * UNIFORM_ALIGNMENT + SORTING_PARAMS_SIZE..],
                 SortTable(nextPow2, numStages), iteration + 1)
  {
    var table := SortTable(nextPow2, numStages);
    SortTableAt(nextPow2, numStages, stage, step);
    var params := ParamsFor(nextPow2, StageStep(stage, step));
    assert table[iteration] == params;
    WriteNextSlot(data, table, iteration);
  }

  /** The nested loop that writes one record per (stage, step) into a zeroed
      array of `totalIterations` slots of 256 bytes. */
  method FillSortingParams(nextPow2: u32, numStages: nat, totalIterations: nat)
    returns (data: seq<ByteCell>, iteration: nat)
    requires numStages <= 31
    requires totalIterations == Triangle(numStages)
    ensures iteration == totalIterations
    ensures Laid(data, SortTable(nextPow2, numStages), totalIterations)
  {
    ghost var table := SortTable(nextPow2, numStages);
    data := seq(totalIterations * UNIFORM_ALIGNMENT, _ => Zero);
    iteration := 0;
    var stageIndex := 0;
    while stageIndex < numStages
      invariant stageIndex <= numStages
      invariant iteration == Triangle(stageIndex)
      invariant Laid(data, table, iteration)
    {
      var stepIndex := 0;
      while stepIndex <= stageIndex
        invariant stepIndex <= stageIndex + 1
        invariant iteration == Triangle(stageIndex) + stepIndex
        invariant Laid(data, table, iteration)
      {
        var params := ParamsFor(nextPow2, StageStep(stageIndex, stepIndex));
        var offset := iteration * UNIFORM_ALIGNMENT;
        FillStep(data, nextPow2, numStages, stageIndex, stepIndex, iteration);
        data := data[..offset] + BytesOf(params) + data[offset + SORTING_PARAMS_SIZE..];
        iteration := iteration + 1;
        stepIndex := stepIndex + 1;
      }
      TriangleStep(stageIndex);
      stageIndex := stageIndex + 1;
    }
  }

  /** After the fill, the slot of (stage, step) starts with that pair's record
      and the rest of the slot is still zero. */
  lemma SlotContents(data: seq<ByteCell>, nextPow2: u32, numStages: nat, stage: nat, step: nat)
    requires numStages <= 31
    requires Laid(data, SortTable(nextPow2, numStages), Triangle(numStages))
    requires step <= stage < numStages
    ensures var offset := IterationIndex(stage, step) * UNIFORM_ALIGNMENT;
            && offset + UNIFORM_ALIGNMENT <= |data|
            && data[offset..offset + SORTING_PARAMS_SIZE] == BytesOf(ParamsFor(nextPow2, StageStep(stage, step)))
            && forall i :: offset + SORTING_PARAMS_SIZE <= i < offset + UNIFORM_ALIGNMENT ==> data[i] == Zero
  {
    var table := SortTable(nextPow2, numStages);
    var written := Triangle(numStages);
    var it := IterationIndex(stage, step);
    ScheduleAt(numStages, stage, step);
    var params := ParamsFor(nextPow2, StageStep(stage, step));
    assert table[it] == params;
    var offset := it * UNIFORM_ALIGNMENT;
    var expected := BytesOf(params);
    forall i | offset <= i < offset + SORTING_PARAMS_SIZE
      ensures data[i] == expected[i - offset]
    {
      SlotByte(table, written, it, i);
    }
    assert data[offset..offset + SORTING_PARAMS_SIZE] == expected;
    forall i | offset + SORTING_PARAMS_SIZE <= i < offset + UNIFORM_ALIGNMENT
      ensures data[i] == Zero
    {
      SlotByte(table, written, it, i);
    }
  }

  /** Where byte i of slot `it` comes from. */
  lemma SlotByte(table: seq<SortingParams>, written: nat, it: nat, i: nat)
    requires it < written <= |table|
    requires it * UNIFORM_ALIGNMENT <= i < it * UNIFORM_ALIGNMENT + UNIFORM_ALIGNMENT
    ensures i < |table| * UNIFORM_ALIGNMENT
    ensures SlotCell(table, written, i)
            == if i - it * UNIFORM_ALIGNMENT < SORTING_PARAMS_SIZE
               then ParamByte(table[it], i - it * UNIFORM_ALIGNMENT) else Zero
  {
    assert i / UNIFORM_ALIGNMENT == it;
    assert i % UNIFORM_ALIGNMENT == i - it * UNIFORM_ALIGNMENT;
  }

  /** Two different (stage, step) pairs write byte ranges that do not overlap. */
  lemma RecordsDoNotOverlap(numStages: nat, a: StageStep, b: StageStep)
    requires a.step <= a.stage < numStages
    requires b.step <= b.stage < numStages
    requires a != b
    ensures var startA := IterationIndex(a.stage, a.step) * UNIFORM_ALIGNMENT;
            var startB := IterationIndex(b.stage, b.step) * UNIFORM_ALIGNMENT;
            startA + SORTING_PARAMS_SIZE <= startB || startB + SORTING_PARAMS_SIZE <= startA
  {
    ScheduleAt(numStages, a.stage, a.step);
    ScheduleAt(numStages, b.stage, b.step);
  }

  /** `size_of::<Particle>() * particle_count` */
  function ParticleBufferBytes(particleCount: u32): nat
  {
    PARTICLE_SIZE * particleCount
  }

  /** `size_of::<u32>() * 2 * particle_count.next_power_of_two()`: one
      (key, index) pair of u32 per padded slot. */
  function LookupBufferBytes(particleCount: u32): (r: nat)
    ensures 1 <= particleCount <= 0x8000_0000 ==>
              && r == 8 * NextPowerOfTwo(particleCount)
              && 8 * particleCount <= r < 16 * particleCount
    ensures particleCount > 0x8000_0000 ==> r == 0
  {
    WORD_SIZE * 2 * U32NextPowerOfTwo(particleCount)
  }

  /** One u32 offset per particle. */
  function OffsetsBufferBytes(particleCount: u32): nat
  {
    WORD_SIZE * particleCount
  }

  /** One f32 density per particle. */
  function DensitiesBufferBytes(particleCount: u32): nat
  {
    WORD_SIZE * particleCount
  }

  /** The `NonZeroU64::new(size).unwrap()` calls that can fail. */
  datatype SetupError = EmptyParticleBuffer | EmptyLookupBuffer

  datatype GpuBuffers = GpuBuffers(
    particleBytes: nat,
    lookupBytes: nat,
    sortingParamsBytes: nat,
    sortingParamsData: seq<ByteCell>,
    offsetsBytes: nat,
    densitiesBytes: nat)

  /** What a successful setup allocates for `particleCount` particles. */
  predicate BuffersFor(b: GpuBuffers, particleCount: u32)
    requires 1 <= particleCount <= 0x8000_0000
  {
    var nextPow2 := NextPowerOfTwo(particleCount);
    var stages := Ilog2(nextPow2);
    && stages <= 31
    && b.particleBytes == PARTICLE_SIZE * particleCount
    && b.lookupBytes == 8 * nextPow2
    && b.sortingParamsBytes == Triangle(stages) * UNIFORM_ALIGNMENT
    && |b.sortingParamsData| == b.sortingParamsBytes
    && Laid(b.sortingParamsData, SortTable(nextPow2, stages), Triangle(stages))
    && b.offsetsBytes == WORD_SIZE * particleCount
    && b.densitiesBytes == WORD_SIZE * particleCount
  }

  /** The buffer-creating branch of the first call. A zero particle count makes
      the particle buffer empty, and a count above 2^31 makes
      `next_power_of_two` wrap to 0 and the lookup buffer empty; both
      abort on the non-zero size check. */
  method CreateBuffers(particleCount: u32) returns (r: Result<GpuBuffers, SetupError>)
    ensures r.Ok? <==> 1 <= particleCount <= 0x8000_0000
    ensures particleCount == 0 <==> r == Err(EmptyParticleBuffer)
    ensures particleCount > 0x8000_0000 <==> r == Err(EmptyLookupBuffer)
    ensures r.Ok? ==> 1 <= particleCount <= 0x8000_0000 && BuffersFor(r.value, particleCount)
  {
    var particleBytes := ParticleBufferBytes(particleCount);
    if particleBytes == 0 {
      return Err(EmptyParticleBuffer);
    }
    var lookupBytes := LookupBufferBytes(particleCount);
    if lookupBytes == 0 {
      return Err(EmptyLookupBuffer);
    }
    var nextPow2 := U32NextPowerOfTwo(particleCount);
    var numStages := Ilog2(nextPow2);
    Ilog2OfU32(nextPow2);
    var totalIterations := CountIterations(numStages);
    var alignedSize := AlignToUniform(SORTING_PARAMS_SIZE);
    SlotIsOneAlignmentUnit();
    var data, _ := FillSortingParams(nextPow2, numStages, totalIterations);
    r := Ok(GpuBuffers(
      particleBytes,
      lookupBytes,
      totalIterations * alignedSize,
      data,
      OffsetsBufferBytes(particleCount),
      DensitiesBufferBytes(particleCount)));
  }

  /** What the surrounding engine hands the system on one frame: the clock's
      delta, the camera's view-projection if a camera exists, and whether the
      particle-system entity exists. */
  datatype FrameInput = FrameInput(
    deltaTime: real,
    cameraViewProj: Option<seq<seq<real>>>,
    particleSystemPresent: bool)

  datatype SetupOutcome =
    | NotRun
    | NoParticleSystem
    | Created(buffers: GpuBuffers)
    | Panicked(error: SetupError)

  /** The configuration after one call of the system. */
  function PreparedConfig(ran: bool, config: ParticleConfig, input: FrameInput): (c: ParticleConfig)
    ensures c.deltaTime == input.deltaTime
    ensures !ran ==> c.frameCount == config.frameCount
    ensures ran ==> c.frameCount == Wrap32(config.frameCount + 1) && c.viewProj == config.viewProj
    ensures !ran && input.cameraViewProj.Some? ==> c.viewProj == input.cameraViewProj.value
    ensures !ran && input.cameraViewProj.None? ==> c.viewProj == config.viewProj
    ensures c.(deltaTime := config.deltaTime, frameCount := config.frameCount, viewProj := config.viewProj) == config
  {
    if !ran then
      var viewed := if input.cameraViewProj.Some? then config.(viewProj := input.cameraViewProj.value) else config;
      viewed.(deltaTime := input.deltaTime)
    else
      config.(deltaTime := input.deltaTime, frameCount := Wrap32(config.frameCount + 1))
  }

  /** One call of `prepare_particle_buffers`: the first call sets `ran` and runs
      the setup, which creates the buffers when the particle system is present
      and panics on a count the buffers cannot hold; every later call refreshes
      the time step and counts the frame. */
  method PrepareParticleBuffers(ran: bool, config: ParticleConfig, input: FrameInput)
    returns (ranAfter: bool, configAfter: ParticleConfig, outcome: SetupOutcome)
    ensures ranAfter
    ensures configAfter == PreparedConfig(ran, config, input)
    ensures ran ==> outcome == NotRun
    ensures !ran && !input.particleSystemPresent ==> outcome == NoParticleSystem
    ensures !ran && input.particleSystemPresent ==>
              (outcome.Created? <==> 1 <= config.particleCount <= 0x8000_0000)
    ensures !ran && input.particleSystemPresent && !(1 <= config.particleCount <= 0x8000_0000) ==>
              outcome == Panicked(if config.particleCount == 0 then EmptyParticleBuffer else EmptyLookupBuffer)
    ensures (outcome.Created? || outcome.Panicked?) <==> !ran && input.particleSystemPresent
    ensures outcome.Created? ==>
              1 <= config.particleCount <= 0x8000_0000 && BuffersFor(outcome.buffers, config.particleCount)
  {
    ranAfter := true;
    configAfter := PreparedConfig(ran, config, input);
    if ran {
      outcome := NotRun;
    } else if !input.particleSystemPresent {
      outcome := NoParticleSystem;
    } else {
      var r := CreateBuffers(configAfter.particleCount);
      outcome := if r.Ok? then Created(r.value) else Panicked(r.error);
    }
  }

  /** The `ran` flag, the configuration and the number of buffer creations
      attempted after a run of frames. A creation is attempted only on a call
      that finds `ran` down and the particle system present: `ran` is raised
      before the particle-system check, so a first frame without the particle
      system uses up the one call that could have created the buffers. */
  function RunFrames(ran: bool, config: ParticleConfig, inputs: seq<FrameInput>): (bool, ParticleConfig, nat)
    decreases |inputs|
  {
    if |inputs| == 0 then (ran, config, 0)
    else
      var next := RunFrames(true, PreparedConfig(ran, config, inputs[0]), inputs[1..]);
      (next.0, next.1, next.2 + if !ran && inputs[0].particleSystemPresent then 1 else 0)
  }

  lemma {:induction false} LaterFramesOnlyCount(config: ParticleConfig, inputs: seq<FrameInput>)
    ensures RunFrames(true, config, inputs).0
    ensures RunFrames(true, config, inputs).2 == 0
    ensures RunFrames(true, config, inputs).1.frameCount == Wrap32(config.frameCount + |inputs|)
    decreases |inputs|
  {
    if |inputs| > 0 {
      var c := PreparedConfig(true, config, inputs[0]);
      LaterFramesOnlyCount(c, inputs[1..]);
      WrapAdd(config.frameCount + 1, |inputs| - 1);
    }
  }

  /** Over any run of frames starting from a fresh system, buffer creation is
      attempted at most once, and exactly once when the first frame finds the
      particle system; a first frame without it disables creation for good.
      The frame counter advances by one on every frame after the first. */
  lemma SetupRunsOnce(config: ParticleConfig, inputs: seq<FrameInput>)
    requires |inputs| >= 1
    ensures RunFrames(false, config, inputs).0
    ensures RunFrames(false, config, inputs).2 <= 1
    ensures RunFrames(false, config, inputs).2 == 1 <==> inputs[0].particleSystemPresent
    ensures RunFrames(false, config, inputs).1.frameCount == Wrap32(config.frameCount + |inputs| - 1)
  {
    LaterFramesOnlyCount(PreparedConfig(false, config, inputs[0]), inputs[1..]);
  }
}
