/** The compute node's per-frame command sequence (`ParticleComputeNode::run`):
    a binning dispatch, the bitonic sort as one dispatch per (stage, step)
    ping-ponging between the spatial-lookup buffer and a temporary buffer, a
    copy back to the spatial-lookup buffer when the last step wrote the
    temporary one, and the simulation dispatch. The GPU work itself is not
    modelled; the commands are. */
module ParticleCompute {
  import opened Types
  import opened Bits
  import opened StageSteps
  import ParticleBuffers

  const WORKGROUP_SIZE: nat := 16

  /** The record this node uploads before each sort dispatch. */
  datatype SortingParams = SortingParams(n: u32, j: u32, k: u32, padding: u32)

  datatype BufferId = SpatialLookup | TempSorting

  /** `bind_group_normal` reads the spatial-lookup buffer and writes the
      temporary one; `bind_group_swapped` does the reverse. */
  datatype BindGroup = Normal | Swapped

  function InputOf(g: BindGroup): BufferId
  {
    if g == Normal then SpatialLookup else TempSorting
  }

  function OutputOf(g: BindGroup): BufferId
  {
    if g == Normal then TempSorting else SpatialLookup
  }

  datatype Command =
    | BinDispatch(workgroups: u32)
    | SortDispatch(params: SortingParams, bindGroup: BindGroup, workgroups: u32)
    | CopyToLookup(source: BufferId, bytes: nat)
    | SimulateDispatch(workgroups: u32)

  /** `particle_count / WORKGROUP_SIZE`, used by the binning and simulation
      passes: the threads launched never exceed the particle count, and fall
      short of it by the remainder. */
  function PassWorkgroups(particleCount: u32): (r: u32)
    ensures r * WORKGROUP_SIZE <= particleCount < r * WORKGROUP_SIZE + WORKGROUP_SIZE
  {
    particleCount / WORKGROUP_SIZE
  }

  /** `(count + WORKGROUP_SIZE - 1) / WORKGROUP_SIZE` in u32, used by the sort
      dispatches: enough threads for every element, and fewer than one extra
      workgroup. */
  function CoveringWorkgroups(count: u32): (r: u32)
    ensures count + WORKGROUP_SIZE - 1 < U32_MODULUS ==>
              count <= r * WORKGROUP_SIZE < count + WORKGROUP_SIZE
  {
    Wrap32(count + WORKGROUP_SIZE - 1) / WORKGROUP_SIZE
  }

  /** `n.max(1).next_power_of_two()` */
  function PaddedSize(n: u32): (np2: u32)
    ensures n <= 0x8000_0000 ==> IsPowerOfTwo(np2) && 1 <= np2 && n <= np2
    ensures n <= 0x8000_0000 ==> np2 == 1 || np2 / 2 < n
    ensures n > 0x8000_0000 ==> np2 == 0
  {
    U32NextPowerOfTwo(if n < 1 then 1 else n)
  }

  /** `32 - np2.leading_zeros()`: one more than log2 of the padded size. */
  function StageCount(np2: u32): (logn: nat)
    ensures np2 >= 1 ==> logn == Ilog2(np2) + 1
    ensures np2 == 0 ==> logn == 0
    ensures logn <= 32
  {
    if np2 >= 1 then BitLengthIsIlog2PlusOne(np2); 32 - LeadingZeros32(np2)
    else 32 - LeadingZeros32(np2)
  }

  /** `1u32 << s`: for every shift the u32 range admits, no bit is lost. */
  function ShiftOne(s: nat): (r: u32)
    requires s < 32
    ensures r == Pow2(s)
  {
    ShiftLeft32IsWrappedProduct(1, s);
    Pow2Below(s);
    ShiftLeft32(1, s)
  }

  /** The parameters of one sort step: `j = 1 << (stage - step)`, `k = j * 2`
      (wrapping), `n` the unpadded particle count. */
  function StepParams(n: u32, ss: StageStep): (p: SortingParams)
    requires ss.step <= ss.stage < 32
    ensures p.n == n && p.padding == 0
    ensures IsPowerOfTwo(p.j) && p.j == Pow2(ss.stage - ss.step)
    ensures p.j <= 0x4000_0000 ==> p.k == 2 * p.j
  {
    var j := ShiftOne(ss.stage - ss.step);
    Pow2IsPowerOfTwo(ss.stage - ss.step);
    SortingParams(n, j, Wrap32(j as nat * 2), 0)
  }

  /** The dispatch the loop issues at iteration i for pair ss. */
  function SortCommand(n: u32, np2: u32, ss: StageStep, i: nat): Command
    requires ss.step <= ss.stage < 32
  {
    SortDispatch(StepParams(n, ss), if i % 2 == 0 then Normal else Swapped, CoveringWorkgroups(np2))
  }

  /** `(np2 * size_of::<[u32; 2]>() as u32) as u64`: the product is taken in
      u32 and wraps. */
  function CopyBackBytes(np2: u32): (r: u32)
    ensures 8 * np2 < U32_MODULUS ==> r == 8 * np2
  {
    Wrap32(np2 * 8)
  }

  /** The copy length computed in 64 bits, which cannot wrap for a 32-bit
      padded size. */
  function CopyBackBytesWide(np2: u32): nat
  {
    np2 * 8
  }

  /** The buffer that holds the freshest lookup data after the commands ran,
      starting from the spatial-lookup buffer. A sort dispatch leaves it in the
      buffer its bind group writes; a copy moves it to the lookup buffer only
      when it copies the holder in full (`fullBytes`). */
  function Holder(cmds: seq<Command>, fullBytes: nat): BufferId
  {
    if |cmds| == 0 then SpatialLookup
    else After(Holder(cmds[..|cmds| - 1], fullBytes), cmds[|cmds| - 1], fullBytes)
  }

  function After(holder: BufferId, c: Command, fullBytes: nat): BufferId
  {
    match c
    case SortDispatch(_, g, _) => OutputOf(g)
    case CopyToLookup(src, bytes) => if src == holder && bytes == fullBytes then SpatialLookup else holder
    case _ => holder
  }

  /** Every sort dispatch reads the buffer that holds the freshest data. */
  predicate Chained(cmds: seq<Command>, fullBytes: nat)
  {
    if |cmds| == 0 then true
    else
      var init := cmds[..|cmds| - 1];
      var last := cmds[|cmds| - 1];
      && Chained(init, fullBytes)
      && (last.SortDispatch? ==> InputOf(last.bindGroup) == Holder(init, fullBytes))
  }

  lemma ChainedAppend(cmds: seq<Command>, c: Command, fullBytes: nat)
    requires Chained(cmds, fullBytes)
    requires c.SortDispatch? ==> InputOf(c.bindGroup) == Holder(cmds, fullBytes)
    ensures Chained(cmds + [c], fullBytes)
    ensures Holder(cmds + [c], fullBytes) == After(Holder(cmds, fullBytes), c, fullBytes)
  {
    assert (cmds + [c])[..|cmds|] == cmds;
  }

  /** The i-th command of a chained sequence, when it is a sort dispatch, reads
      the buffer holding the data the first i commands left. */
  lemma {:induction false} ChainedAt(cmds: seq<Command>, fullBytes: nat, i: nat)
    requires Chained(cmds, fullBytes)
    requires i < |cmds| && cmds[i].SortDispatch?
    ensures InputOf(cmds[i].bindGroup) == Holder(cmds[..i], fullBytes)
  {
    var init := cmds[..|cmds| - 1];
    if i < |cmds| - 1 {
      ChainedAt(init, fullBytes, i);
      assert init[..i] == cmds[..i];
    }
  }

  /** Dispatches whose bind groups alternate, starting with the normal one,
      each read the buffer the previous one wrote; after them the data is in
      the lookup buffer exactly when their number is even. */
  lemma {:induction false} AlternatingIsChained(cmds: seq<Command>, fullBytes: nat)
    requires forall i :: 0 <= i < |cmds| ==>
               cmds[i].SortDispatch? && cmds[i].bindGroup == (if i % 2 == 0 then Normal else Swapped)
    ensures Chained(cmds, fullBytes)
    ensures Holder(cmds, fullBytes) == (if |cmds| % 2 == 0 then SpatialLookup else TempSorting)
  {
    if |cmds| > 0 {
      var init := cmds[..|cmds| - 1];
      assert forall i :: 0 <= i < |init| ==> init[i] == cmds[i];
      AlternatingIsChained(init, fullBytes);
    }
  }

  /** The dispatches of the sort block for particle count n: one per
      (stage, step) of a `logn`-stage network with alternating bind groups,
      each reading the buffer the previous one wrote, then a copy of
      `copyBytes` bytes from the temporary buffer exactly when the number of
      dispatches is odd. */
  ghost predicate DispatchesThenCopy(n: u32, cmds: seq<Command>, copyBytes: nat)
  {
    var np2 := PaddedSize(n);
    var logn := StageCount(np2);
    var steps := Triangle(logn);
    && |cmds| == steps + (if steps % 2 == 1 then 1 else 0)
    && (forall i :: 0 <= i < steps ==> cmds[i] == SortCommand(n, np2, Schedule(logn)[i], i))
    && (steps % 2 == 1 ==> cmds[steps] == CopyToLookup(TempSorting, copyBytes))
    && Chained(cmds, 8 * np2)
  }

  /** The sort block as written, with the u32 copy length: the sorted data
      ends in the lookup buffer for every particle count except
      2^28 < n <= 2^29, where the pass has an odd number of steps and the copy
      length wraps to 0. */
  ghost predicate IsSortPass(n: u32, cmds: seq<Command>)
  {
    && DispatchesThenCopy(n, cmds, CopyBackBytes(PaddedSize(n)))
    && (Holder(cmds, 8 * PaddedSize(n)) == SpatialLookup <==> !(0x1000_0000 < n <= 0x2000_0000))
  }

  /** The sort block with the copy length taken in 64 bits: the sorted data
      always ends in the lookup buffer. */
  ghost predicate IsCorrectedSortPass(n: u32, cmds: seq<Command>)
  {
    && DispatchesThenCopy(n, cmds, CopyBackBytesWide(PaddedSize(n)))
    && Holder(cmds, 8 * PaddedSize(n)) == SpatialLookup
  }

  /** cmds are the first |cmds| dispatches of a `logn`-stage sort pass. */
  predicate IsStepPrefix(cmds: seq<Command>, n: u32, np2: u32, logn: nat)
    requires logn <= 32
  {
    && |cmds| <= Triangle(logn)
    && forall i :: 0 <= i < |cmds| ==> cmds[i] == SortCommand(n, np2, Schedule(logn)[i], i)
  }

  /** Appending the dispatch for (stage, step) at iteration
      `Triangle(stage) + step` extends a correct prefix of the sort pass by one. */
  lemma AppendStep(cmds: seq<Command>, c: Command, n: u32, np2: u32, logn: nat, stage: nat, step: nat)
    requires step <= stage < logn <= 32
    requires |cmds| == Triangle(stage) + step
    requires IsStepPrefix(cmds, n, np2, logn)
    requires c == SortCommand(n, np2, StageStep(stage, step), |cmds|)
    ensures IsStepPrefix(cmds + [c], n, np2, logn)
  {
    ScheduleAt(logn, stage, step);
  }

  lemma ParityFlips(m: nat)
    ensures ((m + 1) % 2 == 1) == !(m % 2 == 1)
  {
  }

  /** The loop state after some dispatches: `use_swapped`, `in_buf` and
      `out_buf` follow the parity of their number, and they are a correct
      prefix of the pass. */
  predicate LoopState(cmds: seq<Command>, useSwapped: bool, inBuf: BufferId, outBuf: BufferId,
                      n: u32, np2: u32, logn: nat)
    requires logn <= 32
  {
    && useSwapped == (|cmds| % 2 == 1)
    && inBuf == (if useSwapped then TempSorting else SpatialLookup)
    && outBuf == (if useSwapped then SpatialLookup else TempSorting)
    && IsStepPrefix(cmds, n, np2, logn)
  }

  /** The inner loop over the steps of one stage. */
  method SortStage(n: u32, np2: u32, logn: nat, stage: nat,
                   cmds0: seq<Command>, useSwapped0: bool, inBuf0: BufferId, outBuf0: BufferId)
    returns (cmds: seq<Command>, useSwapped: bool, inBuf: BufferId, outBuf: BufferId)
    requires stage < logn <= 32
    requires |cmds0| == Triangle(stage)
    requires LoopState(cmds0, useSwapped0, inBuf0, outBuf0, n, np2, logn)
    ensures |cmds| == Triangle(stage + 1)
    ensures LoopState(cmds, useSwapped, inBuf, outBuf, n, np2, logn)
  {
    cmds, useSwapped, inBuf, outBuf := cmds0, useSwapped0, inBuf0, outBuf0;
    TriangleStep(stage);
    var step := 0;
    while step <= stage
      invariant step <= stage + 1
      invariant |cmds| == Triangle(stage) + step
      invariant LoopState(cmds, useSwapped, inBuf, outBuf, n, np2, logn)
    {
      var j := ShiftOne(stage - step);
      var k := Wrap32(j as nat * 2);
      var params := SortingParams(n, j, k, 0);
      var group := if useSwapped then Swapped else Normal;
      var c := SortDispatch(params, group, CoveringWorkgroups(np2));
      AppendStep(cmds, c, n, np2, logn, stage, step);
      ParityFlips(|cmds|);
      cmds := cmds + [c];
      useSwapped := !useSwapped;
      inBuf, outBuf := outBuf, inBuf;
      step := step + 1;
    }
  }

  /** The nested stage/step loop of the sort block: the dispatches it issues
      and the buffer `in_buf` points at when it ends. */
  method SortSteps(n: u32, np2: u32, logn: nat) returns (cmds: seq<Command>, inBuf: BufferId)
    requires logn <= 32
    ensures |cmds| == Triangle(logn)
    ensures forall i :: 0 <= i < |cmds| ==> cmds[i] == SortCommand(n, np2, Schedule(logn)[i], i)
    ensures inBuf == (if |cmds| % 2 == 1 then TempSorting else SpatialLookup)
  {
    inBuf := SpatialLookup;
    var outBuf := TempSorting;
    var useSwapped := false;
    cmds := [];
    var stage := 0;
    while stage < logn
      invariant stage <= logn
      invariant |cmds| == Triangle(stage)
      invariant LoopState(cmds, useSwapped, inBuf, outBuf, n, np2, logn)
    {
      cmds, useSwapped, inBuf, outBuf := SortStage(n, np2, logn, stage, cmds, useSwapped, inBuf, outBuf);
      stage := stage + 1;
    }
  }

  /** The dispatches followed by a copy from the temporary buffer when their
      number is odd. */
  function WithCopy(cmds: seq<Command>, copyBytes: nat): (r: seq<Command>)
  {
    if |cmds| % 2 == 1 then cmds + [CopyToLookup(TempSorting, copyBytes)] else cmds
  }

  /** The dispatches of the step loop followed by a copy of any length form a
      chained sort block; the data ends in the lookup buffer exactly when no
      copy was needed or the copy moved the whole buffer. */
  lemma PassWithCopy(n: u32, cmds: seq<Command>, copyBytes: nat)
    requires StageCount(PaddedSize(n)) <= 32
    requires |cmds| == Triangle(StageCount(PaddedSize(n)))
    requires forall i :: 0 <= i < |cmds| ==>
               cmds[i] == SortCommand(n, PaddedSize(n), Schedule(StageCount(PaddedSize(n)))[i], i)
    ensures DispatchesThenCopy(n, WithCopy(cmds, copyBytes), copyBytes)
    ensures (Holder(WithCopy(cmds, copyBytes), 8 * PaddedSize(n)) == SpatialLookup)
              == (|cmds| % 2 == 0 || copyBytes == 8 * PaddedSize(n))
  {
    var full: nat := 8 * PaddedSize(n);
    AlternatingIsChained(cmds, full);
    if |cmds| % 2 == 1 {
      var c := CopyToLookup(TempSorting, copyBytes);
      ChainedAppend(cmds, c, full);
      assert forall i :: 0 <= i < |cmds| ==> (cmds + [c])[i] == cmds[i];
    }
  }

  /** The sort block of the compute node: the step loop, then the copy back
      when `in_buf` is not the lookup buffer. */
  method SortPass(n: u32) returns (cmds: seq<Command>)
    ensures IsSortPass(n, cmds)
  {
    var np2 := PaddedSize(n);
    var logn := StageCount(np2);
    var steps, inBuf := SortSteps(n, np2, logn);
    cmds := steps;
    if inBuf != SpatialLookup {
      cmds := steps + [CopyToLookup(inBuf, CopyBackBytes(np2))];
    }
    assert cmds == WithCopy(steps, CopyBackBytes(np2));
    PassWithCopy(n, steps, CopyBackBytes(np2));
    CopyBackOutcome(n);
  }

  /** The sort block with the copy length computed in 64 bits. */
  method SortPassCorrected(n: u32) returns (cmds: seq<Command>)
    ensures IsCorrectedSortPass(n, cmds)
  {
    var np2 := PaddedSize(n);
    var logn := StageCount(np2);
    var steps, inBuf := SortSteps(n, np2, logn);
    cmds := steps;
    if inBuf != SpatialLookup {
      cmds := steps + [CopyToLookup(inBuf, CopyBackBytesWide(np2))];
    }
    assert cmds == WithCopy(steps, CopyBackBytesWide(np2));
    PassWithCopy(n, steps, CopyBackBytesWide(np2));
  }

  /** The padded size of a count in (2^k, 2^(k+1)] is 2^(k+1), and the node
      runs k + 2 stages for it. */
  lemma PaddedSizeIs(n: u32, k: nat)
    requires k <= 30
    requires Pow2(k) < n <= Pow2(k + 1)
    ensures PaddedSize(n) == Pow2(k + 1)
    ensures StageCount(PaddedSize(n)) == k + 2
  {
    Pow2Below(k + 1);
    var np2 := PaddedSize(n);
    NextPowerOfTwoAtMostPow2(n, k + 1);
    PowerOfTwoIsPow2OfIlog2(np2);
    var m := Ilog2(np2);
    if m <= k {
      Pow2Monotone(m, k);
    } else if m > k + 1 {
      Pow2Monotone(k + 2, m);
    }
    Ilog2OfPow2(k + 1);
  }

  /** A count in (2^k, 2^(k+1)] runs (k+2)(k+3)/2 sort steps. */
  lemma RangeSteps(n: u32, k: nat)
    requires k <= 30
    requires Pow2(k) < n <= Pow2(k + 1)
    ensures Triangle(StageCount(PaddedSize(n))) == (k + 2) * (k + 3) / 2
  {
    PaddedSizeIs(n, k);
    TriangleClosedForm(k + 2);
  }

  /** Which particle counts give an odd number of sort steps, and when the u32
      copy length is the full lookup buffer: for 2^28 < n <= 2^29 the pass has
      465 steps and the copy length is wrong; for every other count with an
      odd number of steps it is right. */
  lemma CopyBackOutcome(n: u32)
    ensures 0x1000_0000 < n <= 0x2000_0000 ==> Triangle(StageCount(PaddedSize(n))) == 465
    ensures Triangle(StageCount(PaddedSize(n))) % 2 == 1 ==>
              (CopyBackBytes(PaddedSize(n)) == 8 * PaddedSize(n) <==> !(0x1000_0000 < n <= 0x2000_0000))
  {
    if n <= 0x1000_0000 {
      CopyBackSmall(n);
    } else if n <= 0x2000_0000 {
      CopyBackOddRange(n);
    } else {
      EvenStepsAbove(n);
    }
  }

  lemma CopyBackSmall(n: u32)
    requires n <= 0x1000_0000
    ensures CopyBackBytes(PaddedSize(n)) == 8 * PaddedSize(n)
  {
    assert PaddedSize(n) <= 0x1000_0000 by {
      Pow2Values();
      NextPowerOfTwoAtMostPow2(if n < 1 then 1 else n, 28);
    }
  }

  lemma CopyBackOddRange(n: u32)
    requires 0x1000_0000 < n <= 0x2000_0000
    ensures Triangle(StageCount(PaddedSize(n))) == 465
    ensures CopyBackBytes(PaddedSize(n)) != 8 * PaddedSize(n)
  {
    assert Pow2(28) < n <= Pow2(29) by {
      Pow2Values();
    }
    RangeSteps(n, 28);
    CopyBackBytesWrapsToZero(n);
  }

  /** Above 2^29 particles the pass has an even number of steps (496 or 528,
      or none once the padded size wraps to 0), so no copy is issued. */
  lemma EvenStepsAbove(n: u32)
    requires n > 0x2000_0000
    ensures Triangle(StageCount(PaddedSize(n))) % 2 == 0
  {
    if n <= 0x4000_0000 {
      StepsBelow2Pow30(n);
    } else if n <= 0x8000_0000 {
      StepsBelow2Pow31(n);
    }
  }

  lemma StepsBelow2Pow30(n: u32)
    requires 0x2000_0000 < n <= 0x4000_0000
    ensures Triangle(StageCount(PaddedSize(n))) == 496
  {
    assert Pow2(29) < n <= Pow2(30) by {
      Pow2Values();
    }
    RangeSteps(n, 29);
  }

  lemma StepsBelow2Pow31(n: u32)
    requires 0x4000_0000 < n <= 0x8000_0000
    ensures Triangle(StageCount(PaddedSize(n))) == 528
  {
    assert Pow2(30) < n <= Pow2(31) by {
      Pow2Values();
    }
    RangeSteps(n, 30);
  }

  /** Which compute pipelines the pipeline cache has finished building. */
  datatype PipelinesReady = PipelinesReady(grid: bool, sort: bool, main: bool)

  /** One run of the compute node for a particle system with its buffers:
      binning, then the sort block, then the simulation step, each only when
      its pipeline is ready. */
  method RunComputeNode(particleCount: u32, ready: PipelinesReady) returns (cmds: seq<Command>)
    ensures exists bin, sort, sim ::
              && cmds == bin + sort + sim
              && bin == (if ready.grid then [BinDispatch(PassWorkgroups(particleCount))] else [])
              && (if ready.sort then IsSortPass(particleCount, sort) else sort == [])
              && sim == (if ready.main then [SimulateDispatch(PassWorkgroups(particleCount))] else [])
  {
    var bin := if ready.grid then [BinDispatch(PassWorkgroups(particleCount))] else [];
    var sort := [];
    if ready.sort {
      sort := SortPass(particleCount);
    }
    var sim := if ready.main then [SimulateDispatch(PassWorkgroups(particleCount))] else [];
    cmds := bin + sort + sim;
  }

  /** The run with both corrections: the binning and simulation passes launch
      the covering workgroup count, and the copy back moves the whole lookup
      buffer. */
  method RunComputeNodeCorrected(particleCount: u32, ready: PipelinesReady) returns (cmds: seq<Command>)
    ensures exists bin, sort, sim ::
              && cmds == bin + sort + sim
              && bin == (if ready.grid then [BinDispatch(CoveringWorkgroups(particleCount))] else [])
              && (if ready.sort then IsCorrectedSortPass(particleCount, sort) else sort == [])
              && sim == (if ready.main then [SimulateDispatch(CoveringWorkgroups(particleCount))] else [])
  {
    var bin := if ready.grid then [BinDispatch(CoveringWorkgroups(particleCount))] else [];
    var sort := [];
    if ready.sort {
      sort := SortPassCorrected(particleCount);
    }
    var sim := if ready.main then [SimulateDispatch(CoveringWorkgroups(particleCount))] else [];
    cmds := bin + sort + sim;
  }

  /** The padded size is a power of two covering the particle count, and less
      than twice it. */
  lemma PaddedSizeCovers(n: u32)
    requires n <= 0x8000_0000
    ensures IsPowerOfTwo(PaddedSize(n)) && PaddedSize(n) >= 1 && PaddedSize(n) >= n
    ensures n >= 1 ==> PaddedSize(n) < 2 * n
  {
  }

  /** The node runs one stage more than the buffer setup sized its parameter
      table for: `32 - leading_zeros(np2)` is `ilog2(np2) + 1`. */
  lemma NodeRunsOneExtraStage(n: u32)
    requires 1 <= n <= 0x8000_0000
    ensures PaddedSize(n) == NextPowerOfTwo(n)
    ensures StageCount(PaddedSize(n)) == Ilog2(NextPowerOfTwo(n)) + 1
  {
  }

  /** The k-th sort dispatch of the pass uses j = 2^(stage - step) and k = 2j
      for its (stage, step), as long as j fits below 2^31. */
  lemma DispatchParameters(n: u32, i: nat)
    requires n <= 0x4000_0000
    requires i < Triangle(StageCount(PaddedSize(n)))
    ensures var ss := Schedule(StageCount(PaddedSize(n)))[i];
            var p := StepParams(n, ss);
            p.j == Pow2(ss.stage - ss.step) && p.k == 2 * p.j
  {
    StagesForQuarterRange(n);
    var ss := Schedule(StageCount(PaddedSize(n)))[i];
    StepParamsDouble(n, ss);
  }

  /** Up to 2^30 particles the sort runs at most 31 stages. */
  lemma StagesForQuarterRange(n: u32)
    requires n <= 0x4000_0000
    ensures StageCount(PaddedSize(n)) <= 31
  {
    var np2 := PaddedSize(n);
    assert n <= Pow2(30) by {
      Pow2Values();
    }
    NextPowerOfTwoAtMostPow2(if n < 1 then 1 else n, 30);
    Ilog2AtMost(np2, 30);
  }

  lemma StepParamsDouble(n: u32, ss: StageStep)
    requires ss.step <= ss.stage <= 30
    ensures StepParams(n, ss).k == 2 * StepParams(n, ss).j
  {
    Pow2Below(ss.stage - ss.step);
  }

  /** For every particle count the setup accepts, the 64-bit copy length is the
      size of the spatial-lookup buffer. */
  lemma CopyBackCoversLookupBuffer(n: u32)
    requires 1 <= n <= 0x8000_0000
    ensures CopyBackBytesWide(PaddedSize(n)) == ParticleBuffers.LookupBufferBytes(n)
  {
  }

  /** The u32 copy length as written agrees with the lookup buffer size up to
      2^28 particles. */
  lemma CopyBackMatchesLookupBuffer(n: u32)
    requires 1 <= n <= 0x1000_0000
    ensures CopyBackBytes(PaddedSize(n)) == ParticleBuffers.LookupBufferBytes(n)
  {
    Pow2Values();
    Pow2IsPowerOfTwo(28);
    NextPowerOfTwoIsLeast(n, 0x1000_0000);
  }

  /** From 2^28 + 1 to 2^31 particles the u32 copy length is a multiple of 2^32
      and wraps to 0, while the lookup buffer holds at least 2^32 bytes: such a
      copy moves nothing and leaves the sorted data in the temporary buffer.
      The sort block issues it only when the step count is odd, which in this
      range happens for 2^28 < n <= 2^29 (see `CopyBackOutcome`). */
  lemma {:induction false} CopyBackBytesWrapsToZero(n: u32)
    requires 0x1000_0000 < n <= 0x8000_0000
    ensures CopyBackBytes(PaddedSize(n)) == 0
    ensures ParticleBuffers.LookupBufferBytes(n) >= U32_MODULUS
    ensures After(TempSorting, CopyToLookup(TempSorting, CopyBackBytes(PaddedSize(n))), 8 * PaddedSize(n))
              == TempSorting
  {
    var np2 := PaddedSize(n);
    PowerOfTwoIsPow2OfIlog2(np2);
    var k := Ilog2(np2);
    assert 29 <= k by {
      Pow2Values();
      if k <= 28 {
        Pow2Monotone(k, 28);
      }
    }
    Pow2Add(3, k);
    Pow2Add(32, k - 29);
    assert k + 3 == 32 + (k - 29);
    Pow2Values();
    var m := Pow2(k - 29);
    assert (np2 as nat) * 8 == U32_MODULUS * m;
    MultipleWrapsToZero(m);
  }

  lemma MultipleWrapsToZero(m: nat)
    ensures Wrap32(U32_MODULUS * m) == 0
  {
  }

  /** With the default 1000 particles, the binning and simulation passes launch
      992 threads, so 8 particles are never binned or simulated; the covering
      count launches 1008. */
  lemma DefaultCountLeavesParticlesOut()
    ensures PassWorkgroups(1000) * WORKGROUP_SIZE == 992
    ensures CoveringWorkgroups(1000) * WORKGROUP_SIZE == 1008
  {
  }

  /** Whenever the particle count is not a multiple of the workgroup size, the
      floor division launches fewer threads than there are particles. */
  lemma PassWorkgroupsMissRemainder(n: u32)
    requires n % WORKGROUP_SIZE != 0
    ensures PassWorkgroups(n) * WORKGROUP_SIZE < n
  {
  }
}
