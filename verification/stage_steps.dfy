/** The iteration space of a bitonic sort network with `stages` stages: stage s
    has the steps 0..s, and both host loops that drive the sort (the
    parameter-table fill and the dispatch loop) walk the pairs with the stage
    in the outer loop and the step in the inner one. */
module StageSteps {
  import opened Bits

  datatype StageStep = StageStep(stage: nat, step: nat)

  /** The steps of stage s, in order. */
  function StageRun(s: nat): (r: seq<StageStep>)
    // The element-wise view of the comprehension, which the Schedule lemmas
    // index into.
    ensures |r| == s + 1
    ensures forall t :: 0 <= t < |r| ==> r[t].stage == s && r[t].step == t
  {
    seq(s + 1, t requires 0 <= t => StageStep(s, t))
  }

  /** Every (stage, step) pair of a `stages`-stage network, in loop order. */
  function Schedule(stages: nat): (r: seq<StageStep>)
    ensures |r| == Triangle(stages)
    ensures forall i :: 0 <= i < |r| ==> r[i].step <= r[i].stage < stages
  {
    if stages == 0 then []
    else
      TriangleStep(stages - 1);
      Schedule(stages - 1) + StageRun(stages - 1)
  }

  /** The value the loop counter has when the loops reach (stage, step). */
  function IterationIndex(stage: nat, step: nat): nat
  {
    Triangle(stage) + step
  }

  /** The pair (s, t) is visited at iteration s*(s+1)/2 + t, which lies inside
      the schedule. */
  lemma {:induction false} ScheduleAt(stages: nat, stage: nat, step: nat)
    requires step <= stage < stages
    ensures IterationIndex(stage, step) < Triangle(stages)
    ensures Schedule(stages)[IterationIndex(stage, step)] == StageStep(stage, step)
  {
    TriangleStep(stages - 1);
    if stage < stages - 1 {
      ScheduleAt(stages - 1, stage, step);
      TriangleStep(stage);
      TriangleMonotone(stage + 1, stages - 1);
    }
  }

  /** Conversely, every iteration of the schedule is the index of its own pair,
      so iterations and pairs are in one-to-one correspondence. */
  lemma {:induction false} IndexOfScheduleEntry(stages: nat, i: nat)
    requires i < Triangle(stages)
    ensures IterationIndex(Schedule(stages)[i].stage, Schedule(stages)[i].step) == i
  {
    TriangleStep(stages - 1);
    if i < Triangle(stages - 1) {
      IndexOfScheduleEntry(stages - 1, i);
    }
  }

  predicate LexLess(a: StageStep, b: StageStep)
  {
    a.stage < b.stage || (a.stage == b.stage && a.step < b.step)
  }

  /** The pairs are visited in strictly increasing lexicographic order. */
  lemma ScheduleIsLexicographic(stages: nat, i: nat, j: nat)
    requires i < j < Triangle(stages)
    ensures LexLess(Schedule(stages)[i], Schedule(stages)[j])
  {
    var a := Schedule(stages)[i];
    var b := Schedule(stages)[j];
    IndexOfScheduleEntry(stages, i);
    IndexOfScheduleEntry(stages, j);
    if a.stage > b.stage {
      TriangleStep(b.stage);
      TriangleMonotone(b.stage + 1, a.stage);
    } else if a.stage < b.stage {
    }
  }
}
