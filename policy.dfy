/**
  The fall-through switch of pt_setup_display restated as data: each render
  mode names an ordered chain of policy steps (buffer size, pools to try for
  the first and the second buffer, what a missing second buffer means), and
  one small interpreter runs a chain. `ChainMatchesSwitch` proves that this
  table-driven selector and the switch agree on every mode, panel, heap and
  initial global state.
 */
module Policy {
  import opened Strategy

  datatype BufferSize = FrameSize | BandSize

  /**
    One case label as data. `first` and `second` are the pools tried, in
    order, for each buffer (an empty `second` is a single-buffer label);
    `degrade` registers the first buffer alone when the second is missing
    (rather than failing the step); `eager` creates the display before the
    buffers are checked, so a failing eager step ends without buffers.
   */
  datatype Step = Step(
    size: BufferSize,
    first: seq<Pool>,
    second: seq<Pool>,
    degrade: bool,
    eager: bool,
    render: LvRenderMode)

  const FullSingleStep := Step(FrameSize, [Psram], [], false, false, RenderFull)
  const FullDoubleStep := Step(FrameSize, [Psram], [Psram], false, false, RenderFull)
  const PartialSingleStep := Step(BandSize, [Internal, Psram], [], false, false, RenderPartial)
  const PartialDoubleStep := Step(BandSize, [Internal], [Internal, Psram], true, true, RenderPartial)
  const PsramSingleStep := Step(BandSize, [Psram, Internal], [], false, false, RenderPartial)
  const PsramDoubleStep := Step(BandSize, [Psram], [Psram, Internal], true, true, RenderPartial)
  const FallbackStep := Step(BandSize, [Internal], [Internal], true, true, RenderPartial)

  /**
    The degrade order of each mode. Every chain is non-empty and ends in a
    partial-refresh step at the W*80 size, and only its last step may create
    the display before its buffers are known.
   */
  function Chain(mode: RenderMode): (steps: seq<Step>)
    ensures |steps| >= 1
    ensures steps[|steps| - 1].render == RenderPartial && steps[|steps| - 1].size == BandSize
    ensures forall i :: 0 <= i < |steps| - 1 ==> !steps[i].eager
  {
    match mode
    case Full1 => [FullSingleStep, FullDoubleStep, PartialSingleStep]
    case Full2 => [FullDoubleStep, PartialSingleStep]
    case Partial1 => [PartialSingleStep]
    case Partial2 => [PartialDoubleStep]
    case Partial1Psram => [PsramSingleStep]
    case Partial2Psram => [PsramDoubleStep]
    case Unrecognized => [FallbackStep]
  }

  /**
    Ask the pools in order until one grants a block; `current` is the pointer
    kept when no pool is tried. The requests made are for the listed pools,
    in the listed order, one each; the asking stops at the first grant, and
    the result is NULL exactly when every listed pool refused.
   */
  function TryPools(h: Heap, pixels: nat, pools: seq<Pool>, current: Ptr): (a: Allocation)
    ensures a.heap.answers == h.answers && h.requests <= a.heap.requests
    ensures |a.heap.requests| <= |h.requests| + |pools|
    ensures pools == [] ==> a == Allocation(h, current)
    ensures pools != [] ==> |a.heap.requests| > |h.requests|
    ensures forall k :: |h.requests| <= k < |a.heap.requests| ==>
      a.heap.requests[k] == Request(pixels, pools[k - |h.requests|])
    ensures forall k :: |h.requests| <= k < |a.heap.requests| - 1 ==> !Grants(h, k)
    ensures pools != [] ==> (a.ptr.Block? <==> Grants(h, |a.heap.requests| - 1))
    ensures pools != [] && a.ptr.Null? ==> |a.heap.requests| == |h.requests| + |pools|
    ensures pools != [] && a.ptr.Block? ==>
      a.ptr == Block(|a.heap.requests| - 1, pixels, pools[|a.heap.requests| - 1 - |h.requests|])
    ensures pools != [] && Grants(h, |h.requests|) ==> a.ptr == Block(|h.requests|, pixels, pools[0])
    decreases |pools|
  {
    if pools == [] then Allocation(h, current)
    else
      var a := Allocate(h, pixels, pools[0]);
      if a.ptr.Block? then a
      else
        var r := TryPools(a.heap, pixels, pools[1..], a.ptr);
        assert forall i :: Grants(a.heap, i) == Grants(h, i);
        r
  }

  /** A step either ends the selection or hands its state on to the next step. */
  datatype Outcome = Done(setup: Setup) | Next(ctx: Ctx)

  function RunStep(st: Step, p: Panel, c: Ctx): Outcome {
    var pixels := if st.size == FrameSize then p.width * p.height else p.width * PartialLines;
    var bytes := pixels * p.colorBytes;
    var a := TryPools(c.heap, pixels, st.first, c.drawBuf);
    var b := if a.ptr.Block? && st.second != [] then TryPools(a.heap, pixels, st.second, Null) else Allocation(a.heap, c.drawBuf2);
    if a.ptr.Block? && st.second != [] && b.ptr.Block? then
      Done(Commit(b.heap, a.ptr, b.ptr, Registered(a.ptr, b.ptr, bytes, st.render)))
    else if a.ptr.Block? && (st.second == [] || st.degrade) then
      Done(Commit(b.heap, a.ptr, b.ptr, Registered(a.ptr, Null, bytes, st.render)))
    else if st.eager then
      Done(Abandon(b.heap, a.ptr, b.ptr, true))
    else
      Next(Ctx(b.heap, a.ptr, b.ptr))
  }

  /** Run the steps in order; a chain that runs out gives up without a display. */
  function RunChain(steps: seq<Step>, p: Panel, c: Ctx): Setup
    decreases |steps|
  {
    if steps == [] then Abandon(c.heap, c.drawBuf, c.drawBuf2, false)
    else
      match RunStep(steps[0], p, c)
      case Done(s) => s
      case Next(c') => RunChain(steps[1..], p, c')
  }

  /** The PARTIAL_1 step alone is the PARTIAL_1 label. */
  lemma PartialSingleStepMatches(p: Panel, c: Ctx)
    ensures RunChain([PartialSingleStep], p, c) == SinglePartial(p, c, Internal, Psram)
  {
  }

  /** The FULL_2 chain is the FULL_2 label with its fall-through into PARTIAL_1. */
  lemma FullDoubleChainMatches(p: Panel, c: Ctx)
    ensures RunChain([FullDoubleStep, PartialSingleStep], p, c) == FullDouble(p, c)
  {
    match RunStep(FullDoubleStep, p, c)
    case Done(s) =>
    case Next(c') =>
      assert [FullDoubleStep, PartialSingleStep][1..] == [PartialSingleStep];
      PartialSingleStepMatches(p, c');
  }

  /** The PARTIAL_1_PSRAM step alone is the PARTIAL_1_PSRAM label. */
  lemma PsramSingleStepMatches(p: Panel, c: Ctx)
    ensures RunChain([PsramSingleStep], p, c) == SinglePartial(p, c, Psram, Internal)
  {
  }

  /** The PARTIAL_2 step alone is the PARTIAL_2 label. */
  lemma PartialDoubleStepMatches(p: Panel, c: Ctx)
    ensures RunChain([PartialDoubleStep], p, c) == DoublePartial(p, c, Internal, Internal, RetryIn(Psram))
  {
  }

  /** The PARTIAL_2_PSRAM step alone is the PARTIAL_2_PSRAM label. */
  lemma PsramDoubleStepMatches(p: Panel, c: Ctx)
    ensures RunChain([PsramDoubleStep], p, c) == DoublePartial(p, c, Psram, Psram, RetryIn(Internal))
  {
  }

  /** The fallback step alone is the `default` label. */
  lemma FallbackStepMatches(p: Panel, c: Ctx)
    ensures RunChain([FallbackStep], p, c) == DoublePartial(p, c, Internal, Internal, NoRetry)
  {
  }

  /** The table-driven selector and the fall-through switch agree everywhere. */
  lemma ChainMatchesSwitch(mode: RenderMode, p: Panel, c: Ctx)
    ensures RunChain(Chain(mode), p, c) == SetupBuffers(mode, p, c)
  {
    match mode
    case Full1 =>
      match RunStep(FullSingleStep, p, c) {
        case Done(s) =>
        case Next(c') =>
          assert Chain(Full1)[1..] == [FullDoubleStep, PartialSingleStep];
          FullDoubleChainMatches(p, c');
      }
    case Full2 => FullDoubleChainMatches(p, c);
    case Partial1 => PartialSingleStepMatches(p, c);
    case Partial2 => PartialDoubleStepMatches(p, c);
    case Partial1Psram => PsramSingleStepMatches(p, c);
    case Partial2Psram => PsramDoubleStepMatches(p, c);
    case Unrecognized => FallbackStepMatches(p, c);
  }
}
