/**
  What the render-mode switch of pt_setup_display promises, stated over every
  sequence of heap answers: the registration each mode gets when the heap
  grants its first requests, the fall-through order out of the full-frame
  modes, the retries of the partial modes, total allocation failure, and which
  granted blocks end up registered and which are lost.
 */
module StrategyProperties {
  import opened Strategy

  /** The number of buffers a mode asks for on its first attempt. */
  function PreferredBuffers(mode: RenderMode): nat {
    match mode
    case Full1 | Partial1 | Partial1Psram => 1
    case Full2 | Partial2 | Partial2Psram | Unrecognized => 2
  }

  /** The pixel count of a mode's buffers on its first attempt. */
  function PreferredPixels(mode: RenderMode, p: Panel): nat {
    if IsFullMode(mode) then p.width * p.height else p.width * PartialLines
  }

  /** The pool a mode asks first. */
  function PreferredPool(mode: RenderMode): Pool {
    match mode
    case Full1 | Full2 | Partial1Psram | Partial2Psram => Psram
    case Partial1 | Partial2 | Unrecognized => Internal
  }

  /** The refresh mode a mode registers when its first attempt succeeds. */
  function PreferredRender(mode: RenderMode): LvRenderMode {
    if IsFullMode(mode) then RenderFull else RenderPartial
  }

  function OtherPool(pool: Pool): Pool {
    if pool == Psram then Internal else Psram
  }

  /** The next k requests will be granted. */
  predicate GrantsNext(h: Heap, k: nat) {
    forall i :: |h.requests| <= i < |h.requests| + k ==> Grants(h, i)
  }

  /** The heap after one more request, whatever it answered. */
  function After(h: Heap, pixels: nat, pool: Pool): Heap {
    Allocate(h, pixels, pool).heap
  }

  /**
    When the heap grants the first two requests, every mode registers what it
    asked for: the buffer count, size, pool and refresh mode of its own case
    label, with no request beyond those buffers.
   */
  lemma PreferredRegistration(mode: RenderMode, p: Panel, c: Ctx)
    requires GrantsNext(c.heap, 2)
    ensures
      var s := SetupBuffers(mode, p, c);
      var n := |c.heap.requests|;
      var pixels := PreferredPixels(mode, p);
      && s.registration.Registered?
      && s.registration.render == PreferredRender(mode)
      && s.registration.bytes == pixels * p.colorBytes
      && s.registration.buf1 == Block(n, pixels, PreferredPool(mode))
      && s.registration.buf2 == (if PreferredBuffers(mode) == 2 then Block(n + 1, pixels, PreferredPool(mode)) else Null)
      && |s.heap.requests| == n + PreferredBuffers(mode)
      && (forall i :: n <= i < |s.heap.requests| ==> s.heap.requests[i] == Request(pixels, PreferredPool(mode)))
  {
    var n := |c.heap.requests|;
    assert Grants(c.heap, n) && Grants(c.heap, n + 1);
  }

  /** A refused PSRAM frame buffer in FULL_1 leads into the FULL_2 label with that request made. */
  lemma Full1FallsIntoFull2(p: Panel, c: Ctx)
    requires !Grants(c.heap, |c.heap.requests|)
    ensures SetupBuffers(Full1, p, c)
         == SetupBuffers(Full2, p, Ctx(After(c.heap, p.width * p.height, Psram), Null, c.drawBuf2))
  {
  }

  /**
    FULL_2 leads into the PARTIAL_1 label unless both of its frame buffers are
    granted; the second one is asked for only after the first was granted, and
    a granted first buffer is then left in the global, its partner NULL.
   */
  lemma Full2FallsIntoPartial1(p: Panel, c: Ctx)
    requires !(Grants(c.heap, |c.heap.requests|) && Grants(c.heap, |c.heap.requests| + 1))
    ensures
      var n := |c.heap.requests|;
      var h1 := After(c.heap, p.width * p.height, Psram);
      SetupBuffers(Full2, p, c)
        == if Grants(c.heap, n) then
             SetupBuffers(Partial1, p, Ctx(After(h1, p.width * p.height, Psram), Block(n, p.width * p.height, Psram), Null))
           else
             SetupBuffers(Partial1, p, Ctx(h1, Null, c.drawBuf2))
  {
  }

  /** The full-frame attempts of a full mode do not all succeed, so control leaves the full labels. */
  predicate FullAttemptsFail(mode: RenderMode, h: Heap)
    requires IsFullMode(mode)
  {
    var n := |h.requests|;
    if mode == Full1 then !Grants(h, n) && !(Grants(h, n + 1) && Grants(h, n + 2))
    else !(Grants(h, n) && Grants(h, n + 1))
  }

  /**
    A full mode registers in full refresh exactly when its full-frame attempt
    succeeded; any registration reached by falling through is a single W*80
    buffer in partial refresh.
   */
  lemma FallThroughIsSinglePartial(mode: RenderMode, p: Panel, c: Ctx)
    requires IsFullMode(mode)
    ensures
      var s := SetupBuffers(mode, p, c);
      && ((s.registration.Registered? && s.registration.render == RenderFull) <==> !FullAttemptsFail(mode, c.heap))
      && (FullAttemptsFail(mode, c.heap) && s.registration.Registered? ==>
            && s.registration.render == RenderPartial
            && s.registration.buf2 == Null
            && s.registration.bytes == p.width * PartialLines * p.colorBytes)
  {
  }

  /**
    PARTIAL_1 and PARTIAL_1_PSRAM ask their preferred pool for a W*80 buffer,
    then the other pool once; with a buffer they register it alone in partial
    refresh, without one they return before creating the display.
   */
  lemma SinglePartialTries(mode: RenderMode, p: Panel, c: Ctx)
    requires mode == Partial1 || mode == Partial1Psram
    ensures
      var s := SetupBuffers(mode, p, c);
      var n := |c.heap.requests|;
      var pixels := p.width * PartialLines;
      var first := PreferredPool(mode);
      && |s.heap.requests| == (if Grants(c.heap, n) then n + 1 else n + 2)
      && s.heap.requests[n] == Request(pixels, first)
      && (!Grants(c.heap, n) ==> s.heap.requests[n + 1] == Request(pixels, OtherPool(first)))
      && (Grants(c.heap, n) ==> s.registration == Registered(Block(n, pixels, first), Null, pixels * p.colorBytes, RenderPartial))
      && (!Grants(c.heap, n) && Grants(c.heap, n + 1) ==>
            s.registration == Registered(Block(n + 1, pixels, OtherPool(first)), Null, pixels * p.colorBytes, RenderPartial))
      && (!Grants(c.heap, n) && !Grants(c.heap, n + 1) ==> !s.display && !s.indev && s.registration.Unregistered?)
  {
  }

  /**
    PARTIAL_2, PARTIAL_2_PSRAM and `default` ask for a second W*80 buffer only
    once the first was granted, and in the same pool; PARTIAL_2 retries a
    refused second buffer in PSRAM, PARTIAL_2_PSRAM in internal memory, and
    `default` not at all; a still missing second buffer gives a single-buffer
    partial registration, and a missing first buffer a display without buffers.
   */
  lemma DoublePartialTries(mode: RenderMode, p: Panel, c: Ctx)
    requires IsDoublePartialMode(mode)
    ensures
      var s := SetupBuffers(mode, p, c);
      var n := |c.heap.requests|;
      var pixels := p.width * PartialLines;
      var first := PreferredPool(mode);
      var buf1 := Block(n, pixels, first);
      var bytes := pixels * p.colorBytes;
      && s.heap.requests[n] == Request(pixels, first)
      && s.display
      && (!Grants(c.heap, n) ==> |s.heap.requests| == n + 1 && s.registration.Unregistered? && !s.indev)
      && (Grants(c.heap, n) ==> s.heap.requests[n + 1] == Request(pixels, first))
      && (Grants(c.heap, n) && Grants(c.heap, n + 1) ==>
            |s.heap.requests| == n + 2 && s.registration == Registered(buf1, Block(n + 1, pixels, first), bytes, RenderPartial))
      && (Grants(c.heap, n) && !Grants(c.heap, n + 1) && mode == Unrecognized ==>
            |s.heap.requests| == n + 2 && s.registration == Registered(buf1, Null, bytes, RenderPartial))
      && (Grants(c.heap, n) && !Grants(c.heap, n + 1) && mode != Unrecognized ==>
            && |s.heap.requests| == n + 3
            && s.heap.requests[n + 2] == Request(pixels, OtherPool(first))
            && s.registration == Registered(buf1, if Grants(c.heap, n + 2) then Block(n + 2, pixels, OtherPool(first)) else Null, bytes, RenderPartial))
  {
  }

  /**
    When the heap grants nothing, no mode registers buffers or creates the
    input device; only the double-partial labels have created a display.
   */
  lemma TotalFailure(mode: RenderMode, p: Panel, c: Ctx)
    requires Exhausted(c.heap)
    ensures
      var s := SetupBuffers(mode, p, c);
      && s.registration.Unregistered?
      && !s.indev
      && (s.display <==> IsDoublePartialMode(mode))
  {
  }

  /** The indices of the requests made since `from` that the heap granted. */
  function GrantedIds(s: Setup, from: nat): set<nat> {
    set i: nat | from <= i < |s.heap.requests| && Grants(s.heap, i)
  }

  /** The indices of the blocks handed to lv_display_set_buffers. */
  function RegisteredIds(r: Registration): set<nat> {
    if r.Unregistered? then {} else PtrIds(r.buf1) + PtrIds(r.buf2)
  }

  function PtrIds(b: Ptr): set<nat> {
    if b.Block? then {b.id} else {}
  }

  /** Outside the full modes, every block the heap grants ends up registered: nothing is lost. */
  lemma PartialModesLoseNothing(mode: RenderMode, p: Panel, c: Ctx)
    requires !IsFullMode(mode)
    ensures
      var s := SetupBuffers(mode, p, c);
      GrantedIds(s, |c.heap.requests|) == RegisteredIds(s.registration)
  {
  }

  /**
    In FULL_2, a first frame buffer whose partner was refused is lost: it is
    the one granted block that is not registered, and neither global still
    points at it once PARTIAL_1 has run.
   */
  lemma Full2LosesOrphan(p: Panel, c: Ctx)
    ensures
      var s := SetupBuffers(Full2, p, c);
      var n := |c.heap.requests|;
      var orphaned := Grants(c.heap, n) && !Grants(c.heap, n + 1);
      && GrantedIds(s, n) == RegisteredIds(s.registration) + (if orphaned then {n} else {})
      && (orphaned ==>
            && n !in RegisteredIds(s.registration)
            && !(s.drawBuf.Block? && s.drawBuf.id == n)
            && !(s.drawBuf2.Block? && s.drawBuf2.id == n))
  {
  }

  /** In FULL_1 the block that can be lost is the first one FULL_2 asks for, after a refused frame buffer. */
  lemma Full1LosesOrphan(p: Panel, c: Ctx)
    ensures
      var s := SetupBuffers(Full1, p, c);
      var n := |c.heap.requests|;
      var orphaned := !Grants(c.heap, n) && Grants(c.heap, n + 1) && !Grants(c.heap, n + 2);
      && GrantedIds(s, n) == RegisteredIds(s.registration) + (if orphaned then {n + 1} else {})
      && (orphaned ==>
            && n + 1 !in RegisteredIds(s.registration)
            && !(s.drawBuf.Block? && s.drawBuf.id == n + 1)
            && !(s.drawBuf2.Block? && s.drawBuf2.id == n + 1))
  {
  }

  /**
    The default build on the PandaTouch's 800x480 panel: with the heap
    granting its first two requests it registers two internal 800*80-pixel
    buffers in partial refresh.
   */
  lemma DefaultBuildOnPandaTouch(colorBytes: Positive, answers: seq<bool>)
    requires |answers| >= 2 && answers[0] && answers[1]
    ensures
      var s := SetupBuffers(ModeOfCode(DefaultRenderCode), Panel(ScreenWidth, ScreenHeight, colorBytes), Ctx(Heap(answers, []), Null, Null));
      && s.registration == Registered(Block(0, 64000, Internal), Block(1, 64000, Internal), 64000 * colorBytes, RenderPartial)
      && s.indev
  {
  }
}
