/**
  The display buffer strategy selector of pt_setup_display (src/pt/pt_display.h),
  as pure functions over an allocation oracle.

  Every `case` label of the source's `switch (mode)`, or group of labels that
  share code (selected by pool and retry parameters), is one function below;
  a fall-through from one label into the next is a call. The globals
  `pt_disp_draw_buf` and `pt_disp_draw_buf2` travel in a `Ctx` and come back in
  the `Setup` record together with the LVGL calls that were made.
 */
module Strategy {

  /** PT_LVGL_render_method_t; `Unrecognized` is every value that reaches `default`. */
  datatype RenderMode =
    | Full1          // PT_LVGL_RENDER_FULL_1 = 0
    | Full2          // PT_LVGL_RENDER_FULL_2 = 1
    | Partial1       // PT_LVGL_RENDER_PARTIAL_1 = 2
    | Partial2       // PT_LVGL_RENDER_PARTIAL_2 = 3
    | Partial1Psram  // PT_LVGL_RENDER_PARTIAL_1_PSRAM = 4
    | Partial2Psram  // PT_LVGL_RENDER_PARTIAL_2_PSRAM = 5
    | Unrecognized

  /** PT_LVGL_RENDER_METHOD when the build does not define it: PT_LVGL_RENDER_PARTIAL_2. */
  const DefaultRenderCode: int := 3

  /** PT_LVGL_RENDER_PARTIAL_LINES when the build does not define it. */
  const PartialLines: nat := 80

  /** Pixel resolution of the PandaTouch panel (PT_LCD_H_RES x PT_LCD_V_RES). */
  const ScreenWidth: nat := 800
  const ScreenHeight: nat := 480

  /**
    The label a raw PT_LVGL_render_method_t value selects: the enumerators
    count up from FULL_1 = 0, and any other value reaches `default`.
   */
  function ModeOfCode(code: int): (m: RenderMode)
    ensures m == Unrecognized <==> !(0 <= code <= 5)
    ensures 0 <= code <= 5 ==> m == [Full1, Full2, Partial1, Partial2, Partial1Psram, Partial2Psram][code]
  {
    if code == 0 then Full1
    else if code == 1 then Full2
    else if code == 2 then Partial1
    else if code == 3 then Partial2
    else if code == 4 then Partial1Psram
    else if code == 5 then Partial2Psram
    else Unrecognized
  }

  predicate IsFullMode(mode: RenderMode) {
    mode == Full1 || mode == Full2
  }

  /** The three labels that call lv_display_create before knowing whether a buffer exists. */
  predicate IsDoublePartialMode(mode: RenderMode) {
    mode == Partial2 || mode == Partial2Psram || mode == Unrecognized
  }

  /** sizeof(lv_color_t) is a positive number of bytes whose value the model leaves open. */
  type Positive = n: nat | 0 < n witness 1

  /** What pt_gfx reports for the panel, and the size of one pixel. */
  datatype Panel = Panel(width: nat, height: nat, colorBytes: Positive)

  /**
    The capabilities alloc_buf passes to heap_caps_malloc: `Psram` is
    MALLOC_CAP_8BIT | MALLOC_CAP_SPIRAM, `Internal` is MALLOC_CAP_8BIT alone
    (which the heap may still satisfy from any 8-bit capable region).
   */
  datatype Pool = Psram | Internal

  /** One call of alloc_buf: a pixel count and the capabilities asked for. */
  datatype Request = Request(pixels: nat, pool: Pool)

  /** An `lv_color_t *`: NULL, or the block granted to request number `id`. */
  datatype Ptr = Null | Block(id: nat, pixels: nat, pool: Pool)

  /**
    The heap as an oracle: request number i is granted exactly when
    `answers[i]` is true; past the end of `answers` every request fails.
    `requests` is the trace of the requests made so far.
   */
  datatype Heap = Heap(answers: seq<bool>, requests: seq<Request>)

  predicate Grants(h: Heap, i: nat) {
    i < |h.answers| && h.answers[i]
  }

  /** Every request from now on fails. */
  predicate Exhausted(h: Heap) {
    forall i :: |h.requests| <= i < |h.answers| ==> !h.answers[i]
  }

  /** The heap after a request, and the pointer it returned. */
  datatype Allocation = Allocation(heap: Heap, ptr: Ptr)

  /** alloc_buf(count, prefer_psram): heap_caps_malloc(count * sizeof(lv_color_t), caps). */
  function Allocate(h: Heap, pixels: nat, pool: Pool): (a: Allocation)
    ensures a.heap.answers == h.answers
    ensures a.heap.requests == h.requests + [Request(pixels, pool)]
    ensures a.ptr.Block? <==> Grants(h, |h.requests|)
    ensures a.ptr.Block? ==> a.ptr.id == |h.requests| && a.ptr.pixels == pixels && a.ptr.pool == pool
  {
    var ptr := if Grants(h, |h.requests|) then Block(|h.requests|, pixels, pool) else Null;
    Allocation(Heap(h.answers, h.requests + [Request(pixels, pool)]), ptr)
  }

  /** The refresh mode handed to lv_display_set_buffers. */
  datatype LvRenderMode = RenderFull | RenderPartial

  /** The arguments of lv_display_set_buffers, if it was called. */
  datatype Registration =
    | Unregistered
    | Registered(buf1: Ptr, buf2: Ptr, bytes: nat, render: LvRenderMode)

  /** The globals the selector reads and writes, and the heap. */
  datatype Ctx = Ctx(heap: Heap, drawBuf: Ptr, drawBuf2: Ptr)

  /**
    What pt_setup_display leaves behind: the heap and the two globals, whether
    lv_display_create (with its flush callback) was called, what
    lv_display_set_buffers was given, and whether the pointer input device
    was created.
   */
  datatype Setup = Setup(
    heap: Heap,
    drawBuf: Ptr,
    drawBuf2: Ptr,
    display: bool,
    registration: Registration,
    indev: bool)

  /** A label that registered its buffers and `break`s to the input device code. */
  function Commit(h: Heap, buf: Ptr, buf2: Ptr, reg: Registration): Setup {
    Setup(h, buf, buf2, true, reg, true)
  }

  /** A label that `return`s: nothing after the switch runs. */
  function Abandon(h: Heap, buf: Ptr, buf2: Ptr, display: bool): Setup {
    Setup(h, buf, buf2, display, Unregistered, false)
  }

  /** case PT_LVGL_RENDER_FULL_1: one W*H buffer in PSRAM, else fall into FULL_2. */
  function FullSingle(p: Panel, c: Ctx): (s: Setup)
    ensures Sound(p, c, s) && (s.registration.Unregistered? ==> !s.display)
  {
    var bufSize := p.width * p.height;
    var a := Allocate(c.heap, bufSize, Psram);
    if a.ptr.Block? then
      Commit(a.heap, a.ptr, c.drawBuf2, Registered(a.ptr, Null, bufSize * p.colorBytes, RenderFull))
    else
      FullDouble(p, Ctx(a.heap, a.ptr, c.drawBuf2))
  }

  /**
    case PT_LVGL_RENDER_FULL_2: two W*H buffers in PSRAM, the second asked for only
    when the first was granted; else fall into PARTIAL_1.
   */
  function FullDouble(p: Panel, c: Ctx): (s: Setup)
    ensures Sound(p, c, s) && (s.registration.Unregistered? ==> !s.display)
  {
    var bufSize := p.width * p.height;
    var a := Allocate(c.heap, bufSize, Psram);
    var b := if a.ptr.Block? then Allocate(a.heap, bufSize, Psram) else Allocation(a.heap, c.drawBuf2);
    if a.ptr.Block? && b.ptr.Block? then
      Commit(b.heap, a.ptr, b.ptr, Registered(a.ptr, b.ptr, bufSize * p.colorBytes, RenderFull))
    else
      SinglePartial(p, Ctx(b.heap, a.ptr, b.ptr), Internal, Psram)
  }

  /**
    case PT_LVGL_RENDER_PARTIAL_1 (first = Internal, retry = Psram) and
    case PT_LVGL_RENDER_PARTIAL_1_PSRAM (first = Psram, retry = Internal):
    one W*80 buffer; `return` before lv_display_create when both tries fail.
   */
  function SinglePartial(p: Panel, c: Ctx, first: Pool, retry: Pool): (s: Setup)
    ensures Sound(p, c, s) && (s.registration.Unregistered? ==> !s.display)
  {
    var bufSize := p.width * PartialLines;
    var a := Allocate(c.heap, bufSize, first);
    var b := if a.ptr.Null? then Allocate(a.heap, bufSize, retry) else a;
    if b.ptr.Null? then
      Abandon(b.heap, b.ptr, c.drawBuf2, false)
    else
      Commit(b.heap, b.ptr, c.drawBuf2, Registered(b.ptr, Null, bufSize * p.colorBytes, RenderPartial))
  }

  /** Where a double-partial label asks again for a missing second buffer, if anywhere. */
  datatype Retry = NoRetry | RetryIn(pool: Pool)

  /**
    case PT_LVGL_RENDER_PARTIAL_2 (Internal, Internal, retry Psram),
    case PT_LVGL_RENDER_PARTIAL_2_PSRAM (Psram, Psram, retry Internal) and
    default (Internal, Internal, no retry): two W*80 buffers, the second only
    after the first; the display is created in any case, registered with one
    buffer when the second is missing, and left without buffers when the
    first is missing.
   */
  function DoublePartial(p: Panel, c: Ctx, first: Pool, second: Pool, retry: Retry): (s: Setup)
    ensures Sound(p, c, s) && (s.registration.Unregistered? ==> s.display)
  {
    var bufSize := p.width * PartialLines;
    var a := Allocate(c.heap, bufSize, first);
    var b := if a.ptr.Block? then Allocate(a.heap, bufSize, second) else Allocation(a.heap, c.drawBuf2);
    var d := if b.ptr.Null? && a.ptr.Block? && retry.RetryIn? then Allocate(b.heap, bufSize, retry.pool) else b;
    if a.ptr.Block? && d.ptr.Block? then
      Commit(d.heap, a.ptr, d.ptr, Registered(a.ptr, d.ptr, bufSize * p.colorBytes, RenderPartial))
    else if a.ptr.Block? then
      Commit(d.heap, a.ptr, d.ptr, Registered(a.ptr, Null, bufSize * p.colorBytes, RenderPartial))
    else
      Abandon(d.heap, a.ptr, d.ptr, true)
  }

  /** A block granted to one of the requests made after the first `from`. */
  predicate GrantedSince(s: Setup, from: nat, b: Ptr) {
    b.Block? && from <= b.id < |s.heap.requests| && Grants(s.heap, b.id)
    && s.heap.requests[b.id] == Request(b.pixels, b.pool)
  }

  /**
    What holds after the switch whatever the heap answers: the oracle only
    grows its trace; the input device exists exactly when buffers were
    registered; a registered buffer is a non-null block granted by this call
    and is what the global holds; two registered buffers are distinct and of
    one size; the byte size is that size times sizeof(lv_color_t); full
    refresh uses W*H buffers and partial refresh W*80 ones.
   */
  predicate Sound(p: Panel, c: Ctx, s: Setup) {
    && s.heap.answers == c.heap.answers
    && c.heap.requests <= s.heap.requests
    && (s.indev <==> s.registration.Registered?)
    && (s.registration.Registered? ==>
          && s.display
          && GrantedSince(s, |c.heap.requests|, s.registration.buf1)
          && s.registration.buf1 == s.drawBuf
          && s.registration.bytes == s.registration.buf1.pixels * p.colorBytes
          && (s.registration.render == RenderFull ==> s.registration.buf1.pixels == p.width * p.height)
          && (s.registration.render == RenderPartial ==> s.registration.buf1.pixels == p.width * PartialLines))
    && (s.registration.Registered? && s.registration.buf2 != Null ==>
          && GrantedSince(s, |c.heap.requests|, s.registration.buf2)
          && s.registration.buf2 == s.drawBuf2
          && s.registration.buf2.id != s.registration.buf1.id
          && s.registration.buf2.pixels == s.registration.buf1.pixels)
  }

  /**
    The `switch (mode)` of pt_setup_display and what follows it. Besides
    `Sound`: when nothing was registered, a display exists exactly for the
    double-partial labels.
   */
  function SetupBuffers(mode: RenderMode, p: Panel, c: Ctx): (s: Setup)
    ensures Sound(p, c, s)
    ensures s.registration.Unregistered? ==> (s.display <==> IsDoublePartialMode(mode))
  {
    match mode
    case Full1 => FullSingle(p, c)
    case Full2 => FullDouble(p, c)
    case Partial1 => SinglePartial(p, c, Internal, Psram)
    case Partial2 => DoublePartial(p, c, Internal, Internal, RetryIn(Psram))
    case Partial1Psram => SinglePartial(p, c, Psram, Internal)
    case Partial2Psram => DoublePartial(p, c, Psram, Psram, RetryIn(Internal))
    case Unrecognized => DoublePartial(p, c, Internal, Internal, NoRetry)
  }
}
