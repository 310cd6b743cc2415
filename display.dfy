/**
  pt_setup_display (src/pt/pt_display.h) as the source runs it: globals
  updated step by step through a fall-through switch with early returns.
  The LVGL calls are recorded as effects: one entry in `displays` per
  lv_display_create (with its flush callback), holding what
  lv_display_set_buffers gave it, and a count of the pointer input devices
  created with pt_touchpad_read as their read callback.
 */
module Display {
  import opened Strategy
  import Backlight

  class PtDisplay {
    var drawBuf: Ptr                // pt_disp_draw_buf
    var drawBuf2: Ptr               // pt_disp_draw_buf2
    var heap: Heap                  // the allocation oracle and its trace
    var displays: seq<Registration> // displays created, with their buffers
    var indevs: nat                 // pointer input devices created

    /** Boot state: both globals NULL, nothing created, no request made yet. */
    constructor (answers: seq<bool>)
      ensures drawBuf == Null && drawBuf2 == Null
      ensures heap == Heap(answers, []) && displays == [] && indevs == 0
    {
      drawBuf := Null;
      drawBuf2 := Null;
      heap := Heap(answers, []);
      displays := [];
      indevs := 0;
    }

    /** The alloc_buf lambda: one request to the heap, PSRAM or internal capabilities. */
    method AllocBuf(count: nat, preferPsram: bool) returns (ptr: Ptr)
      modifies this`heap
      ensures Allocation(heap, ptr) == Allocate(old(heap), count, if preferPsram then Psram else Internal)
    {
      var pool := Internal;
      if preferPsram {
        pool := Psram;
      }
      var a := Allocate(heap, count, pool);
      heap := a.heap;
      ptr := a.ptr;
    }

    /** lv_display_create followed by lv_display_set_flush_cb. */
    method CreateDisplay()
      modifies this`displays
      ensures displays == old(displays) + [Unregistered]
    {
      displays := displays + [Unregistered];
    }

    /** lv_display_set_buffers on the display just created. */
    method SetBuffers(buf1: Ptr, buf2: Ptr, bytes: nat, render: LvRenderMode)
      requires displays != []
      modifies this`displays
      ensures displays == old(displays)[..|old(displays)| - 1] + [Registered(buf1, buf2, bytes, render)]
    {
      displays := displays[..|displays| - 1] + [Registered(buf1, buf2, bytes, render)];
    }

    /** lv_indev_create, lv_indev_set_type with the pointer type, lv_indev_set_read_cb(pt_touchpad_read). */
    method CreateIndev()
      modifies this`indevs
      ensures indevs == old(indevs) + 1
    {
      indevs := indevs + 1;
    }

    /** The state the selector reads: heap and both globals. */
    ghost function State(): Ctx
      reads this
    {
      Ctx(heap, drawBuf, drawBuf2)
    }

    /**
      The globals, the heap and the displays are those `s` describes, the
      displays recorded before the switch being `before`.
     */
    ghost predicate Reflects(s: Setup, before: seq<Registration>)
      reads this
    {
      && heap == s.heap && drawBuf == s.drawBuf && drawBuf2 == s.drawBuf2
      && displays == before + (if s.display then [s.registration] else [])
    }

    /**
      case PT_LVGL_RENDER_FULL_1. `reached` tells whether control leaves the
      switch by `break` (rather than `return`), so that the input device is
      created; a failed allocation falls into the FULL_2 label.
     */
    method CaseFull1(panel: Panel) returns (reached: bool)
      modifies this`heap, this`drawBuf, this`drawBuf2, this`displays
      ensures Reflects(FullSingle(panel, old(State())), old(displays))
      ensures reached == FullSingle(panel, old(State())).indev
    {
      var bufSize := panel.width * panel.height;
      drawBuf := AllocBuf(bufSize, true);
      if drawBuf.Block? {
        CreateDisplay();
        SetBuffers(drawBuf, Null, bufSize * panel.colorBytes, RenderFull);
        reached := true;
        return;
      }
      reached := CaseFull2(panel);
    }

    /** case PT_LVGL_RENDER_FULL_2; a missing buffer falls into the PARTIAL_1 label. */
    method CaseFull2(panel: Panel) returns (reached: bool)
      modifies this`heap, this`drawBuf, this`drawBuf2, this`displays
      ensures Reflects(FullDouble(panel, old(State())), old(displays))
      ensures reached == FullDouble(panel, old(State())).indev
    {
      var bufSize := panel.width * panel.height;
      drawBuf := AllocBuf(bufSize, true);
      if drawBuf.Block? {
        drawBuf2 := AllocBuf(bufSize, true);
      }
      if drawBuf.Block? && drawBuf2.Block? {
        CreateDisplay();
        SetBuffers(drawBuf, drawBuf2, bufSize * panel.colorBytes, RenderFull);
        reached := true;
        return;
      }
      reached := CaseSinglePartial(panel, false);
    }

    /**
      case PT_LVGL_RENDER_PARTIAL_1 (`preferPsram` false) and
      case PT_LVGL_RENDER_PARTIAL_1_PSRAM (`preferPsram` true).
     */
    method CaseSinglePartial(panel: Panel, preferPsram: bool) returns (reached: bool)
      modifies this`heap, this`drawBuf, this`displays
      ensures
        var s := SinglePartial(panel, old(State()), if preferPsram then Psram else Internal, if preferPsram then Internal else Psram);
        Reflects(s, old(displays)) && reached == s.indev
    {
      var bufSize := panel.width * PartialLines;
      drawBuf := AllocBuf(bufSize, preferPsram);
      if drawBuf.Null? {
        drawBuf := AllocBuf(bufSize, !preferPsram);
      }
      if drawBuf.Null? {
        reached := false;
        return;
      }
      CreateDisplay();
      SetBuffers(drawBuf, Null, bufSize * panel.colorBytes, RenderPartial);
      reached := true;
    }

    /**
      case PT_LVGL_RENDER_PARTIAL_2 (internal, retry in PSRAM),
      case PT_LVGL_RENDER_PARTIAL_2_PSRAM (PSRAM, retry internal) and
      default (internal, no retry).
     */
    method CaseDoublePartial(panel: Panel, preferPsram: bool, retry: bool) returns (reached: bool)
      modifies this`heap, this`drawBuf, this`drawBuf2, this`displays
      ensures
        var pool := if preferPsram then Psram else Internal;
        var s := DoublePartial(panel, old(State()), pool, pool,
                               if retry then RetryIn(if preferPsram then Internal else Psram) else NoRetry);
        Reflects(s, old(displays)) && reached == s.indev
    {
      var bufSize := panel.width * PartialLines;
      drawBuf := AllocBuf(bufSize, preferPsram);
      if drawBuf.Block? {
        drawBuf2 := AllocBuf(bufSize, preferPsram);
      }
      if retry && drawBuf2.Null? && drawBuf.Block? {
        drawBuf2 := AllocBuf(bufSize, !preferPsram);
      }
      CreateDisplay();
      if drawBuf.Block? && drawBuf2.Block? {
        SetBuffers(drawBuf, drawBuf2, bufSize * panel.colorBytes, RenderPartial);
      } else if drawBuf.Block? {
        SetBuffers(drawBuf, Null, bufSize * panel.colorBytes, RenderPartial);
      } else {
        reached := false;
        return;
      }
      reached := true;
    }

    /**
      pt_setup_display: bring the backlight up without a flash, then choose,
      allocate and register the draw buffers for the PT_LVGL_render_method_t
      value `mode` (any int, as the enum parameter may hold) on a panel of the
      reported size, and create the touch input device when that succeeded.
      The new globals, heap trace and LVGL effects are exactly those of
      `SetupBuffers` from the old state.
     */
    method SetupDisplay(mode: int, panel: Panel, backlight: Backlight.Channel)
      requires backlight.Valid()
      modifies this, backlight
      ensures backlight.Valid()
      ensures backlight.level == 100 && backlight.duty == Backlight.MaxDuty
      ensures backlight.applied == old(backlight.applied) + [0, 0, Backlight.MaxDuty]
      ensures
        var s := SetupBuffers(ModeOfCode(mode), panel, old(State()));
        && Reflects(s, old(displays))
        && indevs == old(indevs) + (if s.indev then 1 else 0)
    {
      backlight.PowerOn();
      var reached: bool;
      match ModeOfCode(mode) {
        case Full1 => reached := CaseFull1(panel);
        case Full2 => reached := CaseFull2(panel);
        case Partial1 => reached := CaseSinglePartial(panel, false);
        case Partial2 => reached := CaseDoublePartial(panel, false, true);
        case Partial1Psram => reached := CaseSinglePartial(panel, true);
        case Partial2Psram => reached := CaseDoublePartial(panel, true, true);
        case Unrecognized => reached := CaseDoublePartial(panel, false, false);
      }
      if reached {
        CreateIndev();
      }
    }
  }
}
