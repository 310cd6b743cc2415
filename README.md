# PandaTouch display core in Dafny

A verified model of the display core of the PandaTouch firmware
(`src/pt/pt_display.h`). It covers three pieces:

- **Backlight controller.** `pt_get_duty_from_percent` maps a percent to an
  11-bit LEDC duty. `pt_set_backlight` clamps the percent, applies its duty
  and may remember it in `pt_backlight_percent`. `pt_init_backlight` brings
  the channel up at duty 0 so the panel does not flash while it is reset.
- **Touch read callback.** `pt_touchpad_read` writes one GT911 touch sample
  into LVGL's pointer record.
- **Display buffer strategy selector.** `pt_setup_display` takes a render
  mode (full or partial refresh, one or two buffers, PSRAM or internal
  memory preferred). It asks the heap for framebuffers and falls through the
  `switch` when a request fails. It then registers the buffers it got with
  LVGL and creates the touch input device, or it returns early.

The files:

- `backlight.dfy`: the duty formula, with lemmas, and the `Channel` class.
  The class holds the remembered level, the last duty and every duty
  applied.
- `touch.dfy`: the `IndevData` record and `TouchpadRead`, which keeps the
  source's `for` loop over the contacts.
- `strategy.dfy`: the selector as pure functions. There is one function per
  `case` label, or per group of labels that share code, with the pools and
  the retry as parameters. A fall-through is a call.
  - The heap is an oracle. Request number *i* is granted exactly when
    `answers[i]` holds, and the trace of `(pixels, pool)` requests is kept.
  - `SetupBuffers` returns the new globals, whether a display was created,
    the arguments of `lv_display_set_buffers`, and whether the input device
    was created.
- `strategy_props.dfy`: what the selector does for every sequence of heap
  answers.
- `policy.dfy`: the degrade order written as a table of policy steps, run by
  one interpreter. A lemma proves it equal to the switch.
- `display.dfy`: `pt_setup_display` as imperative code. The `PtDisplay`
  class holds the globals `pt_disp_draw_buf` and `pt_disp_draw_buf2`, the
  heap, and the LVGL effects. It has one method per case label, or per
  group of labels that share code, selected by parameters. The methods make
  the same allocations, retries, early returns and fall-throughs as the
  source. `SetupDisplay` takes the raw enumerator value and dispatches on it
  with `ModeOfCode`.
  Each method's postcondition ties the new state to the matching function
  in `strategy.dfy`.

Three behaviours of the code worth knowing:

- The duty is truncated, not rounded. At 50% it is 1023, where rounding would
  give 1024.
- `pt_init_backlight` never raises the duty toward the stored level. It
  leaves the duty at 0. `pt_setup_display` then writes the full duty 2047
  directly.
- PARTIAL_2, PARTIAL_2_PSRAM and `default` call `lv_display_create` before
  they know whether the first buffer exists. When it does not, they return
  with a display that has no buffers and no input device (lines 380/392,
  426/438 and 448/455). `TotalFailure` and `DoublePartialTries` state this.

## Model

| member | source | states |
|---|---|---|
| Backlight.Clamp | src/pt/pt_display.h:151-152 | The result is at most 100. It equals the input when the input is within 0..100, and is 100 above that. |
| Backlight.DutyFromPercent | src/pt/pt_display.h:132-136 | For 0..100 the duty is floor(percent·2047/100): duty·100 ≤ percent·2047 < (duty+1)·100. It never exceeds 2047, is 0 at 0% and 2047 at 100%. |
| Backlight.DutyGuardIsInert | src/pt/pt_display.h:135 | The `duty < 1 ? 0 : duty` guard never changes the integer quotient. |
| Backlight.DutyMonotone | src/pt/pt_display.h:132-136 | A higher percent never gives a lower duty. |
| Backlight.DutyPositive | src/pt/pt_display.h:132-136 | Every percent from 1 to 100 gives a duty of at least 20, so only 0% is dark. 1% gives exactly 20. |
| Backlight.DutyTruncates | src/pt/pt_display.h:134 | The float-to-integer cast truncates: 50% gives 1023, where rounding gives 1024. |
| Backlight.Channel.constructor | src/pt/pt_display.h:103 | At boot the remembered level is 100, the duty is 0, and nothing has been applied yet. |
| Backlight.Channel.ApplyDuty | src/pt/pt_display.h:154-155 | `ledc_set_duty` plus `ledc_update_duty`: the duty becomes `d` and is appended to the applied history. The level is unchanged. |
| Backlight.Channel.SetBacklight | src/pt/pt_display.h:149-160 | The applied duty is the duty of the clamped percent. The level becomes the clamped percent exactly when `save` is set, and is unchanged otherwise. |
| Backlight.Channel.InitBacklight | src/pt/pt_display.h:170-210 | The channel is configured with duty 0 and then given duty 0 once more. No nonzero duty is applied. The level is the argument, not clamped. |
| Backlight.Channel.PowerOn | src/pt/pt_display.h:287-290 | `pt_init_backlight(100)` followed by the direct write of 2047. The applied duties are 0, 0, 2047, the level is 100, and the duty is the duty of the level. |
| Touch.TouchpadRead | src/pt/pt_display.h:243-262 | Not touched: the state becomes released and the point is kept. Touched with at least one contact: pressed at the first contact, whatever the count. Touched with no contact: the record is unchanged. |
| Strategy.ModeOfCode | src/pt/pt_display.h:33-41 | The values 0..5 select FULL_1, FULL_2, PARTIAL_1, PARTIAL_2, PARTIAL_1_PSRAM and PARTIAL_2_PSRAM in enumerator order. A value reaches the `default` label exactly when it is outside 0..5. |
| Strategy.Allocate | src/pt/pt_display.h:309-315 | One request is appended to the trace. The result is non-null exactly when the oracle grants that request. A granted block carries the request's index, pixel count and pool. |
| Strategy.FullSingle | src/pt/pt_display.h:319-331 | The FULL_1 label keeps the selector invariants (see `Sound` below). If it registers nothing, it has created no display. |
| Strategy.FullDouble | src/pt/pt_display.h:332-347 | The FULL_2 label keeps the selector invariants. If it registers nothing, it has created no display. |
| Strategy.SinglePartial | src/pt/pt_display.h:349-365 | The PARTIAL_1 label (also PARTIAL_1_PSRAM, lines 396-412) keeps the selector invariants. If it registers nothing, it has created no display. |
| Strategy.DoublePartial | src/pt/pt_display.h:367-394 | The PARTIAL_2, PARTIAL_2_PSRAM and `default` labels keep the selector invariants. They always create the display. |
| Strategy.SetupBuffers | src/pt/pt_display.h:317-461 | `Sound`, for every heap: the input device exists exactly when buffers were registered. A registered buffer is non-null, was granted by this call, and is held by the global. Two registered buffers are distinct and the same size. The byte size is pixels·sizeof(lv_color_t). Full refresh uses W·H buffers and partial refresh W·80. When nothing is registered, a display exists exactly for the double-partial modes. |
| StrategyProperties.PreferredRegistration | src/pt/pt_display.h:317-456 | When the next two requests are granted: FULL_1 registers one W·H buffer in FULL; FULL_2 two W·H buffers in FULL; PARTIAL_1 and PARTIAL_1_PSRAM one W·80 buffer in PARTIAL; PARTIAL_2, PARTIAL_2_PSRAM and `default` two W·80 buffers in PARTIAL. Each uses its preferred pool and makes no other request. |
| StrategyProperties.Full1FallsIntoFull2 | src/pt/pt_display.h:319-335 | A refused FULL_1 buffer leads into FULL_2 with a NULL first global. FULL_2 then asks PSRAM for W·H again. |
| StrategyProperties.Full2FallsIntoPartial1 | src/pt/pt_display.h:332-352 | FULL_2 leads into PARTIAL_1 unless both buffers are granted. It asks for the second buffer only after the first was granted. A granted first buffer stays in the global, and its partner is NULL. |
| StrategyProperties.FallThroughIsSinglePartial | src/pt/pt_display.h:319-365 | A full mode registers in FULL exactly when its full-frame attempts succeed. Any registration reached by falling through is one W·80 buffer in PARTIAL. |
| StrategyProperties.SinglePartialTries | src/pt/pt_display.h:349-412 | PARTIAL_1 asks internal memory, then PSRAM, for W·80; PARTIAL_1_PSRAM asks in the opposite order. Each makes exactly the requests needed and registers the first granted block alone. If both tries fail, it returns before creating a display. |
| StrategyProperties.DoublePartialTries | src/pt/pt_display.h:367-455 | The second buffer is asked for only after the first was granted, and in the same pool. PARTIAL_2 retries it in PSRAM, PARTIAL_2_PSRAM in internal memory, and `default` does not retry. A missing second buffer gives a single-buffer PARTIAL registration. A missing first buffer gives a display without buffers and no input device. |
| StrategyProperties.TotalFailure | src/pt/pt_display.h:358-461 | When the heap grants nothing, no mode registers buffers or creates the input device. Only PARTIAL_2, PARTIAL_2_PSRAM and `default` have created a display. |
| StrategyProperties.PartialModesLoseNothing | src/pt/pt_display.h:349-455 | Outside the full modes, the set of granted blocks equals the set of registered blocks. |
| StrategyProperties.Full2LosesOrphan | src/pt/pt_display.h:332-365 | In FULL_2, the granted blocks are the registered ones plus, when the first buffer was granted and its partner refused, that first buffer. Neither global points at it afterwards, so it is never freed. |
| StrategyProperties.Full1LosesOrphan | src/pt/pt_display.h:319-365 | The same for FULL_1. The block that can be lost is FULL_2's first buffer, requested after FULL_1's request was refused. |
| StrategyProperties.DefaultBuildOnPandaTouch | src/pt/pt_display.h:44-46 | The default build mode, PARTIAL_2, on the 800×480 panel with two grants: two internal 64000-pixel buffers in PARTIAL, and an input device. |
| Policy.Chain | src/pt/pt_display.h:317-456 | Every mode's degrade chain is non-empty and ends in a W·80 partial-refresh step. Only the last step may create the display before its buffers are known. |
| Policy.TryPools | src/pt/pt_display.h:352-357 | The requests made are for the listed pools in the listed order, one each, and every request but the last was refused. The result is a block exactly when the last request was granted, and it is that request's block from its pool. The result is NULL only after every listed pool refused. When the first pool grants, its block is returned. |
| Policy.PsramSingleStepMatches | src/pt/pt_display.h:396-412 | The PARTIAL_1_PSRAM policy step run alone equals the PARTIAL_1_PSRAM label. |
| Policy.PartialDoubleStepMatches | src/pt/pt_display.h:367-394 | The PARTIAL_2 policy step run alone equals the PARTIAL_2 label. |
| Policy.PsramDoubleStepMatches | src/pt/pt_display.h:414-440 | The PARTIAL_2_PSRAM policy step run alone equals the PARTIAL_2_PSRAM label. |
| Policy.FallbackStepMatches | src/pt/pt_display.h:442-455 | The fallback policy step run alone equals the `default` label. |
| Policy.ChainMatchesSwitch | src/pt/pt_display.h:317-456 | For every mode, panel, heap and initial globals, the table-driven selector gives exactly the result of the fall-through switch. |
| Display.PtDisplay.constructor | src/pt/pt_display.h:96-97 | At boot both draw-buffer globals are NULL, no display or input device exists, and no request has been made. |
| Display.PtDisplay.AllocBuf | src/pt/pt_display.h:309-315 | The `alloc_buf` lambda: one heap request, as `Allocate` describes. |
| Display.PtDisplay.CreateDisplay | src/pt/pt_display.h:325-326 | `lv_display_create` with `lv_display_set_flush_cb`. One display without buffers is appended. The same calls appear at lines 342-343, 362-363, 380-381, 409-410, 426-427 and 448-449. |
| Display.PtDisplay.SetBuffers | src/pt/pt_display.h:327 | `lv_display_set_buffers` on the display just created. That display's record becomes the given buffers, byte size and refresh mode, and earlier displays are unchanged. The same call appears at lines 344, 364, 384, 388, 411, 430, 434, 451 and 453. |
| Display.PtDisplay.CreateIndev | src/pt/pt_display.h:459-461 | `lv_indev_create`, the pointer type and `pt_touchpad_read` as read callback. The count of input devices grows by one. |
| Display.PtDisplay.CaseFull1 | src/pt/pt_display.h:319-331 | The imperative FULL_1 label. Its new globals, heap and displays are those of `FullSingle`, and it reports whether control breaks out of the switch. |
| Display.PtDisplay.CaseFull2 | src/pt/pt_display.h:332-347 | The imperative FULL_2 label, as `FullDouble` describes. |
| Display.PtDisplay.CaseSinglePartial | src/pt/pt_display.h:349-365 | The imperative PARTIAL_1 and PARTIAL_1_PSRAM labels, as `SinglePartial` describes. |
| Display.PtDisplay.CaseDoublePartial | src/pt/pt_display.h:367-455 | The imperative PARTIAL_2, PARTIAL_2_PSRAM and `default` labels, as `DoublePartial` describes. |
| Display.PtDisplay.SetupDisplay | src/pt/pt_display.h:273-462 | For any enumerator value, dispatched by `ModeOfCode`: the backlight ends at level 100 with duty 2047, after two zero duties. The globals, heap trace and displays are those of `SetupBuffers`. One input device is added exactly when buffers were registered. |

## Left out

- Panel and touch object construction, pin and timing constants, the
  reset-pin pulse with its delays, `pt_gfx.begin`, `fillScreen`, touch
  `begin`/`setRotation`, `lv_init` and the tick callback. This is hardware
  wiring with no decision in it. The panel's reported width and height are
  parameters of the model.
- The LEDC timer configuration (frequency, 11-bit resolution, clock source)
  and `ledc_fade_func_install`. These are driver calls. Only the duties
  applied to channel 0 are recorded.
- The `set_percent < 0` branch of `pt_init_backlight`. `set_percent` is a
  `uint8_t`, so the branch cannot run.
- Backlight.DutyFromPercent: defined for 0..100 only. That is its documented
  range, and every caller clamps first. The float arithmetic is replaced by
  the exact integer quotient, which equals the truncated float result on
  that range.
- Touch.TouchpadRead: the driver's `read()` call is not modelled. The sample
  it produces (touched flag, contact count, the five contact slots) is a
  parameter. Fields of `lv_indev_data_t` that the callback does not write
  are not modelled.
- The heap: its capacity, fragmentation and the regions behind each
  capability set are not modelled. It is an oracle that grants or refuses
  each request in turn. The `Internal` pool is the plain `MALLOC_CAP_8BIT`
  request, which is not guaranteed to be served from internal RAM.
- `bufSize * sizeof(lv_color_t)`: the model uses unbounded integers, with no
  32-bit wrap-around. Panel sizes are 16-bit values, so the product stays
  below 2^32 for colour sizes up to 3 bytes. `sizeof(lv_color_t)` is a
  positive parameter.
- LVGL itself: the display object, the flush callback and the input device
  are recorded only as effects. `pt_disp_flush` and `pt_loop_display` only
  pass calls through to the panel driver and the LVGL task loop.
- `src/pt_demo.h` (the slider and label screen) and `src/main.cpp` (setup
  and loop glue). They hold no logic beyond calling `pt_set_backlight(v,
  true)` and `pt_setup_display()`.
