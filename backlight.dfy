/**
  The backlight controller of src/pt/pt_display.h: the percent-to-duty
  formula of the 11-bit LEDC channel, and the channel together with the
  remembered level `pt_backlight_percent`.
 */
module Backlight {

  /** `uint8_t`, the type of the percent arguments and of pt_backlight_percent. */
  newtype uint8 = x: int | 0 <= x < 0x100

  /** (1 << LEDC_TIMER_11_BIT) - 1, the largest duty of the 11-bit timer. */
  const MaxDuty: nat := 0x800 - 1

  /** The percent a brightness request is clamped to. */
  function Clamp(percent: uint8): (c: uint8)
    ensures c <= 100
    ensures percent <= 100 ==> c == percent
    ensures percent > 100 ==> c == 100
  {
    if percent > 100 then 100 else percent
  }

  /**
    pt_get_duty_from_percent: percent / 100 of MaxDuty, truncated toward zero,
    with a computed duty below 1 forced to 0. For the documented range 0..100
    the float product is within 0.001 of the exact rational and its fractional
    part is either 0 or at least 0.01, so the truncated float equals the
    integer quotient used here.
   */
  function DutyFromPercent(percent: nat): (duty: nat)
    requires percent <= 100
    ensures duty * 100 <= percent * MaxDuty < (duty + 1) * 100
    ensures duty <= MaxDuty
    ensures percent == 0 ==> duty == 0
    ensures percent == 100 ==> duty == MaxDuty
  {
    var duty := percent * MaxDuty / 100;
    if duty < 1 then 0 else duty
  }

  /** The `duty < 1 ? 0 : duty` guard never changes the quotient. */
  lemma DutyGuardIsInert(percent: nat)
    requires percent <= 100
    ensures DutyFromPercent(percent) == percent * MaxDuty / 100
  {
  }

  /** A brighter percent never gives a smaller duty. */
  lemma DutyMonotone(p: nat, q: nat)
    requires p <= q <= 100
    ensures DutyFromPercent(p) <= DutyFromPercent(q)
  {
  }

  /** Every nonzero percent gives a nonzero duty; 1% is 20 of 2047. */
  lemma DutyPositive(percent: nat)
    requires 1 <= percent <= 100
    ensures DutyFromPercent(percent) >= 20
    ensures percent == 1 ==> DutyFromPercent(percent) == 20
  {
  }

  /** Rounding to the nearest duty, which the formula does not do. */
  function RoundedDuty(percent: nat): nat {
    (percent * MaxDuty + 50) / 100
  }

  /** The formula truncates: at 50% it gives 1023 where rounding gives 1024. */
  lemma DutyTruncates()
    ensures DutyFromPercent(50) == 1023 && RoundedDuty(50) == 1024
  {
  }

  /**
    LEDC channel 0 driving the backlight pin, and the remembered level.
    `duty` is the last duty committed to the channel and `applied` every
    duty committed so far, in order.
   */
  class Channel {
    var level: uint8
    var duty: nat
    var applied: seq<nat>

    ghost predicate Valid()
      reads this
    {
      && duty <= MaxDuty
      && (forall i :: 0 <= i < |applied| ==> applied[i] <= MaxDuty)
      && (applied != [] ==> duty == applied[|applied| - 1])
    }

    /** Power-on: `static uint8_t pt_backlight_percent = 100`, channel not yet driven. */
    constructor ()
      ensures Valid()
      ensures level == 100 && duty == 0 && applied == []
    {
      level := 100;
      duty := 0;
      applied := [];
    }

    /** ledc_set_duty followed by ledc_update_duty on channel 0. */
    method ApplyDuty(d: nat)
      requires Valid() && d <= MaxDuty
      modifies this
      ensures Valid()
      ensures duty == d && applied == old(applied) + [d] && level == old(level)
    {
      duty := d;
      applied := applied + [d];
    }

    /**
      pt_set_backlight: clamp to 100, apply the duty of the clamped percent,
      and remember the clamped percent exactly when `save` is set.
     */
    method SetBacklight(percent: uint8, save: bool)
      requires Valid()
      modifies this
      ensures Valid()
      ensures duty == DutyFromPercent(Clamp(percent) as nat)
      ensures applied == old(applied) + [duty]
      ensures level == if save then Clamp(percent) else old(level)
    {
      var p := percent;
      if p > 100 {
        p := 100;
      }
      var target := DutyFromPercent(p as nat);
      ApplyDuty(target);
      if save {
        level := p;
      }
    }

    /**
      pt_init_backlight: configure the channel with duty 0 (so the panel does
      not flash while it is reset), remember `setPercent` as given, and apply
      duty 0 once more. No nonzero duty is ever applied here.
     */
    method InitBacklight(setPercent: uint8)
      requires Valid()
      modifies this
      ensures Valid()
      ensures level == setPercent
      ensures duty == 0 && applied == old(applied) + [0, 0]
    {
      ApplyDuty(0);
      level := setPercent;
      if setPercent != 0 {
        SetBacklight(0, false);
      } else {
        SetBacklight(0, true);
      }
    }

    /**
      The backlight part of pt_setup_display: pt_init_backlight(100), then the
      full duty written straight to the channel. The level stays 100 and the
      duty is the duty of that level, after two zero duties.
     */
    method PowerOn()
      requires Valid()
      modifies this
      ensures Valid()
      ensures level == 100 && duty == MaxDuty && duty == DutyFromPercent(level as nat)
      ensures applied == old(applied) + [0, 0, MaxDuty]
    {
      InitBacklight(100);
      ApplyDuty(MaxDuty);
    }
  }
}
