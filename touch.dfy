/**
  pt_touchpad_read (src/pt/pt_display.h): the LVGL input read callback that
  turns one GT911 touch sample into the pointer record LVGL passes in.
 */
module Touch {

  /** The GT911 driver keeps five contact slots (`TP points[5]`). */
  const ContactSlots: nat := 5

  datatype TouchPoint = TouchPoint(x: int, y: int)

  /** The driver fields read after pt_touchpanel.read(): touched flag, contact count, contacts. */
  datatype Sample = Sample(isTouched: bool, touches: nat, points: seq<TouchPoint>)

  datatype IndevState = Released | Pressed

  /** The part of `lv_indev_data_t` the callback writes. */
  class IndevData {
    var state: IndevState
    var x: int
    var y: int

    constructor (state: IndevState, x: int, y: int)
      ensures this.state == state && this.x == x && this.y == y
    {
      this.state := state;
      this.x := x;
      this.y := y;
    }
  }

  /**
    Not touched: released, point kept. Touched with at least one contact:
    pressed at the first contact, whatever the count. Touched with no
    contact: the record is left as it was.
   */
  method TouchpadRead(data: IndevData, sample: Sample)
    requires |sample.points| == ContactSlots
    modifies data
    ensures !sample.isTouched ==> data.state == Released && data.x == old(data.x) && data.y == old(data.y)
    ensures sample.isTouched && sample.touches >= 1 ==>
      data.state == Pressed && data.x == sample.points[0].x && data.y == sample.points[0].y
    ensures sample.isTouched && sample.touches == 0 ==> unchanged(data)
  {
    if sample.isTouched {
      for i := 0 to sample.touches
        invariant i == 0 ==> unchanged(data)
        invariant i >= 1 ==> data.state == Pressed && data.x == sample.points[0].x && data.y == sample.points[0].y
      {
        if i == 0 {
          data.state := Pressed;
          data.x := sample.points[i].x;
          data.y := sample.points[i].y;
        }
      }
    } else {
      data.state := Released;
    }
  }
}
