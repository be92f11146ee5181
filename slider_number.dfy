/**
 * The drag-driven number widget of src/slider_number.rs. The pointer is a pair
 * of whole pixels; the opaque change handler is an identity token, and a ghost
 * log records every call made to it.
 */
module Slider {
  import opened Primitives
  import Decimal

  /** Pixels of vertical pointer travel per unit of change. */
  const STEP: nat := 10

  type ElementId = string

  datatype Point = Point(x: int, y: int)

  /** Identity of a change handler installed with `on_change`. */
  type HandlerId = nat

  /**
   * One call of the change handler: which handler, the value it was passed and
   * the widget's `value` at the moment of the call.
   */
  datatype HandlerCall = HandlerCall(handler: HandlerId, arg: u32, valueSeen: u32)

  /** Rust's `Ord::clamp`, which panics when `lo > hi`. */
  function Clamp(x: int, lo: u32, hi: u32): (r: u32)
    requires lo <= hi
    ensures lo <= r <= hi
    ensures lo <= x <= hi ==> r == x
    ensures x < lo ==> r == lo
    ensures x > hi ==> r == hi
  {
    if x < lo then lo else if x > hi then hi else x
  }

  /**
   * Whole steps in a vertical delta: `|dy| / STEP` rounded down, saturated to
   * `u32` as the `as u32` cast does.
   */
  function Steps(dy: int): (n: u32)
    ensures n < U32_MAX ==> n * STEP <= Abs(dy) < n * STEP + STEP
    ensures n == U32_MAX ==> U32_MAX * STEP <= Abs(dy)
  {
    Min(Abs(dy) / STEP, U32_MAX)
  }

  /**
   * The value a drag reaches from the snapshot `start` when the pointer has
   * moved `dy` pixels: up by the steps (clamped) for `dy >= 0`, down by the
   * steps saturating at zero (then clamped) for `dy < 0`. A zero delta takes
   * the upward branch, as `signum` of `+0.0` is `1.0`.
   */
  function DragValue(start: u32, dy: int, lo: u32, hi: u32): (r: u32)
    requires lo <= hi
    requires dy >= 0 ==> start + Steps(dy) <= U32_MAX
    ensures lo <= r <= hi
    ensures dy >= 0 ==> r == Min(Max(start + Steps(dy), lo), hi)
    ensures dy <= 0 ==> r == Min(Max(start - Steps(dy), lo), hi)
    ensures lo <= start <= hi && dy >= 0 ==> r == Min(start + Steps(dy), hi) && start <= r
    ensures lo <= start <= hi && dy <= 0 ==> r == Max(start - Steps(dy), lo) && r <= start
    ensures lo <= start <= hi && Abs(dy) < STEP ==> r == start
    ensures lo <= start <= hi && Abs(dy) < 2 * STEP ==> Abs(r - start) <= 1
    ensures start == 0 && lo == 0 && dy <= 0 ==> r == 0
  {
    if dy >= 0 then
      Clamp(start + Steps(dy), lo, hi)
    else
      Clamp(start - Min(Steps(dy), start), lo, hi)
  }

  class SliderNumber {
    var id: ElementId
    var value: u32
    var min: u32
    var max: u32
    var changeHandler: Option<HandlerId>
    var formatter: Option<u32 -> string>
    var startValue: Option<u32>
    var startPosition: Option<Point>
    /** Every call made to a change handler, oldest first. */
    ghost var handlerCalls: seq<HandlerCall>

    /** `new`: the arguments are stored as given; `value` is not clamped. */
    constructor (id: ElementId, value: u32, min: u32, max: u32)
      ensures this.id == id && this.value == value && this.min == min && this.max == max
      ensures changeHandler == None && formatter == None
      ensures startValue == None && startPosition == None
      ensures handlerCalls == []
    {
      this.id := id;
      this.value := value;
      this.min := min;
      this.max := max;
      changeHandler := None;
      formatter := None;
      startValue := None;
      startPosition := None;
      handlerCalls := [];
    }

    /** `on_change`: installs (or replaces) the change handler and nothing else. */
    method OnChange(handler: HandlerId)
      modifies this`changeHandler
      ensures changeHandler == Some(handler)
    {
      changeHandler := Some(handler);
    }

    /** `formatter`: installs (or replaces) the formatter and nothing else. */
    method Formatter(f: u32 -> string)
      modifies this`formatter
      ensures formatter == Some(f)
    {
      formatter := Some(f);
    }

    /** The label `render` shows: the formatter's output if one is set, else the decimal value. */
    function Label(): (s: string)
      reads this
      ensures formatter.Some? ==> s == formatter.value(value)
      ensures formatter.None? ==> s == Decimal.Digits(value)
      ensures formatter.None? ==> Decimal.Parse(s) == Some(value as nat) && (|s| > 1 ==> s[0] != '0')
    {
      match formatter
      case Some(f) => f(value)
      case None => Decimal.Digits(value)
    }

    /** `on_drag_handler`: snapshots the value and the pointer, changing nothing else. */
    method OnDragBegin(pointer: Point)
      modifies this`startValue, this`startPosition
      ensures startValue == Some(value) && startPosition == Some(pointer)
    {
      startValue := Some(value);
      startPosition := Some(pointer);
    }

    /**
     * True when a drag-move event for this widget at `pointer` can be handled
     * without a panic: a snapshot exists (`unwrap`), the bounds are ordered
     * (`clamp`) and an upward move does not overflow `u32`.
     */
    predicate CanMove(pointer: Point): (ok: bool)
      reads this
      ensures ok ==> startValue.Some? && startPosition.Some? && min <= max
      ensures ok ==> var dy := pointer.y - startPosition.value.y;
                     && (dy >= 0 ==> startValue.value + Steps(dy) <= U32_MAX)
                     && min <= DragValue(startValue.value, dy, min, max) <= max
    {
      && startValue.Some? && startPosition.Some?
      && min <= max
      && (pointer.y - startPosition.value.y >= 0 ==>
            startValue.value + Steps(pointer.y - startPosition.value.y) <= U32_MAX)
    }

    /**
     * `on_drag_move_handler`: an event for another drag id changes nothing.
     * Otherwise the new value is computed from the snapshot and the pointer
     * alone, the handler (if any) is called once with it while `value` still
     * holds the old value, and then `value` is assigned, whether or not it
     * changed.
     */
    method OnDragMove(dragId: ElementId, pointer: Point)
      requires dragId == id ==> CanMove(pointer)
      modifies this`value, this`handlerCalls
      ensures dragId != id ==> value == old(value) && handlerCalls == old(handlerCalls)
      ensures dragId == id ==>
                value == DragValue(startValue.value, pointer.y - startPosition.value.y, min, max)
      ensures dragId == id ==>
                handlerCalls == old(handlerCalls) +
                  (if changeHandler.Some? then [HandlerCall(changeHandler.value, value, old(value))] else [])
      ensures dragId == id ==> min <= value <= max
    {
      if dragId != id {
        return;
      }
      var startY := startPosition.value.y;
      var newValue := startValue.value;
      var dy := pointer.y - startY;
      if dy >= 0 {
        newValue := Clamp(newValue + Steps(dy), min, max);
      } else {
        newValue := Clamp(newValue - Min(Steps(dy), newValue), min, max);
      }
      if changeHandler.Some? {
        handlerCalls := handlerCalls + [HandlerCall(changeHandler.value, newValue, value)];
      }
      value := newValue;
    }
  }
}
