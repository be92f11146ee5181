/**
 * Client-level consequences of the contracts: the widget driven through whole
 * drag gestures.
 */
module Scenarios {
  import opened Primitives
  import opened Slider
  /** A minute widget at 0 dragged 25 pixels reaches 2 and reports 2 once. */
  method DragIncrementsMinute() returns (v: u32, ghost calls: seq<HandlerCall>)
    ensures v == 2 && calls == [HandlerCall(7, 2, 0)]
  {
    var s := new SliderNumber("minute", 0, 0, 59);
    s.OnChange(7);
    s.OnDragBegin(Point(40, 100));
    s.OnDragMove("minute", Point(40, 125));
    v, calls := s.value, s.handlerCalls;
  }

  /** An hour widget at 22 dragged 1000 pixels stops at 23 and reports 23. */
  method DragClampsAtMax() returns (v: u32, ghost calls: seq<HandlerCall>)
    ensures v == 23 && calls == [HandlerCall(1, 23, 22)]
  {
    var s := new SliderNumber("hour", 22, 0, 23);
    s.OnChange(1);
    s.OnDragBegin(Point(0, 0));
    s.OnDragMove("hour", Point(0, 1000));
    v, calls := s.value, s.handlerCalls;
  }

  /** A minute widget at 3 dragged 500 pixels the other way stops at 0 without wrapping. */
  method DragClampsAtZero() returns (v: u32)
    ensures v == 0
  {
    var s := new SliderNumber("minute", 3, 0, 59);
    s.OnDragBegin(Point(0, 600));
    s.OnDragMove("minute", Point(0, 100));
    v := s.value;
  }

  /** A move tagged with another widget's id leaves the value alone and calls nothing. */
  method ForeignDragIgnored() returns (v: u32, ghost calls: seq<HandlerCall>)
    ensures v == 8 && calls == []
  {
    var s := new SliderNumber("hour", 8, 0, 23);
    s.OnChange(1);
    s.OnDragBegin(Point(0, 0));
    s.OnDragMove("minute", Point(0, 300));
    v, calls := s.value, s.handlerCalls;
  }

  /**
   * A move of less than one step still calls the handler, with the unchanged
   * value: the widget does not compare before notifying.
   */
  method SubStepMoveStillNotifies() returns (v: u32, ghost calls: seq<HandlerCall>)
    ensures v == 5 && calls == [HandlerCall(3, 5, 5)]
  {
    var s := new SliderNumber("minute", 5, 0, 59);
    s.OnChange(3);
    s.OnDragBegin(Point(0, 50));
    s.OnDragMove("minute", Point(0, 59));
    v, calls := s.value, s.handlerCalls;
  }

  /** `new` does not clamp: a value outside the bounds is kept until the first move. */
  method NewKeepsOutOfRangeValue() returns (before: u32, after: u32)
    ensures before == 99 && after == 23
  {
    var s := new SliderNumber("hour", 99, 0, 23);
    before := s.value;
    s.OnDragBegin(Point(0, 0));
    s.OnDragMove("hour", Point(0, 0));
    after := s.value;
  }

  /**
   * Repeating a move at the same pointer gives the same value: the result
   * depends on the snapshot and the pointer, not on the current value.
   */
  method RepeatedMoveIsIdempotent(s: SliderNumber, pointer: Point) returns (first: u32, second: u32)
    requires s.CanMove(pointer)
    modifies s
    ensures first == second == s.value
  {
    s.OnDragMove(s.id, pointer);
    first := s.value;
    s.OnDragMove(s.id, pointer);
    second := s.value;
  }

  /** Two drag-begins without a move in between take the same snapshot. */
  method DoubleBeginSameSnapshot(s: SliderNumber, p: Point, q: Point) returns (a: Option<u32>, b: Option<u32>)
    modifies s
    ensures a == b == Some(old(s.value)) && s.startPosition == Some(q)
    ensures s.value == old(s.value) && s.handlerCalls == old(s.handlerCalls)
  {
    s.OnDragBegin(p);
    a := s.startValue;
    s.OnDragBegin(q);
    b := s.startValue;
  }
}

/** The countdown at concrete instants. */
module CountdownScenarios {
  import opened Primitives
  import Countdown

  /** Target 08:00 read at 07:30 on any day: 30 minutes remain. */
  lemma TargetLaterToday(day: int)
    ensures var now := day * Countdown.SECONDS_PER_DAY + 7 * 3600 + 30 * 60;
            Countdown.GetDuration(Countdown.FromHm(8, 0, now), now) == 30 * 60
  {
    var now := day * Countdown.SECONDS_PER_DAY + 7 * 3600 + 30 * 60;
    DivUnique(now, day, Countdown.SECONDS_PER_DAY);
  }

  /** Target 06:00 read at 07:30 on any day: it moves to the next day, 22 h 30 min remain. */
  lemma TargetEarlierToday(day: int)
    ensures var now := day * Countdown.SECONDS_PER_DAY + 7 * 3600 + 30 * 60;
            Countdown.GetDuration(Countdown.FromHm(6, 0, now), now) == 22 * 3600 + 30 * 60
  {
    var now := day * Countdown.SECONDS_PER_DAY + 7 * 3600 + 30 * 60;
    DivUnique(now, day, Countdown.SECONDS_PER_DAY);
  }
}
