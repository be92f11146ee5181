# countdown-gpui in Dafny

A model of the logic under the GUI of a small desktop countdown utility. The
utility shows how long remains until a wall-clock time of day. It also has a
numeric "spinner" widget whose value changes when the user drags it vertically.

Three pieces are modelled:

- **`SliderNumber`** (`slider_number.dfy`, module `Slider`). A class with the
  widget's fields and its methods:
  - `new`, and the builders `on_change` and `formatter`;
  - the drag-begin handler, which snapshots the value and the pointer;
  - the drag-move handler. It filters on the drag id. It turns the vertical
    pointer delta into whole steps of 10 pixels, and adds or subtracts those
    steps from the snapshot. Subtraction saturates at zero, and the result is
    clamped to `[min, max]`. Then it calls the change handler and stores the
    value.
  - The pointer is a pair of whole pixels, passed as a parameter.
  - The change handler is an identity token. A ghost log records every call to
    it: which handler, the argument, and the widget's value at the moment of the
    call.
  - The label that `render` shows is the function `Label`.
- **Time formatting** (`time_format.dfy`, module `TimeFormat`, on top of
  `decimal.dfy`). `format_hm` renders `{:02}:{:02}`. `format_duration` takes
  whole hours, wrapped by the `as u32` cast, and minutes modulo 60. A parser
  `ParseHm` serves as the inverse for the round-trip property.
- **Countdown rule** (`countdown.dfy`, module `Countdown`). `from_hm` fixes the
  target at today's `hour:min:00`. `get_duration` adds one day to a target
  strictly before now, then subtracts. Instants are whole seconds of local
  wall-clock time, `now` is a parameter, and a day is 86400 seconds.

`scenarios.dfy` drives the widget through whole gestures and reads the
countdown at concrete instants, using only the contracts above.

The model follows the code, including where it differs from what such a widget
is usually expected to do:

- `new` stores `value` as given. It does not clamp it to `[min, max]`.
- The change handler is called on every drag-move for this widget, even when
  the value did not change. It is called before `value` is assigned.
- There is no drag-end handler, so the snapshot is never cleared.
- The countdown owns no spinner children and has no hour or minute fields. Its
  target instant is fixed at construction and never updated. So only one day is
  ever added, and once the target is a full day or more in the past the
  duration is zero or negative.
- A zero vertical delta takes the "increase" branch, because the sign of `+0.0`
  is `1.0`. Both branches give the same value for it.

## Model

| member | source | states |
|---|---|---|
| Decimal.Digits | src/slider_number.rs:100 | `to_string` of a `u32`: a non-empty digit string that parses back to the number; zero is exactly "0", any longer string has no leading zero, and its length is the number of decimal digits |
| Decimal.Pad2 | src/utils.rs:4 | `{:02}`: at least two digits, parses back to the number; exactly two digits (tens, units) below 100; the plain rendering at 10 and above, so never truncated |
| TimeFormat.FormatHm | src/utils.rs:3-5 | the hour's `{:02}` digits (reading back as the hour), then ':', then the minute's `{:02}` digits (reading back as the minute), and nothing else: the length is the two padded widths plus one; five characters when both are below 100 |
| TimeFormat.FormatHmTwoDigits | src/utils.rs:3-5 | for hour and minute below 100 the text is exactly five characters: two digits, ':', two digits |
| TimeFormat.FormatHmWideHour | src/utils.rs:4 | an hour of 100 or more keeps all its digits before the ':'; the text is exactly those digits, ':', and the minute padded to two |
| TimeFormat.FormatHmRoundTrip | src/utils.rs:3-5 | splitting `format_hm(h, m)` at the first ':' and parsing both sides gives back `(h, m)` |
| TimeFormat.FormatDuration | src/utils.rs:7-11 | the text reads back as the whole hours wrapped modulo 2^32 by the `as u32` cast, and the whole minutes past the hour |
| TimeFormat.MinutesPastHour | src/utils.rs:9 | whole minutes modulo 60 equal the whole minutes past the whole hours |
| TimeFormat.FormatDurationFields | src/utils.rs:7-11 | for a non-negative duration below 2^32 hours the text reads back as the whole hours and the whole minutes past the hour; minutes are below 60, hours are unbounded |
| TimeFormat.FormatDurationOfHms | src/utils.rs:7-11 | `h` hours, `m < 60` minutes and `s < 60` seconds print as `format_hm(h, m)`: seconds are dropped |
| TimeFormat.FormatDurationFiveChars | src/utils.rs:7-11 | a duration under 100 hours prints as exactly two digits of whole hours, ':', two digits of minutes past the hour |
| Countdown.FromHm | src/countdown.rs:21-26 | requires hour < 24 and minute < 60 (otherwise `unwrap` panics); the target falls on the same day as `now` at time of day `hour:min:00` |
| Countdown.GetDuration | src/countdown.rs:12-19 | `now + d` is the target, or the target plus exactly one day, and it is the target exactly when `now <= target`; within a day on either side the result is in `[0, 86400]`, and positive for a past target; a target a day or more in the past gives `d <= 0` |
| Countdown.FromHmNextOccurrence | src/countdown.rs:12-26 | a countdown built from `hour:min` at `now` and read at `now` gives a duration in `[0, 86400)` that ends at time of day `hour:min:00` |
| Slider.Clamp | src/slider_number.rs:74 | `Ord::clamp`: requires `lo <= hi`; the result lies in `[lo, hi]`, equals `x` inside, and the nearer bound outside |
| Slider.Steps | src/slider_number.rs:70-72 | `|dy| / 10` rounded down, saturating at `u32::MAX` |
| Slider.DragValue | src/slider_number.rs:70-77 | the result lies in `[min, max]`; from any start, even outside the bounds, it is `start + steps` (for `dy >= 0`) or `start - steps` (for `dy <= 0`) clamped into `[min, max]`; from a start in range, `dy >= 0` gives `min(start + steps, max) >= start`, `dy <= 0` gives `max(start - steps, min) <= start` with no wrap below zero; under one step the value is the start, under two steps it moves by at most one |
| Slider.SliderNumber.constructor | src/slider_number.rs:24-35 | id, value, min and max are stored verbatim; no handler, no formatter, no snapshot |
| Slider.SliderNumber.OnChange | src/slider_number.rs:37-40 | sets the change handler and no other field |
| Slider.SliderNumber.Formatter | src/slider_number.rs:42-45 | sets the formatter and no other field |
| Slider.SliderNumber.Label | src/slider_number.rs:97-100 | the formatter's output if one is set; otherwise exactly `Decimal.Digits(value)`, the decimal string of the value with no leading zero |
| Slider.SliderNumber.CanMove | src/slider_number.rs:66-76 | the condition a matching drag-move needs to run without panicking: it implies both snapshots are present (`unwrap`), `min <= max` (`clamp`), and an upward move's sum fits in `u32`; under it the new value lies in `[min, max]` |
| Slider.SliderNumber.OnDragBegin | src/slider_number.rs:47-55 | `start_value := Some(value)`, `start_position := Some(pointer)`, nothing else changes |
| Slider.SliderNumber.OnDragMove | src/slider_number.rs:57-82 | a foreign drag id changes nothing and calls no handler; a matching move needs a snapshot, `min <= max` and no `u32` overflow; it sets `value` to `DragValue` of the snapshot and the pointer delta, so `min <= value <= max`; the handler, if set, is logged exactly once with the new value while `value` still held the old one |
| Scenarios.DragIncrementsMinute | src/slider_number.rs:57-82 | a minute widget at 0 dragged 25 pixels becomes 2 and reports 2 once |
| Scenarios.DragClampsAtMax | src/slider_number.rs:73-74 | an hour widget at 22 dragged 1000 pixels stops at 23 and reports 23 |
| Scenarios.DragClampsAtZero | src/slider_number.rs:75-76 | a minute widget at 3 dragged 500 pixels the other way stops at 0 |
| Scenarios.ForeignDragIgnored | src/slider_number.rs:62-64 | a move tagged with another id leaves the value and the handler log unchanged |
| Scenarios.SubStepMoveStillNotifies | src/slider_number.rs:78-81 | a move under one step still calls the handler, with the unchanged value |
| Scenarios.NewKeepsOutOfRangeValue | src/slider_number.rs:24-35 | `new` keeps 99 in a `0..=23` widget; the first move clamps it to 23 |
| Scenarios.RepeatedMoveIsIdempotent | src/slider_number.rs:66-81 | two moves at the same pointer give the same value |
| Scenarios.DoubleBeginSameSnapshot | src/slider_number.rs:47-55 | two drag-begins with no move between both snapshot the value held before them, leave the value and the handler log unchanged; the second pointer wins |
| CountdownScenarios.TargetLaterToday | src/countdown.rs:12-26 | target 08:00 read at 07:30 on any day leaves 30 minutes |
| CountdownScenarios.TargetEarlierToday | src/countdown.rs:12-26 | target 06:00 read at 07:30 on any day moves to the next day and leaves 22 hours 30 minutes |

## Left out

- Pixel arithmetic in `f32` is not modelled: the division by 10, `floor`, and `signum` on `-0.0` or NaN. The pointer delta is a whole number of pixels, and integer division rounds it down.
- Slider.SliderNumber.OnDragMove: requires that `start_value + steps` fits in `u32`. The source's addition panics in a debug build and wraps in a release build; the wrapping is not modelled.
- What the change handler does is not modelled. It is an opaque closure that receives a `WindowContext`; the model records only its calls.
- A formatter returns a GUI element in the source. In the model it returns a string.
- `WeakView::update` failing in the drag-begin handler, the `EmptyView` it returns, and `mouse_position` are not modelled. The pointer is a parameter.
- Rendering is not modelled beyond the label choice: element trees, styling, the hover cursor, drag and drag-move registration, the countdown view's layout and its colours.
- Time zones, daylight-saving changes and `Local::now()` are not modelled. A day is always 86400 seconds, and `with_time` never meets an ambiguous or missing local time.
- Durations are whole seconds. Sub-second precision and the finite range of chrono's `Duration` are not modelled.
- Negative durations in `format_duration` are not modelled. There, truncating division, a negative `%` and the wrapping cast give meaningless text.
- `format_datetime`, imported by src/countdown.rs, is not part of this model: it is not defined in src/utils.rs. The same holds for `Countdown::new`, called by src/main.rs. The target-time label of the countdown view is therefore not modelled either.
- src/main.rs (argument parsing, window creation) is not modelled. Its hour and minute ranges appear only as the precondition of `Countdown.FromHm`.
