/**
 * The input layer of driver_input_reader/inputs.py: the raw axis readings of
 * the steering wheel and the pedal cluster, their fixed affine maps to
 * percent, the dead-zoned and scaled variants, the button query on the
 * optional button box, and the control wheels built at start-up.
 */
module Inputs {
  import opened Wrappers
  import opened ControlWheels

  /**
   * The reference definition of an axis calibration: the affine map taking
   * `low` to 0 and `high` to 100.
   */
  function Normalize(raw: real, low: real, high: real): (p: real)
    requires low != high
    ensures raw == low ==> p == 0.0
    ensures raw == high ==> p == 100.0
  {
    var d := high - low;
    assert d / d == 1.0;
    (raw - low) / d * 100.0
  }

  /** A calibration with `low < high` is strictly increasing. */
  lemma NormalizeIncreasing(a: real, b: real, low: real, high: real)
    requires low < high && a < b
    ensures Normalize(a, low, high) < Normalize(b, low, high)
  {
    var d := high - low;
    assert (b - low) / d - (a - low) / d == (b - a) / d;
    assert (b - a) / d > 0.0;
  }

  // Calibration ends of the pedal axes (raw reading at rest and fully pressed).
  const ThrottleLow: real := -1.0
  const ThrottleHigh: real := 0.32
  const BrakeLow: real := -0.78
  const BrakeHigh: real := -0.2
  const ClutchLow: real := -1.0
  const ClutchHigh: real := 0.83233642578125

  /** Steering: full left (-1) is 100, full right (1) is -100. */
  function SteeringPercent(axis: real): (p: real)
    ensures axis == -1.0 ==> p == 100.0
    ensures axis == 1.0 ==> p == -100.0
    ensures axis == 0.0 ==> p == 0.0
    ensures -100.0 <= p <= 100.0 <==> -1.0 <= axis <= 1.0
  {
    axis * -100.0
  }

  function ThrottlePercent(axis: real): (p: real)
    ensures axis == ThrottleLow ==> p == 0.0
    ensures axis == ThrottleHigh ==> p == 100.0
    ensures 0.0 <= p <= 100.0 <==> ThrottleLow <= axis <= ThrottleHigh
  {
    (axis + 1.0) / 1.32 * 100.0
  }

  function BrakePercent(axis: real): (p: real)
    ensures axis == BrakeLow ==> p == 0.0
    ensures axis == BrakeHigh ==> p == 100.0
    ensures 0.0 <= p <= 100.0 <==> BrakeLow <= axis <= BrakeHigh
  {
    (axis + 0.78) / 0.58 * 100.0
  }

  function ClutchPercent(axis: real): (p: real)
    ensures axis == ClutchLow ==> p == 0.0
    ensures axis == ClutchHigh ==> p == 100.0
    ensures 0.0 <= p <= 100.0 <==> ClutchLow <= axis <= ClutchHigh
  {
    (axis + 1.0) / 1.83233642578125 * 100.0
  }

  /** Each pedal map is the reference calibration with its own ends; steering is the one with ends 0 and -1. */
  lemma PercentMapsAreCalibrations(axis: real)
    ensures ThrottlePercent(axis) == Normalize(axis, ThrottleLow, ThrottleHigh)
    ensures BrakePercent(axis) == Normalize(axis, BrakeLow, BrakeHigh)
    ensures ClutchPercent(axis) == Normalize(axis, ClutchLow, ClutchHigh)
    ensures SteeringPercent(axis) == Normalize(axis, 0.0, -1.0)
  {
  }

  /** Monotonicity: steering decreases with the raw axis, the pedals increase. */
  lemma PercentMapsMonotone(a: real, b: real)
    requires a < b
    ensures SteeringPercent(b) < SteeringPercent(a)
    ensures ThrottlePercent(a) < ThrottlePercent(b)
    ensures BrakePercent(a) < BrakePercent(b)
    ensures ClutchPercent(a) < ClutchPercent(b)
  {
    PercentMapsAreCalibrations(a);
    PercentMapsAreCalibrations(b);
    NormalizeIncreasing(a, b, ThrottleLow, ThrottleHigh);
    NormalizeIncreasing(a, b, BrakeLow, BrakeHigh);
    NormalizeIncreasing(a, b, ClutchLow, ClutchHigh);
  }

  /** The sign of a product of two non-negative reals. */
  lemma MulNonNegative(x: real, y: real)
    requires 0.0 <= x && 0.0 <= y
    ensures 0.0 <= x * y
  {
  }

  /** Scaling a percent in [-100, 100] by `max / 100` for a non-negative `max` stays within `max`. */
  lemma ScaleWithin(v: real, max: real)
    requires -100.0 <= v <= 100.0 && 0.0 <= max
    ensures -max <= v * (max / 100.0) <= max
    ensures 0.0 <= v ==> 0.0 <= v * (max / 100.0)
  {
    var m := max / 100.0;
    MulNonNegative(100.0 - v, m);
    MulNonNegative(v + 100.0, m);
    if 0.0 <= v { MulNonNegative(v, m); }
  }

  /** A pedal's one-sided dead zone: values below `cut` read as 0; then the scaling by `max / 100`. */
  function ScaleAbove(value: real, cut: real, max: real): real
  {
    if value < cut then 0.0 else value * (max / 100.0)
  }

  /** The pedal dead zone and scaling keep the order of their inputs for `cut, max >= 0`. */
  lemma ScaleAboveMonotone(x: real, y: real, cut: real, max: real)
    requires x <= y && 0.0 <= cut && 0.0 <= max
    ensures ScaleAbove(x, cut, max) <= ScaleAbove(y, cut, max)
  {
    var m := max / 100.0;
    if y >= cut {
      MulNonNegative(y, m);
      if x >= cut { MulNonNegative(y - x, m); }
    }
  }

  /** The pedal dead zone and scaling map [0, 100] into [0, max]. */
  lemma ScaleAboveWithin(value: real, cut: real, max: real)
    requires 0.0 <= value <= 100.0 && 0.0 <= max
    ensures 0.0 <= ScaleAbove(value, cut, max) <= max
  {
    if value >= cut { ScaleWithin(value, max); }
  }

  /** The steering dead zone: values strictly inside (-5, 5) read as 0; then the scaling by `max / 100`. */
  function ScaleOutside(value: real, max: real): real
  {
    if 5.0 > value > -5.0 then 0.0 else value * (max / 100.0)
  }

  /** The steering dead zone and scaling map [-100, 100] into [-max, max]. */
  lemma ScaleOutsideWithin(value: real, max: real)
    requires -100.0 <= value <= 100.0 && 0.0 <= max
    ensures -max <= ScaleOutside(value, max) <= max
  {
    ScaleWithin(value, max);
  }

  /** Steering with a symmetric dead zone strictly inside (-5, 5), scaled to `max`. */
  function SteeringPercentScaled(axis: real, max: real): (v: real)
    ensures -5.0 < SteeringPercent(axis) < 5.0 ==> v == 0.0
    ensures !(-5.0 < SteeringPercent(axis) < 5.0) ==> v == SteeringPercent(axis) * (max / 100.0)
  {
    ScaleOutside(SteeringPercent(axis), max)
  }

  /** Scaled steering from an axis in [-1, 1] lies within [-max, max]. */
  lemma SteeringScaledWithin(axis: real, max: real)
    requires -1.0 <= axis <= 1.0 && 0.0 <= max
    ensures -max <= SteeringPercentScaled(axis, max) <= max
  {
    ScaleOutsideWithin(SteeringPercent(axis), max);
  }

  /** Throttle with a one-sided dead zone below 1, scaled to `max`. */
  function ThrottlePercentScaled(axis: real, max: real): (v: real)
    ensures ThrottlePercent(axis) < 1.0 ==> v == 0.0
    ensures ThrottlePercent(axis) >= 1.0 ==> v == ThrottlePercent(axis) * (max / 100.0)
  {
    ScaleAbove(ThrottlePercent(axis), 1.0, max)
  }

  /** Brake with a one-sided dead zone below 5, scaled to `max`. */
  function BrakePercentScaled(axis: real, max: real): (v: real)
    ensures BrakePercent(axis) < 5.0 ==> v == 0.0
    ensures BrakePercent(axis) >= 5.0 ==> v == BrakePercent(axis) * (max / 100.0)
  {
    ScaleAbove(BrakePercent(axis), 5.0, max)
  }

  /** Clutch with a one-sided dead zone below 1, scaled to `max`. */
  function ClutchPercentScaled(axis: real, max: real): (v: real)
    ensures ClutchPercent(axis) < 1.0 ==> v == 0.0
    ensures ClutchPercent(axis) >= 1.0 ==> v == ClutchPercent(axis) * (max / 100.0)
  {
    ScaleAbove(ClutchPercent(axis), 1.0, max)
  }

  /**
   * The scaled pedals never decrease as a pedal is pressed further, and a
   * pedal within its calibration gives a value in [0, max] (for `max >= 0`).
   */
  lemma PedalsScaledMonotone(a: real, b: real, max: real)
    requires a <= b && 0.0 <= max
    ensures ThrottlePercentScaled(a, max) <= ThrottlePercentScaled(b, max)
    ensures BrakePercentScaled(a, max) <= BrakePercentScaled(b, max)
    ensures ClutchPercentScaled(a, max) <= ClutchPercentScaled(b, max)
  {
    if a < b { PercentMapsMonotone(a, b); }
    ScaleAboveMonotone(ThrottlePercent(a), ThrottlePercent(b), 1.0, max);
    ScaleAboveMonotone(BrakePercent(a), BrakePercent(b), 5.0, max);
    ScaleAboveMonotone(ClutchPercent(a), ClutchPercent(b), 1.0, max);
  }

  lemma PedalsScaledWithin(raw: RawAxes, max: real)
    requires ThrottleLow <= raw.throttle <= ThrottleHigh
    requires BrakeLow <= raw.brake <= BrakeHigh
    requires ClutchLow <= raw.clutch <= ClutchHigh
    requires 0.0 <= max
    ensures 0.0 <= ThrottlePercentScaled(raw.throttle, max) <= max
    ensures 0.0 <= BrakePercentScaled(raw.brake, max) <= max
    ensures 0.0 <= ClutchPercentScaled(raw.clutch, max) <= max
  {
    ScaleAboveWithin(ThrottlePercent(raw.throttle), 1.0, max);
    ScaleAboveWithin(BrakePercent(raw.brake), 5.0, max);
    ScaleAboveWithin(ClutchPercent(raw.clutch), 1.0, max);
  }

  /** The button query: false when no button box is connected. */
  function IsButtonPressed(box: ButtonBox, button: nat): (b: bool)
    ensures box.None? ==> !b
    ensures box.Some? ==> (b <==> button in box.value)
  {
    match box
    case Some(held) => button in held
    case None => false
  }

  /** The corrected wheel poll asks the box exactly as IsButtonPressed does. */
  lemma HeldIsButtonPressed(box: ButtonBox, b: nat)
    ensures Held(box, Some(b)) == IsButtonPressed(box, b)
  {
  }

  const ShiftButtonLeft: nat := 7
  const ShiftButtonRight: nat := 23

  /** The left shift paddle (button 7) is held; false when no button box is connected. */
  function ShiftLeftPressed(box: ButtonBox): (b: bool)
    ensures b <==> box.Some? && ShiftButtonLeft in box.value
  {
    IsButtonPressed(box, ShiftButtonLeft)
  }

  /** The right shift paddle (button 23) is held; false when no button box is connected. */
  function ShiftRightPressed(box: ButtonBox): (b: bool)
    ensures b <==> box.Some? && ShiftButtonRight in box.value
  {
    IsButtonPressed(box, ShiftButtonRight)
  }

  /** One reading of the four axes: steering axis 0, pedal axes 0, 1 and 2. */
  datatype RawAxes = RawAxes(steering: real, throttle: real, brake: real, clutch: real)

  // The wheels built at start-up: (up button, down button, timeout, step).
  const ThrottleWheel := Config(Some(5), Some(4), DefaultTimeout, DefaultChangeAmount)
  const BrakeWheel := Config(Some(3), Some(2), DefaultTimeout, DefaultChangeAmount)
  const ClutchWheel := Config(Some(21), Some(20), DefaultTimeout, DefaultChangeAmount)
  const SteeringWheel := Config(Some(24), Some(25), DefaultTimeout, DefaultChangeAmount)
  const OverallWheel := Config(Some(0), Some(1), 0.3, DefaultChangeAmount)
  const PlatformButton := Config(Some(6), None, 0.5, DefaultChangeAmount)
  const HeadResetButton := Config(Some(22), None, 0.5, DefaultChangeAmount)
  const HeadChangeButton := Config(Some(28), None, 0.5, DefaultChangeAmount)
  const PedalButton := Config(Some(10), None, 0.5, DefaultChangeAmount)
  const OffsetSet := Config(Some(14), None, 0.5, DefaultChangeAmount)
  const OffsetWheel := Config(Some(9), Some(8), DefaultTimeout, 1.0)
  const OffsetReset := Config(Some(16), None, 0.5, DefaultChangeAmount)

  /** The wheels built with only an up button. */
  const SingleButtons: set<Config> :=
    {PlatformButton, HeadResetButton, HeadChangeButton, PedalButton, OffsetSet, OffsetReset}

  /** The single-button wheels never report Down, over any sequence of polls. */
  lemma SingleButtonsNeverGoDown(c: Config, last: real, samples: seq<Sample>)
    requires c in SingleButtons
    ensures forall i :: 0 <= i < |samples| ==> Run(c, last, samples)[i] != Down
  {
    UpOnlyWheelNeverGoesDown(c, last, samples);
  }

  /** The readings and control wheels of the connected devices. */
  class Inputs {
    var steeringAxis: real
    var throttleAxis: real
    var brakeAxis: real
    var clutchAxis: real

    const throttleControlWheel: ControlWheel
    const brakeControlWheel: ControlWheel
    const clutchControlWheel: ControlWheel
    const steeringControlWheel: ControlWheel
    const overallControlWheel: ControlWheel
    const platformButton: ControlWheel
    const headResetButton: ControlWheel
    const headChangeButton: ControlWheel
    const pedalButton: ControlWheel
    const offsetSet: ControlWheel
    const offsetControlWheel: ControlWheel
    const offsetReset: ControlWheel

    /** The last reading of the four axes. */
    function Axes(): RawAxes
      reads this
    {
      RawAxes(steeringAxis, throttleAxis, brakeAxis, clutchAxis)
    }

    /** The set of wheels `init_devices` builds against the button box. */
    function Wheels(): set<ControlWheel>
    {
      {throttleControlWheel, brakeControlWheel, clutchControlWheel, steeringControlWheel,
       overallControlWheel, platformButton, headResetButton, headChangeButton, pedalButton,
       offsetSet, offsetControlWheel, offsetReset}
    }

    /**
     * Every wheel has the buttons, timeout and step it is built with, and
     * none has fired yet: each timestamp is still 0.0.
     */
    ghost predicate WheelsAtStart()
      reads Wheels()
    {
      && throttleControlWheel.Settings() == ThrottleWheel
      && brakeControlWheel.Settings() == BrakeWheel
      && clutchControlWheel.Settings() == ClutchWheel
      && steeringControlWheel.Settings() == SteeringWheel
      && overallControlWheel.Settings() == OverallWheel
      && platformButton.Settings() == PlatformButton
      && headResetButton.Settings() == HeadResetButton
      && headChangeButton.Settings() == HeadChangeButton
      && pedalButton.Settings() == PedalButton
      && offsetSet.Settings() == OffsetSet
      && offsetControlWheel.Settings() == OffsetWheel
      && offsetReset.Settings() == OffsetReset
      && throttleControlWheel.lastTimestamp == 0.0
      && brakeControlWheel.lastTimestamp == 0.0
      && clutchControlWheel.lastTimestamp == 0.0
      && steeringControlWheel.lastTimestamp == 0.0
      && overallControlWheel.lastTimestamp == 0.0
      && platformButton.lastTimestamp == 0.0
      && headResetButton.lastTimestamp == 0.0
      && headChangeButton.lastTimestamp == 0.0
      && pedalButton.lastTimestamp == 0.0
      && offsetSet.lastTimestamp == 0.0
      && offsetControlWheel.lastTimestamp == 0.0
      && offsetReset.lastTimestamp == 0.0
    }

    constructor ()
      ensures Axes() == RawAxes(0.0, 0.0, 0.0, 0.0)
      ensures WheelsAtStart()
      ensures fresh(throttleControlWheel) && fresh(brakeControlWheel) && fresh(clutchControlWheel)
      ensures fresh(steeringControlWheel) && fresh(overallControlWheel) && fresh(platformButton)
      ensures fresh(headResetButton) && fresh(headChangeButton) && fresh(pedalButton)
      ensures fresh(offsetSet) && fresh(offsetControlWheel) && fresh(offsetReset)
    {
      steeringAxis, throttleAxis, brakeAxis, clutchAxis := 0.0, 0.0, 0.0, 0.0;
      throttleControlWheel := new ControlWheel(Some(5), Some(4));
      brakeControlWheel := new ControlWheel(Some(3), Some(2));
      clutchControlWheel := new ControlWheel(Some(21), Some(20));
      steeringControlWheel := new ControlWheel(Some(24), Some(25));
      overallControlWheel := new ControlWheel(Some(0), Some(1), timeout := 0.3);
      platformButton := new ControlWheel(Some(6), None, timeout := 0.5);
      headResetButton := new ControlWheel(Some(22), None, timeout := 0.5);
      headChangeButton := new ControlWheel(Some(28), None, timeout := 0.5);
      pedalButton := new ControlWheel(Some(10), None, timeout := 0.5);
      offsetSet := new ControlWheel(Some(14), None, timeout := 0.5);
      offsetControlWheel := new ControlWheel(Some(9), Some(8), changeAmount := 1.0);
      offsetReset := new ControlWheel(Some(16), None, timeout := 0.5);
    }

    /** Stores one reading of the four axes; nothing else changes. */
    method ReadInputs(raw: RawAxes)
      modifies this
      ensures Axes() == raw
    {
      steeringAxis := raw.steering;
      throttleAxis := raw.throttle;
      brakeAxis := raw.brake;
      clutchAxis := raw.clutch;
    }
  }
}
