/**
 * The system input settings of Input/SystemSettings/WinFormsInputSettingsHelper.cs:
 * the operating system's keyboard delay and speed settings are mapped linearly onto
 * seconds, and its double-click time in milliseconds is converted to seconds.
 * Doubles are modelled as exact reals.
 */
module SystemInputSettings {

  /** `value` limited to `[min, max]`: `min` below it, `max` above it, itself otherwise. */
  function Clamp(value: real, min: real, max: real): (r: real)
    ensures value < min ==> r == min
    ensures value > max && value >= min ==> r == max
    ensures min <= value <= max ==> r == value
  {
    if value < min then min
    else if value > max then max
    else value
  }

  /** How far the clamped input lies along `[inputMin, inputMax]`, from 0 to 1. */
  function Fraction(inputValue: real, inputMin: real, inputMax: real): (f: real)
    requires inputMin < inputMax
    ensures 0.0 <= f <= 1.0
    ensures f * (inputMax - inputMin) == Clamp(inputValue, inputMin, inputMax) - inputMin
  {
    var clamped := Clamp(inputValue, inputMin, inputMax);
    UnitQuotient(clamped - inputMin, inputMax - inputMin);
    (clamped - inputMin) / (inputMax - inputMin)
  }

  /** A part of a positive whole, divided by the whole, lies in `[0, 1]`. */
  lemma UnitQuotient(part: real, whole: real)
    requires 0.0 <= part <= whole && whole > 0.0
    ensures 0.0 <= part / whole <= 1.0 && (part / whole) * whole == part
  {
    var q := part / whole;
    assert q * whole == part;
    NonNegativeFactor(q, whole);
    assert (1.0 - q) * whole == whole - part;
    NonNegativeFactor(1.0 - q, whole);
  }

  /** A product with a positive factor keeps the other factor's sign. */
  lemma NonNegativeFactor(x: real, y: real)
    requires y > 0.0 && x * y >= 0.0
    ensures x >= 0.0
  {
  }

  /** Linear interpolation of the clamped input from `[inputMin, inputMax]` onto `[outputMin, outputMax]`. */
  function Map(inputValue: real, inputMin: real, inputMax: real, outputMin: real, outputMax: real): real
    requires inputMin < inputMax
  {
    var inputPercents := Fraction(inputValue, inputMin, inputMax);
    outputMin + inputPercents * (outputMax - outputMin)
  }

  /** A fraction of a width lies between zero and the width. */
  lemma ScaleWithinWidth(f: real, width: real)
    requires 0.0 <= f <= 1.0
    ensures width >= 0.0 ==> 0.0 <= f * width <= width
    ensures width <= 0.0 ==> width <= f * width <= 0.0
  {
    assert (1.0 - f) * width == width - f * width;
  }

  lemma {:induction false} FractionIsMonotone(a: real, b: real, inputMin: real, inputMax: real)
    requires inputMin < inputMax && a <= b
    ensures Fraction(a, inputMin, inputMax) <= Fraction(b, inputMin, inputMax)
  {
    var d := inputMax - inputMin;
    var fa := Fraction(a, inputMin, inputMax);
    var fb := Fraction(b, inputMin, inputMax);
    assert fa * d == Clamp(a, inputMin, inputMax) - inputMin;
    assert fb * d == Clamp(b, inputMin, inputMax) - inputMin;
    assert Clamp(a, inputMin, inputMax) <= Clamp(b, inputMin, inputMax);
    assert (fb - fa) * d == fb * d - fa * d;
    NonNegativeFactor(fb - fa, d);
  }

  /** The ends of the input range map to the ends of the output range. */
  lemma MapEndpoints(inputMin: real, inputMax: real, outputMin: real, outputMax: real)
    requires inputMin < inputMax
    ensures Map(inputMin, inputMin, inputMax, outputMin, outputMax) == outputMin
    ensures Map(inputMax, inputMin, inputMax, outputMin, outputMax) == outputMax
  {
  }

  /** Inputs outside the range give the value of the nearer end. */
  lemma MapClampsInput(inputValue: real, inputMin: real, inputMax: real, outputMin: real, outputMax: real)
    requires inputMin < inputMax
    ensures inputValue <= inputMin ==> Map(inputValue, inputMin, inputMax, outputMin, outputMax) == outputMin
    ensures inputValue >= inputMax ==> Map(inputValue, inputMin, inputMax, outputMin, outputMax) == outputMax
  {
  }

  /** The result lies between the two output ends, whichever of them is larger. */
  lemma MapStaysInOutputRange(inputValue: real, inputMin: real, inputMax: real, outputMin: real, outputMax: real)
    requires inputMin < inputMax
    ensures var r := Map(inputValue, inputMin, inputMax, outputMin, outputMax);
      (outputMin <= outputMax ==> outputMin <= r <= outputMax)
      && (outputMax <= outputMin ==> outputMax <= r <= outputMin)
  {
    ScaleWithinWidth(Fraction(inputValue, inputMin, inputMax), outputMax - outputMin);
  }

  /** A larger input never moves the result away from `outputMax`: increasing when `outputMin <= outputMax`, decreasing otherwise. */
  lemma MapIsMonotone(a: real, b: real, inputMin: real, inputMax: real, outputMin: real, outputMax: real)
    requires inputMin < inputMax && a <= b
    ensures outputMin <= outputMax ==> Map(a, inputMin, inputMax, outputMin, outputMax) <= Map(b, inputMin, inputMax, outputMin, outputMax)
    ensures outputMax <= outputMin ==> Map(a, inputMin, inputMax, outputMin, outputMax) >= Map(b, inputMin, inputMax, outputMin, outputMax)
  {
    var fa := Fraction(a, inputMin, inputMax);
    var fb := Fraction(b, inputMin, inputMax);
    FractionIsMonotone(a, b, inputMin, inputMax);
    ScaleWithinWidth(fb - fa, outputMax - outputMin);
    assert fb * (outputMax - outputMin) - fa * (outputMax - outputMin) == (fb - fa) * (outputMax - outputMin);
  }

  /** The three values read from the operating system. */
  datatype SystemValues = SystemValues(keyboardDelay: int, keyboardSpeed: int, doubleClickTimeMilliseconds: int)

  /** The three input timings, in seconds. */
  datatype InputTimings = InputTimings(keyRepeatDelaySeconds: real, keyRepeatIntervalSeconds: real, mouseDoubleClickIntervalSeconds: real)

  /**
   * The conversion: delay setting 0..3 onto 0.25..1 second, speed setting 0..31 onto
   * 1/2.5..1/30 second between repeats, double-click milliseconds divided by 1000.
   */
  function GetSystemInputSettings(system: SystemValues): InputTimings
  {
    InputTimings(
      Map(system.keyboardDelay as real, 0.0, 3.0, 0.25, 1.0),
      Map(system.keyboardSpeed as real, 0.0, 31.0, 1.0 / 2.5, 1.0 / 30.0),
      system.doubleClickTimeMilliseconds as real / 1000.0)
  }

  /** The repeat delay lies in [0.25, 1] second; setting 0 gives 0.25 and setting 3 gives 1. */
  lemma RepeatDelayRange(system: SystemValues)
    ensures var delay := GetSystemInputSettings(system).keyRepeatDelaySeconds;
      && 0.25 <= delay <= 1.0
      && (system.keyboardDelay <= 0 ==> delay == 0.25)
      && (system.keyboardDelay >= 3 ==> delay == 1.0)
  {
    MapStaysInOutputRange(system.keyboardDelay as real, 0.0, 3.0, 0.25, 1.0);
    MapClampsInput(system.keyboardDelay as real, 0.0, 3.0, 0.25, 1.0);
  }

  /**
   * The repeat interval lies in [1/30, 0.4] second (setting 0 gives 0.4, setting 31
   * gives 1/30), and a faster speed setting never gives a longer interval.
   */
  lemma RepeatIntervalRange(system: SystemValues, faster: SystemValues)
    requires system.keyboardSpeed <= faster.keyboardSpeed
    ensures var interval := GetSystemInputSettings(system).keyRepeatIntervalSeconds;
      && 1.0 / 30.0 <= interval <= 0.4
      && GetSystemInputSettings(faster).keyRepeatIntervalSeconds <= interval
      && (system.keyboardSpeed <= 0 ==> interval == 0.4)
      && (system.keyboardSpeed >= 31 ==> interval == 1.0 / 30.0)
  {
    MapStaysInOutputRange(system.keyboardSpeed as real, 0.0, 31.0, 1.0 / 2.5, 1.0 / 30.0);
    MapIsMonotone(system.keyboardSpeed as real, faster.keyboardSpeed as real, 0.0, 31.0, 1.0 / 2.5, 1.0 / 30.0);
    MapClampsInput(system.keyboardSpeed as real, 0.0, 31.0, 1.0 / 2.5, 1.0 / 30.0);
  }

  /** The double-click interval is the millisecond setting in seconds. */
  lemma DoubleClickSeconds(system: SystemValues)
    ensures GetSystemInputSettings(system).mouseDoubleClickIntervalSeconds * 1000.0 == system.doubleClickTimeMilliseconds as real
  {
  }
}
