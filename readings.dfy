/**
 * What a sensor read can produce, how a measurement is shown on the
 * dashboard, and the Celsius/Fahrenheit conversions, over exact reals.
 */
module Readings {

  /** One hardware read: a number, a driver `None`, or a raised exception. */
  datatype Reading = Value(v: real) | Missing | Raises

  /** A dictionary value as the dashboard receives it: `"N/A"`, `None` or a number. */
  datatype Shown = NotAvailable | NoValue | Number(value: real)

  /** Celsius to Fahrenheit, exact over the reals; `ConversionsInverse` relates it to `FToCelsius`. */
  function CToFahrenheit(celsius: real): (f: real)
    ensures f - 32.0 == celsius * 9.0 / 5.0
  {
    (celsius * 9.0 / 5.0) + 32.0
  }

  /** Fahrenheit to Celsius, exact over the reals; `ConversionsInverse` relates it to `CToFahrenheit`. */
  function FToCelsius(fahrenheit: real): (c: real)
    ensures c * 9.0 / 5.0 == fahrenheit - 32.0
  {
    (fahrenheit - 32.0) * 5.0 / 9.0
  }

  /** Over the reals, the two conversions undo each other. */
  lemma ConversionsInverse(x: real)
    ensures FToCelsius(CToFahrenheit(x)) == x
    ensures CToFahrenheit(FToCelsius(x)) == x
  {
  }

  /** The conversion is strictly increasing, so it never reorders temperatures. */
  lemma CToFahrenheitMonotone(a: real, b: real)
    ensures a < b <==> CToFahrenheit(a) < CToFahrenheit(b)
  {
  }

  /** The pairs the conversion tests expect. */
  lemma ConversionFixedPoints()
    ensures CToFahrenheit(0.0) == 32.0 && FToCelsius(32.0) == 0.0
    ensures CToFahrenheit(100.0) == 212.0 && FToCelsius(212.0) == 100.0
    ensures CToFahrenheit(-40.0) == -40.0 && FToCelsius(-40.0) == -40.0
    ensures CToFahrenheit(20.0) == 68.0 && FToCelsius(68.0) == 20.0
    ensures CToFahrenheit(37.0) == 98.6 && FToCelsius(98.6) == 37.0
  {
  }
}
