/** The temperature error taxonomy (src/temperature/error.rs); its message text is presentation only. */
module TemperatureErrors {

  /** The one way a temperature can be rejected: a Kelvin reading below zero. */
  datatype TemperatureError = BelowAbsoluteZero
}
