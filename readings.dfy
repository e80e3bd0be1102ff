/** The sensor package's reading record (pkg/sensor/sensor.go). */
module Readings {

  /** Go's int16. */
  type Int16 = x: int | -0x8000 <= x < 0x8000

  /**
   * An instant, in nanoseconds since Go's zero time.Time (January 1 of
   * year 1, UTC); the zero value of a time.Time is therefore 0.
   */
  type Time = int

  const ZeroTime: Time := 0

  /**
   * One sample of one channel: the raw conversion code, the calibrated value
   * (a float64 in Go, carried here as a real) and the time it was taken.
   */
  datatype Reading = Reading(channel: int, raw: Int16, value: real, timestamp: Time)
}
