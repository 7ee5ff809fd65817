/** Go value shapes shared by the plugin model. */
module Base {

  /** A Go value that may be nil: `error`, or any optional value. */
  datatype Option<+T> = None | Some(value: T)

  /** Go's `time.Duration`: a signed 64-bit count of nanoseconds. */
  type Duration = d: int | -0x8000_0000_0000_0000 <= d < 0x8000_0000_0000_0000

  /** `time.Second`, in nanoseconds. */
  const Second: Duration := 1_000_000_000
}
