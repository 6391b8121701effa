/** Values shared by every module: an option, and the deadline arithmetic of the runtime.
    Instants and durations are nanoseconds, counted from an arbitrary origin. */
module Base {

  datatype Option<+T> = None | Some(value: T)

  function Min(a: int, b: int): int { if a <= b then a else b }

  function Max(a: int, b: int): int { if a <= b then b else a }

  const U64_MAX: nat := 0xFFFF_FFFF_FFFF_FFFF

  /** The thirty-year horizon every computed deadline is capped at. */
  const FAR_FUTURE: nat := 86_400 * 365 * 30 * 1_000_000_000

  /** The wait that confirms an abort: 100 ms. */
  const ABORT_SETTLE: nat := 100_000_000

  /** `base` plus `dur`, the sum capped thirty years past `base`. */
  function SaturatingDeadline(base: nat, dur: nat): nat {
    base + Min(dur, FAR_FUTURE)
  }

  function Without<T>(s: seq<T>, n: nat): seq<T>
    requires n < |s|
  {
    s[..n] + s[n + 1..]
  }
}
