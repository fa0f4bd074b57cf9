/** Time as the views see it through `timezone.now()`: an injected instant,
    counted in microseconds since the Unix epoch (the resolution of Django's
    `DateTimeField`). */
module Clock {

  type Time = int

  const MicrosPerSecond := 1_000_000
  const MicrosPerHour := 3600 * MicrosPerSecond

  /** `timedelta(hours=h)` in microseconds. */
  function Hours(h: int): int {
    h * MicrosPerHour
  }

  /** `int(t.timestamp())`: whole seconds since the epoch, truncated toward
      zero as Python's `int()` does on a float (Dafny's `/` would floor a
      negative instant instead). */
  function UnixSeconds(t: Time): (s: int)
    ensures 0 <= t ==> 0 <= s * MicrosPerSecond <= t < (s + 1) * MicrosPerSecond
    ensures t < 0 ==> (s - 1) * MicrosPerSecond < t <= s * MicrosPerSecond <= 0
  {
    if t >= 0 then t / MicrosPerSecond else -((-t) / MicrosPerSecond)
  }

  /** Expiry test of the confirmation view: strictly after the expiry
      instant, so a token is still good at exactly `expiresAt`. */
  predicate IsExpired(now: Time, expiresAt: Time) {
    now > expiresAt
  }
}
