/// Time points on the wire: the clock counts nanoseconds in 64 bits, the
/// document milliseconds.

module Timestamps {

  const TICKS_PER_MS: int := 1_000_000
  const MIN_TICKS: int := -0x8000_0000_0000_0000
  const MAX_TICKS: int := 0x7FFF_FFFF_FFFF_FFFF

  type Ticks = n: int | -0x8000_0000_0000_0000 <= n <= 0x7FFF_FFFF_FFFF_FFFF

  /// Integer division that rounds toward zero.
  function TruncDiv(a: int, b: int): int
    requires b > 0
  {
    if a >= 0 then a / b else -((-a) / b)
  }

  function ToMs(t: Ticks): int {
    TruncDiv(t, TICKS_PER_MS)
  }

  /// Whether the multiplication in `from_ms_since_epoch` stays inside 64 bits;
  /// outside its result is undefined.
  predicate Representable(ms: int) {
    MIN_TICKS <= ms * TICKS_PER_MS <= MAX_TICKS
  }

  function FromMs(ms: int): Ticks
    requires Representable(ms)
  {
    ms * TICKS_PER_MS
  }

  /// What a time point becomes when it is sent and received.
  function Truncated(t: Ticks): Ticks {
    Sendable(t);
    FromMs(ToMs(t))
  }

  lemma Sendable(t: Ticks)
    ensures Representable(ToMs(t))
  {
  }

  /// Milliseconds survive wherever they can be represented, and the bound is
  /// exactly this many milliseconds.
  lemma MsRoundTrip(ms: int)
    ensures Representable(ms) <==> -9_223_372_036_854 <= ms <= 9_223_372_036_854
    ensures Representable(ms) ==> ToMs(FromMs(ms)) == ms
  {
  }

  /// Truncation goes toward the epoch from either side and loses less than a
  /// millisecond.
  lemma TruncatesTowardEpoch(t: Ticks)
    ensures t >= 0 ==> 0 <= Truncated(t) <= t < Truncated(t) + TICKS_PER_MS
    ensures t <= 0 ==> Truncated(t) - TICKS_PER_MS < t <= Truncated(t) <= 0
    ensures Truncated(t) % TICKS_PER_MS == 0
  {
    var n := if t >= 0 then t as int else -(t as int);
    assert n == n / TICKS_PER_MS * TICKS_PER_MS + n % TICKS_PER_MS;
    ProductMod(ToMs(t));
  }

  lemma ProductMod(k: int)
    ensures k * TICKS_PER_MS % TICKS_PER_MS == 0
  {
  }

  lemma TruncationIdempotent(t: Ticks)
    ensures Truncated(Truncated(t)) == Truncated(t)
  {
    Sendable(t);
    MsRoundTrip(ToMs(t));
  }

  lemma TruncationMonotone(t: Ticks, u: Ticks)
    requires t <= u
    ensures Truncated(t) <= Truncated(u)
  {
    TruncatesTowardEpoch(t);
    TruncatesTowardEpoch(u);
  }
}
