/** Machine integers, identifiers and the clock, as the service's Rust types
    see them. */
module Prims {

  newtype u32 = x: int | 0 <= x < 0x1_0000_0000

  newtype i32 = x: int | -0x8000_0000 <= x < 0x8000_0000

  const I32_MIN: i32 := -0x8000_0000

  /** Rust's `x as i32` for a `u32`: the same 32 bits read as two's complement. */
  function AsI32(x: u32): (r: i32)
    ensures (r as int - x as int) % 0x1_0000_0000 == 0
    ensures x < 0x8000_0000 ==> r as int == x as int
    ensures x >= 0x8000_0000 ==> r < 0
  {
    if x < 0x8000_0000 then x as i32 else (x as int - 0x1_0000_0000) as i32
  }

  /** The cast is the only `i32` with the bits of `x`. */
  lemma AsI32Unique(x: u32, r: i32)
    requires (r as int - x as int) % 0x1_0000_0000 == 0
    ensures r == AsI32(x)
  {
    var d := r as int - x as int;
    var q := d / 0x1_0000_0000;
    assert d == 0x1_0000_0000 * q;
    if x < 0x8000_0000 {
      assert -0x1_0000_0000 < d < 0x1_0000_0000;
      assert q == 0;
    } else {
      assert -0x2_0000_0000 < d < 0;
      assert q == -1;
    }
  }

  /** A UUID (`uuid::Uuid`): 128 opaque bits. */
  type Uuid = bv128

  /** `Uuid::default()`, the nil UUID. */
  const NIL_UUID: Uuid := 0

  /** A `DateTime<Utc>`, in whole seconds since the Unix epoch. */
  type Timestamp = int

  /** A `Date<Utc>`, in whole days since the Unix epoch. */
  type Day = int

  const SECONDS_PER_DAY: int := 86400

  /** `DateTime::date()`: the calendar day a moment falls on. */
  function DayOf(t: Timestamp): (d: Day)
    ensures d * SECONDS_PER_DAY <= t < (d + 1) * SECONDS_PER_DAY
  {
    t / SECONDS_PER_DAY
  }

  /** `Date::and_hms(0, 0, 0)`: the first second of a day. */
  function StartOfDay(d: Day): (t: Timestamp)
    ensures DayOf(t) == d
    ensures forall u :: DayOf(u) == d ==> t <= u
  {
    d * SECONDS_PER_DAY
  }
}
