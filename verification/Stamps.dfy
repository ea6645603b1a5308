/**
The split of a millisecond stamp into the seconds and nanoseconds of a message header
(apps/rover_controller/src/ros/publishers/imu_pub.c and gnss_pub.c), with the integer widths of C.
*/
module Stamps {

  const MS_PER_S := 1000
  const NS_PER_MS := 1_000_000
  const NS_PER_S := 1_000_000_000
  const TWO_31 := 0x8000_0000
  const TWO_32 := 0x1_0000_0000

  /** The seconds field is an int32_t, the nanoseconds field a uint32_t. */
  datatype Stamp = Stamp(sec: int, nanosec: int)

  /** C's division truncates toward zero. */
  function Quotient(a: int, b: int): int
    requires 0 < b
  {
    if 0 <= a then a / b else -(-a / b)
  }

  /** C's remainder has the sign of the dividend. */
  function Remainder(a: int, b: int): int
    requires 0 < b
  {
    a - Quotient(a, b) * b
  }

  function ToInt32(x: int): int {
    (x + TWO_31) % TWO_32 - TWO_31
  }

  function ToUint32(x: int): int {
    x % TWO_32
  }

  function Split(time: int): Stamp {
    Stamp(ToInt32(Quotient(time, MS_PER_S)), ToUint32(Remainder(time, MS_PER_S) * NS_PER_MS))
  }

  /** The milliseconds a stamp stands for. */
  function Recompose(s: Stamp): int {
    s.sec * MS_PER_S + s.nanosec / NS_PER_MS
  }

  /** The whole seconds fit the field and the remainder is not negative. */
  predicate Representable(time: int) {
    0 <= Remainder(time, MS_PER_S) && -TWO_31 <= Quotient(time, MS_PER_S) < TWO_31
  }

  lemma RemainderRange(time: int)
    ensures -MS_PER_S < Remainder(time, MS_PER_S) < MS_PER_S
    ensures time == Quotient(time, MS_PER_S) * MS_PER_S + Remainder(time, MS_PER_S)
    ensures 0 <= time ==> 0 <= Quotient(time, MS_PER_S) && 0 <= Remainder(time, MS_PER_S)
  {
  }

  lemma Narrowed(x: int)
    ensures ToInt32(x) == x <==> -TWO_31 <= x < TWO_31
    ensures exists k: int :: ToInt32(x) == x + k * TWO_32
  {
    var k := -((x + TWO_31) / TWO_32);
    assert ToInt32(x) == x + k * TWO_32;
  }

  lemma NanosecondsRange(rem: int)
    requires -MS_PER_S < rem < MS_PER_S
    ensures ToUint32(rem * NS_PER_MS) == if 0 <= rem then rem * NS_PER_MS else rem * NS_PER_MS + TWO_32
    ensures ToUint32(rem * NS_PER_MS) / NS_PER_MS == if 0 <= rem then rem else rem + TWO_32 / NS_PER_MS
  {
  }

  /** The stamp stands for the time it was made from exactly when the time is representable. */
  lemma RecomposesIff(time: int)
    ensures Recompose(Split(time)) == time <==> Representable(time)
  {
    var q, rem := Quotient(time, MS_PER_S), Remainder(time, MS_PER_S);
    RemainderRange(time);
    Narrowed(q);
    NanosecondsRange(rem);
    var k: int :| ToInt32(q) == q + k * TWO_32;
    assert Recompose(Split(time)) == time + k * TWO_32 * MS_PER_S + if 0 <= rem then 0 else TWO_32 / NS_PER_MS;
  }

  /** A representable time has a well-formed nanosecond field. */
  lemma NanosecondsFit(time: int)
    requires Representable(time)
    ensures 0 <= Split(time).nanosec < NS_PER_S && Split(time).nanosec % NS_PER_MS == 0
  {
  }

  /** Chronological order of stamps: by seconds, then by nanoseconds. */
  predicate NotAfter(a: Stamp, b: Stamp) {
    a.sec < b.sec || (a.sec == b.sec && a.nanosec <= b.nanosec)
  }

  /** On representable times, stamps are ordered exactly as the times are. */
  lemma SplitKeepsOrder(a: int, b: int)
    requires Representable(a) && Representable(b)
    ensures NotAfter(Split(a), Split(b)) <==> a <= b
  {
    RecomposesIff(a);
    RecomposesIff(b);
    NanosecondsFit(a);
    NanosecondsFit(b);
    OrderByParts(Split(a), Split(b));
  }

  lemma OrderByParts(a: Stamp, b: Stamp)
    requires 0 <= a.nanosec < NS_PER_S && a.nanosec % NS_PER_MS == 0
    requires 0 <= b.nanosec < NS_PER_S && b.nanosec % NS_PER_MS == 0
    ensures NotAfter(a, b) <==> Recompose(a) <= Recompose(b)
  {
  }
}
