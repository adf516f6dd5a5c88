/** Milliseconds to timeval in the two timeout setters, and back where the hooked setsockopt records them. */
module Timeouts {
  import opened Addresses

  type int64 = x: int | -0x8000_0000_0000_0000 <= x <= 0x7FFF_FFFF_FFFF_FFFF

  const INT_MIN := -0x8000_0000
  const INT_MAX := 0x7FFF_FFFF

  /** C++ division and remainder round toward zero. */
  function Quotient(v: int, d: int): int
    requires d > 0
  {
    if v >= 0 then v / d else -(-v / d)
  }

  function Remainder(v: int, d: int): int
    requires d > 0
  {
    v - Quotient(v, d) * d
  }

  /** Conversion to a 32-bit int. */
  function ToInt32(x: int): int {
    (x + 0x8000_0000) % 0x1_0000_0000 - 0x8000_0000
  }

  /** Conversions between int64_t and uint64_t. */
  function ToUInt64(x: int): int {
    x % 0x1_0000_0000_0000_0000
  }

  function ToInt64(x: int): int {
    (x + 0x8000_0000_0000_0000) % 0x1_0000_0000_0000_0000 - 0x8000_0000_0000_0000
  }

  datatype Timeval = Timeval(sec: int, usec: int)

  /** What setSendTimeout and setRecvTimeout pass to setsockopt. */
  function FromMs(v: int64): Timeval {
    Timeval(ToInt32(Quotient(v, 1000)), ToInt32(Remainder(v, 1000) * 1000))
  }

  /** What the hooked setsockopt computes from it. */
  function ToMs(tv: Timeval): int {
    tv.sec * 1000 + Quotient(tv.usec, 1000)
  }

  /** The two recorded timeouts of a descriptor, unsigned. */
  datatype Recorded = Recorded(recv: int, send: int)

  datatype Direction = Receive | Send

  /** The hooked setsockopt: it records only with the hook enabled, and only for a descriptor that the descriptor
      manager knows (`Some`). */
  function Record(hooked: bool, r: Option<Recorded>, d: Direction, tv: Timeval): Option<Recorded> {
    if !hooked || r.None? then r
    else
      var u := ToUInt64(ToMs(tv));
      Some(if d == Receive then r.value.(recv := u) else r.value.(send := u))
  }

  /** getSendTimeout and getRecvTimeout return the record as int64_t, or -1 without one. */
  function Get(r: Option<Recorded>, d: Direction): int {
    if r.None? then -1 else ToInt64(if d == Receive then r.value.recv else r.value.send)
  }

  /** What the descriptor manager starts with: (uint64_t)-1 twice. */
  const UNSET := Recorded(ToUInt64(-1), ToUInt64(-1))

  /** Whole seconds that an int can hold. */
  predicate Fits(v: int64) {
    INT_MIN <= Quotient(v, 1000) <= INT_MAX
  }

  lemma NarrowExactly(x: int)
    ensures INT_MIN <= ToInt32(x) <= INT_MAX
    ensures ToInt32(x) == x <==> INT_MIN <= x <= INT_MAX
  {}

  lemma UnsignedAndBack(x: int64)
    ensures ToInt64(ToUInt64(x)) == x
  {
    assert ToUInt64(x) == if x >= 0 then x else x + 0x1_0000_0000_0000_0000;
  }

  /** The remainder has the sign of the value and is smaller than the divisor. */
  lemma TowardZero(v: int)
    ensures -1000 < Remainder(v, 1000) < 1000
    ensures (v >= 0 ==> Remainder(v, 1000) >= 0) && (v <= 0 ==> Remainder(v, 1000) <= 0)
  {}

  /** Shape of the microseconds, and the round trip: exact if and only if the seconds fit an int. */
  lemma RoundTripExactly(v: int64)
    ensures var tv := FromMs(v);
            && -1_000_000 < tv.usec < 1_000_000 && tv.usec % 1000 == 0
            && (v >= 0 ==> tv.usec >= 0) && (v <= 0 ==> tv.usec <= 0)
            && (ToMs(tv) == v <==> Fits(v))
  {
    TowardZero(v);
    NarrowExactly(Quotient(v, 1000));
    NarrowExactly(Remainder(v, 1000) * 1000);
    assert Quotient(Remainder(v, 1000) * 1000, 1000) == Remainder(v, 1000);
  }

  /** Either setter followed by its getter. Where the hook records, the value comes back exactly if it fits, and
      the other timeout stays what it was; where it does not, the getter answers what it did before, which is -1
      for an unknown descriptor and for one whose timeout was never recorded. */
  lemma SetThenGet(hooked: bool, r: Option<Recorded>, d: Direction, v: int64)
    ensures var r' := Record(hooked, r, d, FromMs(v));
            && (hooked && r.Some? ==> (Get(r', d) == v <==> Fits(v)))
            && (!hooked || r.None? ==> Get(r', d) == Get(r, d))
            && (forall e :: e != d ==> Get(r', e) == Get(r, e))
            && (hooked && r.Some? ==>
                  if d == Receive then r'.value.send == r.value.send else r'.value.recv == r.value.recv)
            && Get(None, d) == Get(Some(UNSET), d) == -1
  {
    RoundTripExactly(v);
    NarrowExactly(Quotient(v, 1000));
    UnsignedAndBack(ToMs(FromMs(v)));
    UnsignedAndBack(-1);
    hide FromMs, ToMs, Quotient, ToUInt64, ToInt64;
  }

  predicate Earlier(a: Timeval, b: Timeval) {
    a.sec < b.sec || (a.sec == b.sec && a.usec < b.usec)
  }

  /** On values that fit the conversion keeps and reflects the order, and so is injective. */
  lemma OrderPreserved(v: int64, w: int64)
    requires Fits(v) && Fits(w)
    ensures v < w <==> Earlier(FromMs(v), FromMs(w))
    ensures FromMs(v) == FromMs(w) ==> v == w
  {
    TowardZero(v);
    TowardZero(w);
    NarrowExactly(Quotient(v, 1000));
    NarrowExactly(Quotient(w, 1000));
    NarrowExactly(Remainder(v, 1000) * 1000);
    NarrowExactly(Remainder(w, 1000) * 1000);
  }
}
