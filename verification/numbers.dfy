/** JavaScript numbers as the aggregation and colouring code sees them.
    Floating-point rounding is not modelled: a finite number is a real, and
    NaN is a separate value that every ordered comparison rejects. */
module Numbers {

  /** A precipitation value read from a grid. */
  datatype Val = NaN | Num(r: real)

  /** `x > c` for a number constant `c`: false whenever `x` is NaN. */
  predicate Greater(x: Val, c: real) {
    x.Num? && x.r > c
  }

  /** `x < c` for a number constant `c`: false whenever `x` is NaN. */
  predicate Less(x: Val, c: real) {
    x.Num? && x.r < c
  }

  /** 2^1074, written out so that no proof has to compute it. */
  const TwoTo1074: int := 202402253307310618352495346718917307049556649764142118356901358027430339567995346891960383701437124495187077864316811911389808737385793476867013399940738509921517424276566361364466907742093216341239767678472745068562007483424692698618103355649159556340810056512358769552333414615230502532186327508646006263307707741093494784

  /** `Number.MIN_VALUE`: the smallest positive double, 2^-1074. */
  const MinValue: real := 1.0 / (TwoTo1074 as real)

  /** `Number.MAX_VALUE`: the largest finite double, (2^53 - 1) * 2^971. */
  const MaxValue: real := 179769313486231570814527423731704356798070567525844996598917476803157260780028538760589558632766878171540458953514382464234321326889464182768467546703537516986049910576551282076245490090389328944075868508455133942304583236903222948165808559332123348274797826204144723168738177180919299881250404026184124858368.0

  /** The two sentinels are a tiny positive number and a huge one: zero and
      every negative number fail `> MinValue`, and 1 passes `< MaxValue`. */
  lemma SentinelBounds()
    ensures 0.0 < MinValue < 1.0 < MaxValue
    ensures forall x: real :: x <= 0.0 ==> !Greater(Num(x), MinValue)
    ensures Less(Num(1.0), MaxValue)
  {
  }

  /** One entry of a `Uint8ClampedArray` such as `ImageData.data`. */
  newtype byte = x: int | 0 <= x < 256

  function Distance(a: int, b: int): nat {
    if a >= b then a - b else b - a
  }

  /** Storing an integer into a `Uint8ClampedArray` clamps it to [0, 255]. */
  function Clamp(n: int): (b: byte)
    ensures 0 <= n < 256 ==> b as int == n
    ensures n < 0 ==> b == 0
    ensures n >= 256 ==> b == 255
    ensures forall x :: 0 <= x < 256 ==> Distance(n, b as int) <= Distance(n, x)
  {
    if n < 0 then 0 else if n > 255 then 255 else n as byte
  }

  /** `Math.round`: the nearest integer, halves rounded up. */
  function Round(x: real): (n: int)
    ensures x - 0.5 < n as real <= x + 0.5
  {
    (x + 0.5).Floor
  }
}
