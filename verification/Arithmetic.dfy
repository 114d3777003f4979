/** The few facts about products and remainders the other modules need. */
module Arithmetic {

  lemma MultipleIsFar(width: int, times: int)
    requires 0 < width
    ensures 1 <= times ==> width <= width * times
    ensures times <= -1 ==> width * times <= -width
  {
  }

  lemma RemainderIsUnique(x: int, q: int, divisor: int, r: int)
    requires 0 < divisor && 0 <= r < divisor && x == divisor * q + r
    ensures x % divisor == r && x / divisor == q
  {
    assert divisor * (x / divisor - q) == r - x % divisor;
    MultipleIsFar(divisor, x / divisor - q);
  }
}
