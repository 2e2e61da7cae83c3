/**
 * The random source the slot machine consumes. Only its range is known:
 * it yields some integer in the inclusive bounds it is given. No claim is
 * made about the distribution.
 */
module Random {

  /** Some integer between lo and hi, both included. */
  method RandomInt(lo: int, hi: int) returns (r: int)
    requires lo <= hi
    ensures lo <= r <= hi
  {
    assert lo <= lo <= hi;
    r :| lo <= r <= hi;
  }
}
