/** Example 3, "for loop vs while loop": printing "Count" five times.
    The printed line itself is not modelled; each loop reports how many
    times its body ran. */
module Loops {

  /** The counter loop `var i = 0; while limit > i { body; i += 1 }`,
      which the source writes with `limit` = 5. */
  method RepeatWhile(limit: int) returns (i: int, runs: nat)
    ensures runs == (if limit > 0 then limit else 0)
    ensures i == runs
  {
    i := 0;
    runs := 0;
    while limit > i
      invariant 0 <= i
      invariant i <= (if limit > 0 then limit else 0)
      invariant runs == i
    {
      runs := runs + 1;
      i := i + 1;
    }
  }

  /** `for _ in lo...hi { body }`. A closed range with `hi < lo` traps in
      Swift, so callers must supply `lo <= hi`. */
  method RepeatFor(lo: int, hi: int) returns (runs: nat)
    requires lo <= hi
    ensures runs == hi - lo + 1
  {
    runs := 0;
    for k := lo to hi + 1
      invariant runs == k - lo
    {
      runs := runs + 1;
    }
  }

  /** `three()`: `for _ in 1...5`. */
  method Three() returns (runs: nat)
    ensures runs == 5
  {
    runs := RepeatFor(1, 5);
  }

  /** The commented-out version of `three()`: `while 5 > i`, which leaves
      the counter at 5 after five runs of its body. */
  method ThreeWithWhile() returns (i: int, runs: nat)
    ensures runs == 5 && i == 5
  {
    i, runs := RepeatWhile(5);
  }
}
