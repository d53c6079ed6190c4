/** What several modules share. */
module Basics {

  datatype Option<+T> = None | Some(value: T)

  const TWO8 := 0x100
  const TWO16 := 0x1_0000
  const TWO32 := 0x1_0000_0000
  const TWO53 := 0x20_0000_0000_0000
  const TWO63 := 0x8000_0000_0000_0000
  const TWO64 := 0x1_0000_0000_0000_0000

  /** t.Truncate(time.Microsecond) on nanoseconds: rounds down, also before the epoch. */
  function Micro(t: int): int { t - t % 1000 }

  function Each<T, R>(s: seq<T>, f: T -> R): (r: seq<R>)
    ensures |r| == |s| && forall i :: 0 <= i < |r| ==> r[i] == f(s[i])
  {
    seq(|s|, i requires 0 <= i < |s| => f(s[i]))
  }

  /** How a statement or COMMIT ends: well, with nothing done, or done but reported as an error
      because the answer did not arrive. */
  datatype Ending = Well | Undone | Unconfirmed

  lemma {:induction false} SubsetSize<T>(a: set<T>, b: set<T>)
    requires a <= b
    ensures |a| <= |b|
  {
    if a != {} {
      var x :| x in a;
      SubsetSize(a - {x}, b - {x});
    }
  }
}
