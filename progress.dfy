/** The progress indicator: how many levels are completed, out of how many. */
module Progress {

  /** `levels.filter((lvl) => lvl.completed).length`, over the levels'
      completion flags in order. */
  function CountCompleted(flags: seq<bool>): (n: nat)
    ensures n <= |flags|
    ensures n == 0 <==> forall i :: 0 <= i < |flags| ==> !flags[i]
    ensures n == |flags| <==> forall i :: 0 <= i < |flags| ==> flags[i]
  {
    if flags == [] then 0
    else (if flags[0] then 1 else 0) + CountCompleted(flags[1..])
  }

  /** The count is the number of occurrences of `true` among the flags. */
  lemma {:induction false} CountIsMultiplicity(flags: seq<bool>)
    ensures CountCompleted(flags) == multiset(flags)[true]
  {
    if flags != [] {
      CountIsMultiplicity(flags[1..]);
      assert flags == [flags[0]] + flags[1..];
      assert multiset(flags) == multiset([flags[0]]) + multiset(flags[1..]);
    }
  }

  /** Setting one level's flag moves the count by at most one: up when a
      level becomes completed, down when a completed level is reset. */
  lemma {:induction false} CountAfterSet(flags: seq<bool>, i: nat, b: bool)
    requires i < |flags|
    ensures CountCompleted(flags[i := b]) ==
              CountCompleted(flags) + (if b then 1 else 0) - (if flags[i] then 1 else 0)
  {
    if i == 0 {
      assert flags[i := b][1..] == flags[1..];
    } else {
      assert flags[i := b][1..] == flags[1..][i - 1 := b];
      CountAfterSet(flags[1..], i - 1, b);
    }
  }

  /** The progress label: completed levels, then all levels. */
  datatype Fraction = Fraction(completed: nat, total: nat)

  /** `updateProgress()`, without the bar's percentage width. */
  function ProgressOf(flags: seq<bool>): (r: Fraction)
    ensures r.completed <= r.total == |flags|
    ensures r.completed == multiset(flags)[true]
  {
    CountIsMultiplicity(flags);
    Fraction(CountCompleted(flags), |flags|)
  }
}
