/** Membership in a Java `List<String>`, as `List.contains` decides it through `indexOf`. */
module JavaList {
  import opened Wrappers

  /**
   The index of the first element equal to `x` at or after `from`, or -1;
   the left-to-right scan `indexOf` performs.
   */
  function IndexOfFrom(list: seq<string>, x: string, from: nat): (r: int)
    requires from <= |list|
    ensures r == -1 || from <= r < |list|
    ensures r == -1 <==> x !in list[from..]
    ensures r != -1 ==> list[r] == x && forall j :: from <= j < r ==> list[j] != x
    decreases |list| - from
  {
    if from == |list| then -1
    else if list[from] == x then from
    else
      assert list[from..] == [list[from]] + list[from + 1..];
      IndexOfFrom(list, x, from + 1)
  }

  /** `list.indexOf(x)`: the first index holding `x`, or -1 when there is none. */
  function IndexOf(list: seq<string>, x: Option<string>): (r: int)
    ensures r == -1 <==> x.None? || x.value !in list
    ensures r != -1 ==> 0 <= r < |list| && list[r] == x.value
    ensures r != -1 ==> forall j :: 0 <= j < r ==> list[j] != x.value
  {
    // A list of non-null strings never holds null, so searching for null finds nothing.
    if x.None? then -1
    else
      assert list[0..] == list;
      IndexOfFrom(list, x.value, 0)
  }

  /** `list.contains(x)`: exact, case-sensitive equality with some element. */
  function Contains(list: seq<string>, x: Option<string>): (b: bool)
    ensures b <==> x.Some? && x.value in list
  {
    IndexOf(list, x) >= 0
  }
}
