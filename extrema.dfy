/** Maxima, minima and the first index at which they occur, as numpy's
    `max`, `min`, `argmax` and a strict-improvement scan compute them. */
module Extrema {

  /** `np.argmax`: the first index of a largest element. */
  function FirstArgMax(s: seq<real>): (k: nat)
    requires |s| > 0
    ensures k < |s|
    ensures forall j :: 0 <= j < |s| ==> s[j] <= s[k]
    ensures forall j :: 0 <= j < k ==> s[j] < s[k]
    decreases |s|
  {
    if |s| == 1 then 0
    else
      var k := FirstArgMax(s[..|s| - 1]);
      if s[|s| - 1] > s[k] then |s| - 1 else k
  }

  /** The index a left-to-right scan keeps when it replaces its candidate
      only on a strictly smaller value: the first index of a smallest element. */
  function FirstArgMin(s: seq<real>): (k: nat)
    requires |s| > 0
    ensures k < |s|
    ensures forall j :: 0 <= j < |s| ==> s[k] <= s[j]
    ensures forall j :: 0 <= j < k ==> s[k] < s[j]
    decreases |s|
  {
    if |s| == 1 then 0
    else
      var k := FirstArgMin(s[..|s| - 1]);
      if s[|s| - 1] < s[k] then |s| - 1 else k
  }

  /** One more step of the strict-improvement scan: the candidate changes only
      when the new element is strictly smaller than the current best. */
  lemma FirstArgMinSnoc(s: seq<real>, x: real)
    requires |s| > 0
    ensures FirstArgMin(s + [x]) == if x < s[FirstArgMin(s)] then |s| else FirstArgMin(s)
  {
    assert (s + [x])[..|s|] == s;
  }

  function Max(s: seq<real>): (m: real)
    requires |s| > 0
    ensures forall j :: 0 <= j < |s| ==> s[j] <= m
    ensures m in s
  {
    s[FirstArgMax(s)]
  }

  function Min(s: seq<real>): (m: real)
    requires |s| > 0
    ensures forall j :: 0 <= j < |s| ==> m <= s[j]
    ensures m in s
  {
    s[FirstArgMin(s)]
  }

  /** `max` of an integer column. */
  function IntMax(s: seq<int>): (m: int)
    requires |s| > 0
    ensures forall j :: 0 <= j < |s| ==> s[j] <= m
    ensures m in s
    decreases |s|
  {
    if |s| == 1 then s[0]
    else
      var m := IntMax(s[1..]);
      assert forall j :: 1 <= j < |s| ==> s[j] == s[1..][j - 1];
      if s[0] > m then s[0] else m
  }

  /** `min` of an integer column. */
  function IntMin(s: seq<int>): (m: int)
    requires |s| > 0
    ensures forall j :: 0 <= j < |s| ==> m <= s[j]
    ensures m in s
    decreases |s|
  {
    if |s| == 1 then s[0]
    else
      var m := IntMin(s[1..]);
      assert forall j :: 1 <= j < |s| ==> s[j] == s[1..][j - 1];
      if s[0] < m then s[0] else m
  }
}
