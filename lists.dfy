/**
 * The two array primitives the JavaScript sources lean on, stated once:
 * `Array.prototype.findIndex` (the first index whose element satisfies a
 * callback, or -1) and `Array.prototype.splice(i, 1)` (drop the element at
 * index i, keep the order of the others).
 */
module Lists {

  /** findIndex: the first index whose element satisfies `matches`, or -1 when none does. */
  function FindIndex<T>(s: seq<T>, matches: T -> bool): (r: int)
    ensures -1 <= r < |s|
    ensures r == -1 <==> forall i :: 0 <= i < |s| ==> !matches(s[i])
    ensures 0 <= r ==> matches(s[r]) && forall j :: 0 <= j < r ==> !matches(s[j])
  {
    if s == [] then -1
    else if matches(s[0]) then 0
    else
      var k := FindIndex(s[1..], matches);
      if k == -1 then -1 else k + 1
  }

  /** FindIndex on a sequence with one element in front. */
  lemma FindIndexCons<T>(x: T, s: seq<T>, matches: T -> bool)
    ensures FindIndex([x] + s, matches) ==
            if matches(x) then 0
            else if FindIndex(s, matches) == -1 then -1
            else FindIndex(s, matches) + 1
  {
    assert ([x] + s)[1..] == s;
  }

  /** splice(i, 1): the sequence without its element at index i. */
  function Splice<T>(s: seq<T>, i: int): (r: seq<T>)
    requires 0 <= i < |s|
    ensures |r| == |s| - 1
    ensures forall j :: 0 <= j < i ==> r[j] == s[j]
    ensures forall j :: i <= j < |r| ==> r[j] == s[j + 1]
    ensures multiset(r) + multiset{s[i]} == multiset(s)
  {
    assert s == s[..i] + [s[i]] + s[i + 1..];
    s[..i] + s[i + 1..]
  }
}
