/** The mode of a level sequence as frontend/src/components/Suggestion.jsx
    computes it: levels are tallied into a plain object
    (`acc[val] = (acc[val] || 0) + 1`), and `Object.keys(frequency)` is
    reduced with `frequency[a] > frequency[b] ? a : b`.

    Object keys are strings. JavaScript lists the keys that are array
    indices (the integers 0 to 2^32 - 2) first, in ascending numeric order,
    and every other key (here: a negative level or a larger one) after them
    in insertion order, that is, in order of first occurrence. The reduce
    keeps its running key only when that key's count is strictly greater, so
    ties go to the later key. */
module Frequency {
  import opened Levels

  /** A level whose decimal string is an array index. */
  predicate IsIndexKey(v: int) {
    0 <= v < 0xFFFF_FFFF
  }

  /** One more than the largest index key present, or 0. */
  function KeyBound(s: seq<int>): (b: nat)
    ensures forall i :: 0 <= i < |s| && IsIndexKey(s[i]) ==> s[i] < b
    ensures b > 0 ==> b - 1 in s
  {
    if s == [] then 0
    else
      var b := KeyBound(s[..|s| - 1]);
      var x := s[|s| - 1];
      if IsIndexKey(x) && x + 1 > b then x + 1 else b
  }

  /** The index keys below `hi` present in `s`, ascending. */
  function IndexKeysBelow(s: seq<int>, hi: nat): (r: seq<int>)
    ensures forall v :: v in r <==> v in s && IsIndexKey(v) && v < hi
    ensures forall i, j :: 0 <= i < j < |r| ==> r[i] < r[j]
  {
    if hi == 0 then []
    else
      var r := IndexKeysBelow(s, hi - 1);
      assert forall i :: 0 <= i < |r| ==> r[i] in r;
      if hi - 1 in s && IsIndexKey(hi - 1) then r + [hi - 1] else r
  }

  /** The other keys (not array indices), in order of first occurrence. */
  function OtherKeys(s: seq<int>): (r: seq<int>)
    ensures forall v :: v in r <==> v in s && !IsIndexKey(v)
  {
    if s == [] then []
    else
      var r := OtherKeys(s[..|s| - 1]);
      var x := s[|s| - 1];
      assert s == s[..|s| - 1] + [x];
      if IsIndexKey(x) || x in r then r else r + [x]
  }

  /** `Object.keys(frequency)`: each distinct level exactly once, in
      JavaScript's property order. */
  function KeyOrder(s: seq<int>): (keys: seq<int>)
    ensures forall v :: v in keys <==> v in s
  {
    IndexKeysBelow(s, KeyBound(s)) + OtherKeys(s)
  }

  /** The position the reduce ends on: a key of largest count, and the last
      such key in `keys`. */
  function ReduceMode(keys: seq<int>, s: seq<int>): (i: nat)
    requires |keys| > 0
    ensures i < |keys|
    ensures forall j :: 0 <= j < |keys| ==> Count(s, keys[j]) <= Count(s, keys[i])
    ensures forall j :: i < j < |keys| ==> Count(s, keys[j]) < Count(s, keys[i])
  {
    if |keys| == 1 then 0
    else
      var a := ReduceMode(keys[..|keys| - 1], s);
      if Count(s, keys[a]) > Count(s, keys[|keys| - 1]) then a else |keys| - 1
  }

  /** The mode of a non-empty level sequence. It occurs in `s` and no level
      occurs more often. */
  function Mode(s: seq<int>): (m: int)
    requires |s| > 0
    ensures m in s
    ensures forall v :: v in s ==> Count(s, v) <= Count(s, m)
  {
    var keys := KeyOrder(s);
    assert s[0] in keys;
    keys[ReduceMode(keys, s)]
  }

  lemma {:induction false} NoOtherKeys(s: seq<int>)
    requires forall i :: 0 <= i < |s| ==> IsIndexKey(s[i])
    ensures OtherKeys(s) == []
  {
    if s != [] {
      NoOtherKeys(s[..|s| - 1]);
    }
  }

  /** Over ascending keys the reduce ends on the largest key of maximal
      count. */
  lemma ReduceModeAscending(keys: seq<int>, s: seq<int>, j: nat)
    requires |keys| > 0 && j < |keys|
    requires forall a, b :: 0 <= a < b < |keys| ==> keys[a] < keys[b]
    requires Count(s, keys[j]) == Count(s, keys[ReduceMode(keys, s)])
    ensures keys[j] <= keys[ReduceMode(keys, s)]
  {
  }

  /** When every level is an array index (in particular for levels 0, 1
      and 2), ties go to the largest level: no level as frequent as the mode
      is larger than it. */
  lemma ModeIsLargestOfTied(s: seq<int>, v: int)
    requires |s| > 0
    requires forall i :: 0 <= i < |s| ==> IsIndexKey(s[i])
    requires v in s && Count(s, v) == Count(s, Mode(s))
    ensures v <= Mode(s)
  {
    NoOtherKeys(s);
    var keys := KeyOrder(s);
    assert keys == IndexKeysBelow(s, KeyBound(s)) + [];
    assert v in keys;
    var j :| 0 <= j < |keys| && keys[j] == v;
    ReduceModeAscending(keys, s, j);
  }

  /** A history of one repeated level has that level as its mode. */
  lemma ModeOfConstant(s: seq<int>, c: int)
    requires |s| > 0 && Constant(s, c)
    ensures Mode(s) == c
  {
    assert s[0] == c;
  }
}
