/**
 * The three table operations the page applies to its result frames: keeping
 * the rows that satisfy a condition (`df[mask]`), sorting by a numeric
 * column in descending order (`sort_values(..., ascending=False)`) and
 * stacking frames (`pd.concat`). A frame is a sequence of rows.
 */
module Tables {

  /** Every row's key is at least the key of every row after it. */
  predicate SortedDesc<T>(s: seq<T>, key: T -> real) {
    forall i, j :: 0 <= i < j < |s| ==> key(s[i]) >= key(s[j])
  }

  /** `df[mask]`: the rows that satisfy `keep`, in their original order. */
  function Filter<T(!new)>(s: seq<T>, keep: T -> bool): (r: seq<T>)
    ensures |r| <= |s|
    ensures forall x :: x in r <==> x in s && keep(x)
    ensures forall x :: multiset(r)[x] == if keep(x) then multiset(s)[x] else 0
  {
    if s == [] then []
    else
      var init := s[..|s| - 1];
      var last := s[|s| - 1];
      assert s == init + [last];
      var r := Filter(init, keep);
      if keep(last) then r + [last] else r
  }

  /** Puts `x` in front of the first row whose key does not exceed its own. */
  function Insert<T(!new)>(x: T, s: seq<T>, key: T -> real): (r: seq<T>)
    requires SortedDesc(s, key)
    ensures SortedDesc(r, key)
    ensures multiset(r) == multiset(s) + multiset{x}
  {
    if s == [] then [x]
    else if key(x) >= key(s[0]) then [x] + s
    else
      var rest := Insert(x, s[1..], key);
      assert s == [s[0]] + s[1..];
      assert forall y :: y in rest ==> key(s[0]) >= key(y) by {
        forall y | y in rest ensures key(s[0]) >= key(y) {
          assert y in multiset(rest);
          if y != x {
            assert y in multiset(s[1..]);
            var j :| 0 <= j < |s[1..]| && s[1..][j] == y;
            assert s[j + 1] == y;
          }
        }
      }
      [s[0]] + rest
  }

  /**
   * `sort_values(key, ascending=False)`: the same rows, largest key first.
   * Rows with equal keys keep their order here; pandas' default sort does not
   * promise any order for them.
   */
  function SortDesc<T(!new)>(s: seq<T>, key: T -> real): (r: seq<T>)
    ensures SortedDesc(r, key)
    ensures multiset(r) == multiset(s)
    ensures |r| == |s|
  {
    if s == [] then []
    else
      assert s == [s[0]] + s[1..];
      var r := Insert(s[0], SortDesc(s[1..], key), key);
      assert |r| == |multiset(r)|;
      r
  }

  /** Row `x` belongs to one of the frames. */
  ghost predicate InSomeFrame<T>(x: T, frames: seq<seq<T>>) {
    exists k :: 0 <= k < |frames| && x in frames[k]
  }

  /** `pd.concat(frames)`: the rows of every frame, frame after frame. */
  function Concat<T(!new)>(frames: seq<seq<T>>): (r: seq<T>)
    ensures forall x :: x in r <==> InSomeFrame(x, frames)
  {
    if frames == [] then []
    else
      var init := frames[..|frames| - 1];
      assert forall k :: 0 <= k < |init| ==> init[k] == frames[k];
      Concat(init) + frames[|frames| - 1]
  }

  /** Empty frames add no rows to a concatenation. */
  lemma {:induction false} ConcatSkipsEmpty<T(!new)>(frames: seq<seq<T>>, f: seq<T>)
    ensures Concat(frames + [f]) == (if f == [] then Concat(frames) else Concat(frames) + f)
  {
    assert (frames + [f])[..|frames|] == frames;
  }
}
