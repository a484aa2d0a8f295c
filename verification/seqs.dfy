/** Counting the elements of a sequence that satisfy a condition. */
module Seqs {

  /** Number of elements of `s` for which `keep` holds. */
  function Count<T>(s: seq<T>, keep: T -> bool): (n: nat)
    ensures n <= |s|
    ensures n == 0 <== (forall i :: 0 <= i < |s| ==> !keep(s[i]))
  {
    if s == [] then 0 else (if keep(s[0]) then 1 else 0) + Count(s[1..], keep)
  }

  /** Appending one element adds one to the count exactly when it is kept. */
  lemma {:induction false} CountAppend<T>(s: seq<T>, x: T, keep: T -> bool)
    ensures Count(s + [x], keep) == Count(s, keep) + (if keep(x) then 1 else 0)
  {
    if s == [] {
      assert s + [x] == [x];
      assert [x][1..] == [];
    } else {
      assert (s + [x])[0] == s[0];
      assert (s + [x])[1..] == s[1..] + [x];
      CountAppend(s[1..], x, keep);
    }
  }
}
