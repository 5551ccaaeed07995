/** Order-keeping de-duplication: `if x not in acc: acc.append(x)`. */
module Lists {

  /** No element occurs twice. */
  predicate NoDup<T(==)>(s: seq<T>) {
    forall i, j :: 0 <= i < j < |s| ==> s[i] != s[j]
  }

  /** Append `x` unless it is already there. */
  function AddNew<T(==)>(acc: seq<T>, x: T): seq<T> {
    if x in acc then acc else acc + [x]
  }

  /** `AddNew` of each element of `xs`, in order. */
  function AddAll<T(==)>(acc: seq<T>, xs: seq<T>): seq<T>
    decreases |xs|
  {
    if xs == [] then acc else AddAll(AddNew(acc, xs[0]), xs[1..])
  }

  /** Adding a sequence in two pieces is adding it at once. */
  lemma {:induction false} AddAllAppend<T>(acc: seq<T>, a: seq<T>, b: seq<T>)
    ensures AddAll(AddAll(acc, a), b) == AddAll(acc, a + b)
    decreases |a|
  {
    if a == [] {
      assert a + b == b;
    } else {
      assert (a + b)[0] == a[0] && (a + b)[1..] == a[1..] + b;
      AddAllAppend(AddNew(acc, a[0]), a[1..], b);
    }
  }

  /**
   * The result keeps `acc` as its prefix, holds exactly the elements of
   * `acc` and `xs`, and has no duplicates when `acc` has none.
   */
  lemma {:induction false} AddAllSpec<T>(acc: seq<T>, xs: seq<T>)
    ensures |acc| <= |AddAll(acc, xs)| && AddAll(acc, xs)[..|acc|] == acc
    ensures forall x :: x in AddAll(acc, xs) <==> x in acc || x in xs
    ensures NoDup(acc) ==> NoDup(AddAll(acc, xs))
    decreases |xs|
  {
    if xs != [] {
      var acc' := AddNew(acc, xs[0]);
      AddAllSpec(acc', xs[1..]);
      assert acc'[..|acc|] == acc;
      assert AddAll(acc, xs)[..|acc|] == AddAll(acc, xs)[..|acc'|][..|acc|];
      assert forall x :: x in xs <==> x == xs[0] || x in xs[1..];
      if NoDup(acc) && xs[0] !in acc {
        assert forall i :: 0 <= i < |acc| ==> acc'[i] == acc[i];
      }
    }
  }

  /** `reversed(s)`. */
  function Reverse<T>(s: seq<T>): (r: seq<T>)
    ensures |r| == |s|
    ensures forall i :: 0 <= i < |s| ==> r[i] == s[|s| - 1 - i]
  {
    if s == [] then [] else Reverse(s[1..]) + [s[0]]
  }

  /** Reversing twice gives the sequence back. */
  lemma ReverseReverse<T>(s: seq<T>)
    ensures Reverse(Reverse(s)) == s
  {
  }

  /** The last element of `s + [x]` comes first once reversed. */
  lemma ReverseSnoc<T>(s: seq<T>, x: T)
    ensures Reverse(s + [x]) == [x] + Reverse(s)
  {
  }

  /** Reversing a concatenation reverses the order of the pieces. */
  lemma ReverseAppend<T>(a: seq<T>, b: seq<T>)
    ensures Reverse(a + b) == Reverse(b) + Reverse(a)
  {
  }
}
