/** Facts about sequences of command-line arguments. */
module SeqFacts {

  /** The number of occurrences of `x` in `s`. */
  function Count<T(==)>(s: seq<T>, x: T): (n: nat)
    ensures n <= |s|
    ensures n == 0 <==> x !in s
  {
    if s == [] then 0 else (if s[0] == x then 1 else 0) + Count(s[1..], x)
  }

  /** Counting distributes over concatenation. */
  lemma {:induction false} CountConcat<T>(a: seq<T>, b: seq<T>, x: T)
    ensures Count(a + b, x) == Count(a, x) + Count(b, x)
  {
    if a == [] {
      assert a + b == b;
    } else {
      assert (a + b)[1..] == a[1..] + b;
      CountConcat(a[1..], b, x);
    }
  }

  /** If `x` can be moved from the front of `f` to its back without changing the
      sequence, the element of `f` at `i` is `x`. */
  lemma {:induction false} CommutedElement<T>(x: T, f: seq<T>, i: nat)
    requires [x] + f == f + [x]
    requires i < |f|
    ensures f[i] == x
  {
    if i == 0 {
      assert ([x] + f)[0] == x;
      assert (f + [x])[0] == f[0];
    } else {
      CommutedElement(x, f, i - 1);
      assert ([x] + f)[i] == f[i - 1];
      assert (f + [x])[i] == f[i];
    }
  }

  /** Putting `x` in front of `f` gives the same sequence as putting it at the back
      exactly when `f` holds nothing but `x`. */
  lemma CommuteSingleton<T>(x: T, f: seq<T>)
    ensures [x] + f == f + [x] <==> forall i :: 0 <= i < |f| ==> f[i] == x
  {
    if [x] + f == f + [x] {
      forall i | 0 <= i < |f| ensures f[i] == x {
        CommutedElement(x, f, i);
      }
    }
    if forall i :: 0 <= i < |f| ==> f[i] == x {
      assert forall k :: 0 <= k < |f| + 1 ==> ([x] + f)[k] == x == (f + [x])[k];
    }
  }
}
