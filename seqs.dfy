/** Order-preserving selection over sequences: the shape of the `[x for x in xs if cond]`
    comprehensions of the schema layer that keep the selected elements unchanged. */
module Seqs {

  /** The elements of `s` that satisfy `keep`, in their original order. */
  function Filter<T>(keep: T -> bool, s: seq<T>): (r: seq<T>)
    ensures |r| <= |s|
    ensures forall x :: x in r ==> keep(x)
  {
    if s == [] then []
    else if keep(s[0]) then [s[0]] + Filter(keep, s[1..])
    else Filter(keep, s[1..])
  }

  /** An element is selected exactly when it occurs in `s` and satisfies `keep`. */
  lemma {:induction false} FilterMembership<T>(keep: T -> bool, s: seq<T>, x: T)
    ensures x in Filter(keep, s) <==> x in s && keep(x)
  {
    if s != [] {
      FilterMembership(keep, s[1..], x);
      assert s == [s[0]] + s[1..];
    }
  }

  /** Selection distributes over concatenation: the relative order of the kept elements is the
      order they had in `s`. */
  lemma {:induction false} FilterAppend<T>(keep: T -> bool, a: seq<T>, b: seq<T>)
    ensures Filter(keep, a + b) == Filter(keep, a) + Filter(keep, b)
  {
    if a == [] {
      assert a + b == b;
    } else {
      assert (a + b)[1..] == a[1..] + b;
      FilterAppend(keep, a[1..], b);
    }
  }

  /** Selecting with `keep` and with its negation `drop` splits `s` into two parts that together
      hold every element of `s` exactly as often as `s` does. */
  lemma {:induction false} FilterPartition<T>(keep: T -> bool, drop: T -> bool, s: seq<T>)
    requires forall x :: drop(x) == !keep(x)
    ensures multiset(Filter(keep, s)) + multiset(Filter(drop, s)) == multiset(s)
    ensures |Filter(keep, s)| + |Filter(drop, s)| == |s|
  {
    if s != [] {
      FilterPartition(keep, drop, s[1..]);
      assert s == [s[0]] + s[1..];
    }
  }

  /** Nothing is dropped exactly when every element satisfies `keep`. */
  lemma {:induction false} FilterAll<T>(keep: T -> bool, s: seq<T>)
    ensures Filter(keep, s) == s <==> forall i :: 0 <= i < |s| ==> keep(s[i])
    ensures Filter(keep, s) == [] <==> forall i :: 0 <= i < |s| ==> !keep(s[i])
  {
    if s != [] {
      FilterAll(keep, s[1..]);
      if !keep(s[0]) {
        assert |Filter(keep, s[1..])| < |s|;
      }
      assert forall i :: 1 <= i < |s| ==> s[i] == s[1..][i - 1];
    }
  }

  /** The first selected element is the first element of `s` that satisfies `keep`. */
  lemma {:induction false} FilterHead<T>(keep: T -> bool, s: seq<T>)
    requires Filter(keep, s) != []
    ensures exists i ::
              && 0 <= i < |s| && s[i] == Filter(keep, s)[0] && keep(s[i])
              && forall j :: 0 <= j < i ==> !keep(s[j])
  {
    if keep(s[0]) {
      assert s[0] == Filter(keep, s)[0];
    } else {
      FilterHead(keep, s[1..]);
      var i :|
        && 0 <= i < |s[1..]| && s[1..][i] == Filter(keep, s[1..])[0] && keep(s[1..][i])
        && forall j :: 0 <= j < i ==> !keep(s[1..][j]);
      assert s[i + 1] == Filter(keep, s)[0];
      forall j | 0 <= j < i + 1 ensures !keep(s[j]) {
        if j > 0 { assert s[j] == s[1..][j - 1]; }
      }
    }
  }
}
