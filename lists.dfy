/** Sequence helpers shared by the models of `Array.prototype.filter` calls. */
module Lists {

  /** `s.filter(y => y !== x)`: every occurrence of `x` removed, the rest kept in order. */
  function Without<T(==,!new)>(s: seq<T>, x: T): (r: seq<T>)
    ensures forall y :: y in r <==> y in s && y != x
    ensures x !in s ==> r == s
    ensures |r| <= |s|
    ensures IsSubsequence(r, s)
    ensures multiset(r) == multiset(s)[x := 0]
  {
    if s == [] then []
    else
      assert s == [s[0]] + s[1..];
      if s[0] == x then Without(s[1..], x)
      else [s[0]] + Without(s[1..], x)
  }

  /** `a` is `b` with some elements dropped, order kept. */
  predicate IsSubsequence<T(==)>(a: seq<T>, b: seq<T>)
  {
    if a == [] then true
    else if b == [] then false
    else if a[0] == b[0] then IsSubsequence(a[1..], b[1..])
    else IsSubsequence(a, b[1..])
  }
}
