/** Taking an element out of a list. */
module Sequences {
  /** Without the first occurrence of x. */
  function Without<T(==)>(list: seq<T>, x: T): seq<T> {
    if |list| == 0 then [] else if list[0] == x then list[1..] else [list[0]] + Without(list[1..], x)
  }

  lemma InRest<T>(list: seq<T>)
    requires |list| > 0
    ensures forall y :: y in list <==> y == list[0] || y in list[1..]
  {
    forall y | y in list
      ensures y == list[0] || y in list[1..]
    {
      var k :| 0 <= k < |list| && list[k] == y;
      if k > 0 { assert list[1..][k - 1] == y; }
    }
  }

  lemma {:induction false} WithoutIs<T>(list: seq<T>, x: T)
    requires forall i, j :: 0 <= i < j < |list| ==> list[i] != list[j]
    ensures var r := Without(list, x);
            && (forall y :: y in r <==> y in list && y != x)
            && (forall i, j :: 0 <= i < j < |r| ==> r[i] != r[j])
            && |r| == (if x in list then |list| - 1 else |list|)
    decreases |list|
  {
    if |list| > 0 {
      var rest := list[1..];
      WithoutIs(rest, x);
      InRest(list);
      if list[0] != x {
        var r := Without(rest, x);
        var all := [list[0]] + r;
        assert forall k :: 0 <= k < |rest| ==> rest[k] == list[k + 1];
        assert all[1..] == r;
        InRest(all);
        forall k | 0 <= k < |r|
          ensures r[k] != list[0]
        {
          assert r[k] in r;
        }
      }
    }
  }
}
