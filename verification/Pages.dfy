/** Result pages of the discovery procedures in bluez/gatt-helpers.c: raw lists of elements of
    one size, and the iterator that walks over them element by element. */
module Pages {

  /** One stored response: its data list and the size of an element. */
  datatype Page = Page(payload: seq<int>, size: int)

  /** The list is made of whole elements. */
  predicate Whole(b: seq<int>, size: int)
    requires size > 0
  {
    |b| == 0 || (|b| >= size && Whole(b[size..], size))
  }

  function Split(b: seq<int>, size: int): seq<seq<int>>
    requires size > 0
  {
    if |b| < size then [] else [b[..size]] + Split(b[size..], size)
  }

  function Join(elements: seq<seq<int>>): seq<int> {
    if |elements| == 0 then [] else elements[0] + Join(elements[1..])
  }

  predicate Sized(elements: seq<seq<int>>, size: int) { forall i :: 0 <= i < |elements| ==> |elements[i]| == size }

  lemma {:induction false} SplitJoin(elements: seq<seq<int>>, size: int)
    requires size > 0 && Sized(elements, size)
    ensures Split(Join(elements), size) == elements && Whole(Join(elements), size)
    ensures |elements| > 0 ==> |Join(elements)| >= size
    decreases |elements|
  {
    if |elements| > 0 {
      var b := Join(elements);
      SplitJoin(elements[1..], size);
      assert b[..size] == elements[0] && b[size..] == Join(elements[1..]);
    }
  }

  /** The last element is at the end of the list. */
  lemma {:induction false} JoinLast(elements: seq<seq<int>>, size: int)
    requires size > 0 && Sized(elements, size) && |elements| > 0
    ensures |Join(elements)| >= size && Join(elements)[|Join(elements)| - size..] == elements[|elements| - 1]
    decreases |elements|
  {
    var b := Join(elements);
    var rest := Join(elements[1..]);
    if |elements| == 1 {
      assert rest == [] && b == elements[0];
    } else {
      JoinLast(elements[1..], size);
      assert b[|b| - size..] == rest[|rest| - size..];
    }
  }

  predicate Fine(p: Page) { p.size > 0 && |p.payload| > 0 && Whole(p.payload, p.size) }

  predicate AllFine(pages: seq<Page>) { forall i :: 0 <= i < |pages| ==> Fine(pages[i]) }

  function Elements(pages: seq<Page>): seq<seq<int>>
    requires AllFine(pages)
  {
    if |pages| == 0 then []
    else
      assert forall i :: 0 <= i < |pages[1..]| ==> pages[1..][i] == pages[i + 1];
      Split(pages[0].payload, pages[0].size) + Elements(pages[1..])
  }

  lemma {:induction false} ElementsPush(pages: seq<Page>, p: Page)
    requires AllFine(pages) && Fine(p)
    ensures AllFine(pages + [p]) && Elements(pages + [p]) == Elements(pages) + Split(p.payload, p.size)
    decreases |pages|
  {
    hide Fine, Split;
    var all := pages + [p];
    if |pages| == 0 {
      assert all[1..] == [];
    } else {
      assert forall i :: 0 <= i < |pages[1..]| ==> pages[1..][i] == pages[i + 1];
      ElementsPush(pages[1..], p);
      assert all[1..] == pages[1..] + [p] && all[0] == pages[0];
    }
  }

  // ---- the iterator

  /** The pages from the current one on, and the position in it. */
  datatype Iter = Iter(pages: seq<Page>, pos: int)

  predicate Placed(it: Iter) {
    && AllFine(it.pages)
    && (|it.pages| == 0 ==> it.pos == 0)
    && (|it.pages| > 0 ==>
          0 <= it.pos < |it.pages[0].payload| && Whole(it.pages[0].payload[it.pos..], it.pages[0].size))
  }

  function Remaining(it: Iter): seq<seq<int>>
    requires Placed(it)
  {
    if |it.pages| == 0 then []
    else
      assert forall i :: 0 <= i < |it.pages[1..]| ==> it.pages[1..][i] == it.pages[i + 1];
      Split(it.pages[0].payload[it.pos..], it.pages[0].size) + Elements(it.pages[1..])
  }

  function Current(it: Iter): seq<int>
    requires Placed(it) && |it.pages| > 0
  {
    it.pages[0].payload[it.pos..][..it.pages[0].size]
  }

  /** What every bt_gatt_iter_next function does to the iterator. */
  function Advance(it: Iter): Iter
    requires |it.pages| > 0
  {
    var pos := it.pos + it.pages[0].size;
    if pos == |it.pages[0].payload| then Iter(it.pages[1..], 0) else Iter(it.pages, pos)
  }

  lemma StartPlaced(pages: seq<Page>)
    requires AllFine(pages)
    ensures Placed(Iter(pages, 0)) && Remaining(Iter(pages, 0)) == Elements(pages)
  {
    if |pages| > 0 {
      assert Fine(pages[0]);
      assert pages[0].payload[0..] == pages[0].payload;
    }
  }

  /** One step of the iterator takes exactly the next element of all that remain. */
  lemma AdvanceTakesOne(it: Iter)
    requires Placed(it) && |it.pages| > 0
    ensures Placed(Advance(it)) && Remaining(it) == [Current(it)] + Remaining(Advance(it))
  {
    var p := it.pages[0];
    var here := p.payload[it.pos..];
    assert Fine(p);
    assert here[p.size..] == p.payload[it.pos + p.size..];
    assert forall i :: 0 <= i < |it.pages[1..]| ==> it.pages[1..][i] == it.pages[i + 1];
    if it.pos + p.size == |p.payload| {
      StartPlaced(it.pages[1..]);
      assert Split(here[p.size..], p.size) == [];
    }
  }

  /** All the elements that the iterator yields, one call after the other. */
  function Walk(it: Iter): seq<seq<int>>
    requires Placed(it)
    decreases |Remaining(it)|
  {
    if |it.pages| == 0 then []
    else
      AdvanceTakesOne(it);
      [Current(it)] + Walk(Advance(it))
  }

  /** The iterator yields every element of every page once, in order. */
  lemma {:induction false} WalkIsElements(it: Iter)
    requires Placed(it)
    ensures Walk(it) == Remaining(it)
    decreases |Remaining(it)|
  {
    hide Advance, Current, Placed, Remaining;
    if |it.pages| > 0 {
      AdvanceTakesOne(it);
      WalkIsElements(Advance(it));
    } else {
      NothingRemains(it);
    }
  }

  lemma NothingRemains(it: Iter)
    requires Placed(it) && |it.pages| == 0
    ensures Remaining(it) == []
  {
  }

  // ---- what the length checks of the callbacks mean

  /** For the element sizes in use the remainder test asks for whole elements. */
  lemma {:induction false} WholeIsRemainder(b: seq<int>, size: int)
    requires size in {4, 6, 7, 18, 20, 21}
    ensures Whole(b, size) <==> |b| % size == 0
    decreases |b|
  {
    if |b| >= size {
      WholeIsRemainder(b[size..], size);
      Remainders(|b|, size);
    }
  }

  lemma Remainders(n: int, size: int)
    requires size > 0 && n >= size
    ensures (n - size) % size == n % size
  {
    var q, r := n / size, n % size;
    assert n - size == size * (q - 1) + r;
    RemainderIs(n - size, size, q - 1, r);
  }

  lemma RemainderIs(n: int, size: int, q: int, r: int)
    requires size > 0 && n == size * q + r && 0 <= r < size
    ensures n % size == r
  {
    var d := n / size - q;
    assert size * d == r - n % size;
    Multiple(size, d);
  }

  lemma Multiple(size: int, d: int)
    requires size > 0
    ensures d > 0 ==> size * d >= size
    ensures d < 0 ==> size * d <= -size
  {
  }
}
