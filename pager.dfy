/** Django's `Paginator` as the bot uses it: `orphans = 0` and an empty first
    page allowed, with `get_page` turning any page number outside the valid
    range into the last page. */
module Pager {

  function Min(a: int, b: int): int { if a <= b then a else b }

  /** `Paginator.num_pages`: `max(1, ceil(count / per_page))`. */
  function NumPages(count: nat, perPage: nat): (r: nat)
    requires perPage > 0
    ensures r >= 1
  {
    if count == 0 then 1 else (count + perPage - 1) / perPage
  }

  /** The page count is the least number of pages of `per_page` rows that
      hold every row, and at least one. */
  lemma NumPagesBounds(count: nat, perPage: nat)
    requires perPage > 0
    ensures count <= NumPages(count, perPage) * perPage
    ensures count > 0 ==> (NumPages(count, perPage) - 1) * perPage < count
  {
    if count > 0 {
      var r := (count + perPage - 1) / perPage;
      assert r * perPage <= count + perPage - 1 < (r + 1) * perPage;
    }
  }

  /** One page as `Paginator.page(number)` returns it. */
  datatype Page<T> = Page(objectList: seq<T>, number: nat, numPages: nat) {
    predicate HasNext() { number < numPages }
    predicate HasPrevious() { number > 1 }
    predicate HasOtherPages() { HasPrevious() || HasNext() }

    function NextPageNumber(): (n: nat)
      requires HasNext()
      ensures n == number + 1
    {
      number + 1
    }

    function PreviousPageNumber(): (n: nat)
      requires HasPrevious()
      ensures n + 1 == number
    {
      number - 1
    }
  }

  /** Rows `(k - 1) * per_page` up to `k * per_page` (or the end) of `items`. */
  function PageSlice<T>(items: seq<T>, perPage: nat, k: nat): (r: seq<T>)
    requires perPage > 0 && 1 <= k <= NumPages(|items|, perPage)
    ensures |r| <= perPage
  {
    var lo := (k - 1) * perPage;
    assert lo <= |items| by {
      var n := NumPages(|items|, perPage);
      NumPagesBounds(|items|, perPage);
      if k < n {
        MulMonotone(k - 1, n - 1, perPage);
      }
    }
    items[lo..Min(lo + perPage, |items|)]
  }

  /** `Paginator.get_page(number)`. */
  function GetPage<T>(items: seq<T>, perPage: nat, number: int): (p: Page<T>)
    requires perPage > 0
    ensures p.numPages == NumPages(|items|, perPage)
    ensures 1 <= p.number <= p.numPages
    ensures 1 <= number <= p.numPages ==> p.number == number
    ensures !(1 <= number <= p.numPages) ==> p.number == p.numPages
    ensures p.objectList == PageSlice(items, perPage, p.number)
  {
    var n := NumPages(|items|, perPage);
    var k := if 1 <= number <= n then number else n;
    Page(PageSlice(items, perPage, k), k, n)
  }

  /** Reference definition: the list cut into consecutive chunks of
      `per_page` rows, the last one possibly shorter, and one empty chunk for
      an empty list. */
  function Chunks<T>(items: seq<T>, perPage: nat): (r: seq<seq<T>>)
    requires perPage > 0
    ensures |r| >= 1
    decreases |items|
  {
    if |items| <= perPage then [items]
    else [items[..perPage]] + Chunks(items[perPage..], perPage)
  }

  function Concat<T>(ss: seq<seq<T>>): seq<T>
    decreases |ss|
  {
    if ss == [] then [] else ss[0] + Concat(ss[1..])
  }

  lemma {:induction false} ChunksConcat<T>(items: seq<T>, perPage: nat)
    requires perPage > 0
    ensures Concat(Chunks(items, perPage)) == items
    decreases |items|
  {
    if |items| > perPage {
      ChunksConcat(items[perPage..], perPage);
      assert items == items[..perPage] + items[perPage..];
    }
  }

  lemma MulMonotone(x: int, y: int, p: nat)
    requires x <= y
    ensures x * p <= y * p
  {
    assert y * p - x * p == (y - x) * p;
  }

  lemma MulSucc(x: int, p: int)
    ensures (x + 1) * p == x * p + p
  {
  }

  lemma NumPagesStep(count: nat, perPage: nat)
    requires perPage > 0 && count > perPage
    ensures NumPages(count, perPage) == 1 + NumPages(count - perPage, perPage)
  {
    var a, b := NumPages(count, perPage), NumPages(count - perPage, perPage);
    NumPagesBounds(count, perPage);
    NumPagesBounds(count - perPage, perPage);
    assert (b + 1) * perPage == b * perPage + perPage;
    assert (a - 1) * perPage == a * perPage - perPage;
    if a <= b {
      MulMonotone(a, b, perPage);
    } else if a > b + 1 {
      MulMonotone(b + 1, a - 1, perPage);
    }
  }

  lemma {:induction false} ChunksCount<T>(items: seq<T>, perPage: nat)
    requires perPage > 0
    ensures |Chunks(items, perPage)| == NumPages(|items|, perPage)
    decreases |items|
  {
    if |items| > perPage {
      NumPagesStep(|items|, perPage);
      ChunksCount(items[perPage..], perPage);
    }
  }

  lemma PageSliceShift<T>(items: seq<T>, perPage: nat, k: nat)
    requires perPage > 0 && |items| > perPage && 2 <= k <= NumPages(|items|, perPage)
    ensures 1 <= k - 1 <= NumPages(|items| - perPage, perPage)
    ensures PageSlice(items, perPage, k) == PageSlice(items[perPage..], perPage, k - 1)
  {
    NumPagesStep(|items|, perPage);
    var rest := items[perPage..];
    var lo' := (k - 2) * perPage;
    MulSucc(k - 2, perPage);
    assert (k - 1) * perPage == lo' + perPage;
    NumPagesBounds(|rest|, perPage);
    MulMonotone(k - 2, NumPages(|rest|, perPage) - 1, perPage);
    assert lo' <= |rest|;
    var hi' := Min(lo' + perPage, |rest|);
    assert PageSlice(rest, perPage, k - 1) == rest[lo'..hi'];
    assert PageSlice(items, perPage, k) == items[perPage + lo'..perPage + hi'];
    assert rest[lo'..hi'] == items[perPage + lo'..perPage + hi'];
  }

  /** Page `k` of the paginator is the `k`-th chunk, and there are exactly as
      many pages as chunks: the pages partition the list in order. */
  lemma {:induction false} PageSliceIsChunk<T>(items: seq<T>, perPage: nat, k: nat)
    requires perPage > 0 && 1 <= k <= NumPages(|items|, perPage)
    ensures |Chunks(items, perPage)| == NumPages(|items|, perPage)
    ensures PageSlice(items, perPage, k) == Chunks(items, perPage)[k - 1]
    decreases |items|
  {
    ChunksCount(items, perPage);
    if |items| > perPage && k > 1 {
      PageSliceShift(items, perPage, k);
      PageSliceIsChunk(items[perPage..], perPage, k - 1);
    }
  }

  /** Every page but the last is full; the last is non-empty unless the list is. */
  lemma PageSizes<T>(items: seq<T>, perPage: nat, k: nat)
    requires perPage > 0 && 1 <= k <= NumPages(|items|, perPage)
    ensures k < NumPages(|items|, perPage) ==> |PageSlice(items, perPage, k)| == perPage
    ensures items != [] ==> PageSlice(items, perPage, k) != []
  {
    var n := NumPages(|items|, perPage);
    NumPagesBounds(|items|, perPage);
    if k < n {
      MulMonotone(k, n - 1, perPage);
    }
    if items != [] {
      MulMonotone(k - 1, n - 1, perPage);
    }
  }
}
