/** The paginated product grid: how many pages a list makes, which slice of
    the list a page shows, how the current page is kept in range, and the
    page-number bar with its "..." gaps. */
module ProductsGrid {
  import opened JsValues

  /** The `products` prop: absent, a value that is not an array, or an array. */
  datatype ProductsProp<T> = Missing | NotAnArray | Items(items: seq<T>)

  /** One entry of the page bar: a page number or the `"..."` marker. */
  datatype PageEntry = Number(n: int) | Ellipsis

  /** `list`: anything but an array is read as the empty list. */
  function ListOf<T>(products: ProductsProp<T>): (list: seq<T>)
    ensures products.Items? ==> list == products.items
    ensures !products.Items? ==> list == []
  {
    if products.Items? then products.items else []
  }

  // ---------------------------------------------------------------- page count and window

  lemma CeilDivision(count: nat, pageSize: int)
    requires pageSize >= 1
    ensures var q := (count + pageSize - 1) / pageSize;
            q >= 0 && (count > 0 ==> q >= 1 && (q - 1) * pageSize < count <= q * pageSize)
            && (count == 0 ==> q == 0)
  {
    var q, r := (count + pageSize - 1) / pageSize, (count + pageSize - 1) % pageSize;
    assert count + pageSize - 1 == q * pageSize + r && 0 <= r < pageSize;
    assert (q - 1) * pageSize == q * pageSize - pageSize;
  }

  /** The number of pages: enough pages for every product, and at least one. */
  function PageCount(count: nat, pageSize: int): (total: nat)
    requires pageSize >= 1
    ensures total >= 1
    ensures count == 0 ==> total == 1
    ensures count > 0 ==> (total - 1) * pageSize < count <= total * pageSize
  {
    CeilDivision(count, pageSize);
    Max(1, (count + pageSize - 1) / pageSize)
  }

  /** The page after the clamping effect: pulled into 1 .. totalPages. */
  function ClampPage(p: int, total: nat): (r: int)
    requires total >= 1
    ensures 1 <= r <= total
    ensures 1 <= p <= total ==> r == p
    ensures p < 1 ==> r == 1
    ensures p > total ==> r == total
  {
    Min(Max(1, p), total)
  }

  lemma WindowBounds(page: int, pageSize: int)
    requires page >= 1 && pageSize >= 1
    ensures 0 <= (page - 1) * pageSize
    ensures (page - 1) * pageSize + pageSize == page * pageSize
  {
  }

  lemma WindowPosition(count: nat, page: int, pageSize: int)
    requires page >= 1 && pageSize >= 1
    ensures count > 0 && page <= PageCount(count, pageSize) ==> (page - 1) * pageSize < count
    ensures page > PageCount(count, pageSize) ==> (page - 1) * pageSize >= count
  {
    var total := PageCount(count, pageSize);
    if page <= total {
      assert (page - 1) * pageSize <= (total - 1) * pageSize;
    } else {
      assert (page - 1) * pageSize >= total * pageSize;
    }
  }

  /** The products of the current page: `pageSize` of them, starting
      `(page - 1) * pageSize` into the list. The window holds at most a page's worth
      of products, is the matching infix of the list, is non-empty for every
      page in range of a non-empty list, and is empty past the last page. */
  function PageWindow<T>(list: seq<T>, page: int, pageSize: int): (window: seq<T>)
    requires page >= 1 && pageSize >= 1
    ensures |window| <= pageSize
    ensures window == list[Min((page - 1) * pageSize, |list|)..Min((page - 1) * pageSize + pageSize, |list|)]
    ensures list != [] && page <= PageCount(|list|, pageSize) ==> window != []
    ensures page > PageCount(|list|, pageSize) ==> window == []
  {
    PageWindowFacts(list, page, pageSize);
    Slice(list, (page - 1) * pageSize, (page - 1) * pageSize + pageSize)
  }

  lemma PageWindowFacts<T>(list: seq<T>, page: int, pageSize: int)
    requires page >= 1 && pageSize >= 1
    ensures var w := Slice(list, (page - 1) * pageSize, (page - 1) * pageSize + pageSize);
      && |w| <= pageSize
      && w == list[Min((page - 1) * pageSize, |list|)..Min((page - 1) * pageSize + pageSize, |list|)]
      && (list != [] && page <= PageCount(|list|, pageSize) ==> w != [])
      && (page > PageCount(|list|, pageSize) ==> w == [])
  {
    WindowBounds(page, pageSize);
    WindowPosition(|list|, page, pageSize);
    SliceOfWindow(list, (page - 1) * pageSize, pageSize);
  }

  lemma SliceOfWindow<T>(list: seq<T>, start: int, pageSize: int)
    requires 0 <= start && pageSize >= 1
    ensures var w := Slice(list, start, start + pageSize);
      && |w| <= pageSize
      && w == list[Min(start, |list|)..Min(start + pageSize, |list|)]
      && (start < |list| ==> w != [])
      && (start >= |list| ==> w == [])
  {
  }

  /** The pages 1 to n laid end to end. */
  function PagesUpTo<T>(list: seq<T>, pageSize: int, n: nat): seq<T>
    requires pageSize >= 1
  {
    if n == 0 then [] else PagesUpTo(list, pageSize, n - 1) + PageWindow(list, n, pageSize)
  }

  lemma {:induction false} PagesUpToIsPrefix<T>(list: seq<T>, pageSize: int, n: nat)
    requires pageSize >= 1
    ensures PagesUpTo(list, pageSize, n) == list[..Min(n * pageSize, |list|)]
  {
    if n > 0 {
      PagesUpToIsPrefix(list, pageSize, n - 1);
      WindowBounds(n, pageSize);
      var a, b := Min((n - 1) * pageSize, |list|), Min(n * pageSize, |list|);
      assert PageWindow(list, n, pageSize) == list[a..b];
      PrefixPlusSlice(list, a, b);
    }
  }

  lemma PrefixPlusSlice<T>(s: seq<T>, a: nat, b: nat)
    requires a <= b <= |s|
    ensures s[..a] + s[a..b] == s[..b]
  {
  }

  /** Walking through pages 1 to `totalPages` shows every product once, in order. */
  lemma AllPagesCoverList<T>(list: seq<T>, pageSize: int)
    requires pageSize >= 1
    ensures PagesUpTo(list, pageSize, PageCount(|list|, pageSize)) == list
  {
    var total := PageCount(|list|, pageSize);
    PagesUpToIsPrefix(list, pageSize, total);
    assert total * pageSize >= |list| by {
      if |list| == 0 { assert total * pageSize >= 0; }
    }
    assert list[..|list|] == list;
  }

  /** A missing or non-array `products` prop gives one page and nothing to show. */
  lemma MissingProductsShowNothing<T>(products: ProductsProp<T>, page: int, pageSize: int)
    requires !products.Items?
    requires page >= 1 && pageSize >= 1
    ensures PageCount(|ListOf(products)|, pageSize) == 1
    ensures PageWindow(ListOf(products), page, pageSize) == []
  {
  }

  // ---------------------------------------------------------------- the page bar

  /** The page numbers the bar wants to show: the first two, the last two,
      and the current page with its two neighbours. */
  function Wanted(page: int, total: int): (wanted: set<int>)
    ensures page in wanted && 1 in wanted && total in wanted
    ensures forall n :: n in wanted ==> n <= 2 || page - 1 <= n <= page + 1 || n >= total - 1
  {
    {1, 2, page - 1, page, page + 1, total - 1, total}
  }

  predicate StrictlyIncreasing(nums: seq<int>)
  {
    forall i, j :: 0 <= i < j < |nums| ==> nums[i] < nums[j]
  }

  /** `listNums` cut at k: the numbers 1..k, in order, that are wanted and
      within 1..total. */
  function WantedUpTo(page: int, total: int, k: nat): (nums: seq<int>)
    ensures forall i :: 0 <= i < |nums| ==> 1 <= nums[i] <= k
    ensures StrictlyIncreasing(nums)
  {
    if k == 0 then []
    else
      var n: int := k;
      WantedUpTo(page, total, k - 1)
        + (if n in Wanted(page, total) && n >= 1 && n <= total then [n] else [])
  }

  /** The numbers up to k are exactly the wanted ones in range. */
  lemma {:induction false} WantedUpToMembers(page: int, total: int, k: nat)
    ensures forall n {:trigger n in WantedUpTo(page, total, k)} ::
      n in WantedUpTo(page, total, k) <==> 1 <= n <= k && n <= total && n in Wanted(page, total)
  {
    if k > 0 {
      WantedUpToMembers(page, total, k - 1);
    }
  }

  /** `listNums`: the wanted page numbers within 1..totalPages, ascending. */
  function ListNums(page: int, total: nat): (nums: seq<int>)
    ensures StrictlyIncreasing(nums)
    ensures forall k :: 0 <= k < |nums| ==> 1 <= nums[k] <= total
  {
    WantedUpTo(page, total, total)
  }

  /** The numbers of the bar, in order, with the markers dropped. */
  function Numbers(bar: seq<PageEntry>): seq<int>
  {
    if bar == [] then []
    else (if bar[0].Number? then [bar[0].n] else []) + Numbers(bar[1..])
  }

  lemma {:induction false} NumbersConcat(a: seq<PageEntry>, b: seq<PageEntry>)
    ensures Numbers(a + b) == Numbers(a) + Numbers(b)
  {
    if a != [] {
      var head: seq<int> := if a[0].Number? then [a[0].n] else [];
      assert (a + b)[0] == a[0];
      assert (a + b)[1..] == a[1..] + b;
      assert Numbers(a + b) == head + Numbers(a[1..] + b);
      NumbersConcat(a[1..], b);
      Associative(head, Numbers(a[1..]), Numbers(b));
    } else {
      assert a + b == b;
    }
  }

  /** The bar for an ascending list of numbers: each number in turn, with a
      `"..."` put before it when it is more than one past its predecessor. */
  function WithGaps(nums: seq<int>): (bar: seq<PageEntry>)
    ensures nums == [] <==> bar == []
    ensures nums != [] ==> bar[0] == Number(nums[0]) && bar[|bar| - 1] == Number(nums[|nums| - 1])
    ensures nums != [] ==> |bar| <= 2 * |nums| - 1
  {
    if nums == [] then []
    else
      var prev, n := nums[..|nums| - 1], nums[|nums| - 1];
      assert prev != [] ==> prev[0] == nums[0];
      WithGaps(prev) + (if prev != [] && n - prev[|prev| - 1] > 1 then [Ellipsis] else []) + [Number(n)]
  }

  /** The markers sit exactly where two neighbouring numbers are more than one
      apart: never first or last, never two in a row. */
  ghost predicate GapsAtJumps(bar: seq<PageEntry>)
  {
    && (forall i :: 0 <= i < |bar| && bar[i].Ellipsis? ==>
          0 < i < |bar| - 1 && bar[i - 1].Number? && bar[i + 1].Number? && bar[i + 1].n - bar[i - 1].n > 1)
    && (forall i :: 0 <= i < |bar| - 1 && bar[i].Number? && bar[i + 1].Number? ==> bar[i + 1].n - bar[i].n <= 1)
  }

  /** The numbers come back out of the bar unchanged. */
  lemma {:induction false} WithGapsNumbers(nums: seq<int>)
    ensures Numbers(WithGaps(nums)) == nums
  {
    if nums != [] {
      var prev, n := nums[..|nums| - 1], nums[|nums| - 1];
      WithGapsNumbers(prev);
      var mid: seq<PageEntry> := if prev != [] && n - prev[|prev| - 1] > 1 then [Ellipsis] else [];
      assert WithGaps(nums) == WithGaps(prev) + mid + [Number(n)];
      NumbersOfStep(WithGaps(prev), mid, n);
      assert nums == prev + [n];
    }
  }

  /** Appending a number, with or without a marker before it, appends just that number. */
  lemma NumbersOfStep(left: seq<PageEntry>, mid: seq<PageEntry>, n: int)
    requires mid == [] || mid == [Ellipsis]
    ensures Numbers(left + mid + [Number(n)]) == Numbers(left) + [n]
  {
    NumbersConcat(left, mid);
    NumbersConcat(left + mid, [Number(n)]);
    assert Numbers(mid) == [] by {
      if mid != [] { assert mid[1..] == []; }
    }
    assert Numbers([Number(n)]) == [n] by { assert [Number(n)][1..] == []; }
  }

  /** Appending a number, with a marker exactly when it jumps, keeps the markers at the jumps. */
  lemma GapsAtJumpsAppend(left: seq<PageEntry>, mid: seq<PageEntry>, n: int)
    requires GapsAtJumps(left)
    requires left != [] ==> left[|left| - 1].Number?
    requires mid == [] || mid == [Ellipsis]
    requires mid == [Ellipsis] <==> left != [] && n - left[|left| - 1].n > 1
    ensures GapsAtJumps(left + mid + [Number(n)])
  {
    var bar := left + mid + [Number(n)];
    forall i | 0 <= i < |bar| && bar[i].Ellipsis?
      ensures 0 < i < |bar| - 1 && bar[i - 1].Number? && bar[i + 1].Number? && bar[i + 1].n - bar[i - 1].n > 1
    {
      if i < |left| {
        assert bar[i] == left[i];
        assert bar[i - 1] == left[i - 1] && bar[i + 1] == left[i + 1];
      } else {
        assert i == |left| && bar[i - 1] == left[|left| - 1];
      }
    }
    forall i | 0 <= i < |bar| - 1 && bar[i].Number? && bar[i + 1].Number?
      ensures bar[i + 1].n - bar[i].n <= 1
    {
      if i < |left| - 1 {
        assert bar[i] == left[i] && bar[i + 1] == left[i + 1];
      } else {
        assert i == |left| - 1 && mid == [] && bar[i] == left[|left| - 1];
      }
    }
  }

  /** The markers of `WithGaps` sit exactly at the jumps. */
  lemma {:induction false} WithGapsMarkers(nums: seq<int>)
    ensures GapsAtJumps(WithGaps(nums))
  {
    if nums != [] {
      var prev, n := nums[..|nums| - 1], nums[|nums| - 1];
      WithGapsMarkers(prev);
      var mid: seq<PageEntry> := if prev != [] && n - prev[|prev| - 1] > 1 then [Ellipsis] else [];
      GapsAtJumpsAppend(WithGaps(prev), mid, n);
    }
  }

  /** A strictly increasing list drawn from a set is no longer than the set. */
  lemma {:induction false} IncreasingWithin(nums: seq<int>, s: set<int>)
    requires StrictlyIncreasing(nums)
    requires forall i :: 0 <= i < |nums| ==> nums[i] in s
    ensures |nums| <= |s|
  {
    if nums != [] {
      var rest := nums[1..];
      assert forall i :: 0 <= i < |rest| ==> rest[i] in s - {nums[0]} by {
        forall i | 0 <= i < |rest| ensures rest[i] in s - {nums[0]} {
          assert rest[i] == nums[i + 1] && nums[0] < nums[i + 1];
        }
      }
      IncreasingWithin(rest, s - {nums[0]});
    }
  }

  lemma WantedSize(page: int, total: int)
    ensures |Wanted(page, total)| <= 7
  {
    var s := {1, 2, page - 1, page, page + 1, total - 1, total};
    assert s == {1} + {2} + {page - 1} + {page} + {page + 1} + {total - 1} + {total};
  }

  /** The numbers on a long bar (more than seven pages): ascending, within
      1..totalPages, at most seven of them, always the first two and the last
      two pages, and the current page whenever it is in range. */
  lemma ListNumsFacts(page: int, total: nat)
    requires total > 7
    ensures var nums := ListNums(page, total);
      && StrictlyIncreasing(nums)
      && (forall i :: 0 <= i < |nums| ==> 1 <= nums[i] <= total)
      && |nums| <= 7
      && 1 in nums && 2 in nums && total - 1 in nums && total in nums
      && (1 <= page <= total ==> page in nums)
  {
    var nums := ListNums(page, total);
    WantedUpToMembers(page, total, total);
    WantedSize(page, total);
    assert forall i :: 0 <= i < |nums| ==> nums[i] in Wanted(page, total) by {
      forall i | 0 <= i < |nums| ensures nums[i] in Wanted(page, total) {
        assert nums[i] in nums;
      }
    }
    IncreasingWithin(nums, Wanted(page, total));
  }

  /** Every page number from 1 to n, in order, with no marker. */
  function AllPages(n: nat): (bar: seq<PageEntry>)
    ensures |bar| == n
    ensures forall k :: 0 <= k < n ==> bar[k] == Number(k + 1)
  {
    if n == 0 then [] else AllPages(n - 1) + [Number(n)]
  }

  /** `pagesToShow`. Up to seven pages every page is listed; beyond that the
      bar holds the wanted numbers with a `"..."` at every jump. */
  method PagesToShow(page: int, total: nat) returns (bar: seq<PageEntry>)
    ensures total <= 7 ==> bar == AllPages(total)
    ensures total > 7 ==> bar == WithGaps(ListNums(page, total))
    ensures total > 7 ==> Numbers(bar) == ListNums(page, total) && GapsAtJumps(bar)
    ensures total > 7 ==> 0 < |bar| <= 13
  {
    bar := [];
    if total <= 7 {
      var i := 1;
      while i <= total
        invariant 1 <= i <= total + 1
        invariant bar == AllPages(i - 1)
      {
        bar := bar + [Number(i)];
        i := i + 1;
      }
      return;
    }
    var listNums := ListNums(page, total);
    var last := 0;
    for j := 0 to |listNums|
      invariant bar == WithGaps(listNums[..j])
      invariant last == if j == 0 then 0 else listNums[j - 1]
    {
      var n := listNums[j];
      WithGapsStep(listNums, j);
      assert j > 0 ==> listNums[j - 1] >= 1;
      if last != 0 && n - last > 1 {
        bar := bar + [Ellipsis];
      }
      bar := bar + [Number(n)];
      last := n;
    }
    assert listNums[..|listNums|] == listNums;
    LongBarFacts(page, total);
  }

  /** One step of the bar-building loop. */
  lemma WithGapsStep(nums: seq<int>, j: nat)
    requires j < |nums|
    ensures WithGaps(nums[..j + 1])
      == WithGaps(nums[..j]) + (if j > 0 && nums[j] - nums[j - 1] > 1 then [Ellipsis] else []) + [Number(nums[j])]
  {
    var p := nums[..j + 1];
    assert p[..|p| - 1] == nums[..j];
    assert p[|p| - 1] == nums[j];
    assert j > 0 ==> nums[..j][j - 1] == nums[j - 1];
  }

  /** The long bar (more than seven pages) in the terms of the page numbers
      it shows: the numbers are `listNums`, the markers sit at the jumps, and
      it has at most thirteen entries. */
  lemma LongBarFacts(page: int, total: nat)
    requires total > 7
    ensures var bar := WithGaps(ListNums(page, total));
      && Numbers(bar) == ListNums(page, total)
      && GapsAtJumps(bar)
      && 0 < |bar| <= 13
  {
    ListNumsFacts(page, total);
    WithGapsNumbers(ListNums(page, total));
    WithGapsMarkers(ListNums(page, total));
  }

  // ---------------------------------------------------------------- the grid's page state

  /** The grid component: its props (the list and the page size) and its one
      piece of state, the current page. */
  class Grid<T> {
    var list: seq<T>
    var pageSize: int
    var page: int

    /** The page size is positive and the page never drops below 1. */
    ghost predicate Valid()
      reads this
    {
      pageSize >= 1 && page >= 1
    }

    function TotalPages(): (total: nat)
      reads this
      requires Valid()
      ensures total >= 1
    {
      PageCount(|list|, pageSize)
    }

    /** The products on the current page. */
    function Paginated(): (window: seq<T>)
      reads this
      requires Valid()
      ensures |window| <= pageSize
    {
      PageWindow(list, page, pageSize)
    }

    /** The first render: `products = []` and `pageSize = 8` stand in for absent props. */
    constructor (products: ProductsProp<T>, size: Option<int>)
      requires size.Some? ==> size.value >= 1
      ensures Valid()
      ensures list == ListOf(products)
      ensures pageSize == (if size.Some? then size.value else 8)
      ensures page == 1
    {
      list := ListOf(products);
      pageSize := if size.Some? then size.value else 8;
      page := 1;
    }

    /** A later render with new props; the page is state and survives it. */
    method Rerender(products: ProductsProp<T>, size: Option<int>)
      requires Valid()
      requires size.Some? ==> size.value >= 1
      modifies this
      ensures Valid()
      ensures list == ListOf(products)
      ensures pageSize == (if size.Some? then size.value else 8)
      ensures page == old(page)
    {
      list := ListOf(products);
      pageSize := if size.Some? then size.value else 8;
    }

    /** The effect that pulls the page back into 1..totalPages. */
    method ClampEffect()
      requires Valid()
      modifies this`page
      ensures Valid()
      ensures page == ClampPage(old(page), TotalPages())
      ensures 1 <= page <= TotalPages()
      ensures old(page) <= TotalPages() ==> page == old(page)
    {
      page := Min(Max(1, page), TotalPages());
    }

    /** "Previous": one page back, never below 1. */
    method Previous()
      requires Valid()
      modifies this`page
      ensures Valid()
      ensures page == Max(1, old(page) - 1)
      ensures old(page) <= TotalPages() ==> 1 <= page <= TotalPages()
    {
      page := Max(1, page - 1);
    }

    /** "Next": one page on, never past the last page. */
    method Next()
      requires Valid()
      modifies this`page
      ensures Valid()
      ensures page == Min(TotalPages(), old(page) + 1)
      ensures 1 <= page <= TotalPages()
    {
      page := Min(TotalPages(), page + 1);
    }

    /** A click on a page number of the bar. */
    method Select(p: int)
      requires Valid()
      requires 1 <= p
      modifies this`page
      ensures Valid()
      ensures page == p
    {
      page := p;
    }

    /** The bar for the current state. */
    method Bar() returns (bar: seq<PageEntry>)
      requires Valid()
      ensures TotalPages() <= 7 ==> bar == AllPages(TotalPages())
      ensures TotalPages() > 7 ==> Numbers(bar) == ListNums(page, TotalPages()) && GapsAtJumps(bar)
      ensures forall i :: 0 <= i < |bar| && bar[i].Number? ==> 1 <= bar[i].n <= TotalPages()
    {
      var total := TotalPages();
      bar := PagesToShow(page, total);
      if total > 7 {
        LongBarInRange(page, total, bar);
      }
    }
  }

  /** Every number on a long bar is a page in range. */
  lemma LongBarInRange(page: int, total: nat, bar: seq<PageEntry>)
    requires total > 7
    requires Numbers(bar) == ListNums(page, total)
    ensures forall i :: 0 <= i < |bar| && bar[i].Number? ==> 1 <= bar[i].n <= total
  {
    ListNumsFacts(page, total);
    forall i | 0 <= i < |bar| && bar[i].Number?
      ensures 1 <= bar[i].n <= total
    {
      NumberInBar(bar, i);
    }
  }

  /** A number in the bar is one of the bar's numbers. */
  lemma {:induction false} NumberInBar(bar: seq<PageEntry>, i: nat)
    requires i < |bar| && bar[i].Number?
    ensures bar[i].n in Numbers(bar)
  {
    if i > 0 {
      NumberInBar(bar[1..], i - 1);
      assert bar[1..][i - 1] == bar[i];
    }
  }
}
