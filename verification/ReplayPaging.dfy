/** Pagination in 64-bit index arithmetic, and the strict count that goes with a query. */
module ReplayPaging {
  import opened Prelude
  import opened Sequences
  import opened GoTime
  import opened Events
  import opened ReplayIndex
  import opened ReplayQuery

  /** The slice taken from the full result; `None` is the run-time panic of an invalid slice. */
  function PageOf<T>(all: seq<T>, size: int, number: int): Option<seq<T>> {
    PageFrom(all, Wrap64(number - 1) * size, size)
  }

  function PageFrom<T>(all: seq<T>, start: int, size: int): Option<seq<T>> {
    var startIdx := Wrap64(start);
    var endIdx := Wrap64(startIdx + size);
    if startIdx >= |all| then Some([])
    else
      var hi := if endIdx > |all| then |all| else endIdx;
      if 0 <= startIdx <= hi then Some(all[startIdx..hi]) else None
  }

  function Clip(i: int, n: nat): nat {
    if i < 0 then 0 else if i > n then n else i
  }

  /** What page `number` means: the elements numbered `(number - 1) * size` up to `number * size`. */
  function Page<T>(all: seq<T>, size: int, number: int): seq<T>
    requires size >= 1 && number >= 1
  {
    PagesPositive(size, number);
    all[Clip((number - 1) * size, |all|)..Clip(number * size, |all|)]
  }

  lemma PagesPositive(size: int, number: int)
    requires size >= 1 && number >= 1
    ensures 0 <= (number - 1) * size
    ensures number * size == (number - 1) * size + size
    ensures number > 1 ==> (number - 1) * size >= size
  {
    if number > 1 { assert (number - 1) * size == (number - 2) * size + size; }
  }

  /** The start index fits: the intended slice. A later page is at least one page into the result. */
  lemma StartFits<T>(all: seq<T>, start: int, size: int)
    requires 0 <= start <= MAX_INT && 1 <= size <= MAX_INT && |all| <= 0x4000_0000_0000_0000
    requires start == 0 || size <= start
    ensures PageFrom(all, start, size) == Some(all[Clip(start, |all|)..Clip(start + size, |all|)])
  {
    if start >= |all| { assert all[|all|..|all|] == []; }
  }

  /** It wraps below zero: the slice expression panics. */
  lemma StartWrapsBelow<T>(all: seq<T>, start: int, size: int)
    requires Wrap64(start) < 0
    ensures PageFrom(all, start, size) == None
  {
  }

  /** It wraps into the result: a panic or events of another page. */
  lemma StartWrapsInside<T>(all: seq<T>, start: int, size: int)
    requires 0 <= Wrap64(start) < |all| <= 0x4000_0000_0000_0000 && 1 <= size <= MAX_INT
    ensures PageFrom(all, start, size) != Some([])
  {
    WrapsOnce(Wrap64(start) + size);
  }

  /**
   Exactly when a page is the right one: the start index fits a 64-bit int, or its wrapped value
   happens to lie beyond the result. Otherwise the call panics or returns events of another page.
   A Go slice of events held by reference has fewer than 2^62 elements.
   */
  lemma PageExactIff<T>(all: seq<T>, size: int, number: int)
    requires 1 <= size <= MAX_INT && 1 <= number <= MAX_INT
    requires |all| <= 0x4000_0000_0000_0000
    ensures PageOf(all, size, number) == Some(Page(all, size, number))
       <==> ((number - 1) * size <= MAX_INT || Wrap64((number - 1) * size) >= |all|)
  {
    PagesPositive(size, number);
    var start := (number - 1) * size;
    assert PageOf(all, size, number) == PageFrom(all, start, size);
    if start <= MAX_INT {
      StartFits(all, start, size);
    } else {
      assert Page(all, size, number) == [];
      if Wrap64(start) < 0 {
        StartWrapsBelow(all, start, size);
      } else if Wrap64(start) < |all| {
        StartWrapsInside(all, start, size);
      }
    }
  }

  /** Page 2^62 + 1 of size 2 panics on every result. */
  lemma PagePanics<T>(all: seq<T>)
    ensures PageOf(all, 2, 0x4000_0000_0000_0001) == None
  {
    StartWrapsBelow(all, TWO_63, 2);
  }

  /** Page 2^62 + 1 of size 4 lies far beyond every result, and the call returns the first page. */
  lemma AnotherPage<T>(all: seq<T>)
    requires 0 < |all| <= 0x4000_0000_0000_0000
    ensures Page(all, 4, 0x4000_0000_0000_0001) == []
    ensures PageOf(all, 4, 0x4000_0000_0000_0001) == Some(Page(all, 4, 1))
  {
    assert Wrap64(TWO_64) == 0;
  }

  /** The elements of a page by their numbers, and how many there are. */
  lemma PageElements<T>(all: seq<T>, size: int, number: int)
    requires size >= 1 && number >= 1
    ensures var first, page := (number - 1) * size, Page(all, size, number);
            && |page| == (if first + size <= |all| then size else if first <= |all| then |all| - first else 0)
            && forall i :: 0 <= i < |page| ==> 0 <= first + i < |all| && page[i] == all[first + i]
  {
    PagesPositive(size, number);
  }

  function Pages<T>(all: seq<T>, size: int, count: nat): seq<T>
    requires size >= 1
  {
    if count == 0 then [] else Pages(all, size, count - 1) + Page(all, size, count)
  }

  /** The first `count` pages are the first `count * size` elements, without gap or overlap. */
  lemma {:induction false} PagesArePrefix<T>(all: seq<T>, size: int, count: nat)
    requires size >= 1
    ensures 0 <= count * size
    ensures Pages(all, size, count) == all[..Clip(count * size, |all|)]
  {
    if count > 0 {
      PagesArePrefix(all, size, count - 1);
      PagesPositive(size, count);
      var lo, hi := Clip((count - 1) * size, |all|), Clip(count * size, |all|);
      assert all[..lo] + all[lo..hi] == all[..hi];
    }
  }

  /** Pages `1..ceil(total / size)` concatenate to the whole result and every later page is empty. */
  lemma PagesPartition<T>(all: seq<T>, size: int, number: int)
    requires size >= 1
    ensures Pages(all, size, (|all| + size - 1) / size) == all
    ensures number > (|all| + size - 1) / size ==> Page(all, size, number) == []
  {
    var count := (|all| + size - 1) / size;
    CeilDiv(|all|, size);
    PagesArePrefix(all, size, count);
    assert Clip(count * size, |all|) == |all|;
    assert all[..|all|] == all;
    if number > count {
      MulMonotone(count, number - 1, size);
      PagesPositive(size, number);
    }
  }

  lemma CeilDiv(n: nat, size: int)
    requires size >= 1
    ensures 0 <= (n + size - 1) / size
    ensures (n + size - 1) / size * size >= n
  {
    var q := (n + size - 1) / size;
    assert n + size - 1 == q * size + (n + size - 1) % size;
  }

  lemma MulMonotone(a: int, b: int, k: int)
    requires a <= b && k >= 0
    ensures a * k <= b * k
  {
  }

  // ----- Count -----

  function StrictlyInside(start: int, end: int): Event -> bool {
    (e: Event) => start < e.timestamp < end
  }

  function OnEndpoint(start: int, end: int): Event -> bool {
    (e: Event) => e.timestamp == start || e.timestamp == end
  }

  /** Count excludes the endpoints that a query includes; the difference is exactly those events. */
  lemma QueryMinusCount(t: Tracked, start: int, end: int)
    requires Consistent(t) && MissesLeftovers(t.cutoff, start, end) && start <= end
    ensures |Query(t.store, start, end, None)| - |Keep(t.store.events, StrictlyInside(start, end))|
         == |Keep(t.store.events, OnEndpoint(start, end))|
  {
    var found := Query(t.store, start, end, None);
    QueryRefinesScan(t, start, end, None);
    KeepSplit(t.store.events, StrictlyInside(start, end), OnEndpoint(start, end), Selects(start, end, None));
    assert |found| == |multiset(found)|;
    assert |multiset(LinearScan(t.store, start, end, None))| == |LinearScan(t.store, start, end, None)|;
    assert |multiset(Keep(t.store.events, StrictlyInside(start, end)))| == |Keep(t.store.events, StrictlyInside(start, end))|;
    assert |multiset(Keep(t.store.events, OnEndpoint(start, end)))| == |Keep(t.store.events, OnEndpoint(start, end))|;
  }
}
