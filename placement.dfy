/** The rules the allocator applies to the contents of its lists: how many
    pages a request needs, which free chunk each fit algorithm picks, where a
    new chunk goes in an ordered list, and how pages are accounted for. */
module Placement {
  import opened Chunks

  /** Best fit starts its minimum above any hole it expects (32 pages are 128 KB). */
  const BEST_FIT_START := 129

  /** Pages needed for `programSize` KB at 4 KB per page: the ceiling of programSize / 4. */
  function PagesFor(programSize: int): (r: int)
    ensures 4 * r - 4 < programSize <= 4 * r
  {
    (programSize + 3) / 4
  }

  /** Capacity of a chunk in KB, as the fit scans compute it: it covers a
      request exactly when the chunk's pages cover PagesFor(request). */
  function Capacity(c: Chunk): (r: int)
    ensures forall programSize :: r >= programSize <==> c.Size() >= PagesFor(programSize)
  {
    4 * c.Size()
  }

  /** A chunk the worst-fit scan can pick: it fits the request and its
      capacity beats the initial maximum of 0. */
  predicate WorstCandidate(c: Chunk, programSize: int)
  {
    Capacity(c) >= programSize && Capacity(c) > 0
  }

  /** A chunk the best-fit scan can pick: it fits the request and its
      capacity is below the initial minimum. */
  predicate BestCandidate(c: Chunk, programSize: int)
  {
    programSize <= Capacity(c) < BEST_FIT_START
  }

  /** Index the worst-fit scan settles on, or -1: the scan keeps the running
      maximum and replaces it only on a strictly larger fitting chunk. */
  function WorstFit(free: seq<Chunk>, programSize: int): (r: int)
    ensures -1 <= r < |free|
    ensures r == -1 <==> forall i :: 0 <= i < |free| ==> !WorstCandidate(free[i], programSize)
    ensures r >= 0 ==> WorstCandidate(free[r], programSize)
    ensures r >= 0 ==> forall i :: 0 <= i < |free| && WorstCandidate(free[i], programSize) ==>
                          free[i].Size() <= free[r].Size()
    ensures r >= 0 ==> forall i :: 0 <= i < r && WorstCandidate(free[i], programSize) ==>
                          free[i].Size() < free[r].Size()
    decreases |free|
  {
    if free == [] then -1
    else
      var prefix := free[..|free| - 1];
      var k := WorstFit(prefix, programSize);
      var maxSize := if k < 0 then 0 else Capacity(prefix[k]);
      var tempSize := Capacity(free[|free| - 1]);
      assert forall i :: 0 <= i < |prefix| ==> prefix[i] == free[i];
      if tempSize > maxSize && tempSize >= programSize then |free| - 1 else k
  }

  /** Index the best-fit scan settles on, or -1: the scan keeps the running
      minimum (starting at 129 KB) and replaces it only on a strictly
      smaller fitting chunk. */
  function BestFit(free: seq<Chunk>, programSize: int): (r: int)
    ensures -1 <= r < |free|
    ensures r == -1 <==> forall i :: 0 <= i < |free| ==> !BestCandidate(free[i], programSize)
    ensures r >= 0 ==> BestCandidate(free[r], programSize)
    ensures r >= 0 ==> forall i :: 0 <= i < |free| && BestCandidate(free[i], programSize) ==>
                          free[r].Size() <= free[i].Size()
    ensures r >= 0 ==> forall i :: 0 <= i < r && BestCandidate(free[i], programSize) ==>
                          free[r].Size() < free[i].Size()
    decreases |free|
  {
    if free == [] then -1
    else
      var prefix := free[..|free| - 1];
      var k := BestFit(prefix, programSize);
      var minSize := if k < 0 then BEST_FIT_START else Capacity(prefix[k]);
      var tempSize := Capacity(free[|free| - 1]);
      assert forall i :: 0 <= i < |prefix| ==> prefix[i] == free[i];
      if tempSize >= programSize && tempSize < minSize then |free| - 1 else k
  }

  /** Every hole holds at most the 32 pages of the whole memory. */
  ghost predicate HolesWithinMemory(free: seq<Chunk>)
  {
    forall i :: 0 <= i < |free| ==> free[i].Size() <= 32
  }

  /** With holes of at most 32 pages, best fit picks the first of the smallest
      chunks that fit, and fails only when no chunk fits. */
  lemma BestFitIsSmallestFitting(free: seq<Chunk>, programSize: int)
    requires HolesWithinMemory(free)
    ensures var r := BestFit(free, programSize);
      && (r == -1 <==> forall i :: 0 <= i < |free| ==> Capacity(free[i]) < programSize)
      && (r >= 0 ==> Capacity(free[r]) >= programSize)
      && (r >= 0 ==> forall i :: 0 <= i < |free| && Capacity(free[i]) >= programSize ==>
                        free[r].Size() <= free[i].Size())
      && (r >= 0 ==> forall i :: 0 <= i < r && Capacity(free[i]) >= programSize ==>
                        free[r].Size() < free[i].Size())
  {
    forall i | 0 <= i < |free|
      ensures BestCandidate(free[i], programSize) <==> Capacity(free[i]) >= programSize
    {
    }
  }

  /** For a positive request, worst fit picks the first of the largest chunks
      that fit, and fails only when no chunk fits; an empty chunk is never picked. */
  lemma WorstFitIsLargestFitting(free: seq<Chunk>, programSize: int)
    requires programSize > 0
    ensures var r := WorstFit(free, programSize);
      && (r == -1 <==> forall i :: 0 <= i < |free| ==> free[i].Size() < PagesFor(programSize))
      && (r >= 0 ==> free[r].Size() >= PagesFor(programSize) > 0)
      && (r >= 0 ==> forall i :: 0 <= i < |free| && Capacity(free[i]) >= programSize ==>
                        free[i].Size() <= free[r].Size())
  {
    forall i | 0 <= i < |free|
      ensures WorstCandidate(free[i], programSize) <==> free[i].Size() >= PagesFor(programSize)
    {
    }
  }

  /** The chunk a program gets when `pages` pages are carved off the front of `hole`. */
  function UsedChunk(programName: string, hole: Chunk, pages: int): (r: Chunk)
    ensures r.programName == programName && r.startPage == hole.startPage
    ensures r.Size() == pages
  {
    Chunk(programName, hole.startPage, hole.startPage + pages + 1)
  }

  /** Carving `pages` pages off a hole: the program's chunk and the shrunken
      hole share no page, together hold exactly the hole's pages, and their
      bounds overlap by one (left.end == right.start + 1).  An exact fit
      leaves an empty hole. */
  lemma CarveConservesPages(programName: string, hole: Chunk, pages: int)
    requires 0 <= pages <= hole.Size()
    ensures var used := UsedChunk(programName, hole, pages);
            var rest := hole.Split(pages);
      && used.Pages() !! rest.Pages()
      && used.Pages() + rest.Pages() == hole.Pages()
      && used.Size() + rest.Size() == hole.Size()
      && used.endPage == rest.startPage + 1
      && (pages == hole.Size() ==> rest.Size() == 0 && rest.Pages() == {})
  {
    var used := UsedChunk(programName, hole, pages);
    var rest := hole.Split(pages);
    forall p
      ensures p in used.Pages() ==> p !in rest.Pages()
      ensures p in used.Pages() + rest.Pages() <==> p in hole.Pages()
      ensures p !in rest.Pages() || pages < hole.Size()
    {
      PageSetMember(used.startPage, used.endPage, p);
      PageSetMember(rest.startPage, rest.endPage, p);
      PageSetMember(hole.startPage, hole.endPage, p);
    }
  }

  /** Ascending by start page. */
  ghost predicate SortedByStart(s: seq<Chunk>)
  {
    forall i, j :: 0 <= i < j < |s| ==> s[i].startPage <= s[j].startPage
  }

  /** Inserting into a list of at most one chunk: in front of the existing
      chunk when that one starts later, otherwise after it. */
  function InsertSmall(s: seq<Chunk>, c: Chunk): (r: seq<Chunk>)
    requires |s| <= 1
    ensures |r| == |s| + 1 && c in r
  {
    if s == [] then [c]
    else if s[0].startPage > c.startPage then [c] + s
    else s + [c]
  }

  /** Inserting into a list of at most one entry keeps it in start order and
      adds exactly the new chunk. */
  lemma InsertSmallOrdered(s: seq<Chunk>, c: Chunk)
    requires |s| <= 1
    ensures SortedByStart(InsertSmall(s, c))
    ensures multiset(InsertSmall(s, c)) == multiset(s) + multiset{c}
  {
    if s != [] && s[0].startPage <= c.startPage {
      assert InsertSmall(s, c) == [s[0], c];
    }
  }

  /** First index at or after `from` whose chunk starts before `c`, or |s|. */
  function FirstEarlier(s: seq<Chunk>, c: Chunk, from: nat): (r: nat)
    requires from <= |s|
    ensures from <= r <= |s|
    ensures r < |s| ==> s[r].startPage < c.startPage
    ensures forall i :: from <= i < r ==> s[i].startPage >= c.startPage
    decreases |s| - from
  {
    if from == |s| then |s|
    else if s[from].startPage < c.startPage then from
    else FirstEarlier(s, c, from + 1)
  }

  /** Where the allocator puts a new used chunk.  With at most one entry it
      uses InsertSmall; with two or more it inserts at the first index from 1
      on whose chunk starts before the new one, and when there is none the
      chunk is not inserted at all. */
  function InsertUsed(used: seq<Chunk>, c: Chunk): (r: seq<Chunk>)
    ensures |used| <= 1 ==> |r| == |used| + 1 && c in r
    ensures r == used || (|r| == |used| + 1 && c in r)
  {
    if |used| <= 1 then InsertSmall(used, c)
    else
      var i := FirstEarlier(used, c, 1);
      if i < |used| then used[..i] + [c] + used[i..] else used
  }

  /** With at most one used entry, the new chunk is linked in and start order is kept. */
  lemma InsertUsedShortOrdered(used: seq<Chunk>, c: Chunk)
    requires |used| <= 1
    ensures SortedByStart(InsertUsed(used, c))
    ensures multiset(InsertUsed(used, c)) == multiset(used) + multiset{c}
  {
    InsertSmallOrdered(used, c);
  }

  /** With two or more used entries the chunk is linked in exactly when some
      entry after the head starts before it, and otherwise the list is left
      as it was, so the chunk is lost. */
  lemma InsertUsedLong(used: seq<Chunk>, c: Chunk)
    requires |used| >= 2
    ensures (exists i :: 1 <= i < |used| && used[i].startPage < c.startPage) ==>
              multiset(InsertUsed(used, c)) == multiset(used) + multiset{c}
    ensures (forall i :: 1 <= i < |used| ==> used[i].startPage >= c.startPage) ==>
              InsertUsed(used, c) == used
  {
    var i := FirstEarlier(used, c, 1);
    if i < |used| {
      assert used == used[..i] + used[i..];
      calc {
        multiset(InsertUsed(used, c));
        multiset(used[..i]) + multiset{c} + multiset(used[i..]);
        multiset(used) + multiset{c};
      }
    }
  }

  /** The ordering is only kept for short lists: inserting into a sorted
      two-entry list can leave it unsorted. */
  lemma InsertUsedCanBreakOrder()
    ensures var used := [Chunk("A", 0, 3), Chunk("B", 2, 5)];
            var r := InsertUsed(used, Chunk("C", 4, 7));
            SortedByStart(used) && !SortedByStart(r)
  {
    var used := [Chunk("A", 0, 3), Chunk("B", 2, 5)];
    var c := Chunk("C", 4, 7);
    assert FirstEarlier(used, c, 1) == 1;
    var r := InsertUsed(used, c);
    assert r == [used[0], c, used[1]];
    assert r[1].startPage > r[2].startPage;
  }

  /** A chunk that starts before the second used entry but after the head
      is lost: used chunks (C, 0, 2) and (B, 4, 7) and a new (D, 1, 3). */
  lemma InsertUsedCanLoseChunk()
    ensures var used := [Chunk("C", 0, 2), Chunk("B", 4, 7)];
            var d := Chunk("D", 1, 3);
            SortedByStart(used) && InsertUsed(used, d) == used && d !in InsertUsed(used, d)
  {
    var used := [Chunk("C", 0, 2), Chunk("B", 4, 7)];
    var d := Chunk("D", 1, 3);
    assert FirstEarlier(used, d, 1) == 2;
  }

  /** Total pages of the chunks in a list. */
  function TotalSize(s: seq<Chunk>): (r: int)
  {
    if s == [] then 0 else s[0].Size() + TotalSize(s[1..])
  }

  lemma {:induction false} TotalSizeConcat(a: seq<Chunk>, b: seq<Chunk>)
    ensures TotalSize(a + b) == TotalSize(a) + TotalSize(b)
    decreases |a|
  {
    if a == [] {
      assert a + b == b;
    } else {
      assert (a + b)[1..] == a[1..] + b;
      TotalSizeConcat(a[1..], b);
    }
  }

  /** Replacing one chunk changes the total by the difference in size. */
  lemma TotalSizeUpdate(s: seq<Chunk>, k: nat, c: Chunk)
    requires k < |s|
    ensures TotalSize(s[k := c]) == TotalSize(s) - s[k].Size() + c.Size()
  {
    assert s == s[..k] + [s[k]] + s[k + 1..];
    assert s[k := c] == s[..k] + [c] + s[k + 1..];
    TotalSizeConcat(s[..k] + [s[k]], s[k + 1..]);
    TotalSizeConcat(s[..k], [s[k]]);
    TotalSizeConcat(s[..k] + [c], s[k + 1..]);
    TotalSizeConcat(s[..k], [c]);
  }

  /** Unlinking one chunk lowers the total by its size. */
  lemma TotalSizeRemove(s: seq<Chunk>, k: nat)
    requires k < |s|
    ensures TotalSize(s[..k] + s[k + 1..]) == TotalSize(s) - s[k].Size()
  {
    var rest := s[..k] + s[k + 1..];
    assert rest[..k] == s[..k] && rest[k..] == s[k + 1..];
    assert s == rest[..k] + [s[k]] + rest[k..];
    TotalSizeInsert(rest, k, s[k]);
  }

  /** Inserting at a position raises the total by the inserted chunk's size. */
  lemma TotalSizeInsert(s: seq<Chunk>, k: nat, c: Chunk)
    requires k <= |s|
    ensures TotalSize(s[..k] + [c] + s[k..]) == TotalSize(s) + c.Size()
  {
    assert s == s[..k] + s[k..];
    TotalSizeConcat(s[..k], s[k..]);
    TotalSizeConcat(s[..k] + [c], s[k..]);
    TotalSizeConcat(s[..k], [c]);
  }

  /** Pages in a list after InsertSmall: the new chunk's pages are added. */
  lemma TotalSizeInsertSmall(s: seq<Chunk>, c: Chunk)
    requires |s| <= 1
    ensures TotalSize(InsertSmall(s, c)) == TotalSize(s) + c.Size()
  {
    if s == [] {
    } else if s[0].startPage > c.startPage {
      TotalSizeInsert(s, 0, c);
    } else {
      TotalSizeInsert(s, |s|, c);
    }
  }

  /** Pages in the used list after InsertUsed: the new chunk's pages are
      added exactly when the chunk was linked in. */
  lemma TotalSizeInsertUsed(used: seq<Chunk>, c: Chunk)
    ensures |InsertUsed(used, c)| == |used| + 1 ==> TotalSize(InsertUsed(used, c)) == TotalSize(used) + c.Size()
    ensures |InsertUsed(used, c)| == |used| ==> InsertUsed(used, c) == used
    ensures |InsertUsed(used, c)| == |used| || |InsertUsed(used, c)| == |used| + 1
  {
    if |used| <= 1 {
      TotalSizeInsertSmall(used, c);
    } else {
      var i := FirstEarlier(used, c, 1);
      if i < |used| {
        TotalSizeInsert(used, i, c);
      }
    }
  }

  /** The coalescing step that follows a reclaim when the free list has two
      or more entries: the previous entry is absorbed into `originalFree`
      when the start test holds.  The second test repeats the first, so its
      branch is never taken. */
  function MergeStep(originalFree: Chunk, newFree: Chunk): (r: (Chunk, bool))
    ensures r.1 <==> originalFree.startPage == newFree.endPage + 1
    ensures r.1 ==> r.0 == Chunk(originalFree.programName, newFree.startPage, originalFree.endPage)
    ensures r.1 ==> r.0.Size() == originalFree.Size() + newFree.Size() + 2
    ensures !r.1 ==> r.0 == originalFree
  {
    if originalFree.startPage == newFree.endPage + 1 then
      (originalFree.SetStartPage(newFree.startPage), true)
    else if newFree.endPage + 1 == originalFree.startPage then
      (originalFree.SetEndPage(newFree.endPage), true)
    else
      (originalFree, false)
  }

  /** The merge test holds for chunks two pages apart: the merged chunk holds
      both chunks' pages and the two pages between them.  Chunks that touch
      the way a split leaves them (left.end == right.start + 1) never merge. */
  lemma MergeAbsorbsTwoPageGap(originalFree: Chunk, newFree: Chunk)
    requires originalFree.startPage == newFree.endPage + 1
    requires newFree.Size() >= 0 && originalFree.Size() >= 0
    ensures MergeStep(originalFree, newFree).0.Pages()
            == newFree.Pages() + {newFree.endPage, newFree.endPage + 1} + originalFree.Pages()
    ensures newFree.endPage !in newFree.Pages() + originalFree.Pages()
    ensures newFree.endPage + 1 !in newFree.Pages() + originalFree.Pages()
    ensures newFree.endPage != originalFree.startPage + 1
  {
    var m := MergeStep(originalFree, newFree).0;
    forall p
      ensures p in m.Pages() <==> p in newFree.Pages() + {newFree.endPage, newFree.endPage + 1} + originalFree.Pages()
      ensures p in newFree.Pages() ==> p < newFree.endPage
      ensures p in originalFree.Pages() ==> p > newFree.endPage + 1
    {
      PageSetMember(m.startPage, m.endPage, p);
      PageSetMember(newFree.startPage, newFree.endPage, p);
      PageSetMember(originalFree.startPage, originalFree.endPage, p);
    }
  }
}
