/** A chunk is a run of consecutive pages owned by one program, or by the
    reserved owner "Free".  Both bounds are EXCLUSIVE: the chunk
    Chunk(name, s, e) holds the pages s+1 .. e-1, so it has e - s - 1 pages.
    The source stores chunks by value inside list nodes, so a chunk is a
    datatype here and every setter returns the updated value. */
module Chunks {

  /** The owner label of free memory. */
  const FREE := "Free"

  /** The set of page numbers strictly between lo and hi. */
  ghost function PageSet(lo: int, hi: int): set<int>
    decreases hi - lo
  {
    if hi <= lo + 1 then {} else PageSet(lo, hi - 1) + {hi - 1}
  }

  /** Membership in PageSet is the exclusive range test. */
  lemma {:induction false} PageSetMember(lo: int, hi: int, p: int)
    ensures p in PageSet(lo, hi) <==> lo < p < hi
    decreases hi - lo
  {
    if hi > lo + 1 {
      PageSetMember(lo, hi - 1, p);
    }
  }

  datatype Chunk = Chunk(programName: string, startPage: int, endPage: int)
  {
    /** Number of pages in the chunk (bounds are exclusive). */
    function Size(): int
    {
      endPage - startPage - 1
    }

    /** The pages the chunk holds. */
    ghost function Pages(): set<int>
    {
      PageSet(startPage, endPage)
    }

    /** Carves `size` pages off the front: only the start page moves. */
    function Split(size: int): (r: Chunk)
      ensures r.Size() == Size() - size
      ensures r.endPage == endPage && r.programName == programName
    {
      this.(startPage := startPage + size)
    }

    function SetStartPage(page: int): (r: Chunk)
      ensures r.Size() == endPage - page - 1
      ensures r.endPage == endPage && r.programName == programName
    {
      this.(startPage := page)
    }

    function SetEndPage(page: int): (r: Chunk)
      ensures r.Size() == page - startPage - 1
      ensures r.startPage == startPage && r.programName == programName
    {
      this.(endPage := page)
    }
  }

  /** Size() counts the pages between the exclusive bounds. */
  lemma {:induction false} PageSetCount(lo: int, hi: int)
    requires lo < hi
    ensures |PageSet(lo, hi)| == hi - lo - 1
    decreases hi - lo
  {
    if hi > lo + 1 {
      PageSetCount(lo, hi - 1);
      PageSetMember(lo, hi - 1, hi - 1);
    }
  }

  /** A chunk of non-negative size holds exactly Size() pages. */
  lemma SizeCountsPages(c: Chunk)
    requires c.Size() >= 0
    ensures |c.Pages()| == c.Size()
  {
    PageSetCount(c.startPage, c.endPage);
  }

  /** Splitting keeps the tail of the page run and drops the first `size` pages. */
  lemma SplitDropsFront(c: Chunk, size: int)
    requires 0 <= size
    ensures c.Split(size).Pages() == c.Pages() - PageSet(c.startPage, c.startPage + size + 1)
  {
    var r := c.Split(size);
    forall p
      ensures p in r.Pages() <==> p in c.Pages() - PageSet(c.startPage, c.startPage + size + 1)
    {
      PageSetMember(r.startPage, r.endPage, p);
      PageSetMember(c.startPage, c.endPage, p);
      PageSetMember(c.startPage, c.startPage + size + 1, p);
    }
  }
}
