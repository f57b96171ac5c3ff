/** The allocation engine: 32 pages of 4 KB shared by named programs, a free
    list and a used list of chunks, the list of running programs and the fit
    algorithm chosen at start-up. */
module Allocator {
  import opened Chunks
  import opened Placement
  import ChunkLists

  /** Pages in the simulated memory. */
  const TOTAL_PAGES := 32

  datatype Algorithm = Best | Worst

  /** The algorithm string selects worst fit when it is "worst"; any other
      string selects best fit. */
  function ChooseAlgorithm(algorithmChosen: string): (a: Algorithm)
    ensures a == Worst <==> algorithmChosen == "worst"
    ensures a == Best <==> algorithmChosen != "worst"
  {
    if algorithmChosen == "worst" then Worst else Best
  }

  /** A chunk the chosen algorithm's scan can pick. */
  predicate Candidate(algorithm: Algorithm, c: Chunk, programSize: int)
  {
    match algorithm
    case Worst => WorstCandidate(c, programSize)
    case Best => BestCandidate(c, programSize)
  }

  /** The free chunk an algorithm picks, or -1 exactly when it can pick none;
      a picked chunk has at least the pages the request needs. */
  function FitIndex(algorithm: Algorithm, free: seq<Chunk>, programSize: int): (r: int)
    ensures -1 <= r < |free|
    ensures r == -1 <==> forall i :: 0 <= i < |free| ==> !Candidate(algorithm, free[i], programSize)
    ensures r >= 0 ==> Candidate(algorithm, free[r], programSize) && free[r].Size() >= PagesFor(programSize)
  {
    match algorithm
    case Worst => WorstFit(free, programSize)
    case Best => BestFit(free, programSize)
  }

  /** What addProgram reports. */
  datatype AddOutcome = Added(pagesUsed: int) | AlreadyRunning | NotEnoughMemory

  /** What removeProgram reports. */
  datatype RemoveOutcome = Killed(pagesReclaimed: int) | NotRunning

  /** `names` with every occurrence of `name` taken out, the rest in order. */
  function Without(names: seq<string>, name: string): (r: seq<string>)
    ensures name !in r
    ensures forall n :: n != name ==> (n in r <==> n in names)
    ensures |r| <= |names|
    ensures name !in names ==> r == names
  {
    if names == [] then []
    else if names[0] == name then Without(names[1..], name)
    else [names[0]] + Without(names[1..], name)
  }

  /** Index of the first used chunk owned by `programName`, or |used|. */
  function OwnerIndex(used: seq<Chunk>, programName: string): (r: nat)
    ensures r <= |used|
    ensures r < |used| ==> used[r].programName == programName
    ensures forall i :: 0 <= i < r ==> used[i].programName != programName
    decreases |used|
  {
    if used == [] then 0
    else if used[0].programName == programName then 0
    else 1 + OwnerIndex(used[1..], programName)
  }

  class OperatingSystem {
    const algorithm: Algorithm
    var programs: seq<string>
    const freeSpace: ChunkLists.LinkedList
    const usedSpace: ChunkLists.LinkedList

    ghost predicate Valid()
      reads this, freeSpace, usedSpace
    {
      freeSpace != usedSpace && freeSpace.Valid() && usedSpace.Valid()
    }

    /** Pages accounted for in both lists together. */
    ghost function TotalPages(): int
      reads this, freeSpace, usedSpace
    {
      TotalSize(freeSpace.nodes) + TotalSize(usedSpace.nodes)
    }

    /** All 32 pages start in one free chunk; nothing is used or running. */
    constructor (algorithmChosen: string)
      ensures Valid() && fresh(freeSpace) && fresh(usedSpace)
      ensures algorithm == ChooseAlgorithm(algorithmChosen)
      ensures freeSpace.nodes == [Chunk(FREE, 0, TOTAL_PAGES + 1)]
      ensures usedSpace.nodes == [] && programs == []
      ensures TotalPages() == TOTAL_PAGES
    {
      algorithm := ChooseAlgorithm(algorithmChosen);
      programs := [];
      usedSpace := new ChunkLists.LinkedList();
      freeSpace := new ChunkLists.LinkedList();
      new;
      freeSpace.Append(Chunk(FREE, 0, TOTAL_PAGES + 1));
      assert TotalSize(freeSpace.nodes) == TOTAL_PAGES;
    }

    /** Whether `programName` is on the list of running programs. */
    method ContainsProgram(programName: string) returns (found: bool)
      ensures found <==> programName in programs
    {
      for i := 0 to |programs|
        invariant programName !in programs[..i]
      {
        if programs[i] == programName {
          return true;
        }
      }
      return false;
    }

    /** The worst-fit scan over the free list. */
    method WorstFitScan(programSize: int) returns (pageIndex: int)
      requires Valid()
      ensures pageIndex == WorstFit(freeSpace.nodes, programSize)
    {
      pageIndex := -1;
      var maxSize := 0;
      var i := 0;
      while i < freeSpace.GetSize()
        invariant 0 <= i <= |freeSpace.nodes|
        invariant pageIndex == WorstFit(freeSpace.nodes[..i], programSize)
        invariant maxSize == if pageIndex < 0 then 0 else Capacity(freeSpace.nodes[pageIndex])
      {
        var chunk := freeSpace.Get(i);
        var tempSize := 4 * chunk.Size();
        assert freeSpace.nodes[..i + 1][..i] == freeSpace.nodes[..i];
        if tempSize > maxSize && tempSize >= programSize {
          maxSize := tempSize;
          pageIndex := i;
        }
        i := i + 1;
      }
      assert freeSpace.nodes[..i] == freeSpace.nodes;
    }

    /** The best-fit scan over the free list. */
    method BestFitScan(programSize: int) returns (pageIndex: int)
      requires Valid()
      ensures pageIndex == BestFit(freeSpace.nodes, programSize)
    {
      pageIndex := -1;
      var minSize := BEST_FIT_START;
      var i := 0;
      while i < freeSpace.GetSize()
        invariant 0 <= i <= |freeSpace.nodes|
        invariant pageIndex == BestFit(freeSpace.nodes[..i], programSize)
        invariant minSize == if pageIndex < 0 then BEST_FIT_START else Capacity(freeSpace.nodes[pageIndex])
      {
        var chunk := freeSpace.Get(i);
        var tempSize := 4 * chunk.Size();
        assert freeSpace.nodes[..i + 1][..i] == freeSpace.nodes[..i];
        if tempSize >= programSize && tempSize < minSize && tempSize >= programSize {
          minSize := tempSize;
          pageIndex := i;
        }
        i := i + 1;
      }
      assert freeSpace.nodes[..i] == freeSpace.nodes;
    }

    /** Links a new used chunk into the used list by start page. */
    method PlaceUsedChunk(usedChunk: Chunk)
      requires Valid()
      modifies usedSpace
      ensures Valid()
      ensures usedSpace.nodes == InsertUsed(old(usedSpace.nodes), usedChunk)
    {
      if usedSpace.GetSize() == 0 {
        usedSpace.Append(usedChunk);
      } else if usedSpace.GetSize() == 1 {
        var head := usedSpace.Get(0);
        if head.startPage > usedChunk.startPage {
          usedSpace.Insert(0, usedChunk);
        } else {
          usedSpace.Append(usedChunk);
        }
      } else {
        ghost var used := usedSpace.nodes;
        var usedIndex := 1;
        while usedIndex < usedSpace.GetSize()
          invariant 1 <= usedIndex <= |used| && usedSpace.nodes == used && usedSpace.Valid()
          invariant FirstEarlier(used, usedChunk, usedIndex) == FirstEarlier(used, usedChunk, 1)
        {
          var chunk := usedSpace.Get(usedIndex);
          if chunk.startPage < usedChunk.startPage {
            usedSpace.Insert(usedIndex, usedChunk);
            break;
          }
          usedIndex := usedIndex + 1;
        }
      }
    }

    /** Adds a program of `programSize` KB.  An already-running name or a
        request no free chunk fits leaves everything as it was; otherwise the
        chosen hole gives up PagesFor(programSize) pages from its front to a
        new used chunk and the name goes to the front of the running list. */
    method AddProgram(programName: string, programSize: int) returns (outcome: AddOutcome)
      requires Valid() && programSize > 0
      modifies this, freeSpace, usedSpace
      ensures Valid()
      ensures programName in old(programs) ==> outcome == AlreadyRunning
      ensures programName !in old(programs) && FitIndex(algorithm, old(freeSpace.nodes), programSize) < 0 ==>
                outcome == NotEnoughMemory
      ensures programName !in old(programs) && FitIndex(algorithm, old(freeSpace.nodes), programSize) >= 0 ==>
                outcome.Added?
      ensures !outcome.Added? ==> unchanged(this, freeSpace, usedSpace)
      ensures outcome.Added? ==>
                var k := FitIndex(algorithm, old(freeSpace.nodes), programSize);
                var hole := old(freeSpace.nodes)[k];
                var pages := PagesFor(programSize);
                && programName !in old(programs) && 0 <= k
                && outcome == Added(pages)
                && 0 < pages <= hole.Size()
                && freeSpace.nodes == old(freeSpace.nodes)[k := hole.Split(pages)]
                && usedSpace.nodes == InsertUsed(old(usedSpace.nodes), UsedChunk(programName, hole, pages))
                && programs == [programName] + old(programs)
      ensures outcome.Added? && |usedSpace.nodes| == old(|usedSpace.nodes|) + 1 ==>
                TotalPages() == old(TotalPages())
      ensures outcome.Added? && |usedSpace.nodes| == old(|usedSpace.nodes|) ==>
                TotalPages() == old(TotalPages()) - outcome.pagesUsed
    {
      var running := ContainsProgram(programName);
      if running {
        return AlreadyRunning;
      }

      var numPages := (programSize + 3) / 4;
      assert numPages == PagesFor(programSize);
      var pageIndex;
      if algorithm == Worst {
        pageIndex := WorstFitScan(programSize);
      } else {
        pageIndex := BestFitScan(programSize);
      }
      assert pageIndex == FitIndex(algorithm, freeSpace.nodes, programSize);
      if pageIndex < 0 {
        return NotEnoughMemory;
      }

      Allocate(programName, pageIndex, numPages);
      outcome := Added(numPages);
    }

    /** The successful end of addProgram: the hole at `pageIndex` gives up
        `numPages` pages from its front to a new used chunk, and the name goes
        to the front of the running list. */
    method Allocate(programName: string, pageIndex: int, numPages: int)
      requires Valid() && 0 <= pageIndex < |freeSpace.nodes|
      requires 0 < numPages <= freeSpace.nodes[pageIndex].Size()
      modifies this, freeSpace, usedSpace
      ensures Valid()
      ensures var hole := old(freeSpace.nodes)[pageIndex];
              && freeSpace.nodes == old(freeSpace.nodes)[pageIndex := hole.Split(numPages)]
              && usedSpace.nodes == InsertUsed(old(usedSpace.nodes), UsedChunk(programName, hole, numPages))
              && programs == [programName] + old(programs)
      ensures |usedSpace.nodes| == old(|usedSpace.nodes|) + 1 ==> TotalPages() == old(TotalPages())
      ensures |usedSpace.nodes| == old(|usedSpace.nodes|) ==> TotalPages() == old(TotalPages()) - numPages
    {
      var targetChunk := freeSpace.Get(pageIndex);
      var usedMemChunk := Chunk(programName, targetChunk.startPage, targetChunk.startPage + numPages + 1);
      ghost var free0, used0 := freeSpace.nodes, usedSpace.nodes;
      freeSpace.Overwrite(pageIndex, targetChunk.Split(numPages));
      PlaceUsedChunk(usedMemChunk);
      programs := [programName] + programs;

      TotalSizeUpdate(free0, pageIndex, targetChunk.Split(numPages));
      TotalSizeInsertUsed(used0, usedMemChunk);
    }

    /** Links a reclaimed chunk into a free list of at most one entry, by
        start page and without merging. */
    method ReclaimFree(reclaimedMemory: Chunk)
      requires Valid() && |freeSpace.nodes| <= 1
      modifies freeSpace
      ensures Valid()
      ensures freeSpace.nodes == InsertSmall(old(freeSpace.nodes), reclaimedMemory)
    {
      if freeSpace.GetSize() == 0 {
        freeSpace.Append(reclaimedMemory);
      } else {
        var head := freeSpace.Get(0);
        if head.startPage > reclaimedMemory.startPage {
          freeSpace.Insert(0, reclaimedMemory);
        } else {
          freeSpace.Append(reclaimedMemory);
        }
      }
    }

    /** The owner scan of removeProgram: the index of the first used chunk
        owned by `programName`, or the used-list length when there is none. */
    method FindOwner(programName: string) returns (usedIndex: int)
      requires Valid()
      ensures usedIndex == OwnerIndex(usedSpace.nodes, programName)
    {
      usedIndex := 0;
      while usedIndex < usedSpace.GetSize()
        invariant 0 <= usedIndex <= OwnerIndex(usedSpace.nodes, programName)
        invariant forall i :: 0 <= i < usedIndex ==> usedSpace.nodes[i].programName != programName
      {
        var chunk := usedSpace.Get(usedIndex);
        if chunk.programName == programName {
          break;
        }
        usedIndex := usedIndex + 1;
      }
    }

    /** Stops a program.  A name that is not running leaves everything as it
        was; otherwise the program's first used chunk moves to the free list
        as a "Free" chunk with the same bounds and the name leaves the
        running list.  For a running program the free list must hold at most
        one entry, and the program must own a used chunk. */
    method RemoveProgram(programName: string) returns (outcome: RemoveOutcome)
      requires Valid() && (programName in programs ==> |freeSpace.nodes| <= 1)
      requires programName in programs ==> OwnerIndex(usedSpace.nodes, programName) < |usedSpace.nodes|
      modifies this, freeSpace, usedSpace
      ensures Valid()
      ensures programName !in old(programs) ==> outcome == NotRunning && unchanged(this, freeSpace, usedSpace)
      ensures programName in old(programs) ==>
                var k := OwnerIndex(old(usedSpace.nodes), programName);
                var c := old(usedSpace.nodes)[k];
                && outcome == Killed(c.Size())
                && freeSpace.nodes == InsertSmall(old(freeSpace.nodes), Chunk(FREE, c.startPage, c.endPage))
                && usedSpace.nodes == old(usedSpace.nodes)[..k] + old(usedSpace.nodes)[k + 1..]
                && programs == Without(old(programs), programName)
      ensures TotalPages() == old(TotalPages())
    {
      var running := ContainsProgram(programName);
      if !running {
        return NotRunning;
      }

      var usedIndex := FindOwner(programName);
      var targetChunk := usedSpace.Get(usedIndex);
      var numPagesReclaimed := targetChunk.Size();
      var reclaimedMemory := Chunk(FREE, targetChunk.startPage, targetChunk.endPage);
      ghost var free0, used0 := freeSpace.nodes, usedSpace.nodes;

      ReclaimFree(reclaimedMemory);
      var _ := usedSpace.Remove(usedIndex);
      programs := Without(programs, programName);
      outcome := Killed(numPagesReclaimed);

      TotalSizeInsertSmall(free0, reclaimedMemory);
      TotalSizeRemove(used0, usedIndex);
    }

    /** A fragment is a free-list entry, an empty one left by an exact fit included. */
    function GetNumFragments(): (r: int)
      reads this, freeSpace
      requires freeSpace.Valid()
      ensures r == |freeSpace.nodes|
    {
      freeSpace.GetSize()
    }
  }
}
