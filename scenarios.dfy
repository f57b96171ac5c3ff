/** The allocation engine driven through a sequence of calls, with what it
    reports proved for each sequence. */
module Scenarios {
  import opened Chunks
  import opened Placement
  import opened Allocator

  /** A 16 KB program takes 4 pages from the front of the single 32-page
      hole, which keeps the other 28 pages as the one fragment. */
  method SixteenKilobytes() returns (outcome: AddOutcome, fragments: int, holePages: int)
    ensures outcome == Added(4) && fragments == 1 && holePages == 28
  {
    var os := new OperatingSystem("best");
    ghost var free0 := os.freeSpace.nodes;
    assert BestFit(free0, 16) == 0;
    outcome := os.AddProgram("X", 16);
    assert os.freeSpace.nodes == free0[0 := free0[0].Split(4)];
    fragments := os.GetNumFragments();
    var hole := os.freeSpace.Get(0);
    holePages := hole.Size();
  }

  /** Adding a name that is already running is refused and changes nothing. */
  method SameNameTwice() returns (first: AddOutcome, second: AddOutcome, usedEntries: int)
    ensures first == Added(2) && second == AlreadyRunning && usedEntries == 1
  {
    var os := new OperatingSystem("worst");
    ghost var free0 := os.freeSpace.nodes;
    assert WorstFit(free0, 8) == 0;
    first := os.AddProgram("A", 8);
    second := os.AddProgram("A", 8);
    usedEntries := os.usedSpace.GetSize();
  }

  /** Adding a program and removing it again reclaims its pages but does not
      restore the single hole: the reclaimed chunk sits in front of the
      shrunken hole as a second fragment. */
  method AddThenRemove() returns (added: AddOutcome, removed: RemoveOutcome, fragments: int)
    ensures added == Added(2) && removed == Killed(2) && fragments == 2
  {
    var os := new OperatingSystem("best");
    ghost var free0 := os.freeSpace.nodes;
    assert BestFit(free0, 8) == 0;
    added := os.AddProgram("A", 8);
    assert os.usedSpace.nodes[0] == Chunk("A", 0, 3);
    assert OwnerIndex(os.usedSpace.nodes, "A") == 0;
    removed := os.RemoveProgram("A");
    fragments := os.GetNumFragments();
  }

  /** For any engine with at most one free chunk, adding a new program and
      removing it again reclaims exactly the pages the add reported as used,
      whenever the add linked the program's chunk into the used list.  When
      the add lost the chunk, the remove is not attempted: the code would take
      the null node past the end of the used list. */
  method ReclaimsWhatWasAdded(os: OperatingSystem, programName: string, programSize: int)
    returns (added: AddOutcome, removed: RemoveOutcome)
    requires os.Valid() && programSize > 0 && |os.freeSpace.nodes| <= 1
    requires programName !in os.programs
    requires OwnerIndex(os.usedSpace.nodes, programName) == |os.usedSpace.nodes|
    modifies os, os.freeSpace, os.usedSpace
    ensures var k := FitIndex(os.algorithm, old(os.freeSpace.nodes), programSize);
            added == if k < 0 then NotEnoughMemory else Added(PagesFor(programSize))
    ensures var k := FitIndex(os.algorithm, old(os.freeSpace.nodes), programSize);
            removed.Killed? <==>
              0 <= k && |InsertUsed(old(os.usedSpace.nodes), UsedChunk(programName, old(os.freeSpace.nodes)[k], PagesFor(programSize)))|
                        == old(|os.usedSpace.nodes|) + 1
    ensures removed.Killed? ==> removed == Killed(added.pagesUsed)
  {
    ghost var free0, used0 := os.freeSpace.nodes, os.usedSpace.nodes;
    var n0 := os.usedSpace.GetSize();
    added := os.AddProgram(programName, programSize);
    if added.Added? && os.usedSpace.GetSize() == n0 + 1 {
      ghost var k := FitIndex(os.algorithm, free0, programSize);
      OwnedOnlyByNewChunk(used0, UsedChunk(programName, free0[k], added.pagesUsed), programName);
      removed := os.RemoveProgram(programName);
    } else {
      removed := NotRunning;
    }
  }

  /** Once `c` is linked into a used list that holds no chunk of its owner,
      the owner scan finds `c`. */
  lemma OwnedOnlyByNewChunk(used: seq<Chunk>, c: Chunk, programName: string)
    requires c.programName == programName
    requires OwnerIndex(used, programName) == |used|
    requires |InsertUsed(used, c)| == |used| + 1
    ensures var r := InsertUsed(used, c);
            OwnerIndex(r, programName) < |r| && r[OwnerIndex(r, programName)] == c
  {
    var r := InsertUsed(used, c);
    if |used| <= 1 {
      InsertUsedShortOrdered(used, c);
    } else {
      InsertUsedLong(used, c);
    }
    var k := OwnerIndex(r, programName);
    assert r[k] in multiset(used) + multiset{c};
  }
}
