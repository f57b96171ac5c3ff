# Paged memory allocator — Dafny model

This project models the allocation engine of a small paged-memory simulator.
The simulated memory has 32 pages of 4 KB each. Named programs share it.

The engine keeps four things:

- a free list and a used list of chunks;
- the list of running program names;
- the fit algorithm chosen at start-up.

A request picks a free chunk by worst fit or by best fit. The program's pages
come off the front of that chunk. Stopping a program hands its chunk back to
the free list. The two lists are hand-written singly linked lists. The
repository also has a second, bounds-checked linked-list template, and it is
modelled too.

Modules:

- `Chunks` (`chunks.dfy`) is the chunk value. Its bounds are exclusive:
  `Chunk(name, s, e)` holds the pages `s+1 .. e-1`, so it has `e - s - 1` pages.
  The code stores chunks by value in list nodes. So a chunk is a datatype here,
  and each setter returns the updated value.
- `ChunkLists` (`chunk_list.dfy`) is the list the engine uses, as a class. Its
  `nodes: seq<Chunk>` field is the data of the nodes reachable from the head,
  and `size` is the separate counter. A node walk is a loop over a cursor
  index, and `|nodes|` plays the null pointer. Writing through the reference
  that `get` returns is the method `Overwrite`.
- `Placement` (`placement.dfy`) holds the rules as functions, with the lemmas
  about them:
  - how many pages a request needs;
  - which chunk each fit scan settles on;
  - where a new chunk is linked in;
  - page accounting;
  - the coalescing test.
- `Allocator` (`allocator.dfy`) is the `OperatingSystem` class. Its methods
  are proved against the `Placement` functions.
- `CheckedLists` (`checked_list.dfy`) is the bounds-checked template list. A
  thrown `std::runtime_error` becomes a `Thrown`/`Raised` value that carries
  the message. The `int` index is compared with the `unsigned` counter the way
  C++ does it, through `AsUnsigned`.
- `Scenarios` (`scenarios.dfy`) drives the engine through short sequences of
  calls and proves what it reports: three from a fresh start, and one
  add-then-remove from any engine with at most one free chunk.

The model follows the code where the code's behaviour is surprising:

- Carving a chunk leaves touching chunks whose bounds overlap by one:
  `used.end == hole.start + 1`.
- An exact fit leaves a zero-page free chunk. It stays in the list and counts
  as a fragment.
- With two or more used entries, a new used chunk goes before the first entry
  from index 1 on that starts earlier than it. If there is no such entry, the
  chunk is never linked in, but the program is still recorded as running.
  `InsertUsedCanBreakOrder` and `InsertUsedCanLoseChunk` show both outcomes.
- Removing a program never merges chunks when the free list has at most one
  entry. Adding a program and removing it again therefore leaves two fragments,
  not the original single hole (`Scenarios.AddThenRemove`).
- Both tests in the coalescing step are the same condition:
  `right.start == left.end + 1`. With exclusive bounds, that means a gap of two
  pages between the chunks. Touching chunks never pass it.
- The code keeps empty holes in the free list, and it only tries to coalesce
  when the free list has two or more entries.

## Model

| member | source | states |
|---|---|---|
| `Chunks.Chunk.Split` | pa2.cpp:39-42 | the size drops by exactly the split amount; end page and owner are unchanged |
| `Chunks.Chunk.SetStartPage` | pa2.cpp:22-24 | only the start page changes; the size becomes end - page - 1 |
| `Chunks.Chunk.SetEndPage` | pa2.cpp:26-28 | only the end page changes; the size becomes page - start - 1 |
| `Chunks.SizeCountsPages` | pa2.cpp:34-37 | what `getSize` computes is the page count: with exclusive bounds, a chunk of non-negative size holds exactly `end - start - 1` pages |
| `Chunks.SplitDropsFront` | pa2.cpp:39-42 | after a split, the chunk holds its old pages minus the first `size` of them |
| `Placement.PagesFor` | pa2.cpp:86-87 | the page count is the ceiling of KB / 4: 4r - 4 < KB <= 4r |
| `Placement.Capacity` | pa2.cpp:97 | the KB capacity `4 * getSize()` covers a request exactly when the chunk's pages cover the page count of that request |
| `Placement.WorstFit` | pa2.cpp:91-102 | the worst-fit scan returns -1 exactly when no chunk fits with positive capacity; otherwise it returns a fitting chunk whose size is maximal, and every earlier fitting chunk is strictly smaller |
| `Placement.WorstFitIsLargestFitting` | pa2.cpp:92-102 | for a positive request, worst fit fails exactly when every chunk has fewer pages than needed; a picked chunk has at least the needed pages (so it is never empty) and is a largest fitting chunk |
| `Placement.BestFit` | pa2.cpp:108-119 | the best-fit scan returns -1 exactly when no chunk fits below the 129 KB start; otherwise it returns a fitting chunk whose size is minimal, and every earlier fitting chunk is strictly larger |
| `Placement.BestFitIsSmallestFitting` | pa2.cpp:109-119 | when every hole has at most 32 pages, best fit fails exactly when nothing fits, and otherwise picks the first of the smallest fitting chunks |
| `Placement.UsedChunk` | pa2.cpp:130 | the program's chunk starts at the hole's start, is owned by the program and has exactly the requested number of pages |
| `Placement.CarveConservesPages` | pa2.cpp:127-131 | the used chunk and the split hole share no page; together they hold exactly the hole's pages; their sizes add up to the hole's; their bounds overlap by one; an exact fit leaves an empty hole |
| `Placement.InsertSmall` | pa2.cpp:186-199 | inserting into a list of at most one entry grows it by one and the new chunk is in it; that the other entries are kept is `InsertSmallOrdered` |
| `Placement.InsertSmallOrdered` | pa2.cpp:186-199 | that insertion keeps start order and adds exactly the new chunk, counted as a multiset |
| `Placement.FirstEarlier` | pa2.cpp:148-154 | the insertion scan stops at the first entry from `from` on that starts before the new chunk; every entry it passed starts at or after it |
| `Placement.InsertUsed` | pa2.cpp:133-155 | the used list either grows by one with the new chunk in it, or is left unchanged; with 0 or 1 entries it always grows; that the other entries are kept is `InsertUsedShortOrdered` and `InsertUsedLong` |
| `Placement.InsertUsedShortOrdered` | pa2.cpp:133-145 | with 0 or 1 used entries, the new chunk is linked in and the list stays ascending by start page |
| `Placement.InsertUsedLong` | pa2.cpp:146-155 | with 2 or more used entries, the chunk is added exactly when an entry after the head starts before it; otherwise the list is left unchanged |
| `Placement.InsertUsedCanBreakOrder` | pa2.cpp:147-155 | a sorted two-entry list can become unsorted after the insertion |
| `Placement.InsertUsedCanLoseChunk` | pa2.cpp:147-155 | a chunk that starts between the head and the second entry is not linked in |
| `Placement.TotalSizeUpdate` | pa2.cpp:129-131 | replacing one hole by its split changes the free-page total by the size difference |
| `Placement.TotalSizeRemove` | pa2.cpp:236 | unlinking a used entry lowers the used-page total by its size |
| `Placement.TotalSizeInsertSmall` | pa2.cpp:186-199 | reclaiming into a short free list adds the chunk's pages to the free total |
| `Placement.TotalSizeInsertUsed` | pa2.cpp:133-155 | the used-page total grows by the chunk's pages exactly when the chunk is linked in; otherwise the list is unchanged |
| `Placement.MergeStep` | pa2.cpp:213-231 | the merge happens exactly when original.start == new.end + 1; the merged chunk runs from new.start to original.end and has both sizes plus 2; otherwise the original is kept |
| `Placement.MergeAbsorbsTwoPageGap` | pa2.cpp:217-226 | under the merge test, the merged chunk holds both chunks' pages plus the two pages between them, which neither chunk held; touching chunks never satisfy the test |
| `Allocator.ChooseAlgorithm` | pa2.cpp:91 | "worst" selects worst fit, and every other string selects best fit |
| `Allocator.Without` | pa2.cpp:237 | the name is gone from the running list; every other name is kept; the list does not grow |
| `Allocator.FitIndex` | pa2.cpp:89-125 | the chosen algorithm's scan returns -1 exactly when it can pick no chunk; a picked chunk can be picked by that algorithm and has at least the pages the request needs |
| `Allocator.OwnerIndex` | pa2.cpp:171-175 | the owner scan stops at the first used chunk owned by the program, or at the end when there is none |
| `Allocator.OperatingSystem.constructor` | pa2.cpp:57-64 | one free chunk ("Free", 0, 33) of 32 pages, an empty used list, no running programs, the algorithm chosen from the string |
| `Allocator.OperatingSystem.ContainsProgram` | pa2.cpp:67-74 | true exactly when the name is in the running list |
| `Allocator.OperatingSystem.WorstFitScan` | pa2.cpp:91-102 | the loop computes `WorstFit` of the free list |
| `Allocator.OperatingSystem.BestFitScan` | pa2.cpp:108-119 | the loop computes `BestFit` of the free list |
| `Allocator.OperatingSystem.PlaceUsedChunk` | pa2.cpp:133-155 | the used list becomes `InsertUsed` of the old one; the free list is untouched |
| `Allocator.OperatingSystem.Allocate` | pa2.cpp:127-158 | the hole is split by the page count; the used chunk is placed by `InsertUsed`; the name is pushed to the front; for a positive page count, the page total is kept when the chunk is linked in and drops by the page count when it is lost |
| `Allocator.OperatingSystem.AddProgram` | pa2.cpp:79-160 | a running name gives AlreadyRunning, and no fitting hole gives NotEnoughMemory, both with nothing changed; otherwise it reports Added(pages) for the chosen algorithm's hole, with the exact new free list, used list and running list |
| `Allocator.OperatingSystem.ReclaimFree` | pa2.cpp:183-199 | with at most one free entry, the free list becomes `InsertSmall` of the old one, with no merge |
| `Allocator.OperatingSystem.FindOwner` | pa2.cpp:172-175 | the loop computes `OwnerIndex` of the used list |
| `Allocator.OperatingSystem.RemoveProgram` | pa2.cpp:164-240 | a name that is not running gives NotRunning with nothing changed; otherwise the owner's chunk goes back as a "Free" chunk with the same bounds, is unlinked from the used list, and the name leaves the running list; it reports the chunk's size, and the page total is unchanged |
| `Allocator.OperatingSystem.GetNumFragments` | pa2.cpp:245-247 | the number of fragments is the free-list length, empty chunks included |
| `ChunkLists.Target` | pa2.h:96-122 | the node `get` and `remove` reach: the position itself when it is non-negative, and node 1 for a negative position, because the walk then never moves off the head |
| `ChunkLists.LinkedList.constructor` | pa2.h:38-41 | the list starts empty with a zero counter |
| `ChunkLists.LinkedList.GetSize` | pa2.h:43-45 | the counter equals the number of nodes |
| `ChunkLists.LinkedList.Append` | pa2.h:47-61 | the value becomes the last node, earlier nodes are unchanged, and the counter grows by one |
| `ChunkLists.LinkedList.Insert` | pa2.h:63-87 | for 0 <= p <= size, the nodes become s[..p] + [v] + s[p..] and the counter grows by one |
| `ChunkLists.LinkedList.WalkTo` | pa2.h:118-121 | the walk stops on the node before the target, or at the null past the end |
| `ChunkLists.LinkedList.Remove` | pa2.h:89-111 | returns true exactly when the target node exists, and then deletes exactly that node and lowers the counter; false leaves the list unchanged (position 0 targets node 0, a negative position targets node 1) |
| `ChunkLists.LinkedList.Get` | pa2.h:113-123 | returns the chunk of the target node |
| `ChunkLists.LinkedList.Overwrite` | pa2.cpp:131 | writing through the reference from `get` changes only the target node |
| `CheckedLists.AsUnsigned` | pa2.hpp:38 | a non-negative int keeps its value when compared with the unsigned counter, and a negative one becomes larger than any int |
| `CheckedLists.LinkedList.constructor` | pa2.hpp:21 | the list starts with a null head and a zero counter |
| `CheckedLists.LinkedList.IsEmpty` | pa2.hpp:31-33 | the head is null exactly when the counter is zero |
| `CheckedLists.LinkedList.GetSize` | pa2.hpp:34-36 | the counter equals the number of nodes |
| `CheckedLists.LinkedList.Walk` | pa2.hpp:114-117 | walking k nodes from the head lands on node k |
| `CheckedLists.LinkedList.Get` | pa2.hpp:37-49 | returns element `index` when 0 <= index < size; it throws otherwise, for every negative index too |
| `CheckedLists.LinkedList.At` | pa2.hpp:50-62 | the same check and result as `get` |
| `CheckedLists.LinkedList.Append` | pa2.hpp:63-74 | the value becomes the last element and the counter grows by one |
| `CheckedLists.LinkedList.Prepend` | pa2.hpp:75-84 | the value becomes the first element, the rest keep their order, and the counter grows by one |
| `CheckedLists.LinkedList.Insert` | pa2.hpp:85-106 | throws, with nothing changed, when the index is negative or past the end; otherwise the list becomes s[..i] + [v] + s[i..] |
| `CheckedLists.LinkedList.Set` | pa2.hpp:107-120 | throws, with nothing changed, when the index is out of range; otherwise only element i is replaced and the size is kept |
| `CheckedLists.LinkedList.Remove` | pa2.hpp:121-139 | throws, with nothing changed, on an empty list or an out-of-range index; otherwise deletes exactly element i and lowers the counter |
| `Scenarios.SixteenKilobytes` | pa2.cpp:86-131 | from a fresh start, a 16 KB program uses 4 pages and leaves one fragment of 28 pages |
| `Scenarios.SameNameTwice` | pa2.cpp:80-84 | adding a running name a second time is refused, and the used list keeps its single entry |
| `Scenarios.AddThenRemove` | pa2.cpp:186-199 | adding an 8 KB program and removing it reclaims 2 pages but leaves 2 fragments |
| `Scenarios.ReclaimsWhatWasAdded` | pa2.cpp:159-180 | for every engine with at most one free chunk and a new name that owns no used chunk: the add reports Added(PagesFor(size)) exactly when the chosen algorithm finds a hole, and NotEnoughMemory otherwise; the remove reports Killed exactly when the add linked the program's chunk into the used list; and then it reclaims exactly the pages the add reported |
| `Scenarios.OwnedOnlyByNewChunk` | pa2.cpp:172-175 | once a new program's chunk is linked into a used list of any length, the owner scan finds exactly that chunk |

## Left out

- Console I/O is not modelled: the menu, the input loops and `main` (pa2.cpp:274-366). The model keeps only what they guarantee their callees, a positive program size. The messages printed by `addProgram`/`removeProgram` become the `AddOutcome`/`RemoveOutcome` values.
- The `print` methods (pa2.cpp:44-54, pa2.cpp:249-272, pa2.hpp:140-154) are not modelled; they only write to stdout.
- The `double` ceiling at pa2.cpp:87 is replaced by the integer `(programSize + 3) / 4`, which equals it for positive sizes.
- Heap management is not modelled: `new`/`delete`, the destructor and leaked nodes. Nodes are sequence positions, so pointer aliasing and update in place are not captured.
- Machine-integer overflow of page arithmetic and of `4 * size` is not modelled. All values in the engine stay far below `int` range.
- The `Chunk` and `OperatingSystem` declarations in pa2.hpp:157-188 are not part of this model; their definitions are not among the files modelled.
- Allocator.OperatingSystem.RemoveProgram: for a running program, requires at most one free entry. A name that is not running is handled for any free list, since the code returns before it looks at the list. With two or more entries and a running program, the insertion loop at pa2.cpp:202-207 never terminates once it inserts, and otherwise reads past the end of the list. The coalescing step that follows is modelled on its own as `MergeStep`.
- Allocator.OperatingSystem.RemoveProgram: requires a running program to own a used chunk. When the used-list insertion lost the chunk, the code takes the null node past the end (pa2.cpp:179, pa2.h:122).
- Scenarios.ReclaimsWhatWasAdded: requires at most one free entry, for the same reason as `RemoveProgram`.
- Allocator.OperatingSystem.AddProgram: requires a positive size, as the menu guarantees (pa2.cpp:311). Zero or negative sizes are not modelled.
- ChunkLists.LinkedList.Insert: requires 0 <= position <= size. Outside that range the walk runs past the last node and dereferences null.
- ChunkLists.LinkedList.Get: requires the target node to exist. Otherwise the code dereferences null.
- ChunkLists.LinkedList.Overwrite: requires the target node to exist, like `Get`.
- CheckedLists.LinkedList.Append: requires fewer than 2^31 - 1 elements, so every position is an `int`. Wrap-around of the `unsigned` counter is not modelled.
- CheckedLists.LinkedList.Prepend: the same element bound as `Append`.
- CheckedLists.LinkedList.Insert: the same element bound as `Append`.
