# miniMD on MultiCL: a Dafny model

The repository holds two programs that depend on each other only through OpenCL. This project models
the hard parts of both, and proves what they are for.

**miniMD** (`apps/miniMD_OpenCL`) simulates atoms in a periodic box on a 3-D grid of processes. Each
process owns a box; `exchange` migrates atoms to their owners, `borders` fetches copies (ghosts) of
all periodic images within `cutneigh`, several boxes away if need be, by forwarding ghosts of ghosts;
`communicate` and `reverse_communicate` replay those swaps forwards and backwards every step, and
`Neighbor` finds the pairs through a cell list instead of comparing all atoms. The model runs all
processes in lockstep over exact reals; each message is one synchronous swap. Beside that machine
(functions and lemmas) stand the loops that one process runs, in place on its arrays, each proved to
do its part of the machine's step when the others send what they would. The main theorem is
`Reneighbor.EndToEnd`: distributed neighbour lists agree with brute force over all atoms and all
period shifts.

**MultiCL** (`src/runtime`) is an OpenCL runtime that keeps memory objects coherent between devices.
Commands of a queue clone the data they need to their device, wait for the clone, and then change
the set of places that hold the latest contents. The model is a transition system with steps for the
scheduler, the halves of clones, and the device; the methods of `CLCommand` are modelled beside it
and proved to take the same steps. The main theorem is `Runs.OneMemorySeen`: one in-order queue
behaves like one memory, whatever the timing and the devices, as long as what is submitted is
harmless, for which exact conditions are given. Queues, events and the issuer thread are transition
systems of their own, with theorems over all interleavings.

## Layout

| files | what |
|---|---|
| Vec3, Wrappers, Filters, Grid, Sums, ProcGrid | vectors, options, parts of lists, boxes of the processor grid, sums over processes, choice of the grid |
| Storage | the atoms' arrays, and what growing them loses |
| Exchange, Stored, Migration | migration: the machine, with arrays that grow, and one process in place |
| Borders, Rounds, Ghosts, Comm | ghosts: the machine, swap by swap, with arrays that grow, and class Comm of one process |
| Swaps, Recording, Reverse, Timestep, Forwarding | the recorded swaps, replayed forwards and backwards |
| Bins, Rows, Stencil, Binning, Lists, Neighbor | the cell list, its kernels and class Neighbor |
| Reneighbor, Rebuild | the end-to-end theorem, and the three phases of one process |
| Random, Lattice | the generator and the initial lattice |
| Devices, Coherence, Commands | places and distances, the coherence steps, class CLCommand |
| Sequential, OneMemory, Effects, Runs, Drain, Limits | invariants, the one memory, what operations do to it, runs, progress, exact limits |
| Queues, Enqueues, Events, Issuers | queues, entering them without a lock, events and callbacks, the issuer thread |

`dafny verify dfyconfig.toml` checks everything.

## What the proofs found

Where the code does not do what it seems meant to, the lemmas say exactly when it does.

- The stencil may stop just short of `cutneigh` (`FACTOR` is 0.999): pairs between
  FACTOR * cutneigh and cutneigh can be missed, exactly if `Stencil.Short` holds in some dimension.
- `coord2bin` adds 1 to every index, so a scan can read `bincount[mbins]`: exactly if an owned atom
  can reach the far corner bin (`Stencil.Cornered`).
- `Atom::growarray` allocates larger arrays and copies nothing into them, so a process that receives
  one atom more than its arrays hold loses every atom it held. `exchange` keeps all atoms exactly if
  no count passes the size of the arrays and every atom is in its holder's box or next to it
  (`Stored.AllConserved`, `Stored.OverflowLoses`, `Exchange.LostExample`); `borders` is right exactly if
  every process has room for what it ends with (`Ghosts.BordersKept`, `Ghosts.GhostsComplete`);
  `create_atoms` exactly if a process owns at most 320000 sites (`Lattice.CreatedExactly`,
  `Lattice.LargeExample`), and its own check does not notice (`Lattice.AllCreated`).
- An atom's list never names the atom itself but may name its own periodic images, when the period
  is no longer than `cutneigh`.
- Fills are always treated as whole (`Limits.FillExact`), writes to read-only objects make all
  devices latest (`Limits.ReadOnlyWriteExact`, `Limits.UndefinedWrite`), and a kernel's change to a
  buffer without write flags is not announced (`Limits.KernelExact`), which includes every buffer
  created with default flags (`Limits.StaleRead`). The conditions are on where the latest contents
  are when the command is submitted; together they are `Sequential.Harmless`, which is what
  `OneMemorySeen` asks of a run.
- A callback for a status that the event skips is never called (`Events.ReachedExactly`,
  `Events.SkipExample`). `SetUserEventStatus` tests the status outside the lock: a completion callback
  runs more than once exactly if two callers are between test and write together (`Events.UserCalls`).
- A thread in `RemoveDevice` waits for ever exactly if the issuer will not look at `devices_updated_`
  again (`Issuers.CanReturn`), and while it waits a call of `Stop` follows the null pointer it has left
  in the list (`Issuers.WalkCrashes`). After it has returned, the issuer still asks the device about
  commands exactly if some are running and it has not passed them (`Issuers.StillAsked`).
- `Enqueue` of an in-order queue chains commands without a lock, which is safe exactly if threads
  enter it one by one (`Enqueues.EnterSafely`).
- Where comments and code differ the model follows the code: the comment before `exchange` says atoms go to
  all six neighbours, but with two processes in a dimension they go one way only.

## Model

| member | source | states |
|---|---|---|
| `ProcGrid.Choose` | apps/miniMD_OpenCL/comm.cpp:75-113 | The grid search: whatever `procgrid` holds before, the grid found multiplies to `nprocs`, no grid that does gives a process a box of less surface, and the "Bad grid" error is never returned |
| `ProcGrid.SurfIs` | apps/miniMD_OpenCL/comm.cpp:78-98 | What the search compares is half the surface of a box with edges prd / procgrid |
| `ProcGrid.FactorsByLoops` | apps/miniMD_OpenCL/comm.cpp:89-98 | The triples the nested loops look at are exactly the factor triples of `nprocs` |
| `Grid.NeedCovers` | apps/miniMD_OpenCL/comm.cpp:136-140 | `need` boxes, at least one, reach strictly farther than `cutneigh`, and one box less does not |
| `Comm.Comm.Slab` | apps/miniMD_OpenCL/comm.cpp:186-224 | Bounds and periodic flag of one swap are those of the slab that the hop and direction call for |
| `Comm.Comm.SetupDimension` | apps/miniMD_OpenCL/comm.cpp:185-226 | All slabs of one dimension are stored, after those of the dimensions before |
| `Comm.Comm.Setup` | apps/miniMD_OpenCL/comm.cpp:183-227 | All slabs of all dimensions are stored |
| `Borders.SentCount` | apps/miniMD_OpenCL/comm.cpp:489-499 | An image is packed as often as its unshifted original occurs in the scanned range, if that lies in the slab, and otherwise never |
| `Borders.RegionShift` | apps/miniMD_OpenCL/comm.cpp:200-220 | Packing with a periodic flag moves a region by exactly one period |
| `Borders.SlabDelivers` | apps/miniMD_OpenCL/comm.cpp:479-499 | Packing a slab from a scan range that covers it delivers each image of the slab once |
| `Borders.Neighbours` | apps/miniMD_OpenCL/comm.cpp:122-124 | The left and right neighbour, with the flag of the swap, see the box at the right place of the periodic line |
| `Borders.FromRightCount` | apps/miniMD_OpenCL/comm.cpp:463-539 | In hop h exactly the images of box c + 1 + h within the cutoff arrive from the right, each once |
| `Borders.FromLeftCount` | apps/miniMD_OpenCL/comm.cpp:463-539 | In hop h exactly the images of box c - 1 - h within the cutoff arrive from the left, each once |
| `Borders.HeldPlaced` | apps/miniMD_OpenCL/comm.cpp:443-539 | Every array entry of every process, at every hop, is its atom shifted by whole periods |
| `Borders.HeldCount` | apps/miniMD_OpenCL/comm.cpp:463-539 | After h hops a process holds every image within min(h boxes, cutneigh) of its box in the dimension, once, and nothing else |
| `Borders.HopsCover` | apps/miniMD_OpenCL/comm.cpp:136-140 | After `need` hops that is the whole halo |
| `Borders.BordersExact` | apps/miniMD_OpenCL/comm.cpp:443-539 | Ghost completeness, arrays large enough: for any processor grid and any cutoff, after the swaps of all three dimensions a process holds exactly the periodic images within cutneigh of its box per axis, each exactly once |
| `Ghosts.Kept` | apps/miniMD_OpenCL/comm.cpp:464-538 | Swap by swap, with the arrays the processes really have: while every process has room, each has what it should have |
| `Ghosts.BordersKept` | apps/miniMD_OpenCL/atom.cpp:67-80 | `growarray` copies nothing: every process ends with what it should have, whatever fresh memory holds, if and only if no process gets more entries than its arrays have room for |
| `Ghosts.GhostsComplete` | apps/miniMD_OpenCL/comm.cpp:443-539 | So the ghosts of every process are complete, whatever fresh memory holds, if and only if that is so |
| `Ghosts.WroteRight` | apps/miniMD_OpenCL/comm.cpp:527-537 | And then the record each process keeps of its swaps is the right one |
| `Comm.Comm.PackBorder` | apps/miniMD_OpenCL/comm.cpp:489-499 | The packing loop sends the entries of the slab, shifted, and lists their indices |
| `Comm.Comm.UnpackBorder` | apps/miniMD_OpenCL/atom.cpp:202-211 | Incoming ghosts are appended; a full array is replaced by a larger one, of which only what arrives afterwards is known |
| `Comm.Comm.Swap` | apps/miniMD_OpenCL/comm.cpp:465-537 | One swap of one process, given what its neighbour packs, leaves its part of the machine's next state, growth of the arrays included, and its log entry |
| `Comm.Comm.BordersDimension` | apps/miniMD_OpenCL/comm.cpp:464-538 | The swaps of one dimension |
| `Comm.Comm.Borders` | apps/miniMD_OpenCL/comm.cpp:443-539 | `borders` of one process, given what the others send, ends with its part of the machine's outcome and a log of its swaps, growth of the arrays included; with room everywhere these are the right outcome and the right log |
| `Recording.PickedSent` | apps/miniMD_OpenCL/comm.cpp:489-499 | What is sent is what `sendlist` names |
| `Recording.SentTags` | apps/miniMD_OpenCL/comm.cpp:520-525 | Each ghost received is the listed entry of the sender, shifted |
| `Recording.MadeRecorded` | apps/miniMD_OpenCL/comm.cpp:527-537 | `borders` leaves a faithful record: every stored index names the entry that was sent, every ghost copies it |
| `Swaps.PackedCurrent` | apps/miniMD_OpenCL/comm.cpp:236-295 | A swap delivers current entries if those of the sender are current |
| `Swaps.Replayed` | apps/miniMD_OpenCL/comm.cpp:236-295 | Replay: whatever the ghosts held, after s swaps of `communicate` every entry up to there is at its root's new position plus the shifts it has collected |
| `Timestep.GhostsFollow` | apps/miniMD_OpenCL/comm.cpp:236-295 | `communicate` after `borders`: every ghost of every process ends at its own atom's new position plus the periods between them |
| `Forwarding.PackComm` | apps/miniMD_OpenCL/atom_kernel.h:36-48 | The pack kernel fills the buffer with the listed entries, shifted |
| `Forwarding.UnpackComm` | apps/miniMD_OpenCL/atom_kernel.h:50-63 | The unpack kernel overwrites the ghosts from `first` on, and nothing else |
| `Forwarding.CommSelf` | apps/miniMD_OpenCL/atom_kernel.h:65-77 | The self kernel, which uses no buffer, does what packing and unpacking would |
| `Forwarding.Forward` | apps/miniMD_OpenCL/comm.cpp:264-291 | One swap of `communicate` on the process's own array |
| `Forwarding.Communicate` | apps/miniMD_OpenCL/comm.cpp:236-295 | `communicate` of one process, given what the others send, ends with its part of the machine's replay, and every buffer it sends is what the receiver relies on |
| `Forwarding.LogKeeps` | apps/miniMD_OpenCL/comm.cpp:527-537 | The log that `borders` leaves is what `communicate` and `reverse_communicate` need |
| `Forwarding.PackReverse` | apps/miniMD_OpenCL/atom.cpp:163-173 | The forces of the ghosts of a swap, in order |
| `Forwarding.UnpackReverse` | apps/miniMD_OpenCL/atom.cpp:175-185 | The buffer is added, entry by entry, to the listed entries |
| `Forwarding.ReverseCommunicate` | apps/miniMD_OpenCL/comm.cpp:299-328 | `reverse_communicate` of one process, given what the others send, ends with its part of the machine's outcome |
| `Reverse.ReverseSwap` | apps/miniMD_OpenCL/comm.cpp:306-327 | Undoing one swap moves forces between entries of the same atom and loses none |
| `Reverse.ForcesReturn` | apps/miniMD_OpenCL/comm.cpp:299-328 | Whatever atoms are selected, their own entries end with what all their images held |
| `Reverse.ForceGathered` | apps/miniMD_OpenCL/comm.cpp:299-328 | Adjointness: an own atom ends with its own force plus those of all its ghosts on all processes, however often they were forwarded |
| `Reverse.TotalForce` | apps/miniMD_OpenCL/comm.cpp:299-328 | The total force over all entries becomes the total over the own atoms |
| `Timestep.OwnSole` | apps/miniMD_OpenCL/comm.cpp:337-432 | After `exchange` each own entry is the only own entry of its atom on any process |
| `Timestep.GhostsGiveBack` | apps/miniMD_OpenCL/comm.cpp:299-328 | So, after exchange and borders, each own atom's force ends as its own plus those of all its ghosts |
| `Exchange.WrapHome` | apps/miniMD_OpenCL/atom.cpp:107-117 | One `pbc` brings a coordinate into the box if and only if it is at most one period out |
| `Exchange.WrapShifts` | apps/miniMD_OpenCL/atom.cpp:107-117 | It moves the coordinate by whole periods: up one from below the box, down one from above, and not at all from inside |
| `Exchange.PbcShifts` | apps/miniMD_OpenCL/atom.cpp:107-117 | So `pbc` moves an atom by at most one period per axis and leaves its velocity alone |
| `Exchange.DepartSplits` | apps/miniMD_OpenCL/comm.cpp:376-392 | Hole filling loses and doubles no atom, and separates those of the box from the others |
| `Exchange.AcceptCount` | apps/miniMD_OpenCL/comm.cpp:419-430 | Of the incoming atoms exactly those in the box are kept |
| `Exchange.StepCount` | apps/miniMD_OpenCL/comm.cpp:352-431 | What a process holds after one dimension: its own atoms of the box, and those of its neighbours that lie in it, counted once even with two processes |
| `Exchange.OneBox` | apps/miniMD_OpenCL/comm.cpp:127-134 | A coordinate lies in at most one box |
| `Exchange.NearOnce` | apps/miniMD_OpenCL/comm.cpp:394-417 | An atom in the box or next to it is claimed by one process only |
| `Exchange.StepConserves` | apps/miniMD_OpenCL/comm.cpp:352-431 | One dimension, arrays large enough: it never adds copies of an atom, and keeps their number if and only if each holder is in the atom's box or next to it |
| `Exchange.ExchangeConserves` | apps/miniMD_OpenCL/comm.cpp:337-432 | `exchange`, arrays large enough, keeps an atom if and only if, in each dimension, whoever holds it at the start is in its box or next to it |
| `Exchange.ExchangePlaces` | apps/miniMD_OpenCL/comm.cpp:337-432 | After `exchange` every atom is inside the half-open box of its holder |
| `Exchange.LostExample` | apps/miniMD_OpenCL/comm.cpp:394-430 | Four processes in a row: an atom two boxes from its holder is lost |
| `Storage.PutAllKeeps` | apps/miniMD_OpenCL/atom.cpp:67-80 | Storing entries keeps those there are while there is room; beyond it everything the array held is gone |
| `Storage.KeptExactly` | apps/miniMD_OpenCL/atom.cpp:67-80 | So entries are kept, whatever fresh memory holds, if and only if there is room for all |
| `Storage.OverflowExample` | apps/miniMD_OpenCL/atom.cpp:67-80 | One more atom than 320000: of the first 320000 none survives |
| `Stored.Same` | apps/miniMD_OpenCL/comm.cpp:352-431 | With the arrays the processes really have: as long as no count passes their size, every process holds what the ideal machine says |
| `Stored.ExchangeKept` | apps/miniMD_OpenCL/comm.cpp:337-432 | After `exchange` every process has what it should have, whatever fresh memory holds, if and only if no count passes the size of the arrays in any dimension |
| `Stored.AllConserved` | apps/miniMD_OpenCL/comm.cpp:337-432 | `exchange` neither loses nor duplicates any atom, whatever fresh memory holds, if and only if no count passes the size of the arrays and, in each dimension, whoever holds an atom at the start is in its box or next to it |
| `Stored.OverflowLoses` | apps/miniMD_OpenCL/comm.cpp:337-432 | Two processes, all atoms within reach, one process at its 320000: atoms are lost or made up |
| `Migration.EnforcePbc` | apps/miniMD_OpenCL/atom.cpp:107-117 | The loop wraps every own atom in place |
| `Migration.FillHoles` | apps/miniMD_OpenCL/comm.cpp:376-392 | The in-place loop packs the leavers and keeps the rest, in the order the model says |
| `Migration.GrowArray` | apps/miniMD_OpenCL/atom.cpp:67-80 | A larger array with nothing copied into it |
| `Migration.UnpackExchange` | apps/miniMD_OpenCL/atom.cpp:225-237 | An atom is stored at index n, after the arrays have been replaced if n is their size |
| `Migration.TakeIn` | apps/miniMD_OpenCL/comm.cpp:419-430 | The in-place loop appends the accepted atoms, growth of the arrays included |
| `Migration.ExchangeDimension` | apps/miniMD_OpenCL/comm.cpp:352-431 | One dimension of one process, given what the neighbours send |
| `Migration.ExchangeAtoms` | apps/miniMD_OpenCL/comm.cpp:337-432 | `exchange` of one process, given what the others send, ends with its part of the machine's outcome, growth of the arrays included, and has sent what they rely on |
| `Bins.BinCovers` | apps/miniMD_OpenCL/neighbor.cpp:256-281 | Which interval a bin holds; an exact negative multiple of the bin size falls one bin lower |
| `Bins.GapBelow` | apps/miniMD_OpenCL/neighbor.cpp:418-444 | Per axis `bindist` never exceeds the distance between atoms of the two bins |
| `Bins.GapTight` | apps/miniMD_OpenCL/neighbor.cpp:418-444 | And no larger bound would be right: two bins that far apart hold atoms as close to it as one likes |
| `Bins.NextReach` | apps/miniMD_OpenCL/neighbor.cpp:378-383 | The stencil extends at least FACTOR * cutneigh |
| `Bins.NearBins` | apps/miniMD_OpenCL/neighbor.cpp:378-400 | Coordinates closer than the stencil extends are at most that many bins apart |
| `Bins.HeldInRange` | apps/miniMD_OpenCL/neighbor.cpp:334-364 | Every atom held falls strictly inside the range of bins |
| `Bins.StencilInRange` | apps/miniMD_OpenCL/neighbor.cpp:352-364 | Stencil bins of owned atoms stay inside the range, whose highest bin can be reached |
| `Stencil.BinDistBelow` | apps/miniMD_OpenCL/neighbor.cpp:418-444 | `bindist` is a lower bound of the squared distance of atoms in the two bins |
| `Stencil.Dist2Is` | apps/miniMD_OpenCL/neighbor_kernel.h:62 | The squared distance the kernel compares is dx*dx + dy*dy + dz*dz |
| `Stencil.ScannedFactor` | apps/miniMD_OpenCL/neighbor.cpp:391-400 | Every pair closer than FACTOR * cutneigh is scanned |
| `Stencil.ScannedExact` | apps/miniMD_OpenCL/neighbor.cpp:378-400 | Every pair closer than cutneigh is scanned if and only if the stencil stops short in no dimension |
| `Stencil.ShortExample` | apps/miniMD_OpenCL/neighbor.cpp:378-383 | One bin, period 0.9995 and cutneigh 1: the stencil does stop short |
| `Stencil.Missed` | apps/miniMD_OpenCL/neighbor.cpp:378-400 | For every short stencil, two atoms closer than cutneigh that are not scanned |
| `Stencil.FlatRange` | apps/miniMD_OpenCL/neighbor.cpp:256-281 | Flattened bins lie in 0 .. mbins - 1, and which one is the last |
| `Stencil.FlatInjective` | apps/miniMD_OpenCL/neighbor.cpp:391-400 | Offsets less than a row apart flatten to different numbers |
| `Stencil.StencilDistinct` | apps/miniMD_OpenCL/neighbor.cpp:391-400 | Different stencil offsets flatten to different numbers |
| `Stencil.MeetsBin` | apps/miniMD_OpenCL/neighbor_kernel.h:57-60 | Of all stencil offsets exactly one, the offset between the two bins, leads from an owned atom's bin to another atom's bin |
| `Stencil.HeldBin` | apps/miniMD_OpenCL/neighbor.cpp:256-281 | The bin of every atom held is a valid index |
| `Stencil.ScanInRange` | apps/miniMD_OpenCL/neighbor_kernel.h:55-58 | All bins the scan visits are in 0 .. mbins - 1 if and only if no owned atom can reach the far corner bin, because coord2bin adds 1 |
| `Stencil.CorneredExample` | apps/miniMD_OpenCL/neighbor.cpp:352-364 | A configuration in which the scan does read index mbins |
| `Lists.FlatOrder` | apps/miniMD_OpenCL/neighbor.cpp:391-400 | The three loops produce flattened offsets in increasing order |
| `Lists.BuildStencil` | apps/miniMD_OpenCL/neighbor.cpp:391-400 | The three loops list exactly the flattened offsets of the bins closer than cutneigh, once each, in increasing order |
| `Binning.Device.Claim` | apps/miniMD_OpenCL/neighbor_kernel.h:76-112 | A work item up to its atomic_add |
| `Binning.Device.Store` | apps/miniMD_OpenCL/neighbor_kernel.h:113-114 | A work item after its atomic_add |
| `Binning.RunKeeps` | apps/miniMD_OpenCL/neighbor_kernel.h:76-117 | Every interleaving of the work items keeps slots and counters matched |
| `Binning.Outcome` | apps/miniMD_OpenCL/neighbor_kernel.h:76-117 | Parallel binning: whatever the schedule, bincount[b] ends as the number of atoms of b, the flag is raised exactly if some bin overflows, and otherwise the first bincount[b] slots of b list exactly its atoms |
| `Binning.Device.constructor` | apps/miniMD_OpenCL/neighbor.cpp:224-229 | The buffers and counters as set before a launch |
| `Binning.Device.Launch` | apps/miniMD_OpenCL/neighbor.cpp:230-240 | A whole launch, in any order |
| `Binning.BinAtoms` | apps/miniMD_OpenCL/neighbor.cpp:221-249 | The resize loop stops, before the bins hold twice as many atoms as there are, and its last launch has binned every atom |
| `Lists.Output.ScanBin` | apps/miniMD_OpenCL/neighbor_kernel.h:58-65 | The inner loop stores exactly the accepted atoms of one bin, in order, in the column of the work item |
| `Lists.Output.Scan` | apps/miniMD_OpenCL/neighbor_kernel.h:45-73 | A work item stores its whole list in its column, its length, and raises the flag exactly if it is too long |
| `Lists.FilledReads` | apps/miniMD_OpenCL/neighbor_kernel.h:62 | Reading a column back gives the list that was stored |
| `Lists.FilledElsewhere` | apps/miniMD_OpenCL/neighbor_kernel.h:62 | Work items store in different columns, and do not disturb each other |
| `Neighbor.AllReadable` | apps/miniMD_OpenCL/neighbor_kernel.h:55-60 | The scan reads nothing outside its arrays if and only if no stencil bin of an owned atom lies outside 0 .. mbins - 1 |
| `Neighbor.CornerlessInside` | apps/miniMD_OpenCL/neighbor_kernel.h:55-58 | That is so for all atoms a process can own if and only if none of its positions reaches the far corner bin |
| `Neighbor.FoundCount` | apps/miniMD_OpenCL/neighbor_kernel.h:55-67 | After k stencil bins an atom has been found as often as the offset of its bin was among them |
| `Neighbor.ListExact` | apps/miniMD_OpenCL/neighbor_kernel.h:45-73 | Cell list against all pairs: an atom is listed, once, if and only if it is another one, dx*dx + dy*dy + dz*dz is at most cutneigh squared, and the stencil meets its bin |
| `Neighbor.ListLength` | apps/miniMD_OpenCL/neighbor_kernel.h:69-71 | A list is shorter than the number of atoms |
| `Neighbor.BufferFits` | apps/miniMD_OpenCL/neighbor_kernel.h:62-71 | Without the flag every store was inside the buffer |
| `Neighbor.Launch` | apps/miniMD_OpenCL/neighbor.cpp:125-138 | A whole launch of the scan, in any order |
| `Neighbor.GrownLarger` | apps/miniMD_OpenCL/neighbor.cpp:183 | Growing by half, cut off to an integer, does grow from 100 on |
| `Neighbor.ScanUntilFit` | apps/miniMD_OpenCL/neighbor.cpp:118-188 | The regrow loop stops, before lists are half as long again as the number of atoms, with all lists fitting |
| `Neighbor.Neighbor.constructor` | apps/miniMD_OpenCL/neighbor.cpp:299-414 | The initial sizes: 100 neighbours, 8 atoms per bin |
| `Neighbor.Neighbor.Bin` | apps/miniMD_OpenCL/neighbor.cpp:194-250 | `binatoms` hands the scan what it relies on |
| `Neighbor.Neighbor.Build` | apps/miniMD_OpenCL/neighbor.cpp:81-190 | `build`, unless a scan would read outside the bins, leaves for every owned atom exactly its list, by coordinates as above, in bounds, and sizes stay bounded by the number of atoms |
| `Reneighbor.HeldNamed` | apps/miniMD_OpenCL/comm.cpp:337-432 | What a process holds after `exchange` is one of the wrapped input atoms |
| `Reneighbor.Holder` | apps/miniMD_OpenCL/comm.cpp:337-432 | After `exchange` each atom is held by one process, once, and lies in its box only |
| `Reneighbor.OwnedAfter` | apps/miniMD_OpenCL/comm.cpp:337-432 | `exchange` hands `borders` what it relies on |
| `Reneighbor.GridValid` | apps/miniMD_OpenCL/neighbor.cpp:327-364 | The bins of every process's box are as `build` requires |
| `Reneighbor.BordersHeld` | apps/miniMD_OpenCL/comm.cpp:443-539 | `borders` hands `build` what it relies on |
| `Reneighbor.ListImages` | apps/miniMD_OpenCL/neighbor.cpp:81-190 | The list of an owned atom against all atoms and all period shifts: an image occurs, once, if and only if it is another image within cutneigh in a bin the stencil meets |
| `Reneighbor.NamedFromStart` | apps/miniMD_OpenCL/comm.cpp:337-432 | The atoms in question are those the processes start with, moved by whole periods and otherwise as they were, and no others |
| `Reneighbor.EndToEnd` | apps/miniMD_OpenCL/integrate.cpp:77-101 | End to end: after exchange, borders and build on any grid, the list, read at n * nlocal + i, names each other image at most once, always if its distance in coordinates is less than FACTOR * cutneigh, always if less than cutneigh unless the stencil stops short, never if more than cutneigh; images are whole periods from where their atoms started |
| `Rebuild.Renew` | apps/miniMD_OpenCL/integrate.cpp:85-94 | `exchange`, `borders` and `build` of one process one after the other, in place, given what the others send, room in all arrays and no scan that can reach the far corner: its lists are those of the end-to-end theorem |
| `Random.Schrage` | apps/miniMD_OpenCL/setup.cpp:496-510 | For every 32-bit seed no intermediate value overflows, and the result is 16807 * seed modulo 2147483647 |
| `Random.Draw` | apps/miniMD_OpenCL/setup.cpp:503-515 | `random` on any 32-bit seed: the state is 16807 * seed modulo 2147483647, and the value times 2147483647 is the state, so in [0, 1) |
| `Random.NextStays` | apps/miniMD_OpenCL/setup.cpp:503-515 | States stay in 0 .. IM - 1; a multiple of IM, and nothing else, leads to 0 |
| `Random.Undo` | apps/miniMD_OpenCL/setup.cpp:503-515 | Multiplying by 1407677000 takes any step back |
| `Random.Permutation` | apps/miniMD_OpenCL/setup.cpp:503-515 | The step is a permutation of 1 .. IM - 1 |
| `Random.StaysApart` | apps/miniMD_OpenCL/setup.cpp:503-515 | Seeds that differ modulo IM have different states after any number of steps |
| `Random.AfterPower` | apps/miniMD_OpenCL/setup.cpp:503-515 | n draws lead to 16807 to the n-th times the seed, modulo 2147483647 |
| `Lattice.NextIsNext` | apps/miniMD_OpenCL/setup.cpp:393-418 | The five carries lead to the very next site of the padded range: none is skipped, none repeated |
| `Lattice.Turn` | apps/miniMD_OpenCL/setup.cpp:393-418 | One turn of the six counters |
| `Lattice.Carries` | apps/miniMD_OpenCL/setup.cpp:356-418 | Every turn brings the walk nearer its end |
| `Lattice.SelectedExactly` | apps/miniMD_OpenCL/setup.cpp:323-374 | The bounds ilo .. khi and the tests pick exactly the crystal's sites whose position is in the box |
| `Lattice.NumbersDistinct` | apps/miniMD_OpenCL/setup.cpp:375 | Site numbers are distinct seeds in 1 .. IM, of which no two agree modulo IM |
| `Lattice.NumbersFit` | apps/miniMD_OpenCL/setup.cpp:375 | They are all 32-bit integers if and only if the crystal has at most 2^31 half-cells |
| `Lattice.DrawSixth` | apps/miniMD_OpenCL/setup.cpp:377-379 | Five draws and one to use lead six states on |
| `Lattice.MakeAtom` | apps/miniMD_OpenCL/setup.cpp:368-389 | The atom of site (i, j, k) is at half a lattice constant times (i, j, k), and its velocity components are the scaled states 6, 12 and 18 steps after the site's number |
| `Lattice.VelocitiesDiffer` | apps/miniMD_OpenCL/setup.cpp:375-387 | Atoms of different sites differ in every component of their velocity |
| `Lattice.AddAtom` | apps/miniMD_OpenCL/atom.cpp:88-101 | An atom is appended; a full array is replaced by a larger one, of which only what is stored later is known |
| `Lattice.CreateAtoms` | apps/miniMD_OpenCL/setup.cpp:312-419 | The walk ends, has met each of the crystal's sites in the box once and no other, and has stored their atoms one by one, growth of the arrays included |
| `Lattice.CreatedExactly` | apps/miniMD_OpenCL/atom.cpp:67-101 | It leaves one atom for each site of even parity in the crystal whose position is in the box, at that position and with that velocity, and nothing else, whatever fresh memory holds, if and only if there are at most 320000 |
| `Lattice.LargeExample` | apps/miniMD_OpenCL/setup.cpp:312-419 | On one process a crystal of 44 * 44 * 44 cells, 340736 atoms, is too large |
| `Lattice.OneOwner` | apps/miniMD_OpenCL/setup.cpp:372-374 | Each site of the crystal is in the box of exactly one process |
| `Lattice.CrystalCount` | apps/miniMD_OpenCL/setup.cpp:316 | The crystal has 4 * nx * ny * nz sites |
| `Lattice.AllCreated` | apps/miniMD_OpenCL/setup.cpp:435-444 | The final check never fails, not even when atoms have been lost: over all processes of any grid exactly 4 * nx * ny * nz atoms are counted |
| `Devices.DistanceLaw` | src/runtime/CLDevice.cpp:665-696 | The table of distances as one rule: 1 within a node and 4 between nodes, plus 1 for each end that is not a CPU, and 0 to itself only; so they are symmetric and below the bound of 10 |
| `Devices.FirstIsNearest` | src/runtime/CLMem.cpp:382-397 | The first least member of a walk that meets every member is a nearest one |
| `Devices.GetNearestLatest` | src/runtime/CLMem.cpp:382-397 | The loop finds a nearest member, if there is any; its bound of 10 never hides one |
| `Commands.Memories.AddLatest` | src/runtime/CLMem.cpp:367-371 | The set grows by the place |
| `Commands.Memories.SetLatest` | src/runtime/CLMem.cpp:373-380 | The set becomes that place |
| `Commands.Command.GetCopyPattern` | src/runtime/CLCommand.cpp:1271-1332 | The eight flags, each from the nodes and the driver contexts of the two places |
| `Devices.PatternFits` | src/runtime/CLCommand.cpp:1303-1326 | Each of the five ways is taken exactly for the nodes and driver contexts it is meant for |
| `Commands.Command.AccessMemOnDevice` | src/runtime/CLCommand.cpp:1450-1455 | A write leaves device_ alone in the set, a read adds it |
| `Commands.Command.CloneMem` | src/runtime/CLCommand.cpp:1340-1433 | The clone is waited for, and its device counts as latest before it has arrived |
| `Commands.Command.LocateMemOnDevice` | src/runtime/CLCommand.cpp:1435-1448 | A clone is ordered from the nearest latest place unless device_ is latest or nothing is |
| `Commands.Command.ChangeDeviceToReadMem` | src/runtime/CLCommand.cpp:1457-1470 | The place to read from; from the host pointer a clone is ordered instead |
| `Commands.Command.ResolveConsistencyOfLaunchKernel` | src/runtime/CLCommand.cpp:923-947 | All arguments are located, in order |
| `Commands.Command.ResolveConsistencyOfReadMem` | src/runtime/CLCommand.cpp:957-983 | The device changes to the nearest latest place |
| `Commands.Command.ResolveConsistencyOfWriteMem` | src/runtime/CLCommand.cpp:985-1019 | A partial write needs the latest contents first |
| `Commands.Command.ResolveConsistencyOfCopyMem` | src/runtime/CLCommand.cpp:1021-1195 | Source and destination are found, and the read that feeds the copy ordered |
| `Commands.Command.UpdateConsistency` | src/runtime/CLCommand.cpp:1228-1253 | The latest sets after the command, by kind |
| `Commands.Command.ResolveConsistency` | src/runtime/CLCommand.cpp:525-666 | One call does to the fields and the latest sets what one step of the transition system does |
| `Sequential.LocateAllIs` | src/runtime/CLCommand.cpp:923-947 | Object by object, what locating all arguments does, repeated arguments included |
| `Sequential.LocateAllKeeps` | src/runtime/CLCommand.cpp:923-947 | Locating keeps every latest place on the current contents |
| `Sequential.ResolveAgain` | src/runtime/CLCommand.cpp:578-666 | The second call of ResolveConsistency only submits |
| `Sequential.CopySource` | src/runtime/CLCommand.cpp:1021-1024 | The place a copy reads from has the current contents of its source |
| `Sequential.ResolveKeeps` | src/runtime/CLCommand.cpp:525-666 | A call of ResolveConsistency that submits nothing harmful keeps the invariant that every latest place holds the current contents, but for clones on their way |
| `Sequential.OnlyNeeded` | src/runtime/CLCommand.cpp:1435-1470 | A clone is ordered only of an object the command names and does not just overwrite, whose latest contents are somewhere but not on its device, and from the nearest place |
| `Sequential.AwaitedFirst` | src/runtime/CLCommand.cpp:1181-1190 | A command is never submitted before a read that it has in its wait list |
| `Sequential.OthersAgree` | src/runtime/CLCommand.cpp:409-419 | If all other devices are latest, a partial write of a read-only object finds the same on all devices |
| `Sequential.SoundHarmless` | src/runtime/CLCommand.cpp:525-666 | A command that fills no part of an object, writes no part of a read-only one and leaves arguments without write flags alone is harmless wherever the latest contents are |
| `OneMemory.CloneKeeps` | src/runtime/CLCommand.cpp:1340-1433 | So does each half of a clone; the write of a clone of a read-only object goes to all devices |
| `OneMemory.FetchKeeps` | src/runtime/CLCommand.cpp:1103-1192 | So does the read that feeds a copy, whose range exists, also when the copy does not wait for it |
| `OneMemory.KernelInputs` | src/runtime/CLCommand.cpp:395-405 | A kernel finds in its arguments what one memory would hold |
| `Runs.StepKeeps` | src/runtime/CLCommand.cpp:395-666 | Every step of the runtime that submits nothing harmful keeps the invariant, and one memory can follow it |
| `Runs.OneMemorySeen` | src/runtime/CLCommand.cpp:525-666 | Coherence: on one in-order queue, whatever the timing and the devices, as long as commands are harmless when they are submitted, every read and every kernel sees what it would see in one memory used in queue order, and between commands every latest place has the current contents |
| `Effects.WritePuts` | src/runtime/CLCommand.cpp:409-422 | Element by element: a write or fill puts its data at its offset and leaves everything else as it was |
| `Effects.CopyPuts` | src/runtime/CLCommand.cpp:424-427 | A copy puts count elements of the source, from its offset there, at its offset in the destination, and leaves everything else as it was |
| `Effects.ReadLogs` | src/runtime/CLCommand.cpp:406-408 | A read returns the elements of its range, in order, and changes no contents |
| `Effects.KernelPuts` | src/runtime/CLCommand.cpp:397-401 | A kernel sees the contents of its arguments, and leaves in them what it computes |
| `Effects.ReadBack` | src/runtime/CLCommand.cpp:406-427 | A read of what has just been written, filled or copied returns it, a read elsewhere in the object what was there before |
| `Runs.SoundRuns` | src/runtime/CLCommand.cpp:525-666 | A program of sound commands has only such runs |
| `Drain.RefusedTwice` | src/runtime/CLCommand.cpp:525-666 | ResolveConsistency answers false at most once for a command, at most twice for a copy |
| `Drain.ResolveBounded` | src/runtime/CLCommand.cpp:525-666 | Each call brings the head nearer its submission |
| `Drain.StepDecreases` | src/runtime/CLScheduler.cpp:666-716 | Every step shortens the queue, brings the head on or finishes part of what it waits for |
| `Drain.Progress` | src/runtime/CLScheduler.cpp:666-716 | While commands are queued some step can be taken |
| `Drain.Drains` | src/runtime/CLScheduler.cpp:666-716 | Every queue can be brought to its end |
| `Limits.FillExact` | src/runtime/CLCommand.cpp:1007-1010 | Treating a fill as one of the whole object is right, for all contents, if and only if it is one, its device is latest, or nothing is |
| `Limits.ReadOnlyWriteExact` | src/runtime/CLCommand.cpp:409-419 | Writing a read-only object to all devices is right, for all contents, if and only if the write is whole or all other devices are latest; if nothing is latest, there must be no other device |
| `Limits.KernelExact` | src/runtime/CLCommand.cpp:1228-1236 | Only adding the device for an argument that is not writable is right, for all contents, if and only if no other place is latest, or the object is empty |
| `Limits.UndefinedWrite` | src/runtime/CLCommand.cpp:409-419 | Writing part of an undefined read-only object leaves two devices latest with different contents: an example |
| `Limits.StaleRead` | src/runtime/CLMem.cpp:601-614 | From the start: a buffer created without access flags counts as not writable, as the default is never set, so a kernel may write it and a later read on another device return the old contents |
| `Queues.StepKeeps` | src/runtime/CLCommandQueue.cpp:371-472 | Every action of hosts, scheduler and devices keeps the invariant of all queues |
| `Queues.PredecessorsOver` | src/runtime/CLCommandQueue.cpp:380-398 | Earlier commands of an in-order queue are over when a later one has been taken |
| `Queues.InOrderSerial` | src/runtime/CLCommandQueue.cpp:371-424 | In-order serialisation: over every interleaving in which commands are enqueued one by one, commands start in the order in which they were enqueued and at most one is in flight |
| `Queues.WaitsKeptTo` | src/runtime/CLCommand.cpp:324-329 | Over every interleaving: whatever events a command was enqueued with, those of user events included, are complete or have failed before it is taken, and so is its predecessor in an in-order queue |
| `Queues.CloneAwaited` | src/runtime/CLCommand.cpp:324-329 | So is every clone that a refused command has been given to wait for |
| `Queues.PeekInOrderExact` | src/runtime/CLCommandQueue.cpp:371-378 | Peek of an in-order queue returns the first command, exactly if everything it waits for is complete or has failed |
| `Queues.PeekExact` | src/runtime/CLCommandQueue.cpp:437-459 | Peek of an out-of-order queue returns the first command of which that is so, a marker or barrier only from the front |
| `Queues.BarrierLast` | src/runtime/CLCommandQueue.cpp:448-452 | No marker or barrier leaves an out-of-order queue while an earlier command is in it |
| `Enqueues.SerialChained` | src/runtime/CLCommandQueue.cpp:391-397 | `Enqueue` takes no lock: entered by one thread at a time, it chains every command to the one in front of it |
| `Enqueues.TwoForOne` | src/runtime/CLCommandQueue.cpp:391-397 | A thread that enters while another has only read last_event_ can chain both commands to the same one |
| `Enqueues.Backwards` | src/runtime/CLCommandQueue.cpp:391-397 | One that enters while another has not yet pushed its command can get in front of it and wait for it |
| `Enqueues.EnterSafely` | src/runtime/CLCommandQueue.cpp:391-397 | Entering is safe, however those in `Enqueue` go on, if and only if no other thread is there |
| `Queues.Progress` | src/runtime/CLCommandQueue.cpp:371-472 | If wait lists name earlier events only, then whenever commands are queued and nothing else is outstanding, some queue's Peek returns one |
| `Queues.PeekKnown` | src/runtime/CLCommandQueue.cpp:371-459 | What Peek returns is queued |
| `Queues.InOrderQueue.Peek` | src/runtime/CLCommandQueue.cpp:371-378 | The first command, if all it waits for is complete or has failed |
| `Queues.InOrderQueue.Enqueue` | src/runtime/CLCommandQueue.cpp:380-409 | The command waits for its predecessor and becomes the last one |
| `Queues.InOrderQueue.Dequeue` | src/runtime/CLCommandQueue.cpp:411-424 | The first command leaves |
| `Queues.OutOfOrderQueue.Peek` | src/runtime/CLCommandQueue.cpp:437-459 | The first command of which that is so, a marker or barrier only from the front |
| `Queues.OutOfOrderQueue.Enqueue` | src/runtime/CLCommandQueue.cpp:461-466 | The command is appended |
| `Queues.OutOfOrderQueue.Dequeue` | src/runtime/CLCommandQueue.cpp:468-472 | The command leaves, the others keep their order |
| `Events.ExactlyOnce` | src/runtime/CLEvent.cpp:172-230 | For every interleaving of falling statuses with registrations no callback is called twice, and in the end exactly those have been called whose status was reached after, or passed at, registration |
| `Events.ReachedExactly` | src/runtime/Callbacks.h:103-120 | Those are the callbacks whose kind the status has got down to, unless it skipped that very kind; completion cannot be skipped |
| `Events.SkipExample` | src/runtime/Callbacks.h:103-120 | An event that goes from submitted straight to complete never calls back for running |
| `Events.StepKeeps` | src/runtime/CLEvent.cpp:172-230 | Every critical section keeps count of the calls each callback has coming |
| `Events.Settles` | src/runtime/CLEvent.cpp:172-230 | Threads inside SetStatus and AddCallback can always finish |
| `Events.WaitersReleased` | src/runtime/CLEvent.cpp:208-220 | No lost wakeup: a thread waits only while the status is not final, and one let go sees a final status, though Wait tests once |
| `Events.UserCalls` | src/runtime/CLEvent.cpp:164-206 | When all threads are through, a completion callback on a user event has been called once for every SetUserEventStatus that got past the test; more than once if and only if at some moment two were between test and write |
| `Events.UserOnce` | src/runtime/CLEvent.cpp:164-206 | If none is entered while another is there, exactly once, when the event is completed |
| `Events.TogetherTwice` | src/runtime/CLEvent.cpp:164-206 | Wherever a run has got to with two of them there together, it can end, and only with two calls or more |
| `Events.RaceRunsTwice` | src/runtime/CLEvent.cpp:164-170 | Two can, as the test is made outside the lock: a run |
| `Events.Event.SetStatus` | src/runtime/CLEvent.cpp:172-206 | Without interference: the callbacks asked for are called, in order |
| `Events.TargetsKept` | src/runtime/CLEvent.cpp:172-206 | Those are exactly the registered callbacks of that kind, in the order of registration |
| `Events.Event.SetUserEventStatus` | src/runtime/CLEvent.cpp:164-170 | Errors for other events and for final ones, which change nothing |
| `Events.Event.AddCallback` | src/runtime/CLEvent.cpp:222-230 | Called at once if the status is no greater than its kind, else registered |
| `Issuers.NoLostWakeup` | src/runtime/CLIssuer.cpp:117-152 | Whatever devices_updated_ was at first, a thread in RemoveDevice implies it is set; and while it is not, the thread's own list is the list |
| `Issuers.Removed` | src/runtime/CLIssuer.cpp:126-152 | Once RemoveDevice has returned and until the device is added again, it is in the issuer's list if and only if it had been added more than once |
| `Issuers.NotServed` | src/runtime/CLIssuer.cpp:157-179 | And no command of it is started |
| `Issuers.CanReturn` | src/runtime/CLIssuer.cpp:145-156 | A thread in RemoveDevice can still return if and only if the issuer will look at devices_updated_ again: it has not been started, has not been told to stop, or has passed that test in this turn |
| `Issuers.Stuck` | src/runtime/CLIssuer.cpp:145-156 | Otherwise it waits for ever, whatever the others do |
| `Issuers.WaitsForEver` | src/runtime/CLIssuer.cpp:145-156 | From the start: Stop, then RemoveDevice |
| `Issuers.ReturnsAfterStop` | src/runtime/CLIssuer.cpp:154-162 | From the start: the issuer has passed the test of thread_running_, RemoveDevice waits, Stop is called, and the thread still returns |
| `Issuers.WalkCrashes` | src/runtime/CLIssuer.cpp:91-107 | When Stop walks over the list it follows a null pointer if and only if some thread is waiting in RemoveDevice |
| `Issuers.StopCrashes` | src/runtime/CLIssuer.cpp:91-107 | From the start: a run in which it does |
| `Issuers.EachJobOnce` | src/runtime/CLIssuer.cpp:157-197 | No command is lost, started twice, completed twice, or started out of the order of its device's ready queue |
| `Issuers.StillAsked` | src/runtime/CLIssuer.cpp:181-193 | A device that is in neither list can still be asked whether a command is complete, before it is added again, if and only if one of its commands is running that the thread will yet poll |
| `Issuers.NeverAsked` | src/runtime/CLIssuer.cpp:181-193 | And once that is not so it never is |
| `Issuers.AskedAfterReturn` | src/runtime/CLIssuer.cpp:126-193 | From the start: RemoveDevice has returned, and the thread will ask the device |
| `Issuers.Issuer.AddDevice` | src/runtime/CLIssuer.cpp:117-124 | Appended and flagged; a blocking issuer ignores it |
| `Issuers.Issuer.RemoveDevice` | src/runtime/CLIssuer.cpp:126-150 | The first entry of the device becomes null, and whether the caller waits |
| `Issuers.ClearAt` | src/runtime/CLIssuer.cpp:130-134 | The entry that becomes null is the first one of the device |
| `Issuers.Issuer.Refresh` | src/runtime/CLIssuer.cpp:154-164 | Gaps are squeezed out in order and the list copied |
| `Issuers.CompactKept` | src/runtime/CLIssuer.cpp:154-164 | What stays is every device of the list, in order, and no gap |
| `Issuers.Issuer.Poll` | src/runtime/CLIssuer.cpp:181-193 | The complete commands leave the list, the others keep their order |
| `Issuers.ThoseKept` | src/runtime/CLIssuer.cpp:181-193 | The finished commands are exactly the complete ones, and those left exactly the others, in order |
| `Issuers.ThoseSplit` | src/runtime/CLIssuer.cpp:181-193 | That pass loses and doubles none |

## Left out

- Floating-point rounding: all coordinates are exact reals, and `(int)` cuts off toward zero. 32-bit
  overflow is modelled in the generator and required not to happen in site numbers; elsewhere
  integers are unbounded.
- MPI: a send and its receive are one synchronous swap. The method of one process is proved under
  the assumption that its neighbours send what the machine model says they do, and is shown to send
  what they rely on; deadlock of blocking sends is not modelled.
- Message buffers and lists that grow (growsend, growrecv, growlist) are sequences without bound, and
  the flat device copy of the send lists with its stride is a list per swap. The arrays of atoms do
  grow, to what fresh memory holds; a failed allocation is not modelled.
- Borders.BordersExact: is about arrays that are large enough; `Ghosts.GhostsComplete` is the same for
  arrays of any size.
- Exchange.StepConserves: is about arrays that are large enough.
- Exchange.ExchangeConserves: likewise; `Stored.AllConserved` is the same for arrays of any size.
- Neighbor.Neighbor.Build: requires that no scan reads outside the bins, which is undefined in C;
  `Neighbor.AllReadable` and `Stencil.ScanInRange` say exactly when that is so.
- Rebuild.Renew: requires room in all arrays and no scan that can reach the far corner; the two exact
  conditions and `Neighbor.CornerlessInside` say what happens otherwise.
- Names of atoms (`id`) and period counts (`Tag`) exist in the model only; no branch looks at them.
- GPU transfers and the host loops of `Neighbor::build` that never run. Work items of
  `neighbor_build` are interleaved whole: they share nothing but the flag, which only rises.
- `neighbor_build` stores before it tests `maxneighs`; the buffer is a map here, and a launch that
  ends with the flag raised promises nothing about what is stored.
- Forces, integration, thermo output, `create_velocity`, and the rank and file parts of setup.
- Out-of-order barriers with unsatisfied wait lists: `Peek` skips them, as the code does, and no
  ordering is claimed for them.
- Which device a command gets (EstimatedCost, SelectBestDevice): any device, fixed while the command
  is resolved.
- Images, rectangles, sub-buffers, maps, migration, native kernels and cluster collectives; a send
  and receive between nodes is a read that feeds the write. LATEST_HOST is taken to have no driver
  context, as the table in `GetCopyPattern` does, although the code looks at its context first.
- Class `Commands.Memories` keeps all CLMem objects in one table of values, so that two names of one
  object, and its mutex, are not captured; the buffers and device handles of a copy are not modelled.
- Coherence across several queues without events between them: a clone's device counts as latest
  before the clone has arrived, so it does not hold there.
- Coherence of objects whose contents are undefined: an object has no contents in the one memory
  until it is first written, read or given to a kernel; a copy from such an object leaves its
  source undefined.
- Zero-size reads that complete at once, error status of commands in `Runs`, the `commands_` list
  that in-order queues keep beside their queue, and the retain and release of all objects.
- Submit and Dequeue of the scheduler are one step in `Queues`, as one thread does both.
- Time stamps of events, the argument checks of the API (which reject every user callback, as the
  three tests in clSetEventCallback are joined by "or"), and spurious wakeups of `Wait` and
  `RemoveDevice`.
- The loop of a blocking issuer, which serves one device and waits on its semaphore; several callers
  of Stop, and a second Start after it.
- Queues.InOrderSerial: takes Enqueue as one step, as it is when threads enter it one by one;
  `Enqueues.EnterSafely` says what happens otherwise.
- `LockFreeQueueMS` is an unbounded queue.
