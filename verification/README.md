# Verification of libaudio and libgralloc

A Dafny 4.11 model of three parts of the device libraries, with proofs of what they promise. `dafny verify
dfyconfig.toml` checks the whole project.

**The capture down-sampler** (`libaudio/FixedPoint` to `libaudio/Capture`, and `StereoOutput`).
`DownSampler::resample` turns captured 44100 Hz frames into 22050, 16000, 11025 or 8000 Hz. It works in arrays of
1024 samples, with five counters, and hands out slices of any size from chunks of any size.
`RateStages` and `Cascade` say what it must equal: whole-stream convolution, halving and interpolation. The arrays,
loops and moves are in `Resampler` and `DownSampler`, proved against that, with 32-bit arithmetic throughout.
`FilterLaws` says what the reference does to a signal: nearest rounding, the place of every sample, the gain, the rate.
`Capture` has the capture stream as a buffer provider and the mixer that averages stereo frames in place;
`CaptureSession` plugs all of it together, from the driver to the application, through failures and reopenings, and
`SteadyCapture` says what an application gets of a steady signal.

**The graphics memory allocator** (`libgralloc/Chunks` to `libgralloc/Gralloc`). `SimpleBestFitAllocator` keeps a
doubly linked list of chunks. `ChunkList` and `Allocator` have the nodes and pointers; a ghost sequence of blocks is
their value, on which `Chunks` and `ChunkOps` prove best fit, completeness, coalescing and that the list is determined
by the live blocks. `Gralloc` is its client: buffers, with every failure path.

**Two concurrency protocols**, as state machines over the interleaved steps of any number of threads. `LockWord` and
the `BufferLock` files are the compare-and-swap readers/writer lock with lazy mapping in `mapper.cpp`. `AudioHandles`,
`HandleLaws` and the `Handshake` files are the handshake in which `setMode`, `write`, `read`, `standby` and
`setParameters` put each other's streams in standby, with the reference-counted PCM and mixer handles.

## What turned out not to hold

Each of these comes with the exact condition, and with a run or inputs that show it.

- With two channels a pass of `resample` overwrites frames that were written before it in the same call, so only a
  call whose frames all come in one part hands out what it should (`StereoOutput.CallDeliversIff`,
  `StereoOutput.StereoCallIff`). The end-to-end claim is therefore about one channel.
- A `read` that the driver fails returns none of the frames it has already got, and the next one starts a new stream:
  all that an application gets is one stream if and only if the driver has not failed before its last read
  (`CaptureSessions.CaptureAll`, `CaptureSessions.OneStreamIff`).
- When an earlier failure has left its status and the buffer still has frames, the mixer lends them unmixed
  (`Capture.ChannelMixer.GetNextBuffer`); `read` clears the status first, so it does not meet this.
- The shifted taps sum to 16390 and 16386, not to 2^14, so a constant signal comes out at its level if and only if that
  is at most 1365 or full scale, and otherwise up to 28 further from zero (`FilterLaws.ConstantComesThrough`).
- `resample_441_320` with fewer than 23 samples computes a huge block count (`Resampler.RawBlocksExact`); a first chunk
  of 64 or 146 frames prevents it (`Cascade.EnoughIsExact`), and the first period has 1024.
- A lock call whose mapping is refused an address returns an error but keeps the lock
  (`BufferLockTheorems.ErrorKeepsLockIff`, `BufferLockTheorems.FailedMappingLeavesLocked`).
- `setMode` means to put an active output in standby when a call begins. While it waits for the input's mutex,
  `write` can wake the output, and then it is left active (`HandshakeTheorems.CallSilences`,
  `HandshakeRace.CallLeavesOutputActive`).
- It silences one input. The comment in `getActiveInput_l` says only one can be active, but `read` never looks at the
  other inputs, and several can (`HandshakeTheorems.CallSilences`, `HandshakeRace.CallLeavesInputActive`).
- Two threads that read the same input can both see it in standby and open it one after the other: the input's mutex
  is let go while waiting for the output, and standby is not looked at again. If the second open succeeds the mixer is
  counted once too often (`HandshakeAccounts.RunCountsIff`, `HandshakeRace.TwoReadersUnbalance`); if it fails the counts
  stay right, but the input is active without a PCM (`HandshakeAccounts.RunPowersIff`, `HandshakeRace.TwoReadersLosePcm`).
- `setMode` does not look at whether its own opens succeed; after a failed one the counts are wrong
  (`HandshakeAccounts.RunCountsIff`, `AudioHandles.FailedOpenMiscounts`).
- A request of more than 2^32 - 32 bytes wraps around to no units at all and leaves a live block of size 0 in the list
  (`Allocators.AllocationKeepsListIff`).

## Model

| member | source | states |
|---|---|---|
| `FixedPoint.FirConvolve` | libaudio/AudioHardware.cpp:2046-2053 | the loop, with every product and every partial sum held in 32 bits, computes the rounded convolution of the whole window |
| `FixedPoint.PartialSumsFit` | libaudio/AudioHardware.cpp:2046-2053 | for any samples and any filter whose shifted taps have magnitudes summing to at most 65535, no product and no partial sum of the convolution leaves 32 bits |
| `FixedPoint.FiltersFit` | libaudio/AudioHardware.cpp:2027-2112 | both filter tables are such filters; the shifted taps of the 16 kHz filter have magnitudes summing to at most 27698 and differ from each to the next by at most 32730 in all |
| `FixedPoint.SlideBound` | libaudio/AudioHardware.cpp:2150-2157 | when the window slides by one sample the change of the convolution is bounded by the summed differences of neighbouring taps, not by twice its magnitude |
| `FixedPoint.NeighbourBound` | libaudio/AudioHardware.cpp:2150-2157 | two neighbouring outputs of the 16 kHz filter differ by at most 65461, for all samples |
| `FixedPoint.FirBound` | libaudio/AudioHardware.cpp:2046-2053 | a single output of the 16 kHz filter is at most 55397 in magnitude, which alone would not keep the product below 2^31 |
| `FixedPoint.InterpolationFits` | libaudio/AudioHardware.cpp:2150-2157 | the difference, the product with the fraction and the sum of the interpolation all fit 32 bits, for any 25 neighbouring samples and any fraction |
| `FixedPoint.Fir` | libaudio/AudioHardware.cpp:2046-2053 | one filter output is the integer nearest to the convolution over 2^14, halves going up |
| `FilterLaws.DotImpulse` | libaudio/AudioHardware.cpp:2046-2053 | a single sample contributes its product with its own tap, shifted right by 16, and meets no other tap |
| `FilterLaws.DotMixes` | libaudio/AudioHardware.cpp:2046-2053 | the convolution of the sum of two signals is the sum of their convolutions |
| `FilterLaws.ClipIsNearest` | libaudio/AudioHardware.cpp:2056-2065 | clipping gives the nearest 16-bit sample, and leaves alone what is one |
| `FilterLaws.BlendIsBetween` | libaudio/AudioHardware.cpp:2152-2157 | interpolation lies between its two samples, less than one step below the straight line, and is then clipped |
| `FilterLaws.HalveImpulse` | libaudio/AudioHardware.cpp:2073-2090 | an isolated sample reaches exactly the outputs of the halving stage whose window holds it, each scaled by the tap it meets, rounded to nearest and clipped |
| `FilterLaws.InterpolateImpulse` | libaudio/AudioHardware.cpp:2139-2157 | the same for the 441 to 320 stage, between the two filter outputs at the place where an output is read |
| `FilterLaws.StepIsNearest` | libaudio/AudioHardware.cpp:2147-2148 | the step is the fixed-point number nearest to 441/320: no other is as near |
| `FilterLaws.ReadInPlace` | libaudio/AudioHardware.cpp:2147-2154 | output q is read at 441/320 of q, or before that by less than 1/256 of a sample, for every q |
| `FilterLaws.ConstantComesThrough` | libaudio/AudioHardware.cpp:2027-2165 | at each of the four rates a constant signal comes out constant: exactly at its level if and only if that is at most 1365 in magnitude or full scale, and otherwise further from zero by at most 12, 24, 16 or 28, as the tap sums 16390 and 16386 say |
| `FilterLaws.RateIsKept` | libaudio/AudioHardware.cpp:2262-2370 | 44100 frames of input make hz frames of output: the count never gets ahead of the rate and stays within a fixed lag of it |
| `RateStages.HalveSplit` | libaudio/AudioHardware.cpp:2073-2090 | cutting the stream anywhere, with the unconsumed samples carried over, changes neither the outputs of the halving stage nor the samples it keeps |
| `RateStages.InterpolateSplit` | libaudio/AudioHardware.cpp:2131-2165 | the same for the 441 to 320 stage, whose interpolation restarts at each block |
| `RateStages.WindowInside` | libaudio/AudioHardware.cpp:2149-2157 | every output of a block reads its two filtered samples inside the block's 441, and both windows inside the stage's input |
| `Resampler.Halver` | libaudio/AudioHardware.cpp:2073-2090 | resample_2_1 in place: writes exactly the halved stream of the first n samples at the given position, leaves the unconsumed suffix at the front of its input, and returns both counts |
| `Resampler.BlockConverter` | libaudio/AudioHardware.cpp:2131-2165 | resample_441_320 in place: converts exactly the whole blocks, in 32-bit arithmetic, and leaves the unconsumed suffix at the front of its input |
| `Resampler.ConvertBlock` | libaudio/AudioHardware.cpp:2139-2159 | one block: all 320 outputs are those of the reference stage and no earlier output changes |
| `Resampler.RawBlocksExact` | libaudio/AudioHardware.cpp:2133 | the block count, computed with an unsigned subtraction, is the intended one if and only if there are at least 23 samples; below that it is 9739154 |
| `Resampler.MoveToFront` | libaudio/AudioHardware.cpp:2087-2089 | the overlapping move brings exactly the kept samples to the front and changes nothing behind them |
| `Cascade.FeedRefines` | libaudio/AudioHardware.cpp:2262-2370 | a pass over the buffers left behind by the stream x and a new chunk leaves behind what x followed by the chunk would, and makes exactly the output that is new, at each of the four rates |
| `Cascade.FeedAllIsOutput` | libaudio/AudioHardware.cpp:2262-2370 | any number of passes over any chunks together make the reference cascade of the concatenated chunks |
| `Cascade.ChunkingDoesNotMatter` | libaudio/AudioHardware.cpp:2262-2370 | two ways of cutting the same stream give the same output and the same kept samples |
| `Cascade.HoldBounds` | libaudio/AudioHardware.cpp:2265-2353 | between passes at most 19 input samples and at most 463 samples in each intermediate buffer are kept, whatever the stream |
| `Cascade.EnoughIsExact` | libaudio/AudioHardware.cpp:2133 | a first chunk gives the interpolating stage its 23 samples if and only if it has 64 frames at 16 kHz, 146 at 8 kHz |
| `Cascade.PassIsSafe` | libaudio/AudioHardware.cpp:2313-2345 | once the first chunk was long enough, the interpolating stage never again finds fewer than 23 samples |
| `Cascade.DueIsExact` | libaudio/AudioHardware.cpp:2262-2370 | the cascade makes more output exactly when the input reaches a certain length, and until then that length stays where it is |
| `Cascade.SilentPassProgress` | libaudio/AudioHardware.cpp:2262-2370 | a pass that takes in something and makes nothing brings the next output strictly nearer, so that the loop ends |
| `DownSamplers.DownSampler.Resample` | libaudio/AudioHardware.cpp:2221-2373 | resample on its five counters and its arrays of 1024 samples: whatever was asked before and however the provider chunks or fails, what has been handed out followed by what is pending is the reference cascade of the input since the reset; the call is cut short exactly when the provider fails, returns its status then, writes nothing else, and ends |
| `DownSamplers.DownSampler.ReadyMeansPrefix` | libaudio/AudioHardware.cpp:2221-2373 | in any state between calls all that was handed out is a prefix of the reference cascade of the concatenated input: nothing lost, repeated or reordered |
| `DownSamplers.DownSampler.EndToEnd` | libaudio/AudioHardware.cpp:2221-2373 | with the mixer and its capture stream, all that was handed out is a prefix of the reference cascade of the averages of what the driver has delivered since the open |
| `DownSamplers.DownSampler.Rounds` | libaudio/AudioHardware.cpp:2262-2370 | the loop over passes, ending because each round delivers frames, fails, or brings the next output nearer |
| `DownSamplers.DownSampler.Convert` | libaudio/AudioHardware.cpp:2289-2351 | the conversion of one pass at each rate is the pass of the cascade on the buffers, and no index leaves any array |
| `DownSamplers.DownSampler.PassMeetsSpecification` | libaudio/AudioHardware.cpp:2289-2351 | a pass from the buffers of x leads to the buffers of x and the chunk, within the array bounds |
| `DownSamplers.DownSampler.Fill` | libaudio/AudioHardware.cpp:2265-2286 | the provider's frames are appended to the input buffer in order and within 1024 samples; a failure changes nothing |
| `DownSamplers.DownSampler.Deliver` | libaudio/AudioHardware.cpp:2246-2260 | frames still pending from an earlier pass are handed out in order and none is lost |
| `DownSamplers.DownSampler.Reset` | libaudio/AudioHardware.cpp:2211-2218 | after reset the output stream starts afresh: nothing buffered, nothing pending, nothing delivered |
| `DownSamplers.DownSampler.constructor` | libaudio/AudioHardware.cpp:2168-2197 | the object is usable exactly at the four supported rates, with separate buffers of 1024 samples and the two filter tables |
| `BufferProviders.BufferProvider.GetNextBuffer` | libaudio/AudioHardware.h:318-335 | what resample relies on, proved of the mixer on its capture stream and of any other provider: a failure, which with the mixer is the driver's, or between one and as many frames as asked, and enough of them first after an open; what the mixer has lent and given are the averages of the captured frames, in order |
| `BufferProviders.BufferProvider.Reopen` | libaudio/AudioHardware.cpp:1809-1843 | open_l: the stream of frames starts afresh with an empty buffer, or nothing changes when the PCM does not open |
| `StereoOutput.WriteFrames` | libaudio/AudioHardware.cpp:2354-2365 | the two loops that end a pass with two channels compute one stated buffer: interleaved frames over the copy made for one channel |
| `StereoOutput.CallDeliversIff` | libaudio/AudioHardware.cpp:2246-2365 | for a whole call with two channels, whatever the samples: the caller finds all the frames, left and right in turn, if and only if at most one of the parts written, the pending one and one for each pass, is not empty |
| `StereoOutput.PassMakes` | libaudio/AudioHardware.cpp:2289-2351 | how much a pass makes depends only on how much has come in, so it is the same for both channels |
| `StereoOutput.StereoCallIff` | libaudio/AudioHardware.cpp:2243-2370 | in the caller's terms: after any input and with any chunks, of the calls that are met in full exactly those are right that are met from what was pending or, with nothing pending, ask for no more than the first pass that makes anything |
| `StereoOutput.FreshCallIff` | libaudio/AudioHardware.cpp:2262-2370 | for the first call after an open, with the periods the capture stream delivers: up to 503 frames at 22050 Hz, 242 at 11025 Hz, and 320 at 16000 and 8000 Hz, where at the last rate the leading passes make nothing |
| `Capture.CaptureStream.GetNextBuffer` | libaudio/AudioHardware.cpp:1940-1965 | getNextBuffer: the frames lent are the next ones of all the driver has delivered since the open, a period is read exactly when the buffer is empty, and the status is the driver's, NO_INIT without a PCM, or, for a request served from the buffer, whatever was left there |
| `Capture.CaptureStream.Open` | libaudio/AudioHardware.cpp:1809-1843 | only a stream with a down-sampler, and only once its PCM has opened, starts afresh; otherwise samples captured before are kept |
| `Capture.Average` | libaudio/AudioHardware.cpp:2413-2416 | half of the sum of the two channels, rounded toward zero, for either sign |
| `Capture.AverageIsFair` | libaudio/AudioHardware.cpp:2413-2416 | the two channels count the same, equal ones come through, and the result lies between them |
| `Capture.ChannelMixer.MixInPlace` | libaudio/AudioHardware.cpp:2398-2425 | averaging pairs in place yields for every original pair the sample halfway between its two, rounded toward zero, clobbers no pair not yet read and touches nothing behind the request |
| `Capture.ChannelMixer.GetNextBuffer` | libaudio/AudioHardware.cpp:2398-2425 | as a provider the mixer lends, for any request size, the averages of exactly the next captured pairs, and leaves the rest of the period as the driver delivered it; frames are lent unmixed exactly when an earlier failure has left its status and the buffer is not empty |
| `Capture.ChannelMixer.Mix` | libaudio/AudioHardware.cpp:2427-2462 | mix delivers the averages of the next pairs, each halfway between the two captured samples, in order and once each over any number of periods, writes nothing else, and is cut short exactly when it returns an error |
| `CaptureSessions.Fetch` | libaudio/AudioHardware.cpp:1712-1737 | one call of resample serves a whole read: the frames are all there exactly if no status is left, so the loop of read never repeats |
| `CaptureSessions.Open` | libaudio/AudioHardware.cpp:1809-1843 | after open_l the first period is full, which is enough for every rate |
| `CaptureSessions.CaptureSession.Read` | libaudio/AudioHardware.cpp:1661-1762 | a read of an input in standby opens it, NO_INIT if that fails, and begins a new piece after the reads made so far; a read returns all the frames asked for, which extend the last piece, or, exactly if the driver failed it, the driver's status and none, and after any error the input is closed and in standby |
| `CaptureSessions.CaptureSession.Renew` | libaudio/AudioHardware.cpp:1299-1322 | when write wakes the output the input is closed and opened again, which begins a new piece after the reads made so far, or is left in standby |
| `CaptureSessions.CaptureAll` | libaudio/AudioHardware.cpp:1542-1843 | driver, capture stream, mixer and down-sampler together: for any driver and rate and any reads, standbys and reopenings, whatever fails, what is returned between one successful open and the next is, after every event, a prefix of the reference cascade of the averages of what the driver delivered since that open and before the next; which open and which answers these are is read off the events alone; a read of an open input returns all it asked for or, exactly if the driver failed the last read made for it, that failure's status and nothing |
| `CaptureSessions.PiecesAreAll` | libaudio/AudioHardware.cpp:1745-1832 | these pieces together are all that was returned, and there is one for each successful open |
| `CaptureSessions.AllServed` | libaudio/AudioHardware.cpp:1661-1762 | so with a driver that never fails every read of an input that is open, or can be opened, is met in full |
| `CaptureSessions.OneStreamIff` | libaudio/AudioHardware.cpp:1745-1832 | when the application only reads and the input always opens, there is one stream more than the driver failed before the last read; so all it gets is one stream, from the driver's first read on, if and only if the driver has not failed before the last read |
| `CaptureSessions.AwakeIff` | libaudio/AudioHardware.cpp:1662-1792 | after any events the input is active if and only if some read has returned frames and nothing since, no failed read, standby or refused reopening, has put it in standby |
| `SteadyCapture.SteadyStream` | libaudio/AudioHardware.cpp:1639-1762 | from the driver to the application: while each channel is constant, all that a stream gives is one constant, halfway between the channels or, beyond 1365, further from zero by no more than the rate allows |
| `Chunks.Canonical` | libgralloc/allocator.cpp:79-165 | a list of positive chunks that tile the heap with no two adjacent free ones is a function of the set of live blocks alone: its free chunks are exactly the maximal gaps |
| `Chunks.SameLiveSameList` | libgralloc/allocator.cpp:79-165 | two well-formed lists with the same live blocks are the same list |
| `Chunks.LiveBlocksAreDisjoint` | libgralloc/allocator.cpp:79-165 | live blocks lie in the heap and do not overlap |
| `Chunks.ScanIsBest` | libgralloc/allocator.cpp:88-103 | the walk finds the smallest free chunk that can hold the request after alignment, the first among equals, and none if and only if no chunk can |
| `Chunks.ExactFitStays` | libgralloc/allocator.cpp:99-101 | stopping at a chunk of exactly the requested size never changes the choice |
| `Chunks.FitsIffFreeRun` | libgralloc/allocator.cpp:84-103 | in a coalesced list some chunk can hold the request if and only if there is a page-aligned run of that many free units anywhere in the heap |
| `ChunkOps.ScanAllocates` | libgralloc/allocator.cpp:79-129 | best fit keeps the whole promise of an allocation: a free page-aligned run in the best chunk, only that block added to the live ones, and failure only when no such run exists |
| `ChunkOps.PlacedIsWellFormed` | libgralloc/allocator.cpp:104-125 | splitting a chunk into padding, block and rest keeps the list well formed |
| `ChunkOps.PlacedIsWellFormedIff` | libgralloc/allocator.cpp:104-127 | and does so exactly for requests of at least one unit: one of none would leave a live block of size 0 |
| `ChunkOps.PlacedAddsBlock` | libgralloc/allocator.cpp:104-125 | and adds exactly the new block to the live ones |
| `ChunkOps.FreedByJoining` | libgralloc/allocator.cpp:141-154 | the merging loop's two joins, to the left and of the next chunk, amount to replacing the freed chunk and its free neighbours by one |
| `ChunkOps.FreedIsWellFormed` | libgralloc/allocator.cpp:141-154 | that keeps the list well formed, in particular coalesced |
| `ChunkOps.FreedRemovesBlock` | libgralloc/allocator.cpp:141-154 | and removes exactly the freed block from the live ones |
| `ChunkOps.FreeUndoesAllocate` | libgralloc/allocator.cpp:79-165 | freeing what was just allocated restores the list exactly |
| `ChunkOps.RunIsCanonical` | libgralloc/allocator.cpp:79-165 | after any two runs of allocations and deallocations that leave the same live blocks the lists are equal, and equal to the list of blocks and maximal gaps |
| `ChunkOps.ApplyMeans` | libgralloc/allocator.cpp:79-165 | each allocation of such a run keeps the whole promise, and each deallocation ends exactly the live block that starts there, if there is one |
| `ChunkOps.FreeAllRestores` | libgralloc/allocator.cpp:131-165 | freeing all live blocks in any order gives back the single initial chunk |
| `ChunkLists.ChunkList.LinkAfter` | libgralloc/allocator.h:46-52 | insertAfter on the node pointers: the list is the old one with the node behind the given one, at either end too, and no node's contents change |
| `ChunkLists.ChunkList.LinkBefore` | libgralloc/allocator.h:54-60 | insertBefore, likewise |
| `ChunkLists.ChunkList.InsertHead` | libgralloc/allocator.h:62-72 | insertHead, into an empty list too |
| `ChunkLists.ChunkList.Unlink` | libgralloc/allocator.h:85-91 | remove on the node pointers: the list is the old one without the node |
| `Allocators.BestFitAllocator.Allocate` | libgralloc/allocator.cpp:59-129 | allocate on the linked nodes returns a page-aligned offset of a block disjoint from all live ones, inside the best chunk, or -ENOMEM exactly when no page-aligned free run is long enough; without a heap -EINVAL, for size 0 it returns 0 and reserves nothing |
| `Allocators.BestFitAllocator.Deallocate` | libgralloc/allocator.cpp:67-165 | deallocate finds the chunk at the offset, merges it with its free neighbours while deleting nodes, and gives the specified list; -ENOENT exactly when no chunk starts there |
| `Allocators.BestFitAllocator.FindBest` | libgralloc/allocator.cpp:84-103 | the walk with its early exit finds the node the whole list would give |
| `Allocators.BestFitAllocator.Place` | libgralloc/allocator.cpp:104-127 | the splits on nodes give the specified list, and the chosen node is the block |
| `Allocators.BestFitAllocator.MergeLoop` | libgralloc/allocator.cpp:141-154 | the loop that deletes nodes as it walks takes at most two turns, keeps the pointers representing the list, and ends with the merged list |
| `Allocators.BestFitAllocator.SetSize` | libgralloc/allocator.cpp:42-51 | setSize rounds up to a page, makes one free chunk of the whole heap, and refuses a second time |
| `Allocators.UnitsCover` | libgralloc/allocator.cpp:84 | rounding the request up to units covers it if and only if it is at most 2^32 - 32 bytes; beyond that it wraps around to nothing |
| `Allocators.AllocationKeepsListIff` | libgralloc/allocator.cpp:84-127 | an allocation that finds a chunk keeps the list well formed if and only if its request is at most 2^32 - 32 bytes; a wrapped one leaves a live block of no units |
| `Allocators.WrappedRequestFindsChunk` | libgralloc/allocator.cpp:84-103 | on a heap that is all free a wrapped request does find a chunk |
| `Gralloc.NoPadding` | libgralloc/allocator.cpp:89-117 | when all chunks are whole pages no allocation needs padding |
| `Gralloc.PlacedKeepsPages` | libgralloc/gralloc.cpp:281 | page-rounded requests keep all chunks whole pages, so no padding chunk is ever created |
| `Gralloc.FreedKeepsPages` | libgralloc/gralloc.cpp:426-467 | and so does freeing |
| `Gralloc.Device.BuffersAreDisjoint` | libgralloc/gralloc.cpp:269-373 | in every valid state a PMEM buffer owns a page-aligned range inside the heap, disjoint from every other buffer's and from every range that could not be unmapped |
| `Gralloc.Device.AllocBuffer` | libgralloc/gralloc.cpp:269-373 | gralloc_alloc_buffer keeps that state and returns, on every path, exactly this code: for a request without PMEM flags, or for a texture when PMEM cannot be opened, 0 if and only if ashmem gives a region; for HW_2D then the stored or new error of opening; otherwise -ENOMEM exactly without a long enough free run, or on a heap just sized if it is too small, and 0 exactly if the driver then connects and maps; on any failing path the chunk list and the buffers are as before, or the heap just sized is one free chunk |
| `Gralloc.Device.AllocPmem` | libgralloc/gralloc.cpp:301-346 | -ENOMEM exactly without room, and whatever fails after the allocation, the range is given back and the list is exactly as before |
| `Gralloc.Device.TryPmem` | libgralloc/gralloc.cpp:304-346 | the PMEM path, which the first request opens: when it is open, what it returns then, and that a success owns a new range of the heap |
| `Gralloc.Device.SizeHeap` | libgralloc/gralloc.cpp:219-228 | the heap is as large as the driver says, or 8 MiB if it does not, in whole pages, and is sized once |
| `Gralloc.Device.InitLocked` | libgralloc/gralloc.cpp:214-245 | initialisation succeeds if and only if the device opens and can be mapped; then the master is the opened device and the base the mapped address |
| `Gralloc.Device.InitPmemArea` | libgralloc/gralloc.cpp:247-267 | the code returned is the one stored; a failure is never tried again unless its code is the mark for not tried yet, and the heap is never sized twice |
| `Gralloc.Device.FreeBuffer` | libgralloc/gralloc.cpp:426-467 | gralloc_free releases exactly the buffer's range, except when it cannot be unmapped: then it stays reserved |
| `LockWord.SameWord` | libgralloc/gralloc_priv.h:79-83 | comparing lock words is comparing their three parts |
| `LockWord.CountBits` | libgralloc/mapper.cpp:246-321 | incrementing and decrementing the 32-bit word acts on the holder count, with carry and borrow into the flag bits |
| `LockWord.FlagBits` | libgralloc/mapper.cpp:243-321 | setting and clearing the write and mapped bits of the word adds or subtracts exactly that bit |
| `LockWord.IncrementKeepsFlags` | libgralloc/gralloc_priv.h:79-83 | counting up leaves the flags alone if and only if the 30-bit count is not full |
| `BufferLockProofs.StepKeepsInv` | libgralloc/mapper.cpp:211-335 | every step of every session keeps the invariant that ties the word, the owner, the flush flag and the mapping to who holds the lock |
| `BufferLockProofs.RunKeepsInv` | libgralloc/mapper.cpp:121-335 | so it holds in every run of any number of sessions, including registration |
| `BufferLockTheorems.RunIsTryLock` | libgralloc/mapper.cpp:225-254 | in every run the low 30 bits are the number of holders, the write bit is set exactly while a writer holds, and then nobody else does |
| `BufferLockTheorems.RunRefines` | libgralloc/mapper.cpp:211-335 | in every run each interleaved step is a step of a plain readers/writer try-lock by the same session, or changes nothing there; registering changes nothing |
| `BufferLockTheorems.BusyIffConflict` | libgralloc/mapper.cpp:229-241 | -EBUSY is returned if and only if a conflicting holder exists at the load |
| `BufferLockLaws.WriterIsOnlyHolder` | libgralloc/mapper.cpp:229-249 | in every run a session that locked for software writing or rendering is the only holder |
| `BufferLockLaws.WriteBitIff` | libgralloc/mapper.cpp:246-249 | the write bit is set if and only if some holder locked for software writing or rendering |
| `BufferLockLaws.RefusedIff` | libgralloc/mapper.cpp:229-241 | a load is refused, with -EBUSY, if and only if some holder writes or renders, or the caller would and there is any holder |
| `BufferLockLaws.OwnerIsWriter` | libgralloc/mapper.cpp:256-259 | the owner on record is the thread of the session that writes or renders, until its unlock gives the lock up |
| `BufferLockLaws.LoneLock` | libgralloc/mapper.cpp:211-287 | a lock call that no holder forbids, left alone while nobody maps, holds the lock beside the others after at most twelve steps, and returns 0 unless mmap refuses it an address |
| `BufferLockLaws.LoneUnlock` | libgralloc/mapper.cpp:289-335 | an unlock call left alone gives up the lock, flushed, in at most six steps |
| `BufferLockTheorems.WriterUnlockNeverRetries` | libgralloc/mapper.cpp:311-331 | a writer's compare-and-swap in unlock succeeds at once, so clearing the owner inside the retry loop is safe |
| `BufferLockTheorems.UnlockNeverRefused` | libgralloc/mapper.cpp:324-327 | no holder's unlock returns -EINVAL |
| `BufferLockTheorems.MappedOnce` | libgralloc/mapper.cpp:268-283 | between registrations the mapping step succeeds at most once, the mapped bit implies that the base is published, and software locks held at the same time that returned 0 returned that same base |
| `BufferLockTheorems.SameBase` | libgralloc/mapper.cpp:268-283 | any two software locks between registrations that returned 0, however far apart, returned the same base |
| `BufferLockLaws.AddressIffSoftware` | libgralloc/mapper.cpp:268-283 | a lock call that returned 0 gives an address if and only if it is for software reading or writing, and that is the base of the mapped buffer |
| `BufferLockLaws.AddressPlusOffset` | libgralloc/mapper.cpp:65-91 | once a buffer other than the framebuffer has been mapped, that is the address mmap found plus the offset of the handle |
| `BufferLockLaws.RegisteredIsFree` | libgralloc/mapper.cpp:121-178 | registering or unregistering a handle of another process that nobody uses leaves a zero lock word, no owner and no base; any other handle stays as it is |
| `BufferLockTheorems.PublishedStays` | libgralloc/mapper.cpp:65-91 | no step of lock or unlock changes a published base |
| `BufferLockTheorems.FlagMeansWriter` | libgralloc/mapper.cpp:261-266 | while the flush flag is up a software writer holds the lock and every attempt to lock is refused |
| `BufferLockTheorems.FlushedExactlyOnce` | libgralloc/mapper.cpp:299-309 | when an unlock gives up the lock it has flushed exactly once if it was a software write to no framebuffer, and never otherwise |
| `BufferLockTheorems.ErrorKeepsLockIff` | libgralloc/mapper.cpp:211-287 | in every run a returning lock call has an error and holds the lock if and only if its mapping step, on no framebuffer, was refused an address; it has an error and does not hold the lock if and only if its load met a conflicting holder |
| `BufferLockTheorems.MapCallFailsIff` | libgralloc/mapper.cpp:65-91 | the mapping step fails if and only if the handle is no framebuffer and mmap finds no address; either way the session goes on holding the lock and the word stays |
| `BufferLockTheorems.NoRefusalNoError` | libgralloc/mapper.cpp:211-287 | so for the framebuffer, or when mmap always finds an address, no lock call that got in returns an error |
| `BufferLockTheorems.FailedMappingLeavesLocked` | libgralloc/mapper.cpp:268-287 | a concrete run that ends with an error returned and the buffer locked against everybody |
| `AudioHandles.AudioHardware.OpenPcmOut` | libaudio/AudioHardware.cpp:992-1019 | openPcmOut_l in place: the count and the shared handle after success, failure and reuse |
| `AudioHandles.AudioHardware.ClosePcmOut` | libaudio/AudioHardware.cpp:1021-1035 | closePcmOut_l: the handle goes with the last reference, and a close without an open does nothing |
| `AudioHandles.AudioHardware.AcquireMixer` | libaudio/AudioHardware.cpp:1037-1056 | openMixer_l, likewise |
| `AudioHandles.AudioHardware.ReleaseMixer` | libaudio/AudioHardware.cpp:1058-1072 | closeMixer_l, likewise |
| `HandleLaws.HandlesCountUsers` | libaudio/AudioHardware.cpp:992-1072 | whatever is opened and closed in whatever order, each shared handle is open exactly while it has users, and its count is how many |
| `HandleLaws.OpensIff` | libaudio/AudioHardware.cpp:992-1056 | an open is met if and only if the handle is in use already or the driver opens it |
| `AudioHandles.FirstActive` | libaudio/AudioHardware.cpp:1185-1201 | getActiveInput_l: the first input not in standby |
| `AudioHandles.InMixersUpdate` | libaudio/AudioHardware.cpp:1782-1843 | changing one input changes the number of inputs that hold the mixer by exactly its own share |
| `AudioHandles.EnterCallAccountsIff` | libaudio/AudioHardware.cpp:564-590 | entering call mode keeps the counts equal to what is held if and only if both of its own opens succeed |
| `AudioHandles.FailedOpenMiscounts` | libaudio/AudioHardware.cpp:564-590 | a concrete state and driver for which they are not equal afterwards |
| `AudioHandles.LeaveCallAccounts` | libaudio/AudioHardware.cpp:591-622 | leaving it always does |
| `HandshakeProofs.WorkIsGood` | libaudio/AudioHardware.cpp:509-641 | what a thread does between two waits changes only streams whose mutex it holds, enters standby only by counting it, and leaves the thread with a true picture of the streams |
| `HandshakeProofs.StepKeepsInv` | libaudio/AudioHardware.cpp:509-1924 | every step of every thread keeps: who holds which mutex, and that all a thread has seen of the streams still is so |
| `HandshakeProofs.RunKeepsInv` | libaudio/AudioHardware.cpp:509-1924 | so this holds in every interleaving of setMode, write, read, standby and setParameters by any number of threads |
| `HandshakeTheorems.LocksInOrder` | libaudio/AudioHardware.cpp:518 | a thread waits only for a mutex that comes, in the order out, in, hw, after all it holds |
| `HandshakeTheorems.NoCircularWait` | libaudio/AudioHardware.cpp:518-558 | in every run threads never wait in a circle, and no chain of waiting threads has more than four |
| `HandshakeTheorems.NeverDeadlocked` | libaudio/AudioHardware.cpp:509-1924 | in every run, while any task is under way, some thread gets further whatever the driver and the callers do |
| `HandshakeTheorems.HandshakeBreaks` | libaudio/AudioHardware.cpp:522-1700 | whenever a handshake loop of write, read or setMode is back with its mutexes and the standby count is the one it saw, the stream has not been in standby and the thread holds its mutex and the hardware's |
| `HandshakeTheorems.ModeHoldsActiveStreams` | libaudio/AudioHardware.cpp:522-558 | when setMode makes its change it holds the first active input if there is any, and an output it holds is active |
| `HandshakeTheorems.CallSilences` | libaudio/AudioHardware.cpp:522-573 | in every run, when a call begins the output ends in standby if and only if it was, or was active when setMode last looked at it; of the inputs exactly the first active one is silenced, so all are silent if and only if no other was active |
| `HandshakeTheorems.KeptMutexSilencesOutput` | libaudio/AudioHardware.cpp:522-573 | if setMode has not let go of the hardware mutex since it looked, the output is in standby when the call is on |
| `HandshakeLaws.ModeChanges` | libaudio/AudioHardware.cpp:560-622 | in every run setMode, once the base class accepts the mode, leaves that mode, with call mode on exactly for calls; turning call mode on or off silences the first active input and, exactly if it was seen active, the output, which give back all they hold; with right counts call mode takes, or gives back, one PCM and one mixer; a refused mode, or one that turns nothing, changes no stream and no count |
| `HandshakeLaws.CallEnds` | libaudio/AudioHardware.cpp:591-622 | in every run, when a call ends the output ends in standby if and only if it was, or was seen active; exactly the first active input is silenced, so all are silent if and only if no other was active |
| `HandshakeLaws.WriteSection` | libaudio/AudioHardware.cpp:1282-1323 | write in its critical section waits for the first active input until it has waited for that one; then it plays if and only if it gets a PCM, from the driver or from a call, and the input it closed is open again if and only if that opens |
| `HandshakeLaws.ReadSection` | libaudio/AudioHardware.cpp:1662-1709 | read waits for an active output until it has; then it captures if and only if its own PCM opens, and the output it closed is active again if and only if it gets its PCM back |
| `HandshakeLaws.OutputOpens` | libaudio/AudioHardware.cpp:1392-1412 | with right counts an output in standby gets a PCM if and only if the driver opens it or a call is on, and a mixer if and only if that opens or is in use |
| `HandshakeLaws.InputWakes` | libaudio/AudioHardware.cpp:1809-1843 | the same of an input, whose PCM is its own |
| `HandshakeLaws.StandbySection` | libaudio/AudioHardware.cpp:1348-1481 | in every run standby leaves its stream in standby, holding nothing, and setParameters does so if and only if there is a new device and no call; no other stream changes |
| `HandshakeLaws.FailedTransferSleeps` | libaudio/AudioHardware.cpp:1326-1340 | a write or read that the driver fails goes on to put its stream in standby |
| `HandshakeAlone.LoneSetMode` | libaudio/AudioHardware.cpp:509-641 | by itself setMode ends after at most ten steps in the mode asked for; if a call begins or ends with that, an active output and the first active input are in standby and other streams are as they were |
| `HandshakeAlone.LoneWrite` | libaudio/AudioHardware.cpp:1259-1346 | by itself, with a driver that opens, write reaches pcm_write with the output awake and a PCM, and leaves every input as much in standby as it was |
| `HandshakeAlone.LoneRead` | libaudio/AudioHardware.cpp:1639-1762 | by itself, with a driver that opens, read reaches pcm_read with its input awake and a PCM, and leaves the output as much in standby as it was |
| `HandshakeAlone.LoneStandby` | libaudio/AudioHardware.cpp:1348-1481 | by itself standby or setParameters, of either kind of stream, ends after at most five steps with its stream in standby, or with nothing changed if that is not for it to do |
| `HandshakeRace.CallLeavesOutputActive` | libaudio/AudioHardware.cpp:544-573 | a concrete run in which the output becomes active while setMode waits for the input, and plays on when the call is on |
| `HandshakeRace.CallLeavesInputActive` | libaudio/AudioHardware.cpp:1185-1201 | a concrete run in which two inputs are active when the call begins and one still is afterwards |
| `HandshakeAccounts.PlaysWithPcm` | libaudio/AudioHardware.cpp:1316-1346 | in every run a thread that reaches pcm_write holds the output's mutex and the output has a PCM |
| `HandshakeAccounts.CapturesWithPcm` | libaudio/AudioHardware.cpp:1668-1745 | a thread that reaches pcm_read holds the input's mutex and the input has a PCM, in every run without a failed open of an input that was awake |
| `HandshakeAccounts.RunPowersOutput` | libaudio/AudioHardware.cpp:1288-1410 | in every run the output has a PCM exactly while it is not in standby, however the driver answers and however many threads read |
| `HandshakeAccounts.RunPowersIff` | libaudio/AudioHardware.cpp:1668-1843 | every stream does so all through a run if and only if no read, back from waiting for the output, fails to open an input that another has woken meanwhile |
| `HandshakeAccounts.RunCountsIff` | libaudio/AudioHardware.cpp:564-1843 | the counts equal what is held all through a run if and only if no entry into call mode had an open of its own fail and no read opened, with success, an input that was awake and had the mixer |
| `HandshakeAccounts.RunBalancesIff` | libaudio/AudioHardware.cpp:564-1843 | the counts equal what is held and every stream is sound, with no PCM in standby and no mixer without a PCM, all through a run if and only if no entry into call mode had an open of its own fail and no read opened, or tried to open, an input that was awake and had the mixer |
| `HandshakeAccounts.RunSteady` | libaudio/AudioHardware.cpp:1764-1843 | in every run an input in standby has no mixer, and the output has none without a PCM, however many threads read and whatever fails |
| `HandshakeRace.TwoReadersUnbalance` | libaudio/AudioHardware.cpp:1672-1700 | a concrete run, with a driver that opens whatever is asked, in which two readers of one input leave the mixer counted three times for two holders |
| `HandshakeRace.TwoReadersLosePcm` | libaudio/AudioHardware.cpp:1672-1745 | a concrete run in which the second of two readers fails to open the input and leaves it active without a PCM and with the mixer, while the counts still are what is held |
| `HandshakeAccounts.OneReaderAsleep` | libaudio/AudioHardware.cpp:1668-1700 | while no input is read by two threads at a time, an input that a read is about to wake is still in standby when its handshake is over |
| `HandshakeAccounts.OneReaderSuffices` | libaudio/AudioHardware.cpp:1668-1843 | so one reader of each input suffices for the condition on the PCMs, and leaves of the other two only the entries into call mode |
| `HandshakeAccounts.CountsAreHoldings` | libaudio/AudioHardware.cpp:992-1072 | with one reader of each input and a driver that opens the shared handles, in every run each count is the number of holders, each handle is open exactly while counted, and a stream in standby holds neither |
| `HandshakeAccounts.ModesAgree` | libaudio/AudioHardware.cpp:560-622 | call mode is on exactly while the mode is in-call, in every run |

## Left out

- Allocators.BestFitAllocator.Allocate: requires at most 2^32 - 32 bytes, where `AllocationKeepsListIff` says the list stays well formed.
- Allocators.BestFitAllocator.SetSize: requires a heap of at least one byte and at most 0x7FFFF000, so that offsets fit the signed results and sizes the 28-bit field (allocator.h:114); the page is 4096 bytes.
- Allocators.BestFitAllocator.Deallocate: requires that no free chunk starts at the offset, which the code treats as a fatal error.
- Resampler.BlockConverter: requires at least 23 samples, where `RawBlocksExact` says the block count is right; the step of 45158 stands for the float expression at AudioHardware.cpp:2147-2148, and the unsigned temporaries are signed, the conversion both ways being the identity.
- CaptureSessions.CaptureAll: one thread reads at a time, whole frames, and the pauses of `read` after an error are dropped; two readers of one input are in the handshake.
- StereoOutput.CallDeliversIff: the samples that show the overwriting are any samples of the parts; it is not shown which input of the filters makes them.
- DownSamplers.DownSampler.Resample: for one channel; what two channels do to the frames of earlier passes is in `StereoOutput`. On an error return before the loop the caller's frame count is reported unchanged, as in the code. It asks that no earlier failure has left its status, which `read` clears.
- BufferProviders.BufferProvider.GetNextBuffer: a provider that delivers zero frames without failing is not modelled; the loop would not end with it.
- BufferLockProofs.RunKeepsInv: unlock is called only by the thread that locked, fewer than 2^30 sessions exist, and a handle is registered or unregistered only while nobody uses it.
- HandshakeProofs.RunKeepsInv: the set of streams is fixed, and what happens while a thread holds the hardware mutex is one step; the standby count does not wrap around.
- HandshakeAccounts.CountsAreHoldings: FM radio, whose repeated enabling opens more often than disabling closes, is left out.
- Gralloc.Device.AllocBuffer: the handles of `gralloc_perform` and size 0 are not in the disjointness claim, as they do not come from the allocator; `gralloc_alloc` has already refused sizes that are not positive (gralloc.cpp:407-408).
- All device I/O, memory mapping, wake locks, priorities, sleeping and logging: each is a choice between success and failure, or dropped. Timing, fairness and the frequency response of the filters are not modelled.
- The loop of `read` around `mix`, and the direct `pcm_read`: they only repeat what is proved of one call.
- The framebuffer slots, `terminateBuffer`, `insertTail`, `setAudioRoute`, `setMicMute` and the parameter strings: two slots or constant tables, easy members.
- The camera, sensors, lights, copybit and recovery code of the repository.
