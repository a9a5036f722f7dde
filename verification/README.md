# Verified models of the pump reactor's concurrent and stateful parts

This project models, in Dafny, the parts of the framework whose correctness is hardest to
see, and proves what they promise:

- **The multi-producer multi-consumer queue** (`3rd/moodycamel/concurrentqueue.h`), as six
  protocols: its reference-counted CAS free list (`FreeList`), the optimistic-count and
  overcommit protocol by which consumers share out elements (`DequeueProtocol`), the explicit
  producer's ring of blocks and circular block index (`ExplicitProducer`), the implicit
  producer's index and block lifetime (`ImplicitProducer`), the pool that producers of both
  kinds draw blocks from (`BlockPool`, with what calls come to in the whole queue in
  `Deliveries`), and the growing hash from thread ids to producers (`ProducerHash`).
- **The single-producer single-consumer queue** of ring blocks (`Spsc`, `PowerOfTwo`).
- **The grouped linked list** with one free list per memory chunk (`GroupedList`).
- **Flow chains and runners** (`Flow`, `Immediate` for flows that never wait, `Triggers` for
  competing triggers, `TaskCenter`).
- **The two-level bitmap** with its resumable scan (`Bitmap`).
- **Smaller stateful pieces**: the mirrored ring buffer (`RingBuffer`), the timer set
  (`TimerSet`) and the consistent-hash ring (`ConsistentHash`).

Lock-free code is modelled as a state machine whose steps are single atomic accesses, taken
by any number of threads in any order; a theorem about `Exec(acts)` or `Run(r, threads)`
holds for every schedule.  The invariants are stated over the concrete state and a witness
(`Aux`) that is never part of it.  Code that one thread runs is modelled by classes and
methods proved against sequences.  `Ledger` says what a producer's calls amount to, told from
outside; `ModArith` holds remainders by a variable modulus, `Bags` sums of multisets,
`Wrappers` the option type.

Where integer width matters it is written out: the free list's 32-bit reference word, the
wrapping `index_t` of the queues, the unsigned division in the block-index lookup, `size_t`
in `ceilToPow2` and 32-bit line counts in the bitmap.  Elsewhere counters are exact.  Masking
with a power of two less one is written as a remainder (`PowerOfTwo.MaskIsRemainder`); that
the sizes are powers of two is proved.

Some promises are false as stated, and the exact condition is proved instead:

- the free list's assertion holds in every run exactly when there are at most 2^31 - 2
  threads (`FreeList.FlagClearIff`), one less than the 31-bit count suggests;
- `ceilToPow2` gives 0 for 0 and for anything above 2^63 (`PowerOfTwo.CeilToPow2`);
- `rte_bitmap_set_slab` keeps the two levels in agreement exactly when the slab is not zero or
  its line was not all zeros already (`Bitmap.Map.SetSlab`);
- the bitmap's line count covers the bits exactly when rounding up does not overflow 32 bits
  (`Bitmap.LinesCover`);
- `circular_less_than` is right about a difference within half the word range, and wrong about
  the first value on either side (`DequeueProtocol.WindowExact`);
- `get_nearest_freelist_group` returns the nearest group exactly when the usable groups on
  either side of the node's group are not one apart in distance with the further one met first
  (`GroupedList.NearestFree`; `GroupedList.NotTheNearest` is an input on which it does not);
- the leeway check of the explicit `enqueue` keeps fewer elements queued than half the range of
  the index type only as long as the ring's blocks hold fewer (`ExplicitProducer.RangeKept`); a
  ring that holds as many can be filled, since a block is used again without the check
  (`ExplicitProducer.RangeReached`; `ExplicitProducer.RangeExceeded` is such a run);
- a thread alone in `get_or_add_implicit_producer` ends its call exactly when it is not waiting
  for another one to make a bigger table (`ProducerHash.EndsAlone`; `ProducerHash.Waiting` is a
  run in which it is);
- `handle_timeout` fires every due timer once and loses none exactly when no callback adds a
  timer due before the one that fired (`TimerSet.TimeSet.HandleTimeout`; a clock that is set
  back is such a case, `TimerSet.LostAndRepeated`).

## Model

| member | source | states |
|---|---|---|
| FreeList.FreeListSafe | 3rd/moodycamel/concurrentqueue.h:1388-1467 | in every state of every run of at most 2^31 - 2 threads, any of which may give back a node that any caller holds, the head and links form a finite list, every node is in exactly one place (with a caller, listed, or on the move), at most one thread is adding or taking a node, and a node just taken has its flag clear |
| FreeList.NextFrozen | 3rd/moodycamel/concurrentqueue.h:1402-1425 | while any thread holds a counted reference to a node, no step changes its `freeListNext` |
| FreeList.TakeInstallsSuccessor | 3rd/moodycamel/concurrentqueue.h:1411-1425 | when the head CAS of `try_get` can succeed, the link it installs is the rest of the list behind the node taken |
| FreeList.QuietMeansListed | 3rd/moodycamel/concurrentqueue.h:1388-1467 | nothing is lost: with every thread outside, a node nobody holds is on the list |
| FreeList.RefinesSet | 3rd/moodycamel/concurrentqueue.h:1388-1467 | seen from outside the list is a set: each step of each run leaves it alone, or is the first step of an `add` and puts a held node in, or is the head CAS of a `try_get` and takes out the node that this call returns |
| FreeList.GetAnswers | 3rd/moodycamel/concurrentqueue.h:1402-1443 | in every run, whenever a call of `try_get` ends, by whichever step, it gives its caller what the head was at some step of that call: the head node, which nobody held, or nothing if the head was null |
| FreeList.NullSawEmpty | 3rd/moodycamel/concurrentqueue.h:1402-1443 | so a call that ends empty-handed saw an empty list at some step of that call, and whatever was in the set at that step was still on its way onto the list |
| FreeList.EndsAlone | 3rd/moodycamel/concurrentqueue.h:1388-1467 | from every state of every run a thread that goes on alone ends its call, within a number of steps given by where it is and by how many flagged nodes are still referenced |
| FreeList.GetsAlone | 3rd/moodycamel/concurrentqueue.h:1402-1443 | a `try_get` that nobody disturbs, in any state, returns the head node and leaves its successor as head, or finds the list empty and changes nothing |
| FreeList.AddsAlone | 3rd/moodycamel/concurrentqueue.h:1388-1400 | an `add` that nobody disturbs puts the node in front of the list, or leaves it flagged to those who still reference it |
| FreeList.ListUnique | 3rd/moodycamel/concurrentqueue.h:1445-1467 | head and links determine the listed nodes and their order, so no node is listed twice |
| FreeList.TooManyThreads | 3rd/moodycamel/concurrentqueue.h:1402-1443 | with more than 2^31 - 2 threads there is a run in which the count reaches the flag bit and the assertion in `try_get` fails |
| FreeList.FlagClearIff | 3rd/moodycamel/concurrentqueue.h:1402-1443 | the assertion that a taken node's flag is clear holds in all runs if and only if there are at most 2^31 - 2 threads |
| FreeList.Keep | 3rd/moodycamel/concurrentqueue.h:1388-1467 | every atomic step of every thread keeps the invariant that links reference words to list membership |
| DequeueProtocol.HeadBehindTail | 3rd/moodycamel/concurrentqueue.h:1889-1987 | in every run mixing single and bulk consumers the head never passes the published tail |
| DequeueProtocol.ClaimsContiguous | 3rd/moodycamel/concurrentqueue.h:2174-2265 | the ranges handed out follow one another from 0 to the head without gap or overlap |
| DequeueProtocol.ClaimedExactlyOnce | 3rd/moodycamel/concurrentqueue.h:1889-1987 | an index lies below the head if and only if some claim holds it, and no two claims hold it |
| DequeueProtocol.GrantedPublished | 3rd/moodycamel/concurrentqueue.h:1910-1940 | the elements granted by the second look at the tail, over any prefix of the tickets drawn, have all been published |
| DequeueProtocol.QuietExact | 3rd/moodycamel/concurrentqueue.h:1889-1987 | with no consumer inside, optimistic count less overcommit is exactly the head |
| DequeueProtocol.CallEnds | 3rd/moodycamel/concurrentqueue.h:2174-2265 | in every run, what each call comes to, in terms of what the counters were when it loaded them: it ends without a claim if and only if the tail was at most the optimistic count less the overcommit at its first look or at its second; otherwise it claims, from the head on, as many elements as it asked for and both looks allowed |
| DequeueProtocol.WaitFree | 3rd/moodycamel/concurrentqueue.h:1889-1987 | no call is open for more than six of its own steps, whatever the others do meanwhile |
| DequeueProtocol.LoneCall | 3rd/moodycamel/concurrentqueue.h:2174-2265 | from every reachable state with nobody inside, a call asking for at most max elements ends having claimed all that are there up to max, from the head on, or nothing if there are none |
| DequeueProtocol.Conserved | 3rd/moodycamel/concurrentqueue.h:2174-2265 | in the middle of any number of calls, the optimistic count is what was claimed, what was given back, and what the consumers inside are still working on |
| DequeueProtocol.WindowExact | 3rd/moodycamel/concurrentqueue.h:419-430 | what `circular_less_than` answers for every wrapped difference; it agrees with the exact comparison within half the word range, and is wrong about the first difference beyond it on either side |
| DequeueProtocol.SingleIsBulkOfOne | 3rd/moodycamel/concurrentqueue.h:1897-1925 | the test in `dequeue` is the test in `dequeue_bulk` asking for one element, on exact and on wrapped counters |
| DequeueProtocol.StepTransfers | 3rd/moodycamel/concurrentqueue.h:1889-1940 | one step on wrapped words is the wrapped image of the step on exact counters, if the difference compared is in the window |
| DequeueProtocol.WrappingTransfers | 3rd/moodycamel/concurrentqueue.h:2174-2265 | a whole run on wrapped words is the wrapped image of the exact run, if each difference compared is in the window |
| DequeueProtocol.CalmTransfers | 3rd/moodycamel/concurrentqueue.h:2174-2265 | the differences are in the window, and the run on words is the image of the exact one, if during each call the elements from its first head to the current tail, and those pending at its start or asked for since, stay within half the word range |
| DequeueProtocol.CountedTransfers | 3rd/moodycamel/concurrentqueue.h:2174-2265 | the same from numbers counted outside: k consumers asking for at most d elements each, at most n steps during a call, (n + k) d within half the word range |
| DequeueProtocol.WrappedLength | 3rd/moodycamel/concurrentqueue.h:1889-1987 | the words of tail and head give the number of elements queued |
| DequeueProtocol.WrappedQuiet | 3rd/moodycamel/concurrentqueue.h:1889-1987 | with no consumer inside, the words of optimistic count, overcommit and head agree as the counters do |
| DequeueProtocol.WrappedClaims | 3rd/moodycamel/concurrentqueue.h:1889-1987 | two claims give out the same word only for elements a full turn of the word range apart |
| ExplicitProducer.ValuesSent | 3rd/moodycamel/concurrentqueue.h:1786-1887 | in every run the values published are those passed to the calls of `enqueue` that published, in the order of the calls, and a call still open has its value in hand |
| ExplicitProducer.ResultsRight | 3rd/moodycamel/concurrentqueue.h:2174-2265 | in every run of consumers that dequeue one element or many at once, every value returned under number i is the one passed to the call of `enqueue` that was the i-th to publish, each number at most once |
| ExplicitProducer.EnqueueEnds | 3rd/moodycamel/concurrentqueue.h:1786-1887 | a call of `enqueue` ends by publishing its value, or having published nothing, and then only at the start of a block for which there is no room in the index range or the block index, or no block |
| ExplicitProducer.EnqueuePublishes | 3rd/moodycamel/concurrentqueue.h:1786-1887 | from every reachable state a call of `enqueue(v)` publishes v within eight steps of the producer if it is inside a block or can have another one |
| ExplicitProducer.ReusesDrained | 3rd/moodycamel/concurrentqueue.h:1795-1806 | at the start of a block the producer takes the oldest block of its ring again if and only if all the elements of that block have been returned, and then asks for no block |
| ExplicitProducer.ClaimDelivers | 3rd/moodycamel/concurrentqueue.h:2174-2265 | in every run a consumer that claims while n elements are there gets them: once it is away again, each of the n elements from the head on has been returned with its value |
| ExplicitProducer.WaitFree | 3rd/moodycamel/concurrentqueue.h:2174-2265 | and it is away again after a number of its own steps that depends only on what it claimed, whatever the others do |
| ExplicitProducer.RangeKept | 3rd/moodycamel/concurrentqueue.h:1807-1823 | in every run fewer elements are queued than half the range of the index type, within which index comparisons are right, unless the ring has come to hold more: a block is added only within that limit, but one is used again without the check |
| ExplicitProducer.RangeReached | 3rd/moodycamel/concurrentqueue.h:1795-1806 | from every reachable state in which nothing is queued and nobody is inside, at the end of a block, the producer alone can fill all the blocks of its ring, so the limit is exceeded as soon as the ring holds that much |
| ExplicitProducer.RangeExceeded | 3rd/moodycamel/concurrentqueue.h:1795-1817 | a run, with blocks of two and a range of eight, after which half of the range is queued |
| ExplicitProducer.NothingLost | 3rd/moodycamel/concurrentqueue.h:2174-2265 | with all consumers away, exactly the numbers below the head have been returned |
| ExplicitProducer.ResolvesToOwnElement | 3rd/moodycamel/concurrentqueue.h:2198-2218 | a consumer that claimed elements i to e reaches, for each of them and across all their blocks, the slot that holds it, by one index lookup and steps to the next index entry, although the producer reuses slots and installs doubled indices meanwhile |
| ExplicitProducer.ReadInOrder | 3rd/moodycamel/concurrentqueue.h:2207-2219 | the values a bulk dequeue takes from a block are those enqueued there, in order |
| ExplicitProducer.WrittenSlotUnread | 3rd/moodycamel/concurrentqueue.h:1786-1887 | while the producer overwrites an index entry, no consumer is about to read that entry |
| ExplicitProducer.EmptyFlagWasClear | 3rd/moodycamel/concurrentqueue.h:1526-1560 | the assertions in `set_empty` and `set_many_empty`: the flag a consumer sets was clear |
| ExplicitProducer.NeverStuck | 3rd/moodycamel/concurrentqueue.h:1786-1987 | no lookup fails: every thread inside an operation can take its next step |
| ExplicitProducer.SlotRight | 3rd/moodycamel/concurrentqueue.h:1943-1952 | from the front slot and its base, the computed slot is the one of the element's block |
| ExplicitProducer.UnsignedOffset | 3rd/moodycamel/concurrentqueue.h:1948-1951 | what the unsigned division makes of the offset of an older block |
| ExplicitProducer.MaskedSlot | 3rd/moodycamel/concurrentqueue.h:1950-1952 | masking turns that quotient into the right slot when the index size divides the number of blocks in the word range |
| ExplicitProducer.GrownShows | 3rd/moodycamel/concurrentqueue.h:2283-2320 | a doubled index shows the same blocks as the one it replaces |
| ExplicitProducer.RingRotates | 3rd/moodycamel/concurrentqueue.h:1795-1806 | reusing the block behind the tail block makes the oldest block of the ring its newest |
| ExplicitProducer.RingInserts | 3rd/moodycamel/concurrentqueue.h:1830-1846 | a requisitioned block is linked in between the newest and the oldest |
| ExplicitProducer.SizesPow2 | 3rd/moodycamel/concurrentqueue.h:2283-2320 | index sizes are powers of two in every run if the first is, so masking is the remainder taken in the model |
| ImplicitProducer.InvSound | 3rd/moodycamel/concurrentqueue.h:2413-2546 | whenever the invariant holds: the entry that a lookup starts from has a valid key, lookups find the block of the element claimed with its key in place, values read and returned are those enqueued, no counter reaches past the block size before `set_empty`, at most one dequeuer closes a block and exactly one once all its elements are done, and the producer writes only to a block that is still in use |
| ImplicitProducer.KeepProduced | 3rd/moodycamel/concurrentqueue.h:2413-2475 | every producer step keeps the invariant, if `requisition_block` returns a block not in use here or none |
| ImplicitProducer.KeepConsumed | 3rd/moodycamel/concurrentqueue.h:2477-2546 | every dequeuer step keeps the invariant |
| ImplicitProducer.KeepClaim | 3rd/moodycamel/concurrentqueue.h:2477-2490 | so does claiming another element |
| ImplicitProducer.KeyPut | 3rd/moodycamel/concurrentqueue.h:2820-2847 | an index slot is overwritten only when its block has left the index, so every key a pending lookup needs stays in place |
| ImplicitProducer.GrownOk | 3rd/moodycamel/concurrentqueue.h:2880-2922 | a doubled index holds the old entries, oldest first, and new ones, and finds every number the old one showed |
| ImplicitProducer.GrowthUnused | 3rd/moodycamel/concurrentqueue.h:2837-2845 | the assertion after growth: the entry behind the tail of the new index has no key yet, and is the one that gets the new block |
| ImplicitProducer.KeepCaps | 3rd/moodycamel/concurrentqueue.h:2880-2922 | every step keeps index capacities powers of two |
| ImplicitProducer.KnowKey | 3rd/moodycamel/concurrentqueue.h:2862-2877 | the key of an index slot has not been overwritten while the block of that number or an earlier one is still in the index |
| ImplicitProducer.Uncounted | 3rd/moodycamel/concurrentqueue.h:1526-1540 | a block with an element nobody has counted is in the index, not given back, and its counter is below the block size |
| ImplicitProducer.CountUp | 3rd/moodycamel/concurrentqueue.h:1526-1540 | counting an element keeps the counter equal to the number done, and only the last to count is told that the block is empty |
| ImplicitProducer.Unlist | 3rd/moodycamel/concurrentqueue.h:2526-2535 | taking a block out of the index touches no other block's entry |
| ImplicitProducer.KnowWritable | 3rd/moodycamel/concurrentqueue.h:2470-2475 | the block written to is the newest, not yet given back, even though `tailBlock` may point to a released block between enqueues |
| ImplicitProducer.UsesHolds | 3rd/moodycamel/concurrentqueue.h:2413-2546 | a block is held by the producer exactly when it is being added, shown by the index, or on its way to the free list |
| ImplicitProducer.ProducedHolds | 3rd/moodycamel/concurrentqueue.h:2430-2475 | a producer comes to hold exactly what `requisition_block` returns, and writes to no block it does not hold |
| ImplicitProducer.ConsumedHolds | 3rd/moodycamel/concurrentqueue.h:2489-2538 | a dequeuer changes only blocks its producer holds, and exactly the giving back ends the holding |
| ImplicitProducer.Frame | 3rd/moodycamel/concurrentqueue.h:2413-2546 | what happens to blocks a producer does not hold does not concern it |
| BlockPool.OnePlace | 3rd/moodycamel/concurrentqueue.h:2970-3022 | in every run with any number of implicit and explicit producers, every block is in the unissued pool, on the free list, or in use or in transit at one producer, and never in two of these |
| BlockPool.AllSound | 3rd/moodycamel/concurrentqueue.h:2413-2546 | in every such run every implicit producer is sound in the sense of `ImplicitProducer.InvSound` |
| BlockPool.AllReached | 3rd/moodycamel/concurrentqueue.h:1786-1987 | in every such run every explicit producer is where its own steps lead, taken out of the schedule with the values it was called with and the blocks it was given, so that what `ExplicitProducer` proves of those steps holds of it |
| BlockPool.AllReturned | 3rd/moodycamel/concurrentqueue.h:1889-1987 | in particular every value returned is the one passed to the call of `enqueue` that published it |
| BlockPool.ExplicitGets | 3rd/moodycamel/concurrentqueue.h:1830-1846 | the block that `requisition_block` returns to an explicit producer is not in its ring yet, and becomes its newest |
| BlockPool.KeepRequisition | 3rd/moodycamel/concurrentqueue.h:2970-3022 | racing producers that overrun the pool index, draw from the free list or create blocks are never given a block in use |
| Deliveries.ValuesSent | 3rd/moodycamel/concurrentqueue.h:2413-2475 | in every such run the values an implicit producer has published are those passed to its thread's calls of `enqueue` that published, in the order of the calls |
| Deliveries.ResultsRight | 3rd/moodycamel/concurrentqueue.h:2477-2546 | every value a dequeuer of element i returns is the one passed to the call that was the i-th to publish |
| Deliveries.ClaimDelivers | 3rd/moodycamel/concurrentqueue.h:2477-2546 | in every such run a claim made while an element is there gets it: after eight of its own steps, whatever all other threads do, the dequeuer has returned the value published under its number |
| Deliveries.RangeKept | 3rd/moodycamel/concurrentqueue.h:2418-2425 | in every such run an implicit producer has fewer elements queued than half the range of the index type |
| Deliveries.RequisitionAnswers | 3rd/moodycamel/concurrentqueue.h:3005-3022 | a producer that asks for a block goes on to the next source or is answered; a block it is given was up for grabs and no longer is; it is told that there is none only when the first pool is used up and neither the free list nor the allocator comes up with one |
| Deliveries.GivesUpFor | 3rd/moodycamel/concurrentqueue.h:2420-2466 | in every such run a call of `enqueue` on an implicit producer gives up only at the start of a block, and only because the index range, the block index or the blocks have run out |
| Deliveries.EnqueuePublishes | 3rd/moodycamel/concurrentqueue.h:2413-2475 | from every reachable state a call of `enqueue(v)` on an implicit producer publishes v within twelve of its steps, if it is inside a block, or if there is room and a block is to be had from the pool, the free list or the allocator |
| Deliveries.ExplicitPublishes | 3rd/moodycamel/concurrentqueue.h:1786-1887 | the same for an explicit producer, within ten steps |
| ImplicitProducer.ConsumerNearer | 3rd/moodycamel/concurrentqueue.h:2489-2546 | no dequeuer is ever stuck: each of its steps brings it nearer to its result |
| ImplicitProducer.GivesUp | 3rd/moodycamel/concurrentqueue.h:2420-2466 | which step makes a call of `enqueue` give up, and why |
| Ledger.SentOrdered | 3rd/moodycamel/concurrentqueue.h:1786-1887 | of a producer's calls those that published are in the order in which they were made, none publishes twice, and one still open has not published |
| ProducerHash.OneProducerPerThread | 3rd/moodycamel/concurrentqueue.h:3298-3447 | in every run two results are equal if and only if they were returned to the same thread |
| ProducerHash.TablesAgree | 3rd/moodycamel/concurrentqueue.h:3319-3360 | every table of the chain that holds a thread's id holds it once, with one and the same producer |
| ProducerHash.TablesNotFull | 3rd/moodycamel/concurrentqueue.h:3362-3440 | every table is empty or less than three quarters full, whatever resizes and lazy re-insertions race |
| ProducerHash.ProbesTerminate | 3rd/moodycamel/concurrentqueue.h:3322-3439 | no probe loop goes once around its table |
| ProducerHash.CallReturns | 3rd/moodycamel/concurrentqueue.h:3298-3447 | a call ends exactly when it returns a producer to its thread |
| ProducerHash.EndsAlone | 3rd/moodycamel/concurrentqueue.h:3362-3447 | from every state of every run, a thread that goes on alone ends its call if and only if it is not waiting for another: counted beyond three quarters of the newest table while another thread holds the resize flag |
| ProducerHash.Waiting | 3rd/moodycamel/concurrentqueue.h:3443-3446 | this happens: in a first table of one slot, a second thread spins for as long as the first one, which has set the flag, does not move |
| ProducerHash.AllFit | 3rd/moodycamel/concurrentqueue.h:3402-3405 | a thread that has just held the resize flag always finds room in the table it leaves with |
| ProducerHash.TablesBounded | 3rd/moodycamel/concurrentqueue.h:3366-3397 | tables grow only when they must: in every run every table but the newest has at most about twice as many slots as threads were counted, and the newest, unless it is the first, at most about four times |
| ProducerHash.FlagWhenHalfFull | 3rd/moodycamel/concurrentqueue.h:3366-3366 | the resize flag is taken only by a thread that counts at least half of the table it has seen |
| ProducerHash.PathIsShort | 3rd/moodycamel/concurrentqueue.h:3322-3359 | in a table that full, a probe meets an empty slot within one round |
| ProducerHash.NotFound | 3rd/moodycamel/concurrentqueue.h:3355-3357 | an empty slot on the probe path means the id is not in the table |
| ProducerHash.NewCapacityPow2 | 3rd/moodycamel/concurrentqueue.h:3372-3376 | growing keeps the capacity a power of two |
| ProducerHash.NewCapacity | 3rd/moodycamel/concurrentqueue.h:3372-3376 | the new capacity is large enough that the new count is below half of it |
| Spsc.FirstInFirstOut | 3rd/moodycamel/readerwriterqueue.h:270-361 | in every interleaving the values dequeued are a prefix of the values enqueued, and every `peek` shows the value that is dequeued next |
| Spsc.AssertionsHold | 3rd/moodycamel/readerwriterqueue.h:499-608 | a spare block the producer turns to is empty, a block the consumer turns to is not |
| Spsc.CallAnswers | 3rd/moodycamel/readerwriterqueue.h:270-455 | in every interleaving a dequeue, pop or peek ends by giving the value that is next to its own kind of call, or it is refused; and it is refused only if at some step of that call everything enqueued had been dequeued |
| Spsc.NotRefused | 3rd/moodycamel/readerwriterqueue.h:307-355 | so one that begins while something is queued is answered, whatever the producer does meanwhile |
| Spsc.ConsumerWaitFree | 3rd/moodycamel/readerwriterqueue.h:270-455 | every step the consumer takes inside a call brings it nearer to the end, and nothing the producer does sets it back |
| Spsc.ValuesSent | 3rd/moodycamel/readerwriterqueue.h:499-608 | in every interleaving the values enqueued are those passed to the calls that were not refused, in the order of the calls |
| Spsc.EnqueueAnswers | 3rd/moodycamel/readerwriterqueue.h:499-608 | in every interleaving an enqueue ends by adding its value, or it is refused; and it is refused only if at some step of that call at least `maxSize` values were in the queue, in both the one-block and the many-block set-up, and, when it may allocate, only if there was no memory |
| Spsc.AllocatesWhenFull | 3rd/moodycamel/readerwriterqueue.h:566-593 | in every interleaving a block is made only inside an enqueue that may allocate, with memory there, and only if at some step of that call at least `maxSize` values were in the queue |
| Spsc.SizesDouble | 3rd/moodycamel/readerwriterqueue.h:566-576 | blocks made later double in size up to the largest size asked for and no further: the size is given by the number of blocks made |
| Spsc.ProducerWaitFree | 3rd/moodycamel/readerwriterqueue.h:499-608 | every step the producer takes inside a call brings it nearer to the end, and nothing the consumer does sets it back |
| Spsc.SizeApprox | 3rd/moodycamel/readerwriterqueue.h:478-491 | with neither thread inside, the walk over the blocks ends and returns the exact number of values queued |
| Spsc.Construct | 3rd/moodycamel/readerwriterqueue.h:89-146 | the constructor's loop builds the closed circle of blocks, for every size below 2^63 |
| Spsc.CountPositive | 3rd/moodycamel/readerwriterqueue.h:101-107 | the number of blocks reserved suffices for `maxSize` with one block and one slot in each to spare |
| Spsc.SizesPow2 | 3rd/moodycamel/readerwriterqueue.h:101-134 | block sizes are powers of two in every run, those allocated later included, so masking is the remainder taken in the model |
| Spsc.ExecInv | 3rd/moodycamel/readerwriterqueue.h:270-608 | every reachable state has the ring invariant: blocks between front and tail full, blocks outside empty, stale shadows on the safe side |
| PowerOfTwo.CeilToPow2 | 3rd/moodycamel/readerwriterqueue.h:619-631 | the least power of two that is at least x for 1 to 2^63, and 0 for 0 and everything larger |
| PowerOfTwo.SmearDoubles | 3rd/moodycamel/readerwriterqueue.h:622-628 | or-ing a number with itself shifted by the length of its run of leading ones doubles the run |
| PowerOfTwo.MaskIsRemainder | 3rd/moodycamel/readerwriterqueue.h:520-520 | masking with a power of two less one is taking the remainder |
| PowerOfTwo.Align32 | 3rd/dpdk/include/rte_common.h:348-356 | the 32-bit variant gives the least power of two that is at least x for 1 to 2^31, and 0 for 0 and everything larger |
| GroupedList.List.Insert | src/common/plf_list.hh:1777-1884 | puts the element in front of the given place and nowhere else, at a node not in use; every other node keeps its place and value; all bookkeeping stays consistent |
| GroupedList.List.Erase | src/common/plf_list.hh:2399-2525 | removes exactly that element, returns the next one's node; the group's node is freed or the emptied group is dropped, moved to the back or left idle, and all bookkeeping stays consistent |
| GroupedList.List.Clear | src/common/plf_list.hh:1735-1753 | empties the list and runs the destructor on every element exactly once |
| GroupedList.List.ClearGroups | src/common/plf_list.hh:553-664 | the destructor loops over the groups hit exactly the elements, with and without erased nodes in a group |
| GroupedList.NearestFree | src/common/plf_list.hh:830-1007 | started from any last searched group, even an inactive one, the search ends with an active group that has an erased node, and remembers the group of the given node; the group found is at most one further from it than the nearest; it is the nearest if and only if not `Short`: the usable groups next to the node's group on either side are not one apart in distance with the further one met first, which is a comparison of their places with that of the last searched group |
| GroupedList.NotTheNearest | src/common/plf_list.hh:930-937 | with four groups, the first and last usable, a search for the second that starts from the third returns the fourth and not the first |
| GroupedList.FindGroup | src/common/plf_list.hh:2416-2452 | the outward search of erase ends with the group of the given node |
| GroupedList.Outwards | src/common/plf_list.hh:982-1005 | the final loop of the search always finds a group, at one of two ends between which nothing is usable and whose distances keep step |
| GroupedList.ScanRight | src/common/plf_list.hh:882-891 | the scan on the far side stops in range, at the first usable group, or with none passed over |
| GroupedList.ScanLeft | src/common/plf_list.hh:946-955 | likewise to the left |
| GroupedList.List.Extend | src/common/plf_list.hh:1783-1795 | making the next group the back group, or adding one, keeps the bookkeeping |
| GroupedList.List.InsertErased | src/common/plf_list.hh:1816-1842 | reusing an erased node of the group found |
| GroupedList.List.InsertUnused | src/common/plf_list.hh:1797-1815 | taking the first node never used |
| GroupedList.List.InsertFirst | src/common/plf_list.hh:1844-1883 | inserting into an empty list, with or without groups |
| GroupedList.List.FreeNode | src/common/plf_list.hh:2468-2474 | the erased node becomes the head of its group's free list, marked by a null next, and the list is consistent again |
| GroupedList.List.DropGroup | src/common/plf_list.hh:2475-2499 | an emptied group is kept, without free list, behind all others if it is of the largest size or near the back, and removed otherwise; the erased count loses exactly its nodes; the list is consistent again |
| GroupedList.List.DropBackGroup | src/common/plf_list.hh:2500-2515 | an emptied back group is left idle, the group before it becomes the back group with no unused node, the erased count loses the nodes used; the list is consistent again |
| GroupedList.CountersAddUp | src/common/plf_list.hh:1803-1831 | the groups' element counts add up to the list's size, and their used nodes are the elements and the erased nodes together |
| GroupedList.LinkInsert | src/common/plf_list.hh:1797-1812 | splicing a node in keeps next and previous inverse to each other around the ring |
| GroupedList.LinkErase | src/common/plf_list.hh:2454-2463 | so does taking one out |
| Flow.RunsAsComposed | src/reactor/flow.hh:311-364 | in every run, with any mix of runners and any other flows, a flow's stage calls are a prefix of its left-to-right composition over nothing, exception and value, and all of it once nothing is waiting |
| Flow.CallsInOrder | src/reactor/flow.hh:311-364 | the same for flows that need not end: the calls made are the first calls of the flow's meaning, and there are no others to make once nothing is waiting |
| Flow.CallsObey | src/reactor/flow.hh:311-364 | in every run each call of a flow is of the stage that is next, nested flows spliced in, and is told exactly what the stage before came to: an exception if and only if it threw that exception, a value if and only if it returned that value, nothing if and only if it returned nothing |
| Flow.StageToStage | src/reactor/flow.hh:316-349 | for a flow without nested ones: call k is of stage k, the first is told what started the flow, and call k + 1 what came of call k |
| Flow.ThroughNested | src/reactor/flow.hh:325-360 | when stage i returns a flow, its stages are called next, and then stage i + 1, which is told what came of the last of them, or what starts the nested flow if it has none |
| Flow.RunsToTheEnd | src/reactor/flow.hh:253-304 | any run of finite flows, whatever it has got to, can be continued until nothing is waiting, and every flow has then made exactly its calls |
| Flow.EveryScheduleEnds | src/reactor/flow.hh:253-304 | in every schedule of finite flows at most as many tasks are run as the flows amount to, and exactly as many when nothing is waiting |
| Flow.RunnersDoNotMatter | src/reactor/flow.hh:274-278 | deferred execution means what immediate execution means: of two flows that differ only in where they and the flows nested in them are scheduled, however deep and whether or not they end, in any two runs one has made the first calls of the other, and both the same calls once nothing is waiting |
| Flow.ComposeAlike | src/reactor/flow.hh:274-278 | such flows have the same composition |
| Flow.AtMostOnce | src/reactor/flow.hh:159-208 | no node's action runs twice, whatever competing triggers arrive, from whom and when |
| Triggers.FromThereOn | src/reactor/flow.hh:159-208 | a node that a competing trigger reaches first keeps that argument whatever arrives later; with no other such trigger behind it in this submission, every node behind it gets what the composition of the stages from there on gives, nested flows included, and once nothing is waiting all of them have run |
| Triggers.LogIsRuns | src/reactor/flow.hh:159-208 | in every run, competing triggers included, the calls made are those of the nodes that ran, in that order, each with the argument of its first trigger |
| Flow.StagePerPass | src/reactor/flow.hh:293-304 | the k-th stage of a flat chain on the task center runs in the (k + 1)-th pass after its submission, whatever else is queued |
| Immediate.RunsAtOnce | src/reactor/schedule.hh:43-51 | in every run, a flow that never asks for the task center, nor do the flows nested in it, makes all its calls in the pass in which it is submitted, and none is left to be made whenever the runner's stack is empty, before the task center takes another task |
| Flow.SpliceMeans | src/reactor/flow.hh:325-360 | relaying the end of a nested flow to the outer stage's successor keeps the meaning of the composition |
| Flow.Arrive | src/reactor/flow.hh:166-208 | the first trigger of a node schedules its action once with that argument, or ends the flow |
| Flow.PerformKeeps | src/reactor/flow.hh:311-364 | a stage's action passes exactly its outcome on, an exception included |
| TaskCenter.Center.Run | src/reactor/schedule.hh:54-68 | one pass runs exactly the tasks waiting at its start, in order and once each even if they throw, and leaves exactly what they scheduled |
| TaskCenter.RunsOut | src/reactor/schedule.hh:54-72 | after as many passes as tasks are nested deep nothing is waiting, and every task has run exactly once |
| TaskCenter.NotSooner | src/reactor/schedule.hh:54-72 | with fewer passes something is still waiting |
| Bitmap.Map.Scan | 3rd/dpdk/include/rte_bitmap.h:474-490 | returns the first non-zero slab in cyclic order from the cursor with its position and value, and moves the cursor just behind it; fails only on an empty bitmap |
| Bitmap.Map.ScanMany | 3rd/dpdk/include/rte_bitmap.h:397-490 | k scans of an unchanged bitmap with at least k non-zero slabs return the first k of them in cyclic order |
| Bitmap.SweepLists | 3rd/dpdk/include/rte_bitmap.h:397-490 | one round in cyclic order lists every non-zero slab exactly once and nothing else |
| Bitmap.SweepNext | 3rd/dpdk/include/rte_bitmap.h:433-452 | the next non-zero slab is the first of the round, and the round goes on behind it |
| Bitmap.Map.ScanSearch | 3rd/dpdk/include/rte_bitmap.h:398-422 | finds the next line with its summary bit set, the current line last, or reports that none is |
| Bitmap.Map.ScanRead | 3rd/dpdk/include/rte_bitmap.h:433-452 | reads on in the current line to its first non-zero slab, or to its end |
| Bitmap.Map.Set | 3rd/dpdk/include/rte_bitmap.h:297-313 | sets exactly that bit and keeps the summary |
| Bitmap.Map.SetSlab | 3rd/dpdk/include/rte_bitmap.h:325-339 | or-s the slab in; the summary stays right if and only if the slab is not zero or its line was not empty |
| Bitmap.Map.Clear | 3rd/dpdk/include/rte_bitmap.h:365-395 | clears exactly that bit, and the line's summary bit exactly when the line has become zero |
| Bitmap.Map.LineNotEmpty | 3rd/dpdk/include/rte_bitmap.h:342-355 | whether any of the eight slabs is non-zero |
| Bitmap.Map.constructor | 3rd/dpdk/include/rte_bitmap.h:102-143 | a bitmap of the size asked for, all clear, whose first scan starts at slab 0 |
| Bitmap.LinesCover | 3rd/dpdk/include/rte_bitmap.h:110-111 | the lines allocated cover the bits if and only if rounding up does not overflow |
| RingBuffer.Buffer.Commit | src/common/packet_buffer.hh:121-126 | the n bytes at the write head become the end of the contents |
| RingBuffer.Buffer.Consume | src/common/packet_buffer.hh:129-134 | the first n bytes leave the contents |
| RingBuffer.Buffer.Write | src/common/packet_buffer.hh:206-210 | writing within the free size at the write head, across the seam too, leaves the unread bytes alone |
| RingBuffer.Buffer.PopBytes | src/common/packet_buffer.hh:59-62 | the bytes from the read head on, in one piece through the mapping, are the first of the contents, and are consumed |
| RingBuffer.Buffer.PopString | src/common/packet_buffer.hh:64-70 | a two-byte length and that many bytes, with a zero at the end |
| RingBuffer.Buffer.PopUint16 | src/common/packet_buffer.hh:71-73 | a two-byte number, low byte first |
| RingBuffer.Buffer.Clear | src/common/packet_buffer.hh:137-140 | empties the buffer |
| RingBuffer.BytesSplit | src/common/packet_buffer.hh:181-184 | a run of bytes through the doubled mapping splits at any point, wrapped or not |
| TimerSet.TimeSet.HandleTimeout | src/timer/time_set.hh:67-75 | for every callback and whatever timestamps its timers get: ends with everything left due later; each timer that was there or was added has fired once or is left if and only if no callback run on the way adds a timer due before the one that fired; then exactly what comes due fired, in order of time, including what callbacks add |
| TimerSet.TimeSet.FireRoot | src/timer/time_set.hh:72-73 | the pop after the callback removes the timer just fired if and only if the callback added none that is due before it; otherwise the earliest of those added is dropped and the fired one stays |
| TimerSet.LostAndRepeated | src/timer/time_set.hh:67-75 | the clock set back: a timer due at 10 adds one due at 5, which is gone without having fired, and the first is left to fire again |
| TimerSet.AheadIsPrompt | src/timer/time_set.hh:24-26 | with a clock that does not read less than the time given to `handle_timeout`, no callback adds such a timer |
| TimerSet.TimeSet.AddTimer | src/timer/time_set.hh:50-53 | adds exactly that timer; the earliest timer stays in front unless the new one is due before it |
| TimerSet.TimeSet.Pop | src/timer/time_set.hh:73-73 | removes exactly the front timer and restores the order |
| TimerSet.TimeSet.NearestDelay | src/timer/time_set.hh:58-66 | none when empty, otherwise the least remaining time, 0 when something is due |
| TimerSet.Permuted | src/timer/time_set.hh:67-75 | what comes due, what is left and how much there is to do do not depend on the heap's arrangement |
| ConsistentHash.Ring.Find | src/common/consistent_hashing.hh:62-74 | the first node clockwise, with wrap-around, or none when empty |
| ConsistentHash.InsertMovesOneArc | src/common/consistent_hashing.hh:55-58 | a node at an unused hash takes over exactly the keys in the arc from its predecessor to it |
| ConsistentHash.OneArcMoves | src/common/consistent_hashing.hh:55-58 | on a ring with a node, such a predecessor always exists, so one arc moves and nothing else |
| ConsistentHash.EraseMovesOneArc | src/common/consistent_hashing.hh:59-61 | when a node goes and another is left, the keys of the arc from its predecessor to it, which were exactly its own, pass to the next node clockwise; every other key keeps its owner |

## Left out

- Memory orderings and fences: atomic accesses are sequentially consistent.
- Throwing constructors and assignments in the queues, and the roll-back of `enqueue_bulk`.
- Bulk enqueue of both producers, and the index walk of the implicit producer's bulk dequeue: claiming many elements at once is in `DequeueProtocol`, the walk is modelled for the explicit producer.
- The counter that replaces the flags of explicit blocks of more than 32 elements.
- Giving an explicit producer's blocks back when it is destroyed.
- `MAX_SUBQUEUE_SIZE`, which is off by default, and block recycling through producer tokens.
- An explicit or implicit index doubled beyond the point where its size still divides the number of blocks in the word range: the model takes that allocation to fail.
- Recycling of producers of exited threads, allocation failure and `reusable` keys in the hash.
- Producer and consumer tokens, queue moves and swaps, statistics, and the blocking wrapper.
- DequeueProtocol.CalmTransfers: a consumer that sleeps inside one call while half the word range of elements is published or asked for is outside it.
- BlockPool.OnePlace: takes the free list as a set with atomic add and get, which `FreeList.RefinesSet` shows it to be; the two state machines are not run as one.
- Spsc.CallAnswers: `pop` is modelled as a dequeue whose caller drops the value, and `emplace` as an enqueue.
- Of the list: fill, range and move insertion, range erase, splice, merge, reserve, sort, copying, swapping, and the growth of the group vector's own storage.
- Flow stages are functions of their argument, and `Flow.RunsToTheEnd` is about flows whose nesting is finite; side effects appear only as the log of calls.
- The task center's `run` called from inside a task, and `____forward_flow_monostate_exception`.
- Type computation in the flow templates: one argument type stands for all.
- Triggers.FromThereOn: takes the competing trigger to be the last of its submission's nodes that one aims at; with several, it speaks of the nodes behind the last.
- The bitmap's reading of one bit, memory-size check, 128-byte cache lines, prefetching and reset; a slab is the set of its one bits.
- TimerSet.TimeSet.Pop: the standard priority queue is taken to be a binary heap; how it arranges equal times is not modelled beyond what the contract says.
- Timer callbacks are finite: what one adds, with the timestamps it reads off the clock, is listed for each time it runs; one that keeps adding timers due at once never lets `handle_timeout` end.
- The ring buffer's `mmap` set-up, its free size and `end`, which does not describe an empty buffer.
- MQTT sessions, caches, sockets and event loops, the AVP FIFO, and everything under `bak/`.
