# Block layer and crypto core of Linux 2.6.37 in Dafny

This project models parts of the block layer (`linux-2.6.37/block`) and of the crypto API (`linux-2.6.37/crypto`) and
proves global properties of them: guarantees over whole runs, protocols whose every step keeps an invariant, loops that
refine a standard, counters that agree with what they count. `dafny verify dfyconfig.toml` checks the whole project.

Code that the source runs by updating fields in place is a class whose methods change the same fields; each method is
specified by a function on values, and the theorems are about those functions and about the class invariants. Protocols
with several actors are state machines in which one section under the queue lock is one step.

| files | what they model |
|---|---|
| `ThrottleLane`, `ThrottleRuns`, `Throttle` | I/O throttling: slices, the two limits, waits, runs of one direction, the dispatch loop over all groups |
| `Segments`, `Merge` | segment counting, request merging and scatterlists |
| `Cooperator`, `Fairness`, `Accounting` | CFQ: merge chains with their references, weighted virtual time, service-tree counts |
| `AesField`, `AesRounds`, `Aes` | AES: column arithmetic, the two ciphers of FIPS 197, table rounds, key schedule |
| `Flush`, `FlushMachine`, `FlushProgress` | FLUSH/FUA sequencing, and the same together with a driver and a device with a volatile cache |
| `Deadline` | the deadline scheduler |
| `Completion`, `MergeIndex`, `Switch` | partial completion, the merge hash, live switch of the scheduler |
| `Spawns`, `Cbc`, `Bounce` | unregistering algorithms, cipher block chaining, the bounce buffer |
| `Arith`, `Lists`, `Options` | shared arithmetic, lists of distinct items, optional values |

Where the code does not quite do what one would expect, the project keeps the code as it is, shows an instance, and
states when the property holds:

- The bytes wait of the throttle can be one jiffy short (`ThrottleLane.BpsWaitOneShort`, `ThrottleLane.BpsWaitSuffices`).
  The bio-count wait can be too short when the 32-bit product of count and HZ overflows
  (`ThrottleRuns.IopsWaitTooShort`, `ThrottleLane.IopsWaitSuffices`).
- The limit on the number of bios stops holding once bios that pass without waiting have kept a slice open until its
  quota reaches the width of the 32-bit counter. That takes a limit of at least one bio a slice; below that the limit on
  bios always holds (`ThrottleRuns.BioRateExact`). The limit on bytes has no such exception (`ThrottleLane.RateBound`).
- A request without data that asks a device with FUA support for FUA alone can let a waiting FLUSH request reach the
  driver without its sequence (`FlushMachine.UnfitLeaks`, `FlushMachine.LeaksExactly`, `FlushMachine.FitMeans`).
- The bound on how long reads can hold up writes can be exceeded by one call if a request at an occupied sector arrives
  before the first dispatch call, and only then (`Deadline.PromiseExact`, `Deadline.PromiseExactAtCall`).
- With `writes_starved` zero, a read can be held up by writes for ever; with one or more an expired read has a bound
  (`Deadline.ReadBoundExact`).
- A process that changes its control group while its queue is to be merged leaves references behind
  (`Cooperator.CfqData.ChangedCgroup`).
- Completing a request in several parts moves its start sector less far than in one if the parts leave 512 bytes or more
  beyond whole sectors (`Completion.RunSector`, `Completion.SectorTwice`, `Completion.SectorLost`).

## Model

| member | source | states |
|---|---|---|
| ThrottleLane.RateBound | linux-2.6.37/block/blk-throttle.c:346-657 | In every run of decisions, charges, trims, extensions and slice restarts, HZ times the bytes charged since a slice start stays within the limit times the elapsed time plus one slice, and so does HZ times the bios as long as the quota since then is below the width of the 32-bit counter |
| ThrottleLane.RateBoundFromCreation | linux-2.6.37/block/blk-throttle.c:346-657 | The same counted from the first decision of a newly created group |
| ThrottleLane.StepKeeps | linux-2.6.37/block/blk-throttle.c:443-657 | Each probe, submission or dispatch keeps the books: what left the current slice fits the time before it, and what is in it fits the slice |
| ThrottleLane.TrimKeeps | linux-2.6.37/block/blk-throttle.c:384-441 | Trimming forgets only what elapsed slices paid for |
| ThrottleLane.OpenedKeeps | linux-2.6.37/block/blk-throttle.c:559-570 | Restarting or extending a slice before a decision keeps the books |
| ThrottleLane.ChargeKeeps | linux-2.6.37/block/blk-throttle.c:590-604 | Charging a bio that both limits accepted keeps the books |
| ThrottleLane.Rounded | linux-2.6.37/block/blk-throttle.c:499-507 | Elapsed time counts in whole slices, at least one, and at most one slice too much |
| ThrottleLane.BpsWait | linux-2.6.37/block/blk-throttle.c:493-533 | The bytes wait is zero exactly when the bio fits |
| ThrottleLane.IopsWait | linux-2.6.37/block/blk-throttle.c:443-491 | Zero exactly when the test on the 32-bit count accepts one more bio |
| ThrottleLane.MayDispatch | linux-2.6.37/block/blk-throttle.c:539-588 | Accepted exactly when the wait is zero; limits are not changed |
| ThrottleLane.IopsWaitSuffices | linux-2.6.37/block/blk-throttle.c:443-491 | After the promised wait the bio-count test accepts if and only if no 32-bit operation overflows, or the slice in which the wait ends pays for what the overflow lost, or the next jiffy begins a slice that earns enough |
| ThrottleLane.BpsWaitSuffices | linux-2.6.37/block/blk-throttle.c:493-533 | One jiffy after the promised wait the bytes test accepts; at the promised time it does if and only if the excess is not a whole number of slices, or is less than a jiffy, or loses no more in the division than the allowance does |
| ThrottleLane.BpsWaitOneShort | linux-2.6.37/block/blk-throttle.c:493-533 | An instance at HZ 100 where the promised bytes wait is one jiffy short |
| ThrottleLane.RefusalIsStable | linux-2.6.37/block/blk-throttle.c:539-588 | Deciding a refused bio again at the same time changes nothing |
| ThrottleLane.AcceptsExactly | linux-2.6.37/block/blk-throttle.c:443-588 | A bio is accepted exactly if HZ times the bytes and bios of its slice, with it, are within the limits times the elapsed time in whole slices; the slice is a new one if the time is outside the present one |
| ThrottleLane.ExtendedExactly | linux-2.6.37/block/blk-throttle.c:358-369 | A slice is extended to the first whole slice after the time it has to reach, and is never cut |
| ThrottleLane.RefusalHolds | linux-2.6.37/block/blk-throttle.c:559-587 | A refusal keeps the slice open until the promised time, with the same start and counts |
| ThrottleLane.RetryExact | linux-2.6.37/block/blk-throttle.c:539-588 | A refused bio that comes back at the promised time is accepted exactly if the wait of the limit that refused it is long enough and, when that was the limit on bytes, the limit on bios has earned it too |
| ThrottleLane.AcceptedInTime | linux-2.6.37/block/blk-throttle.c:539-588 | A bio that comes back at each promised time is accepted by the fourth decision, unless the 32-bit wait overflows; then at most one refusal a jiffy is added until the slice has earned it |
| ThrottleRuns.BioRateExact | linux-2.6.37/block/blk-throttle.c:443-657 | From its first bio, the number of bios a direction of a group lets through fits its limit in every run up to a given time, if and only if the limit is below one bio a slice or the quota of the longest slice that a run can keep open is below the width of the 32-bit counter: the first slice at two bios a slice or more, else the second |
| ThrottleRuns.TrimQuota | linux-2.6.37/block/blk-throttle.c:384-441 | Trimming takes away at most one byte and one bio of the quota left, and grants none unless the slice is trimmed at its very end |
| ThrottleRuns.HeadLeaves | linux-2.6.37/block/blk-throttle.c:619-690 | The first waiting bio of a direction, served at its promised times, leaves with the fourth service unless the 32-bit wait overflows, and within a stated number otherwise |
| ThrottleRuns.CalmKept | linux-2.6.37/block/blk-throttle.c:384-604 | Below one bio a slice, a slice that is open while no bio waits is no longer than a slice for each bio in it and a constant, and the count stays at most HZ*(HZ+2) |
| ThrottleRuns.MovedKept | linux-2.6.37/block/blk-throttle.c:384-604 | Between one and two bios a slice, the first slice does not last: the second bio waits, and serving it moves the start of the slice |
| ThrottleRuns.EventKeeps | linux-2.6.37/block/blk-throttle.c:639-657 | Every arrival, service and look keeps the bios within the pace of the limit and the counter from filling |
| ThrottleRuns.WideBreaks | linux-2.6.37/block/blk-throttle.c:982-1009 | Where that condition fails, bios that arrive one a slice keep the slice open and then any number passes |
| ThrottleRuns.IopsWaitTooShort | linux-2.6.37/block/blk-throttle.c:474-489 | A run of arrivals at HZ 1000 after which a bio is told to wait one jiffy and is refused again then |
| Throttle.ThrotlGrp.constructor | linux-2.6.37/block/blk-throttle.c:183-200 | A new group has unused slices, empty lists, its limits, and has let nothing through |
| Throttle.ThrotlGrp.StartNewSlice | linux-2.6.37/block/blk-throttle.c:346-356 | Resets the counters and opens a slice now |
| Throttle.ThrotlGrp.TrimSlice | linux-2.6.37/block/blk-throttle.c:384-441 | The in-place trim does what the trim on values does |
| Throttle.ThrotlGrp.MayDispatch | linux-2.6.37/block/blk-throttle.c:539-588 | The in-place decision does what the decision on values does |
| Throttle.ThrotlGrp.ChargeBio | linux-2.6.37/block/blk-throttle.c:590-604 | Adds the bytes and one bio |
| Throttle.ThrotlGrp.TryPass | linux-2.6.37/block/blk-throttle.c:1006-1009 | A bio that fits passes at once, is charged, and counts as let through |
| Throttle.ThrotlGrp.TryDispatchOne | linux-2.6.37/block/blk-throttle.c:639-657 | The head of a list is taken exactly when the decision accepts it; it is then charged, the slice trimmed, and it counts as let through |
| Throttle.ThrotlGrp.DispatchLane | linux-2.6.37/block/blk-throttle.c:667-687 | Takes a prefix of the list in order, charges exactly those bios, and stops early only at a refused head |
| Throttle.ThrotlGrp.DispatchTg | linux-2.6.37/block/blk-throttle.c:659-690 | At most three quarters of the quantum are reads; prefixes of both lists are taken and charged, and a direction below its quota has a refused head |
| Throttle.ThrotlGrp.NextDisptime | linux-2.6.37/block/blk-throttle.c:619-637 | The new dispatch time is now plus the shorter of the two heads' waits, and later than now if both were refused |
| Throttle.HeadsFitMeans | linux-2.6.37/block/blk-throttle.c:619-637 | The dispatch time of a group is that of one of its heads, and no head has to wait less |
| Throttle.ThrotlData.constructor | linux-2.6.37/block/blk-throttle.c:1039-1058 | A queue without groups is valid |
| Throttle.ThrotlData.AddGroup | linux-2.6.37/block/blk-throttle.c:183-216 | A new group can join at any time |
| Throttle.ThrotlData.Enqueue | linux-2.6.37/block/blk-throttle.c:270-311 | The group joins the tree in order of dispatch time |
| Throttle.ThrotlData.Dequeue | linux-2.6.37/block/blk-throttle.c:313-323 | The group leaves the tree |
| Throttle.HandedCounts | linux-2.6.37/block/blk-throttle.c:639-657 | The bios a group hands out left its lists and count as let through, each once |
| Throttle.ThrotlData.ServeFirst | linux-2.6.37/block/blk-throttle.c:692-721 | A round dispatches a bio or makes one due group wait; what it hands out is what the group served now counts as let through, and the other groups are left alone |
| Throttle.ThrotlData.SelectDispatch | linux-2.6.37/block/blk-throttle.c:692-721 | The dispatch loop ends; in each direction of each group bios move in order from waiting to let through; the bios handed out are those taken off the lists and those charged; below the quantum no group on the tree is due |
| Throttle.ThrotlData.UpdateDisptime | linux-2.6.37/block/blk-throttle.c:619-637 | A busy group is filed under the time at which the first of its two heads is expected to fit |
| Throttle.ThrotlData.ThrottleBio | linux-2.6.37/block/blk-throttle.c:982-1037 | A bio is queued behind the others exactly when one of its direction waits or it does not fit; otherwise it is charged and let through |
| Throttle.ThrotlData.SubmitBio | linux-2.6.37/block/blk-throttle.c:982-1037 | The same, and the totals stay equal to the lists |
| Throttle.SomeoneScheduled | linux-2.6.37/block/blk-throttle.c:325-344 | Whenever bios are queued a group is on the tree, so the assertion before scheduling work holds |
| Throttle.GroupWithinRate | linux-2.6.37/block/blk-throttle.c:346-721 | In every state of the whole queue, for each direction of each group, the bytes of all bios ever let through fit the limit over the time since its first decision plus one slice, and so does their number while the quota is below the width of the counter |
| Throttle.TimePasses | linux-2.6.37/block/blk-throttle.c:374-381 | Time passing keeps every claim |
| Segments.GreedyStaysAhead | linux-2.6.37/block/blk-merge.c:117-199 | After any prefix, the greedy mapping has used no more entries than any other segmentation, and on a tie its last one is no longer |
| Segments.GreedyIsOptimal | linux-2.6.37/block/blk-merge.c:117-199 | The mapping needs no more entries than any segmentation within the limits |
| Segments.MappedRuns | linux-2.6.37/block/blk-merge.c:117-165 | In addresses and lengths: the scatterlist joins two neighbouring vectors exactly if clustering is on, the entry stays within the size limit, the second begins where the first ends, and it ends in the boundary window in which the first begins |
| Segments.CountedRuns | linux-2.6.37/block/blk-merge.c:12-69 | The count does the same, and parts pages above the bounce limit as well |
| Segments.RunsUnique | linux-2.6.37/block/blk-merge.c:12-165 | There is only one way to part the vectors like that |
| Segments.MappedIsSegmentation | linux-2.6.37/block/blk-merge.c:133-165 | The mapping is a segmentation of the vectors within the limits |
| Segments.CountedIsSegmentation | linux-2.6.37/block/blk-merge.c:12-69 | The count is the size of a segmentation within the limits |
| Segments.EntriesCover | linux-2.6.37/block/blk-merge.c:117-199 | Entries cover exactly the bytes of the vectors, in order |
| Segments.JoinedWithinLimits | linux-2.6.37/block/blk-merge.c:133-165 | A joined segment lies within the size limit and one boundary window |
| Segments.FusedKeeps | linux-2.6.37/block/blk-merge.c:87-111 | Joining two segmentations at a seam that fits gives one with one segment less |
| Merge.RecountSegments | linux-2.6.37/block/blk-merge.c:12-84 | The recount loop gives the number of segments of the vectors joined wherever they may be, and the sizes of the first and the last |
| Merge.RecountedOk | linux-2.6.37/block/blk-merge.c:12-84 | A recounted bio has a segmentation that explains its cached count and sizes |
| Merge.MergeConsistent | linux-2.6.37/block/blk-merge.c:277-315 | Merging two requests keeps a segmentation that explains the new count and sizes, also when the merge is refused for its count |
| Merge.ContiguousMeans | linux-2.6.37/block/blk-merge.c:87-111 | In addresses and lengths: when the seam of two bios is joined |
| Merge.MappedLegal | linux-2.6.37/block/blk-merge.c:117-199 | Every entry is one vector, or within the size limit and one boundary window |
| Merge.Prepare | linux-2.6.37/block/blk-merge.c:76-84 | A bio that is counted on demand gets the count it is charged with |
| Merge.Request.constructor | linux-2.6.37/block/blk-core.c:2427-2442 | A new request has the count of its bio |
| Merge.Request.BackMerge | linux-2.6.37/block/blk-merge.c:202-250 | A bio is appended exactly when length and count allow it; otherwise the request is closed for merging |
| Merge.Request.FrontMerge | linux-2.6.37/block/blk-merge.c:202-275 | The same in front |
| Merge.Request.Absorb | linux-2.6.37/block/blk-merge.c:277-315 | The next request is taken over exactly when the joint count fits; for requests with data the 16-bit count is exact, and the sizes at the two ends are those after the seam |
| Merge.Request.MergeWith | linux-2.6.37/block/blk-merge.c:366-446 | Two requests merge exactly when they are compatible, adjacent, short enough and few enough segments |
| Merge.Request.MapSg | linux-2.6.37/block/blk-merge.c:117-199 | Whatever merges built the request, its scatterlist has at most nr_phys_segments entries, covers its bytes in order, joins only within the limits, and parts vectors only where they may not be joined |
| Cooperator.Acyclic | linux-2.6.37/block/cfq-iosched.c:2048-2088 | Following merge links to an end never meets a queue twice |
| Cooperator.SameEnd | linux-2.6.37/block/cfq-iosched.c:2063-2067 | Two chains through one queue end at the same queue |
| Cooperator.Followable | linux-2.6.37/block/cfq-iosched.c:2048-2067 | A queue with process references starts a chain of existing queues, without repetition, all of them with process references |
| Cooperator.RefsMean | linux-2.6.37/block/cfq-iosched.c:2038-2046 | References minus allocated requests are the processes whose chain passes through the queue |
| Cooperator.DropKeeps | linux-2.6.37/block/cfq-iosched.c:2536-2562 | Dropping an owed reference keeps all counts; a queue is freed only without requests and outside every chain |
| Cooperator.DropPaths | linux-2.6.37/block/cfq-iosched.c:2536-2562 | Chains survive: a queue on one is not freed |
| Cooperator.LinkKeeps | linux-2.6.37/block/cfq-iosched.c:2078-2087 | The queue that takes over gains one reference for every process whose chain it joins |
| Cooperator.MoveKeeps | linux-2.6.37/block/cfq-iosched.c:3603-3612 | A process that follows a link owes exactly one reference, on the queue it leaves |
| Cooperator.LeaveKeeps | linux-2.6.37/block/cfq-iosched.c:2650-2681 | A process that leaves owes one reference on each queue of its chain |
| Cooperator.NewKeeps | linux-2.6.37/block/cfq-iosched.c:3659-3661 | A new queue has one reference, for its process |
| Cooperator.ChargeKeeps | linux-2.6.37/block/cfq-iosched.c:3683-3684 | A request adds one to its direction and one reference |
| Cooperator.UnchargeKeeps | linux-2.6.37/block/cfq-iosched.c:3580-3601 | A freed request is counted on an existing queue, and owes its reference |
| Cooperator.CfqData.PutQueue | linux-2.6.37/block/cfq-iosched.c:2536-2562 | The reference count is positive, and the queue disappears exactly with its last reference |
| Cooperator.CfqData.FindEnd | linux-2.6.37/block/cfq-iosched.c:2063-2067 | The walk ends at the last queue of the chain, or reports that it ends at the given queue |
| Cooperator.CfqData.SetupMerge | linux-2.6.37/block/cfq-iosched.c:2048-2088 | A link is made exactly when both sides have processes and the candidate's chain does not end at the queue; the side with fewer processes is merged into the other |
| Cooperator.CfqData.PutCooperator | linux-2.6.37/block/cfq-iosched.c:2650-2669 | One reference is dropped on each queue behind the first; the loop check never fires |
| Cooperator.CfqData.ExitCfqq | linux-2.6.37/block/cfq-iosched.c:2671-2681 | A leaving process drops one reference on every queue of its chain and no other |
| Cooperator.CfqData.MergeCfqqs | linux-2.6.37/block/cfq-iosched.c:3603-3612 | The process moves one link on and drops the queue it leaves |
| Cooperator.CfqData.SplitCfqq | linux-2.6.37/block/cfq-iosched.c:3618-3634 | The queue is kept exactly when one process uses it; otherwise the whole chain is given up |
| Cooperator.CfqData.FindQueue | linux-2.6.37/block/cfq-iosched.c:3657-3682 | The queue used is a new one, the merge target, or the present one, as the flags say |
| Cooperator.CfqData.SetRequest | linux-2.6.37/block/cfq-iosched.c:3638-3701 | The request is counted on that queue and all counts stay right |
| Cooperator.CfqData.PutRequest | linux-2.6.37/block/cfq-iosched.c:3580-3601 | The request is uncounted and its reference dropped |
| Cooperator.CfqData.ChangedCgroup | linux-2.6.37/block/cfq-iosched.c:2860-2885 | Only the first reference is dropped: the counts are right afterwards if and only if the chain had one queue |
| AesField.ImixColIsInvMixColumn | linux-2.6.37/crypto/aes_generic.c:1128-1139 | The packed column step is InvMixColumns of section 5.3.3 of FIPS 197 |
| AesField.XTimeByCases | linux-2.6.37/crypto/aes_generic.c:1128 | Doubling in the field is the shift with conditional reduction |
| AesField.InvMixUndoesMix | linux-2.6.37/crypto/aes_generic.c:1130-1139 | InvMixColumns undoes MixColumns |
| AesField.InvMixLinear | linux-2.6.37/crypto/aes_generic.c:1130-1139 | InvMixColumns is linear, which moves round keys past it |
| AesRounds.EqInvCipherUndoesCipher | linux-2.6.37/crypto/aes_generic.c:1329-1440 | The Equivalent Inverse Cipher of section 5.3.5 of FIPS 197 with transformed keys undoes the cipher, for any number of rounds and any invertible S-box |
| Aes.ForwardRoundMeaning | linux-2.6.37/crypto/aes_generic.c:1300-1327 | A table round is SubBytes, ShiftRows, MixColumns, AddRoundKey |
| Aes.InverseRoundMeaning | linux-2.6.37/crypto/aes_generic.c:1372-1399 | An inverse table round is InvSubBytes, InvShiftRows, InvMixColumns, AddRoundKey |
| Aes.RcoIsRcon | linux-2.6.37/crypto/aes_generic.c:1147-1200 | The round constants are powers of two in the field |
| Aes.LsBoxIsSubWord | linux-2.6.37/crypto/aes_generic.c:1141-1145 | The last-round table gives SubWord |
| Aes.RorIsRotWord | linux-2.6.37/crypto/aes_generic.c:1147-1149 | The rotation in the schedule is RotWord |
| Aes.AesCtx.FillEncryptionKeys | linux-2.6.37/crypto/aes_generic.c:1216-1256 | The three loops compute the key expansion of section 5.2 of FIPS 197 |
| Aes.AesCtx.FillDecryptionKeys | linux-2.6.37/crypto/aes_generic.c:1258-1266 | The decryption keys are the encryption keys in reverse order, the inner ones through the column step |
| Aes.MirroredKeys | linux-2.6.37/crypto/aes_generic.c:1258-1266 | Keys filled this way are the transformed keys the Equivalent Inverse Cipher needs |
| Aes.AesCtx.ExpandKey | linux-2.6.37/crypto/aes_generic.c:1216-1268 | Sizes other than 16, 24 and 32 bytes are refused; otherwise both schedules are right |
| Aes.AesCtx.Encrypt | linux-2.6.37/crypto/aes_generic.c:1329-1368 | Computes the cipher of section 5.1 of FIPS 197 under the expanded keys |
| Aes.AesCtx.Decrypt | linux-2.6.37/crypto/aes_generic.c:1401-1440 | Computes the Equivalent Inverse Cipher under the decryption keys |
| Aes.AesCtx.DecryptUndoesEncrypt | linux-2.6.37/crypto/aes_generic.c:1216-1440 | For every block and every key of the three sizes, decryption returns the block |
| Flush.FlushQueue.CompleteSequence | linux-2.6.37/block/blk-flush.c:30-57 | Records the first error and the step, then queues the next step, or completes the request and releases the first that waits |
| Flush.FlushQueue.Flush | linux-2.6.37/block/blk-flush.c:137-192 | Passes a request that needs no flush, queues it behind a running sequence, or starts its sequence |
| Flush.FlushQueue.Peek | linux-2.6.37/block/blk.h:56-74 | The loop ends; what it returns is at the front of the list, and nothing is returned only from an empty list |
| Flush.NextIsFirst | linux-2.6.37/block/blk.h:56-74 | What the driver is offered is at the front of the list |
| FlushMachine.FitMeans | linux-2.6.37/block/blk-flush.c:137-192 | The requests the code cannot handle are exactly those without data that ask a device with FUA support for FUA alone |
| FlushMachine.NeededMeans | linux-2.6.37/block/blk-flush.c:137-191 | A flush in front exactly if the request asks for one, one behind exactly for FUA that the device lacks, in that order |
| FlushMachine.CurrentStep | linux-2.6.37/block/blk-flush.c:23-28 | The lowest clear bit is the next step the request needs, and it was not recorded |
| FlushMachine.AfterStep | linux-2.6.37/block/blk-flush.c:30-57 | Recording a step leaves the steps done a prefix of those needed, and the sequence ends exactly when all are done |
| FlushMachine.EndFlushKeeps | linux-2.6.37/block/blk-flush.c:59-91 | A completing step is not recorded yet, so the assertion on repeated steps holds |
| FlushMachine.SequenceKeeps | linux-2.6.37/block/blk-flush.c:137-192 | Starting, passing or parking a request keeps every request in one place and the machine consistent |
| FlushMachine.NextInv | linux-2.6.37/block/blk-flush.c:23-192 | Every step of submitters, driver, device and completions keeps the invariant |
| FlushMachine.RunFrom | linux-2.6.37/block/blk-flush.c:23-192 | Every run keeps the invariant |
| FlushMachine.Durability | linux-2.6.37/block/blk-flush.c:23-192 | In every run, success of a FLUSH request means that all writes acknowledged before its submission are durable, and success of a FUA request that its data are |
| FlushMachine.WriteOrder | linux-2.6.37/block/blk-flush.c:100-192 | In every run, data of a FLUSH request is issued only when everything acknowledged before its submission is durable, unless the flush failed |
| FlushMachine.StepsInOrder | linux-2.6.37/block/blk-flush.c:100-192 | In every run, a completed sequence ran the steps it needs once each in order, and reports the first error |
| FlushMachine.CompletedOnce | linux-2.6.37/block/blk-flush.c:44-48 | In every run, a request is in one place at a time and is completed at most once |
| FlushProgress.DriverAdvances | linux-2.6.37/block/blk-flush.c:30-191 | Every fetch and every completion changes nothing or leaves less work |
| FlushProgress.SomethingToDo | linux-2.6.37/block/blk-flush.c:30-191 | The driver has an effective step unless the dispatch list is empty and it holds no request |
| FlushProgress.EveryoneCompleted | linux-2.6.37/block/blk-flush.c:30-191 | After every run, however the driver goes on, its steps stop having an effect after a bounded number, and once it has nothing left to do every request submitted has been completed exactly once |
| FlushProgress.CompletionReached | linux-2.6.37/block/blk-flush.c:30-191 | It can always go on to that point, whatever errors the device reports |
| FlushMachine.OneSequence | linux-2.6.37/block/blk-flush.c:30-57 | In every run at most one sequence is active and no recorded step completes again |
| FlushMachine.NobodyStranded | linux-2.6.37/block/blk-flush.c:50-54 | In every run, if requests wait then a sequence runs or one to be sequenced is on the dispatch list |
| FlushMachine.DriverSeesNoFlush | linux-2.6.37/block/blk-flush.c:155-160 | In every run, requests handed over directly ask for no flush, nor for FUA the device lacks |
| FlushMachine.LeaksExactly | linux-2.6.37/block/blk-flush.c:166-191 | A waiting request is handed out without a sequence if and only if the one that starts needs no step |
| FlushMachine.UnfitLeaks | linux-2.6.37/block/blk-flush.c:137-192 | A run in which a waiting FLUSH request reaches the driver as it is |
| Deadline.Place | linux-2.6.37/block/elevator.c:361-382 | The place in sector order: everything before is lower, what follows is not |
| Deadline.AliasMeans | linux-2.6.37/block/elevator.c:361-382 | An alias is found exactly when a request is at the sector, and it is the only one |
| Deadline.AddSortedOk | linux-2.6.37/block/deadline-iosched.c:76-84 | Adding to the sort tree moves at most one request out, and both lists lose the same one |
| Deadline.AddOk | linux-2.6.37/block/deadline-iosched.c:100-113 | A new request joins both lists with the expiry of its direction, and the fifo stays in order of expiry |
| Deadline.FrontMergedOk | linux-2.6.37/block/deadline-iosched.c:156-168 | Repositioning keeps both lists equal as sets |
| Deadline.MergedOk | linux-2.6.37/block/deadline-iosched.c:170-189 | The merged request gets the earlier expiry and the place that goes with it |
| Deadline.NextInOrder | linux-2.6.37/block/deadline-iosched.c:65-74 | A batch goes on with the next higher sector; nothing lies between |
| Deadline.NextInv | linux-2.6.37/block/deadline-iosched.c:76-327 | Every operation keeps: each fifo holds the requests of its sort tree in order of expiry, one batch at a time, counters within the settings, nothing dispatched twice |
| Deadline.NothingLost | linux-2.6.37/block/deadline-iosched.c:76-327 | Every request is queued or dispatched, unless it was merged into another |
| Deadline.ChooseIs | linux-2.6.37/block/deadline-iosched.c:245-327 | A request is chosen whenever one is queued, and it is queued in the chosen direction |
| Deadline.BatchBeginsWith | linux-2.6.37/block/deadline-iosched.c:294-314 | A batch begins with the request of its direction that expires first, if one has expired or none is next in sector order, and with the next one otherwise |
| Deadline.BatchBegins | linux-2.6.37/block/deadline-iosched.c:245-327 | In every run, a batch of either direction begins within its patience, for reads if they may pass over a write at all |
| Deadline.WritesBegin | linux-2.6.37/block/deadline-iosched.c:245-327 | In every run with writes queued, a write batch begins within the patience of the state |
| Deadline.ExpiredWriteLeaves | linux-2.6.37/block/deadline-iosched.c:228-327 | In every run, an expired write (followed through merges) leaves before as many bounds as there are writes that expire no later |
| Deadline.ExpiredReadLeaves | linux-2.6.37/block/deadline-iosched.c:228-327 | If writes_starved is at least one, an expired read leaves within two batches for every read that expires no later, after a first read batch |
| Deadline.ReadBoundExact | linux-2.6.37/block/deadline-iosched.c:245-327 | There is a bound on how long an expired read stays if and only if writes_starved is at least one |
| Deadline.ReadsUnbounded | linux-2.6.37/block/deadline-iosched.c:270-293 | With writes_starved zero, from every state a queued read can stay for any number of calls |
| Deadline.WorstCase | linux-2.6.37/block/deadline-iosched.c:245-327 | From every state there is a run in which the patience is used up before a write batch begins, and one in which an expired write stays as long as the bound allows |
| Deadline.Promise | linux-2.6.37/block/deadline-iosched.c:245-327 | After a first dispatch call, and from the first one on if no batch position is set, a write batch begins within (writes_starved+1)*fifo_batch calls, and an expired write with k others that expire no later leaves within k+1 times that |
| Deadline.PromiseExact | linux-2.6.37/block/deadline-iosched.c:76-327 | All runs from a state keep the bound on write batches if and only if a dispatch call was counted before |
| Deadline.PromiseExactAtCall | linux-2.6.37/block/deadline-iosched.c:206-327 | All runs that begin with a dispatch call keep it if and only if one was counted before or no batch position is set |
| Deadline.ExpiredExact | linux-2.6.37/block/deadline-iosched.c:228-327 | All runs keep the bound on an expired write, if those behind it expire later, if and only if a dispatch call was counted before |
| Deadline.StartInv | linux-2.6.37/block/deadline-iosched.c:350-368 | An empty queue meets the invariant and has no batch position |
| Deadline.DeadlineData.constructor | linux-2.6.37/block/deadline-iosched.c:350-368 | Empty lists and trees |
| Deadline.DeadlineData.AddRqRb | linux-2.6.37/block/deadline-iosched.c:76-84 | The alias loop runs at most once |
| Deadline.DeadlineData.DelRqRb | linux-2.6.37/block/deadline-iosched.c:86-95 | The batch position moves on when its request is removed |
| Deadline.DeadlineData.RemoveRequest | linux-2.6.37/block/deadline-iosched.c:118-124 | The request leaves both lists |
| Deadline.DeadlineData.MoveRequest | linux-2.6.37/block/deadline-iosched.c:194-222 | The request goes to dispatch and the batch position to its successor |
| Deadline.DeadlineData.AddRequest | linux-2.6.37/block/deadline-iosched.c:100-113 | The in-place add does what the add on values does |
| Deadline.DeadlineData.MergedRequest | linux-2.6.37/block/deadline-iosched.c:156-168 | The in-place repositioning likewise |
| Deadline.DeadlineData.MergedRequests | linux-2.6.37/block/deadline-iosched.c:170-189 | The in-place merge likewise |
| Deadline.DeadlineData.PickDirection | linux-2.6.37/block/deadline-iosched.c:270-293 | Reads unless writes have been passed over as often as allowed |
| Deadline.DeadlineData.DispatchRequests | linux-2.6.37/block/deadline-iosched.c:245-327 | One request is dispatched exactly when one is queued, the one the choice on values names; the assertions on the sort trees hold |
| Fairness.KeyIsDifference | linux-2.6.37/block/cfq-iosched.c:543-559 | The signed 64-bit difference is the true one while times are less than half the range apart |
| Fairness.ScaledFits | linux-2.6.37/block/cfq-iosched.c:534-541 | A scaled charge of 32-bit time at a legal weight does not overflow |
| Fairness.PickedKeeps | linux-2.6.37/block/cfq-iosched.c:561-577 | The floor rises to the first group, never falls, and is at most every group's time |
| Fairness.ServedKeeps | linux-2.6.37/block/cfq-iosched.c:942-961 | A charge keeps the order and the groups |
| Fairness.SpreadStep | linux-2.6.37/block/cfq-iosched.c:942-961 | A charge to the first group leaves a spread of at most the old one or the charge |
| Fairness.SpreadBound | linux-2.6.37/block/cfq-iosched.c:836-961 | In every run with fixed groups and weights, the spread is at most the larger of the first spread and the largest scaled charge, and the floor never falls |
| Fairness.FloorHolds | linux-2.6.37/block/cfq-iosched.c:561-577 | In every state of every run the floor is at most each queued group's time |
| Fairness.TimeIsCharges | linux-2.6.37/block/cfq-iosched.c:942-961 | A group's time moves by exactly what it was charged |
| Fairness.FairCharges | linux-2.6.37/block/cfq-iosched.c:836-961 | Over any run, the charges of two groups differ by at most twice that spread |
| Fairness.FairShares | linux-2.6.37/block/cfq-iosched.c:534-541 | Over any run, use per weight of two groups differs by a constant, plus one unit of rounding a turn |
| Fairness.GroupTree.FindPlace | linux-2.6.37/block/cfq-iosched.c:836-862 | The comparison of 64-bit keys finds the true place |
| Fairness.GroupTree.NextGroup | linux-2.6.37/block/cfq-iosched.c:2194-2205 | Returns the group with the least time and raises the floor to it |
| Fairness.GroupTree.GroupServed | linux-2.6.37/block/cfq-iosched.c:942-961 | The 64-bit code charges and refiles as the model on true times does |
| Fairness.GroupTree.AddGroup | linux-2.6.37/block/cfq-iosched.c:864-890 | A group that becomes busy goes behind the last one and the 64-bit tree is in order; the distance that later comparisons rely on is kept if and only if the new time is within a sixteenth of the range of the floor |
| Fairness.GroupTree.DelGroup | linux-2.6.37/block/cfq-iosched.c:892-914 | A group that leaves does not disturb the others |
| Completion.AdvanceLeaves | linux-2.6.37/block/blk-core.c:2008-2139 | What is left after a call is exactly the suffix of the bytes |
| Completion.AdvanceEnds | linux-2.6.37/block/blk-core.c:2042-2047 | Bios end in chain order with the right error, and the rest are untouched but the first |
| Completion.AdvanceCovers | linux-2.6.37/block/blk-core.c:2042-2047 | Exactly the bios that are covered end |
| Completion.AdvanceTwice | linux-2.6.37/block/blk-core.c:2008-2139 | Completing x and then y bytes leaves the same remainder and the same reports as completing x+y |
| Completion.RunSector | linux-2.6.37/block/blk-core.c:2113-2119 | While data is left, any sequence of calls leaves the request at its start plus the bytes done in sectors, less one for every 512 bytes the calls leave beyond whole sectors; so it is right if and only if those are fewer than 512 |
| Completion.SectorTwice | linux-2.6.37/block/blk-core.c:2113-2119 | Completing x and then y bytes leaves the request at the sector that completing x+y does, if and only if x%512 + y%512 < 512 |
| Completion.BioSectorTwice | linux-2.6.37/block/blk-core.c:154-155 | The first bio left is one sector short of where one call puts it exactly if the parts of it that the two calls did make up one sector more together |
| Completion.SectorLost | linux-2.6.37/block/blk-core.c:2113-2119 | An instance: twice 300 bytes against 600 |
| Completion.RunLeaves | linux-2.6.37/block/blk-core.c:2008-2139 | After any sequence of calls the remainder is the suffix after the bytes completed |
| Completion.RunEnds | linux-2.6.37/block/blk-core.c:2008-2139 | After any sequence of calls, the bios ended and those left are together the chain, in order |
| Completion.RunErrors | linux-2.6.37/block/blk-core.c:134-170 | After any sequence of calls, a bio ended without error if and only if no call that completed a byte of it reported one |
| Completion.WalkInside | linux-2.6.37/block/blk-core.c:2048-2060 | The vector index stays inside the bio and a vector is never larger than it |
| Completion.FirstFits | linux-2.6.37/block/blk-core.c:2126-2133 | The first vector is no larger than the remainder: the request is never botched |
| Completion.Request.EndBio | linux-2.6.37/block/blk-core.c:134-170 | The bio shrinks, remembers an error, and ends when empty |
| Completion.Request.Walk | linux-2.6.37/block/blk-core.c:2039-2090 | The loop ends the bios that are covered and stops where the next one goes on |
| Completion.Request.Cover | linux-2.6.37/block/blk-core.c:2106-2111 | The bio covered in part is advanced |
| Completion.Request.Update | linux-2.6.37/block/blk-core.c:2008-2139 | A call does what the update on values does, keeps the length equal to the remainder, and says whether data is left |
| Spawns.ClosedContains | linux-2.6.37/crypto/algapi.c:132-179 | Whatever contains the users and is closed under use contains all that is reachable |
| Spawns.WalkComplete | linux-2.6.37/crypto/algapi.c:150-171 | When stack and first list are used up, the spawns met are exactly those reachable |
| Spawns.Registry.SetUsersAside | linux-2.6.37/crypto/algapi.c:143-148 | The users of the algorithm are moved to a list of their own |
| Spawns.Registry.Walk | linux-2.6.37/crypto/algapi.c:85-171 | The walk ends on every graph; the assertion fails if and only if the algorithm uses itself; otherwise each reachable spawn is moved once and cleared, and nothing else |
| Spawns.Registry.RemoveSpawn | linux-2.6.37/crypto/algapi.c:108-130 | The instance is dead; it goes to the list if it was alive, could be looked up, and its template is there |
| Spawns.Registry.RemoveAll | linux-2.6.37/crypto/algapi.c:173-178 | Each instance is listed at most once |
| Spawns.Registry.RemoveSpawns | linux-2.6.37/crypto/algapi.c:132-179 | Dead are exactly the instances that use the algorithm; they have no users left; other lists and spawns are untouched |
| Spawns.Registry.RemoveAlg | linux-2.6.37/crypto/algapi.c:374-386 | An unlisted algorithm is refused; otherwise it and what uses it are dead |
| Cbc.CryptoXorByte | linux-2.6.37/crypto/algapi.c:892-896 | Byte-wise exclusive or of one range into another |
| Cbc.CryptoXor | linux-2.6.37/crypto/algapi.c:892-907 | Word-wise with a byte-wise rest is the exclusive or of the ranges |
| Cbc.EncryptSegment | linux-2.6.37/crypto/cbc.c:42-64 | Two buffers: the blocks are CBC of section 6.2 of NIST SP 800-38A, the saved iv is the last cipher block, and bytes past the last whole block are untouched |
| Cbc.EncryptInPlace | linux-2.6.37/crypto/cbc.c:66-88 | The same in place |
| Cbc.DecryptSegment | linux-2.6.37/crypto/cbc.c:114-138 | Two buffers: the blocks are CBC decryption, the saved iv is the last cipher block |
| Cbc.DecryptDown | linux-2.6.37/crypto/cbc.c:151-161 | Backwards, each block is combined with the cipher block before it |
| Cbc.DecryptInPlace | linux-2.6.37/crypto/cbc.c:140-167 | The same in place |
| Cbc.EncryptChunk | linux-2.6.37/crypto/cbc.c:103-109 | Either variant, by whether the buffers are one |
| Cbc.DecryptChunk | linux-2.6.37/crypto/cbc.c:182-188 | Either variant, by whether the buffers are one |
| Cbc.Encrypt | linux-2.6.37/crypto/cbc.c:90-112 | For every list of chunks, in place or not, the blocks encrypted are one CBC pass, and the iv is the last cipher block |
| Cbc.Decrypt | linux-2.6.37/crypto/cbc.c:169-191 | For every list of chunks, in place or not, the blocks decrypted are one CBC pass, and the iv is the last cipher block |
| Cbc.EncConcat | linux-2.6.37/crypto/cbc.c:90-112 | Going on with the saved iv is one pass |
| Cbc.DecConcat | linux-2.6.37/crypto/cbc.c:169-191 | Going on with the saved iv is one pass |
| Cbc.EncOnePass | linux-2.6.37/crypto/cbc.c:90-112 | Any split into chunks encrypts as one pass |
| Cbc.DecOnePass | linux-2.6.37/crypto/cbc.c:169-191 | Any split into chunks decrypts as one pass |
| Cbc.EncUnique | linux-2.6.37/crypto/cbc.c:42-88 | The equations determine the cipher blocks |
| Cbc.RoundTrip | linux-2.6.37/crypto/cbc.c:42-167 | Decryption returns the plain blocks |
| Cbc.ChunkedRoundTrip | linux-2.6.37/crypto/cbc.c:90-191 | Decryption returns the plain blocks whatever splits and variants the two sides use |
| Bounce.SpotIs | linux-2.6.37/crypto/blkcipher.c:65-69 | A spot is at or after the start, less than the length away, and within one page |
| Bounce.SpotAligned | linux-2.6.37/crypto/blkcipher.c:65-69 | A spot keeps every power-of-two alignment |
| Bounce.StartFits | linux-2.6.37/crypto/blkcipher.c:162-163 | Aligning the buffer uses no more than the allocation has for it |
| Bounce.BounceFits | linux-2.6.37/crypto/blkcipher.c:147-181 | For every power-of-two alignment and block size up to an eighth of a page, both spots lie in the allocation, aligned, apart, and within a page each |
| Bounce.BounceTight | linux-2.6.37/crypto/blkcipher.c:162-163 | The allocation cannot be smaller: for every alignment up to 256 some block uses its last byte |
| Accounting.OnChanged | linux-2.6.37/block/cfq-iosched.c:785-791 | Moving one queue changes the counts of two trees by one |
| Accounting.SyncQueues | linux-2.6.37/block/cfq-iosched.c:942-950 | The number of sync queues of a group is never negative |
| Accounting.HasQueues | linux-2.6.37/block/cfq-iosched.c:892-900 | A group with a queue on a tree has a positive count |
| Accounting.HomeFiles | linux-2.6.37/block/cfq-iosched.c:1194-1216 | With isolation no queue changes its group; without it random readers go to the root with their own group remembered, and sequential readers back to the group they were created in |
| Accounting.SlotsApart | linux-2.6.37/block/cfq-iosched.c:309-320 | Each priority and type has its own tree in a group; idle queues share one |
| Accounting.CfqData.constructor | linux-2.6.37/block/cfq-iosched.c:3860-3900 | The root group has no queues |
| Accounting.CfqData.NewGroup | linux-2.6.37/block/cfq-iosched.c:996-1050 | A group can be set up at any time, and every group is counted right |
| Accounting.CfqData.NewQueue | linux-2.6.37/block/cfq-iosched.c:2839-2861 | A new queue is in its group, off the trees |
| Accounting.CfqData.GroupServiceTreeAdd | linux-2.6.37/block/cfq-iosched.c:864-890 | One queue more, and the group is on the tree of groups |
| Accounting.CfqData.GroupServiceTreeDel | linux-2.6.37/block/cfq-iosched.c:892-914 | One queue less, and the group leaves with its last one |
| Accounting.CfqData.ServiceTreeAdd | linux-2.6.37/block/cfq-iosched.c:1182-1291 | The queue is on the tree of its priority and type in the group it belongs to: its own, or the root for a random reader without isolation; every group is counted right |
| Accounting.CfqData.AddCfqqRr | linux-2.6.37/block/cfq-iosched.c:1372-1380 | A queue becomes busy in the group it belongs to: every count stays the sum of its trees, every queue is in its own group or in the root with its own remembered, and the number of busy queues grows by one |
| Accounting.CfqData.Resort | linux-2.6.37/block/cfq-iosched.c:1357-1366 | A busy queue is refiled, also in front, and every count stays right |
| Accounting.CfqData.DelCfqqRr | linux-2.6.37/block/cfq-iosched.c:1386-1404 | A queue becomes idle: the assertions on its group and on the number of busy queues hold |
| MergeIndex.AddLinked | linux-2.6.37/block/elevator.c:321-327 | Linking a request keeps every request in one chain |
| MergeIndex.RemoveLinked | linux-2.6.37/block/elevator.c:315-319 | Unlinking likewise |
| MergeIndex.Elevator.RqhashDel | linux-2.6.37/block/elevator.c:315-319 | The request is no longer linked |
| MergeIndex.Elevator.RqhashAdd | linux-2.6.37/block/elevator.c:321-327 | The request is linked in the chain of its end |
| MergeIndex.Elevator.RqhashReposition | linux-2.6.37/block/elevator.c:329-333 | The request moves to the chain of its new end |
| MergeIndex.Elevator.RqhashFind | linux-2.6.37/block/elevator.c:335-355 | A held request that may grow and ends at the offset is returned if and only if a linear scan would find one |
| MergeIndex.Elevator.FindBack | linux-2.6.37/block/elevator.c:478-514 | With the last merge tried first, the same |
| MergeIndex.Elevator.InsertSort | linux-2.6.37/block/elevator.c:657-673 | The request is held and indexed if it may grow |
| MergeIndex.Elevator.BackMerged | linux-2.6.37/block/elevator.c:522-533 | The request ends later and is indexed there |
| MergeIndex.Elevator.FrontMerged | linux-2.6.37/block/blk-core.c:1239-1271 | The request begins earlier and its index entry stays right |
| MergeIndex.Elevator.MergeRequests | linux-2.6.37/block/elevator.c:535-548 | The absorbed request is not held, not indexed and not the last merge; the other one ends where it did |
| MergeIndex.Elevator.NoMerge | linux-2.6.37/block/blk-merge.c:222-226 | A request that hit a limit is not the last merge and is not found again |
| MergeIndex.Elevator.Dispatch | linux-2.6.37/block/elevator.c:463-475 | A dispatched request is not held, not indexed and not the last merge, and the count of held requests is right |
| MergeIndex.Elevator.Drain | linux-2.6.37/block/elevator.c:576-588 | A drained scheduler holds and indexes nothing |
| Switch.ReserveKeeps | linux-2.6.37/block/blk-core.c:753-810 | A reservation is counted, and while a switch is on it asks for no scheduler data |
| Switch.FreedKeeps | linux-2.6.37/block/blk-core.c:734-746 | A freed or failed request is uncounted |
| Switch.NoneLeft | linux-2.6.37/block/elevator.c:593-611 | When the counter is zero, no request carries scheduler data and the scheduler holds none |
| Switch.NextKeeps | linux-2.6.37/block/elevator.c:949-1020 | Every step keeps the counters right and scheduler data with its scheduler |
| Switch.RunKeeps | linux-2.6.37/block/elevator.c:949-1020 | So does every run |
| Switch.OwnDataOnly | linux-2.6.37/block/blk-core.c:651-679 | In every run, scheduler code only ever works on data of its own scheduler: at insertion, dispatch, activation, requeue, completion and freeing |
| Switch.SwitchSafe | linux-2.6.37/block/elevator.c:949-981 | In every run, when a new scheduler is attached no request holds or is obtaining data of the old one, no request still about has been held by it, and it holds none |
| Switch.SwitchTakesEffect | linux-2.6.37/block/elevator.c:949-1020 | Once the old scheduler is drained, attaching a new one puts it in place; it stays whatever requests do and when the switch ends, and if the switch fails exactly the former one is back |
| Switch.OrdinaryRun | linux-2.6.37/block/elevator.c:949-1020 | No other step changes the scheduler in place or how far the switch is |
| Switch.AttachWaits | linux-2.6.37/block/elevator.c:593-611 | A scheduler is attached exactly when a switch has begun and no scheduler data is left |
| Switch.NewDataIsNew | linux-2.6.37/block/blk-core.c:651-679 | A request reserved and allocated after a switch has ended carries data of the new scheduler |
| Switch.SwitchReached | linux-2.6.37/block/elevator.c:949-1020 | After every run, a switch to any scheduler can be carried through |
| Switch.ServedByScheduler | linux-2.6.37/block/blk-core.c:734-836 | Outside a switch and below the limit, a request gets data of the scheduler in place and is held by it |
| Switch.ReservesExactly | linux-2.6.37/block/blk-core.c:734-836 | A reservation is made exactly below 3*nr_requests/2, and asks for scheduler data exactly outside a switch |
| Switch.SchedulerIsTold | linux-2.6.37/block/elevator.c:559-573 | The scheduler in place is told of a request it held at dispatch, activation, requeue, completion and freeing |
| Switch.Bypasses | linux-2.6.37/block/elevator.c:691-709 | A request put in front, or without scheduler data, bypasses the scheduler |
| Switch.CountBounded | linux-2.6.37/block/blk-core.c:793-802 | In every run, each direction has as many requests as counted, and at most 3*nr_requests/2 |

## Left out

- Balancing of red-black trees and pointer surgery on lists: trees are lists in key order, and descents in them are scans.
- Locks, memory barriers, timers and work queues: one section under the queue lock is one step, and time is an input that does not go back.
- Wrap-around of jiffies, and overflow of 64-bit rate times jiffies and bytes times HZ: these are unbounded integers. The 64-bit virtual time of CFQ groups, the 16-bit segment count and the 32-bit arithmetic on the bio count are modelled.
- The literal AES tables: they are functions of an S-box and its inverse, which are any two inverse byte maps.
- ThrottleRuns.BioRateExact: for HZ from 20 to 10000, which covers every kernel configuration, and a slice of HZ/10; a direction may be served or looked at at any time, as the other direction of the group can make it due.
- Throttling: destroying a group with queued bios, changing limits during a run, and the cgroup interface.
- Merging: padding and drain entries of the scatterlist, integrity segments, and the mixed-merge flags. A bio without vectors is one without a vector array; merges of discard bios that have an empty vector array are not modelled.
- Flush: aborting the queue, changing the device's capabilities during a run, and the elevator callback that refills an empty dispatch list.
- Flush.FlushQueue.Flush: the caller passes the request at the front of the list, as the loop in blk.h does.
- FlushMachine.Durability: for requests that meet FlushMachine.Fit, because of the case shown by FlushMachine.UnfitLeaks.
- Deadline.NextInv: for constant settings with a batch of at least one request.
- Deadline: the position of the head, which the source stores and does not read, and front-merge lookup.
- CFQ: computation of service-tree keys, idling and preemption heuristics, async queues and the fallback queue used when memory is short, weights that change while a group is on the tree, and references on groups.
- Fairness.ScaledFits: for a machine word of 64 bits; with 32 bits the shift before widening overflows from a charge of 2^20 on.
- Completion: the queue's own flush request, whose bios are not touched (its errors are in FlushMachine), and accounting.
- Completion.RunLeaves: for chains whose bios hold data and whose vectors are not empty.
- Spawns: replacing one algorithm by another during registration.
- Cbc: the walk that produces the chunks; a chunk holds at least one block, buffers of different chunks do not overlap, and masking with a power of two less one is written as a remainder.
- Bounce: the walk around the slow path, and the use of an already allocated page as the buffer.
- Switch: the fairness of allocation (batching, starvation and congestion flags), which only restricts when a reservation is made; steps are on values, so update in place is not shown.
- MergeIndex: the scheduler's own merge lookup, and conditions on flags and devices under which a bio may be added.
- Everything user-facing: sysfs, ioctl, tracing, messages, module loading.
