# Verification of hypervisor components

Dafny models of eight components that a hypervisor stack is built from, and proofs of what they
promise. Every theorem is about all inputs, or about all states of all runs.

- **Interval notifiers** (`Notifier*.dfy`): the collision-retry protocol of the Linux MMU interval
  notifiers. Many overlapping invalidations share a sequence number, the interval tree is frozen while
  it is odd, insertions and removals in between are deferred, and readers sleep an epoch out.
  `NotifierState` gives the effect of each locked section, `NotifierLock` the code with its loops,
  `NotifierProtocol` the interleavings. `NotifierShadow` follows the entries of one client through a run.
- **Cross-CPU function calls** (`Smp*.dfy`): call records with a lock bit, one lock-free queue per CPU,
  an interrupt only on the transition from empty to non-empty, and a flush that unlinks records in place
  while they are being reused. `SmpFlush` has the flush over linked memory, `SmpProtocol` the senders and
  receivers. `SmpProgress` shows that senders that spin on their own earlier records while they owe
  interrupts cannot deadlock, `SmpOrder` in which order what is queued runs.
- **Pinning user pages** (`Gup*.dfy`): the reference accounting of `get_user_pages`. `net` is the change a
  task has made to each folio's counters, so that conservation is a statement about `net` alone.
- **Block requests** (`Block*.dfy`, `BounceRead.dfy`): bhyve's request queues, with requests held back
  behind adjacent ones, a pool of workers, cancellation, pause and close; and the bounce-buffer read.
- **ACPI tables** (`Acpi*.dfy`): layout, pointers, lengths and checksums of the tables bhyve builds.
- **Debugger breakpoints** (`Breakpoints.dfy`), **string functions** (`MemLib.dfy`) and the **JSON reader**
  of Solo5's elftool (`Json*.dfy`).

Protocols are transition systems whose steps are the locked sections and atomic operations of the code;
a run is any sequence of steps. Loops and updates in place are methods, proved against functions about
which the theorems are stated. What the surroundings decide (faults, signals, forks, failing
migrations, short reads, other tasks) is an argument that ranges over everything they can do.

Where code and comments differ, the model follows the code:

- For zero pages `get_user_pages_fast` is described as returning 0. The loops of the walk test for the end
  after the first entry, so a mapped page is grabbed, stored outside the request and reported.
  `FastFallback` says exactly when; `ZeroPagesOverrun` gives an instance.
- `must` of `json.h` is described as demanding a word. It accepts any last byte: `MustExact`, `LastByteIgnored`.
- A checksum of `basl.c` comes out right only if its byte was zero before, which is what all its callers
  ensure: `ChecksumExact`. Its offset counts from the start of the summed region in memory, while the loader
  command for the firmware counts it from the start of the table; the two agree exactly for a region that
  starts with the table, as all do.

## Model

| member | source | states |
|---|---|---|
| NotifierTheorems.CollisionRetrySound | code/kvm-linux-reference/mm/mmu_notifier.c:187-260 | If `read_begin` returned q and a later `read_retry` still sees q, no invalidation that overlaps the subscription was in its PTE-changing window at any state of the run in between, however the subscription was inserted. |
| NotifierTheorems.CollisionRetryStable | code/kvm-linux-reference/include/linux/mmu_notifier.h:386-391 | Hence every primary entry in the range of the subscription is the same at every state between the two. |
| NotifierTheorems.ShadowCoherence | code/kvm-linux-reference/mm/mmu_notifier.c:52-87 | In every reachable state each shadow entry of a live subscription equals the primary entry, and no open window may change it. |
| NotifierTheorems.RemovalQuiescent | code/kvm-linux-reference/mm/mmu_notifier.c:1085-1126 | Once `mmu_interval_notifier_remove` has returned, in each of its three cases, no callback of the subscription is running or pending and it is in neither tree nor deferred list, in any later state, until it is inserted again. |
| NotifierTheorems.StaysRemoved | code/kvm-linux-reference/mm/mmu_notifier.c:1085-1126 | From the return of the removal on, the subscription stays unregistered as long as nobody inserts it. |
| NotifierTheorems.WarningsUnreachable | code/kvm-linux-reference/mm/mmu_notifier.c:131-166 | In every reachable state: no active invalidation means an even sequence number; a non-empty deferred list means an odd one; with an even one every live subscription is in the tree; every stamp is odd and at most the sequence number; a walking or matched invalidation sees its own sequence number. So both warnings on the even path cannot fire. |
| NotifierTheorems.TreeFrozen | code/kvm-linux-reference/mm/mmu_notifier.c:95-166 | The interval tree is the same at all states of an odd epoch. |
| NotifierTheorems.OddEpochStep | code/kvm-linux-reference/mm/mmu_notifier.c:131-166 | An odd epoch ends only in `inv_end`, by going to the next number with no invalidation active, and until then the tree does not change. |
| NotifierTheorems.DeliveredExactlyOnce | code/kvm-linux-reference/mm/mmu_notifier.c:456-505 | An invalidation whose start succeeds has called back each subscription that was in the tree and met its range when it started exactly once, and no other. |
| NotifierTheorems.CallbackCountIsVisited | code/kvm-linux-reference/mm/mmu_notifier.c:456-505 | While an invalidation walks, the number of callbacks it has made to a subscription is one or zero as it has been visited or not. |
| NotifierTheorems.RunMonotone | code/kvm-linux-reference/mm/mmu_notifier.c:187-260 | Over any stretch of a run in which a subscription is live, the sequence number and its stamp never fall and its bounds do not move. |
| NotifierTheorems.CoversArguments | code/kvm-linux-reference/mm/mmu_notifier.c:936-1000 | For as long as it is live, a subscription covers exactly the addresses it was inserted for. |
| NotifierTheorems.DeliveredToArguments | code/kvm-linux-reference/mm/mmu_notifier.c:456-505 | In terms of the arguments of the insertion: an invalidation that reaches its window has called the subscription back once if its range and the inserted range share an address, and never otherwise; if the subscription was not yet in the tree, the number was odd and its stamp current, so that a reader collides. |
| NotifierTheorems.RetryCoversArguments | code/kvm-linux-reference/mm/mmu_notifier.c:187-260 | While `read_retry` still returns false, no invalidation in its window holds an address the subscription was inserted for, and no primary entry there has changed. |
| NotifierTheorems.FreshSubscription | code/kvm-linux-reference/mm/mmu_notifier.c:951-1000 | A new subscription is in the tree if and only if the number was even; its stamp is the last odd number up to the current one; a read of it collides if and only if invalidations are active, which keeps or makes the number odd. |
| NotifierTheorems.StartEffect | code/kvm-linux-reference/mm/mmu_notifier.c:95-116 | An invalidation whose range shares no address with a subscription in the tree moves no number and opens its window at once; otherwise the number is odd and callbacks begin. |
| NotifierShadow.ReadIsCurrent | code/kvm-linux-reference/include/linux/mmu_notifier.h:373-391 | The scheme as its user sees it: sample, read an entry, ask whether to retry. If no callback for the subscription has run in a later epoch in between, the entry is used, and it is the one the page table then holds. |
| NotifierShadow.RetryExact | code/kvm-linux-reference/include/linux/mmu_notifier.h:373-391 | `read_retry` returns true if and only if since the sample a callback for the subscription has run in an epoch other than the sampled one. |
| NotifierShadow.EntryFate | code/kvm-linux-reference/mm/mmu_notifier.c:52-87 | A shadow entry goes exactly when an invalidation that holds its address tears it down, and is set exactly by a reader that need not retry; no other step of a run touches it. |
| NotifierTheorems.RunInvariant | code/kvm-linux-reference/mm/mmu_notifier.c:95-313 | The invariant of the whole protocol (epochs, tree, deferred list, walks, readers) holds in every reachable state. |
| NotifierProofs.StepKeeps | code/kvm-linux-reference/mm/mmu_notifier.c:95-313 | Each of the atomic steps of writers, readers and subscribers keeps that invariant. |
| NotifierProofs.InvEndEffect | code/kvm-linux-reference/mm/mmu_notifier.c:131-166 | What the last `inv_end` of an epoch does to tree and subscriptions: each deferred one changes sides, the rest stays. |
| NotifierState.ApplyDeferredEffect | code/kvm-linux-reference/mm/mmu_notifier.c:152-162 | The deferred loop inserts exactly the listed subscriptions that were not in the tree and erases exactly the listed ones that were, once each. |
| NotifierLock.MmuSubscriptions.IterFirst | code/kvm-linux-reference/mm/mmu_notifier.c:95-129 | A node is found if and only if one overlaps the range, and it is the one with the least start. |
| NotifierLock.MmuSubscriptions.InvStartRange | code/kvm-linux-reference/mm/mmu_notifier.c:95-116 | The locked section has the effect of the start step: one more active, and an odd number if and only if a node matches. |
| NotifierLock.MmuSubscriptions.InvEndRange | code/kvm-linux-reference/mm/mmu_notifier.c:131-166 | The locked section, with its loop over the deferred list, has the effect of the end step. |
| NotifierTheorems.SampleMeaning | code/kvm-linux-reference/mm/mmu_notifier.c:187-233 | In every reachable state: a sample of `read_begin` that does not collide finds no overlapping invalidation in its PTE-changing window; one that collides finds the sequence number odd and an invalidation open, for which it waits. |
| NotifierLock.MmuSubscriptions.InsertSub | code/kvm-linux-reference/mm/mmu_notifier.c:936-1000 | Fails exactly when the range is empty or goes beyond 64 bits; otherwise it has the effect of the insert step in each of its three cases, and the subscription covers exactly the addresses from its start up to start plus length. |
| NotifierLock.MmuSubscriptions.RemoveSub | code/kvm-linux-reference/mm/mmu_notifier.c:1085-1126 | Has the effect of the remove step, and returns the number to wait out. |
| NotifierLock.MmuSubscriptions.constructor | code/kvm-linux-reference/mm/mmu_notifier.c:662-678 | A new registration starts with an even number, nothing active and nothing subscribed. |
| SmpTheorems.WaitGuarantee | code/kvm-linux-reference/kernel/smp.c:651-895 | When a waiting call has returned, its function has completed exactly once on every CPU it reached and on no other; every record it used is in no queue and awaits release in no flush; and the CPUs it reached are exactly those asked for, by target, or by mask, condition and local flag. |
| SmpTheorems.ManyDone | code/kvm-linux-reference/kernel/smp.c:795-895 | In terms of the arguments of the call: when a waiting `smp_call_function_many_cond` has returned, its function has run once on every other online CPU of the mask that the condition accepts, once on the calling CPU if that was wanted, in the mask and accepted, and on no other CPU. |
| SmpTheorems.SingleDone | code/kvm-linux-reference/kernel/smp.c:651-709 | When a waiting `smp_call_function_single` has returned, its function has run once on the target and nowhere else; it returns the error, and runs nowhere, if and only if the target is another CPU and offline. |
| SmpTheorems.AtMostOnce | code/kvm-linux-reference/kernel/smp.c:795-895 | In every reachable state no function has run more often on a CPU than it was issued to it, which is at most once per call. |
| SmpTheorems.QueuedOnce | code/kvm-linux-reference/kernel/smp.c:355-428 | A queued record is locked, stands in that queue once and in no other queue or detached list. |
| SmpTheorems.KickPending | code/kvm-linux-reference/kernel/smp.c:394-428 | In every reachable state a non-empty queue has an interrupt pending, a flush about to take it, or a sender that found it empty and still owes the interrupt. |
| SmpTheorems.RunInvariant | code/kvm-linux-reference/kernel/smp.c:349-895 | The invariant of records, queues, flushes, senders and interrupts holds in every reachable state. |
| SmpReceiver.StepKeeps | code/kvm-linux-reference/kernel/smp.c:349-895 | Each step of senders and receivers keeps it. |
| SmpProgress.NoDeadlock | code/kvm-linux-reference/kernel/smp.c:795-895 | Deadlock freedom, with senders that take the CPUs of a mask in order and spin on the next record: in a reachable state in which neither a sender can go on nor an interrupted CPU can, every call has returned, every record is free, every queue is empty and all that was issued is done. No new call or idle-loop flush is needed. |
| SmpProgress.QuietDone | code/kvm-linux-reference/kernel/smp.c:651-895 | In such a state every call that has returned, waiting or not, has run once on exactly the CPUs it was to reach. |
| SmpOrder.FirstQueuedFirst | code/kvm-linux-reference/kernel/smp.c:509-608 | Two records queued to a CPU one after the other, by whatever senders, and taken by the same flush run in that order, unless the kind of the second puts it into an earlier phase. |
| SmpOrder.FlushRuns | code/kvm-linux-reference/kernel/smp.c:494-609 | Of two entries of a flush the one of the earlier phase runs first, and within a phase the older one. |
| SmpProgress.StuckEmpty | code/kvm-linux-reference/kernel/smp.c:394-428 | No lost interrupt: a queue cannot stay non-empty when nothing moves, because whoever owes its interrupt spins on the next record of its mask, which stands in a queue that has been waiting for longer. |
| SmpProgress.OlderQueue | code/kvm-linux-reference/kernel/smp.c:833-864 | The queue in which a spinning sender of a many-CPU call finds its own earlier record became non-empty before that call started. |
| SmpProofs.ManyCovers | code/kvm-linux-reference/kernel/smp.c:866-874 | No interrupt, the single interrupt and the mask interrupt all amount to interrupting exactly the CPUs whose queue was found empty. |
| SmpProofs.InitEstablishes | code/kvm-linux-reference/kernel/smp.c:349-391 | The initial state satisfies the invariant. |
| SmpInvariant.TraceTotals | code/kvm-linux-reference/kernel/smp.c:494-609 | A flush completes every queued function and releases every queued record, with the multiplicity they have in the queue. |
| SmpInvariant.FlushTraceOk | code/kvm-linux-reference/kernel/smp.c:494-609 | In a flush the run of a waiting call is followed at once by the release of its record. |
| SmpFlush.Cpu.Flush | code/kvm-linux-reference/kernel/smp.c:494-609 | For every queue, with other CPUs locking, changing and queueing any record that is not still in the walked list, the list surgery of the three passes produces exactly the specified trace. |
| SmpFlush.Cpu.LateFlush | code/kvm-linux-reference/kernel/smp.c:571-608 | The second and third pass of a flush, over what the first has left linked, produce the rest of the trace. |
| SmpFlush.Cpu.ReverseOrder | code/kvm-linux-reference/kernel/smp.c:509-510 | In-place reversal yields the entries oldest first. |
| SmpFlush.Cpu.SyncPass | code/kvm-linux-reference/kernel/smp.c:543-566 | The synchronous pass runs, then unlocks, each synchronous entry and leaves the others linked in order. |
| SmpFlush.Cpu.AsyncPass | code/kvm-linux-reference/kernel/smp.c:571-600 | The second pass unlocks, then runs, each asynchronous entry, runs each irq_work, and leaves only wakeups linked. |
| SmpFlush.Cpu.TtwuPending | code/kvm-linux-reference/kernel/smp.c:602-608 | The remainder is handed over as wakeups, in order. |
| SmpFlush.FlushOrder | code/kvm-linux-reference/kernel/smp.c:494-609 | The order of execution of a trace: synchronous entries oldest first, then asynchronous and irq_work oldest first, then wakeups oldest first. |
| SmpFlush.FlushReleases | code/kvm-linux-reference/kernel/smp.c:494-609 | The record of a waiting call is released right after its function has run, that of a call that does not wait right before. |
| SmpFlush.FlushExactlyOnce | code/kvm-linux-reference/kernel/smp.c:494-609 | Every entry of the queue is executed exactly once. |
| GupCounts.DropInverts | code/kvm-linux-reference/mm/gup.c:102-174 | `gup_put_folio` undoes a grab of the same flags and count if and only if exactly one of FOLL_GET and FOLL_PIN is set (or the count is zero). |
| GupCounts.GrabNumbers | code/kvm-linux-reference/mm/gup.c:140-174 | In numbers: a grab of n adds n references with FOLL_GET; with FOLL_PIN nothing on the zero folio, n references and n pins on a folio with a pin count, and 1024 n references on any other; no other folio changes. |
| GupCounts.DropNumbers | code/kvm-linux-reference/mm/gup.c:102-115 | In numbers: a drop takes away the same. |
| GupCounts.GainedBack | code/kvm-linux-reference/mm/gup.c:102-174 | Dropping what has been gained leaves every counter as it was. |
| GupCounts.Gup.TryGet | code/kvm-linux-reference/mm/gup.c:74-100 | Through any number of folio splits, a reference is left on the folio of the page, and on no other, exactly when the attempt succeeds. |
| GupCounts.Gup.Put | code/kvm-linux-reference/mm/gup.c:102-115 | Subtracts exactly one unit per count: none for the zero folio, reference and pin for a folio with a pin count, 1024 references otherwise. |
| GupCounts.Gup.TryGrab | code/kvm-linux-reference/mm/gup.c:140-174 | The slow grab adds exactly those units, or nothing on failure, and fails exactly for a dead folio or a forbidden P2PDMA one. |
| GupCounts.Gup.TryGrabFast | code/kvm-linux-reference/mm/gup.c:517-581 | When it succeeds, the fast grab changes the counters exactly as the slow one does, for every flag, size and zero-folio case; when it fails it changes nothing. It succeeds exactly if a flag is set, a P2PDMA folio is asked for, and the folio is the zero folio of a pin or alive and, for a long-term pin, fit for it. |
| GupUnpin.BatchIsEach | code/kvm-linux-reference/mm/gup.c:284-471 | A release of all pins of an array in batches equals releasing its non-NULL entries one at a time. |
| GupUnpin.EachIsAll | code/kvm-linux-reference/mm/gup.c:185-189 | Releasing entries one at a time drops one pin per non-NULL entry. |
| GupUnpin.FolioNext | code/kvm-linux-reference/mm/gup.c:247-260 | The run it finds consists of entries of one folio; it meets a NULL page only if there is one behind the first entry. |
| GupUnpin.UnpinUserPages | code/kvm-linux-reference/mm/gup.c:401-424 | Drops one pin per non-NULL entry, and keeps clear of NULL pages if and only if the NULL entries come first. |
| GupUnpin.UnpinFolios | code/kvm-linux-reference/mm/gup.c:449-471 | Drops one pin per non-NULL entry, with NULL entries anywhere. |
| GupUnpin.FastUnpin | code/kvm-linux-reference/mm/gup.c:375-390 | Drops one pin per entry. |
| GupUnpin.UnpinDirty | code/kvm-linux-reference/mm/gup.c:284-326 | Drops one pin per non-NULL entry and, if asked to, leaves exactly the folios of the entries dirty in addition. Keeps clear of NULL pages if and only if there are none, or they come first and nothing is to be marked. |
| GupUnpin.RangeNext | code/kvm-linux-reference/mm/gup.c:232-245 | The run it finds in a range of pages consists of pages of one folio and stays in the range. |
| GupUnpin.UnpinRange | code/kvm-linux-reference/mm/gup.c:354-372 | Drops one pin per page of a physical range and, if asked to, leaves exactly the folios of the pages dirty in addition. |
| GupLongterm.Collect | code/kvm-linux-reference/mm/gup.c:2265-2313 | Finds nothing if and only if every entry may be pinned for long, although it skips over runs of a folio. |
| GupLongterm.NextFolio | code/kvm-linux-reference/mm/gup.c:2237-2260 | Skips only entries of the same folio. |
| GupLongterm.MigrateOne | code/kvm-linux-reference/mm/gup.c:2327-2358 | The pin of one entry is dropped once, whether it is converted for a device-coherent migration or not. |
| GupLongterm.Migrate | code/kvm-linux-reference/mm/gup.c:2320-2383 | On every path, also when a device-coherent migration fails in the middle of the loop or the list migration fails after it, each entry has lost its pin exactly once. It returns -EBUSY if and only if some device-coherent migration fails, else -ENOMEM if and only if the list migration fails, else asks for another attempt. |
| GupLongterm.CheckAndMigrate | code/kvm-linux-reference/mm/gup.c:2385-2398 | Returns 0 if and only if all entries may stay, with every counter unchanged; otherwise each entry has lost its pin exactly once, and the result is that of the migration. |
| GupSlow.GrabSpan | code/kvm-linux-reference/mm/gup.c:1455-1489 | A span of pages is grabbed once per page, or not at all; the latter only for more than one page of a folio that has died. |
| GupSlow.LookUp | code/kvm-linux-reference/mm/gup.c:1375-1505 | One turn of the lookup loop: the pages it stores and grabs are those that this very lookup finds at the addresses from va on, as far as the mapping goes or pages are wanted; it stops, and with which code, exactly as the event met there says; it lets go of the lock exactly for a fault that does. |
| GupSlow.GetUserPages | code/kvm-linux-reference/mm/gup.c:1354-1510 | Slot by slot, the stretch of the array it fills holds the page that a lookup made during the call found at that address, one grab each. With fewer pages than asked for, a fatal signal was pending or the last lookup, made at the first address without a page, ended the loop; without any page the result is the code for that. The lock is dropped only by a fault there, never with a negative or complete result, and if held it has been held throughout. |
| GupSlow.RetryPage | code/kvm-linux-reference/mm/gup.c:1729-1770 | Through any number of retries, either the page found at the address, with the lock held, or no grab and the error for what cut it off: a signal, the lock, or the last lookup there. A pending signal or a refused lock ends it before anything is done. |
| GupSlow.LockedTurn | code/kvm-linux-reference/mm/gup.c:1691-1775 | One turn of the retry loop ends it only with all pages or for a reason met at the first address without one, and never meets the warned-about combinations. |
| GupSlow.GetUserPagesLocked | code/kvm-linux-reference/mm/gup.c:1649-1791 | For every sequence of faults, retries and changes of the page tables: slots hold, for a prefix of the addresses asked for and in order, the page that some lookup during the call found at that address, one grab each; or an error and no grab. Pages are missing only if a signal, the lock or a lookup at the first address without one cut the request off, and an error is the one for that; -EAGAIN exactly if the lock was to be taken and could not be; 0 only for no pages or FOLL_NOWAIT. The lock is held afterwards exactly when `locked` says so, and then it was held before and has never been let go in between; it is dropped only with FOLL_UNLOCKABLE. |
| GupSlow.LedgerJoin | code/kvm-linux-reference/mm/gup.c:1354-1791 | The grabs of two stretches add up. |
| GupSlow.FetchedMore | code/kvm-linux-reference/mm/gup.c:1496-1507 | What one more lookup finds extends what has been fetched: pages, addresses, counters and slots. |
| GupFast.KeepOrDrop | code/kvm-linux-reference/mm/gup.c:2385-2398 | After a round of pinning, all pins stay if and only if all folios may be pinned for long; otherwise the counters are what they were before the round, and an error is -EBUSY or -ENOMEM. |
| GupFast.LongtermLocked | code/kvm-linux-reference/mm/gup.c:2465-2494 | However many rounds end in a migration: a positive result means that many pages, each found at its address during the last round, pinned once and fit for a long-term pin; any other means that no pin is left. The last round ended as the slow path ends, for want of the lock, or, for a long-term pin, with -EBUSY or -ENOMEM. |
| GupFast.FastLeaf | code/kvm-linux-reference/mm/gup.c:2829-3009 | The pages of an entry from an offset on are grabbed once each and stored if and only if the grab succeeds, the entry reads the same again and its folio is allowed; otherwise no counter and no slot has changed. |
| GupFast.TakenMeans | code/kvm-linux-reference/mm/gup.c:2829-3110 | The walk takes a page at an address if and only if the entries that cover it are tables down to a leaf that is unchanged on the second look, allowed, and whose folio can be grabbed; the page is that of the leaf plus the offset of the address in it. |
| GupFast.Sizes | code/kvm-linux-reference/mm/gup.c:3011-3110 | What an entry covers at each level: 4 kB, 2 MB, 1 GB, 512 GB, 256 TB. |
| GupFast.PteRange | code/kvm-linux-reference/mm/gup.c:2829-2900 | The do-while loop over the lowest table takes every entry it can up to the end of the range or the first it cannot; on an empty range it does not stop at the end. |
| GupFast.TableRange | code/kvm-linux-reference/mm/gup.c:3011-3110 | So do the do-while loops above it, entry by entry, by leaf or by the table below. |
| GupFast.FastRange | code/kvm-linux-reference/mm/gup.c:3011-3110 | Walking a range down the levels stores, from its first address on, the page each address maps to (leaf page plus offset), one grab each, up to exactly the first address whose entry is absent, changed, refused or cannot be grabbed. |
| GupFast.Fast | code/kvm-linux-reference/mm/gup.c:3129-3173 | The walk got exactly the pages up to the first it cannot take, and none, with all pins dropped again, if it was not permitted or a fork came before or during a pinning walk. On an empty range it writes or leaves the array exactly if the walk was allowed and takes an entry at its start. |
| GupFast.FastFallback | code/kvm-linux-reference/mm/gup.c:3175-3222 | It keeps its promise if and only if the request is not one for zero pages at an address where the walk takes an entry all the same. The promise: at most the pages asked for, in the first slots and no others, one grab each, and no counter changed if there are none. The pages are then those of the walk, each through an entry that read the same again and was allowed, none if a fork came before or during a pinning walk; and behind them, unless FOLL_FAST_ONLY, those of the slow path, which is entered for all that the walk has left and whose end decides the result. Otherwise pages nobody asked for are grabbed and stored. Errors are the documented ones. |
| GupFast.ZeroPagesOverrun | code/kvm-linux-reference/mm/gup.c:3272-3288 | Such a request exists, although zero pages are described as returning 0. |
| GupFast.WalkedBelow | code/kvm-linux-reference/mm/gup.c:3035-3064 | What an entry that is a table contributes is what the table contributes. |
| BlockTheorems.HeldBack | code/bhyve-reference/usr.sbin/bhyve/block_if.c:135-216 | In every reachable state each held-back request has an outstanding one that arrived earlier and ends where it starts; so pending requests with none running include one that may run. |
| BlockTheorems.AcceptedHeld | code/bhyve-reference/usr.sbin/bhyve/block_if.c:135-177 | An accepted request gets a free element, and is held back if and only if some outstanding request, queued or running, ends where it starts: at its offset plus the lengths of its buffers, or for a flush at OFF_MAX. Every other element stays as it is. |
| BlockTheorems.HeldUntilFreed | code/bhyve-reference/usr.sbin/bhyve/block_if.c:135-216 | A request that is held back is taken by no worker before a request that ends where it starts has been completed or cancelled. |
| BlockTheorems.LeavingReleases | code/bhyve-reference/usr.sbin/bhyve/block_if.c:199-216 | When a request is completed or cancelled its element is free, and of the queued requests exactly those that start where it ended may run; nothing else changes. |
| BlockTheorems.CancelTakesBack | code/bhyve-reference/usr.sbin/bhyve/block_if.c:806-832 | A cancel takes back the oldest queued element of the request, held back or not, and counts it as cancelled; with none queued it changes nothing. |
| BlockTheorems.NoLostWakeup | code/bhyve-reference/usr.sbin/bhyve/block_if.c:366-412 | When every worker sleeps or has left, nothing is outstanding, no pauser waits, and every accepted request has been called back or cancelled exactly once, although completions and cancels release held-back requests without signalling. |
| BlockTheorems.ExactlyOnce | code/bhyve-reference/usr.sbin/bhyve/block_if.c:748-832 | An accepted request is called back or cancelled at most once and never both, and neither exactly as long as it is queued or running. |
| BlockTheorems.Drains | code/bhyve-reference/usr.sbin/bhyve/block_if.c:372-412 | Without new requests, cancels or wakeups the number of steps of the workers is bounded by the backlog. |
| BlockTheorems.AwakeCanStep | code/bhyve-reference/usr.sbin/bhyve/block_if.c:372-412 | As long as a worker is awake, some worker can take a step. |
| BlockTheorems.OldestFirst | code/bhyve-reference/usr.sbin/bhyve/block_if.c:179-197 | The request a worker takes is the oldest of those that may run. |
| BlockTheorems.RefusedWhenFull | code/bhyve-reference/usr.sbin/bhyve/block_if.c:748-777 | A request is refused if and only if all 136 elements are outstanding. |
| BlockTheorems.PausedAndClosed | code/bhyve-reference/usr.sbin/bhyve/block_if.c:885-1042 | A returned pause means nothing is outstanding until the resume; after the broadcast of a close no worker sleeps. |
| BlockTheorems.RunInvariant | code/bhyve-reference/usr.sbin/bhyve/block_if.c:135-412 | The invariant of queues, workers, pauser and closing holds in every reachable state. |
| BlockProofs.StepKeeps | code/bhyve-reference/usr.sbin/bhyve/block_if.c:135-412 | Each critical section of callers and workers keeps it. |
| BlockProofs.Runnable | code/bhyve-reference/usr.sbin/bhyve/block_if.c:135-216 | With nothing running, following the requests that hold each other back ends at one that may run. |
| BlockProofs.OtherAwake | code/bhyve-reference/usr.sbin/bhyve/block_if.c:372-412 | A worker that finds nothing to run while requests are outstanding is not the only one awake. |
| BlockQueue.BlockIf.Enqueue | code/bhyve-reference/usr.sbin/bhyve/block_if.c:135-177 | The two scans and the queueing have the effect of the enqueue step, for which `AcceptedHeld` and `HeldUntilFreed` say what being held back means; the result tells whether the request may run. |
| BlockQueue.BlockIf.Dequeue | code/bhyve-reference/usr.sbin/bhyve/block_if.c:179-197 | Takes the first pending request that may run, if there is one, and otherwise changes nothing. |
| BlockQueue.BlockIf.Complete | code/bhyve-reference/usr.sbin/bhyve/block_if.c:199-216 | Frees the element and lets exactly the pending requests that start where it ended run. |
| BlockQueue.BlockIf.CancelPending | code/bhyve-reference/usr.sbin/bhyve/block_if.c:820-832 | Completes the first pending element of the request, if there is one, and otherwise changes nothing. |
| BlockQueue.EndOf | code/bhyve-reference/usr.sbin/bhyve/block_if.c:149-159 | The end of a request, summed over its buffers; a flush ends nowhere. |
| BounceRead.Read | code/bhyve-reference/usr.sbin/bhyve/block_if.c:256-283 | For every list of buffers, empty ones included, and every pattern of positive counts, the loop ends; the buffers hold what one `preadv` of the bytes read would leave in them; it ends short if and only if a read fails, and then something was left. |
| BounceRead.ReadByte | code/bhyve-reference/usr.sbin/bhyve/block_if.c:256-283 | Byte by byte: byte j of buffer i is the byte of the file at its place in the request if that is among the bytes read, and what it was otherwise. |
| BounceRead.Scatter | code/bhyve-reference/usr.sbin/bhyve/block_if.c:265-279 | A chunk is scattered to consecutive buffers without going past the last one. |
| BounceRead.CopiedFlat | code/bhyve-reference/usr.sbin/bhyve/block_if.c:266-270 | Copying into one buffer overwrites one stretch of the buffers laid end to end. |
| AcpiFinish.Basl.Finish | code/bhyve-reference/usr.sbin/bhyve/basl.c:344-384 | It succeeds if and only if there are tables, none is empty, all of them fit into memory one behind the other up to alignment, and every pointer names the signature of some table; and it fails with the error for the first of these that does not hold. On success every table is at that place, holds its data with lengths, pointers and checksums patched as recorded, and the memory outside the tables is unchanged. |
| AcpiFinish.PointersRight | code/bhyve-reference/usr.sbin/bhyve/basl.c:271-326 | Then every pointer field holds the address of the first table with the signature it names. |
| AcpiFinish.ChecksumsRight | code/bhyve-reference/usr.sbin/bhyve/basl.c:186-250 | Then every region with a recorded checksum sums to zero modulo 256. |
| AcpiFinish.LengthsRight | code/bhyve-reference/usr.sbin/bhyve/basl.c:328-342 | Then every recorded length field that is wide enough holds the length of its table. |
| AcpiFinish.Basl.Install | code/bhyve-reference/usr.sbin/bhyve/basl.c:145-184 | A table is placed at the next multiple of its alignment and copied; an empty or wrapping one, and one beyond the memory, are refused, and no other. |
| AcpiFinish.Basl.PatchPointers | code/bhyve-reference/usr.sbin/bhyve/basl.c:271-326 | Succeeds if and only if all signatures are found, and changes only the table, by adding the addresses to its pointer fields. |
| AcpiFinish.SigsMatch | code/bhyve-reference/usr.sbin/bhyve/basl.c:252-269 | Two signatures match if and only if they agree in every byte up to the first NUL. |
| AcpiFinish.Basl.PatchChecksums | code/bhyve-reference/usr.sbin/bhyve/basl.c:186-250 | Changes only the table, by setting its checksums one after the other. |
| AcpiFinish.Basl.SetLengths | code/bhyve-reference/usr.sbin/bhyve/basl.c:328-342 | Sets the recorded length fields of one table. |
| AcpiFinish.RoundUpExact | code/bhyve-reference/usr.sbin/bhyve/basl.c:150 | Rounding up in 32 bits gives the next multiple as long as it does not wrap. |
| AcpiImage.ChecksumExact | code/bhyve-reference/usr.sbin/bhyve/basl.c:242-246 | A checksum comes out right if and only if its byte was zero before. |
| AcpiImage.AllChecksums | code/bhyve-reference/usr.sbin/bhyve/basl.c:186-250 | Checksums whose bytes start at zero and lie outside earlier regions all hold at once. |
| AcpiImage.AllPointers | code/bhyve-reference/usr.sbin/bhyve/basl.c:320-322 | Blank pointer fields that do not overlap all end up with their addresses. |
| AcpiBytes.RoundTrip | code/bhyve-reference/usr.sbin/bhyve/basl.c:66-94 | Decoding an encoded value gives it back modulo the width of the field. |
| AcpiBytes.LowestFirst | code/bhyve-reference/usr.sbin/bhyve/basl.c:85-94 | Byte i of an encoded value holds its bits 8 i to 8 i + 7. |
| AcpiBuild.ListsAgree | code/bhyve-reference/usr.sbin/bhyve/basl.c:687-702 | After `basl_finish` the k-th entries of RSDT and XSDT are both the address of the first table with the k-th registered signature. |
| AcpiBuild.HeadedSums | code/bhyve-reference/usr.sbin/bhyve/basl.c:582-617 | After `basl_finish` every table with a generated header sums to zero as a whole and states its length (section 5.2.6 of the ACPI specification). |
| AcpiBuild.RsdpSums | code/bhyve-reference/usr.sbin/bhyve/acpi.c:665-702 | Both checksums of the RSDP hold at once, over the first 20 bytes and over all 36, its length is right and its pointers are those of RSDT and XSDT (section 5.2.5.3 of the ACPI specification). |
| AcpiBuild.RegisterToRsdt | code/bhyve-reference/usr.sbin/bhyve/basl.c:687-702 | RSDT and XSDT go on listing the same tables in the same order. |
| AcpiBuild.AppendHeader | code/bhyve-reference/usr.sbin/bhyve/basl.c:582-617 | The table has a blank header whose length and checksum are recorded. |
| AcpiBuild.AppendPointer | code/bhyve-reference/usr.sbin/bhyve/basl.c:642-653 | A blank field is appended and recorded, unless the 32-bit length would overflow, and a table with a header stays well formed. |
| AcpiBuild.AppendBytes | code/bhyve-reference/usr.sbin/bhyve/basl.c:495-522 | Appends unless nothing is to be appended or the 32-bit length would overflow. |
| AcpiBuild.PointedHeaded | code/bhyve-reference/usr.sbin/bhyve/basl.c:469-493 | Recording a blank field behind the header that overlaps no other keeps the table well formed. |
| MemLib.Memmove | code/solo5/bindings/lib.c:85-122 | For every overlap, alignment and length the destination holds the old source bytes and no other byte has changed. |
| MemLib.MoveMore | code/solo5/bindings/lib.c:94-106 | Copying upwards to a lower address, a further stretch of any width extends the move. |
| MemLib.MoveBefore | code/solo5/bindings/lib.c:107-119 | Copying downwards to a higher address, a further stretch in front extends the move. |
| MemLib.HasZeroExact | code/solo5/bindings/lib.c:148-152 | The word trick yields non-zero if and only if some byte of the word is zero. |
| MemLib.Strlen | code/solo5/bindings/lib.c:154-166 | Returns the distance to the first NUL. |
| Breakpoints.Transparent | code/bhyve-reference/usr.sbin/bhyve/gdb.c:1373-1436 | After every sequence of debugger requests, vCPU starts, disconnects and guest writes to unpatched bytes: guest memory with shadows in place of traps is what the guest itself has written; breakpoints are at distinct addresses; breakpoint exits are enabled on all running vCPUs if there are breakpoints and on none otherwise. |
| Breakpoints.InsertEffect | code/bhyve-reference/usr.sbin/bhyve/gdb.c:1373-1436 | After a request to insert, a RAM address has a breakpoint and holds the trap; memory, breakpoints and vCPUs elsewhere are as they were. |
| Breakpoints.RemoveEffect | code/bhyve-reference/usr.sbin/bhyve/gdb.c:1373-1436 | After a request to remove, it has none and holds what the guest has written; elsewhere all is as it was. |
| Breakpoints.BreakRefused | code/bhyve-reference/usr.sbin/bhyve/gdb.c:1373-1436 | A request of another kind, for an unmapped address or outside RAM changes nothing. |
| Breakpoints.DisconnectRestores | code/bhyve-reference/usr.sbin/bhyve/gdb.c:387-412 | After a disconnect memory itself is what the guest has written, with no breakpoint and no exit enabled. |
| Breakpoints.StepKeeps | code/bhyve-reference/usr.sbin/bhyve/gdb.c:1334-1436 | Each request keeps this. |
| Breakpoints.DebugServer.Update | code/bhyve-reference/usr.sbin/bhyve/gdb.c:1373-1436 | Has the effect of the request, error cases included. |
| Breakpoints.DebugServer.Close | code/bhyve-reference/usr.sbin/bhyve/gdb.c:1353-1371 | Puts all shadows back and disables the exits. |
| Breakpoints.DebugServer.CpuAdd | code/bhyve-reference/usr.sbin/bhyve/gdb.c:820-848 | A vCPU that starts while there are breakpoints gets exits enabled. |
| Breakpoints.DebugServer.SetCaps | code/bhyve-reference/usr.sbin/bhyve/gdb.c:1334-1351 | Enables or disables the exits of exactly the running vCPUs. |
| Breakpoints.DebugServer.FindBreakpoint | code/bhyve-reference/usr.sbin/bhyve/gdb.c:965-975 | Finds the breakpoint at an address, if there is one. |
| JsonComplete.ParsesAll | code/solo5/elftool/json.h:1257-1264 | From every text that sections 2 to 7 of RFC 8259 allow for a value, without escapes of U+0000 or surrogates, the value is read. |
| JsonComplete.ReadsValue | code/solo5/elftool/json.h:1183-1248 | The same in front of any text that may follow a value; only a number takes one white space with it. |
| JsonComplete.ReadsItems | code/solo5/elftool/json.h:1122-1175 | A series of elements with any white space is read element by element to its closing bracket. |
| JsonComplete.ReadsString | code/solo5/elftool/json.h:904-995 | A string is read as the bytes its characters and escapes mean, where RFC 8259 gives every escape by code point and every hex digit by its value, independently of the reader. |
| JsonComplete.ReadsNumber | code/solo5/elftool/json.h:1017-1067 | A number is read as its text. |
| JsonSpec.Utf8Decodes | code/solo5/elftool/json.h:688-713 | The bytes of a code point below 0x10000 decode to it by the table of section 3 of RFC 3629, and are as few as hold it. |
| JsonReader.Reader.ReadValue | code/solo5/elftool/json.h:1183-1248 | The recursive reader with its position in the input computes the reading function, failures included. |
| JsonReader.Reader.ReadSeries | code/solo5/elftool/json.h:1122-1175 | So does the loop over a series, with its vector of pointers. |
| JsonReader.Reader.SeriesTurn | code/solo5/elftool/json.h:1145-1171 | One turn of that loop. |
| JsonReader.Reader.Element | code/solo5/elftool/json.h:1094-1112 | So does the reading of one element, with its key and colon in an object. |
| JsonReader.Reader.ReadString | code/solo5/elftool/json.h:904-995 | So does the loop over the characters of a string. |
| JsonReader.OneChar | code/solo5/elftool/json.h:917-990 | One character moves the escape automaton one step. |
| JsonReader.Reader.ReadNumber | code/solo5/elftool/json.h:1017-1067 | So does the reading of a number. |
| JsonReader.Reader.Must | code/solo5/elftool/json.h:1071-1089 | So does the comparison with a word, which counts the last byte without comparing it. |
| JsonSpec.MustExact | code/solo5/elftool/json.h:1069-1089 | The comparison does what it is described to do if and only if the input does not differ from the word in the last byte alone. |
| JsonSpec.LastByteIgnored | code/solo5/elftool/json.h:1071-1089 | So "nulx", "truX" and "falsX" are read as null, true and false. |
| JsonReader.Growing.Add | code/solo5/elftool/json.h:650-658 | Appends one element; the buffer always has room for the contents and the terminator, which is in place. |
| JsonReader.Growing.Ensure | code/solo5/elftool/json.h:627-643 | There is room for what is asked for and the contents are kept. |
| JsonReader.AddU | code/solo5/elftool/json.h:688-713 | Appends the UTF-8 bytes of a code point. |

## Left out

- Memory ordering, lockdep, SRCU and RCU internals: every locked section or atomic operation is one step.
- 64-bit wrap-around of the notifier sequence number: it is unbounded here.
- The hlist notifiers, and the case that an hlist start fails after the interval start: the theorems are about the interval path.
- `mmu_notifier` reference counts of the mm and the registration race: the subscriptions structure exists from the start.
- The debug build of `smp.c` with its timeouts, CPU hotplug during a call, and polling idle CPUs: the online set is fixed and every wakeup is an interrupt.
- The stop of the many-CPU wait loop by an unexpected unlock of a foreign record: each sender uses its own records, as in the non-debug build.
- `get_user_pages` without a page array (prefaulting), `FOLL_MADV_POPULATE`, the gate page and the page-table formats: lookups, faults and migrations are arguments.
- Isolation of folios for migration and its own references: they are balanced by the migration code.
- GupFast.FastFallback: says nothing of what follows once a request for zero pages has left the page array, or the wrapped number of remaining pages has been handed on.
- GupFast.LongtermLocked: states what holds after any finite number of rounds, and not that a round without migration ever comes.
- The write path of the bounce buffer with short writes, in-flight cancellation by signal, opening, resizing and the file operations of `block_if.c`.
- AcpiFinish.Basl.Finish: covers tables in guest memory below 4 GiB, alignments that are powers of two up to 64, and checksum bytes inside their table; the loader commands for the guest firmware, and tables only in fw_cfg, are not modelled.
- The contents of the individual ACPI tables of `acpi.c` apart from the RSDP, and the DSDT compiler.
- Breakpoints.DebugServer.SetCaps: takes every capability call to succeed; a failing one leaves some vCPUs enabled.
- Sockets, packet parsing, stepping and stop reports of `gdb.c`.
- `twaddu` above U+FFFF, which four hex digits cannot name; size overflow of the growing buffers; rejection of malformed JSON and `jupdate`.
- Device emulation, consoles, boot code, libvmmapi, printf, configuration parsing and scripts: they would only add easier members.
