# Verified models of PSO server components

A Dafny model of the parts of this repository whose correctness is hardest to see, with
proofs. `dafny verify dfyconfig.toml` checks all of it.

The synchronisation code of the bundled pthreads library is modelled as transition systems
over any number of threads. A state holds the shared fields of the C object and, for each
thread, its place in the code; a step is one interlocked, semaphore, mutex, event or memory
operation; a run is any sequence of steps, with timeouts, cancellations and spurious
wake-ups wherever the code allows them. Properties hold for every run. Beside each system
stands a class with the fields of the C object. Its methods update them in place: one per C
function for single operations, each proved to be the system's step, and one for each whole
call (`AcquireCall`, `LockCall`, `WaitCall`, ...), with the C function's flow of control and
any steps of other threads between any two operations. What other threads do comes as a
list of turns. A call that is not finished when the turns have run out is proved to be at
an operation that has to wait.

- `Counting`: sums over all threads, from which the counting arguments are built.
- `McsLock`: the MCS queue lock with its flag handshake and node transfer. It refines a
  ticket lock.
- `Barrier`: the barrier built on it, over all its rounds.
- `CondVar`: the condition variable (Terekhov and Thomas, algorithm 9).
- `RwLock`: the read/write lock.
- `Mutex`: the non-robust mutex kinds.
- `Tsd`: thread-specific data. Association nodes are on two doubly linked lists, one for the
  thread and one for the key, and thread exit walks the first while destructors and other
  threads change both. Each field of a node is a map from addresses to values, so that a
  freed or reused address can be told from a live one.

The sequential components are classes, arrays and loops proved against short definitions.

- `MersenneTwister`: MT19937 with its reversed, unrolled refresh, against the recurrence.
- `Md5`: MD5 and HMAC-MD5, against RFC 1321 and RFC 2104; `Md5TestSuite` has a digest of
  that standard's test suite.
- `Keystream`, `PcCipher`, `GcCipher`: the PSO stream ciphers, against the recurrences they
  compute in blocks. The bits of the GameCube cipher's whole stream form one sequence
  y[t] = y[t-521] xor y[t-32], though the program never works on bits.
- `Unitxt`: the string table converter, both directions.

## Findings

- `mts_seedfull` aborts on an all-zero seed array only. 31 bits of the first seed are never
  used, so an array with nothing but those bits set is accepted and gives zeros from the
  second output on (`MersenneTwister.SeedFullCheck`, `MersenneTwister.SeedFullMissesOne`).
- `convert_unitxt` loses entries that start with `#`, breaks entries that contain a carriage
  return, and merges or drops empty categories; all other tables come back
  (`Unitxt.ComesBackIff`).
- `md5_update` counts only the low 32 bits of its length argument. Over any list of calls
  the length in the padding is right exactly if the lengths divided by 2^32 add up to a
  multiple of 2^29, so not after one call with 2^32 bytes (`Md5.LengthRightIff`,
  `Md5.LongPieceMiscounted`); the digest computed in any case is given by `Md5.HashPieces`.
- A condition variable may be destroyed while a signaller that does not hold the callers'
  mutex has yet to post to its semaphore: the waiter it woke can time out and leave first
  (`CondVar.SignallerMayOutlive`). With signal, broadcast and destroy under that mutex this
  cannot happen (`CondVar.DestroyedMeansUnused`).
- `CRYPT_PC_CryptData` does not end for sizes above 0xFFFFFFFC, where its byte counter wraps
  (`PcCipher.CounterReachesIff`).
- The branch of `pthread_rwlock_trywrlock` that would return with both mutexes locked is
  never taken (`RwLock.TestFindsNoWriter`).

## Model

| member | source | states |
|---|---|---|
| `McsLock.FlagWaitKeepsFlag` | 通用库/pthread_win32/ptw32_MCS_lock.c:139-163 | every operation of flag_wait keeps flag, setter and waiter in step, and the wait ends only after the flag has been set, with the flag unchanged |
| `McsLock.FlagSetKeepsFlag` | 通用库/pthread_win32/ptw32_MCS_lock.c:109-131 | setting a flag that holds an event leaves exactly the event still to be signalled; setting an empty one completes the hand-over |
| `McsLock.StepKeepsInv` | 通用库/pthread_win32/ptw32_MCS_lock.c:176-310 | whatever node takes whatever step of acquire, try_acquire, release or transfer, queue, links, flags and events keep fitting together |
| `McsLock.RunKeepsInv` | 通用库/pthread_win32/ptw32_MCS_lock.c:176-310 | the same for every run of any number of nodes |
| `McsLock.HolderIsHead` | 通用库/pthread_win32/ptw32_MCS_lock.c:184-197 | only the head of the queue holds the lock |
| `McsLock.TailIsNotHolder` | 通用库/pthread_win32/ptw32_MCS_lock.c:222-229 | the exchange of the tail by a releaser or transferrer succeeds exactly if it is alone in the queue |
| `McsLock.StepRefines` | 通用库/pthread_win32/ptw32_MCS_lock.c:184-310 | each step is a step of a ticket lock or none: the tail exchange draws the next ticket, the hand-over serves the next one, a transfer moves a ticket to the new node |
| `McsLock.OwnershipFollowsTickets` | 通用库/pthread_win32/ptw32_MCS_lock.c:184-310 | in every run at most one node holds the lock, it has the ticket being served, and tickets are served in the order of the tail exchanges |
| `McsLock.NoAccessAfterReturn` | 通用库/pthread_win32/ptw32_MCS_lock.c:211-244 | no operation touches a node whose release or transfer has returned |
| `McsLock.OtherNodesDoNotMatter` | 通用库/pthread_win32/ptw32_MCS_lock.c:109-310 | the accesses named for each program point are complete: a step neither reads nor writes any other node |
| `McsLock.KnownSuccessorMayStillWrite` | 通用库/pthread_win32/ptw32_MCS_lock.c:236-240 | a run in which the releaser already sees its successor while that one has yet to write nextFlag: the wait in the else branch is needed |
| `McsLock.SetEventsAreOpen` | 通用库/pthread_win32/ptw32_MCS_lock.c:126-130 | an event is set only while it is open and its waiter still waits for it |
| `McsLock.BlockedHasPartner` | 通用库/pthread_win32/ptw32_MCS_lock.c:110-163 | a node blocked in flag_wait always has a partner that has not finished its flag_set on that very flag, whose value is the handle of the blocked node's event: its successor, its predecessor in the queue, or the node that has just handed the lock over: no wake-up is lost |
| `McsLock.FlagsAreSetOnce` | 通用库/pthread_win32/ptw32_MCS_lock.c:112-115 | a flag that has left 0 keeps its value until its node is taken into use again |
| `McsLock.NoDeadlock` | 通用库/pthread_win32/ptw32_MCS_lock.c:184-310 | while anybody queues, the head owns the lock and is outside the library, or some node can take a step |
| `McsLock.NextIsKnown` | 通用库/pthread_win32/ptw32_MCS_lock.c:232-235 | the successor read after the wait for nextFlag is never null |
| `McsLock.TryAcquireIffFree` | 通用库/pthread_win32/ptw32_MCS_lock.c:253-264 | try_acquire succeeds exactly when the queue is empty |
| `McsLock.McsObject.constructor` | 通用库/pthread_win32/ptw32_MCS_lock.c:181-184 | a new lock is free |
| `McsLock.McsObject.Advance` | 通用库/pthread_win32/ptw32_MCS_lock.c:109-310 | whichever node takes whichever step, the object's new state is the specified one and keeps the invariant |
| `McsLock.McsObject.FlagWaitCall` | 通用库/pthread_win32/ptw32_MCS_lock.c:139-163 | flag_wait as a whole, whatever other nodes do between its operations, goes from the read of the flag to the program point after the wait; if it does not, the node waits for an open event that is not set |
| `McsLock.McsObject.AcquireCall` | 通用库/pthread_win32/ptw32_MCS_lock.c:177-197 | when acquire returns, the node is at the head of the queue and owns the lock, whatever other nodes do between its operations; it fails to return only while it waits for an event that is not set |
| `McsLock.McsObject.ReleaseCall` | 通用库/pthread_win32/ptw32_MCS_lock.c:211-244 | when release returns, the node is in no queue; it fails to return only while it waits for an event that is not set |
| `McsLock.McsObject.TryAcquireCall` | 通用库/pthread_win32/ptw32_MCS_lock.c:253-264 | try_acquire gets the lock with nobody else in the queue, or leaves the node outside a queue that is not empty |
| `McsLock.McsObject.TransferCall` | 通用库/pthread_win32/ptw32_MCS_lock.c:281-310 | when node_transfer returns, the new node is at the head of the queue and owns the lock, and the old one is in no queue; it fails to return only while its successor has not linked itself or the event is not set |
| `Barrier.StepKeepsInv` | 通用库/pthread_win32/pthread_barrier_wait.c:61-110 | every step of every thread keeps the round, the counters and the trace in step |
| `Barrier.TraceIsRounds` | 通用库/pthread_win32/pthread_barrier_wait.c:61-110 | the arrivals and returns of any run are full rounds of n arrivals and n returns, the last of which is the serial one, plus a part of a round |
| `Barrier.RoundsDoNotOverlap` | 通用库/pthread_win32/pthread_barrier_wait.c:61-110 | nobody returns from a round before all have arrived in it, nobody arrives in the next before all have left, and each round has one serial thread |
| `Barrier.BetweenRoundsReset` | 通用库/pthread_win32/pthread_barrier_wait.c:97-103 | between rounds height counter and semaphore have their initial values again |
| `Barrier.ArrivalsAndReturnsAlternate` | 通用库/pthread_win32/pthread_barrier_wait.c:61-110 | each thread's arrivals and returns alternate |
| `Barrier.LeaversAreArrivers` | 通用库/pthread_win32/pthread_barrier_wait.c:61-110 | in each completed round n different threads arrive and the same ones return, and whoever has returned from the current round has arrived in it |
| `Barrier.StuckOnlyIfTooFew` | 通用库/pthread_win32/pthread_barrier_wait.c:61-110 | if no thread can go on, the barrier just has not seen enough threads, and its lock is free |
| `Barrier.BarrierObject.constructor` | 通用库/pthread_win32/pthread_barrier_wait.c:61-64 | a new barrier is between rounds |
| `Barrier.BarrierObject.Advance` | 通用库/pthread_win32/pthread_barrier_wait.c:61-110 | whichever thread takes whichever step of pthread_barrier_wait, the new state is the specified one and keeps the invariant |
| `Barrier.BarrierObject.WaitCall` | 通用库/pthread_win32/pthread_barrier_wait.c:48-111 | pthread_barrier_wait as a whole returns only when the arrivals of its round are complete, with its own return as the last event; it fails to return only while it waits for a lock that is taken or for a token with none there |
| `CondVar.StepKeepsGood` | 通用库/pthread_win32/pthread_cond_wait.c:295-399 | every step of wait, cleanup, signal, broadcast and destroy, with timeouts and cancellations anywhere, keeps the invariant |
| `CondVar.RunKeepsGood` | 通用库/pthread_win32/pthread_cond_wait.c:295-399 | the same for every run of any number of threads |
| `CondVar.Conservation` | 通用库/pthread_win32/pthread_cond_wait.c:301-330 | registered waiters = blocked - gone + toUnblock, where gone counts as 0 between the subtraction and the clear of the renormalisation; gone <= blocked, and gone is 0 whenever toUnblock is positive, in every reachable state |
| `CondVar.PlainConservationIff` | 通用库/pthread_win32/pthread_cond_wait.c:317-326 | with the counters as they stand, the equation holds exactly when no thread is between that subtraction and that clear |
| `CondVar.TokensCoverDebt` | 通用库/pthread_win32/pthread_cond_signal.c:97-151 | semaphore tokens available, about to be posted, or taken by a waiter not yet deregistered always number at least toUnblock |
| `CondVar.TokenBalance` | 通用库/pthread_win32/pthread_cond_signal.c:97-151 | no token is made or lost: in every run the tokens beyond the wake-ups owed are the timed-out or cancelled waiters that have paid for a wake-up, less the woken ones that found none owed |
| `CondVar.GateIsBinary` | 通用库/pthread_win32/pthread_cond_wait.c:305-345 | semBlockLock never exceeds one, and it is closed exactly while a thread holds it, wake-ups are owed, or the thread that paid the last one has yet to post |
| `CondVar.CountersFit` | 通用库/pthread_win32/pthread_cond_wait.c:305-330 | with fewer than 2^30 threads no counter leaves the range of a C int, because of the renormalisation at INT_MAX/2 |
| `CondVar.SignalDropsOnlyIfAllOwed` | 通用库/pthread_win32/pthread_cond_signal.c:97-143 | signal and broadcast give up exactly when every registered waiter is already owed a wake-up |
| `CondVar.SigTestIssues` | 通用库/pthread_win32/pthread_cond_signal.c:97-114 | with the gate closed, signal issues one wake-up and broadcast leaves all registered waiters owed |
| `CondVar.SigMoveIssues` | 通用库/pthread_win32/pthread_cond_signal.c:124-138 | having closed the gate, signal issues one wake-up and broadcast leaves all registered waiters owed |
| `CondVar.NoNewcomerWhileOwed` | 通用库/pthread_win32/pthread_cond_wait.c:389-399 | no thread registers while a wake-up is owed |
| `CondVar.OwedToEarlierWaiters` | 通用库/pthread_win32/pthread_cond_wait.c:389-399 | over any run in which wake-ups stay owed, all registered threads were registered at its beginning: later arrivals cannot steal them |
| `CondVar.NoWaiterMissedUnderMutex` | 通用库/pthread_win32/pthread_cond_signal.c:92-115 | a thread that signals while holding the callers' mutex finds every thread that has called wait already counted |
| `CondVar.DestroyIffNoneRegistered` | 通用库/pthread_win32/pthread_cond_destroy.c:148-188 | destruction goes ahead exactly when no thread is registered and nothing is owed |
| `CondVar.DestroyedLeaves` | 通用库/pthread_win32/pthread_cond_destroy.c:148-188 | when the object is destroyed nothing is registered or owed, and every thread is outside, re-acquires the callers' mutex, or is about to make the first operation of a call or the post of a signal |
| `CondVar.UnusedIffNoCall` | 通用库/pthread_win32/pthread_cond_destroy.c:148-188 | the destroying step leaves no use of the object behind exactly when no other thread is inside a call on it |
| `CondVar.SignallerMayOutlive` | 通用库/pthread_win32/pthread_cond_signal.c:139-151 | a run in which a signaller has yet to post to the semaphore of an object that is destroyed |
| `CondVar.DestroyedMeansUnused` | 通用库/pthread_win32/pthread_cond_destroy.c:148-188 | if signal, broadcast and destroy are called under the callers' mutex, no thread is inside a call on a destroyed object |
| `CondVar.GateWaitIsNotCircular` | 通用库/pthread_win32/pthread_cond_signal.c:115-123 | a thread that waits for the gate while holding mtxUnblockLock waits for one that can go on and does not need that mutex |
| `CondVar.OwedWakeUpsMove` | 通用库/pthread_win32/pthread_cond_wait.c:295-345 | while a wake-up is owed some thread can go on |
| `CondVar.NoDeadlock` | 通用库/pthread_win32/pthread_cond_wait.c:295-399 | if a thread is inside the library, other than waiting for a signal or for the callers' mutex, some thread can go on |
| `CondVar.Cond.constructor` | 通用库/pthread_win32/pthread_cond_wait.c:386-394 | a new condition variable has an open gate and no waiters |
| `CondVar.Cond.Advance` | 通用库/pthread_win32/pthread_cond_wait.c:389-439 | whichever thread takes whichever step, the object's new state is the specified one and keeps the invariant |
| `CondVar.Cond.WaitCall` | 通用库/pthread_win32/pthread_cond_wait.c:389-452 | a wait that returns 0 has taken a token from the queue semaphore at one step of the call; one that returns an error was asked to end by a time-out or cancellation and has taken none; both return with the callers' mutex held; one that still waits for the gate or a token has not been asked to end |
| `CondVar.Cond.CleanupCall` | 通用库/pthread_win32/pthread_cond_wait.c:295-354 | the cleanup as a whole returns with the callers' mutex held, with or without the renormalisation |
| `CondVar.Cond.SignalCall` | 通用库/pthread_win32/pthread_cond_signal.c:92-151 | at one step of the call, whatever other threads do around it, signal issues one wake-up and broadcast one for every waiter not yet owed one, or nothing is issued because every registered waiter is owed one; the caller is then as before, unless the object is destroyed under it |
| `CondVar.Cond.DestroyCall` | 通用库/pthread_win32/pthread_cond_destroy.c:139-224 | destroy returns 0 exactly if the object is then destroyed, and EBUSY only because at one step of the call somebody had mtxUnblockLock or was registered |
| `RwLock.StepKeepsInv` | 通用库/pthread_win32/pthread_rwlock_wrlock.c:83-137 | every step of every thread keeps counters, mutexes and active readers and writers in step |
| `RwLock.CountersTellReaders` | 通用库/pthread_win32/pthread_rwlock_unlock.c:75-97 | active read locks = shared - completed when no writer drains, and = -completed while one does, in every reachable state; a thread may have several |
| `RwLock.WritersExclude` | 通用库/pthread_win32/pthread_rwlock_wrlock.c:83-137 | an active writer excludes every other thread, and has no read lock itself |
| `RwLock.WriterIsAlone` | 通用库/pthread_win32/pthread_rwlock_wrlock.c:127-137 | with an active writer both counters are 0 and no other thread has the lock |
| `RwLock.CountersFit` | 通用库/pthread_win32/pthread_rwlock_rdlock.c:88-106 | as long as never INT_MAX read locks are active at a time the counters stay in the range of a C int, however many come and go |
| `RwLock.ReadersOnlyDecrease` | 通用库/pthread_win32/pthread_rwlock_wrlock.c:83-120 | while a writer has mtxExclusiveAccess no reader is added |
| `RwLock.GivingUpRestoresCounters` | 通用库/pthread_win32/ptw32_rwlock_cancelwrwait.c:52-56 | the cleanup of a writer that gives up restores active readers = shared - completed, with completed 0 |
| `RwLock.TestFindsNoWriter` | 通用库/pthread_win32/pthread_rwlock_trywrlock.c:95-126 | the test of nExclusiveAccessCount under both mutexes always finds 0, so the branch that would return with both locked is never taken |
| `RwLock.TestEntersIff` | 通用库/pthread_win32/pthread_rwlock_trywrlock.c:97-126 | under both mutexes the test lets the writer in exactly if no read lock is active |
| `RwLock.CheckMeans` | 通用库/pthread_win32/pthread_rwlock_wrlock.c:115-120 | a draining writer that looks goes on waiting exactly while a read lock is active |
| `RwLock.StuckOnlyIfLocked` | 通用库/pthread_win32/pthread_rwlock_wrlock.c:83-137 | if nobody can go on and a thread is inside the library, some thread has the lock and is outside the library or has asked for the lock again: no wake-up of a draining writer is lost |
| `RwLock.RwLockObject.constructor` | 通用库/pthread_win32/pthread_rwlock_rdlock.c:83-88 | a new lock is free |
| `RwLock.RwLockObject.Advance` | 通用库/pthread_win32/pthread_rwlock_wrlock.c:83-137 | whichever thread takes whichever step, the object's new state is the specified one and keeps the invariant |
| `RwLock.RwLockObject.ReadCall` | 通用库/pthread_win32/pthread_rwlock_rdlock.c:83-108 | when rdlock returns 0 the caller has one read lock more and there is no writer; it gives up only while somebody has mtxExclusiveAccess; with everybody outside the library it succeeds exactly if there is no writer |
| `RwLock.RwLockObject.WriteCall` | 通用库/pthread_win32/pthread_rwlock_timedwrlock.c:84-143 | when wrlock returns 0 the caller is the writer and nobody else has the lock; trywrlock returns EBUSY only while somebody has a mutex it needs or a read lock; a time-out or cancellation must have been asked for; with everybody outside the library it succeeds exactly if nobody has the lock |
| `RwLock.RwLockObject.DrainCall` | 通用库/pthread_win32/pthread_rwlock_timedwrlock.c:119-136 | the wait loop ends with the readers gone, or by a time-out or cancellation that was asked for; if it does not, a reader is active or about to signal and no end was asked for |
| `RwLock.RwLockObject.UnlockCall` | 通用库/pthread_win32/pthread_rwlock_unlock.c:75-97 | unlock takes exactly one lock off the caller, as a writer exactly if it is one; only a reader may have to wait, for a mutex somebody has |
| `Mutex.StepKeepsInv` | 通用库/pthread_win32/pthread_mutex_lock.c:85-147 | every step of lock, timedlock, trylock and unlock keeps lock word, event, owner and count in step |
| `Mutex.MutualExclusion` | 通用库/pthread_win32/pthread_mutex_lock.c:85-147 | in every run at most one thread holds the mutex, and only while lock_idx is not 0 |
| `Mutex.WakeUpsAreNotLost` | 通用库/pthread_win32/pthread_mutex_timedlock.c:149-206 | whenever a thread is blocked on the unsignalled event, lock_idx is -1, or a contender is about to exchange in -1, or an unlocker is about to set the event |
| `Mutex.StuckOnlyIfHeld` | 通用库/pthread_win32/pthread_mutex_lock.c:85-147 | if nobody can go on, nobody waits, or the mutex is really held, with -1 in lock_idx |
| `Mutex.RelockIsDetected` | 通用库/pthread_win32/pthread_mutex_lock.c:117-127 | the owner test succeeds exactly for the holder, who counts up or gets EDEADLK; others wait or get EBUSY |
| `Mutex.UnlockIsRefusedToOthers` | 通用库/pthread_win32/pthread_mutex_unlock.c:95-116 | unlock of an owned kind is refused with EPERM exactly when the caller is not the holder |
| `Mutex.CountIsDepth` | 通用库/pthread_win32/pthread_mutex_unlock.c:97-100 | a recursive mutex is given back by exactly the unlock that matches the first lock |
| `Mutex.UnlockFrees` | 通用库/pthread_win32/pthread_mutex_unlock.c:73-117 | after the exchange of 0 nobody holds the mutex, and the holder never finds it free before |
| `Mutex.MutexObject.constructor` | 通用库/pthread_win32/pthread_mutex_lock.c:80-85 | a new mutex is free |
| `Mutex.MutexObject.Advance` | 通用库/pthread_win32/pthread_mutex_lock.c:85-147 | whichever thread takes whichever step, the object's new state is the specified one and keeps the invariant |
| `Mutex.GetsIffFree` | 通用库/pthread_win32/pthread_mutex_lock.c:87-134 | each exchange gets the mutex exactly if nobody has it, and trylock gives up or looks at the owner exactly if somebody does |
| `Mutex.MutexObject.LockCall` | 通用库/pthread_win32/pthread_mutex_timedlock.c:149-206 | when lock returns 0 the caller holds the mutex once more and nobody else does; EDEADLK exactly for the holder of an error-checking mutex; it waits or times out only after an exchange that found the mutex held, on an unsignalled event that somebody will set; a free mutex is always got |
| `Mutex.MutexObject.ContendCall` | 通用库/pthread_win32/pthread_mutex_timedlock.c:149-206 | the loop around the exchange of -1 ends with the mutex or with a time-out, whatever other threads do in between |
| `Mutex.MutexObject.TryLockCall` | 通用库/pthread_win32/pthread_mutex_trylock.c:83-105 | trylock returns 0 with the mutex held once more and by nobody else, or EBUSY because at its exchange somebody else had it or the caller a mutex that cannot be locked again; a free mutex is always got |
| `Mutex.MutexObject.UnlockCall` | 通用库/pthread_win32/pthread_mutex_unlock.c:69-117 | unlock takes one level off the holder, and is refused with EPERM exactly to others |
| `Tsd.UnlinkKeepsLists` | 通用库/pthread_win32/ptw32_tkAssocDestroy.c:74-116 | unlinking a node from a family of doubly linked lists removes it from its list and leaves every other list, in both directions, as it was |
| `Tsd.PushKeepsLists` | 通用库/pthread_win32/ptw32_tkAssocCreate.c:101-121 | pushing a node puts it at the front of one list and leaves all others as they were |
| `Tsd.RestWithout` | 通用库/pthread_win32/ptw32_tkAssocDestroy.c:91-98 | moving the cursor off a removed node makes what it still has to visit exactly the old rest without that node, wherever the node was |
| `Tsd.DestroyKeepsWiring` | 通用库/pthread_win32/ptw32_tkAssocDestroy.c:70-119 | after a removal every live node is on exactly its thread's and its key's list, with at most one for each pair, and no cursor points to a freed node |
| `Tsd.CreateKeepsWiring` | 通用库/pthread_win32/ptw32_tkAssocCreate.c:98-121 | the same after an addition, and no cursor gets a new node ahead of it |
| `Tsd.NoneLeft` | 通用库/pthread_win32/pthread_key_delete.c:93-113 | once a key's list is empty, each thread's list and each cursor's rest are the old ones without that key's nodes, in the old order |
| `Tsd.DestructorCallsBounded` | 通用库/pthread_win32/ptw32_callUserDestroyRoutines.c:100-103 | calls that name no key twice in a pass and stop after the constant number of passes call each destructor at most that many times |
| `Tsd.Registry.constructor` | 通用库/pthread_win32/implement.h:489-577 | a registry without keys has empty lists |
| `Tsd.Registry.UnlinkFromThread` | 通用库/pthread_win32/ptw32_tkAssocDestroy.c:74-98 | the link, head and cursor updates on the thread's list |
| `Tsd.Registry.UnlinkFromKey` | 通用库/pthread_win32/ptw32_tkAssocDestroy.c:100-116 | the link and head updates on the key's list |
| `Tsd.Registry.AssocDestroy` | 通用库/pthread_win32/ptw32_tkAssocDestroy.c:70-119 | removes the node from both lists, moves the thread's cursor off it, frees it, and changes nothing else |
| `Tsd.Registry.AssocCreate` | 通用库/pthread_win32/ptw32_tkAssocCreate.c:91-123 | ENOMEM and no change if there is no memory, otherwise the new node is first on both lists |
| `Tsd.Registry.Find` | 通用库/pthread_win32/pthread_setspecific.c:136-150 | the search finds an association exactly if there is one for this thread and key |
| `Tsd.Registry.SetSpecific` | 通用库/pthread_win32/pthread_setspecific.c:113-171 | creates an association exactly if the key has a destructor, the value is not null and there is none yet; sets the value unless that fails with ENOMEM or storing it with EAGAIN; every value that needs a destructor keeps its association |
| `Tsd.Registry.Associate` | 通用库/pthread_win32/pthread_setspecific.c:117-162 | the locked part: afterwards, unless ENOMEM, there is an association if one is needed |
| `Tsd.Registry.KeyCreate` | 通用库/pthread_win32/pthread_key_create.c:95-121 | a new key has an empty list and an empty slot in every thread; ENOMEM and EAGAIN leave everything as it was |
| `Tsd.Registry.DeleteNext` | 通用库/pthread_win32/pthread_key_delete.c:93-113 | one turn of the loop removes the first node of the key's list, from both lists, and moves its thread's cursor off it |
| `Tsd.Registry.EndDelete` | 通用库/pthread_win32/pthread_key_delete.c:93-128 | a deletion that has been begun, resumed after any steps of other threads, ends with no node of the key left and all others in their old order |
| `Tsd.Registry.KeyDelete` | 通用库/pthread_win32/pthread_key_delete.c:79-128 | removes exactly the key's nodes, keeping the order of all others, and leaves every cursor on the same remaining nodes |
| `Tsd.Registry.TeardownStep` | 通用库/pthread_win32/ptw32_callUserDestroyRoutines.c:128-234 | a turn of another exiting thread does not reach this thread's list or cursor |
| `Tsd.Registry.TakeNext` | 通用库/pthread_win32/ptw32_callUserDestroyRoutines.c:161-176 | moves the cursor on, takes and clears the value, and frees the node unless the value is not null and the pass is one of the first four |
| `Tsd.Registry.TakeTurn` | 通用库/pthread_win32/ptw32_callUserDestroyRoutines.c:178-234 | in the first four passes a value that is not null goes to its key's destructor; otherwise none is called |
| `Tsd.Registry.Pass` | 通用库/pthread_win32/ptw32_callUserDestroyRoutines.c:105-235 | one pass ends, calls no key twice, and leaves no association if it called nothing, whatever destructors, other threads, deletions under way and other exiting threads do between its turns; in the first four passes every associated key that nobody else touches has its destructor called with its value |
| `Tsd.Registry.CallUserDestroyRoutines` | 通用库/pthread_win32/ptw32_callUserDestroyRoutines.c:100-237 | ends after at most PTHREAD_DESTRUCTOR_ITERATIONS + 1 passes with no association and no value left under any live key with a destructor; every key with an association and a value at the start that nobody else touches has its destructor called with that value in the first pass |
| `MersenneTwister.StepIsReversible` | 工具-已失效/mtwist/mtwist.c:252-266 | two sequences agree in their 19937 bits from word n on exactly if they do from word n + 1 on |
| `MersenneTwister.NeverDegenerates` | 工具-已失效/mtwist/mtwist.c:747-788 | no run leaves or enters the states whose significant bits are all zero |
| `MersenneTwister.DeadIffDegenerate` | 工具-已失效/mtwist/mtwist.c:747-788 | the outputs are zero from some call on exactly if the start is degenerate, and then from the second word on |
| `MersenneTwister.UntemperUndoes` | 工具-已失效/mtwist/mtwist.h:316-352 | tempering is invertible |
| `MersenneTwister.Seed32NeverDegenerate` | 工具-已失效/mtwist/mtwist.c:371-400 | no 32-bit seed, zero included, ever leads to a degenerate state |
| `MersenneTwister.Seed32NewNeverDegenerate` | 工具-已失效/mtwist/mtwist.c:407-439 | the same for the newer seeding, which takes a zero seed as it is |
| `MersenneTwister.DefaultNumbers` | 工具-已失效/mtwist/mtwist.c:371-400 | from the default seed the first five numbers are those published with MT19937 |
| `MersenneTwister.NewWords` | 工具-已失效/mtwist/mtwist.c:407-439 | for the seed 5489 the state words of the reference implementation |
| `MersenneTwister.JoinHalves` | 工具-已失效/mtwist/mtwist.h:435-469 | of a 64-bit number the first word is the upper half |
| `MersenneTwister.SeedFullCheck` | 工具-已失效/mtwist/mtwist.c:463-484 | the check of mts_seedfull refuses only useless arrays, and lets a degenerate one through exactly when only the lower 31 bits of seeds[0] are set |
| `MersenneTwister.SeedFullMissesOne` | 工具-已失效/mtwist/mtwist.c:463-484 | an accepted seed array whose outputs after the first are all zero |
| `MersenneTwister.Generator.constructor` | 工具-已失效/mtwist/mtwist.h:168-180 | a zeroed structure stands for the default seed |
| `MersenneTwister.Generator.Refresh` | 工具-已失效/mtwist/mtwist.c:654-794 | refresh replaces the vector in place by the next 624 words of the recurrence, seeding first if needed |
| `MersenneTwister.Generator.RefreshFront` | 工具-已失效/mtwist/mtwist.c:747-764 | the first unrolled loop and the step after it compute words 0 to 226 of the new block |
| `MersenneTwister.Generator.RefreshBack` | 工具-已失效/mtwist/mtwist.c:766-788 | the second unrolled loop and the wrap-around compute the others |
| `MersenneTwister.Generator.SeedWith32` | 工具-已失效/mtwist/mtwist.c:371-400 | fills the vector by Knuth's generator, in reverse, and refreshes |
| `MersenneTwister.Generator.SeedWith32New` | 工具-已失效/mtwist/mtwist.c:407-439 | fills the vector by the newer generator, in reverse, and refreshes |
| `MersenneTwister.Generator.SeedFull` | 工具-已失效/mtwist/mtwist.c:458-488 | takes the seeds as the first 624 words, without a refresh, unless all are zero |
| `MersenneTwister.Generator.LRand` | 工具-已失效/mtwist/mtwist.h:406-417 | gives the tempered next word of the recurrence |
| `MersenneTwister.Generator.LLRand` | 工具-已失效/mtwist/mtwist.h:435-469 | gives what two calls of mts_lrand give, in order, and leaves the generator where they leave it |
| `Md5.CodeIsAuxiliary` | 通用库/md5/md5.c:113-176 | the rewritten F and G are the auxiliary functions of RFC 1321 |
| `Md5.FourSteps` | 通用库/md5/md5.c:103-118 | four uses of the unrolled macro are four operations of the standard, with the registers back in their places |
| `Md5.FirstRound` | 通用库/md5/md5.c:115-130 | the 16 unrolled operations are operations 0 to 15 of section 3.4 of RFC 1321: words, shifts and constants |
| `Md5.SecondRound` | 通用库/md5/md5.c:136-151 | the same for operations 16 to 31 |
| `Md5.ThirdRound` | 通用库/md5/md5.c:157-172 | the same for operations 32 to 47 |
| `Md5.FourthRound` | 通用库/md5/md5.c:178-193 | the same for operations 48 to 63 |
| `Md5.FillsBlock` | 通用库/md5/md5.c:223-237 | bytes that complete a block advance the state by exactly that block |
| `Md5.Carry` | 通用库/md5/md5.c:217-221 | the two counter words, with the carry test, count modulo 2^64 |
| `Md5.BitLength` | 通用库/md5/md5.c:262-264 | the shifted counter words are the bit length modulo 2^64 |
| `Md5.LengthFieldIff` | 通用库/md5/md5.c:262-267 | the length field tells counted lengths apart exactly modulo 2^61 bytes |
| `Md5.LengthRightIff` | 通用库/md5/md5.c:206-221 | for every list of pieces passed to md5_update, the length field is that of their concatenation exactly if the sum of their lengths divided by 2^32 is a multiple of 2^29 |
| `Md5.PaddedRightIff` | 通用库/md5/md5.c:256-272 | what is hashed is the padded message of section 3.1 of RFC 1321 under exactly that condition |
| `Md5.LongPieceMiscounted` | 通用库/md5/md5.c:206-221 | one piece of 2^32 bytes, for which it fails |
| `Md5.PaddingUsed` | 通用库/md5/md5.c:269-272 | both padding cases take exactly the padding of section 3.1 of RFC 1321 |
| `Md5.Context.constructor` | 通用库/md5/md5.c:69-78 | the buffers of a new context are its own |
| `Md5.Context.Starts` | 通用库/md5/md5.c:69-78 | an empty message |
| `Md5.Context.ProcessBlock` | 通用库/md5/md5.c:80-201 | one block of section 3.4 of RFC 1321 |
| `Md5.Context.Update` | 通用库/md5/md5.c:206-243 | appends the input, of any length, to the message; only the low 32 bits of its length are counted |
| `Md5.Context.Absorb` | 通用库/md5/md5.c:223-242 | state and buffer are those of the message however the input falls into blocks |
| `Md5.Context.Finish` | 通用库/md5/md5.c:256-279 | gives the digest of sections 3.1 to 3.5 of RFC 1321 if every byte was counted, and in any case the digest with the counted length |
| `Md5.OneShot` | 通用库/md5/md5.c:286-295 | the one-shot digest, of inputs of any length: that of the standard if the length divided by 2^32 is a multiple of 2^29, in any case the one with the counted length |
| `Md5.HashPieces` | 通用库/md5/md5.c:301-328 | however a message is cut into updates of any length, the digest is that of the whole with the counted length, and that of the standard under the condition of LengthRightIff, in particular if every update is below 2^32 bytes |
| `Md5.Context.HmacStarts` | 通用库/md5/md5.c:334-359 | puts the pads of the key, hashed first if longer than 64 bytes, in place and hashes the inner one |
| `Md5.Context.HmacUpdate` | 通用库/md5/md5.c:364-367 | appends to the text |
| `Md5.Context.HmacFinish` | 通用库/md5/md5.c:372-383 | gives the construction of section 2 of RFC 2104 |
| `Md5.Context.HmacReset` | 通用库/md5/md5.c:388-392 | ready for another text under the same key |
| `Md5.HmacPieces` | 通用库/md5/md5.c:334-383 | key and text of any length, the text in any pieces: the construction of section 2 of RFC 2104 if the lost lengths of key and pieces are multiples of 2^29 |
| `Md5.HmacFormula` | 通用库/md5/md5.c:334-383 | the formula of section 2 of RFC 2104, for short keys and for long ones |
| `Md5.PadsOfOneByte` | 通用库/md5/md5.c:345-353 | the pads of a key of one byte, byte by byte |
| `Md5TestSuite.DigestOfAbc` | 通用库/md5/md5.c:80-201 | the digest of "abc" is that of the test suite in section A.5 of RFC 1321 |
| `Keystream.DecryptUndoesEncrypt` | 游戏库/libpsocnconfig/psopc-crypt.c:81-89 | encrypting twice with the same stream from the same place gives the text back |
| `Keystream.SplitChangesNothing` | 游戏库/libpsocnconfig/psopc-crypt.c:81-89 | encrypting in two calls is encrypting in one |
| `Keystream.WordsOfSplit` | 游戏库/libpsocnconfig/psopc-crypt.c:84-88 | two sizes use as many words as their sum exactly if the first or the second is a multiple of 4 or the partial words do not fit in one |
| `PcCipher.WordsSubtract` | 游戏库/libpsocnconfig/psopc-crypt.c:18-38 | the recurrence with the subtraction modulo 2^32 written out |
| `PcCipher.DifferencesSubtract` | 游戏库/libpsocnconfig/psopc-crypt.c:50-60 | the same for the differences that fill the key |
| `PcCipher.XorBits` | 游戏库/libpsocnconfig/psopc-crypt.c:81-89 | a bit of the result is set exactly if it is set in one of text and key only |
| `PcCipher.EverySlotOnce` | 游戏库/libpsocnconfig/psopc-crypt.c:50-60 | the loop of key creation writes each of slots 1 to 54 exactly once |
| `PcCipher.DecryptUndoesEncrypt` | 游戏库/libpsocnconfig/psopc-crypt.c:81-89 | decrypting with the same seed undoes encrypting, for every buffer and place |
| `PcCipher.Cipher.constructor` | 游戏库/libpsocnconfig/psopc-crypt.c:13-16 | the key table of a new cipher is its own |
| `PcCipher.Cipher.MixKeys` | 游戏库/libpsocnconfig/psopc-crypt.c:13-40 | mixing in place gives the next 55 words of x[n] = x[n-55] - x[n-24] |
| `PcCipher.Cipher.FillKeys` | 游戏库/libpsocnconfig/psopc-crypt.c:44-60 | slot i holds term 21 i mod 55 of the sequence seed, 1, seed - 1, ... |
| `PcCipher.Cipher.CreateKeys` | 游戏库/libpsocnconfig/psopc-crypt.c:42-66 | after key creation the stream is at word 275 of the recurrence |
| `PcCipher.Cipher.GetNextKey` | 游戏库/libpsocnconfig/psopc-crypt.c:68-79 | gives the next word of the recurrence |
| `PcCipher.CounterReachesIff` | 游戏库/libpsocnconfig/psopc-crypt.c:81-89 | for a 32-bit size, the 32-bit byte counter reaches it and the loop ends exactly if it is at most 0xFFFFFFFC |
| `PcCipher.Cipher.CryptData` | 游戏库/libpsocnconfig/psopc-crypt.c:81-89 | for those sizes, combines the data with the next words of the recurrence, rounding the size up to words, and leaves the rest alone |
| `PcCipher.CreatePair` | 游戏库/libpsocnconfig/psopc-crypt.c:42-66 | two ciphers that create their keys from one seed are in step |
| `PcCipher.Transmit` | 游戏库/libpsocnconfig/psopc-crypt.c:81-89 | what one of two ciphers in step encrypts the other decrypts, in the buffer, and they are in step for the next message |
| `GcCipher.DecryptUndoesEncrypt` | 游戏库/libpsocnconfig/psogc-crypt.c:100-112 | decrypting with the same seed undoes encrypting, for every buffer and place |
| `GcCipher.FirstCongruentials` | 游戏库/libpsocnconfig/psogc-crypt.c:67-79 | the congruential generator's first values from the seed 0 |
| `GcCipher.SeedBitIsTop` | 游戏库/libpsocnconfig/psogc-crypt.c:67-79 | a seed bit is the top bit of the generator's value |
| `GcCipher.BitsRecur` | 游戏库/libpsocnconfig/psogc-crypt.c:20-98 | every bit of the keystream is the exclusive or of the bits 521 and 32 places before it: word expansion and block mixing continue one bit sequence |
| `GcCipher.FromWords` | 游戏库/libpsocnconfig/psogc-crypt.c:29-47 | a recurrence over words carries the one over bits on, by halving distances five times |
| `GcCipher.FirstWordsRecur` | 游戏库/libpsocnconfig/psogc-crypt.c:83-93 | the key expansion follows the bit recurrence |
| `GcCipher.Cipher.constructor` | 游戏库/libpsocnconfig/psogc-crypt.c:57-65 | the key table of a new cipher is its own |
| `GcCipher.Cipher.MixKeys` | 游戏库/libpsocnconfig/psogc-crypt.c:20-48 | mixing in place gives the next 521 words of x[n] = x[n-521] xor x[n-32] |
| `GcCipher.Cipher.GetNextKey` | 游戏库/libpsocnconfig/psogc-crypt.c:50-55 | gives the next word of the recurrence |
| `GcCipher.Cipher.FillSeedWords` | 游戏库/libpsocnconfig/psogc-crypt.c:67-79 | the first 17 words collect the top bits of the congruential generator, the first lowest |
| `GcCipher.Cipher.Expand` | 游戏库/libpsocnconfig/psogc-crypt.c:80-93 | the expansion fills the table as specified |
| `GcCipher.Cipher.CreateKeys` | 游戏库/libpsocnconfig/psogc-crypt.c:57-98 | after key creation the stream is at word 2084 of the recurrence |
| `GcCipher.Cipher.CryptData` | 游戏库/libpsocnconfig/psogc-crypt.c:100-112 | combines the data with the next words of the recurrence, rounding the size up to words, and leaves the rest alone |
| `GcCipher.CreatePair` | 游戏库/libpsocnconfig/psogc-crypt.c:57-98 | two ciphers that create their keys from one seed are in step |
| `GcCipher.Transmit` | 游戏库/libpsocnconfig/psogc-crypt.c:100-112 | what one of two ciphers in step encrypts the other decrypts, in the buffer, and they are in step for the next message |
| `Unitxt.Escapes` | 工具-已失效/convert_unitxt/convert_unitxt.c:82-102 | tab, line break and backslash are written as a backslash and a letter, everything else as it is |
| `Unitxt.Headings` | 工具-已失效/convert_unitxt/convert_unitxt.c:105-140 | the category heading and the entry headings, character by character |
| `Unitxt.DecimalReadsBack` | 工具-已失效/convert_unitxt/convert_unitxt.c:105-109 | an entry's number reads back as the number, without leading zeros |
| `Unitxt.SmallExport` | 工具-已失效/convert_unitxt/convert_unitxt.c:61-140 | the whole text of a table with two categories of one string each |
| `Unitxt.SmallImage` | 工具-已失效/convert_unitxt/convert_unitxt.c:213-232 | the whole binary form of a table with one string, unit by unit |
| `Unitxt.EscapedLine` | 工具-已失效/convert_unitxt/convert_unitxt.c:173-197 | reading an escaped entry without carriage returns gives the entry, terminated, and the rest of the text |
| `Unitxt.ReadingHolds` | 工具-已失效/convert_unitxt/convert_unitxt.c:173-210 | whatever the text, no string read contains a carriage return or starts with '#' |
| `Unitxt.ComesBackIff` | 工具-已失效/convert_unitxt/convert_unitxt.c:78-210 | importing an export gives the same category sizes and strings exactly when no entry contains a carriage return or starts with '#', and no category is empty or the table is one empty category |
| `Unitxt.HashEntryIsLost` | 工具-已失效/convert_unitxt/convert_unitxt.c:199-203 | a table that does not come back |
| `Unitxt.StringAtOffset` | 工具-已失效/convert_unitxt/convert_unitxt.c:206-209 | each offset leads to its string |
| `Unitxt.ImageReadsBack` | 工具-已失效/convert_unitxt/convert_unitxt.c:215-232 | the binary form is read back as it was written |
| `Unitxt.RoundTrip` | 工具-已失效/convert_unitxt/convert_unitxt.c:52-232 | importing the exported text rebuilds a binary table with the same category sizes and, at its offsets, the same strings |
| `Unitxt.WriteEntry` | 工具-已失效/convert_unitxt/convert_unitxt.c:80-103 | writes the escaped string at the offset |
| `Unitxt.ExportEntry` | 工具-已失效/convert_unitxt/convert_unitxt.c:78-137 | one turn of the export loop |
| `Unitxt.Export` | 工具-已失效/convert_unitxt/convert_unitxt.c:52-139 | the export gives the text form of the table in the buffer |
| `Unitxt.ReadLine` | 工具-已失效/convert_unitxt/convert_unitxt.c:171-197 | reads one line with its escapes |
| `Unitxt.ReadLines` | 工具-已失效/convert_unitxt/convert_unitxt.c:161-211 | the import loop gives sizes, strings and offsets as specified |
| `Unitxt.MakeTable` | 工具-已失效/convert_unitxt/convert_unitxt.c:156-230 | the import gives the binary form of what it read |

## Left out

Of the pthreads library:

- Robust mutexes, once and spin locks, thread creation, attributes, static initialisers,
  argument checks, and error returns of the operating system other than the ones shown.
- Semaphores, events and thread-local storage are modelled by what they are documented to
  do, an auto-reset event as one bit; `sem_destroy` and the global list of condition
  variables are not part of the model.
- Callers keep to the documented rules: only the holder releases a lock or transfers its
  node, a node is used for one acquisition at a time, and objects in use are not destroyed
  except through the modelled call. A thread may ask for a read/write lock it already has.
- Delivery of cancellation: a cancelled wait is one that ends early and runs its cleanup.
- Fairness: what is proved is that some thread can always go on, not that each one does.
- `McsLock.NoDeadlock`, `CondVar.NoDeadlock`, `RwLock.StuckOnlyIfLocked`,
  `Mutex.StuckOnlyIfHeld` and `Barrier.StuckOnlyIfTooFew` are therefore about stuck states.
- McsLock.McsObject.AcquireCall: one lock word only; the node's `lock` field, which never changes during a use, and the
  failure to create an event are not modelled, and a step is taken on behalf of a node, which one thread at a time
  operates.
- Barrier.BarrierObject.WaitCall: acquiring, releasing and transferring the MCS lock are single steps here, as `McsLock`
  justifies; the `EINVAL` checks are not modelled.
- CondVar.Cond.DestroyCall: nothing happens to an object after its destruction, so a thread that had yet to make an
  operation on it stays there, also one that only had to re-acquire the callers' mutex.
- RwLock.RwLockObject.ReadCall: the timeout of `pthread_rwlock_timedrdlock` inside its INT_MAX branch is not modelled,
  because it touches `nCompletedSharedAccessCount` without its mutex.
- RwLock.RwLockObject.WriteCall: mutexes and the condition variable are used through their specifications, with spurious
  wake-ups. A timed wait ends when the other threads' turns run out, or when the thread's turns say so.
- Mutex.MutexObject.LockCall: likewise a timed wait ends when the other threads' turns run out.
- Tsd.Registry.SetSpecific: what happens under the two locks and the store that follows are one step for other threads;
  the lock order itself is not modelled. The internal key for `pthread_self` is left out.
- Tsd.Registry.Perform: calls on keys that no longer exist, or that are being deleted, are the caller's error and are
  left out.
- Tsd.Registry.CallUserDestroyRoutines: destructors and other threads take any finite sequence of steps between two
  turns; a busy key lock is met finitely often, and a deletion under way ends once nobody else has anything left to do.

Of the other components:

- Seeding from devices or the time (`mts_bestseed` and its relatives), floating-point results, saving and loading.
- Md5.HashPieces: the file functions of `md5_file` are left out, its loop over the pieces read is kept.
- Md5.Context.Finish: the bitwise or of two disjoint halves of the length is written as a sum.
- PcCipher.Cipher.CryptData: data are 32-bit words in the cipher's byte order; the byte swap for big-endian machines is
  left out.
- GcCipher.Cipher.CryptData: likewise; the statement that reads and advances the same address without a sequence point is
  modelled as the exclusive or in place that it is meant to be.
- The Blue Burst cipher and PRS compression, whose tables and code are not part of this model.
- Unitxt.Export: buffers are as long as needed; the fixed capacities, printing and file access are left out. The entry
  count is below 2^31.
- Unitxt.MakeTable: likewise; category counters start at zero, as they do in a fresh process.
- The servers' own packet handling and database access, file locking, the list containers and the Python tools.
