# COLO checkpointing and NIC proxy registry, modelled in Dafny

This project models two parts of QEMU's COLO (COarse-grained LOck-stepping) fault
tolerance.

- **migration/colo.c: the checkpoint protocol between two VMs.** The primary
  (`colo_thread`) and the secondary (`colo_process_incoming_checkpoints`) agree on
  each checkpoint through 64-bit big-endian control words. The words are READY, NEW,
  SUSPENDED, SEND, RECEIVED, LOADED, GUEST_SHUTDOWN and RAM_LIVE_MIGRATE.
  - In one transaction the primary sends NEW and waits for SUSPENDED. It then stops
    the VM, checkpoints the network proxy and the block replication, and sends SEND.
    Next it saves the device state into a buffer and sends the buffer's size and
    bytes. Finally it waits for RECEIVED and LOADED and resumes the VM.
  - The secondary loads what it received and replies in the same order.
  - The model also covers:
    - the block replication helpers (`blk_start_replication`, `blk_do_checkpoint`,
      `blk_stop_replication`);
    - the primary's loop, which decides between failover, shutdown, a compare
      mismatch, a live RAM push and a periodic checkpoint;
    - the start-up and out labels of both threads;
    - the failover bottom half (`colo_do_failover`, `master_do_failover`,
      `slave_do_failover`).
- **net/colo-nic.c: the registry of network clients the COLO proxy manages.**
  - Adding and removing clients.
  - Bringing every client up or down through the `colo-proxy-script.sh` helper, or
    through the secondary's own ifup/ifdown scripts.
  - Building the helper's argument vector.

## How it is built

The models are imperative, because the sources are.

**colo.c.** A `ColoProcess` class holds the process-wide state:
- the migration status;
- the VM's run state;
- the failover and shutdown flags;
- `vmstate_loading`;
- the statistics;
- the colo buffer;
- the two channels.

Each protocol step is a method that changes that state. Each method is proved
against a function over the process's value view `ProcState`:
`ensures (o, p.State()) == Transaction(old(p.State()), env, blk)`.

The source's collaborators become parameters. These include the RAM and device-state
savers and loaders, the proxy, the block drivers, the clock and the failover request.
Each reports success or failure, and the model follows every outcome.

The channels carry `Frame`s. A frame is either a control word or a run of bytes.
The big-endian encoding of a control word is proved to round-trip separately
(`Wire.Be64RoundTrip`).

**colo-nic.c.** `NicRegistry` holds the registry as a sequence of `NicDevice` values,
plus the argument vectors of the scripts it launched. Whether a launch succeeds is an
oracle parameter.

**Properties.** The properties are proved as lemmas about the specification
functions, in `primary_props.dfy`, `primary_loop.dfy`, `secondary_props.dfy`,
`protocol.dfy` and `nic_props.dfy`.

**A failed `qemu_bufopen` in a transaction.** The code jumps to the out label with
`ret` still 0 (colo.c:327-332), so the transaction reports success. The model follows
the code, and `PrimaryProps.BufOpenFailureReportsSuccess` states that behaviour.

## Model

| member | source | states |
|---|---|---|
| Wire.Decode | migration/colo.c:39-76 | a received word names a control tag exactly when it lies in 0x46..0x4d |
| Wire.DecodeCode | migration/colo.c:39-76 | decoding the wire value of any tag gives that tag back |
| Wire.CodeDecode | migration/colo.c:39-76 | every word that names a tag is that tag's wire value |
| Wire.CodeInjective | migration/colo.c:39-76 | no two tags share a wire value |
| Wire.DecodeEncode | migration/colo.c:262-288 | reading back an n-byte big-endian encoding gives the number encoded |
| Wire.EncodeDecode | migration/colo.c:262-288 | every byte string is the big-endian encoding of the number it reads as |
| Wire.Be64RoundTrip | migration/colo.c:262-288 | a control word written with qemu_put_be64 is read back unchanged by qemu_get_be64 |
| Wire.Be64Canonical | migration/colo.c:274-288 | any eight bytes read as a word are exactly that word's encoding |
| Wire.ReadControlWord | migration/colo.c:274-288 | a reader takes the first control frame's word off the serialized stream, and what is left is the rest of the frames |
| Channel.ExpectMeaning | migration/colo.c:290-307 | colo_ctl_get matches exactly when the next frame is the required word, fails the read when no word is there, and otherwise is a desync carrying the word read |
| Channel.OutFile.Put | migration/colo.c:262-272 | a write succeeds (0) exactly while the transport accepts frames and appends the frame; a failure returns a negative value (represented by -1), appends nothing and stays failed |
| Channel.OutFile.CtlPut | migration/colo.c:262-272 | colo_ctl_put appends the control word and returns 0, or returns the transport's negative error (represented by -1) on a broken transport |
| Channel.InFile.CtlGetValue | migration/colo.c:274-288 | returns 0 and the next word, advancing one frame, exactly when a word can be read; otherwise returns -1 without moving |
| Channel.InFile.CtlGet | migration/colo.c:290-307 | returns Matched exactly when the next frame is the required word; only a read error leaves the position unchanged |
| Channel.InFile.FillBuffer | migration/colo.c:827-837 | the buffer is filled exactly when the next frame is a byte run of the announced size, and then holds those bytes |
| Block.Visits | migration/colo.c:136-177 | the calls made on the first n backends are one per eligible backend, in list order, and to no other backend |
| Block.VisitsAll | migration/colo.c:128-133 | the rollback calls one stop on each of the first n backends, in order |
| Block.FirstFailure | migration/colo.c:109-152 | it finds the first eligible backend whose call fails; it is None exactly when no eligible backend fails |
| Block.StartReplication | migration/colo.c:109-134 | blk_start_replication computes the start outcome and its calls |
| Block.StopPredecessors | migration/colo.c:128-133 | the rollback loop stops every backend before the failing one |
| Block.DoCheckpointAll | migration/colo.c:136-152 | blk_do_checkpoint computes the checkpoint outcome and its calls |
| Block.StopReplication | migration/colo.c:154-177 | blk_stop_replication computes the stop outcome and its calls |
| Block.StartRollback | migration/colo.c:109-134 | a failed start reports an error, starts the failing backend, stops each backend before it, and calls nothing after it |
| Block.StopWithoutErrpVisitsAll | migration/colo.c:154-177 | without an error pointer every eligible backend is stopped and no error is reported, whatever the outcomes |
| Block.CheckpointStopsAtFailure | migration/colo.c:136-152 | a checkpoint reports an error exactly when some eligible backend fails, and calls no backend after the first failing one |
| Primary.CheckpointTransaction | migration/colo.c:309-453 | colo_do_checkpoint_transaction's outcome and the new process state are the transaction function of the old state, with the shutdown flag re-read before the VM stops |
| Primary.ReadShutdown | migration/colo.c:339-343 | the shutdown flag read before the VM stops is set exactly when it was set at the loop head or the guest has asked since; nothing else changes |
| Primary.DoSuspend | migration/colo.c:317-337 | the NEW/SUSPENDED exchange, the buffer reset and open, and the first failover point are the Suspend stretch of the old state |
| Primary.DoStopAndCheckpoint | migration/colo.c:339-368 | stopping the VM, the second failover point and the proxy and block checkpoints are the StopAndCheckpoint stretch |
| Primary.DoSaveState | migration/colo.c:370-389 | SEND, the device state save and the RAM save are the SaveState stretch |
| Primary.DoSendBuffer | migration/colo.c:391-403 | sending the size and bytes of the buffer is the SendBuffer stretch |
| Primary.DoAwaitLoaded | migration/colo.c:404-414 | waiting for RECEIVED and LOADED is the AwaitLoaded stretch |
| Primary.DoFinish | migration/colo.c:416-446 | the shutdown branch, or resuming with the downtime accounted, is the Finish stretch |
| Primary.NeedLiveMigrateRam | migration/colo.c:456-465 | live RAM is pushed exactly when at least THRESHOLD_PENDING_SIZE (10 MiB) is pending |
| Primary.Decide | migration/colo.c:537-588 | the loop's trigger is chosen in the source's order: failover request, then latched shutdown, then a compare error, mismatch or live push/sleep, then a periodic checkpoint once the period has passed, each stated as an iff |
| Primary.DoStep | migration/colo.c:537-597 | one loop iteration is the Step function of the old state and the checkpoint time |
| Primary.DoPrepare | migration/colo.c:540-588 | an iteration up to do_checkpoint is the Prepare plan |
| Primary.DoFollow | migration/colo.c:539-588 | the branch the trigger selects is the Follow plan: out on a failover request or a compare error, a 100 ms sleep when idle, a live push, or the checkpoint with its counter |
| Primary.DoLivePush | migration/colo.c:572-581 | RAM_LIVE_MIGRATE and one round of live RAM is the LivePushStep plan |
| Primary.DoBeforeCheckpoint | migration/colo.c:552-588 | the counters and sleeps before a checkpoint are BeforeCheckpoint of its kind |
| Primary.DoTakeCheckpoint | migration/colo.c:590-596 | the do_checkpoint label is TakeCheckpoint of the old state |
| Primary.CountCheckpoint | migration/colo.c:592-596 | a transaction that did not return 0 leaves the loop with the state untouched; one that returned 0 increments checkpoint_count and renews the checkpoint time |
| Primary.RunLoop | migration/colo.c:537-597 | the checkpoint loop is the Loop function over the modelled ticks |
| Primary.DoPrimaryStartup | migration/colo.c:492-535 | colo_thread's start-up is the PrimaryStartup function of the old state |
| Primary.RunColoThread | migration/colo.c:483-631 | colo_thread up to the failover wait is the ColoThread function of the old state |
| PrimaryProps.SuspendGoing | migration/colo.c:317-337 | the Suspend stretch carries on exactly when NEW goes out, SUSPENDED comes in, the buffer opens and no failover is requested, and then it has sent NEW and read SUSPENDED |
| PrimaryProps.SuspendEnded | migration/colo.c:317-337 | Suspend ends with 0 only on the buffer-open failure, otherwise with -1 or a desync exit |
| PrimaryProps.SuspendEndedState | migration/colo.c:317-337 | an ended Suspend sent at most NEW and did not touch the VM |
| PrimaryProps.StopAndCheckpointGoing | migration/colo.c:339-368 | the stretch carries on exactly when the second failover point is clear and the proxy and every block checkpoint succeed; then the VM is stopped |
| PrimaryProps.SaveStateGoing | migration/colo.c:370-389 | SaveState carries on exactly when SEND goes out and the device state and RAM are saved; then the buffer holds the device state |
| PrimaryProps.SendBufferGoing | migration/colo.c:391-403 | SendBuffer carries on exactly when the stream takes the size and the bytes |
| PrimaryProps.AwaitLoadedGoing | migration/colo.c:404-414 | AwaitLoaded carries on exactly when RECEIVED and then LOADED are read, consuming both |
| PrimaryProps.AwaitLoadedDesync | migration/colo.c:290-307 | a word other than the awaited acknowledgement ends the transaction in the exit of colo_ctl_get |
| PrimaryProps.CompletesReachesLoaded | migration/colo.c:309-414 | when every step succeeds, the transaction reaches LOADED with the state AtLoaded, and only the shutdown decision remains, taken on the flag as re-read before the VM stops (colo.c:342) |
| PrimaryProps.TransactionSucceeds | migration/colo.c:309-453 | a transaction returns 0 with its buffer opened exactly when every step succeeds and no shutdown is pending, neither at the loop head nor at the re-read before the VM stops; then it sent NEW, SEND, size, bytes, consumed SUSPENDED, RECEIVED, LOADED, resumed the VM and accounted the downtime |
| PrimaryProps.ZeroNeedsSuccess | migration/colo.c:309-453 | a return of 0 with the buffer opened implies every step succeeded |
| PrimaryProps.ShutdownBranch | migration/colo.c:339-428 | a shutdown pending when the transaction re-reads the flag before stopping the VM, after a complete exchange, stops replication on every eligible backend, sends GUEST_SHUTDOWN if it can, clears the request and never resumes the VM |
| PrimaryProps.FinishShutdown | migration/colo.c:416-428 | the shutdown branch by itself stops replication, sends GUEST_SHUTDOWN when the stream takes it and clears the request |
| PrimaryProps.BufOpenFailureReportsSuccess | migration/colo.c:327-332 | a failed qemu_bufopen returns 0 with only NEW sent and the VM still running |
| PrimaryProps.FailoverBeforeSend | migration/colo.c:334-353 | a failover request at either safe point returns -1 with NEW the only frame sent |
| PrimaryProps.TransactionSendsPrefix | migration/colo.c:309-453 | outside the shutdown branch a transaction sends a prefix of NEW, SEND, size, bytes and nothing after its first failing step |
| PrimaryProps.TransactionReads | migration/colo.c:309-453 | a transaction reads only SUSPENDED, RECEIVED, LOADED in order, and exits exactly on the first word that is not the expected one |
| PrimaryProps.TransactionKeepsCounters | migration/colo.c:309-453 | however it ends, a transaction changes neither the migration status nor the checkpoint counters |
| PrimaryLoopProps.DowntimeLedger | migration/colo.c:438-446 | the downtime total grows by the downtime; the maximum and minimum take it when it exceeds them |
| PrimaryLoopProps.SuccessfulDowntime | migration/colo.c:430-446 | after a successful transaction the ledger holds the downtime and pages sent, and no other statistic changes |
| PrimaryLoopProps.TakeCheckpointCounts | migration/colo.c:590-596 | the loop carries on exactly when the transaction returned 0, and only then is checkpoint_count incremented and the checkpoint time renewed |
| PrimaryLoopProps.StepCounters | migration/colo.c:537-597 | an iteration moves periodic_checkpoint_count only for a periodic checkpoint, proxy_discompare_count only for a mismatch, checkpoint_count only for a successful checkpoint, and leaves the status alone |
| PrimaryLoopProps.PrepareCounters | migration/colo.c:540-588 | a checkpoint is planned exactly on a checkpoint trigger and counted by its kind |
| PrimaryLoopProps.FollowCounters | migration/colo.c:539-588 | only a checkpoint trigger reaches do_checkpoint; periodic_checkpoint_count moves only for a periodic one and proxy_discompare_count only for a mismatch; checkpoint_count and the status are untouched |
| PrimaryLoopProps.LivePushCounters | migration/colo.c:572-584 | a live push never reaches do_checkpoint and leaves the checkpoint counters and the status alone |
| PrimaryLoopProps.BeforeCheckpointCounters | migration/colo.c:550-588 | a mismatch checkpoint counts proxy_discompare_count, a periodic one periodic_checkpoint_count, a shutdown checkpoint neither |
| PrimaryLoopProps.StepLeavesEarly | migration/colo.c:540-563 | a failover request, or a compare error with no shutdown pending, leaves for the out label with nothing sent and nothing counted |
| PrimaryLoopProps.MismatchSpacing | migration/colo.c:549-563 | a compare mismatch sleeps until CHECKPOINT_MIN_PERIOD has passed since the last checkpoint, counts the mismatch and then checkpoints |
| PrimaryLoopProps.QuietIteration | migration/colo.c:570-588 | within the period the loop pushes live RAM exactly when the threshold is reached, otherwise sleeps IDLE_SLEEP ms, and takes no checkpoint; a push carries on, with the live pages counted, exactly when RAM_LIVE_MIGRATE is accepted and the RAM save succeeds, and otherwise leaves for out with a live-migration error |
| PrimaryLoopProps.LoopKeepsStatus | migration/colo.c:537-597 | no iteration changes the migration status; in this model, where no other thread changes it, the loop ends only when an iteration leaves it, and the counters only grow |
| PrimaryLoopProps.LoopEndsOnStatusChange | migration/colo.c:537 | once the status is not COLO, whoever changed it, the loop leaves for the out label at its next check and runs no iteration |
| PrimaryLoopProps.MismatchMeetsShutdown | migration/colo.c:339-428 | a mismatch checkpoint whose transaction completes, with the guest's shutdown request arriving only after the loop head, ends in the shutdown branch: GUEST_SHUTDOWN after the checkpoint frames, the VM not resumed, checkpoint_count unchanged |
| PrimaryLoopProps.PrimaryStartupMeaning | migration/colo.c:492-535 | start-up reaches the loop exactly when the proxy, the control channel and the RAM preparation succeed, READY is read, the buffer is allocated and block replication starts; a word other than READY is a desync exit; start-up sends nothing, and once started only READY is consumed, the start calls logged and the VM running |
| PrimaryLoopProps.OutRaisesFailover | migration/colo.c:599-615 | whenever colo_thread reaches its out label the failover request is raised; in this model, where no other thread changes the status, a thread that starts in COLO never leaves for a status change |
| Secondary.DoHandleCmd | migration/colo.c:668-704 | colo_wait_handle_cmd's result and new state are the HandleCmd function of the old state |
| Secondary.DoIteration | migration/colo.c:782-885 | one loop iteration is the Iteration function of the old state |
| Secondary.DoPause | migration/colo.c:794-813 | the failover point, VM stop, SUSPENDED and proxy checkpoint are the Pause stretch |
| Secondary.DoReceive | migration/colo.c:815-825 | reading SEND and loading the RAM is the Receive stretch |
| Secondary.DoFill | migration/colo.c:827-842 | reading the size, filling the buffer and sending RECEIVED is the Fill stretch |
| Secondary.DoLoad | migration/colo.c:846-863 | opening the buffer, the reset and the bracketed device-state load is the Load stretch |
| Secondary.DoResume | migration/colo.c:865-884 | the block checkpoint, LOADED and resuming the VM is the Resume stretch |
| Secondary.RunSecondaryLoop | migration/colo.c:782-885 | the loop is the SecondaryLoop function over the modelled rounds |
| Secondary.DoSecondaryStartup | migration/colo.c:735-780 | start-up is the SecondaryStartup function of the old state |
| Secondary.DoOutPath | migration/colo.c:887-917 | the out label is the OutPath function of the old state |
| Secondary.RunIncoming | migration/colo.c:718-937 | colo_process_incoming_checkpoints up to its exit or failover wait is ProcessIncoming |
| SecondaryProps.HandleCmdDispatch | migration/colo.c:668-704 | a checkpoint is requested exactly on NEW, the shutdown spin exactly on GUEST_SHUTDOWN, RAM_LIVE_MIGRATE returns the RAM load's result, and anything else returns -1 |
| SecondaryProps.HandleCmdFrames | migration/colo.c:668-704 | the dispatcher writes nothing, leaves the buffers alone and consumes only the word it read |
| SecondaryProps.GuestShutdownStops | migration/colo.c:683-696 | GUEST_SHUTDOWN stops the VM, stops replication on every eligible backend and requests the shutdown |
| SecondaryProps.CheckpointAtFrames | migration/colo.c:815-837 | a checkpoint is waiting exactly when the input holds NEW, SEND, a size and that many bytes, as a transaction writes them |
| SecondaryProps.PauseOngoing | migration/colo.c:794-813 | Pause carries on exactly when no failover is requested, SUSPENDED can be sent and the proxy checkpoint succeeds |
| SecondaryProps.ReceiveOngoing | migration/colo.c:815-825 | Receive carries on exactly on SEND with the RAM loaded; any other word is a desync |
| SecondaryProps.FillOngoing | migration/colo.c:827-842 | Fill carries on exactly when the announced bytes arrive and RECEIVED can be sent; then the buffer holds them |
| SecondaryProps.LoadBracket | migration/colo.c:846-863 | once the buffer opens, the reset and vmstate_loading set then cleared are logged whatever the load's outcome, and the state is applied exactly when the load succeeds |
| SecondaryProps.ResumeOutcome | migration/colo.c:865-884 | the iteration carries on exactly when no block checkpoint fails and LOADED can be sent; then the VM runs |
| SecondaryProps.IterationCheckpoints | migration/colo.c:782-885 | an iteration that finds a checkpoint waiting, with every collaborator succeeding, replies SUSPENDED, RECEIVED, LOADED, applies the bytes received and carries on |
| SecondaryProps.IterationCarriesOn | migration/colo.c:782-885 | the loop carries on exactly after a whole checkpoint or a live RAM round whose load did not fail |
| SecondaryProps.ContinuingCheckpointAccepts | migration/colo.c:782-885 | only an iteration in which every step succeeded carries on after NEW |
| SecondaryProps.IterationRepliesInOrder | migration/colo.c:782-885 | an iteration replies a prefix of SUSPENDED, RECEIVED, LOADED and nothing after its first failing step |
| SecondaryProps.IterationClearsLoading | migration/colo.c:852-863 | an iteration never leaves vmstate_loading set |
| SecondaryProps.LoopClearsLoading | migration/colo.c:782-885 | however the loop ends, vmstate_loading is clear if it was clear on entry, and the replies only grow |
| SecondaryProps.StartupMeaning | migration/colo.c:735-780 | start-up succeeds exactly when every collaborator does and READY can be sent; then READY is the only frame sent and the VM runs |
| SecondaryProps.OutPathMeaning | migration/colo.c:887-917 | the secondary exits only when neither look finds a failover request, after the grace sleep and with the proxy destroyed; otherwise it waits for the failover |
| SecondaryProps.IncomingEnds | migration/colo.c:718-937 | the incoming thread never exits with a failover requested, never sets vmstate_loading when it was clear, and goes to its out label exactly when start-up fails or an iteration leaves the loop |
| Failover.SetState | migration/colo.c:220-242 | the status becomes the target exactly when it was the expected one or already the target, and is otherwise unchanged |
| Failover.SlaveDoFailover | migration/colo.c:187-218 | slave_do_failover's result and new state are SlaveFailover of the old state |
| Failover.MasterDoFailover | migration/colo.c:220-242 | master_do_failover's new state is MasterFailover of the old state |
| Failover.DoColoFailover | migration/colo.c:244-259 | colo_do_failover's result and new state are ColoFailover of the old state |
| Failover.FailoverCompletes | migration/colo.c:187-259 | a failover completes and sets failover_completed unless it is the secondary's with a load in progress, where it has only stopped the VM |
| Failover.MasterMarksCompleted | migration/colo.c:220-259 | the primary's failover marks the migration COMPLETED exactly when it was in COLO, logs the proxy destroy and failover stop, and leaves the VM running |
| Failover.SlaveTakesOver | migration/colo.c:187-218 | the secondary's failover logs proxy failover, proxy destroy and the stop in order, resumes the incoming coroutine if there is one, forces autostart and keeps the status |
| Failover.FailoverStopsReplication | migration/colo.c:154-177 | a failover stops replication for failover on eligible backends in order, on all of them when none fails, none past the first failure |
| Protocol.CheckpointRoundTrip | migration/colo.c:309-453 | when a secondary reads the frames a successful transaction wrote, it applies exactly the device state the primary saved and replies exactly the acknowledgements the primary consumed |
| Protocol.FailoverNeverHeldAfterIterations | migration/colo.c:187-259 | a failover that arrives after the secondary's start-up, iterations and out label always completes |
| ColoNic.NatString | net/colo-nic.c:42-43 | the decimal form of an index is a non-empty string of digits |
| ColoNic.FirstWith | net/colo-nic.c:124-147 | finds the first entry for a client; None exactly when there is none |
| ColoNic.NicRegistry.LaunchColoScript | net/colo-nic.c:27-59 | launch_colo_script's result and launches are ColoScript's |
| ColoNic.NicRegistry.HandleOldNicConfigure | net/colo-nic.c:65-81 | handle_old_nic_configure's result and launches are OldConfigure's, registry unchanged |
| ColoNic.NicRegistry.ColoNicConfigure | net/colo-nic.c:85-122 | colo_nic_configure's result and launches are NicConfigure's, registry unchanged |
| ColoNic.NicRegistry.ConfigureOneNic | net/colo-nic.c:124-147 | configure_one_nic's result, registry and launches are ConfigureOne of the old registry |
| ColoNic.NicRegistry.ConfigureNics | net/colo-nic.c:149-164 | configure_nic's result, registry and launches are ConfigureNic of the old registry |
| ColoNic.NicRegistry.TeardownNics | net/colo-nic.c:166-173 | teardown_nic's registry and launches are TeardownFrom of the old registry |
| ColoNic.NicRegistry.AddNicDevice | net/colo-nic.c:175-197 | colo_add_nic_devices leaves the registry as AddNic of the old one and launches nothing |
| ColoNic.NicRegistry.RemoveNicDevices | net/colo-nic.c:199-210 | colo_remove_nic_devices leaves the registry and launches as RemoveFrom of the old registry |
| ColoNic.NicRegistry.ProxyInit | net/colo-nic.c:212-222 | colo_proxy_init brings every registered client up for its side, as ConfigureNic |
| ColoNic.NicRegistry.ProxyDestroy | net/colo-nic.c:224-227 | colo_proxy_destroy brings every registered client down, as TeardownFrom |
| NicProps.ConfigureOneEffect | net/colo-nic.c:124-147 | configure_one_nic is -1 without an entry; otherwise it changes only the entry's is_up, returns 0 exactly when the entry ends in the requested state, does nothing if it is already there, and bringing down never fails |
| NicProps.ConfigureOneKeepsClients | net/colo-nic.c:124-147 | configuring never changes which clients are registered or their callbacks |
| NicProps.ConfigureOneIdempotent | net/colo-nic.c:124-147 | repeating a successful configure_one_nic changes nothing and launches nothing |
| NicProps.ConfigureFromEffect | net/colo-nic.c:149-164 | with distinct clients, configure_nic either brings every remaining entry up or fails at one entry that was down, with those before it up and those after it untouched |
| NicProps.ConfigureNicAllUp | net/colo-nic.c:149-164 | configure_nic on an empty registry is -1; with distinct clients, a result of 0 means every entry is up |
| NicProps.ConfigureNicFailFast | net/colo-nic.c:149-164 | with distinct clients, a failing configure_nic names the entry it stopped at; entries after it are untouched |
| NicProps.TeardownFromEffect | net/colo-nic.c:124-173 | in a registry where only the first entry for a client can be up, teardown_nic's walk returns 0 and brings down every remaining entry that has a callback, leaving the rest as they were |
| NicProps.TeardownAllDown | net/colo-nic.c:124-173 | in a registry where only the first entry for a client can be up (FirstOnlyUp, which every registry operation keeps), after teardown_nic no entry with a callback is up and nothing else changed |
| NicProps.TeardownMissesUpDuplicate | net/colo-nic.c:124-173 | without that invariant the promise fails: a second entry for a client that is up is left up, since configure_one_nic only reaches the first |
| NicProps.DistinctFirstOnlyUp | net/colo-nic.c:124-147 | a registry without duplicate clients has only first entries, so it keeps the invariant |
| NicProps.ConfigureOneKeepsFirstOnlyUp | net/colo-nic.c:124-147 | configure_one_nic keeps the invariant: it changes only the first entry for the client |
| NicProps.ConfigureFromKeepsFirstOnlyUp | net/colo-nic.c:149-164 | configure_nic keeps the invariant, however far it gets |
| NicProps.TeardownFromKeepsFirstOnlyUp | net/colo-nic.c:166-173 | teardown_nic keeps the invariant |
| NicProps.AddNicKeepsFirstOnlyUp | net/colo-nic.c:175-197 | colo_add_nic_devices keeps the invariant: the entry it appends is down |
| NicProps.WithoutKeepsFirstOnlyUp | net/colo-nic.c:199-210 | dropping every entry for a client keeps the invariant |
| NicProps.RemoveKeepsFirstOnlyUp | net/colo-nic.c:199-210 | colo_remove_nic_devices keeps the invariant |
| NicProps.InitThenDestroy | net/colo-nic.c:149-173 | with distinct clients that start down, colo_proxy_init followed by colo_proxy_destroy gives back the registry it started from |
| NicProps.AddNicEffect | net/colo-nic.c:175-197 | a client is appended, down and with the callback, exactly when it is neither a hub port nor a guest NIC nor peered with a registered client; otherwise nothing changes |
| NicProps.Without | net/colo-nic.c:199-210 | the registry with every entry for a client dropped is no longer than the original and keeps exactly the other clients' entries, in order |
| NicProps.WithoutMembers | net/colo-nic.c:199-210 | an entry survives removal exactly when it was registered for another client |
| NicProps.RemoveFromEffect | net/colo-nic.c:199-210 | colo_remove_nic_devices returns 0 and leaves exactly the entries of other clients, in order |
| NicProps.RemoveKeepsOthers | net/colo-nic.c:199-210 | after removal an entry is registered exactly when it was before and belongs to another client |
| NicProps.AddThenRemove | net/colo-nic.c:175-210 | adding an unregistered client and then removing it gives back the registry and launches nothing |
| NicProps.NatStringParses | net/colo-nic.c:42-43 | the decimal index passed to the script reads back as the index |
| NicProps.ColoScriptArgvShape | net/colo-nic.c:36-44 | the script gets six arguments: script, side, install/uninstall, nic name, interface name and the index, which reads back |
| NicProps.ColoScriptChecksArgs | net/colo-nic.c:46-58 | nothing is launched exactly when the script, nic name or interface name is empty; otherwise one launch, whose success is the result |
| NicProps.NicConfigureSequence | net/colo-nic.c:85-122 | the primary runs only the COLO script; the secondary cleans up with ifdown before the script going up and restores with ifup after it going down; without its scripts or on an unprotected side it is -1 |

## Left out

- I/O and RAM are not modelled byte by byte. The RAM stream, the device-state
  serialisation, `qemu_savevm_state_pending` and the RAM loaders appear only as the
  outcomes they report. The RAM frames are not part of the modelled stream.
- Threads and waiting are not modelled. The places where the source waits forever
  become outcomes instead:
  - the secondary's wait for failover_completed at its out label (colo.c:911-915) is
    `AwaitTakeover`;
  - the `while (true)` after a guest shutdown is `ShutdownSpin`;
  - the secondary's wait while vmstate_loading is set is `WaitingForLoad`.
- The primary's wait for failover_completed (colo.c:612-615) and the rest of
  colo_thread after it are not modelled: `ColoThread` ends at the out label with the
  failover request raised.
- Concurrency between the two threads is not modelled.
- The failover bottom half is not interleaved with colo_thread's loop. In the source,
  master_do_failover can set the status from COLO to COMPLETED (colo.c:231-232) while
  the loop runs, and the loop then leaves at its check (colo.c:537).
  `LoopEndsOnStatusChange` states that check for a status changed by anyone, but no
  tick carries such a change.
- PrimaryLoopProps.LoopKeepsStatus: "the loop ends only when an iteration leaves it"
  holds only because no other thread changes the status in this model. In the source a
  concurrent master_do_failover ends the loop at its status check.
- PrimaryLoopProps.OutRaisesFailover: "a thread that starts in COLO never leaves for a
  status change" holds only because no other thread changes the status in this model;
  its first clause, that the out label raises the failover request, holds for any exit.
- A guest shutdown request is seen at two reads of colo_shutdown_requested: at the loop
  head (`Tick.guestShutdown`) and just before the transaction stops the VM
  (`TxnEnv.shutdownAtStop`, colo.c:342). A request that comes later in the transaction
  is picked up by the next loop head.
- Failover.DoColoFailover: a secondary failover held by a load in progress is returned
  as `WaitingForLoad` without setting failover_completed. In the source,
  slave_do_failover spins until the load ends.
- The `qemu_mutex_lock_iothread` and `qemu_mutex_unlock_iothread` pairs are not
  modelled. This includes the unlock missing on the paths that jump out while the lock
  is held (colo.c:384-386, and the secondary's blk_start_replication failure).
- The clock is a parameter. Each tick of the primary's loop carries the reading at the
  loop head (`nowMs`) and the one after a successful checkpoint (`doneMs`), and each
  transaction's `TxnEnv` the readings around the VM stop (`startMs`, `endMs`).
- The loops run over a finite sequence of ticks or rounds. The iterations not modelled
  are the outcome `Horizon` in the primary's loop and `StillRunning` in the
  secondary's.
- Launching a script is an oracle on its argument vector. Forking, waiting and exit
  statuses are not modelled.
- The registry is a sequence of values, so an entry has no identity beyond its
  position. Aliasing of `nic_device` structures is not modelled.
- Fixed-size character arrays and their truncation are not modelled.
- The guard `!cns && index <= 0` in `colo_nic_configure` is not modelled: `cns` is
  never null there.
- `qemu_ifup` and `qemu_ifdown` are strings. The source tests only `qemu_ifdown` for
  NULL (colo-nic.c:101) and reads `qemu_ifup[0]` directly, so `qemu_ifup` is assumed
  non-NULL; an empty string stands for an unset `qemu_ifdown`. Their declarations are
  not part of this model.
- `get_colo_mode()` and `getpid()` in `colo_remove_nic_devices` are parameters.
- Entries appended by `colo_add_nic_devices` always have the callback. The registry
  type also allows entries without it, and `configure_one_nic` handles those as the
  source does.
- NicProps.ConfigureFromEffect: the whole-registry properties of configure_nic are
  stated for registries without duplicate clients. With a duplicate, every visit acts
  on the first entry for the client: a later visit finds it already up and launches
  nothing (or the walk has already stopped on -1), so later entries for the client stay
  down.
  `ConfigureOneEffect` states that first-entry behaviour for any registry, and
  `ConfigureFromKeepsFirstOnlyUp` states that the walk keeps the invariant.
- NicProps.ConfigureNicAllUp: the all-up result is stated for registries without
  duplicate clients, for the same reason.
- NicProps.ConfigureNicFailFast: fail-fast is stated for registries without duplicate
  clients, for the same reason.
- NicProps.TeardownFromEffect and NicProps.TeardownAllDown are stated under the
  invariant FirstOnlyUp (only the first entry for a client can be up). Every registry
  operation keeps that invariant, and the empty registry has it. Without it,
  teardown_nic can leave a later entry up (`TeardownMissesUpDuplicate`).
- Error values: `qemu_file_get_error` returns the stored negative errno, and
  `colo_ctl_put` and the transaction pass it on (colo.c:269-271, 398-401). The model
  represents every such error by -1. Callers only test for a negative or non-zero
  value, so no branch changes.
- Fixed-width arithmetic is not modelled. The clock readings and `down_time`
  (`int64_t`), the statistics counters and `total_size` (`uint64_t`) are unbounded
  integers, so their wrap-around is not captured. The comparison of the `int` result
  of `qsb_fill_buffer` with the `uint64_t` `total_size` (colo.c:834) is modelled as a
  comparison of integers, without the conversion to unsigned.
- Several operations are not modelled:
  - `colo_flush_ram_cache`, and the RAM cache beyond its creation succeeding;
  - `colo_init_checkpointer` and `colo_start_checkpointer`, which only create the
    thread;
  - `loadvm_in_colo_state`;
  - `migrate_colo_enabled` and the capability checks;
  - `qmp_colo_set_checkpoint_period`.

  The checkpoint period is a parameter.
- A short `qsb_fill_buffer` read is a failure that leaves the buffer and the stream
  position as they were.
