/**
 * The primary side of migration/colo.c: one checkpoint transaction
 * (colo_do_checkpoint_transaction), the trigger decision and loop of
 * colo_thread, and its start-up.
 */
module Primary {
  import opened Wrappers
  import opened Wire
  import opened Channel
  import opened Block
  import opened ColoState

  /** What the collaborators of one transaction report, in the order it asks them. */
  datatype TxnEnv = TxnEnv(
    bufOpenOk: bool,                  // qemu_bufopen("w", colo_buffer) returned a file
    failoverAfterSuspend: bool,       // failover_request_is_set() once SUSPENDED arrived
    startMs: int,                     // clock before the VM is stopped
    shutdownAtStop: bool,             // the guest asked to shut down after the loop head read colo_shutdown_requested
    failoverAfterStop: bool,          // failover_request_is_set() once the VM is stopped
    proxyCheckpointOk: bool,          // colo_proxy_checkpoint(COLO_PRIMARY_MODE) >= 0
    checkpointOk: seq<bool>,          // bdrv_do_checkpoint per backend
    deviceState: Option<Snapshot>,    // qemu_save_device_state: the bytes it saves, or an error
    ramPages: Option<nat>,            // qemu_save_ram_state(s->file, true): pages sent, or an error
    endMs: int)                       // clock after the VM is resumed

  /** How a transaction ends: its return value, the exit(1) of a desync, or the shutdown spin. */
  datatype TxnOutcome = Returned(ret: int) | Exited(received: Word) | ShutdownSpin

  /** The frames of one complete transaction on the forward channel. */
  function TxnFrames(state: Snapshot): seq<Frame>
  {
    [Tag(New), Tag(Send), Ctl(|state|), Bytes(state)]
  }

  /** The statistics after a transaction whose VM was stopped for d ms. */
  function AccountDowntime(st: ColoStats, d: int): ColoStats
  {
    st.(totalDowntime := st.totalDowntime + d,
        maxDowntime := if d > st.maxDowntime then d else st.maxDowntime,
        minDowntime := if d < st.minDowntime then d else st.minDowntime)
  }

  /** Where a stretch of the transaction leaves it: still going, or ended with an outcome. */
  datatype Progress = Going(s: ProcState) | Ended(o: TxnOutcome, s: ProcState)

  /**
   * colo_do_checkpoint_transaction, as a function of the process state and of what
   * the collaborators report: each stretch between two sync points either ends the
   * transaction or hands the state on to the rest of it.
   */
  function Transaction(s: ProcState, env: TxnEnv, blk: seq<Backend>): (TxnOutcome, ProcState)
  {
    match Suspend(s, env)
    case Ended(o, s1) => (o, s1)
    case Going(s1) => FromStop(LatchShutdown(s1, env), env, blk)
  }

  /**
   * colo_shutdown_requested as the transaction reads it just before stopping the VM: a
   * request the guest made since the loop head read it is visible from here on.
   */
  function LatchShutdown(s: ProcState, env: TxnEnv): ProcState
  {
    s.(shutdownRequested := s.shutdownRequested || env.shutdownAtStop)
  }

  /** The rest of a transaction once SUSPENDED is in; the shutdown flag it carries is the one latched for Finish. */
  function FromStop(s: ProcState, env: TxnEnv, blk: seq<Backend>): (TxnOutcome, ProcState)
  {
    var latched := s.shutdownRequested;
    match StopAndCheckpoint(s, env, blk)
    case Ended(o, s1) => (o, s1)
    case Going(s1) => FromSave(s1, latched, env, blk)
  }

  /** The rest of a transaction once the checkpoints are taken. */
  function FromSave(s: ProcState, latched: bool, env: TxnEnv, blk: seq<Backend>): (TxnOutcome, ProcState)
  {
    match SaveState(s, env)
    case Ended(o, s1) => (o, s1)
    case Going(s1) => FromSend(s1, latched, env, blk)
  }

  /** The rest of a transaction once the state is saved. */
  function FromSend(s: ProcState, latched: bool, env: TxnEnv, blk: seq<Backend>): (TxnOutcome, ProcState)
  {
    match SendBuffer(s)
    case Ended(o, s1) => (o, s1)
    case Going(s1) => FromAwait(s1, latched, env, blk)
  }

  /** The rest of a transaction once the buffer is sent. */
  function FromAwait(s: ProcState, latched: bool, env: TxnEnv, blk: seq<Backend>): (TxnOutcome, ProcState)
  {
    match AwaitLoaded(s)
    case Ended(o, s1) => (o, s1)
    case Going(s1) => Finish(s1, latched, env, blk)
  }

  /** NEW out, SUSPENDED in, the buffer reset and opened, and the first failover safe point. */
  function Suspend(s: ProcState, env: TxnEnv): Progress
  {
    if s.capacity == 0 then Ended(Returned(-1), s)
    else
      var s1 := Push(s, Tag(New));
      var w := Incoming(s1);
      if w.None? then Ended(Returned(-1), s1)
      else if w.value != Code(Suspended) then Ended(Exited(w.value), Consume(s1))
      else
        var s2 := Consume(s1).(buffer := []);
        // a failed qemu_bufopen jumps out with ret still 0
        if !env.bufOpenOk then Ended(Returned(0), s2)
        else if env.failoverAfterSuspend then Ended(Returned(-1), s2)
        else Going(s2)
  }

  /** The VM stopped, the second failover safe point, and the proxy and block checkpoints. */
  function StopAndCheckpoint(s: ProcState, env: TxnEnv, blk: seq<Backend>): Progress
  {
    var s1 := s.(vmRunning := false);
    if env.failoverAfterStop then Ended(Returned(-1), s1)
    else if !env.proxyCheckpointOk then Ended(Returned(-1), s1)
    else
      var (failed, calls) := CheckpointOutcome(blk, env.checkpointOk);
      var s2 := s1.(log := s1.log + [Bdrv(calls)]);
      if failed then Ended(Returned(-1), s2) else Going(s2)
  }

  /** SEND out, the device state saved to the buffer, and the RAM sent. */
  function SaveState(s: ProcState, env: TxnEnv): Progress
  {
    if s.capacity == 0 then Ended(Returned(-1), s)
    else
      var s1 := Push(s, Tag(Send));
      if env.deviceState.None? then Ended(Returned(-1), s1)
      else
        var s2 := s1.(buffer := env.deviceState.value);
        if env.ramPages.None? then Ended(Returned(-1), s2)
        else Going(s2.(stats := s2.stats.(normalTransferPages := s2.stats.normalTransferPages + env.ramPages.value)))
  }

  /** The size of the buffer out, then its bytes. */
  function SendBuffer(s: ProcState): Progress
  {
    if s.capacity == 0 then Ended(Returned(-1), s)
    else
      var s1 := Push(s, Ctl(|s.buffer|));
      if s1.capacity == 0 then Ended(Returned(-1), s1)
      else Going(Push(s1, Bytes(s.buffer)))
  }

  /** RECEIVED in, then LOADED in. */
  function AwaitLoaded(s: ProcState): Progress
  {
    var w := Incoming(s);
    if w.None? then Ended(Returned(-1), s)
    else if w.value != Code(Received) then Ended(Exited(w.value), Consume(s))
    else
      var s1 := Consume(s);
      var w2 := Incoming(s1);
      if w2.None? then Ended(Returned(-1), s1)
      else if w2.value != Code(Loaded) then Ended(Exited(w2.value), Consume(s1))
      else Going(Consume(s1))
  }

  /** The shutdown branch, or the VM resumed and its downtime accounted. */
  function Finish(s: ProcState, latched: bool, env: TxnEnv, blk: seq<Backend>): (TxnOutcome, ProcState)
  {
    if latched then
      var (_, stopCalls) := StopOutcome(blk, false, [], false);
      var s1 := s.(log := s.log + [Bdrv(stopCalls)]);
      // the result of sending GUEST_SHUTDOWN is not checked
      var s2 := if s1.capacity > 0 then Push(s1, Tag(GuestShutdown)) else s1;
      (ShutdownSpin, s2.(shutdownRequested := false, log := s2.log + [ShutdownRequest]))
    else
      (Returned(0), s.(vmRunning := true, stats := AccountDowntime(s.stats, env.endMs - env.startMs)))
  }

  /** How a stretch method reports where it left the transaction. */
  function AsProgress(done: bool, o: TxnOutcome, s: ProcState): Progress
  {
    if done then Ended(o, s) else Going(s)
  }

  /** colo_do_checkpoint_transaction: one checkpoint, driven through the sync points. */
  method CheckpointTransaction(p: ColoProcess, env: TxnEnv, blk: seq<Backend>) returns (o: TxnOutcome)
    modifies p, p.out, p.inp
    ensures (o, p.State()) == Transaction(old(p.State()), env, blk)
  {
    var done;
    done, o := DoSuspend(p, env);
    if done {
      return;
    }
    ghost var s1 := p.State();
    ReadShutdown(p, env);
    var shutdown := p.shutdownRequested;
    done, o := DoStopAndCheckpoint(p, env, blk);
    if done {
      return;
    }
    ghost var s2 := p.State();
    done, o := DoSaveState(p, env);
    if done {
      return;
    }
    ghost var s3 := p.State();
    done, o := DoSendBuffer(p);
    if done {
      return;
    }
    ghost var s4 := p.State();
    done, o := DoAwaitLoaded(p);
    if done {
      return;
    }
    o := DoFinish(p, shutdown, env, blk);
  }

  /** The read of colo_shutdown_requested before the VM stops, which sees a request the guest made since the loop head. */
  method ReadShutdown(p: ColoProcess, env: TxnEnv)
    modifies p
    ensures p.State() == LatchShutdown(old(p.State()), env)
  {
    p.shutdownRequested := p.shutdownRequested || env.shutdownAtStop;
  }

  method DoSuspend(p: ColoProcess, env: TxnEnv) returns (done: bool, o: TxnOutcome)
    modifies p, p.out, p.inp
    ensures AsProgress(done, o, p.State()) == Suspend(old(p.State()), env)
  {
    o := Returned(0);
    var ret := p.out.CtlPut(Code(New));
    if ret < 0 {
      return true, Returned(ret);
    }
    var g := p.inp.CtlGet(Code(Suspended));
    if g == ReadFailed {
      return true, Returned(-1);
    }
    if g.Desync? {
      return true, Exited(g.received);
    }
    // reset the colo buffer and open it for write
    p.buffer := [];
    if !env.bufOpenOk {
      return true, Returned(ret);
    }
    if env.failoverAfterSuspend {
      return true, Returned(-1);
    }
    done := false;
  }

  method DoStopAndCheckpoint(p: ColoProcess, env: TxnEnv, blk: seq<Backend>) returns (done: bool, o: TxnOutcome)
    modifies p
    ensures AsProgress(done, o, p.State()) == StopAndCheckpoint(old(p.State()), env, blk)
  {
    done, o := true, Returned(-1);
    p.vmRunning := false;
    if env.failoverAfterStop {
      return;
    }
    if !env.proxyCheckpointOk {
      return;
    }
    var failed, calls := DoCheckpointAll(blk, env.checkpointOk);
    p.log := p.log + [Bdrv(calls)];
    if failed {
      return;
    }
    done := false;
  }

  method DoSaveState(p: ColoProcess, env: TxnEnv) returns (done: bool, o: TxnOutcome)
    modifies p, p.out
    ensures AsProgress(done, o, p.State()) == SaveState(old(p.State()), env)
  {
    done, o := true, Returned(-1);
    var ret := p.out.CtlPut(Code(Send));
    if ret < 0 {
      return true, Returned(ret);
    }
    if env.deviceState.None? {
      return;
    }
    p.buffer := env.deviceState.value;
    if env.ramPages.None? {
      return;
    }
    p.stats := p.stats.(normalTransferPages := p.stats.normalTransferPages + env.ramPages.value);
    done := false;
  }

  method DoSendBuffer(p: ColoProcess) returns (done: bool, o: TxnOutcome)
    modifies p.out
    ensures AsProgress(done, o, p.State()) == SendBuffer(old(p.State()))
  {
    // the size of the device state first, then its bytes
    var ret := p.out.CtlPut(|p.buffer|);
    if ret == 0 {
      ret := p.out.Put(Bytes(p.buffer));
    }
    return ret < 0, Returned(ret);
  }

  method DoAwaitLoaded(p: ColoProcess) returns (done: bool, o: TxnOutcome)
    modifies p.inp
    ensures AsProgress(done, o, p.State()) == AwaitLoaded(old(p.State()))
  {
    var g := p.inp.CtlGet(Code(Received));
    if g == ReadFailed {
      return true, Returned(-1);
    }
    if g.Desync? {
      return true, Exited(g.received);
    }
    g := p.inp.CtlGet(Code(Loaded));
    if g == ReadFailed {
      return true, Returned(-1);
    }
    if g.Desync? {
      return true, Exited(g.received);
    }
    return false, Returned(0);
  }

  method DoFinish(p: ColoProcess, shutdown: bool, env: TxnEnv, blk: seq<Backend>) returns (o: TxnOutcome)
    modifies p, p.out
    ensures (o, p.State()) == Finish(old(p.State()), shutdown, env, blk)
  {
    if shutdown {
      var _, stopCalls := StopReplication(blk, false, [], false);
      p.log := p.log + [Bdrv(stopCalls)];
      var _ := p.out.CtlPut(Code(GuestShutdown));
      p.shutdownRequested := false;
      p.log := p.log + [ShutdownRequest];
      return ShutdownSpin;
    }
    p.vmRunning := true;
    var downTime := env.endMs - env.startMs;
    var st := p.stats.(totalDowntime := p.stats.totalDowntime + downTime);
    if downTime > st.maxDowntime {
      st := st.(maxDowntime := downTime);
    }
    if downTime < st.minDowntime {
      st := st.(minDowntime := downTime);
    }
    assert st == AccountDowntime(p.stats, downTime);
    p.stats := st;
    return Returned(0);
  }

  // ---------------------------------------------------------------
  // colo_thread: the trigger decision and the checkpoint loop
  // ---------------------------------------------------------------

  /** colo_need_live_migrate_ram: live RAM is pushed when at least 10 MiB are pending. */
  function NeedLiveMigrateRam(pending: nat): (need: bool)
    ensures need <==> pending >= THRESHOLD_PENDING_SIZE
  {
    pending != 0 && pending >= THRESHOLD_PENDING_SIZE
  }

  /** Why a checkpoint is taken, and for a mismatch how long the thread first sleeps. */
  datatype CheckpointKind = ForShutdown | ForMismatch(sleepMs: nat) | Periodic

  /** What one iteration of the colo_thread loop does. */
  datatype Trigger = ToFailover | CompareFailed | Checkpoint(kind: CheckpointKind) | LivePush | Idle

  /**
   * The triggers of one iteration, in the order colo_thread checks them: a failover
   * request, a latched shutdown, the proxy's compare result, then the time since the
   * last checkpoint against the period.
   */
  function Decide(failover: bool, shutdown: bool, compare: int, interval: int, period: int, pending: nat): (t: Trigger)
    ensures t == ToFailover <==> failover
    ensures t == Checkpoint(ForShutdown) <==> !failover && shutdown
    ensures t == CompareFailed <==> !failover && !shutdown && compare < 0
    ensures t.Checkpoint? && t.kind.ForMismatch? <==> !failover && !shutdown && compare > 0
    ensures t.Checkpoint? && t.kind.ForMismatch? ==>
              t.kind.sleepMs == (if interval < CHECKPOINT_MIN_PERIOD then CHECKPOINT_MIN_PERIOD - interval else 0)
    ensures t == LivePush <==>
              !failover && !shutdown && compare == 0 && interval < period && pending >= THRESHOLD_PENDING_SIZE
    ensures t == Idle <==>
              !failover && !shutdown && compare == 0 && interval < period && pending < THRESHOLD_PENDING_SIZE
    ensures t == Checkpoint(Periodic) <==> !failover && !shutdown && compare == 0 && interval >= period
  {
    if failover then ToFailover
    else if shutdown then Checkpoint(ForShutdown)
    else if compare < 0 then CompareFailed
    else if compare > 0 then
      Checkpoint(ForMismatch(if interval < CHECKPOINT_MIN_PERIOD then CHECKPOINT_MIN_PERIOD - interval else 0))
    else if interval < period then (if NeedLiveMigrateRam(pending) then LivePush else Idle)
    else Checkpoint(Periodic)
  }

  /** What the collaborators report during one iteration of the loop. */
  datatype Tick = Tick(
    failover: bool,           // failover_request_is_set()
    guestShutdown: bool,      // a guest shutdown was requested since the previous iteration
    compare: int,             // colo_proxy_compare()
    nowMs: int,               // the clock read of this iteration
    pending: nat,             // qemu_savevm_state_pending
    livePages: Option<nat>,   // qemu_save_ram_state(s->file, false): pages sent, or an error
    txn: TxnEnv,              // the transaction, when one is taken
    doneMs: int)              // the clock read after a successful transaction

  /** Why colo_thread jumped to its out label. */
  datatype OutReason = StartError | NotColo | FailoverRequest | CompareError | LiveMigrateError | CheckpointError

  /** How the loop ends: at the out label, by a desync's exit(1), in the shutdown spin, or with no more iterations modelled. */
  datatype LoopExit = Out(reason: OutReason) | Exit(received: Word) | Shutdown | Horizon

  /** The state after the bookkeeping that precedes the transaction of a checkpoint of this kind. */
  function BeforeCheckpoint(s: ProcState, kind: CheckpointKind): ProcState
  {
    match kind
    case ForShutdown => s
    case ForMismatch(ms) =>
      var s1 := if ms > 0 then s.(log := s.log + [Slept(ms)]) else s;
      s1.(stats := s1.stats.(proxyDiscompareCount := s1.stats.proxyDiscompareCount + 1))
    case Periodic => s.(stats := s.stats.(periodicCheckpointCount := s.stats.periodicCheckpointCount + 1))
  }

  /** What an iteration does before any transaction: it ends the loop, carries on, or goes to do_checkpoint. */
  datatype Plan = Stop(exit: LoopExit, s: ProcState) | Next(s: ProcState) | TakeOne(s: ProcState)

  /**
   * One iteration of the loop up to the do_checkpoint label: the shutdown flag picks up
   * a new request, then the trigger decides; a live push or a sleep carries on, and a
   * checkpoint is first counted (and for a mismatch, spaced out).
   */
  function Prepare(s: ProcState, ct: int, period: int, t: Tick): Plan
  {
    var latched := s.shutdownRequested || t.guestShutdown;
    Follow(s.(shutdownRequested := latched), Decide(t.failover, latched, t.compare, t.nowMs - ct, period, t.pending), t)
  }

  /** What the loop does for the trigger it picked, from the state s0 whose shutdown flag is already latched. */
  function Follow(s0: ProcState, trigger: Trigger, t: Tick): Plan
  {
    match trigger
    case ToFailover => Stop(Out(FailoverRequest), s0)
    case CompareFailed => Stop(Out(CompareError), s0)
    case Idle => Next(s0.(log := s0.log + [Slept(IDLE_SLEEP)]))
    case LivePush => LivePushStep(s0, t)
    case Checkpoint(kind) => TakeOne(BeforeCheckpoint(s0, kind))
  }

  /** RAM_LIVE_MIGRATE out, then a round of dirty RAM pages sent without stopping the VM. */
  function LivePushStep(s: ProcState, t: Tick): Plan
  {
    if s.capacity == 0 then Stop(Out(LiveMigrateError), s)
    else
      var s1 := Push(s, Tag(RamLiveMigrate));
      if t.livePages.None? then Stop(Out(LiveMigrateError), s1)
      else Next(s1.(stats := s1.stats.(liveTransferPages := s1.stats.liveTransferPages + t.livePages.value)))
  }

  /**
   * One iteration of the loop from the checkpoint time ct: the exit it takes, if any,
   * the new state and the new checkpoint time.
   */
  function Step(s: ProcState, ct: int, period: int, t: Tick, blk: seq<Backend>): (Option<LoopExit>, ProcState, int)
  {
    match Prepare(s, ct, period, t)
    case Stop(e, s1) => (Some(e), s1, ct)
    case Next(s1) => (None, s1, ct)
    case TakeOne(s1) => TakeCheckpoint(s1, ct, t, blk)
  }

  /** The do_checkpoint label: a transaction, and on success the new checkpoint time and count. */
  function TakeCheckpoint(s: ProcState, ct: int, t: Tick, blk: seq<Backend>): (Option<LoopExit>, ProcState, int)
  {
    var r := Transaction(s, t.txn, blk);
    AfterTransaction(r.0, r.1, ct, t)
  }

  /** What the loop does with a transaction's outcome o and the state s1 it left. */
  function AfterTransaction(o: TxnOutcome, s1: ProcState, ct: int, t: Tick): (Option<LoopExit>, ProcState, int)
  {
    match o
    case Returned(r) =>
      if r != 0 then (Some(Out(CheckpointError)), s1, ct)
      else (None, s1.(stats := s1.stats.(checkpointCount := s1.stats.checkpointCount + 1)), t.doneMs)
    case Exited(w) => (Some(Exit(w)), s1, ct)
    case ShutdownSpin => (Some(Shutdown), s1, ct)
  }

  /** The loop `while (s->state == MIGRATION_STATUS_COLO)` over the iterations modelled by ticks. */
  function Loop(s: ProcState, ct: int, period: int, ticks: seq<Tick>, blk: seq<Backend>): (LoopExit, ProcState, int)
    decreases |ticks|
  {
    if s.status != Colo then (Out(NotColo), s, ct)
    else if |ticks| == 0 then (Horizon, s, ct)
    else
      var (e, s1, ct1) := Step(s, ct, period, ticks[0], blk);
      if e.Some? then (e.value, s1, ct1) else Loop(s1, ct1, period, ticks[1..], blk)
  }

  method DoStep(p: ColoProcess, ct: int, period: int, t: Tick, blk: seq<Backend>) returns (e: Option<LoopExit>, ct': int)
    modifies p, p.out, p.inp
    ensures (e, p.State(), ct') == Step(old(p.State()), ct, period, t, blk)
  {
    var plan := DoPrepare(p, ct, period, t);
    match plan
    case Stop(x, _) =>
      return Some(x), ct;
    case Next(_) =>
      return None, ct;
    case TakeOne(_) =>
      e, ct' := DoTakeCheckpoint(p, ct, t, blk);
  }

  /** The iteration up to do_checkpoint; the plan's state is the process's new state. */
  method DoPrepare(p: ColoProcess, ct: int, period: int, t: Tick) returns (plan: Plan)
    modifies p, p.out
    ensures plan == Prepare(old(p.State()), ct, period, t) && plan.s == p.State()
  {
    p.shutdownRequested := p.shutdownRequested || t.guestShutdown;
    var trigger := Decide(t.failover, p.shutdownRequested, t.compare, t.nowMs - ct, period, t.pending);
    plan := DoFollow(p, trigger, t);
  }

  /** The branch of the iteration the trigger selects; the plan's state is the process's new state. */
  method DoFollow(p: ColoProcess, trigger: Trigger, t: Tick) returns (plan: Plan)
    modifies p, p.out
    ensures plan == Follow(old(p.State()), trigger, t) && plan.s == p.State()
  {
    match trigger
    case ToFailover =>
      return Stop(Out(FailoverRequest), p.State());
    case CompareFailed =>
      return Stop(Out(CompareError), p.State());
    case Idle =>
      p.log := p.log + [Slept(IDLE_SLEEP)];
      return Next(p.State());
    case LivePush =>
      plan := DoLivePush(p, t);
    case Checkpoint(kind) =>
      DoBeforeCheckpoint(p, kind);
      return TakeOne(p.State());
  }

  method DoLivePush(p: ColoProcess, t: Tick) returns (plan: Plan)
    modifies p, p.out
    ensures plan == LivePushStep(old(p.State()), t) && plan.s == p.State()
  {
    var ret := p.out.CtlPut(Code(RamLiveMigrate));
    if ret < 0 || t.livePages.None? {
      return Stop(Out(LiveMigrateError), p.State());
    }
    p.stats := p.stats.(liveTransferPages := p.stats.liveTransferPages + t.livePages.value);
    return Next(p.State());
  }

  method DoBeforeCheckpoint(p: ColoProcess, kind: CheckpointKind)
    modifies p
    ensures p.State() == BeforeCheckpoint(old(p.State()), kind)
  {
    match kind {
      case ForShutdown =>
      case ForMismatch(ms) =>
        // limit the time between two checkpoints
        if ms > 0 {
          p.log := p.log + [Slept(ms)];
        }
        p.stats := p.stats.(proxyDiscompareCount := p.stats.proxyDiscompareCount + 1);
      case Periodic =>
        p.stats := p.stats.(periodicCheckpointCount := p.stats.periodicCheckpointCount + 1);
    }
  }

  method DoTakeCheckpoint(p: ColoProcess, ct: int, t: Tick, blk: seq<Backend>) returns (e: Option<LoopExit>, ct': int)
    modifies p, p.out, p.inp
    ensures (e, p.State(), ct') == TakeCheckpoint(old(p.State()), ct, t, blk)
  {
    var o := CheckpointTransaction(p, t.txn, blk);
    e, ct' := CountCheckpoint(p, o, ct, t);
  }

  /** The loop's reaction to a transaction's outcome: leave the loop, or count the checkpoint and renew its time. */
  method CountCheckpoint(p: ColoProcess, o: TxnOutcome, ct: int, t: Tick) returns (e: Option<LoopExit>, ct': int)
    modifies p
    ensures (e, p.State(), ct') == AfterTransaction(o, old(p.State()), ct, t)
  {
    if o != Returned(0) {
      e := match o
        case Returned(_) => Some(Out(CheckpointError))
        case Exited(w) => Some(Exit(w))
        case ShutdownSpin => Some(Shutdown);
      return e, ct;
    }
    p.stats := p.stats.(checkpointCount := p.stats.checkpointCount + 1);
    return None, t.doneMs;
  }

  /** The checkpoint loop of colo_thread, from checkpoint time ct0. */
  method RunLoop(p: ColoProcess, ct0: int, period: int, ticks: seq<Tick>, blk: seq<Backend>) returns (e: LoopExit, ct: int)
    modifies p, p.out, p.inp
    ensures (e, p.State(), ct) == Loop(old(p.State()), ct0, period, ticks, blk)
  {
    ct := ct0;
    var i := 0;
    while i < |ticks| && p.status == Colo
      invariant 0 <= i <= |ticks|
      invariant Loop(p.State(), ct, period, ticks[i..], blk) == Loop(old(p.State()), ct0, period, ticks, blk)
      decreases |ticks| - i
    {
      assert ticks[i..][0] == ticks[i] && ticks[i..][1..] == ticks[i + 1..];
      var stop, ct1 := DoStep(p, ct, period, ticks[i], blk);
      if stop.Some? {
        return stop.value, ct;
      }
      ct := ct1;
      i := i + 1;
    }
    e := if p.status != Colo then Out(NotColo) else Horizon;
  }

  // ---------------------------------------------------------------
  // colo_thread: start-up, the loop, and the out label
  // ---------------------------------------------------------------

  /** What the collaborators report while colo_thread starts. */
  datatype StartEnv = StartEnv(
    proxyInitOk: bool,        // colo_proxy_init(COLO_PRIMARY_MODE) == 0
    controlOpenOk: bool,      // qemu_fopen_socket of the control channel
    ramPrepareOk: bool,       // ram_prepare_before_save
    bufferAllocOk: bool,      // qsb_create of colo_buffer
    startOk: seq<bool>,       // bdrv_start_replication per backend
    startMs: int)             // the clock when the thread starts: the first checkpoint time

  /** How the start-up of either side ends. */
  datatype StartResult = Started | StartFailed | StartExited(received: Word)

  /** colo_thread up to its loop: proxy, control channel, RAM, READY in, buffer, block replication, VM started. */
  function PrimaryStartup(s: ProcState, env: StartEnv, blk: seq<Backend>): (StartResult, ProcState)
  {
    if !env.proxyInitOk || !env.controlOpenOk || !env.ramPrepareOk then (StartFailed, s)
    else
      var w := Incoming(s);
      if w.None? then (StartFailed, s)
      else if w.value != Code(Ready) then (StartExited(w.value), Consume(s))
      else
        var s1 := Consume(s);
        if !env.bufferAllocOk then (StartFailed, s1)
        else
          var (failed, calls) := StartOutcome(blk, true, env.startOk);
          var s2 := s1.(log := s1.log + [Bdrv(calls)]);
          if failed then (StartFailed, s2) else (Started, s2.(vmRunning := true))
  }

  /**
   * colo_thread up to the point where it waits for the failover to complete: start-up,
   * the loop, and at the out label the failover request raised if it was not already.
   */
  function ColoThread(s: ProcState, env: StartEnv, period: int, ticks: seq<Tick>, blk: seq<Backend>): (LoopExit, ProcState)
  {
    var (r, s1) := PrimaryStartup(s, env, blk);
    match r
    case StartExited(w) => (Exit(w), s1)
    case StartFailed => (Out(StartError), s1.(failoverRequested := true))
    case Started =>
      var (e, s2, _) := Loop(s1, env.startMs, period, ticks, blk);
      if e.Out? then (e, s2.(failoverRequested := true)) else (e, s2)
  }

  method DoPrimaryStartup(p: ColoProcess, env: StartEnv, blk: seq<Backend>) returns (r: StartResult)
    modifies p, p.inp
    ensures (r, p.State()) == PrimaryStartup(old(p.State()), env, blk)
  {
    if !env.proxyInitOk || !env.controlOpenOk || !env.ramPrepareOk {
      return StartFailed;
    }
    // wait for the secondary to finish loading and enter COLO
    var g := p.inp.CtlGet(Code(Ready));
    if g == ReadFailed {
      return StartFailed;
    }
    if g.Desync? {
      return StartExited(g.received);
    }
    if !env.bufferAllocOk {
      return StartFailed;
    }
    var failed, calls := StartReplication(blk, true, env.startOk);
    p.log := p.log + [Bdrv(calls)];
    if failed {
      return StartFailed;
    }
    p.vmRunning := true;
    return Started;
  }

  method RunColoThread(p: ColoProcess, env: StartEnv, period: int, ticks: seq<Tick>, blk: seq<Backend>) returns (e: LoopExit)
    modifies p, p.out, p.inp
    ensures (e, p.State()) == ColoThread(old(p.State()), env, period, ticks, blk)
  {
    var r := DoPrimaryStartup(p, env, blk);
    if r.StartExited? {
      return Exit(r.received);
    }
    if r == StartFailed {
      e := Out(StartError);
    } else {
      var ct;
      e, ct := RunLoop(p, env.startMs, period, ticks, blk);
    }
    if e.Out? {
      // the master takes over from the checkpoint channel
      p.failoverRequested := true;
    }
  }
}
