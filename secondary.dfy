/**
 * The secondary side of migration/colo.c: the command dispatcher
 * (colo_wait_handle_cmd) and colo_process_incoming_checkpoints, its start-up,
 * its checkpoint loop and its out label. The secondary writes to the primary
 * through its control file (the process's outgoing file) and reads the
 * primary's frames from the migration stream (its incoming file).
 */
module Secondary {
  import opened Wrappers
  import opened Wire
  import opened Channel
  import opened Block
  import opened ColoState

  /** What colo_wait_handle_cmd reports: its return value and checkpoint_request, or the spin after a guest shutdown. */
  datatype CmdResult = Handled(ret: int, request: bool) | GuestShutdownSpin

  /**
   * colo_wait_handle_cmd: NEW asks for a checkpoint, GUEST_SHUTDOWN stops the VM and
   * the block replication and requests the shutdown, RAM_LIVE_MIGRATE loads a round of
   * live RAM (whose result, ramLoadRet, is returned), and a read error or any other
   * word returns -1.
   */
  function HandleCmd(s: ProcState, ramLoadRet: int, blk: seq<Backend>): (CmdResult, ProcState)
  {
    var w := Incoming(s);
    if w.None? then (Handled(-1, false), s)
    else
      var s1 := Consume(s);
      if w.value == Code(New) then (Handled(0, true), s1)
      else if w.value == Code(GuestShutdown) then
        var calls := StopOutcome(blk, false, [], false).1;
        (GuestShutdownSpin, s1.(vmRunning := false, log := s1.log + [Bdrv(calls), ShutdownRequest]))
      else if w.value == Code(RamLiveMigrate) then (Handled(ramLoadRet, false), s1)
      else (Handled(-1, false), s1)
  }

  /** What the collaborators report during one iteration of the secondary's loop, in the order it asks them. */
  datatype Round = Round(
    ramLoadRet: int,              // qemu_load_ram_state after RAM_LIVE_MIGRATE
    failover: bool,               // failover_request_is_set() after NEW
    proxyCheckpointOk: bool,      // colo_proxy_checkpoint(COLO_SECONDARY_MODE) >= 0
    ramLoadOk: bool,              // qemu_load_ram_state after SEND
    bufOpenOk: bool,              // qemu_bufopen("r", colo_buffer) returned a file
    loadOk: bool,                 // qemu_load_device_state(fb) >= 0
    checkpointOk: seq<bool>)      // bdrv_do_checkpoint per backend

  /** How an iteration leaves the loop: to the out label, by the exit(1) of a desync, or in the shutdown spin. */
  datatype IterEnd = ToOut | Desynced(received: Word) | ShutdownHalt

  /** Where a stretch of an iteration leaves it: still going, or leaving the loop. */
  datatype Stage = Ongoing(s: ProcState) | Stopped(e: IterEnd, s: ProcState)

  /**
   * One iteration of the `while (true)` loop: the command, and for a checkpoint request
   * the whole checkpoint. None means the loop carries on.
   */
  function Iteration(s: ProcState, r: Round, blk: seq<Backend>): (Option<IterEnd>, ProcState)
  {
    match HandleCmd(s, r.ramLoadRet, blk)
    case (GuestShutdownSpin, s1) => (Some(ShutdownHalt), s1)
    case (Handled(ret, request), s1) =>
      if ret < 0 then (Some(ToOut), s1)
      else if !request then (None, s1)
      else FromPause(s1, r, blk)
  }

  /** The checkpoint of an iteration once NEW is in. */
  function FromPause(s: ProcState, r: Round, blk: seq<Backend>): (Option<IterEnd>, ProcState)
  {
    match Pause(s, r)
    case Stopped(e, s1) => (Some(e), s1)
    case Ongoing(s1) => FromReceive(s1, r, blk)
  }

  /** The rest of the checkpoint once SUSPENDED is out. */
  function FromReceive(s: ProcState, r: Round, blk: seq<Backend>): (Option<IterEnd>, ProcState)
  {
    match Receive(s, r)
    case Stopped(e, s1) => (Some(e), s1)
    case Ongoing(s1) => FromFill(s1, r, blk)
  }

  /** The rest of the checkpoint once SEND and the RAM are in. */
  function FromFill(s: ProcState, r: Round, blk: seq<Backend>): (Option<IterEnd>, ProcState)
  {
    match Fill(s)
    case Stopped(e, s1) => (Some(e), s1)
    case Ongoing(s1) => FromLoad(s1, r, blk)
  }

  /** The rest of the checkpoint once the device state is buffered and RECEIVED is out. */
  function FromLoad(s: ProcState, r: Round, blk: seq<Backend>): (Option<IterEnd>, ProcState)
  {
    match Load(s, r)
    case Stopped(e, s1) => (Some(e), s1)
    case Ongoing(s1) => Resume(s1, r, blk)
  }

  /** The failover safe point, the VM stopped, SUSPENDED out, and the proxy checkpoint. */
  function Pause(s: ProcState, r: Round): Stage
  {
    if r.failover then Stopped(ToOut, s)
    else
      var s1 := s.(vmRunning := false);
      if s1.capacity == 0 then Stopped(ToOut, s1)
      else
        var s2 := Push(s1, Tag(Suspended));
        if !r.proxyCheckpointOk then Stopped(ToOut, s2) else Ongoing(s2)
  }

  /** SEND in, then the RAM of the checkpoint loaded. */
  function Receive(s: ProcState, r: Round): Stage
  {
    var w := Incoming(s);
    if w.None? then Stopped(ToOut, s)
    else if w.value != Code(Send) then Stopped(Desynced(w.value), Consume(s))
    else
      var s1 := Consume(s);
      if !r.ramLoadOk then Stopped(ToOut, s1) else Ongoing(s1)
  }

  /** The size of the device state in, exactly that many bytes into the colo buffer, and RECEIVED out. */
  function Fill(s: ProcState): Stage
  {
    var size := Incoming(s);
    if size.None? then Stopped(ToOut, s)
    else
      var s1 := Consume(s);
      if !Fits(s1, size.value) then Stopped(ToOut, s1)
      else
        var s2 := Filled(s1, size.value);
        if s2.capacity == 0 then Stopped(ToOut, s2) else Ongoing(Push(s2, Tag(Received)))
  }

  /**
   * The buffer opened for read, the silent reset, and the device state loaded with
   * vmstate_loading set around the load and cleared on both of its outcomes.
   */
  function Load(s: ProcState, r: Round): Stage
  {
    if !r.bufOpenOk then Stopped(ToOut, s)
    else
      var s1 := s.(vmstateLoading := true, log := s.log + [SystemReset, VmstateLoading(true)]);
      var s2 := s1.(vmstateLoading := false, log := s1.log + [VmstateLoading(false)]);
      if !r.loadOk then Stopped(ToOut, s2) else Ongoing(s2.(applied := s.buffer))
  }

  /** The disk buffer discarded (blk_do_checkpoint), LOADED out, and the VM resumed. */
  function Resume(s: ProcState, r: Round, blk: seq<Backend>): (Option<IterEnd>, ProcState)
  {
    var (failed, calls) := CheckpointOutcome(blk, r.checkpointOk);
    var s1 := s.(log := s.log + [Bdrv(calls)]);
    if failed || s1.capacity == 0 then (Some(ToOut), s1)
    else (None, Push(s1, Tag(Loaded)).(vmRunning := true))
  }

  /** The loop over the iterations modelled by rounds; None when they run out with the loop still going. */
  function SecondaryLoop(s: ProcState, rounds: seq<Round>, blk: seq<Backend>): (Option<IterEnd>, ProcState)
    decreases |rounds|
  {
    if |rounds| == 0 then (None, s)
    else
      var (e, s1) := Iteration(s, rounds[0], blk);
      if e.Some? then (e, s1) else SecondaryLoop(s1, rounds[1..], blk)
  }

  /** What the collaborators report while colo_process_incoming_checkpoints starts. */
  datatype IncomingEnv = IncomingEnv(
    proxyInitOk: bool,            // colo_proxy_init(COLO_SECONDARY_MODE) == 0
    controlOpenOk: bool,          // qemu_fopen_socket of the control channel
    ramCacheOk: bool,             // create_and_init_ram_cache
    bufferAllocOk: bool,          // qsb_create of colo_buffer
    startOk: seq<bool>,           // bdrv_start_replication per backend
    ramPrepareOk: bool)           // ram_prepare_before_load

  /** Start-up: proxy, control channel, RAM cache, buffer, block replication, RAM, READY out, VM started. */
  function SecondaryStartup(s: ProcState, env: IncomingEnv, blk: seq<Backend>): (bool, ProcState)
  {
    if !env.proxyInitOk || !env.controlOpenOk || !env.ramCacheOk || !env.bufferAllocOk then (false, s)
    else
      var (failed, calls) := StartOutcome(blk, false, env.startOk);
      var s1 := s.(log := s.log + [Bdrv(calls)]);
      if failed || !env.ramPrepareOk || s1.capacity == 0 then (false, s1)
      else (true, Push(s1, Tag(Ready)).(vmRunning := true))
  }

  /** How the incoming checkpoint thread ends, as far as it is modelled. */
  datatype Fate =
    | SvmExit                     // no failover requested: the proxy is destroyed and the process exits
    | AwaitTakeover               // a failover is requested: the thread waits for it to complete
    | DesyncExit(received: Word)  // the exit(1) of a control word mismatch
    | ShutdownSpinning            // the spin after a guest shutdown
    | StillRunning                // the modelled iterations ran out

  /**
   * The out label: without a failover request the thread sleeps for a grace period and
   * looks again; still without one it destroys the proxy and exits, otherwise it waits
   * for the failover to complete.
   */
  function OutPath(s: ProcState, failoverAtOut: bool, failoverAfterGrace: bool): (Fate, ProcState)
  {
    if failoverAtOut then (AwaitTakeover, s)
    else
      var s1 := s.(log := s.log + [Slept(GRACE_SLEEP)]);
      if failoverAfterGrace then (AwaitTakeover, s1)
      else (SvmExit, s1.(log := s1.log + [ProxyDestroy(SecondaryMode)]))
  }

  /** colo_process_incoming_checkpoints up to the point where it exits or waits for the failover. */
  function ProcessIncoming(s: ProcState, env: IncomingEnv, rounds: seq<Round>, failoverAtOut: bool,
                           failoverAfterGrace: bool, blk: seq<Backend>): (Fate, ProcState)
  {
    var (started, s1) := SecondaryStartup(s, env, blk);
    if !started then OutPath(s1, failoverAtOut, failoverAfterGrace)
    else
      var (e, s2) := SecondaryLoop(s1, rounds, blk);
      match e
      case None => (StillRunning, s2)
      case Some(ToOut) => OutPath(s2, failoverAtOut, failoverAfterGrace)
      case Some(Desynced(w)) => (DesyncExit(w), s2)
      case Some(ShutdownHalt) => (ShutdownSpinning, s2)
  }

  // ---------------------------------------------------------------
  // The thread, on the process it changes in place
  // ---------------------------------------------------------------

  /** How a stretch method reports where it left the iteration. */
  function AsStage(done: bool, e: IterEnd, s: ProcState): Stage
  {
    if done then Stopped(e, s) else Ongoing(s)
  }

  method DoHandleCmd(p: ColoProcess, ramLoadRet: int, blk: seq<Backend>) returns (c: CmdResult)
    modifies p, p.inp
    ensures (c, p.State()) == HandleCmd(old(p.State()), ramLoadRet, blk)
  {
    var ret, cmd := p.inp.CtlGetValue();
    if ret < 0 {
      return Handled(-1, false);
    }
    if cmd == Code(New) {
      return Handled(0, true);
    } else if cmd == Code(GuestShutdown) {
      p.vmRunning := false;
      var _, calls := StopReplication(blk, false, [], false);
      p.log := p.log + [Bdrv(calls), ShutdownRequest];
      return GuestShutdownSpin;
    } else if cmd == Code(RamLiveMigrate) {
      return Handled(ramLoadRet, false);
    }
    return Handled(-1, false);
  }

  method DoIteration(p: ColoProcess, r: Round, blk: seq<Backend>) returns (e: Option<IterEnd>)
    modifies p, p.out, p.inp
    ensures (e, p.State()) == Iteration(old(p.State()), r, blk)
  {
    var c := DoHandleCmd(p, r.ramLoadRet, blk);
    if c == GuestShutdownSpin {
      return Some(ShutdownHalt);
    }
    if c.ret < 0 {
      return Some(ToOut);
    }
    if !c.request {
      return None;
    }
    var done, x := DoPause(p, r);
    if done {
      return Some(x);
    }
    done, x := DoReceive(p, r);
    if done {
      return Some(x);
    }
    done, x := DoFill(p);
    if done {
      return Some(x);
    }
    done, x := DoLoad(p, r);
    if done {
      return Some(x);
    }
    e := DoResume(p, r, blk);
  }

  method DoPause(p: ColoProcess, r: Round) returns (done: bool, e: IterEnd)
    modifies p, p.out
    ensures AsStage(done, e, p.State()) == Pause(old(p.State()), r)
  {
    done, e := true, ToOut;
    if r.failover {
      return;
    }
    // suspend the guest
    p.vmRunning := false;
    var ret := p.out.CtlPut(Code(Suspended));
    if ret < 0 || !r.proxyCheckpointOk {
      return;
    }
    done := false;
  }

  method DoReceive(p: ColoProcess, r: Round) returns (done: bool, e: IterEnd)
    modifies p.inp
    ensures AsStage(done, e, p.State()) == Receive(old(p.State()), r)
  {
    done, e := true, ToOut;
    var g := p.inp.CtlGet(Code(Send));
    if g == ReadFailed {
      return;
    }
    if g.Desync? {
      return true, Desynced(g.received);
    }
    if !r.ramLoadOk {
      return;
    }
    done := false;
  }

  method DoFill(p: ColoProcess) returns (done: bool, e: IterEnd)
    modifies p, p.out, p.inp
    ensures AsStage(done, e, p.State()) == Fill(old(p.State()))
  {
    done, e := true, ToOut;
    // the size of the device state first
    var ret, totalSize := p.inp.CtlGetValue();
    if ret < 0 {
      return;
    }
    var ok, data := p.inp.FillBuffer(totalSize);
    if !ok {
      return;
    }
    p.buffer := data;
    ret := p.out.CtlPut(Code(Received));
    if ret < 0 {
      return;
    }
    done := false;
  }

  method DoLoad(p: ColoProcess, r: Round) returns (done: bool, e: IterEnd)
    modifies p
    ensures AsStage(done, e, p.State()) == Load(old(p.State()), r)
  {
    done, e := true, ToOut;
    if !r.bufOpenOk {
      return;
    }
    p.log := p.log + [SystemReset];
    p.vmstateLoading := true;
    p.log := p.log + [VmstateLoading(true)];
    if !r.loadOk {
      p.vmstateLoading := false;
      p.log := p.log + [VmstateLoading(false)];
      return;
    }
    p.applied := p.buffer;
    p.vmstateLoading := false;
    p.log := p.log + [VmstateLoading(false)];
    done := false;
  }

  method DoResume(p: ColoProcess, r: Round, blk: seq<Backend>) returns (e: Option<IterEnd>)
    modifies p, p.out
    ensures (e, p.State()) == Resume(old(p.State()), r, blk)
  {
    // discard the colo disk buffer
    var failed, calls := DoCheckpointAll(blk, r.checkpointOk);
    p.log := p.log + [Bdrv(calls)];
    if failed {
      return Some(ToOut);
    }
    var ret := p.out.CtlPut(Code(Loaded));
    if ret < 0 {
      return Some(ToOut);
    }
    // resume the guest
    p.vmRunning := true;
    return None;
  }

  /** The checkpoint loop of the incoming thread. */
  method RunSecondaryLoop(p: ColoProcess, rounds: seq<Round>, blk: seq<Backend>) returns (e: Option<IterEnd>)
    modifies p, p.out, p.inp
    ensures (e, p.State()) == SecondaryLoop(old(p.State()), rounds, blk)
  {
    var i := 0;
    while i < |rounds|
      invariant 0 <= i <= |rounds|
      invariant SecondaryLoop(p.State(), rounds[i..], blk) == SecondaryLoop(old(p.State()), rounds, blk)
      decreases |rounds| - i
    {
      assert rounds[i..][0] == rounds[i] && rounds[i..][1..] == rounds[i + 1..];
      e := DoIteration(p, rounds[i], blk);
      if e.Some? {
        return;
      }
      i := i + 1;
    }
    return None;
  }

  method DoSecondaryStartup(p: ColoProcess, env: IncomingEnv, blk: seq<Backend>) returns (started: bool)
    modifies p, p.out
    ensures (started, p.State()) == SecondaryStartup(old(p.State()), env, blk)
  {
    if !env.proxyInitOk || !env.controlOpenOk || !env.ramCacheOk || !env.bufferAllocOk {
      return false;
    }
    var failed, calls := StartReplication(blk, false, env.startOk);
    p.log := p.log + [Bdrv(calls)];
    if failed || !env.ramPrepareOk {
      return false;
    }
    var ret := p.out.CtlPut(Code(Ready));
    if ret < 0 {
      return false;
    }
    // in COLO mode the secondary runs too
    p.vmRunning := true;
    return true;
  }

  method DoOutPath(p: ColoProcess, failoverAtOut: bool, failoverAfterGrace: bool) returns (f: Fate)
    modifies p
    ensures (f, p.State()) == OutPath(old(p.State()), failoverAtOut, failoverAfterGrace)
  {
    if failoverAtOut {
      return AwaitTakeover;
    }
    p.log := p.log + [Slept(GRACE_SLEEP)];
    if failoverAfterGrace {
      return AwaitTakeover;
    }
    // the primary is taken to be alive: only the secondary goes
    p.log := p.log + [ProxyDestroy(SecondaryMode)];
    return SvmExit;
  }

  /** colo_process_incoming_checkpoints, up to its exit or its wait for the failover. */
  method RunIncoming(p: ColoProcess, env: IncomingEnv, rounds: seq<Round>, failoverAtOut: bool,
                     failoverAfterGrace: bool, blk: seq<Backend>) returns (f: Fate)
    modifies p, p.out, p.inp
    ensures (f, p.State()) == ProcessIncoming(old(p.State()), env, rounds, failoverAtOut, failoverAfterGrace, blk)
  {
    var started := DoSecondaryStartup(p, env, blk);
    if !started {
      f := DoOutPath(p, failoverAtOut, failoverAfterGrace);
      return;
    }
    var e := RunSecondaryLoop(p, rounds, blk);
    match e
    case None =>
      return StillRunning;
    case Some(ToOut) =>
      f := DoOutPath(p, failoverAtOut, failoverAfterGrace);
    case Some(Desynced(w)) =>
      return DesyncExit(w);
    case Some(ShutdownHalt) =>
      return ShutdownSpinning;
  }
}
