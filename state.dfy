/**
 * The state one QEMU process keeps for COLO: the MigrationState fields the
 * core touches, the globals of migration/colo.c, and its two QEMUFiles.
 * ColoProcess holds it in place; ProcState is its value, over which the
 * specification functions of the primary, secondary and failover are written.
 */
module ColoState {
  import opened Wrappers
  import opened Wire
  import opened Channel
  import opened Block

  datatype MigrationStatus = Active | Colo | Completed | Failed | Cancelled

  /** get_colo_mode(). */
  datatype ColoMode = Unprotected | PrimaryMode | SecondaryMode

  /** s->colo_state: the statistics ledger. */
  datatype ColoStats = ColoStats(
    checkpointCount: nat,
    periodicCheckpointCount: nat,
    proxyDiscompareCount: nat,
    normalTransferPages: nat,
    liveTransferPages: nat,
    totalDowntime: int,
    maxDowntime: int,
    minDowntime: int)

  /** Effects on collaborators outside the two files, in the order they happen. */
  datatype Event =
    | Bdrv(calls: seq<BdrvCall>)      // one block fan-out helper and the calls it made
    | SystemReset                     // qemu_system_reset(VMRESET_SILENT)
    | VmstateLoading(on: bool)        // vmstate_loading set (true) or cleared (false)
    | ShutdownRequest                 // qemu_system_shutdown_request_core()
    | ProxyDestroy(mode: ColoMode)    // colo_proxy_destroy
    | ProxyFailover                   // colo_proxy_failover
    | IncomingResumed                 // control handed back to the incoming migration coroutine
    | Slept(ms: nat)                  // g_usleep / usleep

  datatype ProcState = ProcState(
    sent: seq<Frame>,                 // frames written to the outgoing file
    capacity: nat,                    // frames the outgoing transport still accepts
    input: seq<Frame>,                // frames the peer wrote to the incoming file
    pos: nat,                         // how far the incoming file has been read
    status: MigrationStatus,          // s->state
    stats: ColoStats,                 // s->colo_state
    buffer: Snapshot,                 // colo_buffer
    vmRunning: bool,
    shutdownRequested: bool,          // colo_shutdown_requested
    failoverRequested: bool,          // the failover request flag, as this process set it
    failoverCompleted: bool,          // failover_completed
    vmstateLoading: bool,             // vmstate_loading
    autostart: bool,                  // autostart
    applied: seq<byte>,               // the device state last loaded on the secondary
    log: seq<Event>)

  class ColoProcess {
    const mode: ColoMode
    const out: OutFile
    const inp: InFile
    var status: MigrationStatus
    var stats: ColoStats
    var buffer: Snapshot
    var vmRunning: bool
    var shutdownRequested: bool
    var failoverRequested: bool
    var failoverCompleted: bool
    var vmstateLoading: bool
    var autostart: bool
    var applied: seq<byte>
    var log: seq<Event>

    function State(): ProcState
      reads this, out, inp
    {
      ProcState(out.frames, out.capacity, inp.frames, inp.pos, status, stats, buffer, vmRunning,
                shutdownRequested, failoverRequested, failoverCompleted, vmstateLoading,
                autostart, applied, log)
    }

    /** A process entering COLO: VM stopped, no flag set, all counters zero, min_downtime seeded by the caller. */
    constructor (mode: ColoMode, out: OutFile, inp: InFile, minDowntimeSeed: int)
      ensures this.mode == mode && this.out == out && this.inp == inp
      ensures status == Colo && stats == ColoStats(0, 0, 0, 0, 0, 0, 0, minDowntimeSeed)
      ensures buffer == [] && applied == [] && log == []
      ensures !vmRunning && !shutdownRequested && !failoverRequested && !failoverCompleted
      ensures !vmstateLoading && autostart
    {
      this.mode := mode;
      this.out := out;
      this.inp := inp;
      status := Colo;
      stats := ColoStats(0, 0, 0, 0, 0, 0, 0, minDowntimeSeed);
      buffer := [];
      vmRunning := false;
      shutdownRequested := false;
      failoverRequested := false;
      failoverCompleted := false;
      vmstateLoading := false;
      autostart := true;
      applied := [];
      log := [];
    }
  }

  // ---------------------------------------------------------------
  // The two files on a ProcState. A write succeeds while the transport has
  // capacity and a failed one changes nothing; a read takes the frame at pos.
  // ---------------------------------------------------------------

  /** The state after one frame was written and flushed. */
  function Push(s: ProcState, f: Frame): ProcState
    requires s.capacity > 0
  {
    s.(sent := s.sent + [f], capacity := s.capacity - 1)
  }

  /** The word the next qemu_get_be64 returns, or None when the read fails. */
  function Incoming(s: ProcState): Option<Word>
  {
    NextWord(s.input, s.pos)
  }

  /** The state after one frame was read. */
  function Consume(s: ProcState): ProcState
  {
    s.(pos := s.pos + 1)
  }

  /** qsb_fill_buffer reads exactly size bytes: the next frame is a byte block of that length. */
  predicate Fits(s: ProcState, size: Word)
  {
    s.pos < |s.input| && s.input[s.pos].Bytes? && |s.input[s.pos].data| == size
  }

  /** The state after the bytes were read into the colo buffer. */
  function Filled(s: ProcState, size: Word): ProcState
    requires Fits(s, size)
  {
    s.(buffer := s.input[s.pos].data, pos := s.pos + 1)
  }
}
