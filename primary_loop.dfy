/**
 * What colo_thread's loop promises: the statistics ledger of a checkpoint, the
 * counters each kind of iteration moves, and the status the loop runs under.
 */
module PrimaryLoopProps {
  import opened Wrappers
  import opened Wire
  import opened Channel
  import opened Block
  import opened ColoState
  import opened Primary
  import opened PrimaryProps

  /** The downtime ledger: the total grows by d, the maximum and minimum take d in when it exceeds them. */
  lemma DowntimeLedger(st: ColoStats, d: int)
    ensures var r := AccountDowntime(st, d);
      r.totalDowntime == st.totalDowntime + d &&
      r.maxDowntime >= d && r.maxDowntime >= st.maxDowntime && (r.maxDowntime == d || r.maxDowntime == st.maxDowntime) &&
      r.minDowntime <= d && r.minDowntime <= st.minDowntime && (r.minDowntime == d || r.minDowntime == st.minDowntime) &&
      r.(totalDowntime := st.totalDowntime, maxDowntime := st.maxDowntime, minDowntime := st.minDowntime) == st
  {
  }

  /**
   * After a successful transaction that was not a shutdown, the ledger holds the
   * downtime end - start and the pages sent, and no other statistic changed.
   */
  lemma SuccessfulDowntime(s: ProcState, env: TxnEnv, blk: seq<Backend>)
    requires Succeeds(s, env, blk)
    ensures var st := Transaction(s, env, blk).1.stats;
      var d := env.endMs - env.startMs;
      st.totalDowntime == s.stats.totalDowntime + d &&
      st.maxDowntime == (if d > s.stats.maxDowntime then d else s.stats.maxDowntime) &&
      st.minDowntime == (if d < s.stats.minDowntime then d else s.stats.minDowntime) &&
      st.normalTransferPages == s.stats.normalTransferPages + env.ramPages.value &&
      st.checkpointCount == s.stats.checkpointCount &&
      st.periodicCheckpointCount == s.stats.periodicCheckpointCount &&
      st.proxyDiscompareCount == s.stats.proxyDiscompareCount &&
      st.liveTransferPages == s.stats.liveTransferPages
  {
    TransactionSucceeds(s, env, blk);
  }

  /**
   * The do_checkpoint label: the loop carries on exactly when the transaction returned
   * 0, and only then is checkpoint_count incremented and the checkpoint time renewed.
   */
  lemma TakeCheckpointCounts(s: ProcState, ct: int, t: Tick, blk: seq<Backend>)
    ensures var r := TakeCheckpoint(s, ct, t, blk);
      var ok := Transaction(s, t.txn, blk).0 == Returned(0);
      (r.0.None? <==> ok) &&
      r.1.stats.checkpointCount == s.stats.checkpointCount + (if ok then 1 else 0) &&
      r.2 == (if ok then t.doneMs else ct) &&
      r.1.stats.periodicCheckpointCount == s.stats.periodicCheckpointCount &&
      r.1.stats.proxyDiscompareCount == s.stats.proxyDiscompareCount &&
      r.1.status == s.status
  {
    TransactionKeepsCounters(s, t.txn, blk);
  }

  /** The trigger one iteration acts on, with the shutdown flag as it picks up the tick's request. */
  function TriggerOf(s: ProcState, ct: int, period: int, t: Tick): Trigger
  {
    Decide(t.failover, s.shutdownRequested || t.guestShutdown, t.compare, t.nowMs - ct, period, t.pending)
  }

  /**
   * The counters one iteration moves: periodic_checkpoint_count for a periodic
   * checkpoint, proxy_discompare_count for a mismatch, and checkpoint_count only for a
   * checkpoint after which the loop carries on; the status is left alone.
   */
  lemma StepCounters(s: ProcState, ct: int, period: int, t: Tick, blk: seq<Backend>)
    ensures var r := Step(s, ct, period, t, blk);
      var tr := TriggerOf(s, ct, period, t);
      r.1.stats.periodicCheckpointCount ==
        s.stats.periodicCheckpointCount + (if tr == Checkpoint(Periodic) then 1 else 0) &&
      r.1.stats.proxyDiscompareCount ==
        s.stats.proxyDiscompareCount + (if tr.Checkpoint? && tr.kind.ForMismatch? then 1 else 0) &&
      r.1.stats.checkpointCount ==
        s.stats.checkpointCount + (if tr.Checkpoint? && r.0.None? then 1 else 0) &&
      r.1.status == s.status
  {
    var plan := Prepare(s, ct, period, t);
    PrepareCounters(s, ct, period, t);
    if plan.TakeOne? {
      TakeCheckpointCounts(plan.s, ct, t, blk);
    }
  }

  /** Up to do_checkpoint: a checkpoint is planned exactly on a checkpoint trigger, and counted by its kind. */
  lemma PrepareCounters(s: ProcState, ct: int, period: int, t: Tick)
    ensures var plan := Prepare(s, ct, period, t);
      var tr := TriggerOf(s, ct, period, t);
      (plan.TakeOne? <==> tr.Checkpoint?) &&
      plan.s.stats.periodicCheckpointCount ==
        s.stats.periodicCheckpointCount + (if tr == Checkpoint(Periodic) then 1 else 0) &&
      plan.s.stats.proxyDiscompareCount ==
        s.stats.proxyDiscompareCount + (if tr.Checkpoint? && tr.kind.ForMismatch? then 1 else 0) &&
      plan.s.stats.checkpointCount == s.stats.checkpointCount &&
      plan.s.status == s.status
  {
    var latched := s.shutdownRequested || t.guestShutdown;
    FollowCounters(s.(shutdownRequested := latched), TriggerOf(s, ct, period, t), t);
  }

  /** The counters Follow moves for each trigger, and that a checkpoint trigger is the only one that takes one. */
  lemma FollowCounters(s0: ProcState, tr: Trigger, t: Tick)
    ensures var plan := Follow(s0, tr, t);
      (plan.TakeOne? <==> tr.Checkpoint?) &&
      plan.s.stats.periodicCheckpointCount ==
        s0.stats.periodicCheckpointCount + (if tr == Checkpoint(Periodic) then 1 else 0) &&
      plan.s.stats.proxyDiscompareCount ==
        s0.stats.proxyDiscompareCount + (if tr.Checkpoint? && tr.kind.ForMismatch? then 1 else 0) &&
      plan.s.stats.checkpointCount == s0.stats.checkpointCount &&
      plan.s.status == s0.status
  {
    match tr
    case LivePush => LivePushCounters(s0, t);
    case Checkpoint(kind) => BeforeCheckpointCounters(s0, kind);
    case _ =>
  }

  /** A live push never takes a checkpoint and moves none of the checkpoint counters. */
  lemma LivePushCounters(s0: ProcState, t: Tick)
    ensures var plan := LivePushStep(s0, t);
      !plan.TakeOne? &&
      plan.s.stats.periodicCheckpointCount == s0.stats.periodicCheckpointCount &&
      plan.s.stats.proxyDiscompareCount == s0.stats.proxyDiscompareCount &&
      plan.s.stats.checkpointCount == s0.stats.checkpointCount &&
      plan.s.status == s0.status
  {
    if s0.capacity > 0 {
      var s1 := Push(s0, Tag(RamLiveMigrate));
      assert s1.stats == s0.stats && s1.status == s0.status;
    }
  }

  /** The counter a checkpoint's kind moves before the transaction: periodic or mismatch, and nothing else. */
  lemma BeforeCheckpointCounters(s0: ProcState, kind: CheckpointKind)
    ensures var s1 := BeforeCheckpoint(s0, kind);
      s1.stats.periodicCheckpointCount == s0.stats.periodicCheckpointCount + (if kind == Periodic then 1 else 0) &&
      s1.stats.proxyDiscompareCount == s0.stats.proxyDiscompareCount + (if kind.ForMismatch? then 1 else 0) &&
      s1.stats.checkpointCount == s0.stats.checkpointCount &&
      s1.status == s0.status
  {
    match kind
    case ForShutdown =>
    case ForMismatch(ms) =>
      var s1 := if ms > 0 then s0.(log := s0.log + [Slept(ms)]) else s0;
      assert s1.stats == s0.stats && s1.status == s0.status;
    case Periodic =>
  }

  /**
   * An iteration that sees a failover request, or a compare error without a pending
   * shutdown, leaves the loop for the out label with nothing sent and nothing counted.
   */
  lemma StepLeavesEarly(s: ProcState, ct: int, period: int, t: Tick, blk: seq<Backend>)
    requires t.failover || (!s.shutdownRequested && !t.guestShutdown && t.compare < 0)
    ensures var r := Step(s, ct, period, t, blk);
      r.0 == Some(Out(if t.failover then FailoverRequest else CompareError)) &&
      r.1.sent == s.sent && r.1.stats == s.stats && r.2 == ct
  {
  }

  /**
   * A compare mismatch sleeps until CHECKPOINT_MIN_PERIOD has passed since the last
   * checkpoint, counts the mismatch, and then checkpoints.
   */
  lemma MismatchSpacing(s: ProcState, ct: int, period: int, t: Tick)
    requires !t.failover && !s.shutdownRequested && !t.guestShutdown && t.compare > 0
    ensures var plan := Prepare(s, ct, period, t);
      var interval := t.nowMs - ct;
      plan.TakeOne? &&
      plan.s.log == s.log + (if interval < CHECKPOINT_MIN_PERIOD then [Slept(CHECKPOINT_MIN_PERIOD - interval)] else []) &&
      plan.s.stats.proxyDiscompareCount == s.stats.proxyDiscompareCount + 1
  {
    var interval := t.nowMs - ct;
    if interval >= CHECKPOINT_MIN_PERIOD {
      assert s.log + [] == s.log;
    }
  }

  /**
   * Within the period and with nothing else to do, the loop sends RAM_LIVE_MIGRATE and
   * some dirty pages exactly when at least THRESHOLD_PENDING_SIZE bytes are pending, and
   * otherwise sleeps IDLE_SLEEP ms; either way it takes no checkpoint.
   */
  lemma QuietIteration(s: ProcState, ct: int, period: int, t: Tick)
    requires !t.failover && !s.shutdownRequested && !t.guestShutdown && t.compare == 0 && t.nowMs - ct < period
    ensures var plan := Prepare(s, ct, period, t);
      !plan.TakeOne? &&
      (t.pending >= THRESHOLD_PENDING_SIZE && s.capacity > 0 ==>
         plan.s.sent == s.sent + [Tag(RamLiveMigrate)] && plan.s.log == s.log) &&
      (t.pending >= THRESHOLD_PENDING_SIZE ==>
         (plan.Next? <==> s.capacity > 0 && t.livePages.Some?) &&
         (plan.Next? ==> plan.s.stats.liveTransferPages == s.stats.liveTransferPages + t.livePages.value) &&
         (!plan.Next? ==> plan == Stop(Out(LiveMigrateError), plan.s))) &&
      (t.pending < THRESHOLD_PENDING_SIZE ==>
         plan == Next(s.(log := s.log + [Slept(IDLE_SLEEP)])))
  {
    if t.pending >= THRESHOLD_PENDING_SIZE && s.capacity > 0 {
      assert Push(s, Tag(RamLiveMigrate)).sent == s.sent + [Tag(RamLiveMigrate)];
    }
  }

  /**
   * Nothing in the loop itself changes the migration status: in this model, where no
   * other thread changes it, the loop runs until an iteration leaves it or the modelled
   * iterations run out, and the counters only grow.
   */
  lemma {:induction false} LoopKeepsStatus(s: ProcState, ct: int, period: int, ticks: seq<Tick>, blk: seq<Backend>)
    requires s.status == Colo
    ensures var r := Loop(s, ct, period, ticks, blk);
      r.0 != Out(NotColo) && r.1.status == Colo &&
      r.1.stats.checkpointCount >= s.stats.checkpointCount &&
      r.1.stats.periodicCheckpointCount >= s.stats.periodicCheckpointCount &&
      r.1.stats.proxyDiscompareCount >= s.stats.proxyDiscompareCount
    decreases |ticks|
  {
    if |ticks| > 0 {
      StepCounters(s, ct, period, ticks[0], blk);
      var (e, s1, ct1) := Step(s, ct, period, ticks[0], blk);
      if e.None? {
        LoopKeepsStatus(s1, ct1, period, ticks[1..], blk);
      }
    }
  }

  /**
   * The loop condition: once the status is no longer COLO, whoever changed it, the loop
   * leaves for the out label at its next check without running another iteration.
   */
  lemma LoopEndsOnStatusChange(s: ProcState, ct: int, period: int, ticks: seq<Tick>, blk: seq<Backend>)
    requires s.status != Colo
    ensures Loop(s, ct, period, ticks, blk) == (Out(NotColo), s, ct)
  {
  }

  /**
   * A mismatch iteration whose transaction completes, when the guest asked to shut down
   * only after the loop head read the flag (during the spacing sleep, say), still ends
   * in the shutdown branch: GUEST_SHUTDOWN follows the checkpoint frames, the VM is not
   * resumed, and checkpoint_count does not move.
   */
  lemma MismatchMeetsShutdown(s: ProcState, ct: int, period: int, t: Tick, blk: seq<Backend>)
    requires !t.failover && !s.shutdownRequested && !t.guestShutdown && t.compare > 0
    requires t.txn.shutdownAtStop && s.capacity > 4
    requires Completes(Prepare(s, ct, period, t).s, t.txn, blk)
    ensures var r := Step(s, ct, period, t, blk);
      r.0 == Some(Shutdown) && !r.1.vmRunning && !r.1.shutdownRequested &&
      r.1.sent == s.sent + TxnFrames(t.txn.deviceState.value) + [Tag(GuestShutdown)] &&
      r.1.stats.checkpointCount == s.stats.checkpointCount && r.2 == ct
  {
    MismatchPlan(s, ct, period, t);
    var s1 := Prepare(s, ct, period, t).s;
    ShutdownBranch(s1, t.txn, blk);
    SpinEndsStep(s, ct, period, t, blk);
  }

  /** A mismatch iteration reaches do_checkpoint having sent nothing and counted no checkpoint. */
  lemma MismatchPlan(s: ProcState, ct: int, period: int, t: Tick)
    requires !t.failover && !s.shutdownRequested && !t.guestShutdown && t.compare > 0
    ensures var plan := Prepare(s, ct, period, t);
      plan.TakeOne? && plan.s.sent == s.sent && plan.s.capacity == s.capacity && !plan.s.shutdownRequested &&
      plan.s.stats.checkpointCount == s.stats.checkpointCount
  {
  }

  /** A checkpoint whose transaction ends in the shutdown spin ends the iteration with the transaction's state. */
  lemma SpinEndsStep(s: ProcState, ct: int, period: int, t: Tick, blk: seq<Backend>)
    requires Prepare(s, ct, period, t).TakeOne?
    requires Transaction(Prepare(s, ct, period, t).s, t.txn, blk).0 == ShutdownSpin
    ensures Step(s, ct, period, t, blk) == (Some(Shutdown), Transaction(Prepare(s, ct, period, t).s, t.txn, blk).1, ct)
  {
  }

  /**
   * colo_thread's start-up reaches the loop exactly when the proxy, the control channel
   * and the RAM preparation succeed, READY is read, the buffer is allocated and block
   * replication starts; any other word than READY is a desync. Start-up sends nothing,
   * and once started the VM runs.
   */
  lemma PrimaryStartupMeaning(s: ProcState, env: StartEnv, blk: seq<Backend>)
    ensures var (r, t) := PrimaryStartup(s, env, blk);
      (r == Started <==>
         env.proxyInitOk && env.controlOpenOk && env.ramPrepareOk && Incoming(s) == Some(Code(Ready)) &&
         env.bufferAllocOk && !StartOutcome(blk, true, env.startOk).0) &&
      (r.StartExited? <==>
         env.proxyInitOk && env.controlOpenOk && env.ramPrepareOk && Incoming(s).Some? &&
         Incoming(s).value != Code(Ready)) &&
      (r.StartExited? ==> r.received == Incoming(s).value) &&
      t.sent == s.sent && t.status == s.status &&
      (r == Started ==>
         t == s.(pos := s.pos + 1, vmRunning := true, log := s.log + [Bdrv(StartOutcome(blk, true, env.startOk).1)]))
  {
  }

  /**
   * Whenever colo_thread reaches its out label the failover request is raised, so the
   * failover bottom half runs. In this model no other thread changes the status, so a
   * thread that starts in COLO never leaves for a status change.
   */
  lemma OutRaisesFailover(s: ProcState, env: StartEnv, period: int, ticks: seq<Tick>, blk: seq<Backend>)
    ensures ColoThread(s, env, period, ticks, blk).0.Out? ==> ColoThread(s, env, period, ticks, blk).1.failoverRequested
    ensures s.status == Colo ==> ColoThread(s, env, period, ticks, blk).0 != Out(NotColo)
  {
    var (r, s1) := PrimaryStartup(s, env, blk);
    if r == Started {
      assert s1.status == s.status;
      if s.status == Colo {
        LoopKeepsStatus(s1, env.startMs, period, ticks, blk);
      }
    }
  }
}
