/**
 * What the primary promises: the frames and acknowledgements of a transaction,
 * where a failing step leaves the stream, the two failover safe points, the
 * downtime ledger, the shutdown branch, and the trigger loop's counters.
 */
module PrimaryProps {
  import opened Wrappers
  import opened Wire
  import opened Channel
  import opened Block
  import opened ColoState
  import opened Primary

  /** The acknowledgements a transaction consumes, in order. */
  function Acks(): seq<Frame>
  {
    [Tag(Suspended), Tag(Received), Tag(Loaded)]
  }

  /** The device state a transaction sends, or the empty one when saving it fails. */
  function SavedState(env: TxnEnv): Snapshot
  {
    if env.deviceState.Some? then env.deviceState.value else []
  }

  /** The acknowledgements are available at pos, in order. */
  predicate AcksAt(input: seq<Frame>, pos: nat)
  {
    pos + 3 <= |input| && input[pos..pos + 3] == Acks()
  }

  /** Everything a transaction needs to run to LOADED and resume the VM. */
  predicate Succeeds(s: ProcState, env: TxnEnv, blk: seq<Backend>)
  {
    s.capacity >= 4 && AcksAt(s.input, s.pos) &&
    env.bufOpenOk && !env.failoverAfterSuspend && !env.failoverAfterStop && env.proxyCheckpointOk &&
    !CheckpointOutcome(blk, env.checkpointOk).0 &&
    env.deviceState.Some? && env.ramPages.Some? && !s.shutdownRequested && !env.shutdownAtStop
  }

  /**
   * The state after a complete, non-shutdown transaction: its four frames sent, the
   * three acknowledgements consumed, the buffer holding the device state, the block
   * checkpoint logged, the VM running, and the pages and downtime accounted.
   */
  function AfterSuccess(s: ProcState, env: TxnEnv, blk: seq<Backend>): ProcState
    requires env.deviceState.Some? && env.ramPages.Some? && s.capacity >= 4
  {
    var state := env.deviceState.value;
    var pages := s.stats.(normalTransferPages := s.stats.normalTransferPages + env.ramPages.value);
    s.(sent := s.sent + TxnFrames(state), capacity := s.capacity - 4, pos := s.pos + 3,
       buffer := state, vmRunning := true,
       stats := AccountDowntime(pages, env.endMs - env.startMs),
       log := s.log + [Bdrv(CheckpointOutcome(blk, env.checkpointOk).1)])
  }

  lemma AcksAtUnfold(input: seq<Frame>, pos: nat)
    ensures AcksAt(input, pos) <==>
              pos + 3 <= |input| && input[pos] == Tag(Suspended) &&
              input[pos + 1] == Tag(Received) && input[pos + 2] == Tag(Loaded)
  {
    if pos + 3 <= |input| {
      var w := input[pos..pos + 3];
      assert w[0] == input[pos] && w[1] == input[pos + 1] && w[2] == input[pos + 2];
    }
  }

  /** The input between two positions is the start of the acknowledgements. */
  predicate AcksConsumed(input: seq<Frame>, from: nat, to: nat)
  {
    from <= to <= from + 3 && to <= |input| && input[from..to] == Acks()[..to - from]
  }

  /** At the end of a read that desynchronised: the word read was not the acknowledgement expected there. */
  predicate DesyncAt(input: seq<Frame>, from: nat, to: nat, w: Word)
  {
    from < to <= from + 3 && to <= |input| && AcksConsumed(input, from, to - 1) &&
    input[to - 1] == Ctl(w) && Ctl(w) != Acks()[to - 1 - from]
  }

  lemma SuspendGoing(s: ProcState, env: TxnEnv)
    ensures Suspend(s, env).Going? <==>
              s.capacity > 0 && s.pos < |s.input| && s.input[s.pos] == Tag(Suspended) &&
              env.bufOpenOk && !env.failoverAfterSuspend
    ensures Suspend(s, env).Going? ==>
              Suspend(s, env).s == s.(sent := s.sent + [Tag(New)], capacity := s.capacity - 1, pos := s.pos + 1, buffer := [])
  {
    if s.capacity > 0 {
      assert Push(s, Tag(New)).sent == s.sent + [Tag(New)];
    }
  }

  lemma SuspendEnded(s: ProcState, env: TxnEnv)
    ensures Suspend(s, env).Ended? && Suspend(s, env).o == Returned(0) <==>
              s.capacity > 0 && s.pos < |s.input| && s.input[s.pos] == Tag(Suspended) && !env.bufOpenOk
    ensures Suspend(s, env).Ended? ==>
              Suspend(s, env).o == Returned(0) || Suspend(s, env).o == Returned(-1) || Suspend(s, env).o.Exited?
  {
  }

  lemma SuspendEndedState(s: ProcState, env: TxnEnv)
    ensures Suspend(s, env).Ended? ==>
              Suspend(s, env).s.sent == (if s.capacity > 0 then s.sent + [Tag(New)] else s.sent)
    ensures Suspend(s, env).Ended? ==> Suspend(s, env).s.vmRunning == s.vmRunning
  {
    if s.capacity > 0 {
      assert Push(s, Tag(New)).sent == s.sent + [Tag(New)];
    }
  }

  lemma SuspendEndedReads(s: ProcState, env: TxnEnv)
    ensures Suspend(s, env).Ended? && !Suspend(s, env).o.Exited? ==>
              Suspend(s, env).s.pos == s.pos || (Suspend(s, env).s.pos == s.pos + 1 && s.input[s.pos] == Tag(Suspended))
    ensures Suspend(s, env).Ended? && Suspend(s, env).o.Exited? ==>
              Suspend(s, env).s.pos == s.pos + 1 && s.input[s.pos] == Ctl(Suspend(s, env).o.received) &&
              Suspend(s, env).o.received != Code(Suspended)
  {
  }

  lemma StopAndCheckpointGoing(s: ProcState, env: TxnEnv, blk: seq<Backend>)
    ensures StopAndCheckpoint(s, env, blk).Going? <==>
              !env.failoverAfterStop && env.proxyCheckpointOk && !CheckpointOutcome(blk, env.checkpointOk).0
    ensures StopAndCheckpoint(s, env, blk).Going? ==>
              StopAndCheckpoint(s, env, blk).s == s.(vmRunning := false, log := s.log + [Bdrv(CheckpointOutcome(blk, env.checkpointOk).1)])
  {
  }

  lemma StopAndCheckpointEnded(s: ProcState, env: TxnEnv, blk: seq<Backend>)
    ensures var p := StopAndCheckpoint(s, env, blk);
      p.s.sent == s.sent && p.s.pos == s.pos && !p.s.vmRunning &&
      (p.Ended? ==> p.o == Returned(-1))
  {
  }

  lemma SaveStateGoing(s: ProcState, env: TxnEnv)
    ensures SaveState(s, env).Going? <==> s.capacity > 0 && env.deviceState.Some? && env.ramPages.Some?
    ensures SaveState(s, env).Going? ==>
              SaveState(s, env).s == s.(sent := s.sent + [Tag(Send)], capacity := s.capacity - 1,
                                        buffer := env.deviceState.value,
                                        stats := s.stats.(normalTransferPages := s.stats.normalTransferPages + env.ramPages.value))
  {
    if s.capacity > 0 {
      assert Push(s, Tag(Send)).sent == s.sent + [Tag(Send)];
    }
  }

  lemma SaveStateEnded(s: ProcState, env: TxnEnv)
    ensures var p := SaveState(s, env);
      p.s.pos == s.pos && p.s.vmRunning == s.vmRunning &&
      (p.Ended? ==> p.o == Returned(-1)) &&
      (p.Ended? ==> p.s.sent == s.sent || p.s.sent == s.sent + [Tag(Send)])
  {
    if s.capacity > 0 {
      assert Push(s, Tag(Send)).sent == s.sent + [Tag(Send)];
    }
  }

  lemma SendBufferGoing(s: ProcState)
    ensures SendBuffer(s).Going? <==> s.capacity >= 2
    ensures SendBuffer(s).Going? ==>
              SendBuffer(s).s == s.(sent := s.sent + [Ctl(|s.buffer|), Bytes(s.buffer)], capacity := s.capacity - 2)
  {
    if s.capacity >= 2 {
      assert s.sent + [Ctl(|s.buffer|)] + [Bytes(s.buffer)] == s.sent + [Ctl(|s.buffer|), Bytes(s.buffer)];
    }
  }

  lemma SendBufferEnded(s: ProcState)
    ensures var p := SendBuffer(s);
      p.s.pos == s.pos && p.s.vmRunning == s.vmRunning &&
      (p.Ended? ==> p.o == Returned(-1)) &&
      (p.Ended? ==> p.s.sent == s.sent || p.s.sent == s.sent + [Ctl(|s.buffer|)])
  {
  }

  lemma AwaitLoadedGoing(s: ProcState)
    ensures AwaitLoaded(s).Going? <==>
              s.pos + 2 <= |s.input| && s.input[s.pos] == Tag(Received) && s.input[s.pos + 1] == Tag(Loaded)
    ensures AwaitLoaded(s).Going? ==> AwaitLoaded(s).s == s.(pos := s.pos + 2)
  {
  }

  lemma AwaitLoadedEnded(s: ProcState)
    ensures var p := AwaitLoaded(s);
      p.s.sent == s.sent && p.s.vmRunning == s.vmRunning &&
      (p.Ended? ==> p.o == Returned(-1) || p.o.Exited?) &&
      (p.Ended? && !p.o.Exited? ==>
         p.s.pos == s.pos || (p.s.pos == s.pos + 1 && s.input[s.pos] == Tag(Received)))
  {
  }

  lemma AwaitLoadedDesync(s: ProcState)
    ensures var p := AwaitLoaded(s);
      p.Ended? && p.o.Exited? ==>
        (p.s.pos == s.pos + 1 && s.input[s.pos] == Ctl(p.o.received) && p.o.received != Code(Received)) ||
        (p.s.pos == s.pos + 2 && s.input[s.pos] == Tag(Received) &&
         s.input[s.pos + 1] == Ctl(p.o.received) && p.o.received != Code(Loaded))
  {
  }

  /**
   * Every step of a transaction succeeds: the stream takes the four frames, the three
   * acknowledgements are waiting, no failover is requested at either safe point, and
   * every collaborator reports success. Succeeds adds that the guest did not ask to
   * shut down.
   */
  predicate Completes(s: ProcState, env: TxnEnv, blk: seq<Backend>)
  {
    s.capacity >= 4 && AcksAt(s.input, s.pos) &&
    env.bufOpenOk && !env.failoverAfterSuspend && !env.failoverAfterStop && env.proxyCheckpointOk &&
    !CheckpointOutcome(blk, env.checkpointOk).0 &&
    env.deviceState.Some? && env.ramPages.Some?
  }

  /** The state when every step has succeeded, just before the shutdown decision. */
  function AtLoaded(s: ProcState, env: TxnEnv, blk: seq<Backend>): ProcState
    requires env.deviceState.Some? && env.ramPages.Some? && s.capacity >= 4
  {
    var state := env.deviceState.value;
    s.(sent := s.sent + TxnFrames(state), capacity := s.capacity - 4, pos := s.pos + 3,
       buffer := state, vmRunning := false, shutdownRequested := s.shutdownRequested || env.shutdownAtStop,
       stats := s.stats.(normalTransferPages := s.stats.normalTransferPages + env.ramPages.value),
       log := s.log + [Bdrv(CheckpointOutcome(blk, env.checkpointOk).1)])
  }

  lemma TxnFramesInTurn(sent: seq<Frame>, state: Snapshot)
    ensures sent + [Tag(New)] + [Tag(Send), Ctl(|state|), Bytes(state)] == sent + TxnFrames(state)
  {
  }

  /**
   * When every step succeeds, the stretches run in turn to LOADED, and Finish sees the
   * shutdown flag as latched just before the VM stopped.
   */
  lemma CompletesReachesLoaded(s: ProcState, env: TxnEnv, blk: seq<Backend>)
    requires Completes(s, env, blk)
    ensures Transaction(s, env, blk) ==
              Finish(AtLoaded(s, env, blk), s.shutdownRequested || env.shutdownAtStop, env, blk)
  {
    AcksAtUnfold(s.input, s.pos);
    SuspendGoing(s, env);
    var s1 := LatchShutdown(Suspend(s, env).s, env);
    FromStopReaches(s1, env, blk);
    LoadedAfterSuspend(s, s1, env, blk);
  }

  /** The state FromStopReaches arrives at, seen from before the suspend, is the one AtLoaded names. */
  lemma LoadedAfterSuspend(s: ProcState, s1: ProcState, env: TxnEnv, blk: seq<Backend>)
    requires env.deviceState.Some? && env.ramPages.Some? && s.capacity >= 4
    requires s1 == s.(sent := s.sent + [Tag(New)], capacity := s.capacity - 1, pos := s.pos + 1, buffer := [],
                      shutdownRequested := s.shutdownRequested || env.shutdownAtStop)
    ensures var state := env.deviceState.value;
      s1.(sent := s1.sent + [Tag(Send), Ctl(|state|), Bytes(state)], capacity := s1.capacity - 3,
          pos := s1.pos + 2, buffer := state, vmRunning := false,
          stats := s1.stats.(normalTransferPages := s1.stats.normalTransferPages + env.ramPages.value),
          log := s1.log + [Bdrv(CheckpointOutcome(blk, env.checkpointOk).1)])
      == AtLoaded(s, env, blk)
  {
    TxnFramesInTurn(s.sent, env.deviceState.value);
  }

  /** After the first safe point, a transaction whose later steps succeed stops the VM, checkpoints, saves, sends and reads both acknowledgements. */
  lemma FromStopReaches(s: ProcState, env: TxnEnv, blk: seq<Backend>)
    requires s.capacity >= 3 && env.deviceState.Some? && env.ramPages.Some?
    requires !env.failoverAfterStop && env.proxyCheckpointOk && !CheckpointOutcome(blk, env.checkpointOk).0
    requires s.pos + 2 <= |s.input| && s.input[s.pos] == Tag(Received) && s.input[s.pos + 1] == Tag(Loaded)
    ensures var state := env.deviceState.value;
      FromStop(s, env, blk) ==
        Finish(s.(sent := s.sent + [Tag(Send), Ctl(|state|), Bytes(state)], capacity := s.capacity - 3,
                  pos := s.pos + 2, buffer := state, vmRunning := false,
                  stats := s.stats.(normalTransferPages := s.stats.normalTransferPages + env.ramPages.value),
                  log := s.log + [Bdrv(CheckpointOutcome(blk, env.checkpointOk).1)]),
               s.shutdownRequested, env, blk)
  {
    StopAndCheckpointGoing(s, env, blk);
    FromSaveReaches(StopAndCheckpoint(s, env, blk).s, s.shutdownRequested, env, blk);
  }

  /** Once the checkpoints are taken, a transaction whose later steps succeed saves, sends and reads both acknowledgements. */
  lemma FromSaveReaches(s: ProcState, latched: bool, env: TxnEnv, blk: seq<Backend>)
    requires s.capacity >= 3 && env.deviceState.Some? && env.ramPages.Some?
    requires s.pos + 2 <= |s.input| && s.input[s.pos] == Tag(Received) && s.input[s.pos + 1] == Tag(Loaded)
    ensures var state := env.deviceState.value;
      FromSave(s, latched, env, blk) ==
        Finish(s.(sent := s.sent + [Tag(Send), Ctl(|state|), Bytes(state)], capacity := s.capacity - 3,
                  pos := s.pos + 2, buffer := state,
                  stats := s.stats.(normalTransferPages := s.stats.normalTransferPages + env.ramPages.value)),
               latched, env, blk)
  {
    var state := env.deviceState.value;
    SaveStateGoing(s, env);
    var s3 := SaveState(s, env).s;
    SendBufferGoing(s3);
    var s4 := SendBuffer(s3).s;
    assert s.sent + [Tag(Send)] + [Ctl(|state|), Bytes(state)] == s.sent + [Tag(Send), Ctl(|state|), Bytes(state)];
    AwaitLoadedGoing(s4);
  }


  /**
   * A transaction returns 0 with its buffer opened exactly when every step succeeds and
   * no shutdown was requested, at the loop head or before the VM stopped; then it has
   * sent NEW, SEND, the size and the bytes,
   * consumed SUSPENDED, RECEIVED and LOADED, resumed the VM and accounted the downtime.
   */
  lemma TransactionSucceeds(s: ProcState, env: TxnEnv, blk: seq<Backend>)
    ensures (Transaction(s, env, blk).0 == Returned(0) && env.bufOpenOk) <==> Succeeds(s, env, blk)
    ensures Succeeds(s, env, blk) ==> Transaction(s, env, blk) == (Returned(0), AfterSuccess(s, env, blk))
  {
    if Succeeds(s, env, blk) {
      CompletesReachesLoaded(s, env, blk);
    }
    if Transaction(s, env, blk).0 == Returned(0) && env.bufOpenOk {
      ZeroNeedsSuccess(s, env, blk);
    }
  }

  /** Only a transaction in which every step succeeded, with no shutdown pending, returns 0 after opening its buffer. */
  lemma ZeroNeedsSuccess(s: ProcState, env: TxnEnv, blk: seq<Backend>)
    requires Transaction(s, env, blk).0 == Returned(0) && env.bufOpenOk
    ensures Succeeds(s, env, blk)
  {
    SuspendGoing(s, env);
    SuspendEnded(s, env);
    assert Suspend(s, env).Going?;
    FromStopZero(LatchShutdown(Suspend(s, env).s, env), env, blk);
    AcksAtUnfold(s.input, s.pos);
  }

  /** A transaction that returns 0 after its first safe point had every later step succeed. */
  lemma FromStopZero(s: ProcState, env: TxnEnv, blk: seq<Backend>)
    requires FromStop(s, env, blk).0 == Returned(0)
    ensures !env.failoverAfterStop && env.proxyCheckpointOk && !CheckpointOutcome(blk, env.checkpointOk).0
    ensures s.capacity >= 3 && env.deviceState.Some? && env.ramPages.Some? && !s.shutdownRequested
    ensures s.pos + 2 <= |s.input| && s.input[s.pos] == Tag(Received) && s.input[s.pos + 1] == Tag(Loaded)
  {
    StopAndCheckpointGoing(s, env, blk);
    StopAndCheckpointEnded(s, env, blk);
    assert StopAndCheckpoint(s, env, blk).Going?;
    FromSaveZero(StopAndCheckpoint(s, env, blk).s, s.shutdownRequested, env, blk);
  }

  /** A transaction that returns 0 once its checkpoints are taken saved and sent everything. */
  lemma FromSaveZero(s: ProcState, latched: bool, env: TxnEnv, blk: seq<Backend>)
    requires FromSave(s, latched, env, blk).0 == Returned(0)
    ensures s.capacity >= 3 && env.deviceState.Some? && env.ramPages.Some? && !latched
    ensures s.pos + 2 <= |s.input| && s.input[s.pos] == Tag(Received) && s.input[s.pos + 1] == Tag(Loaded)
  {
    SaveStateGoing(s, env);
    SaveStateEnded(s, env);
    assert SaveState(s, env).Going?;
    FromSendZero(SaveState(s, env).s, latched, env, blk);
  }

  /** A transaction that returns 0 once its state is saved sent the buffer and read both acknowledgements. */
  lemma FromSendZero(s: ProcState, latched: bool, env: TxnEnv, blk: seq<Backend>)
    requires FromSend(s, latched, env, blk).0 == Returned(0)
    ensures s.capacity >= 2 && !latched
    ensures s.pos + 2 <= |s.input| && s.input[s.pos] == Tag(Received) && s.input[s.pos + 1] == Tag(Loaded)
  {
    SendBufferGoing(s);
    SendBufferEnded(s);
    assert SendBuffer(s).Going?;
    FromAwaitZero(SendBuffer(s).s, latched, env, blk);
  }

  /** A transaction that returns 0 once its buffer is sent read RECEIVED and LOADED and had no shutdown latched. */
  lemma FromAwaitZero(s: ProcState, latched: bool, env: TxnEnv, blk: seq<Backend>)
    requires FromAwait(s, latched, env, blk).0 == Returned(0)
    ensures !latched
    ensures s.pos + 2 <= |s.input| && s.input[s.pos] == Tag(Received) && s.input[s.pos + 1] == Tag(Loaded)
  {
    AwaitLoadedEnded(s);
    AwaitLoadedGoing(s);
  }

  /**
   * When every step succeeds but the guest asked to shut down before the VM was stopped,
   * the transaction ends in the shutdown branch: block replication stopped on every
   * eligible backend, GUEST_SHUTDOWN sent if the stream still takes it, the request
   * cleared and the shutdown raised, and the VM never resumed.
   */
  lemma ShutdownBranch(s: ProcState, env: TxnEnv, blk: seq<Backend>)
    requires Completes(s, env, blk) && (s.shutdownRequested || env.shutdownAtStop)
    ensures Transaction(s, env, blk).0 == ShutdownSpin
    ensures var t := Transaction(s, env, blk).1;
      var frames := s.sent + TxnFrames(env.deviceState.value);
      !t.vmRunning && !t.shutdownRequested &&
      t.sent == (if s.capacity > 4 then frames + [Tag(GuestShutdown)] else frames) &&
      t.log == s.log + [Bdrv(CheckpointOutcome(blk, env.checkpointOk).1)] +
                       [Bdrv(Visits(blk, |blk|, StopRep(false))), ShutdownRequest] &&
      t.stats == s.stats.(normalTransferPages := s.stats.normalTransferPages + env.ramPages.value)
  {
    CompletesReachesLoaded(s, env, blk);
    FinishShutdown(AtLoaded(s, env, blk), env, blk);
  }

  /** The shutdown branch on its own: replication stopped, GUEST_SHUTDOWN sent if the stream takes it, the request cleared. */
  lemma FinishShutdown(t: ProcState, env: TxnEnv, blk: seq<Backend>)
    ensures Finish(t, true, env, blk).0 == ShutdownSpin
    ensures var u := Finish(t, true, env, blk).1;
      !u.shutdownRequested && u.vmRunning == t.vmRunning && u.stats == t.stats &&
      u.sent == (if t.capacity > 0 then t.sent + [Tag(GuestShutdown)] else t.sent) &&
      u.log == t.log + [Bdrv(Visits(blk, |blk|, StopRep(false))), ShutdownRequest]
  {
    FinishShutdownFrames(t, env, blk);
    FinishShutdownLog(t, env, blk);
  }

  lemma FinishShutdownFrames(t: ProcState, env: TxnEnv, blk: seq<Backend>)
    ensures Finish(t, true, env, blk).0 == ShutdownSpin
    ensures var u := Finish(t, true, env, blk).1;
      !u.shutdownRequested && u.vmRunning == t.vmRunning && u.stats == t.stats &&
      u.sent == (if t.capacity > 0 then t.sent + [Tag(GuestShutdown)] else t.sent)
  {
  }

  lemma FinishShutdownLog(t: ProcState, env: TxnEnv, blk: seq<Backend>)
    ensures Finish(t, true, env, blk).1.log == t.log + [Bdrv(Visits(blk, |blk|, StopRep(false))), ShutdownRequest]
  {
    var stops := Bdrv(Visits(blk, |blk|, StopRep(false)));
    assert t.log + [stops] + [ShutdownRequest] == t.log + [stops, ShutdownRequest];
  }

  /**
   * A qemu_bufopen failure after SUSPENDED leaves the transaction at its out label with
   * ret still 0: it reports success though only NEW was sent and the VM never stopped.
   */
  lemma BufOpenFailureReportsSuccess(s: ProcState, env: TxnEnv, blk: seq<Backend>)
    requires s.capacity > 0 && s.pos < |s.input| && s.input[s.pos] == Tag(Suspended)
    requires !env.bufOpenOk
    ensures Transaction(s, env, blk) ==
              (Returned(0), s.(sent := s.sent + [Tag(New)], capacity := s.capacity - 1, pos := s.pos + 1, buffer := []))
  {
  }

  /**
   * A failover request seen at either safe point ends the transaction with -1 before
   * SEND: NEW is the only frame sent, and the VM is left stopped if it got that far.
   */
  lemma FailoverBeforeSend(s: ProcState, env: TxnEnv, blk: seq<Backend>)
    requires s.capacity > 0 && s.pos < |s.input| && s.input[s.pos] == Tag(Suspended)
    requires env.bufOpenOk && (env.failoverAfterSuspend || env.failoverAfterStop)
    ensures Transaction(s, env, blk).0 == Returned(-1)
    ensures Transaction(s, env, blk).1.sent == s.sent + [Tag(New)]
    ensures Transaction(s, env, blk).1.pos == s.pos + 1
    ensures !env.failoverAfterSuspend ==> !Transaction(s, env, blk).1.vmRunning
  {
  }

  /** The frames a transaction has appended to the stream: a prefix of the four of a complete one. */
  predicate SentPrefix(before: seq<Frame>, after: seq<Frame>, env: TxnEnv)
  {
    |before| <= |after| <= |before| + 4 &&
    after == before + TxnFrames(SavedState(env))[..|after| - |before|]
  }

  /**
   * Unless it ends in the shutdown branch, what a transaction appended to the stream is
   * a prefix of NEW, SEND, size, bytes: the first failing step ends it with nothing
   * further sent.
   */
  lemma TransactionSendsPrefix(s: ProcState, env: TxnEnv, blk: seq<Backend>)
    ensures Transaction(s, env, blk).0 != ShutdownSpin ==>
              SentPrefix(s.sent, Transaction(s, env, blk).1.sent, env)
  {
    var state := SavedState(env);
    TxnFramesPrefixes(s.sent, state);
    SuspendEndedState(s, env);
    SuspendGoing(s, env);
    if Suspend(s, env).Going? {
      var s1 := LatchShutdown(Suspend(s, env).s, env);
      StopAndCheckpointEnded(s1, env, blk);
      StopAndCheckpointGoing(s1, env, blk);
      if StopAndCheckpoint(s1, env, blk).Going? {
        var s2 := StopAndCheckpoint(s1, env, blk).s;
        SaveStateEnded(s2, env);
        SaveStateGoing(s2, env);
        if SaveState(s2, env).Going? {
          var s3 := SaveState(s2, env).s;
          SendBufferEnded(s3);
          SendBufferGoing(s3);
          if SendBuffer(s3).Going? {
            AwaitLoadedEnded(SendBuffer(s3).s);
          }
        }
      }
    }
  }

  /** Each prefix of a transaction's frames, appended to what was sent before, satisfies SentPrefix. */
  lemma TxnFramesPrefixes(sent: seq<Frame>, state: Snapshot)
    ensures forall env: TxnEnv | SavedState(env) == state ::
      SentPrefix(sent, sent, env) && SentPrefix(sent, sent + [Tag(New)], env) &&
      SentPrefix(sent, sent + [Tag(New)] + [Tag(Send)], env) &&
      SentPrefix(sent, sent + [Tag(New)] + [Tag(Send)] + [Ctl(|state|)], env) &&
      SentPrefix(sent, sent + [Tag(New)] + [Tag(Send)] + [Ctl(|state|), Bytes(state)], env)
  {
    var frames := TxnFrames(state);
    assert frames[..0] == [];
    assert sent + [] == sent;
    assert frames[..1] == [Tag(New)];
    assert frames[..2] == [Tag(New), Tag(Send)];
    assert sent + [Tag(New)] + [Tag(Send)] == sent + frames[..2];
    assert sent + [Tag(New)] + [Tag(Send)] + [Ctl(|state|)] == sent + frames[..3];
    assert sent + [Tag(New)] + [Tag(Send)] + [Ctl(|state|), Bytes(state)] == sent + frames[..4];
  }

  /** What was read of the acknowledgements, up to a position. */
  lemma AcksPrefixes(input: seq<Frame>, from: nat)
    requires from <= |input|
    ensures AcksConsumed(input, from, from)
    ensures from < |input| && input[from] == Tag(Suspended) ==> AcksConsumed(input, from, from + 1)
    ensures from + 1 < |input| && input[from] == Tag(Suspended) && input[from + 1] == Tag(Received) ==>
              AcksConsumed(input, from, from + 2)
    ensures from + 2 < |input| && input[from] == Tag(Suspended) && input[from + 1] == Tag(Received) &&
              input[from + 2] == Tag(Loaded) ==>
              AcksConsumed(input, from, from + 3)
  {
    assert Acks()[..0] == [] && input[from..from] == [];
    if from < |input| && input[from] == Tag(Suspended) {
      assert input[from..from + 1] == [Tag(Suspended)] == Acks()[..1];
      if from + 1 < |input| && input[from + 1] == Tag(Received) {
        assert input[from..from + 2] == [Tag(Suspended), Tag(Received)] == Acks()[..2];
        if from + 2 < |input| && input[from + 2] == Tag(Loaded) {
          assert input[from..from + 3] == Acks()[..3];
        }
      }
    }
  }

  /** Neither branch of Finish reads the control channel. */
  lemma FinishKeepsInput(t: ProcState, latched: bool, env: TxnEnv, blk: seq<Backend>)
    ensures Finish(t, latched, env, blk).1.pos == t.pos && Finish(t, latched, env, blk).1.input == t.input
    ensures !Finish(t, latched, env, blk).0.Exited?
  {
  }

  /** Where Suspend leaves the reading of the acknowledgements. */
  lemma SuspendReads(s: ProcState, env: TxnEnv)
    requires s.pos <= |s.input|
    ensures var p := Suspend(s, env);
      (p.Ended? && p.o.Exited? ==> DesyncAt(s.input, s.pos, p.s.pos, p.o.received)) &&
      (p.Ended? && !p.o.Exited? ==> AcksConsumed(s.input, s.pos, p.s.pos)) &&
      (p.Going? ==> p.s.pos == s.pos + 1 && AcksConsumed(s.input, s.pos, s.pos + 1))
  {
    AcksPrefixes(s.input, s.pos);
    SuspendGoing(s, env);
    SuspendEndedReads(s, env);
  }

  /** Where AwaitLoaded leaves the reading, once SUSPENDED was read at from. */
  lemma AwaitLoadedReads(s: ProcState, from: nat)
    requires s.pos == from + 1 <= |s.input| && s.input[from] == Tag(Suspended)
    ensures var p := AwaitLoaded(s);
      (p.Ended? && p.o.Exited? ==> DesyncAt(s.input, from, p.s.pos, p.o.received)) &&
      (p.Ended? && !p.o.Exited? ==> AcksConsumed(s.input, from, p.s.pos)) &&
      (p.Going? ==> AcksConsumed(s.input, from, p.s.pos))
  {
    AcksPrefixes(s.input, from);
    AwaitLoadedEnded(s);
    AwaitLoadedDesync(s);
    AwaitLoadedGoing(s);
  }

  /**
   * What a transaction that started reading at from did to the control channel: unless
   * it exits on a desync, it consumed a prefix of SUSPENDED, RECEIVED, LOADED; when it
   * exits, the word it read last was not the acknowledgement expected there, and all
   * before it were.
   */
  predicate ReadAcks(input: seq<Frame>, from: nat, r: (TxnOutcome, ProcState))
  {
    (r.0.Exited? ==> DesyncAt(input, from, r.1.pos, r.0.received)) &&
    (!r.0.Exited? ==> AcksConsumed(input, from, r.1.pos))
  }

  /** A transaction reads only acknowledgements, in order, and exits exactly on the first one that is not. */
  lemma TransactionReads(s: ProcState, env: TxnEnv, blk: seq<Backend>)
    requires s.pos <= |s.input|
    ensures ReadAcks(s.input, s.pos, Transaction(s, env, blk))
  {
    SuspendReads(s, env);
    if Suspend(s, env).Going? {
      FromStopReads(LatchShutdown(Suspend(s, env).s, env), env, blk, s.pos);
    }
  }

  lemma FromStopReads(s: ProcState, env: TxnEnv, blk: seq<Backend>, from: nat)
    requires s.pos == from + 1 <= |s.input| && s.input[from] == Tag(Suspended)
    ensures ReadAcks(s.input, from, FromStop(s, env, blk))
  {
    AcksPrefixes(s.input, from);
    StopAndCheckpointEnded(s, env, blk);
    StopAndCheckpointGoing(s, env, blk);
    if StopAndCheckpoint(s, env, blk).Going? {
      FromSaveReads(StopAndCheckpoint(s, env, blk).s, s.shutdownRequested, env, blk, from);
    }
  }

  lemma FromSaveReads(s: ProcState, latched: bool, env: TxnEnv, blk: seq<Backend>, from: nat)
    requires s.pos == from + 1 <= |s.input| && s.input[from] == Tag(Suspended)
    ensures ReadAcks(s.input, from, FromSave(s, latched, env, blk))
  {
    AcksPrefixes(s.input, from);
    SaveStateEnded(s, env);
    SaveStateGoing(s, env);
    if SaveState(s, env).Going? {
      FromSendReads(SaveState(s, env).s, latched, env, blk, from);
    }
  }

  lemma FromSendReads(s: ProcState, latched: bool, env: TxnEnv, blk: seq<Backend>, from: nat)
    requires s.pos == from + 1 <= |s.input| && s.input[from] == Tag(Suspended)
    ensures ReadAcks(s.input, from, FromSend(s, latched, env, blk))
  {
    AcksPrefixes(s.input, from);
    SendBufferEnded(s);
    SendBufferGoing(s);
    if SendBuffer(s).Going? {
      FromAwaitReads(SendBuffer(s).s, latched, env, blk, from);
    }
  }

  lemma FromAwaitReads(s: ProcState, latched: bool, env: TxnEnv, blk: seq<Backend>, from: nat)
    requires s.pos == from + 1 <= |s.input| && s.input[from] == Tag(Suspended)
    ensures ReadAcks(s.input, from, FromAwait(s, latched, env, blk))
  {
    AwaitLoadedReads(s, from);
    if AwaitLoaded(s).Going? {
      FinishKeepsInput(AwaitLoaded(s).s, latched, env, blk);
    }
  }

  /** The migration status and the three checkpoint counters, which a transaction leaves alone. */
  predicate KeepsCounters(before: ProcState, after: ProcState)
  {
    after.status == before.status &&
    after.stats.checkpointCount == before.stats.checkpointCount &&
    after.stats.periodicCheckpointCount == before.stats.periodicCheckpointCount &&
    after.stats.proxyDiscompareCount == before.stats.proxyDiscompareCount
  }

  /**
   * However it ends, a transaction changes neither the migration status nor the
   * checkpoint counters: those are the loop's to update.
   */
  lemma TransactionKeepsCounters(s: ProcState, env: TxnEnv, blk: seq<Backend>)
    ensures KeepsCounters(s, Transaction(s, env, blk).1)
  {
    assert KeepsCounters(s, Suspend(s, env).s);
    if Suspend(s, env).Going? {
      assert KeepsCounters(s, LatchShutdown(Suspend(s, env).s, env));
      FromStopKeepsCounters(LatchShutdown(Suspend(s, env).s, env), env, blk);
    }
  }

  lemma FromStopKeepsCounters(s: ProcState, env: TxnEnv, blk: seq<Backend>)
    ensures KeepsCounters(s, FromStop(s, env, blk).1)
  {
    var p := StopAndCheckpoint(s, env, blk);
    assert KeepsCounters(s, p.s);
    if p.Going? {
      FromSaveKeepsCounters(p.s, s.shutdownRequested, env, blk);
    }
  }

  lemma FromSaveKeepsCounters(s: ProcState, latched: bool, env: TxnEnv, blk: seq<Backend>)
    ensures KeepsCounters(s, FromSave(s, latched, env, blk).1)
  {
    var p := SaveState(s, env);
    assert KeepsCounters(s, p.s);
    if p.Going? {
      FromSendKeepsCounters(p.s, latched, env, blk);
    }
  }

  lemma FromSendKeepsCounters(s: ProcState, latched: bool, env: TxnEnv, blk: seq<Backend>)
    ensures KeepsCounters(s, FromSend(s, latched, env, blk).1)
  {
    var p := SendBuffer(s);
    assert KeepsCounters(s, p.s);
    if p.Going? {
      FromAwaitKeepsCounters(p.s, latched, env, blk);
    }
  }

  lemma FromAwaitKeepsCounters(s: ProcState, latched: bool, env: TxnEnv, blk: seq<Backend>)
    ensures KeepsCounters(s, FromAwait(s, latched, env, blk).1)
  {
    var p := AwaitLoaded(s);
    assert KeepsCounters(s, p.s);
    if p.Going? {
      assert KeepsCounters(p.s, Finish(p.s, latched, env, blk).1);
    }
  }
}
