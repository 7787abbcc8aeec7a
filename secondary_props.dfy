/**
 * What the secondary promises: the command dispatcher's cases, the replies of a
 * checkpoint in order, the device state it loads, vmstate_loading set only around
 * the load, and the out label's choice between exiting and waiting for failover.
 */
module SecondaryProps {
  import opened Wrappers
  import opened Wire
  import opened Channel
  import opened Block
  import opened ColoState
  import opened Primary
  import opened PrimaryProps
  import opened Secondary

  /**
   * colo_wait_handle_cmd: a checkpoint is requested exactly on NEW, the shutdown spin
   * is entered exactly on GUEST_SHUTDOWN, RAM_LIVE_MIGRATE returns what loading the RAM
   * returned, and a read error or any other word returns -1.
   */
  lemma HandleCmdDispatch(s: ProcState, ramLoadRet: int, blk: seq<Backend>)
    ensures var c := HandleCmd(s, ramLoadRet, blk).0;
      var next := if s.pos < |s.input| then Some(s.input[s.pos]) else None;
      (c == Handled(0, true) <==> next == Some(Tag(New))) &&
      (c.GuestShutdownSpin? <==> next == Some(Tag(GuestShutdown))) &&
      (next == Some(Tag(RamLiveMigrate)) ==> c == Handled(ramLoadRet, false)) &&
      (c.Handled? && c.request ==> c.ret == 0) &&
      ((next.None? || !next.value.Ctl? ||
        next.value.word !in {Code(New), Code(GuestShutdown), Code(RamLiveMigrate)}) ==> c == Handled(-1, false))
  {
  }

  /** The dispatcher writes nothing, leaves the buffers alone, and consumes the word it read. */
  lemma HandleCmdFrames(s: ProcState, ramLoadRet: int, blk: seq<Backend>)
    ensures HandleCmd(s, ramLoadRet, blk).1.sent == s.sent
    ensures HandleCmd(s, ramLoadRet, blk).1.capacity == s.capacity
    ensures HandleCmd(s, ramLoadRet, blk).1.buffer == s.buffer
    ensures HandleCmd(s, ramLoadRet, blk).1.applied == s.applied
    ensures HandleCmd(s, ramLoadRet, blk).1.vmstateLoading == s.vmstateLoading
    ensures HandleCmd(s, ramLoadRet, blk).1.pos == (if s.pos < |s.input| && s.input[s.pos].Ctl? then s.pos + 1 else s.pos)
  {
    var w := Incoming(s);
    if w.Some? && w.value == Code(GuestShutdown) {
      var t := HandleCmd(s, ramLoadRet, blk).1;
      assert t == Consume(s).(vmRunning := false, log := t.log);
    }
  }

  /** A guest shutdown stops the VM, stops replication on every eligible backend and raises the shutdown. */
  lemma GuestShutdownStops(s: ProcState, ramLoadRet: int, blk: seq<Backend>)
    requires s.pos < |s.input| && s.input[s.pos] == Tag(GuestShutdown)
    ensures var t := HandleCmd(s, ramLoadRet, blk).1;
      !t.vmRunning && t.log == s.log + [Bdrv(Visits(blk, |blk|, StopRep(false))), ShutdownRequest]
  {
    assert Incoming(s) == Some(Code(GuestShutdown));
    assert StopOutcome(blk, false, [], false).1 == Visits(blk, |blk|, StopRep(false));
  }

  /** A checkpoint is waiting at pos: NEW, SEND, the size, and a byte block of that size. */
  predicate CheckpointAt(input: seq<Frame>, pos: nat)
  {
    pos + 4 <= |input| && input[pos] == Tag(New) && input[pos + 1] == Tag(Send) &&
    input[pos + 2].Ctl? && input[pos + 3].Bytes? && input[pos + 2].word == |input[pos + 3].data|
  }

  /** The frames of a transaction, read back: a checkpoint is waiting exactly when they are, and its bytes are the state sent. */
  lemma CheckpointAtFrames(input: seq<Frame>, pos: nat)
    ensures CheckpointAt(input, pos) <==>
              pos + 4 <= |input| && input[pos + 3].Bytes? && |input[pos + 3].data| < WORD_LIMIT &&
              input[pos..pos + 4] == TxnFrames(input[pos + 3].data)
  {
    if pos + 4 <= |input| && input[pos + 3].Bytes? && |input[pos + 3].data| < WORD_LIMIT {
      var w := input[pos..pos + 4];
      assert w[0] == input[pos] && w[1] == input[pos + 1] && w[2] == input[pos + 2] && w[3] == input[pos + 3];
      if CheckpointAt(input, pos) {
        assert w == TxnFrames(input[pos + 3].data);
      }
    }
  }

  /** Every collaborator of one checkpoint on the secondary reports success, and no failover is requested. */
  predicate RoundOk(r: Round, blk: seq<Backend>)
  {
    !r.failover && r.proxyCheckpointOk && r.ramLoadOk && r.bufOpenOk && r.loadOk &&
    !CheckpointOutcome(blk, r.checkpointOk).0
  }

  /** Everything an iteration needs to load a checkpoint and resume the VM. */
  predicate Accepts(s: ProcState, r: Round, blk: seq<Backend>)
  {
    s.capacity >= 3 && CheckpointAt(s.input, s.pos) && RoundOk(r, blk)
  }

  /**
   * The state after a complete checkpoint: the three replies sent, the four frames
   * read, the device state buffered and loaded, the load bracketed by vmstate_loading,
   * the disk buffer discarded, and the VM running.
   */
  function AfterCheckpoint(s: ProcState, r: Round, blk: seq<Backend>): ProcState
    requires Accepts(s, r, blk)
  {
    var state := s.input[s.pos + 3].data;
    s.(sent := s.sent + Acks(), capacity := s.capacity - 3, pos := s.pos + 4,
       buffer := state, applied := state, vmRunning := true, vmstateLoading := false,
       log := s.log + [SystemReset, VmstateLoading(true), VmstateLoading(false),
                       Bdrv(CheckpointOutcome(blk, r.checkpointOk).1)])
  }

  lemma PauseOngoing(s: ProcState, r: Round)
    ensures Pause(s, r).Ongoing? <==> !r.failover && s.capacity > 0 && r.proxyCheckpointOk
    ensures Pause(s, r).Ongoing? ==>
              Pause(s, r).s == s.(vmRunning := false, sent := s.sent + [Tag(Suspended)], capacity := s.capacity - 1)
  {
    if s.capacity > 0 {
      assert Push(s.(vmRunning := false), Tag(Suspended)).sent == s.sent + [Tag(Suspended)];
    }
  }

  lemma PauseStopped(s: ProcState, r: Round)
    ensures Pause(s, r).Stopped? ==> Pause(s, r).e == ToOut
    ensures Pause(s, r).s.sent == s.sent || Pause(s, r).s.sent == s.sent + [Tag(Suspended)]
    ensures var t := Pause(s, r).s;
      t.pos == s.pos && t.vmstateLoading == s.vmstateLoading && t.applied == s.applied && t.buffer == s.buffer
  {
    if s.capacity > 0 {
      assert Push(s.(vmRunning := false), Tag(Suspended)).sent == s.sent + [Tag(Suspended)];
    }
  }

  lemma ReceiveOngoing(s: ProcState, r: Round)
    ensures Receive(s, r).Ongoing? <==> s.pos < |s.input| && s.input[s.pos] == Tag(Send) && r.ramLoadOk
    ensures Receive(s, r).Ongoing? ==> Receive(s, r).s == s.(pos := s.pos + 1)
    ensures Receive(s, r).Stopped? && Receive(s, r).e.Desynced? <==>
              s.pos < |s.input| && s.input[s.pos].Ctl? && s.input[s.pos].word != Code(Send)
    ensures Receive(s, r).Stopped? && Receive(s, r).e.Desynced? ==>
              s.input[s.pos] == Ctl(Receive(s, r).e.received)
    ensures Receive(s, r).Stopped? && !Receive(s, r).e.Desynced? ==> Receive(s, r).e == ToOut
    ensures Receive(s, r).s == s.(pos := Receive(s, r).s.pos)
  {
    ReceiveGoes(s, r);
    ReceiveStops(s, r);
    ReceiveReadsOnly(s, r);
  }

  /** Receive carries on exactly on SEND with the RAM loaded, one frame further on. */
  lemma ReceiveGoes(s: ProcState, r: Round)
    ensures Receive(s, r).Ongoing? <==> s.pos < |s.input| && s.input[s.pos] == Tag(Send) && r.ramLoadOk
    ensures Receive(s, r).Ongoing? ==> Receive(s, r).s == s.(pos := s.pos + 1)
  {
  }

  /** Receive stops on a desync exactly when another word is waiting, and otherwise to go out. */
  lemma ReceiveStops(s: ProcState, r: Round)
    ensures Receive(s, r).Stopped? && Receive(s, r).e.Desynced? <==>
              s.pos < |s.input| && s.input[s.pos].Ctl? && s.input[s.pos].word != Code(Send)
    ensures Receive(s, r).Stopped? && Receive(s, r).e.Desynced? ==>
              s.input[s.pos] == Ctl(Receive(s, r).e.received)
    ensures Receive(s, r).Stopped? && !Receive(s, r).e.Desynced? ==> Receive(s, r).e == ToOut
  {
  }

  /** Receive moves nothing but the read position. */
  lemma ReceiveReadsOnly(s: ProcState, r: Round)
    ensures Receive(s, r).s == s.(pos := Receive(s, r).s.pos)
  {
    var t := Receive(s, r).s;
    if Incoming(s).None? {
      assert t == s;
    } else {
      assert t == Consume(s);
    }
  }


  lemma FillOngoing(s: ProcState)
    ensures Fill(s).Ongoing? <==>
              s.pos + 1 < |s.input| && s.input[s.pos].Ctl? && s.input[s.pos + 1].Bytes? &&
              s.input[s.pos].word == |s.input[s.pos + 1].data| && s.capacity > 0
    ensures Fill(s).Ongoing? ==>
              Fill(s).s == s.(pos := s.pos + 2, buffer := s.input[s.pos + 1].data,
                              sent := s.sent + [Tag(Received)], capacity := s.capacity - 1)
  {
    var size := Incoming(s);
    if size.Some? && Fits(Consume(s), size.value) {
      var s2 := Filled(Consume(s), size.value);
      if s2.capacity > 0 {
        assert Push(s2, Tag(Received)).sent == s.sent + [Tag(Received)];
      }
    }
  }

  lemma FillStopped(s: ProcState)
    ensures Fill(s).Stopped? ==> Fill(s).e == ToOut && Fill(s).s.sent == s.sent
    ensures var t := Fill(s).s;
      t.vmstateLoading == s.vmstateLoading && t.applied == s.applied && t.vmRunning == s.vmRunning
  {
    var size := Incoming(s);
    if size.Some? && Fits(Consume(s), size.value) {
      var s2 := Filled(Consume(s), size.value);
      assert s2 == s.(pos := s.pos + 2, buffer := s.input[s.pos + 1].data);
    }
  }

  /**
   * The load is bracketed: once the buffer opens, the silent reset and vmstate_loading
   * set and then cleared are logged whether or not the device state loads, the flag is
   * left clear, and the loaded state is the buffer exactly when the load succeeds.
   */
  lemma LoadBracket(s: ProcState, r: Round)
    ensures !r.bufOpenOk ==> Load(s, r) == Stopped(ToOut, s)
    ensures r.bufOpenOk ==>
              var t := Load(s, r).s;
              t.log == s.log + [SystemReset, VmstateLoading(true), VmstateLoading(false)] &&
              !t.vmstateLoading &&
              (Load(s, r).Ongoing? <==> r.loadOk) &&
              t.applied == (if r.loadOk then s.buffer else s.applied) &&
              t.(log := s.log, vmstateLoading := s.vmstateLoading, applied := s.applied) == s
    ensures Load(s, r).Stopped? ==> Load(s, r).e == ToOut
  {
    var bracket := [SystemReset, VmstateLoading(true)];
    assert s.log + bracket + [VmstateLoading(false)] == s.log + [SystemReset, VmstateLoading(true), VmstateLoading(false)];
  }

  lemma ResumeOutcome(s: ProcState, r: Round, blk: seq<Backend>)
    ensures Resume(s, r, blk).0.None? <==> !CheckpointOutcome(blk, r.checkpointOk).0 && s.capacity > 0
    ensures Resume(s, r, blk).0.Some? ==>
              Resume(s, r, blk).0 == Some(ToOut) &&
              Resume(s, r, blk).1 == s.(log := s.log + [Bdrv(CheckpointOutcome(blk, r.checkpointOk).1)])
    ensures Resume(s, r, blk).0.None? ==>
              Resume(s, r, blk).1 == s.(log := s.log + [Bdrv(CheckpointOutcome(blk, r.checkpointOk).1)],
                                        sent := s.sent + [Tag(Loaded)], capacity := s.capacity - 1, vmRunning := true)
  {
    var s1 := s.(log := s.log + [Bdrv(CheckpointOutcome(blk, r.checkpointOk).1)]);
    if s1.capacity > 0 {
      assert Push(s1, Tag(Loaded)).sent == s.sent + [Tag(Loaded)];
    }
  }

  lemma LogInTurn(log: seq<Event>, calls: seq<BdrvCall>)
    ensures log + [SystemReset, VmstateLoading(true), VmstateLoading(false)] + [Bdrv(calls)] ==
            log + [SystemReset, VmstateLoading(true), VmstateLoading(false), Bdrv(calls)]
  {
  }

  /**
   * An iteration that finds a checkpoint waiting, with every collaborator succeeding,
   * replies SUSPENDED, RECEIVED and LOADED, loads the bytes the primary sent and
   * carries on with the VM running.
   */
  lemma IterationCheckpoints(s: ProcState, r: Round, blk: seq<Backend>)
    requires Accepts(s, r, blk)
    ensures Iteration(s, r, blk) == (None, AfterCheckpoint(s, r, blk))
  {
    HandleCmdDispatch(s, r.ramLoadRet, blk);
    var s1 := Consume(s);
    assert Iteration(s, r, blk) == FromPause(s1, r, blk);
    FromPauseAccepts(s1, r, blk);
    assert [Tag(Suspended)] + [Tag(Received), Tag(Loaded)] == Acks();
  }

  lemma FromPauseAccepts(s: ProcState, r: Round, blk: seq<Backend>)
    requires s.capacity >= 3 && s.pos + 3 <= |s.input| && s.input[s.pos] == Tag(Send)
    requires s.input[s.pos + 1].Ctl? && s.input[s.pos + 2].Bytes? && s.input[s.pos + 1].word == |s.input[s.pos + 2].data|
    requires RoundOk(r, blk)
    ensures var state := s.input[s.pos + 2].data;
      FromPause(s, r, blk) ==
        (None, s.(sent := s.sent + ([Tag(Suspended)] + [Tag(Received), Tag(Loaded)]), capacity := s.capacity - 3,
                  pos := s.pos + 3, buffer := state, applied := state, vmRunning := true, vmstateLoading := false,
                  log := s.log + [SystemReset, VmstateLoading(true), VmstateLoading(false),
                                  Bdrv(CheckpointOutcome(blk, r.checkpointOk).1)]))
  {
    PauseOngoing(s, r);
    var s1 := Pause(s, r).s;
    ReceiveOngoing(s1, r);
    FromFillAccepts(Receive(s1, r).s, r, blk);
    assert s.sent + [Tag(Suspended)] + [Tag(Received), Tag(Loaded)] ==
           s.sent + ([Tag(Suspended)] + [Tag(Received), Tag(Loaded)]);
  }

  lemma FromFillAccepts(s: ProcState, r: Round, blk: seq<Backend>)
    requires s.capacity >= 2 && s.pos + 2 <= |s.input|
    requires s.input[s.pos].Ctl? && s.input[s.pos + 1].Bytes? && s.input[s.pos].word == |s.input[s.pos + 1].data|
    requires RoundOk(r, blk)
    ensures var state := s.input[s.pos + 1].data;
      FromFill(s, r, blk) ==
        (None, s.(sent := s.sent + [Tag(Received), Tag(Loaded)], capacity := s.capacity - 2, pos := s.pos + 2,
                  buffer := state, applied := state, vmRunning := true, vmstateLoading := false,
                  log := s.log + [SystemReset, VmstateLoading(true), VmstateLoading(false),
                                  Bdrv(CheckpointOutcome(blk, r.checkpointOk).1)]))
  {
    FillOngoing(s);
    FromLoadAccepts(Fill(s).s, r, blk);
    assert s.sent + [Tag(Received)] + [Tag(Loaded)] == s.sent + [Tag(Received), Tag(Loaded)];
  }

  lemma FromLoadAccepts(s: ProcState, r: Round, blk: seq<Backend>)
    requires s.capacity >= 1 && RoundOk(r, blk)
    ensures FromLoad(s, r, blk) ==
              (None, s.(sent := s.sent + [Tag(Loaded)], capacity := s.capacity - 1, applied := s.buffer,
                        vmRunning := true, vmstateLoading := false,
                        log := s.log + [SystemReset, VmstateLoading(true), VmstateLoading(false),
                                        Bdrv(CheckpointOutcome(blk, r.checkpointOk).1)]))
  {
    LoadBracket(s, r);
    ResumeOutcome(Load(s, r).s, r, blk);
    LogInTurn(s.log, CheckpointOutcome(blk, r.checkpointOk).1);
  }

  /**
   * The loop carries on after an iteration exactly when it loaded a whole checkpoint,
   * or when it took a round of live RAM whose load did not fail.
   */
  lemma IterationCarriesOn(s: ProcState, r: Round, blk: seq<Backend>)
    ensures Iteration(s, r, blk).0.None? <==>
              Accepts(s, r, blk) ||
              (s.pos < |s.input| && s.input[s.pos] == Tag(RamLiveMigrate) && r.ramLoadRet >= 0)
    ensures s.pos < |s.input| && s.input[s.pos] == Tag(RamLiveMigrate) && r.ramLoadRet >= 0 ==>
              Iteration(s, r, blk) == (None, s.(pos := s.pos + 1))
  {
    if Accepts(s, r, blk) {
      IterationCheckpoints(s, r, blk);
    } else if Iteration(s, r, blk).0.None? && !(s.pos < |s.input| && s.input[s.pos] == Tag(RamLiveMigrate)) {
      ContinuingCheckpointAccepts(s, r, blk);
    }
  }

  /** Only an iteration in which every step of the checkpoint succeeded carries on after NEW. */
  lemma ContinuingCheckpointAccepts(s: ProcState, r: Round, blk: seq<Backend>)
    requires Iteration(s, r, blk).0.None?
    requires !(s.pos < |s.input| && s.input[s.pos] == Tag(RamLiveMigrate))
    ensures Accepts(s, r, blk)
  {
    HandleCmdDispatch(s, r.ramLoadRet, blk);
    HandleCmdFrames(s, r.ramLoadRet, blk);
    assert s.input[s.pos] == Tag(New);
    var s1 := Consume(s);
    PauseOngoing(s1, r);
    assert Pause(s1, r).Ongoing?;
    var s2 := Pause(s1, r).s;
    ReceiveOngoing(s2, r);
    assert Receive(s2, r).Ongoing?;
    var s3 := Receive(s2, r).s;
    FillOngoing(s3);
    assert Fill(s3).Ongoing?;
    var s4 := Fill(s3).s;
    LoadBracket(s4, r);
    assert Load(s4, r).Ongoing?;
    ResumeOutcome(Load(s4, r).s, r, blk);
  }

  /** What an iteration has written to the control channel: a prefix of SUSPENDED, RECEIVED, LOADED. */
  predicate RepliedPrefix(before: seq<Frame>, after: seq<Frame>)
  {
    |before| <= |after| <= |before| + 3 && after == before + Acks()[..|after| - |before|]
  }

  /**
   * Whatever happens, an iteration replies in protocol order: SUSPENDED before
   * RECEIVED before LOADED, each at most once, and nothing after the first failing step.
   */
  lemma IterationRepliesInOrder(s: ProcState, r: Round, blk: seq<Backend>)
    ensures RepliedPrefix(s.sent, Iteration(s, r, blk).1.sent)
  {
    HandleCmdFrames(s, r.ramLoadRet, blk);
    var (c, s1) := HandleCmd(s, r.ramLoadRet, blk);
    if c.Handled? && c.ret >= 0 && c.request {
      FromPauseReplies(s1, r, blk);
    } else {
      assert Acks()[..0] == [] && s.sent + [] == s.sent;
    }
  }

  lemma FromPauseReplies(s: ProcState, r: Round, blk: seq<Backend>)
    ensures RepliedPrefix(s.sent, FromPause(s, r, blk).1.sent)
  {
    PauseStopped(s, r);
    PauseOngoing(s, r);
    assert Acks()[..0] == [] && s.sent + [] == s.sent;
    assert Acks()[..1] == [Tag(Suspended)];
    if Pause(s, r).Ongoing? {
      FromReceiveReplies(Pause(s, r).s, r, blk, s.sent);
    }
  }

  lemma FromReceiveReplies(s: ProcState, r: Round, blk: seq<Backend>, before: seq<Frame>)
    requires s.sent == before + Acks()[..1]
    ensures RepliedPrefix(before, FromReceive(s, r, blk).1.sent)
  {
    ReceiveOngoing(s, r);
    if Receive(s, r).Ongoing? {
      FromFillReplies(Receive(s, r).s, r, blk, before);
    }
  }

  lemma FromFillReplies(s: ProcState, r: Round, blk: seq<Backend>, before: seq<Frame>)
    requires s.sent == before + Acks()[..1]
    ensures RepliedPrefix(before, FromFill(s, r, blk).1.sent)
  {
    FillOngoing(s);
    FillStopped(s);
    if Fill(s).Ongoing? {
      assert before + Acks()[..1] + [Tag(Received)] == before + Acks()[..2];
      FromLoadReplies(Fill(s).s, r, blk, before);
    }
  }

  lemma FromLoadReplies(s: ProcState, r: Round, blk: seq<Backend>, before: seq<Frame>)
    requires s.sent == before + Acks()[..2]
    ensures RepliedPrefix(before, FromLoad(s, r, blk).1.sent)
  {
    LoadBracket(s, r);
    if Load(s, r).Ongoing? {
      ResumeOutcome(Load(s, r).s, r, blk);
      assert before + Acks()[..2] + [Tag(Loaded)] == before + Acks()[..3];
    }
  }

  /** An iteration never leaves vmstate_loading set: the flag is up only while the device state loads. */
  lemma IterationClearsLoading(s: ProcState, r: Round, blk: seq<Backend>)
    ensures Iteration(s, r, blk).1.vmstateLoading ==> s.vmstateLoading
  {
    HandleCmdDispatch(s, r.ramLoadRet, blk);
    HandleCmdFrames(s, r.ramLoadRet, blk);
    FromPauseClears(HandleCmd(s, r.ramLoadRet, blk).1, r, blk);
  }

  lemma FromPauseClears(s: ProcState, r: Round, blk: seq<Backend>)
    ensures FromPause(s, r, blk).1.vmstateLoading ==> s.vmstateLoading
  {
    PauseStopped(s, r);
    if Pause(s, r).Ongoing? {
      FromReceiveClears(Pause(s, r).s, r, blk);
    }
  }

  lemma FromReceiveClears(s: ProcState, r: Round, blk: seq<Backend>)
    ensures FromReceive(s, r, blk).1.vmstateLoading ==> s.vmstateLoading
  {
    ReceiveOngoing(s, r);
    if Receive(s, r).Ongoing? {
      FromFillClears(Receive(s, r).s, r, blk);
    }
  }

  lemma FromFillClears(s: ProcState, r: Round, blk: seq<Backend>)
    ensures FromFill(s, r, blk).1.vmstateLoading ==> s.vmstateLoading
  {
    FillStopped(s);
    if Fill(s).Ongoing? {
      LoadBracket(Fill(s).s, r);
    }
  }

  /**
   * However the loop ends, vmstate_loading is clear if it was clear on entry, so a
   * failover that arrives between iterations never waits on it; the replies only grow.
   */
  lemma {:induction false} LoopClearsLoading(s: ProcState, rounds: seq<Round>, blk: seq<Backend>)
    ensures SecondaryLoop(s, rounds, blk).1.vmstateLoading ==> s.vmstateLoading
    ensures s.sent <= SecondaryLoop(s, rounds, blk).1.sent
    decreases |rounds|
  {
    if |rounds| > 0 {
      IterationClearsLoading(s, rounds[0], blk);
      IterationRepliesInOrder(s, rounds[0], blk);
      var (e, s1) := Iteration(s, rounds[0], blk);
      if e.None? {
        LoopClearsLoading(s1, rounds[1..], blk);
      }
    }
  }

  /**
   * Start-up succeeds exactly when every collaborator does, block replication starts
   * on every eligible backend and READY can be sent; then READY is the only frame sent
   * and the VM runs.
   */
  lemma StartupMeaning(s: ProcState, env: IncomingEnv, blk: seq<Backend>)
    ensures SecondaryStartup(s, env, blk).0 <==>
              env.proxyInitOk && env.controlOpenOk && env.ramCacheOk && env.bufferAllocOk &&
              !StartOutcome(blk, false, env.startOk).0 && env.ramPrepareOk && s.capacity > 0
    ensures SecondaryStartup(s, env, blk).0 ==>
              SecondaryStartup(s, env, blk).1 ==
                s.(sent := s.sent + [Tag(Ready)], capacity := s.capacity - 1, vmRunning := true,
                   log := s.log + [Bdrv(StartOutcome(blk, false, env.startOk).1)])
    ensures !SecondaryStartup(s, env, blk).0 ==> SecondaryStartup(s, env, blk).1.sent == s.sent
    ensures SecondaryStartup(s, env, blk).1.vmstateLoading == s.vmstateLoading
  {
    var s1 := s.(log := s.log + [Bdrv(StartOutcome(blk, false, env.startOk).1)]);
    if s1.capacity > 0 {
      assert Push(s1, Tag(Ready)).sent == s.sent + [Tag(Ready)];
    }
  }

  /**
   * The out label exits the secondary only when no failover was requested at either
   * look, after the grace sleep and with the proxy destroyed; otherwise it waits for
   * the failover, and it sleeps exactly when the first look found no request.
   */
  lemma OutPathMeaning(s: ProcState, atOut: bool, afterGrace: bool)
    ensures OutPath(s, atOut, afterGrace).0 == SvmExit <==> !atOut && !afterGrace
    ensures OutPath(s, atOut, afterGrace).0 != SvmExit ==> OutPath(s, atOut, afterGrace).0 == AwaitTakeover
    ensures OutPath(s, atOut, afterGrace).1.log ==
              s.log + (if atOut then [] else [Slept(GRACE_SLEEP)]) +
              (if !atOut && !afterGrace then [ProxyDestroy(SecondaryMode)] else [])
    ensures OutPath(s, atOut, afterGrace).1 == s.(log := OutPath(s, atOut, afterGrace).1.log)
  {
    if atOut {
      assert s.log + [] + [] == s.log;
    } else if afterGrace {
      assert s.log + [Slept(GRACE_SLEEP)] + [] == s.log + [Slept(GRACE_SLEEP)];
    }
  }

  /**
   * The incoming thread never exits while a failover is requested, leaves
   * vmstate_loading as it found it at every end, and reaches its out label (exit or
   * wait) only by start-up failure or an iteration that left the loop for it.
   */
  lemma IncomingEnds(s: ProcState, env: IncomingEnv, rounds: seq<Round>, atOut: bool, afterGrace: bool, blk: seq<Backend>)
    ensures var (f, t) := ProcessIncoming(s, env, rounds, atOut, afterGrace, blk);
      (atOut || afterGrace ==> f != SvmExit) &&
      (t.vmstateLoading ==> s.vmstateLoading) &&
      (f == SvmExit || f == AwaitTakeover <==>
         !SecondaryStartup(s, env, blk).0 ||
         SecondaryLoop(SecondaryStartup(s, env, blk).1, rounds, blk).0 == Some(ToOut))
  {
    var (started, s1) := SecondaryStartup(s, env, blk);
    StartupMeaning(s, env, blk);
    if !started {
      OutPathMeaning(s1, atOut, afterGrace);
    } else {
      LoopClearsLoading(s1, rounds, blk);
      var (e, s2) := SecondaryLoop(s1, rounds, blk);
      OutPathMeaning(s2, atOut, afterGrace);
    }
  }
}
