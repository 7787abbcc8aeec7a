/**
 * The failover bottom half of migration/colo.c: colo_do_failover stops the VM and
 * hands over to the side's own failover, the secondary's (slave_do_failover) or
 * the primary's (master_do_failover), and then marks the failover completed.
 */
module Failover {
  import opened Wrappers
  import opened Wire
  import opened Block
  import opened ColoState

  /** What the collaborators of a failover report. */
  datatype FailoverEnv = FailoverEnv(
    stopOk: seq<bool>,            // bdrv_stop_replication(failover) per backend
    incomingCoroutine: bool)      // migration_incoming_co is set on the secondary

  /** How a failover ends: done, or held by the secondary's wait for the device state load to finish. */
  datatype FailoverResult = Done | WaitingForLoad

  /** migrate_set_state: the status moves from `from` to `to` only if it is `from` now. */
  function SetState(current: MigrationStatus, from: MigrationStatus, to: MigrationStatus): (r: MigrationStatus)
    ensures r == to <==> current == from || current == to
    ensures r != to ==> r == current
  {
    if current == from then to else current
  }

  /**
   * slave_do_failover: it waits while vmstate_loading is set; then it switches the
   * proxy over, destroys it, stops block replication for failover, forces autostart
   * on and resumes the incoming migration coroutine when there is one.
   */
  function SlaveFailover(s: ProcState, env: FailoverEnv, blk: seq<Backend>): (FailoverResult, ProcState)
  {
    if s.vmstateLoading then (WaitingForLoad, s)
    else
      // a failing colo_proxy_failover or block stop is only reported
      var calls := StopOutcome(blk, true, env.stopOk, true).1;
      var s1 := s.(autostart := true, log := s.log + [ProxyFailover, ProxyDestroy(SecondaryMode), Bdrv(calls)]);
      if env.incomingCoroutine then (Done, s1.(log := s1.log + [IncomingResumed])) else (Done, s1)
  }

  /**
   * master_do_failover: the VM stopped, the proxy destroyed, the migration marked
   * COMPLETED from COLO unless it has FAILED, block replication stopped for failover,
   * and the VM started again.
   */
  function MasterFailover(s: ProcState, env: FailoverEnv, blk: seq<Backend>): ProcState
  {
    var s1 := s.(vmRunning := false, log := s.log + [ProxyDestroy(PrimaryMode)]);
    var s2 := if s1.status != Failed then s1.(status := SetState(s1.status, Colo, Completed)) else s1;
    var calls := StopOutcome(blk, true, env.stopOk, true).1;
    s2.(vmRunning := true, log := s2.log + [Bdrv(calls)])
  }

  /** colo_do_failover: the VM stopped, the side's failover, then failover_completed set once it is done. */
  function ColoFailover(s: ProcState, mode: ColoMode, env: FailoverEnv, blk: seq<Backend>): (FailoverResult, ProcState)
  {
    var s1 := s.(vmRunning := false);
    if mode == SecondaryMode then
      var (r, s2) := SlaveFailover(s1, env, blk);
      if r == Done then (Done, s2.(failoverCompleted := true)) else (r, s2)
    else (Done, MasterFailover(s1, env, blk).(failoverCompleted := true))
  }

  method SlaveDoFailover(p: ColoProcess, env: FailoverEnv, blk: seq<Backend>) returns (r: FailoverResult)
    modifies p
    ensures (r, p.State()) == SlaveFailover(old(p.State()), env, blk)
  {
    // wait for the incoming thread to finish loading the device state
    if p.vmstateLoading {
      return WaitingForLoad;
    }
    ghost var log0 := p.log;
    p.log := p.log + [ProxyFailover, ProxyDestroy(SecondaryMode)];
    var _, calls := StopReplication(blk, true, env.stopOk, true);
    p.log := p.log + [Bdrv(calls)];
    assert p.log == log0 + [ProxyFailover, ProxyDestroy(SecondaryMode), Bdrv(calls)];
    if !p.autostart {
      // "-S" is ignored on the secondary
      p.autostart := true;
    }
    if env.incomingCoroutine {
      p.log := p.log + [IncomingResumed];
    }
    return Done;
  }

  method MasterDoFailover(p: ColoProcess, env: FailoverEnv, blk: seq<Backend>)
    modifies p
    ensures p.State() == MasterFailover(old(p.State()), env, blk)
  {
    if p.vmRunning {
      p.vmRunning := false;
    }
    p.log := p.log + [ProxyDestroy(PrimaryMode)];
    if p.status != Failed {
      p.status := SetState(p.status, Colo, Completed);
    }
    var _, calls := StopReplication(blk, true, env.stopOk, true);
    p.log := p.log + [Bdrv(calls)];
    p.vmRunning := true;
  }

  method DoColoFailover(p: ColoProcess, env: FailoverEnv, blk: seq<Backend>) returns (r: FailoverResult)
    modifies p
    ensures (r, p.State()) == ColoFailover(old(p.State()), p.mode, env, blk)
  {
    // make sure the VM is stopped during failover
    if p.vmRunning {
      p.vmRunning := false;
    }
    if p.mode == SecondaryMode {
      r := SlaveDoFailover(p, env, blk);
      if r == WaitingForLoad {
        return;
      }
    } else {
      MasterDoFailover(p, env, blk);
      r := Done;
    }
    p.failoverCompleted := true;
  }

  /**
   * A failover completes, and sets failover_completed, unless it is the secondary's and
   * the device state is still loading; then it has only stopped the VM and waits.
   */
  lemma FailoverCompletes(s: ProcState, mode: ColoMode, env: FailoverEnv, blk: seq<Backend>)
    ensures ColoFailover(s, mode, env, blk).0 == Done <==> !(mode == SecondaryMode && s.vmstateLoading)
    ensures ColoFailover(s, mode, env, blk).0 == Done ==> ColoFailover(s, mode, env, blk).1.failoverCompleted
    ensures ColoFailover(s, mode, env, blk).0 == WaitingForLoad ==>
              ColoFailover(s, mode, env, blk).1 == s.(vmRunning := false)
  {
  }

  /**
   * The primary's failover marks the migration COMPLETED exactly when it was in COLO
   * (a FAILED migration stays FAILED, any other status is left alone), records the
   * proxy destroyed and the failover stop, and leaves the VM running.
   */
  lemma MasterMarksCompleted(s: ProcState, mode: ColoMode, env: FailoverEnv, blk: seq<Backend>)
    requires mode != SecondaryMode
    ensures var t := ColoFailover(s, mode, env, blk).1;
      (t.status == Completed <==> s.status == Colo || s.status == Completed) &&
      (s.status != Colo ==> t.status == s.status) &&
      t.vmRunning && t.failoverCompleted &&
      t.log == s.log + [ProxyDestroy(PrimaryMode), Bdrv(StopOutcome(blk, true, env.stopOk, true).1)] &&
      t.(status := s.status, vmRunning := s.vmRunning, failoverCompleted := s.failoverCompleted, log := s.log) == s
  {
    MasterEffect(s.(vmRunning := false), env, blk);
  }

  lemma MasterEffect(s: ProcState, env: FailoverEnv, blk: seq<Backend>)
    ensures var t := MasterFailover(s, env, blk);
      t.status == (if s.status == Colo then Completed else s.status) && t.vmRunning &&
      t.log == s.log + [ProxyDestroy(PrimaryMode), Bdrv(StopOutcome(blk, true, env.stopOk, true).1)] &&
      t.(status := s.status, vmRunning := s.vmRunning, log := s.log) == s
  {
    var calls := StopOutcome(blk, true, env.stopOk, true).1;
    assert s.log + [ProxyDestroy(PrimaryMode)] + [Bdrv(calls)] == s.log + [ProxyDestroy(PrimaryMode), Bdrv(calls)];
  }

  /**
   * The secondary's failover, once no load is in progress: proxy failover and destroy
   * and the failover stop recorded in that order, the incoming coroutine resumed when
   * there is one, autostart forced on, the VM left stopped and the status unchanged.
   */
  lemma SlaveTakesOver(s: ProcState, env: FailoverEnv, blk: seq<Backend>)
    requires !s.vmstateLoading
    ensures var t := ColoFailover(s, SecondaryMode, env, blk).1;
      t.log == s.log + [ProxyFailover, ProxyDestroy(SecondaryMode), Bdrv(StopOutcome(blk, true, env.stopOk, true).1)] +
                       (if env.incomingCoroutine then [IncomingResumed] else []) &&
      t.autostart && !t.vmRunning && t.failoverCompleted && t.status == s.status &&
      t.(autostart := s.autostart, vmRunning := s.vmRunning, failoverCompleted := s.failoverCompleted, log := s.log) == s
  {
    var calls := StopOutcome(blk, true, env.stopOk, true).1;
    if !env.incomingCoroutine {
      assert s.log + [ProxyFailover, ProxyDestroy(SecondaryMode), Bdrv(calls)] + [] ==
             s.log + [ProxyFailover, ProxyDestroy(SecondaryMode), Bdrv(calls)];
    }
  }

  /**
   * Either side's failover stops replication for failover on the eligible backends in
   * list order, up to and including the first one that fails.
   */
  lemma FailoverStopsReplication(blk: seq<Backend>, env: FailoverEnv)
    ensures var calls := StopOutcome(blk, true, env.stopOk, true).1;
      (forall c | c in calls :: c.op == StopRep(true) && Eligible(blk[c.dev])) &&
      (FirstFailure(blk, env.stopOk, |blk|).None? ==>
         forall d | 0 <= d < |blk| && Eligible(blk[d]) :: BdrvCall(StopRep(true), d) in calls) &&
      (FirstFailure(blk, env.stopOk, |blk|).Some? ==>
         forall c | c in calls :: c.dev <= FirstFailure(blk, env.stopOk, |blk|).value)
  {
  }
}
