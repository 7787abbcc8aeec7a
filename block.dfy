/**
 * The block-replication fan-out helpers of migration/colo.c
 * (blk_start_replication, blk_do_checkpoint, blk_stop_replication).
 * Each walks the list of block backends, skips read-only or empty ones,
 * and calls into the block layer, whose outcome for the call on backend i
 * is an input. The result is whether an error was propagated and the
 * calls made, in order.
 */
module Block {
  import opened Wrappers

  datatype Backend = Backend(readOnly: bool, inserted: bool)

  /** A backend the helpers act on: writable and with a medium inserted. */
  predicate Eligible(b: Backend)
  {
    !b.readOnly && b.inserted
  }

  datatype Op =
    | StartRep(primary: bool)       // bdrv_start_replication, primary or secondary mode
    | DoCheckpoint                  // bdrv_do_checkpoint
    | StopRep(failover: bool)       // bdrv_stop_replication

  datatype BdrvCall = BdrvCall(op: Op, dev: nat)

  /** Outcome oracle: ok[i] says whether the call on backend i succeeds; backends past its end succeed. */
  predicate Fails(ok: seq<bool>, i: nat)
  {
    i < |ok| && !ok[i]
  }

  /** The calls `op` makes on the eligible backends among the first n, in list order. */
  function Visits(blk: seq<Backend>, n: nat, op: Op): (r: seq<BdrvCall>)
    requires n <= |blk|
    ensures forall j | 0 <= j < |r| :: r[j].op == op && r[j].dev < n && Eligible(blk[r[j].dev])
    ensures forall d | 0 <= d < n && Eligible(blk[d]) :: BdrvCall(op, d) in r
    ensures forall i, j | 0 <= i < j < |r| :: r[i].dev < r[j].dev
  {
    if n == 0 then []
    else Visits(blk, n - 1, op) + (if Eligible(blk[n - 1]) then [BdrvCall(op, n - 1)] else [])
  }

  /** The calls `op` makes on every one of the first n backends, eligible or not, in list order. */
  function VisitsAll(n: nat, op: Op): (r: seq<BdrvCall>)
    ensures |r| == n
    ensures forall j | 0 <= j < n :: r[j] == BdrvCall(op, j)
  {
    if n == 0 then [] else VisitsAll(n - 1, op) + [BdrvCall(op, n - 1)]
  }

  /** The first eligible backend among the first n whose call fails. */
  function FirstFailure(blk: seq<Backend>, ok: seq<bool>, n: nat): (r: Option<nat>)
    requires n <= |blk|
    ensures r.Some? ==> r.value < n && Eligible(blk[r.value]) && Fails(ok, r.value)
    ensures r.Some? ==> forall j | 0 <= j < r.value :: Eligible(blk[j]) ==> !Fails(ok, j)
    ensures r.None? <==> forall j | 0 <= j < n :: Eligible(blk[j]) ==> !Fails(ok, j)
  {
    if n == 0 then None
    else
      match FirstFailure(blk, ok, n - 1)
      case Some(k) => Some(k)
      case None => if Eligible(blk[n - 1]) && Fails(ok, n - 1) then Some(n - 1) else None
  }

  /**
   * blk_start_replication: starts every eligible backend in order; on the first failure
   * it reports the error and stops every backend before the failing one, eligible or
   * not, and none after it.
   */
  function StartOutcome(blk: seq<Backend>, primary: bool, ok: seq<bool>): (bool, seq<BdrvCall>)
  {
    match FirstFailure(blk, ok, |blk|)
    case None => (false, Visits(blk, |blk|, StartRep(primary)))
    case Some(k) => (true, Visits(blk, k + 1, StartRep(primary)) + VisitsAll(k, StopRep(false)))
  }

  /** blk_do_checkpoint: checkpoints eligible backends in order and stops at the first failure. */
  function CheckpointOutcome(blk: seq<Backend>, ok: seq<bool>): (bool, seq<BdrvCall>)
  {
    match FirstFailure(blk, ok, |blk|)
    case None => (false, Visits(blk, |blk|, DoCheckpoint))
    case Some(k) => (true, Visits(blk, k + 1, DoCheckpoint))
  }

  /**
   * blk_stop_replication: with an error pointer (reportErrors) it stops at the first
   * failure; without one it stops every eligible backend and reports nothing.
   */
  function StopOutcome(blk: seq<Backend>, failover: bool, ok: seq<bool>, reportErrors: bool): (bool, seq<BdrvCall>)
  {
    if !reportErrors then (false, Visits(blk, |blk|, StopRep(failover)))
    else
      match FirstFailure(blk, ok, |blk|)
      case None => (false, Visits(blk, |blk|, StopRep(failover)))
      case Some(k) => (true, Visits(blk, k + 1, StopRep(failover)))
  }

  method StartReplication(blk: seq<Backend>, primary: bool, ok: seq<bool>) returns (failed: bool, calls: seq<BdrvCall>)
    ensures (failed, calls) == StartOutcome(blk, primary, ok)
  {
    calls := [];
    var i := 0;
    while i < |blk|
      invariant i <= |blk|
      invariant FirstFailure(blk, ok, i) == None
      invariant calls == Visits(blk, i, StartRep(primary))
    {
      if Eligible(blk[i]) {
        calls := calls + [BdrvCall(StartRep(primary), i)];
        if Fails(ok, i) {
          assert FirstFailure(blk, ok, i + 1) == Some(i);
          var stops := StopPredecessors(i);
          calls := calls + stops;
          return true, calls;
        }
      }
      i := i + 1;
    }
    return false, calls;
  }

  /** The rollback loop of blk_start_replication: stop every backend before the failing one. */
  method StopPredecessors(k: nat) returns (calls: seq<BdrvCall>)
    ensures calls == VisitsAll(k, StopRep(false))
  {
    calls := [];
    var j := 0;
    while j < k
      invariant j <= k
      invariant calls == VisitsAll(j, StopRep(false))
    {
      calls := calls + [BdrvCall(StopRep(false), j)];
      j := j + 1;
    }
  }

  method DoCheckpointAll(blk: seq<Backend>, ok: seq<bool>) returns (failed: bool, calls: seq<BdrvCall>)
    ensures (failed, calls) == CheckpointOutcome(blk, ok)
  {
    calls := [];
    var i := 0;
    while i < |blk|
      invariant i <= |blk|
      invariant FirstFailure(blk, ok, i) == None
      invariant calls == Visits(blk, i, DoCheckpoint)
    {
      if Eligible(blk[i]) {
        calls := calls + [BdrvCall(DoCheckpoint, i)];
        if Fails(ok, i) {
          return true, calls;
        }
      }
      i := i + 1;
    }
    return false, calls;
  }

  method StopReplication(blk: seq<Backend>, failover: bool, ok: seq<bool>, reportErrors: bool)
    returns (failed: bool, calls: seq<BdrvCall>)
    ensures (failed, calls) == StopOutcome(blk, failover, ok, reportErrors)
  {
    calls := [];
    var i := 0;
    while i < |blk|
      invariant i <= |blk|
      invariant reportErrors ==> FirstFailure(blk, ok, i) == None
      invariant calls == Visits(blk, i, StopRep(failover))
    {
      if Eligible(blk[i]) {
        calls := calls + [BdrvCall(StopRep(failover), i)];
        if reportErrors && Fails(ok, i) {
          return true, calls;
        }
      }
      i := i + 1;
    }
    return false, calls;
  }

  /**
   * The rollback of a failed start stops exactly the backends before the failing one:
   * each of them once, none at or after it, and nothing is called beyond the failing backend.
   */
  lemma StartRollback(blk: seq<Backend>, primary: bool, ok: seq<bool>, k: nat)
    requires FirstFailure(blk, ok, |blk|) == Some(k)
    ensures StartOutcome(blk, primary, ok).0
    ensures forall d | 0 <= d < k :: BdrvCall(StopRep(false), d) in StartOutcome(blk, primary, ok).1
    ensures forall c | c in StartOutcome(blk, primary, ok).1 :: c.dev <= k
    ensures forall c | c in StartOutcome(blk, primary, ok).1 && c.op.StopRep? :: c.dev < k
    ensures BdrvCall(StartRep(primary), k) in StartOutcome(blk, primary, ok).1
  {
    var starts := Visits(blk, k + 1, StartRep(primary));
    var stops := VisitsAll(k, StopRep(false));
    assert StartOutcome(blk, primary, ok).1 == starts + stops;
    forall d | 0 <= d < k
      ensures BdrvCall(StopRep(false), d) in starts + stops
    {
      assert stops[d] == BdrvCall(StopRep(false), d);
    }
  }

  /** Without an error pointer every eligible backend is stopped whatever the outcomes, and no error is reported. */
  lemma StopWithoutErrpVisitsAll(blk: seq<Backend>, failover: bool, ok: seq<bool>)
    ensures !StopOutcome(blk, failover, ok, false).0
    ensures forall d | 0 <= d < |blk| && Eligible(blk[d]) ::
              BdrvCall(StopRep(failover), d) in StopOutcome(blk, failover, ok, false).1
    ensures forall c | c in StopOutcome(blk, failover, ok, false).1 :: Eligible(blk[c.dev])
  {
  }

  /** A checkpoint reports an error exactly when some eligible backend fails, and never calls a backend after the first failing one. */
  lemma CheckpointStopsAtFailure(blk: seq<Backend>, ok: seq<bool>)
    ensures CheckpointOutcome(blk, ok).0 <==> exists d | 0 <= d < |blk| :: Eligible(blk[d]) && Fails(ok, d)
    ensures CheckpointOutcome(blk, ok).0 ==>
              forall c | c in CheckpointOutcome(blk, ok).1 :: c.dev <= FirstFailure(blk, ok, |blk|).value
  {
  }
}
