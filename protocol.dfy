/**
 * The two sides together: what a primary transaction writes is what a secondary
 * iteration reads, and what the secondary replies is what the transaction reads;
 * and a secondary between iterations never holds a failover back.
 */
module Protocol {
  import opened Wrappers
  import opened Wire
  import opened Block
  import opened ColoState
  import opened Primary
  import opened PrimaryProps
  import opened Secondary
  import opened SecondaryProps
  import opened Failover

  /**
   * A checkpoint round trip. When a transaction succeeds and the secondary finds on its
   * stream the frames that transaction wrote, the secondary (with its own collaborators
   * succeeding) loads exactly the device state the primary saved, carries on with its
   * loop, and replies exactly the acknowledgements the transaction consumed.
   */
  lemma CheckpointRoundTrip(s: ProcState, env: TxnEnv, blk: seq<Backend>, q: ProcState, r: Round, qblk: seq<Backend>)
    requires Succeeds(s, env, blk)
    requires q.pos + 4 <= |q.input| && Transaction(s, env, blk).1.sent == s.sent + q.input[q.pos..q.pos + 4]
    requires q.capacity >= 3 && RoundOk(r, qblk)
    ensures Iteration(q, r, qblk).0 == None
    ensures Iteration(q, r, qblk).1.applied == env.deviceState.value == Transaction(s, env, blk).1.buffer
    ensures Iteration(q, r, qblk).1.sent == q.sent + s.input[s.pos..s.pos + 3]
  {
    TransactionSucceeds(s, env, blk);
    var state := env.deviceState.value;
    CancelPrefix(s.sent, TxnFrames(state), q.input[q.pos..q.pos + 4]);
    assert q.input[q.pos + 3] == q.input[q.pos..q.pos + 4][3] == Bytes(state);
    CheckpointAtFrames(q.input, q.pos);
    assert Accepts(q, r, qblk);
    IterationCheckpoints(q, r, qblk);
  }

  lemma CancelPrefix(a: seq<Frame>, b: seq<Frame>, c: seq<Frame>)
    requires a + b == a + c
    ensures b == c
  {
    assert (a + b)[|a|..] == b;
    assert (a + c)[|a|..] == c;
  }

  /**
   * vmstate_loading is set only inside an iteration: a secondary that has run its
   * start-up, any number of iterations and its out label from a state without a load
   * in progress lets a failover complete.
   */
  lemma FailoverNeverHeldAfterIterations(s: ProcState, env: IncomingEnv, rounds: seq<Round>, atOut: bool,
                                         afterGrace: bool, blk: seq<Backend>, fenv: FailoverEnv)
    requires !s.vmstateLoading
    ensures var t := ProcessIncoming(s, env, rounds, atOut, afterGrace, blk).1;
      ColoFailover(t, SecondaryMode, fenv, blk).0 == Done &&
      ColoFailover(t, SecondaryMode, fenv, blk).1.failoverCompleted
  {
    IncomingEnds(s, env, rounds, atOut, afterGrace, blk);
    FailoverCompletes(ProcessIncoming(s, env, rounds, atOut, afterGrace, blk).1, SecondaryMode, fenv, blk);
  }
}
