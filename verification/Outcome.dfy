/** The client's exit code when chunks have failed. */
module Outcome {
  import opened Wire
  import opened Storage
  import opened Metadata
  import opened Transfer
  import Chunks
  import Safety
  import ConnSteps
  import Induction
  import Guarantees

  /** A session that went live at `a` and still is at `t`. */
  ghost predicate Session(env: Env, run: seq<State>, a: nat, t: nat)
  {
    && Run(env, run) && 0 < a <= t < |run| && GoLive(env, run[a - 1], run[a])
    && forall u :: a <= u <= t ==> run[u].phase.Live?
  }

  ghost predicate Interrupted(run: seq<State>, a: nat, t: nat)
  {
    exists u :: a <= u < t < |run| && run[u].phase.Live? && Interrupt(run[u], run[u + 1])
  }

  predicate PastQuery(w: Worker)
  {
    w.Ready? || w.Opening? || w.Sending? || w.Sent? || w.WaitAck?
  }

  predicate BeforeAnswer(w: Worker)
  {
    w.Start? || w.Connecting? || w.WaitHave?
  }

  ghost predicate PastQueryAt(run: seq<State>, u: nat, c: nat)
  {
    u < |run| && run[u].phase.Live? && c < |run[u].phase.conns| && PastQuery(run[u].phase.conns[c].worker)
  }

  /** At some moment of the session the worker had the answer to its query. */
  ghost predicate GotThrough(run: seq<State>, a: nat, t: nat, c: nat)
  {
    exists u :: a <= u <= t && PastQueryAt(run, u, c)
  }

  /** A worker that got through reports a failed chunk. */
  ghost predicate FailedLate(run: seq<State>, a: nat, t: nat, c: nat)
    requires t < |run| && run[t].phase.Live?
  {
    c < |run[t].phase.conns| && run[t].phase.conns[c].fail != [] && GotThrough(run, a, t, c)
  }

  /** What is known of connection `c` at `t`. */
  ghost predicate ConnSoFar(run: seq<State>, a: nat, t: nat, c: nat)
    requires t < |run| && run[t].phase.Live? && c < |run[t].phase.conns|
  {
    var k := run[t].phase.conns[c];
    && (BeforeAnswer(k.worker) ==> k.fail == [] && !GotThrough(run, a, t, c))
    && (FailedLate(run, a, t, c) ==> run[t].phase.board.shutdown)
  }

  ghost predicate SoFar(run: seq<State>, a: nat, t: nat)
    requires t < |run| && run[t].phase.Live?
  {
    && (forall c: nat :: c < |run[t].phase.conns| ==> ConnSoFar(run, a, t, c))
    && (Interrupted(run, a, t) ==> run[t].phase.board.shutdown)
    && (run[t].phase.board.shutdown ==> Interrupted(run, a, t) || exists c :: FailedLate(run, a, t, c))
  }

  // ----- One step ------------------------------------------------------------------------------------

  /** How a worker's step changes its list of failures and the flag. */
  lemma WorkerFails(env: Env, p: Params, v: View, v': View)
    requires WorkerStep(env, p, v, v') && forall j :: 0 <= j < |v.conn.mine| ==> InReach(p, v.conn.mine[j])
    ensures v.conn.fail <= v'.conn.fail
    ensures BeforeAnswer(v'.conn.worker) ==> BeforeAnswer(v.conn.worker) && v'.conn.fail == v.conn.fail
    ensures PastQuery(v'.conn.worker) ==> BeforeAnswer(v.conn.worker) || PastQuery(v.conn.worker)
    ensures BeforeAnswer(v.conn.worker) && PastQuery(v'.conn.worker) ==> v'.conn.fail == v.conn.fail
    ensures v'.conn.fail != v.conn.fail ==> BeforeAnswer(v.conn.worker) || v'.board.shutdown
    ensures v'.board.shutdown && !v.board.shutdown ==> PastQuery(v.conn.worker) && v'.conn.fail != []
    ensures v.board.shutdown ==> v'.board.shutdown
  {
    hide InReach;
  }

  lemma MineInReach(env: Env, run: seq<State>, t: nat, c: nat)
    requires CollisionFree(env) && Run(env, run) && t < |run| && run[t].phase.Live? && c < |run[t].phase.conns|
    ensures var p, mine := run[t].phase.p, run[t].phase.conns[c].mine;
            forall j :: 0 <= j < |mine| ==> InReach(p, mine[j])
  {
    hide Safety.Inv, InReach;
    Guarantees.ConnOfRun(env, run, t, c);
    Induction.RunKeeps(env, run, t);
    Safety.HonestLive(env, run[t]);
    var p, mine := run[t].phase.p, run[t].phase.conns[c].mine;
    forall j | 0 <= j < |mine|
      ensures InReach(p, mine[j])
    {
      ConnSteps.AllInReach(env, p, mine[j]);
    }
  }

  lemma GotThroughStep(run: seq<State>, a: nat, t: nat, c: nat)
    requires a <= t
    ensures GotThrough(run, a, t + 1, c) <==> GotThrough(run, a, t, c) || PastQueryAt(run, t + 1, c)
  {
    hide PastQueryAt;
    if u :| a <= u <= t + 1 && PastQueryAt(run, u, c) {
      assert u == t + 1 || GotThrough(run, a, t, c);
    }
  }

  lemma InterruptedStep(run: seq<State>, a: nat, t: nat)
    requires a <= t && t + 1 < |run|
    ensures Interrupted(run, a, t + 1) <==>
              Interrupted(run, a, t) || (run[t].phase.Live? && Interrupt(run[t], run[t + 1]))
  {
    hide Interrupt;
    if u :| a <= u < t + 1 && run[u].phase.Live? && Interrupt(run[u], run[u + 1]) {
      assert u == t || Interrupted(run, a, t);
    }
  }

  /** Nothing that matters here has changed on connection `c`. */
  lemma SameConn(run: seq<State>, a: nat, t: nat, c: nat)
    requires a <= t && t + 1 < |run| && run[t].phase.Live? && run[t + 1].phase.Live?
    requires c < |run[t].phase.conns| == |run[t + 1].phase.conns|
    requires var k, k' := run[t].phase.conns[c], run[t + 1].phase.conns[c]; k'.worker == k.worker && k'.fail == k.fail
    requires run[t].phase.board.shutdown ==> run[t + 1].phase.board.shutdown
    requires ConnSoFar(run, a, t, c)
    ensures ConnSoFar(run, a, t + 1, c)
    ensures FailedLate(run, a, t, c) ==> FailedLate(run, a, t + 1, c)
  {
    hide GotThrough;
    GotThroughStep(run, a, t, c);
    assert PastQueryAt(run, t + 1, c) ==> GotThrough(run, a, t, c) by {
      assert PastQueryAt(run, t + 1, c) ==> PastQueryAt(run, t, c);
      Witnessed(run, a, t, c);
    }
  }

  lemma Witnessed(run: seq<State>, a: nat, t: nat, c: nat)
    requires a <= t
    ensures PastQueryAt(run, t, c) ==> GotThrough(run, a, t, c)
  {
  }

  /** The connection whose worker moves. */
  lemma MovedConn(env: Env, run: seq<State>, a: nat, t: nat, c: nat)
    requires CollisionFree(env) && Session(env, run, a, t + 1) && a <= t && c < |run[t].phase.conns|
    requires c < |run[t + 1].phase.conns| && ConnSoFar(run, a, t, c)
    requires WorkerStep(env, run[t].phase.p, ViewOf(run[t], c), ViewOf(run[t + 1], c))
    ensures ConnSoFar(run, a, t + 1, c)
    ensures FailedLate(run, a, t, c) ==> FailedLate(run, a, t + 1, c)
    ensures run[t + 1].phase.board.shutdown && !run[t].phase.board.shutdown ==> FailedLate(run, a, t + 1, c)
    ensures run[t].phase.board.shutdown ==> run[t + 1].phase.board.shutdown
  {
    hide GotThrough, WorkerStep;
    MineInReach(env, run, t, c);
    WorkerFails(env, run[t].phase.p, ViewOf(run[t], c), ViewOf(run[t + 1], c));
    GotThroughStep(run, a, t, c);
    Witnessed(run, a, t, c);
  }

  /** What is known of all connections stays known. */
  ghost predicate Carried(run: seq<State>, a: nat, t: nat, t': nat)
    requires t < |run| && run[t].phase.Live? && t' < |run| && run[t'].phase.Live?
  {
    && (forall c: nat :: c < |run[t'].phase.conns| ==> ConnSoFar(run, a, t', c))
    && (forall c: nat :: FailedLate(run, a, t, c) ==> FailedLate(run, a, t', c))
    && (run[t].phase.board.shutdown ==> run[t'].phase.board.shutdown)
  }

  lemma SoFarStep(env: Env, run: seq<State>, a: nat, t: nat)
    requires CollisionFree(env) && Session(env, run, a, t + 1) && a <= t && SoFar(run, a, t)
    ensures SoFar(run, a, t + 1)
  {
    hide ConnSoFar, FailedLate, Interrupted, WorkerStep, HandlerStep, ControlStep, GoLive;
    var s, s', t' := run[t], run[t + 1], t + 1;
    assert Next(env, run[t], run[t + 1]);
    Induction.LiveSteps(env, s, s');
    InterruptedStep(run, a, t);
    if d: nat :| ConnStep(env, s, s', d) {
      StepOfConn(env, run, a, t, t', d);
    } else {
      if ControlStep(env, s, s') {
        ControlKeepsFlag(env, s, s');
      }
      AllSame(run, a, t, t');
    }
    assert Carried(run, a, t, t');
  }

  lemma ControlKeepsFlag(env: Env, s: State, s': State)
    requires s.phase.Live? && ControlStep(env, s, s')
    ensures s'.phase.Live? && s'.phase.conns == s.phase.conns && s'.phase.board.shutdown == s.phase.board.shutdown
  {
    hide ExecStep;
  }

  lemma AllSame(run: seq<State>, a: nat, t: nat, t': nat)
    requires a <= t && t' == t + 1 < |run| && run[t].phase.Live? && run[t'].phase.Live?
    requires run[t'].phase.conns == run[t].phase.conns
    requires run[t].phase.board.shutdown ==> run[t'].phase.board.shutdown
    requires forall c: nat :: c < |run[t].phase.conns| ==> ConnSoFar(run, a, t, c)
    ensures Carried(run, a, t, t')
  {
    hide ConnSoFar;
    forall c: nat | c < |run[t].phase.conns|
      ensures ConnSoFar(run, a, t', c) && (FailedLate(run, a, t, c) ==> FailedLate(run, a, t', c))
    {
      SameConn(run, a, t, c);
    }
  }

  lemma StepOfConn(env: Env, run: seq<State>, a: nat, t: nat, t': nat, d: nat)
    requires CollisionFree(env) && t' == t + 1 && Session(env, run, a, t') && a <= t && SoFar(run, a, t)
    requires ConnStep(env, run[t], run[t'], d)
    ensures Carried(run, a, t, t')
    ensures run[t'].phase.board.shutdown && !run[t].phase.board.shutdown ==> FailedLate(run, a, t', d)
  {
    hide ConnSoFar, GotThrough, WorkerStep, HandlerStep, Interrupted, GoLive;
    var s, s' := run[t], run[t'];
    var v, v' := ViewOf(s, d), ViewOf(s', d);
    assert ConnSoFar(run, a, t, d);
    if WorkerStep(env, s.phase.p, v, v') {
      MovedConn(env, run, a, t, d);
    } else {
      HandlerKeepsFlag(env, s.phase.p, d, v, v');
      SameConn(run, a, t, d);
    }
    forall c: nat | c < |s.phase.conns|
      ensures ConnSoFar(run, a, t', c) && (FailedLate(run, a, t, c) ==> FailedLate(run, a, t', c))
    {
      if c != d {
        SameConn(run, a, t, c);
      }
    }
  }

  lemma HandlerKeepsFlag(env: Env, p: Params, c: nat, v: View, v': View)
    requires HandlerStep(env, p, c, v, v')
    ensures v'.board.shutdown == v.board.shutdown
    ensures v'.conn.worker == v.conn.worker && v'.conn.fail == v.conn.fail
  {
    hide ExecStep, Encode, Chunks.ServerSize;
  }

  // ----- Whole sessions ----------------------------------------------------------------------------------

  lemma {:induction false} SessionSoFar(env: Env, run: seq<State>, a: nat, t: nat)
    requires CollisionFree(env) && Session(env, run, a, t)
    ensures SoFar(run, a, t)
  {
    hide SoFar;
    if t == a {
      SessionStart(env, run, a);
    } else {
      SessionSoFar(env, run, a, t - 1);
      SoFarStep(env, run, a, t - 1);
    }
  }

  lemma SessionStart(env: Env, run: seq<State>, a: nat)
    requires Session(env, run, a, a)
    ensures SoFar(run, a, a)
  {
    var conns := run[a].phase.conns;
    forall c: nat | c < |conns|
      ensures conns[c].worker == Start && conns[c].fail == [] && !GotThrough(run, a, a, c)
    {
    }
  }

  /** When every worker is done and chunks have failed, the exit code is 0, as after an interrupt, iff
      the user interrupted or some worker that reports a failure had the answer to its query. Code 1
      is left for the case that every failing worker could not connect or query. */
  lemma FailedChunkExitsZero(env: Env, run: seq<State>, a: nat, t: nat)
    requires CollisionFree(env) && Session(env, run, a, t)
    requires AllFinished(run[t].phase.conns) && SomeFailed(run[t].phase.conns)
    ensures ExitCode(run[t].phase) ==
              Some(if Interrupted(run, a, t) || exists c :: FailedLate(run, a, t, c) then 0 else 1)
  {
    hide FailedLate, Interrupted, ConnSoFar;
    SessionSoFar(env, run, a, t);
    if c :| FailedLate(run, a, t, c) {
      LateRaises(run, a, t, c);
    }
  }

  lemma LateRaises(run: seq<State>, a: nat, t: nat, c: nat)
    requires t < |run| && run[t].phase.Live? && SoFar(run, a, t) && FailedLate(run, a, t, c)
    ensures run[t].phase.board.shutdown
  {
    hide GotThrough;
    assert ConnSoFar(run, a, t, c);
  }

  /** The client waits for nothing but the final status of the server. */
  ghost predicate AwaitsStatus(phase: Phase)
  {
    && phase.Live?
    && (phase.conns == []
        || (AllFinished(phase.conns) && !SomeFailed(phase.conns) && !phase.board.shutdown))
  }

  /** The exit code is 0 or 1 once it is decided. Without a session's end in sight there is none; a client
      that waits for the final status exits with 0 on RESP_OK and with 1 on RESP_ERR. */
  lemma ExitCodeIs(phase: Phase)
    ensures ExitCode(phase).Some? ==> ExitCode(phase).value == 0 || ExitCode(phase).value == 1
    ensures phase.Exists? ==> ExitCode(phase) == Some(0)
    ensures ExitCode(phase) == Some(1) ==>
              phase.Live? && (SomeFailed(phase.conns) || (phase.control.Status? && !phase.control.ok))
    ensures AwaitsStatus(phase) ==>
              && (ExitCode(phase).Some? <==> phase.control.Status?)
              && (ExitCode(phase) == Some(0) <==> phase.control.Status? && phase.control.ok)
              && (ExitCode(phase) == Some(1) <==> phase.control.Status? && !phase.control.ok)
    ensures phase.Live? && phase.conns != [] && !AllFinished(phase.conns) ==> ExitCode(phase).None?
    ensures phase.Down? || phase.Loading? ==> ExitCode(phase).None?
  {
  }

  /** For a client that waits for the final status, in every run: code 0 exactly if the server ended with
      RESP_OK, and then the output is the source. */
  lemma ConfirmedExit(env: Env, run: seq<State>, t: nat)
    requires CollisionFree(env) && Run(env, run) && t < |run| && AwaitsStatus(run[t].phase)
    ensures var ph, code := run[t].phase, ExitCode(run[t].phase);
            && (code.Some? <==> ph.control.Status?)
            && (code == Some(if ph.control.Status? && ph.control.ok then 0 else 1) <==> ph.control.Status?)
            && (code == Some(0) ==> Safety.OutIs(run[t].disk, ph.p.source))
            && (code == Some(0) && ph.conns != [] ==> AllReceived(ph.board.received))
  {
    hide Next, Safety.Inv;
    ExitCodeIs(run[t].phase);
    if ExitCode(run[t].phase) == Some(0) {
      Guarantees.FinalStatusIsTrue(env, run, t);
      if run[t].phase.conns != [] {
        Guarantees.NoFailureMeansComplete(env, run, t);
      }
    }
  }
}
