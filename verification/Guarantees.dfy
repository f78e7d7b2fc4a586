/** What every run of the system guarantees. */
module Guarantees {
  import opened Wire
  import opened Storage
  import opened Metadata
  import opened Receiver
  import opened Transfer
  import opened Safety
  import opened ConnSteps
  import opened Induction
  import SessionSteps
  import Chunks
  import Messages
  import Assignment

  // ----- Safety over many sessions -------------------------------------------------------------------

  /** Metadata on the disk always decodes; it has the parameters of an honest transfer, and for
      every honest transfer it matches, each entry is the hash of that transfer's slice. */
  lemma StoredMetadataIsTrue(env: Env, run: seq<State>, t: nat)
    requires CollisionFree(env) && Run(env, run) && t < |run| && MetaFile in run[t].disk
    ensures var d := Decode(run[t].disk[MetaFile]);
            && d.Ok?
            && (exists p :: Honest(env, p) && Matches(d.value, p.ToOffer(env.h)))
            && forall p, i :: Honest(env, p) && Matches(d.value, p.ToOffer(env.h)) && i in d.value.hashes ==>
                 i < p.N() && d.value.hashes[i] == env.h(p.Slice(i))
  {
    hide Decode, Encode, Next, PhaseInv, AckedInv, ContentsOk;
    RunKeeps(env, run, t);
    var sp, keys :| Honest(env, sp) && KeysOk(sp, keys) && run[t].disk[MetaFile] == Encode(MetaFor(env.h, sp, keys));
    HonestRoundTrip(env, sp, keys);
    var m := MetaFor(env.h, sp, keys);
    assert Matches(m, sp.ToOffer(env.h));
    forall p, i | Honest(env, p) && Matches(m, p.ToOffer(env.h)) && i in m.hashes
      ensures i < p.N() && m.hashes[i] == env.h(p.Slice(i))
    {
      MatchingIsMine(env, p, sp, keys);
    }
  }

  /** In a live session the flags are the keys of the in-memory metadata, and every recorded part
      that assembly has not removed is exactly the slice of the current source, even after a failure. */
  lemma RecordedPartsAreSlices(env: Env, run: seq<State>, t: nat, i: nat)
    requires CollisionFree(env) && Run(env, run) && t < |run| && run[t].phase.Live?
    ensures var p, b := run[t].phase.p, run[t].phase.board;
            && |b.received| == p.N()
            && (Got(b, i) <==> i in b.meta.hashes)
            && (Got(b, i) && i >= Removed(run[t].phase.control) ==> PartIs(run[t].disk, p, i))
  {
    hide Next, ConnInv, SyncInv, ControlInv, DiskInv, AckedInv;
    RunKeeps(env, run, t);
    var b := run[t].phase.board;
    assert i in Messages.ReceivedSet(b.received) <==> Got(b, i);
  }

  /** What a resume finds never points beyond the flags: indexing them cannot fail. */
  lemma ResumeInBounds(env: Env, run: seq<State>, t: nat)
    requires CollisionFree(env) && Run(env, run) && t < |run| && run[t].phase.Loading? && run[t].phase.found.Some?
    ensures forall i :: i in run[t].phase.found.value.hashes ==>
              i < run[t].phase.p.N() && PartIs(run[t].disk, run[t].phase.p, i)
  {
    hide Next, DiskInv, AckedInv, OpsOk;
    RunKeeps(env, run, t);
  }

  /** A recorded part is never truncated or rewritten while its session lasts; assembly removes
      parts only after it has copied them. */
  lemma RecordedPartsAreStable(env: Env, run: seq<State>, t: nat, i: nat)
    requires CollisionFree(env) && Run(env, run) && t + 1 < |run|
    requires run[t].phase.Live? && run[t + 1].phase.Live?
    requires Got(run[t].phase.board, i) && i >= Removed(run[t + 1].phase.control)
    ensures Part(i) in run[t].disk && Part(i) in run[t + 1].disk
    ensures run[t + 1].disk[Part(i)] == run[t].disk[Part(i)]
  {
    hide Inv;
    RecordedPartsAreSlices(env, run, t, i);
    RecordedPartsAreSlices(env, run, t + 1, i);
    SameSession(env, run, t, i);
  }

  /** Within a session the parameters stay, flags are only set and parts only removed further. */
  lemma SameSession(env: Env, run: seq<State>, t: nat, i: nat)
    requires Run(env, run) && t + 1 < |run| && run[t].phase.Live? && run[t + 1].phase.Live?
    ensures run[t + 1].phase.p == run[t].phase.p
    ensures Got(run[t].phase.board, i) ==> Got(run[t + 1].phase.board, i)
    ensures Removed(run[t].phase.control) <= Removed(run[t + 1].phase.control)
  {
    hide WorkerStep, HandlerStep, ControlStep;
    var s, s' := run[t], run[t + 1];
    assert Next(env, s, s');
    if c: nat :| ConnStep(env, s, s', c) {
      var v, v' := ViewOf(s, c), ViewOf(s', c);
      if WorkerStep(env, s.phase.p, v, v') {
        WorkerFrame(env, s.phase.p, v, v');
      } else {
        HandlerFrame(env, s.phase.p, c, v, v', i);
      }
    } else if ControlStep(env, s, s') {
      ControlFrame(env, s, s');
    }
  }

  /** A handler takes messages, sets flags, and leaves the worker alone. */
  lemma HandlerFrame(env: Env, p: Params, c: nat, v: View, v': View, i: nat)
    requires HandlerStep(env, p, c, v, v')
    ensures Got(v.board, i) ==> Got(v'.board, i)
    ensures |v'.conn.c2s| <= |v.conn.c2s|
    ensures v'.conn.worker == v.conn.worker && v'.conn.ok == v.conn.ok && v'.conn.fail == v.conn.fail
  {
    hide ExecStep, Encode, Chunks.ServerSize;
  }

  lemma ControlFrame(env: Env, s: State, s': State)
    requires s.phase.Live? && ControlStep(env, s, s')
    ensures s'.phase.Live? && s'.phase.p == s.phase.p && s'.phase.conns == s.phase.conns
    ensures s'.phase.board.received == s.phase.board.received
    ensures Removed(s.phase.control) <= Removed(s'.phase.control)
  {
    hide ExecStep;
  }

  /** Two handlers never work on the same chunk, and no handler writes a recorded one. */
  lemma OneWriterPerPart(env: Env, run: seq<State>, t: nat, c: nat, d: nat)
    requires CollisionFree(env) && Run(env, run) && t < |run| && run[t].phase.Live?
    requires c < |run[t].phase.conns| && d < |run[t].phase.conns| && c != d
    requires Busy(run[t].phase.conns[c].handler) && Busy(run[t].phase.conns[d].handler)
    ensures BusyWith(run[t].phase.conns[c].handler) != BusyWith(run[t].phase.conns[d].handler)
    ensures run[t].phase.conns[c].handler.Saving? ==> !run[t].phase.conns[d].handler.Saving?
    ensures !run[t].phase.conns[c].handler.Saving? ==> !Got(run[t].phase.board, BusyWith(run[t].phase.conns[c].handler))
  {
    hide Next, SaveStage, WorkerInv, MsgInv, ListsInv, BoardInv, SyncInv, ControlInv, DiskInv, AckedInv;
    RunKeeps(env, run, t);
    var p, b, conns := run[t].phase.p, run[t].phase.board, run[t].phase.conns;
    assert ConnInv(env, p, run[t].disk, b, Removed(run[t].phase.control), |conns|, c, conns[c]);
    assert ConnInv(env, p, run[t].disk, b, Removed(run[t].phase.control), |conns|, d, conns[d]);
  }

  // ----- Acknowledgements --------------------------------------------------------------------------

  /** The save of chunk `i` has succeeded: the handler of connection `c` is about to send ACK_OK. */
  ghost predicate AckReturned(env: Env, s: State, s': State, c: nat, i: nat)
  {
    && ConnStep(env, s, s', c)
    && s.phase.conns[c].handler == Saving(i, Exec([], true)) && s'.phase.conns[c].handler == Replying(Ack(true))
  }

  /** The events after which an acknowledgement of `i` need not be honoured any more: its part is
      altered, a handshake with other parameters creates a receiver, or assembly removes parts. */
  ghost predicate Releases(env: Env, s: State, s': State, i: nat)
  {
    || Corrupt(env, s, s', Part(i))
    || (s.phase.Down? && s'.phase.Loading? && s'.phase.p != s.ackedBy)
    || (s.phase.Live? && s.phase.control.Assembling? && s.phase.control.exec.todo != []
        && s.phase.control.exec.todo[0].MustRemove?)
  }

  /** No handler ever sends ACK_OK but after a successful save. */
  lemma AckOnlyAfterSave(env: Env, s: State, s': State, c: nat)
    requires ConnStep(env, s, s', c) && s'.phase.conns[c].handler == Replying(Ack(true))
    requires s.phase.conns[c].handler != Replying(Ack(true))
    ensures exists i :: AckReturned(env, s, s', c, i)
  {
    hide ExecStep, WorkerStep, Encode, Chunks.ServerSize;
    var v, v' := ViewOf(s, c), ViewOf(s', c);
    if WorkerStep(env, s.phase.p, v, v') {
      WorkerFrame(env, s.phase.p, v, v');
      assert false;
    } else {
      assert AckReturned(env, s, s', c, v.conn.handler.i);
    }
  }

  lemma AckIsRemembered(env: Env, s: State, s': State, c: nat, i: nat)
    requires AckReturned(env, s, s', c, i)
    ensures i in s'.acked && s'.ackedBy == s.ackedBy
  {
    hide ExecStep, WorkerStep;
    var v, v' := ViewOf(s, c), ViewOf(s', c);
    if WorkerStep(env, s.phase.p, v, v') {
      WorkerFrame(env, s.phase.p, v, v');
    }
  }

  lemma AckKept(env: Env, s: State, s': State, i: nat)
    requires Next(env, s, s') && i in s.acked && !Releases(env, s, s', i)
    ensures i in s'.acked && s'.ackedBy == s.ackedBy
  {
    hide LoadPlan, ExecStep, LoadOrder, WorkerStep, HandlerStep;
    if c: nat :| ConnStep(env, s, s', c) {
      var v, v' := ViewOf(s, c), ViewOf(s', c);
      if WorkerStep(env, s.phase.p, v, v') {
        WorkerFrame(env, s.phase.p, v, v');
      } else {
        HandlerAcks(env, s.phase.p, c, v, v');
      }
    }
  }

  lemma HandlerAcks(env: Env, p: Params, c: nat, v: View, v': View)
    requires HandlerStep(env, p, c, v, v')
    ensures v.acked <= v'.acked
  {
    hide ExecStep, Encode, Chunks.ServerSize;
  }

  lemma {:induction false} AckKeptOverRun(env: Env, run: seq<State>, a: nat, b: nat, i: nat)
    requires Run(env, run) && a <= b < |run| && i in run[a].acked
    requires forall t :: a <= t < b ==> !Releases(env, run[t], run[t + 1], i)
    ensures i in run[b].acked && run[b].ackedBy == run[a].ackedBy
  {
    hide Next, Releases;
    if a < b {
      AckKeptOverRun(env, run, a, b - 1, i);
      assert Next(env, run[b - 1], run[b - 1 + 1]);
      AckKept(env, run[b - 1], run[b], i);
    }
  }

  /** Acknowledgements are durable: once ACK_OK for chunk `i` is due, before it is even sent, then whatever crashes,
      failures and sessions follow, as long as nothing releases it, the metadata on the disk lists
      `i`, its part is intact, and every session that gets a receiver has the chunk as received. */
  lemma AcksAreDurable(env: Env, run: seq<State>, a: nat, b: nat, c: nat, i: nat)
    requires CollisionFree(env) && Run(env, run) && a < b < |run|
    requires AckReturned(env, run[a], run[a + 1], c, i)
    requires forall t :: a < t < b ==> !Releases(env, run[t], run[t + 1], i)
    ensures run[a].phase.Live?
    ensures var p := run[a].phase.p;
            && PartIs(run[b].disk, p, i)
            && MetaFile in run[b].disk && Decode(run[b].disk[MetaFile]).Ok?
            && Matches(Decode(run[b].disk[MetaFile]).value, p.ToOffer(env.h))
            && i in Decode(run[b].disk[MetaFile]).value.hashes
            && (run[b].phase.Loading? ==>
                  && run[b].phase.p == p && run[b].phase.found.Some?
                  && i in run[b].phase.found.value.hashes)
            && (run[b].phase.Live? ==> run[b].phase.p == p && Got(run[b].phase.board, i))
  {
    hide Next, Inv, Releases, Decode;
    RunKeeps(env, run, a);
    AckIsRemembered(env, run[a], run[a + 1], c, i);
    AckKeptOverRun(env, run, a + 1, b, i);
    RunKeeps(env, run, b);
    LiveAckedBy(env, run[a]);
    StepKeepsParams(env, run[a], run[a + 1], c);
    AckedIsSafe(env, run[b], i);
  }

  lemma LiveAckedBy(env: Env, s: State)
    requires Inv(env, s) && s.phase.Live?
    ensures s.ackedBy == s.phase.p
  {
    hide LiveInv, DiskInv, AckedInv;
  }

  lemma StepKeepsParams(env: Env, s: State, s': State, c: nat)
    requires ConnStep(env, s, s', c)
    ensures s'.ackedBy == s.ackedBy
  {
    hide WorkerStep, HandlerStep;
  }

  /** What the invariant says of an acknowledged chunk. */
  lemma AckedIsSafe(env: Env, s: State, i: nat)
    requires CollisionFree(env) && Inv(env, s) && i in s.acked
    ensures PartIs(s.disk, s.ackedBy, i)
    ensures MetaFile in s.disk && Decode(s.disk[MetaFile]).Ok?
    ensures Matches(Decode(s.disk[MetaFile]).value, s.ackedBy.ToOffer(env.h))
              && i in Decode(s.disk[MetaFile]).value.hashes
    ensures s.phase.Loading? ==> s.phase.p == s.ackedBy && s.phase.found.Some? && i in s.phase.found.value.hashes
    ensures s.phase.Live? ==> s.phase.p == s.ackedBy && Got(s.phase.board, i)
  {
    hide Decode, Encode, ConnInv, SyncInv, ControlInv, DiskInv, OpsOk;
    var p := s.ackedBy;
    var keys :| s.acked <= keys && KeysOk(p, keys) && MetaFile in s.disk
             && s.disk[MetaFile] == Encode(MetaFor(env.h, p, keys));
    HonestRoundTrip(env, p, keys);
    if s.phase.Live? {
      assert i in Messages.ReceivedSet(s.phase.board.received);
    }
  }

  /** On every connection at most one request is unanswered, and an acknowledgement that a worker
      reads is the answer for the chunk it sent last: a positive one means that chunk is recorded. */
  lemma AcksMatchRequests(env: Env, run: seq<State>, t: nat, c: nat)
    requires CollisionFree(env) && Run(env, run) && t < |run| && run[t].phase.Live? && c < |run[t].phase.conns|
    ensures var k, b := run[t].phase.conns[c], run[t].phase.board;
            && AtMostOne(k)
            && (k.worker.WaitHave? && k.s2c != [] ==> k.s2c[0].Have?)
            && ((k.worker.Sent? || k.worker.WaitAck?) && k.s2c != [] ==>
                  k.s2c[0].Ack? && k.worker.pos < |k.mine| && (k.s2c[0].ok ==> Got(b, k.mine[k.worker.pos])))
            && (k.worker.Sending? ==> Quiet(k))
  {
    ConnOfRun(env, run, t, c);
    hide HandlerInv, ListsInv, MsgInv, DoneTo, RestKnown;
  }

  lemma ConnOfRun(env: Env, run: seq<State>, t: nat, c: nat)
    requires CollisionFree(env) && Run(env, run) && t < |run| && run[t].phase.Live? && c < |run[t].phase.conns|
    ensures var ph := run[t].phase;
            ConnInv(env, ph.p, run[t].disk, ph.board, Removed(ph.control), |ph.conns|, c, ph.conns[c])
  {
    hide Next, ConnInv, BoardInv, SyncInv, ControlInv, DiskInv, AckedInv;
    RunKeeps(env, run, t);
  }

  /** Whatever a worker reports as delivered is recorded on the server, except possibly the last
      chunk of a worker that was interrupted after sending it. */
  lemma ReportsAreTrue(env: Env, run: seq<State>, t: nat, c: nat, j: nat)
    requires CollisionFree(env) && Run(env, run) && t < |run| && run[t].phase.Live? && c < |run[t].phase.conns|
    requires j < |run[t].phase.conns[c].ok|
    ensures var k, b := run[t].phase.conns[c], run[t].phase.board;
            Got(b, k.ok[j]) || (j == |k.ok| - 1 && b.shutdown)
  {
    ConnOfRun(env, run, t, c);
    hide HandlerInv, WorkerInv, MsgInv;
  }

  /** After a failure a worker sends nothing more: its only step left is to finish. */
  lemma NothingSentAfterFailure(env: Env, run: seq<State>, t: nat, c: nat)
    requires CollisionFree(env) && Run(env, run) && t + 1 < |run| && ConnStep(env, run[t], run[t + 1], c)
    requires run[t].phase.conns[c].fail != []
    ensures var k, k' := run[t].phase.conns[c], run[t + 1].phase.conns[c];
            |k'.c2s| <= |k.c2s| && k'.ok == k.ok && k'.fail == k.fail && (k'.worker == k.worker || k'.worker.Finished?)
  {
    ConnOfRun(env, run, t, c);
    hide HandlerInv, WorkerInv, MsgInv, AtMostOne, HandlerStep;
    var s, s' := run[t], run[t + 1];
    var k := s.phase.conns[c];
    assert k.worker.Ready? || k.worker.Finished?;
    var v, v' := ViewOf(s, c), ViewOf(s', c);
    if HandlerStep(env, s.phase.p, c, v, v') {
      HandlerFrame(env, s.phase.p, c, v, v', 0);
    }
  }

  // ----- End to end ---------------------------------------------------------------------------------

  /** If every worker has finished, none reports a failure and nobody interrupted, the server has
      every chunk, although the workers queried it at different moments. */
  lemma NoFailureMeansComplete(env: Env, run: seq<State>, t: nat)
    requires CollisionFree(env) && Run(env, run) && t < |run| && run[t].phase.Live?
    requires run[t].phase.conns != [] && AllFinished(run[t].phase.conns)
    requires !SomeFailed(run[t].phase.conns) && !run[t].phase.board.shutdown
    ensures AllReceived(run[t].phase.board.received)
  {
    hide Next, Inv;
    var b, conns, n := run[t].phase.board, run[t].phase.conns, run[t].phase.p.N();
    forall i | 0 <= i < |b.received|
      ensures b.received[i]
    {
      var c := i % |conns|;
      ConnOfRun(env, run, t, c);
      assert conns[c].fail == [];
      assert i in Assignment.Assigned(n, |conns|, c);
      var j :| 0 <= j < |conns[c].mine| && conns[c].mine[j] == i;
      assert Got(b, conns[c].mine[j]);
    }
  }

  /** The final status is RESP_OK only if the output is the source, byte for byte; and assembly
      that runs to its end without a disk error always ends in RESP_OK. */
  lemma FinalStatusIsTrue(env: Env, run: seq<State>, t: nat)
    requires CollisionFree(env) && Run(env, run) && t < |run| && run[t].phase.Live?
    ensures run[t].phase.control.Status? && run[t].phase.control.ok ==> OutIs(run[t].disk, run[t].phase.p.source)
    ensures run[t].phase.control.Assembling? && run[t].phase.control.exec == Exec([], true) ==>
              forall s' :: ControlStep(env, run[t], s') ==>
                s'.phase.Live? && s'.phase.control.Status? && s'.phase.control.ok
  {
    hide Next, ConnInv, BoardInv, SyncInv, DiskInv, AckedInv, ExecStep;
    RunKeeps(env, run, t);
    if run[t].phase.control.Assembling? && run[t].phase.control.exec == Exec([], true) {
      FinishedOutput(run[t].disk, run[t].phase.p, run[t].phase.control.exec, run[t].phase.control.k);
    }
  }

  /** A complete transfer that has not failed can only go on to assembly, which starts with all
      parts in place. Only a client that is gone before its last chunk was seen can miss it. */
  lemma CompleteGoesToAssembly(env: Env, run: seq<State>, t: nat, s': State)
    requires CollisionFree(env) && Run(env, run) && t < |run| && run[t].phase.Live?
    requires ControlStep(env, run[t], s')
    ensures run[t].phase.control.Waiting? && AllReceived(run[t].phase.board.received) ==>
              s'.phase.Live? && s'.phase.control == Judged(true) && s'.disk == run[t].disk
    ensures run[t].phase.control == Judged(true) && !run[t].phase.board.failed ==>
              && s'.phase.Live? && s'.phase.control == Assembling(Exec(AssembleScript(run[t].phase.p.N()), true), 0)
              && forall i: nat :: i < run[t].phase.p.N() ==> PartIs(s'.disk, run[t].phase.p, i)
  {
    hide Next, ConnInv, SyncInv, DiskInv, AckedInv, ExecStep, AssembleStage;
    RunKeeps(env, run, t);
    if run[t].phase.control == Judged(true) {
      assert forall i: nat :: i < run[t].phase.p.N() ==> Got(run[t].phase.board, i);
    }
  }

  /** Exit code 0 of a client that was not told to stop means the output is the source. */
  lemma ExitZeroMeansDelivered(env: Env, run: seq<State>, t: nat)
    requires CollisionFree(env) && Run(env, run) && t < |run|
    requires ExitCode(run[t].phase) == Some(0)
    requires run[t].phase.Live? && run[t].phase.conns != [] ==> !run[t].phase.board.shutdown
    ensures OutIs(run[t].disk, run[t].phase.p.source)
  {
    hide Next, ConnInv, BoardInv, SyncInv, DiskInv, AckedInv;
    RunKeeps(env, run, t);
    if run[t].phase.Live? {
      FinalStatusIsTrue(env, run, t);
    }
  }

  /** An empty file never arrives: nothing is recorded, no handler ever gets as far as an acknowledgement,
      no assembly begins and no session of it ends in RESP_OK. */
  lemma EmptyFileNeverArrives(env: Env, run: seq<State>, t: nat)
    requires CollisionFree(env) && Run(env, run) && t < |run| && run[t].phase.Live? && run[t].phase.p.source == []
    ensures var b, conns, control := run[t].phase.board, run[t].phase.conns, run[t].phase.control;
            && (forall i: nat :: !Got(b, i))
            && (forall c :: 0 <= c < |conns| ==> !Busy(conns[c].handler))
            && !control.Assembling? && !(control.Status? && control.ok)
  {
    hide Next, Inv;
    RunKeeps(env, run, t);
    NothingOfEmpty(env, run[t]);
    forall c | 0 <= c < |run[t].phase.conns|
      ensures !Busy(run[t].phase.conns[c].handler)
    {
      ConnOfRun(env, run, t, c);
      NotBusy(env, run[t], c);
    }
  }

  lemma NothingOfEmpty(env: Env, s: State)
    requires Inv(env, s) && s.phase.Live? && s.phase.p.source == []
    ensures !AllReceived(s.phase.board.received) && forall i: nat :: !Got(s.phase.board, i)
    ensures !s.phase.control.Assembling? && !(s.phase.control.Status? && s.phase.control.ok)
  {
    hide ConnInv, DiskInv, AckedInv, SyncInv;
    var b := s.phase.board;
    forall i: nat
      ensures !Got(b, i)
    {
      assert Got(b, i) ==> i in Messages.ReceivedSet(b.received);
    }
    assert |b.received| == 1 && !Got(b, 0);
  }

  lemma NotBusy(env: Env, s: State, c: nat)
    requires s.phase.Live? && c < |s.phase.conns| && s.phase.p.source == []
    requires var ph := s.phase;
             ConnInv(env, ph.p, s.disk, ph.board, Removed(ph.control), |ph.conns|, c, ph.conns[c])
    requires forall i: nat :: !Got(s.phase.board, i)
    ensures !Busy(s.phase.conns[c].handler)
  {
    hide MsgInv, WorkerInv, ListsInv, SaveStage;
    assert s.phase.conns[c].handler.Saving? ==> Got(s.phase.board, s.phase.conns[c].handler.i);
  }

  // ----- Crash during assembly -------------------------------------------------------------------------

  /** From a crash anywhere in assembly, the next session of the same transfer either recognises
      the finished output, or finds exactly the parts that were not yet removed: those from `k` on,
      which are also exactly the parts on the disk. */
  lemma AssemblyCrashRecovers(env: Env, run: seq<State>, t: nat, s1: State, s2: State)
    requires CollisionFree(env) && Run(env, run) && t < |run|
    requires run[t].phase.Live? && run[t].phase.control.Assembling?
    requires Stop(run[t], s1) && Begin(env, s1, s2) && s2.phase.p == run[t].phase.p
    ensures s2.phase.Exists? ==> OutIs(s2.disk, s2.phase.p.source)
    ensures run[t].phase.control.exec == Exec([], true) ==> s2.phase.Exists?
    ensures s2.phase.Loading? ==>
              var k, n, found := run[t].phase.control.k, s2.phase.p.N(), s2.phase.found;
              && (found.None? <==> k == n)
              && (found.Some? ==> forall i: nat :: i in found.value.hashes <==> k <= i < n)
              && (forall i: nat :: i < n ==> (Part(i) in s2.disk <==> i >= k))
  {
    hide Next, ConnInv, Decode, Encode, ExecStep, LoadPlan, LoadOrder, AckedInv, AssembleStage, ContentsOk;
    RunKeeps(env, run, t);
    var s := run[t];
    var p, b, k := s.phase.p, s.phase.board, s.phase.control.k;
    if s.phase.control.exec.todo == [] {
      FinishedOutput(s.disk, p, s.phase.control.exec, k);
    }
    if s2.phase.Exists? {
      SessionSteps.ExistingIsSource(env, s.disk, p);
    } else {
      var order :| BeginLoading(env, s1, s2, p, order);
      FindRemaining(env, s.disk, s.acked, p, b, k, order);
    }
  }

  lemma FindRemaining(env: Env, fs: Files, acked: set<nat>, p: Params, b: Board, k: nat, order: seq<nat>)
    requires CollisionFree(env) && Honest(env, p) && DiskInv(env, fs) && k <= p.N()
    requires BoardInv(env, fs, acked, p, b, k) && AllReceived(b.received)
    requires MetaFile in fs && fs[MetaFile] == Encode(b.meta) && LoadOrder(fs, order)
    ensures var found := LoadPlan(env.h, fs, p.ToOffer(env.h), order).found;
            && (found.None? <==> k == p.N())
            && (found.Some? ==> forall i: nat :: i in found.value.hashes <==> k <= i < p.N())
    ensures forall i: nat :: i < p.N() ==> (Part(i) in fs <==> i >= k)
  {
    hide Decode, Encode, LoadPlan, FailedParts, GoodMeta, ContentsOk, KeySet, Distinct, PartIs, Got, AllReceived,
        AckedInv;
    var h, o, m := env.h, p.ToOffer(env.h), b.meta;
    var keys := Messages.ReceivedSet(b.received);
    AllKeys(p, b.received);
    HonestRoundTrip(env, p, keys);
    PlanCases(h, fs, o, order);
    VerifyingParts(env, fs, acked, p, b, k);
    NoneFailed(h, m, fs, order);
    SessionSteps.OrderIsKeys(order, m.hashes);
    Chunks.CeilBounds(|p.source|, p.chunkSize);
    assert k < p.N() ==> k in GoodHashes(h, m, fs);
    if FailedParts(h, m, fs, order) == [] {
      assert 0 in order;
      assert k == 0;
    }
  }

  lemma AllKeys(p: Params, received: seq<bool>)
    requires AllReceived(received) && |received| == p.N()
    ensures forall i: nat :: i in Messages.ReceivedSet(received) <==> i < p.N()
  {
  }

  /** While assembly removes parts, those that verify are exactly those that are still there. */
  lemma VerifyingParts(env: Env, fs: Files, acked: set<nat>, p: Params, b: Board, k: nat)
    requires CollisionFree(env) && Honest(env, p) && DiskInv(env, fs) && k <= p.N()
    requires BoardInv(env, fs, acked, p, b, k) && AllReceived(b.received)
    ensures forall i: nat :: i in GoodHashes(env.h, b.meta, fs) <==> k <= i < p.N()
    ensures forall i: nat :: i < p.N() ==> (Part(i) in fs <==> i >= k) && (Verifies(env.h, b.meta, fs, i) <==> i >= k)
  {
    hide GoodMeta;
    var keys := Messages.ReceivedSet(b.received);
    AllKeys(p, b.received);
    forall i: nat | i < p.N()
      ensures Part(i) in fs <==> i >= k
      ensures Verifies(env.h, b.meta, fs, i) <==> i >= k
    {
      assert i >= k ==> Got(b, i);
      SessionSteps.VerifiedIsSlice(env, fs, p, keys, i);
    }
  }
}
