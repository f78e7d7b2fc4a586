/** Assembly steps, and the induction over all steps and runs. */
module Induction {
  import opened Wire
  import opened Storage
  import opened Metadata
  import opened Receiver
  import opened Transfer
  import opened Safety
  import opened SessionSteps
  import opened ConnSteps
  import Chunks
  import Messages

  // ----- Assembly -----------------------------------------------------------------------------------

  /** What has been joined so far is a prefix of the source; all of it is the source. */
  lemma JoinedSoFar(p: Params, k: nat, off: nat)
    requires p.chunkSize > 0 && k < p.N() && off <= |p.Slice(k)|
    ensures Chunks.Joined(p.source, p.chunkSize, k) + p.Slice(k)[..off] <= p.source
    ensures Chunks.Joined(p.source, p.chunkSize, k) + p.Slice(k) == Chunks.Joined(p.source, p.chunkSize, k + 1)
    ensures k + 1 == p.N() ==> Chunks.Joined(p.source, p.chunkSize, k + 1) == p.source
  {
    hide Chunks.Slice, Chunks.Joined;
    Chunks.JoinedIsPrefix(p.source, p.chunkSize, k + 1);
    var next := Chunks.Joined(p.source, p.chunkSize, k + 1);
    assert next <= p.source;
    JoinedUnfold(p, k);
    assert Chunks.Joined(p.source, p.chunkSize, k) + p.Slice(k)[..off] <= next;
  }

  lemma JoinedUnfold(p: Params, k: nat)
    ensures Chunks.Joined(p.source, p.chunkSize, k + 1) == Chunks.Joined(p.source, p.chunkSize, k) + p.Slice(k)
  {
  }

  /** The next stage after part `k` is gone. */
  lemma NextPart(fs: Files, p: Params, k: nat)
    requires p.chunkSize > 0 && k < p.N()
    requires OutIs(fs, Chunks.Joined(p.source, p.chunkSize, k + 1))
    ensures AssembleStage(fs, p, Exec(AssembleFrom(k + 1, p.N()), true), k + 1)
  {
    hide Chunks.Slice, Chunks.Joined;
    var n := p.N();
    var out := Chunks.Joined(p.source, p.chunkSize, k + 1);
    JoinedSoFar(p, k, |p.Slice(k)|);
    if k + 1 < n {
      assert out + p.Slice(k + 1)[..0] == out;
    }
  }

  lemma FirstPart(fs: Files, p: Params)
    requires p.N() > 0 && OutIs(fs, [])
    ensures AssembleStage(fs, p, Exec(AssembleFrom(0, p.N()), true), 0)
  {
    hide Chunks.Slice;
    assert Chunks.Joined(p.source, p.chunkSize, 0) == [];
    assert [] + p.Slice(0)[..0] == [];
  }

  /** One operation of assembly: the output grows along the source, the parts go in order. */
  lemma AssembleOp(env: Env, fs: Files, fs': Files, p: Params, e: Exec, e': Exec, k: nat)
    requires CollisionFree(env) && Honest(env, p) && ContentsOk(env, fs)
    requires AssembleStage(fs, p, e, k) && e.todo != [] && ExecStep(fs, e, fs', e')
    requires k < p.N() ==> PartIs(fs, p, k)
    ensures var k' := if e.todo[0].MustRemove? && e' != FAILED then k + 1 else k;
            AssembleStage(fs', p, e', k') && SameExcept(fs, fs', {OutFile,
                if e.todo[0].MustRemove? then Part(k) else MetaFile})
    ensures ContentsOk(env, fs')
    ensures MetaFile in fs' ==> MetaFile in fs && fs'[MetaFile] == fs[MetaFile]
    ensures MetaFile in fs && e' != Exec([], true) ==> MetaFile in fs' && fs'[MetaFile] == fs[MetaFile]
    ensures e.ok && (e.todo[0].Remove? <==> k == p.N() && e.todo == [Remove(MetaFile)])
    ensures e.todo[0].MustRemove? ==> k < p.N() && (if e' == FAILED then fs' == fs else Part(k) !in fs')
    ensures !e.todo[0].Remove? && MetaFile in fs ==> MetaFile in fs' && fs'[MetaFile] == fs[MetaFile]
    ensures e'.todo == [] ==> !e'.ok || OutIs(fs', p.source)
  {
    hide Chunks.Slice, Chunks.Joined;
    var n := p.N();
    Chunks.CeilBounds(|p.source|, p.chunkSize);
    PrefixInContents(env, p, []);
    match e.todo[0]
    case Write(_, _) => StartOp(env, fs, fs', p, e, e', k);
    case Copy(_, _) => CopyOp(env, fs, fs', p, e, e', k);
    case MustRemove(_) => RemoveOp(env, fs, fs', p, e, e', k);
    case Remove(_) => assert e.todo[1..] == [];
  }

  lemma StartOp(env: Env, fs: Files, fs': Files, p: Params, e: Exec, e': Exec, k: nat)
    requires CollisionFree(env) && Honest(env, p) && ContentsOk(env, fs) && [] in env.contents && p.N() > 0
    requires AssembleStage(fs, p, e, k) && e.todo != [] && e.todo[0].Write? && ExecStep(fs, e, fs', e')
    ensures AssembleStage(fs', p, e', k) && SameExcept(fs, fs', {OutFile}) && ContentsOk(env, fs')
    ensures e.ok && e'.todo == [] ==> !e'.ok
    ensures k == 0 && e == Exec(AssembleScript(p.N()), true)
  {
    hide Chunks.Slice, Chunks.Joined;
    assert e == Exec(AssembleScript(p.N()), true);
    assert e.todo[0] == Write(OutFile, []);
    assert e.todo[1..] == AssembleFrom(0, p.N());
    if e' != FAILED && e' != e {
      FirstPart(fs', p);
    }
  }

  function Copying(p: Params, k: nat, off: nat): Exec
  {
    Exec([Copy(Part(k), off), MustRemove(Part(k))] + AssembleFrom(k + 1, p.N()), true)
  }

  /** In the middle of part `k`. */
  lemma CopyStage(fs: Files, p: Params, k: nat, off: nat)
    requires k < p.N() && off <= |p.Slice(k)|
    requires OutIs(fs, Chunks.Joined(p.source, p.chunkSize, k) + p.Slice(k)[..off])
    ensures AssembleStage(fs, p, Copying(p, k, off), k)
  {
    hide Chunks.Slice, Chunks.Joined, AssembleFrom;
  }

  /** At the end of part `k`. */
  lemma CopiedStage(fs: Files, p: Params, k: nat)
    requires k < p.N() && OutIs(fs, Chunks.Joined(p.source, p.chunkSize, k + 1))
    ensures AssembleStage(fs, p, Exec(Copying(p, k, 0).todo[1..], true), k)
  {
    hide Chunks.Slice, Chunks.Joined, AssembleFrom;
    assert Copying(p, k, 0).todo[1..] == [MustRemove(Part(k))] + AssembleFrom(k + 1, p.N());
  }

  lemma WhileCopying(fs: Files, p: Params, e: Exec, k: nat)
    requires AssembleStage(fs, p, e, k) && e.todo != [] && e.todo[0].Copy? && k < p.N()
    ensures var off := e.todo[0].off;
            e == Copying(p, k, off) && off <= |p.Slice(k)|
            && OutIs(fs, Chunks.Joined(p.source, p.chunkSize, k) + p.Slice(k)[..off])
  {
    hide Chunks.Slice, Chunks.Joined, AssembleFrom;
  }

  lemma CopyOp(env: Env, fs: Files, fs': Files, p: Params, e: Exec, e': Exec, k: nat)
    requires CollisionFree(env) && Honest(env, p) && ContentsOk(env, fs)
    requires AssembleStage(fs, p, e, k) && e.todo != [] && e.todo[0].Copy? && ExecStep(fs, e, fs', e')
    requires k < p.N() && PartIs(fs, p, k)
    ensures AssembleStage(fs', p, e', k) && SameExcept(fs, fs', {OutFile}) && ContentsOk(env, fs')
    ensures e.ok && (e'.todo == [] ==> !e'.ok)
  {
    hide Chunks.Slice, Chunks.Joined, AssembleFrom, AssembleStage, ExecStep, ContentsOk;
    WhileCopying(fs, p, e, k);
    CopyEffect(env, fs, fs', e, e', k);
    var off, slice, joined := e.todo[0].off, p.Slice(k), Chunks.Joined(p.source, p.chunkSize, k);
    JoinedSoFar(p, k, off);
    FailedStage(fs', p, k);
    if off >= |slice| {
      assert slice[..off] == slice;
      assert e.todo[1..] == Copying(p, k, 0).todo[1..];
      CopiedStage(fs', p, k);
    } else {
      var m := |fs'[OutFile]| - |fs[OutFile]|;
      JoinedSoFar(p, k, off + m);
      assert joined + slice[..off] + slice[off..off + m] == joined + slice[..off + m];
      PrefixInContents(env, p, fs'[OutFile]);
      assert e.(todo := [Copy(Part(k), off + m)] + e.todo[1..]) == Copying(p, k, off + m);
      CopyStage(fs', p, k, off + m);
    }
  }

  /** What one copy step does to the output. */
  lemma CopyEffect(env: Env, fs: Files, fs': Files, e: Exec, e': Exec, k: nat)
    requires e.todo != [] && e.todo[0].Copy? && e.todo[0].src == Part(k) && ExecStep(fs, e, fs', e')
    requires Part(k) in fs && ContentsOk(env, fs)
    ensures var part, off := fs[Part(k)], e.todo[0].off;
            if off >= |part| then fs' == fs && (e' == FAILED || e' == e.(todo := e.todo[1..]))
            else
              && OutFile in fs && OutFile in fs'
              && var m := |fs'[OutFile]| - |fs[OutFile]|;
                 && 0 <= m <= |part| - off && fs'[OutFile] == fs[OutFile] + part[off..off + m]
                 && (e' == FAILED || e' == e.(todo := [Copy(Part(k), off + m)] + e.todo[1..]))
                 && (fs'[OutFile] in env.contents ==> ContentsOk(env, fs'))
    ensures SameExcept(fs, fs', {OutFile})
  {
  }

  lemma FailedStage(fs: Files, p: Params, k: nat)
    requires k <= p.N()
    ensures AssembleStage(fs, p, FAILED, k)
  {
  }

  lemma RemoveOp(env: Env, fs: Files, fs': Files, p: Params, e: Exec, e': Exec, k: nat)
    requires Honest(env, p) && ContentsOk(env, fs)
    requires AssembleStage(fs, p, e, k) && e.todo != [] && e.todo[0].MustRemove? && ExecStep(fs, e, fs', e')
    ensures AssembleStage(fs', p, e', if e' != FAILED then k + 1 else k) && k < p.N() && e.ok
    ensures SameExcept(fs, fs', {Part(k)}) && ContentsOk(env, fs')
              && (if e' == FAILED then fs' == fs else Part(k) !in fs')
    ensures e'.todo == [] ==> !e'.ok
  {
    hide Chunks.Slice, Chunks.Joined;
    var rest := AssembleFrom(k + 1, p.N());
    assert e == Exec([MustRemove(Part(k))] + rest, true);
    assert e.todo[1..] == rest && rest != [];
    if e' != FAILED {
      NextPart(fs', p, k);
    }
  }

  /** During assembly no handler is busy, so the connections do not look at the disk. */
  lemma IdleConnKeeps(env: Env, p: Params, fs: Files, fs': Files, b: Board, b': Board, removed: nat, removed': nat,
      w: nat, c: nat, k: Conn)
    requires ConnInv(env, p, fs, b, removed, w, c, k)
    requires AllReceived(b.received) && !b.lock.ByHandler? && b' == b.(lock := b'.lock)
    ensures ConnInv(env, p, fs', b', removed', w, c, k)
  {
    hide MsgInv, WorkerInv, ListsInv, SaveStage;
    assert !Busy(k.handler);
    OtherMsg(env, p, fs, b, fs, b', w, c, k);
    OtherWorker(p, fs, b, fs, b', w, c, k);
    OtherLists(fs, b, fs, b', w, c, k);
  }

  lemma ControlKeeps(env: Env, s: State, s': State)
    requires CollisionFree(env) && Inv(env, s) && s.phase.Live? && ControlStep(env, s, s')
    ensures Inv(env, s')
  {
    hide ConnInv, BoardInv, SyncInv, ControlInv, DiskInv, AckedInv;
    var p, b, control, conns := s.phase.p, s.phase.board, s.phase.control, s.phase.conns;
    match control
    case Waiting => WaitingKeeps(env, s, s');
    case Judged(_) => WaitingKeeps(env, s, s');
    case Assembling(e, k) =>
      AssemblingShared(env, s, s');
      forall c | 0 <= c < |conns|
        ensures ConnInv(env, p, s'.disk, s'.phase.board, Removed(s'.phase.control), |conns|, c, conns[c])
      {
        IdleConnKeeps(env, p, s.disk, s'.disk, b, s'.phase.board, Removed(control), Removed(s'.phase.control),
            |conns|, c, conns[c]);
      }
    case Status(_, _) => assert false;
  }

  lemma WaitingKeeps(env: Env, s: State, s': State)
    requires Inv(env, s) && s.phase.Live? && (s.phase.control.Waiting? || s.phase.control.Judged?)
               && ControlStep(env, s, s')
    ensures Inv(env, s')
  {
    hide ConnInv, DiskInv, AckedInv, Encode, AssembleStage;
    var p, b, conns := s.phase.p, s.phase.board, s.phase.conns;
    assert AssembleStage(s.disk, p, Exec(AssembleScript(p.N()), true), 0) by { ScriptIsFirstStage(s.disk, p); }
    forall c | 0 <= c < |conns|
      ensures ConnInv(env, p, s'.disk, s'.phase.board, 0, |conns|, c, conns[c])
    {
      if s'.phase.board != b {
        IdleConnKeeps(env, p, s.disk, s'.disk, b, s'.phase.board, 0, 0, |conns|, c, conns[c]);
      }
    }
  }

  lemma ScriptIsFirstStage(fs: Files, p: Params)
    ensures AssembleStage(fs, p, Exec(AssembleScript(p.N()), true), 0)
  {
  }

  /** The shared part of the invariant, for one state. */
  ghost predicate SharedInv(env: Env, fs: Files, acked: set<nat>, p: Params, b: Board, control: Control)
  {
    && DiskInv(env, fs) && AckedInv(env, fs, p, acked)
    && BoardInv(env, fs, acked, p, b, Removed(control))
    && SyncInv(fs, b, control) && ControlInv(fs, p, b, control)
  }

  lemma AssemblingShared(env: Env, s: State, s': State)
    requires CollisionFree(env) && Inv(env, s) && s.phase.Live? && s.phase.control.Assembling?
               && ControlStep(env, s, s')
    ensures s'.phase.Live? && s'.phase == s.phase.(board := s'.phase.board, control := s'.phase.control)
              && s'.ackedBy == s.ackedBy
    ensures AllReceived(s.phase.board.received) && s.phase.board.lock.ByControl?
    ensures s'.phase.board == s.phase.board.(lock := s'.phase.board.lock) && !s'.phase.board.lock.ByHandler?
    ensures SharedInv(env, s'.disk, s'.acked, s.phase.p, s'.phase.board, s'.phase.control)
  {
    hide ConnInv, DiskInv, AckedInv, BoardInv, SyncInv, AssembleStage, ExecStep;
    var p, b, control := s.phase.p, s.phase.board, s.phase.control;
    if control.exec.todo == [] {
      var ok := s'.phase.control.ok;
      FinishedOutput(s.disk, p, control.exec, control.k);
      StatusShared(env, s.disk, s.acked, p, b, control, ok);
    } else {
      OpShared(env, s.disk, s'.disk, s.acked, p, b, control, s'.phase.control.exec);
    }
  }

  lemma StatusShared(env: Env, fs: Files, acked: set<nat>, p: Params, b: Board, control: Control, ok: bool)
    requires SharedInv(env, fs, acked, p, b, control) && control.Assembling? && control.exec.todo == []
    requires ok <==> control.exec.ok
    ensures SharedInv(env, fs, acked, p, b.(lock := Free), Status(ok, control.k))
  {
    hide DiskInv, AckedInv, Encode, AssembleStage;
    FinishedOutput(fs, p, control.exec, control.k);
  }

  lemma OpShared(env: Env, fs: Files, fs': Files, acked: set<nat>, p: Params, b: Board, control: Control, e': Exec)
    requires CollisionFree(env) && Honest(env, p)
    requires SharedInv(env, fs, acked, p, b, control) && control.Assembling? && control.exec.todo != []
    requires ExecStep(fs, control.exec, fs', e')
    ensures var must := control.exec.todo[0].MustRemove?;
            SharedInv(env, fs', if must then {} else acked, p, b,
                      Assembling(e', if must && e' != FAILED then control.k + 1 else control.k))
  {
    hide DiskInv, ContentsOk, AckedInv, SyncInv, AssembleStage, ExecStep, BoardInv;
    var e, k := control.exec, control.k;
    var must := e.todo[0].MustRemove?;
    var acked', k' := if must then {} else acked, if must && e' != FAILED then k + 1 else k;
    PartThere(env, fs, acked, p, b, k);
    assert ContentsOk(env, fs) by { ContentsOfDisk(env, fs); }
    AssembleOp(env, fs, fs', p, e, e', k);
    BoardAfterOp(env, fs, fs', acked, acked', p, b, b, k, k', if must then Part(k) else MetaFile);
    Chunks.CeilBounds(|p.source|, p.chunkSize);
    DiskAfterOp(env, fs, fs', acked, acked', p);
    SyncAfterOp(fs, fs', b, control, e', k');
  }

  lemma ContentsOfDisk(env: Env, fs: Files)
    requires DiskInv(env, fs)
    ensures ContentsOk(env, fs)
  {
  }

  lemma DiskAfterOp(env: Env, fs: Files, fs': Files, acked: set<nat>, acked': set<nat>, p: Params)
    requires DiskInv(env, fs) && AckedInv(env, fs, p, acked) && ContentsOk(env, fs')
    requires MetaFile in fs' ==> MetaFile in fs && fs'[MetaFile] == fs[MetaFile]
    requires || acked' == {}
             || (acked' == acked && SameExcept(fs, fs', {OutFile, MetaFile}) && (MetaFile in fs ==> MetaFile in fs'))
    ensures DiskInv(env, fs') && AckedInv(env, fs', p, acked')
  {
    hide GoodMeta, ContentsOk, Encode;
    if acked' == {} {
      NothingAcked(env, fs', p);
    } else {
      OtherFiles(env, fs, fs', p, acked);
    }
  }

  lemma SyncAfterOp(fs: Files, fs': Files, b: Board, control: Control, e': Exec, k': nat)
    requires SyncInv(fs, b, control) && control.Assembling? && control.exec.ok && control.exec.todo != []
    requires MetaFile in fs && e' != Exec([], true) ==> MetaFile in fs' && fs'[MetaFile] == fs[MetaFile]
    ensures SyncInv(fs', b, Assembling(e', k'))
  {
    hide Encode;
  }

  lemma PartThere(env: Env, fs: Files, acked: set<nat>, p: Params, b: Board, k: nat)
    requires BoardInv(env, fs, acked, p, b, k) && AllReceived(b.received)
    ensures |b.received| == p.N() && (k < p.N() ==> PartIs(fs, p, k))
    ensures k > 0 ==> acked == {}
    ensures b.meta == MetaFor(env.h, p, Messages.ReceivedSet(b.received))
  {
    assert k < p.N() ==> Got(b, k);
  }

  lemma BoardAfterOp(env: Env, fs: Files, fs': Files, acked: set<nat>, acked': set<nat>, p: Params, b: Board,
      b': Board, k: nat, k': nat, n: Name)
    requires BoardInv(env, fs, acked, p, b, k) && b' == b.(lock := b'.lock)
    requires SameExcept(fs, fs', {OutFile, n}) && acked' <= acked && (k' > 0 ==> acked' == {})
    requires || (n == MetaFile && k' == k)
             || (n == Part(k) && ((fs' == fs && k' == k) || (Part(k) !in fs' && k' == k + 1)))
    ensures BoardInv(env, fs', acked', p, b', k')
  {
    forall i: nat | k' <= i && Got(b', i)
      ensures PartIs(fs', p, i)
    {
      assert Got(b, i) && PartIs(fs, p, i);
      assert Part(i) !in {OutFile, n} || fs' == fs;
    }
  }

  lemma FinishedOutput(fs: Files, p: Params, e: Exec, k: nat)
    requires AssembleStage(fs, p, e, k) && e.todo == []
    ensures e.ok ==> OutIs(fs, p.source)
    ensures k <= p.N()
  {
  }

  // ----- Every step --------------------------------------------------------------------------------

  lemma InterruptKeeps(env: Env, s: State, s': State)
    requires Inv(env, s) && Interrupt(s, s')
    ensures Inv(env, s')
  {
    hide ConnInv, AssembleStage, DiskInv, AckedInv, Encode;
    var p, b, conns, control := s.phase.p, s.phase.board, s.phase.conns, s.phase.control;
    forall c | 0 <= c < |conns|
      ensures ConnInv(env, p, s.disk, s'.phase.board, Removed(control), |conns|, c, conns[c])
    {
      OtherConnKeeps(env, p, s.disk, b, s.disk, s'.phase.board, Removed(control), |conns|, c, conns[c]);
    }
  }

  lemma ConnStepKeeps(env: Env, s: State, s': State, c: nat)
    requires CollisionFree(env) && Inv(env, s) && ConnStep(env, s, s', c)
    ensures Inv(env, s')
  {
    hide WorkerStep, HandlerStep, BoardInv, SyncInv, ControlInv, DiskInv, AckedInv, ConnInv, Unseen;
    var p, b, conns, control := s.phase.p, s.phase.board, s.phase.conns, s.phase.control;
    var removed, w := Removed(control), |conns|;
    var v, v' := ViewOf(s, c), ViewOf(s', c);
    assert ViewInv(env, p, removed, w, c, v);
    if WorkerStep(env, p, v, v') {
      WorkerFrame(env, p, v, v');
      WorkerKeeps(env, p, removed, w, c, v, v');
      FlagIsNotShared(env, s.disk, s.acked, p, b, v'.board, control);
      forall d | 0 <= d < w && d != c
        ensures Unseen(v.disk, v.board, v'.disk, v'.board, w, d, conns[d])
      {
        FlagUnseen(v.disk, b, v'.board, w, d, conns[d]);
      }
    } else {
      CompleteAfterRemoval(s.disk, p, b, control);
      HandlerKeeps(env, p, removed, w, c, v, v');
      HandlerShared(env, p, s.ackedBy, removed, w, c, v, v', control);
      forall d | 0 <= d < w && d != c
        ensures Unseen(v.disk, v.board, v'.disk, v'.board, w, d, conns[d])
      {
        SaverHasLock(env, p, s.disk, b, removed, w, d, conns[d]);
        HandlerUnseen(env, p, removed, w, c, v, v', d, conns[d]);
      }
    }
    forall d | 0 <= d < w
      ensures ConnInv(env, p, s'.disk, s'.phase.board, removed, w, d, s'.phase.conns[d])
    {
      if d != c {
        OtherConnKeeps(env, p, v.disk, v.board, v'.disk, v'.board, removed, w, d, conns[d]);
      }
    }
  }

  lemma SaverHasLock(env: Env, p: Params, fs: Files, b: Board, removed: nat, w: nat, d: nat, k: Conn)
    requires ConnInv(env, p, fs, b, removed, w, d, k)
    ensures k.handler.Saving? ==> b.lock == ByHandler(d)
  {
    hide SaveStage;
  }

  lemma CompleteAfterRemoval(fs: Files, p: Params, b: Board, control: Control)
    requires ControlInv(fs, p, b, control)
    ensures Removed(control) > 0 ==> AllReceived(b.received)
  {
  }

  lemma FlagUnseen(fs: Files, b: Board, b': Board, w: nat, d: nat, k: Conn)
    requires w > 0 && b' == b.(shutdown := b'.shutdown) && (b.shutdown ==> b'.shutdown)
    ensures Unseen(fs, b, fs, b', w, d, k)
  {
  }

  lemma FlagIsNotShared(env: Env, fs: Files, acked: set<nat>, p: Params, b: Board, b': Board, control: Control)
    requires b' == b.(shutdown := b'.shutdown)
    requires BoardInv(env, fs, acked, p, b, Removed(control)) && SyncInv(fs, b, control)
               && ControlInv(fs, p, b, control)
    ensures BoardInv(env, fs, acked, p, b', Removed(control)) && SyncInv(fs, b', control)
              && ControlInv(fs, p, b', control)
  {
    hide Encode, AssembleStage;
  }

  lemma NextKeeps(env: Env, s: State, s': State)
    requires CollisionFree(env) && Inv(env, s) && Next(env, s, s')
    ensures Inv(env, s')
  {
    hide Begin, LoadStep, GoLive, ConnStep, ControlStep, Corrupt, Inv;
    if Begin(env, s, s') {
      BeginKeeps(env, s, s');
    } else if LoadStep(s, s') {
      LoadKeeps(env, s, s');
    } else if GoLive(env, s, s') {
      GoLiveKeeps(env, s, s');
    } else if c :| ConnStep(env, s, s', c) {
      ConnStepKeeps(env, s, s', c);
    } else if s.phase.Live? && ControlStep(env, s, s') {
      ControlKeeps(env, s, s');
    } else if Interrupt(s, s') {
      InterruptKeeps(env, s, s');
    } else if Stop(s, s') {
      StopKeeps(env, s, s');
    } else {
      var n :| Corrupt(env, s, s', n);
      CorruptKeeps(env, s, s', n);
    }
  }

  /** Every state of every run satisfies the invariant. */
  lemma {:induction false} RunKeeps(env: Env, run: seq<State>, t: nat)
    requires CollisionFree(env) && Run(env, run) && t < |run|
    ensures Inv(env, run[t])
  {
    hide Next;
    if t == 0 {
      NothingAcked(env, map[], run[0].ackedBy);
    } else {
      RunKeeps(env, run, t - 1);
      assert Next(env, run[t - 1], run[t - 1 + 1]);
      NextKeeps(env, run[t - 1], run[t]);
    }
  }

  /** What can happen in the middle of a session. */
  lemma LiveSteps(env: Env, s: State, s': State)
    requires Next(env, s, s') && s.phase.Live? && s'.phase.Live?
    ensures (exists c: nat :: ConnStep(env, s, s', c)) || ControlStep(env, s, s') || Interrupt(s, s')
  {
    hide ConnStep, ControlStep;
  }
}
