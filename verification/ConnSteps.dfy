/** The steps of workers and handlers keep the invariant. */
module ConnSteps {
  import opened Wire
  import opened Storage
  import opened Metadata
  import opened Receiver
  import opened Transfer
  import opened Safety
  import SessionSteps
  import Chunks
  import Messages
  import Assignment

  // ----- The other connections -----------------------------------------------------------------------

  /** Nothing that matters to connection `d` has changed. */
  ghost predicate Unseen(fs: Files, b: Board, fs': Files, b': Board, w: nat, d: nat, k: Conn)
    requires w > 0
  {
    && |b'.received| == |b.received|
    && (forall i: nat :: i < |b.received| && i % w == d ==> b'.received[i] == b.received[i])
    && (forall i: nat :: i % w == d ==> Alike(fs, fs', Part(i)))
    && (b.failed ==> b'.failed) && (b.shutdown ==> b'.shutdown)
    && (k.handler.Saving? ==>
          && b'.lock == b.lock && b'.meta == b.meta
          && Alike(fs, fs', TmpFile) && Alike(fs, fs', MetaFile))
  }

  ghost predicate Alike(fs: Files, fs': Files, n: Name)
  {
    (n in fs <==> n in fs') && (n in fs && n in fs' ==> fs[n] == fs'[n])
  }

  lemma OtherConnKeeps(env: Env, p: Params, fs: Files, b: Board, fs': Files, b': Board, removed: nat, w: nat, d: nat,
      k: Conn)
    requires w > 0 && ConnInv(env, p, fs, b, removed, w, d, k) && Unseen(fs, b, fs', b', w, d, k)
    ensures ConnInv(env, p, fs', b', removed, w, d, k)
  {
    OtherMsg(env, p, fs, b, fs', b', w, d, k);
    OtherHandler(env, p, fs, b, fs', b', removed, w, d, k);
    OtherWorker(p, fs, b, fs', b', w, d, k);
    OtherLists(fs, b, fs', b', w, d, k);
  }

  lemma OtherMsg(env: Env, p: Params, fs: Files, b: Board, fs': Files, b': Board, w: nat, d: nat, k: Conn)
    requires w > 0 && MsgInv(env, p, b, w, d, k) && Unseen(fs, b, fs', b', w, d, k)
    ensures MsgInv(env, p, b', w, d, k)
  {
  }

  lemma OtherHandler(env: Env, p: Params, fs: Files, b: Board, fs': Files, b': Board, removed: nat, w: nat, d: nat,
      k: Conn)
    requires w > 0 && HandlerInv(env, p, fs, b, removed, w, d, k.handler) && Unseen(fs, b, fs', b', w, d, k)
    ensures HandlerInv(env, p, fs', b', removed, w, d, k.handler)
  {
    hide Encode;
    if k.handler.Written? {
      assert Alike(fs, fs', Part(k.handler.i));
    }
  }

  lemma OtherWorker(p: Params, fs: Files, b: Board, fs': Files, b': Board, w: nat, d: nat, k: Conn)
    requires w > 0 && WorkerInv(p, b, w, d, k) && Unseen(fs, b, fs', b', w, d, k)
    requires forall j :: 0 <= j < |k.mine| ==> Mine(b, w, d, k.mine[j])
    ensures WorkerInv(p, b', w, d, k)
  {
    assert forall j :: 0 <= j < |k.mine| ==> Got(b', k.mine[j]) == Got(b, k.mine[j]);
  }

  lemma OtherLists(fs: Files, b: Board, fs': Files, b': Board, w: nat, d: nat, k: Conn)
    requires w > 0 && ListsInv(b, w, d, k) && Unseen(fs, b, fs', b', w, d, k)
    ensures ListsInv(b', w, d, k)
  {
  }

  // ----- Worker steps ----------------------------------------------------------------------------------

  lemma MineRises(env: Env, p: Params, fs: Files, b: Board, removed: nat, w: nat, c: nat, k: Conn)
    requires ConnInv(env, p, fs, b, removed, w, c, k)
    ensures forall i, j :: 0 <= i < j < |k.mine| ==> k.mine[i] < k.mine[j]
    ensures forall j :: 0 <= j < |k.mine| ==> Mine(b, w, c, k.mine[j])
  {
    Assignment.AssignedRising(p.N(), w, c);
    assert Increasing(k.mine);
  }

  ghost predicate ViewInv(env: Env, p: Params, removed: nat, w: nat, c: nat, v: View)
  {
    ConnInv(env, p, v.disk, v.board, removed, w, c, v.conn)
  }

  /** A worker changes its own connection and may set the shutdown flag, nothing else. */
  lemma WorkerFrame(env: Env, p: Params, v: View, v': View)
    requires WorkerStep(env, p, v, v')
    ensures v'.disk == v.disk && v'.acked == v.acked && v'.conn.handler == v.conn.handler && v'.conn.mine == v.conn.mine
    ensures v'.board == v.board.(shutdown := v'.board.shutdown) && (v.board.shutdown ==> v'.board.shutdown)
  {
  }

  lemma GaveUpKeeps(env: Env, p: Params, removed: nat, w: nat, c: nat, v: View, k: Conn, pos: nat, already: set<nat>)
    requires w > 0 && pos < |k.mine| && Mine(v.board, w, c, k.mine[pos])
    requires ViewInv(env, p, removed, w, c, v)
    requires k.mine == v.conn.mine && k.ok == v.conn.ok && k.fail == v.conn.fail && k.handler == v.conn.handler
    requires AtMostOne(k) && MsgInv(env, p, v.board, w, c, k)
    requires !v.conn.worker.Ready? && !v.conn.worker.Finished?
    ensures ViewInv(env, p, removed, w, c, GaveUp(v, k, pos, already))
  {
    hide Encode, SaveStage;
  }

  lemma DeliveredKeeps(env: Env, p: Params, removed: nat, w: nat, c: nat, v: View, k: Conn, pos: nat, already: set<nat>)
    requires w > 0 && pos < |k.mine| && Mine(v.board, w, c, k.mine[pos])
    requires ViewInv(env, p, removed, w, c, v)
    requires k.mine == v.conn.mine && k.ok == v.conn.ok && k.fail == v.conn.fail && k.handler == v.conn.handler
    requires AtMostOne(k) && MsgInv(env, p, v.board, w, c, k)
    requires v.conn.worker.Sent? || v.conn.worker.WaitAck?
    requires v.board.shutdown ||
             (&& Got(v.board, k.mine[pos]) && Quiet(k) && DoneTo(v.board, k.mine, pos)
              && RestKnown(v.board, k.mine, pos + 1, already))
    ensures ViewInv(env, p, removed, w, c, Delivered(v, k, pos, already))
  {
    hide Encode, SaveStage, HandlerInv;
  }

  lemma WorkerKeeps(env: Env, p: Params, removed: nat, w: nat, c: nat, v: View, v': View)
    requires Honest(env, p) && ViewInv(env, p, removed, w, c, v) && WorkerStep(env, p, v, v')
    ensures ViewInv(env, p, removed, w, c, v')
  {
    MineRises(env, p, v.disk, v.board, removed, w, c, v.conn);
    match v.conn.worker
    case Start => StartKeeps(env, p, removed, w, c, v, v');
    case Connecting => ConnectingKeeps(env, p, removed, w, c, v, v');
    case WaitHave => WaitHaveKeeps(env, p, removed, w, c, v, v');
    case Ready(_, _) => ReadyKeeps(env, p, removed, w, c, v, v');
    case Opening(_, _) => OpeningKeeps(env, p, removed, w, c, v, v');
    case Sending(_, _, _, _) => SendingKeeps(env, p, removed, w, c, v, v');
    case Sent(_, _, _, _) => SentKeeps(env, p, removed, w, c, v, v');
    case WaitAck(_, _, _, _) => WaitAckKeeps(env, p, removed, w, c, v, v');
    case Finished => assert false;
  }

  lemma StartKeeps(env: Env, p: Params, removed: nat, w: nat, c: nat, v: View, v': View)
    requires ViewInv(env, p, removed, w, c, v) && WorkerStep(env, p, v, v') && v.conn.worker.Start?
    ensures ViewInv(env, p, removed, w, c, v')
  {
    hide HandlerInv, RestKnown, DoneTo, InFlight;
  }

  lemma ConnectingKeeps(env: Env, p: Params, removed: nat, w: nat, c: nat, v: View, v': View)
    requires ViewInv(env, p, removed, w, c, v) && WorkerStep(env, p, v, v') && v.conn.worker.Connecting?
    ensures ViewInv(env, p, removed, w, c, v')
  {
    hide HandlerInv, RestKnown, InFlight;
  }

  lemma WaitHaveKeeps(env: Env, p: Params, removed: nat, w: nat, c: nat, v: View, v': View)
    requires ViewInv(env, p, removed, w, c, v) && WorkerStep(env, p, v, v') && v.conn.worker.WaitHave?
    ensures ViewInv(env, p, removed, w, c, v')
  {
    hide HandlerInv, WorkerInv, AtMostOne;
    if v'.conn.worker.Ready? {
      ReplyRead(p, v.board, w, c, v.conn, v'.conn);
    } else {
      GaveUpAtOnce(p, v.board, w, c, v.conn, v'.conn);
    }
  }

  lemma ReplyRead(p: Params, b: Board, w: nat, c: nat, k: Conn, k': Conn)
    requires w > 0 && WorkerInv(p, b, w, c, k) && k.worker.WaitHave? && AtMostOne(k) && k.s2c != []
    requires k' == k.(worker := Ready(0, ReadHave(k.s2c[0])), s2c := k.s2c[1..])
    ensures WorkerInv(p, b, w, c, k') && AtMostOne(k')
  {
    hide RestKnown;
  }

  lemma GaveUpAtOnce(p: Params, b: Board, w: nat, c: nat, k: Conn, k': Conn)
    requires w > 0 && k' == k.(worker := Finished, fail := k.fail + k.mine) && AtMostOne(k)
    ensures WorkerInv(p, b, w, c, k') && AtMostOne(k')
  {
  }

  lemma AllInReach(env: Env, p: Params, i: nat)
    requires Honest(env, p) && i < p.N()
    ensures InReach(p, i)
  {
    Chunks.SidesAgreeIff(p.chunkSize, |p.source|, i);
  }

  lemma ReadyKeeps(env: Env, p: Params, removed: nat, w: nat, c: nat, v: View, v': View)
    requires Honest(env, p) && ViewInv(env, p, removed, w, c, v) && WorkerStep(env, p, v, v')
    requires v.conn.worker.Ready?
    ensures ViewInv(env, p, removed, w, c, v')
  {
    hide Encode, SaveStage, HandlerInv, InReach;
    MineRises(env, p, v.disk, v.board, removed, w, c, v.conn);
    var pos := v.conn.worker.pos;
    if pos < |v.conn.mine| {
      AllInReach(env, p, v.conn.mine[pos]);
    }
  }

  lemma OpeningKeeps(env: Env, p: Params, removed: nat, w: nat, c: nat, v: View, v': View)
    requires ViewInv(env, p, removed, w, c, v) && WorkerStep(env, p, v, v')
    requires v.conn.worker.Opening?
    ensures ViewInv(env, p, removed, w, c, v')
  {
    hide Encode, SaveStage, HandlerInv;
    var pos, already := v.conn.worker.pos, v.conn.worker.already;
    MineRises(env, p, v.disk, v.board, removed, w, c, v.conn);
    GaveUpKeeps(env, p, removed, w, c, v, v.conn, pos, already);
  }

  lemma SendingKeeps(env: Env, p: Params, removed: nat, w: nat, c: nat, v: View, v': View)
    requires ViewInv(env, p, removed, w, c, v) && WorkerStep(env, p, v, v')
    requires v.conn.worker.Sending?
    ensures ViewInv(env, p, removed, w, c, v')
  {
    hide Encode, SaveStage, HandlerInv;
    var k := v.conn;
    var pos, already := k.worker.pos, k.worker.already;
    MineRises(env, p, v.disk, v.board, removed, w, c, k);
    GaveUpKeeps(env, p, removed, w, c, v, k, pos, already);
  }

  lemma SentKeeps(env: Env, p: Params, removed: nat, w: nat, c: nat, v: View, v': View)
    requires ViewInv(env, p, removed, w, c, v) && WorkerStep(env, p, v, v')
    requires v.conn.worker.Sent?
    ensures ViewInv(env, p, removed, w, c, v')
  {
    hide Encode, SaveStage, HandlerInv;
    var k := v.conn;
    var pos, already := k.worker.pos, k.worker.already;
    MineRises(env, p, v.disk, v.board, removed, w, c, k);
    GaveUpKeeps(env, p, removed, w, c, v, k, pos, already);
    if v.board.shutdown {
      DeliveredKeeps(env, p, removed, w, c, v, k, pos, already);
    }
  }

  lemma WaitAckKeeps(env: Env, p: Params, removed: nat, w: nat, c: nat, v: View, v': View)
    requires ViewInv(env, p, removed, w, c, v) && WorkerStep(env, p, v, v')
    requires v.conn.worker.WaitAck?
    ensures ViewInv(env, p, removed, w, c, v')
  {
    hide Encode, SaveStage, HandlerInv;
    var k := v.conn;
    var pos, already := k.worker.pos, k.worker.already;
    MineRises(env, p, v.disk, v.board, removed, w, c, k);
    GaveUpKeeps(env, p, removed, w, c, v, k, pos, already);
    if k.s2c != [] {
      var got := k.(s2c := k.s2c[1..]);
      if k.s2c[0].ok {
        DeliveredKeeps(env, p, removed, w, c, v, got, pos, already);
      }
    }
  }

  // ----- Handler steps ---------------------------------------------------------------------------------

  /** The answer to a chunk is decided. */
  lemma AnswerKeeps(env: Env, p: Params, removed: nat, w: nat, c: nat, v: View, k: Conn, ok: bool)
    requires w > 0 && |v.board.received| == p.N() && c < w
    requires k.mine == Assignment.Assigned(p.N(), w, c) && ListsInv(v.board, w, c, k) && WorkerInv(p, v.board, w, c, k)
    requires k.c2s == [] && k.s2c == [] && k.handler.Check?
    requires k.worker.Sent? || k.worker.WaitAck? ==>
               if ok then Got(v.board, k.mine[k.worker.pos])
               else !v.board.failed ==> !Got(v.board, k.mine[k.worker.pos])
    requires k.worker.Sent? || k.worker.WaitAck? || (v.board.shutdown && k.worker.Ready?) || k.worker.Finished?
    ensures ViewInv(env, p, removed, w, c, v.(conn := k.(handler := Replying(Ack(ok)))))
  {
    hide Encode, SaveStage;
  }

  /** The handler moves between idle states without touching the connection. */
  lemma IdleKeeps(env: Env, p: Params, removed: nat, w: nat, c: nat, v: View, h: Handler)
    requires ViewInv(env, p, removed, w, c, v)
    requires !Engaged(v.conn.handler) && !Engaged(h)
    requires Listening(h, v.board.failed) ==> Listening(v.conn.handler, v.board.failed)
    ensures ViewInv(env, p, removed, w, c, v.(conn := v.conn.(handler := h)))
  {
    hide Encode, SaveStage, RestKnown, DoneTo;
    var k := v.conn.(handler := h);
    assert AtMostOne(k) && MsgInv(env, p, v.board, w, c, k);
    assert WorkerInv(p, v.board, w, c, k);
  }

  lemma RecvQueryKeeps(env: Env, p: Params, removed: nat, w: nat, c: nat, v: View, v': View)
    requires ViewInv(env, p, removed, w, c, v) && RecvNow(env, p, v, v')
    requires v.conn.c2s[0].Query?
    ensures ViewInv(env, p, removed, w, c, v')
  {
    hide Encode, SaveStage;
    MineRises(env, p, v.disk, v.board, removed, w, c, v.conn);
    var have := Messages.ReceivedSet(v.board.received);
    assert forall i: nat :: Got(v.board, i) <==> i in have;
    hide Messages.ReceivedSet;
    assert RestKnown(v.board, v.conn.mine, 0, have);
    hide RestKnown, DoneTo, Got;
  }

  /** A handler that is receiving takes the message at the head of the connection. */
  ghost predicate RecvNow(env: Env, p: Params, v: View, v': View)
  {
    v.conn.handler.Recv? && v.conn.c2s != [] && RecvStep(env, p, v, v')
  }

  /** The server accepts the length of the whole slice and no other; of an empty file, none. */
  lemma SliceSize(p: Params, i: nat)
    requires p.chunkSize > 0 && i < p.N()
    ensures var size := Chunks.ServerSize(p.chunkSize, p.N(), |p.source|, i);
            if 0 < |p.source| then size == Some(|p.Slice(i)|) else p.Slice(i) == [] && size != Some(0)
  {
    Chunks.SidesAgreeIff(p.chunkSize, |p.source|, i);
    if 0 < |p.source| {
      Chunks.SizeAgreement(p.source, p.chunkSize, i);
    }
  }

  lemma RecvChunkKeeps(env: Env, p: Params, removed: nat, w: nat, c: nat, v: View, v': View)
    requires Honest(env, p) && ViewInv(env, p, removed, w, c, v) && RecvNow(env, p, v, v')
    requires v.conn.c2s[0].Chunk?
    ensures ViewInv(env, p, removed, w, c, v')
  {
    hide Encode, SaveStage, RestKnown, DoneTo, Chunks.ServerSize, Chunks.Slice;
    var m := v.conn.c2s[0];
    SliceSize(p, m.i);
    assert |m.data| == |p.Slice(m.i)| ==> m.data == p.Slice(m.i);
  }

  lemma WriteKeeps(env: Env, p: Params, removed: nat, w: nat, c: nat, v: View, v': View)
    requires ViewInv(env, p, removed, w, c, v) && HandlerStep(env, p, c, v, v')
    requires v.conn.handler.Writing?
    ensures ViewInv(env, p, removed, w, c, v')
  {
    hide Encode, SaveStage, RestKnown, DoneTo, ExecStep;
    var h := v.conn.handler;
    WriteOutcome(v, v', h.i, h.data, h.hash);
    if v'.conn.handler.Replying? {
      var failed := v.(disk := v'.disk, board := v.board.(failed := true));
      OwnFailed(p, v.board, w, c, v.conn);
      AnswerKeeps(env, p, removed, w, c, failed, v.conn.(handler := Check), false);
    }
  }

  /** What a step of a part write leaves in the part. */
  lemma WriteOutcome(v: View, v': View, i: nat, data: Bytes, hash: Digest)
    requires WriteStep(v, v', i, data, hash) && v.conn.handler == Writing(i, data, hash)
    ensures SameExcept(v.disk, v'.disk, {Part(i)})
    ensures v'.acked == v.acked && v'.board == v.board.(failed := v'.board.failed)
    ensures v.board.failed ==> v'.board.failed
    ensures Part(i) in v'.disk ==>
              v'.disk[Part(i)] <= data || (Part(i) in v.disk && v'.disk[Part(i)] == v.disk[Part(i)])
    ensures || (v'.conn == v.conn && v'.board == v.board)
            || (v'.conn == v.conn.(handler := Written(i, data, hash)) && v'.board == v.board
                && Part(i) in v'.disk && v'.disk[Part(i)] == data)
            || (v'.conn == v.conn.(handler := Replying(Ack(false))) && v'.board == v.board.(failed := true))
  {
  }

  /** Once the transfer has failed, the handler of this connection takes no more chunks. */
  lemma OwnFailed(p: Params, b: Board, w: nat, c: nat, k: Conn)
    requires w > 0 && WorkerInv(p, b, w, c, k) && ListsInv(b, w, c, k) && Busy(k.handler)
    ensures var b', k' := b.(failed := true), k.(handler := Check);
            (k.c2s == [] && k.s2c == [] ==> WorkerInv(p, b', w, c, k')) && ListsInv(b', w, c, k')
  {
  }

  lemma LockKeeps(env: Env, p: Params, removed: nat, w: nat, c: nat, v: View, v': View)
    requires ViewInv(env, p, removed, w, c, v) && HandlerStep(env, p, c, v, v')
    requires v.conn.handler.Written? && removed == 0
    ensures ViewInv(env, p, removed, w, c, v')
  {
    hide Encode;
    MineRises(env, p, v.disk, v.board, removed, w, c, v.conn);
    var i := v.conn.handler.i;
    LockWorker(p, v.board, w, c, v.conn, v'.board, v'.conn, i);
  }

  lemma LockWorker(p: Params, b: Board, w: nat, c: nat, k: Conn, b': Board, k': Conn, i: nat)
    requires w > 0 && WorkerInv(p, b, w, c, k) && ListsInv(b, w, c, k) && Busy(k.handler) && BusyWith(k.handler) == i
    requires Busy(k'.handler) && BusyWith(k'.handler) == i && k' == k.(handler := k'.handler)
    requires i < |b.received| && b'.received == b.received[i := true] && b'.shutdown == b.shutdown
               && b'.failed == b.failed
    requires k.c2s == [] && k.s2c == []
    requires forall a, d :: 0 <= a < d < |k.mine| ==> k.mine[a] < k.mine[d]
    ensures WorkerInv(p, b', w, c, k') && ListsInv(b', w, c, k')
  {
  }

  /** The answer is sent or lost. */
  lemma ReplyKeeps(env: Env, p: Params, removed: nat, w: nat, c: nat, v: View, v': View)
    requires ViewInv(env, p, removed, w, c, v) && HandlerStep(env, p, c, v, v') && v.conn.handler.Replying?
    ensures ViewInv(env, p, removed, w, c, v')
  {
    hide RestKnown, DoneTo;
    assert v.conn.c2s == [] && v.conn.s2c == [];
  }

  lemma SaveKeeps(env: Env, p: Params, removed: nat, w: nat, c: nat, v: View, v': View)
    requires ViewInv(env, p, removed, w, c, v) && HandlerStep(env, p, c, v, v')
    requires v.conn.handler.Saving?
    ensures ViewInv(env, p, removed, w, c, v')
  {
    hide Encode, RestKnown, DoneTo, ExecStep, SaveStage;
    var i, e := v.conn.handler.i, v.conn.handler.exec;
    if e.todo != [] {
      SaveStageStep(v.disk, v'.disk, e, v'.conn.handler.exec, Encode(v.board.meta));
    } else {
      var released := v.(board := v.board.(lock := Free, failed := v.board.failed || !e.ok),
                         acked := if e.ok then v.acked + {i} else v.acked);
      Released(p, v.board, w, c, v.conn, released.board);
      AnswerKeeps(env, p, removed, w, c, released, v.conn.(handler := Check), e.ok);
    }
  }

  lemma Released(p: Params, b: Board, w: nat, c: nat, k: Conn, b': Board)
    requires w > 0 && WorkerInv(p, b, w, c, k) && ListsInv(b, w, c, k) && Busy(k.handler) && k.c2s == [] && k.s2c == []
    requires b'.received == b.received && b'.shutdown == b.shutdown && (b.failed ==> b'.failed)
    ensures WorkerInv(p, b', w, c, k.(handler := Check)) && ListsInv(b', w, c, k.(handler := Check))
  {
  }

  /** A step of a save stays in the save, and shows only old or complete new metadata. */
  lemma SaveStageStep(fs: Files, fs': Files, e: Exec, e': Exec, data: Bytes)
    requires SaveStage(fs, e, data) && e.todo != [] && ExecStep(fs, e, fs', e')
    ensures SaveStage(fs', e', data)
    ensures SameExcept(fs, fs', {TmpFile, MetaFile})
    ensures MetaFile in fs ==> MetaFile in fs' && (fs'[MetaFile] == fs[MetaFile] || fs'[MetaFile] == data)
    ensures MetaFile !in fs && MetaFile in fs' ==> fs'[MetaFile] == data
  {
    var s := SaveScript(data);
    assert s[1..] == [Rename(TmpFile, MetaFile)] && [Rename(TmpFile, MetaFile)][1..] == [];
    assert [Remove(TmpFile)][1..] == [];
  }

  // ----- A handler's effect on everybody else -------------------------------------------------------------

  lemma HandlerUnseen(env: Env, p: Params, removed: nat, w: nat, c: nat, v: View, v': View, d: nat, k: Conn)
    requires ViewInv(env, p, removed, w, c, v) && HandlerStep(env, p, c, v, v')
    requires d < w && d != c && (k.handler.Saving? ==> v.board.lock == ByHandler(d))
    ensures Unseen(v.disk, v.board, v'.disk, v'.board, w, d, k)
  {
    hide Encode, SaveStage, ExecStep, WorkerInv, ListsInv, MsgInv;
    var h := v.conn.handler;
    if h.Writing? {
      WriteUnseen(env, p, removed, w, c, v, v', d, k);
    } else if h.Saving? {
      SaveUnseen(env, p, removed, w, c, v, v', d, k);
    }
  }

  lemma WriteUnseen(env: Env, p: Params, removed: nat, w: nat, c: nat, v: View, v': View, d: nat, k: Conn)
    requires ViewInv(env, p, removed, w, c, v) && HandlerStep(env, p, c, v, v') && v.conn.handler.Writing?
    requires d < w && d != c
    ensures Unseen(v.disk, v.board, v'.disk, v'.board, w, d, k)
  {
    hide Encode, ExecStep, WriteStep, WorkerInv, ListsInv, MsgInv;
    var h := v.conn.handler;
    WriteOutcome(v, v', h.i, h.data, h.hash);
  }

  lemma SaveUnseen(env: Env, p: Params, removed: nat, w: nat, c: nat, v: View, v': View, d: nat, k: Conn)
    requires ViewInv(env, p, removed, w, c, v) && HandlerStep(env, p, c, v, v') && v.conn.handler.Saving?
    requires d < w && d != c && (k.handler.Saving? ==> v.board.lock == ByHandler(d))
    ensures Unseen(v.disk, v.board, v'.disk, v'.board, w, d, k)
  {
    hide Encode, SaveStage, ExecStep, WorkerInv, ListsInv, MsgInv;
    var h := v.conn.handler;
    if h.exec.todo != [] {
      SaveStageStep(v.disk, v'.disk, h.exec, v'.conn.handler.exec, Encode(v.board.meta));
    }
  }

  lemma HandlerKeeps(env: Env, p: Params, removed: nat, w: nat, c: nat, v: View, v': View)
    requires Honest(env, p) && ViewInv(env, p, removed, w, c, v) && HandlerStep(env, p, c, v, v')
    requires removed > 0 ==> AllReceived(v.board.received)
    ensures ViewInv(env, p, removed, w, c, v')
  {
    match v.conn.handler
    case Check => IdleKeeps(env, p, removed, w, c, v, if v.board.failed then Closed else Recv);
    case Recv =>
      if v' == v.(conn := v.conn.(handler := Closed)) {
        IdleKeeps(env, p, removed, w, c, v, Closed);
      } else if v.conn.c2s[0].Query? {
        RecvQueryKeeps(env, p, removed, w, c, v, v');
      } else {
        RecvChunkKeeps(env, p, removed, w, c, v, v');
      }
    case Writing(_, _, _) => WriteKeeps(env, p, removed, w, c, v, v');
    case Written(i, _, _) => assert !v.board.received[i]; LockKeeps(env, p, removed, w, c, v, v');
    case Saving(_, _) => SaveKeeps(env, p, removed, w, c, v, v');
    case Replying(_) => ReplyKeeps(env, p, removed, w, c, v, v');
    case Closed => assert false;
  }

  // ----- The shared part of the invariant --------------------------------------------------------------

  /** What a handler's step does to disk, flags and metadata. */
  lemma HandlerShared(env: Env, p: Params, ackedBy: Params, removed: nat, w: nat, c: nat, v: View, v': View,
      control: Control)
    requires CollisionFree(env) && Honest(env, p) && ackedBy == p && removed == Removed(control)
    requires ViewInv(env, p, removed, w, c, v) && HandlerStep(env, p, c, v, v')
    requires DiskInv(env, v.disk) && AckedInv(env, v.disk, p, v.acked)
    requires BoardInv(env, v.disk, v.acked, p, v.board, removed)
    requires SyncInv(v.disk, v.board, control) && ControlInv(v.disk, p, v.board, control)
    ensures DiskInv(env, v'.disk) && AckedInv(env, v'.disk, p, v'.acked)
    ensures BoardInv(env, v'.disk, v'.acked, p, v'.board, removed)
    ensures SyncInv(v'.disk, v'.board, control) && ControlInv(v'.disk, p, v'.board, control)
  {
    match v.conn.handler
    case Check =>
    case Recv => RecvShared(env, p, c, v, v');
    case Writing(_, _, _) => WriteShared(env, p, removed, w, c, v, v', control);
    case Written(_, _, _) => LockShared(env, p, removed, w, c, v, v', control);
    case Saving(_, _) => SaveShared(env, p, removed, w, c, v, v', control);
    case Replying(_) =>
    case Closed => assert false;
  }

  lemma RecvShared(env: Env, p: Params, c: nat, v: View, v': View)
    requires HandlerStep(env, p, c, v, v') && v.conn.handler.Recv?
    ensures v'.disk == v.disk && v'.acked == v.acked && v'.board == v.board
  {
  }

  lemma WriteShared(env: Env, p: Params, removed: nat, w: nat, c: nat, v: View, v': View, control: Control)
    requires CollisionFree(env) && Honest(env, p) && removed == Removed(control)
    requires ViewInv(env, p, removed, w, c, v) && HandlerStep(env, p, c, v, v') && v.conn.handler.Writing?
    requires DiskInv(env, v.disk) && AckedInv(env, v.disk, p, v.acked)
    requires BoardInv(env, v.disk, v.acked, p, v.board, removed)
    requires SyncInv(v.disk, v.board, control) && ControlInv(v.disk, p, v.board, control)
    ensures DiskInv(env, v'.disk) && AckedInv(env, v'.disk, p, v'.acked)
    ensures BoardInv(env, v'.disk, v'.acked, p, v'.board, removed)
    ensures SyncInv(v'.disk, v'.board, control) && ControlInv(v'.disk, p, v'.board, control)
  {
    hide Encode, ExecStep, WorkerInv, ListsInv, MsgInv, GoodMeta, ContentsOk, AckedInv, BoardInv, SyncInv, ControlInv;
    var h := v.conn.handler;
    WriteOutcome(v, v', h.i, h.data, h.hash);
    PartWritten(env, p, v.disk, v'.disk, h.i);
    assert removed <= p.N() by { RemovedBound(v.disk, p, v.board, control); }
    BoardAfterWrite(env, v.disk, v'.disk, v.acked, p, v.board, v'.board, h.i, control);
    SessionSteps.OtherFiles(env, v.disk, v'.disk, p, v.acked);
  }

  lemma RemovedBound(fs: Files, p: Params, b: Board, control: Control)
    requires ControlInv(fs, p, b, control)
    ensures Removed(control) <= p.N()
  {
  }

  /** A part that holds a prefix of its slice, or what it held before. */
  lemma PartWritten(env: Env, p: Params, fs: Files, fs': Files, i: nat)
    requires CollisionFree(env) && Honest(env, p) && ContentsOk(env, fs)
    requires SameExcept(fs, fs', {Part(i)})
    requires Part(i) in fs' ==> fs'[Part(i)] <= p.Slice(i) || (Part(i) in fs && fs'[Part(i)] == fs[Part(i)])
    ensures ContentsOk(env, fs')
  {
    if Part(i) in fs' && fs'[Part(i)] <= p.Slice(i) {
      SliceInContents(env, p, i, |fs'[Part(i)]|);
      assert fs'[Part(i)] == p.Slice(i)[..|fs'[Part(i)]|];
    }
  }

  /** A part that is not recorded may change without disturbing flags, metadata or assembly. */
  lemma BoardAfterWrite(env: Env, fs: Files, fs': Files, acked: set<nat>, p: Params, b: Board, b': Board, i: nat,
      control: Control)
    requires Removed(control) <= p.N() && i < |b.received| && !b.received[i]
    requires SameExcept(fs, fs', {Part(i)}) && b' == b.(failed := b'.failed) && (b.failed ==> b'.failed)
    requires BoardInv(env, fs, acked, p, b, Removed(control))
    requires ControlInv(fs, p, b, control)
    ensures BoardInv(env, fs', acked, p, b', Removed(control))
    ensures SyncInv(fs', b', control) && ControlInv(fs', p, b', control)
    ensures i !in acked
  {
    hide Encode, AssembleStage;
    assert !AllReceived(b.received) by { assert !b.received[i]; }
    assert forall j: nat :: Got(b', j) ==> Got(b, j) && Part(j) != Part(i);
  }

  lemma LockShared(env: Env, p: Params, removed: nat, w: nat, c: nat, v: View, v': View, control: Control)
    requires Honest(env, p) && removed == Removed(control)
    requires ViewInv(env, p, removed, w, c, v) && HandlerStep(env, p, c, v, v') && v.conn.handler.Written?
    requires BoardInv(env, v.disk, v.acked, p, v.board, removed)
    requires ControlInv(v.disk, p, v.board, control)
    ensures v'.disk == v.disk && v'.acked == v.acked
    ensures BoardInv(env, v'.disk, v'.acked, p, v'.board, removed)
    ensures SyncInv(v'.disk, v'.board, control) && ControlInv(v'.disk, p, v'.board, control)
  {
    hide Encode, WorkerInv, ListsInv, MsgInv, AssembleStage;
    var i := v.conn.handler.i;
    assert !AllReceived(v.board.received) by { assert !v.board.received[i]; }
    assert Messages.ReceivedSet(v'.board.received) == Messages.ReceivedSet(v.board.received) + {i};
  }

  lemma SaveShared(env: Env, p: Params, removed: nat, w: nat, c: nat, v: View, v': View, control: Control)
    requires Honest(env, p) && removed == Removed(control)
    requires ViewInv(env, p, removed, w, c, v) && HandlerStep(env, p, c, v, v') && v.conn.handler.Saving?
    requires DiskInv(env, v.disk) && AckedInv(env, v.disk, p, v.acked)
    requires BoardInv(env, v.disk, v.acked, p, v.board, removed)
    requires SyncInv(v.disk, v.board, control) && ControlInv(v.disk, p, v.board, control)
    ensures DiskInv(env, v'.disk) && AckedInv(env, v'.disk, p, v'.acked)
    ensures BoardInv(env, v'.disk, v'.acked, p, v'.board, removed)
    ensures SyncInv(v'.disk, v'.board, control) && ControlInv(v'.disk, p, v'.board, control)
  {
    hide Encode, ExecStep, WorkerInv, ListsInv, MsgInv, DiskInv, AckedInv, BoardInv, AssembleStage;
    var i, e := v.conn.handler.i, v.conn.handler.exec;
    if e.todo != [] {
      SaveStageStep(v.disk, v'.disk, e, v'.conn.handler.exec, Encode(v.board.meta));
      DiskAfterSave(env, v.disk, v'.disk, v.acked, p, v.board);
    } else {
      BoardAfterSave(env, v.disk, v.acked, p, v.board, v'.board, i, e.ok);
    }
  }

  /** A step of a save: the metadata is the old one or the new one. */
  lemma DiskAfterSave(env: Env, fs: Files, fs': Files, acked: set<nat>, p: Params, b: Board)
    requires Honest(env, p) && DiskInv(env, fs) && AckedInv(env, fs, p, acked) && BoardInv(env, fs, acked, p, b, 0)
    requires SameExcept(fs, fs', {TmpFile, MetaFile})
    requires MetaFile in fs ==> MetaFile in fs' && (fs'[MetaFile] == fs[MetaFile] || fs'[MetaFile] == Encode(b.meta))
    requires MetaFile !in fs && MetaFile in fs' ==> fs'[MetaFile] == Encode(b.meta)
    ensures DiskInv(env, fs') && AckedInv(env, fs', p, acked) && BoardInv(env, fs', acked, p, b, 0)
  {
    hide Encode, GoodMeta;
    var keys := Messages.ReceivedSet(b.received);
    SessionSteps.GoodFor(env, p, keys);
    if MetaFile in fs && fs'[MetaFile] == fs[MetaFile] {
      SessionSteps.OtherFiles(env, fs, fs', p, acked);
    } else if MetaFile in fs' {
      SessionSteps.NewCover(env, fs', p, acked, keys);
    }
  }

  /** The end of a save: a success may be acknowledged. */
  lemma BoardAfterSave(env: Env, fs: Files, acked: set<nat>, p: Params, b: Board, b': Board, i: nat, ok: bool)
    requires Honest(env, p) && AckedInv(env, fs, p, acked) && BoardInv(env, fs, acked, p, b, 0) && Got(b, i)
    requires ok ==> MetaFile in fs && fs[MetaFile] == Encode(b.meta)
    requires b' == b.(lock := b'.lock, failed := b'.failed)
    ensures var acked' := if ok then acked + {i} else acked;
            AckedInv(env, fs, p, acked') && BoardInv(env, fs, acked', p, b', 0)
  {
    hide Encode;
    var keys := Messages.ReceivedSet(b.received);
    if ok {
      SessionSteps.NewCover(env, fs, p, acked + {i}, keys);
    }
  }
}
