/** The invariant of the state machine, kept by every step. */
module Safety {
  import opened Wire
  import opened Storage
  import opened Metadata
  import opened Receiver
  import opened Transfer
  import Chunks
  import Messages
  import Assignment

  // ----- What may be on the disk -----------------------------------------------------------------

  function HashesFor(h: Hasher, p: Params, keys: set<nat>): Hashes
  {
    map i | i in keys :: h(p.Slice(i))
  }

  /** Metadata with the true hashes of some chunks of `p`. */
  function MetaFor(h: Hasher, p: Params, keys: set<nat>): Meta
  {
    EmptyMeta(p.ToOffer(h)).(hashes := HashesFor(h, p, keys))
  }

  /** Chunks that can be recorded. Of an empty file, none can. */
  ghost predicate KeysOk(p: Params, keys: set<nat>)
  {
    forall i :: i in keys ==> i < p.N() && 0 < |p.source|
  }

  /** The bytes are metadata of an honest transfer with the true hashes of some of its chunks. */
  ghost predicate GoodMeta(env: Env, b: Bytes)
  {
    exists p, keys :: Honest(env, p) && KeysOk(p, keys) && b == Encode(MetaFor(env.h, p, keys))
  }

  ghost predicate ContentsOk(env: Env, fs: Files)
  {
    forall n :: n in fs && (n.Part? || n.OutFile?) ==> fs[n] in env.contents
  }

  ghost predicate DiskInv(env: Env, fs: Files)
  {
    ContentsOk(env, fs) && (MetaFile in fs ==> GoodMeta(env, fs[MetaFile]))
  }

  predicate PartIs(fs: Files, p: Params, i: nat)
  {
    Part(i) in fs && fs[Part(i)] == p.Slice(i)
  }

  /** The stored metadata is of `p` and lists at least `acked`. */
  ghost predicate Covers(h: Hasher, fs: Files, p: Params, acked: set<nat>)
  {
    exists keys :: acked <= keys && KeysOk(p, keys) && MetaFile in fs && fs[MetaFile] == Encode(MetaFor(h, p, keys))
  }

  /** Everything an acknowledgement promises is on the disk. */
  ghost predicate AckedInv(env: Env, fs: Files, p: Params, acked: set<nat>)
  {
    acked != {} ==>
      && Honest(env, p) && Covers(env.h, fs, p, acked)
      && forall i :: i in acked ==> PartIs(fs, p, i)
  }

  // ----- Loading -----------------------------------------------------------------------------------

  ghost predicate OpOk(fs: Files, found: Option<Meta>, todo: seq<Op>, j: nat)
    requires j < |todo|
  {
    match todo[j]
    case Remove(n) =>
      && !n.OutFile?
      && (n.Part? && found.Some? ==> n.index !in found.value.hashes)
      && (n.MetaFile? ==> found.None?)
    case Write(n, b) => n == TmpFile && found.Some? && b == Encode(found.value)
    case Rename(a, b) =>
      && a == TmpFile && b == MetaFile && found.Some?
      && if j == 0 then TmpFile in fs && fs[TmpFile] == Encode(found.value)
         else todo[j - 1] == Write(TmpFile, Encode(found.value))
    case _ => false
  }

  ghost predicate OpsOk(fs: Files, found: Option<Meta>, todo: seq<Op>)
  {
    forall j :: 0 <= j < |todo| ==> OpOk(fs, found, todo, j)
  }

  /** While loading: what was found is right and stays on the disk whatever is still to be done. */
  ghost predicate LoadInv(env: Env, fs: Files, p: Params, acked: set<nat>, exec: Exec, found: Option<Meta>)
  {
    && Honest(env, p)
    && (found.None? ==> acked == {})
    && (found.Some? ==>
          var keys := found.value.hashes.Keys;
          && KeysOk(p, keys) && acked <= keys && found.value == MetaFor(env.h, p, keys)
          && forall i :: i in keys ==> PartIs(fs, p, i))
    && OpsOk(fs, found, exec.todo)
    && (found.Some? && AllReceived(Flags(p.N(), found)) ==>
          exec.todo == [] && MetaFile in fs && fs[MetaFile] == Encode(found.value))
  }

  // ----- One connection ------------------------------------------------------------------------------

  predicate Busy(h: Handler)
  {
    h.Writing? || h.Written? || h.Saving?
  }

  function BusyWith(h: Handler): nat
    requires Busy(h)
  {
    h.i
  }

  /** The handler may still take a chunk from the connection. */
  predicate Listening(h: Handler, failed: bool)
  {
    h.Recv? || (h.Check? && !failed)
  }

  /** Nothing is under way on the connection. */
  predicate Quiet(k: Conn)
  {
    k.c2s == [] && k.s2c == [] && !Engaged(k.handler)
  }

  predicate Got(b: Board, i: nat)
  {
    i < |b.received| && b.received[i]
  }

  predicate Mine(b: Board, w: nat, c: nat, i: nat)
    requires w > 0
  {
    i < |b.received| && i % w == c
  }

  /** The handler is about to answer, or to write something first. */
  predicate Engaged(h: Handler)
  {
    Busy(h) || h.Replying?
  }

  /** At most one message, reply or chunk being processed. */
  predicate AtMostOne(k: Conn)
  {
    |k.c2s| + |k.s2c| + (if Engaged(k.handler) then 1 else 0) <= 1
  }

  ghost predicate MsgInv(env: Env, p: Params, b: Board, w: nat, c: nat, k: Conn)
    requires w > 0
  {
    k.c2s != [] && k.c2s[0].Chunk? ==>
      var m := k.c2s[0];
      && Mine(b, w, c, m.i) && m.data <= p.Slice(m.i) && m.hash == env.h(m.data)
      && (Listening(k.handler, b.failed) ==> !b.received[m.i])
  }

  ghost predicate SaveStage(fs: Files, e: Exec, data: Bytes)
  {
    || e == Exec(SaveScript(data), true)
    || (e == Exec([Rename(TmpFile, MetaFile)], true) && TmpFile in fs && fs[TmpFile] == data)
    || (e == Exec([], true) && MetaFile in fs && fs[MetaFile] == data)
    || e == FAILED
    || e == Exec([Remove(TmpFile)], false)
  }

  ghost predicate HandlerInv(env: Env, p: Params, fs: Files, b: Board, removed: nat, w: nat, c: nat, h: Handler)
    requires w > 0
  {
    match h
    case Writing(i, data, hash) =>
      Mine(b, w, c, i) && !b.received[i] && data == p.Slice(i) && hash == env.h(data) && 0 < |p.source|
    case Written(i, data, hash) =>
      && Mine(b, w, c, i) && !b.received[i] && data == p.Slice(i) && hash == env.h(data) && PartIs(fs, p, i)
      && 0 < |p.source|
    case Saving(i, e) =>
      && Mine(b, w, c, i) && b.received[i] && b.lock == ByHandler(c) && removed == 0
      && SaveStage(fs, e, Encode(b.meta))
    case Replying(r) => BoundedReply(p.N(), r)
    case _ => true
  }

  /** The first `pos` chunks of the list are on the server. */
  ghost predicate DoneTo(b: Board, mine: seq<nat>, pos: nat)
  {
    pos <= |mine| && forall j :: 0 <= j < pos ==> Got(b, mine[j])
  }

  /** From `pos` on, what the query said is still exactly what the server has. */
  ghost predicate RestKnown(b: Board, mine: seq<nat>, pos: nat, already: set<nat>)
  {
    forall j :: pos <= j < |mine| ==> (Got(b, mine[j]) <==> mine[j] in already)
  }

  /** What is under way belongs to the chunk `i` that was sent last. */
  ghost predicate InFlight(b: Board, k: Conn, i: nat)
  {
    && (k.c2s != [] ==> k.c2s[0].Chunk? && k.c2s[0].i == i)
    && (k.s2c != [] ==>
          k.s2c[0].Ack? && if k.s2c[0].ok then Got(b, i) else Listening(k.handler, b.failed) ==> !Got(b, i))
    && (Busy(k.handler) ==> BusyWith(k.handler) == i)
    && (k.handler.Replying? ==>
          k.handler.reply.Ack? && if k.handler.reply.ok then Got(b, i) else !b.failed ==> !Got(b, i))
  }

  ghost predicate AwaitsAnswer(p: Params, b: Board, k: Conn, pos: nat, already: set<nat>, data: Bytes)
  {
    && pos < |k.mine| && data <= p.Slice(k.mine[pos])
    && DoneTo(b, k.mine, pos) && RestKnown(b, k.mine, pos + 1, already)
    && InFlight(b, k, k.mine[pos])
  }

  ghost predicate WorkerInv(p: Params, b: Board, w: nat, c: nat, k: Conn)
    requires w > 0
  {
    match k.worker
    case Start => Quiet(k)
    case Connecting => Quiet(k)
    case WaitHave =>
      && !Busy(k.handler)
      && (k.c2s != [] ==> k.c2s[0].Query?)
      && (k.s2c != [] ==> k.s2c[0].Have? && RestKnown(b, k.mine, 0, k.s2c[0].indices))
      && (k.handler.Replying? ==> k.handler.reply.Have? && RestKnown(b, k.mine, 0, k.handler.reply.indices))
    case Ready(pos, already) =>
      && pos <= |k.mine|
      && (!b.shutdown ==> Quiet(k) && DoneTo(b, k.mine, pos) && RestKnown(b, k.mine, pos, already))
    case Opening(pos, already) =>
      && pos < |k.mine| && k.mine[pos] !in already
      && Quiet(k) && DoneTo(b, k.mine, pos) && RestKnown(b, k.mine, pos, already)
    case Sending(pos, already, attempt, data) =>
      && pos < |k.mine| && data <= p.Slice(k.mine[pos])
      && Quiet(k) && DoneTo(b, k.mine, pos) && RestKnown(b, k.mine, pos + 1, already)
      && (Listening(k.handler, b.failed) ==> !Got(b, k.mine[pos]))
    case Sent(pos, already, _, data) => AwaitsAnswer(p, b, k, pos, already, data)
    case WaitAck(pos, already, _, data) => AwaitsAnswer(p, b, k, pos, already, data)
    case Finished => !b.shutdown && k.fail == [] ==> DoneTo(b, k.mine, |k.mine|)
  }

  /** Reported deliveries are deliveries, except the last one of an interrupted worker. A failed
      chunk means shutdown; a worker that failed as a whole never sent anything. */
  ghost predicate ListsInv(b: Board, w: nat, c: nat, k: Conn)
    requires w > 0
  {
    && (forall j :: 0 <= j < |k.ok| ==> Mine(b, w, c, k.ok[j]))
    && (forall j :: 0 <= j < |k.ok| ==>
          || b.received[k.ok[j]]
          || (j == |k.ok| - 1 && b.shutdown && (k.worker.Ready? || k.worker.Finished?)))
    && (k.fail != [] ==> (b.shutdown && k.worker.Ready?) || (k.worker.Finished? && (b.shutdown || k.fail == k.mine)))
  }

  ghost predicate ConnInv(env: Env, p: Params, fs: Files, b: Board, removed: nat, w: nat, c: nat, k: Conn)
  {
    && c < w && |b.received| == p.N()
    && k.mine == Assignment.Assigned(p.N(), w, c)
    && AtMostOne(k)
    && MsgInv(env, p, b, w, c, k)
    && HandlerInv(env, p, fs, b, removed, w, c, k.handler)
    && WorkerInv(p, b, w, c, k)
    && ListsInv(b, w, c, k)
  }

  // ----- A live session ----------------------------------------------------------------------------------

  /** Flags, in-memory metadata and parts agree. */
  ghost predicate BoardInv(env: Env, fs: Files, acked: set<nat>, p: Params, b: Board, removed: nat)
  {
    && |b.received| == p.N() && KeysOk(p, Messages.ReceivedSet(b.received))
    && b.meta == MetaFor(env.h, p, Messages.ReceivedSet(b.received))
    && acked <= Messages.ReceivedSet(b.received)
    && (removed > 0 ==> acked == {})
    && (forall i: nat :: i < removed ==> Part(i) !in fs)
    && forall i: nat :: removed <= i && Got(b, i) ==> PartIs(fs, p, i)
  }

  function Removed(control: Control): nat
  {
    if control.Waiting? || control.Judged? then 0 else control.k
  }

  /** Assembly has run to its end. */
  predicate Concluded(control: Control)
  {
    (control.Assembling? && control.exec == Exec([], true)) || (control.Status? && control.ok)
  }

  /** A complete transfer that has not failed has all its chunks in the stored metadata, until
      assembly has run to its end. */
  ghost predicate SyncInv(fs: Files, b: Board, control: Control)
  {
    AllReceived(b.received) && !b.failed && !b.lock.ByHandler? && !Concluded(control)
    ==> MetaFile in fs && fs[MetaFile] == Encode(b.meta)
  }

  ghost predicate OutIs(fs: Files, data: Bytes)
  {
    OutFile in fs && fs[OutFile] == data
  }

  /** How far assembly has come, read from what it has still to do. */
  ghost predicate AssembleStage(fs: Files, p: Params, e: Exec, k: nat)
  {
    var n := p.N();
    && k <= n
    && (|| (k == 0 && e == Exec(AssembleScript(n), true))
        || (k < n && e.todo != [] && e.todo[0].Copy?
            && e == Exec([Copy(Part(k), e.todo[0].off), MustRemove(Part(k))] + AssembleFrom(k + 1, n), true)
            && e.todo[0].off <= |p.Slice(k)|
            && OutIs(fs, Chunks.Joined(p.source, p.chunkSize, k) + p.Slice(k)[..e.todo[0].off]))
        || (k < n && e == Exec([MustRemove(Part(k))] + AssembleFrom(k + 1, n), true)
            && OutIs(fs, Chunks.Joined(p.source, p.chunkSize, k + 1)))
        || (k == n && (e == Exec([Remove(MetaFile)], true) || e == Exec([], true)) && OutIs(fs, p.source))
        || e == FAILED)
  }

  ghost predicate ControlInv(fs: Files, p: Params, b: Board, control: Control)
  {
    && Removed(control) <= p.N()
    && (Removed(control) > 0 ==> AllReceived(b.received))
    && (control.Judged? && control.complete ==> AllReceived(b.received))
    && (b.lock.ByControl? <==> control.Assembling?)
    && (control.Assembling? ==> AllReceived(b.received) && !b.failed && AssembleStage(fs, p, control.exec, control.k))
    && (control.Status? && control.ok ==> AllReceived(b.received) && OutIs(fs, p.source))
  }

  ghost predicate LiveInv(env: Env, fs: Files, acked: set<nat>, p: Params, b: Board, conns: seq<Conn>, control: Control)
  {
    && Honest(env, p)
    && BoardInv(env, fs, acked, p, b, Removed(control))
    && SyncInv(fs, b, control)
    && ControlInv(fs, p, b, control)
    && forall c :: 0 <= c < |conns| ==> ConnInv(env, p, fs, b, Removed(control), |conns|, c, conns[c])
  }

  ghost predicate PhaseInv(env: Env, s: State)
  {
    match s.phase
    case Down => true
    case Exists(p) => Honest(env, p) && OutIs(s.disk, p.source)
    case Loading(p, exec, found) => s.ackedBy == p && LoadInv(env, s.disk, p, s.acked, exec, found)
    case Live(p, b, conns, control) => s.ackedBy == p && LiveInv(env, s.disk, s.acked, p, b, conns, control)
  }

  ghost predicate Inv(env: Env, s: State)
  {
    DiskInv(env, s.disk) && AckedInv(env, s.disk, s.ackedBy, s.acked) && PhaseInv(env, s)
  }

  // ----- Facts about honest metadata -------------------------------------------------------------------

  lemma {:induction false} BoundedCount(s: set<nat>, n: nat)
    requires forall k :: k in s ==> k < n
    ensures |s| <= n
  {
    if n == 0 {
      assert s == {};
    } else {
      BoundedCount(s - {n - 1}, n - 1);
      if n - 1 in s {
        assert s == s - {n - 1} + {n - 1};
      } else {
        assert s == s - {n - 1};
      }
    }
  }

  /** Honest metadata survives the codec. */
  lemma HonestRoundTrip(env: Env, p: Params, keys: set<nat>)
    requires Honest(env, p) && KeysOk(p, keys)
    ensures Decode(Encode(MetaFor(env.h, p, keys))) == Ok(MetaFor(env.h, p, keys))
  {
    hide Decode, Encode;
    var m := MetaFor(env.h, p, keys);
    BoundedCount(keys, p.N());
    assert m.hashes.Keys == keys;
    RoundTrip(m);
  }

  lemma SliceInContents(env: Env, p: Params, i: nat, k: nat)
    requires CollisionFree(env) && Honest(env, p) && k <= |p.Slice(i)|
    ensures p.Slice(i)[..k] in env.contents
    ensures p.Slice(i) in env.contents
  {
    if i * p.chunkSize <= |p.source| {
      var lo := i * p.chunkSize;
      var hi := lo + |p.Slice(i)|;
      assert p.Slice(i) == p.source[lo..hi];
      assert p.Slice(i)[..k] == p.source[lo..lo + k];
    } else {
      assert p.Slice(i) == p.source[0..0] && p.Slice(i)[..k] == p.source[0..0];
    }
  }

  lemma PrefixInContents(env: Env, p: Params, data: Bytes)
    requires CollisionFree(env) && Honest(env, p) && data <= p.source
    ensures data in env.contents
  {
    assert data == p.source[0..|data|];
  }

  /** Metadata that matches the handshake of `p` is metadata of `p`. */
  lemma MatchingIsMine(env: Env, p: Params, sp: Params, keys: set<nat>)
    requires CollisionFree(env) && Honest(env, p) && Honest(env, sp)
    requires Matches(MetaFor(env.h, sp, keys), p.ToOffer(env.h))
    ensures sp == p
  {
  }

  lemma HonestLive(env: Env, s: State)
    requires Inv(env, s) && s.phase.Live?
    ensures Honest(env, s.phase.p)
  {
    hide ConnInv, BoardInv, SyncInv, ControlInv, DiskInv, AckedInv;
  }
}
