/** One chunk on the server, seen twice: as code run without interruption (Receiver) and as a path of
    the state machine. Both end in what `Receiver.Stored` describes. */
module Handling {
  import opened Wire
  import opened Storage
  import opened Metadata
  import opened Receiver
  import opened Transfer
  import opened Safety
  import Chunks
  import ConnSteps

  ghost function ShelfOf(v: View): Shelf
  {
    Shelf(v.disk, v.board.received, v.board.meta, v.board.failed)
  }

  /** The steps of one handler from taking a chunk to being idle again, nobody else moving. */
  ghost predicate ChunkPath(env: Env, p: Params, c: nat, path: seq<View>)
  {
    && |path| >= 2
    && (forall t :: 0 <= t < |path| - 1 ==> HandlerStep(env, p, c, path[t], path[t + 1]))
    && (forall t :: 0 < t < |path| - 1 ==> Engaged(path[t].conn.handler))
    && var k, last := path[0].conn, path[|path| - 1].conn;
       && k.handler.Recv? && k.c2s != [] && k.c2s[0].Chunk? && last.handler.Check? && last.c2s == k.c2s[1..]
  }

  /** The disk while the metadata is being saved over `base`. */
  ghost predicate SaveDisk(base: Files, fs: Files, e: Exec, data: Bytes)
  {
    || (SameExcept(base, fs, {TmpFile})
        && (e == Exec(SaveScript(data), true) || e == FAILED || e == Exec([Remove(TmpFile)], false)
            || (e == Exec([Rename(TmpFile, MetaFile)], true) && TmpFile in fs && fs[TmpFile] == data)))
    || (e == Exec([], true) && fs == (base - {TmpFile})[MetaFile := data])
  }

  /** How far the handler has come with the chunk. */
  ghost predicate Midway(v0: View, v: View, i: nat, data: Bytes, hash: Digest)
  {
    && v.conn == v0.conn.(c2s := v.conn.c2s, handler := v.conn.handler)
    && match v.conn.handler
       case Writing(j, d, g) =>
         j == i && d == data && g == hash && v.board == v0.board && SameExcept(v0.disk, v.disk, {Part(i)})
       case Written(j, d, g) =>
         j == i && d == data && g == hash && v.board == v0.board && v.disk == v0.disk[Part(i) := data]
       case Saving(j, e) =>
         && j == i && Noted(ShelfOf(v0), ShelfOf(v), i, hash) && v.board.failed == v0.board.failed
         && SaveDisk(v0.disk[Part(i) := data], v.disk, e, Encode(v.board.meta))
       case Replying(r) => r.Ack? && Stored(ShelfOf(v0), ShelfOf(v), i, data, hash, r.ok)
       case _ => false
  }

  /** The chunk has been dealt with; the answer may have been lost with the connection. */
  ghost predicate Done(v0: View, v: View, i: nat, data: Bytes, hash: Digest)
  {
    exists ack :: Stored(ShelfOf(v0), ShelfOf(v), i, data, hash, ack) && Replied(v0, v, ack)
  }

  ghost predicate Replied(v0: View, v: View, ack: bool)
  {
    v.conn.s2c == v0.conn.s2c || v.conn.s2c == v0.conn.s2c + [Ack(ack)]
  }

  lemma SaveDiskStep(base: Files, fs: Files, e: Exec, data: Bytes, fs': Files, e': Exec)
    requires SaveDisk(base, fs, e, data) && e.todo != [] && ExecStep(fs, e, fs', e')
    ensures SaveDisk(base, fs', e', data)
  {
    var s := SaveScript(data);
    assert s[1..] == [Rename(TmpFile, MetaFile)] && [Rename(TmpFile, MetaFile)][1..] == [];
    assert [Remove(TmpFile)][1..] == [];
    if e == Exec([Rename(TmpFile, MetaFile)], true) {
      assert fs - {TmpFile} == base - {TmpFile};
    }
  }

  lemma WrittenDone(env: Env, p: Params, c: nat, v0: View, v: View, v': View, i: nat, data: Bytes, hash: Digest)
    requires Midway(v0, v, i, data, hash) && v.conn.handler.Writing? && HandlerStep(env, p, c, v, v')
    ensures Midway(v0, v', i, data, hash)
  {
    hide ExecStep, Encode;
    ConnSteps.WriteOutcome(v, v', i, data, hash);
    if v'.conn.handler.Replying? {
      NotWritten(ShelfOf(v0), ShelfOf(v'), i, data, hash);
    } else if v'.conn.handler.Written? {
      assert v'.disk == v0.disk[Part(i) := data];
    }
  }

  lemma SavingDone(env: Env, p: Params, c: nat, v0: View, v: View, v': View, i: nat, data: Bytes, hash: Digest)
    requires Midway(v0, v, i, data, hash) && v.conn.handler.Saving? && HandlerStep(env, p, c, v, v')
    ensures Midway(v0, v', i, data, hash)
  {
    hide ExecStep, Encode;
    var e, base, bytes := v.conn.handler.exec, v0.disk[Part(i) := data], Encode(v.board.meta);
    if e.todo != [] {
      SaveDiskStep(base, v.disk, e, bytes, v'.disk, v'.conn.handler.exec);
    } else {
      if e.ok {
        AllStored(ShelfOf(v0), ShelfOf(v'), i, data, hash);
      } else {
        NotSaved(ShelfOf(v0), ShelfOf(v'), i, data, hash);
      }
    }
  }

  lemma MidwayStep(env: Env, p: Params, c: nat, v0: View, v: View, v': View, i: nat, data: Bytes, hash: Digest)
    requires Midway(v0, v, i, data, hash) && HandlerStep(env, p, c, v, v')
    ensures Midway(v0, v', i, data, hash) || (v'.conn.handler.Check? && Done(v0, v', i, data, hash))
  {
    hide ExecStep, Encode;
    match v.conn.handler
    case Writing(_, _, _) => WrittenDone(env, p, c, v0, v, v', i, data, hash);
    case Written(_, _, _) => assert SaveDisk(v.disk, v.disk, v'.conn.handler.exec, Encode(v'.board.meta));
    case Saving(_, _) => SavingDone(env, p, c, v0, v, v', i, data, hash);
    case Replying(r) =>
      assert ShelfOf(v') == ShelfOf(v);
      assert Stored(ShelfOf(v0), ShelfOf(v'), i, data, hash, r.ok) && Replied(v0, v', r.ok);
  }

  /** In range, of the right size, with the right hash. */
  ghost predicate Acceptable(h: Hasher, p: Params, i: nat, data: Bytes, hash: Digest)
  {
    RightSize(p.ToOffer(h), i, |data|) && h(data) == hash
  }

  /** The chunk is refused for its hash; nothing has changed. */
  ghost predicate Refused(v0: View, v: View)
  {
    v.conn == v0.conn.(c2s := v.conn.c2s, handler := Replying(Ack(false))) && ShelfOf(v) == ShelfOf(v0)
  }

  ghost predicate Underway(env: Env, p: Params, v0: View, v: View, m: Msg)
    requires m.Chunk?
  {
    if Acceptable(env.h, p, m.i, m.data, m.hash) then Midway(v0, v, m.i, m.data, m.hash)
    else Refused(v0, v) && RightSize(p.ToOffer(env.h), m.i, |m.data|)
  }

  /** What the path has come to when the handler is idle again. */
  ghost predicate Concluded(env: Env, p: Params, v0: View, v: View, m: Msg)
    requires m.Chunk?
  {
    if Acceptable(env.h, p, m.i, m.data, m.hash) then Done(v0, v, m.i, m.data, m.hash)
    else
      && ShelfOf(v) == ShelfOf(v0)
      && (v.conn.s2c == v0.conn.s2c
          || (RightSize(p.ToOffer(env.h), m.i, |m.data|) && v.conn.s2c == v0.conn.s2c + [Ack(false)]))
  }

  lemma UnderwayStep(env: Env, p: Params, c: nat, v0: View, v: View, v': View, m: Msg)
    requires m.Chunk? && Underway(env, p, v0, v, m) && HandlerStep(env, p, c, v, v')
    ensures Underway(env, p, v0, v', m) || (v'.conn.handler.Check? && Concluded(env, p, v0, v', m))
  {
    if Acceptable(env.h, p, m.i, m.data, m.hash) {
      hide Midway, Done, HandlerStep;
      MidwayStep(env, p, c, v0, v, v', m.i, m.data, m.hash);
    }
  }

  /** The first step: a chunk of the wrong size is over with at once. */
  lemma Taken(env: Env, p: Params, c: nat, v: View, v': View)
    requires v.conn.handler.Recv? && v.conn.c2s != [] && v.conn.c2s[0].Chunk? && HandlerStep(env, p, c, v, v')
    requires !v'.conn.handler.Closed?
    ensures var m := v.conn.c2s[0];
            || (Engaged(v'.conn.handler) && Underway(env, p, v, v', m))
            || (v'.conn.handler.Check? && Concluded(env, p, v, v', m))
  {
    hide Chunks.ServerSize, Encode;
  }

  lemma {:induction false} PathIsUnderway(env: Env, p: Params, c: nat, path: seq<View>, t: nat)
    requires ChunkPath(env, p, c, path) && 0 < t < |path| - 1
    ensures Underway(env, p, path[0], path[t], path[0].conn.c2s[0])
  {
    hide Underway, Concluded;
    assert HandlerStep(env, p, c, path[t - 1], path[t - 1 + 1]) && Engaged(path[t].conn.handler);
    if t == 1 {
      Taken(env, p, c, path[0], path[1]);
    } else {
      PathIsUnderway(env, p, c, path, t - 1);
      UnderwayStep(env, p, c, path[0], path[t - 1], path[t], path[0].conn.c2s[0]);
    }
  }

  /** However the steps of the disk turn out, a path of the state machine ends as the code does:
      a chunk of the wrong size gets no answer, one with a wrong hash at most a negative one, and
      neither changes anything; an acceptable one is stored or the transfer has failed. */
  lemma ChunkAlone(env: Env, p: Params, c: nat, path: seq<View>)
    requires ChunkPath(env, p, c, path)
    ensures Concluded(env, p, path[0], path[|path| - 1], path[0].conn.c2s[0])
  {
    hide Underway, Concluded, HandlerStep;
    var m, n := path[0].conn.c2s[0], |path| - 2;
    assert HandlerStep(env, p, c, path[n], path[n + 1]);
    if n == 0 {
      Taken(env, p, c, path[0], path[1]);
    } else {
      PathIsUnderway(env, p, c, path, n);
      UnderwayStep(env, p, c, path[0], path[n], path[n + 1], m);
      CheckIsOver(env, p, path[0], path[n + 1], m);
    }
  }

  lemma CheckIsOver(env: Env, p: Params, v0: View, v: View, m: Msg)
    requires m.Chunk?
    ensures v.conn.handler.Check? ==> !Underway(env, p, v0, v, m)
  {
  }
}
