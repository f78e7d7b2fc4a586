/** The server's end of a data connection. Its code is shown to take only steps of the state machine,
    whatever the client, the other connections and the control handler do in between. */
module Server {
  import opened Wire
  import opened Storage
  import opened Metadata
  import opened Transfer
  import Chunks
  import Frames
  import Messages
  import Receiver
  import Safety
  import ConnSteps
  import Induction
  import Guarantees

  // ----- What a handler sees -------------------------------------------------------------------------

  predicate Readable(m: Msg)
  {
    m.Chunk? ==> m.i < U32 && |m.data| < U32
  }

  ghost predicate AllReadable(msgs: seq<Msg>)
  {
    forall j :: 0 <= j < |msgs| ==> Readable(msgs[j])
  }

  /** Anything that the others may do between two steps of a handler. */
  ghost predicate Around(v: View, v': View)
  {
    && v'.conn.handler == v.conn.handler && |v'.board.received| == |v.board.received|
    && v.conn.c2s <= v'.conn.c2s && AllReadable(v'.conn.c2s[|v.conn.c2s|..])
  }

  ghost predicate Legal(env: Env, p: Params, c: nat, views: seq<View>)
  {
    forall t :: 0 <= t < |views| - 1 ==>
      HandlerStep(env, p, c, views[t], views[t + 1]) || Around(views[t], views[t + 1])
  }

  lemma LegalMore(env: Env, p: Params, c: nat, views: seq<View>, v: View)
    requires Legal(env, p, c, views) && views != []
    requires HandlerStep(env, p, c, views[|views| - 1], v) || Around(views[|views| - 1], v)
    ensures Legal(env, p, c, views + [v])
  {
    hide HandlerStep, Around;
    var more := views + [v];
    forall t | 0 <= t < |more| - 1
      ensures HandlerStep(env, p, c, more[t], more[t + 1]) || Around(more[t], more[t + 1])
    {
      if t < |views| - 1 {
        assert HandlerStep(env, p, c, views[t], views[t + 1]) || Around(views[t], views[t + 1]);
      }
    }
  }

  /** The bytes of a frame carry the message. */
  ghost predicate Carries(b: Bytes, m: Msg)
  {
    match m
    case Query => b == Messages.QUERY
    case Chunk(i, data, hash) =>
      b != [] && b != Messages.QUERY && Messages.ParseChunk(b) == Messages.ChunkFrame(i, data, hash)
  }

  /** The payload of a message; the client's offset is not looked at. */
  function FrameOf(m: Msg, offset: nat): Bytes
  {
    match m
    case Query => Messages.QUERY
    case Chunk(i, data, hash) => Messages.ChunkMessage(i, offset, data, hash)
  }

  lemma FrameCarries(m: Msg, offset: nat)
    requires Readable(m)
    ensures Carries(FrameOf(m, offset), m)
  {
    hide Messages.ParseChunk;
    if m.Chunk? {
      Messages.ChunkRoundTrip(m.i, offset, m.data, m.hash);
    }
  }

  // ----- Connection, lock and disk, as a handler uses them -----------------------------------------------

  class Desk {
    const env: Env
    const p: Params
    const c: nat
    /** The receiver behind the mutex, the disk, and what the client has sent. */
    var board: Board
    var files: Files
    var inbox: seq<Msg>
    /** How many frames the connection will still carry. */
    var left: nat
    /** The message that was taken from the stream and is being dealt with. */
    ghost var taken: seq<Msg>
    ghost var views: seq<View>
    /** All messages taken from the stream, and those that a step of the handler has dealt with. */
    ghost var got: seq<Msg>
    ghost var done: seq<Msg>
    /** Operations that failed: no frame came, an answer could not be sent, the disk refused. */
    ghost var faults: nat

    ghost function Now(): View
      requires views != []
      reads this
    {
      views[|views| - 1]
    }

    ghost predicate Valid()
      reads this
    {
      && views != [] && Legal(env, p, c, views)
      && AllReadable(inbox) && |board.received| == p.N()
      && Now().board == board && Now().disk == files && Now().conn.c2s == taken + inbox
      && got == done + taken
    }

    constructor (env: Env, p: Params, c: nat, ghost v: View, board: Board, files: Files, frames: nat)
      requires v.board == board && v.disk == files && v.conn.c2s == [] && |board.received| == p.N()
      ensures Valid() && views == [v] && taken == [] && got == [] && faults == 0
      ensures this.env == env && this.p == p && this.c == c
    {
      this.env, this.p, this.c := env, p, c;
      this.board, this.files, inbox, left, taken, views := board, files, [], frames, [], [v];
      got, done, faults := [], [], 0;
    }

    /** The others go on. */
    method Wait()
      requires Valid()
      modifies `board, `files, `inbox, `views
      ensures Valid() && old(views) <= views && Around(old(Now()), Now())
    {
      hide HandlerStep, Legal;
      var b: Board := *;
      var m: Msg := *;
      var arrives: bool := *;
      if |b.received| == p.N() {
        board := b;
      }
      files := *;
      if arrives && Readable(m) {
        inbox := inbox + [m];
      }
      ghost var rest: View := *;
      ghost var v := Now();
      ghost var v' := View(files, rest.acked, board, rest.conn.(handler := v.conn.handler, c2s := taken + inbox));
      LegalMore(env, p, c, views, v');
      views := views + [v'];
    }

    /** Waits for the mutex. */
    method Lock()
      requires Valid()
      modifies `board, `files, `inbox, `views
      ensures Valid() && old(views) <= views && Around(old(Now()), Now()) && board.lock == Free
    {
      hide HandlerStep, Legal;
      Wait();
      board := board.(lock := Free);
      ghost var v' := Now().(board := board);
      LegalMore(env, p, c, views, v');
      views := views + [v'];
    }

    /** A step of the handler itself. */
    ghost method Step(v: View)
      requires views != [] && Legal(env, p, c, views) && HandlerStep(env, p, c, Now(), v)
      requires AllReadable(inbox) && |board.received| == p.N() && v.board == board && v.disk == files
      requires v.conn.c2s == inbox || v.conn.c2s == taken + inbox
      requires got == done + taken
      modifies `views, `taken, `done
      ensures Valid() && old(views) <= views && Now() == v && (v.conn.c2s == inbox ==> taken == [])
      ensures old(taken) == [] ==> done == old(done)
      ensures |views| == |old(views)| + 1 && views[|views| - 2] == old(Now())
    {
      hide HandlerStep;
      LegalMore(env, p, c, views, v);
      if v.conn.c2s == inbox {
        done, taken := done + taken, [];
      }
      views := views + [v];
    }

    /** Takes the next frame, or finds the connection closed or silent for too long. An empty frame,
        which the client never sends, carries no message. */
    method Recv() returns (r: Result<Bytes>)
      requires Valid() && taken == []
      modifies `board, `files, `inbox, `left, `taken, `got, `faults, `views
      ensures Valid() && old(views) <= views && Around(old(Now()), Now())
      ensures r.Err? || r.value == [] ==> taken == [] && got == old(got) && faults == old(faults) + 1
      ensures r.Ok? && r.value != [] ==>
                && left < old(left) && |taken| == 1 && Readable(taken[0]) && Carries(r.value, taken[0])
                && got == old(got) + taken && faults == old(faults)
    {
      hide Legal, HandlerStep, Messages.ParseChunk, Messages.ChunkMessage;
      Wait();
      if left == 0 || inbox == [] {
        faults := faults + 1;
        return if left == 0 then Err else Ok([]);
      }
      var offset: int := *;
      var m := inbox[0];
      FrameCarries(m, if offset < 0 then 0 else offset);
      r := Ok(FrameOf(m, if offset < 0 then 0 else offset));
      left := left - 1;
      taken, inbox, got := [m], inbox[1..], got + [m];
    }

    /** Sends the answer that is due. */
    method Send(b: Bytes) returns (sent: bool)
      requires Valid() && Now().conn.handler.Replying? && b == ReplyBytes(p.N(), Now().conn.handler.reply)
      requires taken == []
      modifies `board, `files, `inbox, `taken, `done, `faults, `views
      ensures Valid() && old(views) <= views && taken == [] && done == old(done)
      ensures Now().conn.handler == if sent || old(Now()).conn.handler.reply.Ack? then Check else Closed
      ensures faults == if sent then old(faults) else old(faults) + 1
    {
      Wait();
      sent := *;
      ghost var k := Now().conn;
      if sent {
        Step(Now().(conn := k.(handler := Check, s2c := k.s2c + [k.handler.reply])));
      } else {
        faults := faults + 1;
        Step(Now().(conn := k.(handler := if k.handler.reply.Have? then Closed else Check)));
      }
    }

    /** `fs::write` of a part: any number of times a piece more is in the file. */
    method WritePart(i: nat, data: Bytes) returns (ok: bool)
      requires Valid() && taken == [] && Now().conn.handler.Writing?
      requires Now().conn.handler.i == i && Now().conn.handler.data == data
      modifies `board, `files, `inbox, `taken, `done, `faults, `views
      ensures Valid() && old(views) <= views && taken == [] && done == old(done)
      ensures var h := old(Now()).conn.handler;
              Now().conn.handler == if ok then Written(h.i, h.data, h.hash) else h
      ensures faults == if ok then old(faults) else old(faults) + 1
    {
      hide HandlerStep, Legal;
      ghost var h := Now().conn.handler;
      Wait();
      var fails: bool := *;
      if fails {
        faults := faults + 1;
        return false;
      }
      var pieces := 0;
      while pieces < |data|
        invariant pieces <= |data| && Valid() && old(views) <= views && taken == [] && Now().conn.handler == h
        invariant faults == old(faults) && done == old(done)
      {
        files := files[Part(i) := data[..pieces]];
        PieceStep(env, p, c, Now(), pieces);
        Step(Now().(disk := files));
        Wait();
        fails := *;
        if fails {
          faults := faults + 1;
          return false;
        }
        pieces := pieces + 1;
      }
      files := files[Part(i) := data];
      WholeStep(env, p, c, Now());
      Step(By(Now().(disk := files), Written(i, data, h.hash)));
      return true;
    }

    /** One operation of a save, under the lock. */
    method SaveOp(op: Op) returns (ok: bool)
      requires Valid() && taken == [] && Now().conn.handler.Saving?
      requires var todo := Now().conn.handler.exec.todo; todo != [] && todo[0] == op
      requires op.Write? || op.Rename? || op.Remove?
      modifies `board, `files, `inbox, `taken, `done, `faults, `views
      ensures Valid() && old(views) <= views && taken == [] && done == old(done)
      ensures var e := old(Now()).conn.handler.exec;
              Now().conn.handler == Saving(old(Now()).conn.handler.i,
                if ok then e.(todo := e.todo[1..])
                else if op.Rename? then Exec([Remove(op.src)], false) else FAILED)
      ensures op.Remove? ==> ok
      ensures faults == if ok then old(faults) else old(faults) + 1
    {
      Wait();
      ghost var v := Now();
      ghost var i, e := v.conn.handler.i, v.conn.handler.exec;
      ok := *;
      if op.Rename? && op.src !in files {
        ok := false;
      }
      ok := ok || op.Remove?;
      if !ok {
        faults := faults + 1;
      }
      ghost var e' := if ok then e.(todo := e.todo[1..]) else if op.Rename? then Exec([Remove(op.src)],
          false) else FAILED;
      var ignored: bool := *;
      if ok && !(op.Remove? && ignored) {
        files := Applied(op, files);
      }
      SaveOpStep(env, p, c, v, files, op, ok);
      Step(By(v.(disk := files), Saving(i, e')));
    }
  }

  function By(v: View, h: Handler): View
  {
    v.(conn := v.conn.(handler := h))
  }

  lemma PieceStep(env: Env, p: Params, c: nat, v: View, pieces: nat)
    requires v.conn.handler.Writing? && pieces <= |v.conn.handler.data|
    ensures var h := v.conn.handler;
            HandlerStep(env, p, c, v, v.(disk := v.disk[Part(h.i) := h.data[..pieces]]))
  {
    var h := v.conn.handler;
    var fs' := v.disk[Part(h.i) := h.data[..pieces]];
    var e := Exec([Write(Part(h.i), h.data)], true);
    assert fs' == v.disk[Part(h.i) := fs'[Part(h.i)]];
    assert ExecStep(v.disk, e, fs', e);
  }

  lemma WholeStep(env: Env, p: Params, c: nat, v: View)
    requires v.conn.handler.Writing?
    ensures var h := v.conn.handler;
            HandlerStep(env, p, c, v, By(v.(disk := v.disk[Part(h.i) := h.data]), Written(h.i, h.data, h.hash)))
  {
    var h := v.conn.handler;
    var e := Exec([Write(Part(h.i), h.data)], true);
    assert ExecStep(v.disk, e, v.disk[Part(h.i) := h.data], Exec([], true));
  }

  lemma SaveOpStep(env: Env, p: Params, c: nat, v: View, files: Files, op: Op, ok: bool)
    requires v.conn.handler.Saving? && v.conn.handler.exec.todo != [] && v.conn.handler.exec.todo[0] == op
    requires op.Write? || op.Rename? || op.Remove?
    requires (op.Remove? ==> ok) && (op.Rename? && ok ==> op.src in v.disk)
    requires files == (if ok then Applied(op, v.disk) else v.disk) || (op.Remove? && files == v.disk)
    ensures var e := v.conn.handler.exec;
            HandlerStep(env, p, c, v, By(v.(disk := files), Saving(v.conn.handler.i,
              if ok then e.(todo := e.todo[1..])
              else if op.Rename? then Exec([Remove(op.src)], false) else FAILED)))
  {
  }

  // ----- The code ----------------------------------------------------------------------------------------

  lemma QueryStep(env: Env, p: Params, c: nat, v: View)
    requires v.conn.handler.Recv? && v.conn.c2s != [] && v.conn.c2s[0].Query? && v.board.lock == Free
    ensures HandlerStep(env, p, c, v,
              v.(conn := v.conn.(c2s := v.conn.c2s[1..],
                  handler := Replying(Have(Messages.ReceivedSet(v.board.received))))))
  {
  }

  lemma HaveBytes(received: seq<bool>)
    ensures Messages.HaveReply(received) == ReplyBytes(|received|, Have(Messages.ReceivedSet(received)))
  {
    assert received == seq(|received|, (i: nat) => i in Messages.ReceivedSet(received));
  }

  /** The indices are read under the lock and sent outside it. */
  method HandleQuery(d: Desk) returns (sent: bool)
    requires d.Valid() && d.Now().conn.handler.Recv? && d.taken == [Query]
    modifies d
    ensures d.Valid() && old(d.views) <= d.views && d.taken == [] && d.left == old(d.left)
    ensures d.Now().conn.handler == if sent then Check else Closed
    ensures d.got == old(d.got) && d.done == old(d.done) + [Query]
    ensures d.faults == if sent then old(d.faults) else old(d.faults) + 1
  {
    hide HandlerStep, Legal, ReplyBytes, Messages.HaveReply, Messages.ReceivedSet;
    d.Lock();
    var resp := Messages.BuildHave(d.board.received);
    HaveBytes(d.board.received);
    QueryStep(d.env, d.p, d.c, d.Now());
    ghost var v := d.Now();
    d.Step(v.(conn := v.conn.(c2s := d.inbox, handler := Replying(Have(Messages.ReceivedSet(v.board.received))))));
    sent := d.Send(resp);
  }

  /** What becomes of a chunk that was just taken. */
  function Judge(env: Env, p: Params, m: Msg): Handler
    requires m.Chunk?
  {
    if !Receiver.RightSize(p.ToOffer(env.h), m.i, |m.data|) then Check
    else if env.h(m.data) != m.hash then Replying(Ack(false))
    else Writing(m.i, m.data, m.hash)
  }

  lemma JudgeStep(env: Env, p: Params, c: nat, v: View)
    requires v.conn.handler.Recv? && v.conn.c2s != [] && v.conn.c2s[0].Chunk?
    ensures HandlerStep(env, p, c, v,
              v.(conn := v.conn.(c2s := v.conn.c2s[1..], handler := Judge(env, p, v.conn.c2s[0]))))
  {
    hide Chunks.ServerSize;
  }

  /** Parses the frame and checks index and size, then stores and answers. A chunk of the wrong size
      is dropped without an answer. */
  method ProcessChunk(d: Desk, frame: Bytes)
    requires d.Valid() && d.Now().conn.handler.Recv? && |d.taken| == 1 && d.taken[0].Chunk?
    requires Carries(frame, d.taken[0])
    modifies d
    ensures d.Valid() && old(d.views) <= d.views && d.taken == [] && d.left == old(d.left)
    ensures d.Now().conn.handler == Check
    ensures d.got == old(d.got) && d.done == old(d.done) + old(d.taken) && d.faults >= old(d.faults)
  {
    hide HandlerStep, Legal, Judge;
    ghost var m := d.taken[0];
    var f := Messages.ParseChunk(frame);
    JudgeStep(d.env, d.p, d.c, d.Now());
    JudgeIs(d.env, d.p, m);
    ghost var v := d.Now();
    d.Step(v.(conn := v.conn.(c2s := d.inbox, handler := Judge(d.env, d.p, m))));
    if Receiver.RightSize(d.p.ToOffer(d.env.h), f.index, |f.data|) {
      var ack := VerifyAndWriteChunk(d, f.index, f.data, f.hash);
      AckBytes(d.p.N(), ack);
      var sent := d.Send(if ack then Messages.ACK_OK else Messages.ACK_HASH_MISMATCH);
    }
  }

  lemma AckBytes(n: nat, ack: bool)
    ensures ReplyBytes(n, Ack(ack)) == if ack then Messages.ACK_OK else Messages.ACK_HASH_MISMATCH
  {
  }

  lemma JudgeIs(env: Env, p: Params, m: Msg)
    requires m.Chunk?
    ensures Judge(env, p, m) ==
              if !Receiver.RightSize(p.ToOffer(env.h), m.i, |m.data|) then Check
              else if env.h(m.data) != m.hash then Replying(Ack(false))
              else Writing(m.i, m.data, m.hash)
  {
  }

  lemma WriteFailedStep(env: Env, p: Params, c: nat, v: View)
    requires v.conn.handler.Writing? && v.board.lock == Free
    ensures HandlerStep(env, p, c, v, By(v.(board := v.board.(failed := true)), Replying(Ack(false))))
  {
    var h := v.conn.handler;
    assert ExecStep(v.disk, Exec([Write(Part(h.i), h.data)], true), v.disk, FAILED);
  }

  lemma LockStep(env: Env, p: Params, c: nat, v: View)
    requires v.conn.handler.Written? && v.board.lock == Free && v.conn.handler.i < |v.board.received|
    ensures var h := v.conn.handler;
            var r := Recorded(v, c, h.i, h.hash);
            HandlerStep(env, p, c, v, By(r, Saving(h.i, Exec(SaveScript(Encode(r.board.meta)), true))))
  {
    hide Encode;
  }

  /** The end of a save: the lock is given back, a failure is noted. */
  function Unlocked(b: Board, ok: bool): Board
  {
    b.(lock := Free, failed := b.failed || !ok)
  }

  lemma UnlockStep(env: Env, p: Params, c: nat, v: View)
    requires v.conn.handler.Saving? && v.conn.handler.exec.todo == []
    ensures var h := v.conn.handler;
            HandlerStep(env, p, c, v,
              View(v.disk, if h.exec.ok then v.acked + {h.i} else v.acked, Unlocked(v.board, h.exec.ok),
                   v.conn.(handler := Replying(Ack(h.exec.ok)))))
  {
  }

  /** Hash check, part write outside the lock, record under the lock. */
  method VerifyAndWriteChunk(d: Desk, i: nat, data: Bytes, hash: Digest) returns (ack: bool)
    requires d.Valid() && d.taken == [] && i < d.p.N()
    requires d.Now().conn.handler == if d.env.h(data) == hash then Writing(i, data, hash) else Replying(Ack(false))
    modifies d
    ensures d.Valid() && old(d.views) <= d.views && d.taken == [] && d.left == old(d.left)
    ensures d.Now().conn.handler == Replying(Ack(ack)) && d.got == old(d.got) && d.done == old(d.done)
    ensures if ack || d.env.h(data) != hash then d.faults == old(d.faults) else d.faults > old(d.faults)
  {
    hide HandlerStep, Legal, Encode;
    if d.env.h(data) != hash {
      return false;
    }
    var ok := d.WritePart(i, data);
    if !ok {
      d.Lock();
      WriteFailedStep(d.env, d.p, d.c, d.Now());
      d.board := d.board.(failed := true);
      d.Step(By(d.Now().(board := d.board), Replying(Ack(false))));
      return false;
    }
    ack := RecordChunk(d, i, hash);
  }

  /** Under the lock: flag, in-memory hash, save; a save that fails marks the transfer as failed. */
  method RecordChunk(d: Desk, i: nat, hash: Digest) returns (ok: bool)
    requires d.Valid() && d.taken == [] && i < d.p.N()
    requires d.Now().conn.handler.Written? && d.Now().conn.handler.i == i && d.Now().conn.handler.hash == hash
    modifies d
    ensures d.Valid() && old(d.views) <= d.views && d.taken == [] && d.left == old(d.left)
    ensures d.Now().conn.handler == Replying(Ack(ok)) && d.got == old(d.got) && d.done == old(d.done)
    ensures if ok then d.faults == old(d.faults) else d.faults > old(d.faults)
  {
    hide HandlerStep, Legal, Encode;
    d.Lock();
    LockStep(d.env, d.p, d.c, d.Now());
    ghost var r := Recorded(d.Now(), d.c, i, hash);
    d.board := d.board.(received := d.board.received[i := true],
                        meta := d.board.meta.(hashes := d.board.meta.hashes[i := hash]), lock := ByHandler(d.c));
    var bytes := BytesOf(d.board.meta);
    d.Step(By(r, Saving(i, Exec(SaveScript(bytes), true))));
    ok := Save(d, bytes);
    UnlockStep(d.env, d.p, d.c, d.Now());
    ghost var v := d.Now();
    d.board := Unlocked(d.board, ok);
    d.Step(View(v.disk, if ok then v.acked + {i} else v.acked, d.board, v.conn.(handler := Replying(Ack(ok)))));
  }

  method BytesOf(m: Meta) returns (b: Bytes)
    ensures b == Encode(m)
  {
    var record := new TransferMetadata(m.chunkSize, m.numChunks, m.fileSize, m.fullHash);
    record.chunkHashes := m.hashes;
    b := record.ToBytes();
  }

  /** Temporary file, then rename; a rename that fails is followed by the removal of the temporary file. */
  method Save(d: Desk, bytes: Bytes) returns (ok: bool)
    requires d.Valid() && d.taken == [] && d.Now().conn.handler.Saving?
    requires d.Now().conn.handler.exec == Exec(SaveScript(bytes), true)
    modifies d
    ensures d.Valid() && old(d.views) <= d.views && d.taken == [] && d.left == old(d.left)
    ensures d.Now().conn.handler == Saving(old(d.Now()).conn.handler.i, Exec([], ok))
    ensures d.got == old(d.got) && d.done == old(d.done)
    ensures if ok then d.faults == old(d.faults) else d.faults > old(d.faults)
  {
    hide HandlerStep, Legal;
    assert SaveScript(bytes)[1..] == [Rename(TmpFile, MetaFile)] && [Rename(TmpFile, MetaFile)][1..] == [];
    assert [Remove(TmpFile)][1..] == [];
    ok := d.SaveOp(Write(TmpFile, bytes));
    if ok {
      ok := d.SaveOp(Rename(TmpFile, MetaFile));
      if !ok {
        var removed := d.SaveOp(Remove(TmpFile));
      }
    }
  }

  lemma CheckStep(env: Env, p: Params, c: nat, v: View)
    requires v.conn.handler.Check?
    ensures HandlerStep(env, p, c, v, By(v, if v.board.failed then Closed else Recv))
  {
  }

  lemma CloseStep(env: Env, p: Params, c: nat, v: View)
    requires v.conn.handler.Recv?
    ensures HandlerStep(env, p, c, v, By(v, Closed))
  {
  }

  /** The last step was taken because the transfer was seen to have failed. */
  ghost predicate FailureSeen(views: seq<View>)
  {
    && |views| >= 2
    && var v := views[|views| - 2];
       v.conn.handler.Check? && v.board.failed
  }

  /** `handle_data_connection`: from the first look at the failure mark to the end of the connection by
      steps of the state machine only. Every message that was taken has been dealt with, and the
      connection ends only because the transfer has failed, no further frame came, or the answer to a
      query could not be sent. */
  method Handle(d: Desk)
    requires d.Valid() && d.taken == [] && d.Now().conn.handler.Check?
    modifies d
    ensures d.Valid() && old(d.views) <= d.views && d.Now().conn.handler.Closed?
    ensures d.taken == [] && d.done == d.got && old(d.got) <= d.got
    ensures FailureSeen(d.views) || d.faults > old(d.faults)
  {
    hide HandlerStep, Legal, Carries;
    while true
      invariant d.Valid() && old(d.views) <= d.views && d.taken == [] && d.Now().conn.handler.Check?
      invariant old(d.got) <= d.got && d.faults >= old(d.faults)
      decreases d.left
    {
      d.Lock();
      var failed := d.board.failed;
      CheckStep(d.env, d.p, d.c, d.Now());
      d.Step(By(d.Now(), if failed then Closed else Recv));
      if failed {
        return;
      }
      var data := d.Recv();
      if data.Err? || data.value == [] {
        CloseStep(d.env, d.p, d.c, d.Now());
        d.Step(By(d.Now(), Closed));
        return;
      }
      FrameKind(data.value, d.taken[0]);
      if data.value == Messages.QUERY {
        var sent := HandleQuery(d);
        if !sent {
          return;
        }
      } else {
        ProcessChunk(d, data.value);
      }
    }
  }

  lemma FrameKind(b: Bytes, m: Msg)
    requires Carries(b, m)
    ensures m.Query? <==> b == Messages.QUERY
  {
  }

  // ----- The rest of the system ------------------------------------------------------------------------

  /** `Around` covers everything that can happen: in every run, what connection `c` sees from one state
      to the next is a step of its handler or a doing of the others. */
  lemma RestOfSystem(env: Env, run: seq<State>, t: nat, c: nat)
    requires CollisionFree(env) && Run(env, run) && t + 1 < |run|
    requires run[t].phase.Live? && run[t + 1].phase.Live? && c < |run[t].phase.conns|
    ensures run[t + 1].phase.p == run[t].phase.p && |run[t + 1].phase.conns| == |run[t].phase.conns|
    ensures var v, v' := ViewOf(run[t], c), ViewOf(run[t + 1], c);
            HandlerStep(env, run[t].phase.p, c, v, v') || Around(v, v')
  {
    hide Next, WorkerStep, HandlerStep, ControlStep, Around, Safety.Inv;
    var s, s' := run[t], run[t + 1];
    assert Next(env, run[t], run[t + 1]);
    Induction.LiveSteps(env, s, s');
    if d: nat :| ConnStep(env, s, s', d) {
      if d == c {
        OwnConnection(env, run, t, c);
      } else {
        OtherConnection(env, s, s', d, c);
      }
    } else if ControlStep(env, s, s') {
      Guarantees.ControlFrame(env, s, s');
      Untouched(s, s', c);
    } else {
      Untouched(s, s', c);
    }
  }

  lemma Untouched(s: State, s': State, c: nat)
    requires s.phase.Live? && s'.phase.Live? && c < |s.phase.conns| && s'.phase.conns == s.phase.conns
    requires s'.phase.board.received == s.phase.board.received
    ensures Around(ViewOf(s, c), ViewOf(s', c))
  {
  }

  lemma OtherConnection(env: Env, s: State, s': State, d: nat, c: nat)
    requires s.phase.Live? && c < |s.phase.conns| && c != d && ConnStep(env, s, s', d)
    ensures s'.phase.Live? && s'.phase.p == s.phase.p && |s'.phase.conns| == |s.phase.conns|
    ensures Around(ViewOf(s, c), ViewOf(s', c))
  {
    hide WorkerStep, HandlerStep;
    var p, v, v' := s.phase.p, ViewOf(s, d), ViewOf(s', d);
    if WorkerStep(env, p, v, v') {
      ConnSteps.WorkerFrame(env, p, v, v');
    } else {
      SameNumber(env, p, d, v, v');
    }
  }

  lemma SameNumber(env: Env, p: Params, c: nat, v: View, v': View)
    requires HandlerStep(env, p, c, v, v')
    ensures |v'.board.received| == |v.board.received|
  {
    hide ExecStep, Encode, Chunks.ServerSize;
  }

  lemma OwnConnection(env: Env, run: seq<State>, t: nat, c: nat)
    requires CollisionFree(env) && Run(env, run) && t + 1 < |run| && run[t].phase.Live? && c < |run[t].phase.conns|
    requires ConnStep(env, run[t], run[t + 1], c)
    ensures run[t + 1].phase.Live? && run[t + 1].phase.p == run[t].phase.p
    ensures |run[t + 1].phase.conns| == |run[t].phase.conns|
    ensures var v, v' := ViewOf(run[t], c), ViewOf(run[t + 1], c);
            HandlerStep(env, run[t].phase.p, c, v, v') || Around(v, v')
  {
    hide WorkerStep, HandlerStep, Around, Safety.Inv, Next;
    Guarantees.ConnOfRun(env, run, t, c);
    Induction.RunKeeps(env, run, t);
    Safety.HonestLive(env, run[t]);
    var ph := run[t].phase;
    if WorkerStep(env, ph.p, ViewOf(run[t], c), ViewOf(run[t + 1], c)) {
      WorkerData(env, ph.p, run[t].disk, ph.board, Safety.Removed(ph.control), |ph.conns|, c, ph.conns[c]);
      OwnWorker(env, ph.p, ViewOf(run[t], c), ViewOf(run[t + 1], c));
    }
  }

  lemma WorkerData(env: Env, p: Params, fs: Files, b: Board, removed: nat, w: nat, c: nat, k: Conn)
    requires Safety.ConnInv(env, p, fs, b, removed, w, c, k)
    ensures forall j :: 0 <= j < |k.mine| ==> k.mine[j] < p.N()
    ensures k.worker.Sending? && k.worker.pos < |k.mine| ==> k.worker.data <= p.Slice(k.mine[k.worker.pos])
  {
    hide Safety.HandlerInv, Safety.MsgInv, Safety.ListsInv, Safety.DoneTo, Safety.RestKnown;
  }

  lemma OwnWorker(env: Env, p: Params, v: View, v': View)
    requires WorkerStep(env, p, v, v') && Honest(env, p)
    requires forall j :: 0 <= j < |v.conn.mine| ==> v.conn.mine[j] < p.N()
    requires v.conn.worker.Sending? && v.conn.worker.pos < |v.conn.mine| ==>
               v.conn.worker.data <= p.Slice(v.conn.mine[v.conn.worker.pos])
    ensures Around(v, v')
  {
  }
}
