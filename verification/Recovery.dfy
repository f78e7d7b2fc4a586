/** No crash is final: from every reachable state some continuation delivers any honest transfer. */
module Recovery {
  import opened Wire
  import opened Storage
  import opened Metadata
  import opened Receiver
  import opened Transfer
  import opened Safety
  import SessionSteps
  import ConnSteps
  import Induction
  import Guarantees
  import Chunks
  import Messages
  import Assignment

  // ----- Continuations ---------------------------------------------------------------------------------

  /** The steps of the programs themselves, and the end of a session: no interrupt, no corruption,
      and every new session is one of `p`. */
  ghost predicate Works(env: Env, p: Params, s: State, s': State)
  {
    || (Begin(env, s, s') && s'.phase.p == p)
    || LoadStep(s, s')
    || GoLive(env, s, s')
    || (exists c :: ConnStep(env, s, s', c))
    || (s.phase.Live? && ControlStep(env, s, s'))
    || Stop(s, s')
  }

  lemma WorksIsNext(env: Env, p: Params, s: State, s': State)
    requires Works(env, p, s, s')
    ensures Next(env, s, s')
  {
    hide Begin, LoadStep, GoLive, ConnStep, ControlStep, Stop;
  }

  ghost predicate Path(env: Env, p: Params, path: seq<State>)
  {
    path != [] && forall t :: 0 <= t < |path| - 1 ==> Works(env, p, path[t], path[t + 1])
  }

  /** Some sequence of steps goes from `s` to `s'`. */
  ghost predicate Leads(env: Env, p: Params, s: State, s': State)
  {
    exists path :: Path(env, p, path) && path[0] == s && path[|path| - 1] == s'
  }

  lemma Stay(env: Env, p: Params, s: State)
    ensures Leads(env, p, s, s)
  {
    assert Path(env, p, [s]) && [s][0] == s;
  }

  lemma Onward(env: Env, p: Params, s: State, m: State, s': State)
    requires Leads(env, p, s, m) && Works(env, p, m, s')
    ensures Leads(env, p, s, s')
  {
    hide Works;
    var path :| Path(env, p, path) && path[0] == s && path[|path| - 1] == m;
    var longer := path + [s'];
    forall t | 0 <= t < |longer| - 1
      ensures Works(env, p, longer[t], longer[t + 1])
    {
      if t < |path| - 1 {
        assert Works(env, p, path[t], path[t + 1]);
      }
    }
    assert Path(env, p, longer) && longer[0] == s;
  }

  lemma Join(env: Env, p: Params, s: State, m: State, s': State)
    requires Leads(env, p, s, m) && Leads(env, p, m, s')
    ensures Leads(env, p, s, s')
  {
    hide Works;
    var a :| Path(env, p, a) && a[0] == s && a[|a| - 1] == m;
    var b :| Path(env, p, b) && b[0] == m && b[|b| - 1] == s';
    var both := a + b[1..];
    forall t | 0 <= t < |both| - 1
      ensures Works(env, p, both[t], both[t + 1])
    {
      if t < |a| - 1 {
        assert Works(env, p, a[t], a[t + 1]);
      } else {
        var u := t - (|a| - 1);
        assert both[t] == b[u] && both[t + 1] == b[u + 1];
        assert Works(env, p, b[u], b[u + 1]);
      }
    }
    assert Path(env, p, both) && both[0] == s && both[|both| - 1] == s';
  }

  lemma WorkKeeps(env: Env, p: Params, s: State, s': State)
    requires CollisionFree(env) && Inv(env, s) && Works(env, p, s, s')
    ensures Inv(env, s')
  {
    hide Works, Next, Inv;
    WorksIsNext(env, p, s, s');
    Induction.NextKeeps(env, s, s');
  }

  lemma {:induction false} PathKeeps(env: Env, p: Params, path: seq<State>, t: nat)
    requires CollisionFree(env) && Path(env, p, path) && t < |path| && Inv(env, path[0])
    ensures Inv(env, path[t])
  {
    hide Works, Inv;
    if t > 0 {
      PathKeeps(env, p, path, t - 1);
      assert Works(env, p, path[t - 1], path[t - 1 + 1]);
      WorkKeeps(env, p, path[t - 1], path[t]);
    }
  }

  lemma LeadsKeeps(env: Env, p: Params, s: State, s': State)
    requires CollisionFree(env) && Leads(env, p, s, s') && Inv(env, s)
    ensures Inv(env, s')
  {
    hide Works, Inv;
    var path :| Path(env, p, path) && path[0] == s && path[|path| - 1] == s';
    PathKeeps(env, p, path, |path| - 1);
  }

  // ----- Loading ---------------------------------------------------------------------------------------

  /** Each operation of a resume can succeed. */
  lemma LoadOpSucceeds(env: Env, s: State) returns (m: State)
    requires Inv(env, s) && s.phase.Loading? && s.phase.exec.todo != []
    ensures Works(env, s.phase.p, s, m) && m.phase == s.phase.(exec := s.phase.exec.(todo := s.phase.exec.todo[1..]))
  {
    hide Encode, DiskInv, AckedInv;
    var e := s.phase.exec;
    SessionSteps.FirstOp(s.disk, s.phase.found, e.todo);
    var fs' := Applied(e.todo[0], s.disk);
    m := s.(disk := fs', phase := s.phase.(exec := e.(todo := e.todo[1..])));
    assert ExecStep(s.disk, e, fs', m.phase.exec);
    assert LoadStep(s, m);
  }

  lemma {:induction false} LoadFinishes(env: Env, s: State) returns (s': State)
    requires CollisionFree(env) && Inv(env, s) && s.phase.Loading?
    ensures Leads(env, s.phase.p, s, s') && Inv(env, s') && s'.phase.Loading? && s'.phase.p == s.phase.p
              && s'.phase.exec.todo == []
    decreases |s.phase.exec.todo|
  {
    hide Works, Inv, Leads;
    Stay(env, s.phase.p, s);
    if s.phase.exec.todo == [] {
      s' := s;
    } else {
      var m := LoadOpSucceeds(env, s);
      Onward(env, s.phase.p, s, s, m);
      WorkKeeps(env, s.phase.p, s, m);
      s' := LoadFinishes(env, m);
      Join(env, s.phase.p, s, m, s');
    }
  }

  // ----- Assembly --------------------------------------------------------------------------------------

  /** What is left of the part that is being copied. */
  function LeftToCopy(s: State): nat
    requires s.phase.Live? && s.phase.control.Assembling?
  {
    var todo := s.phase.control.exec.todo;
    if todo != [] && todo[0].Copy? && todo[0].src in s.disk && todo[0].off <= |s.disk[todo[0].src]| then
      |s.disk[todo[0].src]| - todo[0].off
    else 0
  }

  /** One successful operation of assembly, copies 64 KiB at a time. */
  function AssembleOp(fs: Files, e: Exec): (Files, Exec)
    requires e.todo != []
  {
    var op, rest := e.todo[0], e.(todo := e.todo[1..]);
    if op.Copy? && op.src in fs && op.off < |fs[op.src]| && OutFile in fs then
      var m := Chunks.Min(BUFFER, |fs[op.src]| - op.off);
      (fs[OutFile := fs[OutFile] + fs[op.src][op.off..op.off + m]],
       e.(todo := [Copy(op.src, op.off + m)] + e.todo[1..]))
    else if op.Copy? then (fs, rest)
    else (Applied(op, fs), rest)
  }

  lemma AssembleOpSucceeds(fs: Files, e: Exec)
    requires e.todo != []
    requires e.todo[0].Write? || e.todo[0].Copy? || e.todo[0].MustRemove? || e.todo[0].Remove?
    requires e.todo[0].Copy? ==> e.todo[0].src in fs && OutFile in fs && e.todo[0].src != OutFile
    requires e.todo[0].MustRemove? ==> e.todo[0].name in fs
    ensures var (fs', e') := AssembleOp(fs, e);
            && ExecStep(fs, e, fs', e')
            && (e'.todo == e.todo[1..] ||
                  (|e'.todo| == |e.todo| && e.todo[0].Copy? && e'.todo[0].Copy? && e'.todo[0].src == e.todo[0].src
                   && e.todo[0].off < e'.todo[0].off <= |fs[e.todo[0].src]| && fs'[e.todo[0].src] == fs[e.todo[0].src]
                   && e.todo[0].src in fs'))
  {
    var (fs', e') := AssembleOp(fs, e);
    if e.todo[0].Copy? && e.todo[0].off < |fs[e.todo[0].src]| {
      var src, off := e.todo[0].src, e.todo[0].off;
      assert fs == fs[OutFile := fs[OutFile]];
      assert |fs'[OutFile]| - |fs[OutFile]| == Chunks.Min(BUFFER, |fs[src]| - off);
      assert Appended(fs, fs', src, off);
    }
  }

  lemma PartsLeft(fs: Files, env: Env, acked: set<nat>, p: Params, b: Board, k: nat)
    requires BoardInv(env, fs, acked, p, b, k) && AllReceived(b.received)
    ensures forall i: nat :: k <= i < p.N() ==> Part(i) in fs
  {
    forall i: nat | k <= i < p.N()
      ensures Part(i) in fs
    {
      assert Got(b, i) && PartIs(fs, p, i);
    }
  }

  /** In assembly every operation finds what it needs. */
  lemma NextOpReady(fs: Files, p: Params, e: Exec, k: nat)
    requires AssembleStage(fs, p, e, k) && e.ok && e.todo != []
    requires forall i: nat :: k <= i < p.N() ==> Part(i) in fs
    ensures e.todo[0].Write? || e.todo[0].Copy? || e.todo[0].MustRemove? || e.todo[0].Remove?
    ensures e.todo[0].Copy? ==> e.todo[0].src in fs && OutFile in fs && e.todo[0].src != OutFile
    ensures e.todo[0].MustRemove? ==> e.todo[0].name in fs
  {
    hide Chunks.Joined, Chunks.Slice, AssembleFrom;
  }

  lemma AssembleStep(env: Env, s: State) returns (m: State)
    requires Inv(env, s) && s.phase.Live? && s.phase.control.Assembling? && s.phase.control.exec.ok
               && s.phase.control.exec.todo != []
    ensures Works(env, s.phase.p, s, m) && m.phase.Live? && m.phase == s.phase.(control := m.phase.control)
    ensures m.phase.control.Assembling? && m.phase.control.exec.ok
    ensures var n, n' := |s.phase.control.exec.todo|, |m.phase.control.exec.todo|;
            n' < n || (n' == n && LeftToCopy(m) < LeftToCopy(s))
  {
    hide ConnInv, DiskInv, AckedInv, SyncInv, BoardInv, AssembleStage, ExecStep;
    var e, k := s.phase.control.exec, s.phase.control.k;
    PartsLeft(s.disk, env, s.acked, s.phase.p, s.phase.board, k);
    NextOpReady(s.disk, s.phase.p, e, k);
    AssembleOpSucceeds(s.disk, e);
    var (fs', e') := AssembleOp(s.disk, e);
    var must := e.todo[0].MustRemove?;
    m := s.(disk := fs', acked := if must then {} else s.acked,
            phase := s.phase.(control := Assembling(e', if must then k + 1 else k)));
    assert e' != FAILED;
    assert ControlStep(env, s, m);
  }

  lemma {:induction false} AssemblyFinishes(env: Env, s: State) returns (s': State)
    requires CollisionFree(env) && Inv(env, s) && s.phase.Live? && s.phase.control.Assembling?
               && s.phase.control.exec.ok
    ensures Leads(env, s.phase.p, s, s') && Inv(env, s') && s'.phase.Live? && s'.phase.control.Status?
              && s'.phase.control.ok
    ensures s'.phase.p == s.phase.p && s'.phase.conns == s.phase.conns
              && s'.phase.board.shutdown == s.phase.board.shutdown
    decreases |s.phase.control.exec.todo|, LeftToCopy(s)
  {
    hide Works, Inv, Leads, LeftToCopy;
    Stay(env, s.phase.p, s);
    var m: State;
    if s.phase.control.exec.todo == [] {
      m := LastStep(env, s);
      s' := m;
    } else {
      m := AssembleStep(env, s);
    }
    Onward(env, s.phase.p, s, s, m);
    WorkKeeps(env, s.phase.p, s, m);
    if s.phase.control.exec.todo != [] {
      s' := AssemblyFinishes(env, m);
      Join(env, s.phase.p, s, m, s');
    }
  }

  lemma LastStep(env: Env, s: State) returns (m: State)
    requires Inv(env, s) && s.phase.Live? && s.phase.control.Assembling? && s.phase.control.exec == Exec([], true)
    ensures Works(env, s.phase.p, s, m) && m.phase.Live? && m.phase.control.Status? && m.phase.control.ok
    ensures m.phase.p == s.phase.p && m.phase.conns == s.phase.conns && m.phase.board.shutdown == s.phase.board.shutdown
  {
    hide ConnInv, DiskInv, AckedInv, SyncInv, BoardInv, AssembleStage;
    Induction.FinishedOutput(s.disk, s.phase.p, s.phase.control.exec, s.phase.control.k);
    m := s.(phase := s.phase.(control := Status(true, s.phase.control.k), board := s.phase.board.(lock := Free)));
    assert ControlStep(env, s, m);
  }

  // ----- One connection delivers everything --------------------------------------------------------------

  /** A live session with a single connection whose control handler waits. */
  function Session(p: Params, ackedBy: Params, v: View): State
  {
    State(v.disk, Live(p, v.board, [v.conn], Waiting), v.acked, ackedBy)
  }

  /** The worker or the handler of the only connection moves. */
  ghost predicate Hop(env: Env, p: Params, v: View, v': View)
  {
    WorkerStep(env, p, v, v') || HandlerStep(env, p, 0, v, v')
  }

  lemma HopOn(env: Env, p: Params, ackedBy: Params, s: State, v: View, v': View)
    requires Leads(env, p, s, Session(p, ackedBy, v)) && Hop(env, p, v, v')
    ensures Leads(env, p, s, Session(p, ackedBy, v'))
  {
    hide WorkerStep, HandlerStep, Leads;
    assert [v.conn][0 := v'.conn] == [v'.conn];
    assert ConnStep(env, Session(p, ackedBy, v), Session(p, ackedBy, v'), 0);
    Onward(env, p, s, Session(p, ackedBy, v), Session(p, ackedBy, v'));
  }

  /** Nothing is under way, nothing has failed, chunk number `pos` of the list is next. */
  ghost predicate Idle(p: Params, v: View, pos: nat, already: set<nat>)
  {
    && v.conn.worker == Ready(pos, already) && v.conn.mine == Assignment.Assigned(p.N(), 1, 0) && v.conn.fail == []
    && v.conn.c2s == [] && v.conn.s2c == [] && v.conn.handler == Check
    && !v.board.failed && !v.board.shutdown && v.board.lock == Free && |v.board.received| == p.N()
  }

  function To(v: View, w: Worker): View
  {
    v.(conn := v.conn.(worker := w))
  }

  function By(v: View, h: Handler): View
  {
    v.(conn := v.conn.(handler := h))
  }

  /** The client's half: the chunk is on the wire and its answer awaited. */
  lemma SendsChunk(env: Env, p: Params, ackedBy: Params, v: View, pos: nat, already: set<nat>) returns (v': View)
    requires Honest(env, p) && env.retries > 0 && Idle(p, v, pos, already) && pos < |v.conn.mine|
               && v.conn.mine[pos] !in already
    ensures var i := v.conn.mine[pos];
            && Leads(env, p, Session(p, ackedBy, v), Session(p, ackedBy, v'))
            && v' == v.(conn := v.conn.(worker := WaitAck(pos, already, 0, p.Slice(i)),
                                        c2s := [Chunk(i, p.Slice(i), env.h(p.Slice(i)))]))
  {
    hide Leads, Chunks.Slice;
    var i, s := v.conn.mine[pos], Session(p, ackedBy, v);
    var data := p.Slice(i);
    ConnSteps.AllInReach(env, p, i);
    Stay(env, p, s);
    var a := To(v, Opening(pos, already));
    HopOn(env, p, ackedBy, s, v, a);
    var b := To(v, Sending(pos, already, 0, data));
    HopOn(env, p, ackedBy, s, a, b);
    var sent := v.(conn := v.conn.(c2s := [Chunk(i, data, env.h(data))]));
    var c := To(sent, Sent(pos, already, 0, data));
    HopOn(env, p, ackedBy, s, b, c);
    v' := To(sent, WaitAck(pos, already, 0, data));
    HopOn(env, p, ackedBy, s, c, v');
  }

  /** The server takes the chunk and writes its part. */
  lemma TakesChunk(env: Env, p: Params, ackedBy: Params, v: View, i: nat) returns (v': View)
    requires Honest(env, p) && i < p.N() && v.conn.handler == Check && !v.board.failed && v.board.lock == Free
    requires v.conn.c2s == [Chunk(i, p.Slice(i), env.h(p.Slice(i)))]
    requires 0 < |p.source|
    ensures var data := p.Slice(i);
            && Leads(env, p, Session(p, ackedBy, v), Session(p, ackedBy, v'))
            && v' == v.(disk := v.disk[Part(i) := data],
                        conn := v.conn.(c2s := [], handler := Written(i, data, env.h(data))))
  {
    hide Leads, Chunks.Slice, Chunks.ServerSize;
    var data, s := p.Slice(i), Session(p, ackedBy, v);
    var hash := env.h(data);
    Chunks.SizeAgreement(p.source, p.chunkSize, i);
    Stay(env, p, s);
    var a := By(v, Recv);
    HopOn(env, p, ackedBy, s, v, a);
    var got := v.(conn := v.conn.(c2s := []));
    var b := By(got, Writing(i, data, hash));
    HopOn(env, p, ackedBy, s, a, b);
    v' := By(got, Written(i, data, hash)).(disk := v.disk[Part(i) := data]);
    assert WriteStep(b, v', i, data, hash);
    HopOn(env, p, ackedBy, s, b, v');
  }

  /** Under the lock: flag, hash and save; then the positive answer. */
  lemma SavesChunk(env: Env, p: Params, ackedBy: Params, v: View, i: nat, data: Bytes, hash: Digest) returns (v': View)
    requires i < |v.board.received| && v.conn.handler == Written(i, data, hash) && v.board.lock == Free
               && !v.board.failed
    ensures Leads(env, p, Session(p, ackedBy, v), Session(p, ackedBy, v'))
    ensures v'.conn == v.conn.(handler := Check, s2c := v.conn.s2c + [Ack(true)])
    ensures v'.board == v.board.(received := v.board.received[i := true], meta := v'.board.meta)
  {
    hide Leads, Encode;
    var s := Session(p, ackedBy, v);
    Stay(env, p, s);
    var r := Recorded(v, 0, i, hash);
    var bytes := Encode(r.board.meta);
    var a := By(r, Saving(i, Exec(SaveScript(bytes), true)));
    HopOn(env, p, ackedBy, s, v, a);
    assert SaveScript(bytes)[1..] == [Rename(TmpFile, MetaFile)] && [Rename(TmpFile, MetaFile)][1..] == [];
    var b := By(r, Saving(i, Exec([Rename(TmpFile, MetaFile)], true))).(disk := v.disk[TmpFile := bytes]);
    HopOn(env, p, ackedBy, s, a, b);
    var c := By(r, Saving(i, Exec([], true))).(disk := (b.disk - {TmpFile})[MetaFile := bytes]);
    HopOn(env, p, ackedBy, s, b, c);
    var d := By(c, Replying(Ack(true))).(board := c.board.(lock := Free), acked := c.acked + {i});
    HopOn(env, p, ackedBy, s, c, d);
    v' := d.(conn := d.conn.(handler := Check, s2c := d.conn.s2c + [Ack(true)]));
    HopOn(env, p, ackedBy, s, d, v');
  }

  /** One chunk from start to end, skipped if the server has it. */
  lemma ChunkDelivered(env: Env, p: Params, ackedBy: Params, v: View, pos: nat, already: set<nat>) returns (v': View)
    requires Honest(env, p) && env.retries > 0 && Idle(p, v, pos, already) && pos < |v.conn.mine|
    requires 0 < |p.source|
    ensures Leads(env, p, Session(p, ackedBy, v), Session(p, ackedBy, v')) && Idle(p, v', pos + 1, already)
  {
    hide Leads, Chunks.Slice;
    var i, s := v.conn.mine[pos], Session(p, ackedBy, v);
    Stay(env, p, s);
    if i in already {
      v' := To(v, Ready(pos + 1, already));
      HopOn(env, p, ackedBy, s, v, v');
    } else {
      var a := SendsChunk(env, p, ackedBy, v, pos, already);
      var b := TakesChunk(env, p, ackedBy, a, i);
      Join(env, p, s, Session(p, ackedBy, a), Session(p, ackedBy, b));
      var c := SavesChunk(env, p, ackedBy, b, i, p.Slice(i), env.h(p.Slice(i)));
      Join(env, p, s, Session(p, ackedBy, b), Session(p, ackedBy, c));
      assert c.conn.s2c == [Ack(true)];
      v' := Delivered(c, c.conn.(s2c := []), pos, already);
      HopOn(env, p, ackedBy, s, c, v');
    }
  }

  lemma {:induction false} AllDelivered(env: Env, p: Params, ackedBy: Params, v: View, pos: nat,
      already: set<nat>) returns (v': View)
    requires Honest(env, p) && env.retries > 0 && Idle(p, v, pos, already) && pos <= |v.conn.mine|
    requires 0 < |p.source|
    ensures Leads(env, p, Session(p, ackedBy, v), Session(p, ackedBy, v'))
    ensures Idle(p, v', |v'.conn.mine|, already)
    decreases |v.conn.mine| - pos
  {
    hide Leads;
    if pos == |v.conn.mine| {
      v' := v;
      Stay(env, p, Session(p, ackedBy, v));
    } else {
      var m := ChunkDelivered(env, p, ackedBy, v, pos, already);
      v' := AllDelivered(env, p, ackedBy, m, pos + 1, already);
      Join(env, p, Session(p, ackedBy, v), Session(p, ackedBy, m), Session(p, ackedBy, v'));
    }
  }

  /** A new connection gets through to its first chunk. */
  lemma Connects(env: Env, p: Params, ackedBy: Params, v: View) returns (v': View, already: set<nat>)
    requires v.conn == NewConn(p.N(), 1, 0)
    requires !v.board.failed && !v.board.shutdown && v.board.lock == Free && |v.board.received| == p.N()
    ensures Leads(env, p, Session(p, ackedBy, v), Session(p, ackedBy, v')) && Idle(p, v', 0, already)
  {
    hide Leads, Messages.ReceivedSet;
    var s := Session(p, ackedBy, v);
    Stay(env, p, s);
    var a := To(v, Connecting);
    HopOn(env, p, ackedBy, s, v, a);
    var b := To(v, WaitHave).(conn := v.conn.(worker := WaitHave, c2s := [Query]));
    HopOn(env, p, ackedBy, s, a, b);
    var c := By(b, Recv);
    HopOn(env, p, ackedBy, s, b, c);
    already := Messages.ReceivedSet(v.board.received);
    var waiting := To(v, WaitHave);
    var r := By(waiting, Replying(Have(already)));
    HopOn(env, p, ackedBy, s, c, r);
    var d := waiting.(conn := waiting.conn.(s2c := [Have(already)]));
    HopOn(env, p, ackedBy, s, r, d);
    v' := To(v, Ready(0, already));
    HopOn(env, p, ackedBy, s, d, v');
  }

  /** The worker is done without a failure: every flag is set. */
  lemma DoneMeansReceived(env: Env, p: Params, ackedBy: Params, v: View)
    requires Inv(env, Session(p, ackedBy, v)) && v.conn.worker.Finished? && v.conn.fail == [] && !v.board.shutdown
    ensures AllReceived(v.board.received)
  {
    hide DiskInv, AckedInv, BoardInv, SyncInv, ControlInv, HandlerInv, MsgInv, ListsInv;
    assert ConnInv(env, p, v.disk, v.board, 0, 1, 0, [v.conn][0]);
    forall i | 0 <= i < |v.board.received|
      ensures v.board.received[i]
    {
      assert i in Assignment.Assigned(p.N(), 1, 0);
      var j :| 0 <= j < |v.conn.mine| && v.conn.mine[j] == i;
      assert Got(v.board, v.conn.mine[j]);
    }
  }

  /** From the last flag on: judged complete, assembly begins. */
  lemma AssemblyBegins(env: Env, p: Params, ackedBy: Params, v: View) returns (s': State)
    requires AllReceived(v.board.received) && !v.board.failed && v.board.lock == Free
    ensures Leads(env, p, Session(p, ackedBy, v), s') && s'.phase.Live? && s'.phase.p == p && s'.phase.conns == [v.conn]
    ensures s'.phase.control == Assembling(Exec(AssembleScript(p.N()), true), 0)
              && s'.phase.board.shutdown == v.board.shutdown
  {
    hide Leads, AllReceived;
    var s := Session(p, ackedBy, v);
    Stay(env, p, s);
    var a := s.(phase := s.phase.(control := Judged(true)));
    assert ControlStep(env, s, a);
    Onward(env, p, s, s, a);
    s' := s.(phase := s.phase.(control := Assembling(Exec(AssembleScript(p.N()), true), 0),
        board := v.board.(lock := ByControl)));
    assert ControlStep(env, a, s');
    Onward(env, p, s, a, s');
  }

  // ----- The theorem -------------------------------------------------------------------------------------

  /** The client exits with 0 without having been interrupted, and the output is the source. */
  ghost predicate IsDelivered(s: State, p: Params)
  {
    && ExitCode(s.phase) == Some(0) && OutIs(s.disk, p.source)
    && (s.phase.Live? ==> s.phase.p == p && !s.phase.board.shutdown && s.phase.control.Status? && s.phase.control.ok)
  }

  lemma StatusIsDelivered(env: Env, s: State)
    requires Inv(env, s) && s.phase.Live? && s.phase.control.Status? && s.phase.control.ok && !s.phase.board.shutdown
    requires s.phase.conns != [] ==> AllFinished(s.phase.conns) && !SomeFailed(s.phase.conns)
    ensures IsDelivered(s, s.phase.p)
  {
    hide DiskInv, AckedInv, BoardInv, SyncInv, ConnInv;
  }

  lemma SessionDelivers(env: Env, p: Params, ackedBy: Params, v: View) returns (s': State)
    requires CollisionFree(env) && env.retries > 0 && Honest(env, p) && Inv(env, Session(p, ackedBy, v))
    requires v.conn == NewConn(p.N(), 1, 0)
    requires !v.board.failed && !v.board.shutdown && v.board.lock == Free && |v.board.received| == p.N()
    requires 0 < |p.source|
    ensures Leads(env, p, Session(p, ackedBy, v), s') && IsDelivered(s', p)
  {
    hide Works, Inv, Leads, WorkerStep, HandlerStep;
    var s := Session(p, ackedBy, v);
    var a, already := Connects(env, p, ackedBy, v);
    var b := AllDelivered(env, p, ackedBy, a, 0, already);
    Join(env, p, s, Session(p, ackedBy, a), Session(p, ackedBy, b));
    var c := To(b, Finished);
    EndsWell(env, p, b, already);
    HopOn(env, p, ackedBy, s, b, c);
    LeadsKeeps(env, p, s, Session(p, ackedBy, c));
    DoneMeansReceived(env, p, ackedBy, c);
    var d := AssemblyBegins(env, p, ackedBy, c);
    Join(env, p, s, Session(p, ackedBy, c), d);
    LeadsKeeps(env, p, s, d);
    s' := AssemblyFinishes(env, d);
    Join(env, p, s, d, s');
    StatusIsDelivered(env, s');
  }

  lemma EndsWell(env: Env, p: Params, v: View, already: set<nat>)
    requires Idle(p, v, |v.conn.mine|, already)
    ensures Hop(env, p, v, To(v, Finished))
  {
  }

  /** From every reachable state, whatever has crashed, failed or been corrupted before, and for
      every honest transfer: steps of the programs alone end the session and deliver in a new one. */
  lemma AlwaysRecoverable(env: Env, run: seq<State>, t: nat, p: Params)
    requires CollisionFree(env) && env.retries > 0 && Run(env, run) && t < |run| && Honest(env, p)
    requires 0 < |p.source|
    ensures exists s' :: Leads(env, p, run[t], s') && IsDelivered(s', p)
  {
    hide Works, Inv, Leads, IsDelivered;
    Induction.RunKeeps(env, run, t);
    var down := run[t].(phase := Down);
    assert Works(env, p, run[t], down) by { Stops(env, p, run[t]); }
    Stay(env, p, run[t]);
    Onward(env, p, run[t], run[t], down);
    WorkKeeps(env, p, run[t], down);
    var s' := DownDelivers(env, down, p);
    Join(env, p, run[t], down, s');
  }

  lemma Stops(env: Env, p: Params, s: State)
    ensures Works(env, p, s, s.(phase := Down))
  {
  }

  lemma DownDelivers(env: Env, s: State, p: Params) returns (s': State)
    requires CollisionFree(env) && env.retries > 0 && Honest(env, p) && Inv(env, s) && s.phase.Down?
    requires 0 < |p.source|
    ensures Leads(env, p, s, s') && IsDelivered(s', p)
  {
    hide Works, Inv, Leads, IsDelivered, LoadPlan, LoadOrder;
    Stay(env, p, s);
    var a := Handshake(env, s, p);
    Onward(env, p, s, s, a);
    WorkKeeps(env, p, s, a);
    if a.phase.Exists? {
      ExistsIsDelivered(env, a);
      s' := a;
    } else {
      var b := LoadFinishes(env, a);
      Join(env, p, s, a, b);
      s' := LoadedDelivers(env, b);
      Join(env, p, s, b, s');
    }
  }

  lemma ExistsIsDelivered(env: Env, s: State)
    requires Inv(env, s) && s.phase.Exists?
    ensures IsDelivered(s, s.phase.p)
  {
    hide DiskInv, AckedInv;
  }

  lemma Handshake(env: Env, s: State, p: Params) returns (a: State)
    requires Honest(env, p) && s.phase.Down?
    ensures Works(env, p, s, a) && (a.phase.Exists? || a.phase.Loading?) && a.phase.p == p
    ensures a.phase.Exists? <==> OutFile in s.disk && env.h(s.disk[OutFile]) == env.h(p.source)
  {
    hide LoadPlan, Decode;
    if OutFile in s.disk && env.h(s.disk[OutFile]) == env.h(p.source) {
      a := s.(phase := Exists(p));
    } else {
      var order := AnOrder(s.disk);
      var plan := LoadPlan(env.h, s.disk, p.ToOffer(env.h), order);
      a := State(s.disk, Loading(p, Exec(plan.script, true), plan.found), if p == s.ackedBy then s.acked else {}, p);
      assert BeginLoading(env, s, a, p, order);
    }
    assert Begin(env, s, a);
  }

  lemma AnOrder(fs: Files) returns (order: seq<nat>)
    ensures LoadOrder(fs, order)
  {
    hide Decode, KeySet;
    order := [];
    if MetaFile in fs && Decode(fs[MetaFile]).Ok? {
      order := SortedKeys(Decode(fs[MetaFile]).value.hashes.Keys);
    }
  }

  lemma LoadedDelivers(env: Env, s: State) returns (s': State)
    requires CollisionFree(env) && env.retries > 0 && Inv(env, s) && s.phase.Loading? && s.phase.exec.todo == []
    requires 0 < |s.phase.p.source|
    ensures Leads(env, s.phase.p, s, s') && IsDelivered(s', s.phase.p)
  {
    hide Works, Inv, Leads;
    var p := s.phase.p;
    Stay(env, p, s);
    var a := GoesLive(env, s);
    Onward(env, p, s, s, a);
    WorkKeeps(env, p, s, a);
    if a.phase.control.Assembling? {
      s' := AssemblyFinishes(env, a);
      StatusIsDelivered(env, s');
    } else {
      var v := View(a.disk, a.acked, a.phase.board, a.phase.conns[0]);
      assert a == Session(p, a.ackedBy, v);
      HonestLoading(env, s);
      s' := SessionDelivers(env, p, a.ackedBy, v);
    }
    Join(env, p, s, a, s');
  }

  lemma HonestLoading(env: Env, s: State)
    requires Inv(env, s) && s.phase.Loading?
    ensures Honest(env, s.phase.p)
  {
    hide DiskInv, AckedInv;
  }

  lemma GoesLive(env: Env, s: State) returns (a: State)
    requires Inv(env, s) && s.phase.Loading? && s.phase.exec.todo == []
    ensures Works(env, s.phase.p, s, a) && a.phase.Live? && a.phase.p == s.phase.p && !a.phase.board.shutdown
    ensures || (a.phase.conns == [] && a.phase.control == Assembling(Exec(AssembleScript(s.phase.p.N()), true), 0))
            || (a.phase.conns == [NewConn(s.phase.p.N(), 1, 0)] && a.phase.control == Waiting && !a.phase.board.failed
                && a.phase.board.lock == Free && |a.phase.board.received| == s.phase.p.N())
  {
    hide DiskInv, AckedInv, OpsOk;
    var p, found := s.phase.p, s.phase.found;
    var received := Flags(p.N(), found);
    var board := Board(received, if found.Some? then found.value else EmptyMeta(p.ToOffer(env.h)), false, Free, false);
    if found.Some? && AllReceived(received) {
      a := s.(phase := Live(p, board.(lock := ByControl), [], Assembling(Exec(AssembleScript(p.N()), true), 0)));
    } else {
      a := s.(phase := Live(p, board, [NewConn(p.N(), 1, 0)], Waiting));
    }
    assert GoLive(env, s, a);
  }

  // ----- Without retries ---------------------------------------------------------------------------------

  ghost predicate Silent(k: Conn)
  {
    !Busy(k.handler) && forall j :: 0 <= j < |k.c2s| ==> !k.c2s[j].Chunk?
  }

  /** Nothing has arrived and nothing ever will. */
  ghost predicate Barren(s: State)
  {
    && s.disk == map[]
    && match s.phase
       case Down => true
       case Exists(_) => false
       case Loading(p, exec, found) => exec.todo == [] && found.None? && p.N() > 0
       case Live(p, b, conns, control) =>
         && |b.received| > 0 && !b.received[0] && !control.Assembling? && (control.Judged? ==> !control.complete)
         && forall c :: 0 <= c < |conns| ==> Silent(conns[c])
  }

  lemma BarrenConn(env: Env, p: Params, c: nat, v: View, v': View)
    requires env.retries == 0 && Silent(v.conn) && (WorkerStep(env, p, v, v') || HandlerStep(env, p, c, v, v'))
    ensures Silent(v'.conn) && v'.disk == v.disk && v'.board.received == v.board.received
  {
    hide ExecStep, Encode, Chunks.ServerSize;
  }

  lemma BarrenStep(env: Env, p: Params, s: State, s': State)
    requires env.retries == 0 && Barren(s) && Works(env, p, s, s')
    ensures Barren(s')
  {
    hide WorkerStep, HandlerStep, Decode, Silent;
    if c: nat :| ConnStep(env, s, s', c) {
      var v, v' := ViewOf(s, c), ViewOf(s', c);
      BarrenConn(env, s.phase.p, c, v, v');
    } else if Begin(env, s, s') {
      assert s'.phase.p.N() > 0;
    } else if GoLive(env, s, s') {
      BarrenStart(env, s, s');
    }
  }

  lemma BarrenStart(env: Env, s: State, s': State)
    requires Barren(s) && GoLive(env, s, s')
    ensures Barren(s')
  {
    assert !s'.phase.board.received[0];
  }

  lemma {:induction false} BarrenPath(env: Env, p: Params, path: seq<State>, t: nat)
    requires env.retries == 0 && Path(env, p, path) && t < |path| && Barren(path[0])
    ensures Barren(path[t])
  {
    hide Works, Barren;
    if t > 0 {
      BarrenPath(env, p, path, t - 1);
      assert Works(env, p, path[t - 1], path[t - 1 + 1]);
      BarrenStep(env, p, path[t - 1], path[t]);
    }
  }

  // ----- Empty files -------------------------------------------------------------------------------------

  ghost predicate SameOut(fs: Files, fs': Files)
  {
    (OutFile in fs <==> OutFile in fs') && (OutFile in fs && OutFile in fs' ==> fs[OutFile] == fs'[OutFile])
  }

  /** Sessions of an empty file leave the output alone: no handler is ever busy, no assembly begins. */
  lemma EmptyStep(env: Env, p: Params, s: State, s': State)
    requires CollisionFree(env) && Inv(env, s) && Works(env, p, s, s') && p.source == []
    requires s.phase.Down? || s.phase.p == p
    ensures SameOut(s.disk, s'.disk) && (s'.phase.Down? || s'.phase.p == p)
  {
    hide WorkerStep, HandlerStep, ControlStep, Inv, ExecStep, LoadPlan;
    if c: nat :| ConnStep(env, s, s', c) {
      var v, v' := ViewOf(s, c), ViewOf(s', c);
      NobodyBusy(env, s, c);
      if WorkerStep(env, p, v, v') {
        ConnSteps.WorkerFrame(env, p, v, v');
      } else {
        IdleHandler(env, p, c, v, v');
      }
    } else if LoadStep(s, s') {
      LoadLeavesOut(env, s, s');
    } else if s.phase.Live? && ControlStep(env, s, s') {
      NoAssembly(env, s, s');
    }
  }

  lemma NobodyBusy(env: Env, s: State, c: nat)
    requires Inv(env, s) && s.phase.Live? && c < |s.phase.conns| && s.phase.p.source == []
    ensures !Busy(s.phase.conns[c].handler)
  {
    Guarantees.NothingOfEmpty(env, s);
    hide BoardInv, DiskInv, AckedInv, SyncInv, ControlInv, ConnInv;
    Guarantees.NotBusy(env, s, c);
  }

  lemma IdleHandler(env: Env, p: Params, c: nat, v: View, v': View)
    requires HandlerStep(env, p, c, v, v') && !Busy(v.conn.handler)
    ensures v'.disk == v.disk
  {
    hide Chunks.ServerSize;
  }

  lemma LoadLeavesOut(env: Env, s: State, s': State)
    requires Inv(env, s) && LoadStep(s, s')
    ensures SameOut(s.disk, s'.disk)
  {
    hide Encode, DiskInv, AckedInv;
    SessionSteps.FirstOp(s.disk, s.phase.found, s.phase.exec.todo);
  }

  lemma NoAssembly(env: Env, s: State, s': State)
    requires Inv(env, s) && s.phase.Live? && s.phase.p.source == [] && ControlStep(env, s, s')
    ensures s'.disk == s.disk && s'.phase.Live? && s'.phase.p == s.phase.p
  {
    hide ConnInv, DiskInv, AckedInv, BoardInv, SyncInv, AllReceived;
    Guarantees.NothingOfEmpty(env, s);
  }

  lemma {:induction false} EmptyPath(env: Env, p: Params, path: seq<State>, t: nat)
    requires CollisionFree(env) && Path(env, p, path) && t < |path| && Inv(env, path[0]) && p.source == []
    requires path[0].phase.Down?
    ensures SameOut(path[0].disk, path[t].disk) && (path[t].phase.Down? || path[t].phase.p == p)
  {
    hide Works, Inv;
    if t > 0 {
      EmptyPath(env, p, path, t - 1);
      assert Works(env, p, path[t - 1], path[t - 1 + 1]);
      PathKeeps(env, p, path, t - 1);
      EmptyStep(env, p, path[t - 1], path[t]);
    }
  }

  /** An empty file is never delivered by its own sessions: they can end well iff the server had an
      empty output before. */
  lemma EmptyDeliverableIff(env: Env, run: seq<State>, t: nat, p: Params)
    requires CollisionFree(env) && Run(env, run) && t < |run| && run[t].phase.Down?
    requires Honest(env, p) && p.source == []
    ensures (exists s' :: Leads(env, p, run[t], s') && IsDelivered(s', p)) <==> OutIs(run[t].disk, [])
  {
    hide Works, Inv, IsDelivered;
    var s := run[t];
    Induction.RunKeeps(env, run, t);
    if OutIs(s.disk, []) {
      var a := Handshake(env, s, p);
      Stay(env, p, s);
      Onward(env, p, s, s, a);
      WorkKeeps(env, p, s, a);
      assert a.phase.Exists?;
      ExistsIsDelivered(env, a);
    } else {
      forall s' | Leads(env, p, s, s')
        ensures !IsDelivered(s', p)
      {
        var path :| Path(env, p, path) && path[0] == s && path[|path| - 1] == s';
        EmptyPath(env, p, path, |path| - 1);
        NeedsOutput(s', p);
      }
    }
  }

  lemma NeedsOutput(s: State, p: Params)
    ensures IsDelivered(s, p) ==> OutIs(s.disk, p.source)
  {
  }

  /** With `--retries 0` nothing can be delivered to a fresh server, and an empty file never can;
      every other file can. */
  lemma DeliverableIff(env: Env, s: State, p: Params)
    requires CollisionFree(env) && Honest(env, p) && Init(s)
    ensures (exists s' :: Leads(env, p, s, s') && IsDelivered(s', p)) <==> env.retries > 0 && 0 < |p.source|
  {
    hide Works, IsDelivered;
    assert Run(env, [s]);
    if p.source == [] {
      EmptyDeliverableIff(env, [s], 0, p);
    } else if env.retries > 0 {
      AlwaysRecoverable(env, [s], 0, p);
    } else {
      forall s' | Leads(env, p, s, s')
        ensures !IsDelivered(s', p)
      {
        var path :| Path(env, p, path) && path[0] == s && path[|path| - 1] == s';
        BarrenPath(env, p, path, |path| - 1);
        NeedsOutput(s', p);
      }
    }
  }
}
