/** The whole system as a state machine: disk, server, connections and client of one file name,
    over any number of sessions, with a crash possible between any two steps. */
module Transfer {
  import opened Wire
  import opened Storage
  import opened Metadata
  import opened Receiver
  import Chunks
  import Frames
  import Messages
  import Assignment

  /** The hash function, the contents that may appear in the run, the client's `--retries`. */
  datatype Env = Env(h: Hasher, contents: iset<Bytes>, retries: nat)

  /** No two contents of the run collide; pieces of contents are contents, because any piece of a
      source may be on disk after a crash. */
  ghost predicate CollisionFree(env: Env)
  {
    && (forall b, lo, hi :: b in env.contents && 0 <= lo <= hi <= |b| ==> b[lo..hi] in env.contents)
    && (forall a, b :: a in env.contents && b in env.contents && env.h(a) == env.h(b) ==> a == b)
  }

  /** What one client run transfers. */
  datatype Params = Params(source: Bytes, chunkSize: nat) {
    function N(): nat
    {
      if chunkSize == 0 then 0 else Chunks.NumChunks(|source|, chunkSize)
    }

    function Slice(i: nat): Bytes
    {
      Chunks.Slice(source, chunkSize, i)
    }

    function ToOffer(h: Hasher): Offer
    {
      Offer(chunkSize, N(), |source|, h(source))
    }
  }

  ghost predicate Honest(env: Env, p: Params)
  {
    && 0 < p.chunkSize && p.chunkSize + 48 <= Frames.MAX_PAYLOAD
    && |p.source| < U64 && p.N() <= Messages.MAX_CHUNKS
    && p.source in env.contents
  }

  // ----- Messages and the two ends of a connection ---------------------------------------------

  datatype Msg = Query | Chunk(i: nat, data: Bytes, hash: Digest)

  datatype Reply = Have(indices: set<nat>) | Ack(ok: bool)

  /** No index beyond the `n` chunks. */
  predicate BoundedReply(n: nat, r: Reply)
  {
    r.Have? ==> forall i :: i in r.indices ==> i < n
  }

  /** What goes over the wire. */
  function ReplyBytes(n: nat, r: Reply): Bytes
  {
    match r
    case Ack(ok) => if ok then Messages.ACK_OK else Messages.ACK_HASH_MISMATCH
    case Have(s) => Messages.HaveReply(seq(n, (i: nat) => i in s))
  }

  /** Where a client worker is. `pos` counts through its list. */
  datatype Worker =
    | Start
    | Connecting                                                           // flag was clear
    | WaitHave
    | Ready(pos: nat, already: set<nat>)                                   // before the flag is read
    | Opening(pos: nat, already: set<nat>)                                 // flag was clear
    | Sending(pos: nat, already: set<nat>, attempt: nat, data: Bytes)
    | Sent(pos: nat, already: set<nat>, attempt: nat, data: Bytes)         // before the flag is read
    | WaitAck(pos: nat, already: set<nat>, attempt: nat, data: Bytes)
    | Finished

  /** Where the server's handler of the connection is. */
  datatype Handler =
    | Check                                                                // before `failed` is read
    | Recv
    | Writing(i: nat, data: Bytes, hash: Digest)                           // outside the lock
    | Written(i: nat, data: Bytes, hash: Digest)                           // waiting for the lock
    | Saving(i: nat, exec: Exec)                                           // inside the lock
    | Replying(reply: Reply)                                               // about to send
    | Closed

  datatype Conn = Conn(mine: seq<nat>, worker: Worker, ok: seq<nat>, fail: seq<nat>,
                       c2s: seq<Msg>, s2c: seq<Reply>, handler: Handler)

  datatype Lock = Free | ByHandler(c: nat) | ByControl

  /** The shared state of a session: `FileReceiver`, its mutex, the client's shutdown flag. */
  datatype Board = Board(received: seq<bool>, meta: Meta, failed: bool, lock: Lock, shutdown: bool)

  /** The control handler: waits, assembles, sends the final status. `removed` counts the parts
      that assembly has removed. */
  datatype Control =
    | Waiting                                                              // complete, failed, or the client is gone
    | Judged(complete: bool)                                               // before `failed` is read
    | Assembling(exec: Exec, k: nat)
    | Status(ok: bool, k: nat)

  datatype Phase =
    | Down                                                                 // no session
    | Exists(p: Params)                                                    // RESP_EXISTS was sent
    | Loading(p: Params, exec: Exec, found: Option<Meta>)                  // load_or_purge_metadata
    | Live(p: Params, board: Board, conns: seq<Conn>, control: Control)

  /** `acked`: the chunks whose acknowledgement a later resume must honour; `ackedBy`: for which
      parameters. Both are only observed, no step depends on them. */
  datatype State = State(disk: Files, phase: Phase, acked: set<nat>, ackedBy: Params)

  function NewConn(n: nat, w: nat, c: nat): Conn
    requires w > 0
  {
    Conn(Assignment.Assigned(n, w, c), Start, [], [], [], [], Check)
  }

  predicate AllReceived(received: seq<bool>)
  {
    forall i :: 0 <= i < |received| ==> received[i]
  }

  // ----- A worker's steps --------------------------------------------------------------------------

  /** What one connection's step can see and change. */
  datatype View = View(disk: Files, acked: set<nat>, board: Board, conn: Conn)

  /** Chunk `mine[pos]` is given up: it fails and every worker is told to stop. */
  function GaveUp(v: View, k: Conn, pos: nat, already: set<nat>): View
    requires pos < |k.mine|
  {
    v.(board := v.board.(shutdown := true),
       conn := k.(worker := Ready(pos + 1, already), fail := k.fail + [k.mine[pos]]))
  }

  function Delivered(v: View, k: Conn, pos: nat, already: set<nat>): View
    requires pos < |k.mine|
  {
    v.(conn := k.(worker := Ready(pos + 1, already), ok := k.ok + [k.mine[pos]]))
  }

  /** The client only looks at the first byte of an acknowledgement; the reply to a query starts
      with the high byte of a count below 2^24. */
  predicate FirstByteIsOk(r: Reply)
  {
    match r case Ack(ok) => ok case Have(_) => true
  }

  /** A one-byte acknowledgement read as the reply to a query means "nothing received". */
  function ReadHave(r: Reply): set<nat>
  {
    match r case Ack(_) => {} case Have(s) => s
  }

  /** The offset of chunk `i` neither overflows nor lies behind the end of the file. */
  predicate InReach(p: Params, i: nat)
  {
    i * p.chunkSize < U64 && i * p.chunkSize <= |p.source|
  }

  ghost predicate WorkerStep(env: Env, p: Params, v: View, v': View)
  {
    var k, shutdown := v.conn, v.board.shutdown;
    match k.worker
    case Start => v' == v.(conn := k.(worker := if shutdown then Finished else Connecting))
    case Connecting =>
      || v' == v.(conn := k.(worker := WaitHave, c2s := k.c2s + [Query]))
      || v' == v.(conn := k.(worker := Finished, fail := k.fail + k.mine))
    case WaitHave =>
      || (k.s2c != [] && v' == v.(conn := k.(worker := Ready(0, ReadHave(k.s2c[0])), s2c := k.s2c[1..])))
      || v' == v.(conn := k.(worker := Finished, fail := k.fail + k.mine))
    case Ready(pos, already) =>
      if pos >= |k.mine| || shutdown then v' == v.(conn := k.(worker := Finished))
      else if k.mine[pos] in already then v' == v.(conn := k.(worker := Ready(pos + 1, already)))
      else if !InReach(p, k.mine[pos]) then
        v' == v.(conn := k.(worker := Ready(pos + 1, already), fail := k.fail + [k.mine[pos]]))
      else v' == v.(conn := k.(worker := Opening(pos, already)))
    case Opening(pos, already) =>
      && pos < |k.mine|
      && (|| v' == GaveUp(v, k, pos, already)
          || var w' := v'.conn.worker;
             && w'.Sending? && w'.data <= p.Slice(k.mine[pos])               // the read may be short
             && v' == v.(conn := k.(worker := Sending(pos, already, 0, w'.data))))
    case Sending(pos, already, attempt, data) =>
      && pos < |k.mine|
      && var sent := k.(c2s := k.c2s + [Chunk(k.mine[pos], data, env.h(data))]);
         || v' == GaveUp(v, k, pos, already)
         || (attempt < env.retries && v' == v.(conn := sent.(worker := Sent(pos, already, attempt, data))))
    case Sent(pos, already, attempt, data) =>
      && pos < |k.mine|
      && (|| v' == GaveUp(v, k, pos, already)
          || v' == (if shutdown then Delivered(v, k, pos, already)
                    else v.(conn := k.(worker := WaitAck(pos, already, attempt, data)))))
    case WaitAck(pos, already, attempt, data) =>
      && pos < |k.mine|
      && (|| v' == GaveUp(v, k, pos, already)
          || (k.s2c != []
              && var got := k.(s2c := k.s2c[1..]);
                 v' == (if FirstByteIsOk(k.s2c[0]) then Delivered(v, got, pos, already)
                        else v.(conn := got.(worker := Sending(pos, already, attempt + 1, data))))))
    case Finished => false
  }

  // ----- A handler's steps -------------------------------------------------------------------------

  ghost predicate RecvStep(env: Env, p: Params, v: View, v': View)
    requires v.conn.c2s != []
  {
    var got := v.conn.(c2s := v.conn.c2s[1..]);
    match v.conn.c2s[0]
    case Query =>
      && v.board.lock.Free?
      && v' == v.(conn := got.(handler := Replying(Have(Messages.ReceivedSet(v.board.received)))))
    case Chunk(i, data, hash) =>
      if i >= p.N() || Chunks.ServerSize(p.chunkSize, p.N(), |p.source|, i) != Some(|data|) then
        v' == v.(conn := got.(handler := Check))
      else if env.h(data) != hash then v' == v.(conn := got.(handler := Replying(Ack(false))))
      else v' == v.(conn := got.(handler := Writing(i, data, hash)))
  }

  ghost predicate WriteStep(v: View, v': View, i: nat, data: Bytes, hash: Digest)
  {
    var e := Exec([Write(Part(i), data)], true);
    var now := v.(disk := v'.disk);
    || (ExecStep(v.disk, e, v'.disk, e) && v' == now)
    || (ExecStep(v.disk, e, v'.disk, Exec([], true)) && v' == now.(conn := v.conn.(handler := Written(i, data, hash))))
    || (ExecStep(v.disk, e, v'.disk, FAILED) && v.board.lock.Free?
        && v' == now.(board := v.board.(failed := true), conn := v.conn.(handler := Replying(Ack(false)))))
  }

  /** Under the lock: the flag, the in-memory hash, then the save begins. */
  function Recorded(v: View, c: nat, i: nat, hash: Digest): View
    requires i < |v.board.received|
  {
    var meta := v.board.meta.(hashes := v.board.meta.hashes[i := hash]);
    v.(board := v.board.(received := v.board.received[i := true], meta := meta, lock := ByHandler(c)))
  }

  ghost predicate SaveStep(v: View, v': View, i: nat, exec: Exec)
  {
    if exec.todo != [] then
      && v'.conn.handler.Saving?
      && ExecStep(v.disk, exec, v'.disk, v'.conn.handler.exec)
      && v' == v.(disk := v'.disk, conn := v.conn.(handler := Saving(i, v'.conn.handler.exec)))
    else
      v' == v.(board := v.board.(lock := Free, failed := v.board.failed || !exec.ok),
               acked := if exec.ok then v.acked + {i} else v.acked,
               conn := v.conn.(handler := Replying(Ack(exec.ok))))
  }

  ghost predicate HandlerStep(env: Env, p: Params, c: nat, v: View, v': View)
  {
    var k := v.conn;
    match k.handler
    case Check => v' == v.(conn := k.(handler := if v.board.failed then Closed else Recv))
    case Recv =>
      || v' == v.(conn := k.(handler := Closed))
      || (k.c2s != [] && RecvStep(env, p, v, v'))
    case Writing(i, data, hash) => WriteStep(v, v', i, data, hash)
    case Written(i, data, hash) =>
      && v.board.lock.Free? && i < |v.board.received|
      && var r := Recorded(v, c, i, hash);
         v' == r.(conn := k.(handler := Saving(i, Exec(SaveScript(Encode(r.board.meta)), true))))
    case Saving(i, exec) => SaveStep(v, v', i, exec)
    case Replying(r) =>                                                    // sent, or the connection is gone
      || v' == v.(conn := k.(handler := Check, s2c := k.s2c + [r]))
      || v' == v.(conn := k.(handler := if r.Have? then Closed else Check))
    case Closed => false
  }

  // ----- The control handler's steps ---------------------------------------------------------------

  ghost predicate ControlStep(env: Env, s: State, s': State)
    requires s.phase.Live?
  {
    var p, b := s.phase.p, s.phase.board;
    match s.phase.control
    case Waiting => b.lock.Free? && s' == s.(phase := s.phase.(control := Judged(AllReceived(b.received))))
    case Judged(complete) =>
      && b.lock.Free?
      && s' == s.(phase := if complete && !b.failed then
                             s.phase.(control := Assembling(Exec(AssembleScript(p.N()), true), 0),
                                      board := b.(lock := ByControl))
                           else s.phase.(control := Status(false, 0)))
    case Assembling(e, k) =>
      if e.todo == [] then
        var ok := e.ok && OutFile in s.disk && env.h(s.disk[OutFile]) == env.h(p.source);
        s' == s.(phase := s.phase.(control := Status(ok, k), board := b.(lock := Free)))
      else
        && s'.phase.Live? && s'.phase.control.Assembling?
        && var e' := s'.phase.control.exec;
           && ExecStep(s.disk, e, s'.disk, e')
           && var removed := e.todo[0].MustRemove? && e' != FAILED;
              s' == s.(disk := s'.disk,
                       acked := if e.todo[0].MustRemove? then {} else s.acked,
                       phase := s.phase.(control := Assembling(e', if removed then k + 1 else k)))
    case Status(_, _) => false
  }

  // ----- Sessions ------------------------------------------------------------------------------------

  /** A handshake arrives: the finished output is recognised, or a receiver is created. */
  ghost predicate Begin(env: Env, s: State, s': State)
  {
    && s.phase.Down?
    && (s'.phase.Exists? || s'.phase.Loading?)
    && var p := s'.phase.p;
       && Honest(env, p)
       && if OutFile in s.disk && env.h(s.disk[OutFile]) == env.h(p.source) then s' == s.(phase := Exists(p))
          else exists order :: BeginLoading(env, s, s', p, order)
  }

  ghost predicate BeginLoading(env: Env, s: State, s': State, p: Params, order: seq<nat>)
  {
    && LoadOrder(s.disk, order)
    && var plan := LoadPlan(env.h, s.disk, p.ToOffer(env.h), order);
       s' == State(s.disk, Loading(p, Exec(plan.script, true), plan.found),
                   if p == s.ackedBy then s.acked else {}, p)
  }

  ghost predicate LoadStep(s: State, s': State)
  {
    && s.phase.Loading? && s'.phase.Loading?
    && ExecStep(s.disk, s.phase.exec, s'.disk, s'.phase.exec)
    && s' == s.(disk := s'.disk, phase := s.phase.(exec := s'.phase.exec))
  }

  function Flags(n: nat, found: Option<Meta>): seq<bool>
  {
    seq(n, (i: nat) => found.Some? && i in found.value.hashes)
  }

  /** All chunks there: RESP_COMPLETE and assembly. Otherwise `w` workers connect. Keys beyond the
      number of chunks would be out of bounds. */
  ghost predicate GoLive(env: Env, s: State, s': State)
  {
    && s.phase.Loading? && s.phase.exec.todo == []
    && var p, found := s.phase.p, s.phase.found;
       && (found.Some? ==> forall i :: i in found.value.hashes ==> i < p.N())
       && var received := Flags(p.N(), found);
          var meta := if found.Some? then found.value else EmptyMeta(p.ToOffer(env.h));
          var board := Board(received, meta, false, Free, false);
          if found.Some? && AllReceived(received) then
            || s' == s.(phase := Live(p, board.(lock := ByControl), [],
                                      Assembling(Exec(AssembleScript(p.N()), true), 0)))
            || s' == s.(phase := Live(p, board, [], Status(false, 0)))       // the response was not sent
          else
            && s'.phase.Live?
            && var conns := s'.phase.conns;
               && 0 < |conns| <= p.N()
               && (forall c :: 0 <= c < |conns| ==> conns[c] == NewConn(p.N(), |conns|, c))
               && s' == s.(phase := Live(p, board, conns, Waiting))
  }

  /** What connection `c` sees of a live state. */
  function ViewOf(s: State, c: nat): View
    requires s.phase.Live? && c < |s.phase.conns|
  {
    View(s.disk, s.acked, s.phase.board, s.phase.conns[c])
  }

  ghost predicate ConnStep(env: Env, s: State, s': State, c: nat)
  {
    && s.phase.Live? && s'.phase.Live? && c < |s.phase.conns| == |s'.phase.conns|
    && var v, v' := ViewOf(s, c), ViewOf(s', c);
       && s' == State(v'.disk, s.phase.(board := v'.board, conns := s.phase.conns[c := v'.conn]), v'.acked, s.ackedBy)
       && (WorkerStep(env, s.phase.p, v, v') || HandlerStep(env, s.phase.p, c, v, v'))
  }

  /** The user interrupts the client. */
  ghost predicate Interrupt(s: State, s': State)
  {
    s.phase.Live? && s' == s.(phase := s.phase.(board := s.phase.board.(shutdown := true)))
  }

  /** A crash, or a session whose handlers are gone. */
  ghost predicate Stop(s: State, s': State)
  {
    s' == s.(phase := Down)
  }

  /** Between sessions a part or the output may be altered or lost. */
  ghost predicate Corrupt(env: Env, s: State, s': State, n: Name)
  {
    && s.phase.Down? && (n.Part? || n.OutFile?)
    && (n in s'.disk ==> s'.disk[n] in env.contents)
    && s' == s.(disk := if n in s'.disk then s.disk[n := s'.disk[n]] else s.disk - {n},
                acked := if n.Part? then s.acked - {n.index} else s.acked)
  }

  ghost predicate Init(s: State)
  {
    s.disk == map[] && s.phase == Down && s.acked == {}
  }

  ghost predicate Next(env: Env, s: State, s': State)
  {
    || Begin(env, s, s')
    || LoadStep(s, s')
    || GoLive(env, s, s')
    || (exists c :: ConnStep(env, s, s', c))
    || (s.phase.Live? && ControlStep(env, s, s'))
    || Interrupt(s, s')
    || Stop(s, s')
    || (exists n :: Corrupt(env, s, s', n))
  }

  /** A run of the system from an empty disk. */
  ghost predicate Run(env: Env, run: seq<State>)
  {
    && run != [] && Init(run[0])
    && forall t :: 0 <= t < |run| - 1 ==> Next(env, run[t], run[t + 1])
  }

  // ----- The client's exit code ------------------------------------------------------------------------

  ghost predicate AllFinished(conns: seq<Conn>)
  {
    forall c :: 0 <= c < |conns| ==> conns[c].worker.Finished?
  }

  ghost predicate SomeFailed(conns: seq<Conn>)
  {
    exists c :: 0 <= c < |conns| && conns[c].fail != []
  }

  function FinalCode(control: Control): Option<nat>
  {
    if control.Status? then Some(if control.ok then 0 else 1) else None
  }

  /** The exit code of the client of the current session, once it is decided. */
  ghost function ExitCode(phase: Phase): Option<nat>
  {
    match phase
    case Exists(_) => Some(0)
    case Live(_, board, conns, control) =>
      if conns == [] then FinalCode(control)
      else if !AllFinished(conns) then None
      else if board.shutdown then Some(0)
      else if SomeFailed(conns) then Some(1)
      else FinalCode(control)
    case _ => None
  }
}
