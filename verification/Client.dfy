/** The client worker: sends its chunks one after the other over one connection. Its code is shown
    to take only steps of the state machine, whatever the rest of the system does in between. */
module Client {
  import opened Wire
  import opened Transfer
  import Chunks
  import Frames
  import Messages
  import Safety
  import opened Storage
  import opened Metadata
  import ConnSteps
  import Induction
  import Guarantees

  // ----- What a worker sees --------------------------------------------------------------------------

  ghost predicate AllBounded(n: nat, replies: seq<Reply>)
  {
    forall j :: 0 <= j < |replies| ==> BoundedReply(n, replies[j])
  }

  /** Anything that the others may do between two steps of a worker: the server, the other workers,
      the user. Replies are only added, the flag is never cleared. */
  ghost predicate Others(n: nat, v: View, v': View)
  {
    && v'.conn == v.conn.(c2s := v'.conn.c2s, s2c := v'.conn.s2c, handler := v'.conn.handler)
    && v.conn.s2c <= v'.conn.s2c && AllBounded(n, v'.conn.s2c[|v.conn.s2c|..])
    && (v.board.shutdown ==> v'.board.shutdown)
  }

  /** Everything a worker has gone through is steps of its own and doings of the others. */
  ghost predicate Legal(env: Env, p: Params, views: seq<View>)
  {
    forall t :: 0 <= t < |views| - 1 ==>
      WorkerStep(env, p, views[t], views[t + 1]) || Others(p.N(), views[t], views[t + 1])
  }

  lemma LegalMore(env: Env, p: Params, views: seq<View>, v: View)
    requires Legal(env, p, views) && views != []
    requires WorkerStep(env, p, views[|views| - 1], v) || Others(p.N(), views[|views| - 1], v)
    ensures Legal(env, p, views + [v])
  {
    hide WorkerStep, Others;
    var more := views + [v];
    forall t | 0 <= t < |more| - 1
      ensures WorkerStep(env, p, more[t], more[t + 1]) || Others(p.N(), more[t], more[t + 1])
    {
      if t < |views| - 1 {
        assert WorkerStep(env, p, views[t], views[t + 1]) || Others(p.N(), views[t], views[t + 1]);
      }
    }
  }

  /** The bytes of a reply. An empty frame, which the server never sends, would be a refusal. */
  ghost predicate Carries(n: nat, b: Bytes, r: Reply)
  {
    b == ReplyBytes(n, r) || (b == [] && r == Ack(false))
  }

  lemma {:induction false} FirstByteOf(n: nat, w: nat)
    requires w > 0 && n < Pow256(w - 1)
    ensures BE(n, w)[0] == 0
  {
    if w > 1 {
      FirstByteOf(n / 256, w - 1);
    } else {
      assert n == 0;
    }
  }

  /** The client's test on the first byte is the state machine's test on the reply. */
  lemma FirstByteDecides(n: nat, b: Bytes, r: Reply)
    requires n <= Messages.MAX_CHUNKS && Carries(n, b, r)
    ensures (b != [] && b[0] == Messages.ACK_OK[0]) <==> FirstByteIsOk(r)
  {
    if r.Have? {
      var flags := seq(n, (i: nat) => i in r.indices);
      assert Pow256(3) == 0x100_0000;
      FirstByteOf(|Messages.Indices(flags)|, 4);
    }
  }

  /** What the client reads from a reply to its query. */
  lemma HaveIsRead(n: nat, b: Bytes, r: Reply)
    requires n <= Messages.MAX_CHUNKS && Carries(n, b, r) && BoundedReply(n, r)
    ensures if |b| < 4 then ReadHave(r) == {} else Messages.ReadIndices(b, FromBE(b[..4])) == Some(ReadHave(r))
  {
    hide Messages.ReadIndices, Messages.HaveReply;
    if r.Have? {
      var flags := seq(n, (i: nat) => i in r.indices);
      Messages.HaveRoundTrip(flags);
      assert Messages.ReceivedSet(flags) == r.indices;
    }
  }

  ghost predicate SameLists(k: Conn, k': Conn)
  {
    k'.mine == k.mine && k'.ok == k.ok && k'.fail == k.fail
  }

  /** The bytes are the chunk message that the worker is about to send. */
  ghost predicate IsMessage(env: Env, k: Conn, payload: Bytes)
  {
    && k.worker.Sending? && k.worker.pos < |k.mine|
    && |payload| <= Frames.MAX_PAYLOAD && payload != Messages.QUERY
    && Messages.ParseChunk(payload) ==
         Messages.ChunkFrame(k.mine[k.worker.pos], k.worker.data, env.h(k.worker.data))
  }

  // ----- Connection, flag and file, as a worker uses them --------------------------------------------

  class Link {
    const env: Env
    const p: Params
    var flag: bool
    var inbox: seq<Reply>
    ghost var views: seq<View>
    /** Chunk frames started, seconds of timed waits, milliseconds of sleep. */
    ghost var frames: nat
    ghost var waited: nat
    ghost var slept: nat
    /** Operations that failed or timed out, and answers that were refusals. */
    ghost var faults: nat
    ghost var refusals: nat

    ghost predicate Alive()
      reads this
    {
      && Honest(env, p) && views != [] && Legal(env, p, views)
      && AllBounded(p.N(), inbox)
    }

    ghost function Now(): View
      requires views != []
      reads this
    {
      views[|views| - 1]
    }

    ghost predicate Valid()
      reads this
    {
      Alive() && Now().board.shutdown == flag && Now().conn.s2c == inbox
    }

    constructor (env: Env, p: Params, ghost v: View, raised: bool)
      requires Honest(env, p) && v.conn.s2c == [] && v.board.shutdown == raised
      ensures Valid() && views == [v] && this.env == env && this.p == p
      ensures frames == 0 && waited == 0 && slept == 0 && faults == 0 && refusals == 0
    {
      this.env, this.p := env, p;
      flag, inbox, views := raised, [], [v];
      frames, waited, slept, faults, refusals := 0, 0, 0, 0, 0;
    }

    /** The others go on. */
    method Wait()
      requires Valid()
      modifies `flag, `inbox, `views
      ensures Valid() && old(views) <= views && Others(p.N(), old(Now()), Now())
    {
      var raised: bool := *;
      var reply: Reply := *;
      var arrived: bool := *;
      ghost var v := Now();
      flag := flag || raised;
      if arrived && BoundedReply(p.N(), reply) {
        inbox := inbox + [reply];
      }
      ghost var rest: View := *;
      ghost var v' := View(rest.disk, rest.acked, rest.board.(shutdown := flag),
                           v.conn.(c2s := rest.conn.c2s, s2c := inbox, handler := rest.conn.handler));
      LegalMore(env, p, views, v');
      views := views + [v'];
    }

    /** A step of the worker itself. */
    ghost method Step(v: View)
      requires Alive() && WorkerStep(env, p, Now(), v)
      requires v.board.shutdown == flag && v.conn.s2c == inbox
      modifies `views
      ensures Valid() && old(views) <= views && Now() == v
    {
      hide WorkerStep;
      LegalMore(env, p, views, v);
      views := views + [v];
    }

    method LoadFlag() returns (raised: bool)
      requires Valid()
      modifies `flag, `inbox, `views
      ensures Valid() && old(views) <= views && Others(p.N(), old(Now()), Now())
      ensures raised == flag
    {
      Wait();
      raised := flag;
    }

    /** A worker that fails raises the flag in one step with giving up its chunk. */
    method RaiseFlag(ghost v: View)
      requires Valid() && v.board.shutdown && v.conn.s2c == inbox
      requires WorkerStep(env, p, Now(), v)
      modifies `flag, `views
      ensures Valid() && old(views) <= views && Now() == v && flag
    {
      hide WorkerStep;
      flag := true;
      Step(v);
    }

    method Connect() returns (ok: bool)
      requires Valid()
      modifies `flag, `inbox, `views, `faults
      ensures Valid() && old(views) <= views && Others(p.N(), old(Now()), Now())
      ensures faults == if ok then old(faults) else old(faults) + 1
    {
      Wait();
      ok := *;
      if !ok {
        faults := faults + 1;
      }
    }

    /** Sends the one-byte query; a failed send may have reached the server. */
    method SendQuery(payload: Bytes, timeout: nat) returns (ok: bool)
      requires Valid() && Now().conn.worker.Connecting? && payload == Messages.QUERY
      requires timeout == Frames.DEFAULT_TIMEOUT
      modifies this
      ensures Valid() && old(views) <= views && SameLists(old(Now().conn), Now().conn)
      ensures Now().conn.worker.WaitHave? || (!ok && Now().conn.worker.Connecting?)
      ensures frames == old(frames) && slept == old(slept)
      ensures refusals == old(refusals) && faults == if ok then old(faults) else old(faults) + 1
    {
      Wait();
      ok := *;
      if !ok {
        faults := faults + 1;
      }
      var whole: bool := *;
      if ok || whole {
        ghost var v := Now();
        Step(v.(conn := v.conn.(worker := WaitHave, c2s := v.conn.c2s + [Query])));
      }
    }

    /** Sends the buffers of one chunk message as one frame. */
    method SendParts(parts: seq<Bytes>, timeout: nat) returns (ok: bool)
      requires Valid()
      requires IsMessage(env, Now().conn, Frames.Flatten(parts)) && Now().conn.worker.attempt < env.retries
      requires timeout == DueTimeout(Now().conn.worker)
      modifies this
      ensures Valid() && old(views) <= views && SameLists(old(Now().conn), Now().conn)
      ensures var w := old(Now().conn.worker);
              Now().conn.worker == Sent(w.pos, w.already, w.attempt, w.data) || (!ok && Now().conn.worker == w)
      ensures frames == old(frames) + 1 && waited <= old(waited) + timeout && slept == old(slept)
      ensures refusals == old(refusals) && faults == if ok then old(faults) else old(faults) + 1
    {
      Wait();
      frames := frames + 1;
      ghost var spent: int := *;
      waited := waited + (if 0 <= spent <= timeout then spent else timeout);
      ok := *;
      if !ok {
        faults := faults + 1;
      }
      var whole: bool := *;
      if ok || whole {
        ghost var v := Now();
        ghost var w := v.conn.worker;
        ghost var m := Chunk(v.conn.mine[w.pos], w.data, env.h(w.data));
        Step(v.(conn := v.conn.(worker := Sent(w.pos, w.already, w.attempt, w.data), c2s := v.conn.c2s + [m])));
      }
    }

    /** Takes the next reply. The worker's own step, which consumes it, must follow. */
    method Recv(timeout: nat) returns (r: Result<Bytes>)
      requires Valid() && timeout == DueTimeout(Now().conn.worker)
      modifies this
      ensures Alive() && old(views) <= views && Others(p.N(), old(Now()), Now()) && flag == Now().board.shutdown
      ensures r.Err? ==> Valid()
      ensures r.Ok? ==> var s2c := Now().conn.s2c;
                s2c != [] && inbox == s2c[1..] && Carries(p.N(), r.value, s2c[0]) && BoundedReply(p.N(), s2c[0])
      ensures frames == old(frames) && waited <= old(waited) + timeout && slept == old(slept)
      ensures faults == if r.Ok? then old(faults) else old(faults) + 1
      ensures refusals == if r.Ok? && !FirstByteIsOk(Now().conn.s2c[0]) then old(refusals) + 1 else old(refusals)
    {
      Wait();
      ghost var spent: int := *;
      waited := waited + (if 0 <= spent <= timeout then spent else timeout);
      var arrived: bool := *;
      if !arrived || inbox == [] {
        faults := faults + 1;
        return Err;
      }
      var empty: bool := *;
      r := Ok(if empty && inbox[0] == Ack(false) then [] else ReplyBytes(p.N(), inbox[0]));
      if !FirstByteIsOk(inbox[0]) {
        refusals := refusals + 1;
      }
      inbox := inbox[1..];
    }

    method Sleep(ms: nat)
      requires Valid()
      modifies this
      ensures Valid() && old(views) <= views && Others(p.N(), old(Now()), Now())
      ensures frames == old(frames) && waited == old(waited) && slept == old(slept) + ms
      ensures faults == old(faults) && refusals == old(refusals)
    {
      Wait();
      slept := slept + ms;
    }

    /** Open, seek and one `read`, which may return fewer bytes than asked for. */
    method ReadFile(offset: nat, size: nat) returns (r: Result<Bytes>)
      requires Valid() && offset + size <= |p.source|
      modifies `flag, `inbox, `views, `faults
      ensures Valid() && old(views) <= views && Others(p.N(), old(Now()), Now())
      ensures r.Ok? ==> r.value <= p.source[offset..offset + size]
      ensures faults == if r.Ok? then old(faults) else old(faults) + 1
    {
      Wait();
      var fails: bool := *;
      var n: int := *;
      if fails || n < 0 || n > size {
        faults := faults + 1;
        return Err;
      }
      return Ok(p.source[offset..offset + n]);
    }
  }

  // ----- One chunk -----------------------------------------------------------------------------------

  /** The worker is busy with the chunk at `pos`. */
  predicate OnChunk(w: Worker, pos: nat, already: set<nat>)
  {
    (w.Opening? || w.Sending? || w.Sent? || w.WaitAck?) && w.pos == pos && w.already == already
  }

  /** The chunk at the worker's position was reported as delivered, or is still its business. */
  ghost predicate ChunkDone(k: Conn, k': Conn, delivered: bool)
    requires (k.worker.Opening? || k.worker.Sending?) && k.worker.pos < |k.mine|
  {
    && k'.mine == k.mine && k'.fail == k.fail
    && if delivered then
         k'.ok == k.ok + [k.mine[k.worker.pos]] && k'.worker == Ready(k.worker.pos + 1, k.worker.already)
       else
         k'.ok == k.ok && OnChunk(k'.worker, k.worker.pos, k.worker.already)
  }

  /** Seconds that `n` attempts may wait, each for the send and for the answer. */
  function WaitBound(size: nat, n: nat): nat
  {
    Frames.TimeoutForBytes(Messages.CHUNK_HEADER + size + Messages.HASH_SIZE) * (n * (n + 1))
  }

  /** Milliseconds slept between `n` attempts. */
  function SleepBound(n: nat): nat
  {
    if n == 0 then 0 else 100 * (n * (n - 1))
  }

  /** The timeout of an attempt: the base, times the attempt's number cast to u32. */
  function AttemptTimeout(size: nat, attempt: nat): nat
  {
    Frames.TimeoutForBytes(Messages.CHUNK_HEADER + size + Messages.HASH_SIZE) * ((attempt + 1) % U32)
  }

  /** What the worker has to allow for its next send or answer. */
  function DueTimeout(w: Worker): nat
  {
    if w.Sending? || w.WaitAck? then AttemptTimeout(|w.data|, w.attempt) else Frames.DEFAULT_TIMEOUT
  }

  /** Each attempt gets as many times the base timeout as its number says, so its bytes have that many times
      the time they need at the assumed throughput. */
  lemma AttemptsGetMore(size: nat, attempt: nat)
    requires attempt + 1 < U32
    ensures AttemptTimeout(size, attempt) == (attempt + 1) * AttemptTimeout(size, 0)
    ensures AttemptTimeout(size, attempt) * Frames.MIN_THROUGHPUT >= (attempt + 1) * (size + 48)
  {
    var t, n := Frames.TimeoutForBytes(Messages.CHUNK_HEADER + size + Messages.HASH_SIZE), attempt + 1;
    Frames.TimeoutIsEnough(Messages.CHUNK_HEADER + size + Messages.HASH_SIZE);
    Chunks.MulMono(size + 48, t * Frames.MIN_THROUGHPUT, n);
    assert (t * Frames.MIN_THROUGHPUT) * n == (t * n) * Frames.MIN_THROUGHPUT;
    assert (size + 48) * n == n * (size + 48) && t * n == n * t;
  }

  lemma OneMoreAttempt(size: nat, attempt: nat)
    ensures WaitBound(size, attempt) + 2 * AttemptTimeout(size, attempt) <= WaitBound(size, attempt + 1)
    ensures SleepBound(attempt + 1) + 200 * (attempt + 1) == SleepBound(attempt + 2)
  {
    var t := Frames.TimeoutForBytes(Messages.CHUNK_HEADER + size + Messages.HASH_SIZE);
    var a := attempt + 1;
    Chunks.MulMono(a % U32, a, t);
    assert (attempt + 1) * (attempt + 2) == attempt * (attempt + 1) + 2 * a;
    assert t * (attempt * (attempt + 1) + 2 * a) == t * (attempt * (attempt + 1)) + 2 * (a * t);
    assert (attempt + 2) * (attempt + 1) == (attempt + 1) * attempt + 2 * (attempt + 1);
  }

  lemma TimeoutRises(a: nat, b: nat)
    requires a <= b
    ensures Frames.TimeoutForBytes(a) <= Frames.TimeoutForBytes(b)
  {
    assert a / Frames.MIN_THROUGHPUT <= b / Frames.MIN_THROUGHPUT;
  }

  lemma Products(a: nat, b: nat, c: nat, d: nat)
    requires a <= c && b <= d
    ensures a * b <= c * d
  {
    Chunks.MulMono(a, c, b);
    Chunks.MulMono(b, d, c);
    assert b * c == c * b && d * c == c * d;
  }

  lemma BoundsRise(small: nat, size: nat, m: nat, n: nat)
    requires small <= size && m <= n
    ensures WaitBound(small, m) <= WaitBound(size, n) && SleepBound(m) <= SleepBound(n)
  {
    TimeoutRises(Messages.CHUNK_HEADER + small + Messages.HASH_SIZE, Messages.CHUNK_HEADER + size + Messages.HASH_SIZE);
    var s := Frames.TimeoutForBytes(Messages.CHUNK_HEADER + small + Messages.HASH_SIZE);
    var t := Frames.TimeoutForBytes(Messages.CHUNK_HEADER + size + Messages.HASH_SIZE);
    hide Frames.TimeoutForBytes;
    Products(m, m + 1, n, n + 1);
    Products(s, m * (m + 1), t, n * (n + 1));
    if m > 0 {
      Products(m, m - 1, n, n - 1);
    }
  }

  /** The header, the data and the hash on the wire are the message of the state machine. */
  lemma PartsAreMessage(index: nat, offset: nat, data: Bytes, hash: Digest, header: Bytes)
    requires index < U32 && |data| + 48 <= Frames.MAX_PAYLOAD
    requires header == BE(index, 4) + BE(offset, 8) + BE(|data|, 4)
    ensures var payload := Frames.Flatten([header, data, hash]);
            && |payload| <= Frames.MAX_PAYLOAD && payload != Messages.QUERY
            && Messages.ParseChunk(payload) == Messages.ChunkFrame(index, data, hash)
  {
    hide Messages.ParseChunk, BE;
    var parts := [header, data, hash];
    assert parts[..2] == [header, data];
    assert Frames.Flatten([header]) == header by { assert [header][..0] + [header] == [header]; }
    assert Frames.Flatten([header, data]) == header + data by { assert [header, data][..1] == [header]; }
    assert Frames.Flatten(parts) == Messages.ChunkMessage(index, offset, data, hash);
    Messages.ChunkRoundTrip(index, offset, data, hash);
  }

  lemma NoAttempts(size: nat)
    ensures WaitBound(size, 0) == 0 && SleepBound(0) == 0 && SleepBound(1) == 0
  {
  }

  lemma DataFits(env: Env, p: Params, data: Bytes, size: nat)
    requires Honest(env, p) && |data| <= size <= p.chunkSize
    ensures |data| + 48 <= Frames.MAX_PAYLOAD
  {
  }

  lemma OpenedStep(env: Env, p: Params, v: View, data: Bytes)
    requires v.conn.worker.Opening? && v.conn.worker.pos < |v.conn.mine|
               && data <= p.Slice(v.conn.mine[v.conn.worker.pos])
    ensures var w := v.conn.worker;
            WorkerStep(env, p, v, v.(conn := v.conn.(worker := Sending(w.pos, w.already, 0, data))))
  {
  }

  /** After the send: done at once if the flag is up, otherwise the answer is awaited. */
  function AfterSend(v: View): View
    requires v.conn.worker.Sent? && v.conn.worker.pos < |v.conn.mine|
  {
    var w := v.conn.worker;
    if v.board.shutdown then Delivered(v, v.conn, w.pos, w.already)
    else v.(conn := v.conn.(worker := WaitAck(w.pos, w.already, w.attempt, w.data)))
  }

  lemma AfterSendStep(env: Env, p: Params, v: View)
    requires v.conn.worker.Sent? && v.conn.worker.pos < |v.conn.mine|
    ensures WorkerStep(env, p, v, AfterSend(v))
  {
  }

  /** After the answer: done, or ready for the next attempt. */
  function AfterAnswer(v: View): View
    requires v.conn.worker.WaitAck? && v.conn.worker.pos < |v.conn.mine| && v.conn.s2c != []
  {
    var w, got := v.conn.worker, v.conn.(s2c := v.conn.s2c[1..]);
    if FirstByteIsOk(v.conn.s2c[0]) then Delivered(v, got, w.pos, w.already)
    else v.(conn := got.(worker := Sending(w.pos, w.already, w.attempt + 1, w.data)))
  }

  lemma AfterAnswerStep(env: Env, p: Params, v: View)
    requires v.conn.worker.WaitAck? && v.conn.worker.pos < |v.conn.mine| && v.conn.s2c != []
    ensures WorkerStep(env, p, v, AfterAnswer(v))
  {
  }

  /** Giving up on a chunk has a cause: a fault, or a refusal for each of the retries; `Ok(false)` means
      that there were no retries. Nothing is sent again after a fault. */
  ghost predicate Excused(r: Result<bool>, retries: nat, faults: int, refusals: int)
  {
    && 0 <= faults <= 1 && 0 <= refusals <= retries
    && (r.Err? <==> faults == 1 || (retries > 0 && refusals == retries))
    && (r.Ok? && !r.value ==> retries == 0)
  }

  datatype Outcome = Accepted | Refused | Broken

  /** One pass of the retry loop: the frame, the look at the flag, the answer. */
  method Attempt(link: Link, parts: seq<Bytes>, timeout: nat) returns (o: Outcome)
    requires link.Valid()
    requires IsMessage(link.env, link.Now().conn, Frames.Flatten(parts))
               && link.Now().conn.worker.attempt < link.env.retries
    requires timeout == DueTimeout(link.Now().conn.worker)
    modifies link
    ensures link.Valid() && old(link.views) <= link.views
    ensures ChunkDone(old(link.Now().conn), link.Now().conn, o.Accepted?)
    ensures var w := old(link.Now().conn.worker);
            o.Refused? ==> link.Now().conn.worker == Sending(w.pos, w.already, w.attempt + 1, w.data)
    ensures link.frames == old(link.frames) + 1
    ensures link.faults == if o.Broken? then old(link.faults) + 1 else old(link.faults)
    ensures link.refusals == if o.Refused? then old(link.refusals) + 1 else old(link.refusals)
    ensures link.waited <= old(link.waited) + 2 * timeout && link.slept == old(link.slept)
  {
    hide WorkerStep, Legal, Frames.Flatten, Messages.ParseChunk, BE;
    var sent := link.SendParts(parts, timeout);
    if !sent {
      return Broken;
    }
    var stop := link.LoadFlag();
    AfterSendStep(link.env, link.p, link.Now());
    link.Step(AfterSend(link.Now()));
    if stop {
      return Accepted;
    }
    var ack := link.Recv(timeout);
    if ack.Err? {
      return Broken;
    }
    FirstByteDecides(link.p.N(), ack.value, link.Now().conn.s2c[0]);
    AfterAnswerStep(link.env, link.p, link.Now());
    link.Step(AfterAnswer(link.Now()));
    return if ack.value != [] && ack.value[0] == Messages.ACK_OK[0] then Accepted else Refused;
  }

  /** The retry loop: the same frame, up to `retries` times. */
  method SendWithRetries(link: Link, parts: seq<Bytes>, size: nat, retries: nat) returns (r: Result<bool>)
    requires link.Valid() && retries == link.env.retries
    requires IsMessage(link.env, link.Now().conn, Frames.Flatten(parts)) && link.Now().conn.worker.attempt == 0
    requires size == |link.Now().conn.worker.data|
    modifies link
    ensures link.Valid() && old(link.views) <= link.views
    ensures ChunkDone(old(link.Now().conn), link.Now().conn, r == Ok(true))
    ensures r == Ok(false) ==> retries == 0
    ensures retries == 0 ==> r == Ok(false)
    ensures old(link.frames) <= link.frames <= old(link.frames) + retries
    ensures link.waited <= old(link.waited) + WaitBound(size, retries)
    ensures link.slept == old(link.slept) + SleepBound(link.frames - old(link.frames))
    ensures Excused(r, retries, link.faults - old(link.faults), link.refusals - old(link.refusals))
  {
    hide WorkerStep, Legal, Honest, WaitBound, SleepBound, AttemptTimeout, Frames.Flatten, Messages.ParseChunk, BE;
    ghost var k0 := link.Now().conn;
    ghost var pos, already, data := k0.worker.pos, k0.worker.already, k0.worker.data;
    NoAttempts(size);
    var attempt := 0;
    while attempt < retries
      invariant link.Valid() && old(link.views) <= link.views
      invariant SameLists(k0, link.Now().conn)
      invariant link.Now().conn.worker == Sending(pos, already, attempt, data)
      invariant attempt < retries || attempt == retries == 0
      invariant link.frames == old(link.frames) + attempt
      invariant link.faults == old(link.faults) && link.refusals == old(link.refusals) + attempt
      invariant link.waited <= old(link.waited) + WaitBound(size, attempt)
      invariant link.slept == old(link.slept) + SleepBound(attempt + 1)
    {
      OneMoreAttempt(size, attempt);
      BoundsRise(size, size, attempt + 1, retries);
      var outcome := Attempt(link, parts, AttemptTimeout(size, attempt));
      if outcome.Broken? {
        return Err;
      }
      if outcome.Accepted? {
        return Ok(true);
      }
      if attempt < retries - 1 {
        link.Sleep(200 * (attempt + 1));
      } else {
        return Err;
      }
      attempt := attempt + 1;
    }
    return Ok(false);
  }

  /** Sends one chunk, at most `retries` times. `Ok(true)`: the server answered ACK_OK, or the flag
      was raised after the chunk had been sent. Giving up costs at most T*r*(r+1) seconds of timed
      waits and 100*r*(r-1) ms of sleep, T being the timeout for the size of the message. */
  method SendChunk(link: Link, index: nat, offset: nat, size: nat, retries: nat) returns (r: Result<bool>)
    requires link.Valid() && link.Now().conn.worker.Opening?
    requires var k := link.Now().conn;
             k.worker.pos < |k.mine| && k.mine[k.worker.pos] == index && index < U32
    requires offset == index * link.p.chunkSize && offset <= |link.p.source|
    requires size == Chunks.ClientSize(link.p.chunkSize, |link.p.source|, index)
    requires retries == link.env.retries
    modifies link
    ensures link.Valid() && old(link.views) <= link.views
    ensures ChunkDone(old(link.Now().conn), link.Now().conn, r == Ok(true))
    ensures r == Ok(false) ==> retries == 0
    ensures retries == 0 ==> r != Ok(true)
    ensures old(link.frames) <= link.frames <= old(link.frames) + retries
    ensures link.waited <= old(link.waited) + WaitBound(size, retries)
    ensures link.slept == old(link.slept) + SleepBound(link.frames - old(link.frames))
    ensures Excused(r, retries, link.faults - old(link.faults), link.refusals - old(link.refusals))
  {
    hide WorkerStep, Legal, Honest, WaitBound, SleepBound, Frames.Flatten, Messages.ParseChunk, BE;
    ghost var k0 := link.Now().conn;
    ghost var pos, already := k0.worker.pos, k0.worker.already;
    var read := link.ReadFile(offset, size);
    BoundsRise(0, size, 0, retries);
    NoAttempts(size);
    if read.Err? {
      return Err;
    }
    var data := read.value;
    var hash := link.env.h(data);
    var buffer := Messages.FillHeader(index, offset, |data|);
    var header := buffer[..];
    DataFits(link.env, link.p, data, size);
    PartsAreMessage(index, offset, data, hash, header);
    OpenedStep(link.env, link.p, link.Now(), data);
    ghost var w := Sending(pos, already, 0, data);
    link.Step(link.Now().(conn := link.Now().conn.(worker := w)));
    BoundsRise(|data|, size, retries, retries);
    r := SendWithRetries(link, [header, data, hash], |data|, retries);
  }

  // ----- The whole worker ------------------------------------------------------------------------------

  datatype Config = Config(indices: seq<nat>, chunkSize: nat, fileSize: nat, retries: nat)

  /** The configuration is the one of the transfer, and the worker has done nothing yet. */
  ghost predicate Fits(c: Config, env: Env, p: Params, k: Conn)
  {
    && c == Config(k.mine, p.chunkSize, |p.source|, env.retries)
    && k.worker.Start? && k.ok == [] && k.fail == []
    && forall j :: 0 <= j < |c.indices| ==> c.indices[j] < U32
  }

  ghost predicate Visited(indices: seq<nat>, pos: nat, ok: seq<nat>, fail: seq<nat>, already: set<nat>)
  {
    forall j :: 0 <= j < pos <= |indices| ==> indices[j] in already || indices[j] in ok || indices[j] in fail
  }

  /** A move of the worker that changes only where it is. */
  function At(v: View, w: Worker): View
  {
    v.(conn := v.conn.(worker := w))
  }

  function FailAll(v: View): View
  {
    v.(conn := v.conn.(worker := Finished, fail := v.conn.fail + v.conn.mine))
  }

  lemma StartStep(env: Env, p: Params, v: View)
    requires v.conn.worker.Start?
    ensures WorkerStep(env, p, v, At(v, if v.board.shutdown then Finished else Connecting))
  {
  }

  lemma NotConnectedStep(env: Env, p: Params, v: View)
    requires v.conn.worker.Connecting? || v.conn.worker.WaitHave?
    ensures WorkerStep(env, p, v, FailAll(v))
  {
  }

  lemma ReplyStep(env: Env, p: Params, v: View, b: Bytes)
    requires Honest(env, p) && v.conn.worker.WaitHave? && v.conn.s2c != []
    requires Carries(p.N(), b, v.conn.s2c[0]) && BoundedReply(p.N(), v.conn.s2c[0])
    ensures WorkerStep(env, p, v, At(v.(conn := v.conn.(s2c := v.conn.s2c[1..])), Ready(0, ReadHave(v.conn.s2c[0]))))
    ensures var have := ReadHave(v.conn.s2c[0]);
            if |b| < 4 then have == {} else Messages.ReadIndices(b, FromBE(b[..4])) == Some(have)
  {
    hide Messages.ReadIndices, Carries;
    HaveIsRead(p.N(), b, v.conn.s2c[0]);
  }

  /** Where the loop goes from the chunk at `pos`. */
  function NextMove(p: Params, v: View, pos: nat, already: set<nat>): View
  {
    var k := v.conn;
    if pos >= |k.mine| || v.board.shutdown then At(v, Finished)
    else if k.mine[pos] in already then At(v, Ready(pos + 1, already))
    else if !InReach(p, k.mine[pos]) then
      v.(conn := k.(worker := Ready(pos + 1, already), fail := k.fail + [k.mine[pos]]))
    else At(v, Opening(pos, already))
  }

  lemma NextMoveStep(env: Env, p: Params, v: View, pos: nat, already: set<nat>)
    requires v.conn.worker == Ready(pos, already)
    ensures WorkerStep(env, p, v, NextMove(p, v, pos, already))
  {
  }

  lemma GiveUpStep(env: Env, p: Params, v: View, pos: nat, already: set<nat>)
    requires OnChunk(v.conn.worker, pos, already) && pos < |v.conn.mine|
    ensures WorkerStep(env, p, v, GaveUp(v, v.conn, pos, already))
  {
  }

  /** The frames that `n` chunks may cost. */
  function FrameLimit(n: nat, retries: nat): nat
  {
    n * retries
  }

  lemma NoFrames(retries: nat)
    ensures FrameLimit(0, retries) == 0
  {
  }

  lemma FramesLeft(n: nat, pos: nat, retries: nat)
    requires pos < n
    ensures FrameLimit(pos, retries) + retries == FrameLimit(pos + 1, retries) <= FrameLimit(n, retries)
  {
    Chunks.MulMono(pos + 1, n, retries);
  }

  lemma AllFailed(indices: seq<nat>, already: set<nat>)
    ensures Visited(indices, |indices|, [], indices, already)
  {
  }

  /** Since `faults` and `refusals` were counted something has gone wrong with the connection or the file,
      or the server has refused as often as there are retries. */
  ghost predicate Trouble(link: Link, faults: nat, refusals: nat)
    reads link
  {
    link.faults > faults || link.refusals >= refusals + link.env.retries
  }

  /** Every failed chunk is out of reach or had trouble. */
  ghost predicate FailuresExcused(link: Link, fail: seq<nat>, faults: nat, refusals: nat)
    reads link
  {
    forall j :: 0 <= j < |fail| ==> !InReach(link.p, fail[j]) || Trouble(link, faults, refusals)
  }

  lemma NoneVisited(indices: seq<nat>, already: set<nat>)
    ensures Visited(indices, 0, [], [], already)
  {
  }

  lemma OneVisited(indices: seq<nat>, pos: nat, ok0: seq<nat>, fail0: seq<nat>, ok: seq<nat>, fail: seq<nat>,
      already: set<nat>)
    requires pos < |indices| && Visited(indices, pos, ok0, fail0, already) && ok0 <= ok && fail0 <= fail
    requires indices[pos] in already || indices[pos] in ok || indices[pos] in fail
    ensures Visited(indices, pos + 1, ok, fail, already)
  {
  }

  /** One chunk that the server does not have: guarded against a wrong offset, then sent. A chunk
      that could not be sent raises the flag, a chunk out of reach does not. */
  method SendOne(link: Link, c: Config, pos: nat, already: set<nat>, ok0: seq<nat>, fail0: seq<nat>)
    returns (ok: seq<nat>, fail: seq<nat>)
    requires link.Valid() && !link.flag && pos < |c.indices| && c.indices[pos] < U32 && c.indices[pos] !in already
    requires c.chunkSize == link.p.chunkSize && c.fileSize == |link.p.source| && c.retries == link.env.retries
    requires var k := link.Now().conn;
             k.worker == Ready(pos, already) && k.mine == c.indices && k.ok == ok0 && k.fail == fail0
    modifies link
    ensures link.Valid() && old(link.views) <= link.views
    ensures var k := link.Now().conn;
            k.worker == Ready(pos + 1, already) && k.mine == c.indices && k.ok == ok && k.fail == fail
    ensures (ok == ok0 + [c.indices[pos]] && fail == fail0) || (ok == ok0 && fail == fail0 + [c.indices[pos]])
    ensures !InReach(link.p, c.indices[pos]) ==> ok == ok0 && link.frames == old(link.frames) && !link.flag
    ensures InReach(link.p, c.indices[pos]) && ok == ok0 ==>
              link.flag && Trouble(link, old(link.faults), old(link.refusals))
    ensures link.faults >= old(link.faults) && link.refusals >= old(link.refusals)
    ensures link.frames <= old(link.frames) + c.retries
  {
    hide WorkerStep, Legal, Honest, WaitBound, SleepBound;
    var index := c.indices[pos];
    var offset := index * c.chunkSize;
    NextMoveStep(link.env, link.p, link.Now(), pos, already);
    link.Step(NextMove(link.p, link.Now(), pos, already));
    if offset >= U64 || offset > c.fileSize {
      return ok0, fail0 + [index];
    }
    var size := Chunks.Min(c.chunkSize, c.fileSize - offset);
    var sent := SendChunk(link, index, offset, size, c.retries);
    if sent.Ok? && sent.value {
      return ok0 + [index], fail0;
    }
    GiveUpStep(link.env, link.p, link.Now(), pos, already);
    link.RaiseFlag(GaveUp(link.Now(), link.Now().conn, pos, already));
    return ok0, fail0 + [index];
  }

  /** The loop over the worker's chunks. */
  method SendAll(link: Link, c: Config, already: set<nat>) returns (ok: seq<nat>, fail: seq<nat>)
    requires link.Valid() && link.Now().conn.worker == Ready(0, already)
    requires var k := link.Now().conn;
             Fits(c, link.env, link.p, k.(worker := Start))
    modifies link
    ensures link.Valid() && old(link.views) <= link.views
    ensures link.Now().conn.worker.Finished? && link.Now().conn.ok == ok && link.Now().conn.fail == fail
    ensures link.frames <= old(link.frames) + FrameLimit(|c.indices|, c.retries)
    ensures FailuresExcused(link, fail, old(link.faults), old(link.refusals))
    ensures !link.flag ==> Visited(c.indices, |c.indices|, ok, fail, already)
  {
    hide WorkerStep, Legal, Honest, WaitBound, SleepBound, Visited, FrameLimit, InReach;
    ok, fail := [], [];
    assert FrameLimit(0, c.retries) == 0 by { NoFrames(c.retries); }
    var n := |c.indices|;
    var pos := 0;
    var stop := false;
    NoneVisited(c.indices, already);
    while pos < n && !stop
      decreases n - pos, !stop
      invariant pos <= n && link.Valid() && old(link.views) <= link.views
      invariant var k := link.Now().conn;
                k.worker == Ready(pos, already) && k.mine == c.indices && k.ok == ok && k.fail == fail
      invariant stop ==> link.flag
      invariant FailuresExcused(link, fail, old(link.faults), old(link.refusals))
      invariant link.faults >= old(link.faults) && link.refusals >= old(link.refusals)
      invariant link.frames <= old(link.frames) + FrameLimit(pos, c.retries)
                  && FrameLimit(pos, c.retries) <= FrameLimit(n, c.retries)
      invariant Visited(c.indices, pos, ok, fail, already)
    {
      FramesLeft(n, pos, c.retries);
      stop := link.LoadFlag();
      if !stop {
        ghost var ok0, fail0 := ok, fail;
        if c.indices[pos] in already {
          NextMoveStep(link.env, link.p, link.Now(), pos, already);
          link.Step(NextMove(link.p, link.Now(), pos, already));
        } else {
          ok, fail := SendOne(link, c, pos, already, ok, fail);
        }
        OneVisited(c.indices, pos, ok0, fail0, ok, fail, already);
        pos := pos + 1;
      }
    }
    NextMoveStep(link.env, link.p, link.Now(), pos, already);
    link.Step(NextMove(link.p, link.Now(), pos, already));
  }

  /** Asks the server which chunks it has. A failed query leaves the worker where it can only fail. */
  method QueryReceived(link: Link) returns (r: Option<set<nat>>)
    requires link.Valid() && link.Now().conn.worker.Connecting?
    modifies link
    ensures link.Valid() && old(link.views) <= link.views && SameLists(old(link.Now().conn), link.Now().conn)
    ensures var w := link.Now().conn.worker;
            if r.Some? then w == Ready(0, r.value) else w.Connecting? || w.WaitHave?
    ensures link.frames == old(link.frames) && link.refusals >= old(link.refusals)
    ensures link.faults == if r.Some? then old(link.faults) else old(link.faults) + 1
  {
    hide WorkerStep, Legal, Honest, Messages.ReadIndices, FromBE, ReadHave, Carries;
    var sent := link.SendQuery(Messages.QUERY, Frames.DEFAULT_TIMEOUT);
    if !sent {
      return None;
    }
    var resp := link.Recv(Frames.DEFAULT_TIMEOUT);
    if resp.Err? {
      return None;
    }
    r := Messages.ParseHave(resp.value);
    ReplyStep(link.env, link.p, link.Now(), resp.value);
    link.Step(At(link.Now().(conn := link.Now().conn.(s2c := link.Now().conn.s2c[1..])), Ready(0, r.value)));
  }

  /** At some moment the worker had read `already` as the server's answer. */
  ghost predicate WasTold(views: seq<View>, already: set<nat>)
  {
    exists t :: 0 <= t < |views| && views[t].conn.worker == Ready(0, already)
  }

  lemma StillTold(views: seq<View>, later: seq<View>, already: set<nat>)
    requires views != [] && views[|views| - 1].conn.worker == Ready(0, already) && views <= later
    ensures WasTold(later, already)
  {
    assert later[|views| - 1] == views[|views| - 1];
  }

  /** The worker runs from its start to its end by steps of the state machine only, reports exactly
      the lists of the state machine, sends at most |indices| * retries chunk frames, and unless it
      was told to stop has delivered, failed or rightly skipped every chunk. */
  method Work(link: Link, c: Config) returns (ok: seq<nat>, fail: seq<nat>, ghost already: set<nat>)
    requires link.Valid() && Fits(c, link.env, link.p, link.Now().conn)
    modifies link
    ensures link.Valid() && old(link.views) <= link.views
    ensures link.Now().conn.worker.Finished? && link.Now().conn.ok == ok && link.Now().conn.fail == fail
    ensures link.frames <= old(link.frames) + FrameLimit(|c.indices|, c.retries)
    ensures already != {} ==> WasTold(link.views, already)
    ensures FailuresExcused(link, fail, old(link.faults), old(link.refusals))
    ensures !link.flag ==> Visited(c.indices, |c.indices|, ok, fail, already)
  {
    hide WorkerStep, Legal, Honest, FrameLimit, Visited, WasTold;
    ok, fail, already := [], [], {};
    var stop := link.LoadFlag();
    StartStep(link.env, link.p, link.Now());
    if stop {
      link.Step(At(link.Now(), Finished));
      return;
    }
    link.Step(At(link.Now(), Connecting));
    var connected := link.Connect();
    var skip := None;
    if connected {
      skip := QueryReceived(link);
    }
    if skip.None? {
      NotConnectedStep(link.env, link.p, link.Now());
      link.Step(FailAll(link.Now()));
      fail := c.indices;
      AllFailed(c.indices, already);
      return;
    }
    already := skip.value;
    ghost var told := link.views;
    ok, fail := SendAll(link, c, skip.value);
    StillTold(told, link.views, already);
  }

  // ----- The rest of the system ------------------------------------------------------------------------

  /** `Others` covers everything that can happen: in every run, what connection `c` sees from one
      state to the next is a step of its worker or a doing of the others. */
  lemma RestOfSystem(env: Env, run: seq<State>, t: nat, c: nat)
    requires CollisionFree(env) && Run(env, run) && t + 1 < |run|
    requires run[t].phase.Live? && run[t + 1].phase.Live? && c < |run[t].phase.conns|
    ensures run[t + 1].phase.p == run[t].phase.p && |run[t + 1].phase.conns| == |run[t].phase.conns|
    ensures var v, v' := ViewOf(run[t], c), ViewOf(run[t + 1], c);
            WorkerStep(env, run[t].phase.p, v, v') || Others(run[t].phase.p.N(), v, v')
  {
    hide Next, WorkerStep, HandlerStep, ControlStep, Safety.Inv, Others;
    var s, s' := run[t], run[t + 1];
    assert Next(env, run[t], run[t + 1]);
    Induction.RunKeeps(env, run, t);
    FlagsCount(env, s);
    Induction.LiveSteps(env, s, s');
    if d: nat :| ConnStep(env, s, s', d) {
      Guarantees.ConnOfRun(env, run, t, d);
      Bounded(env, s, d);
      OtherConnection(env, s, s', d, c);
    } else if ControlStep(env, s, s') {
      ControlOthers(env, s, s', c);
    } else {
      InterruptOthers(s, s', c);
    }
  }

  lemma FlagsCount(env: Env, s: State)
    requires Safety.Inv(env, s) && s.phase.Live?
    ensures |s.phase.board.received| == s.phase.p.N()
  {
    hide Safety.ConnInv, Safety.DiskInv, Safety.AckedInv, Safety.SyncInv, Safety.ControlInv;
  }

  lemma Bounded(env: Env, s: State, d: nat)
    requires s.phase.Live? && d < |s.phase.conns|
    requires var ph := s.phase;
             Safety.ConnInv(env, ph.p, s.disk, ph.board, Safety.Removed(ph.control), |ph.conns|, d, ph.conns[d])
    ensures var h := s.phase.conns[d].handler; h.Replying? ==> BoundedReply(s.phase.p.N(), h.reply)
  {
    hide Safety.WorkerInv, Safety.MsgInv, Safety.ListsInv;
  }

  lemma HandlerOthers(env: Env, p: Params, c: nat, v: View, v': View)
    requires HandlerStep(env, p, c, v, v') && |v.board.received| == p.N()
    requires v.conn.handler.Replying? ==> BoundedReply(p.N(), v.conn.handler.reply)
    ensures Others(p.N(), v, v')
  {
    hide ExecStep, Encode, Chunks.ServerSize;
  }

  lemma OtherConnection(env: Env, s: State, s': State, d: nat, c: nat)
    requires s.phase.Live? && c < |s.phase.conns| && |s.phase.board.received| == s.phase.p.N()
               && ConnStep(env, s, s', d)
    requires var h := s.phase.conns[d].handler; h.Replying? ==> BoundedReply(s.phase.p.N(), h.reply)
    ensures s'.phase.Live? && s'.phase.p == s.phase.p && |s'.phase.conns| == |s.phase.conns|
    ensures var v, v' := ViewOf(s, c), ViewOf(s', c);
            WorkerStep(env, s.phase.p, v, v') || Others(s.phase.p.N(), v, v')
  {
    hide WorkerStep, HandlerStep;
    var p, v, v' := s.phase.p, ViewOf(s, d), ViewOf(s', d);
    if WorkerStep(env, p, v, v') {
      ConnSteps.WorkerFrame(env, p, v, v');
    } else {
      HandlerOthers(env, p, d, v, v');
    }
  }

  lemma ControlOthers(env: Env, s: State, s': State, c: nat)
    requires s.phase.Live? && c < |s.phase.conns| && ControlStep(env, s, s')
    ensures s'.phase.Live? && s'.phase.p == s.phase.p && |s'.phase.conns| == |s.phase.conns|
    ensures Others(s.phase.p.N(), ViewOf(s, c), ViewOf(s', c))
  {
    hide ExecStep;
  }

  lemma InterruptOthers(s: State, s': State, c: nat)
    requires s.phase.Live? && c < |s.phase.conns| && Interrupt(s, s')
    ensures s'.phase.Live? && s'.phase.p == s.phase.p && |s'.phase.conns| == |s.phase.conns|
    ensures Others(s.phase.p.N(), ViewOf(s, c), ViewOf(s', c))
  {
  }
}
