/** A concrete run in which the client exits with 0 although nothing was delivered. */
module Interruption {
  import opened Wire
  import opened Storage
  import opened Metadata
  import opened Receiver
  import opened Transfer
  import Messages
  import Assignment

  /** One chunk of one byte; the only hash that matters tells [] from [7]. */
  const SOURCE := Params([7], 1)

  function Hash(b: Bytes): Digest
  {
    seq(32, _ => if b == [] then 0 else 1)
  }

  ghost function World(): Env
  {
    Env(Hash, iset{[], [7]}, 3)
  }

  lemma Fits()
    ensures CollisionFree(World()) && Honest(World(), SOURCE) && SOURCE.N() == 1
    ensures Assignment.Assigned(1, 1, 0) == [0] && InReach(SOURCE, 0)
  {
    assert Assignment.Assigned(0, 1, 0) == [];
    assert Hash([])[0] == 0 && Hash([7])[0] == 1;
    forall b, lo, hi | b in World().contents && 0 <= lo <= hi <= |b|
      ensures b[lo..hi] in World().contents
    {
      assert lo == hi ==> b[lo..hi] == [];
      assert lo < hi ==> b[lo..hi] == b;
    }
  }

  ghost function Started(shutdown: bool, k: Conn): State
  {
    var meta := EmptyMeta(SOURCE.ToOffer(Hash));
    State(map[], Live(SOURCE, Board([false], meta, false, Free, shutdown), [k], Waiting), {}, SOURCE)
  }

  function At(worker: Worker, fail: seq<nat>, c2s: seq<Msg>, s2c: seq<Reply>, handler: Handler): Conn
  {
    Conn([0], worker, [], fail, c2s, s2c, handler)
  }

  /** The worker connects and queries, then cannot open the file: it gives chunk 0 up. */
  ghost function Story(): seq<State>
  {
    [ State(map[], Down, {}, SOURCE),
      State(map[], Loading(SOURCE, Exec([], true), None), {}, SOURCE),
      Started(false, At(Start, [], [], [], Check)),
      Started(false, At(Connecting, [], [], [], Check)),
      Started(false, At(WaitHave, [], [Query], [], Check)),
      Started(false, At(WaitHave, [], [Query], [], Recv)),
      Started(false, At(WaitHave, [], [], [], Replying(Have({})))),
      Started(false, At(WaitHave, [], [], [Have({})], Check)),
      Started(false, At(Ready(0, {}), [], [], [], Check)),
      Started(false, At(Opening(0, {}), [], [], [], Check)),
      Started(true, At(Ready(1, {}), [0], [], [], Check)),
      Started(true, At(Finished, [0], [], [], Check)) ]
  }

  lemma FirstSteps()
    ensures Begin(World(), Story()[0], Story()[1]) && GoLive(World(), Story()[1], Story()[2])
  {
    Fits();
    assert BeginLoading(World(), Story()[0], Story()[1], SOURCE, []);
    assert Flags(1, None) == [false];
    assert Story()[2].phase.conns == [NewConn(1, 1, 0)];
  }

  lemma OneStep(shutdown: bool, k: Conn, shutdown': bool, k': Conn)
    requires var v, v' := Started(shutdown, k), Started(shutdown', k');
             var a, b := View(v.disk, {}, v.phase.board, k), View(v'.disk, {}, v'.phase.board, k');
             WorkerStep(World(), SOURCE, a, b) || HandlerStep(World(), SOURCE, 0, a, b)
    ensures Next(World(), Started(shutdown, k), Started(shutdown', k'))
  {
    hide WorkerStep, HandlerStep;
    assert [k][0 := k'] == [k'];
    assert ConnStep(World(), Started(shutdown, k), Started(shutdown', k'), 0);
  }

  lemma StoryIsRun()
    ensures Run(World(), Story())
  {
    Fits();
    FirstSteps();
    var r := Story();
    assert Next(World(), r[0], r[1]) && Next(World(), r[1], r[2]);
    hide Next;
    forall t | 2 <= t < |r| - 1
      ensures Next(World(), r[t], r[t + 1])
    {
      if t < 7 { QuerySteps(t); } else { FailingSteps(t); }
    }
  }

  lemma QuerySteps(t: nat)
    requires 2 <= t < 7
    ensures Next(World(), Story()[t], Story()[t + 1])
  {
    hide Next;
    assert Messages.ReceivedSet([false]) == {};
    var a, b := Story()[t], Story()[t + 1];
    OneStep(a.phase.board.shutdown, a.phase.conns[0], b.phase.board.shutdown, b.phase.conns[0]);
  }

  lemma FailingSteps(t: nat)
    requires 7 <= t < 11
    ensures Next(World(), Story()[t], Story()[t + 1])
  {
    hide Next;
    Fits();
    var a, b := Story()[t], Story()[t + 1];
    OneStep(a.phase.board.shutdown, a.phase.conns[0], b.phase.board.shutdown, b.phase.conns[0]);
  }

  /** No output exists, no chunk arrived, nobody interrupted, and the exit code is 0. */
  lemma ExitZeroWithoutDelivery()
    ensures CollisionFree(World()) && Run(World(), Story())
    ensures forall t :: 0 <= t < |Story()| - 1 ==> !(Story()[t].phase.Live? && Interrupt(Story()[t], Story()[t + 1]))
    ensures var last := Story()[|Story()| - 1];
            ExitCode(last.phase) == Some(0) && OutFile !in last.disk && !AllReceived(last.phase.board.received)
  {
    Fits();
    StoryIsRun();
    assert !Story()[11].phase.board.received[0];
  }
}
