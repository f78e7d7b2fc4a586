/** Data ports: the permit pool, first-fit binding, the port-to-receiver registry. */
module Ports {
  import opened Wire

  const START: nat := 45000
  const END: nat := 46000
  const TOTAL: nat := 1001

  predicate InRange(port: nat)
  {
    START <= port <= END
  }

  // ----- First fit ------------------------------------------------------------------------------------

  /** The first `k` bindable ports from `port` on. */
  function FirstFit(bindable: set<nat>, port: nat, k: nat): (r: seq<nat>)
    ensures |r| <= k
    ensures forall j :: 0 <= j < |r| ==> r[j] in bindable && port <= r[j] <= END
    decreases END + 1 - port
  {
    if k == 0 || port > END then []
    else if port in bindable then [port] + FirstFit(bindable, port + 1, k - 1)
    else FirstFit(bindable, port + 1, k)
  }

  /** The bindable ports from `port` on. */
  function Candidates(bindable: set<nat>, port: nat): set<nat>
  {
    set p | p in bindable && port <= p <= END
  }

  ghost predicate AllBelow(s: seq<nat>, p: nat)
  {
    forall j :: 0 <= j < |s| ==> s[j] < p
  }

  /** The result is increasing, has min(k, available) ports, and no smaller bindable port was
      passed over. */
  lemma {:induction false} FirstFitIsFirst(bindable: set<nat>, port: nat, k: nat)
    ensures var r := FirstFit(bindable, port, k);
            && Increasing(r)
            && |r| == (if |Candidates(bindable, port)| < k then |Candidates(bindable, port)| else k)
            && forall p :: p in Candidates(bindable, port) && p !in r ==> |r| == k && AllBelow(r, p)
    decreases END + 1 - port
  {
    hide Increasing, AllBelow;
    var all := Candidates(bindable, port);
    var r := FirstFit(bindable, port, k);
    if port > END || k == 0 {
      assert port > END ==> all == {};
      Trivial();
    } else {
      var rest := Candidates(bindable, port + 1);
      if port in bindable {
        assert all == {port} + rest;
        FirstFitIsFirst(bindable, port + 1, k - 1);
        var r' := FirstFit(bindable, port + 1, k - 1);
        Prepend(port, r');
      } else {
        assert all == rest;
        FirstFitIsFirst(bindable, port + 1, k);
      }
    }
  }

  lemma Trivial()
    ensures Increasing([]) && forall p :: AllBelow([], p)
  {
  }

  lemma Prepend(port: nat, s: seq<nat>)
    requires Increasing(s) && forall j :: 0 <= j < |s| ==> port < s[j]
    ensures Increasing([port] + s)
    ensures forall p :: port < p && AllBelow(s, p) ==> AllBelow([port] + s, p)
  {
  }

  // ----- The ledger of all transfers -----------------------------------------------------------------

  /** A transfer has bound its ports, has its accept loops running, or is over. */
  datatype Stage = Bound | Serving | Over

  /** `held`: pairs of a transfer that is not over and a port it was given. `listening`: the bound
      listeners and the transfer that bound each. `registry`: the global map. `lost`: permits that
      are never given back. */
  datatype Ledger = Ledger(permits: nat, held: set<(nat, nat)>, listening: map<nat, nat>,
                           registry: map<nat, nat>, lost: nat, stage: map<nat, Stage>)

  const EMPTY_LEDGER := Ledger(TOTAL, {}, map[], map[], 0, map[])

  function Owned(ports: set<nat>, t: nat): map<nat, nat>
  {
    map p | p in ports :: t
  }

  function Pairs(ports: set<nat>, t: nat): set<(nat, nat)>
  {
    set p | p in ports :: (t, p)
  }

  function PortsOf(held: set<(nat, nat)>, t: nat): set<nat>
  {
    set x | x in held && x.0 == t :: x.1
  }

  predicate At(l: Ledger, t: nat, stage: Stage)
  {
    t in l.stage && l.stage[t] == stage
  }

  predicate Active(l: Ledger, t: nat)
  {
    At(l, t, Bound) || At(l, t, Serving)
  }

  /** A new transfer binds free ports and registers them. */
  ghost predicate Allocated(l: Ledger, l': Ledger, t: nat, ports: set<nat>)
  {
    && t !in l.stage && |ports| <= l.permits && ports !! l.listening.Keys
    && (forall p :: p in ports ==> InRange(p))
    && l' == Ledger(l.permits - |ports|, l.held + Pairs(ports, t), l.listening + Owned(ports, t),
                    l.registry + Owned(ports, t), l.lost, l.stage[t := Bound])
  }

  /** Permits were reserved but not enough ports could be bound: the sockets are closed again, the
      permits are not given back. */
  ghost predicate BindFailed(l: Ledger, l': Ledger, count: nat)
  {
    count <= l.permits && l' == l.(permits := l.permits - count, lost := l.lost + count)
  }

  /** The response could not be sent: listeners are closed, permits and registry entries stay. */
  ghost predicate ResponseFailed(l: Ledger, l': Ledger, t: nat)
  {
    var ports := PortsOf(l.held, t);
    && At(l, t, Bound)
    && l' == l.(held := l.held - Pairs(ports, t), listening := l.listening - ports,
                lost := l.lost + |ports|, stage := l.stage[t := Over])
  }

  /** The response was sent and the accept loops started. */
  ghost predicate Spawned(l: Ledger, l': Ledger, t: nat)
  {
    At(l, t, Bound) && l' == l.(stage := l.stage[t := Serving])
  }

  /** `accept` fails on a port: its loop ends and the listener is closed. The transfer, which may be
      over already, does not notice. */
  ghost predicate AcceptFailed(l: Ledger, l': Ledger, p: nat)
  {
    && p in l.listening && !At(l, l.listening[p], Bound)
    && l' == l.(listening := l.listening - {p})
  }

  /** `cleanup`: registry entries and permits are given back; the accept loops keep running. */
  ghost predicate CleanedUp(l: Ledger, l': Ledger, t: nat)
  {
    var ports := PortsOf(l.held, t);
    && At(l, t, Serving)
    && l' == l.(held := l.held - Pairs(ports, t), registry := l.registry - ports,
                permits := l.permits + |ports|, stage := l.stage[t := Over])
  }

  ghost predicate LedgerNext(l: Ledger, l': Ledger)
  {
    || (exists t, ports :: Allocated(l, l', t, ports))
    || (exists count :: BindFailed(l, l', count))
    || (exists t :: ResponseFailed(l, l', t))
    || (exists t :: Spawned(l, l', t))
    || (exists p :: AcceptFailed(l, l', p))
    || (exists t :: CleanedUp(l, l', t))
  }

  ghost predicate LedgerRun(run: seq<Ledger>)
  {
    && run != [] && run[0] == EMPTY_LEDGER
    && forall i :: 0 <= i < |run| - 1 ==> LedgerNext(run[i], run[i + 1])
  }

  /** The listener of a port belongs to a known transfer, which holds the port unless it is over. */
  ghost predicate ListenerOk(l: Ledger, p: nat)
  {
    p in l.listening ==>
      && InRange(p) && l.listening[p] in l.stage
      && (Active(l, l.listening[p]) ==> (l.listening[p], p) in l.held)
      && (p in l.registry ==> l.registry[p] == l.listening[p] && Active(l, l.listening[p]))
  }

  /** Only transfers that are not over hold ports, and until its loops run a transfer's listeners are
      its own. */
  ghost predicate HolderOk(l: Ledger, t: nat, p: nat)
  {
    (t, p) in l.held ==> Active(l, t) && (At(l, t, Bound) ==> p in l.listening && l.listening[p] == t)
  }

  ghost predicate LedgerInv(l: Ledger)
  {
    && l.permits + |l.held| + l.lost == TOTAL
    && (forall p :: ListenerOk(l, p))
    && (forall t, p :: HolderOk(l, t, p))
  }

  // ----- Counting ------------------------------------------------------------------------------------

  lemma {:induction false} PairCount(ports: set<nat>, t: nat)
    ensures |Pairs(ports, t)| == |ports|
  {
    if ports == {} {
      assert Pairs(ports, t) == {};
    } else {
      var p :| p in ports;
      PairCount(ports - {p}, t);
      assert Pairs(ports, t) == Pairs(ports - {p}, t) + {(t, p)};
    }
  }

  lemma AddedCount(held: set<(nat, nat)>, ports: set<nat>, t: nat)
    requires forall p :: (t, p) !in held
    ensures |held + Pairs(ports, t)| == |held| + |ports|
  {
    PairCount(ports, t);
    assert held !! Pairs(ports, t);
  }

  lemma ReleasedCount(held: set<(nat, nat)>, t: nat)
    ensures |held - Pairs(PortsOf(held, t), t)| == |held| - |PortsOf(held, t)|
    ensures forall u, p :: (u, p) in held - Pairs(PortsOf(held, t), t) <==> (u, p) in held && u != t
  {
    var mine := Pairs(PortsOf(held, t), t);
    PairCount(PortsOf(held, t), t);
    forall u, p
      ensures (u, p) in mine <==> (u, p) in held && u == t
    {
      assert (u, p) in held && u == t ==> p in PortsOf(held, t);
    }
    assert mine <= held;
    assert held == (held - mine) + mine;
  }

  lemma OwnedAdded(m: map<nat, nat>, ports: set<nat>, t: nat)
    ensures forall p :: p in m + Owned(ports, t) <==> p in m || p in ports
    ensures forall p :: p in m + Owned(ports, t) ==> (m + Owned(ports, t))[p] == if p in ports then t else m[p]
  {
  }

  // ----- Every step keeps the invariant ----------------------------------------------------------------

  lemma AllocatedKeeps(l: Ledger, l': Ledger, t: nat, ports: set<nat>)
    requires LedgerInv(l) && Allocated(l, l', t, ports)
    ensures LedgerInv(l')
  {
    hide Owned, Pairs, ListenerOk;
    forall p: nat
      ensures (t, p) !in l.held
    {
      assert HolderOk(l, t, p);
    }
    AddedCount(l.held, ports, t);
    forall p
      ensures ListenerOk(l', p)
    {
      assert ListenerOk(l, p);
      ListenerAfterAllocation(l, l', t, ports, p);
    }
    forall u, p
      ensures HolderOk(l', u, p)
    {
      assert HolderOk(l, u, p);
      HolderAfterAllocation(l, l', t, ports, u, p);
    }
  }

  lemma ListenerAfterAllocation(l: Ledger, l': Ledger, t: nat, ports: set<nat>, p: nat)
    requires Allocated(l, l', t, ports) && ListenerOk(l, p)
    ensures ListenerOk(l', p)
  {
    OwnedAdded(l.listening, ports, t);
    OwnedAdded(l.registry, ports, t);
    InPairs(ports, t, t, p);
    hide Owned, Pairs;
  }

  lemma HolderAfterAllocation(l: Ledger, l': Ledger, t: nat, ports: set<nat>, u: nat, p: nat)
    requires Allocated(l, l', t, ports) && HolderOk(l, u, p)
    ensures HolderOk(l', u, p)
  {
    OwnedAdded(l.listening, ports, t);
    InPairs(ports, t, u, p);
    hide Owned, Pairs;
  }

  lemma InPairs(ports: set<nat>, t: nat, u: nat, p: nat)
    ensures (u, p) in Pairs(ports, t) <==> u == t && p in ports
  {
  }

  /** Leaving a transfer's last stage takes all its pairs with it. */
  lemma EndedKeeps(l: Ledger, l': Ledger, t: nat)
    requires LedgerInv(l) && (ResponseFailed(l, l', t) || CleanedUp(l, l', t))
    ensures LedgerInv(l')
  {
    ReleasedCount(l.held, t);
    hide Pairs;
    forall p
      ensures ListenerOk(l', p)
    {
      assert ListenerOk(l, p);
      assert (t, p) in l.held ==> p in PortsOf(l.held, t);
    }
    forall u, p
      ensures HolderOk(l', u, p)
    {
      assert HolderOk(l, u, p);
      assert p in PortsOf(l.held, t) ==> HolderOk(l, t, p);
    }
  }

  lemma OtherKeeps(l: Ledger, l': Ledger, t: nat)
    requires LedgerInv(l) && (Spawned(l, l', t) || AcceptFailed(l, l', t))
    ensures LedgerInv(l')
  {
    forall p
      ensures ListenerOk(l', p)
    {
      assert ListenerOk(l, p);
    }
    forall u, p
      ensures HolderOk(l', u, p)
    {
      assert HolderOk(l, u, p);
    }
  }

  lemma BindFailedKeeps(l: Ledger, l': Ledger, count: nat)
    requires LedgerInv(l) && BindFailed(l, l', count)
    ensures LedgerInv(l')
  {
    forall p
      ensures ListenerOk(l', p)
    {
      assert ListenerOk(l, p);
    }
    forall u, p
      ensures HolderOk(l', u, p)
    {
      assert HolderOk(l, u, p);
    }
  }

  lemma NextKeeps(l: Ledger, l': Ledger)
    requires LedgerInv(l) && LedgerNext(l, l')
    ensures LedgerInv(l')
  {
    hide LedgerInv, Allocated, BindFailed, ResponseFailed, Spawned, AcceptFailed, CleanedUp;
    if t, ports :| Allocated(l, l', t, ports) {
      AllocatedKeeps(l, l', t, ports);
    } else if count :| BindFailed(l, l', count) {
      BindFailedKeeps(l, l', count);
    } else if t: nat :| ResponseFailed(l, l', t) || CleanedUp(l, l', t) {
      EndedKeeps(l, l', t);
    } else {
      var t :| Spawned(l, l', t) || AcceptFailed(l, l', t);
      OtherKeeps(l, l', t);
    }
  }

  lemma EmptyIsOk()
    ensures LedgerInv(EMPTY_LEDGER)
  {
  }

  /** Over all runs of any number of transfers: permits, held ports (counted per transfer) and lost
      permits add up to 1001; a listener's transfer holds its port unless it is over. */
  lemma {:induction false} LedgerHolds(run: seq<Ledger>, i: nat)
    requires LedgerRun(run) && i < |run|
    ensures LedgerInv(run[i])
    ensures run[i].permits + |run[i].held| + run[i].lost == TOTAL
  {
    hide LedgerInv, LedgerNext;
    if i == 0 {
      EmptyIsOk();
    } else {
      LedgerHolds(run, i - 1);
      assert LedgerNext(run[i - 1], run[i - 1 + 1]);
      NextKeeps(run[i - 1], run[i]);
    }
    Conserved(run[i]);
  }

  lemma Conserved(l: Ledger)
    requires LedgerInv(l)
    ensures l.permits + |l.held| + l.lost == TOTAL
  {
  }

  // ----- Routing -----------------------------------------------------------------------------------------

  /** Where a connection on `port` is sent. */
  function GetReceiver(l: Ledger, port: nat): Option<nat>
  {
    if port in l.registry then Some(l.registry[port]) else None
  }

  /** Transfer `t` bound port `p` in the step from `a`, and its listener was there ever since. */
  ghost predicate BoundSince(run: seq<Ledger>, a: nat, i: nat, p: nat, t: nat)
  {
    && a < i < |run|
    && (exists ports :: p in ports && Allocated(run[a], run[a + 1], t, ports))
    && forall j :: a < j <= i ==> p in run[j].listening && run[j].listening[p] == t
  }

  ghost predicate CleansPort(l: Ledger, l': Ledger, p: nat)
  {
    exists t: nat :: CleanedUp(l, l', t) && (t, p) in l.held
  }

  /** Between `a` and `i` a transfer that was given `p` has been cleaned up. */
  ghost predicate CleanedOver(run: seq<Ledger>, a: nat, i: nat, p: nat)
  {
    exists j :: a < j < i < |run| && CleansPort(run[j], run[j + 1], p)
  }

  /** What one step does to a port that is listening before and after. */
  lemma StepOnPort(l: Ledger, l': Ledger, p: nat)
    requires LedgerInv(l) && LedgerNext(l, l') && p in l.listening && p in l'.listening
    ensures l'.listening[p] == l.listening[p]
    ensures GetReceiver(l', p) == if CleansPort(l, l', p) then None else GetReceiver(l, p)
  {
    hide LedgerInv, Pairs;
    if CleansPort(l, l', p) {
      var t: nat :| CleanedUp(l, l', t) && (t, p) in l.held;
      assert p in PortsOf(l.held, t);
    } else if t, ports :| Allocated(l, l', t, ports) {
      OwnedAdded(l.listening, ports, t);
      OwnedAdded(l.registry, ports, t);
    } else if t: nat :| CleanedUp(l, l', t) {
      assert p in PortsOf(l.held, t) ==> (t, p) in l.held;
    }
  }

  /** A port becomes a listener only by being bound. */
  lemma NewListener(l: Ledger, l': Ledger, p: nat)
    requires LedgerNext(l, l') && p !in l.listening && p in l'.listening
    ensures exists ports :: p in ports && Allocated(l, l', l'.listening[p], ports)
    ensures GetReceiver(l', p) == Some(l'.listening[p])
  {
    hide Pairs;
    if t, ports :| Allocated(l, l', t, ports) {
      OwnedAdded(l.listening, ports, t);
      OwnedAdded(l.registry, ports, t);
      assert p in ports && l'.listening[p] == t;
    }
  }

  /** A connection on a port resolves to the transfer that bound the port last, which is then active,
      or to none: to none exactly if since then a transfer that was given this port has been
      cleaned up. That transfer need not be the same one. */
  lemma {:induction false} RoutingIsRight(run: seq<Ledger>, i: nat, p: nat)
    requires LedgerRun(run) && i < |run| && p in run[i].listening
    ensures exists a :: BoundSince(run, a, i, p, run[i].listening[p])
              && GetReceiver(run[i], p) == if CleanedOver(run, a, i, p) then None else Some(run[i].listening[p])
    ensures GetReceiver(run[i], p).Some? ==> Active(run[i], run[i].listening[p])
  {
    hide LedgerInv, LedgerNext, Allocated, CleansPort;
    LedgerHolds(run, i);
    ActiveReceiver(run[i], p);
    assert i > 0;
    LedgerHolds(run, i - 1);
    assert LedgerNext(run[i - 1], run[i - 1 + 1]);
    if p in run[i - 1].listening {
      RoutingIsRight(run, i - 1, p);
      var t := run[i - 1].listening[p];
      var a :| BoundSince(run, a, i - 1, p, t)
            && GetReceiver(run[i - 1], p) == if CleanedOver(run, a, i - 1, p) then None else Some(t);
      StepOnPort(run[i - 1], run[i], p);
      assert BoundSince(run, a, i, p, t);
      CleanedOverStep(run, a, i, p);
    } else {
      NewListener(run[i - 1], run[i], p);
      assert BoundSince(run, i - 1, i, p, run[i].listening[p]);
    }
  }

  lemma ActiveReceiver(l: Ledger, p: nat)
    requires LedgerInv(l) && p in l.listening
    ensures GetReceiver(l, p).Some? ==> Active(l, l.listening[p])
  {
    assert ListenerOk(l, p);
  }

  lemma CleanedOverStep(run: seq<Ledger>, a: nat, i: nat, p: nat)
    requires a < i - 1 && i < |run|
    ensures CleanedOver(run, a, i, p) <==> CleanedOver(run, a, i - 1, p) || CleansPort(run[i - 1], run[i], p)
  {
    hide CleansPort;
    if j :| a < j < i && CleansPort(run[j], run[j + 1], p) {
      assert j == i - 1 || CleanedOver(run, a, i - 1, p);
    }
    if CleansPort(run[i - 1], run[i], p) {
      assert CleansPort(run[i - 1], run[i - 1 + 1], p);
    }
  }

  // ----- What cleanup does not give back -----------------------------------------------------------------

  /** Ports whose accept loop outlived its transfer. */
  function Stuck(l: Ledger): set<nat>
  {
    set p | p in l.listening && At(l, l.listening[p], Over)
  }

  /** The transfer that listens on `p` is cleaned up. */
  ghost predicate Strands(l: Ledger, l': Ledger, p: nat)
  {
    p in l.listening && CleanedUp(l, l', l.listening[p])
  }

  /** One step: a stuck port becomes free only when its accept fails, and a port gets stuck only when
      the transfer that listens on it is cleaned up. */
  lemma StuckStep(l: Ledger, l': Ledger, p: nat)
    requires LedgerInv(l) && LedgerNext(l, l')
    ensures p in Stuck(l') <==> (p in Stuck(l) && !AcceptFailed(l, l', p)) || Strands(l, l', p)
  {
    hide Pairs, LedgerInv;
    if t, ports :| Allocated(l, l', t, ports) {
      OwnedAdded(l.listening, ports, t);
      KnownListener(l, p);
    } else if t: nat :| ResponseFailed(l, l', t) {
      BoundOwn(l, t, p);
    } else if t: nat :| CleanedUp(l, l', t) {
    } else if t: nat :| Spawned(l, l', t) {
    } else if q: nat :| AcceptFailed(l, l', q) {
    } else {
      assert l'.listening == l.listening && l'.stage == l.stage;
    }
  }

  lemma KnownListener(l: Ledger, p: nat)
    requires LedgerInv(l)
    ensures p in l.listening ==> l.listening[p] in l.stage
  {
    assert ListenerOk(l, p);
  }

  /** Until its loops run, exactly the ports a transfer was given listen for it. */
  lemma BoundOwn(l: Ledger, t: nat, p: nat)
    requires LedgerInv(l) && At(l, t, Bound)
    ensures p in PortsOf(l.held, t) <==> p in l.listening && l.listening[p] == t
  {
    assert ListenerOk(l, p);
    assert HolderOk(l, t, p);
  }

  /** Since the step from `i` the port has been stuck. */
  ghost predicate StrandedAt(run: seq<Ledger>, i: nat, j: nat, p: nat)
  {
    && i < j < |run| && Strands(run[i], run[i + 1], p)
    && forall m :: i < m < j ==> !AcceptFailed(run[m], run[m + 1], p)
  }

  /** In every run: a port is stuck exactly if the transfer listening on it was cleaned up and its
      accept has not failed since. Nothing else ever frees it. */
  lemma {:induction false} StuckIff(run: seq<Ledger>, j: nat, p: nat)
    requires LedgerRun(run) && j < |run|
    ensures p in Stuck(run[j]) <==> exists i: nat :: StrandedAt(run, i, j, p)
  {
    hide LedgerInv, LedgerNext, Stuck, Strands, AcceptFailed;
    if j == 0 {
      NothingStuck(p);
    } else {
      StuckIff(run, j - 1, p);
      LedgerHolds(run, j - 1);
      assert LedgerNext(run[j - 1], run[j - 1 + 1]);
      StuckStep(run[j - 1], run[j], p);
      StrandedStep(run, j - 1, j, p);
    }
  }

  lemma NothingStuck(p: nat)
    ensures p !in Stuck(EMPTY_LEDGER)
  {
  }

  lemma StrandedStep(run: seq<Ledger>, j: nat, j': nat, p: nat)
    requires j' == j + 1 < |run|
    ensures (exists i: nat :: StrandedAt(run, i, j', p)) <==>
              || ((exists i: nat :: StrandedAt(run, i, j, p)) && !AcceptFailed(run[j], run[j'], p))
              || Strands(run[j], run[j'], p)
  {
    hide Strands, AcceptFailed;
    if i: nat :| StrandedAt(run, i, j', p) {
      assert i < j ==> StrandedAt(run, i, j, p) && !AcceptFailed(run[j], run[j + 1], p);
    }
    if i: nat :| StrandedAt(run, i, j, p) {
      assert !AcceptFailed(run[j], run[j'], p) ==> StrandedAt(run, i, j', p);
    }
    if Strands(run[j], run[j'], p) {
      assert StrandedAt(run, j, j', p);
    }
  }

  // ----- Which ports can be bound --------------------------------------------------------------------------

  /** The numbers from `lo` up to `hi`. */
  function Range(lo: nat, hi: nat): (r: set<nat>)
    ensures forall p: nat :: p in r <==> lo <= p < hi
    ensures |r| == if lo <= hi then hi - lo else 0
  {
    if lo >= hi then {} else Range(lo, hi - 1) + {hi - 1}
  }

  /** The ports of the range that no listener of this server and no other program has bound. */
  function Free(l: Ledger, foreign: set<nat>): set<nat>
  {
    Range(START, END + 1) - l.listening.Keys - foreign
  }

  /** The ports of the range that only other programs have bound. */
  function Others(l: Ledger, foreign: set<nat>): set<nat>
  {
    foreign * Range(START, END + 1) - l.listening.Keys
  }

  /** The listeners of transfers that are not over. */
  function Live(l: Ledger): set<nat>
  {
    l.listening.Keys - Stuck(l)
  }

  /** The whole range is free, taken by others, listening for a transfer, or stuck. */
  lemma RangeIsSplit(l: Ledger, foreign: set<nat>)
    requires LedgerInv(l)
    ensures |Free(l, foreign)| + |Others(l, foreign)| + |Live(l)| + |Stuck(l)| == TOTAL
  {
    ListenersInRange(l);
    hide LedgerInv;
    SplitCount(Range(START, END + 1), l.listening.Keys, Stuck(l), foreign);
  }

  lemma SplitCount(all: set<nat>, listening: set<nat>, stuck: set<nat>, foreign: set<nat>)
    requires stuck <= listening <= all
    ensures |all - listening - foreign| + |foreign * all - listening| + |listening - stuck| + |stuck| == |all|
  {
    var free, others, rest := all - listening - foreign, foreign * all - listening, listening - stuck;
    assert all == (free + others) + listening && (free + others) !! listening;
    assert |all| == |free + others| + |listening|;
    assert |free + others| == |free| + |others|;
    assert listening == rest + stuck && |rest + stuck| == |rest| + |stuck|;
  }

  lemma ListenersInRange(l: Ledger)
    requires LedgerInv(l)
    ensures l.listening.Keys <= Range(START, END + 1)
  {
    forall p | p in l.listening
      ensures p in Range(START, END + 1)
    {
      assert ListenerOk(l, p);
    }
  }

  /** Listeners of active transfers are held ports; they are all of them iff no accept has failed on a
      port that is still held. */
  lemma LiveCount(l: Ledger)
    requires LedgerInv(l)
    ensures |Live(l)| <= |l.held|
    ensures |Live(l)| == |l.held| <==> forall t, p :: (t, p) in l.held ==> p in l.listening && l.listening[p] == t
  {
    var pairs := Tagged(Live(l), l.listening);
    TagCount(Live(l), l.listening);
    forall p | p in Live(l)
      ensures (l.listening[p], p) in l.held
    {
      LiveIsHeld(l, p);
    }
    forall t, p | (t, p) in l.held
      ensures (t, p) in pairs <==> p in l.listening && l.listening[p] == t
    {
      if p in l.listening && l.listening[p] == t {
        HeldIsLive(l, t, p);
      }
    }
    hide LedgerInv, Live;
    SubsetCount(pairs, l.held);
    if |pairs| != |l.held| {
      var x :| x in l.held && x !in pairs;
      assert (x.0, x.1) in l.held;
    }
  }

  lemma LiveIsHeld(l: Ledger, p: nat)
    requires LedgerInv(l) && p in Live(l)
    ensures (l.listening[p], p) in l.held
  {
    assert ListenerOk(l, p);
  }

  lemma HeldIsLive(l: Ledger, t: nat, p: nat)
    requires LedgerInv(l) && (t, p) in l.held && p in l.listening && l.listening[p] == t
    ensures p in Live(l)
  {
    assert HolderOk(l, t, p);
  }

  function Tagged(s: set<nat>, owner: map<nat, nat>): set<(nat, nat)>
    requires s <= owner.Keys
  {
    set p | p in s :: (owner[p], p)
  }

  lemma {:induction false} TagCount(s: set<nat>, owner: map<nat, nat>)
    requires s <= owner.Keys
    ensures |Tagged(s, owner)| == |s|
  {
    if s == {} {
      assert Tagged(s, owner) == {};
    } else {
      var p :| p in s;
      TagCount(s - {p}, owner);
      assert Tagged(s, owner) == Tagged(s - {p}, owner) + {(owner[p], p)};
    }
  }

  lemma SubsetCount<T>(a: set<T>, b: set<T>)
    requires a <= b
    ensures |a| <= |b| && (|a| == |b| <==> a == b)
  {
    assert b == a + (b - a);
    assert |b| == |a| + |b - a|;
    if |b - a| == 0 {
      assert b - a == {};
    }
  }

  // ----- Exhaustion ------------------------------------------------------------------------------------------

  ghost predicate Reachable(l: Ledger)
  {
    exists run :: LedgerRun(run) && run[|run| - 1] == l
  }

  /** All permits are there, no transfer is active, and no port can be bound. */
  ghost predicate Exhausted(l: Ledger)
  {
    && l.permits == TOTAL && l.held == {} && l.lost == 0 && |Stuck(l)| == TOTAL && Free(l, {}) == {}
    && forall k: nat :: k > 0 ==> !Enough(l, {}, k)
  }

  /** An active transfer listens on the port, and connections on it lead nowhere. */
  ghost predicate CutOff(l: Ledger, p: nat)
  {
    p in l.listening && Active(l, l.listening[p]) && GetReceiver(l, p).None?
  }

  function Listeners(n: nat): (m: map<nat, nat>)
    ensures forall p: nat :: p in m <==> START <= p < START + n
    ensures forall p: nat :: p in m ==> m[p] == p - START
  {
    if n == 0 then map[] else Listeners(n - 1)[START + n - 1 := n - 1]
  }

  function AllOver(n: nat): (m: map<nat, Stage>)
    ensures forall t: nat :: t in m <==> t < n
    ensures forall t: nat :: t in m ==> m[t] == Over
  {
    if n == 0 then map[] else AllOver(n - 1)[n - 1 := Over]
  }

  /** After `n` transfers with one port each, one after the other, all of them over. */
  function AfterMany(n: nat): Ledger
  {
    Ledger(TOTAL, {}, Listeners(n), map[], 0, AllOver(n))
  }

  /** One more transfer comes and goes; its port stays bound. */
  lemma OneMore(run: seq<Ledger>, n: nat) returns (longer: seq<Ledger>)
    requires LedgerRun(run) && run[|run| - 1] == AfterMany(n) && n < TOTAL
    ensures LedgerRun(longer) && longer[|longer| - 1] == AfterMany(n + 1)
  {
    var a, b := ThreeSteps(n);
    longer := Extended(run, a);
    longer := Extended(longer, b);
    longer := Extended(longer, AfterMany(n + 1));
  }

  lemma Extended(run: seq<Ledger>, l: Ledger) returns (longer: seq<Ledger>)
    requires LedgerRun(run) && LedgerNext(run[|run| - 1], l)
    ensures LedgerRun(longer) && longer[|longer| - 1] == l
  {
    hide LedgerNext;
    longer := run + [l];
    forall i | 0 <= i < |longer| - 1
      ensures LedgerNext(longer[i], longer[i + 1])
    {
      if i < |run| - 1 {
        assert LedgerNext(run[i], run[i + 1]);
      }
    }
  }

  lemma ThreeSteps(n: nat) returns (a: Ledger, b: Ledger)
    requires n < TOTAL
    ensures LedgerNext(AfterMany(n), a) && LedgerNext(a, b) && LedgerNext(b, AfterMany(n + 1))
  {
    var l, p := AfterMany(n), START + n;
    a := Ledger(TOTAL - 1, {(n, p)}, l.listening[p := n], map[p := n], 0, l.stage[n := Bound]);
    b := a.(stage := l.stage[n := Serving]);
    assert Spawned(a, b, n);
    hide Allocated, Spawned, CleanedUp, Listeners, AllOver, LedgerNext;
    BindOne(l, a, n, p);
    CleanOne(l, b, AfterMany(n + 1), n, p);
    StepIs(l, a, b, AfterMany(n + 1), n, p);
  }

  lemma StepIs(l: Ledger, a: Ledger, b: Ledger, c: Ledger, n: nat, p: nat)
    requires Allocated(l, a, n, {p}) && Spawned(a, b, n) && CleanedUp(b, c, n)
    ensures LedgerNext(l, a) && LedgerNext(a, b) && LedgerNext(b, c)
  {
    hide Allocated, Spawned, CleanedUp, BindFailed, ResponseFailed, AcceptFailed;
  }

  lemma CleanOne(l: Ledger, b: Ledger, c: Ledger, n: nat, p: nat)
    requires l == AfterMany(n) && c == AfterMany(n + 1) && p == START + n && n < TOTAL
    requires b == Ledger(TOTAL - 1, {(n, p)}, l.listening[p := n], map[p := n], 0, l.stage[n := Serving])
    ensures CleanedUp(b, c, n)
  {
    assert PortsOf(b.held, n) == {p} && Pairs({p}, n) == {(n, p)};
    assert |{p}| == 1;
    assert b.stage[n := Over] == AllOver(n)[n := Over];
    assert b.registry - {p} == map[];
  }

  lemma BindOne(l: Ledger, a: Ledger, n: nat, p: nat)
    requires l == AfterMany(n) && p == START + n && n < TOTAL
    requires a == Ledger(TOTAL - 1, {(n, p)}, l.listening[p := n], map[p := n], 0, l.stage[n := Bound])
    ensures Allocated(l, a, n, {p})
  {
    assert Owned({p}, n) == map[p := n] && Pairs({p}, n) == {(n, p)};
    assert |{p}| == 1;
  }

  lemma {:induction false} ManyTransfers(n: nat) returns (run: seq<Ledger>)
    requires n <= TOTAL
    ensures LedgerRun(run) && run[|run| - 1] == AfterMany(n)
  {
    if n == 0 {
      run := [EMPTY_LEDGER];
      assert AfterMany(0) == EMPTY_LEDGER;
    } else {
      var shorter := ManyTransfers(n - 1);
      run := OneMore(shorter, n - 1);
    }
  }

  /** The documentation promises that `cleanup` releases the ports. It does not: after 1001 transfers,
      all of them over, every permit is back, nothing is held or lost, and no port can be bound. */
  lemma PortsRunOut()
    ensures exists l :: Reachable(l) && Exhausted(l)
  {
    var run := ManyTransfers(TOTAL);
    var l := run[|run| - 1];
    AllStuck(l);
    hide AfterMany, LedgerRun, Exhausted;
    assert Reachable(l);
  }

  lemma AllStuck(l: Ledger)
    requires l == AfterMany(TOTAL)
    ensures Exhausted(l)
  {
    hide Listeners, AllOver, Range, Live, Others;
    var all := Range(START, END + 1);
    assert l.listening.Keys == all;
    StuckAre(l, all);
    NothingFree(l, all);
    assert forall k: nat :: k > 0 ==> !Enough(l, {}, k);
  }

  lemma StuckAre(l: Ledger, all: set<nat>)
    requires l.listening.Keys == all && forall p :: p in all ==> At(l, l.listening[p], Over)
    ensures Stuck(l) == all
  {
  }

  lemma NothingFree(l: Ledger, all: set<nat>)
    requires l.listening.Keys == all == Range(START, END + 1)
    ensures Free(l, {}) == {}
  {
    hide Range;
  }

  /** A port whose accept failed can be bound a second time while its first transfer is active. When
      that one is cleaned up, the second transfer is cut off: it is active and its listener is
      there, but its connections resolve to none. */
  lemma CleanupCutsOff()
    ensures exists l :: Reachable(l) && CutOff(l, START)
  {
    var p := START;
    var l1 := Ledger(TOTAL - 1, {(0, p)}, map[p := 0], map[p := 0], 0, map[0 := Bound]);
    var l2 := l1.(stage := map[0 := Serving]);
    var l3 := l2.(listening := map[]);
    var l4 := Ledger(TOTAL - 2, {(0, p), (1, p)}, map[p := 1], map[p := 1], 0, map[0 := Serving, 1 := Bound]);
    var l5 := l4.(held := {(1, p)}, registry := map[], permits := TOTAL - 1, stage := map[0 := Over, 1 := Bound]);
    assert CutOff(l5, p);
    FirstBinding(l1, l2, l3, p);
    SecondBinding(l3, l4, l5, p);
    hide LedgerNext, CutOff;
    var run := Extended([EMPTY_LEDGER], l1);
    run := Extended(run, l2);
    run := Extended(run, l3);
    run := Extended(run, l4);
    run := Extended(run, l5);
    assert Reachable(l5);
  }

  lemma FirstBinding(l1: Ledger, l2: Ledger, l3: Ledger, p: nat)
    requires p == START && l1 == Ledger(TOTAL - 1, {(0, p)}, map[p := 0], map[p := 0], 0, map[0 := Bound])
    requires l2 == l1.(stage := map[0 := Serving]) && l3 == l2.(listening := map[])
    ensures LedgerNext(EMPTY_LEDGER, l1) && LedgerNext(l1, l2) && LedgerNext(l2, l3)
  {
    BindOne(EMPTY_LEDGER, l1, 0, p);
    assert l1.stage[0 := Serving] == map[0 := Serving];
    assert Spawned(l1, l2, 0);
    assert l2.listening - {p} == map[];
    assert AcceptFailed(l2, l3, p);
    hide Allocated, Spawned, CleanedUp, BindFailed, ResponseFailed, AcceptFailed;
  }

  lemma SecondBinding(l3: Ledger, l4: Ledger, l5: Ledger, p: nat)
    requires p == START
    requires l3 == Ledger(TOTAL - 1, {(0, p)}, map[], map[p := 0], 0, map[0 := Serving])
    requires l4 == Ledger(TOTAL - 2, {(0, p), (1, p)}, map[p := 1], map[p := 1], 0, map[0 := Serving, 1 := Bound])
    requires l5 == l4.(held := {(1, p)}, registry := map[], permits := TOTAL - 1, stage := map[0 := Over, 1 := Bound])
    ensures LedgerNext(l3, l4) && LedgerNext(l4, l5)
  {
    assert Owned({p}, 1) == map[p := 1] && Pairs({p}, 1) == {(1, p)} && Pairs({p}, 0) == {(0, p)};
    assert PortsOf(l4.held, 0) == {p};
    assert |{p}| == 1;
    assert l4.stage[0 := Over] == l5.stage && l4.registry - {p} == map[] && l4.held - {(0, p)} == {(1, p)};
    assert Allocated(l3, l4, 1, {p});
    assert CleanedUp(l4, l5, 0);
    hide Allocated, Spawned, CleanedUp, BindFailed, ResponseFailed, AcceptFailed;
  }

  function PortSet(ports: seq<nat>): set<nat>
  {
    set p | p in ports
  }

  /** One port tried by the allocation loop. */
  lemma FitStep(bindable: set<nat>, port: nat, k: nat, sockets: seq<nat>)
    requires port <= END && k > 0
    ensures sockets + FirstFit(bindable, port, k) ==
              if port in bindable then sockets + [port] + FirstFit(bindable, port + 1, k - 1)
              else sockets + FirstFit(bindable, port + 1, k)
  {
  }

  lemma FitNothing(bindable: set<nat>, port: nat)
    ensures FirstFit(bindable, port, 0) == []
  {
  }

  lemma NoMorePorts(bindable: set<nat>, k: nat)
    ensures FirstFit(bindable, END + 1, k) == [] && FirstFit(bindable, END + 1, 0) == []
  {
  }

  /** `k` is the smaller of the two numbers. */
  predicate IsSmaller(k: nat, a: nat, b: nat)
  {
    k <= a && k <= b && (k == a || k == b)
  }

  /** Enough ports of the range are left for `k` more. */
  ghost predicate Enough(l: Ledger, foreign: set<nat>, k: nat)
  {
    k + |Live(l)| + |Stuck(l)| + |Others(l, foreign)| <= TOTAL
  }

  /** What an allocation of `k` ports comes to. */
  ghost predicate Allocation(l: Ledger, l': Ledger, k: nat, foreign: set<nat>, r: Result<seq<nat>>)
  {
    && (r.Ok? <==> k <= l.permits && Enough(l, foreign, k))
    && match r
       case Ok(ports) =>
         && |ports| == k && ports == FirstFit(Free(l, foreign), START, k)
         && l' == l.(permits := l.permits - k)
       case Err => if k <= l.permits then BindFailed(l, l', k) else l' == l
  }

  lemma AllocationIs(l: Ledger, l': Ledger, k: nat, foreign: set<nat>, fit: seq<nat>, r: Result<seq<nat>>)
    requires LedgerInv(l) && fit == FirstFit(Free(l, foreign), START, k)
    requires if k > l.permits then r.Err? && l' == l
             else if |fit| == k then r == Ok(fit) && l' == l.(permits := l.permits - k)
             else r.Err? && l' == l.(permits := l.permits - k, lost := l.lost + k)
    ensures Allocation(l, l', k, foreign, r)
  {
    EnoughPorts(l, foreign, k);
    hide LedgerInv, FirstFit, Free, Enough;
  }

  // ----- The server's global state -----------------------------------------------------------------------

  class PortServer {
    var permits: nat
    var registry: map<nat, nat>
    ghost var held: set<(nat, nat)>
    ghost var listening: map<nat, nat>
    ghost var lost: nat
    ghost var stage: map<nat, Stage>

    ghost function View(): Ledger
      reads this
    {
      Ledger(permits, held, listening, registry, lost, stage)
    }

    constructor ()
      ensures View() == EMPTY_LEDGER
    {
      permits, registry := TOTAL, map[];
      held, listening, lost, stage := {}, map[], 0, map[];
    }

    method TryReserve(count: nat) returns (ok: bool)
      modifies `permits
      ensures ok <==> count <= old(permits)
      ensures permits == if ok then old(permits) - count else old(permits)
    {
      if count > permits {
        return false;
      }
      permits := permits - count;
      return true;
    }

    method Release(count: nat)
      modifies `permits
      ensures permits == old(permits) + count
    {
      permits := permits + count;
    }

    /** Reserves permits, then binds the first min(count, maxParallel) ports that neither a listener of
        this server nor another program has bound. It succeeds iff that many permits and that many
        such ports are left; without enough ports the permits stay reserved. */
    method AllocateSockets(count: nat, maxParallel: nat, bindable: set<nat>, ghost foreign: set<nat>)
      returns (r: Result<seq<nat>>)
      requires LedgerInv(View()) && bindable == Free(View(), foreign)
      modifies `permits, `lost
      ensures exists k :: IsSmaller(k, count, maxParallel) && Allocation(old(View()), View(), k, foreign, r)
      ensures r.Ok? ==> IsSmaller(|r.value|, count, maxParallel) && permits == old(permits) - |r.value|
      ensures r.Err? ==> permits == old(permits) || IsSmaller(old(permits) - permits, count, maxParallel)
    {
      hide LedgerInv, Free, FirstFit, Allocation;
      var k := if count < maxParallel then count else maxParallel;
      ghost var l := View();
      ghost var fit := FirstFit(bindable, START, k);
      var reserved := TryReserve(k);
      if !reserved {
        AllocationIs(l, View(), k, foreign, fit, Err);
        assert IsSmaller(k, count, maxParallel);
        return Err;
      }
      ghost var tried;
      r, tried := BindAll(k, bindable);
      if r.Err? {
        lost := lost + k;
      }
      AllocationIs(l, View(), k, foreign, fit, r);
      assert IsSmaller(k, count, maxParallel);
    }

    /** The nested loops over one shared port counter: ports are tried in order, each at most once. */
    static method BindAll(k: nat, bindable: set<nat>) returns (r: Result<seq<nat>>, ghost tried: seq<nat>)
      ensures |tried| <= TOTAL && forall j :: 0 <= j < |tried| ==> tried[j] == START + j
      ensures r.Ok? <==> |FirstFit(bindable, START, k)| == k
      ensures r.Ok? ==> r.value == FirstFit(bindable, START, k)
    {
      hide FirstFit;
      var sockets: seq<nat> := [];
      var port: nat := START;
      tried := [];
      for n := 0 to k
        invariant port <= END + 1 && |sockets| <= n
        invariant |tried| == port - START && forall j :: 0 <= j < |tried| ==> tried[j] == START + j
        invariant |sockets| < n ==> port == END + 1
        invariant sockets + FirstFit(bindable, port, k - |sockets|) == FirstFit(bindable, START, k)
      {
        ghost var size := |sockets|;
        while port <= END
          invariant port <= END + 1 && |sockets| == size
          invariant |tried| == port - START && forall j :: 0 <= j < |tried| ==> tried[j] == START + j
          invariant sockets + FirstFit(bindable, port, k - |sockets|) == FirstFit(bindable, START, k)
          decreases END + 1 - port
        {
          FitStep(bindable, port, k - |sockets|, sockets);
          tried := tried + [port];
          if port in bindable {
            sockets := sockets + [port];
            port := port + 1;
            break;
          } else {
            port := port + 1;
          }
        }
      }
      NoMorePorts(bindable, k - |sockets|);
      FitNothing(bindable, port);
      assert sockets + [] == sockets;
      if |sockets| < k {
        return Err, tried;
      }
      return Ok(sockets), tried;
    }

    /** `register_receivers` for the ports just bound; the state moves by one ledger step. */
    method Register(ports: seq<nat>, t: nat, ghost before: Ledger)
      requires before == View().(permits := permits + |ports|)
      requires Increasing(ports) && t !in stage
      requires forall j :: 0 <= j < |ports| ==> InRange(ports[j]) && ports[j] !in listening
      modifies this
      ensures Allocated(before, View(), t, PortSet(ports))
    {
      hide Increasing;
      for i := 0 to |ports|
        invariant registry == old(registry) + Owned(PortSet(ports[..i]), t)
        modifies `registry
      {
        assert ports[..i + 1] == ports[..i] + [ports[i]];
        OwnOneMore(old(registry), ports[..i], ports[i], t);
        registry := registry[ports[i] := t];
      }
      assert ports[..|ports|] == ports;
      RisingCount(ports);
      held := held + Pairs(PortSet(ports), t);
      listening := listening + Owned(PortSet(ports), t);
      stage := stage[t := Bound];
    }

    /** The response was sent: one accept loop per port is started. */
    ghost method Spawn(t: nat)
      requires At(View(), t, Bound)
      modifies `stage
      ensures Spawned(old(View()), View(), t)
    {
      stage := stage[t := Serving];
    }

    /** Removes the registry entries of the ports, then gives their permits back. */
    method Cleanup(ports: seq<nat>, ghost t: nat)
      requires Increasing(ports) && PortsOf(held, t) == PortSet(ports) && At(View(), t, Serving)
      modifies this
      ensures CleanedUp(old(View()), View(), t)
    {
      for i := 0 to |ports|
        invariant registry == old(registry) - PortSet(ports[..i])
        modifies `registry
      {
        assert ports[..i + 1] == ports[..i] + [ports[i]];
        registry := registry - {ports[i]};
      }
      assert ports[..|ports|] == ports;
      RisingCount(ports);
      held := held - Pairs(PortSet(ports), t);
      stage := stage[t := Over];
      if |ports| > 0 {
        Release(|ports|);
      }
    }
  }

  /** The first fit has as many ports as wanted iff that many of the range are left. */
  lemma EnoughPorts(l: Ledger, foreign: set<nat>, k: nat)
    requires LedgerInv(l)
    ensures |FirstFit(Free(l, foreign), START, k)| == k <==> Enough(l, foreign, k)
  {
    RangeIsSplit(l, foreign);
    FirstFitIsFirst(Free(l, foreign), START, k);
    assert Candidates(Free(l, foreign), START) == Free(l, foreign);
  }

  lemma OwnOneMore(m: map<nat, nat>, ports: seq<nat>, p: nat, t: nat)
    ensures m + Owned(PortSet(ports + [p]), t) == (m + Owned(PortSet(ports), t))[p := t]
  {
    assert PortSet(ports + [p]) == PortSet(ports) + {p};
  }

  lemma {:induction false} RisingCount(s: seq<nat>)
    requires Increasing(s)
    ensures |PortSet(s)| == |s|
  {
    if s != [] {
      var front, last := s[..|s| - 1], s[|s| - 1];
      RisingCount(front);
      assert s == front + [last];
      assert PortSet(s) == PortSet(front) + {last};
      assert last !in front;
    }
  }
}
