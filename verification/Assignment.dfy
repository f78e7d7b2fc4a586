/** Round-robin distribution of the chunks over the workers, and of the workers over the ports. */
module Assignment {
  import opened Wire
  import opened Chunks

  /** The chunks of worker `c` of `w`, in the order in which they are pushed to its list. */
  function Assigned(n: nat, w: nat, c: nat): (r: seq<nat>)
    requires w > 0
    ensures forall i: nat :: i in r <==> i < n && i % w == c
    ensures forall j :: 0 <= j < |r| ==> r[j] < n && r[j] % w == c
  {
    if n == 0 then []
    else if (n - 1) % w == c then Assigned(n - 1, w, c) + [n - 1]
    else Assigned(n - 1, w, c)
  }

  lemma RisingAppend(s: seq<nat>, x: nat)
    requires Increasing(s) && forall j :: 0 <= j < |s| ==> s[j] < x
    ensures Increasing(s + [x])
  {
  }

  lemma {:induction false} AssignedRising(n: nat, w: nat, c: nat)
    requires w > 0
    ensures Increasing(Assigned(n, w, c))
  {
    hide Increasing;
    if n == 0 {
      NothingRising();
    } else {
      AssignedRising(n - 1, w, c);
      if (n - 1) % w == c {
        RisingAppend(Assigned(n - 1, w, c), n - 1);
      }
    }
  }

  lemma NothingRising()
    ensures Increasing([])
  {
  }

  /** List lengths: ceil((n - c) / w), so any two differ by at most one. */
  lemma {:induction false} AssignedLength(n: nat, w: nat, c: nat)
    requires c < w
    ensures |Assigned(n, w, c)| == if n <= c then 0 else CeilDiv(n - c, w)
  {
    if n == 0 {
    } else {
      AssignedLength(n - 1, w, c);
      var m := n - 1;
      if n <= c {
        ModSmall(m, w);
      } else {
        RoundComplete(m, w, c);
      }
    }
  }

  lemma ModSmall(m: nat, w: nat)
    requires m < w
    ensures m % w == m
  {
  }

  /** Chunk `m` goes to worker `c` exactly when it opens a new round for that worker. */
  lemma RoundComplete(m: nat, w: nat, c: nat)
    requires c < w && c <= m
    ensures CeilDiv(m + 1 - c, w) == (if m <= c then 0 else CeilDiv(m - c, w)) + (if m % w == c then 1 else 0)
  {
    hide CeilDiv;
    var q, r := m / w, m % w;
    assert m == q * w + r;
    if r >= c {
      HighRemainder(m, w, c, q, r);
    } else {
      LowRemainder(m, w, c, q, r);
    }
  }

  lemma HighRemainder(m: nat, w: nat, c: nat, q: nat, r: nat)
    requires w > 0 && c <= r < w && m == q * w + r
    ensures CeilDiv(m - c, w) == (if r == c then q else q + 1) && CeilDiv(m + 1 - c, w) == q + 1
    ensures m <= c ==> m == c && q == 0 && r == c
  {
    hide CeilDiv;
    assert (q + 1) * w == q * w + w;
    CeilUnique(m - c, w, if r == c then q else q + 1);
    CeilUnique(m + 1 - c, w, q + 1);
    if q > 0 {
      MulMono(1, q, w);
    }
  }

  lemma LowRemainder(m: nat, w: nat, c: nat, q: nat, r: nat)
    requires w > 0 && r < c < w && c <= m && m == q * w + r
    ensures m > c && CeilDiv(m - c, w) == q && CeilDiv(m + 1 - c, w) == q
  {
    assert (q - 1) * w == q * w - w;
    CeilUnique(m - c, w, q);
    CeilUnique(m + 1 - c, w, q);
  }

  /** The lists are an exact partition of the chunks into increasing, balanced lists. */
  lemma AssignedPartition(n: nat, w: nat, i: nat, c: nat, d: nat)
    requires c < w && d < w && i < n
    ensures i in Assigned(n, w, i % w) && i % w < w
    ensures i in Assigned(n, w, c) && i in Assigned(n, w, d) ==> c == d
    ensures -1 <= |Assigned(n, w, c)| - |Assigned(n, w, d)| <= 1
    ensures c < d ==> |Assigned(n, w, c)| >= |Assigned(n, w, d)|
    ensures w <= n ==> |Assigned(n, w, c)| > 0
  {
    AssignedLength(n, w, c);
    AssignedLength(n, w, d);
    Balanced(n, w, c, d);
    if w <= n {
      ModSmall(c, w);
      assert c in Assigned(n, w, c);
    }
  }

  lemma Balanced(n: nat, w: nat, c: nat, d: nat)
    requires c < w && d < w
    ensures var a := if n <= c then 0 else CeilDiv(n - c, w);
            var b := if n <= d then 0 else CeilDiv(n - d, w);
            -1 <= a - b <= 1 && (c < d ==> a >= b)
  {
    var a := if n <= c then 0 else CeilDiv(n - c, w);
    var b := if n <= d then 0 else CeilDiv(n - d, w);
    OneMore(n, w, c, d, b);
    OneMore(n, w, d, c, a);
    if n > c { CeilBounds(n - c, w); }
    if n > d { CeilAtMost(n - d, w, a); }
  }

  /** If `b` rounds serve worker `d`, one more serves any other worker. */
  lemma OneMore(n: nat, w: nat, c: nat, d: nat, b: nat)
    requires c < w && d < w && b == (if n <= d then 0 else CeilDiv(n - d, w))
    ensures (if n <= c then 0 else CeilDiv(n - c, w)) <= b + 1
  {
    if n > c {
      assert (b + 1) * w == b * w + w;
      if n > d { CeilBounds(n - d, w); }
      CeilAtMost(n - c, w, b + 1);
    }
  }

  /** The number of workers and their lists; no worker without a port, at least one list always. */
  method SetupWorkers(parallel: nat, numChunks: nat, ports: nat) returns (lists: seq<seq<nat>>)
    ensures var w := Min(parallel, ports);
            if w == 0 then lists == [[]]
            else |lists| == w && forall c :: 0 <= c < w ==> lists[c] == Assigned(numChunks, w, c)
  {
    var w := if ports == 0 then 0 else Min(parallel, ports);
    lists := seq(if w > 1 then w else 1, _ => []);
    if w > 0 {
      for i := 0 to numChunks
        invariant |lists| == w
        invariant forall c :: 0 <= c < w ==> lists[c] == Assigned(i, w, c)
      {
        var c := i % w;
        lists := lists[c := lists[c] + [i]];
      }
    }
  }

  ghost predicate Given(n: nat, w: nat, i: nat)
  {
    w > 0 && exists c :: 0 <= c < w && i in Assigned(n, w, c)
  }

  /** Every chunk is given to some worker iff there is a worker at all: with `--parallel 0` the
      client spawns nobody and no list fails, although no chunk is sent. */
  lemma EveryChunkGiven(parallel: nat, n: nat, ports: nat)
    requires n > 0 && ports > 0
    ensures (forall i: nat :: i < n ==> Given(n, Min(parallel, ports), i)) <==> parallel > 0
  {
    var w := Min(parallel, ports);
    if parallel > 0 {
      forall i: nat | i < n
        ensures Given(n, w, i)
      {
        assert i in Assigned(n, w, i % w);
      }
    } else {
      assert !Given(n, w, 0);
    }
  }

  // ----- Which worker gets which port ------------------------------------------------------------------

  datatype Job = Job(port: nat, indices: seq<nat>)

  /** What is spawned for workers 0 to w-1: those without a chunk are left out. */
  function Spawned(lists: seq<seq<nat>>, ports: seq<nat>, w: nat): seq<Job>
    requires w <= |lists| && ports != []
  {
    if w == 0 then []
    else Spawned(lists, ports, w - 1) + if lists[w - 1] == [] then [] else [Job(ports[(w - 1) % |ports|], lists[w - 1])]
  }

  method SpawnWorkers(lists: seq<seq<nat>>, ports: seq<nat>) returns (jobs: seq<Job>)
    requires ports != []
    ensures jobs == Spawned(lists, ports, |lists|)
  {
    jobs := [];
    for w := 0 to |lists|
      invariant jobs == Spawned(lists, ports, w)
    {
      if lists[w] != [] {
        jobs := jobs + [Job(ports[w % |ports|], lists[w])];
      }
    }
  }

  ghost predicate DistinctPorts(jobs: seq<Job>)
  {
    forall i, j :: 0 <= i < j < |jobs| ==> jobs[i].port != jobs[j].port
  }

  /** With at most one worker per port, no two workers connect to the same port, so each chunk has
      one connection to itself; and no list with chunks in it is forgotten. */
  lemma {:induction false} OnePortEach(lists: seq<seq<nat>>, ports: seq<nat>, w: nat)
    requires w <= |lists| <= |ports| && ports != [] && Increasing(ports)
    ensures DistinctPorts(Spawned(lists, ports, w))
    ensures forall j :: 0 <= j < |Spawned(lists, ports, w)| ==>
              exists c: nat :: c < w && Spawned(lists, ports, w)[j] == Job(ports[c], lists[c])
    ensures forall c: nat :: c < w && lists[c] != [] ==> Job(ports[c], lists[c]) in Spawned(lists, ports, w)
  {
    if w > 0 {
      OnePortEach(lists, ports, w - 1);
      ModSmall(w - 1, |ports|);
      OneMorePort(lists, ports, w, Spawned(lists, ports, w - 1), Spawned(lists, ports, w));
    }
  }

  lemma OneMorePort(lists: seq<seq<nat>>, ports: seq<nat>, w: nat, before: seq<Job>, jobs: seq<Job>)
    requires 0 < w <= |lists| <= |ports| && Increasing(ports) && DistinctPorts(before)
    requires forall j :: 0 <= j < |before| ==> exists c: nat :: c < w - 1 && before[j] == Job(ports[c], lists[c])
    requires forall c: nat :: c < w - 1 && lists[c] != [] ==> Job(ports[c], lists[c]) in before
    requires jobs == before + if lists[w - 1] == [] then [] else [Job(ports[w - 1], lists[w - 1])]
    ensures DistinctPorts(jobs)
    ensures forall j :: 0 <= j < |jobs| ==> exists c: nat :: c < w && jobs[j] == Job(ports[c], lists[c])
    ensures forall c: nat :: c < w && lists[c] != [] ==> Job(ports[c], lists[c]) in jobs
  {
    forall j | 0 <= j < |before|
      ensures before[j].port < ports[w - 1]
    {
      var c: nat :| c < w - 1 && before[j] == Job(ports[c], lists[c]);
    }
    if lists[w - 1] == [] {
      assert jobs == before;
    } else {
      var last := Job(ports[w - 1], lists[w - 1]);
      assert jobs[|before|] == last && last in jobs;
      assert forall j: Job :: j in before ==> j in jobs;
    }
  }

  /** The client as a whole: with the ports the server bound and the lists of `SetupWorkers`, every
      chunk goes to exactly one job, and jobs have pairwise different ports. */
  lemma EveryChunkOneJob(parallel: nat, n: nat, ports: seq<nat>, lists: seq<seq<nat>>, i: nat)
    requires 0 < parallel && ports != [] && Increasing(ports) && i < n
    requires var w := Min(parallel, |ports|);
             |lists| == w && forall c :: 0 <= c < w ==> lists[c] == Assigned(n, w, c)
    ensures var jobs := Spawned(lists, ports, |lists|);
            && DistinctPorts(jobs)
            && (exists j :: 0 <= j < |jobs| && i in jobs[j].indices)
            && forall j, k :: 0 <= j < |jobs| && 0 <= k < |jobs| && i in jobs[j].indices && i in jobs[k].indices ==>
                j == k
  {
    hide Spawned, DistinctPorts;
    var w := |lists|;
    var jobs := Spawned(lists, ports, w);
    OnePortEach(lists, ports, w);
    assert i in lists[i % w];
    assert Job(ports[i % w], lists[i % w]) in jobs;
    forall j, k | 0 <= j < |jobs| && 0 <= k < |jobs| && i in jobs[j].indices && i in jobs[k].indices
      ensures j == k
    {
      var c: nat :| c < w && jobs[j] == Job(ports[c], lists[c]);
      var d: nat :| d < w && jobs[k] == Job(ports[d], lists[d]);
      assert c == i % w == d;
      SamePortSameJob(jobs, j, k);
    }
  }

  lemma SamePortSameJob(jobs: seq<Job>, j: nat, k: nat)
    requires DistinctPorts(jobs) && j < |jobs| && k < |jobs| && jobs[j].port == jobs[k].port
    ensures j == k
  {
  }
}
