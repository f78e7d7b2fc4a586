/** Begin, load, go live, crash: these steps keep the invariant. */
module SessionSteps {
  import opened Wire
  import opened Storage
  import opened Metadata
  import opened Receiver
  import opened Transfer
  import opened Safety
  import Chunks
  import Messages

  // ----- Begin ------------------------------------------------------------------------------------

  /** The decoded metadata when a matching or a mismatching session begins. */
  lemma StoredMeta(env: Env, fs: Files, p: Params, acked: set<nat>) returns (sp: Params, keys: set<nat>)
    requires CollisionFree(env) && Honest(env, p)
    requires DiskInv(env, fs) && AckedInv(env, fs, p, acked) && MetaFile in fs
    ensures Honest(env, sp) && KeysOk(sp, keys)
    ensures fs[MetaFile] == Encode(MetaFor(env.h, sp, keys))
    ensures Decode(fs[MetaFile]) == Ok(MetaFor(env.h, sp, keys))
    ensures Matches(MetaFor(env.h, sp, keys), p.ToOffer(env.h)) ==> sp == p
    ensures acked != {} ==> sp == p && acked <= keys
  {
    hide Decode, Encode;
    sp, keys :| Honest(env, sp) && KeysOk(sp, keys) && fs[MetaFile] == Encode(MetaFor(env.h, sp, keys));
    HonestRoundTrip(env, sp, keys);
    var m := MetaFor(env.h, sp, keys);
    if Matches(m, p.ToOffer(env.h)) {
      MatchingIsMine(env, p, sp, keys);
    }
    if acked != {} {
      var keys' :| acked <= keys' && KeysOk(p, keys') && fs[MetaFile] == Encode(MetaFor(env.h, p, keys'));
      HonestRoundTrip(env, p, keys');
      assert MetaFor(env.h, p, keys') == m;
      assert m.hashes.Keys == keys && MetaFor(env.h, p, keys').hashes.Keys == keys';
      MatchingIsMine(env, p, sp, keys);
    }
  }

  /** A part verifies exactly if it is the slice: here collisions would matter. */
  lemma VerifiedIsSlice(env: Env, fs: Files, p: Params, keys: set<nat>, i: nat)
    requires CollisionFree(env) && Honest(env, p) && ContentsOk(env, fs) && i in keys
    ensures Verifies(env.h, MetaFor(env.h, p, keys), fs, i) <==> PartIs(fs, p, i)
  {
    SliceInContents(env, p, i, 0);
  }

  lemma PlanIsSafe(env: Env, fs: Files, p: Params, acked: set<nat>, order: seq<nat>)
    requires CollisionFree(env) && Honest(env, p)
    requires DiskInv(env, fs) && AckedInv(env, fs, p, acked) && LoadOrder(fs, order)
    ensures var plan := LoadPlan(env.h, fs, p.ToOffer(env.h), order);
            LoadInv(env, fs, p, acked, Exec(plan.script, true), plan.found)
  {
    hide Decode, Encode, KeySet, Distinct, FailedParts, LoadPlan;
    var o := p.ToOffer(env.h);
    PlanCases(env.h, fs, o, order);
    if MetaFile in fs {
      var sp, keys := StoredMeta(env, fs, p, acked);
      var m := MetaFor(env.h, sp, keys);
      if Matches(m, o) {
        MatchingPlanIsSafe(env, fs, p, acked, order, keys);
      } else {
        PurgeOps(fs, p.N());
      }
    }
  }

  lemma PurgeOps(fs: Files, n: nat)
    ensures OpsOk(fs, None, PurgeScript(n))
  {
  }

  lemma MatchingPlanIsSafe(env: Env, fs: Files, p: Params, acked: set<nat>, order: seq<nat>, keys: set<nat>)
    requires CollisionFree(env) && Honest(env, p)
    requires DiskInv(env, fs) && AckedInv(env, fs, p, acked) && MetaFile in fs
    requires KeysOk(p, keys) && acked <= keys
    requires fs[MetaFile] == Encode(MetaFor(env.h, p, keys)) && Decode(fs[MetaFile]) == Ok(MetaFor(env.h, p, keys))
    requires IterationOrder(order, MetaFor(env.h, p, keys).hashes)
    ensures var plan := LoadPlan(env.h, fs, p.ToOffer(env.h), order);
            LoadInv(env, fs, p, acked, Exec(plan.script, true), plan.found)
  {
    hide Decode, Encode, KeySet, Distinct, FailedParts, LoadPlan, OpsOk;
    var h, o, m := env.h, p.ToOffer(env.h), MetaFor(env.h, p, keys);
    PlanCases(h, fs, o, order);
    var plan := LoadPlan(h, fs, o, order);
    var bad := FailedParts(h, m, fs, order);
    var good := GoodHashes(h, m, fs);
    NoneFailed(h, m, fs, order);
    FailedPartsOps(h, m, fs, order);
    OrderIsKeys(order, m.hashes);
    forall i | i in keys
      ensures i in good <==> PartIs(fs, p, i)
    {
      VerifiedIsSlice(env, fs, p, keys, i);
    }
    assert good == HashesFor(h, p, good.Keys);
    if bad == [] {
      assert m.hashes.Keys == keys;
      NoOps(fs, Some(m));
    } else if good == map[] {
      assert acked == {} by { assert forall i :: i in acked ==> i in good; }
      RemovalOps(h, m, fs, order, None, PurgeScript(p.N()));
      PurgeOps(fs, p.N());
    } else {
      var clean := m.(hashes := good);
      var i :| i in order && !Verifies(h, m, fs, i);
      CleanPlanIsSafe(env, fs, p, acked, order, keys, clean, i);
    }
  }

  lemma CleanPlanIsSafe(env: Env, fs: Files, p: Params, acked: set<nat>, order: seq<nat>, keys: set<nat>,
      clean: Meta, i: nat)
    requires Honest(env, p) && KeysOk(p, keys) && acked <= clean.hashes.Keys <= keys && i in keys
    requires clean == MetaFor(env.h, p, clean.hashes.Keys)
    requires clean.hashes == GoodHashes(env.h, MetaFor(env.h, p, keys), fs) && i !in clean.hashes
    requires forall k :: k in clean.hashes ==> PartIs(fs, p, k)
    ensures var script := FailedParts(env.h, MetaFor(env.h, p, keys), fs, order) + SaveScript(Encode(clean));
            LoadInv(env, fs, p, acked, Exec(script, true), Some(clean))
  {
    hide Encode, FailedParts, OpsOk, HashesFor;
    SaveOps(fs, clean);
    RemovalOps(env.h, MetaFor(env.h, p, keys), fs, order, Some(clean), SaveScript(Encode(clean)));
    assert !Flags(p.N(), Some(clean))[i];
  }

  lemma OrderIsKeys(order: seq<nat>, hashes: Hashes)
    requires IterationOrder(order, hashes)
    ensures forall i :: i in order <==> i in hashes
  {
    assert forall i :: i in order <==> i in KeySet(order);
  }

  lemma NoOps(fs: Files, found: Option<Meta>)
    ensures OpsOk(fs, found, [])
  {
  }

  lemma SaveOps(fs: Files, m: Meta)
    ensures OpsOk(fs, Some(m), SaveScript(Encode(m)))
  {
    hide Encode;
  }

  /** The removals before the rest of the plan spare every part that was found. */
  lemma RemovalOps(h: Hasher, m: Meta, fs: Files, order: seq<nat>, found: Option<Meta>, rest: seq<Op>)
    requires OpsOk(fs, found, rest) || (found.None? && exists n :: rest == PurgeScript(n))
    requires found.Some? ==> found.value.hashes == GoodHashes(h, m, fs)
    requires rest != [] && !rest[0].Rename?
    ensures OpsOk(fs, found, FailedParts(h, m, fs, order) + rest)
  {
    hide Encode, FailedParts;
    FailedPartsOps(h, m, fs, order);
    if found.None? && exists n :: rest == PurgeScript(n) {
      var n :| rest == PurgeScript(n);
      PurgeOps(fs, n);
    }
    var bad := FailedParts(h, m, fs, order);
    var todo := bad + rest;
    forall j | 0 <= j < |todo|
      ensures OpOk(fs, found, todo, j)
    {
      if j < |bad| {
        assert todo[j] in bad;
      } else {
        assert OpOk(fs, found, rest, j - |bad|);
        assert todo[j] == rest[j - |bad|];
        assert j > |bad| ==> todo[j - 1] == rest[j - 1 - |bad|];
      }
    }
  }

  lemma BeginKeeps(env: Env, s: State, s': State)
    requires CollisionFree(env) && Inv(env, s) && Begin(env, s, s')
    ensures Inv(env, s')
  {
    hide LoadPlan, DiskInv, AckedInv, LoadInv;
    var p := s'.phase.p;
    if OutFile in s.disk && env.h(s.disk[OutFile]) == env.h(p.source) {
      ExistingIsSource(env, s.disk, p);
    } else {
      var order :| BeginLoading(env, s, s', p, order);
      if p != s.ackedBy {
        NothingAcked(env, s.disk, p);
      }
      PlanIsSafe(env, s.disk, p, s'.acked, order);
    }
  }

  lemma NothingAcked(env: Env, fs: Files, p: Params)
    ensures AckedInv(env, fs, p, {})
  {
  }

  lemma ExistingIsSource(env: Env, fs: Files, p: Params)
    requires CollisionFree(env) && Honest(env, p) && DiskInv(env, fs)
    requires OutFile in fs && env.h(fs[OutFile]) == env.h(p.source)
    ensures OutIs(fs, p.source)
  {
  }

  // ----- Load ---------------------------------------------------------------------------------------

  lemma LoadKeeps(env: Env, s: State, s': State)
    requires CollisionFree(env) && Inv(env, s) && LoadStep(s, s')
    ensures Inv(env, s')
  {
    var p, found := s.phase.p, s.phase.found;
    LoadOp(env, s.disk, s'.disk, p, s.acked, s.phase.exec, s'.phase.exec, found);
  }

  lemma LoadOp(env: Env, fs: Files, fs': Files, p: Params, acked: set<nat>, e: Exec, e': Exec, found: Option<Meta>)
    requires DiskInv(env, fs) && AckedInv(env, fs, p, acked) && LoadInv(env, fs, p, acked, e, found)
    requires ExecStep(fs, e, fs', e')
    ensures DiskInv(env, fs') && AckedInv(env, fs', p, acked) && LoadInv(env, fs', p, acked, e', found)
  {
    assert OpOk(fs, found, e.todo, 0);
    hide DiskInv, AckedInv, LoadInv, ExecStep;
    match e.todo[0]
    case Remove(_) => LoadRemove(env, fs, fs', p, acked, e, e', found);
    case Write(_, _) => LoadWrite(env, fs, fs', p, acked, e, e', found);
    case Rename(_, _) => LoadRename(env, fs, fs', p, acked, e, e', found);
  }

  lemma FirstOp(fs: Files, found: Option<Meta>, todo: seq<Op>)
    requires OpsOk(fs, found, todo) && todo != []
    ensures OpOk(fs, found, todo, 0)
  {
  }

  lemma LoadRemove(env: Env, fs: Files, fs': Files, p: Params, acked: set<nat>, e: Exec, e': Exec, found: Option<Meta>)
    requires DiskInv(env, fs) && AckedInv(env, fs, p, acked) && LoadInv(env, fs, p, acked, e, found)
    requires ExecStep(fs, e, fs', e') && e.todo[0].Remove?
    ensures DiskInv(env, fs') && AckedInv(env, fs', p, acked) && LoadInv(env, fs', p, acked, e', found)
  {
    hide Encode, GoodMeta, ContentsOk, Covers, OpsOk;
    var n := e.todo[0].name;
    FirstOp(fs, found, e.todo);
    if n == MetaFile {
      NothingAcked(env, fs', p);
    } else {
      OtherFiles(env, fs, fs', p, acked);
    }
    LaterOps(fs, fs', found, e.todo);
    LessContents(env, fs, fs');
  }

  lemma LoadWrite(env: Env, fs: Files, fs': Files, p: Params, acked: set<nat>, e: Exec, e': Exec, found: Option<Meta>)
    requires DiskInv(env, fs) && AckedInv(env, fs, p, acked) && LoadInv(env, fs, p, acked, e, found)
    requires ExecStep(fs, e, fs', e') && e.todo[0].Write?
    ensures DiskInv(env, fs') && AckedInv(env, fs', p, acked) && LoadInv(env, fs', p, acked, e', found)
  {
    hide Encode, GoodMeta, ContentsOk, Covers, OpsOk;
    FirstOp(fs, found, e.todo);
    OtherFiles(env, fs, fs', p, acked);
    LessContents(env, fs, fs');
    WriteOps(fs, fs', e, e', found);
  }

  lemma LoadRename(env: Env, fs: Files, fs': Files, p: Params, acked: set<nat>, e: Exec, e': Exec, found: Option<Meta>)
    requires DiskInv(env, fs) && AckedInv(env, fs, p, acked) && LoadInv(env, fs, p, acked, e, found)
    requires ExecStep(fs, e, fs', e') && e.todo[0].Rename?
    ensures DiskInv(env, fs') && AckedInv(env, fs', p, acked) && LoadInv(env, fs', p, acked, e', found)
  {
    hide Encode, GoodMeta, ContentsOk, Covers, OpsOk;
    FirstOp(fs, found, e.todo);
    LessContents(env, fs, fs');
    if e' == Exec([Remove(TmpFile)], false) && fs' == fs {
      OneRemove(fs', found, TmpFile);
    } else {
      var keys := found.value.hashes.Keys;
      GoodFor(env, p, keys);
      NewCover(env, fs', p, acked, keys);
      LaterOps(fs, fs', found, e.todo);
    }
  }

  lemma WriteOps(fs: Files, fs': Files, e: Exec, e': Exec, found: Option<Meta>)
    requires OpsOk(fs, found, e.todo) && e.todo != [] && e.todo[0].Write? && ExecStep(fs, e, fs', e')
    ensures OpsOk(fs', found, e'.todo)
  {
    hide Encode;
    if e' == e {
      SameOps(fs, fs', found, e.todo);
    } else if e' == FAILED {
      NoOps(fs', found);
    } else {
      LaterOps(fs, fs', found, e.todo);
    }
  }

  lemma OneRemove(fs: Files, found: Option<Meta>, a: Name)
    requires a == TmpFile
    ensures OpsOk(fs, found, [Remove(a)])
  {
  }

  /** Nothing but the temporary file is new or different. */
  lemma LessContents(env: Env, fs: Files, fs': Files)
    requires ContentsOk(env, fs)
    requires forall n :: n in fs' && (n.Part? || n.OutFile?) ==> n in fs && fs'[n] == fs[n]
    ensures ContentsOk(env, fs')
  {
  }

  /** The metadata and the acknowledged parts are untouched. */
  lemma OtherFiles(env: Env, fs: Files, fs': Files, p: Params, acked: set<nat>)
    requires AckedInv(env, fs, p, acked)
    requires MetaFile in fs ==> MetaFile in fs' && fs'[MetaFile] == fs[MetaFile]
    requires forall i :: i in acked && Part(i) in fs ==> Part(i) in fs' && fs'[Part(i)] == fs[Part(i)]
    ensures AckedInv(env, fs', p, acked)
  {
    hide Encode;
    if acked != {} {
      var keys :| acked <= keys && KeysOk(p, keys) && MetaFile in fs && fs[MetaFile] == Encode(MetaFor(env.h, p, keys));
      assert fs'[MetaFile] == Encode(MetaFor(env.h, p, keys));
    }
  }

  lemma NewCover(env: Env, fs: Files, p: Params, acked: set<nat>, keys: set<nat>)
    requires Honest(env, p) && acked <= keys && KeysOk(p, keys)
    requires MetaFile in fs && fs[MetaFile] == Encode(MetaFor(env.h, p, keys))
    requires forall i :: i in acked ==> PartIs(fs, p, i)
    ensures AckedInv(env, fs, p, acked)
  {
    hide Encode;
  }

  lemma GoodFor(env: Env, p: Params, keys: set<nat>)
    requires Honest(env, p) && KeysOk(p, keys)
    ensures GoodMeta(env, Encode(MetaFor(env.h, p, keys)))
  {
    hide Encode;
  }

  /** The rest of the script stays in order after its first operation. */
  lemma LaterOps(fs: Files, fs': Files, found: Option<Meta>, todo: seq<Op>)
    requires OpsOk(fs, found, todo) && todo != []
    requires todo[0].Write? ==> todo[0].name in fs' && fs'[todo[0].name] == todo[0].data
    ensures OpsOk(fs', found, todo[1..])
  {
    hide Encode;
    forall j | 0 <= j < |todo[1..]|
      ensures OpOk(fs', found, todo[1..], j)
    {
      assert OpOk(fs, found, todo, j + 1);
      assert todo[1..][j] == todo[j + 1];
    }
  }

  lemma SameOps(fs: Files, fs': Files, found: Option<Meta>, todo: seq<Op>)
    requires OpsOk(fs, found, todo) && todo != [] && todo[0].Write?
    ensures OpsOk(fs', found, todo)
  {
    hide Encode;
    forall j | 0 <= j < |todo|
      ensures OpOk(fs', found, todo, j)
    {
      assert OpOk(fs, found, todo, j);
    }
  }

  // ----- Go live --------------------------------------------------------------------------------------

  lemma NewConnInv(env: Env, p: Params, fs: Files, b: Board, w: nat, c: nat)
    requires c < w && |b.received| == p.N() && !b.shutdown
    ensures ConnInv(env, p, fs, b, 0, w, c, NewConn(p.N(), w, c))
  {
  }

  lemma GoLiveKeeps(env: Env, s: State, s': State)
    requires Inv(env, s) && GoLive(env, s, s')
    ensures Inv(env, s')
  {
    hide Encode, DiskInv, AckedInv, ConnInv;
    var p, found := s.phase.p, s.phase.found;
    var b, conns, control := s'.phase.board, s'.phase.conns, s'.phase.control;
    var keys := if found.Some? then found.value.hashes.Keys else {};
    assert Messages.ReceivedSet(b.received) == keys;
    assert b.meta == MetaFor(env.h, p, keys) by {
      assert found.None? ==> HashesFor(env.h, p, {}) == map[];
    }
    assert BoardInv(env, s.disk, s.acked, p, b, Removed(control));
    Chunks.CeilBounds(|p.source|, p.chunkSize);
    assert found.None? ==> !b.received[0];
    assert SyncInv(s.disk, b, control);
    assert ControlInv(s.disk, p, b, control);
    forall c | 0 <= c < |conns|
      ensures ConnInv(env, p, s'.disk, b, Removed(control), |conns|, c, conns[c])
    {
      NewConnInv(env, p, s'.disk, b, |conns|, c);
    }
  }

  lemma StopKeeps(env: Env, s: State, s': State)
    requires Inv(env, s) && Stop(s, s')
    ensures Inv(env, s')
  {
  }

  lemma CorruptKeeps(env: Env, s: State, s': State, n: Name)
    requires Inv(env, s) && Corrupt(env, s, s', n)
    ensures Inv(env, s')
  {
    hide Encode, GoodMeta;
    FewerAcked(env, s.disk, s.ackedBy, s.acked, s'.acked);
    OtherFiles(env, s.disk, s'.disk, s.ackedBy, s'.acked);
  }

  lemma FewerAcked(env: Env, fs: Files, p: Params, acked: set<nat>, acked': set<nat>)
    requires AckedInv(env, fs, p, acked) && acked' <= acked
    ensures AckedInv(env, fs, p, acked')
  {
    hide Encode;
    if acked' != {} {
      var keys :| acked <= keys && KeysOk(p, keys) && MetaFile in fs && fs[MetaFile] == Encode(MetaFor(env.h, p, keys));
      assert acked' <= keys;
    }
  }
}
