/** `FileReceiver`: the state of one incoming transfer, resume validation and assembly. */
module Receiver {
  import opened Wire
  import opened Storage
  import opened Metadata
  import Chunks
  import Frames
  import Messages

  /** The transfer parameters of a handshake. */
  datatype Offer = Offer(chunkSize: nat, numChunks: nat, fileSize: nat, fullHash: Digest)

  function EmptyMeta(o: Offer): Meta
  {
    Meta(o.chunkSize, o.numChunks, o.fileSize, o.fullHash, map[])
  }

  predicate Matches(m: Meta, o: Offer)
  {
    ParamsMatch(m, o.chunkSize, o.numChunks, o.fileSize, o.fullHash)
  }

  /** Stored metadata is of the transfer offered exactly if it is its record with some hashes filled in. */
  lemma MatchesIsSameTransfer(m: Meta, o: Offer)
    ensures Matches(m, o) <==> m.(hashes := map[]) == EmptyMeta(o)
  {
  }

  // ----- Resume ---------------------------------------------------------------------------------

  /** The removals of the parts that do not verify, in iteration order. */
  function FailedParts(h: Hasher, m: Meta, fs: Files, keys: seq<nat>): seq<Op>
    decreases |keys|
  {
    if keys == [] then []
    else if Verifies(h, m, fs, keys[0]) then FailedParts(h, m, fs, keys[1..])
    else [Remove(Part(keys[0]))] + FailedParts(h, m, fs, keys[1..])
  }

  /** The stored entries whose part verifies. */
  function GoodHashes(h: Hasher, m: Meta, fs: Files): Hashes
  {
    map i | i in m.hashes && Verifies(h, m, fs, i) :: m.hashes[i]
  }

  /** What `load_or_purge_metadata` does to the disk, and what it returns. */
  datatype Plan = Plan(script: seq<Op>, found: Option<Meta>)

  ghost function LoadPlan(h: Hasher, fs: Files, o: Offer, order: seq<nat>): Plan
  {
    if MetaFile !in fs then Plan([], None)
    else
      match Decode(fs[MetaFile])
      case Err => Plan(PurgeScript(o.numChunks), None)
      case Ok(m) =>
        if !Matches(m, o) then Plan(PurgeScript(o.numChunks), None)
        else
          var bad := FailedParts(h, m, fs, order);
          var clean := m.(hashes := GoodHashes(h, m, fs));
          if bad == [] then Plan([], Some(m))
          else if clean.hashes == map[] then Plan(bad + PurgeScript(o.numChunks), None)
          else Plan(bad + SaveScript(Encode(clean)), Some(clean))
  }

  /** An order in which the stored entries may be visited. */
  ghost predicate LoadOrder(fs: Files, order: seq<nat>)
  {
    MetaFile in fs && Decode(fs[MetaFile]).Ok? ==> IterationOrder(order, Decode(fs[MetaFile]).value.hashes)
  }

  lemma {:induction false} NoneFailed(h: Hasher, m: Meta, fs: Files, keys: seq<nat>)
    ensures FailedParts(h, m, fs, keys) == [] <==> forall i :: i in keys ==> Verifies(h, m, fs, i)
  {
    if keys != [] {
      NoneFailed(h, m, fs, keys[1..]);
      assert keys == [keys[0]] + keys[1..];
    }
  }

  /** Each operation removes the part of a visited entry that does not verify. */
  lemma {:induction false} FailedPartsOps(h: Hasher, m: Meta, fs: Files, keys: seq<nat>)
    ensures forall op :: op in FailedParts(h, m, fs, keys) ==>
              op.Remove? && op.name.Part? && op.name.index in keys && !Verifies(h, m, fs, op.name.index)
  {
    if keys != [] {
      FailedPartsOps(h, m, fs, keys[1..]);
    }
  }

  /** What the loop over the stored entries does when every removal succeeds. */
  lemma {:induction false} RemoveFailed(h: Hasher, m: Meta, fs: Files, keys: seq<nat>, now: Files, rest: seq<Op>)
    ensures var gone := set i | i in keys && !Verifies(h, m, fs, i) :: Part(i);
            AppliedAll(FailedParts(h, m, fs, keys) + rest, now) == AppliedAll(rest, now - gone)
    decreases |keys|
  {
    var gone := set i | i in keys && !Verifies(h, m, fs, i) :: Part(i);
    var script := FailedParts(h, m, fs, keys);
    if keys == [] {
      assert script + rest == rest && now - gone == now;
    } else {
      var k, tail := keys[0], keys[1..];
      var gone' := set i | i in tail && !Verifies(h, m, fs, i) :: Part(i);
      assert keys == [k] + tail;
      if Verifies(h, m, fs, k) {
        assert gone == gone';
        RemoveFailed(h, m, fs, tail, now, rest);
      } else {
        assert gone == {Part(k)} + gone';
        RemoveFailed(h, m, fs, tail, now - {Part(k)}, rest);
        assert (script + rest)[1..] == FailedParts(h, m, fs, tail) + rest;
        assert now - {Part(k)} - gone' == now - gone;
      }
    }
  }

  lemma {:induction false} RemovesOnly(ops: seq<Op>, fs: Files)
    requires forall op :: op in ops ==> op.Remove?
    ensures forall n :: n in AppliedAll(ops, fs) ==> n in fs && AppliedAll(ops, fs)[n] == fs[n]
    decreases |ops|
  {
    if ops != [] {
      assert ops[0] in ops;
      RemovesOnly(ops[1..], Applied(ops[0], fs));
    }
  }

  lemma {:induction false} RemovesAll(ops: seq<Op>, fs: Files)
    requires forall op :: op in ops ==> op.Remove?
    ensures forall op :: op in ops ==> op.name !in AppliedAll(ops, fs)
    ensures forall n :: n in fs && Remove(n) !in ops ==> n in AppliedAll(ops, fs)
    decreases |ops|
  {
    if ops != [] {
      assert ops[0] in ops && ops == [ops[0]] + ops[1..];
      RemovesAll(ops[1..], Applied(ops[0], fs));
      RemovesOnly(ops[1..], Applied(ops[0], fs));
    }
  }

  /** No metadata, and none of the `n` parts. */
  predicate Purged(fs: Files, n: nat)
  {
    MetaFile !in fs && forall i: nat :: i < n ==> Part(i) !in fs
  }

  /** A purge that succeeds leaves no metadata and no part of the new numbering, and nothing else is gone. */
  lemma PurgeIsComplete(n: nat, fs: Files)
    ensures var after := AppliedAll(PurgeScript(n), fs);
            && Purged(after, n)
            && forall f :: f in fs && f != MetaFile && !(f.Part? && f.index < n) ==> f in after && after[f] == fs[f]
  {
    var script := PurgeScript(n);
    RemovesAll(script, fs);
    RemovesOnly(script, fs);
    assert Remove(MetaFile) == script[0];
    forall i: nat | i < n
      ensures Remove(Part(i)) in script
    {
      assert script[i + 1] == Remove(Part(i));
    }
  }

  /** Resume validation is idempotent: after a call whose disk operations succeed, a second call
      changes nothing and returns the same. */
  lemma LoadTwice(h: Hasher, fs: Files, o: Offer, order: seq<nat>, order': seq<nat>)
    requires LoadOrder(fs, order)
    requires LoadOrder(AppliedAll(LoadPlan(h, fs, o, order).script, fs), order')
    ensures var plan := LoadPlan(h, fs, o, order);
            LoadPlan(h, AppliedAll(plan.script, fs), o, order') == Plan([], plan.found)
  {
    var plan := LoadPlan(h, fs, o, order);
    if MetaFile in fs {
      var d := Decode(fs[MetaFile]);
      if d.Err? || !Matches(d.value, o) {
        PurgeIsComplete(o.numChunks, fs);
      } else {
        LoadTwiceMatching(h, fs, o, order, order', d.value);
      }
    }
  }

  lemma LoadTwiceMatching(h: Hasher, fs: Files, o: Offer, order: seq<nat>, order': seq<nat>, m: Meta)
    requires MetaFile in fs && Decode(fs[MetaFile]) == Ok(m) && Matches(m, o)
    requires IterationOrder(order, m.hashes)
    requires LoadOrder(AppliedAll(LoadPlan(h, fs, o, order).script, fs), order')
    ensures var plan := LoadPlan(h, fs, o, order);
            LoadPlan(h, AppliedAll(plan.script, fs), o, order') == Plan([], plan.found)
  {
    hide Decode, Encode, KeySet;
    var plan := LoadPlan(h, fs, o, order);
    var bad := FailedParts(h, m, fs, order);
    var clean := m.(hashes := GoodHashes(h, m, fs));
    NoneFailed(h, m, fs, order);
    if bad == [] {
      forall i | i in order'
        ensures Verifies(h, m, fs, i)
      {
        assert i in KeySet(order');
        assert i in KeySet(order);
      }
      NoneFailed(h, m, fs, order');
    } else {
      var gone := set i | i in order && !Verifies(h, m, fs, i) :: Part(i);
      var mid := fs - gone;
      if clean.hashes == map[] {
        RemoveFailed(h, m, fs, order, fs, PurgeScript(o.numChunks));
        PurgeIsComplete(o.numChunks, mid);
      } else {
        RemoveFailed(h, m, fs, order, fs, SaveScript(Encode(clean)));
        var fs' := AppliedAll(plan.script, fs);
        SaveApplied(Encode(clean), mid);
        DecodedInRange(fs[MetaFile]);
        GoodInRange(h, m, fs);
        RoundTrip(clean);
        forall i | i in order'
          ensures Verifies(h, clean, fs', i)
        {
          assert i in KeySet(order');
          assert i in clean.hashes;
          assert Part(i) !in gone;
        }
        NoneFailed(h, clean, fs', order');
      }
    }
  }

  /** The record `m'` holds exactly the entries of `m` whose part verifies on `fs`. On the disk
      `after` it is what is stored, its parts are intact, and the parts that failed are gone. */
  ghost predicate ExactlyFound(h: Hasher, o: Offer, m: Meta, fs: Files, m': Meta, after: Files)
  {
    && Matches(m, o) && Matches(m', o)
    && (forall i :: i in m'.hashes <==> Verifies(h, m, fs, i))
    && (forall i :: i in m.hashes && !Verifies(h, m, fs, i) ==> Part(i) !in after)
    && (forall i :: i in m'.hashes ==> m'.hashes[i] == m.hashes[i] && Verifies(h, m', after, i))
    && MetaFile in after && Decode(after[MetaFile]) == Ok(m')
  }

  /** The stored metadata is of no use for the transfer offered: it does not decode, is of another
      transfer, or lists chunks none of which verifies. */
  ghost predicate Useless(h: Hasher, o: Offer, fs: Files)
    requires MetaFile in fs
  {
    match Decode(fs[MetaFile])
    case Err => true
    case Ok(m) => !Matches(m, o) || (m.hashes != map[] && forall i :: i in m.hashes ==> !Verifies(h, m, fs, i))
  }

  /** What a resume finds is exactly the stored entries whose part verifies. Nothing is found exactly if
      nothing was stored or what was stored is of no use; in the latter case neither metadata nor any part of
      the transfer offered is left. */
  lemma ResumeIsExact(h: Hasher, fs: Files, o: Offer, order: seq<nat>)
    requires LoadOrder(fs, order)
    ensures var plan := LoadPlan(h, fs, o, order);
            var after := AppliedAll(plan.script, fs);
            if MetaFile !in fs then plan.found.None? && after == fs
            else if Useless(h, o, fs) then plan.found.None? && Purged(after, o.numChunks)
            else
              && plan.found.Some? && Decode(fs[MetaFile]).Ok?
              && ExactlyFound(h, o, Decode(fs[MetaFile]).value, fs, plan.found.value, after)
  {
    hide Decode, Encode, KeySet, ExactlyFound, GoodHashes;
    if MetaFile in fs {
      var d := Decode(fs[MetaFile]);
      if d.Err? || !Matches(d.value, o) {
        PurgeIsComplete(o.numChunks, fs);
      } else {
        var m := d.value;
        var gone := set i | i in order && !Verifies(h, m, fs, i) :: Part(i);
        NoneFailed(h, m, fs, order);
        assert forall i :: i in order <==> i in m.hashes by {
          assert forall i :: i in order <==> i in KeySet(order);
        }
        NoneGood(h, m, fs);
        if FailedParts(h, m, fs, order) == [] {
          assert m.hashes != map[] ==> exists i :: i in m.hashes;
          AllVerified(h, o, m, fs, order);
        } else if GoodHashes(h, m, fs) == map[] {
          RemoveFailed(h, m, fs, order, fs, PurgeScript(o.numChunks));
          PurgeIsComplete(o.numChunks, fs - gone);
        } else {
          RemoveFailed(h, m, fs, order, fs, SaveScript(Encode(m.(hashes := GoodHashes(h, m, fs)))));
          SomeVerified(h, o, m, fs, order, gone);
        }
      }
    }
  }

  lemma NoneGood(h: Hasher, m: Meta, fs: Files)
    ensures GoodHashes(h, m, fs) == map[] <==> forall i :: i in m.hashes ==> !Verifies(h, m, fs, i)
  {
    assert forall i :: i in GoodHashes(h, m, fs) <==> i in m.hashes && Verifies(h, m, fs, i);
  }

  lemma AllVerified(h: Hasher, o: Offer, m: Meta, fs: Files, order: seq<nat>)
    requires MetaFile in fs && Decode(fs[MetaFile]) == Ok(m) && Matches(m, o) && IterationOrder(order, m.hashes)
    requires forall i :: i in order ==> Verifies(h, m, fs, i)
    ensures ExactlyFound(h, o, m, fs, m, fs)
  {
    hide Decode, KeySet, Distinct;
    assert forall i :: i in m.hashes <==> i in KeySet(order);
  }

  lemma SomeVerified(h: Hasher, o: Offer, m: Meta, fs: Files, order: seq<nat>, gone: set<Name>)
    requires MetaFile in fs && Decode(fs[MetaFile]) == Ok(m) && Matches(m, o) && IterationOrder(order, m.hashes)
    requires forall n :: n in gone <==> n.Part? && n.index in order && !Verifies(h, m, fs, n.index)
    ensures var clean := m.(hashes := GoodHashes(h, m, fs));
            ExactlyFound(h, o, m, fs, clean, AppliedAll(SaveScript(Encode(clean)), fs - gone))
  {
    hide Decode, Encode, KeySet, Distinct, SaveScript, InRange, Verifies, ExactlyFound;
    var clean := m.(hashes := GoodHashes(h, m, fs));
    SaveApplied(Encode(clean), fs - gone);
    DecodedInRange(fs[MetaFile]);
    GoodInRange(h, m, fs);
    RoundTrip(clean);
    assert forall i :: i in m.hashes ==> i in order by {
      assert forall i :: i in m.hashes ==> i in KeySet(order);
    }
    GoodRemain(h, o, m, fs, gone, clean);
  }

  /** Removing the parts that fail and storing the rest leaves exactly what verified. */
  lemma GoodRemain(h: Hasher, o: Offer, m: Meta, fs: Files, gone: set<Name>, clean: Meta)
    requires Matches(m, o) && clean == m.(hashes := GoodHashes(h, m, fs)) && Decode(Encode(clean)) == Ok(clean)
    requires forall i :: i in m.hashes && !Verifies(h, m, fs, i) ==> Part(i) in gone
    requires forall n :: n in gone ==> n.Part? && !Verifies(h, m, fs, n.index)
    ensures ExactlyFound(h, o, m, fs, clean, (fs - gone - {TmpFile})[MetaFile := Encode(clean)])
  {
    hide Decode, Encode;
  }

  lemma GoodInRange(h: Hasher, m: Meta, fs: Files)
    requires InRange(m)
    ensures InRange(m.(hashes := GoodHashes(h, m, fs)))
  {
    FewerKeys(GoodHashes(h, m, fs).Keys, m.hashes.Keys);
  }

  lemma {:induction false} FewerKeys(a: set<nat>, b: set<nat>)
    requires a <= b
    ensures |a| <= |b|
  {
    if a != {} {
      var x :| x in a;
      FewerKeys(a - {x}, b - {x});
    }
  }

  // ----- Assembly ---------------------------------------------------------------------------------

  function AssembleFrom(k: nat, n: nat): seq<Op>
    decreases n - k
  {
    if k >= n then [Remove(MetaFile)]
    else [Copy(Part(k), 0), MustRemove(Part(k))] + AssembleFrom(k + 1, n)
  }

  /** Truncate the output, copy and remove part after part, remove the metadata. */
  function AssembleScript(n: nat): seq<Op>
  {
    [Write(OutFile, [])] + AssembleFrom(0, n)
  }

  /** The parts `0..k` joined in index order. */
  function JoinParts(fs: Files, k: nat): Bytes
    requires forall i | 0 <= i < k :: Part(i) in fs
  {
    if k == 0 then [] else JoinParts(fs, k - 1) + fs[Part(k - 1)]
  }

  /** How far a destructive assembly has come: the first `k` parts are gone and in the output,
      the output goes on with a piece of part `k`, every other part is as it was. */
  ghost predicate Assembling(before: Files, now: Files, k: nat)
  {
    && (forall i | 0 <= i < k :: Part(i) in before && Part(i) !in now)
    && (forall i: nat :: i >= k ==> (Part(i) in before <==> Part(i) in now))
    && (forall i: nat :: i >= k && Part(i) in before ==> before[Part(i)] == now[Part(i)])
    && (OutFile in now ==> JoinParts(before, k) <= now[OutFile])
  }

  // ----- The receiver -------------------------------------------------------------------------------

  /** The chunk is in range and has exactly the size that is expected of it. */
  predicate RightSize(o: Offer, i: nat, size: nat)
  {
    i < o.numChunks && Chunks.ServerSize(o.chunkSize, o.numChunks, o.fileSize, i) == Some(size)
  }

  /** A chunk as the client sends it has the size that the server expects iff the file is not empty.
      The only chunk of an empty file is neither acknowledged nor refused: it gets no answer. */
  lemma ChunkExpectedIff(source: Bytes, chunkSize: nat, i: nat, offset: nat, hash: Digest, fullHash: Digest)
    requires 0 < chunkSize && chunkSize + 48 <= Frames.MAX_PAYLOAD
    requires i < Chunks.NumChunks(|source|, chunkSize) <= Messages.MAX_CHUNKS
    ensures var data := Chunks.Slice(source, chunkSize, i);
            var offer := Offer(chunkSize, Chunks.NumChunks(|source|, chunkSize), |source|, fullHash);
            && Messages.ParseChunk(Messages.ChunkMessage(i, offset, data, hash)) == Messages.ChunkFrame(i, data, hash)
            && (RightSize(offer, i, |data|) <==> source != [])
  {
    hide Messages.ParseChunk;
    Messages.ChunkRoundTrip(i, offset, Chunks.Slice(source, chunkSize, i), hash);
    Chunks.SidesAgreeIff(chunkSize, |source|, i);
    if source != [] {
      Chunks.SizeAgreement(source, chunkSize, i);
    }
  }

  datatype Answer = NoAnswer | AckByte(ok: bool) | Panic

  /** Disk, flags, in-memory metadata and failure mark. */
  datatype Shelf = Shelf(files: Files, received: seq<bool>, meta: Meta, failed: bool)

  /** The flag and the hash of chunk `i` are set. */
  ghost predicate Noted(s: Shelf, s': Shelf, i: nat, hash: Digest)
  {
    i < |s.received| && s'.received == s.received[i := true] && s'.meta == s.meta.(hashes := s.meta.hashes[i := hash])
  }

  /** What may have become of an accepted chunk. Acknowledged: its part is complete, it is recorded in
      memory and in the metadata on the disk. Refused: the transfer has failed, and nothing but the
      files of the chunk was touched. */
  ghost predicate Stored(s: Shelf, s': Shelf, i: nat, data: Bytes, hash: Digest, ack: bool)
  {
    && SameExcept(s.files, s'.files, {Part(i), TmpFile, MetaFile})
    && if ack then
         && Noted(s, s', i, hash) && s'.failed == s.failed
         && s'.files == (s.files[Part(i) := data] - {TmpFile})[MetaFile := Encode(s'.meta)]
       else
         && s'.failed
         && (MetaFile in s.files <==> MetaFile in s'.files)
         && (MetaFile in s.files && MetaFile in s'.files ==> s'.files[MetaFile] == s.files[MetaFile])
         && (Noted(s, s', i, hash) || (s'.received == s.received && s'.meta == s.meta))
  }

  lemma NotWritten(s: Shelf, s': Shelf, i: nat, data: Bytes, hash: Digest)
    requires SameExcept(s.files, s'.files, {Part(i)}) && s' == Shelf(s'.files, s.received, s.meta, true)
    ensures Stored(s, s', i, data, hash, false)
  {
  }

  lemma NotedNow(s: Shelf, s': Shelf, i: nat, hash: Digest)
    requires i < |s.received| && s'.received == s.received[i := true]
               && s'.meta == s.meta.(hashes := s.meta.hashes[i := hash])
    ensures Noted(s, s', i, hash) && Noted(s, s'.(failed := true), i, hash)
  {
  }

  lemma NotSaved(s: Shelf, s': Shelf, i: nat, data: Bytes, hash: Digest)
    requires SameExcept(s.files[Part(i) := data], s'.files, {TmpFile}) && s'.failed && Noted(s, s', i, hash)
    ensures Stored(s, s', i, data, hash, false)
  {
    hide Noted;
    var mid := s.files[Part(i) := data];
    assert forall n :: n !in {Part(i), TmpFile, MetaFile} ==> n !in {TmpFile} && (n in s.files <==> n in mid);
    assert MetaFile !in {TmpFile} && (MetaFile in s.files <==> MetaFile in mid);
  }

  lemma AllStored(s: Shelf, s': Shelf, i: nat, data: Bytes, hash: Digest)
    requires Noted(s, s', i, hash) && s'.failed == s.failed
    requires s'.files == (s.files[Part(i) := data] - {TmpFile})[MetaFile := Encode(s'.meta)]
    ensures Stored(s, s', i, data, hash, true)
  {
    hide Noted, Encode;
  }

  class FileReceiver {
    const h: Hasher
    const offer: Offer
    var receivedChunks: seq<bool>
    var failed: bool
    var metadata: TransferMetadata

    /** Flags and metadata name the same chunks, under the parameters of the handshake. */
    ghost predicate Valid()
      reads this, metadata
    {
      && |receivedChunks| == offer.numChunks
      && Matches(metadata.View(), offer)
      && metadata.chunkHashes.Keys == Messages.ReceivedSet(receivedChunks)
    }

    ghost function View(fs: Files): Shelf
      reads this, metadata
    {
      Shelf(fs, receivedChunks, metadata.View(), failed)
    }

    constructor (h: Hasher, offer: Offer)
      ensures Valid() && fresh(metadata)
      ensures this.h == h && this.offer == offer && !failed
      ensures metadata.View() == EmptyMeta(offer)
      ensures forall i :: 0 <= i < |receivedChunks| ==> !receivedChunks[i]
    {
      this.h, this.offer := h, offer;
      metadata := new TransferMetadata(offer.chunkSize, offer.numChunks, offer.fileSize, offer.fullHash);
      receivedChunks := seq(offer.numChunks, _ => false);
      failed := false;
    }

    method IsComplete() returns (all: bool)
      ensures all <==> forall i :: 0 <= i < |receivedChunks| ==> receivedChunks[i]
    {
      for i := 0 to |receivedChunks|
        invariant forall j :: 0 <= j < i ==> receivedChunks[j]
      {
        if !receivedChunks[i] {
          return false;
        }
      }
      return true;
    }

    /** Flag and in-memory hash are set in any case; the file only if the save succeeds. */
    method RecordChunk(disk: Disk, index: nat, hash: Digest) returns (ok: bool)
      requires Valid() && disk.exec.todo == [] && index < offer.numChunks
      modifies this`receivedChunks, metadata, disk
      ensures Valid() && metadata == old(metadata)
      ensures receivedChunks == old(receivedChunks)[index := true]
      ensures metadata.View() == old(metadata.View()).(hashes := old(metadata.chunkHashes)[index := hash])
      ensures disk.announced == SaveScript(Encode(metadata.View())) && disk.exec == Exec([], ok)
      ensures ok ==> disk.files == (old(disk.files) - {TmpFile})[MetaFile := Encode(metadata.View())]
      ensures !ok ==> SameExcept(old(disk.files), disk.files, {TmpFile})
      ensures if ok then disk.faults == old(disk.faults) else disk.faults > old(disk.faults)
    {
      hide ExecStep, Encode;
      receivedChunks := receivedChunks[index := true];
      metadata.AddChunk(index, hash);
      disk.Announce(SaveScript(Encode(metadata.View())));
      ok := metadata.Save(disk);
    }

    /** Hash check, part write, record. The acknowledgement is positive only when all of it
        succeeded; when the disk failed the transfer is marked as failed. */
    method VerifyAndWriteChunk(disk: Disk, index: nat, data: Bytes, hash: Digest) returns (ack: bool)
      requires Valid() && disk.exec.todo == [] && index < offer.numChunks
      modifies this`receivedChunks, this`failed, metadata, disk
      ensures Valid() && metadata == old(metadata) && disk.exec.todo == []
      ensures if h(data) != hash then !ack && View(disk.files) == old(View(disk.files))
              else Stored(old(View(disk.files)), View(disk.files), index, data, hash, ack)
      ensures h(data) == hash && !ack ==> disk.faults > old(disk.faults)
      ensures h(data) != hash || ack ==> disk.faults == old(disk.faults)
    {
      hide ExecStep, Encode, Messages.ReceivedSet, Stored, Noted;
      ghost var s0 := View(disk.files);
      if h(data) != hash {
        return false;
      }
      disk.Announce([Op.Write(Part(index), data)]);
      ack := disk.Write(Part(index), data);
      if !ack {
        failed := true;
        NotWritten(s0, View(disk.files), index, data, hash);
        return;
      }
      ack := RecordChunk(disk, index, hash);
      NotedNow(s0, View(disk.files), index, hash);
      if !ack {
        failed := true;
        NotSaved(s0, View(disk.files), index, data, hash);
        return;
      }
      AllStored(s0, View(disk.files), index, data, hash);
    }

    /** The chunk a frame carries is accepted: in range, exactly the expected size, right hash. */
    predicate Accepts(frame: Bytes)
    {
      var c := Messages.ParseChunk(frame);
      c.ChunkFrame? && RightSize(offer, c.index, |c.data|) && h(c.data) == c.hash
    }

    /** A chunk of the wrong size gets no answer, one with a wrong hash a negative one; neither
        changes anything. An accepted chunk is on disk and recorded when it is acknowledged. */
    method ProcessChunk(disk: Disk, frame: Bytes) returns (reply: Answer)
      requires Valid() && disk.exec.todo == []
      modifies this`receivedChunks, this`failed, metadata, disk
      ensures Valid() && metadata == old(metadata) && disk.exec.todo == []
      ensures !Accepts(frame) ==>
                && View(disk.files) == old(View(disk.files))
                && (reply == Panic <==> |frame| < Messages.CHUNK_HEADER)
                && (reply == AckByte(false) <==>
                     var c := Messages.ParseChunk(frame);
                     c.ChunkFrame? && RightSize(offer, c.index, |c.data|))
                && reply != AckByte(true)
      ensures Accepts(frame) ==>
                var c := Messages.ParseChunk(frame);
                reply.AckByte? && Stored(old(View(disk.files)), View(disk.files), c.index, c.data, c.hash, reply.ok)
      ensures disk.faults > old(disk.faults) <==> Accepts(frame) && reply == AckByte(false)
    {
      match Messages.ParseChunk(frame)
      case OutOfBounds =>
        reply := Panic;
      case TooShort =>
        reply := NoAnswer;
      case ChunkFrame(index, data, hash) =>
        if !RightSize(offer, index, |data|) {
          return NoAnswer;
        }
        var ok := VerifyAndWriteChunk(disk, index, data, hash);
        reply := AckByte(ok);
    }

    /** Performs the plan step by step. Parts that verified are never touched; if no disk
        operation fails, the disk is exactly what the plan makes of it. */
    method LoadOrPurgeMetadata(disk: Disk)
      returns (found: Option<TransferMetadata>, ghost order: seq<nat>, ghost clean: bool)
      requires disk.exec.todo == []
      modifies disk
      ensures LoadOrder(old(disk.files), order)
      ensures var plan := LoadPlan(h, old(disk.files), offer, order);
              && disk.announced == plan.script && disk.exec.todo == []
              && (found.Some? <==> plan.found.Some?)
              && (found.Some? ==> fresh(found.value) && found.value.View() == plan.found.value)
              && (clean ==> disk.files == AppliedAll(plan.script, old(disk.files)))
              && (plan.found.Some? ==> forall i :: i in plan.found.value.hashes ==>
                    && Part(i) in old(disk.files) && Part(i) in disk.files
                    && disk.files[Part(i)] == old(disk.files)[Part(i)])
      ensures if clean then disk.faults == old(disk.faults) else disk.faults > old(disk.faults)
    {
      hide ExecStep, Decode, Encode, KeySet, Distinct, FailedParts, LoadPlan, LoadOrder, GoodHashes, Kept, Verifies;
      order, clean := [], true;
      PlanCases(h, disk.files, offer, order);
      var loaded := TransferMetadata.Load(disk);
      if loaded == Ok(None) {
        disk.Announce([]);
        assert AppliedAll([], disk.files) == disk.files;
        EmptyOrder(disk.files);
        return None, order, clean;
      }
      if loaded.Err? {
        disk.Announce(PurgeScript(offer.numChunks));
        EmptyOrder(disk.files);
        clean := TransferMetadata.Purge(disk, offer.numChunks);
        return None, order, clean;
      }
      var meta := loaded.value.value;
      ghost var fs, m := disk.files, meta.View();
      var keys := Iterate(meta.chunkHashes);
      order := keys;
      assert LoadOrder(fs, order) by { MetaOrder(fs, order, meta); }
      PlanCases(h, fs, offer, order);
      if !Matches(meta.View(), offer) {
        disk.Announce(PurgeScript(offer.numChunks));
        clean := TransferMetadata.Purge(disk, offer.numChunks);
        return None, order, clean;
      }
      ghost var tail := AfterLoop(h, m, fs, offer, keys);
      disk.Announce(FailedParts(h, m, fs, keys) + tail);
      var valid, corrupt, removed := RemoveCorrupt(disk, meta, keys, tail);
      clean := removed;
      LoopOutcome(h, m, fs, keys, valid, corrupt);
      KeptGood(h, m, fs, disk.files, keys);
      if corrupt > 0 {
        if valid == [] {
          var all := TransferMetadata.Purge(disk, offer.numChunks);
          clean := clean && all;
          return None, order, clean;
        }
        var cleanMeta := CleanMeta(meta, valid, fs);
        ghost var before := disk.files;
        var saved := cleanMeta.Save(disk);
        if saved {
          SaveApplied(Encode(cleanMeta.View()), before);
        }
        clean := clean && saved;
        return Some(cleanMeta), order, clean;
      }
      return Some(meta), order, clean;
    }

    /** The loop over the stored entries: corrupt parts are removed, the others counted as valid. */
    method RemoveCorrupt(disk: Disk, meta: TransferMetadata, keys: seq<nat>, ghost tail: seq<Op>)
      returns (valid: seq<nat>, corrupt: nat, ghost clean: bool)
      requires Distinct(keys)
      requires disk.exec == Exec(FailedParts(h, meta.View(), disk.files, keys) + tail, true)
      modifies disk`files, disk`exec, disk`faults
      ensures disk.exec == Exec(tail, true)
      ensures corrupt == |FailedParts(h, meta.View(), old(disk.files), keys)|
      ensures forall i :: i in valid <==> i in keys && Verifies(h, meta.View(), old(disk.files), i)
      ensures Kept(h, meta.View(), old(disk.files), disk.files, keys)
      ensures clean ==> AppliedAll(old(disk.exec).todo, old(disk.files)) == AppliedAll(tail, disk.files)
      ensures if clean then disk.faults == old(disk.faults) else disk.faults > old(disk.faults)
    {
      hide ExecStep, FailedParts, Verifies, Kept;
      ghost var fs, m := disk.files, meta.View();
      valid, corrupt, clean := [], 0, true;
      assert keys[0..] == keys;
      NothingKept(h, m, fs);
      for t := 0 to |keys|
        invariant disk.exec == Exec(FailedParts(h, m, fs, keys[t..]) + tail, true)
        invariant meta.View() == m
        invariant corrupt + |FailedParts(h, m, fs, keys[t..])| == |FailedParts(h, m, fs, keys)|
        invariant forall i :: i in valid <==> i in keys[..t] && Verifies(h, m, fs, i)
        invariant Kept(h, m, fs, disk.files, keys[..t])
        invariant clean ==> AppliedAll(disk.exec.todo, disk.files) == AppliedAll(old(disk.exec).todo, fs)
        invariant if clean then disk.faults == old(disk.faults) else disk.faults > old(disk.faults)
      {
        var idx := keys[t];
        VisitKey(h, m, fs, disk.files, keys, t, tail);
        var ok := meta.VerifyPart(h, disk, idx);
        if ok {
          valid := valid + [idx];
        } else {
          var removed := disk.Remove(Part(idx));
          clean := clean && removed;
          corrupt := corrupt + 1;
        }
      }
      assert keys[..|keys|] == keys && keys[|keys|..] == [];
      NoneFailed(h, m, fs, []);
      assert [] + tail == tail;
    }

    /** The fresh record with the entries that verified. */
    method CleanMeta(meta: TransferMetadata, valid: seq<nat>, ghost fs: Files) returns (cleanMeta: TransferMetadata)
      requires Matches(meta.View(), offer)
      requires forall i :: i in valid <==> i in meta.chunkHashes && Verifies(h, meta.View(), fs, i)
      ensures fresh(cleanMeta)
      ensures cleanMeta.View() == meta.View().(hashes := GoodHashes(h, meta.View(), fs))
    {
      cleanMeta := new TransferMetadata(offer.chunkSize, offer.numChunks, offer.fileSize, offer.fullHash);
      for t := 0 to |valid|
        invariant cleanMeta.View() == meta.View().(hashes := cleanMeta.chunkHashes)
        invariant forall i :: i in cleanMeta.chunkHashes <==> i in valid[..t]
        invariant forall i :: i in cleanMeta.chunkHashes ==>
                    i in meta.chunkHashes && cleanMeta.chunkHashes[i] == meta.chunkHashes[i]
      {
        var idx := valid[t];
        assert idx in valid && valid[..t + 1] == valid[..t] + [idx];
        cleanMeta.AddChunk(idx, meta.chunkHashes[idx]);
      }
      assert valid[..|valid|] == valid;
    }

    /** What the control handler does with the result: flags for every key of the metadata found.
        A key beyond the announced number of chunks is an index out of bounds (`Err`). */
    method Resume(disk: Disk) returns (allPresent: Result<bool>, ghost order: seq<nat>)
      requires Valid() && disk.exec.todo == []
      requires forall i :: 0 <= i < |receivedChunks| ==> !receivedChunks[i]
      modifies this, disk
      ensures LoadOrder(old(disk.files), order)
      ensures var plan := LoadPlan(h, old(disk.files), offer, order);
              && disk.announced == plan.script && disk.exec.todo == []
              && (allPresent.Err? <==>
                    plan.found.Some? && exists i :: i in plan.found.value.hashes && i >= offer.numChunks)
              && (allPresent.Ok? ==> Valid() && failed == old(failed))
              && (allPresent.Ok? && plan.found.Some? ==>
                    && metadata.View() == plan.found.value
                    && Messages.ReceivedSet(receivedChunks) == plan.found.value.hashes.Keys
                    && (allPresent.value <==> forall i :: 0 <= i < offer.numChunks ==> receivedChunks[i]))
              && (plan.found.None? ==> allPresent == Ok(false) && receivedChunks == old(receivedChunks))
    {
      hide LoadPlan, LoadOrder, KeySet, Distinct;
      var found, visited, _ := LoadOrPurgeMetadata(disk);
      order := visited;
      if found.None? {
        return Ok(false), order;
      }
      FoundMatches(h, old(disk.files), offer, order);
      var keys := Iterate(found.value.chunkHashes);
      assert forall i :: i in keys <==> i in found.value.chunkHashes by {
        assert forall i :: i in keys <==> i in KeySet(keys);
      }
      for t := 0 to |keys|
        invariant |receivedChunks| == offer.numChunks && failed == old(failed)
        invariant forall i :: 0 <= i < offer.numChunks ==> (receivedChunks[i] <==> i in keys[..t])
        invariant forall i :: i in keys[..t] ==> i < offer.numChunks
        modifies this`receivedChunks
      {
        var idx := keys[t];
        assert keys[..t + 1] == keys[..t] + [idx];
        assert idx in keys;
        if idx >= offer.numChunks {
          return Err, order;
        }
        receivedChunks := receivedChunks[idx := true];
      }
      assert keys[..|keys|] == keys;
      metadata := found.value;
      var all := IsComplete();
      return Ok(all), order;
    }

    /** Destructive assembly. Success means: the output is exactly the parts joined in index
        order and hashes to the announced digest. At every exit the parts copied so far are gone,
        all others are untouched. */
    method Assemble(disk: Disk) returns (r: Result<bool>, ghost k: nat)
      requires disk.exec.todo == []
      modifies disk
      ensures disk.announced == AssembleScript(offer.numChunks) && disk.exec.todo == []
      ensures k <= offer.numChunks && Assembling(old(disk.files), disk.files, k)
      ensures r.Ok? && k == offer.numChunks ==>
                && OutFile in disk.files && disk.files[OutFile] == JoinParts(old(disk.files), k)
                && r.value == (h(disk.files[OutFile]) == offer.fullHash)
      ensures r.Ok? && k < offer.numChunks ==> r.value == false && Part(k) !in old(disk.files)
      ensures r.Err? ==> disk.faults > old(disk.faults)
      ensures r.Ok? && k == offer.numChunks && disk.faults == old(disk.faults) ==> MetaFile !in disk.files
    {
      hide ExecStep, Assembling, Holds, AssembleFrom, JoinParts;
      var n := offer.numChunks;
      ghost var fs := disk.files;
      k := 0;
      disk.Announce(AssembleScript(n));
      ScriptParts(n);
      var hashed: Bytes := [];
      var ok := disk.Write(OutFile, []);
      AssemblyStarts(fs, disk.files);
      if !ok {
        return Err, k;
      }
      var i := 0;
      while i < n
        invariant i <= n && k == i && Assembling(fs, disk.files, i)
        invariant OutFile in disk.files && Holds(fs, disk.files, hashed, i)
        invariant disk.exec == Exec(AssembleFrom(i, n), true) && disk.faults == old(disk.faults)
        modifies disk`files, disk`exec, disk`faults
      {
        ghost var now, seen := disk.files, hashed;
        FromPart(i, n);
        PartMissing(fs, now, i);
        HoldsHashed(fs, now, hashed, i);
        if Part(i) !in disk.files {
          disk.Abandon(Part(i));
          return Ok(false), k;
        }
        ghost var rest := [Op.MustRemove(Part(i))] + AssembleFrom(i + 1, n);
        var copied := CopyPart(disk, i, hashed, rest);
        if copied.Err? {
          OnlyOutput(fs, now, disk.files, i);
          return Err, k;
        }
        hashed := copied.value;
        OnlyOutput(fs, now, disk.files, i);
        ok := disk.MustRemove(Part(i));
        if !ok {
          return Err, k;
        }
        PartDone(fs, now, disk.files, seen, i);
        i, k := i + 1, k + 1;
      }
      ghost var last := disk.files;
      FromEnd(n);
      var _ := disk.Remove(MetaFile);
      AssemblyEnds(fs, last, disk.files, hashed, n);
      return Ok(h(hashed) == offer.fullHash), k;
    }

    /** The 64 KiB copy loop of one part; the hasher has seen what was written. */
    method CopyPart(disk: Disk, i: nat, hashed: Bytes, ghost rest: seq<Op>) returns (r: Result<Bytes>)
      requires disk.exec == Exec([Copy(Part(i), 0)] + rest, true)
      requires Part(i) in disk.files && OutFile in disk.files && disk.files[OutFile] == hashed
      modifies disk`files, disk`exec, disk`faults
      ensures r.Ok? ==> disk.exec == Exec(rest, true) && r.value == hashed + old(disk.files)[Part(i)]
      ensures r.Ok? ==> disk.files == old(disk.files)[OutFile := r.value]
      ensures r.Err? ==> disk.exec == FAILED && SameExcept(old(disk.files), disk.files, {OutFile})
      ensures r.Err? ==> OutFile in disk.files && hashed <= disk.files[OutFile]
      ensures if r.Ok? then disk.faults == old(disk.faults) else disk.faults > old(disk.faults)
    {
      hide ExecStep;
      ghost var fs := disk.files;
      var part := disk.files[Part(i)];
      var off := 0;
      var seen := hashed;
      assert part[..0] == [];
      while true
        invariant off <= |part| && seen == hashed + part[..off]
        invariant disk.files == fs[OutFile := seen]
        invariant disk.exec == Exec([Copy(Part(i), off)] + rest, true) && disk.faults == old(disk.faults)
        decreases |part| - off
      {
        var piece := disk.CopyPiece(Part(i), off);
        if piece.Err? {
          return Err;
        }
        assert ([Copy(Part(i), off)] + rest)[1..] == rest;
        if piece.value == [] {
          break;
        }
        seen := seen + piece.value;
        assert part[..off] + part[off..off + |piece.value|] == part[..off + |piece.value|];
        off := off + |piece.value|;
      }
      assert part[..off] == part;
      return Ok(seen);
    }
  }

  // ----- Steps of the assembly proof ------------------------------------------------------------

  /** The output and the hasher hold the first `k` parts. */
  ghost predicate Holds(before: Files, now: Files, hashed: Bytes, k: nat)
  {
    && (forall i | 0 <= i < k :: Part(i) in before)
    && OutFile in now && now[OutFile] == hashed == JoinParts(before, k)
  }

  lemma AssemblyStarts(fs: Files, now: Files)
    requires SameExcept(fs, now, {OutFile})
    ensures Assembling(fs, now, 0)
    ensures OutFile in now && now[OutFile] == [] ==> Holds(fs, now, [], 0)
  {
  }

  lemma ScriptParts(n: nat)
    ensures AssembleScript(n)[0] == Op.Write(OutFile, []) && AssembleScript(n)[1..] == AssembleFrom(0, n)
  {
  }

  lemma FromPart(k: nat, n: nat)
    requires k < n
    ensures AssembleFrom(k, n) == [Copy(Part(k), 0)] + ([Op.MustRemove(Part(k))] + AssembleFrom(k + 1, n))
    ensures ([Op.MustRemove(Part(k))] + AssembleFrom(k + 1, n))[1..] == AssembleFrom(k + 1, n)
  {
  }

  lemma FromEnd(n: nat)
    ensures AssembleFrom(n, n) == [Remove(MetaFile)]
  {
  }

  lemma PartMissing(fs: Files, now: Files, k: nat)
    requires Assembling(fs, now, k)
    ensures Part(k) in now <==> Part(k) in fs
  {
  }

  lemma HoldsHashed(fs: Files, now: Files, hashed: Bytes, k: nat)
    requires Holds(fs, now, hashed, k)
    ensures now[OutFile] == hashed && forall i | 0 <= i < k :: Part(i) in fs
    ensures hashed == JoinParts(fs, k)
  {
  }

  /** While part `k` is copied only the output grows. */
  lemma OnlyOutput(fs: Files, now: Files, out: Files, k: nat)
    requires Assembling(fs, now, k) && SameExcept(now, out, {OutFile})
    requires OutFile in now && OutFile in out && now[OutFile] <= out[OutFile]
    ensures Assembling(fs, out, k)
  {
  }

  /** Part `k` is in the output and gone. */
  lemma PartDone(fs: Files, now: Files, out: Files, hashed: Bytes, k: nat)
    requires Assembling(fs, now, k) && Holds(fs, now, hashed, k) && Part(k) in now
    requires out == now[OutFile := hashed + now[Part(k)]] - {Part(k)}
    ensures Assembling(fs, out, k + 1) && Holds(fs, out, hashed + now[Part(k)], k + 1)
  {
  }

  lemma AssemblyEnds(fs: Files, last: Files, now: Files, hashed: Bytes, n: nat)
    requires Assembling(fs, last, n) && Holds(fs, last, hashed, n) && SameExcept(last, now, {MetaFile})
    ensures Assembling(fs, now, n) && Holds(fs, now, hashed, n)
    ensures OutFile in now && now[OutFile] == hashed == JoinParts(fs, n)
  {
  }

  /** Only parts of visited entries that do not verify may be gone. */
  ghost predicate Kept(h: Hasher, m: Meta, fs: Files, now: Files, visited: seq<nat>)
  {
    && (forall n :: n in now ==> n in fs && now[n] == fs[n])
    && (forall n :: n in fs && n !in now ==> n.Part? && n.index in visited && !Verifies(h, m, fs, n.index))
  }

  /** One round of the loop: what the script does next, and that the parts still verify as before. */
  lemma VisitKey(h: Hasher, m: Meta, fs: Files, now: Files, keys: seq<nat>, t: nat, tail: seq<Op>)
    requires Distinct(keys) && t < |keys| && Kept(h, m, fs, now, keys[..t])
    ensures keys[..t + 1] == keys[..t] + [keys[t]]
    ensures Verifies(h, m, now, keys[t]) <==> Verifies(h, m, fs, keys[t])
    ensures Kept(h, m, fs, now, keys[..t + 1])
    ensures !Verifies(h, m, fs, keys[t]) ==> Kept(h, m, fs, now - {Part(keys[t])}, keys[..t + 1])
    ensures var script, next := FailedParts(h, m, fs, keys[t..]), FailedParts(h, m, fs, keys[t + 1..]);
            if Verifies(h, m, fs, keys[t]) then script == next
            else script == [Remove(Part(keys[t]))] + next && (script + tail)[0] == Remove(Part(keys[t]))
                 && (script + tail)[1..] == next + tail
  {
    assert keys[t..][0] == keys[t] && keys[t..][1..] == keys[t + 1..];
    assert keys[t] !in keys[..t];
  }

  lemma NothingKept(h: Hasher, m: Meta, fs: Files)
    ensures Kept(h, m, fs, fs, [])
  {
  }

  /** The part of the plan that follows the removals. */
  ghost function AfterLoop(h: Hasher, m: Meta, fs: Files, o: Offer, keys: seq<nat>): seq<Op>
  {
    var good := m.(hashes := GoodHashes(h, m, fs));
    if FailedParts(h, m, fs, keys) == [] then []
    else if good.hashes == map[] then PurgeScript(o.numChunks)
    else SaveScript(Encode(good))
  }

  /** The plan, case by case. */
  lemma PlanCases(h: Hasher, fs: Files, o: Offer, order: seq<nat>)
    ensures MetaFile !in fs ==> LoadPlan(h, fs, o, order) == Plan([], None)
    ensures MetaFile in fs && (Decode(fs[MetaFile]).Err? || !Matches(Decode(fs[MetaFile]).value, o)) ==>
              LoadPlan(h, fs, o, order) == Plan(PurgeScript(o.numChunks), None)
    ensures MetaFile in fs && Decode(fs[MetaFile]).Ok? && Matches(Decode(fs[MetaFile]).value, o) ==>
              var m := Decode(fs[MetaFile]).value;
              var bad, good := FailedParts(h, m, fs, order), m.(hashes := GoodHashes(h, m, fs));
              && LoadPlan(h, fs, o, order).script == bad + AfterLoop(h, m, fs, o, order)
              && LoadPlan(h, fs, o, order).found ==
                   (if bad == [] then Some(m) else if good.hashes == map[] then None else Some(good))
  {
    hide Decode, Encode, FailedParts, GoodHashes;
  }

  lemma EmptyOrder(fs: Files)
    requires MetaFile !in fs || Decode(fs[MetaFile]).Err?
    ensures LoadOrder(fs, [])
  {
    hide Decode;
  }

  lemma MetaOrder(fs: Files, order: seq<nat>, meta: TransferMetadata)
    requires MetaFile in fs && Decode(fs[MetaFile]) == Ok(meta.View())
    requires IterationOrder(order, meta.chunkHashes)
    ensures LoadOrder(fs, order) && Distinct(order)
  {
    hide Decode, Distinct, KeySet;
  }

  /** What the loop has counted decides the same cases as the plan. */
  lemma LoopOutcome(h: Hasher, m: Meta, fs: Files, keys: seq<nat>, valid: seq<nat>, corrupt: nat)
    requires IterationOrder(keys, m.hashes)
    requires forall i :: i in valid <==> i in keys && Verifies(h, m, fs, i)
    requires corrupt == |FailedParts(h, m, fs, keys)|
    ensures corrupt > 0 <==> FailedParts(h, m, fs, keys) != []
    ensures valid == [] <==> GoodHashes(h, m, fs) == map[]
    ensures corrupt == 0 ==> GoodHashes(h, m, fs) == m.hashes
    ensures forall i :: i in valid <==> i in m.hashes && Verifies(h, m, fs, i)
  {
    hide FailedParts;
    assert forall i :: i in keys <==> i in KeySet(keys);
    NoneFailed(h, m, fs, keys);
    assert valid != [] ==> valid[0] in valid && valid[0] in GoodHashes(h, m, fs);
    assert forall i :: i in GoodHashes(h, m, fs) ==> i in valid;
  }

  /** The parts that verify are among those that are kept. */
  lemma KeptGood(h: Hasher, m: Meta, fs: Files, now: Files, visited: seq<nat>)
    requires Kept(h, m, fs, now, visited)
    ensures forall i :: i in GoodHashes(h, m, fs) ==>
              Part(i) in fs && Part(i) in now && now[Part(i)] == fs[Part(i)]
  {
  }

  /** Metadata that is returned has the parameters of the handshake. */
  lemma FoundMatches(h: Hasher, fs: Files, o: Offer, order: seq<nat>)
    ensures var found := LoadPlan(h, fs, o, order).found; found.Some? ==> Matches(found.value, o)
  {
    hide Decode;
  }

  lemma SaveApplied(data: Bytes, fs: Files)
    ensures AppliedAll(SaveScript(data), fs) == (fs - {TmpFile})[MetaFile := data]
  {
    var s, mid := SaveScript(data), fs[TmpFile := data];
    assert s[1..] == [Rename(TmpFile, MetaFile)] && s[1..][1..] == [];
    assert AppliedAll(s, fs) == AppliedAll(s[1..], mid) == AppliedAll([], (mid - {TmpFile})[MetaFile := data]);
    assert mid - {TmpFile} == fs - {TmpFile};
  }
}
