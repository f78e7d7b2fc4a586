/** `.bee-meta`: the binary codec and the crash-safe persistence of transfer metadata. */
module Metadata {
  import opened Wire
  import opened Storage

  const MAGIC: Bytes := [0x42, 0x45, 0x4D, 0x54]  // "BEMT"
  const VERSION: byte := 1
  const HEADER_SIZE: nat := 57
  const ENTRY_SIZE: nat := 36

  type Hashes = map<nat, Digest>

  /** The value of a metadata record. */
  datatype Meta = Meta(chunkSize: nat, numChunks: nat, fileSize: nat, fullHash: Digest, hashes: Hashes)

  // ----- Orders of iteration ----------------------------------------------------------------

  ghost predicate Distinct(keys: seq<nat>)
  {
    forall i, j :: 0 <= i < j < |keys| ==> keys[i] != keys[j]
  }

  ghost function KeySet(keys: seq<nat>): (r: set<nat>)
    ensures forall k :: k in r <==> k in keys
  {
    if keys == [] then {} else KeySet(keys[..|keys| - 1]) + {keys[|keys| - 1]}
  }

  lemma KeySetAppend(keys: seq<nat>, k: nat)
    ensures KeySet(keys + [k]) == KeySet(keys) + {k}
  {
    assert (keys + [k])[..|keys|] == keys;
  }

  /** An order in which a `HashMap` may be iterated. */
  ghost predicate IterationOrder(keys: seq<nat>, hashes: Hashes)
  {
    Distinct(keys) && KeySet(keys) == hashes.Keys
  }

  lemma {:induction false} GreatestExists(s: set<nat>) returns (m: nat)
    requires s != {}
    ensures m in s && forall k :: k in s ==> k <= m
  {
    var x :| x in s;
    m := x;
    if s - {x} != {} {
      var rest := GreatestExists(s - {x});
      m := if x < rest then rest else x;
    }
    forall k | k in s
      ensures k <= m
    {
      assert k == x || k in s - {x};
    }
  }

  ghost predicate Greatest(m: nat, s: set<nat>)
  {
    m in s && forall k :: k in s ==> k <= m
  }

  /** The increasing enumeration of a set. */
  ghost function SortedKeys(s: set<nat>): (keys: seq<nat>)
    ensures Increasing(keys) && KeySet(keys) == s && |keys| == |s|
  {
    if s == {} then []
    else
      assert exists m :: Greatest(m, s) by { var m := GreatestExists(s); assert Greatest(m, s); }
      var m :| Greatest(m, s);
      var front := SortedKeys(s - {m});
      AppendGreatest(front, m, s);
      front + [m]
  }

  lemma AppendGreatest(front: seq<nat>, m: nat, s: set<nat>)
    requires Greatest(m, s)
    requires Increasing(front) && KeySet(front) == s - {m} && |front| == |s - {m}|
    ensures Increasing(front + [m]) && KeySet(front + [m]) == s && |front + [m]| == |s|
  {
    KeySetAppend(front, m);
    forall i | 0 <= i < |front|
      ensures front[i] < m
    {
      assert front[i] in KeySet(front);
    }
  }

  /** A set has one increasing enumeration only. */
  lemma {:induction false} IncreasingIsUnique(a: seq<nat>)
    requires Increasing(a)
    ensures a == SortedKeys(KeySet(a))
  {
    var s := KeySet(a);
    if a != [] {
      var front, x := a[..|a| - 1], a[|a| - 1];
      assert a == front + [x];
      KeySetAppend(front, x);
      assert x !in KeySet(front);
      assert s - {x} == KeySet(front);
      assert Greatest(x, s);
      assert forall m :: Greatest(m, s) ==> m == x;
      IncreasingIsUnique(front);
    }
  }

  /** `HashMap` iteration: some order of the keys, nothing else is known. */
  method Iterate(hashes: Hashes) returns (keys: seq<nat>)
    ensures IterationOrder(keys, hashes)
  {
    keys := [];
    var left := hashes.Keys;
    while left != {}
      invariant left <= hashes.Keys && Distinct(keys)
      invariant KeySet(keys) == hashes.Keys - left
      decreases |left|
    {
      var k :| k in left;
      DistinctAppend(keys, k);
      keys := keys + [k];
      left := left - {k};
    }
  }

  lemma DistinctAppend(keys: seq<nat>, k: nat)
    requires Distinct(keys) && k !in KeySet(keys)
    ensures Distinct(keys + [k]) && KeySet(keys + [k]) == KeySet(keys) + {k}
  {
    KeySetAppend(keys, k);
  }

  function Inserted(sorted: seq<nat>, p: nat, x: nat): seq<nat>
    requires p <= |sorted|
  {
    sorted[..p] + [x] + sorted[p..]
  }

  lemma {:induction false} KeySetInsert(sorted: seq<nat>, p: nat, x: nat)
    requires p <= |sorted|
    ensures KeySet(Inserted(sorted, p, x)) == KeySet(sorted) + {x}
  {
    hide KeySet;
    if p == |sorted| {
      assert Inserted(sorted, p, x) == sorted + [x];
      KeySetAppend(sorted, x);
    } else {
      var front, last := sorted[..|sorted| - 1], sorted[|sorted| - 1];
      KeySetInsert(front, p, x);
      assert sorted == front + [last];
      assert Inserted(sorted, p, x) == Inserted(front, p, x) + [last];
      KeySetAppend(front, last);
      KeySetAppend(Inserted(front, p, x), last);
    }
  }

  lemma InsertStep(keys: seq<nat>, n: nat, sorted: seq<nat>, p: nat)
    requires n < |keys| && Distinct(keys) && p <= |sorted|
    requires Increasing(sorted) && KeySet(sorted) == KeySet(keys[..n])
    requires p > 0 ==> sorted[p - 1] <= keys[n]
    requires p < |sorted| ==> keys[n] < sorted[p]
    ensures Increasing(Inserted(sorted, p, keys[n]))
    ensures KeySet(Inserted(sorted, p, keys[n])) == KeySet(keys[..n + 1])
  {
    hide KeySet;
    var x := keys[n];
    assert keys[..n + 1] == keys[..n] + [x];
    KeySetAppend(keys[..n], x);
    KeySetInsert(sorted, p, x);
    assert p > 0 ==> sorted[p - 1] in KeySet(sorted) && sorted[p - 1] in keys[..n];
    assert p > 0 ==> sorted[p - 1] != x;
    InsertKeepsOrder(sorted, p, x);
  }

  lemma InsertKeepsOrder(sorted: seq<nat>, p: nat, x: nat)
    requires p <= |sorted| && Increasing(sorted)
    requires p > 0 ==> sorted[p - 1] < x
    requires p < |sorted| ==> x < sorted[p]
    ensures Increasing(Inserted(sorted, p, x))
  {
  }

  /** `sort_by_key` on distinct keys. */
  method Sort(keys: seq<nat>) returns (sorted: seq<nat>)
    requires Distinct(keys)
    ensures sorted == SortedKeys(KeySet(keys))
  {
    hide KeySet, SortedKeys, Distinct;
    sorted := [];
    for n := 0 to |keys|
      invariant Increasing(sorted) && KeySet(sorted) == KeySet(keys[..n])
    {
      var x := keys[n];
      var p := |sorted|;
      while p > 0 && x < sorted[p - 1]
        invariant 0 <= p <= |sorted|
        invariant forall q :: p <= q < |sorted| ==> x < sorted[q]
      {
        p := p - 1;
      }
      InsertStep(keys, n, sorted, p);
      sorted := Inserted(sorted, p, x);
    }
    assert keys[..|keys|] == keys;
    IncreasingIsUnique(sorted);
  }

  // ----- The format ---------------------------------------------------------------------------

  function Entry(k: nat, hash: Digest): (r: Bytes)
    ensures |r| == ENTRY_SIZE
  {
    BE(k, 4) + hash
  }

  function Entries(keys: seq<nat>, hashes: Hashes): (r: Bytes)
    requires forall k :: k in keys ==> k in hashes
    ensures |r| == |keys| * ENTRY_SIZE
  {
    if keys == [] then []
    else
      var last := keys[|keys| - 1];
      Entries(keys[..|keys| - 1], hashes) + Entry(last, hashes[last])
  }

  function Header(m: Meta): (r: Bytes)
    ensures |r| == HEADER_SIZE
  {
    MAGIC + [VERSION] + BE(m.chunkSize, 4) + BE(m.numChunks, 4) + BE(m.fileSize, 8)
    + m.fullHash + BE(|m.hashes|, 4)
  }

  /** What `to_bytes` writes; stated without any iteration order. */
  ghost function Encode(m: Meta): (r: Bytes)
    ensures |r| == HEADER_SIZE + |m.hashes| * ENTRY_SIZE
  {
    var keys := SortedKeys(m.hashes.Keys);
    assert forall k :: k in keys ==> k in KeySet(keys);
    Header(m) + Entries(keys, m.hashes)
  }

  /** The map after the first `n` entries were inserted. */
  function ReadEntries(data: Bytes, n: nat): (r: Hashes)
    requires |data| >= HEADER_SIZE + n * ENTRY_SIZE
  {
    if n == 0 then map[]
    else
      var o := HEADER_SIZE + (n - 1) * ENTRY_SIZE;
      ReadEntries(data, n - 1)[FromBE(data[o..o + 4]) := data[o + 4..o + 36]]
  }

  /** What `from_bytes` accepts: long enough, right magic and version, all announced entries there. */
  function Decode(data: Bytes): Result<Meta>
  {
    if |data| < HEADER_SIZE || data[0..4] != MAGIC || data[4] != VERSION then Err
    else
      var count := FromBE(data[53..57]);
      if |data| < HEADER_SIZE + count * ENTRY_SIZE then Err
      else Ok(Meta(FromBE(data[5..9]), FromBE(data[9..13]), FromBE(data[13..21]), data[21..53],
                   ReadEntries(data, count)))
  }

  /** Exactly what is accepted: "BEMT", version 1, and all the entries that are announced. */
  lemma AcceptedIff(data: Bytes)
    ensures Decode(data).Ok? <==>
              && |data| >= 57 && data[..4] == [0x42, 0x45, 0x4D, 0x54] && data[4] == 1
              && |data| >= 57 + 36 * FromBE(data[53..57])
  {
  }

  /** Every field fits the width it is written with. */
  ghost predicate InRange(m: Meta)
  {
    && m.chunkSize < U32 && m.numChunks < U32 && m.fileSize < U64 && |m.hashes| < U32
    && forall k :: k in m.hashes ==> k < U32
  }

  lemma HeaderFields(m: Meta, tail: Bytes)
    ensures var b := Header(m) + tail;
            && b[0..4] == MAGIC && b[4] == VERSION
            && b[5..9] == BE(m.chunkSize, 4) && b[9..13] == BE(m.numChunks, 4)
            && b[13..21] == BE(m.fileSize, 8) && b[21..53] == m.fullHash
            && b[53..57] == BE(|m.hashes|, 4)
  {
  }

  /** The header of an encoding, field by field. */
  lemma Layout(m: Meta)
    ensures var b := Encode(m);
            && b[0..4] == MAGIC && b[4] == VERSION
            && b[5..9] == BE(m.chunkSize, 4) && b[9..13] == BE(m.numChunks, 4)
            && b[13..21] == BE(m.fileSize, 8) && b[21..53] == m.fullHash
            && b[53..57] == BE(|m.hashes|, 4)
  {
    var keys := SortedKeys(m.hashes.Keys);
    assert forall k :: k in keys ==> k in KeySet(keys);
    HeaderFields(m, Entries(keys, m.hashes));
  }

  /** Entry `i` of an encoding stands where the reader looks for it. */
  lemma EntryField(m: Meta, i: nat)
    requires i < |m.hashes|
    ensures var keys, o := SortedKeys(m.hashes.Keys), HEADER_SIZE + i * ENTRY_SIZE;
            && keys[i] in m.hashes
            && Encode(m)[o..o + 4] == BE(keys[i], 4)
            && Encode(m)[o + 4..o + 36] == m.hashes[keys[i]]
  {
    hide Increasing, SortedKeys, KeySet, Header, BE, Entries;
    var keys := SortedKeys(m.hashes.Keys);
    assert forall k :: k in keys ==> k in KeySet(keys);
    EntryAt(keys, m.hashes, i);
    PickEntry(Header(m), Entries(keys, m.hashes), i, BE(keys[i], 4), m.hashes[keys[i]]);
  }

  lemma PickEntry(header: Bytes, entries: Bytes, i: nat, index: Bytes, hash: Digest)
    requires |header| == HEADER_SIZE && (i + 1) * ENTRY_SIZE <= |entries| && |index| == 4
    requires entries[i * ENTRY_SIZE..(i + 1) * ENTRY_SIZE] == index + hash
    ensures var b, o := header + entries, HEADER_SIZE + i * ENTRY_SIZE;
            b[o..o + 4] == index && b[o + 4..o + 36] == hash
  {
    var b, o, e := header + entries, HEADER_SIZE + i * ENTRY_SIZE, index + hash;
    assert b[o..o + 36] == e;
    assert b[o..o + 4] == e[..4] && b[o + 4..o + 36] == e[4..];
  }

  /** Entry `i` stands where the reader looks for it. */
  lemma {:induction false} EntryAt(keys: seq<nat>, hashes: Hashes, i: nat)
    requires forall k :: k in keys ==> k in hashes
    requires i < |keys|
    ensures Entries(keys, hashes)[i * ENTRY_SIZE..(i + 1) * ENTRY_SIZE] == Entry(keys[i], hashes[keys[i]])
  {
    hide Entry;
    var front, last := keys[..|keys| - 1], keys[|keys| - 1];
    var a, b := Entries(front, hashes), Entry(last, hashes[last]);
    if i < |keys| - 1 {
      EntryAt(front, hashes, i);
      SliceInFront(a, b, i * ENTRY_SIZE, (i + 1) * ENTRY_SIZE);
      assert front[i] == keys[i];
    } else {
      assert |a| == i * ENTRY_SIZE && (a + b)[|a|..|a| + |b|] == b;
    }
  }

  lemma SliceInFront(a: Bytes, b: Bytes, lo: nat, hi: nat)
    requires lo <= hi <= |a|
    ensures (a + b)[lo..hi] == a[lo..hi]
  {
  }

  /** Reading the first `n` entries of an encoding gives the hashes of its `n` smallest keys. */
  lemma {:induction false} ReadBack(m: Meta, n: nat)
    requires n <= |m.hashes| && forall k :: k in m.hashes ==> k < U32
    ensures var keys := SortedKeys(m.hashes.Keys);
            ReadEntries(Encode(m), n) == map k | k in m.hashes && k in keys[..n] :: m.hashes[k]
  {
    hide Encode, Increasing, SortedKeys, KeySet, BE, FromBE;
    var keys := SortedKeys(m.hashes.Keys);
    if n > 0 {
      ReadBack(m, n - 1);
      EntryField(m, n - 1);
      Widths();
      BERoundTrip(keys[n - 1], 4);
      OneMoreKey(m.hashes, keys, n);
    }
  }

  lemma OneMoreKey(hashes: Hashes, keys: seq<nat>, n: nat)
    requires 0 < n <= |keys| && keys[n - 1] in hashes
    ensures (map k | k in hashes && k in keys[..n - 1] :: hashes[k])[keys[n - 1] := hashes[keys[n - 1]]]
         == map k | k in hashes && k in keys[..n] :: hashes[k]
  {
    assert keys[..n] == keys[..n - 1] + [keys[n - 1]];
  }

  lemma {:induction false} ReadEntriesRange(data: Bytes, n: nat)
    requires |data| >= HEADER_SIZE + n * ENTRY_SIZE
    ensures |ReadEntries(data, n)| <= n
    ensures forall k :: k in ReadEntries(data, n) ==> k < U32
  {
    if n > 0 {
      ReadEntriesRange(data, n - 1);
      var o := HEADER_SIZE + (n - 1) * ENTRY_SIZE;
      FromBERange(data[o..o + 4]);
      Widths();
      var before, k := ReadEntries(data, n - 1), FromBE(data[o..o + 4]);
      assert ReadEntries(data, n).Keys == before.Keys + {k};
    }
  }

  /** Whatever is decoded fits the field widths. */
  lemma DecodedInRange(data: Bytes)
    ensures Decode(data).Ok? ==> InRange(Decode(data).value)
  {
    if Decode(data).Ok? {
      FromBERange(data[5..9]);
      FromBERange(data[9..13]);
      FromBERange(data[13..21]);
      FromBERange(data[53..57]);
      Widths();
      ReadEntriesRange(data, FromBE(data[53..57]));
    }
  }

  /** The round trip holds exactly for metadata whose fields fit their widths. */
  lemma RoundTrip(m: Meta)
    ensures Decode(Encode(m)) == Ok(m) <==> InRange(m)
  {
    hide Encode, ReadEntries, Increasing, SortedKeys, KeySet, BE, FromBE;
    DecodedInRange(Encode(m));
    if InRange(m) {
      var keys := SortedKeys(m.hashes.Keys);
      Layout(m);
      Widths();
      BERoundTrip(m.chunkSize, 4);
      BERoundTrip(m.numChunks, 4);
      BERoundTrip(m.fileSize, 8);
      BERoundTrip(|m.hashes|, 4);
      ReadBack(m, |m.hashes|);
      assert keys[..|m.hashes|] == keys;
      assert forall k :: k in m.hashes ==> k in KeySet(keys);
      assert ReadEntries(Encode(m), |m.hashes|) == m.hashes;
    }
  }

  /** Two records with the same bytes are the same record. */
  lemma EncodeInjective(a: Meta, b: Meta)
    requires InRange(a) && InRange(b) && Encode(a) == Encode(b)
    ensures a == b
  {
    RoundTrip(a);
    RoundTrip(b);
  }

  /** A record that was cut short anywhere is rejected, never read as a smaller one. */
  lemma TruncatedIsRejected(m: Meta, k: nat)
    requires InRange(m) && k <= |Encode(m)|
    ensures Decode(Encode(m)[..k]).Ok? <==> k == |Encode(m)|
  {
    hide Encode, ReadEntries;
    var data := Encode(m);
    RoundTrip(m);
    assert data[..|data|] == data;
    if HEADER_SIZE <= k < |data| {
      Layout(m);
      assert data[..k][53..57] == data[53..57];
      Widths();
      BERoundTrip(|m.hashes|, 4);
    }
  }

  // ----- Persistence --------------------------------------------------------------------------

  /** `save`: write a temporary file, then rename it over the metadata. */
  ghost function SaveScript(data: Bytes): seq<Op>
  {
    [Write(TmpFile, data), Rename(TmpFile, MetaFile)]
  }

  function RemoveParts(n: nat): seq<Op>
  {
    seq(n, (i: nat) => Remove(Part(i)))
  }

  /** `purge`: the metadata first, then every part of the new numbering. */
  function PurgeScript(numChunks: nat): seq<Op>
  {
    [Remove(MetaFile)] + RemoveParts(numChunks)
  }

  function ParamsMatch(m: Meta, chunkSize: nat, numChunks: nat, fileSize: nat, fullHash: Digest): bool
  {
    && m.chunkSize == chunkSize && m.numChunks == numChunks
    && m.fileSize == fileSize && m.fullHash == fullHash
  }

  /** A part verifies if it is there and hashes to its recorded value. */
  predicate Verifies(h: Hasher, m: Meta, fs: Files, i: nat)
  {
    i in m.hashes && Part(i) in fs && h(fs[Part(i)]) == m.hashes[i]
  }

  class TransferMetadata {
    const chunkSize: nat
    const numChunks: nat
    const fileSize: nat
    const fullHash: Digest
    var chunkHashes: Hashes

    /** The record's value. */
    function View(): Meta
      reads this
    {
      Meta(chunkSize, numChunks, fileSize, fullHash, chunkHashes)
    }

    constructor (chunkSize: nat, numChunks: nat, fileSize: nat, fullHash: Digest)
      ensures View() == Meta(chunkSize, numChunks, fileSize, fullHash, map[])
    {
      this.chunkSize, this.numChunks, this.fileSize, this.fullHash := chunkSize, numChunks, fileSize, fullHash;
      chunkHashes := map[];
    }

    method AddChunk(index: nat, hash: Digest)
      modifies this
      ensures View() == old(View()).(hashes := old(chunkHashes)[index := hash])
    {
      chunkHashes := chunkHashes[index := hash];
    }

    /** Independent of the order in which the map is iterated. */
    method ToBytes() returns (buf: Bytes)
      ensures buf == Encode(View())
    {
      hide Increasing, Distinct, SortedKeys, KeySet, BE;
      buf := MAGIC;
      buf := buf + [VERSION];
      buf := buf + BE(chunkSize, 4);
      buf := buf + BE(numChunks, 4);
      buf := buf + BE(fileSize, 8);
      buf := buf + fullHash;
      buf := buf + BE(|chunkHashes|, 4);
      var entries := Iterate(chunkHashes);
      entries := Sort(entries);
      assert forall k :: k in entries ==> k in KeySet(entries);
      ghost var header := buf;
      for n := 0 to |entries|
        invariant buf == header + Entries(entries[..n], chunkHashes)
      {
        var idx := entries[n];
        assert entries[..n + 1][..n] == entries[..n];
        buf := buf + BE(idx, 4);
        buf := buf + chunkHashes[idx];
      }
      assert entries[..|entries|] == entries;
    }

    static method FromBytes(data: Bytes) returns (r: Result<TransferMetadata>)
      ensures r.Err? <==> Decode(data).Err?
      ensures r.Ok? ==> fresh(r.value) && Decode(data) == Ok(r.value.View())
    {
      if |data| < HEADER_SIZE {
        return Err;
      }
      if data[0..4] != MAGIC || data[4] != VERSION {
        return Err;
      }
      var count := FromBE(data[53..57]);
      if |data| < HEADER_SIZE + count * ENTRY_SIZE {
        return Err;
      }
      var hashes: Hashes := map[];
      for i := 0 to count
        invariant hashes == ReadEntries(data, i)
      {
        var offset := HEADER_SIZE + i * ENTRY_SIZE;
        var idx := FromBE(data[offset..offset + 4]);
        hashes := hashes[idx := data[offset + 4..offset + 36]];
      }
      var m := new TransferMetadata(FromBE(data[5..9]), FromBE(data[9..13]), FromBE(data[13..21]), data[21..53]);
      m.chunkHashes := hashes;
      return Ok(m);
    }

    /** On success the metadata file holds exactly this record; on failure it is what it was.
        No step in between shows anything else (`SaveScript`). */
    method Save(disk: Disk) returns (ok: bool)
      requires disk.exec == Exec(SaveScript(Encode(View())), true)
      modifies disk`files, disk`exec, disk`faults
      ensures disk.exec == Exec([], ok)
      ensures ok ==> disk.files == (old(disk.files) - {TmpFile})[MetaFile := Encode(View())]
      ensures !ok ==> SameExcept(old(disk.files), disk.files, {TmpFile})
      ensures if ok then disk.faults == old(disk.faults) else disk.faults > old(disk.faults)
    {
      hide ExecStep, Encode;
      var data := ToBytes();
      ok := disk.Write(TmpFile, data);
      if !ok {
        return;
      }
      ok := disk.Rename(TmpFile, MetaFile);
      if !ok {
        var _ := disk.Remove(TmpFile);
      }
    }

    static method Load(disk: Disk) returns (r: Result<Option<TransferMetadata>>)
      ensures r == Ok(None) <==> MetaFile !in disk.files
      ensures r.Err? <==> MetaFile in disk.files && Decode(disk.files[MetaFile]).Err?
      ensures r.Ok? && r.value.Some? ==>
                fresh(r.value.value) && Decode(disk.files[MetaFile]) == Ok(r.value.value.View())
    {
      if MetaFile !in disk.files {
        return Ok(None);
      }
      var m := FromBytes(disk.files[MetaFile]);
      if m.Err? {
        return Err;
      }
      return Ok(Some(m.value));
    }

    method VerifyPart(h: Hasher, disk: Disk, index: nat) returns (ok: bool)
      ensures ok == Verifies(h, View(), disk.files, index)
    {
      if index !in chunkHashes || Part(index) !in disk.files {
        return false;
      }
      return h(disk.files[Part(index)]) == chunkHashes[index];
    }

    /** Best effort: the metadata and the parts `0..numChunks` are removed unless a removal fails;
        nothing else is touched. */
    static method Purge(disk: Disk, numChunks: nat) returns (ghost all: bool)
      requires disk.exec == Exec(PurgeScript(numChunks), true)
      modifies disk`files, disk`exec, disk`faults
      ensures disk.exec == Exec([], true)
      ensures forall n :: n in disk.files ==> n in old(disk.files) && disk.files[n] == old(disk.files)[n]
      ensures forall n :: n in old(disk.files) && n !in disk.files ==> n == MetaFile || (n.Part? && n.index < numChunks)
      ensures all ==> disk.files == AppliedAll(PurgeScript(numChunks), old(disk.files))
      ensures all ==> MetaFile !in disk.files && forall i: nat :: i < numChunks ==> Part(i) !in disk.files
      ensures if all then disk.faults == old(disk.faults) else disk.faults > old(disk.faults)
    {
      hide ExecStep;
      var ok := disk.Remove(MetaFile);
      all := ok;
      assert PurgeScript(numChunks)[1..] == RemoveParts(numChunks);
      for i := 0 to numChunks
        invariant disk.exec == Exec(RemoveParts(numChunks)[i..], true)
        invariant forall n :: n in disk.files ==> n in old(disk.files) && disk.files[n] == old(disk.files)[n]
        invariant forall n :: n in old(disk.files) && n !in disk.files ==> n == MetaFile || (n.Part? && n.index < i)
        invariant all ==> MetaFile !in disk.files && forall j: nat :: j < i ==> Part(j) !in disk.files
        invariant if all then disk.faults == old(disk.faults) else disk.faults > old(disk.faults)
        invariant all ==>
          AppliedAll(RemoveParts(numChunks)[i..], disk.files) == AppliedAll(PurgeScript(numChunks), old(disk.files))
      {
        assert RemoveParts(numChunks)[i..][1..] == RemoveParts(numChunks)[i + 1..];
        ok := disk.Remove(Part(i));
        all := all && ok;
      }
    }
  }
}
