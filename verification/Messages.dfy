/** The payloads: chunk messages, acknowledgements, resume queries, handshakes. */
module Messages {
  import opened Wire
  import Frames

  const QUERY: Bytes := [1]
  const ACK_OK: Bytes := [0]
  const ACK_HASH_MISMATCH: Bytes := [1]

  const CHUNK_HEADER: nat := 16
  const HASH_SIZE: nat := 32
  const MAX_CHUNKS: nat := 1_000_000
  const MAX_FILENAME: nat := 255

  // ----- Chunk messages -----------------------------------------------------------------------

  /** The three buffers `send_chunk` hands to `send_parts`. */
  function ChunkMessage(index: nat, offset: nat, data: Bytes, hash: Digest): (r: Bytes)
    ensures |r| == CHUNK_HEADER + |data| + HASH_SIZE
  {
    BE(index, 4) + BE(offset, 8) + BE(|data|, 4) + data + hash
  }

  datatype ChunkFrame =
    | OutOfBounds                       // the header bytes are indexed without a length check
    | TooShort
    | ChunkFrame(index: nat, data: Bytes, hash: Digest)

  /** How `process_chunk` takes a frame apart. */
  function ParseChunk(frame: Bytes): ChunkFrame
  {
    if |frame| < CHUNK_HEADER then OutOfBounds
    else
      var size := FromBE(frame[12..16]);
      if |frame| < CHUNK_HEADER + size + HASH_SIZE then TooShort
      else ChunkFrame(FromBE(frame[0..4]), frame[16..16 + size], frame[16 + size..16 + size + 32])
  }

  /** The header buffer the client fills in place. */
  method FillHeader(index: nat, offset: nat, size: nat) returns (header: array<byte>)
    ensures fresh(header)
    ensures header[..] == BE(index, 4) + BE(offset, 8) + BE(size, 4)
  {
    header := new byte[16](_ => 0);
    var a, b, c := BE(index, 4), BE(offset, 8), BE(size, 4);
    forall i | 0 <= i < 16 {
      header[i] := if i < 4 then a[i] else if i < 12 then b[i - 4] else c[i - 12];
    }
  }

  /** A chunk message fits a frame iff its data is at most 16 MiB minus 48 bytes; then it is read
      back exactly, and it is never taken for a resume query or for the end of the stream. */
  lemma ChunkRoundTrip(index: nat, offset: nat, data: Bytes, hash: Digest)
    requires index < U32
    ensures var m := ChunkMessage(index, offset, data, hash);
            && (|m| <= Frames.MAX_PAYLOAD <==> |data| + 48 <= Frames.MAX_PAYLOAD)
            && m != QUERY && m != []
            && (|data| < U32 ==> ParseChunk(m) == ChunkFrame(index, data, hash))
  {
    hide BE, FromBE;
    var m := ChunkMessage(index, offset, data, hash);
    assert m[0..4] == BE(index, 4);
    assert m[12..16] == BE(|data|, 4);
    assert m[16..16 + |data|] == data;
    assert m[16 + |data|..16 + |data| + 32] == hash;
    Widths();
    BERoundTrip(index, 4);
    BERoundTrip(|data|, 4);
  }

  // ----- Resume query --------------------------------------------------------------------------

  function Indices(received: seq<bool>): (r: seq<nat>)
    ensures forall i: nat :: i in r <==> i < |received| && received[i]
    ensures |r| <= |received|
  {
    if received == [] then []
    else
      var n := |received| - 1;
      Indices(received[..n]) + if received[n] then [n] else []
  }

  /** The indices whose flag is set. */
  function ReceivedSet(received: seq<bool>): set<nat>
  {
    set i: nat | i < |received| && received[i]
  }

  function IndexBytes(indices: seq<nat>): (r: Bytes)
    ensures |r| == 4 * |indices|
  {
    if indices == [] then []
    else IndexBytes(indices[..|indices| - 1]) + BE(indices[|indices| - 1], 4)
  }

  function HaveReply(received: seq<bool>): Bytes
  {
    BE(|Indices(received)|, 4) + IndexBytes(Indices(received))
  }

  /** `handle_query`: the indices of all received chunks. */
  method BuildHave(received: seq<bool>) returns (resp: Bytes)
    ensures resp == HaveReply(received)
  {
    var indices: seq<nat> := [];
    for i := 0 to |received|
      invariant indices == Indices(received[..i])
    {
      assert received[..i + 1][..i] == received[..i];
      if received[i] {
        indices := indices + [i];
      }
    }
    assert received[..|received|] == received;
    resp := BE(|indices|, 4);
    ghost var count := resp;
    for i := 0 to |indices|
      invariant resp == count + IndexBytes(indices[..i])
    {
      assert indices[..i + 1][..i] == indices[..i];
      resp := resp + BE(indices[i], 4);
    }
    assert indices[..|indices|] == indices;
  }

  /** The set after the first `n` indices were inserted; `None` where a short reply would panic. */
  function ReadIndices(resp: Bytes, n: nat): Option<set<nat>>
    requires |resp| >= 4
  {
    if n == 0 then Some({})
    else
      var before := ReadIndices(resp, n - 1);
      if before.None? || |resp| < 4 + 4 * n then None
      else Some(before.value + {FromBE(resp[4 * n..4 * n + 4])})
  }

  /** `query_received`: fewer than four bytes mean "nothing received". */
  method ParseHave(resp: Bytes) returns (r: Option<set<nat>>)
    ensures |resp| < 4 ==> r == Some({})
    ensures |resp| >= 4 ==> r == ReadIndices(resp, FromBE(resp[..4]))
  {
    if |resp| < 4 {
      return Some({});
    }
    var num := FromBE(resp[..4]);
    var received: set<nat> := {};
    for i := 0 to num
      invariant ReadIndices(resp, i) == Some(received)
    {
      var offset := 4 + i * 4;
      if |resp| < offset + 4 {
        NoneStays(resp, i + 1, num);
        return None;
      }
      received := received + {FromBE(resp[offset..offset + 4])};
    }
    return Some(received);
  }

  lemma {:induction false} NoneStays(resp: Bytes, i: nat, n: nat)
    requires |resp| >= 4 && i <= n && ReadIndices(resp, i).None?
    ensures ReadIndices(resp, n).None?
  {
    if i < n {
      NoneStays(resp, i, n - 1);
    }
  }

  lemma {:induction false} IndexAt(indices: seq<nat>, i: nat)
    requires i < |indices|
    ensures IndexBytes(indices)[4 * i..4 * i + 4] == BE(indices[i], 4)
  {
    hide BE;
    var front := indices[..|indices| - 1];
    if i < |indices| - 1 {
      IndexAt(front, i);
      assert IndexBytes(indices)[4 * i..4 * i + 4] == IndexBytes(front)[4 * i..4 * i + 4];
    }
  }

  ghost function IndexSet(indices: seq<nat>): (r: set<nat>)
    ensures forall i: nat :: i in r <==> i in indices
  {
    if indices == [] then {} else IndexSet(indices[..|indices| - 1]) + {indices[|indices| - 1]}
  }

  lemma SliceBehind(a: Bytes, b: Bytes, lo: nat, from: nat)
    requires lo + 4 <= |b| && from == |a| + lo
    ensures (a + b)[from..from + 4] == b[lo..lo + 4]
  {
    var s, t := (a + b)[from..from + 4], b[lo..lo + 4];
    assert |s| == 4 && |t| == 4;
    assert s[0] == t[0] && s[1] == t[1] && s[2] == t[2] && s[3] == t[3];
  }

  lemma IndexField(indices: seq<nat>, n: nat)
    requires 0 < n <= |indices|
    ensures (BE(|indices|, 4) + IndexBytes(indices))[4 * n..4 * n + 4] == BE(indices[n - 1], 4)
  {
    hide BE, IndexBytes;
    var i := n - 1;
    IndexAt(indices, i);
    SliceBehind(BE(|indices|, 4), IndexBytes(indices), 4 * i, 4 * n);
  }

  lemma {:induction false} IndicesReadBack(indices: seq<nat>, n: nat)
    requires n <= |indices| && forall i :: i in indices ==> i < U32
    ensures ReadIndices(BE(|indices|, 4) + IndexBytes(indices), n) == Some(IndexSet(indices[..n]))
  {
    hide BE, FromBE, IndexBytes;
    if n > 0 {
      IndicesReadBack(indices, n - 1);
      IndexField(indices, n);
      Widths();
      BERoundTrip(indices[n - 1], 4);
      assert indices[n - 1] in indices;
      assert indices[..n][..n - 1] == indices[..n - 1];
    }
  }

  /** For every transfer the server accepts, the reply fits a frame and the client reads from it
      exactly the set of received chunks. */
  lemma HaveRoundTrip(received: seq<bool>)
    requires |received| <= MAX_CHUNKS
    ensures var resp := HaveReply(received);
            && 4 <= |resp| <= Frames.MAX_PAYLOAD
            && ReadIndices(resp, FromBE(resp[..4])) == Some(ReceivedSet(received))
  {
    hide BE, FromBE, IndexBytes;
    var indices := Indices(received);
    Widths();
    BERoundTrip(|indices|, 4);
    assert HaveReply(received)[..4] == BE(|indices|, 4);
    IndicesReadBack(indices, |indices|);
    assert indices[..|indices|] == indices;
    assert IndexSet(indices) == ReceivedSet(received);
  }

  // ----- Handshake --------------------------------------------------------------------------------

  const MAGIC: Bytes := [0x42, 0x45, 0x53, 0x4E]  // "BESN"
  const PREFIX_SIZE: nat := 6
  const SUFFIX_SIZE: nat := 48

  datatype Handshake = Handshake(filename: Bytes, fileSize: nat, chunkSize: nat, numChunks: nat, fullHash: Digest)

  function HandshakeBytes(hs: Handshake): (r: Bytes)
    ensures |r| == PREFIX_SIZE + |hs.filename| + SUFFIX_SIZE
  {
    MAGIC + BE(|hs.filename|, 2) + hs.filename
    + BE(hs.fileSize, 8) + BE(hs.chunkSize, 4) + BE(hs.numChunks, 4) + hs.fullHash
  }

  /** The names for which `Path::file_name` has no answer: "", "." and "..". */
  predicate NoFileName(name: Bytes)
  {
    name == [] || name == [0x2E] || name == [0x2E, 0x2E]
  }

  /** `parse_handshake` on names without a directory part. */
  function ParseHandshake(data: Bytes): Result<Handshake>
  {
    if |data| < PREFIX_SIZE + SUFFIX_SIZE || data[0..4] != MAGIC then Err
    else
      var len := FromBE(data[4..6]);
      if len > MAX_FILENAME || |data| < PREFIX_SIZE + len + SUFFIX_SIZE then Err
      else
        var o := PREFIX_SIZE + len;
        var hs := Handshake(data[6..o], FromBE(data[o..o + 8]), FromBE(data[o + 8..o + 12]),
                            FromBE(data[o + 12..o + 16]), data[o + 16..o + 48]);
        if NoFileName(hs.filename) || hs.chunkSize == 0 || hs.numChunks == 0 || hs.numChunks > MAX_CHUNKS then Err
        else Ok(hs)
  }

  /** Exactly what is accepted: "BESN", a name of 1 to 255 bytes that is one of a file and is all there
      with the fields behind it, a chunk size and a number of chunks within their limits. */
  lemma HandshakeAcceptedIff(data: Bytes)
    ensures ParseHandshake(data).Ok? <==>
              && |data| >= 54 && data[..4] == [0x42, 0x45, 0x53, 0x4E]
              && var len := FromBE(data[4..6]);
                 && 1 <= len <= 255 && |data| >= 54 + len
                 && data[6..6 + len] != [0x2E] && data[6..6 + len] != [0x2E, 0x2E]
                 && FromBE(data[6 + len + 8..6 + len + 12]) > 0
                 && 0 < FromBE(data[6 + len + 12..6 + len + 16]) <= 1_000_000
  {
    hide FromBE;
  }

  lemma HandshakeFields(hs: Handshake)
    ensures var d, o := HandshakeBytes(hs), PREFIX_SIZE + |hs.filename|;
            && d[0..4] == MAGIC && d[4..6] == BE(|hs.filename|, 2) && d[6..o] == hs.filename
            && d[o..o + 8] == BE(hs.fileSize, 8) && d[o + 8..o + 12] == BE(hs.chunkSize, 4)
            && d[o + 12..o + 16] == BE(hs.numChunks, 4) && d[o + 16..o + 48] == hs.fullHash
  {
    hide BE;
  }

  /** The server understands the parameters the client announced iff the name is one of a file and has
      at most 255 bytes, every number fits its field, and there are between one and a million chunks. */
  lemma HandshakeRoundTrip(hs: Handshake)
    ensures ParseHandshake(HandshakeBytes(hs)) == Ok(hs)
       <==> && !NoFileName(hs.filename) && |hs.filename| <= MAX_FILENAME && hs.fileSize < U64
            && 0 < hs.chunkSize < U32 && 0 < hs.numChunks <= MAX_CHUNKS
  {
    hide BE, FromBE;
    HandshakeFields(hs);
    Widths();
    BERoundTrip(|hs.filename|, 2);
    BERoundTrip(hs.fileSize, 8);
    BERoundTrip(hs.chunkSize, 4);
    BERoundTrip(hs.numChunks, 4);
    if ParseHandshake(HandshakeBytes(hs)) == Ok(hs) {
      var d := HandshakeBytes(hs);
      var len := FromBE(d[4..6]);
      var o := PREFIX_SIZE + len;
      assert hs.filename == d[6..o];
      assert |hs.filename| == len;
    }
  }

  // ----- Handshake response --------------------------------------------------------------------

  function PortBytes(ports: seq<nat>): (r: Bytes)
    ensures |r| == 2 * |ports|
  {
    if ports == [] then [] else PortBytes(ports[..|ports| - 1]) + BE(ports[|ports| - 1], 2)
  }

  function ResponseBytes(status: byte, ports: seq<nat>): Bytes
  {
    [status, |ports| % 256] + PortBytes(ports)
  }

  method BuildResponse(status: byte, ports: seq<nat>) returns (response: Bytes)
    ensures response == ResponseBytes(status, ports)
  {
    response := [status];
    response := response + [|ports| % 256];
    ghost var head := response;
    for i := 0 to |ports|
      invariant response == head + PortBytes(ports[..i])
    {
      assert ports[..i + 1][..i] == ports[..i];
      response := response + BE(ports[i], 2);
    }
    assert ports[..|ports|] == ports;
  }

  function ReadPorts(data: Bytes, n: nat): seq<nat>
    requires |data| >= 2 + 2 * n
  {
    if n == 0 then [] else ReadPorts(data, n - 1) + [FromBE(data[2 * n..2 * n + 2])]
  }

  function Response(data: Bytes): Result<(byte, seq<nat>)>
  {
    if |data| < 2 || |data| < 2 + (data[1] as int) * 2 then Err
    else Ok((data[0], ReadPorts(data, data[1])))
  }

  method ParseResponse(data: Bytes) returns (r: Result<(byte, seq<nat>)>)
    ensures r == Response(data)
  {
    if |data| < 2 {
      return Err;
    }
    var n: nat := data[1];
    if |data| < 2 + n * 2 {
      return Err;
    }
    var ports: seq<nat> := [];
    for i := 0 to n
      invariant ports == ReadPorts(data, i)
    {
      var offset := 2 + i * 2;
      ports := ports + [FromBE(data[offset..offset + 2])];
    }
    return Ok((data[0], ports));
  }

  lemma {:induction false} PortAt(ports: seq<nat>, i: nat)
    requires i < |ports|
    ensures PortBytes(ports)[2 * i..2 * i + 2] == BE(ports[i], 2)
  {
    hide BE;
    var front := ports[..|ports| - 1];
    if i < |ports| - 1 {
      PortAt(front, i);
      assert PortBytes(ports)[2 * i..2 * i + 2] == PortBytes(front)[2 * i..2 * i + 2];
    }
  }

  lemma {:induction false} PortsReadBack(status: byte, ports: seq<nat>, n: nat)
    requires n <= |ports| && forall p :: p in ports ==> p < U16
    ensures ReadPorts(ResponseBytes(status, ports), n) == ports[..n]
  {
    hide BE, FromBE;
    if n > 0 {
      PortsReadBack(status, ports, n - 1);
      PortAt(ports, n - 1);
      assert ResponseBytes(status, ports)[2 * n..2 * n + 2] == PortBytes(ports)[2 * (n - 1)..2 * (n - 1) + 2];
      Widths();
      Widths();
      assert ports[n - 1] in ports;
      BERoundTrip(ports[n - 1], 2);
      assert ports[..n] == ports[..n - 1] + [ports[n - 1]];
    }
  }

  lemma {:induction false} ReadPortsLength(data: Bytes, n: nat)
    requires |data| >= 2 + 2 * n
    ensures |ReadPorts(data, n)| == n
  {
    if n > 0 {
      ReadPortsLength(data, n - 1);
    }
  }

  /** The client learns the server's port list iff it has at most 255 ports: the count is one byte. */
  lemma ResponseRoundTrip(status: byte, ports: seq<nat>)
    requires forall p :: p in ports ==> p < U16
    ensures Response(ResponseBytes(status, ports)) == Ok((status, ports)) <==> |ports| <= 255
  {
    var d := ResponseBytes(status, ports);
    PortsReadBack(status, ports, |ports| % 256);
    ReadPortsLength(d, |ports| % 256);
    assert ports[..|ports|] == ports;
  }
}
