/** The length-prefixed frame transport. */
module Frames {
  import opened Wire

  const HEADER_SIZE: nat := 4
  const MAX_PAYLOAD: nat := 16 * 1024 * 1024

  /** Bytes of one frame: the length cast to u32, then the payload. */
  function Framed(payload: Bytes): (r: Bytes)
    ensures |r| == HEADER_SIZE + |payload|
  {
    BE(|payload|, HEADER_SIZE) + payload
  }

  function FramedAll(payloads: seq<Bytes>): Bytes
  {
    if payloads == [] then [] else Framed(payloads[0]) + FramedAll(payloads[1..])
  }

  function Flatten(parts: seq<Bytes>): Bytes
  {
    if parts == [] then [] else Flatten(parts[..|parts| - 1]) + parts[|parts| - 1]
  }

  /** The length a frame header announces. */
  function Announced(s: Bytes): nat
    requires |s| >= HEADER_SIZE
  {
    FromBE(s[..HEADER_SIZE])
  }

  /** `recv` succeeds iff the stream holds a whole frame that is not too long. */
  predicate HasFrame(s: Bytes)
  {
    |s| >= HEADER_SIZE && Announced(s) <= MAX_PAYLOAD && |s| >= HEADER_SIZE + Announced(s)
  }

  function FirstFrame(s: Bytes): Bytes
    requires HasFrame(s)
  {
    s[HEADER_SIZE..HEADER_SIZE + Announced(s)]
  }

  function AfterFrame(s: Bytes): Bytes
    requires HasFrame(s)
  {
    s[HEADER_SIZE + Announced(s)..]
  }

  /** Repeated `recv` until it fails. */
  function ReceiveAll(s: Bytes): seq<Bytes>
    decreases |s|
  {
    if HasFrame(s) then [FirstFrame(s)] + ReceiveAll(AfterFrame(s)) else []
  }

  /** The sending half of a connection followed by its receiving half: bytes in flight. */
  class Stream {
    var data: Bytes

    constructor ()
      ensures data == []
    {
      data := [];
    }

    method WriteAll(b: Bytes)
      modifies this
      ensures data == old(data) + b
    {
      data := data + b;
    }

    /** Takes exactly `n` bytes, or reports the end of a stream that is too short. */
    method ReadExact(n: nat) returns (r: Result<Bytes>)
      modifies this
      ensures r.Ok? <==> n <= |old(data)|
      ensures r.Ok? ==> r.value == old(data)[..n] && data == old(data)[n..]
    {
      if |data| < n {
        data := [];
        return Err;
      }
      r := Ok(data[..n]);
      data := data[n..];
    }

    method Send(payload: Bytes)
      modifies this
      ensures data == old(data) + Framed(payload)
    {
      WriteAll(BE(|payload|, HEADER_SIZE));
      WriteAll(payload);
    }

    /** Sending buffers one after the other is sending their concatenation. */
    method SendParts(parts: seq<Bytes>)
      modifies this
      ensures data == old(data) + Framed(Flatten(parts))
    {
      var total := 0;
      for i := 0 to |parts|
        invariant total == |Flatten(parts[..i])|
      {
        assert parts[..i + 1][..i] == parts[..i];
        total := total + |parts[i]|;
      }
      assert parts[..|parts|] == parts;
      WriteAll(BE(total, HEADER_SIZE));
      for i := 0 to |parts|
        invariant data == old(data) + BE(total, HEADER_SIZE) + Flatten(parts[..i])
      {
        assert parts[..i + 1][..i] == parts[..i];
        WriteAll(parts[i]);
      }
    }

    method Recv() returns (r: Result<Bytes>)
      modifies this
      ensures r.Ok? <==> HasFrame(old(data))
      ensures r.Ok? ==> r.value == FirstFrame(old(data)) && data == AfterFrame(old(data))
    {
      var header := ReadExact(HEADER_SIZE);
      if header.Err? {
        return Err;
      }
      var len := FromBE(header.value);
      if len > MAX_PAYLOAD {
        return Err;
      }
      if len == 0 {
        return Ok([]);
      }
      r := ReadExact(len);
    }
  }

  lemma FramedHeader(p: Bytes, tail: Bytes)
    ensures (Framed(p) + tail)[..HEADER_SIZE] == BE(|p|, HEADER_SIZE)
    ensures (Framed(p) + tail)[HEADER_SIZE..HEADER_SIZE + |p|] == p
    ensures (Framed(p) + tail)[HEADER_SIZE + |p|..] == tail
  {
  }

  /** One frame comes back as it was sent, with the rest of the stream untouched, iff it is at
      most 16 MiB: longer ones are refused, or (past 4 GiB) read with a wrapped length. */
  lemma FrameRoundTrip(p: Bytes, tail: Bytes)
    ensures var s := Framed(p) + tail;
            HasFrame(s) && FirstFrame(s) == p && AfterFrame(s) == tail <==> |p| <= MAX_PAYLOAD
  {
    var s := Framed(p) + tail;
    FramedHeader(p, tail);
    Widths();
    BERoundTrip(|p|, HEADER_SIZE);
    if HasFrame(s) && FirstFrame(s) == p {
      assert |FirstFrame(s)| == Announced(s);
    }
  }

  ghost predicate AllFit(payloads: seq<Bytes>)
  {
    forall i :: 0 <= i < |payloads| ==> |payloads[i]| <= MAX_PAYLOAD
  }

  /** How many of the frames lie completely in the first `k` bytes. */
  function WholeFrames(payloads: seq<Bytes>, k: nat): (n: nat)
    ensures n <= |payloads|
  {
    if payloads == [] || k < HEADER_SIZE + |payloads[0]| then 0
    else 1 + WholeFrames(payloads[1..], k - HEADER_SIZE - |payloads[0]|)
  }

  /** Cut anywhere, a stream of frames decodes to exactly the frames that lie before the cut:
      never a part of a frame, never one frame as two, and all of them from the whole stream. */
  lemma {:induction false} CutStream(payloads: seq<Bytes>, k: nat)
    requires AllFit(payloads) && k <= |FramedAll(payloads)|
    ensures ReceiveAll(FramedAll(payloads)[..k]) == payloads[..WholeFrames(payloads, k)]
  {
    hide BE, FromBE;
    if payloads != [] {
      var p, tail := payloads[0], FramedAll(payloads[1..]);
      var s := Framed(p) + tail;
      Widths();
      BERoundTrip(|p|, HEADER_SIZE);
      if k >= HEADER_SIZE + |p| {
        var k' := k - HEADER_SIZE - |p|;
        CutStream(payloads[1..], k');
        assert s[..k] == Framed(p) + tail[..k'];
        FrameRoundTrip(p, tail[..k']);
        assert payloads[..1 + WholeFrames(payloads[1..], k')] == [p] + payloads[1..][..WholeFrames(payloads[1..], k')];
      } else if k >= HEADER_SIZE {
        assert s[..k][..HEADER_SIZE] == BE(|p|, HEADER_SIZE);
      }
    }
  }

  lemma {:induction false} AllFramesWhole(payloads: seq<Bytes>)
    ensures WholeFrames(payloads, |FramedAll(payloads)|) == |payloads|
  {
    if payloads != [] {
      AllFramesWhole(payloads[1..]);
    }
  }

  /** Decoding a stream of frames gives back exactly the frames. */
  lemma StreamRoundTrip(payloads: seq<Bytes>)
    requires AllFit(payloads)
    ensures ReceiveAll(FramedAll(payloads)) == payloads
  {
    var s := FramedAll(payloads);
    CutStream(payloads, |s|);
    AllFramesWhole(payloads);
    assert s[..|s|] == s && payloads[..|payloads|] == payloads;
  }

  // ----- Timeouts -------------------------------------------------------------------------------

  const DEFAULT_TIMEOUT: nat := 30
  const MIN_THROUGHPUT: nat := 150 * 1024

  /** Seconds allowed for `n` bytes. */
  function TimeoutForBytes(n: nat): (t: nat)
    ensures t >= 35
  {
    var speed := n / MIN_THROUGHPUT;
    (if speed > DEFAULT_TIMEOUT then speed else DEFAULT_TIMEOUT) + 5
  }

  /** 35 seconds for anything below 31 times the assumed throughput; above that the time the bytes need
      at that throughput, rounded down, and 5 seconds more. So the bytes always have their time. */
  lemma TimeoutIsEnough(n: nat)
    ensures TimeoutForBytes(n) * MIN_THROUGHPUT >= n
    ensures TimeoutForBytes(n) == 35 <==> n < 31 * MIN_THROUGHPUT
    ensures n >= 31 * MIN_THROUGHPUT ==>
              (TimeoutForBytes(n) - 5) * MIN_THROUGHPUT <= n < (TimeoutForBytes(n) - 4) * MIN_THROUGHPUT
  {
  }
}
