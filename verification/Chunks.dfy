/** Chunk arithmetic: how a file is cut, what each side expects, how `--chunk-count` behaves. */
module Chunks {
  import opened Wire

  /** `usize::div_ceil`. */
  function CeilDiv(a: nat, b: nat): (r: nat)
    requires b > 0
  {
    (a + b - 1) / b
  }

  function Min(a: int, b: int): int
  {
    if a < b then a else b
  }

  lemma DivBounds(a: nat, b: nat)
    requires b > 0
    ensures (a / b) * b <= a < (a / b + 1) * b
  {
    var q, r := a / b, a % b;
    assert a == q * b + r;
    assert (q + 1) * b == q * b + b;
  }

  lemma MulMono(a: int, b: int, c: nat)
    requires a <= b
    ensures a * c <= b * c
  {
  }

  /** `r = ceil(a/b)` is the only integer with (r-1)*b < a <= r*b. */
  lemma CeilBounds(a: nat, b: nat)
    requires b > 0
    ensures a <= CeilDiv(a, b) * b
    ensures CeilDiv(a, b) * b < a + b
    ensures a > 0 ==> CeilDiv(a, b) > 0
  {
    DivBounds(a + b - 1, b);
    var q := CeilDiv(a, b);
    assert (q + 1) * b == q * b + b;
  }

  lemma CeilUnique(a: nat, b: nat, r: nat)
    requires b > 0 && a <= r * b && r * b < a + b
    ensures CeilDiv(a, b) == r
  {
    CeilBounds(a, b);
    var q := CeilDiv(a, b);
    assert (q + 1) * b == q * b + b && (r + 1) * b == r * b + b;
    MulMono(Min(q + 1, r), r, b);
    MulMono(Min(r + 1, q), q, b);
  }

  /** The number of chunks is at most `k` exactly when `k` chunks are enough room. */
  lemma CeilAtMost(a: nat, b: nat, k: nat)
    requires b > 0
    ensures CeilDiv(a, b) <= k <==> a <= k * b
  {
    CeilBounds(a, b);
    var q := CeilDiv(a, b);
    if q <= k {
      MulMono(q, k, b);
    } else {
      MulMono(k + 1, q, b);
      assert (k + 1) * b == k * b + b;
    }
  }

  // ----- One file cut into chunks ---------------------------------------------------------

  /** Chunk `i` of a file: the bytes the client seeks to and reads. */
  function Slice(source: Bytes, chunkSize: nat, i: nat): (r: Bytes)
    ensures |r| <= chunkSize
  {
    if i * chunkSize <= |source| then
      source[i * chunkSize..i * chunkSize + ClientSize(chunkSize, |source|, i)]
    else []
  }

  /** The size the client computes for chunk `i`: min(chunk_size, file_size - idx * chunk_size). */
  function ClientSize(chunkSize: nat, fileSize: nat, i: nat): nat
    requires i * chunkSize <= fileSize
  {
    Min(chunkSize, fileSize - i * chunkSize)
  }

  /** The size the server expects for chunk `i`; `None` where its unsigned subtraction underflows. */
  function ServerSize(chunkSize: nat, numChunks: nat, fileSize: nat, i: nat): Option<nat>
  {
    var last := if numChunks == 0 then 0 else numChunks - 1;
    if i != last then Some(chunkSize)
    else if fileSize < last * chunkSize then None
    else
      var remainder := fileSize - last * chunkSize;
      Some(if remainder == 0 then chunkSize else remainder)
  }

  lemma SliceStart(chunkSize: nat, fileSize: nat, i: nat)
    requires chunkSize > 0 && i < CeilDiv(fileSize, chunkSize)
    ensures i * chunkSize < fileSize
  {
    CeilBounds(fileSize, chunkSize);
    MulMono(i + 1, CeilDiv(fileSize, chunkSize), chunkSize);
    assert (i + 1) * chunkSize == i * chunkSize + chunkSize;
  }

  /** For a non-empty file and an honest chunk count both sides agree on every chunk's size,
      which is between 1 and the chunk size and is the length of the slice that is sent. */
  lemma SizeAgreement(source: Bytes, chunkSize: nat, i: nat)
    requires chunkSize > 0 && i < CeilDiv(|source|, chunkSize)
    ensures i * chunkSize < |source|
    ensures ServerSize(chunkSize, CeilDiv(|source|, chunkSize), |source|, i)
         == Some(ClientSize(chunkSize, |source|, i))
    ensures 1 <= ClientSize(chunkSize, |source|, i) <= chunkSize
    ensures |Slice(source, chunkSize, i)| == ClientSize(chunkSize, |source|, i)
  {
    var n := CeilDiv(|source|, chunkSize);
    SliceStart(chunkSize, |source|, i);
    CeilBounds(|source|, chunkSize);
    assert (n - 1) * chunkSize == n * chunkSize - chunkSize;
    if i < n - 1 {
      SliceStart(chunkSize, |source|, i + 1);
      assert (i + 1) * chunkSize == i * chunkSize + chunkSize;
    }
  }

  /** How many chunks the client announces: an empty file is announced as one. */
  function NumChunks(fileSize: nat, chunkSize: nat): (n: nat)
    requires chunkSize > 0
    ensures n > 0
  {
    if fileSize > 0 then
      CeilBounds(fileSize, chunkSize);
      CeilDiv(fileSize, chunkSize)
    else 1
  }

  /** Both sides agree on the size of a chunk exactly when the file is not empty. For an empty file
      the client sends 0 bytes and the server wants a full chunk. */
  lemma SidesAgreeIff(chunkSize: nat, fileSize: nat, i: nat)
    requires chunkSize > 0 && i < NumChunks(fileSize, chunkSize)
    ensures i * chunkSize <= fileSize
    ensures ServerSize(chunkSize, NumChunks(fileSize, chunkSize), fileSize, i)
         == Some(ClientSize(chunkSize, fileSize, i))
       <==> fileSize > 0
  {
    assert 0 * chunkSize == 0;
    if fileSize > 0 {
      SizeAgreement(seq(fileSize, _ => 0), chunkSize, i);
    }
  }

  /** The first `k` chunks joined. */
  function Joined(source: Bytes, chunkSize: nat, k: nat): Bytes
  {
    if k == 0 then [] else Joined(source, chunkSize, k - 1) + Slice(source, chunkSize, k - 1)
  }

  /** Chunks in index order join to a prefix of the file; all of them join to the file. */
  lemma {:induction false} JoinedIsPrefix(source: Bytes, chunkSize: nat, k: nat)
    requires chunkSize > 0 && k <= NumChunks(|source|, chunkSize)
    ensures Joined(source, chunkSize, k) == source[..Min(k * chunkSize, |source|)]
    ensures k == NumChunks(|source|, chunkSize) ==> Joined(source, chunkSize, k) == source
  {
    CeilBounds(|source|, chunkSize);
    if k == 0 || source == [] {
      assert 0 * chunkSize == 0;
      assert k == 1 ==> Joined(source, chunkSize, k) == Joined(source, chunkSize, 0) + Slice(source, chunkSize, 0);
    } else {
      JoinedIsPrefix(source, chunkSize, k - 1);
      SliceStart(chunkSize, |source|, k - 1);
      assert k * chunkSize == (k - 1) * chunkSize + chunkSize;
      JoinAt(source, (k - 1) * chunkSize, Min(k * chunkSize, |source|));
    }
  }

  lemma JoinAt(source: Bytes, lo: nat, hi: nat)
    requires lo <= hi <= |source|
    ensures source[..lo] + source[lo..hi] == source[..hi]
    ensures hi == |source| ==> source[..hi] == source
  {
  }

  function SizeSum(chunkSize: nat, numChunks: nat, fileSize: nat, k: nat): nat
  {
    if k == 0 then 0
    else SizeSum(chunkSize, numChunks, fileSize, k - 1) +
         match ServerSize(chunkSize, numChunks, fileSize, k - 1) case Some(s) => s case None => 0
  }

  /** The sizes the server accepts add up to the file size: nothing is lost or counted twice. */
  lemma {:induction false} SizesSumToFile(source: Bytes, chunkSize: nat, k: nat)
    requires chunkSize > 0 && k <= CeilDiv(|source|, chunkSize)
    ensures SizeSum(chunkSize, CeilDiv(|source|, chunkSize), |source|, k) == Min(k * chunkSize, |source|)
    ensures k == CeilDiv(|source|, chunkSize)
        ==> SizeSum(chunkSize, CeilDiv(|source|, chunkSize), |source|, k) == |source|
  {
    if k == 0 {
      assert 0 * chunkSize == 0;
    } else {
      SizesSumToFile(source, chunkSize, k - 1);
      SizeAgreement(source, chunkSize, k - 1);
      assert k * chunkSize == (k - 1) * chunkSize + chunkSize;
    }
    CeilBounds(|source|, chunkSize);
  }

  // ----- `--chunk-count` ------------------------------------------------------------------

  /** What a client run announces: its chunk size and its number of chunks. */
  datatype Cut = Cut(chunkSize: nat, numChunks: nat)

  datatype CutResult = Cutting(cut: Cut) | CountIsZero | DivisionByZero

  /** Chunk size from `--chunk-count`, then the two chunk counts (the one that is logged and the
      one that is sent). An empty file makes the chunk size 0 and the logged count divide by 0. */
  function CutByCount(fileSize: nat, count: nat): CutResult
  {
    if count == 0 then CountIsZero
    else
      var chunkSize := CeilDiv(fileSize, count);
      if chunkSize == 0 then DivisionByZero
      else Cutting(Cut(chunkSize, if fileSize > 0 then CeilDiv(fileSize, chunkSize) else 1))
  }

  lemma TwiceCeil(f: nat, k: nat)
    requires f > 0 && k > 0
    ensures CeilDiv(f, k) > 0
    ensures CeilDiv(f, CeilDiv(f, k)) <= k
  {
    CeilBounds(f, k);
    var c := CeilDiv(f, k);
    assert c * k == k * c;
    CeilAtMost(f, c, k);
  }

  /** A smaller divisor gives a result at least as big. */
  lemma CeilAntitone(f: nat, a: nat, b: nat)
    requires 0 < a <= b
    ensures CeilDiv(f, b) <= CeilDiv(f, a)
  {
    CeilBounds(f, a);
    var q := CeilDiv(f, a);
    assert q * a <= q * b by { MulMono(a, b, q); assert a * q == q * a && b * q == q * b; }
    CeilAtMost(f, b, q);
  }

  /** `--chunk-count N` gives at most N chunks; running again with the count it gave changes
      neither the chunk size nor the number of chunks, so a resume finds its parameters unchanged. */
  lemma ChunkCountIsStable(fileSize: nat, count: nat)
    requires fileSize > 0 && count > 0
    ensures CutByCount(fileSize, count).Cutting?
    ensures var cut := CutByCount(fileSize, count).cut;
            && 0 < cut.numChunks <= count
            && CutByCount(fileSize, cut.numChunks) == Cutting(cut)
  {
    var c := CeilDiv(fileSize, count);
    TwiceCeil(fileSize, count);
    var n := CeilDiv(fileSize, c);
    CeilBounds(fileSize, c);
    TwiceCeil(fileSize, c);
    CeilAntitone(fileSize, n, count);
    assert CeilDiv(fileSize, n) == c;
  }

  /** The number that is announced belongs to the chunk size that is announced, and that is the smallest
      one that gives at most N chunks. */
  lemma CutIsSmallest(fileSize: nat, count: nat, smaller: nat)
    requires fileSize > 0 && count > 0
    ensures CutByCount(fileSize, count).Cutting?
    ensures var cut := CutByCount(fileSize, count).cut;
            && 0 < cut.chunkSize && cut.numChunks == NumChunks(fileSize, cut.chunkSize) <= count
            && (0 < smaller < cut.chunkSize ==> NumChunks(fileSize, smaller) > count)
  {
    ChunkCountIsStable(fileSize, count);
    if smaller > 0 {
      CeilAtMost(fileSize, smaller, count);
      CeilAtMost(fileSize, count, smaller);
      assert count * smaller == smaller * count;
    }
  }

  /** The documentation promises exactly N chunks. That holds iff all but the last of N equal
      chunks leave something for the last one. */
  lemma ChunkCountExact(fileSize: nat, count: nat)
    requires fileSize > 0 && count > 0
    ensures CutByCount(fileSize, count).Cutting?
    ensures CutByCount(fileSize, count).cut.numChunks == count
       <==> (count - 1) * CeilDiv(fileSize, count) < fileSize
  {
    ChunkCountIsStable(fileSize, count);
    var c := CeilDiv(fileSize, count);
    if count > 1 {
      CeilAtMost(fileSize, c, count - 1);
    } else {
      assert (count - 1) * c == 0;
    }
  }

  /** Ten bytes cannot be cut into six chunks this way. */
  lemma ChunkCountNotExact()
    ensures CutByCount(10, 6) == Cutting(Cut(2, 5))
  {
  }

  /** The command line cuts the file with `--chunk-count` iff the count and the file are not empty. */
  lemma CutByCountDefined(fileSize: nat, count: nat)
    ensures CutByCount(fileSize, count).Cutting? <==> fileSize > 0 && count > 0
    ensures CutByCount(fileSize, count).DivisionByZero? <==> fileSize == 0 && count > 0
  {
    if count > 0 {
      CeilBounds(fileSize, count);
    }
  }
}
