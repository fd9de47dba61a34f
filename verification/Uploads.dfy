/** Chunked uploads: which writes are accepted, when reassembly succeeds, and what it returns. */
module Uploads {
  import opened Wrappers
  import opened Orders

  type Byte = bv8

  type Chunks = map<int, seq<Byte>>

  datatype Error = IndexOutOfRange(index: int) | WrongSize(got: nat, want: int)
                 | MissingChunks | MissingChunk(index: int) | SizeMismatch

  datatype Write = Write(index: int, data: seq<Byte>)

  /** What an upload declared when it was opened; the service picks the chunk size. */
  datatype Session = Session(totalSize: int, chunkSize: int) {

    predicate Sane() { chunkSize >= 1 }

    function ExpectedChunks(): (n: int)
      requires Sane()
    {
      if totalSize <= 0 then 0 else (totalSize + chunkSize - 1) / chunkSize
    }

    predicate InRange(index: int)
      requires Sane()
    {
      0 <= index < ExpectedChunks()
    }

    function SizeOf(index: int): int
      requires Sane()
    {
      if index == ExpectedChunks() - 1 then totalSize - chunkSize * (ExpectedChunks() - 1) else chunkSize
    }

    predicate Accepts(w: Write)
      requires Sane()
    {
      InRange(w.index) && |w.data| == SizeOf(w.index)
    }

    /** Where a chunk starts in the file. */
    function Offset(index: int): int { index * chunkSize }

    /** Every stored chunk is one the session expects, with the size it expects. */
    ghost predicate Holds(chunks: Chunks)
      requires Sane()
    {
      forall i | i in chunks :: Accepts(Write(i, chunks[i]))
    }

    ghost predicate Covered(chunks: Chunks)
      requires Sane()
    {
      forall i | InRange(i) :: i in chunks
    }

    /** The part of a whole file that chunk `index` carries. */
    function Piece(file: seq<Byte>, index: int): (p: seq<Byte>)
      requires Sane() && |file| == totalSize && InRange(index)
    {
      PieceBounds(this, index);
      file[Offset(index)..Offset(index) + SizeOf(index)]
    }
  }

  /** The number of chunks is the ceiling of the quotient: enough to hold the file, and one fewer
      is not. */
  lemma ExpectedChunksIsCeiling(s: Session)
    requires s.Sane()
    ensures s.totalSize > 0 ==>
              s.ExpectedChunks() >= 1
              && s.Offset(s.ExpectedChunks() - 1) < s.totalSize <= s.Offset(s.ExpectedChunks())
    ensures s.totalSize <= 0 ==> s.ExpectedChunks() == 0
  {
    if s.totalSize > 0 {
      var x := s.totalSize + s.chunkSize - 1;
      var n := x / s.chunkSize;
      assert x == n * s.chunkSize + x % s.chunkSize;
      assert (n - 1) * s.chunkSize == n * s.chunkSize - s.chunkSize;
      if n <= 0 {
        MulMonotone(n, 0, s.chunkSize);
      }
    }
  }

  /** The last chunk is never empty and never oversized. */
  lemma LastChunkSize(s: Session)
    requires s.Sane() && s.totalSize > 0
    ensures 1 <= s.SizeOf(s.ExpectedChunks() - 1) <= s.chunkSize
  {
    ExpectedChunksIsCeiling(s);
    var n := s.ExpectedChunks();
    assert s.Offset(n) == s.Offset(n - 1) + s.chunkSize;
  }

  /** Chunks lie side by side: each ends where the next begins, the last at the end of the file. */
  lemma PieceBounds(s: Session, i: int)
    requires s.Sane() && s.InRange(i)
    ensures 0 <= s.Offset(i) < s.Offset(i) + s.SizeOf(i) <= s.totalSize
    ensures s.Offset(i) + s.SizeOf(i) == if i + 1 == s.ExpectedChunks() then s.totalSize else s.Offset(i + 1)
    ensures s.SizeOf(i) <= s.chunkSize
  {
    ExpectedChunksIsCeiling(s);
    LastChunkSize(s);
    var n := s.ExpectedChunks();
    MulMonotone(0, i, s.chunkSize);
    assert s.Offset(i + 1) == s.Offset(i) + s.chunkSize;
    if i + 1 < n {
      MulMonotone(i + 1, n - 1, s.chunkSize);
    }
  }

  /** Which chunk a byte of the file belongs to, and its place there. */
  lemma ByteInChunk(s: Session, j: int)
    requires s.Sane() && 0 <= j < s.totalSize
    ensures s.InRange(j / s.chunkSize)
    ensures j == s.Offset(j / s.chunkSize) + j % s.chunkSize
    ensures 0 <= j % s.chunkSize < s.SizeOf(j / s.chunkSize)
  {
    var i := j / s.chunkSize;
    ExpectedChunksIsCeiling(s);
    var n := s.ExpectedChunks();
    assert j == i * s.chunkSize + j % s.chunkSize;
    if i >= n {
      MulMonotone(n, i, s.chunkSize);
    }
    if i < 0 {
      MulMonotone(i, -1, s.chunkSize);
    }
    PieceBounds(s, i);
    assert s.Offset(i + 1) == s.Offset(i) + s.chunkSize;
  }

  lemma OffsetZero(s: Session)
    ensures s.Offset(0) == 0
  {
  }

  lemma ChunkOfByte(s: Session, i: int, k: int)
    requires s.Sane() && 0 <= k < s.chunkSize
    ensures (s.Offset(i) + k) / s.chunkSize == i && (s.Offset(i) + k) % s.chunkSize == k
  {
    var x := s.Offset(i) + k;
    var q := x / s.chunkSize;
    assert x == q * s.chunkSize + x % s.chunkSize;
    assert (q + 1) * s.chunkSize == q * s.chunkSize + s.chunkSize;
    assert (i + 1) * s.chunkSize == i * s.chunkSize + s.chunkSize;
    if q < i {
      MulMonotone(q + 1, i, s.chunkSize);
    }
    if q > i {
      MulMonotone(i + 1, q, s.chunkSize);
    }
  }

  // --- The file a set of chunks stands for ---------------------------------------------------

  /** The file whose byte j is byte (j mod chunk size) of chunk (j div chunk size). */
  function Content(s: Session, chunks: Chunks): (file: seq<Byte>)
    requires s.Sane() && s.totalSize >= 0 && s.Holds(chunks) && s.Covered(chunks)
    ensures |file| == s.totalSize
  {
    seq(s.totalSize, j requires 0 <= j < s.totalSize =>
      ByteInChunk(s, j);
      chunks[j / s.chunkSize][j % s.chunkSize])
  }

  /** `buf[cursor:cursor + |data|] = data` of a bytearray, which clamps both ends. */
  function Overlaid(buf: seq<Byte>, cursor: nat, data: seq<Byte>): seq<Byte> {
    var lo := if cursor <= |buf| then cursor else |buf|;
    var hi := if cursor + |data| <= |buf| then cursor + |data| else |buf|;
    buf[..lo] + data + buf[hi..]
  }

  lemma OverlaidFront(buf: seq<Byte>, cursor: nat, data: seq<Byte>)
    requires cursor + |data| <= |buf|
    ensures |Overlaid(buf, cursor, data)| == |buf|
    ensures Overlaid(buf, cursor, data)[..cursor + |data|] == buf[..cursor] + data
  {
  }

  /** The first `k` chunks, end to end. */
  ghost function Front(chunks: Chunks, k: nat): seq<Byte>
    requires forall i | 0 <= i < k :: i in chunks
  {
    if k == 0 then [] else Front(chunks, k - 1) + chunks[k - 1]
  }

  lemma {:induction false} FrontIsContent(s: Session, chunks: Chunks, k: nat)
    requires s.Sane() && s.totalSize >= 0 && s.Holds(chunks) && s.Covered(chunks) && k <= s.ExpectedChunks()
    requires forall i | 0 <= i < k :: i in chunks
    ensures |Front(chunks, k)| == if k == s.ExpectedChunks() then s.totalSize else s.Offset(k)
    ensures Front(chunks, k) <= Content(s, chunks)
  {
    hide Session.ExpectedChunks, Session.Offset, Session.SizeOf;
    ExpectedChunksIsCeiling(s);
    OffsetZero(s);
    if k > 0 {
      FrontIsContent(s, chunks, k - 1);
      PieceBounds(s, k - 1);
      assert s.Accepts(Write(k - 1, chunks[k - 1]));
      var start := s.Offset(k - 1);
      forall j | start <= j < start + |chunks[k - 1]| ensures Content(s, chunks)[j] == chunks[k - 1][j - start] {
        ChunkOfByte(s, k - 1, j - start);
      }
    }
  }

  /** Cutting a file into its pieces and putting them together again gives the file. */
  lemma SplitThenJoin(s: Session, file: seq<Byte>, chunks: Chunks)
    requires s.Sane() && |file| == s.totalSize && s.Holds(chunks) && s.Covered(chunks)
    requires forall i | s.InRange(i) :: chunks[i] == s.Piece(file, i)
    ensures Content(s, chunks) == file
  {
    forall j | 0 <= j < |file| ensures Content(s, chunks)[j] == file[j] {
      ByteInChunk(s, j);
      PieceBounds(s, j / s.chunkSize);
    }
  }

  // --- Runs ----------------------------------------------------------------------------------

  /** The chunks on disk after a sequence of write requests, refused ones included. */
  function Stored(s: Session, writes: seq<Write>): (chunks: Chunks)
    requires s.Sane()
    ensures s.Holds(chunks)
  {
    if writes == [] then map[] else
      var w := writes[|writes| - 1];
      var before := Stored(s, writes[..|writes| - 1]);
      if s.Accepts(w) then before[w.index := w.data] else before
  }

  /** Write `n` is the last accepted one for its chunk. */
  ghost predicate IsLast(s: Session, writes: seq<Write>, n: nat)
    requires s.Sane()
  {
    && n < |writes| && s.Accepts(writes[n])
    && forall m | n < m < |writes| && s.Accepts(writes[m]) :: writes[m].index != writes[n].index
  }

  /** The last accepted write to a chunk, -1 without one. */
  function LastTo(s: Session, writes: seq<Write>, i: int): (n: int)
    requires s.Sane()
    ensures -1 <= n < |writes|
  {
    if writes == [] then -1
    else if s.Accepts(writes[|writes| - 1]) && writes[|writes| - 1].index == i then |writes| - 1
    else LastTo(s, writes[..|writes| - 1], i)
  }

  lemma {:induction false} LastToIsLast(s: Session, writes: seq<Write>, i: int)
    requires s.Sane()
    ensures forall m | LastTo(s, writes, i) < m < |writes| && s.Accepts(writes[m]) :: writes[m].index != i
    ensures LastTo(s, writes, i) >= 0 ==>
              s.Accepts(writes[LastTo(s, writes, i)]) && writes[LastTo(s, writes, i)].index == i
  {
    hide Session.Accepts;
    if writes != [] {
      var init := writes[..|writes| - 1];
      LastToIsLast(s, init, i);
      assert forall m | 0 <= m < |init| :: init[m] == writes[m];
    }
  }

  lemma {:induction false} LastToIsStored(s: Session, writes: seq<Write>, i: int)
    requires s.Sane()
    ensures i in Stored(s, writes) <==> LastTo(s, writes, i) >= 0
    ensures i in Stored(s, writes) ==> Stored(s, writes)[i] == writes[LastTo(s, writes, i)].data
  {
    hide Session.Accepts;
    if writes != [] {
      LastToIsStored(s, writes[..|writes| - 1], i);
    }
  }

  /** A chunk is present exactly when a write to it was accepted, and holds the last such write. */
  lemma StoredIsLastWrite(s: Session, writes: seq<Write>, i: int)
    requires s.Sane()
    ensures i in Stored(s, writes) <==> exists n | 0 <= n < |writes| :: s.Accepts(writes[n]) && writes[n].index == i
    ensures i in Stored(s, writes) ==>
              exists n: nat :: IsLast(s, writes, n) && writes[n] == Write(i, Stored(s, writes)[i])
  {
    hide Session.Accepts;
    LastToIsLast(s, writes, i);
    LastToIsStored(s, writes, i);
    var n := LastTo(s, writes, i);
    if n >= 0 {
      assert IsLast(s, writes, n) && writes[n] == Write(i, Stored(s, writes)[i]);
    }
  }

  lemma LastWriteIsStored(s: Session, writes: seq<Write>, n: nat)
    requires s.Sane() && IsLast(s, writes, n)
    ensures writes[n].index in Stored(s, writes) && Stored(s, writes)[writes[n].index] == writes[n].data
  {
    var i := writes[n].index;
    StoredIsLastWrite(s, writes, i);
    var k: nat :| IsLast(s, writes, k) && writes[k] == Write(i, Stored(s, writes)[i]);
    assert k == n;
  }

  /** Each byte of the reassembled file comes from the last accepted write to its chunk. */
  lemma ByteComesFromLastWrite(s: Session, writes: seq<Write>, n: nat, k: nat)
    requires s.Sane() && s.totalSize >= 0 && s.Covered(Stored(s, writes))
    requires IsLast(s, writes, n) && k < |writes[n].data|
    ensures s.Offset(writes[n].index) + k < s.totalSize
    ensures Content(s, Stored(s, writes))[s.Offset(writes[n].index) + k] == writes[n].data[k]
  {
    var i := writes[n].index;
    LastWriteIsStored(s, writes, n);
    PieceBounds(s, i);
    ChunkOfByte(s, i, k);
  }

  /** Uploading the pieces of a file, in any order, repeated and mixed with refused requests,
      reassembles to that file once each piece was sent. */
  lemma UploadIsIdentity(s: Session, file: seq<Byte>, writes: seq<Write>)
    requires s.Sane() && |file| == s.totalSize
    requires forall n | 0 <= n < |writes| && s.Accepts(writes[n]) :: writes[n].data == s.Piece(file, writes[n].index)
    requires forall i | s.InRange(i) :: Write(i, s.Piece(file, i)) in writes
    ensures s.Covered(Stored(s, writes)) && Content(s, Stored(s, writes)) == file
  {
    forall i | s.InRange(i) ensures i in Stored(s, writes) && Stored(s, writes)[i] == s.Piece(file, i) {
      PieceBounds(s, i);
      var n :| 0 <= n < |writes| && writes[n] == Write(i, s.Piece(file, i));
      assert s.Accepts(writes[n]);
      StoredIsLastWrite(s, writes, i);
    }
    SplitThenJoin(s, file, Stored(s, writes));
  }

  // --- The store -----------------------------------------------------------------------------

  /** The chunk directory of one session. */
  class UploadStore {
    const session: Session
    var chunks: Chunks

    ghost predicate Valid()
      reads this
    {
      session.Sane() && session.Holds(chunks)
    }

    constructor (session: Session)
      requires session.Sane()
      ensures Valid() && this.session == session && chunks == Stored(session, [])
    {
      this.session, chunks := session, map[];
    }

    method WriteChunk(index: int, data: seq<Byte>) returns (r: Result<(), Error>)
      requires Valid()
      modifies this
      ensures Valid()
      ensures r.Ok? <==> session.Accepts(Write(index, data))
      ensures chunks == if r.Ok? then old(chunks)[index := data] else old(chunks)
      ensures !session.InRange(index) ==> r == Err(IndexOutOfRange(index))
      ensures session.InRange(index) && !r.Ok? ==> r == Err(WrongSize(|data|, session.SizeOf(index)))
    {
      var expected := session.ExpectedChunks();
      if index < 0 || index >= expected {
        return Err(IndexOutOfRange(index));
      }
      var isLast := index == expected - 1;
      var size := if isLast then session.totalSize - session.chunkSize * (expected - 1) else session.chunkSize;
      if |data| != size {
        return Err(WrongSize(|data|, size));
      }
      chunks := chunks[index := data];
      return Ok(());
    }

    /** The indices on disk, ascending. */
    method ReceivedIndices() returns (indices: seq<int>)
      requires Valid()
      ensures Ascending(indices)
      ensures forall i :: i in indices <==> i in chunks
    {
      indices := Sort(chunks.Keys);
    }

    /** Fills a zeroed buffer front to back; fails at the first chunk that is missing. */
    method Assemble() returns (r: Result<seq<Byte>, Error>)
      requires Valid()
      ensures r.Ok? <==> session.totalSize >= 0 && session.Covered(chunks)
      ensures r.Ok? ==> r.value == Content(session, chunks)
      ensures r.Err? && session.totalSize >= 0 ==>
                exists i :: r == Err(MissingChunk(i)) && session.InRange(i) && i !in chunks
                            && forall k | 0 <= k < i :: k in chunks
    {
      hide Overlaid, Session.Offset, Session.ExpectedChunks;
      assert session.Offset(0) == 0 by { OffsetZero(session); }
      if session.totalSize < 0 {
        return Err(SizeMismatch);
      }
      var buf := seq(session.totalSize, _ => 0);
      var cursor: nat := 0;
      ExpectedChunksIsCeiling(session);
      for index := 0 to session.ExpectedChunks()
        invariant |buf| == session.totalSize
        invariant cursor == if index == session.ExpectedChunks() then session.totalSize else session.Offset(index)
        invariant cursor <= session.totalSize
        invariant forall k | 0 <= k < index :: k in chunks
        invariant buf[..cursor] == Front(chunks, index)
      {
        if index !in chunks {
          return Err(MissingChunk(index));
        }
        var data := chunks[index];
        assert session.Accepts(Write(index, data));
        PieceBounds(session, index);
        ghost var was := buf;
        buf := Overlaid(buf, cursor, data);
        OverlaidFront(was, cursor, data);
        cursor := cursor + |data|;
      }
      if cursor != session.totalSize {
        return Err(SizeMismatch);
      }
      FrontIsContent(session, chunks, session.ExpectedChunks());
      assert buf[..cursor] == buf;
      return Ok(buf);
    }

    /** The completion endpoint: every expected index must have arrived. */
    method Complete() returns (r: Result<seq<Byte>, Error>)
      requires Valid()
      ensures r.Ok? <==> session.totalSize >= 0 && session.Covered(chunks)
      ensures r.Ok? ==> r.value == Content(session, chunks)
      ensures !session.Covered(chunks) ==> r == Err(MissingChunks)
    {
      var received := ReceivedIndices();
      var n := session.ExpectedChunks();
      ExpectedChunksIsCeiling(session);
      if |received| != n || received != seq(n, i => i) {
        if session.Covered(chunks) {
          var range := seq(n, i => i);
          forall i ensures i in received <==> i in range {
            assert 0 <= i < n ==> range[i] == i;
            assert i in chunks ==> session.Accepts(Write(i, chunks[i]));
          }
          AscendingIsUnique(received, range);
        }
        return Err(MissingChunks);
      }
      assert forall i | 0 <= i < n :: received[i] == i;
      forall i | session.InRange(i) ensures i in chunks {
        assert received[i] in received;
      }
      r := Assemble();
    }
  }

  /** A whole upload: any write requests in any order, then completion. */
  method Upload(s: Session, writes: seq<Write>) returns (r: Result<seq<Byte>, Error>)
    requires s.Sane()
    ensures r.Ok? <==> s.totalSize >= 0 && s.Covered(Stored(s, writes))
    ensures r.Ok? ==> r.value == Content(s, Stored(s, writes))
  {
    var store := new UploadStore(s);
    for n := 0 to |writes|
      invariant store.Valid() && store.session == s
      invariant store.chunks == Stored(s, writes[..n])
    {
      assert writes[..n + 1][..n] == writes[..n];
      var _ := store.WriteChunk(writes[n].index, writes[n].data);
    }
    assert writes[..|writes|] == writes;
    r := store.Complete();
  }
}
