/** Splitting the import of a file into jobs (`_extract_chunks`, `_split_file`), and
  * the order in which a channel delivers these jobs.
  */
module ImportChunks {
  import opened ChannelJobs

  /** Rows `from` to `to`, both included. */
  datatype Range = Range(from: nat, to: nat)

  /** Consecutive non-empty ranges that cover exactly the rows from `a` up to but not
    * including `b`. */
  ghost predicate Tiles(rs: seq<Range>, a: nat, b: nat) {
    && (if rs == [] then a == b else rs[0].from == a && rs[|rs| - 1].to + 1 == b)
    && (forall i :: 0 <= i < |rs| ==> rs[i].from <= rs[i].to)
    && (forall i :: 0 < i < |rs| ==> rs[i].from == rs[i - 1].to + 1)
  }

  /** A record ends with row `to`. */
  ghost predicate EndsRecord(records: seq<Range>, to: nat) {
    exists r :: r in records && r.to == to
  }

  /** A record that ends within rows `from` to `to` but not at `to` is too early an
    * end for a chunk. */
  ghost predicate NoEarlierEnd(records: seq<Range>, size: int, from: nat, to: nat) {
    forall r :: r in records && from <= r.to < to ==> r.to - from + 1 < size
  }

  /** A chunk that ends with a record, has at least `size` rows unless it is the last
    * one, and could not have ended earlier. */
  ghost predicate GoodChunk(records: seq<Range>, size: int, chunk: Range, last: bool) {
    && EndsRecord(records, chunk.to)
    && (last || chunk.to - chunk.from + 1 >= size)
    && NoEarlierEnd(records, size, chunk.from, chunk.to)
  }

  /** The rows cut at record boundaries into chunks of at least `size` rows (except
    * perhaps the last), each as short as that allows. */
  ghost predicate IsChunking(records: seq<Range>, rows: nat, size: int, chunks: seq<Range>) {
    Tiles(chunks, 0, rows) && forall k :: 0 <= k < |chunks| ==> GoodChunk(records, size, chunks[k], k == |chunks| - 1)
  }

  /** The chunks of the rows before `rowFrom`. */
  ghost predicate ChunksSoFar(records: seq<Range>, size: int, chunks: seq<Range>, rowFrom: nat) {
    Tiles(chunks, 0, rowFrom) && forall k :: 0 <= k < |chunks| ==> GoodChunk(records, size, chunks[k], false)
  }

  lemma OneMoreTile(rs: seq<Range>, a: nat, b: nat, to: nat)
    requires Tiles(rs, a, b) && b <= to
    ensures Tiles(rs + [Range(b, to)], a, to + 1)
  {
  }

  lemma OneMoreChunk(records: seq<Range>, size: int, chunks: seq<Range>, rowFrom: nat, to: nat)
    requires ChunksSoFar(records, size, chunks, rowFrom) && rowFrom <= to
    ensures GoodChunk(records, size, Range(rowFrom, to), false) ==>
      ChunksSoFar(records, size, chunks + [Range(rowFrom, to)], to + 1)
    ensures GoodChunk(records, size, Range(rowFrom, to), true) ==>
      IsChunking(records, to + 1, size, chunks + [Range(rowFrom, to)])
  {
    OneMoreTile(chunks, 0, rowFrom, to);
  }

  lemma {:induction false} TilesMonotone(rs: seq<Range>, a: nat, b: nat, i: nat, j: nat)
    requires Tiles(rs, a, b) && i < j < |rs|
    ensures rs[i].to < rs[j].from
  {
    if i + 1 < j {
      TilesMonotone(rs, a, b, i, j - 1);
    }
  }

  lemma TilesBounds(rs: seq<Range>, a: nat, b: nat, i: nat)
    requires Tiles(rs, a, b) && i < |rs|
    ensures a <= rs[i].from && rs[i].to < b
  {
    if i > 0 {
      TilesMonotone(rs, a, b, 0, i);
    }
    if i < |rs| - 1 {
      TilesMonotone(rs, a, b, i, |rs| - 1);
    }
  }

  /** The row after the first `k` ranges. */
  function RowAfter(rs: seq<Range>, k: nat): nat
    requires k <= |rs|
  {
    if k == 0 then 0 else rs[k - 1].to + 1
  }

  lemma MoreRanges(rs: seq<Range>, rows: nat, k: nat)
    requires Tiles(rs, 0, rows) && k <= |rs|
    ensures RowAfter(rs, k) < rows <==> k < |rs|
    ensures k < |rs| ==> rs[k].from == RowAfter(rs, k)
  {
    if k < |rs| {
      TilesBounds(rs, 0, rows, k);
    }
  }

  /** `_extract_chunks`, given the row ranges of the records of the file. */
  method ExtractChunks(records: seq<Range>, rows: nat, size: int) returns (chunks: seq<Range>)
    requires Tiles(records, 0, rows)
    ensures IsChunking(records, rows, size, chunks)
  {
    chunks := [];
    var rowFrom: nat := 0;
    for i := 0 to |records|
      invariant UpTo(records, size, chunks, rowFrom, i)
    {
      NextRecord(records, rows, size, chunks, rowFrom, i);
      if records[i].to - rowFrom + 1 >= size {
        chunks := chunks + [Range(rowFrom, records[i].to)];
        rowFrom := records[i].to + 1;
      }
    }
    LastRecord(records, rows, size, chunks, rowFrom);
    if rowFrom < rows {
      chunks := chunks + [Range(rowFrom, rows - 1)];
    }
  }

  /** The first `i` records are in chunks, except for the rows from `rowFrom` on. */
  ghost predicate UpTo(records: seq<Range>, size: int, chunks: seq<Range>, rowFrom: nat, i: nat)
    requires i <= |records|
  {
    && ChunksSoFar(records, size, chunks, rowFrom)
    && rowFrom <= RowAfter(records, i) && NoEarlierEnd(records, size, rowFrom, RowAfter(records, i))
  }

  lemma NextRecord(records: seq<Range>, rows: nat, size: int, chunks: seq<Range>, rowFrom: nat, i: nat)
    requires Tiles(records, 0, rows) && i < |records| && UpTo(records, size, chunks, rowFrom, i)
    ensures if records[i].to - rowFrom + 1 >= size
      then UpTo(records, size, chunks + [Range(rowFrom, records[i].to)], records[i].to + 1, i + 1)
      else UpTo(records, size, chunks, rowFrom, i + 1)
  {
    OneMoreRecord(records, rows, size, rowFrom, i);
    OneMoreChunk(records, size, chunks, rowFrom, records[i].to);
  }

  lemma LastRowsAreGood(records: seq<Range>, rows: nat, size: int, rowFrom: nat)
    requires Tiles(records, 0, rows) && rowFrom < rows && rowFrom <= RowAfter(records, |records|)
    requires NoEarlierEnd(records, size, rowFrom, RowAfter(records, |records|))
    ensures GoodChunk(records, size, Range(rowFrom, rows - 1), true)
  {
    MoreRanges(records, rows, |records|);
    assert records[|records| - 1] in records;
  }

  lemma LastRecord(records: seq<Range>, rows: nat, size: int, chunks: seq<Range>, rowFrom: nat)
    requires Tiles(records, 0, rows) && UpTo(records, size, chunks, rowFrom, |records|)
    ensures rowFrom < rows ==> IsChunking(records, rows, size, chunks + [Range(rowFrom, rows - 1)])
    ensures rowFrom >= rows ==> IsChunking(records, rows, size, chunks)
  {
    EndOfTiles(records, rows);
    if rowFrom < rows {
      LastChunk(records, rows, size, chunks, rowFrom);
    } else {
      AllChunksFull(records, rows, size, chunks);
    }
  }

  lemma LastChunk(records: seq<Range>, rows: nat, size: int, chunks: seq<Range>, rowFrom: nat)
    requires Tiles(records, 0, rows) && rowFrom < rows && ChunksSoFar(records, size, chunks, rowFrom)
    requires rowFrom <= RowAfter(records, |records|) && NoEarlierEnd(records, size, rowFrom, RowAfter(records, |records|))
    ensures IsChunking(records, rows, size, chunks + [Range(rowFrom, rows - 1)])
  {
    LastRowsAreGood(records, rows, size, rowFrom);
    OneMoreChunk(records, size, chunks, rowFrom, rows - 1);
  }

  lemma AllChunksFull(records: seq<Range>, rows: nat, size: int, chunks: seq<Range>)
    requires ChunksSoFar(records, size, chunks, rows)
    ensures IsChunking(records, rows, size, chunks)
  {
  }

  lemma OneMoreRecord(records: seq<Range>, rows: nat, size: int, rowFrom: nat, i: nat)
    requires Tiles(records, 0, rows) && i < |records|
    requires rowFrom <= RowAfter(records, i) && NoEarlierEnd(records, size, rowFrom, RowAfter(records, i))
    ensures rowFrom <= records[i].to
    ensures if records[i].to - rowFrom + 1 >= size
      then GoodChunk(records, size, Range(rowFrom, records[i].to), false)
        && NoEarlierEnd(records, size, RowAfter(records, i + 1), RowAfter(records, i + 1))
      else NoEarlierEnd(records, size, rowFrom, RowAfter(records, i + 1))
  {
    forall r | r in records && rowFrom <= r.to < records[i].to ensures r.to - rowFrom + 1 < size {
      var j: nat :| j < |records| && records[j] == r;
      if j > i {
        TilesMonotone(records, 0, rows, i, j);
      }
      if 0 < i && j < i - 1 {
        TilesMonotone(records, 0, rows, j, i - 1);
      }
    }
    MoreRanges(records, rows, i);
    assert records[i] in records;
  }

  lemma EndsNoEarlier(records: seq<Range>, rows: nat, size: int, a: seq<Range>, b: seq<Range>, k: nat)
    requires IsChunking(records, rows, size, a) && IsChunking(records, rows, size, b)
    requires k < |a| && k < |b| && a[k].from == b[k].from
    ensures a[k].to >= b[k].to
  {
    TilesBounds(b, 0, rows, k);
    var r :| r in records && r.to == a[k].to;
  }

  lemma SameNextChunk(records: seq<Range>, rows: nat, size: int, a: seq<Range>, b: seq<Range>, k: nat)
    requires IsChunking(records, rows, size, a) && IsChunking(records, rows, size, b)
    requires k < |a| && k <= |b| && RowAfter(a, k) == RowAfter(b, k)
    ensures k < |b| && a[k] == b[k]
  {
    MoreRanges(a, rows, k);
    MoreRanges(b, rows, k);
    EndsNoEarlier(records, rows, size, a, b, k);
    EndsNoEarlier(records, rows, size, b, a, k);
  }

  /** There is only one such way to cut the rows: the first `k` chunks are the same. */
  lemma {:induction false} SameFirstChunks(records: seq<Range>, rows: nat, size: int, a: seq<Range>, b: seq<Range>, k: nat)
    requires IsChunking(records, rows, size, a) && IsChunking(records, rows, size, b) && k <= |a|
    ensures k <= |b| && forall i :: 0 <= i < k ==> a[i] == b[i]
  {
    if k > 0 {
      SameFirstChunks(records, rows, size, a, b, k - 1);
      SameNextChunk(records, rows, size, a, b, k - 1);
    }
  }

  lemma ChunkingIsUnique(records: seq<Range>, rows: nat, size: int, a: seq<Range>, b: seq<Range>)
    requires IsChunking(records, rows, size, a) && IsChunking(records, rows, size, b)
    ensures a == b
  {
    SameFirstChunks(records, rows, size, a, b, |a|);
    SameFirstChunks(records, rows, size, b, a, |b|);
  }

  /** No record is cut: every record lies within one chunk. */
  lemma RecordsStayWhole(records: seq<Range>, rows: nat, size: int, chunks: seq<Range>, i: nat, k: nat)
    requires Tiles(records, 0, rows) && IsChunking(records, rows, size, chunks)
    requires i < |records| && k < |chunks| && chunks[k].from <= records[i].from <= chunks[k].to
    ensures records[i].to <= chunks[k].to
  {
    var r :| r in records && r.to == chunks[k].to;
    var j: nat :| j < |records| && records[j] == r;
    if j < i {
      TilesMonotone(records, 0, rows, j, i);
    } else if i < j {
      TilesMonotone(records, 0, rows, i, j);
    }
  }

  // --------------------------------------------------------- a short last chunk

  function Length(r: Range): int { r.to - r.from + 1 }

  /** The rows left over after the records, each time enough rows for a chunk have come
    * together being a new start. */
  function Rest(records: seq<Range>, size: int): int {
    if records == [] then 0
    else
      var rest := Rest(records[..|records| - 1], size) + Length(records[|records| - 1]);
      if rest >= size then 0 else rest
  }

  /** After the first `i` records, `k` chunks of full size are complete and the rest is
    * in chunk `k`, which goes on unless it is the last one and short. */
  ghost predicate RestIn(records: seq<Range>, size: int, chunks: seq<Range>, i: nat, k: nat)
    requires i <= |records| && k <= |chunks|
  {
    && RowAfter(chunks, k) <= RowAfter(records, i)
    && Rest(records[..i], size) == RowAfter(records, i) - RowAfter(chunks, k)
    && (k > 0 ==> Length(chunks[k - 1]) >= size)
    && (k < |chunks| && RowAfter(records, i) > chunks[k].to ==>
          k == |chunks| - 1 && RowAfter(records, i) == chunks[k].to + 1 && Length(chunks[k]) < size)
  }

  /** A record that begins within a chunk ends within it. */
  lemma RecordEndsInChunk(records: seq<Range>, rows: nat, size: int, chunks: seq<Range>, i: nat, k: nat)
    requires Tiles(records, 0, rows) && IsChunking(records, rows, size, chunks) && i < |records| && k < |chunks|
    requires RowAfter(chunks, k) <= RowAfter(records, i) <= chunks[k].to
    ensures records[i].from == RowAfter(records, i) && chunks[k].from == RowAfter(chunks, k)
    ensures records[i].from <= records[i].to <= chunks[k].to
    ensures records[i].to < chunks[k].to ==> records[i].to - chunks[k].from + 1 < size
    ensures k < |chunks| - 1 ==> Length(chunks[k]) >= size
  {
    MoreRanges(records, rows, i);
    MoreRanges(chunks, rows, k);
    assert GoodChunk(records, size, chunks[k], k == |chunks| - 1);
    RecordsStayWhole(records, rows, size, chunks, i, k);
    assert records[i] in records;
  }

  /** As long as records are left there is a chunk that goes on. */
  lemma NotYetDone(records: seq<Range>, rows: nat, size: int, chunks: seq<Range>, i: nat, k: nat)
    requires Tiles(records, 0, rows) && Tiles(chunks, 0, rows) && i < |records| && k <= |chunks|
    requires RestIn(records, size, chunks, i, k)
    ensures k < |chunks| && RowAfter(records, i) <= chunks[k].to
  {
    MoreRanges(records, rows, i);
    MoreRanges(chunks, rows, k);
    EndOfTiles(chunks, rows);
  }

  lemma RestOneMore(records: seq<Range>, size: int, i: nat)
    requires i < |records|
    ensures var rest := Rest(records[..i], size) + Length(records[i]);
      Rest(records[..i + 1], size) == if rest >= size then 0 else rest
  {
    assert records[..i + 1][..i] == records[..i];
  }

  lemma ChunkFull(records: seq<Range>, size: int, chunks: seq<Range>, i: nat, k: nat)
    requires i < |records| && k < |chunks| && RestIn(records, size, chunks, i, k)
    requires Rest(records[..i + 1], size) == 0 && records[i].to == chunks[k].to && Length(chunks[k]) >= size
    requires k + 1 < |chunks| ==> chunks[k].to < chunks[k + 1].to
    ensures RestIn(records, size, chunks, i + 1, k + 1)
  {
  }

  lemma ChunkGoesOn(records: seq<Range>, size: int, chunks: seq<Range>, i: nat, k: nat)
    requires i < |records| && k < |chunks| && RestIn(records, size, chunks, i, k)
    requires Rest(records[..i + 1], size) == RowAfter(records, i + 1) - RowAfter(chunks, k)
    requires RowAfter(chunks, k) <= RowAfter(records, i + 1) <= chunks[k].to + 1
    requires records[i].to == chunks[k].to ==> k == |chunks| - 1 && Length(chunks[k]) < size
    ensures RestIn(records, size, chunks, i + 1, k)
  {
  }

  lemma NextRest(records: seq<Range>, rows: nat, size: int, chunks: seq<Range>, i: nat, k: nat) returns (k': nat)
    requires Tiles(records, 0, rows) && IsChunking(records, rows, size, chunks) && i < |records| && k <= |chunks|
    requires RestIn(records, size, chunks, i, k)
    ensures k' <= |chunks| && RestIn(records, size, chunks, i + 1, k')
  {
    NotYetDone(records, rows, size, chunks, i, k);
    RecordEndsInChunk(records, rows, size, chunks, i, k);
    RestOneMore(records, size, i);
    if Rest(records[..i], size) + Length(records[i]) >= size {
      k' := k + 1;
      NextChunkEndsLater(chunks, rows, k);
      ChunkFull(records, size, chunks, i, k);
    } else {
      k' := k;
      ChunkGoesOn(records, size, chunks, i, k);
    }
  }

  lemma NextChunkEndsLater(chunks: seq<Range>, rows: nat, k: nat)
    requires Tiles(chunks, 0, rows) && k < |chunks|
    ensures k + 1 < |chunks| ==> chunks[k].to < chunks[k + 1].to
  {
  }

  lemma {:induction false} RestAfter(records: seq<Range>, rows: nat, size: int, chunks: seq<Range>, i: nat) returns (k: nat)
    requires Tiles(records, 0, rows) && IsChunking(records, rows, size, chunks) && i <= |records|
    ensures k <= |chunks| && RestIn(records, size, chunks, i, k)
  {
    if i == 0 {
      k := 0;
      if chunks != [] {
        TilesBounds(chunks, 0, rows, 0);
      }
    } else {
      var j := RestAfter(records, rows, size, chunks, i - 1);
      k := NextRest(records, rows, size, chunks, i - 1, j);
    }
  }

  /** The last chunk is smaller than the chunk size if and only if rows are left over,
    * which can be told from the records alone. */
  lemma LastChunkShortExactly(records: seq<Range>, rows: nat, size: int, chunks: seq<Range>)
    requires Tiles(records, 0, rows) && IsChunking(records, rows, size, chunks)
    ensures (chunks != [] && Length(chunks[|chunks| - 1]) < size) <==> Rest(records, size) > 0
  {
    var k := RestAfter(records, rows, size, chunks, |records|);
    assert records[..|records|] == records;
    EndOfTiles(records, rows);
    EndOfTiles(chunks, rows);
    LastRestDecides(records, rows, size, chunks, k);
  }

  lemma EndOfTiles(rs: seq<Range>, rows: nat)
    requires Tiles(rs, 0, rows)
    ensures RowAfter(rs, |rs|) == rows
  {
  }

  lemma LastRestDecides(records: seq<Range>, rows: nat, size: int, chunks: seq<Range>, k: nat)
    requires Tiles(chunks, 0, rows) && k <= |chunks| && RowAfter(records, |records|) == rows && RowAfter(chunks, |chunks|) == rows
    requires records[..|records|] == records && RestIn(records, size, chunks, |records|, k)
    ensures (chunks != [] && Length(chunks[|chunks| - 1]) < size) <==> Rest(records, size) > 0
  {
    if k < |chunks| {
      TilesBounds(chunks, 0, rows, k);
      MoreRanges(chunks, rows, k);
    }
  }

  /** For a file of one-row records that is when the size does not divide the rows. */
  lemma RestOfSingleRows(records: seq<Range>, size: int)
    requires size > 0 && forall i :: 0 <= i < |records| ==> records[i].from == records[i].to
    ensures Rest(records, size) == |records| % size
  {
    var q := FullChunksOfSingleRows(records, size);
    ModuloUnique(|records|, size, q, Rest(records, size));
  }

  lemma {:induction false} FullChunksOfSingleRows(records: seq<Range>, size: int) returns (q: int)
    requires size > 0 && forall i :: 0 <= i < |records| ==> records[i].from == records[i].to
    ensures |records| == q * size + Rest(records, size) && 0 <= Rest(records, size) < size
  {
    if records == [] {
      q := 0;
    } else {
      var init := records[..|records| - 1];
      var p := FullChunksOfSingleRows(init, size);
      assert Length(records[|records| - 1]) == 1;
      q := if Rest(init, size) + 1 >= size then p + 1 else p;
      assert (p + 1) * size == p * size + size;
    }
  }

  lemma MultipleGap(d: int, size: int)
    requires size > 0 && d >= 1
    ensures d * size >= size
  {
    assert (d - 1) * size >= 0;
    assert d * size == (d - 1) * size + size;
  }

  lemma RemainderUnique(size: int, q: int, r: int, q': int, r': int)
    requires size > 0 && q * size + r == q' * size + r' && 0 <= r < size && 0 <= r' < size
    ensures r == r'
  {
    assert (q - q') * size == q * size - q' * size;
    assert (q' - q) * size == q' * size - q * size;
    if q > q' {
      MultipleGap(q - q', size);
    } else if q < q' {
      MultipleGap(q' - q, size);
    }
  }

  lemma ModuloUnique(n: int, size: int, q: int, r: int)
    requires size > 0 && n == q * size + r && 0 <= r < size
    ensures n % size == r
  {
    var q', r' := n / size, n % size;
    assert n == q' * size + r';
    RemainderUnique(size, q, r, q', r');
  }

  /** Three rows and a chunk size of two: the last chunk has one row only. */
  lemma ThreeRowsInTwos()
    ensures var records := [Range(0, 0), Range(1, 1), Range(2, 2)];
      && Tiles(records, 0, 3) && IsChunking(records, 3, 2, [Range(0, 1), Range(2, 2)])
      && Length(Range(2, 2)) < 2
  {
    var records := [Range(0, 0), Range(1, 1), Range(2, 2)];
    var chunks := [Range(0, 1), Range(2, 2)];
    assert records[1] in records && records[2] in records;
    assert GoodChunk(records, 2, chunks[0], false) && GoodChunk(records, 2, chunks[1], true);
  }

  // ------------------------------------------------------------------ the jobs

  type CsvRow = seq<string>

  /** A job that imports some rows of the file. */
  datatype ChunkJob = ChunkJob(key: Key, rows: seq<CsvRow>)

  /** The rows that the jobs import, in the order of the jobs. */
  function AllRows(jobs: seq<ChunkJob>): seq<CsvRow> {
    if jobs == [] then [] else AllRows(jobs[..|jobs| - 1]) + jobs[|jobs| - 1].rows
  }

  /** Earlier jobs have a smaller priority number, whatever their creation dates. */
  ghost predicate InFileOrder(jobs: seq<ChunkJob>) {
    forall i, j :: 0 <= i < j < |jobs| ==> jobs[i].key.priority < jobs[j].key.priority
  }

  /** A job imports the rows of a chunk with a priority. */
  predicate Carries(job: ChunkJob, data: seq<CsvRow>, chunk: Range, priority: int) {
    && chunk.from <= chunk.to < |data|
    && job.rows == data[chunk.from..chunk.to + 1] && job.key.priority == priority
  }

  /** `_split_file`: `stamp(i)` is the creation date and sequence number that the i-th
    * job gets. Together the jobs import the rows of the file, all and in order. */
  method SplitFile(records: seq<Range>, data: seq<CsvRow>, size: int, priority: int, stamp: nat -> (int, int))
      returns (jobs: seq<ChunkJob>, ghost chunks: seq<Range>)
    requires Tiles(records, 0, |data|)
    ensures AllRows(jobs) == data && InFileOrder(jobs)
    ensures IsChunking(records, |data|, size, chunks) && |jobs| == |chunks| && FirstJobs(jobs, data, chunks, priority)
  {
    var ranges := ExtractChunks(records, |data|, size);
    chunks := ranges;
    jobs := [];
    var next := priority;
    for i := 0 to |ranges|
      invariant |jobs| == i && next == priority + i && FirstJobs(jobs, data, ranges, priority)
    {
      TilesBounds(ranges, 0, |data|, i);
      var job := ChunkJob(Key(next, stamp(i).0, stamp(i).1), data[ranges[i].from..ranges[i].to + 1]);
      jobs := jobs + [job];
      next := next + 1;
    }
    AllJobsRows(jobs, data, ranges, priority);
  }

  lemma AllJobsRows(jobs: seq<ChunkJob>, data: seq<CsvRow>, chunks: seq<Range>, priority: int)
    requires Tiles(chunks, 0, |data|) && FirstJobs(jobs, data, chunks, priority) && |jobs| == |chunks|
    ensures InFileOrder(jobs) && AllRows(jobs) == data
  {
    FirstJobsRows(jobs, data, chunks, priority);
    MoreRanges(chunks, |data|, |chunks|);
    assert data[..|data|] == data;
  }

  /** The jobs of the first chunks, with increasing priorities. */
  ghost predicate FirstJobs(jobs: seq<ChunkJob>, data: seq<CsvRow>, chunks: seq<Range>, priority: int) {
    |jobs| <= |chunks| && forall i :: 0 <= i < |jobs| ==> Carries(jobs[i], data, chunks[i], priority + i)
  }

  lemma {:induction false} FirstJobsRows(jobs: seq<ChunkJob>, data: seq<CsvRow>, chunks: seq<Range>, priority: int)
    requires Tiles(chunks, 0, |data|) && FirstJobs(jobs, data, chunks, priority)
    ensures InFileOrder(jobs)
    ensures RowAfter(chunks, |jobs|) <= |data| && AllRows(jobs) == data[..RowAfter(chunks, |jobs|)]
  {
    if jobs != [] {
      var n := |jobs| - 1;
      FirstJobsRows(jobs[..n], data, chunks, priority);
      MoreRanges(chunks, |data|, n);
      assert Carries(jobs[n], data, chunks[n], priority + n);
      assert data[..RowAfter(chunks, n)] + jobs[n].rows == data[..RowAfter(chunks, n + 1)];
    }
  }

  // ----------------------------------------------------------- their delivery

  /** While an earlier chunk is ready a later one is not delivered, whatever other
    * jobs are in the channel. */
  lemma EarlierChunkFirst<J>(sequential: bool, now: int, key: J -> Key, eta: map<J, int>,
                             ready: set<J>, waiting: set<J>, ready': set<J>, waiting': set<J>, r: Option<J>, a: J, b: J)
    requires waiting <= eta.Keys && PopSpec(sequential, now, key, eta, ready, waiting, ready', waiting', r)
    requires a in ready && key(a).priority < key(b).priority
    ensures r != Some(b)
  {
    if r == Some(b) {
      assert KeyLess(key(a), key(b));
    }
  }

  function JobKey(j: ChunkJob): Key { j.key }

  /** The jobs of a sequence as a set. */
  function Members(jobs: seq<ChunkJob>): set<ChunkJob> {
    set j | j in jobs
  }

  /** Successive calls of `ChannelQueue.pop` on a queue without waiting jobs. */
  ghost predicate Pops(sequential: bool, clock: seq<int>, readies: seq<set<ChunkJob>>, popped: seq<Option<ChunkJob>>) {
    && |clock| == |popped| && |readies| == |popped| + 1
    && forall i :: 0 <= i < |popped| ==>
      PopSpec(sequential, clock[i], JobKey, map[], readies[i], {}, readies[i + 1], {}, popped[i])
  }

  /** Once all chunk jobs are queued, they are delivered in file order: the n-th call
    * returns the n-th chunk, and later calls nothing. */
  lemma {:induction false} DeliveredInFileOrder(jobs: seq<ChunkJob>, sequential: bool, clock: seq<int>,
                                                 readies: seq<set<ChunkJob>>, popped: seq<Option<ChunkJob>>, n: nat)
    requires InFileOrder(jobs) && Pops(sequential, clock, readies, popped) && readies[0] == Members(jobs)
    requires n < |popped|
    ensures readies[n] == Members(if n < |jobs| then jobs[n..] else [])
    ensures popped[n] == if n < |jobs| then Some(jobs[n]) else None
    ensures readies[n + 1] == Members(if n < |jobs| then jobs[n + 1..] else [])
  {
    if n == 0 {
      assert jobs[0..] == jobs;
    } else {
      DeliveredInFileOrder(jobs, sequential, clock, readies, popped, n - 1);
    }
    if n < |jobs| {
      FirstIsBest(jobs, n);
      MembersTail(jobs, n);
      BestIsPopped(sequential, clock[n], readies[n], readies[n + 1], popped[n], jobs[n]);
    } else {
      NoneIsPopped(sequential, clock[n], readies[n + 1], popped[n]);
    }
  }

  lemma BestIsPopped(sequential: bool, now: int, ready: set<ChunkJob>, ready': set<ChunkJob>, r: Option<ChunkJob>, best: ChunkJob)
    requires PopSpec(sequential, now, JobKey, map[], ready, {}, ready', {}, r)
    requires best in ready && forall j :: j in ready && j != best ==> KeyLess(best.key, j.key)
    ensures r == Some(best) && ready' == ready - {best}
  {
    assert DueJobs<ChunkJob>({}, map[], now) == {};
    assert ready + {} == ready;
    assert forall j :: j in ready && j != best ==> !IsBest(ready, JobKey, j);
  }

  lemma NoneIsPopped(sequential: bool, now: int, ready': set<ChunkJob>, r: Option<ChunkJob>)
    requires PopSpec(sequential, now, JobKey, map[], {}, {}, ready', {}, r)
    ensures r == None && ready' == {}
  {
    assert DueJobs<ChunkJob>({}, map[], now) == {};
  }

  lemma MembersTail(jobs: seq<ChunkJob>, n: nat)
    requires InFileOrder(jobs) && n < |jobs|
    ensures Members(jobs[n..]) - {jobs[n]} == Members(jobs[n + 1..])
  {
    forall j | j in jobs[n + 1..] ensures j != jobs[n] && j in jobs[n..] {
      var i :| 0 <= i < |jobs| - n - 1 && jobs[n + 1..][i] == j;
      assert j == jobs[n + 1 + i] == jobs[n..][i + 1];
    }
    forall j | j in jobs[n..] && j != jobs[n] ensures j in jobs[n + 1..] {
      var i :| 0 <= i < |jobs| - n && jobs[n..][i] == j;
      assert j == jobs[n + 1..][i - 1];
    }
  }

  lemma FirstIsBest(jobs: seq<ChunkJob>, n: nat)
    requires InFileOrder(jobs) && n < |jobs|
    ensures jobs[n] in Members(jobs[n..])
    ensures forall j :: j in Members(jobs[n..]) && j != jobs[n] ==> KeyLess(jobs[n].key, j.key)
  {
    assert jobs[n..][0] == jobs[n];
  }
}
