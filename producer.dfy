/**
 * The batch cursor: scans one source table from a watermark, ordered by the
 * revision column, and hands the result out in `fetchmany`-sized batches.
 */
module Producer {
  import opened Wrappers
  import opened SeqUtil

  /** The two columns of a scanned row the pipeline reads: its id and its revision. */
  datatype SourceRow = SourceRow(id: string, updatedAt: int)

  /** The record type a producer converts its rows to. */
  datatype EntityKind = PersonEntity | FilmWorkEntity | GenreEntity

  /** The source store, as the contents of each table. */
  type Database = map<string, seq<SourceRow>>

  /** `WHERE updated_at >= start_from`, added only for a truthy watermark. */
  predicate Qualifies(row: SourceRow, startFrom: Option<int>)
  {
    startFrom.None? || row.updatedAt >= startFrom.value
  }

  /** The rows the `WHERE` clause keeps, each as often as in the table, in table order. */
  function FilterFrom(rows: seq<SourceRow>, startFrom: Option<int>): (r: seq<SourceRow>)
    ensures forall x :: x in r <==> x in rows && Qualifies(x, startFrom)
    ensures forall x :: multiset(r)[x] == if Qualifies(x, startFrom) then multiset(rows)[x] else 0
  {
    if rows == [] then []
    else
      assert rows == [rows[0]] + rows[1..];
      (if Qualifies(rows[0], startFrom) then [rows[0]] else []) + FilterFrom(rows[1..], startFrom)
  }

  predicate SortedByUpdated(s: seq<SourceRow>)
  {
    forall i, j :: 0 <= i < j < |s| ==> s[i].updatedAt <= s[j].updatedAt
  }

  function Insert(x: SourceRow, s: seq<SourceRow>): (r: seq<SourceRow>)
    requires SortedByUpdated(s)
    ensures SortedByUpdated(r) && multiset(r) == multiset(s) + multiset{x}
    ensures forall y | y in r :: y == x || y in s
  {
    if s == [] || x.updatedAt <= s[0].updatedAt then [x] + s
    else
      var t := Insert(x, s[1..]);
      assert s == [s[0]] + s[1..];
      HeadBelowTail(s);
      ConsSorted(s[0], t);
      [s[0]] + t
  }

  /** In a sorted sequence the head's revision is at most that of any later row. */
  lemma HeadBelowTail(s: seq<SourceRow>)
    requires SortedByUpdated(s) && s != []
    ensures forall y | y in s[1..] :: s[0].updatedAt <= y.updatedAt
  {
  }

  /** A row no newer than any row of a sorted sequence can go in front of it. */
  lemma ConsSorted(h: SourceRow, t: seq<SourceRow>)
    requires SortedByUpdated(t) && forall y | y in t :: h.updatedAt <= y.updatedAt
    ensures SortedByUpdated([h] + t)
  {
    var r := [h] + t;
    forall i, j | 0 <= i < j < |r|
      ensures r[i].updatedAt <= r[j].updatedAt
    {
      assert r[j] == t[j - 1];
      if i > 0 { assert r[i] == t[i - 1]; }
    }
  }

  /** `ORDER BY updated_at`; rows with equal revisions keep their table order. */
  function OrderByUpdated(s: seq<SourceRow>): (r: seq<SourceRow>)
    ensures SortedByUpdated(r) && multiset(r) == multiset(s)
  {
    if s == [] then []
    else
      assert s == [s[0]] + s[1..];
      Insert(s[0], OrderByUpdated(s[1..]))
  }

  /** The result set of the producer's query. */
  function Selected(rows: seq<SourceRow>, startFrom: Option<int>): (r: seq<SourceRow>)
    ensures SortedByUpdated(r)
    ensures forall x :: x in r <==> x in rows && Qualifies(x, startFrom)
    ensures forall x :: multiset(r)[x] == if Qualifies(x, startFrom) then multiset(rows)[x] else 0
  {
    var f := FilterFrom(rows, startFrom);
    var r := OrderByUpdated(f);
    assert forall x :: x in r <==> x in multiset(r);
    assert forall x :: x in f <==> x in multiset(f);
    r
  }

  /** The batches a `fetchmany(n)` loop yields from a result set. */
  function Chunk(s: seq<SourceRow>, n: int): seq<seq<SourceRow>>
    requires n >= 1
    decreases |s|
  {
    if s == [] then []
    else if |s| <= n then [s]
    else [s[..n]] + Chunk(s[n..], n)
  }

  /**
   * The batches of a scan hand out the result set exactly once and in order,
   * each batch is non-empty and at most `n` long, and only the last may be short.
   */
  lemma {:induction false} ChunkSpec(s: seq<SourceRow>, n: int)
    requires n >= 1
    ensures var r := Chunk(s, n);
      Flatten(r) == s &&
      (forall k :: 0 <= k < |r| ==> 0 < |r[k]| <= n) &&
      (forall k :: 0 <= k < |r| - 1 ==> |r[k]| == n)
    decreases |s|
  {
    if s == [] {
    } else if |s| <= n {
      assert [s][..0] == [];
    } else {
      var rest := Chunk(s[n..], n);
      ChunkSpec(s[n..], n);
      FlattenCons(s[..n], rest);
      assert s[..n] + s[n..] == s;
    }
  }

  /** One `fetchmany(n)` call with the cursor at position `pos`. */
  function FetchMany(result: seq<SourceRow>, pos: int, n: int): seq<SourceRow>
    requires 0 <= pos <= |result| && n >= 1
  {
    result[pos..if pos + n <= |result| then pos + n else |result|]
  }

  lemma ChunkStep(s: seq<SourceRow>, n: int)
    requires n >= 1 && s != []
    ensures Chunk(s, n) == [FetchMany(s, 0, n)] + Chunk(s[|FetchMany(s, 0, n)|..], n)
  {
    if |s| <= n {
      assert s[|s|..] == [];
      assert s[0..|s|] == s;
    }
  }

  lemma FetchStep(result: seq<SourceRow>, pos: int, n: int)
    requires n >= 1 && 0 <= pos < |result|
    ensures var b := FetchMany(result, pos, n);
      pos + |b| <= |result| && Chunk(result[pos..], n) == [b] + Chunk(result[pos + |b|..], n)
  {
    ChunkStep(result[pos..], n);
    var b := FetchMany(result, pos, n);
    assert FetchMany(result[pos..], 0, n) == b;
    assert result[pos..][|b|..] == result[pos + |b|..];
  }

  /** One iteration of the `fetchmany` loop keeps "emitted + still to come = all batches". */
  lemma AdvanceCursor(result: seq<SourceRow>, pos: int, n: int, emitted: seq<seq<SourceRow>>)
    requires n >= 1 && 0 <= pos <= |result|
    requires FetchMany(result, pos, n) != []
    requires emitted + Chunk(result[pos..], n) == Chunk(result, n)
    ensures var b := FetchMany(result, pos, n);
      0 < |b| && pos + |b| <= |result| &&
      (emitted + [b]) + Chunk(result[pos + |b|..], n) == Chunk(result, n)
  {
    FetchStep(result, pos, n);
  }

  /**
   * The last row of batch `k` bounds the revision of every row emitted up to
   * and including that batch, so it is a safe resume watermark.
   */
  lemma WatermarkBoundsEmitted(rows: seq<SourceRow>, startFrom: Option<int>, n: int, k: int)
    requires n >= 1
    requires 0 <= k < |Chunk(Selected(rows, startFrom), n)|
    ensures 0 < |Chunk(Selected(rows, startFrom), n)[k]|
    ensures var bs := Chunk(Selected(rows, startFrom), n);
      forall x | x in Flatten(bs[..k + 1]) :: x.updatedAt <= bs[k][|bs[k]| - 1].updatedAt
  {
    var s: seq<SourceRow> := Selected(rows, startFrom);
    var bs: seq<seq<SourceRow>> := Chunk(s, n);
    ChunkSpec(s, n);
    assert 0 < |bs[k]|;
    PrefixBound(s, bs, k);
  }

  /** Over a sorted sequence cut into batches, no row up to batch `k` is newer than the last row of batch `k`. */
  lemma PrefixBound(s: seq<SourceRow>, bs: seq<seq<SourceRow>>, k: int)
    requires Flatten(bs) == s && SortedByUpdated(s)
    requires 0 <= k < |bs| && |bs[k]| > 0
    ensures forall x | x in Flatten(bs[..k + 1]) :: x.updatedAt <= bs[k][|bs[k]| - 1].updatedAt
  {
    var prefix := Flatten(bs[..k + 1]);
    PrefixOfSelected(bs, k);
    forall x | x in prefix ensures x.updatedAt <= bs[k][|bs[k]| - 1].updatedAt {
      var p :| 0 <= p < |prefix| && prefix[p] == x;
      assert s[p] == x && s[|prefix| - 1] == bs[k][|bs[k]| - 1];
    }
  }

  lemma PrefixOfSelected(bs: seq<seq<SourceRow>>, k: int)
    requires 0 <= k < |bs| && |bs[k]| > 0
    ensures var prefix := Flatten(bs[..k + 1]);
      |prefix| > 0 && prefix <= Flatten(bs) && prefix[|prefix| - 1] == bs[k][|bs[k]| - 1]
  {
    FlattenSnoc(bs, k);
    assert bs == bs[..k + 1] + bs[k + 1..];
    FlattenAppend(bs[..k + 1], bs[k + 1..]);
  }

  /**
   * Resuming from the watermark of batch `k` loses nothing: every row the
   * original scan selects either was emitted up to batch `k` or is selected
   * again by a scan from that watermark.
   */
  lemma ResumeNoLoss(rows: seq<SourceRow>, startFrom: Option<int>, n: int, k: int, x: SourceRow)
    requires n >= 1
    requires 0 <= k < |Chunk(Selected(rows, startFrom), n)|
    requires x in rows && Qualifies(x, startFrom)
    ensures 0 < |Chunk(Selected(rows, startFrom), n)[k]|
    ensures var bs := Chunk(Selected(rows, startFrom), n);
      var w := bs[k][|bs[k]| - 1].updatedAt;
      x in Flatten(bs[..k + 1]) || x in Selected(rows, Some(w))
  {
    var s: seq<SourceRow> := Selected(rows, startFrom);
    assert x in s;
    ChunkSpec(s, n);
    var bs: seq<seq<SourceRow>> := Chunk(s, n);
    var w := bs[k][|bs[k]| - 1].updatedAt;
    EmittedOrNewer(s, n, k, x);
    if x.updatedAt >= w {
      assert x in Selected(rows, Some(w));
    }
  }

  /** A row of a sorted result set older than batch `k`'s last revision was emitted by batch `k`. */
  lemma EmittedOrNewer(s: seq<SourceRow>, n: int, k: int, x: SourceRow)
    requires n >= 1 && SortedByUpdated(s) && x in s
    requires 0 <= k < |Chunk(s, n)|
    ensures 0 < |Chunk(s, n)[k]|
    ensures var bs := Chunk(s, n);
      x in Flatten(bs[..k + 1]) || x.updatedAt >= bs[k][|bs[k]| - 1].updatedAt
  {
    var bs: seq<seq<SourceRow>> := Chunk(s, n);
    ChunkSpec(s, n);
    var w := bs[k][|bs[k]| - 1].updatedAt;
    var prefix := Flatten(bs[..k + 1]);
    PrefixOfSelected(bs, k);
    if x.updatedAt < w {
      SortedPrefix(s, prefix, x);
    }
  }

  /** A row of a sorted sequence older than the last row of a prefix is in that prefix. */
  lemma SortedPrefix(s: seq<SourceRow>, prefix: seq<SourceRow>, x: SourceRow)
    requires SortedByUpdated(s) && 0 < |prefix| && prefix <= s && x in s
    requires x.updatedAt < prefix[|prefix| - 1].updatedAt
    ensures x in prefix
  {
    var p :| 0 <= p < |s| && s[p] == x;
    assert s[|prefix| - 1] == prefix[|prefix| - 1];
    assert prefix[p] == x;
  }

  /**
   * The cursor part of the scan: `batch = fetchmany(n)` until a fetch comes
   * back empty, collecting every non-empty batch.
   */
  method FetchBatches(result: seq<SourceRow>, batchSize: int) returns (batches: seq<seq<SourceRow>>)
    requires batchSize >= 1
    ensures batches == Chunk(result, batchSize)
  {
    var pos := 0;
    batches := [];
    var batch := FetchMany(result, pos, batchSize);
    assert result[pos..] == result;
    while batch != []
      invariant 0 <= pos <= |result|
      invariant batch == FetchMany(result, pos, batchSize)
      invariant batches + Chunk(result[pos..], batchSize) == Chunk(result, batchSize)
      decreases |result| - pos
    {
      AdvanceCursor(result, pos, batchSize, batches);
      batches := batches + [batch];
      pos := pos + |batch|;
      batch := FetchMany(result, pos, batchSize);
    }
    assert result[pos..] == [];
  }

  class BaseProducer {
    /** The source store this producer's cursor reads. */
    const connection: Database
    var tableName: string
    var dataclass: Option<EntityKind>

    /** The base producer binds no table and no record type; a subclass must set both. */
    constructor (connection: Database)
      ensures this.connection == connection && tableName == "" && dataclass == None
    {
      this.connection := connection;
      tableName := "";
      dataclass := None;
    }

    constructor Person(connection: Database)
      ensures this.connection == connection && tableName == "person" && dataclass == Some(PersonEntity)
    {
      this.connection := connection;
      tableName := "person";
      dataclass := Some(PersonEntity);
    }

    constructor FilmWork(connection: Database)
      ensures this.connection == connection && tableName == "film_work" && dataclass == Some(FilmWorkEntity)
    {
      this.connection := connection;
      tableName := "film_work";
      dataclass := Some(FilmWorkEntity);
    }

    constructor Genre(connection: Database)
      ensures this.connection == connection && tableName == "genre" && dataclass == Some(GenreEntity)
    {
      this.connection := connection;
      tableName := "genre";
      dataclass := Some(GenreEntity);
    }

    /**
     * Runs the scan and collects the batches the `while batch:` loop yields.
     * A table the store does not have fails the query, and that error
     * propagates.
     */
    method LoadData(batchSize: int, startFrom: Option<int>) returns (r: Result<seq<seq<SourceRow>>, string>)
      requires batchSize >= 1
      ensures r.Err? <==> tableName !in connection
      ensures r.Err? ==> r.error == tableName
      ensures r.Ok? ==> r.value == Chunk(Selected(connection[tableName], startFrom), batchSize)
    {
      if tableName !in connection {
        return Err(tableName);
      }
      var result := Selected(connection[tableName], startFrom);
      var batches := FetchBatches(result, batchSize);
      return Ok(batches);
    }
  }
}
