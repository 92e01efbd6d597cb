/**
 * The synchronisation streams: scan a source table from its checkpoint, turn
 * every batch into documents, write them to the index and only then advance
 * the checkpoint of the stream.
 *
 * The checkpoint store, the index and the order of the calls the streams make
 * are the state of `SyncEnv`; the merger and the enricher are inputs.
 */
module EtlProcess {
  import opened Wrappers
  import opened SeqUtil
  import opened MergeRows
  import opened Producer
  import FilmWorksTransform

  /** Checkpoint key and scanned table of the film stream. */
  const FilmWorkTableName := "film_work"

  type Doc = FilmWorksTransform.Document

  /** `Merger.load_data(ids, batch_size)`: the merged rows of these films, in batches. */
  type Merger = (seq<string>, int) -> seq<seq<MergeRow>>

  /**
   * `Enricher(m2m_table, producer_table, ...).load_data(ids, batch_size)`:
   * the films linked to the given rows of the producer table, in batches.
   */
  type Enricher = (string, string, seq<string>, int) -> seq<seq<SourceRow>>

  /** What the streams did, in order. */
  datatype Event =
    | Enriched(producerIds: seq<string>)
    | Merged(filmIds: seq<string>)
    | Wrote(docIds: set<string>)
    | Checkpoint(key: string, watermark: int)

  /** The checkpoint store, the index, the event log and the error that stopped the run. */
  datatype Snapshot = Snapshot(
    checkpoints: map<string, int>,
    sink: map<string, Doc>,
    log: seq<Event>,
    failure: Option<string>)

  /** `[row.id for row in batch]`. */
  function Ids(batch: seq<SourceRow>): (r: seq<string>)
    ensures |r| == |batch| && forall k :: 0 <= k < |r| ==> r[k] == batch[k].id
  {
    if batch == [] then [] else [batch[0].id] + Ids(batch[1..])
  }

  /** `state.get_state(key)`: the stored watermark, or nothing. */
  function GetState(checkpoints: map<string, int>, key: string): Option<int>
  {
    if key in checkpoints then Some(checkpoints[key]) else None
  }

  predicate NonEmptyBatches<T>(bs: seq<seq<T>>)
  {
    forall k :: 0 <= k < |bs| ==> bs[k] != []
  }

  // ---------------------------------------------------------------------------
  // Specification of one stream

  /**
   * Merge the films, build their documents and write them. A build that
   * raises stops the run before anything is written.
   */
  function MergeWrite(s: Snapshot, ids: seq<string>, merge: Merger, n: int): Snapshot
  {
    var st := FilmWorksTransform.Build(Flatten(merge(ids, n)));
    var s1 := s.(log := s.log + [Merged(ids)]);
    if st.error.Some? then s1.(failure := st.error)
    else s1.(sink := s.sink + st.docs, log := s1.log + [Wrote(st.docs.Keys)])
  }

  /** `state.set_state(key, batch[-1].updated_at)`. */
  function Advance(s: Snapshot, key: string, batch: seq<SourceRow>): Snapshot
    requires batch != []
  {
    var w := batch[|batch| - 1].updatedAt;
    s.(checkpoints := s.checkpoints[key := w], log := s.log + [Checkpoint(key, w)])
  }

  /** One iteration of the film stream's loop. */
  function FilmBatch(s: Snapshot, batch: seq<SourceRow>, merge: Merger, n: int): Snapshot
    requires batch != []
  {
    if s.failure.Some? then s
    else
      var s1 := MergeWrite(s, Ids(batch), merge, n);
      if s1.failure.Some? then s1 else Advance(s1, FilmWorkTableName, batch)
  }

  function FilmLoop(s: Snapshot, batches: seq<seq<SourceRow>>, merge: Merger, n: int): Snapshot
    requires NonEmptyBatches(batches)
    decreases |batches|
  {
    if batches == [] then s
    else
      NonEmptyTail(batches);
      FilmLoop(FilmBatch(s, batches[0], merge, n), batches[1..], merge, n)
  }

  /** The batches `load_data(n, startFrom)` yields from `rows`. */
  function Batches(rows: seq<SourceRow>, startFrom: Option<int>, n: int): (bs: seq<seq<SourceRow>>)
    requires n >= 1
    ensures bs == Chunk(Selected(rows, startFrom), n) && NonEmptyBatches(bs)
  {
    ChunkSpec(Selected(rows, startFrom), n);
    Chunk(Selected(rows, startFrom), n)
  }

  /** The batches a stream scanning `table` from its checkpoint `key` processes. */
  function Scan(s: Snapshot, db: Database, table: string, key: string, n: int): (bs: seq<seq<SourceRow>>)
    requires n >= 1 && table in db
    ensures NonEmptyBatches(bs)
  {
    Batches(db[table], GetState(s.checkpoints, key), n)
  }

  /** `run_film_works_etl`: a missing table fails the scan before anything happens. */
  function FilmWorksRun(s: Snapshot, db: Database, merge: Merger, n: int): Snapshot
    requires n >= 1
  {
    if FilmWorkTableName !in db then s.(failure := Some(FilmWorkTableName))
    else FilmLoop(s, Scan(s, db, FilmWorkTableName, FilmWorkTableName, n), merge, n)
  }

  /** The inner loop of the related-entity stream: one merge and one write per film batch. */
  function WriteAll(s: Snapshot, fwBatches: seq<seq<SourceRow>>, merge: Merger, n: int): Snapshot
    decreases |fwBatches|
  {
    if fwBatches == [] || s.failure.Some? then s
    else WriteAll(MergeWrite(s, Ids(fwBatches[0]), merge, n), fwBatches[1..], merge, n)
  }

  /** One iteration of the related-entity stream: enrich, write every film batch, then advance. */
  function RelatedBatch(s: Snapshot, batch: seq<SourceRow>, key: string, m2m: string,
                        enrich: Enricher, merge: Merger, n: int): Snapshot
    requires batch != []
  {
    if s.failure.Some? then s
    else
      var ids := Ids(batch);
      var s1 := s.(log := s.log + [Enriched(ids)]);
      var s2 := WriteAll(s1, enrich(m2m, key, ids, n), merge, n);
      if s2.failure.Some? then s2 else Advance(s2, key, batch)
  }

  function RelatedLoop(s: Snapshot, batches: seq<seq<SourceRow>>, key: string, m2m: string,
                       enrich: Enricher, merge: Merger, n: int): Snapshot
    requires NonEmptyBatches(batches)
    decreases |batches|
  {
    if batches == [] then s
    else
      NonEmptyTail(batches);
      RelatedLoop(RelatedBatch(s, batches[0], key, m2m, enrich, merge, n), batches[1..], key, m2m, enrich, merge, n)
  }

  /**
   * `run_universal_etl`: whatever the stream, the rows are scanned from the
   * `person` table, while the checkpoint is read and written under `key`.
   */
  function UniversalRun(s: Snapshot, db: Database, key: string, m2m: string,
                        enrich: Enricher, merge: Merger, n: int): Snapshot
    requires n >= 1
  {
    if "person" !in db then s.(failure := Some("person"))
    else RelatedLoop(s, Scan(s, db, "person", key, n), key, m2m, enrich, merge, n)
  }

  /** One pass of `main`'s loop: genres, then persons, then films; an error ends the pass. */
  function CycleRun(s: Snapshot, db: Database, enrich: Enricher, merge: Merger, n: int): Snapshot
    requires n >= 1
  {
    var s1 := UniversalRun(s, db, "genre", "genre_film_work", enrich, merge, n);
    if s1.failure.Some? then s1
    else
      var s2 := UniversalRun(s1, db, "person", "person_film_work", enrich, merge, n);
      if s2.failure.Some? then s2 else FilmWorksRun(s2, db, merge, n)
  }

  // ---------------------------------------------------------------------------
  // Views of the event log

  /** The film ids handed to the merger, call by call. */
  function MergedIds(log: seq<Event>): seq<seq<string>>
  {
    if log == [] then []
    else (if log[0].Merged? then [log[0].filmIds] else []) + MergedIds(log[1..])
  }

  /** The ids of the rows handed to the enricher, call by call. */
  function EnrichedIds(log: seq<Event>): seq<seq<string>>
  {
    if log == [] then []
    else (if log[0].Enriched? then [log[0].producerIds] else []) + EnrichedIds(log[1..])
  }

  /** The watermarks stored, in order. */
  function Watermarks(log: seq<Event>): seq<int>
  {
    if log == [] then []
    else (if log[0].Checkpoint? then [log[0].watermark] else []) + Watermarks(log[1..])
  }

  /** Every checkpoint from position `from` on comes right after a write. */
  predicate CheckpointAfterWrite(log: seq<Event>, from: nat)
  {
    forall i | from <= i < |log| && log[i].Checkpoint? :: from < i && log[i - 1].Wrote?
  }

  function BatchIds(batches: seq<seq<SourceRow>>): seq<seq<string>>
  {
    if batches == [] then [] else [Ids(batches[0])] + BatchIds(batches[1..])
  }

  /** The revision of the last row of every batch. */
  function LastStamps(batches: seq<seq<SourceRow>>): (r: seq<int>)
    requires NonEmptyBatches(batches)
    ensures |r| == |batches|
    ensures forall k :: 0 <= k < |r| ==> r[k] == batches[k][|batches[k]| - 1].updatedAt
  {
    if batches == [] then []
    else [batches[0][|batches[0]| - 1].updatedAt] + LastStamps(batches[1..])
  }

  predicate Ascending(s: seq<int>)
  {
    forall i, j :: 0 <= i < j < |s| ==> s[i] <= s[j]
  }

  lemma {:induction false} MergedIdsAppend(a: seq<Event>, b: seq<Event>)
    ensures MergedIds(a + b) == MergedIds(a) + MergedIds(b)
  {
    if a == [] {
      assert a + b == b;
    } else {
      var h := if a[0].Merged? then [a[0].filmIds] else [];
      assert (a + b)[0] == a[0] && (a + b)[1..] == a[1..] + b;
      assert MergedIds(a + b) == h + MergedIds(a[1..] + b);
      MergedIdsAppend(a[1..], b);
    }
  }

  lemma {:induction false} EnrichedIdsAppend(a: seq<Event>, b: seq<Event>)
    ensures EnrichedIds(a + b) == EnrichedIds(a) + EnrichedIds(b)
  {
    if a == [] {
      assert a + b == b;
    } else {
      var h := if a[0].Enriched? then [a[0].producerIds] else [];
      assert (a + b)[0] == a[0] && (a + b)[1..] == a[1..] + b;
      assert EnrichedIds(a + b) == h + EnrichedIds(a[1..] + b);
      EnrichedIdsAppend(a[1..], b);
    }
  }

  lemma {:induction false} WatermarksAppend(a: seq<Event>, b: seq<Event>)
    ensures Watermarks(a + b) == Watermarks(a) + Watermarks(b)
  {
    if a == [] {
      assert a + b == b;
    } else {
      var h := if a[0].Checkpoint? then [a[0].watermark] else [];
      assert (a + b)[0] == a[0] && (a + b)[1..] == a[1..] + b;
      assert Watermarks(a + b) == h + Watermarks(a[1..] + b);
      WatermarksAppend(a[1..], b);
    }
  }

  lemma {:induction false} ConcatAssoc<T>(a: seq<T>, b: seq<T>, c: seq<T>)
    ensures (a + b) + c == a + (b + c)
  {
  }

  lemma {:induction false} SnocAssoc<T>(m: seq<T>, x: T, rest: seq<T>)
    ensures (m + [x]) + rest == m + ([x] + rest)
  {
  }

  // ---------------------------------------------------------------------------
  // Properties of the film stream

  /** Once the run has failed, the rest of the batches change nothing. */
  lemma {:induction false} FilmLoopFailed(s: Snapshot, batches: seq<seq<SourceRow>>, merge: Merger, n: int)
    requires NonEmptyBatches(batches) && s.failure.Some?
    ensures FilmLoop(s, batches, merge, n) == s
    decreases |batches|
  {
    if batches != [] {
      NonEmptyTail(batches);
      FilmLoopFailed(s, batches[1..], merge, n);
    }
  }

  /** Appending one event extends the merger calls or the watermarks by what it records. */
  lemma {:induction false} LogSnoc(log: seq<Event>, e: Event)
    ensures MergedIds(log + [e]) == MergedIds(log) + (if e.Merged? then [e.filmIds] else [])
    ensures Watermarks(log + [e]) == Watermarks(log) + (if e.Checkpoint? then [e.watermark] else [])
    ensures EnrichedIds(log + [e]) == EnrichedIds(log) + (if e.Enriched? then [e.producerIds] else [])
  {
    MergedIdsAppend(log, [e]);
    WatermarksAppend(log, [e]);
    EnrichedIdsAppend(log, [e]);
    assert [e][1..] == [];
  }

  /** The three events of a film batch add its ids to the merger calls and its watermark to the checkpoints. */
  lemma {:induction false} BatchEvents(log: seq<Event>, ids: seq<string>, keys: set<string>, key: string, w: int)
    ensures var added := [Merged(ids), Wrote(keys), Checkpoint(key, w)];
      MergedIds(log + added) == MergedIds(log) + [ids] &&
      Watermarks(log + added) == Watermarks(log) + [w]
  {
    var l1 := log + [Merged(ids)];
    var l2 := l1 + [Wrote(keys)];
    assert log + [Merged(ids), Wrote(keys), Checkpoint(key, w)] == l2 + [Checkpoint(key, w)];
    LogSnoc(log, Merged(ids));
    LogSnoc(l1, Wrote(keys));
    LogSnoc(l2, Checkpoint(key, w));
  }

  /** The events one successful film batch appends. */
  lemma {:induction false} FilmBatchLog(s: Snapshot, b: seq<SourceRow>, merge: Merger, n: int)
    requires b != [] && s.failure.None?
    requires FilmBatch(s, b, merge, n).failure.None?
    ensures MergedIds(FilmBatch(s, b, merge, n).log) == MergedIds(s.log) + [Ids(b)]
    ensures Watermarks(FilmBatch(s, b, merge, n).log) == Watermarks(s.log) + [b[|b| - 1].updatedAt]
  {
    var w := b[|b| - 1].updatedAt;
    var st := FilmWorksTransform.Build(Flatten(merge(Ids(b), n)));
    assert FilmBatch(s, b, merge, n).log == s.log + [Merged(Ids(b)), Wrote(st.docs.Keys), Checkpoint(FilmWorkTableName, w)];
    BatchEvents(s.log, Ids(b), st.docs.Keys, FilmWorkTableName, w);
  }

  /** A successful film run asks the merger for exactly the ids of every batch, in order. */
  lemma {:induction false} FilmLoopMergedIds(s: Snapshot, batches: seq<seq<SourceRow>>, merge: Merger, n: int)
    requires NonEmptyBatches(batches) && s.failure.None?
    requires FilmLoop(s, batches, merge, n).failure.None?
    ensures MergedIds(FilmLoop(s, batches, merge, n).log) == MergedIds(s.log) + BatchIds(batches)
    decreases |batches|
  {
    if batches == [] {
      assert MergedIds(s.log) + [] == MergedIds(s.log);
    } else {
      NonEmptyTail(batches);
      var b := batches[0];
      var s1 := FilmBatch(s, b, merge, n);
      if s1.failure.Some? {
        FilmLoopFailed(s1, batches[1..], merge, n);
      } else {
        FilmLoopMergedIds(s1, batches[1..], merge, n);
        FilmBatchLog(s, b, merge, n);
        assert BatchIds(batches) == [Ids(b)] + BatchIds(batches[1..]);
        SnocAssoc(MergedIds(s.log), Ids(b), BatchIds(batches[1..]));
      }
    }
  }

  /** A successful film run stores one watermark per batch: the revision of its last row. */
  lemma {:induction false} FilmLoopWatermarks(s: Snapshot, batches: seq<seq<SourceRow>>, merge: Merger, n: int)
    requires NonEmptyBatches(batches) && s.failure.None?
    requires FilmLoop(s, batches, merge, n).failure.None?
    ensures Watermarks(FilmLoop(s, batches, merge, n).log) == Watermarks(s.log) + LastStamps(batches)
    decreases |batches|
  {
    if batches == [] {
      assert Watermarks(s.log) + [] == Watermarks(s.log);
    } else {
      NonEmptyTail(batches);
      var b := batches[0];
      var s1 := FilmBatch(s, b, merge, n);
      if s1.failure.Some? {
        FilmLoopFailed(s1, batches[1..], merge, n);
      } else {
        FilmLoopWatermarks(s1, batches[1..], merge, n);
        FilmBatchLog(s, b, merge, n);
        SnocAssoc(Watermarks(s.log), b[|b| - 1].updatedAt, LastStamps(batches[1..]));
      }
    }
  }

  /**
   * The film stream never stores a checkpoint that is not right behind a
   * write, whether the run succeeds or stops on an error.
   */
  lemma {:induction false} FilmLoopWriteBeforeCheckpoint(s: Snapshot, batches: seq<seq<SourceRow>>, merge: Merger, n: int, from: nat)
    requires NonEmptyBatches(batches)
    requires from <= |s.log| && CheckpointAfterWrite(s.log, from)
    ensures var r := FilmLoop(s, batches, merge, n);
      s.log <= r.log && CheckpointAfterWrite(r.log, from)
    decreases |batches|
  {
    if batches != [] {
      NonEmptyTail(batches);
      var s1 := FilmBatch(s, batches[0], merge, n);
      FilmBatchWriteBeforeCheckpoint(s, batches[0], merge, n, from);
      FilmLoopWriteBeforeCheckpoint(s1, batches[1..], merge, n, from);
    }
  }

  /** One film batch appends a checkpoint only right behind its write. */
  lemma FilmBatchWriteBeforeCheckpoint(s: Snapshot, b: seq<SourceRow>, merge: Merger, n: int, from: nat)
    requires b != [] && from <= |s.log| && CheckpointAfterWrite(s.log, from)
    ensures var r := FilmBatch(s, b, merge, n);
      s.log <= r.log && CheckpointAfterWrite(r.log, from)
  {
    var r := FilmBatch(s, b, merge, n);
    assert s.log <= r.log;
    forall i | from <= i < |r.log| && r.log[i].Checkpoint?
      ensures from < i && r.log[i - 1].Wrote?
    {
      if i < |s.log| {
        assert r.log[i] == s.log[i];
        assert r.log[i - 1] == s.log[i - 1];
      }
    }
  }

  /**
   * Only the film checkpoint moves, to the last row of the last batch, and
   * the index keeps every document it had; with no batch nothing changes.
   */
  lemma FilmLoopState(s: Snapshot, batches: seq<seq<SourceRow>>, merge: Merger, n: int)
    requires NonEmptyBatches(batches) && s.failure.None?
    requires FilmLoop(s, batches, merge, n).failure.None?
    ensures var r := FilmLoop(s, batches, merge, n);
      s.sink.Keys <= r.sink.Keys &&
      (batches == [] ==> r == s) &&
      (batches != [] ==> r.checkpoints == s.checkpoints[FilmWorkTableName :=
          batches[|batches| - 1][|batches[|batches| - 1]| - 1].updatedAt])
  {
    FilmLoopFrame(s, batches, merge, n);
    if batches != [] {
      FilmLoopCheckpoint(s, batches, merge, n);
    }
  }

  /** After a successful film run over some batches, the film checkpoint holds the last row of the last batch. */
  lemma {:induction false} FilmLoopCheckpoint(s: Snapshot, batches: seq<seq<SourceRow>>, merge: Merger, n: int)
    requires NonEmptyBatches(batches) && s.failure.None? && batches != []
    requires FilmLoop(s, batches, merge, n).failure.None?
    ensures FilmLoop(s, batches, merge, n).checkpoints ==
      s.checkpoints[FilmWorkTableName := batches[|batches| - 1][|batches[|batches| - 1]| - 1].updatedAt]
    decreases |batches|
  {
    var b := batches[0];
    var rest := batches[1..];
    NonEmptyTail(batches);
    var s1 := FilmBatch(s, b, merge, n);
    assert FilmLoop(s, batches, merge, n) == FilmLoop(s1, rest, merge, n);
    if s1.failure.Some? {
      FilmLoopFailed(s1, rest, merge, n);
    } else {
      FilmBatchState(s, b, merge, n);
      if rest != [] {
        FilmLoopCheckpoint(s1, rest, merge, n);
        assert batches[|batches| - 1] == rest[|rest| - 1];
        UpdateTwice(s.checkpoints, FilmWorkTableName, b[|b| - 1].updatedAt, rest[|rest| - 1][|rest[|rest| - 1]| - 1].updatedAt);
      }
    }
  }

  lemma NonEmptyTail<T>(bs: seq<seq<T>>)
    requires NonEmptyBatches(bs) && bs != []
    ensures bs[0] != [] && NonEmptyBatches(bs[1..])
    ensures bs[|bs| - 1] != [] && (|bs| > 1 ==> bs[|bs| - 1] == bs[1..][|bs| - 2])
  {
  }

  /** A second store under the same key replaces the first. */
  lemma UpdateTwice(m: map<string, int>, k: string, x: int, y: int)
    ensures m[k := x][k := y] == m[k := y]
  {
  }

  /** A successful film batch moves only the film checkpoint, to its last row, and keeps the index's documents. */
  lemma FilmBatchState(s: Snapshot, b: seq<SourceRow>, merge: Merger, n: int)
    requires b != [] && s.failure.None? && FilmBatch(s, b, merge, n).failure.None?
    ensures var r := FilmBatch(s, b, merge, n);
      s.sink.Keys <= r.sink.Keys && r.checkpoints == s.checkpoints[FilmWorkTableName := b[|b| - 1].updatedAt]
  {
  }

  /** Every film the merger returned for a batch has a document in the index after a successful run. */
  lemma {:induction false} FilmLoopIndexesMerged(s: Snapshot, batches: seq<seq<SourceRow>>, merge: Merger, n: int, k: int)
    requires NonEmptyBatches(batches) && 0 <= k < |batches|
    requires FilmLoop(s, batches, merge, n).failure.None?
    ensures FilmIds(Flatten(merge(Ids(batches[k]), n))) <= FilmLoop(s, batches, merge, n).sink.Keys
    decreases |batches|
  {
    NonEmptyTail(batches);
    var s1 := FilmBatch(s, batches[0], merge, n);
    if s1.failure.Some? {
      FilmLoopFailed(s1, batches[1..], merge, n);
    } else if s.failure.Some? {
      FilmLoopFailed(s, batches, merge, n);
    } else {
      FilmLoopState(s1, batches[1..], merge, n);
      if k == 0 {
        FilmWorksTransform.BuildInvariant(Flatten(merge(Ids(batches[0]), n)));
      } else {
        FilmLoopIndexesMerged(s1, batches[1..], merge, n, k - 1);
      }
    }
  }

  // ---------------------------------------------------------------------------
  // The film stream and the scan

  /** The prefix of the batches up to `j` flattens to a prefix of the one up to `k`. */
  lemma {:induction false} FlattenPrefixMono(bs: seq<seq<SourceRow>>, j: int, k: int)
    requires 0 <= j <= k < |bs|
    ensures Flatten(bs[..j + 1]) <= Flatten(bs[..k + 1])
  {
    var front := bs[..k + 1];
    assert front == front[..j + 1] + front[j + 1..];
    FlattenAppend(front[..j + 1], front[j + 1..]);
    assert front[..j + 1] == bs[..j + 1];
  }

  /** The batches of a sorted sequence end with rising revisions, each a row of the sequence. */
  lemma {:induction false} StampsAscending(s: seq<SourceRow>, bs: seq<seq<SourceRow>>)
    requires NonEmptyBatches(bs) && Flatten(bs) == s && SortedByUpdated(s)
    ensures Ascending(LastStamps(bs))
    ensures forall k :: 0 <= k < |bs| ==> bs[k][|bs[k]| - 1] in s
  {
    var stamps := LastStamps(bs);
    forall i, j | 0 <= i < j < |stamps|
      ensures stamps[i] <= stamps[j]
    {
      StampLe(s, bs, i, j);
    }
    forall k | 0 <= k < |bs|
      ensures bs[k][|bs[k]| - 1] in s
    {
      PrefixOfSelected(bs, k);
    }
  }

  /** The last row of an earlier batch comes no later in the sorted sequence than that of a later one. */
  lemma StampLe(s: seq<SourceRow>, bs: seq<seq<SourceRow>>, i: int, j: int)
    requires NonEmptyBatches(bs) && Flatten(bs) == s && SortedByUpdated(s)
    requires 0 <= i < j < |bs|
    ensures bs[i][|bs[i]| - 1].updatedAt <= bs[j][|bs[j]| - 1].updatedAt
  {
    PrefixOfSelected(bs, i);
    PrefixOfSelected(bs, j);
    FlattenPrefixMono(bs, i, j);
    var pi := Flatten(bs[..i + 1]);
    var pj := Flatten(bs[..j + 1]);
    assert s[|pi| - 1] == bs[i][|bs[i]| - 1];
    assert s[|pj| - 1] == bs[j][|bs[j]| - 1];
  }

  /** The last row of the last batch is the last row of the sequence. */
  lemma {:induction false} LastBatchEndsSequence(s: seq<SourceRow>, bs: seq<seq<SourceRow>>)
    requires NonEmptyBatches(bs) && Flatten(bs) == s && bs != []
    ensures s != [] && bs[|bs| - 1][|bs[|bs| - 1]| - 1] == s[|s| - 1]
  {
    PrefixOfSelected(bs, |bs| - 1);
    assert bs[..|bs|] == bs;
  }

  /**
   * The watermarks a scan's batches end with rise monotonically and never
   * fall below the watermark the scan started from.
   */
  lemma {:induction false} ScanStampsAscending(rows: seq<SourceRow>, startFrom: Option<int>, n: int)
    requires n >= 1
    ensures var stamps := LastStamps(Batches(rows, startFrom, n));
      Ascending(stamps) &&
      (startFrom.Some? ==> forall k :: 0 <= k < |stamps| ==> stamps[k] >= startFrom.value)
  {
    var s := Selected(rows, startFrom);
    ChunkSpec(s, n);
    var bs := Chunk(s, n);
    StampsAscending(s, bs);
  }

  /**
   * Within a successful film run the film checkpoint only rises, starting no
   * lower than the watermark the run read.
   */
  lemma {:induction false} FilmWorksRunWatermarks(s: Snapshot, db: Database, merge: Merger, n: int)
    requires n >= 1 && s.failure.None?
    requires FilmWorksRun(s, db, merge, n).failure.None?
    ensures var before := Watermarks(s.log);
      var after := Watermarks(FilmWorksRun(s, db, merge, n).log);
      before <= after && Ascending(after[|before|..]) &&
      (FilmWorkTableName in s.checkpoints ==>
        forall k :: |before| <= k < |after| ==> after[k] >= s.checkpoints[FilmWorkTableName])
  {
    var bs := Scan(s, db, FilmWorkTableName, FilmWorkTableName, n);
    FilmLoopWatermarks(s, bs, merge, n);
    ScanStampsAscending(db[FilmWorkTableName], GetState(s.checkpoints, FilmWorkTableName), n);
    var before := Watermarks(s.log);
    assert (before + LastStamps(bs))[|before|..] == LastStamps(bs);
  }

  /** A film run whose scan selects nothing changes nothing. */
  lemma {:induction false} FilmWorksRunNothingNew(s: Snapshot, db: Database, merge: Merger, n: int)
    requires n >= 1 && s.failure.None? && FilmWorkTableName in db
    requires Selected(db[FilmWorkTableName], GetState(s.checkpoints, FilmWorkTableName)) == []
    ensures FilmWorksRun(s, db, merge, n) == s
  {
    assert Scan(s, db, FilmWorkTableName, FilmWorkTableName, n) == [];
  }

  /**
   * After a successful film run that selected anything, the stored watermark
   * is the revision of the last row scanned and bounds every row the scan
   * selected: restarting from it skips nothing newer.
   */
  lemma {:induction false} FilmWorksRunSafeResume(s: Snapshot, db: Database, merge: Merger, n: int)
    requires n >= 1 && s.failure.None? && FilmWorkTableName in db
    requires FilmWorksRun(s, db, merge, n).failure.None?
    requires Selected(db[FilmWorkTableName], GetState(s.checkpoints, FilmWorkTableName)) != []
    ensures var scanned := Selected(db[FilmWorkTableName], GetState(s.checkpoints, FilmWorkTableName));
      var r := FilmWorksRun(s, db, merge, n);
      r.checkpoints == s.checkpoints[FilmWorkTableName := scanned[|scanned| - 1].updatedAt] &&
      forall x | x in scanned :: x.updatedAt <= r.checkpoints[FilmWorkTableName]
  {
    var scanned := Selected(db[FilmWorkTableName], GetState(s.checkpoints, FilmWorkTableName));
    var bs := Scan(s, db, FilmWorkTableName, FilmWorkTableName, n);
    assert FilmWorksRun(s, db, merge, n) == FilmLoop(s, bs, merge, n);
    ChunkSpec(scanned, n);
    FilmLoopState(s, bs, merge, n);
    LastBatchEndsSequence(scanned, bs);
    SortedLastBounds(scanned);
  }

  lemma {:induction false} SortedLastBounds(s: seq<SourceRow>)
    requires SortedByUpdated(s) && s != []
    ensures forall x | x in s :: x.updatedAt <= s[|s| - 1].updatedAt
  {
    forall x | x in s
      ensures x.updatedAt <= s[|s| - 1].updatedAt
    {
      var i :| 0 <= i < |s| && s[i] == x;
    }
  }

  // ---------------------------------------------------------------------------
  // Properties of the related-entity streams

  /** Only the checkpoint `key` may move, the index only gains documents, the log only grows. */
  ghost predicate Frame(s: Snapshot, r: Snapshot, keys: set<string>)
  {
    (forall k :: k !in keys ==> GetState(r.checkpoints, k) == GetState(s.checkpoints, k)) &&
    s.sink.Keys <= r.sink.Keys && s.log <= r.log
  }

  lemma {:induction false} WriteAllFrame(s: Snapshot, fwBatches: seq<seq<SourceRow>>, merge: Merger, n: int)
    ensures var r := WriteAll(s, fwBatches, merge, n);
      Frame(s, r, {}) && r.checkpoints == s.checkpoints && Watermarks(r.log) == Watermarks(s.log)
    decreases |fwBatches|
  {
    if fwBatches != [] && s.failure.None? {
      var ids := Ids(fwBatches[0]);
      var s1 := MergeWrite(s, ids, merge, n);
      WriteAllFrame(s1, fwBatches[1..], merge, n);
      var st := FilmWorksTransform.Build(Flatten(merge(ids, n)));
      LogSnoc(s.log, Merged(ids));
      LogSnoc(s.log + [Merged(ids)], Wrote(st.docs.Keys));
    }
  }

  lemma {:induction false} RelatedLoopFailed(s: Snapshot, batches: seq<seq<SourceRow>>, key: string, m2m: string,
                                             enrich: Enricher, merge: Merger, n: int)
    requires NonEmptyBatches(batches) && s.failure.Some?
    ensures RelatedLoop(s, batches, key, m2m, enrich, merge, n) == s
    decreases |batches|
  {
    if batches != [] {
      NonEmptyTail(batches);
      RelatedLoopFailed(s, batches[1..], key, m2m, enrich, merge, n);
    }
  }

  /**
   * A related-entity batch whose rows are linked to no film still advances the
   * checkpoint: the stream logs the enrichment and stores the watermark, with no write.
   */
  lemma {:induction false} RelatedBatchNoFilms(s: Snapshot, b: seq<SourceRow>, key: string, m2m: string,
                            enrich: Enricher, merge: Merger, n: int)
    requires b != [] && s.failure.None? && enrich(m2m, key, Ids(b), n) == []
    ensures RelatedBatch(s, b, key, m2m, enrich, merge, n) ==
      s.(checkpoints := s.checkpoints[key := b[|b| - 1].updatedAt],
         log := s.log + [Enriched(Ids(b)), Checkpoint(key, b[|b| - 1].updatedAt)])
  {
  }

  /** One successful related-entity batch stores exactly one watermark, under `key`. */
  lemma {:induction false} RelatedBatchStep(s: Snapshot, b: seq<SourceRow>, key: string, m2m: string,
                                            enrich: Enricher, merge: Merger, n: int)
    requires b != [] && s.failure.None?
    requires RelatedBatch(s, b, key, m2m, enrich, merge, n).failure.None?
    ensures var r := RelatedBatch(s, b, key, m2m, enrich, merge, n);
      Watermarks(r.log) == Watermarks(s.log) + [b[|b| - 1].updatedAt] &&
      r.checkpoints == s.checkpoints[key := b[|b| - 1].updatedAt]
  {
    var ids := Ids(b);
    var se := s.(log := s.log + [Enriched(ids)]);
    var s2 := WriteAll(se, enrich(m2m, key, ids, n), merge, n);
    WriteAllFrame(se, enrich(m2m, key, ids, n), merge, n);
    LogSnoc(s.log, Enriched(ids));
    LogSnoc(s2.log, Checkpoint(key, b[|b| - 1].updatedAt));
  }

  /**
   * A successful related-entity run stores exactly one watermark per scanned
   * batch, whatever the enricher returned.
   */
  lemma {:induction false} RelatedLoopWatermarks(s: Snapshot, batches: seq<seq<SourceRow>>, key: string, m2m: string,
                                                 enrich: Enricher, merge: Merger, n: int)
    requires NonEmptyBatches(batches) && s.failure.None?
    requires RelatedLoop(s, batches, key, m2m, enrich, merge, n).failure.None?
    ensures Watermarks(RelatedLoop(s, batches, key, m2m, enrich, merge, n).log) == Watermarks(s.log) + LastStamps(batches)
    decreases |batches|
  {
    if batches == [] {
      assert Watermarks(s.log) + [] == Watermarks(s.log);
    } else {
      NonEmptyTail(batches);
      var b := batches[0];
      var rest := batches[1..];
      var s1 := RelatedBatch(s, b, key, m2m, enrich, merge, n);
      if s1.failure.Some? {
        RelatedLoopFailed(s1, rest, key, m2m, enrich, merge, n);
      } else {
        RelatedLoopWatermarks(s1, rest, key, m2m, enrich, merge, n);
        RelatedBatchStep(s, b, key, m2m, enrich, merge, n);
        assert LastStamps(batches) == [b[|b| - 1].updatedAt] + LastStamps(rest);
        SnocAssoc(Watermarks(s.log), b[|b| - 1].updatedAt, LastStamps(rest));
      }
    }
  }

  /** After a successful related-entity run, the checkpoint `key` holds the last row of the last batch. */
  lemma {:induction false} RelatedLoopState(s: Snapshot, batches: seq<seq<SourceRow>>, key: string, m2m: string,
                                            enrich: Enricher, merge: Merger, n: int)
    requires NonEmptyBatches(batches) && s.failure.None? && batches != []
    requires RelatedLoop(s, batches, key, m2m, enrich, merge, n).failure.None?
    ensures RelatedLoop(s, batches, key, m2m, enrich, merge, n).checkpoints ==
      s.checkpoints[key := batches[|batches| - 1][|batches[|batches| - 1]| - 1].updatedAt]
    decreases |batches|
  {
    NonEmptyTail(batches);
    var b := batches[0];
    var rest := batches[1..];
    var s1 := RelatedBatch(s, b, key, m2m, enrich, merge, n);
    assert RelatedLoop(s, batches, key, m2m, enrich, merge, n) == RelatedLoop(s1, rest, key, m2m, enrich, merge, n);
    if s1.failure.Some? {
      RelatedLoopFailed(s1, rest, key, m2m, enrich, merge, n);
    } else {
      RelatedBatchStep(s, b, key, m2m, enrich, merge, n);
      if rest != [] {
        RelatedLoopState(s1, rest, key, m2m, enrich, merge, n);
        assert batches[|batches| - 1] == rest[|rest| - 1];
        UpdateTwice(s.checkpoints, key, b[|b| - 1].updatedAt, rest[|rest| - 1][|rest[|rest| - 1]| - 1].updatedAt);
      }
    }
  }

  /** The events of an inner loop that wrote every film batch: a merge and a write per batch. */
  function WriteLog(fwBatches: seq<seq<SourceRow>>, merge: Merger, n: int): seq<Event>
    decreases |fwBatches|
  {
    if fwBatches == [] then []
    else
      var ids := Ids(fwBatches[0]);
      [Merged(ids), Wrote(FilmWorksTransform.Build(Flatten(merge(ids, n))).docs.Keys)] + WriteLog(fwBatches[1..], merge, n)
  }

  /** The film ids every enricher call of a successful related-entity run hands to the merger, in order. */
  function RelatedMerges(batches: seq<seq<SourceRow>>, key: string, m2m: string, enrich: Enricher, n: int): seq<seq<string>>
    decreases |batches|
  {
    if batches == [] then []
    else BatchIds(enrich(m2m, key, Ids(batches[0]), n)) + RelatedMerges(batches[1..], key, m2m, enrich, n)
  }

  /** No checkpoint is stored at or after position `from`. */
  predicate NoCheckpointFrom(log: seq<Event>, from: nat)
  {
    forall i | from <= i < |log| :: !log[i].Checkpoint?
  }

  /** Every checkpoint from position `from` on comes right after a write or right after an enrichment. */
  predicate CheckpointAfterBatch(log: seq<Event>, from: nat)
  {
    forall i | from <= i < |log| && log[i].Checkpoint? :: from < i && (log[i - 1].Wrote? || log[i - 1].Enriched?)
  }

  /**
   * The inner loop's events alternate: the `k`-th film batch is merged at
   * position `2k` and written at `2k + 1`; the merger sees exactly the ids of
   * every film batch, and nothing is enriched or checkpointed.
   */
  lemma {:induction false} WriteLogShape(fwBatches: seq<seq<SourceRow>>, merge: Merger, n: int)
    ensures var w := WriteLog(fwBatches, merge, n);
      |w| == 2 * |fwBatches| &&
      (forall k | 0 <= k < |fwBatches| :: w[2 * k] == Merged(Ids(fwBatches[k])) && w[2 * k + 1].Wrote?)
    decreases |fwBatches|
  {
    if fwBatches != [] {
      var rest := fwBatches[1..];
      WriteLogShape(rest, merge, n);
      var w := WriteLog(fwBatches, merge, n);
      var wr := WriteLog(rest, merge, n);
      assert w[2..] == wr;
      forall k | 0 < k < |fwBatches|
        ensures w[2 * k] == Merged(Ids(fwBatches[k])) && w[2 * k + 1].Wrote?
      {
        assert fwBatches[k] == rest[k - 1];
        assert w[2 * k] == wr[2 * (k - 1)];
        assert w[2 * k + 1] == wr[2 * (k - 1) + 1];
      }
    }
  }

  /** The merger sees exactly the ids of every film batch, and nothing is enriched. */
  lemma {:induction false} WriteLogCalls(fwBatches: seq<seq<SourceRow>>, merge: Merger, n: int)
    ensures MergedIds(WriteLog(fwBatches, merge, n)) == BatchIds(fwBatches)
    ensures EnrichedIds(WriteLog(fwBatches, merge, n)) == []
    decreases |fwBatches|
  {
    if fwBatches != [] {
      var ids := Ids(fwBatches[0]);
      var keys := FilmWorksTransform.Build(Flatten(merge(ids, n))).docs.Keys;
      var pair := [Merged(ids), Wrote(keys)];
      WriteLogCalls(fwBatches[1..], merge, n);
      var tail := [Wrote(keys)];
      assert pair[1..] == tail && tail[1..] == [];
      assert MergedIds(tail) == [] && EnrichedIds(tail) == [];
      assert MergedIds(pair) == [ids] + MergedIds(tail);
      assert EnrichedIds(pair) == EnrichedIds(tail);
      MergedIdsAppend(pair, WriteLog(fwBatches[1..], merge, n));
      EnrichedIdsAppend(pair, WriteLog(fwBatches[1..], merge, n));
    }
  }

  /** The inner loop stores no checkpoint, and when it wrote anything its last event is a write. */
  lemma WriteLogEnds(fwBatches: seq<seq<SourceRow>>, merge: Merger, n: int)
    ensures var w := WriteLog(fwBatches, merge, n);
      NoCheckpointFrom(w, 0) && (fwBatches != [] ==> w[|w| - 1].Wrote?)
  {
    var w := WriteLog(fwBatches, merge, n);
    WriteLogShape(fwBatches, merge, n);
    forall i | 0 <= i < |w|
      ensures !w[i].Checkpoint?
    {
      if i % 2 == 0 {
        assert w[2 * (i / 2)] == Merged(Ids(fwBatches[i / 2]));
      } else {
        assert w[2 * (i / 2) + 1].Wrote?;
      }
    }
    if fwBatches != [] {
      assert w[2 * (|fwBatches| - 1) + 1].Wrote?;
    }
  }

  /** An inner loop that wrote every film batch appended exactly `WriteLog`. */
  lemma {:induction false} WriteAllLog(s: Snapshot, fwBatches: seq<seq<SourceRow>>, merge: Merger, n: int)
    requires s.failure.None? && WriteAll(s, fwBatches, merge, n).failure.None?
    ensures WriteAll(s, fwBatches, merge, n).log == s.log + WriteLog(fwBatches, merge, n)
    decreases |fwBatches|
  {
    if fwBatches == [] {
      assert s.log + [] == s.log;
    } else {
      var ids := Ids(fwBatches[0]);
      var s1 := MergeWrite(s, ids, merge, n);
      var keys := FilmWorksTransform.Build(Flatten(merge(ids, n))).docs.Keys;
      WriteAllLog(s1, fwBatches[1..], merge, n);
      assert s1.log == s.log + [Merged(ids), Wrote(keys)];
    }
  }

  /** The inner loop only appends merges and writes, even when it stops on an error. */
  lemma {:induction false} WriteAllNoCheckpoint(s: Snapshot, fwBatches: seq<seq<SourceRow>>, merge: Merger, n: int)
    ensures var r := WriteAll(s, fwBatches, merge, n);
      s.log <= r.log && NoCheckpointFrom(r.log, |s.log|)
    decreases |fwBatches|
  {
    if fwBatches != [] && s.failure.None? {
      var s1 := MergeWrite(s, Ids(fwBatches[0]), merge, n);
      var r := WriteAll(s1, fwBatches[1..], merge, n);
      WriteAllNoCheckpoint(s1, fwBatches[1..], merge, n);
      assert NoCheckpointFrom(s1.log, |s.log|);
      forall i | |s.log| <= i < |r.log|
        ensures !r.log[i].Checkpoint?
      {
        if i < |s1.log| {
          assert r.log[i] == s1.log[i];
        }
      }
    }
  }

  /**
   * The events of one successful related-entity batch: its enrichment, one
   * merge and one write per film batch the enricher returned, then its checkpoint.
   */
  lemma {:induction false} RelatedBatchLog(s: Snapshot, b: seq<SourceRow>, key: string, m2m: string,
                                           enrich: Enricher, merge: Merger, n: int)
    requires b != [] && s.failure.None?
    requires RelatedBatch(s, b, key, m2m, enrich, merge, n).failure.None?
    ensures RelatedBatch(s, b, key, m2m, enrich, merge, n).log ==
      s.log + [Enriched(Ids(b))] + WriteLog(enrich(m2m, key, Ids(b), n), merge, n) + [Checkpoint(key, b[|b| - 1].updatedAt)]
  {
    var ids := Ids(b);
    var se := s.(log := s.log + [Enriched(ids)]);
    WriteAllLog(se, enrich(m2m, key, ids, n), merge, n);
  }

  /** The calls recorded by an enrichment, the events `w` and a checkpoint. */
  lemma {:induction false} BatchLogCalls(pre: seq<Event>, ids: seq<string>, w: seq<Event>, c: Event)
    requires c.Checkpoint?
    ensures var l := pre + [Enriched(ids)] + w + [c];
      MergedIds(l) == MergedIds(pre) + MergedIds(w) &&
      EnrichedIds(l) == EnrichedIds(pre) + [ids] + EnrichedIds(w)
  {
    LogSnoc(pre, Enriched(ids));
    MergedIdsAppend(pre + [Enriched(ids)], w);
    EnrichedIdsAppend(pre + [Enriched(ids)], w);
    LogSnoc(pre + [Enriched(ids)] + w, c);
  }

  /** One successful related-entity batch hands its ids to the enricher once. */
  lemma {:induction false} RelatedBatchEnriched(s: Snapshot, b: seq<SourceRow>, key: string, m2m: string,
                                                enrich: Enricher, merge: Merger, n: int)
    requires b != [] && s.failure.None?
    requires RelatedBatch(s, b, key, m2m, enrich, merge, n).failure.None?
    ensures EnrichedIds(RelatedBatch(s, b, key, m2m, enrich, merge, n).log) == EnrichedIds(s.log) + [Ids(b)]
  {
    var ids := Ids(b);
    var fw := enrich(m2m, key, ids, n);
    var w := WriteLog(fw, merge, n);
    RelatedBatchLog(s, b, key, m2m, enrich, merge, n);
    WriteLogCalls(fw, merge, n);
    BatchLogCalls(s.log, ids, w, Checkpoint(key, b[|b| - 1].updatedAt));
  }

  /** One successful related-entity batch hands the merger the ids of every film batch the enricher returned. */
  lemma {:induction false} RelatedBatchMerged(s: Snapshot, b: seq<SourceRow>, key: string, m2m: string,
                                              enrich: Enricher, merge: Merger, n: int)
    requires b != [] && s.failure.None?
    requires RelatedBatch(s, b, key, m2m, enrich, merge, n).failure.None?
    ensures MergedIds(RelatedBatch(s, b, key, m2m, enrich, merge, n).log) ==
      MergedIds(s.log) + BatchIds(enrich(m2m, key, Ids(b), n))
  {
    var ids := Ids(b);
    var fw := enrich(m2m, key, ids, n);
    var w := WriteLog(fw, merge, n);
    RelatedBatchLog(s, b, key, m2m, enrich, merge, n);
    WriteLogCalls(fw, merge, n);
    BatchLogCalls(s.log, ids, w, Checkpoint(key, b[|b| - 1].updatedAt));
  }

  /** A successful related-entity run hands the enricher the ids of every scanned batch, in order. */
  lemma {:induction false} RelatedLoopEnriched(s: Snapshot, batches: seq<seq<SourceRow>>, key: string, m2m: string,
                                               enrich: Enricher, merge: Merger, n: int)
    requires NonEmptyBatches(batches) && s.failure.None?
    requires RelatedLoop(s, batches, key, m2m, enrich, merge, n).failure.None?
    ensures EnrichedIds(RelatedLoop(s, batches, key, m2m, enrich, merge, n).log) == EnrichedIds(s.log) + BatchIds(batches)
    decreases |batches|
  {
    if batches == [] {
      assert EnrichedIds(s.log) + [] == EnrichedIds(s.log);
    } else {
      NonEmptyTail(batches);
      var b := batches[0];
      var rest := batches[1..];
      var s1 := RelatedBatch(s, b, key, m2m, enrich, merge, n);
      if s1.failure.Some? {
        RelatedLoopFailed(s1, rest, key, m2m, enrich, merge, n);
      } else {
        RelatedLoopEnriched(s1, rest, key, m2m, enrich, merge, n);
        RelatedBatchEnriched(s, b, key, m2m, enrich, merge, n);
        assert BatchIds(batches) == [Ids(b)] + BatchIds(rest);
        SnocAssoc(EnrichedIds(s.log), Ids(b), BatchIds(rest));
      }
    }
  }

  /**
   * A successful related-entity run hands the merger the ids of every film
   * batch the enricher returned, scanned batch by scanned batch, in order.
   */
  lemma {:induction false} RelatedLoopMerged(s: Snapshot, batches: seq<seq<SourceRow>>, key: string, m2m: string,
                                             enrich: Enricher, merge: Merger, n: int)
    requires NonEmptyBatches(batches) && s.failure.None?
    requires RelatedLoop(s, batches, key, m2m, enrich, merge, n).failure.None?
    ensures MergedIds(RelatedLoop(s, batches, key, m2m, enrich, merge, n).log) ==
      MergedIds(s.log) + RelatedMerges(batches, key, m2m, enrich, n)
    decreases |batches|
  {
    if batches == [] {
      assert MergedIds(s.log) + [] == MergedIds(s.log);
    } else {
      NonEmptyTail(batches);
      var b := batches[0];
      var rest := batches[1..];
      var s1 := RelatedBatch(s, b, key, m2m, enrich, merge, n);
      if s1.failure.Some? {
        RelatedLoopFailed(s1, rest, key, m2m, enrich, merge, n);
      } else {
        RelatedLoopMerged(s1, rest, key, m2m, enrich, merge, n);
        RelatedBatchMerged(s, b, key, m2m, enrich, merge, n);
        var head := BatchIds(enrich(m2m, key, Ids(b), n));
        var tail := RelatedMerges(rest, key, m2m, enrich, n);
        assert RelatedMerges(batches, key, m2m, enrich, n) == head + tail;
        ConcatAssoc(MergedIds(s.log), head, tail);
      }
    }
  }

  /**
   * A related-entity stream stores a checkpoint only right behind a write,
   * or right behind the enrichment of a batch whose rows reach no film;
   * whether the run succeeds or stops on an error.
   */
  lemma {:induction false} RelatedLoopCheckpointOrder(s: Snapshot, batches: seq<seq<SourceRow>>, key: string, m2m: string,
                                                      enrich: Enricher, merge: Merger, n: int, from: nat)
    requires NonEmptyBatches(batches)
    requires from <= |s.log| && CheckpointAfterBatch(s.log, from)
    ensures var r := RelatedLoop(s, batches, key, m2m, enrich, merge, n);
      s.log <= r.log && CheckpointAfterBatch(r.log, from)
    decreases |batches|
  {
    if batches != [] {
      NonEmptyTail(batches);
      var s1 := RelatedBatch(s, batches[0], key, m2m, enrich, merge, n);
      RelatedBatchCheckpointOrder(s, batches[0], key, m2m, enrich, merge, n, from);
      RelatedLoopCheckpointOrder(s1, batches[1..], key, m2m, enrich, merge, n, from);
    }
  }

  lemma {:induction false} RelatedBatchCheckpointOrder(s: Snapshot, b: seq<SourceRow>, key: string, m2m: string,
                                                       enrich: Enricher, merge: Merger, n: int, from: nat)
    requires b != [] && from <= |s.log| && CheckpointAfterBatch(s.log, from)
    ensures var r := RelatedBatch(s, b, key, m2m, enrich, merge, n);
      s.log <= r.log && CheckpointAfterBatch(r.log, from)
  {
    if s.failure.None? {
      var r := RelatedBatch(s, b, key, m2m, enrich, merge, n);
      var ids := Ids(b);
      var fw := enrich(m2m, key, ids, n);
      var se := s.(log := s.log + [Enriched(ids)]);
      var s2 := WriteAll(se, fw, merge, n);
      WriteAllNoCheckpoint(se, fw, merge, n);
      assert s.log <= r.log;
      if s2.failure.None? {
        WriteAllLog(se, fw, merge, n);
        WriteLogEnds(fw, merge, n);
        assert s2.log[|s2.log| - 1].Wrote? || s2.log[|s2.log| - 1].Enriched?;
      }
      forall i | from <= i < |r.log| && r.log[i].Checkpoint?
        ensures from < i && (r.log[i - 1].Wrote? || r.log[i - 1].Enriched?)
      {
        if i < |s.log| {
          assert r.log[i] == s.log[i];
          assert r.log[i - 1] == s.log[i - 1];
        }
      }
    }
  }

  /**
   * The checkpoint a related-entity stream stores under `key` is the revision
   * of the last `person` row it scanned, whichever entity `key` names.
   */
  lemma {:induction false} UniversalRunCheckpoint(s: Snapshot, db: Database, key: string, m2m: string,
                               enrich: Enricher, merge: Merger, n: int)
    requires n >= 1 && s.failure.None?
    requires UniversalRun(s, db, key, m2m, enrich, merge, n).failure.None?
    ensures "person" in db
    ensures var scanned := Selected(db["person"], GetState(s.checkpoints, key));
      var r := UniversalRun(s, db, key, m2m, enrich, merge, n);
      (scanned == [] ==> r == s) &&
      (scanned != [] ==> r.checkpoints == s.checkpoints[key := scanned[|scanned| - 1].updatedAt])
  {
    var scanned := Selected(db["person"], GetState(s.checkpoints, key));
    var bs := Scan(s, db, "person", key, n);
    ChunkSpec(scanned, n);
    if scanned != [] {
      RelatedLoopState(s, bs, key, m2m, enrich, merge, n);
      LastBatchEndsSequence(scanned, bs);
    }
  }

  lemma {:induction false} FilmLoopFrame(s: Snapshot, batches: seq<seq<SourceRow>>, merge: Merger, n: int)
    requires NonEmptyBatches(batches)
    ensures Frame(s, FilmLoop(s, batches, merge, n), {FilmWorkTableName})
    decreases |batches|
  {
    if batches != [] {
      NonEmptyTail(batches);
      FilmLoopFrame(FilmBatch(s, batches[0], merge, n), batches[1..], merge, n);
    }
  }

  lemma {:induction false} RelatedLoopFrame(s: Snapshot, batches: seq<seq<SourceRow>>, key: string, m2m: string,
                                            enrich: Enricher, merge: Merger, n: int)
    requires NonEmptyBatches(batches)
    ensures Frame(s, RelatedLoop(s, batches, key, m2m, enrich, merge, n), {key})
    decreases |batches|
  {
    if batches != [] {
      NonEmptyTail(batches);
      var b := batches[0];
      if s.failure.None? {
        var ids := Ids(b);
        var se := s.(log := s.log + [Enriched(ids)]);
        WriteAllFrame(se, enrich(m2m, key, ids, n), merge, n);
      }
      RelatedLoopFrame(RelatedBatch(s, b, key, m2m, enrich, merge, n), batches[1..], key, m2m, enrich, merge, n);
    }
  }

  lemma {:induction false} FrameTrans(a: Snapshot, b: Snapshot, c: Snapshot, k1: set<string>, k2: set<string>)
    requires Frame(a, b, k1) && Frame(b, c, k2)
    ensures Frame(a, c, k1 + k2)
  {
  }

  lemma {:induction false} UniversalRunFrame(s: Snapshot, db: Database, key: string, m2m: string,
                                             enrich: Enricher, merge: Merger, n: int)
    requires n >= 1
    ensures Frame(s, UniversalRun(s, db, key, m2m, enrich, merge, n), {key})
  {
    if "person" in db {
      RelatedLoopFrame(s, Scan(s, db, "person", key, n), key, m2m, enrich, merge, n);
    }
  }

  lemma {:induction false} FilmWorksRunFrame(s: Snapshot, db: Database, merge: Merger, n: int)
    requires n >= 1
    ensures Frame(s, FilmWorksRun(s, db, merge, n), {FilmWorkTableName})
  {
    if FilmWorkTableName in db {
      FilmLoopFrame(s, Scan(s, db, FilmWorkTableName, FilmWorkTableName, n), merge, n);
    }
  }

  /**
   * One pass of the cycle moves no checkpoint but `genre`, `person` and
   * `film_work`, never removes a document from the index and only appends to the log.
   */
  lemma {:induction false} CycleFrame(s: Snapshot, db: Database, enrich: Enricher, merge: Merger, n: int)
    requires n >= 1
    ensures Frame(s, CycleRun(s, db, enrich, merge, n), {"genre", "person", FilmWorkTableName})
  {
    var s1 := UniversalRun(s, db, "genre", "genre_film_work", enrich, merge, n);
    UniversalRunFrame(s, db, "genre", "genre_film_work", enrich, merge, n);
    if s1.failure.None? {
      var s2 := UniversalRun(s1, db, "person", "person_film_work", enrich, merge, n);
      UniversalRunFrame(s1, db, "person", "person_film_work", enrich, merge, n);
      FrameTrans(s, s1, s2, {"genre"}, {"person"});
      if s2.failure.None? {
        FilmWorksRunFrame(s2, db, merge, n);
        FrameTrans(s, s2, FilmWorksRun(s2, db, merge, n), {"genre", "person"}, {FilmWorkTableName});
      }
    }
  }

  // ---------------------------------------------------------------------------
  // The streams, step by step

  lemma {:induction false} RelatedLoopUnfold(s: Snapshot, batches: seq<seq<SourceRow>>, i: int, key: string, m2m: string,
                                             enrich: Enricher, merge: Merger, n: int)
    requires NonEmptyBatches(batches) && 0 <= i < |batches|
    ensures RelatedLoop(s, batches[i..], key, m2m, enrich, merge, n) ==
      RelatedLoop(RelatedBatch(s, batches[i], key, m2m, enrich, merge, n), batches[i + 1..], key, m2m, enrich, merge, n)
  {
    assert batches[i..][0] == batches[i] && batches[i..][1..] == batches[i + 1..];
  }

  lemma {:induction false} FilmLoopUnfold(s: Snapshot, batches: seq<seq<SourceRow>>, i: int, merge: Merger, n: int)
    requires NonEmptyBatches(batches) && 0 <= i < |batches|
    ensures FilmLoop(s, batches[i..], merge, n) == FilmLoop(FilmBatch(s, batches[i], merge, n), batches[i + 1..], merge, n)
  {
    assert batches[i..][0] == batches[i] && batches[i..][1..] == batches[i + 1..];
  }

  /** The checkpoint store, the search index and the log of the calls the streams made. */
  class SyncEnv {
    /** `State` over its storage: stream key to watermark. */
    var checkpoints: map<string, int>
    /** The search index: document id to document. */
    var sink: map<string, Doc>
    var log: seq<Event>

    constructor (checkpoints: map<string, int>, sink: map<string, Doc>)
      ensures this.checkpoints == checkpoints && this.sink == sink && log == []
    {
      this.checkpoints := checkpoints;
      this.sink := sink;
      log := [];
    }

    function Snap(failure: Option<string>): Snapshot
      reads this
    {
      Snapshot(checkpoints, sink, log, failure)
    }

    /** `state.set_state(key, watermark)`. */
    method SetState(key: string, watermark: int)
      modifies this
      ensures checkpoints == old(checkpoints)[key := watermark]
      ensures sink == old(sink) && log == old(log) + [Checkpoint(key, watermark)]
    {
      checkpoints := checkpoints[key := watermark];
      log := log + [Checkpoint(key, watermark)];
    }

    /** `elastic_saver.write_to_index(transform.base_dict.values())`: every document replaces the one with its id. */
    method WriteToIndex(docs: map<string, Doc>)
      modifies this
      ensures sink == old(sink) + docs
      ensures checkpoints == old(checkpoints) && log == old(log) + [Wrote(docs.Keys)]
    {
      sink := sink + docs;
      log := log + [Wrote(docs.Keys)];
    }

    /** `merger.load_data(ids)`, `transform.create_documents(...)` and the write of the result. */
    method MergeAndWrite(transform: FilmWorksTransform.Transform, ids: seq<string>, merge: Merger, n: int)
      returns (failure: Option<string>)
      modifies this, transform
      ensures Snap(failure) == MergeWrite(old(Snap(None)), ids, merge, n)
    {
      log := log + [Merged(ids)];
      failure := transform.CreateDocuments(merge(ids, n));
      if failure.Some? {
        return;
      }
      WriteToIndex(transform.baseDict);
    }

    /** The `for fw_batch in ...` loop of `run_film_works_etl`. */
    method FilmBatches(transform: FilmWorksTransform.Transform, batches: seq<seq<SourceRow>>, merge: Merger, n: int)
      returns (failure: Option<string>)
      requires NonEmptyBatches(batches)
      modifies this, transform
      ensures Snap(failure) == FilmLoop(old(Snap(None)), batches, merge, n)
    {
      ghost var s0 := Snap(None);
      var i := 0;
      while i < |batches|
        invariant 0 <= i <= |batches|
        invariant FilmLoop(Snap(None), batches[i..], merge, n) == FilmLoop(s0, batches, merge, n)
      {
        var fwsList := batches[i];
        FilmLoopUnfold(Snap(None), batches, i, merge, n);
        var fwIds := Ids(fwsList);
        failure := MergeAndWrite(transform, fwIds, merge, n);
        if failure.Some? {
          FilmLoopFailed(Snap(failure), batches[i + 1..], merge, n);
          return;
        }
        SetState(FilmWorkTableName, fwsList[|fwsList| - 1].updatedAt);
        i := i + 1;
      }
      assert batches[i..] == [];
      return None;
    }

    /** `run_film_works_etl`. */
    method RunFilmWorksEtl(db: Database, merge: Merger, batchSize: int) returns (failure: Option<string>)
      requires batchSize >= 1
      modifies this
      ensures Snap(failure) == FilmWorksRun(old(Snap(None)), db, merge, batchSize)
    {
      var producer := new BaseProducer.FilmWork(db);
      var transform := new FilmWorksTransform.Transform();
      var latest := GetState(checkpoints, FilmWorkTableName);
      var loaded := producer.LoadData(batchSize, latest);
      if loaded.Err? {
        return Some(loaded.error);
      }
      assert loaded.value == Scan(Snap(None), db, FilmWorkTableName, FilmWorkTableName, batchSize);
      failure := FilmBatches(transform, loaded.value, merge, batchSize);
    }

    /** The inner `for fw_batch in fw_generator` loop: merge and write every film batch. */
    method WriteBatches(transform: FilmWorksTransform.Transform, fwBatches: seq<seq<SourceRow>>, merge: Merger, n: int)
      returns (failure: Option<string>)
      modifies this, transform
      ensures Snap(failure) == WriteAll(old(Snap(None)), fwBatches, merge, n)
    {
      ghost var s0 := Snap(None);
      var j := 0;
      while j < |fwBatches|
        invariant 0 <= j <= |fwBatches|
        invariant WriteAll(Snap(None), fwBatches[j..], merge, n) == WriteAll(s0, fwBatches, merge, n)
      {
        assert fwBatches[j..][0] == fwBatches[j] && fwBatches[j..][1..] == fwBatches[j + 1..];
        var fwIds := Ids(fwBatches[j]);
        failure := MergeAndWrite(transform, fwIds, merge, n);
        if failure.Some? {
          return;
        }
        j := j + 1;
      }
      assert fwBatches[j..] == [];
      return None;
    }

    /** The outer `for producers_batch in ...` loop of `run_universal_etl`. */
    method RelatedBatches(transform: FilmWorksTransform.Transform, batches: seq<seq<SourceRow>>,
                          key: string, m2m: string, enrich: Enricher, merge: Merger, n: int)
      returns (failure: Option<string>)
      requires NonEmptyBatches(batches)
      modifies this, transform
      ensures Snap(failure) == RelatedLoop(old(Snap(None)), batches, key, m2m, enrich, merge, n)
    {
      ghost var s0 := Snap(None);
      var i := 0;
      while i < |batches|
        invariant 0 <= i <= |batches|
        invariant RelatedLoop(Snap(None), batches[i..], key, m2m, enrich, merge, n) ==
          RelatedLoop(s0, batches, key, m2m, enrich, merge, n)
      {
        var producersList := batches[i];
        RelatedLoopUnfold(Snap(None), batches, i, key, m2m, enrich, merge, n);
        var producersIds := Ids(producersList);
        log := log + [Enriched(producersIds)];
        var fwBatches := enrich(m2m, key, producersIds, n);
        failure := WriteBatches(transform, fwBatches, merge, n);
        if failure.Some? {
          RelatedLoopFailed(Snap(failure), batches[i + 1..], key, m2m, enrich, merge, n);
          return;
        }
        SetState(key, producersList[|producersList| - 1].updatedAt);
        i := i + 1;
      }
      assert batches[i..] == [];
      return None;
    }

    /** `run_universal_etl`: scans through a person producer whatever `producerTableName` is. */
    method RunUniversalEtl(db: Database, merge: Merger, enrich: Enricher, batchSize: int,
                           producerTableName: string, m2mTableName: string)
      returns (failure: Option<string>)
      requires batchSize >= 1
      modifies this
      ensures Snap(failure) ==
        UniversalRun(old(Snap(None)), db, producerTableName, m2mTableName, enrich, merge, batchSize)
    {
      var producer := new BaseProducer.Person(db);
      var transform := new FilmWorksTransform.Transform();
      var latest := GetState(checkpoints, producerTableName);
      var loaded := producer.LoadData(batchSize, latest);
      if loaded.Err? {
        return Some(loaded.error);
      }
      assert loaded.value == Scan(Snap(None), db, "person", producerTableName, batchSize);
      failure := RelatedBatches(transform, loaded.value, producerTableName, m2mTableName, enrich, merge, batchSize);
    }

    /** One pass of `main`'s loop. */
    method RunCycle(db: Database, merge: Merger, enrich: Enricher, batchSize: int) returns (failure: Option<string>)
      requires batchSize >= 1
      modifies this
      ensures Snap(failure) == CycleRun(old(Snap(None)), db, enrich, merge, batchSize)
    {
      failure := RunUniversalEtl(db, merge, enrich, batchSize, "genre", "genre_film_work");
      if failure.Some? {
        return;
      }
      failure := RunUniversalEtl(db, merge, enrich, batchSize, "person", "person_film_work");
      if failure.Some? {
        return;
      }
      failure := RunFilmWorksEtl(db, merge, batchSize);
    }
  }
}
