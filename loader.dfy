/**
 * The bulk writer of the `app` ETL: each document becomes an `index` action
 * keyed by the document's id, so writing replaces documents by id; the index
 * is created when the loader starts, unless it exists already.
 */
module Loader {
  import opened Wrappers
  import AppTransform

  type Doc = AppTransform.Document

  /** The only operation the loader issues: `'_op_type': 'index'`. */
  datatype OpType = IndexOp

  /** One bulk action: `_op_type`, `_id`, `_index` and `_source`. */
  datatype Action = Action(opType: OpType, id: string, index: string, source: Doc)

  /** The cluster's indices, each a map from document id to document. */
  type Indices = map<string, map<string, Doc>>

  /** `generate_data`: one action per document, in order. */
  function GenerateData(indexName: string, docs: seq<Doc>): (r: seq<Action>)
    ensures |r| == |docs|
    ensures forall k :: 0 <= k < |r| ==>
      r[k].opType == IndexOp && r[k].id == docs[k].id && r[k].index == indexName && r[k].source == docs[k]
  {
    if docs == [] then [] else [Action(IndexOp, docs[0].id, indexName, docs[0])] + GenerateData(indexName, docs[1..])
  }

  /** An `index` action stores its source under its id, replacing any document there; a missing index is created. */
  function ApplyAction(indices: Indices, a: Action): Indices
  {
    var idx := if a.index in indices then indices[a.index] else map[];
    indices[a.index := idx[a.id := a.source]]
  }

  /** `bulk`: the actions applied in order. */
  function ApplyActions(indices: Indices, actions: seq<Action>): Indices
    decreases |actions|
  {
    if actions == [] then indices else ApplyActions(ApplyAction(indices, actions[0]), actions[1..])
  }

  /** `indices.create(..., ignore=400)`: creating an index that exists changes nothing. */
  function CreateIfAbsent(indices: Indices, name: string): (r: Indices)
    ensures name in r && r[name] == (if name in indices then indices[name] else map[])
    ensures forall other | other != name :: Lookup(r, other) == Lookup(indices, other)
  {
    if name in indices then indices else indices[name := map[]]
  }

  function Lookup(indices: Indices, name: string): Option<map<string, Doc>>
  {
    if name in indices then Some(indices[name]) else None
  }

  function Get(indices: Indices, name: string, id: string): Option<Doc>
  {
    if name in indices && id in indices[name] then Some(indices[name][id]) else None
  }

  /** Independent reference: the last document of `docs` with this id. */
  function LastWithId(docs: seq<Doc>, id: string): (r: Option<Doc>)
    ensures r.Some? ==> r.value in docs && r.value.id == id
    ensures r.None? <==> forall k :: 0 <= k < |docs| ==> docs[k].id != id
    decreases |docs|
  {
    if docs == [] then None
    else if docs[|docs| - 1].id == id then Some(docs[|docs| - 1])
    else LastWithId(docs[..|docs| - 1], id)
  }

  lemma {:induction false} LastWithIdCons(d: Doc, docs: seq<Doc>, id: string)
    ensures LastWithId([d] + docs, id) == if LastWithId(docs, id).Some? then LastWithId(docs, id)
                                          else if d.id == id then Some(d) else None
    decreases |docs|
  {
    if docs != [] {
      var init := docs[..|docs| - 1];
      assert ([d] + docs)[..|docs|] == [d] + init;
      LastWithIdCons(d, init, id);
    } else {
      assert [d] + docs == [d];
      assert [d][..0] == [];
    }
  }

  /**
   * Writing `docs` to index `name` leaves every other index alone, creates
   * `name` if needed, and afterwards each id holds the last document written
   * with it, or what it held before when no document had that id.
   */
  lemma {:induction false} BulkIndexSemantics(indices: Indices, name: string, docs: seq<Doc>)
    ensures var r := ApplyActions(indices, GenerateData(name, docs));
      r.Keys == indices.Keys + (if docs == [] then {} else {name}) &&
      (forall other | other != name :: Lookup(r, other) == Lookup(indices, other)) &&
      (forall id :: Get(r, name, id) == if LastWithId(docs, id).Some? then LastWithId(docs, id) else Get(indices, name, id))
    decreases |docs|
  {
    if docs != [] {
      var d := docs[0];
      var rest := docs[1..];
      var a := Action(IndexOp, d.id, name, d);
      var next := ApplyAction(indices, a);
      assert GenerateData(name, docs) == [a] + GenerateData(name, rest);
      ApplyActionsCons(indices, a, GenerateData(name, rest));
      assert docs == [d] + rest;
      ApplyActionSpec(indices, a);
      BulkIndexSemantics(next, name, rest);
      var r := ApplyActions(next, GenerateData(name, rest));
      forall id
        ensures Get(r, name, id) == if LastWithId(docs, id).Some? then LastWithId(docs, id) else Get(indices, name, id)
      {
        LastWithIdCons(d, rest, id);
      }
    }
  }

  lemma ApplyActionsCons(indices: Indices, a: Action, actions: seq<Action>)
    ensures ApplyActions(indices, [a] + actions) == ApplyActions(ApplyAction(indices, a), actions)
  {
    assert ([a] + actions)[0] == a && ([a] + actions)[1..] == actions;
  }

  /** One `index` action: its index exists afterwards and only its id in it changes. */
  lemma ApplyActionSpec(indices: Indices, a: Action)
    ensures var r := ApplyAction(indices, a);
      r.Keys == indices.Keys + {a.index} &&
      (forall other | other != a.index :: Lookup(r, other) == Lookup(indices, other)) &&
      (forall id :: Get(r, a.index, id) == if id == a.id then Some(a.source) else Get(indices, a.index, id))
  {
  }

  lemma {:induction false} IndicesExt(a: Indices, b: Indices)
    requires a.Keys == b.Keys
    requires forall name, id :: Get(a, name, id) == Get(b, name, id)
    ensures a == b
  {
    forall name | name in a
      ensures a[name] == b[name]
    {
      assert forall id :: id in a[name] <==> Get(a, name, id).Some?;
      assert forall id :: id in b[name] <==> Get(b, name, id).Some?;
    }
  }

  /** Writing the same documents twice leaves the cluster as writing them once. */
  lemma {:induction false} WriteIdempotent(indices: Indices, name: string, docs: seq<Doc>)
    ensures var actions := GenerateData(name, docs);
      ApplyActions(ApplyActions(indices, actions), actions) == ApplyActions(indices, actions)
  {
    var actions := GenerateData(name, docs);
    var once := ApplyActions(indices, actions);
    var twice := ApplyActions(once, actions);
    BulkIndexSemantics(indices, name, docs);
    BulkIndexSemantics(once, name, docs);
    forall other, id
      ensures Get(twice, other, id) == Get(once, other, id)
    {
      if other != name {
        assert Lookup(twice, other) == Lookup(once, other);
      }
    }
    IndicesExt(twice, once);
  }

  /**
   * Writing every document of a map keyed by document id, in any order and
   * each once, turns index `name` into its old contents overridden by the map.
   */
  lemma {:induction false} WriteEnumeration(indices: Indices, name: string, docs: seq<Doc>, m: map<string, Doc>)
    requires forall k :: 0 <= k < |docs| ==> docs[k].id in m && m[docs[k].id] == docs[k]
    requires forall id | id in m :: exists k :: 0 <= k < |docs| && docs[k].id == id
    ensures var r := ApplyActions(indices, GenerateData(name, docs));
      docs != [] ==> name in r && r[name] == (if name in indices then indices[name] else map[]) + m
  {
    var r := ApplyActions(indices, GenerateData(name, docs));
    BulkIndexSemantics(indices, name, docs);
    if docs != [] {
      var old_ := if name in indices then indices[name] else map[];
      forall id
        ensures id in r[name] <==> id in old_ + m
        ensures id in r[name] ==> r[name][id] == (old_ + m)[id]
      {
        assert Get(r, name, id) == if LastWithId(docs, id).Some? then LastWithId(docs, id) else Get(indices, name, id);
        if id in m {
          var k :| 0 <= k < |docs| && docs[k].id == id;
          assert LastWithId(docs, id).Some?;
        }
      }
    }
  }

  /** The search cluster the loader talks to. */
  class SearchCluster {
    var indices: Indices
    /** Number of `indices.create` requests received. */
    var createRequests: nat

    constructor (indices: Indices)
      ensures this.indices == indices && createRequests == 0
    {
      this.indices := indices;
      createRequests := 0;
    }
  }

  class ElasticsearchLoader {
    const es: SearchCluster
    const indexName: string

    /** Binds the cluster and the index and creates the index only when it does not exist. */
    constructor (es: SearchCluster, indexName: string)
      modifies es
      ensures this.es == es && this.indexName == indexName
      ensures es.indices == CreateIfAbsent(old(es.indices), indexName)
      ensures es.createRequests == old(es.createRequests) + (if indexName in old(es.indices) then 0 else 1)
    {
      this.es := es;
      this.indexName := indexName;
      new;
      if indexName !in es.indices {
        CreateIndex();
      }
    }

    /** `create_index`: a request to create the index; one that exists already is answered 400, which is ignored. */
    method CreateIndex()
      modifies es
      ensures es.indices == CreateIfAbsent(old(es.indices), indexName)
      ensures es.createRequests == old(es.createRequests) + 1
    {
      es.createRequests := es.createRequests + 1;
      es.indices := CreateIfAbsent(es.indices, indexName);
    }

    /** `write_to_index`: one bulk request with the generated actions; reports how many documents it sent. */
    method WriteToIndex(docs: seq<Doc>) returns (logged: nat)
      modifies es
      ensures es.indices == ApplyActions(old(es.indices), GenerateData(indexName, docs))
      ensures es.createRequests == old(es.createRequests)
      ensures logged == |docs|
    {
      es.indices := ApplyActions(es.indices, GenerateData(indexName, docs));
      logged := |docs|;
    }
  }
}
