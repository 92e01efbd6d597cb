/**
 * The document builder of the `app` ETL: folds merge rows into one search
 * document per film, keeping directors as a name list and actors/writers as a
 * name list plus an `{id, name}` list, both deduplicated by full name.
 */
module AppTransform {
  import opened Wrappers
  import opened SeqUtil
  import opened MergeRows

  /** A structured `{id, name}` person entry. */
  datatype PersonEntry = PersonEntry(id: Option<string>, name: Option<string>)

  datatype Document = Document(
    id: string,
    imdbRating: Option<real>,
    title: string,
    description: Option<string>,
    genre: seq<string>,
    director: seq<Option<string>>,
    actorsNames: seq<Option<string>>,
    writersNames: seq<Option<string>>,
    actors: seq<PersonEntry>,
    writers: seq<PersonEntry>)

  /** The name list and the structured list describe the same people, position by position. */
  predicate Aligned(names: seq<Option<string>>, entries: seq<PersonEntry>)
  {
    |names| == |entries| && forall i :: 0 <= i < |names| ==> entries[i].name == names[i]
  }

  /** The invariant every document of the builder keeps. */
  predicate WellFormed(d: Document)
  {
    && NoDup(d.director)
    && NoDup(d.actorsNames)
    && NoDup(d.writersNames)
    && Aligned(d.actorsNames, d.actors)
    && Aligned(d.writersNames, d.writers)
  }

  /** The document a film gets from the first row that mentions it. */
  function NewDocument(row: MergeRow): Document
  {
    Document(row.filmWorkId, row.filmWorkRating, row.filmWorkTitle, row.filmWorkDescription,
             [row.genreName], [], [], [], [], [])
  }

  /** The `|=` of a later row: the four scalars are overwritten, the lists are kept. */
  function Refresh(doc: Document, row: MergeRow): Document
  {
    doc.(id := row.filmWorkId, imdbRating := row.filmWorkRating,
         title := row.filmWorkTitle, description := row.filmWorkDescription)
  }

  /** Appends `x` unless it is already present. */
  function AppendNew<T(==)>(s: seq<T>, x: T): (r: seq<T>)
    ensures s <= r && ToSet(r) == ToSet(s) + {x}
    ensures NoDup(s) ==> NoDup(r)
  {
    if x in s then s else s + [x]
  }

  /** Enriches a document with the person of one row. */
  function AddAdditionInfo(row: MergeRow, doc: Document): (r: Document)
    ensures r.id == doc.id && r.imdbRating == doc.imdbRating && r.title == doc.title
    ensures r.description == doc.description && r.genre == doc.genre
    ensures doc.director <= r.director && doc.actorsNames <= r.actorsNames && doc.actors <= r.actors
    ensures doc.writersNames <= r.writersNames && doc.writers <= r.writers
    ensures ToSet(r.director) ==
      ToSet(doc.director) + (if Classify(row.pfwRole) == Director then {row.personFullName} else {})
    ensures ToSet(r.actorsNames) ==
      ToSet(doc.actorsNames) + (if Classify(row.pfwRole) == Actor then {row.personFullName} else {})
    ensures ToSet(r.writersNames) ==
      ToSet(doc.writersNames) + (if Classify(row.pfwRole) == Writer then {row.personFullName} else {})
    ensures r.actors == doc.actors +
      (if Classify(row.pfwRole) == Actor && row.personFullName !in doc.actorsNames
       then [PersonEntry(row.personId, row.personFullName)] else [])
    ensures r.writers == doc.writers +
      (if Classify(row.pfwRole) == Writer && row.personFullName !in doc.writersNames
       then [PersonEntry(row.personId, row.personFullName)] else [])
    ensures !(Classify(row.pfwRole) in {Director, Actor, Writer}) ==> r == doc
    ensures WellFormed(doc) ==> WellFormed(r)
  {
    var name := row.personFullName;
    var entry := PersonEntry(row.personId, name);
    match Classify(row.pfwRole)
    case Director => doc.(director := AppendNew(doc.director, name))
    case Actor =>
      if name in doc.actorsNames then doc
      else doc.(actorsNames := doc.actorsNames + [name], actors := doc.actors + [entry])
    case Writer =>
      if name in doc.writersNames then doc
      else doc.(writersNames := doc.writersNames + [name], writers := doc.writers + [entry])
    case _ => doc
  }

  /** The effect of one row on the accumulated documents. */
  function Step(docs: map<string, Document>, row: MergeRow): map<string, Document>
  {
    var base := if row.filmWorkId in docs then Refresh(docs[row.filmWorkId], row) else NewDocument(row);
    docs[row.filmWorkId := AddAdditionInfo(row, base)]
  }

  /** The documents built from a row sequence, starting from an empty accumulator. */
  function Build(rows: seq<MergeRow>): (r: map<string, Document>)
    ensures r.Keys == FilmIds(rows)
  {
    if rows == [] then map[]
    else
      FilmIdsSnoc(rows);
      Step(Build(Init(rows)), Last(rows))
  }

  /** The names of the rows for film `id` whose role is `kind`. */
  function RoleNames(rows: seq<MergeRow>, id: string, kind: RoleKind): set<Option<string>>
  {
    set i | 0 <= i < |rows| && rows[i].filmWorkId == id && Classify(rows[i].pfwRole) == kind
      :: rows[i].personFullName
  }

  lemma RoleNamesSnoc(rows: seq<MergeRow>, id: string, kind: RoleKind)
    requires |rows| > 0
    ensures RoleNames(rows, id, kind) == RoleNames(Init(rows), id, kind) + Added(Last(rows), id, kind)
  {
    var n := |rows| - 1;
    var p := Init(rows);
    forall x | x in RoleNames(rows, id, kind)
      ensures x in RoleNames(p, id, kind) + Added(Last(rows), id, kind)
    {
      var i :| 0 <= i < |rows| && rows[i].filmWorkId == id && Classify(rows[i].pfwRole) == kind
        && rows[i].personFullName == x;
      if i < n { assert p[i] == rows[i]; }
    }
    forall x | x in RoleNames(p, id, kind) ensures x in RoleNames(rows, id, kind) {
      var i :| 0 <= i < n && p[i].filmWorkId == id && Classify(p[i].pfwRole) == kind && p[i].personFullName == x;
      assert rows[i] == p[i];
    }
  }

  lemma RoleNamesOfAbsent(rows: seq<MergeRow>, id: string, kind: RoleKind)
    requires id !in FilmIds(rows)
    ensures RoleNames(rows, id, kind) == {}
  {
    forall i | 0 <= i < |rows| ensures rows[i].filmWorkId != id {
      assert rows[i].filmWorkId in FilmIds(rows);
    }
  }

  lemma BuildSnoc(rows: seq<MergeRow>, row: MergeRow)
    ensures Build(rows + [row]) == Step(Build(rows), row)
  {
    assert Init(rows + [row]) == rows;
  }

  /** Every document is keyed by its own id and keeps the dedup invariant. */
  lemma {:induction false} BuildWellFormed(rows: seq<MergeRow>)
    ensures forall id | id in Build(rows) :: Build(rows)[id].id == id && WellFormed(Build(rows)[id])
  {
    if rows != [] {
      BuildWellFormed(Init(rows));
    }
  }

  /** A row for another film leaves a film's document as it was. */
  lemma StepOther(docs: map<string, Document>, row: MergeRow, id: string)
    requires row.filmWorkId != id
    ensures (id in Step(docs, row) <==> id in docs) && (id in docs ==> Step(docs, row)[id] == docs[id])
  {
  }

  /** A row for a film gives that film's document the row's scalars. */
  lemma StepOwn(docs: map<string, Document>, row: MergeRow)
    ensures row.filmWorkId in Step(docs, row)
    ensures var d := Step(docs, row)[row.filmWorkId];
      d.id == row.filmWorkId && d.imdbRating == row.filmWorkRating &&
      d.title == row.filmWorkTitle && d.description == row.filmWorkDescription
  {
  }

  /** The scalars of a film's document are those of the last row for that film. */
  lemma {:induction false} BuildLatestScalars(rows: seq<MergeRow>, k: int)
    requires 0 <= k < |rows| && NoLaterRow(rows, k, rows[k].filmWorkId)
    ensures rows[k].filmWorkId in Build(rows)
    ensures var d := Build(rows)[rows[k].filmWorkId];
      d.id == rows[k].filmWorkId && d.imdbRating == rows[k].filmWorkRating &&
      d.title == rows[k].filmWorkTitle && d.description == rows[k].filmWorkDescription
  {
    var id := rows[k].filmWorkId;
    var p := Init(rows);
    assert Build(rows) == Step(Build(p), Last(rows));
    if k < |rows| - 1 {
      NoLaterRowInit(rows, k, id);
      BuildLatestScalars(p, k);
      StepOther(Build(p), Last(rows), id);
    } else {
      assert Last(rows) == rows[k];
      StepOwn(Build(p), Last(rows));
    }
  }

  /** A film's genre list is the genre of the first row for that film, and later rows never extend it. */
  lemma {:induction false} BuildGenreFirst(rows: seq<MergeRow>, k: int)
    requires 0 <= k < |rows| && NoEarlierRow(rows, k, rows[k].filmWorkId)
    ensures rows[k].filmWorkId in Build(rows)
    ensures Build(rows)[rows[k].filmWorkId].genre == [rows[k].genreName]
  {
    var n := |rows| - 1;
    var id := rows[k].filmWorkId;
    if k == n {
      assert id !in FilmIds(Init(rows));
    } else {
      assert Init(rows)[k] == rows[k];
      BuildGenreFirst(Init(rows), k);
    }
  }

  /** What one row adds to the name set of a role in a film's document. */
  function Added(row: MergeRow, id: string, kind: RoleKind): set<Option<string>>
  {
    if row.filmWorkId == id && Classify(row.pfwRole) == kind then {row.personFullName} else {}
  }

  /** A row adds its person's name to the list of its own role in its own film, and nothing else. */
  lemma StepNames(docs: map<string, Document>, row: MergeRow, id: string)
    requires id in Step(docs, row)
    ensures var d := Step(docs, row)[id];
      && ToSet(d.director) == (if id in docs then ToSet(docs[id].director) else {}) + Added(row, id, Director)
      && ToSet(d.actorsNames) == (if id in docs then ToSet(docs[id].actorsNames) else {}) + Added(row, id, Actor)
      && ToSet(d.writersNames) == (if id in docs then ToSet(docs[id].writersNames) else {}) + Added(row, id, Writer)
  {
    if row.filmWorkId == id {
      var base := if id in docs then Refresh(docs[id], row) else NewDocument(row);
      assert Step(docs, row)[id] == AddAdditionInfo(row, base);
    }
  }

  /**
   * The three person lists of a film hold exactly the names of its rows in
   * the matching role, each once; rows of any other role contribute nothing.
   */
  lemma {:induction false} BuildPersonNames(rows: seq<MergeRow>, id: string)
    requires id in Build(rows)
    ensures ToSet(Build(rows)[id].director) == RoleNames(rows, id, Director)
    ensures ToSet(Build(rows)[id].actorsNames) == RoleNames(rows, id, Actor)
    ensures ToSet(Build(rows)[id].writersNames) == RoleNames(rows, id, Writer)
  {
    var p := Init(rows);
    var row := Last(rows);
    assert Build(rows) == Step(Build(p), row);
    StepNames(Build(p), row, id);
    RoleNamesSnoc(rows, id, Director);
    RoleNamesSnoc(rows, id, Actor);
    RoleNamesSnoc(rows, id, Writer);
    if id in Build(p) {
      BuildPersonNames(p, id);
    } else {
      RoleNamesOfAbsent(p, id, Director);
      RoleNamesOfAbsent(p, id, Actor);
      RoleNamesOfAbsent(p, id, Writer);
    }
  }

  /** Deduplication is by full name: two actor rows with one name but different person ids give one entry. */
  lemma SameNameOneEntry(a: MergeRow, b: MergeRow)
    requires a.filmWorkId == b.filmWorkId && a.personFullName == b.personFullName
    requires Classify(a.pfwRole) == Actor && Classify(b.pfwRole) == Actor && a.personId != b.personId
    ensures Build([a, b])[a.filmWorkId].actors == [PersonEntry(a.personId, a.personFullName)]
  {
    assert Init([a, b]) == [a];
    assert Init([a]) == [];
  }

  class Transform {
    /** Documents accumulated by the latest `CreateDocuments` call, keyed by film id. */
    var baseDict: map<string, Document>

    constructor ()
      ensures baseDict == map[]
    {
      baseDict := map[];
    }

    /** One iteration of the inner loop: merge the row into its film's document. */
    method AddRow(row: MergeRow)
      modifies this
      ensures baseDict == Step(old(baseDict), row)
    {
      var esDoc: Document;
      if row.filmWorkId !in baseDict {
        esDoc := NewDocument(row);
      } else {
        esDoc := Refresh(baseDict[row.filmWorkId], row);
      }
      esDoc := AddAdditionInfo(row, esDoc);
      baseDict := baseDict[row.filmWorkId := esDoc];
    }

    /**
     * Resets the accumulator and folds every row of every batch into it: the
     * result depends on the batches only, never on an earlier call.
     */
    method CreateDocuments(batches: seq<seq<MergeRow>>)
      modifies this
      ensures baseDict == Build(Flatten(batches))
    {
      baseDict := map[];
      var i := 0;
      while i < |batches|
        invariant 0 <= i <= |batches|
        invariant baseDict == Build(Flatten(batches[..i]))
      {
        var batch := batches[i];
        ghost var done := Flatten(batches[..i]);
        var j := 0;
        assert done + batch[..j] == done;
        while j < |batch|
          invariant 0 <= j <= |batch|
          invariant baseDict == Build(done + batch[..j])
        {
          var row := batch[j];
          AddRow(row);
          BuildSnoc(done + batch[..j], row);
          PrefixSnoc(done, batch, j);
          j := j + 1;
        }
        FlattenSnoc(batches, i);
        assert batch[..j] == batch;
        i := i + 1;
      }
      assert batches[..i] == batches;
    }
  }
}
