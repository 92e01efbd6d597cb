/**
 * The document builder of the film-works ETL: one document per film with
 * role-keyed lists. Name lists are deduplicated; the structured `{id, name}`
 * lists grow by one entry per row. A row whose role is `genre` finds the
 * genre lists under its role's keys and adds its person to them.
 */
module FilmWorksTransform {
  import opened Wrappers
  import opened SeqUtil
  import opened MergeRows

  /** An `{id, name}` dictionary: a person of a role, or a genre. */
  datatype Entry = Entry(id: Option<string>, name: Option<string>)

  datatype Document = Document(
    id: string,
    imdbRating: Option<real>,
    title: string,
    description: Option<string>,
    genres: seq<Entry>,
    genresNames: seq<Option<string>>,
    directors: seq<Entry>,
    directorsNames: seq<Option<string>>,
    actors: seq<Entry>,
    actorsNames: seq<Option<string>>,
    writers: seq<Entry>,
    writersNames: seq<Option<string>>)

  /** The role value `genre`, whose `<role>s` and `<role>s_names` keys are the genre lists. */
  const GenreRole: RoleKind := OtherRole("genre")

  /** The three person roles. */
  predicate IsPersonRole(kind: RoleKind)
  {
    kind == Director || kind == Actor || kind == Writer
  }

  /** The roles whose `<role>s` and `<role>s_names` keys exist in every document. */
  predicate HasLists(kind: RoleKind)
  {
    IsPersonRole(kind) || kind == GenreRole
  }

  /** A truthy role whose keys are missing from the document. */
  predicate Raises(kind: RoleKind)
  {
    kind.OtherRole? && kind != GenreRole
  }

  /** The `<role>s` list of a role with lists. */
  function Entries(d: Document, kind: RoleKind): seq<Entry>
    requires HasLists(kind)
  {
    match kind
    case Director => d.directors
    case Actor => d.actors
    case Writer => d.writers
    case OtherRole(_) => d.genres
  }

  /** The `<role>s_names` list of a role with lists. */
  function Names(d: Document, kind: RoleKind): seq<Option<string>>
    requires HasLists(kind)
  {
    match kind
    case Director => d.directorsNames
    case Actor => d.actorsNames
    case Writer => d.writersNames
    case OtherRole(_) => d.genresNames
  }

  function EntryNames(entries: seq<Entry>): set<Option<string>>
  {
    set i | 0 <= i < |entries| :: entries[i].name
  }

  /**
   * The invariant every document keeps: each name list names exactly the
   * entries of its structured list, and is duplicate-free for the person
   * roles; the genre name list is never longer than the genre list.
   */
  predicate WellFormed(d: Document)
  {
    && ToSet(d.genresNames) == EntryNames(d.genres) && |d.genresNames| <= |d.genres|
    && NoDup(d.directorsNames) && ToSet(d.directorsNames) == EntryNames(d.directors)
    && NoDup(d.actorsNames) && ToSet(d.actorsNames) == EntryNames(d.actors)
    && NoDup(d.writersNames) && ToSet(d.writersNames) == EntryNames(d.writers)
  }

  /** The two genre lists are index-aligned: the i-th name is that of the i-th entry. */
  predicate GenresAligned(d: Document)
  {
    |d.genres| == |d.genresNames| &&
    forall i :: 0 <= i < |d.genres| ==> d.genres[i].name == d.genresNames[i]
  }

  /** The document a film gets from its first row: scalars from the row, eight empty lists. */
  function NewDocument(row: MergeRow): (d: Document)
    ensures d.id == row.filmWorkId && d.imdbRating == row.filmWorkRating
    ensures d.title == row.filmWorkTitle && d.description == row.filmWorkDescription
    ensures d.genres == [] && d.genresNames == [] && d.directors == [] && d.directorsNames == []
    ensures d.actors == [] && d.actorsNames == [] && d.writers == [] && d.writersNames == []
    ensures WellFormed(d) && GenresAligned(d)
  {
    Document(row.filmWorkId, row.filmWorkRating, row.filmWorkTitle, row.filmWorkDescription,
             [], [], [], [], [], [], [], [])
  }

  /** The `|=` of a later row: the four scalars are overwritten, the lists are kept. */
  function Refresh(doc: Document, row: MergeRow): Document
  {
    doc.(id := row.filmWorkId, imdbRating := row.filmWorkRating,
         title := row.filmWorkTitle, description := row.filmWorkDescription)
  }

  lemma EntryNamesSnoc(entries: seq<Entry>, e: Entry)
    ensures EntryNames(entries + [e]) == EntryNames(entries) + {e.name}
  {
    var s := entries + [e];
    assert s[|entries|] == e;
    forall x | x in EntryNames(s) ensures x in EntryNames(entries) + {e.name} {
      var i :| 0 <= i < |s| && s[i].name == x;
      if i < |entries| { assert s[i] == entries[i]; }
    }
    forall x | x in EntryNames(entries) ensures x in EntryNames(s) {
      var i :| 0 <= i < |entries| && entries[i].name == x;
      assert s[i] == entries[i];
    }
  }

  /** Appends the name unless present, and the structured entry always. */
  function AddPerson(names: seq<Option<string>>, entries: seq<Entry>, row: MergeRow)
    : (r: (seq<Option<string>>, seq<Entry>))
    ensures ToSet(names) == EntryNames(entries) ==> ToSet(r.0) == EntryNames(r.1)
    ensures NoDup(names) ==> NoDup(r.0)
    ensures ToSet(r.0) == ToSet(names) + {row.personFullName}
    ensures names <= r.0 && |r.0| <= |names| + 1
    ensures r.1 == entries + [Entry(row.personId, row.personFullName)]
  {
    EntryNamesSnoc(entries, Entry(row.personId, row.personFullName));
    var name := row.personFullName;
    (if name in names then names else names + [name], entries + [Entry(row.personId, name)])
  }

  /**
   * Enriches a document with the person of one row. A falsy role leaves it
   * unchanged; a role with lists (a person role, or `genre`) gets the person;
   * any other role fails on the missing `<role>s_names` key, before anything
   * is appended.
   */
  function AddAdditionPersonInfo(row: MergeRow, doc: Document): (r: Result<Document, string>)
    ensures r.Err? <==> Raises(Classify(row.pfwRole))
    ensures r.Err? ==> r.error == row.pfwRole.value + "s_names"
    ensures Classify(row.pfwRole) == NoRole ==> r == Ok(doc)
    ensures r.Ok? ==> r.value.(genres := doc.genres, genresNames := doc.genresNames,
                               directors := doc.directors, directorsNames := doc.directorsNames,
                               actors := doc.actors, actorsNames := doc.actorsNames,
                               writers := doc.writers, writersNames := doc.writersNames) == doc
    ensures r.Ok? ==> forall kind | HasLists(kind) :: ListsStep(r.value, doc, row, kind)
    ensures r.Ok? && WellFormed(doc) ==> WellFormed(r.value)
  {
    var kind := Classify(row.pfwRole);
    if kind == NoRole then Ok(doc)
    else if Raises(kind) then Err(kind.roleName + "s_names")
    else
      var p := AddPerson(Names(doc, kind), Entries(doc, kind), row);
      WithListsStep(doc, row, kind);
      Ok(WithLists(doc, kind, p.0, p.1))
  }

  /**
   * How the person step of `row` takes the lists of `kind` from `doc` to `d`:
   * for the row's own role the name is added unless present and the entry
   * is appended; any other role's lists stay as they are.
   */
  predicate ListsStep(d: Document, doc: Document, row: MergeRow, kind: RoleKind)
    requires HasLists(kind)
  {
    var hit := Classify(row.pfwRole) == kind;
    && Names(doc, kind) <= Names(d, kind)
    && (!hit ==> Names(d, kind) == Names(doc, kind))
    && Entries(d, kind) == Entries(doc, kind) + (if hit then [Entry(row.personId, row.personFullName)] else [])
    && ToSet(Names(d, kind)) == ToSet(Names(doc, kind)) + (if hit then {row.personFullName} else {})
  }

  /** Replacing the lists of the row's role by `AddPerson`'s result is one person step. */
  lemma WithListsStep(doc: Document, row: MergeRow, kind: RoleKind)
    requires HasLists(kind) && Classify(row.pfwRole) == kind
    ensures var p := AddPerson(Names(doc, kind), Entries(doc, kind), row);
      forall k | HasLists(k) :: ListsStep(WithLists(doc, kind, p.0, p.1), doc, row, k)
  {
    var p := AddPerson(Names(doc, kind), Entries(doc, kind), row);
    var r := WithLists(doc, kind, p.0, p.1);
    forall k | HasLists(k) ensures ListsStep(r, doc, row, k) {
      if k != kind {
        if k == Director { assert SameLists(r, doc, Director); }
        else if k == Actor { assert SameLists(r, doc, Actor); }
        else if k == Writer { assert SameLists(r, doc, Writer); }
        else { assert SameLists(r, doc, GenreRole); }
      }
    }
  }

  /** The lists of `kind` are the same in both documents. */
  predicate SameLists(r: Document, d: Document, kind: RoleKind)
    requires HasLists(kind)
  {
    Names(r, kind) == Names(d, kind) && Entries(r, kind) == Entries(d, kind)
  }

  /** The document with the `<role>s_names` and `<role>s` lists of `kind` replaced. */
  function WithLists(d: Document, kind: RoleKind, names: seq<Option<string>>, entries: seq<Entry>): (r: Document)
    requires HasLists(kind)
    ensures Names(r, kind) == names && Entries(r, kind) == entries
    ensures kind != Director ==> SameLists(r, d, Director)
    ensures kind != Actor ==> SameLists(r, d, Actor)
    ensures kind != Writer ==> SameLists(r, d, Writer)
    ensures kind != GenreRole ==> SameLists(r, d, GenreRole)
    ensures r.(genres := d.genres, genresNames := d.genresNames,
               directors := d.directors, directorsNames := d.directorsNames,
               actors := d.actors, actorsNames := d.actorsNames,
               writers := d.writers, writersNames := d.writersNames) == d
  {
    match kind
    case Director => d.(directorsNames := names, directors := entries)
    case Actor => d.(actorsNames := names, actors := entries)
    case Writer => d.(writersNames := names, writers := entries)
    case OtherRole(_) => d.(genresNames := names, genres := entries)
  }

  /** Appends the row's genre to both genre lists, with no deduplication. */
  function AddAdditionGenresInfo(row: MergeRow, doc: Document): (r: Document)
    ensures r.(genres := doc.genres, genresNames := doc.genresNames) == doc
    ensures r.genres == doc.genres + [Entry(Some(row.genreId), Some(row.genreName))]
    ensures r.genresNames == doc.genresNames + [Some(row.genreName)]
    ensures WellFormed(doc) ==> WellFormed(r)
    ensures GenresAligned(doc) ==> GenresAligned(r)
  {
    EntryNamesSnoc(doc.genres, Entry(Some(row.genreId), Some(row.genreName)));
    doc.(genres := doc.genres + [Entry(Some(row.genreId), Some(row.genreName))],
         genresNames := doc.genresNames + [Some(row.genreName)])
  }

  /** The accumulator, and the missing key if a row raised. */
  datatype BuildState = BuildState(docs: map<string, Document>, error: Option<string>)

  /**
   * The effect of one row. When the person step raises, a film already in
   * the accumulator keeps the scalars its dictionary received from `|=`;
   * a new film is not stored; no later row is processed.
   */
  function Step(st: BuildState, row: MergeRow): BuildState
  {
    if st.error.Some? then st
    else
      var id := row.filmWorkId;
      var base := Base(st.docs, row);
      match AddAdditionPersonInfo(row, base)
      case Err(key) => BuildState(if id in st.docs then st.docs[id := base] else st.docs, Some(key))
      case Ok(d) => BuildState(st.docs[id := AddAdditionGenresInfo(row, d)], None)
  }

  /** The document a row starts from: its film's stored one after `|=`, or a new one. */
  function Base(docs: map<string, Document>, row: MergeRow): Document
  {
    if row.filmWorkId in docs then Refresh(docs[row.filmWorkId], row) else NewDocument(row)
  }

  /** Whether a row raises, and with which key. */
  lemma StepError(st: BuildState, row: MergeRow)
    ensures Step(st, row).error ==
      if st.error.Some? then st.error
      else if Raises(Classify(row.pfwRole)) then Some(row.pfwRole.value + "s_names")
      else None
  {
  }

  /** A row that does not raise stores its film's enriched document. */
  lemma StepOk(st: BuildState, row: MergeRow)
    requires st.error == None && !Raises(Classify(row.pfwRole))
    ensures AddAdditionPersonInfo(row, Base(st.docs, row)).Ok?
    ensures Step(st, row) == BuildState(st.docs[row.filmWorkId :=
      AddAdditionGenresInfo(row, AddAdditionPersonInfo(row, Base(st.docs, row)).value)], None)
  {
  }

  function Build(rows: seq<MergeRow>): BuildState
  {
    if rows == [] then BuildState(map[], None) else Step(Build(Init(rows)), Last(rows))
  }

  lemma BuildSnoc(rows: seq<MergeRow>, row: MergeRow)
    ensures Build(rows + [row]) == Step(Build(rows), row)
  {
    assert Init(rows + [row]) == rows;
  }

  /** Once a row has raised, further rows change nothing. */
  lemma {:induction false} ErrorSticky(p: seq<MergeRow>, q: seq<MergeRow>)
    requires Build(p).error.Some?
    ensures Build(p + q) == Build(p)
    decreases |q|
  {
    if q != [] {
      var n := |q| - 1;
      assert Init(p + q) == p + q[..n];
      ErrorSticky(p, q[..n]);
    } else {
      assert p + q == p;
    }
  }

  /** Number of rows of film `id`. */
  function CountRows(rows: seq<MergeRow>, id: string): nat
  {
    if rows == [] then 0 else
      CountRows(Init(rows), id) + (if Last(rows).filmWorkId == id then 1 else 0)
  }

  /** Number of rows of film `id` whose role is `kind`. */
  function CountRole(rows: seq<MergeRow>, id: string, kind: RoleKind): nat
  {
    if rows == [] then 0 else
      CountRole(Init(rows), id, kind) +
      (if Last(rows).filmWorkId == id && Classify(Last(rows).pfwRole) == kind then 1 else 0)
  }

  /** The names of the rows of film `id` whose role is `kind`. */
  function RoleNames(rows: seq<MergeRow>, id: string, kind: RoleKind): set<Option<string>>
  {
    if rows == [] then {} else
      RoleNames(Init(rows), id, kind) +
      (if Last(rows).filmWorkId == id && Classify(Last(rows).pfwRole) == kind
       then {Last(rows).personFullName} else {})
  }

  /** Some row has a truthy role other than director, actor, writer and genre. */
  predicate HasUnknownRole(rows: seq<MergeRow>)
  {
    exists i :: 0 <= i < |rows| && Raises(Classify(rows[i].pfwRole))
  }

  /** The build fails exactly when some row has a truthy role other than director, actor, writer and genre. */
  lemma {:induction false} BuildFailsIff(rows: seq<MergeRow>)
    ensures Build(rows).error.Some? <==> HasUnknownRole(rows)
  {
    if rows != [] {
      var p := Init(rows);
      assert Build(rows) == Step(Build(p), Last(rows));
      StepError(Build(p), Last(rows));
      HasUnknownRoleSnoc(rows);
      BuildFailsIff(p);
    }
  }

  lemma HasUnknownRoleSnoc(rows: seq<MergeRow>)
    requires rows != []
    ensures HasUnknownRole(rows) <==> HasUnknownRole(Init(rows)) || Raises(Classify(Last(rows).pfwRole))
  {
    var p := Init(rows);
    assert forall j :: 0 <= j < |p| ==> rows[j] == p[j];
    assert rows[|rows| - 1] == Last(rows);
  }

  /** The reported key is that of the first row whose role has no lists in the document. */
  lemma {:induction false} BuildFailsAtFirstUnknown(rows: seq<MergeRow>, k: int)
    requires 0 <= k < |rows| && Raises(Classify(rows[k].pfwRole))
    requires forall j :: 0 <= j < k ==> !Raises(Classify(rows[j].pfwRole))
    ensures Build(rows).error == Some(rows[k].pfwRole.value + "s_names")
  {
    var p := rows[..k];
    BuildFailsIff(p);
    assert !HasUnknownRole(p);
    BuildSnoc(p, rows[k]);
    StepError(Build(p), rows[k]);
    ErrorSticky(p + [rows[k]], rows[k + 1..]);
    assert p + [rows[k]] + rows[k + 1..] == rows;
  }

  /** Every document sits under its own id and is well formed. */
  predicate DocsKeyed(docs: map<string, Document>)
  {
    forall id | id in docs :: docs[id].id == id && WellFormed(docs[id])
  }

  /** One row stores at most its own film, and keeps the documents keyed and well formed. */
  lemma StepInvariant(st: BuildState, row: MergeRow)
    requires DocsKeyed(st.docs)
    ensures DocsKeyed(Step(st, row).docs)
    ensures Step(st, row).docs.Keys <= st.docs.Keys + {row.filmWorkId}
    ensures st.error == None && Step(st, row).error == None ==>
      Step(st, row).docs.Keys == st.docs.Keys + {row.filmWorkId}
  {
    StepError(st, row);
    if st.error == None && !Raises(Classify(row.pfwRole)) {
      StepOk(st, row);
    }
  }

  /**
   * Documents are keyed by their own id and stay well formed; every film of
   * the input has a document once the whole input was processed.
   */
  lemma {:induction false} BuildInvariant(rows: seq<MergeRow>)
    ensures Build(rows).docs.Keys <= FilmIds(rows)
    ensures Build(rows).error == None ==> Build(rows).docs.Keys == FilmIds(rows)
    ensures forall id | id in Build(rows).docs ::
      Build(rows).docs[id].id == id && WellFormed(Build(rows).docs[id])
  {
    if rows != [] {
      var p := Init(rows);
      assert Build(rows) == Step(Build(p), Last(rows));
      FilmIdsSnoc(rows);
      BuildInvariant(p);
      StepInvariant(Build(p), Last(rows));
    }
  }

  /**
   * After a successful build, a film's `genres` list has one genre entry per
   * row of the film and one person entry per `genre`-role row of the film;
   * when the film has no `genre`-role row, the two genre lists are aligned,
   * one entry per row.
   */
  lemma {:induction false} BuildGenreCount(rows: seq<MergeRow>, id: string)
    requires Build(rows).error == None && id in Build(rows).docs
    ensures |Build(rows).docs[id].genres| == CountRows(rows, id) + CountRole(rows, id, GenreRole)
    ensures CountRole(rows, id, GenreRole) == 0 ==>
      GenresAligned(Build(rows).docs[id]) && |Build(rows).docs[id].genresNames| == CountRows(rows, id)
  {
    var p := Init(rows);
    var row := Last(rows);
    assert Build(rows) == Step(Build(p), row);
    assert Build(p).error == None;
    GenreStep(Build(p), row, id);
    if id in Build(p).docs {
      BuildGenreCount(p, id);
    } else {
      BuildAbsentCounts(p, id);
    }
  }

  /** A successful row adds its genre, and its person when its role is `genre`, to its own film's genre list. */
  lemma GenreStep(st: BuildState, row: MergeRow, id: string)
    requires st.error == None && Step(st, row).error == None && id in Step(st, row).docs
    ensures var d := Step(st, row).docs[id];
      var own := row.filmWorkId == id;
      var hit := own && Classify(row.pfwRole) == GenreRole;
      && |d.genres| == (if id in st.docs then |st.docs[id].genres| else 0) +
           (if own then 1 else 0) + (if hit then 1 else 0)
      && (!hit && (id in st.docs ==> GenresAligned(st.docs[id])) ==> GenresAligned(d))
  {
    StepError(st, row);
    StepOk(st, row);
    if id == row.filmWorkId {
      var base := Base(st.docs, row);
      assert base.genres == if id in st.docs then st.docs[id].genres else [];
      assert base.genresNames == if id in st.docs then st.docs[id].genresNames else [];
      GenreStepOwn(base, row);
    }
  }

  /** The genre lists one row changes in its own film's document. */
  lemma GenreStepOwn(base: Document, row: MergeRow)
    requires AddAdditionPersonInfo(row, base).Ok?
    ensures var d := AddAdditionGenresInfo(row, AddAdditionPersonInfo(row, base).value);
      var hit := Classify(row.pfwRole) == GenreRole;
      && |d.genres| == |base.genres| + 1 + (if hit then 1 else 0)
      && (!hit && GenresAligned(base) ==> GenresAligned(d))
  {
    var r := AddAdditionPersonInfo(row, base).value;
    assert HasLists(GenreRole);
    assert Entries(r, GenreRole) == r.genres && Names(r, GenreRole) == r.genresNames;
  }

  /**
   * A `genre`-role row adds its person to the genre lists: the same such row
   * twice, for a film not yet built, gives four `genres` entries but three
   * `genres_names`, which are then no longer aligned.
   */
  lemma GenreRoleRows(st: BuildState, g: MergeRow)
    requires st.error == None && g.filmWorkId !in st.docs && Classify(g.pfwRole) == GenreRole
    ensures Step(Step(st, g), g).error == None && g.filmWorkId in Step(Step(st, g), g).docs
    ensures var d := Step(Step(st, g), g).docs[g.filmWorkId];
      var p := Entry(g.personId, g.personFullName);
      var e := Entry(Some(g.genreId), Some(g.genreName));
      && d.genres == [p, e, p, e]
      && d.genresNames == [g.personFullName, Some(g.genreName), Some(g.genreName)]
      && !GenresAligned(d)
  {
    var p := Entry(g.personId, g.personFullName);
    var e := Entry(Some(g.genreId), Some(g.genreName));
    var id := g.filmWorkId;
    GenreRowFirst(st, g);
    var st1 := Step(st, g);
    GenreRowAgain(st1, g);
    var d := Step(st1, g).docs[id];
    assert [p, e] + [p, e] == [p, e, p, e];
    assert [g.personFullName, Some(g.genreName)] + [Some(g.genreName)] ==
      [g.personFullName, Some(g.genreName), Some(g.genreName)];
    assert |d.genres| != |d.genresNames|;
  }

  /** A film's first row with role `genre`: its person, then its genre. */
  lemma GenreRowFirst(st: BuildState, g: MergeRow)
    requires st.error == None && g.filmWorkId !in st.docs && Classify(g.pfwRole) == GenreRole
    ensures Step(st, g).error == None && g.filmWorkId in Step(st, g).docs
    ensures Step(st, g).docs[g.filmWorkId].genres ==
      [Entry(g.personId, g.personFullName), Entry(Some(g.genreId), Some(g.genreName))]
    ensures Step(st, g).docs[g.filmWorkId].genresNames == [g.personFullName, Some(g.genreName)]
  {
    GenreRowStep(st, g);
    assert Base(st.docs, g) == NewDocument(g);
  }

  /** A later `genre`-role row whose person is already listed adds its person and genre, but only the genre's name. */
  lemma GenreRowAgain(st: BuildState, g: MergeRow)
    requires st.error == None && g.filmWorkId in st.docs && Classify(g.pfwRole) == GenreRole
    requires g.personFullName in st.docs[g.filmWorkId].genresNames
    ensures Step(st, g).error == None && g.filmWorkId in Step(st, g).docs
    ensures Step(st, g).docs[g.filmWorkId].genres == st.docs[g.filmWorkId].genres +
      [Entry(g.personId, g.personFullName), Entry(Some(g.genreId), Some(g.genreName))]
    ensures Step(st, g).docs[g.filmWorkId].genresNames == st.docs[g.filmWorkId].genresNames + [Some(g.genreName)]
  {
    GenreRowStep(st, g);
    assert Base(st.docs, g) == Refresh(st.docs[g.filmWorkId], g);
  }

  /** One `genre`-role row: its person, then its genre, are appended to its film's genre lists. */
  lemma GenreRowStep(st: BuildState, g: MergeRow)
    requires st.error == None && Classify(g.pfwRole) == GenreRole
    ensures var b := Base(st.docs, g);
      var names := if g.personFullName in b.genresNames then b.genresNames else b.genresNames + [g.personFullName];
      Step(st, g) == BuildState(st.docs[g.filmWorkId := b.(
        genres := b.genres + [Entry(g.personId, g.personFullName), Entry(Some(g.genreId), Some(g.genreName))],
        genresNames := names + [Some(g.genreName)])], None)
  {
    var b := Base(st.docs, g);
    StepOk(st, g);
    GenreRowPerson(g, b);
    var r := AddAdditionPersonInfo(g, b).value;
    assert r.genres + [Entry(Some(g.genreId), Some(g.genreName))] ==
      b.genres + [Entry(g.personId, g.personFullName), Entry(Some(g.genreId), Some(g.genreName))];
  }

  /** What the person step of a `genre`-role row does to the genre lists. */
  lemma GenreRowPerson(g: MergeRow, doc: Document)
    requires Classify(g.pfwRole) == GenreRole
    ensures var names := doc.genresNames;
      AddAdditionPersonInfo(g, doc) == Ok(doc.(genres := doc.genres + [Entry(g.personId, g.personFullName)],
        genresNames := if g.personFullName in names then names else names + [g.personFullName]))
  {
  }

  /**
   * After a successful build, a film's `<role>s` list has one entry per row
   * of that role, duplicates included, and its `<role>s_names` holds the
   * role's distinct names.
   */
  lemma {:induction false} BuildRoleCount(rows: seq<MergeRow>, id: string, kind: RoleKind)
    requires IsPersonRole(kind)
    requires Build(rows).error == None && id in Build(rows).docs
    ensures |Entries(Build(rows).docs[id], kind)| == CountRole(rows, id, kind)
    ensures ToSet(Names(Build(rows).docs[id], kind)) == RoleNames(rows, id, kind)
  {
    var p := Init(rows);
    var row := Last(rows);
    assert Build(rows) == Step(Build(p), row);
    assert Build(p).error == None;
    RoleStep(Build(p), row, id, kind);
    if id in Build(p).docs {
      BuildRoleCount(p, id, kind);
    } else {
      BuildAbsentCounts(p, id);
    }
  }

  /** A successful row adds one entry and its name to the lists of its own role in its own film, and nothing else. */
  lemma RoleStep(st: BuildState, row: MergeRow, id: string, kind: RoleKind)
    requires IsPersonRole(kind)
    requires st.error == None && Step(st, row).error == None && id in Step(st, row).docs
    ensures var d := Step(st, row).docs[id];
      var hit := row.filmWorkId == id && Classify(row.pfwRole) == kind;
      && |Entries(d, kind)| == (if id in st.docs then |Entries(st.docs[id], kind)| else 0) + (if hit then 1 else 0)
      && ToSet(Names(d, kind)) ==
           (if id in st.docs then ToSet(Names(st.docs[id], kind)) else {}) + (if hit then {row.personFullName} else {})
  {
    StepError(st, row);
    StepOk(st, row);
    var d := Step(st, row).docs[id];
    if id == row.filmWorkId {
      var base := Base(st.docs, row);
      assert d == AddAdditionGenresInfo(row, AddAdditionPersonInfo(row, base).value);
      BaseLists(st.docs, row, kind);
      RoleStepOwn(base, row, kind);
    } else {
      assert d == st.docs[id];
    }
  }

  /** The lists a row starts from are those stored for its film, or empty. */
  lemma BaseLists(docs: map<string, Document>, row: MergeRow, kind: RoleKind)
    requires HasLists(kind)
    ensures var id := row.filmWorkId;
      && Entries(Base(docs, row), kind) == (if id in docs then Entries(docs[id], kind) else [])
      && Names(Base(docs, row), kind) == (if id in docs then Names(docs[id], kind) else [])
  {
  }

  /** The lists one row changes in its own film's document. */
  lemma RoleStepOwn(base: Document, row: MergeRow, kind: RoleKind)
    requires IsPersonRole(kind) && AddAdditionPersonInfo(row, base).Ok?
    ensures var d := AddAdditionGenresInfo(row, AddAdditionPersonInfo(row, base).value);
      var hit := Classify(row.pfwRole) == kind;
      && |Entries(d, kind)| == |Entries(base, kind)| + (if hit then 1 else 0)
      && ToSet(Names(d, kind)) == ToSet(Names(base, kind)) + (if hit then {row.personFullName} else {})
  {
    var r := AddAdditionPersonInfo(row, base).value;
    var d := AddAdditionGenresInfo(row, r);
    assert Entries(d, kind) == Entries(r, kind) && Names(d, kind) == Names(r, kind);
  }

  lemma {:induction false} BuildAbsentCounts(rows: seq<MergeRow>, id: string)
    requires Build(rows).error == None && id !in Build(rows).docs
    ensures CountRows(rows, id) == 0
    ensures forall kind :: CountRole(rows, id, kind) == 0 && RoleNames(rows, id, kind) == {}
  {
    if rows != [] {
      var p := Init(rows);
      assert Build(rows) == Step(Build(p), Last(rows));
      StepKeys(Build(p), Last(rows));
      assert Last(rows).filmWorkId != id && id !in Build(p).docs;
      BuildAbsentCounts(p, id);
      forall kind ensures CountRole(rows, id, kind) == 0 && RoleNames(rows, id, kind) == {} {
        assert CountRole(p, id, kind) == 0 && RoleNames(p, id, kind) == {};
      }
    }
  }

  /** A successful row stores its own film and keeps every other. */
  lemma StepKeys(st: BuildState, row: MergeRow)
    requires st.error == None && Step(st, row).error == None
    ensures Step(st, row).docs.Keys == st.docs.Keys + {row.filmWorkId}
  {
    StepError(st, row);
    StepOk(st, row);
  }

  /** After a successful build, the scalars of a film are those of its last row. */
  lemma {:induction false} BuildLatestScalars(rows: seq<MergeRow>, k: int)
    requires Build(rows).error == None
    requires 0 <= k < |rows| && NoLaterRow(rows, k, rows[k].filmWorkId)
    ensures rows[k].filmWorkId in Build(rows).docs
    ensures var d := Build(rows).docs[rows[k].filmWorkId];
      d.id == rows[k].filmWorkId && d.imdbRating == rows[k].filmWorkRating &&
      d.title == rows[k].filmWorkTitle && d.description == rows[k].filmWorkDescription
  {
    var n := |rows| - 1;
    assert Build(rows) == Step(Build(Init(rows)), rows[n]);
    StepError(Build(Init(rows)), rows[n]);
    StepOk(Build(Init(rows)), rows[n]);
    if k < n {
      NoLaterRowInit(rows, k, rows[k].filmWorkId);
      BuildLatestScalars(Init(rows), k);
    }
  }

  /** Structured lists keep duplicates: the same actor twice gives two entries and one name. */
  lemma RepeatedActorKept(a: MergeRow)
    requires Classify(a.pfwRole) == Actor
    ensures a.filmWorkId in Build([a, a]).docs
    ensures Build([a, a]).docs[a.filmWorkId].actors ==
      [Entry(a.personId, a.personFullName), Entry(a.personId, a.personFullName)]
    ensures Build([a, a]).docs[a.filmWorkId].actorsNames == [a.personFullName]
  {
    BuildSnoc([], a);
    BuildSnoc([a], a);
    assert [] + [a] == [a] && [a] + [a] == [a, a];
  }

  class Transform {
    /** Documents accumulated by the latest `CreateDocuments` call, keyed by film id. */
    var baseDict: map<string, Document>

    constructor ()
      ensures baseDict == map[]
    {
      baseDict := map[];
    }

    /** One iteration of the inner loop; on a missing key it stops before storing the new document. */
    method AddRow(row: MergeRow) returns (err: Option<string>)
      modifies this
      ensures Step(BuildState(old(baseDict), None), row) == BuildState(baseDict, err)
    {
      var id := row.filmWorkId;
      var esDoc: Document;
      if id !in baseDict {
        esDoc := NewDocument(row);
      } else {
        esDoc := Refresh(baseDict[id], row);
        baseDict := baseDict[id := esDoc];
      }
      var enriched := AddAdditionPersonInfo(row, esDoc);
      if enriched.Err? {
        return Some(enriched.error);
      }
      var ready := AddAdditionGenresInfo(row, enriched.value);
      baseDict := baseDict[id := ready];
      return None;
    }

    /**
     * Resets the accumulator and folds every row of every batch into it; a
     * row whose role has no lists in the document raises, leaving what was built so far.
     */
    method CreateDocuments(batches: seq<seq<MergeRow>>) returns (err: Option<string>)
      modifies this
      ensures baseDict == Build(Flatten(batches)).docs && err == Build(Flatten(batches)).error
    {
      baseDict := map[];
      var i := 0;
      while i < |batches|
        invariant 0 <= i <= |batches|
        invariant Build(Flatten(batches[..i])) == BuildState(baseDict, None)
      {
        var batch := batches[i];
        ghost var done := Flatten(batches[..i]);
        var j := 0;
        assert done + batch[..j] == done;
        while j < |batch|
          invariant 0 <= j <= |batch|
          invariant Build(done + batch[..j]) == BuildState(baseDict, None)
        {
          var row := batch[j];
          err := AddRow(row);
          BuildSnoc(done + batch[..j], row);
          PrefixSnoc(done, batch, j);
          if err.Some? {
            ghost var rest := batch[j + 1..] + Flatten(batches[i + 1..]);
            ErrorSticky(done + batch[..j + 1], rest);
            FlattenTail(batches, i, j);
            return;
          }
          j := j + 1;
        }
        FlattenSnoc(batches, i);
        assert batch[..j] == batch;
        i := i + 1;
      }
      assert batches[..i] == batches;
      err := None;
    }
  }

  lemma FlattenTail<T>(bs: seq<seq<T>>, i: nat, j: nat)
    requires i < |bs| && j < |bs[i]|
    ensures Flatten(bs) == (Flatten(bs[..i]) + bs[i][..j + 1]) + (bs[i][j + 1..] + Flatten(bs[i + 1..]))
  {
    assert bs == bs[..i] + ([bs[i]] + bs[i + 1..]);
    FlattenAppend(bs[..i], [bs[i]] + bs[i + 1..]);
    FlattenCons(bs[i], bs[i + 1..]);
    assert bs[i] == bs[i][..j + 1] + bs[i][j + 1..];
  }
}
