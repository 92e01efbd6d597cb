/**
 * The flat merge row produced by the denormalising join: the film's scalar
 * columns repeated on every row, plus at most one person (with the role from
 * the person/film bridge table) and one genre.
 */
module MergeRows {
  import opened Wrappers

  /** Integer stand-in for the timestamp columns. */
  type Timestamp = int

  datatype MergeRow = MergeRow(
    filmWorkId: string,
    filmWorkTitle: string,
    filmWorkDescription: Option<string>,
    filmWorkRating: Option<real>,
    filmWorkType: string,
    filmWorkCreatedAt: Timestamp,
    filmWorkUpdatedAt: Timestamp,
    pfwRole: Option<string>,
    personId: Option<string>,
    personFullName: Option<string>,
    genreId: string,
    genreName: string)

  /** How a row's `pfw_role` column reads to the builders. */
  datatype RoleKind = NoRole | Director | Actor | Writer | OtherRole(roleName: string)

  /**
   * `None` and the empty string are the falsy role values; the three known
   * role strings are the values of the role enumeration; anything else is an
   * unknown role.
   */
  function Classify(role: Option<string>): (k: RoleKind)
    ensures k == NoRole <==> role == None || role == Some("")
    ensures k == Director <==> role == Some("director")
    ensures k == Actor <==> role == Some("actor")
    ensures k == Writer <==> role == Some("writer")
    ensures k.OtherRole? ==> role == Some(k.roleName)
  {
    match role
    case None => NoRole
    case Some(s) =>
      if s == "" then NoRole
      else if s == "director" then Director
      else if s == "actor" then Actor
      else if s == "writer" then Writer
      else OtherRole(s)
  }

  /** The distinct film ids of a row sequence. */
  function FilmIds(rows: seq<MergeRow>): set<string>
  {
    set i | 0 <= i < |rows| :: rows[i].filmWorkId
  }

  /** Rows with index below `k` for the same film. */
  predicate NoEarlierRow(rows: seq<MergeRow>, k: int, id: string)
    requires 0 <= k <= |rows|
  {
    forall j :: 0 <= j < k ==> rows[j].filmWorkId != id
  }

  /** Rows with index above `k` for the same film. */
  predicate NoLaterRow(rows: seq<MergeRow>, k: int, id: string)
    requires 0 <= k < |rows|
  {
    forall j :: k < j < |rows| ==> rows[j].filmWorkId != id
  }

  /** Dropping the last row keeps "no later row", and that last row is for another film. */
  lemma NoLaterRowInit(rows: seq<MergeRow>, k: int, id: string)
    requires 0 <= k < |rows| - 1 && NoLaterRow(rows, k, id)
    ensures NoLaterRow(Init(rows), k, id) && Last(rows).filmWorkId != id && Init(rows)[k] == rows[k]
  {
    assert |Init(rows)| == |rows| - 1;
    forall j | k < j < |rows| - 1
      ensures Init(rows)[j].filmWorkId != id
    {
      assert Init(rows)[j] == rows[j];
    }
  }

  function Init<T>(s: seq<T>): seq<T>
    requires |s| > 0
  {
    s[..|s| - 1]
  }

  function Last<T>(s: seq<T>): T
    requires |s| > 0
  {
    s[|s| - 1]
  }

  lemma FilmIdsSnoc(rows: seq<MergeRow>)
    requires |rows| > 0
    ensures FilmIds(rows) == FilmIds(Init(rows)) + {Last(rows).filmWorkId}
  {
    var n := |rows| - 1;
    forall x | x in FilmIds(rows)
      ensures x in FilmIds(Init(rows)) + {Last(rows).filmWorkId}
    {
      var i :| 0 <= i < |rows| && rows[i].filmWorkId == x;
      if i < n { assert Init(rows)[i] == rows[i]; }
    }
    forall x | x in FilmIds(Init(rows))
      ensures x in FilmIds(rows)
    {
      var i :| 0 <= i < n && Init(rows)[i].filmWorkId == x;
      assert rows[i] == Init(rows)[i];
    }
  }
}
