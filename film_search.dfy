/**
 * The film search service of the API: it turns a sort string and a filter
 * into a search request, maps an empty answer to "nothing", and reads films
 * by id through a cache in front of the search index.
 */
module FilmSearch {
  import opened Wrappers
  import opened Dicts

  /** A person as a film document lists it. */
  datatype PersonRef = PersonRef(id: string, name: string)

  /** A film document as the search index returns it (the fields the services read). */
  datatype FilmDoc = FilmDoc(id: string, title: string, writers: seq<PersonRef>, actors: seq<PersonRef>, directors: seq<PersonRef>)

  const MoviesIndex: string := "movies"

  // ---------------------------------------------------------------------
  // Search requests

  /** `{"nested": {"path": p, "query": {"bool": {"must": [{"match": {f: v}}]}}}}`. */
  datatype Clause = Nested(path: string, matchField: string, matchValue: string)

  datatype Query =
    | MultiMatch(text: string, fuzziness: string)
    | BoolMust(clauses: seq<Clause>)

  datatype SearchRequest = SearchRequest(index: string, from: int, size: int, sort: Option<string>, query: Option<Query>)

  /** The `sort` argument: a leading `-` sorts descending on the rest, anything else ascending; the empty string fails on `sort[0]`. */
  function SortParam(sort: string): (r: Result<string, string>)
    ensures r.Err? <==> sort == ""
  {
    if sort == "" then Err("IndexError")
    else if sort[0] == '-' then Ok(sort[1..] + ":desc")
    else Ok(sort + ":asc")
  }

  /** How a client asks for a sort: the field, prefixed by `-` for descending. */
  function SortString(field: string, descending: bool): string
  {
    if descending then "-" + field else field
  }

  /** The sort a client asks for is the sort sent to the index, provided an ascending field does not itself start with `-`. */
  lemma SortRoundTrip(field: string, descending: bool)
    requires descending || (field != "" && field[0] != '-')
    ensures SortParam(SortString(field, descending)) == Ok(field + if descending then ":desc" else ":asc")
  {
    if descending {
      assert ("-" + field)[1..] == field;
    }
  }

  /** One nested clause per filter entry, in the filter's order: the entry's key is the path and `<key>.id` must match its value. */
  function NestedClauses(filter: Dict<string, string>): seq<Clause>
  {
    seq(|filter|, i requires 0 <= i < |filter| => Nested(filter[i].0, filter[i].0 + ".id", filter[i].1))
  }

  /** Reading a clause list back as a filter. */
  function ClauseFilter(clauses: seq<Clause>): Dict<string, string>
  {
    seq(|clauses|, i requires 0 <= i < |clauses| => (clauses[i].path, clauses[i].matchValue))
  }

  /** The clauses lose nothing of the filter, and each matches on the `id` of the nested field it is about. */
  lemma ClausesRoundTrip(filter: Dict<string, string>)
    ensures ClauseFilter(NestedClauses(filter)) == filter
    ensures forall c | c in NestedClauses(filter) :: c.matchField == c.path + ".id"
  {
  }

  /** `_get_scope_films_from_elastic`'s request: the clauses go in a `bool`/`must` query, and an empty filter sends no query at all. */
  function ScopeRequest(from: int, size: int, filter: Dict<string, string>, sort: string): Result<SearchRequest, string>
  {
    match SortParam(sort)
    case Err(e) => Err(e)
    case Ok(s) =>
      Ok(SearchRequest(MoviesIndex, from, size, Some(s), if filter != [] then Some(BoolMust(NestedClauses(filter))) else None))
  }

  /** `_search_film_from_elastic`'s request: a fuzzy multi-field match on the text. */
  function SearchRequestFor(query: string, from: int, size: int): SearchRequest
  {
    SearchRequest(MoviesIndex, from, size, None, Some(MultiMatch(query, "auto")))
  }

  /** `if not films: return None`. */
  function NoneIfEmpty(films: Option<seq<FilmDoc>>): (r: Option<seq<FilmDoc>>)
    ensures r.None? <==> films.None? || films.value == []
    ensures r.Some? ==> r == films
  {
    if films.None? || films.value == [] then None else films
  }

  /** The search index as the services see it: a request answered with hits, or None for NotFoundError. */
  type Engine = SearchRequest -> Option<seq<FilmDoc>>

  /** `get_scope_films`. */
  function GetScopeFilms(engine: Engine, from: int, size: int, filter: Dict<string, string>, sort: string): Result<Option<seq<FilmDoc>>, string>
  {
    match ScopeRequest(from, size, filter, sort)
    case Err(e) => Err(e)
    case Ok(req) => Ok(NoneIfEmpty(engine(req)))
  }

  /** `search_film`. */
  function SearchFilm(engine: Engine, query: string, from: int, size: int): Option<seq<FilmDoc>>
  {
    NoneIfEmpty(engine(SearchRequestFor(query, from, size)))
  }

  /**
   * A scope search fails exactly on an empty sort string; otherwise it sends
   * the page, the translated sort and one clause per filter entry (no query
   * for an empty filter), and returns the hits unless there are none.
   */
  lemma ScopeFilmsOutcome(engine: Engine, from: int, size: int, filter: Dict<string, string>, sort: string)
    ensures GetScopeFilms(engine, from, size, filter, sort).Err? <==> sort == ""
    ensures sort != "" ==>
      var req := ScopeRequest(from, size, filter, sort).value;
      req.index == MoviesIndex && req.from == from && req.size == size && req.sort == Some(SortParam(sort).value) &&
      (filter == [] <==> req.query.None?) &&
      (filter != [] ==> req.query.Some? && req.query.value.BoolMust? && ClauseFilter(req.query.value.clauses) == filter) &&
      (GetScopeFilms(engine, from, size, filter, sort).value.Some? <==> engine(req).Some? && engine(req).value != [])
  {
    ClausesRoundTrip(filter);
  }

  /**
   * A film search sends a fuzzy multi-field match on the text, with the page
   * and no sort, to the `movies` index, and returns the hits unless there
   * are none.
   */
  lemma SearchFilmOutcome(engine: Engine, query: string, from: int, size: int)
    ensures var req := SearchRequestFor(query, from, size);
      var r := SearchFilm(engine, query, from, size);
      req.index == MoviesIndex && req.from == from && req.size == size && req.sort.None? &&
      req.query == Some(MultiMatch(query, "auto")) &&
      (r.None? <==> engine(req).None? || engine(req).value == []) &&
      (r.Some? ==> r == engine(req))
  {
  }

  // ---------------------------------------------------------------------
  // Cache-aside reads

  /**
   * `get_by_id`: a cached film is returned as is; on a miss the index is
   * asked and a film it has is cached under its own id; a film the index does
   * not have leaves the cache alone.
   */
  function CacheAside(cache: map<string, FilmDoc>, index: map<string, FilmDoc>, filmId: string): (Option<FilmDoc>, map<string, FilmDoc>)
  {
    if filmId in cache then (Some(cache[filmId]), cache)
    else if filmId in index then (Some(index[filmId]), cache[index[filmId].id := index[filmId]])
    else (None, cache)
  }

  /** The index stores each film under its own id. */
  predicate KeyedById(m: map<string, FilmDoc>)
  {
    forall k | k in m :: m[k].id == k
  }

  /** The cache holds only what the index holds. */
  predicate Coherent(cache: map<string, FilmDoc>, index: map<string, FilmDoc>)
  {
    forall k | k in cache :: k in index && cache[k] == index[k]
  }

  /**
   * Over an index keyed by id and a coherent cache, a read returns what the
   * index holds, keeps the cache coherent, and makes the next read of the same
   * id a cache hit that changes nothing.
   */
  lemma CacheAsideCoherent(cache: map<string, FilmDoc>, index: map<string, FilmDoc>, filmId: string)
    requires KeyedById(index) && Coherent(cache, index)
    ensures var (r, cache') := CacheAside(cache, index, filmId);
      r == (if filmId in index then Some(index[filmId]) else None) &&
      Coherent(cache', index) &&
      (r.Some? ==> filmId in cache' && CacheAside(cache', index, filmId) == (r, cache'))
  {
  }

  class FilmService {
    /** The cache (Redis): key to stored film. */
    var cache: map<string, FilmDoc>
    /** The index's documents by id, as `elastic.get` reads them. */
    const index: map<string, FilmDoc>

    constructor (cache: map<string, FilmDoc>, index: map<string, FilmDoc>)
      ensures this.cache == cache && this.index == index
    {
      this.cache := cache;
      this.index := index;
    }

    /** `get_by_id`. */
    method GetById(filmId: string) returns (film: Option<FilmDoc>)
      modifies this
      ensures (film, cache) == CacheAside(old(cache), index, filmId)
    {
      if filmId in cache {
        film := Some(cache[filmId]);
        return;
      }
      if filmId !in index {
        return None;
      }
      film := Some(index[filmId]);
      cache := cache[film.value.id := film.value];
    }
  }
}
