/**
 * The film service's person side: it finds the films a person worked on,
 * role by role, and builds a person from the film documents that list them,
 * one film entry per (film, role) in which the person appears.
 */
module FilmPersonService {
  import opened Wrappers
  import opened Dicts
  import opened SeqUtil
  import FilmSearch

  type FilmDoc = FilmSearch.FilmDoc
  type PersonRef = FilmSearch.PersonRef

  /** The three role lists of a film document, in the order the service walks them. */
  datatype Role = Writers | Actors | Directors

  const Roles: seq<Role> := [Writers, Actors, Directors]

  /** The role's key in a film document. */
  function RoleKey(role: Role): string
  {
    match role
    case Writers => "writers"
    case Actors => "actors"
    case Directors => "directors"
  }

  /** `role[:-1]`: the role's singular name, as a person's film entry carries it. */
  function RoleName(role: Role): (name: string)
    ensures name + "s" == RoleKey(role)
    ensures name in {"writer", "actor", "director"}
  {
    var key := RoleKey(role);
    assert key[..|key| - 1] == match role case Writers => "writer" case Actors => "actor" case Directors => "director";
    key[..|key| - 1]
  }

  function Members(d: FilmDoc, role: Role): seq<PersonRef>
  {
    match role
    case Writers => d.writers
    case Actors => d.actors
    case Directors => d.directors
  }

  /** `filter(lambda x: x['id'] == person_id, ...)`: the entries with this id, in order. */
  function WithId(ps: seq<PersonRef>, id: string): seq<PersonRef>
    decreases |ps|
  {
    if ps == [] then []
    else
      var prev := WithId(ps[..|ps| - 1], id);
      if ps[|ps| - 1].id == id then prev + [ps[|ps| - 1]] else prev
  }

  /** The filter keeps exactly the entries with the id. */
  lemma {:induction false} WithIdSpec(ps: seq<PersonRef>, id: string)
    ensures forall p :: p in WithId(ps, id) <==> p in ps && p.id == id
    decreases |ps|
  {
    if ps != [] {
      WithIdSpec(ps[..|ps| - 1], id);
      assert forall p :: p in ps <==> p in ps[..|ps| - 1] || p == ps[|ps| - 1];
    }
  }

  /** The document lists the person in this role. */
  predicate Lists(d: FilmDoc, role: Role, pid: string)
  {
    WithId(Members(d, role), pid) != []
  }

  lemma ListsMeaning(d: FilmDoc, role: Role, pid: string)
    ensures Lists(d, role, pid) <==> exists p :: p in Members(d, role) && p.id == pid
  {
    WithIdSpec(Members(d, role), pid);
    var w := WithId(Members(d, role), pid);
    if w != [] {
      assert w[0] in w;
    }
  }

  /** `{v['id']: v for v in ps}`. */
  function IdDict(ps: seq<PersonRef>): Dict<string, PersonRef>
    decreases |ps|
  {
    if ps == [] then [] else Put(IdDict(ps[..|ps| - 1]), ps[|ps| - 1].id, ps[|ps| - 1])
  }

  /** `list({v['id']: v for v in ps}.values())`. */
  function DedupById(ps: seq<PersonRef>): seq<PersonRef>
  {
    var d := IdDict(ps);
    seq(|d|, i requires 0 <= i < |d| => d[i].1)
  }

  /** Entries that all carry one id collapse to the last of them. */
  lemma {:induction false} DedupOneId(ps: seq<PersonRef>, id: string)
    requires ps != [] && forall p | p in ps :: p.id == id
    ensures DedupById(ps) == [ps[|ps| - 1]]
    ensures IdDict(ps) == [(id, ps[|ps| - 1])]
    decreases |ps|
  {
    var init := ps[..|ps| - 1];
    var last := ps[|ps| - 1];
    assert last in ps;
    if init != [] {
      assert forall p | p in init :: p in ps;
      DedupOneId(init, id);
      assert IndexOf(IdDict(init), id) == Some(0);
    } else {
      assert IndexOf(IdDict(init), id) == None;
    }
    assert IdDict(ps) == [(id, last)];
    assert DedupById(ps) == [IdDict(ps)[0].1];
  }

  /** The entries of a role list the service keeps for a person: all of them, or deduplicated by id. */
  function Matches(d: FilmDoc, role: Role, pid: string, dedup: bool): seq<PersonRef>
  {
    var dirty := WithId(Members(d, role), pid);
    if dedup then DedupById(dirty) else dirty
  }

  /** The entry whose id and name the service takes for the person: the first match, or with dedup the last one. */
  function Chosen(d: FilmDoc, role: Role, pid: string, dedup: bool): (r: Option<PersonRef>)
    ensures r.Some? ==> r.value.id == pid && r.value in Members(d, role)
    ensures r.None? <==> !Lists(d, role, pid)
  {
    var dirty := WithId(Members(d, role), pid);
    WithIdSpec(Members(d, role), pid);
    if dirty == [] then None
    else
      assert dirty[0] in dirty && dirty[|dirty| - 1] in dirty;
      Some(if dedup then dirty[|dirty| - 1] else dirty[0])
  }

  lemma MatchesChosen(d: FilmDoc, role: Role, pid: string, dedup: bool)
    ensures var m := Matches(d, role, pid, dedup);
      (m == [] <==> Chosen(d, role, pid, dedup).None?) &&
      (m != [] ==> Chosen(d, role, pid, dedup) == Some(m[0]))
    ensures dedup ==> |Matches(d, role, pid, dedup)| <= 1
  {
    var dirty := WithId(Members(d, role), pid);
    WithIdSpec(Members(d, role), pid);
    if dirty != [] {
      assert dirty[0] in dirty;
      if dedup {
        DedupOneId(dirty, pid);
      }
    } else if dedup {
      assert IdDict(dirty) == [];
    }
  }

  /** A person's film entry: the role and the films in it. */
  datatype PersonFilm = PersonFilm(role: string, filmIds: seq<string>)

  datatype Person = Person(id: string, fullName: string, films: seq<PersonFilm>)

  /** One value of `persons_roles`: `{'id', 'full_name', 'fw_ids'}`. */
  datatype RoleData = RoleData(id: string, fullName: string, fwIds: seq<string>)

  /** `persons_roles` after walking the given roles of one hit. */
  function HitRoles(d: FilmDoc, pid: string, dedup: bool, roles: seq<Role>): Dict<Role, RoleData>
    decreases |roles|
  {
    if roles == [] then []
    else
      var prev := HitRoles(d, pid, dedup, roles[..|roles| - 1]);
      var role := roles[|roles| - 1];
      var m := Matches(d, role, pid, dedup);
      if m == [] then prev
      else match Get(prev, role)
        case None => Put(prev, role, RoleData(m[0].id, m[0].name, [d.id]))
        case Some(data) => Put(prev, role, data.(fwIds := data.fwIds + [d.id]))
  }

  /** Reference: one entry per role in which the hit lists the person, carrying just this film. */
  function HitEntries(d: FilmDoc, pid: string, dedup: bool, roles: seq<Role>): Dict<Role, RoleData>
    decreases |roles|
  {
    if roles == [] then []
    else
      var role := roles[|roles| - 1];
      HitEntries(d, pid, dedup, roles[..|roles| - 1]) +
      match Chosen(d, role, pid, dedup)
      case None => []
      case Some(p) => [(role, RoleData(p.id, p.name, [d.id]))]
  }

  /** Reference: the film entries one hit contributes, in role order. */
  function HitAppearances(d: FilmDoc, pid: string, roles: seq<Role>): seq<PersonFilm>
    decreases |roles|
  {
    if roles == [] then []
    else
      var role := roles[|roles| - 1];
      HitAppearances(d, pid, roles[..|roles| - 1]) +
      if Lists(d, role, pid) then [PersonFilm(RoleName(role), [d.id])] else []
  }

  /** The film entry each `persons_roles` item becomes, in order. */
  function FilmsOf(entries: Dict<Role, RoleData>): seq<PersonFilm>
    decreases |entries|
  {
    if entries == [] then []
    else
      var (role, data) := entries[|entries| - 1];
      FilmsOf(entries[..|entries| - 1]) + [PersonFilm(RoleName(role), data.fwIds)]
  }

  /**
   * Because `persons_roles` is reset for every hit and each role is walked
   * once, an existing entry is never extended: the hit's entries are exactly
   * the reference entries.
   */
  lemma {:induction false} HitRolesFresh(d: FilmDoc, pid: string, dedup: bool, roles: seq<Role>)
    requires NoDup(roles)
    ensures HitRoles(d, pid, dedup, roles) == HitEntries(d, pid, dedup, roles)
    ensures DistinctKeys(HitRoles(d, pid, dedup, roles))
    ensures KeySet(HitRoles(d, pid, dedup, roles)) <= set r | r in roles
    decreases |roles|
  {
    if roles != [] {
      var init := roles[..|roles| - 1];
      var role := roles[|roles| - 1];
      assert NoDup(init);
      HitRolesFresh(d, pid, dedup, init);
      var prev := HitRoles(d, pid, dedup, init);
      MatchesChosen(d, role, pid, dedup);
      var m := Matches(d, role, pid, dedup);
      if m != [] {
        assert role !in KeySet(prev);
        GetMissing(prev, role);
        PutSpec(prev, role, RoleData(m[0].id, m[0].name, [d.id]));
      }
    }
  }

  lemma {:induction false} HitEntriesFilms(d: FilmDoc, pid: string, dedup: bool, roles: seq<Role>)
    ensures FilmsOf(HitEntries(d, pid, dedup, roles)) == HitAppearances(d, pid, roles)
    ensures forall k :: 0 <= k < |HitEntries(d, pid, dedup, roles)| ==> HitEntries(d, pid, dedup, roles)[k].1.id == pid
    decreases |roles|
  {
    if roles != [] {
      var init := roles[..|roles| - 1];
      var role := roles[|roles| - 1];
      HitEntriesFilms(d, pid, dedup, init);
      MatchesChosen(d, role, pid, dedup);
      var prev := HitEntries(d, pid, dedup, init);
      var cur := HitEntries(d, pid, dedup, roles);
      match Chosen(d, role, pid, dedup)
      case None =>
        assert cur == prev;
      case Some(p) =>
        var e := (role, RoleData(p.id, p.name, [d.id]));
        assert cur == prev + [e];
        assert cur[..|cur| - 1] == prev;
    }
  }

  /** The person after adding the entries of one hit: created from the first entry, extended by the rest. */
  function AddFilms(person: Option<Person>, entries: Dict<Role, RoleData>): Option<Person>
    decreases |entries|
  {
    if entries == [] then person
    else
      var p := AddFilms(person, entries[..|entries| - 1]);
      var (role, data) := entries[|entries| - 1];
      var film := PersonFilm(RoleName(role), data.fwIds);
      if p.None? then Some(Person(data.id, data.fullName, [film])) else Some(p.value.(films := p.value.films + [film]))
  }

  lemma {:induction false} AddFilmsSpec(person: Option<Person>, entries: Dict<Role, RoleData>)
    ensures AddFilms(person, entries) ==
      if person.Some? then Some(person.value.(films := person.value.films + FilmsOf(entries)))
      else if entries == [] then None
      else Some(Person(entries[0].1.id, entries[0].1.fullName, FilmsOf(entries)))
    decreases |entries|
  {
    if entries != [] {
      var init := entries[..|entries| - 1];
      var last := entries[|entries| - 1];
      var film := PersonFilm(RoleName(last.0), last.1.fwIds);
      AddFilmsSpec(person, init);
      assert FilmsOf(entries) == FilmsOf(init) + [film];
      var p := AddFilms(person, init);
      assert AddFilms(person, entries) ==
        if p.None? then Some(Person(last.1.id, last.1.fullName, [film])) else Some(p.value.(films := p.value.films + [film]));
      if person.Some? {
        assert person.value.films + FilmsOf(entries) == (person.value.films + FilmsOf(init)) + [film];
        assert p == Some(person.value.(films := person.value.films + FilmsOf(init)));
        assert AddFilms(person, entries) == Some(person.value.(films := person.value.films + FilmsOf(entries)));
      } else if init == [] {
        assert entries == [last];
        assert entries[0] == last;
        assert FilmsOf(entries) == [film];
        assert p == None;
        assert AddFilms(person, entries) == Some(Person(entries[0].1.id, entries[0].1.fullName, FilmsOf(entries)));
      } else {
        assert init[0] == entries[0];
        assert p == Some(Person(entries[0].1.id, entries[0].1.fullName, FilmsOf(init)));
        assert AddFilms(person, entries) == Some(Person(entries[0].1.id, entries[0].1.fullName, FilmsOf(entries)));
      }
    } else if person.Some? {
      assert FilmsOf(entries) == [];
      assert person.value.films + [] == person.value.films;
    }
  }

  /** The person built from the hits: `_get_person_from_elastic` without dedup, one element of `get_person_by_ids` with it. */
  function Aggregate(hits: seq<FilmDoc>, pid: string, dedup: bool): Option<Person>
    decreases |hits|
  {
    if hits == [] then None
    else AddFilms(Aggregate(hits[..|hits| - 1], pid, dedup), HitRoles(hits[|hits| - 1], pid, dedup, Roles))
  }

  /** Reference: every (film, role) in which the person appears, hits in order and roles in order. */
  function Appearances(hits: seq<FilmDoc>, pid: string): seq<PersonFilm>
    decreases |hits|
  {
    if hits == [] then [] else Appearances(hits[..|hits| - 1], pid) + HitAppearances(hits[|hits| - 1], pid, Roles)
  }

  /** Reference: the entry of the first hit and role that lists the person. */
  function FirstChoice(hits: seq<FilmDoc>, pid: string, dedup: bool): Option<RoleData>
    decreases |hits|
  {
    if hits == [] then None
    else match FirstChoice(hits[..|hits| - 1], pid, dedup)
      case Some(c) => Some(c)
      case None =>
        var es := HitEntries(hits[|hits| - 1], pid, dedup, Roles);
        if es == [] then None else Some(es[0].1)
  }

  /** The last hit's `persons_roles` is its reference entries. */
  lemma AggregateLast(hits: seq<FilmDoc>, pid: string, dedup: bool)
    requires hits != []
    ensures Aggregate(hits, pid, dedup) ==
      AddFilms(Aggregate(hits[..|hits| - 1], pid, dedup), HitEntries(hits[|hits| - 1], pid, dedup, Roles))
  {
    HitRolesFresh(hits[|hits| - 1], pid, dedup, Roles);
  }

  lemma FilmsOfEmpty(es: Dict<Role, RoleData>)
    ensures es == [] <==> FilmsOf(es) == []
  {

  }

  lemma {:induction false} FirstChoiceSpec(hits: seq<FilmDoc>, pid: string, dedup: bool)
    ensures FirstChoice(hits, pid, dedup).None? <==> Appearances(hits, pid) == []
    ensures FirstChoice(hits, pid, dedup).Some? ==> FirstChoice(hits, pid, dedup).value.id == pid
    decreases |hits|
  {
    if hits != [] {
      var d := hits[|hits| - 1];
      FirstChoiceSpec(hits[..|hits| - 1], pid, dedup);
      HitEntriesFilms(d, pid, dedup, Roles);
      FilmsOfEmpty(HitEntries(d, pid, dedup, Roles));
    }
  }

  /** Adding one hit's entries to a person built from earlier hits. */
  lemma AddFilmsStep(person: Option<Person>, first: Option<RoleData>, films: seq<PersonFilm>, es: Dict<Role, RoleData>)
    requires first.None? <==> films == []
    requires person == match first case None => None case Some(c) => Some(Person(c.id, c.fullName, films))
    ensures AddFilms(person, es) ==
      match (if first.Some? then first else if es == [] then None else Some(es[0].1))
      case None => None
      case Some(c) => Some(Person(c.id, c.fullName, films + FilmsOf(es)))
  {
    AddFilmsSpec(person, es);
    FilmsOfEmpty(es);
    if first.None? {
      assert films + FilmsOf(es) == FilmsOf(es);
    }
  }

  /**
   * The person is absent exactly when no hit lists them; otherwise its id and
   * name come from the first hit and role that lists them, and its films are
   * every (film, role) appearance in order.
   */
  lemma {:induction false} AggregateSpec(hits: seq<FilmDoc>, pid: string, dedup: bool)
    ensures Aggregate(hits, pid, dedup) ==
      match FirstChoice(hits, pid, dedup)
      case None => None
      case Some(c) => Some(Person(c.id, c.fullName, Appearances(hits, pid)))
    decreases |hits|
  {
    if hits != [] {
      var init := hits[..|hits| - 1];
      var d := hits[|hits| - 1];
      var es := HitEntries(d, pid, dedup, Roles);
      var first := FirstChoice(init, pid, dedup);
      AggregateSpec(init, pid, dedup);
      FirstChoiceSpec(init, pid, dedup);
      AggregateLast(hits, pid, dedup);
      HitEntriesFilms(d, pid, dedup, Roles);
      assert FirstChoice(hits, pid, dedup) == if first.Some? then first else if es == [] then None else Some(es[0].1);
      assert Appearances(hits, pid) == Appearances(init, pid) + FilmsOf(es);
      AddFilmsStep(Aggregate(init, pid, dedup), first, Appearances(init, pid), es);
    }
  }

  lemma {:induction false} AppearancesShape(hits: seq<FilmDoc>, pid: string)
    ensures forall pf | pf in Appearances(hits, pid) :: |pf.filmIds| == 1 && pf.role in {"writer", "actor", "director"}
    decreases |hits|
  {
    if hits != [] {
      AppearancesShape(hits[..|hits| - 1], pid);
      HitAppearancesShape(hits[|hits| - 1], pid, Roles);
    }
  }

  lemma {:induction false} HitAppearancesShape(d: FilmDoc, pid: string, roles: seq<Role>)
    ensures forall pf | pf in HitAppearances(d, pid, roles) :: pf.filmIds == [d.id] && pf.role in {"writer", "actor", "director"}
    decreases |roles|
  {
    if roles != [] {
      HitAppearancesShape(d, pid, roles[..|roles| - 1]);
    }
  }

  /** The person a search answer yields: none when no hit lists them, else their id, with one film per entry. */
  lemma PersonShape(hits: seq<FilmDoc>, pid: string, dedup: bool)
    ensures Aggregate(hits, pid, dedup).None? <==> forall k :: 0 <= k < |hits| ==> !ListsSomewhere(hits[k], pid)
    ensures Aggregate(hits, pid, dedup).Some? ==>
      var person := Aggregate(hits, pid, dedup).value;
      person.id == pid && person.films != [] &&
      forall pf | pf in person.films :: |pf.filmIds| == 1 && pf.role in {"writer", "actor", "director"}
  {
    AggregateSpec(hits, pid, dedup);
    FirstChoiceSpec(hits, pid, dedup);
    AppearancesShape(hits, pid);
    AppearancesEmpty(hits, pid);
  }

  /** The document lists the person in some role. */
  predicate ListsSomewhere(d: FilmDoc, pid: string)
  {
    Lists(d, Writers, pid) || Lists(d, Actors, pid) || Lists(d, Directors, pid)
  }

  lemma {:induction false} AppearancesEmpty(hits: seq<FilmDoc>, pid: string)
    ensures Appearances(hits, pid) == [] <==> forall k :: 0 <= k < |hits| ==> !ListsSomewhere(hits[k], pid)
    decreases |hits|
  {
    if hits != [] {
      var init := hits[..|hits| - 1];
      var d := hits[|hits| - 1];
      assert hits == init + [d];
      assert Appearances(hits, pid) == Appearances(init, pid) + HitAppearances(d, pid, Roles);
      AppearancesEmpty(init, pid);
      HitListsSomewhere(d, pid);
      NoneListedSnoc(Appearances(init, pid), HitAppearances(d, pid, Roles), init, d, pid);
    }
  }

  lemma NoneListedSnoc(a: seq<PersonFilm>, h: seq<PersonFilm>, init: seq<FilmDoc>, d: FilmDoc, pid: string)
    requires a == [] <==> forall k :: 0 <= k < |init| ==> !ListsSomewhere(init[k], pid)
    requires h == [] <==> !ListsSomewhere(d, pid)
    ensures a + h == [] <==> forall k :: 0 <= k < |init + [d]| ==> !ListsSomewhere((init + [d])[k], pid)
  {
    var hits := init + [d];
    assert |a + h| == |a| + |h|;
    if a == [] && h == [] {
      forall k | 0 <= k < |hits|
        ensures !ListsSomewhere(hits[k], pid)
      {
        if k < |init| {
          assert hits[k] == init[k];
        }
      }
    }
    if forall k :: 0 <= k < |hits| ==> !ListsSomewhere(hits[k], pid) {
      forall k | 0 <= k < |init|
        ensures !ListsSomewhere(init[k], pid)
      {
        assert hits[k] == init[k];
      }
      assert hits[|init|] == d;
    }
  }

  lemma HitListsSomewhere(d: FilmDoc, pid: string)
    ensures HitAppearances(d, pid, Roles) == [] <==> !ListsSomewhere(d, pid)
  {
    HitAppearancesEmpty(d, pid, Roles);
    assert forall role :: role in Roles <==> role == Writers || role == Actors || role == Directors;
  }

  lemma {:induction false} HitAppearancesEmpty(d: FilmDoc, pid: string, roles: seq<Role>)
    ensures HitAppearances(d, pid, roles) == [] <==> forall role | role in roles :: !Lists(d, role, pid)
    decreases |roles|
  {
    if roles != [] {
      var init := roles[..|roles| - 1];
      HitAppearancesEmpty(d, pid, init);
      assert forall r | r in roles :: r in init || r == roles[|roles| - 1];
    }
  }

  /** The walk over hits, roles and `persons_roles` that both person lookups share. */
  method CollectPerson(hits: seq<FilmDoc>, pid: string, dedup: bool) returns (person: Option<Person>)
    ensures person == Aggregate(hits, pid, dedup)
  {
    person := None;
    var i := 0;
    while i < |hits|
      invariant 0 <= i <= |hits|
      invariant person == Aggregate(hits[..i], pid, dedup)
    {
      var personsRoles := CollectRoles(hits[i], pid, dedup);
      person := AddPersonFilms(person, personsRoles);
      assert hits[..i + 1][..i] == hits[..i];
      i := i + 1;
    }
    assert hits[..i] == hits;
  }

  /** The `for role in roles` loop over one hit, filling a fresh `persons_roles`. */
  method CollectRoles(source: FilmDoc, pid: string, dedup: bool) returns (personsRoles: Dict<Role, RoleData>)
    ensures personsRoles == HitRoles(source, pid, dedup, Roles)
  {
    personsRoles := [];
    var j := 0;
    while j < |Roles|
      invariant 0 <= j <= |Roles|
      invariant personsRoles == HitRoles(source, pid, dedup, Roles[..j])
    {
      var role := Roles[j];
      var personRoles := Matches(source, role, pid, dedup);
      assert Roles[..j + 1][..j] == Roles[..j];
      if personRoles != [] {
        var existing := Get(personsRoles, role);
        if existing.None? {
          personsRoles := Put(personsRoles, role, RoleData(personRoles[0].id, personRoles[0].name, [source.id]));
        } else {
          var data := existing.value;
          personsRoles := Put(personsRoles, role, data.(fwIds := data.fwIds + [source.id]));
        }
      }
      j := j + 1;
    }
    assert Roles[..j] == Roles;
  }

  /** The `for role, role_data in persons_roles.items()` loop: create the person or append a film. */
  method AddPersonFilms(before: Option<Person>, personsRoles: Dict<Role, RoleData>) returns (person: Option<Person>)
    ensures person == AddFilms(before, personsRoles)
  {
    person := before;
    var k := 0;
    while k < |personsRoles|
      invariant 0 <= k <= |personsRoles|
      invariant person == AddFilms(before, personsRoles[..k])
    {
      var (role, data) := personsRoles[k];
      assert personsRoles[..k + 1][..k] == personsRoles[..k];
      var film := PersonFilm(RoleName(role), data.fwIds);
      if person.None? {
        person := Some(Person(data.id, data.fullName, [film]));
      } else {
        person := Some(person.value.(films := person.value.films + [film]));
      }
      k := k + 1;
    }
    assert personsRoles[..k] == personsRoles;
  }

  /** Hits of a nested match on one role: the documents that list the person in it, in index order. */
  function RoleHits(docs: seq<FilmDoc>, role: Role, pid: string): seq<FilmDoc>
    decreases |docs|
  {
    if docs == [] then []
    else
      var d := docs[|docs| - 1];
      RoleHits(docs[..|docs| - 1], role, pid) + if Lists(d, role, pid) then [d] else []
  }

  /** A role search returns every document that lists the person in the role, as often as the index holds it, and nothing else. */
  lemma {:induction false} RoleHitsCount(docs: seq<FilmDoc>, role: Role, pid: string, d: FilmDoc)
    ensures multiset(RoleHits(docs, role, pid))[d] == if Lists(d, role, pid) then multiset(docs)[d] else 0
    decreases |docs|
  {
    if docs != [] {
      var init := docs[..|docs| - 1];
      var last := docs[|docs| - 1];
      var extra := if Lists(last, role, pid) then [last] else [];
      assert docs == init + [last];
      assert multiset(docs) == multiset(init) + multiset{last};
      assert RoleHits(docs, role, pid) == RoleHits(init, role, pid) + extra;
      assert multiset(RoleHits(docs, role, pid)) == multiset(RoleHits(init, role, pid)) + multiset(extra);
      RoleHitsCount(init, role, pid, d);
    }
  }

  /** The document lists one of the ids in some role. */
  predicate MentionsAny(d: FilmDoc, ids: seq<string>)
  {
    exists p :: p in d.writers + d.actors + d.directors && p.id in ids
  }

  /** Hits of the `should` query over all roles: the documents that list any of the ids in any role. */
  function PersonIdsHits(docs: seq<FilmDoc>, ids: seq<string>): (r: seq<FilmDoc>)
    ensures forall d :: d in r <==> d in docs && MentionsAny(d, ids)
    decreases |docs|
  {
    if docs == [] then []
    else
      var d := docs[|docs| - 1];
      var prev := PersonIdsHits(docs[..|docs| - 1], ids);
      assert forall x :: x in docs <==> x in docs[..|docs| - 1] || x == d;
      if MentionsAny(d, ids) then prev + [d] else prev
  }

  /** `get_films_by_person` as a value: the writer hits, then the actor hits, then the director hits. */
  function FilmsByPerson(docs: seq<FilmDoc>, pid: string): seq<FilmDoc>
  {
    RoleHits(docs, Writers, pid) + RoleHits(docs, Actors, pid) + RoleHits(docs, Directors, pid)
  }

  /**
   * No dedup across roles: a film comes back once per role that lists the
   * person (times its copies in the index), and a film that lists them in no
   * role does not come back.
   */
  lemma FilmsByPersonCount(docs: seq<FilmDoc>, pid: string, d: FilmDoc)
    ensures var copies := multiset(docs)[d];
      multiset(FilmsByPerson(docs, pid))[d] ==
        (if Lists(d, Writers, pid) then copies else 0) +
        (if Lists(d, Actors, pid) then copies else 0) +
        (if Lists(d, Directors, pid) then copies else 0)
    ensures d in FilmsByPerson(docs, pid) <==> d in docs && ListsSomewhere(d, pid)
  {
    var w := RoleHits(docs, Writers, pid);
    var a := RoleHits(docs, Actors, pid);
    var r := RoleHits(docs, Directors, pid);
    assert multiset(w + a + r) == multiset(w) + multiset(a) + multiset(r);
    RoleHitsCount(docs, Writers, pid, d);
    RoleHitsCount(docs, Actors, pid, d);
    RoleHitsCount(docs, Directors, pid, d);
  }

  class FilmService {
    /** Cached films by key (Redis). */
    var filmCache: map<string, FilmDoc>
    /** Cached persons by key (Redis); this service only reads them. */
    var personCache: map<string, Person>
    /** The `movies` index's documents, in the order a search returns them. */
    const docs: seq<FilmDoc>
    /** Whether the index exists; every request to a missing one raises NotFoundError. */
    const indexExists: bool

    constructor (filmCache: map<string, FilmDoc>, personCache: map<string, Person>, docs: seq<FilmDoc>, indexExists: bool)
      ensures this.filmCache == filmCache && this.personCache == personCache
      ensures this.docs == docs && this.indexExists == indexExists
    {
      this.filmCache := filmCache;
      this.personCache := personCache;
      this.docs := docs;
      this.indexExists := indexExists;
    }

    /** What `elastic.get` sees: the documents by id. */
    function ById(): map<string, FilmDoc>
    {
      if indexExists then IndexById(docs) else map[]
    }

    /** `get_by_id`: cache first, then the index, caching what it finds. */
    method GetById(filmId: string) returns (film: Option<FilmDoc>)
      modifies this
      ensures (film, filmCache) == FilmSearch.CacheAside(old(filmCache), ById(), filmId)
      ensures personCache == old(personCache)
    {
      if filmId in filmCache {
        return Some(filmCache[filmId]);
      }
      var index := ById();
      if filmId !in index {
        return None;
      }
      film := Some(index[filmId]);
      filmCache := filmCache[film.value.id := film.value];
    }

    /** `_get_person_from_elastic`: one search for the id, then the walk over its hits. */
    method GetPersonFromElastic(pid: string) returns (person: Option<Person>)
      ensures person == if indexExists then Aggregate(PersonIdsHits(docs, [pid]), pid, false) else None
    {
      if !indexExists {
        return None;
      }
      var hits := PersonIdsHits(docs, [pid]);
      person := CollectPerson(hits, pid, false);
    }

    /** `get_person_by_id`: cache first, then the index; the cache is never written. */
    method GetPersonById(pid: string) returns (person: Option<Person>)
      ensures person == if pid in personCache then Some(personCache[pid])
                        else if indexExists then Aggregate(PersonIdsHits(docs, [pid]), pid, false)
                        else None
    {
      if pid in personCache {
        return Some(personCache[pid]);
      }
      person := GetPersonFromElastic(pid);
    }

    /** `get_person_by_ids`: one search for all ids, then one person (or None) per id, in order. */
    method GetPersonByIds(ids: seq<string>) returns (persons: seq<Option<Person>>)
      ensures !indexExists ==> persons == []
      ensures indexExists ==> (|persons| == |ids| &&
        forall k :: 0 <= k < |ids| ==> persons[k] == Aggregate(PersonIdsHits(docs, ids), ids[k], true))
    {
      persons := [];
      if !indexExists {
        return;
      }
      var hits := PersonIdsHits(docs, ids);
      var i := 0;
      while i < |ids|
        invariant 0 <= i <= |ids| && |persons| == i
        invariant forall k :: 0 <= k < i ==> persons[k] == Aggregate(hits, ids[k], true)
      {
        var person := CollectPerson(hits, ids[i], true);
        persons := persons + [person];
        i := i + 1;
      }
    }

    /** `get_films_by_person`: a search per role, writers then actors then directors, concatenated. */
    method GetFilmsByPerson(pid: string) returns (films: seq<FilmDoc>)
      ensures films == if indexExists then FilmsByPerson(docs, pid) else []
    {
      films := [];
      if !indexExists {
        return;
      }
      films := RoleSearches(docs, pid, Roles);
      FlattenRolesAll(docs, pid);
    }
  }

  /** `for doc in hits: films.append(doc)`. */
  method AppendHits(films: seq<FilmDoc>, hits: seq<FilmDoc>) returns (r: seq<FilmDoc>)
    ensures r == films + hits
  {
    r := films;
    var k := 0;
    while k < |hits|
      invariant 0 <= k <= |hits|
      invariant r == films + hits[..k]
    {
      assert hits[..k + 1] == hits[..k] + [hits[k]];
      r := r + [hits[k]];
      k := k + 1;
    }
    assert hits[..k] == hits;
  }

  /** The `for role in roles` loop of `get_films_by_person`: one search per role, hits appended in order. */
  method RoleSearches(docs: seq<FilmDoc>, pid: string, roles: seq<Role>) returns (films: seq<FilmDoc>)
    ensures films == FlattenRoles(docs, pid, roles)
  {
    films := [];
    var j := 0;
    while j < |roles|
      invariant 0 <= j <= |roles|
      invariant films == FlattenRoles(docs, pid, roles[..j])
    {
      assert roles[..j + 1][..j] == roles[..j];
      var hits := RoleHits(docs, roles[j], pid);
      films := AppendHits(films, hits);
      j := j + 1;
    }
    assert roles[..j] == roles;
  }

  lemma FlattenRolesAll(docs: seq<FilmDoc>, pid: string)
    ensures FlattenRoles(docs, pid, Roles) == FilmsByPerson(docs, pid)
  {
    assert Roles[..2] == [Writers, Actors] && Roles[..2][..1] == [Writers] && [Writers][..0] == [];
  }

  /** The hits of the given roles, concatenated in order. */
  function FlattenRoles(docs: seq<FilmDoc>, pid: string, roles: seq<Role>): seq<FilmDoc>
    decreases |roles|
  {
    if roles == [] then [] else FlattenRoles(docs, pid, roles[..|roles| - 1]) + RoleHits(docs, roles[|roles| - 1], pid)
  }

  /** `elastic.get` over the index: the document stored under an id is the last one written with it. */
  function IndexById(docs: seq<FilmDoc>): (m: map<string, FilmDoc>)
    ensures FilmSearch.KeyedById(m)
    ensures forall id :: id in m <==> exists k :: 0 <= k < |docs| && docs[k].id == id
    decreases |docs|
  {
    if docs == [] then map[]
    else
      var prev := IndexById(docs[..|docs| - 1]);
      var d := docs[|docs| - 1];
      assert forall k :: 0 <= k < |docs| - 1 ==> docs[..|docs| - 1][k] == docs[k];
      prev[d.id := d]
  }
}
