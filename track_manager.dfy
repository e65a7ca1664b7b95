/**
  The registry of tracking services (TrackManager.kt): a fixed table of five
  services with integer ids, lookup of a service by id, the "is any service
  logged in" check, and the dispatch from a service to the field of a manga
  record that holds that service's remote id.
 */
module TrackManager {
  import opened Wrappers

  // The service ids of the companion object.
  const MDLIST: int := 0
  const MYANIMELIST: int := 1
  const ANILIST: int := 2
  const KITSU: int := 3
  const MANGA_UPDATES: int := 7

  /** The concrete service classes the registry instantiates. */
  datatype ServiceKind = MdList | MyAnimeList | Anilist | Kitsu | MangaUpdates

  /**
    A tracking service: its class, the id it was constructed with, and whether
    the user is logged in to it. `isLogged()` reads stored credentials in the
    service class; here it is a snapshot of that answer.
   */
  datatype TrackService = TrackService(kind: ServiceKind, id: int, isLogged: bool)

  /** The fields of a manga record that the registry reads. */
  datatype Manga = Manga(
    url: string,
    myAnimeListId: Option<string>,
    anilistId: Option<string>,
    kitsuId: Option<string>)

  /** The registry: one service per class. */
  datatype Manager = Manager(
    mdList: TrackService,
    myAnimeList: TrackService,
    aniList: TrackService,
    kitsu: TrackService,
    mangaUpdates: TrackService)

  /** The id each service class is constructed with. */
  function IdOf(kind: ServiceKind): int {
    match kind
    case MdList => MDLIST
    case MyAnimeList => MYANIMELIST
    case Anilist => ANILIST
    case Kitsu => KITSU
    case MangaUpdates => MANGA_UPDATES
  }

  predicate WellBuilt(s: TrackService, kind: ServiceKind) {
    s.kind == kind && s.id == IdOf(kind)
  }

  /** Every field holds the service of its own class, built with that class's id. */
  predicate Valid(m: Manager) {
    && WellBuilt(m.mdList, MdList)
    && WellBuilt(m.myAnimeList, MyAnimeList)
    && WellBuilt(m.aniList, Anilist)
    && WellBuilt(m.kitsu, Kitsu)
    && WellBuilt(m.mangaUpdates, MangaUpdates)
  }

  /**
    Builds the registry. The login state of each service, which the service
    classes read from stored preferences, is supplied by `logged`.
   */
  function New(logged: ServiceKind -> bool): (m: Manager)
    ensures Valid(m)
    ensures forall s :: s in Services(m) ==> s.isLogged == logged(s.kind)
  {
    Manager(
      TrackService(MdList, MDLIST, logged(MdList)),
      TrackService(MyAnimeList, MYANIMELIST, logged(MyAnimeList)),
      TrackService(Anilist, ANILIST, logged(Anilist)),
      TrackService(Kitsu, KITSU, logged(Kitsu)),
      TrackService(MangaUpdates, MANGA_UPDATES, logged(MangaUpdates)))
  }

  /** The `services` list, in declaration order. */
  function Services(m: Manager): seq<TrackService> {
    [m.mdList, m.myAnimeList, m.aniList, m.kitsu, m.mangaUpdates]
  }

  predicate DistinctIds(ss: seq<TrackService>) {
    forall i, j :: 0 <= i < j < |ss| ==> ss[i].id != ss[j].id
  }

  lemma ServicesTable(m: Manager)
    requires Valid(m)
    ensures |Services(m)| == 5
    ensures forall i :: 0 <= i < 5 ==> Services(m)[i].kind == [MdList, MyAnimeList, Anilist, Kitsu, MangaUpdates][i]
    ensures forall i :: 0 <= i < 5 ==> Services(m)[i].id == [0, 1, 2, 3, 7][i]
    ensures DistinctIds(Services(m))
  {
  }

  /** Kotlin's `find`: the first service whose id is `id`, or none. */
  function Find(ss: seq<TrackService>, id: int): (r: Option<TrackService>)
    ensures r.None? <==> forall s :: s in ss ==> s.id != id
    ensures r.Some? ==> exists k :: 0 <= k < |ss| && ss[k] == r.value && ss[k].id == id
                                    && forall j :: 0 <= j < k ==> ss[j].id != id
  {
    if ss == [] then None
    else if ss[0].id == id then Some(ss[0])
    else
      var r := Find(ss[1..], id);
      assert forall s :: s in ss[1..] ==> s in ss;
      assert r.Some? ==> exists k :: 1 <= k < |ss| && ss[k] == r.value && ss[k].id == id
                                     && forall j :: 0 <= j < k ==> ss[j].id != id;
      r
  }

  /** When ids are distinct, `Find` returns the one service carrying the id. */
  lemma FindDistinct(ss: seq<TrackService>, s: TrackService)
    requires DistinctIds(ss)
    requires s in ss
    ensures Find(ss, s.id) == Some(s)
  {
  }

  /** `getService`: the registry's service with id `id`, or none. */
  function GetService(m: Manager, id: int): (r: Option<TrackService>)
    ensures r.Some? ==> r.value.id == id && r.value in Services(m)
    ensures r.None? <==> forall s :: s in Services(m) ==> s.id != id
  {
    Find(Services(m), id)
  }

  /** Completeness: lookup fails exactly for the ids outside the fixed table. */
  lemma GetServiceNoneIff(m: Manager, id: int)
    requires Valid(m)
    ensures GetService(m, id).None? <==> id !in {MDLIST, MYANIMELIST, ANILIST, KITSU, MANGA_UPDATES}
  {
  }

  /** Round trip: looking a registered service up by its own id gives that service back. */
  lemma GetServiceRoundTrip(m: Manager, s: TrackService)
    requires Valid(m)
    requires s in Services(m)
    ensures GetService(m, s.id) == Some(s)
  {
  }

  /** Kotlin's `any` over `isLogged()`. */
  function AnyLogged(ss: seq<TrackService>): (r: bool)
    ensures r <==> exists s :: s in ss && s.isLogged
  {
    if ss == [] then false
    else
      assert forall s :: s in ss[1..] ==> s in ss;
      ss[0].isLogged || AnyLogged(ss[1..])
  }

  /** `hasLoggedServices`: whether the user is logged in to any of the five services. */
  function HasLoggedServices(m: Manager): (r: bool)
    ensures r <==> m.mdList.isLogged || m.myAnimeList.isLogged || m.aniList.isLogged
                   || m.kitsu.isLogged || m.mangaUpdates.isLogged
  {
    AnyLogged(Services(m))
  }

  /** For a freshly built registry: true exactly when some service class is logged in. */
  lemma HasLoggedServicesNew(logged: ServiceKind -> bool)
    ensures HasLoggedServices(New(logged)) <==> exists k :: logged(k)
  {
    var m := New(logged);
    if exists k :: logged(k) {
      var k :| logged(k);
      match k
      case MdList => assert m.mdList.isLogged;
      case MyAnimeList => assert m.myAnimeList.isLogged;
      case Anilist => assert m.aniList.isLogged;
      case Kitsu => assert m.kitsu.isLogged;
      case MangaUpdates => assert m.mangaUpdates.isLogged;
    }
  }

  /**
    `getIdFromManga`: the remote id of `manga` on `service`, chosen by the
    service's id. For MdList it is derived from the manga's url by
    `mangaIdOf` (the url parser `MdUtil.getMangaId`, which is not part of
    this model). MangaUpdates and unknown ids have no field and give none.
   */
  function GetIdFromManga(service: TrackService, manga: Manga, mangaIdOf: string -> string): (r: Option<string>)
    ensures r.Some? ==> service.id in {MDLIST, MYANIMELIST, ANILIST, KITSU}
  {
    if service.id == MDLIST then Some(mangaIdOf(manga.url))
    else if service.id == MYANIMELIST then manga.myAnimeListId
    else if service.id == ANILIST then manga.anilistId
    else if service.id == KITSU then manga.kitsuId
    else None
  }

  /**
    Remote ids of the registry's own services: MdList parses the url, the three
    list services read their own field of the record, and MangaUpdates has none.
   */
  lemma GetIdFromMangaRegistry(m: Manager, manga: Manga, mangaIdOf: string -> string)
    requires Valid(m)
    ensures GetIdFromManga(m.mdList, manga, mangaIdOf) == Some(mangaIdOf(manga.url))
    ensures GetIdFromManga(m.myAnimeList, manga, mangaIdOf) == manga.myAnimeListId
    ensures GetIdFromManga(m.aniList, manga, mangaIdOf) == manga.anilistId
    ensures GetIdFromManga(m.kitsu, manga, mangaIdOf) == manga.kitsuId
    ensures GetIdFromManga(m.mangaUpdates, manga, mangaIdOf) == None
  {
  }

  /**
    What the dispatch reads: only the service's id, and of the manga record only
    the one field that id selects (the url for MdList, nothing for other ids).
    Together with GetIdFromMangaRegistry this gives the case split for every
    service, registered or not: any service with id 1 gets `myAnimeListId`,
    and so on.
   */
  lemma GetIdFromMangaReads(s: TrackService, t: TrackService, a: Manga, b: Manga, mangaIdOf: string -> string)
    requires s.id == t.id
    ensures s.id == MDLIST && a.url == b.url ==>
              GetIdFromManga(s, a, mangaIdOf) == GetIdFromManga(t, b, mangaIdOf)
    ensures s.id == MYANIMELIST && a.myAnimeListId == b.myAnimeListId ==>
              GetIdFromManga(s, a, mangaIdOf) == GetIdFromManga(t, b, mangaIdOf)
    ensures s.id == ANILIST && a.anilistId == b.anilistId ==>
              GetIdFromManga(s, a, mangaIdOf) == GetIdFromManga(t, b, mangaIdOf)
    ensures s.id == KITSU && a.kitsuId == b.kitsuId ==>
              GetIdFromManga(s, a, mangaIdOf) == GetIdFromManga(t, b, mangaIdOf)
    ensures s.id !in {MDLIST, MYANIMELIST, ANILIST, KITSU} ==>
              GetIdFromManga(s, a, mangaIdOf) == None && GetIdFromManga(t, b, mangaIdOf) == None
  {
  }
}
