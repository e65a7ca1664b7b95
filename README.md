# Tracking-service registry

A Dafny model of the tracking-service registry of Neko, a manga reader for
Android (`TrackManager.kt`). The registry holds five tracking services
(MdList, MyAnimeList, AniList, Kitsu, MangaUpdates), each built with a fixed
integer id (0, 1, 2, 3 and 7). It looks services up by id, reports whether the
user is logged in to any of them, and maps a service to the field of a manga
record that holds the title's id on that service.

The model is pure, as the source is: the registry is an immutable value
(`Manager`) whose `services` list is `Services`; `GetService` (`getService`)
is a first-match search over that list (`Find`), `HasLoggedServices`
(`hasLoggedServices`) is an "any" over it (`AnyLogged`), and `GetIdFromManga`
(`getIdFromManga`) is a case split on the service id. Files: `wrappers.dfy` (the `Option` type standing for Kotlin's nullable
values) and `track_manager.dfy` (module `TrackManager`).

Each service's `isLogged()` reads stored credentials inside the service class;
the model takes its answer as a boolean carried by the service value (given
to `New` by the caller). `MdUtil.getMangaId`, the url parser used for MdList,
is not part of this model; it is a function parameter `mangaIdOf`.

## Model

| member | source | states |
|---|---|---|
| `TrackManager.New` | app/src/main/java/eu/kanade/tachiyomi/data/track/TrackManager.kt:15-30 | the built registry is well formed (each field holds the service of its class with that class's fixed id) and each service's login state is the one supplied for its class |
| `TrackManager.ServicesTable` | app/src/main/java/eu/kanade/tachiyomi/data/track/TrackManager.kt:15-32 | the `services` list (`Services`) has exactly five entries, in the order MdList, MyAnimeList, AniList, Kitsu, MangaUpdates, with ids 0, 1, 2, 3, 7, and the ids are pairwise distinct |
| `TrackManager.Find` | app/src/main/java/eu/kanade/tachiyomi/data/track/TrackManager.kt:34 | `find` returns nothing exactly when no element has the id; otherwise it returns the element at the first position carrying the id |
| `TrackManager.FindDistinct` | app/src/main/java/eu/kanade/tachiyomi/data/track/TrackManager.kt:32-34 | on a list whose ids are distinct, searching for an element's id returns that element |
| `TrackManager.GetService` | app/src/main/java/eu/kanade/tachiyomi/data/track/TrackManager.kt:34 | `getService(id)` returns only a service of the registry carrying id `id`, and returns null exactly when no service of the registry carries `id` |
| `TrackManager.GetServiceNoneIff` | app/src/main/java/eu/kanade/tachiyomi/data/track/TrackManager.kt:15-34 | `getService(id)` returns null exactly when `id` is not one of 0, 1, 2, 3, 7 |
| `TrackManager.GetServiceRoundTrip` | app/src/main/java/eu/kanade/tachiyomi/data/track/TrackManager.kt:32-34 | for every service of the registry, `getService` of its id returns that same service |
| `TrackManager.AnyLogged` | app/src/main/java/eu/kanade/tachiyomi/data/track/TrackManager.kt:36 | `any { it.isLogged() }` is true exactly when some element of the list reports being logged in |
| `TrackManager.HasLoggedServices` | app/src/main/java/eu/kanade/tachiyomi/data/track/TrackManager.kt:36 | `hasLoggedServices()` is true exactly when at least one of the five services reports being logged in |
| `TrackManager.HasLoggedServicesNew` | app/src/main/java/eu/kanade/tachiyomi/data/track/TrackManager.kt:22-36 | for a freshly built registry, `hasLoggedServices()` holds exactly when the user is logged in to some service class |
| `TrackManager.GetIdFromManga` | app/src/main/java/eu/kanade/tachiyomi/data/track/TrackManager.kt:38-47 | a remote id is produced only for ids 0, 1, 2 and 3; MangaUpdates (7) and every other id give null |
| `TrackManager.GetIdFromMangaRegistry` | app/src/main/java/eu/kanade/tachiyomi/data/track/TrackManager.kt:39-45 | for the registry's services: MdList gives the id parsed from the manga url, MyAnimeList, AniList and Kitsu give the record's `my_anime_list_id`, `anilist_id` and `kitsu_id`, MangaUpdates gives null; with `GetIdFromMangaReads` this extends to every service with the same id |
| `TrackManager.GetIdFromMangaReads` | app/src/main/java/eu/kanade/tachiyomi/data/track/TrackManager.kt:38-46 | the result depends only on the service's id and, of the manga record, only on the one field that id selects (only the url for MdList; nothing for other ids, which give null) |

## Left out

- Construction of the service objects from an Android `Context` and the internals of the five service classes: not part of this model; only each service's id and its `isLogged()` answer are kept.
- `isLogged()`: reads stored credentials at call time; the model uses a snapshot boolean, so a login or logout between two calls is not captured.
- `MdUtil.getMangaId`: not part of this model; it is a parameter, so nothing is proved about how an id is parsed from the url, only that the MdList result depends on the url alone.
- The manga record's other fields: the model keeps only `url`, `my_anime_list_id`, `anilist_id` and `kitsu_id`, the ones the registry reads.
- Kotlin's `Int` is 32-bit; ids are modelled as unbounded integers, which changes nothing here since ids are only compared for equality.
