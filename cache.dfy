/** The project cache: the records kept for each project, the snapshot with its
    refresh time, the seven-day staleness rule, reading the cache file, and the
    store whose file a refresh overwrites. */
module Cache {
  import opened Common

  /** A point in time, in seconds since the earliest representable datetime. */
  type Timestamp = nat

  /** `datetime.min`: the "never updated" timestamp of an empty cache. */
  const DatetimeMin: Timestamp := 0

  /** `timedelta(days=7)` in seconds. */
  const StaleAfter: nat := 7 * 24 * 60 * 60

  /** One project as kept in the cache. */
  datatype CachedProject = CachedProject(
    id: int,
    pathWithNamespace: string,
    name: string,
    description: Option<string>)

  /** The cache snapshot: the project records and when they were fetched. */
  datatype AppCache = AppCache(projects: seq<CachedProject>, lastUpdated: Timestamp)

  /** One project as the remote listing call returns it. */
  datatype RemoteProject = RemoteProject(
    id: int,
    pathWithNamespace: string,
    name: string,
    description: Option<string>)

  /** `AppCache.is_stale`: more than seven days have passed since the last refresh. */
  predicate IsStale(cache: AppCache, now: Timestamp) {
    now - cache.lastUpdated > StaleAfter
  }

  /** Exactly seven days after a refresh the cache is still fresh; one second
      later it is stale. */
  lemma StaleBoundary(cache: AppCache)
    ensures !IsStale(cache, cache.lastUpdated + StaleAfter)
    ensures IsStale(cache, cache.lastUpdated + StaleAfter + 1)
  {
  }

  /** Once stale, a cache stays stale as time goes on. */
  lemma StaleMonotone(cache: AppCache, now: Timestamp, later: Timestamp)
    requires IsStale(cache, now) && now <= later
    ensures IsStale(cache, later)
  {
  }

  /** What is on disk where the cache file lives. */
  datatype CacheFile =
    | NoCacheFile               // the file does not exist yet
    | MalformedCache           // the file exists but is not a valid snapshot
    | CacheRecord(snapshot: AppCache)

  /** `read_cache`: the stored snapshot; an empty, never-updated snapshot when
      there is no file; an error when the file is malformed. */
  function ReadCache(file: CacheFile): (r: Result<AppCache>)
    ensures r.Failure? <==> file.MalformedCache?
    ensures r.Failure? ==> r.error == CacheMalformed
    ensures file.CacheRecord? ==> r == Success(file.snapshot)
    ensures file.NoCacheFile? ==> r.value.projects == [] && r.value.lastUpdated == DatetimeMin
  {
    match file
    case NoCacheFile => Success(AppCache([], DatetimeMin))
    case MalformedCache => Failure(CacheMalformed)
    case CacheRecord(snapshot) => Success(snapshot)
  }

  /** With no cache file, the empty snapshot read in its place is stale at
      every time more than seven days past the sentinel. */
  lemma MissingCacheIsStale(now: Timestamp)
    requires now > DatetimeMin + StaleAfter
    ensures ReadCache(NoCacheFile).Success?
    ensures IsStale(ReadCache(NoCacheFile).value, now)
  {
  }

  /** The record kept for one fetched project. */
  function Cached(p: RemoteProject): CachedProject {
    CachedProject(p.id, p.pathWithNamespace, p.name, p.description)
  }

  /** The snapshot a refresh at time `at` builds from the fetched projects:
      one record per project, in fetch order, stamped with `at`. */
  function Rebuilt(remote: seq<RemoteProject>, at: Timestamp): (c: AppCache)
    ensures |c.projects| == |remote| && c.lastUpdated == at
    ensures forall i :: 0 <= i < |remote| ==>
              && c.projects[i].id == remote[i].id
              && c.projects[i].pathWithNamespace == remote[i].pathWithNamespace
              && c.projects[i].name == remote[i].name
              && c.projects[i].description == remote[i].description
  {
    AppCache(seq(|remote|, i requires 0 <= i < |remote| => Cached(remote[i])), at)
  }

  /** A freshly rebuilt snapshot is not stale for the seven days that follow. */
  lemma RebuiltIsFresh(remote: seq<RemoteProject>, at: Timestamp, now: Timestamp)
    requires now <= at + StaleAfter
    ensures !IsStale(Rebuilt(remote, at), now)
  {
  }

  /** The cache file, which only a refresh writes. */
  class CacheStore {
    var file: CacheFile

    constructor (initial: CacheFile)
      ensures file == initial
    {
      file := initial;
    }

    /** `update_cache`: builds one record per fetched project, in order, then
        overwrites the file with the new snapshot stamped `now`. Nothing of the
        previous file is kept, and reading the file back gives the snapshot. */
    method UpdateCache(remote: seq<RemoteProject>, now: Timestamp) returns (snapshot: AppCache)
      modifies this
      ensures snapshot == Rebuilt(remote, now)
      ensures file == CacheRecord(snapshot)
      ensures ReadCache(file) == Success(snapshot)
    {
      var cachedProjects: seq<CachedProject> := [];
      for i := 0 to |remote|
        invariant |cachedProjects| == i
        invariant forall k :: 0 <= k < i ==> cachedProjects[k] == Cached(remote[k])
      {
        cachedProjects := cachedProjects + [CachedProject(remote[i].id, remote[i].pathWithNamespace,
                                                          remote[i].name, remote[i].description)];
      }
      snapshot := AppCache(cachedProjects, now);
      file := CacheRecord(snapshot);
    }
  }
}
