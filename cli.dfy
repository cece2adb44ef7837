/** The command line: `open_project`, `get_project_list`, the interactive menu
    `show_menu`, and the dispatch of `main` on the first argument. Each is a
    function from what the invocation finds (configuration file, cache file,
    clock readings, what the remote listing and the picker return) to what it
    does; `Invoke` carries out the one change of state, the cache refresh. */
module Cli {
  import opened Common
  import opened Text
  import opened Cache
  import opened Listing
  import opened Config

  /** What the picker subprocess gives back. */
  datatype Picker =
    | PickerFailed              // non-zero exit status (CalledProcessError)
    | PickerOutput(text: string)

  /** What authenticating, resolving the group and listing its projects give. */
  datatype Fetch = FetchFailed | Fetched(projects: seq<RemoteProject>)

  /** What one invocation takes from outside, besides the cache file. */
  datatype Environment = Environment(
    config: ConfigFile,
    now: Timestamp,           // the clock as `is_stale` reads it
    fetch: Fetch,
    refreshTime: Timestamp,   // the clock as `update_cache` reads it
    picker: Picker)

  /** How an invocation ends and what it did on the way. */
  datatype Outcome =
    | Exited(code: int)              // `sys.exit(code)`
    | Raised(error: Error)           // an exception escapes `main`
    | Refreshed(snapshot: AppCache)  // the cache was rebuilt and written; no picker
    | Opened(url: string)            // the URL was handed to the URL opener
    | Printed(lines: seq<string>)    // the listing was printed, one line each
    | Idle                           // an unknown command: nothing happens

  /** The process exit status: the code given to `sys.exit`, 1 for an
      uncaught exception, 0 for a normal return. */
  function ExitStatus(o: Outcome): int {
    match o
    case Exited(code) => code
    case Raised(_) => 1
    case _ => 0
  }

  /** The URL `open_project` opens: the host, a slash, then the path. */
  function ProjectUrl(host: string, path: string): (url: string)
    ensures |url| == |host| + 1 + |path|
    ensures url[..|host|] == host && url[|host|] == '/' && url[|host| + 1..] == path
  {
    host + "/" + path
  }

  /** For one host, different paths open different URLs. */
  lemma ProjectUrlInjective(host: string, a: string, b: string)
    requires ProjectUrl(host, a) == ProjectUrl(host, b)
    ensures a == b
  {
    assert a == ProjectUrl(host, a)[|host| + 1..];
  }

  /** `open_project`: reads the configuration (its errors are not caught) and
      opens the project's URL under the configured host. */
  function OpenProject(config: ConfigFile, path: string): (o: Outcome)
    ensures o.Opened? <==> ReadConfig(config).Success?
    ensures o.Opened? ==> o.url == ProjectUrl(ReadConfig(config).value.host, path)
    ensures !o.Opened? ==> o == Raised(ReadConfig(config).error)
  {
    match ReadConfig(config)
    case Failure(e) => Raised(e)
    case Success(settings) => Opened(ProjectUrl(settings.host, path))
  }

  /** `get_project_list`: prints the sorted paths of the cached projects,
      whether or not the cache is stale; a malformed cache file raises. */
  function ListProjects(cache: CacheFile): (o: Outcome)
    ensures o.Printed? <==> ReadCache(cache).Success?
    ensures o.Printed? ==> SortedStrings(o.lines)
    ensures o.Printed? ==> multiset(o.lines) == multiset(Paths(ReadCache(cache).value.projects))
    ensures !o.Printed? ==> o == Raised(CacheMalformed)
  {
    match ReadCache(cache)
    case Failure(e) => Raised(e)
    case Success(snapshot) => Printed(ProjectList(snapshot))
  }

  /** `show_menu`: a configuration error that is a ValueError exits 1, any
      other escapes; a stale cache is rebuilt from the fetched projects and
      the menu stops there; on a fresh cache the picker's failure exits 1, a
      blank answer exits 0, and any other answer is opened, stripped. The
      menu never raises a ValueError from the configuration, never opens a
      URL without a picker answer, and writes only the full rebuild. */
  function ShowMenu(env: Environment, cache: CacheFile): (o: Outcome)
    ensures o.Raised? ==> !o.error.IsConfigValueError()
    ensures o.Exited? ==> o.code == 0 || o.code == 1
    ensures o.Refreshed? ==> ReadCache(cache).Success? && IsStale(ReadCache(cache).value, env.now)
    ensures o.Refreshed? ==> env.fetch.Fetched? && o.snapshot == Rebuilt(env.fetch.projects, env.refreshTime)
    ensures o.Opened? ==>
              && env.picker.PickerOutput?
              && ReadConfig(env.config).Success?
              && o.url == ProjectUrl(ReadConfig(env.config).value.host, Strip(env.picker.text))
  {
    match ReadConfig(env.config)
    case Failure(e) => if e.IsConfigValueError() then Exited(1) else Raised(e)
    case Success(_) =>
      match ReadCache(cache)
      case Failure(e) => Raised(e)
      case Success(snapshot) =>
        if IsStale(snapshot, env.now) then
          match env.fetch
          case FetchFailed => Raised(RemoteFailed)
          case Fetched(projects) => Refreshed(Rebuilt(projects, env.refreshTime))
        else
          match env.picker
          case PickerFailed => Exited(1)
          case PickerOutput(text) =>
            var chosen := Strip(text);
            if chosen == [] then Exited(0) else OpenProject(env.config, chosen)
  }

  /** A missing, undecodable or invalid configuration ends the menu with
      status 1 before the cache is looked at; a configuration that is not a
      YAML mapping with string keys escapes the `except ValueError` and is raised. */
  lemma MenuConfigError(env: Environment, cache: CacheFile)
    requires ReadConfig(env.config).Failure?
    ensures var e := ReadConfig(env.config).error;
            ShowMenu(env, cache) == if e.IsConfigValueError() then Exited(1) else Raised(e)
    ensures ExitStatus(ShowMenu(env, cache)) == 1
  {
  }

  /** With a readable configuration, a malformed cache file is not rebuilt:
      `read_cache` raises and the menu ends there. */
  lemma MenuMalformedCache(env: Environment, cache: CacheFile)
    requires ReadConfig(env.config).Success? && cache.MalformedCache?
    ensures ShowMenu(env, cache) == Raised(CacheMalformed)
  {
  }

  /** A stale cache is rebuilt from the remote listing, and the menu ends
      there: the picker's answer plays no part. A failed fetch raises and
      writes nothing. */
  lemma MenuStaleRefreshes(env: Environment, cache: CacheFile, other: Picker)
    requires ReadConfig(env.config).Success? && ReadCache(cache).Success?
    requires IsStale(ReadCache(cache).value, env.now)
    ensures ShowMenu(env, cache) == ShowMenu(env.(picker := other), cache)
    ensures ShowMenu(env, cache)
         == if env.fetch.Fetched? then Refreshed(Rebuilt(env.fetch.projects, env.refreshTime))
            else Raised(RemoteFailed)
  {
  }

  /** The menu leaves with status 0 and opens nothing exactly when the cache
      is fresh and the picker's answer is blank. */
  lemma MenuCancelled(env: Environment, cache: CacheFile)
    ensures ShowMenu(env, cache) == Exited(0)
        <==> && ReadConfig(env.config).Success?
             && ReadCache(cache).Success?
             && !IsStale(ReadCache(cache).value, env.now)
             && env.picker.PickerOutput?
             && AllSpace(env.picker.text)
  {
  }

  /** The menu ends with status 1 without raising exactly when the
      configuration is missing, undecodable or invalid, or the picker fails
      on a fresh cache. */
  lemma MenuExitsWithOne(env: Environment, cache: CacheFile)
    ensures ShowMenu(env, cache) == Exited(1)
        <==> || (ReadConfig(env.config).Failure? && ReadConfig(env.config).error.IsConfigValueError())
             || (&& ReadConfig(env.config).Success?
                 && ReadCache(cache).Success?
                 && !IsStale(ReadCache(cache).value, env.now)
                 && env.picker.PickerFailed?)
  {
  }

  /** The menu opens a URL exactly when the cache is fresh and the picker's
      answer is not blank, and the URL is the configured host, a slash and
      the answer with its surrounding whitespace removed. */
  lemma MenuOpens(env: Environment, cache: CacheFile)
    ensures ShowMenu(env, cache).Opened?
        <==> && ReadConfig(env.config).Success?
             && ReadCache(cache).Success?
             && !IsStale(ReadCache(cache).value, env.now)
             && env.picker.PickerOutput?
             && !AllSpace(env.picker.text)
    ensures ShowMenu(env, cache).Opened? ==>
              ShowMenu(env, cache).url
              == ProjectUrl(ReadConfig(env.config).value.host, Strip(env.picker.text))
  {
  }

  /** `main`: no argument runs the menu, `list` prints the listing, `open`
      opens its argument (and raises when there is none), anything else does
      nothing. Only the menu ever rebuilds the cache, and what it writes is
      the full rebuild from the fetched projects. */
  function Dispatch(argv: seq<string>, env: Environment, cache: CacheFile): (o: Outcome)
    ensures o.Refreshed? ==> |argv| < 2 && env.fetch.Fetched?
    ensures o.Refreshed? ==> o.snapshot == Rebuilt(env.fetch.projects, env.refreshTime)
  {
    if |argv| < 2 then ShowMenu(env, cache)
    else if argv[1] == "list" then ListProjects(cache)
    else if argv[1] == "open" then
      if |argv| < 3 then Raised(MissingArgument) else OpenProject(env.config, argv[2])
    else Idle
  }

  /** The routing of `main` on the first argument. */
  lemma DispatchRoutes(argv: seq<string>, env: Environment, cache: CacheFile)
    ensures |argv| < 2 ==> Dispatch(argv, env, cache) == ShowMenu(env, cache)
    ensures |argv| >= 2 && argv[1] == "list" ==> Dispatch(argv, env, cache) == ListProjects(cache)
    ensures |argv| >= 3 && argv[1] == "open" ==> Dispatch(argv, env, cache) == OpenProject(env.config, argv[2])
    ensures |argv| == 2 && argv[1] == "open" ==> Dispatch(argv, env, cache) == Raised(MissingArgument)
    ensures |argv| >= 2 && argv[1] != "list" && argv[1] != "open" ==> Dispatch(argv, env, cache) == Idle
  {
  }

  /** Every invocation ends with status 0 or 1, and with 1 exactly when it
      raised or left through `sys.exit(1)`. */
  lemma ExitStatusIsZeroOrOne(argv: seq<string>, env: Environment, cache: CacheFile)
    ensures var o := Dispatch(argv, env, cache);
            (ExitStatus(o) == 1 <==> o.Raised? || o == Exited(1))
            && (ExitStatus(o) == 0 <==> !(o.Raised? || o == Exited(1)))
  {
  }

  /** The cache file after an invocation: the rebuilt snapshot when there was
      a refresh, otherwise untouched. */
  function CacheAfter(file: CacheFile, o: Outcome): CacheFile {
    if o.Refreshed? then CacheRecord(o.snapshot) else file
  }

  /** A refresh is not repeated for seven days: the next menu within that
      time reads back the snapshot just written, finds it fresh and goes to
      the picker, whatever the previous cache file held. */
  lemma RefreshHoldsForAWeek(env: Environment, cache: CacheFile, next: Environment)
    requires ShowMenu(env, cache).Refreshed?
    requires ReadConfig(next.config).Success?
    requires env.refreshTime <= next.now <= env.refreshTime + StaleAfter
    ensures var written := CacheAfter(cache, ShowMenu(env, cache));
            && ReadCache(written) == Success(Rebuilt(env.fetch.projects, env.refreshTime))
            && !ShowMenu(next, written).Refreshed?
            && ShowMenu(next, written) != Raised(RemoteFailed)
  {
    RebuiltIsFresh(env.fetch.projects, env.refreshTime, next.now);
  }

  /** A refresh that fetches `z/z`, `a/b` and `a/c`, in that order, stores
      exactly those three records, and `list` then prints `a/b`, `a/c`, `z/z`. */
  lemma ThreeProjectListing(first: RemoteProject, second: RemoteProject, third: RemoteProject, at: Timestamp)
    requires first.pathWithNamespace == "z/z"
    requires second.pathWithNamespace == "a/b"
    requires third.pathWithNamespace == "a/c"
    ensures |Rebuilt([first, second, third], at).projects| == 3
    ensures ProjectList(Rebuilt([first, second, third], at)) == ["a/b", "a/c", "z/z"]
  {
    var snapshot := Rebuilt([first, second, third], at);
    var expected: seq<string> := ["a/b", "a/c", "z/z"];
    assert SortedStrings(expected) by {
      assert StrLessEq("a/b", "a/c") by {
        assert "a/b"[1..] == "/b" && "a/c"[1..] == "/c";
        assert "/b"[1..] == "b" && "/c"[1..] == "c";
      }
      assert StrLessEq("a/c", "z/z");
      assert StrLessEq("a/b", "z/z");
    }
    assert snapshot.projects == [Cached(first), Cached(second), Cached(third)];
    assert Paths(snapshot.projects) == ["z/z", "a/b", "a/c"] by {
      PathsAt(snapshot.projects);
    }
    assert multiset(expected) == multiset(Paths(snapshot.projects));
    SortedStringsUnique(ProjectList(snapshot), expected);
  }

  /** One run of the program against the cache store: decides the outcome
      and, when the menu found the cache stale, rebuilds and writes it. */
  method Invoke(store: CacheStore, argv: seq<string>, env: Environment) returns (outcome: Outcome)
    modifies store
    ensures outcome == Dispatch(argv, env, old(store.file))
    ensures store.file == CacheAfter(old(store.file), outcome)
  {
    outcome := Dispatch(argv, env, store.file);
    if outcome.Refreshed? {
      var snapshot := store.UpdateCache(env.fetch.projects, env.refreshTime);
    }
  }
}
