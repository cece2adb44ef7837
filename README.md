# glab-menu, modelled in Dafny

glab-menu is a desktop launcher for the projects of one GitLab group. It keeps
a local cache of the group's projects. When the cache is more than seven days
old, it fetches the full project list again and rewrites the cache. Otherwise
it shows the cached paths, sorted, in a fuzzy picker and opens the chosen
project in the browser. From the command line, `list` prints the sorted paths
and `open <path>` opens one project.

This project models the decisions and data logic of `glab_menu/main.py`:

- `Cache` models the cache records and snapshot. It also holds the seven-day
  staleness rule (`is_stale`) and `read_cache`, including the empty
  "never updated" snapshot used when no file exists.
- `Cache.CacheStore` models the cache file as a class with one field. Its
  `UpdateCache` method is `update_cache`: a loop that builds one record per
  fetched project and then overwrites the file.
- `Listing` models `get_project_list`. Python's stable `sorted` by
  `path_with_namespace` is modelled as an insertion sort, and the printed line
  is the path, because the description branch is guarded by `and False`.
- `Text` models Python's `str.strip()` and the code-point order `<=` on `str`.
- `Config` models `read_config`. A missing file is a `ValueError`. A file whose
  bytes the text-mode read cannot decode raises `UnicodeDecodeError`, also a
  `ValueError`. A missing or non-string `token` or `org`, or a non-string
  `host`, is a pydantic validation error, which is also a `ValueError`
  (`!!binary` values aside, see below). A file that is not a YAML mapping with
  string keys raises something else (`YAMLError` or `TypeError`). `host` defaults to `https://gitlab.com`.
- `Cli` models `open_project` (host + "/" + path), `show_menu` and `main` as
  functions from the inputs of one invocation to an `Outcome`. `Cli.Invoke`
  runs an invocation against a `CacheStore` and performs the refresh when the
  menu chooses one.

Time is an integer number of seconds since `datetime.min`. So the sentinel is
0 and seven days is 604800. The clock readings, the remote listing and the
picker's answer are inputs to the model.

## Model

| member | source | states |
|---|---|---|
| `Cache.IsStale` | glab_menu/main.py:47-49 | `is_stale`: more than seven days (604800 seconds) since `last_updated`; its behaviour at the boundary and over time is stated by `Cache.StaleBoundary` and `Cache.StaleMonotone` |
| `Cache.StaleBoundary` | glab_menu/main.py:47-49 | exactly seven days after the last refresh the cache is not stale; one second later it is |
| `Cache.StaleMonotone` | glab_menu/main.py:47-49 | once stale, a cache stays stale at every later time |
| `Cache.ReadCache` | glab_menu/main.py:52-57 | reading fails only for a malformed file; a stored snapshot reads back unchanged; a missing file reads as no projects stamped `datetime.min` |
| `Cache.MissingCacheIsStale` | glab_menu/main.py:54-55 | the snapshot used for a missing file is stale at every time more than seven days past the sentinel |
| `Cache.Cached` | glab_menu/main.py:64-69 | the `CachedProject(...)` built for one fetched project; what it copies is stated by `Cache.Rebuilt` |
| `Cache.Rebuilt` | glab_menu/main.py:61-71 | the rebuilt snapshot has one record per fetched project, in fetch order, whose `id`, `path_with_namespace`, `name` and `description` are the fetched project's, and the refresh time as `last_updated` |
| `Cache.RebuiltIsFresh` | glab_menu/main.py:71 | a freshly rebuilt snapshot is not stale for the seven days after its refresh time |
| `Cache.CacheStore.UpdateCache` | glab_menu/main.py:60-74 | the loop yields exactly the rebuilt snapshot; the file is then that snapshot alone, with nothing of the old file kept, and it reads back as the snapshot |
| `Text.IsSpace` | glab_menu/main.py:113 | the characters `str.strip()` removes: those for which Python's `str.isspace` holds; `Text.Strip` is stated in terms of it |
| `Text.TrimStart` | glab_menu/main.py:113 | the leading-whitespace cut: a suffix that starts with a non-space, and only whitespace is removed |
| `Text.TrimEnd` | glab_menu/main.py:113 | the trailing-whitespace cut: a prefix that ends with a non-space, and only whitespace is removed |
| `Text.Strip` | glab_menu/main.py:113 | `strip()` gives a slice of its input with whitespace removed only at the ends; it is empty exactly when the input is all whitespace |
| `Text.StripIdempotent` | glab_menu/main.py:113 | stripping twice gives the same as stripping once |
| `Text.StripClean` | glab_menu/main.py:113 | a selection without surrounding whitespace is opened as typed |
| `Text.StrLessEq` | glab_menu/main.py:122 | Python's `<=` on `str`: code point by code point, a proper prefix first; that it is a total order is stated by the four lemmas below |
| `Text.StrLessEqReflexive` | glab_menu/main.py:122 | the string order used as the sort key is reflexive |
| `Text.StrLessEqTotal` | glab_menu/main.py:122 | any two paths are comparable |
| `Text.StrLessEqAntisymmetric` | glab_menu/main.py:122 | two paths that sort each before the other are equal |
| `Text.StrLessEqTransitive` | glab_menu/main.py:122 | the string order is transitive |
| `Text.SortedStringsUnique` | glab_menu/main.py:122 | two sorted arrangements of the same multiset of paths are identical |
| `Listing.SortedByPathIsSortedPaths` | glab_menu/main.py:122 | projects are in `sorted` order by path exactly when their paths are in non-decreasing string order |
| `Listing.PathsAt` | glab_menu/main.py:122 | the i-th path is the path of the i-th project |
| `Listing.Insert` | glab_menu/main.py:122 | one step of the stable sort; its properties are stated by `Listing.InsertPermutation`, `Listing.InsertSorted` and `Listing.InsertWithPath` |
| `Listing.InsertPermutation` | glab_menu/main.py:122 | one insertion step adds the project and loses none |
| `Listing.InsertSorted` | glab_menu/main.py:122 | one insertion step keeps a sorted sequence sorted |
| `Listing.InsertWithPath` | glab_menu/main.py:122 | an inserted project goes after every project with the same path |
| `Listing.SortByPath` | glab_menu/main.py:122 | `sorted(..., key=path_with_namespace)` is sorted by path and a permutation of the cached projects |
| `Listing.SortByPathStable` | glab_menu/main.py:122 | the sort is stable: projects that share a path keep their cached order |
| `Listing.PathsCount` | glab_menu/main.py:122-126 | a path occurs among the printed paths as often as cached projects carry it |
| `Listing.SortByPathPaths` | glab_menu/main.py:122 | sorting keeps every path exactly as often as it is cached |
| `Listing.Truthy` | glab_menu/main.py:123 | the truthiness of `project.description`: present and non-empty; the `and False` makes it irrelevant to the printed line (`Listing.Line`) |
| `Listing.Line` | glab_menu/main.py:123-126 | the printed line is always the path alone, because the description branch is guarded by `and False` |
| `Listing.Lines` | glab_menu/main.py:122-126 | one printed line per sorted project, in order; `Listing.LinesArePaths` states the lines are the paths |
| `Listing.LinesArePaths` | glab_menu/main.py:122-126 | the printed lines are the paths of the sorted projects |
| `Listing.ProjectList` | glab_menu/main.py:120-126 | the listing is sorted and holds each cached path exactly as often as it is cached |
| `Listing.ProjectListIgnoresOrder` | glab_menu/main.py:122 | the listing depends only on which paths are cached, not on the order they are stored in |
| `Common.Error.IsConfigValueError` | glab_menu/main.py:90 | the configuration errors that `except ValueError` catches: a missing file, an undecodable file and a validation error |
| `Config.ReadConfig` | glab_menu/main.py:19-33 | a missing file gives `ValueError`, an undecodable file gives `UnicodeDecodeError`, a file that is not a mapping with string keys gives a non-`ValueError`, a missing or non-string field gives a validation error; a record with string `token` and `org` and `host` absent or a string always succeeds, returning those fields with `host` defaulting to https://gitlab.com |
| `Config.ReadConfigValueErrors` | glab_menu/main.py:25-33 | every failure of `read_config` is a `ValueError` except that of a file that is not a YAML mapping with string keys |
| `Cli.ProjectUrl` | glab_menu/main.py:131 | the URL is the host, then `/`, then the path |
| `Cli.ProjectUrlInjective` | glab_menu/main.py:131 | for one host, different paths give different URLs |
| `Cli.OpenProject` | glab_menu/main.py:129-132 | the project URL is opened when the configuration reads; otherwise the configuration error is raised, uncaught |
| `Cli.ListProjects` | glab_menu/main.py:120-126 | `list` prints the sorted listing whether or not the cache is stale, and raises on a malformed cache |
| `Cli.ShowMenu` | glab_menu/main.py:87-117 | `show_menu`: never lets a configuration `ValueError` escape, exits only with 0 or 1, refreshes only when the cache read and is stale, writes only the full rebuild of the fetched projects, and opens only host + "/" + the stripped picker answer; the exact conditions of each ending are stated by the `Cli.Menu*` lemmas |
| `Cli.MenuConfigError` | glab_menu/main.py:88-92 | a missing, undecodable or invalid configuration exits with status 1; one that is not a YAML mapping with string keys raises; the status is 1 either way |
| `Cli.MenuMalformedCache` | glab_menu/main.py:94 | with a readable configuration, a malformed cache file makes `read_cache` raise (main.py:57) and the menu ends there, without rebuilding the cache |
| `Cli.MenuStaleRefreshes` | glab_menu/main.py:94-103 | a stale cache is rebuilt from the fetched projects and the menu returns without using the picker's answer; a failed fetch raises |
| `Cli.MenuCancelled` | glab_menu/main.py:105-115 | the menu exits 0 without opening anything exactly when the cache is fresh and the selection is blank after stripping |
| `Cli.MenuExitsWithOne` | glab_menu/main.py:88-111 | `sys.exit(1)` happens exactly on a missing, undecodable or invalid configuration, or a picker failure on a fresh cache |
| `Cli.MenuOpens` | glab_menu/main.py:105-117 | the menu opens a URL exactly when the cache is fresh and the selection is not blank, and the URL is host + "/" + the stripped selection |
| `Cli.Dispatch` | glab_menu/main.py:135-146 | only the no-argument menu can rebuild the cache, and what it writes is the full rebuild from the fetched projects |
| `Cli.DispatchRoutes` | glab_menu/main.py:135-146 | no argument runs the menu; `list` lists; `open <path>` opens the path; `open` alone raises `IndexError`; any other command does nothing |
| `Cli.ExitStatus` | glab_menu/main.py:88-146 | the process exit status: the `sys.exit` code, 1 for an exception that escapes `main`, 0 otherwise; stated by `Cli.ExitStatusIsZeroOrOne` |
| `Cli.ExitStatusIsZeroOrOne` | glab_menu/main.py:135-146 | every invocation ends with status 0 or 1, and with 1 exactly when it raised or called `sys.exit(1)` |
| `Cli.CacheAfter` | glab_menu/main.py:71-73 | the cache file after a run: the rebuilt snapshot after a refresh, otherwise the file as it was; stated by `Cli.Invoke` and `Cli.RefreshHoldsForAWeek` |
| `Cli.RefreshHoldsForAWeek` | glab_menu/main.py:96-103 | after a refresh, the written snapshot reads back exactly, and the next menu within seven days goes to the picker instead of refreshing again |
| `Cli.ThreeProjectListing` | glab_menu/main.py:61-126 | a refresh that fetches `z/z`, `a/b` and `a/c` stores three records, and `list` then prints `a/b`, `a/c`, `z/z` |
| `Cli.Invoke` | glab_menu/main.py:94-103 | a run's outcome is the dispatch decision, and the cache file afterwards is the rebuilt snapshot after a refresh and is otherwise unchanged |

## Left out

- YAML reading and writing, pydantic parsing and `mkdir` of the configuration and cache directories are not modelled. The configuration and cache files are abstract values (`ConfigFile`, `CacheFile`). Writing a snapshot and reading it back is taken to give the same snapshot.
- The python-gitlab client (authentication, group lookup, the paginated listing) is modelled only by its result: the fetched projects in order, or a failure (`Fetch`). Whether every page is fetched is up to the library.
- A `!!binary` value for a configuration field is not modelled. YAML loads it as `bytes`, and pydantic accepts bytes for a `str` field by decoding them. The model treats every non-string field value as a validation error.
- `RemoteProject` carries only the four attributes that `update_cache` reads.
- The `notify-send` calls before and after a refresh, their shell quoting, the printing of the configuration error and the debug prints are not modelled.
- The picker subprocess is modelled only by its result (`Picker`). The model does not state that the picker is shown the output of `list`. Decoding its output as UTF-8 is not modelled: the answer is already a string.
- `xdg-open` is modelled as the URL it is given. The shell splits that command line on spaces and metacharacters in the path, and the model does not capture this.
- `datetime` is modelled as whole seconds since `datetime.min`. Microseconds and time-zone-aware values are not modelled.
- Operating-system errors when opening the configuration or cache file (a missing permission, a directory in the file's place) are not modelled.
- Two invocations running at once against the same cache file, and a write interrupted part-way, are not modelled.

## Behaviour of the code worth knowing

The model follows the code in each case.

- A cache that has never been written is not always stale. The snapshot used in its place is stamped `datetime.min`, and it is stale only when more than seven days have passed since `datetime.min` (`Cache.MissingCacheIsStale`). Every real clock is that far past it.
- The configuration fields may be empty strings. The code requires only that `token` and `org` are present and are strings, and that `host` is a string when it is present (`Config.ReadConfig`).
- The stored `last_updated` can go backwards from one write to the next. Each write is stamped with the clock reading, and nothing compares it with the previous stamp. The model takes both clock readings as inputs and does not assume they increase.
- A configuration error does not always exit through `sys.exit(1)`. In the menu, a missing, undecodable or invalid configuration does. A configuration that is not a YAML mapping with string keys, and any configuration error under `open`, escape as uncaught exceptions. The exit status is 1 in every one of these cases (`Cli.ExitStatusIsZeroOrOne`).
