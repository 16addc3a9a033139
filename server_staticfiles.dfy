/** Static files of server/staticfiles.py: the lexical containment check of
    `locate_static_file`, the in-place cache of `get_path_response_cached`, and the
    choice between the cached and the uncached responder, over the abstract `Fs`.
    `mimetypes.guess_type` is a parameter. */
module ServerStaticFiles {
  import opened Common
  import opened Paths

  /** What `locate_static_file` gives: the path, or the HTTP status it raises. */
  datatype Located = Found(path: Path) | Status(code: int)

  /** `locate_static_file`: 451 when the joined path is not lexically inside the
      directory, checked before existence; 404 when it does not exist; otherwise the
      joined path itself. */
  function Locate(fs: Fs, directory: Path, path: string): (r: Located)
    ensures r == Status(451) <==> !IsRelativeTo(Join(directory, path), directory)
    ensures r == Status(404) <==> IsRelativeTo(Join(directory, path), directory) && !Exists(fs, Join(directory, path))
    ensures r.Found? <==> IsRelativeTo(Join(directory, path), directory) && Exists(fs, Join(directory, path))
    ensures r.Found? ==> r.path == Join(directory, path)
  {
    var result := Join(directory, path);
    if !IsRelativeTo(result, directory) then Status(451)
    else if !Exists(fs, result) then Status(404)
    else Found(result)
  }

  /** Any relative request, ".." segments and all, passes the containment check; what
      it then names is decided by existence alone. */
  lemma RelativeRequestsAreNeverUnavailable(fs: Fs, directory: Path, path: string)
    requires !IsAbsolute(path)
    ensures Locate(fs, directory, path) != Status(451)
  {
    RelativeJoinStaysInside(directory, path);
  }

  /** An absolute request under a relative directory is refused with 451, whether or
      not the file exists. */
  lemma AbsoluteRequestUnderRelativeDirectory(fs: Fs, directory: Path, path: string)
    requires directory.root == "" && IsAbsolute(path)
    ensures Locate(fs, directory, path) == Status(451)
  {
    AbsoluteJoinLeavesOtherRoots(directory, path);
  }

  /** A cached response: the bytes and the guessed media type. */
  datatype Entry = Entry(data: seq<bv8>, mime: Option<string>)

  /** What a responder answers: a response, an HTTP error status, or the
      IsADirectoryError that `read_bytes` raises on a directory. */
  datatype Served = Served(entry: Entry) | Failed(code: int) | IsADirectory

  /** The miss path of `get_path_response_cached`: locate, read the bytes, guess the
      type from the file name. */
  function Fetch(fs: Fs, directory: Path, path: string, guess: string -> Option<string>): (r: Served)
    ensures r.Served? <==> Locate(fs, directory, path).Found? && Join(directory, path) in fs.files
    ensures r.Served? ==> r.entry == Entry(fs.files[Join(directory, path)], guess(Name(Join(directory, path))))
    ensures r.Failed? <==> Locate(fs, directory, path).Status?
    ensures r.Failed? ==> r.code == Locate(fs, directory, path).code
  {
    match Locate(fs, directory, path)
    case Status(code) => Failed(code)
    case Found(file) =>
      if file in fs.files then Served(Entry(fs.files[file], guess(Name(file))))
      else IsADirectory
  }

  /** The cache after a request, and the answer. */
  datatype CacheStep = CacheStep(cache: map<string, Entry>, result: Served)

  /** `get_path_response_cached`: a hit answers from the cache; a miss fetches and
      stores the entry under the raw request string, and stores nothing if the fetch
      raises. The cache only grows: no entry is replaced or dropped. */
  function CachedStep(cache: map<string, Entry>, fs: Fs, directory: Path, path: string,
                      guess: string -> Option<string>): (r: CacheStep)
    ensures path in cache ==> r == CacheStep(cache, Served(cache[path]))
    ensures path !in cache ==> r.result == Fetch(fs, directory, path, guess)
    ensures path !in cache && r.result.Served? ==> r.cache == cache[path := r.result.entry]
    ensures !r.result.Served? ==> r.cache == cache
    ensures forall k :: k in cache ==> k in r.cache && r.cache[k] == cache[k]
  {
    if path in cache then CacheStep(cache, Served(cache[path]))
    else
      var result := Fetch(fs, directory, path, guess);
      if result.Served? then CacheStep(cache[path := result.entry], result)
      else CacheStep(cache, result)
  }

  /** A hit consults neither the filesystem nor the directory: it can never be a 404
      or a 451, and the same request string gets the same answer everywhere. */
  lemma HitIgnoresFilesystem(cache: map<string, Entry>, fs1: Fs, fs2: Fs, d1: Path, d2: Path,
                             path: string, guess: string -> Option<string>)
    requires path in cache
    ensures CachedStep(cache, fs1, d1, path, guess).result == CachedStep(cache, fs2, d2, path, guess).result
    ensures CachedStep(cache, fs1, d1, path, guess).result.Served?
  {
  }

  /** The cache agrees with the filesystem: every entry is what a fresh fetch of its
      request string under `directory` would give now. */
  ghost predicate Sound(cache: map<string, Entry>, fs: Fs, directory: Path, guess: string -> Option<string>) {
    forall k :: k in cache ==> Fetch(fs, directory, k, guess) == Served(cache[k])
  }

  /** While the files do not change, a cache used for one directory stays sound and
      answers exactly as the uncached fetch would. */
  lemma CacheIsTransparent(cache: map<string, Entry>, fs: Fs, directory: Path, path: string,
                           guess: string -> Option<string>)
    requires Sound(cache, fs, directory, guess)
    ensures var s := CachedStep(cache, fs, directory, path, guess);
      s.result == Fetch(fs, directory, path, guess) && Sound(s.cache, fs, directory, guess)
  {
  }

  // ---------------------------------------------------------------------------
  // The two frontends. When both cache flags are set, both responders are
  // `get_path_response_cached` with its one default `cache` dict, so the admin and
  // the public frontend share a cache keyed by the request string alone.

  /** A request for the admin frontend (`/admin/...`) or the public one (`/...`). */
  datatype Request = Request(admin: bool, path: string)

  /** The directories the two frontends serve. */
  datatype Dirs = Dirs(frontend: Path, adminFrontend: Path)

  function DirFor(dirs: Dirs, q: Request): Path {
    if q.admin then dirs.adminFrontend else dirs.frontend
  }

  /** As written, with both cache flags set: both frontends use the one shared dict,
      so a stored request string is answered from it whichever frontend asks. */
  function ServeAsWritten(shared: map<string, Entry>, fs: Fs, dirs: Dirs, q: Request,
                          guess: string -> Option<string>): (r: CacheStep)
    ensures q.path in shared ==> r.result == Served(shared[q.path]) && r.cache == shared
    ensures q.path !in shared ==> r.result == Fetch(fs, DirFor(dirs, q), q.path, guess)
    ensures forall k :: k in shared ==> k in r.cache && r.cache[k] == shared[k]
  {
    CachedStep(shared, fs, DirFor(dirs, q), q.path, guess)
  }

  /** Once an admin page is cached, a public request for the same string is answered
      with the admin bytes, even when the public frontend has a different file there;
      the public route has no authentication. */
  lemma AdminFileServedToPublic(fs: Fs, dirs: Dirs, guess: string -> Option<string>)
    requires Join(dirs.adminFrontend, "index.html") in fs.files
    requires Join(dirs.frontend, "index.html") in fs.files
    requires fs.files[Join(dirs.adminFrontend, "index.html")] != fs.files[Join(dirs.frontend, "index.html")]
    ensures var first := ServeAsWritten(map[], fs, dirs, Request(true, "index.html"), guess);
      var second := ServeAsWritten(first.cache, fs, dirs, Request(false, "index.html"), guess);
      && second.result.Served?
      && second.result.entry.data == fs.files[Join(dirs.adminFrontend, "index.html")]
      && second.result != Fetch(fs, dirs.frontend, "index.html", guess)
  {
    RelativeJoinStaysInside(dirs.adminFrontend, "index.html");
    RelativeJoinStaysInside(dirs.frontend, "index.html");
  }

  /** The two caches of the corrected design, one per frontend. */
  datatype Caches = Caches(frontend: map<string, Entry>, adminFrontend: map<string, Entry>)

  /** Corrected: each frontend keeps its own cache, so a request string means the same
      file it would mean uncached. */
  function ServeIntended(caches: Caches, fs: Fs, dirs: Dirs, q: Request,
                         guess: string -> Option<string>): (r: (Caches, Served))
    ensures q.admin ==> r.0.frontend == caches.frontend
    ensures !q.admin ==> r.0.adminFrontend == caches.adminFrontend
  {
    if q.admin then
      var s := CachedStep(caches.adminFrontend, fs, dirs.adminFrontend, q.path, guess);
      (caches.(adminFrontend := s.cache), s.result)
    else
      var s := CachedStep(caches.frontend, fs, dirs.frontend, q.path, guess);
      (caches.(frontend := s.cache), s.result)
  }

  /** With the corrected caches, every request is answered from its own frontend's
      directory, and both caches stay sound, starting from empty ones. */
  lemma {:induction false} IntendedServesOwnDirectory(caches: Caches, fs: Fs, dirs: Dirs, q: Request,
                                                      guess: string -> Option<string>)
    requires Sound(caches.frontend, fs, dirs.frontend, guess)
    requires Sound(caches.adminFrontend, fs, dirs.adminFrontend, guess)
    ensures var (after, result) := ServeIntended(caches, fs, dirs, q, guess);
      && result == Fetch(fs, DirFor(dirs, q), q.path, guess)
      && Sound(after.frontend, fs, dirs.frontend, guess)
      && Sound(after.adminFrontend, fs, dirs.adminFrontend, guess)
  {
    if q.admin {
      CacheIsTransparent(caches.adminFrontend, fs, dirs.adminFrontend, q.path, guess);
    } else {
      CacheIsTransparent(caches.frontend, fs, dirs.frontend, q.path, guess);
    }
  }

  /** Which responder a frontend uses: the cached one iff its `cache` flag is set. */
  datatype Responder = Cached | Uncached

  function ResponderFor(cacheFlag: bool): (r: Responder)
    ensures r == Cached <==> cacheFlag
  {
    if cacheFlag then Cached else Uncached
  }

  /** What `get_path_response` answers: a file response for the located path, the
      HTTP status `locate_static_file` raises, or the RuntimeError a `FileResponse`
      raises when the located path is not a regular file (a directory). */
  datatype FileAnswer = FileServed(path: Path) | FileFailed(code: int) | NotAFile

  /** `get_path_response`: the located path, handed to a file response. */
  function UncachedResponse(fs: Fs, directory: Path, path: string): (r: FileAnswer)
    ensures r.FileServed? <==> Locate(fs, directory, path).Found? && Join(directory, path) in fs.files
    ensures r.FileServed? ==> r.path == Join(directory, path)
    ensures r.FileFailed? <==> Locate(fs, directory, path).Status?
    ensures r.FileFailed? ==> r.code == Locate(fs, directory, path).code
  {
    match Locate(fs, directory, path)
    case Status(code) => FileFailed(code)
    case Found(file) => if file in fs.files then FileServed(file) else NotAFile
  }

  /** The uncached and the cached responder agree on a miss: the same file is served,
      the same status raised, and a directory fails in both. */
  lemma UncachedAgreesWithFetch(fs: Fs, directory: Path, path: string, guess: string -> Option<string>)
    ensures var u := UncachedResponse(fs, directory, path);
      var f := Fetch(fs, directory, path, guess);
      && (u.FileServed? <==> f.Served?)
      && (u.FileServed? ==> f.entry.data == fs.files[u.path])
      && (u.FileFailed? <==> f.Failed?)
      && (u.FileFailed? ==> u.code == f.code)
      && (u.NotAFile? <==> f.IsADirectory?)
  {
  }

  /** The persistent `cache` dict of one frontend's responder, updated in place. */
  class StaticCache {
    var entries: map<string, Entry>

    constructor ()
      ensures entries == map[]
    {
      entries := map[];
    }

    /** `get_path_response_cached(directory, path)` against this cache. */
    method Get(fs: Fs, directory: Path, path: string, guess: string -> Option<string>) returns (r: Served)
      modifies this
      ensures var s := CachedStep(old(entries), fs, directory, path, guess);
        entries == s.cache && r == s.result
    {
      if path in entries {
        r := Served(entries[path]);
        return;
      }
      r := Fetch(fs, directory, path, guess);
      if r.Served? {
        entries := entries[path := r.entry];
      }
    }
  }
}
