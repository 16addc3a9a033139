/** Static files of service/staticfiles.py: `_resolve_static_path` and the roots the
    admin and public routes resolve under, over the abstract `Fs`. The working
    directory (`Path.cwd()`) is a parameter. */
module ServiceStaticFiles {
  import opened Paths

  /** The exception `_resolve_static_path` raises; the default is 404 "Not Found.". */
  datatype HttpError = HttpError(status: int, detail: string)

  const NotFound: HttpError := HttpError(404, "Not Found.")

  /** A resolved file, or the raised exception. */
  datatype Resolved = File(path: Path) | Raised(exc: HttpError)

  /** The request string with exactly one leading "/" removed. */
  function StripSlash(path: string): (r: string)
    ensures IsAbsolute(path) ==> "/" + r == path
    ensures !IsAbsolute(path) ==> r == path
  {
    if IsAbsolute(path) then path[1..] else path
  }

  /** The path `_resolve_static_path` looks at before the directory test: a relative
      request is joined as it is, and one stripped of its slash stays under the root
      unless a second slash makes it absolute again. */
  function Candidate(root: Path, path: string): (r: Path)
    ensures !IsAbsolute(path) ==> r == Join(root, path)
    ensures !IsAbsolute(StripSlash(path)) ==> IsRelativeTo(r, root)
  {
    if !IsAbsolute(StripSlash(path)) then
      RelativeJoinStaysInside(root, StripSlash(path));
      Join(root, StripSlash(path))
    else Join(root, StripSlash(path))
  }

  /** `_resolve_static_path`: `root / path` after stripping one "/", with
      "index.html" appended when that is a directory; an existing file, or `exc`. */
  function ResolveStaticPath(fs: Fs, root: Path, path: string, exc: HttpError): (r: Resolved)
    ensures r.File? ==> r.path in fs.files
    ensures r.Raised? ==> r.exc == exc
    ensures Candidate(root, path) in fs.dirs ==>
      (r.File? <==> Join(Candidate(root, path), "index.html") in fs.files)
      && (r.File? ==> r.path == Join(Candidate(root, path), "index.html"))
    ensures Candidate(root, path) !in fs.dirs ==>
      (r.File? <==> Candidate(root, path) in fs.files)
      && (r.File? ==> r.path == Candidate(root, path))
  {
    var p := Candidate(root, path);
    var p' := if p in fs.dirs then Join(p, "index.html") else p;
    if p' !in fs.files then Raised(exc) else File(p')
  }

  /** One leading slash is insignificant: "/x" and "x" resolve alike. */
  lemma LeadingSlashStripped(fs: Fs, root: Path, path: string, exc: HttpError)
    requires !IsAbsolute(path)
    ensures ResolveStaticPath(fs, root, "/" + path, exc) == ResolveStaticPath(fs, root, path, exc)
  {
    assert StripSlash("/" + path) == path;
  }

  /** A request with one leading slash is looked up lexically under the root. */
  lemma {:induction false} SingleSlashStaysUnderRoot(root: Path, path: string)
    requires !IsAbsolute(path)
    ensures IsRelativeTo(Candidate(root, "/" + path), root)
  {
    assert StripSlash("/" + path) == path;
    RelativeJoinStaysInside(root, path);
  }

  /** Only one slash is stripped: "//etc/passwd" becomes the absolute "/etc/passwd",
      which replaces the root entirely, so the root plays no part. */
  lemma DoubleSlashIgnoresRoot(fs: Fs, root1: Path, root2: Path, rest: string, exc: HttpError)
    ensures Candidate(root1, "//" + rest) == Parse("/" + rest)
    ensures ResolveStaticPath(fs, root1, "//" + rest, exc) == ResolveStaticPath(fs, root2, "//" + rest, exc)
  {
    assert StripSlash("//" + rest) == "/" + rest;
  }

  /** A file found for a request that does not begin with "//" lies lexically under
      the root. */
  lemma {:induction false} ResolvedUnderRoot(fs: Fs, root: Path, path: string, exc: HttpError)
    requires !(|path| >= 2 && path[0] == '/' && path[1] == '/')
    ensures var r := ResolveStaticPath(fs, root, path, exc);
      r.File? ==> IsRelativeTo(r.path, root)
  {
    var c := Candidate(root, path);
    assert !IsAbsolute(StripSlash(path));
    RelativeJoinStaysInside(root, StripSlash(path));
    RelativeIffPrefix(c, root);
    RelativeIffPrefix(Join(c, "index.html"), root);
  }

  /** `PUBLIC_ROOT` and `ADMIN_ROOT`: "public/dist" and "admin/dist" under the working
      directory. */
  function PublicRoot(cwd: Path): (r: Path)
    ensures r == Path(cwd.root, cwd.parts + ["public", "dist"])
  {
    var name, dist := "public", "dist";
    assert '/' !in name && '/' !in dist;
    TwoNames(name, dist);
    assert name + "/" + dist == "public/dist";
    Join(cwd, "public/dist")
  }

  function AdminRoot(cwd: Path): (r: Path)
    ensures r == Path(cwd.root, cwd.parts + ["admin", "dist"])
  {
    var name, dist := "admin", "dist";
    assert '/' !in name && '/' !in dist;
    TwoNames(name, dist);
    assert name + "/" + dist == "admin/dist";
    Join(cwd, "admin/dist")
  }

  /** `protected_file` and `public_file`: a file to hand to `FileResponse`, or the
      default 404 "Not Found.". */
  function ProtectedFile(fs: Fs, cwd: Path, path: string): (r: Resolved)
    ensures r.File? ==> r.path in fs.files
    ensures r.Raised? ==> r.exc == HttpError(404, "Not Found.")
  {
    ResolveStaticPath(fs, AdminRoot(cwd), path, NotFound)
  }

  function PublicFile(fs: Fs, cwd: Path, path: string): (r: Resolved)
    ensures r.File? ==> r.path in fs.files
    ensures r.Raised? ==> r.exc == HttpError(404, "Not Found.")
  {
    ResolveStaticPath(fs, PublicRoot(cwd), path, NotFound)
  }

  /** Admin requests are served from under "admin/dist" and public requests from
      under "public/dist", unless the request begins with "//". */
  lemma RoutesServeTheirOwnRoots(fs: Fs, cwd: Path, path: string)
    requires !(|path| >= 2 && path[0] == '/' && path[1] == '/')
    ensures ProtectedFile(fs, cwd, path).File? ==> IsRelativeTo(ProtectedFile(fs, cwd, path).path, AdminRoot(cwd))
    ensures PublicFile(fs, cwd, path).File? ==> IsRelativeTo(PublicFile(fs, cwd, path).path, PublicRoot(cwd))
  {
    ResolvedUnderRoot(fs, AdminRoot(cwd), path, NotFound);
    ResolvedUnderRoot(fs, PublicRoot(cwd), path, NotFound);
  }

  /** `base_admin`: the admin root's index page, when the admin root is a directory
      holding one; 404 otherwise. */
  function BaseAdmin(fs: Fs, cwd: Path): (r: Resolved)
    ensures AdminRoot(cwd) in fs.dirs && Join(AdminRoot(cwd), "index.html") in fs.files ==>
      r == File(Join(AdminRoot(cwd), "index.html"))
    ensures !(AdminRoot(cwd) in fs.dirs && Join(AdminRoot(cwd), "index.html") in fs.files) ==>
      r == Raised(NotFound) || (AdminRoot(cwd) !in fs.dirs && r == File(AdminRoot(cwd)))
  {
    assert Parse("").parts == [];
    assert Candidate(AdminRoot(cwd), "") == AdminRoot(cwd);
    ProtectedFile(fs, cwd, "")
  }
}
