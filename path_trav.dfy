/**
 * `is_path_trav(base, relative)`: does `relative` resolve to a location that
 * is not inside `base`?
 *
 * The filesystem is an oracle: which paths exist, and what canonical text
 * (absolute, symlinks resolved, `.`/`..` removed) each path resolves to. The
 * decision itself is string logic on the two canonical forms: take the
 * prefix of the canonical candidate whose length is the BYTE length of the
 * canonical base, with the prefix cut by CHARACTER index, and report a
 * traversal exactly when that prefix differs from the canonical base.
 */
module PathTrav {
  import opened RustStr

  datatype Option<T> = None | Some(value: T)

  /** Rust's `Result<bool, &'static str>`. */
  datatype Result<T, E> = Ok(value: T) | Err(error: E)

  /** A path as the caller hands it over; the model never looks inside. */
  type Path = string

  /**
   * The state of the host filesystem at the moment of the call.
   * `canonicalize(p)` is `None` when `Path::canonicalize` fails or its
   * result is not valid UTF-8 (`to_str` gives `None`).
   */
  datatype FileSystem = FileSystem(
    pathExists: Path -> bool,
    canonicalize: Path -> Option<string>)

  const BaseMissing: string := "Base path doesn't exist"
  const RelativeMissing: string := "Relative path doesn't exist"

  /**
   * What `is_path_trav` demands of the filesystem: once both paths exist,
   * both must canonicalize to text, or one of its `unwrap`s panics.
   */
  predicate Resolves(fs: FileSystem, base: Path, relative: Path) {
    fs.pathExists(base) && fs.pathExists(relative) ==>
      fs.canonicalize(base).Some? && fs.canonicalize(relative).Some?
  }

  /**
   * The decision on the canonical forms: `b` is the canonical base, `c` the
   * canonical candidate. With an ASCII base it is "`b` is not a string
   * prefix of `c`"; with a base holding any non-ASCII character the byte
   * length overshoots the character count, and only `c == b` is judged safe.
   */
  function Escapes(b: string, c: string): (e: bool)
    ensures AllAscii(b) ==> (e <==> !(b <= c))
    ensures !AllAscii(b) ==> (e <==> c != b)
  {
    var prefix := Substring(c, 0, Utf8Len(b));
    SubstringFromStart(c, Utf8Len(b));
    if AllAscii(b) then
      assert b <= c ==> prefix == b;
      prefix != b
    else
      assert c == b ==> prefix == b;
      assert prefix == b ==> |c| == |b|;
      prefix != b
  }

  /**
   * `is_path_trav`: an error naming the first of the two paths that does
   * not exist (base first); otherwise `Ok(true)` for a traversal and
   * `Ok(false)` for a candidate judged inside the base.
   */
  function IsPathTrav(fs: FileSystem, base: Path, relative: Path): (r: Result<bool, string>)
    requires Resolves(fs, base, relative)
    ensures !fs.pathExists(base) ==> r == Err(BaseMissing)
    ensures fs.pathExists(base) && !fs.pathExists(relative) ==> r == Err(RelativeMissing)
    ensures r.Ok? <==> fs.pathExists(base) && fs.pathExists(relative)
    ensures r.Ok? && AllAscii(fs.canonicalize(base).value) ==>
      (r.value <==> !(fs.canonicalize(base).value <= fs.canonicalize(relative).value))
    ensures r.Ok? && !AllAscii(fs.canonicalize(base).value) ==>
      (r.value <==> fs.canonicalize(relative).value != fs.canonicalize(base).value)
  {
    if !fs.pathExists(base) then Err(BaseMissing)
    else if !fs.pathExists(relative) then Err(RelativeMissing)
    else
      var baseAbsolute := fs.canonicalize(base).value;
      var relativeAbsolute := fs.canonicalize(relative).value;
      Ok(Escapes(baseAbsolute, relativeAbsolute))
  }

  /** Whether both paths exist and resolve, so that the call returns `Ok`. */
  predicate BothResolve(fs: FileSystem, base: Path, relative: Path) {
    && fs.pathExists(base) && fs.pathExists(relative)
    && fs.canonicalize(base).Some? && fs.canonicalize(relative).Some?
  }

  /**
   * Only the canonical forms matter: two calls, on any filesystems, whose
   * paths resolve to the same canonical texts give the same answer.
   */
  lemma CanonicalFormsDecide(
    fs1: FileSystem, base1: Path, relative1: Path,
    fs2: FileSystem, base2: Path, relative2: Path)
    requires BothResolve(fs1, base1, relative1) && BothResolve(fs2, base2, relative2)
    requires fs1.canonicalize(base1) == fs2.canonicalize(base2)
    requires fs1.canonicalize(relative1) == fs2.canonicalize(relative2)
    ensures IsPathTrav(fs1, base1, relative1).Ok?
    ensures IsPathTrav(fs1, base1, relative1) == IsPathTrav(fs2, base2, relative2)
  {
  }

  /** A candidate that resolves to the base itself is not a traversal. */
  lemma SameLocationIsSafe(fs: FileSystem, base: Path, relative: Path)
    requires BothResolve(fs, base, relative)
    requires fs.canonicalize(relative) == fs.canonicalize(base)
    ensures IsPathTrav(fs, base, relative) == Ok(false)
  {
  }

  /** In particular a path checked against itself is not a traversal. */
  lemma SelfIsSafe(fs: FileSystem, p: Path)
    requires fs.pathExists(p) && fs.canonicalize(p).Some?
    ensures IsPathTrav(fs, p, p) == Ok(false)
  {
    SameLocationIsSafe(fs, p, p);
  }

  /**
   * A candidate whose canonical form has fewer characters than the
   * canonical base is always a traversal, whatever the characters.
   */
  lemma ShorterCandidateIsTraversal(fs: FileSystem, base: Path, relative: Path)
    requires BothResolve(fs, base, relative)
    requires |fs.canonicalize(relative).value| < |fs.canonicalize(base).value|
    ensures IsPathTrav(fs, base, relative) == Ok(true)
  {
  }

  /**
   * With an ASCII canonical base, a candidate whose canonical form starts
   * with it is not a traversal: a true descendant, and equally a sibling
   * whose name merely extends the base's last segment.
   */
  lemma AsciiPrefixIsSafe(fs: FileSystem, base: Path, relative: Path)
    requires BothResolve(fs, base, relative)
    requires AllAscii(fs.canonicalize(base).value)
    requires fs.canonicalize(base).value <= fs.canonicalize(relative).value
    ensures IsPathTrav(fs, base, relative) == Ok(false)
  {
  }

  /**
   * With a canonical base holding a non-ASCII character, every strictly
   * longer candidate is reported as a traversal, genuine descendants
   * included: the byte length of the base overshoots its character count,
   * so the character-indexed prefix of the candidate is longer than the base.
   */
  lemma NonAsciiDescendantFlagged(fs: FileSystem, base: Path, relative: Path, below: string)
    requires BothResolve(fs, base, relative)
    requires !AllAscii(fs.canonicalize(base).value)
    requires below != []
    requires fs.canonicalize(relative).value == fs.canonicalize(base).value + below
    ensures IsPathTrav(fs, base, relative) == Ok(true)
  {
  }

  /** A concrete non-ASCII case: `/tmp/é/x` below `/tmp/é` is flagged. */
  lemma NonAsciiExample()
    ensures Utf8Len("/tmp/\U{E9}") == 7
    ensures Escapes("/tmp/\U{E9}", "/tmp/\U{E9}/x")
  {
    var b := "/tmp/\U{E9}";
    assert b == "/tmp/" + "\U{E9}";
    Utf8LenAppend("/tmp/", "\U{E9}");
  }

  /**
   * The sibling-prefix case: `/home/user/data-evil/x` is judged inside
   * `/home/user/data`, although `data-evil` is a sibling of `data`.
   */
  lemma SiblingPrefixIsSafe()
    ensures !Escapes("/home/user/data", "/home/user/data-evil/x")
  {
    AsciiLiteral("/home/user/data");
  }

  /** Short ASCII literals used by the concrete cases. */
  lemma AsciiLiteral(s: string)
    requires s in {"/home/user/data", "/home/user/path_trav"}
    ensures AllAscii(s)
  {
  }

  /** The filesystem behind the scenarios of the repository's tests. */
  const Cwd: string := "/home/user/path_trav"

  function TestFileSystem(): (fs: FileSystem)
    ensures fs.pathExists("./") && fs.pathExists("/etc/passwd") && fs.pathExists("./tests/tests.rs")
    ensures !fs.pathExists("./tests/weird_file")
  {
    FileSystem(
      p => p in {"./", "/etc/passwd", "./tests/tests.rs"},
      p =>
        if p == "./" then Some(Cwd)
        else if p == "/etc/passwd" then Some("/etc/passwd")
        else if p == "./tests/tests.rs" then Some(Cwd + "/tests/tests.rs")
        else None)
  }

  /**
   * The scenarios of the repository's tests: a file outside the working
   * directory is a traversal, a file under it is not, and a missing
   * candidate is an error.
   */
  lemma TestScenarios()
    ensures IsPathTrav(TestFileSystem(), "./", "/etc/passwd") == Ok(true)
    ensures IsPathTrav(TestFileSystem(), "./", "./tests/tests.rs") == Ok(false)
    ensures IsPathTrav(TestFileSystem(), "./", "./tests/weird_file") == Err(RelativeMissing)
  {
    var fs := TestFileSystem();
    AsciiLiteral(Cwd);
    assert fs.canonicalize("./") == Some(Cwd);
    assert fs.canonicalize("./tests/tests.rs") == Some(Cwd + "/tests/tests.rs");
    assert Cwd <= Cwd + "/tests/tests.rs";
  }

  /**
   * A missing base is reported before the candidate is looked at: the same
   * base error whether the candidate exists or not.
   */
  lemma MissingBaseReportedFirst()
    ensures IsPathTrav(TestFileSystem(), "./tests/weird_file", "./") == Err(BaseMissing)
    ensures IsPathTrav(TestFileSystem(), "./tests/weird_file", "./tests/weird_file") == Err(BaseMissing)
  {
  }
}
