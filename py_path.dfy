/** The parts of Python's `os.path` and `pathlib.PurePosixPath` the watcher
    service uses. */
module PyPath {
  import opened Text

  const Separator: char := '/'
  const Dot: char := '.'

  /** Where the name of `path` begins: just after its last '/'. */
  function NameStart(path: string): (k: nat)
    ensures k <= |path|
    ensures 0 < k ==> path[k - 1] == Separator
  {
    LastIndexOf(path, Separator) + 1
  }

  /** `os.path.basename` and `PurePath.name`: what follows the last '/'. */
  function Name(path: string): string {
    path[NameStart(path)..]
  }

  /** `PurePath.suffix`: from the last '.' of the name, provided that '.' is neither
      the first nor the last character of the name (".mp3" has no suffix). */
  function Suffix(path: string): string {
    var name := Name(path);
    var i := LastIndexOf(name, Dot);
    if 0 < i < |name| - 1 then name[i..] else ""
  }

  /** `PurePath.stem`: the name without its suffix. */
  function Stem(path: string): string {
    var name := Name(path);
    var i := LastIndexOf(name, Dot);
    if 0 < i < |name| - 1 then name[..i] else name
  }

  /** The stem and the suffix make up the name. */
  lemma {:induction false} StemAndSuffix(path: string)
    ensures Stem(path) + Suffix(path) == Name(path)
  {
    var name := Name(path);
    var i := LastIndexOf(name, Dot);
    if 0 < i < |name| - 1 {
      assert name == name[..i] + name[i..];
    }
  }

  /** The name holds no '/'. */
  lemma {:induction false} NameLacksSeparator(path: string)
    ensures Lacks(Name(path), Separator)
  {
    var k := NameStart(path);
    NoneAfterLast(path, Separator);
    forall m | 0 <= m < |path| - k ensures path[k..][m] != Separator {
      assert path[k..][m] == path[k + m];
    }
  }

  /** A name (as `os.path.basename` returns it) is its own name, stem and suffix. */
  lemma {:induction false} NameOfName(path: string)
    ensures Name(Name(path)) == Name(path)
    ensures Suffix(Name(path)) == Suffix(path)
    ensures Stem(Name(path)) == Stem(path)
  {
    NameLacksSeparator(path);
    assert LastIndexOf(Name(path), Separator) == -1;
  }

  /** `os.path.join(folder, entry)`. */
  function Join(folder: string, entry: string): string {
    if entry != [] && entry[0] == Separator then entry
    else if folder == [] || folder[|folder| - 1] == Separator then folder + entry
    else folder + [Separator] + entry
  }

  /** Joining a folder with an entry name as `os.listdir` returns it (non-empty,
      without '/'), then taking the name, gives the entry back. */
  lemma {:induction false} NameOfJoin(folder: string, entry: string)
    requires entry != [] && Lacks(entry, Separator)
    ensures Name(Join(folder, entry)) == entry
  {
    var p := Join(folder, entry);
    var j := |p| - |entry|;
    assert p[j..] == entry;
    forall m | j <= m < |p| ensures p[m] != Separator {
      assert p[m] == entry[m - j];
    }
    if 0 < j {
      assert p[j - 1] == Separator;
      LastIndexIs(p, Separator, j - 1);
    }
    assert NameStart(p) == j;
  }

  /** For a suffix `e` of the shape ".xyz", the lower-cased suffix of a path is `e`
      exactly when the lower-cased name ends with `e` and is longer than `e`. */
  lemma {:induction false} LowerSuffixIs(path: string, e: string)
    requires ExtensionShape(e)
    ensures LowerAscii(Suffix(path)) == e <==> |e| < |Name(path)| && HasSuffix(LowerAscii(Name(path)), e)
  {
    var name := Name(path);
    var i := LastIndexOf(name, Dot);
    if LowerAscii(Suffix(path)) == e {
      assert 0 < i < |name| - 1 && Suffix(path) == name[i..];
      SuffixOfLastDot(name, e);
    }
    if |e| < |name| && HasSuffix(LowerAscii(name), e) {
      LastDotOfSuffix(name, e);
      assert 0 < i < |name| - 1;
      assert Suffix(path) == name[i..];
    }
  }

  /** Against a list of suffixes of the shape ".xyz", the lower-cased suffix is in
      the list exactly when the lower-cased name ends with one of them and is
      longer than it. */
  lemma {:induction false} LowerSuffixIn(path: string, exts: seq<string>)
    requires forall e :: e in exts ==> ExtensionShape(e)
    ensures LowerAscii(Suffix(path)) in exts <==>
            exists e :: e in exts && |e| < |Name(path)| && HasSuffix(LowerAscii(Name(path)), e)
  {
    var x := LowerAscii(Suffix(path));
    if x in exts {
      LowerSuffixIs(path, x);
    }
    if e :| e in exts && |e| < |Name(path)| && HasSuffix(LowerAscii(Name(path)), e) {
      LowerSuffixIs(path, e);
    }
  }
}
