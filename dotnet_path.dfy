/** The parts of `System.IO.Path` the monitor uses, as .NET defines them on
    Linux, where '/' is both the directory separator and the alternative one. */
module DotNetPath {
  import opened Text

  const DirectorySeparator: char := '/'
  const ExtensionSeparator: char := '.'

  /** Where the file name of `path` begins: just after its last separator. */
  function FileNameStart(path: string): (k: nat)
    ensures k <= |path|
    ensures 0 < k ==> path[k - 1] == DirectorySeparator
  {
    LastIndexOf(path, DirectorySeparator) + 1
  }

  /** `Path.GetFileName`: what follows the last directory separator. */
  function GetFileName(path: string): string {
    path[FileNameStart(path)..]
  }

  /** `Path.GetExtension`: from the last '.' of the file name to its end, or ""
      when the name has no '.' or ends with it. A name that starts with its only
      '.' (".mp3") is all extension. */
  function GetExtension(path: string): string {
    var name := GetFileName(path);
    var i := LastIndexOf(name, ExtensionSeparator);
    if i < 0 || i == |name| - 1 then "" else name[i..]
  }

  /** `Path.GetFileNameWithoutExtension`: the file name up to its last '.'. */
  function GetFileNameWithoutExtension(path: string): string {
    var name := GetFileName(path);
    var i := LastIndexOf(name, ExtensionSeparator);
    if i < 0 then name else name[..i]
  }

  /** The file name holds no separator. */
  lemma {:induction false} FileNameLacksSeparator(path: string)
    ensures Lacks(GetFileName(path), DirectorySeparator)
  {
    var k := FileNameStart(path);
    NoneAfterLast(path, DirectorySeparator);
    forall m | 0 <= m < |path| - k ensures path[k..][m] != DirectorySeparator {
      assert path[k..][m] == path[k + m];
    }
  }

  /** A file name is its own file name, so the three functions give the same
      answer on a path and on its file name. */
  lemma {:induction false} FileNameOfFileName(path: string)
    ensures GetFileName(GetFileName(path)) == GetFileName(path)
    ensures GetExtension(GetFileName(path)) == GetExtension(path)
    ensures GetFileNameWithoutExtension(GetFileName(path)) == GetFileNameWithoutExtension(path)
  {
    FileNameLacksSeparator(path);
    assert LastIndexOf(GetFileName(path), DirectorySeparator) == -1;
  }

  /** The name splits into the name without extension and the extension, except
      that a final '.' belongs to neither ("song." gives "song" and ""). */
  lemma {:induction false} NameSplitsAtExtension(path: string)
    ensures var name := GetFileName(path);
            var base := GetFileNameWithoutExtension(path);
            var ext := GetExtension(path);
            || (ext != [] && base + ext == name)
            || (ext == [] && base == name && Lacks(name, ExtensionSeparator))
            || (ext == [] && base + [ExtensionSeparator] == name)
  {
    var name := GetFileName(path);
    var i := LastIndexOf(name, ExtensionSeparator);
    NoneAfterLast(name, ExtensionSeparator);
    if 0 <= i {
      assert name == name[..i] + name[i..];
      if i == |name| - 1 { assert name[i..] == [ExtensionSeparator]; }
    }
  }

  /** For an extension `e` of the shape ".xyz", the lower-cased extension of a path
      is `e` exactly when its lower-cased file name ends with `e`. */
  lemma {:induction false} LowerExtensionIsSuffix(path: string, e: string)
    requires ExtensionShape(e)
    ensures LowerAscii(GetExtension(path)) == e <==> HasSuffix(LowerAscii(GetFileName(path)), e)
  {
    var name := GetFileName(path);
    var i := LastIndexOf(name, ExtensionSeparator);
    if LowerAscii(GetExtension(path)) == e {
      assert 0 <= i < |name| - 1 && GetExtension(path) == name[i..];
      SuffixOfLastDot(name, e);
    }
    if HasSuffix(LowerAscii(name), e) {
      LastDotOfSuffix(name, e);
      assert 0 <= i < |name| - 1;
      assert GetExtension(path) == name[i..];
    }
  }

  /** Against a list of extensions of the shape ".xyz", the lower-cased extension
      is in the list exactly when the lower-cased file name ends with one of them. */
  lemma {:induction false} LowerExtensionIn(path: string, exts: seq<string>)
    requires forall e :: e in exts ==> ExtensionShape(e)
    ensures LowerAscii(GetExtension(path)) in exts <==>
            exists e :: e in exts && HasSuffix(LowerAscii(GetFileName(path)), e)
  {
    var x := LowerAscii(GetExtension(path));
    if x in exts {
      LowerExtensionIsSuffix(path, x);
    }
    if e :| e in exts && HasSuffix(LowerAscii(GetFileName(path)), e) {
      LowerExtensionIsSuffix(path, e);
    }
  }
}
