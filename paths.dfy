/**
 * Windows path handling as the .NET Framework `System.IO.Path` class does it:
 * `\` is the directory separator, `/` the alternative one and `:` the volume
 * separator; all three end a directory part.
 */
module Paths {

  predicate IsSeparator(c: char)
  {
    c == '\\' || c == '/' || c == ':'
  }

  /** `Path.IsPathRooted`: starts with a slash, or names a volume (`C:`). */
  predicate IsPathRooted(p: string)
  {
    (|p| >= 1 && (p[0] == '\\' || p[0] == '/')) || (|p| >= 2 && p[1] == ':')
  }

  /**
   * `Path.Combine(dir, name)`: an empty part yields the other, a rooted `name`
   * replaces `dir`, and otherwise `\` is inserted unless `dir` already ends
   * with a separator.
   */
  function Combine(dir: string, name: string): (r: string)
  {
    if name == [] then dir
    else if dir == [] then name
    else if IsPathRooted(name) then name
    else if !IsSeparator(dir[|dir| - 1]) then dir + "\\" + name
    else dir + name
  }

  /**
   * The combined path ends with `name`; a relative `name` goes under a
   * non-empty `dir` with exactly one separator between them.
   */
  lemma CombineFacts(dir: string, name: string)
    ensures var r := Combine(dir, name);
      && (name != [] && !IsPathRooted(name) && dir != [] ==>
            r == (if IsSeparator(dir[|dir| - 1]) then dir + name else dir + "\\" + name))
      && (name != [] ==> |name| <= |r| && r[|r| - |name|..] == name)
      && (name == [] ==> r == dir)
  {
  }

  /** The index just after the last separator of `p` (0 when there is none). */
  function LastSegmentStart(p: string): (i: nat)
    ensures i <= |p|
    ensures i > 0 ==> IsSeparator(p[i - 1])
    ensures forall j :: i <= j < |p| ==> !IsSeparator(p[j])
  {
    if p == [] then 0
    else if IsSeparator(p[|p| - 1]) then |p|
    else LastSegmentStart(p[..|p| - 1])
  }

  /** `Path.GetFileName(p)`: the text after the last separator. */
  function GetFileName(p: string): (name: string)
    ensures |name| <= |p| && p[|p| - |name|..] == name
    ensures forall j :: 0 <= j < |name| ==> !IsSeparator(name[j])
    ensures |name| < |p| ==> IsSeparator(p[|p| - |name| - 1])
  {
    p[LastSegmentStart(p)..]
  }

  /** A name with no separator in it is never rooted. */
  lemma PlainNameNotRooted(name: string)
    requires forall j :: 0 <= j < |name| ==> !IsSeparator(name[j])
    ensures !IsPathRooted(name)
  {
  }

  /**
   * Whatever the request path, the file it resolves to lies directly in `dir`:
   * `dir`, then a separator unless `dir` ends with one, then a name with no
   * separator in it.
   */
  lemma {:induction false} FileNameStaysInDirectory(dir: string, p: string)
    requires dir != []
    ensures var name := GetFileName(p);
            name != [] ==>
              Combine(dir, name) == (if IsSeparator(dir[|dir| - 1]) then dir + name else dir + "\\" + name)
  {
    var name := GetFileName(p);
    PlainNameNotRooted(name);
  }

  /** The characters `Path` refuses in a path: `"`, `<`, `>`, `|` and the control characters. */
  predicate IsIllegalPathChar(c: char)
  {
    c == '"' || c == '<' || c == '>' || c == '|' || c < ' '
  }

  predicate HasIllegalChars(p: string)
  {
    exists i :: 0 <= i < |p| && IsIllegalPathChar(p[i])
  }

  /** The message of the `ArgumentException` `GetFileName` and `Combine` raise for such a path. */
  const IllegalCharactersMessage := "Illegal characters in path."

  /** After a directory part ending in a separator, a name without separators is the file name. */
  lemma {:induction false} FileNameAfterSeparator(dir: string, name: string)
    requires dir != [] && IsSeparator(dir[|dir| - 1])
    requires forall j :: 0 <= j < |name| ==> !IsSeparator(name[j])
    ensures GetFileName(dir + name) == name
    ensures LastSegmentStart(dir + name) == |dir|
    decreases |name|
  {
    if name == [] {
      assert dir + name == dir;
    } else {
      var shorter := name[..|name| - 1];
      assert (dir + name)[..|dir + name| - 1] == dir + shorter;
      FileNameAfterSeparator(dir, shorter);
    }
  }
}

