/**
 * Client-side path algebra of the webshell control backend: `remote_path`
 * picks POSIX or Windows syntax from a directory string and `changedir`
 * emulates `cd` on a remote host that keeps no working directory.
 *
 * The pure-path operations the Python code uses (parsing, `str()`, `.parent`
 * and `/`) are re-implemented here after CPython's `pathlib`: a path is a
 * drive, a root and a list of segments; parsing splits on the separator and
 * drops empty and "." segments but keeps ".." (pure paths are lexical).
 */
module RemotePaths {

  datatype Style = Posix | Windows

  /** A parsed pure path: what pathlib keeps of a path string. */
  datatype PurePath = PurePath(drive: string, root: string, parts: seq<string>)

  function Sep(style: Style): char {
    if style == Posix then '/' else '\\'
  }

  // ---------------------------------------------------------------------
  // Strings: Python's str.split and str.join
  // ---------------------------------------------------------------------

  /**
   * `sep.join(pieces)`: it starts with the first piece and ends with the
   * last, and a separator follows the first piece when there are more.
   */
  function JoinWith(pieces: seq<string>, sep: char): (s: string)
    decreases |pieces|
  {
    if |pieces| == 0 then ""
    else if |pieces| == 1 then pieces[0]
    else pieces[0] + [sep] + JoinWith(pieces[1..], sep)
  }

  /** `s.split(sep)`: the pieces between separators, at least one of them. */
  function Split(s: string, sep: char): (pieces: seq<string>)
    ensures |pieces| >= 1
    ensures forall i :: 0 <= i < |pieces| ==> sep !in pieces[i]
    ensures forall i, c :: 0 <= i < |pieces| && c in pieces[i] ==> c in s
    ensures JoinWith(pieces, sep) == s
    decreases |s|
  {
    if s == [] then [[]]
    else
      var rest := Split(s[1..], sep);
      if s[0] == sep then
        assert s == [sep] + s[1..];
        [[]] + rest
      else
        var pieces := [[s[0]] + rest[0]] + rest[1..];
        assert pieces[1..] == rest[1..];
        assert s == [s[0]] + s[1..];
        pieces
  }

  /** The pieces pathlib keeps: it drops "" and "." and keeps everything else. */
  function Keep(pieces: seq<string>): (kept: seq<string>)
    ensures forall i :: 0 <= i < |kept| ==> kept[i] != "" && kept[i] != "." && kept[i] in pieces
    ensures forall x :: x in pieces && x != "" && x != "." ==> x in kept
    decreases |pieces|
  {
    if pieces == [] then []
    else if pieces[0] == "" || pieces[0] == "." then Keep(pieces[1..])
    else [pieces[0]] + Keep(pieces[1..])
  }

  /** The segments of a separator-delimited string: every piece but "" and ".". */
  function Segments(rel: string, sep: char): (parts: seq<string>)
    ensures forall i, c :: 0 <= i < |parts| && c in parts[i] ==> c in rel && c != sep
    ensures forall x :: x in Split(rel, sep) && x != "" && x != "." ==> x in parts
  {
    Keep(Split(rel, sep))
  }

  // ---------------------------------------------------------------------
  // Well-formed parsed paths
  // ---------------------------------------------------------------------

  /** A segment can stand in a parsed path of the given style. */
  predicate ValidPart(style: Style, x: string) {
    x != "" && x != "." && Sep(style) !in x && (style == Windows ==> '/' !in x)
  }

  predicate ValidParts(style: Style, parts: seq<string>) {
    forall i :: 0 <= i < |parts| ==> ValidPart(style, parts[i])
  }

  /** A Windows drive as `splitroot` cuts it: two characters, the second a colon. */
  predicate ValidDrive(d: string) {
    |d| == 2 && d[1] == ':' && d[0] != '\\' && d[0] != '/'
  }

  predicate WellFormed(style: Style, p: PurePath) {
    ValidParts(style, p.parts) &&
    match style
    case Posix => p.drive == "" && (p.root == "" || p.root == "/" || p.root == "//")
    case Windows => (p.drive == "" || ValidDrive(p.drive)) && (p.root == "" || p.root == "\\")
  }

  // ---------------------------------------------------------------------
  // Parsing and formatting
  // ---------------------------------------------------------------------

  /**
   * `PurePosixPath(s)`: a single leading slash or three and more give root
   * "/", exactly two give root "//"; the rest is split on '/'.
   */
  function ParsePosix(s: string): (p: PurePath)
    ensures WellFormed(Posix, p)
  {
    if |s| == 0 || s[0] != '/' then PurePath("", "", Segments(s, '/'))
    else if |s| == 1 || s[1] != '/' || (|s| >= 3 && s[2] == '/') then PurePath("", "/", Segments(s[1..], '/'))
    else PurePath("", "//", Segments(s[2..], '/'))
  }

  /** Windows accepts '/' as an alternative separator and reads it as '\'. */
  function ToBackslashes(s: string): (t: string)
    ensures |t| == |s|
    ensures forall i :: 0 <= i < |s| ==> t[i] == (if s[i] == '/' then '\\' else s[i])
    ensures '/' !in t
  {
    seq(|s|, i requires 0 <= i < |s| => if s[i] == '/' then '\\' else s[i])
  }

  /**
   * `PureWindowsPath(s)`: a leading separator is a root without drive;
   * a colon in second place makes the first two characters the drive, with a
   * root when a separator follows. UNC prefixes are not modelled.
   */
  function ParseWindows(s: string): (p: PurePath)
    ensures WellFormed(Windows, p)
  {
    var t := ToBackslashes(s);
    assert forall k :: 0 <= k <= |t| ==> '/' !in t[k..];
    if |t| >= 1 && t[0] == '\\' then PurePath("", "\\", Segments(t[1..], '\\'))
    else if |t| >= 2 && t[1] == ':' then
      if |t| >= 3 && t[2] == '\\' then PurePath(t[..2], "\\", Segments(t[3..], '\\'))
      else PurePath(t[..2], "", Segments(t[2..], '\\'))
    else PurePath("", "", Segments(t, '\\'))
  }

  function Parse(style: Style, s: string): (p: PurePath)
    ensures WellFormed(style, p)
  {
    match style
    case Posix => ParsePosix(s)
    case Windows => ParseWindows(s)
  }

  /** A first Windows segment that `splitdrive` would read as a drive. */
  predicate DriveLike(x: string) {
    |x| >= 2 && x[1] == ':'
  }

  /**
   * `str(path)`: drive, root and the segments joined by the separator; the
   * empty path is "."; a relative Windows path whose first segment reads as
   * a drive is prefixed with ".\" so that it parses back the same.
   */
  function Format(style: Style, p: PurePath): (s: string)
  {
    if p.drive != "" || p.root != "" then p.drive + p.root + JoinWith(p.parts, Sep(style))
    else if p.parts == [] then "."
    else if style == Windows && DriveLike(p.parts[0]) then ".\\" + JoinWith(p.parts, '\\')
    else JoinWith(p.parts, Sep(style))
  }

  /** The string pathlib prints for `s`. */
  function Normalise(style: Style, s: string): (r: string)
    ensures r != ""
  {
    Format(style, Parse(style, s))
  }

  // ---------------------------------------------------------------------
  // Parent and join
  // ---------------------------------------------------------------------

  /** `.parent`: drops the last segment; a path without segments is its own parent. */
  function Parent(p: PurePath): (q: PurePath)
    ensures q.drive == p.drive && q.root == p.root
    ensures p.parts == [] ==> q == p
    ensures p.parts != [] ==> q.parts + [p.parts[|p.parts| - 1]] == p.parts
  {
    if p.parts == [] then p else p.(parts := p.parts[..|p.parts| - 1])
  }

  function LowerAscii(c: char): char {
    if 'A' <= c <= 'Z' then (c as int + 32) as char else c
  }

  predicate SameDriveIgnoringCase(d: string, e: string) {
    |d| == |e| && forall i :: 0 <= i < |d| ==> LowerAscii(d[i]) == LowerAscii(e[i])
  }

  /**
   * `p / q`. POSIX: a rooted `q` wins, otherwise its segments are appended.
   * Windows: a rooted `q` keeps `p`'s drive unless it has its own; a
   * drive-relative `q` on another drive wins; otherwise `q`'s segments are
   * appended, taking `q`'s spelling of the drive when it names one.
   */
  function Join(style: Style, p: PurePath, q: PurePath): (r: PurePath)
    requires WellFormed(style, p) && WellFormed(style, q)
    ensures WellFormed(style, r)
  {
    match style
    case Posix =>
      if q.root != "" then q else p.(parts := p.parts + q.parts)
    case Windows =>
      if q.root != "" then
        PurePath(if q.drive != "" || p.drive == "" then q.drive else p.drive, q.root, q.parts)
      else if q.drive != "" && q.drive != p.drive && !SameDriveIgnoringCase(q.drive, p.drive) then q
      else PurePath(if q.drive != "" then q.drive else p.drive, p.root, p.parts + q.parts)
  }

  // ---------------------------------------------------------------------
  // remote_path and changedir
  // ---------------------------------------------------------------------

  predicate IsAsciiLetter(c: char) {
    'a' <= c <= 'z' || 'A' <= c <= 'Z'
  }

  /** The test `re.match(r"^[a-zA-Z]:[/\\]", s)`. */
  predicate LooksWindows(s: string) {
    |s| >= 3 && IsAsciiLetter(s[0]) && s[1] == ':' && (s[2] == '/' || s[2] == '\\')
  }

  function StyleOf(s: string): Style {
    if LooksWindows(s) then Windows else Posix
  }

  /**
   * `remote_path(s)`: the style chosen from `s` and `s` parsed in it. A
   * Windows path always comes out with its drive letter and a root.
   */
  function RemotePath(s: string): (r: (Style, PurePath))
    ensures r.0 == Windows <==> LooksWindows(s)
    ensures r.0 == Windows ==> |s| >= 3 && r.1.drive == s[..2] && r.1.root == "\\" && IsAsciiLetter(r.1.drive[0])
    ensures r.0 == Posix ==> r.1.drive == "" && (r.1.root != "" <==> |s| > 0 && s[0] == '/')
    ensures WellFormed(r.0, r.1)
  {
    var style := StyleOf(s);
    (style, Parse(style, s))
  }

  /**
   * `changedir(folder, entry)`: ".." gives the parent, "." gives `folder`
   * back unchanged, anything else is joined to `folder`; the style comes
   * from `folder` alone. The Python code returns a pure path, which the web
   * layer sends as its string.
   */
  function ChangeDir(folder: string, entry: string): (r: string)
    ensures entry == "." ==> r == folder
    ensures entry != "." ==> r != ""
  {
    var (style, path) := RemotePath(folder);
    if entry == ".." then Format(style, Parent(path))
    else if entry == "." then folder
    else Format(style, Join(style, path, Parse(style, entry)))
  }
}
